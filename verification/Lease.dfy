/**
  The nonce lock as a lease: SET NX PX, compare-and-extend and compare-and-delete by any number of
  managers, with time passing and keys expiring in between.
 */
module Lease {
  import opened Options

  type ManagerId = nat
  type LockId = nat

  datatype Key = Key(id: LockId, expires: nat)

  datatype State = State(now: nat, key: Option<Key>, fields: map<ManagerId, LockId>, used: set<LockId>)

  datatype Action =
    | Acquire(m: ManagerId, id: LockId)
    | Extend(m: ManagerId)
    | Release(m: ManagerId)
    | Tick(elapsed: nat)

  /** Lock ids are never reused. */
  predicate Enabled(s: State, a: Action) {
    a.Acquire? ==> a.id !in s.used
  }

  /** RELEASE_LOCK_SCRIPT: the key goes only if it carries the given id. */
  function CompareAndDelete(key: Option<Key>, id: LockId): Option<Key> {
    if key.Some? && key.value.id == id then None else key
  }

  /** EXTEND_LOCK_SCRIPT: the key gets a new expiry only if it carries the given id. */
  function CompareAndExtend(key: Option<Key>, id: LockId, expires: nat): Option<Key> {
    if key.Some? && key.value.id == id then Some(Key(id, expires)) else key
  }

  function Next(s: State, a: Action, ttl: nat): State {
    match a
    case Acquire(m, id) =>
      if s.key.None? then
        s.(key := Some(Key(id, s.now + ttl)), fields := s.fields[m := id], used := s.used + {id})
      else
        s.(used := s.used + {id})
    case Extend(m) =>
      if m in s.fields then s.(key := CompareAndExtend(s.key, s.fields[m], s.now + ttl)) else s
    case Release(m) =>
      if m in s.fields then s.(key := CompareAndDelete(s.key, s.fields[m]), fields := s.fields - {m}) else s
    case Tick(elapsed) =>
      var now := s.now + elapsed;
      s.(now := now, key := if s.key.Some? && s.key.value.expires <= now then None else s.key)
  }

  ghost predicate Run(s: State, actions: seq<Action>, ttl: nat, s': State)
    decreases actions
  {
    if actions == [] then s' == s else Enabled(s, actions[0]) && Run(Next(s, actions[0], ttl), actions[1..], ttl, s')
  }

  /** Every id in sight was used once, by one manager. */
  ghost predicate Inv(s: State) {
    && (s.key.Some? ==> s.key.value.id in s.used)
    && (forall m :: m in s.fields ==> s.fields[m] in s.used)
    && (forall m, n :: m in s.fields && n in s.fields && s.fields[m] == s.fields[n] ==> m == n)
  }

  predicate Owns(s: State, m: ManagerId) {
    m in s.fields && s.key.Some? && s.key.value.id == s.fields[m]
  }

  lemma StepKeepsInv(s: State, a: Action, ttl: nat)
    requires Inv(s) && Enabled(s, a)
    ensures Inv(Next(s, a, ttl))
  {
  }

  /**
    How long the lease has gone without a heartbeat: every tick keeps that under one TTL, and the
    manager neither releases nor takes a new lock.
   */
  predicate Timely(actions: seq<Action>, m: ManagerId, since: nat, ttl: nat)
    decreases actions
  {
    actions == [] ||
    match actions[0]
    case Acquire(n, _) => n != m && Timely(actions[1..], m, since, ttl)
    case Extend(n) => Timely(actions[1..], m, if n == m then 0 else since, ttl)
    case Release(n) => n != m && Timely(actions[1..], m, since, ttl)
    case Tick(elapsed) => since + elapsed < ttl && Timely(actions[1..], m, since + elapsed, ttl)
  }

  /** The manager owns the lease, last refreshed `since` ago. */
  predicate Fresh(s: State, m: ManagerId, since: nat, ttl: nat) {
    Owns(s, m) && s.key.value.expires + since == s.now + ttl
  }

  /** How long ago the last heartbeat was, after one more action. */
  function Since(a: Action, m: ManagerId, since: nat): nat {
    match a
    case Extend(n) => if n == m then 0 else since
    case Tick(elapsed) => since + elapsed
    case _ => since
  }

  lemma OthersKeepFresh(s: State, a: Action, m: ManagerId, since: nat, ttl: nat)
    requires Inv(s) && Enabled(s, a) && Fresh(s, m, since, ttl) && Timely([a], m, since, ttl)
    ensures Fresh(Next(s, a, ttl), m, Since(a, m, since), ttl)
  {
    match a
    case Extend(n) => assert n in s.fields && s.fields[n] == s.fields[m] ==> n == m;
    case Release(n) => assert n in s.fields && s.fields[n] == s.fields[m] ==> n == m;
    case _ =>
  }

  /**
    Whatever every other manager does, stale holders included, a manager whose heartbeats land less
    than one TTL apart still owns the lease at the end of the run.
   */
  lemma {:induction false} LeaseNeverLapses(s: State, actions: seq<Action>, ttl: nat, s': State, m: ManagerId,
                                            since: nat)
    requires Inv(s) && Run(s, actions, ttl, s') && Fresh(s, m, since, ttl) && Timely(actions, m, since, ttl)
    ensures Owns(s', m) && s'.fields[m] == s.fields[m]
    decreases actions
  {
    if actions != [] {
      var a := actions[0];
      assert Timely([a], m, since, ttl) by {
        assert [a][1..] == [];
      }
      OthersKeepFresh(s, a, m, since, ttl);
      StepKeepsInv(s, a, ttl);
      LeaseNeverLapses(Next(s, a, ttl), actions[1..], ttl, s', m, Since(a, m, since));
    }
  }

  function Elapsed(actions: seq<Action>): nat {
    if actions == [] then 0 else (if actions[0].Tick? then actions[0].elapsed else 0) + Elapsed(actions[1..])
  }

  /** An id that is gone from the key stays gone. */
  lemma {:induction false} GoneForGood(s: State, actions: seq<Action>, ttl: nat, s': State, id: LockId)
    requires Inv(s) && Run(s, actions, ttl, s') && id in s.used
    requires s.key.Some? ==> s.key.value.id != id
    ensures s'.key.Some? ==> s'.key.value.id != id
    decreases actions
  {
    if actions != [] {
      StepKeepsInv(s, actions[0], ttl);
      GoneForGood(Next(s, actions[0], ttl), actions[1..], ttl, s', id);
    }
  }

  /** A holder that stopped acting loses the lease once its expiry has passed: nobody can renew it for it. */
  lemma {:induction false} DeadHolderLapses(s: State, actions: seq<Action>, ttl: nat, s': State, id: LockId)
    requires Inv(s) && Run(s, actions, ttl, s')
    requires s.key.Some? && s.key.value.id == id
    requires forall m :: m in s.fields && s.fields[m] == id ==>
               forall i :: 0 <= i < |actions| ==>
                   actions[i] != Extend(m) && actions[i] != Release(m) && !(actions[i].Acquire? && actions[i].m == m)
    requires s.key.value.expires <= s.now + Elapsed(actions)
    requires s.now < s.key.value.expires
    ensures s'.key.Some? ==> s'.key.value.id != id
    decreases actions
  {
    var a := actions[0];
    var s1 := Next(s, a, ttl);
    StepKeepsInv(s, a, ttl);
    assert a in actions;
    if s1.key.Some? && s1.key.value.id == id {
      assert s1.key == s.key;
      forall m, i | m in s1.fields && s1.fields[m] == id && 0 <= i < |actions[1..]|
        ensures actions[1..][i] != Extend(m) && actions[1..][i] != Release(m)
        ensures !(actions[1..][i].Acquire? && actions[1..][i].m == m)
      {
        assert actions[1..][i] == actions[i + 1];
        assert m in s.fields && s.fields[m] == id;
      }
      DeadHolderLapses(s1, actions[1..], ttl, s', id);
    } else {
      GoneForGood(s1, actions[1..], ttl, s', id);
    }
  }

  /** Nobody but the owner moves the key while it is held: not a stale id, not a newcomer. */
  lemma OnlyOwnerMovesKey(s: State, a: Action, ttl: nat)
    requires Inv(s) && Enabled(s, a) && s.key.Some? && !a.Tick?
    ensures Next(s, a, ttl).key != s.key ==> (a.Extend? || a.Release?) && Owns(s, a.m)
    ensures forall n :: Owns(s, n) && n != a.m ==> Owns(Next(s, a, ttl), n)
  {
    var m := a.m;
    assert forall n :: m in s.fields && Owns(s, n) && n != m ==> s.fields[m] != s.fields[n];
  }
}
