/**
  `NonceManager` and the nonce steps of `settleBatch` as they run, command after command, with any
  steps of other managers and of the chain in between. Each method is a run of the state machine
  of `Nonce`, so a nonce it returns never leaves a gap.
 */
module Manager {
  import opened Options
  import opened Nonce
  import opened Stranded
  import opened NonceCall

  /** What one command does: answer, throw without effect, or take effect and lose its reply. */
  datatype Fate = Answers | Fails | Loses

  /** `Nonce.Assumed`, as a test. */
  predicate AsAssumed(s: State, a: Action)
    ensures AsAssumed(s, a) ==> Assumed(s, a)
  {
    match a
    case Begin(_, m) => forall c {:trigger s.calls[c]} :: c in s.calls ==> s.calls[c].manager != m
    case Abandon(c) => c in s.calls ==> s.calls[c].owed.None?
    case Crash(m) => forall c {:trigger s.calls[c]} :: c in s.calls && s.calls[c].manager == m ==> s.calls[c].owed.None?
    case Expire => forall c {:trigger s.calls[c]} :: c in s.calls && Holding(s.calls[c]) ==>
          !Owns(s, s.calls[c].manager)
    case _ => true
  }

  /** An action of somebody else, as the design assumes it: it neither moves the call nor takes its manager away. */
  predicate Foreign(s: State, a: Action, c: CallId, me: ManagerId) {
    AsAssumed(s, a) &&
    match a
    case Begin(d, m) => d != c && m != me
    case TakeLock(d, _) => d != c
    case TakeLockLost(d, _) => d != c
    case Advance(d) => d != c
    case IncrLost(d) => d != c
    case Again(d) => d != c
    case Throw(d) => d != c
    case Reject(d, _) => d != c
    case Abandon(d) => d != c
    case Crash(m) => m != me
    case Destroy(m) => m != me
    case Expire => true
    case ChainGrows(_) => true
  }

  /** Whatever of these actions others manage to do. */
  function Disturbed(s: State, actions: seq<Action>, c: CallId, me: ManagerId): State {
    if actions == [] then s
    else
      var n := |actions| - 1;
      var before := Disturbed(s, actions[..n], c, me);
      if Enabled(before, actions[n]) && Foreign(before, actions[n], c, me) then Next(before, actions[n]) else before
  }

  /** Before and after a stretch of somebody else's actions. */
  ghost predicate Beside(s: State, s': State, c: CallId) {
    && c in s.calls && c in s'.calls && s'.calls[c] == s.calls[c]
    && s.pendingCount <= s'.pendingCount
    && (s.counter.Some? ==> s'.counter.Some?)
    && SameId(s, s', s.calls[c].manager)
  }

  /** Whoever has the lock, if it is not who had it, got it with a new id. */
  predicate NewHolder(s: State, s': State) {
    s'.lock.Some? && s'.lock != s.lock ==> s'.lock.value !in s.used
  }

  /** The manager's field holds what it held, and no id that was used is new to the key. */
  predicate SameId(s: State, s': State, m: ManagerId) {
    && s.used <= s'.used && NewHolder(s, s')
    && (m in s.lockIds <==> m in s'.lockIds)
    && (m in s.lockIds ==> s'.lockIds[m] == s.lockIds[m])
  }

  lemma ForeignIsBeside(s: State, a: Action, c: CallId, me: ManagerId)
    requires Inv(s) && Enabled(s, a) && Foreign(s, a, c, me) && c in s.calls && s.calls[c].manager == me
    ensures Inv(Next(s, a)) && Beside(s, Next(s, a), c)
  {
    hide LocksOk, CountersOk, MarkerOk;
    ActionKeepsInv(s, a);
    ForeignMoves(s, a, c, me);
  }

  lemma ForeignMoves(s: State, a: Action, c: CallId, me: ManagerId)
    requires SingleFlight(s.calls)
    requires Enabled(s, a) && Foreign(s, a, c, me) && c in s.calls && s.calls[c].manager == me
    ensures c in Next(s, a).calls && Next(s, a).calls[c] == s.calls[c]
    ensures (s.counter.Some? ==> Next(s, a).counter.Some?) && SameId(s, Next(s, a), me)
  {
    hide Step;
    if a.Advance? {
      ForeignSteps(s, a.c, c);
    }
  }

  lemma ForeignSteps(s: State, d: CallId, c: CallId)
    requires d in s.calls && !s.calls[d].phase.Waiting? && (s.calls[d].phase.Bumping? ==> s.counter.Some?)
    requires d != c && c in s.calls && s.calls[d].manager != s.calls[c].manager
    ensures c in Step(s, d).calls && Step(s, d).calls[c] == s.calls[c]
    ensures s.counter.Some? ==> Step(s, d).counter.Some?
    ensures SameId(s, Step(s, d), s.calls[c].manager)
  {
    hide Released, SameId;
    ReleasedOnlyUnlocks(s, s.calls[d].manager);
    ForeignKeys(s, d, s.calls[c].manager);
  }

  lemma ForeignKeys(s: State, d: CallId, me: ManagerId)
    requires d in s.calls && !s.calls[d].phase.Waiting? && (s.calls[d].phase.Bumping? ==> s.counter.Some?)
    requires s.calls[d].manager != me
    ensures SameId(s, Step(s, d), me)
  {
    hide Released;
    ReleasedOnlyUnlocks(s, s.calls[d].manager);
    ReleasedKeepsIds(s, s.calls[d].manager, me);
    match s.calls[d].phase
    case Unlocking =>
    case Releasing =>
    case _ =>
  }

  lemma ReleasedKeepsIds(s: State, m: ManagerId, me: ManagerId)
    ensures m != me ==> SameId(s, Released(s, m), me)
    ensures Released(s, m).lock == s.lock || Released(s, m).lock.None?
  {
  }

  /** The phases a command leads to when it answers. */
  predicate Follows(p: Phase, q: Phase) {
    match p
    case Locked => q.Recovering? || q.Reading?
    case Recovering => q.Resetting?
    case Resetting => q.Writing?
    case Writing(_) => q.Reading?
    case Reading => q.Bumping? || q.Resetting?
    case Bumping(n) => q == Handed(n)
    case Handed(_) => q.Sent?
    case Sent => q.Recorded?
    case Recorded => q.Confirmed?
    case Confirmed => q.Unlocking?
    case Unlocking => q.Finishing?
    case Failing(e) => if e.TooLow? then q.FailWriting? else q.Clearing?
    case FailWriting(_) => q.Clearing?
    case Clearing => q.Releasing?
    case _ => false
  }

  /** A command of this call that answers, and does not end the call. */
  lemma Steps(s: State, c: CallId)
    requires Inv(s) && c in s.calls && !s.calls[c].phase.Waiting?
    requires !s.calls[c].phase.Finishing? && !s.calls[c].phase.Releasing?
    ensures s.calls[c].phase.Bumping? ==> s.counter.Some?
    ensures Enabled(s, Advance(c)) && Inv(Step(s, c)) && s.pendingCount <= Step(s, c).pendingCount
    ensures c in Step(s, c).calls && Step(s, c).calls[c].manager == s.calls[c].manager
    ensures Follows(s.calls[c].phase, Step(s, c).calls[c].phase)
    ensures s.calls[c].phase.Reading? && s.counter.Some? ==> Step(s, c).calls[c].phase.Bumping?
    ensures s.counter.Some? || s.calls[c].phase.Writing? ==> Step(s, c).counter.Some?
    ensures s.calls[c].phase.Failing? && s.calls[c].phase.e.Other? ==> Step(s, c).calls[c].owed.None?
  {
    hide CountersOk, LocksOk, SingleFlight, MarkerOk;
    CallIsOk(s, c);
    ActionKeepsInv(s, Advance(c));
  }

  class NonceManager {
    /** The shared keys, the chain, and where every call is. */
    var world: State
    var clock: nat
    const me: ManagerId
    const others: nat -> seq<Action>
    const fates: nat -> Fate
    const rejections: nat -> Error

    constructor (world: State, me: ManagerId, others: nat -> seq<Action>, fates: nat -> Fate, rejections: nat -> Error)
      ensures this.world == world && this.me == me
    {
      this.world, clock := world, 0;
      this.me, this.others, this.fates, this.rejections := me, others, fates, rejections;
    }

    ghost predicate Mine(c: CallId)
      reads this
    {
      Inv(world) && c in world.calls && world.calls[c].manager == me
    }

    function Phase(c: CallId): Phase
      requires c in world.calls
      reads this
    {
      world.calls[c].phase
    }

    /** Every command after `from`, up to `to`, answers. */
    ghost predicate Answered(from: nat, to: nat) {
      forall i {:trigger fates(i)} :: from < i <= to ==> fates(i).Answers?
    }

    /** And nobody does anything in between. */
    ghost predicate Undisturbed(from: nat, to: nat) {
      Answered(from, to) && forall i {:trigger others(i)} :: from < i <= to ==> others(i) == []
    }

    /** Whatever the others manage to do before this call's next command. */
    method Meanwhile(c: CallId)
      requires Mine(c)
      modifies `world, `clock
      ensures Mine(c) && Beside(old(world), world, c)
      ensures clock == old(clock) + 1 && world == Disturbed(old(world), others(clock), c, me)
      ensures others(clock) == [] ==> world == old(world)
    {
      hide Inv, Next, Enabled, Foreign;
      clock := clock + 1;
      var actions := others(clock);
      for i := 0 to |actions|
        invariant Mine(c) && Beside(old(world), world, c)
        invariant clock == old(clock) + 1 && world == Disturbed(old(world), actions[..i], c, me)
      {
        assert actions[..i + 1][..i] == actions[..i];
        if Enabled(world, actions[i]) && Foreign(world, actions[i], c, me) {
          ForeignIsBeside(world, actions[i], c, me);
          world := Next(world, actions[i]);
        }
      }
      assert actions[..|actions|] == actions;
    }

    function Last(s: State, moves: seq<Move>): State {
      if moves == [] then s else moves[|moves| - 1].1
    }

    /** Each command found what others had made of what the one before it left. */
    ghost predicate Linked(s: State, moves: seq<Move>, from: nat, c: CallId) {
      moves == [] ||
      var n := |moves| - 1;
      && Linked(s, moves[..n], from, c)
      && moves[n].0 == Disturbed(Last(s, moves[..n]), others(from + 1 + n), c, me)
    }

    lemma Unlinked(s: State, from: nat, c: CallId)
      ensures Linked(s, [], from, c)
    {
    }

    lemma LinkedOn(s: State, moves: seq<Move>, from: nat, c: CallId, move: Move)
      requires Linked(s, moves, from, c)
      requires move.0 == Disturbed(Last(s, moves), others(from + 1 + |moves|), c, me)
      ensures Linked(s, moves + [move], from, c) && Last(s, moves + [move]) == move.1
    {
      hide Disturbed;
      assert (moves + [move])[..|moves|] == moves;
    }

    /** Before the first command of handleFailure: an `already known` needs none for the counter. */
    ghost function Heard(s: State, c: CallId): State
      requires c in s.calls && s.calls[c].phase.Failing?
    {
      var call := s.calls[c];
      if call.phase.e.AlreadyKnown? then s.(calls := s.calls[c := Call(call.manager, Clearing, None)]) else s
    }

    /** One command of the call: it answers, throws without effect, or takes effect and loses its reply. */
    method Send(c: CallId) returns (ok: bool, ghost found: State)
      requires Mine(c) && !Phase(c).Waiting? && !Phase(c).Finishing? && !Phase(c).Releasing? && !Phase(c).Handed?
      modifies `world, `clock
      ensures Mine(c) && old(world.pendingCount) <= world.pendingCount
      ensures clock == old(clock) + 1 && (ok <==> fates(clock).Answers?)
      ensures Beside(old(world), found, c) && found == Disturbed(old(world), others(clock), c, me)
      ensures others(clock) == [] ==> found == old(world)
      ensures if fates(clock).Fails? then world == found
              else Enabled(found, Advance(c)) && world == Nonce.Step(found, c)
      ensures ok ==> Follows(old(Phase(c)), Phase(c))
      ensures ok && old(Phase(c)).Reading? && old(world.counter.Some?) ==> Phase(c).Bumping?
      ensures old(world.counter.Some?) || (ok && old(Phase(c)).Writing?) ==> world.counter.Some?
      ensures ok && old(Phase(c)) == Failing(Other) ==> world.calls[c].owed.None?
      ensures !ok ==> world.calls[c] == old(world.calls[c]) || Follows(old(Phase(c)), Phase(c))
    {
      hide Inv, Nonce.Step, Enabled, Follows, Disturbed;
      Meanwhile(c);
      found := world;
      ok := fates(clock).Answers?;
      if !fates(clock).Fails? {
        Steps(world, c);
        world := Nonce.Step(world, c);
      }
    }

    /** An action of the call other than its next command answering. */
    method Take(c: CallId, a: Action)
      requires Mine(c) && Enabled(world, a) && Own(a, c)
      modifies `world
      ensures Mine(c) && world == Next(old(world), a) && world.pendingCount == old(world.pendingCount)
    {
      hide CountersOk, LocksOk, SingleFlight, MarkerOk;
      ActionKeepsInv(world, a);
      OwnStays(world, a, c);
      world := Next(world, a);
    }

    /**
      SET NX until it succeeds or the tries run out; a reply may be lost. When every SET answers, the
      lock is taken at the first try that finds the key free.
     */
    method AcquireLock(c: CallId, id: LockId, tries: nat) returns (ok: bool, ghost found: seq<State>)
      requires Mine(c) && Phase(c).Waiting?
      modifies `world, `clock
      ensures Mine(c) && old(clock) <= clock
      ensures if ok then Phase(c).Locked? && me in world.lockIds && world.lockIds[me] == id && id in world.used
              else Phase(c).Waiting? || Phase(c) == Failing(Other)
      ensures Answered(old(clock), clock) ==>
                && |found| == (if ok then clock - old(clock) else tries)
                && (forall i :: 0 <= i < |found| ==>
                      (found[i].lock.None? && id !in found[i].used <==> ok && i == |found| - 1))
                && (!ok ==> Phase(c).Waiting?)
      ensures Undisturbed(old(clock), clock) && 0 < tries && old(world).lock.None? && id !in old(world).used ==>
                ok && world == To(WithLock(old(world), me, id), c, Locked)
    {
      hide Inv;
      found := [];
      for i := 0 to tries
        invariant Mine(c) && Phase(c).Waiting? && clock == old(clock) + i && Answered(old(clock), clock)
        invariant |found| == i && forall j :: 0 <= j < i ==> !(found[j].lock.None? && id !in found[j].used)
        invariant Undisturbed(old(clock), clock) ==>
                    && world == old(world)
                    && (0 < i ==> old(world).lock.Some? || id in old(world).used)
      {
        Meanwhile(c);
        found := found + [world];
        if fates(clock).Fails? {
          return false, found;
        }
        // The SET finds the key free; ids are never reused.
        if world.lock.None? && id !in world.used {
          ok := fates(clock).Answers?;
          Take(c, if ok then TakeLock(c, id) else TakeLockLost(c, id));
          return;
        }
        if fates(clock).Loses? {
          return false, found;
        }
      }
      ok := false;
    }

    /** DEL the marker, read the pending count, SET the counter to it. */
    method ClearAndReset(c: CallId) returns (ok: bool)
      requires Mine(c) && Phase(c).Recovering?
      modifies `world, `clock
      ensures Mine(c) && old(clock) <= clock && SameId(old(world), world, me)
      ensures if ok then Phase(c).Reading? && world.counter.Some?
              else Phase(c).Recovering? || Phase(c).Resetting? || Phase(c).Writing? || Phase(c).Reading?
      ensures ok <==> Answered(old(clock), clock)
      ensures Undisturbed(old(clock), clock) ==>
                world == To(old(world), c, Reading).(marker := false, counter := Some(old(world).pendingCount))
    {
      hide Inv, Nonce.Step, Enabled, Follows, Disturbed;
      ghost var found;
      ok, found := Send(c);
      ReadingStep(found, c);
      if ok {
        ok := ResetFromChain(c);
      }
    }

    method ResetFromChain(c: CallId) returns (ok: bool)
      requires Mine(c) && Phase(c).Resetting?
      modifies `world, `clock
      ensures Mine(c) && old(clock) < clock && SameId(old(world), world, me)
      ensures if ok then Phase(c).Reading? && world.counter.Some?
              else Phase(c).Resetting? || Phase(c).Writing? || Phase(c).Reading?
      ensures ok <==> Answered(old(clock), clock)
      ensures Undisturbed(old(clock), clock) ==>
                world == To(old(world), c, Reading).(counter := Some(old(world).pendingCount))
    {
      hide Inv, Nonce.Step, Enabled, Follows, Disturbed;
      ghost var found;
      ok, found := Send(c);
      ReadingStep(found, c);
      if ok {
        ok, found := Send(c);
        ReadingStep(found, c);
      }
    }

    /** The same in the try clause, and once more in the catch clause if that throws. */
    method Recover(c: CallId) returns (ok: bool)
      requires Mine(c) && Phase(c).Recovering?
      modifies `world, `clock
      ensures Mine(c) && old(clock) <= clock && SameId(old(world), world, me)
      ensures if ok then Phase(c).Reading? && world.counter.Some?
              else Phase(c).Recovering? || Phase(c).Resetting? || Phase(c).Writing? || Phase(c).Reading?
      ensures Answered(old(clock), clock) ==> ok
      ensures Undisturbed(old(clock), clock) ==>
                world == To(old(world), c, Reading).(marker := false, counter := Some(old(world).pendingCount))
    {
      hide Inv;
      ok := ClearAndReset(c);
      if !ok {
        if !Phase(c).Recovering? {
          Take(c, Again(c));
        }
        ok := ClearAndReset(c);
      }
    }

    /** There is no counter: SET it from the chain and GET it again. */
    method ResetAndRead(c: CallId) returns (ok: bool)
      requires Mine(c) && Phase(c).Resetting?
      modifies `world, `clock
      ensures Mine(c) && old(clock) < clock && SameId(old(world), world, me)
      ensures if ok then Phase(c).Bumping?
              else Phase(c).Reading? || Phase(c).Bumping? || Phase(c).Resetting? || Phase(c).Writing?
      ensures ok <==> Answered(old(clock), clock)
      ensures Undisturbed(old(clock), clock) ==>
                var p := old(world).pendingCount;
                world == To(old(world), c, Bumping(p)).(counter := Some(p))
    {
      hide Inv, Nonce.Step, Enabled, Follows, Disturbed;
      ok := ResetFromChain(c);
      if ok {
        ghost var found;
        ok, found := Send(c);
        ReadingStep(found, c);
      }
    }

    /** GET the counter. */
    method ReadCounter(c: CallId) returns (ok: bool)
      requires Mine(c) && Phase(c).Reading?
      modifies `world, `clock
      ensures Mine(c) && old(clock) < clock && SameId(old(world), world, me)
      ensures if ok then Phase(c).Bumping?
              else Phase(c).Reading? || Phase(c).Bumping? || Phase(c).Resetting? || Phase(c).Writing?
      ensures ok <==> Answered(old(clock), clock)
      ensures Undisturbed(old(clock), clock) ==>
                var n := if old(world).counter.Some? then old(world).counter.value else old(world).pendingCount;
                world == To(old(world), c, Bumping(n)).(counter := Some(n))
    {
      hide Inv, Nonce.Step, Enabled, Follows, Disturbed;
      ghost var found;
      ok, found := Send(c);
      ReadingStep(found, c);
      if ok && Phase(c).Resetting? {
        ok := ResetAndRead(c);
      }
    }

    /** A call that threw: its next step is the catch clause. */
    predicate Stopped(c: CallId)
      requires c in world.calls
      reads this
    {
      && !Phase(c).Handed?
      && (Phase(c).Waiting? || Critical(Phase(c)) || Phase(c).Finishing? || Phase(c).Failing?)
    }

    method Increment(c: CallId) returns (nonce: Option<int>)
      requires Mine(c) && Phase(c).Bumping?
      modifies `world, `clock
      ensures Mine(c) && clock == old(clock) + 1 && SameId(old(world), world, me)
      ensures nonce.Some? ==> Phase(c) == Handed(nonce.value) && nonce.value <= world.pendingCount
      ensures nonce.None? ==> Stopped(c)
      ensures nonce.Some? <==> fates(clock).Answers?
      ensures Undisturbed(old(clock), clock) ==>
                var n := old(Phase(c)).read;
                && nonce == Some(n) && old(world).counter.Some?
                && world == old(world).(counter := Some(old(world).counter.value + 1),
                                        calls := old(world).calls[c := Call(me, Handed(n), Some(n))])
    {
      hide CountersOk, LocksOk, SingleFlight, MarkerOk;
      Meanwhile(c);
      CallIsOk(world, c);
      if fates(clock).Answers? {
        nonce := Some(world.calls[c].phase.read);
        Steps(world, c);
        world := Nonce.Step(world, c);
      } else {
        nonce := None;
        if fates(clock).Loses? {
          Take(c, IncrLost(c));
        }
      }
    }

    /** With the lock: GET the marker, recover if there is one. */
    method CheckMarker(c: CallId) returns (ok: bool)
      requires Mine(c) && Phase(c).Locked?
      modifies `world, `clock
      ensures Mine(c) && old(clock) < clock && SameId(old(world), world, me)
      ensures if ok then Phase(c).Reading? else Stopped(c)
      ensures Answered(old(clock), clock) ==> ok
      ensures Undisturbed(old(clock), clock) ==>
                var counter := if old(world).marker then Some(old(world).pendingCount) else old(world).counter;
                world == To(old(world), c, Reading).(marker := false, counter := counter)
    {
      hide Inv, Nonce.Step, Enabled;
      ghost var found;
      ok, found := Send(c);
      ReadingStep(found, c);
      if ok && Phase(c).Recovering? {
        ok := Recover(c);
      }
    }

    /** With the lock: what AcquireNonce returns. */
    method TakeNext(c: CallId) returns (nonce: Option<int>)
      requires Mine(c) && Phase(c).Locked?
      modifies `world, `clock
      ensures Mine(c) && old(clock) < clock && SameId(old(world), world, me)
      ensures nonce.Some? ==> Phase(c) == Handed(nonce.value) && nonce.value <= world.pendingCount
      ensures nonce.None? ==> Stopped(c)
      ensures Answered(old(clock), clock) ==> nonce.Some?
      ensures Undisturbed(old(clock), clock) ==>
                var n := NextNonce(old(world));
                && nonce == Some(n)
                && world == old(world).(marker := false, counter := Some(n + 1),
                                        calls := old(world).calls[c := Call(me, Handed(n), Some(n))])
    {
      hide Inv;
      nonce := None;
      var ok := CheckMarker(c);
      if ok {
        ok := ReadCounter(c);
      }
      if ok {
        nonce := Increment(c);
      }
    }

    /**
      A nonce it returns is at most the chain's pending count. If every command answers, only the lock
      can be refused; undisturbed and with the key free, it returns the counter, or the pending count
      if there is no counter or a marker was left behind.
     */
    method AcquireNonce(c: CallId, id: LockId, tries: nat) returns (nonce: Option<int>)
      requires Mine(c) && Phase(c).Waiting?
      modifies `world, `clock
      ensures Mine(c) && old(clock) <= clock
      ensures nonce.Some? ==> Phase(c) == Handed(nonce.value) && nonce.value <= world.pendingCount
      ensures nonce.Some? ==> me in world.lockIds && world.lockIds[me] == id && id in world.used
      ensures nonce.None? ==> Stopped(c)
      ensures Answered(old(clock), clock) ==> nonce.Some? || Phase(c).Waiting?
      ensures Undisturbed(old(clock), clock) && 0 < tries && old(world).lock.None? && id !in old(world).used ==>
                nonce == Some(NextNonce(old(world))) && world == WithNonce(old(world), c, me, id)
    {
      hide Inv;
      nonce := None;
      OwesNothingYet(world, c);
      ghost var found;
      var ok;
      ok, found := AcquireLock(c, id, tries);
      if ok {
        nonce := TakeNext(c);
      }
    }

    /** The broadcast: the nonce it carries is at most what the chain expects next at that moment. */
    method Broadcast(c: CallId, nonce: int) returns (ok: bool, ghost expected: int)
      requires Mine(c) && Phase(c) == Handed(nonce) && nonce <= world.pendingCount
      modifies `world, `clock
      ensures Mine(c) && nonce <= expected && clock == old(clock) + 1 && SameId(old(world), world, me)
      ensures if ok then Phase(c).Sent? else Phase(c).Failing? || (fates(clock).Loses? && Phase(c).Sent?)
      ensures ok <==> fates(clock).Answers?
      ensures fates(clock).Fails? ==>
                var e := rejections(clock);
                Phase(c) == Failing(if e.AlreadyKnown? && nonce >= expected then Other else e)
      ensures Undisturbed(old(clock), clock) ==>
                var p := old(world).pendingCount;
                world == old(world).(pendingCount := if nonce == p then p + 1 else p,
                                     calls := old(world).calls[c := Call(me, Nonce.Phase.Sent, None)])
    {
      hide CountersOk, LocksOk, SingleFlight, MarkerOk;
      Meanwhile(c);
      expected := world.pendingCount;
      ok := fates(clock).Answers?;
      if !fates(clock).Fails? {
        Steps(world, c);
        world := Nonce.Step(world, c);
      } else {
        var e := rejections(clock);
        // A node knows a transaction already only if its nonce is taken.
        Take(c, Reject(c, if e.AlreadyKnown? && nonce >= world.pendingCount then Other else e));
      }
    }

    /** The manager has forgotten its lock id, and the key does not carry it. */
    predicate Dropped(s: State, s': State)
      reads this
    {
      && s.used <= s'.used && NewHolder(s, s')
      && me !in s'.lockIds && (me in s.lockIds ==> s'.lock != Some(s.lockIds[me]))
    }

    /** confirmNonce, and the wait for the receipt. */
    method ConfirmNonce(c: CallId) returns (ok: bool)
      requires Mine(c) && Phase(c).Sent?
      modifies `world, `clock
      ensures Mine(c) && if ok then Phase(c).Confirmed? else Phase(c).Sent? || Phase(c).Recorded? || Phase(c).Confirmed?
      ensures old(clock) < clock && (ok <==> Answered(old(clock), clock)) && SameId(old(world), world, me)
      ensures Undisturbed(old(clock), clock) ==> world == To(old(world), c, Confirmed).(marker := true)
    {
      hide Inv, Nonce.Step, Enabled, Follows, Disturbed;
      ghost var found;
      ok, found := Send(c);
      ConfirmingStep(found, c);
      if ok {
        ok, found := Send(c);
        ConfirmingStep(found, c);
      }
    }

    /** onTxConfirmed: clear the marker, release the lock. */
    method OnTxConfirmed(c: CallId) returns (ok: bool)
      requires Mine(c) && Phase(c).Confirmed?
      modifies `world, `clock
      ensures Mine(c) && if ok then Phase(c).Finishing? else Stopped(c)
      ensures old(clock) < clock && (ok <==> Answered(old(clock), clock))
      ensures if Phase(c).Finishing? then Dropped(old(world), world) else SameId(old(world), world, me)
      ensures Undisturbed(old(clock), clock) ==>
                world == WithoutLock(To(old(world), c, Finishing), me).(marker := false)
    {
      hide Inv, Nonce.Step, Enabled, Follows, Disturbed;
      ghost var found;
      ok, found := Send(c);
      ConfirmingStep(found, c);
      if ok {
        ok, found := Send(c);
        ConfirmingStep(found, c);
      }
    }

    /** Recording, the receipt, and the release of the lock. */
    method Confirm(c: CallId) returns (ok: bool)
      requires Mine(c) && Phase(c).Sent?
      modifies `world, `clock
      ensures Mine(c) && if ok then Phase(c).Finishing? else Stopped(c)
      ensures old(clock) < clock && (ok <==> Answered(old(clock), clock))
      ensures if Phase(c).Finishing? then Dropped(old(world), world) else SameId(old(world), world, me)
      ensures Undisturbed(old(clock), clock) ==>
                world == WithoutLock(To(old(world), c, Finishing), me).(marker := false)
    {
      hide Inv, Nonce.Step, Enabled;
      ok := ConfirmNonce(c);
      if ok {
        ok := OnTxConfirmed(c);
      }
    }

    /** Nonce too low: read the pending count, SET the counter to it. */
    method Recount(c: CallId) returns (ok: bool, ghost moves: seq<Move>)
      requires Mine(c) && Phase(c) == Failing(TooLow)
      modifies `world, `clock
      ensures Mine(c) && old(clock) < clock && SameId(old(world), world, me)
      ensures if ok then Phase(c).Clearing? else Phase(c).Failing? || Phase(c).FailWriting? || Phase(c).Clearing?
      ensures (ok <==> Answered(old(clock), clock)) && (!ok ==> !fates(clock).Answers?)
      ensures ok ==>
                && |moves| == clock - old(clock) == 2 && moves[1].1 == world
                && Linked(old(world), moves, old(clock), c)
                && world.counter == Some(moves[0].0.pendingCount)
      ensures Undisturbed(old(clock), clock) ==>
                world == old(world).(counter := Some(old(world).pendingCount),
                                     calls := old(world).calls[c := Call(me, Clearing, None)])
    {
      hide Inv, Nonce.Step, Enabled, Follows, Linked, Disturbed;
      moves := [];
      Unlinked(world, clock, c);
      ghost var found;
      ok, found := Send(c);
      CountingStep(found, c);
      LinkedOn(old(world), moves, old(clock), c, (found, world));
      moves := moves + [(found, world)];
      if ok {
        ok, found := Send(c);
        CountingStep(found, c);
        LinkedOn(old(world), moves, old(clock), c, (found, world));
        moves := moves + [(found, world)];
      }
    }

    /** The transaction was never sent, or is underpriced: take the counter back by one. */
    method TakeBack(c: CallId) returns (ok: bool, ghost moves: seq<Move>)
      requires Mine(c) && Phase(c).Failing? && (Phase(c).e.Underpriced? || Phase(c).e.Other?)
      modifies `world, `clock
      ensures Mine(c) && old(clock) < clock && SameId(old(world), world, me)
      ensures if ok then Phase(c).Clearing? else Phase(c).Failing? || Phase(c).Clearing?
      ensures (ok <==> Answered(old(clock), clock)) && (!ok ==> !fates(clock).Answers?)
      ensures ok ==>
                && |moves| == clock - old(clock) == 1 && moves[0].1 == world
                && Linked(old(world), moves, old(clock), c)
                && world.counter == Some((if moves[0].0.counter.Some? then moves[0].0.counter.value else 0) - 1)
      ensures Undisturbed(old(clock), clock) ==>
                world == old(world).(
                           counter := Some((if old(world).counter.Some? then old(world).counter.value else 0) - 1),
                           calls := old(world).calls[c := Call(me, Clearing, None)])
    {
      hide Inv, Nonce.Step, Enabled, Follows, Linked, Disturbed;
      moves := [];
      Unlinked(world, clock, c);
      ghost var found;
      ok, found := Send(c);
      CountingStep(found, c);
      LinkedOn(old(world), moves, old(clock), c, (found, world));
      moves := moves + [(found, world)];
    }

    /** The part of handleFailure that is about the counter. */
    method SettleCounter(c: CallId) returns (ok: bool, ghost moves: seq<Move>)
      requires Mine(c) && Phase(c).Failing?
      modifies `world, `clock
      ensures Mine(c) && old(clock) <= clock && SameId(old(world), world, me)
      ensures if ok then Phase(c).Clearing? else Phase(c).Failing? || Phase(c).FailWriting? || Phase(c).Clearing?
      ensures (ok <==> Answered(old(clock), clock)) && (!ok ==> !fates(clock).Answers?)
      ensures ok ==> |moves| == clock - old(clock) && Linked(Heard(old(world), c), moves, old(clock), c)
      ensures ok ==> Last(Heard(old(world), c), moves) == world
      ensures ok ==>
                var e := old(Phase(c)).e;
                && |moves| == (match e case TooLow => 2 case AlreadyKnown => 0 case _ => 1)
                && (e.TooLow? ==> moves[1].1.counter == Some(moves[0].0.pendingCount))
                && (e.Underpriced? || e.Other? ==>
                      moves[0].1.counter ==
                      Some((if moves[0].0.counter.Some? then moves[0].0.counter.value else 0) - 1))
      ensures Undisturbed(old(clock), clock) ==>
                var left := AfterFailure(old(world), c, me, old(Phase(c)).e);
                world == old(world).(counter := left.counter, calls := old(world).calls[c := Call(me, Clearing, None)])
    {
      hide Inv, Nonce.Step, Enabled, Follows, Linked, Disturbed;
      if Phase(c).e.TooLow? {
        ok, moves := Recount(c);
      } else if Phase(c).e.AlreadyKnown? {
        // No command: the transaction may still confirm.
        ok, moves := true, [];
        Unlinked(Heard(world, c), clock, c);
        CountingStep(world, c);
        Steps(world, c);
        world := Nonce.Step(world, c);
      } else {
        ok, moves := TakeBack(c);
      }
    }

    /** And then the marker. */
    method SettleFailure(c: CallId) returns (ok: bool, ghost moves: seq<Move>)
      requires Mine(c) && Phase(c).Failing?
      modifies `world, `clock
      ensures Mine(c) && old(clock) < clock && SameId(old(world), world, me)
      ensures if ok then Phase(c).Releasing?
              else Phase(c).Failing? || Phase(c).FailWriting? || Phase(c).Clearing? || Phase(c).Releasing?
      ensures ok <==> Answered(old(clock), clock)
      ensures !ok ==> !fates(clock).Answers?
      ensures ok ==> |moves| == clock - old(clock) && Linked(Heard(old(world), c), moves, old(clock), c)
      ensures ok ==> Last(Heard(old(world), c), moves) == world
      ensures ok ==> Counted(old(Phase(c)).e, moves)
      ensures Undisturbed(old(clock), clock) ==>
                var left := AfterFailure(old(world), c, me, old(Phase(c)).e);
                world == old(world).(counter := left.counter, marker := false,
                                     calls := old(world).calls[c := Call(me, Releasing, None)])
    {
      hide Inv, Nonce.Step, Enabled, Follows, Linked, Disturbed, Heard;
      ghost var found;
      ok, moves := SettleCounter(c);
      if ok {
        OwesNothingYet(world, c);
        ok, found := Send(c);
        ClearingStep(found, c);
        LinkedOn(Heard(old(world), c), moves, old(clock), c, (found, world));
        moves := moves + [(found, world)];
      }
    }

    /**
      The counter, the marker and the lock; it gives up wherever it throws. If that is while the
      nonce is still owed, the call leaves what `Stranded` describes; if nothing throws, everything
      that was the call's is put right.
     */
    method HandleFailure(c: CallId) returns (ghost stranded: bool, ghost moves: seq<Move>)
      requires Mine(c) && Phase(c).Failing?
      modifies `world, `clock
      ensures c !in world.calls && old(clock) < clock
      ensures if stranded then Left(world) && !fates(clock).Answers? else Inv(world)
      ensures Answered(old(clock), clock) ==>
                && !stranded && Dropped(old(world), world) && Handled(old(Phase(c)).e, me, moves, world)
                && Linked(Heard(old(world), c), moves, old(clock), c)
      ensures Undisturbed(old(clock), clock) ==> world == AfterFailure(old(world), c, me, old(Phase(c)).e)
    {
      hide Inv, Left, Nonce.Step, Linked, Disturbed, Heard, Counted;
      stranded := false;
      ghost var found;
      var ok;
      ok, moves := SettleFailure(c);
      if !ok {
        stranded := world.calls[c].owed.Some?;
        GiveUp(c);
        return;
      }
      OwesNothingYet(world, c);
      Meanwhile(c);
      found := world;
      ReleasingStep(found, c);
      // A release whose reply is lost has landed all the same.
      End(c, if fates(clock).Fails? then Abandon(c) else Advance(c));
      LinkedOn(Heard(old(world), c), moves, old(clock), c, (found, world));
      assert (moves + [(found, world)])[..|moves|] == moves;
      moves := moves + [(found, world)];
    }

    /** handleFailure throws: the call ends with whatever it still owes. */
    method GiveUp(c: CallId)
      requires Mine(c) && Enabled(world, Abandon(c))
      modifies `world
      ensures c !in world.calls && world == Next(old(world), Abandon(c))
      ensures if old(world).calls[c].owed.Some? then Left(world) else Inv(world)
    {
      hide CountersOk, LocksOk, SingleFlight, MarkerOk, Left;
      if world.calls[c].owed.Some? {
        AbandonLeaves(world, c);
      } else {
        ActionKeepsInv(world, Abandon(c));
      }
      world := Next(world, Abandon(c));
    }

    /** The step that ends the call. */
    method End(c: CallId, a: Action)
      requires Mine(c) && Enabled(world, a)
      requires || (a == Abandon(c) && world.calls[c].owed.None?)
               || (a == Advance(c) && (Phase(c).Releasing? || Phase(c).Finishing?))
      modifies `world
      ensures Inv(world) && c !in world.calls && world == Next(old(world), a)
    {
      hide CountersOk, LocksOk, SingleFlight, MarkerOk;
      ActionKeepsInv(world, a);
      world := Next(world, a);
    }

    /** The lock and its id are gone, or the id is still in the manager's field. */
    ghost predicate Parted(id: LockId, over: bool)
      reads this
    {
      && id in world.used
      && if me in world.lockIds then !over && world.lockIds[me] == id else world.lock != Some(id)
    }

    /** The try clause up to the receipt: acquire, broadcast, confirm. */
    method Settle(c: CallId, id: LockId, tries: nat) returns (ok: bool, ghost sent: Option<int>, ghost expected: int)
      requires Mine(c) && Phase(c).Waiting?
      modifies `world, `clock
      ensures Mine(c) && old(clock) <= clock && (sent.Some? ==> sent.value <= expected)
      ensures if ok then Phase(c).Finishing? && sent.Some? else Stopped(c)
      ensures sent.Some? ==>
                Parted(id, Phase(c).Finishing?) && (ok ==> me !in world.lockIds)
      ensures Undisturbed(old(clock), clock) && 0 < tries && old(world).lock.None? && id !in old(world).used ==>
                && ok && sent == Some(NextNonce(old(world)))
                && world == WithReceipt(old(world), c, me, id)
    {
      hide Inv;
      sent, expected := None, 0;
      var nonce := AcquireNonce(c, id, tries);
      ok := nonce.Some?;
      if ok {
        ok, expected := Broadcast(c, nonce.value);
        sent := Some(nonce.value);
      }
      if ok {
        ok := Confirm(c);
      }
    }

    /** The rest of the try clause: a reverted receipt, or a block that cannot be read, throws. */
    method Finish(c: CallId) returns (ok: bool)
      requires Mine(c) && Phase(c).Finishing?
      modifies `world, `clock
      ensures clock == old(clock) + 1 && (ok <==> fates(clock).Answers?)
      ensures if ok then Inv(world) && c !in world.calls else Mine(c) && Phase(c).Finishing?
      ensures old(world).used <= world.used && NewHolder(old(world), world)
      ensures me !in old(world).lockIds ==> me !in world.lockIds
      ensures Undisturbed(old(clock), clock) ==>
                Enabled(old(world), Advance(c)) && world == Next(old(world), Advance(c))
    {
      hide CountersOk, LocksOk, SingleFlight, MarkerOk;
      Meanwhile(c);
      ok := fates(clock).Answers?;
      if ok {
        End(c, Advance(c));
      }
    }

    /** The whole try clause. */
    method Try(c: CallId, id: LockId, tries: nat) returns (ok: bool, ghost sent: Option<int>, ghost expected: int)
      requires Mine(c) && Phase(c).Waiting?
      modifies `world, `clock
      ensures old(clock) <= clock && (sent.Some? ==> sent.value <= expected) && (ok ==> sent.Some?)
      ensures if ok then Inv(world) && c !in world.calls else Mine(c) && Stopped(c)
      ensures sent.Some? ==> Parted(id, ok)
      ensures Undisturbed(old(clock), clock) && 0 < tries && old(world).lock.None? && id !in old(world).used ==>
                && ok && sent == Some(NextNonce(old(world)))
                && Enabled(WithReceipt(old(world), c, me, id), Advance(c))
                && world == Next(WithReceipt(old(world), c, me, id), Advance(c))
    {
      hide Inv, Next, Enabled, WithReceipt;
      ok, sent, expected := Settle(c, id, tries);
      if ok {
        ok := Finish(c);
      }
    }

    /** Into the catch clause, from wherever the call threw. */
    method Catch(c: CallId)
      requires Mine(c) && Stopped(c)
      modifies `world
      ensures Mine(c) && Phase(c).Failing?
      ensures world.lock == old(world).lock && world.lockIds == old(world).lockIds && world.used == old(world).used
    {
      hide Inv;
      if !Phase(c).Failing? {
        Take(c, Throw(c));
      }
    }

    /**
      One `settleBatch`: whatever answers, throws or is rejected, and whatever the others do, the
      call ends, a nonce it broadcast was at most the one the chain expected, and the invariant of
      the protocol stands unless the failure handler itself threw with the nonce owed. A call that
      succeeds, or whose failure handler (from `failedAt` on) has all its commands answered, keeps
      neither the lock nor its id; undisturbed and with the key free, it leaves `AfterCall`.
     */
    method SettleBatch(c: CallId, id: LockId, tries: nat)
      returns (ok: bool, ghost sent: Option<int>, ghost expected: int, ghost stranded: bool, ghost failedAt: nat)
      requires Inv(world) && c !in world.calls
      requires forall d {:trigger world.calls[d]} :: d in world.calls ==> world.calls[d].manager != me
      modifies `world, `clock
      ensures c !in world.calls
      ensures if stranded then Left(world) && !fates(clock).Answers? else Inv(world)
      ensures sent.Some? ==> sent.value <= expected
      ensures ok ==> sent.Some? && !stranded
      ensures old(clock) <= failedAt <= clock
      ensures ok || Answered(failedAt, clock) ==>
                !stranded && me !in world.lockIds && (sent.Some? ==> world.lock != Some(id))
      ensures Undisturbed(old(clock), clock) && 0 < tries && old(world).lock.None? && id !in old(world).used ==>
                ok && sent == Some(NextNonce(old(world))) && world == AfterCall(old(world), me, id)
    {
      hide Inv, Left, Next, WithReceipt, AfterCall, AfterFailure, Handled;
      stranded := false;
      Starts(world, c, me);
      world := Next(world, Begin(c, me));
      ok, sent, expected := Try(c, id, tries);
      WholeCall(old(world), c, me, id);
      failedAt := clock;
      if ok {
        return;
      }
      Catch(c);
      ghost var moves;
      stranded, moves := HandleFailure(c);
    }
  }

  /** The call's own actions that leave it in place. */
  predicate Own(a: Action, c: CallId) {
    match a
    case TakeLock(d, _) => d == c
    case TakeLockLost(d, _) => d == c
    case IncrLost(d) => d == c
    case Again(d) => d == c
    case Throw(d) => d == c
    case Reject(d, _) => d == c
    case _ => false
  }

  lemma OwnStays(s: State, a: Action, c: CallId)
    requires Enabled(s, a) && Own(a, c) && c in s.calls
    ensures c in Next(s, a).calls && Next(s, a).calls[c].manager == s.calls[c].manager
    ensures Next(s, a).pendingCount == s.pendingCount && !a.Begin?
  {
  }
}
