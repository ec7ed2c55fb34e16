/**
  Why `Nonce` needs one call per manager: overlapping calls on one instance share its lock-id
  field, so one call can release the lease another is using, and a later manager is handed a nonce
  beyond the chain's pending count.
 */
module SharedManager {
  import opened Options
  import opened Nonce
  import opened Stranded

  /** Every step as assumed, except that a call may start on a manager that has one. */
  ghost predicate TameRun(s: State, actions: seq<Action>)
    decreases actions
  {
    actions == [] ||
    (&& Enabled(s, actions[0])
     && FailureHandled(s, actions[0]) && NoCrashOwing(s, actions[0]) && LeaseKept(s, actions[0])
     && TameRun(Next(s, actions[0]), actions[1..]))
  }

  ghost predicate Tame(s: State, actions: seq<Action>, s': State) {
    Run(s, actions, s') && TameRun(s, actions)
  }

  lemma {:induction false} PathIsTame(s: State, actions: seq<Action>, s': State)
    requires Path(s, actions, s')
    ensures Tame(s, actions, s')
    decreases actions
  {
    if actions != [] {
      PathIsTame(Next(s, actions[0]), actions[1..], s');
    }
  }

  lemma {:induction false} TameOn(s: State, a: seq<Action>, mid: State, b: seq<Action>, s': State)
    requires Tame(s, a, mid) && Tame(mid, b, s')
    ensures Tame(s, a + b, s')
    decreases a
  {
    if a == [] {
      assert a + b == b;
    } else {
      assert (a + b)[1..] == a[1..] + b;
      TameOn(Next(s, a[0]), a[1..], mid, b, s');
    }
  }

  lemma TameThen(s: State, actions: seq<Action>, mid: State, a: Action, s': State) returns (more: seq<Action>)
    requires Tame(s, actions, mid) && Enabled(mid, a) && Next(mid, a) == s'
    requires FailureHandled(mid, a) && NoCrashOwing(mid, a) && LeaseKept(mid, a)
    ensures Tame(s, more, s')
  {
    assert [a][1..] == [];
    assert Tame(s', [], s');
    assert Tame(mid, [a], s');
    TameOn(s, actions, mid, [a], s');
    more := actions + [a];
  }

  lemma Nothing(s: State)
    ensures Tame(s, [], s)
  {
  }

  /** A call has the next nonce in hand, and the key carries its manager's id. */
  predicate InHand(s: State, c: CallId, m: ManagerId, n: nat) {
    && c in s.calls && s.calls[c] == Call(m, Handed(n), Some(n))
    && m in s.lockIds && s.lock == Some(s.lockIds[m])
    && s.counter == Some(n + 1) && s.pendingCount == n && !s.marker
  }

  lemma AheadIsInHand(s: State, c: CallId)
    requires Inv(s) && Ahead(s) && c in s.calls && s.calls[c].phase.Handed?
    ensures s.calls[c].phase.nonce >= 0 && InHand(s, c, s.calls[c].manager, s.calls[c].phase.nonce)
  {
    CallIsOk(s, c);
    HolderOwns(s, c);
    assert Clean(s.calls[c]);
  }

  // What the run passes through.

  /** A second call gave up: it took the counter back and released the first one's lease. */
  function Dropped(s: State, m: ManagerId, n: nat): State {
    s.(counter := Some(n), lock := None, lockIds := s.lockIds - {m})
  }

  /** The first call broadcast and recorded its transaction. */
  function SentAndRecorded(s: State, c: CallId, m: ManagerId, n: nat): State {
    Dropped(s, m, n).(pendingCount := n + 1, marker := true, calls := s.calls[c := Call(m, Recorded, None)])
  }

  /** A third call has the lock. */
  function Third(s: State, c: CallId, e: CallId, m: ManagerId, n: nat, id: LockId, call: Call): State {
    SentAndRecorded(s, c, m, n).(
      lock := Some(id), used := s.used + {id}, lockIds := (s.lockIds - {m})[m := id],
      calls := s.calls[c := Call(m, Recorded, None)][e := call])
  }

  /** It recovered the marker, reset the counter from the chain and has the next nonce in hand. */
  function Retaken(s: State, c: CallId, e: CallId, m: ManagerId, n: nat, id: LockId): State {
    Third(s, c, e, m, n, id, Call(m, Handed(n + 1), Some(n + 1))).(marker := false, counter := Some(n + 2))
  }

  /** The first call is confirmed and releases the third one's lease. */
  function Stolen(s: State, c: CallId, e: CallId, m: ManagerId, n: nat, id: LockId): State {
    var r := Retaken(s, c, e, m, n, id);
    r.(lock := None, lockIds := r.lockIds - {m}, calls := r.calls[c := Call(m, Finishing, None)])
  }

  lemma ToDropped(s: State, c: CallId, m: ManagerId, n: nat, d: CallId) returns (actions: seq<Action>)
    requires InHand(s, c, m, n) && d !in s.calls
    ensures Tame(s, actions, Dropped(s, m, n))
  {
    hide Tame;
    Nothing(s);
    var s1 := s.(calls := s.calls[d := Call(m, Waiting, None)]);
    var s2 := s.(calls := s.calls[d := Call(m, Failing(Other), None)]);
    var s3 := s.(counter := Some(n), calls := s.calls[d := Call(m, Clearing, None)]);
    var s4 := s.(counter := Some(n), calls := s.calls[d := Call(m, Releasing, None)]);
    actions := TameThen(s, [], s, Begin(d, m), s1);
    actions := TameThen(s, actions, s1, Throw(d), s2);
    actions := TameThen(s, actions, s2, Advance(d), s3);
    actions := TameThen(s, actions, s3, Advance(d), s4);
    assert s4.calls - {d} == s.calls;
    actions := TameThen(s, actions, s4, Advance(d), Dropped(s, m, n));
  }

  lemma ToRecorded(s: State, c: CallId, m: ManagerId, n: nat) returns (actions: seq<Action>)
    requires InHand(s, c, m, n)
    ensures Tame(Dropped(s, m, n), actions, SentAndRecorded(s, c, m, n))
  {
    hide Tame;
    var s0 := Dropped(s, m, n);
    Nothing(s0);
    var s1 := s0.(pendingCount := n + 1, calls := s.calls[c := Call(m, Phase.Sent, None)]);
    actions := TameThen(s0, [], s0, Advance(c), s1);
    actions := TameThen(s0, actions, s1, Advance(c), SentAndRecorded(s, c, m, n));
  }

  lemma ToThird(s: State, c: CallId, m: ManagerId, n: nat, e: CallId, id: LockId) returns (actions: seq<Action>)
    requires InHand(s, c, m, n) && e !in s.calls && id !in s.used
    ensures Tame(SentAndRecorded(s, c, m, n), actions, Third(s, c, e, m, n, id, Call(m, Recovering, None)))
  {
    hide Tame;
    var s0 := SentAndRecorded(s, c, m, n);
    Nothing(s0);
    var s1 := s0.(calls := s0.calls[e := Call(m, Waiting, None)]);
    var s2 := Third(s, c, e, m, n, id, Call(m, Locked, None));
    actions := TameThen(s0, [], s0, Begin(e, m), s1);
    actions := TameThen(s0, actions, s1, TakeLock(e, id), s2);
    actions := TameThen(s0, actions, s2, Advance(e), Third(s, c, e, m, n, id, Call(m, Recovering, None)));
  }

  lemma ToReset(s: State, c: CallId, m: ManagerId, n: nat, e: CallId, id: LockId) returns (actions: seq<Action>)
    requires InHand(s, c, m, n) && e !in s.calls && id !in s.used
    ensures Tame(Third(s, c, e, m, n, id, Call(m, Recovering, None)), actions,
                 Third(s, c, e, m, n, id, Call(m, Reading, None)).(marker := false, counter := Some(n + 1)))
  {
    hide Tame;
    var s0 := Third(s, c, e, m, n, id, Call(m, Recovering, None));
    Nothing(s0);
    var s1 := Third(s, c, e, m, n, id, Call(m, Resetting, None)).(marker := false);
    var s2 := Third(s, c, e, m, n, id, Call(m, Writing(n + 1), None)).(marker := false);
    actions := TameThen(s0, [], s0, Advance(e), s1);
    actions := TameThen(s0, actions, s1, Advance(e), s2);
    actions := TameThen(s0, actions, s2, Advance(e),
                        Third(s, c, e, m, n, id, Call(m, Reading, None)).(marker := false, counter := Some(n + 1)));
  }

  lemma ToRetaken(s: State, c: CallId, m: ManagerId, n: nat, e: CallId, id: LockId) returns (actions: seq<Action>)
    requires InHand(s, c, m, n) && e !in s.calls && id !in s.used
    ensures Tame(Third(s, c, e, m, n, id, Call(m, Reading, None)).(marker := false, counter := Some(n + 1)), actions,
                 Retaken(s, c, e, m, n, id))
  {
    hide Tame;
    var s0 := Third(s, c, e, m, n, id, Call(m, Reading, None)).(marker := false, counter := Some(n + 1));
    Nothing(s0);
    var s1 := Third(s, c, e, m, n, id, Call(m, Bumping(n + 1), None)).(marker := false, counter := Some(n + 1));
    actions := TameThen(s0, [], s0, Advance(e), s1);
    actions := TameThen(s0, actions, s1, Advance(e), Retaken(s, c, e, m, n, id));
  }

  lemma ToStolen(s: State, c: CallId, m: ManagerId, n: nat, e: CallId, id: LockId) returns (actions: seq<Action>)
    requires InHand(s, c, m, n) && e !in s.calls && id !in s.used
    ensures Tame(Retaken(s, c, e, m, n, id), actions, Stolen(s, c, e, m, n, id))
  {
    hide Tame;
    var s0 := Retaken(s, c, e, m, n, id);
    Nothing(s0);
    var s1 := s0.(calls := s0.calls[c := Call(m, Confirmed, None)]);
    var s2 := s0.(calls := s0.calls[c := Call(m, Phase.Unlocking, None)]);
    assert c != e;
    actions := TameThen(s0, [], s0, Advance(c), s1);
    actions := TameThen(s0, actions, s1, Advance(c), s2);
    actions := TameThen(s0, actions, s2, Advance(c), Stolen(s, c, e, m, n, id));
  }

  /**
    Whenever a call has a nonce in hand and the counter is ahead, two more calls on its own manager
    are enough for a nonce beyond the chain's pending count, nothing else going wrong.
   */
  lemma OverlapLeavesGap(s: State, c: CallId) returns (actions: seq<Action>, s': State)
    requires Inv(s) && Ahead(s) && c in s.calls && s.calls[c].phase.Handed?
    ensures Tame(s, actions, s') && !NoGap(s')
  {
    hide Tame, Inv, NoGap, Path, Enabled, Next;
    AheadIsInHand(s, c);
    var m, n := s.calls[c].manager, s.calls[c].phase.nonce;
    var e := Fresh(s.calls.Keys);
    var id := Fresh(s.used);
    assert e in s.calls ==> e in s.calls.Keys;
    actions := ToDropped(s, c, m, n, e);
    var more := ToRecorded(s, c, m, n);
    TameOn(s, actions, Dropped(s, m, n), more, SentAndRecorded(s, c, m, n));
    actions := actions + more;
    more := ToThird(s, c, m, n, e, id);
    TameOn(s, actions, SentAndRecorded(s, c, m, n), more, Third(s, c, e, m, n, id, Call(m, Recovering, None)));
    actions := actions + more;
    var reset := Third(s, c, e, m, n, id, Call(m, Reading, None)).(marker := false, counter := Some(n + 1));
    more := ToReset(s, c, m, n, e, id);
    TameOn(s, actions, Third(s, c, e, m, n, id, Call(m, Recovering, None)), more, reset);
    actions := actions + more;
    more := ToRetaken(s, c, m, n, e, id);
    TameOn(s, actions, reset, more, Retaken(s, c, e, m, n, id));
    actions := actions + more;
    more := ToStolen(s, c, m, n, e, id);
    TameOn(s, actions, Retaken(s, c, e, m, n, id), more, Stolen(s, c, e, m, n, id));
    actions := actions + more;
    more, s' := AheadGaps(Stolen(s, c, e, m, n, id));
    PathIsTame(Stolen(s, c, e, m, n, id), more, s');
    TameOn(s, actions, Stolen(s, c, e, m, n, id), more, s');
    actions := actions + more;
  }

  /** From an idle start, without one call per manager, a nonce can be handed out that leaves a gap. */
  lemma OverlappingCallsCanLeaveGap() returns (actions: seq<Action>, s: State)
    ensures Initial(IDLE) && Tame(IDLE, actions, s) && !NoGap(s)
  {
    hide Tame, Path, NoGap;
    var held, more;
    actions, held := NextCallReads(IDLE, 0, 0, 0);
    HeldIsReachable(actions, held);
    PathIsTame(IDLE, actions, held);
    more, s := OverlapLeavesGap(held, 0);
    TameOn(IDLE, actions, held, more, s);
    actions := actions + more;
  }

  lemma HeldIsReachable(actions: seq<Action>, held: State)
    requires Path(IDLE, actions, held)
    ensures Inv(held)
  {
    RunKeepsInv(IDLE, actions, held);
  }
}
