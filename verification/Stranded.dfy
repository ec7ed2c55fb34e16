/**
  Why `Nonce` needs the failure of a call to be handled: when handleFailure itself throws, or the
  process dies, while a nonce is still owed, nobody takes the counter back. Exactly when that leaves
  a gap, and a run in which it does.
 */
module Stranded {
  import opened Options
  import opened Nonce

  /** What such a call leaves: nobody in the lock, the marker clear, and the counter wherever it was. */
  ghost predicate Left(s: State) {
    && SingleFlight(s.calls) && LocksOk(s) && !s.marker
    && forall c {:trigger s.calls[c]} :: c in s.calls ==>
          !Holding(s.calls[c]) && CallOk(s.calls[c], s.counter, s.pendingCount)
  }

  /** A run in which every step is as the design assumes. */
  ghost predicate Path(s: State, actions: seq<Action>, s': State) {
    Run(s, actions, s') && AssumedRun(s, actions)
  }

  /** The counter is beyond what the chain expects. */
  predicate Ahead(s: State) {
    s.counter.Some? && s.pendingCount < s.counter.value
  }

  lemma AbandonLeaves(s: State, c: CallId)
    requires Inv(s) && Enabled(s, Abandon(c)) && s.calls[c].owed.Some?
    ensures Left(Next(s, Abandon(c)))
  {
    OthersIdle(s, c);
    GoneKeepsLocks(s, c);
    var s' := Next(s, Abandon(c));
    FewerCallsFly(s.calls, s'.calls);
    assert Clean(s.calls[c]);
    forall d | d in s'.calls ensures !Holding(s'.calls[d]) && CallOk(s'.calls[d], s'.counter, s'.pendingCount) {
      CallIsOk(s, d);
    }
  }

  lemma CrashLeaves(s: State, c: CallId)
    requires Inv(s) && c in s.calls && s.calls[c].owed.Some?
    ensures Left(Next(s, Crash(s.calls[c].manager)))
  {
    var s' := Next(s, Crash(s.calls[c].manager));
    OthersIdle(s, c);
    KeepsLocks(s, Crash(s.calls[c].manager));
    FewerCallsFly(s.calls, s'.calls);
    assert Clean(s.calls[c]);
    forall d | d in s'.calls ensures !Holding(s'.calls[d]) && CallOk(s'.calls[d], s'.counter, s'.pendingCount) {
      CallIsOk(s, d);
    }
  }

  /** If the counter is not ahead, nothing is wrong. */
  lemma LeftBehindIsFine(s: State)
    requires Left(s) && !Ahead(s)
    ensures Inv(s)
  {
  }

  lemma {:induction false} Fresh(xs: set<nat>) returns (n: nat)
    ensures forall x :: x in xs ==> x < n
  {
    if xs == {} {
      n := 0;
    } else {
      var x :| x in xs;
      n := Fresh(xs - {x});
      n := if x < n then n else x + 1;
      assert forall y :: y in xs ==> y == x || y in xs - {x};
    }
  }

  lemma OneAction(s: State, a: Action)
    requires Enabled(s, a) && Assumed(s, a)
    ensures Path(s, [a], Next(s, a))
  {
    assert [a][1..] == [];
    assert Run(Next(s, a), [], Next(s, a)) && AssumedRun(Next(s, a), []);
  }

  lemma {:induction false} PathOn(s: State, a: seq<Action>, mid: State, b: seq<Action>, s': State)
    requires Path(s, a, mid) && Path(mid, b, s')
    ensures Path(s, a + b, s')
    decreases a
  {
    if a == [] {
      assert a + b == b;
    } else {
      assert (a + b)[1..] == a[1..] + b;
      PathOn(Next(s, a[0]), a[1..], mid, b, s');
    }
  }

  lemma Then(s: State, actions: seq<Action>, mid: State, a: Action) returns (more: seq<Action>)
    requires Path(s, actions, mid) && Enabled(mid, a) && Assumed(mid, a)
    ensures Path(s, more, Next(mid, a))
  {
    OneAction(mid, a);
    more := actions + [a];
    PathOn(s, actions, mid, [a], Next(mid, a));
  }

  /** A state in which the next call has got that far. */
  function With(s: State, c: CallId, m: ManagerId, id: LockId, call: Call): State {
    s.(lock := Some(id), used := s.used + {id}, lockIds := s.lockIds[m := id], calls := s.calls[c := call])
  }

  /** With the key free and the marker clear, the next call of anyone is handed the counter as it is. */
  lemma NextCallReads(s: State, c: CallId, m: ManagerId, id: LockId) returns (actions: seq<Action>, s': State)
    requires s.lock.None? && !s.marker && s.counter.Some?
    requires c !in s.calls && id !in s.used
    requires forall d {:trigger s.calls[d]} :: d in s.calls ==> s.calls[d].manager != m
    ensures Path(s, actions, s')
    ensures var n := s.counter.value;
            s' == With(s, c, m, id, Call(m, Handed(n), Some(n))).(counter := Some(n + 1))
  {
    hide Path;
    var s2 := With(s, c, m, id, Call(m, Locked, None));
    actions := NextCallLocks(s, c, m, id);
    var rest;
    rest, s' := LockedReads(s, c, m, id);
    PathOn(s, actions, s2, rest, s');
    actions := actions + rest;
  }

  lemma NextCallLocks(s: State, c: CallId, m: ManagerId, id: LockId) returns (actions: seq<Action>)
    requires s.lock.None? && c !in s.calls && id !in s.used
    requires forall d {:trigger s.calls[d]} :: d in s.calls ==> s.calls[d].manager != m
    ensures Path(s, actions, With(s, c, m, id, Call(m, Locked, None)))
  {
    hide Path;
    OneAction(s, Begin(c, m));
    var s1 := Next(s, Begin(c, m));
    assert Next(s1, TakeLock(c, id)) == With(s, c, m, id, Call(m, Locked, None));
    actions := Then(s, [Begin(c, m)], s1, TakeLock(c, id));
  }

  lemma LockedReads(s: State, c: CallId, m: ManagerId, id: LockId) returns (actions: seq<Action>, s': State)
    requires !s.marker && s.counter.Some?
    ensures Path(With(s, c, m, id, Call(m, Locked, None)), actions, s')
    ensures var n := s.counter.value;
            s' == With(s, c, m, id, Call(m, Handed(n), Some(n))).(counter := Some(n + 1))
  {
    hide Path;
    var s2, s3 := With(s, c, m, id, Call(m, Locked, None)), With(s, c, m, id, Call(m, Reading, None));
    assert Next(s2, Advance(c)) == s3;
    OneAction(s2, Advance(c));
    actions, s' := ReadingReads(s, c, m, id);
    PathOn(s2, [Advance(c)], s3, actions, s');
    actions := [Advance(c)] + actions;
  }

  lemma ReadingReads(s: State, c: CallId, m: ManagerId, id: LockId) returns (actions: seq<Action>, s': State)
    requires s.counter.Some?
    ensures Path(With(s, c, m, id, Call(m, Reading, None)), actions, s')
    ensures var n := s.counter.value;
            s' == With(s, c, m, id, Call(m, Handed(n), Some(n))).(counter := Some(n + 1))
  {
    hide Path;
    var n := s.counter.value;
    var s3, s4 := With(s, c, m, id, Call(m, Reading, None)), With(s, c, m, id, Call(m, Bumping(n), None));
    s' := With(s, c, m, id, Call(m, Handed(n), Some(n))).(counter := Some(n + 1));
    assert Next(s3, Advance(c)) == s4;
    OneAction(s3, Advance(c));
    assert Next(s4, Advance(c)) == s';
    actions := Then(s3, [Advance(c)], s4, Advance(c));
  }

  /** From a free key, a clear marker and a counter that is ahead, one more call leaves a gap. */
  lemma AheadGaps(s: State) returns (actions: seq<Action>, s': State)
    requires s.lock.None? && !s.marker && Ahead(s)
    ensures Path(s, actions, s') && !NoGap(s')
  {
    var c := Fresh(s.calls.Keys);
    var ms := set d | d in s.calls :: s.calls[d].manager;
    var m := Fresh(ms);
    var id := Fresh(s.used);
    forall d | d in s.calls ensures s.calls[d].manager != m {
      assert s.calls[d].manager in ms;
    }
    assert c in s.calls ==> c in s.calls.Keys;
    actions, s' := NextCallReads(s, c, m, id);
    assert s'.calls[c].phase.Handed? && s'.pendingCount < s'.calls[c].phase.nonce;
  }

  /** What is left behind leads to a gap, by steps all as assumed, if and only if the counter is ahead. */
  lemma LeftGapsExactly(s: State)
    requires Left(s)
    ensures (exists actions, s' :: Path(s, actions, s') && !NoGap(s')) <==> Ahead(s)
  {
    if Ahead(s) {
      OneAction(s, Expire);
      var rest, s' := AheadGaps(Next(s, Expire));
      PathOn(s, [Expire], Next(s, Expire), rest, s');
    } else {
      LeftBehindIsFine(s);
      forall actions, s' | Path(s, actions, s') ensures NoGap(s') {
        RunKeepsInv(s, actions, s');
        CoreHasNoGap(s');
      }
    }
  }

  /**
    handleFailure throws with its nonce owed: a gap is then reachable, with one call per manager and
    nothing else going wrong, if and only if the counter is beyond the chain's pending count.
   */
  lemma AbandonGapsExactly(s: State, c: CallId)
    requires Inv(s) && Enabled(s, Abandon(c)) && s.calls[c].owed.Some?
    ensures (exists actions, s' :: Path(Next(s, Abandon(c)), actions, s') && !NoGap(s')) <==> Ahead(s)
  {
    AbandonLeaves(s, c);
    LeftGapsExactly(Next(s, Abandon(c)));
  }

  /** Likewise for a process that dies with a nonce owed. */
  lemma CrashGapsExactly(s: State, c: CallId)
    requires Inv(s) && c in s.calls && s.calls[c].owed.Some?
    ensures (exists actions, s' :: Path(Next(s, Crash(s.calls[c].manager)), actions, s') && !NoGap(s')) <==> Ahead(s)
  {
    CrashLeaves(s, c);
    LeftGapsExactly(Next(s, Crash(s.calls[c].manager)));
  }

  // ----- A run -----

  const IDLE := State(Some(5), None, false, 5, map[], map[], {})

  // One call has nonce 5 in hand and its broadcast was rejected.
  const REJECTED := State(Some(6), Some(0), false, 5, map[0 := 0], map[0 := Call(0, Failing(Other), Some(5))], {0})

  lemma ToRejected() returns (actions: seq<Action>)
    ensures Path(IDLE, actions, REJECTED)
  {
    hide Path;
    var held;
    actions, held := NextCallReads(IDLE, 0, 0, 0);
    assert Next(held, Reject(0, Other)) == REJECTED;
    actions := Then(IDLE, actions, held, Reject(0, Other));
  }

  /**
    One call, one manager: its broadcast is rejected, handleFailure throws before its DECR, the lease
    runs out, and the next call is handed nonce 6 while the chain expects 5.
   */
  lemma ThrowingHandlerLeavesGap() returns (before: seq<Action>, after: seq<Action>, s: State)
    ensures Initial(IDLE) && Path(IDLE, before, REJECTED) && Enabled(REJECTED, Abandon(0))
    ensures Path(Next(REJECTED, Abandon(0)), after, s) && !NoGap(s)
  {
    before := ToRejected();
    RunKeepsInv(IDLE, before, REJECTED);
    AbandonGapsExactly(REJECTED, 0);
    after, s :| Path(Next(REJECTED, Abandon(0)), after, s) && !NoGap(s);
  }
}
