/**
  Why `Nonce` needs leases to outlast their use: a lease that runs out under a call leaves two calls
  in the critical section. Exactly for which calls that lets a gap follow, with everything after it
  as the design assumes.
 */
module Expiry {
  import opened Options
  import opened Nonce
  import opened Stranded

  /**
    What the call still does to the counter cannot surprise whoever holds the lock after it: nothing,
    a DECR, or a SET to less than the pending count.
   */
  predicate Spent(call: Call, pendingCount: nat) {
    match call.phase
    case Failing(e) => !e.TooLow?
    case FailWriting(at) => at < pendingCount
    case Waiting => false
    case p => !Critical(p) || p.Sent? || p.Recorded? || p.Confirmed? || p.Unlocking?
  }

  function Without(s: State, c: CallId): State {
    s.(calls := s.calls - {c})
  }

  /** A spent call whose lease is gone; without it the state is as it should be. */
  ghost predicate Stale(s: State, c: CallId) {
    && c in s.calls && Spent(s.calls[c], s.pendingCount)
    && !Owns(s, s.calls[c].manager)
    && SingleFlight(s.calls) && Core(Without(s, c))
  }

  // ----- Spent calls do no harm -----

  lemma OthersStayOk(calls: map<CallId, Call>, counter: Option<int>, pendingCount: nat, counter': Option<int>)
    requires CountersOk(calls, counter, pendingCount)
    requires counter.Some? ==> counter'.Some? && counter'.value <= Max(counter.value, pendingCount - 1)
    requires counter.None? ==> AtMost(counter', pendingCount)
    ensures CountersOk(calls, counter', pendingCount)
  {
  }

  lemma ExpiryLeavesStale(s: State, c: CallId)
    requires Inv(s) && c in s.calls && Holding(s.calls[c]) && Spent(s.calls[c], s.pendingCount) && !Ahead(s)
    ensures Stale(Next(s, Expire), c)
  {
    OthersIdle(s, c);
    GoneKeepsLocks(s, c);
    var t := Without(Next(s, Expire), c);
    FewerCallsFly(s.calls, t.calls);
    forall d | d in t.calls ensures CallOk(t.calls[d], t.counter, t.pendingCount) {
      CallIsOk(s, d);
    }
  }

  predicate About(a: Action, c: CallId) {
    match a
    case Begin(d, _) => d == c
    case TakeLock(d, _) => d == c
    case TakeLockLost(d, _) => d == c
    case Advance(d) => d == c
    case IncrLost(d) => d == c
    case Again(d) => d == c
    case Throw(d) => d == c
    case Reject(d, _) => d == c
    case Abandon(d) => d == c
    case _ => false
  }

  lemma MovingCommutes(calls: map<CallId, Call>, c: CallId, d: CallId, call: Call)
    requires c != d
    ensures calls[d := call] - {c} == (calls - {c})[d := call]
    ensures (calls - {d}) - {c} == (calls - {c}) - {d}
  {
  }

  /** A step moves the call or ends it. */
  lemma StepMovesOrEnds(s: State, d: CallId)
    requires Enabled(s, Advance(d))
    ensures var s' := Step(s, d);
            s'.calls == if d in s'.calls then s.calls[d := s'.calls[d]] else s.calls - {d}
  {
    hide Released;
    ReleasedOnlyUnlocks(s, s.calls[d].manager);
    match s.calls[d].phase
    case Finishing =>
    case Releasing =>
    case _ =>
  }

  lemma ReleasedSame(s: State, t: State, m: ManagerId)
    requires t == s.(calls := t.calls)
    ensures Released(t, m) == Released(s, m).(calls := t.calls)
  {
  }

  /** What a step does depends on the calls only through its own. */
  ghost predicate Alike(s: State, t: State, d: CallId)
    requires Enabled(s, Advance(d)) && Enabled(t, Advance(d))
  {
    var s', t' := Step(s, d), Step(t, d);
    && t' == s'.(calls := t'.calls)
    && (d in t'.calls <==> d in s'.calls)
    && (d in t'.calls ==> t'.calls[d] == s'.calls[d])
  }

  lemma StepSame(s: State, t: State, d: CallId)
    requires Enabled(s, Advance(d)) && Enabled(t, Advance(d)) && t == s.(calls := t.calls) && t.calls[d] == s.calls[d]
    ensures Alike(s, t, d)
  {
    hide Released;
    ReleasedSame(s, t, s.calls[d].manager);
    ReleasedOnlyUnlocks(s, s.calls[d].manager);
    match s.calls[d].phase
    case Unlocking =>
    case Releasing =>
    case _ =>
  }

  lemma StepsDoNotSee(s: State, c: CallId, d: CallId)
    requires c in s.calls && Enabled(s, Advance(d)) && d != c
    ensures Enabled(Without(s, c), Advance(d)) && Without(Step(s, d), c) == Step(Without(s, c), d)
  {
    hide Owns;
    var s', t := Step(s, d), Without(s, c);
    assert t.calls[d] == s.calls[d];
    StepMovesOrEnds(s, d);
    StepMovesOrEnds(t, d);
    StepSame(s, t, d);
    if d in s'.calls {
      MovingCommutes(s.calls, c, d, s'.calls[d]);
    } else {
      MovingCommutes(s.calls, c, d, s.calls[d]);
    }
  }

  /** Everyone else's steps are the same without it. */
  lemma OthersDoNotSee(s: State, c: CallId, a: Action)
    requires c in s.calls && Enabled(s, a) && !About(a, c)
    ensures Enabled(Without(s, c), a) && Without(Next(s, a), c) == Next(Without(s, c), a)
  {
    hide Step;
    match a
    case Advance(d) => StepsDoNotSee(s, c, d);
    case Begin(d, m) => MovingCommutes(s.calls, c, d, Call(m, Waiting, None));
    case Abandon(d) => MovingCommutes(s.calls, c, d, s.calls[d]);
    case Crash(m) =>
    case Expire =>
    case Destroy(m) =>
    case ChainGrows(to) =>
    case _ => MovingCommutes(s.calls, c, a.c, Next(s, a).calls[a.c]);
  }

  lemma AssumedWithout(s: State, c: CallId, a: Action)
    requires c in s.calls && Assumed(s, a) && !About(a, c)
    ensures Assumed(Without(s, c), a)
  {
  }

  /** What the stale call's own step leaves of the rest. */
  lemma OwnStepLowers(s: State, c: CallId)
    requires Stale(s, c) && Enabled(s, Advance(c))
    ensures var s' := Step(s, c);
            && s'.lock == s.lock && s'.used == s.used && s'.pendingCount == s.pendingCount
            && (s'.lockIds == s.lockIds || s'.lockIds == s.lockIds - {s.calls[c].manager})
            && (s.counter.Some? ==> s'.counter.Some? && s'.counter.value <= Max(s.counter.value, s.pendingCount - 1))
            && (s.counter.None? ==> AtMost(s'.counter, s.pendingCount))
            && (c in s'.calls ==> Spent(s'.calls[c], s.pendingCount))
  {
    hide Core, SingleFlight;
    match s.calls[c].phase
    case Unlocking =>
    case Releasing =>
    case _ =>
  }

  lemma OwnStepStaysStale(s: State, c: CallId)
    requires Stale(s, c) && Enabled(s, Advance(c))
    ensures var s' := Step(s, c); if c in s'.calls then Stale(s', c) else Core(s')
  {
    hide Step, CountersOk, Spent;
    var s', t := Step(s, c), Without(s, c);
    var m := s.calls[c].manager;
    var t' := Without(s', c);
    OwnStepLowers(s, c);
    StepMovesOrEnds(s, c);
    assert t'.calls == t.calls;
    OthersStayOk(t.calls, t.counter, t.pendingCount, t'.counter);
    assert forall d :: d in t.calls ==> d in s.calls && s.calls[d].manager != m;
    assert LocksOk(t');
    if c in s'.calls {
      CallsStay(s, Advance(c));
      assert Next(s, Advance(c)) == s';
      FewerCallsFly(s.calls, s'.calls);
    } else {
      assert t' == s';
    }
  }

  /** The rest of what the stale call can do: give up. */
  lemma GivingUpStaysStale(s: State, c: CallId, a: Action)
    requires Stale(s, c) && Enabled(s, a) && (a == Throw(c) || a == Abandon(c))
    ensures var s' := Next(s, a); if c in s'.calls then Stale(s', c) else Core(s')
  {
    hide Core, SingleFlight;
    KeepsSingleFlight(s, a);
    assert Without(Next(s, a), c) == Without(s, c);
  }

  /** A lease that is gone stays gone while no call on its manager takes the lock. */
  lemma LeaseStaysGone(t: State, a: Action, m: ManagerId)
    requires LocksOk(t) && Enabled(t, a) && !Owns(t, m)
    requires forall d {:trigger t.calls[d]} :: d in t.calls ==> t.calls[d].manager != m
    ensures !Owns(Next(t, a), m)
  {
    if a.Advance? {
      var p := t.calls[a.c].phase;
      if !p.Unlocking? && !p.Releasing? {
        assert Next(t, a).lock == t.lock && Next(t, a).lockIds == t.lockIds;
      }
    }
  }

  lemma StaleCallStays(s: State, c: CallId, a: Action)
    requires c in s.calls && Enabled(s, a) && !About(a, c) && c in Next(s, a).calls
    ensures Next(s, a).calls[c] == s.calls[c]
  {
    if a.Advance? {
      hide Step;
      StepMovesOrEnds(s, a.c);
    }
  }

  /** Somebody else acts. */
  lemma OthersStepStaysStale(s: State, c: CallId, a: Action)
    requires Stale(s, c) && Enabled(s, a) && Assumed(s, a) && !About(a, c)
    ensures var s' := Next(s, a); if c in s'.calls then Stale(s', c) else Core(s')
  {
    hide LocksOk, CountersOk, SingleFlight, Next, Enabled, FailureHandled, NoCrashOwing, LeaseKept, Solo, Spent, Owns;
    var s', m := Next(s, a), s.calls[c].manager;
    OthersDoNotSee(s, c, a);
    AssumedWithout(s, c, a);
    ActionKeepsCore(Without(s, c), a);
    KeepsSingleFlight(s, a);
    AloneOnManager(s, c);
    LeaseStaysGone(Without(s, c), a, m);
    if c in s'.calls {
      StaleCallStays(s, c, a);
      SpentStays(s.calls[c], s.pendingCount, s'.pendingCount);
      OwnsIgnoresCalls(s', c, m);
    } else {
      assert Without(s', c) == s';
    }
  }

  lemma AloneOnManager(s: State, c: CallId)
    requires SingleFlight(s.calls) && c in s.calls
    ensures !Owns(s, s.calls[c].manager) ==> !Owns(Without(s, c), s.calls[c].manager)
    ensures forall d {:trigger Without(s, c).calls[d]} :: d in Without(s, c).calls ==>
              Without(s, c).calls[d].manager != s.calls[c].manager
  {
  }

  lemma OwnsIgnoresCalls(s: State, c: CallId, m: ManagerId)
    requires !Owns(Without(s, c), m)
    ensures !Owns(s, m)
  {
  }

  lemma SpentStays(call: Call, pendingCount: nat, pendingCount': nat)
    requires Spent(call, pendingCount) && pendingCount <= pendingCount'
    ensures Spent(call, pendingCount')
  {
  }

  /** Its own next steps are the ones above. */
  lemma StaleStaysStale(s: State, c: CallId, a: Action)
    requires Stale(s, c) && Enabled(s, a) && Assumed(s, a)
    ensures var s' := Next(s, a); if c in s'.calls then Stale(s', c) else Core(s')
  {
    if !About(a, c) {
      OthersStepStaysStale(s, c, a);
    } else if a.Advance? {
      OwnStepStaysStale(s, c);
    } else {
      hide Core, Next, SingleFlight;
      GivingUpStaysStale(s, c, a);
    }
  }

  lemma {:induction false} StaleNeverGaps(s: State, c: CallId, actions: seq<Action>, s': State)
    requires Stale(s, c) && Path(s, actions, s')
    ensures NoGap(s')
    decreases actions
  {
    if actions == [] {
      CoreHasNoGap(Without(s, c));
      assert forall d :: d in s.calls && d != c ==> Without(s, c).calls[d] == s.calls[d];
    } else {
      var next := Next(s, actions[0]);
      StaleStaysStale(s, c, actions[0]);
      if c in next.calls {
        StaleNeverGaps(next, c, actions[1..], s');
      } else {
        CoreNeverGaps(next, actions[1..], s');
      }
    }
  }

  lemma {:induction false} CoreNeverGaps(s: State, actions: seq<Action>, s': State)
    requires Core(s) && Path(s, actions, s')
    ensures NoGap(s')
    decreases actions
  {
    if actions == [] {
      CoreHasNoGap(s);
    } else {
      ActionKeepsCore(s, actions[0]);
      CoreNeverGaps(Next(s, actions[0]), actions[1..], s');
    }
  }

  // ----- The others do -----

  ghost predicate Reaches(s: State, s': State) {
    exists actions :: Path(s, actions, s')
  }

  ghost predicate Gaps(s: State) {
    exists actions, s' :: Path(s, actions, s') && !NoGap(s')
  }

  lemma Stays(s: State)
    ensures Reaches(s, s)
  {
    assert Path(s, [], s);
  }

  lemma ReachesOn(s: State, mid: State, s': State)
    requires Reaches(s, mid) && Reaches(mid, s')
    ensures Reaches(s, s')
  {
    hide Path;
    var a :| Path(s, a, mid);
    var b :| Path(mid, b, s');
    PathOn(s, a, mid, b, s');
  }

  lemma ReachesNext(s: State, mid: State, a: Action, s': State)
    requires Reaches(s, mid) && Enabled(mid, a) && Assumed(mid, a) && Next(mid, a) == s'
    ensures Reaches(s, s')
  {
    OneAction(mid, a);
    ReachesOn(s, mid, s');
  }

  lemma GapsLater(s: State, mid: State)
    requires Reaches(s, mid) && Gaps(mid)
    ensures Gaps(s)
  {
    hide Path;
    var a :| Path(s, a, mid);
    var b, s' :| Path(mid, b, s') && !NoGap(s');
    PathOn(s, a, mid, b, s');
  }

  /** A call and a manager nobody has seen, and a lock id nobody has used. */
  ghost predicate New(s: State, c: CallId, m: ManagerId, id: LockId) {
    && c !in s.calls && m !in s.lockIds && id !in s.used
    && forall d {:trigger s.calls[d]} :: d in s.calls ==> s.calls[d].manager != m
  }

  lemma SomeNew(s: State) returns (c: CallId, m: ManagerId, id: LockId)
    ensures New(s, c, m, id)
  {
    c := Fresh(s.calls.Keys);
    var ms := (set d | d in s.calls :: s.calls[d].manager) + s.lockIds.Keys;
    m := Fresh(ms);
    id := Fresh(s.used);
    forall d | d in s.calls ensures s.calls[d].manager != m {
      assert s.calls[d].manager in ms;
    }
    assert c in s.calls ==> c in s.calls.Keys;
    assert m in s.lockIds ==> m in ms;
  }

  /** What a call of a new manager that came and went leaves. */
  function Used(s: State, id: LockId, counter: int): State {
    s.(used := s.used + {id}, counter := Some(counter), marker := false)
  }

  lemma ReleasesAway(s: State, c: CallId, m: ManagerId, id: LockId)
    requires New(s, c, m, id) && s.lock.None?
    ensures var t := With(s, c, m, id, Call(m, Clearing, None));
            Reaches(t, s.(used := s.used + {id}, marker := false))
  {
    hide Reaches;
    var t := With(s, c, m, id, Call(m, Clearing, None));
    var t1 := With(s, c, m, id, Call(m, Releasing, None)).(marker := false);
    Stays(t);
    ReachesNext(t, t, Advance(c), t1);
    assert s.lockIds[m := id] - {m} == s.lockIds && s.calls[c := Call(m, Releasing, None)] - {c} == s.calls;
    ReachesNext(t, t1, Advance(c), s.(used := s.used + {id}, marker := false));
  }

  /** A broadcast answered with `nonce too low`. */
  lemma TooLowRecounts(s: State, c: CallId, m: ManagerId, id: LockId, n: int)
    requires New(s, c, m, id) && s.lock.None?
    ensures Reaches(With(s, c, m, id, Call(m, Handed(n), Some(n))), Used(s, id, s.pendingCount))
  {
    hide Reaches, New;
    var t, p := With(s, c, m, id, Call(m, Handed(n), Some(n))), s.pendingCount;
    var t1 := With(s, c, m, id, Call(m, Failing(TooLow), Some(n)));
    var t2 := With(s, c, m, id, Call(m, FailWriting(p), Some(n)));
    var counted := s.(counter := Some(p));
    var t3 := With(counted, c, m, id, Call(m, Clearing, None));
    Stays(t);
    ReachesNext(t, t, Reject(c, TooLow), t1);
    ReachesNext(t, t1, Advance(c), t2);
    ReachesNext(t, t2, Advance(c), t3);
    NewStays(s, counted, c, m, id);
    ReleasesAway(counted, c, m, id);
    ReachesOn(t, t3, Used(s, id, p));
  }

  lemma ReadingRecounts(s: State, c: CallId, m: ManagerId, id: LockId)
    requires New(s, c, m, id) && s.lock.None? && s.counter.Some?
    ensures Reaches(With(s, c, m, id, Call(m, Reading, None)), Used(s, id, s.pendingCount))
  {
    hide Reaches, New;
    var n := s.counter.value;
    var actions, t := ReadingReads(s, c, m, id);
    PathReaches(With(s, c, m, id, Call(m, Reading, None)), actions, t);
    var more := s.(counter := Some(n + 1));
    NewStays(s, more, c, m, id);
    TooLowRecounts(more, c, m, id, n);
    ReachesOn(With(s, c, m, id, Call(m, Reading, None)), t, Used(s, id, s.pendingCount));
  }

  lemma PathReaches(s: State, actions: seq<Action>, s': State)
    requires Path(s, actions, s')
    ensures Reaches(s, s')
  {
  }

  lemma NewStays(s: State, t: State, c: CallId, m: ManagerId, id: LockId)
    requires New(s, c, m, id) && t.lockIds == s.lockIds && t.used == s.used
    requires forall d {:trigger t.calls[d]} :: d in t.calls ==> d in s.calls && t.calls[d].manager == s.calls[d].manager
    ensures New(t, c, m, id)
  {
  }

  /** From its reset of the counter. */
  lemma ResettingReads(s: State, c: CallId, m: ManagerId, id: LockId)
    ensures Reaches(With(s, c, m, id, Call(m, Resetting, None)),
                    With(s.(counter := Some(s.pendingCount)), c, m, id, Call(m, Reading, None)))
  {
    hide Reaches;
    var t, p := With(s, c, m, id, Call(m, Resetting, None)), s.pendingCount;
    var t1 := With(s, c, m, id, Call(m, Writing(p), None));
    Stays(t);
    ReachesNext(t, t, Advance(c), t1);
    ReachesNext(t, t1, Advance(c), With(s.(counter := Some(p)), c, m, id, Call(m, Reading, None)));
  }

  /** However the marker and the counter are, a new call gets to read the counter. */
  lemma LockedGetsToRead(s: State, c: CallId, m: ManagerId, id: LockId) returns (counter: Option<int>)
    ensures counter.Some?
    ensures Reaches(With(s, c, m, id, Call(m, Locked, None)),
                    With(s.(marker := false, counter := counter), c, m, id, Call(m, Reading, None)))
  {
    hide Reaches;
    var t, p := With(s, c, m, id, Call(m, Locked, None)), s.pendingCount;
    Stays(t);
    var t1 := With(s, c, m, id, Call(m, if s.marker then Recovering else Reading, None));
    ReachesNext(t, t, Advance(c), t1);
    if !s.marker && s.counter.Some? {
      counter := s.counter;
    } else {
      counter := Some(p);
      var clear := s.(marker := false);
      var t2 := With(clear, c, m, id, Call(m, Resetting, None));
      ReachesNext(t, t1, Advance(c), t2);
      ResettingReads(clear, c, m, id);
      ReachesOn(t, t2, With(clear.(counter := counter), c, m, id, Call(m, Reading, None)));
    }
  }

  /** With the key free, a new call can leave the counter at the pending count and the marker clear. */
  lemma Recounts(s: State) returns (id: LockId)
    requires s.lock.None?
    ensures Reaches(s, Used(s, id, s.pendingCount))
  {
    hide Reaches, New;
    var c, m;
    c, m, id := SomeNew(s);
    var actions := NewLocks(s, c, m, id);
    var t := With(s, c, m, id, Call(m, Locked, None));
    PathReaches(s, actions, t);
    var counter := LockedGetsToRead(s, c, m, id);
    var clear := s.(marker := false, counter := counter);
    ReachesOn(s, t, With(clear, c, m, id, Call(m, Reading, None)));
    NewStays(s, clear, c, m, id);
    ReadingRecounts(clear, c, m, id);
    ReachesOn(s, With(clear, c, m, id, Call(m, Reading, None)), Used(s, id, s.pendingCount));
  }

  lemma NewLocks(s: State, c: CallId, m: ManagerId, id: LockId) returns (actions: seq<Action>)
    requires New(s, c, m, id) && s.lock.None?
    ensures Path(s, actions, With(s, c, m, id, Call(m, Locked, None)))
  {
    actions := NextCallLocks(s, c, m, id);
  }

  /** And a new call that gives up can take one off it. */
  lemma TakesOneOff(s: State) returns (id: LockId)
    requires s.lock.None? && !s.marker && s.counter.Some?
    ensures Reaches(s, Used(s, id, s.counter.value - 1))
  {
    hide Reaches, New;
    var c, m;
    c, m, id := SomeNew(s);
    var actions := NewLocks(s, c, m, id);
    var t := With(s, c, m, id, Call(m, Locked, None));
    PathReaches(s, actions, t);
    var t1 := With(s, c, m, id, Call(m, Failing(Other), None));
    var less := s.(counter := Some(s.counter.value - 1));
    var t2 := With(less, c, m, id, Call(m, Clearing, None));
    ReachesNext(s, t, Throw(c), t1);
    ReachesNext(s, t1, Advance(c), t2);
    NewStays(s, less, c, m, id);
    ReleasesAway(less, c, m, id);
    ReachesOn(s, t2, Used(s, id, s.counter.value - 1));
  }

  /** A call that is about to increment a counter it read while it still had the lock. */
  lemma BumpingGaps(s: State, c: CallId)
    requires s.lock.None? && c in s.calls && s.calls[c].phase.Bumping?
    ensures Gaps(s)
  {
    hide Reaches, Path, NoGap;
    var id := Recounts(s);
    var t := Used(s, id, s.pendingCount);
    ReachesNext(s, t, Advance(c), Next(t, Advance(c)));
    var actions, s' := AheadGaps(Next(t, Advance(c)));
    GapsLater(s, Next(t, Advance(c)));
  }

  function Distance(p: Phase): nat {
    match p
    case Locked => 5
    case Recovering => 4
    case Resetting => 3
    case Writing(_) => 2
    case Reading => 1
    case _ => 0
  }

  /** A call that has yet to increment the counter goes on as if it had the lock. */
  lemma {:induction false} EarlyGaps(s: State, c: CallId)
    requires s.lock.None? && c in s.calls && (Distance(s.calls[c].phase) > 0 || s.calls[c].phase.Bumping?)
    ensures Gaps(s)
    decreases if c in s.calls then Distance(s.calls[c].phase) else 0
  {
    hide Reaches, Path, NoGap, Gaps;
    if s.calls[c].phase.Bumping? {
      BumpingGaps(s, c);
    } else if s.calls[c].phase.Reading? {
      var id := Recounts(s);
      var t := Used(s, id, s.pendingCount);
      ReachesNext(s, t, Advance(c), Next(t, Advance(c)));
      BumpingGaps(Next(t, Advance(c)), c);
      GapsLater(s, Next(t, Advance(c)));
    } else {
      Stays(s);
      ReachesNext(s, s, Advance(c), Next(s, Advance(c)));
      EarlyGaps(Next(s, Advance(c)), c);
      GapsLater(s, Next(s, Advance(c)));
    }
  }

  /** A new call that read one less than the count, and increments after somebody SETs the counter to it. */
  lemma KnownGaps(s: State, d: CallId, m: ManagerId, id: LockId)
    requires New(s, d, m, id) && s.lock.None? && s.counter == Some(s.pendingCount)
    ensures Gaps(With(s, d, m, id, Call(m, Bumping(s.pendingCount - 1), None)))
  {
    hide Reaches, New, Path, NoGap;
    var n := s.pendingCount - 1;
    var t, more := With(s, d, m, id, Call(m, Bumping(n), None)), s.(counter := Some(n + 2));
    var t1 := With(more, d, m, id, Call(m, Handed(n), Some(n)));
    var t2 := With(more, d, m, id, Call(m, Failing(AlreadyKnown), Some(n)));
    var t3 := With(more, d, m, id, Call(m, Clearing, None));
    var left := more.(used := s.used + {id}, marker := false);
    Stays(t);
    ReachesNext(t, t, Advance(d), t1);
    ReachesNext(t, t1, Reject(d, AlreadyKnown), t2);
    ReachesNext(t, t2, Advance(d), t3);
    NewStays(s, more, d, m, id);
    ReleasesAway(more, d, m, id);
    ReachesOn(t, t3, left);
    var actions, s' := AheadGaps(left);
    GapsLater(t, left);
  }

  /** The counter is one short, and a call whose lease is gone is about to SET it to the count. */
  lemma LateSetGaps(s: State, c: CallId)
    requires s.lock.None? && !s.marker && c in s.calls && s.calls[c].phase == FailWriting(s.pendingCount)
    requires s.counter == Some(s.pendingCount - 1)
    ensures Gaps(s)
  {
    hide Reaches, New, Gaps;
    var n := s.pendingCount - 1;
    var d, m, id := SomeNew(s);
    NewIsOther(s, c, d, m, id);
    var actions := NewLocks(s, d, m, id);
    var t := With(s, d, m, id, Call(m, Locked, None));
    PathReaches(s, actions, t);
    var t1, t2 := With(s, d, m, id, Call(m, Reading, None)), With(s, d, m, id, Call(m, Bumping(n), None));
    ReachesNext(s, t, Advance(d), t1);
    ReachesNext(s, t1, Advance(d), t2);
    var call := s.calls[c].(phase := Clearing, owed := None);
    var full := s.(counter := Some(n + 1), calls := s.calls[c := call]);
    var t3 := With(full, d, m, id, Call(m, Bumping(n), None));
    assert s.calls[d := Call(m, Bumping(n), None)][c := call] == s.calls[c := call][d := Call(m, Bumping(n), None)];
    ReachesNext(s, t2, Advance(c), t3);
    NewStays(s, full, d, m, id);
    KnownGaps(full, d, m, id);
    GapsLater(s, t3);
  }

  lemma NewIsOther(s: State, c: CallId, d: CallId, m: ManagerId, id: LockId)
    requires New(s, d, m, id) && c in s.calls
    ensures c != d && s.calls[c].manager != m
  {
  }

  lemma FailWritingGaps(s: State, c: CallId)
    requires s.lock.None? && c in s.calls && s.calls[c].phase == FailWriting(s.pendingCount)
    ensures Gaps(s)
  {
    hide Reaches, Gaps;
    var id := Recounts(s);
    var t := Used(s, id, s.pendingCount);
    var id' := TakesOneOff(t);
    var t' := Used(t, id', s.pendingCount - 1);
    ReachesOn(s, t, t');
    LateSetGaps(t', c);
    GapsLater(s, t');
  }

  /** A call with its nonce in hand may be told that it is too low, and then SETs the counter to the count it reads. */
  lemma TooLowGaps(s: State, c: CallId)
    requires s.lock.None? && c in s.calls && (s.calls[c].phase.Handed? || s.calls[c].phase == Failing(TooLow))
    ensures Gaps(s)
  {
    hide Reaches, Gaps;
    Stays(s);
    var t := if s.calls[c].phase.Handed? then Next(s, Reject(c, TooLow)) else s;
    if s.calls[c].phase.Handed? {
      ReachesNext(s, s, Reject(c, TooLow), t);
    }
    ReachesNext(s, t, Advance(c), Next(t, Advance(c)));
    FailWritingGaps(Next(t, Advance(c)), c);
    GapsLater(s, Next(t, Advance(c)));
  }

  /**
    A lease runs out under the call that is using it. With nothing else going wrong afterwards, a gap
    is then reachable if and only if the counter is ahead of the pending count or the call is not
    spent: it has yet to increment the counter or to hear of its broadcast, or its failure may still
    SET the counter to the whole of the pending count.
   */
  lemma ExpiryGapsExactly(s: State, c: CallId)
    requires Inv(s) && c in s.calls && Holding(s.calls[c])
    ensures (exists actions, s' :: Path(Next(s, Expire), actions, s') && !NoGap(s')) <==>
            Ahead(s) || !Spent(s.calls[c], s.pendingCount)
  {
    hide Path, NoGap, Core;
    var t := Next(s, Expire);
    if Ahead(s) {
      AheadIsClear(s);
      var actions, s' := AheadGaps(t);
    } else if Spent(s.calls[c], s.pendingCount) {
      ExpiryLeavesStale(s, c);
      forall actions, s' | Path(t, actions, s') ensures NoGap(s') {
        StaleNeverGaps(t, c, actions, s');
      }
    } else {
      UnspentGaps(s, c);
      assert Gaps(t);
    }
  }

  lemma AheadIsClear(s: State)
    requires Inv(s) && Ahead(s)
    ensures !s.marker
  {
    var c :| c in s.calls && s.calls[c].owed.Some?;
    assert Clean(s.calls[c]);
  }

  lemma UnspentGaps(s: State, c: CallId)
    requires Inv(s) && c in s.calls && Holding(s.calls[c]) && !Spent(s.calls[c], s.pendingCount)
    ensures Gaps(Next(s, Expire))
  {
    hide Core, MarkerOk, Gaps;
    CallIsOk(s, c);
    var p := s.calls[c].phase;
    if p.FailWriting? {
      FailWritingGaps(Next(s, Expire), c);
    } else if p.Handed? || p.Failing? {
      TooLowGaps(Next(s, Expire), c);
    } else {
      EarlyGaps(Next(s, Expire), c);
    }
  }
}
