/**
  The distributed nonce counter, one Redis command, chain call or failure at a time. Any number of
  manager instances run `settleBatch` calls concurrently; the lock, the counter and the pending-tx
  marker are shared keys, and each instance keeps the id of its own lock in a field.
 */
module Nonce {
  import opened Options

  type CallId = nat
  type ManagerId = nat
  type LockId = nat

  /** What the text of a rejected broadcast says; every other failure is `Other`. */
  datatype Error = TooLow | AlreadyKnown | Underpriced | Other

  /** The command a `settleBatch` call is about to send. */
  datatype Phase =
    | Waiting             // acquireLock: SET NX until it succeeds or the deadline passes
    | Locked              // acquireNonce: GET the pending-tx marker
    | Recovering          // a marker was found and its receipt came or timed out: DEL the marker
    | Resetting           // resetFromChain: read the pending transaction count
    | Writing(count: nat) // resetFromChain: SET the counter to that count
    | Reading             // GET the counter
    | Bumping(read: int)  // INCR the counter
    | Handed(nonce: int)  // the nonce is handed out: broadcast the transaction
    | Sent                // confirmNonce: SET the marker
    | Recorded            // wait for the receipt
    | Confirmed           // onTxConfirmed: DEL the marker
    | Unlocking           // onTxConfirmed: release the lock
    | Finishing           // the rest of settleBatch
    | Failing(e: Error)   // handleFailure: act on the counter
    | FailWriting(at: nat) // handleFailure: SET the counter to the count just read
    | Clearing            // handleFailure: DEL the marker
    | Releasing           // handleFailure: release the lock

  /** `owed` is the nonce of an INCR whose transaction has not been broadcast. */
  datatype Call = Call(manager: ManagerId, phase: Phase, owed: Option<int>)

  datatype State = State(
    counter: Option<int>,
    lock: Option<LockId>,
    marker: bool,
    pendingCount: nat,
    lockIds: map<ManagerId, LockId>,
    calls: map<CallId, Call>,
    used: set<LockId>)

  datatype Action =
    | Begin(c: CallId, manager: ManagerId)
    | TakeLock(c: CallId, id: LockId)
    | TakeLockLost(c: CallId, id: LockId) // the SET took effect but its reply was lost
    | Advance(c: CallId)                  // the command of the phase succeeds
    | IncrLost(c: CallId)                 // the INCR took effect but its reply was lost
    | Again(c: CallId)                    // recovery threw half-way: its catch clause starts it over
    | Throw(c: CallId)                    // the command of the phase throws without effect
    | Reject(c: CallId, e: Error)         // the node refuses the broadcast
    | Abandon(c: CallId)                  // handleFailure itself throws
    | Crash(manager: ManagerId)
    | Expire
    | Destroy(manager: ManagerId)
    | ChainGrows(to: nat)

  /** Between taking the lock and releasing it. */
  predicate Critical(p: Phase) {
    !p.Waiting? && !p.Finishing? && !p.Failing? && !p.FailWriting? && !p.Clearing? && !p.Releasing?
  }

  predicate Holding(call: Call) {
    Critical(call.phase) || call.owed.Some?
  }

  predicate Owns(s: State, m: ManagerId) {
    m in s.lockIds && s.lock == Some(s.lockIds[m])
  }

  predicate Enabled(s: State, a: Action) {
    match a
    case Begin(c, _) => c !in s.calls
    case TakeLock(c, id) => c in s.calls && s.calls[c].phase.Waiting? && s.lock.None? && id !in s.used
    case TakeLockLost(c, id) => c in s.calls && s.calls[c].phase.Waiting? && s.lock.None? && id !in s.used
    case Advance(c) => c in s.calls && !s.calls[c].phase.Waiting? && (s.calls[c].phase.Bumping? ==> s.counter.Some?)
    case IncrLost(c) => c in s.calls && s.calls[c].phase.Bumping? && s.counter.Some?
    case Again(c) =>
      c in s.calls && (s.calls[c].phase.Resetting? || s.calls[c].phase.Writing? || s.calls[c].phase.Reading?)
    case Throw(c) =>
      && c in s.calls
      && !s.calls[c].phase.Handed?
      && (s.calls[c].phase.Waiting? || Critical(s.calls[c].phase) || s.calls[c].phase.Finishing?)
    case Reject(c, e) =>
      && c in s.calls && s.calls[c].phase.Handed?
      // A node knows a transaction already only if its nonce is taken.
      && (e.AlreadyKnown? ==> s.calls[c].phase.nonce < s.pendingCount)
    case Abandon(c) =>
      && c in s.calls
      && !Critical(s.calls[c].phase) && !s.calls[c].phase.Waiting? && !s.calls[c].phase.Finishing?
    case Crash(_) => true
    case Expire => true
    case Destroy(m) => forall c {:trigger s.calls[c]} :: c in s.calls ==> s.calls[c].manager != m
    case ChainGrows(to) => s.pendingCount <= to
  }

  /** Compare-and-delete with the id in the manager's field, then forget the id. */
  function Released(s: State, m: ManagerId): State {
    if m in s.lockIds then
      s.(lock := if Owns(s, m) then None else s.lock, lockIds := s.lockIds - {m})
    else s
  }

  function To(s: State, c: CallId, p: Phase): State
    requires c in s.calls
  {
    s.(calls := s.calls[c := s.calls[c].(phase := p)])
  }

  function Settled(s: State, c: CallId, p: Phase): State
    requires c in s.calls
  {
    s.(calls := s.calls[c := s.calls[c].(phase := p, owed := None)])
  }

  function Decremented(counter: Option<int>): Option<int> {
    Some((if counter.Some? then counter.value else 0) - 1)
  }

  function Step(s: State, c: CallId): State
    requires c in s.calls && !s.calls[c].phase.Waiting? && (s.calls[c].phase.Bumping? ==> s.counter.Some?)
  {
    match s.calls[c].phase
    case Locked => To(s, c, if s.marker then Recovering else Reading)
    case Recovering => To(s.(marker := false), c, Resetting)
    case Resetting => To(s, c, Writing(s.pendingCount))
    case Writing(p) => To(s.(counter := Some(p)), c, Reading)
    case Reading => To(s, c, if s.counter.Some? then Bumping(s.counter.value) else Resetting)
    case Bumping(n) =>
      s.(counter := Some(s.counter.value + 1), calls := s.calls[c := s.calls[c].(phase := Handed(n), owed := Some(n))])
    // Accepted: the next nonce extends the pending count, a lower one replaces, a higher one waits behind a gap.
    case Handed(n) =>
      Settled(s.(pendingCount := if n == s.pendingCount then s.pendingCount + 1 else s.pendingCount), c, Sent)
    case Sent => To(s.(marker := true), c, Recorded)
    case Recorded => To(s, c, Confirmed)
    case Confirmed => To(s.(marker := false), c, Unlocking)
    case Unlocking => To(Released(s, s.calls[c].manager), c, Finishing)
    case Finishing => s.(calls := s.calls - {c})
    case Failing(e) =>
      if e.TooLow? then To(s, c, FailWriting(s.pendingCount))
      else if e.AlreadyKnown? then Settled(s, c, Clearing)
      else Settled(s.(counter := Decremented(s.counter)), c, Clearing)
    case FailWriting(p) => Settled(s.(counter := Some(p)), c, Clearing)
    case Clearing => To(s.(marker := false), c, Releasing)
    case Releasing =>
      var r := Released(s, s.calls[c].manager);
      r.(calls := r.calls - {c})
    case Waiting => s
  }

  function Next(s: State, a: Action): State
    requires Enabled(s, a)
  {
    match a
    case Begin(c, m) => s.(calls := s.calls[c := Call(m, Waiting, None)])
    case TakeLock(c, id) =>
      To(s.(lock := Some(id), used := s.used + {id}, lockIds := s.lockIds[s.calls[c].manager := id]), c, Locked)
    case TakeLockLost(c, id) => To(s.(lock := Some(id), used := s.used + {id}), c, Failing(Other))
    case Advance(c) => Step(s, c)
    case IncrLost(c) =>
      s.(counter := Some(s.counter.value + 1),
         calls := s.calls[c := s.calls[c].(phase := Failing(Other), owed := Some(s.calls[c].phase.read))])
    case Again(c) => To(s, c, Recovering)
    case Throw(c) => To(s, c, Failing(Other))
    case Reject(c, e) => To(s, c, Failing(e))
    case Abandon(c) => s.(calls := s.calls - {c})
    case Crash(m) =>
      s.(calls := map c | c in s.calls && s.calls[c].manager != m :: s.calls[c], lockIds := s.lockIds - {m})
    case Expire => s.(lock := None)
    case Destroy(m) => Released(s, m)
    case ChainGrows(to) => s.(pendingCount := to)
  }

  // ----- Invariants -----

  /** One `settleBatch` call per manager instance at a time. */
  ghost predicate SingleFlight(calls: map<CallId, Call>) {
    forall c, d {:trigger calls[c], calls[d]} ::
      c in calls && d in calls && calls[c].manager == calls[d].manager ==> c == d
  }

  /** Lock ids are never reused, and a call in its critical section owns the lock. */
  ghost predicate LocksOk(s: State) {
    LocksFit(s.lock, s.used, s.lockIds, s.calls)
  }

  ghost predicate LocksFit(lock: Option<LockId>, used: set<LockId>, lockIds: map<ManagerId, LockId>,
      calls: map<CallId, Call>) {
    && (lock.Some? ==> lock.value in used)
    && (forall m {:trigger lockIds[m]} :: m in lockIds ==> lockIds[m] in used)
    && (forall m, n {:trigger lockIds[m], lockIds[n]} ::
          m in lockIds && n in lockIds && lockIds[m] == lockIds[n] ==> m == n)
    && (forall c {:trigger calls[c]} :: c in calls && Holding(calls[c]) ==>
          calls[c].manager in lockIds && lock == Some(lockIds[calls[c].manager]))
  }

  predicate AtMost(counter: Option<int>, bound: int) {
    counter.Some? ==> counter.value <= bound
  }

  function Max(a: int, b: int): int {
    if a < b then b else a
  }

  predicate CallOk(call: Call, counter: Option<int>, pendingCount: nat) {
    && (call.owed.Some? ==>
          && (call.phase.Handed? || call.phase.Failing? || call.phase.FailWriting?)
          && call.owed.value <= pendingCount
          && AtMost(counter, Max(call.owed.value + 1, pendingCount)))
    && (call.phase.Handed? ==> call.owed == Some(call.phase.nonce))
    && (call.phase.Bumping? ==>
          && counter.Some? && counter.value <= Max(call.phase.read, pendingCount - 1)
          && call.phase.read <= pendingCount)
    && (call.phase.Writing? ==> call.phase.count <= pendingCount)
    && (call.phase.FailWriting? ==> call.phase.at <= pendingCount && call.owed.Some?)
    && (call.phase.Failing? && call.phase.e.TooLow? ==> call.owed.Some?)
    && (call.phase.Failing? && call.phase.e.AlreadyKnown? ==> call.owed.Some? && call.owed.value < pendingCount)
  }

  ghost predicate NoneOwed(calls: map<CallId, Call>) {
    forall c {:trigger calls[c]} :: c in calls ==> calls[c].owed.None?
  }

  ghost predicate CountersOk(calls: map<CallId, Call>, counter: Option<int>, pendingCount: nat) {
    && (NoneOwed(calls) ==> AtMost(counter, pendingCount))
    && (forall c {:trigger calls[c]} :: c in calls ==> CallOk(calls[c], counter, pendingCount))
  }

  /** From clearing the marker to the broadcast, and while its failure is handled, a call's marker is clear. */
  predicate Clean(call: Call) {
    call.phase.Resetting? || call.phase.Writing? || call.phase.Reading? || call.phase.Bumping? || call.phase.Handed? ||
    call.owed.Some?
  }

  ghost predicate MarkerOk(calls: map<CallId, Call>, marker: bool) {
    marker ==> forall c {:trigger calls[c]} :: c in calls ==> !Clean(calls[c])
  }

  /** What keeps nonces from leaving gaps. */
  ghost predicate Core(s: State) {
    SingleFlight(s.calls) && LocksOk(s) && CountersOk(s.calls, s.counter, s.pendingCount)
  }

  ghost predicate Inv(s: State) {
    Core(s) && MarkerOk(s.calls, s.marker)
  }

  // ----- What the design assumes of a step -----

  /** A new call starts on an idle manager. */
  ghost predicate Solo(s: State, a: Action) {
    a.Begin? ==> forall c {:trigger s.calls[c]} :: c in s.calls ==> s.calls[c].manager != a.manager
  }

  /** handleFailure does not throw while it still owes the counter its nonce. */
  predicate FailureHandled(s: State, a: Action) {
    a.Abandon? && a.c in s.calls ==> s.calls[a.c].owed.None?
  }

  /** No process dies between an INCR and its broadcast or the handling of its failure. */
  ghost predicate NoCrashOwing(s: State, a: Action) {
    a.Crash? ==> forall c {:trigger s.calls[c]} :: c in s.calls && s.calls[c].manager == a.manager ==>
          s.calls[c].owed.None?
  }

  /** No lease expires while a call is using it. */
  ghost predicate LeaseKept(s: State, a: Action) {
    a.Expire? ==> forall c {:trigger s.calls[c]} :: c in s.calls && Holding(s.calls[c]) ==> !Owns(s, s.calls[c].manager)
  }

  ghost predicate Assumed(s: State, a: Action) {
    Solo(s, a) && FailureHandled(s, a) && NoCrashOwing(s, a) && LeaseKept(s, a)
  }

  /** Two calls never use the lock at once. */
  lemma OneHolder(s: State, c: CallId, d: CallId)
    requires SingleFlight(s.calls) && LocksOk(s)
    requires c in s.calls && d in s.calls && Holding(s.calls[c]) && Holding(s.calls[d])
    ensures c == d
  {
    assert Owns(s, s.calls[c].manager) && Owns(s, s.calls[d].manager);
  }

  lemma KeepsSingleFlight(s: State, a: Action)
    requires SingleFlight(s.calls) && Enabled(s, a) && Solo(s, a)
    ensures SingleFlight(Next(s, a).calls)
  {
    if a.Begin? {
      assert Next(s, a).calls == s.calls[a.c := Call(a.manager, Waiting, None)];
    } else {
      CallsStay(s, a);
      FewerCallsFly(s.calls, Next(s, a).calls);
    }
  }

  /** Only `Begin` adds a call, and no call changes its manager. */
  lemma CallsStay(s: State, a: Action)
    requires Enabled(s, a) && !a.Begin?
    ensures forall c {:trigger Next(s, a).calls[c]} :: c in Next(s, a).calls ==>
              c in s.calls && Next(s, a).calls[c].manager == s.calls[c].manager
  {
    var calls' := Next(s, a).calls;
    forall c | c in calls' ensures c in s.calls && calls'[c].manager == s.calls[c].manager {
      if a.Advance? {
        StepStays(s, a.c, c);
      }
    }
  }

  lemma StepStays(s: State, c: CallId, d: CallId)
    requires Enabled(s, Advance(c)) && d in Step(s, c).calls
    ensures d in s.calls && Step(s, c).calls[d].manager == s.calls[d].manager
  {
  }

  lemma FewerCallsFly(calls: map<CallId, Call>, calls': map<CallId, Call>)
    requires SingleFlight(calls)
    requires forall c {:trigger calls'[c]} :: c in calls' ==> c in calls && calls'[c].manager == calls[c].manager
    ensures SingleFlight(calls')
  {
  }

  lemma ReleasedKeepsLocks(s: State, m: ManagerId)
    requires LocksOk(s)
    requires forall c {:trigger s.calls[c]} :: c in s.calls && Holding(s.calls[c]) ==> s.calls[c].manager != m
    ensures LocksOk(Released(s, m))
  {
  }

  /** Changing one call's phase keeps the locks unless it starts to hold. */
  lemma MovedKeepsLocks(s: State, c: CallId, call: Call)
    requires LocksOk(s) && c in s.calls
    requires Holding(call) ==> Owns(s, call.manager)
    ensures LocksOk(s.(calls := s.calls[c := call]))
  {
  }

  lemma GoneKeepsLocks(s: State, c: CallId)
    requires LocksOk(s)
    ensures LocksOk(s.(calls := s.calls - {c}))
  {
  }

  lemma TakingKeepsLocks(s: State, c: CallId, id: LockId)
    requires LocksOk(s) && c in s.calls && s.lock.None? && id !in s.used
    ensures var taken := s.(lock := Some(id), used := s.used + {id});
            && LocksOk(taken)
            && LocksOk(taken.(lockIds := s.lockIds[s.calls[c].manager := id]))
  {
    assert forall d :: d in s.calls ==> !Holding(s.calls[d]) by {
      assert forall d :: d in s.calls && Holding(s.calls[d]) ==> Owns(s, s.calls[d].manager);
    }
  }

  lemma HolderOwns(s: State, c: CallId)
    requires LocksOk(s) && c in s.calls
    ensures Holding(s.calls[c]) ==> Owns(s, s.calls[c].manager)
  {
  }

  lemma CallIsOk(s: State, c: CallId)
    requires Core(s) && c in s.calls
    ensures CallOk(s.calls[c], s.counter, s.pendingCount)
  {
  }

  lemma AdvanceKeepsLocks(s: State, c: CallId)
    requires Core(s) && Enabled(s, Advance(c))
    ensures LocksOk(Step(s, c))
  {
    hide LocksFit, CountersOk, SingleFlight;
    var call := s.calls[c];
    CallIsOk(s, c);
    HolderOwns(s, c);
    if call.phase.Finishing? {
      GoneKeepsLocks(s, c);
    } else if call.phase.Releasing? {
      ReleasingKeepsLocks(s, c);
    } else if call.phase.Unlocking? {
      UnlockingKeepsLocks(s, c);
    } else {
      MovedKeepsLocks(s, c, Step(s, c).calls[c]);
    }
  }

  lemma ReleasingKeepsLocks(s: State, c: CallId)
    requires SingleFlight(s.calls) && LocksOk(s) && c in s.calls && s.calls[c].phase.Releasing?
    ensures LocksOk(Step(s, c))
  {
    GoneKeepsLocks(s, c);
    ReleasedKeepsLocks(s.(calls := s.calls - {c}), s.calls[c].manager);
  }

  lemma UnlockingKeepsLocks(s: State, c: CallId)
    requires SingleFlight(s.calls) && LocksOk(s) && c in s.calls && s.calls[c].phase.Unlocking? && s.calls[c].owed.None?
    ensures LocksOk(Step(s, c))
  {
    var call := s.calls[c].(phase := Finishing);
    MovedKeepsLocks(s, c, call);
    var moved := s.(calls := s.calls[c := call]);
    assert forall d :: d in moved.calls && moved.calls[d].manager == call.manager ==> d in s.calls && d == c;
    ReleasedKeepsLocks(moved, call.manager);
  }

  lemma KeepsLocks(s: State, a: Action)
    requires Core(s) && Enabled(s, a) && LeaseKept(s, a)
    ensures LocksOk(Next(s, a))
  {
    match a
    case TakeLock(c, id) =>
      TakingKeepsLocks(s, c, id);
      MovedKeepsLocks(s.(lock := Some(id), used := s.used + {id}, lockIds := s.lockIds[s.calls[c].manager := id]),
                      c, s.calls[c].(phase := Locked));
    case TakeLockLost(c, id) =>
      TakingKeepsLocks(s, c, id);
      assert CallOk(s.calls[c], s.counter, s.pendingCount);
      MovedKeepsLocks(s.(lock := Some(id), used := s.used + {id}), c, s.calls[c].(phase := Failing(Other)));
    case Advance(c) => AdvanceKeepsLocks(s, c);
    case IncrLost(c) => MovedKeepsLocks(s, c, Next(s, a).calls[c]);
    case Again(c) => MovedKeepsLocks(s, c, Next(s, a).calls[c]);
    case Throw(c) =>
      assert CallOk(s.calls[c], s.counter, s.pendingCount);
      MovedKeepsLocks(s, c, Next(s, a).calls[c]);
    case Reject(c, e) => MovedKeepsLocks(s, c, Next(s, a).calls[c]);
    case Abandon(c) => GoneKeepsLocks(s, c);
    case Destroy(m) => ReleasedKeepsLocks(s, m);
    case Expire =>
    case Crash(m) =>
    case _ =>
  }

  // ----- The counter -----

  /** While a call holds the lock, no other call has read the counter or owes a broadcast. */
  lemma OthersIdle(s: State, c: CallId)
    requires SingleFlight(s.calls) && LocksOk(s) && c in s.calls && Holding(s.calls[c])
    ensures forall d {:trigger s.calls[d]} :: d in s.calls && d != c ==> !Holding(s.calls[d])
  {
    forall d | d in s.calls && d != c ensures !Holding(s.calls[d]) {
      if Holding(s.calls[d]) {
        OneHolder(s, c, d);
      }
    }
  }

  /** A lower counter, or a longer chain, suits every call that was fine before. */
  lemma LowerIsOk(call: Call, counter: Option<int>, pendingCount: nat, counter': Option<int>, pendingCount': nat)
    requires CallOk(call, counter, pendingCount) && pendingCount <= pendingCount'
    requires counter.Some? ==> counter'.Some? && counter'.value <= counter.value
    requires counter.None? ==> AtMost(counter', pendingCount')
    ensures CallOk(call, counter', pendingCount')
  {
  }

  /** A call that is not using the lock does not mind what the counter is. */
  lemma IdleIsOk(call: Call, counter: Option<int>, pendingCount: nat, counter': Option<int>, pendingCount': nat)
    requires CallOk(call, counter, pendingCount) && pendingCount <= pendingCount' && !Holding(call)
    ensures CallOk(call, counter', pendingCount')
  {
  }

  /** The holder changes the counter and its own entry; everyone else is idle. */
  lemma HolderKeepsCounters(s: State, c: CallId, call: Call, counter': Option<int>, pendingCount': nat)
    requires Core(s) && c in s.calls && Holding(s.calls[c])
    requires s.pendingCount <= pendingCount'
    requires CallOk(call, counter', pendingCount')
    requires call.owed.None? ==> AtMost(counter', pendingCount')
    ensures CountersOk(s.calls[c := call], counter', pendingCount')
  {
    OthersIdle(s, c);
    var calls' := s.calls[c := call];
    forall d | d in calls' ensures CallOk(calls'[d], counter', pendingCount') {
      if d != c {
        IdleIsOk(s.calls[d], s.counter, s.pendingCount, counter', pendingCount');
      }
    }
    assert calls'[c] == call;
  }

  /** Any call may lower the counter and move between phases that promise nothing about it. */
  lemma LoweringKeepsCounters(calls: map<CallId, Call>, counter: Option<int>, pendingCount: nat,
                              c: CallId, call: Call, counter': Option<int>)
    requires CountersOk(calls, counter, pendingCount) && c in calls && calls[c].owed.None? && call.owed.None?
    requires counter.Some? ==> counter'.Some? && counter'.value <= counter.value
    requires counter.None? ==> AtMost(counter', pendingCount)
    requires CallOk(call, counter', pendingCount)
    ensures CountersOk(calls[c := call], counter', pendingCount)
  {
    var calls' := calls[c := call];
    forall d | d in calls' ensures CallOk(calls'[d], counter', pendingCount) {
      if d != c {
        LowerIsOk(calls[d], counter, pendingCount, counter', pendingCount);
      }
    }
    if NoneOwed(calls') {
      forall d | d in calls ensures calls[d].owed.None? {
        assert d != c ==> calls'[d] == calls[d];
      }
    }
  }

  /** Calls that owe nothing may go away. */
  lemma FewerKeepCounters(calls: map<CallId, Call>, counter: Option<int>, pendingCount: nat, calls': map<CallId, Call>)
    requires CountersOk(calls, counter, pendingCount)
    requires forall c {:trigger calls'[c]} :: c in calls' ==> c in calls && calls'[c] == calls[c]
    requires forall c {:trigger calls[c]} :: c in calls && c !in calls' ==> calls[c].owed.None?
    ensures CountersOk(calls', counter, pendingCount)
  {
    if NoneOwed(calls') {
      forall c | c in calls ensures calls[c].owed.None? {
        assert c in calls' ==> calls'[c] == calls[c];
      }
    }
  }

  /** While its one possible debtor owes nothing, the counter is within the chain's count. */
  lemma HolderBound(s: State, c: CallId)
    requires Core(s)
    requires c in s.calls && Holding(s.calls[c]) && s.calls[c].owed.None?
    ensures AtMost(s.counter, s.pendingCount)
  {
    OthersIdle(s, c);
    assert NoneOwed(s.calls);
  }

  ghost predicate CountersKept(s: State) {
    CountersOk(s.calls, s.counter, s.pendingCount)
  }

  /** Steps of the critical section that read, or that touch only the lock and the marker. */
  lemma ReadingKeepsCounters(s: State, c: CallId)
    requires Core(s) && Enabled(s, Advance(c)) && Critical(s.calls[c].phase)
    requires !s.calls[c].phase.Writing? && !s.calls[c].phase.Bumping? && !s.calls[c].phase.Handed?
    ensures CountersKept(Step(s, c))
  {
    var call := s.calls[c];
    assert CallOk(call, s.counter, s.pendingCount);
    HolderBound(s, c);
    HolderKeepsCounters(s, c, Step(s, c).calls[c], s.counter, s.pendingCount);
  }

  lemma WritingKeepsCounters(s: State, c: CallId)
    requires Core(s) && Enabled(s, Advance(c)) && s.calls[c].phase.Writing?
    ensures CountersKept(Step(s, c))
  {
    var call := s.calls[c];
    assert CallOk(call, s.counter, s.pendingCount);
    HolderKeepsCounters(s, c, call.(phase := Reading), Some(call.phase.count), s.pendingCount);
  }

  /** The INCR, whether or not its reply arrives. */
  lemma BumpingKeepsCounters(s: State, c: CallId)
    requires Core(s) && Enabled(s, Advance(c)) && s.calls[c].phase.Bumping?
    ensures CountersKept(Step(s, c)) && CountersKept(Next(s, IncrLost(c)))
  {
    var call := s.calls[c];
    var n := call.phase.read;
    assert CallOk(call, s.counter, s.pendingCount);
    HolderKeepsCounters(s, c, call.(phase := Handed(n), owed := Some(n)), Some(s.counter.value + 1), s.pendingCount);
    HolderKeepsCounters(s, c, call.(phase := Failing(Other), owed := Some(n)), Some(s.counter.value + 1),
                        s.pendingCount);
  }

  lemma BroadcastKeepsCounters(s: State, c: CallId)
    requires Core(s) && Enabled(s, Advance(c)) && s.calls[c].phase.Handed?
    ensures CountersKept(Step(s, c))
  {
    var call := s.calls[c];
    assert CallOk(call, s.counter, s.pendingCount);
    HolderKeepsCounters(s, c, call.(phase := Sent, owed := None), s.counter, Step(s, c).pendingCount);
  }

  lemma FailingKeepsCounters(s: State, c: CallId)
    requires Core(s) && Enabled(s, Advance(c)) && (s.calls[c].phase.Failing? || s.calls[c].phase.FailWriting?)
    ensures CountersKept(Step(s, c))
  {
    var call := s.calls[c];
    assert CallOk(call, s.counter, s.pendingCount);
    var s' := Step(s, c);
    if call.owed.Some? {
      HolderKeepsCounters(s, c, s'.calls[c], s'.counter, s.pendingCount);
    } else {
      LoweringKeepsCounters(s.calls, s.counter, s.pendingCount, c, s'.calls[c], s'.counter);
    }
  }

  lemma EndingKeepsCounters(s: State, c: CallId)
    requires Core(s) && Enabled(s, Advance(c))
    requires s.calls[c].phase.Finishing? || s.calls[c].phase.Clearing? || s.calls[c].phase.Releasing?
    ensures CountersKept(Step(s, c))
  {
    var call := s.calls[c];
    assert CallOk(call, s.counter, s.pendingCount);
    if call.phase.Clearing? {
      LoweringKeepsCounters(s.calls, s.counter, s.pendingCount, c, call.(phase := Releasing), s.counter);
    } else {
      FewerKeepCounters(s.calls, s.counter, s.pendingCount, s.calls - {c});
    }
  }

  lemma AdvanceKeepsCounters(s: State, c: CallId)
    requires Core(s) && Enabled(s, Advance(c))
    ensures CountersKept(Step(s, c))
  {
    var p := s.calls[c].phase;
    if p.Writing? {
      WritingKeepsCounters(s, c);
    } else if p.Bumping? {
      BumpingKeepsCounters(s, c);
    } else if p.Handed? {
      BroadcastKeepsCounters(s, c);
    } else if Critical(p) {
      ReadingKeepsCounters(s, c);
    } else if p.Failing? || p.FailWriting? {
      FailingKeepsCounters(s, c);
    } else {
      EndingKeepsCounters(s, c);
    }
  }

  /** A call that owes nothing changes phase to one that promises nothing. */
  lemma QuietKeepsCounters(s: State, c: CallId, phase: Phase)
    requires Core(s) && c in s.calls && !s.calls[c].phase.Handed? && !s.calls[c].phase.Failing? &&
             !s.calls[c].phase.FailWriting?
    requires phase.Locked? || phase.Recovering? || (phase.Failing? && phase.e.Other?)
    ensures CountersOk(s.calls[c := s.calls[c].(phase := phase)], s.counter, s.pendingCount)
  {
    assert CallOk(s.calls[c], s.counter, s.pendingCount);
    LoweringKeepsCounters(s.calls, s.counter, s.pendingCount, c, s.calls[c].(phase := phase), s.counter);
  }

  lemma RejectKeepsCounters(s: State, c: CallId, e: Error)
    requires Core(s) && Enabled(s, Reject(c, e))
    ensures CountersKept(Next(s, Reject(c, e)))
  {
    assert CallOk(s.calls[c], s.counter, s.pendingCount);
    HolderKeepsCounters(s, c, s.calls[c].(phase := Failing(e)), s.counter, s.pendingCount);
  }

  lemma BeginKeepsCounters(s: State, c: CallId, m: ManagerId)
    requires CountersKept(s) && c !in s.calls
    ensures CountersOk(s.calls[c := Call(m, Waiting, None)], s.counter, s.pendingCount)
  {
    var calls' := s.calls[c := Call(m, Waiting, None)];
    if NoneOwed(calls') {
      forall d | d in s.calls ensures s.calls[d].owed.None? {
        assert calls'[d] == s.calls[d];
      }
    }
  }

  lemma ChainKeepsCounters(s: State, to: nat)
    requires CountersKept(s) && s.pendingCount <= to
    ensures CountersOk(s.calls, s.counter, to)
  {
    forall d | d in s.calls ensures CallOk(s.calls[d], s.counter, to) {
      LowerIsOk(s.calls[d], s.counter, s.pendingCount, s.counter, to);
    }
  }

  lemma KeepsCounters(s: State, a: Action)
    requires Core(s) && Enabled(s, a) && FailureHandled(s, a) && NoCrashOwing(s, a)
    ensures CountersKept(Next(s, a))
  {
    match a
    case Begin(c, m) => BeginKeepsCounters(s, c, m);
    case TakeLock(c, id) => QuietKeepsCounters(s, c, Locked);
    case TakeLockLost(c, id) => QuietKeepsCounters(s, c, Failing(Other));
    case Advance(c) => AdvanceKeepsCounters(s, c);
    case IncrLost(c) => BumpingKeepsCounters(s, c);
    case Again(c) => QuietKeepsCounters(s, c, Recovering);
    case Throw(c) => QuietKeepsCounters(s, c, Failing(Other));
    case Reject(c, e) => RejectKeepsCounters(s, c, e);
    case Abandon(c) => FewerKeepCounters(s.calls, s.counter, s.pendingCount, s.calls - {c});
    case Crash(m) => FewerKeepCounters(s.calls, s.counter, s.pendingCount, Next(s, a).calls);
    case Expire =>
    case Destroy(m) =>
    case ChainGrows(to) => ChainKeepsCounters(s, to);
  }

  // ----- The marker -----

  /** A marker set beside a call that relies on its being clear was set by another call that just broadcast. */
  lemma CleanAfter(s: State, a: Action, d: CallId)
    requires Inv(s) && Enabled(s, a) && d in Next(s, a).calls && Clean(Next(s, a).calls[d])
    requires s.marker ==> d !in s.calls || !Clean(s.calls[d])
    ensures Next(s, a).marker ==>
              a.Advance? && a.c in s.calls && s.calls[a.c].phase.Sent? && a.c != d && d in s.calls && Clean(s.calls[d])
  {
    hide LocksOk, SingleFlight, CountersOk, MarkerOk, Released;
    if a.Advance? {
      CleanAfterStep(s, a.c, d);
    } else if a.Destroy? {
      ReleasedOnlyUnlocks(s, a.manager);
    } else if d in s.calls {
      CallIsOk(s, d);
    }
  }

  lemma CleanAfterStep(s: State, c: CallId, d: CallId)
    requires Inv(s) && Enabled(s, Advance(c)) && d in Step(s, c).calls && Clean(Step(s, c).calls[d])
    requires s.marker ==> d !in s.calls || !Clean(s.calls[d])
    ensures Step(s, c).marker ==> s.calls[c].phase.Sent? && c != d && d in s.calls && Clean(s.calls[d])
  {
    hide LocksOk, SingleFlight, CountersOk, MarkerOk, Released;
    CallIsOk(s, c);
    ReleasedOnlyUnlocks(s, s.calls[c].manager);
  }

  lemma ReleasedOnlyUnlocks(s: State, m: ManagerId)
    ensures var r := Released(s, m);
            r.calls == s.calls && r.counter == s.counter && r.used == s.used && r.marker == s.marker
  {
  }

  lemma CleanHolds(s: State, c: CallId)
    requires Inv(s) && c in s.calls && Clean(s.calls[c])
    ensures Holding(s.calls[c])
  {
  }

  lemma KeepsMarker(s: State, a: Action)
    requires Inv(s) && Enabled(s, a)
    ensures MarkerOk(Next(s, a).calls, Next(s, a).marker)
  {
    hide LocksOk, SingleFlight, CountersOk, Next, Enabled;
    var s' := Next(s, a);
    if s'.marker {
      forall d | d in s'.calls ensures !Clean(s'.calls[d]) {
        if Clean(s'.calls[d]) {
          CleanAfter(s, a, d);
          CleanHolds(s, d);
          OneHolder(s, a.c, d);
        }
      }
    }
  }

  // ----- Every run -----

  predicate Initial(s: State) {
    && s.calls == map[] && s.lockIds == map[] && s.lock.None? && s.used == {}
    && (s.counter.Some? ==> s.counter.value <= s.pendingCount)
  }

  ghost predicate Run(s: State, actions: seq<Action>, s': State)
    decreases actions
  {
    if actions == [] then s' == s else Enabled(s, actions[0]) && Run(Next(s, actions[0]), actions[1..], s')
  }

  /** A run in which every step is as the design assumes. */
  ghost predicate AssumedRun(s: State, actions: seq<Action>)
    decreases actions
  {
    actions == [] ||
    (Enabled(s, actions[0]) && Assumed(s, actions[0]) && AssumedRun(Next(s, actions[0]), actions[1..]))
  }

  lemma ActionKeepsCore(s: State, a: Action)
    requires Core(s) && Enabled(s, a) && Assumed(s, a)
    ensures Core(Next(s, a)) && s.pendingCount <= Next(s, a).pendingCount
  {
    hide LocksOk, CountersOk, SingleFlight;
    KeepsSingleFlight(s, a);
    KeepsLocks(s, a);
    KeepsCounters(s, a);
  }

  lemma ActionKeepsInv(s: State, a: Action)
    requires Inv(s) && Enabled(s, a) && Assumed(s, a)
    ensures Inv(Next(s, a)) && s.pendingCount <= Next(s, a).pendingCount
  {
    hide Core, MarkerOk;
    ActionKeepsCore(s, a);
    KeepsMarker(s, a);
  }

  lemma {:induction false} RunKeepsInv(s: State, actions: seq<Action>, s': State)
    requires Inv(s) && Run(s, actions, s') && AssumedRun(s, actions)
    ensures Inv(s') && s.pendingCount <= s'.pendingCount
    decreases actions
  {
    if actions != [] {
      ActionKeepsInv(s, actions[0]);
      RunKeepsInv(Next(s, actions[0]), actions[1..], s');
    }
  }

  ghost predicate NoGap(s: State) {
    forall c {:trigger s.calls[c]} :: c in s.calls && s.calls[c].phase.Handed? ==>
          s.calls[c].phase.nonce <= s.pendingCount
  }

  lemma CoreHasNoGap(s: State)
    requires Core(s)
    ensures NoGap(s)
  {
    forall c | c in s.calls && s.calls[c].phase.Handed? ensures s.calls[c].phase.nonce <= s.pendingCount {
      assert CallOk(s.calls[c], s.counter, s.pendingCount);
    }
  }

  /**
    With one call per manager at a time, no failure handling that throws with its nonce still owed,
    no crash in between, and no lease that expires in use, in every reachable state each nonce handed
    out is at most the chain's pending count, so its transaction leaves no gap, and the counter never
    runs ahead of that count by more than the one increment not yet broadcast.
   */
  lemma NonceNeverLeavesGap(s0: State, actions: seq<Action>, s: State)
    requires Initial(s0) && Run(s0, actions, s) && AssumedRun(s0, actions)
    ensures NoGap(s)
    ensures s.counter.Some? ==>
              s.counter.value <= s.pendingCount + 1
              && (NoneOwed(s.calls) ==> s.counter.value <= s.pendingCount)
  {
    assert Inv(s0);
    RunKeepsInv(s0, actions, s);
    CoreHasNoGap(s);
    if s.counter.Some? && !NoneOwed(s.calls) {
      var c :| c in s.calls && s.calls[c].owed.Some?;
      assert CallOk(s.calls[c], s.counter, s.pendingCount);
    }
  }
}
