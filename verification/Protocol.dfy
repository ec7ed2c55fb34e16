/**
  The whole protocol: any number of `processSettlementBatch` calls, each with its own trace, take
  justified steps between the steps of each other, of the sweeper, of the ungated failure path, of
  the db-writer and of the chain. A call that crashes takes no further step.
 */
module Protocol {
  import opened Matches
  import opened Store
  import opened Grouping
  import opened Options
  import opened Trace
  import opened FailurePath

  type CallId = nat

  /** `forgotten` is what the ungated failure path has acknowledged. */
  datatype World = World(chain: set<MatchId>, db: Tables, calls: map<CallId, seq<Event>>, forgotten: set<Entry>)

  datatype Step =
    | Enter(c: CallId)
    | Observe(c: CallId, e: Event)
    | WriteBack(c: CallId, m: Match, txHash: string)
    | Isolate(c: CallId, m: Match, reason: string)
    | Submit(c: CallId, ms: seq<Match>, collateral: Collateral, mined: bool)
    | Mine(ids: set<MatchId>)             // a settlement whose receipt no call saw
    | Create(m: Match)                    // the db-writer
    | Fail(job: Job)                      // the sweeper, or a quarantine whose reply was lost
    | UnlockBatch(ms: seq<Match>)
    | RecordBatch(ms: seq<Match>, reason: string)
    | RestoreBatch(ms: seq<Match>)
    | Forget(entry: Entry)
    | Elsewhere(orders: map<OrderId, OrderRow>, balances: map<BalanceKey, int>)

  const START := World({}, Tables(map[], map[], map[]), map[], {})

  function Ids(ms: seq<Match>): set<MatchId> {
    set m | m in ms :: m.matchId
  }

  /** The event a step of a call leaves in its trace. */
  function Left(s: Step): Event
    requires s.Observe? || s.WriteBack? || s.Isolate? || s.Submit?
  {
    match s
    case Observe(_, e) => e
    case WriteBack(_, m, _) => WroteBack(m)
    case Isolate(_, m, _) => Quarantined(m)
    case Submit(_, ms, with, mined) => Submitted(ms, with, mined)
  }

  predicate InCall(s: Step) {
    s.Observe? || s.WriteBack? || s.Isolate? || s.Submit?
  }

  predicate Enabled(w: World, s: Step) {
    match s
    case Enter(c) => c !in w.calls
    case Observe(c, e) =>
      && c in w.calls && Justifies(w.calls[c], e)
      && !e.WroteBack? && !e.Quarantined? && !e.Submitted?
      // A successful read tells the truth of that moment.
      && (e.ReadSettled? && e.result.Some? ==> (e.result.value <==> e.readId in w.chain))
    case WriteBack(c, _, _) => c in w.calls && Justifies(w.calls[c], Left(s))
    case Isolate(c, _, _) => c in w.calls && Justifies(w.calls[c], Left(s))
    case Submit(c, _, _, _) => c in w.calls && Justifies(w.calls[c], Left(s))
    case Create(m) => m.matchId !in w.db.matches
    case Fail(job) => !job.Writeback?
    case _ => true
  }

  function Db(t: Tables, s: Step): Tables {
    match s
    case WriteBack(_, m, txHash) => Apply(t, Writeback(m, txHash))
    case Isolate(_, m, reason) => Apply(t, Quarantine(m, reason))
    case Create(m) => t.(matches := t.matches[m.matchId := MatchRow(m, Pending)])
    case Fail(job) => Apply(t, job)
    case UnlockBatch(ms) => ExecuteAll(t, UnlockStatements(ms))
    case RecordBatch(ms, reason) => ExecuteAll(t, RecordStatements(ms, reason))
    case RestoreBatch(ms) => ExecuteAll(t, RestoreStatements(ms))
    case Elsewhere(orders, balances) => t.(orders := orders, balances := balances)
    case _ => t
  }

  function Chain(chain: set<MatchId>, s: Step): set<MatchId> {
    match s
    case Submit(_, ms, _, mined) => if mined then chain + Ids(ms) else chain
    case Mine(ids) => chain + ids
    case _ => chain
  }

  function Calls(calls: map<CallId, seq<Event>>, s: Step): map<CallId, seq<Event>>
    requires InCall(s) ==> s.c in calls
  {
    if s.Enter? then calls[s.c := []]
    else if InCall(s) then calls[s.c := calls[s.c] + [Left(s)]]
    else calls
  }

  function Next(w: World, s: Step): World
    requires Enabled(w, s)
  {
    World(Chain(w.chain, s), Db(w.db, s), Calls(w.calls, s), w.forgotten + if s.Forget? then {s.entry} else {})
  }

  predicate Run(w: World, steps: seq<Step>, w': World)
    decreases steps
  {
    if steps == [] then w == w' else Enabled(w, steps[0]) && Run(Next(w, steps[0]), steps[1..], w')
  }

  // ----- What every reachable world keeps -----

  /** SETTLED in the database means settled on chain. */
  ghost predicate SettledOnChain(w: World) {
    forall id :: id in w.db.matches && w.db.matches[id].status.Settled? ==> id in w.chain
  }

  ghost predicate TraceOk(t: seq<Event>, chain: set<MatchId>) {
    Justified(t) && forall id {:trigger SeenOnChain(t, id)} :: SeenOnChain(t, id) ==> id in chain
  }

  ghost predicate Inv(w: World) {
    SettledOnChain(w) && forall c :: c in w.calls ==> TraceOk(w.calls[c], w.chain)
  }

  /** How one step can change the status of one match. */
  lemma StatusAfter(w: World, s: Step, id: MatchId)
    requires Enabled(w, s)
    ensures Db(w.db, s).IsPending(id) ==> w.db.IsPending(id) || (s.Create? && s.m.matchId == id)
    ensures w.db.IsPending(id) && s.Observe? ==> Db(w.db, s).IsPending(id)
    ensures id in Db(w.db, s).matches && Db(w.db, s).matches[id].status.Settled? ==>
              (id in w.db.matches && w.db.matches[id].status.Settled?) || (s.WriteBack? && s.m.matchId == id)
    ensures (s.Isolate? || s.WriteBack?) && s.m.matchId == id ==> !Db(w.db, s).IsPending(id)
  {
    match s
    case WriteBack(_, m, txHash) => ApplyMeans(w.db, Writeback(m, txHash));
    case Isolate(_, m, reason) => ApplyMeans(w.db, Quarantine(m, reason));
    case Fail(job) => ApplyMeans(w.db, job);
    case UnlockBatch(ms) => UnlockMeans(w.db, ms);
    case RecordBatch(ms, reason) => RecordMeans(w.db, ms, reason);
    case RestoreBatch(ms) => RestoreMeans(w.db, ms);
    case _ =>
  }

  /** What a trace has seen after one more event. */
  lemma SeenAfter(t: seq<Event>, e: Event, id: MatchId)
    ensures SeenOnChain(t + [e], id) <==>
              || SeenOnChain(t, id) || e == ReadSettled(id, Some(true))
              || (e.Submitted? && e.mined && id in Ids(e.matches))
  {
    Snoc(t, e);
    assert id in (if e.Submitted? then Ids(e.matches) else {}) <==>
           e.Submitted? && exists m :: m in e.matches && m.matchId == id;
  }

  /** The trace of the call that steps. */
  lemma OwnTraceOk(w: World, s: Step)
    requires Inv(w) && Enabled(w, s) && InCall(s)
    ensures TraceOk(w.calls[s.c] + [Left(s)], Chain(w.chain, s))
  {
    var t, e := w.calls[s.c], Left(s);
    Snoc(t, e);
    forall id | SeenOnChain(t + [e], id) ensures id in Chain(w.chain, s) {
      SeenAfter(t, e, id);
    }
  }

  lemma StepKeepsSettled(w: World, s: Step)
    requires Inv(w) && Enabled(w, s)
    ensures SettledOnChain(Next(w, s))
  {
    var db := Db(w.db, s);
    forall id | id in db.matches && db.matches[id].status.Settled? ensures id in Chain(w.chain, s) {
      StatusAfter(w, s, id);
      if s.WriteBack? && s.m.matchId == id {
        assert SeenOnChain(w.calls[s.c], id);
      }
    }
  }

  lemma StepKeepsInv(w: World, s: Step)
    requires Inv(w) && Enabled(w, s)
    ensures Inv(Next(w, s))
  {
    StepKeepsSettled(w, s);
    var w' := Next(w, s);
    forall c | c in w'.calls ensures TraceOk(w'.calls[c], w'.chain) {
      if InCall(s) && c == s.c {
        OwnTraceOk(w, s);
      } else if c in w.calls {
        assert TraceOk(w.calls[c], w.chain);
      } else {
        assert w'.calls[c] == [];
      }
    }
  }

  lemma {:induction false} RunKeepsInv(w: World, steps: seq<Step>, w': World)
    requires Inv(w) && Run(w, steps, w')
    ensures Inv(w')
    decreases steps
  {
    if steps != [] {
      StepKeepsInv(w, steps[0]);
      RunKeepsInv(Next(w, steps[0]), steps[1..], w');
    }
  }

  /** In every reachable world, a SETTLED match is settled on chain. */
  lemma SettlementSound(steps: seq<Step>, w: World)
    requires Run(START, steps, w)
    ensures SettledOnChain(w)
  {
    RunKeepsInv(START, steps, w);
  }

  // ----- What an acknowledgement leaves behind -----

  /** An event that takes the match out of PENDING: its quarantine and, if those count too, its writeback. */
  predicate TakesOut(e: Event, id: MatchId, writebacks: bool) {
    (e.Quarantined? && e.quarantined.matchId == id) || (writebacks && e.WroteBack? && e.written.matchId == id)
  }

  /** No call has taken the match out. */
  ghost predicate NotTakenOut(w: World, id: MatchId, writebacks: bool) {
    forall c, e {:trigger e in w.calls[c]} :: c in w.calls && e in w.calls[c] ==> !TakesOut(e, id, writebacks)
  }

  /** This match's row is not inserted after a call has taken it out. */
  ghost predicate RowFirst(w: World, s: Step, id: MatchId, writebacks: bool) {
    s.Create? && s.m.matchId == id ==> NotTakenOut(w, id, writebacks)
  }

  ghost predicate RowFirstThroughout(w: World, steps: seq<Step>, id: MatchId, writebacks: bool)
    decreases steps
  {
    steps == [] ||
    (&& Enabled(w, steps[0]) && RowFirst(w, steps[0], id, writebacks)
     && RowFirstThroughout(Next(w, steps[0]), steps[1..], id, writebacks))
  }

  /** Once a call has taken the match out, it is out of PENDING. */
  ghost predicate StaysOut(w: World, id: MatchId, writebacks: bool) {
    w.db.IsPending(id) ==> NotTakenOut(w, id, writebacks)
  }

  lemma StepStaysOut(w: World, s: Step, id: MatchId, writebacks: bool)
    requires Enabled(w, s) && StaysOut(w, id, writebacks) && RowFirst(w, s, id, writebacks)
    ensures StaysOut(Next(w, s), id, writebacks)
  {
    StatusAfter(w, s, id);
    var w' := Next(w, s);
    if w'.db.IsPending(id) {
      forall c, e | c in w'.calls && e in w'.calls[c] ensures !TakesOut(e, id, writebacks) {
        if InCall(s) && c == s.c {
          assert e in w.calls[c] || Left(s) == e;
        }
      }
    }
  }

  lemma {:induction false} RunStaysOut(w: World, steps: seq<Step>, w': World, id: MatchId, writebacks: bool)
    requires Run(w, steps, w') && StaysOut(w, id, writebacks) && RowFirstThroughout(w, steps, id, writebacks)
    ensures StaysOut(w', id, writebacks)
    decreases steps
  {
    if steps != [] {
      StepStaysOut(w, steps[0], id, writebacks);
      RunStaysOut(Next(w, steps[0]), steps[1..], w', id, writebacks);
    }
  }

  /** In a justified trace, what was acknowledged had been resolved. */
  lemma {:induction false} AckedWasResolved(t: seq<Event>, entry: Entry)
    requires Justified(t) && Acked(entry) in t
    ensures Done(t, entry.payload)
  {
    var init, last := t[..|t| - 1], t[|t| - 1];
    if last != Acked(entry) {
      AckedWasResolved(init, entry);
    }
    SeenStays(init, t, entry.payload);
  }

  /**
    In every run, an acknowledged match that is still PENDING is settled on chain, provided its own
    row was not inserted after its own quarantine; when other rows arrive does not matter.
   */
  lemma NoMatchIsLost(steps: seq<Step>, w: World, c: CallId, entry: Entry)
    requires Run(START, steps, w) && RowFirstThroughout(START, steps, entry.payload.matchId, false)
    requires c in w.calls && Acked(entry) in w.calls[c] && w.db.IsPending(entry.payload.matchId)
    ensures entry.payload.matchId in w.chain
  {
    RunKeepsInv(START, steps, w);
    RunStaysOut(START, steps, w, entry.payload.matchId, false);
    assert TraceOk(w.calls[c], w.chain);
    AckedWasResolved(w.calls[c], entry);
  }

  /**
    And it is PENDING only because its own writeback threw: in every run, once a call has acknowledged
    an entry without losing its writeback, the match is out of PENDING for good, provided its row was
    not inserted after its own quarantine or writeback.
   */
  lemma AckedLeavesPending(steps: seq<Step>, w: World, c: CallId, entry: Entry)
    requires Run(START, steps, w) && RowFirstThroughout(START, steps, entry.payload.matchId, true)
    requires c in w.calls && Acked(entry) in w.calls[c] && Unwritten(entry.payload) !in w.calls[c]
    ensures !w.db.IsPending(entry.payload.matchId)
  {
    RunKeepsInv(START, steps, w);
    RunStaysOut(START, steps, w, entry.payload.matchId, true);
    assert TraceOk(w.calls[c], w.chain);
    AckedWasResolved(w.calls[c], entry);
    assert TakesOut(Quarantined(entry.payload), entry.payload.matchId, true);
    assert TakesOut(WroteBack(entry.payload), entry.payload.matchId, true);
  }

  /** The entry of a match that is settled on chain or not PENDING needs no one any more. */
  predicate Safe(w: World, entry: Entry) {
    entry.payload.matchId in w.chain || !w.db.IsPending(entry.payload.matchId)
  }

  /** An entry that a call, or the failure path, has acknowledged. */
  ghost predicate Gone(w: World, entry: Entry) {
    entry in w.forgotten || exists c :: c in w.calls && Acked(entry) in w.calls[c]
  }

  ghost predicate NothingLost(w: World) {
    forall entry {:trigger Gone(w, entry)} :: Gone(w, entry) ==> Safe(w, entry)
  }

  /** The entry a step acknowledges. */
  predicate Acknowledges(s: Step, entry: Entry) {
    s == Forget(entry) || (s.Observe? && s.e == Acked(entry))
  }

  lemma GoneAfter(w: World, s: Step, entry: Entry)
    requires Enabled(w, s)
    ensures Gone(Next(w, s), entry) <==> Gone(w, entry) || Acknowledges(s, entry)
  {
    var w' := Next(w, s);
    if c :| c in w'.calls && Acked(entry) in w'.calls[c] {
      assert (c in w.calls && Acked(entry) in w.calls[c]) || (InCall(s) && s.c == c && Left(s) == Acked(entry));
    }
    if c :| c in w.calls && Acked(entry) in w.calls[c] {
      assert c in w'.calls && Acked(entry) in w'.calls[c];
    }
    if s.Observe? && s.e == Acked(entry) {
      assert w'.calls[s.c][|w.calls[s.c]|] == s.e;
    }
  }

  /** A row is not inserted for a match already given up, and nothing is acknowledged that is still needed. */
  ghost predicate Harmless(w: World, s: Step) {
    && (s.Create? ==>
          || s.m.matchId in w.chain
          || forall entry {:trigger Gone(w, entry)} :: Gone(w, entry) ==> entry.payload.matchId != s.m.matchId)
    && (forall entry {:trigger Acknowledges(s, entry)} :: Acknowledges(s, entry) ==> Safe(w, entry))
  }

  /**
    Exactly which steps can lose a match: inserting the row of one that is acknowledged and not on
    chain, and acknowledging one that is PENDING and not on chain. No other step ever does.
   */
  lemma StepLosesExactly(w: World, s: Step)
    requires NothingLost(w) && Enabled(w, s)
    ensures NothingLost(Next(w, s)) <==> Harmless(w, s)
  {
    hide Gone, NothingLost;
    var w' := Next(w, s);
    if NothingLost(w') {
      forall entry | Gone(w, entry) && s.Create? && s.m.matchId !in w.chain
        ensures entry.payload.matchId != s.m.matchId
      {
        GoneAfter(w, s, entry);
        LostNothing(w', entry);
      }
      forall entry | Acknowledges(s, entry) ensures Safe(w, entry) {
        GoneAfter(w, s, entry);
        LostNothing(w', entry);
      }
    }
    if Harmless(w, s) {
      forall entry | Gone(w', entry) ensures Safe(w', entry) {
        GoneAfter(w, s, entry);
        StatusAfter(w, s, entry.payload.matchId);
        if !Acknowledges(s, entry) {
          LostNothing(w, entry);
        }
      }
      AllSafe(w');
    }
  }

  lemma LostNothing(w: World, entry: Entry)
    requires NothingLost(w) && Gone(w, entry)
    ensures Safe(w, entry)
  {
  }

  lemma AllSafe(w: World)
    requires forall entry :: Gone(w, entry) ==> Safe(w, entry)
    ensures NothingLost(w)
  {
  }

  /** A match with a row that is out of PENDING stays out, so its entry may be forgotten at any time. */
  lemma {:induction false} OutOfPendingForGood(w: World, steps: seq<Step>, w': World, id: MatchId)
    requires Run(w, steps, w') && id in w.db.matches && !w.db.IsPending(id)
    ensures id in w'.db.matches && !w'.db.IsPending(id)
    decreases steps
  {
    if steps != [] {
      StatusAfter(w, steps[0], id);
      RowsStay(w, steps[0], id);
      OutOfPendingForGood(Next(w, steps[0]), steps[1..], w', id);
    }
  }

  lemma RowsStay(w: World, s: Step, id: MatchId)
    requires Enabled(w, s) && id in w.db.matches
    ensures id in Db(w.db, s).matches
  {
    match s
    case WriteBack(_, m, txHash) => ApplyMeans(w.db, Writeback(m, txHash));
    case Isolate(_, m, reason) => ApplyMeans(w.db, Quarantine(m, reason));
    case Fail(job) => ApplyMeans(w.db, job);
    case UnlockBatch(ms) => UnlockMeans(w.db, ms);
    case RecordBatch(ms, reason) => RecordMeans(w.db, ms, reason);
    case RestoreBatch(ms) => RestoreMeans(w.db, ms);
    case _ =>
  }

  /**
    After the failure path has recorded a batch, none of its matches with a row is ever PENDING
    again: forgetting their entries loses nothing, whenever it happens.
   */
  lemma RecordedMayBeForgotten(w: World, ms: seq<Match>, reason: string, steps: seq<Step>, w': World, entry: Entry)
    requires entry.payload.matchId in Ids(ms) && entry.payload.matchId in w.db.matches
    requires Run(Next(w, RecordBatch(ms, reason)), steps, w')
    ensures Safe(w', entry)
  {
    RecordMeans(w.db, ms, reason);
    OutOfPendingForGood(Next(w, RecordBatch(ms, reason)), steps, w', entry.payload.matchId);
  }

  /** A PENDING, off-chain match is acknowledged only by a call that has quarantined it. */
  lemma LateAckWasQuarantined(w: World, c: CallId, entry: Entry)
    requires Inv(w) && Enabled(w, Observe(c, Acked(entry)))
    requires entry.payload.matchId !in w.chain
    ensures Quarantined(entry.payload) in w.calls[c]
  {
    assert TraceOk(w.calls[c], w.chain);
  }

  /** Once out of PENDING, a status changes only when the ungated path records the match as FAILED. */
  lemma StatusIsFinal(w: World, s: Step, id: MatchId)
    requires Enabled(w, s) && id in w.db.matches && !w.db.IsPending(id)
    ensures id in Db(w.db, s).matches
    ensures Db(w.db, s).matches[id] == w.db.matches[id] <==>
            !(s.RecordBatch? && id in Ids(s.ms) && w.db.matches[id].status != Failed(s.reason))
  {
    match s
    case WriteBack(_, m, txHash) => ApplyMeans(w.db, Writeback(m, txHash));
    case Isolate(_, m, reason) => ApplyMeans(w.db, Quarantine(m, reason));
    case Fail(job) => ApplyMeans(w.db, job);
    case UnlockBatch(ms) => UnlockMeans(w.db, ms);
    case RecordBatch(ms, reason) =>
      RecordMeans(w.db, ms, reason);
      assert id in Ids(ms) <==> exists m :: m in ms && m.matchId == id;
    case RestoreBatch(ms) => RestoreMeans(w.db, ms);
    case _ =>
  }

  // ----- Without the row first -----

  const EARLY := Match(1, 10, 20, 1, 2, 9, 5, 0, 0, 0, 0, true)

  /**
    Were a call to quarantine a match before the db-writer has inserted its row, the flip would
    select nothing, the entry would be acknowledged all the same, and the match would then be
    PENDING, off chain and in no stream: only the sweeper can still find it.
   */
  lemma EarlyEntryIsLost() returns (steps: seq<Step>, w: World)
    ensures Run(START, steps, w) && NothingLost(w)
    ensures Enabled(w, Create(EARLY)) && !RowFirst(w, Create(EARLY), EARLY.matchId, false) &&
            !NothingLost(Next(w, Create(EARLY)))
  {
    var entry := Entry(0, 0, EARLY);
    steps := [Enter(0), Isolate(0, EARLY, ""), Observe(0, Acked(entry))];
    w := World({}, START.db, map[0 := [Quarantined(EARLY), Acked(entry)]], {});
    EarlyRun(steps, w, entry);
    assert Quarantined(EARLY) in w.calls[0] && Acked(entry) in w.calls[0];
    assert Gone(w, entry);
    StepLosesExactly(w, Create(EARLY));
  }

  lemma EarlyRun(steps: seq<Step>, w: World, entry: Entry)
    requires entry.payload == EARLY
    requires steps == [Enter(0), Isolate(0, EARLY, ""), Observe(0, Acked(entry))]
    requires w == World({}, START.db, map[0 := [Quarantined(EARLY), Acked(entry)]], {})
    ensures Run(START, steps, w)
  {
    var w1 := World({}, START.db, map[0 := []], {});
    var w2 := World({}, START.db, map[0 := [Quarantined(EARLY)]], {});
    assert w1.calls[0] + [Left(steps[1])] == w2.calls[0] && w2.calls[0] + [Left(steps[2])] == w.calls[0];
    assert Next(START, steps[0]) == w1;
    assert w1.calls[0 := w2.calls[0]] == w2.calls && w2.calls[0 := w.calls[0]] == w.calls;
    assert Next(w1, steps[1]) == w2;
    assert Next(w2, steps[2]) == w;
    assert steps[1..][1..] == steps[2..] && steps[2..][1..] == [];
    assert Run(w2, steps[2..], w);
    assert Run(w1, steps[1..], w);
  }

  // ----- A call's trace is a run of the protocol -----

  /** The step that leaves an event. */
  function StepFor(c: CallId, e: Event): Step {
    match e
    case WroteBack(m) => WriteBack(c, m, "")
    case Quarantined(m) => Isolate(c, m, "")
    case Submitted(ms, with, mined) => Submit(c, ms, with, mined)
    case _ => Observe(c, e)
  }

  predicate ByOthers(s: Step, c: CallId) {
    s.Enter? || InCall(s) ==> s.c != c
  }

  /** Whatever others manage to do of these steps. */
  function Meanwhile(w: World, c: CallId, steps: seq<Step>): World {
    if steps == [] then w
    else
      var before, s := Meanwhile(w, c, steps[..|steps| - 1]), steps[|steps| - 1];
      if ByOthers(s, c) && Enabled(before, s) then Next(before, s) else before
  }

  /** The world after one call's trace, with what others do before each event. */
  function WorldAfter(w: World, c: CallId, t: seq<Event>, others: seq<seq<Step>>): World
    requires c !in w.calls && |others| == |t|
  {
    if t == [] then Next(w, Enter(c))
    else
      var n := |t| - 1;
      var before, s := Meanwhile(WorldAfter(w, c, t[..n], others[..n]), c, others[n]), StepFor(c, t[n]);
      if Enabled(before, s) then Next(before, s) else before
  }

  /** The world a call finds at one of its events. */
  function Moment(w: World, c: CallId, t: seq<Event>, others: seq<seq<Step>>, n: nat): World
    requires c !in w.calls && |others| == |t| && n < |t|
  {
    Meanwhile(WorldAfter(w, c, t[..n], others[..n]), c, others[n])
  }

  /** Every successful read of a trace told the truth of its moment, whatever others did before it. */
  ghost predicate Truthful(w: World, c: CallId, t: seq<Event>, others: seq<seq<Step>>)
    requires c !in w.calls && |others| == |t|
  {
    forall n: nat {:trigger t[n]} :: n < |t| && t[n].ReadSettled? && t[n].result.Some? ==>
      (t[n].result.value <==> t[n].readId in Moment(w, c, t, others, n).chain)
  }

  lemma TruthfulBefore(w: World, c: CallId, t: seq<Event>, others: seq<seq<Step>>)
    requires c !in w.calls && |others| == |t| && t != [] && Truthful(w, c, t, others)
    ensures Truthful(w, c, t[..|t| - 1], others[..|t| - 1])
  {
    hide WorldAfter, Meanwhile;
    var t', o' := t[..|t| - 1], others[..|t| - 1];
    forall n: nat | n < |t'| && t'[n].ReadSettled? && t'[n].result.Some?
      ensures t'[n].result.value <==> t'[n].readId in Moment(w, c, t', o', n).chain
    {
      assert t'[n] == t[n] && t'[..n] == t[..n] && o'[..n] == others[..n] && o'[n] == others[n];
    }
  }

  /**
    Every justified trace whose reads told the truth of their moment is what one call leaves in a run
    of the protocol, whatever steps others take between its own: other calls, the sweeper, the failure
    path, the db-writer and the chain.
   */
  lemma {:induction false} CallIsRun(w: World, c: CallId, t: seq<Event>, others: seq<seq<Step>>)
    returns (steps: seq<Step>)
    requires c !in w.calls && Justified(t) && |others| == |t| && Truthful(w, c, t, others)
    ensures var w' := WorldAfter(w, c, t, others);
            Run(w, steps, w') && c in w'.calls && w'.calls[c] == t
  {
    hide Run, Enabled, Next, Justifies, Meanwhile;
    if t == [] {
      steps := Entered(w, c);
    } else {
      var n := |t| - 1;
      TruthfulBefore(w, c, t, others);
      steps := CallIsRun(w, c, t[..n], others[..n]);
      var w1 := WorldAfter(w, c, t[..n], others[..n]);
      steps := MeanwhileRuns(w, steps, w1, c, others[n]);
      var w2 := Meanwhile(w1, c, others[n]);
      StepLeaves(w2, c, t[n]);
      RunThen(w, steps, w2, StepFor(c, t[n]));
      steps := steps + [StepFor(c, t[n])];
      assert t[..n] + [t[n]] == t;
    }
  }

  lemma Entered(w: World, c: CallId) returns (steps: seq<Step>)
    requires c !in w.calls
    ensures Run(w, steps, Next(w, Enter(c)))
    ensures c in Next(w, Enter(c)).calls && Next(w, Enter(c)).calls[c] == []
  {
    steps := [Enter(c)];
    assert steps[1..] == [];
    assert Run(Next(w, Enter(c)), [], Next(w, Enter(c)));
  }

  /** What others do extends the run and leaves the call's trace alone. */
  lemma {:induction false} MeanwhileRuns(w: World, steps: seq<Step>, w1: World, c: CallId, others: seq<Step>)
    returns (more: seq<Step>)
    requires Run(w, steps, w1) && c in w1.calls
    ensures var w2 := Meanwhile(w1, c, others);
            Run(w, more, w2) && c in w2.calls && w2.calls[c] == w1.calls[c]
  {
    hide Run, Enabled;
    if others == [] {
      more := steps;
    } else {
      var before, s := Meanwhile(w1, c, others[..|others| - 1]), others[|others| - 1];
      more := MeanwhileRuns(w, steps, w1, c, others[..|others| - 1]);
      if ByOthers(s, c) && Enabled(before, s) {
        RunThen(w, more, before, s);
        more := more + [s];
      }
    }
  }

  /** The step for a justified, truthful event can be taken and leaves it. */
  lemma StepLeaves(w: World, c: CallId, e: Event)
    requires c in w.calls && Justifies(w.calls[c], e)
    requires e.ReadSettled? && e.result.Some? ==> (e.result.value <==> e.readId in w.chain)
    ensures var s := StepFor(c, e);
            && Enabled(w, s)
            && c in Next(w, s).calls && Next(w, s).calls[c] == w.calls[c] + [e]
  {
  }

  lemma {:induction false} RunThen(w: World, steps: seq<Step>, w1: World, s: Step)
    requires Run(w, steps, w1) && Enabled(w1, s)
    ensures Run(w, steps + [s], Next(w1, s))
    decreases steps
  {
    if steps == [] {
      assert [s][1..] == [] && steps + [s] == [s];
      assert Run(Next(w1, s), [], Next(w1, s));
    } else {
      assert (steps + [s])[1..] == steps[1..] + [s];
      RunThen(Next(w, steps[0]), steps[1..], w1, s);
    }
  }
}
