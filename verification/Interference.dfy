/**
  The ungated failure path as it really runs: three transactions, each of which may fail to commit,
  with any gated transactions of other sessions between them. Exactly when it conserves.
 */
module Interference {
  import opened Matches
  import opened Store
  import opened Ledger
  import opened FailurePath

  /** `before` commits between the unlock and the record, `after` between the record and the restore. */
  function CleanupAmid(t: Tables, ms: seq<Match>, reason: string, u: bool, r: bool, s: bool, before: seq<Job>,
      after: seq<Job>): Tables {
    var t1 := ApplyAll(if u then ExecuteAll(t, UnlockStatements(ms)) else t, before);
    var t2 := ApplyAll(if r then ExecuteAll(t1, RecordStatements(ms, reason)) else t1, after);
    if s then ExecuteAll(t2, RestoreStatements(ms)) else t2
  }

  lemma CleanupIsAmidNobody(t: Tables, ms: seq<Match>, reason: string, u: bool, r: bool, s: bool)
    ensures CleanupAmid(t, ms, reason, u, r, s, [], []) == Cleanup(t, ms, reason, u, r, s)
  {
  }

  // ----- What gated transactions take off, whatever the tables hold -----

  /** What the transactions that pass their gate take off a balance row. */
  function Released(t: Tables, jobs: seq<Job>, k: BalanceKey): nat
    decreases jobs
  {
    if jobs == [] then 0
    else
      (if t.IsPending(jobs[0].m.matchId) then jobs[0].m.ShareAt(k) else 0) + Released(Apply(t, jobs[0]), jobs[1..], k)
  }

  /** What the failures among them take off a column of an order. */
  function Unfilled(t: Tables, jobs: seq<Job>, f: Match -> nat): nat
    decreases jobs
  {
    if jobs == [] then 0
    else
      (if t.IsPending(jobs[0].m.matchId) && !jobs[0].Writeback? then f(jobs[0].m) else 0) +
      Unfilled(Apply(t, jobs[0]), jobs[1..], f)
  }

  lemma {:induction false} ReleasedOff(t: Tables, jobs: seq<Job>, k: BalanceKey)
    requires k in t.balances && 0 <= t.balances[k]
    ensures k in ApplyAll(t, jobs).balances
    ensures ApplyAll(t, jobs).balances[k] == Greatest0(t.balances[k] - Released(t, jobs, k))
    decreases jobs
  {
    if jobs != [] {
      var j := jobs[0];
      if t.IsPending(j.m.matchId) {
        ApplyAt(t, j, k, 0);
        assert !j.m.OnBalance(k) ==> j.m.ShareAt(k) == 0;
      } else {
        ApplyMeans(t, j);
      }
      ReleasedOff(Apply(t, j), jobs[1..], k);
    }
  }

  lemma {:induction false} UnfilledOff(t: Tables, jobs: seq<Job>, o: OrderId)
    requires o in t.orders && 0 <= t.orders[o].filledQuantity && 0 <= t.orders[o].filledSettlementFee
    ensures var after := ApplyAll(t, jobs);
            && o in after.orders
            && after.orders[o].filledQuantity == Greatest0(t.orders[o].filledQuantity - Unfilled(t, jobs, Fills(o)))
            && after.orders[o].filledSettlementFee ==
                 Greatest0(t.orders[o].filledSettlementFee - Unfilled(t, jobs, Fees(o)))
    decreases jobs
  {
    if jobs != [] {
      var j := jobs[0];
      if t.IsPending(j.m.matchId) {
        ApplyAt(t, j, (0, 0), o);
        assert !j.m.OnOrder(o) ==> j.m.FillAt(o) == 0 && j.m.FeeAt(o) == 0;
      } else {
        ApplyMeans(t, j);
      }
      UnfilledOff(Apply(t, j), jobs[1..], o);
    }
  }

  /** Gates look at the match rows only. */
  lemma {:induction false} GatesAlike(a: Tables, b: Tables, jobs: seq<Job>, k: BalanceKey, f: Match -> nat)
    requires a.matches == b.matches
    ensures ApplyAll(a, jobs).matches == ApplyAll(b, jobs).matches
    ensures Released(a, jobs, k) == Released(b, jobs, k) && Unfilled(a, jobs, f) == Unfilled(b, jobs, f)
    decreases jobs
  {
    if jobs != [] {
      ApplyMeans(a, jobs[0]);
      ApplyMeans(b, jobs[0]);
      assert a.IsPending(jobs[0].m.matchId) <==> b.IsPending(jobs[0].m.matchId);
      GatesAlike(Apply(a, jobs[0]), Apply(b, jobs[0]), jobs[1..], k, f);
    }
  }

  /** Every job on a match with a row is on a match of the log. */
  ghost predicate Backed(log: seq<Match>, t: Tables, jobs: seq<Job>) {
    DistinctIds(log) && forall j :: j in jobs && j.m.matchId in t.matches ==> j.m in log
  }

  /** What they take off the pending total is what they release. */
  lemma {:induction false} PendingTakenOff(log: seq<Match>, t: Tables, jobs: seq<Job>, k: BalanceKey)
    requires Backed(log, t, jobs)
    ensures Sum(log, PendingWeight(ApplyAll(t, jobs).matches, k)) + Released(t, jobs, k) ==
            Sum(log, PendingWeight(t.matches, k))
    decreases jobs
  {
    if jobs != [] {
      var j := jobs[0];
      ApplyMeans(t, j);
      assert forall i :: i in jobs[1..] ==> i in jobs;
      PendingTakenOff(log, Apply(t, j), jobs[1..], k);
      if t.IsPending(j.m.matchId) {
        var i :| 0 <= i < |log| && log[i] == j.m;
        PendingDrops(log, i, t.matches, MatchRow(t.matches[j.m.matchId].payload, j.Target()), k);
      }
    }
  }

  lemma {:induction false} FillsTakenOff(log: seq<Match>, t: Tables, jobs: seq<Job>, o: OrderId)
    requires Backed(log, t, jobs)
    ensures Sum(log, FillWeight(ApplyAll(t, jobs).matches, o)) + Unfilled(t, jobs, Fills(o)) ==
            Sum(log, FillWeight(t.matches, o))
    ensures Sum(log, FeeWeight(ApplyAll(t, jobs).matches, o)) + Unfilled(t, jobs, Fees(o)) ==
            Sum(log, FeeWeight(t.matches, o))
    decreases jobs
  {
    if jobs != [] {
      var j := jobs[0];
      ApplyMeans(t, j);
      assert forall i :: i in jobs[1..] ==> i in jobs;
      FillsTakenOff(log, Apply(t, j), jobs[1..], o);
      if t.IsPending(j.m.matchId) {
        var i :| 0 <= i < |log| && log[i] == j.m;
        FillDrops(log, i, t.matches, MatchRow(t.matches[j.m.matchId].payload, j.Target()), o);
      }
    }
  }

  // ----- The whole of a batch, however it splits into what is due and what is not -----

  lemma {:induction false} ShareSplits(a: Tables, b: Tables, ms: seq<Match>, k: BalanceKey)
    ensures Due(a, ms, k) + Excess(a, ms, k) == Due(b, ms, k) + Excess(b, ms, k)
  {
    if ms != [] {
      ShareSplits(a, b, ms[..|ms| - 1], k);
    }
  }

  lemma {:induction false} FillSplits(a: Tables, b: Tables, ms: seq<Match>, f: Match -> nat)
    ensures LiveDue(a, ms, f) + LiveExcess(a, ms, f) == LiveDue(b, ms, f) + LiveExcess(b, ms, f)
  {
    if ms != [] {
      OneMoreOf(a, ms, f);
      OneMoreOf(b, ms, f);
      FillSplits(a, b, ms[..|ms| - 1], f);
    }
  }

  // ----- The exact condition -----

  /** What the recording finds, were it not for the unlock: the gated transactions before it. */
  function Found(t: Tables, before: seq<Job>): Tables {
    ApplyAll(t, before)
  }

  /** And what it leaves. */
  function Marked(t: Tables, ms: seq<Match>, reason: string, r: bool): Tables {
    if r then t.(matches := RecordedMatches(t.matches, ms, reason)) else t
  }

  /** What is on a balance row once both lists of gated transactions are taken off it. */
  function HeldAt(t: Tables, ms: seq<Match>, reason: string, r: bool, before: seq<Job>, after: seq<Job>,
      k: BalanceKey): int
    requires k in t.balances
  {
    t.balances[k] - Released(t, before, k) - Released(Marked(Found(t, before), ms, reason, r), after, k)
  }

  function Left(held: int, t: Tables, ms: seq<Match>, reason: string, r: bool, before: seq<Job>, after: seq<Job>,
      f: Match -> nat): int {
    held - Unfilled(t, before, f) - Unfilled(Marked(Found(t, before), ms, reason, r), after, f)
  }

  /** Every balance row stays exact. */
  ghost predicate LocksStayExact(t: Tables, ms: seq<Match>, reason: string, u: bool, r: bool, before: seq<Job>,
      after: seq<Job>) {
    var found := Found(t, before);
    forall k {:trigger t.balances[k]} :: k in t.balances ==>
      StaysExact(HeldAt(t, ms, reason, r, before, after, k), Due(found, ms, k), Excess(found, ms, k), u, r)
  }

  predicate ColumnStaysExact(held: int, t: Tables, ms: seq<Match>, reason: string, s: bool, r: bool,
                             before: seq<Job>, after: seq<Job>, f: Match -> nat) {
    var found := Found(t, before);
    StaysExact(Left(held, t, ms, reason, r, before, after, f), LiveDue(found, ms, f), LiveExcess(found, ms, f), s, r)
  }

  /** Every filled quantity and fee stays exact. */
  ghost predicate FillsStayExact(t: Tables, ms: seq<Match>, reason: string, s: bool, r: bool, before: seq<Job>,
      after: seq<Job>) {
    forall o {:trigger t.orders[o]} :: o in t.orders ==>
      && ColumnStaysExact(t.orders[o].filledQuantity, t, ms, reason, s, r, before, after, Fills(o))
      && ColumnStaysExact(t.orders[o].filledSettlementFee, t, ms, reason, s, r, before, after, Fees(o))
  }

  lemma KnownBacked(w: World, jobs: seq<Job>)
    requires Conserved(w) && Payloads(w, jobs)
    ensures Backed(w.log, w.db, jobs)
  {
    forall j | j in jobs && j.m.matchId in w.db.matches ensures j.m in w.log {
      assert Enabled(w, Attempt(j));
    }
  }

  lemma SameIds(t: Tables, jobs: seq<Job>)
    ensures ApplyAll(t, jobs).matches.Keys == t.matches.Keys
    ensures ApplyAll(t, jobs).orders.Keys == t.orders.Keys && ApplyAll(t, jobs).balances.Keys == t.balances.Keys
    ensures forall id :: id in t.matches ==> ApplyAll(t, jobs).matches[id].payload == t.matches[id].payload
    decreases jobs
  {
    if jobs != [] {
      ApplyMeans(t, jobs[0]);
      SameIds(Apply(t, jobs[0]), jobs[1..]);
    }
  }

  /** What the match rows are at the end, and in between. */
  lemma AmidMatches(t: Tables, ms: seq<Match>, reason: string, u: bool, r: bool, s: bool, before: seq<Job>,
      after: seq<Job>)
    ensures CleanupAmid(t, ms, reason, u, r, s, before, after).matches ==
            ApplyAll(Marked(Found(t, before), ms, reason, r), after).matches
  {
    hide ApplyAll, ExecuteAll, RecordedMatches;
    var t0 := if u then ExecuteAll(t, UnlockStatements(ms)) else t;
    UnlockMeans(t, ms);
    GatesAlike(t0, t, before, (0, 0), Fills(0));
    var t1 := ApplyAll(t0, before);
    RecordMeans(t1, ms, reason);
    var t1r := if r then ExecuteAll(t1, RecordStatements(ms, reason)) else t1;
    GatesAlike(t1r, Marked(Found(t, before), ms, reason, r), after, (0, 0), Fills(0));
    RestoreMeans(ApplyAll(t1r, after), ms);
  }

  /** What a balance row holds at the end: everything taken off under one clamp. */
  lemma AmidBalance(t: Tables, ms: seq<Match>, reason: string, u: bool, r: bool, s: bool,
                    before: seq<Job>, after: seq<Job>, k: BalanceKey)
    requires k in t.balances && 0 <= t.balances[k]
    ensures var done := CleanupAmid(t, ms, reason, u, r, s, before, after);
            var whole := if u then Due(t, ms, k) + Excess(t, ms, k) else 0;
            && k in done.balances
            && done.balances[k] == Greatest0(HeldAt(t, ms, reason, r, before, after, k) - whole)
  {
    hide ApplyAll, ExecuteAll, RecordedMatches, Released, Due, Excess;
    var t0 := if u then ExecuteAll(t, UnlockStatements(ms)) else t;
    UnlockMeans(t, ms);
    UnlockingDrops(t, ms, k);
    GatesAlike(t0, t, before, k, Fills(0));
    ReleasedOff(t0, before, k);
    var t1 := ApplyAll(t0, before);
    RecordMeans(t1, ms, reason);
    var t1r := if r then ExecuteAll(t1, RecordStatements(ms, reason)) else t1;
    GatesAlike(t1r, Marked(Found(t, before), ms, reason, r), after, k, Fills(0));
    ReleasedOff(t1r, after, k);
    RestoreMeans(ApplyAll(t1r, after), ms);
  }

  /** The tables the restoration starts from. */
  function BeforeRestore(t: Tables, ms: seq<Match>, reason: string, u: bool, r: bool, before: seq<Job>,
      after: seq<Job>): Tables {
    CleanupAmid(t, ms, reason, u, r, false, before, after)
  }

  lemma OrderBeforeRestore(t: Tables, ms: seq<Match>, reason: string, u: bool, r: bool,
                           before: seq<Job>, after: seq<Job>, o: OrderId)
    requires o in t.orders && 0 <= t.orders[o].filledQuantity && 0 <= t.orders[o].filledSettlementFee
    ensures var t2 := BeforeRestore(t, ms, reason, u, r, before, after);
            && o in t2.orders
            && t2.orders[o].filledQuantity ==
                 Greatest0(Left(t.orders[o].filledQuantity, t, ms, reason, r, before, after, Fills(o)))
            && t2.orders[o].filledSettlementFee ==
                 Greatest0(Left(t.orders[o].filledSettlementFee, t, ms, reason, r, before, after, Fees(o)))
  {
    hide ApplyAll, ExecuteAll, RecordedMatches, Unfilled, Fills, Fees;
    var t0 := if u then ExecuteAll(t, UnlockStatements(ms)) else t;
    UnlockMeans(t, ms);
    GatesAlike(t0, t, before, (0, 0), Fills(o));
    GatesAlike(t0, t, before, (0, 0), Fees(o));
    UnfilledOff(t0, before, o);
    var t1 := ApplyAll(t0, before);
    RecordMeans(t1, ms, reason);
    var t1r := if r then ExecuteAll(t1, RecordStatements(ms, reason)) else t1;
    var marked := Marked(Found(t, before), ms, reason, r);
    GatesAlike(t1r, marked, after, (0, 0), Fills(o));
    GatesAlike(t1r, marked, after, (0, 0), Fees(o));
    UnfilledOff(t1r, after, o);
  }

  /** What an order row holds at the end. */
  lemma AmidOrder(t: Tables, ms: seq<Match>, reason: string, u: bool, r: bool, s: bool,
                  before: seq<Job>, after: seq<Job>, o: OrderId)
    requires o in t.orders && 0 <= t.orders[o].filledQuantity && 0 <= t.orders[o].filledSettlementFee
    ensures var done := CleanupAmid(t, ms, reason, u, r, s, before, after);
            var fills := if s then LiveDue(t, ms, Fills(o)) + LiveExcess(t, ms, Fills(o)) else 0;
            var fees := if s then LiveDue(t, ms, Fees(o)) + LiveExcess(t, ms, Fees(o)) else 0;
            && o in done.orders
            && done.orders[o].filledQuantity ==
                 Greatest0(Left(t.orders[o].filledQuantity, t, ms, reason, r, before, after, Fills(o)) - fills)
            && done.orders[o].filledSettlementFee ==
                 Greatest0(Left(t.orders[o].filledSettlementFee, t, ms, reason, r, before, after, Fees(o)) - fees)
  {
    hide Left, LiveDue, LiveExcess, Fills, Fees, RestoreStatements;
    var t2 := BeforeRestore(t, ms, reason, u, r, before, after);
    OrderBeforeRestore(t, ms, reason, u, r, before, after, o);
    RestoredAfter(t, ms, reason, u, r, s, before, after);
    hide CleanupAmid;
    RestoringDrops(t2, ms, o);
    FillSplits(t2, t, ms, Fills(o));
    FillSplits(t2, t, ms, Fees(o));
  }

  lemma RestoredAfter(t: Tables, ms: seq<Match>, reason: string, u: bool, r: bool, s: bool, before: seq<Job>,
      after: seq<Job>)
    ensures var t2 := BeforeRestore(t, ms, reason, u, r, before, after);
            CleanupAmid(t, ms, reason, u, r, s, before, after).orders ==
            if s then AllRestoredOrders(t2.orders, ms) else t2.orders
  {
    RestoreMeans(BeforeRestore(t, ms, reason, u, r, before, after), ms);
  }

  /** What the pending total is at the end. */
  lemma AmidPending(w: World, ms: seq<Match>, reason: string, r: bool, before: seq<Job>, after: seq<Job>, k: BalanceKey)
    requires Conserved(w) && Known(w, ms) && Payloads(w, before) && Payloads(w, after)
    ensures var found := Found(w.db, before); var marked := Marked(found, ms, reason, r);
            Sum(w.log, PendingWeight(ApplyAll(marked, after).matches, k)) + Released(w.db, before, k) +
            (if r then Due(found, ms, k) else 0) + Released(marked, after, k) ==
            Sum(w.log, PendingWeight(w.db.matches, k))
  {
    hide Sum, Released, Due, Conserved, Payloads;
    var found := Found(w.db, before);
    var marked := Marked(found, ms, reason, r);
    KnownBacked(w, before);
    KnownBacked(w, after);
    KnownRows(w, ms);
    SameIds(w.db, before);
    PendingTakenOff(w.log, w.db, before, k);
    RecordingDrops(w.log, found, ms, reason, k);
    PendingTakenOff(w.log, marked, after, k);
  }

  lemma AmidFills(w: World, ms: seq<Match>, reason: string, r: bool, before: seq<Job>, after: seq<Job>, o: OrderId)
    requires Conserved(w) && Known(w, ms) && Payloads(w, before) && Payloads(w, after)
    ensures var found := Found(w.db, before); var marked := Marked(found, ms, reason, r);
            && Sum(w.log, FillWeight(ApplyAll(marked, after).matches, o)) + Unfilled(w.db, before, Fills(o)) +
               (if r then LiveDue(found, ms, Fills(o)) else 0) + Unfilled(marked, after, Fills(o)) ==
                 Sum(w.log, FillWeight(w.db.matches, o))
            && Sum(w.log, FeeWeight(ApplyAll(marked, after).matches, o)) + Unfilled(w.db, before, Fees(o)) +
               (if r then LiveDue(found, ms, Fees(o)) else 0) + Unfilled(marked, after, Fees(o)) ==
                 Sum(w.log, FeeWeight(w.db.matches, o))
  {
    hide Sum, Unfilled, LiveDue, Conserved, Payloads, Fills, Fees;
    var found := Found(w.db, before);
    var marked := Marked(found, ms, reason, r);
    KnownBacked(w, before);
    KnownBacked(w, after);
    KnownRows(w, ms);
    SameIds(w.db, before);
    FillsTakenOff(w.log, w.db, before, o);
    RecordingDropsFills(w.log, found, ms, reason, o);
    FillsTakenOff(w.log, marked, after, o);
  }

  lemma AmidAtBalance(w: World, ms: seq<Match>, reason: string, u: bool, r: bool, s: bool,
                      before: seq<Job>, after: seq<Job>, k: BalanceKey)
    requires Conserved(w) && Known(w, ms) && Payloads(w, before) && Payloads(w, after) && k in w.db.balances
    ensures var done := CleanupAmid(w.db, ms, reason, u, r, s, before, after);
            var found := Found(w.db, before);
            var held := HeldAt(w.db, ms, reason, r, before, after, k);
            && k in done.balances && k in w.base
            && (done.balances[k] == w.base[k] + Sum(w.log, PendingWeight(done.matches, k)) <==>
                  StaysExact(held, Due(found, ms, k), Excess(found, ms, k), u, r))
  {
    hide Conserved, Payloads, CleanupAmid, Sum, Due, Excess, StaysExact, Released, ApplyAll;
    var found := Found(w.db, before);
    var total := Sum(w.log, PendingWeight(w.db.matches, k)) - Released(w.db, before, k) -
                 Released(Marked(found, ms, reason, r), after, k);
    LockAt(w, k);
    AmidMatches(w.db, ms, reason, u, r, s, before, after);
    AmidBalance(w.db, ms, reason, u, r, s, before, after, k);
    AmidPending(w, ms, reason, r, before, after, k);
    ShareSplits(w.db, found, ms, k);
    StaysExactMeans(w.base[k], total, Due(found, ms, k), Excess(found, ms, k), u, r);
  }

  lemma AmidAtOrder(w: World, ms: seq<Match>, reason: string, u: bool, r: bool, s: bool,
                    before: seq<Job>, after: seq<Job>, o: OrderId)
    requires Conserved(w) && Known(w, ms) && Payloads(w, before) && Payloads(w, after) && o in w.db.orders
    ensures var done := CleanupAmid(w.db, ms, reason, u, r, s, before, after);
            var row := w.db.orders[o];
            && o in done.orders
            && (done.orders[o].filledQuantity == Sum(w.log, FillWeight(done.matches, o)) <==>
                  ColumnStaysExact(row.filledQuantity, w.db, ms, reason, s, r, before, after, Fills(o)))
            && (done.orders[o].filledSettlementFee == Sum(w.log, FeeWeight(done.matches, o)) <==>
                  ColumnStaysExact(row.filledSettlementFee, w.db, ms, reason, s, r, before, after, Fees(o)))
  {
    hide Conserved, Payloads, CleanupAmid, Sum, LiveDue, LiveExcess, StaysExact, Unfilled, ApplyAll, Fills, Fees;
    var found := Found(w.db, before);
    var marked := Marked(found, ms, reason, r);
    FillsAt(w, o);
    AmidMatches(w.db, ms, reason, u, r, s, before, after);
    AmidOrder(w.db, ms, reason, u, r, s, before, after, o);
    AmidFills(w, ms, reason, r, before, after, o);
    FillSplits(w.db, found, ms, Fills(o));
    FillSplits(w.db, found, ms, Fees(o));
    var fills := Sum(w.log, FillWeight(w.db.matches, o)) - Unfilled(w.db, before, Fills(o)) -
                 Unfilled(marked, after, Fills(o));
    var fees := Sum(w.log, FeeWeight(w.db.matches, o)) - Unfilled(w.db, before, Fees(o)) -
                Unfilled(marked, after, Fees(o));
    StaysExactMeans(0, fills, LiveDue(found, ms, Fills(o)), LiveExcess(found, ms, Fills(o)), s, r);
    StaysExactMeans(0, fees, LiveDue(found, ms, Fees(o)), LiveExcess(found, ms, Fees(o)), s, r);
  }

  /** The same rows, with the same payloads. */
  ghost predicate SameRows(a: Tables, b: Tables) {
    && a.matches.Keys == b.matches.Keys && a.orders.Keys == b.orders.Keys && a.balances.Keys == b.balances.Keys
    && forall id :: id in a.matches ==> a.matches[id].payload == b.matches[id].payload
  }

  lemma StatementsKeepRows(t: Tables, ms: seq<Match>, reason: string)
    ensures SameRows(t, ExecuteAll(t, UnlockStatements(ms)))
    ensures SameRows(t, ExecuteAll(t, RecordStatements(ms, reason)))
    ensures SameRows(t, ExecuteAll(t, RestoreStatements(ms)))
  {
    UnlockMeans(t, ms);
    ClampedOnce(t, UnlockStatements(ms), (0, 0));
    RecordMeans(t, ms, reason);
    RestoreMeans(t, ms);
    RestoredOnce(t, RestoreStatements(ms), 0);
  }

  lemma SameRowsStay(w: World, t: Tables)
    requires Registered(w) && SameRows(w.db, t)
    ensures Registered(w.(db := t))
  {
  }

  /** No row appears, disappears or changes its payload. */
  lemma AmidKeepsRows(w: World, ms: seq<Match>, reason: string, u: bool, r: bool, s: bool, before: seq<Job>,
      after: seq<Job>)
    requires Registered(w)
    ensures var done := CleanupAmid(w.db, ms, reason, u, r, s, before, after);
            Registered(w.(db := done)) && SameRows(w.db, done)
  {
    hide ApplyAll, ExecuteAll, Registered, UnlockStatements, RecordStatements, RestoreStatements;
    var t0 := if u then ExecuteAll(w.db, UnlockStatements(ms)) else w.db;
    StatementsKeepRows(w.db, ms, reason);
    SameIds(t0, before);
    var t1 := ApplyAll(t0, before);
    StatementsKeepRows(t1, ms, reason);
    var t1r := if r then ExecuteAll(t1, RecordStatements(ms, reason)) else t1;
    SameIds(t1r, after);
    StatementsKeepRows(ApplyAll(t1r, after), ms, reason);
    SameRowsStay(w, CleanupAmid(w.db, ms, reason, u, r, s, before, after));
  }

  /**
    The exact condition, for every batch whose payloads agree with the rows there are, whichever of
    the three transactions commit, and whatever gated transactions come between them: reservations
    are conserved if and only if every balance row stays exact, and fills if and only if every order
    row does. With all three committed a row stays exact if the batch takes nothing off it that was
    already gone when it was recorded, or if it holds nothing but what the batch was then due.
   */
  lemma CleanupConservesIff(w: World, ms: seq<Match>, reason: string, u: bool, r: bool, s: bool, before: seq<Job>,
      after: seq<Job>)
    requires Conserved(w) && Known(w, ms) && Payloads(w, before) && Payloads(w, after)
    ensures var w' := w.(db := CleanupAmid(w.db, ms, reason, u, r, s, before, after));
            var locks := LocksStayExact(w.db, ms, reason, u, r, before, after);
            var fills := FillsStayExact(w.db, ms, reason, s, r, before, after);
            && (LocksConserved(w') <==> locks)
            && (FillsConserved(w') <==> fills)
            && (Conserved(w') <==> locks && fills)
  {
    hide LocksConserved, FillsConserved, LocksStayExact, FillsStayExact, CleanupAmid;
    AmidKeepsRows(w, ms, reason, u, r, s, before, after);
    CleanupLocksIff(w, ms, reason, u, r, s, before, after);
    CleanupFillsIff(w, ms, reason, u, r, s, before, after);
  }

  lemma CleanupLocksIff(w: World, ms: seq<Match>, reason: string, u: bool, r: bool, s: bool, before: seq<Job>,
      after: seq<Job>)
    requires Conserved(w) && Known(w, ms) && Payloads(w, before) && Payloads(w, after)
    ensures LocksConserved(w.(db := CleanupAmid(w.db, ms, reason, u, r, s, before, after))) <==>
            LocksStayExact(w.db, ms, reason, u, r, before, after)
  {
    hide CleanupAmid, Sum, Due, Excess, StaysExact, Registered, FillsConserved, Known, Payloads, Found, HeldAt;
    var done := CleanupAmid(w.db, ms, reason, u, r, s, before, after);
    AmidKeepsRows(w, ms, reason, u, r, s, before, after);
    forall k | k in w.db.balances
      ensures k in done.balances && k in w.base
      ensures done.balances[k] == w.base[k] + Sum(w.log, PendingWeight(done.matches, k)) <==>
              StaysExact(HeldAt(w.db, ms, reason, r, before, after, k),
                         Due(Found(w.db, before), ms, k), Excess(Found(w.db, before), ms, k), u, r)
    {
      AmidAtBalance(w, ms, reason, u, r, s, before, after, k);
    }
  }

  lemma CleanupFillsIff(w: World, ms: seq<Match>, reason: string, u: bool, r: bool, s: bool, before: seq<Job>,
      after: seq<Job>)
    requires Conserved(w) && Known(w, ms) && Payloads(w, before) && Payloads(w, after)
    ensures FillsConserved(w.(db := CleanupAmid(w.db, ms, reason, u, r, s, before, after))) <==>
            FillsStayExact(w.db, ms, reason, s, r, before, after)
  {
    hide CleanupAmid, Sum, ColumnStaysExact, Registered, LocksConserved, Known, Payloads, Fills, Fees;
    var done := CleanupAmid(w.db, ms, reason, u, r, s, before, after);
    AmidKeepsRows(w, ms, reason, u, r, s, before, after);
    forall o | o in w.db.orders
      ensures o in done.orders
      ensures done.orders[o].filledQuantity == Sum(w.log, FillWeight(done.matches, o)) <==>
              ColumnStaysExact(w.db.orders[o].filledQuantity, w.db, ms, reason, s, r, before, after, Fills(o))
      ensures done.orders[o].filledSettlementFee == Sum(w.log, FeeWeight(done.matches, o)) <==>
              ColumnStaysExact(w.db.orders[o].filledSettlementFee, w.db, ms, reason, s, r, before, after, Fees(o))
    {
      AmidAtOrder(w, ms, reason, u, r, s, before, after, o);
    }
  }

  // ----- What the condition comes to -----

  /** A match is still PENDING after gated transactions if and only if it was and none of them is on it. */
  lemma {:induction false} StillPending(t: Tables, jobs: seq<Job>, id: MatchId)
    ensures ApplyAll(t, jobs).IsPending(id) <==> t.IsPending(id) && forall j :: j in jobs ==> j.m.matchId != id
    decreases jobs
  {
    if jobs != [] {
      ApplyMeans(t, jobs[0]);
      StillPending(Apply(t, jobs[0]), jobs[1..], id);
      assert forall j :: j in jobs <==> j == jobs[0] || j in jobs[1..];
    }
  }

  /** No transaction of the list is on a match of the batch. */
  ghost predicate Clear(jobs: seq<Job>, ms: seq<Match>) {
    forall j, m :: j in jobs && m in ms ==> j.m.matchId != m.matchId
  }

  lemma {:induction false} NoLiveExcess(t: Tables, ms: seq<Match>, f: Match -> nat)
    requires DistinctIds(ms) && AllPending(t, ms)
    ensures LiveExcess(t, ms, f) == 0
  {
    if ms != [] {
      var init, last := ms[..|ms| - 1], ms[|ms| - 1];
      assert last in ms;
      assert forall m :: m in init ==> m in ms && m.matchId != last.matchId;
      NoLiveExcess(t, init, f);
    }
  }

  lemma AllStillPending(t: Tables, ms: seq<Match>, jobs: seq<Job>)
    ensures AllPending(Found(t, jobs), ms) <==> AllPending(t, ms) && Clear(jobs, ms)
  {
    forall m | m in ms
      ensures Found(t, jobs).IsPending(m.matchId) <==>
              t.IsPending(m.matchId) && forall j :: j in jobs ==> j.m.matchId != m.matchId
    {
      StillPending(t, jobs, m.matchId);
    }
  }

  /**
    Where every lender of the batch has some other reservation on the loan token and all three
    transactions commit, the ungated path conserves, locks alone or locks and fills, if and only if
    the matches of the batch are distinct, all PENDING at the start, and untouched by anyone between
    the unlock and the record. What comes between the record and the restore does not matter.
   */
  lemma CleanupConservesExactly(w: World, ms: seq<Match>, reason: string, before: seq<Job>, after: seq<Job>)
    requires Conserved(w) && Known(w, ms) && Payloads(w, before) && Payloads(w, after)
    requires forall m :: m in ms ==> 0 < m.matchedAmount && m.LenderKey() in w.base && 0 < w.base[m.LenderKey()]
    ensures var w' := w.(db := CleanupAmid(w.db, ms, reason, true, true, true, before, after));
            var clean := DistinctIds(ms) && AllPending(w.db, ms) && Clear(before, ms);
            && (LocksConserved(w') <==> clean)
            && (Conserved(w') <==> clean)
  {
    hide LocksConserved, FillsConserved, CleanupAmid, Found, AllPending, Clear, LocksStayExact, FillsStayExact;
    CleanupConservesIff(w, ms, reason, true, true, true, before, after);
    AllStillPending(w.db, ms, before);
    if DistinctIds(ms) && AllPending(Found(w.db, before), ms) {
      NothingExcess(w.db, ms, reason, before, after);
    } else {
      var bad := SomeExcess(Found(w.db, before), ms);
      ExcessShows(w, ms, reason, before, after, bad.LenderKey());
    }
  }

  lemma NothingExcess(t: Tables, ms: seq<Match>, reason: string, before: seq<Job>, after: seq<Job>)
    requires DistinctIds(ms) && AllPending(Found(t, before), ms)
    ensures LocksStayExact(t, ms, reason, true, true, before, after)
    ensures FillsStayExact(t, ms, reason, true, true, before, after)
  {
    hide Found;
    forall k | k in t.balances ensures Excess(Found(t, before), ms, k) == 0 {
      NoExcess(Found(t, before), ms, k);
    }
    forall o | o in t.orders
      ensures LiveExcess(Found(t, before), ms, Fills(o)) == 0 && LiveExcess(Found(t, before), ms, Fees(o)) == 0
    {
      NoLiveExcess(Found(t, before), ms, Fills(o));
      NoLiveExcess(Found(t, before), ms, Fees(o));
    }
  }

  lemma ExcessShows(w: World, ms: seq<Match>, reason: string, before: seq<Job>, after: seq<Job>, k: BalanceKey)
    requires Conserved(w) && Known(w, ms) && Payloads(w, before) && Payloads(w, after)
    requires k in w.base && 0 < w.base[k] && 0 < Excess(Found(w.db, before), ms, k)
    ensures !LocksStayExact(w.db, ms, reason, true, true, before, after)
  {
    hide Sum, Released, Due, Excess, Payloads, Found, ApplyAll, Known;
    assert k in w.db.balances;
    LockAt(w, k);
    AmidPending(w, ms, reason, true, before, after, k);
    assert HeldAt(w.db, ms, reason, true, before, after, k) > Due(Found(w.db, before), ms, k);
  }

  /**
    Whatever commits and whatever comes between, the failure path leaves a match PENDING exactly when
    it was PENDING, nobody's gated transaction is on it, and the recording did not cover it:
    acknowledged after that, only the sweeper can find it.
   */
  lemma CleanupLeavesPendingExactly(t: Tables, ms: seq<Match>, reason: string, u: bool, r: bool, s: bool,
                                    before: seq<Job>, after: seq<Job>, id: MatchId)
    ensures CleanupAmid(t, ms, reason, u, r, s, before, after).IsPending(id) <==>
              && t.IsPending(id) && (forall j :: j in before || j in after ==> j.m.matchId != id)
              && !(r && exists m :: m in ms && m.matchId == id)
  {
    hide CleanupAmid, ApplyAll;
    AmidMatches(t, ms, reason, u, r, s, before, after);
    StillPending(t, before, id);
    StillPending(Marked(Found(t, before), ms, reason, r), after, id);
  }

  /**
    The least case: one PENDING match, one sweep of it between the unlock and the record, and its
    share is released twice, though every transaction is committed and the batch was distinct and
    PENDING when the path began.
   */
  lemma SweptInBetweenBreaks(w: World, m: Match, reason: string)
    requires Conserved(w) && m in w.log && w.db.IsPending(m.matchId)
    requires m.LenderKey() in w.base && 0 < w.base[m.LenderKey()]
    ensures DistinctIds([m]) && AllPending(w.db, [m])
    ensures !LocksConserved(w.(db := CleanupAmid(w.db, [m], reason, true, true, true, [Remediate(m)], [])))
  {
    assert w.db.matches[m.matchId].payload == m && 0 < m.matchedAmount;
    assert Enabled(w, Attempt(Remediate(m)));
    var jobs := [Remediate(m)];
    assert jobs[0] in jobs && m in [m];
    CleanupConservesExactly(w, [m], reason, jobs, []);
  }
}
