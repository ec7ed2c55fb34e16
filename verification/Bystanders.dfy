/**
  The failure path among everything else: new orders, balances, reservations and matches, and gated
  transactions on other matches, between its three transactions.
 */
module Bystanders {
  import opened Matches
  import opened Store
  import opened Ledger
  import opened FailurePath
  import opened Interference

  /** Whatever steps of the ledger, none of them a gated transaction on a match of the batch. */
  ghost predicate Aside(steps: seq<Step>, ms: seq<Match>) {
    forall i :: 0 <= i < |steps| ==> AsideStep(steps[i], ms)
  }

  ghost predicate AsideStep(s: Step, ms: seq<Match>) {
    s.Attempt? ==> forall m :: m in ms ==> s.job.m.matchId != m.matchId
  }

  function Whole(t: Tables, ms: seq<Match>, k: BalanceKey): nat {
    Due(t, ms, k) + Excess(t, ms, k)
  }

  function WholeOf(t: Tables, ms: seq<Match>, f: Match -> nat): nat {
    LiveDue(t, ms, f) + LiveExcess(t, ms, f)
  }

  // ----- Between the unlock and the record -----

  /** The tables as they would be without the unlock, and as they are: short of the batch's shares. */
  ghost predicate Ahead(w: World, w': World, ms: seq<Match>) {
    && w'.log == w.log && w'.base == w.base && w'.db.matches == w.db.matches && w'.db.orders == w.db.orders
    && w'.db.balances.Keys == w.db.balances.Keys
    && forall k {:trigger w'.db.balances[k]} :: k in w.db.balances ==>
          w'.db.balances[k] == w.db.balances[k] - Whole(w.db, ms, k)
  }

  /** Distinct PENDING matches of a conserving ledger. */
  ghost predicate Sound(w: World, ms: seq<Match>) {
    Conserved(w) && Known(w, ms) && DistinctIds(ms) && AllPending(w.db, ms)
  }

  /** The batch's shares, and one more PENDING match's, are all there. */
  lemma ShareCovered(w: World, ms: seq<Match>, j: Job, k: BalanceKey)
    requires Sound(w, ms) && Enabled(w, Attempt(j)) && AsideStep(Attempt(j), ms) && w.db.IsPending(j.m.matchId)
    requires k in w.db.balances
    ensures Whole(w.db, ms, k) + j.m.ShareAt(k) <= w.db.balances[k]
  {
    hide Sum, Due, Excess;
    var w1 := Next(w, Attempt(j));
    StepKeepsConserved(w, Attempt(j));
    ApplyAt(w.db, j, k, 0);
    StaySound(w, Attempt(j), ms);
    LockAt(w, k);
    LockAt(w1, k);
    ReleaseCovered(w, j.m, k);
    DueFits(w1, ms, k);
    ShareSplits(w.db, w1.db, ms, k);
    NoExcess(w1.db, ms, k);
    assert !j.m.OnBalance(k) ==> j.m.ShareAt(k) == 0;
  }

  lemma DueFits(w: World, ms: seq<Match>, k: BalanceKey)
    requires Conserved(w) && Known(w, ms)
    ensures Due(w.db, ms, k) <= Sum(w.log, PendingWeight(w.db.matches, k))
  {
    hide Sum, Due;
    KnownRows(w, ms);
    RecordingDrops(w.log, w.db, ms, "", k);
  }

  lemma StaySound(w: World, s: Step, ms: seq<Match>)
    requires Sound(w, ms) && Enabled(w, s) && AsideStep(s, ms)
    ensures Sound(Next(w, s), ms)
  {
    hide LocksConserved, FillsConserved, DistinctIds;
    StepKeepsConserved(w, s);
    if s.Attempt? {
      ApplyMeans(w.db, s.job);
    }
  }

  /** A row that does not exist yet holds nothing of the batch. */
  lemma NothingThere(w: World, ms: seq<Match>, k: BalanceKey)
    requires Registered(w) && Known(w, ms) && AllPending(w.db, ms) && k !in w.db.balances
    ensures Whole(w.db, ms, k) == 0
  {
    forall m | m in ms ensures m.ShareAt(k) == 0 {
      assert w.db.IsPending(m.matchId);
      assert m in w.log;
    }
    NoShares(w.db, ms, k);
  }

  lemma {:induction false} NoShares(t: Tables, ms: seq<Match>, k: BalanceKey)
    requires forall m :: m in ms ==> m.ShareAt(k) == 0
    ensures Whole(t, ms, k) == 0
  {
    if ms != [] {
      assert ms[|ms| - 1] in ms;
      NoShares(t, ms[..|ms| - 1], k);
    }
  }

  lemma StepKeepsAhead(w: World, w': World, s: Step, ms: seq<Match>)
    requires Sound(w, ms) && Ahead(w, w', ms) && Enabled(w', s) && AsideStep(s, ms)
    ensures Enabled(w, s) && Ahead(Next(w, s), Next(w', s), ms)
  {
    hide Sum, Due, Excess, LocksConserved, FillsConserved, Whole, Apply;
    if s.Attempt? {
      AttemptKeepsAhead(w, w', s.job, ms);
    } else {
      forall k ensures Whole(Next(w, s).db, ms, k) == Whole(w.db, ms, k) {
        SameWhole(w.db, Next(w, s).db, ms, k);
      }
      if s.OpenBalance? {
        NothingThere(w, ms, s.key);
      }
    }
  }

  lemma SameWhole(a: Tables, b: Tables, ms: seq<Match>, k: BalanceKey)
    ensures Whole(a, ms, k) == Whole(b, ms, k)
  {
    ShareSplits(a, b, ms, k);
  }

  lemma AttemptKeepsAhead(w: World, w': World, j: Job, ms: seq<Match>)
    requires Sound(w, ms) && Ahead(w, w', ms) && Enabled(w', Attempt(j)) && AsideStep(Attempt(j), ms)
    ensures Enabled(w, Attempt(j)) && Ahead(Next(w, Attempt(j)), Next(w', Attempt(j)), ms)
  {
    hide Sum, Due, Excess, Conserved, Whole, Apply, Known, AllPending;
    var t, t' := Apply(w.db, j), Apply(w'.db, j);
    ApplyMeans(w.db, j);
    ApplyMeans(w'.db, j);
    forall k | k in w.db.balances
      ensures k in t.balances && k in t'.balances && t'.balances[k] == t.balances[k] - Whole(t, ms, k)
    {
      SameWhole(w.db, t, ms, k);
      if w.db.IsPending(j.m.matchId) {
        ShareCovered(w, ms, j, k);
        assert !j.m.OnBalance(k) ==> j.m.ShareAt(k) == 0;
      }
    }
    assert t.balances.Keys == w.db.balances.Keys == t'.balances.Keys;
  }

  lemma {:induction false} RunKeepsAhead(w: World, w': World, steps: seq<Step>, z': World,
      ms: seq<Match>) returns (z: World)
    requires Sound(w, ms) && Ahead(w, w', ms) && Run(w', steps, z') && Aside(steps, ms)
    ensures Sound(z, ms) && Ahead(z, z', ms)
    decreases steps
  {
    hide Sound, Ahead, Next, Enabled, AsideStep;
    if steps == [] {
      z := w;
    } else {
      var s := steps[0];
      StepKeepsAhead(w, w', s, ms);
      StaySound(w, s, ms);
      forall i | 0 <= i < |steps[1..]| ensures AsideStep(steps[1..][i], ms) {
        assert steps[1..][i] == steps[i + 1];
      }
      z := RunKeepsAhead(Next(w, s), Next(w', s), steps[1..], z', ms);
    }
  }

  // ----- Between the record and the restore -----

  /** The tables as if the orders had been restored with the record, and as they are: over by the fills. */
  ghost predicate Behind(w: World, w': World, t: Tables, ms: seq<Match>) {
    && w'.log == w.log && w'.base == w.base && w'.db.matches == w.db.matches && w'.db.balances == w.db.balances
    && w'.db.orders.Keys == w.db.orders.Keys
    && forall o {:trigger w'.db.orders[o]} :: o in w.db.orders ==> BehindAt(w.db.orders[o], w'.db.orders[o], t, ms, o)
  }

  predicate BehindAt(row: OrderRow, row': OrderRow, t: Tables, ms: seq<Match>, o: OrderId) {
    && row'.filledQuantity == row.filledQuantity + WholeOf(t, ms, Fills(o))
    && row'.filledSettlementFee == row.filledSettlementFee + WholeOf(t, ms, Fees(o))
  }

  /** No order outside this set is filled by the batch. */
  ghost predicate FillsWithin(ms: seq<Match>, os: set<OrderId>) {
    forall m :: m in ms ==> m.lendOrderId in os && m.borrowOrderId in os
  }

  lemma {:induction false} NoFills(t: Tables, ms: seq<Match>, o: OrderId)
    requires forall m :: m in ms ==> !m.OnOrder(o)
    ensures WholeOf(t, ms, Fills(o)) == 0 && WholeOf(t, ms, Fees(o)) == 0
  {
    if ms != [] {
      assert ms[|ms| - 1] in ms;
      OneMoreOf(t, ms, Fills(o));
      OneMoreOf(t, ms, Fees(o));
      NoFills(t, ms[..|ms| - 1], o);
    }
  }

  lemma StepKeepsBehind(w: World, w': World, s: Step, t: Tables, ms: seq<Match>)
    requires Conserved(w) && Behind(w, w', t, ms) && Enabled(w', s) && FillsWithin(ms, w.db.orders.Keys)
    ensures Enabled(w, s) && Behind(Next(w, s), Next(w', s), t, ms)
    ensures w.db.orders.Keys <= Next(w, s).db.orders.Keys
  {
    hide Sum, Conserved, Fills, Fees, WholeOf, Apply;
    if s.Attempt? {
      AttemptKeepsBehind(w, w', s.job, t, ms);
    } else if s.OpenOrder? {
      NoFills(t, ms, s.orderId);
    }
  }

  lemma AttemptKeepsBehind(w: World, w': World, j: Job, t: Tables, ms: seq<Match>)
    requires Conserved(w) && Behind(w, w', t, ms) && Enabled(w', Attempt(j))
    ensures Enabled(w, Attempt(j)) && Behind(Next(w, Attempt(j)), Next(w', Attempt(j)), t, ms)
    ensures Next(w, Attempt(j)).db.orders.Keys == w.db.orders.Keys
  {
    hide Sum, Conserved, Fills, Fees, WholeOf, Apply;
    var a, b := Apply(w.db, j), Apply(w'.db, j);
    ApplyMeans(w.db, j);
    ApplyMeans(w'.db, j);
    forall o | o in w.db.orders
      ensures o in a.orders && o in b.orders && BehindAt(a.orders[o], b.orders[o], t, ms, o)
    {
      if w.db.IsPending(j.m.matchId) {
        RestoreCovered(w, j.m, o);
        assert !j.m.OnOrder(o) ==> j.m.FillAt(o) == 0 && j.m.FeeAt(o) == 0;
      }
    }
    assert a.orders.Keys == w.db.orders.Keys == b.orders.Keys;
  }

  lemma {:induction false} RunKeepsBehind(w: World, w': World, steps: seq<Step>, z': World, t: Tables, ms: seq<Match>)
    returns (z: World)
    requires Conserved(w) && Behind(w, w', t, ms) && Run(w', steps, z') && FillsWithin(ms, w.db.orders.Keys)
    ensures Conserved(z) && Behind(z, z', t, ms)
    decreases steps
  {
    hide Conserved, Behind, Next, Enabled;
    if steps == [] {
      z := w;
    } else {
      StepKeepsBehind(w, w', steps[0], t, ms);
      StepKeepsConserved(w, steps[0]);
      z := RunKeepsBehind(Next(w, steps[0]), Next(w', steps[0]), steps[1..], z', t, ms);
    }
  }

  // ----- The three transactions -----

  lemma UnlockedIsAhead(w: World, ms: seq<Match>)
    requires Sound(w, ms)
    ensures Ahead(w, w.(db := ExecuteAll(w.db, UnlockStatements(ms))), ms)
  {
    hide Sum, Due, Excess, ExecuteAll, FillsConserved;
    UnlockMeans(w.db, ms);
    ClampedOnce(w.db, UnlockStatements(ms), (0, 0));
    var w' := w.(db := ExecuteAll(w.db, UnlockStatements(ms)));
    forall k | k in w.db.balances ensures w'.db.balances[k] == w.db.balances[k] - Whole(w.db, ms, k) {
      UnlockedAt(w, ms, k);
    }
  }

  lemma UnlockedAt(w: World, ms: seq<Match>, k: BalanceKey)
    requires Sound(w, ms) && k in w.db.balances
    ensures k in UnlockedBalances(w.db.balances, ms)
    ensures UnlockedBalances(w.db.balances, ms)[k] == w.db.balances[k] - Whole(w.db, ms, k)
  {
    hide Sum, Due, Excess;
    LockAt(w, k);
    DueFits(w, ms, k);
    NoExcess(w.db, ms, k);
    UnlockingDrops(w.db, ms, k);
  }

  /** Once recorded, the tables are those of the gated path but for the orders still to be restored. */
  lemma RecordedIsBehind(w: World, w': World, ms: seq<Match>, reason: string)
    requires Sound(w, ms) && Ahead(w, w', ms)
    ensures var q := w.(db := QuarantineAll(w.db, ms, reason));
            && Conserved(q) && FillsWithin(ms, q.db.orders.Keys)
            && Behind(q, w'.(db := ExecuteAll(w'.db, RecordStatements(ms, reason))), w.db, ms)
  {
    hide Sum, Due, Excess, Whole, WholeOf, ExecuteAll, Conserved, Fills, Fees, UnlockedBalances, AllRestoredOrders;
    var q := w.(db := QuarantineAll(w.db, ms, reason));
    QuarantineAllConserves(w, ms, reason);
    QuarantineAllMeans(w.db, ms, reason);
    RecordMeans(w'.db, ms, reason);
    SameKeys(w.db, ms);
    forall k | k in w.db.balances ensures k in q.db.balances && q.db.balances[k] == w'.db.balances[k] {
      UnlockedAt(w, ms, k);
    }
    assert q.db.balances == w'.db.balances;
    forall o | o in w.db.orders ensures o in q.db.orders && BehindAt(q.db.orders[o], w.db.orders[o], w.db, ms, o) {
      RestoredAt(w, ms, o);
    }
    OrdersThere(w, ms);
  }

  lemma SameKeys(t: Tables, ms: seq<Match>)
    ensures UnlockedBalances(t.balances, ms).Keys == t.balances.Keys
    ensures AllRestoredOrders(t.orders, ms).Keys == t.orders.Keys
  {
    ClampedOnce(t, UnlockStatements(ms), (0, 0));
    UnlockMeans(t, ms);
    RestoredOnce(t, RestoreStatements(ms), 0);
    RestoreMeans(t, ms);
  }

  lemma OrdersThere(w: World, ms: seq<Match>)
    requires Sound(w, ms)
    ensures FillsWithin(ms, w.db.orders.Keys)
  {
    forall m | m in ms ensures m.lendOrderId in w.db.orders && m.borrowOrderId in w.db.orders {
      assert w.db.IsPending(m.matchId);
      assert m in w.log;
    }
  }

  lemma FillsFit(w: World, ms: seq<Match>, o: OrderId)
    requires Sound(w, ms) && o in w.db.orders
    ensures LiveExcess(w.db, ms, Fills(o)) == 0 && LiveDue(w.db, ms, Fills(o)) <= w.db.orders[o].filledQuantity
    ensures LiveExcess(w.db, ms, Fees(o)) == 0 && LiveDue(w.db, ms, Fees(o)) <= w.db.orders[o].filledSettlementFee
  {
    hide Sum, LiveDue, LiveExcess, Fills, Fees, RecordedMatches, LocksConserved;
    FillsAt(w, o);
    KnownRows(w, ms);
    NoLiveExcess(w.db, ms, Fills(o));
    NoLiveExcess(w.db, ms, Fees(o));
    hide Conserved, DistinctIds, AllPending, Known;
    RecordingDropsFills(w.log, w.db, ms, "", o);
  }

  lemma RestoredAt(w: World, ms: seq<Match>, o: OrderId)
    requires Sound(w, ms) && o in w.db.orders
    ensures o in AllRestoredOrders(w.db.orders, ms)
    ensures BehindAt(AllRestoredOrders(w.db.orders, ms)[o], w.db.orders[o], w.db, ms, o)
  {
    hide Sound, LiveDue, LiveExcess, Fills, Fees, AllRestoredOrders;
    FillsFit(w, ms, o);
    RestoringDrops(w.db, ms, o);
  }

  /** Restoring what is behind makes the fills exact. */
  lemma RestoringCatchesUp(z: World, z': World, t: Tables, ms: seq<Match>)
    requires Conserved(z) && Behind(z, z', t, ms)
    ensures Conserved(z'.(db := ExecuteAll(z'.db, RestoreStatements(ms))))
  {
    hide ExecuteAll, Sum, WholeOf, AllRestoredOrders, LocksConserved;
    RestoreMeans(z'.db, ms);
    SameKeys(z'.db, ms);
    var done := AllRestoredOrders(z'.db.orders, ms);
    forall o | o in z.db.orders
      ensures o in done && done[o].filledQuantity == z.db.orders[o].filledQuantity
      ensures done[o].filledSettlementFee == z.db.orders[o].filledSettlementFee
    {
      FillsAt(z, o);
      CaughtUpAt(z.db.orders[o], z'.db, t, ms, o);
    }
    var end := z'.(db := z'.db.(orders := done));
    SameTotals(z, end);
  }

  lemma CaughtUpAt(row: OrderRow, t': Tables, t: Tables, ms: seq<Match>, o: OrderId)
    requires o in t'.orders && BehindAt(row, t'.orders[o], t, ms, o)
    requires 0 <= row.filledQuantity && 0 <= row.filledSettlementFee
    ensures var done := AllRestoredOrders(t'.orders, ms);
            && o in done
            && done[o].filledQuantity == row.filledQuantity && done[o].filledSettlementFee == row.filledSettlementFee
  {
    hide LiveDue, LiveExcess, Fills, Fees, AllRestoredOrders;
    FillSplits(t', t, ms, Fills(o));
    FillSplits(t', t, ms, Fees(o));
    RestoringDrops(t', ms, o);
  }

  /** Tables with the same columns conserve alike. */
  lemma SameTotals(z: World, end: World)
    requires Conserved(z) && end.log == z.log && end.base == z.base
    requires end.db.matches == z.db.matches && end.db.balances == z.db.balances
    requires end.db.orders.Keys == z.db.orders.Keys
    requires forall o :: o in z.db.orders ==>
               && end.db.orders[o].filledQuantity == z.db.orders[o].filledQuantity
               && end.db.orders[o].filledSettlementFee == z.db.orders[o].filledSettlementFee
    ensures Conserved(end)
  {
    hide Sum;
  }

  /**
    A batch of distinct PENDING matches, sharing wallets and orders in any way: all three transactions
    commit, and between them the db-writer and any number of workers do anything at all, except that
    before the record no gated transaction is on a match of the batch. Everything is conserved.
   */
  lemma CleanupAmidAnything(w: World, ms: seq<Match>, reason: string, before: seq<Step>, w1: World, after: seq<Step>,
      w2: World)
    requires Sound(w, ms) && Aside(before, ms)
    requires Run(w.(db := ExecuteAll(w.db, UnlockStatements(ms))), before, w1)
    requires Run(w1.(db := ExecuteAll(w1.db, RecordStatements(ms, reason))), after, w2)
    ensures Conserved(w2.(db := ExecuteAll(w2.db, RestoreStatements(ms))))
  {
    hide Sound, Ahead, Behind, Conserved, ExecuteAll, Run, Aside;
    UnlockedIsAhead(w, ms);
    var z1 := RunKeepsAhead(w, w.(db := ExecuteAll(w.db, UnlockStatements(ms))), before, w1, ms);
    RecordedIsBehind(z1, w1, ms, reason);
    var q := z1.(db := QuarantineAll(z1.db, ms, reason));
    var z2 := RunKeepsBehind(q, w1.(db := ExecuteAll(w1.db, RecordStatements(ms, reason))), after, w2, z1.db, ms);
    RestoringCatchesUp(z2, w2, z1.db, ms);
  }
}
