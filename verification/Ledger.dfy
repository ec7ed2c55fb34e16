/**
  The life of the three tables as a state machine: the db-writer creates matches, orders and
  reservations, and any number of workers attempt gated transactions on any matches in any order,
  again and again. Every reachable state conserves locks and fills.
 */
module Ledger {
  import opened Matches
  import opened Store

  /** `log` lists the matches created so far; `base` is what other open orders reserve. */
  datatype World = World(log: seq<Match>, base: map<BalanceKey, nat>, db: Tables)

  datatype Step =
    | OpenOrder(orderId: OrderId)
    | OpenBalance(key: BalanceKey)
    | Reserve(reserved: BalanceKey, amount: nat)
    | Unreserve(unreserved: BalanceKey, amount: nat)
    | Create(m: Match, lendStatus: OrderStatus, borrowStatus: OrderStatus)
    | Attempt(job: Job)

  // ----- What each row should hold -----

  function PendingWeight(rows: map<MatchId, MatchRow>, k: BalanceKey): Match -> nat {
    (m: Match) => if m.matchId in rows && rows[m.matchId].status.Pending? then m.ShareAt(k) else 0
  }

  predicate Live(rows: map<MatchId, MatchRow>, m: Match) {
    m.matchId in rows && !rows[m.matchId].status.Failed?
  }

  function FillWeight(rows: map<MatchId, MatchRow>, o: OrderId): Match -> nat {
    (m: Match) => if Live(rows, m) then m.FillAt(o) else 0
  }

  function FeeWeight(rows: map<MatchId, MatchRow>, o: OrderId): Match -> nat {
    (m: Match) => if Live(rows, m) then m.FeeAt(o) else 0
  }

  /** The match rows are exactly the created matches, and the rows they reserve and fill exist. */
  ghost predicate Registered(w: World) {
    && DistinctIds(w.log)
    && (forall id :: id in w.db.matches ==> w.db.matches[id].payload in w.log && w.db.matches[id].payload.matchId == id)
    && (forall m {:trigger m in w.log} :: m in w.log ==>
          m.matchId in w.db.matches && w.db.matches[m.matchId].payload == m)
    && (forall m {:trigger m in w.log} :: m in w.log ==>
          && 0 < m.matchedAmount
          && m.lendOrderId in w.db.orders && m.borrowOrderId in w.db.orders
          && m.LenderKey() in w.db.balances && m.BorrowerKey() in w.db.balances)
    && w.base.Keys == w.db.balances.Keys
  }

  /** in_orders is the unrelated reservation plus both side shares of every PENDING match. */
  ghost predicate LocksConserved(w: World) {
    forall k {:trigger w.db.balances[k]} :: k in w.db.balances && k in w.base ==>
      w.db.balances[k] == w.base[k] + Sum(w.log, PendingWeight(w.db.matches, k))
  }

  /** The filled columns are the totals over the matches that have not FAILED. */
  ghost predicate FillsConserved(w: World) {
    forall o {:trigger w.db.orders[o]} :: o in w.db.orders ==>
      && w.db.orders[o].filledQuantity == Sum(w.log, FillWeight(w.db.matches, o))
      && w.db.orders[o].filledSettlementFee == Sum(w.log, FeeWeight(w.db.matches, o))
  }

  ghost predicate Conserved(w: World) {
    Registered(w) && LocksConserved(w) && FillsConserved(w)
  }

  // ----- Steps -----

  const EMPTY := World([], map[], Tables(map[], map[], map[]))

  predicate Enabled(w: World, s: Step) {
    match s
    case OpenOrder(o) => o !in w.db.orders
    case OpenBalance(k) => k !in w.db.balances && k !in w.base
    case Reserve(k, _) => k in w.db.balances && k in w.base
    case Unreserve(k, amount) => k in w.db.balances && k in w.base && amount <= w.base[k]
    case Create(m, _, _) =>
      && m.matchId !in w.db.matches && 0 < m.matchedAmount
      && m.lendOrderId in w.db.orders && m.borrowOrderId in w.db.orders
      && m.LenderKey() in w.db.balances && m.BorrowerKey() in w.db.balances
    // The stream payload, or the sweeper's row, agrees with the match row.
    case Attempt(j) => j.m.matchId in w.db.matches ==> w.db.matches[j.m.matchId].payload == j.m
  }

  /** The db-writer's match-time increments: exactly the shares and fills of the match. */
  function Created(t: Tables, m: Match, lendStatus: OrderStatus, borrowStatus: OrderStatus): Tables {
    Tables(
      t.matches[m.matchId := MatchRow(m, Pending)],
      map o | o in t.orders ::
        if m.OnOrder(o)
        then OrderRow(t.orders[o].filledQuantity + m.FillAt(o), t.orders[o].filledSettlementFee + m.FeeAt(o),
                      if o == m.lendOrderId then lendStatus else borrowStatus, t.orders[o].cancelReason)
        else t.orders[o],
      map k | k in t.balances :: t.balances[k] + m.ShareAt(k))
  }

  function Next(w: World, s: Step): World
    requires Enabled(w, s)
  {
    match s
    case OpenOrder(o) => w.(db := w.db.(orders := w.db.orders[o := OrderRow(0, 0, Open, "")]))
    case OpenBalance(k) => w.(base := w.base[k := 0], db := w.db.(balances := w.db.balances[k := 0]))
    case Reserve(k, amount) =>
      w.(base := w.base[k := w.base[k] + amount],
         db := w.db.(balances := w.db.balances[k := w.db.balances[k] + amount]))
    case Unreserve(k, amount) =>
      w.(base := w.base[k := w.base[k] - amount],
         db := w.db.(balances := w.db.balances[k := w.db.balances[k] - amount]))
    case Create(m, ls, bs) => w.(log := w.log + [m], db := Created(w.db, m, ls, bs))
    case Attempt(j) => w.(db := Apply(w.db, j))
  }

  ghost predicate Run(w: World, steps: seq<Step>, w': World)
    decreases steps
  {
    if steps == [] then w' == w else Enabled(w, steps[0]) && Run(Next(w, steps[0]), steps[1..], w')
  }

  // ----- One attempt -----

  /** Where the match of a pending row sits in the log. */
  lemma LogIndex(w: World, m: Match) returns (i: nat)
    requires Registered(w) && m.matchId in w.db.matches && w.db.matches[m.matchId].payload == m
    ensures i < |w.log| && w.log[i] == m
  {
    i :| i < |w.log| && w.log[i] == m;
  }

  /** A PENDING match's share is there to be released, so the GREATEST clamp never bites. */
  lemma ReleaseCovered(w: World, m: Match, k: BalanceKey)
    requires Conserved(w) && w.db.IsPending(m.matchId) && w.db.matches[m.matchId].payload == m
    requires k in w.db.balances
    ensures w.base[k] + m.ShareAt(k) <= w.db.balances[k]
  {
    var i := LogIndex(w, m);
    SumCovers(w.log, i, PendingWeight(w.db.matches, k));
  }

  /** Likewise a match that has not FAILED is still counted in both orders it fills. */
  lemma RestoreCovered(w: World, m: Match, o: OrderId)
    requires Conserved(w) && Live(w.db.matches, m) && w.db.matches[m.matchId].payload == m
    requires o in w.db.orders
    ensures m.FillAt(o) <= w.db.orders[o].filledQuantity
    ensures m.FeeAt(o) <= w.db.orders[o].filledSettlementFee
  {
    var i := LogIndex(w, m);
    SumCovers(w.log, i, FillWeight(w.db.matches, o));
    SumCovers(w.log, i, FeeWeight(w.db.matches, o));
  }

  /** Leaving PENDING takes exactly the match's own share out of the pending total. */
  lemma PendingDrops(log: seq<Match>, i: nat, rows: map<MatchId, MatchRow>, row: MatchRow, k: BalanceKey)
    requires DistinctIds(log) && i < |log| && log[i].matchId in rows
    requires rows[log[i].matchId].status.Pending? && !row.status.Pending?
    ensures Sum(log, PendingWeight(rows[log[i].matchId := row], k)) + log[i].ShareAt(k) ==
              Sum(log, PendingWeight(rows, k))
  {
    SumChange(log, i, PendingWeight(rows, k), PendingWeight(rows[log[i].matchId := row], k));
  }

  /** FAILED takes exactly the match's own fill out of an order's total; SETTLED leaves the total alone. */
  lemma FillDrops(log: seq<Match>, i: nat, rows: map<MatchId, MatchRow>, row: MatchRow, o: OrderId)
    requires DistinctIds(log) && i < |log| && Live(rows, log[i])
    ensures var rows' := rows[log[i].matchId := row];
            var gone := if row.status.Failed? then 1 else 0;
            && Sum(log, FillWeight(rows', o)) + gone * log[i].FillAt(o) == Sum(log, FillWeight(rows, o))
            && Sum(log, FeeWeight(rows', o)) + gone * log[i].FeeAt(o) == Sum(log, FeeWeight(rows, o))
  {
    var rows' := rows[log[i].matchId := row];
    SumChange(log, i, FillWeight(rows, o), FillWeight(rows', o));
    SumChange(log, i, FeeWeight(rows, o), FeeWeight(rows', o));
  }

  lemma AttemptKeepsLockAt(log: seq<Match>, base: nat, t: Tables, i: nat, j: Job, k: BalanceKey)
    requires DistinctIds(log) && i < |log| && log[i] == j.m && t.IsPending(j.m.matchId)
    requires k in t.balances && t.balances[k] == base + Sum(log, PendingWeight(t.matches, k))
    ensures k in Apply(t, j).balances
    ensures Apply(t, j).balances[k] == base + Sum(log, PendingWeight(Apply(t, j).matches, k))
  {
    ApplyAt(t, j, k, 0);
    PendingDrops(log, i, t.matches, MatchRow(t.matches[j.m.matchId].payload, j.Target()), k);
  }

  lemma AttemptKeepsLocks(w: World, j: Job)
    requires Conserved(w) && Enabled(w, Attempt(j)) && w.db.IsPending(j.m.matchId)
    ensures LocksConserved(Next(w, Attempt(j)))
  {
    ApplyMeans(w.db, j);
    var i := LogIndex(w, j.m);
    forall k | k in w.db.balances
      ensures k in Apply(w.db, j).balances
      ensures Apply(w.db, j).balances[k] == w.base[k] + Sum(w.log, PendingWeight(Apply(w.db, j).matches, k))
    {
      AttemptKeepsLockAt(w.log, w.base[k], w.db, i, j, k);
    }
  }

  lemma AttemptKeepsFillAt(w: World, j: Job, o: OrderId)
    requires Conserved(w) && Enabled(w, Attempt(j)) && w.db.IsPending(j.m.matchId)
    requires o in w.db.orders
    ensures var after := Apply(w.db, j);
            && o in after.orders
            && after.orders[o].filledQuantity == Sum(w.log, FillWeight(after.matches, o))
            && after.orders[o].filledSettlementFee == Sum(w.log, FeeWeight(after.matches, o))
  {
    hide Sum, Apply;
    ApplyMeans(w.db, j);
    var i := LogIndex(w, j.m);
    FillDrops(w.log, i, w.db.matches, MatchRow(j.m, j.Target()), o);
    assert !j.m.OnOrder(o) ==> j.m.FillAt(o) == 0 && j.m.FeeAt(o) == 0;
  }

  lemma AttemptKeepsFills(w: World, j: Job)
    requires Conserved(w) && Enabled(w, Attempt(j)) && w.db.IsPending(j.m.matchId)
    ensures FillsConserved(Next(w, Attempt(j)))
  {
    ApplyMeans(w.db, j);
    forall o | o in w.db.orders
      ensures var after := Apply(w.db, j);
              && o in after.orders
              && after.orders[o].filledQuantity == Sum(w.log, FillWeight(after.matches, o))
              && after.orders[o].filledSettlementFee == Sum(w.log, FeeWeight(after.matches, o))
    {
      AttemptKeepsFillAt(w, j, o);
    }
  }

  lemma AttemptKeepsRegistered(w: World, j: Job)
    requires Registered(w) && Enabled(w, Attempt(j))
    ensures Registered(Next(w, Attempt(j)))
  {
    ApplyMeans(w.db, j);
  }

  // ----- One creation -----

  lemma CreateKeepsRegistered(w: World, s: Step)
    requires Registered(w) && s.Create? && Enabled(w, s)
    ensures Registered(Next(w, s))
  {
    var w' := Next(w, s);
    assert forall m :: m in w.log ==> m.matchId != s.m.matchId;
    assert w'.log[|w.log|] == s.m;
    assert forall m :: m in w'.log <==> m in w.log || m == s.m;
  }

  /** A new PENDING row adds exactly the new match to every total. */
  lemma TotalsGrow(log: seq<Match>, rows: map<MatchId, MatchRow>, m: Match, k: BalanceKey, o: OrderId)
    requires forall x :: x in log ==> x.matchId != m.matchId
    ensures var rows' := rows[m.matchId := MatchRow(m, Pending)];
            && Sum(log + [m], PendingWeight(rows', k)) == Sum(log, PendingWeight(rows, k)) + m.ShareAt(k)
            && Sum(log + [m], FillWeight(rows', o)) == Sum(log, FillWeight(rows, o)) + m.FillAt(o)
            && Sum(log + [m], FeeWeight(rows', o)) == Sum(log, FeeWeight(rows, o)) + m.FeeAt(o)
  {
    var rows' := rows[m.matchId := MatchRow(m, Pending)];
    SumAppend(log, m, PendingWeight(rows', k));
    SumSame(log, PendingWeight(rows, k), PendingWeight(rows', k));
    SumAppend(log, m, FillWeight(rows', o));
    SumSame(log, FillWeight(rows, o), FillWeight(rows', o));
    SumAppend(log, m, FeeWeight(rows', o));
    SumSame(log, FeeWeight(rows, o), FeeWeight(rows', o));
  }

  lemma CreateKeepsTotals(w: World, s: Step)
    requires Conserved(w) && s.Create? && Enabled(w, s)
    ensures LocksConserved(Next(w, s)) && FillsConserved(Next(w, s))
  {
    hide Sum;
    var w' := Next(w, s);
    var rows' := w.db.matches[s.m.matchId := MatchRow(s.m, Pending)];
    forall m | m in w.log ensures m.matchId != s.m.matchId {
      assert m.matchId in w.db.matches;
    }
    forall k | k in w.db.balances
      ensures w'.db.balances[k] == w.base[k] + Sum(w.log + [s.m], PendingWeight(rows', k))
    {
      TotalsGrow(w.log, w.db.matches, s.m, k, 0);
    }
    forall o | o in w.db.orders
      ensures w'.db.orders[o].filledQuantity == Sum(w.log + [s.m], FillWeight(rows', o))
      ensures w'.db.orders[o].filledSettlementFee == Sum(w.log + [s.m], FeeWeight(rows', o))
    {
      TotalsGrow(w.log, w.db.matches, s.m, (0, 0), o);
      assert !s.m.OnOrder(o) ==> s.m.FillAt(o) == 0 && s.m.FeeAt(o) == 0;
    }
  }

  /** No match yet fills an order, or reserves on a balance, whose row does not exist. */
  lemma AbsentRowsAreEmpty(w: World, o: OrderId, k: BalanceKey)
    requires Registered(w)
    ensures o !in w.db.orders ==>
              Sum(w.log, FillWeight(w.db.matches, o)) == 0 && Sum(w.log, FeeWeight(w.db.matches, o)) == 0
    ensures k !in w.db.balances ==> Sum(w.log, PendingWeight(w.db.matches, k)) == 0
  {
    SumZero(w.log, FillWeight(w.db.matches, o));
    SumZero(w.log, FeeWeight(w.db.matches, o));
    SumZero(w.log, PendingWeight(w.db.matches, k));
  }

  // ----- Every step, every run -----

  lemma StepKeepsConserved(w: World, s: Step)
    requires Conserved(w) && Enabled(w, s)
    ensures Conserved(Next(w, s))
  {
    match s
    case OpenOrder(o) => AbsentRowsAreEmpty(w, o, (0, 0));
    case OpenBalance(k) => AbsentRowsAreEmpty(w, 0, k);
    case Reserve(_, _) =>
    case Unreserve(_, _) =>
    case Create(_, _, _) =>
      CreateKeepsRegistered(w, s);
      CreateKeepsTotals(w, s);
    case Attempt(j) =>
      AttemptKeepsRegistered(w, j);
      ApplyMeans(w.db, j);
      if w.db.IsPending(j.m.matchId) {
        AttemptKeepsLocks(w, j);
        AttemptKeepsFills(w, j);
      }
  }

  /** All a PENDING match holds is there: its rows exist and none is below its part. */
  lemma PendingCovered(w: World, m: Match)
    requires Conserved(w) && w.db.IsPending(m.matchId) && w.db.matches[m.matchId].payload == m
    ensures m.LenderKey() in w.db.balances && m.ShareAt(m.LenderKey()) <= w.db.balances[m.LenderKey()]
    ensures m.BorrowerKey() in w.db.balances && m.ShareAt(m.BorrowerKey()) <= w.db.balances[m.BorrowerKey()]
    ensures forall o :: m.OnOrder(o) ==>
              && o in w.db.orders
              && m.FillAt(o) <= w.db.orders[o].filledQuantity && m.FeeAt(o) <= w.db.orders[o].filledSettlementFee
  {
    hide LocksConserved, FillsConserved;
    assert m in w.log;
    ReleaseCovered(w, m, m.LenderKey());
    ReleaseCovered(w, m, m.BorrowerKey());
    RestoreCovered(w, m, m.lendOrderId);
    RestoreCovered(w, m, m.borrowOrderId);
  }

  /** How far one order's columns fell. */
  function Fell(t: Tables, t': Tables, o: OrderId): (int, int)
    requires o in t.orders && o in t'.orders
  {
    (t.orders[o].filledQuantity - t'.orders[o].filledQuantity,
     t.orders[o].filledSettlementFee - t'.orders[o].filledSettlementFee)
  }

  /**
    What a failure gives back, in the columns themselves and with no clamp: the lender's in_orders
    falls by what the lend order's filled quantity and settlement fee fall by and the lender's trade
    fee, the borrower's by what the borrow order's settlement fee falls by and the borrower's trade
    fee, where the maker fee is the lender's exactly when the borrower is the taker.
   */
  lemma FailureGivesBack(w: World, j: Job)
    requires Conserved(w) && Enabled(w, Attempt(j)) && w.db.IsPending(j.m.matchId) && !j.Writeback?
    requires j.m.lendOrderId != j.m.borrowOrderId && j.m.lenderWallet != j.m.borrowerWallet
    ensures var m, t, t' := j.m, w.db, Apply(w.db, j);
            var lender, borrower := (m.lenderWallet, m.loanToken), (m.borrowerWallet, m.loanToken);
            && lender in t.balances && borrower in t.balances && t'.balances.Keys == t.balances.Keys
            && m.lendOrderId in t.orders && m.borrowOrderId in t.orders && t'.orders.Keys == t.orders.Keys
            && var lend, borrow := Fell(t, t', m.lendOrderId), Fell(t, t', m.borrowOrderId);
               && lend.0 == borrow.0 == m.matchedAmount
               && t.balances[lender] - t'.balances[lender] ==
                    lend.0 + lend.1 + (if m.borrowerIsTaker then m.makerFeeAmount else m.takerFeeAmount)
               && t.balances[borrower] - t'.balances[borrower] ==
                    borrow.1 + (if m.borrowerIsTaker then m.takerFeeAmount else m.makerFeeAmount)
  {
    hide Conserved, Apply;
    PendingCovered(w, j.m);
    ReleasesInFields(w.db, j);
    RestoresInFields(w.db, j);
  }

  /** Conservation holds in every state of every run from the empty tables. */
  lemma {:induction false} RunKeepsConserved(w: World, steps: seq<Step>, w': World)
    requires Conserved(w) && Run(w, steps, w')
    ensures Conserved(w')
    decreases steps
  {
    if steps != [] {
      StepKeepsConserved(w, steps[0]);
      RunKeepsConserved(Next(w, steps[0]), steps[1..], w');
    }
  }

  lemma ReachableConserved(steps: seq<Step>, w: World)
    requires Run(EMPTY, steps, w)
    ensures Conserved(w)
  {
    RunKeepsConserved(EMPTY, steps, w);
  }

  /**
    After a failure step has actioned a match, each of its orders is CANCELLED with
    SETTLEMENT_FAILED exactly when no match that has not FAILED remains on it, and is
    PARTIALLY_FILLED otherwise.
   */
  lemma FailureCancelsExactly(w: World, j: Job, o: OrderId)
    requires Conserved(w) && Enabled(w, Attempt(j)) && !j.Writeback?
    requires w.db.IsPending(j.m.matchId) && j.m.OnOrder(o)
    ensures var after := Next(w, Attempt(j)).db;
            && o in after.orders
            && ((forall m :: m in w.log && m.OnOrder(o) ==> !Live(after.matches, m)) <==>
                (after.orders[o].status == Cancelled && after.orders[o].cancelReason == SETTLEMENT_FAILED))
            && (after.orders[o].status == Cancelled || after.orders[o].status == PartiallyFilled)
  {
    var after := Apply(w.db, j);
    assert j.m in w.log && o in w.db.orders;
    RestoreCovered(w, j.m, o);
    AttemptKeepsFillAt(w, j, o);
    ApplyAt(w.db, j, (0, 0), o);
    assert forall m :: m in w.log ==> 0 < m.matchedAmount;
    FillZero(w.log, after.matches, o);
  }

  /** An order's total is zero exactly when no match that has not FAILED is on it. */
  lemma FillZero(log: seq<Match>, rows: map<MatchId, MatchRow>, o: OrderId)
    requires forall m :: m in log ==> 0 < m.matchedAmount
    ensures Sum(log, FillWeight(rows, o)) == 0 <==> forall m :: m in log && m.OnOrder(o) ==> !Live(rows, m)
  {
    SumZero(log, FillWeight(rows, o));
    assert forall m :: m in log && m.OnOrder(o) ==> 0 < m.FillAt(o);
    assert forall m: Match :: !m.OnOrder(o) ==> m.FillAt(o) == 0;
  }

  // ----- Whole traces of attempts -----

  function ApplyAll(t: Tables, jobs: seq<Job>): Tables
    decreases jobs
  {
    if jobs == [] then t else ApplyAll(Apply(t, jobs[0]), jobs[1..])
  }

  /** How many attempts of the trace released the locks of one match. */
  function Releasing(t: Tables, jobs: seq<Job>, id: MatchId): nat
    decreases jobs
  {
    if jobs == [] then 0
    else
      (if jobs[0].m.matchId == id && Selects(t, jobs[0].Gate()) then 1 else 0) +
      Releasing(Apply(t, jobs[0]), jobs[1..], id)
  }

  /** Whatever is attempted, retried or duplicated, a match is released once if it left PENDING and never otherwise. */
  lemma {:induction false} ReleasedExactlyOnce(t: Tables, jobs: seq<Job>, id: MatchId)
    ensures Releasing(t, jobs, id) == if t.IsPending(id) && !ApplyAll(t, jobs).IsPending(id) then 1 else 0
    ensures !t.IsPending(id) ==> !ApplyAll(t, jobs).IsPending(id)
    decreases jobs
  {
    if jobs != [] {
      ApplyMeans(t, jobs[0]);
      ReleasedExactlyOnce(Apply(t, jobs[0]), jobs[1..], id);
    }
  }

  ghost predicate Payloads(w: World, jobs: seq<Job>) {
    forall j :: j in jobs ==> Enabled(w, Attempt(j))
  }

  lemma {:induction false} AttemptsKeepConserved(w: World, jobs: seq<Job>)
    requires Conserved(w) && Payloads(w, jobs)
    ensures Conserved(w.(db := ApplyAll(w.db, jobs)))
    decreases jobs
  {
    if jobs != [] {
      var w' := Next(w, Attempt(jobs[0]));
      assert jobs[0] in jobs;
      StepKeepsConserved(w, Attempt(jobs[0]));
      ApplyMeans(w.db, jobs[0]);
      forall j | j in jobs[1..] ensures Enabled(w', Attempt(j)) {
        assert j in jobs && Enabled(w, Attempt(j));
      }
      AttemptsKeepConserved(w', jobs[1..]);
    }
  }

  /**
    Two traces of writebacks, quarantines and sweeps that leave the same matches PENDING leave the
    same reservations, whichever transaction won each match and in whatever order.
   */
  lemma OutcomeIndependent(w: World, a: seq<Job>, b: seq<Job>)
    requires Conserved(w) && Payloads(w, a) && Payloads(w, b)
    requires forall id :: ApplyAll(w.db, a).IsPending(id) <==> ApplyAll(w.db, b).IsPending(id)
    ensures ApplyAll(w.db, a).balances == ApplyAll(w.db, b).balances
  {
    var ta, tb := ApplyAll(w.db, a), ApplyAll(w.db, b);
    AttemptsKeepConserved(w, a);
    AttemptsKeepConserved(w, b);
    forall k | k in w.base ensures k in ta.balances && k in tb.balances && ta.balances[k] == tb.balances[k] {
      assert ta.balances[k] == w.base[k] + Sum(w.log, PendingWeight(ta.matches, k));
      assert tb.balances[k] == w.base[k] + Sum(w.log, PendingWeight(tb.matches, k));
      SamePending(w.log, ta, tb, k);
    }
    assert ta.balances.Keys == w.base.Keys == tb.balances.Keys;
  }

  lemma SamePending(log: seq<Match>, a: Tables, b: Tables, k: BalanceKey)
    requires forall id :: a.IsPending(id) <==> b.IsPending(id)
    ensures Sum(log, PendingWeight(a.matches, k)) == Sum(log, PendingWeight(b.matches, k))
  {
    forall m | m in log ensures PendingWeight(a.matches, k)(m) == PendingWeight(b.matches, k)(m) {
      assert a.IsPending(m.matchId) <==> b.IsPending(m.matchId);
    }
    SumSame(log, PendingWeight(a.matches, k), PendingWeight(b.matches, k));
  }

  /**
    Likewise the fills depend only on which matches FAILED, not on which failure transaction
    got to them.
   */
  lemma FillsDependOnFailures(w: World, a: seq<Job>, b: seq<Job>, o: OrderId)
    requires Conserved(w) && Payloads(w, a) && Payloads(w, b) && o in w.db.orders
    requires forall m :: m in w.log ==> (Live(ApplyAll(w.db, a).matches, m) <==> Live(ApplyAll(w.db, b).matches, m))
    ensures o in ApplyAll(w.db, a).orders && o in ApplyAll(w.db, b).orders
    ensures ApplyAll(w.db, a).orders[o].filledQuantity == ApplyAll(w.db, b).orders[o].filledQuantity
    ensures ApplyAll(w.db, a).orders[o].filledSettlementFee == ApplyAll(w.db, b).orders[o].filledSettlementFee
  {
    FillAfter(w, a, o);
    FillAfter(w, b, o);
    SameLive(w.log, ApplyAll(w.db, a).matches, ApplyAll(w.db, b).matches, o);
  }

  lemma FillAfter(w: World, jobs: seq<Job>, o: OrderId)
    requires Conserved(w) && Payloads(w, jobs) && o in w.db.orders
    ensures var after := ApplyAll(w.db, jobs);
            && o in after.orders
            && after.orders[o].filledQuantity == Sum(w.log, FillWeight(after.matches, o))
            && after.orders[o].filledSettlementFee == Sum(w.log, FeeWeight(after.matches, o))
  {
    AttemptsKeepConserved(w, jobs);
    OrdersStay(w.db, jobs);
  }

  lemma SameLive(log: seq<Match>, a: map<MatchId, MatchRow>, b: map<MatchId, MatchRow>, o: OrderId)
    requires forall m :: m in log ==> (Live(a, m) <==> Live(b, m))
    ensures Sum(log, FillWeight(a, o)) == Sum(log, FillWeight(b, o))
    ensures Sum(log, FeeWeight(a, o)) == Sum(log, FeeWeight(b, o))
  {
    SumSame(log, FillWeight(a, o), FillWeight(b, o));
    SumSame(log, FeeWeight(a, o), FeeWeight(b, o));
  }

  lemma {:induction false} OrdersStay(t: Tables, jobs: seq<Job>)
    ensures ApplyAll(t, jobs).orders.Keys == t.orders.Keys
    decreases jobs
  {
    if jobs != [] {
      ApplyMeans(t, jobs[0]);
      OrdersStay(Apply(t, jobs[0]), jobs[1..]);
    }
  }
}
