/**
  The three tables the settlement engine writes, the SQL statements it runs on them, and the
  gated transactions built from those statements.
 */
module Store {
  import opened Matches

  datatype Status = Pending | Settled(txHash: string) | Failed(reason: string)

  datatype MatchRow = MatchRow(payload: Match, status: Status)

  datatype OrderStatus = Open | PartiallyFilled | Filled | Cancelled

  datatype OrderRow = OrderRow(filledQuantity: int, filledSettlementFee: int, status: OrderStatus, cancelReason: string)

  datatype Tables = Tables(
    matches: map<MatchId, MatchRow>,
    orders: map<OrderId, OrderRow>,
    balances: map<BalanceKey, int>
  ) {
    predicate IsPending(id: MatchId) {
      id in matches && matches[id].status.Pending?
    }
  }

  const SETTLEMENT_FAILED := "SETTLEMENT_FAILED"
  const SWEEPER_FAILURE_REASON := "SWEEPER_NO_SETTLEMENT"

  function Greatest0(x: int): nat {
    if x < 0 then 0 else x
  }

  /** The CASE expressions of the order restoration, all reading the row as it was. */
  function RestoreRow(row: OrderRow, quantity: nat, fee: nat): OrderRow {
    OrderRow(
      Greatest0(row.filledQuantity - quantity),
      Greatest0(row.filledSettlementFee - fee),
      if row.filledQuantity - quantity <= 0 then Cancelled else PartiallyFilled,
      if row.filledQuantity - quantity <= 0 then SETTLEMENT_FAILED else row.cancelReason)
  }

  /**
    One UPDATE. `Flip` carries the guard `settlement_status = 'PENDING'`, `Record` does not.
    An UPDATE whose WHERE selects no row changes nothing and raises no error.
   */
  datatype Statement =
    | Flip(matchId: MatchId, to: Status)
    | Record(failedId: MatchId, reason: string)
    | Restore(orderId: OrderId, quantity: nat, fee: nat)
    | Release(key: BalanceKey, share: nat)

  /** Whether the statement's row count is non-zero. */
  predicate Selects(t: Tables, s: Statement) {
    match s
    case Flip(id, _) => t.IsPending(id)
    case Record(id, _) => id in t.matches
    case Restore(o, _, _) => o in t.orders
    case Release(k, _) => k in t.balances
  }

  function Execute(t: Tables, s: Statement): Tables {
    if !Selects(t, s) then t else
    match s
    case Flip(id, to) => t.(matches := t.matches[id := t.matches[id].(status := to)])
    case Record(id, reason) => t.(matches := t.matches[id := t.matches[id].(status := Failed(reason))])
    case Restore(o, q, f) => t.(orders := t.orders[o := RestoreRow(t.orders[o], q, f)])
    case Release(k, share) => t.(balances := t.balances[k := Greatest0(t.balances[k] - share)])
  }

  function ExecuteAll(t: Tables, ss: seq<Statement>): Tables
    decreases ss
  {
    if ss == [] then t else ExecuteAll(Execute(t, ss[0]), ss[1..])
  }

  /** Both releases, the lower wallet first. */
  function Releases(m: Match): seq<Statement> {
    var lender := Release(m.LenderKey(), m.LenderShare());
    var borrower := Release(m.BorrowerKey(), m.BorrowerShare());
    if m.lenderWallet < m.borrowerWallet then [lender, borrower] else [borrower, lender]
  }

  /** Lend order first, then borrow order. */
  function Restores(m: Match): seq<Statement> {
    [Restore(m.lendOrderId, m.matchedAmount, m.lenderSettlementFeeAmount),
     Restore(m.borrowOrderId, m.matchedAmount, m.borrowerSettlementFeeAmount)]
  }

  /** The three single-match transactions. */
  datatype Job =
    | Writeback(m: Match, txHash: string)
    | Quarantine(m: Match, failureReason: string)
    | Remediate(m: Match)
  {
    function Target(): Status {
      match this
      case Writeback(_, txHash) => Settled(txHash)
      case Quarantine(_, reason) => Failed(reason)
      case Remediate(_) => Failed(SWEEPER_FAILURE_REASON)
    }

    function Gate(): Statement {
      Flip(m.matchId, Target())
    }

    function Body(): seq<Statement> {
      if Writeback? then Releases(m) else Restores(m) + Releases(m)
    }
  }

  /** A transaction as one atomic step: nothing happens unless the gate moved the row out of PENDING. */
  function Apply(t: Tables, j: Job): Tables {
    if Selects(t, j.Gate()) then ExecuteAll(Execute(t, j.Gate()), j.Body()) else t
  }

  lemma {:induction false} ExecuteAllConcat(t: Tables, a: seq<Statement>, b: seq<Statement>)
    ensures ExecuteAll(t, a + b) == ExecuteAll(ExecuteAll(t, a), b)
    decreases a
  {
    if a == [] {
      assert a + b == b;
    } else {
      assert (a + b)[0] == a[0] && (a + b)[1..] == a[1..] + b;
      ExecuteAllConcat(Execute(t, a[0]), a[1..], b);
    }
  }

  lemma ExecuteTwo(t: Tables, a: Statement, b: Statement)
    ensures ExecuteAll(t, [a, b]) == Execute(Execute(t, a), b)
  {
    assert [a, b][1..] == [b] && [b][1..] == [];
    assert ExecuteAll(Execute(t, a), [b]) == ExecuteAll(Execute(Execute(t, a), b), []);
  }

  // ----- What a transaction means, row by row and without any order of statements -----

  function ReleasedBalances(balances: map<BalanceKey, int>, m: Match): map<BalanceKey, int> {
    map k | k in balances :: if m.OnBalance(k) then Greatest0(balances[k] - m.ShareAt(k)) else balances[k]
  }

  function RestoredOrders(orders: map<OrderId, OrderRow>, m: Match): map<OrderId, OrderRow> {
    map o | o in orders :: if m.OnOrder(o) then RestoreRow(orders[o], m.FillAt(o), m.FeeAt(o)) else orders[o]
  }

  /** Two restorations of one row are one restoration of the totals. */
  lemma RestoreRowTwice(row: OrderRow, q1: nat, f1: nat, q2: nat, f2: nat)
    ensures RestoreRow(RestoreRow(row, q1, f1), q2, f2) == RestoreRow(row, q1 + q2, f1 + f2)
  {
  }

  /** Two releases on rows a and b, in either order, lower each row by what falls on it. */
  lemma ReleasePair(t: Tables, a: BalanceKey, x: nat, b: BalanceKey, y: nat, k: BalanceKey)
    ensures var r := ExecuteAll(t, [Release(a, x), Release(b, y)]);
            && r.matches == t.matches && r.orders == t.orders && r.balances.Keys == t.balances.Keys
            && (k in t.balances ==>
                  r.balances[k] == if k == a || k == b
                                   then Greatest0(t.balances[k] -
                                                   ((if k == a then x else 0) + (if k == b then y else 0)))
                                   else t.balances[k])
  {
    ExecuteTwo(t, Release(a, x), Release(b, y));
  }

  lemma ReleasesMean(t: Tables, m: Match)
    ensures ExecuteAll(t, Releases(m)) == t.(balances := ReleasedBalances(t.balances, m))
  {
    var (a, x, b, y) := if m.lenderWallet < m.borrowerWallet
                        then (m.LenderKey(), m.LenderShare(), m.BorrowerKey(), m.BorrowerShare())
                        else (m.BorrowerKey(), m.BorrowerShare(), m.LenderKey(), m.LenderShare());
    var r := ExecuteAll(t, [Release(a, x), Release(b, y)]);
    forall k: BalanceKey
      ensures r.matches == t.matches && r.orders == t.orders && r.balances.Keys == t.balances.Keys
      ensures k in t.balances ==> r.balances[k] == if m.OnBalance(k) then Greatest0(t.balances[k] - m.ShareAt(k))
                                                   else t.balances[k]
    {
      ReleasePair(t, a, x, b, y, k);
      assert m.ShareAt(k) == (if k == a then x else 0) + (if k == b then y else 0);
    }
    assert Releases(m) == [Release(a, x), Release(b, y)];
    assert r.balances == ReleasedBalances(t.balances, m);
  }

  lemma RestorePair(t: Tables, a: OrderId, b: OrderId, q: nat, f: nat, g: nat, o: OrderId)
    ensures var r := ExecuteAll(t, [Restore(a, q, f), Restore(b, q, g)]);
            && r.matches == t.matches && r.balances == t.balances && r.orders.Keys == t.orders.Keys
            && (o in t.orders ==>
                  r.orders[o] == if o == a || o == b
                                 then RestoreRow(t.orders[o],
                                                 (if o == a then q else 0) + (if o == b then q else 0),
                                                 (if o == a then f else 0) + (if o == b then g else 0))
                                 else t.orders[o])
  {
    ExecuteTwo(t, Restore(a, q, f), Restore(b, q, g));
    if o in t.orders && o == a == b {
      RestoreRowTwice(t.orders[o], q, f, q, g);
    }
  }

  lemma RestoresMean(t: Tables, m: Match)
    ensures ExecuteAll(t, Restores(m)) == t.(orders := RestoredOrders(t.orders, m))
  {
    var r := ExecuteAll(t, Restores(m));
    var expected := RestoredOrders(t.orders, m);
    forall o: OrderId
      ensures r.matches == t.matches && r.balances == t.balances && r.orders.Keys == t.orders.Keys
      ensures o in t.orders ==> r.orders[o] == expected[o]
    {
      RestorePair(t, m.lendOrderId, m.borrowOrderId, m.matchedAmount,
                  m.lenderSettlementFeeAmount, m.borrowerSettlementFeeAmount, o);
    }
    assert r.orders == expected;
  }

  /**
    What one transaction does to every row of the three tables: out of PENDING at most once, both
    orders restored only by the failure transactions, and each balance lowered by the whole share
    of the match on that row whichever wallet is updated first.
   */
  lemma ApplyMeans(t: Tables, j: Job)
    ensures !t.IsPending(j.m.matchId) ==> Apply(t, j) == t
    ensures t.IsPending(j.m.matchId) ==>
              Apply(t, j) == Tables(
                               t.matches[j.m.matchId := MatchRow(t.matches[j.m.matchId].payload, j.Target())],
                               if j.Writeback? then t.orders else RestoredOrders(t.orders, j.m),
                               ReleasedBalances(t.balances, j.m))
  {
    if t.IsPending(j.m.matchId) {
      var t1 := Execute(t, j.Gate());
      if !j.Writeback? {
        ExecuteAllConcat(t1, Restores(j.m), Releases(j.m));
        RestoresMean(t1, j.m);
      }
      ReleasesMean(ExecuteAll(t1, if j.Writeback? then [] else Restores(j.m)), j.m);
    }
  }

  /** The same, at one balance row and one order row. */
  lemma ApplyAt(t: Tables, j: Job, k: BalanceKey, o: OrderId)
    requires t.IsPending(j.m.matchId)
    ensures var after := Apply(t, j);
            && after.matches == t.matches[j.m.matchId := MatchRow(t.matches[j.m.matchId].payload, j.Target())]
            && (k in after.balances <==> k in t.balances)
            && (k in t.balances ==>
                  after.balances[k] == if j.m.OnBalance(k) then Greatest0(t.balances[k] - j.m.ShareAt(k))
                                       else t.balances[k])
            && (o in after.orders <==> o in t.orders)
            && (o in t.orders ==>
                  after.orders[o] == if !j.Writeback? && j.m.OnOrder(o)
                                     then RestoreRow(t.orders[o], j.m.FillAt(o), j.m.FeeAt(o))
                                     else t.orders[o])
  {
    ApplyMeans(t, j);
  }

  // ----- What a match holds, field by field -----

  /** The two sides reserve the loan and every fee once. */
  lemma SharesAddUp(m: Match)
    ensures m.LenderShare() + m.BorrowerShare() ==
            m.matchedAmount + m.lenderSettlementFeeAmount + m.borrowerSettlementFeeAmount +
            m.makerFeeAmount + m.takerFeeAmount
    ensures m.ShareAt(m.LenderKey()) + (if m.LenderKey() == m.BorrowerKey() then 0 else m.ShareAt(m.BorrowerKey())) ==
            m.LenderShare() + m.BorrowerShare()
  {
  }

  /**
    A transaction that finds its row PENDING takes off the lender's balance the loan, the lender's
    settlement fee and the lender's trade fee, and off the borrower's the other two fees, each clamped
    at zero; the maker fee is the lender's exactly when the borrower is the taker. A wallet that lends
    to itself gives up all of it at once.
   */
  lemma ReleasesInFields(t: Tables, j: Job)
    requires t.IsPending(j.m.matchId)
    ensures var m, after := j.m, Apply(t, j);
            var lender, borrower := (m.lenderWallet, m.loanToken), (m.borrowerWallet, m.loanToken);
            var lenderFee := if m.borrowerIsTaker then m.makerFeeAmount else m.takerFeeAmount;
            var borrowerFee := if m.borrowerIsTaker then m.takerFeeAmount else m.makerFeeAmount;
            var fromLender := m.matchedAmount + m.lenderSettlementFeeAmount + lenderFee;
            var fromBorrower := m.borrowerSettlementFeeAmount + borrowerFee;
            && after.balances.Keys == t.balances.Keys
            && (forall k {:trigger after.balances[k]} :: k in t.balances && k != lender && k != borrower ==>
                  after.balances[k] == t.balances[k])
            && (lender != borrower && lender in t.balances ==>
                  after.balances[lender] == Greatest0(t.balances[lender] - fromLender))
            && (lender != borrower && borrower in t.balances ==>
                  after.balances[borrower] == Greatest0(t.balances[borrower] - fromBorrower))
            && (lender == borrower && lender in t.balances ==>
                  after.balances[lender] == Greatest0(t.balances[lender] - fromLender - fromBorrower))
  {
    ApplyMeans(t, j);
  }

  /**
    A failure takes the loan off what both orders have filled and each side's settlement fee off its
    own order's; an order with nothing left is cancelled for it. A writeback leaves the orders alone.
   */
  lemma RestoresInFields(t: Tables, j: Job)
    requires t.IsPending(j.m.matchId) && j.m.lendOrderId != j.m.borrowOrderId
    ensures var m, after := j.m, Apply(t, j);
            && after.orders.Keys == t.orders.Keys
            && (forall o {:trigger after.orders[o]} :: o in t.orders && o != m.lendOrderId && o != m.borrowOrderId ==>
                  after.orders[o] == t.orders[o])
            && (j.Writeback? ==> after.orders == t.orders)
            && (forall o {:trigger after.orders[o]} ::
                  !j.Writeback? && o in t.orders && (o == m.lendOrderId || o == m.borrowOrderId) ==>
                    var before, row := t.orders[o], after.orders[o];
                    var left := before.filledQuantity - m.matchedAmount;
                    var lends := o == m.lendOrderId;
                    var fee := if lends then m.lenderSettlementFeeAmount else m.borrowerSettlementFeeAmount;
                    && row.filledQuantity == Greatest0(left)
                    && row.filledSettlementFee == Greatest0(before.filledSettlementFee - fee)
                    && row.status == (if left <= 0 then Cancelled else PartiallyFilled)
                    && row.cancelReason == if left <= 0 then SETTLEMENT_FAILED else before.cancelReason)
  {
    ApplyMeans(t, j);
  }
}
