/** A match between a lend order and a borrow order, and what each side of it reserves. */
module Matches {

  type MatchId = nat
  type OrderId = nat

  /** A 20-byte address as a number: comparing lower-cased hex strings is comparing these numbers. */
  type Address = nat

  /** The row of user_balance: (user_address, asset). */
  type BalanceKey = (Address, Address)

  /** Amounts are base units (NUMERIC in the database), so they are unbounded here. */
  datatype Match = Match(
    matchId: MatchId,
    lendOrderId: OrderId,
    borrowOrderId: OrderId,
    lenderWallet: Address,
    borrowerWallet: Address,
    loanToken: Address,
    matchedAmount: nat,
    makerFeeAmount: nat,
    takerFeeAmount: nat,
    lenderSettlementFeeAmount: nat,
    borrowerSettlementFeeAmount: nat,
    borrowerIsTaker: bool
  ) {
    function LenderTradeFee(): nat {
      if borrowerIsTaker then makerFeeAmount else takerFeeAmount
    }

    function BorrowerTradeFee(): nat {
      if borrowerIsTaker then takerFeeAmount else makerFeeAmount
    }

    function LenderShare(): nat {
      matchedAmount + lenderSettlementFeeAmount + LenderTradeFee()
    }

    function BorrowerShare(): nat {
      borrowerSettlementFeeAmount + BorrowerTradeFee()
    }

    function LenderKey(): BalanceKey {
      (lenderWallet, loanToken)
    }

    function BorrowerKey(): BalanceKey {
      (borrowerWallet, loanToken)
    }

    /** What the match reserves on one balance row; both sides when a wallet lends to itself. */
    function ShareAt(k: BalanceKey): nat {
      (if k == LenderKey() then LenderShare() else 0) + (if k == BorrowerKey() then BorrowerShare() else 0)
    }

    /** What the match fills of one order. */
    function FillAt(o: OrderId): nat {
      (if o == lendOrderId then matchedAmount else 0) + (if o == borrowOrderId then matchedAmount else 0)
    }

    function FeeAt(o: OrderId): nat {
      (if o == lendOrderId then lenderSettlementFeeAmount else 0) +
      (if o == borrowOrderId then borrowerSettlementFeeAmount else 0)
    }

    predicate OnOrder(o: OrderId) {
      o == lendOrderId || o == borrowOrderId
    }

    predicate OnBalance(k: BalanceKey) {
      k == LenderKey() || k == BorrowerKey()
    }
  }

  predicate DistinctIds(ms: seq<Match>) {
    forall i, j :: 0 <= i < j < |ms| ==> ms[i].matchId != ms[j].matchId
  }

  /** The total of a weight over a list of matches. */
  function Sum(ms: seq<Match>, weight: Match -> nat): nat {
    if ms == [] then 0 else Sum(ms[..|ms| - 1], weight) + weight(ms[|ms| - 1])
  }

  lemma {:induction false} SumSame(ms: seq<Match>, f: Match -> nat, g: Match -> nat)
    requires forall m :: m in ms ==> f(m) == g(m)
    ensures Sum(ms, f) == Sum(ms, g)
  {
    if ms != [] {
      SumSame(ms[..|ms| - 1], f, g);
    }
  }

  /** Changing the weight of one match changes the total by exactly that much. */
  lemma {:induction false} SumChange(ms: seq<Match>, i: nat, f: Match -> nat, g: Match -> nat)
    requires i < |ms| && DistinctIds(ms)
    requires forall m :: m in ms && m.matchId != ms[i].matchId ==> f(m) == g(m)
    ensures Sum(ms, f) + g(ms[i]) == Sum(ms, g) + f(ms[i])
  {
    var init := ms[..|ms| - 1];
    if i == |init| {
      assert forall m :: m in init ==> m.matchId != ms[i].matchId;
      SumSame(init, f, g);
    } else {
      assert ms[|init|].matchId != ms[i].matchId && ms[|init|] in ms;
      SumChange(init, i, f, g);
    }
  }

  lemma {:induction false} SumCovers(ms: seq<Match>, i: nat, f: Match -> nat)
    requires i < |ms|
    ensures f(ms[i]) <= Sum(ms, f)
  {
    if i < |ms| - 1 {
      SumCovers(ms[..|ms| - 1], i, f);
    }
  }

  /** A total of weights is zero exactly when every weight is. */
  lemma {:induction false} SumZero(ms: seq<Match>, f: Match -> nat)
    ensures Sum(ms, f) == 0 <==> forall m :: m in ms ==> f(m) == 0
  {
    if ms != [] {
      var init := ms[..|ms| - 1];
      SumZero(init, f);
      assert forall m :: m in ms <==> m in init || m == ms[|ms| - 1];
    }
  }

  lemma {:induction false} SumAppend(ms: seq<Match>, m: Match, f: Match -> nat)
    ensures Sum(ms + [m], f) == Sum(ms, f) + f(m)
  {
    assert (ms + [m])[..|ms|] == ms;
  }
}
