/**
  The ungated failure path against quarantining each match of the batch in turn, for any batch and
  any tables: exactly when the two end in the same rows.
 */
module Refinement {
  import opened Matches
  import opened Store
  import opened Ledger
  import opened FailurePath

  predicate Counts(t: Tables, ms: seq<Match>)
    requires ms != []
  {
    t.IsPending(ms[|ms| - 1].matchId) && forall m :: m in ms[..|ms| - 1] ==> m.matchId != ms[|ms| - 1].matchId
  }

  /** The first copy of each match of the batch that is PENDING: what a gate lets through. */
  function Gated(t: Tables, ms: seq<Match>): seq<Match> {
    if ms == [] then [] else Gated(t, ms[..|ms| - 1]) + if Counts(t, ms) then [ms[|ms| - 1]] else []
  }

  /** The others. */
  function Ungated(t: Tables, ms: seq<Match>): seq<Match> {
    if ms == [] then [] else Ungated(t, ms[..|ms| - 1]) + if Counts(t, ms) then [] else [ms[|ms| - 1]]
  }

  lemma {:induction false} GatedIds(t: Tables, ms: seq<Match>, id: MatchId)
    ensures (exists m :: m in Gated(t, ms) && m.matchId == id) <==>
            t.IsPending(id) && exists m :: m in ms && m.matchId == id
  {
    if ms != [] {
      var init, last := ms[..|ms| - 1], ms[|ms| - 1];
      GatedIds(t, init, id);
      assert forall m :: m in ms <==> m in init || m == last;
      assert forall m :: m in Gated(t, ms) <==> m in Gated(t, init) || (Counts(t, ms) && m == last);
    }
  }

  /** Quarantining each match in turn is the ungated path over what the gate lets through. */
  lemma {:induction false} QuarantineAllIsCleanup(t: Tables, ms: seq<Match>, reason: string)
    ensures QuarantineAll(t, ms, reason) == Cleanup(t, Gated(t, ms), reason, true, true, true)
  {
    CleanupMeans(t, Gated(t, ms), reason, true, true, true);
    if ms == [] {
      assert RecordedMatches(t.matches, [], reason) == t.matches;
    } else {
      var init, last := ms[..|ms| - 1], ms[|ms| - 1];
      var gated := Gated(t, ms);
      QuarantineAllIsCleanup(t, init, reason);
      CleanupMeans(t, Gated(t, init), reason, true, true, true);
      GatedIds(t, init, last.matchId);
      var t1 := QuarantineAll(t, init, reason);
      ApplyMeans(t1, Quarantine(last, reason));
      assert t1.IsPending(last.matchId) <==> Counts(t, ms);
      if Counts(t, ms) {
        assert gated[..|gated| - 1] == Gated(t, init) && gated[|gated| - 1] == last;
        RecordedStep(t.matches, gated, reason);
      } else {
        assert gated == Gated(t, init);
      }
    }
  }

  // ----- Rows -----

  function Shares(k: BalanceKey): Match -> nat {
    (m: Match) => m.ShareAt(k)
  }

  predicate Touches(ms: seq<Match>, o: OrderId) {
    exists m :: m in ms && m.OnOrder(o)
  }

  lemma {:induction false} UnlockedAt(balances: map<BalanceKey, int>, ms: seq<Match>, k: BalanceKey)
    requires k in balances && 0 <= balances[k]
    ensures k in UnlockedBalances(balances, ms)
    ensures UnlockedBalances(balances, ms)[k] == Greatest0(balances[k] - Sum(ms, Shares(k)))
  {
    if ms != [] {
      var init, last := ms[..|ms| - 1], ms[|ms| - 1];
      UnlockedAt(balances, init, k);
      SumAppend(init, last, Shares(k));
      assert init + [last] == ms;
      assert !last.OnBalance(k) ==> last.ShareAt(k) == 0;
    }
  }

  lemma {:induction false} RestoredAt(orders: map<OrderId, OrderRow>, ms: seq<Match>, o: OrderId)
    requires o in orders
    ensures o in AllRestoredOrders(orders, ms)
    ensures AllRestoredOrders(orders, ms)[o] ==
            if Touches(ms, o) then RestoreRow(orders[o], Sum(ms, Fills(o)), Sum(ms, Fees(o))) else orders[o]
    ensures !Touches(ms, o) ==> Sum(ms, Fills(o)) == 0 && Sum(ms, Fees(o)) == 0
  {
    if ms != [] {
      var init, last := ms[..|ms| - 1], ms[|ms| - 1];
      RestoredAt(orders, init, o);
      SumAppend(init, last, Fills(o));
      SumAppend(init, last, Fees(o));
      assert init + [last] == ms;
      assert forall m :: m in ms <==> m in init || m == last;
      assert Touches(ms, o) <==> Touches(init, o) || last.OnOrder(o);
      if last.OnOrder(o) && Touches(init, o) {
        RestoreRowTwice(orders[o], Sum(init, Fills(o)), Sum(init, Fees(o)), last.FillAt(o), last.FeeAt(o));
      }
    }
  }

  lemma {:induction false} SplitSum(t: Tables, ms: seq<Match>, f: Match -> nat)
    ensures Sum(ms, f) == Sum(Gated(t, ms), f) + Sum(Ungated(t, ms), f)
  {
    if ms != [] {
      var init, last := ms[..|ms| - 1], ms[|ms| - 1];
      SplitSum(t, init, f);
      SumAppend(init, last, f);
      assert init + [last] == ms;
      if Counts(t, ms) {
        SumAppend(Gated(t, init), last, f);
        assert Ungated(t, ms) == Ungated(t, init);
      } else {
        assert Gated(t, ms) == Gated(t, init);
        SumAppend(Ungated(t, init), last, f);
      }
    }
  }

  lemma {:induction false} SplitTouches(t: Tables, ms: seq<Match>, o: OrderId)
    ensures Touches(ms, o) <==> Touches(Gated(t, ms), o) || Touches(Ungated(t, ms), o)
  {
    if ms != [] {
      var init, last := ms[..|ms| - 1], ms[|ms| - 1];
      SplitTouches(t, init, o);
      assert forall m :: m in ms <==> m in init || m == last;
      assert forall m :: m in Gated(t, ms) <==> m in Gated(t, init) || (Counts(t, ms) && m == last);
      assert forall m :: m in Ungated(t, ms) <==> m in Ungated(t, init) || (!Counts(t, ms) && m == last);
    }
  }

  // ----- Exactly when they agree -----

  /** A row the batch is not entitled to mark already carries the same mark. */
  ghost predicate MarksFit(t: Tables, ms: seq<Match>, reason: string) {
    forall m :: m in ms && m.matchId in t.matches ==>
                  t.matches[m.matchId].status.Pending? || t.matches[m.matchId].status == Failed(reason)
  }

  /** What the gate would hold back is nothing, or the clamp hides it. */
  predicate Hidden(held: int, due: nat, excess: nat) {
    excess == 0 || held <= due
  }

  predicate BalanceFits(t: Tables, ms: seq<Match>, k: BalanceKey)
    requires k in t.balances
  {
    Hidden(t.balances[k], Sum(Gated(t, ms), Shares(k)), Sum(Ungated(t, ms), Shares(k)))
  }

  /** And an order that only such matches are on already has the status a restoration gives it. */
  predicate OrderFits(t: Tables, ms: seq<Match>, o: OrderId)
    requires o in t.orders
  {
    var row := t.orders[o];
    && Hidden(row.filledQuantity, Sum(Gated(t, ms), Fills(o)), Sum(Ungated(t, ms), Fills(o)))
    && Hidden(row.filledSettlementFee, Sum(Gated(t, ms), Fees(o)), Sum(Ungated(t, ms), Fees(o)))
    && (Touches(Ungated(t, ms), o) && !Touches(Gated(t, ms), o) ==>
          if row.filledQuantity == 0 then row.status.Cancelled? && row.cancelReason == SETTLEMENT_FAILED
          else row.status.PartiallyFilled?)
  }

  ghost predicate RowsFit(t: Tables, ms: seq<Match>, reason: string) {
    && MarksFit(t, ms, reason)
    && (forall k :: k in t.balances ==> BalanceFits(t, ms, k))
    && (forall o :: o in t.orders ==> OrderFits(t, ms, o))
  }

  /** No column is below zero. */
  ghost predicate NonNegative(t: Tables) {
    && (forall k :: k in t.balances ==> 0 <= t.balances[k])
    && (forall o :: o in t.orders ==> 0 <= t.orders[o].filledQuantity && 0 <= t.orders[o].filledSettlementFee)
  }

  lemma RecordedSame(t: Tables, ms: seq<Match>, reason: string)
    ensures RecordedMatches(t.matches, ms, reason) == RecordedMatches(t.matches, Gated(t, ms), reason) <==>
            MarksFit(t, ms, reason)
  {
    var all, gated := RecordedMatches(t.matches, ms, reason), RecordedMatches(t.matches, Gated(t, ms), reason);
    forall id | id in t.matches
      ensures all[id] == gated[id] <==>
              (t.IsPending(id) || t.matches[id].status == Failed(reason) || forall m :: m in ms ==> m.matchId != id)
    {
      GatedIds(t, ms, id);
    }
    if all == gated {
      forall m | m in ms && m.matchId in t.matches
        ensures t.matches[m.matchId].status.Pending? || t.matches[m.matchId].status == Failed(reason)
      {
        assert all[m.matchId] == gated[m.matchId];
      }
    }
  }

  lemma UnlockedSame(t: Tables, ms: seq<Match>)
    requires NonNegative(t)
    ensures UnlockedBalances(t.balances, ms) == UnlockedBalances(t.balances, Gated(t, ms)) <==>
            forall k :: k in t.balances ==> BalanceFits(t, ms, k)
  {
    hide UnlockedBalances, BalanceFits;
    var all, gated := UnlockedBalances(t.balances, ms), UnlockedBalances(t.balances, Gated(t, ms));
    UnlockedKeys(t.balances, ms);
    UnlockedKeys(t.balances, Gated(t, ms));
    forall k | k in t.balances
      ensures k in all && k in gated && (all[k] == gated[k] <==> BalanceFits(t, ms, k))
    {
      UnlockedSameAt(t, ms, k);
    }
  }

  lemma UnlockedSameAt(t: Tables, ms: seq<Match>, k: BalanceKey)
    requires k in t.balances && 0 <= t.balances[k]
    ensures var all, gated := UnlockedBalances(t.balances, ms), UnlockedBalances(t.balances, Gated(t, ms));
            k in all && k in gated && (all[k] == gated[k] <==> BalanceFits(t, ms, k))
  {
    hide UnlockedBalances, Gated, Ungated, Sum;
    UnlockedAt(t.balances, ms, k);
    UnlockedAt(t.balances, Gated(t, ms), k);
    SplitSum(t, ms, Shares(k));
  }

  lemma {:induction false} UnlockedKeys(balances: map<BalanceKey, int>, ms: seq<Match>)
    ensures UnlockedBalances(balances, ms).Keys == balances.Keys
  {
    if ms != [] {
      UnlockedKeys(balances, ms[..|ms| - 1]);
    }
  }

  lemma {:induction false} RestoredKeys(orders: map<OrderId, OrderRow>, ms: seq<Match>)
    ensures AllRestoredOrders(orders, ms).Keys == orders.Keys
  {
    if ms != [] {
      RestoredKeys(orders, ms[..|ms| - 1]);
    }
  }

  lemma RestoredSame(t: Tables, ms: seq<Match>)
    requires NonNegative(t)
    ensures AllRestoredOrders(t.orders, ms) == AllRestoredOrders(t.orders, Gated(t, ms)) <==>
            forall o :: o in t.orders ==> OrderFits(t, ms, o)
  {
    hide AllRestoredOrders, OrderFits;
    var all, gated := AllRestoredOrders(t.orders, ms), AllRestoredOrders(t.orders, Gated(t, ms));
    RestoredKeys(t.orders, ms);
    RestoredKeys(t.orders, Gated(t, ms));
    forall o | o in t.orders
      ensures o in all && o in gated && (all[o] == gated[o] <==> OrderFits(t, ms, o))
    {
      RestoredSameAt(t, ms, o);
    }
  }

  lemma RestoredSameAt(t: Tables, ms: seq<Match>, o: OrderId)
    requires o in t.orders && 0 <= t.orders[o].filledQuantity && 0 <= t.orders[o].filledSettlementFee
    ensures var all, gated := AllRestoredOrders(t.orders, ms), AllRestoredOrders(t.orders, Gated(t, ms));
            o in all && o in gated && (all[o] == gated[o] <==> OrderFits(t, ms, o))
  {
    hide AllRestoredOrders, Gated, Ungated, Sum, Touches;
    RestoredAt(t.orders, ms, o);
    RestoredAt(t.orders, Gated(t, ms), o);
    RestoredAt(t.orders, Ungated(t, ms), o);
    SplitTouches(t, ms, o);
    SplitSum(t, ms, Fills(o));
    SplitSum(t, ms, Fees(o));
  }

  /**
    For any batch, repeated, settled, failed or not inserted yet, over any tables: the three
    committed transactions are quarantining each match in turn if and only if every mark, balance
    and order that only an ungated statement reaches fits already.
   */
  lemma CleanupRefinesIff(t: Tables, ms: seq<Match>, reason: string)
    requires NonNegative(t)
    ensures Cleanup(t, ms, reason, true, true, true) == QuarantineAll(t, ms, reason) <==> RowsFit(t, ms, reason)
  {
    QuarantineAllIsCleanup(t, ms, reason);
    CleanupMeans(t, ms, reason, true, true, true);
    CleanupMeans(t, Gated(t, ms), reason, true, true, true);
    RecordedSame(t, ms, reason);
    UnlockedSame(t, ms);
    RestoredSame(t, ms);
  }
}
