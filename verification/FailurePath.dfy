/**
  The failure path that has no PENDING gate: three separate transactions over a whole batch
  (unlock, record, restore), and exactly when it agrees with quarantining each match.
 */
module FailurePath {
  import opened Matches
  import opened Store
  import opened Ledger

  // ----- Any list of statements, in any order -----

  predicate ReleasesOn(ss: seq<Statement>, k: BalanceKey) {
    exists i :: 0 <= i < |ss| && ss[i].Release? && ss[i].key == k
  }

  function ReleasedOn(ss: seq<Statement>, k: BalanceKey): nat {
    if ss == [] then 0
    else (if ss[0].Release? && ss[0].key == k then ss[0].share else 0) + ReleasedOn(ss[1..], k)
  }

  predicate RestoresOn(ss: seq<Statement>, o: OrderId) {
    exists i :: 0 <= i < |ss| && ss[i].Restore? && ss[i].orderId == o
  }

  function QuantityOn(ss: seq<Statement>, o: OrderId): nat {
    if ss == [] then 0
    else (if ss[0].Restore? && ss[0].orderId == o then ss[0].quantity else 0) + QuantityOn(ss[1..], o)
  }

  function FeeOn(ss: seq<Statement>, o: OrderId): nat {
    if ss == [] then 0
    else (if ss[0].Restore? && ss[0].orderId == o then ss[0].fee else 0) + FeeOn(ss[1..], o)
  }

  lemma HeadOrTail(ss: seq<Statement>, k: BalanceKey, o: OrderId)
    requires ss != []
    ensures ReleasesOn(ss, k) <==> ((ss[0].Release? && ss[0].key == k) || ReleasesOn(ss[1..], k))
    ensures RestoresOn(ss, o) <==> ((ss[0].Restore? && ss[0].orderId == o) || RestoresOn(ss[1..], o))
  {
    if ReleasesOn(ss[1..], k) {
      var i :| 0 <= i < |ss[1..]| && ss[1..][i].Release? && ss[1..][i].key == k;
      assert ss[i + 1] == ss[1..][i];
    }
    if RestoresOn(ss[1..], o) {
      var i :| 0 <= i < |ss[1..]| && ss[1..][i].Restore? && ss[1..][i].orderId == o;
      assert ss[i + 1] == ss[1..][i];
    }
    if ReleasesOn(ss, k) && !(ss[0].Release? && ss[0].key == k) {
      var i :| 0 <= i < |ss| && ss[i].Release? && ss[i].key == k;
      assert ss[1..][i - 1] == ss[i];
    }
    if RestoresOn(ss, o) && !(ss[0].Restore? && ss[0].orderId == o) {
      var i :| 0 <= i < |ss| && ss[i].Restore? && ss[i].orderId == o;
      assert ss[1..][i - 1] == ss[i];
    }
  }

  /**
    A list of statements leaves GREATEST(0, in_orders - total) on every balance it releases, for
    any starting value, and one restoration of the totals on every order it restores.
   */
  lemma {:induction false} ClampedOnce(t: Tables, ss: seq<Statement>, k: BalanceKey)
    ensures ExecuteAll(t, ss).balances.Keys == t.balances.Keys
    ensures k in t.balances ==>
              ExecuteAll(t, ss).balances[k] ==
              if ReleasesOn(ss, k) then Greatest0(t.balances[k] - ReleasedOn(ss, k)) else t.balances[k]
    decreases ss
  {
    if ss != [] {
      HeadOrTail(ss, k, 0);
      ClampedOnce(Execute(t, ss[0]), ss[1..], k);
      if !ReleasesOn(ss[1..], k) {
        NothingOn(ss[1..], k, 0);
      }
    }
  }

  lemma {:induction false} RestoredOnce(t: Tables, ss: seq<Statement>, o: OrderId)
    ensures ExecuteAll(t, ss).orders.Keys == t.orders.Keys
    ensures o in t.orders ==>
              ExecuteAll(t, ss).orders[o] ==
              if RestoresOn(ss, o) then RestoreRow(t.orders[o], QuantityOn(ss, o), FeeOn(ss, o)) else t.orders[o]
    decreases ss
  {
    if ss != [] {
      var t1 := Execute(t, ss[0]);
      HeadOrTail(ss, (0, 0), o);
      RestoredOnce(t1, ss[1..], o);
      if !RestoresOn(ss[1..], o) {
        NothingOn(ss[1..], (0, 0), o);
      }
      if o in t.orders && ss[0].Restore? && ss[0].orderId == o {
        RestoreRowTwice(t.orders[o], ss[0].quantity, ss[0].fee, QuantityOn(ss[1..], o), FeeOn(ss[1..], o));
      }
    }
  }

  lemma {:induction false} NothingOn(ss: seq<Statement>, k: BalanceKey, o: OrderId)
    ensures !ReleasesOn(ss, k) ==> ReleasedOn(ss, k) == 0
    ensures !RestoresOn(ss, o) ==> QuantityOn(ss, o) == 0 && FeeOn(ss, o) == 0
    decreases ss
  {
    if ss != [] {
      HeadOrTail(ss, k, o);
      NothingOn(ss[1..], k, o);
    }
  }

  /** The totals of a list do not depend on where a statement stands in it. */
  lemma {:induction false} PullOut(ss: seq<Statement>, i: nat, k: BalanceKey, o: OrderId)
    requires i < |ss|
    ensures var moved := [ss[i]] + ss[..i] + ss[i + 1..];
            && ReleasedOn(ss, k) == ReleasedOn(moved, k)
            && QuantityOn(ss, o) == QuantityOn(moved, o)
            && FeeOn(ss, o) == FeeOn(moved, o)
    decreases i
  {
    hide ReleasedOn, QuantityOn, FeeOn;
    var moved := [ss[i]] + ss[..i] + ss[i + 1..];
    if i == 0 {
      assert moved == ss;
    } else {
      var tail := ss[1..];
      PullOut(tail, i - 1, k, o);
      var movedTail := [tail[i - 1]] + tail[..i - 1] + tail[i..];
      assert movedTail[1..] == tail[..i - 1] + tail[i..];
      assert moved[1..] == [ss[0]] + movedTail[1..];
      assert moved[1..][1..] == movedTail[1..];
      HeadAdds(ss, k, o);
      HeadAdds(moved, k, o);
      HeadAdds(moved[1..], k, o);
      HeadAdds(movedTail, k, o);
    }
  }

  function Of(s: Statement, k: BalanceKey, o: OrderId): (int, int, int) {
    (if s.Release? && s.key == k then s.share else 0,
     if s.Restore? && s.orderId == o then s.quantity else 0,
     if s.Restore? && s.orderId == o then s.fee else 0)
  }

  lemma HeadAdds(ss: seq<Statement>, k: BalanceKey, o: OrderId)
    requires ss != []
    ensures ReleasedOn(ss, k) == Of(ss[0], k, o).0 + ReleasedOn(ss[1..], k)
    ensures QuantityOn(ss, o) == Of(ss[0], k, o).1 + QuantityOn(ss[1..], o)
    ensures FeeOn(ss, o) == Of(ss[0], k, o).2 + FeeOn(ss[1..], o)
  {
  }

  lemma TakeOut<T>(a: seq<T>, b: seq<T>) returns (i: nat)
    requires multiset(a) == multiset(b) && a != []
    ensures i < |b| && b[i] == a[0] && multiset(a[1..]) == multiset(b[..i] + b[i + 1..])
  {
    assert a[0] in multiset(b);
    i :| i < |b| && b[i] == a[0];
    assert a == [a[0]] + a[1..];
    assert b == b[..i] + [b[i]] + b[i + 1..];
    assert multiset(b) == multiset(b[..i] + b[i + 1..]) + multiset{b[i]};
    assert multiset(a[1..]) == multiset(a) - multiset{a[0]};
  }

  lemma {:induction false} TotalsOrderFree(a: seq<Statement>, b: seq<Statement>, k: BalanceKey, o: OrderId)
    requires multiset(a) == multiset(b)
    ensures ReleasedOn(a, k) == ReleasedOn(b, k)
    ensures QuantityOn(a, o) == QuantityOn(b, o) && FeeOn(a, o) == FeeOn(b, o)
    decreases |a|
  {
    if a == [] {
      assert |multiset(b)| == 0;
      assert b == [];
    } else {
      var i := TakeOut(a, b);
      var rest := b[..i] + b[i + 1..];
      TotalsOrderFree(a[1..], rest, k, o);
      PullOut(b, i, k, o);
      assert ([b[i]] + b[..i] + b[i + 1..])[1..] == rest;
    }
  }

  lemma OnOrderFree(a: seq<Statement>, b: seq<Statement>, k: BalanceKey, o: OrderId)
    requires multiset(a) == multiset(b)
    ensures ReleasesOn(a, k) ==> ReleasesOn(b, k)
    ensures RestoresOn(a, o) ==> RestoresOn(b, o)
  {
    if ReleasesOn(a, k) {
      var i :| 0 <= i < |a| && a[i].Release? && a[i].key == k;
      assert a[i] in multiset(b);
    }
    if RestoresOn(a, o) {
      var i :| 0 <= i < |a| && a[i].Restore? && a[i].orderId == o;
      assert a[i] in multiset(b);
    }
  }

  /** Any permutation of the statements, matches and wallets alike, ends in the same balances and orders. */
  lemma StatementsOrderFree(t: Tables, a: seq<Statement>, b: seq<Statement>)
    requires multiset(a) == multiset(b)
    ensures ExecuteAll(t, a).balances == ExecuteAll(t, b).balances
    ensures ExecuteAll(t, a).orders == ExecuteAll(t, b).orders
  {
    var ta, tb := ExecuteAll(t, a), ExecuteAll(t, b);
    forall k: BalanceKey
      ensures ta.balances.Keys == tb.balances.Keys == t.balances.Keys
      ensures k in t.balances ==> ta.balances[k] == tb.balances[k]
    {
      ClampedOnce(t, a, k);
      ClampedOnce(t, b, k);
      TotalsOrderFree(a, b, k, 0);
      OnOrderFree(a, b, k, 0);
      OnOrderFree(b, a, k, 0);
    }
    forall o: OrderId
      ensures ta.orders.Keys == tb.orders.Keys == t.orders.Keys
      ensures o in t.orders ==> ta.orders[o] == tb.orders[o]
    {
      RestoredOnce(t, a, o);
      RestoredOnce(t, b, o);
      TotalsOrderFree(a, b, (0, 0), o);
      OnOrderFree(a, b, (0, 0), o);
      OnOrderFree(b, a, (0, 0), o);
    }
  }

  // ----- The three batch transactions -----

  function UnlockStatements(ms: seq<Match>): seq<Statement> {
    if ms == [] then [] else UnlockStatements(ms[..|ms| - 1]) + Releases(ms[|ms| - 1])
  }

  function RecordStatements(ms: seq<Match>, reason: string): seq<Statement> {
    if ms == [] then [] else RecordStatements(ms[..|ms| - 1], reason) + [Record(ms[|ms| - 1].matchId, reason)]
  }

  function RestoreStatements(ms: seq<Match>): seq<Statement> {
    if ms == [] then [] else RestoreStatements(ms[..|ms| - 1]) + Restores(ms[|ms| - 1])
  }

  /** The failure path over a whole batch; each transaction either commits or leaves no trace. */
  function Cleanup(t: Tables, ms: seq<Match>, reason: string, unlocked: bool, recorded: bool, restored: bool): Tables {
    var t1 := if unlocked then ExecuteAll(t, UnlockStatements(ms)) else t;
    var t2 := if recorded then ExecuteAll(t1, RecordStatements(ms, reason)) else t1;
    if restored then ExecuteAll(t2, RestoreStatements(ms)) else t2
  }

  /** Quarantining each match of the batch in turn. */
  function QuarantineAll(t: Tables, ms: seq<Match>, reason: string): Tables {
    if ms == [] then t else Apply(QuarantineAll(t, ms[..|ms| - 1], reason), Quarantine(ms[|ms| - 1], reason))
  }

  predicate AllPending(t: Tables, ms: seq<Match>) {
    forall m :: m in ms ==> t.IsPending(m.matchId)
  }

  // What each of the three does to its own table.

  function UnlockedBalances(balances: map<BalanceKey, int>, ms: seq<Match>): map<BalanceKey, int> {
    if ms == [] then balances else ReleasedBalances(UnlockedBalances(balances, ms[..|ms| - 1]), ms[|ms| - 1])
  }

  function RecordedMatches(rows: map<MatchId, MatchRow>, ms: seq<Match>, reason: string): map<MatchId, MatchRow> {
    map id | id in rows ::
      if exists m :: m in ms && m.matchId == id then rows[id].(status := Failed(reason)) else rows[id]
  }

  function AllRestoredOrders(orders: map<OrderId, OrderRow>, ms: seq<Match>): map<OrderId, OrderRow> {
    if ms == [] then orders else RestoredOrders(AllRestoredOrders(orders, ms[..|ms| - 1]), ms[|ms| - 1])
  }

  lemma {:induction false} UnlockMeans(t: Tables, ms: seq<Match>)
    ensures ExecuteAll(t, UnlockStatements(ms)) == t.(balances := UnlockedBalances(t.balances, ms))
  {
    if ms != [] {
      var init := ms[..|ms| - 1];
      UnlockMeans(t, init);
      ExecuteAllConcat(t, UnlockStatements(init), Releases(ms[|ms| - 1]));
      ReleasesMean(ExecuteAll(t, UnlockStatements(init)), ms[|ms| - 1]);
    }
  }

  lemma {:induction false} RestoreMeans(t: Tables, ms: seq<Match>)
    ensures ExecuteAll(t, RestoreStatements(ms)) == t.(orders := AllRestoredOrders(t.orders, ms))
  {
    if ms != [] {
      var init := ms[..|ms| - 1];
      RestoreMeans(t, init);
      ExecuteAllConcat(t, RestoreStatements(init), Restores(ms[|ms| - 1]));
      RestoresMean(ExecuteAll(t, RestoreStatements(init)), ms[|ms| - 1]);
    }
  }

  lemma {:induction false} RecordMeans(t: Tables, ms: seq<Match>, reason: string)
    ensures ExecuteAll(t, RecordStatements(ms, reason)) == t.(matches := RecordedMatches(t.matches, ms, reason))
  {
    if ms == [] {
      assert RecordedMatches(t.matches, ms, reason) == t.matches;
    } else {
      var init, last := ms[..|ms| - 1], ms[|ms| - 1];
      RecordMeans(t, init, reason);
      var t1 := ExecuteAll(t, RecordStatements(init, reason));
      var s := Record(last.matchId, reason);
      ExecuteAllConcat(t, RecordStatements(init, reason), [s]);
      assert ExecuteAll(t1, [s]) == ExecuteAll(Execute(t1, s), []);
      assert forall m :: m in ms <==> m in init || m == last;
      assert Execute(t1, s).matches == RecordedMatches(t.matches, ms, reason);
    }
  }

  lemma CleanupMeans(t: Tables, ms: seq<Match>, reason: string, u: bool, r: bool, s: bool)
    ensures Cleanup(t, ms, reason, u, r, s) == Tables(
              if r then RecordedMatches(t.matches, ms, reason) else t.matches,
              if s then AllRestoredOrders(t.orders, ms) else t.orders,
              if u then UnlockedBalances(t.balances, ms) else t.balances)
  {
    UnlockMeans(t, ms);
    var t1 := if u then ExecuteAll(t, UnlockStatements(ms)) else t;
    RecordMeans(t1, ms, reason);
    var t2 := if r then ExecuteAll(t1, RecordStatements(ms, reason)) else t1;
    RestoreMeans(t2, ms);
  }

  lemma RecordedStep(rows: map<MatchId, MatchRow>, ms: seq<Match>, reason: string)
    requires ms != [] && ms[|ms| - 1].matchId in rows
    ensures var id := ms[|ms| - 1].matchId;
            var before := RecordedMatches(rows, ms[..|ms| - 1], reason);
            && id in before
            && RecordedMatches(rows, ms, reason) == before[id := before[id].(status := Failed(reason))]
            && (before[id].status.Pending? <==>
                  rows[id].status.Pending? && forall m :: m in ms[..|ms| - 1] ==> m.matchId != id)
  {
    var init, last := ms[..|ms| - 1], ms[|ms| - 1];
    assert forall m :: m in ms <==> m in init || m == last;
  }

  lemma {:induction false} QuarantineAllMeans(t: Tables, ms: seq<Match>, reason: string)
    requires DistinctIds(ms) && AllPending(t, ms)
    ensures QuarantineAll(t, ms, reason) == Tables(
              RecordedMatches(t.matches, ms, reason),
              AllRestoredOrders(t.orders, ms),
              UnlockedBalances(t.balances, ms))
  {
    if ms == [] {
      assert RecordedMatches(t.matches, ms, reason) == t.matches;
    } else {
      var init, last := ms[..|ms| - 1], ms[|ms| - 1];
      assert last in ms && forall m :: m in init ==> m in ms && m.matchId != last.matchId;
      QuarantineAllMeans(t, init, reason);
      var t1 := QuarantineAll(t, init, reason);
      RecordedStep(t.matches, ms, reason);
      ApplyMeans(t1, Quarantine(last, reason));
    }
  }

  /**
    On distinct matches that are all still PENDING, sharing wallets and orders in any way, the
    three committed transactions are the same tables as quarantining each match in turn, whatever
    the rows hold and whichever rows are missing.
   */
  lemma CleanupRefinesQuarantine(t: Tables, ms: seq<Match>, reason: string)
    requires DistinctIds(ms) && AllPending(t, ms)
    ensures Cleanup(t, ms, reason, true, true, true) == QuarantineAll(t, ms, reason)
  {
    CleanupMeans(t, ms, reason, true, true, true);
    QuarantineAllMeans(t, ms, reason);
  }

  // ----- Exactly when the ungated path conserves -----

  /** Releases of the batch that some other step, or an earlier copy in the batch, has already done. */
  function Excess(t: Tables, ms: seq<Match>, k: BalanceKey): nat {
    if ms == [] then 0
    else
      var init, last := ms[..|ms| - 1], ms[|ms| - 1];
      Excess(t, init, k) +
      if t.IsPending(last.matchId) && (forall m :: m in init ==> m.matchId != last.matchId) then 0 else last.ShareAt(k)
  }

  /** What the batch still legitimately holds: the shares of its PENDING matches, each counted once. */
  function Due(t: Tables, ms: seq<Match>, k: BalanceKey): nat {
    if ms == [] then 0
    else
      var init, last := ms[..|ms| - 1], ms[|ms| - 1];
      Due(t, init, k) +
      if t.IsPending(last.matchId) && (forall m :: m in init ==> m.matchId != last.matchId) then last.ShareAt(k) else 0
  }

  /** A match of the batch agrees with its row, if it has one yet. */
  ghost predicate Known(w: World, ms: seq<Match>) {
    forall m :: m in ms && m.matchId in w.db.matches ==> w.db.matches[m.matchId].payload == m
  }

  lemma RecordOneDrops(log: seq<Match>, i: nat, rows: map<MatchId, MatchRow>, reason: string, k: BalanceKey)
    requires DistinctIds(log) && i < |log| && log[i].matchId in rows
    ensures var id := log[i].matchId;
            Sum(log, PendingWeight(rows[id := rows[id].(status := Failed(reason))], k)) +
            (if rows[id].status.Pending? then log[i].ShareAt(k) else 0) ==
            Sum(log, PendingWeight(rows, k))
  {
    var id := log[i].matchId;
    var rows' := rows[id := rows[id].(status := Failed(reason))];
    SumChange(log, i, PendingWeight(rows, k), PendingWeight(rows', k));
  }

  /** Recording a match that has no row yet changes nothing. */
  lemma RecordedNothing(rows: map<MatchId, MatchRow>, ms: seq<Match>, reason: string)
    requires ms != [] && ms[|ms| - 1].matchId !in rows
    ensures RecordedMatches(rows, ms, reason) == RecordedMatches(rows, ms[..|ms| - 1], reason)
  {
    assert forall m :: m in ms <==> m in ms[..|ms| - 1] || m == ms[|ms| - 1];
  }

  /** Recording a batch as FAILED takes exactly its due shares out of the pending total. */
  lemma {:induction false} RecordingDrops(log: seq<Match>, t: Tables, ms: seq<Match>, reason: string, k: BalanceKey)
    requires DistinctIds(log)
    requires forall m :: m in ms && m.matchId in t.matches ==> m in log
    ensures Sum(log, PendingWeight(RecordedMatches(t.matches, ms, reason), k)) + Due(t, ms, k) ==
            Sum(log, PendingWeight(t.matches, k))
  {
    if ms == [] {
      assert RecordedMatches(t.matches, ms, reason) == t.matches;
    } else {
      var init, last := ms[..|ms| - 1], ms[|ms| - 1];
      RecordingDrops(log, t, init, reason, k);
      assert last in ms;
      if last.matchId in t.matches {
        var i :| 0 <= i < |log| && log[i] == last;
        RecordedStep(t.matches, ms, reason);
        RecordOneDrops(log, i, RecordedMatches(t.matches, init, reason), reason, k);
      } else {
        RecordedNothing(t.matches, ms, reason);
      }
    }
  }

  /** Unlocking a batch takes its due shares and its excess, clamped at zero. */
  lemma {:induction false} UnlockingDrops(t: Tables, ms: seq<Match>, k: BalanceKey)
    requires k in t.balances && 0 <= t.balances[k]
    ensures k in UnlockedBalances(t.balances, ms)
    ensures UnlockedBalances(t.balances, ms)[k] == Greatest0(t.balances[k] - Due(t, ms, k) - Excess(t, ms, k))
  {
    if ms != [] {
      var init, last := ms[..|ms| - 1], ms[|ms| - 1];
      UnlockingDrops(t, init, k);
      assert !last.OnBalance(k) ==> last.ShareAt(k) == 0;
    }
  }

  /**
    The reservation the three committed transactions leave behind, for any known batch: short of
    what is still owed by exactly the excess, until the clamp hides the rest.
   */
  lemma CleanupBalance(w: World, ms: seq<Match>, reason: string, k: BalanceKey)
    requires Conserved(w) && Known(w, ms) && k in w.db.balances
    ensures var after := Cleanup(w.db, ms, reason, true, true, true);
            && k in after.balances
            && after.balances[k] ==
                 Greatest0(w.base[k] + Sum(w.log, PendingWeight(after.matches, k)) - Excess(w.db, ms, k))
  {
    CleanupMeans(w.db, ms, reason, true, true, true);
    RecordingDrops(w.log, w.db, ms, reason, k);
    UnlockingDrops(w.db, ms, k);
  }

  // The same for what the matches fill: quantities and settlement fees, over matches that have not FAILED.

  function Fills(o: OrderId): Match -> nat {
    (m: Match) => m.FillAt(o)
  }

  function Fees(o: OrderId): Match -> nat {
    (m: Match) => m.FeeAt(o)
  }

  /** What the batch still legitimately fills: its matches that have not FAILED, each counted once. */
  function LiveDue(t: Tables, ms: seq<Match>, f: Match -> nat): nat {
    if ms == [] then 0
    else
      var init, last := ms[..|ms| - 1], ms[|ms| - 1];
      LiveDue(t, init, f) +
      if Live(t.matches, last) && (forall m :: m in init ==> m.matchId != last.matchId) then f(last) else 0
  }

  /** Fills of the batch already taken off: its matches that have FAILED, and its repeated copies. */
  function LiveExcess(t: Tables, ms: seq<Match>, f: Match -> nat): nat {
    if ms == [] then 0
    else
      var init, last := ms[..|ms| - 1], ms[|ms| - 1];
      LiveExcess(t, init, f) +
      if Live(t.matches, last) && (forall m :: m in init ==> m.matchId != last.matchId) then 0 else f(last)
  }

  lemma RecordOneFill(log: seq<Match>, i: nat, rows: map<MatchId, MatchRow>, reason: string, o: OrderId)
    requires DistinctIds(log) && i < |log| && log[i].matchId in rows
    ensures var id := log[i].matchId;
            var rows' := rows[id := rows[id].(status := Failed(reason))];
            && Sum(log, FillWeight(rows', o)) + (if Live(rows, log[i]) then log[i].FillAt(o) else 0) ==
                 Sum(log, FillWeight(rows, o))
            && Sum(log, FeeWeight(rows', o)) + (if Live(rows, log[i]) then log[i].FeeAt(o) else 0) ==
                 Sum(log, FeeWeight(rows, o))
  {
    var id := log[i].matchId;
    var rows' := rows[id := rows[id].(status := Failed(reason))];
    SumChange(log, i, FillWeight(rows, o), FillWeight(rows', o));
    SumChange(log, i, FeeWeight(rows, o), FeeWeight(rows', o));
  }

  lemma RecordedLive(rows: map<MatchId, MatchRow>, ms: seq<Match>, reason: string)
    requires ms != [] && ms[|ms| - 1].matchId in rows
    ensures var last := ms[|ms| - 1];
            Live(RecordedMatches(rows, ms[..|ms| - 1], reason), last) <==>
            Live(rows, last) && forall m :: m in ms[..|ms| - 1] ==> m.matchId != last.matchId
  {
  }

  /** Recording a batch as FAILED takes exactly its due fills and fees out of the totals. */
  lemma {:induction false} RecordingDropsFills(log: seq<Match>, t: Tables, ms: seq<Match>, reason: string, o: OrderId)
    requires DistinctIds(log)
    requires forall m :: m in ms && m.matchId in t.matches ==> m in log
    ensures Sum(log, FillWeight(RecordedMatches(t.matches, ms, reason), o)) + LiveDue(t, ms, Fills(o)) ==
            Sum(log, FillWeight(t.matches, o))
    ensures Sum(log, FeeWeight(RecordedMatches(t.matches, ms, reason), o)) + LiveDue(t, ms, Fees(o)) ==
            Sum(log, FeeWeight(t.matches, o))
  {
    hide Sum;
    if ms == [] {
      assert RecordedMatches(t.matches, ms, reason) == t.matches;
    } else {
      var init, last := ms[..|ms| - 1], ms[|ms| - 1];
      RecordingDropsFills(log, t, init, reason, o);
      assert last in ms;
      if last.matchId in t.matches {
        var i :| 0 <= i < |log| && log[i] == last;
        RecordedStep(t.matches, ms, reason);
        RecordedLive(t.matches, ms, reason);
        RecordOneFill(log, i, RecordedMatches(t.matches, init, reason), reason, o);
      } else {
        RecordedNothing(t.matches, ms, reason);
      }
    }
  }

  /** Restoring a batch's orders takes its due fills and its excess off each, clamped at zero. */
  lemma {:induction false} RestoringDrops(t: Tables, ms: seq<Match>, o: OrderId)
    requires o in t.orders && 0 <= t.orders[o].filledQuantity && 0 <= t.orders[o].filledSettlementFee
    ensures var after := AllRestoredOrders(t.orders, ms);
            && o in after
            && after[o].filledQuantity ==
                 Greatest0(t.orders[o].filledQuantity - LiveDue(t, ms, Fills(o)) - LiveExcess(t, ms, Fills(o)))
            && after[o].filledSettlementFee ==
                 Greatest0(t.orders[o].filledSettlementFee - LiveDue(t, ms, Fees(o)) - LiveExcess(t, ms, Fees(o)))
  {
    if ms != [] {
      var init, last := ms[..|ms| - 1], ms[|ms| - 1];
      RestoringDrops(t, init, o);
      OneMoreOf(t, ms, Fills(o));
      OneMoreOf(t, ms, Fees(o));
      assert !last.OnOrder(o) ==> last.FillAt(o) == 0 && last.FeeAt(o) == 0;
    }
  }

  lemma OneMoreOf(t: Tables, ms: seq<Match>, f: Match -> nat)
    requires ms != []
    ensures var init := ms[..|ms| - 1];
            LiveDue(t, ms, f) + LiveExcess(t, ms, f) == LiveDue(t, init, f) + LiveExcess(t, init, f) + f(ms[|ms| - 1])
  {
  }

  /**
    When a column that holds exactly its matches' total still does after the failure path, given
    which part of the batch it is due and which is excess, whether its own transaction committed,
    and whether the recording did.
   */
  predicate StaysExact(held: int, due: nat, excess: nat, taken: bool, recorded: bool) {
    if taken && recorded then excess == 0 || held == due
    else if taken then due + excess == 0 || held == 0
    else if recorded then due == 0
    else true
  }

  lemma StaysExactMeans(rest: nat, total: nat, due: nat, excess: nat, taken: bool, recorded: bool)
    requires recorded ==> due <= total
    ensures var held := rest + total;
            var after := if taken then Greatest0(held - due - excess) else held;
            after == rest + (if recorded then total - due else total) <==>
                  StaysExact(held, due, excess, taken, recorded)
  {
  }

  lemma LockAt(w: World, k: BalanceKey)
    requires Conserved(w) && k in w.db.balances
    ensures k in w.base && w.db.balances[k] == w.base[k] + Sum(w.log, PendingWeight(w.db.matches, k))
  {
  }

  lemma FillsAt(w: World, o: OrderId)
    requires Conserved(w) && o in w.db.orders
    ensures w.db.orders[o].filledQuantity == Sum(w.log, FillWeight(w.db.matches, o))
    ensures w.db.orders[o].filledSettlementFee == Sum(w.log, FeeWeight(w.db.matches, o))
  {
  }

  lemma KnownRows(w: World, ms: seq<Match>)
    requires Conserved(w) && Known(w, ms)
    ensures DistinctIds(w.log) && forall m :: m in ms && m.matchId in w.db.matches ==> m in w.log
  {
  }

  lemma {:induction false} NoExcess(t: Tables, ms: seq<Match>, k: BalanceKey)
    requires DistinctIds(ms) && AllPending(t, ms)
    ensures Excess(t, ms, k) == 0
  {
    if ms != [] {
      var init, last := ms[..|ms| - 1], ms[|ms| - 1];
      assert last in ms;
      assert forall m :: m in init ==> m in ms && m.matchId != last.matchId;
      NoExcess(t, init, k);
    }
  }

  /** A batch that is not distinct and PENDING has an excess on some lender's balance. */
  lemma {:induction false} SomeExcess(t: Tables, ms: seq<Match>) returns (bad: Match)
    requires !(DistinctIds(ms) && AllPending(t, ms))
    requires forall m :: m in ms ==> 0 < m.matchedAmount
    ensures bad in ms && 0 < Excess(t, ms, bad.LenderKey())
  {
    var init, last := ms[..|ms| - 1], ms[|ms| - 1];
    assert last in ms;
    if t.IsPending(last.matchId) && (forall m :: m in init ==> m.matchId != last.matchId) {
      assert forall m :: m in ms <==> m in init || m == last;
      assert forall i :: 0 <= i < |init| ==> ms[i] in init;
      bad := SomeExcess(t, init);
    } else {
      bad := last;
    }
  }

  lemma ExcessBreaks(w: World, ms: seq<Match>, reason: string, k: BalanceKey)
    requires Conserved(w) && Known(w, ms)
    requires k in w.base && k in w.db.balances && 0 < w.base[k] && 0 < Excess(w.db, ms, k)
    ensures !LocksConserved(w.(db := Cleanup(w.db, ms, reason, true, true, true)))
  {
    CleanupBalance(w, ms, reason, k);
    ShortAt(w, Cleanup(w.db, ms, reason, true, true, true), k, Excess(w.db, ms, k));
  }

  lemma ShortAt(w: World, after: Tables, k: BalanceKey, excess: nat)
    requires k in after.balances && k in w.base && 0 < w.base[k] && 0 < excess
    requires after.balances[k] == Greatest0(w.base[k] + Sum(w.log, PendingWeight(after.matches, k)) - excess)
    ensures !LocksConserved(w.(db := after))
  {
    assert after.balances[k] < w.base[k] + Sum(w.log, PendingWeight(after.matches, k));
  }

  lemma {:induction false} StaleExcess(t: Tables, ms: seq<Match>, m: Match)
    requires m in ms && !t.IsPending(m.matchId) && 0 < m.matchedAmount
    ensures 0 < Excess(t, ms, m.LenderKey())
  {
    var init, last := ms[..|ms| - 1], ms[|ms| - 1];
    if m != last {
      assert m in init;
      StaleExcess(t, init, m);
    }
  }

  /**
    A batch that quarantined one of its matches and is then cleaned up as a whole releases that
    match twice: whatever else the lender had reserved on the token is short by its share.
   */
  lemma CleanupAfterQuarantineBreaks(w: World, ms: seq<Match>, m: Match, first: string, reason: string)
    requires Conserved(w) && Known(w, ms) && m in ms && w.db.IsPending(m.matchId)
    requires m.LenderKey() in w.base && 0 < w.base[m.LenderKey()]
    ensures var w1 := w.(db := Apply(w.db, Quarantine(m, first)));
            Conserved(w1) && !LocksConserved(w1.(db := Cleanup(w1.db, ms, reason, true, true, true)))
  {
    assert m in w.log && 0 < m.matchedAmount && m.LenderKey() in w.db.balances;
    StepKeepsConserved(w, Attempt(Quarantine(m, first)));
    var w1 := w.(db := Apply(w.db, Quarantine(m, first)));
    ApplyMeans(w.db, Quarantine(m, first));
    StaleExcess(w1.db, ms, m);
    ExcessBreaks(w1, ms, reason, m.LenderKey());
  }

  /**
    Where every lender of the batch has some other reservation on the loan token, it is the
    refinement of the gated path if and only if its matches are distinct and all still PENDING.
   */
  lemma CleanupRefinesExactly(w: World, ms: seq<Match>, reason: string)
    requires Conserved(w) && Known(w, ms)
    requires forall m :: m in ms ==> 0 < m.matchedAmount && m.LenderKey() in w.base && 0 < w.base[m.LenderKey()]
    ensures Cleanup(w.db, ms, reason, true, true, true) == QuarantineAll(w.db, ms, reason) <==>
            DistinctIds(ms) && AllPending(w.db, ms)
  {
    if DistinctIds(ms) && AllPending(w.db, ms) {
      CleanupRefinesQuarantine(w.db, ms, reason);
    } else {
      var bad := SomeExcess(w.db, ms);
      ExcessBreaks(w, ms, reason, bad.LenderKey());
      QuarantineAllConserves(w, ms, reason);
    }
  }

  lemma {:induction false} QuarantineAllConserves(w: World, ms: seq<Match>, reason: string)
    requires Conserved(w) && Known(w, ms)
    ensures Conserved(w.(db := QuarantineAll(w.db, ms, reason)))
  {
    if ms != [] {
      var init, last := ms[..|ms| - 1], ms[|ms| - 1];
      assert last in ms && forall m :: m in init ==> m in ms;
      QuarantineAllConserves(w, init, reason);
      StepKeepsConserved(w.(db := QuarantineAll(w.db, init, reason)), Attempt(Quarantine(last, reason)));
    }
  }

  /**
    On a non-empty batch of distinct PENDING matches the failure path is the gated one if and only
    if all three of its transactions commit.
   */
  lemma CleanupNeedsAllThree(w: World, ms: seq<Match>, reason: string, u: bool, r: bool, s: bool)
    requires Conserved(w) && Known(w, ms) && ms != [] && DistinctIds(ms) && AllPending(w.db, ms)
    ensures Cleanup(w.db, ms, reason, u, r, s) == QuarantineAll(w.db, ms, reason) <==> u && r && s
  {
    var m := ms[0];
    assert m in ms && m in w.log;
    CleanupMeans(w.db, ms, reason, u, r, s);
    QuarantineAllMeans(w.db, ms, reason);
    UnlockingLowers(w, ms, reason, m);
    RestoringLowers(w, ms, reason, m);
    assert RecordedMatches(w.db.matches, ms, reason)[m.matchId] != w.db.matches[m.matchId];
  }

  lemma UnlockingLowers(w: World, ms: seq<Match>, reason: string, m: Match)
    requires Conserved(w) && Known(w, ms) && DistinctIds(ms) && AllPending(w.db, ms) && m in ms
    ensures UnlockedBalances(w.db.balances, ms) != w.db.balances
  {
    var k := m.LenderKey();
    assert m in w.log;
    ReleaseCovered(w, m, k);
    UnlockingLowersAt(w.db, ms, m, k);
  }

  lemma UnlockingLowersAt(t: Tables, ms: seq<Match>, m: Match, k: BalanceKey)
    requires DistinctIds(ms) && AllPending(t, ms) && m in ms
    requires k in t.balances && 0 < m.ShareAt(k) <= t.balances[k]
    ensures k in UnlockedBalances(t.balances, ms) && UnlockedBalances(t.balances, ms)[k] < t.balances[k]
  {
    UnlockingDrops(t, ms, k);
    DueCovers(t, ms, m, k);
  }

  lemma {:induction false} DueCovers(t: Tables, ms: seq<Match>, m: Match, k: BalanceKey)
    requires DistinctIds(ms) && AllPending(t, ms) && m in ms
    ensures m.ShareAt(k) <= Due(t, ms, k)
  {
    var init, last := ms[..|ms| - 1], ms[|ms| - 1];
    assert last in ms;
    assert forall x :: x in init ==> x in ms && x.matchId != last.matchId;
    if m != last {
      assert m in init;
      DueCovers(t, init, m, k);
    }
  }

  lemma RestoringLowers(w: World, ms: seq<Match>, reason: string, m: Match)
    requires Conserved(w) && Known(w, ms) && DistinctIds(ms) && AllPending(w.db, ms) && m in ms
    ensures AllRestoredOrders(w.db.orders, ms) != w.db.orders
  {
    var o := m.lendOrderId;
    assert m in w.log && 0 < m.matchedAmount;
    RestoreCovered(w, m, o);
    RestoringAtMost(w.db.orders, ms, m, o);
  }

  /** A batch restoration takes at least any one of its matches' fills off an order. */
  lemma {:induction false} RestoringAtMost(orders: map<OrderId, OrderRow>, ms: seq<Match>, m: Match, o: OrderId)
    requires o in orders && 0 <= orders[o].filledQuantity
    ensures o in AllRestoredOrders(orders, ms)
    ensures 0 <= AllRestoredOrders(orders, ms)[o].filledQuantity <= orders[o].filledQuantity
    ensures m in ms ==>
              AllRestoredOrders(orders, ms)[o].filledQuantity <= Greatest0(orders[o].filledQuantity - m.FillAt(o))
  {
    if ms != [] {
      var init, last := ms[..|ms| - 1], ms[|ms| - 1];
      RestoringAtMost(orders, init, m, o);
      assert !last.OnOrder(o) ==> last.FillAt(o) == 0;
      assert m in ms <==> m in init || m == last;
    }
  }
}
