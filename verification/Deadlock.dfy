/**
  No clamp and no deadlock among concurrent single-match transactions: the first because the
  tables conserve, the second because rows are always written in one order.
 */
module Deadlock {
  import opened Matches
  import opened Store
  import opened Ledger
  import opened FailurePath
  import opened RowLocks

  // ----- The clamp at statement level -----

  lemma {:induction false} ReleasedConcat(a: seq<Statement>, b: seq<Statement>, k: BalanceKey, o: OrderId)
    ensures ReleasedOn(a + b, k) == ReleasedOn(a, k) + ReleasedOn(b, k)
    ensures QuantityOn(a + b, o) == QuantityOn(a, o) + QuantityOn(b, o)
    ensures FeeOn(a + b, o) == FeeOn(a, o) + FeeOn(b, o)
    decreases a
  {
    if a == [] {
      assert a + b == b;
    } else {
      assert (a + b)[1..] == a[1..] + b;
      ReleasedConcat(a[1..], b, k, o);
    }
  }

  lemma ReleasedPair(a: Statement, b: Statement, k: BalanceKey, o: OrderId)
    ensures ReleasedOn([a, b], k) == (if a.Release? && a.key == k then a.share else 0) +
                                     (if b.Release? && b.key == k then b.share else 0)
    ensures QuantityOn([a, b], o) == (if a.Restore? && a.orderId == o then a.quantity else 0) +
                                     (if b.Restore? && b.orderId == o then b.quantity else 0)
    ensures FeeOn([a, b], o) == (if a.Restore? && a.orderId == o then a.fee else 0) +
                                (if b.Restore? && b.orderId == o then b.fee else 0)
  {
    assert [a, b][1..] == [b] && [b][1..] == [];
    assert FeeOn([b], o) == (if b.Restore? && b.orderId == o then b.fee else 0) + FeeOn([], o);
    assert ReleasedOn([b], k) == (if b.Release? && b.key == k then b.share else 0) + ReleasedOn([], k);
    assert QuantityOn([b], o) == (if b.Restore? && b.orderId == o then b.quantity else 0) + QuantityOn([], o);
  }

  /** A transaction releases on each row, and restores on each order, what its match holds there. */
  lemma ProgramTotals(j: Job, k: BalanceKey, o: OrderId)
    ensures ReleasedOn(Single(j).Statements(), k) == j.m.ShareAt(k)
    ensures QuantityOn(Single(j).Statements(), o) == if j.Writeback? then 0 else j.m.FillAt(o)
    ensures FeeOn(Single(j).Statements(), o) == if j.Writeback? then 0 else j.m.FeeAt(o)
  {
    var m := j.m;
    var rs := Releases(m);
    ReleasedPair(rs[0], rs[1], k, o);
    assert rs == [rs[0], rs[1]];
    var os := Restores(m);
    ReleasedPair(os[0], os[1], k, o);
    assert os == [os[0], os[1]];
    ReleasedConcat(os, rs, k, o);
    assert Single(j).Statements()[1..] == j.Body();
  }

  /** What is still to be taken off a row plus what has been taken never exceeds what the match holds. */
  lemma PrefixTotals(ss: seq<Statement>, pc: nat, k: BalanceKey, o: OrderId)
    requires pc < |ss|
    ensures ReleasedOn(ss[..pc], k) + Of(ss[pc], k, o).0 <= ReleasedOn(ss, k)
    ensures QuantityOn(ss[..pc], o) + Of(ss[pc], k, o).1 <= QuantityOn(ss, o)
    ensures FeeOn(ss[..pc], o) + Of(ss[pc], k, o).2 <= FeeOn(ss, o)
  {
    assert ss == ss[..pc] + ss[pc..];
    ReleasedConcat(ss[..pc], ss[pc..], k, o);
  }

  lemma ReleaseFits(c: Tables, j: Job, pc: nat)
    requires var ss := Single(j).Statements(); pc < |ss| && ss[pc].Release?
    requires var k := Single(j).Statements()[pc].key; k in c.balances && j.m.ShareAt(k) <= c.balances[k]
    ensures var ss := Single(j).Statements();
            var seen := ExecuteAll(c, ss[..pc]);
            ss[pc].key in seen.balances && ss[pc].share <= seen.balances[ss[pc].key]
  {
    var ss := Single(j).Statements();
    var k := ss[pc].key;
    ProgramTotals(j, k, 0);
    PrefixTotals(ss, pc, k, 0);
    ClampedOnce(c, ss[..pc], k);
  }

  /** The row a statement updates still holds what the statement takes off it, so no GREATEST bites. */
  predicate Covered(t: Tables, s: Statement) {
    && (s.Release? ==> s.key in t.balances && s.share <= t.balances[s.key])
    && (s.Restore? ==>
          && s.orderId in t.orders
          && s.quantity <= t.orders[s.orderId].filledQuantity
          && s.fee <= t.orders[s.orderId].filledSettlementFee)
  }

  lemma RestoreFits(c: Tables, j: Job, pc: nat)
    requires var ss := Single(j).Statements(); pc < |ss| && ss[pc].Restore?
    requires var o := Single(j).Statements()[pc].orderId;
             && o in c.orders
             && j.m.FillAt(o) <= c.orders[o].filledQuantity && j.m.FeeAt(o) <= c.orders[o].filledSettlementFee
    ensures Covered(ExecuteAll(c, Single(j).Statements()[..pc]), Single(j).Statements()[pc])
  {
    var ss := Single(j).Statements();
    var o := ss[pc].orderId;
    ProgramTotals(j, (0, 0), o);
    PrefixTotals(ss, pc, (0, 0), o);
    RestoredOnce(c, ss[..pc], o);
  }

  /** What an open transaction past its gate sees. */
  lemma PastGate(w: World, tx: Tx)
    requires TxInv(w, tx) && Unfinished(tx) && !NextStatement(tx).Flip?
    ensures w.db.IsPending(tx.program.job.m.matchId)
    ensures Overlay(w.db, tx.local) == ExecuteAll(w.db, tx.program.Statements()[..tx.pc])
    ensures Has(w.db, KeyOf(NextStatement(tx)))
    ensures Enabled(w, Attempt(tx.program.job))
  {
    GateFirst(tx.program.job);
  }

  lemma NextFits(w: World, j: Job, pc: nat)
    requires Conserved(w) && Enabled(w, Attempt(j)) && w.db.IsPending(j.m.matchId)
    requires var ss := Single(j).Statements(); pc < |ss| && Has(w.db, KeyOf(ss[pc]))
    ensures Covered(ExecuteAll(w.db, Single(j).Statements()[..pc]), Single(j).Statements()[pc])
  {
    var s := Single(j).Statements()[pc];
    if s.Release? {
      ReleaseCovered(w, j.m, s.key);
      ReleaseFits(w.db, j, pc);
    }
    if s.Restore? {
      RestoreCovered(w, j.m, s.orderId);
      RestoreFits(w.db, j, pc);
    }
  }

  /** At every statement of every interleaving the row still holds what the statement takes off it. */
  lemma ClampNeverBites(w: World, tx: Tx)
    requires Conserved(w) && TxInv(w, tx) && Unfinished(tx)
    ensures Covered(Overlay(w.db, tx.local), NextStatement(tx))
  {
    if !NextStatement(tx).Flip? {
      PastGate(w, tx);
      NextFits(w, tx.program.job, tx.pc);
    }
  }

  // ----- Deadlock freedom -----

  /** The order rows are written in: match, lend orders, borrow orders, balances by token and wallet. */
  function Place(key: Key, lends: set<OrderId>): (int, int, int) {
    match key
    case MatchRowKey(id) => (0, id, 0)
    case OrderRowKey(o) => (if o in lends then 1 else 2, o, 0)
    case BalanceRowKey(k) => (3, k.1, k.0)
  }

  predicate Before(a: (int, int, int), b: (int, int, int)) {
    a.0 < b.0 || (a.0 == b.0 && (a.1 < b.1 || (a.1 == b.1 && a.2 < b.2)))
  }

  /** Each order id is used on one side only, and every open transaction is a single-match one. */
  ghost predicate Sided(st: State, lends: set<OrderId>) {
    forall t {:trigger st.txs[t]} :: t in st.txs ==>
      && st.txs[t].program.Single?
      && st.txs[t].program.job.m.lendOrderId in lends
      && st.txs[t].program.job.m.borrowOrderId !in lends
  }

  /** A statement of a program writes a row placed after every earlier row, or a row already written. */
  lemma ProgramsAscend(j: Job, lends: set<OrderId>, i: nat, n: nat)
    requires j.m.lendOrderId in lends && j.m.borrowOrderId !in lends
    requires var ss := Single(j).Statements(); i < n < |ss|
    ensures var ss := Single(j).Statements();
            KeyOf(ss[i]) == KeyOf(ss[n]) || Before(Place(KeyOf(ss[i]), lends), Place(KeyOf(ss[n]), lends))
  {
    var m := j.m;
    assert forall r :: r in Releases(m) ==> KeyOf(r).BalanceRowKey?;
    if j.Writeback? {
      assert Single(j).Statements() == [j.Gate(), Releases(m)[0], Releases(m)[1]];
    } else {
      assert Single(j).Statements() == [j.Gate(), Restores(m)[0], Restores(m)[1], Releases(m)[0], Releases(m)[1]];
    }
  }

  /** Whatever a program writes later is placed after every row it wrote before, or is such a row. */
  ghost predicate InOrder(p: Program, lends: set<OrderId>) {
    var ss := p.Statements();
    forall i, n {:trigger ss[i], ss[n]} :: 0 <= i < n < |ss| ==>
      KeyOf(ss[i]) == KeyOf(ss[n]) || Before(Place(KeyOf(ss[i]), lends), Place(KeyOf(ss[n]), lends))
  }

  ghost predicate AllInOrder(st: State, lends: set<OrderId>) {
    forall t {:trigger st.txs[t]} :: t in st.txs ==> InOrder(st.txs[t].program, lends)
  }

  lemma SidedIsInOrder(st: State, lends: set<OrderId>)
    requires Sided(st, lends)
    ensures AllInOrder(st, lends)
  {
    forall t | t in st.txs ensures InOrder(st.txs[t].program, lends) {
      var ss := st.txs[t].program.Statements();
      forall i, n | 0 <= i < n < |ss|
        ensures KeyOf(ss[i]) == KeyOf(ss[n]) || Before(Place(KeyOf(ss[i]), lends), Place(KeyOf(ss[n]), lends))
      {
        ProgramsAscend(st.txs[t].program.job, lends, i, n);
      }
    }
  }

  /** Every row a transaction has written is the row of a statement it has run. */
  ghost predicate WroteOnlyRun(tx: Tx) {
    && tx.pc <= |tx.program.Statements()|
    && forall key :: Has(tx.local, key) ==> exists i :: 0 <= i < tx.pc && KeyOf(tx.program.Statements()[i]) == key
  }

  ghost predicate AllHold(st: State) {
    forall t {:trigger st.txs[t]} :: t in st.txs ==> WroteOnlyRun(st.txs[t])
  }

  /** What row locks keep, whatever the programs: rows belong to one transaction, which has run what wrote them. */
  ghost predicate Held(st: State) {
    AllHold(st) && Exclusive(st.txs)
  }

  lemma RanWroteOnlyRun(db: Tables, tx: Tx)
    requires WroteOnlyRun(tx) && Unfinished(tx)
    ensures WroteOnlyRun(Ran(db, tx))
  {
    var tx' := Ran(db, tx);
    var ss := tx.program.Statements();
    var view := Overlay(db, tx.local);
    forall key | Has(tx'.local, key) ensures exists i :: 0 <= i < tx'.pc && KeyOf(tx'.program.Statements()[i]) == key {
      if Has(tx.local, key) {
        var i :| 0 <= i < tx.pc && KeyOf(ss[i]) == key;
      } else {
        WrittenHas(tx.local, view, ss[tx.pc], key);
        assert KeyOf(ss[tx.pc]) == key;
      }
    }
  }

  lemma ActionKeepsHeld(st: State, a: Action)
    requires Held(st) && CanDo(st, a)
    ensures Held(Do(st, a))
  {
    match a
    case Begin(t, p) => FreshExclusive(st.txs, t, p);
    case Exec(t) =>
      RanWroteOnlyRun(st.world.db, st.txs[t]);
      ExecKeepsExclusive(st.world.db, st.txs, t);
    case Commit(_) =>
    case Rollback(_) =>
    case Outside(_) =>
  }

  lemma {:induction false} RunKeepsHeld(st: State, actions: seq<Action>, st': State)
    requires Held(st) && Reaches(st, actions, st')
    ensures Held(st')
    decreases actions
  {
    if actions != [] {
      ActionKeepsHeld(st, actions[0]);
      RunKeepsHeld(Do(st, actions[0]), actions[1..], st');
    }
  }

  function Wanted(st: State, lends: set<OrderId>, t: TxId): (int, int, int)
    requires t in st.txs && Unfinished(st.txs[t])
  {
    Place(KeyOf(NextStatement(st.txs[t])), lends)
  }

  /** Among some waiting transactions, one that wants a row placed no earlier than any other wants. */
  lemma {:induction false} LastWanted(st: State, lends: set<OrderId>, ts: set<TxId>) returns (t: TxId)
    requires ts != {} && ts <= st.txs.Keys && forall u :: u in ts ==> Unfinished(st.txs[u])
    ensures t in ts && forall u :: u in ts ==> !Before(Wanted(st, lends, t), Wanted(st, lends, u))
    decreases ts
  {
    t :| t in ts;
    if ts != {t} {
      var rest := ts - {t};
      assert rest != {};
      var last := LastWanted(st, lends, rest);
      if Before(Wanted(st, lends, t), Wanted(st, lends, last)) {
        t := last;
      }
    }
  }

  /** Who a waiting transaction waits for wants a row placed strictly later, if it waits at all. */
  lemma WaitingAscends(st: State, lends: set<OrderId>, t: TxId, holder: TxId)
    requires Held(st) && AllInOrder(st, lends)
    requires t in st.txs && holder in st.txs && Unfinished(st.txs[t])
    requires Has(st.txs[holder].local, KeyOf(NextStatement(st.txs[t])))
    requires Waits(st, holder)
    ensures Before(Wanted(st, lends, t), Wanted(st, lends, holder))
  {
    var key := KeyOf(NextStatement(st.txs[t]));
    var tx := st.txs[holder];
    var i :| 0 <= i < tx.pc && KeyOf(tx.program.Statements()[i]) == key;
    assert InOrder(tx.program, lends);
    var next := KeyOf(NextStatement(tx));
    var other :| other in st.txs && other != holder && Has(st.txs[other].local, next);
    DisjointKeys(st.txs[holder].local, st.txs[other].local);
  }

  /**
    Among any number of open transactions whose programs write rows in one order, batches included,
    some one can run its next statement or commit: they never wait for each other in a circle.
   */
  lemma DeadlockFree(st: State, lends: set<OrderId>) returns (t: TxId)
    requires Held(st) && AllInOrder(st, lends) && st.txs != map[]
    ensures t in st.txs && (CanDo(st, Exec(t)) || CanDo(st, Commit(t)))
  {
    hide Held, AllInOrder;
    if forall u :: u in st.txs ==> Waits(st, u) {
      NoCircle(st, lends);
    }
    t :| t in st.txs && !Waits(st, t);
  }

  lemma HolderOf(st: State, t: TxId) returns (holder: TxId)
    requires t in st.txs && Waits(st, t)
    ensures Unfinished(st.txs[t]) && holder in st.txs && Has(st.txs[holder].local, KeyOf(NextStatement(st.txs[t])))
  {
    holder :| holder in st.txs && holder != t && Has(st.txs[holder].local, KeyOf(NextStatement(st.txs[t])));
  }

  lemma NoCircle(st: State, lends: set<OrderId>)
    requires Held(st) && AllInOrder(st, lends) && st.txs != map[]
    ensures exists u :: u in st.txs && !Waits(st, u)
  {
    hide Held, AllInOrder, Wanted, Before, Waits, Unfinished;
    if forall u :: u in st.txs ==> Waits(st, u) {
      forall u | u in st.txs ensures Unfinished(st.txs[u]) {
        var _ := HolderOf(st, u);
      }
      var t := LastWanted(st, lends, st.txs.Keys);
      var holder := HolderOf(st, t);
      WaitingAscends(st, lends, t, holder);
    }
  }

  /** In every reachable state, whatever mix of single matches and ordered batches is open. */
  lemma ReachableDeadlockFree(actions: seq<Action>, st: State, lends: set<OrderId>) returns (t: TxId)
    requires Reaches(START, actions, st) && AllInOrder(st, lends) && st.txs != map[]
    ensures t in st.txs && (CanDo(st, Exec(t)) || CanDo(st, Commit(t)))
  {
    RunKeepsHeld(START, actions, st);
    t := DeadlockFree(st, lends);
  }

  /** Single-match transactions are in order by themselves if each order id is used on one side only. */
  lemma SingleMatchesDeadlockFree(actions: seq<Action>, st: State, lends: set<OrderId>) returns (t: TxId)
    requires Reaches(START, actions, st) && Sided(st, lends) && st.txs != map[]
    ensures t in st.txs && (CanDo(st, Exec(t)) || CanDo(st, Commit(t)))
  {
    SidedIsInOrder(st, lends);
    t := ReachableDeadlockFree(actions, st, lends);
  }

  // ----- Everything open can finish -----

  function Load(txs: map<TxId, Tx>, t: TxId): nat {
    if t in txs then Greatest0(|txs[t].program.Statements()| - txs[t].pc) + 1 else 0
  }

  /** Statements and commits still to come, over a list that names every open transaction. */
  function Work(txs: map<TxId, Tx>, ids: seq<TxId>): nat {
    if ids == [] then 0 else Work(txs, ids[..|ids| - 1]) + Load(txs, ids[|ids| - 1])
  }

  lemma {:induction false} WorkDrops(txs: map<TxId, Tx>, txs': map<TxId, Tx>, t: TxId, ids: seq<TxId>)
    requires forall u :: u != t ==> Load(txs', u) == Load(txs, u)
    requires Load(txs', t) < Load(txs, t)
    ensures Work(txs', ids) <= Work(txs, ids)
    ensures t in ids ==> Work(txs', ids) < Work(txs, ids)
  {
    if ids != [] {
      WorkDrops(txs, txs', t, ids[..|ids| - 1]);
    }
  }

  /** A transaction's own next step, statement or commit. */
  function Onward(st: State, t: TxId): Action
    requires t in st.txs
  {
    if Unfinished(st.txs[t]) then Exec(t) else Commit(t)
  }

  lemma OnwardLessWork(st: State, t: TxId, ids: seq<TxId>)
    requires t in st.txs && t in ids && CanDo(st, Onward(st, t)) && WroteOnlyRun(st.txs[t])
    ensures Work(Do(st, Onward(st, t)).txs, ids) < Work(st.txs, ids)
  {
    WorkDrops(st.txs, Do(st, Onward(st, t)).txs, t, ids);
  }

  lemma OnwardKeepsOrder(st: State, t: TxId, lends: set<OrderId>)
    requires t in st.txs && CanDo(st, Onward(st, t)) && AllInOrder(st, lends)
    ensures AllInOrder(Do(st, Onward(st, t)), lends)
    ensures Do(st, Onward(st, t)).txs.Keys <= st.txs.Keys
  {
  }

  /**
    All such open transactions can be run to their commits, none rolled back: there is always an
    order of remaining statements in which nobody waits. Single-match ones conserve all the way.
   */
  lemma {:induction false} EverythingCanCommit(st: State, lends: set<OrderId>, ids: seq<TxId>)
    returns (actions: seq<Action>, st': State)
    requires Held(st) && AllInOrder(st, lends) && forall t :: t in st.txs ==> t in ids
    ensures Reaches(st, actions, st') && st'.txs == map[]
    ensures forall i :: 0 <= i < |actions| ==> actions[i].Exec? || actions[i].Commit?
    ensures RowLocks.Inv(st) ==> RowLocks.Inv(st')
    decreases Work(st.txs, ids)
  {
    hide RowLocks.Inv, Held, AllInOrder, Work, CanDo, Do;
    if st.txs == map[] {
      return [], st;
    }
    var t := SomeoneMoves(st, lends);
    var a := Onward(st, t);
    var next := Do(st, a);
    OneTx(st, t);
    OnwardLessWork(st, t, ids);
    OnwardKeepsOrder(st, t, lends);
    ActionKeepsHeld(st, a);
    if RowLocks.Inv(st) {
      RowLocks.ActionKeepsInv(st, a);
    }
    var rest;
    rest, st' := EverythingCanCommit(next, lends, ids);
    actions := [a] + rest;
    assert actions[1..] == rest;
  }

  lemma OneTx(st: State, t: TxId)
    requires Held(st) && t in st.txs
    ensures WroteOnlyRun(st.txs[t])
  {
  }

  lemma SomeoneMoves(st: State, lends: set<OrderId>) returns (t: TxId)
    requires Held(st) && AllInOrder(st, lends) && st.txs != map[]
    ensures t in st.txs && CanDo(st, Onward(st, t))
  {
    hide AllInOrder, Held;
    t := DeadlockFree(st, lends);
  }
}
