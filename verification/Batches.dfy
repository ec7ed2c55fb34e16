/**
  Two transactions side by side, single matches or the big ones of the failure path. Within a match
  rows come in a fixed order, across a batch they do not: exactly when two can end up waiting for
  each other.
 */
module Batches {
  import opened Matches
  import opened Store
  import opened Ledger
  import opened FailurePath
  import opened RowLocks
  import opened Deadlock

  /** The rows a list of statements locks: those that exist. */
  function Rows(ss: seq<Statement>, t: Tables): set<Key> {
    if ss == [] then {}
    else
      var key := KeyOf(ss[|ss| - 1]);
      Rows(ss[..|ss| - 1], t) + if Has(t, key) then {key} else {}
  }

  /** A single match whose gate finds no PENDING row runs nothing and locks nothing. */
  predicate Passes(p: Program, t: Tables) {
    p.Single? ==> t.IsPending(p.job.m.matchId)
  }

  /** What a program has locked after its first n statements. */
  function Locked(p: Program, t: Tables, n: nat): set<Key>
    requires n <= |p.Statements()|
  {
    if Passes(p, t) then Rows(p.Statements()[..n], t) else {}
  }

  /** A gate is a single match's first statement, and there is no other. */
  predicate Gated(p: Program) {
    forall i :: 0 <= i < |p.Statements()| && p.Statements()[i].Flip? ==>
                  p.Single? && i == 0 && p.Statements()[0] == p.job.Gate()
  }

  lemma {:induction false} UnlocksRelease(ms: seq<Match>)
    ensures forall s :: s in UnlockStatements(ms) ==> s.Release?
  {
    if ms != [] {
      UnlocksRelease(ms[..|ms| - 1]);
    }
  }

  lemma {:induction false} RecordsRecord(ms: seq<Match>, reason: string)
    ensures forall s :: s in RecordStatements(ms, reason) ==> s.Record?
  {
    if ms != [] {
      RecordsRecord(ms[..|ms| - 1], reason);
    }
  }

  lemma {:induction false} RestoresRestore(ms: seq<Match>)
    ensures forall s :: s in RestoreStatements(ms) ==> s.Restore?
  {
    if ms != [] {
      RestoresRestore(ms[..|ms| - 1]);
    }
  }

  lemma ProgramsAreGated(p: Program)
    ensures Gated(p)
  {
    assert forall i :: 0 <= i < |p.Statements()| ==> p.Statements()[i] in p.Statements();
    match p
    case Single(j) => GateFirst(j);
    case Unlock(ms) => UnlocksRelease(ms);
    case RecordBatch(ms, reason) => RecordsRecord(ms, reason);
    case RestoreBatch(ms) => RestoresRestore(ms);
  }

  lemma RowsNext(ss: seq<Statement>, t: Tables, n: nat)
    requires n < |ss|
    ensures Rows(ss[..n + 1], t) == Rows(ss[..n], t) + if Has(t, KeyOf(ss[n])) then {KeyOf(ss[n])} else {}
  {
    assert ss[..n + 1][..n] == ss[..n];
  }

  lemma {:induction false} RowsExistIn(ss: seq<Statement>, t: Tables, key: Key)
    requires key in Rows(ss, t)
    ensures Has(t, key)
  {
    if key in Rows(ss[..|ss| - 1], t) {
      RowsExistIn(ss[..|ss| - 1], t, key);
    }
  }

  lemma {:induction false} RowsGrow(ss: seq<Statement>, t: Tables, m: nat, n: nat)
    requires m <= n <= |ss|
    ensures Rows(ss[..m], t) <= Rows(ss[..n], t)
  {
    if m < n {
      RowsGrow(ss, t, m, n - 1);
      assert ss[..n][..n - 1] == ss[..n - 1];
    }
  }

  /** After i statements of one and j of the other, each wants a row the other holds. */
  ghost predicate Crossed(p: Program, q: Program, t: Tables, i: nat, j: nat) {
    && i < |p.Statements()| && j < |q.Statements()|
    && Locked(p, t, i) !! Locked(q, t, j)
    && KeyOf(p.Statements()[i]) in Locked(q, t, j) && KeyOf(q.Statements()[j]) in Locked(p, t, i)
  }

  /** An open transaction that holds exactly the rows it has run over. */
  ghost predicate Running(tx: Tx, p: Program, t: Tables) {
    && tx.program == p && tx.pc <= |p.Statements()|
    && (!Passes(p, t) ==> tx.pc == 0 || tx.pc == |p.Statements()|)
    && forall key :: Has(tx.local, key) <==> key in Locked(p, t, tx.pc)
  }

  /** Two such and nothing else. */
  ghost predicate Both(st: State, w: World, t: TxId, u: TxId, p: Program, q: Program) {
    && t != u && st.world == w && st.txs.Keys == {t, u}
    && Running(st.txs[t], p, w.db) && Running(st.txs[u], q, w.db)
    && Locked(p, w.db, st.txs[t].pc) !! Locked(q, w.db, st.txs[u].pc)
  }

  function Begun(w: World, t: TxId, u: TxId, p: Program, q: Program): State {
    State(w, map[t := Tx(p, 0, NONE), u := Tx(q, 0, NONE)])
  }

  /** A run of the two transactions' own statements. */
  ghost predicate Race(st: State, actions: seq<Action>, st': State, t: TxId, u: TxId) {
    Reaches(st, actions, st') && forall i :: 0 <= i < |actions| ==> actions[i] == Exec(t) || actions[i] == Exec(u)
  }

  /** What the next statement finds: its row, if the program passes its gate. */
  lemma NextSelects(tx: Tx, p: Program, t: Tables)
    requires Running(tx, p, t) && Unfinished(tx)
    ensures Selects(Overlay(t, tx.local), NextStatement(tx)) <==> Passes(p, t) && Has(t, KeyOf(NextStatement(tx)))
    ensures !Passes(p, t) ==> NextStatement(tx).Flip?
    ensures NextStatement(tx).Flip? && Passes(p, t) ==> Has(t, KeyOf(NextStatement(tx)))
  {
    ProgramsAreGated(p);
    var s := NextStatement(tx);
    forall key | Has(tx.local, key) ensures Has(t, key) {
      RowsExistIn(p.Statements()[..tx.pc], t, key);
    }
    assert Has(Overlay(t, tx.local), KeyOf(s)) <==> Has(t, KeyOf(s));
    if s.Flip? {
      assert tx.pc == 0 && Locked(p, t, 0) == {};
      assert !Has(tx.local, KeyOf(s));
    }
  }

  lemma RanRuns(tx: Tx, p: Program, t: Tables)
    requires Running(tx, p, t) && Unfinished(tx)
    ensures Running(Ran(t, tx), p, t) && (Passes(p, t) ==> Ran(t, tx).pc == tx.pc + 1)
    ensures Locked(p, t, Ran(t, tx).pc) ==
            Locked(p, t, tx.pc) +
            if Selects(Overlay(t, tx.local), NextStatement(tx)) then {KeyOf(NextStatement(tx))} else {}
  {
    hide Selects, Overlay;
    NextSelects(tx, p, t);
    RowsNext(p.Statements(), t, tx.pc);
    var view := Overlay(t, tx.local);
    var s := NextStatement(tx);
    if Selects(view, s) {
      forall key ensures Has(Written(tx.local, view, s), key) <==> Has(tx.local, key) || key == KeyOf(s) {
        WrittenHas(tx.local, view, s, key);
      }
    }
  }

  lemma BothSwap(st: State, w: World, t: TxId, u: TxId, p: Program, q: Program)
    requires Both(st, w, t, u, p, q)
    ensures Both(st, w, u, t, q, p)
  {
  }

  /** One waits exactly when it is past or passes its gate and wants a row the other holds. */
  lemma WaitsExactly(st: State, w: World, t: TxId, u: TxId, p: Program, q: Program)
    requires Both(st, w, t, u, p, q)
    ensures Waits(st, t) <==>
              && st.txs[t].pc < |p.Statements()| && Passes(p, w.db)
              && KeyOf(p.Statements()[st.txs[t].pc]) in Locked(q, w.db, st.txs[u].pc)
  {
    if Unfinished(st.txs[t]) {
      NextSelects(st.txs[t], p, w.db);
      var key := KeyOf(NextStatement(st.txs[t]));
      assert HeldByOther(st, t, key) <==> Has(st.txs[u].local, key) by {
        assert u in st.txs && u != t;
      }
      if key in Locked(q, w.db, st.txs[u].pc) {
        RowsExistIn(q.Statements()[..st.txs[u].pc], w.db, key);
      }
    }
  }

  /** A step of one that does not wait. */
  lemma StepKeepsBoth(st: State, w: World, t: TxId, u: TxId, p: Program, q: Program)
    requires Both(st, w, t, u, p, q) && CanDo(st, Exec(t))
    ensures var st' := Do(st, Exec(t));
            && Both(st', w, t, u, p, q) && st'.txs[u] == st.txs[u]
            && (Passes(p, w.db) ==> st'.txs[t].pc == st.txs[t].pc + 1)
  {
    hide Selects, Overlay, Ran;
    WaitsExactly(st, w, t, u, p, q);
    NextSelects(st.txs[t], p, w.db);
    RanRuns(st.txs[t], p, w.db);
  }

  lemma {:induction false} RaceKeepsBoth(st: State, actions: seq<Action>, st': State, w: World, t: TxId, u: TxId,
                                         p: Program, q: Program)
    requires Both(st, w, t, u, p, q) && Race(st, actions, st', t, u)
    ensures Both(st', w, t, u, p, q)
    decreases actions
  {
    hide Both, CanDo, Do;
    if actions != [] {
      var next := Do(st, actions[0]);
      if actions[0] == Exec(t) {
        StepKeepsBoth(st, w, t, u, p, q);
      } else {
        BothSwap(st, w, t, u, p, q);
        StepKeepsBoth(st, w, u, t, q, p);
        BothSwap(next, w, u, t, q, p);
      }
      forall i | 0 <= i < |actions[1..]| ensures actions[1..][i] == Exec(t) || actions[1..][i] == Exec(u) {
        assert actions[1..][i] == actions[i + 1];
      }
      RaceKeepsBoth(next, actions[1..], st', w, t, u, p, q);
    }
  }

  /** One that passes its gate can run on up to a point whose rows the other does not hold. */
  lemma {:induction false} RunOn(st: State, w: World, t: TxId, u: TxId, p: Program, q: Program, n: nat)
    returns (actions: seq<Action>, st': State)
    requires Both(st, w, t, u, p, q) && Passes(p, w.db) && st.txs[t].pc <= n <= |p.Statements()|
    requires Locked(p, w.db, n) !! Locked(q, w.db, st.txs[u].pc)
    ensures Race(st, actions, st', t, u) && Both(st', w, t, u, p, q) && st'.txs[t].pc == n && st'.txs[u] == st.txs[u]
    decreases n - st.txs[t].pc
  {
    hide Running, CanDo, Locked, Do;
    var pc := st.txs[t].pc;
    if pc == n {
      return [], st;
    }
    NoWait(st, w, t, u, p, q, n);
    StepKeepsBoth(st, w, t, u, p, q);
    var rest;
    rest, st' := RunOn(Do(st, Exec(t)), w, t, u, p, q, n);
    actions := [Exec(t)] + rest;
    assert actions[1..] == rest;
  }

  lemma NoWait(st: State, w: World, t: TxId, u: TxId, p: Program, q: Program, n: nat)
    requires Both(st, w, t, u, p, q) && Passes(p, w.db) && st.txs[t].pc < n <= |p.Statements()|
    requires Locked(p, w.db, n) !! Locked(q, w.db, st.txs[u].pc)
    ensures CanDo(st, Exec(t))
  {
    var pc := st.txs[t].pc;
    var key := KeyOf(p.Statements()[pc]);
    WaitsExactly(st, w, t, u, p, q);
    RowsNext(p.Statements(), w.db, pc);
    RowsGrow(p.Statements(), w.db, pc + 1, n);
    if key in Locked(q, w.db, st.txs[u].pc) {
      RowsExistIn(q.Statements()[..st.txs[u].pc], w.db, key);
    }
  }

  lemma RaceThen(st: State, a: seq<Action>, st1: State, b: seq<Action>, st2: State, t: TxId, u: TxId)
    requires Race(st, a, st1, t, u) && Race(st1, b, st2, t, u)
    ensures Race(st, a + b, st2, t, u)
  {
    ReachesOn(st, a, st1, b, st2);
  }

  lemma {:induction false} ReachesOn(st: State, a: seq<Action>, st1: State, b: seq<Action>, st2: State)
    requires Reaches(st, a, st1) && Reaches(st1, b, st2)
    ensures Reaches(st, a + b, st2)
    decreases a
  {
    if a == [] {
      assert a + b == b;
    } else {
      assert (a + b)[1..] == a[1..] + b;
      ReachesOn(Do(st, a[0]), a[1..], st1, b, st2);
    }
  }

  lemma BegunIsBoth(w: World, t: TxId, u: TxId, p: Program, q: Program)
    requires t != u
    ensures Both(Begun(w, t, u, p, q), w, t, u, p, q)
  {
    assert p.Statements()[..0] == [] && q.Statements()[..0] == [];
  }

  ghost predicate Stuck(st: State, t: TxId, u: TxId) {
    t in st.txs && u in st.txs && Waits(st, t) && Waits(st, u)
  }

  /**
    Two transactions, single matches or batches of any kind, from their first statements on, can
    reach a state in which both wait if and only if there is a point in each at which the rows locked
    so far are disjoint and each next row is one the other has locked. Rows that do not exist are not
    locked, nor is anything by a single match that is no longer PENDING.
   */
  lemma TwoDeadlockExactly(w: World, t: TxId, u: TxId, p: Program, q: Program)
    requires t != u
    ensures (exists actions, st :: Race(Begun(w, t, u, p, q), actions, st, t, u) && Stuck(st, t, u)) <==>
            (exists i: nat, j: nat :: Crossed(p, q, w.db, i, j))
  {
    hide Crossed, Both, Stuck, Race;
    if exists i: nat, j: nat :: Crossed(p, q, w.db, i, j) {
      var i: nat, j: nat :| Crossed(p, q, w.db, i, j);
      var actions, st := RunIntoEachOther(w, t, u, p, q, i, j);
    }
    if actions, st :| Race(Begun(w, t, u, p, q), actions, st, t, u) && Stuck(st, t, u) {
      BegunIsBoth(w, t, u, p, q);
      RaceKeepsBoth(Begun(w, t, u, p, q), actions, st, w, t, u, p, q);
      StuckIsCrossed(st, w, t, u, p, q);
    }
  }

  lemma StuckIsCrossed(st: State, w: World, t: TxId, u: TxId, p: Program, q: Program)
    requires Both(st, w, t, u, p, q)
    ensures t in st.txs && u in st.txs
    ensures Stuck(st, t, u) <==> Crossed(p, q, w.db, st.txs[t].pc, st.txs[u].pc)
  {
    hide Running, Waits;
    WaitsExactly(st, w, t, u, p, q);
    BothSwap(st, w, t, u, p, q);
    WaitsExactly(st, w, u, t, q, p);
  }

  lemma RunIntoEachOther(w: World, t: TxId, u: TxId, p: Program, q: Program, i: nat, j: nat)
    returns (actions: seq<Action>, st: State)
    requires t != u && Crossed(p, q, w.db, i, j)
    ensures Race(Begun(w, t, u, p, q), actions, st, t, u) && Stuck(st, t, u)
    ensures st.world == w && st.txs.Keys == {t, u} && st.txs[t].pc == i && st.txs[u].pc == j
    ensures st.txs[t].program == p && st.txs[u].program == q
  {
    hide Race, Stuck;
    var start := Begun(w, t, u, p, q);
    BegunIsBoth(w, t, u, p, q);
    NothingLocked(q, w.db);
    var first, st1 := RunOn(start, w, t, u, p, q, i);
    BothSwap(st1, w, t, u, p, q);
    var second;
    second, st := RunOn(st1, w, u, t, q, p, j);
    BothSwap(st, w, u, t, q, p);
    RaceSwap(st1, second, st, t, u);
    RaceThen(start, first, st1, second, st, t, u);
    actions := first + second;
    StuckIsCrossed(st, w, t, u, p, q);
  }

  lemma RaceSwap(st: State, actions: seq<Action>, st': State, t: TxId, u: TxId)
    requires Race(st, actions, st', u, t)
    ensures Race(st, actions, st', t, u)
  {
  }

  lemma NothingLocked(p: Program, t: Tables)
    ensures Locked(p, t, 0) == {}
  {
    assert p.Statements()[..0] == [];
  }

  /** Two transactions that lock the same rows in the same order never end up so. */
  lemma SameOrderNeverDeadlocks(w: World, t: TxId, u: TxId, p: Program)
    requires t != u
    ensures !exists actions, st :: Race(Begun(w, t, u, p, p), actions, st, t, u) && Stuck(st, t, u)
  {
    if i: nat, j: nat :| Crossed(p, p, w.db, i, j) {
      if i <= j {
        RowsGrow(p.Statements(), w.db, i, j);
      } else {
        RowsGrow(p.Statements(), w.db, j, i);
      }
      assert false;
    }
    TwoDeadlockExactly(w, t, u, p, p);
  }

  // ----- A run from the empty tables -----

  const FIRST := Match(1, 10, 20, 1, 2, 9, 5, 0, 0, 0, 1, true)
  const SECOND := Match(2, 11, 21, 2, 3, 9, 5, 0, 0, 0, 1, true)

  lemma Outward(actions: seq<Action>, w: World, s: Step) returns (more: seq<Action>)
    requires Reaches(START, actions, State(w, map[])) && Enabled(w, s) && !s.Attempt?
    ensures Reaches(START, more, State(Next(w, s), map[]))
  {
    more := actions + [Outside(s)];
    assert CanDo(State(w, map[]), Outside(s));
    assert [Outside(s)][1..] == [];
    assert Reaches(Do(State(w, map[]), Outside(s)), [], State(Next(w, s), map[]));
    ReachesOn(START, actions, State(w, map[]), [Outside(s)], State(Next(w, s), map[]));
  }

  /** A reached state with no matches, these orders and these balances. */
  ghost predicate Prepared(actions: seq<Action>, w: World, os: set<OrderId>, ks: set<BalanceKey>) {
    && Reaches(START, actions, State(w, map[]))
    && w.log == [] && w.db.matches == map[]
    && w.db.orders.Keys == os && w.db.balances.Keys == ks && w.base.Keys == ks
  }

  lemma PrepareOrder(actions: seq<Action>, w: World, os: set<OrderId>, ks: set<BalanceKey>, o: OrderId)
    returns (more: seq<Action>, w': World)
    requires Prepared(actions, w, os, ks) && o !in os
    ensures Prepared(more, w', os + {o}, ks)
  {
    hide Reaches;
    more := Outward(actions, w, OpenOrder(o));
    w' := Next(w, OpenOrder(o));
  }

  lemma PrepareBalance(actions: seq<Action>, w: World, os: set<OrderId>, ks: set<BalanceKey>, k: BalanceKey)
    returns (more: seq<Action>, w': World)
    requires Prepared(actions, w, os, ks) && k !in ks
    ensures Prepared(more, w', os, ks + {k})
  {
    hide Reaches;
    more := Outward(actions, w, OpenBalance(k));
    w' := Next(w, OpenBalance(k));
  }

  /** The db-writer opens four orders and three balances. */
  lemma Opened() returns (actions: seq<Action>, w: World)
    ensures Prepared(actions, w, {10, 20, 11, 21}, {(1, 9), (2, 9), (3, 9)})
  {
    NoActions();
    hide Prepared;
    actions, w := PrepareOrder([], EMPTY, {}, {}, 10);
    actions, w := PrepareOrder(actions, w, {} + {10}, {}, 20);
    actions, w := PrepareOrder(actions, w, {} + {10} + {20}, {}, 11);
    actions, w := PrepareOrder(actions, w, {} + {10} + {20} + {11}, {}, 21);
    var os := {} + {10} + {20} + {11} + {21};
    actions, w := PrepareBalance(actions, w, os, {}, (1, 9));
    actions, w := PrepareBalance(actions, w, os, {} + {(1, 9)}, (2, 9));
    actions, w := PrepareBalance(actions, w, os, {} + {(1, 9)} + {(2, 9)}, (3, 9));
    assert os == {10, 20, 11, 21};
    assert {} + {(1, 9)} + {(2, 9)} + {(3, 9)} == {(1, 9), (2, 9), (3, 9)};
  }

  lemma NoActions()
    ensures Prepared([], EMPTY, {}, {})
  {
  }

  /** Both matches are created on them, PENDING and reserved. */
  lemma BothCreated() returns (actions: seq<Action>, w: World)
    ensures Reaches(START, actions, State(w, map[])) && w.log == [FIRST, SECOND]
    ensures w.db.IsPending(FIRST.matchId) && w.db.matches[FIRST.matchId].payload == FIRST
    ensures w.db.IsPending(SECOND.matchId) && w.db.matches[SECOND.matchId].payload == SECOND
    ensures w.db.balances.Keys == {(1, 9), (2, 9), (3, 9)}
  {
    hide Reaches;
    actions, w := Opened();
    actions := Outward(actions, w, Create(FIRST, Filled, Filled));
    w := Next(w, Create(FIRST, Filled, Filled));
    actions := Outward(actions, w, Create(SECOND, Filled, Filled));
    w := Next(w, Create(SECOND, Filled, Filled));
  }

  lemma BatchStatements(a: Match, b: Match)
    requires a.lenderWallet < a.borrowerWallet && b.lenderWallet < b.borrowerWallet
    ensures Unlock([a, b]).Statements() ==
            [Release(a.LenderKey(), a.LenderShare()), Release(a.BorrowerKey(), a.BorrowerShare()),
             Release(b.LenderKey(), b.LenderShare()), Release(b.BorrowerKey(), b.BorrowerShare())]
  {
    assert [a, b][..1] == [a] && [a][..0] == [];
    assert UnlockStatements([a]) == UnlockStatements([]) + Releases(a);
  }

  lemma OppositeOrdersCross(t: Tables)
    requires t.balances.Keys == {(1, 9), (2, 9), (3, 9)}
    ensures Crossed(Unlock([FIRST, SECOND]), Unlock([SECOND, FIRST]), t, 1, 2)
  {
    var p, q := Unlock([FIRST, SECOND]), Unlock([SECOND, FIRST]);
    BatchStatements(FIRST, SECOND);
    BatchStatements(SECOND, FIRST);
    NothingLocked(p, t);
    NothingLocked(q, t);
    RowsNext(p.Statements(), t, 0);
    RowsNext(q.Statements(), t, 0);
    RowsNext(q.Statements(), t, 1);
  }

  /** A batch unlock crosses even a single writeback of one of its own matches. */
  lemma BatchCrossesWriteback(t: Tables, txHash: string)
    requires t.balances.Keys == {(1, 9), (2, 9), (3, 9)} && t.IsPending(FIRST.matchId)
    ensures Crossed(Unlock([SECOND, FIRST]), Single(Writeback(FIRST, txHash)), t, 2, 2)
  {
    var p, q := Unlock([SECOND, FIRST]), Single(Writeback(FIRST, txHash));
    BatchStatements(SECOND, FIRST);
    assert q.Statements() == [q.job.Gate(), Release(FIRST.LenderKey(), FIRST.LenderShare()),
                              Release(FIRST.BorrowerKey(), FIRST.BorrowerShare())];
    NothingLocked(p, t);
    NothingLocked(q, t);
    RowsNext(p.Statements(), t, 0);
    RowsNext(p.Statements(), t, 1);
    RowsNext(q.Statements(), t, 0);
    RowsNext(q.Statements(), t, 1);
  }

  /**
    From the empty tables: two matches are created, and two unlocks of the batch of both, in
    opposite orders, wait for each other; so do an unlock and a writeback.
   */
  lemma BatchesCanDeadlock(mixed: bool) returns (actions: seq<Action>, st: State, p: Program, q: Program)
    ensures p == Unlock([SECOND, FIRST])
    ensures q == if mixed then Single(Writeback(FIRST, "")) else Unlock([FIRST, SECOND])
    ensures Reaches(START, actions, st)
    ensures st.world.db.IsPending(FIRST.matchId) && st.world.db.IsPending(SECOND.matchId)
    ensures st.txs.Keys == {1, 2} && Stuck(st, 1, 2) && st.txs[1].program == p && st.txs[2].program == q
  {
    hide Reaches, Crossed, Stuck;
    var w;
    actions, w := BothCreated();
    p, q := Unlock([SECOND, FIRST]), if mixed then Single(Writeback(FIRST, "")) else Unlock([FIRST, SECOND]);
    var begins := BothBegin(w, p, q);
    ReachesOn(START, actions, State(w, map[]), begins, Begun(w, 1, 2, p, q));
    var i, j := 2, if mixed then 2 else 1;
    if mixed {
      BatchCrossesWriteback(w.db, "");
    } else {
      OppositeOrdersCross(w.db);
      CrossedSwap(q, p, w.db, 1, 2);
    }
    var race;
    race, st := RunIntoEachOther(w, 1, 2, p, q, i, j);
    RaceReaches(Begun(w, 1, 2, p, q), race, st);
    ReachesOn(START, actions + begins, Begun(w, 1, 2, p, q), race, st);
    actions := actions + begins + race;
  }

  lemma CrossedSwap(p: Program, q: Program, t: Tables, i: nat, j: nat)
    requires Crossed(p, q, t, i, j)
    ensures Crossed(q, p, t, j, i)
  {
  }

  lemma RaceReaches(st: State, actions: seq<Action>, st': State)
    requires Race(st, actions, st', 1, 2)
    ensures Reaches(st, actions, st')
  {
  }

  lemma BothBegin(w: World, p: Program, q: Program) returns (begins: seq<Action>)
    requires p.Single? ==> Enabled(w, Attempt(p.job))
    requires q.Single? ==> Enabled(w, Attempt(q.job))
    ensures Reaches(State(w, map[]), begins, Begun(w, 1, 2, p, q))
  {
    begins := [Begin(1, p), Begin(2, q)];
    var s0 := State(w, map[]);
    var s1 := Do(s0, begins[0]);
    assert Do(s1, begins[1]) == Begun(w, 1, 2, p, q);
    assert begins[1..] == [begins[1]] && begins[1..][1..] == [];
    assert Reaches(s1, begins[1..], Begun(w, 1, 2, p, q));
  }
}
