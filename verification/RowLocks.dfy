/**
  The same transactions statement by statement. Any number of sessions interleave; an UPDATE that
  selects a row another session has written waits for it; a session's writes stay its own until
  COMMIT and vanish on ROLLBACK, which may come after any statement.
 */
module RowLocks {
  import opened Matches
  import opened Store
  import opened Ledger
  import opened FailurePath

  type TxId = nat

  datatype Key = MatchRowKey(id: MatchId) | OrderRowKey(o: OrderId) | BalanceRowKey(k: BalanceKey)

  function KeyOf(s: Statement): Key {
    match s
    case Flip(id, _) => MatchRowKey(id)
    case Record(id, _) => MatchRowKey(id)
    case Restore(o, _, _) => OrderRowKey(o)
    case Release(k, _) => BalanceRowKey(k)
  }

  /** A single-match transaction, or one of the three big ones of the failure path. */
  datatype Program =
    | Single(job: Job)
    | Unlock(ms: seq<Match>)
    | RecordBatch(ms: seq<Match>, reason: string)
    | RestoreBatch(ms: seq<Match>)
  {
    function Statements(): seq<Statement> {
      match this
      case Single(j) => [j.Gate()] + j.Body()
      case Unlock(ms) => UnlockStatements(ms)
      case RecordBatch(ms, reason) => RecordStatements(ms, reason)
      case RestoreBatch(ms) => RestoreStatements(ms)
    }
  }

  /** An open transaction: the next statement, and the row versions it has written. */
  datatype Tx = Tx(program: Program, pc: nat, local: Tables)

  datatype State = State(world: World, txs: map<TxId, Tx>)

  predicate Has(t: Tables, key: Key) {
    match key
    case MatchRowKey(id) => id in t.matches
    case OrderRowKey(o) => o in t.orders
    case BalanceRowKey(k) => k in t.balances
  }

  function Overlay(below: Tables, above: Tables): Tables {
    Tables(below.matches + above.matches, below.orders + above.orders, below.balances + above.balances)
  }

  const NONE := Tables(map[], map[], map[])

  function View(st: State, t: TxId): Tables
    requires t in st.txs
  {
    Overlay(st.world.db, st.txs[t].local)
  }

  /** The row versions one statement adds to a session. */
  function Written(local: Tables, view: Tables, s: Statement): Tables
    requires Selects(view, s)
  {
    var after := Execute(view, s);
    match s
    case Flip(id, _) => local.(matches := local.matches[id := after.matches[id]])
    case Record(id, _) => local.(matches := local.matches[id := after.matches[id]])
    case Restore(o, _, _) => local.(orders := local.orders[o := after.orders[o]])
    case Release(k, _) => local.(balances := local.balances[k := after.balances[k]])
  }

  ghost predicate HeldByOther(st: State, t: TxId, key: Key) {
    exists u :: u in st.txs && u != t && Has(st.txs[u].local, key)
  }

  predicate Unfinished(tx: Tx) {
    tx.pc < |tx.program.Statements()|
  }

  function NextStatement(tx: Tx): Statement
    requires Unfinished(tx)
  {
    tx.program.Statements()[tx.pc]
  }

  /** Only a statement that selects a row can wait for it. */
  ghost predicate Waits(st: State, t: TxId)
    requires t in st.txs
  {
    Unfinished(st.txs[t]) &&
    var s := NextStatement(st.txs[t]);
    Selects(View(st, t), s) && HeldByOther(st, t, KeyOf(s))
  }

  datatype Action =
    | Begin(t: TxId, program: Program)
    | Exec(t: TxId)
    | Commit(t: TxId)
    | Rollback(t: TxId)
    | Outside(step: Step)

  /** The rows a step of the db-writer writes. */
  function Delta(w: World, s: Step): Tables
    requires Enabled(w, s)
  {
    match s
    case OpenOrder(o) => Tables(map[], map[o := OrderRow(0, 0, Open, "")], map[])
    case OpenBalance(k) => Tables(map[], map[], map[k := 0])
    case Reserve(k, amount) => Tables(map[], map[], map[k := w.db.balances[k] + amount])
    case Unreserve(k, amount) => Tables(map[], map[], map[k := w.db.balances[k] - amount])
    case Create(m, ls, bs) =>
      var after := Created(w.db, m, ls, bs);
      Tables(map[m.matchId := MatchRow(m, Pending)],
             map o | o in w.db.orders && m.OnOrder(o) :: after.orders[o],
             map k | k in w.db.balances && m.OnBalance(k) :: after.balances[k])
    case Attempt(_) => NONE
  }

  ghost predicate CanDo(st: State, a: Action) {
    match a
    case Begin(t, p) =>
      && t !in st.txs
      && (p.Single? ==> Enabled(st.world, Attempt(p.job)))
    case Exec(t) => t in st.txs && Unfinished(st.txs[t]) && !Waits(st, t)
    case Commit(t) => t in st.txs && !Unfinished(st.txs[t])
    case Rollback(t) => t in st.txs
    case Outside(s) =>
      && !s.Attempt? && Enabled(st.world, s)
      // The db-writer waits for row locks too, and an id has one payload everywhere.
      && (forall u, key :: u in st.txs && Has(st.txs[u].local, key) ==> !Has(Delta(st.world, s), key))
      && (s.Create? ==>
            forall u :: u in st.txs && st.txs[u].program.Single? && st.txs[u].program.job.m.matchId == s.m.matchId ==>
              st.txs[u].program.job.m == s.m)
  }

  /** A transaction after one more statement. */
  function Ran(db: Tables, tx: Tx): Tx
    requires Unfinished(tx)
  {
    var view := Overlay(db, tx.local);
    var s := NextStatement(tx);
    if Selects(view, s) then tx.(pc := tx.pc + 1, local := Written(tx.local, view, s))
    // No row moved out of PENDING: the function returns false and commits.
    else if s.Flip? then tx.(pc := |tx.program.Statements()|)
    else tx.(pc := tx.pc + 1)
  }

  function Do(st: State, a: Action): State
    requires CanDo(st, a)
  {
    match a
    case Begin(t, p) => st.(txs := st.txs[t := Tx(p, 0, NONE)])
    case Exec(t) =>
      st.(txs := st.txs[t := Ran(st.world.db, st.txs[t])])
    case Commit(t) =>
      st.(world := st.world.(db := View(st, t)), txs := st.txs - {t})
    case Rollback(t) => st.(txs := st.txs - {t})
    case Outside(s) => st.(world := Next(st.world, s))
  }

  // ----- Rows a list of statements does not touch -----

  lemma OverlayNone(t: Tables)
    ensures Overlay(t, NONE) == t
  {
  }

  ghost predicate Apart(d: Tables, ss: seq<Statement>) {
    forall i :: 0 <= i < |ss| ==> !Has(d, KeyOf(ss[i]))
  }

  lemma PutBelow<K, V>(a: map<K, V>, b: map<K, V>, k: K, v: V)
    requires k !in b
    ensures (a + b)[k := v] == a[k := v] + b
  {
  }

  lemma PutAbove<K, V>(a: map<K, V>, b: map<K, V>, k: K, v: V)
    ensures (a + b)[k := v] == a + b[k := v]
  {
  }

  lemma ExecuteApart(c: Tables, d: Tables, s: Statement)
    requires !Has(d, KeyOf(s))
    ensures Execute(Overlay(c, d), s) == Overlay(Execute(c, s), d)
  {
    if Selects(c, s) {
      match s
      case Flip(id, to) => PutBelow(c.matches, d.matches, id, c.matches[id].(status := to));
      case Record(id, reason) => PutBelow(c.matches, d.matches, id, c.matches[id].(status := Failed(reason)));
      case Restore(o, q, f) => PutBelow(c.orders, d.orders, o, RestoreRow(c.orders[o], q, f));
      case Release(k, share) => PutBelow(c.balances, d.balances, k, Greatest0(c.balances[k] - share));
    }
  }

  /** Statements commute with rows written elsewhere. */
  lemma {:induction false} ExecuteAllApart(c: Tables, d: Tables, ss: seq<Statement>)
    requires Apart(d, ss)
    ensures ExecuteAll(Overlay(c, d), ss) == Overlay(ExecuteAll(c, ss), d)
    decreases ss
  {
    if ss != [] {
      ExecuteApart(c, d, ss[0]);
      forall i | 0 <= i < |ss[1..]| ensures !Has(d, KeyOf(ss[1..][i])) {
        assert ss[1..][i] == ss[i + 1];
      }
      ExecuteAllApart(Execute(c, ss[0]), d, ss[1..]);
    }
  }

  ghost predicate Disjoint(a: Tables, b: Tables) {
    a.matches.Keys !! b.matches.Keys && a.orders.Keys !! b.orders.Keys && a.balances.Keys !! b.balances.Keys
  }

  lemma SwapMaps<K, V>(c: map<K, V>, a: map<K, V>, b: map<K, V>)
    requires a.Keys !! b.Keys
    ensures c + a + b == c + b + a
  {
    var l, r := c + a + b, c + b + a;
    assert l.Keys == r.Keys;
    forall k | k in l.Keys ensures l[k] == r[k] {
    }
  }

  lemma OverlaySwap(c: Tables, a: Tables, b: Tables)
    requires Disjoint(a, b)
    ensures Overlay(Overlay(c, a), b) == Overlay(Overlay(c, b), a)
  {
    SwapMaps(c.matches, a.matches, b.matches);
    SwapMaps(c.orders, a.orders, b.orders);
    SwapMaps(c.balances, a.balances, b.balances);
  }

  // ----- Serializability -----

  /**
    A single-match transaction has either not passed its gate and written nothing, or sees exactly
    its own statements so far executed on the tables as they are committed now.
   */
  ghost predicate TxInv(w: World, tx: Tx) {
    var ss := tx.program.Statements();
    && tx.program.Single?
    && tx.pc <= |ss|
    && Enabled(w, Attempt(tx.program.job))
    && (|| (tx.local == NONE && (tx.pc == 0 || tx.pc == |ss|))
        || (&& 0 < tx.pc
            && w.db.IsPending(tx.program.job.m.matchId)
            && Overlay(w.db, tx.local) == ExecuteAll(w.db, ss[..tx.pc])
            && (forall i :: 0 <= i < |ss| ==> Has(w.db, KeyOf(ss[i])))
            && Holds(tx)))
  }

  /** The rows a transaction has written are exactly the rows of the statements it has run. */
  ghost predicate Holds(tx: Tx) {
    var ss := tx.program.Statements();
    && tx.pc <= |ss|
    && (forall key :: Has(tx.local, key) ==> exists i :: 0 <= i < tx.pc && KeyOf(ss[i]) == key)
    && (forall i :: 0 <= i < tx.pc ==> Has(tx.local, KeyOf(ss[i])))
  }

  /** No row is written by two open transactions. */
  ghost predicate Exclusive(txs: map<TxId, Tx>) {
    forall t, u :: t in txs && u in txs && t != u ==> Disjoint(txs[t].local, txs[u].local)
  }

  ghost predicate TxsInv(w: World, txs: map<TxId, Tx>) {
    forall t {:trigger txs[t]} :: t in txs ==> TxInv(w, txs[t])
  }

  ghost predicate Inv(st: State) {
    && Conserved(st.world)
    && Exclusive(st.txs)
    && TxsInv(st.world, st.txs)
  }

  lemma DisjointKeys(a: Tables, b: Tables)
    ensures Disjoint(a, b) <==> forall key :: Has(a, key) ==> !Has(b, key)
  {
    if forall key :: Has(a, key) ==> !Has(b, key) {
      forall id | id in a.matches ensures id !in b.matches { assert Has(a, MatchRowKey(id)); }
      forall o | o in a.orders ensures o !in b.orders { assert Has(a, OrderRowKey(o)); }
      forall k | k in a.balances ensures k !in b.balances { assert Has(a, BalanceRowKey(k)); }
    }
  }

  /** Rows committed by someone else leave a transaction's view of its own statements intact. */
  lemma OthersKeepView(c: Tables, d: Tables, local: Tables, ss: seq<Statement>)
    requires Overlay(c, local) == ExecuteAll(c, ss)
    requires Disjoint(d, local)
    requires forall i :: 0 <= i < |ss| ==> Has(local, KeyOf(ss[i]))
    ensures Overlay(Overlay(c, d), local) == ExecuteAll(Overlay(c, d), ss)
  {
    DisjointKeys(d, local);
    ExecuteAllApart(c, d, ss);
    OverlaySwap(c, d, local);
  }

  lemma OthersKeepTx(w: World, w': World, d: Tables, tx: Tx)
    requires TxInv(w, tx) && Disjoint(d, tx.local)
    requires w'.db == Overlay(w.db, d)
    requires Enabled(w', Attempt(tx.program.job))
    ensures TxInv(w', tx)
  {
    if !(tx.local == NONE && (tx.pc == 0 || tx.pc == |tx.program.Statements()|)) {
      var ss := tx.program.Statements();
      OthersKeepView(w.db, d, tx.local, ss[..tx.pc]);
      assert ss[0] == tx.program.job.Gate();
      assert Has(tx.local, KeyOf(ss[0]));
      assert tx.program.job.m.matchId !in d.matches;
      forall i | 0 <= i < |ss| ensures Has(w'.db, KeyOf(ss[i])) {
        assert Has(w.db, KeyOf(ss[i]));
      }
    }
  }

  /** Everything a known PENDING match's transaction updates exists. */
  lemma RowsExist(w: World, j: Job)
    requires Registered(w) && Enabled(w, Attempt(j)) && w.db.IsPending(j.m.matchId)
    ensures var ss := Single(j).Statements(); forall i :: 0 <= i < |ss| ==> Has(w.db, KeyOf(ss[i]))
  {
    assert j.m in w.log;
  }

  lemma WrittenView(c: Tables, local: Tables, s: Statement)
    requires Selects(Overlay(c, local), s)
    ensures Overlay(c, Written(local, Overlay(c, local), s)) == Execute(Overlay(c, local), s)
  {
    var after := Execute(Overlay(c, local), s);
    match s
    case Flip(id, _) => PutAbove(c.matches, local.matches, id, after.matches[id]);
    case Record(id, _) => PutAbove(c.matches, local.matches, id, after.matches[id]);
    case Restore(o, _, _) => PutAbove(c.orders, local.orders, o, after.orders[o]);
    case Release(k, _) => PutAbove(c.balances, local.balances, k, after.balances[k]);
  }

  lemma WrittenHas(local: Tables, view: Tables, s: Statement, key: Key)
    requires Selects(view, s)
    ensures Has(Written(local, view, s), key) <==> Has(local, key) || key == KeyOf(s)
  {
  }

  /** Where the gate of a program is, and that nothing after it is a gate. */
  lemma GateFirst(j: Job)
    ensures var ss := Single(j).Statements();
            ss[0] == j.Gate() && (forall i :: 0 < i < |ss| ==> ss[i].Restore? || ss[i].Release?)
  {
  }

  lemma ExecutePrefix(c: Tables, ss: seq<Statement>, pc: nat)
    requires pc < |ss|
    ensures ExecuteAll(c, ss[..pc + 1]) == Execute(ExecuteAll(c, ss[..pc]), ss[pc])
  {
    assert ss[..pc + 1] == ss[..pc] + [ss[pc]];
    ExecuteAllConcat(c, ss[..pc], [ss[pc]]);
    assert ExecuteAll(ExecuteAll(c, ss[..pc]), [ss[pc]]) == ExecuteAll(Execute(ExecuteAll(c, ss[..pc]), ss[pc]), []);
  }

  lemma HoldsAfter(tx: Tx, view: Tables)
    requires Holds(tx) && Unfinished(tx) && Selects(view, NextStatement(tx))
    ensures Holds(tx.(pc := tx.pc + 1, local := Written(tx.local, view, NextStatement(tx))))
  {
    var s := NextStatement(tx);
    var ss := tx.program.Statements();
    var local' := Written(tx.local, view, s);
    forall key | Has(local', key) ensures exists i :: 0 <= i < tx.pc + 1 && KeyOf(ss[i]) == key {
      WrittenHas(tx.local, view, s, key);
      if key == KeyOf(s) {
        assert KeyOf(ss[tx.pc]) == key;
      }
    }
    forall i | 0 <= i < tx.pc + 1 ensures Has(local', KeyOf(ss[i])) {
      WrittenHas(tx.local, view, s, KeyOf(ss[i]));
    }
  }

  /** The gate moved the row: the transaction now holds it. */
  lemma GateKeepsTx(w: World, tx: Tx)
    requires Registered(w) && TxInv(w, tx) && tx.pc == 0 && Selects(Overlay(w.db, tx.local), NextStatement(tx))
    ensures TxInv(w, tx.(pc := 1, local := Written(tx.local, Overlay(w.db, tx.local), NextStatement(tx))))
  {
    var j := tx.program.job;
    var ss := tx.program.Statements();
    GateFirst(j);
    OverlayNone(w.db);
    assert tx.local == NONE && NextStatement(tx) == j.Gate();
    RowsExist(w, j);
    ExecutePrefix(w.db, ss, 0);
    WrittenView(w.db, tx.local, j.Gate());
    HoldsAfter(tx, w.db);
  }

  lemma BodyKeepsTx(w: World, tx: Tx)
    requires TxInv(w, tx) && 0 < tx.pc && Unfinished(tx)
    ensures Selects(Overlay(w.db, tx.local), NextStatement(tx))
    ensures TxInv(w, tx.(pc := tx.pc + 1, local := Written(tx.local, Overlay(w.db, tx.local), NextStatement(tx))))
  {
    var ss := tx.program.Statements();
    GateFirst(tx.program.job);
    assert Has(w.db, KeyOf(ss[tx.pc]));
    ExecutePrefix(w.db, ss, tx.pc);
    WrittenView(w.db, tx.local, ss[tx.pc]);
    HoldsAfter(tx, Overlay(w.db, tx.local));
  }

  lemma WrittenDisjoint(local: Tables, view: Tables, s: Statement, other: Tables)
    requires Disjoint(local, other) && Selects(view, s) && !Has(other, KeyOf(s))
    ensures Disjoint(Written(local, view, s), other)
  {
    DisjointKeys(local, other);
    forall key | Has(Written(local, view, s), key) ensures !Has(other, key) {
      WrittenHas(local, view, s, key);
    }
    DisjointKeys(Written(local, view, s), other);
  }

  lemma ExecKeepsExclusive(db: Tables, txs: map<TxId, Tx>, t: TxId)
    requires Exclusive(txs) && t in txs && Unfinished(txs[t])
    requires var s := NextStatement(txs[t]);
             Selects(Overlay(db, txs[t].local), s) ==>
               forall u :: u in txs && u != t ==> !Has(txs[u].local, KeyOf(s))
    ensures Exclusive(txs[t := Ran(db, txs[t])])
  {
    var s := NextStatement(txs[t]);
    var view := Overlay(db, txs[t].local);
    var local' := Ran(db, txs[t]).local;
    forall u | u in txs && u != t
      ensures Disjoint(local', txs[u].local) && Disjoint(txs[u].local, local')
    {
      if Selects(view, s) {
        WrittenDisjoint(txs[t].local, view, s, txs[u].local);
      }
    }
  }

  lemma RanKeepsTx(w: World, tx: Tx)
    requires Registered(w) && TxInv(w, tx) && Unfinished(tx)
    ensures TxInv(w, Ran(w.db, tx))
  {
    if tx.pc != 0 {
      BodyKeepsTx(w, tx);
    } else if Selects(Overlay(w.db, tx.local), NextStatement(tx)) {
      GateKeepsTx(w, tx);
    }
  }

  lemma ExecKeepsInv(st: State, t: TxId)
    requires Inv(st) && CanDo(st, Exec(t))
    ensures Inv(Do(st, Exec(t)))
  {
    ExecKeepsTxs(st.world, st.txs, t);
    ExecKeepsExclusive(st.world.db, st.txs, t);
  }

  lemma ExecKeepsTxs(w: World, txs: map<TxId, Tx>, t: TxId)
    requires Registered(w) && TxsInv(w, txs)
    requires t in txs && Unfinished(txs[t])
    ensures TxsInv(w, txs[t := Ran(w.db, txs[t])])
  {
    RanKeepsTx(w, txs[t]);
  }

  /**
    What a commit publishes: for a transaction whose gate moved the row, exactly the atomic step on
    the tables as committed at that moment; for any other, nothing. So every interleaving is a
    sequence of atomic steps in commit order.
   */
  lemma CommitIsAtomic(st: State, t: TxId)
    requires Inv(st) && CanDo(st, Commit(t))
    ensures st.txs[t].local == NONE ==> Do(st, Commit(t)).world == st.world
    ensures st.txs[t].local != NONE ==>
              && st.world.db.IsPending(st.txs[t].program.job.m.matchId)
              && Do(st, Commit(t)).world == Next(st.world, Attempt(st.txs[t].program.job))
  {
    PublishedTx(st.world, st.txs[t]);
  }

  lemma PublishedTx(w: World, tx: Tx)
    requires TxInv(w, tx) && !Unfinished(tx)
    ensures tx.local == NONE ==> Overlay(w.db, tx.local) == w.db
    ensures tx.local != NONE ==>
              && w.db.IsPending(tx.program.job.m.matchId)
              && Overlay(w.db, tx.local) == Apply(w.db, tx.program.job)
  {
    OverlayNone(w.db);
    if tx.local != NONE {
      WholeIsApply(w.db, tx.program.job, tx.local);
    }
  }

  lemma WholeIsApply(c: Tables, j: Job, local: Tables)
    requires c.IsPending(j.m.matchId)
    requires var ss := Single(j).Statements(); Overlay(c, local) == ExecuteAll(c, ss[..|ss|])
    ensures Overlay(c, local) == Apply(c, j)
  {
    var ss := Single(j).Statements();
    assert ss[..|ss|] == ss && ss[0] == j.Gate() && ss[1..] == j.Body();
  }

  lemma CommitKeepsInv(st: State, t: TxId)
    requires Inv(st) && CanDo(st, Commit(t))
    ensures Inv(Do(st, Commit(t)))
  {
    var st' := Do(st, Commit(t));
    var tx := st.txs[t];
    CommitIsAtomic(st, t);
    if tx.local != NONE {
      StepKeepsConserved(st.world, Attempt(tx.program.job));
      ApplyMeans(st.world.db, tx.program.job);
    }
    forall u | u in st'.txs ensures TxInv(st'.world, st'.txs[u]) {
      assert u != t && st'.txs[u] == st.txs[u];
      OthersKeepTx(st.world, st'.world, tx.local, st.txs[u]);
    }
  }

  lemma DeltaIsNext(w: World, s: Step)
    requires Enabled(w, s) && !s.Attempt?
    ensures Next(w, s).db == Overlay(w.db, Delta(w, s))
  {
    var t := w.db;
    match s
    case OpenOrder(o) => SetRow(t.orders, o, OrderRow(0, 0, Open, ""));
    case OpenBalance(k) => SetRow(t.balances, k, 0);
    case Reserve(k, amount) => SetRow(t.balances, k, t.balances[k] + amount);
    case Unreserve(k, amount) => SetRow(t.balances, k, t.balances[k] - amount);
    case Create(_, _, _) => CreateIsNext(w, s);
  }

  lemma CreateIsNext(w: World, s: Step)
    requires Enabled(w, s) && s.Create?
    ensures Next(w, s).db == Overlay(w.db, Delta(w, s))
  {
    SetRow(w.db.matches, s.m.matchId, MatchRow(s.m, Pending));
    CreateOrders(w, s);
    CreateBalances(w, s);
  }

  lemma SetRow<K, V>(a: map<K, V>, k: K, v: V)
    ensures a[k := v] == a + map[k := v]
  {
  }

  lemma CreateOrders(w: World, s: Step)
    requires s.Create? && Enabled(w, s)
    ensures Next(w, s).db.orders == w.db.orders + Delta(w, s).orders
  {
    var after, laid := Next(w, s).db.orders, w.db.orders + Delta(w, s).orders;
    assert after.Keys == laid.Keys;
    forall o | o in w.db.orders ensures after[o] == laid[o] {
    }
  }

  lemma CreateBalances(w: World, s: Step)
    requires s.Create? && Enabled(w, s)
    ensures Next(w, s).db.balances == w.db.balances + Delta(w, s).balances
  {
    var after, laid := Next(w, s).db.balances, w.db.balances + Delta(w, s).balances;
    assert after.Keys == laid.Keys;
    forall k | k in w.db.balances ensures after[k] == laid[k] {
      assert !s.m.OnBalance(k) ==> s.m.ShareAt(k) == 0;
    }
  }

  lemma OutsideKeepsInv(st: State, s: Step)
    requires Inv(st) && CanDo(st, Outside(s))
    ensures Inv(Do(st, Outside(s)))
  {
    StepKeepsConserved(st.world, s);
    OutsideKeepsTxs(st.world, s, st.txs);
  }

  lemma OutsideKeepsTxs(w: World, s: Step, txs: map<TxId, Tx>)
    requires TxsInv(w, txs) && !s.Attempt? && Enabled(w, s)
    requires forall u :: u in txs ==> txs[u].program.Single?
    requires forall u, key :: u in txs && Has(txs[u].local, key) ==> !Has(Delta(w, s), key)
    requires s.Create? ==> forall u :: u in txs && txs[u].program.job.m.matchId == s.m.matchId ==>
              txs[u].program.job.m == s.m
    ensures TxsInv(Next(w, s), txs)
  {
    DeltaIsNext(w, s);
    forall u | u in txs ensures TxInv(Next(w, s), txs[u]) {
      OutsideKeepsTx(w, Next(w, s), Delta(w, s), txs[u]);
    }
  }

  lemma OutsideKeepsTx(w: World, w': World, d: Tables, tx: Tx)
    requires TxInv(w, tx) && w'.db == Overlay(w.db, d)
    requires forall key :: Has(tx.local, key) ==> !Has(d, key)
    requires Enabled(w', Attempt(tx.program.job))
    ensures TxInv(w', tx)
  {
    DisjointKeys(d, tx.local);
    OthersKeepTx(w, w', d, tx);
  }

  predicate SingleMatch(a: Action) {
    a.Begin? ==> a.program.Single?
  }

  lemma BeginKeepsInv(st: State, t: TxId, p: Program)
    requires Inv(st) && CanDo(st, Begin(t, p)) && p.Single?
    ensures Inv(Do(st, Begin(t, p)))
  {
    FreshTx(st.world, p);
    FreshExclusive(st.txs, t, p);
  }

  lemma FreshTx(w: World, p: Program)
    requires p.Single? && Enabled(w, Attempt(p.job))
    ensures TxInv(w, Tx(p, 0, NONE))
  {
  }

  lemma FreshExclusive(txs: map<TxId, Tx>, t: TxId, p: Program)
    requires Exclusive(txs) && t !in txs
    ensures Exclusive(txs[t := Tx(p, 0, NONE)])
  {
  }

  lemma RollbackKeepsInv(st: State, t: TxId)
    requires Inv(st) && t in st.txs
    ensures Inv(Do(st, Rollback(t)))
  {
    var txs' := st.txs - {t};
    assert forall u :: u in txs' ==> txs'[u] == st.txs[u];
  }

  lemma ActionKeepsInv(st: State, a: Action)
    requires Inv(st) && CanDo(st, a) && SingleMatch(a)
    ensures Inv(Do(st, a))
  {
    match a
    case Begin(t, p) => BeginKeepsInv(st, t, p);
    case Exec(t) => ExecKeepsInv(st, t);
    case Commit(t) => CommitKeepsInv(st, t);
    case Rollback(t) => RollbackKeepsInv(st, t);
    case Outside(s) => OutsideKeepsInv(st, s);
  }

  ghost predicate Reaches(st: State, actions: seq<Action>, st': State)
    decreases actions
  {
    if actions == [] then st' == st else CanDo(st, actions[0]) && Reaches(Do(st, actions[0]), actions[1..], st')
  }

  const START := State(EMPTY, map[])

  /**
    Conservation of locks and fills holds of the committed tables in every state of every
    interleaving, rollbacks included.
   */
  lemma {:induction false} InterleavingsConserve(st: State, actions: seq<Action>, st': State)
    requires Inv(st) && Reaches(st, actions, st')
    requires forall i :: 0 <= i < |actions| ==> SingleMatch(actions[i])
    ensures Inv(st')
    decreases actions
  {
    if actions != [] {
      ActionKeepsInv(st, actions[0]);
      InterleavingsConserve(Do(st, actions[0]), actions[1..], st');
    }
  }

  lemma ReachableInv(actions: seq<Action>, st: State)
    requires Reaches(START, actions, st)
    requires forall i :: 0 <= i < |actions| ==> SingleMatch(actions[i])
    ensures Inv(st)
  {
    InterleavingsConserve(START, actions, st);
  }
}
