/**
  The database layer as it runs: one connection, one statement after another, and any query may
  throw. Each transaction is proved to be one atomic step of `Store.Apply`, or of the batch
  statements of `FailurePath`, or nothing at all.
 */
module Database {
  import opened Matches
  import opened Store
  import opened Ledger
  import opened FailurePath
  import opened Options

  /** What a query or a transaction returns; every exception is alike here. */
  type Outcome<+T> = Result<T, ()>

  /** How the writeback of one match of a batch ended. */
  datatype End = Skipped | Committed(transitioned: bool) | Lost(landed: bool)

  /** The tables after a batch of writebacks, given how each of them ended. */
  function WrittenBack(t: Tables, ms: seq<Match>, txHash: string, ends: seq<End>): Tables
    requires |ends| == |ms|
  {
    if ms == [] then t
    else
      var n := |ms| - 1;
      var before := WrittenBack(t, ms[..n], txHash, ends[..n]);
      if ends[n].Committed? || (ends[n].Lost? && ends[n].landed)
      then Apply(before, Writeback(ms[n], txHash))
      else before
  }

  /** The matches skipped are those not settled, and each commit reports whether the row was PENDING. */
  predicate Reported(t: Tables, ms: seq<Match>, settledIds: set<MatchId>, txHash: string, ends: seq<End>)
    requires |ends| == |ms|
  {
    ms == [] ||
    var n := |ms| - 1;
    && Reported(t, ms[..n], settledIds, txHash, ends[..n])
    && (ends[n].Skipped? <==> ms[n].matchId !in settledIds)
    && (ends[n].Committed? ==>
          (ends[n].transitioned <==> WrittenBack(t, ms[..n], txHash, ends[..n]).IsPending(ms[n].matchId)))
  }

  /**
    However its transactions end, a batch of writebacks moves only matches the receipt settled, only
    from PENDING and only to SETTLED by that transaction.
   */
  lemma {:induction false} OnlySettledIdsMove(t: Tables, ms: seq<Match>, settledIds: set<MatchId>, txHash: string,
      ends: seq<End>, id: MatchId)
    requires |ends| == |ms| && Reported(t, ms, settledIds, txHash, ends)
    ensures var after := WrittenBack(t, ms, txHash, ends);
            && after.matches.Keys == t.matches.Keys
            && (id in t.matches && after.matches[id] != t.matches[id] ==>
                  && id in settledIds && t.IsPending(id)
                  && after.matches[id] == MatchRow(t.matches[id].payload, Settled(txHash)))
  {
    if ms != [] {
      var n := |ms| - 1;
      OnlySettledIdsMove(t, ms[..n], settledIds, txHash, ends[..n], id);
      ApplyMeans(WrittenBack(t, ms[..n], txHash, ends[..n]), Writeback(ms[n], txHash));
    }
  }

  /** If none of its transactions is lost, no match the receipt settled is left PENDING. */
  lemma {:induction false} SettledIdsMove(t: Tables, ms: seq<Match>, settledIds: set<MatchId>, txHash: string,
      ends: seq<End>, m: Match)
    requires |ends| == |ms| && Reported(t, ms, settledIds, txHash, ends) && (forall e :: e in ends ==> !e.Lost?)
    requires m in ms && m.matchId in settledIds && t.IsPending(m.matchId)
    ensures var after := WrittenBack(t, ms, txHash, ends);
            m.matchId in after.matches && after.matches[m.matchId].status == Settled(txHash)
  {
    var n := |ms| - 1;
    assert ends[n] in ends && forall e :: e in ends[..n] ==> e in ends;
    OnlySettledIdsMove(t, ms[..n], settledIds, txHash, ends[..n], m.matchId);
    ApplyMeans(WrittenBack(t, ms[..n], txHash, ends[..n]), Writeback(ms[n], txHash));
    if m in ms[..n] {
      SettledIdsMove(t, ms[..n], settledIds, txHash, ends[..n], m);
    }
  }

  /** And it conserves every reservation and every fill. */
  lemma {:induction false} WritebacksConserve(w: World, ms: seq<Match>, txHash: string, ends: seq<End>)
    requires |ends| == |ms| && Conserved(w)
    requires forall m :: m in ms ==> Enabled(w, Attempt(Writeback(m, txHash)))
    ensures Conserved(w.(db := WrittenBack(w.db, ms, txHash, ends)))
    ensures forall m {:trigger Attempt(Writeback(m, txHash))} :: Enabled(w, Attempt(Writeback(m, txHash))) ==>
              Enabled(w.(db := WrittenBack(w.db, ms, txHash, ends)), Attempt(Writeback(m, txHash)))
  {
    if ms != [] {
      var n := |ms| - 1;
      assert ms[n] in ms && forall m :: m in ms[..n] ==> m in ms;
      WritebacksConserve(w, ms[..n], txHash, ends[..n]);
      var before := w.(db := WrittenBack(w.db, ms[..n], txHash, ends[..n]));
      assert Enabled(before, Attempt(Writeback(ms[n], txHash)));
      StepKeepsConserved(before, Attempt(Writeback(ms[n], txHash)));
      ApplyMeans(before.db, Writeback(ms[n], txHash));
    }
  }

  /** The trade fees of lender and borrower: the taker's side pays the taker fee. */
  function SplitTradeFees(m: Match): (fees: (nat, nat))
    ensures fees.0 + fees.1 == m.makerFeeAmount + m.takerFeeAmount
    ensures (if m.borrowerIsTaker then fees.1 else fees.0) == m.takerFeeAmount
  {
    (if m.borrowerIsTaker then m.makerFeeAmount else m.takerFeeAmount,
     if m.borrowerIsTaker then m.takerFeeAmount else m.makerFeeAmount)
  }

  /** A failure transaction: the gate, two order restorations, then the two releases. */
  lemma GatedFailure(t: Tables, j: Job)
    requires !j.Writeback?
    ensures var m := j.m;
            var t1 := Execute(t, j.Gate());
            var t2 := Execute(t1, Restore(m.lendOrderId, m.matchedAmount, m.lenderSettlementFeeAmount));
            var t3 := Execute(t2, Restore(m.borrowOrderId, m.matchedAmount, m.borrowerSettlementFeeAmount));
            if Selects(t, j.Gate()) then Apply(t, j) == ExecuteAll(t3, Releases(m)) else Apply(t, j) == t1 == t
  {
    var m, t1 := j.m, Execute(t, j.Gate());
    ExecuteTwo(t1, Restores(m)[0], Restores(m)[1]);
    assert Restores(m) == [Restores(m)[0], Restores(m)[1]];
    ExecuteAllConcat(t1, Restores(m), Releases(m));
  }

  function Count(ends: seq<End>, end: End): nat {
    if ends == [] then 0 else Count(ends[..|ends| - 1], end) + if ends[|ends| - 1] == end then 1 else 0
  }

  lemma NothingUnlocked(t: Tables, ms: seq<Match>)
    requires ms == []
    ensures ExecuteAll(t, UnlockStatements(ms)) == t
  {
  }

  lemma OneMoreUnlocked(t: Tables, ms: seq<Match>, n: nat)
    requires n < |ms|
    ensures ExecuteAll(t, UnlockStatements(ms[..n + 1])) ==
            ExecuteAll(ExecuteAll(t, UnlockStatements(ms[..n])), Releases(ms[n]))
  {
    assert ms[..n + 1][..n] == ms[..n];
    ExecuteAllConcat(t, UnlockStatements(ms[..n]), Releases(ms[n]));
  }

  lemma NoWritebacks(t: Tables, ms: seq<Match>, settledIds: set<MatchId>, txHash: string)
    requires ms == []
    ensures WrittenBack(t, ms, txHash, []) == t && Reported(t, ms, settledIds, txHash, [])
    ensures Count([], Committed(true)) == Count([], Committed(false)) == 0
  {
  }

  /** The next match's part of a batch of writebacks. */
  lemma OneMoreWriteback(t: Tables, ms: seq<Match>, settledIds: set<MatchId>, txHash: string, ends: seq<End>, n: nat,
      end: End)
    requires n < |ms| && |ends| == n
    ensures var before := WrittenBack(t, ms[..n], txHash, ends);
            var landed := end.Committed? || (end.Lost? && end.landed);
            && WrittenBack(t, ms[..n + 1], txHash, ends + [end]) ==
                 (if landed then Apply(before, Writeback(ms[n], txHash)) else before)
            && (Reported(t, ms[..n + 1], settledIds, txHash, ends + [end]) <==>
                  && Reported(t, ms[..n], settledIds, txHash, ends)
                  && (end.Skipped? <==> ms[n].matchId !in settledIds)
                  && (end.Committed? ==> (end.transitioned <==> before.IsPending(ms[n].matchId))))
    ensures forall e :: Count(ends + [end], e) == Count(ends, e) + if end == e then 1 else 0
  {
    hide Apply;
    assert ms[..n + 1][..n] == ms[..n] && (ends + [end])[..n] == ends;
  }

  class Connection {
    /** What every other session sees. */
    var committed: Tables
    /** What this session sees inside its transaction. */
    var working: Tables
    /** Queries sent so far: the index into the two scripts below. */
    var clock: nat

    /** Which queries throw. */
    const throws: nat -> bool
    /** Whether a COMMIT that throws had taken effect before its reply was lost. */
    const landed: nat -> bool

    constructor (t: Tables, throws: nat -> bool, landed: nat -> bool)
      ensures committed == t
    {
      committed, working, clock := t, t, 0;
      this.throws, this.landed := throws, landed;
    }

    /** Gated transactions that other sessions commit between two of this one's. */
    method Elsewhere(jobs: seq<Job>)
      modifies `committed
      ensures committed == ApplyAll(old(committed), jobs)
    {
      committed := ApplyAll(committed, jobs);
    }

    /** No query among those sent after `from`, up to `to`, throws. */
    ghost predicate Fine(from: nat, to: nat) {
      forall i {:trigger throws(i)} :: from < i <= to ==> !throws(i)
    }

    method Begin() returns (r: Outcome<()>)
      modifies this`working, this`clock
      ensures clock == old(clock) + 1 && (r.Ok? <==> !throws(clock))
      ensures r.Ok? ==> working == committed
    {
      clock := clock + 1;
      if throws(clock) {
        return Err(());
      }
      working := committed;
      r := Ok(());
    }

    /** One UPDATE; the value says whether its row count is non-zero. */
    method Query(s: Statement) returns (r: Outcome<bool>)
      modifies this`working, this`clock
      ensures clock == old(clock) + 1 && (r.Ok? <==> !throws(clock))
      ensures r.Ok? ==> r.value == Selects(old(working), s) && working == Execute(old(working), s)
    {
      clock := clock + 1;
      if throws(clock) {
        return Err(());
      }
      r := Ok(Selects(working, s));
      working := Execute(working, s);
    }

    method Commit() returns (r: Outcome<()>)
      modifies this
      ensures clock == old(clock) + 1 && (r.Ok? <==> !throws(clock))
      ensures committed == if !throws(clock) || landed(clock) then old(working) else old(committed)
    {
      clock := clock + 1;
      if !throws(clock) || landed(clock) {
        committed := working;
      }
      r := if throws(clock) then Err(()) else Ok(());
    }

    /** A ROLLBACK that throws is ignored; the server drops the transaction with the session. */
    method Rollback()
      modifies this`working, this`clock
      ensures clock == old(clock) + 1
    {
      clock := clock + 1;
      working := committed;
    }

    /** COMMIT after a body that returned, ROLLBACK after one that threw. */
    method Finish(body: Outcome<bool>) returns (r: Outcome<bool>)
      modifies this
      ensures old(clock) < clock && (r.Ok? <==> body.Ok? && !throws(old(clock) + 1))
      ensures r.Ok? ==> r == body && clock == old(clock) + 1
      ensures committed == if body.Ok? && (!throws(old(clock) + 1) || landed(old(clock) + 1)) then old(working)
                           else old(committed)
    {
      match body
      case Err(_) =>
        Rollback();
        r := Err(());
      case Ok(_) =>
        var commit := Commit();
        if commit.Err? {
          Rollback();
          r := Err(());
        } else {
          r := body;
        }
    }

    method QueryAll(ss: seq<Statement>) returns (r: Outcome<()>)
      modifies this`working, this`clock
      ensures old(clock) <= clock && (r.Ok? <==> Fine(old(clock), clock))
      ensures r.Ok? ==> working == ExecuteAll(old(working), ss)
    {
      for i := 0 to |ss|
        invariant old(clock) <= clock && Fine(old(clock), clock)
        invariant working == ExecuteAll(old(working), ss[..i])
      {
        assert ss[..i + 1] == ss[..i] + [ss[i]];
        ExecuteAllConcat(old(working), ss[..i], [ss[i]]);
        var _ :- Query(ss[i]);
      }
      assert ss[..|ss|] == ss;
      r := Ok(());
    }

    // ----- The gated transactions -----

    method ApplyMatchSettlementWriteback(m: Match, txHash: string) returns (r: Outcome<bool>)
      modifies this`working, this`clock
      ensures old(clock) <= clock && (r.Ok? <==> Fine(old(clock), clock))
      ensures r.Ok? ==>
                && (r.value <==> old(working).IsPending(m.matchId))
                && working == Apply(old(working), Writeback(m, txHash))
    {
      var flipped :- Query(Flip(m.matchId, Settled(txHash)));
      if !flipped {
        return Ok(false);
      }
      var (lenderTradeFee, borrowerTradeFee) := SplitTradeFees(m);
      var lender := Release((m.lenderWallet, m.loanToken),
                            m.matchedAmount + m.lenderSettlementFeeAmount + lenderTradeFee);
      var borrower := Release((m.borrowerWallet, m.loanToken), m.borrowerSettlementFeeAmount + borrowerTradeFee);
      var ordered := if m.lenderWallet < m.borrowerWallet then [lender, borrower] else [borrower, lender];
      var _ :- QueryAll(ordered);
      r := Ok(true);
    }

    /** Quarantine: the flip, both orders, both balances. */
    method QuarantineBody(m: Match, reason: string) returns (r: Outcome<bool>)
      modifies this`working, this`clock
      ensures old(clock) <= clock && (r.Ok? <==> Fine(old(clock), clock))
      ensures r.Ok? ==>
                && (r.value <==> old(working).IsPending(m.matchId))
                && working == Apply(old(working), Quarantine(m, reason))
    {
      hide Apply, ExecuteAll, Execute;
      GatedFailure(working, Quarantine(m, reason));
      var flipped :- Query(Flip(m.matchId, Failed(reason)));
      if !flipped {
        return Ok(false);
      }
      var _ :- Query(Restore(m.lendOrderId, m.matchedAmount, m.lenderSettlementFeeAmount));
      var _ :- Query(Restore(m.borrowOrderId, m.matchedAmount, m.borrowerSettlementFeeAmount));
      var lenderTradeFee := if m.borrowerIsTaker then m.makerFeeAmount else m.takerFeeAmount;
      var borrowerTradeFee := if m.borrowerIsTaker then m.takerFeeAmount else m.makerFeeAmount;
      var lender := Release((m.lenderWallet, m.loanToken),
                            m.matchedAmount + m.lenderSettlementFeeAmount + lenderTradeFee);
      var borrower := Release((m.borrowerWallet, m.loanToken), m.borrowerSettlementFeeAmount + borrowerTradeFee);
      var ordered := if m.lenderWallet < m.borrowerWallet then [lender, borrower] else [borrower, lender];
      var _ :- QueryAll(ordered);
      r := Ok(true);
    }

    /** Remediation: the same in its own words, with the sweeper's reason. */
    method RemediateBody(m: Match) returns (r: Outcome<bool>)
      modifies this`working, this`clock
      ensures old(clock) <= clock && (r.Ok? <==> Fine(old(clock), clock))
      ensures r.Ok? ==>
                && (r.value <==> old(working).IsPending(m.matchId))
                && working == Apply(old(working), Remediate(m))
    {
      hide Apply, ExecuteAll, Execute;
      GatedFailure(working, Remediate(m));
      var flipped :- Query(Flip(m.matchId, Failed(SWEEPER_FAILURE_REASON)));
      if !flipped {
        return Ok(false);
      }
      var _ :- Query(Restore(m.lendOrderId, m.matchedAmount, m.lenderSettlementFeeAmount));
      var _ :- Query(Restore(m.borrowOrderId, m.matchedAmount, m.borrowerSettlementFeeAmount));
      var lenderTradeFee := if m.borrowerIsTaker then m.makerFeeAmount else m.takerFeeAmount;
      var borrowerTradeFee := if m.borrowerIsTaker then m.takerFeeAmount else m.makerFeeAmount;
      var lender := Release((m.lenderWallet, m.loanToken),
                            m.matchedAmount + m.lenderSettlementFeeAmount + lenderTradeFee);
      var borrower := Release((m.borrowerWallet, m.loanToken), m.borrowerSettlementFeeAmount + borrowerTradeFee);
      var ordered := if m.lenderWallet < m.borrowerWallet then [lender, borrower] else [borrower, lender];
      var _ :- QueryAll(ordered);
      r := Ok(true);
    }

    /** Atomic: a call that returns has done all of it, a call that throws all of it or nothing. */
    method QuarantineFailedMatch(m: Match, reason: string) returns (r: Outcome<bool>)
      modifies this
      ensures old(clock) <= clock && (r.Ok? <==> Fine(old(clock), clock))
      ensures r.Ok? ==>
                && (r.value <==> old(committed).IsPending(m.matchId))
                && committed == Apply(old(committed), Quarantine(m, reason))
      ensures r.Err? ==> committed == old(committed) || committed == Apply(old(committed), Quarantine(m, reason))
    {
      var begun := Begin();
      var body: Outcome<bool> := Err(());
      if begun.Ok? {
        body := QuarantineBody(m, reason);
      }
      r := Finish(body);
    }

    method RemediateUnsettledMatch(m: Match) returns (r: Outcome<bool>)
      modifies this
      ensures old(clock) <= clock && (r.Ok? <==> Fine(old(clock), clock))
      ensures r.Ok? ==>
                && (r.value <==> old(committed).IsPending(m.matchId))
                && committed == Apply(old(committed), Remediate(m))
      ensures r.Err? ==> committed == old(committed) || committed == Apply(old(committed), Remediate(m))
    {
      var begun := Begin();
      var body: Outcome<bool> := Err(());
      if begun.Ok? {
        body := RemediateBody(m);
      }
      r := Finish(body);
    }

    method WritebackMatch(m: Match, txHash: string) returns (r: Outcome<bool>)
      modifies this
      ensures old(clock) <= clock && (r.Ok? <==> Fine(old(clock), clock))
      ensures r.Ok? ==>
                && (r.value <==> old(committed).IsPending(m.matchId))
                && committed == Apply(old(committed), Writeback(m, txHash))
      ensures r.Err? ==> committed == old(committed) || committed == Apply(old(committed), Writeback(m, txHash))
    {
      var begun := Begin();
      var body: Outcome<bool> := Err(());
      if begun.Ok? {
        body := ApplyMatchSettlementWriteback(m, txHash);
      }
      r := Finish(body);
    }

    /** One transaction per settled match; a failed one is logged and passed over, never rethrown. */
    method WritebackSettledMatches(ms: seq<Match>, settledIds: set<MatchId>, txHash: string)
      returns (settled: nat, alreadySettled: nat, ghost ends: seq<End>)
      modifies this
      ensures |ends| == |ms|
      ensures committed == WrittenBack(old(committed), ms, txHash, ends)
      ensures Reported(old(committed), ms, settledIds, txHash, ends)
      ensures settled == Count(ends, Committed(true)) && alreadySettled == Count(ends, Committed(false))
      ensures old(clock) <= clock && (Fine(old(clock), clock) <==> forall e :: e in ends ==> !e.Lost?)
    {
      hide WrittenBack, Reported, Count, Apply;
      settled, alreadySettled, ends := 0, 0, [];
      NoWritebacks(committed, ms[..0], settledIds, txHash);
      for n := 0 to |ms|
        invariant |ends| == n
        invariant committed == WrittenBack(old(committed), ms[..n], txHash, ends)
        invariant Reported(old(committed), ms[..n], settledIds, txHash, ends)
        invariant settled == Count(ends, Committed(true)) && alreadySettled == Count(ends, Committed(false))
        invariant old(clock) <= clock && (Fine(old(clock), clock) <==> forall e :: e in ends ==> !e.Lost?)
      {
        ghost var before := committed;
        ghost var end := Skipped;
        if ms[n].matchId in settledIds {
          var r := WritebackMatch(ms[n], txHash);
          match r
          case Ok(true) => settled := settled + 1; end := Committed(true);
          case Ok(false) => alreadySettled := alreadySettled + 1; end := Committed(false);
          case Err(_) => end := Lost(committed == Apply(before, Writeback(ms[n], txHash)));
        }
        OneMoreWriteback(old(committed), ms, settledIds, txHash, ends, n, end);
        ends := ends + [end];
      }
      assert ms[..|ms|] == ms;
    }

    // ----- The ungated batch transactions -----

    method UnlockFailedMatches(ms: seq<Match>)
      modifies this
      ensures committed == old(committed) || committed == ExecuteAll(old(committed), UnlockStatements(ms))
      ensures old(clock) <= clock
      ensures Fine(old(clock), clock) ==> committed == ExecuteAll(old(committed), UnlockStatements(ms))
    {
      var begun := Begin();
      var body: Outcome<bool> := Err(());
      if begun.Ok? {
        body := UnlockBody(ms);
      }
      var _ := Finish(body);
    }

    method UnlockBody(ms: seq<Match>) returns (r: Outcome<bool>)
      modifies this`working, this`clock
      ensures old(clock) <= clock && (r.Ok? <==> Fine(old(clock), clock))
      ensures r.Ok? ==> working == ExecuteAll(old(working), UnlockStatements(ms))
    {
      hide ExecuteAll, UnlockStatements;
      NothingUnlocked(working, ms[..0]);
      for n := 0 to |ms|
        invariant old(clock) <= clock && Fine(old(clock), clock)
        invariant working == ExecuteAll(old(working), UnlockStatements(ms[..n]))
      {
        OneMoreUnlocked(old(working), ms, n);
        var m := ms[n];
        var lenderTradeFee := if m.borrowerIsTaker then m.makerFeeAmount else m.takerFeeAmount;
        var borrowerTradeFee := if m.borrowerIsTaker then m.takerFeeAmount else m.makerFeeAmount;
        var lender := Release((m.lenderWallet, m.loanToken),
                              m.matchedAmount + m.lenderSettlementFeeAmount + lenderTradeFee);
        var borrower := Release((m.borrowerWallet, m.loanToken), m.borrowerSettlementFeeAmount + borrowerTradeFee);
        var ordered := if m.lenderWallet < m.borrowerWallet then [lender, borrower] else [borrower, lender];
        var _ :- QueryAll(ordered);
      }
      assert ms[..|ms|] == ms;
      r := Ok(true);
    }

    method RecordFailedMatches(ms: seq<Match>, reason: string)
      modifies this
      ensures committed == old(committed) || committed == ExecuteAll(old(committed), RecordStatements(ms, reason))
      ensures old(clock) <= clock
      ensures Fine(old(clock), clock) ==> committed == ExecuteAll(old(committed), RecordStatements(ms, reason))
    {
      var begun := Begin();
      var body: Outcome<bool> := Err(());
      if begun.Ok? {
        body := RecordBody(ms, reason);
      }
      var _ := Finish(body);
    }

    method RecordBody(ms: seq<Match>, reason: string) returns (r: Outcome<bool>)
      modifies this`working, this`clock
      ensures old(clock) <= clock && (r.Ok? <==> Fine(old(clock), clock))
      ensures r.Ok? ==> working == ExecuteAll(old(working), RecordStatements(ms, reason))
    {
      for n := 0 to |ms|
        invariant old(clock) <= clock && Fine(old(clock), clock)
        invariant working == ExecuteAll(old(working), RecordStatements(ms[..n], reason))
      {
        assert ms[..n + 1][..n] == ms[..n];
        ExecuteAllConcat(old(working), RecordStatements(ms[..n], reason), [Record(ms[n].matchId, reason)]);
        var _ :- Query(Record(ms[n].matchId, reason));
      }
      assert ms[..|ms|] == ms;
      r := Ok(true);
    }

    method RestoreOrdersForFailedMatches(ms: seq<Match>)
      modifies this
      ensures committed == old(committed) || committed == ExecuteAll(old(committed), RestoreStatements(ms))
      ensures old(clock) <= clock
      ensures Fine(old(clock), clock) ==> committed == ExecuteAll(old(committed), RestoreStatements(ms))
    {
      var begun := Begin();
      var body: Outcome<bool> := Err(());
      if begun.Ok? {
        body := RestoreBody(ms);
      }
      var _ := Finish(body);
    }

    method RestoreBody(ms: seq<Match>) returns (r: Outcome<bool>)
      modifies this`working, this`clock
      ensures old(clock) <= clock && (r.Ok? <==> Fine(old(clock), clock))
      ensures r.Ok? ==> working == ExecuteAll(old(working), RestoreStatements(ms))
    {
      for n := 0 to |ms|
        invariant old(clock) <= clock && Fine(old(clock), clock)
        invariant working == ExecuteAll(old(working), RestoreStatements(ms[..n]))
      {
        assert ms[..n + 1][..n] == ms[..n];
        ExecuteAllConcat(old(working), RestoreStatements(ms[..n]), Restores(ms[n]));
        ghost var before := working;
        var _ :- Query(Restore(ms[n].lendOrderId, ms[n].matchedAmount, ms[n].lenderSettlementFeeAmount));
        var _ :- Query(Restore(ms[n].borrowOrderId, ms[n].matchedAmount, ms[n].borrowerSettlementFeeAmount));
        ExecuteTwo(before, Restores(ms[n])[0], Restores(ms[n])[1]);
        assert Restores(ms[n]) == [Restores(ms[n])[0], Restores(ms[n])[1]];
      }
      assert ms[..|ms|] == ms;
      r := Ok(true);
    }
  }
}
