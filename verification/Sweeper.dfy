/** The stuck-PENDING sweeper: a three-way decision over partial on-chain reads, and how far it gets. */
module Sweeper {
  import opened Matches
  import opened Store
  import opened Ledger
  import opened Database
  import opened Options

  // ----- One sweep -----

  /** The tables after a sweep, with whatever other sessions committed before each candidate. */
  function Swept(t: Tables, cs: seq<Match>, others: seq<seq<Job>>, ends: seq<End>): Tables
    requires |cs| == |others| == |ends|
  {
    if cs == [] then t
    else
      var n := |cs| - 1;
      var before := ApplyAll(Swept(t, cs[..n], others[..n], ends[..n]), others[n]);
      if ends[n].Committed? || (ends[n].Lost? && ends[n].landed) then Apply(before, Remediate(cs[n])) else before
  }

  /** Only a successful read of "not settled" is acted on, and a commit reports whether the row was PENDING. */
  predicate Decided(t: Tables, cs: seq<Match>, answers: seq<Option<bool>>, others: seq<seq<Job>>, ends: seq<End>)
    requires |cs| == |answers| == |others| == |ends|
  {
    cs == [] ||
    var n := |cs| - 1;
    && Decided(t, cs[..n], answers[..n], others[..n], ends[..n])
    && (ends[n].Skipped? <==> answers[n] != Some(false))
    && (ends[n].Committed? ==>
          (ends[n].transitioned <==>
             ApplyAll(Swept(t, cs[..n], others[..n], ends[..n]), others[n]).IsPending(cs[n].matchId)))
  }

  function CountReads(answers: seq<Option<bool>>, read: Option<bool>): nat {
    if answers == [] then 0
    else CountReads(answers[..|answers| - 1], read) + if answers[|answers| - 1] == read then 1 else 0
  }

  /** The multicall's map: a failed read is left out. */
  method CheckMatchesSettledOnChain(cs: seq<Match>, answers: seq<Option<bool>>) returns (settled: map<MatchId, bool>)
    requires |answers| == |cs| && DistinctIds(cs)
    ensures forall i :: 0 <= i < |cs| ==>
              if answers[i].Some? then cs[i].matchId in settled && settled[cs[i].matchId] == answers[i].value
              else cs[i].matchId !in settled
  {
    settled := map[];
    for i := 0 to |cs|
      invariant forall id :: id in settled ==> exists j :: 0 <= j < i && cs[j].matchId == id
      invariant forall j :: 0 <= j < i ==>
                  if answers[j].Some? then cs[j].matchId in settled && settled[cs[j].matchId] == answers[j].value
                  else cs[j].matchId !in settled
    {
      if answers[i].Some? {
        settled := settled[cs[i].matchId := answers[i].value];
      }
    }
  }

  lemma NothingSwept(t: Tables, cs: seq<Match>, answers: seq<Option<bool>>, others: seq<seq<Job>>)
    requires |cs| == |answers| == |others|
    ensures Swept(t, cs[..0], others[..0], []) == t && Decided(t, cs[..0], answers[..0], others[..0], [])
    ensures CountReads(answers[..0], Some(true)) == CountReads(answers[..0], None) == Count([], Committed(true)) == 0
  {
  }

  /** The next candidate's part of a sweep. */
  lemma SweptNext(t: Tables, cs: seq<Match>, answers: seq<Option<bool>>, others: seq<seq<Job>>, ends: seq<End>,
      n: nat, end: End)
    requires n < |cs| == |answers| == |others| && |ends| == n
    ensures var before := ApplyAll(Swept(t, cs[..n], others[..n], ends), others[n]);
            && Swept(t, cs[..n + 1], others[..n + 1], ends + [end]) ==
                 (if end.Committed? || (end.Lost? && end.landed) then Apply(before, Remediate(cs[n])) else before)
            && (Decided(t, cs[..n + 1], answers[..n + 1], others[..n + 1], ends + [end]) <==>
                  && Decided(t, cs[..n], answers[..n], others[..n], ends)
                  && (end.Skipped? <==> answers[n] != Some(false))
                  && (end.Committed? ==> (end.transitioned <==> before.IsPending(cs[n].matchId))))
    ensures CountReads(answers[..n + 1], Some(true)) ==
            CountReads(answers[..n], Some(true)) + if answers[n] == Some(true) then 1 else 0
    ensures CountReads(answers[..n + 1], None) == CountReads(answers[..n], None) + if answers[n] == None then 1 else 0
    ensures Count(ends + [end], Committed(true)) == Count(ends, Committed(true)) + if end ==
              Committed(true) then 1 else 0
  {
    hide ApplyAll, Apply;
    assert cs[..n + 1][..n] == cs[..n] && answers[..n + 1][..n] == answers[..n];
    assert others[..n + 1][..n] == others[..n] && (ends + [end])[..n] == ends;
  }

  datatype SweepResult = SweepResult(scanned: nat, failedUnlocked: nat, ghostSettled: nat, skippedUnknown: nat)

  /**
    Candidates are distinct (the id is a primary key) but may be stale; the multicall as a whole may
    throw, any read may fail, and any remediation may lose its race or throw.
   */
  method Sweep(conn: Connection, cs: seq<Match>, multicall: Option<seq<Option<bool>>>, others: seq<seq<Job>>)
    returns (result: Option<SweepResult>, ghost ends: seq<End>)
    requires DistinctIds(cs) && |others| == |cs|
    requires multicall.Some? ==> |multicall.value| == |cs|
    modifies conn
    ensures result.None? <==> cs != [] && multicall.None?
    ensures result.None? || cs == [] ==> conn.committed == old(conn.committed)
    ensures cs == [] ==> result == Some(SweepResult(0, 0, 0, 0))
    ensures cs != [] && result.Some? ==>
              && |ends| == |cs|
              && (conn.Fine(old(conn.clock), conn.clock) <==> forall e :: e in ends ==> !e.Lost?)
              && conn.committed == Swept(old(conn.committed), cs, others, ends)
              && Decided(old(conn.committed), cs, multicall.value, others, ends)
              && result.value == SweepResult(
                   |cs|,
                   Count(ends, Committed(true)),
                   CountReads(multicall.value, Some(true)),
                   CountReads(multicall.value, None))
  {
    hide Swept, Decided, Count, CountReads, ApplyAll, Apply, DistinctIds;
    ends := [];
    if cs == [] {
      return Some(SweepResult(0, 0, 0, 0)), ends;
    }
    if multicall.None? {
      return None, ends;
    }
    var answers := multicall.value;
    var settledMap := CheckMatchesSettledOnChain(cs, answers);
    var failedUnlocked, ghostSettled, skippedUnknown := 0, 0, 0;
    NothingSwept(old(conn.committed), cs, answers, others);
    for n := 0 to |cs|
      invariant |ends| == n && old(conn.clock) <= conn.clock
      invariant conn.Fine(old(conn.clock), conn.clock) <==> forall e :: e in ends ==> !e.Lost?
      invariant conn.committed == Swept(old(conn.committed), cs[..n], others[..n], ends)
      invariant Decided(old(conn.committed), cs[..n], answers[..n], others[..n], ends)
      invariant failedUnlocked == Count(ends, Committed(true))
      invariant ghostSettled == CountReads(answers[..n], Some(true))
      invariant skippedUnknown == CountReads(answers[..n], None)
    {
      conn.Elsewhere(others[n]);
      ghost var before := conn.committed;
      ghost var end := Skipped;
      if cs[n].matchId !in settledMap {
        skippedUnknown := skippedUnknown + 1;
      } else if settledMap[cs[n].matchId] {
        ghostSettled := ghostSettled + 1;
      } else {
        var r := conn.RemediateUnsettledMatch(cs[n]);
        match r
        case Ok(true) => failedUnlocked := failedUnlocked + 1; end := Committed(true);
        case Ok(false) => end := Committed(false);
        case Err(_) => end := Lost(conn.committed == Apply(before, Remediate(cs[n])));
      }
      SweptNext(old(conn.committed), cs, answers, others, ends, n, end);
      ends := ends + [end];
    }
    assert cs[..|cs|] == cs && answers[..|cs|] == answers && others[..|cs|] == others;
    result := Some(SweepResult(|cs|, failedUnlocked, ghostSettled, skippedUnknown));
  }

  /** Whatever interleaves with it and however it ends, a sweep conserves reservations and fills. */
  lemma {:induction false} SweepConserves(w: World, cs: seq<Match>, others: seq<seq<Job>>, ends: seq<End>)
    requires |cs| == |others| == |ends| && Conserved(w)
    requires forall m :: m in cs ==> Enabled(w, Attempt(Remediate(m)))
    requires forall i :: 0 <= i < |others| ==> Payloads(w, others[i])
    ensures Conserved(w.(db := Swept(w.db, cs, others, ends)))
    ensures SamePayloads(w.db, Swept(w.db, cs, others, ends))
  {
    hide Conserved, Swept, Payloads, Enabled, ApplyAll, Apply;
    if cs == [] {
      assert Swept(w.db, cs, others, ends) == w.db by {
        NoSweep(w.db, cs, others, ends);
      }
    } else {
      var n := |cs| - 1;
      assert cs[n] in cs && forall m :: m in cs[..n] ==> m in cs;
      SweepConserves(w, cs[..n], others[..n], ends[..n]);
      var t1 := Swept(w.db, cs[..n], others[..n], ends[..n]);
      CandidateConserves(w, t1, others[n], cs[n]);
      OneMoreCandidate(w.db, cs, others, ends);
    }
  }

  lemma NoSweep(t: Tables, cs: seq<Match>, others: seq<seq<Job>>, ends: seq<End>)
    requires |cs| == |others| == |ends| == 0
    ensures Swept(t, cs, others, ends) == t
  {
  }

  lemma OneMoreCandidate(t: Tables, cs: seq<Match>, others: seq<seq<Job>>, ends: seq<End>)
    requires |cs| == |others| == |ends| && cs != []
    ensures var n := |cs| - 1;
            var before := ApplyAll(Swept(t, cs[..n], others[..n], ends[..n]), others[n]);
            Swept(t, cs, others, ends) == before || Swept(t, cs, others, ends) == Apply(before, Remediate(cs[n]))
  {
  }

  lemma CandidateConserves(w: World, t1: Tables, jobs: seq<Job>, c: Match)
    requires Conserved(w.(db := t1)) && SamePayloads(w.db, t1)
    requires Enabled(w, Attempt(Remediate(c))) && Payloads(w, jobs)
    ensures var t2 := ApplyAll(t1, jobs);
            && Conserved(w.(db := t2)) && SamePayloads(w.db, t2)
            && Conserved(w.(db := Apply(t2, Remediate(c)))) && SamePayloads(w.db, Apply(t2, Remediate(c)))
  {
    hide Conserved;
    var w1 := w.(db := t1);
    StillEnabled(w, w1, jobs);
    AttemptsKeepConserved(w1, jobs);
    PayloadsStay(t1, jobs);
    var w2 := w.(db := ApplyAll(t1, jobs));
    StillEnabled(w, w2, [Remediate(c)]);
    assert Remediate(c) in [Remediate(c)];
    StepKeepsConserved(w2, Attempt(Remediate(c)));
    ApplyMeans(w2.db, Remediate(c));
  }

  ghost predicate SamePayloads(a: Tables, b: Tables) {
    a.matches.Keys == b.matches.Keys && forall id :: id in a.matches ==> a.matches[id].payload == b.matches[id].payload
  }

  lemma StillEnabled(w: World, w': World, jobs: seq<Job>)
    requires SamePayloads(w.db, w'.db) && forall j :: j in jobs ==> Enabled(w, Attempt(j))
    ensures Payloads(w', jobs)
  {
  }

  lemma {:induction false} PayloadsStay(t: Tables, jobs: seq<Job>)
    ensures SamePayloads(t, ApplyAll(t, jobs))
    decreases jobs
  {
    if jobs != [] {
      ApplyMeans(t, jobs[0]);
      PayloadsStay(Apply(t, jobs[0]), jobs[1..]);
    }
  }

  // ----- How far sweeping gets -----

  /** The PENDING matches of a list, in order. */
  function Pendings(t: Tables, log: seq<Match>): seq<Match> {
    if log == [] then []
    else
      var before := Pendings(t, log[..|log| - 1]);
      if t.IsPending(log[|log| - 1].matchId) then before + [log[|log| - 1]] else before
  }

  /** The selection rule: of the matches past the threshold, oldest first, the first `limit` PENDING ones. */
  function FindStuckPendingMatches(t: Tables, log: seq<Match>, limit: nat): seq<Match> {
    var pendings := Pendings(t, log);
    if |pendings| <= limit then pendings else pendings[..limit]
  }

  /** A sweep whose reads all succeed and whose transactions all commit. */
  function FailUnsettled(t: Tables, cs: seq<Match>, chain: set<MatchId>): Tables {
    if cs == [] then t
    else
      var before := FailUnsettled(t, cs[..|cs| - 1], chain);
      if cs[|cs| - 1].matchId in chain then before else Apply(before, Remediate(cs[|cs| - 1]))
  }

  /** That many such sweeps in a row, over the same matches and chain. */
  function Sweeps(t: Tables, log: seq<Match>, limit: nat, chain: set<MatchId>, k: nat): Tables
    decreases k
  {
    if k == 0 then t
    else Sweeps(FailUnsettled(t, FindStuckPendingMatches(t, log, limit), chain), log, limit, chain, k - 1)
  }

  /** The PENDING matches of a list that are settled on chain: the sweeper leaves them where they are. */
  function Ghosts(t: Tables, log: seq<Match>, chain: set<MatchId>): nat {
    OnChain(Pendings(t, log), chain)
  }

  function OnChain(ms: seq<Match>, chain: set<MatchId>): nat {
    if ms == [] then 0 else OnChain(ms[..|ms| - 1], chain) + if ms[|ms| - 1].matchId in chain then 1 else 0
  }

  /**
    A sweep whose reads all say what is on chain, none of whose transactions is lost and between which
    no one else commits, is `FailUnsettled`.
   */
  lemma {:induction false} FaultFree(t: Tables, cs: seq<Match>, chain: set<MatchId>, answers: seq<Option<bool>>,
                                     others: seq<seq<Job>>, ends: seq<End>)
    requires |cs| == |answers| == |others| == |ends| && Decided(t, cs, answers, others, ends)
    requires forall i :: 0 <= i < |cs| ==> answers[i] == Some(cs[i].matchId in chain)
    requires (forall o :: o in others ==> o == []) && (forall e :: e in ends ==> !e.Lost?)
    ensures Swept(t, cs, others, ends) == FailUnsettled(t, cs, chain)
  {
    if cs != [] {
      var n := |cs| - 1;
      assert others[n] in others && forall o :: o in others[..n] ==> o in others;
      assert ends[n] in ends && forall e :: e in ends[..n] ==> e in ends;
      FaultFree(t, cs[..n], chain, answers[..n], others[..n], ends[..n]);
    }
  }

  lemma {:induction false} FailUnsettledAt(t: Tables, cs: seq<Match>, chain: set<MatchId>, id: MatchId)
    ensures FailUnsettled(t, cs, chain).IsPending(id) <==>
            t.IsPending(id) && (id in chain || forall c :: c in cs ==> c.matchId != id)
  {
    if cs != [] {
      var init, last := cs[..|cs| - 1], cs[|cs| - 1];
      FailUnsettledAt(t, init, chain, id);
      ApplyMeans(FailUnsettled(t, init, chain), Remediate(last));
      assert forall c :: c in cs <==> c in init || c == last;
    }
  }

  lemma {:induction false} PendingsMeans(t: Tables, log: seq<Match>, m: Match)
    ensures m in Pendings(t, log) <==> m in log && t.IsPending(m.matchId)
  {
    if log != [] {
      PendingsMeans(t, log[..|log| - 1], m);
      assert m in log <==> m in log[..|log| - 1] || m == log[|log| - 1];
    }
  }

  lemma {:induction false} PendingsPrefix(t: Tables, log: seq<Match>, i: nat)
    requires i <= |log|
    ensures Pendings(t, log[..i]) <= Pendings(t, log)
  {
    if i < |log| {
      PendingsPrefix(t, log[..|log| - 1], i);
      assert log[..|log| - 1][..i] == log[..i];
    } else {
      assert log[..i] == log;
    }
  }

  /** Fewer PENDING ids, fewer PENDING matches; strictly, if one of the list's went. */
  lemma {:induction false} PendingsShrink(t: Tables, t': Tables, log: seq<Match>)
    requires forall m :: m in log && t'.IsPending(m.matchId) ==> t.IsPending(m.matchId)
    ensures |Pendings(t', log)| <= |Pendings(t, log)|
    ensures (exists m :: m in log && t.IsPending(m.matchId) && !t'.IsPending(m.matchId)) ==>
              |Pendings(t', log)| < |Pendings(t, log)|
  {
    if log != [] {
      var init, last := log[..|log| - 1], log[|log| - 1];
      assert last in log && forall m :: m in init ==> m in log;
      PendingsShrink(t, t', init);
      if m :| m in log && t.IsPending(m.matchId) && !t'.IsPending(m.matchId) {
        assert m in init || m == last;
      }
    }
  }

  lemma {:induction false} GhostsStay(t: Tables, t': Tables, log: seq<Match>, chain: set<MatchId>)
    requires forall m :: m in log && m.matchId in chain ==> (t'.IsPending(m.matchId) <==> t.IsPending(m.matchId))
    ensures Ghosts(t', log, chain) == Ghosts(t, log, chain)
  {
    if log != [] {
      var init, last := log[..|log| - 1], log[|log| - 1];
      assert last in log && forall m :: m in init ==> m in log;
      GhostsStay(t, t', init, chain);
    }
  }

  lemma {:induction false} OnChainAtMost(ms: seq<Match>, n: nat, chain: set<MatchId>)
    requires n <= |ms|
    ensures OnChain(ms[..n], chain) <= OnChain(ms, chain) <= |ms|
  {
    if n < |ms| {
      OnChainAtMost(ms[..|ms| - 1], n, chain);
      assert ms[..|ms| - 1][..n] == ms[..n];
    } else if ms != [] {
      OnChainAtMost(ms[..|ms| - 1], |ms| - 1, chain);
      assert ms[..n] == ms;
    }
  }

  lemma {:induction false} AllOnChain(ms: seq<Match>, chain: set<MatchId>)
    requires forall m :: m in ms ==> m.matchId in chain
    ensures OnChain(ms, chain) == |ms|
  {
    if ms != [] {
      assert ms[|ms| - 1] in ms && forall m :: m in ms[..|ms| - 1] ==> m in ms;
      AllOnChain(ms[..|ms| - 1], chain);
    }
  }

  /** Whether the next sweep reaches the match at a position: only if fewer than `limit` PENDING ones precede it. */
  lemma ReachedNext(t: Tables, log: seq<Match>, limit: nat, i: nat)
    requires DistinctIds(log) && i < |log| && t.IsPending(log[i].matchId)
    ensures log[i] in FindStuckPendingMatches(t, log, limit) <==> |Pendings(t, log[..i])| < limit
    ensures limit <= |Pendings(t, log[..i])| ==>
              FindStuckPendingMatches(t, log, limit) == Pendings(t, log[..i])[..limit]
  {
    var before := Pendings(t, log[..i]);
    assert log[..i + 1][..i] == log[..i];
    assert Pendings(t, log[..i + 1]) == before + [log[i]];
    PendingsPrefix(t, log, i + 1);
    PendingsPrefix(t, log, i);
    assert Pendings(t, log)[|before|] == log[i];
    if limit <= |before| {
      assert FindStuckPendingMatches(t, log, limit) == before[..limit];
      if log[i] in before[..limit] {
        assert log[i] in before;
        PendingsMeans(t, log[..i], log[i]);
        assert false;
      }
    } else {
      assert FindStuckPendingMatches(t, log, limit)[|before|] == log[i];
    }
  }

  /** One fault-free sweep never un-fails a match and never touches a ghost. */
  lemma OneSweep(t: Tables, log: seq<Match>, limit: nat, chain: set<MatchId>)
    ensures var t' := FailUnsettled(t, FindStuckPendingMatches(t, log, limit), chain);
            && (forall m :: m in log && t'.IsPending(m.matchId) ==> t.IsPending(m.matchId))
            && (forall m :: m in log && m.matchId in chain ==> (t'.IsPending(m.matchId) <==> t.IsPending(m.matchId)))
  {
    forall m | m in log
      ensures var t' := FailUnsettled(t, FindStuckPendingMatches(t, log, limit), chain);
              && (t'.IsPending(m.matchId) ==> t.IsPending(m.matchId))
              && (m.matchId in chain ==> (t'.IsPending(m.matchId) <==> t.IsPending(m.matchId)))
    {
      FailUnsettledAt(t, FindStuckPendingMatches(t, log, limit), chain, m.matchId);
    }
  }

  /** With `limit` ghosts before it, a stuck match is never swept, however many sweeps run. */
  lemma {:induction false} GhostsBlock(t: Tables, log: seq<Match>, limit: nat, chain: set<MatchId>, i: nat, k: nat)
    requires DistinctIds(log) && i < |log| && t.IsPending(log[i].matchId)
    requires limit <= Ghosts(t, log[..i], chain)
    ensures Sweeps(t, log, limit, chain, k).IsPending(log[i].matchId)
    decreases k
  {
    if k > 0 {
      var cs := FindStuckPendingMatches(t, log, limit);
      var t' := FailUnsettled(t, cs, chain);
      OneSweep(t, log, limit, chain);
      assert forall m :: m in log[..i] ==> m in log;
      GhostsStay(t, t', log[..i], chain);
      NotReached(t, log, limit, chain, i);
      GhostsBlock(t', log, limit, chain, i, k - 1);
    }
  }

  lemma NotReached(t: Tables, log: seq<Match>, limit: nat, chain: set<MatchId>, i: nat)
    requires DistinctIds(log) && i < |log| && t.IsPending(log[i].matchId)
    requires limit <= Ghosts(t, log[..i], chain)
    ensures FailUnsettled(t, FindStuckPendingMatches(t, log, limit), chain).IsPending(log[i].matchId)
  {
    var cs := FindStuckPendingMatches(t, log, limit);
    var before := Pendings(t, log[..i]);
    OnChainAtMost(before, 0, chain);
    ReachedNext(t, log, limit, i);
    forall c | c in cs ensures c.matchId != log[i].matchId {
      assert c in before;
      PendingsMeans(t, log[..i], c);
      var j :| 0 <= j < i && log[..i][j] == c;
      assert log[j] == c;
    }
    FailUnsettledAt(t, cs, chain, log[i].matchId);
  }

  /** With fewer ghosts before it, enough sweeps reach it. */
  lemma {:induction false} SweptInTime(t: Tables, log: seq<Match>, limit: nat, chain: set<MatchId>, i: nat)
    returns (k: nat)
    requires DistinctIds(log) && i < |log| && t.IsPending(log[i].matchId) && log[i].matchId !in chain
    requires Ghosts(t, log[..i], chain) < limit
    ensures k <= |Pendings(t, log[..i])| + 1 && !Sweeps(t, log, limit, chain, k).IsPending(log[i].matchId)
    decreases |Pendings(t, log[..i])|
  {
    var cs := FindStuckPendingMatches(t, log, limit);
    var t' := FailUnsettled(t, cs, chain);
    ReachedNext(t, log, limit, i);
    FailUnsettledAt(t, cs, chain, log[i].matchId);
    assert Sweeps(t, log, limit, chain, 1) == Sweeps(t', log, limit, chain, 0);
    if !t'.IsPending(log[i].matchId) {
      k := 1;
    } else {
      OneSweep(t, log, limit, chain);
      assert forall m :: m in log[..i] ==> m in log;
      GhostsStay(t, t', log[..i], chain);
      SomeoneFails(t, log, limit, chain, i);
      PendingsShrink(t, t', log[..i]);
      k := SweptInTime(t', log, limit, chain, i);
      k := k + 1;
    }
  }

  lemma SomeoneFails(t: Tables, log: seq<Match>, limit: nat, chain: set<MatchId>, i: nat)
    requires DistinctIds(log) && i < |log| && t.IsPending(log[i].matchId)
    requires Ghosts(t, log[..i], chain) < limit <= |Pendings(t, log[..i])|
    ensures var t' := FailUnsettled(t, FindStuckPendingMatches(t, log, limit), chain);
            exists m :: m in log[..i] && t.IsPending(m.matchId) && !t'.IsPending(m.matchId)
  {
    var before := Pendings(t, log[..i]);
    var cs := before[..limit];
    ReachedNext(t, log, limit, i);
    OnChainAtMost(before, limit, chain);
    if forall m :: m in cs ==> m.matchId in chain {
      AllOnChain(cs, chain);
    }
    var m :| m in cs && m.matchId !in chain;
    assert m in before;
    PendingsMeans(t, log[..i], m);
    FailUnsettledAt(t, cs, chain, m.matchId);
  }

  /**
    Sweep after fault-free sweep, a stuck match that is not on chain is eventually failed and its
    locks released if and only if fewer than `limit` older PENDING matches are settled on chain:
    ghost-settled matches are reported but never leave the head of the selection.
   */
  lemma EventuallySweptExactly(t: Tables, log: seq<Match>, limit: nat, chain: set<MatchId>, i: nat)
    requires DistinctIds(log) && i < |log| && t.IsPending(log[i].matchId) && log[i].matchId !in chain
    ensures (exists k :: !Sweeps(t, log, limit, chain, k).IsPending(log[i].matchId)) <==>
            Ghosts(t, log[..i], chain) < limit
  {
    if Ghosts(t, log[..i], chain) < limit {
      var k := SweptInTime(t, log, limit, chain, i);
    } else {
      forall k: nat ensures Sweeps(t, log, limit, chain, k).IsPending(log[i].matchId) {
        GhostsBlock(t, log, limit, chain, i, k);
      }
    }
  }
}
