/**
  `processSettlementBatch` as it runs: every call to Redis, the database, the chain or a dry-run
  gets its reply from an arbitrary script, and every effect is added to the trace.
 */
module ProcessBatch {
  import opened Matches
  import opened Grouping
  import opened Trace
  import opened Options

  /** Everything an external call could answer; one that throws may have landed all the same. */
  datatype Reply = Reply(throws: bool, landed: bool, retryable: bool, settled: Option<bool>, verdict: Verdict,
      collateral: Collateral)

  /** How a call ends: normally, with a BatchProcessingError, or with any other exception. */
  datatype End = Returned | Failed(retryable: bool) | Threw

  /** What the reply to an external call makes of it: the event it leaves says what the reply said. */
  predicate Fits(e: Event, r: Reply) {
    match e
    case ReadSettled(_, result) => result == r.settled
    case Simulated(_, _, verdict) => verdict == r.verdict
    case Probed(_, _, outcome) => outcome == r.verdict
    case Submitted(_, _, mined) => mined == !r.throws
    case Unwritten(_) => r.throws && !r.landed
    case _ => !r.throws || r.landed
  }

  /** `at[i]` is the number of the reply that event i of the trace comes from; no reply leaves two. */
  ghost predicate Heard(t: seq<Event>, at: seq<nat>, script: nat -> Reply, clock: nat) {
    && |at| == |t|
    && (forall i {:trigger at[i]} :: 0 <= i < |at| ==> 0 < at[i] <= clock && Fits(t[i], script(at[i])))
    && (forall i, j {:trigger at[i], at[j]} :: 0 <= i < j < |at| ==> at[i] < at[j])
  }

  lemma HeardOn(t: seq<Event>, at: seq<nat>, script: nat -> Reply, clock: nat, n: nat, e: Event)
    requires Heard(t, at, script, clock) && clock < n && Fits(e, script(n))
    ensures Heard(t + [e], at + [n], script, n)
  {
  }

  /** The collateral of a batch; a read that fails leaves it empty. */
  function CollateralRead(r: Reply): Collateral {
    if r.throws then map[] else r.collateral
  }

  /** Events that neither acknowledge, delete, simulate, submit nor quarantine. */
  ghost predicate Quiet(t: seq<Event>, t': seq<Event>) {
    && t <= t'
    && (Justified(t) ==> Justified(t'))
    && AckedIn(t') == AckedIn(t) && DeletedIn(t') == DeletedIn(t)
    && LastDryRun(t') == LastDryRun(t) && Counts(t') == Counts(t) && Loads(t') == Loads(t)
    && (HasFlaky(t') <==> HasFlaky(t)) && (HasQuarantine(t') <==> HasQuarantine(t))
  }

  // ----- Splitting a list by flags, and the classes that result -----

  function Split(es: seq<Entry>, flags: seq<bool>, flag: bool): seq<Entry>
    requires |flags| == |es|
  {
    if es == [] then []
    else
      var n := |es| - 1;
      var before := Split(es[..n], flags[..n], flag);
      if flags[n] == flag then before + [es[n]] else before
  }

  /** The poison flags of the kept entries, spread over the whole batch. */
  function Reclass(classes: seq<Class>, poison: seq<bool>): seq<Class>
    ensures |Reclass(classes, poison)| == |classes|
  {
    if classes == [] then []
    else
      var n := |classes| - 1;
      if classes[n] == Kept && poison != []
      then Reclass(classes[..n], poison[..|poison| - 1]) + [if poison[|poison| - 1] then Poison else Kept]
      else Reclass(classes[..n], poison) + [classes[n]]
  }

  lemma {:induction false} ReclassPicks(es: seq<Entry>, classes: seq<Class>, poison: seq<bool>)
    requires |classes| == |es| && (forall c :: c in classes ==> c != Poison)
    requires |poison| == |Pick(es, classes, Kept)|
    ensures Pick(es, Reclass(classes, poison), AlreadySettled) == Pick(es, classes, AlreadySettled)
    ensures Pick(es, Reclass(classes, poison), Poison) == Split(Pick(es, classes, Kept), poison, true)
    ensures Pick(es, Reclass(classes, poison), Kept) == Split(Pick(es, classes, Kept), poison, false)
  {
    if es != [] {
      var n := |es| - 1;
      var init := classes[..n];
      var kept := Pick(es, classes, Kept);
      var rc := Reclass(classes, poison);
      assert classes[n] in classes;
      assert forall c :: c in init ==> c in classes;
      if classes[n] == Kept {
        var p := poison[..|poison| - 1];
        ReclassPicks(es[..n], init, p);
        assert kept[..|kept| - 1] == Pick(es[..n], init, Kept);
        assert rc[..n] == Reclass(init, p);
      } else {
        ReclassPicks(es[..n], init, poison);
        assert rc[..n] == Reclass(init, poison);
      }
    }
  }

  lemma {:induction false} SplitMembers(es: seq<Entry>, flags: seq<bool>, flag: bool)
    requires |flags| == |es|
    ensures forall e :: e in Split(es, flags, flag) ==> exists i :: 0 <= i < |es| && es[i] == e && flags[i] == flag
  {
    if es != [] {
      var n := |es| - 1;
      SplitMembers(es[..n], flags[..n], flag);
      forall e | e in Split(es, flags, flag) ensures exists i :: 0 <= i < |es| && es[i] == e && flags[i] == flag {
        if e in Split(es[..n], flags[..n], flag) {
          var i :| 0 <= i < n && es[..n][i] == e && flags[..n][i] == flag;
          assert es[i] == e && flags[i] == flag;
        } else {
          assert es[n] == e && flags[n] == flag;
        }
      }
    }
  }

  lemma GroupedPrefix(es: seq<Entry>, ss: seq<Stream>, k: nat, j: nat)
    requires k < |ss| && j <= |OfStream(es, ss[k])|
    ensures GroupedBy(es, ss[..k]) + OfStream(es, ss[k])[..j] <= GroupedBy(es, ss)
    decreases |ss| - k
  {
    var here := GroupedBy(es, ss[..k]) + OfStream(es, ss[k])[..j];
    assert ss[..k + 1][..k] == ss[..k];
    assert here <= GroupedBy(es, ss[..k + 1]);
    if k + 1 < |ss| {
      GroupedPrefix(es, ss, k + 1, 0);
      assert GroupedBy(es, ss[..k + 1]) + OfStream(es, ss[k + 1])[..0] == GroupedBy(es, ss[..k + 1]);
    } else {
      assert ss[..k + 1] == ss;
    }
  }

  /** Whole groups and part of the next are the start of the whole grouping. */
  lemma PartOfGroup(es: seq<Entry>, ss: seq<Stream>, k: nat, part: seq<Entry>)
    requires k < |ss| && part <= OfStream(es, ss[k])
    ensures GroupedBy(es, ss[..k]) + part <= GroupedBy(es, ss)
    ensures var n := |GroupedBy(es, ss[..k])| + |part|;
            n <= |GroupedBy(es, ss)| && GroupedBy(es, ss)[..n] == GroupedBy(es, ss[..k]) + part
  {
    GroupedPrefix(es, ss, k, |part|);
    assert OfStream(es, ss[k])[..|part|] == part;
  }

  lemma AckStep(base: seq<Event>, es: seq<Entry>, ss: seq<Stream>, k: nat, part: seq<Entry>)
    requires k < |ss| && part <= OfStream(es, ss[k])
    ensures var n := |GroupedBy(es, ss[..k])| + |part|;
            && n <= |GroupedBy(es, ss)|
            && base + Acks(GroupedBy(es, ss[..k])) + Acks(part) == base + Acks(GroupedBy(es, ss)[..n])
    ensures part == OfStream(es, ss[k]) ==>
              base + Acks(GroupedBy(es, ss[..k])) + Acks(part) == base + Acks(GroupedBy(es, ss[..k + 1]))
  {
    AcksConcat(GroupedBy(es, ss[..k]), part);
    Assoc(base, Acks(GroupedBy(es, ss[..k])), Acks(part));
    PartOfGroup(es, ss, k, part);
    if part == OfStream(es, ss[k]) {
      GroupedNext(es, ss, k, part);
    }
  }

  lemma DeleteStep(base: seq<Event>, es: seq<Entry>, ss: seq<Stream>, k: nat, chunks: seq<seq<Entry>>,
                   more: seq<seq<Entry>>)
    requires k < |ss| && Flat(more) <= OfStream(es, ss[k])
    requires Chunked(chunks) && Chunked(more) && Flat(chunks) == GroupedBy(es, ss[..k])
    ensures Chunked(chunks + more) && Flat(chunks + more) <= GroupedBy(es, ss)
    ensures base + Deletes(chunks) + Deletes(more) == base + Deletes(chunks + more)
    ensures Flat(more) == OfStream(es, ss[k]) ==> Flat(chunks + more) == GroupedBy(es, ss[..k + 1])
  {
    DeletesConcat(chunks, more);
    ChunkedConcat(chunks, more);
    Assoc(base, Deletes(chunks), Deletes(more));
    PartOfGroup(es, ss, k, Flat(more));
    if Flat(more) == OfStream(es, ss[k]) {
      GroupedNext(es, ss, k, Flat(more));
    }
  }

  lemma GroupedNext(es: seq<Entry>, ss: seq<Stream>, k: nat, whole: seq<Entry>)
    requires k < |ss| && whole == OfStream(es, ss[k])
    ensures GroupedBy(es, ss[..k + 1]) == GroupedBy(es, ss[..k]) + whole
  {
    assert ss[..k + 1][..k] == ss[..k];
  }

  lemma {:induction false} GroupedMembers(es: seq<Entry>, s: Stream)
    ensures forall e :: e in OfStream(es, s) ==> e in es && e.stream == s
  {
    if es != [] {
      GroupedMembers(es[..|es| - 1], s);
    }
  }

  class BatchRun {
    var trace: seq<Event>
    var clock: nat
    const script: nat -> Reply
    /** Which reply each event of the trace comes from. */
    ghost var at: seq<nat>

    ghost predicate Valid()
      reads this
    {
      Heard(trace, at, script, clock)
    }

    constructor (script: nat -> Reply)
      ensures trace == [] && clock == 0 && this.script == script && Valid()
    {
      trace, clock, at := [], 0, [];
      this.script := script;
    }

    /** The next reply. */
    method Ask() returns (r: Reply)
      requires Valid()
      modifies this`clock
      ensures clock == old(clock) + 1 && r == script(clock)
      ensures Valid() && Heard(trace, at, script, clock - 1)
    {
      clock := clock + 1;
      r := script(clock);
    }

    /** What the latest reply leaves in the trace. */
    method Leave(e: Event)
      requires 0 < clock && Heard(trace, at, script, clock - 1) && Fits(e, script(clock))
      modifies `trace, `at
      ensures trace == old(trace) + [e] && at == old(at) + [clock] && Valid()
    {
      HeardOn(trace, at, script, clock - 1, clock, e);
      trace, at := trace + [e], at + [clock];
    }

    /** The entries of a batch by stream, and the streams in first-seen order. */
    method GroupByStream(es: seq<Entry>) returns (streams: seq<Stream>, idsByStream: map<Stream, seq<Entry>>)
      ensures streams == Streams(es)
      ensures forall s :: s in streams ==> s in idsByStream && idsByStream[s] == OfStream(es, s)
    {
      streams, idsByStream := [], map[];
      for i := 0 to |es|
        invariant streams == Streams(es[..i])
        invariant forall s :: s in idsByStream <==> s in streams
        invariant forall s :: s in idsByStream ==> idsByStream[s] == OfStream(es[..i], s)
      {
        assert es[..i + 1][..i] == es[..i];
        var s := es[i].stream;
        if s !in idsByStream {
          OfAbsentStream(es[..i], s);
          streams := streams + [s];
        }
        var ids := if s in idsByStream then idsByStream[s] else [];
        idsByStream := idsByStream[s := ids + [es[i]]];
      }
      assert es[..|es|] == es;
    }

    method AckIds(ids: seq<Entry>) returns (ok: bool, ghost acked: nat)
      requires Valid()
      modifies this
      ensures Valid() && old(clock) <= clock && old(at) <= at && (!ok ==> script(clock).throws)
      ensures acked <= |ids| && (ok ==> acked == |ids|)
      ensures trace == old(trace) + Acks(ids[..acked])
    {
      for j := 0 to |ids|
        invariant Valid() && old(clock) <= clock && old(at) <= at && trace == old(trace) + Acks(ids[..j])
      {
        var r := Ask();
        if r.throws && !r.landed {
          return false, j;
        }
        Leave(Acked(ids[j]));
        AcksOneMore(ids[..j], ids[j]);
        assert ids[..j + 1] == ids[..j] + [ids[j]];
        if r.throws {
          return false, j + 1;
        }
      }
      ok, acked := true, |ids|;
    }

    method DeleteIds(ids: seq<Entry>) returns (ok: bool, ghost chunks: seq<seq<Entry>>)
      requires Valid() && OneStream(ids)
      modifies this
      ensures Valid() && old(clock) <= clock && old(at) <= at && (!ok ==> script(clock).throws)
      ensures Flat(chunks) <= ids && (ok ==> Flat(chunks) == ids)
      ensures Chunked(chunks) && trace == old(trace) + Deletes(chunks)
    {
      hide Heard;
      chunks := [];
      var i := 0;
      while i < |ids|
        invariant 0 <= i <= |ids| && Valid() && old(clock) <= clock && old(at) <= at
        invariant Flat(chunks) == ids[..i] && Chunked(chunks)
        invariant trace == old(trace) + Deletes(chunks)
      {
        var r := Ask();
        if r.throws && !r.landed {
          return false, chunks;
        }
        var end := if i + DELETE_BATCH_SIZE < |ids| then i + DELETE_BATCH_SIZE else |ids|;
        Leave(Deleted(ids[i..end]));
        DeletesOneMore(chunks, ids[i..end]);
        OneMoreChunk(chunks, ids, i, end);
        chunks := chunks + [ids[i..end]];
        if r.throws {
          return false, chunks;
        }
        i := end;
      }
      assert ids[..|ids|] == ids;
      ok := true;
    }

    method AckStreams(es: seq<Entry>, streams: seq<Stream>, idsByStream: map<Stream, seq<Entry>>)
      returns (ok: bool, ghost acked: nat)
      requires Valid() && forall s :: s in streams ==> s in idsByStream && idsByStream[s] == OfStream(es, s)
      modifies this
      ensures Valid() && old(clock) <= clock && old(at) <= at && (!ok ==> script(clock).throws)
      ensures acked <= |GroupedBy(es, streams)| && (ok ==> acked == |GroupedBy(es, streams)|)
      ensures trace == old(trace) + Acks(GroupedBy(es, streams)[..acked])
    {
      for k := 0 to |streams|
        invariant Valid() && old(clock) <= clock && old(at) <= at
        invariant trace == old(trace) + Acks(GroupedBy(es, streams[..k]))
      {
        var done, n := AckIds(idsByStream[streams[k]]);
        AckStep(old(trace), es, streams, k, idsByStream[streams[k]][..n]);
        if !done {
          return false, |GroupedBy(es, streams[..k])| + n;
        }
      }
      assert streams[..|streams|] == streams;
      ok, acked := true, |GroupedBy(es, streams)|;
      assert GroupedBy(es, streams)[..acked] == GroupedBy(es, streams);
    }

    method DeleteStreams(es: seq<Entry>, streams: seq<Stream>, idsByStream: map<Stream, seq<Entry>>)
      returns (ok: bool, ghost chunks: seq<seq<Entry>>)
      requires Valid() && forall s :: s in streams ==> s in idsByStream && idsByStream[s] == OfStream(es, s)
      modifies this
      ensures Valid() && old(clock) <= clock && old(at) <= at && (!ok ==> script(clock).throws)
      ensures Flat(chunks) <= GroupedBy(es, streams) && (ok ==> Flat(chunks) == GroupedBy(es, streams))
      ensures Chunked(chunks) && trace == old(trace) + Deletes(chunks)
    {
      chunks := [];
      for k := 0 to |streams|
        invariant Valid() && old(clock) <= clock && old(at) <= at
        invariant Flat(chunks) == GroupedBy(es, streams[..k]) && Chunked(chunks)
        invariant trace == old(trace) + Deletes(chunks)
      {
        GroupedMembers(es, streams[k]);
        var done, more := DeleteIds(idsByStream[streams[k]]);
        DeleteStep(old(trace), es, streams, k, chunks, more);
        chunks := chunks + more;
        if !done {
          return false, chunks;
        }
      }
      assert streams[..|streams|] == streams;
      ok := true;
    }

    /** Group by stream, XACK every entry one by one, then XDEL in chunks. */
    method AckAndDelete(es: seq<Entry>) returns (ok: bool, ghost acked: nat, ghost deleted: nat)
      requires Valid() && Justified(trace)
      requires forall e :: e in es ==> Done(trace, e.payload)
      modifies this
      ensures Valid() && old(clock) <= clock && old(at) <= at && (!ok ==> script(clock).throws)
      ensures Justified(trace) && SameVerdicts(old(trace), trace)
      ensures deleted <= acked <= |Grouped(es)| && (ok ==> deleted == acked == |Grouped(es)|)
      ensures AckedIn(trace) == AckedIn(old(trace)) + Grouped(es)[..acked]
      ensures DeletedIn(trace) == DeletedIn(old(trace)) + Grouped(es)[..deleted]
    {
      hide AckedIn, DeletedIn, LastDryRun, HasFlaky, HasQuarantine, HasMined, Counts, Loads, Justified, Done, Streams,
          GroupedBy, Acks, Deletes, Heard;
      var streams, idsByStream := GroupByStream(es);
      ok, acked := AckStreams(es, streams, idsByStream);
      ghost var t1 := trace;
      AddAcks(old(trace), Grouped(es)[..acked]);
      GroupedResolved(es, old(trace), acked);
      deleted := 0;
      if ok {
        ghost var chunks;
        ok, chunks := DeleteStreams(es, streams, idsByStream);
        AddDeletes(t1, chunks);
        assert forall e :: e in Flat(chunks) ==> e in Grouped(es)[..acked];
        DeletesJustified(t1, chunks);
        deleted := |Flat(chunks)|;
        assert Grouped(es)[..deleted] == Flat(chunks);
        assert Grouped(es)[..acked] == Grouped(es);
      }
    }

    // ----- The stages -----

    /** One multicall; an entry is settled only if its own read succeeded and said so. */
    method FilterAlreadySettledMatches(es: seq<Entry>)
      returns (ok: bool, unsettled: seq<Entry>, alreadySettled: seq<Entry>, ghost classes: seq<Class>)
      requires Valid()
      modifies this
      ensures Valid() && old(clock) < clock && old(at) <= at && Quiet(old(trace), trace)
      ensures if ok then |trace| == |old(trace)| + |es| else trace == old(trace) && script(clock).throws
      ensures |classes| == |es| && forall c :: c in classes ==> c != Poison
      ensures ok ==> forall i :: 0 <= i < |es| && classes[i] == Kept ==> ReadOpen(trace, es[i].payload.matchId)
      ensures ok ==> alreadySettled == Pick(es, classes, AlreadySettled) && unsettled == Pick(es, classes, Kept)
      ensures forall i :: 0 <= i < |es| && classes[i] == AlreadySettled ==>
                ReadSettled(es[i].payload.matchId, Some(true)) in trace
      ensures forall e :: e in alreadySettled ==> ReadSettled(e.payload.matchId, Some(true)) in trace
      ensures !ok ==> forall i :: 0 <= i < |es| ==> classes[i] == Kept
    {
      assert Sorted(es[..0], [], [], [], trace);
      hide Heard, Justified, AckedIn, DeletedIn, LastDryRun, HasFlaky, HasQuarantine, Counts, Loads, Sorted;
      unsettled, alreadySettled, classes := [], [], [];
      var r := Ask();
      if r.throws {
        return false, [], [], seq(|es|, _ => Kept);
      }
      for i := 0 to |es|
        invariant Valid() && old(clock) < clock && old(at) <= at && Quiet(old(trace), trace)
        invariant |trace| == |old(trace)| + i
        invariant |classes| == i && Sorted(es[..i], classes, unsettled, alreadySettled, trace)
      {
        var read := Ask();
        var e := ReadSettled(es[i].payload.matchId, read.settled);
        QuietSnoc(old(trace), trace, e);
        SortedNext(es, i, classes, unsettled, alreadySettled, trace, read.settled);
        Leave(e);
        if read.settled == Some(true) {
          alreadySettled := alreadySettled + [es[i]];
          classes := classes + [AlreadySettled];
        } else {
          unsettled := unsettled + [es[i]];
          classes := classes + [Kept];
        }
      }
      assert es[..|es|] == es;
      ok := true;
    }

    /** One writeback after another, whatever becomes of each: it is in the trace, or that it threw is. */
    method ReleaseLocksForAlreadySettled(es: seq<Entry>)
      requires Valid() && forall e :: e in es ==> SeenOnChain(trace, e.payload.matchId)
      modifies this
      ensures Valid() && clock == old(clock) + |es| && old(at) <= at && Quiet(old(trace), trace)
      ensures |trace| == |old(trace)| + |es|
      ensures forall i :: 0 <= i < |es| ==>
                var r, m := script(old(clock) + 1 + i), es[i].payload;
                trace[|old(trace)| + i] == if r.throws && !r.landed then Unwritten(m) else WroteBack(m)
      ensures forall e :: e in es ==> Tried(trace, e.payload)
    {
      hide AckedIn, DeletedIn, LastDryRun, HasFlaky, HasQuarantine, HasMined, Counts, Loads, Justified, Heard;
      for i := 0 to |es|
        invariant Valid() && clock == old(clock) + i && old(at) <= at && Quiet(old(trace), trace)
        invariant |trace| == |old(trace)| + i
        invariant forall j :: 0 <= j < i ==>
                    var r, m := script(old(clock) + 1 + j), es[j].payload;
                    trace[|old(trace)| + j] == if r.throws && !r.landed then Unwritten(m) else WroteBack(m)
      {
        var r := Ask();
        assert es[i] in es;
        SeenStays(old(trace), trace, es[i].payload);
        var e := if r.throws && !r.landed then Unwritten(es[i].payload) else WroteBack(es[i].payload);
        QuietSnoc(old(trace), trace, e);
        Leave(e);
      }
      AllTried(es, old(trace), trace);
    }

    method SimulateSettleBatch(ms: seq<Match>, collateral: Collateral) returns (v: Verdict)
      requires Valid()
      modifies this
      ensures Valid() && old(clock) <= clock && old(at) <= at
      ensures ms == [] ==> v == Clean && trace == old(trace)
      ensures ms != [] ==> v == script(clock).verdict && trace == old(trace) + [Simulated(ms, collateral, v)]
      ensures ms != [] ==> clock == old(clock) + 1 && at == old(at) + [clock]
    {
      if ms == [] {
        return Clean;
      }
      var r := Ask();
      v := r.verdict;
      Leave(Simulated(ms, collateral, v));
    }

    /** Probe every match alone; a single flaky probe voids the verdicts. */
    method ProbeAll(es: seq<Entry>, collateral: Collateral) returns (verdicts: seq<Verdict>)
      requires Valid()
      modifies this
      ensures Valid() && old(clock) <= clock && old(at) <= at
      ensures |verdicts| == |es|
      ensures SameAcks(old(trace), trace) && Loads(old(trace)) <= Loads(trace) <= Loads(old(trace)) + {collateral}
      ensures LastDryRun(trace) == LastDryRun(old(trace)) && Counts(trace) == Counts(old(trace))
      ensures HasFlaky(trace) <==> HasFlaky(old(trace)) || Flaky in verdicts
      ensures forall i :: 0 <= i < |es| ==> Probed(es[i].payload, collateral, verdicts[i]) in trace
    {
      verdicts := [];
      for i := 0 to |es|
        invariant Valid() && old(clock) <= clock && old(at) <= at && |verdicts| == i
        invariant SameAcks(old(trace), trace) && Loads(old(trace)) <= Loads(trace) <= Loads(old(trace)) + {collateral}
        invariant LastDryRun(trace) == LastDryRun(old(trace)) && Counts(trace) == Counts(old(trace))
        invariant HasFlaky(trace) <==> HasFlaky(old(trace)) || Flaky in verdicts
        invariant forall j :: 0 <= j < i ==> Probed(es[j].payload, collateral, verdicts[j]) in trace
      {
        var r := Ask();
        Snoc(trace, Probed(es[i].payload, collateral, r.verdict));
        Leave(Probed(es[i].payload, collateral, r.verdict));
        verdicts := verdicts + [r.verdict];
      }
    }

    method SortByVerdict(es: seq<Entry>, verdicts: seq<Verdict>)
      returns (survivors: seq<Entry>, poison: seq<Entry>, ghost flags: seq<bool>)
      requires |verdicts| == |es|
      ensures |flags| == |es| && forall i :: 0 <= i < |es| ==> (flags[i] <==> verdicts[i] == Reverts)
      ensures survivors == Split(es, flags, false) && poison == Split(es, flags, true)
    {
      survivors, poison, flags := [], [], [];
      for i := 0 to |es|
        invariant |flags| == i && forall j :: 0 <= j < i ==> (flags[j] <==> verdicts[j] == Reverts)
        invariant survivors == Split(es[..i], flags, false) && poison == Split(es[..i], flags, true)
      {
        ghost var before := flags;
        if verdicts[i] == Reverts {
          poison := poison + [es[i]];
          flags := flags + [true];
        } else {
          survivors := survivors + [es[i]];
          flags := flags + [false];
        }
        assert es[..i + 1][..i] == es[..i] && flags[..i] == before;
      }
      assert es[..|es|] == es;
    }

    /** Survivors and poison by single-match probes, then one dry-run of the survivors together. */
    method SimulateMatchesForPoison(es: seq<Entry>, collateral: Collateral)
      returns (transient: bool, survivors: seq<Entry>, poison: seq<Entry>, clean: bool, ghost flags: seq<bool>)
      requires Valid()
      modifies this
      ensures Valid() && old(clock) <= clock && old(at) <= at
      ensures SameAcks(old(trace), trace) && Loads(old(trace)) <= Loads(trace) <= Loads(old(trace)) + {collateral}
      ensures |flags| == |es|
      ensures transient ==> HasFlaky(trace)
      ensures !transient ==> (HasFlaky(trace) <==> HasFlaky(old(trace)))
      ensures !transient ==> survivors == Split(es, flags, false) && poison == Split(es, flags, true)
      ensures !transient ==> forall e :: e in Split(es, flags, true) ==> ProbedReverting(trace, e.payload)
      ensures Counts(trace).1 == Counts(old(trace)).1 && Counts(old(trace)).0 <= Counts(trace).0
      ensures !transient && survivors != [] ==>
                && Counts(trace).0 == Counts(old(trace)).0 + 1
                && LastDryRun(trace) ==
                   Some(Simulated(Payloads(survivors), collateral, if clean then Clean else Reverts))
      ensures !transient && survivors == [] ==>
                clean && Counts(trace) == Counts(old(trace)) && LastDryRun(trace) == LastDryRun(old(trace))
    {
      var verdicts := ProbeAll(es, collateral);
      survivors, poison, flags := SortByVerdict(es, verdicts);
      clean := true;
      if Flaky in verdicts {
        return true, survivors, poison, clean, flags;
      }
      ghost var probed := trace;
      PoisonProbed(es, collateral, verdicts, flags, probed);
      transient := false;
      if survivors != [] {
        var v := SimulateSettleBatch(Payloads(survivors), collateral);
        Snoc(probed, Simulated(Payloads(survivors), collateral, v));
        ProbesStay(poison, probed, trace);
        transient, clean := v == Flaky, v == Clean;
      }
    }

    /** Each poison match in its own transaction, stopping at the first that throws. */
    method QuarantineEach(poison: seq<Entry>) returns (ok: bool)
      requires Valid()
      modifies this
      ensures Valid() && old(clock) <= clock && old(at) <= at && (!ok ==> script(clock).throws)
      ensures Settling(old(trace), trace)
      ensures ok ==> forall e :: e in poison ==> Quarantined(e.payload) in trace
    {
      for i := 0 to |poison|
        invariant Valid() && old(clock) <= clock && old(at) <= at && Settling(old(trace), trace)
        invariant forall e :: e in poison[..i] ==> Quarantined(e.payload) in trace
      {
        var r := Ask();
        if r.throws && !r.landed {
          return false;
        }
        var e := Quarantined(poison[i].payload);
        SettlingSnoc(old(trace), trace, e);
        Leave(e);
        assert poison[..i + 1] == poison[..i] + [poison[i]];
        if r.throws {
          return false;
        }
      }
      assert poison[..|poison|] == poison;
      ok := true;
    }

    /** Quarantine the poison matches, then acknowledge them all. */
    method QuarantinePoisonMatches(poison: seq<Entry>) returns (ok: bool, ghost acked: nat, ghost deleted: nat)
      requires Valid() && Justified(trace)
      modifies this
      ensures Valid() && old(clock) <= clock && old(at) <= at && (!ok ==> script(clock).throws)
      ensures Justified(trace) && old(trace) <= trace
      ensures LastDryRun(trace) == LastDryRun(old(trace)) && (HasFlaky(trace) <==> HasFlaky(old(trace)))
      ensures Counts(trace) == Counts(old(trace)) && Loads(trace) == Loads(old(trace))
      ensures ok ==> forall e :: e in poison ==> Quarantined(e.payload) in trace
      ensures deleted <= acked <= |Grouped(poison)| && (ok ==> deleted == acked == |Grouped(poison)|)
      ensures AckedIn(trace) == AckedIn(old(trace)) + Grouped(poison)[..acked]
      ensures DeletedIn(trace) == DeletedIn(old(trace)) + Grouped(poison)[..deleted]
    {
      acked, deleted := 0, 0;
      ok := QuarantineEach(poison);
      if ok {
        ok, acked, deleted := AckAndDelete(poison);
      }
    }

    /** The live transaction; it throws unless a successful receipt arrives. */
    method SettleBatch(ms: seq<Match>, collateral: Collateral) returns (mined: bool, retryable: bool)
      requires Valid() && ms != [] && LastDryRun(trace) == Some(Simulated(ms, collateral, Clean))
      modifies this
      ensures Valid() && clock == old(clock) + 1 && old(at) <= at
      ensures mined == !script(clock).throws && retryable == script(clock).retryable
      ensures trace == old(trace) + [Submitted(ms, collateral, mined)]
      ensures mined ==> forall m :: m in ms ==> HasMined(trace, m.matchId)
    {
      var r := Ask();
      mined, retryable := !r.throws, r.retryable;
      Snoc(trace, Submitted(ms, collateral, mined));
      Leave(Submitted(ms, collateral, mined));
    }

    /** Position events may fail before any writeback; a writeback that fails is passed over. */
    method ApplySettlementResult(es: seq<Entry>) returns (ok: bool, retryable: bool)
      requires Valid() && forall e :: e in es ==> HasMined(trace, e.payload.matchId)
      modifies this
      ensures Valid() && old(clock) < clock && old(at) <= at && Quiet(old(trace), trace)
      ensures ok ==> forall e :: e in es ==> Tried(trace, e.payload)
      ensures !ok ==> trace == old(trace) && script(clock).throws && retryable == script(clock).retryable
    {
      var r := Ask();
      if r.throws {
        return false, r.retryable;
      }
      ReleaseLocksForAlreadySettled(es);
      ok, retryable := true, true;
    }

    // ----- The whole call -----

    /** For every batch and every script, the call keeps its promise, and its trace says what the replies said. */
    method ProcessSettlementBatch(es: seq<Entry>) returns (end: End, ghost classes: seq<Class>)
      requires trace == [] && clock == 0 && Valid()
      modifies this
      ensures Valid() && SameCollateral(trace, at, script)
      ensures |classes| == |es| && Promise(es, classes, trace, script(clock), end)
    {
      classes := seq(|es|, _ => Kept);
      if es == [] {
        return Returned, classes;
      }
      var ok, unsettled, alreadySettled, sorted := FilterAlreadySettledMatches(es);
      classes := sorted;
      if !ok {
        StoppedEarly(es, classes, trace, trace, 0, 0, script(clock));
        return Threw, classes;
      }
      ghost var filtered := trace;
      var acknowledged;
      ghost var acked, deleted;
      acknowledged, acked, deleted := FinishAlreadySettled(alreadySettled);
      if !acknowledged {
        StoppedEarly(es, classes, filtered, trace, acked, deleted, script(clock));
        return Threw, classes;
      }
      if unsettled == [] {
        OnlySettled(es, classes, filtered, trace, script(clock));
        return Returned, classes;
      }
      SortedExplained(es, classes, filtered, trace);
      ghost var before := trace;
      ghost var poison;
      end, poison, acked, deleted := SettleUnsettled(unsettled);
      classes := Reclass(sorted, poison);
      WentOn(es, sorted, poison, before, trace, acked, deleted, script(clock), end);
    }

    /** Ghost-settled entries: release their locks, then acknowledge them. */
    method FinishAlreadySettled(es: seq<Entry>) returns (ok: bool, ghost acked: nat, ghost deleted: nat)
      requires Valid() && Justified(trace)
      requires forall e :: e in es ==> ReadSettled(e.payload.matchId, Some(true)) in trace
      modifies this
      ensures Valid() && old(clock) <= clock && old(at) <= at && (!ok ==> script(clock).throws)
      ensures Justified(trace) && old(trace) <= trace
      ensures Counts(trace) == Counts(old(trace)) && Loads(trace) == Loads(old(trace))
      ensures HasFlaky(trace) <==> HasFlaky(old(trace))
      ensures HasQuarantine(trace) <==> HasQuarantine(old(trace))
      ensures forall e :: e in es ==> Tried(trace, e.payload)
      ensures deleted <= acked <= |Grouped(es)| && (ok ==> deleted == acked == |Grouped(es)|)
      ensures AckedIn(trace) == AckedIn(old(trace)) + Grouped(es)[..acked]
      ensures DeletedIn(trace) == DeletedIn(old(trace)) + Grouped(es)[..deleted]
    {
      ok, acked, deleted := true, 0, 0;
      if es != [] {
        ReleaseLocksForAlreadySettled(es);
        ok, acked, deleted := AckAndDelete(es);
      }
    }

    /** From the collateral read to the last acknowledgement, for the entries not yet settled. */
    method SettleUnsettled(es: seq<Entry>)
      returns (end: End, ghost poison: seq<bool>, ghost acked: nat, ghost deleted: nat)
      requires Valid() && es != [] && Fresh(trace)
      modifies this
      ensures Valid() && old(clock) < clock && old(at) <= at
      ensures SameCollateral(trace, at, script)
      ensures |poison| == |es| && Went(old(trace), trace, es, poison, acked, deleted, script(clock), end)
    {
      hide *;
      var read := Ask();
      ghost var readAt := clock;
      var collateral := CollateralRead(read);
      var failure: Option<End>, toSettle: seq<Entry>;
      ghost var t0 := trace;
      failure, toSettle, poison, acked, deleted := Isolate(es, collateral);
      ghost var isolated, first, a, d := trace, at, 0, 0;
      if failure.Some? || toSettle == [] {
        end := if failure.Some? then failure.value else Returned;
        WentNoFurther(t0, trace, es, collateral, poison, acked, deleted, failure, toSettle, script(clock));
      } else {
        SurvivorsReady(t0, trace, es, collateral, poison, acked, deleted, toSettle, script(clock));
        ghost var last := script(clock);
        end, a, d := SettleSurvivors(toSettle, collateral);
        WentThrough(t0, isolated, trace, es, collateral, poison, acked, a, d, toSettle, last, script(clock), end);
        BegunStays(t0, isolated, trace, first, at, readAt, es, collateral);
        acked, deleted := acked + a, deleted + d;
      }
      CollateralKept(t0, trace, at, script, readAt, es, collateral);
    }

    /** Dry-run the batch; if it reverts, find and quarantine the poison. */
    method Isolate(es: seq<Entry>, collateral: Collateral)
      returns (failure: Option<End>, toSettle: seq<Entry>, ghost poison: seq<bool>, ghost acked: nat,
               ghost deleted: nat)
      requires Valid() && es != [] && Fresh(trace)
      modifies this
      ensures Valid() && old(clock) < clock
      ensures old(at) <= at && Begun(old(trace), trace, at, old(clock), es, collateral)
      ensures |poison| == |es|
      ensures Isolated(old(trace), trace, es, collateral, poison, acked, deleted, failure, toSettle, script(clock))
    {
      assert |at| == |trace| && Payloads(es) != [];
      hide *;
      toSettle, poison, acked, deleted := es, seq(|es|, _ => false), 0, 0;
      ghost var t, first, read := trace, at, clock;
      var v := SimulateSettleBatch(Payloads(es), collateral);
      ghost var simulated, second := trace, at;
      FirstDryRun(t, first, clock, es, collateral, v);
      if v == Reverts {
        failure, toSettle, poison, acked, deleted := TakeOutPoison(es, collateral);
        IsolatedFrom(t, simulated, trace, es, collateral, poison, acked, deleted, failure, toSettle, script(clock));
        BegunStays(t, simulated, trace, second, at, read, es, collateral);
      } else {
        failure := if v == Flaky then Some(Failed(true)) else None;
        IsolatedAtOnce(t, es, collateral, v, poison, script(clock));
      }
    }

    /** The dry-run of the whole list reverted. */
    method TakeOutPoison(es: seq<Entry>, collateral: Collateral)
      returns (failure: Option<End>, toSettle: seq<Entry>, ghost poison: seq<bool>, ghost acked: nat,
               ghost deleted: nat)
      requires Valid() && Justified(trace) && !HasFlaky(trace) && !HasQuarantine(trace)
      requires Counts(trace) == (1, 0) && Loads(trace) == {collateral}
      modifies this
      ensures Valid() && old(clock) <= clock && old(at) <= at
      ensures |poison| == |es|
      ensures Isolated(old(trace), trace, es, collateral, poison, acked, deleted, failure, toSettle, script(clock))
    {
      hide AckedIn, DeletedIn, LastDryRun, HasFlaky, HasQuarantine, HasMined, Counts, Loads, Justified, Heard,
          ProbedReverting;
      failure, toSettle, poison, acked, deleted := None, es, seq(|es|, _ => false), 0, 0;
      SplitNone(es, poison);
      var transient, survivors, poisoned, clean, flags := SimulateMatchesForPoison(es, collateral);
      if transient {
        return Some(Failed(true)), toSettle, poison, acked, deleted;
      }
      poison, toSettle := flags, survivors;
      if poisoned != [] {
        ghost var probed := trace;
        var ok;
        ok, acked, deleted := QuarantinePoisonMatches(poisoned);
        ProbesStay(poisoned, probed, trace);
        if !ok {
          return Some(Failed(true)), toSettle, poison, acked, deleted;
        }
      }
      if !clean {
        return Some(Failed(false)), toSettle, poison, acked, deleted;
      }
    }

    /** The live transaction, the writeback and the final acknowledgement. */
    method SettleSurvivors(es: seq<Entry>, collateral: Collateral)
      returns (end: End, ghost acked: nat, ghost deleted: nat)
      requires Valid() && es != [] && Justified(trace)
      requires LastDryRun(trace) == Some(Simulated(Payloads(es), collateral, Clean))
      modifies this
      ensures Valid() && old(clock) < clock && old(at) <= at && old(at) <= at
      ensures Finished(old(trace), trace, es, collateral, acked, deleted, script(clock), end)
    {
      hide AckedIn, DeletedIn, LastDryRun, HasFlaky, HasQuarantine, HasMined, Counts, Loads, Justified, Heard;
      acked, deleted := 0, 0;
      Snoc(trace, Submitted(Payloads(es), collateral, true));
      Snoc(trace, Submitted(Payloads(es), collateral, false));
      var mined, retryable := SettleBatch(Payloads(es), collateral);
      if !mined {
        return Failed(retryable), 0, 0;
      }
      forall e | e in es ensures HasMined(trace, e.payload.matchId) {
        var i :| 0 <= i < |es| && es[i] == e;
        assert Payloads(es)[i] == e.payload;
      }
      ghost var settled := trace;
      var applied, again := ApplySettlementResult(es);
      if !applied {
        return Failed(again), 0, 0;
      }
      MinedStay(es, settled, trace);
      ghost var seen := trace;
      var ok;
      ok, acked, deleted := AckAndDelete(es);
      MinedStay(es, seen, trace);
      if !ok {
        return Threw, acked, deleted;
      }
      var trim := Ask();
      end := if trim.throws then Threw else Returned;
    }
  }

  /** What SettleUnsettled still has to acknowledge. */
  function Remaining(es: seq<Entry>, poison: seq<bool>): seq<Entry>
    requires |poison| == |es|
  {
    Grouped(Split(es, poison, true)) + Grouped(Split(es, poison, false))
  }

  ghost predicate Progress(t: seq<Event>, t': seq<Event>, es: seq<Entry>, poison: seq<bool>, a: nat, d: nat)
    requires |poison| == |es|
  {
    && a <= |Remaining(es, poison)| && d <= |Remaining(es, poison)|
    && AckedIn(t') == AckedIn(t) + Remaining(es, poison)[..a]
    && DeletedIn(t') == DeletedIn(t) + Remaining(es, poison)[..d]
  }

  /** Before the first dry-run. */
  ghost predicate Fresh(t: seq<Event>) {
    Justified(t) && !HasFlaky(t) && !HasQuarantine(t) && Counts(t) == (0, 0) && Loads(t) == {}
  }

  /** The first thing after the collateral was read is the dry-run of the whole list with it. */
  ghost predicate Begun(t: seq<Event>, t': seq<Event>, at: seq<nat>, read: nat, es: seq<Entry>,
                        collateral: Collateral) {
    && |t| < |t'| && |t| < |at| && at[|t|] == read + 1
    && t'[|t|].Simulated? && t'[|t|].batch == Payloads(es) && t'[|t|].collateral == collateral
  }

  /** Everything dry-run, probed or submitted carried the collateral that was read just before the first of them. */
  ghost predicate SameCollateral(t: seq<Event>, at: seq<nat>, script: nat -> Reply) {
    Counts(t).0 > 0 ==>
      exists i :: 0 <= i < |t| && i < |at| && 0 < at[i] && t[i].Simulated? &&
                  Loads(t) == {CollateralRead(script(at[i] - 1))}
  }

  /**
    Why a call ends as it does, by its trace and its latest reply. A flaky dry-run or probe leaves the
    batch for a retry. Survivors that still revert end it for good, unless quarantining the poison
    threw. Otherwise only a reply that threw keeps it from returning: after a live transaction by
    that reply's own word, while isolating for a retry, and elsewhere as any other exception.
   */
  ghost predicate Ended(t: seq<Event>, last: Reply, end: End) {
    && (HasFlaky(t) ==> end == Failed(true))
    && (StillReverts(t) ==> end == Failed(false) || (end == Failed(true) && (HasFlaky(t) || last.throws)))
    && (end == Failed(false) ==>
          !HasFlaky(t) && (StillReverts(t) || (Counts(t).1 > 0 && last.throws && !last.retryable)))
    && (end == Failed(true) ==> HasFlaky(t) || (last.throws && (Counts(t).1 > 0 ==> last.retryable)))
    && (end.Failed? ==> Counts(t).0 > 0 && (Counts(t).1 > 0 ==> t != [] && t[|t| - 1].Submitted?))
    && (end.Threw? ==> last.throws && (Counts(t).0 == 0 || exists id :: HasMined(t, id)))
  }

  /** What SettleUnsettled has done when it ends. */
  ghost predicate Went(t: seq<Event>, t': seq<Event>, es: seq<Entry>, poison: seq<bool>, a: nat, d: nat,
                       last: Reply, end: End)
    requires |poison| == |es|
  {
    && t <= t' && Justified(t')
    && d <= a && Progress(t, t', es, poison, a, d)
    && (HasFlaky(t') ==> !HasQuarantine(t'))
    && Ended(t', last, end)
    && (forall e :: e in Split(es, poison, true) ==> ProbedReverting(t', e.payload))
    && (end.Returned? ==>
          && d == a == |Remaining(es, poison)|
          && (forall e :: e in Split(es, poison, true) ==> Quarantined(e.payload) in t')
          && (forall e :: e in Split(es, poison, false) ==> HasMined(t', e.payload.matchId) && Tried(t', e.payload)))
  }

  /** What the isolation stage has done when it ends. */
  ghost predicate Isolated(t: seq<Event>, t': seq<Event>, es: seq<Entry>, collateral: Collateral, poison: seq<bool>,
                           a: nat, d: nat, failure: Option<End>, toSettle: seq<Entry>, last: Reply)
    requires |poison| == |es|
  {
    var group := Grouped(Split(es, poison, true));
    && t <= t' && Justified(t')
    && d <= a <= |group|
    && AckedIn(t') == AckedIn(t) + group[..a] && DeletedIn(t') == DeletedIn(t) + group[..d]
    && (HasFlaky(t') ==> !HasQuarantine(t'))
    && (forall e :: e in Split(es, poison, true) ==> ProbedReverting(t', e.payload))
    && 0 < Counts(t').0 && Counts(t').1 == 0 && Loads(t') == {collateral}
    && (failure.Some? ==> failure.value.Failed? && Ended(t', last, failure.value))
    && (failure.None? ==>
          && d == a == |group|
          && !HasFlaky(t') && !StillReverts(t')
          && toSettle == Split(es, poison, false)
          && (forall e :: e in Split(es, poison, true) ==> Quarantined(e.payload) in t')
          && (toSettle != [] ==> LastDryRun(t') == Some(Simulated(Payloads(toSettle), collateral, Clean))))
  }

  /** What the live transaction and everything after it have done. */
  ghost predicate Finished(t: seq<Event>, t': seq<Event>, es: seq<Entry>, collateral: Collateral, a: nat, d: nat,
                           last: Reply, end: End) {
    && t <= t' && Justified(t')
    && (HasFlaky(t') <==> HasFlaky(t)) && (HasQuarantine(t') <==> HasQuarantine(t))
    && LastDryRun(t') == LastDryRun(t)
    && Counts(t') == (Counts(t).0, Counts(t).1 + 1) && Loads(t') == Loads(t) + {collateral}
    && d <= a <= |Grouped(es)|
    && AckedIn(t') == AckedIn(t) + Grouped(es)[..a] && DeletedIn(t') == DeletedIn(t) + Grouped(es)[..d]
    && (end.Failed? ==> t' != [] && t'[|t'| - 1].Submitted? && last.throws && end.retryable == last.retryable)
    && (end.Threw? ==> last.throws)
    && (!end.Failed? ==> forall e :: e in es ==> HasMined(t', e.payload.matchId) && Tried(t', e.payload))
    && (end.Returned? ==> d == a == |Grouped(es)|)
  }

  lemma FirstDryRun(t: seq<Event>, at: seq<nat>, n: nat, es: seq<Entry>, collateral: Collateral, v: Verdict)
    requires Fresh(t) && |at| == |t| && 0 < n
    ensures var t' := t + [Simulated(Payloads(es), collateral, v)];
            && Begun(t, t', at + [n], n - 1, es, collateral)
            && Justified(t') && !HasQuarantine(t') && (v != Flaky ==> !HasFlaky(t'))
            && Counts(t') == (1, 0) && Loads(t') == {collateral}
            && AckedIn(t') == AckedIn(t) && DeletedIn(t') == DeletedIn(t)
  {
    Snoc(t, Simulated(Payloads(es), collateral, v));
  }

  /** A first dry-run that is clean, or flaky, is all there is to it. */
  lemma IsolatedAtOnce(t: seq<Event>, es: seq<Entry>, collateral: Collateral, v: Verdict, poison: seq<bool>,
                       last: Reply)
    requires Fresh(t) && v != Reverts && |poison| == |es| && forall f :: f in poison ==> !f
    ensures Isolated(t, t + [Simulated(Payloads(es), collateral, v)], es, collateral, poison, 0, 0,
                     if v == Flaky then Some(Failed(true)) else None, es, last)
  {
    hide Justified, AckedIn, DeletedIn, HasFlaky, HasQuarantine, Counts, Loads, LastDryRun, Split;
    Snoc(t, Simulated(Payloads(es), collateral, v));
    SplitNone(es, poison);
    assert Grouped([]) == [];
  }

  /** The dry-run that came first changes nothing else. */
  lemma IsolatedFrom(t: seq<Event>, mid: seq<Event>, t': seq<Event>, es: seq<Entry>, collateral: Collateral,
      poison: seq<bool>, a: nat, d: nat, failure: Option<End>, toSettle: seq<Entry>, last: Reply)
    requires |poison| == |es| && t <= mid && AckedIn(mid) == AckedIn(t) && DeletedIn(mid) == DeletedIn(t)
    requires Isolated(mid, t', es, collateral, poison, a, d, failure, toSettle, last)
    ensures Isolated(t, t', es, collateral, poison, a, d, failure, toSettle, last) && mid <= t'
  {
  }

  lemma WentNoFurther(t: seq<Event>, t': seq<Event>, es: seq<Entry>, collateral: Collateral, poison: seq<bool>,
                      a: nat, d: nat, failure: Option<End>, toSettle: seq<Entry>, last: Reply)
    requires |poison| == |es| && Isolated(t, t', es, collateral, poison, a, d, failure, toSettle, last)
    requires failure.Some? || toSettle == []
    ensures Went(t, t', es, poison, a, d, last, if failure.Some? then failure.value else Returned)
    ensures Loads(t') == {collateral}
  {
    hide Justified, AckedIn, DeletedIn, HasFlaky, HasQuarantine, HasMined, ProbedReverting, Counts, Loads, StillReverts;
    PoisonPrefix(es, poison, a);
    PoisonPrefix(es, poison, d);
    assert Grouped([]) == [];
  }

  lemma SurvivorsReady(t: seq<Event>, mid: seq<Event>, es: seq<Entry>, collateral: Collateral, poison: seq<bool>,
                       a: nat, d: nat, toSettle: seq<Entry>, last: Reply)
    requires |poison| == |es| && Isolated(t, mid, es, collateral, poison, a, d, None, toSettle, last) && toSettle != []
    ensures d == a && Justified(mid) && LastDryRun(mid) == Some(Simulated(Payloads(toSettle), collateral, Clean))
  {
  }

  lemma WentThrough(t: seq<Event>, mid: seq<Event>, t': seq<Event>, es: seq<Entry>, collateral: Collateral,
      poison: seq<bool>, p: nat, a: nat, d: nat, toSettle: seq<Entry>, sofar: Reply, last: Reply, end: End)
    requires |poison| == |es| && Isolated(t, mid, es, collateral, poison, p, p, None, toSettle, sofar)
    requires toSettle != [] && Finished(mid, t', toSettle, collateral, a, d, last, end)
    ensures Went(t, t', es, poison, p + a, p + d, last, end)
    ensures Loads(t') == {collateral} && mid <= t'
  {
    hide Justified, AckedIn, DeletedIn, HasFlaky, HasQuarantine, HasMined, ProbedReverting, Counts, Loads, Tried;
    var group := Grouped(Split(es, poison, true));
    assert group[..p] == group;
    Progressed(t, mid, t', es, poison, a, d);
    ProbesStay(Split(es, poison, true), mid, t');
    forall e | e in Split(es, poison, true) ensures Quarantined(e.payload) in t' {
      assert Quarantined(e.payload) in mid;
    }
    assert toSettle[0] in toSettle;
  }

  /**
    The contract of a whole call. Every entry acknowledged or deleted comes in the batch's
    acknowledgement order, a leading part of it always and all of it on a normal return; every
    effect is justified by an earlier one; a flaky dry-run or probe means nothing was quarantined;
    each entry's class has its reason, and so has the ending; and on a normal return what was poison
    was quarantined, what was kept was mined, and the writeback of all but poison was tried.
   */
  ghost predicate Promise(es: seq<Entry>, classes: seq<Class>, t: seq<Event>, last: Reply, end: End)
    requires |classes| == |es|
  {
    && Justified(t)
    && AckedIn(t) <= AckOrder(es, classes) && DeletedIn(t) <= AckedIn(t)
    && (HasFlaky(t) ==> !HasQuarantine(t))
    && Explained(es, classes, t)
    && Ended(t, last, end)
    && (end.Returned? ==>
          && AckedIn(t) == AckOrder(es, classes) && DeletedIn(t) == AckOrder(es, classes)
          && forall i :: 0 <= i < |es| ==> Fulfilled(es[i].payload, classes[i], t))
  }

  /** What a normal return says of an entry. */
  ghost predicate Fulfilled(m: Match, c: Class, t: seq<Event>) {
    match c
    case AlreadySettled => Tried(t, m)
    case Poison => Quarantined(m) in t
    case Kept => HasMined(t, m.matchId) && Tried(t, m)
  }

  /** If no reply throws and every dry-run and probe is clean, the call returns. */
  lemma AllWellReturns(es: seq<Entry>, classes: seq<Class>, t: seq<Event>, at: seq<nat>, script: nat -> Reply,
                       clock: nat, end: End)
    requires |classes| == |es| && Heard(t, at, script, clock) && Promise(es, classes, t, script(clock), end)
    requires forall i {:trigger script(i)} :: 0 <= i <= clock ==> !script(i).throws && script(i).verdict == Clean
    ensures end.Returned?
  {
    hide Justified, AckedIn, DeletedIn, HasQuarantine, Explained, Counts, Fulfilled;
    AllClean(t, at, script, clock);
  }

  lemma {:induction false} AllClean(t: seq<Event>, at: seq<nat>, script: nat -> Reply, clock: nat)
    requires Heard(t, at, script, clock)
    requires forall i {:trigger script(i)} :: 0 <= i <= clock ==> script(i).verdict == Clean
    ensures !HasFlaky(t)
    ensures LastDryRun(t).Some? ==> LastDryRun(t).value.Simulated? && LastDryRun(t).value.verdict == Clean
  {
    if t != [] {
      var n := |t| - 1;
      AllClean(t[..n], at[..n], script, clock);
      assert Fits(t[n], script(at[n]));
    }
  }

  /** A call that returns has acknowledged and deleted every entry of its batch exactly as often as it was read. */
  lemma ReturnAcksEverything(es: seq<Entry>, classes: seq<Class>, t: seq<Event>, last: Reply)
    requires |classes| == |es| && Promise(es, classes, t, last, Returned)
    ensures multiset(AckedIn(t)) == multiset(es) && multiset(DeletedIn(t)) == multiset(es)
  {
    AckOrderIsPermutation(es, classes);
  }

  /** However it ends, what a call acknowledged and what it left make up its batch: nothing twice. */
  lemma AckedAndLeft(es: seq<Entry>, classes: seq<Class>, t: seq<Event>, last: Reply, end: End)
    returns (rest: seq<Entry>)
    requires |classes| == |es| && Promise(es, classes, t, last, end)
    ensures multiset(AckedIn(t)) + multiset(rest) == multiset(es)
  {
    AckOrderIsPermutation(es, classes);
    var order, n := AckOrder(es, classes), |AckedIn(t)|;
    rest := order[n..];
    assert AckedIn(t) == order[..n] && order == order[..n] + order[n..];
  }

  /** The call stops with at most the already-settled entries acknowledged. */
  lemma StoppedEarly(es: seq<Entry>, classes: seq<Class>, t: seq<Event>, t': seq<Event>, a: nat, d: nat, last: Reply)
    requires |classes| == |es| && t <= t' && (forall c :: c in classes ==> c != Poison)
    requires forall i :: 0 <= i < |es| && classes[i] == AlreadySettled ==>
               ReadSettled(es[i].payload.matchId, Some(true)) in t
    requires t' != [] ==> forall i :: 0 <= i < |es| && classes[i] == Kept ==> ReadOpen(t, es[i].payload.matchId)
    requires d <= a <= |Grouped(Pick(es, classes, AlreadySettled))|
    requires var s := Grouped(Pick(es, classes, AlreadySettled)); AckedIn(t') == s[..a] && DeletedIn(t') == s[..d]
    requires Justified(t') && !HasQuarantine(t') && !HasFlaky(t') && Counts(t') == (0, 0) && last.throws
    ensures Promise(es, classes, t', last, Threw)
  {
    SortedExplained(es, classes, t, t');
    SettledFirst(es, classes, a, d);
  }

  /** The call went on to settle the rest. */
  lemma WentOn(es: seq<Entry>, classes: seq<Class>, poison: seq<bool>, t: seq<Event>, t': seq<Event>, a: nat,
      d: nat, last: Reply, end: End)
    requires |classes| == |es| && (forall c :: c in classes ==> c != Poison)
    requires |poison| == |Pick(es, classes, Kept)|
    requires AckedIn(t) == DeletedIn(t) == Grouped(Pick(es, classes, AlreadySettled))
    requires forall e :: e in Pick(es, classes, AlreadySettled) ==> Tried(t, e.payload)
    requires Went(t, t', Pick(es, classes, Kept), poison, a, d, last, end)
    requires t != [] && Explained(es, classes, t)
    ensures Promise(es, Reclass(classes, poison), t', last, end)
  {
    hide Justified, HasFlaky, HasQuarantine, HasMined, Counts, Loads, Ended, Tried, ProbedReverting, Reclass, Explained;
    var kept := Pick(es, classes, Kept);
    StillExplained(es, classes, poison, t, t');
    OrderAfter(es, classes, poison);
    GotSoFar(t, t', kept, poison, a, d);
    if end.Returned? {
      AllFulfilled(es, classes, poison, t, t');
    }
  }

  predicate ProbedReverting(t: seq<Event>, m: Match) {
    exists i :: 0 <= i < |t| && t[i].Probed? && t[i].probed == m && t[i].outcome == Reverts
  }

  lemma MinedStay(es: seq<Entry>, t: seq<Event>, t': seq<Event>)
    requires t <= t' && forall e :: e in es ==> HasMined(t, e.payload.matchId)
    ensures forall e :: e in es ==> HasMined(t', e.payload.matchId)
  {
    forall e | e in es ensures HasMined(t', e.payload.matchId) {
      SeenStays(t, t', e.payload);
    }
  }

  lemma PoisonPrefix(es: seq<Entry>, poison: seq<bool>, n: nat)
    requires |poison| == |es| && n <= |Grouped(Split(es, poison, true))|
    ensures n <= |Remaining(es, poison)| && Remaining(es, poison)[..n] == Grouped(Split(es, poison, true))[..n]
  {
  }

  lemma KeptPrefix(es: seq<Entry>, poison: seq<bool>, n: nat)
    requires |poison| == |es| && n <= |Grouped(Split(es, poison, false))|
    ensures var p := Grouped(Split(es, poison, true));
            && |p| + n <= |Remaining(es, poison)|
            && Remaining(es, poison)[..|p| + n] == p + Grouped(Split(es, poison, false))[..n]
  {
  }

  lemma Progressed(t: seq<Event>, mid: seq<Event>, t': seq<Event>, es: seq<Entry>, poison: seq<bool>, a: nat, d: nat)
    requires |poison| == |es|
    requires var p := Grouped(Split(es, poison, true));
             AckedIn(mid) == AckedIn(t) + p && DeletedIn(mid) == DeletedIn(t) + p
    requires var k := Grouped(Split(es, poison, false));
             a <= |k| && d <= |k| && AckedIn(t') == AckedIn(mid) + k[..a] && DeletedIn(t') == DeletedIn(mid) + k[..d]
    ensures var n := |Grouped(Split(es, poison, true))|; Progress(t, t', es, poison, n + a, n + d)
  {
    var p := Grouped(Split(es, poison, true));
    var k := Grouped(Split(es, poison, false));
    KeptPrefix(es, poison, a);
    KeptPrefix(es, poison, d);
    Assoc(AckedIn(t), p, k[..a]);
    Assoc(DeletedIn(t), p, k[..d]);
  }

  /** Nothing but already-settled entries: the call is over. */
  lemma OnlySettled(es: seq<Entry>, classes: seq<Class>, t: seq<Event>, t': seq<Event>, last: Reply)
    requires |classes| == |es| && t <= t' && (forall c :: c in classes ==> c != Poison)
    requires Pick(es, classes, Kept) == []
    requires forall i :: 0 <= i < |es| && classes[i] == AlreadySettled ==>
               ReadSettled(es[i].payload.matchId, Some(true)) in t
    requires forall e :: e in Pick(es, classes, AlreadySettled) ==> Tried(t', e.payload)
    requires AckedIn(t') == DeletedIn(t') == Grouped(Pick(es, classes, AlreadySettled))
    requires Justified(t') && !HasQuarantine(t') && !HasFlaky(t') && Counts(t') == (0, 0)
    ensures Promise(es, classes, t', last, Returned)
  {
    hide Justified, HasFlaky, HasQuarantine, HasMined, Counts, Tried;
    PickEmpty(es, classes, Kept);
    PickEmpty(es, classes, Poison);
    assert forall i :: 0 <= i < |es| ==> classes[i] in classes;
    assert Pick(es, classes, Poison) == [] && Grouped([]) == [];
    SortedExplained(es, classes, t, t');
    forall i | 0 <= i < |es| ensures Fulfilled(es[i].payload, classes[i], t') {
      PickContains(es, classes, i);
    }
  }

  lemma SettledFirst(es: seq<Entry>, classes: seq<Class>, a: nat, d: nat)
    requires |classes| == |es| && d <= a <= |Grouped(Pick(es, classes, AlreadySettled))|
    ensures var s := Grouped(Pick(es, classes, AlreadySettled)); s[..a] <= AckOrder(es, classes) && s[..d] <= s[..a]
  {
  }

  lemma SortedExplained(es: seq<Entry>, classes: seq<Class>, t: seq<Event>, t': seq<Event>)
    requires |classes| == |es| && t <= t' && (forall c :: c in classes ==> c != Poison)
    requires forall i :: 0 <= i < |es| && classes[i] == AlreadySettled ==>
               ReadSettled(es[i].payload.matchId, Some(true)) in t
    requires t' != [] ==> forall i :: 0 <= i < |es| && classes[i] == Kept ==> ReadOpen(t, es[i].payload.matchId)
    ensures Explained(es, classes, t')
  {
    forall i | 0 <= i < |es|
      ensures classes[i] == AlreadySettled ==> ReadSettled(es[i].payload.matchId, Some(true)) in t'
      ensures classes[i] != Poison
      ensures t' != [] && classes[i] == Kept ==> ReadOpen(t', es[i].payload.matchId)
    {
      assert classes[i] in classes;
      if t' != [] && classes[i] == Kept {
        OpenLater(t, t', es[i].payload.matchId);
      }
    }
  }

  /** A read of the match that failed or said no. */
  predicate ReadOpen(t: seq<Event>, id: MatchId) {
    exists i :: 0 <= i < |t| && t[i].ReadSettled? && t[i].readId == id && t[i].result != Some(true)
  }

  /** Entries sorted by their reads. */
  ghost predicate Sorted(es: seq<Entry>, classes: seq<Class>, unsettled: seq<Entry>, settled: seq<Entry>, t: seq<Event>)
    requires |classes| == |es|
  {
    && (forall c :: c in classes ==> c != Poison)
    && settled == Pick(es, classes, AlreadySettled) && unsettled == Pick(es, classes, Kept)
    && (forall i :: 0 <= i < |es| && classes[i] == AlreadySettled ==>
          ReadSettled(es[i].payload.matchId, Some(true)) in t)
    && (forall i :: 0 <= i < |es| && classes[i] == Kept ==> ReadOpen(t, es[i].payload.matchId))
    && (forall e :: e in settled ==> ReadSettled(e.payload.matchId, Some(true)) in t)
  }

  lemma SortedNext(es: seq<Entry>, n: nat, classes: seq<Class>, unsettled: seq<Entry>, settled: seq<Entry>,
                   t: seq<Event>, result: Option<bool>)
    requires n < |es| && |classes| == n && Sorted(es[..n], classes, unsettled, settled, t)
    ensures var id := es[n].payload.matchId;
            var t' := t + [ReadSettled(id, result)];
            if result == Some(true)
            then Sorted(es[..n + 1], classes + [AlreadySettled], unsettled, settled + [es[n]], t')
            else Sorted(es[..n + 1], classes + [Kept], unsettled + [es[n]], settled, t')
  {
    hide ReadOpen;
    var e := ReadSettled(es[n].payload.matchId, result);
    OpenStays(es[..n], classes, t, e);
    assert es[..n + 1][..n] == es[..n];
    forall c: Class | true ensures (classes + [c])[..n] == classes {
    }
    assert e in t + [e] && forall x :: x in t ==> x in t + [e];
  }

  lemma OpenLater(t: seq<Event>, t': seq<Event>, id: MatchId)
    requires t <= t' && ReadOpen(t, id)
    ensures ReadOpen(t', id)
  {
    var i :| 0 <= i < |t| && t[i].ReadSettled? && t[i].readId == id && t[i].result != Some(true);
    assert t'[i] == t[i];
  }

  lemma OpenStays(es: seq<Entry>, classes: seq<Class>, t: seq<Event>, e: Event)
    requires |classes| == |es|
    requires forall i :: 0 <= i < |es| && classes[i] == Kept ==> ReadOpen(t, es[i].payload.matchId)
    ensures forall i :: 0 <= i < |es| && classes[i] == Kept ==> ReadOpen(t + [e], es[i].payload.matchId)
    ensures e.ReadSettled? && e.result != Some(true) ==> ReadOpen(t + [e], e.readId)
  {
    forall i | 0 <= i < |es| && classes[i] == Kept ensures ReadOpen(t + [e], es[i].payload.matchId) {
      OpenLater(t, t + [e], es[i].payload.matchId);
    }
    assert (t + [e])[|t|] == e;
  }

  lemma AllTried(es: seq<Entry>, t: seq<Event>, t': seq<Event>)
    requires |t'| == |t| + |es|
    requires forall i :: 0 <= i < |es| ==>
               t'[|t| + i] == WroteBack(es[i].payload) || t'[|t| + i] == Unwritten(es[i].payload)
    ensures forall e :: e in es ==> Tried(t', e.payload)
  {
    forall e | e in es ensures Tried(t', e.payload) {
      var i :| 0 <= i < |es| && es[i] == e;
      assert t'[|t| + i] in t';
    }
  }

  lemma BegunStays(t: seq<Event>, mid: seq<Event>, t': seq<Event>, before: seq<nat>, at: seq<nat>, read: nat,
                   es: seq<Entry>, collateral: Collateral)
    requires Begun(t, mid, before, read, es, collateral) && mid <= t' && before <= at
    ensures Begun(t, t', at, read, es, collateral)
  {
  }

  lemma CollateralKept(t: seq<Event>, t': seq<Event>, at: seq<nat>, script: nat -> Reply, read: nat, es: seq<Entry>,
                       collateral: Collateral)
    requires 0 < read && collateral == CollateralRead(script(read)) && Loads(t') == {collateral}
    requires Begun(t, t', at, read, es, collateral)
    ensures SameCollateral(t', at, script)
  {
  }

  /** The acknowledgement order after isolation. */
  lemma OrderAfter(es: seq<Entry>, classes: seq<Class>, poison: seq<bool>)
    requires |classes| == |es| && (forall c :: c in classes ==> c != Poison)
    requires |poison| == |Pick(es, classes, Kept)|
    ensures AckOrder(es, Reclass(classes, poison)) ==
            Grouped(Pick(es, classes, AlreadySettled)) + Remaining(Pick(es, classes, Kept), poison)
  {
    ReclassPicks(es, classes, poison);
    var kept := Pick(es, classes, Kept);
    Assoc(Grouped(Pick(es, classes, AlreadySettled)), Grouped(Split(kept, poison, true)), Grouped(Split(kept,
        poison, false)));
  }

  /** How far the acknowledgement order got. */
  lemma GotSoFar(t: seq<Event>, t': seq<Event>, es: seq<Entry>, poison: seq<bool>, a: nat, d: nat)
    requires |poison| == |es| && d <= a && Progress(t, t', es, poison, a, d) && AckedIn(t) == DeletedIn(t)
    ensures AckedIn(t') <= AckedIn(t) + Remaining(es, poison) && DeletedIn(t') <= AckedIn(t')
    ensures d == |Remaining(es, poison)| ==>
              AckedIn(t') == AckedIn(t) + Remaining(es, poison) && DeletedIn(t') == AckedIn(t')
  {
    TwoPrefixes(AckedIn(t), Remaining(es, poison), a, d);
  }

  lemma TwoPrefixes(s: seq<Entry>, rest: seq<Entry>, a: nat, d: nat)
    requires d <= a <= |rest|
    ensures s + rest[..a] <= s + rest && s + rest[..d] <= s + rest[..a]
    ensures rest[..|rest|] == rest
  {
  }

  lemma AllFulfilled(es: seq<Entry>, classes: seq<Class>, poison: seq<bool>, t: seq<Event>, t': seq<Event>)
    requires |classes| == |es| && (forall c :: c in classes ==> c != Poison) && t <= t'
    requires |poison| == |Pick(es, classes, Kept)|
    requires forall e :: e in Pick(es, classes, AlreadySettled) ==> Tried(t, e.payload)
    requires forall e :: e in Split(Pick(es, classes, Kept), poison, true) ==> Quarantined(e.payload) in t'
    requires forall e :: e in Split(Pick(es, classes, Kept), poison, false) ==>
               HasMined(t', e.payload.matchId) && Tried(t', e.payload)
    ensures forall i :: 0 <= i < |es| ==> Fulfilled(es[i].payload, Reclass(classes, poison)[i], t')
  {
    hide HasMined, Reclass, Split;
    ReclassPicks(es, classes, poison);
    var final := Reclass(classes, poison);
    forall i | 0 <= i < |es| ensures Fulfilled(es[i].payload, final[i], t') {
      PickContains(es, final, i);
      if final[i] == AlreadySettled {
        assert Tried(t, es[i].payload);
      }
    }
  }

  lemma PoisonProbed(es: seq<Entry>, collateral: Collateral, verdicts: seq<Verdict>, flags: seq<bool>, t: seq<Event>)
    requires |verdicts| == |es| == |flags|
    requires forall i :: 0 <= i < |es| ==> (flags[i] <==> verdicts[i] == Reverts)
    requires forall i :: 0 <= i < |es| ==> Probed(es[i].payload, collateral, verdicts[i]) in t
    ensures forall e :: e in Split(es, flags, true) ==> ProbedReverting(t, e.payload)
  {
    SplitMembers(es, flags, true);
    forall e | e in Split(es, flags, true) ensures ProbedReverting(t, e.payload) {
      var i :| 0 <= i < |es| && es[i] == e && flags[i];
      var p := Probed(es[i].payload, collateral, verdicts[i]);
      var k :| 0 <= k < |t| && t[k] == p;
    }
  }

  lemma ProbesStay(es: seq<Entry>, t: seq<Event>, t': seq<Event>)
    requires t <= t' && forall e :: e in es ==> ProbedReverting(t, e.payload)
    ensures forall e :: e in es ==> ProbedReverting(t', e.payload)
  {
    forall e | e in es ensures ProbedReverting(t', e.payload) {
      var i :| 0 <= i < |t| && t[i].Probed? && t[i].probed == e.payload && t[i].outcome == Reverts;
      assert t'[i] == t[i];
    }
  }

  /** A class with no entry in the batch picks nothing, and the other way round. */
  lemma {:induction false} PickEmpty(es: seq<Entry>, classes: seq<Class>, c: Class)
    requires |classes| == |es|
    ensures Pick(es, classes, c) == [] <==> forall i :: 0 <= i < |es| ==> classes[i] != c
  {
    if es != [] {
      var n := |es| - 1;
      PickEmpty(es[..n], classes[..n], c);
      if Pick(es, classes, c) == [] {
        forall i | 0 <= i < |es| ensures classes[i] != c {
          assert i < n ==> classes[..n][i] != c;
        }
      } else if classes[n] != c {
        var i :| 0 <= i < n && classes[..n][i] == c;
        assert classes[i] == c;
      }
    }
  }

  lemma {:induction false} PickContains(es: seq<Entry>, classes: seq<Class>, i: nat)
    requires |classes| == |es| && i < |es|
    ensures es[i] in Pick(es, classes, classes[i])
  {
    var n := |es| - 1;
    if i < n {
      PickContains(es[..n], classes[..n], i);
    }
  }

  lemma {:induction false} ReclassSettled(classes: seq<Class>, poison: seq<bool>, i: nat)
    requires i < |classes|
    ensures Reclass(classes, poison)[i] == AlreadySettled <==> classes[i] == AlreadySettled
  {
    var n := |classes| - 1;
    if i < n {
      if classes[n] == Kept && poison != [] {
        ReclassSettled(classes[..n], poison[..|poison| - 1], i);
      } else {
        ReclassSettled(classes[..n], poison, i);
      }
    }
  }

  /** The reasons for the final classes, from the reads before and the probes after. */
  lemma StillExplained(es: seq<Entry>, classes: seq<Class>, poison: seq<bool>, t: seq<Event>, t': seq<Event>)
    requires |classes| == |es| && (forall c :: c in classes ==> c != Poison)
    requires |poison| == |Pick(es, classes, Kept)| && t <= t' && t != [] && Explained(es, classes, t)
    requires forall e :: e in Split(Pick(es, classes, Kept), poison, true) ==> ProbedReverting(t', e.payload)
    ensures Explained(es, Reclass(classes, poison), t')
  {
    ReclassPicks(es, classes, poison);
    var final := Reclass(classes, poison);
    forall i | 0 <= i < |es|
      ensures final[i] == AlreadySettled ==> ReadSettled(es[i].payload.matchId, Some(true)) in t'
      ensures final[i] == Poison ==> ProbedReverting(t', es[i].payload)
      ensures final[i] != AlreadySettled ==> ReadOpen(t', es[i].payload.matchId)
    {
      PickContains(es, final, i);
      ReclassSettled(classes, poison, i);
      assert classes[i] in classes;
      if final[i] == AlreadySettled {
        assert ReadSettled(es[i].payload.matchId, Some(true)) in t;
      } else {
        OpenLater(t, t', es[i].payload.matchId);
      }
    }
  }

  lemma {:induction false} SplitNone(es: seq<Entry>, flags: seq<bool>)
    requires |flags| == |es| && forall f :: f in flags ==> !f
    ensures Split(es, flags, true) == [] && Split(es, flags, false) == es
  {
    if es != [] {
      var n := |es| - 1;
      assert flags[n] in flags && forall f :: f in flags[..n] ==> f in flags;
      SplitNone(es[..n], flags[..n]);
    }
  }

  /** Why each entry is in its class. */
  predicate Explained(es: seq<Entry>, classes: seq<Class>, t: seq<Event>)
    requires |classes| == |es|
  {
    forall i :: 0 <= i < |es| ==>
      && (classes[i] == AlreadySettled ==> ReadSettled(es[i].payload.matchId, Some(true)) in t)
      && (t != [] && classes[i] != AlreadySettled ==> ReadOpen(t, es[i].payload.matchId))
      && (classes[i] == Poison ==> ProbedReverting(t, es[i].payload))
  }

  /** Nothing acknowledged, deleted or quarantined, and nothing unjustified. */
  ghost predicate SameAcks(t: seq<Event>, t': seq<Event>) {
    && t <= t'
    && (Justified(t) ==> Justified(t'))
    && AckedIn(t') == AckedIn(t) && DeletedIn(t') == DeletedIn(t)
    && (HasQuarantine(t') <==> HasQuarantine(t))
  }

  /** Only quarantines added. */
  ghost predicate Settling(t: seq<Event>, t': seq<Event>) {
    && t <= t'
    && (Justified(t) ==> Justified(t'))
    && AckedIn(t') == AckedIn(t) && DeletedIn(t') == DeletedIn(t)
    && LastDryRun(t') == LastDryRun(t) && (HasFlaky(t') <==> HasFlaky(t))
    && Counts(t') == Counts(t) && Loads(t') == Loads(t)
  }

  lemma SettlingSnoc(t0: seq<Event>, t: seq<Event>, e: Event)
    requires Settling(t0, t) && e.Quarantined?
    ensures Settling(t0, t + [e])
  {
    Snoc(t, e);
  }

  predicate IsQuiet(e: Event) {
    e.ReadSettled? || e.WroteBack? || e.Unwritten?
  }

  lemma QuietSnoc(t0: seq<Event>, t: seq<Event>, e: Event)
    requires Quiet(t0, t) && IsQuiet(e) && Justifies(t, e)
    ensures Quiet(t0, t + [e])
  {
    Snoc(t, e);
  }

  /** Grouping only rearranges, so whatever held of the entries holds of the groups. */
  lemma GroupedResolved(es: seq<Entry>, t: seq<Event>, n: nat)
    requires n <= |Grouped(es)| && forall e :: e in es ==> Done(t, e.payload)
    ensures forall e :: e in Grouped(es)[..n] ==> Done(t, e.payload)
  {
    forall e | e in Grouped(es)[..n] ensures e in es {
      assert e in Grouped(es);
      GroupedTimes(es, e);
      TimesIsMultiplicity(es, e);
      TimesIsMultiplicity(Grouped(es), e);
      assert e in multiset(Grouped(es));
      assert e in multiset(es);
    }
  }
}
