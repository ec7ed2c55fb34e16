/** What one `processSettlementBatch` call does to the outside world, and when each effect is justified. */
module Trace {
  import opened Matches
  import opened Grouping
  import opened Options

  /** Queued collateral assets by borrower. */
  type Collateral = map<Address, seq<Address>>

  /** A dry-run: clean, reverting for good, or failing in a way that may pass. */
  datatype Verdict = Clean | Reverts | Flaky

  datatype Event =
    | ReadSettled(readId: MatchId, result: Option<bool>)
    | WroteBack(written: Match)
    | Unwritten(unwritten: Match) // its writeback threw
    | Acked(entry: Entry)
    | Deleted(entries: seq<Entry>)
    | Simulated(batch: seq<Match>, collateral: Collateral, verdict: Verdict)
    | Probed(probed: Match, probedWith: Collateral, outcome: Verdict)
    | Quarantined(quarantined: Match)
    | Submitted(matches: seq<Match>, submittedWith: Collateral, mined: bool)

  const DELETE_BATCH_SIZE := 100

  function AckedIn(t: seq<Event>): seq<Entry> {
    if t == [] then []
    else
      var e := t[|t| - 1];
      var before := AckedIn(t[..|t| - 1]);
      if e.Acked? then before + [e.entry] else before
  }

  function DeletedIn(t: seq<Event>): seq<Entry> {
    if t == [] then []
    else
      var e := t[|t| - 1];
      var before := DeletedIn(t[..|t| - 1]);
      if e.Deleted? then before + e.entries else before
  }

  /** The latest whole-array dry-run. */
  function LastDryRun(t: seq<Event>): Option<Event> {
    if t == [] then None
    else if t[|t| - 1].Simulated? then Some(t[|t| - 1])
    else LastDryRun(t[..|t| - 1])
  }

  predicate HasFlaky(t: seq<Event>) {
    t != [] &&
    var e := t[|t| - 1];
    || (e.Simulated? && e.verdict.Flaky?) || (e.Probed? && e.outcome.Flaky?)
    || HasFlaky(t[..|t| - 1])
  }

  /** How many whole-array dry-runs and how many live transactions. */
  function Counts(t: seq<Event>): (nat, nat) {
    if t == [] then (0, 0)
    else
      var e, before := t[|t| - 1], Counts(t[..|t| - 1]);
      if e.Simulated? then (before.0 + 1, before.1)
      else if e.Submitted? then (before.0, before.1 + 1)
      else before
  }

  /** What was left after the poison was taken out was dry-run again, and still reverts. */
  predicate StillReverts(t: seq<Event>) {
    Counts(t).0 == 2 && LastDryRun(t).Some? && var run := LastDryRun(t).value; run.Simulated? && run.verdict == Reverts
  }

  /** The collateral that dry-runs, probes and live transactions carried. */
  function Loads(t: seq<Event>): set<Collateral> {
    if t == [] then {}
    else
      var e, before := t[|t| - 1], Loads(t[..|t| - 1]);
      match e
      case Simulated(_, with, _) => before + {with}
      case Probed(_, with, _) => before + {with}
      case Submitted(_, with, _) => before + {with}
      case _ => before
  }

  predicate HasQuarantine(t: seq<Event>) {
    t != [] && (t[|t| - 1].Quarantined? || HasQuarantine(t[..|t| - 1]))
  }

  predicate HasMined(t: seq<Event>, id: MatchId) {
    t != [] &&
    var e := t[|t| - 1];
    || (e.Submitted? && e.mined && exists m :: m in e.matches && m.matchId == id)
    || HasMined(t[..|t| - 1], id)
  }

  /** The call has seen this match settled on chain. */
  predicate SeenOnChain(t: seq<Event>, id: MatchId) {
    ReadSettled(id, Some(true)) in t || HasMined(t, id)
  }

  /** The call may forget this match: it is settled on chain or out of PENDING. */
  predicate Resolved(t: seq<Event>, m: Match) {
    SeenOnChain(t, m.matchId) || Quarantined(m) in t
  }

  /** Resolved, and recorded: quarantined, written back, or at least its writeback was tried. */
  predicate Done(t: seq<Event>, m: Match) {
    Resolved(t, m) && (Quarantined(m) in t || Tried(t, m))
  }

  predicate Tried(t: seq<Event>, m: Match) {
    WroteBack(m) in t || Unwritten(m) in t
  }

  predicate OneStream(es: seq<Entry>) {
    forall i :: 0 <= i < |es| ==> es[i].stream == es[0].stream
  }

  /**
    When an event may follow a trace. An entry is acknowledged only once its match is resolved and
    recorded, and deleted only once acknowledged; a match is written back only once seen on chain; a
    batch is submitted only if it is not empty and its latest dry-run, with the same collateral, was
    clean.
   */
  predicate Justifies(t: seq<Event>, e: Event) {
    match e
    case Acked(entry) => Done(t, entry.payload)
    case Deleted(es) => 0 < |es| <= DELETE_BATCH_SIZE && OneStream(es) && forall x :: x in es ==> x in AckedIn(t)
    case WroteBack(m) => SeenOnChain(t, m.matchId)
    case Unwritten(m) => SeenOnChain(t, m.matchId)
    case Submitted(ms, with, _) => ms != [] && LastDryRun(t) == Some(Simulated(ms, with, Clean))
    case _ => true
  }

  predicate Justified(t: seq<Event>) {
    t == [] || (Justified(t[..|t| - 1]) && Justifies(t[..|t| - 1], t[|t| - 1]))
  }

  lemma Snoc(t: seq<Event>, e: Event)
    ensures AckedIn(t + [e]) == if e.Acked? then AckedIn(t) + [e.entry] else AckedIn(t)
    ensures DeletedIn(t + [e]) == if e.Deleted? then DeletedIn(t) + e.entries else DeletedIn(t)
    ensures LastDryRun(t + [e]) == if e.Simulated? then Some(e) else LastDryRun(t)
    ensures HasFlaky(t + [e]) <==>
              HasFlaky(t) || (e.Simulated? && e.verdict.Flaky?) || (e.Probed? && e.outcome.Flaky?)
    ensures HasQuarantine(t + [e]) <==> HasQuarantine(t) || e.Quarantined?
    ensures Counts(t + [e]) ==
            (Counts(t).0 + if e.Simulated? then 1 else 0, Counts(t).1 + if e.Submitted? then 1 else 0)
    ensures Loads(t + [e]) ==
            Loads(t) + match e
                       case Simulated(_, with, _) => {with}
                       case Probed(_, with, _) => {with}
                       case Submitted(_, with, _) => {with}
                       case _ => {}
    ensures forall id :: HasMined(t + [e], id) <==>
              HasMined(t, id) || (e.Submitted? && e.mined && exists m :: m in e.matches && m.matchId == id)
    ensures Justified(t + [e]) <==> Justified(t) && Justifies(t, e)
  {
    assert (t + [e])[..|t|] == t;
  }

  /** What was seen stays seen. */
  lemma {:induction false} SeenStays(t: seq<Event>, t': seq<Event>, m: Match)
    requires t <= t'
    ensures HasMined(t, m.matchId) ==> HasMined(t', m.matchId)
    ensures SeenOnChain(t, m.matchId) ==> SeenOnChain(t', m.matchId)
    ensures Resolved(t, m) ==> Resolved(t', m)
    ensures Done(t, m) ==> Done(t', m)
  {
    if |t'| > |t| {
      SeenStays(t, t'[..|t'| - 1], m);
    } else {
      assert t == t';
    }
    assert forall e :: e in t ==> e in t';
  }

  /** Wherever a justified trace is cut, as by a crash, each of its events was justified by those before it. */
  lemma {:induction false} CutAnywhere(t: seq<Event>, i: nat)
    requires Justified(t) && i < |t|
    ensures Justified(t[..i]) && Justifies(t[..i], t[i])
  {
    if i < |t| - 1 {
      CutAnywhere(t[..|t| - 1], i);
      assert t[..|t| - 1][..i] == t[..i];
    }
  }

  /**
    The settle gate: wherever a justified trace submits a batch, the batch is not empty and the last
    whole-array dry-run before it was of exactly that batch, with that collateral, and clean.
   */
  lemma SettleGate(t: seq<Event>, i: nat)
    requires Justified(t) && i < |t| && t[i].Submitted?
    ensures t[i].matches != []
    ensures LastDryRun(t[..i]) == Some(Simulated(t[i].matches, t[i].submittedWith, Clean))
  {
    CutAnywhere(t, i);
  }

  // ----- Runs of acknowledgements and deletions -----

  function Acks(es: seq<Entry>): seq<Event> {
    if es == [] then [] else Acks(es[..|es| - 1]) + [Acked(es[|es| - 1])]
  }

  function Deletes(chunks: seq<seq<Entry>>): seq<Event> {
    if chunks == [] then [] else Deletes(chunks[..|chunks| - 1]) + [Deleted(chunks[|chunks| - 1])]
  }

  function Flat(chunks: seq<seq<Entry>>): seq<Entry> {
    if chunks == [] then [] else Flat(chunks[..|chunks| - 1]) + chunks[|chunks| - 1]
  }

  predicate Chunked(chunks: seq<seq<Entry>>) {
    forall c :: c in chunks ==> 0 < |c| <= DELETE_BATCH_SIZE && OneStream(c)
  }

  /** Nothing but acknowledgements and deletions was added. */
  ghost predicate SameVerdicts(t: seq<Event>, t': seq<Event>) {
    && t <= t'
    && LastDryRun(t') == LastDryRun(t) && Counts(t') == Counts(t) && Loads(t') == Loads(t)
    && (HasFlaky(t') <==> HasFlaky(t)) && (HasQuarantine(t') <==> HasQuarantine(t))
  }

  lemma {:induction false} AddAcks(t: seq<Event>, es: seq<Entry>)
    ensures AckedIn(t + Acks(es)) == AckedIn(t) + es && DeletedIn(t + Acks(es)) == DeletedIn(t)
    ensures SameVerdicts(t, t + Acks(es))
    ensures Justified(t) && (forall e :: e in es ==> Done(t, e.payload)) ==> Justified(t + Acks(es))
  {
    hide AckedIn, DeletedIn, LastDryRun, HasFlaky, HasQuarantine, HasMined, Counts, Loads, Justified, Done;
    if es == [] {
      assert t + Acks(es) == t;
    } else {
      var init, last := es[..|es| - 1], es[|es| - 1];
      AddAcks(t, init);
      Snoc(t + Acks(init), Acked(last));
      assert t + Acks(es) == t + Acks(init) + [Acked(last)];
      SeenStays(t, t + Acks(init), last.payload);
      assert forall e :: e in init ==> e in es;
    }
  }

  lemma {:induction false} AddDeletes(t: seq<Event>, chunks: seq<seq<Entry>>)
    ensures AckedIn(t + Deletes(chunks)) == AckedIn(t) && DeletedIn(t + Deletes(chunks)) == DeletedIn(t) + Flat(chunks)
    ensures SameVerdicts(t, t + Deletes(chunks))
  {
    hide AckedIn, DeletedIn, LastDryRun, HasFlaky, HasQuarantine, HasMined, Counts, Loads, Justified, Done;
    if chunks == [] {
      assert t + Deletes(chunks) == t;
    } else {
      var init, last := chunks[..|chunks| - 1], chunks[|chunks| - 1];
      AddDeletes(t, init);
      Snoc(t + Deletes(init), Deleted(last));
      assert t + Deletes(chunks) == t + Deletes(init) + [Deleted(last)];
    }
  }

  lemma {:induction false} DeletesJustified(t: seq<Event>, chunks: seq<seq<Entry>>)
    requires Justified(t) && Chunked(chunks) && forall e :: e in Flat(chunks) ==> e in AckedIn(t)
    ensures Justified(t + Deletes(chunks))
  {
    hide AckedIn, DeletedIn, LastDryRun, HasFlaky, HasQuarantine, HasMined, Counts, Loads, Justified, Done;
    if chunks == [] {
      assert t + Deletes(chunks) == t;
    } else {
      var init, last := chunks[..|chunks| - 1], chunks[|chunks| - 1];
      assert last in chunks && forall c :: c in init ==> c in chunks;
      DeletesJustified(t, init);
      AddDeletes(t, init);
      assert Justifies(t + Deletes(init), Deleted(last));
      Snoc(t + Deletes(init), Deleted(last));
      assert t + Deletes(chunks) == t + Deletes(init) + [Deleted(last)];
    }
  }

  /** Adding events in two goes. */
  lemma Assoc<T>(a: seq<T>, b: seq<T>, c: seq<T>)
    ensures a + b + c == a + (b + c)
  {
  }

  /** One more chunk of a list of one stream's entries. */
  lemma OneMoreChunk(chunks: seq<seq<Entry>>, ids: seq<Entry>, i: nat, end: nat)
    requires i < end <= |ids| && end - i <= DELETE_BATCH_SIZE && OneStream(ids)
    requires Chunked(chunks) && Flat(chunks) == ids[..i]
    ensures Chunked(chunks + [ids[i..end]]) && Flat(chunks + [ids[i..end]]) == ids[..end]
  {
    var chunk := ids[i..end];
    DeletesOneMore(chunks, chunk);
    assert ids[..end] == ids[..i] + chunk;
    assert OneStream(chunk) by {
      forall k | 0 <= k < |chunk| ensures chunk[k].stream == chunk[0].stream {
        assert chunk[k] == ids[i + k] && chunk[0] == ids[i];
      }
    }
  }

  lemma ChunkedConcat(a: seq<seq<Entry>>, b: seq<seq<Entry>>)
    requires Chunked(a) && Chunked(b)
    ensures Chunked(a + b)
  {
  }

  lemma AcksOneMore(es: seq<Entry>, e: Entry)
    ensures Acks(es + [e]) == Acks(es) + [Acked(e)]
  {
    assert (es + [e])[..|es|] == es;
  }

  lemma DeletesOneMore(chunks: seq<seq<Entry>>, c: seq<Entry>)
    ensures Deletes(chunks + [c]) == Deletes(chunks) + [Deleted(c)] && Flat(chunks + [c]) == Flat(chunks) + c
  {
    assert (chunks + [c])[..|chunks|] == chunks;
  }

  lemma {:induction false} AcksConcat(a: seq<Entry>, b: seq<Entry>)
    ensures Acks(a + b) == Acks(a) + Acks(b)
  {
    if b == [] {
      assert a + b == a;
    } else {
      assert a + b == a + b[..|b| - 1] + [b[|b| - 1]];
      AcksConcat(a, b[..|b| - 1]);
      AcksOneMore(a + b[..|b| - 1], b[|b| - 1]);
    }
  }

  lemma {:induction false} DeletesConcat(a: seq<seq<Entry>>, b: seq<seq<Entry>>)
    ensures Deletes(a + b) == Deletes(a) + Deletes(b) && Flat(a + b) == Flat(a) + Flat(b)
  {
    if b == [] {
      assert a + b == a;
    } else {
      assert a + b == a + b[..|b| - 1] + [b[|b| - 1]];
      DeletesConcat(a, b[..|b| - 1]);
      DeletesOneMore(a + b[..|b| - 1], b[|b| - 1]);
    }
  }
}
