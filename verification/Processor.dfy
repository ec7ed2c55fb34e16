/** `BatchProcessor.processBatch`: one batch, its three ways of ending, and what each leaves behind. */
module Processor {
  import opened Matches
  import opened Store
  import opened Ledger
  import G = Grouping
  import T = Trace
  import P = ProcessBatch
  import opened Accumulator
  import R = Recovery
  import opened FailurePath
  import opened Interference
  import opened Database
  import opened Retry

  /**
    What a call's writebacks and quarantines did to the tables, and everyone else between them and
    between the three transactions of the failure path.
   */
  datatype Doings = Doings(
    txHash: nat -> string, reason: nat -> string, others: nat -> seq<Job>,
    beforeRecord: seq<Job>, beforeRestore: seq<Job>)

  /** The writebacks and quarantines of the trace were committed. */
  function JobOf(e: T.Event, i: nat, how: Doings): seq<Job> {
    match e
    case WroteBack(m) => [Writeback(m, how.txHash(i))]
    case Quarantined(m) => [Quarantine(m, how.reason(i))]
    case _ => []
  }

  /** The transactions committed while a call left a trace, in order. */
  function JobsOf(t: seq<T.Event>, how: Doings): seq<Job> {
    if t == [] then how.others(0)
    else JobsOf(t[..|t| - 1], how) + JobOf(t[|t| - 1], |t|, how) + how.others(|t|)
  }

  lemma {:induction false} ApplyAllConcat(t: Tables, a: seq<Job>, b: seq<Job>)
    ensures ApplyAll(t, a + b) == ApplyAll(ApplyAll(t, a), b)
    decreases a
  {
    if a == [] {
      assert a + b == b;
    } else {
      assert (a + b)[1..] == a[1..] + b;
      ApplyAllConcat(Apply(t, a[0]), a[1..], b);
    }
  }

  lemma {:induction false} OutOfPendingForGood(t: Tables, jobs: seq<Job>, id: MatchId)
    requires !t.IsPending(id)
    ensures !ApplyAll(t, jobs).IsPending(id)
    decreases jobs
  {
    if jobs != [] {
      ApplyMeans(t, jobs[0]);
      OutOfPendingForGood(Apply(t, jobs[0]), jobs[1..], id);
    }
  }

  /** Whatever else was committed, every match the call quarantined or wrote back is out of PENDING afterwards. */
  lemma {:induction false} RecordedLeftPending(db: Tables, t: seq<T.Event>, how: Doings, m: Match)
    requires T.Quarantined(m) in t || T.WroteBack(m) in t
    ensures !ApplyAll(db, JobsOf(t, how)).IsPending(m.matchId)
  {
    var init, last := t[..|t| - 1], t[|t| - 1];
    var before, own, after := JobsOf(init, how), JobOf(last, |t|, how), how.others(|t|);
    var db1 := ApplyAll(db, before);
    ApplyAllConcat(db, before + own, after);
    ApplyAllConcat(db, before, own);
    if last == T.Quarantined(m) || last == T.WroteBack(m) {
      assert |own| == 1 && own[0].m == m && own[1..] == [];
      ApplyMeans(db1, own[0]);
      assert ApplyAll(db1, own) == ApplyAll(Apply(db1, own[0]), []);
    } else {
      RecordedLeftPending(db, init, how, m);
      OutOfPendingForGood(db1, own, m.matchId);
    }
    OutOfPendingForGood(ApplyAll(db1, own), after, m.matchId);
  }

  /** After a call that returns and lost no writeback, no match of its batch is PENDING, whatever others committed. */
  lemma ReturnLeavesNonePending(db: Tables, es: seq<G.Entry>, classes: seq<G.Class>, t: seq<T.Event>, last: P.Reply,
                                how: Doings)
    requires |classes| == |es| && P.Promise(es, classes, t, last, P.Returned)
    requires forall e :: e in es ==> T.Unwritten(e.payload) !in t
    ensures forall e :: e in es ==> !ApplyAll(db, JobsOf(t, how)).IsPending(e.payload.matchId)
  {
    forall e | e in es ensures !ApplyAll(db, JobsOf(t, how)).IsPending(e.payload.matchId) {
      var i :| 0 <= i < |es| && es[i] == e;
      assert P.Fulfilled(es[i].payload, classes[i], t);
      RecordedLeftPending(db, t, how, e.payload);
    }
  }

  class BatchProcessor {
    const conn: Connection
    const accumulator: BatchAccumulator
    const failureBackoffBaseMs: nat
    const failureBackoffMaxMs: nat
    var consecutiveFailures: nat
    var nextRetryAt: int
    /** What the failure path has acknowledged and deleted. */
    var acked: seq<G.Entry>
    var deleted: seq<G.Entry>

    constructor (conn: Connection, accumulator: BatchAccumulator, baseMs: nat, maxMs: nat)
      ensures this.conn == conn && this.accumulator == accumulator
      ensures consecutiveFailures == 0 && nextRetryAt == 0 && acked == deleted == []
    {
      this.conn, this.accumulator := conn, accumulator;
      failureBackoffBaseMs, failureBackoffMaxMs := baseMs, maxMs;
      consecutiveFailures, nextRetryAt, acked, deleted := 0, 0, [], [];
    }

    /**
      Reclaim: the own-pending loop, then whatever was claimed from dead consumers, into the queue.
      Each entry is queued once however often it was re-read, nothing queued before is lost, and the
      loop's part of it is at most `readCount` entries if parsing is steady.
     */
    method ReclaimPending(consumer: R.Consumer, readCount: nat, claimed: seq<G.Entry>)
      returns (ghost read: seq<G.Entry>, ghost gone: seq<G.Entry>)
      requires accumulator.Valid() && 0 < readCount
      modifies consumer, accumulator
      ensures accumulator.Valid()
      ensures accumulator.queue == Queued(old(accumulator.queue) + (read + claimed), accumulator.maxCapacity)
      ensures old(accumulator.queue) <= accumulator.queue
      ensures R.Steady(consumer.parses) ==>
                && (forall e :: e in read ==> e in R.Window(consumer.pending, readCount))
                && |accumulator.queue| <= |old(accumulator.queue)| + readCount + |claimed|
      ensures consumer.Smooth(old(consumer.clock), consumer.clock) && 0 < accumulator.batchSize ==>
                forall e :: e in R.Window(old(consumer.pending), readCount) ==> e in read || e in gone
      ensures consumer.dropped == old(consumer.dropped) + gone
    {
      hide Firsts, IdsOf, R.ValidInside, R.Window, R.Steady, R.Accounted, G.Times;
      var matches;
      ghost var whole;
      matches, gone, whole := consumer.ProcessPendingEntries(readCount, accumulator.batchSize * 3);
      read := matches;
      if R.Steady(consumer.parses) {
        AllInside(consumer.parses, matches, R.Window(consumer.pending, readCount));
        R.ReclaimAddsFew(accumulator.queue, matches, claimed, consumer.pending, readCount, accumulator.maxCapacity);
      }
      accumulator.AddMatches(matches + claimed);
    }

    /** XACK and XDEL entry by entry; the first that throws, landed or not, ends the loop and is swallowed. */
    method ForgetBatch(batch: seq<G.Entry>, replies: nat -> R.Reply) returns (ghost a: nat, ghost d: nat)
      modifies `acked, `deleted
      ensures d <= a <= |batch| && a <= d + 1
      ensures acked == old(acked) + batch[..a] && deleted == old(deleted) + batch[..d]
      ensures (forall i :: !replies(i).throws) ==> d == |batch|
    {
      a, d := 0, 0;
      for i := 0 to |batch|
        invariant a == d == i
        invariant acked == old(acked) + batch[..i] && deleted == old(deleted) + batch[..i]
      {
        assert batch[..i + 1] == batch[..i] + [batch[i]];
        var ack, del := replies(2 * i), replies(2 * i + 1);
        if !ack.throws || ack.landed {
          acked, a := acked + [batch[i]], i + 1;
        }
        if ack.throws {
          return;
        }
        if !del.throws || del.landed {
          deleted, d := deleted + [batch[i]], i + 1;
        }
        if del.throws {
          return;
        }
      }
    }

    /**
      The non-retryable failure: three transactions, each tried whatever became of the others, with
      others' in between.
     */
    method CleanUp(batch: seq<G.Entry>, reason: string, how: Doings, replies: nat -> R.Reply)
      returns (ghost u: bool, ghost r: bool, ghost s: bool, ghost a: nat, ghost d: nat)
      modifies conn, `acked, `deleted
      ensures conn.Fine(old(conn.clock), conn.clock) ==> u && r && s
      ensures conn.committed ==
              CleanupAmid(old(conn.committed), G.Payloads(batch), reason, u, r, s, how.beforeRecord, how.beforeRestore)
      ensures d <= a <= |batch| && acked == old(acked) + batch[..a] && deleted == old(deleted) + batch[..d]
      ensures (forall i :: !replies(i).throws) ==> d == |batch|
    {
      hide ApplyAll, ExecuteAll, UnlockStatements, RecordStatements, RestoreStatements;
      var payloads := G.Payloads(batch);
      ghost var t0 := conn.committed;
      conn.UnlockFailedMatches(payloads);
      u := conn.committed == ExecuteAll(t0, UnlockStatements(payloads));
      conn.Elsewhere(how.beforeRecord);
      ghost var t1 := conn.committed;
      conn.RecordFailedMatches(payloads, reason);
      r := conn.committed == ExecuteAll(t1, RecordStatements(payloads, reason));
      conn.Elsewhere(how.beforeRestore);
      ghost var t2 := conn.committed;
      conn.RestoreOrdersForFailedMatches(payloads);
      s := conn.committed == ExecuteAll(t2, RestoreStatements(payloads));
      a, d := ForgetBatch(batch, replies);
    }

    /**
      The batch always leaves the queue. A normal return clears the failure count; a non-retryable
      failure cleans the whole batch up and clears it too; anything else leaves the tables alone,
      counts the failure and backs off. The tables are first those that the call's own writebacks and
      quarantines, as its trace has them, and everyone else's transactions in between have made.
     */
    method ProcessBatch(script: nat -> P.Reply, how: Doings, now: int, failedAt: int, reason: string,
        replies: nat -> R.Reply)
      returns (threw: bool, ghost end: P.End, ghost t: seq<T.Event>, ghost at: seq<nat>, ghost asked: nat,
          ghost classes: seq<G.Class>)
      requires accumulator.Valid()
      modifies this, conn, accumulator
      ensures accumulator.Valid() && accumulator.queue == []
      ensures old(accumulator.queue) != [] ==>
                && |classes| == |old(accumulator.queue)| && P.Heard(t, at, script, asked)
                && P.Promise(old(accumulator.queue), classes, t, script(asked), end)
      ensures threw <==> end == P.Threw || end == P.Failed(true)
      ensures !threw ==> nextRetryAt == old(nextRetryAt)
      ensures old(accumulator.queue) == [] ==>
                !threw && end == P.Returned && consecutiveFailures == old(consecutiveFailures)
      ensures old(accumulator.queue) != [] && !threw ==> consecutiveFailures == 0
      ensures threw ==>
                && consecutiveFailures == old(consecutiveFailures) + 1
                && nextRetryAt ==
                   failedAt + CalculateBackoffDelay(consecutiveFailures, failureBackoffBaseMs, failureBackoffMaxMs)
      ensures end != P.Failed(false) ==> acked == old(acked) && deleted == old(deleted)
      ensures end != P.Failed(false) ==>
                conn.committed == if old(accumulator.queue) == [] then old(conn.committed)
                                  else ApplyAll(old(conn.committed), JobsOf(t, how))
      ensures end == P.Failed(false) ==>
                exists u, r, s ::
                  && (conn.Fine(old(conn.clock), conn.clock) ==> u && r && s)
                  && conn.committed ==
                     CleanupAmid(ApplyAll(old(conn.committed), JobsOf(t, how)), G.Payloads(old(accumulator.queue)),
                                 reason, u, r, s, how.beforeRecord, how.beforeRestore)
      ensures end == P.Failed(false) && (forall i :: !replies(i).throws) ==>
                acked == old(acked) + old(accumulator.queue) && deleted == old(deleted) + old(accumulator.queue)
      ensures end == P.Returned && (forall e :: e in old(accumulator.queue) ==> T.Unwritten(e.payload) !in t) ==>
                forall e :: e in old(accumulator.queue) ==> !conn.committed.IsPending(e.payload.matchId)
    {
      hide *;
      var batch := accumulator.GetBatch(now);
      if batch == [] {
        return false, P.Returned, [], [], 0, [];
      }
      var run := new P.BatchRun(script);
      var ended;
      ended, classes := run.ProcessSettlementBatch(batch);
      end, t, at, asked := ended, run.trace, run.at, run.clock;
      conn.Elsewhere(JobsOf(run.trace, how));
      match ended
      case Returned =>
        if forall e :: e in batch ==> T.Unwritten(e.payload) !in t {
          ReturnLeavesNonePending(old(conn.committed), batch, classes, t, script(asked), how);
        }
        consecutiveFailures := 0;
        threw := false;
      case Failed(false) =>
        ghost var u, r, s, a, d;
        u, r, s, a, d := CleanUp(batch, reason, how, replies);
        assert batch[..|batch|] == batch;
        consecutiveFailures := 0;
        threw := false;
      case _ =>
        consecutiveFailures := consecutiveFailures + 1;
        nextRetryAt := failedAt + CalculateBackoffDelay(consecutiveFailures, failureBackoffBaseMs, failureBackoffMaxMs);
        threw := true;
    }
  }

  lemma AllInside(parses: (nat, G.Entry) -> R.Parse, es: seq<G.Entry>, window: seq<G.Entry>)
    requires R.ValidInside(parses, es, window)
    ensures forall e :: e in es ==> e in window
  {
  }
}
