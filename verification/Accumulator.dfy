/** The in-memory queue between the stream and the batches: no duplicates, never over capacity. */
module Accumulator {
  import opened Grouping
  import opened Options

  type EntryId = nat

  function IdsOf(es: seq<Entry>): set<EntryId> {
    if es == [] then {} else IdsOf(es[..|es| - 1]) + {es[|es| - 1].id}
  }

  lemma {:induction false} IdsOfMeans(es: seq<Entry>, id: EntryId)
    ensures id in IdsOf(es) <==> exists i :: 0 <= i < |es| && es[i].id == id
  {
    if es != [] {
      IdsOfMeans(es[..|es| - 1], id);
    }
  }

  ghost predicate DistinctEntries(es: seq<Entry>) {
    forall i, j :: 0 <= i < j < |es| ==> es[i].id != es[j].id
  }

  /** Each id's first entry, in order. */
  function Firsts(es: seq<Entry>): (r: seq<Entry>)
    ensures IdsOf(r) == IdsOf(es)
  {
    if es == [] then []
    else
      var init, last := es[..|es| - 1], es[|es| - 1];
      var before := Firsts(init);
      if last.id in IdsOf(init) then before
      else
        assert (before + [last])[..|before|] == before;
        before + [last]
  }

  function Take(es: seq<Entry>, n: nat): seq<Entry> {
    if |es| <= n then es else es[..n]
  }

  /** What the queue holds after everything offered to it, in one go. */
  function Queued(offered: seq<Entry>, capacity: nat): seq<Entry> {
    Take(Firsts(offered), capacity)
  }

  lemma {:induction false} FirstsDistinct(es: seq<Entry>)
    ensures DistinctEntries(Firsts(es))
  {
    if es != [] {
      var init, last := es[..|es| - 1], es[|es| - 1];
      FirstsDistinct(init);
      IdsOfMeans(Firsts(init), last.id);
    }
  }

  /** An entry is kept exactly when some occurrence of it has no entry with its id before it. */
  lemma {:induction false} FirstsMeans(es: seq<Entry>, e: Entry)
    ensures e in Firsts(es) <==> exists i :: 0 <= i < |es| && es[i] == e && e.id !in IdsOf(es[..i])
  {
    if es != [] {
      var n := |es| - 1;
      var init := es[..n];
      FirstsMeans(init, e);
      if e in Firsts(init) {
        var i :| 0 <= i < n && init[i] == e && e.id !in IdsOf(init[..i]);
        assert es[i] == e && es[..i] == init[..i];
      }
      forall i | 0 <= i < |es| && es[i] == e && e.id !in IdsOf(es[..i]) ensures e in Firsts(es) {
        assert i < n ==> init[i] == e && init[..i] == es[..i];
      }
    }
  }

  lemma {:induction false} FirstsOfDistinct(es: seq<Entry>)
    requires DistinctEntries(es)
    ensures Firsts(es) == es
  {
    if es != [] {
      FirstsOfDistinct(es[..|es| - 1]);
      IdsOfMeans(es[..|es| - 1], es[|es| - 1].id);
    }
  }

  lemma FirstsNext(es: seq<Entry>, e: Entry)
    ensures Firsts(es + [e]) == if e.id in IdsOf(es) then Firsts(es) else Firsts(es) + [e]
  {
    assert (es + [e])[..|es|] == es;
  }

  lemma {:induction false} IdsOfConcat(a: seq<Entry>, b: seq<Entry>)
    ensures IdsOf(a + b) == IdsOf(a) + IdsOf(b)
  {
    if b == [] {
      assert a + b == a;
    } else {
      IdsOfConcat(a, b[..|b| - 1]);
      assert (a + b)[..|a + b| - 1] == a + b[..|b| - 1];
    }
  }

  lemma {:induction false} FirstsPrefix(a: seq<Entry>, b: seq<Entry>)
    ensures Firsts(a) <= Firsts(a + b)
    ensures |Firsts(a + b)| <= |Firsts(a)| + |Firsts(b)|
  {
    hide Firsts, IdsOf;
    if b == [] {
      assert a + b == a;
    } else {
      var init, last := b[..|b| - 1], b[|b| - 1];
      FirstsPrefix(a, init);
      assert a + b == a + init + [last] && b == init + [last];
      FirstsNext(a + init, last);
      FirstsNext(init, last);
      IdsOfConcat(a, init);
    }
  }

  /** Deduplicating early changes nothing. */
  lemma {:induction false} FirstsOfFirsts(a: seq<Entry>, b: seq<Entry>)
    ensures Firsts(Firsts(a) + b) == Firsts(a + b)
  {
    if b == [] {
      FirstsDistinct(a);
      FirstsOfDistinct(Firsts(a));
      assert Firsts(a) + b == Firsts(a) && a + b == a;
    } else {
      var init, last := b[..|b| - 1], b[|b| - 1];
      FirstsOfFirsts(a, init);
      assert a + b == a + init + [last] && Firsts(a) + b == Firsts(a) + init + [last];
      FirstsNext(a + init, last);
      FirstsNext(Firsts(a) + init, last);
      IdsOfConcat(a, init);
      IdsOfConcat(Firsts(a), init);
    }
  }

  /** Offering a list in pieces queues what offering it at once does, full or not. */
  lemma PiecesAddUp(a: seq<Entry>, b: seq<Entry>, capacity: nat)
    ensures Queued(Queued(a, capacity) + b, capacity) == Queued(a + b, capacity)
  {
    hide Firsts, IdsOf;
    if |Firsts(a)| <= capacity {
      FirstsOfFirsts(a, b);
    } else {
      FullStaysFull(a, b, capacity);
      var full := Firsts(a)[..capacity];
      FirstsDistinct(a);
      FirstsOfDistinct(full);
      assert Queued(a, capacity) == full by {
        assert |Firsts(a)| == capacity ==> full == Firsts(a);
      }
      FullStaysFull(full, b, capacity);
      assert full[..capacity] == full;
    }
  }

  lemma FullStaysFull(a: seq<Entry>, b: seq<Entry>, capacity: nat)
    requires capacity <= |Firsts(a)|
    ensures Queued(a + b, capacity) == Firsts(a)[..capacity]
  {
    hide Firsts, IdsOf;
    FirstsPrefix(a, b);
    PrefixSlice(Firsts(a), Firsts(a + b), capacity);
  }

  lemma PrefixSlice(s: seq<Entry>, longer: seq<Entry>, n: nat)
    requires s <= longer && n <= |s|
    ensures longer[..n] == s[..n]
  {
  }

  /** Short of capacity, every id offered is queued. */
  lemma NothingTurnedAway(offered: seq<Entry>, capacity: nat, e: Entry)
    requires |Queued(offered, capacity)| < capacity && e in offered
    ensures e.id in IdsOf(Queued(offered, capacity))
  {
    IdsOfMeans(offered, e.id);
  }

  /** One more entry offered to a queue with room. */
  lemma OneMore(queue: seq<Entry>, offered: seq<Entry>, e: Entry)
    requires queue == Firsts(offered) && DistinctEntries(queue)
    ensures Firsts(offered + [e]) == if e.id in IdsOf(queue) then queue else queue + [e]
    ensures DistinctEntries(Firsts(offered + [e])) && IdsOf(queue + [e]) == IdsOf(queue) + {e.id}
  {
    FirstsNext(offered, e);
    FirstsDistinct(offered + [e]);
    assert (queue + [e])[..|queue|] == queue;
  }

  class BatchAccumulator {
    var queue: seq<Entry>
    var seenIds: set<EntryId>
    var lastProcessedTime: int
    const batchSize: nat
    const batchIntervalMs: nat
    const maxCapacity: nat

    ghost predicate Valid()
      reads this
    {
      DistinctEntries(queue) && seenIds == IdsOf(queue) && |queue| <= maxCapacity
    }

    constructor (batchSize: nat, batchIntervalMs: nat, maxCapacity: Option<nat>, now: int)
      ensures Valid() && queue == [] && lastProcessedTime == now
      ensures this.batchSize == batchSize && this.batchIntervalMs == batchIntervalMs
      ensures this.maxCapacity == if maxCapacity.Some? then maxCapacity.value else batchSize * 5
    {
      queue, seenIds, lastProcessedTime := [], {}, now;
      this.batchSize, this.batchIntervalMs := batchSize, batchIntervalMs;
      this.maxCapacity := if maxCapacity.Some? then maxCapacity.value else batchSize * 5;
    }

    method AddMatches(matches: seq<Entry>)
      requires Valid()
      modifies `queue, `seenIds
      ensures Valid()
      ensures queue == Queued(old(queue) + matches, maxCapacity)
      ensures old(queue) <= queue
    {
      hide Firsts, IdsOf;
      ghost var before := queue;
      FirstsOfDistinct(before);
      assert before + matches[..0] == before;
      for i := 0 to |matches|
        invariant Valid() && before <= queue
        invariant queue == Firsts(before + matches[..i])
      {
        assert before + matches[..i] + matches[i..] == before + matches;
        assert before + matches[..i + 1] == before + matches[..i] + [matches[i]];
        if |queue| >= maxCapacity {
          FullStaysFull(before + matches[..i], matches[i..], maxCapacity);
          assert queue[..maxCapacity] == queue;
          return;
        }
        OneMore(queue, before + matches[..i], matches[i]);
        if matches[i].id !in seenIds {
          seenIds := seenIds + {matches[i].id};
          queue := queue + [matches[i]];
        }
      }
      assert matches[..|matches|] == matches;
    }

    predicate ShouldProcess(now: int)
      reads this
    {
      |queue| >= batchSize || (now - lastProcessedTime >= batchIntervalMs && |queue| > 0)
    }

    predicate NeedsMoreMatches()
      reads this
    {
      |queue| < batchSize
    }

    method GetBatch(now: int) returns (batch: seq<Entry>)
      requires Valid()
      modifies this
      ensures Valid() && DistinctEntries(batch)
      ensures batch == old(queue) && queue == [] && lastProcessedTime == now
    {
      batch := queue;
      queue, seenIds := [], {};
      lastProcessedTime := now;
    }

    /**
      The queue is never stuck: it either asks for more or offers a batch, and with anything queued
      it offers a batch as soon as the interval has passed. Before that it offers only a full one.
     */
    lemma NeverStuck(now: int)
      ensures NeedsMoreMatches() || ShouldProcess(now)
      ensures queue != [] && now - lastProcessedTime >= batchIntervalMs ==> ShouldProcess(now)
      ensures ShouldProcess(now) ==> |queue| >= batchSize || now - lastProcessedTime >= batchIntervalMs
      ensures ShouldProcess(now) && 0 < batchSize ==> queue != []
    {
    }
  }
}
