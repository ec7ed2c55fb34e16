/** Stream entries, the per-stream grouping that acknowledges them, and the classes of a batch. */
module Grouping {
  import opened Matches

  type Stream = nat

  datatype Entry = Entry(id: nat, stream: Stream, payload: Match)

  function Payloads(es: seq<Entry>): seq<Match> {
    seq(|es|, i requires 0 <= i < |es| => es[i].payload)
  }

  /** The entries of one stream, in order. */
  function OfStream(es: seq<Entry>, s: Stream): seq<Entry> {
    if es == [] then []
    else
      var before := OfStream(es[..|es| - 1], s);
      if es[|es| - 1].stream == s then before + [es[|es| - 1]] else before
  }

  /** The streams in the order a Map first saw them. */
  function Streams(es: seq<Entry>): seq<Stream> {
    if es == [] then []
    else
      var before := Streams(es[..|es| - 1]);
      if es[|es| - 1].stream in before then before else before + [es[|es| - 1].stream]
  }

  function GroupedBy(es: seq<Entry>, ss: seq<Stream>): seq<Entry> {
    if ss == [] then [] else GroupedBy(es, ss[..|ss| - 1]) + OfStream(es, ss[|ss| - 1])
  }

  /** The order in which a batch is acknowledged: stream by stream, each in batch order. */
  function Grouped(es: seq<Entry>): seq<Entry> {
    GroupedBy(es, Streams(es))
  }

  ghost predicate Distinct<T>(s: seq<T>) {
    forall i, j :: 0 <= i < j < |s| ==> s[i] != s[j]
  }

  lemma {:induction false} StreamsDistinct(es: seq<Entry>)
    ensures Distinct(Streams(es))
    ensures forall e :: e in es ==> e.stream in Streams(es)
  {
    if es != [] {
      StreamsDistinct(es[..|es| - 1]);
    }
  }

  /** An entry comes after what its stream had before it in the batch, and its stream after those seen before. */
  lemma {:induction false} InBatchOrder(es: seq<Entry>, i: nat)
    requires i < |es|
    ensures OfStream(es[..i], es[i].stream) + [es[i]] <= OfStream(es, es[i].stream)
    ensures Streams(es[..i]) <= Streams(es)
    ensures es[i].stream !in Streams(es[..i]) ==> Streams(es[..i]) + [es[i].stream] <= Streams(es)
  {
    var init := es[..|es| - 1];
    if i < |init| {
      InBatchOrder(init, i);
      assert init[..i] == es[..i] && init[i] == es[i];
    } else {
      assert es[..i] == init;
    }
  }

  /** How often an entry occurs. */
  function Times(es: seq<Entry>, x: Entry): nat {
    if es == [] then 0 else Times(es[..|es| - 1], x) + if es[|es| - 1] == x then 1 else 0
  }

  lemma {:induction false} TimesConcat(a: seq<Entry>, b: seq<Entry>, x: Entry)
    ensures Times(a + b, x) == Times(a, x) + Times(b, x)
  {
    if b == [] {
      assert a + b == a;
    } else {
      assert (a + b)[..|a + b| - 1] == a + b[..|b| - 1];
      TimesConcat(a, b[..|b| - 1], x);
    }
  }

  lemma {:induction false} TimesIsMultiplicity(es: seq<Entry>, x: Entry)
    ensures Times(es, x) == multiset(es)[x]
  {
    if es != [] {
      TimesIsMultiplicity(es[..|es| - 1], x);
      assert es == es[..|es| - 1] + [es[|es| - 1]];
    }
  }

  /** Equal occurrences make a permutation. */
  lemma SameTimes(a: seq<Entry>, b: seq<Entry>)
    requires forall x :: Times(a, x) == Times(b, x)
    ensures multiset(a) == multiset(b)
  {
    forall x: Entry ensures multiset(a)[x] == multiset(b)[x] {
      TimesIsMultiplicity(a, x);
      TimesIsMultiplicity(b, x);
    }
  }

  /** One more entry lands in exactly one group, if its stream has one. */
  lemma {:induction false} GroupedByOneMore(es: seq<Entry>, e: Entry, ss: seq<Stream>, x: Entry)
    requires Distinct(ss)
    ensures Times(GroupedBy(es + [e], ss), x) == Times(GroupedBy(es, ss), x) + if e.stream in ss && e == x then 1 else 0
  {
    if ss != [] {
      var init, last := ss[..|ss| - 1], ss[|ss| - 1];
      GroupedByOneMore(es, e, init, x);
      assert (es + [e])[..|es|] == es;
      assert e.stream in ss <==> e.stream in init || e.stream == last;
      assert last !in init;
      TimesConcat(GroupedBy(es, init), OfStream(es, last), x);
      TimesConcat(GroupedBy(es + [e], init), OfStream(es + [e], last), x);
      TimesConcat(OfStream(es, last), [e], x);
      assert Times([e], x) == if e == x then 1 else 0;
    }
  }

  lemma {:induction false} OfAbsentStream(es: seq<Entry>, s: Stream)
    requires s !in Streams(es)
    ensures OfStream(es, s) == []
  {
    if es != [] {
      OfAbsentStream(es[..|es| - 1], s);
      StreamsDistinct(es);
      assert es[|es| - 1] in es;
    }
  }

  /** The first entry of a stream opens a group of its own at the end. */
  lemma NewStream(init: seq<Entry>, last: Entry, x: Entry)
    requires last.stream !in Streams(init)
    ensures Times(GroupedBy(init + [last], Streams(init) + [last.stream]), x) ==
            Times(GroupedBy(init + [last], Streams(init)), x) + if last == x then 1 else 0
  {
    var es, ss := init + [last], Streams(init);
    OfAbsentStream(init, last.stream);
    assert es[..|es| - 1] == init;
    assert OfStream(es, last.stream) == [last];
    assert (ss + [last.stream])[..|ss|] == ss;
    TimesConcat(GroupedBy(es, ss), [last], x);
    assert Times([last], x) == if last == x then 1 else 0;
  }

  lemma StreamsLast(init: seq<Entry>, last: Entry)
    ensures Streams(init + [last]) ==
            if last.stream in Streams(init) then Streams(init) else Streams(init) + [last.stream]
  {
    assert (init + [last])[..|init|] == init;
  }

  /** Grouping loses nothing and repeats nothing. */
  lemma {:induction false} GroupedTimes(es: seq<Entry>, x: Entry)
    ensures Times(Grouped(es), x) == Times(es, x)
  {
    if es != [] {
      var init, last := es[..|es| - 1], es[|es| - 1];
      GroupedTimes(init, x);
      GroupedOneMore(init, last, x);
      assert es == init + [last];
    }
  }

  lemma GroupedOneMore(init: seq<Entry>, last: Entry, x: Entry)
    ensures Times(Grouped(init + [last]), x) == Times(Grouped(init), x) + if last == x then 1 else 0
  {
    StreamsDistinct(init);
    StreamsLast(init, last);
    GroupedByOneMore(init, last, Streams(init), x);
    if last.stream !in Streams(init) {
      NewStream(init, last, x);
    }
  }

  // ----- Classes of a batch -----

  datatype Class = AlreadySettled | Poison | Kept

  /** The entries of one class, in batch order. */
  function Pick(es: seq<Entry>, classes: seq<Class>, c: Class): seq<Entry>
    requires |classes| == |es|
  {
    if es == [] then []
    else
      var n := |es| - 1;
      var before := Pick(es[..n], classes[..n], c);
      if classes[n] == c then before + [es[n]] else before
  }

  /** Settling, poisoning and keeping partition the batch. */
  lemma {:induction false} PicksPartition(es: seq<Entry>, classes: seq<Class>, x: Entry)
    requires |classes| == |es|
    ensures Times(Pick(es, classes, AlreadySettled), x) + Times(Pick(es, classes, Poison), x) +
            Times(Pick(es, classes, Kept), x) == Times(es, x)
  {
    if es != [] {
      PicksPartition(es[..|es| - 1], classes[..|es| - 1], x);
      PickLast(es, classes, AlreadySettled, x);
      PickLast(es, classes, Poison, x);
      PickLast(es, classes, Kept, x);
    }
  }

  lemma PickLast(es: seq<Entry>, classes: seq<Class>, c: Class, x: Entry)
    requires |classes| == |es| && es != []
    ensures var n := |es| - 1;
            Times(Pick(es, classes, c), x) ==
            Times(Pick(es[..n], classes[..n], c), x) + if classes[n] == c && es[n] == x then 1 else 0
  {
    var n := |es| - 1;
    TimesConcat(Pick(es[..n], classes[..n], c), [es[n]], x);
    assert Times([es[n]], x) == if es[n] == x then 1 else 0;
  }

  /** The whole acknowledgement order of a classified batch. */
  function AckOrder(es: seq<Entry>, classes: seq<Class>): seq<Entry>
    requires |classes| == |es|
  {
    Grouped(Pick(es, classes, AlreadySettled)) + Grouped(Pick(es, classes, Poison)) + Grouped(Pick(es, classes, Kept))
  }

  /** Whatever the classes, each entry of the batch comes up exactly as often as it was read. */
  lemma AckOrderIsPermutation(es: seq<Entry>, classes: seq<Class>)
    requires |classes| == |es|
    ensures multiset(AckOrder(es, classes)) == multiset(es)
  {
    forall x: Entry ensures Times(AckOrder(es, classes), x) == Times(es, x) {
      AckOrderTimes(es, classes, x);
    }
    SameTimes(AckOrder(es, classes), es);
  }

  lemma AckOrderTimes(es: seq<Entry>, classes: seq<Class>, x: Entry)
    requires |classes| == |es|
    ensures Times(AckOrder(es, classes), x) == Times(es, x)
  {
    var a, b, c := Pick(es, classes, AlreadySettled), Pick(es, classes, Poison), Pick(es, classes, Kept);
    GroupedTimes(a, x);
    GroupedTimes(b, x);
    GroupedTimes(c, x);
    TimesConcat(Grouped(a), Grouped(b), x);
    TimesConcat(Grouped(a) + Grouped(b), Grouped(c), x);
    PicksPartition(es, classes, x);
  }
}
