/**
  Recovery of a consumer's own pending entries: XREADGROUP from '0' re-reads the pending list from
  its start each time, invalid entries are acknowledged away, valid ones stay and are read again.
 */
module Recovery {
  import opened Grouping
  import opened Accumulator

  /** What parsing an entry does; `Breaks` is an entry whose fields are gone. */
  datatype Parse = Valid | Invalid | Breaks

  /** A command that throws may have landed all the same. */
  datatype Reply = Reply(throws: bool, landed: bool)

  function Chosen(es: seq<Entry>, flags: seq<bool>, flag: bool): seq<Entry>
    requires |flags| == |es|
  {
    if es == [] then []
    else
      var n := |es| - 1;
      Chosen(es[..n], flags[..n], flag) + if flags[n] == flag then [es[n]] else []
  }

  lemma ChosenNext(es: seq<Entry>, flags: seq<bool>, j: nat, flag: bool, f: bool)
    requires j < |es| && |flags| == j
    ensures Chosen(es[..j + 1], flags + [f], flag) == Chosen(es[..j], flags, flag) + if f == flag then [es[j]] else []
  {
    assert es[..j + 1][..j] == es[..j] && (flags + [f])[..j] == flags;
  }

  lemma NothingChosen(es: seq<Entry>)
    ensures Chosen(es[..0], [], true) == [] && Chosen(es[..0], [], false) == []
    ensures [] + es[0..] == es
  {
  }

  lemma {:induction false} ChosenTimes(es: seq<Entry>, flags: seq<bool>, x: Entry)
    requires |flags| == |es|
    ensures Times(Chosen(es, flags, true), x) + Times(Chosen(es, flags, false), x) == Times(es, x)
  {
    if es != [] {
      var n := |es| - 1;
      ChosenTimes(es[..n], flags[..n], x);
      var one := [es[n]];
      assert one[..0] == [];
      assert Times(one, x) == if es[n] == x then 1 else 0;
      TimesConcat(Chosen(es[..n], flags[..n], true), if flags[n] then one else [], x);
      TimesConcat(Chosen(es[..n], flags[..n], false), if flags[n] then [] else one, x);
    }
  }

  /** A chosen entry moves towards the front, if it moves. */
  lemma {:induction false} ChosenAt(es: seq<Entry>, flags: seq<bool>, i: nat) returns (k: nat)
    requires |flags| == |es| && i < |es| && flags[i]
    ensures k <= i && k < |Chosen(es, flags, true)| && Chosen(es, flags, true)[k] == es[i]
  {
    var n := |es| - 1;
    if i == n {
      k := |Chosen(es[..n], flags[..n], true)|;
      ChosenShorter(es[..n], flags[..n], true);
    } else {
      k := ChosenAt(es[..n], flags[..n], i);
    }
  }

  lemma {:induction false} ChosenShorter(es: seq<Entry>, flags: seq<bool>, flag: bool)
    requires |flags| == |es|
    ensures |Chosen(es, flags, flag)| <= |es|
    ensures (forall f :: f in flags ==> f == flag) ==> Chosen(es, flags, flag) == es
    ensures forall e :: e in Chosen(es, flags, flag) ==> exists i :: 0 <= i < |es| && es[i] == e && flags[i] == flag
  {
    if es != [] {
      var n := |es| - 1;
      ChosenShorter(es[..n], flags[..n], flag);
      assert flags[n] in flags && forall f :: f in flags[..n] ==> f in flags;
      forall e | e in Chosen(es, flags, flag) ensures exists i :: 0 <= i < |es| && es[i] == e && flags[i] == flag {
        if e in Chosen(es[..n], flags[..n], flag) {
          var i :| 0 <= i < n && es[..n][i] == e && flags[..n][i] == flag;
          assert es[i] == e && flags[i] == flag;
        } else {
          assert es[n] == e && flags[n] == flag;
        }
      }
    }
  }

  function Window(pending: seq<Entry>, readCount: nat): seq<Entry> {
    Take(pending, readCount)
  }

  /**
    One read: the first entries of the window were processed, the flags say which of them stayed,
    those that stayed were read as matches and the others dropped.
   */
  ghost predicate Round(before: seq<Entry>, after: seq<Entry>, read: seq<Entry>, dropped: seq<Entry>,
                        flags: seq<bool>, readCount: nat) {
    && |flags| <= |Window(before, readCount)|
    && read == Chosen(before[..|flags|], flags, true)
    && dropped == Chosen(before[..|flags|], flags, false)
    && after == read + before[|flags|..]
  }

  /** When each processed entry was parsed, and that it stayed exactly if it parsed as valid. */
  ghost predicate Asked(parses: (nat, Entry) -> Parse, before: seq<Entry>, flags: seq<bool>, asked: seq<nat>) {
    && |asked| == |flags| <= |before|
    && forall i :: 0 <= i < |flags| ==> parses(asked[i], before[i]) == if flags[i] then Valid else Invalid
  }

  /** Parsing gives the same answer whenever it is asked. */
  ghost predicate Steady(parses: (nat, Entry) -> Parse) {
    forall c, d, e {:trigger parses(c, e), parses(d, e)} :: parses(c, e) == parses(d, e)
  }

  ghost predicate ValidInside(parses: (nat, Entry) -> Parse, es: seq<Entry>, window: seq<Entry>) {
    forall e :: e in es ==> e in window && parses(0, e) == Valid
  }

  /** An entry that stays moves no further from the front. */
  lemma StaysInWindow(before: seq<Entry>, after: seq<Entry>, read: seq<Entry>, dropped: seq<Entry>,
                      flags: seq<bool>, readCount: nat, e: Entry)
    requires Round(before, after, read, dropped, flags, readCount) && e in Window(before, readCount)
    requires forall i :: 0 <= i < |flags| && before[i] == e ==> flags[i]
    ensures e in Window(after, readCount)
  {
    var done := |flags|;
    ChosenShorter(before[..done], flags, true);
    var p :| 0 <= p < |Window(before, readCount)| && before[p] == e;
    var q: nat;
    if p < done {
      q := ChosenAt(before[..done], flags, p);
    } else {
      q := p - done + |read|;
      assert before[done..][p - done] == e;
    }
    assert after[q] == e && q <= p;
    assert Window(after, readCount)[q] == e;
  }

  /** With steady parsing, the matches so far and those just read are inside the new window. */
  lemma RoundWindow(parses: (nat, Entry) -> Parse, before: seq<Entry>, after: seq<Entry>, matches: seq<Entry>,
                    read: seq<Entry>, dropped: seq<Entry>, flags: seq<bool>, asked: seq<nat>, readCount: nat)
    requires Steady(parses) && Round(before, after, read, dropped, flags, readCount) &&
             Asked(parses, before, flags, asked)
    requires ValidInside(parses, matches, Window(before, readCount))
    ensures ValidInside(parses, matches + read, Window(after, readCount))
  {
    ChosenShorter(before[..|flags|], flags, true);
    forall e | e in matches + read ensures e in Window(after, readCount) && parses(0, e) == Valid {
      if e in read {
        var i :| 0 <= i < |flags| && before[i] == e && flags[i];
        assert parses(asked[i], e) == parses(0, e);
        assert Window(before, readCount)[i] == e;
      }
      assert parses(0, e) == Valid && e in Window(before, readCount);
      forall i | 0 <= i < |flags| && before[i] == e ensures flags[i] {
        assert parses(asked[i], e) == parses(0, e);
      }
      StaysInWindow(before, after, read, dropped, flags, readCount, e);
    }
  }

  /** A read loses nothing. */
  lemma RoundTimes(before: seq<Entry>, after: seq<Entry>, read: seq<Entry>, dropped: seq<Entry>,
                   flags: seq<bool>, readCount: nat, x: Entry)
    requires Round(before, after, read, dropped, flags, readCount)
    ensures Times(after, x) + Times(dropped, x) == Times(before, x)
  {
    hide Times, Chosen;
    var (front, rest) := (before[..|flags|], before[|flags|..]);
    assert before == front + rest;
    ChosenTimes(front, flags, x);
    TimesConcat(read, rest, x);
    TimesConcat(front, rest, x);
  }

  lemma RoundSizes(before: seq<Entry>, after: seq<Entry>, read: seq<Entry>, dropped: seq<Entry>, flags: seq<bool>,
      readCount: nat)
    requires Round(before, after, read, dropped, flags, readCount)
    ensures |read| <= |flags| <= readCount && |after| == |before| - |flags| + |read|
    ensures |flags| == |before| ==> after == read
  {
    ChosenShorter(before[..|flags|], flags, true);
  }

  /** Every entry processed was read as a match or dropped. */
  lemma RoundCovers(before: seq<Entry>, after: seq<Entry>, read: seq<Entry>, dropped: seq<Entry>, flags: seq<bool>,
      readCount: nat)
    requires Round(before, after, read, dropped, flags, readCount)
    ensures |flags| == |Window(before, readCount)| ==>
              forall e :: e in Window(before, readCount) ==> e in read || e in dropped
  {
    if |flags| == |Window(before, readCount)| {
      forall e | e in Window(before, readCount) ensures e in read || e in dropped {
        var i :| 0 <= i < |flags| && Window(before, readCount)[i] == e;
        ChosenHas(before[..|flags|], flags, i);
      }
    }
  }

  lemma {:induction false} ChosenHas(es: seq<Entry>, flags: seq<bool>, i: nat)
    requires |flags| == |es| && i < |es|
    ensures es[i] in Chosen(es, flags, flags[i])
  {
    var n := |es| - 1;
    if i < n {
      ChosenHas(es[..n], flags[..n], i);
    }
  }

  lemma {:induction false} TimesMeans(es: seq<Entry>, x: Entry)
    ensures 0 < Times(es, x) <==> x in es
  {
    if es != [] {
      TimesMeans(es[..|es| - 1], x);
    }
  }

  /** Where the matches read so far are: still pending, or dropped by a later read. */
  ghost predicate Accounted(matches: seq<Entry>, pending: seq<Entry>, dropped: seq<Entry>) {
    forall e :: e in matches ==> e in pending || e in dropped
  }

  lemma RoundAccounts(before: seq<Entry>, after: seq<Entry>, matches: seq<Entry>, read: seq<Entry>, gone: seq<Entry>,
                      dropped: seq<Entry>, flags: seq<bool>, readCount: nat)
    requires Round(before, after, read, dropped, flags, readCount) && Accounted(matches, before, gone)
    ensures Accounted(matches + read, after, gone + dropped)
  {
    forall e | e in matches + read ensures e in after || e in gone + dropped {
      RoundTimes(before, after, read, dropped, flags, readCount, e);
      TimesMeans(before, e);
      TimesMeans(after, e);
      TimesMeans(dropped, e);
      assert e in read ==> e in after;
    }
  }

  /** The next entry of a read in progress, and what the read becomes if it stays or goes. */
  lemma NextProcessed(before: seq<Entry>, pending: seq<Entry>, read: seq<Entry>, dropped: seq<Entry>,
                      flags: seq<bool>, readCount: nat)
    requires Round(before, pending, read, dropped, flags, readCount) && |flags| < |Window(before, readCount)|
    ensures |read| < |pending| && pending[|read|] == before[|flags|]
    ensures Round(before, pending, read + [before[|flags|]], dropped, flags + [true], readCount)
    ensures Round(before, pending[..|read|] + pending[|read| + 1..], read, dropped + [before[|flags|]],
              flags + [false], readCount)
  {
    hide Chosen;
    var j := |flags|;
    ChosenNext(before, flags, j, true, true);
    ChosenNext(before, flags, j, false, true);
    ChosenNext(before, flags, j, true, false);
    ChosenNext(before, flags, j, false, false);
    assert before[j..] == [before[j]] + before[j + 1..];
    Around(read, before[j], before[j + 1..]);
  }

  lemma Around(a: seq<Entry>, e: Entry, b: seq<Entry>)
    ensures var s := a + ([e] + b);
            |a| < |s| && s[|a|] == e && s[..|a|] + s[|a| + 1..] == a + b && s == a + [e] + b
  {
  }

  lemma NothingProcessed(before: seq<Entry>, readCount: nat)
    ensures Round(before, before, [], [], [], readCount)
  {
    NothingChosen(before);
  }

  lemma {:induction false} FirstsAreIds(es: seq<Entry>)
    ensures |Firsts(es)| == |IdsOf(es)|
    ensures |IdsOf(es)| <= |es|
  {
    if es != [] {
      FirstsAreIds(es[..|es| - 1]);
    }
  }

  lemma SubsetSmaller(a: set<EntryId>, b: set<EntryId>)
    requires a <= b
    ensures |a| <= |b|
  {
    assert |b| == |a| + |b - a| by {
      assert b == a + (b - a);
    }
  }

  lemma FewDistinct(es: seq<Entry>, window: seq<Entry>)
    requires forall e :: e in es ==> e in window
    ensures |Firsts(es)| <= |window|
  {
    FirstsAreIds(es);
    FirstsAreIds(window);
    forall id | id in IdsOf(es) ensures id in IdsOf(window) {
      IdsOfMeans(es, id);
      IdsOfMeans(window, id);
      var i :| 0 <= i < |es| && es[i].id == id;
      assert es[i] in window;
    }
    SubsetSmaller(IdsOf(es), IdsOf(window));
  }

  class Consumer {
    /** This consumer's unacknowledged entries, oldest first. */
    var pending: seq<Entry>
    /** The entries acknowledged as invalid. */
    var dropped: seq<Entry>
    var clock: nat
    const parses: (nat, Entry) -> Parse
    const replies: nat -> Reply

    constructor (pending: seq<Entry>, parses: (nat, Entry) -> Parse, replies: nat -> Reply)
      ensures this.pending == pending && dropped == [] && this.parses == parses && this.replies == replies
    {
      this.pending, dropped, clock := pending, [], 0;
      this.parses, this.replies := parses, replies;
    }

    /** No reply after `from`, up to `to`, throws, and no parse breaks. */
    ghost predicate Smooth(from: nat, to: nat) {
      forall i {:trigger replies(i)} :: from < i <= to ==> !replies(i).throws && forall e :: parses(i, e) != Breaks
    }

    lemma Stopped(from: nat, at: nat, e: Entry)
      requires from < at <= clock && (parses(at, e) == Breaks || replies(clock).throws)
      ensures !Smooth(from, clock)
    {
      assert !replies(at).throws ==> replies(clock).throws || parses(at, e) == Breaks;
    }

    lemma SmoothPart(from: nat, mid: nat, to: nat)
      requires from <= mid <= to && Smooth(from, to)
      ensures Smooth(from, mid) && Smooth(mid, to)
    {
    }

    method Call() returns (r: Reply)
      modifies `clock
      ensures clock == old(clock) + 1 && r == replies(clock)
    {
      clock := clock + 1;
      r := replies(clock);
    }

    /** XACK of the entry at a position of the pending list. */
    method Xack(at: nat) returns (ok: bool, ghost landed: bool)
      requires at < |pending|
      modifies this
      ensures clock == old(clock) + 1 && (ok <==> !replies(clock).throws) && (ok ==> landed)
      ensures landed ==>
                && pending == old(pending)[..at] + old(pending)[at + 1..]
                && dropped == old(dropped) + [old(pending)[at]]
      ensures !landed ==> pending == old(pending) && dropped == old(dropped)
    {
      var r := Call();
      ok, landed := !r.throws, !r.throws || r.landed;
      if !r.throws || r.landed {
        dropped := dropped + [pending[at]];
        pending := pending[..at] + pending[at + 1..];
      }
    }

    /** One entry: kept if valid, dead-lettered and acknowledged if invalid. */
    method ProcessEntry(at: nat) returns (ok: bool, kept: bool, ghost gone: bool, ghost asked: nat)
      requires at < |pending|
      modifies this
      ensures asked == old(clock) + 1 && asked <= clock
      ensures kept <==> parses(asked, old(pending)[at]) == Valid
      ensures kept ==> ok && !gone
      ensures gone ==> parses(asked, old(pending)[at]) == Invalid
      ensures if ok then kept || gone else parses(asked, old(pending)[at]) == Breaks || replies(clock).throws
      ensures gone ==>
                && pending == old(pending)[..at] + old(pending)[at + 1..]
                && dropped == old(dropped) + [old(pending)[at]]
      ensures !gone ==> pending == old(pending) && dropped == old(dropped)
    {
      clock := clock + 1;
      asked := clock;
      var parse := parses(clock, pending[at]);
      if parse == Valid {
        return true, true, false, asked;
      }
      if parse == Breaks {
        return false, false, false, asked;
      }
      var deadLetter := Call();
      if deadLetter.throws {
        return false, false, false, asked;
      }
      ok, gone := Xack(at);
      kept := false;
    }

    /** One read of the pending list from its start. */
    method ReadOwnPending(readCount: nat)
      returns (more: bool, matches: seq<Entry>, ghost gone: seq<Entry>, ghost flags: seq<bool>,
          ghost asked: seq<nat>, ghost whole: bool)
      modifies this
      ensures Round(old(pending), pending, matches, gone, flags, readCount)
      ensures Asked(parses, old(pending), flags, asked)
      ensures dropped == old(dropped) + gone
      ensures more ==> |flags| == readCount && 0 < readCount
      ensures whole <==> !more && |flags| == |old(pending)|
      ensures old(clock) < clock
      ensures Smooth(old(clock), clock) ==>
                && |flags| == |Window(old(pending), readCount)|
                && (more <==> 0 < readCount <= |old(pending)|)
    {
      hide Chosen, Round;
      matches, gone, flags, asked, more := [], [], [], [], false;
      whole := pending == [];
      ghost var before := pending;
      NothingProcessed(before, readCount);
      var r := Call();
      if r.throws {
        return;
      }
      var entries := Window(pending, readCount);
      for j := 0 to |entries|
        invariant old(clock) < clock
        invariant |flags| == j && Round(before, pending, matches, gone, flags, readCount)
        invariant Asked(parses, before, flags, asked)
        invariant dropped == old(dropped) + gone
        invariant whole <==> j == |before|
      {
        NextProcessed(before, pending, matches, gone, flags, readCount);
        var ok, isMatch;
        ghost var left, at;
        ok, isMatch, left, at := ProcessEntry(|matches|);
        if isMatch || left {
          flags, asked := flags + [isMatch], asked + [at];
          whole := j + 1 == |before|;
        }
        if isMatch {
          matches := matches + [entries[j]];
        } else if left {
          gone := gone + [before[j]];
        }
        if !ok {
          Stopped(old(clock), at, before[j]);
          return;
        }
      }
      // Nothing read, or fewer than asked for: the list is exhausted.
      more := entries != [] && |entries| >= readCount;
      whole := whole && !more;
    }

    /**
      The own-pending loop. It always ends; it returns fewer than cap + readCount matches; an entry
      it returns is still pending unless a later read of it found it invalid; no entry is lost or
      multiplied; a loop that saw the list out ends with the whole list; and if parsing is steady it
      never sees past the first `readCount` pending entries, however large the cap.
     */
    method ProcessPendingEntries(readCount: nat, cap: nat) returns (matches: seq<Entry>, ghost gone: seq<Entry>,
        ghost whole: bool)
      requires 0 < readCount
      modifies this
      ensures |matches| < cap + readCount && (cap == 0 ==> matches == [])
      ensures dropped == old(dropped) + gone && Accounted(matches, pending, gone)
      ensures forall x {:trigger Times(pending, x)} :: Times(pending, x) + Times(gone, x) == Times(old(pending), x)
      ensures whole ==> forall e :: e in pending ==> e in matches
      ensures Steady(parses) ==> ValidInside(parses, matches, Window(pending, readCount))
      ensures old(clock) <= clock
      ensures Smooth(old(clock), clock) ==> whole || cap <= |matches|
      ensures Smooth(old(clock), clock) && 0 < cap ==>
                forall e :: e in Window(old(pending), readCount) ==> e in matches || e in gone
    {
      matches, gone, whole := [], [], false;
      assert forall x :: Times([], x) == 0;
      var hasMorePending := true;
      ghost var first := true;
      while hasMorePending && |matches| < cap
        invariant |matches| < cap + readCount && (cap == 0 ==> matches == [])
        invariant dropped == old(dropped) + gone && Accounted(matches, pending, gone)
        invariant forall x {:trigger Times(pending, x)} :: Times(pending, x) + Times(gone, x) == Times(old(pending), x)
        invariant whole ==> forall e :: e in pending ==> e in matches
        invariant Steady(parses) ==> ValidInside(parses, matches, Window(pending, readCount))
        invariant old(clock) <= clock && (first ==> hasMorePending && matches == [] && pending == old(pending))
        invariant !hasMorePending && Smooth(old(clock), clock) ==> whole
        invariant !first && Smooth(old(clock), clock) ==>
                    forall e :: e in Window(old(pending), readCount) ==> e in matches || e in gone
        decreases hasMorePending, |pending| + cap - |matches|
      {
        hide Times, Chosen;
        ghost var before, left := pending, gone;
        var more, read;
        ghost var now, flags, asked;
        ghost var mid := clock;
        more, read, now, flags, asked, whole := ReadOwnPending(readCount);
        if Smooth(old(clock), clock) {
          SmoothPart(old(clock), mid, clock);
        }
        RoundSizes(before, pending, read, now, flags, readCount);
        RoundCovers(before, pending, read, now, flags, readCount);
        RoundAccounts(before, pending, matches, read, gone, now, flags, readCount);
        forall x {:trigger Times(pending, x)} | true
          ensures Times(pending, x) + Times(left + now, x) == Times(before, x) + Times(left, x)
        {
          RoundTimes(before, pending, read, now, flags, readCount, x);
          TimesConcat(left, now, x);
        }
        if Steady(parses) {
          RoundWindow(parses, before, pending, matches, read, now, flags, asked, readCount);
        }
        gone := gone + now;
        matches := matches + read;
        hasMorePending, first := more, false;
      }
    }
  }

  /**
    What recovery adds to the queue: at most `readCount` entries of the loop's, each once, whatever
    its cap and however often it re-read them, and what was claimed besides.
   */
  lemma ReclaimAddsFew(queue: seq<Entry>, matches: seq<Entry>, claimed: seq<Entry>, pending: seq<Entry>,
      readCount: nat, capacity: nat)
    requires DistinctEntries(queue) && forall e :: e in matches ==> e in Window(pending, readCount)
    ensures |Queued(queue + (matches + claimed), capacity)| <= |queue| + readCount + |claimed|
    ensures DistinctEntries(Queued(queue + (matches + claimed), capacity))
  {
    hide Firsts, IdsOf;
    FirstsOfDistinct(queue);
    FirstsPrefix(queue, matches + claimed);
    FirstsPrefix(matches, claimed);
    FirstsAreIds(claimed);
    FewDistinct(matches, Window(pending, readCount));
    FirstsDistinct(queue + (matches + claimed));
  }
}
