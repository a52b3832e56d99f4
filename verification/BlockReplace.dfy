/**
  Replacing the generated block of blog cards in the documentation's index page: the text from the
  first start marker up to the next end marker gives way to a fresh block.
 */
module BlockReplace {
  import opened Options

  datatype Markers = Markers(start: string, end: string)

  const MARKERS := Markers("{/* BEGIN_LMSYS_SGLANG_BLOG_CARDS */}", "{/* END_LMSYS_SGLANG_BLOG_CARDS */}")

  /** An end marker within one line; this is all that the source's own markers need to be. */
  ghost predicate OneLine(m: Markers) {
    m.end != [] && '\n' !in m.end
  }

  // ---------------------------------------------------------------- searching

  predicate At(text: string, mark: string, i: nat) {
    i + |mark| <= |text| && text[i..i + |mark|] == mark
  }

  predicate Contains(text: string, mark: string) {
    exists i: nat | i <= |text| :: At(text, mark, i)
  }

  /** The first place, from i on, where mark stands in text. */
  function Find(text: string, mark: string, i: nat): (at: Option<nat>)
    ensures at.Some? ==> i <= at.value && At(text, mark, at.value) && forall k | i <= k < at.value :: !At(text, mark, k)
    ensures at.None? ==> forall k | i <= k :: !At(text, mark, k)
    decreases |text| - i
  {
    if i + |mark| > |text| then None
    else if At(text, mark, i) then Some(i)
    else Find(text, mark, i + 1)
  }

  lemma FindIs(text: string, mark: string, i: nat, at: nat)
    requires i <= at && At(text, mark, at) && forall k | i <= k < at :: !At(text, mark, k)
    ensures Find(text, mark, i) == Some(at)
  {
    var found := Find(text, mark, i);
    assert found.Some?;
    assert !(found.value < at) && !(at < found.value);
  }

  // ---------------------------------------------------------------- the block

  /** Where the block starts and where its end marker starts. */
  datatype Block = Block(begin: nat, end: nat)

  /** A block is a start marker with an end marker after it. */
  ghost predicate IsBlock(m: Markers, text: string, b: Block) {
    At(text, m.start, b.begin) && b.begin + |m.start| <= b.end && At(text, m.end, b.end)
  }

  /** The leftmost start marker that has an end marker after it, and the nearest such end marker. */
  function FindBlock(m: Markers, text: string): (b: Option<Block>)
    ensures b.Some? ==> IsBlock(m, text, b.value)
  {
    var begin := Find(text, m.start, 0);
    if begin.None? then None
    else
      var end := Find(text, m.end, begin.value + |m.start|);
      if end.None? then None else Some(Block(begin.value, end.value))
  }

  /**
    Of all blocks in the text, the one found begins first, and of those that begin there it is shortest;
    none is missed.
   */
  lemma FoundBlockIsFirst(m: Markers, text: string, b: Block)
    requires IsBlock(m, text, b)
    ensures FindBlock(m, text).Some?
    ensures FindBlock(m, text).value.begin <= b.begin
    ensures FindBlock(m, text).value.end <= b.end
  {
    var begin := Find(text, m.start, 0);
    assert begin.Some? && begin.value <= b.begin;
    var end := Find(text, m.end, begin.value + |m.start|);
    assert end.Some? && end.value <= b.end;
  }

  function Fresh(m: Markers, cards: string): (block: string) {
    m.start + "\n" + cards + "\n" + m.end
  }

  /** The updated text, or None where the source raises an error because there is no block. */
  function Replace(m: Markers, text: string, cards: string): (updated: Option<string>) {
    var b := FindBlock(m, text);
    if b.None? then None
    else Some(text[..b.value.begin] + Fresh(m, cards) + text[b.value.end + |m.end|..])
  }

  // ---------------------------------------------------------------- replacing twice

  /** The text up to and including the start marker, and the text from the end marker on. */
  ghost function Head(m: Markers, text: string, b: Block): (head: string)
    requires IsBlock(m, text, b)
  {
    text[..b.begin + |m.start|]
  }

  ghost function Tail(m: Markers, text: string, b: Block): (tail: string)
    requires IsBlock(m, text, b)
  {
    text[b.end..]
  }

  ghost function Between(cards: string): (mid: string) {
    "\n" + cards + "\n"
  }

  lemma AtShifted(head: string, s: string, mark: string, i: nat)
    ensures At(head + s, mark, |head| + i) == At(s, mark, i)
  {
    if i + |mark| <= |s| {
      assert (head + s)[|head| + i..|head| + i + |mark|] == s[i..i + |mark|];
    }
  }

  lemma AtExtended(s: string, tail: string, mark: string, i: nat)
    requires i + |mark| <= |s|
    ensures At(s + tail, mark, i) == At(s, mark, i)
  {
    assert (s + tail)[i..i + |mark|] == s[i..i + |mark|];
  }

  /** An end marker that starts before the end of the second newline lies entirely in the cards. */
  lemma EndMarkerInCards(m: Markers, cards: string, tail: string, k: nat)
    requires OneLine(m) && k < |cards| + 2 && At(Between(cards) + tail, m.end, k)
    ensures Contains(cards, m.end)
  {
    var n, t := |m.end|, Between(cards) + tail;
    assert t[0] == '\n' && t[|cards| + 1] == '\n';
    forall i | k <= i < k + n ensures t[i] != '\n' {
      assert t[i] == t[k..k + n][i - k];
    }
    assert t == "\n" + (cards + "\n" + tail);
    AtShifted("\n", cards + "\n" + tail, m.end, k - 1);
    assert cards + "\n" + tail == cards + ("\n" + tail);
    AtExtended(cards, "\n" + tail, m.end, k - 1);
    assert At(cards, m.end, k - 1);
  }

  lemma Written(m: Markers, text: string, cards: string, b: Block)
    requires FindBlock(m, text) == Some(b)
    ensures Replace(m, text, cards) == Some(Head(m, text, b) + Between(cards) + Tail(m, text, b))
  {
    hide FindBlock;
    var pre, post := text[..b.begin], text[b.end + |m.end|..];
    assert Head(m, text, b) == pre + m.start;
    assert Tail(m, text, b) == m.end + post;
    assert pre + Fresh(m, cards) + post == (pre + m.start) + Between(cards) + (m.end + post);
  }

  /** The start marker stays the first one. */
  lemma BeginStays(m: Markers, text: string, b: Block, rest: string)
    requires FindBlock(m, text) == Some(b)
    ensures Find(Head(m, text, b) + rest, m.start, 0) == Some(b.begin)
  {
    hide At;
    var head := Head(m, text, b);
    assert text == head + text[b.begin + |m.start|..];
    forall k | 0 <= k <= b.begin ensures At(head + rest, m.start, k) == At(text, m.start, k) {
      AtExtended(head, rest, m.start, k);
      AtExtended(head, text[b.begin + |m.start|..], m.start, k);
    }
    FindIs(head + rest, m.start, 0, b.begin);
  }

  /** The end marker found again, counted from the first newline of the block. */
  lemma EndFoundAgain(m: Markers, cards: string, tail: string)
    requires OneLine(m) && At(tail, m.end, 0)
    ensures Find(Between(cards) + tail, m.end, 0).Some?
    ensures Find(Between(cards) + tail, m.end, 0).value <= |cards| + 2
    ensures Find(Between(cards) + tail, m.end, 0).value == |cards| + 2 <==> !Contains(cards, m.end)
  {
    hide At, Contains;
    var t := Between(cards) + tail;
    AtShifted(Between(cards), tail, m.end, 0);
    assert At(t, m.end, |cards| + 2);
    if Contains(cards, m.end) {
      EndFoundEarly(m, cards, tail);
    } else {
      forall k | 0 <= k < |cards| + 2 ensures !At(t, m.end, k) {
        if At(t, m.end, k) { EndMarkerInCards(m, cards, tail, k); }
      }
      FindIs(t, m.end, 0, |cards| + 2);
    }
  }

  lemma EndFoundEarly(m: Markers, cards: string, tail: string)
    requires OneLine(m) && Contains(cards, m.end)
    ensures exists k: nat | k < |cards| + 2 :: At(Between(cards) + tail, m.end, k)
  {
    var k: nat :| k <= |cards| && At(cards, m.end, k);
    AtExtended(cards, "\n" + tail, m.end, k);
    AtShifted("\n", cards + ("\n" + tail), m.end, k);
    assert Between(cards) + tail == "\n" + (cards + ("\n" + tail));
    assert At(Between(cards) + tail, m.end, 1 + k);
  }

  lemma FindShifted(head: string, s: string, mark: string)
    ensures Find(head + s, mark, |head|) == match Find(s, mark, 0) case None => None case Some(i) => Some(|head| + i)
  {
    hide At;
    forall k: nat ensures At(head + s, mark, |head| + k) == At(s, mark, k) { AtShifted(head, s, mark, k); }
    if Find(s, mark, 0).Some? {
      assert At(head + s, mark, |head| + Find(s, mark, 0).value);
      forall k | |head| <= k < |head| + Find(s, mark, 0).value ensures !At(head + s, mark, k) {
        assert !At(s, mark, k - |head|);
        assert At(head + s, mark, |head| + (k - |head|)) == At(s, mark, k - |head|);
      }
      FindIs(head + s, mark, |head|, |head| + Find(s, mark, 0).value);
    } else {
      forall k | |head| <= k ensures !At(head + s, mark, k) {
        assert At(head + s, mark, |head| + (k - |head|)) == At(s, mark, k - |head|);
      }
    }
  }

  /** The block found in a text just written: it begins where it did, and ends where the first end marker stands. */
  lemma BlockFoundAgain(m: Markers, text: string, cards: string, b: Block)
    requires OneLine(m) && FindBlock(m, text) == Some(b)
    ensures var s := Between(cards) + Tail(m, text, b);
            && Find(s, m.end, 0).Some?
            && FindBlock(m, Head(m, text, b) + s) == Some(Block(b.begin, b.begin + |m.start| + Find(s, m.end, 0).value))
  {
    hide Find, Contains;
    var head, tail := Head(m, text, b), Tail(m, text, b);
    assert tail[..|m.end|] == text[b.end..b.end + |m.end|];
    BeginStays(m, text, b, Between(cards) + tail);
    EndFoundAgain(m, cards, tail);
    FindShifted(head, Between(cards) + tail, m.end);
  }

  /** The length of an updated text. */
  lemma UpdatedLength(m: Markers, text: string, cards: string, b: Block)
    requires FindBlock(m, text) == Some(b)
    ensures Replace(m, text, cards).Some?
    ensures |Replace(m, text, cards).value| == |text| - b.end + b.begin + |m.start| + |cards| + 2
  {
  }

  /**
    Replacing with one set of cards and then with another is replacing with the other alone, and so a
    second run with the same cards changes nothing, exactly when the first cards hold no end marker.
   */
  lemma LastReplacementWinsIff(m: Markers, text: string, first: string, second: string)
    requires OneLine(m) && FindBlock(m, text).Some?
    ensures Replace(m, Replace(m, text, first).value, second) == Replace(m, text, second) <==> !Contains(first, m.end)
  {
    hide Contains, Find, FindBlock, Replace;
    var b := FindBlock(m, text).value;
    var head, tail := Head(m, text, b), Tail(m, text, b);
    var s := Between(first) + tail;
    var t := head + s;
    Written(m, text, first, b);
    assert head + Between(first) + tail == t;
    BlockFoundAgain(m, text, first, b);
    var b' := Block(b.begin, b.begin + |m.start| + Find(s, m.end, 0).value);
    assert tail[..|m.end|] == text[b.end..b.end + |m.end|];
    EndFoundAgain(m, first, tail);
    if Contains(first, m.end) {
      UpdatedLength(m, text, second, b);
      UpdatedLength(m, t, second, b');
    } else {
      Written(m, text, second, b);
      Written(m, t, second, b');
      assert Head(m, t, b') == head;
      assert Tail(m, t, b') == tail;
    }
  }

  /** The source's markers are of that kind. */
  lemma SourceMarkers()
    ensures OneLine(MARKERS)
  {
  }

  /**
    For the source's markers: running the update again with the same cards changes nothing, exactly when
    they hold no end marker.
   */
  lemma RerunChangesNothingIff(text: string, cards: string)
    requires FindBlock(MARKERS, text).Some?
    ensures Replace(MARKERS, Replace(MARKERS, text, cards).value, cards) == Replace(MARKERS, text, cards)
       <==> !Contains(cards, MARKERS.end)
  {
    hide OneLine, Contains, FindBlock, Find, At;
    SourceMarkers();
    LastReplacementWinsIff(MARKERS, text, cards, cards);
  }

  /**
    There is an error exactly when the text has no block. Otherwise the text up to the start marker
    and from the end marker on is kept, and the cards stand between them on lines of their own.
   */
  lemma OutsideIsKept(m: Markers, text: string, cards: string)
    ensures Replace(m, text, cards).None? <==> !exists b :: IsBlock(m, text, b)
    ensures FindBlock(m, text).Some? ==>
              var b := FindBlock(m, text).value;
              Replace(m, text, cards) == Some(text[..b.begin + |m.start|] + "\n" + cards + "\n" + text[b.end..])
  {
    hide Find;
    if exists b :: IsBlock(m, text, b) {
      var b :| IsBlock(m, text, b);
      FoundBlockIsFirst(m, text, b);
    }
    if FindBlock(m, text).Some? {
      var b := FindBlock(m, text).value;
      Written(m, text, cards, b);
      assert Head(m, text, b) + "\n" + cards + "\n" == Head(m, text, b) + Between(cards);
    }
  }
}
