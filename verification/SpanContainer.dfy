/**
  The spans stored on one line of a trace view: a list kept in lexicographic order, searched by
  bisection, with a conflict test that looks at two neighbours only.
 */
module SpanContainer {

  datatype Interval = Interval(start: int, end: int)

  /** Lexicographic order on (start, end). */
  predicate Less(a: Interval, b: Interval) {
    a.start < b.start || (a.start == b.start && a.end < b.end)
  }

  ghost predicate Sorted(s: seq<Interval>) {
    forall i, j | 0 <= i < j < |s| :: !Less(s[j], s[i])
  }

  /** Each stored interval ends before every later one starts. */
  ghost predicate Chained(s: seq<Interval>) {
    forall i, j | 0 <= i < j < |s| :: s[i].end <= s[j].start
  }

  predicate Overlaps(a: Interval, b: Interval) {
    a.start < b.end && b.start < a.end
  }

  // ---------------------------------------------------------------- reference definitions

  /** Where a list in order has its first interval that starts at or after start. */
  function StartIndex(s: seq<Interval>, start: int): (i: nat)
    ensures i <= |s|
  {
    if s == [] || s[|s| - 1].start < start then |s| else StartIndex(s[..|s| - 1], start)
  }

  /** Where a list in order has its first interval that is not less than iv. */
  function LexIndex(s: seq<Interval>, iv: Interval): (i: nat)
    ensures i <= |s|
  {
    if s == [] || Less(s[|s| - 1], iv) then |s| else LexIndex(s[..|s| - 1], iv)
  }

  /** The two-neighbour test. */
  predicate Conflicts(s: seq<Interval>, start: int, end: int) {
    var i := StartIndex(s, start);
    || (i > 0 && s[i - 1].end > start)
    || (i < |s| && s[i].start < end)
  }

  function Inserted(s: seq<Interval>, iv: Interval): (s': seq<Interval>) {
    var i := LexIndex(s, iv);
    s[..i] + [iv] + s[i..]
  }

  lemma {:induction false} StartIndexSplits(s: seq<Interval>, start: int)
    requires Sorted(s)
    ensures forall k | 0 <= k < StartIndex(s, start) :: s[k].start < start
    ensures forall k | StartIndex(s, start) <= k < |s| :: s[k].start >= start
  {
    if s != [] && !(s[|s| - 1].start < start) {
      StartIndexSplits(s[..|s| - 1], start);
    } else if s != [] {
      assert forall k | 0 <= k < |s| - 1 :: !Less(s[|s| - 1], s[k]);
    }
  }

  lemma {:induction false} LexIndexSplits(s: seq<Interval>, iv: Interval)
    requires Sorted(s)
    ensures forall k | 0 <= k < LexIndex(s, iv) :: Less(s[k], iv)
    ensures forall k | LexIndex(s, iv) <= k < |s| :: !Less(s[k], iv)
  {
    if s != [] && !Less(s[|s| - 1], iv) {
      LexIndexSplits(s[..|s| - 1], iv);
    } else if s != [] {
      assert forall k | 0 <= k < |s| - 1 :: !Less(s[|s| - 1], s[k]);
    }
  }

  lemma SplitIsUnique(s: seq<Interval>, start: int, i: nat)
    requires Sorted(s) && i <= |s|
    requires forall k | 0 <= k < i :: s[k].start < start
    requires forall k | i <= k < |s| :: s[k].start >= start
    ensures i == StartIndex(s, start)
  {
    StartIndexSplits(s, start);
  }

  lemma LexSplitIsUnique(s: seq<Interval>, iv: Interval, i: nat)
    requires Sorted(s) && i <= |s|
    requires forall k | 0 <= k < i :: Less(s[k], iv)
    requires forall k | i <= k < |s| :: !Less(s[k], iv)
    ensures i == LexIndex(s, iv)
  {
    LexIndexSplits(s, iv);
  }

  // ---------------------------------------------------------------- the list stays in order

  lemma InsertedAt(s: seq<Interval>, iv: Interval, k: nat)
    requires k <= |s|
    ensures |Inserted(s, iv)| == |s| + 1
    ensures Inserted(s, iv)[k] == if k < LexIndex(s, iv) then s[k]
                                  else if k == LexIndex(s, iv) then iv else s[k - 1]
  {
  }

  lemma InsertKeepsSorted(s: seq<Interval>, iv: Interval)
    requires Sorted(s)
    ensures Sorted(Inserted(s, iv))
  {
    LexIndexSplits(s, iv);
    var s' := Inserted(s, iv);
    forall i, j | 0 <= i < j < |s'| ensures !Less(s'[j], s'[i]) {
      InsertedAt(s, iv, i);
      InsertedAt(s, iv, j);
    }
  }

  /** Nothing is lost and nothing else appears. */
  lemma InsertedContents(s: seq<Interval>, iv: Interval)
    ensures multiset(Inserted(s, iv)) == multiset(s) + multiset{iv}
  {
    var i := LexIndex(s, iv);
    assert s == s[..i] + s[i..];
  }

  lemma InsertedMember(s: seq<Interval>, iv: Interval, x: Interval)
    ensures x in Inserted(s, iv) <==> x in s || x == iv
  {
    InsertedContents(s, iv);
    assert x in Inserted(s, iv) <==> x in multiset(Inserted(s, iv));
    assert x in s <==> x in multiset(s);
  }

  // ---------------------------------------------------------------- what the two-neighbour test decides

  /** On a chained list, a span the test lets through overlaps nothing that is stored. */
  lemma TestIsSound(s: seq<Interval>, iv: Interval, k: nat)
    requires Sorted(s) && Chained(s) && !Conflicts(s, iv.start, iv.end) && k < |s|
    ensures !Overlaps(s[k], iv)
  {
    StartIndexSplits(s, iv.start);
    var i := StartIndex(s, iv.start);
    if k < i - 1 {
      assert s[k].end <= s[i - 1].start;
    } else if i < k {
      assert !Less(s[k], s[i]);
    }
  }

  /**
    The fast test agrees with a scan of the whole list, once the stored spans have positive
    length and do not overlap one another and the queried span does not run backwards.
   */
  lemma TestIsExact(s: seq<Interval>, iv: Interval)
    requires Sorted(s) && Chained(s)
    requires forall k | 0 <= k < |s| :: s[k].start < s[k].end
    requires iv.start <= iv.end
    ensures Conflicts(s, iv.start, iv.end) <==> exists k :: 0 <= k < |s| && Overlaps(s[k], iv)
  {
    var i := StartIndex(s, iv.start);
    StartIndexSplits(s, iv.start);
    if Conflicts(s, iv.start, iv.end) {
      if i > 0 && s[i - 1].end > iv.start {
        assert Overlaps(s[i - 1], iv);
      } else {
        assert Overlaps(s[i], iv);
      }
    } else {
      forall k | 0 <= k < |s| ensures !Overlaps(s[k], iv) { TestIsSound(s, iv, k); }
    }
  }

  /** Storing a span the test lets through keeps the list chained, whatever its length. */
  lemma FreeInsertKeepsChained(s: seq<Interval>, iv: Interval)
    requires Sorted(s) && Chained(s) && !Conflicts(s, iv.start, iv.end)
    ensures Chained(Inserted(s, iv))
  {
    LexIndexSplits(s, iv);
    forall k | 0 <= k < |s|
      ensures k < LexIndex(s, iv) ==> s[k].end <= iv.start
      ensures LexIndex(s, iv) <= k ==> iv.end <= s[k].start
    {
      FreeNeighbour(s, iv, k);
    }
    var s' := Inserted(s, iv);
    forall i, j | 0 <= i < j < |s'| ensures s'[i].end <= s'[j].start {
      InsertedAt(s, iv, i);
      InsertedAt(s, iv, j);
    }
  }

  lemma FreeNeighbour(s: seq<Interval>, iv: Interval, k: nat)
    requires Sorted(s) && Chained(s) && !Conflicts(s, iv.start, iv.end) && k < |s|
    ensures Less(s[k], iv) ==> s[k].end <= iv.start
    ensures !Less(s[k], iv) ==> iv.end <= s[k].start
  {
    StartIndexSplits(s, iv.start);
    var i := StartIndex(s, iv.start);
    if k < i - 1 {
      assert s[k].end <= s[i - 1].start;
    } else if i < k {
      assert !Less(s[k], s[i]);
    }
  }

  /** For a span of length zero the test decides exactly whether the list stays chained. */
  lemma ZeroLengthInsertIsExact(s: seq<Interval>, z: int)
    requires Sorted(s) && Chained(s)
    ensures Chained(Inserted(s, Interval(z, z))) <==> !Conflicts(s, z, z)
  {
    var iv := Interval(z, z);
    if Conflicts(s, z, z) {
      StartIndexSplits(s, z);
      LexIndexSplits(s, iv);
      var i, j := StartIndex(s, z), LexIndex(s, iv);
      assert i > 0 && s[i - 1].end > z && Less(s[i - 1], iv);
      InsertedAt(s, iv, i - 1);
      InsertedAt(s, iv, j);
      assert Inserted(s, iv)[i - 1].end > Inserted(s, iv)[j].start;
    } else {
      FreeInsertKeepsChained(s, iv);
    }
  }

  /** A list that is not chained never becomes chained again. */
  lemma BrokenStaysBroken(s: seq<Interval>, iv: Interval)
    requires Chained(Inserted(s, iv))
    ensures Chained(s)
  {
    var p, s' := LexIndex(s, iv), Inserted(s, iv);
    forall i, j | 0 <= i < j < |s| ensures s[i].end <= s[j].start {
      var i', j' := if i < p then i else i + 1, if j < p then j else j + 1;
      InsertedAt(s, iv, i');
      InsertedAt(s, iv, j');
    }
  }

  // ---------------------------------------------------------------- the container

  class SpanLayoutContainer {
    var intervals: seq<Interval>

    constructor ()
      ensures intervals == []
    {
      intervals := [];
    }

    /** Bisection for the first interval that starts at or after start. */
    method BisectStart(start: int) returns (lo: nat)
      requires Sorted(intervals)
      ensures lo == StartIndex(intervals, start)
    {
      lo := 0;
      var hi := |intervals|;
      while lo < hi
        invariant lo <= hi <= |intervals|
        invariant forall k | 0 <= k < lo :: intervals[k].start < start
        invariant forall k | hi <= k < |intervals| :: intervals[k].start >= start
      {
        var mid := (lo + hi) / 2;
        if intervals[mid].start < start {
          forall k | 0 <= k < mid ensures intervals[k].start < start { assert !Less(intervals[mid], intervals[k]); }
          lo := mid + 1;
        } else {
          forall k | mid < k < |intervals|
            ensures intervals[k].start >= start
          {
            assert !Less(intervals[k], intervals[mid]);
          }
          hi := mid;
        }
      }
      SplitIsUnique(intervals, start, lo);
    }

    /** Bisection for the first interval not less than iv. */
    method BisectLeft(iv: Interval) returns (lo: nat)
      requires Sorted(intervals)
      ensures lo == LexIndex(intervals, iv)
    {
      lo := 0;
      var hi := |intervals|;
      while lo < hi
        invariant lo <= hi <= |intervals|
        invariant forall k | 0 <= k < lo :: Less(intervals[k], iv)
        invariant forall k | hi <= k < |intervals| :: !Less(intervals[k], iv)
      {
        var mid := (lo + hi) / 2;
        if Less(intervals[mid], iv) {
          forall k | 0 <= k < mid ensures Less(intervals[k], iv) { assert !Less(intervals[mid], intervals[k]); }
          lo := mid + 1;
        } else {
          forall k | mid < k < |intervals|
            ensures !Less(intervals[k], iv)
          {
            assert !Less(intervals[k], intervals[mid]);
          }
          hi := mid;
        }
      }
      LexSplitIsUnique(intervals, iv, lo);
    }

    method CheckOverlap(start: int, end: int) returns (conflict: bool)
      requires Sorted(intervals)
      ensures conflict == Conflicts(intervals, start, end)
    {
      var idx := BisectStart(start);
      if idx > 0 {
        if intervals[idx - 1].end > start { return true; }
      }
      if idx < |intervals| {
        if intervals[idx].start < end { return true; }
      }
      return false;
    }

    method InsertSpan(start: int, end: int)
      requires Sorted(intervals)
      modifies this
      ensures intervals == Inserted(old(intervals), Interval(start, end))
      ensures Sorted(intervals)
    {
      var idx := BisectLeft(Interval(start, end));
      InsertKeepsSorted(intervals, Interval(start, end));
      intervals := intervals[..idx] + [Interval(start, end)] + intervals[idx..];
    }
  }
}
