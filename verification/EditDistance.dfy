/**
  Character-level normalised edit distance: a one-row table updated in place, proved to hold the
  cost of a cheapest edit script, and that cost proved to be a metric.
 */
module EditDistance {
  import opened Options

  // ---------------------------------------------------------------- edit scripts

  datatype Edit = Keep | Substitute(c: char) | Delete | Insert(c: char)

  /** Edits, the one at the end of the string last. */
  datatype Script = Done | Step(rest: Script, edit: Edit)

  function Init(s: string): (t: string)
    requires s != []
  {
    s[..|s| - 1]
  }

  function Last(s: string): (c: char)
    requires s != []
  {
    s[|s| - 1]
  }

  function Append(r: Option<string>, c: char): (t: Option<string>) {
    if r.Some? then Some(r.value + [c]) else None
  }

  /** What a script makes of a string; None if it does not fit the string. */
  function Edited(s: Script, a: string): (b: Option<string>)
    decreases s
  {
    if s.Done? then (if a == [] then Some([]) else None)
    else if s.edit.Insert? then Append(Edited(s.rest, a), s.edit.c)
    else if a == [] then None
    else if s.edit.Delete? then Edited(s.rest, Init(a))
    else Append(Edited(s.rest, Init(a)), if s.edit.Keep? then Last(a) else s.edit.c)
  }

  function Cost(s: Script): (n: nat) {
    if s.Done? then 0 else Cost(s.rest) + (if s.edit.Keep? then 0 else 1)
  }

  /** n is the cost of a cheapest script from a to b. */
  ghost predicate CheapestCost(a: string, b: string, n: nat) {
    && (exists s :: Edited(s, a) == Some(b) && Cost(s) == n)
    && forall s | Edited(s, a) == Some(b) :: n <= Cost(s)
  }

  // ---------------------------------------------------------------- the two-dimensional table

  function Min(x: nat, y: nat): (z: nat) {
    if x <= y then x else y
  }

  function Max(x: nat, y: nat): (z: nat) {
    if x <= y then y else x
  }

  /** The table's entry for the first i characters of a and the first j of b. */
  function Table(a: string, b: string, i: nat, j: nat): (d: nat)
    requires i <= |a| && j <= |b|
    decreases i + j
  {
    if i == 0 then j
    else if j == 0 then i
    else if a[i - 1] == b[j - 1] then Table(a, b, i - 1, j - 1)
    else 1 + Min(Table(a, b, i - 1, j - 1), Min(Table(a, b, i - 1, j), Table(a, b, i, j - 1)))
  }

  function Distance(a: string, b: string): (d: nat) {
    Table(a, b, |a|, |b|)
  }

  /** Neighbouring entries differ by at most one; this is what makes the diagonal shortcut lossless. */
  lemma {:induction false} NeighboursAreClose(a: string, b: string, i: nat, j: nat)
    requires i <= |a| && j <= |b|
    ensures i > 0 ==> Table(a, b, i, j) <= Table(a, b, i - 1, j) + 1 && Table(a, b, i - 1, j) <= Table(a, b, i, j) + 1
    ensures j > 0 ==> Table(a, b, i, j) <= Table(a, b, i, j - 1) + 1 && Table(a, b, i, j - 1) <= Table(a, b, i, j) + 1
    decreases i + j
  {
    hide Table;
    FirstEntries(a, b);
    if i > 0 && j > 0 {
      NeighboursAreClose(a, b, i - 1, j);
      NeighboursAreClose(a, b, i, j - 1);
      Entry(a, b, i, j);
    }
  }

  /** A cheapest script, read off the table. */
  function Witness(a: string, b: string, i: nat, j: nat): (s: Script)
    requires i <= |a| && j <= |b|
    decreases i + j
  {
    if i == 0 && j == 0 then Done
    else if i == 0 then Step(Witness(a, b, i, j - 1), Insert(b[j - 1]))
    else if j == 0 then Step(Witness(a, b, i - 1, j), Delete)
    else if a[i - 1] == b[j - 1] then Step(Witness(a, b, i - 1, j - 1), Keep)
    else
      var d, u, l := Table(a, b, i - 1, j - 1), Table(a, b, i - 1, j), Table(a, b, i, j - 1);
      if d <= u && d <= l then Step(Witness(a, b, i - 1, j - 1), Substitute(b[j - 1]))
      else if u <= l then Step(Witness(a, b, i - 1, j), Delete)
      else Step(Witness(a, b, i, j - 1), Insert(b[j - 1]))
  }

  lemma Prefixes(a: string, i: nat)
    requires 0 < i <= |a|
    ensures Init(a[..i]) == a[..i - 1] && Last(a[..i]) == a[i - 1] && a[..i] == a[..i - 1] + [a[i - 1]]
  {
  }

  /** The entry a witness's last edit came from. */
  lemma WitnessStep(a: string, b: string, i: nat, j: nat) returns (i': nat, j': nat)
    requires i <= |a| && j <= |b| && i + j > 0
    ensures i' <= i && j' <= j && i' + j' < i + j && Witness(a, b, i, j).Step?
    ensures var s := Witness(a, b, i, j);
            && s.rest == Witness(a, b, i', j')
            && Table(a, b, i, j) == Table(a, b, i', j') + (if s.edit.Keep? then 0 else 1)
            && (s.edit.Insert? ==> i' == i && j' == j - 1 && s.edit.c == b[j - 1])
            && (s.edit.Delete? ==> i' == i - 1 && j' == j)
            && (s.edit.Substitute? ==> i' == i - 1 && j' == j - 1 && s.edit.c == b[j - 1])
            && (s.edit.Keep? ==> i' == i - 1 && j' == j - 1 && a[i - 1] == b[j - 1])
  {
    FirstEntries(a, b);
    if i > 0 && j > 0 { Entry(a, b, i, j); }
    hide Table;
    var edit := Witness(a, b, i, j).edit;
    i' := if edit.Insert? then i else i - 1;
    j' := if edit.Delete? then j else j - 1;
  }

  lemma {:induction false} WitnessCost(a: string, b: string, i: nat, j: nat)
    requires i <= |a| && j <= |b|
    ensures Cost(Witness(a, b, i, j)) == Table(a, b, i, j)
    decreases i + j
  {
    if i + j > 0 {
      var i', j' := WitnessStep(a, b, i, j);
      hide Table, Witness;
      WitnessCost(a, b, i', j');
    }
  }

  lemma {:induction false} WitnessEdits(a: string, b: string, i: nat, j: nat)
    requires i <= |a| && j <= |b|
    ensures Edited(Witness(a, b, i, j), a[..i]) == Some(b[..j])
    decreases i + j
  {
    if i > 0 { Prefixes(a, i); }
    if j > 0 { Prefixes(b, j); }
    if i + j > 0 {
      var i', j' := WitnessStep(a, b, i, j);
      hide Table, Witness;
      WitnessEdits(a, b, i', j');
    }
  }

  /** No script from one prefix to the other is cheaper than the entry. */
  lemma {:induction false} TableIsLowerBound(a: string, b: string, i: nat, j: nat, s: Script)
    requires i <= |a| && j <= |b| && Edited(s, a[..i]) == Some(b[..j])
    ensures Table(a, b, i, j) <= Cost(s)
    decreases s
  {
    NeighboursAreClose(a, b, i, j);
    if i > 0 { Prefixes(a, i); }
    if s.Step? {
      if s.edit.Insert? {
        Appended(Edited(s.rest, a[..i]), s.edit.c, b[..j]);
        Prefixes(b, j);
        TableIsLowerBound(a, b, i, j - 1, s.rest);
      } else if s.edit.Delete? {
        TableIsLowerBound(a, b, i - 1, j, s.rest);
      } else {
        Appended(Edited(s.rest, a[..i - 1]), if s.edit.Keep? then a[i - 1] else s.edit.c, b[..j]);
        Prefixes(b, j);
        TableIsLowerBound(a, b, i - 1, j - 1, s.rest);
        DiagonalStep(a, b, i, j);
      }
    }
  }

  lemma DiagonalStep(a: string, b: string, i: nat, j: nat)
    requires 0 < i <= |a| && 0 < j <= |b|
    ensures Table(a, b, i, j) <= Table(a, b, i - 1, j - 1) + 1
  {
  }

  /** The last entry is the cost of a cheapest script: taking the diagonal on a match loses nothing. */
  lemma DistanceIsCheapest(a: string, b: string)
    ensures CheapestCost(a, b, Distance(a, b))
  {
    assert a[..|a|] == a && b[..|b|] == b;
    WitnessEdits(a, b, |a|, |b|);
    WitnessCost(a, b, |a|, |b|);
    forall s | Edited(s, a) == Some(b) ensures Distance(a, b) <= Cost(s) {
      TableIsLowerBound(a, b, |a|, |b|, s);
    }
  }

  // ---------------------------------------------------------------- the distance is a metric

  /** First one script, then another, as one script that is no dearer. */
  function Compose(s: Script, t: Script): (r: Script)
    decreases s, t
  {
    if t.Step? && t.edit.Insert? then Step(Compose(s, t.rest), t.edit)
    else if s.Step? && s.edit.Delete? then Step(Compose(s.rest, t), s.edit)
    else if s.Done? || t.Done? then Done
    else
      var r := Compose(s.rest, t.rest);
      match (s.edit, t.edit)
      case (Insert(_), Delete) => r
      case (Insert(_), Substitute(c)) => Step(r, Insert(c))
      case (Insert(c), _) => Step(r, Insert(c))
      case (_, Keep) => Step(r, s.edit)
      case (_, edit) => Step(r, edit)
  }

  lemma {:induction false} ComposeIsNoDearer(s: Script, t: Script)
    ensures Cost(Compose(s, t)) <= Cost(s) + Cost(t)
    decreases s, t
  {
    if t.Step? && t.edit.Insert? {
      ComposeIsNoDearer(s, t.rest);
    } else if s.Step? && s.edit.Delete? {
      ComposeIsNoDearer(s.rest, t);
    } else if s.Step? && t.Step? {
      ComposeIsNoDearer(s.rest, t.rest);
    }
  }

  lemma Appended(r: Option<string>, c: char, b: string)
    requires Append(r, c) == Some(b)
    ensures b != [] && r == Some(Init(b)) && Last(b) == c
  {
    assert Init(b) == r.value;
  }

  lemma {:induction false} ComposeWorks(s: Script, t: Script, a: string, b: string, c: string)
    requires Edited(s, a) == Some(b) && Edited(t, b) == Some(c)
    ensures Edited(Compose(s, t), a) == Some(c)
    decreases s, t
  {
    if t.Step? && t.edit.Insert? {
      Appended(Edited(t.rest, b), t.edit.c, c);
      ComposeWorks(s, t.rest, a, b, Init(c));
    } else if s.Step? && s.edit.Delete? {
      ComposeWorks(s.rest, t, Init(a), b, c);
    } else if s.Step? && t.Step? {
      var a' := if s.edit.Insert? then a else Init(a);
      var x := if s.edit.Keep? then Last(a) else s.edit.c;
      Appended(Edited(s.rest, a'), x, b);
      if t.edit.Delete? {
        ComposeWorks(s.rest, t.rest, a', Init(b), c);
      } else {
        Appended(Edited(t.rest, Init(b)), if t.edit.Keep? then Last(b) else t.edit.c, c);
        ComposeWorks(s.rest, t.rest, a', Init(b), Init(c));
      }
    }
  }

  lemma TriangleInequality(a: string, b: string, c: string)
    ensures Distance(a, c) <= Distance(a, b) + Distance(b, c)
  {
    DistanceIsCheapest(a, b);
    DistanceIsCheapest(b, c);
    DistanceIsCheapest(a, c);
    var s :| Edited(s, a) == Some(b) && Cost(s) == Distance(a, b);
    var t :| Edited(t, b) == Some(c) && Cost(t) == Distance(b, c);
    ComposeWorks(s, t, a, b, c);
    ComposeIsNoDearer(s, t);
  }

  lemma {:induction false} TableIsSymmetric(a: string, b: string, i: nat, j: nat)
    requires i <= |a| && j <= |b|
    ensures Table(a, b, i, j) == Table(b, a, j, i)
    decreases i + j
  {
    if i > 0 && j > 0 {
      TableIsSymmetric(a, b, i - 1, j - 1);
      TableIsSymmetric(a, b, i - 1, j);
      TableIsSymmetric(a, b, i, j - 1);
    }
  }

  lemma {:induction false} TableBounds(a: string, b: string, i: nat, j: nat)
    requires i <= |a| && j <= |b|
    ensures i <= Table(a, b, i, j) + j && j <= Table(a, b, i, j) + i
    ensures Table(a, b, i, j) <= Max(i, j)
    decreases i + j
  {
    if i > 0 && j > 0 {
      TableBounds(a, b, i - 1, j - 1);
      TableBounds(a, b, i - 1, j);
      TableBounds(a, b, i, j - 1);
    }
  }

  lemma {:induction false} FreeScriptIsIdentity(s: Script, a: string, b: string)
    requires Edited(s, a) == Some(b) && Cost(s) == 0
    ensures a == b
    decreases s
  {
    if s.Step? {
      Appended(Edited(s.rest, Init(a)), Last(a), b);
      FreeScriptIsIdentity(s.rest, Init(a), Init(b));
      assert a == Init(a) + [Last(a)] && b == Init(b) + [Last(b)];
    }
  }

  lemma {:induction false} SelfIsZero(a: string, i: nat)
    requires i <= |a|
    ensures Table(a, a, i, i) == 0
  {
    if i > 0 { SelfIsZero(a, i - 1); }
  }

  /** A metric, between the difference of the lengths and the longer length. */
  lemma DistanceIsMetric(a: string, b: string, c: string)
    ensures Distance(a, b) == 0 <==> a == b
    ensures Distance(a, b) == Distance(b, a)
    ensures Distance(a, c) <= Distance(a, b) + Distance(b, c)
    ensures |a| <= Distance(a, b) + |b| && |b| <= Distance(a, b) + |a|
    ensures Distance(a, b) <= Max(|a|, |b|)
  {
    TableIsSymmetric(a, b, |a|, |b|);
    TriangleInequality(a, b, c);
    TableBounds(a, b, |a|, |b|);
    SelfIsZero(a, |a|);
    if Distance(a, b) == 0 {
      DistanceIsCheapest(a, b);
      var s :| Edited(s, a) == Some(b) && Cost(s) == Distance(a, b);
      FreeScriptIsIdentity(s, a, b);
    }
  }

  // ---------------------------------------------------------------- the one-row computation

  lemma FirstEntries(a: string, b: string)
    ensures forall j: nat | j <= |b| :: Table(a, b, 0, j) == j
    ensures forall i: nat | i <= |a| :: Table(a, b, i, 0) == i
  {
  }

  lemma Entry(a: string, b: string, i: nat, j: nat)
    requires 0 < i <= |a| && 0 < j <= |b|
    ensures Table(a, b, i, j)
         == if a[i - 1] == b[j - 1] then Table(a, b, i - 1, j - 1)
            else 1 + Min(Table(a, b, i - 1, j - 1), Min(Table(a, b, i - 1, j), Table(a, b, i, j - 1)))
  {
  }

  /** The table one row at a time, in place: afterwards the row holds the table's last row. */
  method OneRowDistance(pred: string, ref: string) returns (d: nat)
    ensures d == Distance(pred, ref)
  {
    hide Table;
    var m, n := |pred|, |ref|;
    FirstEntries(pred, ref);
    var dp := new nat[n + 1](j => j);
    for i := 1 to m + 1
      invariant forall j | 0 <= j <= n :: dp[j] == Table(pred, ref, i - 1, j)
    {
      var prev := dp[0];
      dp[0] := i;
      for j := 1 to n + 1
        invariant prev == Table(pred, ref, i - 1, j - 1)
        invariant forall k | 0 <= k < j :: dp[k] == Table(pred, ref, i, k)
        invariant forall k | j <= k <= n :: dp[k] == Table(pred, ref, i - 1, k)
      {
        Entry(pred, ref, i, j);
        var temp := dp[j];
        if pred[i - 1] == ref[j - 1] {
          dp[j] := prev;
        } else {
          dp[j] := 1 + Min(prev, Min(dp[j], dp[j - 1]));
        }
        prev := temp;
      }
    }
    d := dp[n];
  }

  /** Distance over the longer length; two empty strings are identical. */
  function Ratio(a: string, b: string): (r: real) {
    if a == [] && b == [] then 0.0 else Distance(a, b) as real / Max(|a|, |b|) as real
  }

  lemma Quotient(d: nat, n: nat)
    requires 0 <= d <= n && n > 0
    ensures 0.0 <= d as real / n as real <= 1.0
    ensures d as real / n as real == 0.0 <==> d == 0
    ensures d == n ==> d as real / n as real == 1.0
  {
    var q, m := d as real / n as real, n as real;
    assert q * m == d as real;
    Compare(q, 1.0, m);
    Compare(q, 0.0, m);
  }

  lemma Compare(q: real, x: real, m: real)
    requires m > 0.0
    ensures q < x ==> q * m < x * m
    ensures q > x ==> q * m > x * m
  {
  }

  /** The ratio is 0 exactly for equal strings, never exceeds 1, and is 1 when just one string is empty. */
  lemma RatioInRange(a: string, b: string)
    ensures 0.0 <= Ratio(a, b) <= 1.0
    ensures Ratio(a, b) == 0.0 <==> a == b
    ensures Ratio(a, b) == Ratio(b, a)
    ensures (a == []) != (b == []) ==> Ratio(a, b) == 1.0
  {
    hide Distance;
    DistanceIsMetric(a, b, a);
    if a != [] || b != [] {
      Quotient(Distance(a, b), Max(|a|, |b|));
    }
  }

  /** r times the length of the longer string is the number of edits of a cheapest script from a to b. */
  ghost predicate Scores(a: string, b: string, r: real) {
    exists n :: CheapestCost(a, b, n) && r * (if |a| < |b| then |b| else |a|) as real == n as real
  }

  /** The ratio is the cheapest number of edits over the longer length, unless both strings are empty. */
  lemma RatioIsCheapest(a: string, b: string)
    requires a != [] || b != []
    ensures Scores(a, b, Ratio(a, b))
  {
    hide Distance, CheapestCost;
    DistanceIsCheapest(a, b);
    var longer := if |a| < |b| then |b| else |a|;
    assert Ratio(a, b) * longer as real == Distance(a, b) as real;
  }

  ghost predicate KeepsNothing(s: Script) {
    s.Done? || (!s.edit.Keep? && KeepsNothing(s.rest))
  }

  /** A script that keeps nothing touches every character of both strings. */
  lemma {:induction false} KeepingNothingIsDear(s: Script, a: string, b: string)
    requires Edited(s, a) == Some(b) && KeepsNothing(s)
    ensures Cost(s) >= |a| && Cost(s) >= |b|
    decreases s
  {
    if s.Step? {
      if s.edit.Insert? {
        Appended(Edited(s.rest, a), s.edit.c, b);
        KeepingNothingIsDear(s.rest, a, Init(b));
      } else if s.edit.Delete? {
        KeepingNothingIsDear(s.rest, Init(a), b);
      } else {
        Appended(Edited(s.rest, Init(a)), s.edit.c, b);
        KeepingNothingIsDear(s.rest, Init(a), Init(b));
      }
    }
  }

  /** Strings of which no script keeps a character score one. */
  lemma NothingInCommonScoresOne(a: string, b: string)
    requires a != [] || b != []
    requires forall s | Edited(s, a) == Some(b) :: KeepsNothing(s)
    ensures Ratio(a, b) == 1.0
  {
    hide Distance;
    DistanceIsCheapest(a, b);
    var s :| Edited(s, a) == Some(b) && Cost(s) == Distance(a, b);
    KeepingNothingIsDear(s, a, b);
    DistanceIsMetric(a, b, a);
    Quotient(Distance(a, b), if |a| < |b| then |b| else |a|);
  }

  /** The metric the evaluator reports; normalise stands for stripping and Unicode normalisation. */
  method NormalizedEditDistance(pred: string, ref: string, normalise: string -> string) returns (r: real)
    ensures r == Ratio(normalise(pred), normalise(ref))
    ensures 0.0 <= r <= 1.0
    ensures r == 0.0 <==> normalise(pred) == normalise(ref)
    ensures var a, b := normalise(pred), normalise(ref);
            a != [] || b != [] ==> Scores(a, b, r)
  {
    hide Scores, Distance;
    var a, b := normalise(pred), normalise(ref);
    RatioInRange(a, b);
    if a != [] || b != [] { RatioIsCheapest(a, b); }
    if b == [] && a == [] { return 0.0; }
    if b == [] || a == [] { return 1.0; }
    var d := OneRowDistance(a, b);
    r := d as real / Max(|a|, |b|) as real;
  }
}
