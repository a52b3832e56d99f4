/**
  The root page of the wheel index: it links to every package. A release run reads the packages off
  the page, adds its own, and writes them back in order.
 */
module RootIndex {
  import opened Options
  import opened StableSort

  const QUOTE: char := '"'
  const OPENING: string := "<a href=\""
  const CLOSING: string := "/\">"
  const DOCTYPE: string := "<!DOCTYPE html>\n"

  // ---------------------------------------------------------------- reading packages off a page

  /** The first place of c, or the end. */
  function FirstOf(s: string, c: char): (q: nat)
    ensures q <= |s| && (q < |s| ==> s[q] == c) && forall k | 0 <= k < q :: s[k] != c
  {
    if s == [] || s[0] == c then 0 else 1 + FirstOf(s[1..], c)
  }

  /** The pattern <a href="([^"]+)/"> matches at the start of s; the name it finds, or None. */
  function NameAtStart(s: string): (name: Option<string>)
    ensures name.Some? ==> name.value != [] && QUOTE !in name.value && |OPENING| + |name.value| + |CLOSING| <= |s|
  {
    if !(OPENING <= s) then None
    else
      var rest := s[|OPENING|..];
      var q := FirstOf(rest, QUOTE);
      if 2 <= q && q + 1 < |rest| && rest[q - 1] == '/' && rest[q + 1] == '>' then Some(rest[..q - 1]) else None
  }

  /** All matches, from left to right. */
  function Names(s: string): (names: seq<string>)
    decreases |s|
  {
    if s == [] then []
    else
      var name := NameAtStart(s);
      if name.Some? then [name.value] + Names(s[|OPENING| + |name.value| + |CLOSING|..]) else Names(s[1..])
  }

  ghost predicate IsName(name: string) {
    name != [] && QUOTE !in name
  }

  lemma {:induction false} NamesAreNames(s: string)
    ensures forall i | 0 <= i < |Names(s)| :: IsName(Names(s)[i])
    decreases |s|
  {
    if s != [] {
      var name := NameAtStart(s);
      if name.Some? {
        NamesAreNames(s[|OPENING| + |name.value| + |CLOSING|..]);
      } else {
        NamesAreNames(s[1..]);
      }
    }
  }

  // ---------------------------------------------------------------- writing packages

  function Line(name: string): (line: string) {
    OPENING + name + CLOSING + name + "</a>\n"
  }

  function Lines(names: seq<string>): (text: string) {
    if names == [] then [] else Line(names[0]) + Lines(names[1..])
  }

  function PageOf(names: seq<string>): (page: string) {
    DOCTYPE + Lines(names)
  }

  // ---------------------------------------------------------------- round trip

  /** Nothing matches before the next link. */
  lemma {:induction false} SkipTo(x: string, y: string)
    requires QUOTE !in x && (y == [] || OPENING <= y)
    ensures Names(x + y) == Names(y)
  {
    if x == [] {
      assert x + y == y;
    } else {
      var s := x + y;
      assert s[1..] == x[1..] + y;
      NoMatchInside(x, y);
      SkipTo(x[1..], y);
    }
  }

  lemma NoMatchInside(x: string, y: string)
    requires x != [] && QUOTE !in x && (y == [] || OPENING <= y)
    ensures !(OPENING <= x + y)
  {
    var s, n := x + y, |OPENING| - 1;
    assert OPENING[n] == QUOTE;
    if OPENING <= s {
      assert s[n] == QUOTE;
      if n >= |x| {
        assert s[n] == y[n - |x|] && y[n - |x|] == OPENING[n - |x|];
        NoQuoteBefore(n - |x|);
      }
    }
  }

  lemma NoQuoteBefore(k: nat)
    requires k < |OPENING| - 1
    ensures OPENING[k] != QUOTE
  {
    assert OPENING[..8] == "<a href=";
    assert OPENING[k] == "<a href="[k];
    assert QUOTE !in "<a href=";
  }

  lemma FirstQuote(x: string, y: string)
    requires QUOTE !in x && y != [] && y[0] == QUOTE
    ensures FirstOf(x + y, QUOTE) == |x|
  {
    var q := FirstOf(x + y, QUOTE);
    assert (x + y)[|x|] == QUOTE;
    assert forall k | 0 <= k < |x| :: (x + y)[k] == x[k];
  }

  lemma MatchLine(name: string, rest: string)
    requires IsName(name)
    ensures NameAtStart(OPENING + name + CLOSING + rest) == Some(name)
  {
    var s := OPENING + name + CLOSING + rest;
    var tail := s[|OPENING|..];
    assert tail == (name + "/") + ("\">" + rest);
    FirstQuote(name + "/", "\">" + rest);
    assert tail[|name|] == '/' && tail[|name| + 2] == '>';
    assert tail[..|name|] == name;
  }

  lemma NamesOfLine(name: string, rest: string)
    requires IsName(name) && (rest == [] || OPENING <= rest)
    ensures Names(Line(name) + rest) == [name] + Names(rest)
  {
    var s, after := Line(name) + rest, name + "</a>\n" + rest;
    assert s == OPENING + name + CLOSING + after;
    MatchLine(name, after);
    assert s[|OPENING| + |name| + |CLOSING|..] == after;
    assert QUOTE !in "</a>\n";
    SkipTo(name + "</a>\n", rest);
  }

  lemma {:induction false} NamesOfLines(names: seq<string>)
    requires forall i | 0 <= i < |names| :: IsName(names[i])
    ensures Names(Lines(names)) == names && (names == [] || OPENING <= Lines(names))
  {
    if names != [] {
      NamesOfLines(names[1..]);
      NamesOfLine(names[0], Lines(names[1..]));
      assert OPENING <= Line(names[0]) + Lines(names[1..]);
      assert [names[0]] + names[1..] == names;
    }
  }

  /** Reading a written page back gives the packages written, in order. */
  lemma PageReadsBack(names: seq<string>)
    requires forall i | 0 <= i < |names| :: IsName(names[i])
    ensures Names(PageOf(names)) == names
  {
    NamesOfLines(names);
    assert QUOTE !in DOCTYPE;
    SkipTo(DOCTYPE, Lines(names));
  }

  // ---------------------------------------------------------------- one run

  function Distinct(xs: seq<string>): (ys: seq<string>)
    ensures forall x :: x in ys <==> x in xs
    ensures forall i, j | 0 <= i < j < |ys| :: ys[i] != ys[j]
  {
    if xs == [] then []
    else
      var ys := Distinct(xs[..|xs| - 1]);
      assert xs == xs[..|xs| - 1] + [xs[|xs| - 1]];
      if xs[|xs| - 1] in ys then ys else ys + [xs[|xs| - 1]]
  }

  function Itself(x: string): (y: string) {
    x
  }

  const SGLANG: string := "sglang"

  /** The page after a run. */
  function Updated(root: Option<string>): (root': string) {
    var old' := if root.None? then [] else Names(root.value);
    PageOf(SortBy(Distinct(old' + [SGLANG]), Itself, StringLe))
  }

  lemma {:induction false} LinesNext(names: seq<string>, x: string)
    ensures Lines(names + [x]) == Lines(names) + Line(x)
  {
    if names == [] {
      assert names + [x] == [x] && [x][1..] == [];
    } else {
      LinesNext(names[1..], x);
      assert (names + [x])[1..] == names[1..] + [x];
    }
  }

  /** The page's text: the doctype, and for each package one line with a link. */
  lemma PageText(names: seq<string>, x: string)
    ensures PageOf([]) == "<!DOCTYPE html>\n"
    ensures PageOf(names + [x]) == PageOf(names) + ("<a href=\"" + x + "/\">" + x + "</a>\n")
  {
    hide Line;
    LinesNext(names, x);
    LineIs(x);
    assert DOCTYPE + (Lines(names) + Line(x)) == DOCTYPE + Lines(names) + Line(x);
  }

  lemma LineIs(x: string)
    ensures Line(x) == "<a href=\"" + x + "/\">" + x + "</a>\n"
  {
  }

  /** Collects the packages of the page, adds this one, and writes them in order. */
  method UpdateRoot(root: Option<string>) returns (root': string)
    ensures root' == Updated(root)
  {
    hide Line, SortBy, Names, Lines;
    var names := if root.None? then [] else Names(root.value);
    var packages: seq<string> := [];
    for i := 0 to |names|
      invariant packages == Distinct(names[..i])
    {
      assert names[..i + 1][..i] == names[..i];
      if names[i] !in packages { packages := packages + [names[i]]; }
    }
    assert names[..|names|] == names && (names + [SGLANG])[..|names|] == names;
    if SGLANG !in packages { packages := packages + [SGLANG]; }
    var sorted := SortBy(packages, Itself, StringLe);
    root' := DOCTYPE;
    NoLines();
    for i := 0 to |sorted|
      invariant root' == DOCTYPE + Lines(sorted[..i])
    {
      LinesNext(sorted[..i], sorted[i]);
      assert sorted[..i + 1] == sorted[..i] + [sorted[i]];
      root' := root' + Line(sorted[i]);
    }
    assert sorted[..|sorted|] == sorted;
  }

  lemma NoLines()
    ensures Lines([]) == []
  {
  }

  /** Strictly ascending. */
  ghost predicate Ascending(names: seq<string>) {
    forall i, j | 0 <= i < j < |names| :: StringLe(names[i], names[j]) && names[i] != names[j]
  }

  lemma SortedNames(xs: seq<string>)
    ensures Ascending(SortBy(Distinct(xs), Itself, StringLe))
    ensures forall x :: x in SortBy(Distinct(xs), Itself, StringLe) <==> x in xs
  {
    hide SortBy, Distinct, StringLe;
    var ys := Distinct(xs);
    StringLeIsOrder();
    SortByIsStableSort(ys, Itself, StringLe, []);
    SortByKeepsDifferent(ys, Itself, StringLe);
    var zs := SortBy(ys, Itself, StringLe);
    forall i, j | 0 <= i < j < |zs| ensures StringLe(zs[i], zs[j]) && zs[i] != zs[j] {
      assert StringLe(Itself(zs[i]), Itself(zs[j])) && Itself(zs[i]) != Itself(zs[j]);
    }
    forall x ensures x in zs <==> x in xs {
      assert x in multiset(zs) <==> x in multiset(ys);
    }
  }

  /**
    Whatever the root page held, afterwards it links to exactly the packages it linked to before and
    to sglang, each once and in ascending order.
   */
  lemma RootKeepsPackages(root: Option<string>)
    ensures var names := Names(Updated(root));
            && Ascending(names)
            && forall x :: x in names <==> x == SGLANG || (root.Some? && x in Names(root.value))
  {
    hide SortBy, Distinct, Names, PageOf, Ascending;
    var before := if root.None? then [] else Names(root.value);
    if root.Some? { NamesAreNames(root.value); }
    var names := SortBy(Distinct(before + [SGLANG]), Itself, StringLe);
    SortedNames(before + [SGLANG]);
    forall i | 0 <= i < |names| ensures IsName(names[i]) {
      assert names[i] in before + [SGLANG];
      assert QUOTE !in SGLANG;
    }
    PageReadsBack(names);
  }

  lemma SameLast(a: seq<string>, b: seq<string>)
    requires Ascending(a) && Ascending(b) && (forall x :: x in a <==> x in b) && a != [] && b != []
    ensures a[|a| - 1] == b[|b| - 1]
  {
    hide Ascending, StringLe;
    var n, m := |a| - 1, |b| - 1;
    assert a[n] in a && b[m] in b;
    LastIsLargest(a, b[m]);
    LastIsLargest(b, a[n]);
    StringLeIsTotal(a[n], b[m]);
  }

  lemma AscendingFront(a: seq<string>)
    requires a != [] && Ascending(a)
    ensures Ascending(a[..|a| - 1])
  {
    hide StringLe;
  }

  lemma {:induction false} AscendingIsUnique(a: seq<string>, b: seq<string>)
    requires Ascending(a) && Ascending(b) && forall x :: x in a <==> x in b
    ensures a == b
  {
    hide Ascending, StringLe;
    assert (a != [] ==> a[0] in a) && (b != [] ==> b[0] in b);
    if a != [] && b != [] {
      var n, m := |a| - 1, |b| - 1;
      SameLast(a, b);
      forall x ensures x in a[..n] <==> x in b[..m] {
        InFront(a, x);
        InFront(b, x);
      }
      AscendingFront(a);
      AscendingFront(b);
      AscendingIsUnique(a[..n], b[..m]);
      assert a == a[..n] + [a[n]] && b == b[..m] + [b[m]];
    }
  }

  lemma InFront(a: seq<string>, x: string)
    requires a != [] && Ascending(a)
    ensures x in a[..|a| - 1] <==> x in a && x != a[|a| - 1]
  {
    var n := |a| - 1;
    assert a == a[..n] + [a[n]];
    assert forall i | 0 <= i < n :: a[..n][i] == a[i] && a[i] != a[n];
  }

  lemma LastIsLargest(a: seq<string>, x: string)
    requires Ascending(a) && x in a
    ensures StringLe(x, a[|a| - 1])
  {
    var i :| 0 <= i < |a| && a[i] == x;
    StringLeIsTotal(x, x);
  }

  /** A second run leaves the root page as it is. */
  lemma RootIsStable(root: Option<string>)
    ensures Updated(Some(Updated(root))) == Updated(root)
  {
    hide SortBy, Distinct, Names, PageOf, Ascending;
    var page := Updated(root);
    RootKeepsPackages(root);
    var before := if root.None? then [] else Names(root.value);
    SortedNames(before + [SGLANG]);
    SortedNames(Names(page) + [SGLANG]);
    AscendingIsUnique(SortBy(Distinct(before + [SGLANG]), Itself, StringLe),
                      SortBy(Distinct(Names(page) + [SGLANG]), Itself, StringLe));
  }
}
