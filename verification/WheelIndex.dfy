/**
  The page that lists the nightly wheels. Each release run reads the page back, puts its own links
  in front, drops every link whose file name has already been seen, and writes the page again.
 */
module WheelIndex {
  import opened Options
  import opened StableSort
  import RootIndex

  datatype Wheel = Wheel(name: string, sha256: string)

  /** A release: its tag and the wheels in its dist directory. */
  datatype Release = Release(tag: string, wheels: seq<Wheel>)

  // ---------------------------------------------------------------- lines

  function SplitLines(s: string): (lines: seq<string>)
    ensures |lines| >= 1
  {
    if s == [] then [[]]
    else
      var rest := SplitLines(s[1..]);
      if s[0] == '\n' then [[]] + rest else [[s[0]] + rest[0]] + rest[1..]
  }

  function JoinLines(lines: seq<string>): (s: string) {
    if |lines| == 0 then [] else if |lines| == 1 then lines[0] else lines[0] + "\n" + JoinLines(lines[1..])
  }

  lemma {:induction false} SplitFirst(line: string, s: string)
    requires '\n' !in line
    ensures SplitLines(line + "\n" + s) == [line] + SplitLines(s)
  {
    if line == [] {
      assert line + "\n" + s == "\n" + s;
      assert ("\n" + s)[1..] == s;
    } else {
      SplitFirst(line[1..], s);
      assert (line + "\n" + s)[1..] == line[1..] + "\n" + s;
      assert [line[0]] + line[1..] == line;
    }
  }

  ghost predicate OneLiners(lines: seq<string>) {
    forall i | 0 <= i < |lines| :: '\n' !in lines[i]
  }

  lemma {:induction false} SplitJoined(lines: seq<string>)
    requires lines != [] && OneLiners(lines)
    ensures SplitLines(JoinLines(lines) + "\n") == lines + [""]
  {
    assert SplitLines("") == [""];
    if |lines| == 1 {
      SplitFirst(lines[0], "");
      assert lines[0] + "\n" + "" == JoinLines(lines) + "\n";
    } else {
      SplitJoined(lines[1..]);
      SplitFirst(lines[0], JoinLines(lines[1..]) + "\n");
      assert JoinLines(lines) + "\n" == lines[0] + "\n" + (JoinLines(lines[1..]) + "\n");
      assert [lines[0]] + (lines[1..] + [""]) == lines + [""];
    }
  }

  // ---------------------------------------------------------------- the page

  const LINK_START: string := "<a href="

  predicate IsLink(line: string) {
    LINK_START <= line
  }

  function LinesThatLink(lines: seq<string>, n: nat): (links: seq<string>)
    requires n <= |lines|
  {
    if n == 0 then [] else LinesThatLink(lines, n - 1) + (if IsLink(lines[n - 1]) then [lines[n - 1]] else [])
  }

  /** The links of a page; a page that does not exist has none. */
  function ReadLinks(page: Option<string>): (links: seq<string>) {
    if page.None? then [] else var lines := SplitLines(page.value); LinesThatLink(lines, |lines|)
  }

  function Title(cuda: string): (line: string) {
    "<h1>SGLang Nightly Wheels (" + cuda + ")</h1>"
  }

  function PageOf(cuda: string, links: seq<string>): (page: string) {
    "<!DOCTYPE html>" + "\n" + Title(cuda) + "\n" + JoinLines(links) + "\n"
  }

  ghost predicate AllLinks(links: seq<string>) {
    forall i | 0 <= i < |links| :: IsLink(links[i]) && '\n' !in links[i]
  }

  lemma {:induction false} LinksAmong(a: seq<string>, links: seq<string>, b: seq<string>, n: nat)
    requires n <= |a| + |links| + |b|
    requires (forall x | x in a :: !IsLink(x)) && (forall x | x in links :: IsLink(x))
             && forall x | x in b :: !IsLink(x)
    ensures LinesThatLink(a + links + b, n)
         == if n <= |a| then [] else if n <= |a| + |links| then links[..n - |a|] else links
  {
    if n > 0 {
      LinksAmong(a, links, b, n - 1);
      var x := (a + links + b)[n - 1];
      if n <= |a| {
        assert x == a[n - 1];
      } else if n <= |a| + |links| {
        assert x == links[n - 1 - |a|];
      } else {
        assert x == b[n - 1 - |a| - |links|];
      }
    }
  }

  lemma HeaderIsNoLink(cuda: string)
    ensures !IsLink("<!DOCTYPE html>") && !IsLink(Title(cuda)) && !IsLink("")
    ensures '\n' !in "<!DOCTYPE html>" && ('\n' !in cuda ==> '\n' !in Title(cuda))
  {
    assert "<!DOCTYPE html>"[1] == '!' && LINK_START[1] == 'a';
    TitleIsNoLink(cuda);
  }

  lemma TitleIsNoLink(cuda: string)
    ensures !IsLink(Title(cuda)) && ('\n' !in cuda ==> '\n' !in Title(cuda))
  {
    var a, b := "<h1>SGLang Nightly Wheels (", ")</h1>";
    assert Title(cuda) == a + cuda + b && '\n' !in a && '\n' !in b;
    assert a[1] == 'h' && LINK_START[1] == 'a';
  }

  lemma {:induction false} SplitPage(d: string, t: string, links: seq<string>)
    requires '\n' !in d && '\n' !in t && OneLiners(links)
    ensures SplitLines(d + "\n" + t + "\n" + JoinLines(links) + "\n")
         == [d, t] + links + (if links == [] then ["", ""] else [""])
  {
    var body := JoinLines(links) + "\n";
    assert d + "\n" + t + "\n" + JoinLines(links) + "\n" == d + "\n" + (t + "\n" + body);
    SplitFirst(d, t + "\n" + body);
    SplitFirst(t, body);
    if links == [] {
      assert body == "" + "\n" + "";
      SplitFirst("", "");
      assert SplitLines("") == [""];
    } else {
      SplitJoined(links);
    }
  }

  /** The lines of a written page: the doctype, a heading that names the CUDA version, and the links. */
  lemma PageLines(cuda: string, links: seq<string>)
    requires '\n' !in cuda && OneLiners(links)
    ensures SplitLines(PageOf(cuda, links))
         == ["<!DOCTYPE html>", "<h1>SGLang Nightly Wheels (" + cuda + ")</h1>"] + links
            + (if links == [] then ["", ""] else [""])
  {
    hide SplitLines, JoinLines;
    HeaderIsNoLink(cuda);
    SplitPage("<!DOCTYPE html>", "<h1>SGLang Nightly Wheels (" + cuda + ")</h1>", links);
  }

  /** Reading a written page back gives the links that were written. */
  lemma PageReadsBack(cuda: string, links: seq<string>)
    requires '\n' !in cuda && AllLinks(links)
    ensures ReadLinks(Some(PageOf(cuda, links))) == links
  {
    hide IsLink, SplitLines, JoinLines, PageOf;
    HeaderIsNoLink(cuda);
    PageLines(cuda, links);
    var tail := if links == [] then ["", ""] else [""];
    LinksAmong(["<!DOCTYPE html>", Title(cuda)], links, tail, 2 + |links| + |tail|);
  }

  // ---------------------------------------------------------------- a link and its file name

  const BASE_URL: string := "https://github.com/" + "sgl-project/whl/" + "releases/download"

  function UrlOf(tag: string, w: Wheel): (url: string) {
    BASE_URL + "/" + tag + "/" + w.name + "#sha256=" + w.sha256
  }

  function LinkOf(tag: string, w: Wheel): (link: string) {
    LINK_START + "\"" + UrlOf(tag, w) + "\">" + w.name + "</a><br>"
  }

  /** The first place of c from i on, or the end. */
  function Next(s: string, c: char, i: nat): (q: nat)
    requires i <= |s|
    ensures i <= q <= |s| && (q < |s| ==> s[q] == c) && forall k | i <= k < q :: s[k] != c
    decreases |s| - i
  {
    if i == |s| || s[i] == c then i else Next(s, c, i + 1)
  }

  /** The pattern ">...whl</a>" matches at p: the text up to the next "<" is a wheel's name and "</a>" follows. */
  predicate NamedAt(line: string, p: nat)
    requires p < |line|
  {
    && line[p] == '>'
    && var q := Next(line, '<', p + 1);
       && p + 1 + 5 <= q && line[q - 4..q] == ".whl"
       && "</a>" <= line[q..]
  }

  /** The leftmost match from p on. */
  function NameFrom(line: string, p: nat): (name: Option<string>)
    requires p <= |line|
    decreases |line| - p
  {
    if p == |line| then None
    else if NamedAt(line, p) then Some(line[p + 1..Next(line, '<', p + 1)])
    else NameFrom(line, p + 1)
  }

  function NameIn(line: string): (name: Option<string>) {
    NameFrom(line, 0)
  }

  /** A text that can stand inside a link. */
  ghost predicate Plain(s: string) {
    '<' !in s && '>' !in s && '\n' !in s
  }

  ghost predicate IsWheel(w: Wheel) {
    Plain(w.name) && Plain(w.sha256) && |w.name| >= 5 && w.name[|w.name| - 4..] == ".whl"
  }

  lemma {:induction false} NameSkips(line: string, p: nat, g: nat)
    requires p <= g <= |line| && forall k | p <= k < g :: line[k] != '>'
    ensures NameFrom(line, p) == NameFrom(line, g)
    decreases g - p
  {
    if p < g { NameSkips(line, p + 1, g); }
  }

  /** What stands between the first ">" and the "</a>" is what the pattern finds. */
  lemma NameBetween(front: string, name: string, rest: string)
    requires '>' !in front && '<' !in name && |name| >= 5 && name[|name| - 4..] == ".whl" && "</a>" <= rest
    ensures NameIn(front + ">" + name + rest) == Some(name)
  {
    var line, g := front + ">" + name + rest, |front|;
    var q := g + 1 + |name|;
    assert line[g] == '>' && line[g + 1..q] == name && line[q..] == rest;
    assert forall k | g + 1 <= k < q :: line[k] == name[k - g - 1];
    assert line[q] == rest[0] == '<';
    assert Next(line, '<', g + 1) == q;
    assert line[q - 4..q] == name[|name| - 4..];
    assert NamedAt(line, g);
    forall k | 0 <= k < g ensures line[k] != '>' { assert line[k] == front[k]; }
    NameSkips(line, 0, g);
  }

  lemma PlainBase()
    ensures Plain(BASE_URL)
  {
    assert Plain("https://github.com/") && Plain("sgl-project/whl/") && Plain("releases/download");
  }

  lemma PlainUrl(tag: string, w: Wheel)
    requires Plain(tag) && IsWheel(w)
    ensures Plain(UrlOf(tag, w))
  {
    PlainBase();
    assert Plain("/") && Plain("#sha256=");
  }

  /** The link made for a wheel is one line, is read back as a link, and carries the wheel's name. */
  lemma LinkCarriesName(tag: string, w: Wheel)
    requires Plain(tag) && IsWheel(w)
    ensures IsLink(LinkOf(tag, w)) && '\n' !in LinkOf(tag, w)
    ensures NameIn(LinkOf(tag, w)) == Some(w.name)
  {
    hide UrlOf, NameIn;
    PlainUrl(tag, w);
    var url := UrlOf(tag, w);
    var front, rest := LINK_START + "\"" + url + "\"", "</a><br>";
    assert '>' !in LINK_START && '\n' !in LINK_START && '>' !in "\"" && '\n' !in "\">" && '\n' !in rest;
    assert "</a>" <= rest;
    assert LinkOf(tag, w) == front + ">" + w.name + rest;
    NameBetween(front, w.name, rest);
  }

  // ---------------------------------------------------------------- dropping duplicates

  /** No link before n carries this name. */
  predicate Unseen(links: seq<string>, n: nat, name: Option<string>)
    requires n <= |links|
  {
    forall k | 0 <= k < n :: NameIn(links[k]) != name
  }

  /** Of the first n links, those with a name that no earlier one carries. */
  function Firsts(links: seq<string>, n: nat): (out: seq<string>)
    requires n <= |links|
  {
    if n == 0 then []
    else
      var name := NameIn(links[n - 1]);
      Firsts(links, n - 1) + (if name.Some? && Unseen(links, n - 1, name) then [links[n - 1]] else [])
  }

  method RemoveDuplicates(links: seq<string>) returns (out: seq<string>)
    ensures out == Firsts(links, |links|)
  {
    var seen: set<string> := {};
    out := [];
    for i := 0 to |links|
      invariant out == Firsts(links, i)
      invariant forall x :: x in seen <==> exists k | 0 <= k < i :: NameIn(links[k]) == Some(x)
    {
      var name := NameIn(links[i]);
      if name.Some? {
        if name.value !in seen {
          seen := seen + {name.value};
          out := out + [links[i]];
        }
      }
    }
  }

  // ---------------------------------------------------------------- one run

  function NewLinks(rel: Release): (links: seq<string>)
    ensures |links| == |rel.wheels| && forall j | 0 <= j < |links| :: links[j] == LinkOf(rel.tag, rel.wheels[j])
  {
    seq(|rel.wheels|, (j: nat) requires j < |rel.wheels| => LinkOf(rel.tag, rel.wheels[j]))
  }

  method MakeLinks(rel: Release) returns (links: seq<string>)
    ensures links == NewLinks(rel)
  {
    links := [];
    for j := 0 to |rel.wheels|
      invariant links == NewLinks(rel)[..j]
    {
      links := links + [LinkOf(rel.tag, rel.wheels[j])];
    }
  }

  /** The page after a run. A release without wheels fails before anything is written. */
  function Updated(cuda: string, rel: Release, page: Option<string>): (page': Option<string>) {
    if rel.wheels == [] then page
    else
      var links := NewLinks(rel) + ReadLinks(page);
      Some(PageOf(cuda, Firsts(links, |links|)))
  }

  function NameOf(w: Wheel): (name: string) {
    w.name
  }

  /** The release with its wheels in the order of their names. */
  function Listing(rel: Release): (listed: Release) {
    Release(rel.tag, SortBy(rel.wheels, NameOf, StringLe))
  }

  /**
    One run: it fails without wheels, before anything is written, and else rewrites the root page and
    the package page.
   */
  method UpdateWheelIndex(commit: string, version: string, date: Option<string>, dist: seq<Wheel>,
                          root: Option<string>, page: Option<string>)
    returns (ok: bool, root': Option<string>, page': Option<string>)
    ensures ok <==> dist != []
    ensures root' == if ok then Some(RootIndex.Updated(root)) else root
    ensures var cuda := if "cu" <= version then version else "cu" + version;
            var day := if date.Some? && date.value != "" then date.value + "-" else "";
            var tag := "nightly-" + (day + commit);
            page' == Updated(cuda, Listing(Release(tag, dist)), page)
  {
    hide SortBy, RootIndex.Updated;
    var tag, cuda := "nightly-" + commit, version;
    if date.Some? && |date.value| > 0 {
      tag := "nightly-" + date.value + "-" + commit;
      assert tag == "nightly-" + (date.value + "-" + commit);
    } else {
      assert "" + commit == commit;
    }
    if !("cu" <= version) { cuda := "cu" + version; }
    var rel := Listing(Release(tag, dist));
    SortByKeepsAll(dist, NameOf, StringLe);
    var existing := ReadLinks(page);
    var links := MakeLinks(rel);
    if links == [] { return false, root, page; }
    var unique := RemoveDuplicates(links + existing);
    var r := RootIndex.UpdateRoot(root);
    return true, Some(r), Some(PageOf(cuda, unique));
  }

  /** The page after the first k of a sequence of runs, starting without one. */
  function PageAfter(cuda: string, runs: seq<Release>, k: nat): (page: Option<string>)
    requires k <= |runs|
  {
    if k == 0 then None else Updated(cuda, Listing(runs[k - 1]), PageAfter(cuda, runs, k - 1))
  }

  // ---------------------------------------------------------------- every run

  /** Where a link comes from: the run and the place in its listing. */
  datatype Origin = Origin(run: nat, at: nat)

  ghost predicate IsOrigin(runs: seq<Release>, k: nat, o: Origin) {
    o.run < k <= |runs| && o.at < |runs[o.run].wheels|
  }

  /** All of them origins among the first k runs. */
  ghost predicate AreOrigins(runs: seq<Release>, k: nat, os: seq<Origin>) {
    k <= |runs| && forall i | 0 <= i < |os| :: IsOrigin(runs, k, os[i])
  }

  ghost function WheelAt(runs: seq<Release>, o: Origin): (w: Wheel)
    requires IsOrigin(runs, |runs|, o)
  {
    runs[o.run].wheels[o.at]
  }

  ghost function LinkAt(runs: seq<Release>, o: Origin): (link: string)
    requires IsOrigin(runs, |runs|, o)
  {
    LinkOf(runs[o.run].tag, WheelAt(runs, o))
  }

  ghost predicate Ships(rel: Release, name: string) {
    exists j | 0 <= j < |rel.wheels| :: rel.wheels[j].name == name
  }

  /** Nothing of the same name was shipped by a later one of the first k runs. */
  ghost predicate IsLatest(runs: seq<Release>, k: nat, o: Origin)
    requires IsOrigin(runs, |runs|, o) && k <= |runs|
  {
    forall r | o.run < r < k :: !Ships(runs[r], WheelAt(runs, o).name)
  }

  /** Newer runs first, and within a run in the order of its listing. */
  ghost predicate Before(o: Origin, o': Origin) {
    o.run > o'.run || (o.run == o'.run && o.at < o'.at)
  }

  ghost predicate InOrder(os: seq<Origin>) {
    forall i, j | 0 <= i < j < |os| :: Before(os[i], os[j])
  }

  lemma InOrderJoined(a: seq<Origin>, b: seq<Origin>)
    requires InOrder(a) && InOrder(b) && forall i, j | 0 <= i < |a| && 0 <= j < |b| :: Before(a[i], b[j])
    ensures InOrder(a + b)
  {
  }

  /** Releases whose wheels have proper names, no name twice in one listing. */
  ghost predicate ProperRelease(rel: Release) {
    && Plain(rel.tag)
    && (forall j | 0 <= j < |rel.wheels| :: IsWheel(rel.wheels[j]))
    && (forall i, j | 0 <= i < j < |rel.wheels| :: rel.wheels[i].name != rel.wheels[j].name)
  }

  ghost predicate Proper(runs: seq<Release>) {
    forall r | 0 <= r < |runs| :: ProperRelease(runs[r])
  }

  /** The origins of the links on the page, in order: exactly the latest ones, newest first. */
  ghost predicate Lists(runs: seq<Release>, k: nat, os: seq<Origin>)
    requires k <= |runs|
  {
    && AreOrigins(runs, k, os)
    && (forall o | IsOrigin(runs, k, o) :: o in os <==> IsLatest(runs, k, o))
    && InOrder(os)
  }

  ghost function LinksAt(runs: seq<Release>, os: seq<Origin>): (links: seq<string>)
    requires AreOrigins(runs, |runs|, os)
    ensures |links| == |os| && forall i | 0 <= i < |os| :: links[i] == LinkAt(runs, os[i])
  {
    seq(|os|, (i: nat) requires i < |os| => LinkAt(runs, os[i]))
  }

  /** Of the first n origins, those whose wheel this release does not ship. */
  ghost function NotIn(runs: seq<Release>, rel: Release, os: seq<Origin>, n: nat): (out: seq<Origin>)
    requires n <= |os| && AreOrigins(runs, |runs|, os)
    ensures AreOrigins(runs, |runs|, out)
  {
    if n == 0 then []
    else
      var o := os[n - 1];
      NotIn(runs, rel, os, n - 1) + (if Ships(rel, WheelAt(runs, o).name) then [] else [o])
  }

  lemma {:induction false} NotInHas(runs: seq<Release>, rel: Release, os: seq<Origin>, n: nat, o: Origin)
    requires n <= |os| && AreOrigins(runs, |runs|, os) && IsOrigin(runs, |runs|, o)
    ensures o in NotIn(runs, rel, os, n) <==> o in os[..n] && !Ships(rel, WheelAt(runs, o).name)
  {
    hide Ships;
    if n > 0 {
      NotInHas(runs, rel, os, n - 1, o);
      assert os[..n] == os[..n - 1] + [os[n - 1]];
    }
  }

  lemma {:induction false} NotInKeepsOrder(runs: seq<Release>, rel: Release, os: seq<Origin>, n: nat)
    requires n <= |os| && AreOrigins(runs, |runs|, os)
    requires InOrder(os)
    ensures InOrder(NotIn(runs, rel, os, n))
  {
    hide Ships, WheelAt, Before;
    if n > 0 {
      NotInKeepsOrder(runs, rel, os, n - 1);
      var out := NotIn(runs, rel, os, n - 1);
      forall i | 0 <= i < |out| ensures Before(out[i], os[n - 1]) {
        assert out[i] in out;
        NotInHas(runs, rel, os, n - 1, out[i]);
        assert out[i] in os[..n - 1];
      }
      InOrderJoined(out, [os[n - 1]]);
      assert out + [] == out;
    }
  }

  ghost function Newest(run: nat, count: nat): (os: seq<Origin>)
    ensures |os| == count && forall j | 0 <= j < count :: os[j] == Origin(run, j)
  {
    seq(count, (j: nat) => Origin(run, j))
  }

  /** The step from k - 1 runs to k. */
  lemma ListsStep(runs: seq<Release>, k: nat, os: seq<Origin>)
    requires 0 < k <= |runs| && Lists(runs, k - 1, os)
    ensures var rel := runs[k - 1];
            Lists(runs, k, Newest(k - 1, |rel.wheels|) + NotIn(runs, rel, os, |os|))
  {
    var rel := runs[k - 1];
    var fresh', kept := Newest(k - 1, |rel.wheels|), NotIn(runs, rel, os, |os|);
    NotInKeepsOrder(runs, rel, os, |os|);
    assert os[..|os|] == os;
    forall i | 0 <= i < |kept| ensures IsOrigin(runs, k - 1, kept[i]) {
      assert kept[i] in kept;
      NotInHas(runs, rel, os, |os|, kept[i]);
    }
    InOrderJoined(fresh', kept);
    forall o | IsOrigin(runs, k, o) ensures o in fresh' + kept <==> IsLatest(runs, k, o) {
      if o.run == k - 1 {
        assert fresh'[o.at] == o;
      } else {
        assert IsOrigin(runs, k - 1, o);
        assert o !in fresh';
        NotInHas(runs, rel, os, |os|, o);
        assert IsLatest(runs, k, o) <==> IsLatest(runs, k - 1, o) && !Ships(rel, WheelAt(runs, o).name);
      }
    }
  }

  /** Two latest origins with the same name are the same. */
  lemma LatestNamesDiffer(runs: seq<Release>, k: nat, os: seq<Origin>, i: nat, j: nat)
    requires k <= |runs| && Proper(runs) && Lists(runs, k, os) && i < j < |os|
    ensures IsOrigin(runs, k, os[i]) && IsOrigin(runs, k, os[j])
    ensures WheelAt(runs, os[i]).name != WheelAt(runs, os[j]).name
  {
    assert os[i] in os && os[j] in os;
    assert Before(os[i], os[j]);
    assert IsLatest(runs, k, os[j]);
    assert ProperRelease(runs[os[i].run]);
    if os[i].run > os[j].run {
      assert runs[os[i].run].wheels[os[i].at].name == WheelAt(runs, os[i]).name;
    }
  }

  // ---------------------------------------------------------------- duplicates, seen from the two halves

  /** Every link carries a name, no two the same. */
  ghost predicate Named(links: seq<string>) {
    && (forall i | 0 <= i < |links| :: NameIn(links[i]).Some?)
    && (forall i, j | 0 <= i < j < |links| :: NameIn(links[i]) != NameIn(links[j]))
  }

  /** Of the first n links of b, those whose name is not in a. */
  ghost function Others(a: seq<string>, b: seq<string>, n: nat): (out: seq<string>)
    requires n <= |b|
  {
    if n == 0 then [] else Others(a, b, n - 1) + (if Unseen(a, |a|, NameIn(b[n - 1])) then [b[n - 1]] else [])
  }

  lemma {:induction false} FirstsOfFront(a: seq<string>, b: seq<string>, n: nat)
    requires Named(a) && n <= |a|
    ensures Firsts(a + b, n) == a[..n]
  {
    hide NameIn;
    if n > 0 {
      FirstsOfFront(a, b, n - 1);
      assert (a + b)[n - 1] == a[n - 1];
      forall i | 0 <= i < n - 1 ensures NameIn((a + b)[i]) != NameIn(a[n - 1]) { assert (a + b)[i] == a[i]; }
      assert a[..n] == a[..n - 1] + [a[n - 1]];
    }
  }

  lemma {:induction false} FirstsOfJoined(a: seq<string>, b: seq<string>, n: nat)
    requires Named(a) && Named(b) && n <= |b|
    ensures Firsts(a + b, |a| + n) == a + Others(a, b, n)
  {
    hide NameIn;
    if n == 0 {
      FirstsOfFront(a, b, |a|);
    } else {
      FirstsOfJoined(a, b, n - 1);
      var name := NameIn(b[n - 1]);
      assert (a + b)[|a| + n - 1] == b[n - 1];
      UnseenInBoth(a, b, n - 1);
      assert a + Others(a, b, n) == a + Others(a, b, n - 1) + (if Unseen(a, |a|, name) then [b[n - 1]] else []);
    }
  }

  lemma UnseenInBoth(a: seq<string>, b: seq<string>, n: nat)
    requires Named(b) && n < |b|
    ensures Unseen(a + b, |a| + n, NameIn(b[n])) <==> Unseen(a, |a|, NameIn(b[n]))
  {
    hide NameIn;
    assert forall i | 0 <= i < |a| :: (a + b)[i] == a[i];
    assert forall i | |a| <= i < |a| + n :: (a + b)[i] == b[i - |a|];
  }

  // ---------------------------------------------------------------- the main result

  lemma NamesOf(runs: seq<Release>, o: Origin)
    requires Proper(runs) && IsOrigin(runs, |runs|, o)
    ensures NameIn(LinkAt(runs, o)) == Some(WheelAt(runs, o).name)
    ensures IsLink(LinkAt(runs, o)) && '\n' !in LinkAt(runs, o)
  {
    hide NameIn, IsLink, LinkOf, Plain;
    assert ProperRelease(runs[o.run]);
    LinkCarriesName(runs[o.run].tag, WheelAt(runs, o));
  }

  /** The links of a list of latest origins are proper links with different names. */
  lemma ListedAreNamed(runs: seq<Release>, k: nat, os: seq<Origin>)
    requires k <= |runs| && Proper(runs) && Lists(runs, k, os)
    ensures AreOrigins(runs, |runs|, os)
    ensures Named(LinksAt(runs, os)) && AllLinks(LinksAt(runs, os))
  {
    hide NameIn, IsLink, LinkOf, IsLatest, Before, Proper, LinkAt, WheelAt;
    assert forall i | 0 <= i < |os| :: IsOrigin(runs, k, os[i]) ==> IsOrigin(runs, |runs|, os[i]);
    forall i | 0 <= i < |os|
      ensures NameIn(LinkAt(runs, os[i])) == Some(WheelAt(runs, os[i]).name)
      ensures IsLink(LinkAt(runs, os[i])) && '\n' !in LinkAt(runs, os[i])
    {
      NamesOf(runs, os[i]);
    }
    forall i, j | 0 <= i < j < |os| ensures NameIn(LinkAt(runs, os[i])) != NameIn(LinkAt(runs, os[j])) {
      LatestNamesDiffer(runs, k, os, i, j);
    }
  }

  lemma NewAreNamed(rel: Release)
    requires ProperRelease(rel)
    ensures Named(NewLinks(rel))
    ensures forall j | 0 <= j < |rel.wheels| :: NameIn(NewLinks(rel)[j]) == Some(rel.wheels[j].name)
  {
    hide NameIn, IsLink, LinkOf, Plain, IsWheel;
    forall j | 0 <= j < |rel.wheels| ensures NameIn(NewLinks(rel)[j]) == Some(rel.wheels[j].name) {
      LinkCarriesName(rel.tag, rel.wheels[j]);
    }
  }

  /** Dropping the old links whose name is among the new ones is dropping the wheels this release ships. */
  lemma {:induction false} OthersAreNotIn(runs: seq<Release>, rel: Release, os: seq<Origin>, n: nat)
    requires n <= |os| && AreOrigins(runs, |runs|, os) && Proper(runs) && ProperRelease(rel)
    ensures Others(NewLinks(rel), LinksAt(runs, os), n) == LinksAt(runs, NotIn(runs, rel, os, n))
  {
    hide NameIn, LinkOf, WheelAt, LinkAt, Proper, Unseen, Ships, NewLinks, ProperRelease;
    if n > 0 {
      OthersAreNotIn(runs, rel, os, n - 1);
      NamesOf(runs, os[n - 1]);
      UnseenIsUnshipped(rel, WheelAt(runs, os[n - 1]).name);
      assert LinksAt(runs, os)[n - 1] == LinkAt(runs, os[n - 1]);
    }
  }

  lemma UnseenIsUnshipped(rel: Release, name: string)
    requires ProperRelease(rel)
    ensures Unseen(NewLinks(rel), |NewLinks(rel)|, Some(name)) <==> !Ships(rel, name)
  {
    hide NameIn, LinkOf, ProperRelease, Named;
    NewAreNamed(rel);
  }

  lemma {:induction false} ShipsNothing(runs: seq<Release>, rel: Release, os: seq<Origin>, n: nat)
    requires n <= |os| && AreOrigins(runs, |runs|, os) && rel.wheels == []
    ensures NotIn(runs, rel, os, n) == os[..n]
  {
    if n > 0 {
      ShipsNothing(runs, rel, os, n - 1);
      assert os[..n] == os[..n - 1] + [os[n - 1]];
    }
  }

  /** The origins of the links on the page after k runs. */
  ghost function Latest(runs: seq<Release>, k: nat): (os: seq<Origin>)
    requires k <= |runs|
    ensures Lists(runs, k, os)
  {
    if k == 0 then []
    else
      var rel, os := runs[k - 1], Latest(runs, k - 1);
      ListsStep(runs, k, os);
      Newest(k - 1, |rel.wheels|) + NotIn(runs, rel, os, |os|)
  }

  lemma PageStep(cuda: string, runs: seq<Release>, k: nat, os: seq<Origin>, page: Option<string>)
    requires 0 < k <= |runs| && Proper(runs) && '\n' !in cuda && Lists(runs, k - 1, os)
    requires AreOrigins(runs, |runs|, os) && ReadLinks(page) == LinksAt(runs, os)
    ensures var os' := Newest(k - 1, |runs[k - 1].wheels|) + NotIn(runs, runs[k - 1], os, |os|);
            AreOrigins(runs, |runs|, os') && ReadLinks(Updated(cuda, runs[k - 1], page)) == LinksAt(runs, os')
  {
    hide NameIn, IsLink, LinkOf, Plain, Firsts, Others, Named, AllLinks, Lists, ReadLinks, PageOf, NotIn;
    var rel := runs[k - 1];
    var fresh', kept := Newest(k - 1, |rel.wheels|), NotIn(runs, rel, os, |os|);
    ListsStep(runs, k, os);
    ListedAreNamed(runs, k, fresh' + kept);
    assert LinksAt(runs, fresh') == NewLinks(rel);
    assert LinksAt(runs, fresh' + kept) == LinksAt(runs, fresh') + LinksAt(runs, kept);
    if rel.wheels == [] {
      ShipsNothing(runs, rel, os, |os|);
      assert fresh' + kept == os;
    } else {
      ListedAreNamed(runs, k - 1, os);
      NewAreNamed(rel);
      var a, b := NewLinks(rel), LinksAt(runs, os);
      FirstsOfJoined(a, b, |b|);
      OthersAreNotIn(runs, rel, os, |os|);
      PageReadsBack(cuda, LinksAt(runs, fresh' + kept));
    }
  }

  ghost function Listings(runs: seq<Release>): (listed: seq<Release>)
    ensures |listed| == |runs| && forall r | 0 <= r < |runs| :: listed[r] == Listing(runs[r])
  {
    seq(|runs|, r requires 0 <= r < |runs| => Listing(runs[r]))
  }

  lemma ListingIsProper(rel: Release)
    requires ProperRelease(rel)
    ensures ProperRelease(Listing(rel))
    ensures forall i, j | 0 <= i < j < |Listing(rel).wheels| ::
              StringLe(Listing(rel).wheels[i].name, Listing(rel).wheels[j].name)
  {
    hide SortBy, IsWheel, Plain, StringLe;
    var ws := Listing(rel).wheels;
    StringLeIsOrder();
    SortByIsStableSort(rel.wheels, NameOf, StringLe, []);
    SortByKeepsDifferent(rel.wheels, NameOf, StringLe);
    forall j | 0 <= j < |ws| ensures IsWheel(ws[j]) { SortByMember(rel.wheels, NameOf, StringLe, j); }
    forall i, j | 0 <= i < j < |ws| ensures ws[i].name != ws[j].name && StringLe(ws[i].name, ws[j].name) {
      assert NameOf(ws[i]) != NameOf(ws[j]) && StringLe(NameOf(ws[i]), NameOf(ws[j]));
    }
  }

  lemma {:induction false} PageOfListings(cuda: string, runs: seq<Release>, k: nat)
    requires k <= |runs| && Proper(Listings(runs)) && '\n' !in cuda
    ensures Lists(Listings(runs), k, Latest(Listings(runs), k))
    ensures AreOrigins(Listings(runs), |runs|, Latest(Listings(runs), k))
    ensures ReadLinks(PageAfter(cuda, runs, k)) == LinksAt(Listings(runs), Latest(Listings(runs), k))
  {
    hide Updated, Lists, Listing;
    var listed := Listings(runs);
    ListedAreNamed(listed, k, Latest(listed, k));
    if k > 0 {
      PageOfListings(cuda, runs, k - 1);
      PageStep(cuda, listed, k, Latest(listed, k - 1), PageAfter(cuda, runs, k - 1));
    }
  }

  /** Newer runs first, and within a run by name. */
  ghost predicate NewestFirst(runs: seq<Release>, os: seq<Origin>)
    requires AreOrigins(runs, |runs|, os)
  {
    forall i, j | 0 <= i < j < |os| ::
      || os[i].run > os[j].run
      || (os[i].run == os[j].run && StringLe(WheelAt(runs, os[i]).name, WheelAt(runs, os[j]).name))
  }

  /**
    After any sequence of runs, the page lists exactly the latest build of each wheel ever shipped,
    once each, with the link of the run that shipped it, newer runs first and each run by name.
   */
  lemma PageListsLatest(cuda: string, runs: seq<Release>, k: nat)
    requires k <= |runs| && Proper(runs) && '\n' !in cuda
    ensures var listed := Listings(runs);
            var os := Latest(listed, k);
            && Lists(listed, k, os) && AreOrigins(listed, |runs|, os) && NewestFirst(listed, os)
            && ReadLinks(PageAfter(cuda, runs, k)) == LinksAt(listed, os)
  {
    hide Updated, Listing, ProperRelease, Plain, PageAfter, ReadLinks, StringLe, LinksAt;
    var listed := Listings(runs);
    var os := Latest(listed, k);
    forall r | 0 <= r < |runs| ensures ProperRelease(listed[r]) { ListingIsProper(runs[r]); }
    PageOfListings(cuda, runs, k);
    forall i, j | 0 <= i < j < |os|
      ensures || os[i].run > os[j].run
              || (os[i].run == os[j].run && StringLe(WheelAt(listed, os[i]).name, WheelAt(listed, os[j]).name))
    {
      assert Before(os[i], os[j]) && IsOrigin(listed, |runs|, os[i]) && IsOrigin(listed, |runs|, os[j]);
      ListingIsProper(runs[os[i].run]);
    }
  }

  lemma {:induction false} SameListing(runs: seq<Release>, r: nat, name: string)
    requires r < |runs|
    ensures Ships(Listings(runs)[r], name) <==> Ships(runs[r], name)
  {
    hide SortBy;
    var ws, listed := runs[r].wheels, Listings(runs)[r].wheels;
    SortByKeepsAll(ws, NameOf, StringLe);
    forall w ensures w in ws <==> w in listed {
      assert w in multiset(ws) <==> w in multiset(listed);
    }
    if Ships(Listings(runs)[r], name) {
      var j :| 0 <= j < |listed| && listed[j].name == name;
      assert listed[j] in ws;
    }
    if Ships(runs[r], name) {
      var j :| 0 <= j < |ws| && ws[j].name == name;
      assert ws[j] in listed;
    }
  }

  lemma {:induction false} LatestOf(runs: seq<Release>, k: nat, o: Origin) returns (o': Origin)
    requires k <= |runs| && IsOrigin(runs, k, o)
    ensures IsOrigin(runs, k, o') && o'.run >= o.run && o' in Latest(runs, k)
    ensures WheelAt(runs, o').name == WheelAt(runs, o).name
    decreases k - o.run
  {
    if IsLatest(runs, k, o) {
      o' := o;
    } else {
      var r :| o.run < r < k && Ships(runs[r], WheelAt(runs, o).name);
      var j :| 0 <= j < |runs[r].wheels| && runs[r].wheels[j].name == WheelAt(runs, o).name;
      o' := LatestOf(runs, k, Origin(r, j));
    }
  }

  /** No wheel is lost: every name any run has shipped is on the page, in a build of that run or a later one. */
  lemma NothingIsLost(runs: seq<Release>, k: nat, r: nat, name: string) returns (o: Origin)
    requires r < k <= |runs| && Ships(runs[r], name)
    ensures o in Latest(Listings(runs), k) && o.run >= r
    ensures IsOrigin(Listings(runs), k, o) && WheelAt(Listings(runs), o).name == name
  {
    hide Latest;
    var listed := Listings(runs);
    SameListing(runs, r, name);
    var j: nat :| j < |listed[r].wheels| && listed[r].wheels[j].name == name;
    o := LatestOf(listed, k, Origin(r, j));
  }
}
