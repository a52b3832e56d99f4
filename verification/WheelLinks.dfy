/** Reading a wheel's link back: the release, the file and its hash. */
module WheelLinks {
  import opened Options
  import opened WheelIndex

  datatype Shipped = Shipped(tag: string, wheel: Wheel)

  /** What a link begins with, up to the tag. */
  const HEAD: string :=
    "<a href=" + "\"" + ("https://github.com/" + "sgl-project/whl/" + "releases/download") + "/"

  /** Where the text after the last c begins, or 0. */
  function AfterLast(s: string, c: char): (i: nat)
    ensures i <= |s| && (i > 0 ==> s[i - 1] == c) && forall k | i <= k < |s| :: s[k] != c
  {
    if s == [] then 0 else if s[|s| - 1] == c then |s| else AfterLast(s[..|s| - 1], c)
  }

  /** The tag, the name and the hash in an address behind the head. */
  function ReadUrl(url: string): (r: Option<Shipped>) {
    var h := AfterLast(url, '#');
    if h == 0 then None
    else
      var path, hash := url[..h - 1], url[h..];
      var n := AfterLast(path, '/');
      if n == 0 || !("sha256=" <= hash) then None
      else Some(Shipped(path[..n - 1], Wheel(path[n..], hash[7..])))
  }

  /** What follows the head: an address, and then the name once more. */
  function ReadRest(rest: string): (r: Option<Shipped>) {
    var n := Next(rest, '"', 0);
    var r := ReadUrl(rest[..n]);
    if r.Some? && rest[n..] == "\"" + (">" + r.value.wheel.name + "</a><br>") then r else None
  }

  function ReadLink(link: string): (r: Option<Shipped>) {
    if HEAD <= link then ReadRest(link[|HEAD|..]) else None
  }

  lemma {:induction false} LastIs(s: string, c: char, t: string)
    requires c !in t
    ensures AfterLast(s + [c] + t, c) == |s| + 1
  {
    var u, n := s + [c] + t, |t| - 1;
    if t != [] {
      assert u[|u| - 1] == t[n] && u[..|u| - 1] == s + [c] + t[..n];
      LastIs(s, c, t[..n]);
    }
  }

  lemma NextIs(s: string, c: char, t: string)
    requires c !in s
    ensures Next(s + [c] + t, c, 0) == |s|
  {
    hide Next;
    var u := s + [c] + t;
    assert u[|s|] == c;
    forall k | 0 <= k < |s| ensures u[k] != c { assert u[k] == s[k]; }
  }

  /** s is a, c and b, cut at c. */
  lemma Cut(a: string, c: char, b: string)
    ensures var s := a + [c] + b; s[..|a|] == a && s[|a| + 1..] == b && s[|a|..] == [c] + b
  {
  }

  lemma UrlIsPlain(tag: string, name: string, sha256: string)
    requires '"' !in tag && '"' !in name && '"' !in sha256 && '#' !in sha256
    ensures '"' !in tag + "/" + name + "#" + ("sha256=" + sha256) && '#' !in "sha256=" + sha256
  {
    assert '"' !in "sha256=" && '"' !in "/" && '"' !in "#" && '#' !in "sha256=";
  }

  lemma UrlReadsBack(tag: string, name: string, sha256: string)
    requires '/' !in name && '#' !in "sha256=" + sha256
    ensures ReadUrl(tag + "/" + name + "#" + ("sha256=" + sha256)) == Some(Shipped(tag, Wheel(name, sha256)))
  {
    hide AfterLast;
    var path, hash := tag + "/" + name, "sha256=" + sha256;
    LastIs(path, '#', hash);
    Cut(path, '#', hash);
    LastIs(tag, '/', name);
    Cut(tag, '/', name);
    assert hash[7..] == sha256;
  }

  lemma RestReadsBack(tag: string, name: string, sha256: string)
    requires '"' !in tag && '"' !in name && '"' !in sha256 && '/' !in name && '#' !in sha256
    ensures ReadRest(tag + "/" + name + "#" + ("sha256=" + sha256) + "\"" + (">" + name + "</a><br>"))
         == Some(Shipped(tag, Wheel(name, sha256)))
  {
    hide ReadUrl, Next;
    var url, more := tag + "/" + name + "#" + ("sha256=" + sha256), ">" + name + "</a><br>";
    UrlIsPlain(tag, name, sha256);
    UrlReadsBack(tag, name, sha256);
    NextIs(url, '"', more);
    Cut(url, '"', more);
  }

  lemma LinkParts(tag: string, w: Wheel)
    ensures var rest := tag + "/" + w.name + "#" + ("sha256=" + w.sha256) + "\"" + (">" + w.name + "</a><br>");
            LinkOf(tag, w) == HEAD + rest
  {
    var name, sha := w.name, w.sha256;
    var a := LINK_START + "\"" + BASE_URL + "/";
    var b := tag + "/" + name + "#sha256=" + sha;
    assert LINK_START + "\"" + UrlOf(tag, w) == a + b;
    assert "#sha256=" == "#" + "sha256=";
    assert b == tag + "/" + name + "#" + ("sha256=" + sha);
    assert "\">" == "\"" + ">";
    assert "\">" + name + "</a><br>" == "\"" + (">" + name + "</a><br>");
  }

  /** A release's tag, a wheel's name and its hash are read back from the link made for them. */
  lemma LinkReadsBack(tag: string, w: Wheel)
    requires '"' !in tag && '"' !in w.name && '"' !in w.sha256 && '/' !in w.name && '#' !in w.sha256
    ensures ReadLink(LinkOf(tag, w)) == Some(Shipped(tag, w))
  {
    hide LinkOf, ReadRest;
    LinkParts(tag, w);
    var rest := tag + "/" + w.name + "#" + ("sha256=" + w.sha256) + "\"" + (">" + w.name + "</a><br>");
    RestReadsBack(tag, w.name, w.sha256);
    assert (HEAD + rest)[|HEAD|..] == rest;
  }
}
