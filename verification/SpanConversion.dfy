/**
  The whole conversion: requests and spans are sorted by start, all requests are placed one after
  the other, and then the gateway's spans.
 */
module SpanConversion {
  import opened SpanContainer
  import opened SpanLayout
  import opened SpanShown
  import opened SpanOptimal
  import opened SpanGenerator
  import opened StableSort

  // ---------------------------------------------------------------- times

  /**
    A span's end is taken 1000 ns before the recorded one. Such spans are shown without overlap unless
    some span was recorded as exactly 1000 ns long.
   */
  lemma RecordedRunsAreSafe(requests: seq<seq<Job>>, recorded: seq<seq<Interval>>)
    requires |recorded| == |requests|
    requires forall q | 0 <= q < |requests| :: |recorded[q]| == |requests[q]|
    requires forall q, i | 0 <= q < |requests| && 0 <= i < |requests[q]| ::
               && requests[q][i].iv == Interval(recorded[q][i].start, recorded[q][i].end - 1000)
               && recorded[q][i].end - recorded[q][i].start != 1000
    ensures Safe(RunLayout(requests)) && Booked(RunLayout(requests)) && Ordered(RunLayout(requests))
    ensures !ShowsOverlap(requests)
  {
    hide RunLayout, CleanRun, ShowsOverlap, Safe, Booked, Ordered;
    OverlapShownIff(requests);
    NonZeroRunsAreSafe(requests);
    RunsAreBooked(requests, |requests|);
    assert RunLayout(requests) == AfterRequests(requests, |requests|).lay by { RunLayoutIs(requests); }
  }

  lemma RunLayoutIs(requests: seq<seq<Job>>)
    ensures RunLayout(requests) == AfterRequests(requests, |requests|).lay
  {
  }

  // ---------------------------------------------------------------- the whole conversion

  function ByStart(spans: seq<Span>): (out: seq<Span>) {
    SortBy(spans, StartOf, IntLe)
  }

  /** The spans of every request in start order. */
  function EachSorted(engine: seq<seq<Span>>): (out: seq<seq<Span>>)
    ensures |out| == |engine|
  {
    seq(|engine|, q requires 0 <= q < |engine| => ByStart(engine[q]))
  }

  function FirstStart(spans: seq<Span>): (t: int) {
    if spans == [] then 0 else StartOf(spans[0])
  }

  /** Requests in the order of their first span, each with its spans in start order. */
  function RequestOrder(engine: seq<seq<Span>>): (out: seq<seq<Span>>) {
    SortBy(EachSorted(engine), FirstStart, IntLe)
  }

  function JobLists(requests: seq<seq<Span>>): (jobs: seq<seq<Job>>)
    ensures |jobs| == |requests| && forall q | 0 <= q < |requests| :: jobs[q] == JobsOf(requests[q])
  {
    seq(|requests|, q requires 0 <= q < |requests| => JobsOf(requests[q]))
  }

  ghost function AllNodes(requests: seq<seq<Span>>): (s: set<Span>) {
    set q, d | 0 <= q < |requests| && d in Nodes(requests[q]) :: d
  }

  /** No node belongs to two spans, whichever requests they are in: home gives request and span of a node. */
  ghost predicate Forests(requests: seq<seq<Span>>, home: map<Span, (int, int)>) {
    && (forall q, i | 0 <= q < |requests| && 0 <= i < |requests[q]| :: requests[q][i].IsTree())
    && forall q, i, d | 0 <= q < |requests| && 0 <= i < |requests[q]| && d in requests[q][i].subtree ::
         d in home && home[d] == (q, i)
  }

  lemma NodeHome(requests: seq<seq<Span>>, home: map<Span, (int, int)>, q: nat, d: Span)
    requires Forests(requests, home) && q < |requests| && d in Nodes(requests[q])
    ensures d in AllNodes(requests) && d in home && home[d].0 == q
  {
  }

  lemma ForestOf(requests: seq<seq<Span>>, home: map<Span, (int, int)>, q: nat) returns (inner: map<Span, int>)
    requires Forests(requests, home) && q < |requests|
    ensures Forest(requests[q], inner)
    ensures Nodes(requests[q]) <= AllNodes(requests)
    ensures forall d | d in Nodes(requests[q]) :: d in home && home[d].0 == q
  {
    hide Nodes, AllNodes;
    inner := map d | d in home :: home[d].1;
    forall d | d in Nodes(requests[q]) ensures d in AllNodes(requests) && d in home && home[d].0 == q {
      NodeHome(requests, home, q, d);
    }
  }

  lemma RequestsStep(requests: seq<seq<Job>>, k: nat)
    requires k < |requests|
    ensures var before := AfterRequests(requests, k);
            var r := After(before.lay, map[], requests[k], |requests[k]|);
            AfterRequests(requests, k + 1) == RunOutcome(r.lay, before.lines + [r.lines])
  {
    hide After;
  }

  /** All engine requests, one after the other. */
  method PlaceRequests(g: Graph, requests: seq<seq<Span>>, ghost home: map<Span, (int, int)>)
    requires g.Valid() && g.view == EMPTY && Forests(requests, home)
    modifies g, g.owner.Keys, AllNodes(requests)`tid
    ensures g.Valid() && fresh(g.owner.Keys - old(g.owner.Keys))
    ensures g.view == RunLayout(JobLists(requests))
    ensures forall q | 0 <= q < |requests| :: Tagged(requests[q], RunLines(JobLists(requests))[q])
  {
    hide After, AfterRequests, Graph.Valid, Nodes, AllNodes, Forest, Forests;
    ghost var jobs := JobLists(requests);
    ghost var r := AfterRequests(jobs, 0);
    RequestsNone(jobs);
    for k := 0 to |requests|
      invariant g.Valid() && fresh(g.owner.Keys - old(g.owner.Keys))
      invariant r == AfterRequests(jobs, k) && g.view == r.lay
      invariant forall q | 0 <= q < k :: Tagged(requests[q], r.lines[q])
    {
      ghost var inner := ForestOf(requests, home, k);
      RequestsStep(jobs, k);
      g.PlaceRequest(requests[k], inner);
      r := AfterRequests(jobs, k + 1);
      forall q | 0 <= q < k ensures Tagged(requests[q], r.lines[q]) {
        ghost var _ := ForestOf(requests, home, q);
      }
    }
  }

  lemma RequestsNone(requests: seq<seq<Job>>)
    ensures AfterRequests(requests, 0) == RunOutcome(EMPTY, [])
  {
  }

  /** Everything in the order it is placed: engine requests, then the gateway's spans in start order. */
  function PlacingOrder(engine: seq<seq<Span>>, smg: seq<Span>): (order: seq<seq<Span>>)
    ensures |order| == |RequestOrder(engine)| + 1
  {
    RequestOrder(engine) + [ByStart(smg)]
  }

  lemma GatewayHome(order: seq<seq<Span>>, home: map<Span, (int, int)>, n: nat, i: nat)
    requires Forests(order, home) && n + 1 == |order| && i < |order[n]|
    ensures order[n][i] in AllNodes(order) && order[n][i] in home && home[order[n][i]] == (n, i)
  {
    order[n][i].SelfInSubtree();
    assert order[n][i] in Nodes(order[n]);
  }

  lemma EngineForests(order: seq<seq<Span>>, home: map<Span, (int, int)>, n: nat)
    requires Forests(order, home) && n <= |order|
    ensures Forests(order[..n], home)
    ensures AllNodes(order[..n]) <= AllNodes(order)
  {
    forall d | d in AllNodes(order[..n]) ensures d in AllNodes(order) {
      var q :| 0 <= q < n && d in Nodes(order[..n][q]);
      assert d in Nodes(order[q]);
    }
  }

  /** The gateway's spans are no node of an engine span, and differ from one another. */
  lemma GatewayApart(order: seq<seq<Span>>, home: map<Span, (int, int)>, n: nat)
    requires Forests(order, home) && n + 1 == |order|
    ensures forall i | 0 <= i < |order[n]| :: order[n][i] in AllNodes(order)
    ensures forall i, j | 0 <= i < j < |order[n]| :: order[n][i] != order[n][j]
    ensures forall q, d | 0 <= q < n && d in Nodes(order[q]) :: d in home && d !in order[n]
  {
    hide AllNodes, Forests;
    forall i | 0 <= i < |order[n]|
      ensures order[n][i] in AllNodes(order) && order[n][i] in home && home[order[n][i]] == (n, i)
    {
      GatewayHome(order, home, n, i);
    }
    forall q | 0 <= q < n ensures forall d | d in Nodes(order[q]) :: d in home && home[d].0 == q {
      var _ := ForestOf(order, home, q);
    }
  }

  /** Are lone spans tagged, their subtrees are. */
  lemma LoneSpansTagged(spans: seq<Span>, lines: seq<nat>)
    requires |lines| == |spans|
    requires forall i | 0 <= i < |spans| :: spans[i].IsTree() && spans[i].child == [] && spans[i].tid == lines[i]
    ensures Tagged(spans, lines)
  {
  }

  lemma {:induction false} SamePrefixLists(order: seq<seq<Span>>, n: nat, k: nat)
    requires k <= n <= |order|
    ensures AfterRequests(JobLists(order), k) == AfterRequests(JobLists(order[..n]), k)
  {
    hide After;
    if k > 0 { SamePrefixLists(order, n, k - 1); }
  }

  // ---------------------------------------------------------------- sorting keeps the trees apart

  /** There is a span at this position. */
  ghost predicate Has(requests: seq<seq<Span>>, q: int, i: int) {
    0 <= q < |requests| && 0 <= i < |requests[q]|
  }

  /** The spans are trees, and no node belongs to two of them, whichever requests they are in. */
  ghost predicate Separate(requests: seq<seq<Span>>) {
    && (forall q, i | 0 <= q < |requests| && 0 <= i < |requests[q]| :: requests[q][i].IsTree())
    && forall q, i, p, j | Has(requests, q, i) && Has(requests, p, j) ::
         (q, i) != (p, j) ==> requests[q][i].subtree !! requests[p][j].subtree
  }

  /** All spans of all requests. */
  ghost function Flat(requests: seq<seq<Span>>): (m: multiset<Span>) {
    if requests == [] then multiset{} else Flat(requests[..|requests| - 1]) + multiset(requests[|requests| - 1])
  }

  ghost predicate IsAt(requests: seq<seq<Span>>, q: int, i: int, s: Span) {
    0 <= q < |requests| && 0 <= i < |requests[q]| && requests[q][i] == s
  }

  lemma {:induction false} FlatHas(requests: seq<seq<Span>>, q: int, i: int, s: Span)
    requires IsAt(requests, q, i, s)
    ensures s in Flat(requests)
  {
    var n := |requests| - 1;
    if q < n { FlatHas(requests[..n], q, i, s); }
  }

  lemma {:induction false} FlatFind(requests: seq<seq<Span>>, s: Span) returns (q: int, i: int)
    requires s in Flat(requests)
    ensures IsAt(requests, q, i, s)
  {
    var n := |requests| - 1;
    if s in requests[n] {
      q := n;
      i :| 0 <= i < |requests[n]| && requests[n][i] == s;
    } else {
      q, i := FlatFind(requests[..n], s);
    }
  }

  lemma CountedTwice(spans: seq<Span>, i: int, j: int, s: Span)
    requires 0 <= i < j < |spans| && spans[i] == spans[j] == s
    ensures multiset(spans)[s] >= 2
  {
    assert spans == spans[..j] + spans[j..];
    assert spans[..j][i] == s && spans[j..][0] == s;
    assert s in multiset(spans[..j]) && s in multiset(spans[j..]);
  }

  /** A span in two positions is counted twice. */
  lemma {:induction false} FlatTwice(requests: seq<seq<Span>>, q: int, i: int, p: int, j: int, s: Span)
    requires IsAt(requests, q, i, s) && IsAt(requests, p, j, s) && (q, i) != (p, j)
    ensures Flat(requests)[s] >= 2
  {
    var n := |requests| - 1;
    var front := requests[..n];
    if q < n && p < n {
      FlatTwice(front, q, i, p, j, s);
    } else if q < n {
      FlatHas(front, q, i, s);
    } else if p < n {
      FlatHas(front, p, j, s);
    } else {
      CountedTwice(requests[n], if i < j then i else j, if i < j then j else i, s);
    }
  }

  lemma {:induction false} CountedOnce(spans: seq<Span>, s: Span)
    requires forall i, j | 0 <= i < j < |spans| :: spans[i] != spans[j]
    ensures multiset(spans)[s] <= 1
  {
    if spans != [] {
      var n := |spans| - 1;
      CountedOnce(spans[..n], s);
      assert spans == spans[..n] + [spans[n]];
      if spans[n] == s { assert s !in spans[..n]; }
    }
  }

  /** No span is in two positions. */
  ghost predicate Different(requests: seq<seq<Span>>) {
    forall q, i, p, j | Has(requests, q, i) && Has(requests, p, j) && requests[q][i] == requests[p][j] ::
      q == p && i == j
  }

  lemma {:induction false} FlatOnce(requests: seq<seq<Span>>, s: Span)
    requires Different(requests)
    ensures Flat(requests)[s] <= 1
  {
    if requests != [] {
      var n := |requests| - 1;
      var front, last := requests[..n], requests[n];
      forall q, i, p, j | Has(front, q, i) && Has(front, p, j) && front[q][i] == front[p][j] ensures q == p && i == j {
        assert Has(requests, q, i) && Has(requests, p, j);
      }
      FlatOnce(front, s);
      forall i, j | 0 <= i < j < |last| ensures last[i] != last[j] {
        assert Has(requests, n, i) && Has(requests, n, j);
      }
      CountedOnce(last, s);
      if s in last && s in Flat(front) {
        var q, i := FlatFind(front, s);
        var j :| 0 <= j < |last| && last[j] == s;
        assert Has(requests, q, i) && Has(requests, n, j);
      }
    }
  }

  lemma {:induction false} FlatInserted(ys: seq<seq<Span>>, x: seq<Span>, key: seq<Span> -> int)
    ensures Flat(InsertBy(ys, x, key, IntLe)) == Flat(ys) + multiset(x)
  {
    if ys == [] || IntLe(key(ys[|ys| - 1]), key(x)) {
      assert (ys + [x])[..|ys|] == ys;
    } else {
      var n := |ys| - 1;
      var zs := InsertBy(ys[..n], x, key, IntLe);
      FlatInserted(ys[..n], x, key);
      assert (zs + [ys[n]])[..|zs|] == zs;
    }
  }

  lemma {:induction false} FlatSorted(xs: seq<seq<Span>>, key: seq<Span> -> int)
    ensures Flat(SortBy(xs, key, IntLe)) == Flat(xs)
  {
    if xs != [] {
      var n := |xs| - 1;
      FlatSorted(xs[..n], key);
      FlatInserted(SortBy(xs[..n], key, IntLe), xs[n], key);
    }
  }

  lemma {:induction false} FlatEachSorted(engine: seq<seq<Span>>)
    ensures Flat(EachSorted(engine)) == Flat(engine)
  {
    if engine != [] {
      var n := |engine| - 1;
      FlatEachSorted(engine[..n]);
      assert EachSorted(engine)[..n] == EachSorted(engine[..n]);
      SortByKeepsAll(engine[n], StartOf, IntLe);
    }
  }

  /** The order of placing holds the spans given, no more and no fewer. */
  lemma FlatPlacing(engine: seq<seq<Span>>, smg: seq<Span>)
    ensures Flat(PlacingOrder(engine, smg)) == Flat(engine + [smg])
  {
    hide SortBy;
    var order := PlacingOrder(engine, smg);
    FlatEachSorted(engine);
    FlatSorted(EachSorted(engine), FirstStart);
    assert order[..|order| - 1] == RequestOrder(engine) && (engine + [smg])[..|engine|] == engine;
    SortByKeepsAll(smg, StartOf, IntLe);
  }

  lemma SeparateIsDifferent(requests: seq<seq<Span>>)
    requires Separate(requests)
    ensures Different(requests)
  {
    forall q, i, p, j | Has(requests, q, i) && Has(requests, p, j) && requests[q][i] == requests[p][j]
      ensures q == p && i == j
    {
      requests[q][i].SelfInSubtree();
    }
  }

  /** Rearranging keeps trees apart. */
  lemma SeparateRearranged(requests: seq<seq<Span>>, order: seq<seq<Span>>)
    requires Separate(requests) && Flat(order) == Flat(requests)
    ensures Separate(order)
  {
    hide Flat, Span.IsTree;
    forall q, i | 0 <= q < |order| && 0 <= i < |order[q]| ensures order[q][i].IsTree() {
      FlatHas(order, q, i, order[q][i]);
      var p, j := FlatFind(requests, order[q][i]);
    }
    SeparateIsDifferent(requests);
    forall q, i, p, j | Has(order, q, i) && Has(order, p, j) && (q, i) != (p, j)
      ensures order[q][i].subtree !! order[p][j].subtree
    {
      RearrangedApart(requests, order, q, i, p, j);
    }
  }

  lemma RearrangedApart(requests: seq<seq<Span>>, order: seq<seq<Span>>, q: int, i: int, p: int, j: int)
    requires Separate(requests) && Different(requests) && Flat(order) == Flat(requests)
    requires Has(order, q, i) && Has(order, p, j) && (q, i) != (p, j)
    ensures order[q][i].subtree !! order[p][j].subtree
  {
    hide Flat, Span.IsTree, Different;
    var a, b := order[q][i], order[p][j];
    FlatHas(order, q, i, a);
    FlatHas(order, p, j, b);
    FlatOnce(requests, a);
    if a == b { FlatTwice(order, q, i, p, j, a); }
    var q', i' := FlatFind(requests, a);
    var p', j' := FlatFind(requests, b);
    assert requests[q'][i'].subtree !! requests[p'][j'].subtree;
  }

  /** Whose node it is. */
  ghost predicate NodeAt(requests: seq<seq<Span>>, d: Span, q: int, i: int) {
    0 <= q < |requests| && 0 <= i < |requests[q]| && d in requests[q][i].subtree
  }

  ghost function HomeIn(requests: seq<seq<Span>>, d: Span): (at: (int, int))
    requires exists q, i :: NodeAt(requests, d, q, i)
    ensures NodeAt(requests, d, at.0, at.1)
  {
    var q, i :| NodeAt(requests, d, q, i);
    (q, i)
  }

  lemma NodeIsAt(requests: seq<seq<Span>>, d: Span)
    ensures d in AllNodes(requests) <==> exists q, i :: NodeAt(requests, d, q, i)
  {
    if d in AllNodes(requests) {
      var q :| 0 <= q < |requests| && d in Nodes(requests[q]);
      var i :| 0 <= i < |requests[q]| && d in requests[q][i].subtree;
      assert NodeAt(requests, d, q, i);
    }
    if q, i :| NodeAt(requests, d, q, i) { assert d in Nodes(requests[q]); }
  }

  /** Trees that are apart give every node its span. */
  lemma HomeOf(requests: seq<seq<Span>>) returns (home: map<Span, (int, int)>)
    requires Separate(requests)
    ensures Forests(requests, home)
  {
    hide AllNodes, Span.IsTree;
    forall d | d in AllNodes(requests) ensures exists q, i :: NodeAt(requests, d, q, i) { NodeIsAt(requests, d); }
    home := map d | d in AllNodes(requests) :: HomeIn(requests, d);
    forall q, i, d | 0 <= q < |requests| && 0 <= i < |requests[q]| && d in requests[q][i].subtree
      ensures d in home && home[d] == (q, i)
    {
      assert NodeAt(requests, d, q, i);
      NodeIsAt(requests, d);
      assert NodeAt(requests, d, home[d].0, home[d].1);
      assert Has(requests, q, i) && Has(requests, home[d].0, home[d].1);
    }
  }

  lemma SameNodes(requests: seq<seq<Span>>, order: seq<seq<Span>>)
    requires Flat(order) == Flat(requests)
    ensures AllNodes(order) <= AllNodes(requests)
  {
    hide AllNodes, Flat;
    forall d | d in AllNodes(order) ensures d in AllNodes(requests) {
      NodeIsAt(order, d);
      var q, i :| NodeAt(order, d, q, i);
      FlatHas(order, q, i, order[q][i]);
      var p, j := FlatFind(requests, order[q][i]);
      assert NodeAt(requests, d, p, j);
      NodeIsAt(requests, d);
    }
  }

  // ---------------------------------------------------------------- the conversion

  /**
    The conversion: lines and slot rows are those of the run over all requests and then the
    gateway, and every span's whole subtree carries the line the span is stored on.
   */
  method GenerateLayout(engine: seq<seq<Span>>, smg: seq<Span>) returns (g: Graph)
    requires forall q | 0 <= q < |engine| :: engine[q] != []
    requires Separate(engine + [smg])
    requires forall i | 0 <= i < |smg| :: smg[i].child == []
    modifies AllNodes(engine + [smg])`tid
    ensures fresh(g) && g.Valid()
    ensures g.view == RunLayout(JobLists(PlacingOrder(engine, smg)))
    ensures forall q | 0 <= q < |PlacingOrder(engine, smg)| ::
              Tagged(PlacingOrder(engine, smg)[q], RunLines(JobLists(PlacingOrder(engine, smg)))[q])
  {
    hide *;
    ghost var order := PlacingOrder(engine, smg);
    FlatPlacing(engine, smg);
    SeparateRearranged(engine + [smg], order);
    SameNodes(engine + [smg], order);
    ghost var home := HomeOf(order);
    LoneGateway(engine, smg);
    g := PlaceAll(engine, smg, home);
  }

  lemma LoneGateway(engine: seq<seq<Span>>, smg: seq<Span>)
    requires forall i | 0 <= i < |smg| :: smg[i].child == []
    ensures forall i | 0 <= i < |ByStart(smg)| :: ByStart(smg)[i].child == []
  {
    hide SortBy;
    forall i | 0 <= i < |ByStart(smg)| ensures ByStart(smg)[i].child == [] { SortByMember(smg, StartOf, IntLe, i); }
  }

  /** The same, given the span of every node. */
  method PlaceAll(engine: seq<seq<Span>>, smg: seq<Span>, ghost home: map<Span, (int, int)>) returns (g: Graph)
    requires Forests(PlacingOrder(engine, smg), home)
    requires forall i | 0 <= i < |ByStart(smg)| :: ByStart(smg)[i].child == []
    modifies AllNodes(PlacingOrder(engine, smg))`tid
    ensures fresh(g) && g.Valid()
    ensures g.view == RunLayout(JobLists(PlacingOrder(engine, smg)))
    ensures forall q | 0 <= q < |PlacingOrder(engine, smg)| ::
              Tagged(PlacingOrder(engine, smg)[q], RunLines(JobLists(PlacingOrder(engine, smg)))[q])
  {
    hide After, AfterRequests, Graph.Valid, Nodes, AllNodes, Forests, SortBy;
    ghost var order := PlacingOrder(engine, smg);
    var requests := RequestOrder(engine);
    var gateway := ByStart(smg);
    ghost var n := |requests|;
    assert order[..n] == requests && order[n] == gateway;
    GatewayApart(order, home, n);
    EngineForests(order, home, n);
    g := new Graph();
    PlaceRequests(g, requests, home);
    SamePrefixLists(order, n, n);
    RequestsStep(JobLists(order), n);
    ghost var lines := RunLines(JobLists(order));
    assert forall q | 0 <= q < n :: lines[q] == RunLines(JobLists(requests))[q];
    assert forall q | 0 <= q < n :: Tagged(order[q], lines[q]);
    label engine:
    g.PlaceGateway(gateway);
    assert forall d | d in home.Keys && d !in gateway :: d.tid == old@engine(d.tid);
    forall q | 0 <= q < n ensures Tagged(order[q], lines[q]) {
      assert old@engine(Tagged(order[q], lines[q]));
      forall i, d | 0 <= i < |order[q]| && d in order[q][i].subtree ensures d.tid == lines[q][i] {
        NodesOf(order[q], i);
        assert d in home.Keys && d !in gateway;
      }
    }
    TreesOf(order, home, n);
    LoneSpansTagged(gateway, lines[n]);
  }

  lemma TreesOf(order: seq<seq<Span>>, home: map<Span, (int, int)>, n: nat)
    requires Forests(order, home) && n < |order|
    ensures forall i | 0 <= i < |order[n]| :: order[n][i].IsTree()
  {
  }

  /** One list holds the spans of the other, in order of start, and those that start together in the order they had. */
  ghost predicate InStartOrder(sorted: seq<Span>, spans: seq<Span>) {
    && multiset(sorted) == multiset(spans)
    && (forall i, j | 0 <= i < j < |sorted| :: sorted[i].iv.start <= sorted[j].iv.start)
    && forall t: int :: WithKey(sorted, StartOf, t) == WithKey(spans, StartOf, t)
  }

  lemma ByStartIsInOrder(spans: seq<Span>)
    ensures InStartOrder(ByStart(spans), spans)
  {
    hide SortBy, WithKey;
    SortByIsStableSort(spans, StartOf, IntLe, 0);
    var out := ByStart(spans);
    forall i, j | 0 <= i < j < |out| ensures out[i].iv.start <= out[j].iv.start {
      assert IntLe(StartOf(out[i]), StartOf(out[j]));
    }
    forall t: int ensures WithKey(out, StartOf, t) == WithKey(spans, StartOf, t) {
      SortByIsStableSort(spans, StartOf, IntLe, t);
    }
  }

  /**
    Engine requests are placed in order of their first start, each with its spans in order of start:
    the order of placing is a rearrangement of the requests so sorted.
   */
  lemma EngineInOrder(engine: seq<seq<Span>>)
    requires forall q | 0 <= q < |engine| :: engine[q] != []
    ensures |EachSorted(engine)| == |engine|
    ensures forall q | 0 <= q < |engine| :: InStartOrder(EachSorted(engine)[q], engine[q])
    ensures multiset(RequestOrder(engine)) == multiset(EachSorted(engine))
    ensures forall q | 0 <= q < |RequestOrder(engine)| :: RequestOrder(engine)[q] != []
    ensures forall q, p | 0 <= q < p < |RequestOrder(engine)| ::
              RequestOrder(engine)[q][0].iv.start <= RequestOrder(engine)[p][0].iv.start
  {
    hide SortBy, WithKey, InStartOrder;
    var each, order: seq<seq<Span>> := EachSorted(engine), RequestOrder(engine);
    forall q | 0 <= q < |engine| ensures InStartOrder(each[q], engine[q]) && each[q] != [] {
      ByStartIsInOrder(engine[q]);
      SortByKeepsAll(engine[q], StartOf, IntLe);
    }
    SortByIsStableSort(each, FirstStart, IntLe, 0);
    forall q | 0 <= q < |order| ensures order[q] != [] {
      SortByMember(each, FirstStart, IntLe, q);
    }
    forall q, p | 0 <= q < p < |order| ensures order[q][0].iv.start <= order[p][0].iv.start {
      assert IntLe(FirstStart(order[q]), FirstStart(order[p]));
    }
  }

  lemma GatewayInStartOrder(smg: seq<Span>, pid: Pid)
    requires forall i | 0 <= i < |smg| :: smg[i].pid == pid && smg[i].iv.start < smg[i].iv.end
    ensures StartOrder(JobsOf(ByStart(smg))) && OnePid(JobsOf(ByStart(smg)), pid)
  {
    var out := ByStart(smg);
    hide SortBy, WithKey;
    SortByIsStableSort(smg, StartOf, IntLe, 0);
    forall i | 0 <= i < |out| ensures out[i].pid == pid && out[i].iv.start < out[i].iv.end {
      SortByMember(smg, StartOf, IntLe, i);
    }
    forall i, j | 0 <= i < j < |out| ensures out[i].iv.start <= out[j].iv.start {
      assert IntLe(StartOf(out[i]), StartOf(out[j]));
    }
  }

  lemma EngineStaysEngine(engine: seq<seq<Span>>)
    requires forall q, i | 0 <= q < |engine| && 0 <= i < |engine[q]| :: engine[q][i].pid.Engine?
    ensures forall q, i | 0 <= q < |RequestOrder(engine)| && 0 <= i < |RequestOrder(engine)[q]| ::
              RequestOrder(engine)[q][i].pid.Engine?
  {
    hide SortBy, Flat;
    var order: seq<seq<Span>> := RequestOrder(engine);
    FlatEachSorted(engine);
    FlatSorted(EachSorted(engine), FirstStart);
    forall q, i | 0 <= q < |order| && 0 <= i < |order[q]| ensures order[q][i].pid.Engine? {
      FlatHas(order, q, i, order[q][i]);
      var p, j := FlatFind(engine, order[q][i]);
    }
  }

  /**
    The conversion shows the gateway on as few lines as possible: as many as spans of it are alive
    at one instant at most, and no overlap-free layout of them uses fewer.
   */
  lemma ConversionIsOptimal(engine: seq<seq<Span>>, smg: seq<Span>)
    requires forall q, i | 0 <= q < |engine| && 0 <= i < |engine[q]| :: engine[q][i].pid.Engine?
    requires forall i | 0 <= i < |smg| :: smg[i].pid == Smg && smg[i].iv.start < smg[i].iv.end
    ensures Optimal(JobsOf(ByStart(smg)), LineCount(RunLayout(JobLists(PlacingOrder(engine, smg))), Smg))
  {
    hide After, AfterRequests, Optimal, CleanRequests, SortBy;
    var requests, jobs := JobLists(RequestOrder(engine)), JobsOf(ByStart(smg));
    EngineStaysEngine(engine);
    GatewayInStartOrder(smg, Smg);
    GatewayLayoutIsOptimal(requests, jobs);
    assert JobLists(PlacingOrder(engine, smg)) == requests + [jobs];
  }
}
