/**
  The objects behind SpanLayout: containers on the heap and span trees whose line numbers are set
  in place. Every method is proved equal to SpanLayout's functions.
 */
module SpanGenerator {
  import opened SpanContainer
  import opened SpanLayout

  // ---------------------------------------------------------------- span trees

  class Span {
    const pid: Pid
    const iv: Interval
    const child: seq<Span>
    /** The span and everything below it. */
    ghost const subtree: set<Span>
    var tid: nat

    constructor (pid: Pid, iv: Interval, child: seq<Span>)
      requires forall c | c in child :: c.IsTree()
      ensures this.pid == pid && this.iv == iv && this.child == child && tid == 0
      ensures IsTree()
    {
      this.pid, this.iv, this.child, tid := pid, iv, child, 0;
      subtree := {this} + set c, d | c in child && d in c.subtree :: d;
      new;
      assert forall c | c in child :: this !in c.subtree;
    }

    ghost predicate IsTree()
      decreases subtree
    {
      && this in subtree
      && (forall c | c in child :: this !in c.subtree && c.subtree < subtree && c.IsTree())
      && forall d | d in subtree :: d == this || exists c :: c in child && d in c.subtree
    }

    lemma SelfInSubtree()
      requires IsTree()
      ensures this in subtree
    {
    }

    lemma ChildIsTree(i: nat)
      requires IsTree() && i < |child|
      ensures child[i].subtree < subtree && child[i].IsTree()
    {
    }

    lemma Covered(done: set<Span>)
      requires IsTree() && this in done
      requires forall j | 0 <= j < |child| :: child[j].subtree <= done
      ensures subtree <= done
    {
      forall d | d in subtree ensures d in done {
        if d != this {
          var c :| c in child && d in c.subtree;
        }
      }
    }

    /** The whole subtree gets the line; nothing else changes. */
    method SetTid(line: nat)
      requires IsTree()
      modifies subtree`tid
      ensures forall d | d in subtree :: d.tid == line
      decreases subtree
    {
      hide IsTree;
      SelfInSubtree();
      tid := line;
      ghost var done := {this};
      for i := 0 to |child|
        invariant forall d | d in done :: d.tid == line
        invariant this in done && forall j | 0 <= j < i :: child[j].subtree <= done
      {
        ChildIsTree(i);
        child[i].SetTid(line);
        done := done + child[i].subtree;
      }
      Covered(done);
    }
  }

  function JobOf(span: Span): (job: Job) {
    Job(span.pid, span.iv)
  }

  function JobsOf(spans: seq<Span>): (jobs: seq<Job>)
    ensures |jobs| == |spans| && forall i | 0 <= i < |spans| :: jobs[i] == JobOf(spans[i])
  {
    seq(|spans|, i requires 0 <= i < |spans| => JobOf(spans[i]))
  }

  function StartOf(span: Span): (t: int) {
    span.iv.start
  }

  // ---------------------------------------------------------------- containers on the heap

  type Lines = map<Pid, seq<SpanLayoutContainer>>
  type Owner = map<SpanLayoutContainer, (Pid, int)>

  ghost predicate HasLine(lines: Lines, p: Pid, i: int) {
    p in lines && 0 <= i < |lines[p]|
  }

  /** The container serves this line alone and holds what the view says. */
  ghost predicate Serves(lines: Lines, owner: Owner, view: Layout, p: Pid, i: int)
    requires HasLine(lines, p, i)
    reads owner.Keys
  {
    && lines[p][i] in owner && owner[lines[p][i]] == (p, i)
    && p in view.graph && i < |view.graph[p]| && lines[p][i].intervals == view.graph[p][i]
  }

  /** Lines and containers agree with the view. */
  ghost predicate Agree(lines: Lines, owner: Owner, view: Layout)
    reads owner.Keys
  {
    && lines.Keys == view.graph.Keys
    && (forall p | p in lines :: |lines[p]| == |view.graph[p]|)
    && (forall p, i | HasLine(lines, p, i) :: Serves(lines, owner, view, p, i))
  }

  lemma OrderedAt(view: Layout, p: Pid, i: nat)
    requires Ordered(view) && p in view.graph && i < |view.graph[p]|
    ensures Sorted(view.graph[p][i])
  {
  }

  lemma AgreeOnCount(lines: Lines, owner: Owner, view: Layout, pid: Pid)
    requires Agree(lines, owner, view)
    ensures pid in lines <==> pid in view.graph
    ensures pid in lines ==> |lines[pid]| == |view.graph[pid]|
  {
  }

  /** A new line with an empty container of its own keeps the agreement. */
  lemma OpenedAgrees(lines: Lines, owner: Owner, view: Layout, c: SpanLayoutContainer, status: Status, pid: Pid)
    requires Agree(lines, owner, view) && c !in owner && c.intervals == []
    ensures var cs := if pid in lines then lines[pid] else [];
            Agree(lines[pid := cs + [c]], owner[c := (pid, |cs|)], OpenLine(view, status, pid).lay)
  {
    hide OpenLine;
    OpenLineAdds(view, status, pid);
    var cs := if pid in lines then lines[pid] else [];
    var lines', owner', view' := lines[pid := cs + [c]], owner[c := (pid, |cs|)], OpenLine(view, status, pid).lay;
    forall p, i | HasLine(lines', p, i) ensures Serves(lines', owner', view', p, i) {
      if p != pid || i != |cs| {
        assert HasLine(lines, p, i) && Serves(lines, owner, view, p, i);
      }
    }
  }

  class Graph {
    var lines: Lines
    var slots: seq<Slot>
    /** The layout as a value. */
    ghost var view: Layout
    /** Which line a container serves. */
    ghost var owner: Owner

    constructor ()
      ensures Valid() && view == EMPTY && fresh(owner.Keys)
    {
      lines, slots, view, owner := map[], [], EMPTY, map[];
    }

    ghost predicate Has(p: Pid, i: int)
      reads this
    {
      HasLine(lines, p, i)
    }

    ghost predicate Kept(p: Pid, i: int)
      requires Has(p, i)
      reads this, owner.Keys
    {
      Serves(lines, owner, view, p, i)
    }

    /** Lines, slot rows and containers agree with the view, and every line is in order. */
    ghost predicate Valid()
      reads this, owner.Keys
    {
      slots == view.slots && Agree(lines, owner, view) && Ordered(view)
    }

    method Open(status: Status, pid: Pid) returns (line: nat, status': Status)
      requires Valid()
      modifies this
      ensures Valid() && fresh(owner.Keys - old(owner.Keys))
      ensures Found(line, view, status') == OpenLine(old(view), status, pid)
    {
      hide Ordered, OpenLine, Agree;
      OpenLineKeepsOrdered(view, status, pid);
      OpenLineAdds(view, status, pid);
      var cs := if pid in lines then lines[pid] else [];
      line := |cs| + 1;
      AgreeOnCount(lines, owner, view, pid);
      var c := new SpanLayoutContainer();
      OpenedAgrees(lines, owner, view, c, status, pid);
      lines := lines[pid := cs + [c]];
      status' := status[pid := line];
      slots := slots + [Slot(pid, line)];
      view := OpenLine(view, status, pid).lay;
      owner := owner[c := (pid, line - 1)];
    }

    /** The scan over a pid's lines, in the order they were opened. */
    method Scan(pid: Pid, iv: Interval) returns (i: nat)
      requires Valid() && pid in lines
      ensures i == FirstFree(view.graph[pid], iv, 0)
    {
      hide Conflicts, Sorted;
      i := 0;
      while i < |lines[pid]|
        invariant i <= |lines[pid]| && FirstFree(view.graph[pid], iv, 0) == FirstFree(view.graph[pid], iv, i)
      {
        assert Has(pid, i) && Kept(pid, i);
        var conflict := lines[pid][i].CheckOverlap(iv.start, iv.end);
        if !conflict { return; }
        i := i + 1;
      }
    }

    /** May the span stay on the line its request used last? */
    method Keeps(status: Status, job: Job) returns (yes: bool)
      requires Valid() && KnownStatus(view, status)
      ensures yes == Sticks(view, status, job)
    {
      hide Conflicts, Sorted;
      if job.pid !in status { return false; }
      var line := status[job.pid];
      assert Has(job.pid, line - 1) && Kept(job.pid, line - 1);
      if job.iv.start == job.iv.end { return true; }
      var conflict := lines[job.pid][line - 1].CheckOverlap(job.iv.start, job.iv.end);
      return !conflict;
    }

    /** The line for a span: the request's own if it sticks, else the first free one, else a new one. */
    method FindLine(status: Status, job: Job) returns (line: nat, status': Status)
      requires Valid() && KnownStatus(view, status)
      modifies this
      ensures Valid() && fresh(owner.Keys - old(owner.Keys))
      ensures Found(line, view, status') == SpanLayout.FindLine(old(view), status, job)
    {
      hide Ordered, Sticks, OpenLine;
      var keeps := Keeps(status, job);
      if keeps {
        assert Sticks(view, status, job) ==> job.pid in status by { StickyHasLine(view, status, job); }
        return status[job.pid], status;
      }
      if job.pid !in lines {
        line, status' := Open(status, job.pid);
        return;
      }
      var i := Scan(job.pid, job.iv);
      if i < |lines[job.pid]| { return i + 1, status[job.pid := i + 1]; }
      line, status' := Open(status, job.pid);
    }

    /** Finds a line and stores the span there. */
    method Place(status: Status, job: Job) returns (line: nat, status': Status)
      requires Valid() && KnownStatus(view, status)
      modifies this, owner.Keys
      ensures Valid() && fresh(owner.Keys - old(owner.Keys))
      ensures Found(line, view, status') == SpanLayout.Place(old(view), status, job)
    {
      hide Conflicts, SpanLayout.FindLine, Inserted, Insert, Ordered;
      FoundLineIsFree(view, status, job);
      line, status' := FindLine(status, job);
      label found:
      assert Has(job.pid, line - 1) && Kept(job.pid, line - 1);
      InsertKeepsOrdered(view, line, job);
      OrderedAt(view, job.pid, line - 1);
      InsertChanges(view, line, job);
      lines[job.pid][line - 1].InsertSpan(job.iv.start, job.iv.end);
      view := Insert(view, line, job);
      forall p, i | Has(p, i) ensures Kept(p, i) {
        assert old@found(Has(p, i)) && old@found(Kept(p, i));
      }
    }

    /** One engine span: the whole subtree gets the line the span is stored on. */
    method PlaceSpan(status: Status, span: Span) returns (line: nat, status': Status)
      requires Valid() && KnownStatus(view, status) && span.IsTree()
      modifies this, owner.Keys, span.subtree`tid
      ensures Valid() && fresh(owner.Keys - old(owner.Keys))
      ensures Found(line, view, status') == SpanLayout.Place(old(view), status, JobOf(span))
      ensures forall d | d in span.subtree :: d.tid == line
    {
      hide SpanLayout.Place, Ordered;
      line, status' := Place(status, JobOf(span));
      span.SetTid(line);
    }

    /**
      One engine request: its spans are placed in order, starting without a line of its own, and
      every span's subtree gets the span's line. Ghost parameter home says which span a node
      belongs to.
     */
    method PlaceRequest(spans: seq<Span>, ghost home: map<Span, int>)
      requires Valid() && Forest(spans, home)
      modifies this, owner.Keys, Nodes(spans)`tid
      ensures Valid() && fresh(owner.Keys - old(owner.Keys))
      ensures view == After(old(view), map[], JobsOf(spans), |spans|).lay
      ensures Tagged(spans, After(old(view), map[], JobsOf(spans), |spans|).lines)
    {
      hide SpanLayout.Place, After, Valid, Nodes, Forest, Span.IsTree;
      ghost var jobs, lay := JobsOf(spans), view;
      var status: Status := map[];
      AfterNone(lay, jobs);
      ghost var r, done := After(lay, map[], jobs, 0), {};
      for k := 0 to |spans|
        invariant Valid() && fresh(owner.Keys - old(owner.Keys))
        invariant r == After(lay, map[], jobs, k) && view == r.lay && status == r.status
        invariant forall i | 0 <= i < k :: spans[i].subtree <= done
        invariant forall d | d in done :: d in home && 0 <= home[d] < k && d.tid == r.lines[home[d]]
      {
        var line;
        NodesOf(spans, k);
        ForestAt(spans, home, k);
        AfterStep(lay, map[], jobs, k);
        line, status := PlaceSpan(status, spans[k]);
        r := After(lay, map[], jobs, k + 1);
        done := done + spans[k].subtree;
      }
      AllTagged(spans, home, r.lines, done);
    }

    /** One gateway span: only the span itself gets the line. */
    method PlaceGatewaySpan(status: Status, span: Span) returns (line: nat, status': Status)
      requires Valid() && KnownStatus(view, status)
      modifies this, owner.Keys, span`tid
      ensures Valid() && fresh(owner.Keys - old(owner.Keys))
      ensures Found(line, view, status') == SpanLayout.Place(old(view), status, JobOf(span))
      ensures span.tid == line
    {
      hide SpanLayout.Place, Ordered;
      line, status' := Place(status, JobOf(span));
      span.tid := line;
    }

    /** The gateway's spans, placed as one request. */
    method PlaceGateway(spans: seq<Span>)
      requires Valid() && forall i, j | 0 <= i < j < |spans| :: spans[i] != spans[j]
      modifies this, owner.Keys, spans`tid
      ensures Valid() && fresh(owner.Keys - old(owner.Keys))
      ensures view == After(old(view), map[], JobsOf(spans), |spans|).lay
      ensures forall i | 0 <= i < |spans| ::
                spans[i].tid == After(old(view), map[], JobsOf(spans), |spans|).lines[i]
    {
      hide SpanLayout.Place, After, Valid;
      ghost var jobs, lay := JobsOf(spans), view;
      var status: Status := map[];
      AfterNone(lay, jobs);
      ghost var r := After(lay, map[], jobs, 0);
      for k := 0 to |spans|
        invariant Valid() && fresh(owner.Keys - old(owner.Keys))
        invariant r == After(lay, map[], jobs, k) && view == r.lay && status == r.status
        invariant forall i | 0 <= i < k :: spans[i].tid == r.lines[i]
      {
        var line;
        AfterStep(lay, map[], jobs, k);
        line, status := PlaceGatewaySpan(status, spans[k]);
        r := After(lay, map[], jobs, k + 1);
      }
    }
  }

  lemma AfterNone(lay: Layout, jobs: seq<Job>)
    ensures After(lay, map[], jobs, 0) == Outcome(lay, map[], [])
  {
  }

  lemma AfterStep(lay: Layout, status: Status, jobs: seq<Job>, k: nat)
    requires KnownStatus(lay, status) && k < |jobs|
    ensures var r := After(lay, status, jobs, k);
            var f := SpanLayout.Place(r.lay, r.status, jobs[k]);
            After(lay, status, jobs, k + 1) == Outcome(f.lay, f.status, r.lines + [f.line])
  {
    hide SpanLayout.Place;
  }

  // ---------------------------------------------------------------- nodes and the lines they carry

  ghost function Nodes(spans: seq<Span>): (s: set<Span>) {
    set i, d | 0 <= i < |spans| && d in spans[i].subtree :: d
  }

  lemma NodesOf(spans: seq<Span>, k: nat)
    requires k < |spans|
    ensures spans[k].subtree <= Nodes(spans)
  {
  }

  /** The spans are trees, and no node belongs to two of them. */
  ghost predicate Forest(spans: seq<Span>, home: map<Span, int>) {
    && (forall i | 0 <= i < |spans| :: spans[i].IsTree())
    && forall i, d | 0 <= i < |spans| && d in spans[i].subtree :: d in home && home[d] == i
  }

  lemma ForestAt(spans: seq<Span>, home: map<Span, int>, k: nat)
    requires Forest(spans, home) && k < |spans|
    ensures spans[k].IsTree() && forall d | d in spans[k].subtree :: d in home && home[d] == k
  {
  }

  lemma AllTagged(spans: seq<Span>, home: map<Span, int>, lines: seq<nat>, done: set<Span>)
    requires Forest(spans, home) && |lines| == |spans|
    requires forall i | 0 <= i < |spans| :: spans[i].subtree <= done
    requires forall d | d in done :: d in home && 0 <= home[d] < |spans| && d.tid == lines[home[d]]
    ensures Tagged(spans, lines)
  {
  }

  /** Every span's whole subtree carries the span's line. */
  ghost predicate Tagged(spans: seq<Span>, lines: seq<nat>)
    requires |lines| == |spans|
    reads Nodes(spans)
  {
    forall i, d | 0 <= i < |spans| && d in spans[i].subtree :: d.tid == lines[i]
  }
}
