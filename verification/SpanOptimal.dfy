/**
  The gateway's spans come in start order; placed in that order they use as few lines as any
  overlap-free layout can: the largest number of spans alive at one instant.
 */
module SpanOptimal {
  import opened SpanContainer
  import opened SpanLayout
  import SpanShown

  predicate Alive(iv: Interval, t: int) {
    iv.start <= t < iv.end
  }

  /** The spans that are alive at instant t. */
  function AliveAt(jobs: seq<Job>, t: int): (a: set<nat>) {
    set i: nat | i < |jobs| && Alive(jobs[i].iv, t)
  }

  /** An assignment of lines 1..m without overlaps on a line. */
  ghost predicate OverlapFree(jobs: seq<Job>, lines: seq<nat>, m: nat) {
    && |lines| == |jobs|
    && (forall i | 0 <= i < |lines| :: 1 <= lines[i] <= m)
    && forall i, j | 0 <= i < j < |jobs| && lines[i] == lines[j] :: !Overlaps(jobs[i].iv, jobs[j].iv)
  }

  /** n is the largest number of spans alive at one instant, and the fewest lines of any overlap-free layout. */
  ghost predicate Optimal(jobs: seq<Job>, n: nat) {
    && (exists t :: |AliveAt(jobs, t)| == n)
    && (forall t :: |AliveAt(jobs, t)| <= n)
    && (exists lines :: OverlapFree(jobs, lines, n))
    && (forall lines, m | OverlapFree(jobs, lines, m) :: n <= m)
  }

  // ---------------------------------------------------------------- counting

  /** The numbers 1..m. */
  function LineNumbers(m: nat): (s: set<nat>)
    ensures forall l: nat :: l in s <==> 1 <= l <= m
  {
    if m == 0 then {} else LineNumbers(m - 1) + {m}
  }

  lemma {:induction false} CountLineNumbers(m: nat)
    ensures |LineNumbers(m)| == m
  {
    if m > 0 { CountLineNumbers(m - 1); }
  }

  lemma SubsetCount(a: set<nat>, b: set<nat>)
    requires a <= b
    ensures |a| <= |b|
  {
    assert b == a + (b - a);
  }

  function LinesOf(lines: seq<nat>, a: set<nat>): (s: set<nat>)
    requires forall i | i in a :: i < |lines|
  {
    set i | i in a :: lines[i]
  }

  /** Spans take at most one line each, and exactly one each when no two share a line. */
  lemma {:induction false} CountLines(lines: seq<nat>, a: set<nat>)
    requires forall i | i in a :: i < |lines|
    ensures |LinesOf(lines, a)| <= |a|
    ensures (forall i, j | i in a && j in a && i != j :: lines[i] != lines[j]) ==> |LinesOf(lines, a)| == |a|
    decreases |a|
  {
    if a != {} {
      var x :| x in a;
      var rest := a - {x};
      CountLines(lines, rest);
      assert LinesOf(lines, a) == LinesOf(lines, rest) + {lines[x]};
    }
  }

  /** Any overlap-free layout needs a line for every span alive at one instant. */
  lemma DepthIsLowerBound(jobs: seq<Job>, lines: seq<nat>, m: nat, t: int)
    requires OverlapFree(jobs, lines, m)
    ensures |AliveAt(jobs, t)| <= m
  {
    var a := AliveAt(jobs, t);
    forall i, j | i in a && j in a && i != j ensures lines[i] != lines[j] {
      assert Overlaps(jobs[i].iv, jobs[j].iv) && Overlaps(jobs[j].iv, jobs[i].iv);
    }
    CountLines(lines, a);
    SubsetCount(LinesOf(lines, a), LineNumbers(m));
    CountLineNumbers(m);
  }

  // ---------------------------------------------------------------- first fit in start order

  ghost predicate StartOrder(jobs: seq<Job>) {
    forall i, j | 0 <= i < j < |jobs| :: jobs[i].iv.start <= jobs[j].iv.start
  }

  /** All spans belong to one pid and have positive length. */
  ghost predicate OnePid(jobs: seq<Job>, pid: Pid) {
    forall i | 0 <= i < |jobs| :: jobs[i].pid == pid && jobs[i].iv.start < jobs[i].iv.end
  }

  function LineCount(lay: Layout, pid: Pid): (n: nat) {
    if pid in lay.graph then |lay.graph[pid]| else 0
  }

  /** If everything on a line has started by s, a conflict at s means something on it is alive at s. */
  lemma ConflictIsAlive(s: seq<Interval>, iv: Interval) returns (k: nat)
    requires Sorted(s) && Conflicts(s, iv.start, iv.end)
    requires forall i | 0 <= i < |s| :: s[i].start <= iv.start && s[i].start < s[i].end
    ensures k < |s| && Alive(s[k], iv.start)
  {
    StartIndexSplits(s, iv.start);
    var i := StartIndex(s, iv.start);
    k := if i > 0 && s[i - 1].end > iv.start then i - 1 else i;
  }

  /** What placing the spans on an empty layout gives. */
  ghost function Alone(jobs: seq<Job>, k: nat): (r: Outcome)
    requires k <= |jobs|
    ensures KnownStatus(r.lay, r.status) && |r.lines| == k
  {
    After(EMPTY, map[], jobs, k)
  }

  /** Everything on a line is one of the spans placed. */
  lemma StoredIsPlaced(jobs: seq<Job>, pid: Pid, k: nat, line: nat, x: Interval) returns (i: nat)
    requires k <= |jobs| && LineExists(Alone(jobs, k).lay, pid, line) && x in Stored(Alone(jobs, k).lay, pid, line)
    ensures i < k && jobs[i] == Job(pid, x) && Alone(jobs, k).lines[i] == line
  {
    hide After, Place;
    SpanShown.RequestHeld(EMPTY, map[], jobs, k, Job(pid, x), line);
    i :| 0 <= i < k && jobs[i] == Job(pid, x) && Alone(jobs, k).lines[i] == line;
  }

  /** A line that conflicts with the next span has a span alive at its start. */
  lemma LineHasAlive(jobs: seq<Job>, pid: Pid, k: nat, line: nat) returns (i: nat)
    requires k < |jobs| && OnePid(jobs, pid) && StartOrder(jobs)
    requires LineExists(Alone(jobs, k).lay, pid, line)
    requires Conflicts(Stored(Alone(jobs, k).lay, pid, line), jobs[k].iv.start, jobs[k].iv.end)
    ensures i < k && Alone(jobs, k).lines[i] == line && Alive(jobs[i].iv, jobs[k].iv.start)
  {
    hide After, Place, Conflicts;
    var s := Stored(Alone(jobs, k).lay, pid, line);
    RequestKeepsOrdered(EMPTY, map[], jobs, k);
    forall j | 0 <= j < |s| ensures s[j].start <= jobs[k].iv.start && s[j].start < s[j].end {
      var p := StoredIsPlaced(jobs, pid, k, line, s[j]);
    }
    var j := ConflictIsAlive(s, jobs[k].iv);
    i := StoredIsPlaced(jobs, pid, k, line, s[j]);
  }

  lemma LineCountGrows(lay: Layout, status: Status, job: Job)
    requires KnownStatus(lay, status) && job.iv.start != job.iv.end
    ensures LineCount(Place(lay, status, job).lay, job.pid) == LineCount(lay, job.pid)
       || (&& LineCount(Place(lay, status, job).lay, job.pid) == LineCount(lay, job.pid) + 1
           && Place(lay, status, job).line == LineCount(lay, job.pid) + 1
           && forall line: nat | LineExists(lay, job.pid, line) ::
                Conflicts(Stored(lay, job.pid, line), job.iv.start, job.iv.end))
  {
    hide Conflicts;
    if job.pid in lay.graph {
      var i := FirstFree(lay.graph[job.pid], job.iv, 0);
    }
  }

  lemma {:induction false} AloneWithinDepth(jobs: seq<Job>, pid: Pid, k: nat) returns (t: int)
    requires k <= |jobs| && OnePid(jobs, pid) && StartOrder(jobs)
    ensures LineCount(Alone(jobs, k).lay, pid) <= |AliveAt(jobs, t)|
  {
    hide Place, Conflicts;
    t := 0;
    if k > 0 {
      t := AloneWithinDepth(jobs, pid, k - 1);
      var r := Alone(jobs, k - 1);
      var n := LineCount(r.lay, pid);
      LineCountGrows(r.lay, r.status, jobs[k - 1]);
      if LineCount(Alone(jobs, k).lay, pid) == n + 1 {
        t := jobs[k - 1].iv.start;
        NewLineIsNeeded(jobs, pid, k - 1, n);
      }
    }
  }

  lemma NewLineIsNeeded(jobs: seq<Job>, pid: Pid, k: nat, n: nat)
    requires k < |jobs| && OnePid(jobs, pid) && StartOrder(jobs)
    requires n == LineCount(Alone(jobs, k).lay, pid)
    requires forall line: nat | LineExists(Alone(jobs, k).lay, pid, line) ::
               Conflicts(Stored(Alone(jobs, k).lay, pid, line), jobs[k].iv.start, jobs[k].iv.end)
    ensures n + 1 <= |AliveAt(jobs, jobs[k].iv.start)|
  {
    hide Alone, Conflicts;
    var r := Alone(jobs, k);
    var before := set i: nat | i < k && Alive(jobs[i].iv, jobs[k].iv.start);
    forall line: nat | 1 <= line <= n ensures line in LinesOf(r.lines, before) {
      assert LineExists(r.lay, pid, line);
      var i := LineHasAlive(jobs, pid, k, line);
      assert i in before;
    }
    SubsetCount(LineNumbers(n), LinesOf(r.lines, before));
    CountLineNumbers(n);
    CountLines(r.lines, before);
    SubsetCount(before + {k}, AliveAt(jobs, jobs[k].iv.start));
  }

  // ---------------------------------------------------------------- other pids do not matter

  /** The two layouts have the same lines for pid. */
  ghost predicate SameFor(lay: Layout, lay': Layout, pid: Pid) {
    (pid in lay.graph <==> pid in lay'.graph) && (pid in lay.graph ==> lay.graph[pid] == lay'.graph[pid])
  }

  /** A span is placed by the lines of its own pid alone. */
  lemma PlaceIsLocal(lay: Layout, lay': Layout, status: Status, job: Job)
    requires KnownStatus(lay, status) && KnownStatus(lay', status) && SameFor(lay, lay', job.pid)
    ensures var f, f' := Place(lay, status, job), Place(lay', status, job);
            f.line == f'.line && f.status == f'.status && SameFor(f.lay, f'.lay, job.pid)
  {
    hide Conflicts, Inserted, FirstFree;
    var f, f' := FindLine(lay, status, job), FindLine(lay', status, job);
    assert f.line == f'.line && f.status == f'.status && SameFor(f.lay, f'.lay, job.pid);
  }

  /** Spans of a pid without lines are placed as on an empty layout, whatever the other pids hold. */
  lemma {:induction false} PlacedAsAlone(lay: Layout, jobs: seq<Job>, pid: Pid, k: nat)
    requires k <= |jobs| && OnePid(jobs, pid) && pid !in lay.graph
    ensures var r, r' := After(lay, map[], jobs, k), Alone(jobs, k);
            r.lines == r'.lines && r.status == r'.status && SameFor(r.lay, r'.lay, pid)
  {
    hide Place;
    if k > 0 {
      PlacedAsAlone(lay, jobs, pid, k - 1);
      var r, r' := After(lay, map[], jobs, k - 1), Alone(jobs, k - 1);
      PlaceIsLocal(r.lay, r'.lay, r.status, jobs[k - 1]);
    }
  }

  // ---------------------------------------------------------------- the theorem

  /** The lines in use never outnumber the spans alive at some start. */
  lemma LinesWithinDepth(lay: Layout, jobs: seq<Job>, pid: Pid, k: nat) returns (t: int)
    requires k <= |jobs| && OnePid(jobs, pid) && StartOrder(jobs) && pid !in lay.graph
    ensures LineCount(After(lay, map[], jobs, k).lay, pid) <= |AliveAt(jobs, t)|
  {
    hide After, Alone;
    PlacedAsAlone(lay, jobs, pid, k);
    t := AloneWithinDepth(jobs, pid, k);
  }

  lemma {:induction false} LinesInRange(jobs: seq<Job>, pid: Pid, k: nat, i: nat)
    requires i < k <= |jobs| && OnePid(jobs, pid)
    ensures 1 <= Alone(jobs, k).lines[i] <= LineCount(Alone(jobs, k).lay, pid)
  {
    hide Place;
    RequestHolds(EMPTY, map[], jobs, i, k);
  }

  lemma FirstFitIsOverlapFree(jobs: seq<Job>, pid: Pid)
    requires OnePid(jobs, pid)
    ensures var r := Alone(jobs, |jobs|);
            OverlapFree(jobs, r.lines, LineCount(r.lay, pid))
  {
    hide After, Place, Clean;
    var r := Alone(jobs, |jobs|);
    NonZeroIsClean(EMPTY, map[], jobs, |jobs|);
    forall i | 0 <= i < |jobs| ensures 1 <= r.lines[i] <= LineCount(r.lay, pid) {
      LinesInRange(jobs, pid, |jobs|, i);
    }
    forall i, j | 0 <= i < j < |jobs| && r.lines[i] == r.lines[j] ensures !Overlaps(jobs[i].iv, jobs[j].iv) {
      RequestMissesItself(EMPTY, map[], jobs, i, j);
    }
  }

  /**
    Spans of positive length, placed in start order on a pid that has no line yet, whatever the
    other pids hold: the lines used are exactly the largest number of spans alive at one instant,
    and no overlap-free layout of the same spans uses fewer.
   */
  lemma FirstFitIsOptimal(lay: Layout, jobs: seq<Job>, pid: Pid)
    requires OnePid(jobs, pid) && StartOrder(jobs) && pid !in lay.graph
    ensures Optimal(jobs, LineCount(After(lay, map[], jobs, |jobs|).lay, pid))
  {
    hide After, Alone, OverlapFree, AliveAt;
    var r := Alone(jobs, |jobs|);
    var n := LineCount(r.lay, pid);
    PlacedAsAlone(lay, jobs, pid, |jobs|);
    FirstFitIsOverlapFree(jobs, pid);
    forall t: int ensures |AliveAt(jobs, t)| <= n { DepthIsLowerBound(jobs, r.lines, n, t); }
    var t := AloneWithinDepth(jobs, pid, |jobs|);
    assert |AliveAt(jobs, t)| == n;
    forall lines, m | OverlapFree(jobs, lines, m) ensures n <= m { DepthIsLowerBound(jobs, lines, m, t); }
  }

  // ---------------------------------------------------------------- engine requests first, then the gateway

  lemma PlaceStaysAway(lay: Layout, status: Status, job: Job, pid: Pid)
    requires KnownStatus(lay, status) && job.pid != pid
    ensures pid in Place(lay, status, job).lay.graph <==> pid in lay.graph
  {
    hide Conflicts, Inserted;
  }

  lemma {:induction false} OtherPidsStayAway(lay: Layout, status: Status, jobs: seq<Job>, k: nat, pid: Pid)
    requires KnownStatus(lay, status) && k <= |jobs| && pid !in lay.graph
    requires forall i | 0 <= i < |jobs| :: jobs[i].pid != pid
    ensures pid !in After(lay, status, jobs, k).lay.graph
  {
    hide Place;
    if k > 0 {
      OtherPidsStayAway(lay, status, jobs, k - 1, pid);
      var r := After(lay, status, jobs, k - 1);
      PlaceStaysAway(r.lay, r.status, jobs[k - 1], pid);
    }
  }

  lemma {:induction false} EngineLeavesGatewayAlone(requests: seq<seq<Job>>, k: nat)
    requires k <= |requests|
    requires forall q, i | 0 <= q < k && 0 <= i < |requests[q]| :: requests[q][i].pid.Engine?
    ensures Smg !in AfterRequests(requests, k).lay.graph
  {
    hide After;
    if k > 0 {
      EngineLeavesGatewayAlone(requests, k - 1);
      OtherPidsStayAway(AfterRequests(requests, k - 1).lay, map[], requests[k - 1], |requests[k - 1]|, Smg);
    }
  }

  /**
    The converter's whole run: any engine requests, then all gateway spans in start order. The gateway
    uses exactly as many lines as spans of it are alive at one instant at most, and no
    overlap-free layout of its spans uses fewer.
   */
  lemma GatewayLayoutIsOptimal(requests: seq<seq<Job>>, jobs: seq<Job>)
    requires forall q, i | 0 <= q < |requests| && 0 <= i < |requests[q]| :: requests[q][i].pid.Engine?
    requires OnePid(jobs, Smg) && StartOrder(jobs)
    ensures Optimal(jobs, LineCount(RunLayout(requests + [jobs]), Smg))
  {
    hide After, Optimal;
    var n := |requests|;
    var lay := AfterRequests(requests, n).lay;
    SamePrefix(requests, jobs, n);
    EngineLeavesGatewayAlone(requests, n);
    FirstFitIsOptimal(lay, jobs, Smg);
    assert (requests + [jobs])[n] == jobs;
  }

  lemma {:induction false} SamePrefix(requests: seq<seq<Job>>, jobs: seq<Job>, k: nat)
    requires k <= |requests|
    ensures AfterRequests(requests + [jobs], k) == AfterRequests(requests, k)
  {
    hide After;
    if k > 0 { SamePrefix(requests, jobs, k - 1); }
  }
}
