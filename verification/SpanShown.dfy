/**
  What a run shows: every stored interval is a span shown on that line, so an overlap on a line can
  be traced back to the spans, and a run shows none exactly when it takes no bad shortcut.
 */
module SpanShown {
  import opened SpanContainer
  import opened SpanLayout

  // ---------------------------------------------------------------- stored intervals are shown spans

  lemma PlaceAddsOnlyItsSpan(lay: Layout, status: Status, job: Job, was: Job, line: nat)
    requires KnownStatus(lay, status)
    ensures Holds(Place(lay, status, job).lay, was, line)
       <==> Holds(lay, was, line) || (was == job && line == Place(lay, status, job).line)
  {
    hide Conflicts, Inserted;
    var f := FindLine(lay, status, job);
    FoundLineIsFree(lay, status, job);
    InsertedMember(Stored(f.lay, job.pid, f.line), job.iv, was.iv);
  }

  /** Some one of the first k spans is was, and it is given the line. */
  ghost predicate Gives(jobs: seq<Job>, lines: seq<nat>, k: nat, was: Job, line: nat) {
    exists i :: 0 <= i < k && i < |jobs| && i < |lines| && jobs[i] == was && lines[i] == line
  }

  /** After a request, a line holds what it held before and the spans the request was given it for. */
  lemma {:induction false} RequestHeld(lay: Layout, status: Status, jobs: seq<Job>, k: nat, was: Job, line: nat)
    requires KnownStatus(lay, status) && k <= |jobs|
    ensures Holds(After(lay, status, jobs, k).lay, was, line)
       <==> Holds(lay, was, line) || Gives(jobs, After(lay, status, jobs, k).lines, k, was, line)
  {
    hide Place, Holds;
    if k > 0 {
      RequestHeld(lay, status, jobs, k - 1, was, line);
      var r := After(lay, status, jobs, k - 1);
      var f := Place(r.lay, r.status, jobs[k - 1]);
      PlaceAddsOnlyItsSpan(r.lay, r.status, jobs[k - 1], was, line);
      GivesNext(jobs, r.lines, f.line, k - 1, was, line);
    }
  }

  lemma GivesNext(jobs: seq<Job>, lines: seq<nat>, next: nat, k: nat, was: Job, line: nat)
    requires k == |lines| < |jobs|
    ensures Gives(jobs, lines + [next], k + 1, was, line)
       <==> Gives(jobs, lines, k, was, line) || (was == jobs[k] && line == next)
  {
    var lines' := lines + [next];
    if Gives(jobs, lines, k, was, line) {
      var i :| 0 <= i < k && jobs[i] == was && lines[i] == line;
      assert lines'[i] == line;
    }
    if was == jobs[k] && line == next { assert lines'[k] == line; }
  }

  /** Span i of request p is shown for this pid on this line. */
  ghost predicate ShownAt(requests: seq<seq<Job>>, p: nat, i: nat, was: Job, line: nat) {
    p < |requests| && i < |requests[p]| && requests[p][i] == was && RunLines(requests)[p][i] == line
  }

  lemma {:induction false} RunHeld(requests: seq<seq<Job>>, k: nat, was: Job, line: nat)
    requires k <= |requests| && Holds(AfterRequests(requests, k).lay, was, line)
    ensures exists p: nat, i: nat :: p < k && ShownAt(requests, p, i, was, line)
  {
    hide After, Holds, RunLines;
    NothingHeld(was, line);
    if k > 0 {
      var lay, jobs := AfterRequests(requests, k - 1).lay, requests[k - 1];
      RequestHeld(lay, map[], jobs, |jobs|, was, line);
      if Holds(lay, was, line) {
        RunHeld(requests, k - 1, was, line);
      } else {
        RunLinesOf(requests, k - 1);
        var i :| 0 <= i < |jobs| && jobs[i] == was && RunLines(requests)[k - 1][i] == line;
        assert ShownAt(requests, k - 1, i, was, line);
      }
    }
  }

  lemma NothingHeld(was: Job, line: nat)
    ensures !Holds(EMPTY, was, line)
  {
  }

  // ---------------------------------------------------------------- a run shows no overlap exactly when it is clean

  /** Two spans shown for one pid on one line overlap: request p, span i and request q, span j. */
  ghost predicate OverlapShown(requests: seq<seq<Job>>, p: nat, i: nat, q: nat, j: nat) {
    && p < |requests| && i < |requests[p]| && q < |requests| && j < |requests[q]|
    && (p < q || (p == q && i < j))
    && requests[p][i].pid == requests[q][j].pid
    && RunLines(requests)[p][i] == RunLines(requests)[q][j]
    && Overlaps(requests[p][i].iv, requests[q][j].iv)
  }

  ghost predicate ShowsOverlap(requests: seq<seq<Job>>) {
    exists p: nat, i: nat, q: nat, j: nat :: OverlapShown(requests, p, i, q, j)
  }

  /** A bad shortcut puts the span inside one that the line holds. */
  lemma BadShortcutOverlaps(lay: Layout, status: Status, job: Job) returns (was: Job)
    requires KnownStatus(lay, status) && Ordered(lay) && BadShortcut(lay, status, job)
    ensures was.pid == job.pid && Overlaps(was.iv, job.iv)
    ensures Holds(lay, was, Place(lay, status, job).line)
  {
    var s := Stored(lay, job.pid, status[job.pid]);
    StartIndexSplits(s, job.iv.start);
    was := Job(job.pid, s[StartIndex(s, job.iv.start) - 1]);
  }

  /** A request that is not clean has a first span that takes the bad shortcut. */
  lemma {:induction false} FirstBad(lay: Layout, status: Status, jobs: seq<Job>, k: nat) returns (j: nat)
    requires KnownStatus(lay, status) && k <= |jobs| && !Clean(lay, status, jobs, k)
    ensures j < k
    ensures BadShortcut(After(lay, status, jobs, j).lay, After(lay, status, jobs, j).status, jobs[j])
  {
    hide Place, BadShortcut;
    if Clean(lay, status, jobs, k - 1) { j := k - 1; } else { j := FirstBad(lay, status, jobs, k - 1); }
  }

  lemma {:induction false} FirstBadRequest(requests: seq<seq<Job>>, k: nat) returns (q: nat)
    requires k <= |requests| && !CleanRequests(requests, k)
    ensures q < k && !Clean(AfterRequests(requests, q).lay, map[], requests[q], |requests[q]|)
  {
    hide After, Clean, AfterRequests;
    if CleanRequests(requests, k - 1) { q := k - 1; } else { q := FirstBadRequest(requests, k - 1); }
  }

  lemma UncleanShowsOverlap(requests: seq<seq<Job>>)
    requires !CleanRun(requests)
    ensures ShowsOverlap(requests)
  {
    hide After, Clean, AfterRequests, Holds, RunLines, BadShortcut, Ordered, Place;
    var q := FirstBadRequest(requests, |requests|);
    var lay, jobs := AfterRequests(requests, q).lay, requests[q];
    var j := FirstBad(lay, map[], jobs, |jobs|);
    var r := After(lay, map[], jobs, j);
    RunsAreBooked(requests, q);
    RequestKeepsOrdered(lay, map[], jobs, j);
    var was := BadShortcutOverlaps(r.lay, r.status, jobs[j]);
    LineOf(lay, map[], jobs, j, |jobs|);
    RunLinesOf(requests, q);
    var line := RunLines(requests)[q][j];
    RequestHeld(lay, map[], jobs, j, was, line);
    if Holds(lay, was, line) {
      RunHeld(requests, q, was, line);
      var p: nat, i: nat :| p < q && ShownAt(requests, p, i, was, line);
      assert OverlapShown(requests, p, i, q, j);
    } else {
      var i :| 0 <= i < j && jobs[i] == was && r.lines[i] == line;
      LinesAreFinal(lay, map[], jobs, i, j, |jobs|);
      assert OverlapShown(requests, q, i, q, j);
    }
  }

  /**
    A run shows two overlapping spans on one line exactly when some span of length zero is kept on
    its request's line although it falls inside a span stored there.
   */
  lemma OverlapShownIff(requests: seq<seq<Job>>)
    ensures ShowsOverlap(requests) <==> !CleanRun(requests)
  {
    hide CleanRun, RunLines;
    if CleanRun(requests) {
      forall p: nat, i: nat, q: nat, j: nat ensures !OverlapShown(requests, p, i, q, j) {
        if OverlapShown(requests, p, i, q, j) { ShownSpansNeverOverlap(requests, p, i, q, j); }
      }
    } else {
      UncleanShowsOverlap(requests);
    }
  }

  // ---------------------------------------------------------------- the test on reachable lines

  /** Every span ends after it starts. */
  ghost predicate Forward(requests: seq<seq<Job>>) {
    forall q, i | 0 <= q < |requests| && 0 <= i < |requests[q]| :: requests[q][i].iv.start < requests[q][i].iv.end
  }

  /** The lines a span can meet when span j of request q is placed. */
  ghost function Before(requests: seq<seq<Job>>, q: nat, j: nat): (lay: Layout)
    requires q < |requests| && j <= |requests[q]|
  {
    After(AfterRequests(requests, q).lay, map[], requests[q], j).lay
  }

  lemma HeldBeforeIsForward(requests: seq<seq<Job>>, q: nat, j: nat, was: Job, line: nat)
    requires Forward(requests) && q < |requests| && j <= |requests[q]| && Holds(Before(requests, q, j), was, line)
    ensures was.iv.start < was.iv.end
  {
    hide After, AfterRequests, Holds, RunLines;
    var lay := AfterRequests(requests, q).lay;
    RequestHeld(lay, map[], requests[q], j, was, line);
    if Holds(lay, was, line) { RunHeld(requests, q, was, line); }
  }

  /**
    In a run of spans that end after they start, whenever a span is placed, the two-neighbour test
    on any line agrees with a scan of everything the line holds.
   */
  lemma TestIsExactInRuns(requests: seq<seq<Job>>, q: nat, j: nat, pid: Pid, line: nat, iv: Interval)
    requires Forward(requests) && q < |requests| && j <= |requests[q]|
    requires LineExists(Before(requests, q, j), pid, line) && iv.start <= iv.end
    ensures Conflicts(Stored(Before(requests, q, j), pid, line), iv.start, iv.end)
       <==> exists was :: Holds(Before(requests, q, j), was, line) && was.pid == pid && Overlaps(was.iv, iv)
  {
    hide After, AfterRequests, Conflicts, Clean, CleanRequests, RunLines;
    var lay, s := Before(requests, q, j), Stored(Before(requests, q, j), pid, line);
    RunsAreBooked(requests, q);
    RequestKeepsOrdered(AfterRequests(requests, q).lay, map[], requests[q], j);
    NonZeroPrefixIsClean(requests, q);
    RunPrefixIsSafeIff(requests, q);
    NonZeroIsClean(AfterRequests(requests, q).lay, map[], requests[q], j);
    RequestIsSafeIff(AfterRequests(requests, q).lay, map[], requests[q], j);
    forall k | 0 <= k < |s| ensures s[k].start < s[k].end && Holds(lay, Job(pid, s[k]), line) {
      assert s[k] in s;
      HeldBeforeIsForward(requests, q, j, Job(pid, s[k]), line);
    }
    TestIsExact(s, iv);
  }

  // ---------------------------------------------------------------- which line a span gets

  /** Span i is the last one of the process before span j. */
  ghost predicate IsLast(jobs: seq<Job>, j: nat, pid: Pid, i: nat) {
    i < j <= |jobs| && jobs[i].pid == pid && forall m | i < m < j :: jobs[m].pid != pid
  }

  lemma PlaceSetsStatus(lay: Layout, status: Status, job: Job)
    requires KnownStatus(lay, status)
    ensures Place(lay, status, job).status == status[job.pid := Place(lay, status, job).line]
  {
    hide Conflicts, Insert;
    FoundLineIs(lay, status, job);
  }

  /** A request remembers for each process the line of its last span. */
  lemma {:induction false} StatusFollows(lay: Layout, jobs: seq<Job>, j: nat, pid: Pid, i: nat)
    requires IsLast(jobs, j, pid, i)
    ensures pid in After(lay, map[], jobs, j).status
    ensures After(lay, map[], jobs, j).status[pid] == After(lay, map[], jobs, j).lines[i]
  {
    hide Place;
    var r := After(lay, map[], jobs, j - 1);
    PlaceSetsStatus(r.lay, r.status, jobs[j - 1]);
    if i < j - 1 { StatusFollows(lay, jobs, j - 1, pid, i); }
  }

  lemma {:induction false} StatusUnset(lay: Layout, jobs: seq<Job>, j: nat, pid: Pid)
    requires j <= |jobs| && forall m | 0 <= m < j :: jobs[m].pid != pid
    ensures pid !in After(lay, map[], jobs, j).status
  {
    hide Place;
    if j > 0 {
      var r := After(lay, map[], jobs, j - 1);
      StatusUnset(lay, jobs, j - 1, pid);
      PlaceSetsStatus(r.lay, r.status, jobs[j - 1]);
    }
  }

  lemma PlaceFinds(lay: Layout, status: Status, job: Job)
    requires KnownStatus(lay, status)
    ensures Place(lay, status, job).line == FindLine(lay, status, job).line
  {
  }

  /** The first free line of the process, or the one after the last if none is free. */
  ghost predicate FirstFreeLine(lay: Layout, pid: Pid, iv: Interval, line: nat) {
    && (forall l: nat | l < line :: !Free(lay, pid, l, iv))
    && (Free(lay, pid, line, iv) || line == 1 + if pid in lay.graph then |lay.graph[pid]| else 0)
  }

  /** The first span of a request on a process goes to the first free line. */
  lemma FirstSpanTakesFirstFree(requests: seq<seq<Job>>, q: nat, j: nat)
    requires q < |requests| && j < |requests[q]| && forall m | 0 <= m < j :: requests[q][m].pid != requests[q][j].pid
    ensures FirstFreeLine(Before(requests, q, j), requests[q][j].pid, requests[q][j].iv, RunLines(requests)[q][j])
  {
    hide After, AfterRequests, RunLines, Place, FindLine, Free;
    var lay, jobs := AfterRequests(requests, q).lay, requests[q];
    var r := After(lay, map[], jobs, j);
    RunLinesOf(requests, q);
    LineOf(lay, map[], jobs, j, |jobs|);
    PlaceFinds(r.lay, r.status, jobs[j]);
    StatusUnset(lay, jobs, j, jobs[j].pid);
    FoundLineIs(r.lay, r.status, jobs[j]);
  }

  /**
    A further span stays on the line of the request's last span of that process if it has length zero
    or that line is free; otherwise it goes to the first free line.
   */
  lemma NextSpanKeepsItsLine(requests: seq<seq<Job>>, q: nat, i: nat, j: nat)
    requires q < |requests| && j < |requests[q]| && IsLast(requests[q], j, requests[q][j].pid, i)
    ensures var lay, job, line := Before(requests, q, j), requests[q][j], RunLines(requests)[q][i];
            if job.iv.start == job.iv.end || Free(lay, job.pid, line, job.iv) then RunLines(requests)[q][j] == line
            else FirstFreeLine(lay, job.pid, job.iv, RunLines(requests)[q][j])
  {
    hide After, AfterRequests, RunLines, Place, FindLine, Free;
    var lay, jobs := AfterRequests(requests, q).lay, requests[q];
    var r := After(lay, map[], jobs, j);
    RunLinesOf(requests, q);
    LineOf(lay, map[], jobs, j, |jobs|);
    LinesAreFinal(lay, map[], jobs, i, j, |jobs|);
    PlaceFinds(r.lay, r.status, jobs[j]);
    StatusFollows(lay, jobs, j, jobs[j].pid, i);
    FoundLineIs(r.lay, r.status, jobs[j]);
  }

  // ---------------------------------------------------------------- the same, said of the spans shown

  /** Some span placed before span j of request q is shown for the process on the line and overlaps iv. */
  ghost predicate InTheWay(requests: seq<seq<Job>>, q: nat, j: nat, pid: Pid, line: nat, iv: Interval) {
    exists p: nat, i: nat, was ::
      && ShownAt(requests, p, i, was, line) && (p < q || (p == q && i < j))
      && was.pid == pid && Overlaps(was.iv, iv)
  }

  lemma HeldBefore(requests: seq<seq<Job>>, q: nat, j: nat, was: Job, line: nat)
    requires q < |requests| && j <= |requests[q]|
    ensures Holds(Before(requests, q, j), was, line)
       <==> exists p: nat, i: nat :: ShownAt(requests, p, i, was, line) && (p < q || (p == q && i < j))
  {
    hide After, AfterRequests, Holds, RunLines;
    var lay, jobs := AfterRequests(requests, q).lay, requests[q];
    RequestHeld(lay, map[], jobs, j, was, line);
    RunLinesOf(requests, q);
    if Holds(Before(requests, q, j), was, line) {
      if Holds(lay, was, line) {
        RunHeld(requests, q, was, line);
      } else {
        var i :| 0 <= i < j && jobs[i] == was && After(lay, map[], jobs, j).lines[i] == line;
        LinesAreFinal(lay, map[], jobs, i, j, |jobs|);
        assert ShownAt(requests, q, i, was, line);
      }
    }
    if p: nat, i: nat :| ShownAt(requests, p, i, was, line) && (p < q || (p == q && i < j)) {
      if p < q {
        RunHolds(requests, p, i, q);
      } else {
        LinesAreFinal(lay, map[], jobs, i, j, |jobs|);
      }
    }
  }

  /** In runs of forward spans a line is free exactly when nothing shown on it so far is in the way. */
  lemma FreeIsNotInTheWay(requests: seq<seq<Job>>, q: nat, j: nat, pid: Pid, line: nat, iv: Interval)
    requires Forward(requests) && q < |requests| && j <= |requests[q]|
    requires LineExists(Before(requests, q, j), pid, line) && iv.start <= iv.end
    ensures Free(Before(requests, q, j), pid, line, iv) <==> !InTheWay(requests, q, j, pid, line, iv)
  {
    hide Before, Conflicts, Holds, ShownAt;
    TestIsExactInRuns(requests, q, j, pid, line, iv);
    forall was ensures Holds(Before(requests, q, j), was, line)
                  <==> exists p: nat, i: nat :: ShownAt(requests, p, i, was, line) && (p < q || (p == q && i < j))
    {
      HeldBefore(requests, q, j, was, line);
    }
  }

  /**
    In runs of spans that end after they start, a span stays on its request's line exactly when no
    span shown there so far, of whatever request, overlaps it.
   */
  lemma StaysUnlessInTheWay(requests: seq<seq<Job>>, q: nat, i: nat, j: nat)
    requires Forward(requests) && q < |requests| && j < |requests[q]| && IsLast(requests[q], j, requests[q][j].pid, i)
    ensures RunLines(requests)[q][j] == RunLines(requests)[q][i]
       <==> !InTheWay(requests, q, j, requests[q][j].pid, RunLines(requests)[q][i], requests[q][j].iv)
  {
    hide RunLines, InTheWay, Free, After, AfterRequests;
    var lay, job, line := Before(requests, q, j), requests[q][j], RunLines(requests)[q][i];
    NextSpanKeepsItsLine(requests, q, i, j);
    LineOfLast(requests, q, i, j);
    FreeIsNotInTheWay(requests, q, j, job.pid, line, job.iv);
  }

  lemma LineOfLast(requests: seq<seq<Job>>, q: nat, i: nat, j: nat)
    requires q < |requests| && i < j <= |requests[q]|
    ensures LineExists(Before(requests, q, j), requests[q][i].pid, RunLines(requests)[q][i])
  {
    hide After, AfterRequests, RunLines;
    var lay, jobs := AfterRequests(requests, q).lay, requests[q];
    RunLinesOf(requests, q);
    LinesAreFinal(lay, map[], jobs, i, j, |jobs|);
    RequestHolds(lay, map[], jobs, i, j);
  }
}
