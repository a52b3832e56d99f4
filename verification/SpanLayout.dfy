/**
  Assigning spans to lines: a sticky first-fit allocator over the containers of SpanContainer.
  This module holds the allocator as functions on values and what every run of it keeps;
  SpanGenerator holds the objects that implement it.
 */
module SpanLayout {
  import opened SpanContainer

  /** Process ids of the trace: numbers for engine threads, one name for the gateway. */
  datatype Pid = Engine(id: int) | Smg

  datatype Slot = Slot(pid: Pid, line: nat)

  /** The stored lines of every pid (line number = position + 1) and the slot rows emitted so far. */
  datatype Layout = Layout(graph: map<Pid, seq<seq<Interval>>>, slots: seq<Slot>)

  /** The line the current request last used, per pid. */
  type Status = map<Pid, nat>

  datatype Job = Job(pid: Pid, iv: Interval)

  const EMPTY: Layout := Layout(map[], [])

  // ---------------------------------------------------------------- finding a line

  predicate LineExists(lay: Layout, pid: Pid, line: nat) {
    pid in lay.graph && 1 <= line <= |lay.graph[pid]|
  }

  predicate KnownStatus(lay: Layout, status: Status) {
    forall p | p in status :: LineExists(lay, p, status[p])
  }

  function Stored(lay: Layout, pid: Pid, line: nat): (s: seq<Interval>)
    requires LineExists(lay, pid, line)
  {
    lay.graph[pid][line - 1]
  }

  /** The first line that can take iv, or one past the last. */
  function FirstFree(lines: seq<seq<Interval>>, iv: Interval, from: nat): (i: nat)
    requires from <= |lines|
    ensures from <= i <= |lines|
    ensures i < |lines| ==> !Conflicts(lines[i], iv.start, iv.end)
    ensures forall k | from <= k < i :: Conflicts(lines[k], iv.start, iv.end)
    decreases |lines| - from
  {
    if from == |lines| || !Conflicts(lines[from], iv.start, iv.end) then from else FirstFree(lines, iv, from + 1)
  }

  datatype Found = Found(line: nat, lay: Layout, status: Status)

  function OpenLine(lay: Layout, status: Status, pid: Pid): (f: Found) {
    var lines := if pid in lay.graph then lay.graph[pid] else [];
    var line := |lines| + 1;
    Found(line, Layout(lay.graph[pid := lines + [[]]], lay.slots + [Slot(pid, line)]), status[pid := line])
  }

  /** The new line is the last of its pid and empty; all other lines stay. */
  lemma OpenLineAdds(lay: Layout, status: Status, pid: Pid)
    ensures var f := OpenLine(lay, status, pid);
            var old' := if pid in lay.graph then lay.graph[pid] else [];
            && f.line == |old'| + 1 && f.status == status[pid := f.line]
            && f.lay.slots == lay.slots + [Slot(pid, f.line)]
            && f.lay.graph.Keys == lay.graph.Keys + {pid}
            && f.lay.graph[pid] == old' + [[]]
            && forall p | p in lay.graph && p != pid :: f.lay.graph[p] == lay.graph[p]
  {
  }

  /** The line the request is on may be kept: nothing conflicts, or the span has length zero. */
  predicate Sticks(lay: Layout, status: Status, job: Job)
    requires KnownStatus(lay, status)
  {
    job.pid in status
    && (job.iv.start == job.iv.end
        || !Conflicts(Stored(lay, job.pid, status[job.pid]), job.iv.start, job.iv.end))
  }

  lemma StickyHasLine(lay: Layout, status: Status, job: Job)
    requires KnownStatus(lay, status)
    ensures Sticks(lay, status, job) ==> job.pid in status
  {
  }

  function FindLine(lay: Layout, status: Status, job: Job): (f: Found)
    requires KnownStatus(lay, status)
  {
    if Sticks(lay, status, job) then Found(status[job.pid], lay, status)
    else if job.pid !in lay.graph then OpenLine(lay, status, job.pid)
    else
      var lines := lay.graph[job.pid];
      var i := FirstFree(lines, job.iv, 0);
      if i < |lines| then Found(i + 1, lay, status[job.pid := i + 1]) else OpenLine(lay, status, job.pid)
  }

  /** No conflict on this line. */
  predicate Free(lay: Layout, pid: Pid, line: nat, iv: Interval) {
    LineExists(lay, pid, line) && !Conflicts(lay.graph[pid][line - 1], iv.start, iv.end)
  }

  /**
    The line found. A span whose request has a line of its process stays there if it has length zero
    or that line is free, and then nothing changes. Any other span goes to the first free line of its
    process, and only if there is none to a new one.
   */
  lemma FoundLineIs(lay: Layout, status: Status, job: Job)
    requires KnownStatus(lay, status)
    ensures var f, pid := FindLine(lay, status, job), job.pid;
            var count := if pid in lay.graph then |lay.graph[pid]| else 0;
            if pid in status && (job.iv.start == job.iv.end || Free(lay, pid, status[pid], job.iv))
            then f.line == status[pid] && f.lay == lay && f.status == status
            else
              && f.status == status[pid := f.line]
              && (forall line: nat | line < f.line :: !Free(lay, pid, line, job.iv))
              && if f.line <= count then f.lay == lay && Free(lay, pid, f.line, job.iv)
                 else
                   && f.line == count + 1 && f.lay.slots == lay.slots + [Slot(pid, count + 1)]
                   && pid in f.lay.graph && |f.lay.graph[pid]| == count + 1 && f.lay.graph[pid][count] == []
                   && f.lay.graph.Keys == lay.graph.Keys + {pid}
                   && forall p, i | p in lay.graph && 0 <= i < |lay.graph[p]| ::
                        i < |f.lay.graph[p]| && f.lay.graph[p][i] == lay.graph[p][i]
  {
    hide Conflicts;
  }

  function Insert(lay: Layout, line: nat, job: Job): (lay': Layout)
    requires LineExists(lay, job.pid, line)
  {
    var lines := lay.graph[job.pid];
    lay.(graph := lay.graph[job.pid := lines[line - 1 := Inserted(lines[line - 1], job.iv)]])
  }

  /** Storing a span changes its line only. */
  lemma InsertChanges(lay: Layout, line: nat, job: Job)
    requires LineExists(lay, job.pid, line)
    ensures var lay' := Insert(lay, line, job);
            && lay'.slots == lay.slots && lay'.graph.Keys == lay.graph.Keys
            && (forall p | p in lay.graph :: |lay'.graph[p]| == |lay.graph[p]|)
            && lay'.graph[job.pid][line - 1] == Inserted(lay.graph[job.pid][line - 1], job.iv)
            && forall p, i | p in lay.graph && 0 <= i < |lay.graph[p]| && (p != job.pid || i != line - 1) ::
                 lay'.graph[p][i] == lay.graph[p][i]
  {
    hide Inserted;
  }

  /** Finds a line for the span and stores it there. */
  function Place(lay: Layout, status: Status, job: Job): (f: Found)
    requires KnownStatus(lay, status)
    ensures KnownStatus(f.lay, f.status)
    ensures LineExists(f.lay, job.pid, f.line) && job.pid in f.status && f.status[job.pid] == f.line
  {
    var f := FindLine(lay, status, job);
    f.(lay := Insert(f.lay, f.line, job))
  }

  // ---------------------------------------------------------------- whole runs

  /** A layout, the request's current lines, and the line each span so far was given. */
  datatype Outcome = Outcome(lay: Layout, status: Status, lines: seq<nat>)

  /** The first k spans of one request have been placed. */
  function After(lay: Layout, status: Status, jobs: seq<Job>, k: nat): (r: Outcome)
    requires KnownStatus(lay, status) && k <= |jobs|
    ensures KnownStatus(r.lay, r.status) && |r.lines| == k
  {
    if k == 0 then Outcome(lay, status, [])
    else
      var before := After(lay, status, jobs, k - 1);
      var f := Place(before.lay, before.status, jobs[k - 1]);
      Outcome(f.lay, f.status, before.lines + [f.line])
  }

  /** A layout and the lines given to each request so far. */
  datatype RunOutcome = RunOutcome(lay: Layout, lines: seq<seq<nat>>)

  /** The first k requests have been placed, each starting without a line of its own. */
  function AfterRequests(requests: seq<seq<Job>>, k: nat): (r: RunOutcome)
    requires k <= |requests|
    ensures |r.lines| == k && forall q | 0 <= q < k :: |r.lines[q]| == |requests[q]|
  {
    if k == 0 then RunOutcome(EMPTY, [])
    else
      var before := AfterRequests(requests, k - 1);
      var r := After(before.lay, map[], requests[k - 1], |requests[k - 1]|);
      RunOutcome(r.lay, before.lines + [r.lines])
  }

  function RunLayout(requests: seq<seq<Job>>): (lay: Layout) {
    AfterRequests(requests, |requests|).lay
  }

  /** The lines a whole run gives to the spans of every request. */
  function RunLines(requests: seq<seq<Job>>): (lines: seq<seq<nat>>)
    ensures |lines| == |requests| && forall q | 0 <= q < |requests| :: |lines[q]| == |requests[q]|
  {
    AfterRequests(requests, |requests|).lines
  }

  // ---------------------------------------------------------------- bookkeeping

  ghost predicate Ordered(lay: Layout) {
    forall p, i | p in lay.graph && 0 <= i < |lay.graph[p]| :: Sorted(lay.graph[p][i])
  }

  /** Slot rows and lines correspond one to one, and every pid has lines 1..k with k > 0. */
  ghost predicate Booked(lay: Layout) {
    && (forall i, j | 0 <= i < j < |lay.slots| :: lay.slots[i] != lay.slots[j])
    && (forall p: Pid, line: nat :: Slot(p, line) in lay.slots <==> LineExists(lay, p, line))
    && (forall p | p in lay.graph :: |lay.graph[p]| > 0)
  }

  lemma OpenLineKeepsBooked(lay: Layout, status: Status, pid: Pid)
    requires Booked(lay)
    ensures Booked(OpenLine(lay, status, pid).lay)
  {
    var f := OpenLine(lay, status, pid);
    assert Slot(pid, f.line) !in lay.slots;
    forall p: Pid, line: nat ensures Slot(p, line) in f.lay.slots <==> LineExists(f.lay, p, line) {
      assert Slot(p, line) in f.lay.slots <==> Slot(p, line) in lay.slots || Slot(p, line) == Slot(pid, f.line);
    }
  }

  lemma InsertKeepsBooked(lay: Layout, line: nat, job: Job)
    requires Booked(lay) && LineExists(lay, job.pid, line)
    ensures Booked(Insert(lay, line, job))
  {
    var lay' := Insert(lay, line, job);
    forall p: Pid, l: nat ensures LineExists(lay', p, l) <==> LineExists(lay, p, l) {
    }
  }

  lemma FindLineKeepsBooked(lay: Layout, status: Status, job: Job)
    requires KnownStatus(lay, status) && Booked(lay)
    ensures Booked(FindLine(lay, status, job).lay)
  {
    OpenLineKeepsBooked(lay, status, job.pid);
  }

  lemma OpenLineKeepsOrdered(lay: Layout, status: Status, pid: Pid)
    requires Ordered(lay)
    ensures Ordered(OpenLine(lay, status, pid).lay)
  {
  }

  lemma FindLineKeepsOrdered(lay: Layout, status: Status, job: Job)
    requires KnownStatus(lay, status) && Ordered(lay)
    ensures Ordered(FindLine(lay, status, job).lay)
  {
  }

  lemma InsertKeepsOrdered(lay: Layout, line: nat, job: Job)
    requires Ordered(lay) && LineExists(lay, job.pid, line)
    ensures Ordered(Insert(lay, line, job))
  {
    InsertKeepsSorted(Stored(lay, job.pid, line), job.iv);
  }

  lemma PlaceKeepsBooked(lay: Layout, status: Status, job: Job)
    requires KnownStatus(lay, status) && Booked(lay)
    ensures Booked(Place(lay, status, job).lay)
  {
    var f := FindLine(lay, status, job);
    FindLineKeepsBooked(lay, status, job);
    FoundLineIsFree(lay, status, job);
    InsertKeepsBooked(f.lay, f.line, job);
  }

  lemma PlaceKeepsOrdered(lay: Layout, status: Status, job: Job)
    requires KnownStatus(lay, status) && Ordered(lay)
    ensures Ordered(Place(lay, status, job).lay)
  {
    var f := FindLine(lay, status, job);
    FindLineKeepsOrdered(lay, status, job);
    FoundLineIsFree(lay, status, job);
    InsertKeepsOrdered(f.lay, f.line, job);
  }

  lemma {:induction false} RequestKeepsBooked(lay: Layout, status: Status, jobs: seq<Job>, k: nat)
    requires KnownStatus(lay, status) && k <= |jobs| && Booked(lay) && Ordered(lay)
    ensures Booked(After(lay, status, jobs, k).lay) && Ordered(After(lay, status, jobs, k).lay)
  {
    hide Place, Booked, Ordered;
    if k > 0 {
      RequestKeepsBooked(lay, status, jobs, k - 1);
      var r := After(lay, status, jobs, k - 1);
      PlaceKeepsBooked(r.lay, r.status, jobs[k - 1]);
      PlaceKeepsOrdered(r.lay, r.status, jobs[k - 1]);
    }
  }

  /** In every reachable layout, slot rows and lines correspond one to one and every line is in order. */
  lemma {:induction false} RunsAreBooked(requests: seq<seq<Job>>, k: nat)
    requires k <= |requests|
    ensures Booked(AfterRequests(requests, k).lay) && Ordered(AfterRequests(requests, k).lay)
  {
    hide After;
    if k > 0 {
      RunsAreBooked(requests, k - 1);
      RequestKeepsBooked(AfterRequests(requests, k - 1).lay, map[], requests[k - 1], |requests[k - 1]|);
    }
  }

  /**
    A line is opened exactly when every existing line of the span's process conflicts with it, unless
    it has length zero and its request already has a line of the process.
   */
  lemma OpensOnlyWhenAllConflict(lay: Layout, status: Status, job: Job)
    requires KnownStatus(lay, status)
    ensures FindLine(lay, status, job).lay.slots != lay.slots
       <==> && !(job.pid in status && job.iv.start == job.iv.end)
            && (job.pid !in lay.graph
                || forall i | 0 <= i < |lay.graph[job.pid]| ::
                     Conflicts(lay.graph[job.pid][i], job.iv.start, job.iv.end))
    ensures FindLine(lay, status, job).lay.slots != lay.slots ==>
              FindLine(lay, status, job).line == if job.pid in lay.graph then |lay.graph[job.pid]| + 1 else 1
  {
    hide Conflicts, FindLine;
    var f := FindLine(lay, status, job);
    FoundLineIs(lay, status, job);
    if f.lay.slots != lay.slots && job.pid in lay.graph {
      forall i | 0 <= i < |lay.graph[job.pid]| ensures Conflicts(lay.graph[job.pid][i], job.iv.start, job.iv.end) {
        assert !Free(lay, job.pid, i + 1, job.iv);
      }
    }
  }

  // ---------------------------------------------------------------- safety

  ghost predicate Safe(lay: Layout) {
    forall p, i | p in lay.graph && 0 <= i < |lay.graph[p]| :: Chained(lay.graph[p][i])
  }

  /** The shortcut that goes wrong: a span of length zero, kept on a line where it falls inside a stored span. */
  predicate BadShortcut(lay: Layout, status: Status, job: Job)
    requires KnownStatus(lay, status)
  {
    job.iv.start == job.iv.end && job.pid in status
    && Conflicts(Stored(lay, job.pid, status[job.pid]), job.iv.start, job.iv.end)
  }

  /** Unless the shortcut goes wrong, the line found has no conflict. */
  lemma FoundLineIsFree(lay: Layout, status: Status, job: Job)
    requires KnownStatus(lay, status)
    ensures LineExists(FindLine(lay, status, job).lay, job.pid, FindLine(lay, status, job).line)
    ensures BadShortcut(lay, status, job)
       <==> Conflicts(Stored(FindLine(lay, status, job).lay, job.pid, FindLine(lay, status, job).line),
                      job.iv.start, job.iv.end)
  {
  }

  lemma FindLineKeepsSafe(lay: Layout, status: Status, job: Job)
    requires KnownStatus(lay, status)
    ensures Safe(FindLine(lay, status, job).lay) <==> Safe(lay)
    ensures Ordered(FindLine(lay, status, job).lay) <==> Ordered(lay)
  {
    var f := FindLine(lay, status, job);
    if f.lay != lay {
      var lines := if job.pid in lay.graph then lay.graph[job.pid] else [];
      assert f.lay.graph[job.pid] == lines + [[]];
      forall i | 0 <= i < |lines| ensures f.lay.graph[job.pid][i] == lines[i] {}
      forall p | p in lay.graph && p != job.pid ensures f.lay.graph[p] == lay.graph[p] {}
      if Safe(f.lay) {
        forall p, i | p in lay.graph && 0 <= i < |lay.graph[p]| ensures Chained(lay.graph[p][i]) {
          assert f.lay.graph[p][i] == lay.graph[p][i];
        }
      }
      if Ordered(f.lay) {
        forall p, i | p in lay.graph && 0 <= i < |lay.graph[p]| ensures Sorted(lay.graph[p][i]) {
          assert f.lay.graph[p][i] == lay.graph[p][i];
        }
      }
    }
  }

  lemma InsertIsSafeIff(lay: Layout, line: nat, job: Job)
    requires LineExists(lay, job.pid, line)
    ensures Safe(Insert(lay, line, job)) ==> Safe(lay)
    ensures Safe(lay) ==> (Safe(Insert(lay, line, job)) <==> Chained(Inserted(Stored(lay, job.pid, line), job.iv)))
  {
    var lay' := Insert(lay, line, job);
    assert lay'.graph[job.pid][line - 1] == Inserted(Stored(lay, job.pid, line), job.iv);
    if Safe(lay') {
      forall p, i | p in lay.graph && 0 <= i < |lay.graph[p]| ensures Chained(lay.graph[p][i]) {
        assert Chained(lay'.graph[p][i]);
        if p == job.pid && i == line - 1 { BrokenStaysBroken(lay.graph[p][i], job.iv); }
      }
    }
  }

  /** One placement keeps the layout safe exactly when it does not take the bad shortcut. */
  lemma PlaceIsSafeIff(lay: Layout, status: Status, job: Job)
    requires KnownStatus(lay, status) && Ordered(lay)
    ensures Safe(Place(lay, status, job).lay) <==> Safe(lay) && !BadShortcut(lay, status, job)
  {
    var f := FindLine(lay, status, job);
    FoundLineIsFree(lay, status, job);
    FindLineKeepsSafe(lay, status, job);
    InsertIsSafeIff(f.lay, f.line, job);
    var s := Stored(f.lay, job.pid, f.line);
    if Safe(f.lay) {
      if BadShortcut(lay, status, job) {
        ZeroLengthInsertIsExact(s, job.iv.start);
        assert job.iv == Interval(job.iv.start, job.iv.start);
      } else {
        FreeInsertKeepsChained(s, job.iv);
      }
    }
  }

  /** None of the first k spans of the request takes the bad shortcut. */
  predicate Clean(lay: Layout, status: Status, jobs: seq<Job>, k: nat)
    requires KnownStatus(lay, status) && k <= |jobs|
  {
    k == 0
    || (var r := After(lay, status, jobs, k - 1);
        Clean(lay, status, jobs, k - 1) && !BadShortcut(r.lay, r.status, jobs[k - 1]))
  }

  predicate CleanRequests(requests: seq<seq<Job>>, k: nat)
    requires k <= |requests|
  {
    k == 0
    || (CleanRequests(requests, k - 1)
        && Clean(AfterRequests(requests, k - 1).lay, map[], requests[k - 1], |requests[k - 1]|))
  }

  /** No span of the whole run takes the bad shortcut. */
  predicate CleanRun(requests: seq<seq<Job>>) {
    CleanRequests(requests, |requests|)
  }

  lemma {:induction false} CleanPrefix(lay: Layout, status: Status, jobs: seq<Job>, j: nat, k: nat)
    requires KnownStatus(lay, status) && j <= k <= |jobs| && Clean(lay, status, jobs, k)
    ensures Clean(lay, status, jobs, j)
  {
    hide Place;
    if j < k { CleanPrefix(lay, status, jobs, j, k - 1); }
  }

  lemma {:induction false} CleanRunPrefix(requests: seq<seq<Job>>, j: nat, k: nat)
    requires j <= k <= |requests| && CleanRequests(requests, k)
    ensures CleanRequests(requests, j)
  {
    hide After;
    if j < k { CleanRunPrefix(requests, j, k - 1); }
  }

  lemma {:induction false} RequestKeepsOrdered(lay: Layout, status: Status, jobs: seq<Job>, k: nat)
    requires KnownStatus(lay, status) && Ordered(lay) && k <= |jobs|
    ensures Ordered(After(lay, status, jobs, k).lay)
  {
    hide Place;
    if k > 0 {
      RequestKeepsOrdered(lay, status, jobs, k - 1);
      var r := After(lay, status, jobs, k - 1);
      PlaceKeepsOrdered(r.lay, r.status, jobs[k - 1]);
    }
  }

  lemma {:induction false} RequestIsSafeIff(lay: Layout, status: Status, jobs: seq<Job>, k: nat)
    requires KnownStatus(lay, status) && Ordered(lay) && k <= |jobs|
    ensures Safe(After(lay, status, jobs, k).lay) <==> Safe(lay) && Clean(lay, status, jobs, k)
  {
    hide Place;
    if k > 0 {
      RequestIsSafeIff(lay, status, jobs, k - 1);
      RequestKeepsOrdered(lay, status, jobs, k - 1);
      var r := After(lay, status, jobs, k - 1);
      PlaceIsSafeIff(r.lay, r.status, jobs[k - 1]);
    }
  }

  lemma {:induction false} RunPrefixIsSafeIff(requests: seq<seq<Job>>, k: nat)
    requires k <= |requests|
    ensures Safe(AfterRequests(requests, k).lay) <==> CleanRequests(requests, k)
  {
    hide After;
    if k > 0 {
      RunPrefixIsSafeIff(requests, k - 1);
      RunsAreBooked(requests, k - 1);
      RequestIsSafeIff(AfterRequests(requests, k - 1).lay, map[], requests[k - 1], |requests[k - 1]|);
    }
  }

  /** A whole run ends with all lines free of overlaps exactly when no placement took the bad shortcut. */
  lemma RunIsSafeIff(requests: seq<seq<Job>>)
    ensures Safe(RunLayout(requests)) <==> CleanRun(requests)
  {
    RunPrefixIsSafeIff(requests, |requests|);
  }

  /** No span has length zero after the converter has moved its end. */
  ghost predicate NoZeroLength(requests: seq<seq<Job>>) {
    forall q, i | 0 <= q < |requests| && 0 <= i < |requests[q]| :: requests[q][i].iv.start != requests[q][i].iv.end
  }

  lemma {:induction false} NonZeroIsClean(lay: Layout, status: Status, jobs: seq<Job>, k: nat)
    requires KnownStatus(lay, status) && k <= |jobs|
    requires forall i | 0 <= i < |jobs| :: jobs[i].iv.start != jobs[i].iv.end
    ensures Clean(lay, status, jobs, k)
  {
    hide Place;
    if k > 0 { NonZeroIsClean(lay, status, jobs, k - 1); }
  }

  lemma {:induction false} NonZeroPrefixIsClean(requests: seq<seq<Job>>, k: nat)
    requires NoZeroLength(requests) && k <= |requests|
    ensures CleanRequests(requests, k)
  {
    hide After;
    if k > 0 {
      NonZeroPrefixIsClean(requests, k - 1);
      NonZeroIsClean(AfterRequests(requests, k - 1).lay, map[], requests[k - 1], |requests[k - 1]|);
    }
  }

  /** Spans of any other length, even ones that run backwards, never make a layout unsafe. */
  lemma NonZeroRunsAreSafe(requests: seq<seq<Job>>)
    requires NoZeroLength(requests)
    ensures CleanRun(requests)
    ensures Safe(RunLayout(requests))
  {
    NonZeroPrefixIsClean(requests, |requests|);
    RunIsSafeIff(requests);
  }

  // ---------------------------------------------------------------- safety of the emitted lines

  /** The line holds the span. */
  ghost predicate Holds(lay: Layout, job: Job, line: nat) {
    LineExists(lay, job.pid, line) && job.iv in Stored(lay, job.pid, line)
  }

  lemma PlaceHolds(lay: Layout, status: Status, job: Job, was: Job, line: nat)
    requires KnownStatus(lay, status)
    ensures Holds(Place(lay, status, job).lay, job, Place(lay, status, job).line)
    ensures Holds(lay, was, line) ==> Holds(Place(lay, status, job).lay, was, line)
  {
    var f := FindLine(lay, status, job);
    FoundLineIsFree(lay, status, job);
    InsertedMember(Stored(f.lay, job.pid, f.line), job.iv, job.iv);
    InsertedMember(Stored(f.lay, job.pid, f.line), job.iv, was.iv);
  }

  /** A placement that does not take the bad shortcut overlaps nothing already on its line. */
  lemma PlaceOverlapsNothing(lay: Layout, status: Status, job: Job, was: Job)
    requires KnownStatus(lay, status) && Ordered(lay) && Safe(lay) && !BadShortcut(lay, status, job)
    requires was.pid == job.pid && Holds(lay, was, Place(lay, status, job).line)
    ensures !Overlaps(was.iv, job.iv)
  {
    var f := FindLine(lay, status, job);
    FoundLineIsFree(lay, status, job);
    var s := Stored(f.lay, job.pid, f.line);
    assert s == Stored(lay, job.pid, f.line);
    var k :| 0 <= k < |s| && s[k] == was.iv;
    TestIsSound(s, job.iv, k);
  }

  /** What was stored before a request is stored after it. */
  lemma {:induction false} RequestKeepsHeld(lay: Layout, status: Status, jobs: seq<Job>, k: nat, was: Job, line: nat)
    requires KnownStatus(lay, status) && k <= |jobs| && Holds(lay, was, line)
    ensures Holds(After(lay, status, jobs, k).lay, was, line)
  {
    hide Place;
    if k > 0 {
      RequestKeepsHeld(lay, status, jobs, k - 1, was, line);
      var r := After(lay, status, jobs, k - 1);
      PlaceHolds(r.lay, r.status, jobs[k - 1], was, line);
    }
  }

  lemma {:induction false} LinesAreFinal(lay: Layout, status: Status, jobs: seq<Job>, i: nat, j: nat, k: nat)
    requires KnownStatus(lay, status) && i < j <= k <= |jobs|
    ensures After(lay, status, jobs, j).lines[i] == After(lay, status, jobs, k).lines[i]
  {
    hide Place;
    if j < k { LinesAreFinal(lay, status, jobs, i, j, k - 1); }
  }

  /** The line of span j is the one it is given when it is placed. */
  lemma LineOf(lay: Layout, status: Status, jobs: seq<Job>, j: nat, k: nat)
    requires KnownStatus(lay, status) && j < k <= |jobs|
    ensures After(lay, status, jobs, k).lines[j]
         == Place(After(lay, status, jobs, j).lay, After(lay, status, jobs, j).status, jobs[j]).line
  {
    hide Place;
    LinesAreFinal(lay, status, jobs, j, j + 1, k);
  }

  lemma {:induction false} RequestHolds(lay: Layout, status: Status, jobs: seq<Job>, i: nat, k: nat)
    requires KnownStatus(lay, status) && i < k <= |jobs|
    ensures Holds(After(lay, status, jobs, k).lay, jobs[i], After(lay, status, jobs, k).lines[i])
  {
    hide Place;
    var r := After(lay, status, jobs, k - 1);
    if i < k - 1 {
      RequestHolds(lay, status, jobs, i, k - 1);
      PlaceHolds(r.lay, r.status, jobs[k - 1], jobs[i], r.lines[i]);
    } else {
      PlaceHolds(r.lay, r.status, jobs[k - 1], jobs[i], 0);
    }
  }

  /** Span j of a request, against a span that was on its line when it was placed. */
  lemma PlacedMisses(lay: Layout, status: Status, jobs: seq<Job>, was: Job, j: nat)
    requires KnownStatus(lay, status) && j < |jobs|
    requires Ordered(lay) && Safe(lay) && Clean(lay, status, jobs, |jobs|)
    requires was.pid == jobs[j].pid
    requires Holds(After(lay, status, jobs, j).lay, was, After(lay, status, jobs, |jobs|).lines[j])
    ensures !Overlaps(was.iv, jobs[j].iv)
  {
    hide Place;
    var r := After(lay, status, jobs, j);
    LineOf(lay, status, jobs, j, |jobs|);
    CleanPrefix(lay, status, jobs, j + 1, |jobs|);
    RequestKeepsOrdered(lay, status, jobs, j);
    RequestIsSafeIff(lay, status, jobs, j);
    PlaceOverlapsNothing(r.lay, r.status, jobs[j], was);
  }

  /** Two spans of the same request. */
  lemma RequestMissesItself(lay: Layout, status: Status, jobs: seq<Job>, i: nat, j: nat)
    requires KnownStatus(lay, status) && i < j < |jobs|
    requires Ordered(lay) && Safe(lay) && Clean(lay, status, jobs, |jobs|)
    requires jobs[i].pid == jobs[j].pid
    requires After(lay, status, jobs, |jobs|).lines[i] == After(lay, status, jobs, |jobs|).lines[j]
    ensures !Overlaps(jobs[i].iv, jobs[j].iv)
  {
    hide Place;
    hide After;
    RequestHolds(lay, status, jobs, i, j);
    LinesAreFinal(lay, status, jobs, i, j, |jobs|);
    PlacedMisses(lay, status, jobs, jobs[i], j);
  }

  lemma {:induction false} RunLinesAreFinal(requests: seq<seq<Job>>, q: nat, k: nat)
    requires q < k <= |requests|
    ensures AfterRequests(requests, q + 1).lines[q] == AfterRequests(requests, k).lines[q]
  {
    hide Place; hide After;
    if q + 1 < k { RunLinesAreFinal(requests, q, k - 1); }
  }

  lemma RunLinesOf(requests: seq<seq<Job>>, q: nat)
    requires q < |requests|
    ensures RunLines(requests)[q]
         == After(AfterRequests(requests, q).lay, map[], requests[q], |requests[q]|).lines
  {
    RunLinesAreFinal(requests, q, |requests|);
  }

  lemma {:induction false} RunHolds(requests: seq<seq<Job>>, q: nat, i: nat, k: nat)
    requires q < k <= |requests| && i < |requests[q]|
    ensures Holds(AfterRequests(requests, k).lay, requests[q][i], RunLines(requests)[q][i])
  {
    hide After;
    var lay, jobs := AfterRequests(requests, k - 1).lay, requests[k - 1];
    if q < k - 1 {
      RunHolds(requests, q, i, k - 1);
      RequestKeepsHeld(lay, map[], jobs, |jobs|, requests[q][i], RunLines(requests)[q][i]);
    } else {
      RequestHolds(lay, map[], jobs, i, |jobs|);
      RunLinesOf(requests, q);
    }
  }

  /**
    In a run without bad shortcuts, two spans shown for the same pid on the same line never
    overlap, whichever requests they come from.
   */
  lemma ShownSpansNeverOverlap(requests: seq<seq<Job>>, p: nat, i: nat, q: nat, j: nat)
    requires CleanRun(requests)
    requires p < |requests| && i < |requests[p]| && q < |requests| && j < |requests[q]|
    requires p < q || (p == q && i < j)
    requires requests[p][i].pid == requests[q][j].pid
    requires RunLines(requests)[p][i] == RunLines(requests)[q][j]
    ensures !Overlaps(requests[p][i].iv, requests[q][j].iv)
  {
    hide Place;
    hide After;
    hide AfterRequests;
    var lay := AfterRequests(requests, q).lay;
    RunLinesOf(requests, q);
    RunsAreBooked(requests, q);
    CleanRunPrefix(requests, q + 1, |requests|);
    RunPrefixIsSafeIff(requests, q);
    if p < q {
      RunHolds(requests, p, i, q);
      RequestKeepsHeld(lay, map[], requests[q], j, requests[p][i], RunLines(requests)[p][i]);
      PlacedMisses(lay, map[], requests[q], requests[p][i], j);
    } else {
      RequestMissesItself(lay, map[], requests[q], i, j);
    }
  }

  /** A first span opens line 1. */
  lemma PlaceFirst(pid: Pid, iv: Interval)
    ensures Place(EMPTY, map[], Job(pid, iv)) == Found(1, Layout(map[pid := [[iv]]], [Slot(pid, 1)]), map[pid := 1])
  {
    hide Inserted;
    var job := Job(pid, iv);
    var none, empty: seq<seq<Interval>> := [], [[]];
    assert none + [[]] == empty;
    var lay := Layout(map[pid := empty], [Slot(pid, 1)]);
    assert OpenLine(EMPTY, map[], pid) == Found(1, lay, map[pid := 1]);
    assert FindLine(EMPTY, map[], job) == Found(1, lay, map[pid := 1]);
    InsertedFirst(iv);
    assert empty[0 := [iv]] == [[iv]];
    assert Insert(lay, 1, job).graph == map[pid := [[iv]]];
  }

  lemma InsertedFirst(iv: Interval)
    ensures Inserted([], iv) == [iv]
  {
  }

  /** A span that sticks to line 1, the only line. */
  lemma PlaceOnOnlyLine(pid: Pid, stored: seq<Interval>, iv: Interval, after: seq<Interval>)
    requires iv.start == iv.end || !Conflicts(stored, iv.start, iv.end)
    requires after == Inserted(stored, iv)
    ensures Place(Layout(map[pid := [stored]], [Slot(pid, 1)]), map[pid := 1], Job(pid, iv))
         == Found(1, Layout(map[pid := [after]], [Slot(pid, 1)]), map[pid := 1])
  {
    var lay := Layout(map[pid := [stored]], [Slot(pid, 1)]);
    assert [stored][0 := after] == [after];
    assert Insert(lay, 1, Job(pid, iv)).graph == map[pid := [after]];
  }

  lemma UnfoldThree(jobs: seq<Job>, f1: Found, f2: Found, f3: Found)
    requires |jobs| == 3
    requires f1 == Place(EMPTY, map[], jobs[0])
    requires f2 == Place(f1.lay, f1.status, jobs[1])
    requires f3 == Place(f2.lay, f2.status, jobs[2])
    ensures RunLines([jobs]) == [[f1.line, f2.line, f3.line]]
  {
    hide Place;
    assert After(EMPTY, map[], jobs, 0) == Outcome(EMPTY, map[], []);
    assert After(EMPTY, map[], jobs, 1) == Outcome(f1.lay, f1.status, [f1.line]);
    assert After(EMPTY, map[], jobs, 2) == Outcome(f2.lay, f2.status, [f1.line, f2.line]);
    assert After(EMPTY, map[], jobs, 3) == Outcome(f3.lay, f3.status, [f1.line, f2.line, f3.line]);
    assert AfterRequests([jobs], 0) == RunOutcome(EMPTY, []);
    assert AfterRequests([jobs], 1).lines == [[f1.line, f2.line, f3.line]];
  }

  /** Without the condition it fails: a span of length zero hides the span around it from the test. */
  lemma ZeroLengthSpanCausesOverlap(pid: Pid)
    ensures var jobs := [Job(pid, Interval(0, 10)), Job(pid, Interval(5, 5)), Job(pid, Interval(6, 8))];
            RunLines([jobs]) == [[1, 1, 1]] && Overlaps(jobs[0].iv, jobs[2].iv)
  {
    var a, b, c := Interval(0, 10), Interval(5, 5), Interval(6, 8);
    PlaceFirst(pid, a);
    assert LexIndex([a], b) == 1;
    PlaceOnOnlyLine(pid, [a], b, [a, b]);
    assert StartIndex([a, b], 6) == 2;
    PlaceOnOnlyLine(pid, [a, b], c, Inserted([a, b], c));
    var f1 := Place(EMPTY, map[], Job(pid, a));
    var f2 := Place(f1.lay, f1.status, Job(pid, b));
    UnfoldThree([Job(pid, a), Job(pid, b), Job(pid, c)], f1, f2, Place(f2.lay, f2.status, Job(pid, c)));
  }
}
