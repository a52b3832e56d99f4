/**
  What is cast to eight bits, and with which scale, in every state of every run: right before each
  cast its participants have agreed on a magnitude, and none of them holds anything larger.
 */
module AllReduceCasts {
  import opened Tensors
  import opened Rendezvous
  import opened AllReduce
  import opened AllReduceCorrect
  import opened AllReduceRuns

  /** The collective in front of a cast is the agreement on the magnitude, among the same ranks on the same tensor. */
  ghost predicate Announced(cs: seq<Call>, i: nat)
    requires i < |cs|
  {
    && (cs[i].kind.CompressedReduce? ==> i > 0 && cs[i - 1] == Collective(cs[i].members, MaxReduce(cs[i].kind.tensor)))
    && (cs[i].kind.GatherShards? ==> i > 0 && cs[i - 1] == Collective(cs[i].members, MaxShard(cs[i].kind.tensor)))
  }

  ghost predicate AllAnnounced(cs: seq<Call>) {
    forall i | 0 <= i < |cs| :: Announced(cs, i)
  }

  lemma AnnouncedConcat(a: seq<Call>, b: seq<Call>)
    requires AllAnnounced(a) && AllAnnounced(b)
    ensures AllAnnounced(a + b)
  {
    forall i | 0 <= i < |a + b| ensures Announced(a + b, i) {
      if i < |a| { assert Announced(a, i); } else { assert Announced(b, i - |a|); }
    }
  }

  lemma TaskIsAnnounced(world: nat, k: nat, task: Task)
    requires world > 0 && ValidTask(world, task)
    ensures AllAnnounced(TaskSchedule(world, k, task))
  {
    if task.Hierarchical? {
      var n, size := world / task.groupSize, task.groupSize;
      AnnouncedConcat(SumPhase(n, size, k), ExchangeCalls(world, task, k));
      AnnouncedConcat(SumPhase(n, size, k) + ExchangeCalls(world, task, k), CastPhase(n, size, k));
    }
  }

  lemma {:induction false} ScheduleIsAnnounced(world: nat, jobs: seq<Job>)
    requires world > 0 && ValidJobs(world, jobs)
    ensures AllAnnounced(Schedule(world, jobs))
  {
    hide TaskSchedule;
    if jobs != [] {
      var j := |jobs| - 1;
      ScheduleIsAnnounced(world, jobs[..j]);
      TaskIsAnnounced(world, jobs[j].tensor, jobs[j].task);
      AnnouncedConcat(Schedule(world, jobs[..j]), TaskSchedule(world, jobs[j].tensor, jobs[j].task));
    }
  }

  ghost function CellAt(ls: seq<Local>, r: nat, k: nat): (cell: Cell)
    requires r < |ls| && k < |ls[r]|
  {
    ls[r][k]
  }

  /** What this rank is about to cast for collective c. */
  ghost function ToCast(c: Call, cell: Cell): (t: Tensor) {
    if c.kind.GatherShards? then cell.shard else cell.t
  }

  /** After an agreement, a member's magnitude covers all it holds. */
  lemma AgreementCovers(q: Quantiser, c: Call, d: Call, ls: seq<Local>, n: nat, r: nat)
    requires MembersBelow(c, |ls|) && Rows(ls, n) && r in c.members && r < |ls| && c.members == d.members
    requires || (c.kind.MaxReduce? && d.kind == CompressedReduce(c.kind.tensor))
             || (c.kind.MaxShard? && d.kind == GatherShards(c.kind.tensor))
    requires c.kind.tensor < n
    ensures Rows(Fired(EffectOf(q), c, ls), n)
    ensures var cell := CellAt(Fired(EffectOf(q), c, ls), r, c.kind.tensor);
            && (forall e | 0 <= e < |ToCast(d, cell)| :: Abs(ToCast(d, cell)[e]) <= cell.amax)
            && forall p | p in c.members :: CellAt(Fired(EffectOf(q), c, ls), p, c.kind.tensor).amax == cell.amax
  {
    hide Amax, CommonAmax;
    FiredKeepsRows(q, c, ls, n);
    var k := c.kind.tensor;
    var cells := CellsAt(Gather(c.members, ls), k);
    var after := Fired(EffectOf(q), c, ls);
    forall p | p in c.members ensures after[p][k] == CellEffect(q, c, cells, ls[p][k], p) {
      assert after[p] == Apply(q, c, Gather(c.members, ls), ls[p], p);
    }
    var i :| 0 <= i < |c.members| && c.members[i] == r;
    assert cells[i] == ls[r][k];
    var ts := if c.kind.MaxReduce? then TensorsOf(cells) else ShardsOf(cells);
    assert ToCast(d, after[r][k]) == ts[i];
  }

  // ---------------------------------------------------------------- tensors and rows

  ghost predicate OnTensors(cs: seq<Call>, n: nat) {
    forall i | 0 <= i < |cs| :: cs[i].kind.NewGroup? || cs[i].kind.tensor < n
  }

  lemma TaskOnTensors(world: nat, k: nat, task: Task, n: nat)
    requires world > 0 && ValidTask(world, task) && (!task.Build? ==> k < n)
    ensures OnTensors(TaskSchedule(world, k, task), n)
  {
    if !task.Build? { TaskWorks(world, k, task); }
  }

  lemma {:induction false} ScheduleOnTensors(world: nat, jobs: seq<Job>, n: nat)
    requires ValidRun(world, jobs, n)
    ensures OnTensors(Schedule(world, jobs), n)
  {
    hide TaskSchedule;
    if jobs != [] {
      var j := |jobs| - 1;
      ScheduleOnTensors(world, jobs[..j], n);
      TaskOnTensors(world, jobs[j].tensor, jobs[j].task, n);
    }
  }

  lemma {:induction false} ExecuteKeepsRows(q: Quantiser, cs: seq<Call>, ls: seq<Local>, n: nat)
    requires Below(cs, |ls|) && Rows(ls, n)
    ensures Rows(Execute(EffectOf(q), cs, ls), n)
  {
    if cs != [] {
      var i := |cs| - 1;
      ExecuteKeepsRows(q, cs[..i], ls, n);
      FiredKeepsRows(q, cs[i], Execute(EffectOf(q), cs[..i], ls), n);
    }
  }

  lemma FiredKeepsRows(q: Quantiser, c: Call, ls: seq<Local>, n: nat)
    requires MembersBelow(c, |ls|) && Rows(ls, n)
    ensures Rows(Fired(EffectOf(q), c, ls), n)
  {
    var after := Fired(EffectOf(q), c, ls);
    forall r | 0 <= r < |after| ensures |after[r]| == n {
      assert |Apply(q, c, Gather(c.members, ls), ls[r], r)| == n;
    }
  }

  // ---------------------------------------------------------------- the theorem

  predicate IsCast(c: Call) {
    c.kind.CompressedReduce? || c.kind.GatherShards?
  }

  /** The cell holds a magnitude at least as large as everything the rank is about to cast. */
  ghost predicate Covered(c: Call, cell: Cell) {
    forall e | 0 <= e < |ToCast(c, cell)| :: Abs(ToCast(c, cell)[e]) <= cell.amax
  }

  lemma ExecuteLast(q: Quantiser, sched: seq<Call>, ls: seq<Local>, k: nat)
    requires 0 < k <= |sched| && Below(sched, |ls|)
    ensures Execute(EffectOf(q), sched[..k], ls)
         == Fired(EffectOf(q), sched[k - 1], Execute(EffectOf(q), sched[..k - 1], ls))
  {
    hide Apply;
    assert sched[..k][..k - 1] == sched[..k - 1];
  }

  /** Executing the schedule up to a cast leaves all members agreed on a magnitude that covers what they hold. */
  lemma CastIsCovered(q: Quantiser, sched: seq<Call>, ls: seq<Local>, n: nat, k: nat, r: nat, p: nat)
    requires k < |sched| && Below(sched, |ls|) && Rows(ls, n) && AllAnnounced(sched) && OnTensors(sched, n)
    requires IsCast(sched[k]) && r in sched[k].members && p in sched[k].members
    ensures r < |ls| && p < |ls| && sched[k].kind.tensor < n && Rows(Execute(EffectOf(q), sched[..k], ls), n)
    ensures Covered(sched[k], CellAt(Execute(EffectOf(q), sched[..k], ls), r, sched[k].kind.tensor))
    ensures CellAt(Execute(EffectOf(q), sched[..k], ls), r, sched[k].kind.tensor).amax
         == CellAt(Execute(EffectOf(q), sched[..k], ls), p, sched[k].kind.tensor).amax
  {
    hide Execute, Apply, Fired, Rows, ToCast;
    assert Announced(sched, k) && MembersBelow(sched[k], |ls|);
    ExecuteKeepsRows(q, sched[..k], ls, n);
    ExecuteKeepsRows(q, sched[..k - 1], ls, n);
    ExecuteLast(q, sched, ls, k);
    AgreementCovers(q, sched[k - 1], sched[k], Execute(EffectOf(q), sched[..k - 1], ls), n, r);
  }

  /**
    In every reachable state, a rank that comes to a cast has everything it is about to cast inside
    the eight-bit range at the scale it holds, and two ranks that come to that cast scale alike.
   */
  lemma NothingIsClipped(q: Quantiser, world: nat, jobs: seq<Job>, n: nat, run: seq<State<Local>>, i: nat,
                         r: nat, p: nat, c: Call)
    requires ValidRun(world, jobs, n) && IsRun(MachineOf(world, jobs, q), run) && i < |run| && Rows(run[0].local, n)
    requires NextIs(MachineOf(world, jobs, q), run[i], r, c) && NextIs(MachineOf(world, jobs, q), run[i], p, c)
    requires IsCast(c)
    ensures c.kind.tensor < n == |run[i].local[r]| == |run[i].local[p]|
    ensures run[i].local[r][c.kind.tensor].amax == run[i].local[p][c.kind.tensor].amax
    ensures var cell := run[i].local[r][c.kind.tensor];
            forall e | 0 <= e < |ToCast(c, cell)| :: Abs(Scaled(ToCast(c, cell)[e], Scale(cell.amax))) <= 448.0
  {
    hide Schedule, Execute, AllAnnounced, OnTensors;
    var m, sched := MachineOf(world, jobs, q), Schedule(world, jobs);
    MachineProjects(world, jobs, q);
    ScheduleIsSane(world, jobs);
    ScheduleIsAnnounced(world, jobs);
    ScheduleOnTensors(world, jobs, n);
    var k := MeetingRanksHold(m, sched, run, i, r, p, c);
    CastIsCovered(q, sched, run[0].local, n, k, r, p);
    var cell := run[i].local[r][c.kind.tensor];
    forall e | 0 <= e < |ToCast(c, cell)| ensures Abs(Scaled(ToCast(c, cell)[e], Scale(cell.amax))) <= FP8_MAX {
      ScaledInRange(ToCast(c, cell)[e], cell.amax);
    }
  }
}
