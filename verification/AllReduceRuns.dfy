/**
  The all-reduce theorems: over every interleaving of the ranks, for every list of group
  constructions and all-reduce calls, on different tensors or repeatedly on the same.
 */
module AllReduceRuns {
  import opened Tensors
  import opened Rendezvous
  import opened AllReduce
  import opened AllReduceCorrect

  /** Jobs for this world, on tensors below n. */
  ghost predicate ValidRun(world: nat, jobs: seq<Job>, n: nat) {
    && world > 0 && ValidJobs(world, jobs)
    && forall j | 0 <= j < |jobs| && !jobs[j].task.Build? :: jobs[j].tensor < n
  }

  /** What the ranks hold of tensor k. */
  function Inputs(ls: seq<Local>, k: nat): (ts: seq<Tensor>)
    ensures |ts| == |ls|
  {
    TensorsOf(CellsAt(ls, k))
  }

  /** All ranks hold tensors of the size the calls on them are made with. */
  ghost predicate Sized(ls: seq<Local>, jobs: seq<Job>) {
    forall j | 0 <= j < |jobs| && !jobs[j].task.Build? :: Uniform(Inputs(ls, jobs[j].tensor), jobs[j].task.numel)
  }

  /** What an all-reduce call leaves on every rank, from the tensors ts passed by the ranks. */
  function Reduced(q: Quantiser, world: nat, task: Task, ts: seq<Tensor>): (t: Tensor)
    requires world > 0 && ValidTask(world, task) && !task.Build?
  {
    match task
    case Flat(_) => SumTensor(ts)
    case Hierarchical(size, compress, numel, elementSize) =>
      if Compresses(compress, numel, elementSize)
      then CompressedSum(q, GroupSums(ts, world / size, size))
      else SumTensor(ts)
    case Fp8Gather(numel, elementSize) =>
      if FallsBack(world, numel, elementSize) then SumTensor(ts) else Recast(q, SumTensor(ts))
  }

  lemma WorldSum(q: Quantiser, k: nat, cells: seq<Cell>, r: nat)
    requires r < |cells|
    ensures MembersBelow(Collective(World(|cells|), SumReduce(k)), |cells|)
    ensures Execute(CellEffectOf(q), [Collective(World(|cells|), SumReduce(k))], cells)[r].t
         == SumTensor(TensorsOf(cells))
  {
    var c := Collective(World(|cells|), SumReduce(k));
    ExecuteOne(q, c, cells);
    GatherWorld(cells);
    WorldMember(|cells|, r);
  }

  lemma HierarchicalTask(q: Quantiser, k: nat, task: Task, cells: seq<Cell>, r: nat)
    requires r < |cells| && ValidTask(|cells|, task) && task.Hierarchical?
    requires Uniform(TensorsOf(cells), task.numel)
    ensures Below(TaskSchedule(|cells|, k, task), |cells|)
    ensures Execute(CellEffectOf(q), TaskSchedule(|cells|, k, task), cells)[r].t
         == Reduced(q, |cells|, task, TensorsOf(cells))
  {
    var n := |cells| / task.groupSize;
    EvenGroups(|cells|, task.groupSize);
    GroupedSumIsFlat(TensorsOf(cells), n, task.groupSize, task.numel);
    HierarchicalResult(q, |cells|, k, task, cells, r);
  }

  /** One call, executed alone. */
  lemma TaskResult(q: Quantiser, k: nat, task: Task, cells: seq<Cell>, r: nat)
    requires r < |cells| && ValidTask(|cells|, task) && !task.Build?
    requires Uniform(TensorsOf(cells), task.numel)
    ensures Below(TaskSchedule(|cells|, k, task), |cells|)
    ensures Execute(CellEffectOf(q), TaskSchedule(|cells|, k, task), cells)[r].t
         == Reduced(q, |cells|, task, TensorsOf(cells))
  {
    match task
    case Flat(_) => WorldSum(q, k, cells, r);
    case Hierarchical(_, _, _, _) => HierarchicalTask(q, k, task, cells, r);
    case Fp8Gather(numel, elementSize) =>
      if FallsBack(|cells|, numel, elementSize) {
        WorldSum(q, k, cells, r);
      } else {
        GatherResult(q, k, numel, elementSize, cells, r);
      }
  }

  lemma TaskWorks(world: nat, j: nat, task: Task)
    requires world > 0 && ValidTask(world, task) && !task.Build?
    ensures Works(TaskSchedule(world, j, task), j)
  {
  }

  /** A task on tensor j leaves the other columns alone and its own result in column j. */
  lemma TaskColumn(q: Quantiser, world: nat, j: nat, task: Task, ls: seq<Local>, n: nat, k: nat, r: nat)
    requires r < world && |ls| == world && ValidTask(world, task)
    requires Rows(ls, n) && j < n && k < n
    requires !task.Build? ==> Uniform(Inputs(ls, j), task.numel)
    ensures Below(TaskSchedule(world, j, task), world)
    ensures Rows(Execute(EffectOf(q), TaskSchedule(world, j, task), ls), n)
    ensures k != j ==> CellsAt(Execute(EffectOf(q), TaskSchedule(world, j, task), ls), k) == CellsAt(ls, k)
    ensures k == j && !task.Build? ==>
              CellsAt(Execute(EffectOf(q), TaskSchedule(world, j, task), ls), k)[r].t
              == Reduced(q, world, task, Inputs(ls, k))
  {
    TaskIsSane(world, j, task);
    var cs := TaskSchedule(world, j, task);
    if task.Build? {
      BuildingKeeps(q, cs, ls);
    } else {
      TaskWorks(world, j, task);
      ColumnExecutes(q, cs, ls, n, j, k);
      if k == j {
        TaskResult(q, j, task, CellsAt(ls, j), r);
      }
    }
  }

  // ---------------------------------------------------------------- one job after the other

  /** The ranks reduce in place: what they hold of tensor k after the jobs, from what they held before. */
  ghost function Held(q: Quantiser, world: nat, jobs: seq<Job>, k: nat, ts: seq<Tensor>): (out: seq<Tensor>)
    requires world > 0 && ValidJobs(world, jobs)
    ensures |out| == |ts|
  {
    if jobs == [] then ts
    else
      var j := |jobs| - 1;
      AfterJob(q, world, jobs[j], k, Held(q, world, jobs[..j], k, ts))
  }

  ghost function AfterJob(q: Quantiser, world: nat, job: Job, k: nat, ts: seq<Tensor>): (out: seq<Tensor>)
    requires world > 0 && ValidTask(world, job.task)
    ensures |out| == |ts|
  {
    if job.task.Build? || job.tensor != k then ts
    else
      var t := Reduced(q, world, job.task, ts);
      seq(|ts|, (r: nat) => t)
  }

  lemma ReducedLength(q: Quantiser, world: nat, task: Task, ts: seq<Tensor>)
    requires world > 0 && ValidTask(world, task) && !task.Build?
    requires |ts| == world && Uniform(ts, task.numel)
    ensures |Reduced(q, world, task, ts)| == task.numel
  {
    hide CompressedSum, Recast, GroupSums;
    SumTensorLength(ts, task.numel);
    if task.Hierarchical? {
      var n := world / task.groupSize;
      EvenGroups(world, task.groupSize);
      GroupedSumIsFlat(ts, n, task.groupSize, task.numel);
      CompressedLength(q, GroupSums(ts, n, task.groupSize), task.numel);
    }
  }

  lemma SumTensorLength(ts: seq<Tensor>, n: nat)
    requires ts != [] && Uniform(ts, n)
    ensures |SumTensor(ts)| == n
  {
    assert |ts[0]| == n;
  }

  /** Reducing in place keeps the size. */
  lemma {:induction false} HeldKeepsSize(q: Quantiser, world: nat, jobs: seq<Job>, k: nat, ts: seq<Tensor>, size: nat)
    requires world > 0 && ValidJobs(world, jobs) && |ts| == world && Uniform(ts, size)
    requires forall j | 0 <= j < |jobs| && !jobs[j].task.Build? && jobs[j].tensor == k :: jobs[j].task.numel == size
    ensures Uniform(Held(q, world, jobs, k, ts), size)
  {
    hide Reduced;
    if jobs != [] {
      var j := |jobs| - 1;
      HeldKeepsSize(q, world, jobs[..j], k, ts, size);
      if !jobs[j].task.Build? && jobs[j].tensor == k {
        ReducedLength(q, world, jobs[j].task, Held(q, world, jobs[..j], k, ts));
      }
    }
  }

  /** The size of tensor k, if a job works on it. */
  lemma JobsAgreeOnSize(ls: seq<Local>, jobs: seq<Job>, j: nat, k: nat)
    requires Sized(ls, jobs) && ls != [] && j < |jobs| && !jobs[j].task.Build? && jobs[j].tensor == k
    ensures Uniform(Inputs(ls, k), jobs[j].task.numel)
    ensures forall i | 0 <= i < |jobs| && !jobs[i].task.Build? && jobs[i].tensor == k ::
              jobs[i].task.numel == jobs[j].task.numel
  {
    hide Inputs;
    forall i | 0 <= i < |jobs| && !jobs[i].task.Build? && jobs[i].tensor == k
      ensures jobs[i].task.numel == jobs[j].task.numel
    {
      assert |Inputs(ls, k)[0]| == jobs[i].task.numel;
    }
  }

  /** The columns after one more job. */
  lemma JobColumn(q: Quantiser, world: nat, job: Job, ls: seq<Local>, n: nat, k: nat)
    requires world > 0 && |ls| == world && ValidTask(world, job.task) && Rows(ls, n) && k < n
    requires !job.task.Build? ==> job.tensor < n && Uniform(Inputs(ls, job.tensor), job.task.numel)
    ensures Below(TaskSchedule(world, job.tensor, job.task), world)
    ensures Rows(Execute(EffectOf(q), TaskSchedule(world, job.tensor, job.task), ls), n)
    ensures Inputs(Execute(EffectOf(q), TaskSchedule(world, job.tensor, job.task), ls), k)
         == AfterJob(q, world, job, k, Inputs(ls, k))
  {
    hide TaskSchedule, Execute, Reduced, Apply;
    var cs := TaskSchedule(world, job.tensor, job.task);
    if job.task.Build? {
      TaskIsSane(world, job.tensor, job.task);
      BuildOnly(world, job.tensor, job.task);
      BuildingKeeps(q, cs, ls);
    } else {
      TaskColumn(q, world, job.tensor, job.task, ls, n, k, 0);
      forall r | 0 <= r < world
        ensures Inputs(Execute(EffectOf(q), cs, ls), k)[r] == AfterJob(q, world, job, k, Inputs(ls, k))[r]
      {
        TaskColumn(q, world, job.tensor, job.task, ls, n, k, r);
      }
    }
  }

  lemma BuildOnly(world: nat, k: nat, task: Task)
    requires world > 0 && ValidTask(world, task) && task.Build?
    ensures forall i | 0 <= i < |TaskSchedule(world, k, task)| :: TaskSchedule(world, k, task)[i].kind.NewGroup?
  {
  }

  /** The schedule, executed collective by collective, leaves what the jobs leave one after the other. */
  lemma {:induction false} ScheduleResult(q: Quantiser, world: nat, jobs: seq<Job>, ls: seq<Local>, n: nat, k: nat)
    requires ValidRun(world, jobs, n) && |ls| == world && Rows(ls, n) && k < n && Sized(ls, jobs)
    ensures Below(Schedule(world, jobs), world)
    ensures Rows(Execute(EffectOf(q), Schedule(world, jobs), ls), n)
    ensures Inputs(Execute(EffectOf(q), Schedule(world, jobs), ls), k) == Held(q, world, jobs, k, Inputs(ls, k))
  {
    hide TaskSchedule, AfterJob, Inputs, Fired;
    if jobs != [] {
      var j := |jobs| - 1;
      var front, job := jobs[..j], jobs[j];
      ScheduleResult(q, world, front, ls, n, k);
      var mid := Execute(EffectOf(q), Schedule(world, front), ls);
      if !job.task.Build? {
        ScheduleResult(q, world, front, ls, n, job.tensor);
        JobsAgreeOnSize(ls, jobs, j, job.tensor);
        HeldKeepsSize(q, world, front, job.tensor, Inputs(ls, job.tensor), job.task.numel);
      }
      JobColumn(q, world, job, mid, n, k);
      ExecuteConcat(EffectOf(q), Schedule(world, front), TaskSchedule(world, job.tensor, job.task), ls);
    }
  }

  // ---------------------------------------------------------------- every interleaving

  /**
    Deadlock freedom: every interleaving of the ranks' programs, wherever it has got to, can be
    carried on to the end, and none takes more steps than the programs have arrivals and completions.
   */
  lemma EveryInterleavingCompletes(q: Quantiser, world: nat, jobs: seq<Job>, run: seq<State<Local>>)
    returns (full: seq<State<Local>>)
    requires world > 0 && ValidJobs(world, jobs) && IsRun(MachineOf(world, jobs, q), run)
    ensures IsRun(MachineOf(world, jobs, q), full) && run <= full
    ensures Finished(MachineOf(world, jobs, q), full[|full| - 1])
    ensures |full| - 1 <= Work(MachineOf(world, jobs, q), run[0], world)
  {
    MachineProjects(world, jobs, q);
    full := RunsFinish(MachineOf(world, jobs, q), Schedule(world, jobs), run);
    RunsAreBounded(MachineOf(world, jobs, q), Schedule(world, jobs), full);
  }

  /** Two ranks that wait for one another wait at the same collective. */
  lemma RanksMeetAtSameCollective(q: Quantiser, world: nat, jobs: seq<Job>, run: seq<State<Local>>, i: nat,
                                  r: nat, p: nat, c: Call, d: Call)
    requires world > 0 && ValidJobs(world, jobs) && IsRun(MachineOf(world, jobs, q), run) && i < |run|
    requires NextIs(MachineOf(world, jobs, q), run[i], r, c) && NextIs(MachineOf(world, jobs, q), run[i], p, d)
    requires p in c.members && r in d.members
    ensures c == d
  {
    MachineProjects(world, jobs, q);
    BlockedMembersAgree(MachineOf(world, jobs, q), Schedule(world, jobs), run, i, r, p, c, d);
  }

  /**
    Refinement: however the ranks interleave, when all are done every rank holds of every tensor
    what the calls on it leave, one after the other, each reducing what the one before it left.
   */
  lemma EveryInterleavingReduces(q: Quantiser, world: nat, jobs: seq<Job>, n: nat, run: seq<State<Local>>, k: nat,
                                 r: nat)
    requires ValidRun(world, jobs, n) && IsRun(MachineOf(world, jobs, q), run)
    requires Finished(MachineOf(world, jobs, q), run[|run| - 1])
    requires Rows(run[0].local, n) && Sized(run[0].local, jobs)
    requires k < n && r < world
    ensures |run[|run| - 1].local| == world && |run[|run| - 1].local[r]| == n
    ensures run[|run| - 1].local[r][k].t == Held(q, world, jobs, k, Inputs(run[0].local, k))[r]
  {
    hide Schedule, Execute, Held;
    var m := MachineOf(world, jobs, q);
    MachineProjects(world, jobs, q);
    assert Shaped(m, run[0]);
    FinishedRunFollowsSchedule(m, Schedule(world, jobs), run);
    ScheduleResult(q, world, jobs, run[0].local, n, k);
    var last := run[|run| - 1].local;
    assert Inputs(last, k)[r] == last[r][k].t;
  }

  /** Agreement: once a call has worked on a tensor, all ranks hold the same of it. */
  lemma {:induction false} RanksAgree(q: Quantiser, world: nat, jobs: seq<Job>, k: nat, ts: seq<Tensor>, j: nat,
                                      r: nat, p: nat)
    requires world > 0 && ValidJobs(world, jobs) && r < |ts| && p < |ts|
    requires j < |jobs| && !jobs[j].task.Build? && jobs[j].tensor == k
    ensures Held(q, world, jobs, k, ts)[r] == Held(q, world, jobs, k, ts)[p]
  {
    hide Reduced;
    var n := |jobs| - 1;
    if j < n { RanksAgree(q, world, jobs[..n], k, ts, j, r, p); }
  }

  /** A tensor that one call alone works on holds that call's result: the flat sum unless it compresses. */
  lemma {:induction false} HeldAfterOneCall(q: Quantiser, world: nat, jobs: seq<Job>, k: nat, ts: seq<Tensor>,
                                            j: nat, r: nat)
    requires world > 0 && ValidJobs(world, jobs) && r < |ts|
    requires j < |jobs| && !jobs[j].task.Build? && jobs[j].tensor == k
    requires forall i | 0 <= i < |jobs| && i != j :: jobs[i].task.Build? || jobs[i].tensor != k
    ensures Held(q, world, jobs, k, ts)[r] == Reduced(q, world, jobs[j].task, ts)
  {
    hide Reduced;
    var n := |jobs| - 1;
    if j < n {
      HeldAfterOneCall(q, world, jobs[..n], k, ts, j, r);
    } else {
      HeldUntouched(q, world, jobs[..n], k, ts);
    }
  }

  lemma {:induction false} HeldUntouched(q: Quantiser, world: nat, jobs: seq<Job>, k: nat, ts: seq<Tensor>)
    requires world > 0 && ValidJobs(world, jobs)
    requires forall i | 0 <= i < |jobs| :: jobs[i].task.Build? || jobs[i].tensor != k
    ensures Held(q, world, jobs, k, ts) == ts
  {
    hide Reduced;
    if jobs != [] { HeldUntouched(q, world, jobs[..|jobs| - 1], k, ts); }
  }

  // ---------------------------------------------------------------- the price of compression

  /** How many casts lie between the call's result and the exact sum. */
  function CastCount(world: nat, task: Task): (n: nat)
    requires world > 0 && ValidTask(world, task) && !task.Build?
  {
    match task
    case Flat(_) => 0
    case Hierarchical(size, compress, numel, elementSize) =>
      if Compresses(compress, numel, elementSize) then world / size else 0
    case Fp8Gather(numel, elementSize) => if FallsBack(world, numel, elementSize) then 0 else 1
  }

  /** The magnitude the call scales by. */
  function Magnitude(world: nat, task: Task, ts: seq<Tensor>): (a: Positive)
    requires world > 0 && ValidTask(world, task) && !task.Build?
  {
    if task.Hierarchical? then CommonAmax(GroupSums(ts, world / task.groupSize, task.groupSize))
    else Amax(SumTensor(ts))
  }

  lemma RecastError(q: Quantiser, eps: real, t: Tensor, e: nat)
    requires Within(q, eps) && e < |t|
    ensures Off(Recast(q, t)[e], t[e], Times(1, eps), Amax(t))
  {
    var amax := Amax(t);
    var y := q(Scaled(t[e], Scale(amax)));
    ScaledInRange(t[e], amax);
    UnscaledOff(Recast(q, t)[e], y, t[e], Times(1, eps), amax, Scale(amax));
  }

  lemma NoError(x: real, amax: Positive)
    ensures Off(x, x, 0.0, amax)
  {
  }

  lemma CompressedIsClose(q: Quantiser, eps: real, world: nat, task: Task, ts: seq<Tensor>, e: nat)
    requires world > 0 && ValidTask(world, task) && task.Hierarchical?
    requires |ts| == world && Uniform(ts, task.numel) && e < task.numel
    requires Within(q, eps) && CastCount(world, task) > 0
    ensures |Reduced(q, world, task, ts)| == task.numel
    ensures Off(Reduced(q, world, task, ts)[e], SumTensor(ts)[e], Times(CastCount(world, task), eps),
                Magnitude(world, task, ts))
  {
    var size := task.groupSize;
    EvenGroups(world, size);
    GroupedSumIsFlat(ts, world / size, size, task.numel);
    CompressedSumError(q, eps, GroupSums(ts, world / size, size), task.numel, e);
  }

  lemma ReducedIsClose(q: Quantiser, eps: real, world: nat, task: Task, ts: seq<Tensor>, e: nat)
    requires world > 0 && ValidTask(world, task) && !task.Build?
    requires |ts| == world && Uniform(ts, task.numel) && e < task.numel
    requires Within(q, eps)
    ensures |Reduced(q, world, task, ts)| == task.numel == |SumTensor(ts)|
    ensures Off(Reduced(q, world, task, ts)[e], SumTensor(ts)[e], Times(CastCount(world, task), eps),
                Magnitude(world, task, ts))
  {
    assert |ts[0]| == task.numel;
    if CastCount(world, task) == 0 {
      NoError(SumTensor(ts)[e], Magnitude(world, task, ts));
    } else if task.Hierarchical? {
      CompressedIsClose(q, eps, world, task, ts, e);
    } else {
      RecastError(q, eps, SumTensor(ts), e);
    }
  }

  /**
    For a cast that errs by at most eps on the eight-bit range, a call's result is within
    casts * eps * amax / 448 of the exact sum, element by element; nothing is cast on the
    uncompressed paths, so there the bound is zero.
   */
  lemma ReducedIsAccurate(q: Quantiser, eps: real, world: nat, task: Task, ts: seq<Tensor>, e: nat)
    requires world > 0 && ValidTask(world, task) && !task.Build?
    requires |ts| == world && Uniform(ts, task.numel) && e < task.numel
    requires Within(q, eps)
    ensures |Reduced(q, world, task, ts)| == task.numel == |SumTensor(ts)|
    ensures Abs(Reduced(q, world, task, ts)[e] - SumTensor(ts)[e])
         <= CastCount(world, task) as real * eps * Magnitude(world, task, ts) / 448.0
  {
    hide Reduced, CastCount, Magnitude, SumTensor, Off, Times;
    ReducedIsClose(q, eps, world, task, ts, e);
    OffByCasts(Reduced(q, world, task, ts)[e], SumTensor(ts)[e], CastCount(world, task), eps,
               Magnitude(world, task, ts));
  }
}
