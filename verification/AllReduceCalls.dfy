/**
  What a single call does, said of its own parameters: when it compresses, which collectives it
  issues, and what every rank holds of its tensor in the end.
 */
module AllReduceCalls {
  import opened Tensors
  import opened Rendezvous
  import opened AllReduce
  import opened AllReduceCorrect
  import opened AllReduceRuns

  /** Building issues one construction for each group of consecutive ranks, in order, and then one for the leaders. */
  lemma BuildsEveryGroup(world: nat, r: nat, size: nat)
    requires r < world && size > 0 && world % size == 0
    ensures var cs := TaskProgram(world, r, 0, Build(size));
            && |cs| == world / size + 1
            && (forall g | 0 <= g < world / size ::
                  && cs[g].members == World(world) && cs[g].kind.NewGroup? && |cs[g].kind.ranks| == size
                  && forall i | 0 <= i < size :: cs[g].kind.ranks[i] == g * size + i)
            && cs[world / size].members == World(world) && cs[world / size].kind.NewGroup?
            && |cs[world / size].kind.ranks| == world / size
            && forall g | 0 <= g < world / size :: cs[world / size].kind.ranks[g] == g * size
  {
    hide Offset;
    forall g: nat ensures Offset(g, size) == g * size { OffsetIsProduct(g, size); }
  }

  /** The calls of a hierarchical all-reduce, by rank and by the parameters. */
  lemma HierarchicalCalls(world: nat, r: nat, k: nat, size: nat, compress: bool, numel: nat, elementSize: nat)
    requires r < world && size > 0 && world % size == 0
    ensures var cs := TaskProgram(world, r, k, Hierarchical(size, compress, numel, elementSize));
            var group, leaders := Block(r / size, size), Leaders(world / size, size);
            var first, last := Collective(group, SumReduce(k)), Collective(group, Broadcast(k, r / size * size));
            cs == if r % size != 0 then [first, last]
                  else if compress && numel * elementSize >= 1048576
                  then [first, Collective(leaders, MaxReduce(k)), Collective(leaders, CompressedReduce(k)), last]
                  else [first, Collective(leaders, SumReduce(k)), last]
  {
    hide Offset, PieceOf, Block, Leaders;
    PieceIsQuotient(r, size);
    OffsetIsProduct(r / size, size);
    EvenGroups(world, size);
    InLeaders(r, world / size, size);
    assert r == r / size * size + r % size;
  }

  /** The calls of a gather all-reduce, by the parameters. */
  lemma GatherCallsAre(world: nat, r: nat, k: nat, numel: nat, elementSize: nat)
    requires r < world
    ensures var cs, w := TaskProgram(world, r, k, Fp8Gather(numel, elementSize)), World(world);
            cs == if numel % world != 0 || numel * elementSize < 1048576 then [Collective(w, SumReduce(k))]
                  else [Collective(w, ReduceScatter(k)), Collective(w, MaxShard(k)), Collective(w, GatherShards(k))]
  {
  }

  /** What a call leaves, by the parameters. */
  lemma ReducedIs(q: Quantiser, world: nat, task: Task, ts: seq<Tensor>)
    requires world > 0 && ValidTask(world, task) && !task.Build?
    ensures task.Flat? ==> Reduced(q, world, task, ts) == SumTensor(ts)
    ensures task.Hierarchical? ==>
              Reduced(q, world, task, ts)
              == if task.compress && task.numel * task.elementSize >= 1048576
                 then CompressedSum(q, GroupSums(ts, world / task.groupSize, task.groupSize)) else SumTensor(ts)
    ensures task.Fp8Gather? ==>
              Reduced(q, world, task, ts)
              == if task.numel % world == 0 && task.numel * task.elementSize >= 1048576
                 then Recast(q, SumTensor(ts)) else SumTensor(ts)
  {
  }

  lemma ScaleIs(amax: Positive)
    ensures Scale(amax) == 448.0 / amax
  {
  }

  lemma CastColumn(q: Quantiser, ts: seq<Tensor>, n: nat, e: nat, scale: Positive, casts: seq<real>)
    requires Uniform(ts, n) && e < n
    requires |casts| == |ts| && forall i | 0 <= i < |ts| :: casts[i] == q(ts[i][e] * scale)
    ensures Casts(q, ScaledColumn(ts, e, scale)) == casts
  {
    forall i | 0 <= i < |ts| ensures Casts(q, ScaledColumn(ts, e, scale))[i] == casts[i] {
      var y := ts[i][e] * scale;
      assert ScaledColumn(ts, e, scale)[i] == y;
      assert casts[i] == q(y);
    }
  }

  /** An element of a compressed sum: the terms scaled to 448, each cast, added, and scaled back. */
  lemma CompressedSumIs(q: Quantiser, ts: seq<Tensor>, n: nat, e: nat, scale: Positive, casts: seq<real>)
    requires ts != [] && Uniform(ts, n) && e < n && scale == 448.0 / CommonAmax(ts)
    requires |casts| == |ts| && forall i | 0 <= i < |ts| :: casts[i] == q(ts[i][e] * scale)
    ensures |CompressedSum(q, ts)| == n && CompressedSum(q, ts)[e] == Sum(casts) / scale
  {
    hide CompressedSum, CommonAmax, Scale, Casts, ScaledColumn, Sum;
    ScaleIs(CommonAmax(ts));
    CompressedSumAt(q, ts, n, e, scale);
    CastColumn(q, ts, n, e, scale, casts);
  }

  /** An element of a gathered sum, scaled to 448, cast, and scaled back. */
  lemma RecastIs(q: Quantiser, t: Tensor, e: nat, scale: Positive)
    requires e < |t| && scale == 448.0 / Amax(t)
    ensures Recast(q, t)[e] == q(t[e] * scale) / scale
  {
    hide Amax, Scale;
    ScaleIs(Amax(t));
    var y := t[e] * scale;
    assert Scaled(t[e], scale) == y;
    assert Quantise(q, t, scale)[e] == q(y);
  }

  /** The magnitude a call scales by is that of some element it casts, or the floor. */
  lemma MagnitudeIsReached(world: nat, task: Task, ts: seq<Tensor>)
    requires world > 0 && ValidTask(world, task) && !task.Build? && |ts| == world
    ensures var a := Magnitude(world, task, ts);
            var sums := if task.Hierarchical? then GroupSums(ts, world / task.groupSize, task.groupSize)
                        else [SumTensor(ts)];
            || a == 0.000000000001
            || exists i, e :: 0 <= i < |sums| && 0 <= e < |sums[i]| && Abs(sums[i][e]) == a
  {
    hide Amax, CommonAmax, SumTensor;
    if task.Hierarchical? {
      EvenGroups(world, task.groupSize);
      CommonAmaxIsReached(GroupSums(ts, world / task.groupSize, task.groupSize));
    } else {
      AmaxIsReached(SumTensor(ts));
      if e :| 0 <= e < |SumTensor(ts)| && Abs(SumTensor(ts)[e]) == Amax(SumTensor(ts)) {
        assert Abs([SumTensor(ts)][0][e]) == Amax(SumTensor(ts));
      }
    }
  }

  /** How many casts a call makes of an element, by the parameters. */
  lemma CastCountIs(world: nat, task: Task)
    requires world > 0 && ValidTask(world, task) && !task.Build?
    ensures task.Flat? ==> CastCount(world, task) == 0
    ensures task.Hierarchical? ==>
              CastCount(world, task)
              == if task.compress && task.numel * task.elementSize >= 1048576 then world / task.groupSize else 0
    ensures task.Fp8Gather? ==>
              CastCount(world, task)
              == if task.numel % world == 0 && task.numel * task.elementSize >= 1048576 then 1 else 0
  {
  }

  /** Nothing else works on tensor k. */
  ghost predicate Only(jobs: seq<Job>, j: nat, k: nat) {
    && j < |jobs| && !jobs[j].task.Build? && jobs[j].tensor == k
    && forall i | 0 <= i < |jobs| && i != j :: jobs[i].task.Build? || jobs[i].tensor != k
  }

  /**
    In a finished run, whatever the interleaving, a tensor that one hierarchical call works on is on
    every rank the exact sum, if the call was made without compression or the tensor is smaller than
    a mebibyte; and else the sum of the groups' sums, each cast to eight bits at their common scale.
   */
  lemma HierarchicalCallEnds(q: Quantiser, world: nat, jobs: seq<Job>, n: nat, run: seq<State<Local>>, k: nat, j: nat,
                             r: nat)
    requires ValidRun(world, jobs, n) && IsRun(MachineOf(world, jobs, q), run)
    requires Finished(MachineOf(world, jobs, q), run[|run| - 1])
    requires Rows(run[0].local, n) && Sized(run[0].local, jobs) && k < n && r < world
    requires Only(jobs, j, k) && jobs[j].task.Hierarchical?
    ensures |run[|run| - 1].local| == world && |run[|run| - 1].local[r]| == n
    ensures var task, ts := jobs[j].task, Inputs(run[0].local, k);
            run[|run| - 1].local[r][k].t
            == if !task.compress || task.numel * task.elementSize < 1048576 then SumTensor(ts)
               else CompressedSum(q, GroupSums(ts, world / task.groupSize, task.groupSize))
  {
    hide Held, Reduced, SumTensor, CompressedSum, GroupSums, MachineOf;
    EveryInterleavingReduces(q, world, jobs, n, run, k, r);
    HeldAfterOneCall(q, world, jobs, k, Inputs(run[0].local, k), j, r);
    ReducedIs(q, world, jobs[j].task, Inputs(run[0].local, k));
  }

  /**
    Likewise for a gather call: the exact sum if the tensor does not split evenly or is smaller than a
    mebibyte, and else the exact sum cast once.
   */
  lemma GatherCallEnds(q: Quantiser, world: nat, jobs: seq<Job>, n: nat, run: seq<State<Local>>, k: nat, j: nat,
                       r: nat)
    requires ValidRun(world, jobs, n) && IsRun(MachineOf(world, jobs, q), run)
    requires Finished(MachineOf(world, jobs, q), run[|run| - 1])
    requires Rows(run[0].local, n) && Sized(run[0].local, jobs) && k < n && r < world
    requires Only(jobs, j, k) && jobs[j].task.Fp8Gather?
    ensures |run[|run| - 1].local| == world && |run[|run| - 1].local[r]| == n
    ensures var task, ts := jobs[j].task, Inputs(run[0].local, k);
            run[|run| - 1].local[r][k].t
            == if task.numel % world != 0 || task.numel * task.elementSize < 1048576 then SumTensor(ts)
               else Recast(q, SumTensor(ts))
  {
    hide Held, Reduced, SumTensor, Recast, MachineOf;
    EveryInterleavingReduces(q, world, jobs, n, run, k, r);
    HeldAfterOneCall(q, world, jobs, k, Inputs(run[0].local, k), j, r);
    ReducedIs(q, world, jobs[j].task, Inputs(run[0].local, k));
  }
}
