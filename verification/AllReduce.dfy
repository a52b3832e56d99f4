/**
  The collectives of the topology-aware all-reduce strategies, what each rank's code issues,
  and the one schedule all ranks follow.
 */
module AllReduce {
  import opened Tensors
  import opened Rendezvous

  const COMPRESS_MIN_BYTES: nat := 0x10_0000

  /** A collective, with the local work around it. Field tensor says which tensor it works on. */
  datatype Op =
    | NewGroup(ranks: seq<nat>)
    | SumReduce(tensor: nat)
    | MaxReduce(tensor: nat)
    | CompressedReduce(tensor: nat)
    | Broadcast(tensor: nat, src: nat)
    | ReduceScatter(tensor: nat)
    | MaxShard(tensor: nat)
    | GatherShards(tensor: nat)

  type Call = Collective<Op>

  /** What one rank holds of one tensor: the tensor, its shard and the agreed magnitude. */
  datatype Cell = Cell(t: Tensor, shard: Tensor, amax: Positive)
  type Local = seq<Cell>

  const BLANK: Cell := Cell([], [], 1.0)

  // ---------------------------------------------------------------- what a collective does

  function IndexOf(members: seq<nat>, r: nat): (i: nat)
    ensures r in members ==> i < |members| && members[i] == r
  {
    if members == [] || members[0] == r then 0 else 1 + IndexOf(members[1..], r)
  }

  function Slice(t: Tensor, lo: nat, hi: nat): (s: Tensor) {
    if lo <= hi <= |t| then t[lo..hi] else []
  }

  function TensorsOf(cells: seq<Cell>): (ts: seq<Tensor>) {
    seq(|cells|, i requires 0 <= i < |cells| => cells[i].t)
  }

  function ShardsOf(cells: seq<Cell>): (ts: seq<Tensor>) {
    seq(|cells|, i requires 0 <= i < |cells| => cells[i].shard)
  }

  /** Every member casts with the magnitude it holds. */
  function CastTensors(q: Quantiser, cells: seq<Cell>): (ts: seq<Tensor>) {
    seq(|cells|, i requires 0 <= i < |cells| => Quantise(q, cells[i].t, Scale(cells[i].amax)))
  }

  function CastShards(q: Quantiser, cells: seq<Cell>): (ts: seq<Tensor>) {
    seq(|cells|, i requires 0 <= i < |cells| => Quantise(q, cells[i].shard, Scale(cells[i].amax)))
  }

  function CellEffect(q: Quantiser, c: Call, cells: seq<Cell>, own: Cell, rank: nat): (cell: Cell) {
    match c.kind
    case NewGroup(_) => own
    case SumReduce(_) => own.(t := SumTensor(TensorsOf(cells)))
    case MaxReduce(_) => own.(amax := CommonAmax(TensorsOf(cells)))
    case CompressedReduce(_) => own.(t := Unscale(SumTensor(CastTensors(q, cells)), Scale(own.amax)))
    case Broadcast(_, src) =>
      var i := IndexOf(c.members, src);
      if i < |cells| then own.(t := cells[i].t) else own
    case ReduceScatter(_) =>
      var sum := SumTensor(TensorsOf(cells));
      var n := if cells == [] then 0 else |sum| / |cells|;
      own.(shard := Slice(sum, Offset(rank, n), Offset(rank, n) + n))
    case MaxShard(_) => own.(amax := CommonAmax(ShardsOf(cells)))
    case GatherShards(_) => own.(t := Unscale(Flatten(CastShards(q, cells)), Scale(own.amax)))
  }

  function CellsAt(ls: seq<Local>, k: nat): (cells: seq<Cell>)
    ensures |cells| == |ls|
  {
    seq(|ls|, i requires 0 <= i < |ls| => if k < |ls[i]| then ls[i][k] else BLANK)
  }

  /** A collective touches the cell of its own tensor only. */
  function Apply(q: Quantiser, c: Call, inputs: seq<Local>, own: Local, rank: nat): (l: Local)
    ensures |l| == |own|
  {
    if c.kind.NewGroup? || c.kind.tensor >= |own| then own
    else own[c.kind.tensor := CellEffect(q, c, CellsAt(inputs, c.kind.tensor), own[c.kind.tensor], rank)]
  }

  function EffectOf(q: Quantiser): (f: Effect<Op, Local>) {
    (c: Call, inputs: seq<Local>, own: Local, rank: nat) => Apply(q, c, inputs, own, rank)
  }

  // ---------------------------------------------------------------- groups of ranks

  function World(world: nat): (ranks: seq<nat>)
    ensures |ranks| == world && forall i | 0 <= i < world :: ranks[i] == i
  {
    seq(world, (i: nat) => i)
  }

  /** The ranks of group g. */
  function Block(g: nat, size: nat): (ranks: seq<nat>)
    ensures |ranks| == size && forall i | 0 <= i < size :: ranks[i] == Offset(g, size) + i
  {
    seq(size, (i: nat) => Offset(g, size) + i)
  }

  /** The first rank of each of n groups. */
  function Leaders(n: nat, size: nat): (ranks: seq<nat>)
    ensures |ranks| == n && forall g | 0 <= g < n :: ranks[g] == Offset(g, size)
  {
    seq(n, (g: nat) => Offset(g, size))
  }

  lemma InBlock(r: nat, g: nat, size: nat)
    requires size > 0
    ensures r in Block(g, size) <==> PieceOf(r, size) == g
  {
    PieceBounds(r, size);
    if r in Block(g, size) {
      var i :| 0 <= i < size && Block(g, size)[i] == r;
      PieceUnique(g, i, size);
    }
    if PieceOf(r, size) == g {
      assert Block(g, size)[r - Offset(g, size)] == r;
    }
  }

  lemma InLeaders(r: nat, n: nat, size: nat)
    requires size > 0 && r < Offset(n, size)
    ensures r in Leaders(n, size) <==> r == Offset(PieceOf(r, size), size)
  {
    if r in Leaders(n, size) {
      var g :| 0 <= g < n && Leaders(n, size)[g] == r;
      PieceUnique(g, 0, size);
    }
    if r == Offset(PieceOf(r, size), size) {
      PieceBelow(r, n, size);
      assert Leaders(n, size)[PieceOf(r, size)] == r;
    }
  }

  /** A world that the group size divides consists of world / size groups. */
  lemma EvenGroups(world: nat, size: nat)
    requires size > 0 && world % size == 0 && world > 0
    ensures world / size > 0 && Offset(world / size, size) == world
  {
    OffsetIsProduct(world / size, size);
  }

  /** Groups of equal size partition the ranks, and each has exactly one leader: its first rank. */
  lemma GroupsPartitionRanks(world: nat, size: nat, r: nat)
    requires size > 0 && world % size == 0 && r < world
    ensures exists g :: 0 <= g < world / size && r in Block(g, size)
    ensures forall g, h: nat | r in Block(g, size) && r in Block(h, size) :: g == h
    ensures forall q, q' | q in Block(PieceOf(r, size), size) && q in Leaders(world / size, size)
                        && q' in Block(PieceOf(r, size), size) && q' in Leaders(world / size, size) :: q == q'
    ensures Offset(PieceOf(r, size), size) in Block(PieceOf(r, size), size)
    ensures Offset(PieceOf(r, size), size) in Leaders(world / size, size)
  {
    var n, g := world / size, PieceOf(r, size);
    EvenGroups(world, size);
    InBlock(r, g, size);
    PieceBelow(r, n, size);
    assert 0 <= g < n && r in Block(g, size);
    forall h: nat | r in Block(h, size) ensures h == g { InBlock(r, h, size); }
    forall q | q in Block(g, size) && q in Leaders(n, size) ensures q == Offset(g, size) {
      InBlock(q, g, size);
      PieceBelow(q, n, size);
      InLeaders(q, n, size);
    }
    assert Block(g, size)[0] == Offset(g, size);
    assert Leaders(n, size)[g] == Offset(g, size);
  }

  // ---------------------------------------------------------------- what the ranks do, call by call

  datatype Task =
    | Build(groupSize: nat)
    | Flat(numel: nat)
    | Hierarchical(groupSize: nat, compress: bool, numel: nat, elementSize: nat)
    | Fp8Gather(numel: nat, elementSize: nat)

  predicate ValidTask(world: nat, task: Task) {
    (task.Build? || task.Hierarchical?) ==> task.groupSize > 0 && world % task.groupSize == 0
  }

  predicate Compresses(compress: bool, numel: nat, elementSize: nat) {
    compress && numel * elementSize >= COMPRESS_MIN_BYTES
  }

  /** Does the eight-bit all-gather fall back to a plain all-reduce? */
  predicate FallsBack(world: nat, numel: nat, elementSize: nat)
    requires world > 0
  {
    numel % world != 0 || numel * elementSize < COMPRESS_MIN_BYTES
  }

  /** Group construction: every rank builds every group, in the same order. */
  function BuildCalls(world: nat, size: nat): (cs: seq<Call>)
    requires size > 0
  {
    var n := world / size;
    seq(n, (g: nat) => Collective(World(world), NewGroup(Block(g, size))))
    + [Collective(World(world), NewGroup(Leaders(n, size)))]
  }

  function ExchangeCalls(world: nat, task: Task, k: nat): (cs: seq<Call>)
    requires task.Hierarchical? && task.groupSize > 0
  {
    var leaders := Leaders(world / task.groupSize, task.groupSize);
    if Compresses(task.compress, task.numel, task.elementSize)
    then [Collective(leaders, MaxReduce(k)), Collective(leaders, CompressedReduce(k))]
    else [Collective(leaders, SumReduce(k))]
  }

  function GatherCalls(world: nat, numel: nat, elementSize: nat, k: nat): (cs: seq<Call>)
    requires world > 0
  {
    var w := World(world);
    if FallsBack(world, numel, elementSize) then [Collective(w, SumReduce(k))]
    else [Collective(w, ReduceScatter(k)), Collective(w, MaxShard(k)), Collective(w, GatherShards(k))]
  }

  /** The collectives rank r issues for a task on tensor k. */
  function TaskProgram(world: nat, r: nat, k: nat, task: Task): (cs: seq<Call>)
    requires r < world && ValidTask(world, task)
  {
    match task
    case Build(size) => BuildCalls(world, size)
    case Flat(_) => [Collective(World(world), SumReduce(k))]
    case Hierarchical(size, _, _, _) =>
      var intra := Block(PieceOf(r, size), size);
      [Collective(intra, SumReduce(k))]
      + (if r in Leaders(world / size, size) then ExchangeCalls(world, task, k) else [])
      + [Collective(intra, Broadcast(k, Offset(PieceOf(r, size), size)))]
    case Fp8Gather(numel, elementSize) => GatherCalls(world, numel, elementSize, k)
  }

  /** One collective per group, group after group. */
  function Phase(n: nat, size: nat, kind: nat -> Op): (cs: seq<Call>)
    ensures |cs| == n
    ensures forall g | 0 <= g < n :: cs[g].members == Block(g, size) && cs[g].kind == kind(g)
  {
    seq(n, (g: nat) => Collective(Block(g, size), kind(g)))
  }

  function SumPhase(n: nat, size: nat, k: nat): (cs: seq<Call>) {
    Phase(n, size, (g: nat) => SumReduce(k))
  }

  function CastPhase(n: nat, size: nat, k: nat): (cs: seq<Call>) {
    Phase(n, size, (g: nat) => Broadcast(k, Offset(g, size)))
  }

  /** The schedule all ranks follow for a task on tensor k. */
  function TaskSchedule(world: nat, k: nat, task: Task): (cs: seq<Call>)
    requires world > 0 && ValidTask(world, task)
  {
    match task
    case Build(size) => BuildCalls(world, size)
    case Flat(_) => [Collective(World(world), SumReduce(k))]
    case Hierarchical(size, _, _, _) =>
      SumPhase(world / size, size, k) + ExchangeCalls(world, task, k) + CastPhase(world / size, size, k)
    case Fp8Gather(numel, elementSize) => GatherCalls(world, numel, elementSize, k)
  }

  /** A task and the tensor it works on; several jobs may work on one tensor, one after the other. */
  datatype Job = Job(task: Task, tensor: nat)

  ghost predicate ValidJobs(world: nat, jobs: seq<Job>) {
    forall j | 0 <= j < |jobs| :: ValidTask(world, jobs[j].task)
  }

  ghost function Program(world: nat, r: nat, jobs: seq<Job>): (cs: seq<Call>)
    requires r < world && ValidJobs(world, jobs)
  {
    if jobs == [] then []
    else
      var j := |jobs| - 1;
      Program(world, r, jobs[..j]) + TaskProgram(world, r, jobs[j].tensor, jobs[j].task)
  }

  ghost function Schedule(world: nat, jobs: seq<Job>): (cs: seq<Call>)
    requires world > 0 && ValidJobs(world, jobs)
  {
    if jobs == [] then []
    else
      var j := |jobs| - 1;
      Schedule(world, jobs[..j]) + TaskSchedule(world, jobs[j].tensor, jobs[j].task)
  }

  ghost function MachineOf(world: nat, jobs: seq<Job>, q: Quantiser): (m: Machine<Op, Local>)
    requires ValidJobs(world, jobs)
    ensures |m.programs| == world
  {
    Machine(seq(world, r requires 0 <= r < world => Program(world, r, jobs)), EffectOf(q))
  }

  // ---------------------------------------------------------------- programs are projections of the schedule

  ghost predicate Sane(cs: seq<Call>, world: nat) {
    && (forall i | 0 <= i < |cs| :: MembersBelow(cs[i], world))
    && forall i | 0 <= i < |cs| :: cs[i].members != []
  }

  lemma {:induction false} ProjectAll(cs: seq<Call>, r: nat)
    requires forall i | 0 <= i < |cs| :: r in cs[i].members
    ensures Project(cs, r) == cs
  {
    if cs != [] { ProjectAll(cs[1..], r); }
  }

  lemma {:induction false} ProjectNone(cs: seq<Call>, r: nat)
    requires forall i | 0 <= i < |cs| :: r !in cs[i].members
    ensures Project(cs, r) == []
  {
    if cs != [] { ProjectNone(cs[1..], r); }
  }

  /** Of one collective per group, a rank sees exactly the one of its own group. */
  lemma {:induction false} ProjectPhase(n: nat, size: nat, kind: nat -> Op, r: nat)
    requires size > 0
    ensures Project(Phase(n, size, kind), r)
         == if PieceOf(r, size) < n then [Collective(Block(PieceOf(r, size), size), kind(PieceOf(r, size)))] else []
  {
    if n > 0 {
      ProjectPhase(n - 1, size, kind, r);
      var last := Collective(Block(n - 1, size), kind(n - 1));
      assert Phase(n, size, kind) == Phase(n - 1, size, kind) + [last];
      ProjectConcat(Phase(n - 1, size, kind), [last], r);
      InBlock(r, n - 1, size);
      assert [last][1..] == [];
      assert Project([last], r) == if r in last.members then [last] else [];
    }
  }

  lemma WorldMember(world: nat, r: nat)
    requires r < world
    ensures r in World(world)
  {
    assert World(world)[r] == r;
  }

  lemma PhaseIsSane(world: nat, n: nat, size: nat, kind: nat -> Op)
    requires size > 0 && Offset(n, size) <= world
    ensures Sane(Phase(n, size, kind), world)
  {
    var cs := Phase(n, size, kind);
    forall g | 0 <= g < n ensures MembersBelow(cs[g], world) && cs[g].members != [] {
      OffsetGrows(g, n, size);
      assert |cs[g].members| == size;
    }
  }

  lemma {:induction false} SaneConcat(a: seq<Call>, b: seq<Call>, world: nat)
    requires Sane(a, world) && Sane(b, world)
    ensures Sane(a + b, world)
  {
    forall i | 0 <= i < |a + b| ensures MembersBelow((a + b)[i], world) && (a + b)[i].members != [] {
      assert (a + b)[i] == if i < |a| then a[i] else b[i - |a|];
    }
  }

  lemma ExchangeIsSane(world: nat, k: nat, task: Task)
    requires task.Hierarchical? && ValidTask(world, task) && world > 0
    ensures Sane(ExchangeCalls(world, task, k), world)
  {
    EvenGroups(world, task.groupSize);
    LeadersAreSane(world, world / task.groupSize, task.groupSize);
    assert |Leaders(world / task.groupSize, task.groupSize)| > 0;
  }

  lemma HierarchicalIsSane(world: nat, k: nat, task: Task)
    requires task.Hierarchical? && ValidTask(world, task) && world > 0
    ensures Sane(TaskSchedule(world, k, task), world)
  {
    var size := task.groupSize;
    var n := world / size;
    EvenGroups(world, size);
    PhaseIsSane(world, n, size, (g: nat) => SumReduce(k));
    PhaseIsSane(world, n, size, (g: nat) => Broadcast(k, Offset(g, size)));
    ExchangeIsSane(world, k, task);
    SaneConcat(SumPhase(n, size, k), ExchangeCalls(world, task, k), world);
    SaneConcat(SumPhase(n, size, k) + ExchangeCalls(world, task, k), CastPhase(n, size, k), world);
  }

  lemma TaskIsSane(world: nat, k: nat, task: Task)
    requires world > 0 && ValidTask(world, task)
    ensures Sane(TaskSchedule(world, k, task), world)
  {
    if task.Hierarchical? {
      HierarchicalIsSane(world, k, task);
    } else {
      assert |World(world)| > 0;
    }
  }

  lemma LeadersAreSane(world: nat, n: nat, size: nat)
    requires size > 0 && Offset(n, size) <= world
    ensures forall g | 0 <= g < n :: Leaders(n, size)[g] < world
  {
    forall g | 0 <= g < n ensures Leaders(n, size)[g] < world { OffsetGrows(g, n, size); }
  }

  lemma TaskProjects(world: nat, r: nat, k: nat, task: Task)
    requires r < world && ValidTask(world, task)
    ensures Project(TaskSchedule(world, k, task), r) == TaskProgram(world, r, k, task)
  {
    WorldMember(world, r);
    if task.Hierarchical? {
      HierarchicalProjects(world, r, k, task);
    } else {
      ProjectAll(TaskSchedule(world, k, task), r);
    }
  }

  lemma ExchangeMembers(world: nat, task: Task, k: nat)
    requires task.Hierarchical? && task.groupSize > 0
    ensures forall i | 0 <= i < |ExchangeCalls(world, task, k)| ::
              ExchangeCalls(world, task, k)[i].members == Leaders(world / task.groupSize, task.groupSize)
  {
  }

  lemma HierarchicalProjects(world: nat, r: nat, k: nat, task: Task)
    requires r < world && ValidTask(world, task) && task.Hierarchical?
    ensures Project(TaskSchedule(world, k, task), r) == TaskProgram(world, r, k, task)
  {
    var size := task.groupSize;
    var n := world / size;
    EvenGroups(world, size);
    PieceBelow(r, n, size);
    hide Project, PieceOf, Offset, Leaders, ExchangeCalls;
    var sums, exchange, casts := SumPhase(n, size, k), ExchangeCalls(world, task, k), CastPhase(n, size, k);
    ExchangeMembers(world, task, k);
    ProjectConcat(sums + exchange, casts, r);
    ProjectConcat(sums, exchange, r);
    ProjectPhase(n, size, (g: nat) => SumReduce(k), r);
    ProjectPhase(n, size, (g: nat) => Broadcast(k, Offset(g, size)), r);
    if r in Leaders(n, size) {
      ProjectAll(exchange, r);
    } else {
      ProjectNone(exchange, r);
    }
  }

  lemma {:induction false} ScheduleIsSane(world: nat, jobs: seq<Job>)
    requires world > 0 && ValidJobs(world, jobs)
    ensures Sane(Schedule(world, jobs), world)
  {
    hide Sane, TaskSchedule;
    if jobs == [] {
      NothingIsSane(world);
    } else {
      var j := |jobs| - 1;
      ScheduleIsSane(world, jobs[..j]);
      TaskIsSane(world, jobs[j].tensor, jobs[j].task);
      SaneConcat(Schedule(world, jobs[..j]), TaskSchedule(world, jobs[j].tensor, jobs[j].task), world);
    }
  }

  lemma NothingIsSane(world: nat)
    ensures Sane([], world)
  {
  }

  lemma {:induction false} ProgramIsProjection(world: nat, r: nat, jobs: seq<Job>)
    requires r < world && ValidJobs(world, jobs)
    ensures Project(Schedule(world, jobs), r) == Program(world, r, jobs)
  {
    if jobs != [] {
      var j := |jobs| - 1;
      ProgramIsProjection(world, r, jobs[..j]);
      TaskProjects(world, r, jobs[j].tensor, jobs[j].task);
      hide TaskSchedule, TaskProgram;
      ProjectConcat(Schedule(world, jobs[..j]), TaskSchedule(world, jobs[j].tensor, jobs[j].task), r);
    }
  }

  /** Rank programs are the projections of the common schedule, for every list of jobs. */
  lemma MachineProjects(world: nat, jobs: seq<Job>, q: Quantiser)
    requires world > 0 && ValidJobs(world, jobs)
    ensures Projects(MachineOf(world, jobs, q), Schedule(world, jobs))
  {
    hide Schedule, Program;
    ScheduleIsSane(world, jobs);
    forall r | 0 <= r < world ensures MachineOf(world, jobs, q).programs[r] == Project(Schedule(world, jobs), r) {
      ProgramIsProjection(world, r, jobs);
    }
  }
}
