/**
  What the all-reduce strategies compute: the schedules of AllReduce executed collective by
  collective, and then every interleaving of the ranks.
 */
module AllReduceCorrect {
  import opened Tensors
  import opened Rendezvous
  import opened AllReduce

  // ---------------------------------------------------------------- one task, one column of cells

  function CellEffectOf(q: Quantiser): (f: Effect<Op, Cell>) {
    (c: Call, cells: seq<Cell>, own: Cell, rank: nat) => CellEffect(q, c, cells, own, rank)
  }

  ghost predicate Works(cs: seq<Call>, k: nat) {
    forall i | 0 <= i < |cs| :: !cs[i].kind.NewGroup? && cs[i].kind.tensor == k
  }

  ghost predicate Below(cs: seq<Call>, world: nat) {
    forall i | 0 <= i < |cs| :: MembersBelow(cs[i], world)
  }

  /** Every rank holds a cell for each of n tensors. */
  ghost predicate Rows(ls: seq<Local>, n: nat) {
    forall r | 0 <= r < |ls| :: |ls[r]| == n
  }

  lemma FiredColumn(q: Quantiser, c: Call, ls: seq<Local>, n: nat, j: nat)
    requires MembersBelow(c, |ls|) && Rows(ls, n) && j < n
    requires !c.kind.NewGroup? && c.kind.tensor < n
    ensures Rows(Fired(EffectOf(q), c, ls), n)
    ensures CellsAt(Fired(EffectOf(q), c, ls), j)
         == if j == c.kind.tensor then Fired(CellEffectOf(q), c, CellsAt(ls, j)) else CellsAt(ls, j)
  {
    assert CellsAt(Gather(c.members, ls), j) == Gather(c.members, CellsAt(ls, j));
  }

  /** Collectives on tensor k act on column k alone, as if it were the whole state. */
  lemma {:induction false} ColumnExecutes(q: Quantiser, cs: seq<Call>, ls: seq<Local>, n: nat, k: nat, j: nat)
    requires Below(cs, |ls|) && Rows(ls, n) && j < n && k < n && Works(cs, k)
    ensures Rows(Execute(EffectOf(q), cs, ls), n)
    ensures CellsAt(Execute(EffectOf(q), cs, ls), j)
         == if j == k then Execute(CellEffectOf(q), cs, CellsAt(ls, j)) else CellsAt(ls, j)
  {
    if cs != [] {
      var i := |cs| - 1;
      ColumnExecutes(q, cs[..i], ls, n, k, j);
      FiredColumn(q, cs[i], Execute(EffectOf(q), cs[..i], ls), n, j);
    }
  }

  lemma FiredBuild(q: Quantiser, c: Call, ls: seq<Local>)
    requires MembersBelow(c, |ls|) && c.kind.NewGroup?
    ensures Fired(EffectOf(q), c, ls) == ls
  {
    forall r | 0 <= r < |ls| ensures Fired(EffectOf(q), c, ls)[r] == ls[r] {
      assert Apply(q, c, Gather(c.members, ls), ls[r], r) == ls[r];
    }
  }

  /** Building groups leaves every tensor alone. */
  lemma {:induction false} BuildingKeeps(q: Quantiser, cs: seq<Call>, ls: seq<Local>)
    requires Below(cs, |ls|)
    requires forall i | 0 <= i < |cs| :: cs[i].kind.NewGroup?
    ensures Execute(EffectOf(q), cs, ls) == ls
  {
    if cs != [] {
      BuildingKeeps(q, cs[..|cs| - 1], ls);
      FiredBuild(q, cs[|cs| - 1], ls);
    }
  }

  // ---------------------------------------------------------------- sums by groups

  function GroupTensors(ts: seq<Tensor>, g: nat, size: nat): (gs: seq<Tensor>) {
    var m := Offset(g, size);
    if m + size <= |ts| then ts[m..m + size] else []
  }

  /** What the ranks of each group hold after the reduction inside the group. */
  function GroupSums(ts: seq<Tensor>, n: nat, size: nat): (sums: seq<Tensor>)
    ensures |sums| == n
  {
    seq(n, (g: nat) => SumTensor(GroupTensors(ts, g, size)))
  }

  lemma GroupSumShape(ts: seq<Tensor>, n: nat, size: nat, numel: nat, g: nat)
    requires Uniform(ts, numel) && size > 0 && Offset(n, size) <= |ts| && g < n
    ensures |GroupSums(ts, n, size)[g]| == numel
    ensures Offset(g, size) + size <= |ts|
    ensures forall e: nat | e < numel ::
              GroupSums(ts, n, size)[g][e] == ColSum(ts[Offset(g, size)..Offset(g, size) + size], e)
  {
    OffsetGrows(g, n, size);
    assert GroupTensors(ts, g, size) == ts[Offset(g, size)..Offset(g, size) + size];
  }

  lemma AppendedColSum(ts: seq<Tensor>, m: nat, size: nat, e: nat)
    requires m + size <= |ts|
    ensures ColSum(ts[..m + size], e) == ColSum(ts[..m], e) + ColSum(ts[m..m + size], e)
  {
    assert ts[..m + size] == ts[..m] + ts[m..m + size];
    ColSumConcat(ts[..m], ts[m..m + size], e);
  }

  lemma LastGroup(ts: seq<Tensor>, n: nat, size: nat, numel: nat, e: nat, m: nat)
    requires Uniform(ts, numel) && size > 0 && m == Offset(n, size) && m + size <= |ts| && e < numel
    ensures ColSum(GroupSums(ts, n + 1, size), e)
         == ColSum(GroupSums(ts, n, size), e) + ColSum(ts[m..m + size], e)
  {
    hide Offset, ColSum, GroupSums, Uniform;
    OffsetStep(n + 1, size);
    GroupSumShape(ts, n + 1, size, numel, n);
    GroupSumsPrefix(ts, n, size);
    ColSumLast(GroupSums(ts, n + 1, size), n, e);
  }

  lemma GroupSumsPrefix(ts: seq<Tensor>, n: nat, size: nat)
    ensures GroupSums(ts, n + 1, size)[..n] == GroupSums(ts, n, size)
  {
    hide SumTensor, GroupTensors;
  }

  lemma ColSumLast(ts: seq<Tensor>, n: nat, e: nat)
    requires |ts| == n + 1
    ensures ColSum(ts, e) == ColSum(ts[..n], e) + At(ts[n], e)
  {
  }

  lemma NoGroups(ts: seq<Tensor>, size: nat, e: nat)
    ensures Offset(0, size) == 0 && ColSum(GroupSums(ts, 0, size), e) == ColSum(ts[..0], e)
  {
    assert GroupSums(ts, 0, size) == [] && ts[..0] == [];
  }

  lemma OffsetStep(n: nat, size: nat)
    requires n > 0
    ensures Offset(n, size) == Offset(n - 1, size) + size
  {
  }

  lemma {:induction false} GroupedColSum(ts: seq<Tensor>, n: nat, size: nat, numel: nat, e: nat, m: nat)
    requires Uniform(ts, numel) && size > 0 && m == Offset(n, size) && m <= |ts| && e < numel
    ensures ColSum(GroupSums(ts, n, size), e) == ColSum(ts[..m], e)
  {
    hide Offset, GroupSums, ColSum, Uniform;
    if n == 0 {
      NoGroups(ts, size, e);
    } else {
      OffsetStep(n, size);
      var m' := Offset(n - 1, size);
      LastGroup(ts, n - 1, size, numel, e, m');
      GroupedColSum(ts, n - 1, size, numel, e, m');
      AppendedColSum(ts, m', size, e);
    }
  }

  /** Adding up group by group is adding up flat. */
  lemma GroupedSumIsFlat(ts: seq<Tensor>, n: nat, size: nat, numel: nat)
    requires Uniform(ts, numel) && size > 0 && n > 0 && Offset(n, size) == |ts|
    ensures SumTensor(GroupSums(ts, n, size)) == SumTensor(ts)
    ensures Uniform(GroupSums(ts, n, size), numel)
  {
    assert |ts| > 0 by { OffsetGrows(0, n, size); }
    forall g | 0 <= g < n ensures |GroupSums(ts, n, size)[g]| == numel {
      GroupSumShape(ts, n, size, numel, g);
    }
    forall e: nat | e < numel
      ensures ColSum(GroupSums(ts, n, size), e) == ColSum(ts, e)
    {
      GroupedColSum(ts, n, size, numel, e, Offset(n, size));
      assert ts[..Offset(n, size)] == ts;
    }
  }

  // ---------------------------------------------------------------- the hierarchical schedule

  lemma GatherBlock(cells: seq<Cell>, g: nat, size: nat)
    requires Offset(g, size) + size <= |cells|
    ensures TensorsOf(Gather(Block(g, size), cells)) == GroupTensors(TensorsOf(cells), g, size)
  {
  }

  /** A rank's cell does not change while other groups have their collective. */
  lemma PhaseSkips(q: Quantiser, n: nat, size: nat, kind: nat -> Op, cells: seq<Cell>, r: nat, i: nat, j: nat)
    requires size > 0 && r < |cells| && i <= j <= n
    requires Below(Phase(n, size, kind), |cells|)
    requires PieceOf(r, size) < i || j <= PieceOf(r, size)
    ensures Execute(CellEffectOf(q), Phase(n, size, kind)[..j], cells)[r]
         == Execute(CellEffectOf(q), Phase(n, size, kind)[..i], cells)[r]
  {
    var sched := Phase(n, size, kind);
    forall k | i <= k < j ensures r !in sched[k].members { InBlock(r, k, size); }
    ExecuteSkip(CellEffectOf(q), sched, cells, r, i, j);
  }

  lemma ExecuteNothing(q: Quantiser, cs: seq<Call>, cells: seq<Cell>)
    ensures Execute(CellEffectOf(q), cs[..0], cells) == cells
  {
  }

  lemma BlockUntouched(q: Quantiser, n: nat, size: nat, kind: nat -> Op, cells: seq<Cell>, g: nat)
    requires size > 0 && g < n && Offset(g, size) + size <= |cells|
    requires Below(Phase(n, size, kind), |cells|)
    ensures Gather(Block(g, size), Execute(CellEffectOf(q), Phase(n, size, kind)[..g], cells))
         == Gather(Block(g, size), cells)
  {
    hide Execute, Fired, PieceOf, Offset, Phase;
    var block := Block(g, size);
    var prior := Execute(CellEffectOf(q), Phase(n, size, kind)[..g], cells);
    ExecuteNothing(q, Phase(n, size, kind), cells);
    forall i | 0 <= i < size ensures prior[block[i]] == cells[block[i]] {
      PieceUnique(g, i, size);
      PhaseSkips(q, n, size, kind, cells, block[i], 0, g);
    }
  }

  /** After one collective per group, each rank has taken part in its own group's. */
  lemma PhaseExecutes(q: Quantiser, n: nat, size: nat, kind: nat -> Op, cells: seq<Cell>, r: nat, g: nat)
    requires size > 0 && Offset(n, size) <= |cells| && r < |cells|
    requires g == PieceOf(r, size) && g < n
    requires Below(Phase(n, size, kind), |cells|)
    ensures Offset(g, size) + size <= |cells|
    ensures Execute(CellEffectOf(q), Phase(n, size, kind), cells)[r]
         == CellEffect(q, Collective(Block(g, size), kind(g)), Gather(Block(g, size), cells), cells[r], r)
  {
    var sched := Phase(n, size, kind);
    OffsetGrows(g, n, size);
    InBlock(r, g, size);
    PhaseSkips(q, n, size, kind, cells, r, 0, g);
    BlockUntouched(q, n, size, kind, cells, g);
    assert sched[..g + 1][..g] == sched[..g];
    PhaseSkips(q, n, size, kind, cells, r, g + 1, n);
    assert sched[..n] == sched;
  }

  lemma SumPhaseResult(q: Quantiser, n: nat, size: nat, k: nat, cells: seq<Cell>, r: nat)
    requires size > 0 && Offset(n, size) == |cells| && r < |cells|
    ensures Below(SumPhase(n, size, k), |cells|)
    ensures PieceOf(r, size) < n
    ensures Execute(CellEffectOf(q), SumPhase(n, size, k), cells)[r].t
         == GroupSums(TensorsOf(cells), n, size)[PieceOf(r, size)]
  {
    PhaseIsSane(|cells|, n, size, (g: nat) => SumReduce(k));
    PieceBelow(r, n, size);
    PhaseExecutes(q, n, size, (g: nat) => SumReduce(k), cells, r, PieceOf(r, size));
    GatherBlock(cells, PieceOf(r, size), size);
  }

  lemma CastPhaseResult(q: Quantiser, n: nat, size: nat, k: nat, cells: seq<Cell>, r: nat)
    requires size > 0 && Offset(n, size) == |cells| && r < |cells|
    ensures Below(CastPhase(n, size, k), |cells|)
    ensures PieceOf(r, size) < n && Offset(PieceOf(r, size), size) < |cells|
    ensures Execute(CellEffectOf(q), CastPhase(n, size, k), cells)[r].t == cells[Offset(PieceOf(r, size), size)].t
  {
    PhaseIsSane(|cells|, n, size, (g: nat) => Broadcast(k, Offset(g, size)));
    PieceBelow(r, n, size);
    PhaseExecutes(q, n, size, (g: nat) => Broadcast(k, Offset(g, size)), cells, r, PieceOf(r, size));
    assert Block(PieceOf(r, size), size)[0] == Offset(PieceOf(r, size), size);
  }

  lemma {:induction false} ExecuteOne(q: Quantiser, c: Call, cells: seq<Cell>)
    requires MembersBelow(c, |cells|)
    ensures Execute(CellEffectOf(q), [c], cells) == Fired(CellEffectOf(q), c, cells)
  {
    assert [c][..0] == [];
  }

  lemma {:induction false} ExecuteTwo(q: Quantiser, c: Call, d: Call, cells: seq<Cell>)
    requires MembersBelow(c, |cells|) && MembersBelow(d, |cells|)
    ensures Execute(CellEffectOf(q), [c, d], cells)
         == Fired(CellEffectOf(q), d, Fired(CellEffectOf(q), c, cells))
  {
    assert [c, d][..1] == [c];
    ExecuteOne(q, c, cells);
  }

  /** What the leaders hold after their exchange. */
  function Exchanged(q: Quantiser, task: Task, sums: seq<Tensor>): (t: Tensor)
    requires task.Hierarchical?
  {
    if Compresses(task.compress, task.numel, task.elementSize) then CompressedSum(q, sums) else SumTensor(sums)
  }

  ghost predicate LeadersHold(cells: seq<Cell>, n: nat, size: nat, sums: seq<Tensor>) {
    |sums| == n && forall g | 0 <= g < n :: Offset(g, size) < |cells| && cells[Offset(g, size)].t == sums[g]
  }

  lemma PlainExchange(q: Quantiser, n: nat, size: nat, k: nat, cells: seq<Cell>, sums: seq<Tensor>, g: nat)
    requires LeadersHold(cells, n, size, sums) && g < n
    ensures MembersBelow(Collective(Leaders(n, size), SumReduce(k)), |cells|)
    ensures Fired(CellEffectOf(q), Collective(Leaders(n, size), SumReduce(k)), cells)[Offset(g, size)].t
            == SumTensor(sums)
  {
    assert Leaders(n, size)[g] in Leaders(n, size);
    assert TensorsOf(Gather(Leaders(n, size), cells)) == sums;
  }

  lemma MaxExchange(q: Quantiser, n: nat, size: nat, k: nat, cells: seq<Cell>, sums: seq<Tensor>)
    requires LeadersHold(cells, n, size, sums)
    ensures MembersBelow(Collective(Leaders(n, size), MaxReduce(k)), |cells|)
    ensures LeadersHold(Fired(CellEffectOf(q), Collective(Leaders(n, size), MaxReduce(k)), cells), n, size, sums)
    ensures forall g | 0 <= g < n ::
              Offset(g, size) < |cells|
              && Fired(CellEffectOf(q), Collective(Leaders(n, size), MaxReduce(k)), cells)[Offset(g, size)].amax
                  == CommonAmax(sums)
  {
    forall g | 0 <= g < n ensures Offset(g, size) in Leaders(n, size) {
      assert Leaders(n, size)[g] in Leaders(n, size);
    }
    assert TensorsOf(Gather(Leaders(n, size), cells)) == sums;
  }

  lemma CompressedExchange(q: Quantiser, n: nat, size: nat, k: nat, cells: seq<Cell>, sums: seq<Tensor>, g: nat)
    requires LeadersHold(cells, n, size, sums) && g < n
    requires forall h | 0 <= h < n :: cells[Offset(h, size)].amax == CommonAmax(sums)
    ensures MembersBelow(Collective(Leaders(n, size), CompressedReduce(k)), |cells|)
    ensures Fired(CellEffectOf(q), Collective(Leaders(n, size), CompressedReduce(k)), cells)[Offset(g, size)].t
         == CompressedSum(q, sums)
  {
    assert Leaders(n, size)[g] in Leaders(n, size);
    assert CastTensors(q, Gather(Leaders(n, size), cells)) == QuantiseAll(q, sums, Scale(CommonAmax(sums)));
  }

  lemma ExchangeResult(q: Quantiser, world: nat, k: nat, task: Task, cells: seq<Cell>, sums: seq<Tensor>, g: nat)
    requires task.Hierarchical? && task.groupSize > 0
    requires LeadersHold(cells, world / task.groupSize, task.groupSize, sums) && g < world / task.groupSize
    ensures Below(ExchangeCalls(world, task, k), |cells|)
    ensures Execute(CellEffectOf(q), ExchangeCalls(world, task, k), cells)[Offset(g, task.groupSize)].t
         == Exchanged(q, task, sums)
  {
    hide Execute, CommonAmax, Offset, SumTensor, CellEffect;
    var size := task.groupSize;
    var n := world / size;
    var leaders := Leaders(n, size);
    if Compresses(task.compress, task.numel, task.elementSize) {
      MaxExchange(q, n, size, k, cells, sums);
      var agreed := Fired(CellEffectOf(q), Collective(leaders, MaxReduce(k)), cells);
      CompressedExchange(q, n, size, k, agreed, sums, g);
      ExecuteTwo(q, Collective(leaders, MaxReduce(k)), Collective(leaders, CompressedReduce(k)), cells);
    } else {
      PlainExchange(q, n, size, k, cells, sums, g);
      ExecuteOne(q, Collective(leaders, SumReduce(k)), cells);
    }
  }

  lemma LeaderAfterSums(q: Quantiser, n: nat, size: nat, k: nat, cells: seq<Cell>, g: nat, lead: nat)
    requires size > 0 && Offset(n, size) == |cells| && g < n && lead == Offset(g, size)
    ensures Below(SumPhase(n, size, k), |cells|)
    ensures lead < |cells|
    ensures Execute(CellEffectOf(q), SumPhase(n, size, k), cells)[lead].t == GroupSums(TensorsOf(cells), n, size)[g]
  {
    hide Execute, GroupSums, Offset, PieceOf, SumPhase;
    OffsetGrows(g, n, size);
    PieceUnique(g, 0, size);
    SumPhaseResult(q, n, size, k, cells, lead);
  }

  lemma SumPhaseLeaders(q: Quantiser, n: nat, size: nat, k: nat, cells: seq<Cell>)
    requires size > 0 && Offset(n, size) == |cells|
    ensures Below(SumPhase(n, size, k), |cells|)
    ensures LeadersHold(Execute(CellEffectOf(q), SumPhase(n, size, k), cells), n, size,
                        GroupSums(TensorsOf(cells), n, size))
  {
    hide Execute, GroupSums, Offset, PieceOf;
    PhaseIsSane(|cells|, n, size, (g: nat) => SumReduce(k));
    var sums := GroupSums(TensorsOf(cells), n, size);
    var after := Execute(CellEffectOf(q), SumPhase(n, size, k), cells);
    forall g | 0 <= g < n ensures Offset(g, size) < |after| && after[Offset(g, size)].t == sums[g] {
      LeaderAfterSums(q, n, size, k, cells, g, Offset(g, size));
    }
  }

  /** Reduce in groups, exchange between leaders, broadcast down: every rank gets the leaders' result. */
  lemma HierarchicalResult(q: Quantiser, world: nat, k: nat, task: Task, cells: seq<Cell>, r: nat)
    requires task.Hierarchical? && ValidTask(world, task) && r < world == |cells|
    ensures Below(TaskSchedule(world, k, task), |cells|)
    ensures Execute(CellEffectOf(q), TaskSchedule(world, k, task), cells)[r].t
         == Exchanged(q, task, GroupSums(TensorsOf(cells), world / task.groupSize, task.groupSize))
  {
    hide Execute, GroupSums, Offset, PieceOf, Exchanged;
    var size := task.groupSize;
    var n := world / size;
    EvenGroups(world, size);
    TaskIsSane(world, k, task);
    var sums, exchange, casts := SumPhase(n, size, k), ExchangeCalls(world, task, k), CastPhase(n, size, k);
    SumPhaseLeaders(q, n, size, k, cells);
    var cells1 := Execute(CellEffectOf(q), sums, cells);
    PieceBelow(r, n, size);
    ExchangeResult(q, world, k, task, cells1, GroupSums(TensorsOf(cells), n, size), PieceOf(r, size));
    var cells2 := Execute(CellEffectOf(q), exchange, cells1);
    CastPhaseResult(q, n, size, k, cells2, r);
    ExecuteConcat(CellEffectOf(q), sums, exchange, cells);
    ExecuteConcat(CellEffectOf(q), sums + exchange, casts, cells);
  }

  // ---------------------------------------------------------------- the eight-bit all-gather

  /** Cast and uncast with the tensor's own magnitude. */
  function Recast(q: Quantiser, t: Tensor): (t': Tensor)
    ensures |t'| == |t|
  {
    Unscale(Quantise(q, t, Scale(Amax(t))), Scale(Amax(t)))
  }

  function Shards(t: Tensor, n: nat, size: nat): (ps: seq<Tensor>)
    ensures |ps| == n
  {
    seq(n, (i: nat) => Slice(t, Offset(i, size), Offset(i, size) + size))
  }

  lemma ShardsAreUniform(t: Tensor, n: nat, size: nat)
    requires Offset(n, size) == |t|
    ensures Uniform(Shards(t, n, size), size)
    ensures forall i | 0 <= i < n ::
              Offset(i, size) + size <= |t| && Shards(t, n, size)[i] == t[Offset(i, size)..Offset(i, size) + size]
  {
    forall i | 0 <= i < n ensures Offset(i, size) + size <= |t| { OffsetGrows(i, n, size); }
  }

  lemma {:induction false} AmaxConcat(a: Tensor, b: Tensor)
    ensures Amax(a + b) == Max(Amax(a), Amax(b))
  {
    if b == [] {
      assert a + b == a;
    } else {
      AmaxConcat(a, b[..|b| - 1]);
      assert (a + b)[..|a + b| - 1] == a + b[..|b| - 1];
    }
  }

  lemma {:induction false} CommonAmaxOfShards(t: Tensor, n: nat, size: nat)
    requires n > 0 && Offset(n, size) <= |t|
    ensures CommonAmax(Shards(t, n, size)) == Amax(t[..Offset(n, size)])
  {
    var m := Offset(n - 1, size);
    assert m + size == Offset(n, size);
    var ps := Shards(t, n, size);
    var xs := seq(n, i requires 0 <= i < n => Amax(ps[i]));
    assert ps[n - 1] == t[m..m + size];
    assert t[..Offset(n, size)] == t[..m] + t[m..m + size];
    AmaxConcat(t[..m], t[m..m + size]);
    if n == 1 {
      assert t[..m] == [];
    } else {
      CommonAmaxOfShards(t, n - 1, size);
      var ps' := Shards(t, n - 1, size);
      assert xs[..n - 1] == seq(n - 1, i requires 0 <= i < n - 1 => Amax(ps'[i]));
    }
  }

  lemma FlattenShards(q: Quantiser, t: Tensor, n: nat, size: nat, scale: Positive)
    requires size > 0 && Offset(n, size) == |t|
    ensures Flatten(QuantiseAll(q, Shards(t, n, size), scale)) == Quantise(q, t, scale)
  {
    var ps := QuantiseAll(q, Shards(t, n, size), scale);
    var whole := Quantise(q, t, scale);
    ShardsAreUniform(t, n, size);
    FlattenLength(ps, size);
    forall e | 0 <= e < |t| ensures Flatten(ps)[e] == whole[e] {
      var i := PieceOf(e, size);
      PieceBelow(e, n, size);
      PieceBounds(e, size);
      FlattenAt(ps, size, i, e - Offset(i, size));
    }
  }

  lemma GatherWorld(cells: seq<Cell>)
    ensures Gather(World(|cells|), cells) == cells
  {
  }

  ghost predicate Sharded(cells: seq<Cell>, sum: Tensor, size: nat) {
    ShardsOf(cells) == Shards(sum, |cells|, size)
  }

  lemma ScatterResult(q: Quantiser, k: nat, cells: seq<Cell>, size: nat)
    requires cells != [] && |SumTensor(TensorsOf(cells))| == Offset(|cells|, size)
    ensures MembersBelow(Collective(World(|cells|), ReduceScatter(k)), |cells|)
    ensures Sharded(Fired(CellEffectOf(q), Collective(World(|cells|), ReduceScatter(k)), cells),
                    SumTensor(TensorsOf(cells)), size)
  {
    var c := Collective(World(|cells|), ReduceScatter(k));
    var sum := SumTensor(TensorsOf(cells));
    var after := Fired(CellEffectOf(q), c, cells);
    PieceLength(|cells|, size, |sum|);
    GatherWorld(cells);
    forall r | 0 <= r < |cells| ensures after[r].shard == Shards(sum, |cells|, size)[r] {
      WorldMember(|cells|, r);
      assert after[r] == CellEffect(q, c, cells, cells[r], r);
    }
  }

  lemma MaxShardResult(q: Quantiser, k: nat, cells: seq<Cell>, sum: Tensor, size: nat)
    requires cells != [] && Sharded(cells, sum, size) && |sum| == Offset(|cells|, size)
    ensures MembersBelow(Collective(World(|cells|), MaxShard(k)), |cells|)
    ensures Sharded(Fired(CellEffectOf(q), Collective(World(|cells|), MaxShard(k)), cells), sum, size)
    ensures forall r | 0 <= r < |cells| ::
              Fired(CellEffectOf(q), Collective(World(|cells|), MaxShard(k)), cells)[r].amax == Amax(sum)
  {
    hide Amax, CommonAmax, Offset, Shards;
    GatherWorld(cells);
    CommonAmaxOfShards(sum, |cells|, size);
    assert sum[..Offset(|cells|, size)] == sum;
    forall r | 0 <= r < |cells| ensures r in World(|cells|) { WorldMember(|cells|, r); }
    assert ShardsOf(Fired(CellEffectOf(q), Collective(World(|cells|), MaxShard(k)), cells)) == ShardsOf(cells);
  }

  lemma CastShardsTogether(q: Quantiser, cells: seq<Cell>, sum: Tensor, size: nat)
    requires size > 0 && Sharded(cells, sum, size) && |sum| == Offset(|cells|, size)
    requires forall i | 0 <= i < |cells| :: cells[i].amax == Amax(sum)
    ensures Flatten(CastShards(q, cells)) == Quantise(q, sum, Scale(Amax(sum)))
  {
    var ps := Shards(sum, |cells|, size);
    assert forall i | 0 <= i < |cells| :: cells[i].shard == ShardsOf(cells)[i] == ps[i];
    assert CastShards(q, cells) == QuantiseAll(q, ps, Scale(Amax(sum)));
    FlattenShards(q, sum, |cells|, size, Scale(Amax(sum)));
  }

  lemma GatherShardsResult(q: Quantiser, k: nat, cells: seq<Cell>, sum: Tensor, size: nat, r: nat)
    requires size > 0 && Sharded(cells, sum, size) && |sum| == Offset(|cells|, size) && r < |cells|
    requires forall i | 0 <= i < |cells| :: cells[i].amax == Amax(sum)
    ensures MembersBelow(Collective(World(|cells|), GatherShards(k)), |cells|)
    ensures Fired(CellEffectOf(q), Collective(World(|cells|), GatherShards(k)), cells)[r].t == Recast(q, sum)
  {
    hide Amax, Offset, Shards, Flatten;
    GatherWorld(cells);
    WorldMember(|cells|, r);
    CastShardsTogether(q, cells, sum, size);
  }

  lemma {:induction false} ExecuteThree(q: Quantiser, c: Call, d: Call, f: Call, cells: seq<Cell>)
    requires MembersBelow(c, |cells|) && MembersBelow(d, |cells|) && MembersBelow(f, |cells|)
    ensures Execute(CellEffectOf(q), [c, d, f], cells)
         == Fired(CellEffectOf(q), f, Fired(CellEffectOf(q), d, Fired(CellEffectOf(q), c, cells)))
  {
    assert [c, d, f][..2] == [c, d];
    ExecuteTwo(q, c, d, cells);
  }

  lemma ExactShards(world: nat, numel: nat, elementSize: nat)
    requires world > 0 && !FallsBack(world, numel, elementSize)
    ensures numel / world > 0 && Offset(world, numel / world) == numel
  {
    assert numel == world * (numel / world) + numel % world;
    assert numel == 0 ==> numel * elementSize == 0;
    var size := numel / world;
    assert size == 0 ==> world * size == 0;
    OffsetIsProduct(world, size);
  }

  function ShardCalls(w: seq<nat>, k: nat): (cs: seq<Call>) {
    [Collective(w, ReduceScatter(k)), Collective(w, MaxShard(k)), Collective(w, GatherShards(k))]
  }

  lemma ShardedResult(q: Quantiser, k: nat, cells: seq<Cell>, size: nat, r: nat)
    requires r < |cells| && size > 0
    requires |SumTensor(TensorsOf(cells))| == Offset(|cells|, size)
    ensures Below(ShardCalls(World(|cells|), k), |cells|)
    ensures Execute(CellEffectOf(q), ShardCalls(World(|cells|), k), cells)[r].t
            == Recast(q, SumTensor(TensorsOf(cells)))
  {
    hide Execute, Amax, Offset, Recast, SumTensor, CellEffect;
    var w := World(|cells|);
    var sum := SumTensor(TensorsOf(cells));
    ScatterResult(q, k, cells, size);
    var cells1 := Fired(CellEffectOf(q), Collective(w, ReduceScatter(k)), cells);
    MaxShardResult(q, k, cells1, sum, size);
    var cells2 := Fired(CellEffectOf(q), Collective(w, MaxShard(k)), cells1);
    GatherShardsResult(q, k, cells2, sum, size, r);
    ExecuteThree(q, Collective(w, ReduceScatter(k)), Collective(w, MaxShard(k)), Collective(w, GatherShards(k)), cells);
  }

  lemma SumLength(cells: seq<Cell>, numel: nat)
    requires cells != [] && Uniform(TensorsOf(cells), numel)
    ensures |SumTensor(TensorsOf(cells))| == numel
  {
    assert |TensorsOf(cells)[0]| == numel;
  }

  /** Reduce, scatter, agree on a magnitude, gather: every rank gets the recast sum, in order. */
  lemma GatherResult(q: Quantiser, k: nat, numel: nat, elementSize: nat, cells: seq<Cell>, r: nat)
    requires r < |cells| && !FallsBack(|cells|, numel, elementSize)
    requires Uniform(TensorsOf(cells), numel)
    ensures Below(GatherCalls(|cells|, numel, elementSize, k), |cells|)
    ensures Execute(CellEffectOf(q), GatherCalls(|cells|, numel, elementSize, k), cells)[r].t
         == Recast(q, SumTensor(TensorsOf(cells)))
  {
    hide Execute, Amax, Offset, Recast, SumTensor;
    SumLength(cells, numel);
    ExactShards(|cells|, numel, elementSize);
    assert GatherCalls(|cells|, numel, elementSize, k) == ShardCalls(World(|cells|), k);
    ShardedResult(q, k, cells, numel / |cells|, r);
  }
}
