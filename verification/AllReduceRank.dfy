/**
  The code one rank runs: objects that issue collectives, one call after another. Their
  methods are proved to issue exactly the programs whose interleavings AllReduceRuns studies.
 */
module AllReduceRank {
  import opened Tensors
  import opened Rendezvous
  import opened AllReduce

  /** lo, lo + 1, ..., hi - 1. */
  method Range(lo: nat, hi: nat) returns (rs: seq<nat>)
    requires lo <= hi
    ensures |rs| == hi - lo && forall i | 0 <= i < hi - lo :: rs[i] == lo + i
  {
    rs := [];
    for x := lo to hi
      invariant |rs| == x - lo && forall i | 0 <= i < x - lo :: rs[i] == lo + i
    {
      rs := rs + [x];
    }
  }

  /** 0, step, 2 * step, ... below a bound that step divides into n parts. */
  method RangeBy(bound: nat, step: nat, ghost n: nat) returns (rs: seq<nat>)
    requires step > 0 && Offset(n, step) == bound
    ensures rs == Leaders(n, step)
  {
    rs := [];
    var x := 0;
    ghost var i := 0;
    while x < bound
      invariant i <= n && x == Offset(i, step)
      invariant rs == Leaders(i, step)
    {
      rs := rs + [x];
      x := x + step;
      i := i + 1;
    }
    if i < n { OffsetGrows(i, n, step); }
  }

  class HierarchicalAllReduce {
    const rank: nat
    const world: nat
    const groupSize: nat
    const compress: bool
    const nGroups: nat
    const groupId: nat
    const isLeader: bool
    var intra: seq<nat>
    var leaderGroup: seq<nat>
    var isInLeaderGroup: bool
    /** The collectives issued so far. */
    var calls: seq<Call>

    ghost predicate Valid()
      reads this
    {
      && groupSize > 0 && world % groupSize == 0 && rank < world
      && nGroups == world / groupSize
      && groupId == PieceOf(rank, groupSize)
      && intra == Block(groupId, groupSize)
      && leaderGroup == Leaders(nGroups, groupSize)
      && isInLeaderGroup == (rank in leaderGroup)
      && isLeader == isInLeaderGroup
    }

    /** Issues the construction of every group, in group order, and then of the leaders' group. */
    constructor (rank: nat, world: nat, groupSize: nat, compress: bool)
      requires groupSize > 0 && world % groupSize == 0 && rank < world
      ensures Valid()
      ensures this.rank == rank && this.world == world && this.groupSize == groupSize && this.compress == compress
      ensures calls == TaskProgram(world, rank, 0, Build(groupSize))
    {
      this.rank, this.world, this.groupSize, this.compress := rank, world, groupSize, compress;
      nGroups := world / groupSize;
      groupId := rank / groupSize;
      isLeader := rank % groupSize == 0;
      intra, leaderGroup, isInLeaderGroup, calls := [], [], false, [];
      new;
      PieceIsQuotient(rank, groupSize);
      EvenGroups(world, groupSize);
      PieceBelow(rank, nGroups, groupSize);
      for g := 0 to nGroups
        invariant calls == seq(g, (h: nat) => Collective(World(world), NewGroup(Block(h, groupSize))))
        invariant groupId < g ==> intra == Block(groupId, groupSize)
      {
        OffsetIsProduct(g, groupSize);
        assert (g + 1) * groupSize == g * groupSize + groupSize;
        var ranks := Range(g * groupSize, (g + 1) * groupSize);
        assert ranks == Block(g, groupSize);
        calls := calls + [Collective(World(world), NewGroup(ranks))];
        if g == groupId {
          intra := ranks;
        }
      }
      leaderGroup := RangeBy(world, groupSize, nGroups);
      calls := calls + [Collective(World(world), NewGroup(leaderGroup))];
      isInLeaderGroup := rank in leaderGroup;
      InLeaders(rank, nGroups, groupSize);
      LeaderIsMultiple(rank, groupSize);
    }

    /** All-reduce across group leaders, in eight bits when that is asked for and pays. */
    method ExchangeLeaders(k: nat, numel: nat, elementSize: nat)
      requires Valid()
      modifies this`calls
      ensures Valid()
      ensures calls == old(calls) + ExchangeCalls(world, Hierarchical(groupSize, compress, numel, elementSize), k)
      ensures compress && numel * elementSize >= 1048576 ==>
                calls == old(calls) + [Collective(leaderGroup, MaxReduce(k))]
                         + [Collective(leaderGroup, CompressedReduce(k))]
      ensures !compress || numel * elementSize < 1048576 ==>
                calls == old(calls) + [Collective(leaderGroup, SumReduce(k))]
    {
      if !(compress && numel * elementSize >= COMPRESS_MIN_BYTES) {
        calls := calls + [Collective(leaderGroup, SumReduce(k))];
        return;
      }
      calls := calls + [Collective(leaderGroup, MaxReduce(k))];
      calls := calls + [Collective(leaderGroup, CompressedReduce(k))];
    }

    /** Issues this rank's part of one all-reduce of tensor k. */
    method AllReduce(k: nat, numel: nat, elementSize: nat)
      requires Valid()
      modifies this`calls
      ensures Valid()
      ensures calls == old(calls) + TaskProgram(world, rank, k, Hierarchical(groupSize, compress, numel, elementSize))
    {
      calls := calls + [Collective(intra, SumReduce(k))];
      if isInLeaderGroup {
        ExchangeLeaders(k, numel, elementSize);
      }
      OffsetIsProduct(groupId, groupSize);
      calls := calls + [Collective(intra, Broadcast(k, groupId * groupSize))];
    }
  }

  /** rank % size == 0 says the same as being the first rank of one's group. */
  lemma LeaderIsMultiple(r: nat, size: nat)
    requires size > 0
    ensures r % size == 0 <==> r == Offset(PieceOf(r, size), size)
  {
    PieceIsQuotient(r, size);
    OffsetIsProduct(r / size, size);
    assert r == r / size * size + r % size;
  }

  class Fp8AllGatherAllReduce {
    const world: nat
    var calls: seq<Call>

    constructor (world: nat)
      ensures this.world == world && calls == []
    {
      this.world, calls := world, [];
    }

    /** Issues one all-reduce of tensor k: in eight bits if the shards come out even and it pays. */
    method AllReduce(k: nat, numel: nat, elementSize: nat, ghost rank: nat)
      requires rank < world
      modifies this`calls
      ensures calls == old(calls) + TaskProgram(world, rank, k, Fp8Gather(numel, elementSize))
      ensures |calls| == |old(calls)| + if numel % world != 0 || numel * elementSize < 1048576 then 1 else 3
    {
      if numel % world != 0 || numel * elementSize < COMPRESS_MIN_BYTES {
        calls := calls + [Collective(World(world), SumReduce(k))];
        return;
      }
      calls := calls + [Collective(World(world), ReduceScatter(k))];
      calls := calls + [Collective(World(world), MaxShard(k))];
      calls := calls + [Collective(World(world), GatherShards(k))];
    }
  }
}
