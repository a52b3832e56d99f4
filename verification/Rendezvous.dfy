/**
  Ranks that block at collectives.

  Every rank runs its own straight-line program of collectives. A rank that reaches a
  collective blocks there; the collective fires once every member is blocked at it, and
  then updates the local state of all members at once. Any rank may move at any time.

  The module proves, for every machine whose programs are the projections of one common
  schedule, that no interleaving deadlocks, that ranks which wait for one another wait at
  the same collective, and that every complete interleaving ends in the state the schedule
  reaches when it is executed one collective after the other.
 */
module Rendezvous {

  /** One collective call: who takes part, and what it does. */
  datatype Collective<K> = Collective(members: seq<nat>, kind: K)

  /** From the members' states (in member order), its own state and its number, a rank's next state. */
  type Effect<!K, !L> = (Collective<K>, seq<L>, L, nat) -> L

  datatype Machine<!K, !L> = Machine(programs: seq<seq<Collective<K>>>, effect: Effect<K, L>)

  datatype State<L> = State(pc: seq<nat>, waiting: seq<bool>, local: seq<L>)

  ghost predicate Shaped<K, L>(m: Machine<K, L>, s: State<L>) {
    |s.pc| == |s.waiting| == |s.local| == |m.programs|
  }

  /** Is rank r inside its program, and which collective is next? */
  ghost predicate NextIs<K, L>(m: Machine<K, L>, s: State<L>, r: nat, c: Collective<K>)
    requires Shaped(m, s)
  {
    r < |s.pc| && s.pc[r] < |m.programs[r]| && m.programs[r][s.pc[r]] == c
  }

  ghost predicate MembersBelow<K>(c: Collective<K>, world: nat) {
    forall i | 0 <= i < |c.members| :: c.members[i] < world
  }

  function Gather<L>(members: seq<nat>, ls: seq<L>): (g: seq<L>)
    requires forall i | 0 <= i < |members| :: members[i] < |ls|
  {
    seq(|members|, i requires 0 <= i < |members| => ls[members[i]])
  }

  /** The local states after collective c, given those before it. */
  function Fired<K, L>(eff: Effect<K, L>, c: Collective<K>, ls: seq<L>): (ls': seq<L>)
    requires MembersBelow(c, |ls|)
    ensures |ls'| == |ls|
  {
    seq(|ls|, r requires 0 <= r < |ls| =>
      if r in c.members then eff(c, Gather(c.members, ls), ls[r], r) else ls[r])
  }

  // ---------------------------------------------------------------- the machine's steps

  ghost predicate Arrives<K, L>(m: Machine<K, L>, s: State<L>, s': State<L>, r: nat)
    requires Shaped(m, s)
  {
    && r < |s.pc|
    && !s.waiting[r]
    && s.pc[r] < |m.programs[r]|
    && s' == s.(waiting := s.waiting[r := true])
  }

  ghost predicate Enabled<K, L>(m: Machine<K, L>, s: State<L>, c: Collective<K>)
    requires Shaped(m, s)
  {
    && c.members != []
    && MembersBelow(c, |s.pc|)
    && forall r | r in c.members :: NextIs(m, s, r, c) && s.waiting[r]
  }

  ghost predicate Fires<K, L>(m: Machine<K, L>, s: State<L>, s': State<L>, c: Collective<K>)
    requires Shaped(m, s)
  {
    && Enabled(m, s, c)
    && Shaped(m, s')
    && (forall r | 0 <= r < |s.pc| ::
          && s'.pc[r] == (if r in c.members then s.pc[r] + 1 else s.pc[r])
          && s'.waiting[r] == (s.waiting[r] && r !in c.members))
    && s'.local == Fired(m.effect, c, s.local)
  }

  ghost predicate Step<K(!new), L>(m: Machine<K, L>, s: State<L>, s': State<L>)
    requires Shaped(m, s)
  {
    || (exists r: nat :: Arrives(m, s, s', r))
    || (exists c: Collective<K> :: Fires(m, s, s', c))
  }

  ghost predicate Initial<K, L>(m: Machine<K, L>, s: State<L>) {
    && Shaped(m, s)
    && forall r | 0 <= r < |s.pc| :: s.pc[r] == 0 && !s.waiting[r]
  }

  ghost predicate Finished<K, L>(m: Machine<K, L>, s: State<L>)
    requires Shaped(m, s)
  {
    forall r | 0 <= r < |s.pc| :: s.pc[r] == |m.programs[r]|
  }

  /** A run: an initial state and then one step after another. */
  ghost predicate IsRun<K(!new), L>(m: Machine<K, L>, run: seq<State<L>>) {
    && run != []
    && Initial(m, run[0])
    && (forall i | 0 <= i < |run| :: Shaped(m, run[i]))
    && forall i | 0 <= i < |run| - 1 :: Step(m, run[i], run[i + 1])
  }

  // ---------------------------------------------------------------- the reference: one schedule

  /** Executes a schedule one collective after the other. */
  function Execute<K, L>(eff: Effect<K, L>, sched: seq<Collective<K>>, ls: seq<L>): (ls': seq<L>)
    requires forall i | 0 <= i < |sched| :: MembersBelow(sched[i], |ls|)
    ensures |ls'| == |ls|
  {
    if sched == [] then ls
    else
      var n := |sched| - 1;
      Fired(eff, sched[n], Execute(eff, sched[..n], ls))
  }

  /** The collectives of a schedule that rank r takes part in, in order. */
  function Project<K>(sched: seq<Collective<K>>, r: nat): (p: seq<Collective<K>>) {
    if sched == [] then []
    else (if r in sched[0].members then [sched[0]] else []) + Project(sched[1..], r)
  }

  ghost predicate Projects<K, L>(m: Machine<K, L>, sched: seq<Collective<K>>) {
    && (forall i | 0 <= i < |sched| :: MembersBelow(sched[i], |m.programs|))
    && (forall i | 0 <= i < |sched| :: sched[i].members != [])
    && forall r | 0 <= r < |m.programs| :: m.programs[r] == Project(sched, r)
  }

  lemma {:induction false} ProjectConcat<K>(a: seq<Collective<K>>, b: seq<Collective<K>>, r: nat)
    ensures Project(a + b, r) == Project(a, r) + Project(b, r)
  {
    if a == [] {
      assert a + b == b;
    } else {
      ProjectConcat(a[1..], b, r);
      assert (a + b)[0] == a[0] && (a + b)[1..] == a[1..] + b;
      Associates(if r in a[0].members then [a[0]] else [], Project(a[1..], r), Project(b, r));
    }
  }

  lemma Associates<T>(x: seq<T>, y: seq<T>, z: seq<T>)
    ensures x + (y + z) == x + y + z
  {
  }

  lemma {:induction false} ExecuteConcat<K, L>(eff: Effect<K, L>, a: seq<Collective<K>>, b: seq<Collective<K>>,
                                               ls: seq<L>)
    requires forall i | 0 <= i < |a| :: MembersBelow(a[i], |ls|)
    requires forall i | 0 <= i < |b| :: MembersBelow(b[i], |ls|)
    ensures forall i | 0 <= i < |a + b| :: MembersBelow((a + b)[i], |ls|)
    ensures Execute(eff, a + b, ls) == Execute(eff, b, Execute(eff, a, ls))
  {
    if b == [] {
      assert a + b == a;
    } else {
      var n := |b| - 1;
      ExecuteConcat(eff, a, b[..n], ls);
      assert (a + b)[..|a + b| - 1] == a + b[..n];
    }
  }

  /** The first position at or after i in which rank r takes part; the end if there is none. */
  ghost function NextIndex<K>(sched: seq<Collective<K>>, r: nat, i: nat): (j: nat)
    requires i <= |sched|
    ensures i <= j <= |sched|
    ensures j < |sched| ==> r in sched[j].members
    ensures forall k | i <= k < j :: r !in sched[k].members
    decreases |sched| - i
  {
    if i == |sched| || r in sched[i].members then i else NextIndex(sched, r, i + 1)
  }

  /** Skipping positions a rank is not part of changes neither its remaining program ... */
  lemma {:induction false} ProjectSkip<K>(sched: seq<Collective<K>>, r: nat, i: nat, j: nat)
    requires i <= j <= |sched|
    requires forall k | i <= k < j :: r !in sched[k].members
    ensures Project(sched[i..], r) == Project(sched[j..], r)
    decreases j - i
  {
    if i < j {
      assert sched[i..][1..] == sched[i + 1..];
      ProjectSkip(sched, r, i + 1, j);
    }
  }

  /** ... nor its local state. */
  lemma {:induction false} ExecuteSkip<K, L>(eff: Effect<K, L>, sched: seq<Collective<K>>, ls: seq<L>, r: nat,
                                             i: nat, j: nat)
    requires i <= j <= |sched| && r < |ls|
    requires forall k | 0 <= k < |sched| :: MembersBelow(sched[k], |ls|)
    requires forall k | i <= k < j :: r !in sched[k].members
    ensures Execute(eff, sched[..j], ls)[r] == Execute(eff, sched[..i], ls)[r]
    decreases j - i
  {
    if i < j {
      ExecuteSkip(eff, sched, ls, r, i, j - 1);
      assert sched[..j][..j - 1] == sched[..j - 1];
    }
  }

  // ---------------------------------------------------------------- the invariant

  /**
    pos[r] is the schedule position rank r has to execute next. Each rank is where the
    schedule puts it, holds what the schedule gives it there, and a collective has been
    executed by all of its members or by none.
   */
  ghost predicate Inv<K, L>(m: Machine<K, L>, sched: seq<Collective<K>>, init: seq<L>, s: State<L>, pos: seq<nat>)
    requires Projects(m, sched) && |init| == |m.programs|
  {
    && Shaped(m, s)
    && |pos| == |m.programs|
    && (forall r | 0 <= r < |pos| :: Placed(m, sched, init, s, pos, r))
    && (forall i, r, q | 0 <= i < |sched| && r in sched[i].members && q in sched[i].members ::
          pos[r] <= i <==> pos[q] <= i)
  }

  ghost predicate Placed<K, L>(m: Machine<K, L>, sched: seq<Collective<K>>, init: seq<L>, s: State<L>,
                               pos: seq<nat>, r: nat)
    requires Projects(m, sched) && |init| == |m.programs|
    requires Shaped(m, s) && |pos| == |m.programs| && r < |pos|
  {
    && pos[r] <= |sched|
    && s.pc[r] <= |m.programs[r]|
    && m.programs[r][s.pc[r]..] == Project(sched[pos[r]..], r)
    && (pos[r] < |sched| ==> r in sched[pos[r]].members)
    && (s.waiting[r] ==> pos[r] < |sched|)
    && s.local[r] == Execute(m.effect, sched[..pos[r]], init)[r]
  }

  /** What the invariant says about the next collective of one rank. */
  lemma HeadIsScheduled<K, L>(m: Machine<K, L>, sched: seq<Collective<K>>, init: seq<L>, s: State<L>,
                              pos: seq<nat>, r: nat)
    requires Projects(m, sched) && |init| == |m.programs|
    requires Inv(m, sched, init, s, pos) && r < |pos|
    ensures pos[r] < |sched| <==> s.pc[r] < |m.programs[r]|
    ensures pos[r] < |sched| ==> m.programs[r][s.pc[r]] == sched[pos[r]]
    ensures pos[r] < |sched| ==> m.programs[r][s.pc[r] + 1..] == Project(sched[pos[r] + 1..], r)
  {
    assert Placed(m, sched, init, s, pos, r);
    var rest := m.programs[r][s.pc[r]..];
    if pos[r] < |sched| {
      assert sched[pos[r]..][0] == sched[pos[r]];
      assert sched[pos[r]..][1..] == sched[pos[r] + 1..];
      assert rest == [sched[pos[r]]] + Project(sched[pos[r] + 1..], r);
      assert rest[1..] == m.programs[r][s.pc[r] + 1..];
    } else {
      assert sched[pos[r]..] == [];
    }
  }

  /** Members of one collective that are both blocked at it stand at the same schedule position. */
  lemma MembersMeet<K, L>(m: Machine<K, L>, sched: seq<Collective<K>>, init: seq<L>, s: State<L>, pos: seq<nat>,
                          r: nat, q: nat)
    requires Projects(m, sched) && |init| == |m.programs|
    requires Inv(m, sched, init, s, pos)
    requires r < |pos| && q < |pos| && pos[r] < |sched| && pos[q] < |sched|
    requires q in sched[pos[r]].members && r in sched[pos[q]].members
    ensures pos[r] == pos[q]
  {
    assert Placed(m, sched, init, s, pos, r) && Placed(m, sched, init, s, pos, q);
  }

  lemma InitialInv<K, L>(m: Machine<K, L>, sched: seq<Collective<K>>, s: State<L>) returns (pos: seq<nat>)
    requires Projects(m, sched) && Initial(m, s)
    ensures Inv(m, sched, s.local, s, pos)
  {
    pos := seq(|m.programs|, r requires 0 <= r < |m.programs| => NextIndex(sched, r, 0));
    forall r | 0 <= r < |pos| ensures Placed(m, sched, s.local, s, pos, r) {
      ProjectSkip(sched, r, 0, pos[r]);
      ExecuteSkip(m.effect, sched, s.local, r, 0, pos[r]);
      assert sched[0..] == sched && sched[..0] == [];
      assert m.programs[r][0..] == m.programs[r];
    }
  }

  /** The position rank r moves to when the collective at position i fires. */
  ghost function Advance<K>(sched: seq<Collective<K>>, pos: seq<nat>, i: nat): (pos': seq<nat>)
    requires i < |sched|
    ensures |pos'| == |pos|
  {
    seq(|pos|, r requires 0 <= r < |pos| =>
      if r in sched[i].members then NextIndex(sched, r, i + 1) else pos[r])
  }

  lemma MovedIsPlaced<K, L>(m: Machine<K, L>, sched: seq<Collective<K>>, init: seq<L>, s: State<L>, pos: seq<nat>,
                            s': State<L>, i: nat, r: nat)
    requires Projects(m, sched) && |init| == |m.programs|
    requires Inv(m, sched, init, s, pos)
    requires i < |sched| && r < |pos| && r in sched[i].members
    requires forall q | q in sched[i].members :: pos[q] == i
    requires Fires(m, s, s', sched[i])
    ensures Placed(m, sched, init, s', Advance(sched, pos, i), r)
  {
    var c, j := sched[i], NextIndex(sched, r, i + 1);
    assert Placed(m, sched, init, s, pos, r);
    HeadIsScheduled(m, sched, init, s, pos, r);
    ProjectSkip(sched, r, i + 1, j);
    ExecuteSkip(m.effect, sched, init, r, i + 1, j);
    var before := Execute(m.effect, sched[..i], init);
    assert sched[..i + 1][..i] == sched[..i];
    forall k | 0 <= k < |c.members| ensures s.local[c.members[k]] == before[c.members[k]] {
      assert c.members[k] in c.members;
      assert Placed(m, sched, init, s, pos, c.members[k]);
    }
    assert Gather(c.members, s.local) == Gather(c.members, before);
  }

  lemma FireKeepsInv<K, L>(m: Machine<K, L>, sched: seq<Collective<K>>, init: seq<L>, s: State<L>, pos: seq<nat>,
                           s': State<L>, c: Collective<K>) returns (pos': seq<nat>)
    requires Projects(m, sched) && |init| == |m.programs|
    requires Inv(m, sched, init, s, pos) && Fires(m, s, s', c)
    ensures Inv(m, sched, init, s', pos')
  {
    var first := c.members[0];
    assert NextIs(m, s, first, c);
    HeadIsScheduled(m, sched, init, s, pos, first);
    var i := pos[first];
    forall q | q in c.members ensures pos[q] == i {
      assert NextIs(m, s, q, c);
      HeadIsScheduled(m, sched, init, s, pos, q);
      MembersMeet(m, sched, init, s, pos, first, q);
    }
    pos' := Advance(sched, pos, i);
    forall r | 0 <= r < |pos| ensures Placed(m, sched, init, s', pos', r) {
      assert Placed(m, sched, init, s, pos, r);
      if r in c.members {
        MovedIsPlaced(m, sched, init, s, pos, s', i, r);
      }
    }
    forall k, r, q | 0 <= k < |sched| && r in sched[k].members && q in sched[k].members
      ensures pos'[r] <= k <==> pos'[q] <= k
    {
      assert Placed(m, sched, init, s, pos, r) && Placed(m, sched, init, s, pos, q);
      AdvancedAlike(sched, pos, i, k, r, q);
    }
  }

  /** All members of position k pass it together when the collective at position i fires. */
  lemma AdvancedAlike<K>(sched: seq<Collective<K>>, pos: seq<nat>, i: nat, k: nat, r: nat, q: nat)
    requires i < |sched| && k < |sched| && r < |pos| && q < |pos|
    requires r in sched[k].members && q in sched[k].members
    requires pos[r] <= k <==> pos[q] <= k
    requires r in sched[i].members ==> pos[r] == i
    requires q in sched[i].members ==> pos[q] == i
    ensures Advance(sched, pos, i)[r] <= k <==> Advance(sched, pos, i)[q] <= k
  {
  }

  lemma ArriveKeepsInv<K, L>(m: Machine<K, L>, sched: seq<Collective<K>>, init: seq<L>, s: State<L>, pos: seq<nat>,
                             s': State<L>, r: nat)
    requires Projects(m, sched) && |init| == |m.programs|
    requires Inv(m, sched, init, s, pos) && Arrives(m, s, s', r)
    ensures Inv(m, sched, init, s', pos)
  {
    HeadIsScheduled(m, sched, init, s, pos, r);
    forall q | 0 <= q < |pos| ensures Placed(m, sched, init, s', pos, q) {
      assert Placed(m, sched, init, s, pos, q);
    }
  }

  lemma {:induction false} RunKeepsInv<K(!new), L>(m: Machine<K, L>, sched: seq<Collective<K>>, run: seq<State<L>>,
                                                   i: nat)
    returns (pos: seq<nat>)
    requires Projects(m, sched) && IsRun(m, run) && i < |run|
    ensures Inv(m, sched, run[0].local, run[i], pos)
  {
    if i == 0 {
      pos := InitialInv(m, sched, run[0]);
    } else {
      pos := RunKeepsInv(m, sched, run, i - 1);
      var s, s' := run[i - 1], run[i];
      assert Step(m, run[i - 1], run[i - 1 + 1]);
      if r: nat :| Arrives(m, s, s', r) {
        ArriveKeepsInv(m, sched, run[0].local, s, pos, s', r);
      } else {
        var c: Collective<K> :| Fires(m, s, s', c);
        pos := FireKeepsInv(m, sched, run[0].local, s, pos, s', c);
      }
    }
  }

  // ---------------------------------------------------------------- the theorems

  /**
    Safety: two blocked ranks that each take part in the collective the other is blocked at
    are blocked at the very same collective.
   */
  lemma BlockedMembersAgree<K(!new), L>(m: Machine<K, L>, sched: seq<Collective<K>>, run: seq<State<L>>, i: nat,
                                  r: nat, q: nat, c: Collective<K>, d: Collective<K>)
    requires Projects(m, sched) && IsRun(m, run) && i < |run|
    requires NextIs(m, run[i], r, c) && NextIs(m, run[i], q, d)
    requires q in c.members && r in d.members
    ensures c == d
  {
    var pos := RunKeepsInv(m, sched, run, i);
    HeadIsScheduled(m, sched, run[0].local, run[i], pos, r);
    HeadIsScheduled(m, sched, run[0].local, run[i], pos, q);
    MembersMeet(m, sched, run[0].local, run[i], pos, r, q);
  }

  /** What ranks hold when they come to a collective is what the schedule gives them there. */
  lemma MeetingRanksHold<K(!new), L>(m: Machine<K, L>, sched: seq<Collective<K>>, run: seq<State<L>>, i: nat,
                               r: nat, q: nat, c: Collective<K>) returns (k: nat)
    requires Projects(m, sched) && IsRun(m, run) && i < |run|
    requires NextIs(m, run[i], r, c) && NextIs(m, run[i], q, c)
    ensures k < |sched| && sched[k] == c && r in c.members && q in c.members
    ensures run[i].local[r] == Execute(m.effect, sched[..k], run[0].local)[r]
    ensures run[i].local[q] == Execute(m.effect, sched[..k], run[0].local)[q]
  {
    var pos := RunKeepsInv(m, sched, run, i);
    HeadIsScheduled(m, sched, run[0].local, run[i], pos, r);
    HeadIsScheduled(m, sched, run[0].local, run[i], pos, q);
    k := pos[r];
    assert Placed(m, sched, run[0].local, run[i], pos, r) && Placed(m, sched, run[0].local, run[i], pos, q);
    MembersMeet(m, sched, run[0].local, run[i], pos, r, q);
  }

  /** Some rank whose next position is smallest. */
  lemma {:induction false} SmallestPosition(pos: seq<nat>, n: nat) returns (r: nat)
    requires exists k :: 0 <= k < |pos| && pos[k] < n
    ensures r < |pos| && pos[r] < n
    ensures forall k | 0 <= k < |pos| :: pos[r] <= pos[k]
  {
    r := 0;
    for k := 0 to |pos|
      invariant r < |pos|
      invariant forall j | 0 <= j < k :: pos[r] <= pos[j]
    {
      if pos[k] < pos[r] { r := k; }
    }
  }

  /** With every unfinished rank blocked, the earliest outstanding collective can fire. */
  lemma EarliestIsEnabled<K, L>(m: Machine<K, L>, sched: seq<Collective<K>>, init: seq<L>, s: State<L>, pos: seq<nat>)
    returns (c: Collective<K>)
    requires Projects(m, sched) && |init| == |m.programs|
    requires Inv(m, sched, init, s, pos) && !Finished(m, s)
    requires forall r | 0 <= r < |s.pc| :: s.pc[r] < |m.programs[r]| ==> s.waiting[r]
    ensures Enabled(m, s, c)
  {
    var open: nat :| open < |s.pc| && s.pc[open] != |m.programs[open]|;
    assert Placed(m, sched, init, s, pos, open);
    HeadIsScheduled(m, sched, init, s, pos, open);
    assert pos[open] < |sched|;
    var r := SmallestPosition(pos, |sched|);
    assert Placed(m, sched, init, s, pos, r);
    c := sched[pos[r]];
    forall q | q in c.members ensures NextIs(m, s, q, c) && s.waiting[q] {
      assert pos[q] <= pos[r];
      HeadIsScheduled(m, sched, init, s, pos, q);
    }
  }

  ghost function AfterFiring<K, L>(m: Machine<K, L>, s: State<L>, c: Collective<K>): (s': State<L>)
    requires Shaped(m, s) && Enabled(m, s, c)
    ensures Fires(m, s, s', c)
  {
    State(
      seq(|s.pc|, r requires 0 <= r < |s.pc| => if r in c.members then s.pc[r] + 1 else s.pc[r]),
      seq(|s.pc|, r requires 0 <= r < |s.pc| => s.waiting[r] && r !in c.members),
      Fired(m.effect, c, s.local))
  }

  /** Deadlock freedom: a state some interleaving reaches is finished or can move. */
  lemma NeverStuck<K(!new), L>(m: Machine<K, L>, sched: seq<Collective<K>>, run: seq<State<L>>)
    returns (s': State<L>)
    requires Projects(m, sched) && IsRun(m, run)
    ensures Finished(m, run[|run| - 1]) || Step(m, run[|run| - 1], s')
  {
    var s := run[|run| - 1];
    s' := s;
    if !Finished(m, s) {
      var pos := RunKeepsInv(m, sched, run, |run| - 1);
      if r: nat :| r < |s.pc| && s.pc[r] < |m.programs[r]| && !s.waiting[r] {
        s' := s.(waiting := s.waiting[r := true]);
        assert Arrives(m, s, s', r);
      } else {
        var c := EarliestIsEnabled(m, sched, run[0].local, s, pos);
        s' := AfterFiring(m, s, c);
      }
    }
  }

  /** Determinacy: however the ranks interleave, a finished run holds what the schedule computes. */
  lemma FinishedRunFollowsSchedule<K(!new), L>(m: Machine<K, L>, sched: seq<Collective<K>>, run: seq<State<L>>)
    requires Projects(m, sched) && IsRun(m, run) && Finished(m, run[|run| - 1])
    ensures run[|run| - 1].local == Execute(m.effect, sched, run[0].local)
  {
    var s := run[|run| - 1];
    var pos := RunKeepsInv(m, sched, run, |run| - 1);
    forall r | 0 <= r < |pos| ensures s.local[r] == Execute(m.effect, sched, run[0].local)[r] {
      assert Placed(m, sched, run[0].local, s, pos, r);
      HeadIsScheduled(m, sched, run[0].local, s, pos, r);
      assert sched[..pos[r]] == sched;
    }
  }

  // ---------------------------------------------------------------- termination

  /** Moves rank r has left: an arrival and a completion for every collective. */
  ghost function MovesLeft<K, L>(m: Machine<K, L>, s: State<L>, r: nat): (n: int)
    requires Shaped(m, s) && r < |s.pc|
  {
    2 * (|m.programs[r]| - s.pc[r]) - (if s.waiting[r] then 1 else 0)
  }

  ghost function Work<K, L>(m: Machine<K, L>, s: State<L>, n: nat): (w: int)
    requires Shaped(m, s) && n <= |s.pc|
  {
    if n == 0 then 0 else Work(m, s, n - 1) + MovesLeft(m, s, n - 1)
  }

  lemma {:induction false} WorkDrops<K, L>(m: Machine<K, L>, s: State<L>, s': State<L>, n: nat, r: nat)
    requires Shaped(m, s) && Shaped(m, s') && n <= |s.pc|
    requires forall k | 0 <= k < n :: MovesLeft(m, s', k) <= MovesLeft(m, s, k)
    requires r < |s.pc| && MovesLeft(m, s', r) < MovesLeft(m, s, r)
    ensures Work(m, s', n) <= Work(m, s, n)
    ensures r < n ==> Work(m, s', n) < Work(m, s, n)
  {
    if n > 0 { WorkDrops(m, s, s', n - 1, r); }
  }

  lemma StepDropsWork<K(!new), L>(m: Machine<K, L>, s: State<L>, s': State<L>)
    requires Shaped(m, s) && Shaped(m, s') && Step(m, s, s')
    ensures Work(m, s', |s.pc|) < Work(m, s, |s.pc|)
  {
    if r: nat :| Arrives(m, s, s', r) {
      WorkDrops(m, s, s', |s.pc|, r);
    } else {
      var c: Collective<K> :| Fires(m, s, s', c);
      var r := c.members[0];
      assert NextIs(m, s, r, c) && s.waiting[r];
      forall k | 0 <= k < |s.pc| ensures MovesLeft(m, s', k) <= MovesLeft(m, s, k) {
        if k in c.members { assert NextIs(m, s, k, c) && s.waiting[k]; }
      }
      WorkDrops(m, s, s', |s.pc|, r);
    }
  }

  lemma {:induction false} WorkIsNatural<K, L>(m: Machine<K, L>, sched: seq<Collective<K>>, init: seq<L>,
                                               s: State<L>, pos: seq<nat>, n: nat)
    requires Projects(m, sched) && |init| == |m.programs|
    requires Inv(m, sched, init, s, pos) && n <= |s.pc|
    ensures Work(m, s, n) >= 0
  {
    if n > 0 {
      WorkIsNatural(m, sched, init, s, pos, n - 1);
      assert Placed(m, sched, init, s, pos, n - 1);
      HeadIsScheduled(m, sched, init, s, pos, n - 1);
    }
  }

  lemma {:induction false} RunDropsWork<K(!new), L>(m: Machine<K, L>, run: seq<State<L>>, i: nat)
    requires IsRun(m, run) && i < |run|
    ensures i + Work(m, run[i], |m.programs|) <= Work(m, run[0], |m.programs|)
  {
    if i > 0 {
      RunDropsWork(m, run, i - 1);
      assert Step(m, run[i - 1], run[i - 1 + 1]);
      StepDropsWork(m, run[i - 1], run[i]);
    }
  }

  /** Termination: no interleaving takes more steps than the work the initial state holds. */
  lemma RunsAreBounded<K(!new), L>(m: Machine<K, L>, sched: seq<Collective<K>>, run: seq<State<L>>)
    requires Projects(m, sched) && IsRun(m, run)
    ensures |run| - 1 <= Work(m, run[0], |m.programs|)
  {
    RunDropsWork(m, run, |run| - 1);
    var pos := RunKeepsInv(m, sched, run, |run| - 1);
    WorkIsNatural(m, sched, run[0].local, run[|run| - 1], pos, |m.programs|);
  }

  /** Every interleaving, wherever it has got to, can be carried on to a finished run. */
  lemma RunsFinish<K(!new), L>(m: Machine<K, L>, sched: seq<Collective<K>>, run: seq<State<L>>)
    returns (full: seq<State<L>>)
    requires Projects(m, sched) && IsRun(m, run)
    ensures IsRun(m, full) && run <= full && Finished(m, full[|full| - 1])
    decreases Work(m, run[0], |m.programs|) - |run|
  {
    RunsAreBounded(m, sched, run);
    var s' := NeverStuck(m, sched, run);
    if Finished(m, run[|run| - 1]) {
      full := run;
    } else {
      RunsAreBounded(m, sched, run);
      var next := run + [s'];
      forall i | 0 <= i < |next| - 1 ensures Step(m, next[i], next[i + 1]) {
        if i < |run| - 1 { assert Step(m, run[i], run[i + 1]); }
      }
      assert IsRun(m, next);
      RunsAreBounded(m, sched, next);
      full := RunsFinish(m, sched, next);
    }
  }
}
