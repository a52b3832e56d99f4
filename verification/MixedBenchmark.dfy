/**
  The user generator's code: its fields and what its methods do to them. Every method is proved to be
  a move of the machine in UserRuns.
 */
module MixedBenchmark {
  import opened TimedQueue
  import opened UserRuns

  function Cumulative(ratios: seq<int>, n: nat): (t: int)
    requires n <= |ratios|
  {
    if n == 0 then 0 else Cumulative(ratios, n - 1) + ratios[n - 1]
  }

  /** Each sum is the one before it and the next ratio. */
  ghost predicate AddsUp(ratios: seq<int>, sums: seq<int>) {
    |sums| == |ratios| && forall i | 0 <= i < |ratios| :: sums[i] == ratios[i] + if i == 0 then 0 else sums[i - 1]
  }

  method CumulativeRatios(ratios: seq<int>) returns (sums: seq<int>)
    ensures |sums| == |ratios| && forall i | 0 <= i < |ratios| :: sums[i] == Cumulative(ratios, i + 1)
    ensures AddsUp(ratios, sums)
  {
    sums := [];
    for i := 0 to |ratios|
      invariant |sums| == i && forall k | 0 <= k < i :: sums[k] == Cumulative(ratios, k + 1)
    {
      var t := 0;
      for k := 0 to i + 1
        invariant t == Cumulative(ratios, k)
      {
        t := t + ratios[k];
      }
      sums := sums + [t];
    }
  }

  class UserGenerator {
    const cfg: Config
    const cumulativeRatios: seq<int>
    var multiturnQueue: seq<User>
    var userId: nat
    var userStats: seq<nat>
    var inputStats: seq<Tally>
    var outputStats: seq<Tally>
    ghost var out: seq<User>
    ghost var popped: nat
    ghost var answered: nat

    ghost function View(): (s: State)
      reads this
    {
      State(multiturnQueue, out, userId, inputStats, outputStats, userStats, popped, answered)
    }

    ghost predicate Valid()
      reads this
    {
      |cumulativeRatios| == cfg.numRounds && Inv(cfg, View())
    }

    constructor (cfg: Config, ratios: seq<int>)
      requires ValidConfig(cfg) && |ratios| == cfg.numRounds
      ensures Valid() && this.cfg == cfg && Initial(cfg, View())
      ensures AddsUp(ratios, cumulativeRatios)
    {
      var n := cfg.numRounds;
      var sums := CumulativeRatios(ratios);
      this.cfg, cumulativeRatios := cfg, sums;
      multiturnQueue, userId, out, popped, answered := [], 0, [], 0, 0;
      userStats := seq(n, (r: nat) => 0);
      inputStats, outputStats := seq(n, (r: nat) => Tally(0, 0)), seq(n, (r: nat) => Tally(0, 0));
    }

    /** How many rounds a random draw stands for: the first whose cumulative ratio exceeds it, else all. */
    ghost predicate StandsFor(pick: int, total: nat) {
      && 1 <= total <= |cumulativeRatios|
      && (forall k | 0 <= k < total - 1 :: cumulativeRatios[k] <= pick)
      && (total < |cumulativeRatios| ==> pick < cumulativeRatios[total - 1])
    }

    method DrawRounds(pick: int) returns (total: nat)
      requires Valid() && cfg.numRounds > 0
      ensures StandsFor(pick, total)
    {
      total := |cumulativeRatios|;
      for idx := 0 to |cumulativeRatios|
        invariant total == |cumulativeRatios|
        invariant forall k | 0 <= k < idx :: cumulativeRatios[k] <= pick
      {
        if pick < cumulativeRatios[idx] {
          return idx + 1;
        }
      }
    }

    /** Makes a user and counts it and its first prompt. */
    method MakeUser(pick: int, x: Candidate, draw: int) returns (u: User)
      requires Valid() && cfg.numRounds > 0
      modifies this`userId, this`inputStats, this`userStats
      ensures 1 <= u.total <= cfg.numRounds == |old(userStats)| == |old(inputStats)|
      ensures StandsFor(pick, u.total)
      ensures u == NewUser(cfg, old(userId), u.total, x, draw) && userId == old(userId) + 1
      ensures u.id == old(userId) && u.round == 0 && u.prompt == Show(u.id) + " " + x.prompt && u.start == 0.0
      ensures |cfg.meanReturn| > 0 && u.returnTokens == if draw > 0 then draw else cfg.meanReturn[0]
      ensures inputStats == Added(old(inputStats), 0, x.len)
      ensures userStats == old(userStats)[u.total - 1 := old(userStats)[u.total - 1] + 1]
    {
      hide Show;
      var total := DrawRounds(pick);
      var id := userId;
      userId := userId + 1;
      inputStats := inputStats[0 := Tally(inputStats[0].tokens + x.len, inputStats[0].count + 1)];
      var returnTokens := draw;
      if returnTokens <= 0 { returnTokens := cfg.meanReturn[0]; }
      u := User(id, 0, total, Show(id) + " " + x.prompt, returnTokens, 0.0);
      userStats := userStats[total - 1 := userStats[total - 1] + 1];
    }

    /** The next user to serve: the first waiting one if its time has come, else a new one. */
    method Pop(now: real, pick: int, x: Candidate, draw: int) returns (u: User)
      requires Valid() && cfg.numRounds > 0
      modifies this
      ensures Valid() && out == old(out) + [u]
      ensures Takes(cfg, old(View()), View(), Move.Pop(now, u.total, x, draw))
      ensures var q := old(multiturnQueue);
              if q != [] && now > q[0].start then u == q[0] && multiturnQueue == q[1..] && userId == old(userId)
              else
                && multiturnQueue == q && userId == old(userId) + 1 && StandsFor(pick, u.total)
                && u.id == old(userId) && u.round == 0 && u.prompt == Show(u.id) + " " + x.prompt && u.start == 0.0
                && |cfg.meanReturn| > 0 && u.returnTokens == if draw > 0 then draw else cfg.meanReturn[0]
    {
      hide Inv, NewUser, Added, UserGenerator.StandsFor;
      ghost var s := View();
      if multiturnQueue != [] && now > multiturnQueue[0].start {
        u := multiturnQueue[0];
        multiturnQueue := multiturnQueue[1..];
      } else {
        ConfigIsValid(s);
        u := MakeUser(pick, x, draw);
      }
      out, popped := out + [u], popped + 1;
      assert Takes(cfg, s, View(), Move.Pop(now, u.total, x, draw));
      StepKeepsInv(cfg, s, View(), Move.Pop(now, u.total, x, draw));
    }

    lemma ConfigIsValid(s: State)
      requires Inv(cfg, s)
      ensures ValidConfig(cfg)
    {
    }

    /** The queue insertion, as the code does it. */
    method InsertUser(u: User)
      modifies this`multiturnQueue
      ensures multiturnQueue == AsWritten(old(multiturnQueue), u)
    {
      if |multiturnQueue| == 0 {
        multiturnQueue := [u];
      } else {
        var i, idx, k := |multiturnQueue|, 0, 0;
        while k < |multiturnQueue|
          invariant k <= |multiturnQueue| && i == |multiturnQueue| && idx == if k == 0 then 0 else k - 1
          invariant Position(multiturnQueue, u.start, 0) == Position(multiturnQueue, u.start, k)
        {
          idx := k;
          if u.start < multiturnQueue[k].start {
            i := k;
            break;
          }
          k := k + 1;
        }
        // The position found is i, but the user is inserted at idx.
        multiturnQueue := multiturnQueue[..idx] + [u] + multiturnQueue[idx..];
      }
    }

    /** The user's next round: a new prompt, counted, a token target and a start time. */
    method NextRound(u: User, text: string, x: Candidate, draw: int, now: real, interval: real) returns (v: User)
      requires ValidConfig(cfg) && u.round + 1 < cfg.numRounds == |inputStats|
      modifies this`inputStats
      ensures inputStats == Added(old(inputStats), u.round + 1, x.len)
      ensures v.id == u.id && v.round == u.round + 1 && v.total == u.total
      ensures v.prompt == u.prompt + text + x.prompt
      ensures v.returnTokens == if draw > 0 then draw else cfg.meanReturn[v.round]
      ensures v.start == now + if interval > 0.0 then interval else cfg.meanInterval[v.round]
      ensures v == Advanced(cfg, u, text, x, draw, StartFor(cfg, u.round + 1, now, interval))
    {
      var r := u.round + 1;
      inputStats := inputStats[r := Tally(inputStats[r].tokens + x.len, inputStats[r].count + 1)];
      var returnTokens, pause := draw, interval;
      if returnTokens <= 0 { returnTokens := cfg.meanReturn[r]; }
      if pause <= 0.0 { pause := cfg.meanInterval[r]; }
      v := u.(round := r, prompt := u.prompt + (text + x.prompt), returnTokens := returnTokens, start := now + pause);
    }

    lemma UserIsProper(s: State, i: nat)
      requires Inv(cfg, s) && i < |s.out|
      ensures ValidConfig(cfg) && |s.inputs| == |s.outputs| == cfg.numRounds
      ensures s.out[i].round < s.out[i].total <= cfg.numRounds
    {
      assert Proper(cfg, s.out[i]);
    }

    /** An answer for the i-th user under way: its round ends, and it is queued again if rounds are left. */
    method Push(ghost i: nat, u: User, text: string, itl: nat, x: Candidate, draw: int, now: real, interval: real)
      returns (ghost start: real)
      requires Valid() && i < |out| && out[i] == u
      modifies this
      ensures Valid()
      ensures Takes(cfg, old(View()), View(), Move.Push(i, text, itl, x, draw, start))
      ensures u.round + 1 < u.total ==> u.round + 1 < |cfg.meanInterval|
      ensures u.round + 1 < u.total ==>
                start == now + if interval > 0.0 then interval else cfg.meanInterval[u.round + 1]
    {
      hide Inv, Added, Advanced, AsWritten;
      ghost var s := View();
      UserIsProper(s, i);
      start := 0.0;
      var r := u.round;
      outputStats := outputStats[r := Tally(outputStats[r].tokens + (itl + 1), outputStats[r].count + 1)];
      AddedIs(s.outputs, r, itl + 1);
      out, answered := WithoutAt(out, i), answered + 1;
      if r + 1 < u.total {
        start := StartFor(cfg, r + 1, now, interval);
        var v := NextRound(u, text, x, draw, now, interval);
        InsertUser(v);
      }
      assert Takes(cfg, s, View(), Move.Push(i, text, itl, x, draw, start));
      StepKeepsInv(cfg, s, View(), Move.Push(i, text, itl, x, draw, start));
    }
  }

  lemma AddedIs(ts: seq<Tally>, r: nat, tokens: int)
    requires r < |ts|
    ensures Added(ts, r, tokens) == ts[r := Tally(ts[r].tokens + tokens, ts[r].count + 1)]
  {
  }
}
