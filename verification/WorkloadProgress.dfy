/**
  How far a run has got: every move but an empty poll brings the end closer, so that no run goes on
  for ever, and a run without failures that can do no more has sent every client exactly its rounds.
 */
module WorkloadProgress {
  import opened Workload
  import opened WorkloadRuns
  import opened WorkloadBarrier

  // ---------------------------------------------------------------- the work left

  /** The moves behind the requests that are under way: each is popped, launched, answered and handled. */
  function Stage(s: State): (p: nat) {
    |s.ready| + (if s.sender.Holding? then 2 else 0) + 3 * |s.flying| + 4 * |s.answers|
  }

  /** Rounds the first n clients still have to go; a client whose request failed goes no further. */
  function Left(totals: seq<nat>, rounds: seq<nat>, failed: set<nat>, n: nat): (k: int)
    requires n <= |totals| == |rounds|
  {
    if n == 0 then 0
    else if n - 1 in failed then Left(totals, rounds, failed, n - 1)
    else Left(totals, rounds, failed, n - 1) + totals[n - 1] - rounds[n - 1]
  }

  /** A request is delivered, popped, launched, answered and handled. */
  function Work(cfg: Config, s: State): (w: int)
    requires |s.rounds| == |cfg.totals|
  {
    5 * Left(cfg.totals, s.rounds, s.failed, |cfg.totals|) - Stage(s)
  }

  lemma {:induction false} LeftAfterSuccess(totals: seq<nat>, rounds: seq<nat>, failed: set<nat>, n: nat, c: nat)
    requires n <= |totals| == |rounds| && c < |rounds| && c !in failed
    ensures Left(totals, rounds[c := rounds[c] + 1], failed, n)
            == Left(totals, rounds, failed, n) - (if c < n then 1 else 0)
  {
    if n > 0 { LeftAfterSuccess(totals, rounds, failed, n - 1, c); }
  }

  lemma {:induction false} LeftAfterFailure(totals: seq<nat>, rounds: seq<nat>, failed: set<nat>, n: nat, c: nat)
    requires n <= |totals| == |rounds| && c < |rounds| && c !in failed
    ensures Left(totals, rounds, failed + {c}, n)
         == if c < n then Left(totals, rounds, failed, n) + rounds[c] - totals[c] else Left(totals, rounds, failed, n)
  {
    if n > 0 { LeftAfterFailure(totals, rounds, failed, n - 1, c); }
  }

  // ---------------------------------------------------------------- every move counts

  /** The sender looks and finds nothing to send. */
  ghost predicate Polls(s: State, move: Move) {
    move == Check || (move.Pop? && s.ready == [])
  }

  /** A move that is no poll does one unit of work; a failure also takes away what its client had left. */
  lemma MovesWork(cfg: Config, s: State, s': State, move: Move)
    requires Placed(cfg, s) && Takes(cfg, s, s', move) && !s'.crashed
    ensures |s'.rounds| == |s.rounds| == |cfg.totals|
    ensures Polls(s, move) ==> Work(cfg, s') == Work(cfg, s)
    ensures !Polls(s, move) ==> Work(cfg, s') < Work(cfg, s)
    ensures !Polls(s, move) && s'.failed == s.failed ==> Work(cfg, s') == Work(cfg, s) - 1
  {
    hide Live, Count;
    if move == Handle {
      HandleWorks(cfg, s, s');
    } else {
      hide Left;
      MovesKeepPlaces(cfg, s, s', move, 0);
    }
  }

  lemma HandleWorks(cfg: Config, s: State, s': State)
    requires Placed(cfg, s) && Handles(cfg, s, s') && !s'.crashed
    ensures |s'.rounds| == |s.rounds| == |cfg.totals|
    ensures Work(cfg, s') < Work(cfg, s)
    ensures s'.failed == s.failed ==> Work(cfg, s') == Work(cfg, s) - 1
  {
    hide Live, Count, Handled;
    var a, n := s.answers[0], |cfg.totals|;
    AnswererIsOut(cfg, s);
    HandleRecords(cfg, s, s');
    HandleKeepsReady(cfg, s, s');
    if a.ok {
      LeftAfterSuccess(cfg.totals, s.rounds, s.failed, n, a.client);
    } else {
      LeftAfterFailure(cfg.totals, s.rounds, s.failed, n, a.client);
    }
  }

  lemma HandleKeepsReady(cfg: Config, s: State, s': State)
    requires Handles(cfg, s, s')
    ensures s'.ready == s.ready && s'.sender == s.sender && s'.flying == s.flying && s'.answers == s.answers[1..]
  {
    hide Above;
  }

  // ---------------------------------------------------------------- the work left is never negative

  /** Requests of the first n clients, wherever they are. */
  function Everywhere(s: State, n: nat): (k: nat) {
    if n == 0 then 0 else Everywhere(s, n - 1) + Live(s, n - 1) + Count(s.held, n - 1)
  }

  lemma {:induction false} EverywhereBounded(cfg: Config, s: State, n: nat)
    requires Placed(cfg, s) && n <= |cfg.totals|
    ensures Everywhere(s, n) <= Left(cfg.totals, s.rounds, s.failed, n)
  {
    hide Live, Count;
    if n > 0 {
      EverywhereBounded(cfg, s, n - 1);
      assert PlacedClient(cfg, s, n - 1);
    }
  }

  function SumAnswers(answers: seq<Answer>, n: nat): (k: nat) {
    if n == 0 then 0 else SumAnswers(answers, n - 1) + CountAnswers(answers, n - 1)
  }

  function SumHand(sender: Sender, n: nat): (k: nat) {
    if n == 0 then 0 else SumHand(sender, n - 1) + Hand(sender, n - 1)
  }

  lemma {:induction false} EverywhereSplits(s: State, n: nat)
    ensures Everywhere(s, n)
         == SumCounts(s.ready, n) + SumHand(s.sender, n) + SumCounts(s.flying, n) + SumAnswers(s.answers, n)
            + SumCounts(s.outbox, n) + SumCounts(s.held, n)
  {
    hide Count, CountAnswers, Hand;
    if n > 0 { EverywhereSplits(s, n - 1); }
  }

  lemma {:induction false} HandLength(sender: Sender, n: nat)
    ensures SumHand(sender, n) == if sender.Holding? && sender.req.client < n then 1 else 0
  {
    if n > 0 { HandLength(sender, n - 1); }
  }

  lemma {:induction false} NoAnswers(n: nat)
    ensures SumAnswers([], n) == 0
  {
    if n > 0 { NoAnswers(n - 1); }
  }

  lemma {:induction false} AddAnswer(answers: seq<Answer>, n: nat)
    requires answers != []
    ensures SumAnswers(answers, n) == SumAnswers(answers[1..], n) + (if answers[0].client < n then 1 else 0)
  {
    if n > 0 { AddAnswer(answers, n - 1); }
  }

  lemma {:induction false} AnswersLength(answers: seq<Answer>, n: nat)
    requires forall i | 0 <= i < |answers| :: answers[i].client < n
    ensures |answers| == SumAnswers(answers, n)
  {
    if answers == [] {
      NoAnswers(n);
    } else {
      AddAnswer(answers, n);
      AnswersLength(answers[1..], n);
    }
  }

  lemma {:induction false} AnswersHave(answers: seq<Answer>, i: nat)
    requires i < |answers|
    ensures CountAnswers(answers, answers[i].client) > 0
  {
    if i > 0 { AnswersHave(answers[1..], i - 1); }
  }

  /** Only clients of the plan have requests. */
  ghost predicate AllBelow(reqs: seq<Request>, n: nat) {
    forall i | 0 <= i < |reqs| :: reqs[i].client < n
  }

  lemma BelowIfCounted(reqs: seq<Request>, n: nat)
    requires forall c: nat | c >= n :: Count(reqs, c) == 0
    ensures AllBelow(reqs, n)
  {
    hide Count;
    forall i | 0 <= i < |reqs| ensures reqs[i].client < n { CountHas(reqs, i); }
  }

  lemma KnownClients(cfg: Config, s: State)
    requires Placed(cfg, s)
    ensures var n := |cfg.totals|;
            && AllBelow(s.ready, n) && AllBelow(s.flying, n) && AllBelow(s.outbox, n) && AllBelow(s.held, n)
            && (forall i | 0 <= i < |s.answers| :: s.answers[i].client < n)
            && (s.sender.Holding? ==> s.sender.req.client < n)
  {
    hide Count, CountAnswers, AllBelow;
    var n := |cfg.totals|;
    forall c: nat | c >= n
      ensures Count(s.ready, c) == 0 && Count(s.flying, c) == 0 && Count(s.outbox, c) == 0 && Count(s.held, c) == 0
      ensures CountAnswers(s.answers, c) == 0 && Hand(s.sender, c) == 0
    {
      assert PlacedClient(cfg, s, c);
    }
    BelowIfCounted(s.ready, n);
    BelowIfCounted(s.flying, n);
    BelowIfCounted(s.outbox, n);
    BelowIfCounted(s.held, n);
    forall i | 0 <= i < |s.answers| ensures s.answers[i].client < n {
      AnswersHave(s.answers, i);
    }
    assert s.sender.Holding? ==> Hand(s.sender, s.sender.req.client) == 1;
  }

  lemma PlacedShape(cfg: Config, s: State)
    requires Placed(cfg, s)
    ensures |s.rounds| == |s.history| == |cfg.totals| && !s.crashed
  {
  }

  lemma WorkIsNatural(cfg: Config, s: State)
    requires Placed(cfg, s)
    ensures |s.rounds| == |cfg.totals| && Work(cfg, s) >= 0
  {
    hide Live, Count, CountAnswers, Placed, Left, SumCounts, SumAnswers, SumHand, Everywhere;
    var n := |cfg.totals|;
    KnownClients(cfg, s);
    PlacedShape(cfg, s);
    EverywhereBounded(cfg, s, n);
    EverywhereSplits(s, n);
    LogLength(s.ready, n);
    LogLength(s.flying, n);
    LogLength(s.outbox, n);
    LogLength(s.held, n);
    AnswersLength(s.answers, n);
    HandLength(s.sender, n);
  }

  // ---------------------------------------------------------------- runs are bounded

  /** How many of the first n moves are no polls. */
  ghost function Productive(run: seq<State>, moves: seq<Move>, n: nat): (k: nat)
    requires n <= |moves| < |run|
  {
    if n == 0 then 0 else Productive(run, moves, n - 1) + (if Polls(run[n - 1], moves[n - 1]) then 0 else 1)
  }

  lemma {:induction false} LeftAtFirst(totals: seq<nat>, rounds: seq<nat>, n: nat)
    requires n <= |totals| == |rounds| && forall c | 0 <= c < |rounds| :: rounds[c] == 0
    ensures Left(totals, rounds, {}, n) == Total(totals, n)
  {
    if n > 0 { LeftAtFirst(totals, rounds, n - 1); }
  }

  /** Work done and work left add up; failures lose some of it. */
  lemma {:induction false} WorkAddsUp(cfg: Config, run: seq<State>, moves: seq<Move>, i: nat)
    requires IsRun(cfg, run, moves) && i < |run|
    ensures |run[i].rounds| == |cfg.totals|
    ensures Productive(run, moves, i) + Work(cfg, run[i]) <= 5 * Total(cfg.totals, |cfg.totals|) - |cfg.totals|
    ensures run[i].failed == {} ==>
              Productive(run, moves, i) + Work(cfg, run[i]) == 5 * Total(cfg.totals, |cfg.totals|) - |cfg.totals|
  {
    hide Inv, Takes, Work, Polls, Initial;
    if i == 0 {
      WorkAtFirst(cfg, run[0]);
    } else {
      WorkAddsUp(cfg, run, moves, i - 1);
      RunKeepsInv(cfg, run, moves, i - 1);
      RunKeepsInv(cfg, run, moves, i);
      InvIsPlaced(cfg, run[i - 1]);
      InvIsPlaced(cfg, run[i]);
      PlacedShape(cfg, run[i]);
      assert Takes(cfg, run[i - 1], run[i - 1 + 1], moves[i - 1]);
      MovesWork(cfg, run[i - 1], run[i], moves[i - 1]);
      FailuresStay(cfg, run, moves, i - 1);
    }
  }

  lemma WorkAtFirst(cfg: Config, s: State)
    requires Initial(cfg, s)
    ensures |s.rounds| == |cfg.totals| && Work(cfg, s) == 5 * Total(cfg.totals, |cfg.totals|) - |cfg.totals|
  {
    LeftAtFirst(cfg.totals, s.rounds, |cfg.totals|);
  }

  /** No run makes more moves, polls aside, than five for each planned request. */
  lemma RunsAreBounded(cfg: Config, run: seq<State>, moves: seq<Move>)
    requires IsRun(cfg, run, moves)
    ensures Productive(run, moves, |moves|) <= 5 * Total(cfg.totals, |cfg.totals|) - |cfg.totals|
  {
    hide Inv, Takes, Work, Initial;
    var i := |moves|;
    WorkAddsUp(cfg, run, moves, i);
    RunKeepsInv(cfg, run, moves, i);
    InvIsPlaced(cfg, run[i]);
    WorkIsNatural(cfg, run[i]);
  }

  lemma InvIsPlaced(cfg: Config, s: State)
    requires Inv(cfg, s)
    ensures Placed(cfg, s)
  {
  }

  // ---------------------------------------------------------------- a run that can do no more is complete

  /** Some move other than a poll is possible, perhaps after a look at the limit. */
  ghost predicate CanProgress(cfg: Config, s: State) {
    || (exists s', move :: Takes(cfg, s, s', move) && !Polls(s, move))
    || (exists s', s'', move :: Takes(cfg, s, s', Check) && Takes(cfg, s', s'', move) && !Polls(s', move))
  }

  /** The next move of a run without failures that still has something to do, with every answer a success. */
  lemma CanAdvance(cfg: Config, s: State) returns (s': State, move: Move)
    requires ValidConfig(cfg) && Inv(cfg, s) && s.failed == {} && !Drained(s) && cfg.maxParallel >= 1
    ensures Takes(cfg, s, s', move)
    ensures if move == Check then s.sender.Idle? && s.ready != [] && s'.sender.Cleared? else !Polls(s, move)
    ensures AllOk(s.answers) ==> AllOk(s'.answers) && s'.failed == {}
    ensures s'.ready == s.ready || move != Check
  {
    hide Live, Stocked, Faithful, Accounted, Barred, RoundOpen, Count, Total, Placed, Handled;
    if s.outbox != [] {
      move, s' := Deliver, s.(ready := s.ready + [s.outbox[0]], outbox := s.outbox[1..]);
    } else if s.answers != [] {
      s' := CanHandle(cfg, s);
      move := Handle;
    } else if s.flying != [] {
      move := Reply(0, true, []);
      s' := s.(flying := s.flying[..0] + s.flying[1..], answers := s.answers + [Answer(s.flying[0].client, true, [])]);
    } else if s.sender.Holding? {
      move := Launch;
      s' := s.(sender := Idle, flying := s.flying + [s.sender.req], sent := s.sent + 1, log := s.log + [s.sender.req]);
    } else {
      if s.ready == [] { HeldMeansBusy(cfg, s); }
      if s.sender.Cleared? {
        move, s' := Pop(0), s.(sender := Holding(s.ready[0]), ready := s.ready[..0] + s.ready[1..]);
      } else {
        move, s' := Check, s.(sender := Cleared);
      }
    }
  }

  lemma CanHandle(cfg: Config, s: State) returns (s': State)
    requires Placed(cfg, s) && s.outbox == [] && s.answers != []
    ensures Handles(cfg, s, s') && s'.answers == s.answers[1..]
    ensures s.answers[0].ok ==> s'.failed == s.failed
  {
    hide Live, Count, Above;
    AnswererIsOut(cfg, s);
    PlacedShape(cfg, s);
    s' := Handled(cfg, s.(answers := s.answers[1..]), s.answers[0]);
  }

  /** A run without failures that can do no more has sent every client exactly its rounds. */
  lemma StalledRunIsComplete(cfg: Config, run: seq<State>, moves: seq<Move>)
    requires IsRun(cfg, run, moves) && cfg.maxParallel >= 1
    requires run[|run| - 1].failed == {} && !CanProgress(cfg, run[|run| - 1])
    ensures forall c: nat | c < |cfg.totals| :: Count(run[|run| - 1].log, c) == cfg.totals[c]
    ensures run[|run| - 1].sent == Total(cfg.totals, |cfg.totals|)
    ensures Productive(run, moves, |moves|) == 5 * Total(cfg.totals, |cfg.totals|) - |cfg.totals|
  {
    hide Inv, Work, Drained, Count, Initial, Takes, Total;
    var i := |run| - 1;
    var s := run[i];
    RunKeepsInv(cfg, run, moves, i);
    if !Drained(s) {
      var s', move := CanAdvance(cfg, s);
      if move == Check { CheckedPops(cfg, s, s'); }
    }
    DrainedRunIsComplete(cfg, run, moves, i);
    WorkAddsUp(cfg, run, moves, i);
    NothingLeft(cfg, s);
  }

  lemma CheckedPops(cfg: Config, s: State, s': State)
    requires Takes(cfg, s, s', Check) && s.ready != []
    ensures CanProgress(cfg, s)
  {
    var s'' := s'.(sender := Holding(s'.ready[0]), ready := s'.ready[..0] + s'.ready[1..]);
    assert Takes(cfg, s', s'', Pop(0)) && !Polls(s', Pop(0));
  }

  lemma NothingLeft(cfg: Config, s: State)
    requires Inv(cfg, s) && Drained(s) && s.failed == {}
    ensures |s.rounds| == |cfg.totals| && Work(cfg, s) == 0
  {
    hide Accounted, Faithful, BarrierInv, Stocked;
    assert forall c: nat :: PlacedClient(cfg, s, c);
    forall c | 0 <= c < |cfg.totals| ensures s.rounds[c] == cfg.totals[c] { assert PlacedClient(cfg, s, c); }
    LeftIsNone(cfg.totals, s.rounds, |cfg.totals|);
  }

  lemma {:induction false} LeftIsNone(totals: seq<nat>, rounds: seq<nat>, n: nat)
    requires n <= |totals| == |rounds| && forall c | 0 <= c < |totals| :: rounds[c] == totals[c]
    ensures Left(totals, rounds, {}, n) == 0
  {
    if n > 0 { LeftIsNone(totals, rounds, n - 1); }
  }

  ghost predicate AllOk(answers: seq<Answer>) {
    forall i | 0 <= i < |answers| :: answers[i].ok
  }

  /**
    No interleaving can paint itself into a corner: any run without a failure so far can be carried
    on, with all further answers successes, until every client has been sent exactly its rounds.
   */
  lemma RunsCanComplete(cfg: Config, run: seq<State>, moves: seq<Move>)
    returns (full: seq<State>, all: seq<Move>)
    requires IsRun(cfg, run, moves) && cfg.maxParallel >= 1
    requires run[|run| - 1].failed == {} && AllOk(run[|run| - 1].answers)
    ensures IsRun(cfg, full, all) && run <= full && moves <= all
    ensures Drained(full[|full| - 1]) && full[|full| - 1].failed == {}
    ensures forall c: nat | c < |cfg.totals| :: Count(full[|full| - 1].log, c) == cfg.totals[c]
    decreases 5 * Total(cfg.totals, |cfg.totals|) - Productive(run, moves, |moves|),
              if run[|run| - 1].sender.Cleared? then 0 else 1
  {
    hide Inv, Takes, Drained, Count, Initial, Total, AllOk;
    var s := run[|run| - 1];
    RunKeepsInv(cfg, run, moves, |run| - 1);
    if Drained(s) {
      DrainedRunIsComplete(cfg, run, moves, |run| - 1);
      return run, moves;
    }
    var s', move := CanAdvance(cfg, s);
    var next, nextMoves := run + [s'], moves + [move];
    forall i | 0 <= i < |nextMoves| ensures Takes(cfg, next[i], next[i + 1], nextMoves[i]) {
      if i < |moves| { assert Takes(cfg, run[i], run[i + 1], moves[i]); }
    }
    SameProductive(run, moves, next, nextMoves, |moves|);
    RunsAreBounded(cfg, next, nextMoves);
    full, all := RunsCanComplete(cfg, next, nextMoves);
  }

  lemma {:induction false} SameProductive(run: seq<State>, moves: seq<Move>, next: seq<State>,
                                          nextMoves: seq<Move>, n: nat)
    requires n <= |moves| < |run| && run <= next && moves <= nextMoves && |nextMoves| < |next|
    ensures Productive(next, nextMoves, n) == Productive(run, moves, n)
  {
    if n > 0 { SameProductive(run, moves, next, nextMoves, n - 1); }
  }
}
