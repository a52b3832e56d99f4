/**
  How far the serving benchmark gets: how many requests the dispatcher hands out, how long a run can
  be, and exactly when every run brings all conversations to their end.
 */
module ReenqueueProgress {
  import opened Reenqueue

  // ---------------------------------------------------------------- how much is handed out

  /** How many of the first n conversations have no prompt. */
  function Empties(plan: seq<seq<Prompt>>, n: nat): (k: nat)
    requires n <= |plan|
  {
    if n == 0 then 0 else Empties(plan, n - 1) + (if plan[n - 1] == [] then 1 else 0)
  }

  /** Prompts that will never be sent because an earlier one of the conversation failed. */
  function LostOf(plan: seq<Prompt>, v: Conversation, st: Status): (k: int) {
    if st == Failed && plan != [] then |plan| - v.finished - 1 else 0
  }

  function Lost(cfg: Config, s: State, n: nat): (k: int)
    requires Shaped(cfg, s) && n <= |cfg.plan|
  {
    if n == 0 then 0 else Lost(cfg, s, n - 1) + LostOf(cfg.plan[n - 1], s.convs[n - 1], s.status[n - 1])
  }

  /** All conversations are over. */
  ghost predicate Over(cfg: Config, s: State)
    requires Shaped(cfg, s)
  {
    forall c | 0 <= c < |cfg.plan| :: s.status[c] == Ended || s.status[c] == Failed
  }

  lemma HandedOfOne(plan: seq<Prompt>, v: Conversation, st: Status, replies: seq<Reply>)
    requires Telling(plan, v, st, replies)
    ensures LostOf(plan, v, st) >= 0
    ensures var most := |plan| + (if plan == [] then 1 else 0) - LostOf(plan, v, st);
            && Handed(v, st) <= most
            && (st == Queued ==> Handed(v, st) < most)
            && (st == Ended || st == Failed ==> Handed(v, st) == most)
  {
    hide Turns, Settled;
  }

  /** What has been handed out, against the prompts, the conversations without any, and what is lost. */
  lemma {:induction false} HandedIsBounded(cfg: Config, s: State, n: nat)
    requires Shaped(cfg, s) && n <= |cfg.plan|
    requires forall c | 0 <= c < |cfg.plan| :: ConvInv(cfg, s, c)
    ensures Lost(cfg, s, n) >= 0
    ensures var most := Total(cfg.plan, n) + Empties(cfg.plan, n) - Lost(cfg, s, n);
            && HandedOut(s.convs, s.status, n) <= most
            && ((exists c :: 0 <= c < n && s.status[c] == Queued) ==> HandedOut(s.convs, s.status, n) < most)
            && ((forall c | 0 <= c < n :: s.status[c] == Ended || s.status[c] == Failed) ==>
                  HandedOut(s.convs, s.status, n) == most)
  {
    hide Telling, SentPrompts, LostOf, Handed;
    if n > 0 {
      HandedIsBounded(cfg, s, n - 1);
      assert ConvInv(cfg, s, n - 1);
      HandedOfOne(cfg.plan[n - 1], s.convs[n - 1], s.status[n - 1], s.replies[n - 1]);
    }
  }

  /**
    The dispatcher never hands out more than the planned number of requests. When everything is over
    it has handed out exactly one for each prompt and each conversation without any, less the prompts
    lost behind failures; so exactly the plan when every conversation has ended.
   */
  lemma DispatchesWhatWasPlanned(cfg: Config, run: seq<State>, moves: seq<Move>, i: nat)
    requires IsRun(cfg, run, moves) && i < |run|
    ensures Shaped(cfg, run[i]) && run[i].dispatched <= Planned(cfg)
    ensures 0 <= Lost(cfg, run[i], |cfg.plan|)
    ensures Over(cfg, run[i]) ==>
              run[i].dispatched == Planned(cfg) + Empties(cfg.plan, |cfg.plan|) - Lost(cfg, run[i], |cfg.plan|)
    ensures (forall c | 0 <= c < |cfg.plan| :: run[i].status[c] == Ended) ==> run[i].dispatched == Planned(cfg)
  {
    hide ConvInv;
    RunKeepsInv(cfg, run, moves, i);
    HandedIsBounded(cfg, run[i], |cfg.plan|);
    if forall c | 0 <= c < |cfg.plan| :: run[i].status[c] == Ended { NothingLost(cfg, run[i], |cfg.plan|); }
  }

  lemma {:induction false} NothingLost(cfg: Config, s: State, n: nat)
    requires Shaped(cfg, s) && n <= |cfg.plan|
    requires forall c | 0 <= c < |cfg.plan| :: s.status[c] == Ended && ConvInv(cfg, s, c)
    ensures Lost(cfg, s, n) == 0 && Empties(cfg.plan, n) == 0
  {
    hide Turns, Settled, SentPrompts;
    if n > 0 {
      NothingLost(cfg, s, n - 1);
      assert ConvInv(cfg, s, n - 1);
    }
  }

  // ---------------------------------------------------------------- runs are bounded

  /** Moves a conversation has left: each prompt is dispatched, sent and answered. */
  function MovesLeft(v: Conversation, st: Status): (k: int) {
    var n := if v.prompts == [] then 2 else 3 * (|v.prompts| - v.finished);
    match st
    case Queued => n
    case Waiting => n - 1
    case Running => n - 2
    case Ended => 0
    case Failed => 0
  }

  function Work(convs: seq<Conversation>, status: seq<Status>, n: nat): (w: int)
    requires n <= |convs| == |status|
  {
    if n == 0 then 0 else Work(convs, status, n - 1) + MovesLeft(convs[n - 1], status[n - 1])
  }

  lemma {:induction false} WorkStep(convs: seq<Conversation>, status: seq<Status>, n: nat, c: nat, v: Conversation,
                                    st: Status)
    requires n <= |convs| == |status| && c < |convs|
    ensures Work(convs[c := v], status[c := st], n)
         == Work(convs, status, n) + (if c < n then MovesLeft(v, st) - MovesLeft(convs[c], status[c]) else 0)
  {
    if n > 0 { WorkStep(convs, status, n - 1, c, v, st); }
  }

  lemma {:induction false} WorkAtFirst(cfg: Config, s: State, n: nat)
    requires Initial(cfg, s) && n <= |cfg.plan|
    ensures Work(s.convs, s.status, n) == 3 * Total(cfg.plan, n) + 2 * Empties(cfg.plan, n)
  {
    if n > 0 { WorkAtFirst(cfg, s, n - 1); }
  }

  lemma {:induction false} WorkIsNatural(cfg: Config, s: State, n: nat)
    requires Shaped(cfg, s) && n <= |cfg.plan| && forall c | 0 <= c < |cfg.plan| :: ConvInv(cfg, s, c)
    ensures Work(s.convs, s.status, n) >= 0
  {
    hide Turns, Settled, SentPrompts;
    if n > 0 {
      WorkIsNatural(cfg, s, n - 1);
      assert ConvInv(cfg, s, n - 1);
    }
  }

  /** Whose move it is. */
  function Mover(s: State, move: Move): (c: nat)
    requires move.Dispatch? ==> s.queue != []
  {
    match move
    case Dispatch => s.queue[0]
    case Start(c) => c
    case Break(c) => c
    case Succeed(c, _) => c
    case Fail(c) => c
  }

  lemma MoveChangesOne(cfg: Config, s: State, s': State, move: Move)
    requires Placed(cfg, s) && Takes(cfg, s, s', move)
    ensures move.Dispatch? ==> s.queue != []
    ensures var c := Mover(s, move);
            && c < |cfg.plan| && Shaped(cfg, s')
            && s'.convs == s.convs[c := s'.convs[c]] && s'.status == s.status[c := s'.status[c]]
  {
    hide Spent, Planned, CountRunning;
    if move.Succeed? { QueueHasRoom(cfg, s, move.c); }
  }

  /** Every move takes one of the moves left. */
  lemma MoveIsSpent(cfg: Config, s: State, s': State, move: Move)
    requires Placed(cfg, s) && Takes(cfg, s, s', move) && forall c | 0 <= c < |cfg.plan| :: ConvInv(cfg, s, c)
    ensures Shaped(cfg, s') && Work(s'.convs, s'.status, |cfg.plan|) < Work(s.convs, s.status, |cfg.plan|)
  {
    hide Turns, Settled, SentPrompts, Spent, Planned, CountRunning, Work;
    MoveChangesOne(cfg, s, s', move);
    var c := Mover(s, move);
    assert ConvInv(cfg, s, c);
    if move.Succeed? { QueueHasRoom(cfg, s, c); }
    if move.Dispatch? { assert CountIn(s.queue, c) > 0; }
    WorkStep(s.convs, s.status, |cfg.plan|, c, s'.convs[c], s'.status[c]);
  }

  lemma {:induction false} MovesAreSpent(cfg: Config, run: seq<State>, moves: seq<Move>, i: nat)
    requires IsRun(cfg, run, moves) && i < |run|
    ensures Shaped(cfg, run[i])
    ensures i + Work(run[i].convs, run[i].status, |cfg.plan|) <= 3 * Planned(cfg) + 2 * Empties(cfg.plan, |cfg.plan|)
  {
    hide Takes, Initial, ConvInv, Work, Limited, Measured;
    if i == 0 {
      RunKeepsInv(cfg, run, moves, 0);
      WorkAtFirst(cfg, run[0], |cfg.plan|);
    } else {
      MovesAreSpent(cfg, run, moves, i - 1);
      RunKeepsInv(cfg, run, moves, i - 1);
      assert Takes(cfg, run[i - 1], run[i - 1 + 1], moves[i - 1]);
      MoveIsSpent(cfg, run[i - 1], run[i], moves[i - 1]);
    }
  }

  /** No run is longer than three moves for each prompt and two for each conversation without any. */
  lemma RunsAreBounded(cfg: Config, run: seq<State>, moves: seq<Move>)
    requires IsRun(cfg, run, moves)
    ensures |moves| <= 3 * Planned(cfg) + 2 * Empties(cfg.plan, |cfg.plan|)
  {
    hide Takes, Initial, ConvInv, Work, Limited, Measured;
    MovesAreSpent(cfg, run, moves, |moves|);
    RunKeepsInv(cfg, run, moves, |moves|);
    WorkIsNatural(cfg, run[|moves|], |cfg.plan|);
  }

  // ---------------------------------------------------------------- what can happen next

  /** Nothing can happen any more. */
  ghost predicate Stuck(cfg: Config, s: State) {
    forall s', move :: !Takes(cfg, s, s', move)
  }

  /** Every conversation has a prompt. */
  ghost predicate NoneEmpty(cfg: Config) {
    forall c | 0 <= c < |cfg.plan| :: cfg.plan[c] != []
  }

  lemma CanSucceed(cfg: Config, s: State, d: nat) returns (s': State, move: Move)
    requires Inv(cfg, s) && d < |cfg.plan| && s.status[d] == Running
    ensures Takes(cfg, s, s', move) && !move.Fail?
  {
    hide Turns, Settled, SentPrompts, Spent, Measured, Limited;
    assert ConvInv(cfg, s, d);
    QueueHasRoom(cfg, s, d);
    var v, r := s.convs[d], Reply("", 0);
    var t := s.(convs := s.convs[d := Replied(v, r)], replies := s.replies[d := s.replies[d] + [r]]);
    move := Succeed(d, r);
    s' := if v.finished + 1 == |v.prompts| then t.(status := s.status[d := Ended])
          else t.(status := s.status[d := Queued], queue := s.queue + [d]);
  }

  lemma CanStart(cfg: Config, s: State, c: nat) returns (s': State, move: Move)
    requires Inv(cfg, s) && c < |cfg.plan| && s.status[c] == Waiting
    requires forall d | 0 <= d < |cfg.plan| :: s.status[d] != Running
    ensures Takes(cfg, s, s', move) && !move.Fail?
  {
    hide Turns, Settled, SentPrompts, Spent, Measured, Limited;
    NoneRunning(s.status, |s.status|);
    assert ConvInv(cfg, s, c);
    var v := s.convs[c];
    if v.finished < |v.prompts| {
      move := Start(c);
      s' := s.(status := s.status[c := Running],
               convs := s.convs[c := v.(messages := v.messages + [User(v.prompts[v.finished].text)])],
               log := s.log + [Sent(c, v.finished, PromptLen(v.prompts, v.finished))]);
    } else {
      move := Break(c);
      s' := s.(status := s.status[c := Failed]);
    }
  }

  lemma CanDispatch(cfg: Config, s: State, c: nat) returns (s': State, move: Move)
    requires Inv(cfg, s) && c < |cfg.plan| && s.status[c] == Queued && s.dispatched < Planned(cfg)
    ensures Takes(cfg, s, s', move) && !move.Fail?
  {
    hide ConvInv, Measured, Limited;
    assert CountIn(s.queue, c) == 1 && s.queue != [];
    assert CountIn(s.queue, s.queue[0]) > 0;
    move := Dispatch;
    s' := s.(queue := s.queue[1..], dispatched := s.dispatched + 1, status := s.status[s.queue[0] := Waiting]);
  }

  lemma {:induction false} NoneRunning(status: seq<Status>, n: nat)
    requires n <= |status| && forall c | 0 <= c < n :: status[c] != Running
    ensures CountRunning(status, n) == 0
  {
    if n > 0 { NoneRunning(status, n - 1); }
  }

  /** Some task is running or waiting for the semaphore. */
  ghost predicate UnderWay(cfg: Config, s: State)
    requires Shaped(cfg, s)
  {
    exists c :: 0 <= c < |cfg.plan| && (s.status[c] == Waiting || s.status[c] == Running)
  }

  /**
    Something other than a failure can happen unless everything is over or the dispatcher has handed out
    its number.
   */
  lemma CanMove(cfg: Config, s: State) returns (s': State, move: Move)
    requires Inv(cfg, s) && !Over(cfg, s)
    requires s.dispatched < Planned(cfg) || UnderWay(cfg, s)
    ensures Takes(cfg, s, s', move) && !move.Fail?
  {
    hide ConvInv, Takes, Measured, Limited;
    if d: nat :| d < |cfg.plan| && s.status[d] == Running {
      s', move := CanSucceed(cfg, s, d);
    } else if d: nat :| d < |cfg.plan| && s.status[d] == Waiting {
      s', move := CanStart(cfg, s, d);
    } else {
      var c :| 0 <= c < |cfg.plan| && s.status[c] != Ended && s.status[c] != Failed;
      s', move := CanDispatch(cfg, s, c);
    }
  }

  lemma {:induction false} NoEmpties(cfg: Config, n: nat)
    requires NoneEmpty(cfg) && n <= |cfg.plan|
    ensures Empties(cfg.plan, n) == 0
  {
    if n > 0 { NoEmpties(cfg, n - 1); }
  }

  /**
    With a prompt in every conversation, some step is possible until everything is over: the dispatcher
    never stops early.
   */
  lemma NeverStuck(cfg: Config, run: seq<State>, moves: seq<Move>, i: nat) returns (s': State, move: Move)
    requires IsRun(cfg, run, moves) && i < |run| && NoneEmpty(cfg) && Shaped(cfg, run[i]) && !Over(cfg, run[i])
    ensures Takes(cfg, run[i], s', move)
  {
    hide ConvInv, Takes, Measured, Initial;
    var s := run[i];
    RunKeepsInv(cfg, run, moves, i);
    HandedIsBounded(cfg, s, |cfg.plan|);
    NoEmpties(cfg, |cfg.plan|);
    s', move := CanMove(cfg, s);
  }

  // ---------------------------------------------------------------- a conversation without prompts

  ghost predicate NoFail(moves: seq<Move>) {
    forall i | 0 <= i < |moves| :: !moves[i].Fail?
  }

  /** Without failed requests, only conversations without prompts come to a bad end. */
  ghost predicate OnlyEmptiesFail(cfg: Config, s: State)
    requires Shaped(cfg, s)
  {
    forall c | 0 <= c < |cfg.plan| && s.status[c] == Failed :: cfg.plan[c] == []
  }

  lemma {:induction false} NoFailNoLoss(cfg: Config, run: seq<State>, moves: seq<Move>, i: nat)
    requires IsRun(cfg, run, moves) && NoFail(moves) && i < |run|
    ensures Shaped(cfg, run[i]) && OnlyEmptiesFail(cfg, run[i])
  {
    hide Initial, Measured, Limited;
    RunKeepsInv(cfg, run, moves, i);
    if i == 0 {
      assert forall c | 0 <= c < |cfg.plan| :: run[0].status[c] == Queued by { AllQueued(cfg, run[0]); }
    } else {
      NoFailNoLoss(cfg, run, moves, i - 1);
      RunKeepsInv(cfg, run, moves, i - 1);
      assert Takes(cfg, run[i - 1], run[i - 1 + 1], moves[i - 1]);
      NoFailStep(cfg, run[i - 1], run[i], moves[i - 1]);
    }
  }

  lemma AllQueued(cfg: Config, s: State)
    requires Initial(cfg, s)
    ensures Shaped(cfg, s) && forall c | 0 <= c < |cfg.plan| :: s.status[c] == Queued
  {
  }

  lemma NoFailStep(cfg: Config, s: State, s': State, move: Move)
    requires Inv(cfg, s) && Takes(cfg, s, s', move) && !move.Fail? && OnlyEmptiesFail(cfg, s)
    ensures Shaped(cfg, s') && OnlyEmptiesFail(cfg, s')
  {
    hide Turns, Settled, SentPrompts, Spent, Measured, Limited, Planned, CountRunning;
    MoveChangesOne(cfg, s, s', move);
    var c := Mover(s, move);
    assert ConvInv(cfg, s, c);
  }

  lemma {:induction false} EmptiesLoseNothing(cfg: Config, s: State, n: nat)
    requires Shaped(cfg, s) && n <= |cfg.plan| && OnlyEmptiesFail(cfg, s)
    ensures Lost(cfg, s, n) == 0
  {
    if n > 0 { EmptiesLoseNothing(cfg, s, n - 1); }
  }

  lemma {:induction false} EmptiesCount(cfg: Config, n: nat, c: nat)
    requires c < n <= |cfg.plan| && cfg.plan[c] == []
    ensures Empties(cfg.plan, n) > 0
  {
    if c < n - 1 { EmptiesCount(cfg, n - 1, c); }
  }

  /** With an empty conversation, a run without failed requests is never over: the dispatcher's count is one short. */
  lemma NeverOver(cfg: Config, run: seq<State>, moves: seq<Move>, i: nat)
    requires IsRun(cfg, run, moves) && NoFail(moves) && i < |run| && !NoneEmpty(cfg)
    ensures Shaped(cfg, run[i]) && !Over(cfg, run[i])
  {
    hide Initial, Takes, Lost, Empties;
    NoFailNoLoss(cfg, run, moves, i);
    EmptiesLoseNothing(cfg, run[i], |cfg.plan|);
    DispatchesWhatWasPlanned(cfg, run, moves, i);
    var c: nat :| c < |cfg.plan| && cfg.plan[c] == [];
    EmptiesCount(cfg, |cfg.plan|, c);
  }

  /** Such a run can be carried on until nothing can happen any more. */
  lemma RunUntilStuck(cfg: Config, run: seq<State>, moves: seq<Move>) returns (full: seq<State>, all: seq<Move>)
    requires IsRun(cfg, run, moves) && NoFail(moves) && !NoneEmpty(cfg)
    ensures IsRun(cfg, full, all) && NoFail(all) && Stuck(cfg, full[|full| - 1])
    decreases 3 * Planned(cfg) + 2 * Empties(cfg.plan, |cfg.plan|) - |moves|
  {
    hide Initial, Takes, Inv, Stuck, Planned, Empties;
    var s := run[|run| - 1];
    RunKeepsInv(cfg, run, moves, |run| - 1);
    NeverOver(cfg, run, moves, |run| - 1);
    if s.dispatched < Planned(cfg) || UnderWay(cfg, s) {
      var s', move := CanMove(cfg, s);
      var next, nextMoves := run + [s'], moves + [move];
      forall i | 0 <= i < |nextMoves| ensures Takes(cfg, next[i], next[i + 1], nextMoves[i]) {
        if i < |moves| { assert Takes(cfg, run[i], run[i + 1], moves[i]); }
      }
      RunsAreBounded(cfg, next, nextMoves);
      full, all := RunUntilStuck(cfg, next, nextMoves);
    } else {
      IsStuck(cfg, s);
      full, all := run, moves;
    }
  }

  lemma IsStuck(cfg: Config, s: State)
    requires Shaped(cfg, s) && s.dispatched >= Planned(cfg)
    requires forall c | 0 <= c < |cfg.plan| :: s.status[c] != Waiting && s.status[c] != Running
    ensures Stuck(cfg, s)
  {
  }

  /** Every run that has come to its end has brought all conversations to theirs. */
  ghost predicate EveryRunGetsOver(cfg: Config) {
    forall run, moves | IsRun(cfg, run, moves) && Stuck(cfg, run[|run| - 1]) ::
      Shaped(cfg, run[|run| - 1]) && Over(cfg, run[|run| - 1])
  }

  /** The benchmark brings all conversations to their end, in every run, exactly when each of them has a prompt. */
  lemma EveryRunGetsOverIff(cfg: Config)
    ensures EveryRunGetsOver(cfg) <==> NoneEmpty(cfg)
  {
    hide Initial, Takes;
    if NoneEmpty(cfg) {
      forall run, moves | IsRun(cfg, run, moves) && Stuck(cfg, run[|run| - 1])
        ensures Shaped(cfg, run[|run| - 1]) && Over(cfg, run[|run| - 1])
      {
        var i := |run| - 1;
        RunKeepsInv(cfg, run, moves, i);
        if !Over(cfg, run[i]) { var s', move := NeverStuck(cfg, run, moves, i); }
      }
    } else {
      var s := FirstState(cfg);
      var run, moves := RunUntilStuck(cfg, [s], []);
      NeverOver(cfg, run, moves, |run| - 1);
    }
  }

  lemma FirstState(cfg: Config) returns (s: State)
    ensures Initial(cfg, s)
  {
    s := State(seq(|cfg.plan|, (c: nat) => c),
               seq(|cfg.plan|, c requires 0 <= c < |cfg.plan| => Conversation(cfg.plan[c], [], 0)),
               seq(|cfg.plan|, (c: nat) => Queued), 0, [], [], seq(|cfg.plan|, (c: nat) => []));
  }
}
