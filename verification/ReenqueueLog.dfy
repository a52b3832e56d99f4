/**
  What the serving benchmark sends, read off the moves of a run: the order of the queue, the replies a
  conversation has had, its messages, and the prompt length computed for each request.
 */
module ReenqueueLog {
  import opened Reenqueue

  // ---------------------------------------------------------------- first in, first out

  /** Who goes from the queue to a task between two states. */
  ghost predicate Leaves(s: State, s': State, c: nat) {
    c < |s.status| == |s'.status| && s.status[c] == Queued && s'.status[c] == Waiting
  }

  ghost function Leaver(s: State, s': State): (cs: seq<nat>) {
    if c: nat :| Leaves(s, s', c) then [c] else []
  }

  ghost function Put(s': State, move: Move): (cs: seq<nat>) {
    if move.Succeed? && move.c < |s'.status| && s'.status[move.c] == Queued then [move.c] else []
  }

  /** The conversations in the order they were put into the queue: all of them, and then each one a reply puts back. */
  ghost function Puts(cfg: Config, run: seq<State>, moves: seq<Move>, i: nat): (cs: seq<nat>)
    requires i <= |moves| < |run|
  {
    if i == 0 then seq(|cfg.plan|, (c: nat) => c)
    else
      Puts(cfg, run, moves, i - 1) + Put(run[i], moves[i - 1])
  }

  /** The conversations dispatched, in order. */
  ghost function Gets(run: seq<State>, moves: seq<Move>, i: nat): (cs: seq<nat>)
    requires i <= |moves| < |run|
  {
    if i == 0 then [] else Gets(run, moves, i - 1) + Leaver(run[i - 1], run[i])
  }

  lemma DispatchTakesTheFirst(cfg: Config, s: State, s': State, move: Move, c: nat)
    requires Inv(cfg, s) && Takes(cfg, s, s', move)
    ensures Leaves(s, s', c) <==> move.Dispatch? && s.queue != [] && c == s.queue[0]
    ensures move.Dispatch? ==> s.queue != [] && s'.queue == s.queue[1..]
  {
    hide Spent, Planned, CountRunning, ConvInv, Measured, Limited;
    if move.Dispatch? { assert CountIn(s.queue, s.queue[0]) > 0; }
    if move.Succeed? { QueueHasRoom(cfg, s, move.c); }
  }

  lemma OthersKeepTheQueue(cfg: Config, s: State, s': State, move: Move)
    requires Inv(cfg, s) && Takes(cfg, s, s', move) && !move.Dispatch?
    ensures s'.queue == s.queue + Put(s', move)
  {
    hide Spent, Planned, CountRunning, ConvInv, Measured, Limited;
    if move.Succeed? { QueueHasRoom(cfg, s, move.c); }
  }

  lemma QueueStep(cfg: Config, s: State, s': State, move: Move)
    requires Inv(cfg, s) && Takes(cfg, s, s', move)
    ensures s.queue + Put(s', move) == Leaver(s, s') + s'.queue
  {
    hide Takes, Inv, Leaves;
    forall c: nat ensures Leaves(s, s', c) <==> move.Dispatch? && s.queue != [] && c == s.queue[0] {
      DispatchTakesTheFirst(cfg, s, s', move, c);
    }
    DispatchTakesTheFirst(cfg, s, s', move, 0);
    if move.Dispatch? {
      assert Leaves(s, s', s.queue[0]);
      assert s.queue == [s.queue[0]] + s'.queue;
    } else {
      OthersKeepTheQueue(cfg, s, s', move);
    }
  }

  /** Conversations are dispatched in the order they were put into the queue. */
  lemma {:induction false} QueueIsFifo(cfg: Config, run: seq<State>, moves: seq<Move>, i: nat)
    requires IsRun(cfg, run, moves) && i < |run|
    ensures Puts(cfg, run, moves, i) == Gets(run, moves, i) + run[i].queue
  {
    hide Takes, Inv, Leaver, Put;
    if i == 0 {
      FirstQueue(cfg, run[0]);
    } else {
      hide Initial;
      QueueIsFifo(cfg, run, moves, i - 1);
      RunKeepsInv(cfg, run, moves, i - 1);
      assert Takes(cfg, run[i - 1], run[i - 1 + 1], moves[i - 1]);
      QueueStep(cfg, run[i - 1], run[i], moves[i - 1]);
      assert Gets(run, moves, i) + run[i].queue
          == Gets(run, moves, i - 1) + (run[i - 1].queue + Put(run[i], moves[i - 1]));
    }
  }

  lemma FirstQueue(cfg: Config, s: State)
    requires Initial(cfg, s)
    ensures s.queue == seq(|cfg.plan|, (c: nat) => c)
  {
  }

  // ---------------------------------------------------------------- replies and messages

  /** The replies conversation c got, in order. */
  function RepliesTo(moves: seq<Move>, i: nat, c: nat): (rs: seq<Reply>)
    requires i <= |moves|
  {
    if i == 0 then []
    else
      var move := moves[i - 1];
      RepliesTo(moves, i - 1, c) + (if move.Succeed? && move.c == c then [move.r] else [])
  }

  lemma ReplyStep(cfg: Config, s: State, s': State, move: Move, c: nat)
    requires Inv(cfg, s) && Takes(cfg, s, s', move) && c < |cfg.plan|
    ensures Shaped(cfg, s')
    ensures s'.replies[c] == s.replies[c] + (if move.Succeed? && move.c == c then [move.r] else [])
  {
    hide Spent, Planned, CountRunning, ConvInv, Measured, Limited, CountIn;
  }

  lemma {:induction false} RepliesAreReceived(cfg: Config, run: seq<State>, moves: seq<Move>, i: nat, c: nat)
    requires IsRun(cfg, run, moves) && i < |run| && c < |cfg.plan|
    ensures Shaped(cfg, run[i]) && run[i].replies[c] == RepliesTo(moves, i, c)
  {
    if i > 0 {
      hide Takes, Inv, Initial;
      RepliesAreReceived(cfg, run, moves, i - 1, c);
      RunKeepsInv(cfg, run, moves, i - 1);
      assert Takes(cfg, run[i - 1], run[i - 1 + 1], moves[i - 1]);
      ReplyStep(cfg, run[i - 1], run[i], moves[i - 1], c);
    }
  }

  lemma {:induction false} TurnsAt(plan: seq<Prompt>, replies: seq<Reply>, k: nat)
    requires k < |replies| <= |plan|
    ensures Turns(plan, replies)[2 * k] == User(plan[k].text)
    ensures Turns(plan, replies)[2 * k + 1] == Assistant(replies[k].text)
  {
    var n := |replies| - 1;
    if k < n { TurnsAt(plan, replies[..n], k); }
  }

  /**
    A conversation that is queued, waiting or running holds, for each reply it got, the prompt that it
    answers and the reply, as a user's and an assistant's message; while it is running the prompt just
    sent comes last. Answered prompts carry the length of their answer, the others the planned one.
   */
  lemma ConversationHolds(cfg: Config, run: seq<State>, moves: seq<Move>, i: nat, c: nat, k: nat)
    requires IsRun(cfg, run, moves) && i < |run| && c < |cfg.plan| && k < |cfg.plan[c]|
    requires Shaped(cfg, run[i]) && run[i].status[c] in {Queued, Waiting, Running}
    ensures var v, plan, n := run[i].convs[c], cfg.plan[c], |RepliesTo(moves, i, c)|;
            && n == v.finished < |plan| == |v.prompts|
            && |v.messages| == 2 * n + (if run[i].status[c] == Running then 1 else 0)
            && (run[i].status[c] == Running ==> v.messages[2 * n] == User(plan[n].text))
    ensures var v, plan, replies := run[i].convs[c], cfg.plan[c], RepliesTo(moves, i, c);
            && v.prompts[k].text == plan[k].text && v.prompts[k].inputLen == plan[k].inputLen
            && v.prompts[k].outputLen == (if k < |replies| then replies[k].outputLen else plan[k].outputLen)
            && (k < |replies| ==>
                  v.messages[2 * k] == User(plan[k].text) && v.messages[2 * k + 1] == Assistant(replies[k].text))
  {
    hide Takes, Initial, SentPrompts, Measured, Limited, Turns;
    RunKeepsInv(cfg, run, moves, i);
    RepliesAreReceived(cfg, run, moves, i, c);
    assert ConvInv(cfg, run[i], c);
    if k < |run[i].replies[c]| { TurnsAt(cfg.plan[c], run[i].replies[c], k); }
  }

  // ---------------------------------------------------------------- prompt lengths

  /** The length sent with a conversation's first prompt is that prompt's. */
  lemma FirstLength(cfg: Config, run: seq<State>, moves: seq<Move>, i: nat, p: nat)
    requires IsRun(cfg, run, moves) && i < |run| && p < |run[i].log| && run[i].log[p].prompt == 0
    ensures var e := run[i].log[p]; e.conv < |cfg.plan| && cfg.plan[e.conv] != []
    ensures var e := run[i].log[p]; e.promptLen == cfg.plan[e.conv][0].inputLen
  {
    hide Takes, Initial, ConvInv, Limited;
    RunKeepsInv(cfg, run, moves, i);
    assert Measured(cfg, run[i], run[i].log[p]);
  }

  /**
    The length sent with a conversation's next prompt is the one sent with the prompt before, the
    length of the answer received to that, and the next prompt's own.
   */
  lemma NextLength(cfg: Config, run: seq<State>, moves: seq<Move>, i: nat, p: nat, q: nat)
    requires IsRun(cfg, run, moves) && i < |run| && p < |run[i].log| && q < |run[i].log|
    requires run[i].log[p].conv == run[i].log[q].conv && run[i].log[q].prompt == run[i].log[p].prompt + 1
    ensures var e, e' := run[i].log[p], run[i].log[q];
            && e.conv < |cfg.plan| && e'.prompt < |cfg.plan[e.conv]| && e.prompt < |RepliesTo(moves, i, e.conv)|
            && e'.promptLen == e.promptLen + RepliesTo(moves, i, e.conv)[e.prompt].outputLen
                               + cfg.plan[e.conv][e'.prompt].inputLen
  {
    hide Takes, Initial, ConvInv, Limited;
    var s := run[i];
    RunKeepsInv(cfg, run, moves, i);
    assert Measured(cfg, s, s.log[p]) && Measured(cfg, s, s.log[q]);
    RepliesAreReceived(cfg, run, moves, i, s.log[p].conv);
  }

  // ---------------------------------------------------------------- the semaphore

  /** Counting the running tasks one by one gives the size of their set. */
  lemma {:induction false} RunningIsCounted(status: seq<Status>, n: nat)
    requires n <= |status|
    ensures CountRunning(status, n) == |set c: nat | c < n && status[c] == Running|
  {
    var a := set c: nat | c < n && status[c] == Running;
    if n > 0 {
      RunningIsCounted(status, n - 1);
      var b := set c: nat | c < n - 1 && status[c] == Running;
      assert a == if status[n - 1] == Running then b + {n - 1} else b;
    }
  }

  /** With a limit, never more tasks than that are running at once. */
  lemma TasksAreLimited(cfg: Config, run: seq<State>, moves: seq<Move>, i: nat)
    requires IsRun(cfg, run, moves) && i < |run| && cfg.limit > 0
    ensures |set c: nat | c < |run[i].status| && run[i].status[c] == Running| <= cfg.limit
  {
    hide Takes, Initial, ConvInv, Measured;
    RunKeepsInv(cfg, run, moves, i);
    RunningIsCounted(run[i].status, |run[i].status|);
  }
}
