/**
  The serving benchmark's conversations: a bounded queue, a dispatcher that takes conversations out
  of it, tasks limited by a semaphore, and successful tasks that put their conversation back for
  the next prompt.
 */
module Reenqueue {

  datatype Prompt = Prompt(text: string, inputLen: int, outputLen: int)

  datatype Message = User(text: string) | Assistant(text: string)

  datatype Reply = Reply(text: string, outputLen: int)

  /** What the program keeps of a conversation. */
  datatype Conversation = Conversation(prompts: seq<Prompt>, messages: seq<Message>, finished: nat)

  datatype Status = Queued | Waiting | Running | Ended | Failed

  /** plan: the conversations as given; limit: the semaphore's size, 0 for none. */
  datatype Config = Config(plan: seq<seq<Prompt>>, limit: nat)

  /**
    The queue, the conversations, and who is where. blocked holds conversations whose put found the
    queue full; log (which conversation was sent which prompt, with what prompt length) and replies
    are records for specification.
   */
  datatype State = State(
    queue: seq<nat>, convs: seq<Conversation>, status: seq<Status>, dispatched: nat, blocked: seq<nat>,
    log: seq<Sent>, replies: seq<seq<Reply>>)

  datatype Sent = Sent(conv: nat, prompt: nat, promptLen: int)

  function Total(plan: seq<seq<Prompt>>, n: nat): (t: nat)
    requires n <= |plan|
  {
    if n == 0 then 0 else Total(plan, n - 1) + |plan[n - 1]|
  }

  /** num_actual_requests: all prompts of all conversations. */
  function Planned(cfg: Config): (t: nat) {
    Total(cfg.plan, |cfg.plan|)
  }

  function CountRunning(status: seq<Status>, n: nat): (k: nat)
    requires n <= |status|
  {
    if n == 0 then 0 else CountRunning(status, n - 1) + (if status[n - 1] == Running then 1 else 0)
  }

  /** Tokens before prompt k, with the actual lengths of earlier answers, plus the prompt's own. */
  function PromptLen(prompts: seq<Prompt>, k: nat): (n: int)
    requires k < |prompts|
  {
    Spent(prompts, k) + prompts[k].inputLen
  }

  function Spent(prompts: seq<Prompt>, k: nat): (n: int)
    requires k <= |prompts|
  {
    if k == 0 then 0 else Spent(prompts, k - 1) + prompts[k - 1].inputLen + prompts[k - 1].outputLen
  }

  // ---------------------------------------------------------------- the steps

  ghost predicate Initial(cfg: Config, s: State) {
    s == State(seq(|cfg.plan|, (c: nat) => c),
               seq(|cfg.plan|, c requires 0 <= c < |cfg.plan| => Conversation(cfg.plan[c], [], 0)),
               seq(|cfg.plan|, (c: nat) => Queued), 0, [], [], seq(|cfg.plan|, (c: nat) => []))
  }

  ghost predicate Shaped(cfg: Config, s: State) {
    |s.convs| == |s.status| == |s.replies| == |cfg.plan|
  }

  /** The dispatcher takes the conversation at the head of the queue and starts a task for it. */
  ghost predicate Dispatches(cfg: Config, s: State, s': State) {
    && s.dispatched < Planned(cfg) && s.queue != [] && s.queue[0] < |s.status|
    && s' == s.(queue := s.queue[1..], dispatched := s.dispatched + 1, status := s.status[s.queue[0] := Waiting])
  }

  /** The semaphore lets one more task through. */
  predicate HasRoom(cfg: Config, status: seq<Status>) {
    cfg.limit == 0 || CountRunning(status, |status|) < cfg.limit
  }

  /** A task gets past the semaphore and sends its conversation's next prompt. */
  ghost predicate Starts(cfg: Config, s: State, s': State, c: nat)
    requires Shaped(cfg, s)
  {
    && c < |s.status| && s.status[c] == Waiting
    && HasRoom(cfg, s.status)
    && var v := s.convs[c];
       && v.finished < |v.prompts|
       && s' == s.(status := s.status[c := Running],
                   convs := s.convs[c := v.(messages := v.messages + [User(v.prompts[v.finished].text)])],
                   log := s.log + [Sent(c, v.finished, PromptLen(v.prompts, v.finished))])
  }

  /** The conversation after a reply to its current prompt. */
  function Replied(v: Conversation, r: Reply): (v': Conversation)
    requires v.finished < |v.prompts|
  {
    var k := v.finished;
    var w := v.(prompts := v.prompts[k := v.prompts[k].(outputLen := r.outputLen)],
                messages := v.messages + [Assistant(r.text)]);
    if k + 1 < |v.prompts| then w.(finished := k + 1) else w
  }

  /** A reply arrives: a conversation with prompts left goes back into the queue, unless it is full. */
  ghost predicate Succeeds(cfg: Config, s: State, s': State, c: nat, r: Reply)
    requires Shaped(cfg, s)
  {
    && c < |s.status| && s.status[c] == Running && s.convs[c].finished < |s.convs[c].prompts|
    && var v := s.convs[c];
       var t := s.(convs := s.convs[c := Replied(v, r)], replies := s.replies[c := s.replies[c] + [r]]);
       if v.finished + 1 == |v.prompts| then s' == t.(status := s.status[c := Ended])
       else if |s.queue| < |cfg.plan| then s' == t.(status := s.status[c := Queued], queue := s.queue + [c])
       else s' == t.(blocked := s.blocked + [c])
  }

  /** The request fails: the conversation is dropped. */
  ghost predicate Fails(s: State, s': State, c: nat) {
    c < |s.status| && s.status[c] == Running && s' == s.(status := s.status[c := Failed])
  }

  /** The task of a conversation without prompts gets past the semaphore and fails on the missing prompt. */
  ghost predicate Breaks(cfg: Config, s: State, s': State, c: nat)
    requires Shaped(cfg, s)
  {
    && c < |s.status| && s.status[c] == Waiting && HasRoom(cfg, s.status) && s.convs[c].finished >= |s.convs[c].prompts|
    && s' == s.(status := s.status[c := Failed])
  }

  datatype Move = Dispatch | Start(c: nat) | Break(c: nat) | Succeed(c: nat, r: Reply) | Fail(c: nat)

  ghost predicate Takes(cfg: Config, s: State, s': State, move: Move) {
    && Shaped(cfg, s)
    && match move
       case Dispatch => Dispatches(cfg, s, s')
       case Start(c) => Starts(cfg, s, s', c)
       case Break(c) => Breaks(cfg, s, s', c)
       case Succeed(c, r) => Succeeds(cfg, s, s', c, r)
       case Fail(c) => Fails(s, s', c)
  }

  ghost predicate IsRun(cfg: Config, run: seq<State>, moves: seq<Move>) {
    && |run| == |moves| + 1
    && Initial(cfg, run[0])
    && forall i | 0 <= i < |moves| :: Takes(cfg, run[i], run[i + 1], moves[i])
  }

  // ---------------------------------------------------------------- one place per conversation

  function CountIn(queue: seq<nat>, c: nat): (k: nat) {
    if queue == [] then 0 else CountIn(queue[1..], c) + (if queue[0] == c then 1 else 0)
  }

  lemma {:induction false} CountPush(queue: seq<nat>, x: nat, c: nat)
    ensures CountIn(queue + [x], c) == CountIn(queue, c) + (if x == c then 1 else 0)
  {
    if queue == [] {
      assert queue + [x] == [x] && [x][1..] == [];
    } else {
      CountPush(queue[1..], x, c);
      assert (queue + [x])[1..] == queue[1..] + [x];
    }
  }

  function SumIn(queue: seq<nat>, n: nat): (k: nat) {
    if n == 0 then 0 else SumIn(queue, n - 1) + CountIn(queue, n - 1)
  }

  lemma {:induction false} SumStep(queue: seq<nat>, n: nat)
    requires queue != []
    ensures SumIn(queue, n) == SumIn(queue[1..], n) + (if queue[0] < n then 1 else 0)
  {
    if n > 0 { SumStep(queue, n - 1); }
  }

  lemma {:induction false} SumNone(n: nat)
    ensures SumIn([], n) == 0
  {
    if n > 0 { SumNone(n - 1); }
  }

  lemma {:induction false} QueueLength(queue: seq<nat>, n: nat)
    requires forall c: nat | c >= n :: CountIn(queue, c) == 0
    ensures |queue| == SumIn(queue, n)
  {
    if queue == [] {
      SumNone(n);
    } else {
      assert CountIn(queue, queue[0]) > 0;
      forall c: nat | c >= n ensures CountIn(queue[1..], c) == 0 { assert CountIn(queue, c) == 0; }
      QueueLength(queue[1..], n);
      SumStep(queue, n);
    }
  }

  lemma {:induction false} SumBelow(queue: seq<nat>, n: nat, c: nat)
    requires forall d: nat | d < n :: CountIn(queue, d) <= 1
    ensures SumIn(queue, n) <= n
    ensures c < n && CountIn(queue, c) == 0 ==> SumIn(queue, n) < n
  {
    if n > 0 { SumBelow(queue, n - 1, c); }
  }

  /** A conversation is in the queue exactly when its status says so, and then once. */
  ghost predicate Placed(cfg: Config, s: State) {
    && Shaped(cfg, s) && s.blocked == []
    && forall c: nat :: CountIn(s.queue, c) == if c < |s.status| && s.status[c] == Queued then 1 else 0
  }

  /** While some conversation is not queued, the queue has room. */
  lemma QueueHasRoom(cfg: Config, s: State, c: nat)
    requires Placed(cfg, s) && c < |s.status| && s.status[c] != Queued
    ensures |s.queue| < |cfg.plan|
  {
    QueueLength(s.queue, |cfg.plan|);
    SumBelow(s.queue, |cfg.plan|, c);
  }

  /** Every step keeps each conversation in one place, and no put ever finds the queue full. */
  lemma PlacesStay(cfg: Config, s: State, s': State, move: Move)
    requires Placed(cfg, s) && Takes(cfg, s, s', move)
    ensures Placed(cfg, s') && |s'.queue| <= |cfg.plan|
  {
    hide Spent, Planned;
    if move.Succeed? {
      var c := move.c;
      QueueHasRoom(cfg, s, c);
      forall d: nat ensures CountIn(s.queue + [c], d) == CountIn(s.queue, d) + (if c == d then 1 else 0) {
        CountPush(s.queue, c, d);
      }
    }
    if move.Dispatch? {
      var c := s.queue[0];
      forall d: nat ensures CountIn(s.queue, d) == CountIn(s.queue[1..], d) + (if c == d then 1 else 0) {}
      assert CountIn(s.queue, c) == 1;
    }
    assert Placed(cfg, s');
    QueueLength(s'.queue, |cfg.plan|);
    SumBelow(s'.queue, |cfg.plan|, 0);
  }

  // ---------------------------------------------------------------- what a conversation holds

  /** The first n prompts and their replies, as alternating messages. */
  function Turns(plan: seq<Prompt>, replies: seq<Reply>): (ms: seq<Message>)
    requires |replies| <= |plan|
    ensures |ms| == 2 * |replies|
  {
    if replies == [] then []
    else
      var n := |replies| - 1;
      Turns(plan, replies[..n]) + [User(plan[n].text), Assistant(replies[n].text)]
  }

  /** The prompts after the replies so far: answered ones carry the actual output length. */
  function Settled(plan: seq<Prompt>, replies: seq<Reply>): (ps: seq<Prompt>)
    requires |replies| <= |plan|
    ensures |ps| == |plan|
  {
    seq(|plan|, k requires 0 <= k < |plan| =>
      if k < |replies| then plan[k].(outputLen := replies[k].outputLen) else plan[k])
  }

  /** How many prompts of a conversation have been dispatched. */
  function Handed(v: Conversation, st: Status): (k: nat) {
    if st == Queued then v.finished else v.finished + 1
  }

  /** The current prompt has been sent and not been answered with success. */
  predicate IsOut(st: Status) {
    st == Running || st == Failed
  }

  /** A conversation's prompts and messages are those of its plan and the replies so far. */
  ghost predicate Telling(plan: seq<Prompt>, v: Conversation, st: Status, replies: seq<Reply>) {
    && |replies| <= |plan| && v.prompts == Settled(plan, replies)
    && if plan == [] then (st == Queued || st == Waiting || st == Failed) && v.finished == 0 && v.messages == []
       else
         && (if st == Ended then |replies| == |plan| && v.finished + 1 == |plan|
             else v.finished == |replies| < |plan|)
         && v.messages == Turns(plan, replies) + (if IsOut(st) then [User(plan[|replies|].text)] else [])
  }

  /** Which prompts of conversation c have been sent, in order. */
  function SentPrompts(log: seq<Sent>, c: nat): (ps: seq<nat>) {
    if log == [] then []
    else SentPrompts(log[..|log| - 1], c) + (if log[|log| - 1].conv == c then [log[|log| - 1].prompt] else [])
  }

  function UpTo(n: nat): (ps: seq<nat>) {
    seq(n, (k: nat) => k)
  }

  /** Prompts sent so far: one more than the replies while a request is out or after it failed. */
  function SentSoFar(plan: seq<Prompt>, st: Status, replies: seq<Reply>): (k: nat) {
    |replies| + (if plan != [] && IsOut(st) then 1 else 0)
  }

  ghost predicate ConvInv(cfg: Config, s: State, c: nat)
    requires Shaped(cfg, s) && c < |cfg.plan|
  {
    && Telling(cfg.plan[c], s.convs[c], s.status[c], s.replies[c])
    && SentPrompts(s.log, c) == UpTo(SentSoFar(cfg.plan[c], s.status[c], s.replies[c]))
  }

  lemma TurnsStep(plan: seq<Prompt>, replies: seq<Reply>, r: Reply)
    requires |replies| < |plan|
    ensures Turns(plan, replies + [r]) == Turns(plan, replies) + [User(plan[|replies|].text), Assistant(r.text)]
  {
    assert (replies + [r])[..|replies|] == replies;
  }

  lemma SettledStep(plan: seq<Prompt>, replies: seq<Reply>, r: Reply)
    requires |replies| < |plan|
    ensures var k := |replies|;
            Settled(plan, replies + [r])
            == Settled(plan, replies)[k := Settled(plan, replies)[k].(outputLen := r.outputLen)]
  {
  }

  lemma SettledText(plan: seq<Prompt>, replies: seq<Reply>)
    requires |replies| < |plan|
    ensures Settled(plan, replies)[|replies|] == plan[|replies|]
  {
  }

  lemma RepliedTells(plan: seq<Prompt>, v: Conversation, replies: seq<Reply>, r: Reply)
    requires Telling(plan, v, Running, replies)
    ensures v.finished < |v.prompts|
    ensures Telling(plan, Replied(v, r), if v.finished + 1 == |v.prompts| then Ended else Queued, replies + [r])
  {
    hide Turns, Settled;
    TurnsStep(plan, replies, r);
    SettledStep(plan, replies, r);
  }

  lemma SentStep(log: seq<Sent>, x: Sent, c: nat)
    ensures SentPrompts(log + [x], c) == SentPrompts(log, c) + (if x.conv == c then [x.prompt] else [])
  {
    assert (log + [x])[..|log|] == log;
  }

  lemma StartTells(cfg: Config, s: State, s': State, c: nat, d: nat)
    requires Shaped(cfg, s) && Starts(cfg, s, s', d) && c < |cfg.plan| && ConvInv(cfg, s, c)
    ensures Shaped(cfg, s') && ConvInv(cfg, s', c)
  {
    hide Turns, Settled, SentPrompts, Spent, CountRunning;
    SentStep(s.log, s'.log[|s.log|], c);
    if c == d {
      assert UpTo(|s.replies[c]| + 1) == UpTo(|s.replies[c]|) + [|s.replies[c]|];
      SettledText(cfg.plan[c], s.replies[c]);
    }
  }

  lemma SuccessTells(cfg: Config, s: State, s': State, c: nat, d: nat, r: Reply)
    requires Placed(cfg, s) && Succeeds(cfg, s, s', d, r) && c < |cfg.plan| && ConvInv(cfg, s, c)
    ensures Shaped(cfg, s') && ConvInv(cfg, s', c)
  {
    hide Turns, Settled, SentPrompts, CountIn;
    QueueHasRoom(cfg, s, d);
    if c == d { RepliedTells(cfg.plan[c], s.convs[c], s.replies[c], r); }
  }

  lemma ConvStays(cfg: Config, s: State, s': State, move: Move, c: nat)
    requires Placed(cfg, s) && Takes(cfg, s, s', move) && c < |cfg.plan| && ConvInv(cfg, s, c)
    ensures Shaped(cfg, s') && ConvInv(cfg, s', c)
  {
    hide Turns, Settled, SentPrompts, Spent, Planned, CountRunning, Succeeds, Starts;
    match move
    case Dispatch => assert CountIn(s.queue, s.queue[0]) > 0;
    case Start(d) => StartTells(cfg, s, s', c, d);
    case Succeed(d, r) => SuccessTells(cfg, s, s', c, d, r);
    case Break(_) =>
    case Fail(_) =>
  }

  // ---------------------------------------------------------------- how much is dispatched

  /** Prompts dispatched from the first n conversations. */
  function HandedOut(convs: seq<Conversation>, status: seq<Status>, n: nat): (k: nat)
    requires n <= |convs| == |status|
  {
    if n == 0 then 0 else HandedOut(convs, status, n - 1) + Handed(convs[n - 1], status[n - 1])
  }

  lemma {:induction false} HandedStep(convs: seq<Conversation>, status: seq<Status>, n: nat, c: nat,
                                      v: Conversation, st: Status)
    requires n <= |convs| == |status| && c < |convs|
    ensures HandedOut(convs[c := v], status[c := st], n)
         == HandedOut(convs, status, n) + (if c < n then Handed(v, st) - Handed(convs[c], status[c]) else 0)
  {
    if n > 0 { HandedStep(convs, status, n - 1, c, v, st); }
  }

  ghost predicate Limited(cfg: Config, s: State)
    requires Shaped(cfg, s)
  {
    && s.dispatched == HandedOut(s.convs, s.status, |cfg.plan|)
    && s.dispatched <= Planned(cfg)
    && (cfg.limit > 0 ==> CountRunning(s.status, |s.status|) <= cfg.limit)
  }

  lemma {:induction false} RunningStep(status: seq<Status>, n: nat, c: nat, st: Status)
    requires n <= |status| && c < |status|
    ensures CountRunning(status[c := st], n)
         == CountRunning(status, n)
            + (if c < n then (if st == Running then 1 else 0) - (if status[c] == Running then 1 else 0) else 0)
  {
    if n > 0 { RunningStep(status, n - 1, c, st); }
  }

  lemma LimitStays(cfg: Config, s: State, s': State, move: Move)
    requires Placed(cfg, s) && Limited(cfg, s) && Takes(cfg, s, s', move)
    requires forall c | 0 <= c < |cfg.plan| :: ConvInv(cfg, s, c)
    ensures Shaped(cfg, s') && Limited(cfg, s')
  {
    hide Turns, Settled, SentPrompts, Spent, Planned;
    var c := match move case Dispatch => s.queue[0] case Start(d) => d case Break(d) => d case Succeed(d, _) => d
             case Fail(d) => d;
    if move.Succeed? { QueueHasRoom(cfg, s, c); }
    if move.Dispatch? { assert CountIn(s.queue, c) > 0; }
    assert ConvInv(cfg, s, c);
    RunningStep(s.status, |s.status|, c, s'.status[c]);
    HandedStep(s.convs, s.status, |cfg.plan|, c, s'.convs[c], s'.status[c]);
    assert s'.convs == s.convs[c := s'.convs[c]] && s'.status == s.status[c := s'.status[c]];
  }

  // ---------------------------------------------------------------- prompt lengths

  /** The length recorded with a sent prompt counts the actual lengths of the answers before it. */
  ghost predicate Measured(cfg: Config, s: State, e: Sent)
    requires Shaped(cfg, s)
  {
    && e.conv < |cfg.plan| && e.prompt < |cfg.plan[e.conv]| && e.prompt <= |s.replies[e.conv]| <= |cfg.plan[e.conv]|
    && e.promptLen == PromptLen(Settled(cfg.plan[e.conv], s.replies[e.conv]), e.prompt)
  }

  lemma {:induction false} SpentIsFinal(plan: seq<Prompt>, replies: seq<Reply>, r: Reply, k: nat)
    requires k <= |replies| < |plan|
    ensures Spent(Settled(plan, replies + [r]), k) == Spent(Settled(plan, replies), k)
  {
    if k > 0 { SpentIsFinal(plan, replies, r, k - 1); }
  }

  lemma MeasuredStays(cfg: Config, s: State, s': State, move: Move, e: Sent)
    requires Placed(cfg, s) && Takes(cfg, s, s', move) && Measured(cfg, s, e)
    requires forall c | 0 <= c < |cfg.plan| :: ConvInv(cfg, s, c)
    ensures Shaped(cfg, s') && Measured(cfg, s', e)
  {
    hide Turns, SentPrompts, CountIn;
    if move.Succeed? && move.c == e.conv {
      QueueHasRoom(cfg, s, move.c);
      assert ConvInv(cfg, s, e.conv);
      SpentIsFinal(cfg.plan[e.conv], s.replies[e.conv], move.r, e.prompt);
    }
  }

  lemma NewIsMeasured(cfg: Config, s: State, s': State, c: nat)
    requires Shaped(cfg, s) && Starts(cfg, s, s', c) && ConvInv(cfg, s, c)
    ensures |s'.log| == |s.log| + 1 && Shaped(cfg, s') && Measured(cfg, s', s'.log[|s.log|])
  {
    hide Turns, SentPrompts, Spent, Settled;
  }

  lemma AllMeasuredStay(cfg: Config, s: State, s': State, move: Move)
    requires Placed(cfg, s) && Takes(cfg, s, s', move)
    requires forall c | 0 <= c < |cfg.plan| :: ConvInv(cfg, s, c)
    requires forall k | 0 <= k < |s.log| :: Measured(cfg, s, s.log[k])
    ensures Shaped(cfg, s') && forall k | 0 <= k < |s'.log| :: Measured(cfg, s', s'.log[k])
  {
    hide Measured, ConvInv, CountIn;
    if move.Start? { NewIsMeasured(cfg, s, s', move.c); }
    forall k | 0 <= k < |s.log| ensures Shaped(cfg, s') && Measured(cfg, s', s.log[k]) {
      MeasuredStays(cfg, s, s', move, s.log[k]);
    }
  }

  // ---------------------------------------------------------------- every run

  ghost predicate Inv(cfg: Config, s: State) {
    && Placed(cfg, s) && |s.queue| <= |cfg.plan| && Limited(cfg, s)
    && (forall c | 0 <= c < |cfg.plan| :: ConvInv(cfg, s, c))
    && forall k | 0 <= k < |s.log| :: Measured(cfg, s, s.log[k])
  }

  lemma InvStays(cfg: Config, s: State, s': State, move: Move)
    requires Inv(cfg, s) && Takes(cfg, s, s', move)
    ensures Inv(cfg, s')
  {
    hide Takes, ConvInv, Limited, Measured;
    AllMeasuredStay(cfg, s, s', move);
    PlacesStay(cfg, s, s', move);
    LimitStays(cfg, s, s', move);
    forall c | 0 <= c < |cfg.plan| ensures ConvInv(cfg, s', c) { ConvStays(cfg, s, s', move, c); }
  }

  lemma {:induction false} InitialQueue(n: nat, k: nat, c: nat)
    requires k <= n
    ensures CountIn(UpTo(n)[k..], c) == (if k <= c < n then 1 else 0)
    decreases n - k
  {
    if k < n {
      assert UpTo(n)[k..][1..] == UpTo(n)[k + 1..];
      InitialQueue(n, k + 1, c);
    }
  }

  lemma {:induction false} NothingHanded(convs: seq<Conversation>, status: seq<Status>, n: nat)
    requires n <= |convs| == |status|
    requires forall c | 0 <= c < n :: convs[c].finished == 0 && status[c] == Queued
    ensures HandedOut(convs, status, n) == 0 && CountRunning(status, n) == 0
  {
    if n > 0 { NothingHanded(convs, status, n - 1); }
  }

  lemma InitialInv(cfg: Config, s: State)
    requires Initial(cfg, s)
    ensures Inv(cfg, s)
  {
    var n := |cfg.plan|;
    assert s.queue == UpTo(n) && UpTo(n)[0..] == UpTo(n);
    forall c: nat ensures CountIn(s.queue, c) == (if c < n then 1 else 0) { InitialQueue(n, 0, c); }
    NothingHanded(s.convs, s.status, n);
    forall c | 0 <= c < n ensures ConvInv(cfg, s, c) {
      assert Settled(cfg.plan[c], []) == cfg.plan[c];
    }
  }

  lemma {:induction false} RunKeepsInv(cfg: Config, run: seq<State>, moves: seq<Move>, i: nat)
    requires IsRun(cfg, run, moves) && i < |run|
    ensures Inv(cfg, run[i])
  {
    hide Inv, Takes, Initial;
    if i == 0 {
      InitialInv(cfg, run[0]);
    } else {
      RunKeepsInv(cfg, run, moves, i - 1);
      assert Takes(cfg, run[i - 1], run[i - 1 + 1], moves[i - 1]);
      InvStays(cfg, run[i - 1], run[i], moves[i - 1]);
    }
  }

  // ---------------------------------------------------------------- the theorems

  /**
    In every reachable state the queue is within its bound and no put has blocked; a conversation is
    in the queue at most once and exactly when it is neither with a task nor ended nor failed.
   */
  lemma QueueNeverOverflows(cfg: Config, run: seq<State>, moves: seq<Move>, i: nat, c: nat)
    requires IsRun(cfg, run, moves) && i < |run| && c < |cfg.plan|
    ensures |run[i].queue| <= |cfg.plan| && run[i].blocked == [] && Shaped(cfg, run[i])
    ensures CountIn(run[i].queue, c) == if run[i].status[c] == Queued then 1 else 0
    ensures cfg.limit > 0 ==> CountRunning(run[i].status, |run[i].status|) <= cfg.limit
  {
    RunKeepsInv(cfg, run, moves, i);
  }

  /**
    The prompts of a conversation go out in order, each at most once; whenever it is in the queue, it
    holds the finished prompts and their replies as 2 * finished alternating messages.
   */
  lemma PromptsGoOutInOrder(cfg: Config, run: seq<State>, moves: seq<Move>, i: nat, c: nat)
    requires IsRun(cfg, run, moves) && i < |run| && c < |cfg.plan|
    ensures Shaped(cfg, run[i]) && |run[i].replies[c]| <= |cfg.plan[c]|
    ensures exists k: nat :: k <= |cfg.plan[c]| && SentPrompts(run[i].log, c) == UpTo(k)
    ensures run[i].status[c] == Queued ==>
              && run[i].convs[c].messages == Turns(cfg.plan[c], run[i].replies[c])
              && |run[i].convs[c].messages| == 2 * run[i].convs[c].finished
              && run[i].convs[c].prompts == Settled(cfg.plan[c], run[i].replies[c])
  {
    RunKeepsInv(cfg, run, moves, i);
    assert ConvInv(cfg, run[i], c);
    assert SentPrompts(run[i].log, c) == UpTo(SentSoFar(cfg.plan[c], run[i].status[c], run[i].replies[c]));
  }

  /** The prompt length computed for a request counts planned inputs and the outputs actually received. */
  lemma PromptLengthsAreActual(cfg: Config, run: seq<State>, moves: seq<Move>, i: nat, k: nat)
    requires IsRun(cfg, run, moves) && i < |run| && k < |run[i].log|
    ensures Shaped(cfg, run[i]) && Measured(cfg, run[i], run[i].log[k])
  {
    hide Measured, ConvInv;
    RunKeepsInv(cfg, run, moves, i);
  }
}
