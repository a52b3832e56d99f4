/**
  The multi-turn workload generator: a sender thread that keeps a bounded number of requests in
  flight, a response handler that builds each client's next request, and an optional barrier
  between rounds. This module is the protocol as a state machine; WorkloadRuns proves what every
  interleaving keeps, and WorkloadThreads holds the threads' code.
 */
module Workload {

  type Tokens = seq<int>

  datatype Request = Request(client: nat, payload: Tokens)

  datatype Answer = Answer(client: nat, ok: bool, output: Tokens)

  /** Where the sender is between its limit check and its counter update. */
  datatype Sender = Idle | Cleared | Holding(req: Request)

  datatype Config = Config(totals: seq<nat>, maxRounds: nat, maxParallel: int, barrier: bool)

  /**
    The shared fields, the handler's local variables, and three records for specification: log, the
    requests sent so far; failed, the clients whose request failed; and said, what has been added to
    each client's history, answer and question in turn.
   */
  datatype State = State(
    ready: seq<Request>, sender: Sender, flying: seq<Request>, answers: seq<Answer>, outbox: seq<Request>,
    held: seq<Request>, rounds: seq<nat>, history: seq<Tokens>, pool: seq<Tokens>,
    barrierRound: nat, barrierCount: nat, sent: int, completed: int, crashed: bool,
    log: seq<Request>, failed: set<nat>, said: seq<seq<Tokens>>)

  // ---------------------------------------------------------------- setting up

  /** Sum of the first n round counts. */
  function Total(totals: seq<nat>, n: nat): (t: nat)
    requires n <= |totals|
  {
    if n == 0 then 0 else Total(totals, n - 1) + totals[n - 1]
  }

  /** How many of the first n clients take part in round r. */
  function Above(totals: seq<nat>, r: nat, n: nat): (k: nat)
    requires n <= |totals|
  {
    if n == 0 then 0 else Above(totals, r, n - 1) + (if totals[n - 1] > r then 1 else 0)
  }

  function ClientsPerRound(cfg: Config, r: nat): (k: nat) {
    Above(cfg.totals, r, |cfg.totals|)
  }

  /** Sub-questions the first n clients still need. */
  function Needed(totals: seq<nat>, rounds: seq<nat>, n: nat): (k: nat)
    requires n <= |totals| && n <= |rounds|
  {
    if n == 0 then 0
    else if rounds[n - 1] + 1 < totals[n - 1] then Needed(totals, rounds, n - 1) + totals[n - 1] - 1 - rounds[n - 1]
    else Needed(totals, rounds, n - 1)
  }

  ghost predicate ValidConfig(cfg: Config) {
    forall c | 0 <= c < |cfg.totals| :: 1 <= cfg.totals[c] <= cfg.maxRounds
  }

  function FirstRequests(inputs: seq<Tokens>): (reqs: seq<Request>)
    ensures |reqs| == |inputs|
  {
    seq(|inputs|, c requires 0 <= c < |inputs| => Request(c, inputs[c]))
  }

  ghost predicate Initial(cfg: Config, s: State) {
    && ValidConfig(cfg)
    && |s.history| == |s.rounds| == |cfg.totals|
    && (forall c | 0 <= c < |s.rounds| :: s.rounds[c] == 0)
    && s.ready == FirstRequests(s.history)
    && (var n := Needed(cfg.totals, s.rounds, |cfg.totals|); |s.pool| == if n == 0 then 1 else n)
    && s.sender == Idle && s.flying == [] && s.answers == [] && s.outbox == [] && s.held == []
    && s.barrierRound == 0 && s.barrierCount == 0 && s.sent == 0 && s.completed == 0 && !s.crashed
    && s.log == [] && s.failed == {}
    && |s.said| == |cfg.totals| && forall c | 0 <= c < |s.said| :: s.said[c] == []
  }

  // ---------------------------------------------------------------- the sender's steps

  ghost predicate Checks(cfg: Config, s: State, s': State) {
    s.sender == Idle && s.sent - s.completed < cfg.maxParallel && s' == s.(sender := Cleared)
  }

  /** Pops any waiting request (a first-in-first-out queue pops index 0), or finds none. */
  ghost predicate Pops(s: State, s': State, i: nat) {
    && s.sender == Cleared
    && if s.ready == [] then s' == s.(sender := Idle)
       else i < |s.ready| && s' == s.(sender := Holding(s.ready[i]), ready := s.ready[..i] + s.ready[i + 1..])
  }

  ghost predicate Launches(s: State, s': State) {
    && s.sender.Holding?
    && s' == s.(sender := Idle, flying := s.flying + [s.sender.req], sent := s.sent + 1, log := s.log + [s.sender.req])
  }

  // ---------------------------------------------------------------- the server's step

  ghost predicate Answers(s: State, s': State, i: nat, ok: bool, output: Tokens) {
    && i < |s.flying|
    && s' == s.(flying := s.flying[..i] + s.flying[i + 1..],
                answers := s.answers + [Answer(s.flying[i].client, ok, output)])
  }

  // ---------------------------------------------------------------- the handler's steps

  /** Hands one request on to the ready queue. */
  ghost predicate Delivers(s: State, s': State) {
    s.outbox != [] && s' == s.(ready := s.ready + [s.outbox[0]], outbox := s.outbox[1..])
  }

  function Failed(s: State, a: Answer): (s': State) {
    s.(completed := s.completed + 1, failed := s.failed + {a.client})
  }

  function Say(said: seq<seq<Tokens>>, c: nat, x: Tokens): (said': seq<seq<Tokens>>)
    ensures |said'| == |said|
  {
    if c < |said| then said[c := said[c] + [x]] else said
  }

  /** A successful answer extends its client's history and ends its round. */
  function Grown(s: State, a: Answer): (s': State)
    requires a.client < |s.rounds| && a.client < |s.history|
  {
    var c := a.client;
    s.(history := s.history[c := s.history[c] + a.output],
       rounds := s.rounds[c := s.rounds[c] + 1],
       completed := s.completed + 1,
       said := Say(s.said, c, a.output))
  }

  /** The client's next request, built from its history and a sub-question of the pool. */
  function Asked(cfg: Config, s: State, c: nat): (s': State)
    requires c < |s.history|
  {
    if s.pool == [] then s.(crashed := true)
    else
      var question := s.pool[|s.pool| - 1];
      var h := s.history[c] + question;
      var t := s.(history := s.history[c := h], pool := s.pool[..|s.pool| - 1], said := Say(s.said, c, question));
      if cfg.barrier then t.(held := s.held + [Request(c, h)]) else t.(outbox := [Request(c, h)])
  }

  /** Records a success; a client with rounds left gets its next request. */
  function Recorded(cfg: Config, s: State, a: Answer): (s': State)
    requires a.client < |s.rounds| && a.client < |s.history| && a.client < |cfg.totals|
  {
    var t := Grown(s, a);
    if t.rounds[a.client] < cfg.totals[a.client] then Asked(cfg, t, a.client) else t
  }

  /** Counts a success towards the current round; the last one of the round releases what was held back. */
  function Counted(cfg: Config, s: State): (s': State) {
    if !cfg.barrier || s.barrierRound >= cfg.maxRounds then s
    else if s.barrierCount + 1 == ClientsPerRound(cfg, s.barrierRound) then
      s.(outbox := s.held, held := [], barrierRound := s.barrierRound + 1, barrierCount := 0)
    else s.(barrierCount := s.barrierCount + 1)
  }

  function Handled(cfg: Config, s: State, a: Answer): (s': State)
    requires a.client < |s.rounds| && a.client < |s.history| && a.client < |cfg.totals|
  {
    if !a.ok then Failed(s, a)
    else if Recorded(cfg, s, a).crashed then Recorded(cfg, s, a)
    else Counted(cfg, Recorded(cfg, s, a))
  }

  ghost predicate Handles(cfg: Config, s: State, s': State) {
    && s.outbox == [] && s.answers != [] && !s.crashed
    && var a := s.answers[0];
       && a.client < |s.rounds| && a.client < |s.history| && a.client < |cfg.totals|
       && s' == Handled(cfg, s.(answers := s.answers[1..]), a)
  }

  // ---------------------------------------------------------------- runs

  datatype Move = Check | Pop(i: nat) | Launch | Reply(i: nat, ok: bool, output: Tokens) | Deliver | Handle

  ghost predicate Takes(cfg: Config, s: State, s': State, move: Move) {
    match move
    case Check => Checks(cfg, s, s')
    case Pop(i) => Pops(s, s', i)
    case Launch => Launches(s, s')
    case Reply(i, ok, output) => Answers(s, s', i, ok, output)
    case Deliver => Delivers(s, s')
    case Handle => Handles(cfg, s, s')
  }

  ghost predicate IsRun(cfg: Config, run: seq<State>, moves: seq<Move>) {
    && |run| == |moves| + 1
    && Initial(cfg, run[0])
    && forall i | 0 <= i < |moves| :: Takes(cfg, run[i], run[i + 1], moves[i])
  }

  // ---------------------------------------------------------------- the plan adds up

  /** Counting the clients of a round one by one gives the size of their set. */
  lemma {:induction false} AboveIsCount(totals: seq<nat>, r: nat, n: nat)
    requires n <= |totals|
    ensures Above(totals, r, n) == |set c: nat | c < n && totals[c] > r|
  {
    var a := set c: nat | c < n && totals[c] > r;
    if n > 0 {
      AboveIsCount(totals, r, n - 1);
      var b := set c: nat | c < n - 1 && totals[c] > r;
      assert a == if totals[n - 1] > r then b + {n - 1} else b;
    }
  }

  lemma {:induction false} NeededIs(totals: seq<nat>, rounds: seq<nat>, n: nat)
    requires n <= |totals| == |rounds| && forall c | 0 <= c < n :: rounds[c] == 0 && totals[c] >= 1
    ensures Needed(totals, rounds, n) == Total(totals, n) - n
  {
    if n > 0 { NeededIs(totals, rounds, n - 1); }
  }

  /** The pool starts with a question for every request but each client's first, and at least one. */
  lemma FirstPool(cfg: Config, s: State)
    requires Initial(cfg, s)
    ensures var n := Total(cfg.totals, |cfg.totals|) - |cfg.totals|; |s.pool| == if n == 0 then 1 else n
  {
    NeededIs(cfg.totals, s.rounds, |cfg.totals|);
  }

  function SumAbove(totals: seq<nat>, r: nat): (t: nat) {
    if r == 0 then 0 else SumAbove(totals, r - 1) + Above(totals, r - 1, |totals|)
  }

  /** Rounds below r that the first n clients take part in. */
  function Capped(totals: seq<nat>, r: nat, n: nat): (t: nat)
    requires n <= |totals|
  {
    if n == 0 then 0 else Capped(totals, r, n - 1) + (if totals[n - 1] < r then totals[n - 1] else r)
  }

  lemma {:induction false} OneMoreRound(totals: seq<nat>, r: nat, n: nat)
    requires n <= |totals|
    ensures Capped(totals, r + 1, n) == Capped(totals, r, n) + Above(totals, r, n)
  {
    if n > 0 { OneMoreRound(totals, r, n - 1); }
  }

  lemma {:induction false} NoRounds(totals: seq<nat>, n: nat)
    requires n <= |totals|
    ensures Capped(totals, 0, n) == 0
  {
    if n > 0 { NoRounds(totals, n - 1); }
  }

  lemma {:induction false} SumIsCapped(totals: seq<nat>, r: nat)
    ensures SumAbove(totals, r) == Capped(totals, r, |totals|)
  {
    if r == 0 {
      NoRounds(totals, |totals|);
    } else {
      SumIsCapped(totals, r - 1);
      OneMoreRound(totals, r - 1, |totals|);
    }
  }

  lemma {:induction false} AllCapped(totals: seq<nat>, r: nat, n: nat)
    requires n <= |totals| && forall c | 0 <= c < n :: totals[c] <= r
    ensures Capped(totals, r, n) == Total(totals, n)
  {
    if n > 0 { AllCapped(totals, r, n - 1); }
  }

  /** The clients of all rounds together are the planned number of requests. */
  lemma RoundsAddUp(cfg: Config)
    requires ValidConfig(cfg)
    ensures SumAbove(cfg.totals, cfg.maxRounds) == Total(cfg.totals, |cfg.totals|)
  {
    SumIsCapped(cfg.totals, cfg.maxRounds);
    AllCapped(cfg.totals, cfg.maxRounds, |cfg.totals|);
  }
}
