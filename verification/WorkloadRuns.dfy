/**
  What every interleaving of the workload generator's threads keeps.
 */
module WorkloadRuns {
  import opened Workload

  // ---------------------------------------------------------------- who is where

  /** How many requests of client c a queue holds. */
  function Count(reqs: seq<Request>, c: nat): (k: nat) {
    if reqs == [] then 0 else Count(reqs[..|reqs| - 1], c) + One(reqs[|reqs| - 1].client, c)
  }

  function One(x: nat, c: nat): (k: nat) {
    if x == c then 1 else 0
  }

  function CountAnswers(answers: seq<Answer>, c: nat): (k: nat) {
    if answers == [] then 0 else CountAnswers(answers[1..], c) + One(answers[0].client, c)
  }

  function Hand(sender: Sender, c: nat): (k: nat) {
    if sender.Holding? then One(sender.req.client, c) else 0
  }

  /** Requests of c that have been sent and not yet been handled. */
  function Out(s: State, c: nat): (k: nat) {
    Count(s.flying, c) + CountAnswers(s.answers, c)
  }

  /** Requests of c that are ready, being sent, sent, or on their way to the ready queue. */
  function Live(s: State, c: nat): (k: nat) {
    Count(s.ready, c) + Hand(s.sender, c) + Out(s, c) + Count(s.outbox, c)
  }

  lemma {:induction false} CountConcat(a: seq<Request>, b: seq<Request>, c: nat)
    ensures Count(a + b, c) == Count(a, c) + Count(b, c)
  {
    if b == [] {
      assert a + b == a;
    } else {
      var n := |b| - 1;
      CountConcat(a, b[..n], c);
      assert (a + b)[..|a + b| - 1] == a + b[..n];
    }
  }

  lemma CountOne(r: Request, c: nat)
    ensures Count([r], c) == One(r.client, c)
  {
    assert [r][..0] == [];
  }

  lemma CountPush(reqs: seq<Request>, r: Request, c: nat)
    ensures Count(reqs + [r], c) == Count(reqs, c) + One(r.client, c)
  {
    CountConcat(reqs, [r], c);
    CountOne(r, c);
  }

  lemma CountRemove(reqs: seq<Request>, i: nat, c: nat)
    requires i < |reqs|
    ensures Count(reqs, c) == Count(reqs[..i] + reqs[i + 1..], c) + One(reqs[i].client, c)
  {
    hide Count;
    assert reqs == (reqs[..i] + [reqs[i]]) + reqs[i + 1..];
    CountConcat(reqs[..i] + [reqs[i]], reqs[i + 1..], c);
    CountPush(reqs[..i], reqs[i], c);
    CountConcat(reqs[..i], reqs[i + 1..], c);
  }

  lemma {:induction false} CountAnswersPush(answers: seq<Answer>, a: Answer, c: nat)
    ensures CountAnswers(answers + [a], c) == CountAnswers(answers, c) + One(a.client, c)
  {
    if answers == [] {
      assert answers + [a] == [a] && [a][1..] == [];
    } else {
      CountAnswersPush(answers[1..], a, c);
      assert (answers + [a])[1..] == answers[1..] + [a];
    }
  }

  lemma CountAnswersFirst(answers: seq<Answer>, c: nat)
    requires answers != []
    ensures CountAnswers(answers, c) == CountAnswers(answers[1..], c) + One(answers[0].client, c)
  {
  }

  lemma CountNone(c: nat)
    ensures Count([], c) == 0
  {
  }

  lemma {:induction false} CountHas(reqs: seq<Request>, i: nat)
    requires i < |reqs|
    ensures Count(reqs, reqs[i].client) > 0
  {
    if i < |reqs| - 1 { CountHas(reqs[..|reqs| - 1], i); }
  }

  // ---------------------------------------------------------------- what moves do to places

  /** Every move but the handler's leaves these alone. */
  ghost predicate SameRecords(s: State, s': State) {
    && s'.held == s.held && s'.rounds == s.rounds && s'.history == s.history && s'.pool == s.pool
    && s'.barrierRound == s.barrierRound && s'.barrierCount == s.barrierCount
    && s'.crashed == s.crashed && s'.failed == s.failed && s'.said == s.said
  }

  /** The sender, the server and deliveries only pass requests on. */
  lemma MovesKeepPlaces(cfg: Config, s: State, s': State, move: Move, c: nat)
    requires Takes(cfg, s, s', move) && move != Handle
    ensures SameRecords(s, s')
    ensures Live(s', c) == Live(s, c)
    ensures Out(s', c) == Out(s, c) + (if move == Launch then Hand(s.sender, c) else 0)
    ensures move != Launch ==> s'.log == s.log
  {
    hide Count, CountAnswers;
    match move
    case Check =>
    case Pop(i) => if s.ready != [] { CountRemove(s.ready, i, c); }
    case Launch => CountPush(s.flying, s.sender.req, c);
    case Reply(i, ok, output) =>
      CountRemove(s.flying, i, c);
      CountAnswersPush(s.answers, Answer(s.flying[i].client, ok, output), c);
    case Deliver =>
      CountPush(s.ready, s.outbox[0], c);
      CountRemove(s.outbox, 0, c);
      assert s.outbox[..0] + s.outbox[1..] == s.outbox[1..];
    case Handle =>
  }

  // ---------------------------------------------------------------- one place per client

  /** Each client has at most one request anywhere; one without is finished or failed. */
  ghost predicate Placed(cfg: Config, s: State) {
    && |s.rounds| == |s.history| == |cfg.totals|
    && !s.crashed
    && forall c: nat :: PlacedClient(cfg, s, c)
  }

  ghost predicate PlacedClient(cfg: Config, s: State, c: nat)
    requires |s.rounds| == |cfg.totals|
  {
    var k := Live(s, c) + Count(s.held, c);
    && k <= 1
    && (c >= |cfg.totals| ==> k == 0 && c !in s.failed)
    && (c < |cfg.totals| ==>
          if k == 1 then s.rounds[c] < cfg.totals[c] && c !in s.failed
          else if c in s.failed then s.rounds[c] < cfg.totals[c]
          else s.rounds[c] == cfg.totals[c])
  }

  /** The client whose answer is next is out, and nowhere else. */
  lemma AnswererIsOut(cfg: Config, s: State)
    requires Placed(cfg, s) && s.answers != []
    ensures var c := s.answers[0].client;
            && c < |cfg.totals| && c !in s.failed && s.rounds[c] < cfg.totals[c]
            && Count(s.ready, c) == 0 && Hand(s.sender, c) == 0 && Count(s.outbox, c) == 0 && Count(s.held, c) == 0
            && Out(s, c) == 1
  {
    hide Count, CountAnswers;
    assert PlacedClient(cfg, s, s.answers[0].client);
    CountAnswersFirst(s.answers, s.answers[0].client);
  }

  /** Does the handled client get a next request? */
  predicate Continues(cfg: Config, s: State, a: Answer)
    requires a.client < |s.rounds| == |cfg.totals|
  {
    a.ok && s.rounds[a.client] + 1 < cfg.totals[a.client]
  }

  lemma RecordedPlaces(cfg: Config, s: State, a: Answer, c: nat)
    requires a.client < |s.rounds| == |s.history| == |cfg.totals| && s.outbox == [] && a.ok
    requires !Recorded(cfg, s, a).crashed && !s.crashed
    ensures var t := Recorded(cfg, s, a);
            && Out(t, c) == Out(s, c)
            && Live(t, c) + Count(t.held, c)
               == Live(s, c) + Count(s.held, c) + (if Continues(cfg, s, a) then One(a.client, c) else 0)
  {
    hide Count, CountAnswers;
    if Continues(cfg, s, a) {
      var r := Request(a.client, s.history[a.client] + a.output + s.pool[|s.pool| - 1]);
      CountPush(s.held, r, c);
      CountOne(r, c);
      CountNone(c);
    }
  }

  lemma CountedPlaces(cfg: Config, s: State, c: nat)
    requires cfg.barrier ==> s.outbox == []
    ensures var t := Counted(cfg, s);
            Out(t, c) == Out(s, c) && Live(t, c) + Count(t.held, c) == Live(s, c) + Count(s.held, c)
  {
    hide Count, CountAnswers;
    CountNone(c);
  }

  /** Handling an answer takes its client out of flight, and out altogether unless it continues. */
  lemma HandlePlaces(cfg: Config, s: State, s': State, c: nat)
    requires Placed(cfg, s) && Handles(cfg, s, s') && !s'.crashed
    ensures var a := s.answers[0];
            && a.client < |cfg.totals|
            && Out(s, c) == Out(s', c) + One(a.client, c)
            && Live(s', c) + Count(s'.held, c)
               == Live(s, c) + Count(s.held, c) - (if Continues(cfg, s, a) then 0 else One(a.client, c))
  {
    hide Count, CountAnswers, Counted, Recorded;
    var a, t := s.answers[0], s.(answers := s.answers[1..]);
    CountAnswersFirst(s.answers, c);
    AnswererIsOut(cfg, s);
    if a.ok {
      RecordedKeepsOutbox(cfg, t, a);
      RecordedPlaces(cfg, t, a, c);
      CountedPlaces(cfg, Recorded(cfg, t, a), c);
    }
  }

  lemma RecordedKeepsOutbox(cfg: Config, s: State, a: Answer)
    requires a.client < |s.rounds| == |s.history| == |cfg.totals|
    ensures cfg.barrier ==> Recorded(cfg, s, a).outbox == s.outbox
    ensures Counted(cfg, Recorded(cfg, s, a)).crashed == Recorded(cfg, s, a).crashed
  {
  }

  /** The records after an answer has been handled. */
  lemma HandleRecords(cfg: Config, s: State, s': State)
    requires Placed(cfg, s) && Handles(cfg, s, s') && !s'.crashed
    ensures var a := s.answers[0];
            && s'.rounds == (if a.ok then s.rounds[a.client := s.rounds[a.client] + 1] else s.rounds)
            && s'.failed == (if a.ok then s.failed else s.failed + {a.client})
            && |s'.history| == |s.history| && s'.log == s.log
  {
  }

  lemma PlacesStay(cfg: Config, s: State, s': State, move: Move)
    requires Placed(cfg, s) && Takes(cfg, s, s', move) && !s'.crashed
    ensures Placed(cfg, s')
  {
    hide Live, Out, Count;
    if move != Handle {
      MovesKeepPlaces(cfg, s, s', move, 0);
      forall c: nat ensures PlacedClient(cfg, s', c) {
        assert PlacedClient(cfg, s, c);
        MovesKeepPlaces(cfg, s, s', move, c);
      }
    } else {
      HandleRecords(cfg, s, s');
      AnswererIsOut(cfg, s);
      hide Handled;
      forall c: nat ensures PlacedClient(cfg, s', c) {
        assert PlacedClient(cfg, s, c);
        HandlePlaces(cfg, s, s', c);
      }
    }
  }

  // ---------------------------------------------------------------- the pool of sub-questions

  lemma {:induction false} NeededStep(totals: seq<nat>, rounds: seq<nat>, n: nat, c: nat)
    requires n <= |totals| == |rounds| && c < |rounds|
    ensures Needed(totals, rounds[c := rounds[c] + 1], n)
         == Needed(totals, rounds, n) - (if c < n && rounds[c] + 1 < totals[c] then 1 else 0)
  {
    if n > 0 { NeededStep(totals, rounds, n - 1, c); }
  }

  ghost predicate Stocked(cfg: Config, s: State) {
    |s.rounds| == |cfg.totals| && |s.pool| >= Needed(cfg.totals, s.rounds, |cfg.totals|)
  }

  /** The pool is never popped empty. */
  lemma StockSuffices(cfg: Config, s: State, s': State, move: Move)
    requires Stocked(cfg, s) && !s.crashed && Takes(cfg, s, s', move)
    ensures Stocked(cfg, s') && !s'.crashed
  {
    if move == Handle && s.answers[0].ok {
      NeededStep(cfg.totals, s.rounds, |cfg.totals|, s.answers[0].client);
    }
  }

  // ---------------------------------------------------------------- the limit on requests in flight

  ghost predicate Limited(cfg: Config, s: State) {
    && s.sent - s.completed == |s.flying| + |s.answers|
    && s.sent == |s.log|
    && (cfg.maxParallel >= 0 ==> s.sent - s.completed <= cfg.maxParallel)
    && (s.sender != Idle ==> s.sent - s.completed < cfg.maxParallel)
  }

  lemma LimitStays(cfg: Config, s: State, s': State, move: Move)
    requires Limited(cfg, s) && Takes(cfg, s, s', move)
    ensures Limited(cfg, s')
  {
    if move == Handle { HandleCounts(cfg, s, s'); }
  }

  lemma HandleCounts(cfg: Config, s: State, s': State)
    requires Handles(cfg, s, s')
    ensures s'.sent == s.sent && s'.completed == s.completed + 1 && s'.log == s.log
    ensures s'.flying == s.flying && |s'.answers| == |s.answers| - 1 && s'.sender == s.sender
  {
    hide Needed, Above;
  }

  // ---------------------------------------------------------------- histories

  /** A waiting request carries its client's current history. */
  ghost predicate Current(reqs: seq<Request>, history: seq<Tokens>) {
    forall i | 0 <= i < |reqs| :: reqs[i].client < |history| && reqs[i].payload == history[reqs[i].client]
  }

  /** A sent request carried what is now a beginning of its client's history. */
  ghost predicate Past(log: seq<Request>, history: seq<Tokens>) {
    forall i | 0 <= i < |log| :: log[i].client < |history| && log[i].payload <= history[log[i].client]
  }

  /** Later requests of a client extend its earlier ones. */
  ghost predicate Growing(log: seq<Request>) {
    forall i, j | 0 <= i < j < |log| && log[i].client == log[j].client :: log[i].payload <= log[j].payload
  }

  ghost predicate Faithful(s: State) {
    && Current(s.ready, s.history) && Current(s.outbox, s.history) && Current(s.held, s.history)
    && (s.sender.Holding? ==> Current([s.sender.req], s.history))
    && Past(s.log, s.history) && Growing(s.log)
  }

  /** Growing one client's history leaves requests of other clients current. */
  lemma CurrentElsewhere(reqs: seq<Request>, history: seq<Tokens>, c: nat, h: Tokens)
    requires Current(reqs, history) && c < |history| && Count(reqs, c) == 0
    ensures Current(reqs, history[c := h])
  {
    hide Count;
    forall i | 0 <= i < |reqs| ensures reqs[i].client != c { CountHas(reqs, i); }
  }

  lemma PastGrows(log: seq<Request>, history: seq<Tokens>, c: nat, h: Tokens)
    requires Past(log, history) && c < |history| && history[c] <= h
    ensures Past(log, history[c := h])
  {
  }

  lemma CurrentPush(reqs: seq<Request>, history: seq<Tokens>, c: nat)
    requires Current(reqs, history) && c < |history|
    ensures Current(reqs + [Request(c, history[c])], history) && Current([Request(c, history[c])], history)
  {
  }

  lemma CurrentNone(history: seq<Tokens>)
    ensures Current([], history)
  {
  }

  /** What recording an answer does to histories and queues. */
  lemma RecordedHistory(cfg: Config, s: State, a: Answer)
    requires a.client < |s.rounds| == |s.history| == |cfg.totals| && s.outbox == [] && a.ok
    requires !Recorded(cfg, s, a).crashed
    ensures var t, c := Recorded(cfg, s, a), a.client;
            && t.history == s.history[c := t.history[c]] && s.history[c] <= t.history[c]
            && t.ready == s.ready && t.sender == s.sender && t.log == s.log
            && (t.outbox == [] || t.outbox == [Request(c, t.history[c])])
            && (t.held == s.held || t.held == s.held + [Request(c, t.history[c])])
  {
  }

  lemma CountedQueues(cfg: Config, s: State)
    ensures var t := Counted(cfg, s);
            && t.history == s.history && t.ready == s.ready && t.sender == s.sender && t.log == s.log
            && (t.outbox == s.outbox || t.outbox == s.held) && (t.held == s.held || t.held == [])
  {
  }

  lemma FaithfulAfterAnswer(cfg: Config, s: State, s': State)
    requires Placed(cfg, s) && Faithful(s) && Handles(cfg, s, s') && !s'.crashed
    ensures Faithful(s')
  {
    var a, s1 := s.answers[0], s.(answers := s.answers[1..]);
    var c := a.client;
    AnswererIsOut(cfg, s);
    HandIsCount(s.sender, c);
    hide Count, Live, Out, Hand, Current, Past, Growing, Counted, Recorded;
    if a.ok {
      RecordedKeepsOutbox(cfg, s1, a);
      RecordedHistory(cfg, s1, a);
      var t := Recorded(cfg, s1, a);
      var h := t.history[c];
      CountedQueues(cfg, t);
      CurrentElsewhere(s.ready, s.history, c, h);
      CurrentElsewhere(s.held, s.history, c, h);
      if s.sender.Holding? { CurrentElsewhere([s.sender.req], s.history, c, h); }
      PastGrows(s.log, s.history, c, h);
      CurrentNone(t.history);
      CurrentPush(s.held, t.history, c);
    }
  }

  lemma HandIsCount(sender: Sender, c: nat)
    ensures sender.Holding? ==> Count([sender.req], c) == Hand(sender, c)
  {
    if sender.Holding? { CountOne(sender.req, c); }
  }

  lemma FaithfulStays(cfg: Config, s: State, s': State, move: Move)
    requires Placed(cfg, s) && Faithful(s) && Takes(cfg, s, s', move) && !s'.crashed
    ensures Faithful(s')
  {
    if move == Handle {
      FaithfulAfterAnswer(cfg, s, s');
    }
  }

  // ---------------------------------------------------------------- how often a client has been sent

  ghost predicate Accounted(s: State) {
    forall c: nat :: AccountedClient(s, c)
  }

  /** A client has been sent once per finished round, and once more if a request is out or failed. */
  ghost predicate AccountedClient(s: State, c: nat) {
    Count(s.log, c) == (if c < |s.rounds| then s.rounds[c] else 0) + Out(s, c) + (if c in s.failed then 1 else 0)
  }

  lemma AccountStays(cfg: Config, s: State, s': State, move: Move)
    requires Placed(cfg, s) && Accounted(s) && Takes(cfg, s, s', move) && !s'.crashed
    ensures Accounted(s')
  {
    hide Live, Out, Count;
    if move != Handle {
      forall c: nat ensures AccountedClient(s', c) {
        assert AccountedClient(s, c);
        MovesKeepPlaces(cfg, s, s', move, c);
        if move == Launch { CountPush(s.log, s.sender.req, c); }
      }
    } else {
      HandleRecords(cfg, s, s');
      AnswererIsOut(cfg, s);
      hide Handled;
      forall c: nat ensures AccountedClient(s', c) {
        assert AccountedClient(s, c);
        HandlePlaces(cfg, s, s', c);
      }
    }
  }
}
