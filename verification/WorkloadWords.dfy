/**
  Where the words of a request come from, read off the moves of a run: the server's replies in the
  order they arrive, and the pool of sub-questions from its end.
 */
module WorkloadWords {
  import opened Workload
  import opened WorkloadRuns
  import opened WorkloadBarrier
  import opened WorkloadTalk

  // ---------------------------------------------------------------- replies and questions

  /** The server's replies among the first i moves, each to the client whose request it answers. */
  ghost function Replies(run: seq<State>, moves: seq<Move>, i: nat): (rs: seq<Answer>)
    requires i <= |moves| < |run|
  {
    if i == 0 then [] else Replies(run, moves, i - 1) + ReplyOf(run[i - 1], moves[i - 1])
  }

  ghost function ReplyOf(s: State, move: Move): (rs: seq<Answer>) {
    if move.Reply? && move.i < |s.flying| then [Answer(s.flying[move.i].client, move.ok, move.output)] else []
  }

  function HandleCount(moves: seq<Move>, i: nat): (n: nat)
    requires i <= |moves|
  {
    if i == 0 then 0 else HandleCount(moves, i - 1) + (if moves[i - 1].Handle? then 1 else 0)
  }

  /** What client c was told: the outputs of its successful replies. */
  function Heard(rs: seq<Answer>, c: nat): (out: seq<Tokens>) {
    if rs == [] then []
    else
      var n := |rs| - 1;
      Heard(rs[..n], c) + (if rs[n].ok && rs[n].client == c then [rs[n].output] else [])
  }

  /** The reply after rs calls for a question: it succeeds, and its client has a round to go after it. */
  predicate CallsFor(totals: seq<nat>, rs: seq<Answer>, a: Answer) {
    a.ok && a.client < |totals| && |Heard(rs, a.client)| + 1 < totals[a.client]
  }

  /** How many questions the replies call for. */
  function Asks(totals: seq<nat>, rs: seq<Answer>): (n: nat) {
    if rs == [] then 0
    else
      var n := |rs| - 1;
      Asks(totals, rs[..n]) + (if CallsFor(totals, rs[..n], rs[n]) then 1 else 0)
  }

  /** The n-th question from the end of the pool. */
  function FromTheEnd(pool: seq<Tokens>, n: nat): (q: Tokens) {
    if n < |pool| then pool[|pool| - 1 - n] else []
  }

  /** The questions put to client c. */
  function Questions(totals: seq<nat>, pool: seq<Tokens>, rs: seq<Answer>, c: nat): (qs: seq<Tokens>) {
    if rs == [] then []
    else
      var before, a := rs[..|rs| - 1], rs[|rs| - 1];
      Questions(totals, pool, before, c)
      + (if a.client == c && CallsFor(totals, before, a) then [FromTheEnd(pool, Asks(totals, before))] else [])
  }

  // ---------------------------------------------------------------- replies are handled in order

  lemma AnswersStep(cfg: Config, s: State, s': State, move: Move)
    requires Takes(cfg, s, s', move) && !s'.crashed
    ensures move.Handle? ==> s.answers != [] && s'.answers == s.answers[1..]
    ensures !move.Handle? ==> s'.answers == s.answers + ReplyOf(s, move)
  {
    hide Above;
  }

  /** The handler takes the replies in the order they arrive. */
  lemma {:induction false} AnswersAreFifo(cfg: Config, run: seq<State>, moves: seq<Move>, i: nat)
    requires IsRun(cfg, run, moves) && i < |run|
    ensures HandleCount(moves, i) <= |Replies(run, moves, i)|
    ensures Replies(run, moves, i)[HandleCount(moves, i)..] == run[i].answers
  {
    hide Takes, Inv, Initial, ReplyOf;
    if i == 0 {
      NoAnswers(cfg, run[0]);
    } else {
      AnswersAreFifo(cfg, run, moves, i - 1);
      RunKeepsInv(cfg, run, moves, i);
      InvParts(cfg, run[i]);
      assert Takes(cfg, run[i - 1], run[i - 1 + 1], moves[i - 1]);
      AnswersStep(cfg, run[i - 1], run[i], moves[i - 1]);
      if moves[i - 1].Handle? { HandleIsNoReply(run[i - 1], moves[i - 1]); }
    }
  }

  lemma HandleIsNoReply(s: State, move: Move)
    requires move.Handle?
    ensures ReplyOf(s, move) == []
  {
  }

  lemma NoAnswers(cfg: Config, s: State)
    requires Initial(cfg, s)
    ensures s.answers == []
  {
  }

  // ---------------------------------------------------------------- what has been said

  /** Answers and questions of client c, in turn. */
  ghost predicate Alternates(said: seq<Tokens>, heard: seq<Tokens>, asked: seq<Tokens>) {
    && |said| == |heard| + |asked| && |asked| <= |heard| <= |asked| + 1
    && (forall j | 0 <= j < |heard| :: said[2 * j] == heard[j])
    && (forall j | 0 <= j < |asked| :: said[2 * j + 1] == asked[j])
  }

  ghost predicate SaidIs(cfg: Config, pool: seq<Tokens>, rs: seq<Answer>, s: State, c: nat)
    requires c < |cfg.totals| == |s.rounds| == |s.said|
  {
    && s.rounds[c] == |Heard(rs, c)|
    && Alternates(s.said[c], Heard(rs, c), Questions(cfg.totals, pool, rs, c))
  }

  ghost predicate PoolIs(cfg: Config, pool: seq<Tokens>, rs: seq<Answer>, s: State) {
    Asks(cfg.totals, rs) <= |pool| && s.pool == pool[..|pool| - Asks(cfg.totals, rs)]
  }

  /** The records after the replies rs have been handled. */
  ghost predicate Spoken(cfg: Config, pool: seq<Tokens>, rs: seq<Answer>, s: State) {
    && |cfg.totals| == |s.rounds| == |s.said|
    && PoolIs(cfg, pool, rs, s)
    && forall c: nat | c < |cfg.totals| :: SaidIs(cfg, pool, rs, s, c)
  }

  lemma HeardNext(rs: seq<Answer>, a: Answer, c: nat)
    ensures Heard(rs + [a], c) == Heard(rs, c) + (if a.ok && a.client == c then [a.output] else [])
  {
    assert (rs + [a])[..|rs|] == rs;
  }

  lemma AsksNext(totals: seq<nat>, rs: seq<Answer>, a: Answer)
    ensures Asks(totals, rs + [a]) == Asks(totals, rs) + (if CallsFor(totals, rs, a) then 1 else 0)
  {
    assert (rs + [a])[..|rs|] == rs;
  }

  lemma QuestionsNext(totals: seq<nat>, pool: seq<Tokens>, rs: seq<Answer>, a: Answer, c: nat)
    ensures Questions(totals, pool, rs + [a], c)
         == Questions(totals, pool, rs, c)
            + (if a.client == c && CallsFor(totals, rs, a) then [FromTheEnd(pool, Asks(totals, rs))] else [])
  {
    assert (rs + [a])[..|rs|] == rs;
  }

  lemma HandlePool(cfg: Config, s: State, s': State)
    requires Handles(cfg, s, s') && !s'.crashed && |s.rounds| == |s.history| == |cfg.totals|
    ensures var a := s.answers[0];
            && a.client < |cfg.totals|
            && (Continues(cfg, s, a) ==> s.pool != [] && s'.pool == s.pool[..|s.pool| - 1])
            && (!Continues(cfg, s, a) ==> s'.pool == s.pool)
  {
    hide Above;
  }

  lemma AnswerIsThere(cfg: Config, s: State, s': State)
    requires Handles(cfg, s, s')
    ensures s.answers != []
  {
    hide Handled;
  }

  lemma PoolStep(cfg: Config, pool: seq<Tokens>, rs: seq<Answer>, s: State, s': State)
    requires Spoken(cfg, pool, rs, s) && |s.history| == |cfg.totals| && Handles(cfg, s, s') && !s'.crashed
    ensures PoolIs(cfg, pool, rs + [s.answers[0]], s')
    ensures Continues(cfg, s, s.answers[0]) ==>
              s.pool != [] && s.pool[|s.pool| - 1] == FromTheEnd(pool, Asks(cfg.totals, rs))
  {
    AnswerIsThere(cfg, s, s');
    hide Handles, Heard, Questions, Asks, Alternates;
    var a := s.answers[0];
    HandlePool(cfg, s, s');
    AsksNext(cfg.totals, rs, a);
    assert SaidIs(cfg, pool, rs, s, a.client);
    assert CallsFor(cfg.totals, rs, a) <==> Continues(cfg, s, a);
  }

  lemma AlternatesStep(said: seq<Tokens>, heard: seq<Tokens>, asked: seq<Tokens>, x: Tokens, q: Tokens)
    requires Alternates(said, heard, asked) && |heard| == |asked|
    ensures Alternates(said + [x], heard + [x], asked)
    ensures Alternates(said + [x] + [q], heard + [x], asked + [q])
  {
  }

  lemma SaidStep(cfg: Config, inputs: seq<Tokens>, pool: seq<Tokens>, rs: seq<Answer>, s: State, s': State, c: nat)
    requires Spoken(cfg, pool, rs, s) && Talks(cfg, inputs, s) && Placed(cfg, s) && Handles(cfg, s, s') && !s'.crashed
    requires c < |cfg.totals|
    ensures |s'.rounds| == |s'.said| == |cfg.totals| && SaidIs(cfg, pool, rs + [s.answers[0]], s', c)
  {
    AnswerIsThere(cfg, s, s');
    hide Handles, Heard, Questions, Asks, Alternates, Carries, Count, CountAnswers, FromTheEnd, PoolIs, Join;
    var a := s.answers[0];
    AnswererIsOut(cfg, s);
    HandleSays(cfg, s, s');
    HeardNext(rs, a, c);
    QuestionsNext(cfg.totals, pool, rs, a, c);
    PoolStep(cfg, pool, rs, s, s');
    assert SaidIs(cfg, pool, rs, s, c) && Told(cfg, inputs, s, c);
    var heard, asked := Heard(rs, c), Questions(cfg.totals, pool, rs, c);
    if a.ok && a.client == c {
      AlternateLengths(s.said[c], heard, asked);
      AlternatesStep(s.said[c], heard, asked, a.output, FromTheEnd(pool, Asks(cfg.totals, rs)));
    }
  }

  lemma AlternateLengths(said: seq<Tokens>, heard: seq<Tokens>, asked: seq<Tokens>)
    requires Alternates(said, heard, asked) && |said| == 2 * |heard|
    ensures |heard| == |asked|
  {
  }

  lemma HandleSpeaks(cfg: Config, inputs: seq<Tokens>, pool: seq<Tokens>, rs: seq<Answer>, s: State, s': State)
    requires Spoken(cfg, pool, rs, s) && Talks(cfg, inputs, s) && Placed(cfg, s) && Handles(cfg, s, s') && !s'.crashed
    ensures Spoken(cfg, pool, rs + [s.answers[0]], s')
  {
    AnswerIsThere(cfg, s, s');
    hide Handles, SaidIs, PoolIs, Told, Carries, PlacedClient;
    PoolStep(cfg, pool, rs, s, s');
    HandleSizes(cfg, s, s');
    forall c: nat | c < |cfg.totals| ensures SaidIs(cfg, pool, rs + [s.answers[0]], s', c) {
      SaidStep(cfg, inputs, pool, rs, s, s', c);
    }
  }

  lemma HandleSizes(cfg: Config, s: State, s': State)
    requires Handles(cfg, s, s') && |s.said| == |s.rounds| == |cfg.totals|
    ensures |s'.said| == |s'.rounds| == |cfg.totals|
  {
    hide Above;
  }

  lemma OthersAreSilent(cfg: Config, s: State, s': State, move: Move)
    requires Takes(cfg, s, s', move) && !move.Handle?
    ensures s'.rounds == s.rounds && s'.said == s.said && s'.pool == s.pool
  {
  }

  lemma SpokenStays(cfg: Config, pool: seq<Tokens>, rs: seq<Answer>, s: State, s': State)
    requires Spoken(cfg, pool, rs, s) && s'.rounds == s.rounds && s'.said == s.said && s'.pool == s.pool
    ensures Spoken(cfg, pool, rs, s')
  {
    hide Alternates, Heard, Questions, Asks;
    forall c: nat | c < |cfg.totals| ensures SaidIs(cfg, pool, rs, s', c) { assert SaidIs(cfg, pool, rs, s, c); }
  }

  lemma NothingSaid(cfg: Config, s: State)
    requires Initial(cfg, s)
    ensures Spoken(cfg, s.pool, [], s)
  {
    assert s.pool[..|s.pool|] == s.pool;
  }

  /** Once n replies have been handled, the records are what those n replies and the pool make them. */
  lemma {:induction false} RecordsFollowReplies(cfg: Config, run: seq<State>, moves: seq<Move>, i: nat)
    requires IsRun(cfg, run, moves) && i < |run|
    ensures HandleCount(moves, i) <= |Replies(run, moves, i)|
    ensures Spoken(cfg, run[0].pool, Replies(run, moves, i)[..HandleCount(moves, i)], run[i])
  {
    hide Takes, Inv, Initial, Spoken, Talks, Placed, ReplyOf;
    AnswersAreFifo(cfg, run, moves, i);
    if i == 0 {
      NothingSaid(cfg, run[0]);
    } else {
      var s, s', move := run[i - 1], run[i], moves[i - 1];
      RecordsFollowReplies(cfg, run, moves, i - 1);
      AnswersAreFifo(cfg, run, moves, i - 1);
      RunKeepsInv(cfg, run, moves, i - 1);
      RunKeepsInv(cfg, run, moves, i);
      InvParts(cfg, s);
      InvParts(cfg, s');
      assert Takes(cfg, run[i - 1], run[i - 1 + 1], moves[i - 1]);
      var rs, n := Replies(run, moves, i - 1), HandleCount(moves, i - 1);
      if move.Handle? {
        HandleIsNoReply(s, move);
        TakesHandles(cfg, s, s', move);
        RunsTalk(cfg, run, moves, i - 1);
        assert rs[n] == rs[n..][0] == s.answers[0];
        HandleSpeaks(cfg, run[0].history, run[0].pool, rs[..n], s, s');
        assert rs[..n + 1] == rs[..n] + [rs[n]] && rs + [] == rs;
      } else {
        OthersAreSilent(cfg, s, s', move);
        SpokenStays(cfg, run[0].pool, rs[..n], s, s');
        assert (rs + ReplyOf(s, move))[..n] == rs[..n];
      }
    }
  }

  lemma TakesHandles(cfg: Config, s: State, s': State, move: Move)
    requires Takes(cfg, s, s', move) && move.Handle?
    ensures Handles(cfg, s, s') && s.answers != []
  {
    hide Handled;
  }

  // ---------------------------------------------------------------- the theorems

  lemma {:induction false} HeardGrows(rs: seq<Answer>, n: nat, c: nat)
    requires n <= |rs|
    ensures Heard(rs[..n], c) <= Heard(rs, c)
  {
    if n < |rs| {
      HeardGrows(rs[..|rs| - 1], n, c);
      assert rs[..|rs| - 1][..n] == rs[..n];
    } else {
      assert rs[..n] == rs;
    }
  }

  lemma {:induction false} QuestionsGrow(totals: seq<nat>, pool: seq<Tokens>, rs: seq<Answer>, n: nat, c: nat)
    requires n <= |rs|
    ensures Questions(totals, pool, rs[..n], c) <= Questions(totals, pool, rs, c)
  {
    hide CallsFor, Asks;
    if n < |rs| {
      QuestionsGrow(totals, pool, rs[..|rs| - 1], n, c);
      assert rs[..|rs| - 1][..n] == rs[..n];
    } else {
      assert rs[..n] == rs;
    }
  }

  lemma SaidAt(cfg: Config, run: seq<State>, moves: seq<Move>, i: nat, c: nat, k: nat)
    requires IsRun(cfg, run, moves) && i < |run| && c < |run[i].said| && 2 * k + 1 < |run[i].said[c]|
    ensures var rs := Replies(run, moves, i);
            && c < |cfg.totals| && k < |Heard(rs, c)| && k < |Questions(cfg.totals, run[0].pool, rs, c)|
            && run[i].said[c][2 * k] == Heard(rs, c)[k]
            && run[i].said[c][2 * k + 1] == Questions(cfg.totals, run[0].pool, rs, c)[k]
  {
    hide Takes, Initial, Heard, Questions, Asks, PoolIs;
    var rs, n, pool := Replies(run, moves, i), HandleCount(moves, i), run[0].pool;
    RecordsFollowReplies(cfg, run, moves, i);
    assert SaidIs(cfg, pool, rs[..n], run[i], c);
    HeardGrows(rs, n, c);
    QuestionsGrow(cfg.totals, pool, rs, n, c);
  }

  /** A client's first request is its first input. */
  lemma FirstRequestIs(cfg: Config, run: seq<State>, moves: seq<Move>, i: nat, p: nat)
    requires IsRun(cfg, run, moves) && i < |run| && p < |run[i].log|
    requires Count(run[i].log[..p], run[i].log[p].client) == 0
    ensures var r := run[i].log[p]; r.client < |run[0].history| && r.payload == run[0].history[r.client]
  {
    hide Takes, Initial, Count;
    RequestsCarryTheTalk(cfg, run, moves, i, p);
    var r := run[i].log[p];
    assert run[i].said[r.client][..0] == [];
    assert run[0].history[r.client] + [] == run[0].history[r.client];
  }

  /**
    A client's next request is the one before it, the server's next successful reply to the client, and
    a question: questions are taken from the end of the pool in the order of the replies that call for them.
   */
  lemma NextRequestIs(cfg: Config, run: seq<State>, moves: seq<Move>, i: nat, p: nat, q: nat)
    requires IsRun(cfg, run, moves) && i < |run|
    requires p < q < |run[i].log| && run[i].log[p].client == run[i].log[q].client
    requires Count(run[i].log[p + 1..q], run[i].log[p].client) == 0
    ensures var log, c, rs := run[i].log, run[i].log[p].client, Replies(run, moves, i);
            var k := Count(log[..p], c);
            && k < |Heard(rs, c)| && k < |Questions(cfg.totals, run[0].pool, rs, c)|
            && log[q].payload == log[p].payload + Heard(rs, c)[k] + Questions(cfg.totals, run[0].pool, rs, c)[k]
  {
    hide Takes, Initial, Heard, Questions, Asks, Count, Replies;
    var c := run[i].log[p].client;
    HistoriesGrow(cfg, run, moves, i, p, q);
    SaidAt(cfg, run, moves, i, c, Count(run[i].log[..p], c));
  }
}
