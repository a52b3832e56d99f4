/**
  What the requests carry: the k-th request of a client is its first input followed by the first k
  answers it was given, each with the sub-question that followed it.
 */
module WorkloadTalk {
  import opened Workload
  import opened WorkloadRuns
  import opened WorkloadBarrier

  function Join(parts: seq<Tokens>): (all: Tokens) {
    if parts == [] then [] else Join(parts[..|parts| - 1]) + parts[|parts| - 1]
  }

  lemma JoinNext(parts: seq<Tokens>, x: Tokens)
    ensures Join(parts + [x]) == Join(parts) + x
  {
    assert (parts + [x])[..|parts|] == parts;
  }

  /** A client's history is what has been said; while rounds are left, every answer has had its question. */
  ghost predicate Told(cfg: Config, inputs: seq<Tokens>, s: State, c: nat)
    requires c < |cfg.totals| == |inputs| == |s.history| == |s.rounds| == |s.said|
  {
    && s.history[c] == inputs[c] + Join(s.said[c])
    && |s.said[c]| <= 2 * s.rounds[c]
    && (s.rounds[c] < cfg.totals[c] ==> |s.said[c]| == 2 * s.rounds[c])
  }

  /** The request at position p of the log carries what had been said before its client's earlier requests were k. */
  ghost predicate Carries(inputs: seq<Tokens>, said: seq<seq<Tokens>>, log: seq<Request>, p: nat)
    requires p < |log|
  {
    var c := log[p].client;
    var k := Count(log[..p], c);
    && c < |inputs| && c < |said| && 2 * k <= |said[c]|
    && log[p].payload == inputs[c] + Join(said[c][..2 * k])
  }

  ghost predicate Talks(cfg: Config, inputs: seq<Tokens>, s: State) {
    && |cfg.totals| == |inputs| == |s.history| == |s.rounds| == |s.said|
    && (forall c | 0 <= c < |inputs| :: Told(cfg, inputs, s, c))
    && forall p | 0 <= p < |s.log| :: Carries(inputs, s.said, s.log, p)
  }

  /** What was carried is carried still when more is said. */
  lemma CarriesOn(inputs: seq<Tokens>, said: seq<seq<Tokens>>, said': seq<seq<Tokens>>, log: seq<Request>, p: nat)
    requires p < |log| && Carries(inputs, said, log, p)
    requires |said'| == |said| && forall c | 0 <= c < |said| :: said[c] <= said'[c]
    ensures Carries(inputs, said', log, p)
  {
    hide Count, Join;
    var c, k := log[p].client, Count(log[..p], log[p].client);
    assert said'[c][..2 * k] == said[c][..2 * k];
  }

  /** A launched request carries all that has been said. */
  lemma LaunchTalks(cfg: Config, inputs: seq<Tokens>, s: State, s': State)
    requires Talks(cfg, inputs, s) && Placed(cfg, s) && Faithful(s) && Accounted(s) && Launches(s, s')
    ensures Talks(cfg, inputs, s')
  {
    hide Count, CountAnswers, Join;
    var r, n := s.sender.req, |s.log|;
    var c := r.client;
    assert PlacedClient(cfg, s, c) && AccountedClient(s, c);
    assert [r][0] == r;
    assert Told(cfg, inputs, s, c);
    forall d | 0 <= d < |inputs| ensures Told(cfg, inputs, s', d) { assert Told(cfg, inputs, s, d); }
    forall p | 0 <= p < |s'.log| ensures Carries(inputs, s'.said, s'.log, p) {
      if p < n {
        assert Carries(inputs, s.said, s.log, p);
        assert s'.log[..p] == s.log[..p];
      } else {
        assert s'.log[..p] == s.log;
        assert s.said[c][..2 * s.rounds[c]] == s.said[c];
      }
    }
  }

  /** What an answer adds to the records. */
  lemma HandleSays(cfg: Config, s: State, s': State)
    requires Handles(cfg, s, s') && !s'.crashed && |s.said| == |s.history| == |s.rounds| == |cfg.totals|
    ensures var a := s.answers[0];
            var c := a.client;
            && s'.log == s.log && |s'.said| == |s.said| && |s'.history| == |s.history| && |s'.rounds| == |s.rounds|
            && (forall d | 0 <= d < |s.said| && (d != c || !a.ok) ::
                  s'.said[d] == s.said[d] && s'.history[d] == s.history[d] && s'.rounds[d] == s.rounds[d])
            && (a.ok && s.rounds[c] + 1 < cfg.totals[c] ==>
                  s.pool != [] && s'.rounds[c] == s.rounds[c] + 1
                  && var q := s.pool[|s.pool| - 1];
                     s'.said[c] == s.said[c] + [a.output] + [q] && s'.history[c] == s.history[c] + a.output + q)
            && (a.ok && s.rounds[c] + 1 >= cfg.totals[c] ==>
                  s'.rounds[c] == s.rounds[c] + 1
                  && s'.said[c] == s.said[c] + [a.output] && s'.history[c] == s.history[c] + a.output)
  {
    hide Above;
  }

  lemma HandleTalks(cfg: Config, inputs: seq<Tokens>, s: State, s': State)
    requires Talks(cfg, inputs, s) && Placed(cfg, s) && Handles(cfg, s, s') && !s'.crashed
    ensures Talks(cfg, inputs, s')
  {
    hide Count, Join, Handled;
    AnswererIsOut(cfg, s);
    HandleSays(cfg, s, s');
    var a := s.answers[0];
    var c := a.client;
    forall d | 0 <= d < |inputs| ensures Told(cfg, inputs, s', d) {
      assert Told(cfg, inputs, s, d);
      if d == c && a.ok {
        JoinNext(s.said[c], a.output);
        if s.rounds[c] + 1 < cfg.totals[c] { JoinNext(s.said[c] + [a.output], s.pool[|s.pool| - 1]); }
      }
    }
    forall p | 0 <= p < |s'.log| ensures Carries(inputs, s'.said, s'.log, p) {
      assert Carries(inputs, s.said, s.log, p);
      CarriesOn(inputs, s.said, s'.said, s.log, p);
    }
  }

  lemma MovesTalk(cfg: Config, inputs: seq<Tokens>, s: State, s': State, move: Move)
    requires Talks(cfg, inputs, s) && Placed(cfg, s) && Faithful(s) && Accounted(s) && Takes(cfg, s, s', move)
             && !s'.crashed
    ensures Talks(cfg, inputs, s')
  {
    hide Count, Faithful, Accounted, Carries, Handles;
    if move == Handle {
      HandleTalks(cfg, inputs, s, s');
    } else if move == Launch {
      LaunchTalks(cfg, inputs, s, s');
    } else {
      MovesKeepPlaces(cfg, s, s', move, 0);
      forall c | 0 <= c < |inputs| ensures Told(cfg, inputs, s', c) { assert Told(cfg, inputs, s, c); }
    }
  }

  lemma {:induction false} RunsTalk(cfg: Config, run: seq<State>, moves: seq<Move>, i: nat)
    requires IsRun(cfg, run, moves) && i < |run|
    ensures Talks(cfg, run[0].history, run[i])
  {
    hide Takes, Inv, Talks, Placed, Faithful, Accounted, Initial;
    if i == 0 {
      TalkAtFirst(cfg, run[0]);
    } else {
      RunsTalk(cfg, run, moves, i - 1);
      RunKeepsInv(cfg, run, moves, i - 1);
      RunKeepsInv(cfg, run, moves, i);
      InvParts(cfg, run[i - 1]);
      InvParts(cfg, run[i]);
      assert Takes(cfg, run[i - 1], run[i - 1 + 1], moves[i - 1]);
      MovesTalk(cfg, run[0].history, run[i - 1], run[i], moves[i - 1]);
    }
  }

  lemma TalkAtFirst(cfg: Config, s: State)
    requires Initial(cfg, s)
    ensures Talks(cfg, s.history, s)
  {
    forall c | 0 <= c < |s.history| ensures Told(cfg, s.history, s, c) { assert s.history[c] + [] == s.history[c]; }
  }

  lemma InvParts(cfg: Config, s: State)
    requires Inv(cfg, s)
    ensures Placed(cfg, s) && Faithful(s) && Accounted(s) && !s.crashed
  {
  }

  // ---------------------------------------------------------------- the theorems

  /**
    Every request carries its client's first input and everything said before it: each answer and the
    question after it.
   */
  lemma RequestsCarryTheTalk(cfg: Config, run: seq<State>, moves: seq<Move>, i: nat, p: nat)
    requires IsRun(cfg, run, moves) && i < |run| && p < |run[i].log|
    ensures Carries(run[0].history, run[i].said, run[i].log, p)
  {
    hide Talks, Carries, Initial, Takes;
    RunsTalk(cfg, run, moves, i);
    TalksCarry(cfg, run[0].history, run[i], p);
  }

  lemma TalksCarry(cfg: Config, inputs: seq<Tokens>, s: State, p: nat)
    requires Talks(cfg, inputs, s) && p < |s.log|
    ensures Carries(inputs, s.said, s.log, p)
  {
  }

  /** A client's next request is the one before it, the answer to that, and the next sub-question. */
  lemma HistoriesGrow(cfg: Config, run: seq<State>, moves: seq<Move>, i: nat, p: nat, q: nat)
    requires IsRun(cfg, run, moves) && i < |run|
    requires p < q < |run[i].log| && run[i].log[p].client == run[i].log[q].client
    requires Count(run[i].log[p + 1..q], run[i].log[p].client) == 0
    ensures var s, c := run[i], run[i].log[p].client;
            var k := Count(s.log[..p], c);
            && c < |s.said| && 2 * k + 1 < |s.said[c]|
            && s.log[q].payload == s.log[p].payload + s.said[c][2 * k] + s.said[c][2 * k + 1]
  {
    hide Initial, Takes, Count, Join;
    var s, c := run[i], run[i].log[p].client;
    RequestsCarryTheTalk(cfg, run, moves, i, p);
    RequestsCarryTheTalk(cfg, run, moves, i, q);
    var k := Count(s.log[..p], c);
    assert s.log[..q] == s.log[..p] + [s.log[p]] + s.log[p + 1..q];
    CountConcat(s.log[..p] + [s.log[p]], s.log[p + 1..q], c);
    CountPush(s.log[..p], s.log[p], c);
    var said := s.said[c];
    assert said[..2 * k + 1] == said[..2 * k] + [said[2 * k]];
    assert said[..2 * k + 2] == said[..2 * k + 1] + [said[2 * k + 1]];
    JoinNext(said[..2 * k], said[2 * k]);
    JoinNext(said[..2 * k + 1], said[2 * k + 1]);
  }
}
