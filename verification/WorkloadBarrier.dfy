/**
  The barrier between rounds, and the theorems about whole runs of the workload generator.
 */
module WorkloadBarrier {
  import opened Workload
  import opened WorkloadRuns

  // ---------------------------------------------------------------- counting clients

  /** Of the first n clients, those that have finished round b. */
  function DoneCount(totals: seq<nat>, rounds: seq<nat>, b: nat, n: nat): (k: nat)
    requires n <= |totals| == |rounds|
  {
    if n == 0 then 0
    else DoneCount(totals, rounds, b, n - 1) + (if totals[n - 1] > b && rounds[n - 1] == b + 1 then 1 else 0)
  }

  /** Of those, the ones with a further round to go. */
  function HeldCount(totals: seq<nat>, rounds: seq<nat>, b: nat, n: nat): (k: nat)
    requires n <= |totals| == |rounds|
  {
    if n == 0 then 0
    else HeldCount(totals, rounds, b, n - 1) + (if totals[n - 1] > b + 1 && rounds[n - 1] == b + 1 then 1 else 0)
  }

  lemma {:induction false} CountsStep(totals: seq<nat>, rounds: seq<nat>, b: nat, n: nat, c: nat)
    requires n <= |totals| == |rounds| && c < |rounds| && rounds[c] == b < totals[c]
    ensures var rounds' := rounds[c := b + 1];
            && DoneCount(totals, rounds', b, n) == DoneCount(totals, rounds, b, n) + (if c < n then 1 else 0)
            && HeldCount(totals, rounds', b, n)
               == HeldCount(totals, rounds, b, n) + (if c < n && totals[c] > b + 1 then 1 else 0)
  {
    if n > 0 { CountsStep(totals, rounds, b, n - 1, c); }
  }

  /** All of a round's clients are done exactly when as many are done as take part. */
  lemma {:induction false} AllDone(totals: seq<nat>, rounds: seq<nat>, b: nat, n: nat)
    requires n <= |totals| == |rounds|
    ensures DoneCount(totals, rounds, b, n) <= Above(totals, b, n)
    ensures DoneCount(totals, rounds, b, n) == Above(totals, b, n)
       <==> forall c | 0 <= c < n && totals[c] > b :: rounds[c] == b + 1
  {
    if n > 0 { AllDone(totals, rounds, b, n - 1); }
  }

  lemma {:induction false} AllHeld(totals: seq<nat>, rounds: seq<nat>, b: nat, n: nat)
    requires n <= |totals| == |rounds|
    requires forall c | 0 <= c < n && totals[c] > b :: rounds[c] == b + 1
    ensures HeldCount(totals, rounds, b, n) == Above(totals, b + 1, n)
  {
    if n > 0 { AllHeld(totals, rounds, b, n - 1); }
  }

  lemma {:induction false} NoneDone(totals: seq<nat>, rounds: seq<nat>, b: nat, n: nat)
    requires n <= |totals| == |rounds|
    requires forall c | 0 <= c < n :: rounds[c] <= b
    ensures DoneCount(totals, rounds, b, n) == 0 && HeldCount(totals, rounds, b, n) == 0
  {
    if n > 0 { NoneDone(totals, rounds, b, n - 1); }
  }

  // ---------------------------------------------------------------- the barrier's invariant

  /** Client c has done every round before b; any request of it that is not held back is one of round b. */
  ghost predicate InRound(cfg: Config, s: State, c: nat)
    requires c < |cfg.totals| == |s.rounds|
  {
    var b := s.barrierRound;
    && (if cfg.totals[c] <= b then s.rounds[c] == cfg.totals[c] else b <= s.rounds[c] <= b + 1)
    && (Live(s, c) > 0 ==> s.rounds[c] == b)
    && (Count(s.held, c) > 0 ==> s.rounds[c] == b + 1)
    && (c in s.failed ==> s.rounds[c] == b)
  }

  /** The barrier's counters, of which extra successes are not counted yet. */
  ghost predicate Barred(cfg: Config, s: State, extra: nat)
    requires |s.rounds| == |cfg.totals|
  {
    var n, b := |cfg.totals|, s.barrierRound;
    && (forall c | 0 <= c < n :: InRound(cfg, s, c))
    && s.barrierCount + extra == DoneCount(cfg.totals, s.rounds, b, n)
    && |s.held| == HeldCount(cfg.totals, s.rounds, b, n)
  }

  /** The round is not over while clients of it are. */
  ghost predicate RoundOpen(cfg: Config, s: State) {
    s.barrierCount < ClientsPerRound(cfg, s.barrierRound) || ClientsPerRound(cfg, s.barrierRound) == 0
  }

  ghost predicate BarrierInv(cfg: Config, s: State) {
    if cfg.barrier then |s.rounds| == |cfg.totals| && Barred(cfg, s, 0) && RoundOpen(cfg, s) else s.held == []
  }

  lemma BarrierKeptByMoves(cfg: Config, s: State, s': State, move: Move)
    requires BarrierInv(cfg, s) && Takes(cfg, s, s', move) && move != Handle
    ensures BarrierInv(cfg, s')
  {
    hide Live, Count, Out;
    MovesKeepPlaces(cfg, s, s', move, 0);
    if cfg.barrier {
      forall c | 0 <= c < |cfg.totals| ensures InRound(cfg, s', c) {
        assert InRound(cfg, s, c);
        MovesKeepPlaces(cfg, s, s', move, c);
      }
    }
  }

  /** Recording a success under the barrier holds the client's next request back. */
  lemma RecordedBehindBarrier(cfg: Config, s: State, a: Answer, c: nat)
    requires a.client < |s.rounds| == |s.history| == |cfg.totals| && a.ok && cfg.barrier
    requires !Recorded(cfg, s, a).crashed && !s.crashed
    ensures var t := Recorded(cfg, s, a);
            && Live(t, c) == Live(s, c)
            && Count(t.held, c) == Count(s.held, c) + (if Continues(cfg, s, a) then One(a.client, c) else 0)
            && |t.held| == |s.held| + (if Continues(cfg, s, a) then 1 else 0)
            && t.rounds == s.rounds[a.client := s.rounds[a.client] + 1] && t.failed == s.failed
            && t.barrierRound == s.barrierRound && t.barrierCount == s.barrierCount
            && t.outbox == s.outbox
  {
    hide Count, CountAnswers;
    if Continues(cfg, s, a) {
      CountPush(s.held, Request(a.client, s.history[a.client] + a.output + s.pool[|s.pool| - 1]), c);
    }
  }

  lemma BarredAfterRecord(cfg: Config, s: State, a: Answer)
    requires cfg.barrier && Placed(cfg, s) && Barred(cfg, s, 0) && s.answers != [] && a == s.answers[0] && a.ok
    requires a.client < |cfg.totals| && !Recorded(cfg, s.(answers := s.answers[1..]), a).crashed
    ensures var t := Recorded(cfg, s.(answers := s.answers[1..]), a);
            Barred(cfg, t, 1) && t.barrierRound == s.barrierRound
                && s.rounds[a.client] == s.barrierRound < cfg.totals[a.client]
  {
    hide Count, CountAnswers, Recorded;
    var s1 := s.(answers := s.answers[1..]);
    var t := Recorded(cfg, s1, a);
    AnswererIsOut(cfg, s);
    assert InRound(cfg, s, a.client);
    assert Live(s, a.client) > 0;
    RecordedBehindBarrier(cfg, s1, a, a.client);
    CountsStep(cfg.totals, s.rounds, s.barrierRound, |cfg.totals|, a.client);
    forall c | 0 <= c < |cfg.totals| ensures InRound(cfg, t, c) {
      assert InRound(cfg, s, c) && PlacedClient(cfg, s, c);
      CountAnswersFirst(s.answers, c);
      RecordedBehindBarrier(cfg, s1, a, c);
    }
  }

  /** The last success of a round finds nobody else in it: no request out, nobody failed. */
  lemma ReleaseIsClean(cfg: Config, t: State, c: nat)
    requires |t.rounds| == |cfg.totals| && Barred(cfg, t, 1) && c < |cfg.totals|
    requires t.barrierCount + 1 == ClientsPerRound(cfg, t.barrierRound)
    ensures cfg.totals[c] > t.barrierRound ==> t.rounds[c] == t.barrierRound + 1 && Live(t, c) == 0 && c !in t.failed
    ensures |t.held| == ClientsPerRound(cfg, t.barrierRound + 1)
  {
    hide Live, Count;
    AllDone(cfg.totals, t.rounds, t.barrierRound, |cfg.totals|);
    AllHeld(cfg.totals, t.rounds, t.barrierRound, |cfg.totals|);
    assert InRound(cfg, t, c);
  }

  lemma LiveIsUnfinished(cfg: Config, s: State, c: nat)
    requires Placed(cfg, s) && c < |cfg.totals|
    ensures Live(s, c) > 0 || Count(s.held, c) > 0 || c in s.failed ==> s.rounds[c] < cfg.totals[c]
  {
    hide Live, Count;
    assert PlacedClient(cfg, s, c);
  }

  lemma ReleasedPlaces(cfg: Config, t: State, c: nat)
    requires t.outbox == []
    ensures var u := t.(outbox := t.held, held := [], barrierRound := t.barrierRound + 1, barrierCount := 0);
            Live(u, c) == Live(t, c) + Count(t.held, c) && Count(u.held, c) == 0
  {
    hide CountAnswers;
  }

  lemma BarredAfterRelease(cfg: Config, t: State, u: State)
    requires |t.rounds| == |cfg.totals| && Barred(cfg, t, 1) && t.outbox == []
    requires t.barrierCount + 1 == ClientsPerRound(cfg, t.barrierRound)
    requires u == t.(outbox := t.held, held := [], barrierRound := t.barrierRound + 1, barrierCount := 0)
    requires forall c | 0 <= c < |cfg.totals| ::
               Live(t, c) > 0 || c in t.failed ==> t.rounds[c] < cfg.totals[c]
    ensures Barred(cfg, u, 0) && RoundOpen(cfg, u)
  {
    hide Live, Count;
    forall c | 0 <= c < |cfg.totals| ensures InRound(cfg, u, c) && u.rounds[c] <= u.barrierRound {
      assert InRound(cfg, t, c);
      ReleaseIsClean(cfg, t, c);
      ReleasedPlaces(cfg, t, c);
    }
    NoneDone(cfg.totals, u.rounds, u.barrierRound, |cfg.totals|);
  }

  lemma UnfinishedAfterRecord(cfg: Config, s: State, a: Answer, c: nat)
    requires cfg.barrier && Placed(cfg, s) && s.answers != [] && a == s.answers[0] && a.ok && c < |cfg.totals|
    requires a.client < |cfg.totals| && !Recorded(cfg, s.(answers := s.answers[1..]), a).crashed
    ensures var t := Recorded(cfg, s.(answers := s.answers[1..]), a);
            Live(t, c) > 0 || c in t.failed ==> t.rounds[c] < cfg.totals[c]
  {
    hide Count, CountAnswers, Recorded;
    AnswererIsOut(cfg, s);
    LiveIsUnfinished(cfg, s, c);
    CountAnswersFirst(s.answers, c);
    RecordedBehindBarrier(cfg, s.(answers := s.answers[1..]), a, c);
  }

  lemma BarrierKeptBySuccess(cfg: Config, s: State, s': State)
    requires cfg.barrier && Placed(cfg, s) && Barred(cfg, s, 0) && ValidConfig(cfg)
    requires Handles(cfg, s, s') && !s'.crashed && s.answers[0].ok
    ensures Barred(cfg, s', 0) && RoundOpen(cfg, s')
    ensures s'.barrierRound != s.barrierRound ==>
              s'.barrierRound == s.barrierRound + 1 && |s'.outbox| == ClientsPerRound(cfg, s'.barrierRound)
                  && s'.failed == {}
  {
    var a, s1 := s.answers[0], s.(answers := s.answers[1..]);
    var t := Recorded(cfg, s1, a);
    var b := s.barrierRound;
    RecordedKeepsOutbox(cfg, s1, a);
    BarredAfterRecord(cfg, s, a);
    hide Live, Count, Recorded, Barred;
    assert s' == Counted(cfg, t);
    assert |t.rounds| == |cfg.totals| by { RecordedBehindBarrier(cfg, s1, a, 0); }
    if t.barrierCount + 1 == ClientsPerRound(cfg, b) {
      forall c | 0 <= c < |cfg.totals| ensures Live(t, c) > 0 || c in t.failed ==> t.rounds[c] < cfg.totals[c] {
        UnfinishedAfterRecord(cfg, s, a, c);
      }
      BarredAfterRelease(cfg, t, s');
      ReleaseIsClean(cfg, t, a.client);
      NobodyFailed(cfg, s, t, a);
    } else {
      BarredAfterCount(cfg, t, s');
    }
  }

  lemma BarredAfterCount(cfg: Config, t: State, u: State)
    requires |t.rounds| == |cfg.totals| && Barred(cfg, t, 1)
    requires t.barrierCount + 1 != ClientsPerRound(cfg, t.barrierRound)
    requires u == t.(barrierCount := t.barrierCount + 1)
    ensures Barred(cfg, u, 0) && RoundOpen(cfg, u)
  {
    AllDone(cfg.totals, t.rounds, t.barrierRound, |cfg.totals|);
    forall c | 0 <= c < |cfg.totals| ensures InRound(cfg, u, c) { assert InRound(cfg, t, c); }
  }

  lemma NobodyFailed(cfg: Config, s: State, t: State, a: Answer)
    requires cfg.barrier && Placed(cfg, s) && s.answers != [] && a == s.answers[0] && a.ok && a.client < |cfg.totals|
    requires t == Recorded(cfg, s.(answers := s.answers[1..]), a) && !t.crashed
    requires |t.rounds| == |cfg.totals| && Barred(cfg, t, 1)
    requires t.barrierCount + 1 == ClientsPerRound(cfg, t.barrierRound)
    ensures t.failed == {}
  {
    forall c | c in t.failed ensures false {
      hide Live, Count, Recorded;
      RecordedBehindBarrier(cfg, s.(answers := s.answers[1..]), a, c);
      assert PlacedClient(cfg, s, c);
      assert InRound(cfg, t, c);
      ReleaseIsClean(cfg, t, c);
      UnfinishedAfterRecord(cfg, s, a, c);
    }
  }

  lemma BarrierKeptByFailure(cfg: Config, s: State, s': State)
    requires cfg.barrier && Placed(cfg, s) && BarrierInv(cfg, s)
    requires Handles(cfg, s, s') && !s.answers[0].ok
    ensures BarrierInv(cfg, s') && s'.barrierRound == s.barrierRound
  {
    hide Count, CountAnswers;
    AnswererIsOut(cfg, s);
    forall c | 0 <= c < |cfg.totals| ensures InRound(cfg, s', c) {
      assert InRound(cfg, s, c);
      CountAnswersFirst(s.answers, c);
    }
  }

  // ---------------------------------------------------------------- all invariants over all runs

  ghost predicate Inv(cfg: Config, s: State) {
    && Placed(cfg, s) && Stocked(cfg, s) && Limited(cfg, s) && Faithful(s) && Accounted(s) && BarrierInv(cfg, s)
  }

  lemma BarrierStays(cfg: Config, s: State, s': State, move: Move)
    requires ValidConfig(cfg) && Placed(cfg, s) && BarrierInv(cfg, s) && Takes(cfg, s, s', move) && !s'.crashed
    ensures BarrierInv(cfg, s')
  {
    hide Barred, RoundOpen, Handled, Live;
    if move != Handle {
      BarrierKeptByMoves(cfg, s, s', move);
    } else if cfg.barrier && s.answers[0].ok {
      BarrierKeptBySuccess(cfg, s, s');
      HandleRecords(cfg, s, s');
    } else if cfg.barrier {
      BarrierKeptByFailure(cfg, s, s');
    } else {
      NothingHeld(cfg, s, s');
    }
  }

  lemma NothingHeld(cfg: Config, s: State, s': State)
    requires !cfg.barrier && s.held == [] && Handles(cfg, s, s')
    ensures s'.held == []
  {
  }

  lemma InvStays(cfg: Config, s: State, s': State, move: Move)
    requires ValidConfig(cfg) && Inv(cfg, s) && Takes(cfg, s, s', move)
    ensures Inv(cfg, s')
  {
    hide Placed, Stocked, Limited, Faithful, Accounted, BarrierInv, Takes;
    assert !s.crashed by { PlacedIsAlive(cfg, s); }
    StockSuffices(cfg, s, s', move);
    PlacesStay(cfg, s, s', move);
    LimitStays(cfg, s, s', move);
    FaithfulStays(cfg, s, s', move);
    AccountStays(cfg, s, s', move);
    BarrierStays(cfg, s, s', move);
  }

  lemma PlacedIsAlive(cfg: Config, s: State)
    requires Placed(cfg, s)
    ensures !s.crashed
  {
  }

  lemma {:induction false} FirstRequestsCount(history: seq<Tokens>, n: nat, c: nat)
    requires n <= |history|
    ensures Count(FirstRequests(history)[..n], c) == (if c < n then 1 else 0)
  {
    if n > 0 {
      FirstRequestsCount(history, n - 1, c);
      assert FirstRequests(history)[..n][..n - 1] == FirstRequests(history)[..n - 1];
    }
  }

  lemma InitialPlaces(cfg: Config, s: State, c: nat)
    requires Initial(cfg, s)
    ensures Live(s, c) == (if c < |cfg.totals| then 1 else 0) && Count(s.held, c) == 0 && Out(s, c) == 0
            && Count(s.log, c) == 0
  {
    FirstRequestsCount(s.history, |s.history|, c);
    assert s.ready[..|s.ready|] == s.ready;
  }

  lemma InitialInv(cfg: Config, s: State)
    requires Initial(cfg, s)
    ensures Inv(cfg, s)
  {
    hide Live, Count, Out;
    forall c: nat ensures PlacedClient(cfg, s, c) && AccountedClient(s, c) { InitialPlaces(cfg, s, c); }
    if cfg.barrier {
      NoneDone(cfg.totals, s.rounds, 0, |cfg.totals|);
      forall c | 0 <= c < |cfg.totals| ensures InRound(cfg, s, c) { InitialPlaces(cfg, s, c); }
    }
  }

  lemma {:induction false} RunKeepsInv(cfg: Config, run: seq<State>, moves: seq<Move>, i: nat)
    requires IsRun(cfg, run, moves) && i < |run|
    ensures ValidConfig(cfg) && Inv(cfg, run[i])
  {
    hide Inv, Takes;
    if i == 0 {
      InitialInv(cfg, run[0]);
    } else {
      RunKeepsInv(cfg, run, moves, i - 1);
      assert Takes(cfg, run[i - 1], run[i - 1 + 1], moves[i - 1]);
      InvStays(cfg, run[i - 1], run[i], moves[i - 1]);
    }
  }

  // ---------------------------------------------------------------- the theorems

  /** Requests in flight never exceed the limit, and the pool of sub-questions is never popped empty. */
  lemma FlightIsBounded(cfg: Config, run: seq<State>, moves: seq<Move>, i: nat)
    requires IsRun(cfg, run, moves) && i < |run| && cfg.maxParallel >= 0
    ensures |run[i].flying| <= run[i].sent - run[i].completed <= cfg.maxParallel
    ensures !run[i].crashed
  {
    RunKeepsInv(cfg, run, moves, i);
  }

  /**
    Barrier safety: when a client has a request of round r + 1 ready, being sent or out, every client
    that takes part in round r has had its round-r request answered with success.
   */
  lemma NoRequestOvertakesItsRound(cfg: Config, run: seq<State>, moves: seq<Move>, i: nat, c: nat, d: nat, r: nat)
    requires IsRun(cfg, run, moves) && i < |run| && cfg.barrier
    requires c < |cfg.totals| == |run[i].rounds| && d < |cfg.totals|
    requires Live(run[i], c) > 0 && run[i].rounds[c] == r + 1
    requires cfg.totals[d] > r
    ensures run[i].rounds[d] >= r + 1
    ensures Count(run[i].log, d) >= r + 1
  {
    hide Live, Count, Out;
    RunKeepsInv(cfg, run, moves, i);
    assert InRound(cfg, run[i], c) && InRound(cfg, run[i], d) && AccountedClient(run[i], d);
  }

  /**
    A release hands out exactly as many requests as the next round has clients, and only after a round
    without failures.
   */
  lemma ReleaseIsExact(cfg: Config, run: seq<State>, moves: seq<Move>, i: nat)
    requires IsRun(cfg, run, moves) && i + 1 < |run| && cfg.barrier
    requires run[i + 1].barrierRound != run[i].barrierRound
    ensures run[i + 1].barrierRound == run[i].barrierRound + 1
    ensures |run[i + 1].outbox| == ClientsPerRound(cfg, run[i + 1].barrierRound)
    ensures run[i + 1].failed == {}
  {
    RunKeepsInv(cfg, run, moves, i);
    RunKeepsInv(cfg, run, moves, i + 1);
    hide Barred, Live, Handled;
    var s, s', move := run[i], run[i + 1], moves[i];
    assert Takes(cfg, s, s', move);
    if move != Handle {
      MovesKeepPlaces(cfg, s, s', move, 0);
    } else if s.answers[0].ok {
      BarrierKeptBySuccess(cfg, s, s');
    } else {
      BarrierKeptByFailure(cfg, s, s');
    }
  }

  /** Failures are never forgotten. */
  lemma FailuresStay(cfg: Config, run: seq<State>, moves: seq<Move>, i: nat)
    requires IsRun(cfg, run, moves) && i + 1 < |run|
    ensures run[i].failed <= run[i + 1].failed
  {
    RunKeepsInv(cfg, run, moves, i);
    RunKeepsInv(cfg, run, moves, i + 1);
    hide Live, BarrierInv, Faithful, Accounted, Limited, Stocked, Handled;
    var s, s', move := run[i], run[i + 1], moves[i];
    assert Takes(cfg, s, s', move);
    if move == Handle { HandleRecords(cfg, s, s'); } else { MovesKeepPlaces(cfg, s, s', move, 0); }
  }

  /** Once a request has failed, no later round is ever released. */
  lemma {:induction false} FailureStopsTheBarrier(cfg: Config, run: seq<State>, moves: seq<Move>, i: nat, j: nat)
    requires IsRun(cfg, run, moves) && i <= j < |run| && cfg.barrier && run[i].failed != {}
    ensures run[j].barrierRound == run[i].barrierRound && run[i].failed <= run[j].failed
  {
    hide Initial, Takes;
    if i < j {
      FailureStopsTheBarrier(cfg, run, moves, i, j - 1);
      FailuresStay(cfg, run, moves, j - 1);
      if run[j - 1 + 1].barrierRound != run[j - 1].barrierRound {
        ReleaseIsExact(cfg, run, moves, j - 1);
      }
    }
  }

  // ---------------------------------------------------------------- runs without failures

  /** Nothing is left to do: no request anywhere. */
  ghost predicate Drained(s: State) {
    s.ready == [] && !s.sender.Holding? && s.flying == [] && s.answers == [] && s.outbox == [] && s.held == []
  }

  lemma {:induction false} LogLength(log: seq<Request>, n: nat)
    requires forall i | 0 <= i < |log| :: log[i].client < n
    ensures |log| == SumCounts(log, n)
  {
    if log == [] {
      NoCounts(n);
    } else {
      LogLength(log[..|log| - 1], n);
      AddCount(log[..|log| - 1], log[|log| - 1], n);
      assert log == log[..|log| - 1] + [log[|log| - 1]];
    }
  }

  function SumCounts(log: seq<Request>, n: nat): (k: nat) {
    if n == 0 then 0 else SumCounts(log, n - 1) + Count(log, n - 1)
  }

  lemma {:induction false} NoCounts(n: nat)
    ensures SumCounts([], n) == 0
  {
    if n > 0 { NoCounts(n - 1); }
  }

  lemma {:induction false} AddCount(log: seq<Request>, r: Request, n: nat)
    ensures SumCounts(log + [r], n) == SumCounts(log, n) + (if r.client < n then 1 else 0)
  {
    hide Count;
    if n > 0 {
      AddCount(log, r, n - 1);
      CountPush(log, r, n - 1);
    }
  }

  lemma {:induction false} SumOfTotals(log: seq<Request>, totals: seq<nat>, n: nat)
    requires n <= |totals| && forall c: nat | c < n :: Count(log, c) == totals[c]
    ensures SumCounts(log, n) == Total(totals, n)
  {
    if n > 0 { SumOfTotals(log, totals, n - 1); }
  }

  /** A run without failures that has nothing left to do has sent every client exactly its rounds. */
  lemma DrainedRunIsComplete(cfg: Config, run: seq<State>, moves: seq<Move>, i: nat)
    requires IsRun(cfg, run, moves) && i < |run| && run[i].failed == {} && Drained(run[i])
    ensures forall c: nat | c < |cfg.totals| :: Count(run[i].log, c) == cfg.totals[c]
    ensures run[i].sent == |run[i].log| == Total(cfg.totals, |cfg.totals|)
  {
    var s := run[i];
    RunKeepsInv(cfg, run, moves, i);
    forall c: nat | c < |cfg.totals| ensures Count(s.log, c) == cfg.totals[c] {
      assert PlacedClient(cfg, s, c) && AccountedClient(s, c);
    }
    hide Live, BarrierInv, Accounted, Stocked, Count;
    SumOfTotals(s.log, cfg.totals, |cfg.totals|);
    LogLength(s.log, |cfg.totals|);
  }

  /** Without failures the barrier never holds requests back for good: something else is under way. */
  lemma HeldMeansBusy(cfg: Config, s: State)
    requires Placed(cfg, s) && BarrierInv(cfg, s) && s.failed == {}
    requires s.ready == [] && !s.sender.Holding? && s.flying == [] && s.answers == [] && s.outbox == []
    ensures s.held == []
  {
    if s.held != [] && cfg.barrier {
      var c, b := s.held[0].client, s.barrierRound;
      CountHas(s.held, 0);
      assert PlacedClient(cfg, s, c) && InRound(cfg, s, c);
      forall d | 0 <= d < |cfg.totals| && cfg.totals[d] > b ensures s.rounds[d] == b + 1 {
        assert PlacedClient(cfg, s, d) && InRound(cfg, s, d);
      }
      AllDone(cfg.totals, s.rounds, b, |cfg.totals|);
      AboveIsPositive(cfg.totals, b, |cfg.totals|, c);
    }
  }

  lemma {:induction false} AboveIsPositive(totals: seq<nat>, r: nat, n: nat, c: nat)
    requires c < n <= |totals| && totals[c] > r
    ensures Above(totals, r, n) > 0
  {
    if c < n - 1 { AboveIsPositive(totals, r, n - 1, c); }
  }
}
