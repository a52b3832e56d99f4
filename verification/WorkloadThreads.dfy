/**
  The code of the workload generator: its round plan, its ready queue, and what its two threads do,
  step by step. Every thread method is proved to be a move of the machine in Workload.
 */
module WorkloadThreads {
  import opened Workload

  // ---------------------------------------------------------------- the round plan

  /** Rounds each client may have: the two bounds default to one another and to the common count. */
  datatype Bounds = Bounds(lo: int, hi: int) | Rejected

  function ResolveBounds(minRounds: int, maxRounds: int, numRounds: int): (b: Bounds)
    ensures b.Bounds? ==> 1 <= b.lo <= b.hi
    ensures b.Bounds? && minRounds != 0 && maxRounds != 0 ==> b == Bounds(minRounds, maxRounds)
    ensures b.Bounds? && minRounds != 0 && maxRounds == 0 ==> b == Bounds(minRounds, minRounds)
    ensures b.Bounds? && minRounds == 0 && maxRounds != 0 ==> b == Bounds(maxRounds, maxRounds)
    ensures b.Bounds? && minRounds == 0 && maxRounds == 0 ==> b == Bounds(numRounds, numRounds)
    ensures b.Rejected? <==>
              || (minRounds == 0 && maxRounds == 0 && numRounds < 1)
              || (minRounds == 0 && maxRounds < 0)
              || (minRounds != 0 && (minRounds < 1 || (maxRounds != 0 && minRounds > maxRounds)))
  {
    var lo := if minRounds == 0 then (if maxRounds == 0 then numRounds else maxRounds) else minRounds;
    var hi := if maxRounds == 0 then (if minRounds == 0 then numRounds else minRounds) else maxRounds;
    if lo < 1 || lo > hi then Rejected else Bounds(lo, hi)
  }

  /** The number of clients of every round, and of requests in all. */
  method PlanRounds(totals: seq<nat>, maxRounds: nat) returns (clients: seq<nat>, total: nat)
    ensures |clients| == maxRounds
    ensures forall r | 0 <= r < maxRounds :: clients[r] == Above(totals, r, |totals|)
    ensures forall r | 0 <= r < maxRounds :: clients[r] == |set c: nat | c < |totals| && totals[c] > r|
    ensures total == Total(totals, |totals|)
  {
    clients, total := [], 0;
    for r := 0 to maxRounds
      invariant |clients| == r && forall q | 0 <= q < r :: clients[q] == Above(totals, q, |totals|)
    {
      var k := 0;
      for i := 0 to |totals|
        invariant k == Above(totals, r, i)
      {
        if totals[i] > r { k := k + 1; }
      }
      clients := clients + [k];
    }
    for i := 0 to |totals|
      invariant total == Total(totals, i)
    {
      total := total + totals[i];
    }
    forall r | 0 <= r < maxRounds ensures clients[r] == |set c: nat | c < |totals| && totals[c] > r| {
      AboveIsCount(totals, r, |totals|);
    }
  }

  // ---------------------------------------------------------------- the ready queue

  datatype Popped = Nothing | Item(req: Request) | UnknownPolicy

  class ReadyQueue {
    var requests: seq<Request>
    const policy: string

    constructor (requests: seq<Request>, policy: string)
      ensures this.requests == requests && this.policy == policy
    {
      this.requests, this.policy := requests, policy;
    }

    method Append(item: Request)
      modifies this
      ensures requests == old(requests) + [item]
    {
      requests := requests + [item];
    }

    /** Takes out one request: any of them under policy random (pick is the random draw), the oldest under fifo. */
    method Pop(pick: nat) returns (p: Popped)
      modifies this
      ensures old(requests) == [] ==> p == Nothing && requests == []
      ensures old(requests) != [] && policy != "random" && policy != "fifo" ==>
                p == UnknownPolicy && requests == old(requests)
      ensures old(requests) != [] && (policy == "random" || policy == "fifo") ==>
                var i := if policy == "random" then pick % |old(requests)| else 0;
                p == Item(old(requests)[i]) && requests == old(requests)[..i] + old(requests)[i + 1..]
    {
      if requests == [] { return Nothing; }
      if policy == "random" {
        var i := pick % |requests|;
        p := Item(requests[i]);
        requests := requests[..i] + requests[i + 1..];
      } else if policy == "fifo" {
        p := Item(requests[0]);
        requests := requests[..0] + requests[1..];
      } else {
        p := UnknownPolicy;
      }
    }
  }

  // ---------------------------------------------------------------- the threads

  lemma AskedIs(cfg: Config, s: State, c: nat)
    requires c < |s.history|
    ensures s.pool == [] ==> Asked(cfg, s, c) == s.(crashed := true)
    ensures s.pool != [] ==>
              var q := s.pool[|s.pool| - 1];
              var r := Request(c, s.history[c] + q);
              Asked(cfg, s, c) == s.(history := s.history[c := r.payload], pool := s.pool[..|s.pool| - 1],
                                     said := Say(s.said, c, q),
                                     held := if cfg.barrier then s.held + [r] else s.held,
                                     outbox := if cfg.barrier then s.outbox else [r])
  {
  }

  lemma RecordedIs(cfg: Config, s: State, a: Answer)
    requires a.client < |s.rounds| && a.client < |s.history| && a.client < |cfg.totals|
    ensures var t := Grown(s, a);
            Recorded(cfg, s, a) == if s.rounds[a.client] + 1 < cfg.totals[a.client] then Asked(cfg, t, a.client) else t
  {
  }

  class WorkloadGenerator {
    const cfg: Config
    const clientsPerRound: seq<nat>
    const queue: ReadyQueue
    var sender: Sender
    var flying: seq<Request>
    var answers: seq<Answer>
    var outbox: seq<Request>
    var nextRoundReqs: seq<Request>
    var rounds: seq<nat>
    var history: seq<Tokens>
    var subQuestions: seq<Tokens>
    var currentBarrierRound: nat
    var barrierRoundCompleted: nat
    var sentRequests: int
    var completedRequests: int
    var crashed: bool
    ghost var log: seq<Request>
    ghost var failed: set<nat>
    ghost var said: seq<seq<Tokens>>

    ghost function View(): (s: State)
      reads this, queue
    {
      State(queue.requests, sender, flying, answers, outbox, nextRoundReqs, rounds, history, subQuestions,
            currentBarrierRound, barrierRoundCompleted, sentRequests, completedRequests, crashed, log, failed, said)
    }

    ghost predicate Known(reqs: seq<Request>) {
      forall i | 0 <= i < |reqs| :: reqs[i].client < |cfg.totals|
    }

    lemma KnownPush(reqs: seq<Request>, r: Request)
      requires Known(reqs) && r.client < |cfg.totals|
      ensures Known(reqs + [r]) && Known([r]) && Known([])
    {
    }

    ghost predicate Planned() {
      && |clientsPerRound| == cfg.maxRounds
      && forall r | 0 <= r < cfg.maxRounds :: clientsPerRound[r] == ClientsPerRound(cfg, r)
    }

    ghost predicate Valid()
      reads this, queue
    {
      && |rounds| == |history| == |cfg.totals| && Planned()
      && (forall i | 0 <= i < |answers| :: answers[i].client < |cfg.totals|)
      && (sender.Holding? ==> sender.req.client < |cfg.totals|)
      && Known(queue.requests) && Known(flying) && Known(outbox) && Known(nextRoundReqs)
    }

    constructor (cfg: Config, inputs: seq<Tokens>, subQuestions: seq<Tokens>, policy: string)
      requires ValidConfig(cfg) && |inputs| == |cfg.totals|
      requires var n := Needed(cfg.totals, seq(|inputs|, c => 0), |inputs|); |subQuestions| == if n == 0 then 1 else n
      ensures Valid() && fresh(queue) && this.cfg == cfg && history == inputs && queue.policy == policy
      ensures Initial(cfg, View())
    {
      this.cfg := cfg;
      var clients, total := PlanRounds(cfg.totals, cfg.maxRounds);
      clientsPerRound := clients;
      queue := new ReadyQueue(FirstRequests(inputs), policy);
      sender, flying, answers, outbox, nextRoundReqs := Idle, [], [], [], [];
      rounds, history, this.subQuestions := seq(|inputs|, c => 0), inputs, subQuestions;
      currentBarrierRound, barrierRoundCompleted, sentRequests, completedRequests, crashed := 0, 0, 0, 0, false;
      log, failed, said := [], {}, seq(|inputs|, c => []);
    }

    /** The sender's limit check. */
    method CheckLimit() returns (clear: bool)
      requires Valid() && sender == Idle
      modifies this`sender
      ensures Valid()
      ensures clear <==> sentRequests - completedRequests < cfg.maxParallel
      ensures if clear then Takes(cfg, old(View()), View(), Check) else View() == old(View())
    {
      clear := sentRequests - completedRequests < cfg.maxParallel;
      if clear { sender := Cleared; }
    }

    /** The sender takes a request from the ready queue, if there is one; it raises an error on an unknown policy. */
    method TakeReady(pick: nat) returns (raised: bool)
      requires Valid() && sender == Cleared
      modifies this`sender, queue
      ensures Valid()
      ensures raised <==> old(queue.requests) != [] && queue.policy != "random" && queue.policy != "fifo"
      ensures raised ==> View() == old(View())
      ensures !raised ==> exists i: nat :: Takes(cfg, old(View()), View(), Pop(i))
    {
      hide WorkloadGenerator.Planned;
      ghost var before, reqs := View(), queue.requests;
      ghost var i: nat := if reqs == [] then 0 else if queue.policy == "random" then pick % |reqs| else 0;
      var p := queue.Pop(pick);
      if p.UnknownPolicy? { return true; }
      sender := if p.Item? then Holding(p.req) else Idle;
      assert Takes(cfg, before, View(), Pop(i));
      return false;
    }

    /** The sender starts the request it holds. */
    method StartRequest()
      requires Valid() && sender.Holding?
      modifies this`sender, this`flying, this`sentRequests, this`log
      ensures Valid()
      ensures Takes(cfg, old(View()), View(), Launch)
    {
      hide WorkloadGenerator.Planned, WorkloadGenerator.Known;
      KnownPush(flying, sender.req);
      flying := flying + [sender.req];
      log := log + [sender.req];
      sentRequests := sentRequests + 1;
      sender := Idle;
    }

    /** The i-th request in flight comes back, with success or without: its answer is put into the response queue. */
    method FinishRequest(i: nat, ok: bool, output: Tokens)
      requires Valid() && i < |flying|
      modifies this`flying, this`answers
      ensures Valid()
      ensures Takes(cfg, old(View()), View(), Reply(i, ok, output))
    {
      hide WorkloadGenerator.Planned;
      answers := answers + [Answer(flying[i].client, ok, output)];
      flying := flying[..i] + flying[i + 1..];
    }

    /** The handler passes one released request on. */
    method AppendReady()
      requires Valid() && outbox != []
      modifies this`outbox, queue
      ensures Valid()
      ensures Takes(cfg, old(View()), View(), Deliver)
    {
      hide WorkloadGenerator.Planned;
      queue.Append(outbox[0]);
      outbox := outbox[1..];
    }

    /** Appends to a client's history. */
    method Extend(c: nat, x: Tokens)
      requires Valid() && c < |cfg.totals|
      modifies this`history, this`said
      ensures Valid()
      ensures View() == old(View()).(history := old(history)[c := old(history)[c] + x], said := Say(old(said), c, x))
    {
      hide WorkloadGenerator.Planned, WorkloadGenerator.Known, Say;
      history := history[c := history[c] + x];
      said := Say(said, c, x);
    }

    /** The client's next request: held back under the barrier, else on its way to the ready queue. */
    method AskNext(c: nat)
      requires Valid() && c < |cfg.totals|
      modifies this`history, this`subQuestions, this`nextRoundReqs, this`outbox, this`crashed, this`said
      ensures Valid() && View() == Asked(cfg, old(View()), c)
    {
      hide WorkloadGenerator.Planned, WorkloadGenerator.Known, Say, Asked;
      AskedIs(cfg, View(), c);
      if subQuestions == [] {
        crashed := true;
        return;
      }
      var subQ := subQuestions[|subQuestions| - 1];
      subQuestions := subQuestions[..|subQuestions| - 1];
      Extend(c, subQ);
      var newReq := Request(c, history[c]);
      PassOn(newReq);
    }

    /** A new request is held back under the barrier, and else on its way to the ready queue. */
    method PassOn(r: Request)
      requires Valid() && r.client < |cfg.totals|
      modifies this`nextRoundReqs, this`outbox
      ensures Valid()
      ensures View() == old(View()).(held := if cfg.barrier then old(nextRoundReqs) + [r] else old(nextRoundReqs),
                                     outbox := if cfg.barrier then old(outbox) else [r])
    {
      hide WorkloadGenerator.Planned, WorkloadGenerator.Known;
      KnownPush(nextRoundReqs, r);
      if cfg.barrier {
        nextRoundReqs := nextRoundReqs + [r];
      } else {
        outbox := [r];
      }
    }

    /** A successful answer extends its client's history and may yield the client's next request. */
    method RecordResponse(a: Answer)
      requires Valid() && a.client < |cfg.totals|
      modifies this
      ensures Valid() && answers == old(answers) && View() == Recorded(cfg, old(View()), a)
    {
      hide WorkloadGenerator.Planned, WorkloadGenerator.Known, Say, Asked, Recorded;
      var c := a.client;
      RecordedIs(cfg, View(), a);
      Extend(c, a.output);
      rounds := rounds[c := rounds[c] + 1];
      completedRequests := completedRequests + 1;
      assert View() == Grown(old(View()), a);
      hide Grown;
      if rounds[c] < cfg.totals[c] {
        AskNext(c);
      }
    }

    /** The barrier: the last success of a round releases the requests held back for the next. */
    method CountTowardsBarrier()
      requires Valid()
      modifies this
      ensures Valid() && View() == Counted(cfg, old(View()))
    {
      if cfg.barrier && currentBarrierRound < cfg.maxRounds {
        barrierRoundCompleted := barrierRoundCompleted + 1;
        var expected := clientsPerRound[currentBarrierRound];
        if barrierRoundCompleted == expected {
          outbox := nextRoundReqs;
          nextRoundReqs := [];
          currentBarrierRound := currentBarrierRound + 1;
          barrierRoundCompleted := 0;
        }
      }
    }

    /** The handler's work on one answer. */
    method HandleResponse()
      requires Valid() && outbox == [] && answers != [] && !crashed
      modifies this
      ensures Valid()
      ensures Takes(cfg, old(View()), View(), Handle)
    {
      hide WorkloadGenerator.Planned, WorkloadGenerator.Known;
      hide Recorded, Counted;
      var a := answers[0];
      answers := answers[1..];
      if !a.ok {
        completedRequests := completedRequests + 1;
        failed := failed + {a.client};
        return;
      }
      RecordResponse(a);
      if crashed { return; }
      CountTowardsBarrier();
    }
  }
}
