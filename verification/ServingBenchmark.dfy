/**
  The serving benchmark's code: filling the queue, dispatching, and the request coroutine, whose
  pieces between awaits are proved to be moves of the machine in Reenqueue.
 */
module ServingBenchmark {
  import opened Reenqueue
  import opened ReenqueueProgress
  import opened ReenqueueLog

  /** The sum the request coroutine computes before it sends. */
  method PromptLength(prompts: seq<Prompt>, k: nat) returns (n: int)
    requires k < |prompts|
    ensures n == PromptLen(prompts, k)
  {
    n := 0;
    for i := 0 to k
      invariant n == Spent(prompts, i)
    {
      n := n + (prompts[i].inputLen + prompts[i].outputLen);
    }
    n := n + prompts[k].inputLen;
  }

  /** The length of the next prompt adds the answer in between and the prompt itself. */
  lemma PromptLenNext(prompts: seq<Prompt>, k: nat)
    requires k < |prompts|
    ensures k == 0 ==> PromptLen(prompts, k) == prompts[0].inputLen
    ensures k > 0 ==>
              PromptLen(prompts, k) == PromptLen(prompts, k - 1) + prompts[k - 1].outputLen + prompts[k].inputLen
  {
  }

  /** The first k prompts of a conversation, each on its own. */
  function Alone(prompts: seq<Prompt>, k: nat): (out: seq<seq<Prompt>>)
    requires k <= |prompts|
    ensures |out| == k
  {
    if k == 0 then [] else Alone(prompts, k - 1) + [[prompts[k - 1]]]
  }

  /** Shared prefixes: every prompt of the first n groups becomes a conversation of its own. */
  function Flattened(plan: seq<seq<Prompt>>, n: nat): (out: seq<seq<Prompt>>)
    requires n <= |plan|
    ensures |out| == Total(plan, n)
  {
    if n == 0 then [] else Flattened(plan, n - 1) + Alone(plan[n - 1], |plan[n - 1]|)
  }

  lemma {:induction false} AloneHasOne(prompts: seq<Prompt>, k: nat, i: nat)
    requires i < k <= |prompts|
    ensures |Alone(prompts, k)[i]| == 1
  {
    if i < k - 1 { AloneHasOne(prompts, k - 1, i); }
  }

  lemma {:induction false} FlattenedHasOne(plan: seq<seq<Prompt>>, n: nat, i: nat)
    requires n <= |plan| && i < |Flattened(plan, n)|
    ensures |Flattened(plan, n)[i]| == 1
  {
    var before := Flattened(plan, n - 1);
    if i < |before| { FlattenedHasOne(plan, n - 1, i); } else { AloneHasOne(plan[n - 1], |plan[n - 1]|, i - |before|); }
  }

  lemma {:induction false} AloneIs(prompts: seq<Prompt>, n: nat, k: nat)
    requires k < n <= |prompts|
    ensures Alone(prompts, n)[k] == [prompts[k]]
  {
    if k < n - 1 { AloneIs(prompts, n - 1, k); }
  }

  lemma {:induction false} TotalGrows(plan: seq<seq<Prompt>>, c: nat, n: nat)
    requires c < n <= |plan|
    ensures Total(plan, c) + |plan[c]| <= Total(plan, n)
  {
    if c < n - 1 { TotalGrows(plan, c, n - 1); }
  }

  /** Prompt k of group c becomes a conversation of that prompt alone, behind those of all groups before it. */
  lemma {:induction false} FlattenedIs(plan: seq<seq<Prompt>>, n: nat, c: nat, k: nat)
    requires c < n <= |plan| && k < |plan[c]|
    ensures Total(plan, c) + k < |Flattened(plan, n)| && Flattened(plan, n)[Total(plan, c) + k] == [plan[c][k]]
  {
    TotalGrows(plan, c, n);
    if c < n - 1 {
      TotalGrows(plan, c, n - 1);
      FlattenedIs(plan, n - 1, c, k);
    } else {
      AloneIs(plan[c], |plan[c]|, k);
    }
  }

  lemma {:induction false} Singles(plan: seq<seq<Prompt>>, n: nat)
    requires n <= |plan| && forall i | 0 <= i < n :: |plan[i]| == 1
    ensures Total(plan, n) == n
  {
    if n > 0 { Singles(plan, n - 1); }
  }

  /** Flattening does not change how many requests the dispatcher will take. */
  lemma FlatteningKeepsTheTotal(plan: seq<seq<Prompt>>)
    ensures var flat := Flattened(plan, |plan|); Total(flat, |flat|) == Total(plan, |plan|)
  {
    var flat := Flattened(plan, |plan|);
    forall i | 0 <= i < |flat| ensures |flat[i]| == 1 { FlattenedHasOne(plan, |plan|, i); }
    Singles(flat, |flat|);
  }

  /** The number of requests, and the conversations to queue. */
  method PrepareRequests(plan: seq<seq<Prompt>>, sharedPrefix: bool) returns (n: nat, requests: seq<seq<Prompt>>)
    ensures n == Total(plan, |plan|) == Total(requests, |requests|)
    ensures requests == if sharedPrefix then Flattened(plan, |plan|) else plan
  {
    n := 0;
    for c := 0 to |plan|
      invariant n == Total(plan, c)
    {
      n := n + |plan[c]|;
    }
    requests := plan;
    if sharedPrefix {
      requests := [];
      for c := 0 to |plan|
        invariant requests == Flattened(plan, c)
      {
        for k := 0 to |plan[c]|
          invariant requests == Flattened(plan, c) + Alone(plan[c], k)
        {
          requests := requests + [[plan[c][k]]];
        }
      }
      FlatteningKeepsTheTotal(plan);
    }
  }

  /** Every conversation, queued in order and not begun. */
  method EnqueueAll(plan: seq<seq<Prompt>>) returns (queue: seq<nat>, convs: seq<Conversation>, status: seq<Status>)
    ensures |queue| == |convs| == |status| == |plan|
    ensures forall c | 0 <= c < |plan| ::
              queue[c] == c && convs[c] == Conversation(plan[c], [], 0) && status[c] == Queued
  {
    queue, convs, status := [], [], [];
    for c := 0 to |plan|
      invariant |queue| == |convs| == |status| == c
      invariant forall d | 0 <= d < c ::
                  queue[d] == d && convs[d] == Conversation(plan[d], [], 0) && status[d] == Queued
    {
      queue, convs, status := queue + [c], convs + [Conversation(plan[c], [], 0)], status + [Queued];
    }
  }

  class Benchmark {
    const cfg: Config
    const planned: nat
    var queue: seq<nat>
    var convs: seq<Conversation>
    var status: seq<Status>
    var running: nat
    var dispatched: nat
    var blocked: seq<nat>
    ghost var log: seq<Sent>
    ghost var replies: seq<seq<Reply>>

    ghost function View(): (s: State)
      reads this
    {
      State(queue, convs, status, dispatched, blocked, log, replies)
    }

    ghost predicate Valid()
      reads this
    {
      && Shaped(cfg, View()) && planned == Planned(cfg) && running == CountRunning(status, |status|)
      && (forall i | 0 <= i < |queue| :: queue[i] < |cfg.plan|)
      && (forall c | 0 <= c < |status| && status[c] == Running :: convs[c].finished < |convs[c].prompts|)
    }

    /** Every conversation is put into the queue, in order. */
    constructor (cfg: Config)
      ensures this.cfg == cfg && Valid() && Initial(cfg, View())
    {
      hide Total, CountRunning;
      this.cfg := cfg;
      var n, _ := PrepareRequests(cfg.plan, false);
      planned := n;
      var q, vs, st := EnqueueAll(cfg.plan);
      NoneRunning(st, |st|);
      queue, convs, status, running, dispatched, blocked := q, vs, st, 0, 0, [];
      log, replies := [], seq(|cfg.plan|, (c: nat) => []);
    }

    /** The dispatcher's next turn: nothing once all planned requests are out or while the queue is empty. */
    method DispatchNext() returns (taken: bool)
      requires Valid() && Placed(cfg, View())
      modifies this
      ensures Valid()
      ensures taken <==> old(dispatched) < Planned(cfg) && old(queue) != []
      ensures if taken then Takes(cfg, old(View()), View(), Dispatch) else View() == old(View())
    {
      taken := dispatched < planned && queue != [];
      if taken {
        var c := queue[0];
        assert CountIn(queue, c) > 0;
        RunningStep(status, |status|, c, Waiting);
        queue, dispatched, status := queue[1..], dispatched + 1, status[c := Waiting];
      }
    }

    /**
      The task of conversation c passes the semaphore, if it can, and sends the next prompt; it raises
      an error if the conversation has none.
     */
    method SendPrompt(c: nat) returns (sent: bool, raised: bool)
      requires Valid() && c < |cfg.plan| && status[c] == Waiting
      modifies this
      ensures Valid()
      ensures sent || raised <==>
                cfg.limit == 0 || |set d: nat | d < |old(status)| && old(status)[d] == Running| < cfg.limit
      ensures raised <==> (sent || raised) && old(convs)[c].finished >= |old(convs)[c].prompts|
      ensures if sent then !raised && Takes(cfg, old(View()), View(), Start(c))
              else if raised then Takes(cfg, old(View()), View(), Break(c))
              else View() == old(View())
    {
      hide Planned, Spent;
      RunningIsCounted(status, |status|);
      sent, raised := false, false;
      if cfg.limit == 0 || running < cfg.limit {
        var v := convs[c];
        var k := v.finished;
        if k >= |v.prompts| {
          RunningStep(status, |status|, c, Failed);
          status := status[c := Failed];
          return false, true;
        }
        var promptLen := PromptLength(v.prompts, k);
        RunningStep(status, |status|, c, Running);
        running := running + 1;
        status := status[c := Running];
        convs := convs[c := v.(messages := v.messages + [User(v.prompts[k].text)])];
        log := log + [Sent(c, k, promptLen)];
        sent := true;
      }
    }

    /** A reply arrives: the conversation is updated and, if prompts are left, put back. */
    method FinishPrompt(c: nat, r: Reply)
      requires Valid() && c < |cfg.plan| && status[c] == Running
      modifies this
      ensures Valid() && Takes(cfg, old(View()), View(), Succeed(c, r))
    {
      var v := convs[c];
      var k := v.finished;
      v := v.(prompts := v.prompts[k := v.prompts[k].(outputLen := r.outputLen)]);
      v := v.(messages := v.messages + [Assistant(r.text)]);
      replies := replies[c := replies[c] + [r]];
      k := k + 1;
      if k < |v.prompts| {
        v := v.(finished := k);
        if |queue| < |cfg.plan| {
          RunningStep(status, |status|, c, Queued);
          running := running - 1;
          status := status[c := Queued];
          queue := queue + [c];
        } else {
          blocked := blocked + [c];
        }
      } else {
        RunningStep(status, |status|, c, Ended);
        running := running - 1;
        status := status[c := Ended];
      }
      convs := convs[c := v];
    }

    /** The request fails: its conversation is dropped. */
    method FailPrompt(c: nat)
      requires Valid() && c < |cfg.plan| && status[c] == Running
      modifies this
      ensures Valid() && Takes(cfg, old(View()), View(), Fail(c))
    {
      RunningStep(status, |status|, c, Failed);
      running := running - 1;
      status := status[c := Failed];
    }
  }
}
