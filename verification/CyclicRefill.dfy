/**
  Filtering chat datasets: turns that are too short or too long are pruned, and the conversations
  that keep a turn are taken round and round until enough have been collected.
 */
module CyclicRefill {
  import opened Options

  datatype Turn = Turn(prompt: string, completion: string)

  datatype Entry = Entry(prompt: string, promptLen: nat, outputLen: int)

  datatype Bounds = Bounds(minPrompt: Option<int>, minOutput: Option<int>, maxPrompt: Option<int>,
                           maxOutput: Option<int>, fixedOutput: Option<int>)

  /** The number of tokens the tokenizer makes of a text. */
  type Tokenizer = string -> nat

  // ---------------------------------------------------------------- pruning

  function EntryOf(b: Bounds, tok: Tokenizer, t: Turn): (e: Entry) {
    Entry(t.prompt, tok(t.prompt), if b.fixedOutput.None? then tok(t.completion) else b.fixedOutput.value)
  }

  /** Within every bound that is set. */
  predicate Fits(b: Bounds, e: Entry) {
    && (b.minPrompt.Some? ==> b.minPrompt.value <= e.promptLen)
    && (b.minOutput.Some? ==> b.minOutput.value <= e.outputLen)
    && (b.maxPrompt.Some? ==> e.promptLen <= b.maxPrompt.value)
    && (b.maxOutput.Some? ==> e.outputLen <= b.maxOutput.value)
  }

  /** The entries of the first n turns that fit. */
  function Kept(b: Bounds, tok: Tokenizer, conv: seq<Turn>, n: nat): (es: seq<Entry>)
    requires n <= |conv|
  {
    if n == 0 then []
    else
      var e := EntryOf(b, tok, conv[n - 1]);
      Kept(b, tok, conv, n - 1) + (if Fits(b, e) then [e] else [])
  }

  /** Of the first n conversations, those that keep a turn. */
  function Survivors(b: Bounds, tok: Tokenizer, data: seq<seq<Turn>>, n: nat): (out: seq<seq<Entry>>)
    requires n <= |data|
  {
    if n == 0 then []
    else
      var es := Kept(b, tok, data[n - 1], |data[n - 1]|);
      Survivors(b, tok, data, n - 1) + (if es != [] then [es] else [])
  }

  lemma {:induction false} KeptAreTheFitting(b: Bounds, tok: Tokenizer, conv: seq<Turn>, n: nat, e: Entry)
    requires n <= |conv|
    ensures e in Kept(b, tok, conv, n) <==> Fits(b, e) && exists i :: 0 <= i < n && e == EntryOf(b, tok, conv[i])
  {
    if n > 0 { KeptAreTheFitting(b, tok, conv, n - 1, e); }
  }

  ghost predicate Within(lo: Option<int>, hi: Option<int>, x: int) {
    (lo.Some? ==> lo.value <= x) && (hi.Some? ==> x <= hi.value)
  }

  /** A turn's output length: the fixed one, if there is one, else the number of tokens of its answer. */
  ghost function OutputOf(b: Bounds, tok: Tokenizer, t: Turn): (len: int) {
    match b.fixedOutput
    case Some(len) => len
    case None => tok(t.completion)
  }

  ghost predicate Increasing(at: seq<nat>, n: nat) {
    (forall k | 0 <= k < |at| :: at[k] < n) && forall j, k | 0 <= j < k < |at| :: at[j] < at[k]
  }

  /**
    Pruning keeps, in their order, exactly the turns whose numbers of tokens are within the prompt's and
    the output's bounds: each with its prompt and the two numbers.
   */
  lemma {:induction false} KeptInOrder(b: Bounds, tok: Tokenizer, conv: seq<Turn>, n: nat) returns (at: seq<nat>)
    requires n <= |conv|
    ensures |at| == |Kept(b, tok, conv, n)| && Increasing(at, n)
    ensures forall k | 0 <= k < |at| ::
              var t := conv[at[k]];
              Kept(b, tok, conv, n)[k] == Entry(t.prompt, tok(t.prompt), OutputOf(b, tok, t))
    ensures forall i: nat | i < n ::
              i in at <==> && Within(b.minPrompt, b.maxPrompt, tok(conv[i].prompt))
                           && Within(b.minOutput, b.maxOutput, OutputOf(b, tok, conv[i]))
  {
    at := [];
    if n > 0 {
      at := KeptInOrder(b, tok, conv, n - 1);
      assert n - 1 !in at;
      if Fits(b, EntryOf(b, tok, conv[n - 1])) { at := at + [n - 1]; }
    }
  }

  /** The conversations that keep a turn survive, in their order. */
  lemma {:induction false} SurvivorsInOrder(b: Bounds, tok: Tokenizer, data: seq<seq<Turn>>, n: nat)
    returns (at: seq<nat>)
    requires n <= |data|
    ensures |at| == |Survivors(b, tok, data, n)| && Increasing(at, n)
    ensures forall k | 0 <= k < |at| ::
              Survivors(b, tok, data, n)[k] == Kept(b, tok, data[at[k]], |data[at[k]]|)
    ensures forall i: nat | i < n :: i in at <==> Kept(b, tok, data[i], |data[i]|) != []
  {
    hide Kept;
    at := [];
    if n > 0 {
      at := SurvivorsInOrder(b, tok, data, n - 1);
      assert n - 1 !in at;
      if Kept(b, tok, data[n - 1], |data[n - 1]|) != [] { at := at + [n - 1]; }
    }
  }

  lemma {:induction false} SurvivorsGrow(b: Bounds, tok: Tokenizer, data: seq<seq<Turn>>, i: nat, n: nat)
    requires i <= n <= |data|
    ensures |Survivors(b, tok, data, i)| <= |Survivors(b, tok, data, n)|
    ensures forall k | 0 <= k < |Survivors(b, tok, data, i)| ::
              Survivors(b, tok, data, n)[k] == Survivors(b, tok, data, i)[k]
  {
    if i < n { SurvivorsGrow(b, tok, data, i, n - 1); }
  }

  lemma {:induction false} SurvivorsAreNonEmpty(b: Bounds, tok: Tokenizer, data: seq<seq<Turn>>, n: nat, k: nat)
    requires n <= |data| && k < |Survivors(b, tok, data, n)|
    ensures Survivors(b, tok, data, n)[k] != []
  {
    if k < |Survivors(b, tok, data, n - 1)| { SurvivorsAreNonEmpty(b, tok, data, n - 1, k); }
  }

  // ---------------------------------------------------------------- going round

  /** The first n elements of an endless repetition of xs. */
  function Cycle<T>(xs: seq<T>, n: nat): (ys: seq<T>)
    requires xs != []
    ensures |ys| == n && forall k | 0 <= k < n :: ys[k] == xs[k % |xs|]
  {
    seq(n, (k: nat) => xs[k % |xs|])
  }

  lemma Wrap(p: nat, m: nat, j: nat)
    requires j < m
    ensures (p * m + j) % m == j
  {
    var r := p * m + j;
    var d := r / m - p;
    assert r == r / m * m + r % m;
    assert d * m == j - r % m;
    assert d >= 1 ==> d * m >= m;
    assert d <= -1 ==> d * m + m <= 0;
  }

  function InputTokens(es: seq<Entry>, n: nat): (t: nat)
    requires n <= |es|
  {
    if n == 0 then 0 else InputTokens(es, n - 1) + es[n - 1].promptLen
  }

  function OutputTokens(es: seq<Entry>, n: nat): (t: int)
    requires n <= |es|
  {
    if n == 0 then 0 else OutputTokens(es, n - 1) + es[n - 1].outputLen
  }

  function AllInput(out: seq<seq<Entry>>, n: nat): (t: nat)
    requires n <= |out|
  {
    if n == 0 then 0 else AllInput(out, n - 1) + InputTokens(out[n - 1], |out[n - 1]|)
  }

  function AllOutput(out: seq<seq<Entry>>, n: nat): (t: int)
    requires n <= |out|
  {
    if n == 0 then 0 else AllOutput(out, n - 1) + OutputTokens(out[n - 1], |out[n - 1]|)
  }

  lemma {:induction false} TokensPrefix(es: seq<Entry>, e: Entry, n: nat)
    requires n <= |es|
    ensures InputTokens(es + [e], n) == InputTokens(es, n) && OutputTokens(es + [e], n) == OutputTokens(es, n)
  {
    if n > 0 { TokensPrefix(es, e, n - 1); }
  }

  lemma {:induction false} AllPrefix(out: seq<seq<Entry>>, es: seq<Entry>, n: nat)
    requires n <= |out|
    ensures AllInput(out + [es], n) == AllInput(out, n) && AllOutput(out + [es], n) == AllOutput(out, n)
  {
    if n > 0 { AllPrefix(out, es, n - 1); }
  }

  /** The totals of a list are its entries' own lengths added up. */
  lemma {:induction false} TokensAddUp(e: Entry, es: seq<Entry>, fs: seq<Entry>)
    ensures InputTokens([], 0) == 0 == OutputTokens([], 0)
    ensures InputTokens([e], 1) == e.promptLen && OutputTokens([e], 1) == e.outputLen
    ensures InputTokens(es + fs, |es + fs|) == InputTokens(es, |es|) + InputTokens(fs, |fs|)
    ensures OutputTokens(es + fs, |es + fs|) == OutputTokens(es, |es|) + OutputTokens(fs, |fs|)
    decreases |fs|
  {
    if fs == [] {
      assert es + fs == es;
    } else {
      var n := |fs| - 1;
      TokensAddUp(e, es, fs[..n]);
      assert es + fs == es + fs[..n] + [fs[n]] && fs == fs[..n] + [fs[n]];
      TokensPrefix(es + fs[..n], fs[n], |es| + n);
      TokensPrefix(fs[..n], fs[n], n);
    }
  }

  /** The totals of all conversations are those of all their entries in one list. */
  lemma {:induction false} AllAddsUp(out: seq<seq<Entry>>)
    ensures AllInput(out, |out|) == InputTokens(Joined(out), |Joined(out)|)
    ensures AllOutput(out, |out|) == OutputTokens(Joined(out), |Joined(out)|)
  {
    if out != [] {
      var n := |out| - 1;
      AllAddsUp(out[..n]);
      assert out == out[..n] + [out[n]];
      AllPrefix(out[..n], out[n], n);
      TokensAddUp(Entry("", 0, 0), Joined(out[..n]), out[n]);
    }
  }

  function Joined(out: seq<seq<Entry>>): (es: seq<Entry>) {
    if out == [] then [] else Joined(out[..|out| - 1]) + out[|out| - 1]
  }

  /** What the loops carry along. */
  datatype Acc = Acc(out: seq<seq<Entry>>, inputTokens: nat, outputTokens: int)

  ghost predicate Tallied(a: Acc) {
    a.inputTokens == AllInput(a.out, |a.out|) && a.outputTokens == AllOutput(a.out, |a.out|)
  }

  /** The fitting turns of a conversation, and what they add to the token counts. */
  method Prune(b: Bounds, tok: Tokenizer, conv: seq<Turn>) returns (processed: seq<Entry>, inputs: nat, outputs: int)
    ensures processed == Kept(b, tok, conv, |conv|)
    ensures inputs == InputTokens(processed, |processed|) && outputs == OutputTokens(processed, |processed|)
  {
    hide InputTokens, OutputTokens;
    processed, inputs, outputs := [], 0, 0;
    NoTokens();
    for j := 0 to |conv|
      invariant processed == Kept(b, tok, conv, j)
      invariant inputs == InputTokens(processed, |processed|) && outputs == OutputTokens(processed, |processed|)
    {
      var e := EntryOf(b, tok, conv[j]);
      if || (b.minPrompt.Some? && e.promptLen < b.minPrompt.value)
         || (b.minOutput.Some? && e.outputLen < b.minOutput.value)
         || (b.maxPrompt.Some? && e.promptLen > b.maxPrompt.value)
         || (b.maxOutput.Some? && e.outputLen > b.maxOutput.value)
      {
        continue;
      }
      inputs := inputs + e.promptLen;
      outputs := outputs + e.outputLen;
      TokensNext(processed, e);
      processed := processed + [e];
    }
  }

  lemma NoTokens()
    ensures InputTokens([], 0) == 0 && OutputTokens([], 0) == 0
  {
  }

  lemma TokensNext(es: seq<Entry>, e: Entry)
    ensures InputTokens(es + [e], |es| + 1) == InputTokens(es, |es|) + e.promptLen
    ensures OutputTokens(es + [e], |es| + 1) == OutputTokens(es, |es|) + e.outputLen
  {
    TokensPrefix(es, e, |es|);
  }

  /** One conversation: its fitting turns are counted, and appended if there are any. */
  method Process(b: Bounds, tok: Tokenizer, conv: seq<Turn>, a: Acc) returns (a': Acc)
    requires Tallied(a)
    ensures Tallied(a')
    ensures var es := Kept(b, tok, conv, |conv|); a'.out == a.out + (if es != [] then [es] else [])
    ensures Kept(b, tok, conv, |conv|) == [] ==> a' == a
  {
    hide Kept;
    var processed, inputs, outputs := Prune(b, tok, conv);
    a' := Acc(a.out, a.inputTokens + inputs, a.outputTokens + outputs);
    if |processed| != 0 {
      AllPrefix(a.out, processed, |a.out|);
      a' := a'.(out := a.out + [processed]);
    }
  }

  /** The out-list after visiting the conversations from index i on, stopping at num entries. */
  function Visit(b: Bounds, tok: Tokenizer, data: seq<seq<Turn>>, i: nat, out: seq<seq<Entry>>,
                 num: int): (out': seq<seq<Entry>>)
    requires i <= |data|
    decreases |data| - i
  {
    if i == |data| || |out| == num then out
    else
      var es := Kept(b, tok, data[i], |data[i]|);
      Visit(b, tok, data, i + 1, out + (if es != [] then [es] else []), num)
  }

  lemma {:induction false} VisitWithoutSurvivors(b: Bounds, tok: Tokenizer, data: seq<seq<Turn>>, i: nat,
                                                 out: seq<seq<Entry>>, num: int)
    requires i <= |data| && |Survivors(b, tok, data, |data|)| == |Survivors(b, tok, data, i)|
    ensures Visit(b, tok, data, i, out, num) == out
    decreases |data| - i
  {
    if i < |data| && |out| != num {
      SurvivorsGrow(b, tok, data, i + 1, |data|);
      assert Kept(b, tok, data[i], |data[i]|) == [];
      assert out + [] == out;
      VisitWithoutSurvivors(b, tok, data, i + 1, out, num);
    }
  }

  lemma {:induction false} VisitGrows(b: Bounds, tok: Tokenizer, data: seq<seq<Turn>>, i: nat,
                                      out: seq<seq<Entry>>, num: int)
    requires i <= |data|
    ensures |Visit(b, tok, data, i, out, num)| >= |out|
    ensures |Survivors(b, tok, data, |data|)| > |Survivors(b, tok, data, i)| && |out| < num ==>
              |Visit(b, tok, data, i, out, num)| > |out|
    ensures |out| <= num ==> |Visit(b, tok, data, i, out, num)| <= num
    decreases |data| - i
  {
    if i < |data| && |out| != num {
      var es := Kept(b, tok, data[i], |data[i]|);
      VisitGrows(b, tok, data, i + 1, out + (if es != [] then [es] else []), num);
    }
  }

  /** A pass over the data makes progress exactly when some conversation keeps a turn. */
  lemma PassProgressesIff(b: Bounds, tok: Tokenizer, data: seq<seq<Turn>>, out: seq<seq<Entry>>, num: int)
    requires |out| < num
    ensures Visit(b, tok, data, 0, out, num) != out <==> Survivors(b, tok, data, |data|) != []
  {
    if Survivors(b, tok, data, |data|) == [] {
      VisitWithoutSurvivors(b, tok, data, 0, out, num);
    } else {
      VisitGrows(b, tok, data, 0, out, num);
    }
  }

  function Passes(b: Bounds, tok: Tokenizer, data: seq<seq<Turn>>, k: nat, num: int): (out: seq<seq<Entry>>) {
    if k == 0 then [] else Visit(b, tok, data, 0, Passes(b, tok, data, k - 1, num), num)
  }

  /** The loop ends after some number of passes exactly when nothing is asked for or some conversation survives. */
  lemma {:induction false} LoopEndsIff(b: Bounds, tok: Tokenizer, data: seq<seq<Turn>>, num: int)
    ensures (exists k: nat :: |Passes(b, tok, data, k, num)| >= num)
       <==> num <= 0 || Survivors(b, tok, data, |data|) != []
  {
    if num <= 0 {
      assert |Passes(b, tok, data, 0, num)| >= num;
    } else if Survivors(b, tok, data, |data|) == [] {
      forall k: nat ensures |Passes(b, tok, data, k, num)| < num { StuckAtNothing(b, tok, data, k, num); }
    } else {
      EnoughPasses(b, tok, data, num, num);
    }
  }

  lemma {:induction false} StuckAtNothing(b: Bounds, tok: Tokenizer, data: seq<seq<Turn>>, k: nat, num: int)
    requires num > 0 && Survivors(b, tok, data, |data|) == []
    ensures Passes(b, tok, data, k, num) == []
  {
    if k > 0 {
      StuckAtNothing(b, tok, data, k - 1, num);
      VisitWithoutSurvivors(b, tok, data, 0, [], num);
    }
  }

  lemma {:induction false} EnoughPasses(b: Bounds, tok: Tokenizer, data: seq<seq<Turn>>, k: nat, num: int)
    requires num > 0 && Survivors(b, tok, data, |data|) != []
    ensures |Passes(b, tok, data, k, num)| <= num
    ensures |Passes(b, tok, data, k, num)| >= k || |Passes(b, tok, data, k, num)| == num
  {
    if k > 0 {
      EnoughPasses(b, tok, data, k - 1, num);
      VisitGrows(b, tok, data, 0, Passes(b, tok, data, k - 1, num), num);
    }
  }

  // ---------------------------------------------------------------- a pass adds a round

  /** base elements are whole rounds. */
  ghost predicate Rounds(base: nat, m: nat, p: nat) {
    base == p * m
  }

  lemma CycleNext<T>(xs: seq<T>, ys: seq<T>, base: nat, p: nat, j: nat)
    requires j < |xs| && |ys| == base + j && Rounds(base, |xs|, p) && ys == Cycle(xs, |ys|)
    ensures ys + [xs[j]] == Cycle(xs, |ys| + 1)
  {
    Wrap(p, |xs|, j);
  }

  lemma NextSurvivor(b: Bounds, tok: Tokenizer, data: seq<seq<Turn>>, i: nat)
    requires i < |data|
    ensures var es := Kept(b, tok, data[i], |data[i]|);
            Survivors(b, tok, data, i + 1) == Survivors(b, tok, data, i) + (if es != [] then [es] else [])
  {
    hide Kept;
  }

  /** What is left of a pass, from conversation i on, when p whole rounds and the survivors before i are out. */
  lemma {:induction false} VisitCycles(b: Bounds, tok: Tokenizer, data: seq<seq<Turn>>, i: nat, out: seq<seq<Entry>>,
                                       num: int, base: nat, p: nat)
    requires i <= |data| && Survivors(b, tok, data, |data|) != [] && |out| <= num
    requires |out| == base + |Survivors(b, tok, data, i)| && Rounds(base, |Survivors(b, tok, data, |data|)|, p)
    requires out == Cycle(Survivors(b, tok, data, |data|), |out|)
    ensures var all, out' := Survivors(b, tok, data, |data|), Visit(b, tok, data, i, out, num);
            && |out'| <= num && out' == Cycle(all, |out'|)
            && (|out'| == num || |out'| == base + |all|)
    decreases |data| - i
  {
    hide Cycle, Kept, Rounds, Survivors;
    if i < |data| && |out| != num {
      var all, es := Survivors(b, tok, data, |data|), Kept(b, tok, data[i], |data[i]|);
      SurvivorsGrow(b, tok, data, i + 1, |data|);
      NextSurvivor(b, tok, data, i);
      if es != [] {
        var j := |Survivors(b, tok, data, i)|;
        assert all[j] == es;
        CycleNext(all, out, base, p, j);
        VisitCycles(b, tok, data, i + 1, out + [es], num, base, p);
      } else {
        assert out + [] == out;
        VisitCycles(b, tok, data, i + 1, out, num, base, p);
      }
    }
  }

  // ---------------------------------------------------------------- the loop

  /** One pass over the data, as Visit describes it. */
  method Pass(b: Bounds, tok: Tokenizer, data: seq<seq<Turn>>, num: int, a: Acc) returns (a': Acc)
    requires Tallied(a)
    ensures Tallied(a') && a'.out == Visit(b, tok, data, 0, a.out, num)
  {
    hide Tallied, Kept;
    a' := a;
    for i := 0 to |data|
      invariant Tallied(a')
      invariant Visit(b, tok, data, 0, a.out, num) == Visit(b, tok, data, i, a'.out, num)
    {
      if |a'.out| == num { return; }
      a' := Process(b, tok, data[i], a');
    }
  }

  /**
    The filter: exactly num non-empty entries, entry k being survivor k modulo their number, and
    token totals that are the sums over the result.
   */
  method CommonFilterChat(num: int, data: seq<seq<Turn>>, b: Bounds, tok: Tokenizer) returns (a: Acc)
    requires num > 0 ==> Survivors(b, tok, data, |data|) != []
    ensures |a.out| == if num > 0 then num else 0
    ensures num > 0 ==> a.out == Cycle(Survivors(b, tok, data, |data|), num)
    ensures forall k | 0 <= k < |a.out| :: a.out[k] != []
    ensures a.inputTokens == AllInput(a.out, |a.out|) && a.outputTokens == AllOutput(a.out, |a.out|)
  {
    hide Survivors, Visit;
    a := Acc([], 0, 0);
    if num <= 0 { return; }
    ghost var all, p := Survivors(b, tok, data, |data|), 0;
    NoneYet(b, tok, data);
    while |a.out| < num
      invariant Tallied(a) && |a.out| <= num && a.out == Cycle(all, |a.out|)
      invariant |a.out| == num || |a.out| == p * |all|
      decreases num - |a.out|
    {
      VisitCycles(b, tok, data, 0, a.out, num, |a.out|, p);
      assert (p + 1) * |all| == p * |all| + |all|;
      a := Pass(b, tok, data, num, a);
      p := p + 1;
    }
    forall k | 0 <= k < |a.out| ensures a.out[k] != [] {
      SurvivorsAreNonEmpty(b, tok, data, |data|, k % |all|);
    }
  }

  lemma NoneYet(b: Bounds, tok: Tokenizer, data: seq<seq<Turn>>)
    ensures Survivors(b, tok, data, 0) == []
  {
  }
}
