/**
  The mixed benchmark's user generator as a state machine: users are made or taken from the timed
  queue, and after an answer queued again with a longer prompt.
 */
module UserRuns {
  import opened TimedQueue

  /** A prompt to draw, with its number of tokens. */
  datatype Candidate = Candidate(prompt: string, len: int)

  /** Rounds, and per round the mean number of tokens to return and the mean pause before it. */
  datatype Config = Config(numRounds: nat, meanReturn: seq<int>, meanInterval: seq<real>)

  predicate ValidConfig(cfg: Config) {
    |cfg.meanReturn| == |cfg.meanInterval| == cfg.numRounds
  }

  // ---------------------------------------------------------------- making and advancing users

  function Show(n: nat): (s: string) {
    var digit := ['0' + (n % 10) as char];
    if n < 10 then digit else Show(n / 10) + digit
  }

  /** The number of tokens to ask for: the draw, or the round's mean if the draw is not positive. */
  function TokensFor(cfg: Config, round: nat, draw: int): (t: int)
    requires ValidConfig(cfg) && round < cfg.numRounds
  {
    if draw <= 0 then cfg.meanReturn[round] else draw
  }

  function StartFor(cfg: Config, round: nat, now: real, interval: real): (t: real)
    requires ValidConfig(cfg) && round < cfg.numRounds
  {
    now + if interval <= 0.0 then cfg.meanInterval[round] else interval
  }

  /** A new user, whose prompt begins with its number. */
  function NewUser(cfg: Config, id: nat, total: nat, x: Candidate, draw: int): (u: User)
    requires ValidConfig(cfg) && 0 < cfg.numRounds
  {
    User(id, 0, total, Show(id) + " " + x.prompt, TokensFor(cfg, 0, draw), 0.0)
  }

  /** The user after an answer: next round, longer prompt, new start time. */
  function Advanced(cfg: Config, u: User, text: string, x: Candidate, draw: int, start: real): (u': User)
    requires ValidConfig(cfg) && u.round + 1 < cfg.numRounds
  {
    u.(round := u.round + 1, prompt := u.prompt + (text + x.prompt),
       returnTokens := TokensFor(cfg, u.round + 1, draw), start := start)
  }

  // ---------------------------------------------------------------- the machine

  /** One round's statistics: tokens and how often some were added. */
  datatype Tally = Tally(tokens: int, count: nat)

  function Added(ts: seq<Tally>, r: nat, tokens: int): (ts': seq<Tally>)
    requires r < |ts|
    ensures |ts'| == |ts|
  {
    ts[r := Tally(ts[r].tokens + tokens, ts[r].count + 1)]
  }

  /**
    queue: users waiting; out: users whose request is under way; nextId: users made so far; inputs and
    outputs: per round, prompts drawn and answers received; users: how many users have each number of
    rounds; popped and answered: requests handed out and answers received so far.
   */
  datatype State = State(queue: seq<User>, out: seq<User>, nextId: nat, inputs: seq<Tally>, outputs: seq<Tally>,
                         users: seq<nat>, popped: nat, answered: nat)

  ghost predicate Initial(cfg: Config, s: State) {
    var n := cfg.numRounds;
    && ValidConfig(cfg)
    && s == State([], [], 0, seq(n, (r: nat) => Tally(0, 0)), seq(n, (r: nat) => Tally(0, 0)),
                  seq(n, (r: nat) => 0), 0, 0)
  }

  datatype Move =
    | Pop(now: real, total: nat, x: Candidate, draw: int)
    | Push(i: nat, text: string, itl: nat, x: Candidate, draw: int, start: real)
    | Drop(i: nat)

  ghost predicate IsDue(s: State, now: real) {
    s.queue != [] && now > s.queue[0].start
  }

  /** Pop: the first waiting user if its time has come, else a new one. */
  ghost predicate Pops(cfg: Config, s: State, s': State, now: real, total: nat, x: Candidate, draw: int) {
    if IsDue(s, now) then
      s' == s.(queue := s.queue[1..], out := s.out + [s.queue[0]], popped := s.popped + 1)
    else
      && ValidConfig(cfg) && 1 <= total <= cfg.numRounds == |s.inputs| == |s.users|
      && s' == s.(out := s.out + [NewUser(cfg, s.nextId, total, x, draw)], nextId := s.nextId + 1,
                  inputs := Added(s.inputs, 0, x.len), users := s.users[total - 1 := s.users[total - 1] + 1],
                  popped := s.popped + 1)
  }

  function WithoutAt(q: seq<User>, i: nat): (q': seq<User>)
    requires i < |q|
  {
    q[..i] + q[i + 1..]
  }

  /** Push: an answer ends a round; a user with rounds left is queued with its next prompt. */
  ghost predicate Pushes(cfg: Config, s: State, s': State, i: nat, text: string, itl: nat, x: Candidate, draw: int,
                         start: real)
  {
    && ValidConfig(cfg) && |s.inputs| == |s.outputs| == cfg.numRounds
    && i < |s.out| && s.out[i].round < s.out[i].total <= cfg.numRounds
    && var u := s.out[i];
       var t := s.(out := WithoutAt(s.out, i), outputs := Added(s.outputs, u.round, itl + 1),
                   answered := s.answered + 1);
       s' == if u.round + 1 >= u.total then t
             else t.(inputs := Added(s.inputs, u.round + 1, x.len),
                     queue := AsWritten(s.queue, Advanced(cfg, u, text, x, draw, start)))
  }

  ghost predicate Takes(cfg: Config, s: State, s': State, move: Move) {
    match move
    case Pop(now, total, x, draw) => Pops(cfg, s, s', now, total, x, draw)
    case Push(i, text, itl, x, draw, start) => Pushes(cfg, s, s', i, text, itl, x, draw, start)
    case Drop(i) => i < |s.out| && s' == s.(out := WithoutAt(s.out, i))
  }

  ghost predicate IsRun(cfg: Config, run: seq<State>, moves: seq<Move>) {
    && |run| == |moves| + 1
    && Initial(cfg, run[0])
    && forall i | 0 <= i < |moves| :: Takes(cfg, run[i], run[i + 1], moves[i])
  }

  // ---------------------------------------------------------------- counting users

  /** How often user id occurs. */
  function CountId(q: seq<User>, id: nat): (k: nat) {
    if q == [] then 0 else CountId(q[..|q| - 1], id) + (if q[|q| - 1].id == id then 1 else 0)
  }

  lemma {:induction false} CountConcat(a: seq<User>, b: seq<User>, id: nat)
    ensures CountId(a + b, id) == CountId(a, id) + CountId(b, id)
  {
    if b == [] {
      assert a + b == a;
    } else {
      var n := |b| - 1;
      CountConcat(a, b[..n], id);
      assert (a + b)[..|a + b| - 1] == a + b[..n];
    }
  }

  lemma CountInsert(q: seq<User>, i: nat, u: User, id: nat)
    requires i <= |q|
    ensures CountId(q[..i] + [u] + q[i..], id) == CountId(q, id) + (if u.id == id then 1 else 0)
  {
    hide CountId;
    assert q == q[..i] + q[i..];
    CountConcat(q[..i], q[i..], id);
    CountConcat(q[..i] + [u], q[i..], id);
    CountConcat(q[..i], [u], id);
    CountSingle(u, id);
  }

  lemma CountSingle(u: User, id: nat)
    ensures CountId([u], id) == if u.id == id then 1 else 0
  {
    assert [u][..0] == [];
  }

  lemma CountPush(q: seq<User>, u: User, id: nat)
    ensures CountId(q + [u], id) == CountId(q, id) + (if u.id == id then 1 else 0)
  {
    CountConcat(q, [u], id);
    CountSingle(u, id);
  }

  lemma CountWithout(q: seq<User>, i: nat, id: nat)
    requires i < |q|
    ensures CountId(WithoutAt(q, i), id) == CountId(q, id) - (if q[i].id == id then 1 else 0)
  {
    hide CountId;
    assert q == q[..i] + [q[i]] + q[i + 1..];
    CountConcat(q[..i] + [q[i]], q[i + 1..], id);
    CountConcat(q[..i], [q[i]], id);
    CountConcat(q[..i], q[i + 1..], id);
    CountSingle(q[i], id);
  }

  // ---------------------------------------------------------------- users are proper

  /** A user with a round to go, whose prompt begins with its number. */
  ghost predicate Proper(cfg: Config, u: User) {
    && u.round < u.total <= cfg.numRounds
    && Show(u.id) + " " <= u.prompt
    && ((forall r | 0 <= r < |cfg.meanReturn| :: cfg.meanReturn[r] > 0) ==> u.returnTokens > 0)
  }

  ghost predicate AllProper(cfg: Config, q: seq<User>) {
    forall i | 0 <= i < |q| :: Proper(cfg, q[i])
  }

  lemma NewIsProper(cfg: Config, id: nat, total: nat, x: Candidate, draw: int)
    requires ValidConfig(cfg) && 1 <= total <= cfg.numRounds
    ensures Proper(cfg, NewUser(cfg, id, total, x, draw))
  {
  }

  lemma AdvancedIsProper(cfg: Config, u: User, text: string, x: Candidate, draw: int, start: real)
    requires ValidConfig(cfg) && Proper(cfg, u) && u.round + 1 < u.total
    ensures Proper(cfg, Advanced(cfg, u, text, x, draw, start))
  {
    hide Show;
    var more := text + x.prompt;
    assert u.prompt <= u.prompt + more;
  }

  lemma WrittenIsProper(cfg: Config, q: seq<User>, u: User)
    requires AllProper(cfg, q) && Proper(cfg, u)
    ensures AllProper(cfg, AsWritten(q, u))
  {
    hide AsWritten, Proper;
    AsWrittenKeepsOthers(q, u);
    var i :| 0 <= i <= |q| && AsWritten(q, u) == q[..i] + [u] + q[i..];
    var r := InsertAt(q, i, u);
    forall k | 0 <= k < |r| ensures Proper(cfg, r[k]) { InsertedAt(q, i, u, k); }
  }

  lemma WrittenCounts(q: seq<User>, u: User, id: nat)
    ensures CountId(AsWritten(q, u), id) == CountId(q, id) + (if u.id == id then 1 else 0)
    ensures |AsWritten(q, u)| == |q| + 1
  {
    hide CountId, AsWritten;
    AsWrittenKeepsOthers(q, u);
    var i :| 0 <= i <= |q| && AsWritten(q, u) == q[..i] + [u] + q[i..];
    CountInsert(q, i, u, id);
  }

  /** Every user that exists is waiting or under way, at most once, and is proper. */
  ghost predicate Inv(cfg: Config, s: State) {
    && ValidConfig(cfg) && |s.inputs| == |s.outputs| == |s.users| == cfg.numRounds
    && AllProper(cfg, s.queue) && AllProper(cfg, s.out)
    && forall id: nat :: CountId(s.queue, id) + CountId(s.out, id) <= if id < s.nextId then 1 else 0
  }

  lemma PopKeepsInv(cfg: Config, s: State, s': State, now: real, total: nat, x: Candidate, draw: int)
    requires Inv(cfg, s) && Pops(cfg, s, s', now, total, x, draw)
    ensures Inv(cfg, s')
  {
    hide CountId, Proper, NewUser;
    if IsDue(s, now) {
      forall id: nat ensures CountId(s'.queue, id) + CountId(s'.out, id) == CountId(s.queue, id) + CountId(s.out, id) {
        CountWithout(s.queue, 0, id);
        assert WithoutAt(s.queue, 0) == s.queue[1..];
        CountPush(s.out, s.queue[0], id);
      }
    } else {
      var u := NewUser(cfg, s.nextId, total, x, draw);
      NewIsProper(cfg, s.nextId, total, x, draw);
      assert u.id == s.nextId by { NewId(cfg, s.nextId, total, x, draw); }
      forall id: nat ensures CountId(s'.out, id) == CountId(s.out, id) + (if u.id == id then 1 else 0) {
        CountPush(s.out, u, id);
      }
    }
  }

  lemma NewId(cfg: Config, id: nat, total: nat, x: Candidate, draw: int)
    requires ValidConfig(cfg) && 0 < cfg.numRounds
    ensures NewUser(cfg, id, total, x, draw).id == id
  {
  }

  lemma PushKeepsInv(cfg: Config, s: State, s': State, move: Move)
    requires Inv(cfg, s) && move.Push? && Takes(cfg, s, s', move)
    ensures Inv(cfg, s')
  {
    hide CountId, AsWritten, Proper;
    var u := s.out[move.i];
    assert Proper(cfg, u);
    forall id: nat ensures CountId(s'.out, id) == CountId(s.out, id) - (if u.id == id then 1 else 0) {
      CountWithout(s.out, move.i, id);
    }
    if u.round + 1 < u.total {
      var v := Advanced(cfg, u, move.text, move.x, move.draw, move.start);
      AdvancedIsProper(cfg, u, move.text, move.x, move.draw, move.start);
      WrittenIsProper(cfg, s.queue, v);
      forall id: nat ensures CountId(s'.queue, id) == CountId(s.queue, id) + (if u.id == id then 1 else 0) {
        WrittenCounts(s.queue, v, id);
      }
    }
  }

  lemma StepKeepsInv(cfg: Config, s: State, s': State, move: Move)
    requires Inv(cfg, s) && Takes(cfg, s, s', move)
    ensures Inv(cfg, s')
  {
    hide CountId, Proper, Pops, Pushes;
    match move
    case Pop(now, total, x, draw) => PopKeepsInv(cfg, s, s', now, total, x, draw);
    case Push(_, _, _, _, _, _) => PushKeepsInv(cfg, s, s', move);
    case Drop(i) =>
      forall id: nat ensures CountId(s'.out, id) <= CountId(s.out, id) { CountWithout(s.out, i, id); }
  }

  lemma {:induction false} RunKeepsInv(cfg: Config, run: seq<State>, moves: seq<Move>, i: nat)
    requires IsRun(cfg, run, moves) && i < |run|
    ensures Inv(cfg, run[i])
  {
    if i > 0 {
      hide Inv, Takes, Initial;
      RunKeepsInv(cfg, run, moves, i - 1);
      assert Takes(cfg, run[i - 1], run[i - 1 + 1], moves[i - 1]);
      StepKeepsInv(cfg, run[i - 1], run[i], moves[i - 1]);
    }
  }

  // ---------------------------------------------------------------- the theorems

  /**
    Over all runs every user is waiting or under way at most once, has a round to go, and asks for a
    positive number of tokens if the means are positive.
   */
  lemma UsersAreUnique(cfg: Config, run: seq<State>, moves: seq<Move>, i: nat, id: nat)
    requires IsRun(cfg, run, moves) && i < |run|
    ensures CountId(run[i].queue, id) + CountId(run[i].out, id) <= 1
    ensures AllProper(cfg, run[i].queue) && AllProper(cfg, run[i].out)
  {
    RunKeepsInv(cfg, run, moves, i);
  }

  ghost predicate IsDigit(c: char) {
    '0' <= c <= '9'
  }

  lemma {:induction false} ShowsDigits(n: nat, i: nat)
    requires i < |Show(n)|
    ensures IsDigit(Show(n)[i])
  {
    if n >= 10 && i < |Show(n / 10)| { ShowsDigits(n / 10, i); }
  }

  lemma {:induction false} ShowIsInjective(a: nat, b: nat)
    requires Show(a) == Show(b)
    ensures a == b
  {
    var s, t := Show(a), Show(b);
    assert s[|s| - 1] == '0' + (a % 10) as char && t[|t| - 1] == '0' + (b % 10) as char;
    assert a % 10 == b % 10;
    assert s[..|s| - 1] == t[..|t| - 1];
    ShowNotEmpty(a / 10);
    ShowNotEmpty(b / 10);
    if a >= 10 && b >= 10 {
      assert s[..|s| - 1] == Show(a / 10) && t[..|t| - 1] == Show(b / 10);
      ShowIsInjective(a / 10, b / 10);
    }
  }

  lemma ShowNotEmpty(n: nat)
    ensures Show(n) != []
  {
  }

  /** Texts that begin with different numbers and a space agree only up to the numbers. */
  lemma NumbersTellApart(a: nat, b: nat, p: string, q: string)
    requires a != b && Show(a) + " " <= p && Show(b) + " " <= q
    ensures !(p <= q)
  {
    if p <= q {
      var x, y := Show(a), Show(b);
      assert q[..|x|] == x && q[|x|] == ' ' by { assert (x + " ")[|x|] == ' '; }
      assert q[..|y|] == y && q[|y|] == ' ' by { assert (y + " ")[|y|] == ' '; }
      if |x| < |y| { ShowsDigits(b, |x|); }
      if |y| < |x| { ShowsDigits(a, |y|); }
      ShowIsInjective(a, b);
    }
  }

  /** Users never share a prompt: none is the beginning of another user's. */
  lemma PromptsNeverCoincide(cfg: Config, run: seq<State>, moves: seq<Move>, i: nat, k: nat, j: nat)
    requires IsRun(cfg, run, moves) && i < |run| && k < |run[i].out| && j < |run[i].out| && k != j
    ensures !(run[i].out[k].prompt <= run[i].out[j].prompt)
  {
    hide Initial, Takes, Show;
    RunKeepsInv(cfg, run, moves, i);
    var out := run[i].out;
    assert Proper(cfg, out[k]) && Proper(cfg, out[j]);
    DifferentIds(cfg, run[i], k, j);
    NumbersTellApart(out[k].id, out[j].id, out[k].prompt, out[j].prompt);
  }

  lemma DifferentIds(cfg: Config, s: State, k: nat, j: nat)
    requires Inv(cfg, s) && k < |s.out| && j < |s.out| && k != j
    ensures s.out[k].id != s.out[j].id
  {
    hide Proper, AllProper;
    var a, b, q := if k < j then k else j, if k < j then j else k, s.out;
    var id := q[a].id;
    assert CountId(s.queue, id) + CountId(q, id) <= 1;
    assert q == q[..b] + q[b..];
    CountConcat(q[..b], q[b..], id);
    CountHas(q[..b], a);
    if q[b].id == id {
      assert q[b..][0].id == id;
      CountHas(q[b..], 0);
    }
  }

  lemma {:induction false} CountHas(q: seq<User>, i: nat)
    requires i < |q|
    ensures CountId(q, q[i].id) > 0
  {
    if i < |q| - 1 { CountHas(q[..|q| - 1], i); }
  }

  // ---------------------------------------------------------------- statistics

  /** A round and a number of tokens, or nothing. */
  datatype Entry = None | Entry(round: nat, tokens: int)

  /** The prompt a move draws, if any. */
  ghost function Draw(s: State, move: Move): (e: Entry) {
    match move
    case Pop(now, _, x, _) => if IsDue(s, now) then None else Entry(0, x.len)
    case Push(i, _, _, x, _, _) =>
      if i < |s.out| && s.out[i].round + 1 < s.out[i].total then Entry(s.out[i].round + 1, x.len) else None
    case Drop(_) => None
  }

  /** The answer a move records, if any. */
  ghost function Answer(s: State, move: Move): (e: Entry) {
    if move.Push? && move.i < |s.out| then Entry(s.out[move.i].round, move.itl + 1) else None
  }

  function Join(t: Tally, e: Entry, r: nat): (t': Tally) {
    if e.Entry? && e.round == r then Tally(t.tokens + e.tokens, t.count + 1) else t
  }

  /** All prompts drawn for round r by the first i moves. */
  ghost function Drawn(run: seq<State>, moves: seq<Move>, i: nat, r: nat): (t: Tally)
    requires i <= |moves| < |run|
  {
    if i == 0 then Tally(0, 0) else Join(Drawn(run, moves, i - 1, r), Draw(run[i - 1], moves[i - 1]), r)
  }

  /** All answers received for round r. */
  ghost function Answered(run: seq<State>, moves: seq<Move>, i: nat, r: nat): (t: Tally)
    requires i <= |moves| < |run|
  {
    if i == 0 then Tally(0, 0) else Join(Answered(run, moves, i - 1, r), Answer(run[i - 1], moves[i - 1]), r)
  }

  lemma StatisticsStep(cfg: Config, s: State, s': State, move: Move, r: nat)
    requires Inv(cfg, s) && Takes(cfg, s, s', move) && r < cfg.numRounds
    ensures |s'.inputs| == |s'.outputs| == cfg.numRounds
    ensures s'.inputs[r] == Join(s.inputs[r], Draw(s, move), r)
    ensures s'.outputs[r] == Join(s.outputs[r], Answer(s, move), r)
  {
    hide CountId, Proper, AsWritten, NewUser, Advanced;
  }

  /**
    The statistics of a round are exactly the prompts drawn for it and the answers received in it:
    tokens and number.
   */
  lemma {:induction false} StatisticsAreExact(cfg: Config, run: seq<State>, moves: seq<Move>, i: nat, r: nat)
    requires IsRun(cfg, run, moves) && i < |run| && r < cfg.numRounds
    ensures |run[i].inputs| == |run[i].outputs| == cfg.numRounds
    ensures run[i].inputs[r] == Drawn(run, moves, i, r) && run[i].outputs[r] == Answered(run, moves, i, r)
  {
    hide Inv, Takes, Initial, Draw, Answer, Join;
    if i == 0 {
      NoStatistics(cfg, run[0], r);
    } else {
      StatisticsAreExact(cfg, run, moves, i - 1, r);
      RunKeepsInv(cfg, run, moves, i - 1);
      assert Takes(cfg, run[i - 1], run[i - 1 + 1], moves[i - 1]);
      StatisticsStep(cfg, run[i - 1], run[i], moves[i - 1], r);
    }
  }

  lemma NoStatistics(cfg: Config, s: State, r: nat)
    requires Initial(cfg, s) && r < cfg.numRounds
    ensures |s.inputs| == |s.outputs| == cfg.numRounds && s.inputs[r] == s.outputs[r] == Tally(0, 0)
  {
  }

  function Sum(xs: seq<nat>, n: nat): (t: nat)
    requires n <= |xs|
  {
    if n == 0 then 0 else Sum(xs, n - 1) + xs[n - 1]
  }

  function Counts(ts: seq<Tally>, n: nat): (t: nat)
    requires n <= |ts|
  {
    if n == 0 then 0 else Counts(ts, n - 1) + ts[n - 1].count
  }

  lemma {:induction false} SumBump(xs: seq<nat>, n: nat, i: nat)
    requires n <= |xs| && i < |xs|
    ensures Sum(xs[i := xs[i] + 1], n) == Sum(xs, n) + (if i < n then 1 else 0)
  {
    if n > 0 { SumBump(xs, n - 1, i); }
  }

  lemma {:induction false} CountsBump(ts: seq<Tally>, n: nat, i: nat, tokens: int)
    requires n <= |ts| && i < |ts|
    ensures Counts(Added(ts, i, tokens), n) == Counts(ts, n) + (if i < n then 1 else 0)
  {
    if n > 0 { CountsBump(ts, n - 1, i, tokens); }
  }

  lemma {:induction false} NoCounts(ts: seq<Tally>, xs: seq<nat>, n: nat)
    requires n <= |ts| == |xs| && forall i | 0 <= i < n :: ts[i].count == 0 && xs[i] == 0
    ensures Counts(ts, n) == 0 && Sum(xs, n) == 0
  {
    if n > 0 { NoCounts(ts, xs, n - 1); }
  }

  /** Prompts drawn, answers, and users by their rounds. */
  ghost predicate Balanced(cfg: Config, s: State) {
    var n := cfg.numRounds;
    && |s.inputs| == |s.outputs| == |s.users| == n
    && Counts(s.inputs, n) == s.popped + |s.queue|
    && Counts(s.outputs, n) == s.answered
    && Sum(s.users, n) == s.nextId
  }

  lemma BalanceStep(cfg: Config, s: State, s': State, move: Move)
    requires Inv(cfg, s) && Balanced(cfg, s) && Takes(cfg, s, s', move)
    ensures Balanced(cfg, s')
  {
    hide CountId, Proper, AsWritten, NewUser, Advanced, Counts, Sum, Added;
    var n := cfg.numRounds;
    if move.Pop? && !IsDue(s, move.now) {
      CountsBump(s.inputs, n, 0, move.x.len);
      SumBump(s.users, n, move.total - 1);
    } else if move.Push? {
      var u := s.out[move.i];
      CountsBump(s.outputs, n, u.round, move.itl + 1);
      if u.round + 1 < u.total {
        CountsBump(s.inputs, n, u.round + 1, move.x.len);
        WrittenCounts(s.queue, Advanced(cfg, u, move.text, move.x, move.draw, move.start), 0);
      }
    }
  }

  /** Every prompt drawn has been handed out or is waiting; every user made is counted once by its rounds. */
  lemma {:induction false} StatisticsAddUp(cfg: Config, run: seq<State>, moves: seq<Move>, i: nat)
    requires IsRun(cfg, run, moves) && i < |run|
    ensures Balanced(cfg, run[i])
  {
    if i == 0 {
      NoCounts(run[0].inputs, run[0].users, cfg.numRounds);
      NoCounts(run[0].outputs, run[0].users, cfg.numRounds);
    } else {
      hide Inv, Takes, Initial, Balanced;
      StatisticsAddUp(cfg, run, moves, i - 1);
      RunKeepsInv(cfg, run, moves, i - 1);
      assert Takes(cfg, run[i - 1], run[i - 1 + 1], moves[i - 1]);
      BalanceStep(cfg, run[i - 1], run[i], moves[i - 1]);
    }
  }
}
