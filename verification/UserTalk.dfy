/**
  What a user of the mixed benchmark asks, read off the moves of a run: the pieces its prompt is made
  of, its number of rounds, and the draw and the time of its current round.
 */
module UserTalk {
  import opened TimedQueue
  import opened UserRuns

  /**
    parts: the first prompt drawn for the user, then in turn each answer it got and the prompt drawn
    after it; total: its rounds; draw: the last number of tokens drawn; start: the last time set.
   */
  datatype Story = Story(parts: seq<string>, total: nat, draw: int, start: real)

  /** The story of user id after one more move. */
  ghost function Told(st: Story, s: State, move: Move, id: nat): (st': Story) {
    match move
    case Pop(now, total, x, draw) =>
      if (s.queue == [] || now <= s.queue[0].start) && s.nextId == id then Story([x.prompt], total, draw, 0.0) else st
    case Push(i, text, _, x, draw, start) =>
      if i < |s.out| && s.out[i].id == id && s.out[i].round + 1 < s.out[i].total
      then Story(st.parts + [text, x.prompt], st.total, draw, start)
      else st
    case Drop(_) => st
  }

  ghost function StoryOf(run: seq<State>, moves: seq<Move>, i: nat, id: nat): (st: Story)
    requires i <= |moves| < |run|
  {
    if i == 0 then Story([], 0, 0, 0.0) else Told(StoryOf(run, moves, i - 1, id), run[i - 1], moves[i - 1], id)
  }

  function Concat(parts: seq<string>): (s: string) {
    if parts == [] then "" else Concat(parts[..|parts| - 1]) + parts[|parts| - 1]
  }

  // ---------------------------------------------------------------- where a user comes from

  ghost predicate Present(s: State, u: User) {
    u in s.queue || u in s.out
  }

  ghost predicate Unchanged(s: State, move: Move, v: User) {
    Present(s, v) && forall st: Story :: Told(st, s, move, v.id) == st
  }

  ghost predicate Returned(cfg: Config, s: State, move: Move, v: User) {
    && ValidConfig(cfg) && move.Push? && move.i < |s.out|
    && s.out[move.i].round + 1 < s.out[move.i].total <= cfg.numRounds
    && v == Advanced(cfg, s.out[move.i], move.text, move.x, move.draw, move.start)
  }

  ghost predicate Made(cfg: Config, s: State, move: Move, v: User) {
    && ValidConfig(cfg) && move.Pop? && !IsDue(s, move.now) && 0 < cfg.numRounds
    && v == NewUser(cfg, s.nextId, move.total, move.x, move.draw)
  }

  lemma KnownAreMade(cfg: Config, s: State, v: User)
    requires Inv(cfg, s) && Present(s, v)
    ensures v.id < s.nextId
  {
    hide Proper, AllProper;
    if v in s.queue {
      var k :| 0 <= k < |s.queue| && s.queue[k] == v;
      CountHas(s.queue, k);
    } else {
      var k :| 0 <= k < |s.out| && s.out[k] == v;
      CountHas(s.out, k);
    }
  }

  /** Of two entries in a sequence that counts a number once, one is the other. */
  lemma NoOther(cfg: Config, s: State, i: nat, v: User)
    requires Inv(cfg, s) && i < |s.out|
    requires v in s.queue || v in WithoutAt(s.out, i)
    ensures v.id != s.out[i].id
  {
    hide Proper, AllProper;
    var id := s.out[i].id;
    CountWithout(s.out, i, id);
    if v in s.queue {
      var k :| 0 <= k < |s.queue| && s.queue[k] == v;
      CountHas(s.out, i);
      CountHas(s.queue, k);
    } else {
      var rest := WithoutAt(s.out, i);
      var k :| 0 <= k < |rest| && rest[k] == v;
      CountHas(rest, k);
    }
  }

  lemma WrittenHolds(q: seq<User>, u: User, v: User)
    requires v in AsWritten(q, u)
    ensures v == u || v in q
  {
    hide AsWritten;
    AsWrittenKeepsOthers(q, u);
    var i :| 0 <= i <= |q| && AsWritten(q, u) == q[..i] + [u] + q[i..];
  }

  lemma PopOrigin(cfg: Config, s: State, s': State, move: Move, v: User)
    requires Inv(cfg, s) && Takes(cfg, s, s', move) && Present(s', v) && move.Pop?
    ensures Unchanged(s, move, v) || Made(cfg, s, move, v)
  {
    hide Inv, NewUser;
    if Present(s, v) {
      KnownAreMade(cfg, s, v);
    } else {
      FirstIsKnown(s);
    }
  }

  lemma FirstIsKnown(s: State)
    ensures s.queue != [] ==> Present(s, s.queue[0])
  {
  }

  lemma PushOrigin(cfg: Config, s: State, s': State, move: Move, v: User)
    requires Inv(cfg, s) && Takes(cfg, s, s', move) && Present(s', v) && move.Push?
    ensures Unchanged(s, move, v) || Returned(cfg, s, move, v)
  {
    hide Inv, Advanced, AsWritten, Added;
    var u := s.out[move.i];
    if u.round + 1 < u.total && v in s'.queue {
      WrittenHolds(s.queue, Advanced(cfg, u, move.text, move.x, move.draw, move.start), v);
    }
    if v in s.queue || v in WithoutAt(s.out, move.i) {
      NoOther(cfg, s, move.i, v);
    }
  }

  lemma Origin(cfg: Config, s: State, s': State, move: Move, v: User)
    requires Inv(cfg, s) && Takes(cfg, s, s', move) && Present(s', v)
    ensures Unchanged(s, move, v) || Returned(cfg, s, move, v) || Made(cfg, s, move, v)
  {
    hide Inv, Unchanged, Returned, Made;
    if move.Pop? {
      PopOrigin(cfg, s, s', move, v);
    } else if move.Push? {
      PushOrigin(cfg, s, s', move, v);
    } else {
      DropOrigin(s, s', move, v);
    }
  }

  lemma DropOrigin(s: State, s': State, move: Move, v: User)
    requires move.Drop? && move.i < |s.out| && s' == s.(out := WithoutAt(s.out, move.i)) && Present(s', v)
    ensures Unchanged(s, move, v)
  {
  }

  // ---------------------------------------------------------------- the theorem

  /** The user's prompt is its number, a space and the parts of its story; the rest is the last draw and time. */
  ghost predicate Holds(cfg: Config, u: User, st: Story) {
    && u.round < u.total <= cfg.numRounds == |cfg.meanReturn|
    && u.prompt == Show(u.id) + " " + Concat(st.parts)
    && |st.parts| == 2 * u.round + 1
    && u.total == st.total
    && u.returnTokens == (if st.draw > 0 then st.draw else cfg.meanReturn[u.round])
    && u.start == st.start
  }

  lemma MadeHolds(cfg: Config, s: State, move: Move, v: User, st: Story)
    requires Made(cfg, s, move, v) && 1 <= move.total <= cfg.numRounds
    ensures Holds(cfg, v, Told(st, s, move, v.id))
  {
    var p := move.x.prompt;
    assert [p][..0] == [];
    assert Concat([p]) == "" + p == p;
  }

  lemma ConcatTwo(parts: seq<string>, a: string, b: string)
    ensures Concat(parts + [a, b]) == Concat(parts) + (a + b)
  {
    var more := parts + [a];
    assert parts + [a, b] == more + [b];
    assert (more + [b])[..|more|] == more && more[..|parts|] == parts;
  }

  lemma ReturnedHolds(cfg: Config, s: State, move: Move, v: User, st: Story)
    requires Returned(cfg, s, move, v) && Holds(cfg, s.out[move.i], st)
    ensures Holds(cfg, v, Told(st, s, move, v.id))
  {
    hide Show, Concat;
    ConcatTwo(st.parts, move.text, move.x.prompt);
    var u, more := s.out[move.i], move.text + move.x.prompt;
    var told := Told(st, s, move, v.id);
    assert told.parts == st.parts + [move.text, move.x.prompt] && told.total == st.total;
    assert u.prompt + more == Show(u.id) + " " + (Concat(st.parts) + more);
  }

  /**
    Over all runs a user, waiting or under way in round k, holds its number, a space, the prompt drawn
    for its first round and then in turn its k answers and the prompts drawn after them; it asks for the
    tokens drawn last, or for the mean of its round, and starts when the last answer said.
   */
  lemma {:induction false} UserHoldsItsStory(cfg: Config, run: seq<State>, moves: seq<Move>, i: nat, v: User)
    requires IsRun(cfg, run, moves) && i < |run| && (v in run[i].queue || v in run[i].out)
    ensures Holds(cfg, v, StoryOf(run, moves, i, v.id))
  {
    hide Inv, Takes, Initial, Told, Holds, Unchanged, Returned, Made;
    if i == 0 {
      NobodyAtFirst(cfg, run[0]);
    } else {
      var s, s', move := run[i - 1], run[i], moves[i - 1];
      RunKeepsInv(cfg, run, moves, i - 1);
      assert Takes(cfg, run[i - 1], run[i - 1 + 1], moves[i - 1]);
      Origin(cfg, s, s', move, v);
      if Unchanged(s, move, v) {
        SameStory(s, move, v, StoryOf(run, moves, i - 1, v.id));
        UserHoldsItsStory(cfg, run, moves, i - 1, v);
      } else if Returned(cfg, s, move, v) {
        var u := OneUnderWay(cfg, s, move, v);
        UserHoldsItsStory(cfg, run, moves, i - 1, u);
        ReturnedHolds(cfg, s, move, v, StoryOf(run, moves, i - 1, v.id));
      } else {
        RoundsAreDrawn(cfg, s, s', move, v);
        MadeHolds(cfg, s, move, v, StoryOf(run, moves, i - 1, v.id));
      }
    }
  }

  lemma NobodyAtFirst(cfg: Config, s: State)
    requires Initial(cfg, s)
    ensures s.queue == [] && s.out == []
  {
  }

  lemma SameStory(s: State, move: Move, v: User, st: Story)
    requires Unchanged(s, move, v)
    ensures (v in s.queue || v in s.out) && Told(st, s, move, v.id) == st
  {
  }

  lemma OneUnderWay(cfg: Config, s: State, move: Move, v: User) returns (u: User)
    requires Returned(cfg, s, move, v)
    ensures move.Push? && move.i < |s.out| && u == s.out[move.i] && u in s.out && u.id == v.id
  {
    u := s.out[move.i];
  }

  lemma RoundsAreDrawn(cfg: Config, s: State, s': State, move: Move, v: User)
    requires Takes(cfg, s, s', move) && Made(cfg, s, move, v)
    ensures move.Pop? && 1 <= move.total <= cfg.numRounds
  {
  }

  // ---------------------------------------------------------------- numbers

  /** The number a text of decimal digits stands for. */
  function ValueOf(s: string): (n: nat) {
    if s == [] then 0
    else
      var c := s[|s| - 1];
      10 * ValueOf(s[..|s| - 1]) + (if '0' <= c <= '9' then (c - '0') as nat else 0)
  }

  /** A number is shown in decimal digits that read back as the number, without leading zeros. */
  lemma {:induction false} ShowReadsBack(n: nat)
    ensures ValueOf(Show(n)) == n && Show(n) != [] && (Show(n)[0] == '0' ==> n == 0 && |Show(n)| == 1)
    ensures forall c | c in Show(n) :: '0' <= c <= '9'
  {
    var s, d := Show(n), '0' + (n % 10) as char;
    assert s[|s| - 1] == d && (d - '0') as nat == n % 10;
    if n < 10 {
      assert s[..|s| - 1] == [];
    } else {
      ShowReadsBack(n / 10);
      assert s[..|s| - 1] == Show(n / 10);
    }
  }
}
