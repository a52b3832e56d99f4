/**
  The mixed benchmark's queue of users, ordered by the time of their next request as the code keeps
  it. The insertion search computes a position but another variable is used to
  insert, so the order is kept in some cases only; this module says exactly in which.
 */
module TimedQueue {

  datatype User = User(id: nat, round: nat, total: nat, prompt: string, returnTokens: int, start: real)

  ghost predicate Ascending(q: seq<User>) {
    forall i, j | 0 <= i < j < |q| :: q[i].start <= q[j].start
  }

  /** The first position whose user starts later, or the end. */
  function Position(q: seq<User>, start: real, from: nat): (i: nat)
    requires from <= |q|
    ensures from <= i <= |q|
    ensures forall k | from <= k < i :: q[k].start <= start
    ensures i < |q| ==> start < q[i].start
    decreases |q| - from
  {
    if from == |q| || start < q[from].start then from else Position(q, start, from + 1)
  }

  function InsertAt(q: seq<User>, i: nat, u: User): (q': seq<User>)
    requires i <= |q|
  {
    q[..i] + [u] + q[i..]
  }

  /** The insertion the search is for. */
  function Intended(q: seq<User>, u: User): (q': seq<User>) {
    InsertAt(q, Position(q, u.start, 0), u)
  }

  /** The insertion as written: the loop variable is used, which stops at the last user if none starts later. */
  function AsWritten(q: seq<User>, u: User): (q': seq<User>) {
    if q == [] then [u]
    else
      var i := Position(q, u.start, 0);
      InsertAt(q, if i < |q| then i else |q| - 1, u)
  }

  lemma InsertedAt(q: seq<User>, i: nat, u: User, k: nat)
    requires i <= |q| && k <= |q|
    ensures |InsertAt(q, i, u)| == |q| + 1
    ensures InsertAt(q, i, u)[k] == if k < i then q[k] else if k == i then u else q[k - 1]
  {
  }

  lemma IntendedIsAscending(q: seq<User>, u: User)
    requires Ascending(q)
    ensures Ascending(Intended(q, u))
  {
    var p, r := Position(q, u.start, 0), Intended(q, u);
    forall i, j | 0 <= i < j < |r| ensures r[i].start <= r[j].start {
      InsertedAt(q, p, u, i);
      InsertedAt(q, p, u, j);
    }
  }

  /** The code does what the search is for exactly when the queue is empty or somebody in it starts later. */
  lemma AsWrittenIsIntendedIff(q: seq<User>, u: User)
    requires u !in q
    ensures AsWritten(q, u) == Intended(q, u) <==> q == [] || exists k :: 0 <= k < |q| && u.start < q[k].start
  {
    var p := Position(q, u.start, 0);
    if q != [] && p == |q| {
      InsertedAt(q, |q|, u, |q|);
      InsertedAt(q, |q| - 1, u, |q|);
      assert AsWritten(q, u)[|q|] != Intended(q, u)[|q|];
    }
  }

  /** Nobody is lost, duplicated or reordered among themselves. */
  lemma AsWrittenKeepsOthers(q: seq<User>, u: User)
    ensures multiset(AsWritten(q, u)) == multiset(q) + multiset{u}
    ensures exists i :: 0 <= i <= |q| && AsWritten(q, u) == q[..i] + [u] + q[i..]
  {
    var p := Position(q, u.start, 0);
    var i := if q == [] then 0 else if p < |q| then p else |q| - 1;
    assert AsWritten(q, u) == q[..i] + [u] + q[i..];
    InsertContents(q, i, u);
  }

  lemma InsertContents(q: seq<User>, i: nat, u: User)
    requires i <= |q|
    ensures multiset(q[..i] + [u] + q[i..]) == multiset(q) + multiset{u}
  {
    assert q == q[..i] + q[i..];
  }

  /** A push onto an ascending queue keeps it ascending exactly when the newcomer is not the latest. */
  lemma PushKeepsAscendingIff(q: seq<User>, u: User)
    requires Ascending(q)
    ensures Ascending(AsWritten(q, u)) <==> q == [] || u.start <= q[|q| - 1].start
  {
    var n, r := |q|, AsWritten(q, u);
    var p := Position(q, u.start, 0);
    if q != [] {
      var i := if p < n then p else n - 1;
      InsertedAt(q, i, u, i);
      InsertedAt(q, i, u, n);
      if u.start <= q[n - 1].start {
        forall a, b | 0 <= a < b < |r| ensures r[a].start <= r[b].start {
          InsertedAt(q, i, u, a);
          InsertedAt(q, i, u, b);
        }
      }
    }
  }

  /** One user waiting and a later one pushed: the later one comes out first. */
  lemma LaterUserJumpsTheQueue(a: User, b: User)
    requires a.start < b.start
    ensures AsWritten([a], b) == [b, a] && !Ascending(AsWritten([a], b))
  {
    assert Position([a], b.start, 0) == 1;
    assert [a][..0] + [b] + [a][0..] == [b, a];
    assert [b, a][0].start > [b, a][1].start;
  }
}
