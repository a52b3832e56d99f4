/**
  Tensors in exact arithmetic, the reductions collectives perform on them, and what a
  scaled cast to an eight-bit format costs.
 */
module Tensors {

  type Tensor = seq<real>
  type Positive = x: real | x > 0.0 witness 1.0

  const FP8_MAX: Positive := 448.0
  const AMAX_FLOOR: Positive := 0.000000000001

  function At(t: Tensor, e: nat): (x: real) {
    if e < |t| then t[e] else 0.0
  }

  function Abs(x: real): (y: real) {
    if x < 0.0 then -x else x
  }

  function Max(x: Positive, y: real): (z: Positive)
    ensures z >= x && z >= y && (z == x || z == y)
  {
    if x >= y then x else y
  }

  // ---------------------------------------------------------------- sums

  /** Sum over a list of tensors at element e. */
  function ColSum(ts: seq<Tensor>, e: nat): (x: real) {
    if ts == [] then 0.0 else ColSum(ts[..|ts| - 1], e) + At(ts[|ts| - 1], e)
  }

  /** Elementwise sum: what a flat all-reduce leaves on every rank. */
  function SumTensor(ts: seq<Tensor>): (t: Tensor) {
    if ts == [] then [] else seq(|ts[0]|, (e: nat) => ColSum(ts, e))
  }

  ghost predicate Uniform(ts: seq<Tensor>, n: nat) {
    forall i | 0 <= i < |ts| :: |ts[i]| == n
  }

  lemma {:induction false} ColSumConcat(a: seq<Tensor>, b: seq<Tensor>, e: nat)
    ensures ColSum(a + b, e) == ColSum(a, e) + ColSum(b, e)
  {
    if b == [] {
      assert a + b == a;
    } else {
      var n := |b| - 1;
      ColSumConcat(a, b[..n], e);
      assert (a + b)[..|a + b| - 1] == a + b[..n];
    }
  }

  // ---------------------------------------------------------------- the largest magnitude

  /** Largest magnitude in t, clamped from below. */
  function Amax(t: Tensor): (a: Positive)
    ensures a >= 0.000000000001
    ensures forall e | 0 <= e < |t| :: Abs(t[e]) <= a
  {
    if t == [] then AMAX_FLOOR else Max(Amax(t[..|t| - 1]), Abs(t[|t| - 1]))
  }

  function MaxOf(xs: seq<Positive>): (a: Positive)
    ensures forall i | 0 <= i < |xs| :: xs[i] <= a
    ensures xs != [] ==> a in xs
  {
    if xs == [] then AMAX_FLOOR
    else if |xs| == 1 then xs[0]
    else Max(MaxOf(xs[..|xs| - 1]), xs[|xs| - 1])
  }

  /** The common scale of several tensors: the largest of their clamped magnitudes. */
  function CommonAmax(ts: seq<Tensor>): (a: Positive)
    ensures forall i, e | 0 <= i < |ts| && 0 <= e < |ts[i]| :: Abs(ts[i][e]) <= a
  {
    var xs := seq(|ts|, i requires 0 <= i < |ts| => Amax(ts[i]));
    assert forall i | 0 <= i < |ts| :: xs[i] == Amax(ts[i]);
    MaxOf(xs)
  }

  /** The magnitude is that of some element, or the floor if all elements are smaller. */
  lemma {:induction false} AmaxIsReached(t: Tensor)
    ensures Amax(t) == 0.000000000001 || exists e :: 0 <= e < |t| && Abs(t[e]) == Amax(t)
  {
    if t != [] {
      var n := |t| - 1;
      AmaxIsReached(t[..n]);
      if Amax(t) == Amax(t[..n]) && Amax(t) != 0.000000000001 {
        var e :| 0 <= e < n && Abs(t[..n][e]) == Amax(t[..n]);
        assert Abs(t[e]) == Amax(t);
      } else if Amax(t) != 0.000000000001 {
        assert Abs(t[n]) == Amax(t);
      }
    }
  }

  /** The common magnitude is that of some element of some tensor, or the floor. */
  lemma CommonAmaxIsReached(ts: seq<Tensor>)
    requires ts != []
    ensures || CommonAmax(ts) == 0.000000000001
            || exists i, e :: 0 <= i < |ts| && 0 <= e < |ts[i]| && Abs(ts[i][e]) == CommonAmax(ts)
  {
    hide Amax, MaxOf;
    var xs := seq(|ts|, i requires 0 <= i < |ts| => Amax(ts[i]));
    assert CommonAmax(ts) == MaxOf(xs) && MaxOf(xs) in xs;
    var i :| 0 <= i < |xs| && xs[i] == MaxOf(xs);
    AmaxIsReached(ts[i]);
  }

  // ---------------------------------------------------------------- scaled casts

  type Quantiser = real -> real

  /** The quantiser errs by at most eps on the format's range. */
  ghost predicate Within(q: Quantiser, eps: real) {
    eps >= 0.0 && forall x: real {:trigger q(x)} | Abs(x) <= FP8_MAX :: Abs(q(x) - x) <= eps
  }

  /** The factor that maps magnitude amax to the end of the eight-bit range. */
  function Scale(amax: Positive): (s: Positive)
    ensures s * amax == FP8_MAX
  {
    FP8_MAX / amax
  }

  function Scaled(x: real, scale: Positive): (y: real) {
    x * scale
  }

  function Quantise(q: Quantiser, t: Tensor, scale: Positive): (t': Tensor)
    ensures |t'| == |t|
  {
    seq(|t|, e requires 0 <= e < |t| => q(Scaled(t[e], scale)))
  }

  function Unscale(t: Tensor, scale: Positive): (t': Tensor)
    ensures |t'| == |t|
  {
    seq(|t|, e requires 0 <= e < |t| => t[e] / scale)
  }

  /** A value no larger than the scale's magnitude lands inside the eight-bit range. */
  lemma ScaledInRange(x: real, amax: Positive)
    requires Abs(x) <= amax
    ensures Abs(Scaled(x, Scale(amax))) <= FP8_MAX
  {
    var s := Scale(amax);
    assert Abs(x) * s <= amax * s;
    assert Abs(x * s) == Abs(x) * s;
  }

  function Sum(xs: seq<real>): (x: real) {
    if xs == [] then 0.0 else Sum(xs[..|xs| - 1]) + xs[|xs| - 1]
  }

  function Casts(q: Quantiser, xs: seq<real>): (ys: seq<real>)
    ensures |ys| == |xs|
  {
    seq(|xs|, i requires 0 <= i < |xs| => q(xs[i]))
  }

  /** The column of scaled values at element e. */
  function ScaledColumn(ts: seq<Tensor>, e: nat, scale: Positive): (xs: seq<real>)
    ensures |xs| == |ts|
  {
    seq(|ts|, i requires 0 <= i < |ts| => Scaled(At(ts[i], e), scale))
  }

  /** n times eps. */
  function Times(n: nat, eps: real): (b: real) {
    if n == 0 then 0.0 else Times(n - 1, eps) + eps
  }

  lemma {:induction false} TimesIsProduct(n: nat, eps: real)
    ensures Times(n, eps) == n as real * eps
  {
    if n > 0 { TimesIsProduct(n - 1, eps); }
  }

  /** n casts of values inside the range err by at most n * eps in total. */
  lemma {:induction false} CastsError(q: Quantiser, eps: real, xs: seq<real>)
    requires Within(q, eps)
    requires forall i | 0 <= i < |xs| :: Abs(xs[i]) <= FP8_MAX
    ensures Abs(Sum(Casts(q, xs)) - Sum(xs)) <= Times(|xs|, eps)
  {
    if xs != [] {
      var n := |xs| - 1;
      CastsError(q, eps, xs[..n]);
      assert Casts(q, xs)[..n] == Casts(q, xs[..n]);
      assert Abs(q(xs[n]) - xs[n]) <= eps;
    }
  }

  lemma {:induction false} ScaledColumnSum(ts: seq<Tensor>, e: nat, scale: Positive)
    ensures Sum(ScaledColumn(ts, e, scale)) == Scaled(ColSum(ts, e), scale)
  {
    if ts != [] {
      var n := |ts| - 1;
      ScaledColumnSum(ts[..n], e, scale);
      assert ScaledColumn(ts, e, scale)[..n] == ScaledColumn(ts[..n], e, scale);
    }
  }

  /** Unscaling divides an error bound by the scale. */
  lemma UnscaledError(y: real, x: real, bound: real, amax: Positive)
    requires Abs(y - Scaled(x, Scale(amax))) <= bound
    ensures Abs(y / Scale(amax) - x) <= bound * amax / FP8_MAX
  {
    var s := Scale(amax);
    var d := y - x * s;
    assert y / s - x == d / s;
    assert d / s == d * amax / FP8_MAX by {
      assert d / s * s == d;
      assert d * amax / FP8_MAX * s == d * (amax * s) / FP8_MAX;
    }
    if d >= 0.0 {
      MulMono(d, bound, amax);
    } else {
      MulMono(-d, bound, amax);
      assert -(d * amax / FP8_MAX) == (-d) * amax / FP8_MAX;
    }
  }

  lemma MulMono(x: real, y: real, a: Positive)
    requires x <= y
    ensures x * a / FP8_MAX <= y * a / FP8_MAX
  {
    assert x * a <= y * a;
  }

  // ---------------------------------------------------------------- a sum carried in the eight-bit format

  function QuantiseAll(q: Quantiser, ts: seq<Tensor>, scale: Positive): (qs: seq<Tensor>)
    ensures |qs| == |ts|
  {
    seq(|ts|, i requires 0 <= i < |ts| => Quantise(q, ts[i], scale))
  }

  /** Scale by the common magnitude, cast, add, unscale. */
  function CompressedSum(q: Quantiser, ts: seq<Tensor>): (t: Tensor) {
    var scale := Scale(CommonAmax(ts));
    Unscale(SumTensor(QuantiseAll(q, ts, scale)), scale)
  }

  lemma {:induction false} QuantisedColumn(q: Quantiser, ts: seq<Tensor>, e: nat, scale: Positive)
    requires forall i | 0 <= i < |ts| :: e < |ts[i]|
    ensures ColSum(QuantiseAll(q, ts, scale), e) == Sum(Casts(q, ScaledColumn(ts, e, scale)))
  {
    if ts != [] {
      var n := |ts| - 1;
      QuantisedColumn(q, ts[..n], e, scale);
      assert QuantiseAll(q, ts, scale)[..n] == QuantiseAll(q, ts[..n], scale);
      assert Casts(q, ScaledColumn(ts, e, scale))[..n] == Casts(q, ScaledColumn(ts[..n], e, scale));
    }
  }

  /** Nothing is clipped: every value is inside the format's range when it is cast. */
  lemma NothingClipped(ts: seq<Tensor>, i: nat, e: nat)
    requires i < |ts| && e < |ts[i]|
    ensures Abs(Scaled(ts[i][e], Scale(CommonAmax(ts)))) <= FP8_MAX
  {
    ScaledInRange(ts[i][e], CommonAmax(ts));
  }

  lemma CompressedLength(q: Quantiser, ts: seq<Tensor>, n: nat)
    requires ts != [] && Uniform(ts, n)
    ensures |CompressedSum(q, ts)| == n == |SumTensor(ts)|
  {
    var qs := QuantiseAll(q, ts, Scale(CommonAmax(ts)));
    assert |ts[0]| == n && |qs[0]| == n;
  }

  lemma CompressedSumAt(q: Quantiser, ts: seq<Tensor>, n: nat, e: nat, scale: Positive)
    requires ts != [] && Uniform(ts, n) && e < n
    requires scale == Scale(CommonAmax(ts))
    ensures |CompressedSum(q, ts)| == n == |SumTensor(ts)|
    ensures SumTensor(ts)[e] == ColSum(ts, e)
    ensures CompressedSum(q, ts)[e] == Sum(Casts(q, ScaledColumn(ts, e, scale))) / scale
  {
    var qs := QuantiseAll(q, ts, scale);
    assert |qs[0]| == n;
    QuantisedColumn(q, ts, e, scale);
  }

  lemma ScaledColumnError(q: Quantiser, eps: real, ts: seq<Tensor>, e: nat, scale: Positive)
    requires Within(q, eps)
    requires forall i | 0 <= i < |ts| :: Abs(Scaled(At(ts[i], e), scale)) <= FP8_MAX
    ensures Abs(Sum(Casts(q, ScaledColumn(ts, e, scale))) - Scaled(ColSum(ts, e), scale)) <= Times(|ts|, eps)
  {
    CastsError(q, eps, ScaledColumn(ts, e, scale));
    ScaledColumnSum(ts, e, scale);
  }

  /** What an error in the scaled domain amounts to after unscaling. */
  ghost predicate Off(c: real, x: real, bound: real, amax: Positive) {
    Abs(c - x) <= bound * amax / FP8_MAX
  }

  lemma UnscaledOff(c: real, y: real, x: real, bound: real, amax: Positive, scale: Positive)
    requires scale == Scale(amax)
    requires Abs(y - Scaled(x, scale)) <= bound
    requires c == y / scale
    ensures Off(c, x, bound, amax)
  {
    UnscaledError(y, x, bound, amax);
  }

  /** c is within n casts of x. */
  ghost predicate WithinCasts(c: real, x: real, n: nat, eps: real, amax: Positive) {
    Abs(c - x) <= n as real * eps * amax / FP8_MAX
  }

  lemma OffByCasts(c: real, x: real, n: nat, eps: real, amax: Positive)
    requires Off(c, x, Times(n, eps), amax)
    ensures WithinCasts(c, x, n, eps, amax)
  {
    TimesIsProduct(n, eps);
  }

  lemma CompressedColumnError(q: Quantiser, eps: real, ts: seq<Tensor>, n: nat, e: nat, scale: Positive)
    requires Within(q, eps)
    requires Uniform(ts, n) && e < n
    requires scale == Scale(CommonAmax(ts))
    ensures Abs(Sum(Casts(q, ScaledColumn(ts, e, scale))) - Scaled(ColSum(ts, e), scale)) <= Times(|ts|, eps)
  {
    forall i | 0 <= i < |ts| ensures Abs(Scaled(At(ts[i], e), scale)) <= FP8_MAX {
      NothingClipped(ts, i, e);
    }
    ScaledColumnError(q, eps, ts, e, scale);
  }

  /** The price of carrying the sum in eight bits: one cast per summand. */
  lemma CompressedSumError(q: Quantiser, eps: real, ts: seq<Tensor>, n: nat, e: nat)
    requires Within(q, eps)
    requires ts != [] && Uniform(ts, n) && e < n
    ensures |CompressedSum(q, ts)| == n == |SumTensor(ts)|
    ensures Off(CompressedSum(q, ts)[e], SumTensor(ts)[e], Times(|ts|, eps), CommonAmax(ts))
  {
    hide CommonAmax, Scale, Sum, ColSum, ScaledColumn, Casts, CompressedSum, SumTensor, Off, Times;
    var amax := CommonAmax(ts);
    var scale := Scale(amax);
    CompressedColumnError(q, eps, ts, n, e, scale);
    CompressedSumAt(q, ts, n, e, scale);
    UnscaledOff(CompressedSum(q, ts)[e], Sum(Casts(q, ScaledColumn(ts, e, scale))), ColSum(ts, e),
                Times(|ts|, eps), amax, scale);
  }

  // ---------------------------------------------------------------- pieces of equal length

  function RepeatAdd(i: nat, n: nat): (o: nat) {
    if i == 0 then 0 else RepeatAdd(i - 1, n) + n
  }

  /** Where piece i starts when every piece has length n: i * n, by repeated addition. */
  function Offset(i: nat, n: nat): (o: nat) {
    RepeatAdd(i, n)
  }

  lemma {:induction false} OffsetIsProduct(i: nat, n: nat)
    ensures Offset(i, n) == i * n
  {
    if i > 0 {
      OffsetIsProduct(i - 1, n);
      assert i * n == (i - 1) * n + n;
    }
  }

  lemma {:induction false} OffsetGrows(i: nat, k: nat, n: nat)
    requires i < k
    ensures Offset(i, n) + n <= Offset(k, n)
  {
    if i + 1 < k { OffsetGrows(i, k - 1, n); }
  }

  /** Which piece position r falls into: the quotient r / n, by repeated subtraction. */
  function PieceOf(r: nat, n: nat): (i: nat)
    requires n > 0
  {
    if r < n then 0 else 1 + PieceOf(r - n, n)
  }

  lemma QuotientStep(r: nat, n: nat)
    requires r >= n > 0
    ensures r / n == (r - n) / n + 1
  {
    var d := (r - n) / n;
    assert r - n == d * n + (r - n) % n;
    assert r == (d + 1) * n + (r - n) % n;
    QuotientUnique(d + 1, (r - n) % n, n);
  }

  lemma QuotientUnique(g: nat, i: nat, n: nat)
    requires i < n
    ensures (g * n + i) / n == g
  {
    var r := g * n + i;
    var d := r / n - g;
    assert r == (r / n) * n + r % n;
    assert d * n == i - r % n;
    assert d >= 1 ==> d * n >= n;
    assert d <= -1 ==> d * n + n <= 0;
  }

  lemma {:induction false} PieceIsQuotient(r: nat, n: nat)
    requires n > 0
    ensures PieceOf(r, n) == r / n
  {
    if r >= n {
      PieceIsQuotient(r - n, n);
      QuotientStep(r, n);
    }
  }

  lemma {:induction false} PieceBounds(r: nat, n: nat)
    requires n > 0
    ensures Offset(PieceOf(r, n), n) <= r < Offset(PieceOf(r, n), n) + n
  {
    if r >= n { PieceBounds(r - n, n); }
  }

  lemma {:induction false} PieceUnique(i: nat, e: nat, n: nat)
    requires e < n
    ensures PieceOf(Offset(i, n) + e, n) == i
  {
    if i > 0 {
      PieceUnique(i - 1, e, n);
      assert Offset(i, n) + e - n == Offset(i - 1, n) + e;
    }
  }

  lemma PieceBelow(r: nat, k: nat, n: nat)
    requires n > 0
    ensures r < Offset(k, n) <==> PieceOf(r, n) < k
  {
    PieceBounds(r, n);
    var i := PieceOf(r, n);
    if i < k {
      OffsetGrows(i, k, n);
    } else if k < i {
      OffsetGrows(k, i, n);
    }
  }

  lemma PieceLength(k: nat, n: nat, total: nat)
    requires k > 0 && Offset(k, n) == total
    ensures total / k == n
  {
    OffsetIsProduct(k, n);
    QuotientUnique(n, 0, k);
  }

  /** Concatenation of a list of pieces. */
  function Flatten(ps: seq<Tensor>): (t: Tensor) {
    if ps == [] then [] else Flatten(ps[..|ps| - 1]) + ps[|ps| - 1]
  }

  lemma {:induction false} FlattenLength(ps: seq<Tensor>, n: nat)
    requires Uniform(ps, n)
    ensures |Flatten(ps)| == Offset(|ps|, n)
  {
    if ps != [] { FlattenLength(ps[..|ps| - 1], n); }
  }

  lemma {:induction false} FlattenAt(ps: seq<Tensor>, n: nat, i: nat, e: nat)
    requires Uniform(ps, n) && i < |ps| && e < n
    ensures Offset(i, n) + e < |Flatten(ps)|
    ensures Flatten(ps)[Offset(i, n) + e] == ps[i][e]
  {
    var k := |ps| - 1;
    FlattenLength(ps[..k], n);
    if i < k {
      FlattenAt(ps[..k], n, i, e);
    }
  }
}
