/**
 One-dimensional piecewise-linear interpolation with flat extrapolation, over
 exact rationals: the behaviour of numpy's `interp(x, xp, fp)` when the keys
 `xp` are strictly increasing. Below the first key the first value is
 returned, above the last key the last value, and between two consecutive
 keys the straight line through the two control points is followed.
 */
module Interpolation {

  /** The keys may be searched by interpolation: each one strictly above the one before. */
  predicate StrictlyIncreasing(xs: seq<real>) {
    forall i :: 0 <= i < |xs| - 1 ==> xs[i] < xs[i + 1]
  }

  function Min(a: real, b: real): real { if a <= b then a else b }
  function Max(a: real, b: real): real { if a <= b then b else a }

  /**
   The point at abscissa `x` on the straight line through `(x0, y0)` and
   `(x1, y1)`, written as numpy writes it: the slope times the distance
   from the left key, plus the left value.
   */
  function Lerp(x0: real, y0: real, x1: real, y1: real, x: real): (r: real)
    requires x0 < x1
    ensures x == x0 ==> r == y0
    ensures x == x1 ==> r == y1
    ensures x0 <= x <= x1 ==> Min(y0, y1) <= r <= Max(y0, y1)
  {
    var slope := (y1 - y0) / (x1 - x0);
    LerpStaysBetween(x0, y0, x1, y1, x);
    slope * (x - x0) + y0
  }

  /** The fraction of the way from `x0` to `x1` keeps the line between its end values. */
  lemma LerpStaysBetween(x0: real, y0: real, x1: real, y1: real, x: real)
    requires x0 < x1
    ensures var r := (y1 - y0) / (x1 - x0) * (x - x0) + y0;
      && (x == x1 ==> r == y1)
      && (x0 <= x <= x1 ==> Min(y0, y1) <= r <= Max(y0, y1))
  {
    var d := x1 - x0;
    var slope := (y1 - y0) / d;
    assert slope * d == y1 - y0;
    if x0 <= x <= x1 {
      ScaledBetween(slope, x - x0, d);
    }
  }

  /** Scaling a point of `[0, d]` by `s` lands between `0` and `s * d`. */
  lemma ScaledBetween(s: real, u: real, d: real)
    requires 0.0 <= u <= d
    ensures s >= 0.0 ==> 0.0 <= s * u <= s * d
    ensures s <= 0.0 ==> s * d <= s * u <= 0.0
  {
  }

  /** Dividing by a positive number keeps the sign. */
  lemma QuotientSign(a: real, d: real)
    requires d > 0.0
    ensures a >= 0.0 ==> a / d >= 0.0
    ensures a <= 0.0 ==> a / d <= 0.0
  {
  }

  /**
   numpy's `interp(x, xs, ys)` for strictly increasing keys: the first
   value up to the first key, the straight line between the two keys that
   bracket `x`, and the last value from the last key on. Flat extrapolation
   at both ends is part of the contract; `InterpOnSegment` gives the rest.
   */
  function Interp(x: real, xs: seq<real>, ys: seq<real>): (r: real)
    requires |xs| == |ys| > 0
    requires StrictlyIncreasing(xs)
    ensures x <= xs[0] ==> r == ys[0]
    ensures x >= xs[|xs| - 1] ==> r == ys[|ys| - 1]
    decreases |xs|
  {
    if |xs| == 1 then ys[0]
    else if x <= xs[0] then
      InterpLastKeyBound(xs);
      ys[0]
    else if x < xs[1] then
      InterpLastKeyBound(xs);
      Lerp(xs[0], ys[0], xs[1], ys[1], x)
    else
      TailStrictlyIncreasing(xs);
      Interp(x, xs[1..], ys[1..])
  }

  /** In a strictly increasing sequence the last key is at least the second one. */
  lemma {:induction false} InterpLastKeyBound(xs: seq<real>)
    requires |xs| > 1
    requires StrictlyIncreasing(xs)
    ensures xs[1] <= xs[|xs| - 1]
    decreases |xs|
  {
    if |xs| > 2 {
      InterpLastKeyBound(xs[1..]);
    }
  }

  /** Between keys `i` and `i + 1` the result is the straight line through those two control points. */
  lemma {:induction false} InterpOnSegment(x: real, xs: seq<real>, ys: seq<real>, i: nat)
    requires |xs| == |ys| > 0
    requires StrictlyIncreasing(xs)
    requires i + 1 < |xs|
    requires xs[i] <= x <= xs[i + 1]
    ensures Interp(x, xs, ys) == Lerp(xs[i], ys[i], xs[i + 1], ys[i + 1], x)
    decreases i
  {
    TailStrictlyIncreasing(xs);
    if i == 0 {
      if x == xs[1] {
        assert Interp(x, xs, ys) == Interp(x, xs[1..], ys[1..]);
        assert x <= xs[1..][0];
      }
    } else {
      if i > 1 {
        KeysStrictlyBelow(xs, 1, i);
      }
      assert xs[0] < xs[1] <= x;
      assert Interp(x, xs, ys) == Interp(x, xs[1..], ys[1..]);
      InterpOnSegment(x, xs[1..], ys[1..], i - 1);
    }
  }

  /** Dropping the first key keeps the keys strictly increasing. */
  lemma TailStrictlyIncreasing(xs: seq<real>)
    requires |xs| > 0
    requires StrictlyIncreasing(xs)
    ensures StrictlyIncreasing(xs[1..])
  {
  }

  /** In a strictly increasing sequence, a key strictly before another is strictly smaller. */
  lemma {:induction false} KeysStrictlyBelow(xs: seq<real>, i: nat, j: nat)
    requires StrictlyIncreasing(xs)
    requires i < j < |xs|
    ensures xs[i] < xs[j]
    decreases j - i
  {
    if i + 1 < j {
      KeysStrictlyBelow(xs, i + 1, j);
    }
  }

  /** At a control point's key the result is that control point's value, exactly. */
  lemma InterpAtKey(xs: seq<real>, ys: seq<real>, i: nat)
    requires |xs| == |ys| > 0
    requires StrictlyIncreasing(xs)
    requires i < |xs|
    ensures Interp(xs[i], xs, ys) == ys[i]
  {
    if i + 1 < |xs| {
      InterpOnSegment(xs[i], xs, ys, i);
    }
  }

  /** A segment whose two control points carry the same value is flat. */
  lemma InterpFlatSegment(x: real, xs: seq<real>, ys: seq<real>, i: nat)
    requires |xs| == |ys| > 0
    requires StrictlyIncreasing(xs)
    requires i + 1 < |xs|
    requires xs[i] <= x <= xs[i + 1]
    requires ys[i] == ys[i + 1]
    ensures Interp(x, xs, ys) == ys[i]
  {
    InterpOnSegment(x, xs, ys, i);
  }

  /**
   No overshoot: for query times `t1 <= t <= t2` inside one segment, the
   value at `t` lies between the values at `t1` and `t2`.
   */
  lemma InterpNoOvershoot(t1: real, t: real, t2: real, xs: seq<real>, ys: seq<real>, i: nat)
    requires |xs| == |ys| > 0
    requires StrictlyIncreasing(xs)
    requires i + 1 < |xs|
    requires xs[i] <= t1 <= t <= t2 <= xs[i + 1]
    ensures var v1, v, v2 := Interp(t1, xs, ys), Interp(t, xs, ys), Interp(t2, xs, ys);
      Min(v1, v2) <= v <= Max(v1, v2)
  {
    InterpOnSegment(t1, xs, ys, i);
    InterpOnSegment(t, xs, ys, i);
    InterpOnSegment(t2, xs, ys, i);
    LineMonotone(xs[i], ys[i], xs[i + 1], ys[i + 1], t1, t);
    LineMonotone(xs[i], ys[i], xs[i + 1], ys[i + 1], t, t2);
  }

  /** A line rises everywhere or falls everywhere, according to the sign of its slope. */
  lemma LineMonotone(x0: real, y0: real, x1: real, y1: real, a: real, b: real)
    requires x0 < x1
    requires a <= b
    ensures y0 <= y1 ==> Lerp(x0, y0, x1, y1, a) <= Lerp(x0, y0, x1, y1, b)
    ensures y1 <= y0 ==> Lerp(x0, y0, x1, y1, b) <= Lerp(x0, y0, x1, y1, a)
  {
    var slope := (y1 - y0) / (x1 - x0);
    assert Lerp(x0, y0, x1, y1, b) - Lerp(x0, y0, x1, y1, a) == slope * (b - a);
    QuotientSign(y1 - y0, x1 - x0);
    ScaledBetween(slope, b - a, b - a);
  }

  /** Every value of `ys` inside `[lo, hi]` keeps every interpolated value inside `[lo, hi]`. */
  lemma {:induction false} InterpWithin(x: real, xs: seq<real>, ys: seq<real>, lo: real, hi: real)
    requires |xs| == |ys| > 0
    requires StrictlyIncreasing(xs)
    requires forall k :: 0 <= k < |ys| ==> lo <= ys[k] <= hi
    ensures lo <= Interp(x, xs, ys) <= hi
    decreases |xs|
  {
    if |xs| == 1 || x <= xs[0] {
    } else if x < xs[1] {
      assert lo <= ys[0] <= hi && lo <= ys[1] <= hi;
    } else {
      TailStrictlyIncreasing(xs);
      InterpWithin(x, xs[1..], ys[1..], lo, hi);
    }
  }
}
