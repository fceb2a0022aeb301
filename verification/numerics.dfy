/**
  Rounding as the .NET runtime does it. `Math.Round(x)` and `Math.Round(x, d)` on both
  `double` and `decimal` round to the nearest value and break ties towards the even
  neighbour ("banker's rounding"). Doubles and decimals are modelled as exact reals.
 */
module Numerics {

  /** `Math.Round(x)`: the nearest integer, ties to even. */
  function Round(x: real): (r: int)
    ensures -1.0 / 2.0 <= r as real - x <= 1.0 / 2.0
    ensures x - x.Floor as real == 1.0 / 2.0 ==> r % 2 == 0
    ensures x == x.Floor as real ==> r == x.Floor
  {
    var f := x.Floor;
    var frac := x - f as real;
    if frac < 1.0 / 2.0 then f
    else if frac > 1.0 / 2.0 then f + 1
    else if f % 2 == 0 then f
    else f + 1
  }

  /** Equal arguments round alike; stated so that callers need not match `Round`'s definition. */
  lemma RoundOfEqual(x: real, y: real)
    requires x == y
    ensures Round(x) == Round(y)
  {
  }

  /** 10 to the power `d`, for the numbers of decimal places the system rounds to. */
  function Scale(d: nat): (r: real)
    requires d <= 2
    ensures r >= 1.0
  {
    if d == 0 then 1.0 else if d == 1 then 10.0 else 100.0
  }

  /** `Math.Round(x, d)`: the nearest multiple of 10^-d, ties to even. */
  function RoundTo(x: real, d: nat): (r: real)
    requires d <= 2
    ensures -1.0 / (2.0 * Scale(d)) <= r - x <= 1.0 / (2.0 * Scale(d))
  {
    var s := Scale(d);
    var k := Round(x * s);
    RoundToBound(x, s, k);
    k as real / s
  }

  lemma RoundToBound(x: real, s: real, k: int)
    requires s >= 1.0
    requires -1.0 / 2.0 <= k as real - x * s <= 1.0 / 2.0
    ensures -1.0 / (2.0 * s) <= k as real / s - x <= 1.0 / (2.0 * s)
  {
    assert k as real / s - x == (k as real - x * s) / s;
    assert (-1.0 / 2.0) / s == -1.0 / (2.0 * s);
    assert (1.0 / 2.0) / s == 1.0 / (2.0 * s);
  }

  /** Rounding keeps the order of its arguments. */
  lemma RoundMonotone(x: real, y: real)
    requires x <= y
    ensures Round(x) <= Round(y)
  {
    if x < y {
      assert Round(x) as real - Round(y) as real <= 1.0 + (x - y);
    }
  }

  /** Rounding to `d` places keeps the order of its arguments. */
  lemma RoundToMonotone(x: real, y: real, d: nat)
    requires d <= 2 && x <= y
    ensures RoundTo(x, d) <= RoundTo(y, d)
  {
    if d == 0 {
      RoundMonotone(x * 1.0, y * 1.0);
    } else if d == 1 {
      RoundMonotone(x * 10.0, y * 10.0);
    } else {
      RoundMonotone(x * 100.0, y * 100.0);
    }
  }

  /** Rounding a value that is already rounded to `d` places leaves it unchanged. */
  lemma RoundToIdempotent(x: real, d: nat)
    requires d <= 2
    ensures RoundTo(RoundTo(x, d), d) == RoundTo(x, d)
  {
    var s := Scale(d);
    var k := Round(x * s);
    var y := k as real / s;
    assert RoundTo(x, d) == y;
    assert y * s == k as real;
    assert (k as real).Floor == k;
    assert Round(y * s) == k;
    assert RoundTo(y, d) == Round(y * s) as real / s;
  }

  /** `n` copies of `a` added up: the product `n * a` built by repeated addition. */
  function Times(n: nat, a: real): real
  {
    if n == 0 then 0.0 else a + Times(n - 1, a)
  }

  lemma {:induction false} TimesIsProduct(n: nat, a: real)
    ensures Times(n, a) == n as real * a
  {
    if n > 0 {
      TimesIsProduct(n - 1, a);
    }
  }

  /** A quotient by `n` of a value between `n` copies of `a` and `n` copies of `b` lies between them. */
  lemma DivBetween(x: real, n: nat, a: real, b: real)
    requires n > 0 && Times(n, a) <= x <= Times(n, b)
    ensures a <= x / n as real <= b
  {
    TimesIsProduct(n, a);
    TimesIsProduct(n, b);
    var m := n as real;
    assert m * a <= x <= m * b;
  }

  /** `Sum()` over a list of doubles. */
  function RealSum(xs: seq<real>): real
  {
    if xs == [] then 0.0 else xs[0] + RealSum(xs[1..])
  }

  lemma {:induction false} RealSumBetween(xs: seq<real>, a: real, b: real)
    requires forall k :: 0 <= k < |xs| ==> a <= xs[k] <= b
    ensures Times(|xs|, a) <= RealSum(xs) <= Times(|xs|, b)
  {
    if xs != [] {
      assert forall k :: 0 <= k < |xs[1..]| ==> xs[1..][k] == xs[k + 1];
      RealSumBetween(xs[1..], a, b);
    }
  }

  /** `Sum() / Count()` of a non-empty list lies between any bounds on its values. */
  lemma MeanWithin(xs: seq<real>, a: real, b: real)
    requires xs != []
    requires forall k :: 0 <= k < |xs| ==> a <= xs[k] <= b
    ensures a <= RealSum(xs) / |xs| as real <= b
  {
    RealSumBetween(xs, a, b);
    DivBetween(RealSum(xs), |xs|, a, b);
  }

  /** The mean of a non-empty list of non-negative values is not negative. */
  lemma MeanNonNegative(xs: seq<real>)
    requires xs != []
    requires forall k :: 0 <= k < |xs| ==> xs[k] >= 0.0
    ensures RealSum(xs) / |xs| as real >= 0.0
  {
    RealSumNonNegative(xs);
  }

  lemma {:induction false} RealSumNonNegative(xs: seq<real>)
    requires forall k :: 0 <= k < |xs| ==> xs[k] >= 0.0
    ensures RealSum(xs) >= 0.0
  {
    if xs != [] {
      assert forall k :: 0 <= k < |xs[1..]| ==> xs[1..][k] == xs[k + 1];
      RealSumNonNegative(xs[1..]);
    }
  }

  /** Rounding a non-negative value to `d` places gives a non-negative value. */
  lemma RoundToNonNegative(x: real, d: nat)
    requires d <= 2 && x >= 0.0
    ensures RoundTo(x, d) >= 0.0
  {
    var s := Scale(d);
    assert x * s >= 0.0;
    var k := Round(x * s);
    assert k >= 0;
  }
}
