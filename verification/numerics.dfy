/**
 * Numeric vocabulary shared by the engine model.
 *
 * The engine computes in 32-bit floats; the model computes in exact reals.
 * The operations the engine borrows from the platform's maths library
 * (sine, hyperbolic tangent, square root, powers of two) are not defined
 * here: they are the fields of a `Maths` record that every caller passes in.
 */
module Numerics {

  datatype Option<T> = None | Some(value: T)

  /** The value of `std::f32::consts::PI`, written out exactly. */
  const PI: real := 3.1415927410125732421875

  /** Largest value of a 64-bit `usize`. */
  const USIZE_MAX: nat := 0xFFFF_FFFF_FFFF_FFFF

  /** The sample rate of the output stream; the device never negotiates zero. */
  type SampleRate = r: real | r > 0.0 witness 44100.0

  /** The maths-library functions the engine calls. */
  datatype Maths = Maths(
    sin: real -> real,
    tanh: real -> real,
    sqrt: real -> real,
    pow2: real -> real)

  /** The facts about the maths library that the engine relies on. */
  ghost predicate Plausible(m: Maths)
  {
    && (forall x :: -1.0 <= m.sin(x) <= 1.0)
    && (forall x :: 0.0 < x ==> 0.0 < m.sqrt(x))
    && (forall x :: 0.0 < m.pow2(x))
    && m.tanh(0.0) == 0.0
  }

  /** Rounding toward zero, as a float-to-integer conversion does. */
  function Trunc(x: real): (n: int)
    ensures 0.0 <= x ==> 0 <= n && n as real <= x < n as real + 1.0
    ensures x < 0.0 ==> n <= 0 && n as real - 1.0 < x <= n as real
  {
    if x >= 0.0 then x.Floor else -((-x).Floor)
  }

  /**
   * The float remainder `x % m` (C's fmod): the quotient is truncated, so
   * the result has the sign of `x` and is smaller than `m` in magnitude.
   */
  function FMod(x: real, m: real): (r: real)
    requires m > 0.0
    ensures 0.0 <= x ==> 0.0 <= r < m
    ensures x < 0.0 ==> -m < r <= 0.0
    ensures 0.0 <= x < m ==> r == x
    ensures x - r == Trunc(x / m) as real * m
  {
    var q := Trunc(x / m);
    QuotientBounds(x, m, q);
    x - q as real * m
  }

  /** Helper for FMod: how the truncated quotient brackets `x`. */
  lemma QuotientBounds(x: real, m: real, q: int)
    requires m > 0.0 && q == Trunc(x / m)
    ensures 0.0 <= x ==> q as real * m <= x < q as real * m + m
    ensures x < 0.0 ==> q as real * m - m < x <= q as real * m
    ensures 0.0 <= x < m ==> q == 0
  {
    var d, qr := x / m, q as real;
    DivSign(x, m);
    if 0.0 <= x {
      Between(qr, d, qr + 1.0, x, m);
      if x < m {
        DivBelowOne(x, m);
      }
    } else {
      Between(qr - 1.0, d, qr, x, m);
    }
  }

  lemma DivSign(x: real, m: real)
    requires m > 0.0
    ensures 0.0 <= x <==> 0.0 <= x / m
  {}

  lemma DivBelowOne(x: real, m: real)
    requires 0.0 <= x < m
    ensures x / m < 1.0
  {}

  /** If `lo <= x/m < hi` (or `lo < x/m <= hi`) then the same holds of `x` scaled. */
  lemma Between(lo: real, d: real, hi: real, x: real, m: real)
    requires m > 0.0 && d == x / m && lo <= d <= hi
    ensures lo * m <= x <= hi * m
    ensures lo < d ==> lo * m < x
    ensures d < hi ==> x < hi * m
    ensures (hi - 1.0) * m == hi * m - m && (lo + 1.0) * m == lo * m + m
  {
    assert d * m == x;
  }

  /**
   * The float-to-`usize` conversion `x as usize`: rounds toward zero,
   * sends negative values to 0 and saturates at the largest `usize`.
   */
  function ToUsize(x: real): (n: nat)
    ensures n <= USIZE_MAX
    ensures 0.0 <= x ==> n as real <= x
    ensures 0.0 <= x && x < USIZE_MAX as real ==> x < n as real + 1.0
    ensures x <= 0.0 ==> n == 0
    ensures USIZE_MAX as real <= x ==> n == USIZE_MAX
  {
    if x <= 0.0 then 0
    else if x.Floor > USIZE_MAX then USIZE_MAX
    else x.Floor
  }

  /** Truncating never passes a whole-number bound the value stays under. */
  lemma ToUsizeAtMost(x: real, bound: nat)
    requires x <= bound as real
    ensures ToUsize(x) <= bound
  {}

  /** `from + (to - from) * progress`: the straight line from `from` to `to`. */
  function Interpolate(from: real, to: real, progress: real): real
  {
    from + (to - from) * progress
  }

  /** Interpolation stays between its end points. */
  lemma InterpolateBetween(a: real, b: real, t: real)
    requires 0.0 <= t <= 1.0
    ensures a <= b ==> a <= Interpolate(a, b, t) <= b
    ensures b <= a ==> b <= Interpolate(a, b, t) <= a
  {
    if a <= b {
      InterpolateUpward(a, b, t);
    } else {
      InterpolateUpward(-a, -b, t);
      assert Interpolate(a, b, t) == -Interpolate(-a, -b, t);
    }
  }

  lemma InterpolateUpward(a: real, b: real, t: real)
    requires 0.0 <= t <= 1.0 && a <= b
    ensures a <= Interpolate(a, b, t) <= b
  {
    InterpolateAbove(a, b, t);
    InterpolateBelow(a, b, t);
  }

  // The two halves are proved apart: together they overwhelm the solver's
  // non-linear arithmetic.
  lemma InterpolateAbove(a: real, b: real, t: real)
    requires 0.0 <= t <= 1.0 && a <= b
    ensures a <= Interpolate(a, b, t)
  {
    ScaleInUnit(b - a, t);
  }

  lemma InterpolateBelow(a: real, b: real, t: real)
    requires 0.0 <= t <= 1.0 && a <= b
    ensures Interpolate(a, b, t) <= b
  {
    ScaleInUnit(b - a, t);
  }

  lemma ScaleInUnit(a: real, t: real)
    requires 0.0 <= a && 0.0 <= t <= 1.0
    ensures 0.0 <= a * t <= a
  {}

  /** `from * (1 - progress) + to * progress`, the release ramp and the dry/wet blend of every effect. */
  function Crossfade(from: real, to: real, progress: real): real
  {
    from * (1.0 - progress) + to * progress
  }

  /** A crossfade is the same straight line, written differently. */
  lemma CrossfadeBetween(a: real, b: real, t: real)
    requires 0.0 <= t <= 1.0
    ensures Crossfade(a, b, t) == Interpolate(a, b, t)
    ensures a <= b ==> a <= Crossfade(a, b, t) <= b
    ensures b <= a ==> b <= Crossfade(a, b, t) <= a
  {
    assert a * (1.0 - t) + b * t == a + (b - a) * t;
    InterpolateBetween(a, b, t);
  }


  /** The sum of a sequence of samples, accumulated front to back. */
  function Sum(s: seq<real>): real
  {
    if s == [] then 0.0 else Sum(s[..|s| - 1]) + s[|s| - 1]
  }

  /** Extending a prefix by one element adds that element to its sum. */
  lemma SumOfPrefix(s: seq<real>, i: nat)
    requires i < |s|
    ensures Sum(s[..i + 1]) == Sum(s[..i]) + s[i]
  {
    assert s[..i + 1][..i] == s[..i];
  }

  /** A sum of zeros is zero. */
  lemma {:induction false} SumOfZeros(s: seq<real>)
    requires forall k :: 0 <= k < |s| ==> s[k] == 0.0
    ensures Sum(s) == 0.0
  {
    if s != [] {
      SumOfZeros(s[..|s| - 1]);
    }
  }

  /**
   * Equal numerators over equal denominators. The solver treats a quotient
   * by a variable as non-linear, so callers state the equality through this.
   */
  lemma SameQuotient(x: real, y: real, a: real, b: real)
    requires x == y && a == b && a != 0.0
    ensures x / a == y / b
  {}

  /** A total of `count` values within [lo, hi] averages within [lo, hi]. */
  lemma AverageBetween(total: real, count: nat, lo: real, hi: real)
    requires count > 0
    requires count as real * lo <= total <= count as real * hi
    ensures lo <= total / count as real <= hi
  {
    AverageAbove(total, count as real, lo);
    AverageBelow(total, count as real, hi);
  }

  lemma AverageAbove(total: real, c: real, lo: real)
    requires c > 0.0 && c * lo <= total
    ensures lo <= total / c
  {
    assert (c * lo) / c == lo;
  }

  lemma AverageBelow(total: real, c: real, hi: real)
    requires c > 0.0 && total <= c * hi
    ensures total / c <= hi
  {
    assert (c * hi) / c == hi;
  }

  /** Equal factors scaled alike (the product counterpart of SameQuotient). */
  lemma SameProduct(x: real, y: real, a: real)
    requires x == y
    ensures x * a == y * a
  {}

  function Abs(x: real): (a: real)
    ensures 0.0 <= a && (a == x || a == -x)
  {
    if x < 0.0 then -x else x
  }

  /** A gain within [-1, 1] never makes a sample louder. */
  lemma GainNeverAmplifies(x: real, g: real)
    requires -1.0 <= g <= 1.0
    ensures Abs(x * g) <= Abs(x)
  {
    AbsOfProduct(x, g);
    ScaleInUnit(Abs(x), Abs(g));
  }

  /** A value within [-1, 1] scaled by a level within [0, 1] stays within [-1, 1]. */
  lemma LevelKeepsUnit(x: real, g: real)
    requires -1.0 <= x <= 1.0 && 0.0 <= g <= 1.0
    ensures Abs(x * g) <= 1.0
  {
    GainNeverAmplifies(x, g);
  }

  lemma AbsOfProduct(x: real, g: real)
    ensures Abs(x * g) == Abs(x) * Abs(g)
  {
    if x < 0.0 && g < 0.0 {
      assert 0.0 < x * g;
    } else if x < 0.0 {
      assert x * g <= 0.0;
      assert -(x * g) == (-x) * g;
    } else if g < 0.0 {
      assert x * g <= 0.0;
      assert -(x * g) == x * (-g);
    } else {
      assert 0.0 <= x * g;
    }
  }
}
