/**
 * Arithmetic over `real` standing in for Python floats: `sum`, `statistics.mean` and
 * `statistics.pvariance`. Python's `round(x, n)` and the square root inside `statistics.pstdev`
 * are floating-point routines; the model takes them as parameters.
 */
module Numerics {

  /** `round(x, ndigits)` */
  type Rounder = (real, nat) -> real

  /** The square root `statistics.pstdev` applies to the population variance. */
  type SquareRoot = real -> real

  /** A square root that is exact on the non-negative reals. */
  ghost predicate IsSquareRoot(sqrt: SquareRoot) {
    forall x: real :: 0.0 <= x ==> 0.0 <= sqrt(x) && sqrt(x) * sqrt(x) == x
  }

  /** `round` that keeps every value as it is: the values a computation has before rounding. */
  function Exact(x: real, ndigits: nat): real {
    x
  }

  /** `sum(xs)` */
  function Sum(xs: seq<real>): real {
    if xs == [] then 0.0 else Sum(xs[..|xs| - 1]) + xs[|xs| - 1]
  }

  lemma {:induction false} SumAppend(xs: seq<real>, ys: seq<real>)
    ensures Sum(xs + ys) == Sum(xs) + Sum(ys)
    decreases |ys|
  {
    if ys == [] {
      assert xs + ys == xs;
    } else {
      SumAppend(xs, ys[..|ys| - 1]);
      assert (xs + ys)[..|xs + ys| - 1] == xs + ys[..|ys| - 1];
    }
  }

  lemma SumStep(xs: seq<real>, x: real)
    ensures Sum(xs + [x]) == Sum(xs) + x
  {
    assert (xs + [x])[..|xs|] == xs;
  }

  /** `statistics.mean(xs)` */
  function Mean(xs: seq<real>): real
    requires xs != []
  {
    Sum(xs) / |xs| as real
  }

  /** The sum of the squared distances of the values from `m`. */
  function SquaredDeviations(xs: seq<real>, m: real): real {
    if xs == [] then 0.0 else SquaredDeviations(xs[..|xs| - 1], m) + (xs[|xs| - 1] - m) * (xs[|xs| - 1] - m)
  }

  /** `statistics.pvariance(xs)`: the population variance, the square of `statistics.pstdev(xs)`. */
  function PVariance(xs: seq<real>): real
    requires xs != []
  {
    SquaredDeviations(xs, Mean(xs)) / |xs| as real
  }

  /** The sum of the squares of the values. */
  function SumOfSquares(xs: seq<real>): real {
    if xs == [] then 0.0 else SumOfSquares(xs[..|xs| - 1]) + xs[|xs| - 1] * xs[|xs| - 1]
  }

  lemma PositiveProduct(a: real, b: real)
    requires 0.0 < a && 0.0 < b
    ensures 0.0 < a * b
  {
  }

  lemma ProductZero(a: real, b: real)
    ensures a * b == 0.0 <==> a == 0.0 || b == 0.0
  {
    if a != 0.0 && b != 0.0 {
      if a > 0.0 && b > 0.0 {
        PositiveProduct(a, b);
      } else if a < 0.0 && b < 0.0 {
        PositiveProduct(-a, -b);
        assert (-a) * (-b) == a * b;
      } else if a > 0.0 {
        PositiveProduct(a, -b);
        assert a * (-b) == -(a * b);
      } else {
        PositiveProduct(-a, b);
        assert (-a) * b == -(a * b);
      }
    }
  }

  /** A square is never negative, and is zero only for zero. */
  lemma SquareFacts(y: real)
    ensures y * y >= 0.0
    ensures y * y == 0.0 <==> y == 0.0
  {
    ProductZero(y, y);
  }

  /** Multiplying by a non-negative factor keeps an inequality. */
  lemma MulMonotone(a: real, b: real, c: real)
    requires 0.0 <= a && b <= c
    ensures a * b <= a * c
  {
    assert a * c - a * b == a * (c - b);
  }

  /** Dividing by a positive divisor keeps an inequality. */
  lemma DivMonotone(a: real, b: real, n: real)
    requires 0.0 < n && a <= b
    ensures a / n <= b / n
  {
    MulMonotone(1.0 / n, a, b);
  }

  /** Fractions with one denominator add up over it. */
  lemma DivAdd(a: real, b: real, t: real)
    requires t != 0.0
    ensures a / t + b / t == (a + b) / t
  {
  }

  /** A non-zero total over itself is 1. */
  lemma DivSelf(t: real)
    requires t != 0.0
    ensures t / t == 1.0
  {
  }

  /** Squared deviations are never negative, and vanish exactly when every value equals `m`. */
  lemma {:induction false} SquaredDeviationsZero(xs: seq<real>, m: real)
    ensures SquaredDeviations(xs, m) >= 0.0
    ensures SquaredDeviations(xs, m) == 0.0 <==> forall i :: 0 <= i < |xs| ==> xs[i] == m
  {
    if xs != [] {
      var init, x := xs[..|xs| - 1], xs[|xs| - 1];
      SquaredDeviationsZero(init, m);
      assert SquaredDeviations(xs, m) == SquaredDeviations(init, m) + (x - m) * (x - m);
      SquareFacts(x - m);
      assert (forall i :: 0 <= i < |xs| ==> xs[i] == m) <==>
             (forall i :: 0 <= i < |init| ==> init[i] == m) && x == m;
    }
  }

  /** The sum of `n` copies of `c` is `n * c`. */
  lemma {:induction false} SumOfConstant(xs: seq<real>, c: real)
    requires forall i :: 0 <= i < |xs| ==> xs[i] == c
    ensures Sum(xs) == |xs| as real * c
  {
    if xs != [] {
      SumOfConstant(xs[..|xs| - 1], c);
    }
  }

  /** The mean of equal values is that value. */
  lemma MeanOfConstant(xs: seq<real>, c: real)
    requires xs != []
    requires forall i :: 0 <= i < |xs| ==> xs[i] == c
    ensures Mean(xs) == c
  {
    SumOfConstant(xs, c);
  }

  /** The population variance is zero exactly when all values are equal, and positive otherwise. */
  lemma PVarianceZeroIffConstant(xs: seq<real>)
    requires xs != []
    ensures PVariance(xs) >= 0.0
    ensures PVariance(xs) == 0.0 <==> forall i :: 0 <= i < |xs| ==> xs[i] == xs[0]
  {
    var m := Mean(xs);
    SquaredDeviationsZero(xs, m);
    if forall i :: 0 <= i < |xs| ==> xs[i] == xs[0] {
      MeanOfConstant(xs, xs[0]);
    }
  }

  /** `q - 2ms + n·m²`: the expanded squared deviations of `n` values with sum `s` and sum of squares `q`. */
  function Expanded(q: real, s: real, n: real, m: real): real {
    q - 2.0 * m * s + n * m * m
  }

  /** Squared deviations expand to `Σx² - 2mΣx + n·m²`. */
  lemma {:induction false} SquaredDeviationsExpand(xs: seq<real>, m: real)
    ensures SquaredDeviations(xs, m) == Expanded(SumOfSquares(xs), Sum(xs), |xs| as real, m)
  {
    if xs != [] {
      var init, x := xs[..|xs| - 1], xs[|xs| - 1];
      SquaredDeviationsExpand(init, m);
      ExpandStep(SumOfSquares(init), Sum(init), |init| as real, m, x, SquaredDeviations(init, m),
        SumOfSquares(xs), Sum(xs), |xs| as real, SquaredDeviations(xs, m));
    }
  }

  /** One more value keeps the expanded form of the squared deviations. */
  lemma ExpandStep(q: real, s: real, k: real, m: real, x: real, d: real, q': real, s': real, k': real, d': real)
    requires d == Expanded(q, s, k, m)
    requires q' == q + x * x && s' == s + x && k' == k + 1.0 && d' == d + (x - m) * (x - m)
    ensures d' == Expanded(q', s', k', m)
  {
    assert (x - m) * (x - m) == x * x - 2.0 * m * x + m * m;
    assert 2.0 * m * (s + x) == 2.0 * m * s + 2.0 * m * x;
    assert (k + 1.0) * m * m == k * m * m + m * m;
  }

  /** The square of a value in [0, 1] is in [0, that value]. */
  lemma SquareInUnit(x: real)
    requires 0.0 <= x <= 1.0
    ensures 0.0 <= x * x <= x
  {
    MulMonotone(x, x, 1.0);
    SquareFacts(x);
  }

  /** Values in [0, 1] have a sum of squares no larger than their sum, and a non-negative sum. */
  lemma {:induction false} UnitSums(xs: seq<real>)
    requires forall i :: 0 <= i < |xs| ==> 0.0 <= xs[i] <= 1.0
    ensures 0.0 <= SumOfSquares(xs) <= Sum(xs) <= |xs| as real
  {
    if xs != [] {
      var init, x := xs[..|xs| - 1], xs[|xs| - 1];
      UnitSums(init);
      SquareInUnit(x);
      var q, s, sq := SumOfSquares(init), Sum(init), x * x;
      assert SumOfSquares(xs) == q + sq;
      assert Sum(xs) == s + x;
      assert |xs| as real == |init| as real + 1.0;
    }
  }

  /** The arithmetic of the moment bounds, on plain reals: `m` is the mean and `d` the squared deviations. */
  lemma MomentBounds(n: real, s: real, q: real, m: real, d: real)
    requires 0.0 < n && 0.0 <= q <= s <= n && 0.0 <= d
    requires m == s / n
    requires d == q - 2.0 * m * s + n * m * m
    ensures 0.0 <= m <= 1.0
    ensures 0.0 <= d / n <= m * (1.0 - m) <= 0.25
  {
    assert s == n * m;
    DivMonotone(0.0, s, n);
    DivMonotone(s, n, n);
    assert 2.0 * m * s == 2.0 * n * m * m;
    assert d <= n * (m * (1.0 - m));
    DivMonotone(0.0, d, n);
    DivMonotone(d, n * (m * (1.0 - m)), n);
    SquareFacts(m - 0.5);
    assert (m - 0.5) * (m - 0.5) == m * m - m + 0.25;
  }

  /**
   * For values in [0, 1] (probabilities), the mean is in [0, 1] and the population variance is at
   * most `mean * (1 - mean)`, hence at most 1/4.
   */
  lemma ProbabilityMoments(xs: seq<real>)
    requires xs != []
    requires forall i :: 0 <= i < |xs| ==> 0.0 <= xs[i] <= 1.0
    ensures 0.0 <= Mean(xs) <= 1.0
    ensures 0.0 <= PVariance(xs) <= Mean(xs) * (1.0 - Mean(xs)) <= 0.25
  {
    var n, s, q := |xs| as real, Sum(xs), SumOfSquares(xs);
    var m := Mean(xs);
    var d := SquaredDeviations(xs, m);
    assert PVariance(xs) == d / n && m == s / n;
    assert 0.0 <= q <= s <= n by {
      UnitSums(xs);
    }
    assert d == Expanded(q, s, n, m) by {
      SquaredDeviationsExpand(xs, m);
    }
    assert 0.0 <= d by {
      SquaredDeviationsZero(xs, m);
    }
    MomentBounds(n, s, q, m, d);
  }
}
