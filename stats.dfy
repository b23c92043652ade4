/**
 * The population z-score test of the unusual-amount check, in exact
 * arithmetic. For amounts x_1..x_n with sum S, the scaled deviations
 * d_i = n*x_i - S are n times x_i - mean, and their sum of squares Q is
 * n^3 times the population variance. So for Q > 0 the test
 * |x_i - mean| / stdDev > 3 holds exactly when n*d_i^2 > 9*Q, and
 * stdDev == 0 exactly when Q == 0. No square root is needed.
 */
module Stats {

  function Total(xs: seq<int>): int
    decreases |xs|
  {
    if |xs| == 0 then 0 else xs[0] + Total(xs[1..])
  }

  function Squares(xs: seq<int>): int
    decreases |xs|
  {
    if |xs| == 0 then 0 else xs[0] * xs[0] + Squares(xs[1..])
  }

  /** n*x_i - S for every amount. */
  function Deviations(xs: seq<int>): (ds: seq<int>)
    ensures |ds| == |xs|
  {
    seq(|xs|, i requires 0 <= i < |xs| => |xs| * xs[i] - Total(xs))
  }

  /** Q, the sum of the squared scaled deviations. */
  function Spread(xs: seq<int>): int {
    Squares(Deviations(xs))
  }

  /** The sum of (x - mean)^2 in real arithmetic, as the source's reduce computes it. */
  function RealSquares(xs: seq<int>, mean: real): real
    decreases |xs|
  {
    if |xs| == 0 then 0.0 else (xs[0] as real - mean) * (xs[0] as real - mean) + RealSquares(xs[1..], mean)
  }

  lemma {:induction false} TotalConcat(a: seq<int>, b: seq<int>)
    ensures Total(a + b) == Total(a) + Total(b)
    decreases |a|
  {
    if |a| == 0 {
      assert a + b == b;
    } else {
      assert (a + b)[1..] == a[1..] + b;
      TotalConcat(a[1..], b);
    }
  }

  lemma {:induction false} SquaresConcat(a: seq<int>, b: seq<int>)
    ensures Squares(a + b) == Squares(a) + Squares(b)
    decreases |a|
  {
    if |a| == 0 {
      assert a + b == b;
    } else {
      assert (a + b)[1..] == a[1..] + b;
      SquaresConcat(a[1..], b);
    }
  }

  lemma {:induction false} SquaresNonNegative(xs: seq<int>)
    ensures Squares(xs) >= 0
    decreases |xs|
  {
    if |xs| > 0 {
      SquaresNonNegative(xs[1..]);
    }
  }

  /** The total of a*y_j - b over a sequence. */
  lemma {:induction false} AffineTotal(ys: seq<int>, a: int, b: int)
    ensures Total(seq(|ys|, j requires 0 <= j < |ys| => a * ys[j] - b)) == a * Total(ys) - |ys| * b
    decreases |ys|
  {
    var zs := seq(|ys|, j requires 0 <= j < |ys| => a * ys[j] - b);
    if |ys| > 0 {
      var rest := seq(|ys[1..]|, j requires 0 <= j < |ys[1..]| => a * ys[1..][j] - b);
      assert zs[1..] == rest;
      AffineTotal(ys[1..], a, b);
      assert a * Total(ys) == a * ys[0] + a * Total(ys[1..]);
      assert |ys| * b == b + |ys[1..]| * b;
    }
  }

  /** The scaled deviations sum to zero. */
  lemma DeviationsTotalZero(xs: seq<int>)
    ensures Total(Deviations(xs)) == 0
  {
    AffineTotal(xs, |xs|, Total(xs));
    assert Deviations(xs) == seq(|xs|, j requires 0 <= j < |xs| => |xs| * xs[j] - Total(xs));
  }

  lemma MulMonotone(a: int, b: int, c: int)
    requires a <= b && c >= 0
    ensures a * c <= b * c
  {
    assert b * c - a * c == (b - a) * c;
  }

  lemma PositiveFactor(m: int, x: int)
    requires m > 0 && m * x >= 0
    ensures x >= 0
  {
    if x < 0 {
      MulMonotone(x, -1, m);
    }
  }

  lemma SquareNonNegative(a: int)
    ensures a * a >= 0
  {
    if a < 0 {
      MulMonotone(a, 0, -a);
    } else {
      MulMonotone(0, a, a);
    }
  }

  lemma CauchyIdentities(m: int, y: int, s: int, q: int)
    ensures m * (m * y * y + q - 2 * y * s) == (m * y - s) * (m * y - s) + (m * q - s * s)
    ensures (m + 1) * (y * y + q) - (y + s) * (y + s) == (m * y * y + q - 2 * y * s) + (m * q - s * s)
  {
  }

  /** The induction step of Cauchy-Schwarz: (y+s)^2 <= (m+1)(y^2+q) when s^2 <= m*q. */
  lemma CauchyStep(m: int, y: int, s: int, q: int)
    requires m > 0 && s * s <= m * q
    ensures (y + s) * (y + s) <= (m + 1) * (y * y + q)
  {
    SquareNonNegative(m * y - s);
    CauchyIdentities(m, y, s, q);
    PositiveFactor(m, m * y * y + q - 2 * y * s);
  }

  /** Cauchy-Schwarz for the all-ones vector: (sum y)^2 <= n * sum y^2. */
  lemma {:induction false} TotalSquaredBound(ys: seq<int>)
    ensures Total(ys) * Total(ys) <= |ys| * Squares(ys)
    decreases |ys|
  {
    if |ys| > 0 {
      var r := ys[1..];
      TotalSquaredBound(r);
      if |r| == 0 {
        assert Total(r) == 0 && Squares(r) == 0;
      } else {
        CauchyStep(|r|, ys[0], Total(r), Squares(r));
      }
    }
  }

  /** The arithmetic of Samuelson's inequality, once the rest of the deviations sum to -d. */
  lemma SamuelsonStep(n: int, d: int, q: int, t: int, u: int)
    requires t == -d && u == q - d * d && t * t <= (n - 1) * u
    ensures n * d * d <= (n - 1) * q
  {
    assert t * t == d * d;
    assert (n - 1) * u == (n - 1) * q - n * d * d + d * d;
  }

  /**
   * Samuelson's inequality: no scaled deviation is larger than the rest can
   * balance, n*d_i^2 <= (n-1)*Q. In z-score terms, |z| <= sqrt(n-1).
   */
  lemma Samuelson(xs: seq<int>, i: nat)
    requires i < |xs|
    ensures |xs| * Deviations(xs)[i] * Deviations(xs)[i] <= (|xs| - 1) * Spread(xs)
  {
    var ds := Deviations(xs);
    var n, d := |xs|, ds[i];
    var a, b := ds[..i], ds[i + 1..];
    assert ds == a + [d] + b;
    DeviationsTotalZero(xs);
    TotalConcat(a + [d], b);
    TotalConcat(a, [d]);
    TotalConcat(a, b);
    SquaresConcat(a + [d], b);
    SquaresConcat(a, [d]);
    SquaresConcat(a, b);
    assert Total([d]) == d && Squares([d]) == d * d;
    TotalSquaredBound(a + b);
    assert |a + b| == n - 1;
    SamuelsonStep(n, d, Spread(xs), Total(a + b), Squares(a + b));
  }

  /** Groups of at most 10 amounts never pass the z > 3 test, since sqrt(n-1) <= 3. */
  lemma SmallGroupNeverOutlier(xs: seq<int>, i: nat)
    requires i < |xs| <= 10
    ensures |xs| * Deviations(xs)[i] * Deviations(xs)[i] <= 9 * Spread(xs)
  {
    Samuelson(xs, i);
    SquaresNonNegative(Deviations(xs));
    MulMonotone(|xs| - 1, 9, Spread(xs));
  }

  /** n*mean == total: mean is the mean of n values adding to total. */
  predicate IsMean(n: nat, total: real, mean: real) {
    n as real * mean == total
  }

  /** The integer q, read as a real, is n^2 times r. */
  predicate ScaledBy(q: int, n: nat, r: real) {
    q as real == (n * n) as real * r
  }

  /** d^2 == n^2 * (y - mean)^2 in real arithmetic, where d == n*y - S and n*mean == S. */
  lemma ScaledTerm(n: nat, y: int, sum: int, mean: real, d: int)
    requires n > 0 && IsMean(n, sum as real, mean) && d == n * y - sum
    ensures ScaledBy(d * d, n, (y as real - mean) * (y as real - mean))
  {
    var nr := n as real;
    var e := y as real - mean;
    assert d as real == nr * e;
    assert (d * d) as real == (nr * e) * (nr * e);
    assert (n * n) as real == nr * nr;
  }

  /** Scaling by n^2 distributes over a sum. */
  lemma ScaledSum(q1: int, q2: int, n: nat, r1: real, r2: real)
    requires ScaledBy(q1, n, r1) && ScaledBy(q2, n, r2)
    ensures ScaledBy(q1 + q2, n, r1 + r2)
  {
    var c := (n * n) as real;
    assert c * (r1 + r2) == c * r1 + c * r2;
  }

  /** The sum of (a*y - b)^2 over a sequence. */
  function AffineSquares(ys: seq<int>, a: int, b: int): int
    decreases |ys|
  {
    if |ys| == 0 then 0 else (a * ys[0] - b) * (a * ys[0] - b) + AffineSquares(ys[1..], a, b)
  }

  lemma {:induction false} AffineSquaresOfMap(ys: seq<int>, a: int, b: int)
    ensures Squares(seq(|ys|, j requires 0 <= j < |ys| => a * ys[j] - b)) == AffineSquares(ys, a, b)
    decreases |ys|
  {
    var zs := seq(|ys|, j requires 0 <= j < |ys| => a * ys[j] - b);
    if |ys| > 0 {
      var rest := seq(|ys[1..]|, j requires 0 <= j < |ys[1..]| => a * ys[1..][j] - b);
      assert zs[1..] == rest;
      AffineSquaresOfMap(ys[1..], a, b);
    }
  }

  lemma {:induction false} SpreadIsAffineSquares(xs: seq<int>)
    ensures Spread(xs) == AffineSquares(xs, |xs|, Total(xs))
  {
    assert Deviations(xs) == seq(|xs|, j requires 0 <= j < |xs| => |xs| * xs[j] - Total(xs));
    AffineSquaresOfMap(xs, |xs|, Total(xs));
  }

  /** Summing the terms: Q == n^2 * sum (x - mean)^2. */
  lemma {:induction false} ScaledSquares(ys: seq<int>, n: nat, sum: int, mean: real)
    requires n > 0 && IsMean(n, sum as real, mean)
    ensures ScaledBy(AffineSquares(ys, n, sum), n, RealSquares(ys, mean))
    decreases |ys|
  {
    if |ys| > 0 {
      ScaledSquares(ys[1..], n, sum, mean);
      ScaledTerm(n, ys[0], sum, mean, n * ys[0] - sum);
      ScaledSum((n * ys[0] - sum) * (n * ys[0] - sum), AffineSquares(ys[1..], n, sum), n,
        (ys[0] as real - mean) * (ys[0] as real - mean), RealSquares(ys[1..], mean));
    }
  }

  /** Q == n^2 * sum (x - mean)^2 for the sequence's own mean. */
  lemma {:induction false} SpreadScaled(xs: seq<int>, mean: real)
    requires |xs| > 0 && IsMean(|xs|, Total(xs) as real, mean)
    ensures ScaledBy(Spread(xs), |xs|, RealSquares(xs, mean))
  {
    SpreadIsAffineSquares(xs);
    ScaledSquares(xs, |xs|, Total(xs), mean);
  }

  /**
   * The z-test arithmetic once Q and d^2 are written as n^2 times their
   * real counterparts, with variance the mean of the real squares.
   */
  lemma ZTestArithmetic(n: nat, q: int, d: int, e2: real, rs: real, variance: real)
    requires n > 0
    requires ScaledBy(q, n, rs) && ScaledBy(d * d, n, e2) && IsMean(n, rs, variance)
    ensures variance == 0.0 <==> q == 0
    ensures e2 > 9.0 * variance <==> n * d * d > 9 * q
  {
    var nr := n as real;
    assert (n * n) as real == nr * nr;
    assert (n * d * d) as real == nr * (d * d) as real;
    var c := nr * nr * nr;
    assert c > 0.0 by {
      assert nr * nr > 0.0;
    }
    assert (n * d * d) as real == c * e2;
    assert (9 * q) as real == c * (9.0 * variance);
    assert e2 > 9.0 * variance <==> c * e2 > c * (9.0 * variance);
  }

  /**
   * The integer form is the population z-score test: for the mean
   * (n*mean == S) and the variance (n*variance == sum (x - mean)^2), the
   * variance is zero exactly when Q == 0, and (x_i - mean)^2 > 9*variance
   * exactly when n*d_i^2 > 9*Q.
   */
  lemma {:induction false} ZTestIntegerForm(xs: seq<int>, i: nat, mean: real, variance: real)
    requires i < |xs|
    requires |xs| as real * mean == Total(xs) as real
    requires |xs| as real * variance == RealSquares(xs, mean)
    ensures variance == 0.0 <==> Spread(xs) == 0
    ensures (xs[i] as real - mean) * (xs[i] as real - mean) > 9.0 * variance
      <==> |xs| * Deviations(xs)[i] * Deviations(xs)[i] > 9 * Spread(xs)
  {
    SpreadScaled(xs, mean);
    DeviationScaled(xs, i, mean);
    ZTestArithmetic(|xs|, Spread(xs), Deviations(xs)[i], (xs[i] as real - mean) * (xs[i] as real - mean),
      RealSquares(xs, mean), variance);
  }

  /** d_i^2 == n^2 * (x_i - mean)^2. */
  lemma DeviationScaled(xs: seq<int>, i: nat, mean: real)
    requires i < |xs| && IsMean(|xs|, Total(xs) as real, mean)
    ensures ScaledBy(Deviations(xs)[i] * Deviations(xs)[i], |xs|, (xs[i] as real - mean) * (xs[i] as real - mean))
  {
    ScaledTerm(|xs|, xs[i], Total(xs), mean, Deviations(xs)[i]);
  }
}
