/** The threat trajectory: the slope a loop of running sums computes is the
    least-squares slope of the confidences over their positions. */
module Trajectory {

  // ---- running sums over the first k points (i, ys[i]) --------------------------------

  function SumX(k: nat): real {
    if k == 0 then 0.0 else SumX(k - 1) + (k - 1) as real
  }

  function SumXX(k: nat): real {
    if k == 0 then 0.0 else SumXX(k - 1) + (k - 1) as real * (k - 1) as real
  }

  function SumY(ys: seq<real>, k: nat): real
    requires k <= |ys|
  {
    if k == 0 then 0.0 else SumY(ys, k - 1) + ys[k - 1]
  }

  function SumYY(ys: seq<real>, k: nat): real
    requires k <= |ys|
  {
    if k == 0 then 0.0 else SumYY(ys, k - 1) + ys[k - 1] * ys[k - 1]
  }

  function SumXY(ys: seq<real>, k: nat): real
    requires k <= |ys|
  {
    if k == 0 then 0.0 else SumXY(ys, k - 1) + (k - 1) as real * ys[k - 1]
  }

  /** `n·Σxy − Σx·Σy` */
  function Cross(n: real, sx: real, sy: real, sxy: real): real {
    n * sxy - sx * sy
  }

  function Numerator(ys: seq<real>): real {
    Cross(|ys| as real, SumX(|ys|), SumY(ys, |ys|), SumXY(ys, |ys|))
  }

  function Denominator(n: nat): real {
    Cross(n as real, SumX(n), SumX(n), SumXX(n))
  }

  function Slope(ys: seq<real>): real {
    if |ys| < 2 || Denominator(|ys|) == 0.0 then 0.0 else Numerator(ys) / Denominator(|ys|)
  }

  const SMALL_DENOMINATOR := 0.000001

  function Abs(r: real): real {
    if r < 0.0 then -r else r
  }

  /** Products kept as they are where the reasoning is linear in them. */
  function Mul(u: real, v: real): real {
    u * v
  }

  function Square(u: real): real {
    u * u
  }

  /** The loop of `compute_trajectory`, guard and all. */
  method RegressionSlope(ys: seq<real>) returns (slope: real)
    ensures slope == Slope(ys)
  {
    if |ys| < 2 {
      return 0.0;
    }
    hide SumX, SumXX, SumY, SumXY, Cross, Numerator, Denominator, Slope, Mul, Abs;
    var n := |ys| as real;
    var sumX, sumY, sumXY, sumXX := 0.0, 0.0, 0.0, 0.0;
    EmptySums(ys);
    for i := 0 to |ys|
      invariant sumX == SumX(i) && sumXX == SumXX(i)
      invariant sumY == SumY(ys, i) && sumXY == SumXY(ys, i)
    {
      var x := i as real;
      var y := ys[i];
      SumStep(ys, i);
      sumX := sumX + x;
      sumY := sumY + y;
      sumXY := sumXY + Mul(x, y);
      sumXX := sumXX + Mul(x, x);
    }
    var denominator := Cross(n, sumX, sumX, sumXX);
    SlopeOfSums(ys, sumX, sumXX, sumY, sumXY);
    if Abs(denominator) < SMALL_DENOMINATOR {
      return 0.0;
    }
    slope := Cross(n, sumX, sumY, sumXY) / denominator;
  }

  lemma SlopeOfSums(ys: seq<real>, sx: real, sxx: real, sy: real, sxy: real)
    requires |ys| >= 2 && sx == SumX(|ys|) && sxx == SumXX(|ys|)
    requires sy == SumY(ys, |ys|) && sxy == SumXY(ys, |ys|)
    ensures var n := |ys| as real; var d := Cross(n, sx, sx, sxx);
            Abs(d) >= SMALL_DENOMINATOR && d != 0.0 && Slope(ys) == Cross(n, sx, sy, sxy) / d
  {
    hide SumX, SumXX, SumY, SumXY, Cross;
    GuardNeverFires(|ys|);
  }

  lemma EmptySums(ys: seq<real>)
    ensures SumX(0) == SumXX(0) == 0.0 && SumY(ys, 0) == SumXY(ys, 0) == SumYY(ys, 0) == 0.0
  {
  }

  lemma SumStep(ys: seq<real>, i: nat)
    requires i < |ys|
    ensures SumX(i + 1) == SumX(i) + i as real && SumXX(i + 1) == SumXX(i) + Mul(i as real, i as real)
    ensures SumY(ys, i + 1) == SumY(ys, i) + ys[i] && SumXY(ys, i + 1) == SumXY(ys, i) + Mul(i as real, ys[i])
    ensures SumYY(ys, i + 1) == SumYY(ys, i) + Mul(ys[i], ys[i])
  {
  }

  // ---- the denominator ------------------------------------------------------------------

  lemma {:induction false} SumXClosed(k: nat)
    ensures 2.0 * SumX(k) == k as real * (k as real - 1.0)
  {
    if k > 0 {
      SumXClosed(k - 1);
      var r := (k - 1) as real;
      assert k as real == r + 1.0;
      assert 2.0 * SumX(k) == r * (r - 1.0) + 2.0 * r == (r + 1.0) * r;
    }
  }

  lemma {:induction false} SumXXClosed(k: nat)
    ensures 6.0 * SumXX(k) == k as real * (k as real - 1.0) * (2.0 * k as real - 1.0)
  {
    if k > 0 {
      SumXXClosed(k - 1);
      var r := (k - 1) as real;
      assert k as real == r + 1.0;
      Cubic(r);
    }
  }

  lemma Cubic(r: real)
    ensures r * (r - 1.0) * (2.0 * r - 1.0) + 6.0 * (r * r) == (r + 1.0) * r * (2.0 * r + 1.0)
  {
    var s, t := r * r, r * r * r;
    assert r * (r - 1.0) * (2.0 * r - 1.0) == 2.0 * t - 3.0 * s + r;
    assert (r + 1.0) * r * (2.0 * r + 1.0) == 2.0 * t + 3.0 * s + r;
  }

  /** For n points the denominator is n²(n² − 1)/12. */
  lemma DenominatorClosed(n: nat)
    ensures var m := n as real * n as real; 12.0 * Denominator(n) == m * (m - 1.0)
  {
    SumXClosed(n);
    SumXXClosed(n);
    Quartic(n as real, SumX(n), SumXX(n));
  }

  lemma Quartic(r: real, sx: real, sxx: real)
    requires 2.0 * sx == r * (r - 1.0) && 6.0 * sxx == r * (r - 1.0) * (2.0 * r - 1.0)
    ensures 12.0 * (r * sxx - sx * sx) == r * r * (r * r - 1.0)
  {
    var p := r * (r - 1.0);
    assert 12.0 * (r * sxx) == 2.0 * r * (6.0 * sxx) == 2.0 * r * (p * (2.0 * r - 1.0));
    assert 12.0 * (sx * sx) == 3.0 * ((2.0 * sx) * (2.0 * sx)) == 3.0 * (p * p);
    var s, t, q := r * r, r * r * r, r * r * r * r;
    assert p == s - r;
    assert p * (2.0 * r - 1.0) == 2.0 * t - 3.0 * s + r;
    assert 2.0 * r * (p * (2.0 * r - 1.0)) == 4.0 * q - 6.0 * t + 2.0 * s;
    assert p * p == q - 2.0 * t + s;
  }

  /** From two points on the guard against small denominators never fires. */
  lemma GuardNeverFires(n: nat)
    requires n >= 2
    ensures Denominator(n) >= 1.0 && Abs(Denominator(n)) >= SMALL_DENOMINATOR
  {
    DenominatorClosed(n);
    var r := n as real;
    var m := r * r;
    assert m >= 2.0 * r >= 4.0;
    assert m * (m - 1.0) >= 4.0 * (m - 1.0) >= 12.0;
  }

  // ---- least squares -----------------------------------------------------------------------

  /** The squared distance of a point from the line a + b·x. */
  function Residual(x: real, y: real, a: real, b: real): real {
    var d := y - (a + b * x);
    d * d
  }

  /** The sum of squared distances of the first k points from the line. */
  function SquaredError(ys: seq<real>, a: real, b: real, k: nat): real
    requires k <= |ys|
  {
    if k == 0 then 0.0 else SquaredError(ys, a, b, k - 1) + Residual((k - 1) as real, ys[k - 1], a, b)
  }

  lemma {:induction false} SquaredErrorExpanded(ys: seq<real>, a: real, b: real, k: nat)
    requires k <= |ys|
    ensures SquaredError(ys, a, b, k) ==
            Expanded(a, b, k as real, SumX(k), SumXX(k), SumY(ys, k), SumXY(ys, k), SumYY(ys, k))
  {
    hide SumX, SumXX, SumY, SumXY, SumYY, Expanded, Residual;
    if k == 0 {
      EmptySums(ys);
      ExpandedEmpty(a, b);
    } else {
      SquaredErrorExpanded(ys, a, b, k - 1);
      ExpandedNext(ys, a, b, k - 1);
    }
  }

  lemma MulSum(c: real, u: real, v: real)
    ensures Mul(c, u + v) == Mul(c, u) + Mul(c, v)
  {
  }

  lemma MulOne(c: real)
    ensures Mul(c, 1.0) == c
  {
  }

  function Expanded(a: real, b: real, n: real, sx: real, sxx: real, sy: real, sxy: real, syy: real): real {
    syy - 2.0 * Mul(a, sy) - 2.0 * Mul(b, sxy) + Mul(a * a, n) + 2.0 * Mul(a * b, sx) + Mul(b * b, sxx)
  }

  lemma ExpandedEmpty(a: real, b: real)
    ensures Expanded(a, b, 0.0, 0.0, 0.0, 0.0, 0.0, 0.0) == 0.0
  {
  }

  lemma ExpandedNext(ys: seq<real>, a: real, b: real, i: nat)
    requires i < |ys|
    ensures Expanded(a, b, (i + 1) as real, SumX(i + 1), SumXX(i + 1), SumY(ys, i + 1), SumXY(ys, i + 1),
                     SumYY(ys, i + 1))
            == Expanded(a, b, i as real, SumX(i), SumXX(i), SumY(ys, i), SumXY(ys, i), SumYY(ys, i))
               + Residual(i as real, ys[i], a, b)
  {
    hide SumX, SumXX, SumY, SumXY, SumYY, Expanded, Residual;
    SumStep(ys, i);
    assert (i + 1) as real == i as real + 1.0;
    ExpandedStep(a, b, i as real, ys[i], SumX(i), SumXX(i), SumY(ys, i), SumXY(ys, i), SumYY(ys, i),
                 SumXX(i + 1), SumXY(ys, i + 1), SumYY(ys, i + 1));
  }

  lemma ExpandedStep(a: real, b: real, x: real, y: real, sx: real, sxx: real, sy: real, sxy: real, syy: real,
                     nextXX: real, nextXY: real, nextYY: real)
    requires nextXX == sxx + Mul(x, x) && nextXY == sxy + Mul(x, y) && nextYY == syy + Mul(y, y)
    ensures Expanded(a, b, x + 1.0, sx + x, nextXX, sy + y, nextXY, nextYY) ==
            Expanded(a, b, x, sx, sxx, sy, sxy, syy) + Residual(x, y, a, b)
  {
    hide Mul, Residual;
    ResidualExpanded(x, y, a, b);
    MulSum(a, sy, y);
    MulSum(b, sxy, Mul(x, y));
    MulSum(a * a, x, 1.0);
    MulOne(a * a);
    MulSum(a * b, sx, x);
    MulSum(b * b, sxx, Mul(x, x));
  }

  lemma Distribute(c: real, u: real, v: real)
    ensures c * (u + v) == c * u + c * v
  {
  }

  lemma SquareOfSum(u: real, v: real, w: real)
    ensures Square(u + v - w) ==
            Mul(u, u) + Mul(v, v) + Mul(w, w) + 2.0 * Mul(u, v) - 2.0 * Mul(u, w) - 2.0 * Mul(v, w)
  {
  }

  lemma ResidualExpanded(x: real, y: real, a: real, b: real)
    ensures Residual(x, y, a, b) ==
            Mul(y, y) - 2.0 * Mul(a, y) - 2.0 * Mul(b, Mul(x, y)) + a * a + 2.0 * Mul(a * b, x) + Mul(b * b, Mul(x, x))
  {
    var c := b * x;
    SquareOfSum(a, c, y);
    assert (y - (a + c)) * (y - (a + c)) == (a + c - y) * (a + c - y);
    assert c * y == b * (x * y);
    assert a * c == (a * b) * x;
    assert c * c == (b * b) * (x * x);
  }

  function Intercept(ys: seq<real>): real
    requires |ys| > 0
  {
    (SumY(ys, |ys|) - Slope(ys) * SumX(|ys|)) / |ys| as real
  }

  /** The part of n times the squared error that no choice of line removes. */
  function Irreducible(n: real, sx: real, sy: real, sxy: real, syy: real, slope: real): real {
    Mul(n, syy) - Mul(sy, sy) - Mul(slope, Cross(n, sx, sy, sxy))
  }

  lemma ScaledExpansion(n: real, sx: real, sxx: real, sy: real, sxy: real, syy: real, a: real, b: real)
    ensures var u, v := Mul(n, a), Mul(b, sx);
            Mul(n, Expanded(a, b, n, sx, sxx, sy, sxy, syy)) ==
            Mul(n, syy) - 2.0 * Mul(u, sy) - 2.0 * Mul(b, Mul(n, sxy)) + Mul(u, u) + 2.0 * Mul(u, v)
            + Mul(b * b, Mul(n, sxx))
  {
    var u, v := n * a, b * sx;
    assert n * (a * sy) == u * sy;
    assert n * (b * sxy) == b * (n * sxy);
    assert n * ((a * a) * n) == u * u;
    assert n * ((a * b) * sx) == u * v;
    assert n * ((b * b) * sxx) == (b * b) * (n * sxx);
  }

  lemma SquaredGap(d: real, b: real, slope: real)
    ensures Mul(d, Square(b - slope)) == Mul(d, b * b) - 2.0 * Mul(b, Mul(slope, d)) + Mul(slope, Mul(slope, d))
  {
    assert (b - slope) * (b - slope) == b * b - 2.0 * (b * slope) + slope * slope;
    assert d * (b * slope) == b * (slope * d);
    assert d * (slope * slope) == slope * (slope * d);
    Distribute(d, b * b - 2.0 * (b * slope), slope * slope);
    Distribute(d, b * b, -2.0 * (b * slope));
  }

  lemma SplitProducts(n: real, sx: real, sy: real, sxx: real, sxy: real, b: real)
    ensures var v := Mul(b, sx);
            && Mul(Cross(n, sx, sx, sxx), b * b) == Mul(b * b, Mul(n, sxx)) - Mul(v, v)
            && Mul(b, Cross(n, sx, sy, sxy)) == Mul(b, Mul(n, sxy)) - Mul(v, sy)
  {
    assert (sx * sx) * (b * b) == (b * sx) * (b * sx);
    assert b * (sx * sy) == (b * sx) * sy;
    Distribute(b * b, n * sxx, -(sx * sx));
    Distribute(b, n * sxy, -(sx * sy));
  }

  /** Completing both squares. */
  lemma CompletedSquares(n: real, sx: real, sy: real, sxx: real, sxy: real, syy: real, a: real, b: real, slope: real)
    requires Mul(slope, Cross(n, sx, sx, sxx)) == Cross(n, sx, sy, sxy)
    ensures Mul(n, Expanded(a, b, n, sx, sxx, sy, sxy, syy)) ==
            Square(Mul(n, a) + Mul(b, sx) - sy) + Mul(Cross(n, sx, sx, sxx), Square(b - slope))
            + Irreducible(n, sx, sy, sxy, syy, slope)
  {
    hide Cross, Expanded, Mul, Square;
    var u, v, d, c := Mul(n, a), Mul(b, sx), Cross(n, sx, sx, sxx), Cross(n, sx, sy, sxy);
    ScaledExpansion(n, sx, sxx, sy, sxy, syy, a, b);
    SquareOfSum(u, v, sy);
    SplitProducts(n, sx, sy, sxx, sxy, b);
    SquaredGap(d, b, slope);
  }

  lemma BestLineIsBetter(n: real, sx: real, sy: real, sxx: real, sxy: real, syy: real, best: real, slope: real,
                         a: real, b: real)
    requires n > 0.0 && Cross(n, sx, sx, sxx) >= 0.0
    requires slope * Cross(n, sx, sx, sxx) == Cross(n, sx, sy, sxy) && n * best == sy - slope * sx
    ensures Expanded(best, slope, n, sx, sxx, sy, sxy, syy) <= Expanded(a, b, n, sx, sxx, sy, sxy, syy)
  {
    hide Cross, Expanded, Irreducible;
    CompletedSquares(n, sx, sy, sxx, sxy, syy, a, b, slope);
    CompletedSquares(n, sx, sy, sxx, sxy, syy, best, slope, slope);
    NonNegativeProducts(Mul(n, a) + Mul(b, sx) - sy, b - slope, Cross(n, sx, sx, sxx));
    Scaled(n, Expanded(best, slope, n, sx, sxx, sy, sxy, syy), Expanded(a, b, n, sx, sxx, sy, sxy, syy));
  }

  /** No line fits the retained points better. */
  lemma LeastSquares(ys: seq<real>, a: real, b: real)
    requires |ys| >= 2
    ensures SquaredError(ys, Intercept(ys), Slope(ys), |ys|) <= SquaredError(ys, a, b, |ys|)
  {
    hide SumX, SumXX, SumY, SumXY, SumYY, SquaredError, Expanded, Cross;
    var n := |ys|;
    GuardNeverFires(n);
    var slope, best := Slope(ys), Intercept(ys);
    Quotient(Numerator(ys), Denominator(n));
    Quotient(SumY(ys, n) - slope * SumX(n), n as real);
    SquaredErrorExpanded(ys, a, b, n);
    SquaredErrorExpanded(ys, best, slope, n);
    BestLineIsBetter(n as real, SumX(n), SumY(ys, n), SumXX(n), SumXY(ys, n), SumYY(ys, n), best, slope, a, b);
  }

  lemma Quotient(c: real, d: real)
    requires d > 0.0
    ensures c / d * d == c && d * (c / d) == c
  {
  }

  lemma NonNegativeProducts(u: real, v: real, d: real)
    requires d >= 0.0
    ensures Square(u) >= 0.0 && Mul(d, Square(v)) >= 0.0
  {
    assert v * v >= 0.0;
  }

  lemma Scaled(r: real, x: real, y: real)
    requires r > 0.0 && r * x <= r * y
    ensures x <= y
  {
  }

  // ---- shape -----------------------------------------------------------------------------------

  lemma {:induction false} SumsOfConstant(ys: seq<real>, c: real, k: nat)
    requires k <= |ys| && forall i | 0 <= i < |ys| :: ys[i] == c
    ensures SumY(ys, k) == c * k as real && SumXY(ys, k) == c * SumX(k)
  {
    if k > 0 {
      SumsOfConstant(ys, c, k - 1);
      assert k as real == (k - 1) as real + 1.0;
      Distribute(c, SumX(k - 1), (k - 1) as real);
    }
  }

  /** Equal confidences have slope zero. */
  lemma FlatOnConstants(ys: seq<real>, c: real)
    requires forall i | 0 <= i < |ys| :: ys[i] == c
    ensures Slope(ys) == 0.0
  {
    hide SumX, SumY, SumXY, SumXX;
    var n := |ys|;
    SumsOfConstant(ys, c, n);
    assert n as real * (c * SumX(n)) == SumX(n) * (c * n as real);
    assert Numerator(ys) == 0.0;
    if n >= 2 {
      GuardNeverFires(n);
    }
  }

  /** `Σ (m − x)(v − y)` over k points. */
  function LaterGain(m: real, k: real, v: real, sx: real, sy: real, sxy: real): real {
    sxy - m * sy + v * (m * k - sx)
  }

  lemma LaterGainStep(m: real, x: real, y: real, v: real, sx: real, sy: real, sxy: real,
                      nextK: real, nextX: real, nextY: real, nextXY: real)
    requires nextK == x + 1.0 && nextX == sx + x && nextY == sy + y && nextXY == sxy + Mul(x, y)
    ensures LaterGain(m, nextK, v, nextX, nextY, nextXY) == LaterGain(m, x, v, sx, sy, sxy) + (m - x) * (v - y)
  {
    assert (m - x) * (v - y) == m * v - m * y - x * v + x * y;
    Distribute(m, sy, y);
    Distribute(v, m * x - sx, m - x);
    assert m * (x + 1.0) == m * x + m;
  }

  /** A later point that is no lower than the earlier ones adds to the numerator. */
  lemma {:induction false} LaterPointAdds(ys: seq<real>, v: real, m: real, k: nat)
    requires k <= |ys| && k as real <= m && forall i | 0 <= i < k :: ys[i] <= v
    ensures LaterGain(m, k as real, v, SumX(k), SumY(ys, k), SumXY(ys, k)) >= 0.0
  {
    hide SumX, SumY, SumXY, LaterGain;
    if k == 0 {
      EmptySums(ys);
      NoGain(m, v);
    } else {
      LaterPointAdds(ys, v, m, k - 1);
      var x := (k - 1) as real;
      assert k as real == x + 1.0;
      SumStep(ys, k - 1);
      LaterGainStep(m, x, ys[k - 1], v, SumX(k - 1), SumY(ys, k - 1), SumXY(ys, k - 1),
                    k as real, SumX(k), SumY(ys, k), SumXY(ys, k));
      ProductNonNegative(m - x, v - ys[k - 1]);
    }
  }

  lemma NoGain(m: real, v: real)
    ensures LaterGain(m, 0.0, v, 0.0, 0.0, 0.0) == 0.0
  {
  }

  lemma ProductNonNegative(u: real, v: real)
    requires u >= 0.0 && v >= 0.0
    ensures u * v >= 0.0
  {
  }

  lemma {:induction false} NumeratorNonNegative(ys: seq<real>, k: nat)
    requires k <= |ys| && forall i, j | 0 <= i < j < |ys| :: ys[i] <= ys[j]
    ensures Cross(k as real, SumX(k), SumY(ys, k), SumXY(ys, k)) >= 0.0
  {
    hide SumX, SumY, SumXY, Cross, LaterGain;
    if k == 0 {
      EmptySums(ys);
      EmptyCross();
    } else {
      NumeratorNonNegative(ys, k - 1);
      LaterPointAdds(ys, ys[k - 1], (k - 1) as real, k - 1);
      assert k as real == (k - 1) as real + 1.0;
      SumStep(ys, k - 1);
      NumeratorStep((k - 1) as real, SumX(k - 1), SumY(ys, k - 1), SumXY(ys, k - 1), ys[k - 1],
                    k as real, SumX(k), SumY(ys, k), SumXY(ys, k));
    }
  }

  lemma EmptyCross()
    ensures Cross(0.0, 0.0, 0.0, 0.0) == 0.0
  {
  }

  lemma NumeratorStep(n: real, sx: real, sy: real, sxy: real, v: real,
                      nextN: real, nextX: real, nextY: real, nextXY: real)
    requires nextN == n + 1.0 && nextX == sx + n && nextY == sy + v && nextXY == sxy + Mul(n, v)
    ensures Cross(nextN, nextX, nextY, nextXY) == Cross(n, sx, sy, sxy) + LaterGain(n, n, v, sx, sy, sxy)
  {
    assert (n + 1.0) * (sxy + n * v) == n * sxy + sxy + n * n * v + n * v;
    assert (sx + n) * (sy + v) == sx * sy + sx * v + n * sy + n * v;
  }

  /** Confidences that never fall have no negative slope. */
  lemma RisingNonNegative(ys: seq<real>)
    requires forall i, j | 0 <= i < j < |ys| :: ys[i] <= ys[j]
    ensures Slope(ys) >= 0.0
  {
    hide SumX, SumY, SumXY, SumXX, Cross;
    NumeratorNonNegative(ys, |ys|);
    if |ys| >= 2 {
      GuardNeverFires(|ys|);
      QuotientNonNegative(Numerator(ys), Denominator(|ys|));
    }
  }

  lemma QuotientNonNegative(c: real, d: real)
    requires c >= 0.0 && d > 0.0
    ensures c / d >= 0.0
  {
  }

  /** `Σ (2i − n + 1)(2yᵢ − 1)` and `Σ (2i − n + 1)²`: four n-ths of numerator and
      denominator, seen from the middle of the window. */
  function Centred(ys: seq<real>, n: nat, k: nat): real
    requires k <= |ys|
  {
    if k == 0 then 0.0 else Centred(ys, n, k - 1) + Times(Offset(n, k - 1), 2.0 * ys[k - 1] - 1.0)
  }

  function CentredSquares(n: nat, k: nat): real {
    if k == 0 then 0.0 else CentredSquares(n, k - 1) + Times(Offset(n, k - 1), Offset(n, k - 1) as real)
  }

  /** Twice the distance of position `i` from the middle of `n` positions. */
  function Offset(n: nat, i: nat): int {
    2 * i - n + 1
  }

  function Times(m: int, z: real): real {
    m as real * z
  }

  lemma {:induction false} CentredBound(ys: seq<real>, n: nat, k: nat)
    requires k <= |ys| && forall i | 0 <= i < |ys| :: 0.0 <= ys[i] <= 1.0
    ensures -CentredSquares(n, k) <= Centred(ys, n, k) <= CentredSquares(n, k)
  {
    hide Offset, Times;
    if k > 0 {
      CentredBound(ys, n, k - 1);
      IntegerSquareDominates(Offset(n, k - 1), 2.0 * ys[k - 1] - 1.0);
    }
  }

  /** An integer is no larger than its square. */
  lemma IntegerSquareDominates(m: int, z: real)
    requires -1.0 <= z <= 1.0
    ensures -Times(m, m as real) <= Times(m, z) <= Times(m, m as real)
  {
    var r := m as real;
    if m == 0 {
    } else if m > 0 {
      ScaledIntoInterval(r, z);
      ProductNonNegative(r - 1.0, r);
      Distribute(r, r, -1.0);
    } else {
      ScaledIntoInterval(-r, z);
      ProductNonNegative(-r - 1.0, -r);
      Distribute(r, r, 1.0);
    }
  }

  lemma ScaledIntoInterval(r: real, z: real)
    requires r >= 0.0 && -1.0 <= z <= 1.0
    ensures -r <= r * z <= r
  {
    ProductNonNegative(r, 1.0 - z);
    ProductNonNegative(r, 1.0 + z);
    Distribute(r, 1.0, -z);
    Distribute(r, 1.0, z);
  }

  lemma {:induction false} CentredExpanded(ys: seq<real>, n: nat, k: nat)
    requires k <= |ys|
    ensures Centred(ys, n, k) == FromMiddle(n as real - 1.0, k as real, SumX(k), SumY(ys, k), SumXY(ys, k))
    ensures CentredSquares(n, k) == SquaresFromMiddle(n as real - 1.0, k as real, SumX(k), SumXX(k))
  {
    hide SumX, SumXX, SumY, SumXY, FromMiddle, SquaresFromMiddle, Times;
    if k == 0 {
      EmptySums(ys);
      EmptyFromMiddle(n as real - 1.0);
    } else {
      CentredExpanded(ys, n, k - 1);
      SumStep(ys, k - 1);
      var x, c := (k - 1) as real, n as real - 1.0;
      assert k as real == x + 1.0 && Offset(n, k - 1) as real == 2.0 * x - c;
      FromMiddleStep(Offset(n, k - 1), c, x, ys[k - 1], SumX(k - 1), SumXX(k - 1), SumY(ys, k - 1), SumXY(ys, k - 1),
                     k as real, SumX(k), SumXX(k), SumY(ys, k), SumXY(ys, k));
    }
  }

  function FromMiddle(c: real, n: real, sx: real, sy: real, sxy: real): real {
    4.0 * sxy - 2.0 * sx - 2.0 * Mul(c, sy) + Mul(c, n)
  }

  function SquaresFromMiddle(c: real, n: real, sx: real, sxx: real): real {
    4.0 * sxx - 4.0 * Mul(c, sx) + Mul(c * c, n)
  }

  lemma EmptyFromMiddle(c: real)
    ensures FromMiddle(c, 0.0, 0.0, 0.0, 0.0) == 0.0 && SquaresFromMiddle(c, 0.0, 0.0, 0.0) == 0.0
  {
  }

  lemma OffsetProducts(m: int, x: real, y: real, c: real)
    requires m as real == 2.0 * x - c
    ensures Times(m, 2.0 * y - 1.0) == 4.0 * Mul(x, y) - 2.0 * x - 2.0 * Mul(c, y) + c
    ensures Times(m, m as real) == 4.0 * Mul(x, x) - 4.0 * Mul(c, x) + c * c
  {
    assert (2.0 * x - c) * (2.0 * y - 1.0) == 4.0 * (x * y) - 2.0 * x - 2.0 * (c * y) + c;
    assert (2.0 * x - c) * (2.0 * x - c) == 4.0 * (x * x) - 4.0 * (c * x) + c * c;
  }

  lemma FromMiddleStep(m: int, c: real, x: real, y: real, sx: real, sxx: real, sy: real, sxy: real,
                       nextN: real, nextX: real, nextXX: real, nextY: real, nextXY: real)
    requires m as real == 2.0 * x - c
    requires nextN == x + 1.0 && nextX == sx + x && nextXX == sxx + Mul(x, x)
    requires nextY == sy + y && nextXY == sxy + Mul(x, y)
    ensures FromMiddle(c, nextN, nextX, nextY, nextXY) == FromMiddle(c, x, sx, sy, sxy) + Times(m, 2.0 * y - 1.0)
    ensures SquaresFromMiddle(c, nextN, nextX, nextXX) == SquaresFromMiddle(c, x, sx, sxx) + Times(m, m as real)
  {
    hide Mul, Times;
    OffsetProducts(m, x, y, c);
    MulSum(c, sy, y);
    MulSum(c, sx, x);
    MulSum(c, x, 1.0);
    MulOne(c);
    MulSum(c * c, x, 1.0);
    MulOne(c * c);
  }

  lemma CentredWhole(ys: seq<real>)
    ensures var r, n := |ys| as real, |ys|;
            r * Centred(ys, n, n) == 4.0 * Numerator(ys) && r * CentredSquares(n, n) == 4.0 * Denominator(n)
  {
    hide SumX, SumXX, SumY, SumXY, FromMiddle, SquaresFromMiddle, Cross, Centred, CentredSquares;
    var n := |ys|;
    CentredExpanded(ys, n, n);
    SumXClosed(n);
    Recentred(n as real, SumX(n), SumXX(n), SumY(ys, n), SumXY(ys, n), Centred(ys, n, n), CentredSquares(n, n));
  }

  lemma Recentred(r: real, sx: real, sxx: real, sy: real, sxy: real, p: real, q: real)
    requires 2.0 * sx == r * (r - 1.0)
    requires p == FromMiddle(r - 1.0, r, sx, sy, sxy) && q == SquaresFromMiddle(r - 1.0, r, sx, sxx)
    ensures r * p == 4.0 * Cross(r, sx, sy, sxy) && r * q == 4.0 * Cross(r, sx, sx, sxx)
  {
    var c := r - 1.0;
    assert c * r == 2.0 * sx;
    assert r * (c * sy) == 2.0 * (sx * sy);
    assert r * (c * sx) == 2.0 * (sx * sx);
    assert r * (c * c * r) == (r * c) * (r * c) == 4.0 * (sx * sx);
  }

  /** Confidences in the unit interval have a slope between −1 and 1. */
  lemma SlopeBounded(ys: seq<real>)
    requires forall i | 0 <= i < |ys| :: 0.0 <= ys[i] <= 1.0
    ensures -1.0 <= Slope(ys) <= 1.0
  {
    hide SumX, SumXX, SumY, SumXY, Centred, CentredSquares, Numerator, Denominator;
    var n := |ys|;
    if n >= 2 {
      GuardNeverFires(n);
      CentredBound(ys, n, n);
      CentredWhole(ys);
      var r, p, q := n as real, Centred(ys, n, n), CentredSquares(n, n);
      assert -(r * q) <= r * p <= r * q;
      QuotientBounded(Numerator(ys), Denominator(n));
    }
  }

  lemma QuotientBounded(c: real, d: real)
    requires d > 0.0 && -d <= c <= d
    ensures -1.0 <= c / d <= 1.0
  {
    assert c / d * d == c;
  }
}
