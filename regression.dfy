/** The least-squares fit of a SoloVPE scan (`_calculate_trend_params`):
    the absorbance of each raw data point against its pathlength, giving
    the slope, the intercept and the coefficient of determination r².

    Arithmetic is over `real`; the source computes in binary floating
    point. The specification function `TrendParamsOf` states the result in terms of
    sums over the points. The method `CalculateTrendParams` is the two
    accumulating loops of the source. The lemmas say what the result means:
    each of the two `ValueError`s is raised exactly when the pathlengths
    (respectively the absorbances) are all equal, the fitted line
    satisfies the least-squares normal equations, r² lies in [0, 1], and
    points that lie exactly on a line give back that line with r² = 1. */
module Regression {
  import opened Common

  /** One entry of `raw_data_points`. */
  datatype Point = Point(pathlength: real, absorbance: real)

  /** The dictionary the fit returns. */
  datatype TrendParams = TrendParams(n: nat, slope: real, intercept: real, rSquare: real)

  const SlopeError := ValueError("Error in slope calculation: denominator cannot equate to 0.")
  const RSquareError := ValueError("Error in r-square calculation: denominator cannot equate to 0.")

  /** Σ f(p) over the points. Every sum the fit uses is one of these. */
  function Total(pts: seq<Point>, f: Point -> real): real
  {
    if pts == [] then 0.0 else Total(pts[..|pts| - 1], f) + f(pts[|pts| - 1])
  }

  function Pathlength(p: Point): real { p.pathlength }
  function Absorbance(p: Point): real { p.absorbance }
  function One(p: Point): real { 1.0 }
  function Zero(p: Point): real { 0.0 }

  function SquareOf(f: Point -> real): Point -> real
  {
    p => f(p) * f(p)
  }

  function ProductOf(f: Point -> real, g: Point -> real): Point -> real
  {
    p => f(p) * g(p)
  }

  /** (f(p) − c)², summed by `SquaredDeviations`. */
  function DeviationSquared(f: Point -> real, c: real): Point -> real
  {
    p => (f(p) - c) * (f(p) - c)
  }

  /** Σ (f(p) − c)² over the points. */
  function SquaredDeviations(pts: seq<Point>, f: Point -> real, c: real): real
  {
    Total(pts, DeviationSquared(f, c))
  }

  /** n·q − s², for n values whose sum is s and whose sum of squares is q. */
  function SumSpread(n: real, s: real, q: real): real
  {
    n * q - s * s
  }

  /** n·Σxy − Σx·Σy, the numerator of the slope. */
  function SumCovariation(n: real, sx: real, sy: real, sxy: real): real
  {
    n * sxy - sx * sy
  }

  /** The least-squares slope from the four sums. */
  function LineSlope(n: real, sx: real, sy: real, sxx: real, sxy: real): real
    requires SumSpread(n, sx, sxx) != 0.0
  {
    SumCovariation(n, sx, sy, sxy) / SumSpread(n, sx, sxx)
  }

  /** The mean of n values whose sum is s. */
  function Average(s: real, n: real): real
    requires n != 0.0
  {
    s / n
  }

  /** The intercept of the line with slope b through the point (mx, my). */
  function LineIntercept(mx: real, my: real, b: real): real
  {
    my - b * mx
  }

  /** t = f + u·g + v·k. */
  predicate Lin(t: real, f: real, u: real, g: real, v: real, k: real)
  {
    t == f + u * g + v * k
  }

  /** n·Σf² − (Σf)², the denominator of the slope when f is the pathlength. */
  function Spread(pts: seq<Point>, f: Point -> real): real
  {
    SumSpread(|pts| as real, Total(pts, f), Total(pts, SquareOf(f)))
  }

  function Mean(pts: seq<Point>, f: Point -> real): real
    requires |pts| > 0
  {
    Average(Total(pts, f), |pts| as real)
  }

  /** The absorbance the fitted line predicts for a point. */
  function Predicted(p: Point, slope: real, intercept: real): real
  {
    p.pathlength * slope + intercept
  }

  function Residual(p: Point, slope: real, intercept: real): real
  {
    p.absorbance - Predicted(p, slope, intercept)
  }

  function Residuals(slope: real, intercept: real): Point -> real
  {
    p => Residual(p, slope, intercept)
  }

  function ResidualSquared(slope: real, intercept: real): Point -> real
  {
    p => Residual(p, slope, intercept) * Residual(p, slope, intercept)
  }

  function Moments(slope: real, intercept: real): Point -> real
  {
    (p: Point) => p.pathlength * Residual(p, slope, intercept)
  }

  function ExplainedSquared(slope: real, intercept: real, m: real): Point -> real
  {
    p => (Predicted(p, slope, intercept) - m) * (Predicted(p, slope, intercept) - m)
  }

  /** Σ (y − ŷ)², the residual sum of squares. */
  function SsRes(pts: seq<Point>, slope: real, intercept: real): real
  {
    Total(pts, ResidualSquared(slope, intercept))
  }

  /** Σ (y − ŷ). */
  function ResidualSum(pts: seq<Point>, slope: real, intercept: real): real
  {
    Total(pts, Residuals(slope, intercept))
  }

  /** Σ x·(y − ŷ). */
  function ResidualMoment(pts: seq<Point>, slope: real, intercept: real): real
  {
    Total(pts, Moments(slope, intercept))
  }

  /** Σ (ŷ − m)², the part of the spread around m that the line explains. */
  function Explained(pts: seq<Point>, slope: real, intercept: real, m: real): real
  {
    Total(pts, ExplainedSquared(slope, intercept, m))
  }

  predicate AllEqual(pts: seq<Point>, f: Point -> real)
  {
    forall i, j | 0 <= i < |pts| && 0 <= j < |pts| :: f(pts[i]) == f(pts[j])
  }

  /** The slope of the least-squares line: n·Σxy − Σx·Σy over n·Σx² − (Σx)². */
  function Slope(pts: seq<Point>): real
    requires Spread(pts, Pathlength) != 0.0
  {
    LineSlope(|pts| as real, Total(pts, Pathlength), Total(pts, Absorbance),
              Total(pts, SquareOf(Pathlength)), Total(pts, ProductOf(Pathlength, Absorbance)))
  }

  /** The intercept: mean absorbance minus slope times mean pathlength. */
  function Intercept(pts: seq<Point>): real
    requires |pts| > 0 && Spread(pts, Pathlength) != 0.0
  {
    LineIntercept(Mean(pts, Pathlength), Mean(pts, Absorbance), Slope(pts))
  }

  /** The result of `_calculate_trend_params` on `raw_data`. */
  function TrendParamsOf(pts: seq<Point>): (r: Result<TrendParams>)
    ensures r.Err? ==> r.error == SlopeError || r.error == RSquareError
    ensures r.Ok? ==> r.value.n == |pts| > 0
  {
    if Spread(pts, Pathlength) == 0.0 then Err(SlopeError)
    else
      assert |pts| > 0;
      var ssTot := SquaredDeviations(pts, Absorbance, Mean(pts, Absorbance));
      if ssTot == 0.0 then Err(RSquareError)
      else Ok(TrendParams(|pts|, Slope(pts), Intercept(pts),
                          1.0 - SsRes(pts, Slope(pts), Intercept(pts)) / ssTot))
  }

  /** `_calculate_trend_params`: one loop accumulates the four sums, a
      second one the residual and total sums of squares. */
  method CalculateTrendParams(rawData: seq<Point>) returns (r: Result<TrendParams>)
    ensures r == TrendParamsOf(rawData)
  {
    var n := |rawData|;
    var sumPathlength, sumAbsorbance, sumPathlengthSquared, sumPathlengthAbsorbance := SumsOf(rawData);

    var numerator := SumCovariation(n as real, sumPathlength, sumAbsorbance, sumPathlengthAbsorbance);
    var denominator := SumSpread(n as real, sumPathlength, sumPathlengthSquared);
    if denominator == 0.0 {
      return Err(SlopeError);
    }
    var slope := numerator / denominator;
    var meanAbsorbance := Average(sumAbsorbance, n as real);
    var meanPathlength := Average(sumPathlength, n as real);
    var intercept := LineIntercept(meanPathlength, meanAbsorbance, slope);
    assert slope == Slope(rawData) && intercept == Intercept(rawData);

    var ssRes, ssTot := SquaredSums(rawData, slope, intercept, meanAbsorbance);
    if ssTot == 0.0 {
      return Err(RSquareError);
    }
    return Ok(TrendParams(n, slope, intercept, 1.0 - ssRes / ssTot));
  }

  /** The first loop of `_calculate_trend_params`: Σx, Σy, Σx² and Σxy. */
  method SumsOf(rawData: seq<Point>)
    returns (sumPathlength: real, sumAbsorbance: real, sumPathlengthSquared: real,
             sumPathlengthAbsorbance: real)
    ensures sumPathlength == Total(rawData, Pathlength)
    ensures sumAbsorbance == Total(rawData, Absorbance)
    ensures sumPathlengthSquared == Total(rawData, SquareOf(Pathlength))
    ensures sumPathlengthAbsorbance == Total(rawData, ProductOf(Pathlength, Absorbance))
  {
    sumPathlength, sumAbsorbance := 0.0, 0.0;
    sumPathlengthSquared, sumPathlengthAbsorbance := 0.0, 0.0;
    for i := 0 to |rawData|
      invariant sumPathlength == Total(rawData[..i], Pathlength)
      invariant sumAbsorbance == Total(rawData[..i], Absorbance)
      invariant sumPathlengthSquared == Total(rawData[..i], SquareOf(Pathlength))
      invariant sumPathlengthAbsorbance == Total(rawData[..i], ProductOf(Pathlength, Absorbance))
    {
      assert rawData[..i + 1][..i] == rawData[..i];
      var p := rawData[i];
      sumPathlength := sumPathlength + p.pathlength;
      sumAbsorbance := sumAbsorbance + p.absorbance;
      sumPathlengthSquared := sumPathlengthSquared + p.pathlength * p.pathlength;
      sumPathlengthAbsorbance := sumPathlengthAbsorbance + p.pathlength * p.absorbance;
    }
    assert rawData[..|rawData|] == rawData;
  }

  /** The second loop of `_calculate_trend_params`: the residual sum of
      squares of the line and the total sum of squares around the mean. */
  method SquaredSums(rawData: seq<Point>, slope: real, intercept: real, meanAbsorbance: real)
    returns (ssRes: real, ssTot: real)
    ensures ssRes == SsRes(rawData, slope, intercept)
    ensures ssTot == SquaredDeviations(rawData, Absorbance, meanAbsorbance)
  {
    ssRes, ssTot := 0.0, 0.0;
    for i := 0 to |rawData|
      invariant ssRes == SsRes(rawData[..i], slope, intercept)
      invariant ssTot == SquaredDeviations(rawData[..i], Absorbance, meanAbsorbance)
    {
      assert rawData[..i + 1][..i] == rawData[..i];
      var p := rawData[i];
      var predictedAbsorbance := p.pathlength * slope + intercept;
      assert Absorbance(p) == p.absorbance;
      ssRes := ssRes + (p.absorbance - predictedAbsorbance) * (p.absorbance - predictedAbsorbance);
      ssTot := ssTot + (p.absorbance - meanAbsorbance) * (p.absorbance - meanAbsorbance);
    }
    assert rawData[..|rawData|] == rawData;
  }

  // ---------------------------------------------------------------------
  // Sums: the few facts every identity below is built from
  // ---------------------------------------------------------------------

  /** Σ (f + g) = Σf + Σg. */
  lemma {:induction false} TotalAdd(pts: seq<Point>, h: Point -> real, f: Point -> real, g: Point -> real)
    requires forall i | 0 <= i < |pts| :: h(pts[i]) == f(pts[i]) + g(pts[i])
    ensures Total(pts, h) == Total(pts, f) + Total(pts, g)
  {
    if pts != [] {
      var init := pts[..|pts| - 1];
      forall i | 0 <= i < |init| ensures h(init[i]) == f(init[i]) + g(init[i]) {
        assert init[i] == pts[i];
      }
      TotalAdd(init, h, f, g);
    }
  }

  lemma ScaleStep(c: real, s': real, s: real, x: real, t': real, t: real, y: real)
    requires s' == s + x && t == c * s && y == c * x && t' == t + y
    ensures t' == c * s'
  {}

  /** Σ c·f = c·Σf. */
  lemma {:induction false} TotalScale(pts: seq<Point>, f: Point -> real, g: Point -> real, c: real)
    requires forall i | 0 <= i < |pts| :: g(pts[i]) == c * f(pts[i])
    ensures Total(pts, g) == c * Total(pts, f)
  {
    if pts != [] {
      var init := pts[..|pts| - 1];
      forall i | 0 <= i < |init| ensures g(init[i]) == c * f(init[i]) {
        assert init[i] == pts[i];
      }
      TotalScale(init, f, g, c);
      ScaleStep(c, Total(pts, f), Total(init, f), f(pts[|pts| - 1]),
                Total(pts, g), Total(init, g), g(pts[|pts| - 1]));
    }
  }

  /** Σ 1 = n. */
  lemma {:induction false} TotalOne(pts: seq<Point>)
    ensures Total(pts, One) == |pts| as real
  {
    if pts != [] {
      TotalOne(pts[..|pts| - 1]);
    }
  }

  /** A sum of terms that are never negative is never negative, and it is
      zero exactly when every term is. */
  lemma {:induction false} TotalNonNegative(pts: seq<Point>, f: Point -> real)
    requires forall i | 0 <= i < |pts| :: f(pts[i]) >= 0.0
    ensures Total(pts, f) >= 0.0
    ensures Total(pts, f) == 0.0 <==> forall i | 0 <= i < |pts| :: f(pts[i]) == 0.0
  {
    if pts != [] {
      var init := pts[..|pts| - 1];
      forall i | 0 <= i < |init| ensures f(init[i]) >= 0.0 {
        assert init[i] == pts[i];
      }
      TotalNonNegative(init, f);
      if Total(pts, f) == 0.0 {
        forall i | 0 <= i < |pts| ensures f(pts[i]) == 0.0 {
          if i < |init| {
            assert pts[i] == init[i];
          }
        }
      }
      if forall i | 0 <= i < |pts| :: f(pts[i]) == 0.0 {
        forall i | 0 <= i < |init| ensures f(init[i]) == 0.0 {
          assert init[i] == pts[i];
        }
      }
    }
  }

  /** h = f + u·g + v·k at every point. */
  predicate Combines(pts: seq<Point>, h: Point -> real, f: Point -> real, g: Point -> real,
                     k: Point -> real, u: real, v: real)
  {
    forall i | 0 <= i < |pts| :: h(pts[i]) == f(pts[i]) + u * g(pts[i]) + v * k(pts[i])
  }

  /** Σh = Σf + u·Σg + v·Σk. Kept as a predicate so that lemmas about
      particular sums pass it on as one fact. */
  predicate SumsCombine(pts: seq<Point>, h: Point -> real, f: Point -> real, g: Point -> real,
                        k: Point -> real, u: real, v: real)
  {
    Lin(Total(pts, h), Total(pts, f), u, Total(pts, g), v, Total(pts, k))
  }

  /** Σ (f + u·g + v·k) = Σf + u·Σg + v·Σk. */
  lemma TotalCombination(pts: seq<Point>, h: Point -> real, f: Point -> real, g: Point -> real,
                         k: Point -> real, u: real, v: real)
    requires Combines(pts, h, f, g, k, u, v)
    ensures SumsCombine(pts, h, f, g, k, u, v)
  {
    var ug: Point -> real := p => u * g(p);
    var vk: Point -> real := p => v * k(p);
    var fug: Point -> real := p => f(p) + ug(p);
    TotalScale(pts, g, ug, u);
    TotalScale(pts, k, vk, v);
    TotalAdd(pts, fug, f, ug);
    TotalAdd(pts, h, fug, vk);
  }

  // ---------------------------------------------------------------------
  // Algebra on plain numbers, kept apart from the sums
  // ---------------------------------------------------------------------

  lemma Inverse(d: real, inv: real)
    requires d != 0.0 && inv == 1.0 / d
    ensures d * inv == 1.0
  {}

  lemma SquareInverse(d: real, s: real, inv: real)
    requires s == d * d && d * inv == 1.0
    ensures s * (inv * inv) == 1.0
  {
    assert s * (inv * inv) == (d * inv) * (d * inv);
  }

  /** The square of a number other than zero is not zero: multiplied by
      the square of the inverse it gives one. */
  lemma SquareNonZero(d: real, s: real)
    requires s == d * d && d != 0.0
    ensures s != 0.0
  {
    var inv := 1.0 / d;
    Inverse(d, inv);
    SquareInverse(d, s, inv);
  }

  /** s = d² is never negative, and it is zero exactly when d is. */
  lemma Square(d: real, s: real)
    requires s == d * d
    ensures s >= 0.0
    ensures s == 0.0 <==> d == 0.0
  {
    if d != 0.0 {
      SquareNonZero(d, s);
    }
  }

  lemma ExpandAlgebra(dev: real, sq: real, one: real, x: real, c: real)
    requires dev == (x - c) * (x - c) && sq == x * x && one == 1.0
    ensures dev == sq + (-2.0 * c) * x + (c * c) * one
  {}

  lemma ExpandTotals(sd: real, q: real, s: real, one: real, n: real, c: real)
    requires Lin(sd, q, -2.0 * c, s, c * c, one) && one == n
    ensures sd == q - 2.0 * c * s + n * c * c
  {}

  lemma SpreadAlgebra(sp': real, sp: real, sd: real, n': real, k: real,
                      q': real, q: real, s': real, s: real, x: real)
    requires sp' == SumSpread(n', s', q') && sp == SumSpread(k, s, q)
    requires sd == q - 2.0 * x * s + k * x * x
    requires n' == k + 1.0 && q' == q + x * x && s' == s + x
    ensures sp' == sp + sd
  {
    assert n' * q' == k * q + q + k * (x * x) + x * x;
    assert s' * s' == s * s + 2.0 * x * s + x * x;
  }

  lemma MeanAlgebra(sd: real, n: real, s: real, q: real, m: real)
    requires n > 0.0 && m == s / n
    requires sd == q - 2.0 * m * s + n * m * m
    ensures sd == SumSpread(n, s, q) / n
  {
    assert m * n == s;
    assert n * m * m == m * s;
    assert (n * q - s * s) / n == q - s * s / n;
    assert s * s / n == m * s;
  }

  lemma DivZero(x: real, n: real)
    requires n > 0.0
    ensures x / n == 0.0 <==> x == 0.0
  {
    assert x / n * n == x;
  }

  /** With res = Σy − b·Σx − a·n and mo = Σxy − b·Σx² − a·Σx, the
      least-squares b and a make both vanish. */
  lemma NormalAlgebra(n: real, one: real, sx: real, sy: real, sxx: real, sxy: real,
                      mx: real, my: real, res: real, mo: real, b: real, a: real)
    requires n > 0.0 && one == n && SumSpread(n, sx, sxx) != 0.0
    requires mx == Average(sx, n) && my == Average(sy, n)
    requires b == LineSlope(n, sx, sy, sxx, sxy) && a == LineIntercept(mx, my, b)
    requires Lin(res, sy, -b, sx, -a, one) && Lin(mo, sxy, -b, sxx, -a, sx)
    ensures res == 0.0 && mo == 0.0
    ensures a + b * mx == my
  {
    var cov, spr := SumCovariation(n, sx, sy, sxy), SumSpread(n, sx, sxx);
    assert b * spr == cov;
    assert n * my == sy;
    assert n * mx == sx;
    assert n * a == sy - b * sx;
    assert n * (sxy - b * sxx - a * sx) == n * sxy - b * (n * sxx) - (n * a) * sx;
    assert n * (sxy - b * sxx - a * sx) == cov - b * spr;
  }

  lemma MomentAlgebra(mo: real, xy: real, xx: real, x: real, y: real, r: real, b: real, a: real)
    requires mo == x * r && r == y - (x * b + a) && xy == x * y && xx == x * x
    ensures mo == xy + (-b) * xx + (-a) * x
  {
    assert x * r == x * y - b * (x * x) - a * x;
  }

  lemma LineAlgebra(xy: real, xx: real, x: real, y: real, k: real, d: real)
    requires y == x * k + d && xy == x * y && xx == x * x
    ensures xy == 0.0 + k * xx + d * x
  {
    assert x * (x * k + d) == k * (x * x) + d * x;
  }

  lemma SplitAlgebra(dev: real, rr: real, ee: real, mo: real,
                     y: real, x: real, r: real, q: real, b: real, a: real, m: real)
    requires r == y - q && q == x * b + a
    requires dev == (y - m) * (y - m) && rr == r * r && ee == (q - m) * (q - m) && mo == x * r
    ensures dev == (rr + ee) + (2.0 * b) * mo + (2.0 * (a - m)) * r
  {
    assert (y - m) * (y - m) == r * r + 2.0 * (r * (q - m)) + (q - m) * (q - m);
    assert r * (q - m) == b * (x * r) + (a - m) * r;
  }

  lemma CrossTermsVanish(t: real, parts: real, u: real, mo: real, v: real, re: real)
    requires Lin(t, parts, u, mo, v, re) && mo == 0.0 && re == 0.0
    ensures t == parts
  {}

  lemma LineGap(y1: real, y2: real, x1: real, x2: real, k: real, d: real)
    requires y1 == x1 * k + d && y2 == x2 * k + d && k != 0.0 && x1 != x2
    ensures y1 != y2
  {
    assert y1 - y2 == (x1 - x2) * k;
    assert (x1 - x2) * k / k == x1 - x2;
  }

  lemma RatioBound(r: real, t: real)
    requires 0.0 <= r <= t && t > 0.0
    ensures 0.0 <= 1.0 - r / t <= 1.0
  {
    assert r / t * t == r;
  }

  lemma SlopeAlgebra(n: real, one: real, z: real, sx: real, sxx: real, sy: real, sxy: real,
                     k: real, d: real)
    requires one == n && z == 0.0 && SumSpread(n, sx, sxx) != 0.0
    requires Lin(sy, z, k, sx, d, one) && Lin(sxy, z, k, sxx, d, sx)
    ensures LineSlope(n, sx, sy, sxx, sxy) == k
  {
    var spr := SumSpread(n, sx, sxx);
    assert SumCovariation(n, sx, sy, sxy) == k * spr;
    assert (k * spr) / spr == k;
  }

  lemma InterceptAlgebra(n: real, one: real, z: real, sx: real, sy: real, mx: real, my: real,
                         b: real, k: real, d: real)
    requires n > 0.0 && one == n && z == 0.0 && mx == Average(sx, n) && my == Average(sy, n)
    requires Lin(sy, z, k, sx, d, one) && b == k
    ensures LineIntercept(mx, my, b) == d
  {
    assert n * (k * mx + d) == k * sx + n * d;
  }

  // ---------------------------------------------------------------------
  // Sums of squares
  // ---------------------------------------------------------------------

  /** Σ (f − c)² = Σf² − 2c·Σf + n·c². */
  lemma SquaredDeviationsExpand(pts: seq<Point>, f: Point -> real, c: real)
    ensures SquaredDeviations(pts, f, c)
         == Total(pts, SquareOf(f)) - 2.0 * c * Total(pts, f) + |pts| as real * c * c
  {
    DeviationTerms(pts, f, c);
    TotalOne(pts);
    ExpandTotals(Total(pts, DeviationSquared(f, c)), Total(pts, SquareOf(f)), Total(pts, f),
                 Total(pts, One), |pts| as real, c);
  }

  lemma DeviationPoints(pts: seq<Point>, f: Point -> real, c: real)
    ensures Combines(pts, DeviationSquared(f, c), SquareOf(f), f, One, -2.0 * c, c * c)
  {
    forall i | 0 <= i < |pts|
      ensures DeviationSquared(f, c)(pts[i])
           == SquareOf(f)(pts[i]) + (-2.0 * c) * f(pts[i]) + (c * c) * One(pts[i])
    {
      ExpandAlgebra(DeviationSquared(f, c)(pts[i]), SquareOf(f)(pts[i]), One(pts[i]), f(pts[i]), c);
    }
  }

  lemma DeviationTerms(pts: seq<Point>, f: Point -> real, c: real)
    ensures SumsCombine(pts, DeviationSquared(f, c), SquareOf(f), f, One, -2.0 * c, c * c)
  {
    DeviationPoints(pts, f, c);
    TotalCombination(pts, DeviationSquared(f, c), SquareOf(f), f, One, -2.0 * c, c * c);
  }

  /** A sum of squares is never negative, and it is zero exactly when
      every term is. */
  lemma SquaredDeviationsZero(pts: seq<Point>, f: Point -> real, c: real)
    ensures SquaredDeviations(pts, f, c) >= 0.0
    ensures SquaredDeviations(pts, f, c) == 0.0 <==> forall i | 0 <= i < |pts| :: f(pts[i]) == c
  {
    forall i | 0 <= i < |pts|
      ensures DeviationSquared(f, c)(pts[i]) >= 0.0
      ensures DeviationSquared(f, c)(pts[i]) == 0.0 <==> f(pts[i]) == c
    {
      Square(f(pts[i]) - c, DeviationSquared(f, c)(pts[i]));
    }
    TotalNonNegative(pts, DeviationSquared(f, c));
  }

  /** Adding a point x to n points grows the spread n·Σf² − (Σf)² by the
      squared distances of x to the earlier points (Lagrange's identity,
      one point at a time). */
  lemma SpreadStep(pts: seq<Point>, f: Point -> real)
    requires pts != []
    ensures Spread(pts, f)
         == Spread(pts[..|pts| - 1], f) + SquaredDeviations(pts[..|pts| - 1], f, f(pts[|pts| - 1]))
  {
    var init := pts[..|pts| - 1];
    var x := f(pts[|pts| - 1]);
    SquaredDeviationsExpand(init, f, x);
    assert Total(pts, SquareOf(f)) == Total(init, SquareOf(f)) + x * x;
    SpreadAlgebra(Spread(pts, f), Spread(init, f), SquaredDeviations(init, f, x),
                  |pts| as real, |init| as real, Total(pts, SquareOf(f)), Total(init, SquareOf(f)),
                  Total(pts, f), Total(init, f), x);
  }

  /** The slope's denominator is never negative, and it is zero exactly
      when all values are equal (this includes no points at all). */
  lemma {:induction false} SpreadZero(pts: seq<Point>, f: Point -> real)
    ensures Spread(pts, f) >= 0.0
    ensures Spread(pts, f) == 0.0 <==> AllEqual(pts, f)
  {
    if pts != [] {
      var init := pts[..|pts| - 1];
      var x := f(pts[|pts| - 1]);
      SpreadStep(pts, f);
      SpreadZero(init, f);
      SquaredDeviationsZero(init, f, x);
      if AllEqual(pts, f) {
        forall i, j | 0 <= i < |init| && 0 <= j < |init| ensures f(init[i]) == f(init[j]) {
          assert init[i] == pts[i] && init[j] == pts[j];
        }
        forall i | 0 <= i < |init| ensures f(init[i]) == x {
          assert init[i] == pts[i];
        }
      }
      if Spread(pts, f) == 0.0 {
        forall i, j | 0 <= i < |pts| && 0 <= j < |pts| ensures f(pts[i]) == f(pts[j]) {
          if i < |init| { assert pts[i] == init[i]; }
          if j < |init| { assert pts[j] == init[j]; }
        }
      }
    }
  }

  /** Around the mean, the sum of squares is the spread divided by n. */
  lemma MeanDeviations(pts: seq<Point>, f: Point -> real)
    requires |pts| > 0
    ensures SquaredDeviations(pts, f, Mean(pts, f)) == Spread(pts, f) / |pts| as real
  {
    SquaredDeviationsExpand(pts, f, Mean(pts, f));
    MeanAlgebra(SquaredDeviations(pts, f, Mean(pts, f)), |pts| as real, Total(pts, f),
                Total(pts, SquareOf(f)), Mean(pts, f));
  }

  // ---------------------------------------------------------------------
  // When the fit raises
  // ---------------------------------------------------------------------

  /** The slope error is raised exactly when all pathlengths are equal
      (no points at all included); the r-square error exactly when the
      pathlengths differ but all absorbances are equal. */
  lemma TrendParamsFail(pts: seq<Point>)
    ensures TrendParamsOf(pts) == Err(SlopeError) <==> AllEqual(pts, Pathlength)
    ensures TrendParamsOf(pts) == Err(RSquareError)
        <==> !AllEqual(pts, Pathlength) && AllEqual(pts, Absorbance)
  {
    SpreadZero(pts, Pathlength);
    if pts != [] {
      MeanDeviations(pts, Absorbance);
      SpreadZero(pts, Absorbance);
      DivZero(Spread(pts, Absorbance), |pts| as real);
    }
  }

  /** The fit succeeds exactly when neither the pathlengths nor the
      absorbances are all equal, and then reports the least-squares slope. */
  lemma FitSucceeds(pts: seq<Point>)
    ensures TrendParamsOf(pts).Ok? <==> !AllEqual(pts, Pathlength) && !AllEqual(pts, Absorbance)
    ensures TrendParamsOf(pts).Ok? ==> Spread(pts, Pathlength) != 0.0 && TrendParamsOf(pts).value.slope == Slope(pts)
  {
    TrendParamsFail(pts);
  }

  // ---------------------------------------------------------------------
  // What the fitted line is
  // ---------------------------------------------------------------------

  lemma ResidualSumExpand(pts: seq<Point>, b: real, a: real)
    ensures SumsCombine(pts, Residuals(b, a), Absorbance, Pathlength, One, -b, -a)
  {
    TotalCombination(pts, Residuals(b, a), Absorbance, Pathlength, One, -b, -a);
  }

  lemma MomentTerms(pts: seq<Point>, b: real, a: real)
    ensures Combines(pts, Moments(b, a), ProductOf(Pathlength, Absorbance), SquareOf(Pathlength),
                     Pathlength, -b, -a)
  {
    forall i | 0 <= i < |pts|
      ensures Moments(b, a)(pts[i])
           == ProductOf(Pathlength, Absorbance)(pts[i]) + (-b) * SquareOf(Pathlength)(pts[i])
              + (-a) * Pathlength(pts[i])
    {
      MomentAlgebra(Moments(b, a)(pts[i]), ProductOf(Pathlength, Absorbance)(pts[i]),
                    SquareOf(Pathlength)(pts[i]), Pathlength(pts[i]), pts[i].absorbance,
                    Residual(pts[i], b, a), b, a);
    }
  }

  lemma ResidualMomentExpand(pts: seq<Point>, b: real, a: real)
    ensures SumsCombine(pts, Moments(b, a), ProductOf(Pathlength, Absorbance), SquareOf(Pathlength),
                        Pathlength, -b, -a)
  {
    MomentTerms(pts, b, a);
    TotalCombination(pts, Moments(b, a), ProductOf(Pathlength, Absorbance), SquareOf(Pathlength),
                     Pathlength, -b, -a);
  }

  /** The fitted slope and intercept solve the least-squares normal
      equations: the residuals sum to zero and are uncorrelated with the
      pathlength. The first equation says the line passes through the
      mean point. */
  lemma NormalEquations(pts: seq<Point>)
    requires TrendParamsOf(pts).Ok?
    ensures ResidualSum(pts, TrendParamsOf(pts).value.slope, TrendParamsOf(pts).value.intercept) == 0.0
    ensures ResidualMoment(pts, TrendParamsOf(pts).value.slope, TrendParamsOf(pts).value.intercept) == 0.0
    ensures TrendParamsOf(pts).value.intercept + TrendParamsOf(pts).value.slope * Mean(pts, Pathlength)
         == Mean(pts, Absorbance)
  {
    FittedLine(pts, Slope(pts), Intercept(pts));
  }

  /** The normal equations for the slope and intercept of the fit. */
  lemma FittedLine(pts: seq<Point>, b: real, a: real)
    requires |pts| > 0 && Spread(pts, Pathlength) != 0.0
    requires b == Slope(pts) && a == Intercept(pts)
    ensures ResidualSum(pts, b, a) == 0.0
    ensures ResidualMoment(pts, b, a) == 0.0
    ensures a + b * Mean(pts, Pathlength) == Mean(pts, Absorbance)
  {
    ResidualSumExpand(pts, b, a);
    ResidualMomentExpand(pts, b, a);
    TotalOne(pts);
    NormalAlgebra(|pts| as real, Total(pts, One), Total(pts, Pathlength), Total(pts, Absorbance),
                  Total(pts, SquareOf(Pathlength)), Total(pts, ProductOf(Pathlength, Absorbance)),
                  Mean(pts, Pathlength), Mean(pts, Absorbance),
                  Total(pts, Residuals(b, a)), Total(pts, Moments(b, a)), b, a);
  }

  /** The two parts a point contributes to the split of the total sum of
      squares: its squared residual and its squared explained deviation. */
  function FitParts(b: real, a: real, m: real): Point -> real
  {
    p => ResidualSquared(b, a)(p) + ExplainedSquared(b, a, m)(p)
  }

  lemma SplitPoints(pts: seq<Point>, b: real, a: real, m: real)
    ensures Combines(pts, DeviationSquared(Absorbance, m), FitParts(b, a, m), Moments(b, a),
                     Residuals(b, a), 2.0 * b, 2.0 * (a - m))
  {
    forall i | 0 <= i < |pts|
      ensures DeviationSquared(Absorbance, m)(pts[i])
           == FitParts(b, a, m)(pts[i]) + (2.0 * b) * Moments(b, a)(pts[i])
              + (2.0 * (a - m)) * Residuals(b, a)(pts[i])
    {
      SplitAlgebra(DeviationSquared(Absorbance, m)(pts[i]), ResidualSquared(b, a)(pts[i]),
                   ExplainedSquared(b, a, m)(pts[i]), Moments(b, a)(pts[i]),
                   pts[i].absorbance, pts[i].pathlength, Residual(pts[i], b, a),
                   Predicted(pts[i], b, a), b, a, m);
    }
  }

  lemma SplitTerms(pts: seq<Point>, b: real, a: real, m: real)
    ensures SumsCombine(pts, DeviationSquared(Absorbance, m), FitParts(b, a, m), Moments(b, a),
                        Residuals(b, a), 2.0 * b, 2.0 * (a - m))
  {
    SplitPoints(pts, b, a, m);
    TotalCombination(pts, DeviationSquared(Absorbance, m), FitParts(b, a, m), Moments(b, a),
                     Residuals(b, a), 2.0 * b, 2.0 * (a - m));
  }

  /** When the residuals sum to zero and are uncorrelated with the
      pathlength, the total sum of squares around m is the residual sum of
      squares plus the part the line explains. */
  lemma SplitSquares(pts: seq<Point>, b: real, a: real, m: real)
    requires ResidualMoment(pts, b, a) == 0.0 && ResidualSum(pts, b, a) == 0.0
    ensures SquaredDeviations(pts, Absorbance, m) == SsRes(pts, b, a) + Explained(pts, b, a, m)
  {
    TotalAdd(pts, FitParts(b, a, m), ResidualSquared(b, a), ExplainedSquared(b, a, m));
    SplitTerms(pts, b, a, m);
    CrossTermsVanish(Total(pts, DeviationSquared(Absorbance, m)), Total(pts, FitParts(b, a, m)),
                     2.0 * b, Total(pts, Moments(b, a)), 2.0 * (a - m), Total(pts, Residuals(b, a)));
  }

  lemma SquaresNonNegative(pts: seq<Point>, b: real, a: real, m: real)
    ensures SsRes(pts, b, a) >= 0.0 && Explained(pts, b, a, m) >= 0.0
  {
    forall i | 0 <= i < |pts|
      ensures ResidualSquared(b, a)(pts[i]) >= 0.0 && ExplainedSquared(b, a, m)(pts[i]) >= 0.0
    {
      Square(Residual(pts[i], b, a), ResidualSquared(b, a)(pts[i]));
      Square(Predicted(pts[i], b, a) - m, ExplainedSquared(b, a, m)(pts[i]));
    }
    TotalNonNegative(pts, ResidualSquared(b, a));
    TotalNonNegative(pts, ExplainedSquared(b, a, m));
  }

  /** r² lies between 0 and 1: the residual sum of squares never exceeds
      the total sum of squares of a least-squares line. */
  lemma RSquareBounds(pts: seq<Point>)
    requires TrendParamsOf(pts).Ok?
    ensures 0.0 <= TrendParamsOf(pts).value.rSquare <= 1.0
  {
    var t := TrendParamsOf(pts).value;
    var m := Mean(pts, Absorbance);
    NormalEquations(pts);
    SplitSquares(pts, t.slope, t.intercept, m);
    SquaresNonNegative(pts, t.slope, t.intercept, m);
    SquaredDeviationsZero(pts, Absorbance, m);
    RatioBound(SsRes(pts, t.slope, t.intercept), SquaredDeviations(pts, Absorbance, m));
  }

  // ---------------------------------------------------------------------
  // Points on an exact line
  // ---------------------------------------------------------------------

  predicate OnLine(pts: seq<Point>, k: real, d: real)
  {
    forall i | 0 <= i < |pts| :: pts[i].absorbance == pts[i].pathlength * k + d
  }

  /** On a line, Σy = k·Σx + d·n. */
  lemma LineAbsorbance(pts: seq<Point>, k: real, d: real)
    requires OnLine(pts, k, d)
    ensures SumsCombine(pts, Absorbance, Zero, Pathlength, One, k, d)
  {
    TotalCombination(pts, Absorbance, Zero, Pathlength, One, k, d);
  }

  lemma LinePoints(pts: seq<Point>, k: real, d: real)
    requires OnLine(pts, k, d)
    ensures Combines(pts, ProductOf(Pathlength, Absorbance), Zero, SquareOf(Pathlength), Pathlength, k, d)
  {
    forall i | 0 <= i < |pts|
      ensures ProductOf(Pathlength, Absorbance)(pts[i])
           == Zero(pts[i]) + k * SquareOf(Pathlength)(pts[i]) + d * Pathlength(pts[i])
    {
      LineAlgebra(ProductOf(Pathlength, Absorbance)(pts[i]), SquareOf(Pathlength)(pts[i]),
                  pts[i].pathlength, pts[i].absorbance, k, d);
    }
  }

  /** On a line, Σxy = k·Σx² + d·Σx. */
  lemma LineMoment(pts: seq<Point>, k: real, d: real)
    requires OnLine(pts, k, d)
    ensures SumsCombine(pts, ProductOf(Pathlength, Absorbance), Zero, SquareOf(Pathlength), Pathlength, k, d)
  {
    LinePoints(pts, k, d);
    TotalCombination(pts, ProductOf(Pathlength, Absorbance), Zero, SquareOf(Pathlength), Pathlength, k, d);
  }

  /** Points on a line leave no residual. */
  lemma LineResiduals(pts: seq<Point>, k: real, d: real)
    requires OnLine(pts, k, d)
    ensures SsRes(pts, k, d) == 0.0
  {
    forall i | 0 <= i < |pts|
      ensures ResidualSquared(k, d)(pts[i]) >= 0.0 && ResidualSquared(k, d)(pts[i]) == 0.0
    {
      Square(Residual(pts[i], k, d), ResidualSquared(k, d)(pts[i]));
    }
    TotalNonNegative(pts, ResidualSquared(k, d));
  }

  lemma TotalZero(pts: seq<Point>)
    ensures Total(pts, Zero) == 0.0
  {
    TotalNonNegative(pts, Zero);
  }

  /** The fit recovers the slope of points on an exact line. */
  lemma ExactSlope(pts: seq<Point>, k: real, d: real)
    requires OnLine(pts, k, d) && Spread(pts, Pathlength) != 0.0
    ensures Slope(pts) == k
  {
    LineAbsorbance(pts, k, d);
    LineMoment(pts, k, d);
    TotalZero(pts);
    TotalOne(pts);
    SlopeAlgebra(|pts| as real, Total(pts, One), Total(pts, Zero), Total(pts, Pathlength),
                 Total(pts, SquareOf(Pathlength)), Total(pts, Absorbance),
                 Total(pts, ProductOf(Pathlength, Absorbance)), k, d);
  }

  /** ... and its intercept. */
  lemma ExactIntercept(pts: seq<Point>, k: real, d: real)
    requires OnLine(pts, k, d) && |pts| > 0 && Spread(pts, Pathlength) != 0.0
    ensures Intercept(pts) == d
  {
    ExactSlope(pts, k, d);
    LineAbsorbance(pts, k, d);
    TotalZero(pts);
    TotalOne(pts);
    InterceptAlgebra(|pts| as real, Total(pts, One), Total(pts, Zero), Total(pts, Pathlength),
                     Total(pts, Absorbance), Mean(pts, Pathlength), Mean(pts, Absorbance), Slope(pts), k, d);
  }

  /** Points that lie exactly on y = k·x + d, with at least two distinct
      pathlengths, give back that line with r² = 1, unless the line is
      flat, in which case all absorbances are equal and the r-square error
      is raised. */
  lemma ExactFit(pts: seq<Point>, k: real, d: real)
    requires OnLine(pts, k, d) && !AllEqual(pts, Pathlength)
    ensures TrendParamsOf(pts)
         == if k == 0.0 then Err(RSquareError) else Ok(TrendParams(|pts|, k, d, 1.0))
  {
    TrendParamsFail(pts);
    var i, j :| 0 <= i < |pts| && 0 <= j < |pts| && pts[i].pathlength != pts[j].pathlength;
    if k == 0.0 {
      assert AllEqual(pts, Absorbance);
    } else {
      LineApart(pts, k, d, i, j);
      assert !AllEqual(pts, Absorbance);
      SpreadZero(pts, Pathlength);
      ExactSlope(pts, k, d);
      ExactIntercept(pts, k, d);
      LineResiduals(pts, k, d);
    }
  }

  /** On a line that is not flat, two different pathlengths have different
      absorbances. */
  lemma LineApart(pts: seq<Point>, k: real, d: real, i: nat, j: nat)
    requires OnLine(pts, k, d) && k != 0.0
    requires i < |pts| && j < |pts| && pts[i].pathlength != pts[j].pathlength
    ensures pts[i].absorbance != pts[j].absorbance
  {
    LineGap(pts[i].absorbance, pts[j].absorbance, pts[i].pathlength, pts[j].pathlength, k, d);
  }
}
