/** One simulated SoloVPE scan (`SampleResultGenerator.generate_result`):
    a copy of the scan template is stamped with the request's metadata,
    its pathlengths are divided by the target titer, noise is added to the
    readings, and the least-squares fit of absorbance against pathlength
    decides whether the scan reports "success" (with the regression and a
    protein concentration filled in) or "fail" (with the fit's error text
    appended to the errors).

    The random draws of `rng.normal` are oracles: `temperatureNoise` is the
    value added to the temperature and `absorbanceNoise(i)` the value added
    to the absorbance of the i-th raw data point. Only whether a draw can
    be made is modelled: its keys must be in `noise_def` and its scale must
    not be negative. The measurement timestamp arrives already formatted
    as `date`. */
module ResultGenerator {
  import opened Common
  import opened Regression

  datatype PathlengthRange = PathlengthRange(min: real, max: real)

  datatype SampleMetadata = SampleMetadata(sampleId: string, sampleType: string, batchId: string)

  datatype LinearRegression =
    LinearRegression(slopeAbsPerMm: real, intercept: real, rSquared: real, numPointsUsed: nat)

  /** The fields of the scan template that `generate_result` reads or
      writes; `messages` stands for everything it leaves alone. */
  datatype Scan = Scan(
    scanResult: string,
    errors: seq<string>,
    messages: seq<string>,
    instrumentId: string,
    sampleMetadata: Option<SampleMetadata>,
    date: string,
    temperatureC: real,
    pathlengthRange: PathlengthRange,
    rawDataPoints: seq<Point>,
    linearRegression: Option<LinearRegression>,
    proteinConcentration: Option<real>)

  /** An entry of `noise_def`: the mean of the noise and its standard
      deviation as a ratio of the value it is added to. */
  datatype NoiseSpec = NoiseSpec(mean: real, ratio: real)

  /** The `noise_def` a generator uses when none is given. */
  const DefaultNoise: map<string, NoiseSpec> :=
    map["absorbance" := NoiseSpec(0.0, 0.05), "temperature" := NoiseSpec(0.0, 1.0)]

  /** The constructor's `noise_def or {...}`: a missing or empty dictionary
      is replaced by the default one. */
  function NoiseDefOf(given: Option<map<string, NoiseSpec>>): (d: map<string, NoiseSpec>)
    ensures given.None? || given.value == map[] ==> "absorbance" in d && "temperature" in d
    ensures given.Some? && given.value != map[] ==> d == given.value
  {
    if given.None? || given.value == map[] then DefaultNoise else given.value
  }

  /** The scale `rng.normal` is given for noise on `value`. */
  function NoiseScale(value: real, spec: NoiseSpec): real
  {
    value * (1.0 + spec.ratio)
  }

  /** The temperature draw can be made: its entry exists and its scale is
      not negative. */
  predicate TemperatureDraws(template: Scan, noise: map<string, NoiseSpec>)
  {
    "temperature" in noise && NoiseScale(template.temperatureC, noise["temperature"]) >= 0.0
  }

  /** Every absorbance draw can be made (there are none without points). */
  predicate AbsorbanceDraws(pts: seq<Point>, noise: map<string, NoiseSpec>)
  {
    pts == [] || ("absorbance" in noise && forall i | 0 <= i < |pts| :: NoiseScale(pts[i].absorbance, noise["absorbance"]) >= 0.0)
  }

  /** `generate_result` runs to its `return`. */
  predicate Completes(template: Scan, noise: map<string, NoiseSpec>, titer: real)
  {
    TemperatureDraws(template, noise) && titer != 0.0 && AbsorbanceDraws(template.rawDataPoints, noise)
  }

  /** Absorbance per mm per (mg/mL): concentration = slope / 1.45. */
  const ExtinctionCoefficient: real := 1.45

  /** A pathlength read at the target titer; a titer of 1 leaves it as it is. */
  function AtTiter(x: real, titer: real): real
    requires titer != 0.0
  {
    if titer != 1.0 then x / titer else x
  }

  function AdjustedPoint(p: Point, titer: real, noise: real): Point
    requires titer != 0.0
  {
    Point(AtTiter(p.pathlength, titer), p.absorbance + noise)
  }

  /** The raw data points after the titer correction and the noise. */
  function AdjustedPoints(pts: seq<Point>, titer: real, absorbanceNoise: nat -> real): (r: seq<Point>)
    requires titer != 0.0
    ensures |r| == |pts|
    ensures forall i | 0 <= i < |pts| :: r[i] == AdjustedPoint(pts[i], titer, absorbanceNoise(i))
  {
    seq(|pts|, i requires 0 <= i < |pts| => AdjustedPoint(pts[i], titer, absorbanceNoise(i)))
  }

  function ErrorText(e: Error): string
  {
    if e.ValueError? then e.message else ""
  }

  /** The scan `generate_result` returns for `template` with the generator's
      `noise_def`, or the error it raises, in the order the source meets
      them: the temperature's noise entry and scale, the division of the
      pathlength range by a titer of 0, then the absorbance noise entry and
      the scale at each point. All of them are outside the `try`. */
  function Generated(template: Scan, noise: map<string, NoiseSpec>, instrumentId: string, sampleId: string,
                     sampleType: string, batchId: string, date: string, titer: real, temperatureNoise: real,
                     absorbanceNoise: nat -> real): (r: Result<Scan>)
    ensures r.Ok? <==> Completes(template, noise, titer)
    ensures r == Err(KeyError("temperature")) <==> "temperature" !in noise
    ensures r == Err(ZeroDivisionError) <==> TemperatureDraws(template, noise) && titer == 0.0
    ensures r == Err(KeyError("absorbance"))
        <==> TemperatureDraws(template, noise) && titer != 0.0 && template.rawDataPoints != [] && "absorbance" !in noise
    ensures r.Err? ==> r.error in {KeyError("temperature"), KeyError("absorbance"), ScaleError, ZeroDivisionError}
    ensures r.Ok? ==> r.value.scanResult == "success" || r.value.scanResult == "fail"
  {
    var pts := template.rawDataPoints;
    if "temperature" !in noise then Err(KeyError("temperature"))
    else if NoiseScale(template.temperatureC, noise["temperature"]) < 0.0 then Err(ScaleError)
    else if titer == 0.0 then Err(ZeroDivisionError)
    else if pts != [] && "absorbance" !in noise then Err(KeyError("absorbance"))
    else if !AbsorbanceDraws(pts, noise) then Err(ScaleError)
    else
      var points := AdjustedPoints(pts, titer, absorbanceNoise);
      var stamped := template.(
        scanResult := "fail",
        instrumentId := instrumentId,
        sampleMetadata := Some(SampleMetadata(sampleId, sampleType, batchId)),
        date := date,
        temperatureC := template.temperatureC + temperatureNoise,
        pathlengthRange := PathlengthRange(AtTiter(template.pathlengthRange.min, titer),
                                           AtTiter(template.pathlengthRange.max, titer)),
        rawDataPoints := points);
      match TrendParamsOf(points)
      case Ok(t) =>
        Ok(stamped.(
          linearRegression := Some(LinearRegression(t.slope, t.intercept, t.rSquare, t.n)),
          proteinConcentration := Some(t.slope / ExtinctionCoefficient),
          scanResult := "success"))
      case Err(e) => Ok(stamped.(errors := stamped.errors + [ErrorText(e)]))
  }

  /** With the default `noise_def`, whose ratios are positive, a scan that
      runs through the draws is one whose template temperature and
      absorbances are not negative. */
  lemma DefaultNoiseDraws(template: Scan)
    ensures TemperatureDraws(template, DefaultNoise) <==> template.temperatureC >= 0.0
    ensures AbsorbanceDraws(template.rawDataPoints, DefaultNoise)
        <==> forall i | 0 <= i < |template.rawDataPoints| :: template.rawDataPoints[i].absorbance >= 0.0
  {
    var pts := template.rawDataPoints;
    assert "absorbance" in DefaultNoise && "temperature" in DefaultNoise;
    forall i | 0 <= i < |pts|
      ensures NoiseScale(pts[i].absorbance, DefaultNoise["absorbance"]) >= 0.0 <==> pts[i].absorbance >= 0.0
    {
      PositiveFactorSign(pts[i].absorbance, 1.05);
    }
    PositiveFactorSign(template.temperatureC, 2.0);
  }

  /** A positive factor keeps the sign. */
  lemma PositiveFactorSign(x: real, k: real)
    requires k > 0.0
    ensures x * k >= 0.0 <==> x >= 0.0
  {
    if x < 0.0 {
      assert x * k < 0.0;
    }
  }

  /** `generate_result`: the copy of the template is edited field by
      field and its raw data points one at a time. */
  method GenerateResult(template: Scan, noise: map<string, NoiseSpec>, instrumentId: string, sampleId: string,
                        sampleType: string, batchId: string, date: string, titer: real, temperatureNoise: real,
                        absorbanceNoise: nat -> real)
    returns (r: Result<Scan>)
    ensures r == Generated(template, noise, instrumentId, sampleId, sampleType, batchId, date, titer,
                           temperatureNoise, absorbanceNoise)
  {
    var simulated := template;
    simulated := simulated.(scanResult := "fail");
    simulated := simulated.(instrumentId := instrumentId);
    simulated := simulated.(sampleMetadata := Some(SampleMetadata(sampleId, sampleType, batchId)));
    simulated := simulated.(date := date);
    if "temperature" !in noise {
      return Err(KeyError("temperature"));
    }
    if NoiseScale(template.temperatureC, noise["temperature"]) < 0.0 {
      return Err(ScaleError);
    }
    simulated := simulated.(temperatureC := simulated.temperatureC + temperatureNoise);

    if titer != 1.0 {
      if titer == 0.0 {
        return Err(ZeroDivisionError);
      }
      simulated := simulated.(pathlengthRange := PathlengthRange(
        simulated.pathlengthRange.min / titer, simulated.pathlengthRange.max / titer));
    }

    var points := simulated.rawDataPoints;
    for i := 0 to |points|
      invariant |points| == |template.rawDataPoints|
      invariant forall j | 0 <= j < i ::
        points[j] == AdjustedPoint(template.rawDataPoints[j], titer, absorbanceNoise(j))
      invariant forall j | i <= j < |points| :: points[j] == template.rawDataPoints[j]
      invariant i > 0 ==> "absorbance" in noise
      invariant i > 0 ==> forall j | 0 <= j < i ::
        NoiseScale(template.rawDataPoints[j].absorbance, noise["absorbance"]) >= 0.0
    {
      var dataPoint := points[i];
      if titer != 1.0 {
        dataPoint := dataPoint.(pathlength := dataPoint.pathlength / titer);
      }
      if "absorbance" !in noise {
        return Err(KeyError("absorbance"));
      }
      assert dataPoint.absorbance == template.rawDataPoints[i].absorbance;
      if NoiseScale(dataPoint.absorbance, noise["absorbance"]) < 0.0 {
        return Err(ScaleError);
      }
      dataPoint := dataPoint.(absorbance := dataPoint.absorbance + absorbanceNoise(i));
      points := points[i := dataPoint];
    }
    assert points == AdjustedPoints(template.rawDataPoints, titer, absorbanceNoise);
    simulated := simulated.(rawDataPoints := points);

    var trendParams := CalculateTrendParams(points);
    match trendParams {
      case Ok(t) =>
        simulated := simulated.(linearRegression :=
          Some(LinearRegression(t.slope, t.intercept, t.rSquare, t.n)));
        simulated := simulated.(proteinConcentration := Some(t.slope / ExtinctionCoefficient));
        simulated := simulated.(scanResult := "success");
      case Err(e) =>
        simulated := simulated.(errors := simulated.errors + [ErrorText(e)]);
    }
    return Ok(simulated);
  }

  // ---------------------------------------------------------------------
  // The titer correction
  // ---------------------------------------------------------------------

  /** Reading at the titer is undone by multiplying with the titer. */
  lemma AtTiterInverse(x: real, titer: real)
    requires titer != 0.0
    ensures AtTiter(x, titer) * titer == x
  {
    if titer != 1.0 {
      assert x / titer * titer == x;
    }
  }

  /** Two pathlengths are equal at the titer exactly when they were equal. */
  lemma AtTiterInjective(x: real, y: real, titer: real)
    requires titer != 0.0
    ensures AtTiter(x, titer) == AtTiter(y, titer) <==> x == y
  {
    AtTiterInverse(x, titer);
    AtTiterInverse(y, titer);
  }

  /** The pathlengths after the correction are all equal exactly when the
      template's are. */
  lemma AdjustedPathlengthsEqual(pts: seq<Point>, titer: real, absorbanceNoise: nat -> real)
    requires titer != 0.0
    ensures AllEqual(AdjustedPoints(pts, titer, absorbanceNoise), Pathlength) <==> AllEqual(pts, Pathlength)
  {
    var qs := AdjustedPoints(pts, titer, absorbanceNoise);
    forall i, j | 0 <= i < |pts| && 0 <= j < |pts|
      ensures Pathlength(qs[i]) == Pathlength(qs[j]) <==> Pathlength(pts[i]) == Pathlength(pts[j])
    {
      AtTiterInjective(pts[i].pathlength, pts[j].pathlength, titer);
    }
  }

  // ---------------------------------------------------------------------
  // What the scan reports
  // ---------------------------------------------------------------------

  /** The scan succeeds exactly when the corrected pathlengths are not all
      equal (equivalently the template's) and the noisy absorbances are not
      all equal. */
  lemma ScanOutcome(template: Scan, noise: map<string, NoiseSpec>, instrumentId: string, sampleId: string, sampleType: string,
                    batchId: string, date: string, titer: real, temperatureNoise: real,
                    absorbanceNoise: nat -> real)
    requires Completes(template, noise, titer)
    ensures Generated(template, noise, instrumentId, sampleId, sampleType, batchId, date, titer,
                      temperatureNoise, absorbanceNoise).value.scanResult == "success"
        <==> !AllEqual(template.rawDataPoints, Pathlength)
             && !AllEqual(AdjustedPoints(template.rawDataPoints, titer, absorbanceNoise), Absorbance)
  {
    var pts := AdjustedPoints(template.rawDataPoints, titer, absorbanceNoise);
    TrendParamsFail(pts);
    AdjustedPathlengthsEqual(template.rawDataPoints, titer, absorbanceNoise);
  }

  /** A failed scan keeps the template's regression and concentration and
      has exactly one more error: the slope error when the pathlengths are
      all equal, the r-square error otherwise. */
  lemma ScanFailure(template: Scan, noise: map<string, NoiseSpec>, instrumentId: string, sampleId: string, sampleType: string,
                    batchId: string, date: string, titer: real, temperatureNoise: real,
                    absorbanceNoise: nat -> real)
    requires Completes(template, noise, titer)
    requires Generated(template, noise, instrumentId, sampleId, sampleType, batchId, date, titer,
                       temperatureNoise, absorbanceNoise).value.scanResult == "fail"
    ensures Generated(template, noise, instrumentId, sampleId, sampleType, batchId, date, titer,
                      temperatureNoise, absorbanceNoise).value.errors
         == template.errors + [if AllEqual(template.rawDataPoints, Pathlength) then SlopeError.message
                               else RSquareError.message]
    ensures Generated(template, noise, instrumentId, sampleId, sampleType, batchId, date, titer,
                      temperatureNoise, absorbanceNoise).value.linearRegression
         == template.linearRegression
    ensures Generated(template, noise, instrumentId, sampleId, sampleType, batchId, date, titer,
                      temperatureNoise, absorbanceNoise).value.proteinConcentration
         == template.proteinConcentration
  {
    var pts := AdjustedPoints(template.rawDataPoints, titer, absorbanceNoise);
    TrendParamsFail(pts);
    AdjustedPathlengthsEqual(template.rawDataPoints, titer, absorbanceNoise);
  }

  /** A successful scan reports a fit over all the points with r² in
      [0, 1], whose line passes through the mean point, and the
      concentration slope / 1.45; its errors are the template's. */
  lemma ScanSuccess(template: Scan, noise: map<string, NoiseSpec>, instrumentId: string, sampleId: string, sampleType: string,
                    batchId: string, date: string, titer: real, temperatureNoise: real,
                    absorbanceNoise: nat -> real)
    requires Completes(template, noise, titer)
    requires Generated(template, noise, instrumentId, sampleId, sampleType, batchId, date, titer,
                       temperatureNoise, absorbanceNoise).value.scanResult == "success"
    ensures var s := Generated(template, noise, instrumentId, sampleId, sampleType, batchId, date, titer,
                               temperatureNoise, absorbanceNoise).value;
            && s.errors == template.errors
            && s.linearRegression.Some?
            && s.linearRegression.value.numPointsUsed == |template.rawDataPoints| > 0
            && 0.0 <= s.linearRegression.value.rSquared <= 1.0
            && s.proteinConcentration == Some(s.linearRegression.value.slopeAbsPerMm / 1.45)
            && s.linearRegression.value.intercept
                 + s.linearRegression.value.slopeAbsPerMm * Mean(s.rawDataPoints, Pathlength)
               == Mean(s.rawDataPoints, Absorbance)
  {
    var pts := AdjustedPoints(template.rawDataPoints, titer, absorbanceNoise);
    RSquareBounds(pts);
    NormalEquations(pts);
  }

  /** The stamped fields: the request's metadata, the date, the noisy
      temperature, and the messages the scan leaves alone. */
  lemma ScanStamped(template: Scan, noise: map<string, NoiseSpec>, instrumentId: string, sampleId: string, sampleType: string,
                    batchId: string, date: string, titer: real, temperatureNoise: real,
                    absorbanceNoise: nat -> real)
    requires Completes(template, noise, titer)
    ensures var s := Generated(template, noise, instrumentId, sampleId, sampleType, batchId, date, titer,
                               temperatureNoise, absorbanceNoise).value;
            && s.instrumentId == instrumentId
            && s.sampleMetadata == Some(SampleMetadata(sampleId, sampleType, batchId))
            && s.date == date
            && s.messages == template.messages
            && s.temperatureC == template.temperatureC + temperatureNoise
  {
  }

  /** Multiplying the pathlength range and the raw pathlengths of `s` by
      the titer gives back the template's, and each absorbance of `s` is
      the template's plus its own noise. */
  predicate GivesBackTemplate(s: Scan, template: Scan, titer: real, absorbanceNoise: nat -> real)
  {
    && s.pathlengthRange.min * titer == template.pathlengthRange.min
    && s.pathlengthRange.max * titer == template.pathlengthRange.max
    && |s.rawDataPoints| == |template.rawDataPoints|
    && (forall i | 0 <= i < |s.rawDataPoints| ::
          s.rawDataPoints[i].pathlength * titer == template.rawDataPoints[i].pathlength
          && s.rawDataPoints[i].absorbance == template.rawDataPoints[i].absorbance + absorbanceNoise(i))
  }

  /** The corrected fields of a completed scan give back the template's. */
  lemma ScanCorrected(template: Scan, noise: map<string, NoiseSpec>, instrumentId: string, sampleId: string, sampleType: string,
                      batchId: string, date: string, titer: real, temperatureNoise: real,
                      absorbanceNoise: nat -> real)
    requires Completes(template, noise, titer)
    ensures GivesBackTemplate(Generated(template, noise, instrumentId, sampleId, sampleType, batchId, date, titer,
                                        temperatureNoise, absorbanceNoise).value, template, titer, absorbanceNoise)
  {
    CorrectedUndone(template, Generated(template, noise, instrumentId, sampleId, sampleType, batchId, date, titer,
                                        temperatureNoise, absorbanceNoise).value, titer, absorbanceNoise);
  }

  /** A scan whose pathlengths were corrected for the titer, and whose
      absorbances got their noise, gives back the template's. */
  lemma CorrectedUndone(template: Scan, s: Scan, titer: real, absorbanceNoise: nat -> real)
    requires titer != 0.0
    requires s.pathlengthRange == PathlengthRange(AtTiter(template.pathlengthRange.min, titer),
                                                  AtTiter(template.pathlengthRange.max, titer))
    requires s.rawDataPoints == AdjustedPoints(template.rawDataPoints, titer, absorbanceNoise)
    ensures GivesBackTemplate(s, template, titer, absorbanceNoise)
  {
    AtTiterInverse(template.pathlengthRange.min, titer);
    AtTiterInverse(template.pathlengthRange.max, titer);
    forall i | 0 <= i < |template.rawDataPoints|
      ensures AtTiter(template.rawDataPoints[i].pathlength, titer) * titer
           == template.rawDataPoints[i].pathlength
    {
      AtTiterInverse(template.rawDataPoints[i].pathlength, titer);
    }
  }

  /** With a titer of 1 the pathlengths are the template's. */
  lemma UnitTiter(template: Scan, noise: map<string, NoiseSpec>, instrumentId: string, sampleId: string, sampleType: string,
                  batchId: string, date: string, temperatureNoise: real, absorbanceNoise: nat -> real)
    requires Completes(template, noise, 1.0)
    ensures var s := Generated(template, noise, instrumentId, sampleId, sampleType, batchId, date, 1.0,
                               temperatureNoise, absorbanceNoise).value;
            && s.pathlengthRange == template.pathlengthRange
            && |s.rawDataPoints| == |template.rawDataPoints|
            && forall i | 0 <= i < |s.rawDataPoints| ::
                 s.rawDataPoints[i].pathlength == template.rawDataPoints[i].pathlength
  {}

  // ---------------------------------------------------------------------
  // The titer scales the slope
  // ---------------------------------------------------------------------

  /** a = c·b. */
  predicate Scaled(a: real, c: real, b: real)
  {
    a == c * b
  }

  lemma ScaledStep(c: real, a': real, a: real, x: real, b': real, b: real, y: real)
    requires a' == a + x && b' == b + y && Scaled(a, c, b) && Scaled(x, c, y)
    ensures Scaled(a', c, b')
  {}

  /** Summing terms that are c times other terms gives c times their sum. */
  lemma {:induction false} TotalAcross(qs: seq<Point>, pts: seq<Point>, f: Point -> real,
                                       g: Point -> real, c: real)
    requires |qs| == |pts|
    requires forall i | 0 <= i < |pts| :: Scaled(f(qs[i]), c, g(pts[i]))
    ensures Scaled(Total(qs, f), c, Total(pts, g))
  {
    if pts != [] {
      var qi, pi := qs[..|qs| - 1], pts[..|pts| - 1];
      forall i | 0 <= i < |pi| ensures Scaled(f(qi[i]), c, g(pi[i])) {
        assert qi[i] == qs[i] && pi[i] == pts[i];
      }
      TotalAcross(qi, pi, f, g, c);
      ScaledStep(c, Total(qs, f), Total(qi, f), f(qs[|qs| - 1]),
                 Total(pts, g), Total(pi, g), g(pts[|pts| - 1]));
    }
  }

  lemma AtTiterScaled(x: real, titer: real)
    requires titer != 0.0
    ensures Scaled(AtTiter(x, titer), 1.0 / titer, x) && AtTiter(x, 1.0) == x
  {
    if titer != 1.0 {
      assert x / titer == (1.0 / titer) * x;
    }
  }

  lemma ScaledSquare(a: real, c: real, b: real, a2: real, b2: real)
    requires Scaled(a, c, b) && a2 == a * a && b2 == b * b
    ensures Scaled(a2, c * c, b2)
  {}

  lemma ScaledProduct(a: real, c: real, b: real, y: real, a2: real, b2: real)
    requires Scaled(a, c, b) && a2 == a * y && b2 == b * y
    ensures Scaled(a2, c, b2)
  {}

  lemma SpreadScale(n: real, sx: real, sxx: real, sx': real, sxx': real, c: real)
    requires Scaled(sx', c, sx) && Scaled(sxx', c * c, sxx)
    ensures Scaled(SumSpread(n, sx', sxx'), c * c, SumSpread(n, sx, sxx))
  {
    assert sx' * sx' == (c * c) * (sx * sx);
  }

  lemma CovariationScale(n: real, sx: real, sy: real, sxy: real, sx': real, sy': real, sxy': real, c: real)
    requires Scaled(sx', c, sx) && Scaled(sy', 1.0, sy) && Scaled(sxy', c, sxy)
    ensures Scaled(SumCovariation(n, sx', sy', sxy'), c, SumCovariation(n, sx, sy, sxy))
  {}

  /** With c = 1/t, a numerator scaled by c over a denominator scaled by
      c² is t times the ratio. */
  lemma RatioScale(cov: real, spr: real, cov': real, spr': real, c: real, t: real)
    requires c * t == 1.0 && Scaled(cov', c, cov) && Scaled(spr', c * c, spr)
    ensures spr' != 0.0 <==> spr != 0.0
    ensures spr != 0.0 ==> Scaled(cov' / spr', t, cov / spr)
  {
    assert c != 0.0;
    SquareNonZero(c, c * c);
    if spr != 0.0 {
      var ratio := cov / spr;
      assert ratio * spr == cov;
      assert (t * ratio) * spr' == (t * c) * c * (ratio * spr);
      assert cov' / spr' * spr' == cov';
    }
  }

  /** Scaling the x values by c = 1/t scales the spread by c² and the
      least-squares slope by t. */
  lemma SlopeScaleAlgebra(n: real, sx: real, sy: real, sxx: real, sxy: real,
                          sx': real, sy': real, sxx': real, sxy': real, c: real, t: real)
    requires c * t == 1.0
    requires Scaled(sx', c, sx) && Scaled(sy', 1.0, sy) && Scaled(sxx', c * c, sxx) && Scaled(sxy', c, sxy)
    ensures SumSpread(n, sx', sxx') != 0.0 <==> SumSpread(n, sx, sxx) != 0.0
    ensures SumSpread(n, sx, sxx) != 0.0 ==> Scaled(LineSlope(n, sx', sy', sxx', sxy'), t, LineSlope(n, sx, sy, sxx, sxy))
  {
    SpreadScale(n, sx, sxx, sx', sxx', c);
    CovariationScale(n, sx, sy, sxy, sx', sy', sxy', c);
    RatioScale(SumCovariation(n, sx, sy, sxy), SumSpread(n, sx, sxx),
               SumCovariation(n, sx', sy', sxy'), SumSpread(n, sx', sxx'), c, t);
  }

  /** Dividing the pathlengths by the titer multiplies the fitted slope by
      the titer; whether the slope exists does not change. */
  lemma TiterScalesSlope(pts: seq<Point>, titer: real, absorbanceNoise: nat -> real)
    requires titer != 0.0
    ensures Spread(AdjustedPoints(pts, titer, absorbanceNoise), Pathlength) != 0.0
        <==> Spread(AdjustedPoints(pts, 1.0, absorbanceNoise), Pathlength) != 0.0
    ensures Spread(AdjustedPoints(pts, 1.0, absorbanceNoise), Pathlength) != 0.0
        ==> Scaled(Slope(AdjustedPoints(pts, titer, absorbanceNoise)),
                   titer, Slope(AdjustedPoints(pts, 1.0, absorbanceNoise)))
  {
    var qs, ps := AdjustedPoints(pts, titer, absorbanceNoise), AdjustedPoints(pts, 1.0, absorbanceNoise);
    var c := 1.0 / titer;
    forall i | 0 <= i < |pts|
      ensures Scaled(Pathlength(qs[i]), c, Pathlength(ps[i]))
      ensures Scaled(Absorbance(qs[i]), 1.0, Absorbance(ps[i]))
      ensures Scaled(SquareOf(Pathlength)(qs[i]), c * c, SquareOf(Pathlength)(ps[i]))
      ensures Scaled(ProductOf(Pathlength, Absorbance)(qs[i]), c, ProductOf(Pathlength, Absorbance)(ps[i]))
    {
      AtTiterScaled(pts[i].pathlength, titer);
      ScaledSquare(Pathlength(qs[i]), c, Pathlength(ps[i]),
                   SquareOf(Pathlength)(qs[i]), SquareOf(Pathlength)(ps[i]));
      ScaledProduct(Pathlength(qs[i]), c, Pathlength(ps[i]), Absorbance(ps[i]),
                    ProductOf(Pathlength, Absorbance)(qs[i]), ProductOf(Pathlength, Absorbance)(ps[i]));
    }
    TotalAcross(qs, ps, Pathlength, Pathlength, c);
    TotalAcross(qs, ps, Absorbance, Absorbance, 1.0);
    TotalAcross(qs, ps, SquareOf(Pathlength), SquareOf(Pathlength), c * c);
    TotalAcross(qs, ps, ProductOf(Pathlength, Absorbance), ProductOf(Pathlength, Absorbance), c);
    SlopeScaleAlgebra(|pts| as real, Total(ps, Pathlength), Total(ps, Absorbance),
                      Total(ps, SquareOf(Pathlength)), Total(ps, ProductOf(Pathlength, Absorbance)),
                      Total(qs, Pathlength), Total(qs, Absorbance),
                      Total(qs, SquareOf(Pathlength)), Total(qs, ProductOf(Pathlength, Absorbance)),
                      c, titer);
  }

  /** The fit at titer t exists exactly when the fit at titer 1 does,
      and its slope is t times larger. */
  lemma TiterScalesFit(pts: seq<Point>, titer: real, absorbanceNoise: nat -> real)
    requires titer != 0.0
    ensures TrendParamsOf(AdjustedPoints(pts, titer, absorbanceNoise)).Ok?
        <==> TrendParamsOf(AdjustedPoints(pts, 1.0, absorbanceNoise)).Ok?
    ensures TrendParamsOf(AdjustedPoints(pts, 1.0, absorbanceNoise)).Ok?
        ==> Scaled(TrendParamsOf(AdjustedPoints(pts, titer, absorbanceNoise)).value.slope,
                   titer, TrendParamsOf(AdjustedPoints(pts, 1.0, absorbanceNoise)).value.slope)
  {
    var qs, ps := AdjustedPoints(pts, titer, absorbanceNoise), AdjustedPoints(pts, 1.0, absorbanceNoise);
    assert AllEqual(qs, Pathlength) <==> AllEqual(ps, Pathlength) by {
      AdjustedPathlengthsEqual(pts, titer, absorbanceNoise);
      AdjustedPathlengthsEqual(pts, 1.0, absorbanceNoise);
    }
    assert AllEqual(qs, Absorbance) <==> AllEqual(ps, Absorbance) by {
      AdjustedAbsorbancesEqual(pts, titer, absorbanceNoise);
    }
    FitSucceeds(qs);
    FitSucceeds(ps);
    if TrendParamsOf(ps).Ok? {
      TiterScalesSlope(pts, titer, absorbanceNoise);
    }
  }

  /** The absorbances do not depend on the titer. */
  lemma AdjustedAbsorbancesEqual(pts: seq<Point>, titer: real, absorbanceNoise: nat -> real)
    requires titer != 0.0
    ensures AllEqual(AdjustedPoints(pts, titer, absorbanceNoise), Absorbance)
        <==> AllEqual(AdjustedPoints(pts, 1.0, absorbanceNoise), Absorbance)
  {
    var qs, ps := AdjustedPoints(pts, titer, absorbanceNoise), AdjustedPoints(pts, 1.0, absorbanceNoise);
    forall i | 0 <= i < |pts| ensures Absorbance(qs[i]) == Absorbance(ps[i]) {}
  }

  lemma ConcentrationAlgebra(s': real, s: real, t: real)
    requires Scaled(s', t, s)
    ensures s' / ExtinctionCoefficient == t * (s / ExtinctionCoefficient)
  {}

  /** The titer correction makes the reported concentration proportional
      to the target titer: with the same template and the same noise, a
      scan at titer t succeeds exactly when the scan at titer 1 does, and
      then reports t times its concentration. */
  lemma ConcentrationScales(template: Scan, noise: map<string, NoiseSpec>, instrumentId: string, sampleId: string, sampleType: string,
                            batchId: string, date: string, titer: real, temperatureNoise: real,
                            absorbanceNoise: nat -> real)
    requires Completes(template, noise, titer)
    ensures Generated(template, noise, instrumentId, sampleId, sampleType, batchId, date, titer,
                      temperatureNoise, absorbanceNoise).value.scanResult
         == Generated(template, noise, instrumentId, sampleId, sampleType, batchId, date, 1.0,
                      temperatureNoise, absorbanceNoise).value.scanResult
    ensures Generated(template, noise, instrumentId, sampleId, sampleType, batchId, date, titer,
                      temperatureNoise, absorbanceNoise).value.scanResult == "success"
        ==> Generated(template, noise, instrumentId, sampleId, sampleType, batchId, date, titer,
                      temperatureNoise, absorbanceNoise).value.proteinConcentration.value
            == titer * Generated(template, noise, instrumentId, sampleId, sampleType, batchId, date, 1.0,
                                 temperatureNoise, absorbanceNoise).value.proteinConcentration.value
  {
    var qs := AdjustedPoints(template.rawDataPoints, titer, absorbanceNoise);
    var ps := AdjustedPoints(template.rawDataPoints, 1.0, absorbanceNoise);
    TiterScalesFit(template.rawDataPoints, titer, absorbanceNoise);
    if TrendParamsOf(ps).Ok? {
      ConcentrationAlgebra(TrendParamsOf(qs).value.slope, TrendParamsOf(ps).value.slope, titer);
    }
  }
}
