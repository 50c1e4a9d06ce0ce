/** `TrendGenerator` (python/src/time_series_trends/trend_generator.py): builds
    a simulated sensor trend from a template. The frame is a map from column
    name to column values; interpolation (`np.interp`) and the random noise
    are oracles: `interp(col, t)` is the template column `col` interpolated
    at `t` seconds, and `noise(col, k)` is the noise added to row `k` of
    column `col`, already scaled. The noise is drawn only when its standard
    deviation lets `rng.normal` draw it. */
module TrendGenerator {
  import opened Common
  import opened Template

  type Frame = map<string, seq<real>>

  /** A row as `row.to_dict()` gives it. */
  type Row = map<string, real>

  /** A `noise_def` value: the `(mean, stddev)` given to `rng.normal`. */
  datatype Normal = Normal(mean: real, stddev: real)

  /** `noise_def` in insertion order. */
  type NoiseDef = seq<(string, Normal)>

  const DefaultNoiseDef: NoiseDef := [("uv_mau", Normal(0.0, 2.0)), ("cond_mScm", Normal(0.0, 0.15)),
                                      ("ph", Normal(0.0, 0.01)), ("flow_mL_min", Normal(0.0, 300.0)),
                                      ("pressure_bar", Normal(0.0, 0.01))]

  /** The generator after its constructor ran: the (possibly hold-free)
      template and `noise_def`. */
  datatype Generator = Generator(template: Table, noiseDef: NoiseDef)

  /** `__init__`: `noise_def or {...}` falls back to the default entries when
      `noise_def` is missing or empty. */
  function NewGenerator(template: Table, noiseDef: Option<NoiseDef>, holds: bool): (g: Generator)
    ensures g.template == ApplyHolds(template, holds)
    ensures g.noiseDef == if noiseDef.Some? && noiseDef.value != [] then noiseDef.value else DefaultNoiseDef
  {
    var defs := match noiseDef case Some(ds) => if ds == [] then DefaultNoiseDef else ds case None => DefaultNoiseDef;
    Generator(ApplyHolds(template, holds), defs)
  }

  /** `list(self.noise_def.keys())` */
  function KeysOf(defs: NoiseDef): (keys: seq<string>)
    ensures |keys| == |defs| && forall j :: 0 <= j < |defs| ==> keys[j] == defs[j].0
  {
    seq(|defs|, j requires 0 <= j < |defs| => defs[j].0)
  }

  /** Every `rng.normal` call of the noise loop can draw: no standard
      deviation is negative. */
  predicate Draws(defs: NoiseDef)
  {
    forall j :: 0 <= j < |defs| ==> defs[j].1.stddev >= 0.0
  }

  /** Number of elements of `np.arange(0, stop, step)`. */
  function ArangeCount(stop: real, step: real): nat
    requires step != 0.0
  {
    var c := Ceil(stop / step);
    if c < 0 then 0 else c
  }

  /** `np.arange(0, total + dt, dt)` */
  function TimeAxis(total: int, dt: real): (axis: seq<real>)
    requires dt != 0.0
    ensures |axis| == ArangeCount(total as real + dt, dt)
    ensures forall k :: 0 <= k < |axis| ==> axis[k] == k as real * dt
  {
    var n := ArangeCount(total as real + dt, dt);
    seq(n, k requires 0 <= k < n => k as real * dt)
  }

  /** `Series.clip(lo, hi)` */
  function Clip(x: real, lo: real, hi: real): real
  {
    if x < lo then lo else if x > hi then hi else x
  }

  ghost predicate Columns(f: Frame, n: nat)
  {
    "time_sec" in f && forall c :: c in f ==> |f[c]| == n
  }

  /** The interpolation loop (lines 48-54) over the first `i` keys. */
  function Interpolated(f0: Frame, n: nat, keys: seq<string>, i: nat, template: Table,
                        interp: (string, real) -> real): (r: Result<Frame>)
    requires i <= |keys| && Columns(f0, n)
    ensures r.Ok? ==> Columns(r.value, n)
  {
    if i == 0 then Ok(f0)
    else
      match Interpolated(f0, n, keys, i - 1, template, interp)
      case Err(e) => Err(e)
      case Ok(f) =>
        var col := keys[i - 1];
        if col !in template.columns then Err(KeyError(col))
        else
          var ts := f["time_sec"];
          Ok(f[col := seq(n, k requires 0 <= k < n => interp(col, ts[k]))])
  }

  /** The loop succeeds exactly when every key is a template column, and
      then adds one column per key. */
  lemma {:induction false} InterpolatedKeys(f0: Frame, n: nat, keys: seq<string>, i: nat, template: Table,
                                            interp: (string, real) -> real)
    requires i <= |keys| && Columns(f0, n)
    ensures var r := Interpolated(f0, n, keys, i, template, interp);
      && (r.Ok? <==> forall j :: 0 <= j < i ==> keys[j] in template.columns)
      && (r.Ok? ==> r.value.Keys == f0.Keys + set k | k in keys[..i])
  {
    if i > 0 {
      InterpolatedKeys(f0, n, keys, i - 1, template, interp);
      assert keys[..i] == keys[..i - 1] + [keys[i - 1]];
    }
  }

  /** The noise loop (lines 57-59) over the first `i` keys. */
  function Noised(f1: Frame, n: nat, keys: seq<string>, i: nat, noise: (string, nat) -> real): (f: Frame)
    requires i <= |keys| && Columns(f1, n) && forall k :: k in keys ==> k in f1
    ensures Columns(f, n) && f.Keys == f1.Keys
  {
    if i == 0 then f1
    else
      var f := Noised(f1, n, keys, i - 1, noise);
      var col := keys[i - 1];
      f[col := seq(n, k requires 0 <= k < n => f[col][k] + noise(col, k))]
  }

  /** The frame before interpolation: the time axis in seconds and minutes. */
  function InitialFrame(axis: seq<real>): (f: Frame)
    ensures Columns(f, |axis|) && f.Keys == {"time_sec", "time_min"}
    ensures f["time_sec"] == axis
    ensures forall k :: 0 <= k < |axis| ==> f["time_min"][k] == axis[k] / 60.0
  {
    map["time_sec" := axis, "time_min" := seq(|axis|, k requires 0 <= k < |axis| => axis[k] / 60.0)]
  }

  /** The clipping at lines 62-63: `ph` to [2, 12], then `cond_mScm` to
      [0.1, 120]; a missing column raises `KeyError`. */
  function Clipped(f: Frame, n: nat): (r: Result<Frame>)
    requires Columns(f, n)
    ensures r.Ok? <==> "ph" in f && "cond_mScm" in f
    ensures r.Err? ==> r.error == KeyError(if "ph" !in f then "ph" else "cond_mScm")
    ensures r.Ok? ==>
      && Columns(r.value, n) && r.value.Keys == f.Keys
      && (forall c :: c in f && c != "ph" && c != "cond_mScm" ==> r.value[c] == f[c])
      && (forall k :: 0 <= k < n ==> r.value["ph"][k] == Clip(f["ph"][k], 2.0, 12.0))
      && (forall k :: 0 <= k < n ==> r.value["cond_mScm"][k] == Clip(f["cond_mScm"][k], 0.1, 120.0))
  {
    if "ph" !in f then Err(KeyError("ph"))
    else
      var f3 := f["ph" := seq(n, k requires 0 <= k < n => Clip(f["ph"][k], 2.0, 12.0))];
      if "cond_mScm" !in f3 then Err(KeyError("cond_mScm"))
      else Ok(f3["cond_mScm" := seq(n, k requires 0 <= k < n => Clip(f3["cond_mScm"][k], 0.1, 120.0))])
  }

  /** Interpolation, noise and clipping over a given time axis; the noise
      loop raises at the first negative standard deviation. */
  function Build(axis: seq<real>, defs: NoiseDef, template: Table,
                 interp: (string, real) -> real, noise: (string, nat) -> real): (r: Result<Frame>)
    ensures r.Ok? ==> Columns(r.value, |axis|)
  {
    var n := |axis|;
    var keys := KeysOf(defs);
    match Interpolated(InitialFrame(axis), n, keys, |keys|, template, interp)
    case Err(e) => Err(e)
    case Ok(f1) =>
      InterpolatedKeys(InitialFrame(axis), n, keys, |keys|, template, interp);
      assert keys[..|keys|] == keys;
      if !Draws(defs) then Err(ScaleError)
      else Clipped(Noised(f1, n, keys, |keys|, noise), n)
  }

  /** `generate_dataset(trend_resolution_hz)` as a function of its inputs. */
  function Dataset(g: Generator, hz: real, interp: (string, real) -> real, noise: (string, nat) -> real): (r: Result<Frame>)
    ensures r.Ok? ==> g.template.rows != [] && hz != 0.0 && Rectangular(r.value)
  {
    if g.template.rows == [] then Err(IndexError)
    else if hz == 0.0 then Err(ZeroDivisionError)
    else Build(Axis(g, hz), g.noiseDef, g.template, interp, noise)
  }

  /** `time_sec`: from 0 to `int(last time_min * 60)` in steps of `1/hz`. */
  function Axis(g: Generator, hz: real): seq<real>
    requires g.template.rows != [] && hz != 0.0
  {
    TimeAxis(TruncToInt(g.template.rows[|g.template.rows| - 1].timeMin * 60.0), 1.0 / hz)
  }

  /** A frame whose columns are all as long as its `time_sec` column. */
  predicate Rectangular(f: Frame)
  {
    "time_sec" in f && forall c :: c in f ==> |f[c]| == |f["time_sec"]|
  }

  /** The rows of a frame with `n` rows, as `iterrows` gives them. */
  function Rows(f: Frame, n: nat): (rows: seq<Row>)
    requires forall c :: c in f ==> |f[c]| == n
    ensures |rows| == n
    ensures forall k :: 0 <= k < n ==> rows[k].Keys == f.Keys && forall c :: c in f ==> rows[k][c] == f[c][k]
  {
    seq(n, k requires 0 <= k < n => map c | c in f :: f[c][k])
  }

  /** `get_stream_generator(simulated_data, test_mode)` */
  function StreamGenerator(f: Frame, n: nat, testMode: bool): (rows: seq<Row>)
    requires forall c :: c in f ==> |f[c]| == n
    ensures testMode ==> |rows| == if n < 6 then n else 6
    ensures !testMode ==> |rows| == n
    ensures rows == Rows(f, n)[..|rows|]
  {
    StreamRows(Rows(f, n), testMode)
  }

  // ---------------------------------------------------------------------

  lemma {:induction false} InterpolatedKeepsOthers(f0: Frame, n: nat, keys: seq<string>, i: nat, template: Table,
                                                    interp: (string, real) -> real, c: string)
    requires i <= |keys| && Columns(f0, n) && c !in keys[..i] && c in f0
    requires Interpolated(f0, n, keys, i, template, interp).Ok?
    ensures var f := Interpolated(f0, n, keys, i, template, interp).value; c in f && f[c] == f0[c]
  {
    if i > 0 {
      assert keys[..i] == keys[..i - 1] + [keys[i - 1]];
      InterpolatedKeepsOthers(f0, n, keys, i - 1, template, interp, c);
    }
  }

  lemma {:induction false} NoisedKeepsOthers(f1: Frame, n: nat, keys: seq<string>, i: nat, noise: (string, nat) -> real, c: string)
    requires i <= |keys| && Columns(f1, n) && (forall k :: k in keys ==> k in f1) && c !in keys[..i] && c in f1
    ensures Noised(f1, n, keys, i, noise)[c] == f1[c]
  {
    if i > 0 {
      assert keys[..i] == keys[..i - 1] + [keys[i - 1]];
      NoisedKeepsOthers(f1, n, keys, i - 1, noise, c);
    }
  }

  /** A key listed once is interpolated against the time axis, if the time
      axis itself is not a key. */
  lemma {:induction false} InterpolatedValue(f0: Frame, n: nat, keys: seq<string>, i: nat, template: Table,
                                             interp: (string, real) -> real, j: nat)
    requires i <= |keys| && Columns(f0, n) && j < i && NoDuplicates(keys) && "time_sec" !in keys
    requires Interpolated(f0, n, keys, i, template, interp).Ok?
    ensures var f := Interpolated(f0, n, keys, i, template, interp).value;
      && keys[j] in f
      && forall k :: 0 <= k < n ==> f[keys[j]][k] == interp(keys[j], f0["time_sec"][k])
  {
    assert "time_sec" !in keys[..i - 1];
    InterpolatedKeepsOthers(f0, n, keys, i - 1, template, interp, "time_sec");
    if j < i - 1 {
      InterpolatedValue(f0, n, keys, i - 1, template, interp, j);
    }
  }

  /** A key listed once gets its own noise, once. */
  lemma {:induction false} NoisedValue(f1: Frame, n: nat, keys: seq<string>, i: nat, noise: (string, nat) -> real, j: nat)
    requires i <= |keys| && Columns(f1, n) && (forall k :: k in keys ==> k in f1) && j < i && NoDuplicates(keys)
    ensures forall k :: 0 <= k < n ==> Noised(f1, n, keys, i, noise)[keys[j]][k] == f1[keys[j]][k] + noise(keys[j], k)
  {
    if j < i - 1 {
      NoisedValue(f1, n, keys, i - 1, noise, j);
    } else {
      assert keys[j] !in keys[..i - 1];
      NoisedKeepsOthers(f1, n, keys, i - 1, noise, keys[j]);
    }
  }

  /** `generate_dataset` fails exactly when the template is empty (`iloc[-1]`
      raises `IndexError`), the resolution is 0 (`ZeroDivisionError`), a
      `noise_def` key is not a template column (`KeyError` for the first
      such key), a standard deviation is negative (`rng.normal`'s
      `ValueError`), or `ph` or `cond_mScm` is not a `noise_def` key
      (`KeyError` at the clip). */
  lemma DatasetErrors(g: Generator, hz: real, interp: (string, real) -> real, noise: (string, nat) -> real)
    ensures var r := Dataset(g, hz, interp, noise); var keys := KeysOf(g.noiseDef);
      && (r.Ok? <==> g.template.rows != [] && hz != 0.0 && (forall k :: k in keys ==> k in g.template.columns)
                     && Draws(g.noiseDef) && "ph" in keys && "cond_mScm" in keys)
      && (r == Err(IndexError) <==> g.template.rows == [])
      && (r == Err(ZeroDivisionError) <==> g.template.rows != [] && hz == 0.0)
      && (r == Err(ScaleError) <==> g.template.rows != [] && hz != 0.0
                                    && (forall k :: k in keys ==> k in g.template.columns) && !Draws(g.noiseDef))
      && (g.template.rows != [] && hz != 0.0 && (exists k :: k in keys && k !in g.template.columns) ==>
            exists j :: (&& 0 <= j < |keys| && r == Err(KeyError(keys[j]))
                         && keys[j] !in g.template.columns
                         && forall i :: 0 <= i < j ==> keys[i] in g.template.columns))
  {
    if g.template.rows != [] && hz != 0.0 {
      BuildErrors(Axis(g, hz), g.noiseDef, g.template, interp, noise);
    }
  }

  lemma BuildErrors(axis: seq<real>, defs: NoiseDef, template: Table,
                    interp: (string, real) -> real, noise: (string, nat) -> real)
    ensures var r := Build(axis, defs, template, interp, noise); var keys := KeysOf(defs);
      && (r.Ok? <==> (forall k :: k in keys ==> k in template.columns) && Draws(defs) && "ph" in keys && "cond_mScm" in keys)
      && r != Err(IndexError) && r != Err(ZeroDivisionError)
      && (r == Err(ScaleError) <==> (forall k :: k in keys ==> k in template.columns) && !Draws(defs))
      && ((exists k :: k in keys && k !in template.columns) ==>
            exists j :: (&& 0 <= j < |keys| && r == Err(KeyError(keys[j])) && keys[j] !in template.columns
                         && forall i :: 0 <= i < j ==> keys[i] in template.columns))
  {
    var n := |axis|;
    var f0 := InitialFrame(axis);
    var keys := KeysOf(defs);
    assert keys[..|keys|] == keys;
    var ri := Interpolated(f0, n, keys, |keys|, template, interp);
    InterpolatedKeys(f0, n, keys, |keys|, template, interp);
    if ri.Ok? && Draws(defs) {
      var f2 := Noised(ri.value, n, keys, |keys|, noise);
      assert f2.Keys == f0.Keys + set k | k in keys;
      assert "ph" in f2 <==> "ph" in keys;
      assert "cond_mScm" in f2 <==> "cond_mScm" in keys;
    } else if ri.Err? {
      FirstMissing(f0, n, keys, |keys|, template, interp);
    }
  }

  lemma {:induction false} FirstMissing(f0: Frame, n: nat, keys: seq<string>, i: nat, template: Table, interp: (string, real) -> real)
    requires i <= |keys| && Columns(f0, n)
    requires Interpolated(f0, n, keys, i, template, interp).Err?
    ensures exists j :: (&& 0 <= j < i && Interpolated(f0, n, keys, i, template, interp) == Err(KeyError(keys[j]))
                         && keys[j] !in template.columns && forall l :: 0 <= l < j ==> keys[l] in template.columns)
  {
    var prev := Interpolated(f0, n, keys, i - 1, template, interp);
    if prev.Err? {
      FirstMissing(f0, n, keys, i - 1, template, interp);
    } else {
      InterpolatedKeys(f0, n, keys, i - 1, template, interp);
    }
  }

  /** The frame has exactly the columns `time_sec`, `time_min` and the
      `noise_def` keys, all as long as the time axis; `ph` lies in [2, 12]
      and `cond_mScm` in [0.1, 120]. */
  lemma DatasetShape(g: Generator, hz: real, interp: (string, real) -> real, noise: (string, nat) -> real)
    requires Dataset(g, hz, interp, noise).Ok?
    ensures var f := Dataset(g, hz, interp, noise).value; var n := |Axis(g, hz)|;
      && f.Keys == {"time_sec", "time_min"} + set k | k in KeysOf(g.noiseDef)
      && (forall c :: c in f ==> |f[c]| == n)
      && "ph" in f && (forall k :: 0 <= k < n ==> 2.0 <= f["ph"][k] <= 12.0)
      && "cond_mScm" in f && (forall k :: 0 <= k < n ==> 0.1 <= f["cond_mScm"][k] <= 120.0)
  {
    BuildShape(Axis(g, hz), g.noiseDef, g.template, interp, noise);
  }

  lemma BuildShape(axis: seq<real>, defs: NoiseDef, template: Table,
                   interp: (string, real) -> real, noise: (string, nat) -> real)
    requires Build(axis, defs, template, interp, noise).Ok?
    ensures var f := Build(axis, defs, template, interp, noise).value; var n := |axis|;
      && f.Keys == {"time_sec", "time_min"} + set k | k in KeysOf(defs)
      && (forall c :: c in f ==> |f[c]| == n)
      && "ph" in f && (forall k :: 0 <= k < n ==> 2.0 <= f["ph"][k] <= 12.0)
      && "cond_mScm" in f && (forall k :: 0 <= k < n ==> 0.1 <= f["cond_mScm"][k] <= 120.0)
  {
    var n := |axis|;
    var f0 := InitialFrame(axis);
    var keys := KeysOf(defs);
    assert keys[..|keys|] == keys;
    InterpolatedKeys(f0, n, keys, |keys|, template, interp);
  }

  /** The values of a generated frame over time axis `axis`: `time_min` is
      `time_sec / 60`, and every key is the interpolated template column
      plus its noise, clipped to [2, 12] for `ph` and to [0.1, 120] for
      `cond_mScm`. */
  ghost predicate FrameValues(f: Frame, axis: seq<real>, keys: seq<string>,
                              interp: (string, real) -> real, noise: (string, nat) -> real)
  {
    && "time_sec" in f && "time_min" in f && f["time_sec"] == axis && |f["time_min"]| == |axis|
    && (forall k :: 0 <= k < |axis| ==> f["time_min"][k] == axis[k] / 60.0)
    && forall j, k :: 0 <= j < |keys| && 0 <= k < |axis| ==>
         var c := keys[j]; var v := interp(c, axis[k]) + noise(c, k);
         c in f && |f[c]| == |axis| && f[c][k] == if c == "ph" then Clip(v, 2.0, 12.0) else if c == "cond_mScm" then Clip(v, 0.1, 120.0) else v
  }

  /** When neither time column is a `noise_def` key, the frame holds the
      values above over the axis whose row `k` is `k / hz` seconds. */
  lemma DatasetValues(g: Generator, hz: real, interp: (string, real) -> real, noise: (string, nat) -> real)
    requires Dataset(g, hz, interp, noise).Ok?
    requires var keys := KeysOf(g.noiseDef); NoDuplicates(keys) && "time_sec" !in keys && "time_min" !in keys
    ensures var axis := Axis(g, hz);
      && FrameValues(Dataset(g, hz, interp, noise).value, axis, KeysOf(g.noiseDef), interp, noise)
      && forall k :: 0 <= k < |axis| ==> axis[k] == k as real / hz
  {
    var axis := Axis(g, hz);
    assert Dataset(g, hz, interp, noise) == Build(axis, g.noiseDef, g.template, interp, noise);
    BuildValues(axis, g.noiseDef, g.template, interp, noise);
    AxisSteps(g, hz);
  }

  lemma AxisSteps(g: Generator, hz: real)
    requires g.template.rows != [] && hz != 0.0
    ensures forall k :: 0 <= k < |Axis(g, hz)| ==> Axis(g, hz)[k] == k as real / hz
  {
    var axis := Axis(g, hz);
    forall k | 0 <= k < |axis| ensures axis[k] == k as real / hz {
      assert k as real * (1.0 / hz) == k as real / hz;
    }
  }

  lemma BuildValues(axis: seq<real>, defs: NoiseDef, template: Table,
                    interp: (string, real) -> real, noise: (string, nat) -> real)
    requires Build(axis, defs, template, interp, noise).Ok?
    requires var keys := KeysOf(defs); NoDuplicates(keys) && "time_sec" !in keys && "time_min" !in keys
    ensures FrameValues(Build(axis, defs, template, interp, noise).value, axis, KeysOf(defs), interp, noise)
  {
    var n := |axis|;
    var f0 := InitialFrame(axis);
    var keys := KeysOf(defs);
    assert keys[..|keys|] == keys;
    var f1 := Interpolated(f0, n, keys, |keys|, template, interp).value;
    InterpolatedKeys(f0, n, keys, |keys|, template, interp);
    var f2 := Noised(f1, n, keys, |keys|, noise);
    InterpolatedKeepsOthers(f0, n, keys, |keys|, template, interp, "time_sec");
    InterpolatedKeepsOthers(f0, n, keys, |keys|, template, interp, "time_min");
    NoisedKeepsOthers(f1, n, keys, |keys|, noise, "time_sec");
    NoisedKeepsOthers(f1, n, keys, |keys|, noise, "time_min");
    forall j | 0 <= j < |keys|
      ensures forall k :: 0 <= k < n ==> f2[keys[j]][k] == interp(keys[j], axis[k]) + noise(keys[j], k)
    {
      InterpolatedValue(f0, n, keys, |keys|, template, interp, j);
      NoisedValue(f1, n, keys, |keys|, noise, j);
    }
    assert RawValues(f2, axis, keys, interp, noise);
    assert Build(axis, defs, template, interp, noise) == Clipped(f2, n);
    ClippedValues(f2, axis, keys, interp, noise);
  }

  /** `FrameValues` before the clip. */
  ghost predicate RawValues(f: Frame, axis: seq<real>, keys: seq<string>,
                            interp: (string, real) -> real, noise: (string, nat) -> real)
  {
    && Columns(f, |axis|) && "time_min" in f && f["time_sec"] == axis
    && (forall k :: 0 <= k < |axis| ==> f["time_min"][k] == axis[k] / 60.0)
    && forall j, k :: 0 <= j < |keys| && 0 <= k < |axis| ==>
         keys[j] in f && f[keys[j]][k] == interp(keys[j], axis[k]) + noise(keys[j], k)
  }

  lemma ClippedValues(f: Frame, axis: seq<real>, keys: seq<string>,
                      interp: (string, real) -> real, noise: (string, nat) -> real)
    requires RawValues(f, axis, keys, interp, noise) && Clipped(f, |axis|).Ok?
    ensures FrameValues(Clipped(f, |axis|).value, axis, keys, interp, noise)
  {
    var n := |axis|;
    var g := Clipped(f, n).value;
    assert g["time_sec"] == f["time_sec"] && g["time_min"] == f["time_min"];
    forall j, k | 0 <= j < |keys| && 0 <= k < n
      ensures var c := keys[j]; var v := interp(c, axis[k]) + noise(c, k);
        c in g && |g[c]| == n && g[c][k] == if c == "ph" then Clip(v, 2.0, 12.0) else if c == "cond_mScm" then Clip(v, 0.1, 120.0) else v
    {
      var c := keys[j];
      assert c in f && f[c][k] == interp(c, axis[k]) + noise(c, k);
      if c != "ph" && c != "cond_mScm" {
        assert g[c] == f[c];
      }
    }
  }

  /** With a positive resolution the axis covers `[0, total]`: its last
      value is at least `total` and less than `total + 1/hz`, so it ends
      exactly at `total` seconds when `total * hz` is a whole number. */
  lemma TimeAxisSpan(total: nat, hz: real)
    requires hz > 0.0
    ensures var axis := TimeAxis(total, 1.0 / hz);
      && |axis| >= 1 && axis[0] == 0.0
      && total as real <= axis[|axis| - 1] < total as real + 1.0 / hz
  {
    var t, dt := total as real, 1.0 / hz;
    var q := (t + dt) / dt;
    assert q == t * hz + 1.0 by { StepsOfReciprocal(t, hz); }
    var n := Ceil(q);
    assert t * hz <= (n - 1) as real < t * hz + 1.0;
    ScaledBack(t, (n - 1) as real, hz);
  }

  /** With `dt = 1 / hz`, `(t + dt) / dt` counts `t * hz + 1` steps. */
  lemma StepsOfReciprocal(t: real, hz: real)
    requires hz > 0.0
    ensures (t + 1.0 / hz) / (1.0 / hz) == t * hz + 1.0
  {
    var dt := 1.0 / hz;
    assert (t + dt) / dt == t / dt + dt / dt;
    assert t / dt == t * hz;
  }

  /** Scaling `t * hz <= a < t * hz + 1` back by `1 / hz`. */
  lemma ScaledBack(t: real, a: real, hz: real)
    requires hz > 0.0 && t * hz <= a < t * hz + 1.0
    ensures t <= a * (1.0 / hz) < t + 1.0 / hz
  {
    assert a * (1.0 / hz) == a / hz;
    assert t * hz / hz == t;
    assert (t * hz + 1.0) / hz == t + 1.0 / hz;
  }

  // ---------------------------------------------------------------------

  /** `generate_dataset`: the time axis, then the loops at lines 48-63. */
  method GenerateDataset(g: Generator, hz: real, interp: (string, real) -> real, noise: (string, nat) -> real)
    returns (r: Result<Frame>)
    ensures r == Dataset(g, hz, interp, noise)
  {
    var rows := g.template.rows;
    if |rows| == 0 {
      return Err(IndexError);
    }
    var totalTimeSec := TruncToInt(rows[|rows| - 1].timeMin * 60.0);
    if hz == 0.0 {
      return Err(ZeroDivisionError);
    }
    var dt := 1.0 / hz;
    var timeSec := TimeAxis(totalTimeSec, dt);
    assert timeSec == Axis(g, hz);
    var n := |timeSec|;
    var frame: Frame := map["time_sec" := timeSec];
    frame := frame["time_min" := seq(n, k requires 0 <= k < n => frame["time_sec"][k] / 60.0)];
    assert frame == InitialFrame(timeSec);
    var sensorCols := KeysOf(g.noiseDef);
    var interpolated := InterpolateColumns(frame, n, sensorCols, g.template, interp);
    if interpolated.Err? {
      return interpolated;
    }
    InterpolatedKeys(frame, n, sensorCols, |sensorCols|, g.template, interp);
    assert sensorCols[..|sensorCols|] == sensorCols;
    var noised := AddNoise(interpolated.value, n, g.noiseDef, noise);
    if noised.Err? {
      return noised;
    }
    r := ClipColumns(noised.value, n);
  }

  /** The interpolation loop at lines 49-54. */
  method InterpolateColumns(f0: Frame, n: nat, keys: seq<string>, template: Table, interp: (string, real) -> real)
    returns (r: Result<Frame>)
    requires Columns(f0, n)
    ensures r == Interpolated(f0, n, keys, |keys|, template, interp)
  {
    var frame := f0;
    var i := 0;
    while i < |keys|
      invariant 0 <= i <= |keys|
      invariant Interpolated(f0, n, keys, i, template, interp) == Ok(frame)
    {
      var col := keys[i];
      if col !in template.columns {
        ErrorPersists(f0, n, keys, i + 1, |keys|, template, interp);
        return Err(KeyError(col));
      }
      var ts := frame["time_sec"];
      frame := frame[col := seq(n, k requires 0 <= k < n => interp(col, ts[k]))];
      i := i + 1;
    }
    r := Ok(frame);
  }

  /** The noise loop at lines 58-59: `rng.normal` raises at the first
      negative standard deviation. */
  method AddNoise(f1: Frame, n: nat, defs: NoiseDef, noise: (string, nat) -> real) returns (r: Result<Frame>)
    requires Columns(f1, n) && forall k :: k in KeysOf(defs) ==> k in f1
    ensures r == if Draws(defs) then Ok(Noised(f1, n, KeysOf(defs), |defs|, noise)) else Err(ScaleError)
  {
    ghost var keys := KeysOf(defs);
    var frame := f1;
    var i := 0;
    while i < |defs|
      invariant 0 <= i <= |defs|
      invariant forall j :: 0 <= j < i ==> defs[j].1.stddev >= 0.0
      invariant frame == Noised(f1, n, keys, i, noise)
    {
      var (col, normal) := defs[i];
      if normal.stddev < 0.0 {
        return Err(ScaleError);
      }
      var cur := frame[col];
      frame := frame[col := seq(n, k requires 0 <= k < n => cur[k] + noise(col, k))];
      i := i + 1;
    }
    r := Ok(frame);
  }

  /** The clipping at lines 62-63. */
  method ClipColumns(f: Frame, n: nat) returns (r: Result<Frame>)
    requires Columns(f, n)
    ensures r == Clipped(f, n)
  {
    var frame := f;
    if "ph" !in frame {
      return Err(KeyError("ph"));
    }
    var ph := frame["ph"];
    frame := frame["ph" := seq(n, k requires 0 <= k < n => Clip(ph[k], 2.0, 12.0))];
    if "cond_mScm" !in frame {
      return Err(KeyError("cond_mScm"));
    }
    var cond := frame["cond_mScm"];
    frame := frame["cond_mScm" := seq(n, k requires 0 <= k < n => Clip(cond[k], 0.1, 120.0))];
    r := Ok(frame);
  }

  /** Once a key is missing the loop has raised, whatever follows. */
  lemma {:induction false} ErrorPersists(f0: Frame, n: nat, keys: seq<string>, i: nat, j: nat, template: Table,
                                         interp: (string, real) -> real)
    requires 0 < i <= j <= |keys| && Columns(f0, n)
    requires Interpolated(f0, n, keys, i - 1, template, interp).Ok? && keys[i - 1] !in template.columns
    ensures Interpolated(f0, n, keys, j, template, interp) == Err(KeyError(keys[i - 1]))
  {
    if j > i {
      ErrorPersists(f0, n, keys, i, j - 1, template, interp);
    }
  }
}
