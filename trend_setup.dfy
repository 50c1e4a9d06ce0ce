/** The generator set-up shared by both `generate_stream` functions
    (python_data_generation/src/time_series_trends/main.py and
    python/src/time_series_trends/main.py): for every column id and every
    trend number, the good or bad template generator builds a dataset, whose
    rows become that column's stream generator for that trend. The
    dictionary `trend_gen_dict` keeps its keys in first-assignment order. */
module TrendSetup {
  import opened Common
  import opened TrendGenerator

  /** One row of a generated dataset, with its `time_sec` read out. */
  datatype Record = Record(timeSec: real, fields: Row)

  /** The rows `get_stream_generator(simulated_data)` yields (no test mode). */
  function Records(f: Frame): (rs: seq<Record>)
    requires Rectangular(f)
    ensures |rs| == |f["time_sec"]|
    ensures forall k :: 0 <= k < |rs| ==> rs[k].timeSec == f["time_sec"][k]
  {
    var rows := StreamGenerator(f, |f["time_sec"]|, false);
    seq(|rows|, k requires 0 <= k < |rows| => Record(rows[k]["time_sec"], rows[k]))
  }

  /** What the datasets are built from: the good and bad template
      generators, the resolution, the interpolation against the good
      (`false`) or bad (`true`) template, and the noise drawn for column
      `col`'s `j`-th dataset. */
  datatype Sources = Sources(good: Generator, bad: Generator, hz: real,
                             interp: bool -> (string, real) -> real,
                             noise: (string, nat) -> (string, nat) -> real)

  /** The dataset of column `col`, trend `j`: `batch_quality[col][j]` picks
      the template, and a missing column or trend raises. */
  function TrendData(src: Sources, quality: map<string, seq<string>>, col: string, j: nat): (r: Result<Frame>)
    ensures r.Ok? ==> Rectangular(r.value)
  {
    if col !in quality then Err(KeyError(col))
    else if j >= |quality[col]| then Err(IndexError)
    else
      var bad := quality[col][j] == "bad";
      Dataset(if bad then src.bad else src.good, src.hz, src.interp(bad), src.noise(col, j))
  }

  /** The stream generator of column `col`, trend `j`. */
  function TrendRecords(src: Sources, quality: map<string, seq<string>>, col: string, j: nat): Result<seq<Record>>
  {
    match TrendData(src, quality, col, j)
    case Err(e) => Err(e)
    case Ok(f) => Ok(Records(f))
  }

  /** The generator maker the set-up loops call, as one function. */
  function Maker(src: Sources, quality: map<string, seq<string>>): (string, nat) -> Result<seq<Record>>
  {
    (col: string, j: nat) => TrendRecords(src, quality, col, j)
  }

  /** The filled dictionary: its keys in order, each key's generators, and
      the rows of the dataset generated last (`simulated_data` after the
      loops). */
  datatype Setup = Setup(keys: seq<string>, gens: map<string, seq<seq<Record>>>, last: Option<seq<Record>>)

  /** The inner loop for column `col`, trends `0..j-1`. */
  function ColumnTrends(make: (string, nat) -> Result<seq<Record>>, col: string, j: nat): Result<(seq<seq<Record>>, Option<seq<Record>>)>
  {
    if j == 0 then Ok(([], None))
    else
      match ColumnTrends(make, col, j - 1)
      case Err(e) => Err(e)
      case Ok(prev) =>
        match make(col, j - 1)
        case Err(e) => Err(e)
        case Ok(g) => Ok((prev.0 + [g], Some(g)))
  }

  /** The outer loop over the first `i` column ids. */
  function SetupUpTo(make: (string, nat) -> Result<seq<Record>>, ids: seq<string>, n: nat, i: nat): Result<Setup>
    requires i <= |ids|
  {
    if i == 0 then Ok(Setup([], map[], None))
    else
      match SetupUpTo(make, ids, n, i - 1)
      case Err(e) => Err(e)
      case Ok(s) =>
        var col := ids[i - 1];
        match ColumnTrends(make, col, n)
        case Err(e) => Err(e)
        case Ok(ct) =>
          Ok(Setup(if col in s.gens then s.keys else s.keys + [col], s.gens[col := ct.0],
                   if ct.1.Some? then ct.1 else s.last))
  }

  function BuildSetup(make: (string, nat) -> Result<seq<Record>>, ids: seq<string>, n: nat): Result<Setup>
  {
    SetupUpTo(make, ids, n, |ids|)
  }

  // ---------------------------------------------------------------------

  /** A column's inner loop succeeds exactly when every one of its trends
      does; otherwise it raises one of their errors. */
  lemma {:induction false} ColumnTrendsErrors(make: (string, nat) -> Result<seq<Record>>, col: string, j: nat)
    ensures var r := ColumnTrends(make, col, j);
      && (r.Ok? <==> forall t :: 0 <= t < j ==> make(col, t).Ok?)
      && (r.Err? ==> exists t :: 0 <= t < j && make(col, t) == Err(r.error))
  {
    if j > 0 {
      ColumnTrendsErrors(make, col, j - 1);
    }
  }

  /** A successful inner loop holds one generator per trend, in trend
      order, and remembers the last one. */
  lemma {:induction false} ColumnTrendsValue(make: (string, nat) -> Result<seq<Record>>, col: string, j: nat)
    requires ColumnTrends(make, col, j).Ok?
    ensures var ct := ColumnTrends(make, col, j).value;
      && |ct.0| == j
      && (forall t :: 0 <= t < j ==> make(col, t) == Ok(ct.0[t]))
      && (j == 0 <==> ct.1.None?)
      && (j > 0 ==> ct.1 == Some(ct.0[j - 1]))
  {
    if j > 0 {
      ColumnTrendsValue(make, col, j - 1);
    }
  }

  /** Trend `j` of a column uses the bad template exactly when
      `batch_quality[col][j] == "bad"`, and a missing column or trend
      raises. */
  lemma TemplateChoice(src: Sources, quality: map<string, seq<string>>, col: string, j: nat)
    ensures col !in quality ==> Maker(src, quality)(col, j) == Err(KeyError(col))
    ensures col in quality && j >= |quality[col]| ==> Maker(src, quality)(col, j) == Err(IndexError)
    ensures col in quality && j < |quality[col]| ==>
      var bad := quality[col][j] == "bad";
      var d := Dataset(if bad then src.bad else src.good, src.hz, src.interp(bad), src.noise(col, j));
      && (d.Err? ==> Maker(src, quality)(col, j) == Err(d.error))
      && (d.Ok? ==> Maker(src, quality)(col, j) == Ok(Records(d.value)))
  {
  }

  /** After the loops, the keys are the column ids without repeats, in
      order of first appearance. */
  lemma {:induction false} SetupKeys(make: (string, nat) -> Result<seq<Record>>, ids: seq<string>, n: nat, i: nat)
    requires i <= |ids|
    requires SetupUpTo(make, ids, n, i).Ok?
    ensures var s := SetupUpTo(make, ids, n, i).value;
      s.keys == Dedup(ids[..i]) && forall c :: c in s.gens <==> c in ids[..i]
  {
    if i > 0 {
      SetupKeys(make, ids, n, i - 1);
      SetupStep(make, ids, n, i - 1);
      var col := ids[i - 1];
      assert ids[..i][..i - 1] == ids[..i - 1];
      assert ids[..i] == ids[..i - 1] + [col];
      assert col in Dedup(ids[..i - 1]) <==> col in ids[..i - 1];
    }
  }

  /** Every key has exactly `number_of_trends` generators, the `t`-th made
      for that column's trend `t`. */
  lemma {:induction false} SetupGenerators(make: (string, nat) -> Result<seq<Record>>, ids: seq<string>, n: nat, i: nat)
    requires i <= |ids|
    requires SetupUpTo(make, ids, n, i).Ok?
    ensures var s := SetupUpTo(make, ids, n, i).value;
      forall c :: c in s.gens ==> |s.gens[c]| == n && forall t :: 0 <= t < n ==> make(c, t) == Ok(s.gens[c][t])
  {
    if i > 0 {
      SetupGenerators(make, ids, n, i - 1);
      ColumnTrendsValue(make, ids[i - 1], n);
    }
  }

  /** `simulated_data` ends as the last id's last trend, and is unbound
      when no dataset was generated. */
  lemma {:induction false} SetupLast(make: (string, nat) -> Result<seq<Record>>, ids: seq<string>, n: nat, i: nat)
    requires i <= |ids|
    requires SetupUpTo(make, ids, n, i).Ok?
    ensures var s := SetupUpTo(make, ids, n, i).value;
      && (s.last.None? <==> i == 0 || n == 0)
      && (i > 0 && n > 0 ==> ids[i - 1] in s.gens && |s.gens[ids[i - 1]]| == n && s.last == Some(s.gens[ids[i - 1]][n - 1]))
  {
    if i > 0 {
      SetupLast(make, ids, n, i - 1);
      ColumnTrendsValue(make, ids[i - 1], n);
    }
  }

  /** The loops succeed exactly when every (column, trend) generator is
      made; otherwise the exception is one of theirs. */
  lemma {:induction false} SetupErrors(make: (string, nat) -> Result<seq<Record>>, ids: seq<string>, n: nat, i: nat)
    requires i <= |ids|
    ensures var r := SetupUpTo(make, ids, n, i);
      && (r.Ok? <==> forall c, t :: c in ids[..i] && 0 <= t < n ==> make(c, t).Ok?)
      && (r.Err? ==> exists c, t :: c in ids[..i] && 0 <= t < n && make(c, t) == Err(r.error))
  {
    if i > 0 {
      SetupErrors(make, ids, n, i - 1);
      ColumnTrendsErrors(make, ids[i - 1], n);
      assert ids[..i] == ids[..i - 1] + [ids[i - 1]];
      if SetupUpTo(make, ids, n, i - 1).Ok? {
        SetupStep(make, ids, n, i - 1);
      }
    }
  }

  /** One iteration of the outer loop. */
  lemma SetupStep(make: (string, nat) -> Result<seq<Record>>, ids: seq<string>, n: nat, i: nat)
    requires i < |ids| && SetupUpTo(make, ids, n, i).Ok?
    ensures var s := SetupUpTo(make, ids, n, i).value; var col := ids[i];
      && (ColumnTrends(make, col, n).Err? ==> SetupUpTo(make, ids, n, i + 1) == Err(ColumnTrends(make, col, n).error))
      && (ColumnTrends(make, col, n).Ok? ==>
            var ct := ColumnTrends(make, col, n).value;
            SetupUpTo(make, ids, n, i + 1)
              == Ok(Setup(if col in s.gens then s.keys else s.keys + [col], s.gens[col := ct.0],
                          if ct.1.Some? then ct.1 else s.last)))
  {
  }

  lemma SetupAdvance(make: (string, nat) -> Result<seq<Record>>, ids: seq<string>, n: nat, i: nat,
                     s: Setup, trends: seq<seq<Record>>, colLast: Option<seq<Record>>)
    requires i < |ids| && SetupUpTo(make, ids, n, i) == Ok(s)
    requires ColumnTrends(make, ids[i], n) == Ok((trends, colLast))
    ensures SetupUpTo(make, ids, n, i + 1)
              == Ok(Setup(if ids[i] in s.gens then s.keys else s.keys + [ids[i]], s.gens[ids[i] := trends],
                          if colLast.Some? then colLast else s.last))
  {
    SetupStep(make, ids, n, i);
  }

  /** A column that fails ends the loops with its error. */
  lemma SetupFails(make: (string, nat) -> Result<seq<Record>>, ids: seq<string>, n: nat, i: nat, e: Error)
    requires i < |ids| && SetupUpTo(make, ids, n, i).Ok?
    requires ColumnTrends(make, ids[i], n) == Err(e)
    ensures SetupUpTo(make, ids, n, |ids|) == Err(e)
  {
    SetupStep(make, ids, n, i);
    SetupErrorPersists(make, ids, n, i + 1, |ids|);
  }

  lemma ColumnStep(make: (string, nat) -> Result<seq<Record>>, col: string, j: nat)
    requires ColumnTrends(make, col, j).Ok?
    ensures make(col, j).Err? ==> ColumnTrends(make, col, j + 1) == Err(make(col, j).error)
    ensures make(col, j).Ok? ==>
      ColumnTrends(make, col, j + 1) == Ok((ColumnTrends(make, col, j).value.0 + [make(col, j).value], Some(make(col, j).value)))
  {
  }

  /** Once a column fails, the loops stop with its error. */
  lemma {:induction false} SetupErrorPersists(make: (string, nat) -> Result<seq<Record>>, ids: seq<string>, n: nat, i: nat, k: nat)
    requires i <= k <= |ids|
    requires SetupUpTo(make, ids, n, i).Err?
    ensures SetupUpTo(make, ids, n, k) == SetupUpTo(make, ids, n, i)
    decreases k - i
  {
    if i < k {
      SetupErrorPersists(make, ids, n, i, k - 1);
    }
  }

  lemma {:induction false} ColumnErrorPersists(make: (string, nat) -> Result<seq<Record>>, col: string, j: nat, k: nat)
    requires j <= k
    requires ColumnTrends(make, col, j).Err?
    ensures ColumnTrends(make, col, k) == ColumnTrends(make, col, j)
    decreases k - j
  {
    if j < k {
      ColumnErrorPersists(make, col, j, k - 1);
    }
  }

  // ---------------------------------------------------------------------

  /** The two set-up loops, filling the dictionary; `make(col, j)` is the
      body of the inner loop, `MakeGenerator` below. */
  method BuildGenerators(make: (string, nat) -> Result<seq<Record>>, ids: seq<string>, n: nat)
    returns (r: Result<Setup>)
    ensures r == BuildSetup(make, ids, n)
  {
    var keys: seq<string> := [];
    var gens: map<string, seq<seq<Record>>> := map[];
    var last: Option<seq<Record>> := None;
    var i := 0;
    ghost var s := Setup(keys, gens, last);
    while i < |ids|
      invariant 0 <= i <= |ids|
      invariant SetupUpTo(make, ids, n, i) == Ok(s) && s == Setup(keys, gens, last)
    {
      var col := ids[i];
      var trends, colLast, err := FillColumn(make, col, n);
      if err.Some? {
        SetupFails(make, ids, n, i, err.value);
        return Err(err.value);
      }
      SetupAdvance(make, ids, n, i, s, trends, colLast);
      if col !in gens {
        keys := keys + [col];
      }
      gens := gens[col := trends];
      if colLast.Some? {
        last := colLast;
      }
      s := Setup(keys, gens, last);
      i := i + 1;
    }
    return Ok(Setup(keys, gens, last));
  }

  /** The inner loop for one column: `trend_gen_dict[col] = []`, then one
      generator appended to that list per trend. */
  method FillColumn(make: (string, nat) -> Result<seq<Record>>, col: string, n: nat)
    returns (trends: seq<seq<Record>>, colLast: Option<seq<Record>>, err: Option<Error>)
    ensures err.None? ==> ColumnTrends(make, col, n) == Ok((trends, colLast))
    ensures err.Some? ==> ColumnTrends(make, col, n) == Err(err.value)
  {
    trends, colLast := [], None;
    var j := 0;
    while j < n
      invariant 0 <= j <= n
      invariant ColumnTrends(make, col, j) == Ok((trends, colLast))
    {
      var gen := make(col, j);
      ColumnStep(make, col, j);
      if gen.Err? {
        ColumnErrorPersists(make, col, j + 1, n);
        return trends, colLast, Some(gen.error);
      }
      trends := trends + [gen.value];
      colLast := Some(gen.value);
      j := j + 1;
    }
    err := None;
  }

  /** One step of the inner loop: look up the quality, generate the
      dataset from the chosen template and take its stream generator. */
  method MakeGenerator(src: Sources, quality: map<string, seq<string>>, col: string, j: nat)
    returns (r: Result<seq<Record>>)
    ensures r == Maker(src, quality)(col, j)
  {
    if col !in quality {
      return Err(KeyError(col));
    }
    if j >= |quality[col]| {
      return Err(IndexError);
    }
    var bad := quality[col][j] == "bad";
    var data := GenerateDataset(if bad then src.bad else src.good, src.hz, src.interp(bad), src.noise(col, j));
    if data.Err? {
      return Err(data.error);
    }
    r := Ok(Records(data.value));
  }
}
