/**
 * The metric engine of metrics.py: per-sample daily MSE, RMSE and R²
 * (`posprocessDataframe`), the column-wise mean of those vectors over all
 * samples (`calculate_model_metrics`) and the masked MAPE (`calculate_mape`).
 * numpy values are exact reals.
 */
module Metrics {

  import opened Wrappers
  import opened Grid
  import opened Frames

  /**
   * The numeric routines the engine calls but whose code is not part of this
   * model: numpy's element-wise square root and scikit-learn's `r2_score`.
   */
  datatype Numerics = Numerics(sqrt: real -> real, r2: (seq<real>, seq<real>) -> real)

  /** What the engine relies on from `np.sqrt`: the non-negative root of a non-negative value. */
  ghost predicate IsSquareRoot(sqrt: real -> real)
  {
    forall x :: x >= 0.0 ==> sqrt(x) >= 0.0 && Power(sqrt(x), 2) == x
  }

  const TRUTH := "y_rol"
  const PRED := "y_rol_pred"
  const MSE := "mse"
  const RMSE := "rmse"
  const R2_SCORE := "r2_score"

  // ------------------------------------------------------- one sample

  /** Ground truth and prediction with the same number of grid points and days, at least one point. */
  predicate SameShape(truth: Matrix, pred: Matrix)
  {
    |truth| > 0 && IsShape(truth, |truth|, |truth[0]|) && IsShape(pred, |truth|, |truth[0]|)
  }

  function SquaredErrors(a: seq<real>, b: seq<real>): (r: seq<real>)
    requires |a| == |b|
    ensures |r| == |a|
  {
    seq(|a|, i requires 0 <= i < |a| => Power(a[i] - b[i], 2))
  }

  /** `torch.mean((y_rol - y_rol_pred) ** 2, dim=0)`: one value per day. */
  function DailyMse(truth: Matrix, pred: Matrix): (r: seq<real>)
    requires SameShape(truth, pred)
    ensures |r| == Width(truth)
  {
    seq(Width(truth), d requires 0 <= d < Width(truth) =>
      Mean(SquaredErrors(Column(truth, d), Column(pred, d))))
  }

  /** `np.sqrt(mse)`, element-wise. */
  function Rmse(mse: seq<real>, sqrt: real -> real): (r: seq<real>)
    ensures |r| == |mse|
  {
    seq(|mse|, d requires 0 <= d < |mse| => sqrt(mse[d]))
  }

  /** `[r2_score(y_rol[:, i], y_rol_pred[:, i]) for i in range(min_shape)]`. */
  function R2Scores(truth: Matrix, pred: Matrix, r2: (seq<real>, seq<real>) -> real): (r: seq<real>)
    requires SameShape(truth, pred)
    ensures |r| == Width(truth)
    ensures forall d :: 0 <= d < Width(truth) ==> r[d] == r2(Column(truth, d), Column(pred, d))
  {
    seq(Width(truth), d requires 0 <= d < Width(truth) => r2(Column(truth, d), Column(pred, d)))
  }

  /**
   * Every day's MSE is non-negative, and it is zero exactly on the days whose
   * ground-truth and prediction columns agree at every grid point.
   */
  lemma DailyMseZeroIff(truth: Matrix, pred: Matrix, d: nat)
    requires SameShape(truth, pred) && d < Width(truth)
    ensures DailyMse(truth, pred)[d] >= 0.0
    ensures DailyMse(truth, pred)[d] == 0.0 <==> Column(truth, d) == Column(pred, d)
  {
    var a, b := Column(truth, d), Column(pred, d);
    var e := SquaredErrors(a, b);
    SquaredErrorsFacts(a, b);
    MeanNonnegative(e);
    MeanZeroIff(e);
    assert DailyMse(truth, pred)[d] == Mean(e);
    if a != b {
      var i :| 0 <= i < |a| && a[i] != b[i];
      assert e[i] != 0.0;
    }
  }

  /** Each squared error is non-negative and vanishes exactly where the two values agree. */
  lemma SquaredErrorsFacts(a: seq<real>, b: seq<real>)
    requires |a| == |b|
    ensures forall i :: 0 <= i < |a| ==> SquaredErrors(a, b)[i] >= 0.0
    ensures forall i :: 0 <= i < |a| ==> (SquaredErrors(a, b)[i] == 0.0 <==> a[i] == b[i])
  {
    forall i | 0 <= i < |a|
      ensures SquaredErrors(a, b)[i] >= 0.0 && (SquaredErrors(a, b)[i] == 0.0 <==> a[i] == b[i])
    {
      SquareFacts(a[i] - b[i]);
    }
  }

  /**
   * Given a true square root, every day's RMSE is non-negative, squares back
   * to that day's MSE, and is zero exactly on the days predicted perfectly.
   */
  lemma SampleRmseIsRootOfMse(truth: Matrix, pred: Matrix, sqrt: real -> real, d: nat)
    requires SameShape(truth, pred) && IsSquareRoot(sqrt) && d < Width(truth)
    ensures |Rmse(DailyMse(truth, pred), sqrt)| == Width(truth)
    ensures Rmse(DailyMse(truth, pred), sqrt)[d] >= 0.0
    ensures Power(Rmse(DailyMse(truth, pred), sqrt)[d], 2) == DailyMse(truth, pred)[d]
    ensures Rmse(DailyMse(truth, pred), sqrt)[d] == 0.0 <==> Column(truth, d) == Column(pred, d)
  {
    var mse := DailyMse(truth, pred);
    DailyMseZeroIff(truth, pred, d);
    var r := Rmse(mse, sqrt)[d];
    assert r == sqrt(mse[d]);
    SquareFacts(r);
  }

  // --------------------------------------------------- the whole table

  /** A cell holding a grid-point by day matrix, as the loader's reshape produces. */
  predicate IsGridCell(c: Cell)
  {
    c.Mat? && |c.m| == GRID_POINTS && IsShape(c.m, GRID_POINTS, |c.m[0]|)
  }

  /** What `posprocessDataframe` needs of its caller: both sample columns, each cell a grid matrix. */
  predicate ReadyForMetrics(t: Table)
  {
    && WellFormed(t)
    && Get(t, TRUTH).Some? && Get(t, PRED).Some?
    && (forall i :: 0 <= i < t.height ==> IsGridCell(Get(t, TRUTH).value[i]))
    && (forall i :: 0 <= i < t.height ==> IsGridCell(Get(t, PRED).value[i]))
  }

  /** `min_shape`: the smaller day count of the first row's two matrices. */
  function CommonHorizon(t: Table): (k: nat)
    requires ReadyForMetrics(t) && t.height > 0
    ensures k <= Width(Get(t, TRUTH).value[0].m) && k <= Width(Get(t, PRED).value[0].m)
    ensures k == Width(Get(t, TRUTH).value[0].m) || k == Width(Get(t, PRED).value[0].m)
  {
    Min(Width(Get(t, TRUTH).value[0].m), Width(Get(t, PRED).value[0].m))
  }

  /** No row has fewer than `k` days in either matrix (otherwise the per-day metrics raise). */
  predicate AllRowsReach(t: Table, k: nat)
    requires ReadyForMetrics(t)
  {
    forall i :: 0 <= i < t.height ==>
      Width(Get(t, TRUTH).value[i].m) >= k && Width(Get(t, PRED).value[i].m) >= k
  }

  /** `column.apply(lambda row: row[:, :k])`. */
  function Truncate(cells: seq<Cell>, k: nat): (r: seq<Cell>)
    requires forall i :: 0 <= i < |cells| ==> cells[i].Mat?
    ensures |r| == |cells|
    ensures forall i :: 0 <= i < |cells| ==> r[i].Mat? && |r[i].m| == |cells[i].m|
  {
    seq(|cells|, i requires 0 <= i < |cells| => Mat(TakeColumns(cells[i].m, k)))
  }

  predicate SamplePairs(truth: seq<Cell>, pred: seq<Cell>)
  {
    |truth| == |pred| &&
    forall i :: 0 <= i < |truth| ==> truth[i].Mat? && pred[i].Mat? && SameShape(truth[i].m, pred[i].m)
  }

  function MseCells(truth: seq<Cell>, pred: seq<Cell>): (r: seq<Cell>)
    requires SamplePairs(truth, pred)
    ensures |r| == |truth|
  {
    seq(|truth|, i requires 0 <= i < |truth| => Vec(DailyMse(truth[i].m, pred[i].m)))
  }

  function RmseCells(mse: seq<Cell>, sqrt: real -> real): (r: seq<Cell>)
    requires forall i :: 0 <= i < |mse| ==> mse[i].Vec?
    ensures |r| == |mse|
  {
    seq(|mse|, i requires 0 <= i < |mse| => Vec(Rmse(mse[i].v, sqrt)))
  }

  function R2Cells(truth: seq<Cell>, pred: seq<Cell>, r2: (seq<real>, seq<real>) -> real): (r: seq<Cell>)
    requires SamplePairs(truth, pred)
    ensures |r| == |truth|
  {
    seq(|truth|, i requires 0 <= i < |truth| => Vec(R2Scores(truth[i].m, pred[i].m, r2)))
  }

  /** Truncating grid cells that all reach `k` days gives sample pairs of exactly `k` days. */
  lemma TruncatedPairs(t: Table, k: nat)
    requires ReadyForMetrics(t) && AllRowsReach(t, k)
    ensures SamplePairs(Truncate(Get(t, TRUTH).value, k), Truncate(Get(t, PRED).value, k))
    ensures forall i :: 0 <= i < t.height ==>
      IsShape(Truncate(Get(t, TRUTH).value, k)[i].m, GRID_POINTS, k) &&
      IsShape(Truncate(Get(t, PRED).value, k)[i].m, GRID_POINTS, k)
  {
    var truth, pred := Get(t, TRUTH).value, Get(t, PRED).value;
    forall i | 0 <= i < t.height
      ensures IsShape(Truncate(truth, k)[i].m, GRID_POINTS, k)
      ensures IsShape(Truncate(pred, k)[i].m, GRID_POINTS, k)
    {
      TakeColumnsKeepsLeading(truth[i].m, Width(truth[i].m), k);
      TakeColumnsKeepsLeading(pred[i].m, Width(pred[i].m), k);
    }
  }

  /**
   * `posprocessDataframe`: `None` where the source raises (an empty table, or
   * a row narrower than the first row's common horizon); otherwise the table
   * with both matrix columns cut to that horizon and the `mse`, `rmse` and
   * `r2_score` columns set.
   */
  function PostProcess(t: Table, num: Numerics): (r: Option<Table>)
    requires ReadyForMetrics(t)
    ensures r.Some? ==> WellFormed(r.value) && r.value.height == t.height
  {
    if t.height == 0 then None
    else
      var k := CommonHorizon(t);
      if !AllRowsReach(t, k) then None
      else
        TruncatedPairs(t, k);
        var tt := Truncate(Get(t, TRUTH).value, k);
        var pt := Truncate(Get(t, PRED).value, k);
        var mse := MseCells(tt, pt);
        var t1 := WithColumn(WithColumn(t, TRUTH, tt), PRED, pt);
        var t2 := WithColumn(WithColumn(t1, MSE, mse), RMSE, RmseCells(mse, num.sqrt));
        Some(WithColumn(t2, R2_SCORE, R2Cells(tt, pt, num.r2)))
  }

  /**
   * What post-processing does to a table it accepts: both matrix columns keep
   * exactly their first `min_shape` days, unchanged; each row gains an `mse`,
   * `rmse` and `r2_score` vector with one entry per kept day; every other
   * column is untouched. It fails exactly on an empty table or a row with
   * fewer days than the first row's common horizon.
   */
  lemma PostProcessEffect(t: Table, num: Numerics)
    requires ReadyForMetrics(t)
    ensures PostProcess(t, num).Some? <==> t.height > 0 && AllRowsReach(t, CommonHorizon(t))
    ensures PostProcess(t, num).Some? ==>
      var r, k := PostProcess(t, num).value, CommonHorizon(t);
      && Get(r, TRUTH) == Some(Truncate(Get(t, TRUTH).value, k))
      && Get(r, PRED) == Some(Truncate(Get(t, PRED).value, k))
      && (forall i :: 0 <= i < t.height ==>
            IsShape(Get(r, TRUTH).value[i].m, GRID_POINTS, k) &&
            IsShape(Get(r, PRED).value[i].m, GRID_POINTS, k))
      && Get(r, MSE).Some? && Get(r, RMSE).Some? && Get(r, R2_SCORE).Some?
      && (forall i :: 0 <= i < t.height ==>
            && Get(r, MSE).value[i] == Vec(DailyMse(Get(r, TRUTH).value[i].m, Get(r, PRED).value[i].m))
            && Get(r, RMSE).value[i] == Vec(Rmse(Get(r, MSE).value[i].v, num.sqrt))
            && Get(r, R2_SCORE).value[i] == Vec(R2Scores(Get(r, TRUTH).value[i].m, Get(r, PRED).value[i].m, num.r2))
            && |Get(r, MSE).value[i].v| == k && |Get(r, RMSE).value[i].v| == k
            && |Get(r, R2_SCORE).value[i].v| == k)
      && (forall other :: other !in {TRUTH, PRED, MSE, RMSE, R2_SCORE} ==> Get(r, other) == Get(t, other))
  {
    if t.height > 0 && AllRowsReach(t, CommonHorizon(t)) {
      var k := CommonHorizon(t);
      TruncatedPairs(t, k);
      var tt := Truncate(Get(t, TRUTH).value, k);
      var pt := Truncate(Get(t, PRED).value, k);
      var mse := MseCells(tt, pt);
      var rmse := RmseCells(mse, num.sqrt);
      var r2 := R2Cells(tt, pt, num.r2);
      var t0 := WithColumn(t, TRUTH, tt);
      var t1 := WithColumn(t0, PRED, pt);
      var t2 := WithColumn(t1, MSE, mse);
      var t3 := WithColumn(t2, RMSE, rmse);
      var r := WithColumn(t3, R2_SCORE, r2);
      forall other ensures Get(r, other) == (
          if other == R2_SCORE then Some(r2) else if other == RMSE then Some(rmse)
          else if other == MSE then Some(mse) else if other == PRED then Some(pt)
          else if other == TRUTH then Some(tt) else Get(t, other))
      {
        GetWithColumn(t, TRUTH, tt, other);
        GetWithColumn(t0, PRED, pt, other);
        GetWithColumn(t1, MSE, mse, other);
        GetWithColumn(t2, RMSE, rmse, other);
        GetWithColumn(t3, R2_SCORE, r2, other);
      }
      forall i | 0 <= i < t.height
        ensures |mse[i].v| == k && |rmse[i].v| == k && |r2[i].v| == k
      {
        assert Width(tt[i].m) == k;
      }
    }
  }

  /**
   * The imperative `posprocessDataframe`: overwrites the two matrix columns
   * of `df` in place and adds the three metric columns.
   */
  method Posprocess(df: Frame, num: Numerics) returns (ok: bool)
    requires df.Valid() && ReadyForMetrics(df.Value())
    modifies df
    ensures df.Valid()
    ensures ok <==> PostProcess(old(df.Value()), num).Some?
    ensures ok ==> df.Value() == PostProcess(old(df.Value()), num).value
  {
    ghost var t := df.Value();
    var truth, pred := df.Column(TRUTH).value, df.Column(PRED).value;
    if df.height == 0 {
      return false;  // `.iloc[0]` raises IndexError
    }
    var k := Min(Width(truth[0].m), Width(pred[0].m));
    var reach := AllRowsReach(df.Value(), k);
    var tt, pt := Truncate(truth, k), Truncate(pred, k);
    df.SetColumn(TRUTH, tt);
    df.SetColumn(PRED, pt);
    if !reach {
      return false;  // a narrower row: the torch subtraction or `row[:, i]` raises
    }
    TruncatedPairs(t, k);
    var mse := MseCells(tt, pt);
    df.SetColumn(MSE, mse);
    df.SetColumn(RMSE, RmseCells(mse, num.sqrt));
    df.SetColumn(R2_SCORE, R2Cells(tt, pt, num.r2));
    ok := true;
  }

  // -------------------------------------------------- across samples

  /** `np.mean(np.stack(rows), axis=0)`: the mean of each column of the stacked vectors. */
  function ColumnMean(rows: seq<seq<real>>, n: nat): (r: seq<real>)
    requires |rows| > 0 && forall i :: 0 <= i < |rows| ==> |rows[i]| == n
    ensures |r| == n
  {
    seq(n, d requires 0 <= d < n => Mean(Column(rows, d)))
  }

  /** Averaging copies of one vector gives that vector back. */
  lemma ColumnMeanOfEqualRows(rows: seq<seq<real>>, v: seq<real>)
    requires |rows| > 0 && forall i :: 0 <= i < |rows| ==> rows[i] == v
    ensures ColumnMean(rows, |v|) == v
  {
    forall d | 0 <= d < |v| ensures ColumnMean(rows, |v|)[d] == v[d] {
      MeanConstant(Column(rows, d), v[d]);
    }
  }

  /** The mean of non-negative vectors (MSE, RMSE) is non-negative day by day. */
  lemma ColumnMeanNonnegative(rows: seq<seq<real>>, n: nat)
    requires |rows| > 0 && forall i :: 0 <= i < |rows| ==> |rows[i]| == n
    requires forall i, d :: 0 <= i < |rows| && 0 <= d < n ==> rows[i][d] >= 0.0
    ensures forall d :: 0 <= d < n ==> ColumnMean(rows, n)[d] >= 0.0
  {
    forall d | 0 <= d < n ensures ColumnMean(rows, n)[d] >= 0.0 {
      SumNonnegative(Column(rows, d));
    }
  }

  /** A column `np.stack` accepts: at least one cell, all vectors of the first cell's length. */
  predicate Stackable(cells: seq<Cell>)
  {
    |cells| > 0 && cells[0].Vec? && forall i :: 0 <= i < |cells| ==> cells[i].Vec? && |cells[i].v| == |cells[0].v|
  }

  function Stack(cells: seq<Cell>): (rows: seq<seq<real>>)
    requires Stackable(cells)
    ensures |rows| == |cells| && forall i :: 0 <= i < |cells| ==> rows[i] == cells[i].v
  {
    seq(|cells|, i requires 0 <= i < |cells| => cells[i].v)
  }

  function MeanOfColumn(cells: seq<Cell>): (r: seq<real>)
    requires Stackable(cells)
    ensures |r| == |cells[0].v|
  {
    ColumnMean(Stack(cells), |cells[0].v|)
  }

  /** Python's `s.replace(pattern, replacement)`: every non-overlapping occurrence, left to right. */
  function Replace(s: string, pattern: string, replacement: string): string
    requires |pattern| > 0
    decreases |s|
  {
    if |s| < |pattern| then s
    else if s[..|pattern|] == pattern then replacement + Replace(s[|pattern|..], pattern, replacement)
    else [s[0]] + Replace(s[1..], pattern, replacement)
  }

  /** The per-sample metric columns, in the order `calculate_model_metrics` visits them. */
  const METRIC_COLUMNS: seq<string> := [MSE, RMSE, R2_SCORE]

  /** `metric.replace('_score', '')`: the summary key of a metric column. */
  function SummaryKey(column: string): string
  {
    Replace(column, "_score", "")
  }

  lemma SummaryKeysOfMetricColumns()
    ensures SummaryKey(MSE) == "mse" && SummaryKey(RMSE) == "rmse" && SummaryKey(R2_SCORE) == "r2"
  {
    assert "r2_score"[2..][..6] == "_score";
    assert Replace("r2_score"[2..], "_score", "") == "";
    assert "rmse"[1..] == "mse" && "mse"[1..] == "se" && "se"[1..] == "e" && "e"[1..] == "";
  }

  /** A column the table either lacks or can stack. */
  predicate ColumnStackable(t: Table, name: string)
  {
    Get(t, name).Some? ==> Stackable(Get(t, name).value)
  }

  /** Every metric column the table has can be stacked. */
  predicate MetricColumnsStackable(t: Table)
  {
    ColumnStackable(t, MSE) && ColumnStackable(t, RMSE) && ColumnStackable(t, R2_SCORE)
  }

  /** The summary built from the columns `names`, visited in order; absent columns are skipped. */
  function Summarize(t: Table, names: seq<string>): map<string, seq<real>>
    requires forall k :: 0 <= k < |names| ==> ColumnStackable(t, names[k])
  {
    if names == [] then map[]
    else
      var init := names[..|names| - 1];
      assert forall k :: 0 <= k < |init| ==> init[k] == names[k];
      var prev := Summarize(t, init);
      var name := names[|names| - 1];
      assert ColumnStackable(t, name);
      match Get(t, name)
      case None => prev
      case Some(cells) => prev[SummaryKey(name) := MeanOfColumn(cells)]
  }

  /** `calculate_model_metrics`: the summary dict of a post-processed table. */
  function ModelMetrics(t: Table): (r: map<string, seq<real>>)
    requires MetricColumnsStackable(t)
    ensures forall key :: key in r ==> key == "mse" || key == "rmse" || key == "r2"
  {
    SummaryKeysOnly(t);
    Summarize(t, METRIC_COLUMNS)
  }

  /** Visiting the three metric columns can only produce the keys `mse`, `rmse` and `r2`. */
  lemma SummaryKeysOnly(t: Table)
    requires MetricColumnsStackable(t)
    ensures forall key :: key in Summarize(t, METRIC_COLUMNS) ==> key == "mse" || key == "rmse" || key == "r2"
  {
    SummaryKeysOfMetricColumns();
    SummarizeLast(t, [MSE]);
    SummarizeLast(t, [MSE, RMSE]);
    SummarizeLast(t, [MSE, RMSE, R2_SCORE]);
    assert [MSE][..0] == [];
    assert [MSE, RMSE][..1] == [MSE];
    assert [MSE, RMSE, R2_SCORE][..2] == [MSE, RMSE];
  }

  /**
   * The summary has the key `mse`, `rmse` or `r2` exactly when the table has
   * the column `mse`, `rmse` or `r2_score`, and no other key.
   */
  lemma ModelMetricsKeys(t: Table)
    requires MetricColumnsStackable(t)
    ensures var m := ModelMetrics(t);
      && ("mse" in m <==> Get(t, MSE).Some?)
      && ("rmse" in m <==> Get(t, RMSE).Some?)
      && ("r2" in m <==> Get(t, R2_SCORE).Some?)
      && (forall key :: key in m ==> key == "mse" || key == "rmse" || key == "r2")
  {
    SummaryKeysOfMetricColumns();
    SummarizeLast(t, [MSE]);
    SummarizeLast(t, [MSE, RMSE]);
    SummarizeLast(t, [MSE, RMSE, R2_SCORE]);
    assert [MSE][..0] == [];
    assert [MSE, RMSE][..1] == [MSE];
    assert [MSE, RMSE, R2_SCORE][..2] == [MSE, RMSE];
  }

  /** Under each key, the summary holds the column-wise mean of that metric column. */
  lemma ModelMetricsValues(t: Table)
    requires MetricColumnsStackable(t)
    ensures var m := ModelMetrics(t);
      && (Get(t, MSE).Some? ==> "mse" in m && m["mse"] == MeanOfColumn(Get(t, MSE).value))
      && (Get(t, RMSE).Some? ==> "rmse" in m && m["rmse"] == MeanOfColumn(Get(t, RMSE).value))
      && (Get(t, R2_SCORE).Some? ==> "r2" in m && m["r2"] == MeanOfColumn(Get(t, R2_SCORE).value))
  {
    SummaryKeysOfMetricColumns();
    SummarizeLast(t, [MSE]);
    SummarizeLast(t, [MSE, RMSE]);
    SummarizeLast(t, [MSE, RMSE, R2_SCORE]);
    assert [MSE, RMSE][..1] == [MSE];
    assert [MSE, RMSE, R2_SCORE][..2] == [MSE, RMSE];
  }

  /** One more column adds its own key, with that column's mean, and changes nothing else. */
  lemma SummarizeLast(t: Table, names: seq<string>)
    requires names != [] && forall k :: 0 <= k < |names| ==> ColumnStackable(t, names[k])
    ensures var prev, name := Summarize(t, names[..|names| - 1]), names[|names| - 1];
      && Summarize(t, names).Keys == prev.Keys + (if Get(t, name).Some? then {SummaryKey(name)} else {})
      && (forall key :: key in prev && key != SummaryKey(name) ==> Summarize(t, names)[key] == prev[key])
      && (Get(t, name).Some? ==> Summarize(t, names)[SummaryKey(name)] == MeanOfColumn(Get(t, name).value))
  {
  }

  method CalculateModelMetrics(df: Frame) returns (metrics: map<string, seq<real>>)
    requires df.Valid() && MetricColumnsStackable(df.Value())
    ensures metrics == ModelMetrics(df.Value())
    ensures "mse" in metrics <==> df.Column(MSE).Some?
    ensures "rmse" in metrics <==> df.Column(RMSE).Some?
    ensures "r2" in metrics <==> df.Column(R2_SCORE).Some?
    ensures forall key :: key in metrics ==> key == "mse" || key == "rmse" || key == "r2"
  {
    SummaryKeysOfMetricColumns();
    metrics := map[];
    for i := 0 to |METRIC_COLUMNS|
      invariant metrics == Summarize(df.Value(), METRIC_COLUMNS[..i])
    {
      assert METRIC_COLUMNS[..i + 1][..i] == METRIC_COLUMNS[..i];
      var name := METRIC_COLUMNS[i];
      var column := df.Column(name);
      if column.Some? {
        metrics := metrics[SummaryKey(name) := MeanOfColumn(column.value)];
      }
    }
    assert METRIC_COLUMNS[..|METRIC_COLUMNS|] == METRIC_COLUMNS;
    ModelMetricsKeys(df.Value());
  }

  // --------------------------------------------------------------- MAPE

  function Abs(x: real): real
  {
    if x < 0.0 then -x else x
  }

  /** `|(t - p) / t|` for one kept position. */
  function RelativeError(t: real, p: real): real
    requires t != 0.0
  {
    Abs((t - p) / t)
  }

  /** `np.abs((y_true[mask] - y_pred[mask]) / y_true[mask])` with `mask = y_true != 0`. */
  function PercentageErrors(truth: seq<real>, pred: seq<real>): (r: seq<real>)
    requires |truth| == |pred|
    ensures |r| <= |truth|
  {
    if truth == [] then []
    else
      var rest := PercentageErrors(truth[..|truth| - 1], pred[..|pred| - 1]);
      var t, p := truth[|truth| - 1], pred[|pred| - 1];
      if t != 0.0 then rest + [RelativeError(t, p)] else rest
  }

  /** `calculate_mape`; `None` stands for the NaN numpy returns when no entry is kept. */
  function Mape(truth: seq<real>, pred: seq<real>): (r: Option<real>)
    requires |truth| == |pred|
    ensures r.Some? ==> r.value >= 0.0
  {
    var errors := PercentageErrors(truth, pred);
    PercentageErrorsFacts(truth, pred);
    SumNonnegative(errors);
    if errors == [] then None else Some(Mean(errors) * 100.0)
  }

  /** The mask `y_true != 0`: the positions of the non-zero true values, in increasing order. */
  function NonzeroPositions(truth: seq<real>): (idx: seq<nat>)
    ensures forall k :: 0 <= k < |idx| ==> idx[k] < |truth| && truth[idx[k]] != 0.0
    ensures forall a, b :: 0 <= a < b < |idx| ==> idx[a] < idx[b]
    ensures forall i :: 0 <= i < |truth| && truth[i] != 0.0 ==> i in idx
  {
    if truth == [] then []
    else
      var n := |truth| - 1;
      var rest := NonzeroPositions(truth[..n]);
      assert forall i :: 0 <= i < n ==> truth[..n][i] == truth[i];
      if truth[n] != 0.0 then rest + [n] else rest
  }

  /**
   * The masked errors are exactly one term per non-zero true value, in
   * position order: term `k` is the relative error at the `k`-th masked
   * position. So MAPE's mean divides by the number of non-zero true values.
   */
  lemma {:induction false} PercentageErrorsMasked(truth: seq<real>, pred: seq<real>)
    requires |truth| == |pred|
    ensures |PercentageErrors(truth, pred)| == |NonzeroPositions(truth)|
    ensures forall k :: 0 <= k < |PercentageErrors(truth, pred)| ==>
      var i := NonzeroPositions(truth)[k];
      PercentageErrors(truth, pred)[k] == RelativeError(truth[i], pred[i])
  {
    if truth != [] {
      var n := |truth| - 1;
      PercentageErrorsMasked(truth[..n], pred[..n]);
      var idx := NonzeroPositions(truth[..n]);
      forall k | 0 <= k < |idx|
        ensures truth[..n][idx[k]] == truth[idx[k]] && pred[..n][idx[k]] == pred[idx[k]]
      {
      }
    }
  }

  /** Truth `[1, 0]` against `[2, 5]`: one masked term of 100%, so MAPE is 100, not 50. */
  lemma MapeCountsMaskedOnly()
    ensures Mape([1.0, 0.0], [2.0, 5.0]) == Some(100.0)
  {
    assert [1.0, 0.0][..1] == [1.0] && [2.0, 5.0][..1] == [2.0];
    assert [1.0][..0] == [] && [2.0][..0] == [];
    assert PercentageErrors([1.0, 0.0], [2.0, 5.0]) == [1.0];
    assert [1.0][..0] == [];
    assert Mean([1.0]) == 1.0;
  }

  lemma {:induction false} PercentageErrorsFacts(truth: seq<real>, pred: seq<real>)
    requires |truth| == |pred|
    ensures forall i :: 0 <= i < |PercentageErrors(truth, pred)| ==> PercentageErrors(truth, pred)[i] >= 0.0
    ensures PercentageErrors(truth, pred) == [] <==> forall i :: 0 <= i < |truth| ==> truth[i] == 0.0
  {
    if truth != [] {
      var n := |truth| - 1;
      PercentageErrorsFacts(truth[..n], pred[..n]);
      assert forall i :: 0 <= i < n ==> truth[..n][i] == truth[i];
    }
  }

  /** MAPE is undefined exactly when every true value is zero, and otherwise non-negative. */
  lemma MapeNonnegative(truth: seq<real>, pred: seq<real>)
    requires |truth| == |pred|
    ensures Mape(truth, pred).None? <==> forall i :: 0 <= i < |truth| ==> truth[i] == 0.0
    ensures Mape(truth, pred).Some? ==> Mape(truth, pred).value >= 0.0
  {
    PercentageErrorsFacts(truth, pred);
    var e := PercentageErrors(truth, pred);
    if e != [] {
      SumNonnegative(e);
      var mean := Sum(e) / |e| as real;
      assert mean >= 0.0;
      assert Mape(truth, pred).value == mean * 100.0;
    }
  }

  /** Positions whose true value is zero are masked out: the prediction there does not matter. */
  lemma {:induction false} MapeIgnoresZeroTruth(truth: seq<real>, pred: seq<real>, pred': seq<real>)
    requires |truth| == |pred| == |pred'|
    requires forall i :: 0 <= i < |truth| && truth[i] != 0.0 ==> pred[i] == pred'[i]
    ensures PercentageErrors(truth, pred) == PercentageErrors(truth, pred')
    ensures Mape(truth, pred) == Mape(truth, pred')
  {
    if truth != [] {
      var n := |truth| - 1;
      MapeIgnoresZeroTruth(truth[..n], pred[..n], pred'[..n]);
    }
  }
}
