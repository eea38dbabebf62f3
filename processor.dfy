/**
 * The loader and the per-model driver of processor.py: `load_model_data`
 * reads one model's result table, normalises its column labels, derives the
 * `data` timestamp column, reshapes every sample to the fixed grid and
 * post-processes it, reporting any failure as `None`; `process_model` turns
 * a loaded table into the metric summary.
 */
module Processor {

  import opened Wrappers
  import opened Grid
  import opened Frames
  import opened Metrics

  /** What `pd.read_pickle` can make of the file. */
  datatype Source =
    | Missing                 // FileNotFoundError
    | Unreadable              // any other error while unpickling
    | NotAFrame               // unpickles, but to an object without string column labels
    | Readable(table: Table)  // a DataFrame

  /** A DataFrame read from disk always has one label per column and columns of equal height. */
  predicate ValidSource(src: Source)
  {
    src.Readable? ==> WellFormed(src.table)
  }

  const DATE := "data"
  const DAY := "dia_mes_ano"
  /** `pd.Timedelta(hours=12)`. */
  const NOON_HOURS := 12

  // ------------------------------------------------------------ the date

  /** `pd.to_datetime(cell) + pd.Timedelta(hours=12)` for one cell; `None` where parsing raises. */
  function NoonOf(c: Cell): (r: Option<Cell>)
    ensures r.Some? <==> c.Date? || c.Timestamp?
    ensures r.Some? ==> r.value.Timestamp? && r.value.hours == c.hours + 12
  {
    match c
    case Date(h) => Some(Timestamp(h + NOON_HOURS))
    case Timestamp(h) => Some(Timestamp(h + NOON_HOURS))
    case _ => None
  }

  /** The whole column converts, or the conversion raises. */
  function NoonColumn(cells: seq<Cell>): (r: Option<seq<Cell>>)
    ensures r.Some? <==> forall i :: 0 <= i < |cells| ==> NoonOf(cells[i]).Some?
    ensures r.Some? ==> |r.value| == |cells|
    ensures r.Some? ==> forall i :: 0 <= i < |cells| ==> r.value[i] == NoonOf(cells[i]).value
  {
    if forall i :: 0 <= i < |cells| ==> NoonOf(cells[i]).Some? then
      Some(seq(|cells|, i requires 0 <= i < |cells| => NoonOf(cells[i]).value))
    else
      None
  }

  /**
   * Lines 115-122: add `data` from `dia_mes_ano` when only the latter exists;
   * when neither exists the loader just warns.
   */
  function DeriveDate(t: Table): (r: Option<Table>)
    requires WellFormed(t)
    ensures r.Some? ==> WellFormed(r.value) && r.value.height == t.height
  {
    if DATE in t.labels then Some(t)
    else if DAY !in t.labels then Some(t)
    else match NoonColumn(Get(t, DAY).value)
      case None => None
      case Some(noon) => Some(WithColumn(t, DATE, noon))
  }

  // ------------------------------------------------------------ the grid

  /** `np.array(x, dtype=float).reshape(354*360, 7)` for one cell; `None` where numpy raises. */
  function ReshapeCell(c: Cell): (r: Option<Cell>)
    ensures r.Some? ==> r.value.Mat? && IsShape(r.value.m, GRID_POINTS, HORIZON_DAYS)
  {
    match AsFloats(c)
    case None => None
    case Some(flat) =>
      match Reshape(flat, GRID_POINTS, HORIZON_DAYS)
      case None => None
      case Some(m) => Some(Mat(m))
  }

  /** `column.apply(...)` of the reshape: every cell converts, or the whole apply raises. */
  function ReshapeColumn(cells: seq<Cell>): (r: Option<seq<Cell>>)
    ensures r.Some? <==> forall i :: 0 <= i < |cells| ==> ReshapeCell(cells[i]).Some?
    ensures r.Some? ==> |r.value| == |cells|
    ensures r.Some? ==> forall i :: 0 <= i < |cells| ==> r.value[i] == ReshapeCell(cells[i]).value
  {
    if forall i :: 0 <= i < |cells| ==> ReshapeCell(cells[i]).Some? then
      Some(seq(|cells|, i requires 0 <= i < |cells| => ReshapeCell(cells[i]).value))
    else
      None
  }

  /**
   * A cell reshapes exactly when numpy can read it as floats and it holds
   * 354 * 360 * 7 of them; the result is that many grid points by 7 days,
   * filled in row-major order.
   */
  lemma ReshapeCellFacts(c: Cell)
    ensures ReshapeCell(c).Some? <==> AsFloats(c).Some? && |AsFloats(c).value| == GRID_POINTS * HORIZON_DAYS
    ensures ReshapeCell(c).Some? ==>
      var m := ReshapeCell(c).value.m;
      && ReshapeCell(c).value.Mat?
      && IsShape(m, GRID_POINTS, HORIZON_DAYS)
      && Flatten(m) == AsFloats(c).value
      && forall i, j :: 0 <= i < GRID_POINTS && 0 <= j < HORIZON_DAYS ==>
           i * HORIZON_DAYS + j < |AsFloats(c).value| && m[i][j] == AsFloats(c).value[i * HORIZON_DAYS + j]
  {
    if ReshapeCell(c).Some? {
      var flat := AsFloats(c).value;
      var m := ReshapeCell(c).value.m;
      assert Reshape(flat, GRID_POINTS, HORIZON_DAYS) == Some(m);
      forall i, j | 0 <= i < GRID_POINTS && 0 <= j < HORIZON_DAYS
        ensures i * HORIZON_DAYS + j < |flat| && m[i][j] == flat[i * HORIZON_DAYS + j]
      {
        ReshapeRowMajor(flat, GRID_POINTS, HORIZON_DAYS, i, j);
      }
    }
  }

  /**
   * The table a successful load returns: at least one row, every sample a
   * 354 * 360 by 7 grid, and `mse`, `rmse` and `r2_score` vectors of 7 days.
   */
  predicate LoadedTable(r: Table)
  {
    && WellFormed(r) && r.height > 0
    && Get(r, TRUTH).Some? && Get(r, PRED).Some?
    && Get(r, MSE).Some? && Get(r, RMSE).Some? && Get(r, R2_SCORE).Some?
    && GridColumn(Get(r, TRUTH).value, HORIZON_DAYS) && GridColumn(Get(r, PRED).value, HORIZON_DAYS)
    && DayVectors(Get(r, MSE).value, HORIZON_DAYS)
    && DayVectors(Get(r, RMSE).value, HORIZON_DAYS)
    && DayVectors(Get(r, R2_SCORE).value, HORIZON_DAYS)
  }

  /** Every cell a grid matrix (see `IsGridCell`) of exactly `days` days. */
  predicate GridColumn(cells: seq<Cell>, days: nat)
  {
    forall i :: 0 <= i < |cells| ==> IsGridCell(cells[i]) && |cells[i].m[0]| == days
  }

  /** Every cell a vector of `days` per-day values. */
  predicate DayVectors(cells: seq<Cell>, days: nat)
  {
    forall i :: 0 <= i < |cells| ==> cells[i].Vec? && |cells[i].v| == days
  }

  /** A grid matrix already in shape passes through the reshape unchanged. */
  lemma ReshapeKeepsGrid(m: Matrix)
    requires IsShape(m, GRID_POINTS, HORIZON_DAYS)
    ensures ReshapeCell(Mat(m)) == Some(Mat(m))
  {
    ReshapeFlatten(m, GRID_POINTS, HORIZON_DAYS);
  }

  // ------------------------------------------------------------ the load

  /** The table after line 112 and lines 115-122, before the reshape; `None` where that part fails. */
  function Prepared(src: Source): (r: Option<Table>)
    requires ValidSource(src)
    ensures r.Some? ==> WellFormed(r.value)
  {
    match src
    case Readable(t) => DeriveDate(StripLabels(t))
    case _ => None
  }

  /** Lines 126-144: both sample columns present and every cell of each reshaped. */
  function Reshaped(t: Table): (r: Option<Table>)
    requires WellFormed(t)
    ensures r.Some? ==> WellFormed(r.value) && r.value.height == t.height
  {
    if Get(t, TRUTH).None? || Get(t, PRED).None? then None
    else match (ReshapeColumn(Get(t, TRUTH).value), ReshapeColumn(Get(t, PRED).value))
      case (Some(truth), Some(pred)) => Some(WithColumn(WithColumn(t, TRUTH, truth), PRED, pred))
      case _ => None
  }

  /** A reshaped table is what post-processing expects: both sample columns of grid cells, 7 days each. */
  lemma ReshapedIsReady(t: Table)
    requires WellFormed(t) && Reshaped(t).Some?
    ensures ReadyForMetrics(Reshaped(t).value)
    ensures GridColumn(Get(Reshaped(t).value, TRUTH).value, HORIZON_DAYS)
    ensures GridColumn(Get(Reshaped(t).value, PRED).value, HORIZON_DAYS)
    ensures t.height > 0 ==> AllRowsReach(Reshaped(t).value, HORIZON_DAYS)
    ensures t.height > 0 ==> CommonHorizon(Reshaped(t).value) == HORIZON_DAYS
  {
    var truth := ReshapeColumn(Get(t, TRUTH).value).value;
    var pred := ReshapeColumn(Get(t, PRED).value).value;
    var t1 := WithColumn(t, TRUTH, truth);
    GetWithColumn(t, TRUTH, truth, PRED);
    GetWithColumn(t1, PRED, pred, TRUTH);
    GetWithColumn(t1, PRED, pred, PRED);
    GetWithColumn(t, TRUTH, truth, TRUTH);
    ReshapedColumnIsGrid(Get(t, TRUTH).value);
    ReshapedColumnIsGrid(Get(t, PRED).value);
  }

  /**
   * What the reshape writes: `y_rol` becomes the reshape of the old `y_rol`
   * cells, `y_rol_pred` the reshape of the old `y_rol_pred` cells, and every
   * other column reads as before.
   */
  lemma ReshapedEffect(t: Table)
    requires WellFormed(t) && Reshaped(t).Some?
    ensures Get(Reshaped(t).value, TRUTH) == ReshapeColumn(Get(t, TRUTH).value)
    ensures Get(Reshaped(t).value, PRED) == ReshapeColumn(Get(t, PRED).value)
    ensures forall other :: other != TRUTH && other != PRED ==> Get(Reshaped(t).value, other) == Get(t, other)
  {
    var truth := ReshapeColumn(Get(t, TRUTH).value).value;
    var pred := ReshapeColumn(Get(t, PRED).value).value;
    var t1 := WithColumn(t, TRUTH, truth);
    GetWithColumn(t, TRUTH, truth, TRUTH);
    GetWithColumn(t1, PRED, pred, PRED);
    GetWithColumn(t1, PRED, pred, TRUTH);
    forall other | other != TRUTH && other != PRED
      ensures Get(Reshaped(t).value, other) == Get(t, other)
    {
      GetWithColumn(t, TRUTH, truth, other);
      GetWithColumn(t1, PRED, pred, other);
    }
  }

  /** Every cell of a reshaped column is a grid-point by 7-day matrix. */
  lemma ReshapedColumnIsGrid(cells: seq<Cell>)
    requires ReshapeColumn(cells).Some?
    ensures GridColumn(ReshapeColumn(cells).value, HORIZON_DAYS)
  {
    forall i | 0 <= i < |cells|
      ensures ReshapeColumn(cells).value[i].Mat? && IsShape(ReshapeColumn(cells).value[i].m, GRID_POINTS, HORIZON_DAYS)
    {
      ReshapeCellFacts(cells[i]);
    }
  }

  /**
   * `load_model_data` as a value: `None` for a missing or unreadable file, a
   * date column that does not parse, a missing sample column, any one cell
   * that does not reshape, or a failing post-processing step; otherwise the
   * post-processed table.
   */
  function Load(src: Source, num: Numerics): (r: Option<Table>)
    requires ValidSource(src)
    ensures r.Some? ==> Prepared(src).Some? && WellFormed(r.value) && r.value.height == Prepared(src).value.height
  {
    match Prepared(src)
    case None => None
    case Some(t) =>
      match Reshaped(t)
      case None => None
      case Some(g) =>
        ReshapedIsReady(t);
        PostProcess(g, num)
  }

  /**
   * The load succeeds exactly when the file is a table whose date column (if
   * one must be derived) parses, which has both sample columns after
   * stripping, every one of whose cells reshapes, and which has at least one
   * row; one bad cell anywhere aborts the whole load.
   */
  lemma LoadSucceedsIff(src: Source, num: Numerics)
    requires ValidSource(src)
    ensures Load(src, num).Some? <==>
      && src.Readable?
      && Prepared(src).Some?
      && Get(Prepared(src).value, TRUTH).Some? && Get(Prepared(src).value, PRED).Some?
      && (forall i :: 0 <= i < src.table.height ==> ReshapeCell(Get(Prepared(src).value, TRUTH).value[i]).Some?)
      && (forall i :: 0 <= i < src.table.height ==> ReshapeCell(Get(Prepared(src).value, PRED).value[i]).Some?)
      && src.table.height > 0
  {
    if Prepared(src).Some? {
      var t := Prepared(src).value;
      assert t.height == src.table.height;
      if Reshaped(t).Some? {
        ReshapedIsReady(t);
        ReshapedPostProcesses(Reshaped(t).value, num);
      }
    }
  }

  /** Reshaped samples always reach the common horizon, so post-processing fails only on an empty table. */
  lemma ReshapedPostProcesses(g: Table, num: Numerics)
    requires ReadyForMetrics(g)
    requires g.height > 0 ==> AllRowsReach(g, CommonHorizon(g))
    ensures PostProcess(g, num).Some? <==> g.height > 0
  {
    PostProcessEffect(g, num);
  }

  /** A missing, unreadable or non-table file loads as `None`. */
  lemma LoadRejectsUnreadable(src: Source, num: Numerics)
    requires !src.Readable?
    ensures Load(src, num) == None
  {
  }

  /**
   * What a successful load returns: every sample is a 354 * 360 by 7 grid,
   * and each row carries `mse`, `rmse` and `r2_score` vectors of 7 days.
   */
  lemma LoadedShape(src: Source, num: Numerics)
    requires ValidSource(src) && Load(src, num).Some?
    ensures LoadedTable(Load(src, num).value)
    ensures Load(src, num).value.height == src.table.height
  {
    var t := Prepared(src).value;
    var g := Reshaped(t).value;
    ReshapedIsReady(t);
    PostProcessedShape(g, num);
  }

  /**
   * The samples a load returns are the file's own: loaded `y_rol` is the
   * reshape of the prepared `y_rol` cells and loaded `y_rol_pred` that of the
   * prepared `y_rol_pred` cells, since cutting 7-day samples to 7 days
   * changes nothing.
   */
  lemma LoadedSamples(src: Source, num: Numerics)
    requires ValidSource(src) && Load(src, num).Some?
    ensures var p, r := Prepared(src).value, Load(src, num).value;
      && Get(r, TRUTH) == ReshapeColumn(Get(p, TRUTH).value)
      && Get(r, PRED) == ReshapeColumn(Get(p, PRED).value)
  {
    var t := Prepared(src).value;
    var g := Reshaped(t).value;
    ReshapedIsReady(t);
    ReshapedEffect(t);
    PostProcessKeepsSamples(g, num);
  }

  /** Post-processing 7-day grid samples leaves both sample columns as they were. */
  lemma PostProcessKeepsSamples(g: Table, num: Numerics)
    requires ReadyForMetrics(g) && PostProcess(g, num).Some?
    requires GridColumn(Get(g, TRUTH).value, HORIZON_DAYS) && GridColumn(Get(g, PRED).value, HORIZON_DAYS)
    ensures Get(PostProcess(g, num).value, TRUTH) == Get(g, TRUTH)
    ensures Get(PostProcess(g, num).value, PRED) == Get(g, PRED)
  {
    PostProcessEffect(g, num);
    assert CommonHorizon(g) == HORIZON_DAYS;
    TruncateGrid(Get(g, TRUTH).value);
    TruncateGrid(Get(g, PRED).value);
  }

  /** Cutting 7-day grid samples to 7 days changes nothing. */
  lemma TruncateGrid(cells: seq<Cell>)
    requires GridColumn(cells, HORIZON_DAYS)
    ensures Truncate(cells, HORIZON_DAYS) == cells
  {
    forall i | 0 <= i < |cells| ensures Truncate(cells, HORIZON_DAYS)[i] == cells[i] {
      TakeColumnsFullWidth(cells[i].m, HORIZON_DAYS, HORIZON_DAYS);
    }
  }

  /** Post-processing a table of 7-day grid samples keeps all 7 days and gives 7-day metric vectors. */
  lemma PostProcessedShape(g: Table, num: Numerics)
    requires ReadyForMetrics(g) && PostProcess(g, num).Some?
    requires GridColumn(Get(g, TRUTH).value, HORIZON_DAYS) && GridColumn(Get(g, PRED).value, HORIZON_DAYS)
    ensures var r := PostProcess(g, num).value;
      && Get(r, TRUTH).Some? && Get(r, PRED).Some?
      && Get(r, MSE).Some? && Get(r, RMSE).Some? && Get(r, R2_SCORE).Some?
      && GridColumn(Get(r, TRUTH).value, HORIZON_DAYS) && GridColumn(Get(r, PRED).value, HORIZON_DAYS)
      && DayVectors(Get(r, MSE).value, HORIZON_DAYS)
      && DayVectors(Get(r, RMSE).value, HORIZON_DAYS)
      && DayVectors(Get(r, R2_SCORE).value, HORIZON_DAYS)
  {
    PostProcessEffect(g, num);
    assert CommonHorizon(g) == HORIZON_DAYS;
  }

  /** Labels are stripped before any lookup, so padding a label with whitespace changes nothing. */
  lemma LoadIgnoresLabelPadding(t: Table, num: Numerics)
    requires WellFormed(t)
    ensures Load(Readable(StripLabels(t)), num) == Load(Readable(t), num)
  {
    StripLabelsIdempotent(t);
    assert Prepared(Readable(StripLabels(t))) == Prepared(Readable(t));
  }

  /**
   * The `data` column: an existing one is left as it is; otherwise it is
   * derived from `dia_mes_ano` as noon of each day; with neither column the
   * table goes on unchanged.
   */
  lemma DeriveDateEffect(t: Table)
    requires WellFormed(t)
    ensures DATE in t.labels ==> DeriveDate(t) == Some(t)
    ensures DATE !in t.labels && DAY !in t.labels ==> DeriveDate(t) == Some(t)
    ensures DATE !in t.labels && DAY in t.labels ==>
      var day := Get(t, DAY).value;
      && (DeriveDate(t).Some? <==> forall i :: 0 <= i < |day| ==> NoonOf(day[i]).Some?)
      && (DeriveDate(t).Some? ==>
            && Get(DeriveDate(t).value, DATE).Some?
            && |Get(DeriveDate(t).value, DATE).value| == |day|
            && (forall i :: 0 <= i < |day| ==>
                  Get(DeriveDate(t).value, DATE).value[i] == Timestamp(day[i].hours + NOON_HOURS))
            && forall other :: other != DATE ==> Get(DeriveDate(t).value, other) == Get(t, other))
  {
    if DATE !in t.labels && DAY in t.labels {
      var day := Get(t, DAY).value;
      if DeriveDate(t).Some? {
        var noon := NoonColumn(day).value;
        forall other
          ensures Get(WithColumn(t, DATE, noon), other) == if other == DATE then Some(noon) else Get(t, other)
        {
          GetWithColumn(t, DATE, noon, other);
        }
      }
    }
  }

  // ------------------------------------------------------ the imperative load

  /** The reshape `apply` as a loop over the rows; `None` as soon as one cell raises. */
  method ReshapeCells(cells: seq<Cell>) returns (r: Option<seq<Cell>>)
    ensures r == ReshapeColumn(cells)
  {
    var out: seq<Cell> := [];
    for i := 0 to |cells|
      invariant |out| == i
      invariant forall j :: 0 <= j < i ==> ReshapeCell(cells[j]).Some? && out[j] == ReshapeCell(cells[j]).value
    {
      var c := ReshapeCell(cells[i]);
      if c.None? {
        return None;
      }
      out := out + [c.value];
    }
    assert out == ReshapeColumn(cells).value;
    return Some(out);
  }

  /** Lines 101-122: reads the table into a frame, strips its labels and adds `data` where needed. */
  method PrepareFrame(src: Source) returns (df: Frame?)
    requires ValidSource(src)
    ensures df == null <==> Prepared(src).None?
    ensures df != null ==> fresh(df) && df.Valid() && df.Value() == Prepared(src).value
  {
    if !src.Readable? {
      return null;
    }
    df := new Frame(src.table);
    df.StripColumnLabels();
    var ok := AddDateColumn(df);
    if !ok {
      return null;
    }
  }

  /** Lines 115-122: adds `data` as noon of each `dia_mes_ano` when only the latter exists. */
  method AddDateColumn(df: Frame) returns (ok: bool)
    requires df.Valid()
    modifies df
    ensures df.Valid()
    ensures ok <==> DeriveDate(old(df.Value())).Some?
    ensures ok ==> df.Value() == DeriveDate(old(df.Value())).value
  {
    if DATE !in df.labels && DAY in df.labels {
      var noon := NoonColumn(df.Column(DAY).value);
      if noon.None? {
        return false;
      }
      df.SetColumn(DATE, noon.value);
    }
    return true;
  }

  /** Lines 126-144: checks both sample columns and overwrites each with its reshaped cells. */
  method ReshapeSamples(df: Frame) returns (ok: bool)
    requires df.Valid()
    modifies df
    ensures df.Valid()
    ensures ok <==> Reshaped(old(df.Value())).Some?
    ensures ok ==> df.Value() == Reshaped(old(df.Value())).value
  {
    ghost var t := df.Value();
    if df.Column(TRUTH).None? || df.Column(PRED).None? {
      return false;
    }
    var truth := ReshapeCells(df.Column(TRUTH).value);
    if truth.None? {
      return false;
    }
    df.SetColumn(TRUTH, truth.value);
    GetWithColumn(t, TRUTH, truth.value, PRED);
    var pred := ReshapeCells(df.Column(PRED).value);
    if pred.None? {
      return false;
    }
    df.SetColumn(PRED, pred.value);
    return true;
  }

  /**
   * `load_model_data`: prepares the frame, reshapes its samples and
   * post-processes it in place, returning `null` on the first failure.
   */
  method LoadModelData(src: Source, num: Numerics) returns (df: Frame?)
    requires ValidSource(src)
    ensures df == null <==> Load(src, num).None?
    ensures df != null ==> fresh(df) && df.Valid() && df.Value() == Load(src, num).value
  {
    df := PrepareFrame(src);
    if df == null {
      return null;
    }
    ghost var t := df.Value();
    var ok := ReshapeSamples(df);
    if !ok {
      return null;
    }
    ReshapedIsReady(t);
    ok := Posprocess(df, num);
    if !ok {
      return null;
    }
  }

  // ------------------------------------------------------ the model driver

  /**
   * `process_model`: `None` when the load fails; otherwise the metric
   * summary of the loaded table. Rendering the figures sits between the two
   * steps; whatever it does, its exceptions are caught, so the result does
   * not depend on it and it is not modelled.
   */
  method ProcessModel(src: Source, num: Numerics)
    returns (r: Option<map<string, seq<real>>>)
    requires ValidSource(src)
    ensures r.None? <==> Load(src, num).None?
    ensures r.Some? ==> MetricColumnsStackable(Load(src, num).value) && r.value == ModelMetrics(Load(src, num).value)
  {
    var df := LoadModelData(src, num);
    if df == null {
      return None;
    }
    LoadedShape(src, num);
    LoadedTableStackable(df.Value());
    var metrics := CalculateModelMetrics(df);
    return Some(metrics);
  }

  /** The metric columns of a loaded table can always be stacked. */
  lemma LoadedStackable(src: Source, num: Numerics)
    requires ValidSource(src) && Load(src, num).Some?
    ensures MetricColumnsStackable(Load(src, num).value)
  {
    LoadedShape(src, num);
    LoadedTableStackable(Load(src, num).value);
  }

  lemma LoadedTableStackable(r: Table)
    requires LoadedTable(r)
    ensures MetricColumnsStackable(r)
  {
  }

  /**
   * The summary of a loaded table has exactly the keys `mse`, `rmse` and
   * `r2`, each a 7-day vector that averages the rows' vectors day by day.
   */
  lemma LoadedSummary(r: Table)
    requires LoadedTable(r)
    ensures MetricColumnsStackable(r)
    ensures var m := ModelMetrics(r);
      && m.Keys == {"mse", "rmse", "r2"}
      && m["mse"] == MeanOfColumn(Get(r, MSE).value)
      && m["rmse"] == MeanOfColumn(Get(r, RMSE).value)
      && m["r2"] == MeanOfColumn(Get(r, R2_SCORE).value)
      && |m["mse"]| == |m["rmse"]| == |m["r2"]| == HORIZON_DAYS
  {
    LoadedTableStackable(r);
    ModelMetricsKeys(r);
    ModelMetricsValues(r);
    var m := ModelMetrics(r);
    assert m.Keys == {"mse", "rmse", "r2"} by {
      assert "mse" in m && "rmse" in m && "r2" in m;
      forall key | key in m.Keys ensures key in {"mse", "rmse", "r2"} {
      }
    }
  }

  /**
   * Every per-day MSE and RMSE a successful load stores is non-negative
   * (given a square root that returns the non-negative root).
   */
  lemma LoadedErrorsNonnegative(src: Source, num: Numerics)
    requires ValidSource(src) && Load(src, num).Some? && IsSquareRoot(num.sqrt)
    ensures LoadedTable(Load(src, num).value)
    ensures var r := Load(src, num).value;
      forall i, d :: 0 <= i < r.height && 0 <= d < HORIZON_DAYS ==>
        Get(r, MSE).value[i].v[d] >= 0.0 && Get(r, RMSE).value[i].v[d] >= 0.0
  {
    LoadedShape(src, num);
    var t := Prepared(src).value;
    var g := Reshaped(t).value;
    ReshapedIsReady(t);
    PostProcessEffect(g, num);
    var r := Load(src, num).value;
    forall i, d | 0 <= i < r.height && 0 <= d < HORIZON_DAYS
      ensures Get(r, MSE).value[i].v[d] >= 0.0 && Get(r, RMSE).value[i].v[d] >= 0.0
    {
      var truth, pred := Get(r, TRUTH).value[i].m, Get(r, PRED).value[i].m;
      assert IsShape(truth, GRID_POINTS, HORIZON_DAYS) && IsShape(pred, GRID_POINTS, HORIZON_DAYS);
      assert SameShape(truth, pred);
      DailyMseZeroIff(truth, pred, d);
      SampleRmseIsRootOfMse(truth, pred, num.sqrt, d);
    }
  }

  /** The summary of a successful load has a non-negative MSE and RMSE for every day. */
  lemma LoadedSummaryNonnegative(src: Source, num: Numerics)
    requires ValidSource(src) && Load(src, num).Some? && IsSquareRoot(num.sqrt)
    ensures MetricColumnsStackable(Load(src, num).value)
    ensures var m := ModelMetrics(Load(src, num).value);
      && "mse" in m && "rmse" in m && |m["mse"]| == |m["rmse"]| == HORIZON_DAYS
      && forall d :: 0 <= d < HORIZON_DAYS ==> m["mse"][d] >= 0.0 && m["rmse"][d] >= 0.0
  {
    LoadedErrorsNonnegative(src, num);
    SummaryNonnegative(Load(src, num).value);
  }

  /** Column means of non-negative per-day errors are non-negative. */
  lemma SummaryNonnegative(r: Table)
    requires LoadedTable(r)
    requires forall i, d :: 0 <= i < r.height && 0 <= d < HORIZON_DAYS ==>
      Get(r, MSE).value[i].v[d] >= 0.0 && Get(r, RMSE).value[i].v[d] >= 0.0
    ensures MetricColumnsStackable(r)
    ensures var m := ModelMetrics(r);
      && "mse" in m && "rmse" in m && |m["mse"]| == |m["rmse"]| == HORIZON_DAYS
      && forall d :: 0 <= d < HORIZON_DAYS ==> m["mse"][d] >= 0.0 && m["rmse"][d] >= 0.0
  {
    LoadedSummary(r);
    ColumnMeanNonnegative(Stack(Get(r, MSE).value), HORIZON_DAYS);
    ColumnMeanNonnegative(Stack(Get(r, RMSE).value), HORIZON_DAYS);
  }
}
