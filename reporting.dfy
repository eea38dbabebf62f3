/**
 * The data half of reporting.py: the transposed summary table that lists,
 * for every task, its model type and its per-day and mean RMSE, R² and MSE,
 * and the per-task cumulative series of one metric that the comparison plot
 * draws. Rendering, styling and saving are not modelled.
 */
module Reporting {

  import opened Wrappers
  import opened Grid

  /** `NUM_DAYS_METRICS`: how many leading daily values the report uses. */
  const NUM_DAYS_METRICS: nat := 7

  /** A value stored under a metric key of a task's `metrics_data`. */
  datatype MetricValue =
    | ListOrArray(values: seq<real>)    // a `list` or `np.ndarray`
    | OtherSequence(values: seq<real>)  // any other sized value, such as a tuple
    | Scalar                            // a value without a length

  /** One task of the batch; a key the dict lacks is `None`. */
  datatype TaskEntry = TaskEntry(
    taskId: Option<string>,
    modelType: Option<string>,
    metrics: Option<map<string, MetricValue>>)

  function OrElse(o: Option<string>, default: string): string
  {
    if o.Some? then o.value else default
  }

  /** The decimal digits of `n`, as `str(n)` writes them. */
  function NatToString(n: nat): (r: string)
    ensures |r| > 0
    decreases n
  {
    var d := [(('0' as int) + n % 10) as char];
    if n < 10 then d else NatToString(n / 10) + d
  }

  // ---------------------------------------------------------- table cells

  /** A cell of the summary table: text, or a number that the rendering formats with four decimals. */
  datatype TableCell = Text(s: string) | Number(x: real)

  const NOT_AVAILABLE := Text("N/A")

  /** Which value a metric row shows: one day's value, or the mean over the days. */
  datatype Aggregation = Day(k: nat) | MeanOfDays

  /** Where a row's cells come from. */
  datatype RowSource = ModelTypeRow | MetricRow(key: string, aggregation: Aggregation)

  datatype RowSpec = RowSpec(title: string, source: RowSource)

  /** A task has a `list` or array of at least 7 values under `key`, so its metric cells are filled. */
  predicate Usable(metrics: Option<map<string, MetricValue>>, key: string)
  {
    && metrics.Some? && key in metrics.value
    && metrics.value[key].ListOrArray?
    && |metrics.value[key].values| >= NUM_DAYS_METRICS
  }

  /** Lines 104-115: one metric cell of one task. */
  function MetricCell(metrics: Option<map<string, MetricValue>>, key: string, aggregation: Aggregation): (c: TableCell)
    ensures c.Text? ==> c == NOT_AVAILABLE
    ensures c.Number? ==> Usable(metrics, key)
  {
    if !Usable(metrics, key) then NOT_AVAILABLE
    else
      var daily := metrics.value[key].values[..NUM_DAYS_METRICS];
      match aggregation
      case Day(k) => if k < |daily| then Number(daily[k]) else NOT_AVAILABLE
      case MeanOfDays => Number(Mean(daily))
  }

  /** Lines 100-116: the cell of `task` in the row described by `spec`. */
  function CellFor(spec: RowSpec, task: TaskEntry): TableCell
  {
    match spec.source
    case ModelTypeRow => Text(OrElse(task.modelType, "N/A"))
    case MetricRow(key, aggregation) => MetricCell(task.metrics, key, aggregation)
  }

  /**
   * A metric cell is filled exactly when its task has a `list` or array of
   * at least 7 values under the key: a day cell then shows that day's value
   * and a mean cell the mean of the first 7 values.
   */
  lemma MetricCellMeaning(metrics: Option<map<string, MetricValue>>, key: string, aggregation: Aggregation)
    requires aggregation.Day? ==> aggregation.k < NUM_DAYS_METRICS
    ensures MetricCell(metrics, key, aggregation).Number? <==> Usable(metrics, key)
    ensures !Usable(metrics, key) ==> MetricCell(metrics, key, aggregation) == Text("N/A")
    ensures Usable(metrics, key) && aggregation.Day? ==>
      MetricCell(metrics, key, aggregation).x == metrics.value[key].values[aggregation.k]
    ensures Usable(metrics, key) && aggregation.MeanOfDays? ==>
      MetricCell(metrics, key, aggregation).x == Mean(metrics.value[key].values[..NUM_DAYS_METRICS])
  {
  }

  /** Values after the seventh never reach the table. */
  lemma MetricCellUsesFirstDays(m1: map<string, MetricValue>, m2: map<string, MetricValue>, key: string, aggregation: Aggregation)
    requires key in m1 && key in m2 && m1[key].ListOrArray? && m2[key].ListOrArray?
    requires |m1[key].values| >= NUM_DAYS_METRICS && |m2[key].values| >= NUM_DAYS_METRICS
    requires m1[key].values[..NUM_DAYS_METRICS] == m2[key].values[..NUM_DAYS_METRICS]
    ensures MetricCell(Some(m1), key, aggregation) == MetricCell(Some(m2), key, aggregation)
  {
  }

  // ------------------------------------------------------------ row plan

  const HEADER_LABEL := "M\U{E9}trica / Dia"
  const MODEL_TYPE_LABEL := "Model Type"

  /** `metric_internal_keys`, in row order. */
  const METRIC_KEYS: seq<string> := ["rmse", "r2", "mse"]

  /** `metric_display_names`, falling back to `key.upper()`. */
  function DisplayName(key: string): string
  {
    if key == "rmse" then "RMSE"
    else if key == "r2" then "R\U{B2}"
    else if key == "mse" then "MSE"
    else Upper(key)
  }

  /** `str.upper()` for ASCII text: each lower-case letter becomes its capital. */
  function Upper(s: string): (r: string)
    ensures |r| == |s|
  {
    seq(|s|, i requires 0 <= i < |s| => if 'a' <= s[i] <= 'z' then (s[i] as int - 32) as char else s[i])
  }

  /** Rows per metric: one per day and one for the mean. */
  const ROWS_PER_METRIC: nat := NUM_DAYS_METRICS + 1

  const PLAN_ROWS: nat := 1 + |METRIC_KEYS| * ROWS_PER_METRIC

  /**
   * Row `r` of the plan in closed form: the model-type row first, then for
   * each metric key in turn 7 day rows `"<Name> Dia k"` (k from 1) and a mean
   * row `"<Name> Média"`.
   */
  function PlannedRow(r: nat): RowSpec
    requires r < PLAN_ROWS
  {
    if r == 0 then RowSpec(MODEL_TYPE_LABEL, ModelTypeRow)
    else
      var key := METRIC_KEYS[(r - 1) / ROWS_PER_METRIC];
      var d := (r - 1) % ROWS_PER_METRIC;
      if d < NUM_DAYS_METRICS then RowSpec(DayLabel(key, d), MetricRow(key, Day(d)))
      else RowSpec(MeanLabel(key), MetricRow(key, MeanOfDays))
  }

  function DayLabel(key: string, d: nat): string
  {
    DisplayName(key) + " Dia " + NatToString(d + 1)
  }

  function MeanLabel(key: string): string
  {
    DisplayName(key) + " M\U{E9}dia"
  }

  function RowPlan(): (plan: seq<RowSpec>)
    ensures |plan| == PLAN_ROWS
  {
    seq(PLAN_ROWS, r requires 0 <= r < PLAN_ROWS => PlannedRow(r))
  }

  /** Lines 86-95: the row plan, built by appending in the source's loop order. */
  method BuildRowPlan() returns (plan: seq<RowSpec>)
    ensures plan == RowPlan()
    ensures |plan| == 25
  {
    plan := [RowSpec(MODEL_TYPE_LABEL, ModelTypeRow)];
    for m := 0 to |METRIC_KEYS|
      invariant plan == RowPlan()[..1 + m * ROWS_PER_METRIC]
    {
      var key := METRIC_KEYS[m];
      for d := 0 to NUM_DAYS_METRICS
        invariant plan == RowPlan()[..1 + m * ROWS_PER_METRIC + d]
      {
        PlannedRowAt(m, d);
        plan := plan + [RowSpec(DayLabel(key, d), MetricRow(key, Day(d)))];
      }
      PlannedRowAt(m, NUM_DAYS_METRICS);
      plan := plan + [RowSpec(MeanLabel(key), MetricRow(key, MeanOfDays))];
    }
  }

  /** Row `1 + 8m + d` of the plan belongs to metric `m`, at position `d` of its block. */
  lemma PlannedRowAt(m: nat, d: nat)
    requires m < |METRIC_KEYS| && d < ROWS_PER_METRIC
    ensures 1 + m * ROWS_PER_METRIC + d < PLAN_ROWS
    ensures d < NUM_DAYS_METRICS ==>
      PlannedRow(1 + m * ROWS_PER_METRIC + d) == RowSpec(DayLabel(METRIC_KEYS[m], d), MetricRow(METRIC_KEYS[m], Day(d)))
    ensures d == NUM_DAYS_METRICS ==>
      PlannedRow(1 + m * ROWS_PER_METRIC + d) == RowSpec(MeanLabel(METRIC_KEYS[m]), MetricRow(METRIC_KEYS[m], MeanOfDays))
  {
    var r := 1 + m * ROWS_PER_METRIC + d;
    assert (r - 1) / ROWS_PER_METRIC == m && (r - 1) % ROWS_PER_METRIC == d;
  }

  /**
   * The plan has 25 rows: `Model Type`, then RMSE, R² and MSE in that
   * order, each with its 7 day rows `Dia 1` to `Dia 7` and then its mean
   * row; every metric row names a day below 7.
   */
  lemma RowPlanLayout()
    ensures |RowPlan()| == 25
    ensures RowPlan()[0] == RowSpec("Model Type", ModelTypeRow)
    ensures RowPlan()[1] == RowSpec("RMSE Dia 1", MetricRow("rmse", Day(0)))
    ensures RowPlan()[8] == RowSpec("RMSE M\U{E9}dia", MetricRow("rmse", MeanOfDays))
    ensures RowPlan()[9] == RowSpec("R\U{B2} Dia 1", MetricRow("r2", Day(0)))
    ensures RowPlan()[16] == RowSpec("R\U{B2} M\U{E9}dia", MetricRow("r2", MeanOfDays))
    ensures RowPlan()[17] == RowSpec("MSE Dia 1", MetricRow("mse", Day(0)))
    ensures RowPlan()[24] == RowSpec("MSE M\U{E9}dia", MetricRow("mse", MeanOfDays))
    ensures forall r :: 1 <= r < 25 ==> RowPlan()[r].source.MetricRow?
    ensures forall r :: 1 <= r < 25 && RowPlan()[r].source.aggregation.Day? ==>
      RowPlan()[r].source.aggregation.k < NUM_DAYS_METRICS
    ensures forall m, d :: 0 <= m < 3 && 0 <= d < 8 ==>
      RowPlan()[1 + 8 * m + d] ==
        if d < 7 then RowSpec(DayLabel(METRIC_KEYS[m], d), MetricRow(METRIC_KEYS[m], Day(d)))
        else RowSpec(MeanLabel(METRIC_KEYS[m]), MetricRow(METRIC_KEYS[m], MeanOfDays))
  {
    assert NatToString(1) == "1";
    RowPlanBlocks();
  }

  /** Row `1 + 8m + d` of the plan, for every metric `m` and block position `d`. */
  lemma RowPlanBlocks()
    ensures forall m, d :: 0 <= m < 3 && 0 <= d < 8 ==>
      RowPlan()[1 + 8 * m + d] ==
        if d < 7 then RowSpec(DayLabel(METRIC_KEYS[m], d), MetricRow(METRIC_KEYS[m], Day(d)))
        else RowSpec(MeanLabel(METRIC_KEYS[m]), MetricRow(METRIC_KEYS[m], MeanOfDays))
  {
    forall m, d | 0 <= m < 3 && 0 <= d < 8
      ensures RowPlan()[1 + 8 * m + d] ==
        if d < 7 then RowSpec(DayLabel(METRIC_KEYS[m], d), MetricRow(METRIC_KEYS[m], Day(d)))
        else RowSpec(MeanLabel(METRIC_KEYS[m]), MetricRow(METRIC_KEYS[m], MeanOfDays))
    {
      PlannedRowAt(m, d);
    }
  }

  // ------------------------------------------------------- summary table

  datatype SummaryTable = SummaryTable(header: seq<string>, rows: seq<seq<TableCell>>)

  function TaskHeader(task: TaskEntry): string
  {
    OrElse(task.taskId, "N/A_Task")
  }

  function RowOf(spec: RowSpec, tasks: seq<TaskEntry>): (row: seq<TableCell>)
    ensures |row| == 1 + |tasks|
  {
    [Text(spec.title)] + seq(|tasks|, j requires 0 <= j < |tasks| => CellFor(spec, tasks[j]))
  }

  /** The table `create_metrics_summary_table` draws; `None` for an empty batch. */
  function SummaryTableOf(tasks: seq<TaskEntry>): (r: Option<SummaryTable>)
    ensures r.None? <==> tasks == []
    ensures r.Some? ==> |r.value.header| == 1 + |tasks| && |r.value.rows| == PLAN_ROWS
  {
    if tasks == [] then None
    else
      Some(SummaryTable(
        [HEADER_LABEL] + seq(|tasks|, j requires 0 <= j < |tasks| => TaskHeader(tasks[j])),
        seq(PLAN_ROWS, r requires 0 <= r < PLAN_ROWS => RowOf(RowPlan()[r], tasks))))
  }

  /** Lines 76-117: the header and the rows, built with the source's nested loops. */
  method BuildSummaryTable(tasks: seq<TaskEntry>) returns (table: Option<SummaryTable>)
    ensures table == SummaryTableOf(tasks)
  {
    if |tasks| == 0 {
      return None;
    }
    var header := [HEADER_LABEL];
    for j := 0 to |tasks|
      invariant header == [HEADER_LABEL] + seq(j, k requires 0 <= k < j => TaskHeader(tasks[k]))
    {
      header := header + [TaskHeader(tasks[j])];
    }
    var plan := BuildRowPlan();
    var rows: seq<seq<TableCell>> := [];
    for r := 0 to |plan|
      invariant rows == seq(r, k requires 0 <= k < r => RowOf(plan[k], tasks))
    {
      var row := [Text(plan[r].title)];
      for j := 0 to |tasks|
        invariant row == [Text(plan[r].title)] + seq(j, k requires 0 <= k < j => CellFor(plan[r], tasks[k]))
      {
        row := row + [CellFor(plan[r], tasks[j])];
      }
      rows := rows + [row];
    }
    return Some(SummaryTable(header, rows));
  }

  /**
   * The table exists exactly for a non-empty batch. Its header is
   * `"Métrica / Dia"` and then each task's id (or `"N/A_Task"`) in input
   * order; it has 25 rows of `1 + |tasks|` cells, each starting with its
   * row label.
   */
  lemma SummaryTableShape(tasks: seq<TaskEntry>)
    ensures SummaryTableOf(tasks).None? <==> tasks == []
    ensures SummaryTableOf(tasks).Some? ==>
      var t := SummaryTableOf(tasks).value;
      && |t.header| == 1 + |tasks| && t.header[0] == "M\U{E9}trica / Dia"
      && (forall j :: 0 <= j < |tasks| ==>
            t.header[1 + j] == if tasks[j].taskId.Some? then tasks[j].taskId.value else "N/A_Task")
      && |t.rows| == 25
      && forall r :: 0 <= r < 25 ==> |t.rows[r]| == 1 + |tasks| && t.rows[r][0] == Text(RowPlan()[r].title)
  {
  }

  /**
   * The cell of task `j` in the day-`d` row of metric `m` shows value `d`
   * of its list, and in the mean row the mean of its first 7 values, or
   * `"N/A"` when that task has no usable list.
   */
  lemma SummaryTableCells(tasks: seq<TaskEntry>, m: nat, d: nat, j: nat)
    requires tasks != [] && m < |METRIC_KEYS| && d <= NUM_DAYS_METRICS && j < |tasks|
    ensures 1 + m * ROWS_PER_METRIC + d < |SummaryTableOf(tasks).value.rows|
    ensures var cell, key := SummaryTableOf(tasks).value.rows[1 + m * ROWS_PER_METRIC + d][1 + j], METRIC_KEYS[m];
      && (!Usable(tasks[j].metrics, key) ==> cell == Text("N/A"))
      && (Usable(tasks[j].metrics, key) && d < NUM_DAYS_METRICS ==>
            cell == Number(tasks[j].metrics.value[key].values[d]))
      && (Usable(tasks[j].metrics, key) && d == NUM_DAYS_METRICS ==>
            cell == Number(Mean(tasks[j].metrics.value[key].values[..NUM_DAYS_METRICS])))
  {
    PlannedRowAt(m, d);
    var r := 1 + m * ROWS_PER_METRIC + d;
    assert SummaryTableOf(tasks).value.rows[r][1 + j] == CellFor(PlannedRow(r), tasks[j]);
  }

  /** The model-type row shows each task's model type, or `"N/A"`. */
  lemma SummaryTableModelTypes(tasks: seq<TaskEntry>, j: nat)
    requires tasks != [] && j < |tasks|
    ensures |SummaryTableOf(tasks).value.rows[0]| == 1 + |tasks|
    ensures SummaryTableOf(tasks).value.rows[0][1 + j] ==
      Text(if tasks[j].modelType.Some? then tasks[j].modelType.value else "N/A")
  {
  }

  // ------------------------------------------------------ cumulative series

  /** `np.cumsum`: entry `k` is the sum of the first `k + 1` values. */
  function PrefixSums(s: seq<real>): (r: seq<real>)
    ensures |r| == |s|
  {
    seq(|s|, k requires 0 <= k < |s| => Sum(s[..k + 1]))
  }

  /** Each running total adds the next value to the previous one, and the last is the total. */
  lemma PrefixSumsSteps(s: seq<real>)
    ensures |s| > 0 ==> PrefixSums(s)[0] == s[0]
    ensures forall k :: 0 < k < |s| ==> PrefixSums(s)[k] == PrefixSums(s)[k - 1] + s[k]
    ensures |s| > 0 ==> PrefixSums(s)[|s| - 1] == Sum(s)
  {
    if |s| > 0 {
      PrefixSumsFirst(s);
      assert s[..|s|] == s;
    }
    forall k | 0 < k < |s|
      ensures PrefixSums(s)[k] == PrefixSums(s)[k - 1] + s[k]
    {
      PrefixSumsStep(s, k);
    }
  }

  lemma PrefixSumsFirst(s: seq<real>)
    requires |s| > 0
    ensures PrefixSums(s)[0] == s[0]
  {
    assert s[..1][..0] == [];
    assert Sum(s[..1]) == Sum(s[..1][..0]) + s[..1][0];
  }

  lemma PrefixSumsStep(s: seq<real>, k: nat)
    requires 0 < k < |s|
    ensures PrefixSums(s)[k] == PrefixSums(s)[k - 1] + s[k]
  {
    assert s[..k + 1][..k] == s[..k];
  }

  /** Running totals of non-negative values never decrease; of positive values they strictly increase. */
  lemma PrefixSumsMonotone(s: seq<real>)
    ensures (forall k :: 0 <= k < |s| ==> s[k] >= 0.0) ==>
      forall i, j :: 0 <= i <= j < |s| ==> PrefixSums(s)[i] <= PrefixSums(s)[j]
    ensures (forall k :: 0 <= k < |s| ==> s[k] > 0.0) ==>
      forall i, j :: 0 <= i < j < |s| ==> PrefixSums(s)[i] < PrefixSums(s)[j]
  {
    PrefixSumsSteps(s);
    var p := PrefixSums(s);
    if forall k :: 0 <= k < |s| ==> s[k] >= 0.0 {
      forall i, j | 0 <= i <= j < |s| ensures p[i] <= p[j] {
        StepsAccumulate(p, s, i, j, false);
      }
    }
    if forall k :: 0 <= k < |s| ==> s[k] > 0.0 {
      forall i, j | 0 <= i < j < |s| ensures p[i] < p[j] {
        StepsAccumulate(p, s, i, j, true);
      }
    }
  }

  /** From `i` to `j`, totals built by adding non-negative (or positive) steps grow. */
  lemma {:induction false} StepsAccumulate(p: seq<real>, s: seq<real>, i: nat, j: nat, strict: bool)
    requires |p| == |s| && i <= j < |s|
    requires forall k :: 0 < k < |s| ==> p[k] == p[k - 1] + s[k]
    requires forall k :: 0 <= k < |s| ==> if strict then s[k] > 0.0 else s[k] >= 0.0
    ensures p[i] <= p[j]
    ensures strict && i < j ==> p[i] < p[j]
    decreases j - i
  {
    if i < j {
      StepsAccumulate(p, s, i, j - 1, strict);
    }
  }

  /** One line of the comparison plot: a task's label and its running totals over the first 7 days. */
  datatype Line = Line(name: string, cumulative: seq<real>)

  /** What `plot_cumulative_metric_graph` ends with. */
  datatype Plot =
    | Raised                  // a task stores a value without a length under the key
    | NothingToPlot           // no task qualifies: the function returns `None`
    | Lines(lines: seq<Line>) // the lines drawn, in input order

  /** `len(value)` raises for a task's value under `key`. */
  predicate Raises(task: TaskEntry, key: string)
  {
    task.metrics.Some? && key in task.metrics.value && task.metrics.value[key].Scalar?
  }

  /** Line 29: a task has at least 7 values under `key`. */
  predicate Plottable(task: TaskEntry, key: string)
  {
    && task.metrics.Some? && key in task.metrics.value
    && !task.metrics.value[key].Scalar?
    && |task.metrics.value[key].values| >= NUM_DAYS_METRICS
  }

  /** Lines 25-31: the line drawn for task number `i` (counted from 0). */
  function LineOf(task: TaskEntry, i: nat, key: string): (line: Line)
    requires Plottable(task, key)
    ensures |line.cumulative| == NUM_DAYS_METRICS
    ensures task.taskId.None? ==> line.name == "Modelo_" + NatToString(i + 1)
  {
    Line(OrElse(task.taskId, "Modelo_" + NatToString(i + 1)),
         PrefixSums(task.metrics.value[key].values[..NUM_DAYS_METRICS]))
  }

  /** The positions below `n` of the tasks that qualify, in increasing order. */
  function Qualifying(tasks: seq<TaskEntry>, key: string, n: nat): (idx: seq<nat>)
    requires n <= |tasks|
    ensures forall k :: 0 <= k < |idx| ==> idx[k] < n && Plottable(tasks[idx[k]], key)
  {
    if n == 0 then []
    else if Plottable(tasks[n - 1], key) then Qualifying(tasks, key, n - 1) + [n - 1]
    else Qualifying(tasks, key, n - 1)
  }

  /** Every qualifying task appears, once, and in input order. */
  lemma {:induction false} QualifyingInOrder(tasks: seq<TaskEntry>, key: string, n: nat)
    requires n <= |tasks|
    ensures forall i :: 0 <= i < n && Plottable(tasks[i], key) ==> i in Qualifying(tasks, key, n)
    ensures forall a, b :: 0 <= a < b < |Qualifying(tasks, key, n)| ==>
      Qualifying(tasks, key, n)[a] < Qualifying(tasks, key, n)[b]
  {
    if n > 0 {
      QualifyingInOrder(tasks, key, n - 1);
      var prev := Qualifying(tasks, key, n - 1);
      var idx := Qualifying(tasks, key, n);
      forall i | 0 <= i < n && Plottable(tasks[i], key) ensures i in idx {
        if i < n - 1 {
          assert i in prev;
        } else {
          assert idx[|idx| - 1] == i;
        }
      }
    }
  }

  /** The lines drawn for the first `n` tasks. */
  function Selected(tasks: seq<TaskEntry>, key: string, n: nat): (lines: seq<Line>)
    requires n <= |tasks|
    ensures forall k :: 0 <= k < |lines| ==> |lines[k].cumulative| == NUM_DAYS_METRICS
  {
    var idx := Qualifying(tasks, key, n);
    seq(|idx|, k requires 0 <= k < |idx| => LineOf(tasks[idx[k]], idx[k], key))
  }

  /** `plot_cumulative_metric_graph` without the drawing. */
  function CumulativePlot(tasks: seq<TaskEntry>, key: string): (p: Plot)
    ensures p.Lines? ==> p.lines != [] && forall k :: 0 <= k < |p.lines| ==> |p.lines[k].cumulative| == NUM_DAYS_METRICS
    ensures !p.Raised? ==> forall i :: 0 <= i < |tasks| ==> !Raises(tasks[i], key)
  {
    if exists i :: 0 <= i < |tasks| && Raises(tasks[i], key) then Raised
    else if Selected(tasks, key, |tasks|) == [] then NothingToPlot
    else Lines(Selected(tasks, key, |tasks|))
  }

  /** Lines 20-42: visits every task in order, keeping the lines and the `plot_successful` flag. */
  method CumulativeMetric(tasks: seq<TaskEntry>, key: string) returns (p: Plot)
    ensures p == CumulativePlot(tasks, key)
  {
    var plotSuccessful := false;
    var lines: seq<Line> := [];
    for i := 0 to |tasks|
      invariant lines == Selected(tasks, key, i)
      invariant plotSuccessful <==> lines != []
      invariant forall k :: 0 <= k < i ==> !Raises(tasks[k], key)
    {
      var task := tasks[i];
      if Raises(task, key) {
        return Raised;
      }
      if Plottable(task, key) {
        lines := lines + [LineOf(task, i, key)];
        plotSuccessful := true;
      }
      assert Selected(tasks, key, i + 1) == lines;
    }
    if !plotSuccessful {
      return NothingToPlot;
    }
    return Lines(lines);
  }

  /**
   * Without a task that makes `len` raise, the function returns `None`
   * exactly when no task qualifies, and otherwise draws one line per
   * qualifying task, each task at most once and in input order.
   */
  lemma CumulativePlotMeaning(tasks: seq<TaskEntry>, key: string)
    requires forall i :: 0 <= i < |tasks| ==> !Raises(tasks[i], key)
    ensures CumulativePlot(tasks, key).NothingToPlot? <==> forall i :: 0 <= i < |tasks| ==> !Plottable(tasks[i], key)
    ensures CumulativePlot(tasks, key).Lines? ==>
      var lines, idx := CumulativePlot(tasks, key).lines, Qualifying(tasks, key, |tasks|);
      && |lines| == |idx|
      && (forall i :: 0 <= i < |tasks| && Plottable(tasks[i], key) ==> i in idx)
      && (forall a, b :: 0 <= a < b < |idx| ==> idx[a] < idx[b])
      && forall k :: 0 <= k < |lines| ==> lines[k] == LineOf(tasks[idx[k]], idx[k], key)
  {
    var idx := Qualifying(tasks, key, |tasks|);
    QualifyingInOrder(tasks, key, |tasks|);
    if idx != [] {
      assert Plottable(tasks[idx[0]], key);
    }
  }

  /**
   * A task's line has one running total per day, starting at the first
   * value, growing by each next value and ending at the sum of the 7 values.
   */
  lemma LineOfSeries(task: TaskEntry, i: nat, key: string)
    requires Plottable(task, key)
    ensures var v, c := task.metrics.value[key].values[..NUM_DAYS_METRICS], LineOf(task, i, key).cumulative;
      && |c| == NUM_DAYS_METRICS
      && c[0] == v[0]
      && (forall k :: 0 < k < NUM_DAYS_METRICS ==> c[k] == c[k - 1] + v[k])
      && c[NUM_DAYS_METRICS - 1] == Sum(v)
  {
    PrefixSumsSteps(task.metrics.value[key].values[..NUM_DAYS_METRICS]);
  }

  /** A single task whose value has no length makes the whole call raise. */
  lemma CumulativePlotRaises(tasks: seq<TaskEntry>, key: string, i: nat)
    requires i < |tasks| && Raises(tasks[i], key)
    ensures CumulativePlot(tasks, key) == Raised
  {
  }
}
