# meteo-forecast-visualize: the evaluation core in Dafny

This project models the non-rendering core of a pipeline that evaluates
weather-forecast models over a fixed grid of 354 × 360 points and a 7-day
horizon, and it proves properties of that model.

- **Loader** (`processor.py`). `load_model_data` reads one model's result
  table. It then:
  - strips the column labels;
  - derives the `data` timestamp from `dia_mes_ano`;
  - reshapes every ground-truth (`y_rol`) and prediction (`y_rol_pred`) sample
    to a grid-point × day matrix;
  - post-processes the table.

  Any failure yields `None`. `process_model` turns a loaded table into the
  model's metric summary.
- **Metric engine** (`metrics.py`).
  - `posprocessDataframe` cuts both matrices of every row to the first row's
    common number of days and adds per-day `mse`, `rmse` and `r2_score`
    vectors.
  - `calculate_model_metrics` averages those vectors over the rows.
  - `calculate_mape` is the masked mean absolute percentage error.
- **Report data** (`reporting.py`).
  - The transposed summary table: a header row, a fixed plan of 25 rows, and
    one cell per task.
  - The per-task cumulative series of the comparison plot.

Files:

- `wrappers.dfy`: `Option`.
- `grid.dfy`: matrices, sums and means, column truncation, and numpy's
  row-major reshape.
- `frames.dfy`: the table (`Table` as a value, `Frame` as the object updated
  in place), Python's `str.strip`, and label lookup.
- `metrics.dfy`: the metric engine; `Posprocess` and `CalculateModelMetrics`
  are the imperative versions.
- `processor.dfy`: the loader as a function `Load` and as the method
  `LoadModelData`, plus `ProcessModel`.
- `reporting.dfy`: the summary table and the cumulative series, each as a
  specification function and a method with the source's loops.

Where the code and the design description differ, the model follows the code:

- The cumulative series of non-negative values is only non-decreasing. It is
  strictly increasing when the values are positive; both facts are proved.
- One sample that fails to reshape aborts the whole load (processor.py:134-144):
  the `apply` raises and the loader returns `None`. The design drops that row
  instead.
- `min_shape` comes from the first row only and cuts every row to it
  (metrics.py:21-23). A row narrower than that makes the per-day metrics
  raise, either at the torch subtraction (metrics.py:26-29) or at `row[:, i]`
  in the R² loop (metrics.py:35-41). Within a load this cannot happen: every
  sample is a 7-day matrix after the reshape (`ReshapedIsReady`). A sample
  with a shorter horizon fails the load earlier, at the reshape. The design
  instead truncates each row to its own common horizon.
- `posprocessDataframe` never returns `None`. On an empty table it raises, and
  the exception reaches the loader's general handler. The model folds both
  into the `None` outcome of `PostProcess`.

## Model

| member | source | states |
|---|---|---|
| Grid.Reshape | processor.py:135-136 | reshaping to `rows × cols` succeeds exactly when there are `rows * cols` values, and the result flattens back to the input |
| Grid.ReshapeRowMajor | processor.py:135-136 | entry `(i, j)` of the reshaped matrix is value `i * cols + j` of the flat input |
| Grid.ReshapeFlatten | processor.py:135-136 | reshaping a matrix's own values to its own shape gives the matrix back |
| Grid.TakeColumns | metrics.py:22-23 | `row[:, :k]` keeps every row, each cut to a prefix of itself of at most `k` values |
| Grid.TakeColumnsKeepsLeading | metrics.py:22-23 | `row[:, :k]` of a matrix at least `k` wide is exactly `k` wide and keeps the leading columns unchanged |
| Grid.TakeColumnsFullWidth | metrics.py:22-23 | cutting to at least the full width changes nothing |
| Grid.MeanZeroIff | metrics.py:27 | a mean of non-negative terms is zero exactly when every term is zero |
| Grid.SquareFacts | metrics.py:27 | a square is non-negative and is zero only at zero |
| Frames.AsFloats | processor.py:135-136 | `np.array(x, dtype=float)` of a non-empty 2-D array succeeds exactly when all its rows have the same length, and then holds rows × columns values |
| Frames.Strip | processor.py:112 | `str.strip()` never lengthens a label, and leaves a label with no whitespace at either end unchanged |
| Frames.StripLabels | processor.py:112 | stripping the labels keeps their number, every column and the row count |
| Frames.Get | processor.py:115-116 | `df[name]` fails exactly when no label is `name`, and otherwise has one cell per row |
| Frames.WithColumn | processor.py:116 | `df[name] = cells` keeps the table well formed and keeps its row count |
| Frames.StripAll | processor.py:112 | `df.columns.str.strip()` strips each label in place and keeps their number and order |
| Frames.StripSlice | processor.py:112 | `str.strip()` keeps one contiguous slice of the label |
| Frames.StripRemovesSpaces | processor.py:112 | everything `strip` removes on either side is whitespace |
| Frames.StripEnds | processor.py:112 | a stripped label neither starts nor ends with whitespace |
| Frames.StripIdempotent | processor.py:112 | stripping twice is stripping once |
| Frames.StripLabelsIdempotent | processor.py:112 | stripping all column labels twice is stripping them once |
| Frames.Find | processor.py:115 | the lookup finds the first column with that label, and fails exactly when no column has it |
| Frames.GetWithColumn | processor.py:116 | after `df[name] = cells`, `df[name]` is `cells` and every other column reads as before |
| Frames.Frame.constructor | processor.py:102 | the frame holds the table that was read |
| Frames.Frame.StripColumnLabels | processor.py:112 | the frame's labels become the stripped labels; the columns are unchanged |
| Frames.Frame.SetColumn | processor.py:116 | the frame becomes the table with that column replaced or appended |
| Metrics.DailyMse | metrics.py:26-29 | the torch mean over the grid points gives one MSE per kept day (sign and zero case: `DailyMseZeroIff`) |
| Metrics.Rmse | metrics.py:32 | `np.sqrt` of the MSE vector keeps one entry per day (its value is `SampleRmseIsRootOfMse`) |
| Metrics.SquaredErrorsFacts | metrics.py:27 | every squared difference is non-negative and is zero exactly where the two values agree |
| Metrics.DailyMseZeroIff | metrics.py:26-29 | the MSE of a day is non-negative and is zero exactly when the day's truth and prediction columns are equal |
| Metrics.SampleRmseIsRootOfMse | metrics.py:32 | given a true square root, `rmse[d] >= 0`, `rmse[d]² == mse[d]`, one entry per day, and zero exactly for a perfect day |
| Metrics.R2Scores | metrics.py:35-41 | one R² per kept day, in day order, each the score of that day's two columns |
| Metrics.PostProcess | metrics.py:6-43 | a successful post-processing keeps the table well formed and keeps every row (the full effect is `PostProcessEffect`) |
| Metrics.CommonHorizon | metrics.py:21 | `min_shape` is the smaller of the first row's two day counts: at most each, and equal to one of them |
| Metrics.Truncate | metrics.py:22-23 | `apply(lambda row: row[:, :k])` keeps every sample, still a matrix with all its grid points |
| Metrics.TruncatedPairs | metrics.py:21-23 | cutting grid samples that all reach `k` days gives truth/prediction pairs of exactly `k` days |
| Metrics.PostProcessEffect | metrics.py:20-41 | post-processing fails exactly on an empty table or a row narrower than the first row's `min_shape`; otherwise both sample columns keep exactly their first `min_shape` days, `mse`/`rmse`/`r2_score` get one entry per kept day, and no other column changes |
| Metrics.Posprocess | metrics.py:6-43 | the in-place version reports failure exactly when `PostProcess` does, and otherwise leaves the frame holding its result |
| Metrics.ColumnMean | metrics.py:64-65 | `np.mean(stacked, axis=0)` has one entry per day |
| Metrics.MeanOfColumn | metrics.py:64-65 | the stacked mean of a metric column has the length of its vectors |
| Metrics.ColumnMeanOfEqualRows | metrics.py:64-65 | the column-wise mean of identical rows is that row |
| Metrics.ColumnMeanNonnegative | metrics.py:64-65 | the column-wise mean of non-negative rows is non-negative |
| Metrics.SummaryKeysOfMetricColumns | metrics.py:65 | dropping `_score` maps `mse`, `rmse` and `r2_score` to `mse`, `rmse` and `r2` |
| Metrics.SummarizeLast | metrics.py:62-65 | visiting one more column adds its key, with that column's mean, and changes no other key |
| Metrics.ModelMetrics | metrics.py:59-67 | the summary dict has no key other than `mse`, `rmse` and `r2` |
| Metrics.SummaryKeysOnly | metrics.py:62-65 | visiting `mse`, `rmse` and `r2_score` with `replace('_score', '')` yields only the keys `mse`, `rmse` and `r2` |
| Metrics.ModelMetricsKeys | metrics.py:62-65 | the summary has `mse`, `rmse` or `r2` exactly when the column `mse`, `rmse` or `r2_score` is present, and no other key |
| Metrics.ModelMetricsValues | metrics.py:62-65 | each present key holds the column-wise mean of its stacked metric column |
| Metrics.CalculateModelMetrics | metrics.py:45-67 | the dict-filling loop returns the summary, with the keys of exactly the present metric columns |
| Metrics.PercentageErrors | metrics.py:85-86 | there are never more masked errors than input values (their exact terms are `PercentageErrorsMasked`) |
| Metrics.Mape | metrics.py:85-86 | MAPE, where defined, is non-negative |
| Metrics.NonzeroPositions | metrics.py:85 | the mask `y_true != 0` selects exactly the positions of non-zero true values, each once, in increasing order |
| Metrics.PercentageErrorsMasked | metrics.py:85-86 | the masked errors are exactly one relative error `abs((t - p) / t)` per non-zero true value, in position order, so the mean divides by the number of non-zero true values |
| Metrics.MapeCountsMaskedOnly | metrics.py:85-86 | truth `[1, 0]` against prediction `[2, 5]` gives MAPE 100: the zero-truth position adds no term |
| Metrics.PercentageErrorsFacts | metrics.py:85-86 | masked percentage errors are non-negative and there are none exactly when every true value is zero |
| Metrics.MapeNonnegative | metrics.py:85-86 | MAPE is undefined (NaN) exactly when every true value is zero, and is otherwise non-negative |
| Metrics.MapeIgnoresZeroTruth | metrics.py:85-86 | predictions at positions whose true value is zero do not affect MAPE |
| Processor.Prepared | processor.py:101-122 | reading, stripping and dating give a well-formed table when they succeed |
| Processor.DeriveDate | processor.py:115-122 | deriving `data` keeps the table well formed and keeps its rows |
| Processor.NoonOf | processor.py:116 | a cell converts exactly when it is a date or timestamp, and becomes the timestamp 12 hours later |
| Processor.NoonColumn | processor.py:116 | the conversion succeeds exactly when every cell is a date, and then maps each cell to its noon |
| Processor.DeriveDateEffect | processor.py:115-122 | an existing `data` column is untouched; with neither column the table is unchanged; otherwise `data` is each `dia_mes_ano` plus 12 hours, succeeding exactly when every cell parses, with every other column unchanged |
| Processor.ReshapeCell | processor.py:135-136 | a reshaped cell is a 354·360 × 7 matrix (when it succeeds is `ReshapeCellFacts`) |
| Processor.Reshaped | processor.py:126-144 | the reshape keeps the table well formed and keeps every row (what it writes: `ReshapedEffect`) |
| Processor.ReshapedEffect | processor.py:135-136 | `y_rol` becomes the reshape of the old `y_rol` cells and `y_rol_pred` that of the old `y_rol_pred` cells; every other column reads as before |
| Processor.ReshapeColumn | processor.py:135-136 | a column reshapes exactly when every one of its cells does |
| Processor.ReshapeCellFacts | processor.py:135-136 | a cell reshapes exactly when it is a float array of 354·360·7 values; the result is a 354·360 × 7 matrix in row-major order |
| Processor.ReshapeKeepsGrid | processor.py:135-136 | a sample that already has the grid shape reshapes to itself |
| Processor.ReshapedColumnIsGrid | processor.py:135-136 | every cell of a reshaped column is a 354·360 × 7 matrix |
| Processor.ReshapedIsReady | processor.py:126-144 | after the reshape both sample columns are 7-day grid matrices, which post-processing accepts with a horizon of 7 |
| Processor.Load | processor.py:83-160 | a successful load is a well-formed table with exactly as many rows as the file: no row is dropped |
| Processor.ReshapedPostProcesses | metrics.py:20-23 | on a table whose rows all reach the common horizon, post-processing fails exactly when the table is empty |
| Processor.LoadSucceedsIff | processor.py:101-154 | the load succeeds exactly for a readable table whose date parses, that has both sample columns, every cell of which reshapes, and that has a row; one bad cell aborts the whole load |
| Processor.LoadRejectsUnreadable | processor.py:101-160 | a missing, unreadable or non-table file loads as `None` |
| Processor.LoadedShape | processor.py:134-154 | a loaded table has its rows, 7-day grid samples and 7-day `mse`/`rmse`/`r2_score` vectors |
| Processor.PostProcessedShape | processor.py:148 | post-processing 7-day grid samples keeps all 7 days |
| Processor.PostProcessKeepsSamples | metrics.py:21-23 | cutting 7-day grid samples to `min_shape` = 7 leaves both sample columns as they were |
| Processor.TruncateGrid | metrics.py:22-23 | `row[:, :7]` of every 7-day grid sample is the sample itself |
| Processor.LoadedSamples | processor.py:134-148 | a loaded table's `y_rol` and `y_rol_pred` are exactly the reshapes of the file's own `y_rol` and `y_rol_pred` cells, never swapped |
| Processor.LoadIgnoresLabelPadding | processor.py:112 | whitespace around column labels does not change the load |
| Processor.ReshapeCells | processor.py:135-136 | the row loop gives the column reshape, or `None` when any cell fails |
| Processor.AddDateColumn | processor.py:115-122 | the in-place date step fails exactly when `DeriveDate` does, and otherwise leaves its result |
| Processor.PrepareFrame | processor.py:101-122 | reading, stripping and dating give `null` exactly when that part of the load fails, and otherwise a fresh frame holding it |
| Processor.ReshapeSamples | processor.py:126-144 | the in-place reshape fails exactly when `Reshaped` does, and otherwise leaves its result |
| Processor.LoadModelData | processor.py:83-160 | the loader returns `null` exactly when `Load` is `None`, and otherwise a fresh frame holding the loaded table |
| Processor.ProcessModel | processor.py:12-81 | `None` exactly when the load fails; otherwise the loaded table's summary; rendering, whose exceptions are caught, does not affect it |
| Processor.LoadedStackable | processor.py:48 | the metric columns of a loaded table can always be stacked |
| Processor.LoadedSummary | processor.py:48 | a loaded model's summary has exactly the keys `mse`, `rmse` and `r2`, each the 7-day column mean of its metric |
| Processor.LoadedErrorsNonnegative | processor.py:148 | every per-day MSE and RMSE a successful load stores is non-negative |
| Processor.LoadedSummaryNonnegative | processor.py:48 | a loaded model's summary MSE and RMSE are non-negative for all 7 days |
| Reporting.MetricCell | reporting.py:104-115 | the only text a metric cell shows is `N/A`, and it shows a number only for a list or array of at least 7 values |
| Reporting.MetricCellMeaning | reporting.py:104-115 | a metric cell is a number exactly when its task has a list or array of at least 7 values under the key (otherwise `"N/A"`): value `k` for day `k`, the mean of the first 7 for the mean row |
| Reporting.MetricCellUsesFirstDays | reporting.py:106-109 | values after the seventh never change a cell |
| Reporting.RowPlan | reporting.py:86-95 | the plan has 25 rows |
| Reporting.PlannedRowAt | reporting.py:90-95 | row `1 + 8m + d` is day `d` (or, for `d = 7`, the mean) of metric `m` |
| Reporting.BuildRowPlan | reporting.py:86-95 | the appending loops build exactly the 25-row plan |
| Reporting.RowPlanLayout | reporting.py:86-95 | the plan has 25 rows: `Model Type`, then RMSE, R² and MSE, each with its 7 rows `Dia 1` to `Dia 7` (row `1 + 8m + d` is day `d` of metric `m`) and then its `Média` row; every day index is below 7 |
| Reporting.RowPlanBlocks | reporting.py:91-95 | row `1 + 8m + d` is the `Dia d+1` row of metric `m` for `d < 7`, and its `Média` row for `d = 7` |
| Reporting.SummaryTableOf | reporting.py:76-117 | there is no table exactly for an empty batch; otherwise the header has `1 + tasks` cells and there are 25 rows |
| Reporting.SummaryTableShape | reporting.py:76-117 | no table for an empty batch; otherwise the header is `Métrica / Dia` and each task id (or `N/A_Task`) in input order, and 25 rows of `1 + tasks` cells, each starting with its label |
| Reporting.SummaryTableCells | reporting.py:98-117 | a task's cell in a metric's day or mean row is that day's value or the mean of the first 7 values, or `N/A` |
| Reporting.SummaryTableModelTypes | reporting.py:101-102 | the model-type row shows each task's model type or `N/A` |
| Reporting.BuildSummaryTable | reporting.py:76-117 | the nested loops build exactly the summary table |
| Reporting.PrefixSums | reporting.py:31 | `np.cumsum` has one running total per value |
| Reporting.PrefixSumsSteps | reporting.py:31 | the cumulative sum starts at the first value, adds each next value, and ends at the total |
| Reporting.PrefixSumsMonotone | reporting.py:31 | cumulative sums of non-negative values never decrease; of positive values they strictly increase |
| Reporting.Qualifying | reporting.py:24-29 | every selected position is in range and its task has at least 7 values under the key |
| Reporting.Selected | reporting.py:24-35 | every line drawn has 7 running totals |
| Reporting.CumulativePlot | reporting.py:20-42 | a drawn plot has at least one line, each of 7 totals; any outcome but a raise means no task stored a value without a length |
| Reporting.LineOf | reporting.py:25-31 | a task's line has 7 running totals and, without a `task_id`, is named `Modelo_<i+1>` |
| Reporting.QualifyingInOrder | reporting.py:24-29 | every qualifying task is selected, and the selected tasks stay in input order |
| Reporting.LineOfSeries | reporting.py:25-31 | a task's line has 7 running totals ending at the sum of its first 7 values |
| Reporting.CumulativeMetric | reporting.py:20-42 | the loop with the `plot_successful` flag returns exactly the specified outcome |
| Reporting.CumulativePlotMeaning | reporting.py:23-42 | with no value lacking a length, the result is `None` exactly when no task has 7 values; otherwise one line per qualifying task, in input order |
| Reporting.CumulativePlotRaises | reporting.py:27-29 | a value without a length under the key makes the call raise |

## Left out

- File reading (`pd.read_pickle`) is the `Source` parameter: missing, unreadable, not a table, or a table.
- Date parsing (`pd.to_datetime`) is modelled as hour counts. A cell that is not a date or timestamp counts as unparseable; pandas would also read numbers as offsets from the epoch.
- `np.sqrt` and scikit-learn's `r2_score` are parameters (`Numerics`). RMSE facts assume a true square root. The R² value is not specified, only which columns it scores.
- The torch MSE is the exact mean over reals. Floating-point rounding, NaN and infinities are not modelled.
- `Metrics.Mape`: returns `None` where numpy yields NaN with a warning.
- `Metrics.Mape` and `Metrics.PercentageErrors` require truth and prediction of equal length. In the source, a mask of the wrong length makes `y_pred[mask]` raise `IndexError`; the model does not represent that raise.
- Messages printed to the console, and `os.makedirs`, are left out. `generate_visualizations` is left out: its exceptions are caught, so the result of `process_model` does not depend on it.
- The frame's contents after a failed step are not captured. The loader discards the frame on failure anyway.
- Duplicate column labels: the first column with the label is used. pandas would return every such column.
- `Reporting.TaskEntry`: a `task_id` or `model_type` stored as an explicit `None` is treated as missing, so the model shows `Modelo_<i+1>`, `N/A_Task` or `N/A`. The source's `.get` returns that `None` and shows it.
- `Reporting.CumulativePlot`: a task whose `metrics_data` is explicitly `None` is treated like one without it. The source's `.get` on `None` would raise.
- A metric value of `None` counts as absent. A list of non-numbers, or an array of higher rank, is not modelled.
- `Reporting.DisplayName`: the `key.upper()` fallback upper-cases ASCII letters only, where Python also maps other scripts; none of the three plan keys reaches it.
- `Reporting.SummaryTableOf`: cells hold the number, not its four-decimal text.
- The figure sizing, styling, colours, legends and `savefig` of reporting.py are left out. So is the file path `plot_cumulative_metric_graph` returns; the model returns the lines it would draw.
- main.py is left out: the command line, the configuration and the collection of per-task results.
- visualizer.py and visualization.py are left out: maps, animations and image files.
- `calculate_magnitude` and `add_noise` in metrics.py are left out: float helpers and random noise that the pipeline does not use.
