# Metric progression of multi-objective optimisation runs

This project models the metric-progression engine of a benchmarking tool for
multi-objective optimisers. The tool works on recorded runs: each run is the
sequence of objective vectors an optimiser produced, in evaluation order. From
these it tracks how the quality of the found front grows over a run, using two
metrics:

- **Hypervolume (HV)**, in `calculate_hv_progression`:
  - every run is cut to its first `max_samples` points;
  - the indicator is taken on the prefixes `F[:batch_size]`, `F[:2*batch_size]`, …;
  - the runs of one algorithm are aligned by position, padded with NaN;
  - a NaN-ignoring mean and standard deviation is taken at every position.
- **Inverted Generational Distance (IGD)**:
  - `calculate_igd_from_path` takes the indicator of the non-dominated part of
    `F_hist[:t + 1]` at every target `t` of `range(0, max_eval + 1, step)`;
  - `aggregate_igd_curves` aligns the runs by key: the sorted union of their
    targets, with a missing target counted as absent, never as zero;
  - `compare_igd_curves_multi` skips algorithms without data, records each
    final mean and deviation, and ranks the algorithms by final mean,
    ascending.

## How the model is built

The model is written in Dafny, one module per concern:

| module | file | contents |
|---|---|---|
| `Wrappers` | `wrappers.dfy` | `Option` and `Result` |
| `PySeq` | `pyseq.dfy` | Python's `range` and prefix slice, including negative arguments |
| `NanStats` | `nanstats.dfy` | `nanmean`/`nanstd` over the present cells of a column |
| `Pareto` | `pareto.dfy` | dominance under minimisation and the first non-dominated front |
| `Runs` | `runs.dfy` | the recorded input: algorithms and their run histories |
| `Ranking` | `ranking.dfy` | the stable sort by final mean and the numbered ranking |
| `HvProgression` | `hv_progression.dfy` | `calculate_hv_progression` |
| `IgdProgression` | `igd_progression.dfy` | the three IGD functions |

Each loop of the source is a Dafny method with a loop. Each method is proved
equal to a specification function, and the lemmas state what the source
promises about those functions:

- `HvSeries` is proved against `Series`.
- `AlignRuns` fills a two-dimensional array in place, like `hv_array`.
- `AlignedCurve` is proved against `Curve`.
- `CalculateHvProgression` is proved against `HvProgression`.
- `CalculateIgdFromPath` is proved against `IgdAtTargets`.
- `AggregateIgdCurves` is proved against `Aggregate`.
- `CompareIgdCurvesMulti` is proved against `Plotted`, `FinalSummary` and `Rank`.

Modelling choices:

- **Indicators.** The pymoo `Hypervolume` and `IGD` objects are function-valued
  parameters (`hv`, `igd`) about which nothing is assumed.
- **Input files.** Each score file is its loaded history, and an empty
  history stands for a file without data. The `algorithms` dict is a
  sequence of `Algorithm(name, runs)` in dict order.
- **NaN and standard deviation.** A NaN cell is `None`. In place of the
  standard deviation the model carries the population variance whose square
  root `nanstd` returns (ddof = 0).
- **Exceptions.** They are `Err` outcomes, in the order the source raises
  them:
  - for HV: `NoValidData`, then `ZeroBatchSize` (range() with step 0), then
    `EmptyFinalValue(algo)` (`mean_hv[-1]` of an empty array, only with
    `print_detail`);
  - for IGD: `ZeroStep` (range() with step 0, reached at the first non-empty
    history).

Behaviour that follows the code:

- **Short HV runs.** A non-empty run shorter than `batch_size` still adds an
  empty series (analysis/HV_func_eval.py:65,75). An algorithm whose non-empty
  runs are all that short therefore has `max_len = 0`, and with `print_detail`
  the call fails at `mean_hv[-1]` (line 92). `HvFailsOnShortRuns` and
  `CurvesFromFails` state exactly when this happens.
- **IGD targets past the end.** A target past the end of a run takes the whole
  history as its archive (`TargetPastEnd`).
- **The IGD `continue`.** The skip of an empty archive
  (analysis/IGD_func_eval.py:27-28) looks unreachable once the empty-history
  check has passed, and with a positive step it is (`IgdTargetsAreGrid`). With a negative
  step the targets are negative and `F_hist[:t + 1]` counts from the end, so
  an archive can be empty. `NegativeTargetSkipped` shows such an input: one
  point, `max_eval = -4`, `step = -2`.
- **The IGD target -1.** `F_hist[:t + 1]` at t = -1 is `F_hist[:0]`, which is
  empty, so that target is skipped too (`ArchiveReach`). It occurs only with
  a negative step.

## Model

| member | source | states |
|---|---|---|
| PySeq.PyPrefix | analysis/HV_func_eval.py:54 | `F[:max_samples]` is a prefix of F holding min(len(F), max_samples) points for a non-negative bound, and len(F) + stop points (at least 0) for a negative one |
| PySeq.PyRangeIndex | analysis/HV_func_eval.py:65 | with a positive step, element k of `range(start, stop, step)` is start + k·step, and it exists exactly when that value is below stop |
| PySeq.PyRangeNegativeIndex | analysis/IGD_func_eval.py:20 | with a negative step, element k of the range is start + k·step, and it exists exactly when that value is still above stop |
| PySeq.PyRangeBounded | analysis/IGD_func_eval.py:20 | with a positive step every value of the range lies in [start, stop) |
| PySeq.PyRangeIncreasing | analysis/IGD_func_eval.py:20 | with a positive step the range is strictly increasing |
| PySeq.PyRangeNegativeEmpty | analysis/HV_func_eval.py:65 | with a negative step a range whose start is not above its stop yields nothing |
| PySeq.MultiplesRange | analysis/HV_func_eval.py:65 | `range(b, n + 1, b)` for b > 0 yields exactly n div b values, the k-th being (k + 1)·b |
| PySeq.GridRange | analysis/IGD_func_eval.py:20 | t is a target of `range(0, max_eval + 1, step)` for step > 0 iff 0 ≤ t ≤ max_eval and step divides t |
| PySeq.LastGridTarget | analysis/IGD_func_eval.py:20 | for max_eval ≥ 0 the grid is non-empty and its last target is the largest multiple of step not above max_eval |
| Runs.NonEmptyRuns | analysis/HV_func_eval.py:49-52 | the files kept are exactly the non-empty ones, and there are none iff the algorithm has no data |
| Runs.NonEmptyRunsCounts | analysis/HV_func_eval.py:49-52 | each non-empty file is kept as many times as it occurs, and an empty one never |
| Runs.WithData | analysis/HV_func_eval.py:77-78 | the algorithms kept are exactly those with at least one non-empty file |
| NanStats.Present | analysis/HV_func_eval.py:86 | the values nanmean sees are exactly the non-NaN cells of the column, no more of them than cells |
| NanStats.PresentCounts | analysis/HV_func_eval.py:86 | each non-NaN value of the column is seen by nanmean as many times as it occurs there, and nothing else is |
| NanStats.Mean | analysis/HV_func_eval.py:86 | the mean of a single value is that value |
| NanStats.Variance | analysis/HV_func_eval.py:87 | the variance behind `nanstd` is never negative, and 0 for a single value |
| NanStats.MeanBounds | analysis/HV_func_eval.py:86 | the mean of the present values lies between any lower and upper bound of those values |
| NanStats.VarianceNonNegative | analysis/HV_func_eval.py:87 | the variance behind `nanstd` is never negative |
| NanStats.ConstantStatistics | analysis/HV_func_eval.py:86-87 | values that all agree have that value as mean and zero variance, so one observation gives std 0 |
| Pareto.Dominates | analysis/IGD_func_eval.py:30 | a point that dominates another differs from it |
| Pareto.DominatesIrreflexive | analysis/IGD_func_eval.py:30 | no point dominates itself, so identical points do not remove each other |
| Pareto.DominatesTransitive | analysis/IGD_func_eval.py:30 | dominance is transitive |
| Pareto.KeepNonDominated | analysis/IGD_func_eval.py:30-31 | a candidate is kept iff no archive point dominates it; each occurrence of a kept point survives, and no dominated one does |
| Pareto.NonDominatedFront | analysis/IGD_func_eval.py:30-31 | the front is a sub-multiset of the archive; it holds exactly the archive points nothing in the archive dominates, with all their copies; it is non-empty whenever the archive is |
| Pareto.ExistsNonDominated | analysis/IGD_func_eval.py:30 | every non-empty archive has a point no archive point dominates |
| Pareto.FrontIsAntichain | analysis/IGD_func_eval.py:30-31 | no member of the front dominates another member |
| Pareto.FrontIdempotent | analysis/IGD_func_eval.py:30-31 | filtering a front again returns it unchanged |
| Ranking.InsertByMean | analysis/IGD_func_eval.py:94 | inserting into a list sorted by final mean keeps it sorted and adds exactly the new entry |
| Ranking.SortByMean | analysis/IGD_func_eval.py:94 | `sorted(..., key=final mean)` is non-decreasing by final mean and a permutation of its input |
| Ranking.Rank | analysis/IGD_func_eval.py:94-96 | the ranking lists every summary exactly once (a permutation), numbered 1..k, non-decreasing by final mean |
| HvProgression.CheckpointsArePrefixes | analysis/HV_func_eval.py:65-66 | a run of n points has n div b checkpoints; checkpoint k is its first (k + 1)·b points, with 0 < (k + 1)·b ≤ n |
| HvProgression.CheckpointsGrow | analysis/HV_func_eval.py:65-66 | each checkpoint archive is a proper prefix of the next |
| HvProgression.SeriesShape | analysis/HV_func_eval.py:64-68 | the series of a run has n div b values and none iff n < b; value k is the indicator on the first (k + 1)·b points |
| HvProgression.NegativeBatchSeries | analysis/HV_func_eval.py:65 | with a negative batch size every series is empty |
| HvProgression.HvSeries | analysis/HV_func_eval.py:64-68 | the checkpoint loop fails for a zero batch size and otherwise computes the series of the run |
| HvProgression.SeriesOfEnds | analysis/HV_func_eval.py:64-68 | values taken by the indicator on `F[:end]` for each end of `range(b, len(F) + 1, b)` are exactly the series |
| HvProgression.RunSeries | analysis/HV_func_eval.py:47-75 | there is one series per non-empty file; `RunSeriesAt` gives entry k |
| HvProgression.RunSeriesAt | analysis/HV_func_eval.py:49-75 | entry k of `hv_runs` is the series of the k-th non-empty file, taken on its first `max_samples` points |
| HvProgression.RunSeriesStep | analysis/HV_func_eval.py:49-75 | one more file adds its series exactly when it is non-empty |
| HvProgression.MaxLen | analysis/HV_func_eval.py:81 | `max_len` bounds every series length and equals one of them when there is a run |
| HvProgression.MaxLenZero | analysis/HV_func_eval.py:81 | `max_len` is 0 iff every series is empty |
| HvProgression.Padded | analysis/HV_func_eval.py:82-84 | `hv_array` has one row per run, each of width `max_len` |
| HvProgression.PaddedColumn | analysis/HV_func_eval.py:82-87 | the present cells of column j are exactly the values of the runs longer than j, in run order |
| HvProgression.ValuesAtSingle | analysis/HV_func_eval.py:86-87 | a position only one run reaches holds that run's value alone |
| HvProgression.ColumnsNonEmpty | analysis/HV_func_eval.py:81-87 | no column below `max_len` is all NaN |
| HvProgression.Curve | analysis/HV_func_eval.py:81-88 | the curve has `max_len` positions; position j is labelled (j + 1)·b, and its mean and variance are taken over exactly the runs longer than j |
| HvProgression.BatchesIncreasing | analysis/HV_func_eval.py:88 | the labels are strictly increasing multiples of a positive batch size |
| HvProgression.SinglePosition | analysis/HV_func_eval.py:86-87 | a position covered by a single run has that run's value as mean and std 0 |
| HvProgression.AlignRuns | analysis/HV_func_eval.py:81-84 | the array filled in place holds each run's values followed by NaN up to `max_len` |
| HvProgression.ReadColumn | analysis/HV_func_eval.py:86-87 | reads column j of the array, row by row |
| HvProgression.AlignedCurve | analysis/HV_func_eval.py:80-88 | alignment, `nanmean`/`nanstd` along axis 0 and the labels give the curve `Curve` specifies |
| HvProgression.CurvesFrom | analysis/HV_func_eval.py:46-92 | step 2 either fails at `mean_hv[-1]` of an empty curve or gives at most one curve per algorithm |
| HvProgression.HvProgression | analysis/HV_func_eval.py:31-65 | "No valid data" is raised iff no file holds a score; range()'s zero-step error is raised iff there is data and the batch size is 0 |
| HvProgression.CurvesFromErrorPersists | analysis/HV_func_eval.py:92 | once an algorithm raises at `mean_hv[-1]`, the later algorithms do not change the outcome |
| HvProgression.CurvesFromStep | analysis/HV_func_eval.py:46-92 | one more algorithm is skipped without data, raises with only short runs under `print_detail`, and otherwise adds its curve |
| HvProgression.AllCurvesStep | analysis/HV_func_eval.py:46-92 | one algorithm of step 2 is skipped without a non-empty file, makes the whole call fail when its curve is empty under `print_detail`, and otherwise appends its curve |
| HvProgression.PoolScores | analysis/HV_func_eval.py:21-32 | the step-1 pool is empty iff no file has a score; each entry is a non-empty file cut to `max_samples` |
| HvProgression.AlgorithmSeries | analysis/HV_func_eval.py:47-75 | the inner loop gives one series per non-empty file; with batch size 0 it raises exactly when a file is non-empty |
| HvProgression.AllCurves | analysis/HV_func_eval.py:46-92 | step 2 raises for a zero batch size once there is data, and otherwise gives the curves, or the error, of the whole computation |
| HvProgression.CalculateHvProgression | analysis/HV_func_eval.py:9-92 | the imperative procedure returns the same curves or error as `HvProgression` |
| HvProgression.CurvesFromFails | analysis/HV_func_eval.py:75-92 | step 2 fails iff `print_detail` is set and some algorithm has only short runs, and the error names such an algorithm |
| HvProgression.CurvesFromCurves | analysis/HV_func_eval.py:46-88 | a successful step 2 draws one curve per algorithm with data, in dict order, each built from exactly that algorithm's non-empty files |
| HvProgression.CurvesSnoc | analysis/HV_func_eval.py:75-78 | appending an algorithm adds its curve exactly when it has a non-empty file |
| HvProgression.CurvesAppend | analysis/HV_func_eval.py:75-78 | an algorithm with data adds its own curve after those of the earlier algorithms |
| HvProgression.HvNoValidData | analysis/HV_func_eval.py:31-32 | "No valid data" is raised iff no file of any algorithm holds a score |
| HvProgression.HvFailsOnShortRuns | analysis/HV_func_eval.py:75-92 | with data and a non-zero batch size, the computation fails iff `print_detail` is set and some algorithm has only short runs |
| HvProgression.HvCurvesPerAlgorithm | analysis/HV_func_eval.py:46-88 | a successful call has a non-zero batch size; there is one curve per algorithm with a non-empty file, labelled with its name; algorithms with only empty files get none |
| HvProgression.OnlyShortRunsPositive | analysis/HV_func_eval.py:54-75 | for b > 0, an algorithm has only empty series iff it has data and every non-empty file keeps fewer than b points after truncation |
| HvProgression.OnlyShortRunsNegative | analysis/HV_func_eval.py:65 | for b < 0, every algorithm with data has only empty series |
| IgdProgression.IgdAt | analysis/IGD_func_eval.py:26-32 | the value at a target inside the run is the indicator on the non-dominated front of its first t + 1 points; at or past the end, on the front of the whole history |
| IgdProgression.ArchiveReach | analysis/IGD_func_eval.py:26-28 | `F_hist[:t + 1]` is non-empty iff the run is, t is not -1 and t is no further back than -len |
| IgdProgression.IgdAtTargets | analysis/IGD_func_eval.py:15-18 | an empty history gives `{}` |
| IgdProgression.IgdAtTargetsEntries | analysis/IGD_func_eval.py:20-32 | each key of the dict is a target of the range (so the step is non-zero) whose archive is non-empty, holding the IGD at that target |
| IgdProgression.TabulateStep | analysis/IGD_func_eval.py:25-32 | one more target adds an entry exactly when its archive is kept |
| IgdProgression.CalculateIgdFromPath | analysis/IGD_func_eval.py:11-34 | returns `{}` for an empty history and raises for step 0 only when the history is not empty; otherwise it returns the dict of IGD values at the kept targets |
| IgdProgression.IgdTargetsAreGrid | analysis/IGD_func_eval.py:17-32 | for step > 0, t is a key iff the history is non-empty, 0 ≤ t ≤ max_eval and step divides t: every grid target of a non-empty run gets a value |
| IgdProgression.TargetPastEnd | analysis/IGD_func_eval.py:25-32 | a target at or past the end of the run is kept and uses the whole history as its archive |
| IgdProgression.NegativeTargetSkipped | analysis/IGD_func_eval.py:25-28 | with a negative step the skip fires: a one-point run with max_eval -4 and step -2 keeps target 0 only |
| IgdProgression.NegativeTargets | analysis/IGD_func_eval.py:20 | `range(0, -3, -2)` is `[0, -2]` |
| IgdProgression.KeepNonEmpty | analysis/IGD_func_eval.py:43-46 | `all_curves` holds only non-empty dicts, at most one per file; `KeepNonEmptyMembers` states exactly which |
| IgdProgression.KeepNonEmptyMembers | analysis/IGD_func_eval.py:43-46 | a dict is kept iff it is the non-empty dict of some run |
| IgdProgression.KeptCurvesMembers | analysis/IGD_func_eval.py:41-46 | `all_curves` holds exactly the non-empty dicts of the runs, and each comes from a non-empty history |
| IgdProgression.CurvesOfSnoc | analysis/IGD_func_eval.py:43-46 | appending a run's dict keeps the correspondence between dicts and runs |
| IgdProgression.KeepNonEmptyAll | analysis/IGD_func_eval.py:43-46 | when a dict is empty exactly when its run is, `all_curves` holds the dicts of the non-empty runs, in file order |
| IgdProgression.KeyUnion | analysis/IGD_func_eval.py:51 | the union holds exactly the keys found in some dict |
| IgdProgression.MinExists | analysis/IGD_func_eval.py:51 | every non-empty set of targets has a least member |
| IgdProgression.SetMin | analysis/IGD_func_eval.py:51 | the minimum is a member below every other member |
| IgdProgression.SortedSet | analysis/IGD_func_eval.py:51 | `sorted(set)` holds exactly the set's members, strictly ascending, so without duplicates |
| IgdProgression.IncreasingCons | analysis/IGD_func_eval.py:51 | a value below every member of a strictly ascending sequence extends it at the front |
| IgdProgression.SortedUnique | analysis/IGD_func_eval.py:51 | two strictly ascending sequences with the same members are equal |
| IgdProgression.Row | analysis/IGD_func_eval.py:55 | every row has one cell per eval point |
| IgdProgression.Rows | analysis/IGD_func_eval.py:54-56 | `all_arrays` has one row per kept dict, each of length len(eval_points) |
| IgdProgression.RowsColumn | analysis/IGD_func_eval.py:55-61 | the present cells of column j are exactly the values of the dicts holding eval point j: a missing key is absent, not zero |
| IgdProgression.ValuesWithKeyNonEmpty | analysis/IGD_func_eval.py:55-60 | a key held by some dict has at least one value |
| IgdProgression.ValuesWithKeyMembers | analysis/IGD_func_eval.py:55-61 | the values at t come from the dicts holding t and from nowhere else |
| IgdProgression.ValuesWithKeyAll | analysis/IGD_func_eval.py:55-61 | when every dict holds t, the values at t are all of theirs, in run order |
| IgdProgression.KeyValuesNonEmpty | analysis/IGD_func_eval.py:51-61 | no column of a key of the union is all NaN |
| IgdProgression.Aggregate | analysis/IGD_func_eval.py:48-63 | without kept runs, three empty sequences; otherwise the eval points are the strictly ascending union of the keys, mean and variance have the same length, and each is taken over exactly the dicts holding that key |
| IgdProgression.CollectCurves | analysis/IGD_func_eval.py:41-46 | the collecting loop raises iff the step is 0 and some run has data, and otherwise yields `all_curves` |
| IgdProgression.BuildRows | analysis/IGD_func_eval.py:52-56 | the row loop builds `all_arrays` |
| IgdProgression.ColumnStatistics | analysis/IGD_func_eval.py:60-61 | the column loop computes, at each eval point, the mean and variance over the dicts holding that key |
| IgdProgression.AlignByKey | analysis/IGD_func_eval.py:51-63 | the key-union alignment and column statistics compute `Aggregate` |
| IgdProgression.AggregateIgdCurves | analysis/IGD_func_eval.py:37-63 | raises iff the step is 0 and some run has data, and otherwise returns the aggregate of the kept dicts |
| IgdProgression.RunKeysAreGrid | analysis/IGD_func_eval.py:20-32 | for step > 0 a non-empty run's dict has exactly the grid targets as keys, each with the IGD of its archive |
| IgdProgression.KeptCurvesOnGrid | analysis/IGD_func_eval.py:43-46 | for step > 0 and max_eval ≥ 0 no non-empty run is dropped |
| IgdProgression.SortedKeysAreGrid | analysis/IGD_func_eval.py:51 | dicts that all hold exactly the grid have the grid as their sorted key union |
| IgdProgression.KeptOnGrid | analysis/IGD_func_eval.py:43-46 | for step > 0 and max_eval ≥ 0 every kept dict holds exactly the grid, with its run's IGD at each target |
| IgdProgression.ValuesOnGrid | analysis/IGD_func_eval.py:55-61 | when every dict holds t, column t holds the values of all runs, in order |
| IgdProgression.AggregateOfGrid | analysis/IGD_func_eval.py:51-61 | dicts on a common grid aggregate to that grid; column j holds every run's value, and mean and variance are taken over all of them |
| IgdProgression.AggregateOnGrid | analysis/IGD_func_eval.py:43-61 | for step > 0 and max_eval ≥ 0 with data, the eval points are the whole grid and each column holds the IGD of every non-empty run, in file order |
| IgdProgression.GridIncreasing | analysis/IGD_func_eval.py:20 | the targets of a positive step are strictly increasing |
| IgdProgression.AggregateEmpty | analysis/IGD_func_eval.py:48-49 | for step > 0 and max_eval ≥ 0 the curve is empty iff no run has data |
| IgdProgression.AlgorithmCurvesShaped | analysis/IGD_func_eval.py:58-63 | every algorithm's curve has eval points, mean and std of equal length |
| IgdProgression.PlottedBy | analysis/IGD_func_eval.py:74-81 | only algorithms with a non-empty, well-shaped curve get a line, at most one each; `PlottedByMembers` states exactly which |
| IgdProgression.PlottedByMembers | analysis/IGD_func_eval.py:74-81 | a line is drawn iff it is the non-empty curve of some algorithm, under that algorithm's name |
| IgdProgression.Plotted | analysis/IGD_func_eval.py:74-81 | every plotted curve is non-empty, so `mean_curve[-1]` exists |
| IgdProgression.Final | analysis/IGD_func_eval.py:84-86 | the entry of a plotted curve carries its name and the mean and variance at its last eval point |
| IgdProgression.FinalSummary | analysis/IGD_func_eval.py:84-86 | `final_igd_summary` has one entry per plotted algorithm; `FinalSummaryEntries` gives entry k |
| IgdProgression.FinalSummaryEntries | analysis/IGD_func_eval.py:84-86 | entry k of `final_igd_summary` is the final entry of the k-th plotted curve, under its name |
| IgdProgression.PlottedStep | analysis/IGD_func_eval.py:74-81 | one more algorithm is plotted exactly when its curve is not empty |
| IgdProgression.FinalSummaryStep | analysis/IGD_func_eval.py:84-86 | one more plotted algorithm adds its (last mean, last variance) |
| IgdProgression.CompareIgdCurvesMulti | analysis/IGD_func_eval.py:66-96 | raises iff the step is 0 and some algorithm has data; otherwise it plots each algorithm with a curve, records (last mean, last variance) for each, and ranks them when `print_detail` is set |
| IgdProgression.CurveOf | analysis/IGD_func_eval.py:75 | the curve of one algorithm is well shaped, or range()'s error |
| IgdProgression.Record | analysis/IGD_func_eval.py:76-86 | an empty curve is skipped; any other is plotted and its final values appended to the summary |
| IgdProgression.PlotAll | analysis/IGD_func_eval.py:74-86 | the loop over the algorithms raises iff the step is 0 and some algorithm has data, and otherwise builds the plotted curves and their summary |
| IgdProgression.PlotNext | analysis/IGD_func_eval.py:74-86 | one pass of the loop raises iff the step is 0 and the algorithm has data, and otherwise extends the lines and the summary by that algorithm |
| IgdProgression.PlottedWithData | analysis/IGD_func_eval.py:74-81 | for step > 0 and max_eval ≥ 0 the plotted algorithms are exactly those with data, in dict order, each with its own curve |
| IgdProgression.SummaryOfData | analysis/IGD_func_eval.py:74-86 | for step > 0 and max_eval ≥ 0 there is one summary entry per algorithm with data, in dict order: its name and the mean and variance at the last eval point of its curve |
| IgdProgression.SummaryNames | analysis/IGD_func_eval.py:74-86 | for step > 0 and max_eval ≥ 0 entry k is labelled with the k-th algorithm with data |
| IgdProgression.SummaryNamesHaveData | analysis/IGD_func_eval.py:76-86 | for step > 0 and max_eval ≥ 0 every summary entry names an algorithm with data |
| IgdProgression.NameFromIndex | analysis/IGD_func_eval.py:86 | an entry of a summary labelled in step with a list of algorithms names one of them |
| IgdProgression.FinalAtLastTarget | analysis/IGD_func_eval.py:20-85 | for step > 0 and max_eval ≥ 0 the curve of an algorithm with data ends at the largest multiple of step not above max_eval |
| IgdProgression.FinalOverRuns | analysis/IGD_func_eval.py:20-85 | for step > 0 and max_eval ≥ 0 an algorithm with data has as final mean and variance those of the IGD values of all its non-empty runs at the last target, in file order |

## Left out

- The indicator maths. pymoo's `Hypervolume` and `IGD` are foreign,
  floating-point code, so they are uninterpreted parameters:
  - no monotonicity of HV and no sign of IGD is claimed;
  - `z_ideal`, `z_nadir` and `ref_point` are part of that configuration.
- pymoo's `NonDominatedSorting` internals. The first front is specified by
  the dominance property it has.
- The helpers in `utils`. `read_score_from_path`, `read_json`,
  `calculate_true_pareto_front` and `compare_pareto_from_algorithms` do file
  I/O and are not part of this model:
  - score files are given as their loaded histories;
  - the reference front is a parameter of the IGD functions.
- Reading the same file twice. `calculate_hv_progression` reads every file
  once in each of its two passes, and the model takes both reads to return
  the same history.
- Plotting and printing. matplotlib figure state and every `print` are
  presentation only. The printed `mean_hv[-1]` is modelled only through the
  error it raises on an empty curve.
- The HV pool contents. `np.vstack` of the step-1 pool, and the pool itself,
  serve no further purpose; only its emptiness is modelled.
- Shape errors. numpy errors from histories whose vectors differ in length
  (`np.vstack`, `np.array(..., dtype=float)`) are not modelled.
- The `np.vstack` error for a negative `max_samples`. The pool keeps the
  cut `F[:max_samples]` of every non-empty file (analysis/HV_func_eval.py:28,34).
  A negative bound can make some of those cuts empty and not others. numpy
  then raises on the mixed shapes, while the model goes on and returns the
  curves.
- The `visualize` argument. It only decides whether a figure is drawn
  (analysis/HV_func_eval.py:42-43,95), so the model has no such parameter.
- Floating point. Metric values are exact reals, NaN is `None`, and `sqrt`
  is left out: `std` is represented by the variance it is the root of.
- `analysis/analysis_run.py`. It is command-line dispatch with fixed log
  paths and is not part of this model.
- Duplicate algorithm names. The `algorithms` dict is a sequence in
  insertion order, so the model admits two entries with one name, which a
  Python dict cannot hold. Nothing is claimed about the summary of such an
  input, where Python would keep one key.
- Ranking.Rank: the relative order of algorithms with equal final means
  (Python's sort is stable) is built in by `InsertByMean` but not stated as
  a property.
- Ranking.SortByMean: stability is not stated either. The contract gives
  sortedness and the permutation only.
- IgdProgression.FinalAtLastTarget: states only where the curve ends. The
  final mean and variance at that target are stated by `FinalOverRuns`.
- HvProgression.RunSeries: its contract gives only the number of series. The
  content of each series is stated by `RunSeriesAt`.
