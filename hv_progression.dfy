/** `calculate_hv_progression`: per algorithm, the hypervolume of growing
    prefixes of every run, aligned by position and summarised by mean and
    standard deviation over the runs present at each position. */
module HvProgression {
  import opened Wrappers
  import opened PySeq
  import opened NanStats
  import opened Pareto
  import opened Runs

  /** The configured pymoo `Hypervolume` object (reference point, ideal and
      nadir fixed): a value for every set of points. */
  type Indicator = seq<Point> -> real

  datatype HvError =
    | NoValidData             // ValueError: no file holds any score
    | ZeroBatchSize           // ValueError from range() with a zero step
    | EmptyFinalValue(algo: string)  // IndexError: mean_hv[-1] of an empty curve

  /** What is drawn for one algorithm: x positions `batches`, the mean curve
      and the variance whose square root is the shaded band. */
  datatype HvCurve = HvCurve(algo: string, batches: seq<int>, mean: seq<real>, variance: seq<real>)

  // ---------------------------------------------------------------------
  // One run: checkpoints over prefixes

  /** The archives `F[:end]` for `end in range(b, len(F) + 1, b)`. */
  function CheckpointSubsets(F: RunHistory, b: int): seq<RunHistory>
    requires b != 0
  {
    var ends := PyRange(b, |F| + 1, b);
    seq(|ends|, k requires 0 <= k < |ends| => PyPrefix(F, ends[k]))
  }

  /** The per-run HV series `hv_values`. */
  function Series(F: RunHistory, b: int, hv: Indicator): seq<real>
    requires b != 0
  {
    var subsets := CheckpointSubsets(F, b);
    seq(|subsets|, k requires 0 <= k < |subsets| => hv(subsets[k]))
  }

  /** A run of n points has n / b checkpoints; checkpoint k is the first
      (k + 1) * b points. */
  lemma CheckpointsArePrefixes(F: RunHistory, b: int)
    requires 0 < b
    ensures |CheckpointSubsets(F, b)| == |F| / b
    ensures forall k :: 0 <= k < |CheckpointSubsets(F, b)| ==>
      0 < (k + 1) * b == |CheckpointSubsets(F, b)[k]| <= |F| && CheckpointSubsets(F, b)[k] == F[..(k + 1) * b]
  {
    CheckpointCount(F, b);
    forall k | 0 <= k < |CheckpointSubsets(F, b)| {
      CheckpointAt(F, b, k);
    }
  }

  /** Each checkpoint archive is a proper prefix of the next. */
  lemma CheckpointsGrow(F: RunHistory, b: int)
    requires 0 < b
    ensures forall k :: 0 <= k < |CheckpointSubsets(F, b)| - 1 ==>
      CheckpointSubsets(F, b)[k] < CheckpointSubsets(F, b)[k + 1]
  {
    forall k | 0 <= k < |CheckpointSubsets(F, b)| - 1 {
      CheckpointsIncrease(F, b, k);
    }
  }

  lemma CheckpointCount(F: RunHistory, b: int)
    requires 0 < b
    ensures |CheckpointSubsets(F, b)| == |F| / b
  {
    MultiplesRange(|F|, b);
  }

  lemma CheckpointsIncrease(F: RunHistory, b: int, k: nat)
    requires 0 < b && k + 1 < |CheckpointSubsets(F, b)|
    ensures CheckpointSubsets(F, b)[k] < CheckpointSubsets(F, b)[k + 1]
  {
    CheckpointAt(F, b, k);
    CheckpointAt(F, b, k + 1);
    var x, y := (k + 1) * b, (k + 1 + 1) * b;
    assert y == x + b;
    assert F[..x] < F[..y];
  }

  lemma CheckpointAt(F: RunHistory, b: int, k: nat)
    requires 0 < b && k < |CheckpointSubsets(F, b)|
    ensures 0 < (k + 1) * b <= |F| && CheckpointSubsets(F, b)[k] == F[..(k + 1) * b]
  {
    MultiplesRange(|F|, b);
    PyRangeBounded(b, |F| + 1, b);
    var ends := PyRange(b, |F| + 1, b);
    var e := ends[k];
    assert e in ends;
    assert e == (k + 1) * b && 0 < e <= |F|;
  }

  /** The series has n / b values, none when the run is shorter than b; value
      k is the indicator on the first (k + 1) * b points. */
  lemma SeriesShape(F: RunHistory, b: int, hv: Indicator)
    requires 0 < b
    ensures |Series(F, b, hv)| == |F| / b
    ensures |Series(F, b, hv)| == 0 <==> |F| < b
    ensures forall k :: 0 <= k < |Series(F, b, hv)| ==>
      (k + 1) * b <= |F| && Series(F, b, hv)[k] == hv(F[..(k + 1) * b])
  {
    CheckpointsArePrefixes(F, b);
    if |F| < b {
      DivUnique(|F|, b, 0);
    } else {
      assert |F| == (|F| / b) * b + |F| % b;
    }
  }

  /** With a negative batch size the range is empty and so is the series. */
  lemma NegativeBatchSeries(F: RunHistory, b: int, hv: Indicator)
    requires b < 0
    ensures Series(F, b, hv) == []
  {
    PyRangeNegativeEmpty(b, |F| + 1, b);
  }

  /** The checkpoint loop `for end in range(b, len(F) + 1, b)`: range()
      raises for a zero step, otherwise one indicator value per prefix. */
  method HvSeries(F: RunHistory, b: int, hv: Indicator) returns (r: Result<seq<real>, HvError>)
    ensures b == 0 ==> r == Err(ZeroBatchSize)
    ensures b != 0 ==> r == Ok(Series(F, b, hv))
  {
    if b == 0 {
      return Err(ZeroBatchSize);
    }
    var n := |F|;
    var values: seq<real> := [];
    ghost var done: seq<int> := [];
    var end := b;
    while (b > 0 && end < n + 1) || (b < 0 && end > n + 1)
      invariant PyRange(b, n + 1, b) == done + PyRange(end, n + 1, b)
      invariant |values| == |done|
      invariant forall k :: 0 <= k < |done| ==> values[k] == hv(PyPrefix(F, done[k]))
      decreases if b > 0 then n + 1 - end else end - (n + 1)
    {
      assert PyRange(end, n + 1, b) == [end] + PyRange(end + b, n + 1, b);
      values := values + [hv(PyPrefix(F, end))];
      done := done + [end];
      end := end + b;
    }
    assert PyRange(end, n + 1, b) == [];
    SeriesOfEnds(F, b, hv, done, values);
    return Ok(values);
  }

  /** Values taken on the prefixes ending at the checkpoint ends are the
      series. */
  lemma SeriesOfEnds(F: RunHistory, b: int, hv: Indicator, ends: seq<int>, values: seq<real>)
    requires b != 0 && ends == PyRange(b, |F| + 1, b) && |values| == |ends|
    requires forall k :: 0 <= k < |ends| ==> values[k] == hv(PyPrefix(F, ends[k]))
    ensures values == Series(F, b, hv)
  {
  }

  // ---------------------------------------------------------------------
  // One algorithm: its runs, aligned by position

  /** `hv_runs`: one series per non-empty file, in file order, each on the
      file's first `max_samples` points. */
  function RunSeries(files: seq<RunHistory>, maxSamples: int, b: int, hv: Indicator): (runs: seq<seq<real>>)
    requires b != 0
    ensures |runs| == |NonEmptyRuns(files)|
  {
    if files == [] then []
    else
      var init, last := files[..|files| - 1], files[|files| - 1];
      assert files == init + [last];
      RunSeries(init, maxSamples, b, hv) + (if |last| > 0 then [Series(PyPrefix(last, maxSamples), b, hv)] else [])
  }

  /** Entry k of `hv_runs` is the series of the k-th non-empty file, on its
      first `max_samples` points. */
  lemma {:induction false} RunSeriesAt(files: seq<RunHistory>, maxSamples: int, b: int, hv: Indicator, k: nat)
    requires b != 0 && k < |RunSeries(files, maxSamples, b, hv)|
    ensures k < |NonEmptyRuns(files)|
    ensures RunSeries(files, maxSamples, b, hv)[k] == Series(PyPrefix(NonEmptyRuns(files)[k], maxSamples), b, hv)
    decreases |files|
  {
    assert files != [];
    var init, last := files[..|files| - 1], files[|files| - 1];
    var ne, neInit := NonEmptyRuns(files), NonEmptyRuns(init);
    var runs, runsInit := RunSeries(files, maxSamples, b, hv), RunSeries(init, maxSamples, b, hv);
    assert ne == neInit + (if |last| > 0 then [last] else []);
    assert runs == runsInit + (if |last| > 0 then [Series(PyPrefix(last, maxSamples), b, hv)] else []);
    if k < |runsInit| {
      RunSeriesAt(init, maxSamples, b, hv, k);
      assert runs[k] == runsInit[k] && ne[k] == neInit[k];
    } else {
      assert ne[k] == last;
    }
  }

  /** `max(len(run) for run in hv_runs)` (0 for no runs). */
  function MaxLen(runs: seq<seq<real>>): (m: nat)
    ensures forall i :: 0 <= i < |runs| ==> |runs[i]| <= m
    ensures |runs| > 0 ==> exists i :: 0 <= i < |runs| && |runs[i]| == m
  {
    if runs == [] then 0
    else
      var m := MaxLen(runs[1..]);
      if |runs[0]| >= m then |runs[0]| else m
  }

  /** `hv_array`: run i's values followed by NaN up to the common width. */
  function Padded(runs: seq<seq<real>>, width: nat): (grid: seq<seq<Option<real>>>)
    ensures |grid| == |runs|
    ensures forall i :: 0 <= i < |grid| ==> |grid[i]| == width
  {
    seq(|runs|, i requires 0 <= i < |runs| =>
      seq(width, j requires 0 <= j < width => if j < |runs[i]| then Some(runs[i][j]) else None))
  }

  /** The values at position j of the runs long enough to have one. */
  function ValuesAt(runs: seq<seq<real>>, j: nat): seq<real>
  {
    if runs == [] then []
    else (if j < |runs[0]| then [runs[0][j]] else []) + ValuesAt(runs[1..], j)
  }

  /** Column j of the padded grid holds, as present values, exactly the
      values of the runs longer than j. */
  lemma {:induction false} PaddedColumn(runs: seq<seq<real>>, width: nat, j: nat)
    requires j < width
    ensures Present(Column(Padded(runs, width), j)) == ValuesAt(runs, j)
  {
    if runs != [] {
      var col := Column(Padded(runs, width), j);
      assert col == [col[0]] + Column(Padded(runs[1..], width), j);
      PaddedColumn(runs[1..], width, j);
    }
  }

  /** Below the longest run's length some run has a value. */
  lemma {:induction false} ValuesAtNonEmpty(runs: seq<seq<real>>, i: nat, j: nat)
    requires i < |runs| && j < |runs[i]|
    ensures |ValuesAt(runs, j)| > 0
  {
    if i > 0 {
      ValuesAtNonEmpty(runs[1..], i - 1, j);
    }
  }

  /** Only run i reaches position j: the values there are its value alone. */
  lemma {:induction false} ValuesAtSingle(runs: seq<seq<real>>, i: nat, j: nat)
    requires i < |runs| && j < |runs[i]|
    requires forall k :: 0 <= k < |runs| && k != i ==> |runs[k]| <= j
    ensures ValuesAt(runs, j) == [runs[i][j]]
  {
    if i == 0 {
      ValuesAtNone(runs[1..], j);
    } else {
      ValuesAtSingle(runs[1..], i - 1, j);
    }
  }

  lemma {:induction false} ValuesAtNone(runs: seq<seq<real>>, j: nat)
    requires forall k :: 0 <= k < |runs| ==> |runs[k]| <= j
    ensures ValuesAt(runs, j) == []
  {
    if runs != [] {
      ValuesAtNone(runs[1..], j);
    }
  }

  /** Every position below the longest run's length has a value. */
  lemma ColumnsNonEmpty(runs: seq<seq<real>>)
    ensures forall j :: 0 <= j < MaxLen(runs) ==> |ValuesAt(runs, j)| > 0
  {
    if runs != [] {
      var i :| 0 <= i < |runs| && |runs[i]| == MaxLen(runs);
      forall j | 0 <= j < MaxLen(runs)
        ensures |ValuesAt(runs, j)| > 0
      {
        ValuesAtNonEmpty(runs, i, j);
      }
    }
  }

  /** The plotted curve of one algorithm: as long as its longest series,
      position j labelled (j + 1) * b, its mean and variance taken over the
      runs that reach position j and over no others. */
  function Curve(name: string, runs: seq<seq<real>>, b: int): (c: HvCurve)
    requires |runs| > 0
    ensures c.algo == name
    ensures |c.batches| == |c.mean| == |c.variance| == MaxLen(runs)
    ensures forall j :: 0 <= j < |c.batches| ==> c.batches[j] == (j + 1) * b
    ensures forall j :: 0 <= j < |c.mean| ==>
      |ValuesAt(runs, j)| > 0 && c.mean[j] == Mean(ValuesAt(runs, j)) && c.variance[j] == Variance(ValuesAt(runs, j))
  {
    var m := MaxLen(runs);
    ColumnsNonEmpty(runs);
    HvCurve(name,
      seq(m, j requires 0 <= j < m => (j + 1) * b),
      seq(m, j requires 0 <= j < m => Mean(ValuesAt(runs, j))),
      seq(m, j requires 0 <= j < m => Variance(ValuesAt(runs, j))))
  }

  /** Batch labels are strictly increasing multiples of a positive b. */
  lemma BatchesIncreasing(name: string, runs: seq<seq<real>>, b: int, i: nat, j: nat)
    requires |runs| > 0 && 0 < b
    requires i < j < |Curve(name, runs, b).batches|
    ensures Curve(name, runs, b).batches[i] < Curve(name, runs, b).batches[j]
    ensures Curve(name, runs, b).batches[i] % b == 0
  {
    var c := Curve(name, runs, b);
    assert c.batches[i] == (i + 1) * b && c.batches[j] == (j + 1) * b;
    MulMonotone(i + 1, j, b);
    assert (j + 1) * b == j * b + b;
    assert (i + 1) * b % b == 0 by {
      DivUnique((i + 1) * b, b, i + 1);
    }
  }

  /** A position only one run reaches has that run's value as mean and
      standard deviation 0. */
  lemma SinglePosition(name: string, runs: seq<seq<real>>, b: int, i: nat, j: nat)
    requires i < |runs| && j < |runs[i]|
    requires forall k :: 0 <= k < |runs| && k != i ==> |runs[k]| <= j
    ensures Curve(name, runs, b).mean[j] == runs[i][j]
    ensures Curve(name, runs, b).variance[j] == 0.0
  {
    ValuesAtSingle(runs, i, j);
    ConstantStatistics([runs[i][j]], runs[i][j]);
  }

  /** Fills `hv_array` in place: NaN everywhere, then row i starts with run i. */
  method AlignRuns(runs: seq<seq<real>>) returns (grid: array2<Option<real>>)
    ensures fresh(grid)
    ensures grid.Length0 == |runs| && grid.Length1 == MaxLen(runs)
    ensures forall i, j :: 0 <= i < grid.Length0 && 0 <= j < grid.Length1 ==>
      grid[i, j] == Padded(runs, MaxLen(runs))[i][j]
  {
    var width := MaxLen(runs);
    grid := new Option<real>[|runs|, width]((i, j) => None);
    for i := 0 to |runs|
      invariant forall r, j :: 0 <= r < i && 0 <= j < width ==> grid[r, j] == Padded(runs, width)[r][j]
      invariant forall r, j :: i <= r < |runs| && 0 <= j < width ==> grid[r, j] == None
    {
      var run := runs[i];
      for j := 0 to |run|
        invariant forall r, k :: 0 <= r < i && 0 <= k < width ==> grid[r, k] == Padded(runs, width)[r][k]
        invariant forall k :: 0 <= k < j ==> grid[i, k] == Some(run[k])
        invariant forall r, k :: i <= r < |runs| && j <= k < width ==> grid[r, k] == None
        invariant forall r, k :: i < r < |runs| && 0 <= k < width ==> grid[r, k] == None
      {
        grid[i, j] := Some(run[j]);
      }
    }
  }

  /** Column j of the filled array, read row by row. */
  method ReadColumn(grid: array2<Option<real>>, j: nat) returns (col: seq<Option<real>>)
    requires j < grid.Length1
    ensures |col| == grid.Length0 && forall i :: 0 <= i < grid.Length0 ==> col[i] == grid[i, j]
  {
    col := [];
    for i := 0 to grid.Length0
      invariant |col| == i && forall r :: 0 <= r < i ==> col[r] == grid[r, j]
    {
      col := col + [grid[i, j]];
    }
  }

  /** `np.nanmean` / `np.nanstd` along axis 0 of the filled array, and the
      labels `np.arange(1, max_len + 1) * batch_size`. */
  method AlignedCurve(name: string, runs: seq<seq<real>>, b: int) returns (c: HvCurve)
    requires |runs| > 0
    ensures c == Curve(name, runs, b)
  {
    var grid := AlignRuns(runs);
    var width := grid.Length1;
    ColumnsNonEmpty(runs);
    var mean: seq<real> := [];
    var variance: seq<real> := [];
    for j := 0 to width
      invariant forall r, k :: 0 <= r < grid.Length0 && 0 <= k < width ==> grid[r, k] == Padded(runs, width)[r][k]
      invariant |mean| == |variance| == j
      invariant forall k :: 0 <= k < j ==>
        mean[k] == Mean(ValuesAt(runs, k)) && variance[k] == Variance(ValuesAt(runs, k))
    {
      var col := ReadColumn(grid, j);
      assert col == Column(Padded(runs, width), j);
      PaddedColumn(runs, width, j);
      var present := Present(col);
      mean := mean + [Mean(present)];
      variance := variance + [Variance(present)];
    }
    var batches := seq(width, j requires 0 <= j < width => (j + 1) * b);
    c := HvCurve(name, batches, mean, variance);
  }

  // ---------------------------------------------------------------------
  // All algorithms

  /** Step 2 over the algorithms in dict order: algorithms without
      non-empty files are skipped; with `print_detail`, a curve of length 0
      makes `mean_hv[-1]` raise. */
  function CurvesFrom(algorithms: seq<Algorithm>, b: int, maxSamples: int, printDetail: bool, hv: Indicator): (r: Result<seq<HvCurve>, HvError>)
    requires b != 0
    ensures r.Err? ==> r.error.EmptyFinalValue?
    ensures r.Ok? ==> |r.value| <= |algorithms|
  {
    if algorithms == [] then Ok([])
    else
      var a := algorithms[|algorithms| - 1];
      match CurvesFrom(algorithms[..|algorithms| - 1], b, maxSamples, printDetail, hv)
      case Err(e) => Err(e)
      case Ok(curves) =>
        var runs := RunSeries(a.runs, maxSamples, b, hv);
        if |runs| == 0 then Ok(curves)
        else if printDetail && MaxLen(runs) == 0 then Err(EmptyFinalValue(a.name))
        else Ok(curves + [Curve(a.name, runs, b)])
  }

  /** The whole of `calculate_hv_progression`: the curves it draws, or the
      exception it raises. */
  function HvProgression(algorithms: seq<Algorithm>, b: int, maxSamples: int, printDetail: bool, hv: Indicator): (r: Result<seq<HvCurve>, HvError>)
    ensures r == Err(NoValidData) <==> !AnyData(algorithms)
    ensures r == Err(ZeroBatchSize) <==> AnyData(algorithms) && b == 0
  {
    if !AnyData(algorithms) then Err(NoValidData)
    else if b == 0 then Err(ZeroBatchSize)
    else CurvesFrom(algorithms, b, maxSamples, printDetail, hv)
  }

  lemma {:induction false} CurvesFromErrorPersists(algorithms: seq<Algorithm>, k: nat, b: int, maxSamples: int, printDetail: bool, hv: Indicator)
    requires b != 0 && k <= |algorithms|
    requires CurvesFrom(algorithms[..k], b, maxSamples, printDetail, hv).Err?
    ensures CurvesFrom(algorithms, b, maxSamples, printDetail, hv) == CurvesFrom(algorithms[..k], b, maxSamples, printDetail, hv)
    decreases |algorithms|
  {
    if k < |algorithms| {
      var init := algorithms[..|algorithms| - 1];
      assert init[..k] == algorithms[..k];
      CurvesFromErrorPersists(init, k, b, maxSamples, printDetail, hv);
    } else {
      assert algorithms[..k] == algorithms;
    }
  }

  lemma RunSeriesStep(files: seq<RunHistory>, f: nat, maxSamples: int, b: int, hv: Indicator)
    requires b != 0 && f < |files|
    ensures RunSeries(files[..f + 1], maxSamples, b, hv) ==
      RunSeries(files[..f], maxSamples, b, hv) + (if |files[f]| > 0 then [Series(PyPrefix(files[f], maxSamples), b, hv)] else [])
  {
    assert files[..f + 1][..f] == files[..f];
  }

  lemma CurvesFromStep(algorithms: seq<Algorithm>, a: nat, b: int, maxSamples: int, printDetail: bool, hv: Indicator, curves: seq<HvCurve>)
    requires b != 0 && a < |algorithms|
    requires CurvesFrom(algorithms[..a], b, maxSamples, printDetail, hv) == Ok(curves)
    ensures var runs := RunSeries(algorithms[a].runs, maxSamples, b, hv);
      CurvesFrom(algorithms[..a + 1], b, maxSamples, printDetail, hv) ==
        if |runs| == 0 then Ok(curves)
        else if printDetail && MaxLen(runs) == 0 then Err(EmptyFinalValue(algorithms[a].name))
        else Ok(curves + [Curve(algorithms[a].name, runs, b)])
  {
    assert algorithms[..a + 1][..a] == algorithms[..a];
  }

  /** One algorithm of the step-2 loop: skipped when it has no non-empty
      file, fatal for the whole call when its curve is empty and
      print_detail is set, appended otherwise. */
  lemma AllCurvesStep(algorithms: seq<Algorithm>, a: nat, b: int, maxSamples: int, printDetail: bool, hv: Indicator, curves: seq<HvCurve>)
    requires b != 0 && a < |algorithms|
    requires CurvesFrom(algorithms[..a], b, maxSamples, printDetail, hv) == Ok(curves)
    ensures var name, runs := algorithms[a].name, RunSeries(algorithms[a].runs, maxSamples, b, hv);
      if |runs| == 0 then CurvesFrom(algorithms[..a + 1], b, maxSamples, printDetail, hv) == Ok(curves)
      else if printDetail && |Curve(name, runs, b).mean| == 0 then
        CurvesFrom(algorithms, b, maxSamples, printDetail, hv) == Err(EmptyFinalValue(name))
      else CurvesFrom(algorithms[..a + 1], b, maxSamples, printDetail, hv) == Ok(curves + [Curve(name, runs, b)])
  {
    CurvesFromStep(algorithms, a, b, maxSamples, printDetail, hv, curves);
    var runs := RunSeries(algorithms[a].runs, maxSamples, b, hv);
    if |runs| > 0 && printDetail && |Curve(algorithms[a].name, runs, b).mean| == 0 {
      CurvesFromErrorPersists(algorithms, a + 1, b, maxSamples, printDetail, hv);
    }
  }

  /** Step 1: the truncated non-empty files of every algorithm; it is empty
      exactly when no file holds any score. */
  method PoolScores(algorithms: seq<Algorithm>, maxSamples: int) returns (pool: seq<RunHistory>)
    ensures |pool| == 0 <==> !AnyData(algorithms)
    ensures forall p :: p in pool ==> exists a, F :: a in algorithms && F in a.runs && |F| > 0 && p == PyPrefix(F, maxSamples)
  {
    pool := [];
    for a := 0 to |algorithms|
      invariant (|pool| == 0) == !AnyData(algorithms[..a])
      invariant forall p :: p in pool ==> exists a, F :: a in algorithms && F in a.runs && |F| > 0 && p == PyPrefix(F, maxSamples)
    {
      var files := algorithms[a].runs;
      for f := 0 to |files|
        invariant (|pool| == 0) == !(AnyData(algorithms[..a]) || HasData(files[..f]))
        invariant forall p :: p in pool ==> exists a, F :: a in algorithms && F in a.runs && |F| > 0 && p == PyPrefix(F, maxSamples)
      {
        var F := files[f];
        if |F| == 0 {
          continue;
        }
        assert algorithms[a] in algorithms && F in algorithms[a].runs;
        pool := pool + [PyPrefix(F, maxSamples)];
      }
      assert files[..|files|] == files;
      assert algorithms[..a + 1] == algorithms[..a] + [algorithms[a]];
    }
    assert algorithms[..|algorithms|] == algorithms;
  }

  /** The inner loop of step 2 for one algorithm: the series of each
      non-empty file, or range()'s error at the first one when b is 0. */
  method AlgorithmSeries(files: seq<RunHistory>, maxSamples: int, b: int, hv: Indicator) returns (r: Result<seq<seq<real>>, HvError>)
    ensures b != 0 ==> r == Ok(RunSeries(files, maxSamples, b, hv))
    ensures b == 0 ==> r == if HasData(files) then Err(ZeroBatchSize) else Ok([])
  {
    var hvRuns: seq<seq<real>> := [];
    for f := 0 to |files|
      invariant b != 0 ==> hvRuns == RunSeries(files[..f], maxSamples, b, hv)
      invariant b == 0 ==> !HasData(files[..f]) && hvRuns == []
    {
      var F := files[f];
      assert files[..f + 1] == files[..f] + [F];
      if b != 0 {
        RunSeriesStep(files, f, maxSamples, b, hv);
      }
      if |F| == 0 {
        continue;
      }
      var values := HvSeries(PyPrefix(F, maxSamples), b, hv);
      if values.Err? {
        assert F in files;
        return Err(ZeroBatchSize);
      }
      hvRuns := hvRuns + [values.value];
    }
    assert files[..|files|] == files;
    return Ok(hvRuns);
  }

  /** Step 2 of `calculate_hv_progression`, run once step 1 found data. */
  method AllCurves(algorithms: seq<Algorithm>, b: int, maxSamples: int, printDetail: bool, hv: Indicator)
    returns (r: Result<seq<HvCurve>, HvError>)
    requires AnyData(algorithms)
    ensures b == 0 ==> r == Err(ZeroBatchSize)
    ensures b != 0 ==> r == CurvesFrom(algorithms, b, maxSamples, printDetail, hv)
  {
    var curves: seq<HvCurve> := [];
    for a := 0 to |algorithms|
      invariant b != 0 ==> CurvesFrom(algorithms[..a], b, maxSamples, printDetail, hv) == Ok(curves)
      invariant b == 0 ==> !AnyData(algorithms[..a])
    {
      var name, files := algorithms[a].name, algorithms[a].runs;
      assert algorithms[..a + 1] == algorithms[..a] + [algorithms[a]];
      if b != 0 {
        AllCurvesStep(algorithms, a, b, maxSamples, printDetail, hv, curves);
      }
      var hvRuns := AlgorithmSeries(files, maxSamples, b, hv);
      if hvRuns.Err? {
        return Err(ZeroBatchSize);
      }
      if |hvRuns.value| == 0 {
        continue;
      }
      var c := AlignedCurve(name, hvRuns.value, b);
      if printDetail && |c.mean| == 0 {
        return Err(EmptyFinalValue(name));
      }
      curves := curves + [c];
    }
    assert algorithms[..|algorithms|] == algorithms;
    return Ok(curves);
  }

  /** The imperative `calculate_hv_progression`: step 1 pools the truncated
      non-empty files and raises if there are none; step 2 builds, per
      algorithm, the series of each non-empty file and aligns them. */
  method CalculateHvProgression(algorithms: seq<Algorithm>, batchSize: int, maxSamples: int, printDetail: bool, hv: Indicator)
    returns (r: Result<seq<HvCurve>, HvError>)
    ensures r == HvProgression(algorithms, batchSize, maxSamples, printDetail, hv)
  {
    var pool := PoolScores(algorithms, maxSamples);
    if |pool| == 0 {
      return Err(NoValidData);
    }
    r := AllCurves(algorithms, batchSize, maxSamples, printDetail, hv);
  }

  // ---------------------------------------------------------------------
  // What the whole computation promises

  /** Every non-empty file of the algorithm is shorter than one batch:
      it has series, but all of them are empty. */
  predicate OnlyShortRuns(a: Algorithm, maxSamples: int, b: int, hv: Indicator)
    requires b != 0
  {
    var runs := RunSeries(a.runs, maxSamples, b, hv);
    |runs| > 0 && MaxLen(runs) == 0
  }

  /** Step 2 fails only with `print_detail` and only because some algorithm
      with data has nothing but short runs; the error names one of them. */
  lemma {:induction false} CurvesFromFails(algorithms: seq<Algorithm>, b: int, maxSamples: int, printDetail: bool, hv: Indicator)
    requires b != 0
    ensures CurvesFrom(algorithms, b, maxSamples, printDetail, hv).Err? <==>
      printDetail && exists a :: a in algorithms && OnlyShortRuns(a, maxSamples, b, hv)
    ensures CurvesFrom(algorithms, b, maxSamples, printDetail, hv).Err? ==>
      exists a :: a in algorithms && OnlyShortRuns(a, maxSamples, b, hv) &&
        CurvesFrom(algorithms, b, maxSamples, printDetail, hv).error == EmptyFinalValue(a.name)
  {
    if algorithms != [] {
      var init, last := algorithms[..|algorithms| - 1], algorithms[|algorithms| - 1];
      assert algorithms == init + [last];
      assert forall a :: a in algorithms <==> a in init || a == last;
      CurvesFromFails(init, b, maxSamples, printDetail, hv);
      var before := CurvesFrom(init, b, maxSamples, printDetail, hv);
      var runs := RunSeries(last.runs, maxSamples, b, hv);
      if before.Err? {
        assert CurvesFrom(algorithms, b, maxSamples, printDetail, hv) == before;
      } else if |runs| == 0 {
        assert CurvesFrom(algorithms, b, maxSamples, printDetail, hv) == before;
        assert !OnlyShortRuns(last, maxSamples, b, hv);
      } else if printDetail && MaxLen(runs) == 0 {
        assert CurvesFrom(algorithms, b, maxSamples, printDetail, hv) == Err(EmptyFinalValue(last.name));
        assert OnlyShortRuns(last, maxSamples, b, hv);
      } else {
        assert CurvesFrom(algorithms, b, maxSamples, printDetail, hv).Ok?;
        assert !(printDetail && OnlyShortRuns(last, maxSamples, b, hv));
      }
    }
  }

  /** When step 2 succeeds there is one curve per algorithm with data, in
      dict order, built from exactly that algorithm's non-empty files. */
  lemma {:induction false} CurvesFromCurves(algorithms: seq<Algorithm>, b: int, maxSamples: int, printDetail: bool, hv: Indicator)
    requires b != 0
    requires CurvesFrom(algorithms, b, maxSamples, printDetail, hv).Ok?
    ensures var curves := CurvesFrom(algorithms, b, maxSamples, printDetail, hv).value;
      var kept := WithData(algorithms);
      |curves| == |kept| &&
      forall k :: 0 <= k < |kept| ==> curves[k] == Curve(kept[k].name, RunSeries(kept[k].runs, maxSamples, b, hv), b)
  {
    if algorithms != [] {
      var n := |algorithms| - 1;
      var init, last := algorithms[..n], algorithms[n];
      var before := CurvesFrom(init, b, maxSamples, printDetail, hv);
      assert before.Ok?;
      CurvesFromCurves(init, b, maxSamples, printDetail, hv);
      assert WithData(algorithms) == WithData(init) + (if HasData(last.runs) then [last] else []);
      CurvesSnoc(WithData(init), before.value, last, maxSamples, b, hv);
    }
  }

  /** One more algorithm adds its curve exactly when it has data. */
  lemma CurvesSnoc(kept: seq<Algorithm>, curves: seq<HvCurve>, last: Algorithm, maxSamples: int, b: int, hv: Indicator)
    requires b != 0
    requires |curves| == |kept|
    requires forall k :: 0 <= k < |kept| ==>
      |RunSeries(kept[k].runs, maxSamples, b, hv)| > 0 &&
      curves[k] == Curve(kept[k].name, RunSeries(kept[k].runs, maxSamples, b, hv), b)
    ensures var runs := RunSeries(last.runs, maxSamples, b, hv);
      var kept', curves' := kept + (if HasData(last.runs) then [last] else []),
        curves + (if |runs| > 0 then [Curve(last.name, runs, b)] else []);
      |curves'| == |kept'| &&
      forall k :: 0 <= k < |kept'| ==>
        |RunSeries(kept'[k].runs, maxSamples, b, hv)| > 0 &&
        curves'[k] == Curve(kept'[k].name, RunSeries(kept'[k].runs, maxSamples, b, hv), b)
  {
    var runs := RunSeries(last.runs, maxSamples, b, hv);
    assert |runs| > 0 <==> HasData(last.runs) by {
      assert |runs| == |NonEmptyRuns(last.runs)|;
    }
    if HasData(last.runs) {
      CurvesAppend(kept, curves, last, maxSamples, b, hv);
    } else {
      assert kept + [] == kept && curves + [] == curves;
    }
  }

  /** An algorithm with data adds its own curve after the others. */
  lemma CurvesAppend(kept: seq<Algorithm>, curves: seq<HvCurve>, last: Algorithm, maxSamples: int, b: int, hv: Indicator)
    requires b != 0
    requires |curves| == |kept| && |RunSeries(last.runs, maxSamples, b, hv)| > 0
    requires forall k :: 0 <= k < |kept| ==>
      |RunSeries(kept[k].runs, maxSamples, b, hv)| > 0 &&
      curves[k] == Curve(kept[k].name, RunSeries(kept[k].runs, maxSamples, b, hv), b)
    ensures var kept', curves' := kept + [last], curves + [Curve(last.name, RunSeries(last.runs, maxSamples, b, hv), b)];
      forall k :: 0 <= k < |kept'| ==>
        |RunSeries(kept'[k].runs, maxSamples, b, hv)| > 0 &&
        curves'[k] == Curve(kept'[k].name, RunSeries(kept'[k].runs, maxSamples, b, hv), b)
  {
    var kept', curves' := kept + [last], curves + [Curve(last.name, RunSeries(last.runs, maxSamples, b, hv), b)];
    forall k | 0 <= k < |kept'|
      ensures |RunSeries(kept'[k].runs, maxSamples, b, hv)| > 0 &&
        curves'[k] == Curve(kept'[k].name, RunSeries(kept'[k].runs, maxSamples, b, hv), b)
    {
      if k < |kept| {
        assert kept'[k] == kept[k] && curves'[k] == curves[k];
      }
    }
  }

  /** `ValueError("No valid data found in any file.")` is raised exactly when
      no file of any algorithm holds a score. */
  lemma HvNoValidData(algorithms: seq<Algorithm>, b: int, maxSamples: int, printDetail: bool, hv: Indicator)
    ensures HvProgression(algorithms, b, maxSamples, printDetail, hv) == Err(NoValidData) <==> !AnyData(algorithms)
  {
    if AnyData(algorithms) && b != 0 {
      CurvesFromFails(algorithms, b, maxSamples, printDetail, hv);
    }
  }

  /** With data and a non-zero batch size the computation fails exactly when
      `print_detail` is set and some algorithm has only short runs. */
  lemma HvFailsOnShortRuns(algorithms: seq<Algorithm>, b: int, maxSamples: int, printDetail: bool, hv: Indicator)
    requires AnyData(algorithms) && b != 0
    ensures HvProgression(algorithms, b, maxSamples, printDetail, hv).Err? <==>
      printDetail && exists a :: a in algorithms && OnlyShortRuns(a, maxSamples, b, hv)
  {
    CurvesFromFails(algorithms, b, maxSamples, printDetail, hv);
  }

  /** A successful run draws one curve per algorithm with a non-empty file;
      an algorithm whose every file is empty gets none. */
  lemma HvCurvesPerAlgorithm(algorithms: seq<Algorithm>, b: int, maxSamples: int, printDetail: bool, hv: Indicator)
    requires HvProgression(algorithms, b, maxSamples, printDetail, hv).Ok?
    ensures b != 0
    ensures var curves := HvProgression(algorithms, b, maxSamples, printDetail, hv).value;
      var kept := WithData(algorithms);
      |curves| == |kept| &&
      forall k :: 0 <= k < |kept| ==>
        curves[k].algo == kept[k].name && curves[k] == Curve(kept[k].name, RunSeries(kept[k].runs, maxSamples, b, hv), b)
  {
    CurvesFromCurves(algorithms, b, maxSamples, printDetail, hv);
  }

  lemma {:induction false} MaxLenZero(runs: seq<seq<real>>)
    ensures MaxLen(runs) == 0 <==> forall i :: 0 <= i < |runs| ==> |runs[i]| == 0
  {
    if runs != [] {
      MaxLenZero(runs[1..]);
      assert forall i :: 1 <= i < |runs| ==> runs[i] == runs[1..][i - 1];
    }
  }

  /** For a positive batch size, an algorithm has only short runs exactly
      when it has data and each non-empty file keeps fewer than b points
      after truncation to `max_samples`. */
  lemma OnlyShortRunsPositive(a: Algorithm, maxSamples: int, b: int, hv: Indicator)
    requires 0 < b
    ensures OnlyShortRuns(a, maxSamples, b, hv) <==>
      HasData(a.runs) && forall F :: F in a.runs && |F| > 0 ==> |PyPrefix(F, maxSamples)| < b
  {
    var ne := NonEmptyRuns(a.runs);
    var runs := RunSeries(a.runs, maxSamples, b, hv);
    MaxLenZero(runs);
    forall k | 0 <= k < |ne|
      ensures |runs[k]| == 0 <==> |PyPrefix(ne[k], maxSamples)| < b
    {
      RunSeriesAt(a.runs, maxSamples, b, hv, k);
      SeriesShape(PyPrefix(ne[k], maxSamples), b, hv);
    }
    PrefixesShort(ne, maxSamples, b);
  }

  /** Every prefix is short, by index or by membership. */
  lemma PrefixesShort(ne: seq<RunHistory>, maxSamples: int, b: int)
    ensures (forall k :: 0 <= k < |ne| ==> |PyPrefix(ne[k], maxSamples)| < b) <==>
      forall F :: F in ne ==> |PyPrefix(F, maxSamples)| < b
  {
  }

  /** For a negative batch size range() is empty, so any algorithm with data
      has only short runs. */
  lemma OnlyShortRunsNegative(a: Algorithm, maxSamples: int, b: int, hv: Indicator)
    requires b < 0
    ensures OnlyShortRuns(a, maxSamples, b, hv) <==> HasData(a.runs)
  {
    var ne := NonEmptyRuns(a.runs);
    var runs := RunSeries(a.runs, maxSamples, b, hv);
    MaxLenZero(runs);
    forall k | 0 <= k < |ne|
      ensures |runs[k]| == 0
    {
      RunSeriesAt(a.runs, maxSamples, b, hv, k);
      NegativeBatchSeries(PyPrefix(ne[k], maxSamples), b, hv);
    }
  }
}
