/** `calculate_igd_from_path`, `aggregate_igd_curves` and
    `compare_igd_curves_multi`: IGD of the non-dominated part of growing
    prefixes at a grid of evaluation counts, aligned across runs by target,
    and the final values of all algorithms ranked. */
module IgdProgression {
  import opened Wrappers
  import opened PySeq
  import opened NanStats
  import opened Pareto
  import opened Runs
  import opened Ranking

  /** The configured pymoo `IGD` object: a value for a reference front and an
      approximation set. */
  type IgdIndicator = (seq<Point>, seq<Point>) -> real

  datatype IgdError = ZeroStep  // ValueError from range() with a zero step

  /** `(eval_points, mean_curve, std_curve)` with the variance in place of
      the standard deviation. */
  datatype IgdCurve = IgdCurve(evalPoints: seq<int>, mean: seq<real>, variance: seq<real>)

  // ---------------------------------------------------------------------
  // One run

  /** The IGD at target t: the indicator on the non-dominated part of the
      archive `F_hist[:t + 1]`. */
  function IgdAt(hist: RunHistory, front: seq<Point>, t: int, igd: IgdIndicator): (v: real)
    ensures 0 <= t < |hist| ==> v == igd(front, NonDominatedFront(hist[..t + 1]))
    ensures |hist| <= t + 1 ==> v == igd(front, NonDominatedFront(hist))
  {
    var archive := PyPrefix(hist, t + 1);
    assert 0 <= t < |hist| ==> archive == hist[..t + 1];
    assert |hist| <= t + 1 ==> archive == hist;
    igd(front, NonDominatedFront(archive))
  }

  /** A dict filled by a loop over `ts` that writes `value(t)` for the
      targets `keep` admits. */
  function Tabulate(ts: seq<int>, keep: int -> bool, value: int -> real): map<int, real>
  {
    map t | t in ts && keep(t) :: value(t)
  }

  lemma TabulateStep(ts: seq<int>, t: int, keep: int -> bool, value: int -> real)
    ensures Tabulate(ts + [t], keep, value) ==
      if keep(t) then Tabulate(ts, keep, value)[t := value(t)] else Tabulate(ts, keep, value)
  {
    var m, m' := Tabulate(ts, keep, value), Tabulate(ts + [t], keep, value);
    assert forall x :: x in ts + [t] <==> x in ts || x == t;
    if keep(t) {
      assert m'.Keys == m.Keys + {t};
    } else {
      assert m'.Keys == m.Keys;
    }
  }

  lemma TabulateEntry(ts: seq<int>, keep: int -> bool, value: int -> real, t: int)
    requires t in Tabulate(ts, keep, value)
    ensures t in ts && keep(t) && Tabulate(ts, keep, value)[t] == value(t)
  {
  }

  /** The skip test of the target loop: is `F_hist[:t + 1]` non-empty? */
  function ArchiveNonEmpty(hist: RunHistory): int -> bool
  {
    t => |PyPrefix(hist, t + 1)| > 0
  }

  function IgdOf(hist: RunHistory, front: seq<Point>, igd: IgdIndicator): int -> real
  {
    t => IgdAt(hist, front, t, igd)
  }

  /** The dict `calculate_igd_from_path` returns when it does not raise:
      one entry per target of `range(0, max_eval + 1, step)` whose archive
      is non-empty. */
  function IgdAtTargets(hist: RunHistory, front: seq<Point>, maxEval: int, step: int, igd: IgdIndicator): (m: map<int, real>)
    ensures |hist| == 0 ==> m == map[]
  {
    if |hist| == 0 || step == 0 then map[]
    else Tabulate(PyRange(0, maxEval + 1, step), ArchiveNonEmpty(hist), IgdOf(hist, front, igd))
  }

  /** Every entry of the dict is a target of the range whose archive
      `F_hist[:t + 1]` is non-empty (t is not -1 and no further back than
      -len), holding the IGD at that target; for any step. */
  lemma IgdAtTargetsEntries(hist: RunHistory, front: seq<Point>, maxEval: int, step: int, igd: IgdIndicator, t: int)
    requires t in IgdAtTargets(hist, front, maxEval, step, igd)
    ensures step != 0 && t in PyRange(0, maxEval + 1, step)
    ensures |hist| > 0 && t != -1 && -|hist| <= t
    ensures IgdAtTargets(hist, front, maxEval, step, igd)[t] == IgdAt(hist, front, t, igd)
  {
    assert |hist| > 0 && step != 0;
    var keep := ArchiveNonEmpty(hist);
    IgdAtTargetsTable(hist, front, maxEval, step, igd);
    TabulateEntry(PyRange(0, maxEval + 1, step), keep, IgdOf(hist, front, igd), t);
    ArchiveReach(hist, t);
  }

  lemma IgdAtTargetsTable(hist: RunHistory, front: seq<Point>, maxEval: int, step: int, igd: IgdIndicator)
    requires |hist| > 0 && step != 0
    ensures IgdAtTargets(hist, front, maxEval, step, igd) ==
      Tabulate(PyRange(0, maxEval + 1, step), ArchiveNonEmpty(hist), IgdOf(hist, front, igd))
  {
  }

  /** `F_hist[:t + 1]` is non-empty exactly when the run is, t is not -1
      (that slice is `F_hist[:0]`) and t is no further back than -len. */
  lemma ArchiveReach(hist: RunHistory, t: int)
    ensures ArchiveNonEmpty(hist)(t) <==> |hist| > 0 && t != -1 && -|hist| <= t
  {
    var archive := PyPrefix(hist, t + 1);
    assert ArchiveNonEmpty(hist)(t) == (|archive| > 0);
    if 0 <= t + 1 {
      assert |archive| == if t + 1 < |hist| then t + 1 else |hist|;
    } else {
      assert |archive| == if |hist| + t + 1 < 0 then 0 else |hist| + t + 1;
    }
  }

  /** The imperative `calculate_igd_from_path`: an empty history gives an
      empty dict; otherwise the target loop fills the dict. */
  method CalculateIgdFromPath(hist: RunHistory, front: seq<Point>, maxEval: int, step: int, igd: IgdIndicator)
    returns (r: Result<map<int, real>, IgdError>)
    ensures r.Err? <==> |hist| > 0 && step == 0
    ensures r.Ok? ==> r.value == IgdAtTargets(hist, front, maxEval, step, igd)
  {
    if |hist| == 0 {
      return Ok(map[]);
    }
    if step == 0 {
      return Err(ZeroStep);
    }
    var targets := PyRange(0, maxEval + 1, step);
    var atTargets: map<int, real> := map[];
    ghost var keep, value := ArchiveNonEmpty(hist), IgdOf(hist, front, igd);
    assert Tabulate(targets[..0], keep, value) == map[];
    for k := 0 to |targets|
      invariant atTargets == Tabulate(targets[..k], keep, value)
    {
      var target := targets[k];
      assert targets[..k + 1] == targets[..k] + [target];
      TabulateStep(targets[..k], target, keep, value);
      var archive := PyPrefix(hist, target + 1);
      if |archive| == 0 {
        continue;
      }
      var nd := NonDominatedFront(archive);
      atTargets := atTargets[target := igd(front, nd)];
    }
    assert targets[..|targets|] == targets;
    return Ok(atTargets);
  }

  /** For a positive step the dict's keys are the whole grid
      {0, step, 2 * step, ...} up to max_eval when the history is non-empty
      (the `continue` never fires), and nothing otherwise. */
  lemma IgdTargetsAreGrid(hist: RunHistory, front: seq<Point>, maxEval: int, step: int, igd: IgdIndicator, t: int)
    requires 0 < step
    ensures t in IgdAtTargets(hist, front, maxEval, step, igd) <==>
      |hist| > 0 && 0 <= t <= maxEval && t % step == 0
  {
    GridRange(maxEval, step, t);
    if |hist| > 0 && 0 <= t {
      assert |PyPrefix(hist, t + 1)| > 0;
    }
  }

  /** A target at or past the end of the run sees the whole history. */
  lemma TargetPastEnd(hist: RunHistory, front: seq<Point>, maxEval: int, step: int, igd: IgdIndicator, t: int)
    requires 0 < step && |hist| > 0
    requires 0 <= t <= maxEval && t % step == 0 && |hist| <= t + 1
    ensures t in IgdAtTargets(hist, front, maxEval, step, igd)
    ensures IgdAtTargets(hist, front, maxEval, step, igd)[t] == igd(front, NonDominatedFront(hist))
  {
    GridRange(maxEval, step, t);
    assert PyPrefix(hist, t + 1) == hist;
  }

  /** With a negative step the targets are negative and `F_hist[:t + 1]`
      counts from the end, so the `continue` can fire: for a one-point run,
      max_eval -4 and step -2 the targets are 0 and -2, and -2 is skipped. */
  lemma NegativeTargetSkipped(p: Point, front: seq<Point>, igd: IgdIndicator)
    ensures IgdAtTargets([p], front, -4, -2, igd).Keys == {0}
  {
    NegativeTargets();
    var keep := ArchiveNonEmpty([p]);
    assert !keep(-2) by { assert |PyPrefix([p], -1)| == 0; }
    assert keep(0) by { assert |PyPrefix([p], 1)| == 1; }
    var m := Tabulate([0, -2], keep, IgdOf([p], front, igd));
    assert m.Keys == {0} by {
      forall t | t in m.Keys ensures t == 0 { }
      assert 0 in m.Keys;
    }
  }

  /** `range(0, -3, -2)` is `[0, -2]`. */
  lemma NegativeTargets()
    ensures PyRange(0, -3, -2) == [0, -2]
  {
    assert PyRange(-4, -3, -2) == [];
    assert PyRange(-2, -3, -2) == [-2];
  }

  // ---------------------------------------------------------------------
  // The runs of one algorithm, aligned by target

  /** The dict `calculate_igd_from_path` yields for each run. */
  function RunCurve(front: seq<Point>, maxEval: int, step: int, igd: IgdIndicator): RunHistory -> map<int, real>
  {
    h => IgdAtTargets(h, front, maxEval, step, igd)
  }

  /** The dicts of the runs in file order, without the empty ones. */
  function KeepNonEmpty(hists: seq<RunHistory>, curve: RunHistory -> map<int, real>): (kept: seq<map<int, real>>)
    ensures |kept| <= |hists|
    ensures forall c :: c in kept ==> |c| > 0
  {
    if hists == [] then []
    else
      var init := KeepNonEmpty(hists[..|hists| - 1], curve);
      var c := curve(hists[|hists| - 1]);
      if |c| > 0 then init + [c] else init
  }

  /** The kept dicts are exactly the non-empty dicts of the runs. */
  lemma {:induction false} KeepNonEmptyMembers(hists: seq<RunHistory>, curve: RunHistory -> map<int, real>)
    ensures forall c :: c in KeepNonEmpty(hists, curve) <==> exists h :: h in hists && |curve(h)| > 0 && c == curve(h)
  {
    if hists != [] {
      var rest, last := hists[..|hists| - 1], hists[|hists| - 1];
      assert hists == rest + [last];
      KeepNonEmptyMembers(rest, curve);
    }
  }

  /** `kept` holds `curve` of each history of `ne`, in order. */
  predicate CurvesOf(kept: seq<map<int, real>>, ne: seq<RunHistory>, curve: RunHistory -> map<int, real>)
  {
    |kept| == |ne| && forall k :: 0 <= k < |kept| ==> kept[k] == curve(ne[k])
  }

  lemma CurvesOfSnoc(kept: seq<map<int, real>>, ne: seq<RunHistory>, curve: RunHistory -> map<int, real>, h: RunHistory)
    requires CurvesOf(kept, ne, curve)
    ensures CurvesOf(kept + [curve(h)], ne + [h], curve)
  {
    forall k | 0 <= k < |kept| + 1
      ensures (kept + [curve(h)])[k] == curve((ne + [h])[k])
    {
      if k < |kept| {
        assert (kept + [curve(h)])[k] == kept[k] && (ne + [h])[k] == ne[k];
      }
    }
  }

  /** When a run's dict is empty exactly when the run is, the kept dicts
      are those of the non-empty runs, in file order. */
  lemma {:induction false} KeepNonEmptyAll(hists: seq<RunHistory>, curve: RunHistory -> map<int, real>)
    requires forall k :: 0 <= k < |hists| ==> (|curve(hists[k])| > 0 <==> |hists[k]| > 0)
    ensures CurvesOf(KeepNonEmpty(hists, curve), NonEmptyRuns(hists), curve)
  {
    if hists != [] {
      var init, last := hists[..|hists| - 1], hists[|hists| - 1];
      assert forall k :: 0 <= k < |init| ==> init[k] == hists[k];
      KeepNonEmptyAll(init, curve);
      if |last| > 0 {
        CurvesOfSnoc(KeepNonEmpty(init, curve), NonEmptyRuns(init), curve, last);
      }
    }
  }

  /** `all_curves`. */
  function KeptCurves(hists: seq<RunHistory>, front: seq<Point>, maxEval: int, step: int, igd: IgdIndicator): seq<map<int, real>>
  {
    KeepNonEmpty(hists, RunCurve(front, maxEval, step, igd))
  }

  /** `all_curves` holds exactly the non-empty dicts of the runs; each comes
      from a non-empty history. */
  lemma KeptCurvesMembers(hists: seq<RunHistory>, front: seq<Point>, maxEval: int, step: int, igd: IgdIndicator, c: map<int, real>)
    ensures c in KeptCurves(hists, front, maxEval, step, igd) <==>
      exists h :: h in hists && |IgdAtTargets(h, front, maxEval, step, igd)| > 0 && c == IgdAtTargets(h, front, maxEval, step, igd)
    ensures c in KeptCurves(hists, front, maxEval, step, igd) ==>
      exists h :: h in hists && |h| > 0 && c == IgdAtTargets(h, front, maxEval, step, igd)
  {
    var curve := RunCurve(front, maxEval, step, igd);
    KeepNonEmptyMembers(hists, curve);
    if c in KeptCurves(hists, front, maxEval, step, igd) {
      var h :| h in hists && |curve(h)| > 0 && c == curve(h);
      assert |h| > 0 by {
        var t :| t in curve(h);
        IgdAtTargetsEntries(h, front, maxEval, step, igd, t);
      }
    }
  }

  /** The union of the keys of all dicts. */
  function KeyUnion(curves: seq<map<int, real>>): (u: set<int>)
    ensures forall t :: t in u <==> exists i :: 0 <= i < |curves| && t in curves[i]
  {
    if curves == [] then {}
    else
      var init, last := curves[..|curves| - 1], curves[|curves| - 1];
      assert forall i :: 0 <= i < |init| ==> init[i] == curves[i];
      KeyUnion(init) + last.Keys
  }

  predicate StrictlyIncreasing(s: seq<int>)
  {
    forall i, j :: 0 <= i < j < |s| ==> s[i] < s[j]
  }

  lemma HasMember(s: set<int>)
    requires s != {}
    ensures exists x :: x in s
  {
    if forall x :: x !in s {
      assert false;
    }
  }

  lemma {:induction false} MinExists(s: set<int>)
    requires s != {}
    ensures exists m :: m in s && forall y :: y in s ==> m <= y
    decreases |s|
  {
    HasMember(s);
    var x :| x in s;
    if s != {x} {
      var rest := s - {x};
      MinExists(rest);
      var m :| m in rest && forall y :: y in rest ==> m <= y;
      assert forall y :: y in s ==> y == x || y in rest;
      if x < m {
        assert forall y :: y in s ==> x <= y;
      } else {
        assert forall y :: y in s ==> m <= y;
      }
    } else {
      assert forall y :: y in s ==> x <= y;
    }
  }

  function SetMin(s: set<int>): (m: int)
    requires s != {}
    ensures m in s && forall y :: y in s ==> m <= y
  {
    MinExists(s);
    var m :| m in s && forall y :: y in s ==> m <= y;
    m
  }

  /** `sorted(...)` of a set of ints: its members in ascending order, each
      once. */
  function SortedSet(s: set<int>): (r: seq<int>)
    ensures |r| == |s|
    ensures forall x :: x in r <==> x in s
    ensures StrictlyIncreasing(r)
    decreases |s|
  {
    if s == {} then []
    else
      var m := SetMin(s);
      var rest := SortedSet(s - {m});
      var r := [m] + rest;
      assert forall x :: x in r <==> x == m || x in rest;
      IncreasingCons(m, rest);
      r
  }

  /** A value below every member of a strictly increasing sequence extends
      it at the front. */
  lemma IncreasingCons(m: int, rest: seq<int>)
    requires StrictlyIncreasing(rest)
    requires forall x :: x in rest ==> m < x
    ensures StrictlyIncreasing([m] + rest)
  {
    var r := [m] + rest;
    forall i, j | 0 <= i < j < |r|
      ensures r[i] < r[j]
    {
      assert r[j] == rest[j - 1] && r[j] in rest;
      if i > 0 {
        assert r[i] == rest[i - 1];
      }
    }
  }

  /** A strictly increasing sequence is determined by its members. */
  lemma {:induction false} SortedUnique(r: seq<int>, s: seq<int>)
    requires StrictlyIncreasing(r) && StrictlyIncreasing(s)
    requires forall x :: x in r <==> x in s
    ensures r == s
  {
    assert |r| > 0 ==> r[0] in r;
    assert |s| > 0 ==> s[0] in s;
    if r != [] {
      assert r[0] in r;
      assert r[0] in s;
      assert s != [];
      assert s[0] in s;
      assert s[0] in r;
      assert r[0] == s[0];
      assert forall x :: x in r[1..] <==> x in r && x != r[0];
      assert forall x :: x in s[1..] <==> x in s && x != s[0];
      SortedUnique(r[1..], s[1..]);
      assert r == [r[0]] + r[1..] && s == [s[0]] + s[1..];
    }
  }

  /** `[curve.get(ev, np.nan) for ev in eval_points]`. */
  function Row(curve: map<int, real>, evalPoints: seq<int>): (row: seq<Option<real>>)
    ensures |row| == |evalPoints|
  {
    seq(|evalPoints|, j requires 0 <= j < |evalPoints| =>
      if evalPoints[j] in curve then Some(curve[evalPoints[j]]) else None)
  }

  /** `all_arrays`: one row per kept dict. */
  function Rows(curves: seq<map<int, real>>, evalPoints: seq<int>): (rows: seq<seq<Option<real>>>)
    ensures |rows| == |curves|
    ensures forall i :: 0 <= i < |rows| ==> |rows[i]| == |evalPoints|
  {
    seq(|curves|, i requires 0 <= i < |curves| => Row(curves[i], evalPoints))
  }

  /** The values at target t of the dicts that have t, in run order. */
  function ValuesWithKey(curves: seq<map<int, real>>, t: int): seq<real>
  {
    if curves == [] then []
    else (if t in curves[0] then [curves[0][t]] else []) + ValuesWithKey(curves[1..], t)
  }

  /** The column of eval point j holds, as present values, exactly the
      values of the dicts that have that key: a missing key is absent, not
      zero. */
  lemma {:induction false} RowsColumn(curves: seq<map<int, real>>, evalPoints: seq<int>, j: nat)
    requires j < |evalPoints|
    ensures Present(Column(Rows(curves, evalPoints), j)) == ValuesWithKey(curves, evalPoints[j])
  {
    if curves != [] {
      var col := Column(Rows(curves, evalPoints), j);
      assert col == [col[0]] + Column(Rows(curves[1..], evalPoints), j);
      RowsColumn(curves[1..], evalPoints, j);
    }
  }

  lemma {:induction false} ValuesWithKeyNonEmpty(curves: seq<map<int, real>>, i: nat, t: int)
    requires i < |curves| && t in curves[i]
    ensures |ValuesWithKey(curves, t)| > 0
  {
    if i > 0 {
      ValuesWithKeyNonEmpty(curves[1..], i - 1, t);
    }
  }

  /** The values at t come from the dicts holding t and from nowhere else. */
  lemma {:induction false} ValuesWithKeyMembers(curves: seq<map<int, real>>, t: int, v: real)
    ensures v in ValuesWithKey(curves, t) <==> exists i :: 0 <= i < |curves| && t in curves[i] && curves[i][t] == v
  {
    if curves != [] {
      ValuesWithKeyMembers(curves[1..], t, v);
      assert forall i :: 0 < i < |curves| ==> curves[i] == curves[1..][i - 1];
      if exists i :: 0 <= i < |curves| && t in curves[i] && curves[i][t] == v {
        var i :| 0 <= i < |curves| && t in curves[i] && curves[i][t] == v;
        if i > 0 {
          assert t in curves[1..][i - 1] && curves[1..][i - 1][t] == v;
        }
      }
    }
  }

  /** When every dict has t, the values at t are all of theirs, in order. */
  lemma {:induction false} ValuesWithKeyAll(curves: seq<map<int, real>>, t: int, vs: seq<real>)
    requires |vs| == |curves|
    requires forall i :: 0 <= i < |curves| ==> t in curves[i] && curves[i][t] == vs[i]
    ensures ValuesWithKey(curves, t) == vs
  {
    if curves != [] {
      assert forall i :: 0 <= i < |curves[1..]| ==> curves[1..][i] == curves[i + 1] && vs[1..][i] == vs[i + 1];
      ValuesWithKeyAll(curves[1..], t, vs[1..]);
      assert vs == [vs[0]] + vs[1..];
    }
  }

  /** Every key of the union has at least one value. */
  lemma KeyValuesNonEmpty(curves: seq<map<int, real>>)
    ensures forall t :: t in KeyUnion(curves) ==> |ValuesWithKey(curves, t)| > 0
  {
    forall t | t in KeyUnion(curves)
      ensures |ValuesWithKey(curves, t)| > 0
    {
      var i :| 0 <= i < |curves| && t in curves[i];
      ValuesWithKeyNonEmpty(curves, i, t);
    }
  }

  lemma SortedKeysNonEmpty(curves: seq<map<int, real>>)
    ensures forall j :: 0 <= j < |SortedSet(KeyUnion(curves))| ==>
      |ValuesWithKey(curves, SortedSet(KeyUnion(curves))[j])| > 0
  {
    var ev := SortedSet(KeyUnion(curves));
    KeyValuesNonEmpty(curves);
    forall j | 0 <= j < |ev|
      ensures |ValuesWithKey(curves, ev[j])| > 0
    {
      assert ev[j] in ev;
    }
  }

  /** `np.nanmean` of the column of target t. */
  function KeyMean(curves: seq<map<int, real>>, t: int): real
    requires |ValuesWithKey(curves, t)| > 0
  {
    Mean(ValuesWithKey(curves, t))
  }

  /** The square of `np.nanstd` of the column of target t. */
  function KeyVariance(curves: seq<map<int, real>>, t: int): real
    requires |ValuesWithKey(curves, t)| > 0
  {
    Variance(ValuesWithKey(curves, t))
  }

  /** `(eval_points, mean_curve, std_curve)` of a list of dicts: the eval
      points are the sorted union of the keys, and at each of them mean
      and variance are taken over the dicts that hold that key. */
  function Aggregate(curves: seq<map<int, real>>): (c: IgdCurve)
    ensures |curves| == 0 ==> c == IgdCurve([], [], [])
    ensures |c.evalPoints| == |c.mean| == |c.variance|
    ensures StrictlyIncreasing(c.evalPoints)
    ensures forall t :: t in c.evalPoints <==> exists i :: 0 <= i < |curves| && t in curves[i]
    ensures forall j :: 0 <= j < |c.mean| ==>
      var vs := ValuesWithKey(curves, c.evalPoints[j]);
      |vs| > 0 && c.mean[j] == Mean(vs) && c.variance[j] == Variance(vs)
  {
    if curves == [] then IgdCurve([], [], [])
    else
      var ev := SortedSet(KeyUnion(curves));
      SortedKeysNonEmpty(curves);
      var mean := seq(|ev|, j requires 0 <= j < |ev| => KeyMean(curves, ev[j]));
      var variance := seq(|ev|, j requires 0 <= j < |ev| => KeyVariance(curves, ev[j]));
      assert forall j :: 0 <= j < |ev| ==>
        mean[j] == Mean(ValuesWithKey(curves, ev[j])) && variance[j] == Variance(ValuesWithKey(curves, ev[j]));
      IgdCurve(ev, mean, variance)
  }

  /** The collecting loop of `aggregate_igd_curves`. */
  method CollectCurves(hists: seq<RunHistory>, front: seq<Point>, maxEval: int, step: int, igd: IgdIndicator)
    returns (r: Result<seq<map<int, real>>, IgdError>)
    ensures r.Err? <==> step == 0 && HasData(hists)
    ensures r.Ok? ==> r.value == KeptCurves(hists, front, maxEval, step, igd)
  {
    var allCurves: seq<map<int, real>> := [];
    for k := 0 to |hists|
      invariant allCurves == KeptCurves(hists[..k], front, maxEval, step, igd)
      invariant step == 0 ==> forall i :: 0 <= i < k ==> |hists[i]| == 0
    {
      var res := CalculateIgdFromPath(hists[k], front, maxEval, step, igd);
      if res.Err? {
        assert hists[k] in hists;
        return Err(res.error);
      }
      assert hists[..k + 1][..k] == hists[..k];
      if |res.value| > 0 {
        allCurves := allCurves + [res.value];
      }
    }
    assert hists[..|hists|] == hists;
    return Ok(allCurves);
  }

  /** The row-building loop of `aggregate_igd_curves`. */
  method BuildRows(curves: seq<map<int, real>>, evalPoints: seq<int>) returns (allArrays: seq<seq<Option<real>>>)
    ensures allArrays == Rows(curves, evalPoints)
  {
    allArrays := [];
    for i := 0 to |curves|
      invariant allArrays == Rows(curves, evalPoints)[..i]
    {
      allArrays := allArrays + [Row(curves[i], evalPoints)];
    }
  }

  /** `nanmean` and `nanstd` down each column of the rows. */
  method ColumnStatistics(curves: seq<map<int, real>>, evalPoints: seq<int>, allArrays: seq<seq<Option<real>>>)
    returns (mean: seq<real>, variance: seq<real>)
    requires forall t :: t in evalPoints ==> |ValuesWithKey(curves, t)| > 0
    requires allArrays == Rows(curves, evalPoints)
    ensures |mean| == |variance| == |evalPoints|
    ensures forall k :: 0 <= k < |evalPoints| ==>
      mean[k] == KeyMean(curves, evalPoints[k]) && variance[k] == KeyVariance(curves, evalPoints[k])
  {
    mean, variance := [], [];
    for j := 0 to |evalPoints|
      invariant |mean| == |variance| == j
      invariant forall k :: 0 <= k < j ==>
        mean[k] == KeyMean(curves, evalPoints[k]) && variance[k] == KeyVariance(curves, evalPoints[k])
    {
      assert evalPoints[j] in evalPoints;
      RowsColumn(curves, evalPoints, j);
      var present := Present(Column(allArrays, j));
      assert present == ValuesWithKey(curves, evalPoints[j]);
      mean := mean + [Mean(present)];
      variance := variance + [Variance(present)];
    }
  }

  /** The alignment of `aggregate_igd_curves`: rows keyed by the sorted
      key union, then the statistics down each column. */
  method AlignByKey(curves: seq<map<int, real>>) returns (c: IgdCurve)
    ensures c == Aggregate(curves)
  {
    var evalPoints := SortedSet(KeyUnion(curves));
    var allArrays := BuildRows(curves, evalPoints);
    KeyValuesNonEmpty(curves);
    var mean, variance := ColumnStatistics(curves, evalPoints, allArrays);
    c := IgdCurve(evalPoints, mean, variance);
    ghost var spec := Aggregate(curves);
    assert c.mean == spec.mean && c.variance == spec.variance;
  }

  /** The imperative `aggregate_igd_curves`. */
  method AggregateIgdCurves(hists: seq<RunHistory>, front: seq<Point>, maxEval: int, step: int, igd: IgdIndicator)
    returns (r: Result<IgdCurve, IgdError>)
    ensures r.Err? <==> step == 0 && HasData(hists)
    ensures r.Ok? ==> r.value == Aggregate(KeptCurves(hists, front, maxEval, step, igd))
  {
    var collected := CollectCurves(hists, front, maxEval, step, igd);
    if collected.Err? {
      return Err(collected.error);
    }
    var allCurves := collected.value;
    if |allCurves| == 0 {
      return Ok(IgdCurve([], [], []));
    }
    var c := AlignByKey(allCurves);
    return Ok(c);
  }

  // ---------------------------------------------------------------------
  // Aggregation with a positive step

  /** A non-empty run's dict holds exactly the grid targets, each with the
      IGD of its archive. */
  lemma RunKeysAreGrid(hist: RunHistory, front: seq<Point>, maxEval: int, step: int, igd: IgdIndicator)
    requires 0 < step && |hist| > 0
    ensures forall t :: t in IgdAtTargets(hist, front, maxEval, step, igd) <==> t in PyRange(0, maxEval + 1, step)
    ensures forall t :: t in IgdAtTargets(hist, front, maxEval, step, igd) ==>
      IgdAtTargets(hist, front, maxEval, step, igd)[t] == IgdAt(hist, front, t, igd)
  {
    PyRangeBounded(0, maxEval + 1, step);
  }

  /** With a positive step and max_eval >= 0 no non-empty run is dropped:
      the kept dicts are those of the non-empty runs, in file order. */
  lemma KeptCurvesOnGrid(hists: seq<RunHistory>, front: seq<Point>, maxEval: int, step: int, igd: IgdIndicator)
    requires 0 < step && 0 <= maxEval
    ensures CurvesOf(KeptCurves(hists, front, maxEval, step, igd), NonEmptyRuns(hists), RunCurve(front, maxEval, step, igd))
  {
    var curve := RunCurve(front, maxEval, step, igd);
    forall k | 0 <= k < |hists|
      ensures |curve(hists[k])| > 0 <==> |hists[k]| > 0
    {
      if |hists[k]| > 0 {
        RunKeysAreGrid(hists[k], front, maxEval, step, igd);
        assert PyRange(0, maxEval + 1, step)[0] == 0;
        assert 0 in curve(hists[k]);
      }
    }
    KeepNonEmptyAll(hists, curve);
  }

  /** Dicts that all hold exactly the members of a strictly increasing
      `grid` have `grid` as their sorted key union. */
  lemma SortedKeysAreGrid(kept: seq<map<int, real>>, grid: seq<int>)
    requires |kept| > 0 && StrictlyIncreasing(grid)
    requires forall k, t :: 0 <= k < |kept| ==> (t in kept[k] <==> t in grid)
    ensures SortedSet(KeyUnion(kept)) == grid
  {
    var ev := SortedSet(KeyUnion(kept));
    forall t
      ensures t in ev <==> t in grid
    {
      if t in grid {
        assert t in kept[0];
      }
    }
    SortedUnique(ev, grid);
  }

  /** The IGD of a run's archive at a target. */
  function IgdOfRun(front: seq<Point>, igd: IgdIndicator): (RunHistory, int) -> real
  {
    (h, t) => IgdAt(h, front, t, igd)
  }

  /** The kept dicts of runs with a positive step and max_eval >= 0 all hold
      the grid targets, with each run's IGD there. */
  lemma KeptOnGrid(hists: seq<RunHistory>, front: seq<Point>, maxEval: int, step: int, igd: IgdIndicator)
    requires 0 < step && 0 <= maxEval
    ensures var kept, ne, at := KeptCurves(hists, front, maxEval, step, igd), NonEmptyRuns(hists), IgdOfRun(front, igd);
      |kept| == |ne| &&
      forall k, t :: 0 <= k < |kept| ==>
        (t in kept[k] <==> t in PyRange(0, maxEval + 1, step)) &&
        (t in kept[k] ==> kept[k][t] == at(ne[k], t))
  {
    var kept, ne := KeptCurves(hists, front, maxEval, step, igd), NonEmptyRuns(hists);
    KeptCurvesOnGrid(hists, front, maxEval, step, igd);
    forall k | 0 <= k < |kept|
      ensures forall t :: t in kept[k] <==> t in PyRange(0, maxEval + 1, step)
      ensures forall t :: t in kept[k] ==> kept[k][t] == IgdOfRun(front, igd)(ne[k], t)
    {
      assert ne[k] in ne;
      assert kept[k] == IgdAtTargets(ne[k], front, maxEval, step, igd);
      RunKeysAreGrid(ne[k], front, maxEval, step, igd);
    }
  }

  /** Dicts that all hold target t, each with `at` of its run, yield at t
      the values of all runs, in order. */
  lemma ValuesOnGrid(kept: seq<map<int, real>>, ne: seq<RunHistory>, at: (RunHistory, int) -> real, t: int, i: nat)
    requires |kept| == |ne| && i < |ne|
    requires forall k :: 0 <= k < |kept| ==> t in kept[k] && kept[k][t] == at(ne[k], t)
    ensures |ValuesWithKey(kept, t)| == |ne| && ValuesWithKey(kept, t)[i] == at(ne[i], t)
  {
    ValuesWithKeyAll(kept, t, seq(|ne|, k requires 0 <= k < |ne| => at(ne[k], t)));
  }

  /** Dicts that all hold exactly the members of a strictly increasing
      `grid`, each with `at` of its run, aggregate to a curve on `grid`
      whose column j holds the values of all runs at grid[j], in order. */
  lemma AggregateOfGrid(kept: seq<map<int, real>>, ne: seq<RunHistory>, at: (RunHistory, int) -> real, grid: seq<int>, j: nat, i: nat)
    requires |kept| == |ne| && |kept| > 0 && StrictlyIncreasing(grid)
    requires forall k, t :: 0 <= k < |kept| ==>
      (t in kept[k] <==> t in grid) && (t in kept[k] ==> kept[k][t] == at(ne[k], t))
    ensures Aggregate(kept).evalPoints == grid
    ensures j < |grid| ==>
      var vs := ValuesWithKey(kept, grid[j]);
      |vs| == |ne| && (i < |ne| ==> vs[i] == at(ne[i], grid[j])) &&
      Aggregate(kept).mean[j] == Mean(vs) && Aggregate(kept).variance[j] == Variance(vs)
  {
    SortedKeysAreGrid(kept, grid);
    if j < |grid| {
      assert grid[j] in grid;
      ValuesOnGrid(kept, ne, at, grid[j], if i < |ne| then i else 0);
    }
  }

  /** With a positive step and max_eval >= 0, the eval points of runs with
      data are the whole grid 0, step, ..., and at each of them the mean
      and variance are taken over the IGD values of all non-empty runs, in
      file order. */
  lemma AggregateOnGrid(hists: seq<RunHistory>, front: seq<Point>, maxEval: int, step: int, igd: IgdIndicator, j: nat, i: nat)
    requires 0 < step && 0 <= maxEval && HasData(hists)
    ensures Aggregate(KeptCurves(hists, front, maxEval, step, igd)).evalPoints == PyRange(0, maxEval + 1, step)
    ensures var kept, ne := KeptCurves(hists, front, maxEval, step, igd), NonEmptyRuns(hists);
      var ev := PyRange(0, maxEval + 1, step);
      j < |ev| ==>
        |ValuesWithKey(kept, ev[j])| == |ne| &&
        (i < |ne| ==> ValuesWithKey(kept, ev[j])[i] == IgdAt(ne[i], front, ev[j], igd))
  {
    var kept, ne := KeptCurves(hists, front, maxEval, step, igd), NonEmptyRuns(hists);
    var grid := PyRange(0, maxEval + 1, step);
    KeptOnGrid(hists, front, maxEval, step, igd);
    GridIncreasing(maxEval, step);
    AggregateOfGrid(kept, ne, IgdOfRun(front, igd), grid, j, i);
  }

  /** The targets 0, step, ... of a positive step are strictly increasing. */
  lemma GridIncreasing(maxEval: int, step: int)
    requires 0 < step
    ensures StrictlyIncreasing(PyRange(0, maxEval + 1, step))
  {
    var grid := PyRange(0, maxEval + 1, step);
    forall a, b | 0 <= a < b < |grid|
      ensures grid[a] < grid[b]
    {
      PyRangeIncreasing(0, maxEval + 1, step, a, b);
    }
  }

  /** With a positive step and max_eval >= 0 the curve is empty exactly
      when no run has data. */
  lemma AggregateEmpty(hists: seq<RunHistory>, front: seq<Point>, maxEval: int, step: int, igd: IgdIndicator)
    requires 0 < step && 0 <= maxEval
    ensures |Aggregate(KeptCurves(hists, front, maxEval, step, igd)).evalPoints| == 0 <==> !HasData(hists)
  {
    if HasData(hists) {
      AggregateOnGrid(hists, front, maxEval, step, igd, 0, 0);
      assert PyRange(0, maxEval + 1, step)[0] == 0;
    } else {
      KeptCurvesOnGrid(hists, front, maxEval, step, igd);
    }
  }

  // ---------------------------------------------------------------------
  // Comparing algorithms

  /** One plotted line: an algorithm's label and its curve. */
  datatype Plot = Plot(name: string, curve: IgdCurve)

  /** What `compare_igd_curves_multi` produces besides the figure: the
      plotted curves, `final_igd_summary` in dict order and the printed
      ranking (empty without `print_detail`). */
  datatype Comparison = Comparison(plotted: seq<Plot>, summary: seq<Summary>, ranking: seq<Ranked>)

  /** The curve `aggregate_igd_curves` returns for one algorithm. */
  function AlgorithmCurve(a: Algorithm, front: seq<Point>, maxEval: int, step: int, igd: IgdIndicator): IgdCurve
  {
    Aggregate(KeptCurves(a.runs, front, maxEval, step, igd))
  }

  /** `(eval_points, mean_curve, std_curve)` of equal lengths. */
  predicate Shaped(c: IgdCurve)
  {
    |c.evalPoints| == |c.mean| == |c.variance|
  }

  /** A curve that gets a line: not empty, and of equal lengths. */
  predicate Plottable(p: Plot)
  {
    |p.curve.evalPoints| > 0 && Shaped(p.curve)
  }

  function CurveOfAlgorithm(front: seq<Point>, maxEval: int, step: int, igd: IgdIndicator): Algorithm -> IgdCurve
  {
    a => AlgorithmCurve(a, front, maxEval, step, igd)
  }

  lemma AlgorithmCurvesShaped(front: seq<Point>, maxEval: int, step: int, igd: IgdIndicator)
    ensures forall a :: Shaped(CurveOfAlgorithm(front, maxEval, step, igd)(a))
  {
  }

  /** The algorithms that get a line, in dict order: those whose curve is
      not empty, each with its curve. */
  function PlottedBy(algorithms: seq<Algorithm>, curve: Algorithm -> IgdCurve): (plotted: seq<Plot>)
    requires forall a :: a in algorithms ==> Shaped(curve(a))
    ensures |plotted| <= |algorithms|
    ensures forall p :: p in plotted ==> Plottable(p)
  {
    if algorithms == [] then []
    else
      var init, last := algorithms[..|algorithms| - 1], algorithms[|algorithms| - 1];
      assert forall a :: a in init ==> a in algorithms;
      var c := curve(last);
      PlottedBy(init, curve) + (if |c.evalPoints| > 0 then [Plot(last.name, c)] else [])
  }

  /** The lines are exactly the algorithms with a non-empty curve, each
      under its own name. */
  lemma {:induction false} PlottedByMembers(algorithms: seq<Algorithm>, curve: Algorithm -> IgdCurve)
    requires forall a :: a in algorithms ==> Shaped(curve(a))
    ensures forall p :: p in PlottedBy(algorithms, curve) <==>
      exists a :: a in algorithms && |curve(a).evalPoints| > 0 && p == Plot(a.name, curve(a))
  {
    if algorithms != [] {
      var init, last := algorithms[..|algorithms| - 1], algorithms[|algorithms| - 1];
      assert algorithms == init + [last];
      PlottedByMembers(init, curve);
    }
  }

  function Plotted(algorithms: seq<Algorithm>, front: seq<Point>, maxEval: int, step: int, igd: IgdIndicator): (plotted: seq<Plot>)
    ensures forall p :: p in plotted ==> Plottable(p)
  {
    AlgorithmCurvesShaped(front, maxEval, step, igd);
    PlottedBy(algorithms, CurveOfAlgorithm(front, maxEval, step, igd))
  }

  /** `(mean_curve[-1], std_curve[-1])` of a plotted curve. */
  function Final(p: Plot): (s: Summary)
    requires Plottable(p)
    ensures s.algo == p.name
    ensures s.finalMean == p.curve.mean[|p.curve.evalPoints| - 1]
    ensures s.finalVariance == p.curve.variance[|p.curve.evalPoints| - 1]
  {
    Summary(p.name, p.curve.mean[|p.curve.mean| - 1], p.curve.variance[|p.curve.variance| - 1])
  }

  /** `final_igd_summary`. */
  function FinalSummary(plotted: seq<Plot>): (summary: seq<Summary>)
    requires forall p :: p in plotted ==> Plottable(p)
    ensures |summary| == |plotted|
  {
    if plotted == [] then []
    else
      var init, last := plotted[..|plotted| - 1], plotted[|plotted| - 1];
      assert forall p :: p in init ==> p in plotted;
      assert last in plotted;
      FinalSummary(init) + [Final(last)]
  }

  /** Entry k of `final_igd_summary` is the final mean and variance of the
      k-th plotted curve, under its name. */
  lemma {:induction false} FinalSummaryEntries(plotted: seq<Plot>)
    requires forall p :: p in plotted ==> Plottable(p)
    ensures forall k :: 0 <= k < |plotted| ==> Plottable(plotted[k]) && FinalSummary(plotted)[k] == Final(plotted[k])
  {
    if plotted != [] {
      var init, last := plotted[..|plotted| - 1], plotted[|plotted| - 1];
      assert forall p :: p in init ==> p in plotted;
      FinalSummaryEntries(init);
      assert forall k :: 0 <= k < |init| ==> init[k] == plotted[k];
    }
  }

  lemma PlottedStep(algorithms: seq<Algorithm>, k: nat, curve: Algorithm -> IgdCurve)
    requires k < |algorithms|
    requires forall a :: a in algorithms ==> Shaped(curve(a))
    ensures forall a :: a in algorithms[..k + 1] ==> Shaped(curve(a))
    ensures forall a :: a in algorithms[..k] ==> Shaped(curve(a))
    ensures var c := curve(algorithms[k]);
      PlottedBy(algorithms[..k + 1], curve) ==
        PlottedBy(algorithms[..k], curve) + (if |c.evalPoints| > 0 then [Plot(algorithms[k].name, c)] else [])
  {
    assert forall a :: a in algorithms[..k + 1] ==> a in algorithms;
    assert algorithms[..k + 1][..k] == algorithms[..k];
  }

  lemma FinalSummaryStep(plotted: seq<Plot>, p: Plot)
    requires forall q :: q in plotted ==> Plottable(q)
    requires Plottable(p)
    ensures FinalSummary(plotted + [p]) == FinalSummary(plotted) + [Final(p)]
  {
    assert (plotted + [p])[..|plotted|] == plotted;
  }

  /** The imperative `compare_igd_curves_multi`: raises (at the first file
      with data) exactly when the step is zero and some algorithm has data;
      otherwise skips the algorithms without a curve, records each plotted
      one's final values and ranks them when `print_detail` is set. */
  method CompareIgdCurvesMulti(algorithms: seq<Algorithm>, front: seq<Point>, maxEval: int, step: int, printDetail: bool, igd: IgdIndicator)
    returns (r: Result<Comparison, IgdError>)
    ensures r.Err? <==> step == 0 && AnyData(algorithms)
    ensures r.Ok? ==> r.value.plotted == Plotted(algorithms, front, maxEval, step, igd)
    ensures r.Ok? ==> r.value.summary == FinalSummary(r.value.plotted)
    ensures r.Ok? ==> r.value.ranking == if printDetail then Rank(r.value.summary) else []
  {
    var plotted, summary := PlotAll(algorithms, front, maxEval, step, igd);
    if plotted.Err? {
      return Err(plotted.error);
    }
    var ranking := if printDetail then Rank(summary) else [];
    return Ok(Comparison(plotted.value, summary, ranking));
  }

  /** `aggregate_igd_curves` on one algorithm's files. */
  method CurveOf(a: Algorithm, front: seq<Point>, maxEval: int, step: int, igd: IgdIndicator)
    returns (r: Result<IgdCurve, IgdError>)
    ensures r.Err? <==> step == 0 && HasData(a.runs)
    ensures r.Ok? ==> r.value == CurveOfAlgorithm(front, maxEval, step, igd)(a) && Shaped(r.value)
  {
    r := AggregateIgdCurves(a.runs, front, maxEval, step, igd);
  }

  /** The rest of one pass of the loop of `compare_igd_curves_multi`: an
      empty curve is skipped, any other is plotted and its final values
      recorded. */
  method Record(name: string, c: IgdCurve, plotted: seq<Plot>, summary: seq<Summary>)
    returns (plotted': seq<Plot>, summary': seq<Summary>)
    requires Shaped(c)
    requires forall p :: p in plotted ==> Plottable(p)
    requires summary == FinalSummary(plotted)
    ensures plotted' == plotted + (if |c.evalPoints| > 0 then [Plot(name, c)] else [])
    ensures forall p :: p in plotted' ==> Plottable(p)
    ensures summary' == FinalSummary(plotted')
  {
    if |c.evalPoints| == 0 {
      return plotted, summary;
    }
    var p := Plot(name, c);
    FinalSummaryStep(plotted, p);
    return plotted + [p], summary + [Final(p)];
  }

  /** One pass of the loop of `compare_igd_curves_multi`: the curve of
      algorithm k, or the error it raises, and the lines and summary
      extended by it. */
  method PlotNext(algorithms: seq<Algorithm>, k: nat, front: seq<Point>, maxEval: int, step: int, igd: IgdIndicator,
                  plotted: seq<Plot>, summary: seq<Summary>)
    returns (r: Result<(seq<Plot>, seq<Summary>), IgdError>)
    requires k < |algorithms|
    requires plotted == PlottedBy(algorithms[..k], CurveOfAlgorithm(front, maxEval, step, igd))
    requires summary == FinalSummary(plotted)
    ensures r.Err? <==> step == 0 && HasData(algorithms[k].runs)
    ensures r.Ok? ==> r.value.0 == PlottedBy(algorithms[..k + 1], CurveOfAlgorithm(front, maxEval, step, igd))
    ensures r.Ok? ==> r.value.1 == FinalSummary(r.value.0)
  {
    ghost var curve := CurveOfAlgorithm(front, maxEval, step, igd);
    AlgorithmCurvesShaped(front, maxEval, step, igd);
    var a := algorithms[k];
    var res := CurveOf(a, front, maxEval, step, igd);
    if res.Err? {
      return Err(res.error);
    }
    PlottedStep(algorithms, k, curve);
    var plotted', summary' := Record(a.name, res.value, plotted, summary);
    return Ok((plotted', summary'));
  }

  /** The loop of `compare_igd_curves_multi` over the algorithms. */
  method PlotAll(algorithms: seq<Algorithm>, front: seq<Point>, maxEval: int, step: int, igd: IgdIndicator)
    returns (r: Result<seq<Plot>, IgdError>, summary: seq<Summary>)
    ensures r.Err? <==> step == 0 && AnyData(algorithms)
    ensures r.Ok? ==> r.value == Plotted(algorithms, front, maxEval, step, igd) && summary == FinalSummary(r.value)
  {
    var plotted: seq<Plot> := [];
    summary := [];
    for k := 0 to |algorithms|
      invariant plotted == PlottedBy(algorithms[..k], CurveOfAlgorithm(front, maxEval, step, igd))
      invariant summary == FinalSummary(plotted)
      invariant step == 0 ==> !AnyData(algorithms[..k])
    {
      var next := PlotNext(algorithms, k, front, maxEval, step, igd, plotted, summary);
      AnyDataStep(algorithms, k);
      if next.Err? {
        assert algorithms[k] in algorithms;
        return Err(next.error), summary;
      }
      plotted, summary := next.value.0, next.value.1;
    }
    assert algorithms[..|algorithms|] == algorithms;
    return Ok(plotted), summary;
  }

  /** With a positive step and max_eval >= 0 the plotted algorithms are
      exactly those with data, in dict order. */
  lemma {:induction false} PlottedWithData(algorithms: seq<Algorithm>, front: seq<Point>, maxEval: int, step: int, igd: IgdIndicator)
    requires 0 < step && 0 <= maxEval
    ensures var plotted, kept := Plotted(algorithms, front, maxEval, step, igd), WithData(algorithms);
      |plotted| == |kept| &&
      forall k :: 0 <= k < |plotted| ==>
        plotted[k] == Plot(kept[k].name, AlgorithmCurve(kept[k], front, maxEval, step, igd))
  {
    if algorithms != [] {
      var init, last := algorithms[..|algorithms| - 1], algorithms[|algorithms| - 1];
      assert algorithms == init + [last];
      PlottedWithData(init, front, maxEval, step, igd);
      AggregateEmpty(last.runs, front, maxEval, step, igd);
      var plotted, kept := Plotted(init, front, maxEval, step, igd), WithData(init);
      if HasData(last.runs) {
        var p := Plot(last.name, AlgorithmCurve(last, front, maxEval, step, igd));
        forall k | 0 <= k < |plotted| + 1
          ensures (plotted + [p])[k] == Plot((kept + [last])[k].name, AlgorithmCurve((kept + [last])[k], front, maxEval, step, igd))
        {
          if k < |plotted| {
            assert (plotted + [p])[k] == plotted[k] && (kept + [last])[k] == kept[k];
          }
        }
      }
    }
  }

  /** With a positive step and max_eval >= 0, `final_igd_summary` has one
      entry per algorithm with data, in dict order: its name and the mean
      and variance at the last eval point of its curve. */
  lemma SummaryOfData(algorithms: seq<Algorithm>, front: seq<Point>, maxEval: int, step: int, igd: IgdIndicator)
    requires 0 < step && 0 <= maxEval
    ensures |FinalSummary(Plotted(algorithms, front, maxEval, step, igd))| == |WithData(algorithms)|
    ensures forall k :: 0 <= k < |WithData(algorithms)| ==>
      |AlgorithmCurve(WithData(algorithms)[k], front, maxEval, step, igd).evalPoints| > 0 &&
      FinalSummary(Plotted(algorithms, front, maxEval, step, igd))[k] ==
        Final(Plot(WithData(algorithms)[k].name, AlgorithmCurve(WithData(algorithms)[k], front, maxEval, step, igd)))
  {
    var plotted, kept := Plotted(algorithms, front, maxEval, step, igd), WithData(algorithms);
    PlottedWithData(algorithms, front, maxEval, step, igd);
    FinalSummaryEntries(plotted);
    forall k | 0 <= k < |kept|
      ensures |AlgorithmCurve(kept[k], front, maxEval, step, igd).evalPoints| > 0
    {
      assert plotted[k] in plotted;
    }
  }

  /** With a positive step and max_eval >= 0, entry k of
      `final_igd_summary` is labelled with the k-th algorithm with data. */
  lemma SummaryNames(algorithms: seq<Algorithm>, front: seq<Point>, maxEval: int, step: int, igd: IgdIndicator)
    requires 0 < step && 0 <= maxEval
    ensures |FinalSummary(Plotted(algorithms, front, maxEval, step, igd))| == |WithData(algorithms)|
    ensures forall k :: 0 <= k < |WithData(algorithms)| ==>
      FinalSummary(Plotted(algorithms, front, maxEval, step, igd))[k].algo == WithData(algorithms)[k].name
  {
    SummaryOfData(algorithms, front, maxEval, step, igd);
  }

  /** With a positive step and max_eval >= 0, an algorithm without data has
      no entry in `final_igd_summary`: every entry names an algorithm with
      data. */
  lemma SummaryNamesHaveData(algorithms: seq<Algorithm>, front: seq<Point>, maxEval: int, step: int, igd: IgdIndicator, s: Summary)
    requires 0 < step && 0 <= maxEval
    requires s in FinalSummary(Plotted(algorithms, front, maxEval, step, igd))
    ensures exists a :: a in algorithms && HasData(a.runs) && s.algo == a.name
  {
    SummaryNames(algorithms, front, maxEval, step, igd);
    NameFromIndex(FinalSummary(Plotted(algorithms, front, maxEval, step, igd)), WithData(algorithms), s);
  }

  lemma NameFromIndex(summary: seq<Summary>, kept: seq<Algorithm>, s: Summary)
    requires |summary| == |kept| && forall k :: 0 <= k < |kept| ==> summary[k].algo == kept[k].name
    requires s in summary
    ensures exists a :: a in kept && s.algo == a.name
  {
    var k :| 0 <= k < |summary| && summary[k] == s;
    assert kept[k] in kept;
  }

  /** With a positive step and max_eval >= 0, the curve of an algorithm
      with data ends at the last grid target t, the largest multiple of the
      step not above max_eval; its final mean and variance, the ones the
      summary reports, are taken there (`Aggregate`, `AggregateOnGrid`). */
  lemma FinalAtLastTarget(a: Algorithm, front: seq<Point>, maxEval: int, step: int, igd: IgdIndicator)
    requires 0 < step && 0 <= maxEval && HasData(a.runs)
    ensures var c := AlgorithmCurve(a, front, maxEval, step, igd);
      |c.evalPoints| > 0 &&
      var t := c.evalPoints[|c.evalPoints| - 1];
      t % step == 0 && t <= maxEval < t + step
  {
    LastGridTarget(maxEval, step);
    AggregateOnGrid(a.runs, front, maxEval, step, igd, 0, 0);
  }

  /** With a positive step and max_eval >= 0, the final mean and variance of
      an algorithm with data, the ones the summary reports, are those of
      the IGD values at the last target of `range(0, max_eval + 1, step)`
      of all its non-empty runs, in file order. */
  lemma FinalOverRuns(a: Algorithm, front: seq<Point>, maxEval: int, step: int, igd: IgdIndicator, vs: seq<real>)
    requires 0 < step && 0 <= maxEval && HasData(a.runs)
    requires |vs| == |NonEmptyRuns(a.runs)|
    requires forall i :: 0 <= i < |vs| ==>
      vs[i] == IgdAt(NonEmptyRuns(a.runs)[i], front, LastTarget(maxEval, step), igd)
    ensures var c := AlgorithmCurve(a, front, maxEval, step, igd);
      var n := |c.evalPoints|;
      n > 0 && c.evalPoints[n - 1] == LastTarget(maxEval, step) &&
      |vs| > 0 && c.mean[n - 1] == Mean(vs) && c.variance[n - 1] == Variance(vs)
  {
    var kept, ne := KeptCurves(a.runs, front, maxEval, step, igd), NonEmptyRuns(a.runs);
    var t := LastTarget(maxEval, step);
    assert t in PyRange(0, maxEval + 1, step);
    KeptOnGrid(a.runs, front, maxEval, step, igd);
    forall i | 0 <= i < |kept|
      ensures t in kept[i] && kept[i][t] == vs[i]
    {
      assert kept[i][t] == IgdOfRun(front, igd)(ne[i], t);
    }
    ValuesWithKeyAll(kept, t, vs);
    AggregateOnGrid(a.runs, front, maxEval, step, igd, 0, 0);
  }
}
