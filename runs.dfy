/** The recorded input both evaluations consume: per algorithm, the score
    history of each run (the objective vectors in evaluation order that
    `read_score_from_path` returns for one file; empty when the file holds
    no data). */
module Runs {
  import opened Pareto

  type RunHistory = seq<Point>

  /** One entry of the `algorithms` dict: a name and its runs' histories. */
  datatype Algorithm = Algorithm(name: string, runs: seq<RunHistory>)

  predicate HasData(files: seq<RunHistory>)
  {
    exists f :: f in files && |f| > 0
  }

  predicate AnyData(algorithms: seq<Algorithm>)
  {
    exists a :: a in algorithms && HasData(a.runs)
  }

  /** The non-empty histories, in file order. */
  function NonEmptyRuns(files: seq<RunHistory>): (ne: seq<RunHistory>)
    ensures forall f :: f in ne <==> f in files && |f| > 0
    ensures |ne| <= |files|
    ensures |ne| == 0 <==> !HasData(files)
  {
    if files == [] then []
    else
      var init, last := files[..|files| - 1], files[|files| - 1];
      assert files == init + [last];
      NonEmptyRuns(init) + (if |last| > 0 then [last] else [])
  }

  /** Every non-empty history is kept as often as it occurs; empty ones are
      dropped. */
  lemma {:induction false} NonEmptyRunsCounts(files: seq<RunHistory>)
    ensures forall f :: multiset(NonEmptyRuns(files))[f] == if |f| > 0 then multiset(files)[f] else 0
  {
    if files != [] {
      var init, last := files[..|files| - 1], files[|files| - 1];
      assert files == init + [last];
      NonEmptyRunsCounts(init);
    }
  }

  /** The algorithms with at least one non-empty file, in dict order. */
  function WithData(algorithms: seq<Algorithm>): (kept: seq<Algorithm>)
    ensures forall a :: a in kept <==> a in algorithms && HasData(a.runs)
  {
    if algorithms == [] then []
    else
      var init, last := algorithms[..|algorithms| - 1], algorithms[|algorithms| - 1];
      assert algorithms == init + [last];
      WithData(init) + (if HasData(last.runs) then [last] else [])
  }

  /** Data among the first k + 1 algorithms is data among the first k or in
      algorithm k. */
  lemma AnyDataStep(algorithms: seq<Algorithm>, k: nat)
    requires k < |algorithms|
    ensures AnyData(algorithms[..k + 1]) <==> AnyData(algorithms[..k]) || HasData(algorithms[k].runs)
  {
    assert algorithms[..k + 1] == algorithms[..k] + [algorithms[k]];
    if HasData(algorithms[k].runs) {
      assert algorithms[k] in algorithms[..k + 1];
    }
  }
}
