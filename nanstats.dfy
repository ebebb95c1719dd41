/** numpy's `nanmean` and `nanstd` over one column: NaN cells are absent
    (`None`) and the statistics are taken over the present values only. The
    standard deviation is represented by the population variance it is the
    square root of (`nanstd` uses ddof = 0). */
module NanStats {
  import opened Wrappers

  /** The present values of a column, in order. */
  function Present(xs: seq<Option<real>>): (vs: seq<real>)
    ensures |vs| <= |xs|
    ensures forall v :: v in vs <==> Some(v) in xs
  {
    if xs == [] then []
    else (if xs[0].Some? then [xs[0].value] else []) + Present(xs[1..])
  }

  /** Every present value is kept as often as it occurs, and nothing
      else is. */
  lemma {:induction false} PresentCounts(xs: seq<Option<real>>)
    ensures forall v :: multiset(Present(xs))[v] == multiset(xs)[Some(v)]
  {
    if xs != [] {
      PresentCounts(xs[1..]);
      assert xs == [xs[0]] + xs[1..];
    }
  }

  /** Column j of a table whose rows are all longer than j. */
  function Column(rows: seq<seq<Option<real>>>, j: nat): (col: seq<Option<real>>)
    requires forall i :: 0 <= i < |rows| ==> j < |rows[i]|
    ensures |col| == |rows|
  {
    seq(|rows|, i requires 0 <= i < |rows| => rows[i][j])
  }

  function Sum(vs: seq<real>): real
  {
    if vs == [] then 0.0 else vs[0] + Sum(vs[1..])
  }

  /** `nanmean` of the present values; one observation is its own mean. */
  function Mean(vs: seq<real>): (m: real)
    requires |vs| > 0
    ensures |vs| == 1 ==> m == vs[0]
  {
    assert |vs| == 1 ==> Sum(vs) == vs[0] by {
      if |vs| == 1 {
        assert vs[1..] == [];
      }
    }
    Sum(vs) / (|vs| as real)
  }

  function SquaredDeviations(vs: seq<real>, m: real): real
  {
    if vs == [] then 0.0 else (vs[0] - m) * (vs[0] - m) + SquaredDeviations(vs[1..], m)
  }

  /** Population variance (ddof = 0): never negative, so it has the real
      square root `nanstd` returns, and 0 for one observation. */
  function Variance(vs: seq<real>): (v: real)
    requires |vs| > 0
    ensures v >= 0.0
    ensures |vs| == 1 ==> v == 0.0
  {
    SquaredDeviationsNonNegative(vs, Mean(vs));
    SquaredDeviations(vs, Mean(vs)) / (|vs| as real)
  }

  lemma {:induction false} SumBounds(vs: seq<real>, lo: real, hi: real)
    requires forall v :: v in vs ==> lo <= v <= hi
    ensures lo * (|vs| as real) <= Sum(vs) <= hi * (|vs| as real)
  {
    if vs != [] {
      assert vs[0] in vs;
      assert forall v :: v in vs[1..] ==> v in vs;
      SumBounds(vs[1..], lo, hi);
      assert (|vs| as real) == 1.0 + (|vs[1..]| as real);
    }
  }

  /** The mean lies between any lower and upper bound of the values. */
  lemma MeanBounds(vs: seq<real>, lo: real, hi: real)
    requires |vs| > 0
    requires forall v :: v in vs ==> lo <= v <= hi
    ensures lo <= Mean(vs) <= hi
  {
    SumBounds(vs, lo, hi);
    var n := |vs| as real;
    assert Mean(vs) * n == Sum(vs);
  }

  lemma {:induction false} SquaredDeviationsNonNegative(vs: seq<real>, m: real)
    ensures SquaredDeviations(vs, m) >= 0.0
  {
    if vs != [] {
      SquaredDeviationsNonNegative(vs[1..], m);
      assert (vs[0] - m) * (vs[0] - m) >= 0.0;
    }
  }

  /** A variance (and so a standard deviation) is never negative. */
  lemma VarianceNonNegative(vs: seq<real>)
    requires |vs| > 0
    ensures Variance(vs) >= 0.0
  {
    SquaredDeviationsNonNegative(vs, Mean(vs));
  }

  lemma {:induction false} ConstantSum(vs: seq<real>, c: real)
    requires forall v :: v in vs ==> v == c
    ensures Sum(vs) == c * (|vs| as real)
    ensures SquaredDeviations(vs, c) == 0.0
  {
    if vs != [] {
      assert vs[0] in vs;
      assert forall v :: v in vs[1..] ==> v in vs;
      ConstantSum(vs[1..], c);
      var n := |vs[1..]| as real;
      assert (|vs| as real) == 1.0 + n;
      assert c * (1.0 + n) == c + c * n;
      assert (vs[0] - c) * (vs[0] - c) == 0.0;
    }
  }

  /** Values that all agree have that value as mean and zero variance; in
      particular a single observation has standard deviation 0. */
  lemma ConstantStatistics(vs: seq<real>, c: real)
    requires |vs| > 0
    requires forall v :: v in vs ==> v == c
    ensures Mean(vs) == c
    ensures Variance(vs) == 0.0
  {
    ConstantSum(vs, c);
  }

  /** A column whose only present cell is cell i has exactly that value. */
  lemma {:induction false} PresentSingle(xs: seq<Option<real>>, i: nat)
    requires i < |xs| && xs[i].Some?
    requires forall k :: 0 <= k < |xs| && k != i ==> xs[k].None?
    ensures Present(xs) == [xs[i].value]
  {
    if i == 0 {
      PresentNone(xs[1..]);
    } else {
      PresentSingle(xs[1..], i - 1);
    }
  }

  lemma {:induction false} PresentNone(xs: seq<Option<real>>)
    requires forall k :: 0 <= k < |xs| ==> xs[k].None?
    ensures Present(xs) == []
  {
    if xs != [] {
      PresentNone(xs[1..]);
    }
  }
}
