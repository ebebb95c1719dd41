/** The IGD ranking: `sorted(summary.items(), key=lambda x: x[1][0])`
    numbered from 1 by `enumerate(ranked, 1)`. */
module Ranking {

  /** One algorithm's final IGD: the last mean and the last variance. */
  datatype Summary = Summary(algo: string, finalMean: real, finalVariance: real)

  datatype Ranked = Ranked(rank: nat, entry: Summary)

  predicate SortedByMean(s: seq<Summary>)
  {
    forall i, j :: 0 <= i < j < |s| ==> s[i].finalMean <= s[j].finalMean
  }

  /** Puts x in front of the first entry whose mean is not smaller, so that
      equal means keep their original order (Python's sort is stable). */
  function InsertByMean(x: Summary, sorted: seq<Summary>): (r: seq<Summary>)
    requires SortedByMean(sorted)
    ensures SortedByMean(r)
    ensures multiset(r) == multiset(sorted) + multiset{x}
    ensures |r| == |sorted| + 1
  {
    if sorted == [] || x.finalMean <= sorted[0].finalMean then
      ConsSorted(x, sorted);
      [x] + sorted
    else
      var rest := InsertByMean(x, sorted[1..]);
      assert sorted == [sorted[0]] + sorted[1..];
      LowerBound(sorted[0].finalMean, x, sorted[1..], rest);
      ConsSorted(sorted[0], rest);
      [sorted[0]] + rest
  }

  /** An entry not above any of a sorted sequence can go in front of it. */
  lemma ConsSorted(y: Summary, s: seq<Summary>)
    requires SortedByMean(s)
    requires forall k :: 0 <= k < |s| ==> y.finalMean <= s[k].finalMean
    ensures SortedByMean([y] + s)
  {
    var r := [y] + s;
    forall i, j | 0 <= i < j < |r|
      ensures r[i].finalMean <= r[j].finalMean
    {
      if i > 0 {
        assert r[i] == s[i - 1] && r[j] == s[j - 1];
      }
    }
  }

  /** A bound below x and below every entry of s is below every entry of a
      rearrangement of s and x. */
  lemma LowerBound(lo: real, x: Summary, s: seq<Summary>, r: seq<Summary>)
    requires lo <= x.finalMean && forall k :: 0 <= k < |s| ==> lo <= s[k].finalMean
    requires multiset(r) == multiset(s) + multiset{x}
    ensures forall k :: 0 <= k < |r| ==> lo <= r[k].finalMean
  {
    forall k | 0 <= k < |r|
      ensures lo <= r[k].finalMean
    {
      assert r[k] in multiset(r);
      if r[k] != x {
        assert r[k] in multiset(s);
        var i :| 0 <= i < |s| && s[i] == r[k];
      }
    }
  }

  function SortByMean(s: seq<Summary>): (r: seq<Summary>)
    ensures SortedByMean(r)
    ensures multiset(r) == multiset(s)
    ensures |r| == |s|
  {
    if s == [] then []
    else
      assert s == [s[0]] + s[1..];
      InsertByMean(s[0], SortByMean(s[1..]))
  }

  /** The printed ranking: every summary once, ascending final mean (lower
      IGD is better), numbered 1..k. */
  function Rank(summary: seq<Summary>): (ranked: seq<Ranked>)
    ensures |ranked| == |summary|
    ensures forall k :: 0 <= k < |ranked| ==> ranked[k].rank == k + 1
    ensures forall i, j :: 0 <= i < j < |ranked| ==> ranked[i].entry.finalMean <= ranked[j].entry.finalMean
    ensures multiset(Entries(ranked)) == multiset(summary)
  {
    var sorted := SortByMean(summary);
    var ranked := seq(|sorted|, k requires 0 <= k < |sorted| => Ranked(k + 1, sorted[k]));
    assert Entries(ranked) == sorted;
    ranked
  }

  function Entries(ranked: seq<Ranked>): (s: seq<Summary>)
    ensures |s| == |ranked|
    ensures forall k :: 0 <= k < |s| ==> s[k] == ranked[k].entry
  {
    seq(|ranked|, k requires 0 <= k < |ranked| => ranked[k].entry)
  }
}
