/** Python's `range(start, stop, step)` and the prefix slice `s[:stop]`, with
    Python's own rules for negative arguments. */
module PySeq {

  /** The values `range(start, stop, step)` yields, in order. Python raises
      ValueError for a zero step; callers model that error themselves. */
  function PyRange(start: int, stop: int, step: int): seq<int>
    requires step != 0
    decreases if step > 0 then stop - start else start - stop
  {
    if (step > 0 && start < stop) || (step < 0 && start > stop) then
      [start] + PyRange(start + step, stop, step)
    else
      []
  }

  /** `s[:stop]`: a prefix of `s`; a negative `stop` counts from the end. */
  function PyPrefix<T>(s: seq<T>, stop: int): (r: seq<T>)
    ensures r <= s
    ensures 0 <= stop ==> |r| == if stop < |s| then stop else |s|
    ensures stop < 0 ==> |r| == if |s| + stop < 0 then 0 else |s| + stop
  {
    if 0 <= stop then s[..if stop < |s| then stop else |s|]
    else s[..if |s| + stop < 0 then 0 else |s| + stop]
  }

  /** With a positive step, element k of the range is start + k * step, and
      index k exists exactly when that value is still below stop. */
  lemma {:induction false} PyRangeIndex(start: int, stop: int, step: int, k: nat)
    requires step > 0
    ensures k < |PyRange(start, stop, step)| <==> start + k * step < stop
    ensures k < |PyRange(start, stop, step)| ==> PyRange(start, stop, step)[k] == start + k * step
    decreases stop - start
  {
    if start < stop {
      var r := PyRange(start, stop, step);
      assert r == [start] + PyRange(start + step, stop, step);
      if k > 0 {
        PyRangeIndex(start + step, stop, step, k - 1);
        assert (start + step) + (k - 1) * step == start + k * step;
      }
    } else {
      assert k * step >= 0;
    }
  }

  /** With a negative step, element k of the range is start + k * step, and
      index k exists exactly when that value is still above stop. */
  lemma {:induction false} PyRangeNegativeIndex(start: int, stop: int, step: int, k: nat)
    requires step < 0
    ensures k < |PyRange(start, stop, step)| <==> start + k * step > stop
    ensures k < |PyRange(start, stop, step)| ==> PyRange(start, stop, step)[k] == start + k * step
    decreases start - stop
  {
    if start > stop {
      var r := PyRange(start, stop, step);
      assert r == [start] + PyRange(start + step, stop, step);
      if k > 0 {
        PyRangeNegativeIndex(start + step, stop, step, k - 1);
        assert (start + step) + (k - 1) * step == start + k * step;
      }
    } else {
      assert k * step <= 0;
    }
  }

  /** With a positive step every value lies in [start, stop). */
  lemma {:induction false} PyRangeBounded(start: int, stop: int, step: int)
    requires step > 0
    ensures forall x :: x in PyRange(start, stop, step) ==> start <= x < stop
    decreases stop - start
  {
    if start < stop {
      PyRangeBounded(start + step, stop, step);
    }
  }

  /** With a positive step the range is strictly increasing. */
  lemma PyRangeIncreasing(start: int, stop: int, step: int, i: nat, j: nat)
    requires step > 0 && i < j < |PyRange(start, stop, step)|
    ensures PyRange(start, stop, step)[i] < PyRange(start, stop, step)[j]
  {
    PyRangeIndex(start, stop, step, i);
    PyRangeIndex(start, stop, step, j);
    MulMonotone(i + 1, j, step);
  }

  /** With a negative step a range whose start is not above its stop is
      empty. */
  lemma PyRangeNegativeEmpty(start: int, stop: int, step: int)
    requires step < 0 && start <= stop
    ensures PyRange(start, stop, step) == []
  {
  }

  lemma MulMonotone(x: int, y: int, b: int)
    requires x <= y && 0 < b
    ensures x * b <= y * b
  {
    assert y * b - x * b == (y - x) * b;
  }

  /** The unique quotient: q * b <= n < (q + 1) * b pins down n / b. */
  lemma DivUnique(n: int, b: int, q: int)
    requires 0 < b && q * b <= n < (q + 1) * b
    ensures n / b == q
  {
    var d, m := n / b, n % b;
    assert n == d * b + m && 0 <= m < b;
    if d < q {
      MulMonotone(d + 1, q, b);
      assert false;
    } else if q < d {
      MulMonotone(q + 1, d, b);
      assert false;
    }
  }

  /** range(b, n + 1, b) for a positive b yields b, 2b, ..., up to n: exactly
      n / b values, the k-th being (k + 1) * b. */
  lemma {:induction false} MultiplesRange(n: nat, b: int)
    requires 0 < b
    ensures |PyRange(b, n + 1, b)| == n / b
    ensures var r := PyRange(b, n + 1, b); forall k :: 0 <= k < |r| ==> r[k] == (k + 1) * b
  {
    var r := PyRange(b, n + 1, b);
    var len := |r|;
    PyRangeIndex(b, n + 1, b, len);
    if len > 0 {
      PyRangeIndex(b, n + 1, b, len - 1);
    }
    assert len * b <= n < (len + 1) * b;
    DivUnique(n, b, len);
    forall k | 0 <= k < len
      ensures r[k] == (k + 1) * b
    {
      PyRangeIndex(b, n + 1, b, k);
    }
  }

  /** range(0, m + 1, s) for a positive s is the grid {0, s, 2s, ...} cut at m. */
  lemma {:induction false} GridRange(m: int, s: int, t: int)
    requires 0 < s
    ensures t in PyRange(0, m + 1, s) <==> 0 <= t <= m && t % s == 0
  {
    var r := PyRange(0, m + 1, s);
    if t in r {
      var k :| 0 <= k < |r| && r[k] == t;
      PyRangeIndex(0, m + 1, s, k);
      assert t == k * s;
      DivUnique(t, s, k);
    }
    if 0 <= t <= m && t % s == 0 {
      var k := t / s;
      assert t == k * s;
      PyRangeIndex(0, m + 1, s, k);
      assert r[k] == t;
    }
  }

  /** `range(0, m + 1, s)[-1]` for m >= 0 and a positive s. */
  function LastTarget(m: int, s: int): int
    requires 0 < s && 0 <= m
  {
    var r := PyRange(0, m + 1, s);
    r[|r| - 1]
  }

  /** The last target of range(0, m + 1, s) for m >= 0 is the largest
      multiple of s that does not exceed m. */
  lemma LastGridTarget(m: int, s: int)
    requires 0 < s && 0 <= m
    ensures var r := PyRange(0, m + 1, s);
      |r| > 0 && r[|r| - 1] % s == 0 && r[|r| - 1] <= m < r[|r| - 1] + s
  {
    var r := PyRange(0, m + 1, s);
    var n := |r|;
    assert r[0] == 0;
    PyRangeIndex(0, m + 1, s, n - 1);
    PyRangeIndex(0, m + 1, s, n);
    assert r[n - 1] in r;
    GridRange(m, s, r[n - 1]);
    assert n * s == (n - 1) * s + s;
  }
}
