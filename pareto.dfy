/** Pareto dominance under minimisation and the non-dominated filter that
    pymoo's `NonDominatedSorting` (first front only) performs. */
module Pareto {

  /** One objective vector, one entry per objective. */
  type Point = seq<real>

  /** a is no worse than b in every objective and strictly better in one. */
  predicate Dominates(a: Point, b: Point)
    ensures Dominates(a, b) ==> a != b
  {
    && |a| == |b|
    && (forall i :: 0 <= i < |a| ==> a[i] <= b[i])
    && (exists i :: 0 <= i < |a| && a[i] < b[i])
  }

  predicate DominatedIn(p: Point, archive: seq<Point>)
  {
    exists q :: q in archive && Dominates(q, p)
  }

  lemma DominatesIrreflexive(a: Point)
    ensures !Dominates(a, a)
  {
  }

  lemma DominatesTransitive(a: Point, b: Point, c: Point)
    requires Dominates(a, b) && Dominates(b, c)
    ensures Dominates(a, c)
  {
    var i :| 0 <= i < |a| && a[i] < b[i];
    assert a[i] < c[i];
  }

  /** The candidates that no archive point dominates, in their order, each
      occurrence kept (identical points do not dominate each other). */
  function KeepNonDominated(candidates: seq<Point>, archive: seq<Point>): (kept: seq<Point>)
    ensures forall p :: p in kept <==> p in candidates && !DominatedIn(p, archive)
    ensures forall p :: multiset(kept)[p] == if DominatedIn(p, archive) then 0 else multiset(candidates)[p]
  {
    if candidates == [] then []
    else
      assert candidates == [candidates[0]] + candidates[1..];
      (if DominatedIn(candidates[0], archive) then [] else [candidates[0]])
      + KeepNonDominated(candidates[1..], archive)
  }

  /** The first non-dominated front of an archive. */
  function NonDominatedFront(archive: seq<Point>): (front: seq<Point>)
    ensures multiset(front) <= multiset(archive)
    ensures forall p :: p in front <==> p in archive && !DominatedIn(p, archive)
    ensures forall p :: p in archive && !DominatedIn(p, archive) ==> multiset(front)[p] == multiset(archive)[p]
    ensures |archive| > 0 ==> |front| > 0
  {
    var front := KeepNonDominated(archive, archive);
    if |archive| > 0 then
      ExistsNonDominated(archive, archive[0]);
      front
    else front
  }

  function Dominators(c: Point, archive: seq<Point>): set<Point>
  {
    set q | q in archive && Dominates(q, c)
  }

  /** Every finite non-empty archive has a point that nothing in it
      dominates: follow dominators from c; each step shrinks the set of
      dominators, as dominance is irreflexive and transitive. */
  lemma {:induction false} ExistsNonDominated(archive: seq<Point>, c: Point)
    requires c in archive
    ensures exists p :: p in archive && !DominatedIn(p, archive)
    decreases |Dominators(c, archive)|
  {
    if DominatedIn(c, archive) {
      var d :| d in archive && Dominates(d, c);
      forall q | q in Dominators(d, archive)
        ensures q in Dominators(c, archive)
      {
        DominatesTransitive(q, d, c);
      }
      DominatesIrreflexive(d);
      var smaller := Dominators(c, archive) - {d};
      assert Dominators(d, archive) <= smaller;
      SubsetCardinality(Dominators(d, archive), smaller);
      ExistsNonDominated(archive, d);
    }
  }

  lemma {:induction false} SubsetCardinality(a: set<Point>, b: set<Point>)
    requires a <= b
    ensures |a| <= |b|
    decreases b
  {
    if a != {} {
      var x :| x in a;
      SubsetCardinality(a - {x}, b - {x});
    }
  }

  /** No member of the front dominates another one. */
  lemma FrontIsAntichain(archive: seq<Point>, p: Point, q: Point)
    requires p in NonDominatedFront(archive) && q in NonDominatedFront(archive)
    ensures !Dominates(p, q)
  {
  }

  /** Filtering a front again changes nothing. */
  lemma FrontIdempotent(archive: seq<Point>)
    ensures NonDominatedFront(NonDominatedFront(archive)) == NonDominatedFront(archive)
  {
    var front := NonDominatedFront(archive);
    forall p | p in front
      ensures !DominatedIn(p, front)
    {
    }
    KeepAll(front, front);
  }

  lemma {:induction false} KeepAll(candidates: seq<Point>, archive: seq<Point>)
    requires forall p :: p in candidates ==> !DominatedIn(p, archive)
    ensures KeepNonDominated(candidates, archive) == candidates
  {
    if candidates != [] {
      assert candidates[0] in candidates;
      KeepAll(candidates[1..], archive);
    }
  }
}
