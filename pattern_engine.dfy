/** The estimate list of the pattern-matching back end (regles.py, class
    SystemeExpertPrixPC). Its rules only report estimates; what is modelled here is the
    list those reports go to: one entry per bracket, the most confident report kept,
    read back sorted by falling confidence. */
module PatternEngine {
  import opened Estimates

  class PriceExpert {
    /** The estimates kept so far, one per bracket, in order of first report. */
    var estimates: seq<Estimate>
    /** Every report since the last reset, in order. */
    ghost var offered: seq<Estimate>

    /** The kept list is the reports merged one per bracket. */
    ghost predicate Valid()
      reads this
    {
      estimates == FoldKeepBest(offered)
    }

    constructor ()
      ensures Valid() && estimates == [] && offered == []
    {
      estimates := [];
      offered := [];
    }

    /** _ajouter_estimation: the first entry of the bracket is replaced when the new
        report is strictly more confident and kept otherwise; a new bracket is
        appended. Afterwards every entry is the kept report of its bracket. */
    method AddEstimate(category: string, priceMin: int, priceMax: int, confidence: real,
                       description: string)
      requires Valid()
      modifies this
      ensures Valid()
      ensures offered == old(offered) + [Estimate(category, confidence, description, priceMin, priceMax)]
      ensures estimates == KeepBest(old(estimates), Estimate(category, confidence, description, priceMin, priceMax))
      ensures DistinctCategories(estimates) && AllBest(offered, estimates)
    {
      var e := Estimate(category, confidence, description, priceMin, priceMax);
      FoldKeepBestSnoc(offered, e);
      offered := offered + [e];
      FoldKeepBestKeepsBest(offered);
      var i := 0;
      while i < |estimates|
        invariant i <= |estimates|
        invariant estimates == old(estimates)
        invariant forall k :: 0 <= k < i ==> estimates[k].category != category
      {
        if estimates[i].category == category {
          KeepBestAtFirstMatch(estimates, e, i);
          if confidence > estimates[i].confidence {
            estimates := estimates[i := e];
          }
          return;
        }
        i := i + 1;
      }
      assert category !in Categories(estimates) by {
        forall x | x in estimates ensures x.category != category {
          var k :| 0 <= k < |estimates| && estimates[k] == x;
        }
      }
      KeepBestAppends(estimates, e);
      estimates := estimates + [e];
    }

    /** obtenir_estimations: the kept estimates sorted by falling confidence, ties in
        order of first report (the sort is stable). */
    function SortedEstimates(): (r: seq<Estimate>)
      reads this
      ensures |r| == |estimates| && multiset(r) == multiset(estimates)
      ensures NonIncreasing(r)
      ensures forall c :: WithConfidence(r, c) == WithConfidence(estimates, c)
    {
      SortDescOrdered(estimates);
      SortDescStableAll(estimates);
      SortDesc(estimates)
    }

    /** reinitialiser_estimations. */
    method ResetEstimates()
      modifies this
      ensures Valid() && estimates == [] && offered == []
    {
      estimates := [];
      offered := [];
    }
  }

  lemma SortDescStableAll(s: seq<Estimate>)
    ensures forall c :: WithConfidence(SortDesc(s), c) == WithConfidence(s, c)
  {
    forall c ensures WithConfidence(SortDesc(s), c) == WithConfidence(s, c) {
      SortDescStable(s, c);
    }
  }
}
