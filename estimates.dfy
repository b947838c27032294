/** Price-bracket estimates and the two list operations that both back ends of the
    expert system apply to them: keeping the best estimate per bracket
    (regles.py `_ajouter_estimation`, and the merge step of moteur_inference.py
    `inferer`) and ordering estimates by falling confidence (Python's stable
    `sort(reverse=True)` / `sorted(..., reverse=True)` keyed on the confidence). */
module Estimates {

  /** One estimate: the bracket name (its category), the confidence, a description
      and the bracket's price range in euros. */
  datatype Estimate = Estimate(category: string, confidence: real, description: string,
                               priceMin: int, priceMax: int)

  /** The categories that occur in `s`. */
  function Categories(s: seq<Estimate>): set<string> {
    set e | e in s :: e.category
  }

  /** No two entries of `s` share a category. */
  predicate DistinctCategories(s: seq<Estimate>) {
    forall i, j :: 0 <= i < j < |s| ==> s[i].category != s[j].category
  }

  lemma CategoriesCons(e: Estimate, s: seq<Estimate>)
    ensures Categories([e] + s) == {e.category} + Categories(s)
  {
    assert forall x :: x in [e] + s <==> x == e || x in s;
  }

  lemma CategoriesSnoc(s: seq<Estimate>, e: Estimate)
    ensures Categories(s + [e]) == Categories(s) + {e.category}
  {
    assert forall x :: x in s + [e] <==> x in s || x == e;
  }

  lemma CategoryAt(s: seq<Estimate>, c: string) returns (p: nat)
    requires c in Categories(s)
    ensures p < |s| && s[p].category == c
  {
    var e :| e in s && e.category == c;
    p :| p < |s| && s[p] == e;
  }

  /** In a list without repeated categories, the head's category is not in the tail. */
  lemma DistinctHead(s: seq<Estimate>)
    requires s != [] && DistinctCategories(s)
    ensures s[0].category !in Categories(s[1..])
  {
    forall e | e in s[1..] ensures e.category != s[0].category {
      var p :| 0 <= p < |s[1..]| && s[1..][p] == e;
      assert s[p + 1] == e;
    }
  }

  // ---------------------------------------------------------------------------
  // Keeping the best estimate per category
  // ---------------------------------------------------------------------------

  /** Adds `e` to `s`, one entry per category: the first entry of `e`'s category is
      replaced by `e` when `e` is strictly more confident and kept otherwise; a
      category not yet present is appended at the end. */
  function KeepBest(s: seq<Estimate>, e: Estimate): (r: seq<Estimate>)
    ensures |s| <= |r| <= |s| + 1
    ensures |r| == |s| + 1 ==> r == s + [e]
    ensures e in r || r == s
  {
    if s == [] then [e]
    else if s[0].category == e.category then
      if e.confidence > s[0].confidence then [e] + s[1..] else s
    else
      assert s == [s[0]] + s[1..];
      [s[0]] + KeepBest(s[1..], e)
  }

  /** KeepBest adds `e`'s category and nothing else, grows the list only for a new
      category, and never introduces a repeated category. */
  lemma KeepBestShape(s: seq<Estimate>, e: Estimate)
    ensures Categories(KeepBest(s, e)) == Categories(s) + {e.category}
    ensures |KeepBest(s, e)| == if e.category in Categories(s) then |s| else |s| + 1
    ensures DistinctCategories(s) ==> DistinctCategories(KeepBest(s, e))
  {
    KeepBestCategories(s, e);
    KeepBestLength(s, e);
    if DistinctCategories(s) {
      KeepBestDistinct(s, e);
    }
  }

  lemma {:induction false} KeepBestCategories(s: seq<Estimate>, e: Estimate)
    ensures Categories(KeepBest(s, e)) == Categories(s) + {e.category}
  {
    if s == [] {
      assert Categories([e]) == {e.category} by {
        CategoriesCons(e, []);
        assert [e] + [] == [e];
      }
    } else {
      CategoriesCons(s[0], s[1..]);
      assert s == [s[0]] + s[1..];
      if s[0].category == e.category {
        if e.confidence > s[0].confidence {
          CategoriesCons(e, s[1..]);
        }
      } else {
        KeepBestCategories(s[1..], e);
        CategoriesCons(s[0], KeepBest(s[1..], e));
      }
    }
  }

  lemma {:induction false} KeepBestLength(s: seq<Estimate>, e: Estimate)
    ensures |KeepBest(s, e)| == if e.category in Categories(s) then |s| else |s| + 1
  {
    if s != [] {
      CategoriesCons(s[0], s[1..]);
      assert s == [s[0]] + s[1..];
      if s[0].category != e.category {
        KeepBestLength(s[1..], e);
      }
    }
  }

  lemma {:induction false} KeepBestDistinct(s: seq<Estimate>, e: Estimate)
    requires DistinctCategories(s)
    ensures DistinctCategories(KeepBest(s, e))
  {
    if s != [] {
      DistinctSplit(s);
      var r := KeepBest(s, e);
      if s[0].category == e.category {
        DistinctSplit(r);
        if e.confidence > s[0].confidence {
          assert r[1..] == s[1..];
        }
      } else {
        KeepBestDistinct(s[1..], e);
        KeepBestCategories(s[1..], e);
        DistinctSplit(r);
        assert r[1..] == KeepBest(s[1..], e);
      }
    }
  }

  /** A non-empty list has distinct categories exactly when its head's category is
      not repeated in the tail and the tail has distinct categories. */
  lemma DistinctSplit(s: seq<Estimate>)
    requires s != []
    ensures s == [s[0]] + s[1..]
    ensures DistinctCategories(s) <==> s[0].category !in Categories(s[1..]) && DistinctCategories(s[1..])
  {
    assert s == [s[0]] + s[1..];
    if DistinctCategories(s) {
      DistinctHead(s);
      assert DistinctCategories(s[1..]) by {
        forall i, j | 0 <= i < j < |s[1..]| ensures s[1..][i].category != s[1..][j].category {
          assert s[1..][i] == s[i + 1] && s[1..][j] == s[j + 1];
        }
      }
    }
    if s[0].category !in Categories(s[1..]) && DistinctCategories(s[1..]) {
      forall i, j | 0 <= i < j < |s| ensures s[i].category != s[j].category {
        assert s[j] == s[1..][j - 1];
        if i == 0 {
          assert s[1..][j - 1] in s[1..];
        } else {
          assert s[i] == s[1..][i - 1];
        }
      }
    }
  }

  /** An estimate of a new category goes to the end of the list. */
  lemma {:induction false} KeepBestAppends(s: seq<Estimate>, e: Estimate)
    requires e.category !in Categories(s)
    ensures KeepBest(s, e) == s + [e]
  {
    if s != [] {
      CategoriesCons(s[0], s[1..]);
      assert s == [s[0]] + s[1..];
      KeepBestAppends(s[1..], e);
    }
  }

  /** For a category first present at index `p`, the entry there is replaced in place
      exactly when the new confidence is strictly greater, and nothing else changes. */
  lemma {:induction false} KeepBestAtFirstMatch(s: seq<Estimate>, e: Estimate, p: nat)
    requires p < |s| && s[p].category == e.category
    requires forall j :: 0 <= j < p ==> s[j].category != e.category
    ensures KeepBest(s, e) == if e.confidence > s[p].confidence then s[p := e] else s
  {
    assert s == [s[0]] + s[1..];
    if p > 0 {
      KeepBestAtFirstMatch(s[1..], e, p - 1);
      assert KeepBest(s, e) == [s[0]] + KeepBest(s[1..], e);
      assert s[1..][p - 1] == s[p];
      assert [s[0]] + s[1..][p - 1 := e] == s[p := e];
    } else {
      assert [e] + s[1..] == s[0 := e];
    }
  }

  /** The list obtained by offering the candidates `c` one after the other to KeepBest,
      starting from the empty list. */
  function FoldKeepBest(c: seq<Estimate>): (r: seq<Estimate>)
    ensures DistinctCategories(r)
    ensures Categories(r) == Categories(c)
    ensures r == [] <==> c == []
  {
    if c == [] then []
    else
      CategoriesSnoc(c[..|c| - 1], c[|c| - 1]);
      assert c == c[..|c| - 1] + [c[|c| - 1]];
      KeepBestShape(FoldKeepBest(c[..|c| - 1]), c[|c| - 1]);
      KeepBest(FoldKeepBest(c[..|c| - 1]), c[|c| - 1])
  }

  lemma FoldKeepBestSnoc(c: seq<Estimate>, x: Estimate)
    ensures FoldKeepBest(c + [x]) == KeepBest(FoldKeepBest(c), x)
  {
    assert (c + [x])[..|c|] == c;
  }

  /** `c[k]` is the candidate its category keeps: no candidate of the same category is
      more confident, and every earlier one of that category is strictly less so. */
  ghost predicate IsBest(c: seq<Estimate>, k: int) {
    0 <= k < |c| &&
    forall j :: 0 <= j < |c| && c[j].category == c[k].category ==>
      c[j].confidence <= c[k].confidence && (j < k ==> c[j].confidence < c[k].confidence)
  }

  lemma IsBestOtherCategory(c: seq<Estimate>, x: Estimate, k: int)
    requires IsBest(c, k) && c[k].category != x.category
    ensures IsBest(c + [x], k)
  {
  }

  lemma IsBestNotBeaten(c: seq<Estimate>, x: Estimate, k: int)
    requires IsBest(c, k) && c[k].category == x.category && x.confidence <= c[k].confidence
    ensures IsBest(c + [x], k)
  {
  }

  lemma IsBestNewWinner(c: seq<Estimate>, x: Estimate)
    requires forall j :: 0 <= j < |c| && c[j].category == x.category ==> c[j].confidence < x.confidence
    ensures IsBest(c + [x], |c|)
  {
  }

  /** Every entry of `out` is the kept candidate (IsBest) of its category in `c`. */
  ghost predicate AllBest(c: seq<Estimate>, out: seq<Estimate>) {
    forall i :: 0 <= i < |out| ==> KeptFrom(c, out, i)
  }

  /** `out[i]` is the kept candidate of its category in `c`. */
  ghost predicate KeptFrom(c: seq<Estimate>, out: seq<Estimate>, i: int)
    requires 0 <= i < |out|
  {
    exists k :: IsBest(c, k) && out[i] == c[k]
  }

  lemma AllBestAppend(c: seq<Estimate>, out: seq<Estimate>, x: Estimate)
    requires AllBest(c, out) && Categories(out) == Categories(c)
    requires x.category !in Categories(out)
    ensures AllBest(c + [x], out + [x])
  {
    var c2, out2 := c + [x], out + [x];
    forall i | 0 <= i < |out2| ensures KeptFrom(c2, out2, i) {
      if i < |out| {
        assert KeptFrom(c, out, i);
        var k :| IsBest(c, k) && out[i] == c[k];
        assert out[i] in out;
        IsBestOtherCategory(c, x, k);
        assert out2[i] == c2[k];
      } else {
        forall j | 0 <= j < |c| ensures c[j].category != x.category {
          assert c[j] in c;
        }
        IsBestNewWinner(c, x);
        assert out2[i] == c2[|c|];
      }
    }
  }

  lemma AllBestMerge(c: seq<Estimate>, out: seq<Estimate>, x: Estimate, p: nat)
    requires AllBest(c, out) && DistinctCategories(out)
    requires p < |out| && out[p].category == x.category
    ensures AllBest(c + [x], if x.confidence > out[p].confidence then out[p := x] else out)
  {
    var c2 := c + [x];
    var out2 := if x.confidence > out[p].confidence then out[p := x] else out;
    forall i | 0 <= i < |out2| ensures KeptFrom(c2, out2, i) {
      assert KeptFrom(c, out, i);
      var k :| IsBest(c, k) && out[i] == c[k];
      if i == p {
        if x.confidence > out[p].confidence {
          IsBestNewWinner(c, x);
          assert out2[i] == c2[|c|];
        } else {
          IsBestNotBeaten(c, x, k);
          assert out2[i] == c2[k];
        }
      } else {
        IsBestOtherCategory(c, x, k);
        assert out2[i] == c2[k];
      }
    }
  }

  /** Every entry kept by FoldKeepBest is the candidate of its category with the
      greatest confidence, and among equally confident candidates the earliest one:
      a later candidate replaces an entry only when it is strictly more confident. */
  lemma {:induction false} FoldKeepBestKeepsBest(c: seq<Estimate>)
    ensures AllBest(c, FoldKeepBest(c))
  {
    if c != [] {
      var c', x := c[..|c| - 1], c[|c| - 1];
      assert c == c' + [x];
      FoldKeepBestKeepsBest(c');
      var out' := FoldKeepBest(c');
      FoldKeepBestSnoc(c', x);
      if x.category !in Categories(out') {
        KeepBestAppends(out', x);
        AllBestAppend(c', out', x);
      } else {
        var p := CategoryAt(out', x.category);
        assert forall j :: 0 <= j < p ==> out'[j].category != x.category;
        KeepBestAtFirstMatch(out', x, p);
        AllBestMerge(c', out', x, p);
      }
    }
  }

  // ---------------------------------------------------------------------------
  // Ordering by falling confidence
  // ---------------------------------------------------------------------------

  /** Confidences never increase along `s`. */
  predicate NonIncreasing(s: seq<Estimate>) {
    forall i, j :: 0 <= i < j < |s| ==> s[i].confidence >= s[j].confidence
  }

  /** The entries of `s` whose confidence is exactly `c`, in their order in `s`. */
  function WithConfidence(s: seq<Estimate>, c: real): seq<Estimate> {
    if s == [] then []
    else (if s[0].confidence == c then [s[0]] else []) + WithConfidence(s[1..], c)
  }

  /** Inserts `x` before the first entry of `t` that is not more confident than `x`. */
  function Insert(x: Estimate, t: seq<Estimate>): (r: seq<Estimate>)
    ensures multiset(r) == multiset([x] + t)
  {
    if t == [] || x.confidence >= t[0].confidence then
      [x] + t
    else
      assert t == [t[0]] + t[1..];
      [t[0]] + Insert(x, t[1..])
  }

  lemma InsertCategories(x: Estimate, t: seq<Estimate>)
    ensures Categories(Insert(x, t)) == {x.category} + Categories(t)
  {
    var r := Insert(x, t);
    forall e ensures e in r <==> e == x || e in t {
      assert e in r <==> e in multiset(r);
      assert e in [x] + t <==> e in multiset([x] + t);
    }
    CategoriesCons(x, t);
  }

  /** Insertion adds no entry above a bound that `x` and all of `t` respect. */
  lemma {:induction false} InsertBounded(x: Estimate, t: seq<Estimate>, b: real)
    requires x.confidence <= b && forall e :: e in t ==> e.confidence <= b
    ensures forall e :: e in Insert(x, t) ==> e.confidence <= b
  {
    if t != [] && x.confidence < t[0].confidence {
      InsertBounded(x, t[1..], b);
    }
  }

  /** A list is ordered by falling confidence when its tail is and no entry of the
      tail is more confident than its head. */
  lemma NonIncreasingCons(x: Estimate, t: seq<Estimate>)
    requires NonIncreasing(t) && forall e :: e in t ==> e.confidence <= x.confidence
    ensures NonIncreasing([x] + t)
  {
    var r := [x] + t;
    forall i, j | 0 <= i < j < |r| ensures r[i].confidence >= r[j].confidence {
      assert r[j] == t[j - 1];
      if i == 0 {
        assert t[j - 1] in t;
      } else {
        assert r[i] == t[i - 1];
      }
    }
  }

  /** The tail of an ordered list is ordered and bounded by the head. */
  lemma NonIncreasingTail(t: seq<Estimate>)
    requires t != [] && NonIncreasing(t)
    ensures NonIncreasing(t[1..])
    ensures forall e :: e in t[1..] ==> e.confidence <= t[0].confidence
  {
    forall e | e in t[1..] ensures e.confidence <= t[0].confidence {
      var j :| 0 <= j < |t[1..]| && t[1..][j] == e;
      assert t[j + 1] == e;
    }
    forall i, j | 0 <= i < j < |t[1..]| ensures t[1..][i].confidence >= t[1..][j].confidence {
      assert t[1..][i] == t[i + 1] && t[1..][j] == t[j + 1];
    }
  }

  /** Inserting into a list ordered by falling confidence keeps it ordered. */
  lemma {:induction false} InsertNonIncreasing(x: Estimate, t: seq<Estimate>)
    requires NonIncreasing(t)
    ensures NonIncreasing(Insert(x, t))
  {
    if t == [] || x.confidence >= t[0].confidence {
      forall e | e in t ensures e.confidence <= x.confidence {
        if t != [] {
          assert t == [t[0]] + t[1..];
          NonIncreasingTail(t);
        }
      }
      NonIncreasingCons(x, t);
    } else {
      var rest := Insert(x, t[1..]);
      NonIncreasingTail(t);
      InsertNonIncreasing(x, t[1..]);
      InsertBounded(x, t[1..], t[0].confidence);
      NonIncreasingCons(t[0], rest);
    }
  }

  /** Inserting an entry of a new category keeps the categories distinct. */
  lemma {:induction false} InsertDistinct(x: Estimate, t: seq<Estimate>)
    requires DistinctCategories(t) && x.category !in Categories(t)
    ensures DistinctCategories(Insert(x, t))
  {
    CategoriesCons(x, t);
    if t == [] || x.confidence >= t[0].confidence {
      DistinctSplit([x] + t);
      assert ([x] + t)[1..] == t;
    } else {
      DistinctSplit(t);
      CategoriesCons(t[0], t[1..]);
      InsertDistinct(x, t[1..]);
      var rest := Insert(x, t[1..]);
      InsertCategories(x, t[1..]);
      DistinctSplit([t[0]] + rest);
      assert ([t[0]] + rest)[1..] == rest;
    }
  }

  /** Stable sort by falling confidence: insertion sort that keeps entries of equal
      confidence in their original order. */
  function SortDesc(s: seq<Estimate>): (r: seq<Estimate>)
    ensures |r| == |s| && multiset(r) == multiset(s)
  {
    if s == [] then []
    else
      assert s == [s[0]] + s[1..];
      Insert(s[0], SortDesc(s[1..]))
  }

  /** The sorted list is ordered by falling confidence, holds the same categories,
      and keeps them distinct when they were. */
  lemma {:induction false} SortDescOrdered(s: seq<Estimate>)
    ensures NonIncreasing(SortDesc(s))
    ensures Categories(SortDesc(s)) == Categories(s)
    ensures DistinctCategories(s) ==> DistinctCategories(SortDesc(s))
  {
    if s != [] {
      assert s == [s[0]] + s[1..];
      SortDescOrdered(s[1..]);
      InsertNonIncreasing(s[0], SortDesc(s[1..]));
      InsertCategories(s[0], SortDesc(s[1..]));
      CategoriesCons(s[0], s[1..]);
      if DistinctCategories(s) {
        DistinctHead(s);
        InsertDistinct(s[0], SortDesc(s[1..]));
      }
    }
  }

  lemma WithConfidenceCons(x: Estimate, t: seq<Estimate>, c: real)
    ensures WithConfidence([x] + t, c) == (if x.confidence == c then [x] else []) + WithConfidence(t, c)
  {
    assert ([x] + t)[1..] == t;
  }

  /** Insertion only moves `x` past entries of a different confidence. */
  lemma {:induction false} InsertStable(x: Estimate, t: seq<Estimate>, c: real)
    ensures WithConfidence(Insert(x, t), c) == WithConfidence([x] + t, c)
  {
    if t != [] && x.confidence < t[0].confidence {
      var rest := Insert(x, t[1..]);
      assert t == [t[0]] + t[1..];
      InsertStable(x, t[1..], c);
      WithConfidenceCons(t[0], rest, c);
      WithConfidenceCons(x, t[1..], c);
      WithConfidenceCons(x, t, c);
      WithConfidenceCons(t[0], t[1..], c);
    }
  }

  /** The sort is stable: for every confidence value, the entries having it appear in
      the output in the same order as in the input. */
  lemma {:induction false} SortDescStable(s: seq<Estimate>, c: real)
    ensures WithConfidence(SortDesc(s), c) == WithConfidence(s, c)
  {
    if s != [] {
      assert s == [s[0]] + s[1..];
      SortDescStable(s[1..], c);
      InsertStable(s[0], SortDesc(s[1..]), c);
      WithConfidenceCons(s[0], SortDesc(s[1..]), c);
      WithConfidenceCons(s[0], s[1..], c);
    }
  }

  /** Merging and sorting only reorders and drops offered estimates: every entry of
      the result was offered, and the result is sorted by falling confidence. */
  lemma MergedSortedFrom(c: seq<Estimate>)
    ensures NonIncreasing(SortDesc(FoldKeepBest(c)))
    ensures forall x :: x in SortDesc(FoldKeepBest(c)) ==> x in c
  {
    var merged := FoldKeepBest(c);
    SortDescOrdered(merged);
    FoldKeepBestKeepsBest(c);
    forall x | x in SortDesc(merged) ensures x in c {
      assert x in multiset(SortDesc(merged));
      var i :| 0 <= i < |merged| && merged[i] == x;
      assert KeptFrom(c, merged, i);
    }
  }
}
