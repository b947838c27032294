/** The inference engine (moteur_inference.py): the condition matcher, the per-rule
    evaluator and the forward-chaining driver that turns a fact map and a rule table
    into price-bracket estimates, one per bracket, most confident first. */
module Inference {
  import opened Wrappers
  import opened FactBase
  import opened RuleBase
  import opened Estimates

  // ---------------------------------------------------------------------------
  // Condition matcher (verifier_condition)
  // ---------------------------------------------------------------------------

  /** Whether the fact stored under `key` meets `spec`. A missing fact never does; a
      list spec asks for membership, a boolean or a single string for equality. */
  function Satisfies(facts: Facts, key: string, spec: Spec): (b: bool)
    ensures key !in facts ==> !b
    ensures key in facts && spec.AnyOf? ==> (b <==> facts[key].Str? && facts[key].text in spec.texts)
    ensures key in facts && spec.Flag? ==> (b <==> facts[key] == Bool(spec.flag))
    ensures key in facts && spec.Exact? ==> (b <==> facts[key] == spec.value)
  {
    match Lookup(facts, key, None)
    case None => false
    case Some(v) =>
      match spec
      case AnyOf(texts) => v.Str? && v.text in texts
      case Flag(flag) => v == Bool(flag)
      case Exact(value) => v == value
  }

  /** `g` knows every fact `f` knows, with the same value. */
  predicate Extends(g: Facts, f: Facts) {
    forall k :: k in f ==> k in g && g[k] == f[k]
  }

  /** Learning more facts never breaks a condition that already holds. */
  lemma SatisfiesMonotone(f: Facts, g: Facts, key: string, spec: Spec)
    requires Extends(g, f) && Satisfies(f, key, spec)
    ensures Satisfies(g, key, spec)
  {
  }

  // ---------------------------------------------------------------------------
  // Counting satisfied conditions
  // ---------------------------------------------------------------------------

  predicate Holds(facts: Facts, cond: (string, Spec)) {
    Satisfies(facts, cond.0, cond.1)
  }

  /** How many of the conditions `conds` hold. */
  function CountSatisfied(facts: Facts, conds: Conditions): (n: nat)
    ensures n <= |conds|
  {
    if conds == [] then 0
    else CountSatisfied(facts, conds[..|conds| - 1]) + (if Holds(facts, conds[|conds| - 1]) then 1 else 0)
  }

  /** The count reaches the number of conditions exactly when every one holds, and is
      zero exactly when none does. */
  lemma {:induction false} CountSatisfiedExtremes(facts: Facts, conds: Conditions)
    ensures CountSatisfied(facts, conds) == |conds| <==> forall i :: 0 <= i < |conds| ==> Holds(facts, conds[i])
    ensures CountSatisfied(facts, conds) == 0 <==> forall i :: 0 <= i < |conds| ==> !Holds(facts, conds[i])
  {
    if conds != [] {
      var init := conds[..|conds| - 1];
      CountSatisfiedExtremes(facts, init);
      assert forall i :: 0 <= i < |init| ==> init[i] == conds[i];
    }
  }

  /** Conditions that hold on `f` and also on `g` are counted at least as often on `g`. */
  lemma {:induction false} CountSatisfiedMonotone(f: Facts, g: Facts, conds: Conditions)
    requires forall i :: 0 <= i < |conds| && Holds(f, conds[i]) ==> Holds(g, conds[i])
    ensures CountSatisfied(f, conds) <= CountSatisfied(g, conds)
  {
    if conds != [] {
      var init := conds[..|conds| - 1];
      assert forall i :: 0 <= i < |init| ==> init[i] == conds[i];
      CountSatisfiedMonotone(f, g, init);
    }
  }

  // ---------------------------------------------------------------------------
  // The three per-rule measures
  // ---------------------------------------------------------------------------

  /** Whether some excluding condition holds (verifier_conditions_excluantes). */
  function Excluded(facts: Facts, excluding: Conditions): (b: bool)
    ensures b <==> exists i :: 0 <= i < |excluding| && Holds(facts, excluding[i])
  {
    if excluding == [] then false
    else if Holds(facts, excluding[0]) then true
    else
      var b := Excluded(facts, excluding[1..]);
      assert forall i :: 1 <= i < |excluding| ==> excluding[i] == excluding[1..][i - 1];
      b
  }

  /** The share of required conditions that hold; 1 when there are none
      (calculer_ratio_conditions_requises). */
  function RequiredRatio(facts: Facts, required: Conditions): (r: real)
    ensures 0.0 <= r <= 1.0
    ensures r == 1.0 <==> CountSatisfied(facts, required) == |required|
  {
    if required == [] then 1.0
    else
      var n := CountSatisfied(facts, required);
      RatioAtMostOne(n, |required|);
      n as real / |required| as real
  }

  lemma RatioAtMostOne(n: nat, total: nat)
    requires 0 < total && n <= total
    ensures 0.0 <= n as real / total as real <= 1.0
    ensures n as real / total as real == 1.0 <==> n == total
  {
  }

  /** The bonus the optional conditions add: 0.15 times the share of them that hold,
      and 0 when there are none (calculer_bonus_optionnels). */
  function OptionalBonus(facts: Facts, optional: Conditions): (b: real)
    ensures 0.0 <= b <= 0.15
    ensures b == 0.15 <==> optional != [] && CountSatisfied(facts, optional) == |optional|
    ensures b == 0.0 <==> CountSatisfied(facts, optional) == 0
  {
    if optional == [] then 0.0
    else
      var n := CountSatisfied(facts, optional);
      RatioAtMostOne(n, |optional|);
      (n as real / |optional| as real) * 0.15
  }

  /** The admission gate: the required ratio reaches 0.5 exactly when at least half
      of the required conditions hold. */
  lemma AdmittedIffMajority(facts: Facts, required: Conditions)
    ensures RequiredRatio(facts, required) >= 0.5 <==> 2 * CountSatisfied(facts, required) >= |required|
  {
    if required != [] {
      HalfShare(CountSatisfied(facts, required) as real, |required| as real);
    }
  }

  // Facts of real arithmetic the solver needs stated on their own.

  lemma HalfShare(n: real, t: real)
    requires 0.0 < t
    ensures n / t >= 0.5 <==> n >= 0.5 * t
  {
  }

  lemma ShareMonotone(a: real, b: real, t: real)
    requires a <= b && 0.0 < t
    ensures a / t <= b / t
    ensures (a / t) * 0.15 <= (b / t) * 0.15
  {
  }

  lemma ScaledMonotone(base: real, ratio1: real, ratio2: real)
    requires 0.0 <= base && ratio1 <= ratio2
    ensures base * (0.7 + 0.3 * ratio1) <= base * (0.7 + 0.3 * ratio2)
  {
  }

  lemma ScaledFloor(base: real, ratio: real)
    requires 0.0 <= base && 0.5 <= ratio
    ensures 0.85 * base <= base * (0.7 + 0.3 * ratio)
  {
  }

  function Min(a: real, b: real): real {
    if a <= b then a else b
  }

  lemma MinMonotone(a: real, b: real)
    requires a <= b
    ensures Min(1.0, a) <= Min(1.0, b)
  {
  }

  /** The confidence of a rule that fires, from its base confidence, its required
      ratio and its optional bonus. */
  function Confidence(base: real, ratio: real, bonus: real): (c: real)
    ensures c <= 1.0
  {
    Min(1.0, base * (0.7 + 0.3 * ratio) + bonus)
  }

  /** The confidence never drops when the ratio or the bonus grows (for a
      non-negative base confidence). */
  lemma ConfidenceMonotone(base: real, ratio1: real, bonus1: real, ratio2: real, bonus2: real)
    requires 0.0 <= base && ratio1 <= ratio2 && bonus1 <= bonus2
    ensures Confidence(base, ratio1, bonus1) <= Confidence(base, ratio2, bonus2)
  {
    ScaledMonotone(base, ratio1, ratio2);
    MinMonotone(base * (0.7 + 0.3 * ratio1) + bonus1, base * (0.7 + 0.3 * ratio2) + bonus2);
  }

  /** An admitted rule keeps at least 85% of a base confidence in [0, 1]. */
  lemma ConfidenceFloor(base: real, ratio: real, bonus: real)
    ensures 0.0 <= base <= 1.0 && 0.5 <= ratio && 0.0 <= bonus ==> 0.85 * base <= Confidence(base, ratio, bonus)
  {
    if 0.0 <= base && 0.5 <= ratio {
      ScaledFloor(base, ratio);
    }
  }

  // ---------------------------------------------------------------------------
  // Rule evaluator (evaluer_regle)
  // ---------------------------------------------------------------------------

  /** Whether `rule` fires on `facts`, and with what confidence. */
  function Evaluate(facts: Facts, rule: Rule): (r: (bool, real))
    ensures Excluded(facts, rule.excluding) ==> r == (false, 0.0)
    ensures !r.0 ==> r.1 == 0.0
    ensures r.0 <==> !Excluded(facts, rule.excluding)
                     && 2 * CountSatisfied(facts, rule.required) >= |rule.required|
    ensures r.0 ==> r.1 <= 1.0
    ensures r.0 && 0.0 <= rule.baseConfidence <= 1.0 ==> 0.85 * rule.baseConfidence <= r.1
  {
    AdmittedIffMajority(facts, rule.required);
    if Excluded(facts, rule.excluding) then (false, 0.0)
    else
      var ratio := RequiredRatio(facts, rule.required);
      if ratio < 0.5 then (false, 0.0)
      else
        var bonus := OptionalBonus(facts, rule.optional);
        ConfidenceFloor(rule.baseConfidence, ratio, bonus);
        (true, Confidence(rule.baseConfidence, ratio, bonus))
  }

  /** More satisfied required or optional conditions never lower the confidence of a
      rule that fires and stays unexcluded. */
  lemma MoreMatchesNeverLower(f: Facts, g: Facts, rule: Rule)
    requires 0.0 <= rule.baseConfidence
    requires forall i :: 0 <= i < |rule.required| && Holds(f, rule.required[i]) ==> Holds(g, rule.required[i])
    requires forall i :: 0 <= i < |rule.optional| && Holds(f, rule.optional[i]) ==> Holds(g, rule.optional[i])
    requires !Excluded(g, rule.excluding) && Evaluate(f, rule).0
    ensures Evaluate(g, rule).0 && Evaluate(f, rule).1 <= Evaluate(g, rule).1
  {
    CountSatisfiedMonotone(f, g, rule.required);
    CountSatisfiedMonotone(f, g, rule.optional);
    if rule.required != [] {
      ShareMonotone(CountSatisfied(f, rule.required) as real, CountSatisfied(g, rule.required) as real,
                    |rule.required| as real);
    }
    if rule.optional != [] {
      ShareMonotone(CountSatisfied(f, rule.optional) as real, CountSatisfied(g, rule.optional) as real,
                    |rule.optional| as real);
    }
    ConfidenceMonotone(rule.baseConfidence,
                       RequiredRatio(f, rule.required), OptionalBonus(f, rule.optional),
                       RequiredRatio(g, rule.required), OptionalBonus(g, rule.optional));
  }

  /** In particular, learning more facts never lowers the confidence of a rule that
      fires, unless the new facts exclude it. */
  lemma MoreFactsNeverLower(f: Facts, g: Facts, rule: Rule)
    requires 0.0 <= rule.baseConfidence && Extends(g, f)
    requires !Excluded(g, rule.excluding) && Evaluate(f, rule).0
    ensures Evaluate(g, rule).0 && Evaluate(f, rule).1 <= Evaluate(g, rule).1
  {
    forall i | 0 <= i < |rule.required| && Holds(f, rule.required[i]) ensures Holds(g, rule.required[i]) {
      SatisfiesMonotone(f, g, rule.required[i].0, rule.required[i].1);
    }
    forall i | 0 <= i < |rule.optional| && Holds(f, rule.optional[i]) ensures Holds(g, rule.optional[i]) {
      SatisfiesMonotone(f, g, rule.optional[i].0, rule.optional[i].1);
    }
    MoreMatchesNeverLower(f, g, rule);
  }

  // ---------------------------------------------------------------------------
  // Driver (inferer): what it computes
  // ---------------------------------------------------------------------------

  /** A rule contributes when it fires with a confidence strictly above the threshold. */
  predicate Qualifies(facts: Facts, rule: Rule, threshold: real) {
    Evaluate(facts, rule).0 && Evaluate(facts, rule).1 > threshold
  }

  /** The estimate a rule contributes at confidence `confidence`. */
  function EstimateOf(rule: Rule, confidence: real): Estimate {
    Estimate(rule.name, confidence, rule.description, rule.priceMin, rule.priceMax)
  }

  /** The estimates of the contributing rules, in table order. */
  function Qualified(facts: Facts, rules: seq<Rule>, threshold: real): (c: seq<Estimate>)
    ensures |c| <= |rules|
    ensures forall e :: e in c ==> e.confidence > threshold
  {
    if rules == [] then []
    else
      var last := rules[|rules| - 1];
      Qualified(facts, rules[..|rules| - 1], threshold)
        + (if Qualifies(facts, last, threshold) then [EstimateOf(last, Evaluate(facts, last).1)] else [])
  }

  /** An estimate is a candidate exactly when some rule of the table qualifies and
      contributes it. */
  lemma {:induction false} QualifiedMembers(facts: Facts, rules: seq<Rule>, threshold: real, e: Estimate)
    ensures e in Qualified(facts, rules, threshold) <==>
      exists i :: 0 <= i < |rules| && Qualifies(facts, rules[i], threshold)
                  && e == EstimateOf(rules[i], Evaluate(facts, rules[i]).1)
  {
    if rules != [] {
      var init := rules[..|rules| - 1];
      QualifiedMembers(facts, init, threshold, e);
      assert forall i :: 0 <= i < |init| ==> init[i] == rules[i];
    }
  }

  lemma QualifiedSnoc(facts: Facts, rules: seq<Rule>, i: nat, threshold: real)
    requires i < |rules|
    ensures Qualifies(facts, rules[i], threshold) ==>
              Qualified(facts, rules[..i + 1], threshold)
              == Qualified(facts, rules[..i], threshold) + [EstimateOf(rules[i], Evaluate(facts, rules[i]).1)]
    ensures !Qualifies(facts, rules[i], threshold) ==>
              Qualified(facts, rules[..i + 1], threshold) == Qualified(facts, rules[..i], threshold)
  {
    assert rules[..i + 1][..i] == rules[..i];
    var q := Qualified(facts, rules[..i], threshold);
    assert q + [] == q;
  }

  lemma MergeStep(facts: Facts, rules: seq<Rule>, i: nat, threshold: real)
    requires i < |rules| && Qualifies(facts, rules[i], threshold)
    ensures FoldKeepBest(Qualified(facts, rules[..i + 1], threshold))
            == KeepBest(FoldKeepBest(Qualified(facts, rules[..i], threshold)),
                        EstimateOf(rules[i], Evaluate(facts, rules[i]).1))
  {
    QualifiedSnoc(facts, rules, i, threshold);
    FoldKeepBestSnoc(Qualified(facts, rules[..i], threshold), EstimateOf(rules[i], Evaluate(facts, rules[i]).1));
  }

  lemma SkipStep(facts: Facts, rules: seq<Rule>, i: nat, threshold: real)
    requires i < |rules| && !Qualifies(facts, rules[i], threshold)
    ensures Qualified(facts, rules[..i + 1], threshold) == Qualified(facts, rules[..i], threshold)
  {
    QualifiedSnoc(facts, rules, i, threshold);
  }

  /** What inferer returns: the candidates merged one per bracket, then ordered by
      falling confidence. */
  function InferSpec(facts: Facts, rules: seq<Rule>, threshold: real): (r: seq<Estimate>)
    ensures NonIncreasing(r)
    ensures forall e :: e in r ==> e.confidence > threshold
  {
    MergedSortedFrom(Qualified(facts, rules, threshold));
    SortDesc(FoldKeepBest(Qualified(facts, rules, threshold)))
  }

  /** Sorting keeps each entry's "best of its bracket" justification. */
  lemma AllBestPermuted(c: seq<Estimate>, out: seq<Estimate>, sorted: seq<Estimate>)
    requires AllBest(c, out) && multiset(sorted) == multiset(out)
    ensures AllBest(c, sorted)
  {
    forall i | 0 <= i < |sorted| ensures KeptFrom(c, sorted, i) {
      assert sorted[i] in multiset(out);
      var j :| 0 <= j < |out| && out[j] == sorted[i];
      assert KeptFrom(c, out, j);
    }
  }

  /** The properties of inferer's result:
      - one entry per bracket, confidences never increasing;
      - exactly the brackets of the contributing rules appear;
      - each entry is its bracket's kept candidate: no contributing rule of the bracket
        is more confident, and every earlier one (in table order) is strictly less so;
      - among equal confidences the entries keep their merge order (the sort is stable);
      - the result is empty exactly when no rule contributes. */
  lemma InferCorrect(facts: Facts, rules: seq<Rule>, threshold: real)
    ensures DistinctCategories(InferSpec(facts, rules, threshold))
    ensures NonIncreasing(InferSpec(facts, rules, threshold))
    ensures Categories(InferSpec(facts, rules, threshold)) == Categories(Qualified(facts, rules, threshold))
    ensures AllBest(Qualified(facts, rules, threshold), InferSpec(facts, rules, threshold))
    ensures forall x :: WithConfidence(InferSpec(facts, rules, threshold), x)
                        == WithConfidence(FoldKeepBest(Qualified(facts, rules, threshold)), x)
    ensures InferSpec(facts, rules, threshold) == [] <==> Qualified(facts, rules, threshold) == []
  {
    var c := Qualified(facts, rules, threshold);
    var merged := FoldKeepBest(c);
    SortDescOrdered(merged);
    FoldKeepBestKeepsBest(c);
    AllBestPermuted(c, merged, SortDesc(merged));
    forall x ensures WithConfidence(SortDesc(merged), x) == WithConfidence(merged, x) {
      SortDescStable(merged, x);
    }
  }

  // ---------------------------------------------------------------------------
  // Worked examples
  // ---------------------------------------------------------------------------

  const EntryRule: Rule := Rule("Entry", 0, 499, "entry", [("cpu", AnyOf(["A", "B"]))], [], [], 0.8)

  const CpuA: Facts := map["cpu" := Str("A")]

  /** A rule shaped like EntryRule fires on CpuA at its base confidence (capped at 1). */
  lemma EntryShapeFires(rule: Rule)
    requires rule.required == EntryRule.required && rule.optional == [] && rule.excluding == []
    ensures Evaluate(CpuA, rule) == (true, Min(1.0, rule.baseConfidence))
  {
    assert Holds(CpuA, rule.required[0]);
    assert rule.required[..0] == [];
    assert CountSatisfied(CpuA, rule.required) == 1;
    assert !Excluded(CpuA, rule.excluding);
    assert RequiredRatio(CpuA, rule.required) == 1.0;
    assert OptionalBonus(CpuA, rule.optional) == 0.0;
    assert Confidence(rule.baseConfidence, 1.0, 0.0) == Min(1.0, rule.baseConfidence);
  }

  /** The candidates of a one-rule table. */
  lemma QualifiedSingle(facts: Facts, rule: Rule, threshold: real)
    ensures Qualified(facts, [rule], threshold)
            == if Qualifies(facts, rule, threshold) then [EstimateOf(rule, Evaluate(facts, rule).1)] else []
  {
    assert [rule][..0] == [];
  }

  /** One rule whose only required condition holds: confidence 0.8 x 1.0. */
  lemma EntryMatches()
    ensures InferSpec(CpuA, [EntryRule], 0.4) == [Estimate("Entry", 0.8, "entry", 0, 499)]
  {
    EntryShapeFires(EntryRule);
    QualifiedSingle(CpuA, EntryRule, 0.4);
    var q := Qualified(CpuA, [EntryRule], 0.4);
    assert q[..0] == [];
    assert FoldKeepBest(q) == q;
  }

  /** The same rule with a value it does not list: ratio 0, nothing fires. */
  lemma EntryDoesNotMatch()
    ensures InferSpec(map["cpu" := Str("C")], [EntryRule], 0.4) == []
  {
    var f := map["cpu" := Str("C")];
    assert !Holds(f, EntryRule.required[0]);
    assert CountSatisfied(f, EntryRule.required) == 0 by {
      assert EntryRule.required[..0] == [];
    }
    QualifiedSingle(f, EntryRule, 0.4);
  }

  /** The confidence must be strictly above the threshold: a rule at exactly 0.4 is
      dropped at the default threshold. */
  lemma ThresholdIsStrict()
    ensures Evaluate(CpuA, EntryRule.(baseConfidence := 0.4)) == (true, 0.4)
    ensures InferSpec(CpuA, [EntryRule.(baseConfidence := 0.4)], 0.4) == []
  {
    EntryShapeFires(EntryRule.(baseConfidence := 0.4));
    QualifiedSingle(CpuA, EntryRule.(baseConfidence := 0.4), 0.4);
  }

  /** Two candidates of one bracket, the later strictly more confident: the later
      one replaces the earlier. */
  lemma PairMerged(x: Estimate, y: Estimate)
    requires x.category == y.category && x.confidence < y.confidence
    ensures FoldKeepBest([x, y]) == [y]
  {
    FoldKeepBestSnoc([x], y);
    assert [x][..0] == [];
    KeepBestAtFirstMatch([x], y, 0);
  }

  /** The candidates of two Entry-shaped rules at 0.6 and 0.8, in table order. */
  lemma PairQualified(a: Rule, b: Rule)
    requires a == EntryRule.(baseConfidence := 0.6, description := "first")
    requires b == EntryRule.(description := "second", priceMax := 599)
    ensures Qualified(CpuA, [a, b], 0.4)
            == [Estimate("Entry", 0.6, "first", 0, 499), Estimate("Entry", 0.8, "second", 0, 599)]
  {
    EntryShapeFires(a);
    EntryShapeFires(b);
    QualifiedSingle(CpuA, a, 0.4);
    var rules := [a, b];
    assert rules[..1] == [a] && rules[..2] == rules;
    QualifiedSnoc(CpuA, rules, 1, 0.4);
  }

  /** Two rules for one bracket, at 0.6 and at 0.8: only the more confident one is
      kept, with its own description and range. */
  lemma BracketMerged()
    ensures InferSpec(CpuA,
                      [EntryRule.(baseConfidence := 0.6, description := "first"),
                       EntryRule.(description := "second", priceMax := 599)], 0.4)
            == [Estimate("Entry", 0.8, "second", 0, 599)]
  {
    var a := EntryRule.(baseConfidence := 0.6, description := "first");
    var b := EntryRule.(description := "second", priceMax := 599);
    PairQualified(a, b);
    PairMerged(Estimate("Entry", 0.6, "first", 0, 499), Estimate("Entry", 0.8, "second", 0, 599));
  }

  /** The admission gate with four required conditions: one match is not enough,
      two are. */
  lemma HalfOfFourAdmits()
    ensures !Evaluate(map["a" := Bool(true)],
                      Rule("R", 0, 1, "", [("a", Flag(true)), ("b", Flag(true)), ("c", Flag(true)), ("d", Flag(true))], [], [], 0.8)).0
    ensures Evaluate(map["a" := Bool(true), "b" := Bool(true)],
                     Rule("R", 0, 1, "", [("a", Flag(true)), ("b", Flag(true)), ("c", Flag(true)), ("d", Flag(true))], [], [], 0.8)).0
  {
    var req := [("a", Flag(true)), ("b", Flag(true)), ("c", Flag(true)), ("d", Flag(true))];
    var f1 := map["a" := Bool(true)];
    var f2 := map["a" := Bool(true), "b" := Bool(true)];
    assert Holds(f1, req[0]) && !Holds(f1, req[1]) && !Holds(f1, req[2]) && !Holds(f1, req[3]);
    assert Holds(f2, req[0]) && Holds(f2, req[1]) && !Holds(f2, req[2]) && !Holds(f2, req[3]);
    assert req[..1][..0] == [] && req[..2][..1] == req[..1] && req[..3][..2] == req[..2] && req[..4][..3] == req[..3];
    assert req[..1][0] == req[0] && req[..2][1] == req[1] && req[..3][2] == req[2];
    assert CountSatisfied(f1, req[..1]) == 1 && CountSatisfied(f2, req[..1]) == 1;
    assert CountSatisfied(f1, req[..2]) == 1 && CountSatisfied(f2, req[..2]) == 2;
    assert CountSatisfied(f1, req[..3]) == 1 && CountSatisfied(f2, req[..3]) == 2;
    assert req[..4] == req;
  }

  // ---------------------------------------------------------------------------
  // The engine object
  // ---------------------------------------------------------------------------

  /** One step of inferer's merge: a bracket not seen yet is appended; otherwise the
      first entry of the bracket is searched and replaced when `e` is strictly more
      confident. `seen` is the set of brackets present. */
  method MergeEstimate(estimates: seq<Estimate>, seen: set<string>, e: Estimate)
    returns (merged: seq<Estimate>, seenAfter: set<string>)
    requires DistinctCategories(estimates) && seen == Categories(estimates)
    ensures merged == KeepBest(estimates, e)
    ensures seenAfter == Categories(merged) == seen + {e.category}
  {
    KeepBestShape(estimates, e);
    if e.category !in seen {
      KeepBestAppends(estimates, e);
      return estimates + [e], seen + {e.category};
    }
    var j := 0;
    while j < |estimates| && !(estimates[j].category == e.category && e.confidence > estimates[j].confidence)
      invariant j <= |estimates|
      invariant forall k :: 0 <= k < j ==> !(estimates[k].category == e.category && e.confidence > estimates[k].confidence)
    {
      j := j + 1;
    }
    var p := CategoryAt(estimates, e.category);
    forall k | 0 <= k < p ensures estimates[k].category != e.category {
      assert estimates[k].category != estimates[p].category;
    }
    KeepBestAtFirstMatch(estimates, e, p);
    merged := estimates;
    if j < |estimates| {
      assert j == p;
      merged := estimates[j := e];
    }
    seenAfter := seen;
  }

  /** The engine: the fact store and rule table it reads, and the confidence
      threshold, which is its only state. */
  class InferenceEngine {
    const factStore: FactStore
    const ruleTable: RuleTable
    var threshold: real

    constructor (factStore: FactStore, ruleTable: RuleTable, threshold: real := 0.4)
      ensures this.factStore == factStore && this.ruleTable == ruleTable
      ensures this.threshold == threshold
    {
      this.factStore := factStore;
      this.ruleTable := ruleTable;
      this.threshold := threshold;
    }

    /** verifier_conditions_excluantes: stops at the first excluding condition that holds. */
    method CheckExcluding(rule: Rule) returns (excluded: bool)
      ensures excluded == Excluded(factStore.facts, rule.excluding)
    {
      var i := 0;
      while i < |rule.excluding|
        invariant i <= |rule.excluding|
        invariant forall j :: 0 <= j < i ==> !Holds(factStore.facts, rule.excluding[j])
      {
        var (key, spec) := rule.excluding[i];
        if Satisfies(factStore.facts, key, spec) {
          return true;
        }
        i := i + 1;
      }
      return false;
    }

    /** Counts the conditions of `conds` that hold, one by one. */
    method CountHolding(conds: Conditions) returns (n: nat)
      ensures n == CountSatisfied(factStore.facts, conds)
    {
      n := 0;
      var i := 0;
      while i < |conds|
        invariant i <= |conds|
        invariant n == CountSatisfied(factStore.facts, conds[..i])
      {
        assert conds[..i + 1][..i] == conds[..i];
        var (key, spec) := conds[i];
        if Satisfies(factStore.facts, key, spec) {
          n := n + 1;
        }
        i := i + 1;
      }
      assert conds[..i] == conds;
    }

    /** calculer_ratio_conditions_requises. */
    method ComputeRequiredRatio(rule: Rule) returns (ratio: real)
      ensures ratio == RequiredRatio(factStore.facts, rule.required)
    {
      if rule.required == [] {
        return 1.0;
      }
      var satisfied := CountHolding(rule.required);
      ratio := satisfied as real / |rule.required| as real;
    }

    /** calculer_bonus_optionnels. */
    method ComputeOptionalBonus(rule: Rule) returns (bonus: real)
      ensures bonus == OptionalBonus(factStore.facts, rule.optional)
    {
      if rule.optional == [] {
        return 0.0;
      }
      var satisfied := CountHolding(rule.optional);
      bonus := (satisfied as real / |rule.optional| as real) * 0.15;
    }

    /** evaluer_regle: exclusion first, then the admission gate, then the confidence. */
    method EvaluateRule(rule: Rule) returns (fires: bool, confidence: real)
      ensures (fires, confidence) == Evaluate(factStore.facts, rule)
    {
      var excluded := CheckExcluding(rule);
      if excluded {
        return false, 0.0;
      }
      var ratio := ComputeRequiredRatio(rule);
      if ratio < 0.5 {
        return false, 0.0;
      }
      confidence := rule.baseConfidence;
      confidence := confidence * (0.7 + 0.3 * ratio);
      var bonus := ComputeOptionalBonus(rule);
      confidence := Min(1.0, confidence + bonus);
      fires := true;
    }

    /** inferer: evaluates the rules in table order, keeps the contributing ones one
        per bracket (a later rule replaces its bracket's entry only when strictly more
        confident), then sorts by falling confidence. */
    method Infer() returns (estimates: seq<Estimate>)
      ensures estimates == InferSpec(factStore.facts, ruleTable.rules, threshold)
    {
      var facts, rules := factStore.facts, ruleTable.rules;
      estimates := [];
      var seen: set<string> := {};
      for i := 0 to |rules|
        invariant estimates == FoldKeepBest(Qualified(facts, rules[..i], threshold))
        invariant seen == Categories(estimates)
      {
        estimates, seen := OfferRule(rules, i, estimates, seen);
      }
      assert rules[..|rules|] == rules;
      estimates := SortDesc(estimates);
    }

    /** One pass of inferer's loop: evaluates `rules[i]` and, when it contributes,
        merges its estimate into `estimates`, whose brackets are `seen`. */
    method OfferRule(rules: seq<Rule>, i: nat, estimates: seq<Estimate>, seen: set<string>)
      returns (merged: seq<Estimate>, seenAfter: set<string>)
      requires i < |rules|
      requires estimates == FoldKeepBest(Qualified(factStore.facts, rules[..i], threshold))
      requires seen == Categories(estimates)
      ensures merged == FoldKeepBest(Qualified(factStore.facts, rules[..i + 1], threshold))
      ensures seenAfter == Categories(merged)
    {
      var fires, confidence := EvaluateRule(rules[i]);
      if fires && confidence > threshold {
        MergeStep(factStore.facts, rules, i, threshold);
        merged, seenAfter := MergeEstimate(estimates, seen, EstimateOf(rules[i], confidence));
      } else {
        SkipStep(factStore.facts, rules, i, threshold);
        merged, seenAfter := estimates, seen;
      }
    }

    /** obtenir_meilleure_estimation: the most confident estimate, None when no rule
        contributes. */
    method BestEstimate() returns (best: Option<Estimate>)
      ensures best.None? <==> Qualified(factStore.facts, ruleTable.rules, threshold) == []
      ensures best.Some? ==> best.value == InferSpec(factStore.facts, ruleTable.rules, threshold)[0]
      ensures best.Some? ==> forall e :: e in InferSpec(factStore.facts, ruleTable.rules, threshold)
                                         ==> e.confidence <= best.value.confidence
    {
      var estimates := Infer();
      InferCorrect(factStore.facts, ruleTable.rules, threshold);
      if estimates != [] {
        return Some(estimates[0]);
      }
      return None;
    }

    /** modifier_seuil_confiance: a threshold outside [0, 1] is refused. */
    method SetThreshold(newThreshold: real)
      modifies this
      ensures threshold == if 0.0 <= newThreshold <= 1.0 then newThreshold else old(threshold)
    {
      if 0.0 <= newThreshold <= 1.0 {
        threshold := newThreshold;
      }
    }
  }
}
