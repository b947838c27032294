# Laptop price-bracket expert system, modelled in Dafny

The system estimates a laptop's price bracket from its specifications. A
questionnaire fills a fact base (an attribute map) with one menu answer per
hardware attribute and one yes/no answer per feature. An ordered rule table
holds, for each rule, a bracket name, a price range and a base confidence,
plus three condition dicts: required, optional and excluding. The inference
engine works in four steps:

- It evaluates every rule against the facts.
- Any excluding match rejects the rule.
- At least half of the required conditions must hold. The confidence is
  `min(1, base * (0.7 + 0.3 * ratio) + bonus)`, and the optional conditions
  contribute up to 0.15 of bonus.
- It keeps the results strictly above a threshold (0.4 by default), keeps
  one result per bracket (the most confident, with the earliest winning a
  tie), and sorts them by falling confidence.

The pattern-matching back end has its own list of estimates, which is merged
per bracket in the same way.

Modules (one per file):

- `Wrappers` (wrappers.dfy): an `Option` type.
- `FactBase` (fact_base.dfy): attribute values and the option tables. Also
  the class `FactStore`, whose attribute map is updated in place.
- `Answers` (answers.dfy): how one typed line is accepted. This covers
  `str.strip`, ASCII `lower`, `int()` on decimal numerals and the two
  question loops, which re-ask until an answer is accepted.
- `RuleBase` (rule_base.dfy): rule records and the eight shipped rules. Also
  the class `RuleTable`, with lookup, append and delete by name.
- `Estimates` (estimates.dfy): the estimate record and the per-bracket merge
  `KeepBest`, with its left fold `FoldKeepBest`. Also the stable sort by
  falling confidence, `SortDesc`.
- `Inference` (inference.dfy): the condition matcher, the rule evaluator and
  the specification `InferSpec` of the driver. Also the class
  `InferenceEngine`, whose methods are proved equal to those functions.
- `PatternEngine` (pattern_engine.dfy): the estimate list of the
  pattern-matching back end. It is the class `PriceExpert`.

A condition dict is modelled as the sequence of its (key, spec) items in
insertion order. A spec is one of three forms:

- a list of accepted strings (`AnyOf`);
- a boolean (`Flag`);
- a single string compared by equality (`Exact`; it can also hold a boolean,
  which then behaves like `Flag`).

Confidences are mathematical reals.

`modifier_seuil_confiance` is documented as taking a threshold between 0 and 1
(moteur_inference.py:305). An out-of-range value does not raise an error: the
method prints a warning and keeps the old threshold (lines 307-311), and
`SetThreshold` models the threshold kept or taken; the printed message is not
modelled.

## Model

| member | source | states |
|---|---|---|
| FactBase.FactStore.constructor | base_faits.py:31-35 | a new fact base holds no facts |
| FactBase.Lookup | base_faits.py:308 | `dict.get`: the stored value when the key is present, the default otherwise |
| FactBase.FactStore.Fact | base_faits.py:297-308 | the stored fact when the key is present, the caller's default (None unless given) otherwise |
| FactBase.FactStore.AddFact | base_faits.py:310-318 | the key now maps to the value; every other key's lookup, default included, is as before |
| FactBase.FactStore.Reset | base_faits.py:363-365 | the store is empty, so every lookup answers its default |
| FactBase.FactStore.CollectFacts | base_faits.py:200-295 | given answers as the two question kinds accept them (each menu answer one of its menu's options), the eleven menu keys get those options, so every menu fact is an option of its menu, and the six feature keys get the yes/no answers; the key set grows by exactly the questionnaire keys; facts under other keys are untouched |
| FactBase.QuestionnaireFactsKeys | base_faits.py:213-293 | one questionnaire run writes exactly the seventeen questionnaire keys |
| FactBase.MenuAnswersStored | base_faits.py:213-266 | the i-th menu answer is stored under the i-th menu key |
| FactBase.FlagAnswersStored | base_faits.py:271-293 | the i-th yes/no answer is stored under the i-th feature key |
| Answers.Strip | base_faits.py:190 | the stripped answer is no longer than the input and has no surrounding whitespace |
| Answers.StripPadded | base_faits.py:190 | stripping whitespace padding around a trimmed word gives back the word |
| Answers.StripIdempotent | base_faits.py:164 | stripping twice is stripping once |
| Answers.StripLeftSuffix | base_faits.py:164 | left stripping removes exactly a whitespace prefix, and what remains starts with a non-space |
| Answers.StripRightPrefix | base_faits.py:164 | right stripping removes exactly a whitespace suffix, and what remains ends with a non-space |
| Answers.Lower | base_faits.py:164 | lower-casing keeps the length and maps each character separately |
| Answers.LowerIdempotent | base_faits.py:164 | a lower-cased answer holds no capital letter, and lower-casing it again changes nothing |
| Answers.ParseInt | base_faits.py:191 | a line is accepted only when it is whitespace, an optional sign, a numeral and whitespace, and its value is then that signed numeral's (every other line is refused, as int() raises ValueError) |
| Answers.ParseSpelled | base_faits.py:191 | conversely, every such spelling is accepted with exactly that value |
| Answers.StripSplit | base_faits.py:190 | any line is its leading whitespace, its stripped core and its trailing whitespace |
| Answers.ParseDecimal | base_faits.py:191 | int() reads back the decimal spelling of every natural number, signed or not and padded with whitespace (round trip with Decimal; no digit limit, see Left out) |
| Answers.ParseChoice | base_faits.py:190-198 | an answer is accepted iff it parses to a number n from 1 to the number of options, and what is returned is then exactly option n (options[n - 1]), whatever the spelling of n |
| Answers.ChoiceByNumber | base_faits.py:190-198 | typing n (padded, or with a plus sign) selects option n when n is in range and is refused otherwise |
| Answers.EveryOptionSelectable | base_faits.py:190-194 | every option of a menu can be chosen by typing its 1-based number |
| Answers.AskChoice | base_faits.py:188-198 | the menu question returns the first accepted line of input, after refusing every earlier line; no choice means every line was refused |
| Answers.ParseYesNo | base_faits.py:164-171 | yes iff the stripped, lower-cased line is a yes word; no iff it is a no word; refused iff it is neither |
| Answers.YesNoDisjoint | base_faits.py:166-169 | no word is both a yes word and a no word |
| Answers.YesNoCore | base_faits.py:164 | the yes/no answer depends only on the word once the padding is stripped |
| Answers.WordAsTyped | base_faits.py:164 | stripping leaves a trimmed word unchanged before it is lower-cased |
| Answers.YesWordsAccepted | base_faits.py:166-167 | each of oui, o, yes, y and 1 answers yes |
| Answers.NoWordsAccepted | base_faits.py:168-169 | each of non, n, no and 0 answers no |
| Answers.AskYesNo | base_faits.py:163-171 | the yes/no question returns the first accepted line of input, after refusing every earlier line |
| Answers.ChoiceExamples | base_faits.py:190-198 | " 2" picks the second of three options; 0 and 4 are refused |
| Answers.NegativeChoiceRefused | base_faits.py:191-193 | -1 parses but is out of range and is refused |
| Answers.WordChoiceRefused | base_faits.py:197 | an answer that is not a numeral is refused |
| Answers.UnderscoreChoiceAccepted | base_faits.py:191 | int() accepts a single underscore between digits, so 1_0 picks the tenth option |
| Answers.CapitalsAccepted | base_faits.py:164-169 | OUI and No are accepted, because the answer is lower-cased |
| Answers.PaddingIgnored | base_faits.py:164-167 | surrounding spaces do not prevent acceptance |
| Answers.YesNoRefused | base_faits.py:170-171 | an unknown word is refused and the question is asked again |
| RuleBase.Names | base_regles.py:317-320 | the list of rule names, in table order |
| RuleBase.ShippedNames | base_regles.py:47-296 | the shipped table holds eight rules, with these bracket names in this order |
| RuleBase.ShippedRulesWellFormed | base_regles.py:47-296 | every shipped rule has a base confidence in [0, 1] and an ordered price range |
| RuleBase.ShippedDuplicateNames | base_regles.py:143-296 | two pairs of shipped rules, each pair made of different rules, share a bracket name, so the engine must merge their results |
| RuleBase.FirstIndex | base_regles.py:317-320 | the index found holds the name and no earlier rule does; there is no index iff no rule has the name |
| RuleBase.RemoveUndoesAdd | base_regles.py:356-387 | deleting a rule just appended under a fresh name restores the table |
| RuleBase.WithoutFirstShape | base_regles.py:380-387 | deleting by name removes exactly one rule if one has the name and none otherwise; the rest is a sub-bag of the table |
| RuleBase.RuleTable.constructor | base_regles.py:36-38 | a new table holds the eight shipped rules |
| RuleBase.RuleTable.Count | base_regles.py:389-396 | the number of rules in the table |
| RuleBase.RuleTable.FindByName | base_regles.py:307-320 | the lookup answers the first rule with that name, and nothing iff no rule has it |
| RuleBase.RuleTable.AddRule | base_regles.py:322-368 | the rule is appended with missing optional and excluding dicts as empty dicts; the count grows by one |
| RuleBase.RuleTable.RemoveRule | base_regles.py:370-387 | the result is true iff some rule had the name; then the first such rule is gone and the count drops by one |
| Inference.Satisfies | moteur_inference.py:59-71 | an absent key never matches; a list spec matches a string in the list, a boolean spec the same boolean, a single-string spec an equal string |
| Inference.SatisfiesMonotone | moteur_inference.py:59-71 | a matched condition stays matched when facts are added |
| Inference.CountSatisfied | moteur_inference.py:106-111 | the count of matched conditions is at most the number of conditions |
| Inference.CountSatisfiedExtremes | moteur_inference.py:106-111 | the count equals the number of conditions iff all of them hold, and is 0 iff none holds |
| Inference.CountSatisfiedMonotone | moteur_inference.py:106-111 | when each condition that holds for one fact base holds for another, the second count is at least the first |
| Inference.Excluded | moteur_inference.py:83-89 | a rule is excluded iff at least one of its excluding conditions holds |
| Inference.RequiredRatio | moteur_inference.py:101-113 | the ratio lies in [0, 1] and is 1 iff every required condition holds (also for an empty dict) |
| Inference.OptionalBonus | moteur_inference.py:127-139 | the bonus lies in [0, 0.15]; it is 0.15 iff there are optional conditions and all hold, and 0 iff none holds |
| Inference.AdmittedIffMajority | moteur_inference.py:166-167 | the admission gate passes iff at least half of the required conditions hold |
| Inference.Confidence | moteur_inference.py:170-178 | a computed confidence never exceeds 1 |
| Inference.ConfidenceMonotone | moteur_inference.py:170-178 | a higher ratio or a higher bonus never lowers the confidence |
| Inference.ConfidenceFloor | moteur_inference.py:170-178 | once admitted, a rule keeps at least 85% of a base confidence in [0, 1] |
| Inference.Evaluate | moteur_inference.py:158-180 | a rule fires iff it is not excluded and at least half of its required conditions hold; otherwise the confidence is 0; a firing confidence is at most 1 and at least 0.85 times a base confidence in [0, 1] |
| Inference.MoreMatchesNeverLower | moteur_inference.py:158-180 | matching more required or optional conditions, without becoming excluded, never stops a rule firing or lowers its confidence |
| Inference.MoreFactsNeverLower | moteur_inference.py:158-180 | adding facts that trigger no exclusion never stops a rule firing or lowers its confidence |
| Inference.Qualified | moteur_inference.py:196-200 | the results kept have at most one entry per rule, and every confidence is strictly above the threshold |
| Inference.QualifiedMembers | moteur_inference.py:196-200 | an estimate is kept iff some rule fires with exactly that bracket, range, description and a confidence above the threshold |
| Inference.QualifiedSnoc | moteur_inference.py:196-200 | one more rule adds its estimate to the kept results iff it qualifies |
| Inference.MergeStep | moteur_inference.py:202-225 | handling a qualifying rule merges its estimate into the per-bracket list |
| Inference.SkipStep | moteur_inference.py:199-200 | a rule that does not qualify leaves the results unchanged |
| Inference.InferSpec | moteur_inference.py:193-230 | inferer's result is sorted by falling confidence and every entry in it beats the threshold |
| Inference.AllBestPermuted | moteur_inference.py:228 | reordering keeps every entry the best of its bracket |
| Inference.InferCorrect | moteur_inference.py:193-230 | the output has one entry per bracket and no others, each the most confident qualifying result (earliest on ties), sorted by falling confidence with ties in order of first report; it is empty iff nothing qualified |
| Inference.EntryShapeFires | moteur_inference.py:158-180 | a rule whose single list condition holds, with no other conditions, fires at its base confidence capped at 1 |
| Inference.QualifiedSingle | moteur_inference.py:196-200 | a one-rule table yields its estimate iff the rule qualifies |
| Inference.EntryMatches | moteur_inference.py:182-230 | the one-rule example with cpu A gives exactly the Entry bracket at confidence 0.8 |
| Inference.EntryDoesNotMatch | moteur_inference.py:166-167 | when the only required condition fails, there is no estimate |
| Inference.ThresholdIsStrict | moteur_inference.py:199 | a rule firing at exactly the threshold is dropped |
| Inference.BracketMerged | moteur_inference.py:202-225 | two rules of one bracket give one estimate, the more confident one |
| Inference.HalfOfFourAdmits | moteur_inference.py:166-167 | with four required conditions, one match (0.25) is refused and two matches (0.5) fire |
| Inference.MergeEstimate | moteur_inference.py:202-225 | merging one estimate appends a new bracket, or replaces the bracket's entry when it is strictly more confident; the seen set stays the list's brackets |
| Inference.InferenceEngine.constructor | moteur_inference.py:35-46 | the engine holds the given fact and rule bases and threshold, 0.4 by default |
| Inference.InferenceEngine.CheckExcluding | moteur_inference.py:73-89 | the loop answers exactly whether the rule is excluded |
| Inference.InferenceEngine.CountHolding | moteur_inference.py:106-111 | the loop counts exactly the matched conditions |
| Inference.InferenceEngine.ComputeRequiredRatio | moteur_inference.py:91-113 | the computed ratio is the required ratio of the facts |
| Inference.InferenceEngine.ComputeOptionalBonus | moteur_inference.py:115-139 | the computed bonus is the optional bonus of the facts |
| Inference.InferenceEngine.EvaluateRule | moteur_inference.py:141-180 | the evaluation is the rule's verdict and confidence on the current facts |
| Inference.InferenceEngine.Infer | moteur_inference.py:182-230 | the loop returns the merged and sorted estimate list specified by InferSpec, which InferCorrect characterises |
| Inference.InferenceEngine.OfferRule | moteur_inference.py:196-225 | handling rule i carries the per-bracket list from the first i rules to the first i + 1 |
| Inference.InferenceEngine.BestEstimate | moteur_inference.py:286-298 | there is no best estimate iff nothing qualified; otherwise it is the head of the inferred list and no estimate is more confident |
| Inference.InferenceEngine.SetThreshold | moteur_inference.py:300-311 | a threshold in [0, 1] is taken; any other value leaves the threshold unchanged |
| Estimates.KeepBest | regles.py:600-621 | merging one report grows the list by at most one entry, and only by appending the report; either the report is kept or the list is unchanged |
| Estimates.KeepBestShape | regles.py:600-621 | merging one estimate adds its bracket to the brackets, grows the list only for a new bracket, and keeps brackets distinct |
| Estimates.KeepBestAppends | regles.py:619-621 | a report for a new bracket is appended at the end |
| Estimates.KeepBestAtFirstMatch | regles.py:600-609 | a report for a known bracket replaces that bracket's entry iff it is strictly more confident, and nothing else changes |
| Estimates.FoldKeepBest | regles.py:600-621 | merging a sequence of reports yields distinct brackets, exactly those reported |
| Estimates.FoldKeepBestKeepsBest | regles.py:600-621 | after any sequence of reports, each entry is the most confident report of its bracket, earliest on ties |
| Estimates.SortDesc | regles.py:630 | sorting keeps the length and the multiset of estimates |
| Estimates.MergedSortedFrom | moteur_inference.py:193-228 | every entry of the merged and sorted list was offered, and the list is sorted by falling confidence |
| Estimates.SortDescOrdered | regles.py:630 | sorting yields a permutation in non-increasing confidence |
| Estimates.SortDescStable | regles.py:630 | the sort is stable: reports of equal confidence keep their relative order |
| Estimates.InsertStable | regles.py:630 | inserting one report keeps the order of the entries with each confidence |
| Estimates.InsertNonIncreasing | regles.py:630 | inserting into a sorted list keeps it sorted |
| Estimates.InsertDistinct | regles.py:630 | inserting a report of a new bracket keeps brackets distinct |
| PatternEngine.PriceExpert.constructor | regles.py:49-52 | a new back end holds no estimates |
| PatternEngine.PriceExpert.AddEstimate | regles.py:585-621 | the report is merged into the bracket's entry; afterwards brackets are distinct and each entry is the most confident report of its bracket since the last reset |
| PatternEngine.PriceExpert.SortedEstimates | regles.py:623-630 | the estimates come back as a permutation in non-increasing confidence, with equal confidences in stored order |
| PatternEngine.PriceExpert.ResetEstimates | regles.py:632-634 | the estimate list is emptied |

## Left out

- The graphical and console front ends (gui.py, main.py), the package file and the
  experta-based facts (faits.py) are not part of this model. The same holds for
  the pattern-matching rules of regles.py (its `@Rule`/`@DefFacts` methods and
  `GammeExclue`) and every `afficher_*` or printing routine.
- Confidences are reals. IEEE rounding of `base * (0.7 + 0.3 * ratio) + bonus`
  and of the ratio division is not modelled.
- Keyboard input is a parameter: the sequence of typed lines. Running out of
  lines (end of input) ends a question with no answer instead of raising an
  error.
- CollectFacts receives the answers that the question loops accepted, so its
  precondition asks each menu answer to be an option of its menu, as
  Answers.AskChoice guarantees. Its seventeen successive writes are modelled
  as one map merge, which gives the same final map.
- Answers.ParseInt: does not model the limit on the number of digits that
  `int()` accepts (4300 by default since Python 3.11, configurable through
  `sys.set_int_max_str_digits`, and absent from older versions). A line of
  more digits, which such an interpreter refuses with ValueError, is accepted
  by the model; so Answers.ParseDecimal, Answers.ParseSpelled and
  Answers.ParseChoice (a numeral padded with thousands of leading zeros)
  promise more than such an interpreter does.
- Answers.ParseInt accepts only ASCII digits. `int()` also accepts other
  Unicode decimal digits, and those are left out.
- Answers.Lower folds only the ASCII capitals. Python's `lower` also folds
  other letters, and that is left out. Every accepted yes/no word is ASCII.
- Facts are strings or booleans, the only values the questionnaire stores.
  `obtenir_fait` with a default and `ajouter_fait` take such a value.
- A list spec holds strings only, which is the case for every shipped rule.
  Lists holding other values are not modelled.
- Specs other than a list of strings, a boolean or a string (numbers, None,
  tuples), which `ajouter_regle` would accept, are not modelled, and neither
  is Python's `==` between booleans and numbers (a spec `1` matching a stored
  `True` at moteur_inference.py:71).
- `obtenir_regles` returns the table's own list. The model reads the `rules`
  field in its place, and the aliasing of that list is not modelled.
- Inference.InferenceEngine.Infer reads the fact base and the rule table but
  does not change them. The model does not capture rules added while an
  inference runs.
