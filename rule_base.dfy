/** The rule base of the price estimator (base_regles.py): rule records, the table
    shipped with the program, and the ordered rule table with its first-match lookup,
    append and first-match delete. */
module RuleBase {
  import opened Wrappers
  import opened FactBase

  // ---------------------------------------------------------------------------
  // Rule records
  // ---------------------------------------------------------------------------

  /** What a condition accepts: one of a list of strings (a Python list), a boolean
      (a Python bool), or a single value compared by equality, which the shipped
      rules and the questionnaire only ever make a string. */
  datatype Spec = AnyOf(texts: seq<string>) | Flag(flag: bool) | Exact(value: Value)

  /** A dict of conditions, as its (key, spec) items in insertion order. */
  type Conditions = seq<(string, Spec)>

  /** One rule: the price bracket it supports (its name), the bracket's range in
      euros, a description, its three condition dicts and its base confidence. */
  datatype Rule = Rule(name: string, priceMin: int, priceMax: int, description: string,
                       required: Conditions, optional: Conditions, excluding: Conditions,
                       baseConfidence: real)

  /** The names of `rules`, in table order. */
  function Names(rules: seq<Rule>): (r: seq<string>)
    ensures |r| == |rules|
    ensures forall i :: 0 <= i < |rules| ==> r[i] == rules[i].name
  {
    if rules == [] then [] else [rules[0].name] + Names(rules[1..])
  }

  // ---------------------------------------------------------------------------
  // The shipped table
  // ---------------------------------------------------------------------------

  const EntryLevel: Rule := Rule(
    "Entree de gamme", 0, 499, "PC basique pour usage leger",
    [("processeur", AnyOf(["Intel Core i3", "AMD Ryzen 3", "Intel Celeron / Pentium"])),
     ("ram", AnyOf(["4 Go", "8 Go"])),
     ("carte_graphique", AnyOf(["Graphique integre (Intel UHD, AMD Radeon integre)"]))],
    [("stockage", AnyOf(["HDD uniquement", "SSD 256 Go"])),
     ("ecran", AnyOf(["HD (1366x768)", "Full HD (1920x1080)"])),
     ("usage", AnyOf(["Bureautique"])),
     ("generation_cpu", AnyOf(["Ancienne generation (avant 2022)"]))],
    [("processeur", AnyOf(["Intel Core i7", "Intel Core i9", "AMD Ryzen 7", "AMD Ryzen 9",
                           "Apple M1", "Apple M2", "Apple M3", "Apple M4"])),
     ("ram", AnyOf(["32 Go", "64 Go ou plus"])),
     ("carte_graphique", AnyOf(["NVIDIA RTX milieu de gamme (RTX 3060, 4060)",
                                "NVIDIA RTX haut de gamme (RTX 4070, 4080, 4090)",
                                "Carte professionnelle (Quadro, RTX A series)"])),
     ("marque", AnyOf(["Apple", "Razer"]))],
    0.75)

  const SmallBudget: Rule := Rule(
    "Petit budget", 500, 799, "PC polyvalent pour usage quotidien",
    [("processeur", AnyOf(["Intel Core i3", "Intel Core i5", "AMD Ryzen 3", "AMD Ryzen 5"])),
     ("ram", AnyOf(["8 Go"])),
     ("carte_graphique", AnyOf(["Graphique integre (Intel UHD, AMD Radeon integre)",
                                "NVIDIA GTX serie (GTX 1650, 1660)"]))],
    [("stockage", AnyOf(["SSD 256 Go", "SSD 512 Go"])),
     ("ecran", AnyOf(["Full HD (1920x1080)"])),
     ("usage", AnyOf(["Bureautique", "Multimedia"])),
     ("taux_rafraichissement", AnyOf(["60 Hz"]))],
    [("processeur", AnyOf(["Intel Core i9", "AMD Ryzen 9", "Apple M2", "Apple M3", "Apple M4"])),
     ("ram", AnyOf(["32 Go", "64 Go ou plus"])),
     ("carte_graphique", AnyOf(["NVIDIA RTX haut de gamme (RTX 4070, 4080, 4090)",
                                "Carte professionnelle (Quadro, RTX A series)"])),
     ("ecran", AnyOf(["4K UHD (3840x2160)", "OLED 4K"])),
     ("marque", AnyOf(["Apple", "Razer"]))],
    0.78)

  const GoodValue: Rule := Rule(
    "Bon rapport qualite/prix", 800, 1199, "PC performant pour la plupart des usages",
    [("processeur", AnyOf(["Intel Core i5", "Intel Core i7", "AMD Ryzen 5", "AMD Ryzen 7", "Apple M1"])),
     ("ram", AnyOf(["8 Go", "16 Go"]))],
    [("stockage", AnyOf(["SSD 512 Go", "SSD 1 To"])),
     ("carte_graphique", AnyOf(["NVIDIA GTX serie (GTX 1650, 1660)",
                                "NVIDIA RTX entree de gamme (RTX 3050, 4050)",
                                "GPU integre Apple (M1/M2/M3/M4)"])),
     ("ecran", AnyOf(["Full HD (1920x1080)", "2.5K / QHD (2560x1440)"])),
     ("usage", AnyOf(["Multimedia", "Gaming", "Professionnel / Developpement"])),
     ("taux_rafraichissement", AnyOf(["120 Hz", "144 Hz"])),
     ("generation_cpu", AnyOf(["Generation recente (2022-2023)", "Derniere generation (2024-2025)"]))],
    [("processeur", AnyOf(["Intel Celeron / Pentium"])),
     ("ram", AnyOf(["4 Go"])),
     ("carte_graphique", AnyOf(["NVIDIA RTX haut de gamme (RTX 4070, 4080, 4090)",
                                "Carte professionnelle (Quadro, RTX A series)"])),
     ("ecran", AnyOf(["OLED 4K"]))],
    0.80)

  const UpperMid: Rule := Rule(
    "Milieu/haut de gamme", 1200, 1799, "PC performant pour gaming et creation",
    [("processeur", AnyOf(["Intel Core i5", "Intel Core i7", "AMD Ryzen 5", "AMD Ryzen 7",
                           "Apple M1", "Apple M2"])),
     ("ram", AnyOf(["16 Go", "32 Go"]))],
    [("stockage", AnyOf(["SSD 512 Go", "SSD 1 To"])),
     ("carte_graphique", AnyOf(["NVIDIA RTX entree de gamme (RTX 3050, 4050)",
                                "NVIDIA RTX milieu de gamme (RTX 3060, 4060)",
                                "GPU integre Apple (M1/M2/M3/M4)",
                                "AMD Radeon RX dedie"])),
     ("ecran", AnyOf(["Full HD (1920x1080)", "2.5K / QHD (2560x1440)", "OLED Full HD"])),
     ("usage", AnyOf(["Gaming", "Creation (video, 3D, photo)", "Professionnel / Developpement"])),
     ("taux_rafraichissement", AnyOf(["120 Hz", "144 Hz", "165 Hz ou plus"])),
     ("generation_cpu", AnyOf(["Generation recente (2022-2023)", "Derniere generation (2024-2025)"])),
     ("pave_numerique", Flag(true)),
     ("clavier_retroeclaire", Flag(true))],
    [("processeur", AnyOf(["Intel Celeron / Pentium", "Intel Core i3", "AMD Ryzen 3"])),
     ("ram", AnyOf(["4 Go", "8 Go"])),
     ("ecran", AnyOf(["HD (1366x768)"]))],
    0.82)

  const HighEndCreator: Rule := Rule(
    "Haut de gamme / Createur", 1800, 2499, "PC haute performance pour professionnels et createurs",
    [("processeur", AnyOf(["Intel Core i7", "Intel Core i9", "AMD Ryzen 7", "AMD Ryzen 9",
                           "Apple M2", "Apple M3"])),
     ("ram", AnyOf(["16 Go", "32 Go"]))],
    [("stockage", AnyOf(["SSD 1 To", "SSD 2 To ou plus"])),
     ("carte_graphique", AnyOf(["NVIDIA RTX milieu de gamme (RTX 3060, 4060)",
                                "NVIDIA RTX haut de gamme (RTX 4070, 4080, 4090)",
                                "GPU integre Apple (M1/M2/M3/M4)"])),
     ("ecran", AnyOf(["2.5K / QHD (2560x1440)", "4K UHD (3840x2160)", "OLED Full HD", "OLED 4K"])),
     ("usage", AnyOf(["Gaming", "Creation (video, 3D, photo)", "Professionnel / Developpement"])),
     ("taux_rafraichissement", AnyOf(["144 Hz", "165 Hz ou plus"])),
     ("generation_cpu", AnyOf(["Derniere generation (2024-2025)"])),
     ("marque", AnyOf(["Apple", "ASUS", "MSI", "Razer", "Dell"])),
     ("thunderbolt", Flag(true)),
     ("poids", AnyOf(["Ultraportable (moins de 1.3 kg)", "Leger (1.3 kg - 2 kg)"]))],
    [("processeur", AnyOf(["Intel Celeron / Pentium", "Intel Core i3", "AMD Ryzen 3"])),
     ("ram", AnyOf(["4 Go", "8 Go"])),
     ("stockage", AnyOf(["HDD uniquement", "SSD 256 Go"])),
     ("ecran", AnyOf(["HD (1366x768)"]))],
    0.83)

  const PremiumWorkstation: Rule := Rule(
    "Premium / Workstation", 2500, 10000, "PC ultra haut de gamme pour usage intensif",
    [("processeur", AnyOf(["Intel Core i9", "AMD Ryzen 9", "Apple M3", "Apple M4"])),
     ("ram", AnyOf(["32 Go", "64 Go ou plus"]))],
    [("stockage", AnyOf(["SSD 1 To", "SSD 2 To ou plus"])),
     ("carte_graphique", AnyOf(["NVIDIA RTX haut de gamme (RTX 4070, 4080, 4090)",
                                "Carte professionnelle (Quadro, RTX A series)",
                                "GPU integre Apple (M1/M2/M3/M4)"])),
     ("ecran", AnyOf(["4K UHD (3840x2160)", "OLED 4K"])),
     ("usage", AnyOf(["Creation (video, 3D, photo)", "Professionnel / Developpement"])),
     ("taux_rafraichissement", AnyOf(["144 Hz", "165 Hz ou plus"])),
     ("generation_cpu", AnyOf(["Derniere generation (2024-2025)"])),
     ("marque", AnyOf(["Apple", "Razer", "MSI"])),
     ("thunderbolt", Flag(true))],
    [("processeur", AnyOf(["Intel Celeron / Pentium", "Intel Core i3", "Intel Core i5",
                           "AMD Ryzen 3", "AMD Ryzen 5"])),
     ("ram", AnyOf(["4 Go", "8 Go", "16 Go"])),
     ("stockage", AnyOf(["HDD uniquement", "SSD 256 Go"])),
     ("carte_graphique", AnyOf(["Graphique integre (Intel UHD, AMD Radeon integre)"])),
     ("ecran", AnyOf(["HD (1366x768)", "Full HD (1920x1080)"]))],
    0.85)

  /** A second rule for the "Milieu/haut de gamme" bracket, aimed at gaming laptops. */
  const MidGaming: Rule := Rule(
    "Milieu/haut de gamme", 1200, 1799, "PC Gaming performant",
    [("usage", AnyOf(["Gaming"])),
     ("carte_graphique", AnyOf(["NVIDIA RTX entree de gamme (RTX 3050, 4050)",
                                "NVIDIA RTX milieu de gamme (RTX 3060, 4060)"])),
     ("ram", AnyOf(["16 Go"]))],
    [("taux_rafraichissement", AnyOf(["120 Hz", "144 Hz", "165 Hz ou plus"])),
     ("processeur", AnyOf(["Intel Core i5", "Intel Core i7", "AMD Ryzen 5", "AMD Ryzen 7"])),
     ("stockage", AnyOf(["SSD 512 Go", "SSD 1 To"])),
     ("clavier_rgb", Flag(true))],
    [("carte_graphique", AnyOf(["Graphique integre (Intel UHD, AMD Radeon integre)"])),
     ("taux_rafraichissement", AnyOf(["60 Hz"]))],
    0.84)

  /** A second rule for the "Bon rapport qualite/prix" bracket: entry MacBooks. */
  const EntryMacBook: Rule := Rule(
    "Bon rapport qualite/prix", 800, 1199, "MacBook Air configuration de base",
    [("marque", AnyOf(["Apple"])),
     ("processeur", AnyOf(["Apple M1", "Apple M2"])),
     ("ram", AnyOf(["8 Go", "16 Go"]))],
    [("stockage", AnyOf(["SSD 256 Go", "SSD 512 Go"])),
     ("poids", AnyOf(["Ultraportable (moins de 1.3 kg)", "Leger (1.3 kg - 2 kg)"]))],
    [("ram", AnyOf(["32 Go", "64 Go ou plus"])),
     ("processeur", AnyOf(["Apple M3", "Apple M4"]))],
    0.88)

  /** The table a fresh rule base starts with, in this order. */
  const InitialRules: seq<Rule> :=
    [EntryLevel, SmallBudget, GoodValue, UpperMid, HighEndCreator, PremiumWorkstation,
     MidGaming, EntryMacBook]

  /** The shipped table holds eight rules, for six brackets, in this order. */
  lemma ShippedNames()
    ensures |InitialRules| == 8
    ensures Names(InitialRules)
            == ["Entree de gamme", "Petit budget", "Bon rapport qualite/prix",
                "Milieu/haut de gamme", "Haut de gamme / Createur", "Premium / Workstation",
                "Milieu/haut de gamme", "Bon rapport qualite/prix"]
  {
    var n := Names(InitialRules);
    assert n[0] == EntryLevel.name && n[1] == SmallBudget.name;
    assert n[2] == GoodValue.name && n[3] == UpperMid.name;
    assert n[4] == HighEndCreator.name && n[5] == PremiumWorkstation.name;
    assert n[6] == MidGaming.name && n[7] == EntryMacBook.name;
  }

  /** Every shipped rule has a base confidence in [0, 1] and an ordered price range. */
  lemma ShippedRulesWellFormed()
    ensures forall i :: 0 <= i < |InitialRules| ==>
      0.0 <= InitialRules[i].baseConfidence <= 1.0 && InitialRules[i].priceMin <= InitialRules[i].priceMax
  {
  }

  /** Bracket names are not unique in the shipped table: rules 4 and 7 share one,
      and so do rules 3 and 8, so the engine has to merge their results. */
  lemma ShippedDuplicateNames()
    ensures InitialRules[3].name == InitialRules[6].name
    ensures InitialRules[2].name == InitialRules[7].name
    ensures InitialRules[3] != InitialRules[6] && InitialRules[2] != InitialRules[7]
  {
  }

  // ---------------------------------------------------------------------------
  // Lookup and removal by name
  // ---------------------------------------------------------------------------

  /** The position of the first rule called `name`, if any. */
  function FirstIndex(rules: seq<Rule>, name: string): (r: Option<nat>)
    ensures r.Some? ==> r.value < |rules| && rules[r.value].name == name
    ensures r.Some? ==> forall j :: 0 <= j < r.value ==> rules[j].name != name
    ensures r.None? <==> forall j :: 0 <= j < |rules| ==> rules[j].name != name
  {
    if rules == [] then None
    else if rules[0].name == name then Some(0)
    else match FirstIndex(rules[1..], name)
      case None => None
      case Some(k) => Some(k + 1)
  }

  /** `rules` without its first rule called `name` (unchanged when there is none). */
  function WithoutFirst(rules: seq<Rule>, name: string): seq<Rule> {
    match FirstIndex(rules, name)
    case None => rules
    case Some(p) => rules[..p] + rules[p + 1..]
  }

  /** Deleting what was just appended under a fresh name gives the table back. */
  lemma RemoveUndoesAdd(rules: seq<Rule>, rule: Rule)
    requires forall j :: 0 <= j < |rules| ==> rules[j].name != rule.name
    ensures WithoutFirst(rules + [rule], rule.name) == rules
  {
    var t := rules + [rule];
    assert t[|rules|].name == rule.name;
    assert forall j :: 0 <= j < |rules| ==> t[j] == rules[j];
    assert t[..|rules|] == rules;
  }

  /** Deleting by name removes exactly one rule when some rule has that name, and
      nothing otherwise; every remaining rule was in the table. */
  lemma WithoutFirstShape(rules: seq<Rule>, name: string)
    ensures |WithoutFirst(rules, name)| == if name in Names(rules) then |rules| - 1 else |rules|
    ensures multiset(WithoutFirst(rules, name)) <= multiset(rules)
  {
    match FirstIndex(rules, name)
    case None =>
      assert name !in Names(rules);
    case Some(p) =>
      assert Names(rules)[p] == name;
      DropOne(rules, p);
  }

  /** Dropping the entry at `p` removes exactly that occurrence from the bag. */
  lemma DropOne(s: seq<Rule>, p: nat)
    requires p < |s|
    ensures multiset(s[..p] + s[p + 1..]) + multiset{s[p]} == multiset(s)
  {
    var before, after := s[..p], s[p + 1..];
    assert s == before + [s[p]] + after;
  }

  // ---------------------------------------------------------------------------
  // The rule table
  // ---------------------------------------------------------------------------

  /** The ordered rule table, changed in place by AddRule and RemoveRule. */
  class RuleTable {
    var rules: seq<Rule>

    /** A fresh table holds the shipped rules. */
    constructor ()
      ensures rules == InitialRules
    {
      rules := InitialRules;
    }

    /** The number of rules. */
    function Count(): (n: nat)
      reads this
      ensures n == |rules|
    {
      |rules|
    }

    /** The first rule called `name`, or None: a linear search in table order. */
    method FindByName(name: string) returns (r: Option<Rule>)
      ensures r.None? <==> name !in Names(rules)
      ensures r.Some? ==> r.value in rules && r.value.name == name
      ensures r.Some? ==> FirstIndex(rules, name).Some? && r.value == rules[FirstIndex(rules, name).value]
    {
      var i := 0;
      while i < |rules|
        invariant i <= |rules|
        invariant forall j :: 0 <= j < i ==> rules[j].name != name
      {
        if rules[i].name == name {
          assert FirstIndex(rules, name) == Some(i);
          return Some(rules[i]);
        }
        i := i + 1;
      }
      return None;
    }

    /** Appends one rule; absent optional or excluding conditions become empty. */
    method AddRule(name: string, priceMin: int, priceMax: int, description: string,
                   required: Conditions, optional: Option<Conditions> := None,
                   excluding: Option<Conditions> := None, baseConfidence: real := 0.75)
      modifies this
      ensures rules == old(rules) + [Rule(name, priceMin, priceMax, description, required,
                                          optional.GetOr([]), excluding.GetOr([]), baseConfidence)]
      ensures Count() == old(Count()) + 1
    {
      rules := rules + [Rule(name, priceMin, priceMax, description, required,
                             optional.GetOr([]), excluding.GetOr([]), baseConfidence)];
    }

    /** Deletes the first rule called `name`; reports whether there was one. */
    method RemoveRule(name: string) returns (removed: bool)
      modifies this
      ensures removed <==> name in Names(old(rules))
      ensures rules == WithoutFirst(old(rules), name)
      ensures Count() == if removed then old(Count()) - 1 else old(Count())
    {
      var i := 0;
      while i < |rules|
        invariant i <= |rules| && rules == old(rules)
        invariant forall j :: 0 <= j < i ==> rules[j].name != name
      {
        if rules[i].name == name {
          assert FirstIndex(rules, name) == Some(i);
          assert Names(rules)[i] == name;
          assert |rules[..i] + rules[i + 1..]| == |rules| - 1;
          rules := rules[..i] + rules[i + 1..];
          return true;
        }
        i := i + 1;
      }
      assert name !in Names(rules);
      return false;
    }
  }
}
