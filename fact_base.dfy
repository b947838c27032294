/** The fact base of the expert system (base_faits.py): the attribute map filled by
    the questionnaire, its accessors, and the option tables of the questions. */
module FactBase {
  import opened Wrappers

  /** An observed attribute value: a menu answer or a yes/no answer. */
  datatype Value = Str(text: string) | Bool(flag: bool)

  type Facts = map<string, Value>

  /** `dict.get(key, default)` on the attribute map. */
  function Lookup(facts: Facts, key: string, default: Option<Value>): (r: Option<Value>)
    ensures key in facts ==> r == Some(facts[key])
    ensures key !in facts ==> r == default
  {
    if key in facts then Some(facts[key]) else default
  }

  // ---------------------------------------------------------------------------
  // Option tables of the questionnaire
  // ---------------------------------------------------------------------------

  const ScreenSizeOptions: seq<string> :=
    ["14 pouces", "15.6 pouces", "16 pouces", "17 pouces ou plus"]

  const UsageOptions: seq<string> :=
    ["Bureautique", "Multimedia", "Gaming", "Creation (video, 3D, photo)",
     "Professionnel / Developpement"]

  const ProcessorOptions: seq<string> :=
    ["Intel Core i3", "Intel Core i5", "Intel Core i7", "Intel Core i9",
     "AMD Ryzen 3", "AMD Ryzen 5", "AMD Ryzen 7", "AMD Ryzen 9",
     "Apple M1", "Apple M2", "Apple M3", "Apple M4",
     "Intel Celeron / Pentium", "Autre / Ne sait pas"]

  const CpuGenerationOptions: seq<string> :=
    ["Ancienne generation (avant 2022)", "Generation recente (2022-2023)",
     "Derniere generation (2024-2025)", "Ne sait pas"]

  const RamOptions: seq<string> :=
    ["4 Go", "8 Go", "16 Go", "32 Go", "64 Go ou plus"]

  const StorageOptions: seq<string> :=
    ["HDD uniquement", "SSD 256 Go", "SSD 512 Go", "SSD 1 To", "SSD 2 To ou plus"]

  const GraphicsOptions: seq<string> :=
    ["Graphique integre (Intel UHD, AMD Radeon integre)",
     "GPU integre Apple (M1/M2/M3/M4)",
     "NVIDIA GTX serie (GTX 1650, 1660)",
     "NVIDIA RTX entree de gamme (RTX 3050, 4050)",
     "NVIDIA RTX milieu de gamme (RTX 3060, 4060)",
     "NVIDIA RTX haut de gamme (RTX 4070, 4080, 4090)",
     "AMD Radeon RX dedie",
     "Carte professionnelle (Quadro, RTX A series)"]

  const DisplayOptions: seq<string> :=
    ["HD (1366x768)", "Full HD (1920x1080)", "2.5K / QHD (2560x1440)",
     "4K UHD (3840x2160)", "OLED Full HD", "OLED 4K"]

  const RefreshRateOptions: seq<string> :=
    ["60 Hz", "90 Hz", "120 Hz", "144 Hz", "165 Hz ou plus"]

  const BrandOptions: seq<string> :=
    ["Acer", "ASUS", "Apple", "Dell", "HP", "Lenovo", "MSI", "Razer", "Samsung",
     "Autre marque"]

  const WeightOptions: seq<string> :=
    ["Ultraportable (moins de 1.3 kg)", "Leger (1.3 kg - 2 kg)", "Standard (plus de 2 kg)"]

  /** The options offered by each menu question, aligned with ChoiceKeys. */
  const ChoiceOptions: seq<seq<string>> :=
    [ScreenSizeOptions, UsageOptions, ProcessorOptions, CpuGenerationOptions, RamOptions,
     StorageOptions, GraphicsOptions, DisplayOptions, RefreshRateOptions, BrandOptions,
     WeightOptions]

  /** The fact keys of the menu questions, in the order they are asked. */
  const ChoiceKeys: seq<string> :=
    ["taille_ecran", "usage", "processeur", "generation_cpu", "ram", "stockage",
     "carte_graphique", "ecran", "taux_rafraichissement", "marque", "poids"]

  /** The yes/no questions, in the order they are asked. */
  const FlagKeys: seq<string> :=
    ["pave_numerique", "clavier_retroeclaire", "clavier_rgb", "thunderbolt",
     "webcam_hd", "lecteur_empreinte"]

  /** Every key the questionnaire fills. */
  const QuestionnaireKeys: set<string> :=
    {"taille_ecran", "usage", "processeur", "generation_cpu", "ram", "stockage",
     "carte_graphique", "ecran", "taux_rafraichissement", "marque", "poids",
     "pave_numerique", "clavier_retroeclaire", "clavier_rgb", "thunderbolt",
     "webcam_hd", "lecteur_empreinte"}

  /** The facts one questionnaire run writes, keyed as in ChoiceKeys and FlagKeys. */
  function QuestionnaireFacts(choices: seq<string>, flags: seq<bool>): Facts
    requires |choices| == 11 && |flags| == 6
  {
    map["taille_ecran" := Str(choices[0]), "usage" := Str(choices[1]),
        "processeur" := Str(choices[2]), "generation_cpu" := Str(choices[3]),
        "ram" := Str(choices[4]), "stockage" := Str(choices[5]),
        "carte_graphique" := Str(choices[6]), "ecran" := Str(choices[7]),
        "taux_rafraichissement" := Str(choices[8]), "marque" := Str(choices[9]),
        "poids" := Str(choices[10]),
        "pave_numerique" := Bool(flags[0]), "clavier_retroeclaire" := Bool(flags[1]),
        "clavier_rgb" := Bool(flags[2]), "thunderbolt" := Bool(flags[3]),
        "webcam_hd" := Bool(flags[4]), "lecteur_empreinte" := Bool(flags[5])]
  }

  lemma QuestionnaireFactsKeys(choices: seq<string>, flags: seq<bool>)
    requires |choices| == 11 && |flags| == 6
    ensures QuestionnaireFacts(choices, flags).Keys == QuestionnaireKeys
  {
  }

  lemma MenuAnswersStored(choices: seq<string>, flags: seq<bool>)
    requires |choices| == 11 && |flags| == 6
    ensures forall i :: 0 <= i < 11 ==>
      ChoiceKeys[i] in QuestionnaireFacts(choices, flags) && QuestionnaireFacts(choices, flags)[ChoiceKeys[i]] == Str(choices[i])
  {
    var a := QuestionnaireFacts(choices, flags);
    forall i | 0 <= i < 11
      ensures ChoiceKeys[i] in a && a[ChoiceKeys[i]] == Str(choices[i])
    {
      if i < 6 {
        assert ChoiceKeys[i] == ["taille_ecran", "usage", "processeur", "generation_cpu", "ram", "stockage"][i];
      } else {
        assert ChoiceKeys[i] == ["carte_graphique", "ecran", "taux_rafraichissement", "marque", "poids"][i - 6];
      }
    }
  }

  lemma FlagAnswersStored(choices: seq<string>, flags: seq<bool>)
    requires |choices| == 11 && |flags| == 6
    ensures forall i :: 0 <= i < 6 ==>
      FlagKeys[i] in QuestionnaireFacts(choices, flags) && QuestionnaireFacts(choices, flags)[FlagKeys[i]] == Bool(flags[i])
  {
  }

  // ---------------------------------------------------------------------------
  // The store
  // ---------------------------------------------------------------------------

  /** The attribute map, updated in place by the questionnaire and by callers. */
  class FactStore {
    var facts: Facts

    constructor ()
      ensures facts == map[]
    {
      facts := map[];
    }

    /** The value stored under `key`, or `default` when there is none. */
    function Fact(key: string, default: Option<Value> := None): (r: Option<Value>)
      reads this
      ensures key in facts ==> r == Some(facts[key])
      ensures key !in facts ==> r == default
    {
      Lookup(facts, key, default)
    }

    /** Adds or overwrites one fact; every other key keeps its value. */
    method AddFact(key: string, value: Value)
      modifies this
      ensures facts == old(facts)[key := value]
      ensures forall d :: Fact(key, d) == Some(value)
      ensures forall k, d :: k != key ==> Fact(k, d) == Lookup(old(facts), k, d)
    {
      facts := facts[key := value];
    }

    /** Empties the store: afterwards every lookup yields its default. */
    method Reset()
      modifies this
      ensures facts == map[]
      ensures forall k, d :: Fact(k, d) == d
    {
      facts := map[];
    }

    /** Stores the answers of one questionnaire run: `choices[i]` is the option
        accepted for the i-th menu question of ChoiceKeys, which the menu question
        only returns from ChoiceOptions[i] (see Answers.AskChoice), and `flags[i]` the
        answer to the i-th yes/no question of FlagKeys. Afterwards every menu fact
        holds one of its menu's options. Keys outside the questionnaire keep their
        values. */
    method CollectFacts(choices: seq<string>, flags: seq<bool>)
      requires |choices| == 11 && |flags| == 6
      requires forall i :: 0 <= i < 11 ==> choices[i] in ChoiceOptions[i]
      modifies this
      ensures facts == old(facts) + QuestionnaireFacts(choices, flags)
      ensures facts.Keys == old(facts).Keys + QuestionnaireKeys
      ensures forall k :: k !in QuestionnaireKeys ==> Fact(k) == Lookup(old(facts), k, None)
      ensures forall i :: 0 <= i < 11 ==> Fact(ChoiceKeys[i]) == Some(Str(choices[i]))
      ensures forall i :: 0 <= i < 6 ==> Fact(FlagKeys[i]) == Some(Bool(flags[i]))
      ensures forall i :: 0 <= i < 11 ==>
        Fact(ChoiceKeys[i]).Some? && Fact(ChoiceKeys[i]).value.Str?
        && Fact(ChoiceKeys[i]).value.text in ChoiceOptions[i]
    {
      QuestionnaireFactsKeys(choices, flags);
      MenuAnswersStored(choices, flags);
      FlagAnswersStored(choices, flags);
      facts := facts + QuestionnaireFacts(choices, flags);
    }
  }
}
