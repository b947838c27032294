/*
  What the questionnaire accepts as an answer (base_faits.py).

  A menu answer is a line that, once surrounding whitespace is stripped, reads as a
  decimal integer n in the sense of Python's int(); the option taken is the n-th one,
  counted from 1. A yes/no answer is stripped and lower-cased and then looked up in two
  fixed word lists. The console itself is a parameter here: the lines the user types
  are given as a sequence, and the re-asking loops consume them until one is accepted.
*/
module Answers {
  import opened Wrappers

  // ---------------------------------------------------------------------------
  // Whitespace, as Python's str.strip() and str.isspace() see it
  // ---------------------------------------------------------------------------

  /** The characters Python counts as whitespace. */
  predicate IsSpace(c: char) {
    ('\t' <= c <= '\r') || ('\U{1C}' <= c <= '\U{1F}') || c == ' '
    || c == '\U{85}' || c == '\U{A0}' || c == '\U{1680}'
    || ('\U{2000}' <= c <= '\U{200A}') || c == '\U{2028}' || c == '\U{2029}'
    || c == '\U{202F}' || c == '\U{205F}' || c == '\U{3000}'
  }

  predicate AllSpaces(s: string) {
    forall i :: 0 <= i < |s| ==> IsSpace(s[i])
  }

  /** `s` has no whitespace at either end (true of the empty string). */
  predicate Trimmed(s: string) {
    s == [] || (!IsSpace(s[0]) && !IsSpace(s[|s| - 1]))
  }

  /** `s` without its leading whitespace. */
  function StripLeft(s: string): (r: string)
    ensures |r| <= |s|
  {
    if s != [] && IsSpace(s[0]) then StripLeft(s[1..]) else s
  }

  /** `s` without its trailing whitespace. */
  function StripRight(s: string): (r: string)
    ensures |r| <= |s|
  {
    if s != [] && IsSpace(s[|s| - 1]) then StripRight(s[..|s| - 1]) else s
  }

  /** StripLeft keeps the longest suffix that does not start with whitespace. */
  lemma {:induction false} StripLeftSuffix(s: string)
    ensures StripLeft(s) == s[|s| - |StripLeft(s)|..]
    ensures AllSpaces(s[..|s| - |StripLeft(s)|])
    ensures StripLeft(s) == [] || !IsSpace(StripLeft(s)[0])
  {
    if s != [] && IsSpace(s[0]) {
      StripLeftSuffix(s[1..]);
      var k := |s| - |StripLeft(s)|;
      assert s[..k] == [s[0]] + s[1..][..k - 1];
    }
  }

  /** StripRight keeps the longest prefix that does not end with whitespace. */
  lemma {:induction false} StripRightPrefix(s: string)
    ensures StripRight(s) == s[..|StripRight(s)|]
    ensures AllSpaces(s[|StripRight(s)|..])
    ensures StripRight(s) == [] || !IsSpace(StripRight(s)[|StripRight(s)| - 1])
  {
    if s != [] && IsSpace(s[|s| - 1]) {
      var p := s[..|s| - 1];
      StripRightPrefix(p);
      var k := |StripRight(s)|;
      assert s[k..] == p[k..] + [s[|s| - 1]];
    }
  }

  /** Python's str.strip() with no argument. */
  function Strip(s: string): (r: string)
    ensures |r| <= |s|
    ensures Trimmed(r)
  {
    var l := StripLeft(s);
    var r := StripRight(l);
    StripLeftSuffix(s);
    StripRightPrefix(l);
    assert r != [] ==> r[0] == l[0];
    r
  }

  /** The whitespace Strip removes in front of `s`... */
  function LeadingSpace(s: string): string {
    s[..|s| - |StripLeft(s)|]
  }

  /** ... and the whitespace it removes behind. */
  function TrailingSpace(s: string): string {
    var l := StripLeft(s);
    l[|StripRight(l)|..]
  }

  /** Every string is its leading whitespace, its stripped core and its trailing
      whitespace. */
  lemma StripSplit(s: string)
    ensures AllSpaces(LeadingSpace(s)) && AllSpaces(TrailingSpace(s))
    ensures s == LeadingSpace(s) + Strip(s) + TrailingSpace(s)
  {
    var l := StripLeft(s);
    StripLeftSuffix(s);
    StripRightPrefix(l);
    var k, m := |s| - |l|, |StripRight(l)|;
    assert s == s[..k] + l;
    assert l == StripRight(l) + l[m..];
  }

  lemma {:induction false} StripLeftPadding(w: string, s: string)
    requires AllSpaces(w)
    ensures StripLeft(w + s) == StripLeft(s)
    decreases |w|
  {
    if w != [] {
      assert IsSpace(w[0]) && (w + s)[0] == w[0];
      assert (w + s)[1..] == w[1..] + s;
      assert StripLeft(w + s) == StripLeft(w[1..] + s);
      StripLeftPadding(w[1..], s);
    } else {
      assert w + s == s;
    }
  }

  lemma {:induction false} StripRightPadding(s: string, w: string)
    requires AllSpaces(w)
    ensures StripRight(s + w) == StripRight(s)
    decreases |w|
  {
    if w != [] {
      assert IsSpace(w[|w| - 1]) && (s + w)[|s + w| - 1] == w[|w| - 1];
      assert (s + w)[..|s + w| - 1] == s + w[..|w| - 1];
      assert StripRight(s + w) == StripRight(s + w[..|w| - 1]);
      StripRightPadding(s, w[..|w| - 1]);
    } else {
      assert s + w == s;
    }
  }

  /** Stripping removes exactly the surrounding whitespace: any string is some
      whitespace, a trimmed core and some whitespace, and the core is what remains. */
  lemma StripPadded(w1: string, a: string, w2: string)
    requires AllSpaces(w1) && AllSpaces(w2) && Trimmed(a)
    ensures Strip(w1 + a + w2) == a
  {
    assert w1 + a + w2 == w1 + (a + w2);
    StripLeftPadding(w1, a + w2);
    if a == [] {
      assert a + w2 == w2 + [];
      StripLeftPadding(w2, []);
    } else {
      assert StripLeft(a + w2) == a + w2;
      StripRightPadding(a, w2);
    }
  }

  /** Stripping twice is stripping once. */
  lemma StripIdempotent(s: string)
    ensures Strip(Strip(s)) == Strip(s)
  {
    var t := Strip(s);
    assert [] + t + [] == t;
    StripPadded([], t, []);
  }

  // ---------------------------------------------------------------------------
  // Lower case
  // ---------------------------------------------------------------------------

  function LowerChar(c: char): char {
    if 'A' <= c <= 'Z' then (c as int + 32) as char else c
  }

  /** str.lower() on the letters A-Z; every other character is kept. */
  function Lower(s: string): (r: string)
    ensures |r| == |s|
    ensures forall i :: 0 <= i < |s| ==> r[i] == LowerChar(s[i])
  {
    if s == [] then [] else [LowerChar(s[0])] + Lower(s[1..])
  }

  /** Lower-casing leaves no capital letter, so doing it twice changes nothing. */
  lemma LowerIdempotent(s: string)
    ensures forall i :: 0 <= i < |s| ==> !('A' <= Lower(s)[i] <= 'Z')
    ensures Lower(Lower(s)) == Lower(s)
  {
  }

  // ---------------------------------------------------------------------------
  // Python's int() on a base-10 string
  // ---------------------------------------------------------------------------

  predicate IsDigit(c: char) {
    '0' <= c <= '9'
  }

  /** The digits of a decimal literal as int() accepts them: at least one digit, and
      an underscore only between two digits. */
  predicate IsNumeral(t: string) {
    t != []
    && forall i {:trigger t[i]} :: 0 <= i < |t| ==>
         IsDigit(t[i]) || (t[i] == '_' && 0 < i < |t| - 1 && IsDigit(t[i - 1]) && IsDigit(t[i + 1]))
  }

  /** A numeral starts and ends with a digit. */
  lemma NumeralEnds(t: string)
    requires IsNumeral(t)
    ensures IsDigit(t[0]) && IsDigit(t[|t| - 1])
  {
  }

  /** The number a numeral denotes; underscores are ignored. */
  function NumeralValue(t: string): nat {
    if t == [] then 0
    else if t[|t| - 1] == '_' then NumeralValue(t[..|t| - 1])
    else 10 * NumeralValue(t[..|t| - 1]) + (t[|t| - 1] as int - '0' as int) % 10
  }

  /** `s` is `w1`, then `sign` (nothing, '+' or '-'), then the numeral `t`, then `w2`,
      where `w1` and `w2` are whitespace. */
  predicate SpelledNumber(s: string, w1: string, sign: string, t: string, w2: string) {
    AllSpaces(w1) && AllSpaces(w2) && (sign == "" || sign == "+" || sign == "-")
    && IsNumeral(t) && s == w1 + sign + t + w2
  }

  /** The number a sign and a numeral denote. */
  function SignedValue(sign: string, t: string): int {
    if sign == "-" then -(NumeralValue(t) as int) else NumeralValue(t)
  }

  /** int(s) on a base-10 string; None where Python raises ValueError (the limit on
      the number of digits is not modelled). A line is accepted only when it spells
      a signed numeral, and then it denotes that numeral's value; ParseSpelled gives
      the converse. */
  function ParseInt(s: string): (r: Option<int>)
    ensures r.Some? ==>
      exists w1, sign, t, w2 :: SpelledNumber(s, w1, sign, t, w2) && r.value == SignedValue(sign, t)
  {
    var t := Strip(s);
    StripSplit(s);
    var w1, w2 := LeadingSpace(s), TrailingSpace(s);
    if t != [] && (t[0] == '+' || t[0] == '-') then
      if IsNumeral(t[1..]) then
        assert t == [t[0]] + t[1..];
        assert SpelledNumber(s, w1, [t[0]], t[1..], w2);
        Some(if t[0] == '-' then -(NumeralValue(t[1..]) as int) else NumeralValue(t[1..]))
      else None
    else if IsNumeral(t) then
      assert s == w1 + "" + t + w2;
      assert SpelledNumber(s, w1, "", t, w2);
      Some(NumeralValue(t))
    else None
  }

  function DigitChar(d: nat): char
    requires d < 10
  {
    ('0' as int + d) as char
  }

  /** The usual decimal spelling of a natural number. */
  function Decimal(n: nat): (r: string)
    ensures r != [] && forall i :: 0 <= i < |r| ==> IsDigit(r[i])
    ensures NumeralValue(r) == n
  {
    if n < 10 then [DigitChar(n)]
    else
      var r := Decimal(n / 10) + [DigitChar(n % 10)];
      assert r[..|r| - 1] == Decimal(n / 10);
      r
  }

  /** Every spelling of a signed numeral is accepted, with the numeral's value; with
      ParseInt's own contract, a line is accepted exactly when it spells one. */
  lemma ParseSpelled(s: string, w1: string, sign: string, t: string, w2: string)
    requires SpelledNumber(s, w1, sign, t, w2)
    ensures ParseInt(s) == Some(SignedValue(sign, t))
  {
    if sign == "" {
      ParseUnsigned(s, w1, t, w2);
    } else {
      ParseSigned(s, w1, sign, t, w2);
    }
  }

  lemma ParseUnsigned(s: string, w1: string, t: string, w2: string)
    requires SpelledNumber(s, w1, "", t, w2)
    ensures ParseInt(s) == Some(NumeralValue(t))
  {
    NumeralEnds(t);
    assert s == w1 + t + w2;
    StripPadded(w1, t, w2);
  }

  lemma ParseSigned(s: string, w1: string, sign: string, t: string, w2: string)
    requires SpelledNumber(s, w1, sign, t, w2) && sign != ""
    ensures ParseInt(s) == Some(SignedValue(sign, t))
  {
    NumeralEnds(t);
    var u := sign + t;
    assert s == w1 + u + w2;
    assert u[0] == sign[0] && u[1..] == t && u[|u| - 1] == t[|t| - 1];
    StripPadded(w1, u, w2);
    SignedCore(s, u);
  }

  /** A stripped answer made of a sign and a numeral reads as that signed number. */
  lemma SignedCore(s: string, u: string)
    requires Strip(s) == u && u != [] && (u[0] == '+' || u[0] == '-') && IsNumeral(u[1..])
    ensures ParseInt(s) == Some(if u[0] == '-' then -(NumeralValue(u[1..]) as int) else NumeralValue(u[1..]))
  {
  }

  /** In particular int() reads an unsigned numeral whatever whitespace surrounds it. */
  lemma ParseNumeral(w1: string, t: string, w2: string)
    requires AllSpaces(w1) && AllSpaces(w2) && IsNumeral(t)
    ensures ParseInt(w1 + t + w2) == Some(NumeralValue(t))
  {
    assert w1 + t + w2 == w1 + "" + t + w2;
    ParseSpelled(w1 + t + w2, w1, "", t, w2);
  }

  /** int() reads back the decimal spelling of n. */
  lemma ParseDecimal(w1: string, n: nat, w2: string)
    requires AllSpaces(w1) && AllSpaces(w2)
    ensures ParseInt(w1 + Decimal(n) + w2) == Some(n)
    ensures ParseInt(w1 + "+" + Decimal(n) + w2) == Some(n)
    ensures ParseInt(w1 + "-" + Decimal(n) + w2) == Some(-(n as int))
  {
    var d := Decimal(n);
    assert IsNumeral(d);
    ParseNumeral(w1, d, w2);
    ParseSpelled(w1 + "+" + d + w2, w1, "+", d, w2);
    ParseSpelled(w1 + "-" + d + w2, w1, "-", d, w2);
  }

  // ---------------------------------------------------------------------------
  // Menu questions (poser_question_choix)
  // ---------------------------------------------------------------------------

  /** The option a typed line selects, or None when the line is rejected (not a
      number, or a number outside 1..|options|). */
  function ParseChoice(answer: string, options: seq<string>): (r: Option<string>)
    ensures r.Some? <==> ParseInt(answer).Some? && 1 <= ParseInt(answer).value <= |options|
    ensures r.Some? ==> r.value in options && r.value == options[ParseInt(answer).value - 1]
  {
    match ParseInt(answer)
    case None => None
    case Some(n) =>
      var index := n - 1;
      if 0 <= index < |options| then Some(options[index]) else None
  }

  /** Typing the number n (possibly padded with whitespace, possibly with a '+')
      selects the n-th option when there is one and is rejected otherwise. */
  lemma ChoiceByNumber(w1: string, n: nat, w2: string, options: seq<string>)
    requires AllSpaces(w1) && AllSpaces(w2)
    ensures ParseChoice(w1 + Decimal(n) + w2, options)
            == if 1 <= n <= |options| then Some(options[n - 1]) else None
    ensures ParseChoice(w1 + "+" + Decimal(n) + w2, options)
            == ParseChoice(w1 + Decimal(n) + w2, options)
  {
    ParseDecimal(w1, n, w2);
  }

  /** Every option of the menu can be selected by typing its position. */
  lemma EveryOptionSelectable(options: seq<string>, k: nat)
    requires k < |options|
    ensures ParseChoice(Decimal(k + 1), options) == Some(options[k])
  {
    assert [] + Decimal(k + 1) + [] == Decimal(k + 1);
    ChoiceByNumber([], k + 1, [], options);
  }

  /** The re-asking loop of a menu question: lines are read until one is accepted.
      Returns the option taken and how many lines were read; None when the input ran
      out first (where Python would fail reading). */
  method AskChoice(lines: seq<string>, options: seq<string>) returns (choice: Option<string>, used: nat)
    ensures used <= |lines|
    ensures forall i :: 0 <= i < used - 1 ==> ParseChoice(lines[i], options).None?
    ensures choice.Some? ==> 0 < used && choice == ParseChoice(lines[used - 1], options)
    ensures choice.None? ==> used == |lines| && forall i :: 0 <= i < |lines| ==> ParseChoice(lines[i], options).None?
    ensures choice.Some? ==> choice.value in options
  {
    used := 0;
    while used < |lines|
      invariant used <= |lines|
      invariant forall i :: 0 <= i < used ==> ParseChoice(lines[i], options).None?
    {
      var r := ParseChoice(lines[used], options);
      used := used + 1;
      if r.Some? {
        return r, used;
      }
    }
    return None, used;
  }

  // ---------------------------------------------------------------------------
  // Yes/no questions (poser_question_oui_non)
  // ---------------------------------------------------------------------------

  const YesWords: seq<string> := ["oui", "o", "yes", "y", "1"]
  const NoWords: seq<string> := ["non", "n", "no", "0"]

  /** true for a yes word, false for a no word, None for anything else (the
      question is then asked again). */
  function ParseYesNo(answer: string): (r: Option<bool>)
    ensures r == Some(true) <==> Lower(Strip(answer)) in YesWords
    ensures r == Some(false) <==> Lower(Strip(answer)) in NoWords
    ensures r.None? <==> Lower(Strip(answer)) !in YesWords && Lower(Strip(answer)) !in NoWords
  {
    YesNoDisjoint();
    var word := Lower(Strip(answer));
    if word in YesWords then Some(true)
    else if word in NoWords then Some(false)
    else None
  }

  /** No word is both a yes and a no, so the order of the two tests is immaterial. */
  lemma YesNoDisjoint()
    ensures forall w :: w in YesWords ==> w !in NoWords
  {
  }

  /** A line is judged by its stripped, lower-cased core alone. */
  lemma YesNoCore(w1: string, word: string, w2: string)
    requires AllSpaces(w1) && AllSpaces(w2) && Trimmed(word)
    ensures ParseYesNo(w1 + word + w2) == ParseYesNo(word)
  {
    StripPadded(w1, word, w2);
    assert [] + word + [] == word;
    StripPadded([], word, []);
  }

  /** A word with no surrounding whitespace is judged by its lower-case form. */
  lemma WordAsTyped(word: string)
    requires Trimmed(word)
    ensures Lower(Strip(word)) == Lower(word)
  {
    assert [] + word + [] == word;
    StripPadded([], word, []);
  }

  /** Each yes word is accepted as typed... */
  lemma YesWordsAccepted()
    ensures forall i :: 0 <= i < |YesWords| ==> ParseYesNo(YesWords[i]) == Some(true)
  {
    forall i | 0 <= i < |YesWords| ensures ParseYesNo(YesWords[i]) == Some(true) {
      WordAsTyped(YesWords[i]);
      assert Lower(YesWords[i]) == YesWords[i];
    }
  }

  /** ... and so is each no word, which no yes word shadows. */
  lemma NoWordsAccepted()
    ensures forall i :: 0 <= i < |NoWords| ==> ParseYesNo(NoWords[i]) == Some(false)
  {
    YesNoDisjoint();
    forall i | 0 <= i < |NoWords| ensures ParseYesNo(NoWords[i]) == Some(false) {
      WordAsTyped(NoWords[i]);
      assert Lower(NoWords[i]) == NoWords[i];
    }
  }

  /** The re-asking loop of a yes/no question. */
  method AskYesNo(lines: seq<string>) returns (answer: Option<bool>, used: nat)
    ensures used <= |lines|
    ensures forall i :: 0 <= i < used - 1 ==> ParseYesNo(lines[i]).None?
    ensures answer.Some? ==> 0 < used && answer == ParseYesNo(lines[used - 1])
    ensures answer.None? ==> used == |lines| && forall i :: 0 <= i < |lines| ==> ParseYesNo(lines[i]).None?
  {
    used := 0;
    while used < |lines|
      invariant used <= |lines|
      invariant forall i :: 0 <= i < used ==> ParseYesNo(lines[i]).None?
    {
      var r := ParseYesNo(lines[used]);
      used := used + 1;
      if r.Some? {
        return r, used;
      }
    }
    return None, used;
  }

  // ---------------------------------------------------------------------------
  // Worked answers
  // ---------------------------------------------------------------------------

  /** Menu answers: padding is ignored, 0 and numbers past the end are refused. */
  lemma ChoiceExamples()
    ensures ParseChoice(" 2\n", ["a", "b", "c"]) == Some("b")
    ensures ParseChoice("0", ["a", "b", "c"]) == None
    ensures ParseChoice("4", ["a", "b", "c"]) == None
  {
    assert " 2\n" == " " + Decimal(2) + "\n";
    ChoiceByNumber(" ", 2, "\n", ["a", "b", "c"]);
    assert "0" == [] + Decimal(0) + [];
    ChoiceByNumber([], 0, [], ["a", "b", "c"]);
    assert "4" == [] + Decimal(4) + [];
    ChoiceByNumber([], 4, [], ["a", "b", "c"]);
  }

  /** Menu answers: a negative number is refused (index -2 is not taken from the end). */
  lemma NegativeChoiceRefused()
    ensures ParseChoice("-1", ["a", "b", "c"]) == None
  {
    assert "-1" == [] + "-" + Decimal(1) + [];
    ParseDecimal([], 1, []);
  }

  /** Menu answers: a number written as a word is refused... */
  lemma WordChoiceRefused()
    ensures ParseChoice("deux", ["a", "b", "c"]) == None
  {
    assert Strip("deux") == "deux" by { StripPadded([], "deux", []); assert [] + "deux" + [] == "deux"; }
    assert !IsNumeral("deux") by { assert !IsDigit("deux"[0]); }
  }

  /** ... while int() lets "1_0" through as 10. */
  lemma UnderscoreChoiceAccepted()
    ensures ParseChoice("1_0", ["a", "b", "c", "d", "e", "f", "g", "h", "i", "j"]) == Some("j")
  {
    assert IsNumeral("1_0");
    assert NumeralValue("1_0") == 10 by {
      assert "1_0"[..2] == "1_";
      assert "1_"[..1] == "1";
      assert "1"[..0] == [];
    }
    ParseNumeral([], "1_0", []);
    assert [] + "1_0" + [] == "1_0";
  }

  /** Yes/no answers: letter case is ignored... */
  lemma CapitalsAccepted()
    ensures ParseYesNo("OUI") == Some(true)
    ensures ParseYesNo("No") == Some(false)
  {
    WordAsTyped("OUI");
    assert Lower("OUI") == "oui";
    WordAsTyped("No");
    assert Lower("No") == "no";
  }

  /** ... and so is surrounding whitespace. */
  lemma PaddingIgnored()
    ensures ParseYesNo("  OUI ") == Some(true)
  {
    assert "  OUI " == "  " + "OUI" + " ";
    YesNoCore("  ", "OUI", " ");
    CapitalsAccepted();
  }

  /** Yes/no answers: a word outside both lists is refused. */
  lemma YesNoRefused()
    ensures ParseYesNo("si") == None
  {
    WordAsTyped("si");
  }
}
