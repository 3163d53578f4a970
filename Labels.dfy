/**
 * Positional display identities: the decimal text JavaScript gives a number
 * inside a template literal, the objective label "{m+1}.{o+1}"
 * (`renderObjectiveNumber`) and the outcome letter table `SLOLetter`.
 * The label has a parser as its partner, so that the lemmas can say it names
 * exactly one position; the letter is stated in closed form and shown to
 * differ for distinct positions.
 */
module Labels {
  import opened Wrappers
  import opened Strings

  predicate IsDigit(ch: char)
  {
    '0' <= ch <= '9'
  }

  function DigitChar(d: nat): (ch: char)
    requires d < 10
    ensures IsDigit(ch)
  {
    ('0' as int + d) as char
  }

  function DigitValue(ch: char): nat
    requires IsDigit(ch)
  {
    ch as int - '0' as int
  }

  /** Decimal digits of `n`, most significant first, without leading zeros. */
  function NatToString(n: nat): (s: string)
    ensures |s| >= 1
    ensures forall i :: 0 <= i < |s| ==> IsDigit(s[i])
  {
    if n < 10 then [DigitChar(n)] else NatToString(n / 10) + [DigitChar(n % 10)]
  }

  /** `${n}` for an integer `n`: a minus sign before the digits of a negative number. */
  function IntToString(n: int): (s: string)
    ensures |s| >= 1
    ensures forall i :: 0 <= i < |s| ==> IsDigit(s[i]) || s[i] == '-'
  {
    if n < 0 then "-" + NatToString(-n) else NatToString(n)
  }

  /** The value of a string of digits. */
  function DigitsValue(s: string): nat
    requires forall i :: 0 <= i < |s| ==> IsDigit(s[i])
  {
    if |s| == 0 then 0 else DigitsValue(s[..|s| - 1]) * 10 + DigitValue(s[|s| - 1])
  }

  /** A non-empty run of decimal digits, read back as a number. */
  function ParseNat(s: string): Option<nat>
  {
    if |s| >= 1 && forall i :: 0 <= i < |s| ==> IsDigit(s[i]) then Some(DigitsValue(s)) else None
  }

  /** An optionally signed decimal number. */
  function ParseInt(s: string): Option<int>
  {
    if |s| >= 1 && s[0] == '-' then
      match ParseNat(s[1..])
      case Some(v) => Some(0 - v as int)
      case None => None
    else
      match ParseNat(s)
      case Some(v) => Some(v as int)
      case None => None
  }

  lemma {:induction false} DigitsOfNat(n: nat)
    ensures DigitsValue(NatToString(n)) == n
  {
    if n >= 10 {
      var s := NatToString(n);
      assert s[..|s| - 1] == NatToString(n / 10);
      DigitsOfNat(n / 10);
    }
  }

  /** The decimal text of a number reads back as that number. */
  lemma IntToStringRoundTrip(n: int)
    ensures ParseInt(IntToString(n)) == Some(n)
  {
    if n < 0 {
      DigitsOfNat(-n);
      assert IntToString(n)[1..] == NatToString(-n);
    } else {
      DigitsOfNat(n);
    }
  }

  /** `renderObjectiveNumber(moduleIndex, objectiveIndex)`. */
  function ObjectiveLabel(moduleIndex: int, objectiveIndex: int): string
  {
    IntToString(moduleIndex + 1) + "." + IntToString(objectiveIndex + 1)
  }

  /** Reads a label "a.b" back as the zero-based pair (a-1, b-1). */
  function ParseLabel(s: string): Option<(int, int)>
  {
    var parts := Split(s, '.');
    if |parts| != 2 then None
    else
      match (ParseInt(parts[0]), ParseInt(parts[1]))
      case (Some(a), Some(b)) => Some((a - 1, b - 1))
      case _ => None
  }

  /** Every label, for every module and objective index and with no upper bound, names exactly its position. */
  lemma LabelRoundTrip(moduleIndex: int, objectiveIndex: int)
    ensures ParseLabel(ObjectiveLabel(moduleIndex, objectiveIndex)) == Some((moduleIndex, objectiveIndex))
  {
    var a, b := IntToString(moduleIndex + 1), IntToString(objectiveIndex + 1);
    assert ObjectiveLabel(moduleIndex, objectiveIndex) == a + ['.'] + b;
    SplitAfter(a, '.', b);
    SplitWithout(b, '.');
    IntToStringRoundTrip(moduleIndex + 1);
    IntToStringRoundTrip(objectiveIndex + 1);
  }

  /** Distinct positions get distinct labels. */
  lemma LabelInjective(m1: int, o1: int, m2: int, o2: int)
    requires ObjectiveLabel(m1, o1) == ObjectiveLabel(m2, o2)
    ensures m1 == m2 && o1 == o2
  {
    LabelRoundTrip(m1, o1);
    LabelRoundTrip(m2, o2);
  }

  /** A label holds only digits, minus signs and one dot: never a comma, blank or line break. */
  lemma LabelCharacters(moduleIndex: int, objectiveIndex: int)
    ensures var s := ObjectiveLabel(moduleIndex, objectiveIndex);
      forall i :: 0 <= i < |s| ==> IsDigit(s[i]) || s[i] == '-' || s[i] == '.'
  {
  }

  lemma ObjectiveLabelExample()
    ensures ObjectiveLabel(2, 0) == "3.1"
    ensures ObjectiveLabel(0, 9) == "1.10"
  {
    assert NatToString(10) == NatToString(1) + [DigitChar(0)];
  }

  /** The outcome letter table `SLOLetter`: thirteen letters, A to M. */
  const SloLetters: seq<string> := ["A", "B", "C", "D", "E", "F", "G", "H", "I", "J", "K", "L", "M"]

  /** `SLOLetter[i]`: a letter for the first thirteen positions, `undefined` after them. */
  function SloLetter(i: int): (r: Option<string>)
    ensures r.Some? <==> 0 <= i < 13
    ensures r.Some? ==> r.value == [('A' as int + i) as char]
  {
    if 0 <= i < |SloLetters| then Some(SloLetters[i]) else None
  }

  /** What a template literal shows for a value that may be `undefined`. */
  function Shown(v: Option<string>): string
  {
    match v
    case Some(s) => s
    case None => "undefined"
  }

  /** Distinct outcome positions get distinct letters. */
  lemma SloLetterInjective(i: int, j: int)
    requires SloLetter(i).Some? && SloLetter(i) == SloLetter(j)
    ensures i == j
  {
  }
}
