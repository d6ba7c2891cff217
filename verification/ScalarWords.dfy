/** The numbers, digits and words of the scalar classifier, in their own terms. */
module ScalarWords {
  import opened Common
  import opened Scalars

  // ----- Numbers -----

  function PowerOfTwo(k: nat): nat {
    if k == 0 then 1 else 2 * PowerOfTwo(k - 1)
  }

  lemma {:induction false} PowersAdd(a: nat, b: nat)
    ensures PowerOfTwo(a + b) == PowerOfTwo(a) * PowerOfTwo(b)
  {
    if a > 0 { PowersAdd(a - 1, b); }
  }

  lemma WordPowers()
    ensures PowerOfTwo(63) == INT64 && PowerOfTwo(64) == UINT64
  {
    assert PowerOfTwo(4) == 16 by { assert PowerOfTwo(1) == 2 && PowerOfTwo(2) == 4 && PowerOfTwo(3) == 8; }
    PowersAdd(4, 4);
    PowersAdd(8, 8);
    PowersAdd(16, 16);
    PowersAdd(32, 32);
    assert PowerOfTwo(64) == 2 * PowerOfTwo(63);
  }

  /** Digits are those of hexadecimal in both cases. */
  lemma DigitsAreHex(i: nat)
    requires i < 16
    ensures Digit("0123456789abcdef"[i]) == i && Digit("0123456789ABCDEF"[i]) == i && DigitChar(i) == "0123456789abcdef"[i]
  {
  }

  lemma {:induction false} StripPlain(p: string)
    requires '_' !in p
    ensures Strip(p) == p
  {
    if p != "" { StripPlain(p[1..]); }
  }

  lemma DigitsAreNoUnderscores(d: string, base: nat)
    requires base <= 16 && (forall i | 0 <= i < |d| :: Digit(d[i]) < base)
    ensures '_' !in d
  {
  }

  /** The plain spelling of a number in a prefixed base. */
  lemma PrefixedNumber(n: nat, letter: char, base: nat, finite: string -> bool)
    requires PrefixBase(letter) == base && base != 0
    ensures var value := ['0', letter] + Numeral(n, base);
            if n < PowerOfTwo(64) then Classify(value, finite) == Int(n) else !Classify(value, finite).Int?
  {
    var d := Numeral(n, base);
    NumeralRoundTrip(n, base);
    DigitsAreNoUnderscores(d, base);
    var value := ['0', letter] + d;
    StripPlain(value);
    assert "" + value == value;
    WordPowers();
    SpellingsRoundTrip(value, "", Prefix(letter), d, finite);
  }

  /** Hexadecimal, octal and binary spellings are read in their own base, up to the largest uint64. */
  lemma NumbersAreRead(n: nat, finite: string -> bool)
    ensures Classify("0x" + Numeral(n, 16), finite) == Int(n) <==> n < PowerOfTwo(64)
    ensures Classify("0X" + Numeral(n, 16), finite) == Int(n) <==> n < PowerOfTwo(64)
    ensures Classify("0o" + Numeral(n, 8), finite) == Int(n) <==> n < PowerOfTwo(64)
    ensures Classify("0b" + Numeral(n, 2), finite) == Int(n) <==> n < PowerOfTwo(64)
  {
    PrefixedNumber(n, 'x', 16, finite);
    PrefixedNumber(n, 'X', 16, finite);
    PrefixedNumber(n, 'o', 8, finite);
    PrefixedNumber(n, 'b', 2, finite);
  }

  lemma {:induction false} NumeralStart(n: nat, base: nat)
    requires 2 <= base <= 16 && n > 0
    ensures Numeral(n, base)[0] != '0'
  {
    if n >= base {
      DivMod(n, base, n / base, n % base);
      NumeralStart(n / base, base);
    }
  }

  /** Decimal numbers are read up to the largest uint64 without a sign, and within int64 with one. */
  lemma DecimalsAreRead(n: nat, finite: string -> bool)
    requires n > 0
    ensures Classify(Numeral(n, 10), finite) == Int(n) <==> n < PowerOfTwo(64)
    ensures Classify("+" + Numeral(n, 10), finite) == Int(n) <==> n < PowerOfTwo(63)
    ensures Classify("-" + Numeral(n, 10), finite) == Int(-(n as int)) <==> n <= PowerOfTwo(63)
  {
    assert "" + Numeral(n, 10) == Numeral(n, 10);
    FitsExactly(n);
    SignedDecimal(n, "", finite);
    SignedDecimal(n, "+", finite);
    SignedDecimal(n, "-", finite);
  }

  lemma FitsExactly(n: nat)
    ensures Fits(n, false) <==> n < PowerOfTwo(64)
    ensures Fits(n, true) <==> n < PowerOfTwo(63)
    ensures Fits(-(n as int), true) <==> n <= PowerOfTwo(63)
  {
    WordPowers();
  }

  lemma SignedDecimal(n: nat, sign: string, finite: string -> bool)
    requires n > 0 && (sign == "" || sign == "+" || sign == "-")
    ensures var m: int := if sign == "-" then -(n as int) else n;
            Classify(sign + Numeral(n, 10), finite) == Int(m) <==> Fits(m, sign != "")
  {
    var d := Numeral(n, 10);
    NumeralRoundTrip(n, 10);
    NumeralStart(n, 10);
    DigitsAreNoUnderscores(d, 10);
    StripPlain(sign + d);
    SpellingsRoundTrip(sign + d, sign, Decimal, d, finite);
  }

  // ----- Words -----

  function Upper(w: string): string {
    seq(|w|, i requires 0 <= i < |w| => if 'a' <= w[i] <= 'z' then 'A' + (w[i] - 'a') else w[i])
  }

  /** A word in lower case, capitalised or in upper case. */
  predicate Casing(value: string, w: string) {
    value == w || value == Upper(w) || (w != "" && value == Upper(w[..1]) + w[1..])
  }

  lemma CasingIs(value: string, w: string, capitalised: string, upper: string)
    requires w != "" && |capitalised| == |w| && |upper| == |w|
    requires forall i | 0 <= i < |w| :: 'a' <= w[i] <= 'z' && upper[i] == 'A' + (w[i] - 'a')
    requires capitalised[0] == upper[0] && forall i | 1 <= i < |w| :: capitalised[i] == w[i]
    ensures Casing(value, w) <==> value == w || value == capitalised || value == upper
  {
    assert Upper(w) == upper;
    assert Upper(w[..1]) + w[1..] == capitalised;
  }

  /** The boolean and null words are read before anything else. */
  lemma WordsExactly(value: string, finite: string -> bool)
    ensures Classify(value, finite) == Bool(true) <==> value in TRUE_WORDS
    ensures Classify(value, finite) == Bool(false) <==> value in FALSE_WORDS && value !in TRUE_WORDS
    ensures Classify(value, finite) == Null <==> value in NULL_WORDS && value !in FALSE_WORDS && value !in TRUE_WORDS
  {
    if ClassifyWord(value).None? && value != "" && value[0] in "+-.0123456789" { NumberIsNoWord(value, finite); }
  }

  lemma NumberIsNoWord(value: string, finite: string -> bool)
    requires value != ""
    ensures !ClassifyNumber(value, finite).Bool? && !ClassifyNumber(value, finite).Null?
  {
  }

  /** No word is both. */
  lemma WordsDiffer(value: string)
    requires value in TRUE_WORDS
    ensures value[0] == 'y' || value[0] == 'Y' || value[0] == 't' || value[0] == 'T' || value[0] == 'o' || value[0] == 'O'
    ensures value !in FALSE_WORDS
  {
    assert |value| == 2 ==> value[1] == 'n' || value[1] == 'N';
  }

  /** Yes, in all its spellings, is the true boolean. */
  lemma TrueExactly(value: string, finite: string -> bool)
    ensures Classify(value, finite) == Bool(true) <==>
            Casing(value, "y") || Casing(value, "yes") || Casing(value, "true") || Casing(value, "on")
  {
    CasingIs(value, "y", "Y", "Y");
    CasingIs(value, "yes", "Yes", "YES");
    CasingIs(value, "true", "True", "TRUE");
    CasingIs(value, "on", "On", "ON");
    WordsExactly(value, finite);
  }

  /** No, in all its spellings, is the false boolean. */
  lemma FalseExactly(value: string, finite: string -> bool)
    ensures Classify(value, finite) == Bool(false) <==>
            Casing(value, "n") || Casing(value, "no") || Casing(value, "false") || Casing(value, "off")
  {
    CasingIs(value, "n", "N", "N");
    CasingIs(value, "no", "No", "NO");
    CasingIs(value, "false", "False", "FALSE");
    CasingIs(value, "off", "Off", "OFF");
    WordsExactly(value, finite);
    if value in TRUE_WORDS { WordsDiffer(value); }
  }

  /** Null is the empty text, a tilde or the word. */
  lemma NullExactly(value: string, finite: string -> bool)
    ensures Classify(value, finite) == Null <==> value == "" || value == "~" || Casing(value, "null")
  {
    CasingIs(value, "null", "Null", "NULL");
    WordsExactly(value, finite);
  }
}
