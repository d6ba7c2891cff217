/** Floating-point spellings: which texts the scalar classifier hands to the conversion, and which it never does. */
module ScalarFloats {
  import opened Common
  import opened Scalars
  import ScalarWords

  predicate DecimalDigits(d: string) {
    forall i | 0 <= i < |d| :: '0' <= d[i] <= '9'
  }

  predicate Sign(sign: string) {
    sign == "" || sign == "+" || sign == "-"
  }

  /** Nothing, or a letter, an optional sign and digits. */
  predicate Power(letter: string, sign: string, d: string) {
    && (letter == "" ==> sign == "" && d == "")
    && (letter != "" ==> (letter == "e" || letter == "E") && Sign(sign) && d != "" && DecimalDigits(d))
  }

  lemma {:induction false} RunOfDigits(d: string, rest: string)
    requires DecimalDigits(d) && (rest != "" ==> !('0' <= rest[0] <= '9'))
    ensures DigitRun(d + rest) == |d|
  {
    if d == "" {
      assert d + rest == rest;
    } else {
      assert (d + rest)[0] == d[0] && (d + rest)[1..] == d[1..] + rest;
      RunOfDigits(d[1..], rest);
    }
  }

  /** Digits that may be separated by single underscores. */
  predicate Spaced(d: string) {
    forall i | 0 <= i < |d| :: '0' <= d[i] <= '9' || (d[i] == '_' && i + 1 < |d| && '0' <= d[i + 1] <= '9')
  }

  /** Nothing, or a letter, an optional sign and such digits, the first of them no underscore. */
  predicate SpacedPower(letter: string, sign: string, d: string) {
    && (letter == "" ==> sign == "" && d == "")
    && (letter != "" ==> (letter == "e" || letter == "E") && Sign(sign) && d != "" && '0' <= d[0] <= '9' && Spaced(d))
  }

  lemma {:induction false} SpacedRunOfDigits(d: string, rest: string)
    requires Spaced(d) && (rest != "" ==> rest[0] == 'e' || rest[0] == 'E')
    ensures SpacedRun(d + rest) == |d|
    decreases |d|
  {
    if d == "" {
      assert d + rest == rest;
    } else if d[0] == '_' {
      assert (d + rest)[0] == '_' && (d + rest)[1] == d[1] && (d + rest)[2..] == d[2..] + rest;
      SpacedRunOfDigits(d[2..], rest);
    } else {
      assert (d + rest)[0] == d[0] && (d + rest)[1..] == d[1..] + rest;
      SpacedRunOfDigits(d[1..], rest);
    }
  }

  /** The digits behind an exponent letter and its sign. */
  lemma PowerTail(letter: string, sign: string, d: string)
    requires (letter == "e" || letter == "E") && Sign(sign) && d != "" && '0' <= d[0] <= '9'
    ensures var x := letter + sign + d; x[0] == letter[0] && Unsigned(x[1..]) == d
  {
    var x := letter + sign + d;
    assert x[1..] == sign + d;
    if sign == "" { assert sign + d == d && d[0] != '+' && d[0] != '-'; } else { assert (sign + d)[1..] == d; }
  }

  lemma PowerIsExponent(letter: string, sign: string, d: string)
    requires Power(letter, sign, d)
    ensures Exponent(letter + sign + d)
  {
    if letter != "" {
      PowerTail(letter, sign, d);
      RunOfDigits(d, "");
      assert d + "" == d;
    }
  }

  /** An unsigned decimal: digits around a point, or digits and an exponent. */
  function Body(whole: string, point: bool, part: string, power: string): string {
    whole + (if point then "." + part else "") + power
  }

  predicate Decimal(whole: string, point: bool, part: string) {
    DecimalDigits(whole) && DecimalDigits(part) && whole + part != "" && (!point ==> part == "")
  }

  /** An exponent part, or none. */
  predicate PowerText(power: string) {
    Exponent(power) && (power != "" ==> power[0] == 'e' || power[0] == 'E')
  }

  lemma PointLiteral(plain: string, whole: string, part: string, power: string)
    requires Unsigned(plain) == whole + ("." + part + power) && DecimalDigits(whole) && DecimalDigits(part) && whole + part != ""
    requires PowerText(power)
    ensures DecimalLiteral(plain)
  {
    var body, tail := Unsigned(plain), "." + part + power;
    assert tail[0] == '.';
    RunOfDigits(whole, tail);
    assert body[|whole|..] == tail && tail[1..] == part + power;
    RunOfDigits(part, power);
    assert tail[1 + |part|..] == power;
  }

  lemma WholeLiteral(plain: string, whole: string, power: string)
    requires Unsigned(plain) == whole + power && DecimalDigits(whole) && whole != "" && PowerText(power)
    ensures DecimalLiteral(plain)
  {
    RunOfDigits(whole, power);
    assert Unsigned(plain)[|whole|..] == power;
  }

  lemma BodyParts(whole: string, point: bool, part: string, power: string)
    ensures Body(whole, point, part, power) == if point then whole + ("." + part + power) else whole + power
  {
  }

  lemma BodyIsLiteral(plain: string, whole: string, point: bool, part: string, power: string)
    requires Unsigned(plain) == Body(whole, point, part, power) && Decimal(whole, point, part) && PowerText(power)
    ensures DecimalLiteral(plain)
  {
    BodyParts(whole, point, part, power);
    if point {
      PointLiteral(plain, whole, part, power);
    } else {
      assert whole + part == whole;
      WholeLiteral(plain, whole, power);
    }
  }

  lemma PowerIsText(letter: string, sign: string, d: string)
    requires Power(letter, sign, d)
    ensures PowerText(letter + sign + d)
  {
    PowerIsExponent(letter, sign, d);
    if letter != "" { PowerTail(letter, sign, d); }
  }

  lemma UnsignedBody(sign: string, whole: string, point: bool, part: string, power: string)
    requires Sign(sign) && Decimal(whole, point, part)
    ensures Unsigned(sign + Body(whole, point, part, power)) == Body(whole, point, part, power)
  {
    var body := Body(whole, point, part, power);
    assert body != "" && body[0] == if whole != "" then whole[0] else '.';
    if sign == "" { assert sign + body == body; } else { assert (sign + body)[1..] == body; }
  }

  /** A character that is no decimal digit and no base prefix: no integer of any base. */
  lemma OneStrangeCharacter(body: string, k: nat)
    requires k < |body| && Digit(body[k]) >= 10 && (|body| >= 2 ==> PrefixBase(body[1]) == 0)
    ensures ParseBody(body) == None
  {
  }

  lemma BodyIsNoInteger(sign: string, whole: string, point: bool, part: string, letter: string, psign: string, d: string)
    requires Sign(sign) && Decimal(whole, point, part) && Power(letter, psign, d) && (point || letter != "")
    ensures ParseInteger(sign + Body(whole, point, part, letter + psign + d)) == None
  {
    var power := letter + psign + d;
    var body := Body(whole, point, part, power);
    UnsignedBody(sign, whole, point, part, power);
    AfterWhole(whole, point, part, letter, psign, d);
    OneStrangeCharacter(body, |whole|);
  }

  lemma AfterWhole(whole: string, point: bool, part: string, letter: string, psign: string, d: string)
    requires Decimal(whole, point, part) && Power(letter, psign, d) && (point || letter != "")
    ensures var body := Body(whole, point, part, letter + psign + d);
            1 < |body| && |whole| < |body| && Digit(body[|whole|]) >= 10 && PrefixBase(body[1]) == 0
  {
    var body := Body(whole, point, part, letter + psign + d);
    var tail := (if point then "." + part else "") + (letter + psign + d);
    assert body == whole + tail && tail[0] == if point then '.' else letter[0];
    if |whole| >= 2 { assert body[1] == whole[1]; }
    else if whole == "" { assert body[1] == part[0]; }
  }

  /** A sign, a point, both or neither, and then a digit. */
  predicate NumberStart(value: string) {
    || (|value| >= 1 && '0' <= value[0] <= '9')
    || (|value| >= 2 && (value[0] == '+' || value[0] == '-' || value[0] == '.') && '0' <= value[1] <= '9')
    || (|value| >= 3 && (value[0] == '+' || value[0] == '-') && value[1] == '.' && '0' <= value[2] <= '9')
  }

  /** A text that starts like a number is no word. */
  lemma NumberIsNoWord(value: string)
    requires NumberStart(value)
    ensures ClassifyWord(value).None?
  {
  }

  lemma NoBinaryPrefix(sign: string, whole: string, point: bool, part: string, letter: string, psign: string, d: string)
    requires Sign(sign) && Decimal(whole, point, part) && Power(letter, psign, d) && (point || letter != "")
    ensures LegacyBinary(sign + Body(whole, point, part, letter + psign + d)) == None
  {
    var body := Body(whole, point, part, letter + psign + d);
    AfterWhole(whole, point, part, letter, psign, d);
    assert body[1] != 'b';
    if sign == "" { assert sign + body == body; }
    else { assert (sign + body)[0] == sign[0] && (sign + body)[1..] == body; }
  }

  /** The value is this text with underscores anywhere after its first character. */
  predicate Writes(value: string, plain: string) {
    value != "" && value[0] != '_' && Strip(value) == plain
  }

  /**
   Digits with a point or an exponent, any sign and any underscores after the first character are a
   float exactly if the conversion finds them finite, and are a text otherwise; never an integer, a
   boolean or null.
   */
  lemma DecimalsAreFloats(value: string, sign: string, whole: string, point: bool, part: string, letter: string, psign: string,
                          d: string, finite: string -> bool)
    requires Sign(sign) && Decimal(whole, point, part) && whole + sign != "" && Power(letter, psign, d) && (point || letter != "")
    requires Writes(value, sign + Body(whole, point, part, letter + psign + d))
    ensures var plain := sign + Body(whole, point, part, letter + psign + d);
            Classify(value, finite) == if finite(plain) then Float else Text
  {
    var plain := sign + Body(whole, point, part, letter + psign + d);
    StartsLikeNumber(sign, whole, point, part, letter + psign + d);
    assert ClassifyWord(value).None? && value[0] == plain[0] by { WrittenNumberIsNoWord(value, plain); }
    assert DecimalLiteral(plain) by { SpelledLiteral(sign, whole, point, part, letter, psign, d); }
    assert ParseInteger(plain) == None by { BodyIsNoInteger(sign, whole, point, part, letter, psign, d); }
    assert LegacyBinary(plain) == None by { NoBinaryPrefix(sign, whole, point, part, letter, psign, d); }
    PlainPath(value, plain, finite);
  }

  /** A sign in front of digits is written without a point behind it, and no word starts with a digit. */
  lemma WrittenNumberIsNoWord(value: string, plain: string)
    requires Writes(value, plain) && plain != ""
    requires NumberStart(plain) && plain[0] != '.'
    ensures ClassifyWord(value).None? && value[0] == plain[0]
  {
    StripKeepsStart(value);
    if value in NONFINITE_WORDS {
      ScalarWords.StripPlain(value);
      NumberIsNoWord(value);
    }
  }

  lemma SpelledLiteral(sign: string, whole: string, point: bool, part: string, letter: string, psign: string, d: string)
    requires Sign(sign) && Decimal(whole, point, part) && Power(letter, psign, d)
    ensures DecimalLiteral(sign + Body(whole, point, part, letter + psign + d))
  {
    var power := letter + psign + d;
    assert PowerText(power) by { PowerIsText(letter, psign, d); }
    UnsignedBody(sign, whole, point, part, power);
    BodyIsLiteral(sign + Body(whole, point, part, power), whole, point, part, power);
  }

  lemma BodyStarts(whole: string, point: bool, part: string, power: string)
    requires Decimal(whole, point, part)
    ensures var body := Body(whole, point, part, power);
            if whole != "" then body != "" && '0' <= body[0] <= '9' else |body| >= 2 && body[0] == '.' && '0' <= body[1] <= '9'
  {
    BodyParts(whole, point, part, power);
  }

  lemma StartsLikeNumber(sign: string, whole: string, point: bool, part: string, power: string)
    requires Sign(sign) && Decimal(whole, point, part) && whole + sign != ""
    ensures var value := sign + Body(whole, point, part, power); NumberStart(value) && value[0] in "+-0123456789"
  {
    BodyStarts(whole, point, part, power);
    SignedStart(sign, Body(whole, point, part, power));
  }

  lemma SignedStart(sign: string, body: string)
    requires Sign(sign) && body != "" && (sign == "" ==> '0' <= body[0] <= '9')
    requires '0' <= body[0] <= '9' || (|body| >= 2 && body[0] == '.' && '0' <= body[1] <= '9')
    ensures NumberStart(sign + body) && (sign + body)[0] in "+-0123456789"
  {
    if sign == "" { assert sign + body == body; } else { assert (sign + body)[0] == sign[0] && (sign + body)[1..] == body; }
  }

  lemma PlainPath(value: string, plain: string, finite: string -> bool)
    requires Writes(value, plain) && value[0] in "+-0123456789" && ClassifyWord(value).None?
    requires ParseInteger(plain) == None && DecimalLiteral(plain) && LegacyBinary(plain) == None
    ensures Classify(value, finite) == if finite(plain) then Float else Text
  {
  }

  /** A leading point and digits, with or without an exponent and with single underscores between digits, likewise. */
  lemma PointsAreFloats(part: string, letter: string, psign: string, d: string, finite: string -> bool)
    requires part != "" && '0' <= part[0] <= '9' && Spaced(part) && SpacedPower(letter, psign, d)
    ensures var value := "." + part + (letter + psign + d);
            Classify(value, finite) == if finite(value) then Float else Text
  {
    var value := "." + part + (letter + psign + d);
    assert value[0] == '.' && value[1] == part[0];
    NumberIsNoWord(value);
    IsDotLiteral(value, part, letter, psign, d);
    PointPath(value, finite);
  }

  lemma IsDotLiteral(value: string, part: string, letter: string, psign: string, d: string)
    requires part != "" && '0' <= part[0] <= '9' && Spaced(part) && SpacedPower(letter, psign, d)
    requires value == "." + part + (letter + psign + d)
    ensures DotLiteral(value)
  {
    var power := letter + psign + d;
    assert value[0] == '.' && value[1] == part[0] && value[2..] == part[1..] + power;
    assert power != "" ==> power[0] == letter[0];
    SpacedRunOfDigits(part[1..], power);
    var n := 1 + |part|;
    assert value[n..] == power;
    if letter != "" {
      assert value[n] == power[0] && value[n + 1..] == power[1..];
      PowerIsSpaced(letter, psign, d);
    }
  }

  lemma PowerIsSpaced(letter: string, psign: string, d: string)
    requires SpacedPower(letter, psign, d) && letter != ""
    ensures var power := letter + psign + d;
            (power[0] == 'e' || power[0] == 'E') && SpacedDigits(Unsigned(power[1..]))
  {
    PowerTail(letter, psign, d);
    SpacedRunOfDigits(d[1..], "");
    assert d[1..] + "" == d[1..];
  }

  lemma PointPath(value: string, finite: string -> bool)
    requires |value| >= 2 && value[0] == '.' && ClassifyWord(value).None? && DotLiteral(value)
    ensures Classify(value, finite) == if finite(value) then Float else Text
  {
    assert ParseBody(value) == None;
  }

  /** No boolean or null word has a point in it. */
  lemma PointsAreNoWords(value: string)
    requires |value| >= 4 && (value[0] == '.' || value[1] == '.')
    ensures value !in TRUE_WORDS && value !in FALSE_WORDS && value !in NULL_WORDS
  {
  }

  /** The infinities and not-a-number are floats without being converted. */
  lemma NonfiniteWords(value: string, finite: string -> bool)
    requires || value == ".inf" || value == ".Inf" || value == ".INF" || value == "+.inf" || value == "+.Inf" || value == "+.INF"
             || value == "-.inf" || value == "-.Inf" || value == "-.INF" || value == ".nan" || value == ".NaN" || value == ".NAN"
    ensures Classify(value, finite) == Float
  {
    PointsAreNoWords(value);
    assert value in NONFINITE_WORDS;
  }
}
