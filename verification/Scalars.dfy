/**
 Go-compatible classification of plain YAML scalars. Whether a floating-point literal is finite is
 a parameter; everything else of the classifier is spelled out.
 */
module Scalars {
  import opened Common

  datatype Scalar = Bool(value: bool) | Null | Int(number: int) | Float | Text

  const TRUE_WORDS: set<string> := {"y", "Y", "yes", "Yes", "YES", "true", "True", "TRUE", "on", "On", "ON"}
  const FALSE_WORDS: set<string> := {"n", "N", "no", "No", "NO", "false", "False", "FALSE", "off", "Off", "OFF"}
  const NULL_WORDS: set<string> := {"", "~", "null", "Null", "NULL"}
  const NONFINITE_WORDS: set<string> := {".inf", ".Inf", ".INF", "+.inf", "+.Inf", "+.INF", "-.inf", "-.Inf", "-.INF",
                                         ".nan", ".NaN", ".NAN"}

  const INT64 := 0x8000_0000_0000_0000
  const UINT64 := 0x1_0000_0000_0000_0000
  const DECIMAL_BUDGET := 4300      // digits of a decimal string that Python converts

  // ----- Digits -----

  function Digit(c: char): nat {
    if '0' <= c <= '9' then (c - '0') as nat
    else if 'a' <= c <= 'f' then 10 + (c - 'a') as nat
    else if 'A' <= c <= 'F' then 10 + (c - 'A') as nat
    else 99
  }

  /** A nonempty digit string of this base. */
  predicate Digits(d: string, base: nat) {
    d != "" && forall i | 0 <= i < |d| :: Digit(d[i]) < base
  }

  /** Positional value. */
  function Value(d: string, base: nat): nat {
    if d == "" then 0 else Value(d[..|d| - 1], base) * base + Digit(d[|d| - 1])
  }

  function Strip(s: string): string {
    if s == "" then "" else if s[0] == '_' then Strip(s[1..]) else [s[0]] + Strip(s[1..])
  }

  predicate Signed(s: string) {
    s != "" && (s[0] == '+' || s[0] == '-')
  }

  function Unsigned(s: string): string {
    if Signed(s) then s[1..] else s
  }

  /** The number with the sign that `s` starts with. */
  function WithSign(s: string, n: int): int {
    if s != "" && s[0] == '-' then -n else n
  }

  // ----- Integers -----

  /** The base a prefix letter announces, or 0. */
  function PrefixBase(c: char): nat {
    if c == 'b' || c == 'B' then 2 else if c == 'o' || c == 'O' then 8 else if c == 'x' || c == 'X' then 16 else 0
  }

  predicate Prefixed(body: string) {
    |body| >= 3 && body[0] == '0' && PrefixBase(body[1]) != 0 && Digits(body[2..], PrefixBase(body[1]))
  }

  /** The unsigned integer grammar and its base-aware conversion; `None` if it does not match or exceeds the budget. */
  function ParseBody(body: string): Option<nat> {
    if Prefixed(body) then Some(Value(body[2..], PrefixBase(body[1])))
    else if body != "" && body[0] == '0' && Digits(body, 8) then Some(Value(body, 8))
    else if body != "" && '1' <= body[0] <= '9' && Digits(body, 10) && |body| <= DECIMAL_BUDGET then Some(Value(body, 10))
    else None
  }

  function ParseInteger(plain: string): Option<int> {
    var n := ParseBody(Unsigned(plain));
    if n.Some? then Some(WithSign(plain, n.value)) else None
  }

  /** int64, or uint64 if written without a sign. */
  predicate Fits(n: int, signed: bool) {
    -INT64 <= n < INT64 || (!signed && 0 <= n < UINT64)
  }

  // ----- Floating-point literals -----

  /** The length of the longest prefix of decimal digits. */
  function DigitRun(s: string): (n: nat)
    ensures n <= |s|
  {
    if s != "" && '0' <= s[0] <= '9' then 1 + DigitRun(s[1..]) else 0
  }

  predicate Exponent(s: string) {
    s == "" || ((s[0] == 'e' || s[0] == 'E') && Unsigned(s[1..]) != "" && DigitRun(Unsigned(s[1..])) == |Unsigned(s[1..])|)
  }

  predicate DecimalLiteral(plain: string) {
    var body := Unsigned(plain);
    var whole := DigitRun(body);
    var rest := body[whole..];
    if rest != "" && rest[0] == '.' then
      var part := DigitRun(rest[1..]);
      whole + part > 0 && Exponent(rest[1 + part..])
    else whole > 0 && Exponent(rest)
  }

  /** Digits that may be separated by single underscores: the length matched after a first digit. */
  function SpacedRun(s: string): (n: nat)
    ensures n <= |s|
    decreases |s|
  {
    if s != "" && '0' <= s[0] <= '9' then 1 + SpacedRun(s[1..])
    else if |s| >= 2 && s[0] == '_' && '0' <= s[1] <= '9' then 2 + SpacedRun(s[2..])
    else 0
  }

  predicate SpacedDigits(s: string) {
    s != "" && '0' <= s[0] <= '9' && SpacedRun(s[1..]) == |s| - 1
  }

  predicate DotLiteral(s: string) {
    && |s| >= 2 && s[0] == '.' && '0' <= s[1] <= '9'
    && var n := 2 + SpacedRun(s[2..]);
       n == |s| || ((s[n] == 'e' || s[n] == 'E') && SpacedDigits(Unsigned(s[n + 1..])))
  }

  // ----- The classifier -----

  /** The payload of a legacy binary prefix, which may carry its own sign. */
  function LegacyBinary(plain: string): Option<string> {
    if BinaryStart(plain) then Some(plain[2..])
    else if NegativeStart(plain) then Some(['-'] + plain[3..])
    else None
  }

  /** The text starts with "0b". */
  predicate BinaryStart(plain: string) {
    |plain| >= 2 && plain[0] == '0' && plain[1] == 'b'
  }

  /** The text starts with "-0b". */
  predicate NegativeStart(plain: string) {
    |plain| >= 3 && plain[0] == '-' && plain[1] == '0' && plain[2] == 'b'
  }

  function ClassifyLegacy(plain: string): Scalar {
    var payload := LegacyBinary(plain);
    if payload.Some? && Digits(Unsigned(payload.value), 2)
       && Fits(WithSign(payload.value, Value(Unsigned(payload.value), 2)), Signed(payload.value))
    then Int(WithSign(payload.value, Value(Unsigned(payload.value), 2))) else Text
  }

  /** The words with a meaning of their own. */
  function ClassifyWord(value: string): Option<Scalar> {
    if value in TRUE_WORDS then Some(Bool(true))
    else if value in FALSE_WORDS then Some(Bool(false))
    else if value in NULL_WORDS then Some(Null)
    else if value in NONFINITE_WORDS then Some(Float)
    else None
  }

  /** Go removes underscores on its digit and sign path, but not after a leading decimal point. */
  function ClassifyNumber(value: string, finite: string -> bool): Scalar
    requires value != ""
  {
    var plain := if value[0] == '.' then value else Strip(value);
    var number := ParseInteger(plain);
    if number.Some? && Fits(number.value, Signed(plain)) then Int(number.value)
    else if (if value[0] == '.' then DotLiteral(plain) else DecimalLiteral(plain)) && finite(plain) then Float
    else ClassifyLegacy(plain)
  }

  /** `_scalar_value`; `finite` tells whether a floating-point literal denotes a finite number. */
  function Classify(value: string, finite: string -> bool): Scalar {
    var word := ClassifyWord(value);
    if word.Some? then word.value
    else if value == "" || value[0] !in "+-.0123456789" then Text
    else ClassifyNumber(value, finite)
  }

  // ----- Numerals -----

  function DigitChar(n: nat): char
    requires n < 16
  {
    if n < 10 then '0' + n as char else 'a' + (n - 10) as char
  }

  /** The digits of a number by repeated division. */
  function Numeral(n: nat, base: nat): string
    requires 2 <= base <= 16
  {
    if n < base then [DigitChar(n)] else Numeral(n / base, base) + [DigitChar(n % base)]
  }

  lemma DigitOfChar(n: nat)
    requires n < 16
    ensures Digit(DigitChar(n)) == n
  {
  }

  /** Every number has a spelling in every base, and it denotes that number. */
  lemma {:induction false} NumeralRoundTrip(n: nat, base: nat)
    requires 2 <= base <= 16
    ensures Digits(Numeral(n, base), base) && Value(Numeral(n, base), base) == n
  {
    if n < base {
      DigitOfChar(n);
      assert "" + [DigitChar(n)] == [DigitChar(n)];
    } else {
      var q, r := n / base, n % base;
      DivMod(n, base, q, r);
      NumeralRoundTrip(q, base);
      DigitOfChar(r);
    }
  }

  lemma DivMod(n: nat, base: nat, q: nat, r: nat)
    requires base >= 2 && q == n / base && r == n % base
    ensures q * base + r == n && r < base && (n >= base ==> q < n)
  {
  }

  // ----- Underscores and signs -----

  /** An integer spelling: a sign, an optional prefix and digits, as the grammar allows them. */
  datatype Radix = Prefix(letter: char) | Legacy | Decimal

  predicate Spelling(sign: string, radix: Radix, d: string) {
    && (sign == "" || sign == "+" || sign == "-")
    && match radix
       case Prefix(letter) => PrefixBase(letter) != 0 && Digits(d, PrefixBase(letter))
       case Legacy => d == "" || Digits(d, 8)
       case Decimal => Digits(d, 10) && d[0] != '0'
  }

  function Body(radix: Radix, d: string): string {
    match radix
    case Prefix(letter) => ['0', letter] + d
    case Legacy => ['0'] + d
    case Decimal => d
  }

  function Spelled(sign: string, radix: Radix, d: string): string {
    sign + Body(radix, d)
  }

  function Magnitude(radix: Radix, d: string): nat {
    match radix
    case Prefix(letter) => Value(d, PrefixBase(letter))
    case Legacy => Value(d, 8)
    case Decimal => Value(d, 10)
  }

  function Denoted(sign: string, radix: Radix, d: string): int {
    var n: int := Magnitude(radix, d);
    if sign == "-" then -n else n
  }

  lemma {:induction false} LeadingZero(d: string)
    ensures Value(['0'] + d, 8) == Value(d, 8)
    decreases |d|
  {
    if d == "" {
      assert "" + ['0'] == ['0'] + d;
    } else {
      var e := d[..|d| - 1];
      LeadingZero(e);
      assert ['0'] + e + [d[|d| - 1]] == ['0'] + d;
    }
  }

  lemma {:induction false} LongDecimal(d: string, k: nat)
    requires |d| > k && Digit(d[0]) >= 1
    ensures Value(d, 10) >= Power10(k)
    decreases |d|
  {
    var e := d[..|d| - 1];
    if |d| > 1 {
      LongDecimal(e, if k == 0 then 0 else k - 1);
      assert Value(d, 10) >= 10 * Value(e, 10);
    }
  }

  function Power10(k: nat): nat {
    if k == 0 then 1 else 10 * Power10(k - 1)
  }

  /** A decimal spelling beyond the conversion budget is beyond uint64 as well. */
  lemma BudgetIsEnough(d: string)
    requires Digits(d, 10) && d[0] != '0' && |d| > DECIMAL_BUDGET
    ensures Value(d, 10) >= UINT64
  {
    LongDecimal(d, 20);
    assert Power10(4) == 10000 && Power10(6) == 1000000 && Power10(8) == 100000000 && Power10(10) == 10000000000;
    assert Power10(12) == 1000000000000 && Power10(14) == 100000000000000 && Power10(16) == 10000000000000000;
    assert Power10(18) == 1000000000000000000 && Power10(20) == 100000000000000000000;
  }

  // ----- Spellings are recognised -----

  lemma NonfiniteStart(value: string)
    requires value in NONFINITE_WORDS
    ensures |value| > 1 && (value[0] == '.' || value[1] == '.')
  {
  }

  /** No word of the special tables starts like a number, except the signed infinities with their point. */
  lemma WordsAreNotNumbers(value: string)
    requires value != "" && value[0] in "+-0123456789"
    ensures ClassifyWord(value).Some? ==> |value| > 1 && value[1] == '.'
  {
    if value in NONFINITE_WORDS { NonfiniteStart(value); }
  }

  /** The body of a spelling starts with a digit and goes on with a digit or a prefix letter. */
  lemma BodyStart(radix: Radix, d: string)
    requires Spelling("", radix, d)
    ensures var body := Body(radix, d);
            body != "" && '0' <= body[0] <= '9' && (|body| > 1 ==> body[1] != '.')
            && (|body| > 1 && body[0] == '0' && PrefixBase(body[1]) != 0 ==> radix == Prefix(body[1]))
  {
    assert d != "" ==> Digit(d[0]) < 99;
    assert |d| > 1 ==> Digit(d[1]) < 99;
    if radix.Legacy? && d != "" { assert Digit(d[0]) < 8; }
    if radix.Decimal? { assert Digit(d[0]) < 10; }
  }

  lemma SignSplits(sign: string, body: string)
    requires (sign == "" || sign == "+" || sign == "-") && body != "" && '0' <= body[0] <= '9'
    ensures Unsigned(sign + body) == body && (Signed(sign + body) <==> sign != "")
    ensures forall n :: WithSign(sign + body, n) == if sign == "-" then -n else n
    ensures (sign + body)[0] in "+-0123456789"
  {
    assert sign == "" ==> sign + body == body;
    assert sign != "" ==> (sign + body)[1..] == body;
  }

  lemma ParsesLegacy(d: string)
    requires Spelling("", Legacy, d)
    ensures ParseBody(Body(Legacy, d)) == Some(Magnitude(Legacy, d))
  {
    var body := Body(Legacy, d);
    BodyStart(Legacy, d);
    assert Digits(body, 8) by {
      forall i | 0 <= i < |body| ensures Digit(body[i]) < 8 { assert i > 0 ==> body[i] == d[i - 1]; }
    }
    LeadingZero(d);
  }

  lemma ParsesBody(radix: Radix, d: string)
    requires Spelling("", radix, d)
    ensures var n := ParseBody(Body(radix, d));
            if n.Some? then n.value == Magnitude(radix, d) else Magnitude(radix, d) >= UINT64
  {
    match radix
    case Prefix(letter) =>
    case Legacy => ParsesLegacy(d);
    case Decimal => if |d| > DECIMAL_BUDGET { BudgetIsEnough(d); }
  }

  /** A spelling parses to what it denotes, unless it is a decimal beyond the budget and so beyond the range. */
  lemma Parses(sign: string, radix: Radix, d: string)
    requires Spelling(sign, radix, d)
    ensures var n := ParseInteger(Spelled(sign, radix, d));
            if n.Some? then n.value == Denoted(sign, radix, d) else !Fits(Denoted(sign, radix, d), sign != "")
  {
    var body := Body(radix, d);
    BodyStart(radix, d);
    ParsesBody(radix, d);
    SignSplits(sign, body);
  }

  lemma LegacyValue(sign: string, d: string)
    requires (sign == "" || sign == "-") && Digits(d, 2)
    ensures var n := Denoted(sign, Prefix('b'), d);
            ClassifyLegacy(Spelled(sign, Prefix('b'), d)) == if Fits(n, sign != "") then Int(n) else Text
  {
    LegacyPayloadOf(sign, d);
    assert Digits(Unsigned(sign + d), 2);
  }

  /** The payload of a spelling with a binary prefix is its sign and its bits. */
  lemma LegacyPayloadOf(sign: string, d: string)
    requires (sign == "" || sign == "-") && Digits(d, 2)
    ensures LegacyBinary(Spelled(sign, Prefix('b'), d)) == Some(sign + d)
    ensures Unsigned(sign + d) == d && (Signed(sign + d) <==> sign != "")
    ensures forall n :: WithSign(sign + d, n) == if sign == "-" then -n else n
  {
    var p := Spelled(sign, Prefix('b'), d);
    assert Digit(d[0]) < 2;
    SignSplits(sign, d);
    if sign == "" {
      assert sign + d == d;
      assert BinaryStart(p) && p[2..] == d;
    } else {
      assert NegativeStart(p) && p[3..] == d;
    }
  }

  /** The legacy binary path never accepts a spelling that is out of range. */
  lemma LegacyAgrees(sign: string, radix: Radix, d: string)
    requires Spelling(sign, radix, d) && !Fits(Denoted(sign, radix, d), sign != "")
    ensures ClassifyLegacy(Spelled(sign, radix, d)) == Text
  {
    var p := Spelled(sign, radix, d);
    if BinaryStart(p) || NegativeStart(p) { LegacyValue(sign, d); }
  }

  /** Where underscores may stand: anywhere after the first character. */
  predicate Spells(value: string, sign: string, radix: Radix, d: string) {
    value != "" && value[0] != '_' && Strip(value) == Spelled(sign, radix, d)
  }

  lemma StripKeepsStart(value: string)
    requires value != "" && value[0] != '_'
    ensures Strip(value) != "" && Strip(value)[0] == value[0]
    ensures |value| > 1 && value[1] != '_' ==> |Strip(value)| > 1 && Strip(value)[1] == value[1]
  {
  }

  /** A spelling is no word of the special tables. */
  lemma SpellingIsNoWord(value: string, sign: string, radix: Radix, d: string)
    requires Spelling(sign, radix, d) && Spells(value, sign, radix, d)
    ensures value[0] in "+-0123456789" && ClassifyWord(value).None?
  {
    var p, body := Spelled(sign, radix, d), Body(radix, d);
    BodyStart(radix, d);
    SignSplits(sign, body);
    StripKeepsStart(value);
    WordsAreNotNumbers(value);
    assert |p| > 1 ==> p[1] == if sign == "" then body[1] else body[0];
  }

  lemma NumberPath(value: string, p: string, finite: string -> bool)
    requires value != "" && value[0] in "+-0123456789" && ClassifyWord(value).None? && Strip(value) == p
    ensures var n := ParseInteger(p);
            if n.Some? && Fits(n.value, Signed(p)) then Classify(value, finite) == Int(n.value)
            else Classify(value, finite) == Float || Classify(value, finite) == ClassifyLegacy(p)
  {
  }

  /**
   For every integer and every decimal, hexadecimal, octal, legacy-octal or binary spelling of it,
   with any underscores after the first character, the classifier returns that integer exactly when
   it fits int64, or uint64 if written without a sign, and otherwise no integer at all.
   */
  lemma SpellingsRoundTrip(value: string, sign: string, radix: Radix, d: string, finite: string -> bool)
    requires Spelling(sign, radix, d) && Spells(value, sign, radix, d)
    ensures Fits(Denoted(sign, radix, d), sign != "") ==> Classify(value, finite) == Int(Denoted(sign, radix, d))
    ensures !Fits(Denoted(sign, radix, d), sign != "") ==> !Classify(value, finite).Int?
  {
    SpellingIsNoWord(value, sign, radix, d);
    BodyStart(radix, d);
    SignSplits(sign, Body(radix, d));
    Parses(sign, radix, d);
    NumberPath(value, Spelled(sign, radix, d), finite);
    if !Fits(Denoted(sign, radix, d), sign != "") { LegacyAgrees(sign, radix, d); }
  }

  // ----- Nothing else is an integer -----

  /** A binary prefix with a sign behind it, which Go accepts as well. */
  predicate SignedInside(value: string, sign: string, d: string) {
    value != "" && value[0] != '_' && (sign == "+" || sign == "-") && Digits(d, 2) && Strip(value) == ['0', 'b'] + sign + d
  }

  lemma BodyIsSpelling(body: string) returns (radix: Radix, d: string)
    requires ParseBody(body).Some?
    ensures Spelling("", radix, d) && Body(radix, d) == body && Magnitude(radix, d) == ParseBody(body).value
  {
    if Prefixed(body) {
      radix, d := Prefix(body[1]), body[2..];
      assert body == ['0', body[1]] + d;
    } else if body[0] == '0' && Digits(body, 8) {
      radix, d := Legacy, body[1..];
      assert body == ['0'] + d;
      assert forall i | 0 <= i < |d| :: d[i] == body[i + 1];
      LeadingZero(d);
    } else {
      radix, d := Decimal, body;
    }
  }

  lemma ParsedIsSpelling(plain: string) returns (sign: string, radix: Radix, d: string)
    requires ParseInteger(plain).Some?
    ensures Spelling(sign, radix, d) && Spelled(sign, radix, d) == plain && Denoted(sign, radix, d) == ParseInteger(plain).value
    ensures Signed(plain) <==> sign != ""
  {
    sign := if Signed(plain) then [plain[0]] else "";
    radix, d := BodyIsSpelling(Unsigned(plain));
    assert plain == sign + Unsigned(plain);
    BodyStart(radix, d);
    SignSplits(sign, Unsigned(plain));
  }

  /** The payload of an accepted legacy binary: its sign and its bits. */
  lemma LegacyPayload(payload: string) returns (sign: string, d: string)
    requires Digits(Unsigned(payload), 2)
    ensures payload == sign + d && Digits(d, 2) && (sign == "" || sign == "+" || sign == "-") && (sign != "" <==> Signed(payload))
    ensures d == Unsigned(payload) && WithSign(payload, Value(d, 2)) == Denoted(sign, Prefix('b'), d)
  {
    sign, d := if Signed(payload) then [payload[0]] else "", Unsigned(payload);
  }

  lemma GlueNegative(plain: string, sign: string, d: string)
    requires NegativeStart(plain) && ['-'] + plain[3..] == sign + d && (sign == "" || sign == "-" || sign == "+")
    requires sign != "" <==> Signed(['-'] + plain[3..])
    ensures sign == "-" && plain == Spelled(sign, Prefix('b'), d)
  {
    assert (['-'] + plain[3..])[0] == '-';
    assert (sign + d)[0] == sign[0];
    assert (sign + d)[1..] == d && (['-'] + plain[3..])[1..] == plain[3..];
    assert plain == ['-', '0', 'b'] + plain[3..];
  }

  lemma LegacyIsSpelling(plain: string) returns (sign: string, inside: bool, d: string)
    requires ClassifyLegacy(plain).Int?
    ensures Digits(d, 2) && ClassifyLegacy(plain).number == Denoted(sign, Prefix('b'), d)
    ensures inside ==> (sign == "+" || sign == "-") && plain == ['0', 'b'] + sign + d && Fits(Denoted(sign, Prefix('b'), d), true)
    ensures !inside ==> Spelling(sign, Prefix('b'), d) && plain == Spelled(sign, Prefix('b'), d)
                        && Fits(Denoted(sign, Prefix('b'), d), sign != "")
  {
    var payload := LegacyBinary(plain).value;
    sign, d := LegacyPayload(payload);
    inside := BinaryStart(plain) && sign != "";
    if !BinaryStart(plain) { GlueNegative(plain, sign, d); }
  }

  lemma NoIntegerInside(sign: string, d: string)
    requires (sign == "+" || sign == "-") && Digits(d, 2)
    ensures var p := ['0', 'b'] + sign + d;
            ParseInteger(p) == None && !DecimalLiteral(p) && LegacyBinary(p) == Some(sign + d) && !Signed(p)
  {
    var p := ['0', 'b'] + sign + d;
    assert p[0] == '0' && p[1] == 'b' && p[2] == sign[0];
    assert Unsigned(p) == p && p[2..] == sign + d;
    assert !Digits(p[2..], 2) by { assert Digit(p[2..][0]) == 99; }
    assert !Digits(p, 8) by { assert Digit(p[1]) == 11; }
    assert DigitRun(p[1..]) == 0 && DigitRun(p) == 1;
  }

  /** The signed-inside binary form is accepted exactly when it fits int64. */
  lemma SignedInsideRoundTrip(value: string, sign: string, d: string, finite: string -> bool)
    requires SignedInside(value, sign, d)
    ensures var n := Denoted(sign, Prefix('b'), d);
            Classify(value, finite) == if Fits(n, true) then Int(n) else Text
  {
    var p := ['0', 'b'] + sign + d;
    NoIntegerInside(sign, d);
    assert Digit(d[0]) < 2;
    SignSplits(sign, d);
    StripKeepsStart(value);
    assert value[0] == '0';
    WordsAreNotNumbers(value);
    assert p[1] == 'b';
    InsideClassified(value, p, sign, d, finite);
  }

  lemma InsideClassified(value: string, p: string, sign: string, d: string, finite: string -> bool)
    requires value != "" && value[0] == '0' && ClassifyWord(value).None? && Strip(value) == p && Digits(d, 2)
    requires (sign == "+" || sign == "-") && Unsigned(sign + d) == d && Signed(sign + d)
    requires forall n :: WithSign(sign + d, n) == if sign == "-" then -n else n
    requires ParseInteger(p) == None && !DecimalLiteral(p) && LegacyBinary(p) == Some(sign + d)
    ensures var n := Denoted(sign, Prefix('b'), d);
            Classify(value, finite) == if Fits(n, true) then Int(n) else Text
  {
  }

  /** Only in-range spellings, and the signed-inside binary form, are classified as integers. */
  lemma IntegersAreSpellings(value: string, finite: string -> bool) returns (sign: string, radix: Radix, d: string)
    requires Classify(value, finite).Int?
    ensures Classify(value, finite).number == Denoted(sign, radix, d)
    ensures || (Spelling(sign, radix, d) && Spells(value, sign, radix, d) && Fits(Denoted(sign, radix, d), sign != ""))
            || (radix == Prefix('b') && SignedInside(value, sign, d) && Fits(Denoted(sign, radix, d), true))
  {
    var plain := Strip(value);
    NumberPath(value, plain, finite);
    if ParseInteger(plain).Some? && Fits(ParseInteger(plain).value, Signed(plain)) {
      sign, radix, d := ParsedIsSpelling(plain);
    } else {
      var inside;
      sign, inside, d := LegacyIsSpelling(plain);
      radix := Prefix('b');
    }
  }
}
