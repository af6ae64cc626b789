/**
 * The ECMAScript conversions behind `daysLeft > process.env.DAYS_BUFFER`: the
 * string operand goes through StringToNumber (the StringNumericLiteral grammar
 * of ECMA-262, section 7.1.4.1.1) and the two Numbers are compared, with NaN making
 * the comparison false. Finite values are kept exact: the rounding to binary64 is
 * not modelled.
 */
module JsNumbers {
  import opened Wrappers
  import opened Numerals

  datatype Number = NaN | Infinity(negative: bool) | Finite(value: real)

  /** StrWhiteSpaceChar: WhiteSpace (including the Zs category) or LineTerminator. */
  predicate IsStrWhiteSpaceChar(c: char) {
    var k := c as int;
    k == 0x09 || k == 0x0B || k == 0x0C || k == 0x20 || k == 0xA0 || k == 0xFEFF
    || k == 0x1680 || 0x2000 <= k <= 0x200A || k == 0x202F || k == 0x205F || k == 0x3000
    || k == 0x0A || k == 0x0D || k == 0x2028 || k == 0x2029
  }

  function TrimStart(s: string): (r: string)
    ensures |r| <= |s| && r == s[|s| - |r|..]
    ensures r != [] ==> !IsStrWhiteSpaceChar(r[0])
  {
    if s != [] && IsStrWhiteSpaceChar(s[0]) then TrimStart(s[1..]) else s
  }

  function TrimEnd(s: string): (r: string)
    ensures |r| <= |s| && r == s[..|r|]
    ensures r != [] ==> !IsStrWhiteSpaceChar(r[|r| - 1])
  {
    if s != [] && IsStrWhiteSpaceChar(s[|s| - 1]) then TrimEnd(s[..|s| - 1]) else s
  }

  function Pow10(k: nat): (p: nat)
    ensures p >= 1
  {
    if k == 0 then 1 else 10 * Pow10(k - 1)
  }

  /** `m × 10^e` */
  function Scaled(m: nat, e: int): real {
    if e >= 0 then (m * Pow10(e)) as real else m as real / Pow10(-e) as real
  }

  function Negated(n: Number): Number {
    match n
    case NaN => NaN
    case Infinity(negative) => Infinity(!negative)
    case Finite(v) => Finite(-v)
  }

  /** SignedInteger: an optional sign and one or more decimal digits, nothing else. */
  function SignedInteger(s: string): Option<int> {
    var digits := if s != [] && (s[0] == '+' || s[0] == '-') then s[1..] else s;
    if digits != [] && AllDigits(digits, 10) then
      var v: int := Value(digits, 10);
      Some(if s[0] == '-' then -v else v)
    else None
  }

  /** What follows the digits of a decimal literal: nothing, or an ExponentPart. */
  function Exponent(s: string): Option<int> {
    if s == [] then Some(0)
    else if s[0] == 'e' || s[0] == 'E' then SignedInteger(s[1..])
    else None
  }

  /** The digits before and after an optional decimal point, and what follows them. */
  datatype Mantissa = Mantissa(whole: string, fraction: string, rest: string)

  function SplitMantissa(u: string): (p: Mantissa)
    ensures AllDigits(p.whole, 10) && AllDigits(p.fraction, 10)
  {
    var whole := DigitRun(u);
    var afterWhole := u[|whole|..];
    if afterWhole != [] && afterWhole[0] == '.' then
      var fraction := DigitRun(afterWhole[1..]);
      Mantissa(whole, fraction, afterWhole[1 + |fraction|..])
    else
      Mantissa(whole, [], afterWhole)
  }

  /** StrUnsignedDecimalLiteral: `Infinity`, or digits with an optional fraction and
      exponent, where at least one digit comes before or after the point. */
  function UnsignedDecimal(u: string): Number {
    if u == "Infinity" then Infinity(false)
    else
      var p := SplitMantissa(u);
      if p.whole == [] && p.fraction == [] then NaN
      else
        match Exponent(p.rest)
        case None => NaN
        case Some(e) => Finite(MantissaValue(p, e))
  }

  /** `whole.fraction × 10^e` */
  function MantissaValue(p: Mantissa, e: int): real
    requires AllDigits(p.whole, 10) && AllDigits(p.fraction, 10)
  {
    Scaled(Value(p.whole, 10) * Pow10(|p.fraction|) + Value(p.fraction, 10), e - |p.fraction|)
  }

  /** NonDecimalIntegerLiteral digits after the `0x`, `0o` or `0b` prefix. */
  function RadixInteger(digits: string, radix: nat): Number {
    if digits != [] && AllDigits(digits, radix) then Finite(Value(digits, radix) as real) else NaN
  }

  /** The radix named by a `0x`, `0o` or `0b` prefix (either case), if any. */
  function RadixPrefix(t: string): Option<nat> {
    if |t| >= 2 && t[0] == '0' then
      if t[1] == 'x' || t[1] == 'X' then Some(16)
      else if t[1] == 'o' || t[1] == 'O' then Some(8)
      else if t[1] == 'b' || t[1] == 'B' then Some(2)
      else None
    else None
  }

  /** StrNumericLiteral, on a string without surrounding white space. */
  function NumericLiteral(t: string): Number
    requires t != []
  {
    match RadixPrefix(t)
    case Some(radix) => RadixInteger(t[2..], radix)
    case None =>
      if t[0] == '+' then UnsignedDecimal(t[1..])
      else if t[0] == '-' then Negated(UnsignedDecimal(t[1..]))
      else UnsignedDecimal(t)
  }

  /** StringToNumber: white space only reads as 0, anything outside the grammar as NaN. */
  function ToNumber(s: string): Number {
    var t := TrimEnd(TrimStart(s));
    if t == [] then Finite(0.0) else NumericLiteral(t)
  }

  function FromInt(n: int): Number {
    Finite(n as real)
  }

  /** `x > y` on Numbers: false whenever either is NaN. */
  predicate GreaterThan(x: Number, y: Number) {
    match (x, y)
    case (NaN, _) => false
    case (_, NaN) => false
    case (Infinity(xNegative), Infinity(yNegative)) => !xNegative && yNegative
    case (Infinity(xNegative), Finite(_)) => !xNegative
    case (Finite(_), Infinity(yNegative)) => yNegative
    case (Finite(a), Finite(b)) => a > b
  }

  lemma UnsignedDecimalOfDigits(d: string)
    requires d != [] && AllDigits(d, 10)
    ensures UnsignedDecimal(d) == FromInt(Value(d, 10))
  {
    assert DigitValue(d[0]) < 10;
    assert d != "Infinity";
    assert d[|d|..] == [];
    assert SplitMantissa(d) == Mantissa(d, [], []);
  }

  lemma NotWhiteSpace(c: char)
    requires IsDigit(c) || c == '-'
    ensures !IsStrWhiteSpaceChar(c)
  {
  }

  lemma Untrimmed(s: string)
    requires s != [] && !IsStrWhiteSpaceChar(s[0]) && !IsStrWhiteSpaceChar(s[|s| - 1])
    ensures TrimEnd(TrimStart(s)) == s
  {
  }

  lemma DecimalUntrimmed(n: int)
    ensures TrimEnd(TrimStart(Decimal(n))) == Decimal(n)
  {
    var s := Decimal(n);
    var digits := Digits(if n < 0 then -n else n);
    assert s[|s| - 1] == digits[|digits| - 1];
    assert DigitValue(digits[|digits| - 1]) < 10;
    NotWhiteSpace(s[|s| - 1]);
    assert DigitValue(digits[0]) < 10;
    assert s[0] == '-' || s[0] == digits[0];
    NotWhiteSpace(s[0]);
    Untrimmed(s);
  }

  lemma NumericLiteralOfDigits(d: string)
    requires d != [] && AllDigits(d, 10)
    ensures NumericLiteral(d) == UnsignedDecimal(d)
  {
    assert DigitValue(d[0]) < 10;
    if |d| >= 2 {
      assert DigitValue(d[1]) < 10;
    }
    assert RadixPrefix(d).None?;
  }

  lemma NumericLiteralOfNegative(d: string)
    requires d != []
    ensures NumericLiteral("-" + d) == Negated(UnsignedDecimal(d))
  {
    assert ("-" + d)[1..] == d;
  }

  /** Every integer printed in decimal converts back to itself. */
  lemma ToNumberOfDecimal(n: int)
    ensures ToNumber(Decimal(n)) == FromInt(n)
  {
    var m := if n < 0 then -n else n;
    var digits := Digits(m);
    DecimalUntrimmed(n);
    DigitsValue(m);
    UnsignedDecimalOfDigits(digits);
    NumericLiteralOfDigits(digits);
    NumericLiteralOfNegative(digits);
  }

  lemma ToNumberOfTrimmed(s: string)
    requires s != [] && TrimEnd(TrimStart(s)) == s
    ensures ToNumber(s) == NumericLiteral(s)
  {
  }

  lemma WordLiteral()
    ensures NumericLiteral("abc") == NaN
  {
    assert NumericLiteral("abc") == UnsignedDecimal("abc");
    assert SplitMantissa("abc") == Mantissa([], [], "abc");
  }

  lemma SplitTrailingText()
    ensures SplitMantissa("30 days") == Mantissa("30", [], " days")
  {
    var u := "30 days";
    assert DigitRun(u) == "30" by {
      assert DigitRun(u[2..]) == [];
    }
    assert u[2..] == " days";
  }

  lemma TrailingTextLiteral()
    ensures NumericLiteral("30 days") == NaN
  {
    assert NumericLiteral("30 days") == UnsignedDecimal("30 days");
    SplitTrailingText();
  }

  /** A word is not a number. */
  lemma ToNumberOfWord()
    ensures ToNumber("abc") == NaN
  {
    Untrimmed("abc");
    ToNumberOfTrimmed("abc");
    WordLiteral();
  }

  /** Text after the number makes it NaN. */
  lemma ToNumberOfTrailingText()
    ensures ToNumber("30 days") == NaN
  {
    Untrimmed("30 days");
    ToNumberOfTrimmed("30 days");
    TrailingTextLiteral();
  }

  lemma ThirtyLiteral()
    ensures NumericLiteral("30") == FromInt(30)
  {
    assert Value("30", 10) == 30 by {
      assert "30"[..1] == "3";
    }
    NumericLiteralOfDigits("30");
    UnsignedDecimalOfDigits("30");
  }

  lemma TrimStartThirty()
    ensures TrimStart(" 30\n") == "30\n"
  {
    assert IsStrWhiteSpaceChar(" 30\n"[0]);
    assert " 30\n"[1..] == "30\n";
    assert !IsStrWhiteSpaceChar("30\n"[0]);
  }

  lemma TrimEndThirty()
    ensures TrimEnd("30\n") == "30"
  {
    assert "30\n"[..2] == "30";
  }

  lemma TrimsThirty()
    ensures TrimEnd(TrimStart(" 30\n")) == "30"
  {
    TrimStartThirty();
    TrimEndThirty();
  }

  lemma TrimsPaddedThirty()
    ensures TrimEnd(TrimStart(" 30")) == "30"
  {
    assert IsStrWhiteSpaceChar(" 30"[0]);
    assert " 30"[1..] == "30";
    assert !IsStrWhiteSpaceChar("30"[0]);
    assert !IsStrWhiteSpaceChar("30"[1]);
  }

  /** A leading space is ignored too. */
  lemma ToNumberOfPadded()
    ensures ToNumber(" 30") == FromInt(30)
  {
    TrimsPaddedThirty();
    ThirtyLiteral();
  }

  /** Surrounding white space is ignored. */
  lemma ToNumberTrims()
    ensures ToNumber(" 30\n") == FromInt(30)
  {
    TrimsThirty();
    ThirtyLiteral();
  }

  lemma ExponentLiteral()
    ensures NumericLiteral("3e1") == FromInt(30)
  {
    assert NumericLiteral("3e1") == UnsignedDecimal("3e1");
    assert DigitRun("3e1") == "3";
    assert SplitMantissa("3e1") == Mantissa("3", [], "e1");
    assert Value("1", 10) == 1;
    assert Exponent("e1") == Some(1);
  }

  lemma HexLiteral()
    ensures NumericLiteral("0x1E") == FromInt(30)
  {
    assert NumericLiteral("0x1E") == RadixInteger("1E", 16);
    assert Value("1E", 16) == 30 by {
      assert "1E"[..1] == "1";
    }
  }

  /** An exponent is part of the grammar. */
  lemma ToNumberOfExponent()
    ensures ToNumber("3e1") == FromInt(30)
  {
    Untrimmed("3e1");
    ToNumberOfTrimmed("3e1");
    ExponentLiteral();
  }

  /** So is a hexadecimal prefix. */
  lemma ToNumberOfHex()
    ensures ToNumber("0x1E") == FromInt(30)
  {
    Untrimmed("0x1E");
    ToNumberOfTrimmed("0x1E");
    HexLiteral();
  }

  lemma NegativeInfinityLiteral()
    ensures NumericLiteral("-Infinity") == Infinity(true)
  {
    NumericLiteralOfNegative("Infinity");
    assert "-Infinity" == "-" + "Infinity";
  }

  lemma ToNumberInfinity()
    ensures ToNumber("-Infinity") == Infinity(true)
  {
    Untrimmed("-Infinity");
    ToNumberOfTrimmed("-Infinity");
    NegativeInfinityLiteral();
  }
}
