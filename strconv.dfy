/**
 * Go's strconv.Atoi on a 64-bit platform: an optional '+' or '-' followed by
 * base-10 digits only (no surrounding space, no underscores), with a range error
 * once the value leaves int64. As in Go's ParseUint, a run of digits that
 * already exceeds the uint64 range is reported as a range error even when a
 * non-digit follows it.
 */
module Strconv {
  import opened Wrappers
  import opened Numerals
  import opened GoInt

  /** The Err field of Go's *strconv.NumError. */
  datatype NumErrorKind = ErrSyntax | ErrRange

  function UnsignedPart(s: string): string {
    if s != [] && (s[0] == '+' || s[0] == '-') then s[1..] else s
  }

  /** One optional sign, then one or more decimal digits and nothing else. */
  predicate IsSignedDecimal(s: string) {
    var u := UnsignedPart(s);
    u != [] && AllDigits(u, 10)
  }

  function SignedValue(s: string): int
    requires IsSignedDecimal(s)
  {
    var v: int := Value(UnsignedPart(s), 10);
    if s[0] == '-' then -v else v
  }

  function Atoi(s: string): (r: Result<int, NumErrorKind>)
    ensures r.Ok? ==> IsSignedDecimal(s) && r.value == SignedValue(s) && InInt64(r.value)
    ensures IsSignedDecimal(s) && InInt64(SignedValue(s)) ==> r.Ok?
    ensures r.Err? && IsSignedDecimal(s) ==> r.error == ErrRange
  {
    var u := UnsignedPart(s);
    if u == [] then Err(ErrSyntax)
    else
      var run := DigitRun(u);
      if Value(run, 10) > MaxUint64 then Err(ErrRange)
      else if |run| < |u| then Err(ErrSyntax)
      else
        var m: int := Value(u, 10);
        var v := if s[0] == '-' then -m else m;
        if InInt64(v) then Ok(v) else Err(ErrRange)
  }

  /** Atoi reads back every int64 that `%d` prints. */
  lemma AtoiOfDecimal(n: int)
    requires InInt64(n)
    ensures Atoi(Decimal(n)) == Ok(n)
  {
    var s := Decimal(n);
    var m := if n < 0 then -n else n;
    assert UnsignedPart(s) == Digits(m) by {
      if n >= 0 {
        assert DigitValue(s[0]) < 10;
      }
    }
    DigitsValue(m);
  }

  /** Signs are accepted, surrounding text is not. */
  lemma AtoiAcceptsSign()
    ensures Atoi("+30") == Ok(30) && Atoi("-30") == Ok(-30)
  {
    AtoiAcceptsPlus();
    AtoiAcceptsMinus();
  }

  lemma ThirtyValue()
    ensures AllDigits("30", 10) && Value("30", 10) == 30
  {
    assert DigitValue('3') == 3 && DigitValue('0') == 0;
    assert "30"[..1] == "3";
  }

  lemma AtoiAcceptsPlus()
    ensures Atoi("+30") == Ok(30)
  {
    assert UnsignedPart("+30") == "30";
    ThirtyValue();
    assert SignedValue("+30") == 30;
  }

  lemma AtoiAcceptsMinus()
    ensures Atoi("-30") == Ok(-30)
  {
    assert UnsignedPart("-30") == "30";
    ThirtyValue();
    assert SignedValue("-30") == -30;
  }

  lemma AtoiRejectsSurroundingText()
    ensures Atoi("") == Err(ErrSyntax) && Atoi("-") == Err(ErrSyntax)
    ensures Atoi(" 30") == Err(ErrSyntax) && Atoi("30d") == Err(ErrSyntax)
    ensures Atoi("abc") == Err(ErrSyntax)
  {
    assert UnsignedPart("-") == [];
    AtoiRejectsLeadingSpace();
    AtoiRejectsTrailingText();
    AtoiRejectsWord();
  }

  lemma AtoiRejectsLeadingSpace()
    ensures Atoi(" 30") == Err(ErrSyntax)
  {
    assert UnsignedPart(" 30") == " 30";
    assert DigitRun(" 30") == [];
  }

  lemma AtoiRejectsTrailingText()
    ensures Atoi("30d") == Err(ErrSyntax)
  {
    assert UnsignedPart("30d") == "30d";
    assert DigitRun("30d") == "30";
    ThirtyValue();
  }

  lemma AtoiRejectsWord()
    ensures Atoi("abc") == Err(ErrSyntax)
  {
    assert UnsignedPart("abc") == "abc";
    assert DigitRun("abc") == [];
  }
}
