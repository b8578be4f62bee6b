/** `strconv.Atoi` as the calculation core uses it on a 64-bit platform: an optional
    '+' or '-' followed by one or more ASCII decimal digits, whose value must fit in a
    Go `int` (64 bits). Anything else is an error. */
module Strconv {
  import opened Wrappers

  const MinInt: int := -0x8000_0000_0000_0000
  const MaxInt: int := 0x7FFF_FFFF_FFFF_FFFF

  predicate IsDigit(c: char) {
    '0' <= c <= '9'
  }

  predicate AllDigits(s: string) {
    forall i :: 0 <= i < |s| ==> IsDigit(s[i])
  }

  function DigitValue(c: char): nat
    requires IsDigit(c)
  {
    c as int - '0' as int
  }

  /** The value of a string of decimal digits, most significant first. */
  function DigitsValue(s: string): nat
    requires AllDigits(s)
    decreases |s|
  {
    if |s| == 0 then 0 else DigitsValue(s[..|s| - 1]) * 10 + DigitValue(s[|s| - 1])
  }

  /** The digits of `s` after an optional leading sign. */
  function Unsigned(s: string): string
    requires |s| > 0
  {
    if s[0] == '+' || s[0] == '-' then s[1..] else s
  }

  /** The value of a sign-and-digits numeral, without any bound. */
  function SignedValue(s: string): int
    requires |s| > 0 && AllDigits(Unsigned(s))
  {
    var n: int := DigitsValue(Unsigned(s));
    if s[0] == '-' then -n else n
  }

  /** `strconv.Atoi`: `None` stands for both its syntax error and its range error. */
  function Atoi(s: string): (r: Option<int>)
    ensures r.Some? <==>
      |s| > 0 && |Unsigned(s)| > 0 && AllDigits(Unsigned(s))
      && MinInt <= SignedValue(s) <= MaxInt
    ensures r.Some? ==> MinInt <= r.value <= MaxInt
    ensures r.Some? ==> (r.value < 0 ==> s[0] == '-')
    ensures r.Some? ==> r.value == SignedValue(s)
  {
    if |s| == 0 then None
    else
      var digits := Unsigned(s);
      if |digits| == 0 || !AllDigits(digits) then None
      else
        var n := SignedValue(s);
        if MinInt <= n <= MaxInt then Some(n) else None
  }

  function DigitChar(d: nat): (c: char)
    requires d < 10
    ensures IsDigit(c) && DigitValue(c) == d
  {
    ('0' as int + d) as char
  }

  /** Shortest decimal rendering of a natural number (what `strconv.Itoa` prints). */
  function NatToString(n: nat): string
    decreases n
  {
    if n < 10 then [DigitChar(n)] else NatToString(n / 10) + [DigitChar(n % 10)]
  }

  /** `strconv.Itoa`: the reference rendering that `Atoi` inverts. */
  function FormatInt(n: int): string
  {
    if n < 0 then "-" + NatToString(-n) else NatToString(n)
  }

  lemma {:induction false} NatToStringDigits(n: nat)
    ensures |NatToString(n)| > 0
    ensures AllDigits(NatToString(n))
    ensures DigitsValue(NatToString(n)) == n
    decreases n
  {
    if n >= 10 {
      NatToStringDigits(n / 10);
      var s := NatToString(n);
      assert s[..|s| - 1] == NatToString(n / 10);
    }
  }

  /** `Atoi` reads back every in-range integer that `FormatInt` prints. */
  lemma AtoiFormatInt(n: int)
    requires MinInt <= n <= MaxInt
    ensures Atoi(FormatInt(n)) == Some(n)
  {
    var s := FormatInt(n);
    if n < 0 {
      NatToStringDigits(-n);
      assert Unsigned(s) == NatToString(-n);
    } else {
      NatToStringDigits(n);
      assert Unsigned(s) == NatToString(n);
    }
  }

  /** A leading '+' does not change the value `Atoi` reads. */
  lemma AtoiPlusSign(digits: string)
    requires |digits| > 0 && AllDigits(digits)
    ensures Atoi("+" + digits) == Atoi(digits)
  {
  }

  /** A leading zero digit adds nothing to a numeral's value. */
  lemma {:induction false} DigitsValueLeadingZero(digits: string)
    requires AllDigits(digits)
    ensures AllDigits("0" + digits)
    ensures DigitsValue("0" + digits) == DigitsValue(digits)
    decreases |digits|
  {
    var z := "0" + digits;
    if |digits| > 0 {
      var init := digits[..|digits| - 1];
      assert z[..|z| - 1] == "0" + init;
      DigitsValueLeadingZero(init);
    }
  }

  /** Leading zeros do not change the value `Atoi` reads, with or without a sign:
      "007" reads as 7, "-007" as -7. */
  lemma AtoiLeadingZero(sign: string, digits: string)
    requires sign in {"", "+", "-"}
    requires |digits| > 0 && AllDigits(digits)
    ensures Atoi(sign + "0" + digits) == Atoi(sign + digits)
  {
    DigitsValueLeadingZero(digits);
    assert Unsigned(sign + "0" + digits) == "0" + digits;
    assert Unsigned(sign + digits) == digits;
  }

  /** Worked numerals. */
  lemma AtoiSamples()
    ensures Atoi("3456") == Some(3456)
    ensures Atoi("5") == Some(5)
    ensures Atoi("-5") == Some(-5)
    ensures Atoi("4000") == Some(4000)
  {
    AtoiFormatInt(3456);
    assert FormatInt(3456) == "3456";
    AtoiFormatInt(5);
    assert FormatInt(5) == "5";
    AtoiFormatInt(-5);
    assert FormatInt(-5) == "-5";
    AtoiFormatInt(4000);
    assert FormatInt(4000) == "4000";
  }

  /** Numerals with leading zeros, as `AtoiLeadingZero` predicts. */
  lemma AtoiLeadingZeroSamples()
    ensures Atoi("007") == Some(7)
    ensures Atoi("-0") == Some(0)
  {
    assert "007"[..2] == "00" && "00"[..1] == "0" && "0"[..0] == "";
    assert DigitsValue("007") == 7;
    assert Unsigned("-0") == "0";
    assert DigitsValue("0") == 0;
  }
}
