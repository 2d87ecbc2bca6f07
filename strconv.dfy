/** Decimal text for integers, as Go's strconv.Itoa writes it and strconv.Atoi reads it. */
module Strconv {
  import opened Wrappers

  /** The bounds of Go's 64-bit int, the range strconv.Atoi accepts. */
  const MinInt: int := -0x8000_0000_0000_0000
  const MaxInt: int := 0x7fff_ffff_ffff_ffff

  /** An ASCII digit, what `\d` matches in Go's regular expressions. */
  predicate IsDigit(c: char) {
    '0' <= c <= '9'
  }

  predicate AllDigits(s: string) {
    forall i :: 0 <= i < |s| ==> IsDigit(s[i])
  }

  function DigitChar(d: nat): (c: char)
    requires d < 10
    ensures IsDigit(c) && DigitValue(c) == d
  {
    ('0' as int + d) as char
  }

  function DigitValue(c: char): (d: nat)
    requires IsDigit(c)
    ensures d < 10
  {
    c as int - '0' as int
  }

  /** The digits of n, most significant first, without leading zeros. */
  function NatToDecimal(n: nat): (s: string)
    ensures 0 < |s| && AllDigits(s)
    ensures s[0] == '0' ==> n == 0
    decreases n
  {
    if n < 10 then [DigitChar(n)] else NatToDecimal(n / 10) + [DigitChar(n % 10)]
  }

  /** strconv.Itoa: a minus sign for negative values, then the decimal digits. */
  function Itoa(i: int): (s: string)
    ensures 0 < |s|
    ensures s[0] == '-' <==> i < 0
  {
    if i < 0 then "-" + NatToDecimal(-i) else NatToDecimal(i)
  }

  /** The value of a digit string, most significant digit first. */
  function DigitsValue(s: string): nat
    requires AllDigits(s)
  {
    if s == [] then 0 else DigitsValue(s[..|s| - 1]) * 10 + DigitValue(s[|s| - 1])
  }

  /** The text after at most one leading sign. */
  function Unsigned(s: string): string {
    if 0 < |s| && (s[0] == '-' || s[0] == '+') then s[1..] else s
  }

  /** -1 for a leading minus sign, 1 otherwise. */
  function Sign(s: string): int {
    if 0 < |s| && s[0] == '-' then -1 else 1
  }

  /** strconv.Atoi: an optional sign, one or more ASCII digits, and a value that fits Go's int. */
  function Atoi(s: string): (r: Option<int>)
    ensures r.Some? ==> MinInt <= r.value <= MaxInt
    ensures r.Some? ==> s != "" && s != "-" && s != "+"
  {
    var signed := 0 < |s| && (s[0] == '-' || s[0] == '+');
    var digits := if signed then s[1..] else s;
    if digits == [] || !AllDigits(digits) then None
    else
      var magnitude: int := DigitsValue(digits);
      var v := if signed && s[0] == '-' then -magnitude else magnitude;
      if MinInt <= v <= MaxInt then Some(v) else None
  }

  /**
   * Which strings Atoi accepts and what it reads: after at most one sign, a non-empty run of
   * ASCII digits whose signed value fits Go's int.
   */
  lemma AtoiAccepts(s: string)
    ensures Atoi(s).Some? <==>
      Unsigned(s) != [] && AllDigits(Unsigned(s)) && MinInt <= Sign(s) * DigitsValue(Unsigned(s)) <= MaxInt
    ensures Atoi(s).Some? ==> Atoi(s).value == Sign(s) * DigitsValue(Unsigned(s))
  {
  }

  /** Leading zeros do not change the value of a digit string. */
  lemma {:induction false} LeadingZeroIgnored(s: string)
    requires AllDigits(s)
    ensures AllDigits("0" + s) && DigitsValue("0" + s) == DigitsValue(s)
    decreases |s|
  {
    if s != [] {
      var t := "0" + s;
      assert t[..|t| - 1] == "0" + s[..|s| - 1];
      LeadingZeroIgnored(s[..|s| - 1]);
    }
  }

  /** A trailing letter and a leading space are rejected; a plus sign and leading zeros are read. */
  lemma AtoiExamples()
    ensures Atoi("12a") == None
    ensures Atoi(" 1") == None
    ensures Atoi("+007") == Some(7)
    ensures Atoi("-0") == Some(0)
  {
    assert !IsDigit("12a"[2]);
    assert !IsDigit(" 1"[0]);
    assert "+007"[1..] == "007" == "0" + "07" && "07" == "0" + "7";
    assert DigitsValue("7") == DigitsValue([]) * 10 + DigitValue('7') == 7;
    LeadingZeroIgnored("7");
    LeadingZeroIgnored("07");
    assert DigitsValue("007") == 7;
    assert "-0"[1..] == "0";
  }

  /** Reading back the digits NatToDecimal writes gives the number again. */
  lemma {:induction false} DecimalRoundTrip(n: nat)
    ensures DigitsValue(NatToDecimal(n)) == n
  {
    if n >= 10 {
      var s := NatToDecimal(n);
      assert s[..|s| - 1] == NatToDecimal(n / 10);
      DecimalRoundTrip(n / 10);
    }
  }

  /** Atoi reads back every Go int that Itoa writes. */
  lemma AtoiItoa(i: int)
    requires MinInt <= i <= MaxInt
    ensures Atoi(Itoa(i)) == Some(i)
  {
    var s := Itoa(i);
    if i < 0 {
      var d := NatToDecimal(-i);
      assert s == "-" + d;
      assert s[1..] == d;
      DecimalRoundTrip(-i);
      assert DigitsValue(d) == -i;
    } else {
      var d := NatToDecimal(i);
      assert s == d;
      assert IsDigit(s[0]);
      DecimalRoundTrip(i);
      assert DigitsValue(d) == i;
    }
  }
}
