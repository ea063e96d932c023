/**
 * Decimal conversion as Go's `strconv.Atoi` and `strconv.Itoa` perform it on a
 * 64-bit platform: an optional sign followed by at least one ASCII digit, with
 * a range error for values outside `int`.
 */
module Strconv {
  import opened Wrappers
  import opened GoInt

  predicate IsDigit(c: char) {
    '0' <= c <= '9'
  }

  predicate AllDigits(s: string) {
    forall i :: 0 <= i < |s| ==> IsDigit(s[i])
  }

  function DigitValue(c: char): nat
    requires IsDigit(c)
  {
    c as int - '0' as int
  }

  function DigitChar(d: nat): (c: char)
    requires d < 10
    ensures IsDigit(c) && DigitValue(c) == d
  {
    ('0' as int + d) as char
  }

  /** The number a string of decimal digits denotes, most significant digit first. */
  function DigitsValue(s: string): nat
    requires AllDigits(s)
    decreases |s|
  {
    if s == [] then 0
    else 10 * DigitsValue(s[..|s| - 1]) + DigitValue(s[|s| - 1])
  }

  /** `strconv.Atoi`: `None` is the syntax or range error. */
  function Atoi(s: string): (r: Option<int>)
    ensures r.Some? ==> IsInt(r.value)
    ensures r.Some? ==> s != "" && (IsDigit(s[0]) || s[0] == '+' || s[0] == '-')
  {
    var signed := |s| > 0 && (s[0] == '+' || s[0] == '-');
    var digits := if signed then s[1..] else s;
    if digits == [] || !AllDigits(digits) then None
    else
      var magnitude: int := DigitsValue(digits);
      var v: int := if signed && s[0] == '-' then -magnitude else magnitude;
      if IsInt(v) then Some(v) else None
  }

  /** The shortest decimal digits of `n`. */
  function NatDigits(n: nat): (s: string)
    ensures s != [] && AllDigits(s)
    decreases n
  {
    if n < 10 then [DigitChar(n)] else NatDigits(n / 10) + [DigitChar(n % 10)]
  }

  /** `strconv.Itoa`. */
  function Itoa(n: int): string {
    if n < 0 then "-" + NatDigits(-n) else NatDigits(n)
  }

  lemma {:induction false} NatDigitsValue(n: nat)
    ensures DigitsValue(NatDigits(n)) == n
    decreases n
  {
    if n >= 10 {
      var s := NatDigits(n);
      var prefix := NatDigits(n / 10);
      assert s == prefix + [DigitChar(n % 10)];
      assert s[..|s| - 1] == prefix;
      NatDigitsValue(n / 10);
    }
  }

  /** Parsing the text `Itoa` produces gives back every 64-bit integer. */
  lemma AtoiItoa(n: int)
    requires IsInt(n)
    ensures Atoi(Itoa(n)) == Some(n)
  {
    var s := Itoa(n);
    if n < 0 {
      var digits := NatDigits(-n);
      assert s == "-" + digits && s[0] == '-';
      assert s[1..] == digits;
      NatDigitsValue(-n);
      assert DigitsValue(s[1..]) == -n;
    } else {
      assert s == NatDigits(n) && IsDigit(s[0]);
      NatDigitsValue(n);
    }
  }

  /** Text with a non-digit after the optional sign is a syntax error, as in the query `limit=abc`. */
  lemma AtoiRejectsNonDigits(s: string, i: nat)
    requires 0 < i < |s| || (i == 0 < |s| && s[0] != '+' && s[0] != '-')
    requires !IsDigit(s[i])
    ensures Atoi(s) == None
  {
  }

  lemma AtoiExamples()
    ensures Atoi("abc") == None && Atoi("") == None && Atoi("-") == None
    ensures Atoi("2") == Some(2) && Atoi("-1") == Some(-1) && Atoi("+7") == Some(7) && Atoi("007") == Some(7)
  {
    assert DigitsValue("2") == 2;
    assert DigitsValue("1") == 1;
    assert DigitsValue("7") == 7;
    assert "007"[..2] == "00" && "00"[..1] == "0";
    assert DigitsValue("007") == 7;
  }
}
