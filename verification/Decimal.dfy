/** Decimal numerals, as `strconv.Itoa` prints them and `strconv.Atoi` reads them on a 64-bit platform. */
module Decimal {
  import opened Wrappers
  import Int64

  predicate IsDigit(c: char) {
    '0' <= c <= '9'
  }

  predicate IsNumeral(s: string) {
    s != "" && forall c :: c in s ==> IsDigit(c)
  }

  function DigitChar(d: nat): (c: char)
    requires d < 10
    ensures IsDigit(c) && DigitValue(c) == d
  {
    '0' + d as char
  }

  function DigitValue(c: char): (d: nat)
    requires IsDigit(c)
  {
    c as int - '0' as int
  }

  /** `strconv.Itoa` for the numbers that are printed here, which are not negative. */
  function Numeral(n: nat): (s: string)
    ensures IsNumeral(s)
  {
    if n < 10 then [DigitChar(n)] else Numeral(n / 10) + [DigitChar(n % 10)]
  }

  function Value(s: string): nat
    requires forall c :: c in s ==> IsDigit(c)
  {
    if s == "" then 0 else Value(s[..|s| - 1]) * 10 + DigitValue(s[|s| - 1])
  }

  /** Reading a digit string: an error exactly when the value does not fit an int64. */
  function Atoi(s: string): (r: Option<nat>)
    requires IsNumeral(s)
  {
    if Value(s) <= Int64.MAX_INT64 then Some(Value(s)) else None
  }

  /** The digits are read from left to right, each counting for its distance from '0'. */
  lemma OneMoreDigit(s: string, c: char)
    requires (forall d :: d in s ==> '0' <= d <= '9') && '0' <= c <= '9'
    ensures Value("") == 0 && Value(s + [c]) == Value(s) * 10 + (c as int - '0' as int)
  {
    assert (s + [c])[..|s|] == s;
  }

  lemma {:induction false} ValueOfNumeral(n: nat)
    ensures Value(Numeral(n)) == n
  {
    if n < 10 {
      assert Numeral(n)[..0] == "";
    } else {
      var s := Numeral(n);
      assert s[..|s| - 1] == Numeral(n / 10);
      ValueOfNumeral(n / 10);
    }
  }

  lemma AtoiOfNumeral(n: nat)
    requires n <= Int64.MAX_INT64
    ensures Atoi(Numeral(n)) == Some(n)
  {
    ValueOfNumeral(n);
  }
}
