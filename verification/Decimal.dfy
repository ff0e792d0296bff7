/** `strconv.Itoa` and `strconv.Atoi`, the text form of SerializableInt. */
module Decimal {
  import opened Prelude

  const MIN_INT: int := -0x8000_0000_0000_0000
  const MAX_INT: int := 0x7fff_ffff_ffff_ffff

  function Digits(n: nat): string {
    if n < 10 then ['0' + n as char] else Digits(n / 10) + ['0' + (n % 10) as char]
  }

  function Itoa(n: int): string {
    if n < 0 then ['-'] + Digits(-n) else Digits(n)
  }

  predicate AllDigits(s: string) {
    forall i :: 0 <= i < |s| ==> '0' <= s[i] <= '9'
  }

  function Number(s: string): nat
    requires AllDigits(s)
  {
    if s == [] then 0
    else Number(s[..|s| - 1]) * 10 + (s[|s| - 1] as int - '0' as int)
  }

  /** None for what is not a decimal number, or does not fit 64 bits. */
  function Atoi(s: string): Option<int> {
    var signed := s != [] && (s[0] == '-' || s[0] == '+');
    var digits := if signed then s[1..] else s;
    if digits == [] || !AllDigits(digits) then None
    else
      var n: int := if signed && s[0] == '-' then 0 - Number(digits) else Number(digits);
      if MIN_INT <= n <= MAX_INT then Some(n) else None
  }

  lemma {:induction false} NumberOfDigits(n: nat)
    ensures Digits(n) != [] && AllDigits(Digits(n)) && Number(Digits(n)) == n
  {
    if n >= 10 {
      NumberOfDigits(n / 10);
      var s := Digits(n);
      assert s[..|s| - 1] == Digits(n / 10);
    } else {
      assert Digits(n)[..0] == [];
    }
  }

  lemma AtoiSigned(digits: string)
    requires digits != [] && AllDigits(digits)
    ensures Atoi(['-'] + digits) == var n := 0 - Number(digits); if MIN_INT <= n then Some(n) else None
  {
    var s := ['-'] + digits;
    assert s[0] == '-' && s[1..] == digits;
  }

  lemma AtoiUnsigned(digits: string)
    requires digits != [] && AllDigits(digits)
    ensures Atoi(digits) == if Number(digits) <= MAX_INT then Some(Number(digits)) else None
  {
    assert '0' <= digits[0] <= '9';
  }

  /** Reading back what was written gives the number, for every 64-bit integer and no other. */
  lemma AtoiItoa(n: int)
    ensures Atoi(Itoa(n)) == if MIN_INT <= n <= MAX_INT then Some(n) else None
    ensures Atoi(Itoa(n)).Some? <==> -9_223_372_036_854_775_808 <= n <= 9_223_372_036_854_775_807
  {
    if n < 0 {
      NumberOfDigits(-n);
      AtoiSigned(Digits(-n));
    } else {
      NumberOfDigits(n);
      AtoiUnsigned(Digits(n));
    }
  }

  /** A plus sign changes nothing, and what is not digits behind at most one sign is refused. */
  lemma AtoiSigns(s: string)
    ensures s != [] && AllDigits(s) ==> Atoi(['+'] + s) == Atoi(s)
    ensures Atoi(s).Some? ==>
      exists d :: d != [] && AllDigits(d) && (s == d || s == ['-'] + d || s == ['+'] + d)
  {
    if s != [] && AllDigits(s) {
      var plus := ['+'] + s;
      assert plus[0] == '+' && plus[1..] == s && '0' <= s[0];
    }
    if Atoi(s).Some? {
      if s[0] == '-' || s[0] == '+' {
        assert AllDigits(s[1..]) && s == [s[0]] + s[1..];
      }
    }
  }

  lemma {:induction false} DigitsLead(n: nat)
    ensures Digits(n)[0] == '0' <==> n == 0
    ensures |Digits(n)| == 1 <==> n < 10
  {
    if n >= 10 {
      DigitsLead(n / 10);
      assert Digits(n)[0] == Digits(n / 10)[0];
    }
  }

  /**
   * The text is the usual one: a minus sign for a negative number, then digits whose positional value is
   * the number, the last one its units, with no leading zero.
   */
  lemma ItoaIsUsual(n: int)
    ensures
      var s, m := Itoa(n), if n < 0 then -n else n;
      var digits := if n < 0 then s[1..] else s;
      && s != [] && (s[0] == '-' <==> n < 0)
      && AllDigits(digits) && digits != [] && (digits[0] == '0' <==> n == 0)
      && digits[|digits| - 1] as int - '0' as int == m % 10
      && (m >= 10 ==> digits[..|digits| - 1] == Itoa(m / 10))
  {
    var m := if n < 0 then -n else n;
    NumberOfDigits(m);
    DigitsLead(m);
    assert n < 0 ==> Itoa(n)[1..] == Digits(m);
  }
}
