/** Go's `strconv.Itoa` and `strconv.Atoi` on unbounded integers.

    The provider stores numeric principal and database ids as decimal strings
    and parses them back on refresh; a stored id that does not parse sends the
    refresh straight to the by-name lookup.
 */
module Decimal {
  import opened Wrappers

  predicate IsDigit(c: char) {
    '0' <= c <= '9'
  }

  predicate AllDigits(s: string) {
    forall i :: 0 <= i < |s| ==> IsDigit(s[i])
  }

  function DigitValue(c: char): (d: nat)
    requires IsDigit(c)
    ensures d < 10
  {
    c as int - '0' as int
  }

  function DigitChar(d: nat): (c: char)
    requires d < 10
    ensures IsDigit(c) && DigitValue(c) == d
  {
    ('0' as int + d) as char
  }

  /** The number a run of decimal digits spells, most significant first. */
  function DigitsValue(s: string): nat
    requires AllDigits(s)
  {
    if |s| == 0 then 0
    else 10 * DigitsValue(s[..|s| - 1]) + DigitValue(s[|s| - 1])
  }

  /** The shortest decimal spelling of `n`: no leading zero except for 0 itself. */
  function NatDigits(n: nat): (s: string)
    ensures |s| > 0 && AllDigits(s)
    ensures DigitsValue(s) == n
    ensures |s| > 1 ==> s[0] != '0'
    decreases n
  {
    if n < 10 then [DigitChar(n)]
    else
      var prefix := NatDigits(n / 10);
      var s := prefix + [DigitChar(n % 10)];
      assert s[..|s| - 1] == prefix;
      s
  }

  /** `strconv.Itoa`: a minus sign for negative numbers, then the digits. */
  function Itoa(n: int): (s: string)
    ensures |s| > 0
    ensures n >= 0 ==> AllDigits(s)
    ensures n < 0 <==> s[0] == '-'
  {
    if n < 0 then "-" + NatDigits(-n) else NatDigits(n)
  }

  /** The syntax `strconv.Atoi` accepts: an optional sign and at least one digit. */
  predicate WellFormed(s: string) {
    if |s| > 0 && (s[0] == '+' || s[0] == '-') then |s| > 1 && AllDigits(s[1..])
    else |s| > 0 && AllDigits(s)
  }

  /** `strconv.Atoi`; `None` stands for the syntax error. */
  function Atoi(s: string): (r: Option<int>)
    ensures r.Some? <==> WellFormed(s)
  {
    if |s| > 0 && (s[0] == '+' || s[0] == '-') then
      if |s| > 1 && AllDigits(s[1..]) then
        var v: int := DigitsValue(s[1..]);
        Some(if s[0] == '-' then -v else v)
      else None
    else if |s| > 0 && AllDigits(s) then Some(DigitsValue(s))
    else None
  }

  /** The digits `NatDigits` writes: no superfluous leading zero. */
  predicate CanonicalDigits(d: string) {
    |d| > 0 && AllDigits(d) && (|d| > 1 ==> d[0] != '0')
  }

  /** The strings `Itoa` writes: canonical digits, with a minus sign only
      in front of a non-zero number. */
  predicate Canonical(s: string) {
    CanonicalDigits(s) || (|s| > 1 && s[0] == '-' && CanonicalDigits(s[1..]) && s[1..] != "0")
  }

  /** Digits that do not start with `0` spell a positive number. */
  lemma {:induction false} LeadingDigitPositive(d: string)
    requires |d| > 0 && AllDigits(d) && d[0] != '0'
    ensures DigitsValue(d) >= 1
  {
    if |d| > 1 {
      var p := d[..|d| - 1];
      assert p[0] == d[0];
      LeadingDigitPositive(p);
    }
  }

  /** Canonical digits are the spelling of their own value. */
  lemma {:induction false} CanonicalDigitsRoundTrip(d: string)
    requires CanonicalDigits(d)
    ensures NatDigits(DigitsValue(d)) == d
  {
    if |d| > 1 {
      var p := d[..|d| - 1];
      var last := DigitValue(d[|d| - 1]);
      assert p[0] == d[0];
      LeadingDigitPositive(p);
      CanonicalDigitsRoundTrip(p);
      var v := DigitsValue(d);
      assert v / 10 == DigitsValue(p) && v % 10 == last;
      assert DigitChar(last) == d[|d| - 1];
      assert p + [d[|d| - 1]] == d;
    } else {
      assert [DigitChar(DigitValue(d[0]))] == d;
    }
  }

  /** A string `Itoa` could have written is read by `Atoi` as the number it
      spells: writing that number again gives the same string. */
  lemma ItoaAtoi(s: string)
    requires Canonical(s)
    ensures Atoi(s).Some? && Itoa(Atoi(s).value) == s
  {
    if CanonicalDigits(s) {
      CanonicalDigitsRoundTrip(s);
    } else {
      var d := s[1..];
      if |d| == 1 {
        assert d != "0" ==> d[0] != '0' by {
          assert d == [d[0]];
        }
      }
      LeadingDigitPositive(d);
      CanonicalDigitsRoundTrip(d);
      assert "-" + d == s;
    }
  }

  /** A leading `0` adds nothing to the value. */
  lemma {:induction false} ZeroPrefixValue(d: string)
    requires AllDigits(d)
    ensures AllDigits("0" + d) && DigitsValue("0" + d) == DigitsValue(d)
  {
    var z := "0" + d;
    assert forall i :: 1 <= i < |z| ==> z[i] == d[i - 1];
    if |d| > 0 {
      assert z[..|z| - 1] == "0" + d[..|d| - 1];
      ZeroPrefixValue(d[..|d| - 1]);
    }
  }

  /** Unsigned digits read as the number they spell. */
  lemma AtoiDigits(d: string)
    requires |d| > 0 && AllDigits(d)
    ensures Atoi(d) == Some(DigitsValue(d) as int)
  {
    assert d[0] != '+' && d[0] != '-';
  }

  /** `Atoi` reads a leading `+` as nothing and a leading `-` as negation. */
  lemma AtoiSigns(d: string)
    requires |d| > 0 && AllDigits(d)
    ensures Atoi("+" + d) == Some(DigitsValue(d) as int)
    ensures Atoi("-" + d) == Some(-(DigitsValue(d) as int))
  {
    assert ("+" + d)[1..] == d;
    assert ("-" + d)[1..] == d;
  }

  /** `Atoi` reads leading zeros as nothing; with `AtoiSigns` and `ItoaAtoi`
      this fixes the value of every string it accepts. */
  lemma AtoiLeadingZero(d: string)
    requires |d| > 0 && AllDigits(d)
    ensures Atoi("0" + d) == Atoi(d)
  {
    ZeroPrefixValue(d);
    AtoiDigits(d);
    AtoiDigits("0" + d);
  }

  /** Every id the provider writes reads back as the same number. */
  lemma AtoiItoa(n: int)
    ensures Atoi(Itoa(n)) == Some(n)
  {
    if n < 0 {
      var s := Itoa(n);
      assert s[1..] == NatDigits(-n);
    }
  }
}
