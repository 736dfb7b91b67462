/** The two string conversions the parsing layer leans on: `str.upper()` applied to venue
    vocabulary and `str(n)` applied to the venue's integer identifiers. */
module Text {

  predicate IsLowerAscii(c: char) {
    'a' <= c <= 'z'
  }

  /** A string in which no ASCII lower-case letter remains. */
  predicate NoLowerAscii(s: string) {
    forall i :: 0 <= i < |s| ==> !IsLowerAscii(s[i])
  }

  function UpperChar(c: char): char {
    if IsLowerAscii(c) then (c as int - 32) as char else c
  }

  /** `s.upper()` restricted to ASCII: lower-case letters become their capitals, every other
      character is kept. */
  function Upper(s: string): (r: string)
    ensures |r| == |s|
    ensures NoLowerAscii(r)
    ensures forall i :: 0 <= i < |s| && IsLowerAscii(s[i]) ==> r[i] as int + 32 == s[i] as int
    ensures forall i :: 0 <= i < |s| && !IsLowerAscii(s[i]) ==> r[i] == s[i]
  {
    if |s| == 0 then [] else [UpperChar(s[0])] + Upper(s[1..])
  }

  /** A string without lower-case letters is left as it is. */
  lemma UpperKeepsUpper(s: string)
    requires NoLowerAscii(s)
    ensures Upper(s) == s
  {
    var r := Upper(s);
    assert forall i :: 0 <= i < |s| ==> r[i] == s[i];
  }

  /** Upper-casing twice is upper-casing once. */
  lemma UpperIdempotent(s: string)
    ensures Upper(Upper(s)) == Upper(s)
  {
    UpperKeepsUpper(Upper(s));
  }

  /** Two strings that differ only in the case of their letters upper-case to the same string. */
  lemma UpperIgnoresCase(a: string, b: string)
    requires |a| == |b|
    requires forall i :: 0 <= i < |a| ==> UpperChar(a[i]) == UpperChar(b[i])
    ensures Upper(a) == Upper(b)
  {
    var ra, rb := Upper(a), Upper(b);
    forall i | 0 <= i < |a|
      ensures ra[i] == rb[i]
    {
      assert ra[i] == UpperChar(a[i]);
      assert rb[i] == UpperChar(b[i]);
    }
  }

  predicate IsDigit(c: char) {
    '0' <= c <= '9'
  }

  predicate AllDigits(s: string) {
    forall i :: 0 <= i < |s| ==> IsDigit(s[i])
  }

  function DigitChar(d: nat): (c: char)
    requires d < 10
    ensures IsDigit(c)
    ensures c as int - '0' as int == d
  {
    ('0' as int + d) as char
  }

  /** Decimal digits of a natural number, most significant first, without leading zeros. */
  function ShowNat(n: nat): (s: string)
    ensures |s| >= 1
    ensures AllDigits(s)
    ensures |s| > 1 ==> s[0] != '0'
  {
    if n < 10 then [DigitChar(n)] else ShowNat(n / 10) + [DigitChar(n % 10)]
  }

  /** `str(n)` for a Python int: a minus sign before the digits of a negative number. */
  function ShowInt(n: int): (s: string)
    ensures |s| >= 1
    ensures n >= 0 <==> IsDigit(s[0])
    ensures n < 0 <==> s[0] == '-'
    ensures n >= 0 ==> AllDigits(s) && ParseNat(s) == n
    ensures n < 0 ==> AllDigits(s[1..]) && ParseNat(s[1..]) == -n
    ensures n >= 0 && |s| > 1 ==> s[0] != '0'
    ensures n < 0 ==> |s| >= 2 && s[1] != '0'
  {
    if n < 0 then
      ParseShowNat(-n);
      assert ("-" + ShowNat(-n))[1..] == ShowNat(-n);
      "-" + ShowNat(-n)
    else
      ParseShowNat(n);
      ShowNat(n)
  }

  /** The number a string of decimal digits denotes; the inverse of ShowNat. */
  function ParseNat(s: string): nat
    requires AllDigits(s)
  {
    if |s| == 0 then 0 else 10 * ParseNat(s[..|s| - 1]) + (s[|s| - 1] as int - '0' as int)
  }

  lemma {:induction false} ParseShowNat(n: nat)
    ensures ParseNat(ShowNat(n)) == n
  {
    if n >= 10 {
      var s := ShowNat(n);
      var prefix := ShowNat(n / 10);
      assert s == prefix + [DigitChar(n % 10)];
      assert s[..|s| - 1] == prefix;
      ParseShowNat(n / 10);
    }
  }

  /** Distinct integers are rendered as distinct strings. */
  lemma ShowIntInjective(a: int, b: int)
    ensures ShowInt(a) == ShowInt(b) ==> a == b
  {
    if ShowInt(a) == ShowInt(b) {
      if a < 0 {
        assert b < 0;
        assert ShowNat(-a) == ShowInt(a)[1..] == ShowInt(b)[1..] == ShowNat(-b);
        ParseShowNat(-a);
        ParseShowNat(-b);
      } else {
        assert b >= 0;
        ParseShowNat(a);
        ParseShowNat(b);
      }
    }
  }
}
