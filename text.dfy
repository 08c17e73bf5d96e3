/**
 * Text handling used to build cache keys: upper-casing a symbol (ASCII letters
 * only) and rendering an integer in decimal, with the proofs that a key built
 * from them identifies the symbol up to case and the integer exactly.
 */
module Text {

  predicate IsLower(c: char) { 'a' <= c <= 'z' }

  predicate IsDigit(c: char) { '0' <= c <= '9' }

  /** Upper-case one character: `a`..`z` become `A`..`Z`, everything else is kept. */
  function UpperChar(c: char): char
  {
    if IsLower(c) then (c as int - 32) as char else c
  }

  /** `string.ToUpper()` restricted to ASCII letters. */
  function ToUpper(s: string): (u: string)
    ensures |u| == |s|
    ensures forall i :: 0 <= i < |s| ==> u[i] == UpperChar(s[i])
  {
    if s == [] then [] else [UpperChar(s[0])] + ToUpper(s[1..])
  }

  /** Two characters that are equal, or are the lower- and upper-case form of one letter. */
  predicate SameLetter(a: char, b: char)
  {
    || a == b
    || (IsLower(a) && b as int == a as int - 32)
    || (IsLower(b) && a as int == b as int - 32)
  }

  /** Case-insensitive equality of two symbols, defined without ToUpper. */
  predicate EqualsIgnoringCase(s: string, t: string)
  {
    |s| == |t| && forall i :: 0 <= i < |s| ==> SameLetter(s[i], t[i])
  }

  lemma UpperCharSame(a: char, b: char)
    ensures UpperChar(a) == UpperChar(b) <==> SameLetter(a, b)
  {
  }

  /** Two symbols upper-case to the same text exactly when they differ only in case. */
  lemma ToUpperEqualIff(s: string, t: string)
    ensures ToUpper(s) == ToUpper(t) <==> EqualsIgnoringCase(s, t)
  {
    if ToUpper(s) == ToUpper(t) {
      forall i | 0 <= i < |s| ensures SameLetter(s[i], t[i]) {
        assert ToUpper(s)[i] == ToUpper(t)[i];
        UpperCharSame(s[i], t[i]);
      }
    }
    if EqualsIgnoringCase(s, t) {
      forall i | 0 <= i < |s| ensures ToUpper(s)[i] == ToUpper(t)[i] {
        UpperCharSame(s[i], t[i]);
      }
    }
  }

  /** `p + a == p + b` exactly when `a == b`. */
  lemma PrefixCancel(p: string, a: string, b: string)
    ensures p + a == p + b <==> a == b
  {
    if p + a == p + b {
      assert a == (p + a)[|p|..];
      assert b == (p + b)[|p|..];
    }
  }

  lemma CharAfterColon(x: string, d: string, j: int)
    requires |x| < j < |x| + 1 + |d|
    ensures (x + ":" + d)[j] == d[j - |x| - 1] && d[j - |x| - 1] in d
  {
  }

  /** Splitting a key at its last colon: the part after it cannot contain one. */
  lemma LastColonSplit(x1: string, d1: string, x2: string, d2: string)
    requires ':' !in d1 && ':' !in d2
    ensures x1 + ":" + d1 == x2 + ":" + d2 <==> x1 == x2 && d1 == d2
  {
    var k1, k2 := x1 + ":" + d1, x2 + ":" + d2;
    if k1 == k2 {
      if |d1| < |d2| {
        CharAfterColon(x2, d2, |x1|);
        assert false;
      }
      if |d2| < |d1| {
        CharAfterColon(x1, d1, |x2|);
        assert false;
      }
      assert d1 == k1[|k1| - |d1|..];
      assert d2 == k2[|k2| - |d2|..];
      assert x1 == k1[..|x1|];
      assert x2 == k2[..|x2|];
    }
  }

  function DigitChar(d: nat): (c: char)
    requires d < 10
    ensures IsDigit(c)
  {
    ('0' as int + d) as char
  }

  /** Decimal rendering of a natural number, most significant digit first, no leading zeros. */
  function NatToString(n: nat): (s: string)
    ensures |s| >= 1
    ensures forall i :: 0 <= i < |s| ==> IsDigit(s[i])
  {
    if n < 10 then [DigitChar(n)] else NatToString(n / 10) + [DigitChar(n % 10)]
  }

  /** `int.ToString()`: a minus sign for negative numbers, then the digits. */
  function IntToString(n: int): string
  {
    if n < 0 then "-" + NatToString(-n) else NatToString(n)
  }

  /** The value of a string of decimal digits (the reading side of NatToString). */
  function DigitsValue(s: string): nat
    requires forall i :: 0 <= i < |s| ==> IsDigit(s[i])
  {
    if s == [] then 0
    else
      assert IsDigit(s[|s| - 1]);
      DigitsValue(s[..|s| - 1]) * 10 + (s[|s| - 1] as int - '0' as int)
  }

  /** Reads back what IntToString renders. */
  function ParseInt(s: string): int
    requires |s| >= 1
    requires s[0] == '-' ==> forall i :: 1 <= i < |s| ==> IsDigit(s[i])
    requires s[0] != '-' ==> forall i :: 0 <= i < |s| ==> IsDigit(s[i])
  {
    if s[0] == '-' then 0 - DigitsValue(s[1..]) as int else DigitsValue(s)
  }

  lemma {:induction false} NatToStringRoundTrip(n: nat)
    ensures DigitsValue(NatToString(n)) == n
  {
    var s := NatToString(n);
    if n >= 10 {
      NatToStringRoundTrip(n / 10);
      assert s[..|s| - 1] == NatToString(n / 10);
    }
  }

  lemma IntToStringRoundTrip(n: int)
    ensures var s := IntToString(n);
      |s| >= 1 && (s[0] == '-' <==> n < 0) && ParseInt(s) == n
  {
    if n < 0 {
      NatToStringRoundTrip(-n);
      assert IntToString(n)[1..] == NatToString(-n);
    } else {
      NatToStringRoundTrip(n);
    }
  }

  /** Distinct integers render differently, so a rendered limit identifies it. */
  lemma IntToStringInjective(a: int, b: int)
    ensures IntToString(a) == IntToString(b) <==> a == b
  {
    IntToStringRoundTrip(a);
    IntToStringRoundTrip(b);
  }

  lemma IntToStringHasNoColon(n: int)
    ensures ':' !in IntToString(n)
  {
  }
}
