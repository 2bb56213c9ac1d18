/**
 * String helpers shared by the model: the ASCII behaviour of Python's
 * `str.lower()`, `str.strip()`, and the regular-expression classes `\d`,
 * `\s` and `\w`, together with decimal rendering of integers.
 */
module Text {
  import opened Wrappers

  /** `\d` on ASCII input. */
  predicate IsDigit(c: char) { '0' <= c <= '9' }

  /** Whitespace as `str.strip()` and `\s` see it, restricted to ASCII. */
  predicate IsSpace(c: char) { c == ' ' || 9 <= c as int <= 13 || 28 <= c as int <= 31 }

  /** `\w` on ASCII input. */
  predicate IsWordChar(c: char) { IsDigit(c) || 'a' <= c <= 'z' || 'A' <= c <= 'Z' || c == '_' }

  predicate AllDigits(s: string) { forall i :: 0 <= i < |s| ==> IsDigit(s[i]) }

  function LowerChar(c: char): char { if 'A' <= c <= 'Z' then (c as int + 32) as char else c }

  /** `str.lower()` on ASCII letters. */
  function Lower(s: string): (r: string)
    ensures |r| == |s|
    ensures forall i :: 0 <= i < |s| ==> r[i] == LowerChar(s[i])
  {
    seq(|s|, i requires 0 <= i < |s| => LowerChar(s[i]))
  }

  /** Number of leading characters of `s` that are whitespace. */
  function LeadingSpaces(s: string): (n: nat)
    ensures n <= |s|
    ensures forall i :: 0 <= i < n ==> IsSpace(s[i])
    ensures n == |s| || !IsSpace(s[n])
  {
    if s == [] || !IsSpace(s[0]) then 0 else 1 + LeadingSpaces(s[1..])
  }

  /** Number of leading decimal digits of `s` (the span a greedy `\d+` takes). */
  function LeadingDigits(s: string): (n: nat)
    ensures n <= |s|
    ensures forall i :: 0 <= i < n ==> IsDigit(s[i])
    ensures n == |s| || !IsDigit(s[n])
  {
    if s == [] || !IsDigit(s[0]) then 0 else 1 + LeadingDigits(s[1..])
  }

  /** Number of leading word characters of `s` (the span a greedy `\w+` takes). */
  function LeadingWordChars(s: string): (n: nat)
    ensures n <= |s|
    ensures forall i :: 0 <= i < n ==> IsWordChar(s[i])
    ensures n == |s| || !IsWordChar(s[n])
  {
    if s == [] || !IsWordChar(s[0]) then 0 else 1 + LeadingWordChars(s[1..])
  }

  /** `s` without its leading whitespace. */
  function SkipSpaces(s: string): (r: string)
    ensures r == s[LeadingSpaces(s)..]
  {
    s[LeadingSpaces(s)..]
  }

  /** Number of trailing characters of `s` that are whitespace. */
  function TrailingSpaces(s: string): (n: nat)
    ensures n <= |s|
    ensures forall i :: |s| - n <= i < |s| ==> IsSpace(s[i])
    ensures n == |s| || !IsSpace(s[|s| - n - 1])
  {
    if s == [] || !IsSpace(s[|s| - 1]) then 0 else 1 + TrailingSpaces(s[..|s| - 1])
  }

  /** `str.strip()`: the longest infix of `s` that neither starts nor ends with whitespace. */
  function Strip(s: string): (r: string)
    ensures r == [] || (!IsSpace(r[0]) && !IsSpace(r[|r| - 1]))
    ensures exists i, j :: 0 <= i <= j <= |s| && r == s[i..j]
  {
    var t := SkipSpaces(s);
    var r := t[..|t| - TrailingSpaces(t)];
    assert r == s[LeadingSpaces(s)..LeadingSpaces(s) + |r|];
    r
  }

  predicate NoCapitals(s: string) { forall i :: 0 <= i < |s| ==> !('A' <= s[i] <= 'Z') }

  lemma NoCapitalsConcat(a: string, b: string)
    requires NoCapitals(a) && NoCapitals(b)
    ensures NoCapitals(a + b)
  {
  }

  lemma DigitsNoCapitals(s: string)
    requires AllDigits(s)
    ensures NoCapitals(s)
  {
  }

  /** `Lower` leaves strings without capital letters alone. */
  lemma LowerIdentity(s: string)
    requires NoCapitals(s)
    ensures Lower(s) == s
  {
  }

  /** `Strip` leaves strings that neither start nor end with whitespace alone. */
  lemma StripIdentity(s: string)
    requires s != [] && !IsSpace(s[0]) && !IsSpace(s[|s| - 1])
    ensures Strip(s) == s
  {
    assert SkipSpaces(s) == s;
  }

  /** A run of exactly `n` leading digits. */
  lemma {:induction false} LeadingDigitsExact(s: string, n: nat)
    requires n <= |s| && (forall i :: 0 <= i < n ==> IsDigit(s[i])) && (n == |s| || !IsDigit(s[n]))
    ensures LeadingDigits(s) == n
  {
    if n > 0 { LeadingDigitsExact(s[1..], n - 1); }
  }

  /** A run of exactly `n` leading word characters. */
  lemma {:induction false} LeadingWordCharsExact(s: string, n: nat)
    requires n <= |s| && (forall i :: 0 <= i < n ==> IsWordChar(s[i])) && (n == |s| || !IsWordChar(s[n]))
    ensures LeadingWordChars(s) == n
  {
    if n > 0 { LeadingWordCharsExact(s[1..], n - 1); }
  }

  /** A run of exactly `n` leading whitespace characters. */
  lemma {:induction false} LeadingSpacesExact(s: string, n: nat)
    requires n <= |s| && (forall i :: 0 <= i < n ==> IsSpace(s[i])) && (n == |s| || !IsSpace(s[n]))
    ensures LeadingSpaces(s) == n
  {
    if n > 0 { LeadingSpacesExact(s[1..], n - 1); }
  }

  predicate StartsWith(s: string, prefix: string) { |prefix| <= |s| && s[..|prefix|] == prefix }

  predicate EndsWith(s: string, suffix: string) { |suffix| <= |s| && s[|s| - |suffix|..] == suffix }

  /** Python's `sub in s`. */
  predicate Contains(s: string, sub: string)
  {
    StartsWith(s, sub) || (s != [] && Contains(s[1..], sub))
  }

  lemma {:induction false} ContainsAt(s: string, sub: string, i: nat)
    requires i + |sub| <= |s| && s[i..i + |sub|] == sub
    ensures Contains(s, sub)
  {
    if i > 0 {
      assert s[1..][i - 1..i - 1 + |sub|] == sub;
      ContainsAt(s[1..], sub, i - 1);
    }
  }

  lemma {:induction false} ContainsAppend(s: string, t: string, sub: string)
    requires Contains(s, sub) || Contains(t, sub)
    ensures Contains(s + t, sub)
  {
    if Contains(s, sub) {
      var i := ContainsWitness(s, sub);
      assert (s + t)[i..i + |sub|] == s[i..i + |sub|];
      ContainsAt(s + t, sub, i);
    } else {
      var i := ContainsWitness(t, sub);
      assert (s + t)[|s| + i..|s| + i + |sub|] == t[i..i + |sub|];
      ContainsAt(s + t, sub, |s| + i);
    }
  }

  lemma {:induction false} ContainsWitness(s: string, sub: string) returns (i: nat)
    requires Contains(s, sub)
    ensures i + |sub| <= |s| && s[i..i + |sub|] == sub
  {
    if StartsWith(s, sub) {
      i := 0;
    } else {
      var j := ContainsWitness(s[1..], sub);
      assert s[1..][j..j + |sub|] == s[j + 1..j + 1 + |sub|];
      i := j + 1;
    }
  }

  /** `s.find(c)`: the first index of `c`, or -1. */
  function IndexOf(s: string, c: char): (k: int)
    ensures -1 <= k < |s|
    ensures k == -1 <==> c !in s
    ensures k >= 0 ==> s[k] == c && c !in s[..k]
  {
    if s == [] then -1
    else if s[0] == c then 0
    else
      var k := IndexOf(s[1..], c);
      assert s[1..] == s[1..];
      if k == -1 then (assert c !in s; -1) else (assert s[..k + 1] == [s[0]] + s[1..][..k]; k + 1)
  }

  lemma IndexOfAt(s: string, c: char, k: nat)
    requires k < |s| && s[k] == c && c !in s[..k]
    ensures IndexOf(s, c) == k
  {
  }

  /** `s.rfind(c)`: the last index of `c`, or -1. */
  function LastIndexOf(s: string, c: char): (k: int)
    ensures -1 <= k < |s|
    ensures k == -1 <==> c !in s
    ensures k >= 0 ==> s[k] == c && c !in s[k + 1..]
  {
    if s == [] then -1
    else if s[|s| - 1] == c then |s| - 1
    else
      var k := LastIndexOf(s[..|s| - 1], c);
      if k == -1 then (assert s == s[..|s| - 1] + [s[|s| - 1]]; -1)
      else (assert s[k + 1..] == s[..|s| - 1][k + 1..] + [s[|s| - 1]]; k)
  }

  lemma LastIndexOfAt(s: string, c: char, k: nat)
    requires k < |s| && s[k] == c && c !in s[k + 1..]
    ensures LastIndexOf(s, c) == k
  {
  }

  /** The decimal digits of `s` in order (a Python `filter(str.isdigit, s)`). */
  function KeepDigits(s: string): (r: string)
    ensures AllDigits(r)
    ensures |r| <= |s|
  {
    if s == [] then [] else (if IsDigit(s[0]) then [s[0]] else []) + KeepDigits(s[1..])
  }

  /** `s.rstrip(c)`: `s` without any trailing copies of `c`. */
  function RStripChar(s: string, c: char): (r: string)
    ensures r == [] || r[|r| - 1] != c
    ensures StartsWith(s, r)
    ensures forall i :: |r| <= i < |s| ==> s[i] == c
  {
    if s == [] || s[|s| - 1] != c then s else RStripChar(s[..|s| - 1], c)
  }

  function DigitChar(d: nat): char requires d < 10 { ('0' as int + d) as char }

  function DigitValue(c: char): nat requires IsDigit(c) { c as int - '0' as int }

  /** The number written by a string of decimal digits (Python's `int(s)` on such a string). */
  function DigitsValue(s: string): nat
    requires AllDigits(s)
  {
    if s == [] then 0 else 10 * DigitsValue(s[..|s| - 1]) + DigitValue(s[|s| - 1])
  }

  /** `str(n)` for a natural number. */
  function NatToString(n: nat): (r: string)
    ensures AllDigits(r) && |r| >= 1
    ensures (|r| == 1) == (n < 10)
  {
    if n < 10 then [DigitChar(n)] else NatToString(n / 10) + [DigitChar(n % 10)]
  }

  /** `str(i)` for any integer. */
  function IntToString(i: int): string
  {
    if i < 0 then "-" + NatToString(-i) else NatToString(i)
  }

  /** `"%02d" % n` for a natural number. */
  function Pad2(n: nat): (r: string)
    ensures AllDigits(r) && |r| >= 2
    ensures n < 100 ==> |r| == 2
  {
    if n < 10 then "0" + NatToString(n)
    else (NatToStringLength2(n); NatToString(n))
  }

  lemma Pad2Chars(n: nat)
    requires n < 100
    ensures Pad2(n) == [DigitChar(n / 10), DigitChar(n % 10)]
  {
    if n >= 10 { assert NatToString(n) == NatToString(n / 10) + [DigitChar(n % 10)]; }
  }

  /** `"%04d" % n` for a natural number. */
  function Pad4(n: nat): (r: string)
    ensures AllDigits(r) && |r| >= 4
    ensures n < 10000 ==> |r| == 4
  {
    if n < 10 then "000" + NatToString(n)
    else if n < 100 then (NatToStringLength2(n); "00" + NatToString(n))
    else if n < 1000 then (NatToStringLength2(n / 10); "0" + NatToString(n))
    else (NatToStringLength4(n); NatToString(n))
  }

  lemma NatToStringLength2(n: nat)
    requires 10 <= n
    ensures |NatToString(n)| >= 2 && (n < 100 ==> |NatToString(n)| == 2)
  {
  }

  lemma NatToStringLength4(n: nat)
    requires 1000 <= n
    ensures |NatToString(n)| >= 4 && (n < 10000 ==> |NatToString(n)| == 4)
  {
    NatToStringLength2(n / 100);
  }

  /** Reading back a rendered number gives the number. */
  lemma {:induction false} NatToStringValue(n: nat)
    ensures DigitsValue(NatToString(n)) == n
  {
    if n >= 10 {
      var r := NatToString(n);
      assert r[..|r| - 1] == NatToString(n / 10);
      NatToStringValue(n / 10);
    }
  }

  lemma {:induction false} DigitsValueZeros(z: string, s: string)
    requires AllDigits(s) && forall i :: 0 <= i < |z| ==> z[i] == '0'
    ensures AllDigits(z + s) && DigitsValue(z + s) == DigitsValue(s)
  {
    if s != [] {
      var zs := z + s;
      assert zs[..|zs| - 1] == z + s[..|s| - 1];
      assert zs[|zs| - 1] == s[|s| - 1];
      DigitsValueZeros(z, s[..|s| - 1]);
    } else {
      assert z + s == z;
      ZerosValue(z);
    }
  }

  lemma {:induction false} ZerosValue(z: string)
    requires forall i :: 0 <= i < |z| ==> z[i] == '0'
    ensures AllDigits(z) && DigitsValue(z) == 0
  {
    if z != [] { ZerosValue(z[..|z| - 1]); }
  }

  function Pow10(k: nat): nat { if k == 0 then 1 else 10 * Pow10(k - 1) }

  /** A string of `k` digits denotes a number below `10^k`. */
  lemma {:induction false} DigitsValueBound(s: string)
    requires AllDigits(s)
    ensures DigitsValue(s) < Pow10(|s|)
  {
    if s != [] { DigitsValueBound(s[..|s| - 1]); }
  }

  lemma DigitsValueOne(s: string)
    requires |s| == 1 && AllDigits(s)
    ensures DigitsValue(s) == DigitValue(s[0])
  {
    assert s[..0] == [];
  }

  lemma DigitsValueTwo(s: string)
    requires |s| == 2 && AllDigits(s)
    ensures DigitsValue(s) == 10 * DigitValue(s[0]) + DigitValue(s[1])
  {
    DigitsValueOne(s[..1]);
  }

  /** Leading zeros do not change the value read back. */
  lemma PaddedValue(z: string, n: nat)
    requires forall i :: 0 <= i < |z| ==> z[i] == '0'
    ensures AllDigits(z + NatToString(n)) && DigitsValue(z + NatToString(n)) == n
  {
    DigitsValueZeros(z, NatToString(n));
    NatToStringValue(n);
  }

  lemma Pad2Value(n: nat)
    ensures DigitsValue(Pad2(n)) == n
  {
    if n < 10 { PaddedValue("0", n); } else { PaddedValue("", n); assert "" + NatToString(n) == NatToString(n); }
  }

  lemma Pad4Value(n: nat)
    ensures DigitsValue(Pad4(n)) == n
  {
    if n < 10 { PaddedValue("000", n); }
    else if n < 100 { PaddedValue("00", n); }
    else if n < 1000 { PaddedValue("0", n); }
    else { PaddedValue("", n); assert "" + NatToString(n) == NatToString(n); }
  }

  /** Python's `int(s)` on a string: surrounding whitespace, an optional sign,
      then one or more decimal digits; anything else raises (`None`). */
  function ParseInt(s: string): (r: Option<int>)
  {
    var t := Strip(s);
    if t != [] && (t[0] == '-' || t[0] == '+') && |t| > 1 && AllDigits(t[1..]) then
      var v: int := DigitsValue(t[1..]);
      Some(if t[0] == '-' then -v else v)
    else if t != [] && AllDigits(t) then Some(DigitsValue(t))
    else None
  }

  /** Where `Strip` cuts: only whitespace lies outside `s[i..j]`. */
  lemma StripBounds(s: string) returns (i: nat, j: nat)
    ensures i <= j <= |s| && Strip(s) == s[i..j]
    ensures forall m :: 0 <= m < i ==> IsSpace(s[m])
    ensures forall m :: j <= m < |s| ==> IsSpace(s[m])
  {
    var t := SkipSpaces(s);
    i := LeadingSpaces(s);
    j := i + |t| - TrailingSpaces(t);
    assert forall m :: j <= m < |s| ==> s[m] == t[m - i];
  }

  /** A minus sign followed by digits reads as the negated digits. */
  lemma ParseIntNegative(s: string, n: nat)
    requires |s| >= 2 && s[0] == '-' && AllDigits(s[1..]) && DigitsValue(s[1..]) == n
    ensures ParseInt(s) == Some(-(n as int))
  {
    StripIdentity(s);
  }

  /** A run of digits reads as its value. */
  lemma ParseIntUnsigned(d: string)
    requires d != [] && AllDigits(d)
    ensures ParseInt(d) == Some(DigitsValue(d))
  {
    StripIdentity(d);
  }

  /** `str(i)` for a negative `i` is a minus sign before the digits of `-i`. */
  lemma NegativeForm(i: int)
    requires i < 0
    ensures |IntToString(i)| >= 2 && IntToString(i)[0] == '-'
    ensures AllDigits(IntToString(i)[1..]) && DigitsValue(IntToString(i)[1..]) == -i
  {
    var d := NatToString(-i);
    assert IntToString(i) == "-" + d;
    assert ("-" + d)[1..] == d;
    NatToStringValue(-i);
  }

  /** `int(str(i)) == i` for a negative `i`. */
  lemma NegativeRoundTrip(i: int)
    requires i < 0
    ensures ParseInt(IntToString(i)) == Some(i)
  {
    NegativeForm(i);
    ParseIntNegative(IntToString(i), -i);
  }

  /** `int(str(n)) == n` for a natural number. */
  lemma NatRoundTrip(n: nat)
    ensures ParseInt(NatToString(n)) == Some(n)
  {
    ParseIntUnsigned(NatToString(n));
    NatToStringValue(n);
  }

  /** `int(str(i)) == i` for a non-negative `i`. */
  lemma NonNegativeRoundTrip(i: int)
    requires i >= 0
    ensures ParseInt(IntToString(i)) == Some(i)
  {
    assert IntToString(i) == NatToString(i);
    NatRoundTrip(i);
  }

  /** `int(str(i)) == i`. */
  lemma ParseIntRoundTrip(i: int)
    ensures ParseInt(IntToString(i)) == Some(i)
  {
    if i < 0 { NegativeRoundTrip(i); } else { NonNegativeRoundTrip(i); }
  }

  /** A string with a non-digit, non-sign, non-space character is no integer. */
  lemma ParseIntRejects(s: string, k: nat)
    requires k < |s| && !IsDigit(s[k]) && !IsSpace(s[k]) && s[k] != '-' && s[k] != '+'
    ensures ParseInt(s) == None
  {
    var t := Strip(s);
    var i, j := StripBounds(s);
    assert i <= k < j;
    assert t[k - i] == s[k];
    assert !AllDigits(t);
    assert k - i > 0 ==> !AllDigits(t[1..]) by {
      if k - i > 0 { assert t[1..][k - i - 1] == s[k]; }
    }
  }

  /** `int(s)` of a non-empty string of digits is the number they write. */
  lemma ParseIntDigits(s: string)
    requires s != [] && AllDigits(s)
    ensures ParseInt(s) == Some(DigitsValue(s))
  {
    StripIdentity(s);
  }
}
