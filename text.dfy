/**
 * The JavaScript string operations the chat components rely on:
 * `String.prototype.trim`, `startsWith`, `length` in UTF-16 code units, and
 * the decimal text that a template literal `${n}` produces for an integer. A reader for a leading decimal
 * integer is the inverse used to state which number a label shows.
 */
module Text {
  import opened Maybe

  // ---------------------------------------------------------------------------
  // trim()

  /** The characters `trim()` removes: ECMAScript WhiteSpace and LineTerminator. */
  predicate IsSpace(c: char) {
    var k := c as int;
    k == 0x09 || k == 0x0A || k == 0x0B || k == 0x0C || k == 0x0D || k == 0x20
    || k == 0xA0 || k == 0x1680 || (0x2000 <= k <= 0x200A) || k == 0x2028
    || k == 0x2029 || k == 0x202F || k == 0x205F || k == 0x3000 || k == 0xFEFF
  }

  predicate AllSpace(s: string) {
    forall i :: 0 <= i < |s| ==> IsSpace(s[i])
  }

  /** `s` with its leading white space removed. */
  function TrimStart(s: string): (t: string)
    ensures |t| <= |s| && t == s[|s| - |t|..]
    ensures AllSpace(s[..|s| - |t|])
    ensures t == [] || !IsSpace(t[0])
  {
    if s == [] || !IsSpace(s[0]) then s else TrimStart(s[1..])
  }

  /** `s` with its trailing white space removed. */
  function TrimEnd(s: string): (t: string)
    ensures |t| <= |s| && t == s[..|t|]
    ensures AllSpace(s[|t|..])
    ensures t == [] || !IsSpace(t[|t| - 1])
  {
    if s == [] || !IsSpace(s[|s| - 1]) then s else TrimEnd(s[..|s| - 1])
  }

  /** How many white-space characters `s` starts with. */
  function TrimOffset(s: string): (k: nat)
    ensures k <= |s|
  {
    |s| - |TrimStart(s)|
  }

  /**
   * `t` is `s` with its `k` leading white-space characters and its trailing
   * white space removed: a slice of `s` starting at `k`, with only white space
   * cut off on either side, and no white space left at either end.
   */
  predicate IsTrimOf(s: string, k: nat, t: string) {
    && k + |t| <= |s|
    && t == s[k..k + |t|]
    && AllSpace(s[..k]) && AllSpace(s[k + |t|..])
    && (t == [] || (!IsSpace(t[0]) && !IsSpace(t[|t| - 1])))
  }

  /** `s.trim()`: what is left after removing the white-space prefix and the white-space suffix. */
  function Trim(s: string): (t: string)
    ensures IsTrimOf(s, TrimOffset(s), t)
  {
    var u := TrimStart(s);
    var t := TrimEnd(u);
    TrimmedParts(s, u, t, |s| - |u|);
    t
  }

  /** A white-space prefix cut at `i`, then a white-space suffix cut from the rest, leave a slice of `s`. */
  lemma TrimmedParts(s: string, u: string, t: string, i: nat)
    requires i <= |s| && u == s[i..] && AllSpace(s[..i])
    requires |t| <= |u| && t == u[..|t|] && AllSpace(u[|t|..])
    requires t == [] || (!IsSpace(t[0]) && !IsSpace(t[|t| - 1]))
    ensures IsTrimOf(s, i, t)
  {
    assert u[..|t|] == s[i..i + |t|];
    assert u[|t|..] == s[i + |t|..];
  }

  /** A string is blank after trimming exactly when every character is white space. */
  lemma TrimEmptyIff(s: string)
    ensures Trim(s) == [] <==> AllSpace(s)
  {
    var i := TrimOffset(s);
    if Trim(s) != [] {
      assert s[i] == Trim(s)[0];
    } else {
      assert s == s[..i] + s[i..];
      forall k | 0 <= k < |s| ensures IsSpace(s[k]) {
        assert s[k] == (s[..i] + s[i..])[k];
      }
    }
  }

  lemma {:induction false} TrimStartOfTrimmed(s: string)
    requires s == [] || !IsSpace(s[0])
    ensures TrimStart(s) == s
  {
  }

  lemma {:induction false} TrimEndOfTrimmed(s: string)
    requires s == [] || !IsSpace(s[|s| - 1])
    ensures TrimEnd(s) == s
  {
  }

  /** Trimming twice gives what trimming once gives. */
  lemma TrimIdempotent(s: string)
    ensures Trim(Trim(s)) == Trim(s)
  {
    var t := Trim(s);
    TrimStartOfTrimmed(t);
    TrimEndOfTrimmed(t);
  }

  // ---------------------------------------------------------------------------
  // startsWith()

  predicate StartsWith(s: string, prefix: string) {
    |prefix| <= |s| && s[..|prefix|] == prefix
  }

  // ---------------------------------------------------------------------------
  // Decimal text of integers, as `${n}` prints them

  predicate IsDigit(c: char) {
    '0' <= c <= '9'
  }

  predicate AllDigits(s: string) {
    forall i :: 0 <= i < |s| ==> IsDigit(s[i])
  }

  function DigitChar(d: nat): (c: char)
    requires d < 10
    ensures IsDigit(c) && c as int - '0' as int == d
  {
    ('0' as int + d) as char
  }

  function DigitValue(c: char): (d: nat)
    requires IsDigit(c)
    ensures d < 10
  {
    c as int - '0' as int
  }

  /** Decimal digits of `n`, most significant first, without leading zeros. */
  function NatToString(n: nat): (s: string)
    ensures |s| >= 1 && AllDigits(s)
    ensures s[0] == '0' <==> n == 0
    ensures n < 10 <==> |s| == 1
    decreases n
  {
    if n < 10 then [DigitChar(n)] else NatToString(n / 10) + [DigitChar(n % 10)]
  }

  /** The number a string of decimal digits denotes. */
  function DigitsValue(s: string): nat
    requires AllDigits(s)
    decreases |s|
  {
    if s == [] then 0 else 10 * DigitsValue(s[..|s| - 1]) + DigitValue(s[|s| - 1])
  }

  /** Reading back the digits of `n` gives `n`. */
  lemma {:induction false} NatToStringRoundTrip(n: nat)
    ensures DigitsValue(NatToString(n)) == n
  {
    if n >= 10 {
      var s := NatToString(n);
      assert s[..|s| - 1] == NatToString(n / 10);
      NatToStringRoundTrip(n / 10);
    }
  }

  /**
   * `${i}` for an integer `i`: a minus sign for negative values, then the
   * digits of its magnitude, with no leading zero except for 0 itself.
   */
  function IntToString(i: int): (s: string)
    ensures |s| >= 1
    ensures s[0] == '-' <==> i < 0
    ensures i >= 0 ==> AllDigits(s) && DigitsValue(s) == i
    ensures i >= 0 && s[0] == '0' ==> s == "0"
    ensures i < 0 ==> |s| >= 2 && AllDigits(s[1..]) && DigitsValue(s[1..]) == -i && s[1] != '0'
  {
    if i < 0 then
      var d := NatToString(-i);
      NatToStringRoundTrip(-i);
      assert ("-" + d)[1..] == d;
      "-" + d
    else
      NatToStringRoundTrip(i);
      NatToString(i)
  }

  /**
   * JavaScript's `s.length`: the number of UTF-16 code units, one for a
   * character of the Basic Multilingual Plane and two (a surrogate pair) for
   * any character above it.
   */
  function Utf16Length(s: string): (n: nat)
    ensures |s| <= n <= 2 * |s|
    ensures n == |s| <==> forall i :: 0 <= i < |s| ==> s[i] as int < 0x1_0000
    decreases |s|
  {
    if s == [] then 0
    else
      var tail := s[1..];
      assert forall i :: 0 <= i < |tail| ==> tail[i] == s[i + 1];
      (if s[0] as int < 0x1_0000 then 1 else 2) + Utf16Length(tail)
  }

  /** A single character is one code unit inside the Basic Multilingual Plane and two above it. */
  lemma Utf16LengthOfChar(c: char)
    ensures Utf16Length([c]) == if c as int < 0x1_0000 then 1 else 2
  {
    assert [c][1..] == [];
  }

  /** The length of a concatenation is the sum of the lengths. */
  lemma {:induction false} Utf16LengthOfConcat(a: string, b: string)
    ensures Utf16Length(a + b) == Utf16Length(a) + Utf16Length(b)
    decreases |a|
  {
    if a == [] {
      assert a + b == b;
    } else {
      assert (a + b)[0] == a[0];
      assert (a + b)[1..] == a[1..] + b;
      Utf16LengthOfConcat(a[1..], b);
    }
  }

  /** The longest prefix of `s` made of decimal digits. */
  function LeadingDigits(s: string): (d: string)
    ensures AllDigits(d) && |d| <= |s| && d == s[..|d|]
    decreases |s|
  {
    if s != [] && IsDigit(s[0]) then [s[0]] + LeadingDigits(s[1..]) else []
  }

  /** The integer written at the start of `s` (optional minus sign, then digits), if any. */
  function LeadingInt(s: string): Option<int> {
    if s != [] && s[0] == '-' then
      var d := LeadingDigits(s[1..]);
      var v: int := if d == [] then 0 else DigitsValue(d);
      if d == [] then None else Some(-v)
    else
      var d := LeadingDigits(s);
      if d == [] then None else Some(DigitsValue(d))
  }

  lemma {:induction false} LeadingDigitsOfConcat(a: string, b: string)
    requires AllDigits(a)
    requires b == [] || !IsDigit(b[0])
    ensures LeadingDigits(a + b) == a
    decreases |a|
  {
    if a != [] {
      assert (a + b)[1..] == a[1..] + b;
      LeadingDigitsOfConcat(a[1..], b);
    } else {
      assert a + b == b;
    }
  }

  /** The number printed at the start of a label is read back from it. */
  lemma LeadingIntOfIntToString(i: int, rest: string)
    requires rest == [] || !IsDigit(rest[0])
    ensures LeadingInt(IntToString(i) + rest) == Some(i)
  {
    if i < 0 {
      LeadingIntOfNegative(-i, rest);
      assert IntToString(i) == "-" + NatToString(-i);
    } else {
      LeadingIntOfNatural(i, rest);
    }
  }

  lemma LeadingIntOfNatural(n: nat, rest: string)
    requires rest == [] || !IsDigit(rest[0])
    ensures LeadingInt(NatToString(n) + rest) == Some(n)
  {
    var digits := NatToString(n);
    var full := digits + rest;
    LeadingDigitsOfConcat(digits, rest);
    NatToStringRoundTrip(n);
    assert full[0] == digits[0] && full[0] != '-';
    assert LeadingDigits(full) == digits;
  }

  lemma LeadingIntOfNegative(n: nat, rest: string)
    requires n > 0
    requires rest == [] || !IsDigit(rest[0])
    ensures LeadingInt("-" + NatToString(n) + rest) == Some(-(n as int))
  {
    var digits := NatToString(n);
    var full := "-" + digits + rest;
    assert full[0] == '-';
    assert full[1..] == digits + rest;
    LeadingDigitsOfConcat(digits, rest);
    NatToStringRoundTrip(n);
    assert LeadingDigits(full[1..]) == digits;
  }

  /** Distinct numbers print differently. */
  lemma NatToStringInjective(a: nat, b: nat)
    ensures NatToString(a) == NatToString(b) ==> a == b
  {
    NatToStringRoundTrip(a);
    NatToStringRoundTrip(b);
  }
}
