/**
 * The string operations the dashboard uses: `toLowerCase` (ASCII letters only),
 * `includes`, `String(n)` for a non-negative integer, and `padStart` with a
 * one-character pad.
 */
module Text {

  function LowerChar(c: char): char
  {
    if 'A' <= c <= 'Z' then (c as int + 32) as char else c
  }

  /** `s.toLowerCase()`, with case mapping restricted to the ASCII letters A-Z. */
  function Lower(s: string): string
  {
    seq(|s|, i requires 0 <= i < |s| => LowerChar(s[i]))
  }

  /** Lower-casing keeps the length and is idempotent, so a lower-cased query is stable. */
  lemma LowerProperties(s: string)
    ensures |Lower(s)| == |s|
    ensures Lower(Lower(s)) == Lower(s)
    ensures forall k :: 0 <= k < |s| ==> !('A' <= Lower(s)[k] <= 'Z')
  {
  }

  /** `sub` occurs in `s` starting at position `i`. */
  predicate OccursAt(s: string, sub: string, i: int)
  {
    0 <= i && i + |sub| <= |s| && s[i..i + |sub|] == sub
  }

  /** `s.includes(sub)`: scans `s` for a position where `sub` is a prefix of the rest. */
  function Contains(s: string, sub: string): bool
  {
    if sub <= s then true
    else if s == [] then false
    else Contains(s[1..], sub)
  }

  /** `Contains` holds exactly when `sub` occurs somewhere in `s` (the empty string occurs everywhere). */
  lemma {:induction false} ContainsOccurs(s: string, sub: string)
    ensures Contains(s, sub) <==> exists i :: OccursAt(s, sub, i)
  {
    if sub <= s {
      assert OccursAt(s, sub, 0);
    } else if s == [] {
      forall i | OccursAt(s, sub, i) ensures false {
      }
    } else {
      ContainsOccurs(s[1..], sub);
      if i :| OccursAt(s[1..], sub, i) {
        assert s[1..][i..i + |sub|] == s[i + 1..i + 1 + |sub|];
        assert OccursAt(s, sub, i + 1);
      }
      if i :| OccursAt(s, sub, i) {
        if i > 0 {
          assert s[1..][i - 1..i - 1 + |sub|] == s[i..i + |sub|];
          assert OccursAt(s[1..], sub, i - 1);
        }
      }
    }
  }

  predicate IsDigit(c: char)
  {
    '0' <= c <= '9'
  }

  predicate AllDigits(s: string)
  {
    forall k :: 0 <= k < |s| ==> IsDigit(s[k])
  }

  function DigitChar(d: nat): (c: char)
    requires d < 10
    ensures IsDigit(c) && c as int - '0' as int == d
  {
    (d + '0' as int) as char
  }

  /** `String(n)` for a non-negative integer: its decimal digits, most significant first. */
  function Decimal(n: nat): (r: string)
    ensures |r| >= 1 && AllDigits(r)
    ensures n > 0 ==> r[0] != '0'
    ensures |r| > 1 ==> r[0] != '0'
  {
    if n < 10 then [DigitChar(n)] else Decimal(n / 10) + [DigitChar(n % 10)]
  }

  /** The number a string of decimal digits denotes (leading zeros allowed). */
  function ValueOf(s: string): nat
    requires AllDigits(s)
  {
    if s == [] then 0 else 10 * ValueOf(s[..|s| - 1]) + (s[|s| - 1] as int - '0' as int)
  }

  function Pow10(k: nat): (r: nat)
    ensures r >= 1
  {
    if k == 0 then 1 else 10 * Pow10(k - 1)
  }

  /** Reading back the digits `Decimal` writes gives the original number. */
  lemma {:induction false} DecimalRoundTrip(n: nat)
    ensures ValueOf(Decimal(n)) == n
  {
    if n >= 10 {
      DecimalRoundTrip(n / 10);
      var r := Decimal(n);
      assert r[..|r| - 1] == Decimal(n / 10);
    }
  }

  /** `Decimal(n)` has at most `k` digits when `n < 10^k`. */
  lemma {:induction false} DecimalLength(n: nat, k: nat)
    requires k >= 1 && n < Pow10(k)
    ensures |Decimal(n)| <= k
  {
    if n >= 10 {
      DecimalLength(n / 10, k - 1);
    }
  }

  /** `s.padStart(width, pad)` with a one-character `pad`: left-fills `s` up to `width` characters. */
  function PadStart(s: string, width: nat, pad: char): (r: string)
    ensures |r| == if |s| >= width then |s| else width
    ensures r[|r| - |s|..] == s
    ensures forall k :: 0 <= k < |r| - |s| ==> r[k] == pad
  {
    if |s| >= width then s else seq(width - |s|, _ => pad) + s
  }

  /** Leading zeros do not change the number a digit string denotes. */
  lemma {:induction false} LeadingZeros(z: string, s: string)
    requires forall k :: 0 <= k < |z| ==> z[k] == '0'
    requires AllDigits(s)
    ensures AllDigits(z + s) && ValueOf(z + s) == ValueOf(s)
  {
    if s == [] {
      assert z + s == z;
      AllZeros(z);
    } else {
      var s' := s[..|s| - 1];
      LeadingZeros(z, s');
      assert (z + s)[..|z + s| - 1] == z + s';
    }
  }

  lemma {:induction false} AllZeros(z: string)
    requires forall k :: 0 <= k < |z| ==> z[k] == '0'
    ensures AllDigits(z) && ValueOf(z) == 0
  {
    if z != [] {
      AllZeros(z[..|z| - 1]);
    }
  }

  /** `String(n).padStart(width, '0')` */
  function ZeroPadded(n: nat, width: nat): string
  {
    PadStart(Decimal(n), width, '0')
  }

  /** Zero padding loses no information: the padded digits still read back as `n`. */
  lemma ZeroPaddedRoundTrip(n: nat, width: nat)
    ensures AllDigits(ZeroPadded(n, width)) && ValueOf(ZeroPadded(n, width)) == n
  {
    var d := Decimal(n);
    var r := ZeroPadded(n, width);
    DecimalRoundTrip(n);
    if |d| < width {
      LeadingZeros(r[..width - |d|], d);
      assert r == r[..width - |d|] + d;
    }
  }

  /** Distinct numbers give distinct zero-padded strings, whatever the width. */
  lemma ZeroPaddedInjective(m: nat, n: nat, width: nat)
    requires ZeroPadded(m, width) == ZeroPadded(n, width)
    ensures m == n
  {
    ZeroPaddedRoundTrip(m, width);
    ZeroPaddedRoundTrip(n, width);
  }

  /** A fixed prefix followed by a zero-padded number still determines the number. */
  lemma PrefixedZeroPaddedInjective(prefix: string, m: nat, n: nat, width: nat)
    requires prefix + ZeroPadded(m, width) == prefix + ZeroPadded(n, width)
    ensures m == n
  {
    var a, b := ZeroPadded(m, width), ZeroPadded(n, width);
    assert a == (prefix + a)[|prefix|..];
    assert b == (prefix + b)[|prefix|..];
    ZeroPaddedInjective(m, n, width);
  }

  /** Numbers below `10^width` pad to exactly `width` characters. */
  lemma ZeroPaddedLength(n: nat, width: nat)
    requires width >= 1 && n < Pow10(width)
    ensures |ZeroPadded(n, width)| == width
  {
    DecimalLength(n, width);
  }

  /** `s.replace(from, to)` with a one-character string pattern: only the first occurrence is replaced. */
  function ReplaceFirst(s: string, from: char, to: char): string
  {
    if s == [] then []
    else if s[0] == from then [to] + s[1..]
    else [s[0]] + ReplaceFirst(s[1..], from, to)
  }

  /** Without a `from` in `s`, nothing changes. */
  lemma {:induction false} ReplaceFirstAbsent(s: string, from: char, to: char)
    requires from !in s
    ensures ReplaceFirst(s, from, to) == s
  {
    if s != [] {
      assert from !in s[1..];
      ReplaceFirstAbsent(s[1..], from, to);
    }
  }

  /** When the first `from` is at position `i`, exactly that position becomes `to`. */
  lemma {:induction false} ReplaceFirstAt(s: string, from: char, to: char, i: nat)
    requires i < |s| && s[i] == from && from !in s[..i]
    ensures ReplaceFirst(s, from, to) == s[..i] + [to] + s[i + 1..]
  {
    if i > 0 {
      assert s[0] != from by { assert s[0] == s[..i][0]; }
      assert s[1..][..i - 1] == s[1..i];
      ReplaceFirstAt(s[1..], from, to, i - 1);
      assert s[..i] == [s[0]] + s[1..i];
      assert s[1..][i..] == s[i + 1..];
    }
  }

  /**
   * The search-box test of the incident and trace lists: an empty query matches
   * everything; otherwise one of the two fields, lower-cased, must contain the
   * lower-cased query.
   */
  function SearchMatches(query: string, first: string, second: string): bool
  {
    query == [] || Contains(Lower(first), Lower(query)) || Contains(Lower(second), Lower(query))
  }

  /** A search matches exactly when the query is empty or occurs, ignoring ASCII case, in either field. */
  lemma SearchMatchesSpec(query: string, first: string, second: string)
    ensures SearchMatches(query, first, second) <==>
      || query == []
      || (exists i :: OccursAt(Lower(first), Lower(query), i))
      || (exists i :: OccursAt(Lower(second), Lower(query), i))
  {
    ContainsOccurs(Lower(first), Lower(query));
    ContainsOccurs(Lower(second), Lower(query));
  }

  /** Typing the query in upper or lower case makes no difference. */
  lemma SearchIgnoresQueryCase(query: string, first: string, second: string)
    ensures SearchMatches(Lower(query), first, second) == SearchMatches(query, first, second)
  {
    LowerProperties(query);
  }
}
