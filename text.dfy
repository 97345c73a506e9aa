/** The string operations of JavaScript that the source relies on. */
module Text {
  import opened Wrappers

  predicate IsDigit(c: char) { '0' <= c <= '9' }

  /**
   * `s.replace(/\D/g, '')`: every character other than the ASCII digits 0-9 is
   * removed and the digits keep their order.
   */
  function DigitsOnly(s: string): (r: string)
    ensures |r| <= |s|
    ensures forall i :: 0 <= i < |r| ==> IsDigit(r[i])
  {
    if s == [] then [] else (if IsDigit(s[0]) then [s[0]] else []) + DigitsOnly(s[1..])
  }

  /** A string made of digits is left as it is. */
  lemma {:induction false} DigitsOnlyKeepsDigitStrings(s: string)
    requires forall i :: 0 <= i < |s| ==> IsDigit(s[i])
    ensures DigitsOnly(s) == s
  {
    if s != [] {
      DigitsOnlyKeepsDigitStrings(s[1..]);
    }
  }

  /** Normalizing twice is normalizing once. */
  lemma DigitsOnlyIdempotent(s: string)
    ensures DigitsOnly(DigitsOnly(s)) == DigitsOnly(s)
  {
    DigitsOnlyKeepsDigitStrings(DigitsOnly(s));
  }

  /** Normalization works piecewise, so the digits come out in their original order. */
  lemma {:induction false} DigitsOnlyConcat(a: string, b: string)
    ensures DigitsOnly(a + b) == DigitsOnly(a) + DigitsOnly(b)
  {
    if a == [] {
      assert a + b == b;
    } else {
      assert (a + b)[1..] == a[1..] + b;
      DigitsOnlyConcat(a[1..], b);
    }
  }

  /** A string without digits normalises to the empty string. */
  lemma {:induction false} DigitsOnlyNoDigits(s: string)
    requires forall i :: 0 <= i < |s| ==> !IsDigit(s[i])
    ensures DigitsOnly(s) == ""
  {
    if s != [] {
      DigitsOnlyNoDigits(s[1..]);
    }
  }

  /** Every digit of the input survives, as often as it occurs; nothing else does. */
  lemma {:induction false} DigitsOnlyCounts(s: string, c: char)
    ensures multiset(DigitsOnly(s))[c] == if IsDigit(c) then multiset(s)[c] else 0
  {
    if s != [] {
      DigitsOnlyCounts(s[1..], c);
      assert s == [s[0]] + s[1..];
    }
  }

  /** `s.startsWith(prefix)`. */
  predicate StartsWith(s: string, prefix: string) { prefix <= s }

  /**
   * `s.replace(pattern, replacement)` with a string pattern: only the FIRST
   * occurrence is replaced (an empty pattern matches at the start).
   */
  function ReplaceFirst(s: string, pattern: string, replacement: string): string
    decreases |s|
  {
    if |s| < |pattern| then s
    else if s[..|pattern|] == pattern then replacement + s[|pattern|..]
    else [s[0]] + ReplaceFirst(s[1..], pattern, replacement)
  }

  /** The pattern occurs in s starting at position i. */
  predicate OccursAt(s: string, pattern: string, i: int) {
    0 <= i && i + |pattern| <= |s| && s[i..i + |pattern|] == pattern
  }

  lemma OccursAtTail(s: string, pattern: string, i: int)
    requires s != [] && 0 <= i
    ensures OccursAt(s[1..], pattern, i) <==> OccursAt(s, pattern, i + 1)
  {
    if i + |pattern| <= |s| - 1 {
      assert s[1..][i..i + |pattern|] == s[i + 1..i + 1 + |pattern|];
    }
  }

  /** Only the first occurrence is replaced: the text after it is kept verbatim. */
  lemma {:induction false} ReplaceFirstAt(s: string, pattern: string, replacement: string, k: nat)
    requires |pattern| > 0 && OccursAt(s, pattern, k)
    requires forall i :: 0 <= i < k ==> !OccursAt(s, pattern, i)
    ensures ReplaceFirst(s, pattern, replacement) == s[..k] + replacement + s[k + |pattern|..]
  {
    if k == 0 {
      assert s[..|pattern|] == s[0..|pattern|];
    } else {
      assert s[..|pattern|] != pattern by {
        assert !OccursAt(s, pattern, 0);
        assert s[..|pattern|] == s[0..|pattern|];
      }
      var t := s[1..];
      assert ReplaceFirst(s, pattern, replacement) == [s[0]] + ReplaceFirst(t, pattern, replacement);
      forall i | 0 <= i < k - 1
        ensures !OccursAt(t, pattern, i)
      {
        OccursAtTail(s, pattern, i);
      }
      OccursAtTail(s, pattern, k - 1);
      ReplaceFirstAt(t, pattern, replacement, k - 1);
      SplitAround(s, k, |pattern|, replacement);
    }
  }

  lemma SplitAround(s: string, k: nat, n: nat, middle: string)
    requires 0 < k && k + n <= |s|
    ensures [s[0]] + (s[1..][..k - 1] + middle + s[1..][k - 1 + n..]) == s[..k] + middle + s[k + n..]
  {
    assert [s[0]] + s[1..][..k - 1] == s[..k];
    assert s[1..][k - 1 + n..] == s[k + n..];
  }

  /** `value || fallback` for an optional string: absent and empty both fall back. */
  function OrElse(value: Option<string>, fallback: string): string {
    if value.Some? && value.value != "" then value.value else fallback
  }

  /** `c.toLowerCase()` restricted to ASCII letters. */
  function LowerChar(c: char): char {
    if 'A' <= c <= 'Z' then (c as int + 32) as char else c
  }

  /** `s.toLowerCase()` restricted to ASCII letters. */
  function ToLower(s: string): string {
    seq(|s|, i requires 0 <= i < |s| => LowerChar(s[i]))
  }

  /** The characters `String.prototype.trim` removes (ECMAScript WhiteSpace and LineTerminator). */
  predicate IsJsSpace(c: char) {
    c == ' ' || c == '\t' || c == '\n' || c == '\r' || c == '\U{B}' || c == '\U{C}'
    || c == '\U{A0}' || c == '\U{1680}' || ('\U{2000}' <= c <= '\U{200A}')
    || c == '\U{2028}' || c == '\U{2029}' || c == '\U{202F}' || c == '\U{205F}'
    || c == '\U{3000}' || c == '\U{FEFF}'
  }

  function TrimStart(s: string): string {
    if s != [] && IsJsSpace(s[0]) then TrimStart(s[1..]) else s
  }

  function TrimEnd(s: string): string {
    if s != [] && IsJsSpace(s[|s| - 1]) then TrimEnd(s[..|s| - 1]) else s
  }

  /** `s.trim()`. */
  function Trim(s: string): string { TrimEnd(TrimStart(s)) }

  function DigitChar(d: nat): char
    requires d < 10
  {
    ('0' as int + d) as char
  }

  /** The number a string of decimal digits reads as, most significant digit first. */
  function DigitsValue(s: string): int
    requires forall i :: 0 <= i < |s| ==> IsDigit(s[i])
  {
    if s == [] then 0 else DigitsValue(s[..|s| - 1]) * 10 + (s[|s| - 1] as int - '0' as int)
  }

  /** `String(n)` for a non-negative integer: its decimal digits, no leading zeros. */
  function NatToString(n: nat): (r: string)
    ensures |r| >= 1
    ensures forall i :: 0 <= i < |r| ==> IsDigit(r[i])
    ensures DigitsValue(r) == n
    ensures |r| > 1 ==> r[0] != '0'
  {
    if n < 10 then [DigitChar(n)]
    else
      var prefix := NatToString(n / 10);
      var r := prefix + [DigitChar(n % 10)];
      assert r[..|r| - 1] == prefix;
      r
  }

  /** `String(i)` for an integer. */
  function IntToString(i: int): string {
    if i < 0 then "-" + NatToString(-i) else NatToString(i)
  }

  /** `lines.join(separator)`. */
  function Join(lines: seq<string>, separator: string): string {
    if lines == [] then ""
    else if |lines| == 1 then lines[0]
    else lines[0] + separator + Join(lines[1..], separator)
  }

  /** `items.indexOf(x)`: the first position of x, or -1. */
  function IndexOf(items: seq<string>, x: string): (r: int)
    ensures -1 <= r < |items|
    ensures r == -1 <==> x !in items
    ensures r >= 0 ==> items[r] == x && forall j :: 0 <= j < r ==> items[j] != x
  {
    if items == [] then -1
    else if items[0] == x then 0
    else var k := IndexOf(items[1..], x); if k == -1 then -1 else k + 1
  }
}
