/** The few pieces of Python's `str` behaviour the monitors rely on:
    `strip`, `startswith`, `in`, `split(sep)[0]`/`[1]`, `replace`,
    `int(str)` and `str(int)`. Strings are sequences of code points. */
module PyText {
  import opened Wrappers

  /** The characters for which Python's `str.isspace()` is true. */
  predicate IsSpace(c: char) {
    var n := c as int;
    (9 <= n <= 13) || (28 <= n <= 32) || n == 0x85 || n == 0xA0 || n == 0x1680
    || (0x2000 <= n <= 0x200A) || n == 0x2028 || n == 0x2029 || n == 0x202F
    || n == 0x205F || n == 0x3000
  }

  predicate IsQuote(c: char) { c == '"' }

  /** Drops the leading characters satisfying `drop`. */
  function TrimStart(s: string, drop: char -> bool): (r: string)
    ensures |r| <= |s|
    ensures r == [] || !drop(r[0])
  {
    if |s| > 0 && drop(s[0]) then TrimStart(s[1..], drop) else s
  }

  /** Drops the trailing characters satisfying `drop`. */
  function TrimEnd(s: string, drop: char -> bool): (r: string)
    ensures |r| <= |s|
    ensures r == [] || !drop(r[|r| - 1])
  {
    if |s| > 0 && drop(s[|s| - 1]) then TrimEnd(s[..|s| - 1], drop) else s
  }

  /** What `TrimStart` leaves is the suffix of `s` after a run of
      characters that all satisfy `drop`. */
  lemma {:induction false} TrimStartCuts(s: string, drop: char -> bool)
    ensures var r := TrimStart(s, drop);
      r == s[|s| - |r|..] && forall i :: 0 <= i < |s| - |r| ==> drop(s[i])
    decreases |s|
  {
    if |s| > 0 && drop(s[0]) {
      TrimStartCuts(s[1..], drop);
      var r := TrimStart(s, drop);
      assert forall i :: 1 <= i < |s| - |r| ==> s[i] == s[1..][i - 1];
    }
  }

  /** What `TrimEnd` leaves is the prefix of `s` before a run of
      characters that all satisfy `drop`. */
  lemma {:induction false} TrimEndCuts(s: string, drop: char -> bool)
    ensures var r := TrimEnd(s, drop);
      r == s[..|r|] && forall i :: |r| <= i < |s| ==> drop(s[i])
    decreases |s|
  {
    if |s| > 0 && drop(s[|s| - 1]) {
      TrimEndCuts(s[..|s| - 1], drop);
      var r := TrimEnd(s, drop);
      assert forall i :: |r| <= i < |s| - 1 ==> s[i] == s[..|s| - 1][i];
    }
  }

  /** `s.strip()` */
  function Strip(s: string): string {
    TrimEnd(TrimStart(s, IsSpace), IsSpace)
  }

  /** `s.strip('"')` */
  function StripQuotes(s: string): string {
    TrimEnd(TrimStart(s, IsQuote), IsQuote)
  }

  lemma StripKeepsUnpadded(s: string)
    requires |s| > 0 && !IsSpace(s[0]) && !IsSpace(s[|s| - 1])
    ensures Strip(s) == s
  {
    assert TrimStart(s, IsSpace) == s;
  }

  predicate StartsWith(s: string, p: string) {
    |p| <= |s| && s[..|p|] == p
  }

  predicate OccursAt(s: string, pat: string, k: int) {
    0 <= k && k + |pat| <= |s| && s[k..k + |pat|] == pat
  }

  /** The first position at or after `from` where `pat` occurs in `s`. */
  function IndexFrom(s: string, pat: string, from: nat): (r: Option<nat>)
    requires from <= |s|
    ensures r.Some? ==> from <= r.value && OccursAt(s, pat, r.value)
    ensures r.Some? ==> forall k :: from <= k < r.value ==> !OccursAt(s, pat, k)
    ensures r.None? ==> forall k :: from <= k ==> !OccursAt(s, pat, k)
    decreases |s| - from
  {
    if OccursAt(s, pat, from) then Some(from)
    else if from + |pat| >= |s| then None
    else IndexFrom(s, pat, from + 1)
  }

  /** `s.find(pat)`, with `None` for -1. */
  function IndexOf(s: string, pat: string): (r: Option<nat>)
    ensures r.Some? ==> OccursAt(s, pat, r.value)
    ensures r.Some? ==> forall k :: 0 <= k < r.value ==> !OccursAt(s, pat, k)
    ensures r.None? <==> forall k :: !OccursAt(s, pat, k)
  {
    IndexFrom(s, pat, 0)
  }

  /** `pat in s` */
  predicate Contains(s: string, pat: string) {
    IndexOf(s, pat).Some?
  }

  /** `s.split(sep)[0]`: the text before the first `sep`, or all of `s`. */
  function Before(s: string, sep: string): (r: string)
    ensures StartsWith(s, r)
    ensures !Contains(r, sep) || |sep| == 0
  {
    match IndexOf(s, sep)
    case None => s
    case Some(k) =>
      assert forall j :: OccursAt(s[..k], sep, j) ==> OccursAt(s, sep, j) by {
        forall j | OccursAt(s[..k], sep, j) ensures OccursAt(s, sep, j) {
          assert s[..k][j..j + |sep|] == s[j..j + |sep|];
        }
      }
      s[..k]
  }

  /** The text after the first `sep`; `s.split(sep)[1]` is
      `Before(After(s, sep), sep)`. */
  function After(s: string, sep: string): (r: string)
    requires Contains(s, sep)
    ensures |r| <= |s| && r == s[|s| - |r|..]
  {
    s[IndexOf(s, sep).value + |sep|..]
  }

  /** `s.split(sep)[1]` for a separator that occurs in `s`: the text
      between its first and its second occurrence. */
  function SplitSecond(s: string, sep: string): string
    requires Contains(s, sep)
  {
    Before(After(s, sep), sep)
  }

  /** `s.replace(pat, rep)`: every non-overlapping occurrence, scanning
      left to right. */
  function ReplaceAll(s: string, pat: string, rep: string): string
    requires |pat| > 0
  {
    ReplaceFrom(s, pat, rep, 0)
  }

  /** `s[i:].replace(pat, rep)`, scanning from position `i`. */
  function ReplaceFrom(s: string, pat: string, rep: string, i: nat): string
    requires |pat| > 0 && i <= |s|
    decreases |s| - i
  {
    if |s| - i < |pat| then s[i..]
    else if OccursAt(s, pat, i) then rep + ReplaceFrom(s, pat, rep, i + |pat|)
    else [s[i]] + ReplaceFrom(s, pat, rep, i + 1)
  }

  /** With no occurrence of the pattern, `replace` returns its input. */
  lemma ReplaceAbsent(s: string, pat: string, rep: string)
    requires |pat| > 0
    requires !Contains(s, pat)
    ensures ReplaceAll(s, pat, rep) == s
  {
    ReplaceFromAbsent(s, pat, rep, 0);
  }

  lemma {:induction false} ReplaceFromAbsent(s: string, pat: string, rep: string, i: nat)
    requires |pat| > 0 && i <= |s|
    requires forall k :: i <= k ==> !OccursAt(s, pat, k)
    ensures ReplaceFrom(s, pat, rep, i) == s[i..]
    decreases |s| - i
  {
    if |s| - i >= |pat| {
      ReplaceFromAbsent(s, pat, rep, i + 1);
      assert [s[i]] + s[i + 1..] == s[i..];
    }
  }

  /** `replace` copies the text before the first occurrence, rewrites it and
      carries on after it. */
  lemma ReplaceAtFirst(s: string, pat: string, rep: string, k: nat)
    requires |pat| > 0
    requires OccursAt(s, pat, k) && forall j :: 0 <= j < k ==> !OccursAt(s, pat, j)
    ensures ReplaceAll(s, pat, rep) == s[..k] + rep + ReplaceFrom(s, pat, rep, k + |pat|)
  {
    ReplaceFromFirst(s, pat, rep, 0, k);
  }

  lemma {:induction false} ReplaceFromFirst(s: string, pat: string, rep: string, i: nat, k: nat)
    requires |pat| > 0 && i <= k
    requires OccursAt(s, pat, k) && forall j :: i <= j < k ==> !OccursAt(s, pat, j)
    ensures ReplaceFrom(s, pat, rep, i) == s[i..k] + rep + ReplaceFrom(s, pat, rep, k + |pat|)
    decreases k - i
  {
    if i < k {
      var tail := ReplaceFrom(s, pat, rep, k + |pat|);
      ReplaceFromFirst(s, pat, rep, i + 1, k);
      assert [s[i]] + (s[i + 1..k] + rep + tail) == ([s[i]] + s[i + 1..k]) + rep + tail;
      assert [s[i]] + s[i + 1..k] == s[i..k];
    }
  }

  /** The first occurrence, characterised without `IndexOf`'s definition. */
  lemma IndexOfIsFirst(s: string, pat: string, k: nat)
    requires OccursAt(s, pat, k)
    requires forall j :: 0 <= j < k ==> !OccursAt(s, pat, j)
    ensures IndexOf(s, pat) == Some(k)
  {
    var r := IndexOf(s, pat);
    assert r.Some?;
    assert !(r.value < k);
    assert !(r.value > k);
  }

  // ---------------------------------------------------------------------
  // Integers as text

  predicate IsDigit(c: char) { '0' <= c <= '9' }

  function DigitValue(c: char): nat
    requires IsDigit(c)
  {
    (c as int) - ('0' as int)
  }

  function DigitChar(d: nat): (c: char)
    requires d < 10
    ensures IsDigit(c) && DigitValue(c) == d
  {
    (('0' as int) + d) as char
  }

  /** The digits of `s` read as a decimal number (most significant first);
      it is only applied to digit strings, so other characters count 0. */
  function DigitsValue(s: string): nat {
    if s == [] then 0
    else DigitsValue(s[..|s| - 1]) * 10 + (if IsDigit(s[|s| - 1]) then DigitValue(s[|s| - 1]) else 0)
  }

  /** Python's int() accepts single underscores between digits. */
  predicate IsDigitGroups(s: string) {
    |s| > 0 && IsDigit(s[0]) && IsDigit(s[|s| - 1])
    && (forall i :: 0 <= i < |s| ==> IsDigit(s[i]) || s[i] == '_')
    && NoDoubleUnderscore(s)
  }

  /** No two underscores in a row. */
  predicate NoDoubleUnderscore(s: string) {
    |s| < 2 || (!(s[0] == '_' && s[1] == '_') && NoDoubleUnderscore(s[1..]))
  }

  lemma {:induction false} DigitsHaveNoDoubleUnderscore(d: string)
    requires forall i :: 0 <= i < |d| ==> IsDigit(d[i])
    ensures NoDoubleUnderscore(d)
  {
    if |d| >= 2 {
      DigitsHaveNoDoubleUnderscore(d[1..]);
    }
  }

  function DropUnderscores(s: string): string
  {
    if s == [] then []
    else if s[0] == '_' then DropUnderscores(s[1..])
    else [s[0]] + DropUnderscores(s[1..])
  }

  /** `int(s)` for a `str`: surrounding whitespace, an optional sign, and
      ASCII digit groups; anything else raises (`None`). */
  function ParseInt(s: string): Option<int> {
    ParseSigned(Strip(s))
  }

  /** `int(t)` for text without surrounding whitespace. */
  function ParseSigned(t: string): Option<int> {
    if |t| > 0 && (t[0] == '-' || t[0] == '+') then
      if IsDigitGroups(t[1..]) then
        var v: int := DigitsValue(DropUnderscores(t[1..]));
        Some(if t[0] == '-' then -v else v)
      else None
    else if IsDigitGroups(t) then Some(DigitsValue(DropUnderscores(t)))
    else None
  }

  /** Decimal digits of a natural number, without leading zeros. */
  function NatToDigits(n: nat): (r: string)
    ensures |r| > 0 && forall i :: 0 <= i < |r| ==> IsDigit(r[i])
    decreases n
  {
    if n < 10 then [DigitChar(n)] else NatToDigits(n / 10) + [DigitChar(n % 10)]
  }

  /** `str(n)` for an `int`. */
  function IntToString(n: int): string {
    if n < 0 then "-" + NatToDigits(-n) else NatToDigits(n)
  }

  lemma {:induction false} NatToDigitsValue(n: nat)
    ensures DigitsValue(NatToDigits(n)) == n
    decreases n
  {
    var r := NatToDigits(n);
    if n >= 10 {
      NatToDigitsValue(n / 10);
      assert r[..|r| - 1] == NatToDigits(n / 10);
    }
  }

  lemma {:induction false} NoUnderscores(d: string)
    requires forall i :: 0 <= i < |d| ==> IsDigit(d[i])
    ensures DropUnderscores(d) == d
  {
    if d != [] {
      NoUnderscores(d[1..]);
      assert d == [d[0]] + d[1..];
    }
  }

  lemma DigitNotSpace(c: char)
    requires IsDigit(c) || c == '-'
    ensures !IsSpace(c) && !(IsDigit(c) && (c == '-' || c == '+'))
  {
  }

  /** Text without surrounding whitespace is parsed as it is. */
  lemma ParseUnpadded(t: string)
    requires |t| > 0 && !IsSpace(t[0]) && !IsSpace(t[|t| - 1])
    ensures ParseInt(t) == ParseSigned(t)
  {
    StripKeepsUnpadded(t);
  }

  lemma ParseSignedDigits(d: string)
    requires |d| > 0 && forall i :: 0 <= i < |d| ==> IsDigit(d[i])
    ensures ParseSigned(d) == Some(DigitsValue(d) as int)
  {
    NoUnderscores(d);
    DigitsHaveNoDoubleUnderscore(d);
    DigitNotSpace(d[0]);
  }

  /** Digits worth `m` parse back to `m`. */
  lemma ParseDigitsWorth(d: string, m: nat)
    requires |d| > 0 && forall i :: 0 <= i < |d| ==> IsDigit(d[i])
    requires DigitsValue(d) == m
    ensures ParseInt(d) == Some(m)
  {
    ParseSignedDigits(d);
    DigitNotSpace(d[0]);
    DigitNotSpace(d[|d| - 1]);
    ParseUnpadded(d);
  }

  /** A minus sign followed by digits parses to the negated digits. */
  lemma ParseSignedNegative(t: string)
    requires |t| > 1 && t[0] == '-' && forall i :: 1 <= i < |t| ==> IsDigit(t[i])
    ensures ParseSigned(t) == Some(-(DigitsValue(t[1..]) as int))
  {
    var d := t[1..];
    assert forall i :: 0 <= i < |d| ==> IsDigit(d[i]);
    NoUnderscores(d);
    DigitsHaveNoDoubleUnderscore(d);
  }

  lemma ParseNegative(t: string)
    requires |t| > 1 && t[0] == '-' && forall i :: 1 <= i < |t| ==> IsDigit(t[i])
    ensures ParseInt(t) == Some(-(DigitsValue(t[1..]) as int))
  {
    ParseSignedNegative(t);
    DigitNotSpace(t[0]);
    DigitNotSpace(t[|t| - 1]);
    ParseUnpadded(t);
  }

  /** `str(n)` of a negative `n` is a minus sign followed by the digits
      of `-n`. */
  lemma NegativeShape(n: int)
    requires n < 0
    ensures var t := IntToString(n);
      |t| > 1 && t[0] == '-' && t[1..] == NatToDigits(-n) && forall i :: 1 <= i < |t| ==> IsDigit(t[i])
  {
    var t := IntToString(n);
    assert forall i :: 1 <= i < |t| ==> t[i] == NatToDigits(-n)[i - 1];
  }

  lemma NegativeText(n: int)
    requires n < 0
    ensures var t := IntToString(n);
      |t| > 1 && t[0] == '-' && (forall i :: 1 <= i < |t| ==> IsDigit(t[i])) && DigitsValue(t[1..]) == -n
  {
    NegativeShape(n);
    NatToDigitsValue(-n);
  }

  /** `str(n)` of a non-negative `n` is its digits. */
  lemma NonNegativeText(n: int)
    requires n >= 0
    ensures var t := IntToString(n);
      |t| > 0 && (forall i :: 0 <= i < |t| ==> IsDigit(t[i])) && DigitsValue(t) == n
  {
    NatToDigitsValue(n);
  }

  /** Round trip: `int(str(n)) == n`. */
  lemma ParseIntOfIntToString(n: int)
    ensures ParseInt(IntToString(n)) == Some(n)
  {
    if n < 0 {
      NegativeText(n);
      ParseNegative(IntToString(n));
    } else {
      NonNegativeText(n);
      ParseDigitsWorth(IntToString(n), n);
    }
  }
}
