/**
 * The JavaScript string operations the front-end relies on: decimal number
 * formatting (`String(n)`), `trim`, `toLowerCase`, `includes`, `startsWith`,
 * `join`, `split` and `parseInt`.
 */
module Strings {
  import opened Wrappers

  predicate IsDigit(c: char) {
    '0' <= c <= '9'
  }

  predicate AllDigits(s: string) {
    forall i :: 0 <= i < |s| ==> IsDigit(s[i])
  }

  function DigitValue(c: char): int
    requires IsDigit(c)
  {
    c as int - '0' as int
  }

  function DigitChar(n: int): (c: char)
    requires 0 <= n < 10
    ensures IsDigit(c) && DigitValue(c) == n
  {
    ('0' as int + n) as char
  }

  /** The value of a string of decimal digits. */
  function DigitsValue(s: string): nat
    requires AllDigits(s)
  {
    if s == [] then 0 else DigitsValue(s[..|s| - 1]) * 10 + DigitValue(s[|s| - 1])
  }

  /** `String(n)` for a non-negative integer: its decimal digits, without leading zeros. */
  function NatToString(n: nat): (s: string)
    ensures |s| >= 1 && AllDigits(s)
    ensures s[0] == '0' <==> n == 0
    ensures DigitsValue(s) == n
  {
    if n < 10 then [DigitChar(n)]
    else
      var s := NatToString(n / 10) + [DigitChar(n % 10)];
      assert s[..|s| - 1] == NatToString(n / 10);
      s
  }

  /** `String(n)` for an integer. */
  function IntToString(n: int): (s: string)
    ensures |s| >= 1 && ',' !in s
  {
    if n < 0 then "-" + NatToString(-n) else NatToString(n)
  }

  /** Reads back the decimal form that `IntToString` writes. */
  function ParseInteger(s: string): Option<int> {
    if |s| > 1 && s[0] == '-' && AllDigits(s[1..]) then Some(-(DigitsValue(s[1..]) as int))
    else if |s| > 0 && AllDigits(s) then Some(DigitsValue(s))
    else None
  }

  lemma IntToStringRoundTrip(n: int)
    ensures ParseInteger(IntToString(n)) == Some(n)
  {
    if n < 0 {
      assert IntToString(n)[1..] == NatToString(-n);
    }
  }

  function Pow10(w: nat): nat {
    if w == 0 then 1 else 10 * Pow10(w - 1)
  }

  /** The last `width` decimal digits of `n`, zero-padded on the left. */
  function PaddedDigits(n: nat, width: nat): (s: string)
    ensures |s| == width && AllDigits(s)
    ensures n < Pow10(width) ==> DigitsValue(s) == n
  {
    if width == 0 then ""
    else
      var s := PaddedDigits(n / 10, width - 1) + [DigitChar(n % 10)];
      assert s[..|s| - 1] == PaddedDigits(n / 10, width - 1);
      s
  }

  lemma {:induction false} DigitsValueBound(s: string)
    requires AllDigits(s)
    ensures DigitsValue(s) < Pow10(|s|)
  {
    if s != [] {
      DigitsValueBound(s[..|s| - 1]);
    }
  }

  /** A string of `w` digits is the zero-padded form of its own value. */
  lemma {:induction false} PaddedDigitsOfDigits(s: string)
    requires AllDigits(s)
    ensures PaddedDigits(DigitsValue(s), |s|) == s
  {
    if s != [] {
      var init := s[..|s| - 1];
      PaddedDigitsOfDigits(init);
      var n := DigitsValue(s);
      assert n / 10 == DigitsValue(init) && n % 10 == DigitValue(s[|s| - 1]);
      assert s == init + [s[|s| - 1]];
    }
  }

  /**
   * The characters `String.prototype.trim` removes: the WhiteSpace and
   * LineTerminator code points of the ECMAScript grammar.
   */
  predicate IsWhitespace(c: char) {
    c == ' ' || c == '\t' || c == '\n' || c == '\r' || c == '\U{000B}' || c == '\U{000C}'
    || c == '\U{00A0}' || c == '\U{1680}' || ('\U{2000}' <= c <= '\U{200A}')
    || c == '\U{2028}' || c == '\U{2029}' || c == '\U{202F}' || c == '\U{205F}'
    || c == '\U{3000}' || c == '\U{FEFF}'
  }

  function TrimStart(s: string): (t: string)
    ensures |t| <= |s| && t == s[|s| - |t|..]
    ensures t != [] ==> !IsWhitespace(t[0])
    ensures forall i :: 0 <= i < |s| - |t| ==> IsWhitespace(s[i])
  {
    if s != [] && IsWhitespace(s[0]) then TrimStart(s[1..]) else s
  }

  function TrimEnd(s: string): (t: string)
    ensures |t| <= |s| && t == s[..|t|]
    ensures t != [] ==> !IsWhitespace(t[|t| - 1])
    ensures forall i :: |t| <= i < |s| ==> IsWhitespace(s[i])
  {
    if s != [] && IsWhitespace(s[|s| - 1]) then TrimEnd(s[..|s| - 1]) else s
  }

  /** `String.prototype.trim`. */
  function Trim(s: string): string {
    TrimEnd(TrimStart(s))
  }

  /** A string is blank after trimming exactly when it consists of whitespace only. */
  lemma TrimBlank(s: string)
    ensures Trim(s) == "" <==> forall i :: 0 <= i < |s| ==> IsWhitespace(s[i])
  {
    var t := TrimStart(s);
    assert t != [] ==> t[0] == s[|s| - |t|];
    assert t != [] ==> TrimEnd(t) != [];
  }

  /** Trimming keeps the characters between the first and last non-blank ones. */
  lemma TrimKeepsInner(s: string)
    ensures Trim(s) == "" || (!IsWhitespace(Trim(s)[0]) && !IsWhitespace(Trim(s)[|Trim(s)| - 1]))
  {
    var t := TrimStart(s);
    var u := TrimEnd(t);
    if u != [] {
      assert u[0] == t[0];
    }
  }

  /** ASCII case folding of one character (letters outside ASCII are left as they are). */
  function CharToLower(c: char): char {
    if 'A' <= c <= 'Z' then (c as int + 32) as char else c
  }

  /** `String.prototype.toLowerCase` restricted to ASCII letters. */
  function ToLower(s: string): (t: string)
    ensures |t| == |s|
    ensures forall i :: 0 <= i < |s| ==> t[i] == CharToLower(s[i])
  {
    seq(|s|, i requires 0 <= i < |s| => CharToLower(s[i]))
  }

  /** `String.prototype.startsWith`. */
  predicate StartsWith(s: string, prefix: string) {
    |prefix| <= |s| && s[..|prefix|] == prefix
  }

  /** `String.prototype.includes`: `needle` occurs somewhere in `hay`. */
  predicate Contains(hay: string, needle: string)
    decreases |hay|
  {
    StartsWith(hay, needle) || (hay != [] && Contains(hay[1..], needle))
  }

  /** Every string includes the empty string. */
  lemma ContainsEmpty(hay: string)
    ensures Contains(hay, "")
  {
  }

  /** `hay.toLowerCase().includes(needle.toLowerCase())`. */
  predicate MatchesIgnoringCase(hay: string, needle: string) {
    Contains(ToLower(hay), ToLower(needle))
  }

  /** The empty keyword matches every name, and every name matches itself. */
  lemma MatchesIgnoringCaseBasics(hay: string)
    ensures MatchesIgnoringCase(hay, "")
    ensures MatchesIgnoringCase(hay, hay)
  {
    assert ToLower("") == "";
    ContainsEmpty(ToLower(hay));
    assert StartsWith(ToLower(hay), ToLower(hay));
  }

  /** `needle` is the slice of `hay` that starts at index `i`. */
  predicate OccursAt(hay: string, needle: string, i: int) {
    0 <= i <= |hay| - |needle| && hay[i..i + |needle|] == needle
  }

  /** `Contains` holds exactly when `needle` occurs in `hay` at some index. */
  lemma {:induction false} ContainsAt(hay: string, needle: string)
    ensures Contains(hay, needle) <==> exists i :: OccursAt(hay, needle, i)
  {
    if hay != [] {
      ContainsAt(hay[1..], needle);
      if exists i :: OccursAt(hay, needle, i) {
        var i :| OccursAt(hay, needle, i);
        if i > 0 {
          assert OccursAt(hay[1..], needle, i - 1) by {
            assert hay[1..][i - 1..i - 1 + |needle|] == hay[i..i + |needle|];
          }
        }
      }
      if Contains(hay[1..], needle) && !StartsWith(hay, needle) {
        var i :| OccursAt(hay[1..], needle, i);
        assert hay[1..][i..i + |needle|] == hay[i + 1..i + 1 + |needle|];
        assert OccursAt(hay, needle, i + 1);
      }
      if StartsWith(hay, needle) {
        assert OccursAt(hay, needle, 0);
      }
    } else {
      if StartsWith(hay, needle) {
        assert OccursAt(hay, needle, 0);
      }
    }
  }

  /** `",".join`-style concatenation with a one-character separator (`Array.prototype.join`). */
  function Join(xs: seq<string>, sep: char): string {
    if |xs| == 0 then ""
    else if |xs| == 1 then xs[0]
    else xs[0] + [sep] + Join(xs[1..], sep)
  }

  /** `String.prototype.split` on a one-character separator. */
  function Split(s: string, sep: char): (parts: seq<string>)
    ensures |parts| >= 1
    decreases |s|
  {
    if sep !in s then [s]
    else
      var i := FirstIndex(s, sep);
      [s[..i]] + Split(s[i + 1..], sep)
  }

  function FirstIndex(s: string, c: char): (i: nat)
    requires c in s
    ensures i < |s| && s[i] == c && c !in s[..i]
  {
    if s[0] == c then 0
    else
      var i := 1 + FirstIndex(s[1..], c);
      assert s[..i] == [s[0]] + s[1..][..i - 1];
      i
  }

  lemma FirstIndexAt(s: string, c: char, k: nat)
    requires k < |s| && s[k] == c && c !in s[..k]
    ensures FirstIndex(s, c) == k
  {
    var i := FirstIndex(s, c);
    assert forall j :: 0 <= j < k ==> s[j] == s[..k][j];
    assert forall j :: 0 <= j < i ==> s[j] == s[..i][j];
  }

  /** Splitting a non-empty join recovers the parts, as long as no part holds the separator. */
  lemma {:induction false} SplitJoin(xs: seq<string>, sep: char)
    requires |xs| >= 1
    requires forall k :: 0 <= k < |xs| ==> sep !in xs[k]
    ensures Split(Join(xs, sep), sep) == xs
  {
    if |xs| > 1 {
      var a, rest := xs[0], Join(xs[1..], sep);
      var s := a + [sep] + rest;
      assert Join(xs, sep) == s;
      assert s[..|a|] == a && s[|a|] == sep && s[|a| + 1..] == rest;
      assert sep !in a;
      FirstIndexAt(s, sep, |a|);
      assert Split(s, sep) == [a] + Split(rest, sep);
      forall k | 0 <= k < |xs[1..]|
        ensures sep !in xs[1..][k]
      {
        assert xs[1..][k] == xs[k + 1];
      }
      SplitJoin(xs[1..], sep);
      assert xs == [a] + xs[1..];
    } else {
      assert Join(xs, sep) == xs[0];
    }
  }

  /** An empty list joins to "", which splits into one empty part, not into no parts. */
  lemma SplitJoinEmpty(sep: char)
    ensures Join([], sep) == "" && Split(Join([], sep), sep) == [""]
  {
  }

  predicate IsHexDigit(c: char) {
    IsDigit(c) || ('a' <= c <= 'f') || ('A' <= c <= 'F')
  }

  function HexDigitValue(c: char): int
    requires IsHexDigit(c)
  {
    if IsDigit(c) then DigitValue(c)
    else if 'a' <= c <= 'f' then c as int - 'a' as int + 10
    else c as int - 'A' as int + 10
  }

  /** The longest prefix of `s` made of digits of the given radix (10 or 16). */
  function DigitPrefix(s: string, hex: bool): (p: string)
    ensures |p| <= |s| && p == s[..|p|]
    ensures forall i :: 0 <= i < |p| ==> if hex then IsHexDigit(p[i]) else IsDigit(p[i])
  {
    if s != [] && (if hex then IsHexDigit(s[0]) else IsDigit(s[0])) then [s[0]] + DigitPrefix(s[1..], hex)
    else ""
  }

  function PrefixValue(p: string, hex: bool): int
    requires forall i :: 0 <= i < |p| ==> if hex then IsHexDigit(p[i]) else IsDigit(p[i])
  {
    if p == [] then 0
    else
      var last := p[|p| - 1];
      PrefixValue(p[..|p| - 1], hex) * (if hex then 16 else 10) + (if hex then HexDigitValue(last) else DigitValue(last))
  }

  /**
   * `parseInt(s)` with no radix: leading whitespace is skipped, one sign is
   * read, a `0x`/`0X` prefix selects radix 16, and the longest run of digits
   * that follows is the value; no digit at all gives NaN (None).
   */
  function ParseIntPrefix(s: string): (r: Option<int>)
    ensures r.Some? ==> exists i :: 0 <= i < |s| && IsDigit(s[i])
  {
    var t := TrimStart(s);
    var negative := t != [] && t[0] == '-';
    var u := if t != [] && (t[0] == '-' || t[0] == '+') then t[1..] else t;
    var hex := |u| >= 2 && u[0] == '0' && (u[1] == 'x' || u[1] == 'X');
    var body := if hex then u[2..] else u;
    var p := DigitPrefix(body, hex);
    if p == [] then None
    else
      assert u == s[|s| - |u|..] && IsDigit(u[0]);
      assert IsDigit(s[|s| - |u|]);
      var v := PrefixValue(p, hex);
      Some(if negative then -v else v)
  }

  /** A decimal string reads back as its value. */
  lemma ParseIntPrefixOfNatToString(n: nat)
    ensures ParseIntPrefix(NatToString(n)) == Some(n)
  {
    ParseIntPrefixOfDigits(NatToString(n));
  }

  lemma ParseIntPrefixOfDigits(s: string)
    requires s != [] && AllDigits(s)
    ensures ParseIntPrefix(s) == Some(DigitsValue(s))
  {
    assert !IsWhitespace(s[0]);
    assert TrimStart(s) == s;
    assert !(s[0] == '-' || s[0] == '+');
    assert !(|s| >= 2 && s[0] == '0' && (s[1] == 'x' || s[1] == 'X')) by {
      if |s| >= 2 { assert IsDigit(s[1]); }
    }
    DigitPrefixAll(s);
    PrefixValueIsDigitsValue(s);
  }

  lemma {:induction false} DigitPrefixAll(s: string)
    requires AllDigits(s)
    ensures DigitPrefix(s, false) == s
  {
    if s != [] {
      DigitPrefixAll(s[1..]);
    }
  }

  lemma {:induction false} PrefixValueIsDigitsValue(s: string)
    requires AllDigits(s)
    ensures PrefixValue(s, false) == DigitsValue(s)
  {
    if s != [] {
      PrefixValueIsDigitsValue(s[..|s| - 1]);
    }
  }

  /** Input whose first non-blank character, after an optional sign, is not a digit reads as NaN. */
  lemma ParseIntPrefixNaN(s: string)
    requires var t := TrimStart(s);
      var u := if t != [] && (t[0] == '-' || t[0] == '+') then t[1..] else t;
      u == [] || !IsDigit(u[0])
    ensures ParseIntPrefix(s).None?
  {
  }
}
