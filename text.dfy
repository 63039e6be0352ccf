/**
 * String operations the pages rely on: ASCII case folding, substring search
 * (what an unanchored regular-expression alternative tests), the whitespace
 * trimming of `String.prototype.trim`, joining with a single space, and
 * decimal numerals.
 */
module Text {

  /* ---------------- case folding ---------------- */

  predicate IsUpper(c: char) {
    'A' <= c <= 'Z'
  }

  function LowerChar(c: char): (d: char)
    ensures IsUpper(c) ==> d as int == c as int + 32
    ensures !IsUpper(c) ==> d == c
    ensures !IsUpper(d)
  {
    if IsUpper(c) then (c as int + 32) as char else c
  }

  /** ASCII lowercasing: only 'A'..'Z' change. */
  function ToLower(s: string): (r: string)
    ensures |r| == |s|
    ensures forall i :: 0 <= i < |s| ==> r[i] == LowerChar(s[i])
  {
    seq(|s|, i requires 0 <= i < |s| => LowerChar(s[i]))
  }

  lemma ToLowerAppend(a: string, b: string)
    ensures ToLower(a + b) == ToLower(a) + ToLower(b)
  {
  }

  /* ---------------- substring search ---------------- */

  /** `p` occurs in `s` starting at index `i`. */
  predicate OccursAt(s: string, p: string, i: int) {
    0 <= i && i + |p| <= |s| && s[i..i + |p|] == p
  }

  /** `p` occurs somewhere in `s`, searched left to right. */
  predicate Contains(s: string, p: string)
    decreases |s|
  {
    p <= s || (s != [] && Contains(s[1..], p))
  }

  /** The search agrees with the positional definition of an occurrence. */
  lemma {:induction false} ContainsIff(s: string, p: string)
    ensures Contains(s, p) <==> exists i :: OccursAt(s, p, i)
    decreases |s|
  {
    assert OccursAt(s, p, 0) <==> p <= s by {
      if |p| <= |s| {
        assert s[0..|p|] == s[..|p|];
      }
    }
    if p <= s {
    } else if s != [] {
      ContainsIff(s[1..], p);
      forall i | OccursAt(s[1..], p, i)
        ensures OccursAt(s, p, i + 1)
      {
        assert s[1..][i..i + |p|] == s[i + 1..i + 1 + |p|];
      }
      forall i | OccursAt(s, p, i)
        ensures OccursAt(s[1..], p, i - 1)
      {
        assert s[1..][i - 1..i - 1 + |p|] == s[i..i + |p|];
      }
    }
  }

  /** A witness position is enough to establish an occurrence. */
  lemma ContainsAt(s: string, p: string, i: int)
    requires OccursAt(s, p, i)
    ensures Contains(s, p)
  {
    ContainsIff(s, p);
  }

  /** Nothing longer than `s` occurs in it. */
  lemma {:induction false} ContainsShorter(s: string, p: string)
    requires Contains(s, p)
    ensures |p| <= |s|
    decreases |s|
  {
    if !(p <= s) {
      ContainsShorter(s[1..], p);
    }
  }

  /** A pattern holding a character that the text lacks does not occur in it. */
  lemma MissingCharNoMatch(s: string, p: string, j: int)
    requires 0 <= j < |p| && p[j] !in s
    ensures !Contains(s, p)
  {
    forall i
      ensures !OccursAt(s, p, i)
    {
      if 0 <= i && i + |p| <= |s| {
        assert s[i..i + |p|][j] == s[i + j];
      }
    }
    ContainsIff(s, p);
  }

  /** Nothing longer than `s` occurs in it, stated the other way round. */
  lemma {:induction false} NotContainsLonger(s: string, p: string)
    requires |p| > |s|
    ensures !Contains(s, p)
    decreases |s|
  {
    if s != [] {
      NotContainsLonger(s[1..], p);
    }
  }

  /* ---------------- String.prototype.trim ---------------- */

  /**
   * The code points `trim` strips: the WhiteSpace and LineTerminator
   * productions of ECMAScript (tab, vertical tab, form feed, space, no-break
   * space, byte-order mark, the Space_Separator category, LF, CR, and the
   * line and paragraph separators).
   */
  predicate IsJsSpace(c: char) {
    c == '\t' || c == '\n' || c == '\U{000B}' || c == '\U{000C}' || c == '\r'
    || c == ' ' || c == '\U{00A0}' || c == '\U{1680}'
    || ('\U{2000}' <= c <= '\U{200A}')
    || c == '\U{2028}' || c == '\U{2029}' || c == '\U{202F}' || c == '\U{205F}'
    || c == '\U{3000}' || c == '\U{FEFF}'
  }

  predicate AllSpace(s: string) {
    forall i :: 0 <= i < |s| ==> IsJsSpace(s[i])
  }

  /** Drops leading whitespace; the result is the suffix after the longest all-space prefix. */
  function TrimStart(s: string): (r: string)
    ensures |r| <= |s| && r == s[|s| - |r|..]
    ensures AllSpace(s[..|s| - |r|])
    ensures r == [] || !IsJsSpace(r[0])
    decreases |s|
  {
    if s != [] && IsJsSpace(s[0]) then TrimStart(s[1..]) else s
  }

  /** Drops trailing whitespace; the result is the prefix before the longest all-space suffix. */
  function TrimEnd(s: string): (r: string)
    ensures |r| <= |s| && r == s[..|r|]
    ensures AllSpace(s[|r|..])
    ensures r == [] || !IsJsSpace(r[|r| - 1])
    decreases |s|
  {
    if s != [] && IsJsSpace(s[|s| - 1]) then
      var r := TrimEnd(s[..|s| - 1]);
      assert s[|r|..] == s[..|s| - 1][|r|..] + [s[|s| - 1]];
      r
    else s
  }

  /** `String.prototype.trim`. */
  function Trim(s: string): (r: string)
    ensures |r| <= |s|
    ensures AllSpace(s) ==> r == []
  {
    TrimEnd(TrimStart(s))
  }

  /** How many leading code points `trim` cuts off. */
  function TrimOffset(s: string): nat
  {
    |s| - |TrimStart(s)|
  }

  /** What `trim` returns: a slice of `s` with only whitespace cut off either side. */
  lemma TrimSlice(s: string)
    ensures var r, a := Trim(s), TrimOffset(s);
      && a + |r| <= |s| && r == s[a..a + |r|]
      && AllSpace(s[..a]) && AllSpace(s[a + |r|..])
  {
    var t := TrimStart(s);
    TrimParts(s, |s| - |t|, t, TrimEnd(t));
  }

  /** A prefix of a suffix, with only whitespace cut off either side, is a slice with whitespace on both sides of it. */
  lemma TrimParts(s: string, a: nat, t: string, r: string)
    requires a <= |s| && t == s[a..] && AllSpace(s[..a])
    requires |r| <= |t| && r == t[..|r|] && AllSpace(t[|r|..])
    ensures a + |r| <= |s| && r == s[a..a + |r|]
    ensures AllSpace(s[..a]) && AllSpace(s[a + |r|..])
  {
    assert t[|r|..] == s[a + |r|..];
  }

  /** What `trim` returns neither starts nor ends with whitespace. */
  lemma TrimNoSpaceAtEnds(s: string)
    ensures var r := Trim(s); r == [] || (!IsJsSpace(r[0]) && !IsJsSpace(r[|r| - 1]))
  {
    var t := TrimStart(s);
    var r := TrimEnd(t);
    if r != [] {
      assert r[0] == t[0];
    }
  }

  /** A string trims to nothing exactly when it is all whitespace, which is when the pages treat it as blank. */
  lemma TrimEmptyIff(s: string)
    ensures Trim(s) == [] <==> AllSpace(s)
  {
    var t := TrimStart(s);
    if Trim(s) == [] {
      assert t[0..] == t;
      assert s[..|s| - |t|] == s;
    }
    if AllSpace(s) {
      assert AllSpace(t);
    }
  }

  /* ---------------- Array.prototype.join(" ") ---------------- */

  /** The strings of `xs` separated by single spaces. */
  function JoinSpace(xs: seq<string>): (r: string)
    ensures xs == [] ==> r == []
    ensures |xs| == 1 ==> r == xs[0]
    ensures |xs| >= 1 ==> xs[0] <= r
  {
    if xs == [] then []
    else if |xs| == 1 then xs[0]
    else xs[0] + " " + JoinSpace(xs[1..])
  }

  /* ---------------- decimal numerals ---------------- */

  predicate IsDigit(c: char) {
    '0' <= c <= '9'
  }

  function DigitChar(d: nat): (c: char)
    requires d < 10
    ensures IsDigit(c) && c as int - '0' as int == d
  {
    ('0' as int + d) as char
  }

  /** The shortest decimal numeral of `n`, as `String(n)` writes a non-negative integer. */
  function NatToString(n: nat): (r: string)
    ensures r != [] && forall i :: 0 <= i < |r| ==> IsDigit(r[i])
    ensures (r[0] == '0') ==> n == 0
  {
    if n < 10 then [DigitChar(n)] else NatToString(n / 10) + [DigitChar(n % 10)]
  }

  function DigitValue(c: char): nat
    requires IsDigit(c)
  {
    c as int - '0' as int
  }

  /** The value of a string of digits. */
  function DigitsValue(s: string): nat
    requires forall i :: 0 <= i < |s| ==> IsDigit(s[i])
  {
    if s == [] then 0
    else DigitsValue(s[..|s| - 1]) * 10 + DigitValue(s[|s| - 1])
  }

  /** Reading a numeral back gives the number written. */
  lemma {:induction false} NatToStringValue(n: nat)
    ensures DigitsValue(NatToString(n)) == n
  {
    if n >= 10 {
      var r := NatToString(n);
      assert r[..|r| - 1] == NatToString(n / 10);
      NatToStringValue(n / 10);
    }
  }
}
