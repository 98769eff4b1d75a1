/**
 * Text primitives the core is built from: ASCII case folding, the fragment of regular-expression
 * matching the URL patterns use (a literal followed by a greedy run of shortcode characters), and
 * PHP's conversion of integers to decimal text.
 */
module Text {
  import opened Wrappers

  /** ASCII lower-casing: PHP's strtolower, and the case folding of a PCRE or JavaScript pattern
      with the `i` flag, both of which touch only the letters A-Z. */
  function LowerChar(c: char): char {
    if 'A' <= c <= 'Z' then (c as int + 32) as char else c
  }

  function Lower(s: string): (r: string)
    ensures |r| == |s|
    ensures forall i :: 0 <= i < |s| ==> r[i] == LowerChar(s[i])
  {
    seq(|s|, i requires 0 <= i < |s| => LowerChar(s[i]))
  }

  /** PHP's empty() on a string: '' and '0' are empty, every longer string is not. */
  predicate EmptyText(s: string)
    ensures |s| == 0 ==> EmptyText(s)
    ensures |s| == 1 ==> (EmptyText(s) <==> s[0] == '0')
    ensures |s| >= 2 ==> !EmptyText(s)
  {
    s == "" || s == "0"
  }

  /** Subject character c matches pattern character p; with `ci` (the `i` flag) the comparison
      folds case. Every pattern literal of the core is written in lower case. */
  predicate CharMatches(c: char, p: char, ci: bool) {
    if ci then LowerChar(c) == p else c == p
  }

  /** The pattern literal `lit` occurs in `s` at position `i`. */
  predicate LiteralAt(s: string, i: nat, lit: string, ci: bool) {
    i + |lit| <= |s| && forall k :: 0 <= k < |lit| ==> CharMatches(s[i + k], lit[k], ci)
  }

  /** `s` begins with `lit`: a pattern anchored with `^`. */
  predicate StartsWith(s: string, lit: string, ci: bool) {
    LiteralAt(s, 0, lit, ci)
  }

  /** `lit` occurs anywhere in `s`: an unanchored pattern that is a plain literal. */
  predicate Contains(s: string, lit: string, ci: bool) {
    exists i: nat :: i <= |s| && LiteralAt(s, i, lit, ci)
  }

  /** A shortcode character: the class [A-Za-z0-9_-], which is also JavaScript's [\w-]. */
  predicate IsCodeChar(c: char) {
    ('A' <= c <= 'Z') || ('a' <= c <= 'z') || ('0' <= c <= '9') || c == '_' || c == '-'
  }

  /** Where the longest run of shortcode characters that starts at `j` ends: what a greedy
      `[A-Za-z0-9_-]+` consumes. */
  function RunEnd(s: string, j: nat): (e: nat)
    requires j <= |s|
    ensures j <= e <= |s|
    ensures forall k :: j <= k < e ==> IsCodeChar(s[k])
    ensures e == |s| || !IsCodeChar(s[e])
    decreases |s| - j
  {
    if j < |s| && IsCodeChar(s[j]) then RunEnd(s, j + 1) else j
  }

  /** The pattern `lit([A-Za-z0-9_-]+)` matches at position `i`. */
  predicate CaptureAt(s: string, i: nat, lit: string, ci: bool) {
    LiteralAt(s, i, lit, ci) && i + |lit| < |s| && IsCodeChar(s[i + |lit|])
  }

  /** The leftmost position at or after `from` where `lit([A-Za-z0-9_-]+)` matches. */
  function Leftmost(s: string, lit: string, ci: bool, from: nat): (r: Option<nat>)
    requires from <= |s|
    ensures r.Some? ==> from <= r.value < |s| && CaptureAt(s, r.value, lit, ci)
    ensures r.Some? ==> forall q :: from <= q < r.value ==> !CaptureAt(s, q, lit, ci)
    ensures r.None? ==> forall q :: from <= q <= |s| ==> !CaptureAt(s, q, lit, ci)
    decreases |s| - from
  {
    if CaptureAt(s, from, lit, ci) then Some(from)
    else if from == |s| then None
    else Leftmost(s, lit, ci, from + 1)
  }

  /** preg_match of the unanchored pattern `lit([A-Za-z0-9_-]+)`: the first group of the
      leftmost match, or None when the pattern matches nowhere. */
  function Capture(s: string, lit: string, ci: bool): (r: Option<string>)
    ensures r.Some? ==> |r.value| > 0 && forall k :: 0 <= k < |r.value| ==> IsCodeChar(r.value[k])
    ensures r.None? <==> forall q :: 0 <= q <= |s| ==> !CaptureAt(s, q, lit, ci)
  {
    match Leftmost(s, lit, ci, 0)
    case Some(p) => Some(s[p + |lit| .. RunEnd(s, p + |lit|)])
    case None => None
  }

  /** A capture is the run of shortcode characters after the leftmost match. */
  lemma CaptureIsLeftmostMatch(s: string, lit: string, ci: bool)
    requires Capture(s, lit, ci).Some?
    ensures exists p :: 0 <= p < |s| && CaptureAt(s, p, lit, ci)
                        && (forall q :: 0 <= q < p ==> !CaptureAt(s, q, lit, ci))
                        && Capture(s, lit, ci).value == s[p + |lit| .. RunEnd(s, p + |lit|)]
  {
    var p := Leftmost(s, lit, ci, 0).value;
    assert 0 <= p < |s| && CaptureAt(s, p, lit, ci);
    assert forall q :: 0 <= q < p ==> !CaptureAt(s, q, lit, ci);
    assert Capture(s, lit, ci).value == s[p + |lit| .. RunEnd(s, p + |lit|)];
  }

  /** Some alternative of `lits` matches at position `i`, followed by a shortcode character. */
  predicate AnyCaptureAt(s: string, i: nat, lits: seq<string>, ci: bool) {
    exists k :: 0 <= k < |lits| && CaptureAt(s, i, lits[k], ci)
  }

  /** The leftmost position at or after `from` where some alternative of `lits` matches: the
      search of a pattern `(?:a|b|...)([A-Za-z0-9_-]+)`. */
  function LeftmostAny(s: string, lits: seq<string>, ci: bool, from: nat): (r: Option<nat>)
    requires from <= |s|
    ensures r.Some? ==> from <= r.value < |s| && AnyCaptureAt(s, r.value, lits, ci)
    ensures r.Some? ==> forall q :: from <= q < r.value ==> !AnyCaptureAt(s, q, lits, ci)
    ensures r.None? ==> forall q :: from <= q <= |s| ==> !AnyCaptureAt(s, q, lits, ci)
    decreases |s| - from
  {
    if AnyCaptureAt(s, from, lits, ci) then Some(from)
    else if from == |s| then None
    else LeftmostAny(s, lits, ci, from + 1)
  }

  /** The first alternative of `lits` that matches at `i`, as an alternation tries them. */
  function FirstAlternative(s: string, i: nat, lits: seq<string>, ci: bool, k: nat): (r: nat)
    requires k <= |lits|
    requires exists j :: k <= j < |lits| && CaptureAt(s, i, lits[j], ci)
    ensures k <= r < |lits| && CaptureAt(s, i, lits[r], ci)
    ensures forall j :: k <= j < r ==> !CaptureAt(s, i, lits[j], ci)
    decreases |lits| - k
  {
    if CaptureAt(s, i, lits[k], ci) then k else FirstAlternative(s, i, lits, ci, k + 1)
  }

  /** preg_match of `(?:a|b|...)([A-Za-z0-9_-]+)` with the alternatives `lits`: the group of the
      leftmost match, or None when no alternative matches anywhere. */
  function CaptureAny(s: string, lits: seq<string>, ci: bool): (r: Option<string>)
    ensures r.None? <==> LeftmostAny(s, lits, ci, 0).None?
    ensures r.Some? ==> |r.value| > 0 && forall i :: 0 <= i < |r.value| ==> IsCodeChar(r.value[i])
  {
    match LeftmostAny(s, lits, ci, 0)
    case Some(p) =>
      var k := FirstAlternative(s, p, lits, ci, 0);
      var start := p + |lits[k]|;
      Some(s[start .. RunEnd(s, start)])
    case None => None
  }

  /** `code` is the group of the leftmost match of the alternation: the alternative k is the
      first that matches at p, and no alternative matches before p. */
  predicate LeftmostAlternativeCapture(s: string, lits: seq<string>, ci: bool, code: string) {
    exists p, k :: && 0 <= p < |s| && 0 <= k < |lits| && CaptureAt(s, p, lits[k], ci)
                   && (forall q :: 0 <= q < p ==> !AnyCaptureAt(s, q, lits, ci))
                   && (forall j :: 0 <= j < k ==> !CaptureAt(s, p, lits[j], ci))
                   && code == s[p + |lits[k]| .. RunEnd(s, p + |lits[k]|)]
  }

  lemma CaptureAnyIsLeftmostMatch(s: string, lits: seq<string>, ci: bool)
    requires CaptureAny(s, lits, ci).Some?
    ensures LeftmostAlternativeCapture(s, lits, ci, CaptureAny(s, lits, ci).value)
  {
    var p := LeftmostAny(s, lits, ci, 0).value;
    var k := FirstAlternative(s, p, lits, ci, 0);
    assert CaptureAt(s, p, lits[k], ci);
  }

  function DigitChar(d: nat): char
    requires d < 10
  {
    ('0' as int + d) as char
  }

  predicate IsDigit(c: char) {
    '0' <= c <= '9'
  }

  /** The decimal text of a non-negative integer, as PHP interpolates an int into a string. */
  function NatToString(n: nat): (r: string)
    ensures |r| > 0
    ensures forall k :: 0 <= k < |r| ==> IsDigit(r[k])
    decreases n
  {
    if n < 10 then [DigitChar(n)] else NatToString(n / 10) + [DigitChar(n % 10)]
  }

  /** The decimal text of any integer, with a leading minus sign when negative. */
  function IntToString(i: int): (r: string)
    ensures |r| > 0
  {
    if i < 0 then "-" + NatToString(-i) else NatToString(i)
  }

  /** The value of a string of decimal digits (the inverse of NatToString). */
  function ParseDigits(s: string): nat
    requires forall k :: 0 <= k < |s| ==> IsDigit(s[k])
  {
    if s == [] then 0
    else
      assert IsDigit(s[|s| - 1]);
      ParseDigits(s[..|s| - 1]) * 10 + (s[|s| - 1] as int - '0' as int)
  }

  /** Reading back the decimal text of n gives n. */
  lemma {:induction false} ParseNatToString(n: nat)
    ensures ParseDigits(NatToString(n)) == n
    decreases n
  {
    if n >= 10 {
      var prefix := NatToString(n / 10);
      var t := prefix + [DigitChar(n % 10)];
      assert t[..|t| - 1] == prefix;
      ParseNatToString(n / 10);
    }
  }

  /** Two literals found one right after the other form their concatenation. */
  lemma LiteralConcat(s: string, i: nat, a: string, b: string, ci: bool)
    requires LiteralAt(s, i, a, ci) && LiteralAt(s, i + |a|, b, ci)
    ensures LiteralAt(s, i, a + b, ci)
  {
    forall k | 0 <= k < |a + b| ensures CharMatches(s[i + k], (a + b)[k], ci) {
      if k >= |a| {
        assert (a + b)[k] == b[k - |a|];
        assert s[i + k] == s[(i + |a|) + (k - |a|)];
      }
    }
  }

  /** A literal with no upper-case letter that matches exactly also matches without case. */
  lemma ExactImpliesFolded(s: string, i: nat, lit: string)
    requires forall k :: 0 <= k < |lit| ==> !('A' <= lit[k] <= 'Z')
    requires LiteralAt(s, i, lit, false)
    ensures LiteralAt(s, i, lit, true)
  {
  }

  /** PHP's conversion of a float to int: truncation toward zero, so the integer lies within
      one of the number, on the side of zero. */
  function Trunc(r: real): (n: int)
    ensures r >= 0.0 ==> n >= 0 && n as real <= r < n as real + 1.0
    ensures r < 0.0 ==> n <= 0 && n as real - 1.0 < r <= n as real
  {
    if r >= 0.0 then r.Floor else -((-r).Floor)
  }

  /** PHP's `%` on integers: the remainder takes the sign of the dividend (C-style truncation),
      unlike Dafny's Euclidean `%`. */
  function TruncMod(a: int, b: int): (r: int)
    requires b > 0
    ensures (a - r) % b == 0
    ensures a >= 0 ==> 0 <= r < b
    ensures a < 0 ==> -b < r <= 0
  {
    if a >= 0 then
      var q := a / b;
      assert a - a % b == b * q;
      MultipleMod(b, q);
      a % b
    else
      var q := (-a) / b;
      assert a + (-a) % b == b * -q;
      MultipleMod(b, -q);
      -((-a) % b)
  }

  /** A multiple of b leaves no remainder. */
  lemma MultipleMod(b: int, k: int)
    requires b > 0
    ensures (b * k) % b == 0
  {
    var x := b * k;
    var d := k - x / b;
    assert x % b == b * d;
  }

  /** sprintf's `%02d`: at least two characters, padded with a leading zero. */
  function ZeroPad2(n: int): (r: string)
    ensures 0 <= n < 10 ==> r == "0" + NatToString(n)
    ensures !(0 <= n < 10) ==> r == IntToString(n)
  {
    if 0 <= n < 10 then "0" + NatToString(n) else IntToString(n)
  }
}
