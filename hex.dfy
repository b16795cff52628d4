/**
 * Character classes and the regular-expression shapes that the colour
 * helpers test, written as predicates over characters.
 *
 * `HashRun(s, lo, hi)` is the test `/^#([0-9A-Fa-f]{lo,hi})$/i` and
 * `BareRun(s, lo, hi)` is `/^([0-9A-Fa-f]{lo,hi})$/i`.
 */
module Hex {

  /** `[0-9A-Fa-f]` (the `i` flag adds nothing to this class). */
  predicate IsHexDigit(c: char) {
    '0' <= c <= '9' || 'a' <= c <= 'f' || 'A' <= c <= 'F'
  }

  predicate IsUpperHexDigit(c: char) {
    '0' <= c <= '9' || 'A' <= c <= 'F'
  }

  predicate AllHex(s: string) {
    forall i :: 0 <= i < |s| ==> IsHexDigit(s[i])
  }

  /** `/^#([0-9A-Fa-f]{lo,hi})$/i.test(s)` */
  predicate HashRun(s: string, lo: nat, hi: nat) {
    |s| >= 1 && s[0] == '#' && lo <= |s| - 1 <= hi && AllHex(s[1..])
  }

  /** `/^([0-9A-Fa-f]{lo,hi})$/i.test(s)` */
  predicate BareRun(s: string, lo: nat, hi: nat) {
    lo <= |s| <= hi && AllHex(s)
  }

  /** A complete colour as the picker accepts it: `#` and six hex digits of either case. */
  predicate IsSixDigitHex(s: string) {
    HashRun(s, 6, 6)
  }

  /** The canonical stored form: `#` and six upper-case hex digits. */
  predicate IsCanonical(s: string) {
    |s| == 7 && s[0] == '#' && forall i :: 1 <= i < 7 ==> IsUpperHexDigit(s[i])
  }

  /** `toUpperCase` on one character, restricted to ASCII letters. */
  function UpperChar(c: char): (u: char)
    ensures IsHexDigit(c) ==> IsUpperHexDigit(u)
    ensures IsUpperHexDigit(c) ==> u == c
    ensures c == '#' ==> u == '#'
  {
    if 'a' <= c <= 'z' then (c as int - 32) as char else c
  }

  /** `toUpperCase` on a string, restricted to ASCII letters. */
  function Upper(s: string): (r: string)
    ensures |r| == |s|
    ensures forall i :: 0 <= i < |s| ==> r[i] == UpperChar(s[i])
  {
    seq(|s|, i requires 0 <= i < |s| => UpperChar(s[i]))
  }

  /** Each of the three digits written twice: the CSS `#rgb` expansion. */
  function Doubled(h: string): (r: string)
    requires |h| == 3
    ensures |r| == 6
    ensures forall i :: 0 <= i < 6 ==> r[i] == h[i / 2]
  {
    [h[0], h[0], h[1], h[1], h[2], h[2]]
  }

  /** `s.padEnd(n, [c])`: right-pads with `c` up to length `n`, never shortens. */
  function PadEnd(s: string, n: nat, c: char): (r: string)
    ensures |s| >= n ==> r == s
    ensures |s| < n ==> |r| == n && r[..|s|] == s
    ensures forall i :: |s| <= i < |r| ==> r[i] == c
  {
    if |s| >= n then s else s + seq(n - |s|, _ => c)
  }

  /** `#` followed by six hex digits, once upper-cased, is canonical. */
  lemma UpperSixDigitIsCanonical(s: string)
    requires IsSixDigitHex(s)
    ensures IsCanonical(Upper(s))
  {
    var r := Upper(s);
    forall i | 1 <= i < 7 ensures IsUpperHexDigit(r[i]) {
      assert s[i] == s[1..][i - 1];
    }
  }

  /** A canonical colour is already upper-case and has the picker's complete shape. */
  lemma CanonicalIsUpperFixpoint(s: string)
    requires IsCanonical(s)
    ensures Upper(s) == s
    ensures IsSixDigitHex(s)
  {
    assert Upper(s) == s;
    forall i | 0 <= i < 6 ensures IsHexDigit(s[1..][i]) {
      assert s[1..][i] == s[i + 1];
    }
  }

  /** Upper-casing passes the leading `#` through. */
  lemma UpperAfterHash(x: string)
    ensures Upper("#" + x) == "#" + Upper(x)
  {
    var hx := "#" + x;
    var l, r := Upper(hx), "#" + Upper(x);
    forall i | 0 <= i < |l| ensures l[i] == r[i] {
      if i > 0 {
        assert hx[i] == x[i - 1];
      }
    }
    assert l == r;
  }

}
