/**
 * The colour-string helpers of the tag editor: a permissive keystroke gate,
 * a best-effort normaliser, a total preview colour and a total submission
 * colour. The 3-digit expansion is the CSS hex notation (CSS Color Module
 * Level 4, section 5.2); every other partial run is right-padded with `0`.
 */
module Color {
  import opened Hex

  /** The colour every total helper falls back to. */
  const Fallback: string := "#0EA5E9"

  /** `#` and each of the three digits doubled (before upper-casing). */
  function Expand(h: string): (r: string)
    requires |h| == 3
    ensures |r| == 7 && r[0] == '#' && r[1..] == Doubled(h)
  {
    "#" + Doubled(h)
  }

  /** `#` and the digits right-padded with `0` to six (before upper-casing). */
  function Pad(h: string): (r: string)
    requires |h| <= 6
    ensures |r| == 7 && r[0] == '#' && r[1..] == PadEnd(h, 6, '0')
  {
    "#" + PadEnd(h, 6, '0')
  }

  /**
   * The keystroke gate: accepts an optional `#` and at most six hex digits.
   * The explicit `""` and `"#"` tests of the source are subsumed by the
   * pattern, and the leading `#` decides which length bound applies.
   */
  function IsValidColorInput(s: string): (b: bool)
    ensures b <==> HashRun(s, 0, 6) || BareRun(s, 0, 6)
    ensures b <==> if |s| > 0 && s[0] == '#' then |s| <= 7 && AllHex(s[1..]) else |s| <= 6 && AllHex(s)
  {
    s == "" || s == "#" || HashRun(s, 0, 6) || BareRun(s, 0, 6)
  }

  /** Best-effort canonicalisation; input it does not recognise comes back as it is. */
  function NormalizeColor(s: string): (r: string)
    ensures r == s || IsCanonical(r)
  {
    if s == "" then ""
    else if s == "#" then "#"
    else if HashRun(s, 6, 6) then UpperSixDigitIsCanonical(s); Upper(s)
    else if HashRun(s, 3, 3) then RunsCanonicalize(s[1..]); Upper(Expand(s[1..]))
    else if BareRun(s, 1, 6) then
      RunsCanonicalize(s);
      if |s| == 3 then Upper(Expand(s)) else Upper(Pad(s))
    else if HashRun(s, 1, 5) then RunsCanonicalize(s[1..]); Upper(Pad(s[1..]))
    else s
  }

  /** The input shapes the preview recognises: `#` and 1 to 6 digits, or 3 to 6 bare digits. */
  predicate PreviewShape(s: string) {
    HashRun(s, 1, 6) || BareRun(s, 3, 6)
  }

  /** The live preview colour: never an invalid CSS colour. */
  function GetSafeColor(s: string): (r: string)
    ensures IsCanonical(r)
  {
    if HashRun(s, 6, 6) then UpperSixDigitIsCanonical(s); Upper(s)
    else if HashRun(s, 3, 3) then RunsCanonicalize(s[1..]); Upper(Expand(s[1..]))
    else if HashRun(s, 1, 5) then RunsCanonicalize(s[1..]); Upper(Pad(s[1..]))
    else if BareRun(s, 3, 6) then
      RunsCanonicalize(s);
      if |s| == 3 then Upper(Expand(s)) else Upper(Pad(s))
    else FallbackIsCanonical(); Fallback
  }

  /** The colour sent to the server when a tag is saved. */
  function GetSubmissionColor(s: string): (r: string)
    ensures IsCanonical(r)
  {
    if HashRun(s, 6, 6) then UpperSixDigitIsCanonical(s); Upper(s)
    else
      var normalized := NormalizeColor(s);
      if HashRun(normalized, 6, 6) then normalized
      else FallbackIsCanonical(); Fallback
  }

  // ---------------------------------------------------------------------
  // Shapes of the intermediate strings

  lemma FallbackIsCanonical()
    ensures IsCanonical(Fallback)
  {
  }

  lemma ExpandIsSixDigitHex(h: string)
    requires |h| == 3 && AllHex(h)
    ensures IsSixDigitHex(Expand(h))
  {
    var e := Expand(h);
    forall i | 0 <= i < 6 ensures IsHexDigit(e[1..][i]) {
      assert e[1..][i] == h[i / 2];
    }
  }

  lemma PadIsSixDigitHex(h: string)
    requires |h| <= 6 && AllHex(h)
    ensures IsSixDigitHex(Pad(h))
  {
    var p := Pad(h);
    forall i | 0 <= i < 6 ensures IsHexDigit(p[1..][i]) {
      if i < |h| {
        assert p[1..][i] == PadEnd(h, 6, '0')[..|h|][i];
      }
    }
  }

  /** A run of 3 digits expanded, or of 1 to 6 digits padded, is canonical once upper-cased. */
  lemma RunsCanonicalize(h: string)
    requires 1 <= |h| <= 6 && AllHex(h)
    ensures |h| == 3 ==> IsCanonical(Upper(Expand(h)))
    ensures IsCanonical(Upper(Pad(h)))
  {
    if |h| == 3 {
      ExpandIsSixDigitHex(h);
      UpperSixDigitIsCanonical(Expand(h));
    }
    PadIsSixDigitHex(h);
    UpperSixDigitIsCanonical(Pad(h));
  }

  // ---------------------------------------------------------------------
  // NormalizeColor

  /**
   * NormalizeColor yields a canonical colour exactly for the inputs the
   * keystroke gate accepts, other than `""` and `"#"`; every other input,
   * `""` and `"#"` included, is returned unchanged.
   */
  lemma NormalizeColorCanonical(s: string)
    ensures IsCanonical(NormalizeColor(s)) <==> IsValidColorInput(s) && s != "" && s != "#"
    ensures !IsCanonical(NormalizeColor(s)) ==> NormalizeColor(s) == s
  {
    var r := NormalizeColor(s);
    if s == "" || s == "#" {
    } else if HashRun(s, 6, 6) {
      UpperSixDigitIsCanonical(s);
    } else if HashRun(s, 3, 3) {
      ExpandIsSixDigitHex(s[1..]);
      UpperSixDigitIsCanonical(Expand(s[1..]));
    } else if BareRun(s, 1, 6) {
      if |s| == 3 {
        ExpandIsSixDigitHex(s);
        UpperSixDigitIsCanonical(Expand(s));
      } else {
        PadIsSixDigitHex(s);
        UpperSixDigitIsCanonical(Pad(s));
      }
    } else if HashRun(s, 1, 5) {
      PadIsSixDigitHex(s[1..]);
      UpperSixDigitIsCanonical(Pad(s[1..]));
    } else {
      assert !IsValidColorInput(s);
      if IsCanonical(s) {
        CanonicalIsUpperFixpoint(s);
      }
    }
  }

  /** Shorthand `rgb` and `#rgb` both expand to `#RRGGBB`, upper-cased. */
  lemma NormalizeColorShorthand(h: string)
    requires |h| == 3 && AllHex(h)
    ensures NormalizeColor(h) == "#" + Upper(Doubled(h))
    ensures NormalizeColor("#" + h) == "#" + Upper(Doubled(h))
  {
    assert ("#" + h)[1..] == h;
    UpperAfterHash(Doubled(h));
  }

  /**
   * Runs of 1, 2, 4, 5 or 6 digits, with or without `#`, are right-padded
   * with `0` to six digits, prefixed with `#` and upper-cased; a 4-digit run
   * is padded, not read as `#RGBA`.
   */
  lemma NormalizeColorPadding(h: string)
    requires 1 <= |h| <= 6 && |h| != 3 && AllHex(h)
    ensures NormalizeColor(h) == "#" + Upper(PadEnd(h, 6, '0'))
    ensures NormalizeColor("#" + h) == "#" + Upper(PadEnd(h, 6, '0'))
  {
    assert ("#" + h)[1..] == h;
    UpperAfterHash(PadEnd(h, 6, '0'));
    if |h| == 6 {
      assert Pad(h) == "#" + h;
    }
  }

  lemma NormalizeColorIdempotent(s: string)
    ensures NormalizeColor(NormalizeColor(s)) == NormalizeColor(s)
  {
    var r := NormalizeColor(s);
    NormalizeColorCanonical(s);
    if IsCanonical(r) {
      CanonicalIsUpperFixpoint(r);
    }
  }

  // ---------------------------------------------------------------------
  // GetSafeColor

  /**
   * The preview colour is always canonical: it is NormalizeColor's result
   * on the shapes the preview recognises and the fallback on everything
   * else (`""`, `"#"`, bare runs of one or two digits, non-hex text).
   */
  lemma GetSafeColorSpec(s: string)
    ensures IsCanonical(GetSafeColor(s))
    ensures PreviewShape(s) ==> GetSafeColor(s) == NormalizeColor(s)
    ensures !PreviewShape(s) ==> GetSafeColor(s) == Fallback
  {
    if PreviewShape(s) {
      assert IsValidColorInput(s) && s != "" && s != "#";
      NormalizeColorCanonical(s);
    }
  }

  lemma GetSafeColorIdempotent(s: string)
    ensures GetSafeColor(GetSafeColor(s)) == GetSafeColor(s)
  {
    var r := GetSafeColor(s);
    GetSafeColorSpec(s);
    CanonicalIsUpperFixpoint(r);
  }

  // ---------------------------------------------------------------------
  // GetSubmissionColor

  /**
   * The submitted colour is NormalizeColor's result when that is canonical
   * and the fallback otherwise; so it is always canonical.
   */
  lemma GetSubmissionColorSpec(s: string)
    ensures GetSubmissionColor(s) == if IsCanonical(NormalizeColor(s)) then NormalizeColor(s) else Fallback
    ensures IsCanonical(GetSubmissionColor(s))
  {
    var n := NormalizeColor(s);
    NormalizeColorCanonical(s);
    if IsCanonical(n) {
      CanonicalIsUpperFixpoint(n);
    } else {
      assert n == s && !HashRun(s, 6, 6);
    }
  }

  lemma GetSubmissionColorIdempotent(s: string)
    ensures GetSubmissionColor(GetSubmissionColor(s)) == GetSubmissionColor(s)
  {
    var r := GetSubmissionColor(s);
    GetSubmissionColorSpec(s);
    CanonicalIsUpperFixpoint(r);
  }

  /** On every shape the preview recognises, what is submitted is what was previewed. */
  lemma SubmissionAgreesWithPreview(s: string)
    requires PreviewShape(s)
    ensures GetSubmissionColor(s) == GetSafeColor(s)
  {
    GetSafeColorSpec(s);
    GetSubmissionColorSpec(s);
  }

  /**
   * A bare run of one or two digits is previewed as the fallback but
   * submitted padded, e.g. `a1` previews as `#0EA5E9` and is saved as `#A10000`.
   */
  lemma PreviewAndSubmissionDisagreeOnShortBareRuns(h: string)
    requires 1 <= |h| <= 2 && AllHex(h)
    ensures GetSafeColor(h) == Fallback
    ensures GetSubmissionColor(h) == "#" + Upper(PadEnd(h, 6, '0'))
    ensures GetSubmissionColor(h) != GetSafeColor(h)
  {
    NormalizeColorPadding(h);
    GetSubmissionColorSpec(h);
    GetSafeColorSpec(h);
    var r := GetSubmissionColor(h);
    assert r[6] == UpperChar(PadEnd(h, 6, '0')[5]) == '0';
    assert Fallback[6] == '9';
  }

  /** `a1` is previewed as the fallback but normalised to `#A10000`. */
  lemma PreviewAndNormalizeDisagreeOnA1()
    ensures GetSafeColor("a1") == Fallback && NormalizeColor("a1") == "#A10000"
  {
    var h := "a1";
    assert AllHex(h) by {
      assert IsHexDigit(h[0]) && IsHexDigit(h[1]);
    }
    assert !PreviewShape(h);
    GetSafeColorSpec(h);
    NormalizeColorPadding(h);
    var p := PadEnd(h, 6, '0');
    assert p == "a10000";
    var u := Upper(p);
    assert u[0] == 'A' && u[1] == '1' && u[2] == '0' && u[3] == '0' && u[4] == '0' && u[5] == '0';
    assert u == "A10000";
  }
}
