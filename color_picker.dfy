/**
 * The colour picker control: a native colour input next to a text field.
 * Its own helper, GetValidHexColor, recognises only complete 6-digit and
 * 3-digit shorthand colours and, unlike the helpers of module Color,
 * keeps the case the user typed.
 */
module ColorPicker {
  import opened Hex
  import opened Color

  /** The shapes GetValidHexColor recognises: 3 or 6 digits, with or without `#`. */
  predicate PickerShape(s: string) {
    HashRun(s, 6, 6) || HashRun(s, 3, 3) || BareRun(s, 6, 6) || BareRun(s, 3, 3)
  }

  /**
   * The colour shown by the native colour input: always `#` and six hex
   * digits, the input itself when it is already complete, the fallback
   * for every shape it does not recognise.
   */
  function GetValidHexColor(s: string): (r: string)
    ensures IsSixDigitHex(r)
    ensures IsSixDigitHex(s) ==> r == s
    ensures !PickerShape(s) ==> r == Fallback
  {
    if HashRun(s, 6, 6) then s
    else if HashRun(s, 3, 3) then (ExpandIsSixDigitHex(s[1..]); Expand(s[1..]))
    else if BareRun(s, 6, 6) then (assert ("#" + s)[1..] == s; "#" + s)
    else if BareRun(s, 3, 3) then (ExpandIsSixDigitHex(s); Expand(s))
    else (FallbackIsCanonical(); CanonicalIsUpperFixpoint(Fallback); Fallback)
  }

  /**
   * A bare run of 3 or 6 digits and the same run after `#` give the same
   * colour: the six digits as typed, or each of the three doubled, with
   * their case kept.
   */
  lemma GetValidHexColorOnRuns(h: string)
    requires AllHex(h) && (|h| == 3 || |h| == 6)
    ensures GetValidHexColor(h) == "#" + (if |h| == 3 then Doubled(h) else h)
    ensures GetValidHexColor("#" + h) == GetValidHexColor(h)
  {
    assert ("#" + h)[1..] == h;
  }

  lemma GetValidHexColorIdempotent(s: string)
    ensures GetValidHexColor(GetValidHexColor(s)) == GetValidHexColor(s)
  {
  }

  /** On the shapes it recognises, the picker shows the preview colour up to case. */
  lemma PickerAgreesWithPreviewUpToCase(s: string)
    requires PickerShape(s)
    ensures Upper(GetValidHexColor(s)) == GetSafeColor(s)
  {
    if BareRun(s, 6, 6) && !HashRun(s, 6, 6) {
      UpperAfterHash(s);
      UpperAfterHash(PadEnd(s, 6, '0'));
    }
  }

  /**
   * Partial runs that the other helpers pad are shown as the fallback by
   * the picker: `#12` previews as `#120000` but the picker shows `#0EA5E9`.
   */
  lemma PickerRejectsPartialRuns(h: string)
    requires AllHex(h) && 1 <= |h| <= 5 && |h| != 3
    ensures GetValidHexColor("#" + h) == Fallback
    ensures GetSafeColor("#" + h) == "#" + Upper(PadEnd(h, 6, '0'))
  {
    assert ("#" + h)[1..] == h;
    UpperAfterHash(PadEnd(h, 6, '0'));
  }

  /** `#12` is shown by the picker as the fallback but previewed as `#120000`. */
  lemma PickerAndPreviewDisagreeOnHash12()
    ensures GetValidHexColor("#12") == Fallback && GetSafeColor("#12") == "#120000"
  {
    PickerRejectsPartialRuns("12");
    assert "#" + "12" == "#12";
    assert PadEnd("12", 6, '0') == "120000";
    assert Upper("120000") == "120000";
  }

  /** The picker keeps lower case where the preview upper-cases. */
  lemma PickerKeepsCase()
    ensures GetValidHexColor("#abcdef") == "#abcdef" && GetSafeColor("#abcdef") == "#ABCDEF"
  {
    assert Upper("#abcdef") == "#ABCDEF";
  }

  // ---------------------------------------------------------------------
  // The text field's event handlers, as functions of the stored value

  /**
   * A keystroke is forwarded exactly when the keystroke gate of module
   * Color accepts the new text; otherwise the stored value stays.
   */
  function AfterTextChange(current: string, typed: string): (r: string)
    ensures IsValidColorInput(typed) ==> r == typed
    ensures !IsValidColorInput(typed) ==> r == current
  {
    if typed == "" || typed == "#" || HashRun(typed, 0, 6) || BareRun(typed, 0, 6) then typed else current
  }

  /**
   * Leaving the field completes a non-empty, incomplete value with
   * GetValidHexColor; an empty or complete value is left alone, so the
   * result is always empty or `#` and six hex digits.
   */
  function AfterBlur(v: string): (r: string)
    ensures r == "" || IsSixDigitHex(r)
    ensures v == "" || IsSixDigitHex(v) ==> r == v
    ensures v != "" && !IsSixDigitHex(v) ==> r == GetValidHexColor(v)
  {
    if v != "" && !HashRun(v, 6, 6) then GetValidHexColor(v) else v
  }

  lemma AfterBlurIdempotent(v: string)
    ensures AfterBlur(AfterBlur(v)) == AfterBlur(v)
  {
  }

  /**
   * Typing a partial value the gate accepts and then leaving the field
   * replaces it with the fallback: `#12` becomes `#0EA5E9`, not `#120000`.
   */
  lemma BlurDiscardsPartialRuns(current: string, h: string)
    requires AllHex(h) && 1 <= |h| <= 5 && |h| != 3
    ensures AfterBlur(AfterTextChange(current, "#" + h)) == Fallback
  {
    assert ("#" + h)[1..] == h;
    assert IsValidColorInput("#" + h);
    PickerRejectsPartialRuns(h);
  }

  /** The text field of the picker and the value it pushes to its owner. */
  class ColorField {
    var value: string

    constructor (initial: string)
      ensures value == initial
    {
      value := initial;
    }

    /** The value shown by the native colour input. */
    function SafeValue(): (r: string)
      reads this
      ensures IsSixDigitHex(r)
    {
      GetValidHexColor(value)
    }

    /** A pick in the native colour input is forwarded as it is. */
    method HandleColorChange(picked: string)
      modifies this
      ensures value == picked
    {
      value := picked;
    }

    method HandleTextChange(typed: string) returns (forwarded: bool)
      modifies this
      ensures forwarded <==> IsValidColorInput(typed)
      ensures value == AfterTextChange(old(value), typed)
    {
      forwarded := typed == "" || typed == "#" || HashRun(typed, 0, 6) || BareRun(typed, 0, 6);
      if forwarded {
        value := typed;
      }
    }

    method HandleInputBlur() returns (replaced: bool)
      modifies this
      ensures replaced <==> old(value) != "" && !IsSixDigitHex(old(value))
      ensures value == AfterBlur(old(value))
      ensures value == "" || IsSixDigitHex(value)
    {
      replaced := value != "" && !HashRun(value, 6, 6);
      if replaced {
        value := GetValidHexColor(value);
      }
    }
  }
}
