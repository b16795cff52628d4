/**
 * The validation schema of the tag form: a name of 1 to 20 characters that
 * is not all whitespace, and a colour that passes the keystroke gate of
 * module Color. Every failing check reports its own issue.
 */
module TagSchema {
  import opened Hex
  import opened Color

  const MaxNameLength: nat := 20

  /** The JavaScript regular-expression class `\s`: white space and line terminators. */
  predicate IsWhitespace(c: char) {
    || c == '\t' || c == '\n' || c == '\U{000B}' || c == '\U{000C}' || c == '\r' || c == ' '
    || c == '\U{00A0}' || c == '\U{1680}' || '\U{2000}' <= c <= '\U{200A}'
    || c == '\U{2028}' || c == '\U{2029}' || c == '\U{202F}' || c == '\U{205F}'
    || c == '\U{3000}' || c == '\U{FEFF}'
  }

  /** `/^\s*$/.test(name)` */
  predicate OnlyWhitespace(name: string) {
    forall i :: 0 <= i < |name| ==> IsWhitespace(name[i])
  }

  datatype TagIssue = NameRequired | NameTooLong | NameOnlyWhitespace | InvalidColor

  /**
   * The issues the schema reports, in the order of its checks. A form is
   * accepted exactly when its name has 1 to 20 characters, at least one of
   * them not whitespace, and its colour passes the keystroke gate.
   */
  function ValidateTag(name: string, color: string): (issues: seq<TagIssue>)
    ensures issues == [] <==>
      && 1 <= |name| <= MaxNameLength
      && (exists i :: 0 <= i < |name| && !IsWhitespace(name[i]))
      && IsValidColorInput(color)
    ensures InvalidColor in issues <==> !IsValidColorInput(color)
    ensures name == "" ==> NameRequired in issues && NameOnlyWhitespace in issues
  {
    (if |name| < 1 then [NameRequired] else [])
    + (if |name| > MaxNameLength then [NameTooLong] else [])
    + (if OnlyWhitespace(name) then [NameOnlyWhitespace] else [])
    + (if !IsValidColorInput(color) then [InvalidColor] else [])
  }

  /** Empty, `#` and partial colours such as `#12` pass the schema. */
  lemma SchemaAcceptsPartialColors(name: string, h: string)
    requires AllHex(h) && |h| <= 6
    ensures InvalidColor !in ValidateTag(name, "")
    ensures InvalidColor !in ValidateTag(name, "#")
    ensures InvalidColor !in ValidateTag(name, "#" + h) && InvalidColor !in ValidateTag(name, h)
  {
    assert ("#" + h)[1..] == h;
  }

  /**
   * A colour the schema accepts is saved as its normalisation, which is
   * canonical, except `""` and `"#"`, which are saved as the fallback.
   */
  lemma AcceptedColorIsSubmittedNormalized(color: string)
    requires IsValidColorInput(color)
    ensures color == "" || color == "#" ==> GetSubmissionColor(color) == Fallback
    ensures color != "" && color != "#" ==>
      GetSubmissionColor(color) == NormalizeColor(color) && IsCanonical(GetSubmissionColor(color))
  {
    NormalizeColorCanonical(color);
    GetSubmissionColorSpec(color);
  }
}
