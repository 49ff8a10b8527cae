/**
 * The parts of the .NET library that the download front-end relies on:
 * `Char.IsWhiteSpace`, `String.IsNullOrWhiteSpace`, `String.IsNullOrEmpty`,
 * `String.Trim`, the first piece of `Split('\n')` and `Path.Combine`.
 */
module DotNet {
  import opened Wrappers

  /** `Char.IsWhiteSpace`: the Unicode separators (Zs, Zl, Zp) plus U+0009..U+000D and U+0085. */
  predicate IsWhiteSpace(c: char) {
    || ('\t' <= c <= '\r')
    || c == ' ' || c == '\U{85}' || c == '\U{A0}' || c == '\U{1680}'
    || ('\U{2000}' <= c <= '\U{200A}')
    || c == '\U{2028}' || c == '\U{2029}' || c == '\U{202F}' || c == '\U{205F}' || c == '\U{3000}'
  }

  /** `String.IsNullOrWhiteSpace`; `None` stands for a null string. */
  predicate IsNullOrWhiteSpace(s: Option<string>) {
    s.None? || forall i :: 0 <= i < |s.value| ==> IsWhiteSpace(s.value[i])
  }

  /** `String.IsNullOrEmpty`; `None` stands for a null string. */
  predicate IsNullOrEmpty(s: Option<string>) {
    s.None? || s.value == ""
  }

  /** Drops the leading white space. */
  function TrimStart(s: string): (r: string)
    ensures |r| <= |s| && r == s[|s| - |r|..]
    ensures r == "" || !IsWhiteSpace(r[0])
    ensures forall i :: 0 <= i < |s| - |r| ==> IsWhiteSpace(s[i])
  {
    if s != [] && IsWhiteSpace(s[0]) then TrimStart(s[1..]) else s
  }

  /** Drops the trailing white space. */
  function TrimEnd(s: string): (r: string)
    ensures |r| <= |s| && r == s[..|r|]
    ensures r == "" || !IsWhiteSpace(r[|r| - 1])
    ensures forall i :: |r| <= i < |s| ==> IsWhiteSpace(s[i])
  {
    if s != [] && IsWhiteSpace(s[|s| - 1]) then TrimEnd(s[..|s| - 1]) else s
  }

  /** How many leading white-space characters `Trim` removes. */
  function LeadingWhiteSpace(s: string): (n: nat)
    ensures n <= |s|
  {
    |s| - |TrimStart(s)|
  }

  /**
   * `String.Trim`: the result is the infix of `s` that starts and ends with a
   * character that is not white space, and everything cut off is white space.
   */
  function Trim(s: string): (r: string)
    ensures LeadingWhiteSpace(s) + |r| <= |s|
    ensures r == s[LeadingWhiteSpace(s)..LeadingWhiteSpace(s) + |r|]
    ensures forall i :: 0 <= i < LeadingWhiteSpace(s) ==> IsWhiteSpace(s[i])
    ensures forall i :: LeadingWhiteSpace(s) + |r| <= i < |s| ==> IsWhiteSpace(s[i])
    ensures r == "" || (!IsWhiteSpace(r[0]) && !IsWhiteSpace(r[|r| - 1]))
  {
    TrimEnd(TrimStart(s))
  }

  /** The first element of `s.Split('\n')`: the text before the first line feed, or all of `s`. */
  function FirstLine(s: string): (r: string)
    ensures |r| <= |s| && r == s[..|r|]
    ensures '\n' !in r
    ensures |r| < |s| ==> s[|r|] == '\n'
  {
    if s == [] || s[0] == '\n' then [] else [s[0]] + FirstLine(s[1..])
  }

  /**
   * `Path.Combine`: the non-empty parts joined by the directory separator,
   * which is left out after a part that already ends with it. Two behaviours
   * of `Path.Combine` are not modelled: a rooted later part restarting the
   * path, and Windows also taking '/' as a separator. No caller passes a
   * rooted later part or a part ending in '/', so neither can show here.
   */
  function CombinePath(parts: seq<string>, separator: char): string {
    if parts == [] then ""
    else
      var init := CombinePath(parts[..|parts| - 1], separator);
      var last := parts[|parts| - 1];
      if last == "" then init
      else if init == "" || init[|init| - 1] == separator then init + last
      else init + [separator] + last
  }

  /** A non-empty last part always ends the combined path. */
  lemma CombinePathEndsWithLastPart(parts: seq<string>, separator: char)
    requires parts != [] && parts[|parts| - 1] != ""
    ensures var r := CombinePath(parts, separator);
      |parts[|parts| - 1]| <= |r| && r[|r| - |parts[|parts| - 1]|..] == parts[|parts| - 1]
  {
  }
}
