/** The EditorID keyword filter of the patch pass. */
module Exclusion {
  import opened Records

  /** The characters .NET's char.IsWhiteSpace accepts: the space, line and paragraph
      separators of Unicode, the controls U+0009 to U+000D, and U+0085. */
  predicate IsWhiteSpace(c: char) {
    c == ' ' || ('\t' <= c <= '\r') || c == '\U{0085}' || c == '\U{00A0}' || c == '\U{1680}'
    || ('\U{2000}' <= c <= '\U{200A}') || c == '\U{2028}' || c == '\U{2029}' || c == '\U{202F}'
    || c == '\U{205F}' || c == '\U{3000}'
  }

  /** An empty string or one made of white space only. */
  predicate IsBlank(s: string) {
    forall i :: 0 <= i < |s| ==> IsWhiteSpace(s[i])
  }

  /** string.IsNullOrWhiteSpace. */
  predicate IsNullOrWhiteSpace(s: Option<string>) {
    s.None? || IsBlank(s.value)
  }

  /** Whether part occurs in s at position i. */
  predicate OccursAt(s: string, part: string, i: int) {
    0 <= i <= |s| - |part| && s[i..i + |part|] == part
  }

  /** Ordinal (case-sensitive) substring test, as string.Contains. */
  predicate Contains(s: string, part: string) {
    exists i :: 0 <= i <= |s| - |part| && OccursAt(s, part, i)
  }

  /** The condition on one keyword: it is not blank and occurs in the EditorID. */
  predicate KeywordMatches(editorID: string, keyword: string) {
    !IsBlank(keyword) && Contains(editorID, keyword)
  }

  /** Whether some keyword of the list matches, as the Any over the keyword list. */
  function AnyKeywordMatches(editorID: string, keywords: seq<string>): (r: bool)
    ensures r <==> exists i :: 0 <= i < |keywords| && KeywordMatches(editorID, keywords[i])
  {
    if |keywords| == 0 then false
    else if KeywordMatches(editorID, keywords[0]) then true
    else
      var r := AnyKeywordMatches(editorID, keywords[1..]);
      assert forall i :: 1 <= i < |keywords| ==> keywords[i] == keywords[1..][i - 1];
      r
  }

  /** The exclusion test of the pass: the keyword check is on when the list is
      non-empty, and then a record is excluded when its EditorID is not blank and
      some non-blank keyword occurs in it. The list-is-non-empty guard changes
      nothing: an empty list has no matching keyword. */
  function Excluded(editorID: Option<string>, keywords: seq<string>): (r: bool)
    ensures r <==> editorID.Some? && !IsBlank(editorID.value)
                   && exists i :: 0 <= i < |keywords| && KeywordMatches(editorID.value, keywords[i])
    ensures IsNullOrWhiteSpace(editorID) ==> !r
  {
    var checkIfExcluded := |keywords| > 0;
    checkIfExcluded && !IsNullOrWhiteSpace(editorID) && AnyKeywordMatches(editorID.value, keywords)
  }
}
