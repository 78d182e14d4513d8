/**
 * The string predicates that validation relies on: Spring's `StringUtils.hasText`
 * (built on `Character.isWhitespace`) and the case-insensitive, whole-string
 * matching that `String.matches` performs for a pattern made of literal letters
 * under the `(?i)` flag (ASCII case folding only, since UNICODE_CASE is not set).
 */
module SpringText {
  import opened Wrappers

  /**
   * `Character.isWhitespace`: the Unicode space, line and paragraph separators
   * except the non-breaking spaces U+00A0, U+2007 and U+202F, plus the controls
   * U+0009..U+000D and U+001C..U+001F.
   */
  predicate IsWhitespace(c: char)
  {
    ('\t' <= c <= '\r') || ('\U{1C}' <= c <= '\U{1F}') || c == ' '
    || c == '\U{1680}' || ('\U{2000}' <= c <= '\U{2006}') || ('\U{2008}' <= c <= '\U{200A}')
    || c == '\U{2028}' || c == '\U{2029}' || c == '\U{205F}' || c == '\U{3000}'
  }

  /** `StringUtils.hasText`: not null, and some character is not whitespace. */
  predicate HasText(s: Option<string>)
    ensures HasText(s) ==> s.Some? && |s.value| > 0
  {
    s.Some? && exists i | 0 <= i < |s.value| :: !IsWhitespace(s.value[i])
  }

  /** A null, empty or all-whitespace string has no text; any other string has text. */
  lemma HasTextIffNonBlank(s: Option<string>)
    ensures !HasText(None)
    ensures s.Some? ==> (HasText(s) <==> !(forall i | 0 <= i < |s.value| :: IsWhitespace(s.value[i])))
  {
  }

  /** ASCII lower-casing of one character, as the regex engine folds case without UNICODE_CASE. */
  function ToLowerAscii(c: char): (r: char)
    ensures 'A' <= c <= 'Z' ==> 'a' <= r <= 'z' && r as int - c as int == 32
    ensures !('A' <= c <= 'Z') ==> r == c
  {
    if 'A' <= c <= 'Z' then (c as int + 32) as char else c
  }

  /** Lower-cases every ASCII letter of `s` and keeps every other character. */
  function LowerAscii(s: string): (r: string)
    ensures |r| == |s|
    ensures forall i :: 0 <= i < |s| ==> r[i] == ToLowerAscii(s[i])
  {
    if s == [] then [] else [ToLowerAscii(s[0])] + LowerAscii(s[1..])
  }

  /** A string without ASCII capitals is its own lower-casing. */
  lemma LowerAsciiKeepsLowerCase(s: string)
    requires forall i :: 0 <= i < |s| ==> !('A' <= s[i] <= 'Z')
    ensures LowerAscii(s) == s
  {
  }

  /**
   * Whole-string match of `s` against the literal `p` with ASCII case folding:
   * the lengths agree and each character of `s` matches the character of `p`
   * in the same position ignoring ASCII case.
   */
  predicate EqualsIgnoreAsciiCase(s: string, p: string)
    decreases |s|
  {
    |s| == |p| && (s == [] || (ToLowerAscii(s[0]) == ToLowerAscii(p[0]) && EqualsIgnoreAsciiCase(s[1..], p[1..])))
  }

  /** Case-insensitive matching is exactly equality after ASCII lower-casing. */
  lemma {:induction false} EqualsIgnoreAsciiCaseIffLowerEqual(s: string, p: string)
    ensures EqualsIgnoreAsciiCase(s, p) <==> LowerAscii(s) == LowerAscii(p)
    decreases |s|
  {
    if |s| == |p| && s != [] {
      EqualsIgnoreAsciiCaseIffLowerEqual(s[1..], p[1..]);
      assert LowerAscii(s) == [ToLowerAscii(s[0])] + LowerAscii(s[1..]);
      assert LowerAscii(p) == [ToLowerAscii(p[0])] + LowerAscii(p[1..]);
      if LowerAscii(s) == LowerAscii(p) {
        assert LowerAscii(s)[1..] == LowerAscii(s[1..]);
        assert LowerAscii(p)[1..] == LowerAscii(p[1..]);
      }
    }
  }

  /** Against a word without ASCII capitals, matching ignoring case means lower-casing to that word. */
  lemma EqualsIgnoreAsciiCaseOfLowerWord(s: string, w: string)
    requires forall i :: 0 <= i < |w| ==> !('A' <= w[i] <= 'Z')
    ensures EqualsIgnoreAsciiCase(s, w) <==> LowerAscii(s) == w
  {
    EqualsIgnoreAsciiCaseIffLowerEqual(s, w);
    LowerAsciiKeepsLowerCase(w);
  }
}
