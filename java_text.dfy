/**
 * The two text predicates the message model relies on: Java's
 * `Character.isWhitespace` and Spring's `StringUtils.hasText`.
 */
module JavaText {
  import opened JavaInt

  /**
   * `Character.isWhitespace`: the ASCII controls TAB, LF, VT, FF, CR and the four
   * separators U+001C..U+001F, plus the Unicode space, line and paragraph separators
   * except the non-breaking ones (U+00A0, U+2007, U+202F).
   */
  predicate IsWhitespace(c: char) {
    var k := c as int;
    || 0x09 <= k <= 0x0D
    || 0x1C <= k <= 0x20
    || k == 0x1680
    || 0x2000 <= k <= 0x2006
    || 0x2008 <= k <= 0x200A
    || k == 0x2028 || k == 0x2029 || k == 0x205F || k == 0x3000
  }

  /** `StringUtils.hasText` on a non-null string: some character is not whitespace. */
  function HasText(s: string): (b: bool)
    ensures b <==> exists i | 0 <= i < |s| :: !IsWhitespace(s[i])
  {
    if s == [] then false
    else if !IsWhitespace(s[0]) then true
    else
      var rest := HasText(s[1..]);
      assert rest ==> exists i | 0 <= i < |s| :: !IsWhitespace(s[i]) by {
        if rest {
          var j :| 0 <= j < |s| - 1 && !IsWhitespace(s[1..][j]);
          assert s[j + 1] == s[1..][j];
        }
      }
      assert (exists i | 0 <= i < |s| :: !IsWhitespace(s[i])) ==> rest by {
        if exists i | 0 <= i < |s| :: !IsWhitespace(s[i]) {
          var j :| 0 <= j < |s| && !IsWhitespace(s[j]);
          assert j > 0 && s[1..][j - 1] == s[j];
        }
      }
      rest
  }

}
