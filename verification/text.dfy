/** The parts of Kotlin's string library the core relies on:
    `Char.isWhitespace`, `CharSequence.isBlank`, `isNullOrBlank` and `ifBlank { null }`. */
module Text {
  import opened Wrappers

  /** `Char.isWhitespace` on the JVM: `Character.isWhitespace(c) || Character.isSpaceChar(c)`,
      i.e. the ASCII controls TAB..CR and FS..US, every space, line and paragraph separator,
      including the no-break spaces U+00A0, U+2007 and U+202F. */
  predicate IsWhitespace(c: char) {
    var n := c as int;
    || (0x09 <= n <= 0x0D)
    || (0x1C <= n <= 0x20)
    || n == 0xA0
    || n == 0x1680
    || (0x2000 <= n <= 0x200A)
    || n == 0x2028
    || n == 0x2029
    || n == 0x202F
    || n == 0x205F
    || n == 0x3000
  }

  /** `isBlank`: empty, or whitespace only. */
  predicate IsBlank(s: string) {
    forall i :: 0 <= i < |s| ==> IsWhitespace(s[i])
  }

  /** `isNullOrBlank` on a nullable string. */
  predicate IsNullOrBlank(s: Option<string>) {
    s.None? || IsBlank(s.value)
  }

  /** `s.ifBlank { null }`: a blank string becomes null, any other string is kept verbatim. */
  function IfBlankNull(s: string): (r: Option<string>)
    ensures r.None? <==> IsBlank(s)
    ensures r.Some? ==> r.value == s
    ensures IsNullOrBlank(r) <==> IsBlank(s)
  {
    if IsBlank(s) then None else Some(s)
  }
}
