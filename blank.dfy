/**
 * Kotlin's `CharSequence.isBlank()` on the JVM: a string is blank when it is
 * empty or every character satisfies `Char.isWhitespace()`, which is
 * `Character.isWhitespace(c) || Character.isSpaceChar(c)`.
 */
module Blank {

  /** The characters `Char.isWhitespace()` accepts: the ASCII controls
      U+0009..U+000D and U+001C..U+001F, the space, and the Unicode space,
      line and paragraph separators (non-breaking spaces included). */
  predicate IsWhitespace(ch: char): (b: bool)
    ensures ch == ' ' || ch == '\t' || ch == '\n' || ch == '\r' ==> b
    ensures ch as int == 0xA0 || ch as int == 0x3000 ==> b
    ensures ('0' <= ch <= '9') || ('a' <= ch <= 'z') || ('A' <= ch <= 'Z') ==> !b
    ensures ch as int == 0x85 || ch as int == 0x200B ==> !b
  {
    var c := ch as int;
    (0x09 <= c <= 0x0D) || (0x1C <= c <= 0x20) || c == 0xA0 || c == 0x1680
    || (0x2000 <= c <= 0x200A) || c == 0x2028 || c == 0x2029 || c == 0x202F
    || c == 0x205F || c == 0x3000
  }

  /** Blank means empty or whitespace only: a string is not blank exactly
      when some character of it is not whitespace. */
  predicate IsBlank(s: string): (b: bool)
    ensures !b <==> exists i | 0 <= i < |s| :: !IsWhitespace(s[i])
  {
    forall i | 0 <= i < |s| :: IsWhitespace(s[i])
  }

  /** A string is blank exactly when both of its parts are. */
  lemma BlankAppend(s: string, t: string)
    ensures IsBlank(s + t) <==> IsBlank(s) && IsBlank(t)
  {
    if IsBlank(s) && IsBlank(t) {
      forall i | 0 <= i < |s + t| ensures IsWhitespace((s + t)[i]) {
        if i >= |s| {
          assert (s + t)[i] == t[i - |s|];
        }
      }
    }
    if IsBlank(s + t) {
      forall i | 0 <= i < |s| ensures IsWhitespace(s[i]) {
        assert s[i] == (s + t)[i];
      }
      forall i | 0 <= i < |t| ensures IsWhitespace(t[i]) {
        assert t[i] == (s + t)[|s| + i];
      }
    }
  }

  /** The empty string, whitespace mixes and non-breaking or ideographic
      spaces are blank; a string with one visible character is not. */
  lemma BlankExamples()
    ensures IsBlank("")
    ensures IsBlank(" \t\r\n")
    ensures IsBlank("\U{A0}\U{3000}")
    ensures !IsBlank("  a ")
  {
    assert !IsWhitespace("  a "[2]);
  }
}
