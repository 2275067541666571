/** The character classes of lexer.rs (`is_alpha`, `is_number`, `is_alphanumeric`). */
module CharClass {

  /** An ASCII letter or `_`: the characters that may begin an identifier. */
  predicate IsAlpha(c: char) {
    'a' <= c <= 'z' || 'A' <= c <= 'Z' || c == '_'
  }

  /** An ASCII decimal digit. */
  predicate IsNumber(c: char) {
    '0' <= c <= '9'
  }

  predicate IsAlphanumeric(c: char) {
    IsAlpha(c) || IsNumber(c)
  }

  /** The spaces the lexer skips without counting a line. */
  predicate IsWhitespace(c: char) {
    c == ' ' || c == '\r' || c == '\t'
  }

  /** A text the identifier scanner can produce: a letter or `_`, then letters, digits and `_`. */
  predicate IsWord(w: string) {
    |w| > 0 && IsAlpha(w[0]) && forall k | 0 <= k < |w| :: IsAlphanumeric(w[k])
  }

  /** A non-empty run of digits. */
  predicate IsDigits(s: string) {
    |s| > 0 && forall k | 0 <= k < |s| :: IsNumber(s[k])
  }

  /** The number grammar: digits, optionally followed by `.` and more digits. */
  predicate IsNumberText(s: string) {
    IsDigits(s) || exists p | 0 < p < |s| :: s[p] == '.' && IsDigits(s[..p]) && IsDigits(s[p + 1..])
  }

  /** The classes are disjoint from each other and from layout, quotes and punctuation, which is
      why the dispatch of `scan_token` can try them in any order and why a word or a number never
      contains a line break. */
  lemma ClassesAreDisjoint(c: char)
    ensures IsNumber(c) ==> !IsAlpha(c)
    ensures IsAlphanumeric(c) ==> c != '\n' && !IsWhitespace(c) && c != '"' && c != '.' && c != '/'
    ensures IsAlphanumeric(c) ==> c !in "(){},+-*;!=<>"
  {
  }
}
