/**
 * The character classes the comment lexer consults, after Rust's
 * `char::is_alphanumeric`, `char::is_ascii_punctuation` and
 * `char::is_whitespace`.
 */
module CharClass {

  /** `char::is_alphanumeric`, restricted to the ASCII letters and digits. */
  predicate IsAlphanumeric(c: char) {
    'a' <= c <= 'z' || 'A' <= c <= 'Z' || '0' <= c <= '9'
  }

  /** `char::is_ascii_punctuation`: the 32 graphic ASCII characters that are
      neither letters nor digits. */
  predicate IsAsciiPunctuation(c: char) {
    '!' <= c <= '/' || ':' <= c <= '@' || '[' <= c <= '`' || '{' <= c <= '~'
  }

  /** `char::is_whitespace`: the Unicode White_Space property. */
  predicate IsWhitespace(c: char) {
    '\t' <= c <= '\r' || c == ' ' || c == '\U{85}' || c == '\U{A0}' || c == '\U{1680}'
    || '\U{2000}' <= c <= '\U{200A}' || c == '\U{2028}' || c == '\U{2029}'
    || c == '\U{202F}' || c == '\U{205F}' || c == '\U{3000}'
  }

  /** The guard of the first arm of `CommentState::consume`: the characters a
      comment may contain. */
  predicate InComment(c: char) {
    IsAlphanumeric(c) || IsAsciiPunctuation(c) || IsWhitespace(c)
  }
}
