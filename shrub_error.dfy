/** The error type of shrub_lang/src/shrub_error.rs. */
module ShrubError {

  /** A lexical error: a fixed message and the line on which scanning stopped. */
  datatype SyntaxError = SyntaxError(message: string, line: nat)

  /** The message for a character that starts no token. */
  const UnexpectedCharacter: string := "Unexpected Character"

  /** The message for a string literal that has no closing quote. */
  const UnterminatedString: string := "String never terminates."
}
