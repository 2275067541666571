/** The token data model of shrub_lang/src/token.rs, completed with every kind the lexer emits. */
module Token {

  /** Every token kind that the lexer produces. */
  datatype TokenKind =
    // single-character punctuation
    | LBracket | RBracket | LBrace | RBrace | Dot | Comma | Plus | Minus | Star | Slash | Semicolon
    // one- or two-character operators
    | Bang | BangEqual | Equal | EqualEqual | Greater | GreaterEqual | Less | LessEqual
    // literals and names
    | String | Number | Identifier
    // reserved words
    | And | Or | True | False | Null | Fn | Class | Output | Let | For | If | Else | While | Return | Super
    // end-of-input sentinel
    | Eof
  {
    /** The kinds that stand for a reserved word. */
    predicate IsKeyword() {
      this in {And, Or, True, False, Null, Fn, Class, Output, Let, For, If, Else, While, Return, Super}
    }
  }

  /** The value a token carries (`DataType`): numbers carry their exact decimal value,
      strings the text between the quotes, every other token `NoValue` (`DataType::NULL`). */
  datatype Literal = Num(number: real) | Text(text: string) | NoValue

  /** A token: its kind, the exact source text it was made from, its value and its line. */
  datatype Token = Token(kind: TokenKind, lexeme: string, value: Literal, line: nat)
}
