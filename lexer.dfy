/** The scanner of shrub_lang/src/lexer.rs: a cursor object (`LexerData`) that the scanning
    procedures advance one character at a time, appending tokens as they are recognised. */
module Lexer {
  import opened Results
  import opened Token
  import opened ShrubError
  import opened CharClass
  import opened Keywords
  import opened ScanSpec

  /** The scan cursor: the source characters, the tokens so far, the start of the token under
      construction, the next unread position and the current line. */
  class LexerData {
    const characters: string
    var tokens: seq<Token>
    var current: nat
    var start: nat
    var lineNumber: nat
    var keywords: map<string, TokenKind>

    /** The cursor invariant, and the keyword map is the reserved-word table. */
    ghost predicate Valid()
      reads this
    {
      Cursor() && keywords == KeywordTable
    }

    /** The cursor part of `Valid`: positions inside a source that is empty or ends in a line break. */
    ghost predicate Cursor()
      reads this
    {
      && start <= current <= |characters|
      && (characters == [] || characters[|characters| - 1] == '\n')
    }

    /** The struct literal of `scan_tokens`. It does not establish `Valid()` by itself: that needs
        the populated keyword map and a source ending in a line break, which `ScanTokens` supplies. */
    constructor (characters: string, keywords: map<string, TokenKind>)
      ensures this.characters == characters && this.keywords == keywords
      ensures tokens == [] && current == 0 && start == 0 && lineNumber == 0
    {
      this.characters := characters;
      this.keywords := keywords;
      tokens := [];
      current := 0;
      start := 0;
      lineNumber := 0;
    }

    /** `is_at_end`. */
    function IsAtEnd(): bool
      reads this
    {
      current >= |characters|
    }

    /** `peek`: the source indexes without a bounds check, so the caller must be inside. */
    function Peek(): char
      reads this
      requires current < |characters|
    {
      characters[current]
    }

    /** `peek_next`, likewise unchecked. */
    function PeekNext(): char
      reads this
      requires current + 1 < |characters|
    {
      characters[current + 1]
    }

    /** `advance`: consumes and returns the next character. */
    method Advance() returns (c: char)
      requires current < |characters|
      modifies this`current
      ensures current == old(current) + 1
      ensures c == characters[old(current)]
    {
      current := current + 1;
      c := characters[current - 1];
    }

    /** `char_match`: consumes the next character only when there is one and it is `expected`. */
    method CharMatch(expected: char) returns (matched: bool)
      modifies this`current
      ensures matched <==> old(current) < |characters| && characters[old(current)] == expected
      ensures current == if matched then old(current) + 1 else old(current)
    {
      if current >= |characters| {
        return false;
      }
      if expected != characters[current] {
        return false;
      }
      current := current + 1;
      return true;
    }

    /** `append_generic_token`: a token of `kind` for the text from `start` to `current`. */
    method AppendGenericToken(kind: TokenKind)
      requires start <= current <= |characters|
      modifies this`tokens
      ensures tokens == old(tokens) + [Token(kind, characters[start..current], NoValue, lineNumber)]
    {
      tokens := tokens + [Token(kind, characters[start..current], NoValue, lineNumber)];
    }

    /** `append_value_token`: the same, carrying `value`. */
    method AppendValueToken(kind: TokenKind, value: Literal)
      requires start <= current <= |characters|
      modifies this`tokens
      ensures tokens == old(tokens) + [Token(kind, characters[start..current], value, lineNumber)]
    {
      tokens := tokens + [Token(kind, characters[start..current], value, lineNumber)];
    }

    /** `identifier`: after a letter or `_`, consumes the longest alphanumeric run and emits the
        keyword kind for a table spelling, `Identifier` otherwise. */
    method Identifier()
      requires Valid() && current == start + 1 && IsAlpha(characters[start])
      modifies this`current, this`lineNumber, this`tokens
      ensures Valid() && lineNumber == old(lineNumber)
      ensures current == IdentEnd(characters, old(current))
      ensures tokens == old(tokens) + [Token(WordKind(characters[start..current]), characters[start..current], NoValue, lineNumber)]
    {
      while IsAlphanumeric(Peek())
        invariant start < current < |characters|
        invariant IdentEnd(characters, current) == IdentEnd(characters, old(current))
        invariant lineNumber == old(lineNumber) && tokens == old(tokens)
        decreases |characters| - current
      {
        // The source's line-break check; a line break is never alphanumeric, so this adds 0.
        lineNumber := lineNumber + if Peek() == '\n' then 1 else 0;
        var _ := Advance();
      }
      var text := characters[start..current];
      KeywordTableLookup(text);
      if text in keywords {
        AppendGenericToken(keywords[text]);
      } else {
        AppendGenericToken(TokenKind.Identifier);
      }
    }

    /** The digit loops of `number`: consumes a run of digits. The run stops before the final
        line break, so the cursor stays on a character. */
    method Digits()
      requires Cursor() && current < |characters|
      modifies this`current
      ensures Cursor() && current < |characters|
      ensures current == DigitsEnd(characters, old(current))
    {
      while IsNumber(Peek())
        invariant old(current) <= current < |characters|
        invariant DigitsEnd(characters, current) == DigitsEnd(characters, old(current))
        decreases |characters| - current
      {
        var _ := Advance();
      }
    }

    /** `number`: after a digit, consumes the digits, then `.` and more digits when a digit
        follows the `.`, and emits a `Number` token carrying the lexeme's value. */
    method Number()
      requires Cursor() && current == start + 1 && IsNumber(characters[start])
      modifies this`current, this`tokens
      ensures Cursor()
      ensures current == NumberEnd(characters, old(current))
      ensures IsNumberText(characters[start..current])
      ensures tokens == old(tokens) + [Token(TokenKind.Number, characters[start..current], Num(DecimalValue(characters[start..current])), lineNumber)]
    {
      Digits();
      if Peek() == '.' && IsNumber(PeekNext()) {
        var _ := Advance();
        Digits();
      }
      NumberEndIsNumberText(characters, start);
      AppendValueToken(TokenKind.Number, Num(DecimalValue(characters[start..current])));
    }

    /** `create_string`: after `"`, consumes up to and including the closing `"` and emits a
        `String` token whose value is the text between the quotes; without a closing `"` it
        fails with the unterminated-string message. */
    method CreateString() returns (r: Result<(), string>)
      requires Cursor() && current == start + 1 && characters[start] == '"'
      modifies this`current, this`tokens
      ensures Cursor()
      ensures var e := StringEnd(characters, old(current));
              if e == |characters| then
                r == Err(UnterminatedString) && current == e && tokens == old(tokens)
              else
                && r == Ok(()) && current == e + 1
                && tokens == old(tokens) + [Token(TokenKind.String, characters[start..e + 1], Text(characters[start + 1..e]), lineNumber)]
    {
      while !IsAtEnd() && Peek() != '"'
        invariant start < current <= |characters|
        invariant StringEnd(characters, current) == StringEnd(characters, old(current))
        invariant tokens == old(tokens)
        decreases |characters| - current
      {
        var _ := Advance();
      }
      if IsAtEnd() {
        return Err(UnterminatedString);
      }
      var _ := Advance();
      var text := characters[start + 1..current - 1];
      AppendValueToken(TokenKind.String, Text(text));
      return Ok(());
    }

    /** The comment arm of `scan_token`: after `//`, consumes up to the line break. */
    method Comment()
      requires Cursor() && start + 2 <= current < |characters|
      modifies this`current
      ensures Cursor() && current == CommentEnd(characters, old(current))
    {
      while Peek() != '\n'
        invariant start + 2 <= current < |characters|
        invariant CommentEnd(characters, current) == CommentEnd(characters, old(current))
        decreases |characters| - current
      {
        var _ := Advance();
      }
    }

    /** The state after a `scan_token` call performed `step`, from `tokens0` on line `line0`:
        layout moves the cursor (and the line), a token is appended, or an error is returned and
        no token is appended (the cursor is then abandoned, as `scan_tokens` returns at once). */
    ghost predicate Performed(step: Step, r: Result<(), SyntaxError>, tokens0: seq<Token>, line0: nat)
      reads this
    {
      match step
      case Skip(n, l) => r == Ok(()) && current == n && lineNumber == l && tokens == tokens0
      case Emit(t, n) => r == Ok(()) && current == n && lineNumber == line0 && tokens == tokens0 + [t]
      case Halt(e) => r == Err(e) && tokens == tokens0
    }

    /** The arms of `scan_token` for `!`, `=`, `>` and `<`: the two-character operator when `=`
        follows, the one-character operator otherwise. */
    method Operator(c: char) returns (ghost step: Step)
      requires Cursor() && current == start + 1 && characters[start] == c && OperatorKinds(c).Some?
      modifies this`current, this`tokens
      ensures step == StepAt(characters, start, lineNumber)
      ensures Performed(step, Ok(()), old(tokens), lineNumber)
    {
      StepOperator(characters, start, lineNumber);
      step := StepAt(characters, start, lineNumber);
      var m := CharMatch('=');
      var kinds := OperatorKinds(c).value;
      if m { AppendGenericToken(kinds.1); } else { AppendGenericToken(kinds.0); }
    }

    /** The arm of `scan_token` for `/`: a comment when another `/` follows, else `Slash`. */
    method SlashOrComment() returns (ghost step: Step)
      requires Cursor() && current == start + 1 && characters[start] == '/'
      modifies this`current, this`tokens
      ensures step == StepAt(characters, start, lineNumber)
      ensures Performed(step, Ok(()), old(tokens), lineNumber)
    {
      StepSlash(characters, start, lineNumber);
      step := StepAt(characters, start, lineNumber);
      var m := CharMatch('/');
      if m {
        Comment();
      } else {
        AppendGenericToken(Slash);
      }
    }

    /** The arm of `scan_token` for `"`: the string literal, or the unterminated-string error
        on the current line. */
    method StringLiteral() returns (r: Result<(), SyntaxError>, ghost step: Step)
      requires Cursor() && current == start + 1 && characters[start] == '"'
      modifies this`current, this`tokens
      ensures step == StepAt(characters, start, lineNumber)
      ensures Performed(step, r, old(tokens), lineNumber)
    {
      StepString(characters, start, lineNumber);
      step := StepAt(characters, start, lineNumber);
      var s := CreateString();
      if s.Err? {
        return Err(SyntaxError(s.error, lineNumber)), step;
      }
      r := Ok(());
    }

    /** The last arm of `scan_token`, for a character none of the other arms takes: a number
        after a digit, a word after a letter or `_`, and the unexpected-character error
        otherwise. */
    method Fallback(c: char) returns (r: Result<(), SyntaxError>, ghost step: Step)
      requires Valid() && current == start + 1 && characters[start] == c
      requires SingleCharKind(c).None? && OperatorKinds(c).None?
      requires c != '/' && !IsWhitespace(c) && c != '\n' && c != '"'
      modifies this`current, this`lineNumber, this`tokens
      ensures step == StepAt(characters, start, old(lineNumber))
      ensures Performed(step, r, old(tokens), old(lineNumber))
    {
      step := StepAt(characters, start, lineNumber);
      r := Ok(());
      if IsNumber(c) {
        StepNumber(characters, start, lineNumber);
        Number();
      } else if IsAlpha(c) {
        StepWord(characters, start, lineNumber);
        Identifier();
      } else {
        StepUnexpected(characters, start, lineNumber);
        r := Err(SyntaxError(UnexpectedCharacter, lineNumber));
      }
    }

    /** `scan_token`: one step of the scan, exactly as `StepAt` describes it (`step`). */
    method ScanToken() returns (r: Result<(), SyntaxError>, ghost step: Step)
      requires Valid() && start == current < |characters|
      modifies this`current, this`lineNumber, this`tokens
      ensures step == StepAt(characters, old(current), old(lineNumber))
      ensures Performed(step, r, old(tokens), old(lineNumber))
      ensures r.Ok? ==> Valid()
    {
      ghost var i, line := current, lineNumber;
      step := StepAt(characters, i, line);
      r := Ok(());
      var c := Advance();
      match c {
      case '(' | ')' | '{' | '}' | '.' | ',' | '+' | '-' | '*' | ';' =>
        StepPunctuation(characters, i, line);
        AppendGenericToken(SingleCharKind(c).value);
      case '!' | '=' | '>' | '<' => step := Operator(c);
      case '/' => step := SlashOrComment();
      case ' ' | '\r' | '\t' => StepLayout(characters, i, line);
      case '\n' => StepLayout(characters, i, line); lineNumber := lineNumber + 1;
      case '"' => r, step := StringLiteral();
      case _ => r, step := Fallback(c);
      }
    }
  }

  /** `scan_tokens`: scans the whole source, failing at the first error, and ends a successful
      token list with the `EOF` sentinel. The source must be empty or end in a line break, as
      the lines of the driver's read loop normally do. Without it the unchecked `peek` and
      `peek_next` can read past the end (`Findings.StepReadsPastEnd`); the requirement also
      excludes sources without a final line break that would scan cleanly. */
  method ScanTokens(contents: string) returns (r: Result<seq<Token>, SyntaxError>)
    requires contents == [] || contents[|contents| - 1] == '\n'
    ensures r == Lex(contents)
  {
    var keywords := PopulateKeywords(map[]);
    assert keywords == KeywordTable;
    var lexer := new LexerData(contents, keywords);
    PrependNothing(Lex(contents));
    while !lexer.IsAtEnd()
      invariant lexer.Valid() && lexer.characters == contents
      invariant Lex(contents) == Prepend(lexer.tokens, LexFrom(contents, lexer.current, lexer.lineNumber))
      decreases |contents| - lexer.current
    {
      lexer.start := lexer.current;
      ghost var before, line := lexer.tokens, lexer.lineNumber;
      var res, step := lexer.ScanToken();
      if res.Err? {
        return Err(res.error);
      }
      match step
      case Skip(_, _) =>
      case Emit(t, _) => PrependConcat(before, [t], LexFrom(contents, lexer.current, lexer.lineNumber));
    }
    lexer.tokens := lexer.tokens + [Token(Eof, [], NoValue, lexer.lineNumber)];
    return Ok(lexer.tokens);
  }

  /** Prepending nothing changes nothing. */
  lemma PrependNothing(r: Result<seq<Token>, SyntaxError>)
    ensures Prepend([], r) == r
  {
    if r.Ok? {
      assert [] + r.value == r.value;
    }
  }

  /** Prepending in two steps is prepending once. */
  lemma PrependConcat(ts: seq<Token>, us: seq<Token>, r: Result<seq<Token>, SyntaxError>)
    ensures Prepend(ts, Prepend(us, r)) == Prepend(ts + us, r)
  {
    if r.Ok? {
      assert ts + (us + r.value) == (ts + us) + r.value;
    }
  }
}
