/** A reference definition of what lexer.rs computes, as functions over the source text.
    `StepAt` is one iteration of the `scan_tokens` loop (one call of `scan_token`), `LexFrom`
    the rest of the loop, and `Lex` the whole of `scan_tokens`. Lookahead here is bounds-checked,
    so `Lex` is defined on every source; `Lexer.ScanTokens` is proved to compute it. */
module ScanSpec {
  import opened Results
  import opened Token
  import opened ShrubError
  import opened CharClass
  import opened Keywords

  // ---------------------------------------------------------------- runs of characters

  /** Where the identifier loop stops: the first position at or after `i` that is not
      alphanumeric, or the end. */
  function IdentEnd(cs: string, i: nat): (e: nat)
    requires i <= |cs|
    ensures i <= e <= |cs|
    ensures e == |cs| || !IsAlphanumeric(cs[e])
    decreases |cs| - i
  {
    if i < |cs| && IsAlphanumeric(cs[i]) then IdentEnd(cs, i + 1) else i
  }

  /** Where a digit loop of `number` stops. */
  function DigitsEnd(cs: string, i: nat): (e: nat)
    requires i <= |cs|
    ensures i <= e <= |cs|
    ensures e == |cs| || !IsNumber(cs[e])
    decreases |cs| - i
  {
    if i < |cs| && IsNumber(cs[i]) then DigitsEnd(cs, i + 1) else i
  }

  /** Where the comment loop stops: at the next line break, which it does not consume. */
  function CommentEnd(cs: string, i: nat): (e: nat)
    requires i <= |cs|
    ensures i <= e <= |cs|
    ensures e == |cs| || cs[e] == '\n'
    decreases |cs| - i
  {
    if i < |cs| && cs[i] != '\n' then CommentEnd(cs, i + 1) else i
  }

  /** Where the loop of `create_string` stops: at the next `"`, or at the end. */
  function StringEnd(cs: string, i: nat): (e: nat)
    requires i <= |cs|
    ensures i <= e <= |cs|
    ensures e == |cs| || cs[e] == '"'
    decreases |cs| - i
  {
    if i < |cs| && cs[i] != '"' then StringEnd(cs, i + 1) else i
  }

  /** Everything `IdentEnd` passes over is alphanumeric. */
  lemma {:induction false} IdentEndRun(cs: string, i: nat)
    requires i <= |cs|
    ensures forall k | i <= k < IdentEnd(cs, i) :: IsAlphanumeric(cs[k])
    decreases |cs| - i
  {
    if IdentEnd(cs, i) != i {
      IdentEndRun(cs, i + 1);
    }
  }

  /** Everything `DigitsEnd` passes over is digits. */
  lemma {:induction false} DigitsEndRun(cs: string, i: nat)
    requires i <= |cs|
    ensures forall k | i <= k < DigitsEnd(cs, i) :: IsNumber(cs[k])
    decreases |cs| - i
  {
    if DigitsEnd(cs, i) != i {
      DigitsEndRun(cs, i + 1);
    }
  }

  /** Everything `CommentEnd` passes over is free of line breaks. */
  lemma {:induction false} CommentEndRun(cs: string, i: nat)
    requires i <= |cs|
    ensures forall k | i <= k < CommentEnd(cs, i) :: cs[k] != '\n'
    decreases |cs| - i
  {
    if CommentEnd(cs, i) != i {
      CommentEndRun(cs, i + 1);
    }
  }

  /** Everything `StringEnd` passes over is free of `"`. */
  lemma {:induction false} StringEndRun(cs: string, i: nat)
    requires i <= |cs|
    ensures forall k | i <= k < StringEnd(cs, i) :: cs[k] != '"'
    decreases |cs| - i
  {
    if StringEnd(cs, i) != i {
      StringEndRun(cs, i + 1);
    }
  }

  /** Where `number` stops, its first digit already consumed and `i` just after it: the
      digits, then `.` and the fraction digits only when a digit follows the `.`. */
  function NumberEnd(cs: string, i: nat): (e: nat)
    requires i <= |cs|
    ensures i <= e <= |cs|
  {
    var d := DigitsEnd(cs, i);
    if d + 1 < |cs| && cs[d] == '.' && IsNumber(cs[d + 1]) then DigitsEnd(cs, d + 1) else d
  }

  // ---------------------------------------------------------------- number values

  /** The value of one decimal digit. */
  function DigitValue(c: char): (d: nat)
    requires IsNumber(c)
    ensures d <= 9
  {
    c as int - '0' as int
  }

  /** The value of a run of decimal digits. */
  function DigitsValue(s: string): nat
    requires forall k | 0 <= k < |s| :: IsNumber(s[k])
  {
    if s == [] then 0 else DigitsValue(s[..|s| - 1]) * 10 + DigitValue(s[|s| - 1])
  }

  /** The value of the digits after a decimal point: `FractionValue("14") == 0.14`. */
  function FractionValue(s: string): (r: real)
    requires forall k | 0 <= k < |s| :: IsNumber(s[k])
    ensures 0.0 <= r < 1.0
  {
    if s == [] then 0.0 else (DigitValue(s[0]) as real + FractionValue(s[1..])) / 10.0
  }

  /** The position of the first `.`, or the length when there is none. */
  function DotIndex(s: string): (p: nat)
    ensures p <= |s|
    ensures forall k | 0 <= k < p :: s[k] != '.'
    ensures p < |s| ==> s[p] == '.'
  {
    if s == [] then 0 else if s[0] == '.' then 0 else 1 + DotIndex(s[1..])
  }

  /** The exact value of a number lexeme (the source parses it as an `f64`). */
  function DecimalValue(s: string): real
    requires IsNumberText(s)
  {
    var p := DotIndex(s);
    if p == |s| then DigitsValue(s) as real
    else
      assert IsDigits(s[..p]) && IsDigits(s[p + 1..]) by { DotOfNumberText(s); }
      DigitsValue(s[..p]) as real + FractionValue(s[p + 1..])
  }

  /** In a number lexeme with a fraction, the first `.` is the one that separates it. */
  lemma DotOfNumberText(s: string)
    requires IsNumberText(s) && DotIndex(s) < |s|
    ensures IsDigits(s[..DotIndex(s)]) && IsDigits(s[DotIndex(s) + 1..])
  {
    var p := DotIndex(s);
    if !IsDigits(s) {
      var q :| 0 < q < |s| && s[q] == '.' && IsDigits(s[..q]) && IsDigits(s[q + 1..]);
      assert forall k | 0 <= k < q :: s[k] == s[..q][k];
      assert p == q;
    }
  }

  /** A number lexeme's value lies between its whole part and the next integer. */
  lemma DecimalValueBounds(s: string)
    requires IsNumberText(s)
    ensures var w := s[..DotIndex(s)];
            IsDigits(w) && DigitsValue(w) as real <= DecimalValue(s) < DigitsValue(w) as real + 1.0
  {
    if DotIndex(s) < |s| {
      DotOfNumberText(s);
    } else {
      assert s[..DotIndex(s)] == s;
    }
  }

  // ---------------------------------------------------------------- the dispatch

  /** The kinds of the one-character tokens. */
  function SingleCharKind(c: char): Option<TokenKind>
  {
    match c
    case '(' => Some(LBracket)
    case ')' => Some(RBracket)
    case '{' => Some(LBrace)
    case '}' => Some(RBrace)
    case '.' => Some(Dot)
    case ',' => Some(Comma)
    case '+' => Some(Plus)
    case '-' => Some(Minus)
    case '*' => Some(Star)
    case ';' => Some(Semicolon)
    case _ => None
  }

  /** For `!`, `=`, `>` and `<`: the kind alone and the kind when followed by `=`. */
  function OperatorKinds(c: char): Option<(TokenKind, TokenKind)>
  {
    match c
    case '!' => Some((Bang, BangEqual))
    case '=' => Some((Equal, EqualEqual))
    case '>' => Some((Greater, GreaterEqual))
    case '<' => Some((Less, LessEqual))
    case _ => None
  }

  /** The characters `scan_token` accepts as the first character of a lexeme or of layout. */
  predicate StartsLexeme(c: char) {
    SingleCharKind(c).Some? || OperatorKinds(c).Some? || c == '/' || IsWhitespace(c) || c == '\n'
    || c == '"' || IsNumber(c) || IsAlpha(c)
  }

  /** The outcome of one `scan_token` call: layout skipped (new position and line),
      a token emitted (and the new position), or a syntax error. */
  datatype Step = Skip(next: nat, newLine: nat) | Emit(token: Token, next: nat) | Halt(error: SyntaxError)

  /** One call of `scan_token` at position `i` on line `line`. */
  function StepAt(cs: string, i: nat, line: nat): (st: Step)
    requires i < |cs|
    ensures st.Skip? ==> i < st.next <= |cs|
    ensures st.Emit? ==> i < st.next <= |cs|
  {
    var c := cs[i];
    if SingleCharKind(c).Some? then Emit(Token(SingleCharKind(c).value, cs[i..i + 1], NoValue, line), i + 1)
    else if OperatorKinds(c).Some? then OperatorStep(cs, i, line)
    else if c == '/' then SlashStep(cs, i, line)
    else if IsWhitespace(c) then Skip(i + 1, line)
    else if c == '\n' then Skip(i + 1, line + 1)
    else if c == '"' then StringStep(cs, i, line)
    else if IsNumber(c) then NumberStep(cs, i, line)
    else if IsAlpha(c) then WordStep(cs, i, line)
    else Halt(SyntaxError(UnexpectedCharacter, line))
  }

  /** An operator character: the two-character form when `=` follows, else the one-character form. */
  function OperatorStep(cs: string, i: nat, line: nat): (st: Step)
    requires i < |cs| && OperatorKinds(cs[i]).Some?
    ensures st.Emit? && i < st.next <= i + 2 && st.next <= |cs|
    ensures st.token.lexeme == cs[i..st.next]
  {
    if i + 1 < |cs| && cs[i + 1] == '=' then
      Emit(Token(OperatorKinds(cs[i]).value.1, cs[i..i + 2], NoValue, line), i + 2)
    else
      Emit(Token(OperatorKinds(cs[i]).value.0, cs[i..i + 1], NoValue, line), i + 1)
  }

  /** A `/`: a comment up to the line break when another `/` follows, else a `Slash` token. */
  function SlashStep(cs: string, i: nat, line: nat): (st: Step)
    requires i < |cs| && cs[i] == '/'
    ensures (st.Skip? || st.Emit?) && i < st.next <= |cs|
  {
    if i + 1 < |cs| && cs[i + 1] == '/' then Skip(CommentEnd(cs, i + 2), line)
    else Emit(Token(Slash, cs[i..i + 1], NoValue, line), i + 1)
  }

  /** A `"`: the string literal up to the closing `"`, or the unterminated-string error. */
  function StringStep(cs: string, i: nat, line: nat): (st: Step)
    requires i < |cs| && cs[i] == '"'
    ensures !st.Skip? && (st.Emit? ==> i < st.next <= |cs|)
    ensures st.Emit? ==> st.token.kind == String && st.token.lexeme == cs[i..st.next]
  {
    var e := StringEnd(cs, i + 1);
    if e == |cs| then Halt(SyntaxError(UnterminatedString, line))
    else Emit(Token(String, cs[i..e + 1], Text(cs[i + 1..e]), line), e + 1)
  }

  /** A digit: the longest number literal, with its decimal value. */
  function NumberStep(cs: string, i: nat, line: nat): (st: Step)
    requires i < |cs| && IsNumber(cs[i])
    ensures st.Emit? && i < st.next <= |cs|
  {
    var e := NumberEnd(cs, i + 1);
    assert IsNumberText(cs[i..e]) by { NumberEndIsNumberText(cs, i); }
    Emit(Token(Number, cs[i..e], Num(DecimalValue(cs[i..e])), line), e)
  }

  /** A letter or `_`: the longest word, a keyword when it is spelled like one. */
  function WordStep(cs: string, i: nat, line: nat): (st: Step)
    requires i < |cs| && IsAlpha(cs[i])
    ensures st.Emit? && i < st.next <= |cs|
  {
    var e := IdentEnd(cs, i + 1);
    Emit(Token(WordKind(cs[i..e]), cs[i..e], NoValue, line), e)
  }

  // The lemmas below unfold `StepAt` for one arm each, so that callers need not reason
  // about the whole dispatch; the properties that the arms have are in StepProperties.

  /** Unfolds `StepAt` for layout: blanks are skipped; a line break is skipped and counted. */
  lemma StepLayout(cs: string, i: nat, line: nat)
    requires i < |cs| && (IsWhitespace(cs[i]) || cs[i] == '\n')
    ensures StepAt(cs, i, line) == Skip(i + 1, if cs[i] == '\n' then line + 1 else line)
  {
  }

  /** Unfolds `StepAt` for a character that starts no lexeme: an error on the current line. */
  lemma StepUnexpected(cs: string, i: nat, line: nat)
    requires i < |cs| && !StartsLexeme(cs[i])
    ensures StepAt(cs, i, line) == Halt(SyntaxError(UnexpectedCharacter, line))
  {
  }

  /** Unfolds `StepAt` for one-character punctuation: its kind, with a one-character lexeme. */
  lemma StepPunctuation(cs: string, i: nat, line: nat)
    requires i < |cs| && SingleCharKind(cs[i]).Some?
    ensures StepAt(cs, i, line) == Emit(Token(SingleCharKind(cs[i]).value, cs[i..i + 1], NoValue, line), i + 1)
  {
  }

  /** Unfolds `StepAt` for `!`, `=`, `>` and `<`: a following `=` is taken into a
      two-character lexeme, and nothing else is. */
  lemma StepOperator(cs: string, i: nat, line: nat)
    requires i < |cs| && OperatorKinds(cs[i]).Some?
    ensures var kinds := OperatorKinds(cs[i]).value;
            StepAt(cs, i, line) ==
              if i + 1 < |cs| && cs[i + 1] == '=' then Emit(Token(kinds.1, cs[i..i + 2], NoValue, line), i + 2)
              else Emit(Token(kinds.0, cs[i..i + 1], NoValue, line), i + 1)
  {
  }

  /** Unfolds `StepAt` for `/`: a comment when another `/` follows, `Slash` otherwise. */
  lemma StepSlash(cs: string, i: nat, line: nat)
    requires i < |cs| && cs[i] == '/'
    ensures StepAt(cs, i, line) ==
              if i + 1 < |cs| && cs[i + 1] == '/' then Skip(CommentEnd(cs, i + 2), line)
              else Emit(Token(Slash, cs[i..i + 1], NoValue, line), i + 1)
  {
  }

  /** Unfolds `StepAt` for `"`: a string literal that ends at the next `"`. */
  lemma StepString(cs: string, i: nat, line: nat)
    requires i < |cs| && cs[i] == '"'
    ensures var e := StringEnd(cs, i + 1);
            StepAt(cs, i, line) ==
              if e == |cs| then Halt(SyntaxError(UnterminatedString, line))
              else Emit(Token(String, cs[i..e + 1], Text(cs[i + 1..e]), line), e + 1)
  {
  }

  /** Unfolds `StepAt` for a digit: a number literal, whose text is a number lexeme. */
  lemma StepNumber(cs: string, i: nat, line: nat)
    requires i < |cs| && IsNumber(cs[i])
    ensures var e := NumberEnd(cs, i + 1);
            IsNumberText(cs[i..e]) &&
            StepAt(cs, i, line) == Emit(Token(Number, cs[i..e], Num(DecimalValue(cs[i..e])), line), e)
  {
    NumberEndIsNumberText(cs, i);
  }

  /** Unfolds `StepAt` for a letter or `_`: a word. */
  lemma StepWord(cs: string, i: nat, line: nat)
    requires i < |cs| && IsAlpha(cs[i])
    ensures var e := IdentEnd(cs, i + 1);
            StepAt(cs, i, line) == Emit(Token(WordKind(cs[i..e]), cs[i..e], NoValue, line), e)
  {
  }

  /** The text `number` consumes is a number lexeme. */
  lemma NumberEndIsNumberText(cs: string, i: nat)
    requires i < |cs| && IsNumber(cs[i])
    ensures IsNumberText(cs[i..NumberEnd(cs, i + 1)])
  {
    var d := DigitsEnd(cs, i + 1);
    var e := NumberEnd(cs, i + 1);
    DigitsEndRun(cs, i + 1);
    assert IsDigits(cs[i..d]);
    if e != d {
      var p := d - i;
      assert cs[i..e][..p] == cs[i..d];
      assert cs[i..e][p + 1..] == cs[d + 1..e];
      assert cs[i..e][p] == '.';
      DigitsEndRun(cs, d + 1);
      assert IsDigits(cs[d + 1..e]);
    }
  }

  /** The token list that `scan_tokens` returns once `i` characters are consumed, on line `line`:
      the rest of the loop, then the `EOF` sentinel. */
  function LexFrom(cs: string, i: nat, line: nat): Result<seq<Token>, SyntaxError>
    requires i <= |cs|
    decreases |cs| - i
  {
    if i == |cs| then Ok([Token(Eof, [], NoValue, line)])
    else
      match StepAt(cs, i, line)
      case Skip(n, l) => LexFrom(cs, n, l)
      case Emit(t, n) => Prepend([t], LexFrom(cs, n, line))
      case Halt(e) => Err(e)
  }

  /** `scan_tokens`: the whole source from position 0 on line 0. */
  function Lex(cs: string): Result<seq<Token>, SyntaxError>
  {
    LexFrom(cs, 0, 0)
  }

  /** Tokens already emitted, in front of the outcome of the rest of the scan. */
  function Prepend(ts: seq<Token>, r: Result<seq<Token>, SyntaxError>): Result<seq<Token>, SyntaxError>
  {
    match r
    case Ok(rest) => Ok(ts + rest)
    case Err(e) => Err(e)
  }
}
