/** What one call of `scan_token` produces for each kind of lexeme, proved about the
    reference step `ScanSpec.StepAt`: words and reserved words, number literals, string
    literals, comments, and the unexpected-character error. */
module StepProperties {
  import opened Results
  import opened Token
  import opened ShrubError
  import opened CharClass
  import opened Keywords
  import opened ScanSpec

  /** A letter or `_` starts the longest run of letters, digits and `_` (maximal munch), and that
      word is a reserved word exactly when the keyword table holds it, with the table's kind. */
  lemma WordToken(cs: string, i: nat, line: nat)
    requires i < |cs| && IsAlpha(cs[i])
    ensures var st := StepAt(cs, i, line);
            && st.Emit?
            && st.token.lexeme == cs[i..st.next]
            && IsWord(st.token.lexeme)
            && (st.next == |cs| || !IsAlphanumeric(cs[st.next]))
            && (st.token.kind == Identifier <==> st.token.lexeme !in KeywordTable)
            && (st.token.lexeme in KeywordTable ==> st.token.kind == KeywordTable[st.token.lexeme])
            && st.token.value == NoValue && st.token.line == line
  {
    var e := IdentEnd(cs, i + 1);
    var w := cs[i..e];
    StepWord(cs, i, line);
    IdentEndRun(cs, i + 1);
    assert forall k | 0 <= k < |w| :: w[k] == cs[i + k];
    KeywordTableLookup(w);
    WordKindIsKeywordIff(w);
  }

  /** A digit starts the longest number literal: its digits, then `.` and more digits only when a
      digit follows the `.`; the value is the decimal value of the lexeme. When the literal has
      no fraction and a `.` follows, no digit follows that `.` (so `3.` is a number, then `.`). */
  lemma NumberToken(cs: string, i: nat, line: nat)
    requires i < |cs| && IsNumber(cs[i])
    ensures var st := StepAt(cs, i, line);
            && st.Emit?
            && st.token.kind == Number
            && st.token.lexeme == cs[i..st.next]
            && IsNumberText(st.token.lexeme)
            && st.token.value == Num(DecimalValue(st.token.lexeme))
            && st.token.line == line
            && (st.next == |cs| || !IsNumber(cs[st.next]))
            && (IsDigits(st.token.lexeme) && st.next < |cs| && cs[st.next] == '.' ==>
                  st.next + 1 == |cs| || !IsNumber(cs[st.next + 1]))
  {
    var d := DigitsEnd(cs, i + 1);
    var e := NumberEnd(cs, i + 1);
    StepNumber(cs, i, line);
    if e != d {
      assert cs[i..e][d - i] == '.';
    }
  }

  /** A `"` starts a string literal that runs to the next `"`: the lexeme keeps both quotes, the
      value is the text between them, which holds no `"`. With no `"` after the opening one the
      scan stops with the unterminated-string error, and only then. */
  lemma StringToken(cs: string, i: nat, line: nat)
    requires i < |cs| && cs[i] == '"'
    ensures var st := StepAt(cs, i, line);
            && (st.Halt? <==> forall k | i < k < |cs| :: cs[k] != '"')
            && (st.Halt? ==> st.error == SyntaxError(UnterminatedString, line))
            && (st.Emit? ==>
                  var lexeme := st.token.lexeme;
                  && st.token.kind == String && st.token.line == line
                  && lexeme == cs[i..st.next] && |lexeme| >= 2
                  && lexeme[0] == '"' && lexeme[|lexeme| - 1] == '"'
                  && st.token.value == Text(lexeme[1..|lexeme| - 1])
                  && (forall k | 0 < k < |lexeme| - 1 :: lexeme[k] != '"'))
  {
    var e := StringEnd(cs, i + 1);
    StepString(cs, i, line);
    StringEndRun(cs, i + 1);
    if e < |cs| {
      QuotedSlice(cs, i, e, cs[i..e + 1]);
    }
  }

  /** The text between the quotes of the lexeme `cs[i..e + 1]` is `cs[i + 1..e]`, so it holds
      no `"` when that stretch of the source holds none. */
  lemma QuotedSlice(cs: string, i: nat, e: nat, lexeme: string)
    requires i < e < |cs| && lexeme == cs[i..e + 1]
    requires forall j | i < j < e :: cs[j] != '"'
    ensures lexeme[1..|lexeme| - 1] == cs[i + 1..e]
    ensures forall k | 0 < k < |lexeme| - 1 :: lexeme[k] != '"'
  {
    forall k | 0 < k < |lexeme| - 1
      ensures lexeme[k] != '"'
    {
      assert lexeme[k] == cs[i + k];
    }
    var inner := lexeme[1..|lexeme| - 1];
    assert |inner| == |cs[i + 1..e]|;
    assert forall m | 0 <= m < |inner| :: inner[m] == lexeme[m + 1] == cs[i + 1..e][m];
  }

  /** `//` starts a comment: everything up to the next line break is skipped, on the same line,
      and the line break itself is left for the next step. */
  lemma CommentSkip(cs: string, i: nat, line: nat)
    requires i + 1 < |cs| && cs[i] == '/' && cs[i + 1] == '/'
    ensures var st := StepAt(cs, i, line);
            && st.Skip? && st.newLine == line
            && (st.next == |cs| || cs[st.next] == '\n')
            && (forall k | i <= k < st.next :: cs[k] != '\n')
  {
    StepSlash(cs, i, line);
    CommentEndRun(cs, i + 2);
  }

  /** A step stops the scan only at a character that starts no lexeme, with the
      unexpected-character error, or at an unterminated string literal; either way the error
      is on the current line. */
  lemma StepHalts(cs: string, i: nat, line: nat)
    requires i < |cs|
    ensures StepAt(cs, i, line) == Halt(SyntaxError(UnexpectedCharacter, line)) <==> !StartsLexeme(cs[i])
    ensures StepAt(cs, i, line).Halt? ==>
              || (!StartsLexeme(cs[i]) && StepAt(cs, i, line).error.message == UnexpectedCharacter)
              || (cs[i] == '"' && StepAt(cs, i, line).error.message == UnterminatedString)
    ensures StepAt(cs, i, line).Halt? ==> StepAt(cs, i, line).error.line == line
  {
    var c := cs[i];
    if SingleCharKind(c).Some? {
      StepPunctuation(cs, i, line);
    } else if OperatorKinds(c).Some? {
      StepOperator(cs, i, line);
    } else if c == '/' {
      StepSlash(cs, i, line);
    } else if IsWhitespace(c) || c == '\n' {
      StepLayout(cs, i, line);
    } else if c == '"' {
      StepString(cs, i, line);
      assert UnterminatedString != UnexpectedCharacter by {
        assert |UnterminatedString| != |UnexpectedCharacter|;
      }
    } else if IsNumber(c) {
      StepNumber(cs, i, line);
    } else if IsAlpha(c) {
      StepWord(cs, i, line);
    } else {
      StepUnexpected(cs, i, line);
    }
  }
}
