/** Worked scans of small sources, computed from the reference scanner `ScanSpec.Lex`. */
module LexExamples {
  import opened Results
  import opened Token
  import opened ShrubError
  import opened CharClass
  import opened Keywords
  import opened ScanSpec

  /** `1+2` then a line break: two numbers around `+`, and the sentinel on line 1. */
  lemma LexSum()
    ensures Lex("1+2\n") == Ok([
              Token(Number, "1", Num(1.0), 0), Token(Plus, "+", NoValue, 0),
              Token(Number, "2", Num(2.0), 0), Token(Eof, [], NoValue, 1)])
  {
    var cs := "1+2\n";
    var one, plus, two, eof := Token(Number, "1", Num(1.0), 0), Token(Plus, "+", NoValue, 0),
                               Token(Number, "2", Num(2.0), 0), Token(Eof, [], NoValue, 1);
    assert cs[0..1] == "1" && cs[1..2] == "+" && cs[2..3] == "2";
    StepLayout(cs, 3, 0);
    assert LexFrom(cs, 3, 0) == Ok([eof]);
    StepNumber(cs, 2, 0);
    assert NumberEnd(cs, 3) == 3 && DecimalValue("2") == 2.0;
    assert StepAt(cs, 2, 0) == Emit(two, 3);
    assert [two] + [eof] == [two, eof];
    StepPunctuation(cs, 1, 0);
    assert [plus] + [two, eof] == [plus, two, eof];
    StepNumber(cs, 0, 0);
    assert NumberEnd(cs, 1) == 1 && DecimalValue("1") == 1.0;
    assert StepAt(cs, 0, 0) == Emit(one, 1);
    assert [one] + [plus, two, eof] == [one, plus, two, eof];
  }

  /** `!=` is one two-character token. */
  lemma LexBangEqual()
    ensures Lex("!=\n") == Ok([Token(BangEqual, "!=", NoValue, 0), Token(Eof, [], NoValue, 1)])
  {
    var cs := "!=\n";
    var op, eof := Token(BangEqual, "!=", NoValue, 0), Token(Eof, [], NoValue, 1);
    StepLayout(cs, 2, 0);
    StepOperator(cs, 0, 0);
    assert cs[0..2] == "!=";
    assert StepAt(cs, 0, 0) == Emit(op, 2);
    assert [op] + [eof] == [op, eof];
  }

  /** Maximal munch: `classy` is one identifier, not the keyword `class` and then `y`. */
  lemma LexClassy()
    ensures Lex("classy\n") == Ok([Token(Identifier, "classy", NoValue, 0), Token(Eof, [], NoValue, 1)])
  {
    var cs := "classy\n";
    var word, eof := Token(Identifier, "classy", NoValue, 0), Token(Eof, [], NoValue, 1);
    StepLayout(cs, 6, 0);
    StepWord(cs, 0, 0);
    assert IdentEnd(cs, 1) == 6;
    assert cs[0..6] == "classy";
    assert WordKind("classy") == Identifier;
    assert StepAt(cs, 0, 0) == Emit(word, 6);
    assert [word] + [eof] == [word, eof];
  }

  /** `class` alone is the keyword. */
  lemma LexClass()
    ensures Lex("class\n") == Ok([Token(Class, "class", NoValue, 0), Token(Eof, [], NoValue, 1)])
  {
    var cs := "class\n";
    var word, eof := Token(Class, "class", NoValue, 0), Token(Eof, [], NoValue, 1);
    StepLayout(cs, 5, 0);
    StepWord(cs, 0, 0);
    assert IdentEnd(cs, 1) == 5;
    assert cs[0..5] == "class";
    assert WordKind("class") == Class;
    assert StepAt(cs, 0, 0) == Emit(word, 5);
    assert [word] + [eof] == [word, eof];
  }

  /** A comment is skipped up to its line break, which is counted. */
  lemma LexComment()
    ensures Lex("// c\n12\n") == Ok([Token(Number, "12", Num(12.0), 1), Token(Eof, [], NoValue, 2)])
  {
    var cs := "// c\n12\n";
    var twelve, eof := Token(Number, "12", Num(12.0), 1), Token(Eof, [], NoValue, 2);
    StepLayout(cs, 7, 1);
    StepNumber(cs, 5, 1);
    assert NumberEnd(cs, 6) == 7 && cs[5..7] == "12";
    assert "12"[..1] == "1" && "1"[..0] == [];
    assert DecimalValue("12") == 12.0;
    assert StepAt(cs, 5, 1) == Emit(twelve, 7);
    assert [twelve] + [eof] == [twelve, eof];
    StepLayout(cs, 4, 0);
    StepSlash(cs, 0, 0);
    assert CommentEnd(cs, 2) == 4;
  }

  /** `3.` is the number 3 and then a `.`: no digit follows the `.`. */
  lemma LexTrailingDot()
    ensures Lex("3.\n") == Ok([Token(Number, "3", Num(3.0), 0), Token(Dot, ".", NoValue, 0), Token(Eof, [], NoValue, 1)])
  {
    var cs := "3.\n";
    var three, dot, eof := Token(Number, "3", Num(3.0), 0), Token(Dot, ".", NoValue, 0), Token(Eof, [], NoValue, 1);
    StepLayout(cs, 2, 0);
    StepPunctuation(cs, 1, 0);
    assert cs[1..2] == ".";
    assert [dot] + [eof] == [dot, eof];
    StepNumber(cs, 0, 0);
    assert NumberEnd(cs, 1) == 1 && cs[0..1] == "3" && DecimalValue("3") == 3.0;
    assert StepAt(cs, 0, 0) == Emit(three, 1);
    assert [three] + [dot, eof] == [three, dot, eof];
  }

  /** `3.14` is one number with a fraction. */
  lemma LexFraction()
    ensures Lex("3.14\n") == Ok([Token(Number, "3.14", Num(3.14), 0), Token(Eof, [], NoValue, 1)])
  {
    var cs := "3.14\n";
    var number, eof := Token(Number, "3.14", Num(3.14), 0), Token(Eof, [], NoValue, 1);
    FractionStep();
    StepLayout(cs, 4, 0);
    assert [number] + [eof] == [number, eof];
  }

  /** The first step over `3.14`: the whole literal, fraction included. */
  lemma FractionStep()
    ensures StepAt("3.14\n", 0, 0) == Emit(Token(Number, "3.14", Num(3.14), 0), 4)
  {
    var cs := "3.14\n";
    FractionEnd();
    assert cs[0..4] == "3.14";
    ValueOfPi();
    StepNumber(cs, 0, 0);
  }

  /** The number loop over `3.14` stops at the line break, after the fraction. */
  lemma FractionEnd()
    ensures NumberEnd("3.14\n", 1) == 4
  {
    var cs := "3.14\n";
    assert DigitsEnd(cs, 4) == 4;
    assert DigitsEnd(cs, 2) == 4;
    assert DigitsEnd(cs, 1) == 1;
  }

  /** The value of the lexeme `3.14`: whole part 3, fraction digits `14`. */
  lemma ValueOfPi()
    ensures IsNumberText("3.14") && DecimalValue("3.14") == 3.14
  {
    var s := "3.14";
    assert s[1] == '.' && IsDigits(s[..1]) && IsDigits(s[2..]);
    assert DotIndex(s) == 1 && s[..1] == "3" && s[2..] == "14";
    assert "14"[1..] == "4" && "4"[1..] == [];
    assert FractionValue("14") == 0.14;
  }

  /** A string literal may hold a line break; it stays in the lexeme and is not counted. */
  lemma LexMultilineString()
    ensures Lex("\"a\nb\"\n") == Ok([Token(String, "\"a\nb\"", Text("a\nb"), 0), Token(Eof, [], NoValue, 1)])
  {
    var cs := "\"a\nb\"\n";
    var text, eof := Token(String, "\"a\nb\"", Text("a\nb"), 0), Token(Eof, [], NoValue, 1);
    StepLayout(cs, 5, 0);
    StepString(cs, 0, 0);
    assert StringEnd(cs, 1) == 4 && cs[0..5] == "\"a\nb\"" && cs[1..4] == "a\nb";
    assert StepAt(cs, 0, 0) == Emit(text, 5);
    assert [text] + [eof] == [text, eof];
  }

  /** A string with no closing `"` is an error on its line. */
  lemma LexUnterminated()
    ensures Lex("\n\"abc\n") == Err(SyntaxError(UnterminatedString, 1))
  {
    var cs := "\n\"abc\n";
    StepLayout(cs, 0, 0);
    StepString(cs, 1, 1);
    assert StringEnd(cs, 2) == |cs|;
  }

  /** A character that starts no lexeme stops the scan, even with tokens before it. */
  lemma LexUnexpected()
    ensures Lex("a @\n") == Err(SyntaxError(UnexpectedCharacter, 0))
  {
    var cs := "a @\n";
    StepUnexpected(cs, 2, 0);
    StepLayout(cs, 1, 0);
    StepWord(cs, 0, 0);
  }
}
