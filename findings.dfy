/** Lookahead past the end of the source. In lexer.rs `peek` and `peek_next` index the
    characters without a bounds check, and the comment, identifier and number loops stop only
    on a character that is not theirs; when the run reaches the end of the source they read
    one position beyond it. The reference scanner `ScanSpec.Lex` reads the end as a stop
    instead, and `Lexer.ScanTokens` is proved equal to it on sources that end in a line break,
    where the two agree. */
module Findings {
  import opened Results
  import opened Token
  import opened ShrubError
  import opened CharClass
  import opened Keywords
  import opened ScanSpec

  /** As written: the step at `i` reads a position at or beyond the end of `cs` — a comment that
      runs to the end, a number whose digits run to the end, a number ending in `.` at the very
      end (`peek_next`), a fraction that runs to the end, or an identifier that runs to the end. */
  predicate StepReadsPastEnd(cs: string, i: nat)
    requires i < |cs|
  {
    var c := cs[i];
    if c == '/' then i + 1 < |cs| && cs[i + 1] == '/' && CommentEnd(cs, i + 2) == |cs|
    else if IsNumber(c) then
      var d := DigitsEnd(cs, i + 1);
      || d == |cs|
      || (cs[d] == '.' && (d + 1 == |cs| || (IsNumber(cs[d + 1]) && DigitsEnd(cs, d + 1) == |cs|)))
    else if IsAlpha(c) then IdentEnd(cs, i + 1) == |cs|
    else false
  }

  /** The file `1+2` with no final line break: the scan reaches the `2` at position 2, and the
      digit loop there reads position 3, past the end. */
  lemma SumReadsPastEnd()
    ensures StepAt("1+2", 0, 0).Emit? && StepAt("1+2", 0, 0).next == 1
    ensures StepAt("1+2", 1, 0).Emit? && StepAt("1+2", 1, 0).next == 2
    ensures StepReadsPastEnd("1+2", 2)
  {
    var cs := "1+2";
    StepNumber(cs, 0, 0);
    assert DigitsEnd(cs, 1) == 1 && NumberEnd(cs, 1) == 1;
    StepPunctuation(cs, 1, 0);
    assert DigitsEnd(cs, 3) == 3;
  }

  /** A source that ends in a line break never makes a step read past its end: every loop stops
      at that line break at the latest. */
  lemma NewlineEndIsSafe(cs: string, i: nat)
    requires i < |cs| && cs[|cs| - 1] == '\n'
    ensures !StepReadsPastEnd(cs, i)
  {
    var last := |cs| - 1;
    ClassesAreDisjoint(cs[last]);
    var c := cs[i];
    if c == '/' && i + 1 < |cs| && cs[i + 1] == '/' {
      CommentEndRun(cs, i + 2);
    } else if IsNumber(c) {
      var d := DigitsEnd(cs, i + 1);
      DigitsEndRun(cs, i + 1);
      if i < last {
        assert d != |cs| by { assert !IsNumber(cs[last]); }
      }
      if d < |cs| && cs[d] == '.' && d + 1 < |cs| && IsNumber(cs[d + 1]) {
        DigitsEndRun(cs, d + 1);
      }
    } else if IsAlpha(c) {
      IdentEndRun(cs, i + 1);
    }
  }

  /** Corrected: the reference scanner stops at the end instead, and `1+2` scans to its two
      numbers and `+`, with the sentinel on line 0. */
  lemma LexSumWithoutNewline()
    ensures Lex("1+2") == Ok([
              Token(Number, "1", Num(1.0), 0), Token(Plus, "+", NoValue, 0),
              Token(Number, "2", Num(2.0), 0), Token(Eof, [], NoValue, 0)])
  {
    var cs := "1+2";
    var one, plus, two, eof := Token(Number, "1", Num(1.0), 0), Token(Plus, "+", NoValue, 0),
                               Token(Number, "2", Num(2.0), 0), Token(Eof, [], NoValue, 0);
    assert cs[0..1] == "1" && cs[1..2] == "+" && cs[2..3] == "2";
    StepNumber(cs, 2, 0);
    assert NumberEnd(cs, 3) == 3 && DecimalValue("2") == 2.0;
    assert StepAt(cs, 2, 0) == Emit(two, 3);
    assert [two] + [eof] == [two, eof];
    StepPunctuation(cs, 1, 0);
    assert [plus] + [two, eof] == [plus, two, eof];
    StepNumber(cs, 0, 0);
    assert NumberEnd(cs, 1) == 1 && DecimalValue("1") == 1.0;
    assert StepAt(cs, 0, 0) == Emit(one, 1);
    assert [one] + [plus, two, eof] == [one, plus, two, eof];
  }
}
