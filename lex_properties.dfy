/** What the scan of lexer.rs guarantees, proved about the reference scanner `ScanSpec.Lex`
    (which `Lexer.ScanTokens` computes): the shape of every single step, the `EOF` sentinel,
    lexemes as ordered slices of the source, line numbers, and the error cases. */
module LexProperties {
  import opened Results
  import opened Token
  import opened ShrubError
  import opened CharClass
  import opened Keywords
  import opened ScanSpec
  import opened StepProperties

  // ---------------------------------------------------------------- counting line breaks

  /** The number of line breaks in `s`. */
  function NewlineCount(s: string): nat
  {
    if s == [] then 0 else (if s[0] == '\n' then 1 else 0) + NewlineCount(s[1..])
  }

  /** Line breaks in the lexemes of the string tokens of `ts` (a string may span lines). */
  function StringNewlines(ts: seq<Token>): nat
  {
    if ts == [] then 0
    else (if ts[0].kind == String then NewlineCount(ts[0].lexeme) else 0) + StringNewlines(ts[1..])
  }

  /** Counting is additive over concatenation. */
  lemma {:induction false} NewlineCountAppend(a: string, b: string)
    ensures NewlineCount(a + b) == NewlineCount(a) + NewlineCount(b)
  {
    if a == [] {
      assert a + b == b;
    } else {
      assert (a + b)[0] == a[0] && (a + b)[1..] == a[1..] + b;
      NewlineCountAppend(a[1..], b);
    }
  }

  /** A slice of the source splits into two at any point in between. */
  lemma NewlineCountSplit(cs: string, i: nat, j: nat, k: nat)
    requires i <= j <= k <= |cs|
    ensures NewlineCount(cs[i..k]) == NewlineCount(cs[i..j]) + NewlineCount(cs[j..k])
  {
    assert cs[i..k] == cs[i..j] + cs[j..k];
    NewlineCountAppend(cs[i..j], cs[j..k]);
  }

  /** Text without a line break counts none. */
  lemma {:induction false} NoNewlineCount(s: string)
    requires forall k | 0 <= k < |s| :: s[k] != '\n'
    ensures NewlineCount(s) == 0
  {
    if s != [] {
      NoNewlineCount(s[1..]);
    }
  }

  /** Counting string-token line breaks is additive over concatenation. */
  lemma {:induction false} StringNewlinesAppend(ts: seq<Token>, us: seq<Token>)
    ensures StringNewlines(ts + us) == StringNewlines(ts) + StringNewlines(us)
  {
    if ts == [] {
      assert ts + us == us;
    } else {
      assert (ts + us)[0] == ts[0] && (ts + us)[1..] == ts[1..] + us;
      StringNewlinesAppend(ts[1..], us);
    }
  }

  // ---------------------------------------------------------------- one step

  /** Every token a step emits is the source text it consumed, on the current line; it is never
      `EOF`; and only a string literal can contain a line break. */
  lemma EmitShape(cs: string, i: nat, line: nat)
    requires i < |cs|
    ensures var st := StepAt(cs, i, line);
            st.Emit? ==>
            && st.token.lexeme == cs[i..st.next] && st.token.line == line
            && st.token.kind != Eof
            && (st.token.kind != String ==> forall k | 0 <= k < |st.token.lexeme| :: st.token.lexeme[k] != '\n')
  {
    var c := cs[i];
    if SingleCharKind(c).Some? {
      StepPunctuation(cs, i, line);
    } else if OperatorKinds(c).Some? {
      StepOperator(cs, i, line);
    } else if c == '/' {
      StepSlash(cs, i, line);
    } else if IsWhitespace(c) || c == '\n' {
      StepLayout(cs, i, line);
    } else if c == '"' {
      StepString(cs, i, line);
    } else if IsNumber(c) {
      StepNumber(cs, i, line);
      NumberTextHasNoNewline(cs[i..NumberEnd(cs, i + 1)]);
    } else if IsAlpha(c) {
      StepWord(cs, i, line);
      WordHasNoNewline(cs, i);
    } else {
      StepUnexpected(cs, i, line);
    }
  }

  /** A word is alphanumeric, so it has no line break, and it is never `EOF`. */
  lemma WordHasNoNewline(cs: string, i: nat)
    requires i < |cs| && IsAlpha(cs[i])
    ensures var w := cs[i..IdentEnd(cs, i + 1)];
            (forall k | 0 <= k < |w| :: w[k] != '\n') && WordKind(w) != Eof
  {
    var e := IdentEnd(cs, i + 1);
    IdentEndRun(cs, i + 1);
    WordKindIsKeywordIff(cs[i..e]);
    forall k | i <= k < e
      ensures cs[k] != '\n'
    {
      ClassesAreDisjoint(cs[k]);
    }
  }

  /** A number lexeme is made of digits and `.`, so it has no line break. */
  lemma NumberTextHasNoNewline(s: string)
    requires IsNumberText(s)
    ensures forall k | 0 <= k < |s| :: s[k] != '\n'
  {
    if !IsDigits(s) {
      var p :| 0 < p < |s| && s[p] == '.' && IsDigits(s[..p]) && IsDigits(s[p + 1..]);
      forall k | 0 <= k < |s|
        ensures s[k] != '\n'
      {
        if k < p {
          assert s[k] == s[..p][k];
        } else if k > p {
          assert s[k] == s[p + 1..][k - p - 1];
        }
      }
    }
  }

  /** What a skipping step passes over: its line breaks are exactly those it counts. */
  lemma SkipLines(cs: string, i: nat, line: nat)
    requires i < |cs|
    ensures var st := StepAt(cs, i, line);
            st.Skip? ==> st.newLine == line + NewlineCount(cs[i..st.next])
  {
    var st := StepAt(cs, i, line);
    if st.Skip? {
      if cs[i] == '/' {
        CommentEndRun(cs, i + 2);
        NoNewlineCount(cs[i..st.next]);
      } else {
        assert cs[i..i + 1] == [cs[i]];
      }
    }
  }

  // ---------------------------------------------------------------- the whole scan

  /** On success the list ends in exactly one `EOF` sentinel, with an empty lexeme and no value. */
  lemma {:induction false} LexFromSentinel(cs: string, i: nat, line: nat)
    requires i <= |cs|
    ensures LexFrom(cs, i, line).Ok? ==> SentinelLast(LexFrom(cs, i, line).value)
    decreases |cs| - i
  {
    if i < |cs| {
      EmitShape(cs, i, line);
      match StepAt(cs, i, line)
      case Skip(n, l) => LexFromSentinel(cs, n, l);
      case Emit(t, n) =>
        LexFromSentinel(cs, n, line);
        if LexFrom(cs, n, line).Ok? {
          SentinelCons(t, LexFrom(cs, n, line).value);
        }
      case Halt(_) =>
    }
  }

  /** A list that ends in the lone `EOF` sentinel. */
  ghost predicate SentinelLast(ts: seq<Token>)
  {
    && |ts| > 0
    && ts[|ts| - 1] == Token(Eof, [], NoValue, ts[|ts| - 1].line)
    && (forall k | 0 <= k < |ts| - 1 :: ts[k].kind != Eof)
  }

  /** Putting a token other than `EOF` in front keeps the sentinel last and alone. */
  lemma SentinelCons(t: Token, rest: seq<Token>)
    requires t.kind != Eof && SentinelLast(rest)
    ensures SentinelLast([t] + rest)
  {
    var ts := [t] + rest;
    assert forall k | 1 <= k < |ts| :: ts[k] == rest[k - 1];
  }

  /** The line breaks a step consumes are the ones it counts, except those inside a string
      literal, which stay in its lexeme. */
  lemma StepNewlines(cs: string, i: nat, line: nat)
    requires i < |cs|
    ensures match StepAt(cs, i, line)
            case Skip(n, l) => l == line + NewlineCount(cs[i..n])
            case Emit(t, n) => NewlineCount(cs[i..n]) == StringNewlines([t])
            case Halt(_) => true
  {
    EmitShape(cs, i, line);
    SkipLines(cs, i, line);
    var st := StepAt(cs, i, line);
    if st.Emit? {
      assert [st.token][1..] == [];
      if st.token.kind != String {
        NoNewlineCount(st.token.lexeme);
      }
    }
  }

  // ---------------------------------------------------------------- lexemes as slices of the source

  /** Where each token of `LexFrom(cs, i, line)` starts: the position of its first character, and
      the end of the source for the `EOF` sentinel. */
  ghost function Starts(cs: string, i: nat, line: nat): seq<nat>
    requires i <= |cs|
    decreases |cs| - i
  {
    if i == |cs| then [|cs|]
    else
      match StepAt(cs, i, line)
      case Skip(n, l) => Starts(cs, n, l)
      case Emit(_, n) => [i] + Starts(cs, n, line)
      case Halt(_) => []
  }

  /** Token `k` of `ts` is the text of `cs` at `ps[k]` (not before `from`), the tokens follow one
      another without overlap, every token but the sentinel is non-empty, and the sentinel sits
      at the end of the source. */
  ghost predicate SourceSlices(cs: string, from: nat, ts: seq<Token>, ps: seq<nat>)
  {
    && |ps| == |ts| > 0
    && ps[|ps| - 1] == |cs|
    && (forall k | 0 <= k < |ts| ::
          from <= ps[k] && ps[k] + |ts[k].lexeme| <= |cs| && ts[k].lexeme == cs[ps[k]..ps[k] + |ts[k].lexeme|])
    && (forall k | 0 <= k < |ts| - 1 :: ts[k].lexeme != [] && ps[k] + |ts[k].lexeme| <= ps[k + 1])
  }

  /** Each token's line is the starting line plus the line breaks between `from` and the token,
      less those inside earlier string literals. */
  ghost predicate TokenLines(cs: string, from: nat, line: nat, ts: seq<Token>, ps: seq<nat>)
    requires SourceSlices(cs, from, ts, ps)
  {
    forall k | 0 <= k < |ts| :: ts[k].line + StringNewlines(ts[..k]) == line + NewlineCount(cs[from..ps[k]])
  }

  /** On success the tokens are the successive slices of the source at `Starts`, each on the
      line its position implies. */
  lemma {:induction false} LexFromLayout(cs: string, i: nat, line: nat)
    requires i <= |cs|
    ensures LexFrom(cs, i, line).Ok? ==>
              && SourceSlices(cs, i, LexFrom(cs, i, line).value, Starts(cs, i, line))
              && TokenLines(cs, i, line, LexFrom(cs, i, line).value, Starts(cs, i, line))
    decreases |cs| - i
  {
    if i == |cs| {
      LayoutAtEnd(cs, line);
    } else {
      EmitShape(cs, i, line);
      StepNewlines(cs, i, line);
      match StepAt(cs, i, line)
      case Skip(n, l) =>
        LexFromLayout(cs, n, l);
        if LexFrom(cs, n, l).Ok? {
          LayoutSkip(cs, i, n, line, l, LexFrom(cs, n, l).value, Starts(cs, n, l));
        }
      case Emit(t, n) =>
        LexFromLayout(cs, n, line);
        if LexFrom(cs, n, line).Ok? {
          LayoutEmit(cs, i, n, line, t, LexFrom(cs, n, line).value, Starts(cs, n, line));
        }
      case Halt(_) =>
    }
  }

  /** At the end of the source the scan is the sentinel alone, at the end, on the current line. */
  lemma LayoutAtEnd(cs: string, line: nat)
    ensures SourceSlices(cs, |cs|, [Token(Eof, [], NoValue, line)], [|cs|])
    ensures TokenLines(cs, |cs|, line, [Token(Eof, [], NoValue, line)], [|cs|])
  {
    var ts := [Token(Eof, [], NoValue, line)];
    assert cs[|cs|..|cs|] == [];
    assert ts[..0] == [];
  }

  /** Skipping layout from `i` to `n` keeps the slices, and the lines once the skipped line
      breaks are counted. */
  lemma LayoutSkip(cs: string, i: nat, n: nat, line: nat, l: nat, ts: seq<Token>, ps: seq<nat>)
    requires i <= n <= |cs| && l == line + NewlineCount(cs[i..n])
    requires SourceSlices(cs, n, ts, ps) && TokenLines(cs, n, l, ts, ps)
    ensures SourceSlices(cs, i, ts, ps) && TokenLines(cs, i, line, ts, ps)
  {
    forall k | 0 <= k < |ts|
      ensures ts[k].line + StringNewlines(ts[..k]) == line + NewlineCount(cs[i..ps[k]])
    {
      NewlineCountSplit(cs, i, n, ps[k]);
    }
  }

  /** Emitting the text from `i` to `n` as `t` keeps the slices and the lines. */
  lemma LayoutEmit(cs: string, i: nat, n: nat, line: nat, t: Token, rest: seq<Token>, ps: seq<nat>)
    requires i < n <= |cs| && t.lexeme == cs[i..n] && t.line == line
    requires NewlineCount(cs[i..n]) == StringNewlines([t])
    requires SourceSlices(cs, n, rest, ps) && TokenLines(cs, n, line, rest, ps)
    ensures SourceSlices(cs, i, [t] + rest, [i] + ps) && TokenLines(cs, i, line, [t] + rest, [i] + ps)
  {
    SlicesEmit(cs, i, n, t, rest, ps);
    var ts, qs := [t] + rest, [i] + ps;
    forall k | 0 <= k < |ts|
      ensures ts[k].line + StringNewlines(ts[..k]) == line + NewlineCount(cs[i..qs[k]])
    {
      if k == 0 {
        assert ts[..0] == [] && cs[i..i] == [];
      } else {
        assert ts[k] == rest[k - 1] && qs[k] == ps[k - 1];
        LineAfterEmit(cs, i, n, line, t, rest, ps, k - 1);
      }
    }
  }

  /** A token in front of the slices from `n` that is the text from `i` to `n`. */
  lemma SlicesEmit(cs: string, i: nat, n: nat, t: Token, rest: seq<Token>, ps: seq<nat>)
    requires i < n <= |cs| && t.lexeme == cs[i..n]
    requires SourceSlices(cs, n, rest, ps)
    ensures SourceSlices(cs, i, [t] + rest, [i] + ps)
  {
    var ts, qs := [t] + rest, [i] + ps;
    assert forall k | 1 <= k < |ts| :: ts[k] == rest[k - 1] && qs[k] == ps[k - 1];
  }

  /** The line of token `k` of `rest`, counted from `n`, is its line counted from `i` once `t`,
      the text between `i` and `n`, is put in front. */
  lemma LineAfterEmit(cs: string, i: nat, n: nat, line: nat, t: Token, rest: seq<Token>, ps: seq<nat>, k: nat)
    requires i <= n <= |cs| && NewlineCount(cs[i..n]) == StringNewlines([t])
    requires k < |rest| == |ps| && n <= ps[k] <= |cs|
    requires rest[k].line + StringNewlines(rest[..k]) == line + NewlineCount(cs[n..ps[k]])
    ensures rest[k].line + StringNewlines(([t] + rest)[..k + 1]) == line + NewlineCount(cs[i..ps[k]])
  {
    assert ([t] + rest)[..k + 1] == [t] + rest[..k];
    StringNewlinesAppend([t], rest[..k]);
    NewlineCountSplit(cs, i, n, ps[k]);
  }

  // ---------------------------------------------------------------- where a scan fails

  /** The position of the step that stops the scan from `i`, or the end of the source when none
      does. */
  ghost function HaltPos(cs: string, i: nat, line: nat): nat
    requires i <= |cs|
    decreases |cs| - i
  {
    if i == |cs| then |cs|
    else
      match StepAt(cs, i, line)
      case Skip(n, l) => HaltPos(cs, n, l)
      case Emit(_, n) => HaltPos(cs, n, line)
      case Halt(_) => i
  }

  /** The tokens emitted from `i` before the scan stops (all of them when it does not). */
  ghost function Emitted(cs: string, i: nat, line: nat): seq<Token>
    requires i <= |cs|
    decreases |cs| - i
  {
    if i == |cs| then []
    else
      match StepAt(cs, i, line)
      case Skip(n, l) => Emitted(cs, n, l)
      case Emit(t, n) => [t] + Emitted(cs, n, line)
      case Halt(_) => []
  }

  /** A failed scan fails at the step at `HaltPos`, on that step's line: the starting line plus
      the line breaks before it, less those inside the string literals emitted before it. */
  lemma {:induction false} LexFromHalt(cs: string, i: nat, line: nat)
    requires i <= |cs|
    ensures LexFrom(cs, i, line).Err? ==>
              var e, k := LexFrom(cs, i, line).error, HaltPos(cs, i, line);
              && i <= k < |cs|
              && StepAt(cs, k, e.line) == Halt(e)
              && e.line + StringNewlines(Emitted(cs, i, line)) == line + NewlineCount(cs[i..k])
    decreases |cs| - i
  {
    if i < |cs| {
      StepNewlines(cs, i, line);
      match StepAt(cs, i, line)
      case Skip(n, l) =>
        LexFromHalt(cs, n, l);
        if LexFrom(cs, n, l).Err? {
          HaltSkip(cs, i, n, HaltPos(cs, n, l), line, l, LexFrom(cs, n, l).error.line, Emitted(cs, n, l));
        }
      case Emit(t, n) =>
        LexFromHalt(cs, n, line);
        if LexFrom(cs, n, line).Err? {
          HaltEmit(cs, i, n, HaltPos(cs, n, line), line, t, LexFrom(cs, n, line).error.line, Emitted(cs, n, line));
        }
      case Halt(_) =>
        StepHalts(cs, i, line);
        assert Emitted(cs, i, line) == [] && cs[i..i] == [];
    }
  }

  /** The line of a failure after skipping from `i` to `n`. */
  lemma HaltSkip(cs: string, i: nat, n: nat, k: nat, line: nat, l: nat, errLine: nat, before: seq<Token>)
    requires i <= n <= k <= |cs| && l == line + NewlineCount(cs[i..n])
    requires errLine + StringNewlines(before) == l + NewlineCount(cs[n..k])
    ensures errLine + StringNewlines(before) == line + NewlineCount(cs[i..k])
  {
    NewlineCountSplit(cs, i, n, k);
  }

  /** The line of a failure after emitting `t`, the text from `i` to `n`. */
  lemma HaltEmit(cs: string, i: nat, n: nat, k: nat, line: nat, t: Token, errLine: nat, before: seq<Token>)
    requires i <= n <= k <= |cs| && NewlineCount(cs[i..n]) == StringNewlines([t])
    requires errLine + StringNewlines(before) == line + NewlineCount(cs[n..k])
    ensures errLine + StringNewlines([t] + before) == line + NewlineCount(cs[i..k])
  {
    StringNewlinesAppend([t], before);
    NewlineCountSplit(cs, i, n, k);
  }

  /** A failed scan stopped at a step that begins outside any literal or comment: either at a
      character that starts no lexeme, with the unexpected-character message, or at a `"` that
      no later `"` closes, with the unterminated-string message. */
  lemma LexFromFails(cs: string, i: nat, line: nat)
    requires i <= |cs|
    ensures LexFrom(cs, i, line).Err? ==>
              var e, k := LexFrom(cs, i, line).error, HaltPos(cs, i, line);
              && i <= k < |cs|
              && e.line + StringNewlines(Emitted(cs, i, line)) == line + NewlineCount(cs[i..k])
              && FailureAt(cs, k, e.message)
  {
    LexFromHalt(cs, i, line);
    if LexFrom(cs, i, line).Err? {
      var e, k := LexFrom(cs, i, line).error, HaltPos(cs, i, line);
      StepHalts(cs, k, e.line);
      if cs[k] == '"' {
        StringToken(cs, k, e.line);
      }
    }
  }

  /** The two reasons a step at `k` fails, with their messages. */
  ghost predicate FailureAt(cs: string, k: nat, message: string)
    requires k < |cs|
  {
    || (!StartsLexeme(cs[k]) && message == UnexpectedCharacter)
    || (cs[k] == '"' && (forall j | k < j < |cs| :: cs[j] != '"') && message == UnterminatedString)
  }

  /** The whole source. On success: one `EOF` at the end, after the last lexeme; the lexemes are
      the successive slices of the source; each token is on the line its position implies, and
      the sentinel's line (counted from 0) is the number of line breaks outside string literals.
      On failure: the scan stopped at `HaltPos`, for one of the two reasons, on the line that
      position implies. */
  lemma LexEnds(cs: string)
    ensures Lex(cs).Ok? ==>
              var ts := Lex(cs).value;
              && SentinelLast(ts)
              && SourceSlices(cs, 0, ts, Starts(cs, 0, 0))
              && TokenLines(cs, 0, 0, ts, Starts(cs, 0, 0))
              && ts[|ts| - 1].line + StringNewlines(ts) == NewlineCount(cs)
    ensures Lex(cs).Err? ==>
              var e, k := Lex(cs).error, HaltPos(cs, 0, 0);
              && k < |cs|
              && e.line + StringNewlines(Emitted(cs, 0, 0)) == NewlineCount(cs[..k])
              && FailureAt(cs, k, e.message)
  {
    LexFromSentinel(cs, 0, 0);
    LexFromLayout(cs, 0, 0);
    LexFromFails(cs, 0, 0);
    if Lex(cs).Ok? {
      SentinelLine(cs, Lex(cs).value, Starts(cs, 0, 0));
    }
  }

  /** The sentinel's own line, from the line of every token. */
  lemma SentinelLine(cs: string, ts: seq<Token>, ps: seq<nat>)
    requires SentinelLast(ts) && SourceSlices(cs, 0, ts, ps) && TokenLines(cs, 0, 0, ts, ps)
    ensures ts[|ts| - 1].line + StringNewlines(ts) == NewlineCount(cs)
  {
    var last := |ts| - 1;
    assert ts == ts[..last] + [ts[last]];
    StringNewlinesAppend(ts[..last], [ts[last]]);
    assert [ts[last]][1..] == [];
    assert cs[0..|cs|] == cs;
  }
}
