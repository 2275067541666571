# shrub_lang lexer, modelled and verified in Dafny

This project models the lexer of the shrub_lang interpreter (`shrub_lang/src/lexer.rs`). The lexer turns source text into a list of tokens, or stops with the first syntax error. Each token has:

- a kind;
- the exact source text it came from (its lexeme);
- a value: a number, a string, or none;
- the line it starts on. Lines are counted from 0.

A successful scan always ends with one `EOF` token.

The model has three layers:

- **The scanner object** (`lexer.dfy`, module `Lexer`). The class `LexerData` holds the same fields as the Rust struct: characters, tokens, current, start, line number and the keyword map.
  - Its methods change those fields step by step, as the Rust functions do: `Advance`, `CharMatch`, `AppendGenericToken`, `AppendValueToken`, `Identifier`, `Number`, `CreateString`, `ScanToken`, and `ScanTokens` with its `while` loop.
  - `IsAtEnd`, `Peek` and `PeekNext` are functions of that state.
  - `Peek` and `PeekNext` require their index to be inside the source, because the Rust code indexes without a check.
  - `ScanTokens` is proved to return exactly `ScanSpec.Lex(contents)`.
- **A reference scanner** (`scan_spec.dfy`, module `ScanSpec`). `StepAt` is one call of `scan_token`, as a function of the source, the position and the line. `LexFrom` is the rest of the loop, and `Lex` is the whole of `scan_tokens`.
  - Each category of lexeme has its own function (`OperatorStep`, `SlashStep`, `StringStep`, `NumberStep`, `WordStep`) and a lemma giving its outcome.
  - Every lemma in the properties layer is about this reference scanner. The methods are proved to compute it.
- **Properties** of the reference scanner:
  - `step_properties.dfy`: one step per kind of lexeme.
  - `lex_properties.dfy`: the whole scan, covering the sentinel, lexemes as ordered slices of the source, per-token lines and the error cases.
  - `lex_examples.dfy`: worked scans of small sources.
  - `findings.dfy`: a defect in the source and its corrected form.

The remaining modules are:

- `Token` (`token.dfy`): the kinds, values and tokens of `token.rs`.
- `ShrubError` (`shrub_error.dfy`): the error of `shrub_error.rs` and the two fixed messages.
- `CharClass` (`char_class.dfy`): `IsAlpha`, `IsNumber` and `IsAlphanumeric`, plus the layout and grammar predicates built on them.
- `Keywords` (`keywords.dfy`): the reserved-word table, as lookup plus inverse. `PopulateKeywords` builds that table the way `populate_key_words` does.
- `Results` (`results.dfy`): `Option` and `Result`.

Observations about the source that the model follows:

- `token.rs` declares fewer token kinds than `lexer.rs` emits, for example `SEMICOLON`, `BANG`, `NUMBER` and `OUTPUT`. The model's `TokenKind` has every kind the lexer uses. Kinds follow the code, not the type declaration.
- `identifier` counts a line break when it sees one inside a word. A line break is never alphanumeric, so that branch adds nothing. The model keeps the branch and proves the line unchanged.
- `create_string` does not count the line breaks inside a string literal. Lines after a multi-line string are therefore lower than their position suggests. `TokenLines` states this: a token's line is the starting line plus the line breaks before it, minus those inside earlier string literals. `LexMultilineString` shows an example.
- A failed scan returns only the error. Tokens already scanned are dropped.

## Model

| member | source | states |
|---|---|---|
| CharClass.ClassesAreDisjoint | shrub_lang/src/lexer.rs:219-238 | digits are not letters, and neither is a line break, blank, quote, `.`, `/` or punctuation. This is why the dispatch order does not matter and why words and numbers never hold a line break |
| Keywords.KeywordKind | shrub_lang/src/lexer.rs:53-69 | looking up a spelling yields only reserved-word kinds |
| Keywords.KeywordSpelling | shrub_lang/src/lexer.rs:53-69 | each reserved-word kind has a spelling, and that spelling is a valid identifier word |
| Keywords.KeywordRoundTrip | shrub_lang/src/lexer.rs:53-69 | lookup and spelling are inverse in both directions, so no two words share a kind |
| Keywords.WordKindIsKeywordIff | shrub_lang/src/lexer.rs:166-169 | a word is given a reserved-word kind exactly when its whole text is in the table, otherwise `Identifier`; never `EOF`, `STRING` or `NUMBER` |
| Keywords.KeywordTableLookup | shrub_lang/src/lexer.rs:53-69 | the table map and the lookup function hold the same words with the same kinds |
| Keywords.KeywordTableKinds | shrub_lang/src/lexer.rs:53-69 | the table holds exactly the 15 reserved-word kinds, each under its own spelling |
| Keywords.PopulateKeywords | shrub_lang/src/lexer.rs:53-69 | the map afterwards is the given map overridden by the 15 reserved words |
| ScanSpec.IdentEnd | shrub_lang/src/lexer.rs:157-162 | the identifier loop stops inside the source, at the end or at the first non-alphanumeric character |
| ScanSpec.IdentEndRun | shrub_lang/src/lexer.rs:157-162 | everything the identifier loop passes over is alphanumeric |
| ScanSpec.DigitsEnd | shrub_lang/src/lexer.rs:173-175 | a digit loop stops at the end or at the first non-digit |
| ScanSpec.DigitsEndRun | shrub_lang/src/lexer.rs:173-175 | everything a digit loop passes over is a digit |
| ScanSpec.CommentEnd | shrub_lang/src/lexer.rs:116-118 | the comment loop stops at the next line break, without consuming it |
| ScanSpec.CommentEndRun | shrub_lang/src/lexer.rs:116-118 | a comment holds no line break |
| ScanSpec.StringEnd | shrub_lang/src/lexer.rs:198-200 | the string loop stops at the next `"` or at the end |
| ScanSpec.StringEndRun | shrub_lang/src/lexer.rs:198-200 | the text the string loop passes over holds no `"` |
| ScanSpec.NumberEnd | shrub_lang/src/lexer.rs:172-182 | `number` stops inside the source, after the first digit |
| ScanSpec.NumberEndIsNumberText | shrub_lang/src/lexer.rs:172-182 | the text `number` consumes is digits, optionally followed by `.` and digits |
| ScanSpec.DecimalValueBounds | shrub_lang/src/lexer.rs:184-189 | a number's value lies between its whole part and the next integer |
| ScanSpec.StepAt | shrub_lang/src/lexer.rs:71-154 | every step that does not fail moves forward and stays inside the source |
| ScanSpec.OperatorStep | shrub_lang/src/lexer.rs:83-112 | an operator character always emits a token of one or two characters, whose lexeme is exactly the characters it consumed |
| ScanSpec.SlashStep | shrub_lang/src/lexer.rs:114-122 | `/` never fails: it skips a comment or emits a token |
| ScanSpec.StringStep | shrub_lang/src/lexer.rs:130-138 | `"` never skips: it emits a `STRING` token whose lexeme is the text consumed, or fails |
| ScanSpec.NumberStep | shrub_lang/src/lexer.rs:141-142 | a digit always emits a token |
| ScanSpec.WordStep | shrub_lang/src/lexer.rs:143-144 | a letter or `_` always emits a token |
| ScanSpec.StepLayout | shrub_lang/src/lexer.rs:126-128 | blanks are skipped on the same line; a line break is skipped and counted |
| ScanSpec.StepUnexpected | shrub_lang/src/lexer.rs:140-150 | a character that starts no lexeme fails with "Unexpected Character" on the current line |
| ScanSpec.StepPunctuation | shrub_lang/src/lexer.rs:74-82 | each punctuation character emits its own kind with a one-character lexeme and no value |
| ScanSpec.StepOperator | shrub_lang/src/lexer.rs:83-112 | `!`, `=`, `>` and `<` emit the two-character operator exactly when `=` follows, and consume nothing more (lookahead never over-consumes) |
| ScanSpec.StepSlash | shrub_lang/src/lexer.rs:114-122 | `//` skips a comment, while `/` followed by anything else, or alone at the end, emits `Slash` |
| ScanSpec.StepString | shrub_lang/src/lexer.rs:130-138 | `"` emits the literal up to the next `"` with the inner text as value, or fails with "String never terminates." |
| ScanSpec.StepNumber | shrub_lang/src/lexer.rs:172-195 | a digit emits the number literal with its decimal value |
| ScanSpec.StepWord | shrub_lang/src/lexer.rs:156-170 | a letter or `_` emits the word with its keyword or identifier kind |
| Lexer.LexerData.constructor | shrub_lang/src/lexer.rs:26-33 | the scanner starts at position 0 on line 0 with no tokens |
| Lexer.LexerData.Advance | shrub_lang/src/lexer.rs:266-269 | consumes one character and returns it |
| Lexer.LexerData.CharMatch | shrub_lang/src/lexer.rs:275-286 | consumes the next character exactly when one exists and it is the expected one (iff) |
| Lexer.LexerData.AppendGenericToken | shrub_lang/src/lexer.rs:240-251 | appends one token of the kind for the text from start to current, with no value, on the current line |
| Lexer.LexerData.AppendValueToken | shrub_lang/src/lexer.rs:253-264 | appends the same token, carrying the given value |
| Lexer.LexerData.Identifier | shrub_lang/src/lexer.rs:156-170 | consumes up to `IdentEnd`, keeps the line, and appends the word with the kind the keyword map gives |
| Lexer.LexerData.Digits | shrub_lang/src/lexer.rs:173-181 | a digit loop consumes up to `DigitsEnd` |
| Lexer.LexerData.Number | shrub_lang/src/lexer.rs:172-195 | consumes up to `NumberEnd` and appends the number token with the lexeme's value |
| Lexer.LexerData.CreateString | shrub_lang/src/lexer.rs:197-217 | without a closing `"` it fails with the fixed message and appends nothing; otherwise it consumes through the `"` and appends the literal |
| Lexer.LexerData.Comment | shrub_lang/src/lexer.rs:115-118 | consumes up to the next line break |
| Lexer.LexerData.Operator | shrub_lang/src/lexer.rs:83-112 | performs the operator step of `StepAt` |
| Lexer.LexerData.SlashOrComment | shrub_lang/src/lexer.rs:114-122 | performs the `/` step of `StepAt` |
| Lexer.LexerData.StringLiteral | shrub_lang/src/lexer.rs:130-138 | performs the string step, turning the message into a syntax error on the current line |
| Lexer.LexerData.Fallback | shrub_lang/src/lexer.rs:140-151 | performs the number, word or unexpected-character step |
| Lexer.LexerData.ScanToken | shrub_lang/src/lexer.rs:71-154 | one call changes the cursor, line and tokens exactly as `StepAt` says; a failing call appends no token, and a successful one keeps the scanner valid |
| Lexer.ScanTokens | shrub_lang/src/lexer.rs:16-51 | the result is `Lex(contents)`: the first error, or every token followed by the `EOF` sentinel |
| StepProperties.WordToken | shrub_lang/src/lexer.rs:156-170 | a word is a letter or `_` then letters, digits and `_`. It is maximal (no alphanumeric follows it), and it is a keyword iff the table holds it, with the table's kind, so `classy` is an identifier |
| StepProperties.NumberToken | shrub_lang/src/lexer.rs:172-195 | the number lexeme is maximal, matches the number grammar and carries its decimal value. A literal without a fraction followed by `.` has no digit after the `.`, so `3.` is a number and then a dot |
| StepProperties.StringToken | shrub_lang/src/lexer.rs:197-217 | the string token keeps both quotes, its value is the inner text and the inner text holds no `"`. The unterminated error happens iff no `"` follows |
| StepProperties.CommentSkip | shrub_lang/src/lexer.rs:114-118 | a comment is skipped on the same line, up to but not including the next line break |
| StepProperties.StepHalts | shrub_lang/src/lexer.rs:140-150 | a step fails with "Unexpected Character" iff the character starts no lexeme. Any failure is that error or the unterminated-string error at a `"`, and it is on the current line |
| LexProperties.EmitShape | shrub_lang/src/lexer.rs:240-264 | every emitted token's lexeme is exactly the text consumed, on the current line. It is never `EOF`, and only a string lexeme can hold a line break |
| LexProperties.WordHasNoNewline | shrub_lang/src/lexer.rs:157-162 | a word holds no line break and is never `EOF` |
| LexProperties.NumberTextHasNoNewline | shrub_lang/src/lexer.rs:172-182 | a number lexeme holds no line break |
| LexProperties.SkipLines | shrub_lang/src/lexer.rs:114-128 | a skipping step adds exactly the line breaks it passed over to the line |
| LexProperties.StepNewlines | shrub_lang/src/lexer.rs:71-154 | a step's consumed line breaks are counted in the line, or kept in a string lexeme |
| LexProperties.LexFromSentinel | shrub_lang/src/lexer.rs:35-50 | on success the list ends in one `EOF` with an empty lexeme and no value, and no earlier token is `EOF` |
| LexProperties.LexFromLayout | shrub_lang/src/lexer.rs:35-50 | on success the lexemes are non-empty, in-order, non-overlapping slices of the source, the sentinel sits at its end, and each token is on the line its position implies |
| LexProperties.LexFromHalt | shrub_lang/src/lexer.rs:35-50 | a failed scan is the failing step at the halt position `HaltPos`, and the error's line is the starting line plus the line breaks before that position, minus those inside the strings emitted before it |
| LexProperties.LexFromFails | shrub_lang/src/lexer.rs:130-150 | at the halt position, on that line, either the character starts no lexeme and the message is "Unexpected Character", or it is a `"` with no `"` after it and the message is "String never terminates." |
| LexProperties.LexEnds | shrub_lang/src/lexer.rs:16-51 | for the whole source: the sentinel, the slices and the lines. The sentinel's line is the number of line breaks outside string literals. A failure names the halt position, the character there explains the message as in `LexFromFails`, and the error's line is the one that position implies |
| LexExamples.LexSum | shrub_lang/src/lexer.rs:71-154 | `1+2` followed by a line break scans to NUMBER 1, PLUS, NUMBER 2, EOF on line 1 |
| LexExamples.LexBangEqual | shrub_lang/src/lexer.rs:83-89 | `!=` is one `BangEqual` token |
| LexExamples.LexClassy | shrub_lang/src/lexer.rs:156-170 | `classy` is one identifier (maximal munch) |
| LexExamples.LexClass | shrub_lang/src/lexer.rs:156-170 | `class` is the keyword |
| LexExamples.LexComment | shrub_lang/src/lexer.rs:114-118 | a comment line is skipped, and the next token is on line 1 |
| LexExamples.LexTrailingDot | shrub_lang/src/lexer.rs:177-182 | `3.` is a NUMBER 3 and then a DOT |
| LexExamples.LexFraction | shrub_lang/src/lexer.rs:172-195 | `3.14` is one number with value 3.14 |
| LexExamples.LexMultilineString | shrub_lang/src/lexer.rs:197-217 | a string spanning two lines is one token, and the line after it is 1, not 2 |
| LexExamples.LexUnterminated | shrub_lang/src/lexer.rs:130-138 | a `"` on line 1 with no closing quote fails with "String never terminates." on line 1 |
| LexExamples.LexUnexpected | shrub_lang/src/lexer.rs:145-150 | `@` fails with "Unexpected Character", and the tokens before it are dropped |
| Findings.SumReadsPastEnd | shrub_lang/src/lexer.rs:173-175 | for the file `1+2` with no line break, the scan reaches the `2` and its digit loop peeks past the end |
| Findings.NewlineEndIsSafe | shrub_lang/src/lexer.rs:288-294 | when the source ends in a line break, no step ever peeks past the end |
| Findings.LexSumWithoutNewline | shrub_lang/src/lexer.rs:172-182 | with bounds-checked lookahead, `1+2` scans to NUMBER 1, PLUS, NUMBER 2, EOF |

## Left out

- The driver in `main.rs` is not part of this model: argument handling, file reading, the REPL and printing are I/O.
- Number values are exact decimals (`real`), not the nearest `f64`. The `parse::<f64>()` call is not modelled. It cannot fail, because every number lexeme matches the number grammar (`NumberEndIsNumberText`).
- Lexer.LexerData.Number: the value it attaches is the exact decimal value of the lexeme, not its `f64` rounding.
- The keyword `HashMap` is a Dafny `map`. Hashing and allocation are not modelled.
- `Vec<char>` is a Dafny string, a sequence of `char`. UTF-8 decoding by `chars()` is not modelled, Outside strings and comments a non-ASCII character starts no lexeme and fails with the unexpected-character error. Inside a string literal or a comment it is kept or skipped like any other character.
- `usize` counters are unbounded naturals. Overflow would need more characters than memory holds.
- `Token::to_string` and the `Display` and `Debug` forms of `SyntaxError` are formatting and are left out.
- `DataType::BOOL` is never produced by the lexer and is left out.
- Lexer.ScanTokens: it requires the source to be empty or to end in a line break, as REPL lines normally do (`read_line` can return a last line without one). On some other sources, those where `Findings.StepReadsPastEnd` holds at a step, the Rust code indexes past the end and panics. The requirement also excludes sources without a final line break that lexer.rs scans cleanly, such as `x=1;` or `1+`. The reference scanner `Lex` is total.
- Lexer.LexerData.ScanToken: the arms of the `match` are split into helper methods (`Operator`, `SlashOrComment`, `StringLiteral`, `Fallback`, `Comment`, `Digits`). The one-character punctuation arms are one arm through `SingleCharKind`. The behaviour is the same, and each helper is proved against `StepAt`.
- `IsAtEnd`, `Peek` and `PeekNext` are functions of the cursor without a postcondition. They return the comparison and the character they read.

## Findings

| source | as written | input that shows it | evidently intended | confidence | as-written member | corrected member |
|---|---|---|---|---|---|---|
| shrub_lang/src/lexer.rs:288-294 | `peek` and `peek_next` index the characters without a bounds check. The comment, identifier and number loops stop only on a character that is not theirs, so a run that reaches the end of the source reads one index past it and the program panics | the file `1+2` with no final line break: the digit loop of the `2` reads index 3 | stop at the end of the source, as `create_string` and `char_match` do through `is_at_end` | medium, not executed | Findings.SumReadsPastEnd | Findings.LexSumWithoutNewline |
