/** The reserved-word table of lexer.rs (`populate_key_words` and its use in `identifier`). */
module Keywords {
  import opened Results
  import opened Token
  import opened CharClass

  /** The kind of a reserved word, or `None` for any other text. */
  function KeywordKind(word: string): (r: Option<TokenKind>)
    ensures r.Some? ==> r.value.IsKeyword()
  {
    match word
    case "and" => Some(And)
    case "or" => Some(Or)
    case "true" => Some(True)
    case "false" => Some(False)
    case "null" => Some(Null)
    case "fn" => Some(Fn)
    case "class" => Some(Class)
    case "output" => Some(Output)
    case "let" => Some(Let)
    case "for" => Some(For)
    case "if" => Some(If)
    case "else" => Some(Else)
    case "while" => Some(While)
    case "return" => Some(Return)
    case "super" => Some(Super)
    case _ => None
  }

  /** The spelling of a reserved-word kind. */
  function KeywordSpelling(k: TokenKind): (w: string)
    requires k.IsKeyword()
    ensures IsWord(w)
  {
    match k
    case And => "and"
    case Or => "or"
    case True => "true"
    case False => "false"
    case Null => "null"
    case Fn => "fn"
    case Class => "class"
    case Output => "output"
    case Let => "let"
    case For => "for"
    case If => "if"
    case Else => "else"
    case While => "while"
    case Return => "return"
    case Super => "super"
  }

  /** The table and the spellings are inverse: each reserved-word kind has exactly one spelling. */
  lemma KeywordRoundTrip(word: string, k: TokenKind)
    ensures k.IsKeyword() ==> KeywordKind(KeywordSpelling(k)) == Some(k)
    ensures KeywordKind(word) == Some(k) ==> KeywordSpelling(k) == word
  {
  }

  /** The kind the identifier scanner gives a word: its reserved-word kind if there is one,
      `Identifier` otherwise. */
  function WordKind(word: string): (k: TokenKind)
  {
    match KeywordKind(word)
    case Some(kw) => kw
    case None => Identifier
  }

  /** A word scans as a keyword exactly when its whole text is a table spelling. */
  lemma WordKindIsKeywordIff(word: string)
    ensures WordKind(word) != Identifier <==> KeywordKind(word).Some?
    ensures WordKind(word) != Identifier ==> WordKind(word).IsKeyword() && KeywordSpelling(WordKind(word)) == word
    ensures WordKind(word) != Eof && WordKind(word) != String && WordKind(word) != Number
  {
    KeywordRoundTrip(word, WordKind(word));
  }

  /** The reserved words and their kinds, as `populate_key_words` inserts them. */
  const KeywordTable: map<string, TokenKind> := map[
    "and" := And, "or" := Or, "true" := True, "false" := False, "null" := Null,
    "fn" := Fn, "class" := Class, "output" := Output, "let" := Let, "for" := For,
    "if" := If, "else" := Else, "while" := While, "return" := Return, "super" := Super]

  /** Looking a word up in the table is `KeywordKind`: the same words, with the same kinds. */
  lemma KeywordTableLookup(word: string)
    ensures word in KeywordTable <==> KeywordKind(word).Some?
    ensures word in KeywordTable ==> KeywordTable[word] == KeywordKind(word).value
  {
  }

  /** The table holds exactly the 15 reserved-word kinds, each under its own spelling. */
  lemma KeywordTableKinds(k: TokenKind)
    ensures k.IsKeyword() ==> KeywordSpelling(k) in KeywordTable && KeywordTable[KeywordSpelling(k)] == k
    ensures forall w | w in KeywordTable :: KeywordTable[w].IsKeyword()
  {
    if k.IsKeyword() {
      KeywordTableLookup(KeywordSpelling(k));
      KeywordRoundTrip(KeywordSpelling(k), k);
    }
    forall w | w in KeywordTable
      ensures KeywordTable[w].IsKeyword()
    {
      KeywordTableLookup(w);
    }
  }

  /** `populate_key_words`: inserts the 15 reserved words into `keywords`, replacing any kind
      already stored under one of those spellings. */
  method PopulateKeywords(keywords: map<string, TokenKind>) returns (r: map<string, TokenKind>)
    ensures r == keywords + KeywordTable
  {
    r := keywords;
    r := r["and" := And];
    r := r["or" := Or];
    r := r["true" := True];
    r := r["false" := False];
    r := r["null" := Null];
    r := r["fn" := Fn];
    r := r["class" := Class];
    r := r["output" := Output];
    r := r["let" := Let];
    r := r["for" := For];
    r := r["if" := If];
    r := r["else" := Else];
    r := r["while" := While];
    r := r["return" := Return];
    r := r["super" := Super];
  }
}
