/** What one scanning step does with each class of first character. */
module ScannerFacts {
  import opened Tokens
  import opened Wrappers
  import opened Extensions
  import opened Scanner

  /** Operators: one character, or two when an operator that admits it is
      followed by `=`. */
  lemma OperatorTokens(source: string, start: nat, line: int, mode: KeywordMode)
    requires start < |source|
    ensures var c := source[start];
            var r := ScanToken(source, start, line, mode);
            (c in SingleCharTokens ==>
               r == Lexed(start + 1, line, Some(Token(SingleCharTokens[c], [c], NoLiteral, line)), None))
            && (c in OneOrTwoCharTokens && Match(source, start + 1, '=') ==>
                  r == Lexed(start + 2, line, Some(Token(OneOrTwoCharTokens[c].0, [c, '='], NoLiteral, line)), None))
            && (c in OneOrTwoCharTokens && !Match(source, start + 1, '=') ==>
                  r == Lexed(start + 1, line, Some(Token(OneOrTwoCharTokens[c].1, [c], NoLiteral, line)), None))
  {
    var c := source[start];
    assert source[start..start + 1] == [c];
    if start + 1 < |source| {
      assert source[start..start + 2] == [c, source[start + 1]];
    }
  }

  /** `//` starts a comment that runs up to, not including, the next line
      break and adds nothing; a lone `/` is a SLASH token. */
  lemma SlashAndComments(source: string, start: nat, line: int, mode: KeywordMode)
    requires start < |source| && source[start] == '/'
    ensures var r := ScanToken(source, start, line, mode);
            (Match(source, start + 1, '/') ==>
               r.token.None? && r.error.None? && r.line == line
               && (r.next == |source| || source[r.next] == '\n')
               && forall k :: start <= k < r.next ==> source[k] != '\n')
            && (!Match(source, start + 1, '/') ==>
                  r == Lexed(start + 1, line, Some(Token(SLASH, "/", NoLiteral, line)), None))
  {
    assert source[start..start + 1] == "/";
  }

  /** Blanks add nothing; a line break adds nothing but counts a line. */
  lemma Whitespace(source: string, start: nat, line: int, mode: KeywordMode)
    requires start < |source|
    ensures var c := source[start];
            var r := ScanToken(source, start, line, mode);
            (c == ' ' || c == '\r' || c == '\t' ==> r == Lexed(start + 1, line, None, None))
            && (c == '\n' ==> r == Lexed(start + 1, line + 1, None, None))
  {
  }

  /** Any other character that starts no lexeme is reported on the current
      line, consumed, and otherwise ignored, so scanning goes on after it. */
  lemma UnexpectedCharacter(source: string, start: nat, line: int, mode: KeywordMode)
    requires start < |source|
    requires var c := source[start];
             c !in SingleCharTokens && c !in OneOrTwoCharTokens && c !in "/ \r\t\n\""
             && !IsAsciiDigit(c) && !IsLetter(c)
    ensures ScanToken(source, start, line, mode) == Lexed(start + 1, line, None, Some(ScanError(line, UnexpectedMessage)))
  {
    var c := source[start];
    assert c != '/' && c != ' ' && c != '\r' && c != '\t' && c != '\n' && c != '"' by {
      assert "/ \r\t\n\""[0] == '/' && "/ \r\t\n\""[1] == ' ' && "/ \r\t\n\""[2] == '\r';
      assert "/ \r\t\n\""[3] == '\t' && "/ \r\t\n\""[4] == '\n' && "/ \r\t\n\""[5] == '"';
    }
  }

  /** `Match` consumes exactly when `Peek` shows the expected character
      before the end; past the end both lookaheads give `'\0'`. */
  lemma Lookahead(source: string, current: nat, expected: char)
    ensures Match(source, current, expected) <==> current < |source| && Peek(source, current) == expected
    ensures current >= |source| ==> Peek(source, current) == '\0' && PeekNext(source, current) == '\0'
  {
  }

  /** A digit starts a number; the contract of `DoNumber` says what it
      consumes. */
  lemma NumberDispatch(source: string, start: nat, line: int, mode: KeywordMode)
    requires start < |source| && IsAsciiDigit(source[start])
    ensures ScanToken(source, start, line, mode) == DoNumber(source, start, line)
  {
    StartsNoOperator(source[start]);
  }

  /** A fraction is part of the number only when a digit follows the `.`:
      `1.5` is one number, while in `1.x` the number stops before the `.`. */
  lemma NumberFraction(line: int)
    ensures DoNumber("1.5", 0, line).token == Some(Token(NUMBER, "1.5", NumberText("1.5"), line))
    ensures DoNumber("1.x", 0, line).next == 1
    ensures DoNumber("1.x", 0, line).token == Some(Token(NUMBER, "1", NumberText("1"), line))
  {
    var r := DoNumber("1.5", 0, line);
    assert "1.5"[1] == '.' && IsAsciiDigit("1.5"[2]);
    assert r.next == 3;
    assert "1.5"[0..3] == "1.5";
    var q := DoNumber("1.x", 0, line);
    assert !IsAsciiDigit("1.x"[1]) && !IsAsciiDigit("1.x"[2]);
    assert q.next == 1;
    assert "1.x"[0..1] == "1";
  }

  /** A quote starts a string; see `DoString`. */
  lemma StringDispatch(source: string, start: nat, line: int, mode: KeywordMode)
    requires start < |source| && source[start] == '"'
    ensures ScanToken(source, start, line, mode) == DoString(source, start, line)
  {
  }

  /** A letter starts a word; see `DoIdentifier`. */
  lemma WordDispatch(source: string, start: nat, line: int, mode: KeywordMode)
    requires start < |source| && IsLetter(source[start])
    ensures ScanToken(source, start, line, mode) == DoIdentifier(source, start, line, mode)
  {
    StartsNoOperator(source[start]);
  }

  /** Letters and digits are keys of neither operator table. */
  lemma StartsNoOperator(c: char)
    requires IsLetterOrDigit(c)
    ensures c !in SingleCharTokens && c !in OneOrTwoCharTokens && c != '/' && c != '"'
    ensures c != ' ' && c != '\r' && c != '\t' && c != '\n'
  {
  }

  /** The source's keyword lookup gives a keyword the IDENTIFIER kind; the
      intended lookup gives it its own kind. Shown on `var`. */
  lemma KeywordScannedAsIdentifier(line: int)
    ensures ScanToken("var", 0, line, InvertedLookup).token == Some(Token(IDENTIFIER, "var", NoLiteral, line))
    ensures ScanToken("var", 0, line, KeywordsRecognized).token == Some(Token(VAR, "var", NoLiteral, line))
  {
    WordLexeme("var", line);
  }

  /** The source's keyword lookup gives any other word the default kind;
      the intended lookup gives it IDENTIFIER. Shown on `x`. */
  lemma NameScannedAsDefaultKind(line: int)
    ensures ScanToken("x", 0, line, InvertedLookup).token == Some(Token(DefaultTokenType, "x", NoLiteral, line))
    ensures ScanToken("x", 0, line, KeywordsRecognized).token == Some(Token(IDENTIFIER, "x", NoLiteral, line))
  {
    WordLexeme("x", line);
  }

  /** A source that is one word scans as that whole word. */
  lemma WordLexeme(word: string, line: int)
    requires |word| > 0 && IsLetter(word[0])
    requires forall k :: 0 <= k < |word| ==> IsLetterOrDigit(word[k])
    ensures forall mode :: ScanToken(word, 0, line, mode).token == Some(Token(IdentifierKind(word, mode), word, NoLiteral, line))
  {
    forall mode
      ensures ScanToken(word, 0, line, mode).token == Some(Token(IdentifierKind(word, mode), word, NoLiteral, line))
    {
      WordDispatch(word, 0, line, mode);
      var r := DoIdentifier(word, 0, line, mode);
      assert r.next == |word|;
      assert word[0..|word|] == word;
    }
  }

  /** Under the intended lookup every keyword scans as its own kind, and the
      two lookups never agree on a word, whichever word it is (the default
      kind is not IDENTIFIER). */
  lemma LookupsDisagreeEverywhere(text: string)
    ensures IdentifierKind(text, InvertedLookup) != IdentifierKind(text, KeywordsRecognized)
    ensures text in Keywords ==> IdentifierKind(text, KeywordsRecognized) == Keywords[text]
  {
  }
}
