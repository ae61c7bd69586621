/** The scanner: one pass over the source text with a `start` and a
    `current` index and a line counter. Each step reads the lexeme beginning
    at `start`, moves `current` past it, and adds at most one token or one
    diagnostic; after the loop a single end-of-file token is appended.

    Character classes are the ASCII ones. */
module Scanner {
  import opened Tokens
  import opened Wrappers
  import opened Extensions

  /** A diagnostic reported through the program's error hook: a line and a
      message. Scanning continues after it. */
  datatype ScanError = ScanError(line: int, message: string)

  /** How an identifier's text is turned into a token kind: as the source's
      lookup does it (inverted: see `IdentifierKind`), or as it means to. */
  datatype KeywordMode = InvertedLookup | KeywordsRecognized

  const UnexpectedMessage := "Unexpected character."
  const UnterminatedMessage := "Unterminated string."

  predicate IsLetter(c: char)
  {
    'a' <= c <= 'z' || 'A' <= c <= 'Z'
  }

  predicate IsLetterOrDigit(c: char)
  {
    IsLetter(c) || IsAsciiDigit(c)
  }

  /** The characters that are always a token by themselves. */
  const SingleCharTokens: map<char, TokenType> := map[
    '(' := LEFT_PAREN, ')' := RIGHT_PAREN, '{' := LEFT_BRACE, '}' := RIGHT_BRACE,
    ',' := COMMA, '.' := DOT, '-' := MINUS, '+' := PLUS, ';' := SEMICOLON, '*' := STAR]

  /** The characters that make a two-character token when `=` follows them,
      with the kind of each form: (followed by `=`, alone). */
  const OneOrTwoCharTokens: map<char, (TokenType, TokenType)> := map[
    '!' := (BANG_EQUAL, BANG), '=' := (EQUAL_EQUAL, EQUAL),
    '<' := (LESS_EQUAL, LESS), '>' := (GREATER_EQUAL, GREATER)]

  /** The reserved words and their token kinds. */
  const Keywords: map<string, TokenType> := map[
    "and" := AND, "class" := CLASS, "else" := ELSE, "false" := FALSE,
    "for" := FOR, "fun" := FUN, "if" := IF, "nil" := NIL,
    "or" := OR, "print" := PRINT, "return" := RETURN, "super" := SUPER,
    "this" := THIS, "true" := TRUE, "var" := VAR, "while" := WHILE]

  /** The number of line breaks in a text. */
  function Newlines(s: string): nat
  {
    if |s| == 0 then 0 else Newlines(s[..|s| - 1]) + (if s[|s| - 1] == '\n' then 1 else 0)
  }

  lemma {:induction false} NewlinesAppend(a: string, b: string)
    ensures Newlines(a + b) == Newlines(a) + Newlines(b)
    decreases |b|
  {
    if |b| == 0 {
      assert a + b == a;
    } else {
      assert (a + b)[..|a + b| - 1] == a + b[..|b| - 1];
      assert (a + b)[|a + b| - 1] == b[|b| - 1];
      NewlinesAppend(a, b[..|b| - 1]);
    }
  }

  /** Counting line breaks over adjacent slices adds up. */
  lemma NewlinesSplit(s: string, i: nat, j: nat, k: nat)
    requires i <= j <= k <= |s|
    ensures Newlines(s[i..k]) == Newlines(s[i..j]) + Newlines(s[j..k])
  {
    assert s[i..k] == s[i..j] + s[j..k];
    NewlinesAppend(s[i..j], s[j..k]);
  }

  /** A text with no line break in it counts none. */
  lemma NoNewlines(s: string)
    requires forall k :: 0 <= k < |s| ==> s[k] != '\n'
    ensures Newlines(s) == 0
    decreases |s|
  {
    if |s| > 0 {
      NoNewlines(s[..|s| - 1]);
    }
  }

  /** `Peek`: the character at `current`, or `'\0'` past the end. Before
      the end it is the character `Match` would test and consume. */
  function Peek(source: string, current: nat): (c: char)
    ensures current < |source| <==> Match(source, current, c)
    ensures current >= |source| ==> c == '\0'
  {
    if current >= |source| then '\0' else source[current]
  }

  /** `PeekNext`: the character after `current`, or `'\0'` past the end;
      what `Peek` would show one position on. */
  function PeekNext(source: string, current: nat): (c: char)
    ensures c == Peek(source, current + 1)
  {
    if current + 1 >= |source| then '\0' else source[current + 1]
  }

  /** `Match`: whether the character at `current` is `expected` (and so
      would be consumed). */
  predicate Match(source: string, current: nat, expected: char)
  {
    current < |source| && source[current] == expected
  }

  /** The loops of the form "advance while the next character satisfies
      `p`": the end of the longest run of `p` characters from `i`. */
  function Span(source: string, i: nat, p: char -> bool): (j: nat)
    requires i <= |source|
    ensures i <= j <= |source|
    ensures forall k :: i <= k < j ==> p(source[k])
    ensures j == |source| || !p(source[j])
    decreases |source| - i
  {
    if i == |source| || !p(source[i]) then i else Span(source, i + 1, p)
  }

  /** The result of one `ScanToken` call: where `current` ends, the line
      counter after it, and the token or diagnostic it added, if any. */
  datatype Lexed = Lexed(next: nat, line: int, token: Option<Token>, error: Option<ScanError>)

  /** `AddToken`: a token whose lexeme is the text from `start` to
      `current`, on the current line. */
  function AddToken(source: string, start: nat, current: nat, line: int, kind: TokenType, literal: TokenLiteral): (r: Lexed)
    requires start < current <= |source|
    ensures r.next == current && r.line == line && r.error.None?
    ensures r.token == Some(Token(kind, source[start..current], literal, line))
  {
    var text := JavaStyleSubstring(source, start, current);
    assert text == source[start..current];
    Lexed(current, line, Some(Token(kind, text, literal, line)), None)
  }

  /** An operator that is one character, or two when `=` follows. */
  function OneOrTwo(source: string, start: nat, line: int, withEqual: TokenType, alone: TokenType): (r: Lexed)
    requires start < |source|
    ensures Match(source, start + 1, '=') ==>
              r.next == start + 2 && r.token == Some(Token(withEqual, source[start..start + 2], NoLiteral, line))
    ensures !Match(source, start + 1, '=') ==>
              r.next == start + 1 && r.token == Some(Token(alone, source[start..start + 1], NoLiteral, line))
    ensures r.line == line && r.error.None?
  {
    if Match(source, start + 1, '=') then AddToken(source, start, start + 2, line, withEqual, NoLiteral)
    else AddToken(source, start, start + 1, line, alone, NoLiteral)
  }

  /** The kind `DoIdentifier` gives a word. The source's lookup is inverted:
      when the word IS a keyword the kind found is overwritten with
      IDENTIFIER, and when it is not, the kind is the out parameter's default
      value. `KeywordsRecognized` is the lookup the code means. */
  function IdentifierKind(text: string, mode: KeywordMode): (k: TokenType)
    ensures mode == InvertedLookup ==> (text in Keywords ==> k == IDENTIFIER) && (text !in Keywords ==> k == DefaultTokenType)
    ensures mode == KeywordsRecognized ==> (text in Keywords ==> k == Keywords[text]) && (text !in Keywords ==> k == IDENTIFIER)
  {
    match mode
    case InvertedLookup => if text in Keywords then IDENTIFIER else DefaultTokenType
    case KeywordsRecognized => if text in Keywords then Keywords[text] else IDENTIFIER
  }

  /** `DoIdentifier`: the longest run of letters and digits. */
  function DoIdentifier(source: string, start: nat, line: int, mode: KeywordMode): (r: Lexed)
    requires start < |source|
    ensures start < r.next <= |source| && r.line == line && r.error.None?
    ensures forall k :: start < k < r.next ==> IsLetterOrDigit(source[k])
    ensures r.next == |source| || !IsLetterOrDigit(source[r.next])
    ensures r.token == Some(Token(IdentifierKind(source[start..r.next], mode), source[start..r.next], NoLiteral, line))
  {
    var current := Span(source, start + 1, IsLetterOrDigit);
    AddToken(source, start, current, line, IdentifierKind(source[start..current], mode), NoLiteral)
  }

  /** `DoNumber`: digits, then a `.` and more digits only when a digit
      follows the `.`. The literal is the lexeme's text. */
  function DoNumber(source: string, start: nat, line: int): (r: Lexed)
    requires start < |source|
    ensures start < r.next <= |source| && r.line == line && r.error.None?
    ensures r.token == Some(Token(NUMBER, source[start..r.next], NumberText(source[start..r.next]), line))
    ensures r.next == |source| || !IsAsciiDigit(source[r.next])
    ensures forall k :: start < k < r.next ==> IsAsciiDigit(source[k]) || source[k] == '.'
    ensures forall k :: start < k < r.next && source[k] == '.' ==>
              k + 1 < r.next && IsAsciiDigit(source[k + 1])
              && forall m :: start < m < r.next && m != k ==> IsAsciiDigit(source[m])
    ensures (forall k :: start < k < r.next ==> source[k] != '.') ==>
              !(r.next + 1 < |source| && source[r.next] == '.' && IsAsciiDigit(source[r.next + 1]))
  {
    var whole := Span(source, start + 1, IsAsciiDigit);
    var current := if Peek(source, whole) == '.' && IsAsciiDigit(PeekNext(source, whole))
                   then Span(source, whole + 1, IsAsciiDigit)
                   else whole;
    AddToken(source, start, current, line, NUMBER, NumberText(JavaStyleSubstring(source, start, current)))
  }

  /** `DoString`: up to the closing quote, counting the line breaks inside.
      The literal is the text strictly between the quotes; with no closing
      quote the rest of the source is consumed, a diagnostic is reported on
      the line reached and no token is added. */
  function DoString(source: string, start: nat, line: int): (r: Lexed)
    requires start < |source|
    ensures start < r.next <= |source|
    ensures var close := Span(source, start + 1, c => c != '"');
            r.line == line + Newlines(source[start + 1..close])
            && (close == |source| ==>
                  r.next == |source| && r.token.None? && r.error == Some(ScanError(r.line, UnterminatedMessage)))
            && (close < |source| ==>
                  r.next == close + 1 && r.error.None?
                  && r.token == Some(Token(STRING, source[start..close + 1], StringText(source[start + 1..close]), r.line)))
  {
    var close := Span(source, start + 1, c => c != '"');
    var line' := line + Newlines(source[start + 1..close]);
    if close == |source| then Lexed(close, line', None, Some(ScanError(line', UnterminatedMessage)))
    else AddToken(source, start, close + 1, line', STRING, StringText(JavaStyleSubstring(source, start + 1, close)))
  }

  /** `ScanToken`: one lexeme from `start`. It always consumes at least one
      character, adds at most one token or one diagnostic, never an
      end-of-file token, and every added token's lexeme is exactly the text
      consumed. The line counter advances by the line breaks consumed. */
  function ScanToken(source: string, start: nat, line: int, mode: KeywordMode): (r: Lexed)
    requires start < |source|
    ensures start < r.next <= |source|
    ensures r.line == line + Newlines(source[start..r.next])
    ensures r.token.None? || r.error.None?
    ensures r.token.Some? ==>
              r.token.value.lexeme == source[start..r.next] && r.token.value.line == r.line
              && r.token.value.kind != EOF
    decreases 1
  {
    var r := ScanTokenCases(source, start, line, mode);
    ScanTokenLines(source, start, line, mode);
    r
  }

  /** The case analysis of `ScanToken` on the first character. */
  function ScanTokenCases(source: string, start: nat, line: int, mode: KeywordMode): (r: Lexed)
    requires start < |source|
    ensures start < r.next <= |source|
    ensures r.token.None? || r.error.None?
    ensures r.token.Some? ==> r.token.value.lexeme == source[start..r.next] && r.token.value.kind != EOF
  {
    var c := source[start];
    var current := start + 1;
    if c in SingleCharTokens then AddToken(source, start, current, line, SingleCharTokens[c], NoLiteral)
    else if c in OneOrTwoCharTokens then
      OneOrTwo(source, start, line, OneOrTwoCharTokens[c].0, OneOrTwoCharTokens[c].1)
    else if c == '/' then
      if Match(source, current, '/') then Lexed(Span(source, current + 1, c => c != '\n'), line, None, None)
      else AddToken(source, start, current, line, SLASH, NoLiteral)
    else if c in {' ', '\r', '\t'} then Lexed(current, line, None, None)
    else if c == '\n' then Lexed(current, line + 1, None, None)
    else if c == '"' then DoString(source, start, line)
    else if IsAsciiDigit(c) then DoNumber(source, start, line)
    else if IsLetter(c) then DoIdentifier(source, start, line, mode)
    else Lexed(current, line, None, Some(ScanError(line, UnexpectedMessage)))
  }

  /** The line bookkeeping of `ScanTokenCases`. */
  lemma ScanTokenLines(source: string, start: nat, line: int, mode: KeywordMode)
    requires start < |source|
    ensures var r := ScanTokenCases(source, start, line, mode);
            r.line == line + Newlines(source[start..r.next])
            && (r.token.Some? ==> r.token.value.line == r.line)
  {
    if source[start] == '"' {
      StringLines(source, start, line);
      assert ScanTokenCases(source, start, line, mode) == DoString(source, start, line);
    } else if source[start] == '\n' {
      assert source[start..start + 1] == ['\n'];
      assert Newlines(['\n']) == Newlines([]) + 1;
    } else {
      var r := ScanTokenCases(source, start, line, mode);
      ScanTokenNoLineBreaks(source, start, line, mode);
      NoNewlines(source[start..r.next]);
    }
  }

  /** A string lexeme's line breaks are those between its quotes. */
  lemma StringLines(source: string, start: nat, line: int)
    requires start < |source| && source[start] == '"'
    ensures var r := DoString(source, start, line);
            r.line == line + Newlines(source[start..r.next])
            && (r.token.Some? ==> r.token.value.line == r.line)
  {
    var close := Span(source, start + 1, c => c != '"');
    NewlinesSplit(source, start, start + 1, close);
    assert source[start..start + 1] == ['"'];
    assert Newlines(['"']) == 0;
    if close < |source| {
      NewlinesSplit(source, start, close, close + 1);
      assert source[close..close + 1] == ['"'];
    }
  }

  /** Outside strings and the newline character itself, a step consumes no
      line break: a comment stops before it, and the other lexemes are made
      of characters other than it. */
  lemma ScanTokenNoLineBreaks(source: string, start: nat, line: int, mode: KeywordMode)
    requires start < |source| && source[start] != '"' && source[start] != '\n'
    ensures var r := ScanTokenCases(source, start, line, mode);
            r.line == line && (r.token.Some? ==> r.token.value.line == line)
            && forall k :: start <= k < r.next ==> source[k] != '\n'
  {
  }

  // ----- The scanning loop -----

  /** Everything scanned from `current` to the end: the tokens in order, the
      position each one starts at, the diagnostics, and the final line. */
  datatype Scanned = Scanned(tokens: seq<Token>, starts: seq<nat>, errors: seq<ScanError>, line: int)

  /** Token `i` of a scan from `current` on line `line` is an in-bounds,
      nonempty slice of the source, not an end-of-file token, reported on
      the line its last character is on. */
  predicate Placed(source: string, current: nat, line: int, r: Scanned, i: nat)
    requires i < |r.tokens| == |r.starts|
  {
    PlacedAt(source, current, line, r.tokens[i], r.starts[i])
  }

  /** A token that starts at `at`, for a scan from `current` on `line`. */
  predicate PlacedAt(source: string, current: nat, line: int, t: Token, at: nat)
  {
    var end := at + |t.lexeme|;
    current <= at < end <= |source|
    && t.lexeme == source[at..end]
    && t.line == line + Newlines(source[current..end])
    && t.kind != EOF
  }

  /** A token placed for a later scan position is placed for an earlier one,
      counting the line breaks in between. */
  lemma PlacedEarlier(source: string, current: nat, line: int, next: nat, nextLine: int, t: Token, at: nat)
    requires current <= next <= |source| && nextLine == line + Newlines(source[current..next])
    requires PlacedAt(source, next, nextLine, t, at)
    ensures PlacedAt(source, current, line, t, at)
  {
    NewlinesSplit(source, current, next, at + |t.lexeme|);
  }

  /** The loop of `ScanTokens` as a recursive function: a reference for the
      method, and the object `ScanLayout` describes. */
  function ScanFrom(source: string, current: nat, line: int, mode: KeywordMode): (r: Scanned)
    requires current <= |source|
    ensures |r.starts| == |r.tokens|
    decreases |source| - current
  {
    if current == |source| then Scanned([], [], [], line)
    else
      var step := ScanToken(source, current, line, mode);
      Prepend(step, current, ScanFrom(source, step.next, step.line, mode))
  }

  /** What one step starting at `at` adds in front of the scan of the rest. */
  function Prepend(step: Lexed, at: nat, rest: Scanned): (r: Scanned)
    requires |rest.starts| == |rest.tokens|
    ensures |r.starts| == |r.tokens| && r.line == rest.line
  {
    Scanned(
      Emitted(step) + rest.tokens,
      (if step.token.Some? then [at] else []) + rest.starts,
      Reported(step) + rest.errors,
      rest.line)
  }

  function Emitted(step: Lexed): seq<Token>
  {
    if step.token.Some? then [step.token.value] else []
  }

  function Reported(step: Lexed): seq<ScanError>
  {
    if step.error.Some? then [step.error.value] else []
  }

  /** The layout of a scan: the tokens are nonempty slices of the source, in
      order and without overlap, none of them an end-of-file token, each on
      the line its last character is on; the final line counts every line
      break scanned. */
  lemma {:induction false} ScanLayout(source: string, current: nat, line: int, mode: KeywordMode)
    requires current <= |source|
    ensures var r := ScanFrom(source, current, line, mode);
            r.line == line + Newlines(source[current..])
            && (forall i :: 0 <= i < |r.tokens| ==> Placed(source, current, line, r, i))
            && (forall i :: 0 <= i < |r.tokens| - 1 ==> r.starts[i] + |r.tokens[i].lexeme| <= r.starts[i + 1])
    decreases |source| - current
  {
    if current < |source| {
      var step := ScanToken(source, current, line, mode);
      var rest := ScanFrom(source, step.next, step.line, mode);
      ScanLayout(source, step.next, step.line, mode);
      NewlinesSplit(source, current, step.next, |source|);
      assert source[current..] == source[current..|source|] && source[step.next..] == source[step.next..|source|];
      PrependPlaced(source, current, line, step, rest, ScanFrom(source, current, line, mode));
    } else {
      assert source[current..] == [];
    }
  }

  /** Placing the tokens of one step in front of a placed rest keeps them
      placed and ordered. */
  lemma PrependPlaced(source: string, current: nat, line: int, step: Lexed, rest: Scanned, r: Scanned)
    requires current < step.next <= |source| && step.line == line + Newlines(source[current..step.next])
    requires step.token.Some? ==>
               step.token.value.lexeme == source[current..step.next] && step.token.value.line == step.line
               && step.token.value.kind != EOF
    requires |rest.starts| == |rest.tokens| && r == Prepend(step, current, rest)
    requires forall i :: 0 <= i < |rest.tokens| ==> Placed(source, step.next, step.line, rest, i)
    requires forall i :: 0 <= i < |rest.tokens| - 1 ==> rest.starts[i] + |rest.tokens[i].lexeme| <= rest.starts[i + 1]
    ensures forall i :: 0 <= i < |r.tokens| ==> Placed(source, current, line, r, i)
    ensures forall i :: 0 <= i < |r.tokens| - 1 ==> r.starts[i] + |r.tokens[i].lexeme| <= r.starts[i + 1]
  {
    var o := if step.token.Some? then 1 else 0;
    forall i | 0 <= i < |r.tokens|
      ensures Placed(source, current, line, r, i)
    {
      if i < o {
        assert r.tokens[i] == step.token.value && r.starts[i] == current;
      } else {
        assert r.tokens[i] == rest.tokens[i - o] && r.starts[i] == rest.starts[i - o];
        assert Placed(source, step.next, step.line, rest, i - o);
        PlacedEarlier(source, current, line, step.next, step.line, r.tokens[i], r.starts[i]);
      }
    }
    forall i | 0 <= i < |r.tokens| - 1
      ensures r.starts[i] + |r.tokens[i].lexeme| <= r.starts[i + 1]
    {
      if i >= o {
        assert r.starts[i] == rest.starts[i - o] && r.starts[i + 1] == rest.starts[i + 1 - o];
        assert r.tokens[i] == rest.tokens[i - o];
      } else {
        assert r.starts[1] == rest.starts[0];
        assert Placed(source, step.next, step.line, rest, 0);
      }
    }
  }

  /** Appending one step's output to what was collected so far, and then
      the scan of the rest, gives what was collected followed by the scan
      from the step's start. */
  lemma PrependAppends(tokens: seq<Token>, errors: seq<ScanError>, step: Lexed, at: nat, rest: Scanned)
    requires |rest.starts| == |rest.tokens|
    ensures tokens + Emitted(step) + rest.tokens == tokens + Prepend(step, at, rest).tokens
    ensures errors + Reported(step) + rest.errors == errors + Prepend(step, at, rest).errors
  {
  }

  lemma ScannedTokensAreLexemes(source: string, mode: KeywordMode)
    ensures var full := ScanFrom(source, 0, 1, mode);
            forall i :: 0 <= i < |full.tokens| ==> full.tokens[i].kind != EOF && |full.tokens[i].lexeme| > 0
  {
    var full := ScanFrom(source, 0, 1, mode);
    ScanLayout(source, 0, 1, mode);
    forall i | 0 <= i < |full.tokens|
      ensures full.tokens[i].kind != EOF && |full.tokens[i].lexeme| > 0
    {
      assert Placed(source, 0, 1, full, i);
    }
  }

  /** `ScanTokens`: scan until the end, then append one end-of-file token
      with an empty lexeme on the last line. Its result is the reference
      scan followed by that token, so the token list has exactly one
      end-of-file token and it is last. */
  method ScanTokens(source: string, mode: KeywordMode) returns (tokens: seq<Token>, errors: seq<ScanError>)
    ensures var full := ScanFrom(source, 0, 1, mode);
            tokens == full.tokens + [Token(EOF, "", NoLiteral, full.line)] && errors == full.errors
    ensures |tokens| > 0 && tokens[|tokens| - 1] == Token(EOF, "", NoLiteral, 1 + Newlines(source))
    ensures forall i :: 0 <= i < |tokens| - 1 ==> tokens[i].kind != EOF && |tokens[i].lexeme| > 0
  {
    ghost var full := ScanFrom(source, 0, 1, mode);
    tokens, errors := [], [];
    var current, line := 0, 1;
    while current < |source|
      invariant current <= |source|
      invariant var rest := ScanFrom(source, current, line, mode);
                tokens + rest.tokens == full.tokens && errors + rest.errors == full.errors
                && rest.line == full.line
      decreases |source| - current
    {
      var step := ScanToken(source, current, line, mode);
      PrependAppends(tokens, errors, step, current, ScanFrom(source, step.next, step.line, mode));
      tokens, errors := tokens + Emitted(step), errors + Reported(step);
      current, line := step.next, step.line;
    }
    assert source[0..] == source;
    ScanLayout(source, 0, 1, mode);
    ScannedTokensAreLexemes(source, mode);
    tokens := tokens + [Token(EOF, "", NoLiteral, line)];
  }
}
