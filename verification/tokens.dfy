/** Tokens produced by the scanner and carried by the syntax tree, and the
    runtime error value that points back at the offending token. */
module Tokens {

  /** The token kinds, in the order of the classic Lox `TokenType` enumeration.
      The order matters: the first member is what `default(TokenType)` yields. */
  datatype TokenType =
    // Single-character tokens.
    | LEFT_PAREN | RIGHT_PAREN | LEFT_BRACE | RIGHT_BRACE
    | COMMA | DOT | MINUS | PLUS | SEMICOLON | SLASH | STAR
    // One or two character tokens.
    | BANG | BANG_EQUAL | EQUAL | EQUAL_EQUAL
    | GREATER | GREATER_EQUAL | LESS | LESS_EQUAL
    // Literals.
    | IDENTIFIER | STRING | NUMBER
    // Keywords.
    | AND | CLASS | ELSE | FALSE | FUN | FOR | IF | NIL | OR
    | PRINT | RETURN | SUPER | THIS | TRUE | VAR | WHILE
    | EOF

  /** The value of `default(TokenType)`: the first enumeration member. */
  const DefaultTokenType: TokenType := LEFT_PAREN

  /** The literal a token carries: none, the text of a number (its parsed
      floating-point value is not modelled), or the contents of a string. */
  datatype TokenLiteral = NoLiteral | NumberText(text: string) | StringText(value: string)

  datatype Token = Token(kind: TokenType, lexeme: string, literal: TokenLiteral, line: int)

  /** The lexemes of a token list, in order. */
  function Lexemes(tokens: seq<Token>): (r: seq<string>)
    ensures |r| == |tokens|
    ensures forall i :: 0 <= i < |tokens| ==> r[i] == tokens[i].lexeme
  {
    seq(|tokens|, i requires 0 <= i < |tokens| => tokens[i].lexeme)
  }

  /** No name occurs twice. */
  predicate NoDuplicates(names: seq<string>)
  {
    forall i, j :: 0 <= i < j < |names| ==> names[i] != names[j]
  }

  /** A Lox runtime error: the token it is reported against and its message. */
  datatype RuntimeError = RuntimeError(token: Token, message: string)

  /** The name an enumeration member prints as (`Enum.ToString()`). */
  function TokenTypeName(t: TokenType): (r: string)
    ensures |r| > 0
  {
    match t
    case LEFT_PAREN => "LEFT_PAREN"
    case RIGHT_PAREN => "RIGHT_PAREN"
    case LEFT_BRACE => "LEFT_BRACE"
    case RIGHT_BRACE => "RIGHT_BRACE"
    case COMMA => "COMMA"
    case DOT => "DOT"
    case MINUS => "MINUS"
    case PLUS => "PLUS"
    case SEMICOLON => "SEMICOLON"
    case SLASH => "SLASH"
    case STAR => "STAR"
    case BANG => "BANG"
    case BANG_EQUAL => "BANG_EQUAL"
    case EQUAL => "EQUAL"
    case EQUAL_EQUAL => "EQUAL_EQUAL"
    case GREATER => "GREATER"
    case GREATER_EQUAL => "GREATER_EQUAL"
    case LESS => "LESS"
    case LESS_EQUAL => "LESS_EQUAL"
    case IDENTIFIER => "IDENTIFIER"
    case STRING => "STRING"
    case NUMBER => "NUMBER"
    case AND => "AND"
    case CLASS => "CLASS"
    case ELSE => "ELSE"
    case FALSE => "FALSE"
    case FUN => "FUN"
    case FOR => "FOR"
    case IF => "IF"
    case NIL => "NIL"
    case OR => "OR"
    case PRINT => "PRINT"
    case RETURN => "RETURN"
    case SUPER => "SUPER"
    case THIS => "THIS"
    case TRUE => "TRUE"
    case VAR => "VAR"
    case WHILE => "WHILE"
    case EOF => "EOF"
  }
}
