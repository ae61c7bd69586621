/** The syntax tree the parser hands to the resolver and the interpreter.

    Nodes are immutable values. The resolver's side table is keyed on the two
    node kinds it ever records a distance for, variable reads and assignments,
    so those carry an `id` that the parser makes unique per node; two
    syntactically identical references at different places therefore never
    share an entry. */
module Ast {
  import opened Tokens
  import opened Wrappers

  /** The value a literal node holds: `null`, a boolean, a number, or a string. */
  datatype LiteralValue = LitNil | LitBool(b: bool) | LitNum(n: real) | LitStr(s: string)

  datatype Expr =
    | Assign(id: nat, name: Token, value: Expr)
    | Binary(left: Expr, op: Token, right: Expr)
    | Call(callee: Expr, paren: Token, arguments: seq<Expr>)
    | Get(obj: Expr, name: Token)
    | Grouping(expression: Expr)
    | Literal(literal: LiteralValue)
    | Logical(left: Expr, op: Token, right: Expr)
    | Set(obj: Expr, name: Token, value: Expr)
    | This(keyword: Token)
    | Unary(op: Token, right: Expr)
    | Variable(id: nat, name: Token)

  /** A function declaration: its name token, parameter tokens and body. */
  datatype FunDecl = FunDecl(name: Token, params: seq<Token>, body: seq<Stmt>)

  /** Statements. An absent `else` branch, initializer or return value (a
      `null` field in the source) is `None`. */
  datatype Stmt =
    | Block(statements: seq<Stmt>)
    | Class(name: Token, methods: seq<FunDecl>)
    | Expression(expression: Expr)
    | Function(decl: FunDecl)
    | If(condition: Expr, thenBranch: Stmt, elseBranch: Option<Stmt>)
    | Print(expression: Expr)
    | Return(keyword: Token, value: Option<Expr>)
    | Var(name: Token, initializer: Option<Expr>)
    | While(condition: Expr, body: Stmt)
}
