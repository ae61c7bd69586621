/** The debugging printer: a parenthesised prefix rendering of expressions,
    and of the statements it has a rendering for. It is lossy by design: an
    assignment shows only its value, a call only its callee, and a logical
    expression only its operator's kind. */
module AstPrinter {
  import opened Tokens
  import opened Wrappers
  import opened Ast
  import opened Values
  import opened Operators

  /** How the host renders what the printer interpolates without a rule of
      its own: a number literal (`double.ToString`) and a token (the token's
      `ToString`, which property accesses print). */
  datatype Rendering = Rendering(number: real -> string, token: Token -> string)

  /** The parts, each preceded by one space. */
  function Spaced(parts: seq<string>): string
  {
    if |parts| == 0 then "" else Spaced(parts[..|parts| - 1]) + " " + parts[|parts| - 1]
  }

  /** `Parenthesize`: an opening parenthesis, the name, each part after a
      space, a closing parenthesis. The parts are the printed operands. */
  function Parenthesize(name: string, parts: seq<string>): (r: string)
    ensures |r| >= 2 + |name| && r[0] == '(' && r[|r| - 1] == ')' && r[1..1 + |name|] == name
  {
    "(" + name + Spaced(parts) + ")"
  }

  /** `Parenthesize` as the source builds it, appending to a buffer in a
      loop; it yields the closed form. */
  method ParenthesizeWithBuilder(name: string, parts: seq<string>) returns (r: string)
    ensures r == Parenthesize(name, parts)
    ensures |r| == 2 + |name| + |parts| + TotalLength(parts)
  {
    var builder := "(" + name;
    var i := 0;
    while i < |parts|
      invariant i <= |parts|
      invariant builder == "(" + name + Spaced(parts[..i])
      invariant |builder| == 1 + |name| + i + TotalLength(parts[..i])
    {
      assert parts[..i + 1][..i] == parts[..i];
      builder := builder + " ";
      builder := builder + parts[i];
      i := i + 1;
    }
    assert parts[..|parts|] == parts;
    r := builder + ")";
  }

  function TotalLength(parts: seq<string>): nat
  {
    if |parts| == 0 then 0 else TotalLength(parts[..|parts| - 1]) + |parts[|parts| - 1]|
  }

  /** A literal: `null` prints as `nil`, anything else as its `ToString`. */
  function PrintLiteral(value: LiteralValue, rd: Rendering): string
  {
    match value
    case LitNil => "nil"
    case LitBool(b) => if b then "True" else "False"
    case LitNum(n) => rd.number(n)
    case LitStr(s) => s
  }

  /** Every operator form (assignment, binary, call, grouping, unary) is
      wrapped in parentheses; the leaves and the lossy forms are not. */
  function PrintExpr(e: Expr, rd: Rendering): (r: string)
    ensures e.Assign? || e.Binary? || e.Call? || e.Grouping? || e.Unary? ==>
              |r| >= 2 && r[0] == '(' && r[|r| - 1] == ')'
    ensures e.Variable? || e.Get? || e.Set? || e.This? ==> |r| > 0 && r[0] != '('
  {
    match e
    case Assign(_, _, value) => Parenthesize("assignstmt", [PrintExpr(value, rd)])
    case Binary(left, op, right) => Parenthesize(op.lexeme, [PrintExpr(left, rd), PrintExpr(right, rd)])
    case Call(callee, _, _) => Parenthesize("call", [PrintExpr(callee, rd)])
    case Grouping(inner) => Parenthesize("group", [PrintExpr(inner, rd)])
    case Literal(value) => PrintLiteral(value, rd)
    case Unary(op, right) => Parenthesize(op.lexeme, [PrintExpr(right, rd)])
    case Variable(_, name) => "var:" + name.lexeme
    case Logical(_, op, _) => TokenTypeName(op.kind)
    case Get(_, name) => "Get-" + rd.token(name)
    case Set(_, name, _) => "Set-" + rd.token(name)
    case This(_) => "this"
  }

  /** The statements the printer renders; the others (class, function,
      return, while) throw, and so does a `var` without an initializer,
      whose missing operand is dereferenced: `None`. */
  function PrintStmt(s: Stmt, rd: Rendering): (r: Option<string>)
    ensures r.None? <==> s.Class? || s.Function? || s.Return? || s.While? || (s.Var? && s.initializer.None?)
  {
    match s
    case Block(_) => Some("block")
    case Expression(e) => Some(Parenthesize("exprstmt", [PrintExpr(e, rd)]))
    case If(condition, _, _) => Some(Parenthesize("ifstmt", [PrintExpr(condition, rd)]))
    case Print(e) => Some(Parenthesize("printstmt", [PrintExpr(e, rd)]))
    case Var(_, initializer) =>
      (match initializer
       case None => None
       case Some(e) => Some(Parenthesize("varstmt", [PrintExpr(e, rd)])))
    case Class(_, _) => None
    case Function(_) => None
    case Return(_, _) => None
    case While(_, _) => None
  }

  // ----- Properties -----

  /** One and two operands, spelled out. */
  lemma ParenthesizeShapes(name: string, a: string, b: string)
    ensures Parenthesize(name, []) == "(" + name + ")"
    ensures Parenthesize(name, [a]) == "(" + name + " " + a + ")"
    ensures Parenthesize(name, [a, b]) == "(" + name + " " + a + " " + b + ")"
  {
    assert [a][..0] == [] && [a, b][..1] == [a];
  }

  /** A binary expression prints as `(op left right)`. */
  lemma BinaryForm(left: Expr, op: Token, right: Expr, rd: Rendering)
    ensures PrintExpr(Binary(left, op, right), rd) == "(" + op.lexeme + " " + PrintExpr(left, rd) + " " + PrintExpr(right, rd) + ")"
  {
    ParenthesizeShapes(op.lexeme, PrintExpr(left, rd), PrintExpr(right, rd));
  }

  /** A unary expression prints as `(op right)`. */
  lemma UnaryForm(op: Token, right: Expr, rd: Rendering)
    ensures PrintExpr(Unary(op, right), rd) == "(" + op.lexeme + " " + PrintExpr(right, rd) + ")"
  {
    NamedForm(op.lexeme, PrintExpr(right, rd));
  }

  /** A grouping prints as `(group inner)`. */
  lemma GroupingForm(inner: Expr, rd: Rendering)
    ensures PrintExpr(Grouping(inner), rd) == "(group " + PrintExpr(inner, rd) + ")"
  {
    NamedForm("group", PrintExpr(inner, rd));
  }

  /** A one-operand form with a fixed name reads as the name glued to the
      opening parenthesis. */
  lemma NamedForm(name: string, operand: string)
    ensures Parenthesize(name, [operand]) == "(" + name + " " + operand + ")"
  {
    ParenthesizeShapes(name, operand, "");
  }

  /** What the printer drops: an assignment's target, a call's arguments and
      parenthesis token, and both operands of a logical expression. Two
      trees that differ only there print the same. */
  lemma LossyForms(rd: Rendering, id1: nat, id2: nat, n1: Token, n2: Token, value: Expr,
                   callee: Expr, p1: Token, p2: Token, args1: seq<Expr>, args2: seq<Expr>,
                   a: Expr, b: Expr, c: Expr, d: Expr, op: Token)
    ensures PrintExpr(Assign(id1, n1, value), rd) == PrintExpr(Assign(id2, n2, value), rd)
    ensures PrintExpr(Call(callee, p1, args1), rd) == PrintExpr(Call(callee, p2, args2), rd)
    ensures PrintExpr(Logical(a, op, b), rd) == PrintExpr(Logical(c, op, d), rd) == TokenTypeName(op.kind)
  {
  }

  /** An assignment prints as `(assignstmt value)`. */
  lemma AssignForm(rd: Rendering, id: nat, name: Token, value: Expr)
    ensures PrintExpr(Assign(id, name, value), rd) == "(assignstmt " + PrintExpr(value, rd) + ")"
  {
    NamedForm("assignstmt", PrintExpr(value, rd));
  }

  /** A call prints as `(call callee)`. */
  lemma CallForm(rd: Rendering, callee: Expr, paren: Token, args: seq<Expr>)
    ensures PrintExpr(Call(callee, paren, args), rd) == "(call " + PrintExpr(callee, rd) + ")"
  {
    NamedForm("call", PrintExpr(callee, rd));
  }

  /** A literal other than a number prints as `print` would print the value
      it denotes; a number prints as the host's full text, without the
      ".0" trimming `print` applies. */
  lemma LiteralsPrintLikeValues(value: LiteralValue, rd: Rendering, show: real -> string)
    requires show == rd.number
    ensures !value.LitNum? ==> PrintLiteral(value, rd) == Stringify(FromLiteral(value), show)
    ensures value.LitNum? ==> PrintLiteral(value, rd) == show(value.n)
  {
  }

  /** The leaves: `nil`, a variable as `var:` and its name. */
  lemma LeafForms(id: nat, name: Token, rd: Rendering)
    ensures PrintExpr(Literal(LitNil), rd) == "nil"
    ensures PrintExpr(Variable(id, name), rd) == "var:" + name.lexeme
    ensures PrintExpr(Literal(LitStr(name.lexeme)), rd) == name.lexeme
  {
  }
}
