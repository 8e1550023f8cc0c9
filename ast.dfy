/** The AST node types of parse.go:11-44, as a closed family of values. */
module Ast {

  /** NumberExprAST, VariableExprAST, BinaryExprAST and CallExprAST. */
  datatype Expr =
    | Number(val: string)
    | Variable(name: string)
    | Binary(op: char, lhs: Expr, rhs: Expr)
    | Call(callee: string, args: seq<Expr>)

  /** PrototypeAST: a name and its parameter names, in order. */
  datatype Prototype = Prototype(name: string, args: seq<string>)

  /** FunctionAST: one prototype and one body expression. */
  datatype Function = Function(proto: Prototype, body: Expr)

  /** What a top-level parse hands back when it is not nil. */
  datatype Decl = FunctionDecl(f: Function) | PrototypeDecl(p: Prototype)

  /** The prototype `ParseTopLevelExpr` wraps a bare expression in. */
  const AnonName: string := "__anon"
}
