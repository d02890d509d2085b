/** The expression tree the parser builds (src/ast.rs). Identifiers and string
    payloads are the text they stand for; `InternedStr` handles are modelled
    by the interner module. `BinOp` has the three fields the parser's tests build. */
module Ast {

  /** The float payload is kept as its digit text; floating point is not modelled. */
  datatype Literal = Integer(value: int) | Float(text: string) | String(text: string)

  datatype Pattern = Constructor(name: string, fields: seq<string>) | IdentifierPattern(name: string)

  datatype Alternative = Alternative(pattern: Pattern, expression: Expr)

  datatype Expr =
    | Identifier(name: string)
    | Literal(literal: Literal)
    | Call(callee: string, arguments: seq<Expr>)
    | IfElse(condition: Expr, thenBranch: Expr, elseBranch: Expr)
    | Match(scrutinee: Expr, alternatives: seq<Alternative>)
    | Block(items: seq<Expr>)
    | BinOp(lhs: Expr, op: string, rhs: Expr)
    | Let(name: string, value: Expr)
}
