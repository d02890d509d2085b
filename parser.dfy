/** The precedence-climbing expression parser (src/parser.rs), over the token
    stream its lexer hands out. The stream is a token sequence and a cursor
    counting the tokens handed out so far; past the end of the sequence the
    stream yields `TEOF`, as the lexer does at the end of its input. */
module Parsing {
  import opened Wrappers
  import opened Ast
  import opened Lexing

  /** Token `k` of the stream. */
  function At(ts: seq<Token>, k: nat): (t: Token)
    ensures k < |ts| ==> t == ts[k]
    ensures k >= |ts| ==> t == TEOF
  {
    if k < |ts| then ts[k] else TEOF
  }

  /** The two errors `expect!` and `sub_expression` report. */
  datatype ParseError =
    | UnexpectedToken(token: Token)
    | DoesNotStartExpression(token: Token)

  /** A parse result and the cursor after it. */
  datatype Parsed<T> = Parsed(result: T, cursor: nat)

  /** What `statement` returns: the expression and whether it is terminated. */
  datatype Stmt = Stmt(expr: Expr, terminated: bool)

  /** `precedence`: how tightly an operator binds, decided on its characters
      (`PrecedenceTable` spells the table out operator by operator). */
  function Precedence(op: string): (p: int)
    ensures p == 1 || p == 3 || p == 9
  {
    if |op| == 1 && (op[0] == '*' || op[0] == '/' || op[0] == '%') then 3
    else if |op| == 1 && (op[0] == '+' || op[0] == '-' || op[0] == '<' || op[0] == '>') then 1
    else if |op| == 2 && op[1] == '=' && (op[0] == '=' || op[0] == '/' || op[0] == '<' || op[0] == '>') then 1
    else 9
  }

  /** The precedence table: `* / %` bind at 3, `+ - == /= < > <= >=` at 1
      and every other operator at 9. */
  lemma PrecedenceTable(op: string)
    ensures Precedence(op) == 3 <==> op == "*" || op == "/" || op == "%"
    ensures Precedence(op) == 1 <==> || op == "+" || op == "-" || op == "==" || op == "/="
                                     || op == "<" || op == ">" || op == "<=" || op == ">="
    ensures Precedence(op) == 9 <==> !(op == "*" || op == "/" || op == "%" || op == "+" || op == "-"
                                     || op == "==" || op == "/=" || op == "<" || op == ">" || op == "<=" || op == ">=")
  {
  }

  /** `is_statement`: an expression that needs no `;` after it. Names,
      literals, calls, operator trees and `let`s all need one. */
  predicate IsStatement(e: Expr)
    ensures IsStatement(e) <==> !(e.Identifier? || e.Literal? || e.Call? || e.BinOp? || e.Let?)
  {
    e.IfElse? || e.Match? || e.Block?
  }

  /** The tokens `sub_expression` accepts as the start of an expression. */
  predicate StartsExpression(t: Token)
  {
    t.TIdentifier? || t == TOpenParen || t == TOpenBrace || t.TInteger? || t.TFloat? || t.TString?
  }

  /** An operator token that binds at least as tightly as `min`. */
  predicate OperatorAtLeast(t: Token, min: int)
  {
    t.TOperator? && Precedence(t.op) >= min
  }

  /** A `DoesNotStartExpression` error only ever names a token that does not
      start an expression. */
  predicate Sound<T>(r: Result<T, ParseError>)
  {
    r.Err? && r.error.DoesNotStartExpression? ==> !StartsExpression(r.error.token)
  }

  // The parse of the stream from cursor `k`, one function per method of the
  // parser and one per loop of `binary_expression`. Each result that succeeds
  // has consumed at least one token and stays within the sequence.

  /** `sub_expression` from cursor `k`: a name, a parenthesised expression,
      a block or a literal; any other token is put back and reported. */
  function ParseSub(ts: seq<Token>, k: nat): (r: Result<Parsed<Expr>, ParseError>)
    requires k <= |ts|
    ensures r.Ok? ==> k < r.value.cursor <= |ts| && StartsExpression(At(ts, k))
    ensures Sound(r)
    ensures r == Err(DoesNotStartExpression(At(ts, k))) <==> !StartsExpression(At(ts, k))
    decreases |ts| + 2 - k, 0
  {
    match At(ts, k)
    case TIdentifier(id) => Ok(Parsed(Identifier(id), k + 1))
    case TOpenParen =>
      var e := ParseExpression(ts, k + 1);
      if e.Err? then Err(e.error)
      else if At(ts, e.value.cursor) == TCloseParen then Ok(Parsed(e.value.result, e.value.cursor + 1))
      else Err(UnexpectedToken(At(ts, e.value.cursor)))
    case TOpenBrace => ParseItems(ts, k + 1, [])
    case TInteger(i) => Ok(Parsed(Literal(Integer(i)), k + 1))
    case TFloat(f) => Ok(Parsed(Literal(Float(f)), k + 1))
    case TString(s) => Ok(Parsed(Literal(String(s)), k + 1))
    case t => Err(DoesNotStartExpression(t))
  }

  /** The statement loop of a block: statements are collected after `acc`
      until the first unterminated one, which must be followed by `}`. */
  function ParseItems(ts: seq<Token>, k: nat, acc: seq<Expr>): (r: Result<Parsed<Expr>, ParseError>)
    requires k <= |ts|
    ensures r.Ok? ==> k < r.value.cursor <= |ts| && r.value.result.Block?
    ensures r.Ok? ==> |r.value.result.items| > |acc| && r.value.result.items[..|acc|] == acc
    ensures Sound(r)
    decreases |ts| + 2 - k, 5
  {
    var s := ParseStatement(ts, k);
    if s.Err? then Err(s.error)
    else
      var items := acc + [s.value.result.expr];
      if s.value.result.terminated then ParseItems(ts, s.value.cursor, items)
      else if At(ts, s.value.cursor) == TCloseBrace then Ok(Parsed(Block(items), s.value.cursor + 1))
      else Err(UnexpectedToken(At(ts, s.value.cursor)))
  }

  /** `statement` from cursor `k`. */
  function ParseStatement(ts: seq<Token>, k: nat): (r: Result<Parsed<Stmt>, ParseError>)
    requires k <= |ts|
    ensures r.Ok? ==> k < r.value.cursor <= |ts|
    ensures Sound(r)
    decreases |ts| + 2 - k, 4
  {
    if At(ts, k) == TLet then
      var id := At(ts, k + 1);
      if !id.TIdentifier? then Err(UnexpectedToken(id))
      else if At(ts, k + 2) != TAssign then Err(UnexpectedToken(At(ts, k + 2)))
      else
        var e := ParseExpression(ts, k + 3);
        if e.Err? then Err(e.error)
        else if At(ts, e.value.cursor) != TSemicolon then Err(UnexpectedToken(At(ts, e.value.cursor)))
        else Ok(Parsed(Stmt(Let(id.name, e.value.result), true), e.value.cursor + 1))
    else
      var e := ParseExpression(ts, k);
      if e.Err? then Err(e.error)
      else if IsStatement(e.value.result) then Ok(Parsed(Stmt(e.value.result, true), e.value.cursor))
      else if At(ts, e.value.cursor) == TSemicolon then Ok(Parsed(Stmt(e.value.result, true), e.value.cursor + 1))
      else Ok(Parsed(Stmt(e.value.result, false), e.value.cursor))
  }

  /** `expression` from cursor `k`: an operand, then the operators that bind
      at least as tightly as precedence 0. */
  function ParseExpression(ts: seq<Token>, k: nat): (r: Result<Parsed<Expr>, ParseError>)
    requires k <= |ts|
    ensures r.Ok? ==> k < r.value.cursor <= |ts|
    ensures Sound(r)
    decreases |ts| + 2 - k, 3
  {
    var s := ParseSub(ts, k);
    if s.Err? then Err(s.error) else ParseOuter(ts, s.value.cursor, s.value.result, 0)
  }

  // `binary_expression` first hands out the token after its left operand and
  // then loops with that token current; `ParseOuter` and `ParseInner` take the
  // cursor `k` from before it, so the token they look at is `At(ts, k)`, and
  // they return the cursor after `binary_expression`'s final `backtrack`.

  /** The outer loop of `binary_expression`: an operator binding at least as
      tightly as `min` takes the next operand as its right-hand side; anything
      else is put back and ends the loop. */
  function ParseOuter(ts: seq<Token>, k: nat, lhs: Expr, min: int): (r: Result<Parsed<Expr>, ParseError>)
    requires k <= |ts|
    ensures r.Ok? ==> k <= r.value.cursor <= |ts|
    ensures r.Ok? && OperatorAtLeast(At(ts, k), min) ==> r.value.cursor >= k + 2
    ensures Sound(r)
    decreases |ts| + 2 - k, 1
  {
    var t := At(ts, k);
    if OperatorAtLeast(t, min) then
      var rhs := ParseSub(ts, k + 1);
      if rhs.Err? then Err(rhs.error)
      else ParseInner(ts, rhs.value.cursor, lhs, t.op, Precedence(t.op), rhs.value.result, min)
    else Ok(Parsed(lhs, k))
  }

  /** The inner loop of `binary_expression`, with `lhs op rhs` pending at
      precedence `prec`: an operator binding at least as tightly as `op` is
      folded into `rhs`; otherwise the pending operation is built and the
      outer loop goes on. */
  function ParseInner(ts: seq<Token>, k: nat, lhs: Expr, op: string, prec: int, rhs: Expr, min: int)
    : (r: Result<Parsed<Expr>, ParseError>)
    requires k <= |ts|
    ensures r.Ok? ==> k <= r.value.cursor <= |ts|
    ensures Sound(r)
    decreases |ts| + 2 - k, 2
  {
    var t := At(ts, k);
    if OperatorAtLeast(t, prec) then
      var folded := ParseOuter(ts, k, rhs, Precedence(t.op));
      if folded.Err? then Err(folded.error)
      else ParseInner(ts, folded.value.cursor, lhs, op, prec, folded.value.result, min)
    else ParseOuter(ts, k, BinOp(lhs, op, rhs), min)
  }

  /** One turn of the outer loop of `binary_expression`. */
  lemma OuterStep(ts: seq<Token>, k: nat, lhs: Expr, min: int)
    requires k <= |ts| && OperatorAtLeast(At(ts, k), min)
    ensures k + 1 <= |ts|
    ensures var rhs := ParseSub(ts, k + 1);
      && (rhs.Err? ==> ParseOuter(ts, k, lhs, min) == Err(rhs.error))
      && (rhs.Ok? ==> ParseOuter(ts, k, lhs, min)
                      == ParseInner(ts, rhs.value.cursor, lhs, At(ts, k).op, Precedence(At(ts, k).op), rhs.value.result, min))
  {
  }

  /** One turn of the inner loop of `binary_expression`. */
  lemma InnerStep(ts: seq<Token>, k: nat, lhs: Expr, op: string, prec: int, rhs: Expr, min: int, lookahead: int)
    requires k <= |ts| && OperatorAtLeast(At(ts, k), prec) && lookahead == Precedence(At(ts, k).op)
    ensures var folded := ParseOuter(ts, k, rhs, lookahead);
      && (folded.Err? ==> ParseInner(ts, k, lhs, op, prec, rhs, min) == Err(folded.error))
      && (folded.Ok? ==> k + 2 <= folded.value.cursor <= |ts|
                         && ParseInner(ts, k, lhs, op, prec, rhs, min)
                            == ParseInner(ts, folded.value.cursor, lhs, op, prec, folded.value.result, min))
  {
  }

  /** A method's result `r`, with the cursor `c` it leaves, is the one the
      specification function computed. */
  predicate Follows<T(==)>(r: Result<T, ParseError>, spec: Result<Parsed<T>, ParseError>, c: nat)
  {
    if spec.Ok? then r == Ok(spec.value.result) && c == spec.value.cursor
    else r == Err(spec.error)
  }

  /** `Parser`: the token stream the parser pulls from its lexer, and the
      cursor that `next` advances and `backtrack` moves back. */
  class Parser {
    const tokens: seq<Token>
    var cursor: nat

    /** `Parser::new`: nothing consumed yet. */
    constructor (ts: seq<Token>)
      ensures tokens == ts && cursor == 0
    {
      tokens := ts;
      cursor := 0;
    }

    /** The lexer's `next`: hand out the token at the cursor. */
    method Next() returns (t: Token)
      modifies this`cursor
      ensures t == At(tokens, old(cursor)) && cursor == old(cursor) + 1
    {
      t := At(tokens, cursor);
      cursor := cursor + 1;
    }

    /** The lexer's `current`: the token handed out last, `TEOF` once the
        stream has run out. */
    function Current(): (t: Token)
      reads this
      requires cursor > 0
      ensures cursor <= |tokens| ==> t == tokens[cursor - 1]
      ensures cursor > |tokens| ==> t == TEOF
    {
      At(tokens, cursor - 1)
    }

    /** The lexer's `peek` (as corrected in the lexing module): the token
        `next` will hand out. */
    function Peek(): (t: Token)
      reads this
      ensures cursor < |tokens| ==> t == tokens[cursor]
      ensures cursor >= |tokens| ==> t == TEOF
    {
      At(tokens, cursor)
    }

    /** The lexer's `backtrack`. */
    method Backtrack()
      requires cursor > 0
      modifies this`cursor
      ensures cursor == old(cursor) - 1
    {
      cursor := cursor - 1;
    }

    /** `statement`. */
    method Statement() returns (r: Result<Stmt, ParseError>)
      requires cursor <= |tokens|
      modifies this`cursor
      ensures Follows(r, ParseStatement(tokens, old(cursor)), cursor)
      decreases |tokens| + 2 - cursor, 4
    {
      if Peek() == TLet {
        var _ := Next();
        var id := Next();
        if !id.TIdentifier? {
          return Err(UnexpectedToken(id));
        }
        var assign := Next();
        if assign != TAssign {
          return Err(UnexpectedToken(assign));
        }
        var e := Expression();
        if e.Err? {
          return Err(e.error);
        }
        var semicolon := Next();
        if semicolon != TSemicolon {
          return Err(UnexpectedToken(semicolon));
        }
        r := Ok(Stmt(Let(id.name, e.value), true));
      } else {
        var e := Expression();
        if e.Err? {
          return Err(e.error);
        }
        if IsStatement(e.value) {
          r := Ok(Stmt(e.value, true));
        } else if Peek() == TSemicolon {
          var _ := Next();
          r := Ok(Stmt(e.value, true));
        } else {
          r := Ok(Stmt(e.value, false));
        }
      }
    }

    /** `expression`. */
    method Expression() returns (r: Result<Expr, ParseError>)
      requires cursor <= |tokens|
      modifies this`cursor
      ensures Follows(r, ParseExpression(tokens, old(cursor)), cursor)
      decreases |tokens| + 2 - cursor, 3
    {
      var e := SubExpression();
      if e.Err? {
        return Err(e.error);
      }
      r := BinaryExpression(e.value, 0);
    }

    /** `sub_expression`. */
    method SubExpression() returns (r: Result<Expr, ParseError>)
      requires cursor <= |tokens|
      modifies this`cursor
      ensures Follows(r, ParseSub(tokens, old(cursor)), cursor)
      ensures !StartsExpression(At(tokens, old(cursor))) ==> cursor == old(cursor)
      decreases |tokens| + 2 - cursor, 0
    {
      ghost var k := cursor;
      var t := Next();
      match t
      case TIdentifier(id) =>
        r := Ok(Identifier(id));
      case TOpenParen =>
        var e := Expression();
        if e.Err? {
          return Err(e.error);
        }
        var close := Next();
        if close != TCloseParen {
          return Err(UnexpectedToken(close));
        }
        r := Ok(e.value);
      case TOpenBrace =>
        var items: seq<Expr> := [];
        while true
          invariant k < cursor <= |tokens|
          invariant ParseItems(tokens, cursor, items) == ParseSub(tokens, k)
          decreases |tokens| + 2 - cursor
        {
          var s := Statement();
          if s.Err? {
            return Err(s.error);
          }
          items := items + [s.value.expr];
          if !s.value.terminated {
            break;
          }
        }
        var close := Next();
        if close != TCloseBrace {
          return Err(UnexpectedToken(close));
        }
        r := Ok(Block(items));
      case TInteger(i) =>
        r := Ok(Literal(Integer(i)));
      case TFloat(f) =>
        r := Ok(Literal(Float(f)));
      case TString(s) =>
        r := Ok(Literal(String(s)));
      case _ =>
        Backtrack();
        r := Err(DoesNotStartExpression(t));
    }

    /** `binary_expression`: the operators after `inL` that bind at least as
        tightly as `min`, by precedence climbing. The outer loop is here, its
        inner loop is `FoldTighter`. */
    method BinaryExpression(inL: Expr, min: int) returns (r: Result<Expr, ParseError>)
      requires cursor <= |tokens|
      modifies this`cursor
      ensures Follows(r, ParseOuter(tokens, old(cursor), inL, min), cursor)
      decreases |tokens| + 2 - cursor, 3
    {
      ghost var goal := ParseOuter(tokens, cursor, inL, min);
      ghost var k := cursor;
      var lhs := inL;
      var _ := Next();
      while true
        invariant k <= |tokens| && cursor == k + 1 && k >= old(cursor)
        invariant ParseOuter(tokens, k, lhs, min) == goal
        decreases |tokens| + 2 - k
      {
        var t := Current();
        if !OperatorAtLeast(t, min) {
          break;
        }
        var built := OuterTurn(k, lhs, min);
        if built.Err? {
          return Err(built.error);
        }
        k := cursor - 1;
        lhs := built.value;
      }
      OuterEnds(tokens, k, lhs, min);
      Backtrack();
      r := Ok(lhs);
    }

    /** One turn of the outer loop of `binary_expression`, with the operator
        at `k` current and binding at least `min`: the operand after it, the
        inner loop folding tighter operators into it, and `lhs op rhs` built.
        The outer loop then goes on from the token after `rhs`. */
    method OuterTurn(ghost k: nat, lhs: Expr, min: int) returns (r: Result<Expr, ParseError>)
      requires k <= |tokens| && cursor == k + 1 && OperatorAtLeast(At(tokens, k), min)
      modifies this`cursor
      ensures r.Err? ==> ParseOuter(tokens, k, lhs, min) == Err(r.error)
      ensures r.Ok? ==> k + 2 < cursor <= |tokens| + 1
                        && ParseOuter(tokens, k, lhs, min) == ParseOuter(tokens, cursor - 1, r.value, min)
      decreases |tokens| + 2 - k, 2
    {
      var t := Current();
      var op, prec := t.op, Precedence(t.op);
      OuterStep(tokens, k, lhs, min);
      var sub := SubExpression();
      if sub.Err? {
        return Err(sub.error);
      }
      ghost var j := cursor;
      var _ := Next();
      var rhs := FoldTighter(k, j, lhs, op, prec, sub.value, min);
      if rhs.Err? {
        return Err(rhs.error);
      }
      r := Ok(BinOp(lhs, op, rhs.value));
    }

    /** The inner loop of `binary_expression`, with `lhs op rhs` pending at
        precedence `prec` and the token after `rhs` current: each following
        operator that binds at least as tightly as `op` is folded into the
        right-hand side by a recursive `binary_expression`. (`start`, the
        cursor before `op`, only measures the recursion; `k` is the cursor
        before the current token.) */
    method FoldTighter(ghost start: nat, ghost k0: nat, lhs: Expr, op: string, prec: int, rhs: Expr, min: int)
      returns (r: Result<Expr, ParseError>)
      requires start + 2 <= k0 <= |tokens| && cursor == k0 + 1
      modifies this`cursor
      ensures r.Ok? ==> k0 < cursor <= |tokens| + 1
                        && ParseInner(tokens, k0, lhs, op, prec, rhs, min)
                           == ParseOuter(tokens, cursor - 1, BinOp(lhs, op, r.value), min)
      ensures r.Err? ==> ParseInner(tokens, k0, lhs, op, prec, rhs, min) == Err(r.error)
      decreases |tokens| + 2 - start, 1
    {
      ghost var goal := ParseInner(tokens, k0, lhs, op, prec, rhs, min);
      ghost var k := k0;
      var folding := rhs;
      while true
        invariant k0 <= k <= |tokens| && cursor == k + 1
        invariant ParseInner(tokens, k, lhs, op, prec, folding, min) == goal
        decreases |tokens| + 2 - k
      {
        var u := Current();
        if !OperatorAtLeast(u, prec) {
          break;
        }
        var folded := InnerTurn(start, k, lhs, op, prec, folding, min);
        if folded.Err? {
          return Err(folded.error);
        }
        k := cursor - 1;
        folding := folded.value;
      }
      InnerEnds(tokens, k, lhs, op, prec, folding, min);
      r := Ok(folding);
    }

    /** One turn of the inner loop of `binary_expression`, with the operator
        at `k` current and binding at least as tightly as the pending `op`:
        it is put back, and a recursive `binary_expression` at its precedence
        folds it, with what binds as tightly, into the right-hand side. */
    method InnerTurn(ghost start: nat, ghost k: nat, lhs: Expr, op: string, prec: int, rhs: Expr, min: int)
      returns (r: Result<Expr, ParseError>)
      requires start + 2 <= k <= |tokens| && cursor == k + 1 && OperatorAtLeast(At(tokens, k), prec)
      modifies this`cursor
      ensures r.Err? ==> ParseInner(tokens, k, lhs, op, prec, rhs, min) == Err(r.error)
      ensures r.Ok? ==> k + 2 < cursor <= |tokens| + 1
                        && ParseInner(tokens, k, lhs, op, prec, rhs, min)
                           == ParseInner(tokens, cursor - 1, lhs, op, prec, r.value, min)
      decreases |tokens| + 2 - start, 0
    {
      var u := Current();
      var lookahead := Precedence(u.op);
      InnerStep(tokens, k, lhs, op, prec, rhs, min, lookahead);
      Backtrack();
      r := BinaryExpression(rhs, lookahead);
      if r.Ok? {
        var _ := Next();
      }
    }
  }

  // One unfolding of each specification function, for chaining concrete
  // parses step by step.

  lemma OuterEnds(ts: seq<Token>, k: nat, lhs: Expr, min: int)
    requires k <= |ts| && !OperatorAtLeast(At(ts, k), min)
    ensures ParseOuter(ts, k, lhs, min) == Ok(Parsed(lhs, k))
  {
  }

  lemma InnerEnds(ts: seq<Token>, k: nat, lhs: Expr, op: string, prec: int, rhs: Expr, min: int)
    requires k <= |ts| && !OperatorAtLeast(At(ts, k), prec)
    ensures ParseInner(ts, k, lhs, op, prec, rhs, min) == ParseOuter(ts, k, BinOp(lhs, op, rhs), min)
  {
  }

  lemma OuterTakes(ts: seq<Token>, k: nat, lhs: Expr, min: int, op: string, rhs: Expr, c: nat)
    requires k < |ts| && At(ts, k) == TOperator(op) && Precedence(op) >= min
    requires ParseSub(ts, k + 1) == Ok(Parsed(rhs, c))
    ensures ParseOuter(ts, k, lhs, min) == ParseInner(ts, c, lhs, op, Precedence(op), rhs, min)
  {
  }

  lemma InnerFolds(ts: seq<Token>, k: nat, lhs: Expr, op: string, prec: int, rhs: Expr, min: int,
                   op2: string, folded: Expr, c: nat)
    requires k < |ts| && At(ts, k) == TOperator(op2) && Precedence(op2) >= prec
    requires ParseOuter(ts, k, rhs, Precedence(op2)) == Ok(Parsed(folded, c))
    ensures ParseInner(ts, k, lhs, op, prec, rhs, min) == ParseInner(ts, c, lhs, op, prec, folded, min)
  {
  }

  lemma ExpressionOf(ts: seq<Token>, k: nat, lhs: Expr, c: nat)
    requires k <= |ts| && ParseSub(ts, k) == Ok(Parsed(lhs, c))
    ensures ParseExpression(ts, k) == ParseOuter(ts, c, lhs, 0)
  {
  }

  // The two parses the repository's tests check, over token sequences written
  // out by hand for "1 / 4 + (2 - 3) * 2" and "1 / { let x = 2; x }"; they are
  // not derived from the lexing module.

  function Int(i: int): Expr
  {
    Literal(Integer(i))
  }

  const OperatorsTokens: seq<Token> :=
    [TInteger(1), TOperator("/"), TInteger(4), TOperator("+"), TOpenParen, TInteger(2),
     TOperator("-"), TInteger(3), TCloseParen, TOperator("*"), TInteger(2)]

  /** `OperatorsTokens`, token by token (`OperatorsTokensSpelled`). */
  ghost predicate SpellsOperators(ts: seq<Token>)
  {
    && |ts| == 11 && ts[0] == TInteger(1) && ts[1] == TOperator("/") && ts[2] == TInteger(4)
    && ts[3] == TOperator("+") && ts[4] == TOpenParen && ts[5] == TInteger(2) && ts[6] == TOperator("-")
    && ts[7] == TInteger(3) && ts[8] == TCloseParen && ts[9] == TOperator("*") && ts[10] == TInteger(2)
  }

  lemma OperatorsTokensSpelled()
    ensures SpellsOperators(OperatorsTokens)
  {
  }

  lemma OperatorsParenthesised(ts: seq<Token>)
    requires SpellsOperators(ts)
    ensures ParseSub(ts, 4) == Ok(Parsed(BinOp(Int(2), "-", Int(3)), 9))
  {
    var difference := BinOp(Int(2), "-", Int(3));
    OuterTakes(ts, 6, Int(2), 0, "-", Int(3), 8);
    InnerEnds(ts, 8, Int(2), "-", 1, Int(3), 0);
    OuterEnds(ts, 8, difference, 0);
    ExpressionOf(ts, 5, Int(2), 6);
  }

  lemma OperatorsProduct(ts: seq<Token>, difference: Expr)
    requires SpellsOperators(ts)
    ensures ParseOuter(ts, 9, difference, 3) == Ok(Parsed(BinOp(difference, "*", Int(2)), 11))
  {
    OuterTakes(ts, 9, difference, 3, "*", Int(2), 11);
    InnerEnds(ts, 11, difference, "*", 3, Int(2), 3);
    OuterEnds(ts, 11, BinOp(difference, "*", Int(2)), 3);
  }

  lemma OperatorsSum(ts: seq<Token>, quotient: Expr, difference: Expr, product: Expr)
    requires SpellsOperators(ts)
    requires ParseSub(ts, 4) == Ok(Parsed(difference, 9))
    requires ParseOuter(ts, 9, difference, 3) == Ok(Parsed(product, 11))
    ensures ParseOuter(ts, 3, quotient, 0) == Ok(Parsed(BinOp(quotient, "+", product), 11))
  {
    OuterTakes(ts, 3, quotient, 0, "+", difference, 9);
    InnerFolds(ts, 9, quotient, "+", 1, difference, 0, "*", product, 11);
    InnerEnds(ts, 11, quotient, "+", 1, product, 0);
    OuterEnds(ts, 11, BinOp(quotient, "+", product), 0);
  }

  /** The `operators` test: `/` and `*` bind tighter than `+`, and the
      parenthesised difference is one operand. */
  lemma ParseOperators(ts: seq<Token>)
    requires SpellsOperators(ts)
    ensures ParseExpression(ts, 0)
            == Ok(Parsed(BinOp(BinOp(Int(1), "/", Int(4)), "+", BinOp(BinOp(Int(2), "-", Int(3)), "*", Int(2))), 11))
  {
    var quotient := BinOp(Int(1), "/", Int(4));
    var difference := BinOp(Int(2), "-", Int(3));
    var product := BinOp(difference, "*", Int(2));
    OperatorsParenthesised(ts);
    OperatorsProduct(ts, difference);
    OperatorsSum(ts, quotient, difference, product);
    OuterTakes(ts, 1, Int(1), 0, "/", Int(4), 3);
    InnerEnds(ts, 3, Int(1), "/", 3, Int(4), 0);
    ExpressionOf(ts, 0, Int(1), 1);
  }

  const BlockTokens: seq<Token> :=
    [TInteger(1), TOperator("/"), TOpenBrace, TLet, TIdentifier("x"), TAssign, TInteger(2),
     TSemicolon, TIdentifier("x"), TCloseBrace]

  /** `BlockTokens`, token by token (`BlockTokensSpelled`). */
  ghost predicate SpellsBlock(ts: seq<Token>)
  {
    && |ts| == 10 && ts[0] == TInteger(1) && ts[1] == TOperator("/") && ts[2] == TOpenBrace
    && ts[3] == TLet && ts[4] == TIdentifier("x") && ts[5] == TAssign && ts[6] == TInteger(2)
    && ts[7] == TSemicolon && ts[8] == TIdentifier("x") && ts[9] == TCloseBrace
  }

  lemma BlockTokensSpelled()
    ensures SpellsBlock(BlockTokens)
  {
  }

  lemma BlockLet(ts: seq<Token>)
    requires SpellsBlock(ts)
    ensures ParseStatement(ts, 3) == Ok(Parsed(Stmt(Let("x", Int(2)), true), 8))
  {
    assert ParseExpression(ts, 6) == Ok(Parsed(Int(2), 7));
  }

  lemma BlockTrailing(ts: seq<Token>)
    requires SpellsBlock(ts)
    ensures ParseStatement(ts, 8) == Ok(Parsed(Stmt(Identifier("x"), false), 9))
  {
    assert ParseExpression(ts, 8) == Ok(Parsed(Identifier("x"), 9));
  }

  lemma BlockItems(ts: seq<Token>)
    requires SpellsBlock(ts)
    ensures ParseSub(ts, 2) == Ok(Parsed(Block([] + [Let("x", Int(2))] + [Identifier("x")]), 10))
  {
    BlockLet(ts);
    BlockTrailing(ts);
    assert ParseItems(ts, 8, [] + [Let("x", Int(2))]) == Ok(Parsed(Block([] + [Let("x", Int(2))] + [Identifier("x")]), 10));
  }

  lemma BlockItemsListed()
    ensures [] + [Let("x", Int(2))] + [Identifier("x")] == [Let("x", Int(2)), Identifier("x")]
  {
  }

  /** The `block` test: a block is an operand, its `let` statement is
      terminated by `;` and its trailing expression is not. */
  lemma ParseBlock(ts: seq<Token>)
    requires SpellsBlock(ts)
    ensures ParseExpression(ts, 0)
            == Ok(Parsed(BinOp(Int(1), "/", Block([Let("x", Int(2)), Identifier("x")])), 10))
  {
    BlockItems(ts);
    BlockItemsListed();
    var block := Block([Let("x", Int(2)), Identifier("x")]);
    OuterTakes(ts, 1, Int(1), 0, "/", block, 10);
    InnerEnds(ts, 10, Int(1), "/", 3, block, 0);
    OuterEnds(ts, 10, BinOp(Int(1), "/", block), 0);
    ExpressionOf(ts, 0, Int(1), 1);
  }

  // Statements.

  /** A statement that does not start with `let` is its expression, marked
      terminated exactly when it needs no `;` or is followed by one; only
      that `;` is consumed after the expression. */
  lemma ExpressionStatement(ts: seq<Token>, k: nat)
    requires k <= |ts| && At(ts, k) != TLet
    ensures ParseExpression(ts, k).Err? ==> ParseStatement(ts, k) == Err(ParseExpression(ts, k).error)
    ensures ParseExpression(ts, k).Ok? ==>
      var e := ParseExpression(ts, k).value;
      var s := ParseStatement(ts, k);
      && s.Ok? && s.value.result.expr == e.result
      && (s.value.result.terminated <==> IsStatement(e.result) || At(ts, e.cursor) == TSemicolon)
      && (s.value.cursor == e.cursor + 1 <==> !IsStatement(e.result) && At(ts, e.cursor) == TSemicolon)
      && (s.value.cursor == e.cursor <==> IsStatement(e.result) || At(ts, e.cursor) != TSemicolon)
  {
  }

  /** `let id = e ;` parses to a terminated `Let(id, e)` and nothing else
      starting with `let` does: each of the three expected tokens that is
      missing is reported as unexpected. */
  lemma LetStatement(ts: seq<Token>, k: nat)
    requires k <= |ts| && At(ts, k) == TLet
    ensures !At(ts, k + 1).TIdentifier? ==> ParseStatement(ts, k) == Err(UnexpectedToken(At(ts, k + 1)))
    ensures At(ts, k + 1).TIdentifier? && At(ts, k + 2) != TAssign ==>
              ParseStatement(ts, k) == Err(UnexpectedToken(At(ts, k + 2)))
    ensures At(ts, k + 1).TIdentifier? && At(ts, k + 2) == TAssign ==>
      k + 3 <= |ts| &&
      var e := ParseExpression(ts, k + 3);
      && (e.Err? ==> ParseStatement(ts, k) == Err(e.error))
      && (e.Ok? && At(ts, e.value.cursor) != TSemicolon ==>
            ParseStatement(ts, k) == Err(UnexpectedToken(At(ts, e.value.cursor))))
      && (e.Ok? && At(ts, e.value.cursor) == TSemicolon ==>
            ParseStatement(ts, k) == Ok(Parsed(Stmt(Let(At(ts, k + 1).name, e.value.result), true), e.value.cursor + 1)))
  {
  }

  // Blocks.

  /** `{ }` is not a block: a block holds at least one statement, and `}`
      does not start one. */
  lemma EmptyBlockRejected(ts: seq<Token>)
    requires |ts| == 2 && ts[0] == TOpenBrace && ts[1] == TCloseBrace
    ensures ParseSub(ts, 0) == Err(DoesNotStartExpression(TCloseBrace))
  {
    assert ParseExpression(ts, 1) == Err(DoesNotStartExpression(TCloseBrace));
    assert ParseStatement(ts, 1) == Err(DoesNotStartExpression(TCloseBrace));
  }

  /** `{ x; }` is not a block either: after a terminated statement another
      one must follow. */
  lemma TerminatedLastStatementRejected(ts: seq<Token>, x: string)
    requires |ts| == 4 && ts[0] == TOpenBrace && ts[1] == TIdentifier(x) && ts[2] == TSemicolon && ts[3] == TCloseBrace
    ensures ParseSub(ts, 0) == Err(DoesNotStartExpression(TCloseBrace))
  {
    OuterEnds(ts, 2, Identifier(x), 0);
    ExpressionOf(ts, 1, Identifier(x), 2);
    assert ParseStatement(ts, 1) == Ok(Parsed(Stmt(Identifier(x), true), 3));
    assert ParseExpression(ts, 3) == Err(DoesNotStartExpression(TCloseBrace));
    assert ParseStatement(ts, 3) == Err(DoesNotStartExpression(TCloseBrace));
    assert ParseItems(ts, 3, [] + [Identifier(x)]) == Err(DoesNotStartExpression(TCloseBrace));
  }

  // How operators nest.

  /** The tokens that are whole operands by themselves. */
  predicate Operand(t: Token)
  {
    t.TIdentifier? || t.TInteger? || t.TFloat? || t.TString?
  }

  /** The expression a single-token operand parses to. */
  function OperandExpr(t: Token): (e: Expr)
    requires Operand(t)
    ensures ParseSub([t], 0) == Ok(Parsed(e, 1))
  {
    match t
    case TIdentifier(id) => Identifier(id)
    case TInteger(i) => Literal(Integer(i))
    case TFloat(f) => Literal(Float(f))
    case TString(s) => Literal(String(s))
  }

  lemma OperandAt(ts: seq<Token>, k: nat)
    requires k < |ts| && Operand(ts[k])
    ensures ParseSub(ts, k) == Ok(Parsed(OperandExpr(ts[k]), k + 1))
  {
  }

  /** `a o1 b o2 c` with `o2` binding at least as tightly as `o1` groups as
      `a o1 (b o2 c)`; in particular operators of equal precedence group to
      the right. */
  lemma NestsRight(ts: seq<Token>, o1: string, o2: string)
    requires |ts| == 5 && Operand(ts[0]) && Operand(ts[2]) && Operand(ts[4])
    requires ts[1] == TOperator(o1) && ts[3] == TOperator(o2) && Precedence(o1) <= Precedence(o2)
    ensures ParseExpression(ts, 0)
            == Ok(Parsed(BinOp(OperandExpr(ts[0]), o1, BinOp(OperandExpr(ts[2]), o2, OperandExpr(ts[4]))), 5))
  {
    var a, b, c := OperandExpr(ts[0]), OperandExpr(ts[2]), OperandExpr(ts[4]);
    OperandAt(ts, 0);
    OperandAt(ts, 2);
    OperandAt(ts, 4);
    OuterTakes(ts, 3, b, Precedence(o2), o2, c, 5);
    InnerEnds(ts, 5, b, o2, Precedence(o2), c, Precedence(o2));
    OuterEnds(ts, 5, BinOp(b, o2, c), Precedence(o2));
    OuterTakes(ts, 1, a, 0, o1, b, 3);
    InnerFolds(ts, 3, a, o1, Precedence(o1), b, 0, o2, BinOp(b, o2, c), 5);
    InnerEnds(ts, 5, a, o1, Precedence(o1), BinOp(b, o2, c), 0);
    OuterEnds(ts, 5, BinOp(a, o1, BinOp(b, o2, c)), 0);
    ExpressionOf(ts, 0, a, 1);
  }

  /** `a o1 b o2 c` with `o1` binding more tightly than `o2` groups as
      `(a o1 b) o2 c`. */
  lemma NestsLeft(ts: seq<Token>, o1: string, o2: string)
    requires |ts| == 5 && Operand(ts[0]) && Operand(ts[2]) && Operand(ts[4])
    requires ts[1] == TOperator(o1) && ts[3] == TOperator(o2) && Precedence(o1) > Precedence(o2)
    ensures ParseExpression(ts, 0)
            == Ok(Parsed(BinOp(BinOp(OperandExpr(ts[0]), o1, OperandExpr(ts[2])), o2, OperandExpr(ts[4])), 5))
  {
    var a, b, c := OperandExpr(ts[0]), OperandExpr(ts[2]), OperandExpr(ts[4]);
    OperandAt(ts, 0);
    OperandAt(ts, 2);
    OperandAt(ts, 4);
    OuterTakes(ts, 1, a, 0, o1, b, 3);
    InnerEnds(ts, 3, a, o1, Precedence(o1), b, 0);
    OuterTakes(ts, 3, BinOp(a, o1, b), 0, o2, c, 5);
    InnerEnds(ts, 5, BinOp(a, o1, b), o2, Precedence(o2), c, 0);
    OuterEnds(ts, 5, BinOp(BinOp(a, o1, b), o2, c), 0);
    ExpressionOf(ts, 0, a, 1);
  }

  // Nothing is lost or reordered: over operands and operators alone, the
  // tree a parse builds spells out exactly the tokens it consumed.

  /** Token sequences of operands and operators only. */
  predicate Flat(ts: seq<Token>)
  {
    forall i :: 0 <= i < |ts| ==> Operand(ts[i]) || ts[i].TOperator?
  }

  /** Trees of operands and binary operations. */
  predicate Arithmetic(e: Expr)
  {
    e.Identifier? || e.Literal? || (e.BinOp? && Arithmetic(e.lhs) && Arithmetic(e.rhs))
  }

  /** The tokens an arithmetic tree is written with, left to right. */
  function Spelling(e: Expr): seq<Token>
    requires Arithmetic(e)
  {
    if e.Identifier? then [TIdentifier(e.name)]
    else if e.Literal? then [LiteralToken(e.literal)]
    else Spelling(e.lhs) + [TOperator(e.op)] + Spelling(e.rhs)
  }

  /** The token a literal is written with. */
  function LiteralToken(l: Literal): Token
  {
    match l
    case Integer(i) => TInteger(i)
    case Float(f) => TFloat(f)
    case String(s) => TString(s)
  }

  lemma OperandSpelling(t: Token)
    requires Operand(t)
    ensures Arithmetic(OperandExpr(t)) && Spelling(OperandExpr(t)) == [t]
  {
  }

  lemma SliceSplit(ts: seq<Token>, i: nat, m: nat, j: nat)
    requires i <= m <= j <= |ts|
    ensures ts[i..j] == ts[i..m] + ts[m..j]
  {
  }

  lemma SliceCons(ts: seq<Token>, i: nat, j: nat)
    requires i < j <= |ts|
    ensures ts[i..j] == [ts[i]] + ts[i + 1..j]
  {
  }

  lemma Regroup(a: seq<Token>, x: Token, y: Token, rest: seq<Token>)
    ensures a + [x] + [y] + rest == a + ([x] + ([y] + rest))
  {
  }

  lemma OuterSpells(ts: seq<Token>, k: nat, lhs: Expr, min: int)
    requires Flat(ts) && k <= |ts| && Arithmetic(lhs) && ParseOuter(ts, k, lhs, min).Ok?
    ensures var p := ParseOuter(ts, k, lhs, min).value;
      Arithmetic(p.result) && Spelling(p.result) == Spelling(lhs) + ts[k..p.cursor]
    decreases |ts| + 2 - k, 2
  {
    if OperatorAtLeast(At(ts, k), min) {
      OuterSpellsTaking(ts, k, lhs, min);
    } else {
      OuterEnds(ts, k, lhs, min);
      assert ts[k..k] == [];
    }
  }

  lemma OuterSpellsTaking(ts: seq<Token>, k: nat, lhs: Expr, min: int)
    requires Flat(ts) && k <= |ts| && Arithmetic(lhs) && ParseOuter(ts, k, lhs, min).Ok?
    requires OperatorAtLeast(At(ts, k), min)
    ensures var p := ParseOuter(ts, k, lhs, min).value;
      Arithmetic(p.result) && Spelling(p.result) == Spelling(lhs) + ts[k..p.cursor]
    decreases |ts| + 2 - k, 1
  {
    var op := At(ts, k).op;
    OuterStep(ts, k, lhs, min);
    assert Operand(ts[k + 1]);
    OperandAt(ts, k + 1);
    OperandSpelling(ts[k + 1]);
    var rhs := OperandExpr(ts[k + 1]);
    InnerSpells(ts, k + 2, lhs, op, Precedence(op), rhs, min);
    var c := ParseOuter(ts, k, lhs, min).value.cursor;
    SliceCons(ts, k, c);
    SliceCons(ts, k + 1, c);
    Regroup(Spelling(lhs), ts[k], ts[k + 1], ts[k + 2..c]);
  }

  lemma InnerSpells(ts: seq<Token>, k: nat, lhs: Expr, op: string, prec: int, rhs: Expr, min: int)
    requires Flat(ts) && k <= |ts| && Arithmetic(lhs) && Arithmetic(rhs)
    requires ParseInner(ts, k, lhs, op, prec, rhs, min).Ok?
    ensures var p := ParseInner(ts, k, lhs, op, prec, rhs, min).value;
      Arithmetic(p.result) && Spelling(p.result) == Spelling(lhs) + [TOperator(op)] + Spelling(rhs) + ts[k..p.cursor]
    decreases |ts| + 2 - k, 4
  {
    if OperatorAtLeast(At(ts, k), prec) {
      InnerSpellsFolding(ts, k, lhs, op, prec, rhs, min);
    } else {
      InnerEnds(ts, k, lhs, op, prec, rhs, min);
      OuterSpells(ts, k, BinOp(lhs, op, rhs), min);
    }
  }

  lemma InnerSpellsFolding(ts: seq<Token>, k: nat, lhs: Expr, op: string, prec: int, rhs: Expr, min: int)
    requires Flat(ts) && k <= |ts| && Arithmetic(lhs) && Arithmetic(rhs)
    requires ParseInner(ts, k, lhs, op, prec, rhs, min).Ok?
    requires OperatorAtLeast(At(ts, k), prec)
    ensures var p := ParseInner(ts, k, lhs, op, prec, rhs, min).value;
      Arithmetic(p.result) && Spelling(p.result) == Spelling(lhs) + [TOperator(op)] + Spelling(rhs) + ts[k..p.cursor]
    decreases |ts| + 2 - k, 3
  {
    var lookahead := Precedence(At(ts, k).op);
    InnerStep(ts, k, lhs, op, prec, rhs, min, lookahead);
    OuterSpells(ts, k, rhs, lookahead);
    var folded := ParseOuter(ts, k, rhs, lookahead).value;
    InnerSpells(ts, folded.cursor, lhs, op, prec, folded.result, min);
    var c := ParseInner(ts, k, lhs, op, prec, rhs, min).value.cursor;
    SliceSplit(ts, k, folded.cursor, c);
  }

  /** An expression parsed from operands and operators spells out exactly
      the tokens it consumed. */
  lemma ExpressionSpells(ts: seq<Token>, k: nat)
    requires Flat(ts) && k <= |ts| && ParseExpression(ts, k).Ok?
    ensures var p := ParseExpression(ts, k).value;
      Arithmetic(p.result) && Spelling(p.result) == ts[k..p.cursor]
  {
    assert Operand(ts[k]);
    OperandAt(ts, k);
    OperandSpelling(ts[k]);
    ExpressionOf(ts, k, OperandExpr(ts[k]), k + 1);
    OuterSpells(ts, k + 1, OperandExpr(ts[k]), 0);
    var p := ParseExpression(ts, k).value;
    SliceSplit(ts, k, k + 1, p.cursor);
    assert ts[k..k + 1] == [ts[k]];
  }

  // How operators group, for chains of any length: at every operation the
  // left operand's operator binds more tightly than the operation's own, and
  // the right operand's at least as tightly. Over operands and operators, the
  // parse is the one tree with this shape that spells the tokens consumed.

  /** The grouping precedence climbing produces: ties go to the right. */
  predicate Grouped(e: Expr)
  {
    e.BinOp? ==>
      && Grouped(e.lhs) && Grouped(e.rhs)
      && (e.lhs.BinOp? ==> Precedence(e.lhs.op) > Precedence(e.op))
      && (e.rhs.BinOp? ==> Precedence(e.rhs.op) >= Precedence(e.op))
  }

  /** `e`'s operator, if it has one, binds more tightly than the operator
      token `t`, if it is one. */
  predicate TighterThan(e: Expr, t: Token)
  {
    e.BinOp? && t.TOperator? ==> Precedence(t.op) < Precedence(e.op)
  }

  /** `e` is an operation binding at least as tightly as `min`. */
  predicate BindsAtLeast(e: Expr, min: int)
  {
    e.BinOp? && Precedence(e.op) >= min
  }

  lemma OuterGroups(ts: seq<Token>, k: nat, lhs: Expr, min: int)
    requires Flat(ts) && k <= |ts| && Grouped(lhs) && TighterThan(lhs, At(ts, k))
    requires ParseOuter(ts, k, lhs, min).Ok?
    ensures var p := ParseOuter(ts, k, lhs, min).value;
      && Grouped(p.result) && TighterThan(p.result, At(ts, p.cursor))
      && (BindsAtLeast(lhs, min) || OperatorAtLeast(At(ts, k), min) ==> BindsAtLeast(p.result, min))
    decreases |ts| + 2 - k, 2
  {
    if OperatorAtLeast(At(ts, k), min) {
      OuterGroupsTaking(ts, k, lhs, min);
    } else {
      OuterEnds(ts, k, lhs, min);
    }
  }

  lemma OuterGroupsTaking(ts: seq<Token>, k: nat, lhs: Expr, min: int)
    requires Flat(ts) && k <= |ts| && Grouped(lhs) && TighterThan(lhs, At(ts, k))
    requires ParseOuter(ts, k, lhs, min).Ok? && OperatorAtLeast(At(ts, k), min)
    ensures var p := ParseOuter(ts, k, lhs, min).value;
      Grouped(p.result) && TighterThan(p.result, At(ts, p.cursor)) && BindsAtLeast(p.result, min)
    decreases |ts| + 2 - k, 1
  {
    var op := At(ts, k).op;
    OuterStep(ts, k, lhs, min);
    assert Operand(ts[k + 1]);
    OperandAt(ts, k + 1);
    InnerGroups(ts, k + 2, lhs, op, Precedence(op), OperandExpr(ts[k + 1]), min);
  }

  lemma InnerGroups(ts: seq<Token>, k: nat, lhs: Expr, op: string, prec: int, rhs: Expr, min: int)
    requires Flat(ts) && k <= |ts| && Grouped(lhs) && Grouped(rhs)
    requires prec == Precedence(op) && prec >= min
    requires lhs.BinOp? ==> Precedence(lhs.op) > prec
    requires rhs.BinOp? ==> Precedence(rhs.op) >= prec
    requires TighterThan(rhs, At(ts, k))
    requires ParseInner(ts, k, lhs, op, prec, rhs, min).Ok?
    ensures var p := ParseInner(ts, k, lhs, op, prec, rhs, min).value;
      Grouped(p.result) && TighterThan(p.result, At(ts, p.cursor)) && BindsAtLeast(p.result, min)
    decreases |ts| + 2 - k, 4
  {
    if OperatorAtLeast(At(ts, k), prec) {
      InnerGroupsFolding(ts, k, lhs, op, prec, rhs, min);
    } else {
      InnerEnds(ts, k, lhs, op, prec, rhs, min);
      OuterGroups(ts, k, BinOp(lhs, op, rhs), min);
    }
  }

  lemma InnerGroupsFolding(ts: seq<Token>, k: nat, lhs: Expr, op: string, prec: int, rhs: Expr, min: int)
    requires Flat(ts) && k <= |ts| && Grouped(lhs) && Grouped(rhs)
    requires prec == Precedence(op) && prec >= min
    requires lhs.BinOp? ==> Precedence(lhs.op) > prec
    requires rhs.BinOp? ==> Precedence(rhs.op) >= prec
    requires TighterThan(rhs, At(ts, k))
    requires ParseInner(ts, k, lhs, op, prec, rhs, min).Ok? && OperatorAtLeast(At(ts, k), prec)
    ensures var p := ParseInner(ts, k, lhs, op, prec, rhs, min).value;
      Grouped(p.result) && TighterThan(p.result, At(ts, p.cursor)) && BindsAtLeast(p.result, min)
    decreases |ts| + 2 - k, 3
  {
    var lookahead := Precedence(At(ts, k).op);
    InnerStep(ts, k, lhs, op, prec, rhs, min, lookahead);
    OuterGroups(ts, k, rhs, lookahead);
    var folded := ParseOuter(ts, k, rhs, lookahead).value;
    InnerGroups(ts, folded.cursor, lhs, op, prec, folded.result, min);
  }

  /** An expression parsed from operands and operators is grouped by
      precedence: tighter operators below looser ones, ties to the right. */
  lemma ExpressionGroups(ts: seq<Token>, k: nat)
    requires Flat(ts) && k <= |ts| && ParseExpression(ts, k).Ok?
    ensures Grouped(ParseExpression(ts, k).value.result)
  {
    assert Operand(ts[k]);
    OperandAt(ts, k);
    ExpressionOf(ts, k, OperandExpr(ts[k]), k + 1);
    OuterGroups(ts, k + 1, OperandExpr(ts[k]), 0);
  }

  /** Every operator in the spelling of a grouped tree binds at least as
      tightly as the tree's own operator. */
  lemma {:induction false} OperatorBound(e: Expr, p: int, i: nat)
    requires Arithmetic(e) && Grouped(e) && (e.BinOp? ==> Precedence(e.op) >= p)
    requires i < |Spelling(e)| && Spelling(e)[i].TOperator?
    ensures Precedence(Spelling(e)[i].op) >= p
  {
    if e.BinOp? {
      var a, b := Spelling(e.lhs), Spelling(e.rhs);
      assert Spelling(e) == a + [TOperator(e.op)] + b;
      if i < |a| {
        assert Spelling(e)[i] == a[i];
        OperatorBound(e.lhs, p, i);
      } else if i > |a| {
        assert Spelling(e)[i] == b[i - |a| - 1];
        OperatorBound(e.rhs, p, i - |a| - 1);
      }
    }
  }

  /** An arithmetic tree's spelling has an odd length, and an operation's
      spelling is longer than one token. */
  lemma {:induction false} SpellingLength(e: Expr)
    requires Arithmetic(e)
    ensures |Spelling(e)| % 2 == 1
    ensures e.BinOp? <==> |Spelling(e)| > 1
  {
    if e.BinOp? {
      SpellingLength(e.lhs);
      SpellingLength(e.rhs);
    }
  }

  /** In a grouped operation, the left operand's spelling cannot stop short
      of the one of another grouped operation with the same spelling: the
      operator there would be in the first one's right operand, and bind
      both more tightly and no more tightly than its operator. */
  lemma LeftSpellingNotShorter(e1: Expr, e2: Expr)
    requires e1.BinOp? && e2.BinOp? && Arithmetic(e1) && Arithmetic(e2) && Grouped(e1) && Grouped(e2)
    requires Spelling(e1) == Spelling(e2)
    ensures |Spelling(e1.lhs)| >= |Spelling(e2.lhs)|
  {
    var s := Spelling(e1);
    var i1, i2 := |Spelling(e1.lhs)|, |Spelling(e2.lhs)|;
    assert s == Spelling(e1.lhs) + [TOperator(e1.op)] + Spelling(e1.rhs);
    assert s == Spelling(e2.lhs) + [TOperator(e2.op)] + Spelling(e2.rhs);
    if i1 < i2 {
      assert Spelling(e2.lhs)[i1] == s[i1] == TOperator(e1.op);
      OperatorBound(e2.lhs, Precedence(e2.op) + 1, i1);
      assert Spelling(e1.rhs)[i2 - i1 - 1] == s[i2] == TOperator(e2.op);
      OperatorBound(e1.rhs, Precedence(e1.op), i2 - i1 - 1);
      assert false;
    }
  }

  /** Two grouped trees with the same spelling are the same tree: the
      operation at the root is the leftmost of the loosest operators. */
  lemma {:induction false} GroupedUnique(e1: Expr, e2: Expr)
    requires Arithmetic(e1) && Arithmetic(e2) && Grouped(e1) && Grouped(e2)
    requires Spelling(e1) == Spelling(e2)
    ensures e1 == e2
  {
    SpellingLength(e1);
    SpellingLength(e2);
    if e1.BinOp? {
      LeftSpellingNotShorter(e1, e2);
      LeftSpellingNotShorter(e2, e1);
      var s, i := Spelling(e1), |Spelling(e1.lhs)|;
      assert s == Spelling(e1.lhs) + [TOperator(e1.op)] + Spelling(e1.rhs);
      assert s == Spelling(e2.lhs) + [TOperator(e2.op)] + Spelling(e2.rhs);
      assert s[i] == TOperator(e1.op) == TOperator(e2.op);
      assert Spelling(e1.lhs) == s[..i] == Spelling(e2.lhs);
      assert Spelling(e1.rhs) == s[i + 1..] == Spelling(e2.rhs);
      GroupedUnique(e1.lhs, e2.lhs);
      GroupedUnique(e1.rhs, e2.rhs);
    } else {
      assert Spelling(e1)[0] == Spelling(e2)[0];
    }
  }

  /** Precedence climbing, for any chain of operands and operators: the tree
      an expression parses to is the one grouped tree that spells the tokens
      it consumed. */
  lemma {:induction false} ExpressionIsTheGrouping(ts: seq<Token>, k: nat, e: Expr)
    requires Flat(ts) && k <= |ts| && ParseExpression(ts, k).Ok?
    requires Arithmetic(e) && Grouped(e) && Spelling(e) == ts[k..ParseExpression(ts, k).value.cursor]
    ensures ParseExpression(ts, k).value.result == e
  {
    ExpressionSpells(ts, k);
    ExpressionGroups(ts, k);
    GroupedUnique(ParseExpression(ts, k).value.result, e);
  }

  // The two tests as the source runs them: a fresh parser's `expression`.

  method ParseOperatorsWithParser() returns (r: Result<Expr, ParseError>)
    ensures r == Ok(BinOp(BinOp(Int(1), "/", Int(4)), "+", BinOp(BinOp(Int(2), "-", Int(3)), "*", Int(2))))
  {
    var parser := new Parser(OperatorsTokens);
    OperatorsTokensSpelled();
    ParseOperators(parser.tokens);
    r := parser.Expression();
  }

  method ParseBlockWithParser() returns (r: Result<Expr, ParseError>)
    ensures r == Ok(BinOp(Int(1), "/", Block([Let("x", Int(2)), Identifier("x")])))
  {
    var parser := new Parser(BlockTokens);
    BlockTokensSpelled();
    ParseBlock(parser.tokens);
    r := parser.Expression();
  }
}
