# yamori front end, modelled in Dafny

This project models the front end of the yamori compiler and proves properties
of the model. The parts covered are:

- the character lexer and its backtracking token buffer (`src/lexer.rs`);
- the precedence-climbing expression parser (`src/parser.rs`);
- the string interner (`src/interner.rs`);
- the pass manager (`src/pass_manager.rs`);
- the lowering pass (`src/llvm_lowering_pass.rs`), driving an abstract code
  generation target instead of LLVM;
- the kind-node projections and injections (`src/node.rs`);
- the keyword table (`src/token.rs`).

Each module gives the pure parts of its file as functions and the stateful
parts as classes whose methods are proved against specification functions.

- **Lexing.** `Scan` states what one `next_token` call produces from a given
  index. `Lex` is the stream of the first `n` tokens. The `Lexer` class keeps
  the input, the read position, the text buffer, and the ring buffer of recent
  tokens with its backtracking `offset`. Every scanning method is proved equal
  to the matching lexeme function.
- **Parsing.** `ParseSub`, `ParseItems`, `ParseStatement` and `ParseExpression`
  give the result and the end cursor of each parser method over a token
  sequence. `ParseOuter` and `ParseInner` do the same for the two loops of
  `binary_expression`. The `Parser` class runs the same algorithm with a
  cursor that `next` and `backtrack` move. Each of its methods is proved to
  follow its specification function.
- **Passes and lowering.** These work on plain data: a pass is what the
  manager observes of it, and the lowering target is a log of function
  declarations and opened blocks.

Files:

- `wrappers.dfy`: `Option` and `Result`
- `diagnostics.dfy`: diagnostics and pass results
- `ast.dfy`: the expression tree
- `nodes.dfy`: the node types, with the accessors of `src/node.rs`
- `keywords.dfy`
- `interner.dfy`
- `lexer.dfy`
- `parser.dfy`
- `passes.dfy`
- `lowering.dfy`

## Model

| member | source | states |
|---|---|---|
| Keywords.GetKeywordToken | src/token.rs:12-19 | the lookup succeeds exactly for the characters `fn`, and then yields `Fn`; every other character sequence gives the error "Not a keyword" |
| Keywords.KeywordIsNeverPayload | src/token.rs:15-18 | a successful lookup never yields an identifier, an integer, `EOF` or a brace token |
| Keywords.KeywordDependsOnSpelling | src/token.rs:13-17 | two character sequences get equal results exactly when both spell `fn` or neither does |
| Nodes.IntoIntKind | src/node.rs:10-16 | the projection is `Some(k)` exactly when the node is `IntKind(k)` |
| Nodes.IntoVoidKind | src/node.rs:18-24 | the projection is `Some(v)` exactly when the node is `VoidKind(v)` |
| Nodes.FromIntKind | src/node.rs:27-31 | projecting the injected integer kind gives it back |
| Nodes.FromVoidKind | src/node.rs:33-37 | projecting the injected void kind gives it back |
| Nodes.ExactlyOneProjection | src/node.rs:4-24 | every kind node answers exactly one of the two projections |
| Nodes.ProjectionInverts | src/node.rs:10-37 | projecting and then injecting gives back the node |
| Nodes.GetChildren | src/node.rs:42-44 | the default `get_children` yields no children |
| Interning.DistinctStringsDistinctHandles | src/interner.rs:23-33 | under the interner invariant, distinct strings have distinct handles |
| Interning.NoDuplicateStrings | src/interner.rs:10-13 | under the invariant, the string vector holds no string twice |
| Interning.AppendKeepsBijection | src/interner.rs:26-31 | recording a new string at index `strings.len()` and appending it keeps `indexes` and `strings` inverse to each other |
| Interning.Interner.constructor | src/interner.rs:16-21 | a fresh interner has an empty map and an empty vector, and satisfies the invariant |
| Interning.Interner.Intern | src/interner.rs:23-33 | a known string gets its existing handle and nothing changes; a new string gets index `strings.len()`, is appended and is recorded; the invariant is kept, and `get_str` of the handle is the string |
| Interning.Interner.GetStr | src/interner.rs:35-41 | for a handle below `strings.len()`, returns the string the map records at that handle |
| Interning.InternIsIdempotent | src/interner.rs:24-25 | interning a string twice gives the same handle, and the result reads back as the string |
| Lexing.IsOperator | src/lexer.rs:99-104 | an operator character is no digit, identifier character or quote, so it starts no other kind of lexeme |
| Lexing.RunEnd | src/lexer.rs:201-213 | the end of the maximal run of characters of one class: every character before it is in the class, and the one at it is not |
| Lexing.SkipSpace | src/lexer.rs:252-262 | the first non-whitespace index at or after `i`, or the end of the input |
| Lexing.ClosingQuote | src/lexer.rs:289-296 | the first double quote at or after `i`; none exists when the result is `None` |
| Lexing.NameOrKeyword | src/lexer.rs:65-73 | `if`, `else`, `fn` and `let` give their keyword tokens, each exactly for its own text; any other text gives an identifier carrying that text |
| Lexing.NameOrKeywordInjective | src/lexer.rs:65-73 | distinct texts give distinct tokens |
| Lexing.DigitsValue | src/lexer.rs:229 | the value of a decimal digit text is below ten to the power of its length |
| Lexing.DigitsValueInjective | src/lexer.rs:229 | two digit texts of the same length with the same value are the same text, so an integer token's value and digit count determine its digits |
| Lexing.OperatorLexeme | src/lexer.rs:266-284 | an operator lexeme starts at its first character and consumes at least that character |
| Lexing.NumberLexeme | src/lexer.rs:215-231 | a successful number lexeme starts at its first digit and consumes at least that digit |
| Lexing.IdentifierLexeme | src/lexer.rs:234-247 | an identifier lexeme starts at its first character and consumes at least that character |
| Lexing.StringLexeme | src/lexer.rs:289-296 | a successful string lexeme starts at the opening quote and consumes at least that quote |
| Lexing.CharLexeme | src/lexer.rs:297-307 | a successful character lexeme starts at the opening quote and consumes at least that quote |
| Lexing.Classify | src/lexer.rs:264-320 | a successful lexeme starts at `j` and consumes at least one character |
| Lexing.Scan | src/lexer.rs:251-321 | the lexeme starts after the skipped whitespace; it is empty exactly when the input ends there |
| Lexing.Lex | src/lexer.rs:144-154 | lexing `n` tokens yields exactly `n` tokens and stays within the input |
| Lexing.ScanClassifies | src/lexer.rs:264-320 | a scan from a non-whitespace character classifies that character |
| Lexing.ScanSkipsWhitespace | src/lexer.rs:252-262 | whitespace before a lexeme does not change it; input that is all whitespace yields `TEOF` at the end |
| Lexing.OperatorCluster | src/lexer.rs:266-284 | an operator character starts a maximal cluster of operator characters; the cluster `=` is `TAssign`, `:` is `TColon`, and any other cluster is `TOperator` of its text |
| Lexing.ScanNumber | src/lexer.rs:285-286 | a scan from a digit is the number lexeme |
| Lexing.NumberLexemeDotted | src/lexer.rs:215-227 | digits followed by `.` give a float over the digits, the `.` and the digits after it |
| Lexing.NumberLexemeUndotted | src/lexer.rs:228-230 | digits without a following `.` give an integer of their value, or an overflow error when `i32` cannot hold it |
| Lexing.FloatWhenDotted | src/lexer.rs:215-231 | a number is a maximal digit run, and a float exactly in the dotted case |
| Lexing.IntegerWhenNotDotted | src/lexer.rs:215-231 | a number is an integer of its digits' value, or an overflow, exactly in the undotted case |
| Lexing.IdentifierShape | src/lexer.rs:234-247 | a letter or underscore starts a maximal identifier run, which only keyword texts turn into keyword tokens |
| Lexing.CharShape | src/lexer.rs:297-307 | `'x'` gives `TChar(x)`; the input ending right after the quote is an unexpected end; anything other than a closing quote after one character is a multi-character error |
| Lexing.StringShape | src/lexer.rs:289-296 | a string runs to the next double quote, both quotes included; it is an unexpected-end error exactly when no closing quote follows |
| Lexing.SymbolToken | src/lexer.rs:309-319 | the result is `TEOF` or one of the eight structural tokens; a structural token comes only from a character of no other class |
| Lexing.SymbolTokenInjective | src/lexer.rs:309-319 | distinct structural characters give distinct tokens |
| Lexing.SymbolShape | src/lexer.rs:308-320 | any other character is a one-character lexeme, which is not `TEOF` exactly for the characters `; ( ) [ ] { } ,` |
| Lexing.Push | src/lexer.rs:127 | the ring buffer grows by one until it holds 20 tokens and then stays at 20; the pushed token is last |
| Lexing.Recent | src/lexer.rs:127 | the buffer contents are a suffix of the tokens produced: all of them, or the last 20 |
| Lexing.PushKeepsRecent | src/lexer.rs:149 | pushing onto the recent tokens gives the recent tokens of the longer history |
| Lexing.BufferedPush | src/lexer.rs:148-150 | scanning one token and pushing it keeps the lexer-state invariant |
| Lexing.LexNext | src/lexer.rs:148 | the next token of the stream is the scan at the current position, or the error of that scan |
| Lexing.Lexer.constructor | src/lexer.rs:117-131 | a new lexer is at the start of its input with empty buffers and no offset |
| Lexing.Lexer.PeekChar | src/lexer.rs:168-170 | the character at the read position, or `None` exactly at the end of the input |
| Lexing.Lexer.ReadChar | src/lexer.rs:177-190 | hands out the character at the read position, appends it to the buffer and advances; at the end, changes nothing and returns `None` |
| Lexing.Lexer.ScanRun | src/lexer.rs:201-213 | reads the maximal run of one class into the buffer, stopping at `RunEnd` |
| Lexing.Lexer.ScanNumber | src/lexer.rs:215-231 | the result, end position and buffer are those of `NumberLexeme` |
| Lexing.Lexer.ScanIdentifier | src/lexer.rs:234-247 | the token, end position and buffer are those of `IdentifierLexeme` |
| Lexing.Lexer.ScanOperator | src/lexer.rs:266-284 | the token, end position and buffer are those of `OperatorLexeme` |
| Lexing.Lexer.ScanString | src/lexer.rs:289-296 | the result, end position and buffer are those of `StringLexeme` |
| Lexing.Lexer.ScanChar | src/lexer.rs:297-307 | the result, end position and buffer are those of `CharLexeme` |
| Lexing.Lexer.NextToken | src/lexer.rs:251-321 | the result, end position and buffer are those of `Scan` from the old position |
| Lexing.Lexer.Current | src/lexer.rs:157-159 | the token handed out last, which is the matching token of the stream |
| Lexing.Lexer.Backtrack | src/lexer.rs:161-165 | raises `offset` by one and steps back, provided the buffer still holds the token stepped back to |
| Lexing.Lexer.Next | src/lexer.rs:144-154 | when backtracked, returns the buffered token and lowers `offset` without reading input; otherwise scans and pushes a token; either way the result is the next token of the stream, or the error lexing the stream reports |
| Lexing.Lexer.Advance | src/lexer.rs:147-152 | scans a token, pushes it into the ring buffer and clears the text buffer |
| Lexing.Lexer.PeekAsWritten | src/lexer.rs:133-141 | peek as written: with no offset it scans and leaves `offset == 1`; with an offset below the buffer length it returns the token handed out last; with an offset equal to the buffer length the index `len - offset - 1` underflows, which is the error `IndexUnderflow`, and nothing changes |
| Lexing.Lexer.Peek | src/lexer.rs:133-141 | peek as intended: returns the next token of the stream without handing it out; with no offset it scans one token and leaves `offset == 1` |
| Lexing.Lexer.Upcoming | src/lexer.rs:134-135 | while some tokens are stepped back over, the buffer entry the corrected peek reads is the next token of the stream |
| Lexing.Lexer.NextThenBacktrack | src/lexer.rs:136-139 | with no offset, scans one token, steps back over it and returns it: lexing fails exactly as the stream does, and otherwise the token is the next of the stream and `offset == 1` |
| Lexing.PeekThenNext | src/lexer.rs:133-154 | `next` hands out the token `peek` showed |
| Lexing.LexMain | src/lexer.rs:335-347 | `fn main() { 1 + 2 }` lexes to the nine tokens the lexer's test lists |
| Lexing.PeekAfterBacktrack | src/lexer.rs:133-141 | on `a b`, after two `next` calls and a `backtrack`, the as-written peek shows `a` while `next` hands out `b` |
| Lexing.PeekAfterBacktrackCorrected | src/lexer.rs:133-141 | the same steps with the corrected peek show `b`, and `next` hands out `b` |
| Lexing.PeekTwice | src/lexer.rs:133-141 | on `a b`, a first as-written peek shows `a`; a second one underflows the buffer index |
| Lexing.PeekTwiceCorrected | src/lexer.rs:133-141 | the same two peeks with the corrected peek both show `a` |
| Parsing.Precedence | src/parser.rs:40-55 | every operator binds at precedence 1, 3 or 9 |
| Parsing.PrecedenceTable | src/parser.rs:40-55 | precedence is 3 exactly for `* / %`, 1 exactly for `+ - == /= < > <= >=`, and 9 for every other operator |
| Parsing.IsStatement | src/parser.rs:57-62 | an expression is a statement exactly when it is not a name, literal, call, operator application or `let`, i.e. it needs no `;` |
| Parsing.ParseSub | src/parser.rs:111-138 | it succeeds only on a token that starts an expression, consuming at least one token; it reports that token exactly when the token cannot start an expression |
| Parsing.ParseItems | src/parser.rs:119-130 | a block keeps the statements already collected as a prefix and adds at least one more |
| Parsing.ParseStatement | src/parser.rs:78-105 | a successful statement consumes at least one token; an error never blames a token that starts an expression |
| Parsing.ParseExpression | src/parser.rs:107-110 | a successful expression consumes at least one token and stays within the sequence |
| Parsing.ParseOuter | src/parser.rs:148-182 | with an operator binding at least `min` current, the loop consumes the operator and an operand; otherwise the cursor stays put |
| Parsing.ParseInner | src/parser.rs:165-180 | the inner loop never moves the cursor back and stays within the sequence |
| Parsing.OuterStep | src/parser.rs:151-163 | one turn of the outer loop: the next operand becomes the pending right-hand side, or its error becomes the result |
| Parsing.InnerStep | src/parser.rs:167-179 | one turn of the inner loop: the tighter operator is folded into the right-hand side by a recursive parse at its precedence, or that parse's error becomes the result |
| Parsing.Parser.constructor | src/parser.rs:72-76 | a new parser starts at the first token |
| Parsing.Parser.Next | src/lexer.rs:144-154 | hands out the token at the cursor and advances |
| Parsing.Parser.Current | src/lexer.rs:157-159 | the token before the cursor, the one handed out last, or `TEOF` past the end of the stream |
| Parsing.Parser.Peek | src/lexer.rs:133-141 | the token at the cursor, the one `Next` hands out, or `TEOF` past the end of the stream |
| Parsing.Parser.Backtrack | src/lexer.rs:163-165 | moves the cursor back by one |
| Parsing.Parser.Statement | src/parser.rs:78-105 | its result and cursor are those of `ParseStatement` |
| Parsing.Parser.Expression | src/parser.rs:107-110 | its result and cursor are those of `ParseExpression` |
| Parsing.Parser.SubExpression | src/parser.rs:111-138 | its result and cursor are those of `ParseSub`, and a token that starts no expression is put back |
| Parsing.Parser.BinaryExpression | src/parser.rs:141-185 | its result and cursor are those of `ParseOuter` from the cursor on entry |
| Parsing.Parser.OuterTurn | src/parser.rs:151-180 | one turn of the outer loop: an error is the error `ParseOuter` reports from the operator, and otherwise the outer loop from the token after `rhs`, with `lhs op rhs` built, gives what `ParseOuter` gives from the operator |
| Parsing.Parser.FoldTighter | src/parser.rs:165-180 | the inner loop's result is what `ParseInner` computes, continued by the outer loop with `lhs op rhs` built |
| Parsing.Parser.InnerTurn | src/parser.rs:165-179 | one turn of the inner loop: a tighter operator is put back and folded into the right-hand side by a parse at its precedence; an error is the one `ParseInner` reports, and otherwise the inner loop from the next token, with the folded right-hand side, gives what `ParseInner` gives |
| Parsing.OuterEnds | src/parser.rs:155-159 | a token that is not an operator binding at least `min` ends the outer loop where it is |
| Parsing.InnerEnds | src/parser.rs:170-175 | a token that does not bind at least as tightly as the pending operator builds the pending operation |
| Parsing.OuterTakes | src/parser.rs:151-163 | an operator binding at least `min`, followed by an operand, makes a pending operation |
| Parsing.InnerFolds | src/parser.rs:165-179 | a tighter operator folds its parse into the pending right-hand side |
| Parsing.ExpressionOf | src/parser.rs:107-110 | an expression is its first operand followed by the operators binding at least 0 |
| Parsing.ParseOperators | src/parser.rs:209-221 | the tokens of `1 / 4 + (2 - 3) * 2` parse to `(1 / 4) + ((2 - 3) * 2)` and consume all of them |
| Parsing.ParseBlock | src/parser.rs:223-231 | the tokens of `1 / { let x = 2; x }` parse to `1 / Block[Let(x, 2), x]` and consume all of them |
| Parsing.ParseOperatorsWithParser | src/parser.rs:209-221 | a fresh parser's `expression` on the `operators` test's tokens returns the expected tree |
| Parsing.ParseBlockWithParser | src/parser.rs:223-231 | a fresh parser's `expression` on the `block` test's tokens returns the expected tree |
| Parsing.ExpressionStatement | src/parser.rs:91-103 | a non-`let` statement is its expression; it is terminated exactly when it needs no `;` or is followed by one; only that `;` is consumed |
| Parsing.LetStatement | src/parser.rs:80-90 | `let id = e ;` parses to a terminated `Let(id, e)`; a missing identifier, `=` or `;` is reported as an unexpected token, and an error in `e` is passed on |
| Parsing.EmptyBlockRejected | src/parser.rs:119-130 | `{ }` is rejected because `}` starts no statement |
| Parsing.TerminatedLastStatementRejected | src/parser.rs:119-130 | `{ x ; }` is rejected because a terminated statement must be followed by another one |
| Parsing.OperandExpr | src/parser.rs:111-133 | a single name or literal token parses to its operand |
| Parsing.NestsRight | src/parser.rs:165-179 | `a o1 b o2 c` groups as `a o1 (b o2 c)` when `o2` binds at least as tightly as `o1`, so equal precedences group to the right |
| Parsing.NestsLeft | src/parser.rs:151-159 | `a o1 b o2 c` groups as `(a o1 b) o2 c` when `o1` binds more tightly than `o2` |
| Parsing.OuterSpells | src/parser.rs:148-182 | over operands and operators, the outer loop's tree spells `lhs` followed by exactly the tokens it consumed |
| Parsing.InnerSpells | src/parser.rs:165-180 | over operands and operators, the inner loop's tree spells `lhs op rhs` followed by exactly the tokens it consumed |
| Parsing.ExpressionSpells | src/parser.rs:141-185 | over operands and operators, the tree of an expression spells exactly the tokens it consumed: nothing is lost or reordered |
| Parsing.OuterGroups | src/parser.rs:148-182 | over operands and operators, the outer loop keeps the tree grouped by precedence and leaves the cursor at a token that binds more loosely than the tree's operator; an operation it builds binds at least `min` |
| Parsing.OuterGroupsTaking | src/parser.rs:151-163 | taking an operator that binds at least `min` yields a grouped tree binding at least `min`, followed by a looser token |
| Parsing.InnerGroups | src/parser.rs:165-180 | with a pending `lhs op rhs` whose operands bind as precedence demands, the inner loop yields a grouped tree binding at least `min`, followed by a looser token |
| Parsing.InnerGroupsFolding | src/parser.rs:167-179 | folding a tighter operator into the right-hand side keeps the result grouped |
| Parsing.ExpressionGroups | src/parser.rs:107-110 | over operands and operators, a parsed expression is grouped: every left operand binds more tightly than its operation and every right operand at least as tightly |
| Parsing.OperatorBound | src/parser.rs:40-55 | in a grouped tree, every operator of its spelling binds at least as tightly as the tree's own operator |
| Parsing.SpellingLength | src/ast.rs:28-38 | an operand-and-operator tree spells an odd number of tokens, more than one exactly when it is an operation |
| Parsing.LeftSpellingNotShorter | src/parser.rs:151-179 | of two grouped operations with the same spelling, the first's left operand spells at least as many tokens as the second's, since the root operator is the leftmost of the loosest |
| Parsing.GroupedUnique | src/parser.rs:151-179 | two grouped trees with the same spelling are equal |
| Parsing.ExpressionIsTheGrouping | src/parser.rs:141-185 | for a chain of any length, the parse is exactly the grouped tree that spells the tokens consumed: precedence climbing with ties to the right |
| Passes.PassOutput | src/pass_manager.rs:30-35 | a pass contributes its collected diagnostics, followed by its visit error when the visit fails |
| Passes.RunOutput | src/pass_manager.rs:27-36 | nothing a pass reports is lost: every collected diagnostic and every failing visit's error is in the run's output |
| Passes.RunOutputAppend | src/pass_manager.rs:27-36 | the output of two runs of passes, one after the other, is the concatenation of their outputs; a failure does not cut the run short |
| Passes.RunOutputSplit | src/pass_manager.rs:27-36 | the output of pass `i` sits between the outputs of the passes before and after it |
| Passes.RunOutputEmptyIff | src/pass_manager.rs:25-38 | the run reports nothing exactly when no pass collected a diagnostic and no visit failed |
| Passes.SecondOfThreeFails | src/pass_manager.rs:27-36 | of three passes, the middle one failing without diagnostics gives exactly its error |
| Passes.PassManager.constructor | src/pass_manager.rs:8-10 | a new manager has no passes |
| Passes.PassManager.AddPass | src/pass_manager.rs:12-20 | a vetoed pass is not stored and `false` is returned; otherwise the pass is appended and `true` is returned |
| Passes.PassManager.Run | src/pass_manager.rs:22-39 | the returned diagnostics are `RunOutput` of the registered passes: each pass's collected diagnostics and visit error, in registration order |
| Passes.ManagerTests | src/pass_manager.rs:84-116 | a new manager is empty; an accepting pass is stored and a vetoing one is not; a run of the stored pass reports nothing when its visit succeeds and exactly its error when the visit fails |
| Lowering.IntWidth | src/llvm_lowering_pass.rs:121-127 | each integer size maps to the width 8, 16, 32, 64 or 128 |
| Lowering.IntWidthInjective | src/llvm_lowering_pass.rs:121-127 | distinct sizes get distinct widths |
| Lowering.KindType | src/llvm_lowering_pass.rs:118-138 | an integer kind maps to the integer type of its width; the void kind maps to the void type |
| Lowering.LiteralValue | src/llvm_lowering_pass.rs:241-253 | a boolean literal maps to a 1-bit constant, which is 1 exactly when the literal is true |
| Lowering.GetFunctionTypeFrom | src/llvm_lowering_pass.rs:46-62 | succeeds exactly for integer, float and void return types, giving a parameterless signature over them; otherwise fails with the Internal diagnostic "unexpected point reached" |
| Lowering.KindTypeHasSignature | src/llvm_lowering_pass.rs:141-149 | every kind's type has a signature, so the visit methods never take the error exit |
| Lowering.DeclOf | src/llvm_lowering_pass.rs:151-158 | functions are declared with External linkage exactly when public and Private otherwise; externals are always External |
| Lowering.ReturnResult | src/llvm_lowering_pass.rs:227-239 | a return statement fails with "unimplemented" exactly when its value is not cached |
| Lowering.BlockResult | src/llvm_lowering_pass.rs:218-222 | a block succeeds exactly when all its statements do; a failure is "unimplemented" |
| Lowering.EffectiveBody | src/llvm_lowering_pass.rs:160-172 | an empty body is replaced by a single value-less return; any other body is kept |
| Lowering.EmptyBodyLowers | src/llvm_lowering_pass.rs:160-172 | a function with an empty body lowers without error |
| Lowering.LlvmLoweringPass.constructor | src/llvm_lowering_pass.rs:30-43 | a new pass has empty type and value maps and no current function or block |
| Lowering.LlvmLoweringPass.VisitIntKind | src/llvm_lowering_pass.rs:118-130 | records exactly one entry, the integer type of the kind's width, and succeeds |
| Lowering.LlvmLoweringPass.VisitVoidKind | src/llvm_lowering_pass.rs:132-138 | records the void type for the void kind and succeeds |
| Lowering.LlvmLoweringPass.VisitOrRetrieveType | src/llvm_lowering_pass.rs:71-83 | afterwards the node is cached with its type, which is returned; an already cached node leaves the map unchanged |
| Lowering.LlvmLoweringPass.VisitOrRetrieveValue | src/llvm_lowering_pass.rs:91-108 | a cached value is returned; an uncached one fails with "unimplemented" |
| Lowering.LlvmLoweringPass.VisitBoolLiteral | src/llvm_lowering_pass.rs:241-253 | caches the 1-bit constant of the literal and succeeds |
| Lowering.LlvmLoweringPass.VisitReturnStmt | src/llvm_lowering_pass.rs:227-239 | fails with "internal assertion failed" when no block is current; otherwise fails exactly when a returned value is not cached |
| Lowering.LlvmLoweringPass.VisitBlock | src/llvm_lowering_pass.rs:204-225 | fails with "internal assertion failed" and changes nothing when no function is current; otherwise opens a block in the current function, makes it current and visits the statements in order |
| Lowering.LlvmLoweringPass.VisitFunction | src/llvm_lowering_pass.rs:140-173 | caches the return kind; declares the function with the linkage of `DeclOf` and makes it current; visits the effective body in a new block |
| Lowering.LlvmLoweringPass.VisitExternal | src/llvm_lowering_pass.rs:186-202 | caches the return kind, declares the external with External linkage and succeeds; the cursors are left alone |
| Lowering.LlvmLoweringPass.VisitTopLevel | src/llvm_lowering_pass.rs:176-180 | the new state is `Step` of the old one: the declaration of `DeclOf` appended, the return kind cached, and for a function a new block with the function and block current; fails exactly when the symbol cannot be lowered |
| Lowering.LlvmLoweringPass.VisitSymbol | src/llvm_lowering_pass.rs:176-181 | one loop turn: the symbol becomes the next one of the visiting order, and the new state is that of the order visited so far followed by it |
| Lowering.LlvmLoweringPass.VisitNamespace | src/llvm_lowering_pass.rs:175-184 | visits the symbols in some order without repeats and leaves the state of visiting them one after the other; keeps the module name and the earlier declarations and appends exactly the declarations of that order; success means every symbol was visited and every one can be lowered; failure is "unimplemented", at the first symbol that cannot be lowered |
| Lowering.ReplayDeclares | src/llvm_lowering_pass.rs:176-184 | visiting a sequence of symbols keeps the module name and earlier declarations, appends one declaration per symbol in the order visited, and caches exactly the return kinds of those symbols in addition to the old ones |
| Lowering.ReplayCountsFunctions | src/llvm_lowering_pass.rs:176-184 | visiting a sequence of symbols declares one function per symbol |
| Lowering.ReplayKeepsBlocks | src/llvm_lowering_pass.rs:140-173 | visiting symbols keeps the blocks opened before |
| Lowering.ReplayBlocks | src/llvm_lowering_pass.rs:140-173 | every block opened while visiting symbols belongs to one of the new functions, one declared for a function node |
| Lowering.ReplayCursors | src/llvm_lowering_pass.rs:140-173 | after visiting symbols the cursors are either unchanged or name the last opened block and its function |
| Lowering.EnumeratesStep | src/llvm_lowering_pass.rs:176-181 | visiting one more remaining symbol keeps the visiting order free of repeats and the remaining symbols its complement |
| Lowering.MemoisesOnce | src/llvm_lowering_pass.rs:261-288 | a fresh pass caches no types; one lookup caches one entry; a second lookup of an equal node returns the same type and adds nothing |
| Lowering.VisitKindsCacheOneEntry | src/llvm_lowering_pass.rs:290-314 | visiting the void kind or an integer kind succeeds and leaves one entry |
| Lowering.LowerEmptyPrivateFunction | src/llvm_lowering_pass.rs:316-339 | a private void function with an empty body lowers; it is declared Private and becomes the current function |

## Left out

- Lexing: each token is modelled by the text it carries. Identifier, string and operator payloads are that text, not interned handles. `Interning` models the interner, and its bijection lemmas show that the two forms determine each other.
- Lexing: `TFloat` keeps its digit text; the `f64` parse of that text is floating point and is not modelled.
- Lexing: letters and digits are ASCII. The source's `is_alphabetic` and `is_alphanumeric` also accept other Unicode letters. Whitespace follows Rust's full `is_whitespace` set.
- Lexing: the three panics of `next_token` become `LexError` results. They are an unterminated string or character literal, a character literal with more than one character, and an integer literal's `unwrap` failing when the value exceeds `i32`.
- Lexing.Lexer.constructor: requires a non-empty input, because the source's first `read_char().unwrap()` panics on an empty one.
- Lexing: the ring buffer is the last 20 tokens produced. A full buffer drops its oldest entry; the crate's behaviour here is assumed.
- Lexing.Lexer.Backtrack and Lexing.Lexer.Current: require the buffer to still hold the token stepped back to. The source leaves this unchecked, with a TODO.
- Lexing.Lexer.PeekAsWritten: when the offset equals the buffer length, as after two peeks on a fresh lexer, the source's `usize` index `len - offset - 1` underflows. That panics in a debug build and wraps in a release build; the model returns the error `IndexUnderflow` and changes nothing.
- `Location`, `Display` implementations, `println!` and `debug!` logging are not modelled: none of them affects a result.
- Parsing: the parser works over the token sequence its lexer hands out, read through a cursor. Past the end the stream yields `TEOF`, as the lexer does at the end of its input. Lexing errors and the ring buffer's 20-token limit on backtracking are therefore not part of the parser's model.
- Parsing: the parser uses the corrected `peek` (see Findings).
- Parsing: errors are values (`UnexpectedToken`, `DoesNotStartExpression`) rather than formatted messages.
- Parsing: `rhs = self.binary_expression(rhs, lookahead);` has no `?` in the source, so it does not type-check. It is modelled as passing the error on.
- Parsing: `Literal(TString(s))` also names a token constructor instead of `ast::Literal::String`. It is modelled as a string literal.
- Parsing: the body of the outer loop of `binary_expression` is the method `OuterTurn`, the inner loop is the method `FoldTighter` and its body the method `InnerTurn`, so each has its own contract.
- Parsing: operators of equal precedence group to the right (`NestsRight`, and for chains of any length `ExpressionIsTheGrouping`), as the code does.
- Interning: the thread-local interner plumbing, `intern`, `set_local_interner` and `as_slice` are not modelled. They are ambient global state and lifetime erasure; the model uses an explicit interner value.
- Interning.Interner.GetStr: requires a handle below `strings.len()`; a handle past the end is a panic in the source.
- Passes: a pass is modelled by what the manager observes of it: its answer to `register`, its visit result and its collected diagnostics. The root node passed to `run` is therefore not modelled. `src/pass.rs` and the `accept` methods are not modelled either, since their bodies have no observable effect.
- Lowering: inkwell is replaced by an abstract target. Its context, builder, `fn_type`, `const_int` and `append_basic_block` become plain data.
- Lowering: the commented-out `build_return` is not implemented in the source, so no return instruction is recorded.
- Lowering: `visit_prototype` returns `Ok(())` and is not modelled.
- Lowering: the `?`, `assert!` and `unwrap` exits after `visit_or_retrieve_type` in `visit_function` and `visit_external` cannot be taken; `KindTypeHasSignature` proves it. The model does not include them.
- Lowering.LlvmLoweringPass.VisitNamespace: the iteration order of the symbol table's `HashMap` is unspecified, so the contract returns the order as a ghost value and holds for any order without fixing one.

## Findings

| source | as written | input that shows it | evidently intended | confidence | as-written member | corrected member |
|---|---|---|---|---|---|---|
| src/lexer.rs:134-135 | once backtracked, `peek` returns `tokens[len - offset - 1]`, the token handed out last | lexer over `a b`: `next`, `next`, `backtrack`, then `peek` shows `a` while the following `next` hands out `b` | `peek` returns `tokens[len - offset]`, the token the next `next` hands out | not executed | Lexing.PeekAfterBacktrack | Lexing.PeekAfterBacktrackCorrected |
| src/lexer.rs:134-135 | with an offset, `peek` indexes `tokens[len - offset - 1]` even when `offset == len` | fresh lexer over `a b`: `peek`, then `peek` again, with one token buffered and `offset == 1`, so the index is `1 - 1 - 1` | the index `tokens[len - offset]`, which stays in the buffer | not executed | Lexing.PeekTwice | Lexing.PeekTwiceCorrected |

With the as-written `peek`, a block such as `{ x; y }` would be misread. After `binary_expression` backtracks, `statement` peeks at `x` instead of `;`, so `x` is taken as unterminated. `Lexing.Lexer.PeekAsWritten` models the code as written. `Lexing.Lexer.Peek` is the corrected definition, and `Lexing.PeekThenNext` proves that `next` then hands out what `peek` showed.
