/** The character lexer of src/lexer.rs: `next_token` classifies the next
    lexeme by its first character, and `Lexer` keeps the tokens it has produced
    in a bounded buffer that `backtrack` steps back through. The input is a
    sequence of characters and `pos` is the index of the character `peek_c`
    holds (`peek_c` is `None` exactly when `pos` is the end of the input). */
module Lexing {
  import opened Wrappers

  /** `Token`. Identifier, string and operator payloads carry their text rather
      than an interned handle, and a float carries its digit text. */
  datatype Token =
    | TInteger(value: int)
    | TFloat(text: string)
    | TString(text: string)
    | TChar(c: char)
    | TIf
    | TElse
    | TMatch
    | TFn
    | TIdentifier(name: string)
    | TOpenBrace
    | TCloseBrace
    | TOpenParen
    | TCloseParen
    | TOpenBracket
    | TCloseBracket
    | TOperator(op: string)
    | TSemicolon
    | TDot
    | TComma
    | TColon
    | TLet
    | TAssign
    | TEOF

  /** The three panics of `next_token`: end of input inside a string or a
      character literal, a character literal that is not closed after one
      character, and an integer literal that `i32` cannot hold; and the
      `usize` underflow of the as-written `peek`'s buffer index. */
  datatype LexError = UnexpectedEof | MultiCharCharacter | IntegerOverflow | IndexUnderflow

  /** The largest `i32`. */
  const I32Max := 0x7FFF_FFFF

  /** The capacity of the token ring buffer. */
  const Capacity := 20

  /** `is_operator`. No operator character starts any other kind of lexeme,
      so the order in which `next_token` tests the classes does not matter for
      them. */
  predicate IsOperator(c: char)
    ensures IsOperator(c) ==> !IsDigit(c) && !IsIdentifierChar(c) && c != '"' && c != '\''
  {
    || c == '+' || c == '-' || c == '*' || c == '/' || c == '.' || c == '$' || c == ':'
    || c == '=' || c == '<' || c == '>' || c == '|' || c == '&' || c == '!'
  }

  /** `char::is_whitespace`: the characters with the Unicode White_Space property. */
  predicate IsWhitespace(c: char)
  {
    var n := c as int;
    || 9 <= n <= 13 || n == 0x20 || n == 0x85 || n == 0xA0 || n == 0x1680
    || 0x2000 <= n <= 0x200A || n == 0x2028 || n == 0x2029 || n == 0x202F
    || n == 0x205F || n == 0x3000
  }

  predicate IsDigit(c: char)
  {
    '0' <= c <= '9'
  }

  predicate IsAlphabetic(c: char)
  {
    'a' <= c <= 'z' || 'A' <= c <= 'Z'
  }

  /** The first character of an identifier. */
  predicate IsIdentifierStart(c: char)
  {
    IsAlphabetic(c) || c == '_'
  }

  /** The characters `scan_identifier` keeps reading. */
  predicate IsIdentifierChar(c: char)
  {
    IsAlphabetic(c) || IsDigit(c) || c == '_'
  }

  /** The three character classes a lexeme is a maximal run of. */
  datatype CharClass = Operators | Digits | IdentifierChars

  predicate InClass(c: char, cls: CharClass)
  {
    match cls
    case Operators => IsOperator(c)
    case Digits => IsDigit(c)
    case IdentifierChars => IsIdentifierChar(c)
  }

  /** The end of the maximal run of `cls` characters that starts at `i`. */
  function RunEnd(s: seq<char>, i: nat, cls: CharClass): (j: nat)
    requires i <= |s|
    ensures i <= j <= |s|
    ensures forall k :: i <= k < j ==> InClass(s[k], cls)
    ensures j < |s| ==> !InClass(s[j], cls)
    decreases |s| - i
  {
    if i < |s| && InClass(s[i], cls) then RunEnd(s, i + 1, cls) else i
  }

  /** The first character at or after `i` that is not whitespace, or the end. */
  function SkipSpace(s: seq<char>, i: nat): (j: nat)
    requires i <= |s|
    ensures i <= j <= |s|
    ensures forall k :: i <= k < j ==> IsWhitespace(s[k])
    ensures j < |s| ==> !IsWhitespace(s[j])
    decreases |s| - i
  {
    if i < |s| && IsWhitespace(s[i]) then SkipSpace(s, i + 1) else i
  }

  /** The first double quote at or after `i`, if any. */
  function ClosingQuote(s: seq<char>, i: nat): (q: Option<nat>)
    requires i <= |s|
    ensures q.Some? ==> i <= q.value < |s| && s[q.value] == '"'
    ensures forall k :: i <= k < (if q.Some? then q.value else |s|) ==> s[k] != '"'
    decreases |s| - i
  {
    if i == |s| then None else if s[i] == '"' then Some(i) else ClosingQuote(s, i + 1)
  }

  predicate IsKeyword(text: string)
  {
    text == "if" || text == "else" || text == "fn" || text == "let"
  }

  /** `name_or_keyword`. */
  function NameOrKeyword(text: string): (t: Token)
    ensures t.TIdentifier? <==> !IsKeyword(text)
    ensures t.TIdentifier? ==> t.name == text
    ensures t == TIf <==> text == "if"
    ensures t == TElse <==> text == "else"
    ensures t == TFn <==> text == "fn"
    ensures t == TLet <==> text == "let"
  {
    match text
    case "if" => TIf
    case "else" => TElse
    case "fn" => TFn
    case "let" => TLet
    case _ => TIdentifier(text)
  }

  /** Distinct texts give distinct tokens. */
  lemma NameOrKeywordInjective(a: string, b: string)
    requires NameOrKeyword(a) == NameOrKeyword(b)
    ensures a == b
  {
    if IsKeyword(a) {
      assert IsKeyword(b);
    }
  }

  function Pow10(n: nat): (p: nat)
    ensures p >= 1
  {
    if n == 0 then 1 else 10 * Pow10(n - 1)
  }

  function DigitValue(c: char): (d: nat)
    requires IsDigit(c)
    ensures d < 10
  {
    c as int - '0' as int
  }

  /** The value of a decimal digit text, as `FromStr` reads it. */
  function DigitsValue(text: string): (v: nat)
    requires forall k :: 0 <= k < |text| ==> IsDigit(text[k])
    ensures v < Pow10(|text|)
    decreases |text|
  {
    if text == [] then 0
    else
      var init := text[..|text| - 1];
      assert forall k :: 0 <= k < |init| ==> init[k] == text[k];
      DigitsValue(init) * 10 + DigitValue(text[|text| - 1])
  }

  /** Two digit texts of the same length with the same value are the same
      text: an integer token's value determines its digits once their count
      (and so the leading zeros) is known. */
  lemma {:induction false} DigitsValueInjective(a: string, b: string)
    requires forall k :: 0 <= k < |a| ==> IsDigit(a[k])
    requires forall k :: 0 <= k < |b| ==> IsDigit(b[k])
    requires |a| == |b| && DigitsValue(a) == DigitsValue(b)
    ensures a == b
    decreases |a|
  {
    if a != [] {
      var n := |a|;
      var initA, initB := a[..n - 1], b[..n - 1];
      assert forall k :: 0 <= k < n - 1 ==> initA[k] == a[k] && initB[k] == b[k];
      var x, y := DigitsValue(initA), DigitsValue(initB);
      var da, db := DigitValue(a[n - 1]), DigitValue(b[n - 1]);
      assert (x - y) * 10 == db - da;
      DigitsValueInjective(initA, initB);
      assert a == initA + [a[n - 1]] && b == initB + [b[n - 1]];
    }
  }

  /** A lexeme: its token, the index of its first character and the index after it. */
  datatype Scanned = Scanned(token: Token, start: nat, next: nat)

  /** The operator cluster starting at `j`: `=` and `:` alone have tokens of
      their own. */
  function OperatorLexeme(s: seq<char>, j: nat): (r: Scanned)
    requires j < |s| && IsOperator(s[j])
    ensures r.start == j < r.next <= |s|
  {
    var e := RunEnd(s, j + 1, Operators);
    var text := s[j..e];
    Scanned(if text == "=" then TAssign else if text == ":" then TColon else TOperator(text), j, e)
  }

  /** `scan_number` from the digit at `j`. */
  function NumberLexeme(s: seq<char>, j: nat): (r: Result<Scanned, LexError>)
    requires j < |s| && IsDigit(s[j])
    ensures r.Ok? ==> r.value.start == j < r.value.next <= |s|
  {
    var e := RunEnd(s, j + 1, Digits);
    if e < |s| && s[e] == '.' then
      Ok(Scanned(TFloat(s[j..RunEnd(s, e + 1, Digits)]), j, RunEnd(s, e + 1, Digits)))
    else
      assert forall k :: 0 <= k < |s[j..e]| ==> s[j..e][k] == s[j + k];
      var v := DigitsValue(s[j..e]);
      if v > I32Max then Err(IntegerOverflow) else Ok(Scanned(TInteger(v), j, e))
  }

  /** `scan_identifier` from the letter or underscore at `j`. */
  function IdentifierLexeme(s: seq<char>, j: nat): (r: Scanned)
    requires j < |s| && IsIdentifierStart(s[j])
    ensures r.start == j < r.next <= |s|
  {
    var e := RunEnd(s, j + 1, IdentifierChars);
    Scanned(NameOrKeyword(s[j..e]), j, e)
  }

  /** A string literal from the quote at `j`; its text keeps both quotes. */
  function StringLexeme(s: seq<char>, j: nat): (r: Result<Scanned, LexError>)
    requires j < |s|
    ensures r.Ok? ==> r.value.start == j < r.value.next <= |s|
  {
    match ClosingQuote(s, j + 1)
    case None => Err(UnexpectedEof)
    case Some(q) => Ok(Scanned(TString(s[j..q + 1]), j, q + 1))
  }

  /** A character literal from the quote at `j`. */
  function CharLexeme(s: seq<char>, j: nat): (r: Result<Scanned, LexError>)
    requires j < |s|
    ensures r.Ok? ==> r.value.start == j < r.value.next <= |s|
  {
    if j + 1 == |s| then Err(UnexpectedEof)
    else if j + 2 < |s| && s[j + 2] == '\'' then Ok(Scanned(TChar(s[j + 1]), j, j + 3))
    else Err(MultiCharCharacter)
  }

  /** The structural characters; anything else ends the stream. Each
      structural token comes from a character of no other class. */
  function SymbolToken(c: char): (t: Token)
    ensures t in {TEOF, TSemicolon, TOpenParen, TCloseParen, TOpenBracket, TCloseBracket, TOpenBrace, TCloseBrace, TComma}
    ensures t != TEOF ==> !IsWhitespace(c) && !IsOperator(c) && !IsDigit(c) && !IsIdentifierChar(c) && c != '"' && c != '\''
  {
    match c
    case ';' => TSemicolon
    case '(' => TOpenParen
    case ')' => TCloseParen
    case '[' => TOpenBracket
    case ']' => TCloseBracket
    case '{' => TOpenBrace
    case '}' => TCloseBrace
    case ',' => TComma
    case _ => TEOF
  }

  /** The lexeme whose first character is at `j`, by the class of that character. */
  function Classify(s: seq<char>, j: nat): (r: Result<Scanned, LexError>)
    requires j < |s|
    ensures r.Ok? ==> r.value.start == j < r.value.next <= |s|
  {
    var c := s[j];
    if IsOperator(c) then Ok(OperatorLexeme(s, j))
    else if IsDigit(c) then NumberLexeme(s, j)
    else if IsIdentifierStart(c) then Ok(IdentifierLexeme(s, j))
    else if c == '"' then StringLexeme(s, j)
    else if c == '\'' then CharLexeme(s, j)
    else Ok(Scanned(SymbolToken(c), j, j + 1))
  }

  /** `next_token` from index `i`: skip whitespace, then classify. */
  function Scan(s: seq<char>, i: nat): (r: Result<Scanned, LexError>)
    requires i <= |s|
    ensures r.Ok? ==> r.value.start == SkipSpace(s, i) && i <= r.value.start <= r.value.next <= |s|
    ensures r.Ok? ==> (r.value.start == r.value.next <==> r.value.start == |s|)
  {
    var j := SkipSpace(s, i);
    if j == |s| then Ok(Scanned(TEOF, |s|, |s|)) else Classify(s, j)
  }

  /** The first `n` tokens of `s` and the index after the last of them. */
  datatype Lexed = Lexed(tokens: seq<Token>, pos: nat)

  function Lex(s: seq<char>, n: nat): (r: Result<Lexed, LexError>)
    ensures r.Ok? ==> |r.value.tokens| == n && r.value.pos <= |s|
  {
    if n == 0 then Ok(Lexed([], 0))
    else
      match Lex(s, n - 1)
      case Err(e) => Err(e)
      case Ok(l) =>
        match Scan(s, l.pos)
        case Err(e) => Err(e)
        case Ok(sc) => Ok(Lexed(l.tokens + [sc.token], sc.next))
  }

  // Properties of the classification.

  /** A lexeme that starts on a character other than whitespace is classified
      by that character. */
  lemma ScanClassifies(s: seq<char>, j: nat)
    requires j < |s| && !IsWhitespace(s[j])
    ensures Scan(s, j) == Classify(s, j)
  {
    assert SkipSpace(s, j) == j;
  }

  /** Whitespace before a lexeme does not change it, and input that is all
      whitespace from `i` on yields `TEOF` at the end. */
  lemma {:induction false} ScanSkipsWhitespace(s: seq<char>, i: nat, k: nat)
    requires i <= k <= |s|
    requires forall m :: i <= m < k ==> IsWhitespace(s[m])
    ensures Scan(s, i) == Scan(s, k)
    ensures k == |s| ==> Scan(s, i) == Ok(Scanned(TEOF, |s|, |s|))
    decreases k - i
  {
    if i < k {
      assert SkipSpace(s, i) == SkipSpace(s, i + 1);
      ScanSkipsWhitespace(s, i + 1, k);
    }
  }

  /** An operator character starts a maximal cluster of operator characters;
      the cluster `=` is `TAssign`, `:` is `TColon`, any other is `TOperator`. */
  lemma OperatorCluster(s: seq<char>, j: nat)
    requires j < |s| && IsOperator(s[j])
    ensures Scan(s, j).Ok?
    ensures var sc := Scan(s, j).value;
      && (forall k :: j <= k < sc.next ==> IsOperator(s[k]))
      && (sc.next < |s| ==> !IsOperator(s[sc.next]))
      && (sc.token == TAssign <==> s[j..sc.next] == "=")
      && (sc.token == TColon <==> s[j..sc.next] == ":")
      && (sc.token.TOperator? <==> s[j..sc.next] != "=" && s[j..sc.next] != ":")
      && (sc.token.TOperator? ==> sc.token.op == s[j..sc.next])
  {
    ScanClassifies(s, j);
  }

  lemma ScanNumber(s: seq<char>, j: nat)
    requires j < |s| && IsDigit(s[j])
    ensures Scan(s, j) == NumberLexeme(s, j)
  {
    ScanClassifies(s, j);
  }

  /** A number lexeme with a `.` after its first run of digits is a float
      over the digits, the `.` and the run of digits after it. */
  lemma NumberLexemeDotted(s: seq<char>, j: nat, e: nat)
    requires j < |s| && IsDigit(s[j]) && e == RunEnd(s, j + 1, Digits)
    requires e < |s| && s[e] == '.'
    ensures NumberLexeme(s, j) == Ok(Scanned(TFloat(s[j..RunEnd(s, e + 1, Digits)]), j, RunEnd(s, e + 1, Digits)))
  {
  }

  /** A number lexeme without a `.` after its digits is an integer holding
      their value, or an overflow when `i32` cannot hold it. */
  lemma NumberLexemeUndotted(s: seq<char>, j: nat, e: nat)
    requires j < |s| && IsDigit(s[j]) && e == RunEnd(s, j + 1, Digits)
    requires !(e < |s| && s[e] == '.')
    ensures forall k :: 0 <= k < |s[j..e]| ==> IsDigit(s[j..e][k])
    ensures NumberLexeme(s, j) == if DigitsValue(s[j..e]) > I32Max then Err(IntegerOverflow)
                                  else Ok(Scanned(TInteger(DigitsValue(s[j..e])), j, e))
  {
    assert forall k :: 0 <= k < |s[j..e]| ==> s[j..e][k] == s[j + k];
  }

  /** A number is a maximal run of digits; when a `.` follows it the `.` and
      the run of digits after it make the lexeme a float. */
  lemma FloatWhenDotted(s: seq<char>, j: nat, e: nat)
    requires j < |s| && IsDigit(s[j]) && e == RunEnd(s, j, Digits)
    requires e < |s| && s[e] == '.'
    ensures forall k :: j <= k < e ==> IsDigit(s[k])
    ensures Scan(s, j) == Ok(Scanned(TFloat(s[j..RunEnd(s, e + 1, Digits)]), j, RunEnd(s, e + 1, Digits)))
  {
    ScanNumber(s, j);
    assert RunEnd(s, j, Digits) == RunEnd(s, j + 1, Digits);
    NumberLexemeDotted(s, j, e);
  }

  /** Without a `.` after the digits the lexeme is an integer holding their
      value, or an overflow when `i32` cannot hold it; so a number is a float
      exactly when a `.` follows its digits. */
  lemma IntegerWhenNotDotted(s: seq<char>, j: nat, e: nat)
    requires j < |s| && IsDigit(s[j]) && e == RunEnd(s, j, Digits)
    requires !(e < |s| && s[e] == '.')
    ensures forall k :: 0 <= k < |s[j..e]| ==> IsDigit(s[j..e][k])
    ensures Scan(s, j) == if DigitsValue(s[j..e]) > I32Max then Err(IntegerOverflow)
                          else Ok(Scanned(TInteger(DigitsValue(s[j..e])), j, e))
  {
    ScanNumber(s, j);
    assert RunEnd(s, j, Digits) == RunEnd(s, j + 1, Digits);
    NumberLexemeUndotted(s, j, e);
  }

  /** A letter or underscore starts a maximal identifier run; the four keyword
      texts give their keywords and any other text an identifier. */
  lemma IdentifierShape(s: seq<char>, j: nat)
    requires j < |s| && IsIdentifierStart(s[j])
    ensures Scan(s, j).Ok?
    ensures var sc := Scan(s, j).value;
      && (forall k :: j <= k < sc.next ==> IsIdentifierChar(s[k]))
      && (sc.next < |s| ==> !IsIdentifierChar(s[sc.next]))
      && sc.token == NameOrKeyword(s[j..sc.next])
      && (sc.token.TIdentifier? <==> !IsKeyword(s[j..sc.next]))
  {
    ScanClassifies(s, j);
  }

  /** `'x'` is `TChar(x)`; end of input right after the quote is an unexpected
      end, and anything other than a closing quote right after one character
      is a multi-character literal. */
  lemma CharShape(s: seq<char>, j: nat)
    requires j < |s| && s[j] == '\''
    ensures j + 1 == |s| ==> Scan(s, j) == Err(UnexpectedEof)
    ensures j + 2 < |s| && s[j + 2] == '\'' ==> Scan(s, j) == Ok(Scanned(TChar(s[j + 1]), j, j + 3))
    ensures j + 1 < |s| && !(j + 2 < |s| && s[j + 2] == '\'') ==> Scan(s, j) == Err(MultiCharCharacter)
  {
    ScanClassifies(s, j);
  }

  /** A string runs to the next double quote, quotes included; without one the
      input ends inside the string. */
  lemma StringShape(s: seq<char>, j: nat)
    requires j < |s| && s[j] == '"'
    ensures Scan(s, j).Err? <==> forall k :: j < k < |s| ==> s[k] != '"'
    ensures Scan(s, j).Err? ==> Scan(s, j).error == UnexpectedEof
    ensures Scan(s, j).Ok? ==> var sc := Scan(s, j).value;
      && sc.token == TString(s[j..sc.next]) && s[sc.next - 1] == '"' && j + 2 <= sc.next
      && forall k :: j < k < sc.next - 1 ==> s[k] != '"'
  {
    ScanClassifies(s, j);
    var q := ClosingQuote(s, j + 1);
    if q.Some? {
      assert s[q.value] == '"';
    }
  }

  /** Distinct structural characters give distinct tokens. */
  lemma SymbolTokenInjective(c: char, d: char)
    requires SymbolToken(c) == SymbolToken(d) != TEOF
    ensures c == d
  {
  }

  /** Any other character is one lexeme: a structural token or `TEOF`. */
  lemma SymbolShape(s: seq<char>, j: nat)
    requires j < |s| && !IsWhitespace(s[j]) && !IsOperator(s[j]) && !IsDigit(s[j])
    requires !IsIdentifierStart(s[j]) && s[j] != '"' && s[j] != '\''
    ensures Scan(s, j) == Ok(Scanned(SymbolToken(s[j]), j, j + 1))
    ensures SymbolToken(s[j]) != TEOF <==> s[j] in ";()[]{},"
  {
    ScanClassifies(s, j);
  }

  /** A run ends where its class does not continue. */
  lemma RunStops(s: seq<char>, i: nat, cls: CharClass)
    requires i <= |s| && (i == |s| || !InClass(s[i], cls))
    ensures RunEnd(s, i, cls) == i
  {
  }

  /** A run that continues at `i` ends where the run from `i + 1` ends. */
  lemma RunContinues(s: seq<char>, i: nat, cls: CharClass)
    requires i < |s| && InClass(s[i], cls)
    ensures RunEnd(s, i, cls) == RunEnd(s, i + 1, cls)
  {
  }

  lemma SliceExtends(s: seq<char>, i: nat, k: nat)
    requires i <= k < |s|
    ensures s[i..k + 1] == s[i..k] + [s[k]]
  {
  }

  // The token buffer.

  /** `RingBuffer::push` on a buffer of `Capacity` entries: once full, the
      oldest entry makes room for the new one. */
  function Push(buf: seq<Token>, t: Token): (r: seq<Token>)
    ensures |r| == if |buf| < Capacity then |buf| + 1 else |buf|
    ensures r[|r| - 1] == t
  {
    if |buf| < Capacity then buf + [t] else buf[1..] + [t]
  }

  /** The last `Capacity` tokens of `produced`. */
  function Recent(produced: seq<Token>): (r: seq<Token>)
    ensures |r| <= Capacity && |r| <= |produced| && r == produced[|produced| - |r|..]
    ensures |r| == Capacity || r == produced
  {
    if |produced| <= Capacity then produced else produced[|produced| - Capacity..]
  }

  /** Pushing onto the buffer of the recent tokens gives the recent tokens of
      the longer history. */
  lemma PushKeepsRecent(produced: seq<Token>, t: Token)
    requires |Recent(produced)| <= Capacity
    ensures Push(Recent(produced), t) == Recent(produced + [t])
  {
    if |produced| >= Capacity {
      assert Recent(produced)[1..] + [t] == (produced + [t])[|produced| + 1 - Capacity..];
    }
  }

  /** Until the buffer fills up, it holds the whole history. */
  lemma RecentOfShort(produced: seq<Token>)
    requires |produced| <= Capacity
    ensures Recent(produced) == produced
  {
  }

  /** The token `back` places before the end of the buffer is the token
      that many places before the end of the whole history. */
  lemma RecentAt(produced: seq<Token>, tokens: seq<Token>, back: nat)
    requires tokens == Recent(produced) && 0 < back <= |tokens|
    ensures back <= |produced| && tokens[|tokens| - back] == produced[|produced| - back]
  {
  }

  /** The state of a lexer over `input`: `produced` is what lexing from the
      start yields, the buffer holds the most recent of those tokens and
      `offset` counts the ones stepped back over. */
  ghost predicate Buffered(input: seq<char>, pos: nat, tokens: seq<Token>, offset: nat, produced: seq<Token>)
  {
    && pos <= |input|
    && tokens == Recent(produced)
    && offset <= |tokens|
    // Stated under a trigger, so that lexing the whole prefix is unfolded only
    // in proofs that speak of it.
    && forall n {:trigger Lex(input, n)} :: n == |produced| ==> Lex(input, n) == Ok(Lexed(produced, pos))
  }

  /** Scanning one more token and pushing it keeps the lexer state. */
  lemma BufferedPush(input: seq<char>, pos: nat, tokens: seq<Token>, produced: seq<Token>, sc: Scanned)
    requires Buffered(input, pos, tokens, 0, produced)
    requires Scan(input, pos) == Ok(sc)
    ensures Buffered(input, sc.next, Push(tokens, sc.token), 0, produced + [sc.token])
  {
    PushKeepsRecent(produced, sc.token);
  }

  /** Lexing one token more than `produced` either scans at the end of
      `produced` or fails with the scanning error. */
  lemma LexNext(input: seq<char>, pos: nat, produced: seq<Token>)
    requires Lex(input, |produced|) == Ok(Lexed(produced, pos))
    requires pos <= |input|
    ensures Scan(input, pos).Err? ==> Lex(input, |produced| + 1) == Err(Scan(input, pos).error)
    ensures Scan(input, pos).Ok? ==>
      Lex(input, |produced| + 1) == Ok(Lexed(produced + [Scan(input, pos).value.token], Scan(input, pos).value.next))
  {
  }

  /** `Lexer`. `produced` is every token pushed so far; the buffer holds the
      most recent of them, `Consumed()` of them have been handed out, and the
      ones handed out are the first `Consumed()` tokens of the input. */
  class Lexer {
    const input: seq<char>
    var pos: nat
    var buffer: string
    var tokens: seq<Token>
    var offset: nat
    ghost var produced: seq<Token>

    ghost predicate Valid()
      reads this
    {
      Buffered(input, pos, tokens, offset, produced)
    }

    /** How many tokens of the stream have been handed out. */
    ghost function Consumed(): nat
      reads this
      requires Valid()
    {
      |produced| - offset
    }

    /** `Lexer::new`: the first character of a non-empty input is read into
        `peek_c`; an empty input makes the `unwrap` panic. */
    constructor (s: string)
      requires |s| > 0
      ensures Valid() && input == s && pos == 0 && buffer == [] && tokens == [] && offset == 0 && produced == []
      ensures Consumed() == 0
    {
      input, pos, buffer, tokens, offset, produced := s, 0, [], [], 0, [];
    }

    /** `peek_char`: the character at `pos`, if any. */
    function PeekChar(): (c: Option<char>)
      reads this
      ensures c.Some? <==> pos < |input|
      ensures c.Some? ==> c.value == input[pos]
    {
      if pos < |input| then Some(input[pos]) else None
    }

    /** `read_char`: hands out the character at `pos` and appends it to the buffer. */
    method ReadChar() returns (c: Option<char>)
      modifies this`pos, this`buffer
      ensures old(pos) < |input| ==> c == Some(input[old(pos)]) && pos == old(pos) + 1 && buffer == old(buffer) + [c.value]
      ensures old(pos) >= |input| ==> c == None && pos == old(pos) && buffer == old(buffer)
    {
      c := PeekChar();
      if c.Some? {
        buffer := buffer + [c.value];
        pos := pos + 1;
      }
    }

    /** The reading loop of `scan_digits`, of `scan_identifier` and of the
        operator branch of `next_token`: reads the maximal run of `cls`
        characters at `pos` into the buffer. */
    method ScanRun(cls: CharClass)
      requires pos <= |input|
      modifies this`pos, this`buffer
      ensures pos == RunEnd(input, old(pos), cls)
      ensures buffer == old(buffer) + input[old(pos)..pos]
    {
      var next := PeekChar();
      while next.Some? && InClass(next.value, cls)
        invariant old(pos) <= pos <= |input| && next == PeekChar()
        invariant RunEnd(input, pos, cls) == RunEnd(input, old(pos), cls)
        invariant buffer == old(buffer) + input[old(pos)..pos]
        decreases |input| - pos
      {
        RunContinues(input, pos, cls);
        SliceExtends(input, old(pos), pos);
        var _ := ReadChar();
        next := PeekChar();
      }
      RunStops(input, pos, cls);
    }

    /** `scan_number`, once the first digit is in the buffer. */
    method ScanNumber() returns (r: Result<Token, LexError>)
      requires 0 < pos <= |input| && IsDigit(input[pos - 1]) && buffer == [input[pos - 1]]
      modifies this`pos, this`buffer
      ensures var n := NumberLexeme(input, old(pos) - 1);
        && (n.Ok? ==> r == Ok(n.value.token) && pos == n.value.next && buffer == input[old(pos) - 1..pos])
        && (n.Err? ==> r == Err(n.error))
    {
      ghost var j := pos - 1;
      ScanRun(Digits);
      assert buffer == input[j..pos];
      ghost var e := pos;
      var isFloat := false;
      if PeekChar() == Some('.') {
        var _ := ReadChar();
        isFloat := true;
        ScanRun(Digits);
        assert buffer == input[j..pos];
      }
      if isFloat {
        NumberLexemeDotted(input, j, e);
        r := Ok(TFloat(buffer));
      } else {
        NumberLexemeUndotted(input, j, e);
        var v := DigitsValue(buffer);
        r := if v > I32Max then Err(IntegerOverflow) else Ok(TInteger(v));
      }
    }

    /** `scan_identifier`, once the first letter or underscore is in the buffer. */
    method ScanIdentifier() returns (t: Token)
      requires 0 < pos <= |input| && IsIdentifierStart(input[pos - 1]) && buffer == [input[pos - 1]]
      modifies this`pos, this`buffer
      ensures var n := IdentifierLexeme(input, old(pos) - 1);
        t == n.token && pos == n.next && buffer == input[old(pos) - 1..pos]
    {
      ghost var j := pos - 1;
      ScanRun(IdentifierChars);
      assert buffer == input[j..pos];
      t := NameOrKeyword(buffer);
    }

    /** The operator branch of `next_token`, once the first operator character
        is in the buffer. */
    method ScanOperator() returns (t: Token)
      requires 0 < pos <= |input| && IsOperator(input[pos - 1]) && buffer == [input[pos - 1]]
      modifies this`pos, this`buffer
      ensures var n := OperatorLexeme(input, old(pos) - 1);
        t == n.token && pos == n.next && buffer == input[old(pos) - 1..pos]
    {
      ghost var j := pos - 1;
      ScanRun(Operators);
      assert buffer == input[j..pos];
      t := if buffer == "=" then TAssign else if buffer == ":" then TColon else TOperator(buffer);
    }

    /** The string branch of `next_token`, once the opening quote is in the buffer. */
    method ScanString() returns (r: Result<Token, LexError>)
      requires 0 < pos <= |input| && buffer == [input[pos - 1]]
      modifies this`pos, this`buffer
      ensures var n := StringLexeme(input, old(pos) - 1);
        && (n.Ok? ==> r == Ok(n.value.token) && pos == n.value.next && buffer == input[old(pos) - 1..pos])
        && (n.Err? ==> r == Err(n.error))
    {
      ghost var j := pos - 1;
      while true
        invariant old(pos) <= pos <= |input|
        invariant ClosingQuote(input, pos) == ClosingQuote(input, old(pos))
        invariant buffer == input[j..pos]
        decreases |input| - pos
      {
        var x := ReadChar();
        SliceExtends(input, j, pos - 1);
        match x {
          case None => return Err(UnexpectedEof);
          case Some(ch) =>
            if ch == '"' {
              return Ok(TString(buffer));
            }
        }
      }
    }

    /** The character-literal branch of `next_token`, once the opening quote
        is in the buffer. */
    method ScanChar() returns (r: Result<Token, LexError>)
      requires 0 < pos <= |input| && buffer == [input[pos - 1]]
      modifies this`pos, this`buffer
      ensures var n := CharLexeme(input, old(pos) - 1);
        && (n.Ok? ==> r == Ok(n.value.token) && pos == n.value.next && buffer == input[old(pos) - 1..pos])
        && (n.Err? ==> r == Err(n.error))
    {
      var x := ReadChar();
      match x {
        case None => r := Err(UnexpectedEof);
        case Some(ch) =>
          var y := ReadChar();
          r := if y == Some('\'') then Ok(TChar(ch)) else Err(MultiCharCharacter);
      }
    }

    /** `next_token`: skips whitespace, then scans one lexeme from its first
        character, exactly as `Scan` describes. */
    method NextToken() returns (r: Result<Token, LexError>)
      requires pos <= |input|
      modifies this`pos, this`buffer
      ensures var sc := Scan(input, old(pos));
        && (sc.Ok? ==> r == Ok(sc.value.token) && pos == sc.value.next && buffer == input[sc.value.start..pos])
        && (sc.Err? ==> r == Err(sc.error))
    {
      ghost var start := pos;
      var c := ' ';
      while IsWhitespace(c)
        invariant start <= pos <= |input|
        invariant pos == start ==> c == ' '
        invariant pos > start ==> c == input[pos - 1] && buffer == [c]
        invariant SkipSpace(input, start) == if IsWhitespace(c) then SkipSpace(input, pos) else pos - 1
        decreases |input| - pos
      {
        buffer := [];
        var x := ReadChar();
        match x {
          case None => return Ok(TEOF);
          case Some(ch) => c := ch;
        }
      }
      assert Scan(input, start) == Classify(input, pos - 1);
      if IsOperator(c) {
        var t := ScanOperator();
        r := Ok(t);
      } else if IsDigit(c) {
        r := ScanNumber();
      } else if IsAlphabetic(c) || c == '_' {
        var t := ScanIdentifier();
        r := Ok(t);
      } else if c == '"' {
        r := ScanString();
      } else if c == '\'' {
        r := ScanChar();
      } else {
        r := Ok(SymbolToken(c));
      }
    }

    /** `current`: the most recently handed-out token, which is token
        `Consumed() - 1` of the stream. */
    function Current(): (t: Token)
      reads this
      requires Valid() && offset < |tokens|
      ensures Consumed() > 0 && t == produced[Consumed() - 1]
    {
      RecentAt(produced, tokens, offset + 1);
      tokens[|tokens| - offset - 1]
    }

    /** `backtrack`: steps one token back; the buffer must still hold the
        token stepped back to. */
    method Backtrack()
      requires Valid() && offset < |tokens|
      modifies this`offset
      ensures Valid() && offset == old(offset) + 1
      ensures Consumed() == old(Consumed()) - 1
    {
      offset := offset + 1;
    }

    /** `next`: hands out a buffered token when backtracked, and otherwise
        scans a new one and pushes it. Either way the result is the next token
        of the stream; a scanning error is the error lexing the stream reports
        for that token. */
    method Next() returns (r: Result<Token, LexError>)
      requires Valid()
      modifies this
      ensures old(offset) > 0 ==>
        && r.Ok? && offset == old(offset) - 1
        && pos == old(pos) && buffer == old(buffer) && tokens == old(tokens) && produced == old(produced)
      ensures r.Err? ==> old(offset) == 0 && Lex(input, |old(produced)| + 1) == Err(r.error)
      ensures r.Ok? && old(offset) == 0 ==>
        && produced == old(produced) + [r.value] && tokens == Push(old(tokens), r.value)
        && offset == 0 && buffer == []
      ensures r.Ok? ==> Valid() && Consumed() == old(Consumed()) + 1 && r.value == produced[Consumed() - 1]
    {
      if offset > 0 {
        offset := offset - 1;
      } else {
        r := Advance();
        if r.Err? {
          return;
        }
      }
      r := Ok(Current());
    }

    /** The scanning branch of `next`: scans a token and pushes it into the buffer. */
    method Advance() returns (r: Result<Token, LexError>)
      requires Valid() && offset == 0
      modifies this
      ensures r.Err? ==> Lex(input, |old(produced)| + 1) == Err(r.error)
      ensures r.Ok? ==>
        && Valid() && produced == old(produced) + [r.value] && tokens == Push(old(tokens), r.value)
        && offset == 0 && buffer == []
    {
      ghost var sc := Scan(input, pos);
      LexNext(input, pos, produced);
      r := NextToken();
      if r.Err? {
        return;
      }
      assert sc.Ok? && r.value == sc.value.token && pos == sc.value.next;
      BufferedPush(input, old(pos), tokens, produced, sc.value);
      tokens := Push(tokens, r.value);
      produced := produced + [r.value];
      buffer := [];
      assert Buffered(input, pos, tokens, offset, produced);
    }

    /** `peek` as written: once backtracked it returns the current token,
        the one handed out last, instead of the one `next` would hand out. */
    method PeekAsWritten() returns (r: Result<Token, LexError>)
      requires Valid()
      modifies this
      ensures old(offset) == 0 && r.Err? ==> Lex(input, |old(produced)| + 1) == Err(r.error)
      ensures r.Ok? ==> Valid() && Consumed() == old(Consumed())
      ensures r.Ok? && old(offset) == 0 ==>
        && produced == old(produced) + [r.value] && offset == 1 && r.value == produced[Consumed()]
      ensures 0 < old(offset) < |old(tokens)| ==>
        && r.Ok? && produced == old(produced) && offset == old(offset) && Consumed() > 0
        && r.value == produced[Consumed() - 1]
      ensures 0 < old(offset) == |old(tokens)| ==>
        && r == Err(IndexUnderflow) && Valid()
        && produced == old(produced) && offset == old(offset) && Consumed() == old(Consumed())
    {
      if offset != 0 && |tokens| != 0 {
        if offset == |tokens| {
          return Err(IndexUnderflow);
        }
        r := Ok(Current());
      } else {
        r := NextThenBacktrack();
      }
    }

    /** `peek` as intended: the token `next` would hand out, without handing
        it out. */
    method Peek() returns (r: Result<Token, LexError>)
      requires Valid()
      modifies this
      ensures r.Err? ==> old(offset) == 0 && Lex(input, |old(produced)| + 1) == Err(r.error)
      ensures old(offset) != 0 ==> r.Ok? && produced == old(produced) && offset == old(offset)
      ensures r.Ok? && old(offset) == 0 ==> produced == old(produced) + [r.value] && offset == 1
      ensures r.Ok? ==> && Valid() && Consumed() == old(Consumed())
                        && Consumed() < |produced| && r.value == produced[Consumed()]
    {
      if offset != 0 && |tokens| != 0 {
        r := Ok(Upcoming());
      } else {
        r := NextThenBacktrack();
      }
    }

    /** The token after the current one, read from the buffer while some
        tokens are stepped back over. */
    function Upcoming(): (t: Token)
      reads this
      requires Valid() && offset != 0
      ensures Consumed() < |produced| && t == produced[Consumed()]
    {
      RecentAt(produced, tokens, offset);
      tokens[|tokens| - offset]
    }

    /** The branch both versions of `peek` share when nothing was stepped
        back over: `next`, `backtrack`, and the newest token of the buffer. */
    method NextThenBacktrack() returns (r: Result<Token, LexError>)
      requires Valid() && offset == 0
      modifies this
      ensures r.Err? ==> Lex(input, |old(produced)| + 1) == Err(r.error)
      ensures r.Ok? ==>
        && Valid() && produced == old(produced) + [r.value] && offset == 1
        && Consumed() == old(Consumed()) && r.value == produced[Consumed()]
    {
      r := Next();
      if r.Err? {
        return;
      }
      assert produced == old(produced) + [r.value] && Consumed() == old(Consumed()) + 1;
      Backtrack();
      RecentAt(produced, tokens, 1);
      r := Ok(tokens[|tokens| - 1]);
    }
  }

  /** Peeking and then taking a token agree: `next` hands out what `peek` showed. */
  method PeekThenNext(l: Lexer) returns (p: Result<Token, LexError>, n: Result<Token, LexError>)
    requires l.Valid()
    modifies l
    ensures p.Ok? ==> n == p
  {
    p := l.Peek();
    if p.Ok? {
      n := l.Next();
    } else {
      n := p;
    }
  }

  // Scanning at known positions.

  /** A run of `cls` characters from `i` up to a character outside `cls`
      ends there. */
  lemma {:induction false} RunEndAt(s: seq<char>, i: nat, e: nat, cls: CharClass)
    requires i <= e <= |s|
    requires forall k :: i <= k < e ==> InClass(s[k], cls)
    requires e < |s| ==> !InClass(s[e], cls)
    ensures RunEnd(s, i, cls) == e
    decreases e - i
  {
    if i < e {
      RunEndAt(s, i + 1, e, cls);
    }
  }

  /** Whitespace from `i` up to a non-blank `j` is skipped, and the lexeme
      at `j` is what the scan from `i` yields. */
  lemma {:induction false} SpaceThenClassify(s: seq<char>, i: nat, j: nat)
    requires i <= j < |s| && !IsWhitespace(s[j])
    requires forall k :: i <= k < j ==> IsWhitespace(s[k])
    ensures SkipSpace(s, i) == j
    ensures Scan(s, i) == Classify(s, j)
    decreases j - i
  {
    if i < j {
      SpaceThenClassify(s, i + 1, j);
    }
  }

  /** The identifier or keyword between `j` and `e`, after whitespace from `i`. */
  lemma IdentifierAt(s: seq<char>, i: nat, j: nat, e: nat)
    requires i <= j < e <= |s| && IsIdentifierStart(s[j])
    requires forall k :: i <= k < j ==> IsWhitespace(s[k])
    requires forall k :: j < k < e ==> IsIdentifierChar(s[k])
    requires e < |s| ==> !IsIdentifierChar(s[e])
    ensures Scan(s, i) == Ok(Scanned(NameOrKeyword(s[j..e]), j, e))
  {
    SpaceThenClassify(s, i, j);
    RunEndAt(s, j + 1, e, IdentifierChars);
    assert !IsOperator(s[j]) && !IsDigit(s[j]);
  }

  /** The operator cluster between `j` and `e`, after whitespace from `i`. */
  lemma OperatorAt(s: seq<char>, i: nat, j: nat, e: nat)
    requires i <= j < e <= |s|
    requires forall k :: i <= k < j ==> IsWhitespace(s[k])
    requires forall k :: j <= k < e ==> IsOperator(s[k])
    requires e < |s| ==> !IsOperator(s[e])
    requires s[j..e] != "=" && s[j..e] != ":"
    ensures Scan(s, i) == Ok(Scanned(TOperator(s[j..e]), j, e))
  {
    SpaceThenClassify(s, i, j);
    RunEndAt(s, j + 1, e, Operators);
  }

  /** The integer literal between `j` and `e`, after whitespace from `i`. */
  lemma IntegerAt(s: seq<char>, i: nat, j: nat, e: nat)
    requires i <= j < e <= |s|
    requires forall k :: i <= k < j ==> IsWhitespace(s[k])
    requires forall k :: j <= k < e ==> IsDigit(s[k])
    requires e < |s| ==> !IsDigit(s[e]) && s[e] != '.'
    ensures forall k :: 0 <= k < |s[j..e]| ==> IsDigit(s[j..e][k])
    ensures Scan(s, i) == if DigitsValue(s[j..e]) > I32Max then Err(IntegerOverflow)
                          else Ok(Scanned(TInteger(DigitsValue(s[j..e])), j, e))
  {
    SpaceThenClassify(s, i, j);
    RunEndAt(s, j, e, Digits);
    IntegerWhenNotDotted(s, j, e);
  }

  /** The one-character token at `j`, after whitespace from `i`. */
  lemma SymbolAt(s: seq<char>, i: nat, j: nat)
    requires i <= j < |s| && !IsWhitespace(s[j]) && !IsOperator(s[j]) && !IsDigit(s[j])
    requires !IsIdentifierStart(s[j]) && s[j] != '"' && s[j] != '\''
    requires forall k :: i <= k < j ==> IsWhitespace(s[k])
    ensures Scan(s, i) == Ok(Scanned(SymbolToken(s[j]), j, j + 1))
  {
    SpaceThenClassify(s, i, j);
  }

  /** The program of the lexer's own test. */
  const MainSource := "fn main() { 1 + 2 }"

  /** `s` spells `MainSource`, character by character. */
  ghost predicate SpellsMain(s: string)
  {
    |s| == 19 && s[0] == 'f' && s[1] == 'n' && s[2] == ' ' && s[3] == 'm' && s[4] == 'a'
      && s[5] == 'i' && s[6] == 'n' && s[7] == '(' && s[8] == ')' && s[9] == ' '
      && s[10] == '{' && s[11] == ' ' && s[12] == '1' && s[13] == ' ' && s[14] == '+'
      && s[15] == ' ' && s[16] == '2' && s[17] == ' ' && s[18] == '}'
  }

  /** The tokens of `MainSource`, as the lexer's own test expects them. */
  const MainTokens := [TFn, TIdentifier("main"), TOpenParen, TCloseParen, TOpenBrace,
    TInteger(1), TOperator("+"), TInteger(2), TCloseBrace]

  /** The scan at index 0 of `MainSource` is the keyword `fn`. */
  lemma MainScan0(s: string)
    requires SpellsMain(s)
    ensures Scan(s, 0) == Ok(Scanned(TFn, 0, 2))
  {
    IdentifierAt(s, 0, 0, 2);
    assert s[0..2] == "fn";
  }

  /** The scan at index 2 of `MainSource` is the name `main`. */
  lemma MainScan1(s: string)
    requires SpellsMain(s)
    ensures Scan(s, 2) == Ok(Scanned(TIdentifier("main"), 3, 7))
  {
    IdentifierAt(s, 2, 3, 7);
    assert s[3..7] == "main";
  }

  /** The scan at index 7 of `MainSource` is `(`. */
  lemma MainScan2(s: string)
    requires SpellsMain(s)
    ensures Scan(s, 7) == Ok(Scanned(TOpenParen, 7, 8))
  {
    SymbolAt(s, 7, 7);
  }

  /** The scan at index 8 of `MainSource` is `)`. */
  lemma MainScan3(s: string)
    requires SpellsMain(s)
    ensures Scan(s, 8) == Ok(Scanned(TCloseParen, 8, 9))
  {
    SymbolAt(s, 8, 8);
  }

  /** The scan at index 9 of `MainSource` is `{`. */
  lemma MainScan4(s: string)
    requires SpellsMain(s)
    ensures Scan(s, 9) == Ok(Scanned(TOpenBrace, 10, 11))
  {
    SymbolAt(s, 9, 10);
  }

  /** The scan at index 11 of `MainSource` is `1`. */
  lemma MainScan5(s: string)
    requires SpellsMain(s)
    ensures Scan(s, 11) == Ok(Scanned(TInteger(1), 12, 13))
  {
    IntegerAt(s, 11, 12, 13);
    assert s[12..13] == "1" && DigitsValue("1") == 1;
  }

  /** The scan at index 13 of `MainSource` is `+`. */
  lemma MainScan6(s: string)
    requires SpellsMain(s)
    ensures Scan(s, 13) == Ok(Scanned(TOperator("+"), 14, 15))
  {
    assert s[14..15] == "+";
    OperatorAt(s, 13, 14, 15);
  }

  /** The scan at index 15 of `MainSource` is `2`. */
  lemma MainScan7(s: string)
    requires SpellsMain(s)
    ensures Scan(s, 15) == Ok(Scanned(TInteger(2), 16, 17))
  {
    IntegerAt(s, 15, 16, 17);
    assert s[16..17] == "2" && DigitsValue("2") == 2;
  }

  /** The scan at index 17 of `MainSource` is `}`. */
  lemma MainScan8(s: string)
    requires SpellsMain(s)
    ensures Scan(s, 17) == Ok(Scanned(TCloseBrace, 18, 19))
  {
    SymbolAt(s, 17, 18);
  }

  /** `MainTokens`, one token appended at a time. */
  lemma MainTokensAppended()
    ensures MainTokens == [] + [TFn] + [TIdentifier("main")] + [TOpenParen] + [TCloseParen] + [TOpenBrace] + [TInteger(1)] + [TOperator("+")] + [TInteger(2)] + [TCloseBrace]
  {
  }

  /** `fn main() { 1 + 2 }` lexes to the tokens its test lists. */
  lemma LexMain(s: string)
    requires s == MainSource
    ensures Lex(s, 9) == Ok(Lexed(MainTokens, 19))
  {
    assert SpellsMain(s);
    var ts: seq<Token> := [];
    MainScan0(s);
    LexNext(s, 0, ts);
    ts := ts + [TFn];
    MainScan1(s);
    LexNext(s, 2, ts);
    ts := ts + [TIdentifier("main")];
    MainScan2(s);
    LexNext(s, 7, ts);
    ts := ts + [TOpenParen];
    MainScan3(s);
    LexNext(s, 8, ts);
    ts := ts + [TCloseParen];
    MainScan4(s);
    LexNext(s, 9, ts);
    ts := ts + [TOpenBrace];
    MainScan5(s);
    LexNext(s, 11, ts);
    ts := ts + [TInteger(1)];
    MainScan6(s);
    LexNext(s, 13, ts);
    ts := ts + [TOperator("+")];
    MainScan7(s);
    LexNext(s, 15, ts);
    ts := ts + [TInteger(2)];
    MainScan8(s);
    LexNext(s, 17, ts);
    ts := ts + [TCloseBrace];
    MainTokensAppended();
  }

  /** The two scans of `a b`. */
  lemma TwoNamesScans(s: string)
    requires s == "a b"
    ensures Scan(s, 0) == Ok(Scanned(TIdentifier("a"), 0, 1))
    ensures Scan(s, 1) == Ok(Scanned(TIdentifier("b"), 2, 3))
  {
    IdentifierAt(s, 0, 0, 1);
    IdentifierAt(s, 1, 2, 3);
    assert s[0..1] == "a" && s[2..3] == "b";
  }

  /** `a b` lexes to two names. */
  lemma LexTwoNames(s: string)
    requires s == "a b"
    ensures Lex(s, 1) == Ok(Lexed([TIdentifier("a")], 1))
    ensures Lex(s, 2) == Ok(Lexed([TIdentifier("a"), TIdentifier("b")], 3))
  {
    TwoNamesScans(s);
    var ts: seq<Token> := [];
    LexNext(s, 0, ts);
    ts := ts + [TIdentifier("a")];
    assert ts == [TIdentifier("a")];
    LexNext(s, 1, ts);
    ts := ts + [TIdentifier("b")];
    assert ts == [TIdentifier("a"), TIdentifier("b")];
  }

  /** A lexer over `a b` that has handed out both names. */
  method TwoTaken(s: string) returns (l: Lexer)
    requires s == "a b"
    ensures fresh(l) && l.Valid() && l.input == s && l.offset == 0
    ensures l.produced == [TIdentifier("a"), TIdentifier("b")] && l.tokens == l.produced
  {
    l := new Lexer(s);
    LexTwoNames(l.input);
    var first := l.Next();
    assert first.Ok? && l.produced == [TIdentifier("a")];
    var second := l.Next();
    assert second.Ok? && l.produced == [TIdentifier("a"), TIdentifier("b")];
    RecentOfShort(l.produced);
  }

  /** After two tokens and one step back, `peek` as written shows the first
      token again, while `next` hands out the second. */
  method PeekAfterBacktrack(s: string) returns (peeked: Result<Token, LexError>, taken: Result<Token, LexError>)
    requires s == "a b"
    ensures peeked == Ok(TIdentifier("a")) && taken == Ok(TIdentifier("b"))
  {
    var l := TwoTaken(s);
    l.Backtrack();
    peeked := l.PeekAsWritten();
    taken := l.Next();
  }

  /** The same steps with the corrected `peek`: it shows what `next` hands out. */
  method PeekAfterBacktrackCorrected(s: string) returns (peeked: Result<Token, LexError>, taken: Result<Token, LexError>)
    requires s == "a b"
    ensures peeked == Ok(TIdentifier("b")) && taken == Ok(TIdentifier("b"))
  {
    var l := TwoTaken(s);
    l.Backtrack();
    peeked := l.Peek();
    taken := l.Next();
  }

  /** A fresh lexer over `a b` after one as-written peek, which shows `a`. */
  method PeekedOnce(s: string) returns (l: Lexer, first: Result<Token, LexError>)
    requires s == "a b"
    ensures fresh(l) && l.Valid() && l.input == s && l.offset == 1
    ensures l.produced == [TIdentifier("a")] && l.tokens == l.produced && first == Ok(TIdentifier("a"))
  {
    l := new Lexer(s);
    LexTwoNames(l.input);
    first := l.PeekAsWritten();
    assert first.Ok? && l.Valid();
    assert l.produced == [TIdentifier("a")] && l.offset == 1;
    RecentOfShort(l.produced);
  }

  /** Two peeks on a fresh lexer over `a b`: the first scans `a` and steps
      back over it; the second, as written, computes the buffer index
      `1 - 1 - 1`, which underflows. */
  method PeekTwice(s: string) returns (first: Result<Token, LexError>, second: Result<Token, LexError>)
    requires s == "a b"
    ensures first == Ok(TIdentifier("a")) && second == Err(IndexUnderflow)
  {
    var l;
    l, first := PeekedOnce(s);
    second := l.PeekAsWritten();
  }

  /** The same two peeks with the corrected `peek` both show `a`. */
  method PeekTwiceCorrected(s: string) returns (first: Result<Token, LexError>, second: Result<Token, LexError>)
    requires s == "a b"
    ensures first == Ok(TIdentifier("a")) && second == first
  {
    var l := new Lexer(s);
    LexTwoNames(l.input);
    first := l.Peek();
    assert first.Ok? && l.Valid();
    assert l.produced == [TIdentifier("a")] && l.offset == 1;
    RecentOfShort(l.produced);
    second := l.Peek();
  }
}
