/** The keyword table of src/token.rs. */
module Keywords {
  import opened Wrappers

  datatype Token = EOF | Identifier(chars: seq<char>) | Integer(chars: seq<char>) | Fn | BraceL(c: char) | BraceR(c: char)

  /** Collects the characters into a string and looks it up; only `fn` is a keyword. */
  function GetKeywordToken(chars: seq<char>): (r: Result<Token, string>)
    ensures r.Ok? <==> chars == "fn"
    ensures r.Ok? ==> r.value == Fn
    ensures r.Err? ==> r.error == "Not a keyword"
  {
    var identifier: string := chars;
    if identifier == "fn" then Ok(Fn) else Err("Not a keyword")
  }

  /** A successful lookup never yields a payload-carrying or structural token. */
  lemma KeywordIsNeverPayload(chars: seq<char>)
    requires GetKeywordToken(chars).Ok?
    ensures var t := GetKeywordToken(chars).value;
      !t.Identifier? && !t.Integer? && !t.EOF? && !t.BraceL? && !t.BraceR?
  {
  }

  /** The result depends only on the spelled string: equal spellings agree. */
  lemma KeywordDependsOnSpelling(a: seq<char>, b: seq<char>)
    ensures (GetKeywordToken(a) == GetKeywordToken(b)) <==> ((a == "fn") == (b == "fn"))
  {
  }
}
