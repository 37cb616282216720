/** The token vocabulary shared by the six lexers. Each implementation declares its own
    enumeration (TokenType in Python and Ruby, an enum in Rust, constants in Go and C); they
    name the same kinds, and only the reference library produces LBracket, RBracket and
    PlainLit. */
module Tokens {
  import opened Wrappers

  datatype TokenKind =
    | Identifier | DoubleColon
    | BoolKw | StrKw | NumKw | FlKw | MlKw | ClassKw | ListKw | DynamicKw
    | LBrace | RBrace | LParen | RParen | LBracket | RBracket | Comma
    | StringLit | MultilineLit | PlainLit | NumberLit | FloatLit | BooleanLit
    | Comment | Newline | Eof

  /** What a token carries: the word or lexeme, an integer, a boolean, or nothing. Float
      literals keep their lexeme; floating-point values are not modelled. */
  datatype Payload = NoPayload | Text(s: string) | IntVal(i: int) | BoolVal(b: bool)

  datatype Token = Token(kind: TokenKind, payload: Payload, line: int, col: int)

  predicate IsTypeKeyword(k: TokenKind)
  {
    k.BoolKw? || k.StrKw? || k.NumKw? || k.FlKw? || k.MlKw? || k.ClassKw? || k.ListKw? || k.DynamicKw?
  }

  /** The spelling of a type keyword. */
  function KeywordText(k: TokenKind): string
    requires IsTypeKeyword(k)
  {
    match k
    case BoolKw => "bool"
    case StrKw => "str"
    case NumKw => "num"
    case FlKw => "fl"
    case MlKw => "ml"
    case ClassKw => "class"
    case ListKw => "list"
    case DynamicKw => "dynamic"
  }

  /** The keyword table of the identifier readers: the eight type tags, case-sensitive. */
  function KeywordKind(word: string): (r: Option<TokenKind>)
    ensures r.Some? ==> IsTypeKeyword(r.value)
  {
    if word == "bool" then Some(BoolKw)
    else if word == "str" then Some(StrKw)
    else if word == "num" then Some(NumKw)
    else if word == "fl" then Some(FlKw)
    else if word == "ml" then Some(MlKw)
    else if word == "class" then Some(ClassKw)
    else if word == "list" then Some(ListKw)
    else if word == "dynamic" then Some(DynamicKw)
    else None
  }

  /** The keyword table and the keyword spellings are inverse to each other. */
  lemma KeywordTableInverse(word: string, k: TokenKind)
    requires IsTypeKeyword(k)
    ensures KeywordKind(KeywordText(k)) == Some(k)
    ensures KeywordKind(word) == Some(k) <==> word == KeywordText(k)
  {
  }

  /** The boolean words: true and yes read as true, false and no as false. */
  function BoolWord(word: string): (r: Option<bool>)
    ensures r.Some? ==> KeywordKind(word).None?
  {
    if word == "true" || word == "yes" then Some(true)
    else if word == "false" || word == "no" then Some(false)
    else None
  }

  /** The spelling of a token kind in error messages (the value of the Python TokenType
      members). */
  function KindName(k: TokenKind): string
  {
    match k
    case Identifier => "IDENTIFIER"
    case DoubleColon => "::"
    case LBrace => "{"
    case RBrace => "}"
    case LParen => "("
    case RParen => ")"
    case LBracket => "["
    case RBracket => "]"
    case Comma => ","
    case StringLit => "STRING"
    case MultilineLit => "MULTILINE_STRING"
    case PlainLit => "PLAIN_STRING"
    case NumberLit => "NUMBER"
    case FloatLit => "FLOAT"
    case BooleanLit => "BOOLEAN"
    case Comment => "COMMENT"
    case Newline => "NEWLINE"
    case Eof => "EOF"
    case _ => KeywordText(k)
  }

  /** A stream whose last token is Eof. */
  predicate EndsWithEof(ts: seq<Token>) { |ts| > 0 && ts[|ts| - 1].kind == Eof }

  /** A token stream as every lexer delivers it: one Eof, at the end. */
  predicate EndsWithSingleEof(ts: seq<Token>)
  {
    EndsWithEof(ts) && forall i :: 0 <= i < |ts| - 1 ==> ts[i].kind != Eof
  }

  /** Newlines and comments carry no grammar; the parsers drop them before parsing. */
  predicate IsSignificant(t: Token) { t.kind != Newline && t.kind != Comment }

  function Significant(ts: seq<Token>): (r: seq<Token>)
    ensures |r| <= |ts|
    ensures forall i :: 0 <= i < |r| ==> IsSignificant(r[i])
    ensures EndsWithEof(ts) ==> EndsWithEof(r) && r[|r| - 1] == ts[|ts| - 1]
  {
    if ts == [] then []
    else if IsSignificant(ts[|ts| - 1]) then Significant(ts[..|ts| - 1]) + [ts[|ts| - 1]]
    else Significant(ts[..|ts| - 1])
  }

  /** The comment-preserving parser drops only newlines. */
  function WithoutNewlines(ts: seq<Token>): (r: seq<Token>)
    ensures |r| <= |ts|
    ensures forall i :: 0 <= i < |r| ==> r[i].kind != Newline
    ensures EndsWithEof(ts) ==> EndsWithEof(r) && r[|r| - 1] == ts[|ts| - 1]
  {
    if ts == [] then []
    else if ts[|ts| - 1].kind != Newline then WithoutNewlines(ts[..|ts| - 1]) + [ts[|ts| - 1]]
    else WithoutNewlines(ts[..|ts| - 1])
  }

  /** Filtering a filtered stream changes nothing. */
  lemma {:induction false} SignificantIdempotent(ts: seq<Token>)
    ensures Significant(Significant(ts)) == Significant(ts)
  {
    if ts != [] {
      var init := ts[..|ts| - 1];
      SignificantIdempotent(init);
      if IsSignificant(ts[|ts| - 1]) {
        var r := Significant(init) + [ts[|ts| - 1]];
        assert r[..|r| - 1] == Significant(init);
      }
    }
  }

  /** Dropping newlines and then newlines and comments is dropping newlines and comments. */
  lemma {:induction false} SignificantAfterWithoutNewlines(ts: seq<Token>)
    ensures Significant(WithoutNewlines(ts)) == Significant(ts)
  {
    if ts != [] {
      var init := ts[..|ts| - 1];
      SignificantAfterWithoutNewlines(init);
      if ts[|ts| - 1].kind != Newline {
        var r := WithoutNewlines(init) + [ts[|ts| - 1]];
        assert r[..|r| - 1] == WithoutNewlines(init);
      }
    }
  }
}
