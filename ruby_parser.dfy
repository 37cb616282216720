/** The Ruby port's parser (ruby/lib/scl/parser.rb) and its loads (ruby/lib/scl_parser.rb).
    The parser object is the shared one run with the strict rules; what is the Ruby port's
    own is parse, which filters the stream, recurses through parse_config and then expects
    EOF, and loads, which feeds it the Ruby lexer's tokens. */
module RubyParser {
  import opened Wrappers
  import opened Tokens
  import opened Values
  import opened Grammar
  import opened GrammarFacts
  import opened RubyLexer
  import ParserCore

  /** SCL.loads: tokenize, then parse. A Ruby Hash keeps its keys in insertion order, so the
      result is the ordered entry list. */
  function RubyLoads(text: string): Result<seq<(string, Value)>>
  {
    match RubyLex(text)
    case Err(e) => Err(e)
    case Ok(ts) =>
      RubyLexShape(text);
      Parse(Strict, ts)
  }

  /** Parser.parse: drop newlines and comments, read parameters through parse_config, then
      expect EOF. */
  method ParseTokens(tokens: seq<Token>) returns (r: Result<seq<(string, Value)>>)
    requires EndsWithEof(tokens)
    ensures r == Parse(Strict, tokens)
    ensures r.Ok? ==> DistinctKeys(r.value) && AllWellFormed(r.value)
  {
    var parser := new ParserCore.Parser(Strict, tokens);
    r := parser.ParseConfig([]);
    // expect(EOF) cannot fail: parse_config returns a value only at EOF.
  }

  method Loads(text: string) returns (r: Result<seq<(string, Value)>>)
    ensures r == RubyLoads(text)
  {
    var lexer := new RubyLexer.Lexer(text);
    var tokens := lexer.Tokenize();
    if tokens.Err? {
      return Err(tokens.error);
    }
    RubyLexShape(text);
    r := ParseTokens(tokens.value);
  }

  // ---------------------------------------------------------------------------------
  // The port's own examples, stated over the token streams its lexer produces.
  // ---------------------------------------------------------------------------------

  /** name :: num { NUMBER }, and name :: bool { BOOLEAN }, as six significant tokens. */
  predicate NumParamAt(ts: seq<Token>, p: nat, name: string, i: int)
  {
    p + 5 < |ts| && ts[p] == Token(Identifier, Text(name), ts[p].line, ts[p].col) &&
    ts[p + 1].kind == DoubleColon && ts[p + 2].kind == NumKw && ts[p + 3].kind == LBrace &&
    ts[p + 4] == Token(NumberLit, IntVal(i), ts[p + 4].line, ts[p + 4].col) && ts[p + 5].kind == RBrace
  }

  predicate BoolParamAt(ts: seq<Token>, p: nat, name: string, b: bool)
  {
    p + 5 < |ts| && ts[p] == Token(Identifier, Text(name), ts[p].line, ts[p].col) &&
    ts[p + 1].kind == DoubleColon && ts[p + 2].kind == BoolKw && ts[p + 3].kind == LBrace &&
    ts[p + 4] == Token(BooleanLit, BoolVal(b), ts[p + 4].line, ts[p + 4].col) && ts[p + 5].kind == RBrace
  }

  predicate StrParamAt(ts: seq<Token>, p: nat, name: string, s: string)
  {
    p + 5 < |ts| && ts[p] == Token(Identifier, Text(name), ts[p].line, ts[p].col) &&
    ts[p + 1].kind == DoubleColon && ts[p + 2].kind == StrKw && ts[p + 3].kind == LBrace &&
    ts[p + 4] == Token(StringLit, Text(s), ts[p + 4].line, ts[p + 4].col) && ts[p + 5].kind == RBrace
  }

  lemma NumParam(ts: seq<Token>, p: nat, name: string, i: int)
    requires EndsWithEof(ts) && NumParamAt(ts, p, name, i)
    ensures Param(Strict, ts, p) == Ok(Parsed((name, Int(i)), p + 6))
  {
    assert Key(ts, p) == Ok(Parsed(name, p + 1));
    assert Eat(ts, p + 1, DoubleColon) == Ok(Parsed(ts[p + 1], p + 2));
    assert Eat(ts, p + 3, LBrace) == Ok(Parsed(ts[p + 3], p + 4));
    assert Eat(ts, p + 5, RBrace) == Ok(Parsed(ts[p + 5], p + 6));
  }

  lemma BoolParam(ts: seq<Token>, p: nat, name: string, b: bool)
    requires EndsWithEof(ts) && BoolParamAt(ts, p, name, b)
    ensures Param(Strict, ts, p) == Ok(Parsed((name, Bool(b)), p + 6))
  {
    assert Key(ts, p) == Ok(Parsed(name, p + 1));
    assert Eat(ts, p + 1, DoubleColon) == Ok(Parsed(ts[p + 1], p + 2));
    assert Eat(ts, p + 3, LBrace) == Ok(Parsed(ts[p + 3], p + 4));
    assert Eat(ts, p + 5, RBrace) == Ok(Parsed(ts[p + 5], p + 6));
  }

  lemma StrParam(ts: seq<Token>, p: nat, name: string, s: string)
    requires EndsWithEof(ts) && StrParamAt(ts, p, name, s)
    ensures Param(Strict, ts, p) == Ok(Parsed((name, Str(s)), p + 6))
  {
    assert Key(ts, p) == Ok(Parsed(name, p + 1));
    assert Eat(ts, p + 1, DoubleColon) == Ok(Parsed(ts[p + 1], p + 2));
    assert Eat(ts, p + 3, LBrace) == Ok(Parsed(ts[p + 3], p + 4));
    assert Eat(ts, p + 5, RBrace) == Ok(Parsed(ts[p + 5], p + 6));
  }

  /** One parameter of the top level: the dict grows by it and parsing goes on after it. */
  lemma ConfigStep(ts: seq<Token>, p: nat, acc: seq<(string, Value)>, key: string, v: Value, q: nat)
    requires EndsWithEof(ts) && p < |ts| && ts[p].kind != Eof && DistinctKeys(acc) && AllWellFormed(acc)
    requires Param(Strict, ts, p) == Ok(Parsed((key, v), q))
    ensures q < |ts| && DistinctKeys(Put(acc, key, v)) && AllWellFormed(Put(acc, key, v))
    ensures Config(Strict, ts, p, acc) == Config(Strict, ts, q, Put(acc, key, v))
  {
    PutKeepsWellFormed(acc, key, v);
  }

  /** Two parameters with different names and then EOF give a dict of both, in order. */
  lemma ConfigOfTwo(ts: seq<Token>, k1: string, v1: Value, k2: string, v2: Value)
    requires EndsWithEof(ts) && |ts| == 13 && k1 != k2 && WellFormed(v1) && WellFormed(v2)
    requires ts[0].kind != Eof && Param(Strict, ts, 0) == Ok(Parsed((k1, v1), 6))
    requires ts[6].kind != Eof && Param(Strict, ts, 6) == Ok(Parsed((k2, v2), 12))
    ensures Config(Strict, ts, 0, []) == Ok([(k1, v1), (k2, v2)])
  {
    var a1 := [(k1, v1)];
    assert Put([], k1, v1) == a1;
    ConfigStep(ts, 0, [], k1, v1, 6);
    assert Put(a1, k2, v2) == [(k1, v1), (k2, v2)];
    ConfigStep(ts, 6, a1, k2, v2, 12);
  }

  /** Three parameters with different names and then EOF give a dict of the three, in
      order. */
  lemma ConfigOfThree(ts: seq<Token>, k1: string, v1: Value, k2: string, v2: Value, k3: string, v3: Value)
    requires EndsWithEof(ts) && |ts| == 19 && k1 != k2 && k1 != k3 && k2 != k3
    requires WellFormed(v1) && WellFormed(v2) && WellFormed(v3)
    requires ts[0].kind != Eof && Param(Strict, ts, 0) == Ok(Parsed((k1, v1), 6))
    requires ts[6].kind != Eof && Param(Strict, ts, 6) == Ok(Parsed((k2, v2), 12))
    requires ts[12].kind != Eof && Param(Strict, ts, 12) == Ok(Parsed((k3, v3), 18))
    ensures Config(Strict, ts, 0, []) == Ok([(k1, v1), (k2, v2), (k3, v3)])
  {
    var a1 := [(k1, v1)];
    var a2 := [(k1, v1), (k2, v2)];
    assert Put([], k1, v1) == a1;
    ConfigStep(ts, 0, [], k1, v1, 6);
    assert Put(a1, k2, v2) == a2;
    ConfigStep(ts, 6, a1, k2, v2, 12);
    assert Put(a2, k3, v3) == [(k1, v1), (k2, v2), (k3, v3)] by {
      assert Put(a2[1..], k3, v3) == [(k2, v2), (k3, v3)];
    }
    ConfigStep(ts, 12, a2, k3, v3, 18);
  }

  /** `foo :: num { 42 }` then `flag :: bool { true }`: whatever newlines and comments
      surround them, the stream parses to {"foo" => 42, "flag" => true}. */
  lemma LoadsSimpleConfiguration(tokens: seq<Token>)
    requires EndsWithEof(tokens)
    requires |Significant(tokens)| == 13
    requires NumParamAt(Significant(tokens), 0, "foo", 42) && BoolParamAt(Significant(tokens), 6, "flag", true)
    ensures Parse(Strict, tokens) == Ok([("foo", Int(42)), ("flag", Bool(true))])
  {
    var ts := Significant(tokens);
    NumParam(ts, 0, "foo", 42);
    BoolParam(ts, 6, "flag", true);
    assert "foo" != "flag" by { assert |"foo"| != |"flag"|; }
    ConfigOfTwo(ts, "foo", Int(42), "flag", Bool(true));
  }

  /** The three lines the serializer writes for {"title" => "example", "count" => 3,
      "enabled" => false} parse back to that hash, in that order. */
  lemma LoadsSerializedExample(tokens: seq<Token>)
    requires EndsWithEof(tokens)
    requires |Significant(tokens)| == 19 && StrParamAt(Significant(tokens), 0, "title", "example")
    requires NumParamAt(Significant(tokens), 6, "count", 3) && BoolParamAt(Significant(tokens), 12, "enabled", false)
    ensures Parse(Strict, tokens) == Ok([("title", Str("example")), ("count", Int(3)), ("enabled", Bool(false))])
  {
    var ts := Significant(tokens);
    StrParam(ts, 0, "title", "example");
    NumParam(ts, 6, "count", 3);
    BoolParam(ts, 12, "enabled", false);
    assert "title" != "count" && "title" != "enabled" && "count" != "enabled" by {
      assert "title"[0] != "count"[0] && "title"[0] != "enabled"[0] && "count"[0] != "enabled"[0];
    }
    ConfigOfThree(ts, "title", Str("example"), "count", Int(3), "enabled", Bool(false));
  }

  /** `foo :: num { bar }`: any token other than a number inside `num { }` is a syntax error
      located at that token, naming what was expected and what was found. */
  lemma LoadsRaisesForInvalidNumber(tokens: seq<Token>)
    requires EndsWithEof(tokens)
    requires 5 < |Significant(tokens)| && Significant(tokens)[0].kind == Identifier
    requires Significant(tokens)[1].kind == DoubleColon && Significant(tokens)[2].kind == NumKw
    requires Significant(tokens)[3].kind == LBrace && Significant(tokens)[4].kind != NumberLit
    ensures Parse(Strict, tokens) ==
      Err(SyntaxError("Expected NUMBER, got " + KindName(Significant(tokens)[4].kind), Significant(tokens)[4].line, Significant(tokens)[4].col))
  {
    NumMisfitFails(Significant(tokens));
  }

  /** The same over a stream of significant tokens. */
  lemma NumMisfitFails(ts: seq<Token>)
    requires EndsWithEof(ts) && 5 < |ts| && ts[0].kind == Identifier && ts[1].kind == DoubleColon
    requires ts[2].kind == NumKw && ts[3].kind == LBrace && ts[4].kind != NumberLit
    ensures Config(Strict, ts, 0, []) ==
      Err(SyntaxError("Expected NUMBER, got " + KindName(ts[4].kind), ts[4].line, ts[4].col))
  {
    var e := SyntaxError("Expected NUMBER, got " + KindName(ts[4].kind), ts[4].line, ts[4].col);
    NumBracesMisfit(ts, 3);
    NumSlotFails(Strict, ts, e);
  }

  /** `{` followed by anything but a number fails the num slot at that token. */
  lemma NumBracesMisfit(ts: seq<Token>, p: nat)
    requires EndsWithEof(ts) && p + 1 < |ts| && ts[p].kind == LBrace && ts[p + 1].kind != NumberLit
    ensures NumValue(ts, p) ==
      Err(SyntaxError("Expected NUMBER, got " + KindName(ts[p + 1].kind), ts[p + 1].line, ts[p + 1].col))
  {
    assert Eat(ts, p, LBrace) == Ok(Parsed(ts[p], p + 1));
    ExpectedNumberText(KindName(ts[p + 1].kind));
  }

  lemma ExpectedNumberText(got: string)
    ensures "Expected NUMBER" + ", got " + got == "Expected NUMBER, got " + got
  {
    assert "Expected NUMBER" + ", got " == "Expected NUMBER, got ";
  }
}
