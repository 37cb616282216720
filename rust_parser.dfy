/** The Rust port's parser (rust/src/parser.rs): a filtered token vector and a cursor that
    eat advances, producing a typed Value. Classes are HashMaps, so a repeated name simply
    overwrites; numbers are i64 read from the token text with 0 as the fallback; a list
    names one scalar element type and yields a vector of that type. The grammar is first
    written as pure functions from a position to what is parsed there; the Parser class
    then does it with its cursor, and each method is proved to agree with its function. */
module RustParser {
  import opened Wrappers
  import opened Text
  import opened Tokens
  import opened Grammar
  import ParserCore

  /** The content of an `fl` slot. Floating point is not modelled: a Float token keeps its
      lexeme, and a Number token in a float position keeps the integer `as f64` converts. */
  datatype Fl = FlText(lexeme: string) | FlInt(n: int)

  /** Value (rust/src/parser.rs:7-19). */
  datatype RValue =
    | RBool(b: bool)
    | RNum(n: int)
    | RFl(f: Fl)
    | RStr(s: string)
    | RMl(s: string)
    | RClass(fields: map<string, RValue>)
    | RListBool(bools: seq<bool>)
    | RListNum(nums: seq<int>)
    | RListFl(fls: seq<Fl>)
    | RListStr(strs: seq<string>)
    | RDynamic(inner: RValue)

  /** The five base types a dynamic value may hold. */
  predicate IsBase(v: RValue) { v.RBool? || v.RNum? || v.RFl? || v.RStr? || v.RMl? }

  predicate IsTypedList(v: RValue) { v.RListBool? || v.RListNum? || v.RListFl? || v.RListStr? }

  /** Every dynamic value, however deep in classes, holds a base value. */
  predicate Dumpable(v: RValue)
  {
    match v
    case RDynamic(inner) => IsBase(inner)
    case RClass(fields) => forall k :: k in fields ==> Dumpable(fields[k])
    case _ => true
  }

  predicate AllDumpable(m: map<string, RValue>) { forall k :: k in m ==> Dumpable(m[k]) }

  // ---------------------------------------------------------------------------------
  // Reading token text
  // ---------------------------------------------------------------------------------

  /** `str::parse::<i64>`: an optional `+` or `-` and one or more digits, in range. */
  function I64Of(s: string): (r: Option<int>)
    ensures r.Some? ==> InI64(r.value)
  {
    var n :=
      if |s| > 1 && s[0] == '+' && AllDigits(s[1..]) then Some(DigitsValue(s[1..]))
      else if IsIntText(s) then Some(ParseInt(s))
      else None;
    if n.Some? && InI64(n.value) then n else None
  }

  /** `.parse::<i64>().unwrap_or(0)` */
  function ParseI64(s: string): (r: int)
    ensures InI64(r)
  {
    match I64Of(s)
    case Some(n) => n
    case None => 0
  }

  /** `matches!(value, Some("true") | Some("yes"))` */
  predicate TrueText(t: Token) { TextOf(t) == "true" || TextOf(t) == "yes" }

  /** A Float token's lexeme, or a Number token's integer. */
  function FlOf(t: Token): Fl
  {
    if t.kind == FloatLit then FlText(TextOf(t)) else FlInt(ParseI64(TextOf(t)))
  }

  /** The Debug spelling of a TokenType (rust/src/tokens.rs). The three kinds only the
      reference library produces have no Rust variant; they keep their model names. */
  function RustKindName(k: TokenKind): string
  {
    match k
    case Identifier => "Identifier"
    case DoubleColon => "DoubleColon"
    case BoolKw => "BoolKw"
    case StrKw => "StrKw"
    case NumKw => "NumKw"
    case FlKw => "FlKw"
    case MlKw => "MlKw"
    case ClassKw => "ClassKw"
    case ListKw => "ListKw"
    case DynamicKw => "DynamicKw"
    case LBrace => "LBrace"
    case RBrace => "RBrace"
    case LParen => "LParen"
    case RParen => "RParen"
    case LBracket => "LBracket"
    case RBracket => "RBracket"
    case Comma => "Comma"
    case StringLit => "String"
    case MultilineLit => "MultilineString"
    case PlainLit => "PlainString"
    case NumberLit => "Number"
    case FloatLit => "Float"
    case BooleanLit => "Boolean"
    case Comment => "Comment"
    case Newline => "Newline"
    case Eof => "Eof"
  }

  /** The Debug spelling of a token's `Option<String>` value. */
  function DebugValue(t: Token): string
  {
    if t.payload.Text? then "Some(\"" + t.payload.s + "\")" else "None"
  }

  // ---------------------------------------------------------------------------------
  // The grammar, as functions of a position in the filtered stream
  // ---------------------------------------------------------------------------------

  /** eat(t): the current token when it has kind t, else an error at it. */
  function REat(ts: seq<Token>, p: nat, k: TokenKind): (r: Result<Parsed<Token>>)
    requires EndsWithEof(ts) && p < |ts| && k != Eof
    ensures r.Ok? <==> ts[p].kind == k
    ensures r.Ok? ==> r.value == Parsed(ts[p], p + 1) && p + 1 < |ts|
    ensures r.Err? ==> FailsAt(r, ts, p)
  {
    if ts[p].kind == k then Ok(Parsed(ts[p], p + 1))
    else Fail(ts, p, "Expected " + RustKindName(k) + ", got " + RustKindName(ts[p].kind))
  }

  /** `{` then a token of kind k then `}`, from p. */
  predicate Braced(ts: seq<Token>, p: nat, k: TokenKind)
  {
    p + 2 < |ts| && ts[p].kind == LBrace && ts[p + 1].kind == k && ts[p + 2].kind == RBrace
  }

  predicate IsRustKeyKind(k: TokenKind) { k == Identifier || IsTypeKeyword(k) || k == NumberLit || k == StringLit }

  /** The name of a parameter: an identifier, a type keyword, a number or a string, taken
      as its text (a number's lexeme as written). */
  function RKey(ts: seq<Token>, p: nat): (r: Result<Parsed<string>>)
    requires EndsWithEof(ts) && p < |ts|
    ensures r.Ok? <==> IsRustKeyKind(ts[p].kind)
    ensures r.Ok? ==> r.value == Parsed(TextOf(ts[p]), p + 1) && p + 1 < |ts|
    ensures r.Err? ==> FailsAt(r, ts, p)
  {
    var t := ts[p];
    if IsRustKeyKind(t.kind) then Ok(Parsed(TextOf(t), p + 1))
    else Fail(ts, p, "Expected identifier or keyword, got " + RustKindName(t.kind))
  }

  /** parse_bool_value: true exactly for the texts "true" and "yes". */
  function RBoolValue(ts: seq<Token>, p: nat): (r: Result<Parsed<RValue>>)
    requires EndsWithEof(ts) && p < |ts|
    ensures r.Ok? <==> Braced(ts, p, BooleanLit)
    ensures r.Ok? ==> r.value == Parsed(RBool(TrueText(ts[p + 1])), p + 3)
  {
    var lb :- REat(ts, p, LBrace);
    var v := ts[lb.next];
    if v.kind != BooleanLit then Fail(ts, lb.next, "Expected boolean")
    else
      var rb :- REat(ts, lb.next + 1, RBrace);
      Ok(Parsed(RBool(TrueText(v)), rb.next))
  }

  /** parse_str_value: only a String token. */
  function RStrValue(ts: seq<Token>, p: nat): (r: Result<Parsed<RValue>>)
    requires EndsWithEof(ts) && p < |ts|
    ensures r.Ok? <==> Braced(ts, p, StringLit)
    ensures r.Ok? ==> r.value == Parsed(RStr(TextOf(ts[p + 1])), p + 3)
  {
    var lb :- REat(ts, p, LBrace);
    var v :- REat(ts, lb.next, StringLit);
    var rb :- REat(ts, v.next, RBrace);
    Ok(Parsed(RStr(TextOf(v.val)), rb.next))
  }

  /** parse_num_value: only a Number token, read as i64 with 0 as the fallback. */
  function RNumValue(ts: seq<Token>, p: nat): (r: Result<Parsed<RValue>>)
    requires EndsWithEof(ts) && p < |ts|
    ensures r.Ok? <==> Braced(ts, p, NumberLit)
    ensures r.Ok? ==> r.value == Parsed(RNum(ParseI64(TextOf(ts[p + 1]))), p + 3)
  {
    var lb :- REat(ts, p, LBrace);
    var v :- REat(ts, lb.next, NumberLit);
    var rb :- REat(ts, v.next, RBrace);
    Ok(Parsed(RNum(ParseI64(TextOf(v.val))), rb.next))
  }

  /** parse_fl_value: a Float or a Number token. */
  function RFlValue(ts: seq<Token>, p: nat): (r: Result<Parsed<RValue>>)
    requires EndsWithEof(ts) && p < |ts|
    ensures r.Ok? <==> Braced(ts, p, FloatLit) || Braced(ts, p, NumberLit)
    ensures r.Ok? ==> r.value == Parsed(RFl(FlOf(ts[p + 1])), p + 3)
  {
    var lb :- REat(ts, p, LBrace);
    var v := ts[lb.next];
    if v.kind != FloatLit && v.kind != NumberLit then Fail(ts, lb.next, "Expected float or number")
    else
      var rb :- REat(ts, lb.next + 1, RBrace);
      Ok(Parsed(RFl(FlOf(v)), rb.next))
  }

  /** parse_ml_value: only a MultilineString token. */
  function RMlValue(ts: seq<Token>, p: nat): (r: Result<Parsed<RValue>>)
    requires EndsWithEof(ts) && p < |ts|
    ensures r.Ok? <==> Braced(ts, p, MultilineLit)
    ensures r.Ok? ==> r.value == Parsed(RMl(TextOf(ts[p + 1])), p + 3)
  {
    var lb :- REat(ts, p, LBrace);
    var v :- REat(ts, lb.next, MultilineLit);
    var rb :- REat(ts, v.next, RBrace);
    Ok(Parsed(RMl(TextOf(v.val)), rb.next))
  }

  predicate IsBaseLiteral(k: TokenKind)
  {
    k == NumberLit || k == FloatLit || k == BooleanLit || k == StringLit || k == MultilineLit
  }

  /** The base value a literal token denotes inside `dynamic { … }`. */
  function BaseValue(t: Token): (v: RValue)
    requires IsBaseLiteral(t.kind)
    ensures IsBase(v)
  {
    match t.kind
    case NumberLit => RNum(ParseI64(TextOf(t)))
    case FloatLit => RFl(FlText(TextOf(t)))
    case BooleanLit => RBool(TrueText(t))
    case StringLit => RStr(TextOf(t))
    case MultilineLit => RMl(TextOf(t))
  }

  /** parse_dynamic_value: one literal of a base type, wrapped. */
  function RDynamicValue(ts: seq<Token>, p: nat): (r: Result<Parsed<RValue>>)
    requires EndsWithEof(ts) && p < |ts|
    ensures r.Ok? <==> p + 2 < |ts| && ts[p].kind == LBrace && IsBaseLiteral(ts[p + 1].kind) && ts[p + 2].kind == RBrace
    ensures r.Ok? ==> r.value == Parsed(RDynamic(BaseValue(ts[p + 1])), p + 3)
  {
    var lb :- REat(ts, p, LBrace);
    var c := ts[lb.next];
    if !IsBaseLiteral(c.kind) then Fail(ts, lb.next, "dynamic supports only base types (bool, str, num, fl, ml)")
    else
      var rb :- REat(ts, lb.next + 1, RBrace);
      Ok(Parsed(RDynamic(BaseValue(c)), rb.next))
  }

  predicate IsElemKeyword(k: TokenKind) { k == NumKw || k == FlKw || k == BoolKw || k == StrKw }

  /** The empty vector of the element type a list names. */
  function EmptyList(k: TokenKind): (v: RValue)
    requires IsElemKeyword(k)
    ensures IsTypedList(v) && ElemKeyword(v) == k
  {
    match k
    case NumKw => RListNum([])
    case FlKw => RListFl([])
    case BoolKw => RListBool([])
    case StrKw => RListStr([])
  }

  /** The element keyword of a typed list. */
  function ElemKeyword(v: RValue): TokenKind
    requires IsTypedList(v)
  {
    match v
    case RListNum(_) => NumKw
    case RListFl(_) => FlKw
    case RListBool(_) => BoolKw
    case RListStr(_) => StrKw
  }

  /** The token kinds an element of list v may have. */
  predicate ItemFits(v: RValue, k: TokenKind)
    requires IsTypedList(v)
  {
    match v
    case RListNum(_) => k == NumberLit
    case RListFl(_) => k == FloatLit || k == NumberLit
    case RListBool(_) => k == BooleanLit
    case RListStr(_) => k == StringLit
  }

  /** v with the element that token t denotes appended. */
  function Push(v: RValue, t: Token): (w: RValue)
    requires IsTypedList(v)
    ensures IsTypedList(w) && ElemKeyword(w) == ElemKeyword(v)
  {
    match v
    case RListNum(ns) => RListNum(ns + [ParseI64(TextOf(t))])
    case RListFl(fs) => RListFl(fs + [FlOf(t)])
    case RListBool(bs) => RListBool(bs + [TrueText(t)])
    case RListStr(ss) => RListStr(ss + [TextOf(t)])
  }

  /** One element of the typed loop of parse_list_value that v's type selects. */
  function RListItem(ts: seq<Token>, p: nat, v: RValue): (r: Result<Parsed<RValue>>)
    requires EndsWithEof(ts) && p < |ts| && IsTypedList(v)
    ensures r.Ok? <==> ItemFits(v, ts[p].kind)
    ensures r.Ok? ==> r.value == Parsed(Push(v, ts[p]), p + 1) && p + 1 < |ts|
    ensures r.Err? ==> FailsAt(r, ts, p)
  {
    match v
    case RListNum(_) =>
      var t :- REat(ts, p, NumberLit);
      Ok(Parsed(Push(v, t.val), t.next))
    case RListFl(_) =>
      if ts[p].kind == FloatLit || ts[p].kind == NumberLit then Ok(Parsed(Push(v, ts[p]), p + 1))
      else Fail(ts, p, "Expected float or number")
    case RListBool(_) =>
      var t :- REat(ts, p, BooleanLit);
      Ok(Parsed(Push(v, t.val), t.next))
    case RListStr(_) =>
      var t :- REat(ts, p, StringLit);
      Ok(Parsed(Push(v, t.val), t.next))
  }

  /** The elements up to `}`, appended to v: a comma after each one, optional after the
      last; then the `}` itself. */
  function RListItems(ts: seq<Token>, p: nat, v: RValue): (r: Result<Parsed<RValue>>)
    requires EndsWithEof(ts) && p < |ts| && IsTypedList(v)
    ensures r.Ok? ==> p < r.value.next < |ts| && ts[r.value.next - 1].kind == RBrace
    ensures r.Ok? ==> IsTypedList(r.value.val) && ElemKeyword(r.value.val) == ElemKeyword(v)
    decreases |ts| - p
  {
    if ts[p].kind == RBrace then Ok(Parsed(v, p + 1))
    else
      var e :- RListItem(ts, p, v);
      var sep := ts[e.next].kind;
      if sep == Comma then RListItems(ts, e.next + 1, e.val)
      else if sep == RBrace then RListItems(ts, e.next, e.val)
      else Fail(ts, e.next, "Expected comma or closing brace")
  }

  /** One step of the element loop: after an element ending at p + 1, a comma or a `}`
      continues the loop and anything else is the missing-comma error. */
  lemma RListItemsStep(ts: seq<Token>, p: nat, v: RValue)
    requires EndsWithEof(ts) && p < |ts| && IsTypedList(v) && ts[p].kind != RBrace
    ensures !ItemFits(v, ts[p].kind) ==> RListItems(ts, p, v) == Err(RListItem(ts, p, v).error)
    ensures ItemFits(v, ts[p].kind) ==> p + 1 < |ts| && var w := Push(v, ts[p]);
      && (ts[p + 1].kind == Comma ==> p + 2 < |ts| && RListItems(ts, p, v) == RListItems(ts, p + 2, w))
      && (ts[p + 1].kind == RBrace ==> RListItems(ts, p, v) == RListItems(ts, p + 1, w))
      && (ts[p + 1].kind != Comma && ts[p + 1].kind != RBrace ==>
            RListItems(ts, p, v) == Fail(ts, p + 1, "Expected comma or closing brace"))
  {
  }

  /** parse_list_value: `(`, an element keyword, `)`, `{`, the elements, `}`. */
  function RListValue(ts: seq<Token>, p: nat): (r: Result<Parsed<RValue>>)
    requires EndsWithEof(ts) && p < |ts|
    ensures r.Ok? ==> p + 4 < r.value.next < |ts| && ts[p].kind == LParen
    ensures r.Ok? ==> IsTypedList(r.value.val) && ElemKeyword(r.value.val) == ts[p + 1].kind
  {
    var lp :- REat(ts, p, LParen);
    var el := ts[lp.next];
    if !IsElemKeyword(el.kind) then Fail(ts, lp.next, "Unsupported list element type: " + DebugValue(el))
    else
      var rp :- REat(ts, lp.next + 1, RParen);
      var lb :- REat(ts, rp.next, LBrace);
      RListItems(ts, lb.next, EmptyList(el.kind))
  }

  /** The value variant each type keyword produces. */
  predicate TagMatches(tag: TokenKind, v: RValue)
  {
    match tag
    case BoolKw => v.RBool?
    case StrKw => v.RStr?
    case NumKw => v.RNum?
    case FlKw => v.RFl?
    case MlKw => v.RMl?
    case ClassKw => v.RClass?
    case ListKw => IsTypedList(v)
    case DynamicKw => v.RDynamic?
    case _ => false
  }

  /** parse_parameter: a name, `::`, a type keyword and the value it demands. */
  function RParam(ts: seq<Token>, p: nat): (r: Result<Parsed<(string, RValue)>>)
    requires EndsWithEof(ts) && p < |ts|
    ensures r.Ok? ==> p + 3 < r.value.next < |ts|
    ensures r.Ok? ==> TagMatches(ts[p + 2].kind, r.value.val.1) && Dumpable(r.value.val.1)
    decreases |ts| - p, 0
  {
    var key :- RKey(ts, p);
    var dc :- REat(ts, key.next, DoubleColon);
    var v :- RTypedValue(ts, dc.next);
    Ok(Parsed((key.val, v.val), v.next))
  }

  /** The type dispatch of parse_parameter, at the type keyword q. */
  function RTypedValue(ts: seq<Token>, q: nat): (r: Result<Parsed<RValue>>)
    requires EndsWithEof(ts) && q < |ts|
    ensures r.Ok? ==> q + 1 < r.value.next < |ts|
    ensures r.Ok? ==> TagMatches(ts[q].kind, r.value.val) && Dumpable(r.value.val)
    ensures !IsTypeKeyword(ts[q].kind) ==> r == Fail(ts, q, "Unknown type: " + DebugValue(ts[q]))
    decreases |ts| - q, 0
  {
    var tag := ts[q].kind;
    if tag == BoolKw then RBoolValue(ts, q + 1)
    else if tag == StrKw then RStrValue(ts, q + 1)
    else if tag == NumKw then RNumValue(ts, q + 1)
    else if tag == FlKw then RFlValue(ts, q + 1)
    else if tag == MlKw then RMlValue(ts, q + 1)
    else if tag == ClassKw then RClassValue(ts, q + 1)
    else if tag == ListKw then RListValue(ts, q + 1)
    else if tag == DynamicKw then RDynamicValue(ts, q + 1)
    else Fail(ts, q, "Unknown type: " + DebugValue(ts[q]))
  }

  /** parse_class_value: `{`, parameters until `}`, `}`. */
  function RClassValue(ts: seq<Token>, p: nat): (r: Result<Parsed<RValue>>)
    requires EndsWithEof(ts) && p < |ts|
    ensures r.Ok? ==> p < r.value.next < |ts| && r.value.val.RClass? && Dumpable(r.value.val)
    decreases |ts| - p, 0
  {
    var lb :- REat(ts, p, LBrace);
    RClassBody(ts, lb.next, map[])
  }

  /** The parameters of a class body up to its `}`, inserted into acc. */
  function RClassBody(ts: seq<Token>, p: nat, acc: map<string, RValue>): (r: Result<Parsed<RValue>>)
    requires EndsWithEof(ts) && p < |ts| && AllDumpable(acc)
    ensures r.Ok? ==> p < r.value.next < |ts| && r.value.val.RClass? && Dumpable(r.value.val)
    ensures r.Ok? ==> acc.Keys <= r.value.val.fields.Keys
    decreases |ts| - p, 1
  {
    if ts[p].kind == RBrace then Ok(Parsed(RClass(acc), p + 1))
    else
      var e :- RParam(ts, p);
      RClassBody(ts, e.next, acc[e.val.0 := e.val.1])
  }

  /** parse: parameters until Eof, inserted into acc. */
  function RConfig(ts: seq<Token>, p: nat, acc: map<string, RValue>): (r: Result<map<string, RValue>>)
    requires EndsWithEof(ts) && p < |ts| && AllDumpable(acc)
    ensures r.Ok? ==> AllDumpable(r.value) && acc.Keys <= r.value.Keys
    decreases |ts| - p
  {
    if ts[p].kind == Eof then Ok(acc)
    else
      var e :- RParam(ts, p);
      RConfig(ts, e.next, acc[e.val.0 := e.val.1])
  }

  /** Parser::new(tokens).parse() */
  function RParse(tokens: seq<Token>): (r: Result<map<string, RValue>>)
    requires EndsWithEof(tokens)
    ensures r.Ok? ==> AllDumpable(r.value)
  {
    RConfig(Significant(tokens), 0, map[])
  }

  // ---------------------------------------------------------------------------------
  // The parser object
  // ---------------------------------------------------------------------------------

  class Parser {
    const tokens: seq<Token>
    var pos: nat

    /** The cursor stays on a token of a stream that ends with Eof: nothing eats Eof. */
    ghost predicate Valid()
      reads this
    {
      EndsWithEof(tokens) && pos < |tokens|
    }

    /** Parser::new: the tokens without newlines and comments. */
    constructor (input: seq<Token>)
      requires EndsWithEof(input)
      ensures Valid() && tokens == Significant(input) && pos == 0
    {
      var kept: seq<Token> := [];
      var i := 0;
      while i < |input|
        invariant 0 <= i <= |input|
        invariant kept == Significant(input[..i])
      {
        assert input[..i + 1][..i] == input[..i];
        if IsSignificant(input[i]) {
          kept := kept + [input[i]];
        }
        i := i + 1;
      }
      assert input[..|input|] == input;
      tokens := kept;
      pos := 0;
    }

    /** cur(): past the end, the last token. */
    function Cur(): (t: Token)
      reads this
      requires |tokens| > 0
      ensures t in tokens
      ensures EndsWithEof(tokens) && pos >= |tokens| - 1 ==> t.kind == Eof
    {
      if pos < |tokens| then tokens[pos] else tokens[|tokens| - 1]
    }

    /** The syntax error at the current token. */
    function Error<T>(msg: string): Result<T>
      reads this
      requires Valid()
    {
      Fail(tokens, pos, msg)
    }

    /** eat(t): on a mismatch the error carries the current token's position and the
        cursor stays where it was. */
    method Eat(k: TokenKind) returns (r: Result<Token>)
      requires Valid() && k != Eof
      modifies this
      ensures Valid() && ParserCore.Agrees(r, REat(tokens, old(pos), k), pos)
      ensures r.Err? ==> pos == old(pos)
    {
      var c := Cur();
      if c.kind != k {
        return Error("Expected " + RustKindName(k) + ", got " + RustKindName(c.kind));
      }
      pos := pos + 1;
      return Ok(c);
    }

    /** parse(): parameters until Eof, each inserted into the map. */
    method Parse() returns (r: Result<map<string, RValue>>)
      requires Valid()
      modifies this
      ensures Valid() && r == RConfig(tokens, old(pos), map[])
    {
      ghost var start := pos;
      var cfg: map<string, RValue> := map[];
      while Cur().kind != Eof
        invariant Valid() && AllDumpable(cfg)
        invariant RConfig(tokens, pos, cfg) == RConfig(tokens, start, map[])
        decreases |tokens| - pos
      {
        var e := ParseParameter();
        if e.Err? {
          return Err(e.error);
        }
        cfg := cfg[e.value.0 := e.value.1];
      }
      return Ok(cfg);
    }

    /** parse_parameter() */
    method ParseParameter() returns (r: Result<(string, RValue)>)
      requires Valid()
      modifies this
      ensures Valid() && ParserCore.Agrees(r, RParam(tokens, old(pos)), pos)
      decreases |tokens| - pos, 0
    {
      var nameTok := Cur();
      if !IsRustKeyKind(nameTok.kind) {
        return Error("Expected identifier or keyword, got " + RustKindName(nameTok.kind));
      }
      pos := pos + 1;
      var dc := Eat(DoubleColon);
      if dc.Err? {
        return Err(dc.error);
      }
      var value := ParseTypedValue();
      if value.Err? {
        return Err(value.error);
      }
      return Ok((TextOf(nameTok), value.value));
    }

    /** The match on the type keyword in parse_parameter. */
    method ParseTypedValue() returns (r: Result<RValue>)
      requires Valid()
      modifies this
      ensures Valid() && ParserCore.Agrees(r, RTypedValue(tokens, old(pos)), pos)
      decreases |tokens| - pos, 0
    {
      var c := Cur();
      var tag := c.kind;
      if !IsTypeKeyword(tag) {
        return Error("Unknown type: " + DebugValue(c));
      }
      pos := pos + 1;
      if tag == BoolKw {
        r := ParseBoolValue();
      } else if tag == StrKw {
        r := ParseStrValue();
      } else if tag == NumKw {
        r := ParseNumValue();
      } else if tag == FlKw {
        r := ParseFlValue();
      } else if tag == MlKw {
        r := ParseMlValue();
      } else if tag == ClassKw {
        r := ParseClassValue();
      } else if tag == ListKw {
        r := ParseListValue();
      } else {
        r := ParseDynamicValue();
      }
    }

    method ParseBoolValue() returns (r: Result<RValue>)
      requires Valid()
      modifies this
      ensures Valid() && ParserCore.Agrees(r, RBoolValue(tokens, old(pos)), pos)
    {
      var lb := Eat(LBrace);
      if lb.Err? {
        return Err(lb.error);
      }
      var v := Cur();
      if v.kind != BooleanLit {
        return Error("Expected boolean");
      }
      pos := pos + 1;
      var rb := Eat(RBrace);
      if rb.Err? {
        return Err(rb.error);
      }
      return Ok(RBool(TrueText(v)));
    }

    method ParseStrValue() returns (r: Result<RValue>)
      requires Valid()
      modifies this
      ensures Valid() && ParserCore.Agrees(r, RStrValue(tokens, old(pos)), pos)
    {
      var lb := Eat(LBrace);
      if lb.Err? {
        return Err(lb.error);
      }
      var v := Eat(StringLit);
      if v.Err? {
        return Err(v.error);
      }
      var rb := Eat(RBrace);
      if rb.Err? {
        return Err(rb.error);
      }
      return Ok(RStr(TextOf(v.value)));
    }

    method ParseNumValue() returns (r: Result<RValue>)
      requires Valid()
      modifies this
      ensures Valid() && ParserCore.Agrees(r, RNumValue(tokens, old(pos)), pos)
    {
      var lb := Eat(LBrace);
      if lb.Err? {
        return Err(lb.error);
      }
      var v := Eat(NumberLit);
      if v.Err? {
        return Err(v.error);
      }
      var rb := Eat(RBrace);
      if rb.Err? {
        return Err(rb.error);
      }
      return Ok(RNum(ParseI64(TextOf(v.value))));
    }

    method ParseFlValue() returns (r: Result<RValue>)
      requires Valid()
      modifies this
      ensures Valid() && ParserCore.Agrees(r, RFlValue(tokens, old(pos)), pos)
    {
      var lb := Eat(LBrace);
      if lb.Err? {
        return Err(lb.error);
      }
      var v := Cur();
      if v.kind != FloatLit && v.kind != NumberLit {
        return Error("Expected float or number");
      }
      pos := pos + 1;
      var rb := Eat(RBrace);
      if rb.Err? {
        return Err(rb.error);
      }
      return Ok(RFl(FlOf(v)));
    }

    method ParseMlValue() returns (r: Result<RValue>)
      requires Valid()
      modifies this
      ensures Valid() && ParserCore.Agrees(r, RMlValue(tokens, old(pos)), pos)
    {
      var lb := Eat(LBrace);
      if lb.Err? {
        return Err(lb.error);
      }
      var v := Eat(MultilineLit);
      if v.Err? {
        return Err(v.error);
      }
      var rb := Eat(RBrace);
      if rb.Err? {
        return Err(rb.error);
      }
      return Ok(RMl(TextOf(v.value)));
    }

    method ParseClassValue() returns (r: Result<RValue>)
      requires Valid()
      modifies this
      ensures Valid() && ParserCore.Agrees(r, RClassValue(tokens, old(pos)), pos)
      decreases |tokens| - pos, 0
    {
      var lb := Eat(LBrace);
      if lb.Err? {
        return Err(lb.error);
      }
      ghost var start := pos;
      var fields: map<string, RValue> := map[];
      while Cur().kind != RBrace
        invariant Valid() && start <= pos && AllDumpable(fields)
        invariant RClassBody(tokens, pos, fields) == RClassBody(tokens, start, map[])
        decreases |tokens| - pos
      {
        var e := ParseParameter();
        if e.Err? {
          return Err(e.error);
        }
        fields := fields[e.value.0 := e.value.1];
      }
      var _ := Eat(RBrace);
      return Ok(RClass(fields));
    }

    method ParseListValue() returns (r: Result<RValue>)
      requires Valid()
      modifies this
      ensures Valid() && ParserCore.Agrees(r, RListValue(tokens, old(pos)), pos)
    {
      var lp := Eat(LParen);
      if lp.Err? {
        return Err(lp.error);
      }
      var el := Cur();
      if !IsElemKeyword(el.kind) {
        return Error("Unsupported list element type: " + DebugValue(el));
      }
      pos := pos + 1;
      var rp := Eat(RParen);
      if rp.Err? {
        return Err(rp.error);
      }
      var lb := Eat(LBrace);
      if lb.Err? {
        return Err(lb.error);
      }
      r := ParseItems(EmptyList(el.kind));
    }

    /** The typed element loop of parse_list_value selected by v's type, then `}`. */
    method ParseItems(v: RValue) returns (r: Result<RValue>)
      requires Valid() && IsTypedList(v)
      modifies this
      ensures Valid() && ParserCore.Agrees(r, RListItems(tokens, old(pos), v), pos)
    {
      ghost var start := pos;
      var items := v;
      while Cur().kind != RBrace
        invariant Valid() && start <= pos && IsTypedList(items)
        invariant RListItems(tokens, pos, items) == RListItems(tokens, start, v)
        decreases |tokens| - pos
      {
        var step := ParseItem(items);
        if step.Err? {
          return Err(step.error);
        }
        items := step.value;
      }
      var _ := Eat(RBrace);
      return Ok(items);
    }

    /** One element and the separator after it: a comma is eaten, a `}` is left for the
        loop, anything else is the missing-comma error. */
    method ParseItem(v: RValue) returns (r: Result<RValue>)
      requires Valid() && IsTypedList(v) && tokens[pos].kind != RBrace
      modifies this
      ensures Valid()
      ensures r.Ok? ==> old(pos) < pos && IsTypedList(r.value)
      ensures r.Ok? ==> RListItems(tokens, old(pos), v) == RListItems(tokens, pos, r.value)
      ensures r.Err? ==> RListItems(tokens, old(pos), v) == Err(r.error)
    {
      ghost var here := pos;
      var c := Cur();
      match v {
      case RListFl(_) =>
        if c.kind != FloatLit && c.kind != NumberLit {
          return Error("Expected float or number");
        }
        pos := pos + 1;
      case RListNum(_) =>
        var t := Eat(NumberLit);
        if t.Err? {
          return Err(t.error);
        }
      case RListBool(_) =>
        var t := Eat(BooleanLit);
        if t.Err? {
          return Err(t.error);
        }
      case RListStr(_) =>
        var t := Eat(StringLit);
        if t.Err? {
          return Err(t.error);
        }
      }
      var items := Push(v, c);
      RListItemsStep(tokens, here, v);
      var sep := Cur().kind;
      if sep == Comma {
        pos := pos + 1;
      } else if sep != RBrace {
        return Error("Expected comma or closing brace");
      }
      return Ok(items);
    }

    method ParseDynamicValue() returns (r: Result<RValue>)
      requires Valid()
      modifies this
      ensures Valid() && ParserCore.Agrees(r, RDynamicValue(tokens, old(pos)), pos)
    {
      var lb := Eat(LBrace);
      if lb.Err? {
        return Err(lb.error);
      }
      var c := Cur();
      if !IsBaseLiteral(c.kind) {
        return Error("dynamic supports only base types (bool, str, num, fl, ml)");
      }
      pos := pos + 1;
      var rb := Eat(RBrace);
      if rb.Err? {
        return Err(rb.error);
      }
      return Ok(RDynamic(BaseValue(c)));
    }
  }
}
