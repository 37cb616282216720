/** The Go port's parser (go/parser.go) and its entry point Loads (go/scl.go). Its grammar
    is the one the Python port follows; what differs is the result: Go builds a
    map[string]interface{} at every level, an unordered map in which a repeated key keeps
    the last value. */
module GoParser {
  import opened Wrappers
  import opened Tokens
  import opened Values
  import opened Grammar
  import opened ParserCore
  import opened GoLexer

  /** A value as the Go port holds it in an interface{}: bool, int, float64 (kept as the
      text it was read from), string, map[string]interface{} or []interface{}. GOther
      stands for a value of any other Go type handed to the serializer. */
  datatype GValue =
    | GBool(b: bool)
    | GInt(i: int)
    | GFloat(lexeme: string)
    | GStr(s: string)
    | GMap(m: map<string, GValue>)
    | GList(items: seq<GValue>)
    | GOther(typeName: string)

  /** The Go value the parser builds where the grammar yields v. */
  function ToGo(v: Value): GValue
    decreases v, 1
  {
    match v
    case Bool(b) => GBool(b)
    case Int(i) => GInt(i)
    case Float(l) => GFloat(l)
    case Str(s) => GStr(s)
    case Object(es) => GMap(MapFrom(es, 0))
    case List(items) => GList(ListFrom(items, 0))
    case Other(t) => GOther(t)
  }

  /** The map that `obj[name] = value` builds from the entries es[i..]. */
  function MapFrom(es: seq<(string, Value)>, i: nat): map<string, GValue>
    decreases Object(es), 0, |es| - i
  {
    if i >= |es| then map[] else MapFrom(es, i + 1)[es[i].0 := ToGo(es[i].1)]
  }

  /** The slice that `append` builds from items[i..]. */
  function ListFrom(items: seq<Value>, i: nat): seq<GValue>
    decreases List(items), 0, |items| - i
  {
    if i >= |items| then [] else [ToGo(items[i])] + ListFrom(items, i + 1)
  }

  function MapOf(es: seq<(string, Value)>): map<string, GValue> { MapFrom(es, 0) }

  /** The grammar's outcome with its entries collected into a Go map. */
  function AsMap(r: Result<seq<(string, Value)>>): Result<map<string, GValue>>
  {
    match r
    case Ok(es) => Ok(MapOf(es))
    case Err(e) => Err(e)
  }

  /** Loads: tokenize, then parse the significant tokens into a map. A lexer error is
      returned or raised as a panic, and a parser error is raised as a panic; the model
      reports each of them as Err. */
  function GoLoads(text: string): Result<map<string, GValue>>
  {
    match GoLex(text)
    case Err(e) => Err(e)
    case Ok(ts) =>
      GoLexShape(text);
      AsMap(Parse(Strict, ts))
  }

  // ---------------------------------------------------------------------------------
  // The Go map against the dictionary the grammar describes.
  // ---------------------------------------------------------------------------------

  /** The map built from es[i..] holds exactly the keys a dictionary lookup finds there,
      each with the value the lookup gives. */
  lemma {:induction false} MapFromLookup(es: seq<(string, Value)>, i: nat, k: string)
    requires i <= |es|
    ensures k in MapFrom(es, i) <==> Get(es[i..], k).Some?
    ensures k in MapFrom(es, i) ==> MapFrom(es, i)[k] == ToGo(Get(es[i..], k).value)
    decreases |es| - i
  {
    if i < |es| {
      MapFromLookup(es, i + 1, k);
      assert es[i..][1..] == es[i + 1..];
    }
  }

  /** A Go map read from a dictionary: the keys and values a lookup gives. */
  lemma MapOfLookup(es: seq<(string, Value)>, k: string)
    ensures k in MapOf(es) <==> Get(es, k).Some?
    ensures k in MapOf(es) ==> MapOf(es)[k] == ToGo(Get(es, k).value)
  {
    MapFromLookup(es, 0, k);
    assert es[0..] == es;
  }

  /** `config[name] = value` on the Go map is the dictionary update the grammar performs:
      the key takes the new value, whether it was there or not. */
  lemma MapOfPut(es: seq<(string, Value)>, k: string, v: Value)
    ensures MapOf(Put(es, k, v)) == MapOf(es)[k := ToGo(v)]
  {
    var a := MapOf(Put(es, k, v));
    var b := MapOf(es)[k := ToGo(v)];
    forall x
      ensures x in a <==> x in b
      ensures x in a ==> a[x] == b[x]
    {
      MapOfLookup(Put(es, k, v), x);
      MapOfLookup(es, x);
      PutGet(es, k, v, x);
    }
  }

  /** The keys of the map are the keys the grammar collected. */
  lemma MapOfKeys(es: seq<(string, Value)>)
    ensures forall x :: x in MapOf(es) <==> x in Keys(es)
  {
    forall x ensures x in MapOf(es) <==> x in Keys(es) {
      MapOfLookup(es, x);
      GetPresent(es, x);
    }
  }

  /** A list keeps its elements in order, each converted. */
  lemma {:induction false} ListFromItems(items: seq<Value>, i: nat)
    requires i <= |items|
    ensures |ListFrom(items, i)| == |items| - i
    ensures forall j :: i <= j < |items| ==> ListFrom(items, i)[j - i] == ToGo(items[j])
    decreases |items| - i
  {
    if i < |items| {
      ListFromItems(items, i + 1);
    }
  }

  // ---------------------------------------------------------------------------------
  // The parser object.
  // ---------------------------------------------------------------------------------

  /** Parse: read parameters until EOF and store each in the map, a later one replacing an
      earlier one of the same name. */
  method ParseMap(p: Parser) returns (r: Result<map<string, GValue>>)
    requires p.Valid() && p.dialect == Strict
    modifies p
    ensures p.Valid() && r == AsMap(Config(Strict, p.tokens, old(p.pos), []))
  {
    ghost var start := p.pos;
    ghost var entries: seq<(string, Value)> := [];
    var config: map<string, GValue> := map[];
    while p.CurrentToken().kind != Eof
      invariant p.Valid() && p.dialect == Strict && DistinctKeys(entries) && AllWellFormed(entries)
      invariant config == MapOf(entries)
      invariant Config(Strict, p.tokens, p.pos, entries) == Config(Strict, p.tokens, start, [])
      decreases |p.tokens| - p.pos
    {
      var e := p.ParseParameter();
      if e.Err? {
        return Err(e.error);
      }
      PutKeepsWellFormed(entries, e.value.0, e.value.1);
      MapOfPut(entries, e.value.0, e.value.1);
      entries := Put(entries, e.value.0, e.value.1);
      config := config[e.value.0 := ToGo(e.value.1)];
    }
    return Ok(config);
  }

  /** Loads: a lexer, its tokens, a parser over them. */
  method Loads(text: string) returns (r: Result<map<string, GValue>>)
    ensures r == GoLoads(text)
  {
    var lexer := new GoLexer.Lexer(text);
    var tokens := lexer.Tokenize();
    if tokens.Err? {
      return Err(tokens.error);
    }
    GoLexShape(text);
    var parser := new Parser(Strict, tokens.value);
    r := ParseMap(parser);
  }
}
