/** The recursive-descent grammar of SCL as the reference library, the Python port, the Go
    port and the Ruby port parse it, written as pure functions over a token stream that ends
    with Eof. A function at position p returns what it parsed and the position after it, or
    the error the parser raises. The three dialects differ only where marked. */
module Grammar {
  import opened Wrappers
  import opened Text
  import opened Tokens
  import opened Values

  /** Whose rules apply. */
  datatype Dialect =
    | LibCore      // the reference parser: `[`-lists, plain strings, nested element types
    | LibComments  // the reference comment-preserving parser: comments skipped inside bodies
    | Strict       // the Python, Go and Ruby ports: `(` lists of scalars, strict literals

  predicate IsLib(d: Dialect) { !d.Strict? }

  /** What a list's element-type clause selects: the closure the parser returns. */
  datatype ElemKind = ENum | EFl | EBool | EStr | EMl | EClass | EList(inner: ElemKind) | EDynamic

  predicate IsScalarKind(k: ElemKind) { k.ENum? || k.EFl? || k.EBool? || k.EStr? }

  datatype Parsed<+T> = Parsed(val: T, next: nat)

  /** The positioned error raised at the token at p. */
  function Fail<T>(ts: seq<Token>, p: nat, msg: string): Result<T>
    requires p < |ts|
  {
    Err(SyntaxError(msg, ts[p].line, ts[p].col))
  }

  /** r is a syntax error located at the token at p. */
  predicate FailsAt<T>(r: Result<T>, ts: seq<Token>, p: nat)
    requires p < |ts|
  {
    r.Err? && r.error.SyntaxError? && r.error.line == ts[p].line && r.error.col == ts[p].col
  }

  // What a token carries, read as the parser reads `token.value`.
  function TextOf(t: Token): string { if t.payload.Text? then t.payload.s else "" }
  function IntOf(t: Token): int { if t.payload.IntVal? then t.payload.i else 0 }
  function BoolOf(t: Token): bool { t.payload.BoolVal? && t.payload.b }

  /** The value of a literal token. */
  function LiteralValue(t: Token): Value
  {
    match t.kind
    case NumberLit => Int(IntOf(t))
    case FloatLit => Float(TextOf(t))
    case BooleanLit => Bool(BoolOf(t))
    case _ => Str(TextOf(t))
  }

  /** eat(k): the token at p when it has kind k, else an error at that token. */
  function Eat(ts: seq<Token>, p: nat, k: TokenKind): (r: Result<Parsed<Token>>)
    requires EndsWithEof(ts) && p < |ts| && k != Eof
    ensures r.Ok? <==> ts[p].kind == k
    ensures r.Ok? ==> r.value == Parsed(ts[p], p + 1) && p + 1 < |ts|
    ensures r.Err? ==> FailsAt(r, ts, p)
  {
    if ts[p].kind == k then Ok(Parsed(ts[p], p + 1))
    else Fail(ts, p, "Expected " + KindName(k) + ", got " + KindName(ts[p].kind))
  }

  predicate IsKeyKind(k: TokenKind) { k == Identifier || IsTypeKeyword(k) || k == NumberLit || k == StringLit }

  /** A parameter name: an identifier, a type keyword, a string, or a number written in
      decimal. */
  function Key(ts: seq<Token>, p: nat): (r: Result<Parsed<string>>)
    requires EndsWithEof(ts) && p < |ts|
    ensures r.Ok? <==> IsKeyKind(ts[p].kind)
    ensures r.Ok? ==> r.value.next == p + 1 < |ts|
    ensures r.Ok? && ts[p].kind == NumberLit ==> r.value.val == Decimal(IntOf(ts[p]))
    ensures r.Ok? && ts[p].kind != NumberLit ==> r.value.val == TextOf(ts[p])
    ensures r.Err? ==> FailsAt(r, ts, p)
  {
    var t := ts[p];
    if t.kind == Identifier || IsTypeKeyword(t.kind) || t.kind == StringLit then Ok(Parsed(TextOf(t), p + 1))
    else if t.kind == NumberLit then Ok(Parsed(Decimal(IntOf(t)), p + 1))
    else Fail(ts, p, "Expected identifier or keyword, got " + KindName(t.kind))
  }

  /** The braced slots of the scalar types, each with the literal kinds it accepts. */
  datatype Slot = BoolSlot | NumSlot | StrSlot(d: Dialect) | MlSlot(d: Dialect) | FlSlot

  predicate Accepts(slot: Slot, k: TokenKind)
  {
    match slot
    case BoolSlot => k == BooleanLit
    case NumSlot => k == NumberLit
    case StrSlot(d) => StrLiteral(d, k)
    case MlSlot(d) => MlLiteral(d, k)
    case FlSlot => k == FloatLit || k == NumberLit
  }

  /** `{` followed by a literal the slot accepts, then `}`. */
  function BracedLiteral(ts: seq<Token>, p: nat, slot: Slot, msg: string, got: bool): (r: Result<Parsed<Token>>)
    requires EndsWithEof(ts) && p < |ts|
    ensures r.Ok? ==> p + 1 < |ts| && r.value.val == ts[p + 1] && Accepts(slot, ts[p + 1].kind)
    ensures r.Ok? ==> ts[p].kind == LBrace && r.value.next == p + 3 < |ts| && ts[p + 2].kind == RBrace
  {
    var lb :- Eat(ts, p, LBrace);
    var t := ts[lb.next];
    if !Accepts(slot, t.kind) then Fail(ts, lb.next, if got then msg + ", got " + KindName(t.kind) else msg)
    else
      var rb :- Eat(ts, lb.next + 1, RBrace);
      Ok(Parsed(t, rb.next))
  }

  /** bool { BOOLEAN } */
  function BoolValue(ts: seq<Token>, p: nat): (r: Result<Parsed<Value>>)
    requires EndsWithEof(ts) && p < |ts|
    ensures r.Ok? ==> p + 1 < |ts| && ts[p + 1].kind == BooleanLit && r.value == Parsed(Bool(BoolOf(ts[p + 1])), p + 3)
  {
    var t :- BracedLiteral(ts, p, BoolSlot, "Expected BOOLEAN", true);
    Ok(Parsed(Bool(BoolOf(t.val)), t.next))
  }

  /** num { NUMBER } */
  function NumValue(ts: seq<Token>, p: nat): (r: Result<Parsed<Value>>)
    requires EndsWithEof(ts) && p < |ts|
    ensures r.Ok? ==> p + 1 < |ts| && ts[p + 1].kind == NumberLit && r.value == Parsed(Int(IntOf(ts[p + 1])), p + 3)
  {
    var t :- BracedLiteral(ts, p, NumSlot, "Expected NUMBER", true);
    Ok(Parsed(Int(IntOf(t.val)), t.next))
  }

  /** The literals a `str` slot accepts: STRING, and in the reference library PLAIN_STRING. */
  predicate StrLiteral(d: Dialect, k: TokenKind) { k == StringLit || (IsLib(d) && k == PlainLit) }

  /** The literals an `ml` slot accepts: MULTILINE_STRING, and in the reference library
      PLAIN_STRING. */
  predicate MlLiteral(d: Dialect, k: TokenKind) { k == MultilineLit || (IsLib(d) && k == PlainLit) }

  /** str { STRING } */
  function StrValue(d: Dialect, ts: seq<Token>, p: nat): (r: Result<Parsed<Value>>)
    requires EndsWithEof(ts) && p < |ts|
    ensures r.Ok? ==> p + 1 < |ts| && StrLiteral(d, ts[p + 1].kind) && r.value == Parsed(Str(TextOf(ts[p + 1])), p + 3)
  {
    var t :- BracedLiteral(ts, p, StrSlot(d), "Expected string value", true);
    Ok(Parsed(Str(TextOf(t.val)), t.next))
  }

  /** ml { MULTILINE_STRING } */
  function MlValue(d: Dialect, ts: seq<Token>, p: nat): (r: Result<Parsed<Value>>)
    requires EndsWithEof(ts) && p < |ts|
    ensures r.Ok? ==> p + 1 < |ts| && MlLiteral(d, ts[p + 1].kind) && r.value == Parsed(Str(TextOf(ts[p + 1])), p + 3)
  {
    var t :- BracedLiteral(ts, p, MlSlot(d), "Expected multiline string value", true);
    Ok(Parsed(Str(TextOf(t.val)), t.next))
  }

  /** fl { FLOAT } or fl { NUMBER }, the integer promoted to a float. */
  function FlValue(ts: seq<Token>, p: nat): (r: Result<Parsed<Value>>)
    requires EndsWithEof(ts) && p < |ts|
    ensures r.Ok? ==> p + 1 < |ts| && r.value.next == p + 3
    ensures r.Ok? ==> ts[p + 1].kind == FloatLit || ts[p + 1].kind == NumberLit
    ensures r.Ok? && ts[p + 1].kind == FloatLit ==> r.value.val == Float(TextOf(ts[p + 1]))
    ensures r.Ok? && ts[p + 1].kind == NumberLit ==> r.value.val == Float(Decimal(IntOf(ts[p + 1])))
  {
    var t :- BracedLiteral(ts, p, FlSlot, "Expected float or number", false);
    var v := if t.val.kind == FloatLit then Float(TextOf(t.val)) else Float(Decimal(IntOf(t.val)));
    Ok(Parsed(v, t.next))
  }

  /** The literals `dynamic` accepts: any scalar literal, never a class or a list. */
  predicate DynamicLiteral(d: Dialect, k: TokenKind)
  {
    k == NumberLit || k == FloatLit || k == BooleanLit || k == StringLit || k == MultilineLit ||
    (IsLib(d) && k == PlainLit)
  }

  /** One scalar literal, without braces: the list element of `list(dynamic)`. */
  function DynamicDirect(d: Dialect, ts: seq<Token>, p: nat): (r: Result<Parsed<Value>>)
    requires EndsWithEof(ts) && p < |ts|
    ensures r.Ok? <==> DynamicLiteral(d, ts[p].kind)
    ensures r.Ok? ==> r.value == Parsed(LiteralValue(ts[p]), p + 1) && p + 1 < |ts| && IsScalar(r.value.val)
    ensures r.Err? ==> FailsAt(r, ts, p)
  {
    if DynamicLiteral(d, ts[p].kind) then Ok(Parsed(LiteralValue(ts[p]), p + 1))
    else Fail(ts, p, "dynamic supports only base types (bool, str, num, fl, ml)")
  }

  /** dynamic { literal } */
  function DynamicValue(d: Dialect, ts: seq<Token>, p: nat): (r: Result<Parsed<Value>>)
    requires EndsWithEof(ts) && p < |ts|
    ensures r.Ok? ==> p + 1 < |ts| && DynamicLiteral(d, ts[p + 1].kind)
    ensures r.Ok? ==> r.value == Parsed(LiteralValue(ts[p + 1]), p + 3) && IsScalar(r.value.val)
  {
    var lb :- Eat(ts, p, LBrace);
    var v :- DynamicDirect(d, ts, lb.next);
    var rb :- Eat(ts, v.next, RBrace);
    Ok(Parsed(v.val, rb.next))
  }

  /** The bracket that closes a type clause opened with `opener`. */
  function Closer(opener: TokenKind): TokenKind
  {
    if opener == LParen then RParen else RBracket
  }

  /** `(` elemtype `)`, and in the reference library also `[` elemtype `]`. */
  function TypeClause(d: Dialect, ts: seq<Token>, p: nat): (r: Result<Parsed<ElemKind>>)
    requires EndsWithEof(ts) && p < |ts|
    ensures r.Ok? ==> p + 2 < r.value.next < |ts|
    ensures r.Ok? ==> ts[p].kind == LParen || (IsLib(d) && ts[p].kind == LBracket)
    ensures r.Ok? ==> ts[r.value.next - 1].kind == Closer(ts[p].kind)
    ensures r.Ok? && !IsLib(d) ==> IsScalarKind(r.value.val)
    decreases |ts| - p, 1
  {
    var opener := ts[p].kind;
    if !(opener == LParen || (IsLib(d) && opener == LBracket)) then
      Fail(ts, p, if IsLib(d) then "Expected '(' or '[', got " + KindName(opener) else "Expected (, got " + KindName(opener))
    else
      var e :- ElemType(d, ts, p + 1);
      var c :- Eat(ts, e.next, Closer(opener));
      Ok(Parsed(e.val, c.next))
  }

  /** The element type: num, fl, bool, str; in the reference library also ml, class,
      dynamic and a nested `list` with its own bracketed clause. */
  function ElemType(d: Dialect, ts: seq<Token>, p: nat): (r: Result<Parsed<ElemKind>>)
    requires EndsWithEof(ts) && p < |ts|
    ensures r.Ok? ==> p < r.value.next < |ts|
    ensures r.Ok? && !IsLib(d) ==> IsScalarKind(r.value.val) && r.value.next == p + 1
    decreases |ts| - p, 0
  {
    var k := ts[p].kind;
    if k == NumKw then Ok(Parsed(ENum, p + 1))
    else if k == FlKw then Ok(Parsed(EFl, p + 1))
    else if k == BoolKw then Ok(Parsed(EBool, p + 1))
    else if k == StrKw then Ok(Parsed(EStr, p + 1))
    else if IsLib(d) && k == MlKw then Ok(Parsed(EMl, p + 1))
    else if IsLib(d) && k == ClassKw then Ok(Parsed(EClass, p + 1))
    else if IsLib(d) && k == ListKw then
      var inner :- TypeClause(d, ts, p + 1);
      Ok(Parsed(EList(inner.val), inner.next))
    else if IsLib(d) && k == DynamicKw then Ok(Parsed(EDynamic, p + 1))
    else Fail(ts, p, "Unsupported list element type: " + TextOf(ts[p]))
  }

  /** The shape a list element of kind k has. */
  predicate Conforms(v: Value, k: ElemKind)
  {
    match k
    case ENum => v.Int?
    case EFl => v.Float?
    case EBool => v.Bool?
    case EStr => v.Str?
    case EMl => v.Str?
    case EClass => v.Object?
    case EList(inner) => v.List? && forall i :: 0 <= i < |v.items| ==> Conforms(v.items[i], inner)
    case EDynamic => IsScalar(v)
  }

  /** Every element read so far has the list's element kind and is well formed. */
  predicate AllConform(vs: seq<Value>, k: ElemKind)
  {
    forall i :: 0 <= i < |vs| ==> Conforms(vs[i], k) && WellFormed(vs[i])
  }

  /** The shape a parameter's value has after the tag `tag`. */
  predicate TagConforms(tag: TokenKind, v: Value)
  {
    match tag
    case BoolKw => v.Bool?
    case StrKw => v.Str?
    case MlKw => v.Str?
    case NumKw => v.Int?
    case FlKw => v.Float?
    case ClassKw => v.Object?
    case ListKw => v.List?
    case DynamicKw => IsScalar(v)
    case _ => false
  }

  /** Every object in v, at any depth, holds each key once. */
  predicate WellFormed(v: Value)
  {
    match v
    case Object(es) => DistinctKeys(es) && forall i :: 0 <= i < |es| ==> WellFormed(es[i].1)
    case List(items) => forall i :: 0 <= i < |items| ==> WellFormed(items[i])
    case _ => true
  }

  predicate AllWellFormed(es: seq<(string, Value)>)
  {
    forall i :: 0 <= i < |es| ==> WellFormed(es[i].1)
  }

  /** name :: tag value */
  function Param(d: Dialect, ts: seq<Token>, p: nat): (r: Result<Parsed<(string, Value)>>)
    requires EndsWithEof(ts) && p < |ts|
    ensures r.Ok? ==> p + 3 < r.value.next < |ts|
    ensures r.Ok? ==> TagConforms(ts[p + 2].kind, r.value.val.1) && WellFormed(r.value.val.1)
    decreases |ts| - p, 0
  {
    var key :- Key(ts, p);
    var dc :- Eat(ts, key.next, DoubleColon);
    var v :- TypedValue(d, ts, dc.next);
    Ok(Parsed((key.val, v.val), v.next))
  }

  /** The type keyword at q and the value it demands after it. */
  function TypedValue(d: Dialect, ts: seq<Token>, q: nat): (r: Result<Parsed<Value>>)
    requires EndsWithEof(ts) && q < |ts|
    ensures r.Ok? ==> q + 1 < r.value.next < |ts|
    ensures r.Ok? ==> TagConforms(ts[q].kind, r.value.val) && WellFormed(r.value.val)
    ensures ts[q].kind !in {BoolKw, StrKw, NumKw, FlKw, MlKw, ClassKw, ListKw, DynamicKw} ==> FailsAt(r, ts, q)
    decreases |ts| - q, 0
  {
    var tag := ts[q].kind;
    if tag == BoolKw then BoolValue(ts, q + 1)
    else if tag == StrKw then StrValue(d, ts, q + 1)
    else if tag == NumKw then NumValue(ts, q + 1)
    else if tag == FlKw then FlValue(ts, q + 1)
    else if tag == MlKw then MlValue(d, ts, q + 1)
    else if tag == ClassKw then Class(d, ts, q + 1)
    else if tag == ListKw then ListValue(d, ts, q + 1)
    else if tag == DynamicKw then DynamicValue(d, ts, q + 1)
    else Fail(ts, q, "Unknown type: " + TextOf(ts[q]))
  }

  /** class { parameters } */
  function Class(d: Dialect, ts: seq<Token>, p: nat): (r: Result<Parsed<Value>>)
    requires EndsWithEof(ts) && p < |ts|
    ensures r.Ok? ==> p < r.value.next < |ts| && r.value.val.Object? && WellFormed(r.value.val)
    decreases |ts| - p, 0
  {
    var lb :- Eat(ts, p, LBrace);
    ClassBody(d, ts, lb.next, [])
  }

  /** The parameters of a class body up to its `}`, added to acc as a dict adds them. */
  function ClassBody(d: Dialect, ts: seq<Token>, p: nat, acc: seq<(string, Value)>): (r: Result<Parsed<Value>>)
    requires EndsWithEof(ts) && p < |ts| && DistinctKeys(acc) && AllWellFormed(acc)
    ensures r.Ok? ==> p < r.value.next < |ts| && r.value.val.Object? && WellFormed(r.value.val)
    decreases |ts| - p, 1
  {
    if ts[p].kind == RBrace then Ok(Parsed(Object(acc), p + 1))
    else if d == LibComments && ts[p].kind == Comment then ClassBody(d, ts, p + 1, acc)
    else
      var e :- Param(d, ts, p);
      PutKeepsWellFormed(acc, e.val.0, e.val.1);
      ClassBody(d, ts, e.next, Put(acc, e.val.0, e.val.1))
  }

  /** list clause { elements } */
  function ListValue(d: Dialect, ts: seq<Token>, p: nat): (r: Result<Parsed<Value>>)
    requires EndsWithEof(ts) && p < |ts|
    ensures r.Ok? ==> p < r.value.next < |ts| && r.value.val.List? && WellFormed(r.value.val)
    decreases |ts| - p, 0
  {
    var ty :- TypeClause(d, ts, p);
    var lb :- Eat(ts, ty.next, LBrace);
    ListBody(d, ts, lb.next, ty.val, [])
  }

  /** One list element of kind k: what the element parser returned by the type clause reads. */
  function Elem(d: Dialect, ts: seq<Token>, p: nat, k: ElemKind): (r: Result<Parsed<Value>>)
    requires EndsWithEof(ts) && p < |ts|
    ensures r.Ok? ==> p < r.value.next < |ts| && Conforms(r.value.val, k) && WellFormed(r.value.val)
    decreases |ts| - p, 1
  {
    match k
    case ENum =>
      var t :- Eat(ts, p, NumberLit);
      Ok(Parsed(Int(IntOf(t.val)), t.next))
    case EFl =>
      if ts[p].kind == FloatLit then Ok(Parsed(Float(TextOf(ts[p])), p + 1))
      else
        var t :- Eat(ts, p, NumberLit);
        Ok(Parsed(Float(Decimal(IntOf(t.val))), t.next))
    case EBool =>
      var t :- Eat(ts, p, BooleanLit);
      Ok(Parsed(Bool(BoolOf(t.val)), t.next))
    case EStr =>
      if StrLiteral(d, ts[p].kind) then Ok(Parsed(Str(TextOf(ts[p])), p + 1))
      else Fail(ts, p, "Expected string, got " + KindName(ts[p].kind))
    case EMl =>
      if MlLiteral(d, ts[p].kind) then Ok(Parsed(Str(TextOf(ts[p])), p + 1))
      else Fail(ts, p, "Expected multiline string, got " + KindName(ts[p].kind))
    case EClass => Class(d, ts, p)
    case EList(inner) =>
      var lb :- Eat(ts, p, LBrace);
      ListBody(d, ts, lb.next, inner, [])
    case EDynamic => DynamicDirect(d, ts, p)
  }

  /** The elements of a list body up to its `}`, appended to acc: comma-separated, a
      trailing comma allowed. */
  function ListBody(d: Dialect, ts: seq<Token>, p: nat, k: ElemKind, acc: seq<Value>): (r: Result<Parsed<Value>>)
    requires EndsWithEof(ts) && p < |ts|
    requires AllConform(acc, k)
    ensures r.Ok? ==> p < r.value.next < |ts| && Conforms(r.value.val, EList(k)) && WellFormed(r.value.val)
    decreases |ts| - p, 2
  {
    if ts[p].kind == RBrace then Ok(Parsed(List(acc), p + 1))
    else if d == LibComments && ts[p].kind == Comment then ListBody(d, ts, p + 1, k, acc)
    else
      var e :- Elem(d, ts, p, k);
      if ts[e.next].kind == Comma then ListBody(d, ts, e.next + 1, k, acc + [e.val])
      else if ts[e.next].kind == RBrace then ListBody(d, ts, e.next, k, acc + [e.val])
      else Fail(ts, e.next, "Expected comma or closing brace")
  }

  /** One step of a list body: after an element ending at q, a comma or a `}` continues
      the body and anything else is the missing-comma error. */
  lemma ListBodyStep(d: Dialect, ts: seq<Token>, p: nat, k: ElemKind, acc: seq<Value>, v: Value, q: nat)
    requires EndsWithEof(ts) && p < |ts| && AllConform(acc, k)
    requires ts[p].kind != RBrace && !(d == LibComments && ts[p].kind == Comment)
    requires Elem(d, ts, p, k) == Ok(Parsed(v, q))
    ensures p < q < |ts| && AllConform(acc + [v], k)
    ensures ts[q].kind == Comma ==> q + 1 < |ts| && ListBody(d, ts, p, k, acc) == ListBody(d, ts, q + 1, k, acc + [v])
    ensures ts[q].kind == RBrace ==> ListBody(d, ts, p, k, acc) == ListBody(d, ts, q, k, acc + [v])
    ensures ts[q].kind != Comma && ts[q].kind != RBrace ==>
      ListBody(d, ts, p, k, acc) == Fail(ts, q, "Expected comma or closing brace")
  {
    assert (acc + [v])[|acc|] == v;
  }

  /** A list body whose next element is malformed fails with that element's error. */
  lemma ListBodyElemFails(d: Dialect, ts: seq<Token>, p: nat, k: ElemKind, acc: seq<Value>)
    requires EndsWithEof(ts) && p < |ts| && AllConform(acc, k)
    requires ts[p].kind != RBrace && !(d == LibComments && ts[p].kind == Comment)
    requires Elem(d, ts, p, k).Err?
    ensures ListBody(d, ts, p, k, acc) == Err(Elem(d, ts, p, k).error)
  {
  }

  /** Adding an entry keeps every key unique and every value well formed. */
  lemma PutKeepsWellFormed(acc: seq<(string, Value)>, k: string, v: Value)
    requires DistinctKeys(acc) && AllWellFormed(acc) && WellFormed(v)
    ensures DistinctKeys(Put(acc, k, v)) && AllWellFormed(Put(acc, k, v))
  {
    PutDistinct(acc, k, v);
    PutValues(acc, k, v);
  }

  /** Every value of Put(acc, k, v) is v or a value of acc. */
  lemma {:induction false} PutValues(acc: seq<(string, Value)>, k: string, v: Value)
    ensures forall i :: 0 <= i < |Put(acc, k, v)| ==>
      Put(acc, k, v)[i].1 == v || exists j :: 0 <= j < |acc| && acc[j].1 == Put(acc, k, v)[i].1
  {
    if acc != [] && acc[0].0 != k {
      PutValues(acc[1..], k, v);
      var r := Put(acc, k, v);
      forall i | 0 <= i < |r| && r[i].1 != v
        ensures exists j :: 0 <= j < |acc| && acc[j].1 == r[i].1
      {
        if i == 0 {
          assert acc[0].1 == r[i].1;
        } else {
          var j :| 0 <= j < |acc[1..]| && acc[1..][j].1 == Put(acc[1..], k, v)[i - 1].1;
          assert acc[j + 1].1 == r[i].1;
        }
      }
    } else if acc != [] {
      var r := Put(acc, k, v);
      forall i | 0 <= i < |r| && r[i].1 != v
        ensures exists j :: 0 <= j < |acc| && acc[j].1 == r[i].1
      {
        assert acc[i].1 == r[i].1;
      }
    }
  }

  /** The top level: parameters until EOF, collected into a dict. */
  function Config(d: Dialect, ts: seq<Token>, p: nat, acc: seq<(string, Value)>): (r: Result<seq<(string, Value)>>)
    requires EndsWithEof(ts) && p < |ts| && DistinctKeys(acc) && AllWellFormed(acc)
    ensures r.Ok? ==> DistinctKeys(r.value) && AllWellFormed(r.value)
    decreases |ts| - p
  {
    if ts[p].kind == Eof then Ok(acc)
    else
      var e :- Param(d, ts, p);
      PutKeepsWellFormed(acc, e.val.0, e.val.1);
      Config(d, ts, e.next, Put(acc, e.val.0, e.val.1))
  }

  /** Parse(tokens) of the reference core parser and of the ports: newlines and comments
      removed up front, then the parameters of the whole stream. */
  function Parse(d: Dialect, tokens: seq<Token>): (r: Result<seq<(string, Value)>>)
    requires EndsWithEof(tokens)
    ensures r.Ok? ==> DistinctKeys(r.value) && AllWellFormed(r.value)
  {
    Config(d, Significant(tokens), 0, [])
  }
}
