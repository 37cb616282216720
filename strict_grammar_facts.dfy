/** What the strict dialect of the grammar, the one the Python, Go and Ruby ports parse,
    accepts: a `str` slot takes a double-quoted string only, an `ml` slot a single-quoted one
    only, `dynamic` exactly one scalar literal, and a list only scalar elements, so no value
    these ports read holds a list of lists or a list of classes. */
module StrictGrammarFacts {
  import opened Wrappers
  import opened Text
  import opened Tokens
  import opened Values
  import opened Grammar

  /** The literal kinds `dynamic` takes in the strict dialect. */
  predicate StrictDynamicKind(k: TokenKind)
  {
    k == NumberLit || k == FloatLit || k == BooleanLit || k == StringLit || k == MultilineLit
  }

  /** `{ literal }` with the literal of kind k. */
  predicate BracedAt(ts: seq<Token>, p: nat, k: TokenKind)
  {
    p + 2 < |ts| && ts[p].kind == LBrace && ts[p + 1].kind == k && ts[p + 2].kind == RBrace
  }

  /** str takes STRING and nothing else, ml takes MULTILINE_STRING and nothing else. */
  lemma StrictStringSlots(ts: seq<Token>, p: nat)
    requires EndsWithEof(ts) && p < |ts|
    ensures StrValue(Strict, ts, p).Ok? <==> BracedAt(ts, p, StringLit)
    ensures MlValue(Strict, ts, p).Ok? <==> BracedAt(ts, p, MultilineLit)
    ensures StrValue(Strict, ts, p).Ok? ==> StrValue(Strict, ts, p).value == Parsed(Str(TextOf(ts[p + 1])), p + 3)
    ensures MlValue(Strict, ts, p).Ok? ==> MlValue(Strict, ts, p).value == Parsed(Str(TextOf(ts[p + 1])), p + 3)
  {
  }

  /** fl takes FLOAT, or NUMBER promoted to a float. */
  lemma StrictFloatSlot(ts: seq<Token>, p: nat)
    requires EndsWithEof(ts) && p < |ts|
    ensures FlValue(ts, p).Ok? <==> BracedAt(ts, p, FloatLit) || BracedAt(ts, p, NumberLit)
  {
  }

  /** dynamic takes exactly one scalar literal between braces. */
  lemma StrictDynamicSlot(ts: seq<Token>, p: nat)
    requires EndsWithEof(ts) && p < |ts|
    ensures DynamicValue(Strict, ts, p).Ok? <==>
      p + 2 < |ts| && ts[p].kind == LBrace && StrictDynamicKind(ts[p + 1].kind) && ts[p + 2].kind == RBrace
    ensures DynamicValue(Strict, ts, p).Ok? ==> DynamicValue(Strict, ts, p).value == Parsed(LiteralValue(ts[p + 1]), p + 3)
  {
    if p + 1 < |ts| && ts[p].kind == LBrace && StrictDynamicKind(ts[p + 1].kind) {
      assert ts[p + 1].kind != Eof;
    }
  }

  /** The element type of a list is num, fl, bool or str; anything else is the
      "Unsupported list element type" error at that token. */
  lemma StrictElementTypes(ts: seq<Token>, p: nat)
    requires EndsWithEof(ts) && p < |ts|
    ensures ElemType(Strict, ts, p).Ok? <==> ts[p].kind in {NumKw, FlKw, BoolKw, StrKw}
    ensures ElemType(Strict, ts, p).Err? ==>
      ElemType(Strict, ts, p) == Fail(ts, p, "Unsupported list element type: " + TextOf(ts[p]))
  {
  }

  /** The type clause is `(` element type `)`; a `[` is not accepted. */
  lemma StrictTypeClause(ts: seq<Token>, p: nat)
    requires EndsWithEof(ts) && p < |ts|
    ensures TypeClause(Strict, ts, p).Ok? <==>
      p + 2 < |ts| && ts[p].kind == LParen && ts[p + 1].kind in {NumKw, FlKw, BoolKw, StrKw} && ts[p + 2].kind == RParen
  {
    if p + 1 < |ts| && ts[p].kind == LParen {
      StrictElementTypes(ts, p + 1);
    }
  }

  /** a and b are scalars of the same type. */
  predicate SameScalar(a: Value, b: Value)
  {
    (a.Bool? && b.Bool?) || (a.Int? && b.Int?) || (a.Float? && b.Float?) || (a.Str? && b.Str?)
  }

  /** Lists hold scalars only, all of the type of the first, at any depth. */
  predicate FlatLists(v: Value)
  {
    match v
    case Object(es) => forall i :: 0 <= i < |es| ==> FlatLists(es[i].1)
    case List(xs) => forall i :: 0 <= i < |xs| ==> SameScalar(xs[i], xs[0])
    case _ => true
  }

  predicate AllFlat(es: seq<(string, Value)>)
  {
    forall i :: 0 <= i < |es| ==> FlatLists(es[i].1)
  }

  lemma PutKeepsFlat(acc: seq<(string, Value)>, k: string, v: Value)
    requires AllFlat(acc) && FlatLists(v)
    ensures AllFlat(Put(acc, k, v))
  {
    PutValues(acc, k, v);
    var r := Put(acc, k, v);
    forall i | 0 <= i < |r| ensures FlatLists(r[i].1) {
      if r[i].1 != v {
        var j :| 0 <= j < |acc| && acc[j].1 == r[i].1;
      }
    }
  }

  lemma {:induction false} ParamFlat(ts: seq<Token>, p: nat)
    requires EndsWithEof(ts) && p < |ts|
    ensures Param(Strict, ts, p).Ok? ==> FlatLists(Param(Strict, ts, p).value.val.1)
    decreases |ts| - p, 0
  {
    var key := Key(ts, p);
    if key.Ok? {
      var dc := Eat(ts, key.value.next, DoubleColon);
      if dc.Ok? {
        TypedValueFlat(ts, dc.value.next);
      }
    }
  }

  lemma {:induction false} TypedValueFlat(ts: seq<Token>, q: nat)
    requires EndsWithEof(ts) && q < |ts|
    ensures TypedValue(Strict, ts, q).Ok? ==> FlatLists(TypedValue(Strict, ts, q).value.val)
    decreases |ts| - q, 0
  {
    var tag := ts[q].kind;
    if tag == ClassKw {
      var lb := Eat(ts, q + 1, LBrace);
      if lb.Ok? {
        ClassBodyFlat(ts, lb.value.next, []);
      }
    } else if tag == ListKw {
      ListValueFlat(ts, q + 1);
    }
  }

  lemma {:induction false} ClassBodyFlat(ts: seq<Token>, p: nat, acc: seq<(string, Value)>)
    requires EndsWithEof(ts) && p < |ts| && DistinctKeys(acc) && AllWellFormed(acc) && AllFlat(acc)
    ensures ClassBody(Strict, ts, p, acc).Ok? ==> FlatLists(ClassBody(Strict, ts, p, acc).value.val)
    decreases |ts| - p, 1
  {
    if ts[p].kind != RBrace {
      var e := Param(Strict, ts, p);
      if e.Ok? {
        ParamFlat(ts, p);
        PutKeepsWellFormed(acc, e.value.val.0, e.value.val.1);
        PutKeepsFlat(acc, e.value.val.0, e.value.val.1);
        ClassBodyFlat(ts, e.value.next, Put(acc, e.value.val.0, e.value.val.1));
      }
    }
  }

  /** A strict list holds scalars of one type: the element type is one of the four scalar
      kinds, and every element conforms to it. */
  lemma ListValueFlat(ts: seq<Token>, p: nat)
    requires EndsWithEof(ts) && p < |ts|
    ensures ListValue(Strict, ts, p).Ok? ==> FlatLists(ListValue(Strict, ts, p).value.val)
  {
    var ty := TypeClause(Strict, ts, p);
    if ListValue(Strict, ts, p).Ok? {
      var k := ty.value.val;
      var v := ListValue(Strict, ts, p).value.val;
      assert Conforms(v, EList(k)) && IsScalarKind(k);
      forall i | 0 <= i < |v.items| ensures SameScalar(v.items[i], v.items[0]) {
        assert Conforms(v.items[i], k) && Conforms(v.items[0], k);
      }
    }
  }

  lemma {:induction false} ConfigFlat(ts: seq<Token>, p: nat, acc: seq<(string, Value)>)
    requires EndsWithEof(ts) && p < |ts| && DistinctKeys(acc) && AllWellFormed(acc) && AllFlat(acc)
    ensures Config(Strict, ts, p, acc).Ok? ==> AllFlat(Config(Strict, ts, p, acc).value)
    decreases |ts| - p
  {
    if ts[p].kind != Eof {
      var e := Param(Strict, ts, p);
      if e.Ok? {
        ParamFlat(ts, p);
        PutKeepsWellFormed(acc, e.value.val.0, e.value.val.1);
        PutKeepsFlat(acc, e.value.val.0, e.value.val.1);
        ConfigFlat(ts, e.value.next, Put(acc, e.value.val.0, e.value.val.1));
      }
    }
  }

  /** Every configuration the strict ports read holds only lists of scalars. */
  lemma StrictParseFlat(tokens: seq<Token>)
    requires EndsWithEof(tokens) && Parse(Strict, tokens).Ok?
    ensures AllFlat(Parse(Strict, tokens).value)
  {
    ConfigFlat(Significant(tokens), 0, []);
  }
}
