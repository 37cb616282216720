/** Properties of the grammar that relate several parses: layout independence, the
    last-value-wins rule for repeated names, the list-body rules, and worked examples. */
module GrammarFacts {
  import opened Wrappers
  import opened Text
  import opened Tokens
  import opened Values
  import opened Grammar

  /** The parameters from p to EOF in the order they are written, repeats included. */
  function Params(d: Dialect, ts: seq<Token>, p: nat): (r: Result<seq<(string, Value)>>)
    requires EndsWithEof(ts) && p < |ts|
    ensures r.Ok? ==> forall i :: 0 <= i < |r.value| ==> WellFormed(r.value[i].1)
    decreases |ts| - p
  {
    if ts[p].kind == Eof then Ok([])
    else
      var e :- Param(d, ts, p);
      var rest :- Params(d, ts, e.next);
      Ok([e.val] + rest)
  }

  /** config[name] = value for each parameter in turn. */
  function PutAll(acc: seq<(string, Value)>, ps: seq<(string, Value)>): seq<(string, Value)>
    decreases |ps|
  {
    if ps == [] then acc else PutAll(Put(acc, ps[0].0, ps[0].1), ps[1..])
  }

  /** The value of the last parameter named k, if any. */
  function LastValue(ps: seq<(string, Value)>, k: string): (r: Option<Value>)
    ensures r.Some? <==> k in Keys(ps)
    decreases |ps|
  {
    if ps == [] then None
    else if ps[|ps| - 1].0 == k then Some(ps[|ps| - 1].1)
    else
      assert Keys(ps) == Keys(ps[..|ps| - 1]) + [ps[|ps| - 1].0];
      LastValue(ps[..|ps| - 1], k)
  }

  /** The parse loop is the parameters, in order, put into the dictionary one by one. */
  lemma {:induction false} ConfigIsPutAll(d: Dialect, ts: seq<Token>, p: nat, acc: seq<(string, Value)>)
    requires EndsWithEof(ts) && p < |ts| && DistinctKeys(acc) && AllWellFormed(acc)
    ensures Config(d, ts, p, acc).Ok? <==> Params(d, ts, p).Ok?
    ensures Config(d, ts, p, acc).Ok? ==> Config(d, ts, p, acc).value == PutAll(acc, Params(d, ts, p).value)
    ensures Config(d, ts, p, acc).Err? ==> Config(d, ts, p, acc).error == Params(d, ts, p).error
    decreases |ts| - p
  {
    if ts[p].kind != Eof {
      var e := Param(d, ts, p);
      if e.Ok? {
        PutKeepsWellFormed(acc, e.value.val.0, e.value.val.1);
        ConfigIsPutAll(d, ts, e.value.next, Put(acc, e.value.val.0, e.value.val.1));
        var rest := Params(d, ts, e.value.next);
        if rest.Ok? {
          var ps := [e.value.val] + rest.value;
          assert ps[0] == e.value.val && ps[1..] == rest.value;
        }
      }
    }
  }

  /** A repeated name keeps the value written last; a name never written keeps the value
      it had before. */
  lemma {:induction false} PutAllLastWins(acc: seq<(string, Value)>, ps: seq<(string, Value)>, k: string)
    ensures Get(PutAll(acc, ps), k) == if k in Keys(ps) then LastValue(ps, k) else Get(acc, k)
    decreases |ps|
  {
    if ps != [] {
      PutAllLastWins(Put(acc, ps[0].0, ps[0].1), ps[1..], k);
      PutGet(acc, ps[0].0, ps[0].1, k);
      LastValueOfCons(ps, k);
    }
  }

  /** The last value of k in x :: rest is its last value in rest, or x's when rest has none. */
  lemma {:induction false} LastValueOfCons(ps: seq<(string, Value)>, k: string)
    requires ps != []
    ensures LastValue(ps, k) == if k in Keys(ps[1..]) then LastValue(ps[1..], k)
      else if ps[0].0 == k then Some(ps[0].1) else None
    decreases |ps|
  {
    var n := |ps| - 1;
    if n > 0 {
      assert ps[1..][..n - 1] == ps[..n][1..];
      assert ps[1..][n - 1] == ps[n];
      assert Keys(ps[1..]) == Keys(ps[..n][1..]) + [ps[n].0];
      if ps[n].0 != k {
        LastValueOfCons(ps[..n], k);
      }
    }
  }

  /** parse: each name once, holding the value of its last occurrence. */
  lemma ParseLastValueWins(d: Dialect, tokens: seq<Token>, k: string)
    requires EndsWithEof(tokens) && Parse(d, tokens).Ok?
    ensures Params(d, Significant(tokens), 0).Ok?
    ensures Get(Parse(d, tokens).value, k) == LastValue(Params(d, Significant(tokens), 0).value, k)
  {
    ConfigIsPutAll(d, Significant(tokens), 0, []);
    PutAllLastWins([], Params(d, Significant(tokens), 0).value, k);
  }

  /** Newlines and comments never influence a parse: filtering them again changes nothing. */
  lemma ParseIgnoresLayout(d: Dialect, tokens: seq<Token>)
    requires EndsWithEof(tokens)
    ensures Parse(d, Significant(tokens)) == Parse(d, tokens)
  {
    SignificantIdempotent(tokens);
  }

  /** An empty list body is accepted. */
  lemma EmptyListBody(d: Dialect, ts: seq<Token>, p: nat, k: ElemKind)
    requires EndsWithEof(ts) && p < |ts| && ts[p].kind == RBrace
    ensures ListBody(d, ts, p, k, []) == Ok(Parsed(List([]), p + 1))
  {
  }

  /** An element, a comma and the closing brace: the trailing comma is accepted. */
  lemma TrailingComma(d: Dialect, ts: seq<Token>, p: nat, k: ElemKind, v: Value, q: nat)
    requires EndsWithEof(ts) && p < |ts| && ts[p].kind != RBrace && !(d == LibComments && ts[p].kind == Comment)
    requires Elem(d, ts, p, k) == Ok(Parsed(v, q))
    requires q + 1 < |ts| && ts[q].kind == Comma && ts[q + 1].kind == RBrace
    ensures ListBody(d, ts, p, k, []) == Ok(Parsed(List([v]), q + 2))
  {
    ListBodyStep(d, ts, p, k, [], v, q);
    assert [] + [v] == [v];
    assert ListBody(d, ts, q + 1, k, [v]) == Ok(Parsed(List([v]), q + 2));
  }

  /** Two elements with nothing between them: "Expected comma or closing brace" at the
      second one. */
  lemma MissingComma(d: Dialect, ts: seq<Token>, p: nat, k: ElemKind, v: Value, q: nat)
    requires EndsWithEof(ts) && p < |ts| && ts[p].kind != RBrace && !(d == LibComments && ts[p].kind == Comment)
    requires Elem(d, ts, p, k) == Ok(Parsed(v, q))
    requires ts[q].kind != Comma && ts[q].kind != RBrace
    ensures ListBody(d, ts, p, k, []) == Err(SyntaxError("Expected comma or closing brace", ts[q].line, ts[q].col))
  {
    ListBodyStep(d, ts, p, k, [], v, q);
  }

  /** `num { }`: the braces are read, then the missing number is reported at the `}`. */
  lemma EmptyNumBraces(ts: seq<Token>, p: nat)
    requires EndsWithEof(ts) && p + 1 < |ts| && ts[p].kind == LBrace && ts[p + 1].kind == RBrace
    ensures NumValue(ts, p) == Err(SyntaxError("Expected NUMBER, got }", ts[p + 1].line, ts[p + 1].col))
  {
    assert Eat(ts, p, LBrace) == Ok(Parsed(ts[p], p + 1));
    assert "Expected NUMBER" + ", got " + KindName(RBrace) == "Expected NUMBER, got }";
  }

  /** A parameter whose key and `::` are fine fails with the error of its typed value. */
  lemma ParamValueError(d: Dialect, ts: seq<Token>, p: nat, e: Error)
    requires EndsWithEof(ts) && p + 2 < |ts| && ts[p].kind == Identifier && ts[p + 1].kind == DoubleColon
    requires TypedValue(d, ts, p + 2) == Err(e)
    ensures Param(d, ts, p) == Err(e)
  {
    assert Key(ts, p).Ok? && Key(ts, p).value.next == p + 1;
    assert Eat(ts, p + 1, DoubleColon) == Ok(Parsed(ts[p + 1], p + 2));
  }

  /** After `num`, the error of the braced number is the error of the typed value. */
  lemma NumTagError(d: Dialect, ts: seq<Token>, q: nat, e: Error)
    requires EndsWithEof(ts) && q + 1 < |ts| && ts[q].kind == NumKw && NumValue(ts, q + 1) == Err(e)
    ensures TypedValue(d, ts, q) == Err(e)
  {
  }

  /** A stream whose first parameter fails fails as a whole, with that error. */
  lemma FirstParamError(d: Dialect, ts: seq<Token>, e: Error)
    requires EndsWithEof(ts) && ts[0].kind != Eof && Param(d, ts, 0) == Err(e)
    ensures Config(d, ts, 0, []) == Err(e)
  {
  }

  /** `x :: num` followed by a failing braced number fails as a whole, with that error. */
  lemma NumSlotFails(d: Dialect, ts: seq<Token>, e: Error)
    requires EndsWithEof(ts) && 5 < |ts| && ts[0].kind == Identifier && ts[1].kind == DoubleColon
    requires ts[2].kind == NumKw && NumValue(ts, 3) == Err(e)
    ensures Config(d, ts, 0, []) == Err(e)
  {
    NumTagError(d, ts, 2, e);
    ParamValueError(d, ts, 0, e);
    FirstParamError(d, ts, e);
  }

  /** `x :: num { }` fails at the `}`: a stream of significant tokens that opens with an
      identifier, `::`, `num`, `{` and `}` is refused with "Expected NUMBER, got }" at the
      position of the `}`. */
  lemma EmptyNumFails(d: Dialect, ts: seq<Token>)
    requires EndsWithEof(ts) && 5 < |ts| && forall i :: 0 <= i < |ts| ==> IsSignificant(ts[i])
    requires ts[0].kind == Identifier && ts[1].kind == DoubleColon && ts[2].kind == NumKw
    requires ts[3].kind == LBrace && ts[4].kind == RBrace
    ensures Parse(d, ts) == Err(SyntaxError("Expected NUMBER, got }", ts[4].line, ts[4].col))
  {
    SignificantKeepsAll(ts);
    var e := SyntaxError("Expected NUMBER, got }", ts[4].line, ts[4].col);
    EmptyNumBraces(ts, 3);
    NumTagError(d, ts, 2, e);
    ParamValueError(d, ts, 0, e);
    FirstParamError(d, ts, e);
  }

  /** A stream with no newline or comment is its own significant part. */
  lemma {:induction false} SignificantKeepsAll(ts: seq<Token>)
    requires forall i :: 0 <= i < |ts| ==> IsSignificant(ts[i])
    ensures Significant(ts) == ts
    decreases |ts|
  {
    if ts != [] {
      SignificantKeepsAll(ts[..|ts| - 1]);
    }
  }
}
