/** Properties of the Rust port's parser that relate several parses or the parser to its
    lexer: the last-insert-wins rule for repeated names, the i64 reading of numbers, the
    boolean words, the list separators, and layout independence. */
module RustParserFacts {
  import opened Wrappers
  import opened Text
  import opened Tokens
  import opened Grammar
  import opened RustLexer
  import opened RustParser

  /** The parameters from p to Eof in the order they are written, repeats included. */
  function RParams(ts: seq<Token>, p: nat): (r: Result<seq<(string, RValue)>>)
    requires EndsWithEof(ts) && p < |ts|
    ensures r.Ok? ==> forall i :: 0 <= i < |r.value| ==> Dumpable(r.value[i].1)
    decreases |ts| - p
  {
    if ts[p].kind == Eof then Ok([])
    else
      var e :- RParam(ts, p);
      var rest :- RParams(ts, e.next);
      Ok([e.val] + rest)
  }

  /** HashMap::insert for each parameter in turn. */
  function InsertAll(m: map<string, RValue>, ps: seq<(string, RValue)>): map<string, RValue>
    decreases |ps|
  {
    if ps == [] then m else InsertAll(m[ps[0].0 := ps[0].1], ps[1..])
  }

  /** The parse loop is the parameters, in order, inserted into the map one by one. */
  lemma {:induction false} ConfigIsInsertAll(ts: seq<Token>, p: nat, acc: map<string, RValue>)
    requires EndsWithEof(ts) && p < |ts| && AllDumpable(acc)
    ensures RConfig(ts, p, acc).Ok? <==> RParams(ts, p).Ok?
    ensures RConfig(ts, p, acc).Ok? ==> RConfig(ts, p, acc).value == InsertAll(acc, RParams(ts, p).value)
    ensures RConfig(ts, p, acc).Err? ==> RConfig(ts, p, acc).error == RParams(ts, p).error
    decreases |ts| - p
  {
    if ts[p].kind != Eof {
      var e := RParam(ts, p);
      if e.Ok? {
        var acc' := acc[e.value.val.0 := e.value.val.1];
        ConfigIsInsertAll(ts, e.value.next, acc');
        var rest := RParams(ts, e.value.next);
        if rest.Ok? {
          var ps := [e.value.val] + rest.value;
          assert ps[0] == e.value.val && ps[1..] == rest.value;
        }
      }
    }
  }

  /** A name written at index i and never again afterwards ends up with the value written
      at i: a later insert replaces an earlier one. */
  lemma {:induction false} InsertAllLastWins(m: map<string, RValue>, ps: seq<(string, RValue)>, i: nat)
    requires i < |ps| && forall j :: i < j < |ps| ==> ps[j].0 != ps[i].0
    ensures ps[i].0 in InsertAll(m, ps) && InsertAll(m, ps)[ps[i].0] == ps[i].1
    decreases |ps|
  {
    if i == 0 {
      InsertAllUntouched(m[ps[0].0 := ps[0].1], ps[1..], ps[0].0);
    } else {
      InsertAllLastWins(m[ps[0].0 := ps[0].1], ps[1..], i - 1);
    }
  }

  /** A name no parameter writes keeps the entry it had. */
  lemma {:induction false} InsertAllUntouched(m: map<string, RValue>, ps: seq<(string, RValue)>, k: string)
    requires forall j :: 0 <= j < |ps| ==> ps[j].0 != k
    ensures (k in InsertAll(m, ps) <==> k in m) && (k in m ==> InsertAll(m, ps)[k] == m[k])
    decreases |ps|
  {
    if ps != [] {
      InsertAllUntouched(m[ps[0].0 := ps[0].1], ps[1..], k);
    }
  }

  /** parse: a name written several times holds the value of its last occurrence. */
  lemma ParseLastInsertWins(tokens: seq<Token>, i: nat)
    requires EndsWithEof(tokens) && RParse(tokens).Ok?
    ensures RParams(Significant(tokens), 0).Ok?
    ensures var ps := RParams(Significant(tokens), 0).value;
      i < |ps| && (forall j :: i < j < |ps| ==> ps[j].0 != ps[i].0) ==>
        ps[i].0 in RParse(tokens).value && RParse(tokens).value[ps[i].0] == ps[i].1
  {
    ConfigIsInsertAll(Significant(tokens), 0, map[]);
    var ps := RParams(Significant(tokens), 0).value;
    if i < |ps| && (forall j :: i < j < |ps| ==> ps[j].0 != ps[i].0) {
      InsertAllLastWins(map[], ps, i);
    }
  }

  /** Newlines and comments never influence a parse: filtering them again changes nothing. */
  lemma RParseIgnoresLayout(tokens: seq<Token>)
    requires EndsWithEof(tokens)
    ensures RParse(Significant(tokens)) == RParse(tokens)
  {
    SignificantIdempotent(tokens);
  }

  /** Reading back the decimal text of an integer gives the integer when it fits in i64,
      and the fallback 0 when it does not. */
  lemma ParseI64OfDecimal(n: int)
    ensures ParseI64(Decimal(n)) == if InI64(n) then n else 0
  {
    DecimalRoundTrip(n);
    assert Decimal(n)[0] != '+' by {
      if n >= 0 { assert IsDigit(NatText(n)[0]); }
    }
  }

  /** Both forms i64 parsing accepts, "+digits" and an integer literal, hold a digit. */
  lemma SignedDigitsHaveDigit(s: string)
    requires (|s| > 1 && s[0] == '+' && AllDigits(s[1..])) || IsIntText(s)
    ensures HasDigit(s)
  {
    if |s| > 1 && s[0] == '+' && AllDigits(s[1..]) {
      assert IsDigit(s[1]);
    } else if s[0] == '-' {
      assert IsDigit(s[1]);
    } else {
      assert IsDigit(s[0]);
    }
  }

  /** Text without a digit does not parse as an integer and reads as 0. */
  lemma ParseI64WithoutDigits(s: string)
    requires !HasDigit(s)
    ensures ParseI64(s) == 0
  {
    if (|s| > 1 && s[0] == '+' && AllDigits(s[1..])) || IsIntText(s) {
      SignedDigitsHaveDigit(s);
    }
  }

  /** The lexer turns the words true, yes, false and no into Boolean tokens, and the parser
      reads such a token as true exactly when the word was true or yes. */
  lemma BooleanWordsReadBack(text: string, q: nat, d: nat)
    requires q <= |text|
    ensures var s := RIdentifierAt(text, q, d); var w := text[q..s.next];
      s.tok.kind == BooleanLit ==> (TrueText(s.tok) <==> w == "true" || w == "yes")
  {
    BooleanWords(text, q, d);
  }

  /** A comma after the last element is accepted. */
  lemma TrailingCommaAccepted(ts: seq<Token>, p: nat, v: RValue)
    requires EndsWithEof(ts) && p + 2 < |ts| && IsTypedList(v) && ItemFits(v, ts[p].kind)
    requires ts[p + 1].kind == Comma && ts[p + 2].kind == RBrace
    ensures RListItems(ts, p, v) == Ok(Parsed(Push(v, ts[p]), p + 3))
  {
    RListItemsStep(ts, p, v);
  }

  /** Two elements with no comma between them are the missing-comma error, at the second. */
  lemma MissingCommaFails(ts: seq<Token>, p: nat, v: RValue)
    requires EndsWithEof(ts) && p + 1 < |ts| && IsTypedList(v) && ItemFits(v, ts[p].kind)
    requires ItemFits(Push(v, ts[p]), ts[p + 1].kind)
    ensures RListItems(ts, p, v) == Fail(ts, p + 1, "Expected comma or closing brace")
  {
    RListItemsStep(ts, p, v);
  }

  /** The first element of a list that does not fit its type is the error of the whole
      list: eat's error for num, bool and str, "Expected float or number" for fl. */
  lemma ListItemMisfit(ts: seq<Token>, p: nat, v: RValue)
    requires EndsWithEof(ts) && p < |ts| && IsTypedList(v)
    requires ts[p].kind != RBrace && !ItemFits(v, ts[p].kind)
    ensures FailsAt(RListItems(ts, p, v), ts, p)
    ensures v.RListFl? ==> RListItems(ts, p, v) == Fail(ts, p, "Expected float or number")
  {
    RListItemsStep(ts, p, v);
  }
}
