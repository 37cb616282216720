/** The C port's parser and serializer entry points (c-lang/src/scl_parser.c): a
    recursive-descent parser over the lexer's token array that builds scl_value_t trees,
    scl_loads, the string builder sb_append and the top level of scl_dumps.

    Two functions the source calls are not defined in it: parse_parameter_pair, which reads
    one `name :: type { value }` parameter, and the body of dumps_value_line, which writes
    one line. The model takes each as a parameter: a PairReader and a LineWriter. */
module CParser {
  import opened Wrappers
  import opened Text
  import opened Tokens
  import opened CValue
  import CLexer

  // ---------------------------------------------------------------------------------
  // Token fields as the C token struct holds them.
  // ---------------------------------------------------------------------------------

  /** t->i: the value of a NUMBER token; 0 in a token that carries none. */
  function IntOf(t: Token): int { if t.payload.IntVal? then t.payload.i else 0 }

  /** t->b: the value of a BOOLEAN token; false in a token that carries none. */
  function BoolOf(t: Token): bool { t.payload.BoolVal? && t.payload.b }

  /** t->s (and t->f, kept as its lexeme): the text of a token, "" where it carries none. */
  function TextOf(t: Token): string { if t.payload.Text? then t.payload.s else "" }

  // ---------------------------------------------------------------------------------
  // Specification of the readers, on the token array and an index into it.
  // ---------------------------------------------------------------------------------

  /** The braced-value readers parse_bool_value, parse_str_value, parse_num_value,
      parse_fl_value, parse_ml_value and parse_value_dynamic differ only in the literals
      they take between the braces and in the message when the literal is wrong. */
  datatype Slot = BoolSlot | StrSlot | NumSlot | FlSlot | MlSlot | DynamicSlot

  /** The scalar the reader for slot builds from the literal t, or None when it refuses t.
      An fl reader turns an integer into a float; the dynamic reader keeps each literal's
      own kind. */
  function SlotScalar(slot: Slot, t: Token): Option<Scalar>
  {
    match slot
    case BoolSlot => if t.kind == BooleanLit then Some(SBool(BoolOf(t))) else None
    case StrSlot => if t.kind == StringLit then Some(SStr(TextOf(t))) else None
    case NumSlot => if t.kind == NumberLit then Some(SNum(IntOf(t))) else None
    case FlSlot =>
      if t.kind == FloatLit then Some(SFl(TextOf(t)))
      else if t.kind == NumberLit then Some(SFl(Decimal(IntOf(t))))
      else None
    case MlSlot => if t.kind == MultilineLit then Some(SMl(TextOf(t))) else None
    case DynamicSlot =>
      if t.kind == NumberLit then Some(SNum(IntOf(t)))
      else if t.kind == FloatLit then Some(SFl(TextOf(t)))
      else if t.kind == BooleanLit then Some(SBool(BoolOf(t)))
      else if t.kind == StringLit then Some(SStr(TextOf(t)))
      else if t.kind == MultilineLit then Some(SMl(TextOf(t)))
      else None
  }

  /** The message of a reader whose literal is wrong. */
  function SlotMessage(slot: Slot): string
  {
    match slot
    case BoolSlot => "Expected boolean"
    case StrSlot => "Expected string"
    case NumSlot => "Expected number"
    case FlSlot => "Expected float or number"
    case MlSlot => "Expected multiline string"
    case DynamicSlot => "dynamic supports only base types (bool, str, num, fl, ml)"
  }

  /** The type of the values a typed reader builds. */
  function SlotType(slot: Slot): SclType
    requires slot != DynamicSlot
  {
    match slot
    case BoolSlot => SclBool
    case StrSlot => SclStr
    case NumSlot => SclNum
    case FlSlot => SclFl
    case MlSlot => SclMl
  }

  /** `{ literal }` at p: the scalar and the index after '}', or the first error. */
  function BracedAt(ts: seq<Token>, p: nat, slot: Slot): (r: Result<(Scalar, nat)>)
    requires EndsWithEof(ts) && p < |ts|
    ensures r.Ok? ==> r.value.1 == p + 3 < |ts| && SlotScalar(slot, ts[p + 1]) == Some(r.value.0)
    ensures r.Err? ==> r.error.StructuralError?
  {
    if ts[p].kind != LBrace then Err(CLexer.CError("Expected '{'"))
    else match SlotScalar(slot, ts[p + 1])
      case None => Err(CLexer.CError(SlotMessage(slot)))
      case Some(x) =>
        if ts[p + 2].kind != RBrace then Err(CLexer.CError("Expected '}'")) else Ok((x, p + 3))
  }

  /** The element type a list names: num, fl, bool or str. */
  function ListElementType(k: TokenKind): Option<SclType>
  {
    if k == NumKw then Some(SclNum)
    else if k == FlKw then Some(SclFl)
    else if k == BoolKw then Some(SclBool)
    else if k == StrKw then Some(SclStr)
    else None
  }

  /** The item a list of element type et builds from the literal t: an integer in an fl
      list becomes a float, and a str list takes only "..." strings, never '...'. */
  function ElementScalar(et: SclType, t: Token): (r: Option<Scalar>)
    ensures r.Some? ==> TypeOf(r.value) == et && t.kind != Eof
  {
    if et == SclNum && t.kind == NumberLit then Some(SNum(IntOf(t)))
    else if et == SclFl && (t.kind == FloatLit || t.kind == NumberLit) then
      Some(SFl(if t.kind == FloatLit then TextOf(t) else Decimal(IntOf(t))))
    else if et == SclBool && t.kind == BooleanLit then Some(SBool(BoolOf(t)))
    else if et == SclStr && t.kind == StringLit then Some(SStr(TextOf(t)))
    else None
  }

  /** The items of a list body from p up to its '}', after the items acc already read:
      literals separated by commas, a comma allowed before the '}'. */
  function ListItems(ts: seq<Token>, p: nat, et: SclType, acc: seq<Scalar>): (r: Result<(seq<Scalar>, nat)>)
    requires EndsWithEof(ts) && p < |ts|
    ensures r.Ok? ==> acc <= r.value.0 && p < r.value.1 < |ts| && ts[r.value.1 - 1].kind == RBrace
    ensures r.Ok? ==> forall k :: |acc| <= k < |r.value.0| ==> TypeOf(r.value.0[k]) == et
    decreases |ts| - p
  {
    if ts[p].kind == RBrace then Ok((acc, p + 1))
    else match ElementScalar(et, ts[p])
      case None => Err(CLexer.CError("List element type mismatch"))
      case Some(x) =>
        if ts[p + 1].kind == Comma then ListItems(ts, p + 2, et, acc + [x])
        else if ts[p + 1].kind != RBrace then Err(CLexer.CError("Expected comma or closing brace"))
        else ListItems(ts, p + 1, et, acc + [x])
  }

  /** The head `(type) {` of a list at p: the element type. */
  function ListHeadAt(ts: seq<Token>, p: nat): (r: Result<SclType>)
    requires EndsWithEof(ts) && p < |ts|
    ensures r.Ok? ==> p + 4 < |ts| && r.value != SclNull
  {
    if ts[p].kind != LParen then Err(CLexer.CError("Expected '('"))
    else match ListElementType(ts[p + 1].kind)
      case None => Err(CLexer.CError("Unsupported list element type"))
      case Some(et) =>
        if ts[p + 2].kind != RParen then Err(CLexer.CError("Expected ')'"))
        else if ts[p + 3].kind != LBrace then Err(CLexer.CError("Expected '{'"))
        else Ok(et)
  }

  /** `(type) { items }` at p: the element type, the items and the index after '}'. */
  function ListValueAt(ts: seq<Token>, p: nat): (r: Result<(SclType, seq<Scalar>, nat)>)
    requires EndsWithEof(ts) && p < |ts|
    ensures r.Ok? ==> p + 4 < r.value.2 < |ts| && forall x :: x in r.value.1 ==> TypeOf(x) == r.value.0
  {
    match ListHeadAt(ts, p)
    case Err(e) => Err(e)
    case Ok(et) =>
      match ListItems(ts, p + 4, et, [])
      case Err(e) => Err(e)
      case Ok(res) => Ok((et, res.0, res.1))
  }

  /** What parse_parameter_pair delivers: the key (NULL stands for ""), the value, and the
      index it leaves the parser at. */
  datatype Pair = Pair(key: Option<string>, val: SclValue?, next: nat)

  /** parse_parameter_pair, which the source does not define, as a function of the tokens
      and the index. */
  type PairReader = (seq<Token>, nat) -> Result<Pair>

  /** A parameter read successfully consumes at least one token and stops before the end
      of the array. */
  ghost predicate Advances(pair: PairReader)
  {
    forall ts: seq<Token>, p: nat {:trigger pair(ts, p)} ::
      EndsWithEof(ts) && p < |ts| && pair(ts, p).Ok? ==> p < pair(ts, p).value.next < |ts|
  }

  /** The key under which a pair is stored. */
  function KeyOf(pr: Pair): string { if pr.key.Some? then pr.key.value else "" }

  /** The entries of a class body from p up to its '}', after the entries acc. */
  function ClassEntries(ts: seq<Token>, p: nat, pair: PairReader, acc: seq<Entry>): (r: Result<(seq<Entry>, nat)>)
    requires EndsWithEof(ts) && p < |ts| && Advances(pair)
    ensures r.Ok? ==> acc <= r.value.0 && p < r.value.1 < |ts| && ts[r.value.1 - 1].kind == RBrace
    decreases |ts| - p
  {
    if ts[p].kind == RBrace then Ok((acc, p + 1))
    else match pair(ts, p)
      case Err(e) => Err(e)
      case Ok(pr) => ClassEntries(ts, pr.next, pair, acc + [Entry(KeyOf(pr), pr.val)])
  }

  /** `{ parameters }` at p: the entries and the index after '}'. */
  function ClassValueAt(ts: seq<Token>, p: nat, pair: PairReader): (r: Result<(seq<Entry>, nat)>)
    requires EndsWithEof(ts) && p < |ts| && Advances(pair)
    ensures r.Ok? ==> p + 1 < r.value.1 < |ts|
  {
    if ts[p].kind != LBrace then Err(CLexer.CError("Expected '{'"))
    else ClassEntries(ts, p + 1, pair, [])
  }

  /** The top level from p to the end: parameters, with newlines and comments between them
      skipped, every parameter becoming one entry after the entries acc. */
  function RootEntries(ts: seq<Token>, p: nat, pair: PairReader, acc: seq<Entry>): (r: Result<seq<Entry>>)
    requires EndsWithEof(ts) && p < |ts| && Advances(pair)
    ensures r.Ok? ==> acc <= r.value
    decreases |ts| - p
  {
    if ts[p].kind == Eof then Ok(acc)
    else if ts[p].kind == Newline || ts[p].kind == Comment then RootEntries(ts, p + 1, pair, acc)
    else match pair(ts, p)
      case Err(e) => Err(e)
      case Ok(pr) => RootEntries(ts, pr.next, pair, acc + [Entry(KeyOf(pr), pr.val)])
  }

  /** scl_loads on a text: the lexer's error, or the root entries of its tokens. */
  function LoadsText(text: string, pair: PairReader): Result<seq<Entry>>
    requires CLexer.IsCString(text) && Advances(pair)
  {
    match CLexer.CLex(text)
    case Err(e) => Err(e)
    case Ok(ts) =>
      CLexer.CLexShape(text);
      RootEntries(ts, 0, pair, [])
  }

  // ---------------------------------------------------------------------------------
  // Properties of the readers.
  // ---------------------------------------------------------------------------------

  /** A typed reader builds values of its own type only. */
  lemma SlotTypes(slot: Slot, t: Token)
    requires slot != DynamicSlot && SlotScalar(slot, t).Some?
    ensures TypeOf(SlotScalar(slot, t).value) == SlotType(slot)
  {
  }

  /** The dynamic reader takes exactly the literals some typed reader takes, and builds
      what the reader of the literal's own type builds. */
  lemma DynamicAgreesWithTyped(t: Token)
    ensures SlotScalar(DynamicSlot, t).Some? <==>
      exists slot :: slot != DynamicSlot && SlotScalar(slot, t).Some?
    ensures SlotScalar(DynamicSlot, t).Some? ==>
      var x := SlotScalar(DynamicSlot, t).value;
      x.SNum? || SlotScalar(if x.SBool? then BoolSlot else if x.SFl? then FlSlot else if x.SStr? then StrSlot else MlSlot, t) == Some(x)
    ensures SlotScalar(DynamicSlot, t).Some? && SlotScalar(DynamicSlot, t).value.SNum? ==>
      SlotScalar(NumSlot, t) == SlotScalar(DynamicSlot, t)
  {
    if SlotScalar(DynamicSlot, t).Some? {
      var slot := if t.kind == NumberLit then NumSlot else if t.kind == FloatLit then FlSlot
        else if t.kind == BooleanLit then BoolSlot else if t.kind == StringLit then StrSlot else MlSlot;
      assert SlotScalar(slot, t).Some?;
    }
  }

  /** A list item is read as the braced reader of the element type reads its literal. */
  lemma ElementLikeBraced(et: SclType, t: Token)
    requires ListElementType(NumKw) == Some(et) || ListElementType(FlKw) == Some(et) ||
             ListElementType(BoolKw) == Some(et) || ListElementType(StrKw) == Some(et)
    ensures ElementScalar(et, t) ==
      SlotScalar(if et == SclNum then NumSlot else if et == SclFl then FlSlot else if et == SclBool then BoolSlot else StrSlot, t)
  {
  }

  /** fl { 42 } reads the integer as the float 42. */
  lemma FlTakesInteger(ts: seq<Token>, p: nat)
    requires EndsWithEof(ts) && p + 2 < |ts|
    requires ts[p].kind == LBrace && ts[p + 1].kind == NumberLit && ts[p + 2].kind == RBrace
    ensures BracedAt(ts, p, FlSlot) == Ok((SFl(Decimal(IntOf(ts[p + 1]))), p + 3))
    ensures BracedAt(ts, p, NumSlot) == Ok((SNum(IntOf(ts[p + 1])), p + 3))
  {
  }

  /** The separator after an item: a comma before the '}' is accepted, and an item followed
      by neither a comma nor '}' is an error. */
  lemma {:induction false} ListSeparators(ts: seq<Token>, p: nat, et: SclType, acc: seq<Scalar>)
    requires EndsWithEof(ts) && p + 1 < |ts| && ElementScalar(et, ts[p]).Some?
    ensures ts[p + 1].kind == Comma && p + 2 < |ts| && ts[p + 2].kind == RBrace ==>
      ListItems(ts, p, et, acc) == Ok((acc + [ElementScalar(et, ts[p]).value], p + 3))
    ensures ts[p + 1].kind !in {Comma, RBrace} ==>
      ListItems(ts, p, et, acc) == Err(CLexer.CError("Expected comma or closing brace"))
  {
    var x := ElementScalar(et, ts[p]).value;
    if ts[p + 1].kind == Comma && p + 2 < |ts| && ts[p + 2].kind == RBrace {
      assert ListItems(ts, p + 2, et, acc + [x]) == Ok((acc + [x], p + 3));
    }
  }

  /** Only the top level skips line breaks: inside a list body a newline is an item of the
      wrong type, so a list written over several lines is refused. */
  lemma ListRefusesNewline(ts: seq<Token>, p: nat, et: SclType, acc: seq<Scalar>)
    requires EndsWithEof(ts) && p < |ts| && ts[p].kind == Newline
    ensures ListItems(ts, p, et, acc) == Err(CLexer.CError("List element type mismatch"))
  {
  }

  /** A top level of newlines and comments only adds no entry. */
  lemma {:induction false} TriviaOnlyRoot(ts: seq<Token>, p: nat, pair: PairReader, acc: seq<Entry>)
    requires EndsWithEof(ts) && p < |ts| && Advances(pair)
    requires forall q :: p <= q < |ts| - 1 ==> ts[q].kind == Newline || ts[q].kind == Comment
    ensures RootEntries(ts, p, pair, acc) == Ok(acc)
    decreases |ts| - p
  {
    if p < |ts| - 1 {
      TriviaOnlyRoot(ts, p + 1, pair, acc);
    }
  }

  /** Every parameter read at the top level adds one entry, a repeated key included: the
      root keeps every parameter, in source order. */
  lemma {:induction false} RootKeepsEveryPair(ts: seq<Token>, p: nat, pair: PairReader, acc: seq<Entry>)
    requires EndsWithEof(ts) && p < |ts| && Advances(pair)
    requires ts[p].kind !in {Eof, Newline, Comment} && pair(ts, p).Ok?
    ensures RootEntries(ts, p, pair, acc).Ok? ==>
      |RootEntries(ts, p, pair, acc).value| > |acc| &&
      RootEntries(ts, p, pair, acc).value[|acc|] == Entry(KeyOf(pair(ts, p).value), pair(ts, p).value.val)
  {
    var pr := pair(ts, p).value;
    var r := RootEntries(ts, pr.next, pair, acc + [Entry(KeyOf(pr), pr.val)]);
    assert RootEntries(ts, p, pair, acc) == r;
    if r.Ok? {
      assert (acc + [Entry(KeyOf(pr), pr.val)])[|acc|] == Entry(KeyOf(pr), pr.val);
    }
  }

  // ---------------------------------------------------------------------------------
  // The parser state and the readers.
  // ---------------------------------------------------------------------------------

  /** Build the scl_value_t of a scalar with the scl_make_* function of its kind. */
  method MakeScalar(x: Scalar) returns (v: SclValue)
    ensures fresh(v) && v.Valid() && IsScalarType(v.tag) && v.AsScalar() == x
  {
    match x
    case SBool(b) => v := MakeBool(b);
    case SNum(i) => v := MakeNum(i);
    case SFl(l) => v := MakeFl(l);
    case SStr(s) => v := MakeStr(Some(s));
    case SMl(s) => v := MakeMl(Some(s));
  }

  /** pstate: the token array, the cursor and the error message. The cursor never passes
      the final EOF, so the clamp in cur is never needed. */
  class PState {
    const toks: seq<Token>
    var pos: nat
    var err: Option<string>

    ghost predicate Valid()
      reads this
    {
      EndsWithEof(toks) && pos < |toks|
    }

    constructor (toks: seq<Token>)
      requires EndsWithEof(toks)
      ensures Valid() && this.toks == toks && pos == 0 && err == None
    {
      this.toks := toks;
      pos := 0;
      err := None;
    }

    /** cur: the token under the cursor. */
    function Cur(): (t: Token)
      reads this
      requires Valid()
      ensures t in toks
      ensures pos == |toks| - 1 ==> t.kind == Eof
    {
      toks[pos]
    }

    /** ps->pos++ past a token that is not the end. */
    method Next()
      requires Valid() && Cur().kind != Eof
      modifies this
      ensures Valid() && pos == old(pos) + 1 && err == old(err)
    {
      pos := pos + 1;
    }

    /** eat: step over a token of the kind, or record the message and stay. */
    method Eat(kind: TokenKind, msg: string) returns (t: Option<Token>)
      requires Valid() && kind != Eof
      modifies this
      ensures Valid()
      ensures old(Cur()).kind == kind ==> t == Some(old(Cur())) && pos == old(pos) + 1 && err == old(err)
      ensures old(Cur()).kind != kind ==> t == None && pos == old(pos) && err == Some(msg)
    {
      var c := Cur();
      if c.kind != kind {
        err := Some(msg);
        return None;
      }
      pos := pos + 1;
      return Some(c);
    }

    /** The token walk of parse_bool_value, parse_str_value, parse_num_value, parse_fl_value,
        parse_ml_value and parse_value_dynamic: '{', the literal, '}'. */
    method ReadBraced(slot: Slot) returns (x: Option<Scalar>)
      requires Valid()
      modifies this
      ensures Valid()
      ensures var r := BracedAt(toks, old(pos), slot);
        (r.Ok? ==> x == Some(r.value.0) && pos == r.value.1 && err == old(err)) &&
        (r.Err? ==> x == None && err == Some(r.error.msg))
    {
      ghost var start := pos;
      var open := Eat(LBrace, "Expected '{'");
      if open.None? {
        assert BracedAt(toks, start, slot) == Err(CLexer.CError("Expected '{'"));
        return None;
      }
      var t := Cur();
      assert t == toks[pos];
      x := SlotScalar(slot, t);
      if x.None? {
        assert BracedAt(toks, start, slot) == Err(CLexer.CError(SlotMessage(slot)));
        err := Some(SlotMessage(slot));
        return None;
      }
      Next();
      var close := Eat(RBrace, "Expected '}'");
      if close.None? {
        assert BracedAt(toks, start, slot) == Err(CLexer.CError("Expected '}'"));
        return None;
      }
      assert BracedAt(toks, start, slot) == Ok((x.value, pos));
    }

    /** parse_bool_value, parse_str_value, parse_num_value, parse_fl_value, parse_ml_value
        and parse_value_dynamic: a fresh scalar value, or NULL with the error recorded. */
    method ParseBraced(slot: Slot) returns (v: SclValue?)
      requires Valid()
      modifies this
      ensures Valid()
      ensures var r := BracedAt(toks, old(pos), slot);
        (r.Ok? ==> v != null && fresh(v) && v.Valid() && IsScalarType(v.tag) && v.AsScalar() == r.value.0 &&
                   pos == r.value.1 && err == old(err)) &&
        (r.Err? ==> v == null && err == Some(r.error.msg))
    {
      var x := ReadBraced(slot);
      if x.None? {
        return null;
      }
      v := MakeScalar(x.value);
    }

    /** The head of parse_value_list: '(' and a type keyword, ')' and '{'. */
    method ParseListHead() returns (et: Option<SclType>)
      requires Valid()
      modifies this
      ensures Valid()
      ensures var r := ListHeadAt(toks, old(pos));
        (r.Ok? ==> et == Some(r.value) && pos == old(pos) + 4 && err == old(err)) &&
        (r.Err? ==> et == None && err == Some(r.error.msg))
    {
      var open := Eat(LParen, "Expected '('");
      if open.None? {
        return None;
      }
      et := ListElementType(Cur().kind);
      if et.None? {
        err := Some("Unsupported list element type");
        return None;
      }
      Next();
      var rparen := Eat(RParen, "Expected ')'");
      if rparen.None? {
        return None;
      }
      var lbrace := Eat(LBrace, "Expected '{'");
      if lbrace.None? {
        return None;
      }
    }

    /** parse_value_list: a fresh list whose items all have its element type, or NULL with
        the error recorded. */
    method ParseValueList() returns (v: SclValue?)
      requires Valid()
      modifies this
      ensures Valid()
      ensures var r := ListValueAt(toks, old(pos));
        (r.Ok? ==> v != null && fresh(v) && v.Valid() && v.tag == SclList && v.elementType == r.value.0 &&
                   v.Items() == r.value.1 && v.Homogeneous() && pos == r.value.2 && err == old(err)) &&
        (r.Err? ==> v == null && err == Some(r.error.msg))
    {
      var et := ParseListHead();
      if et.None? {
        return null;
      }
      v := ParseListRest(et.value);
    }

    /** The body of parse_value_list after its head: a fresh list of element type et that
        holds the items up to '}', or NULL with the error recorded. */
    method ParseListRest(et: SclType) returns (v: SclValue?)
      requires Valid() && et != SclNull
      modifies this
      ensures Valid()
      ensures var r := ListItems(toks, old(pos), et, []);
        (r.Ok? ==> v != null && fresh(v) && v.Valid() && v.tag == SclList && v.elementType == et &&
                   v.Items() == r.value.0 && v.Homogeneous() && pos == r.value.1 && err == old(err)) &&
        (r.Err? ==> v == null && err == Some(r.error.msg))
    {
      ghost var body := ListItems(toks, pos, et, []);
      var list := MakeList(et);
      assert list.Items() == [];
      var ok := ParseListBody(list, et, body);
      v := if ok then list else null;
    }

    /** The loop of parse_value_list: items pushed onto the list up to the closing '}',
        which is consumed. */
    method ParseListBody(list: SclValue, et: SclType, ghost body: Result<(seq<Scalar>, nat)>) returns (ok: bool)
      requires Valid() && et != SclNull
      requires list.Valid() && list.tag == SclList && list.elementType == et && list.Homogeneous()
      requires body == ListItems(toks, pos, et, list.Items())
      modifies this, list, list.items
      ensures Valid() && list.Valid() && list.tag == SclList && list.elementType == et && list.Homogeneous()
      ensures ok <==> body.Ok?
      ensures ok ==> list.Items() == body.value.0 && pos == body.value.1 && err == old(err)
      ensures !ok ==> err == Some(body.error.msg)
    {
      while Cur().kind != RBrace
        invariant Valid() && err == old(err)
        invariant list.Valid() && list.tag == SclList && list.elementType == et && list.Homogeneous()
        invariant list.items == old(list.items) || fresh(list.items)
        invariant ListItems(toks, pos, et, list.Items()) == body
        decreases |toks| - pos
      {
        ok := ParseListItem(list, et);
        if !ok {
          return false;
        }
      }
      // the loop stopped at '}', so this eat succeeds
      var close := Eat(RBrace, "Expected '}'");
      return true;
    }

    /** One pass of the loop of parse_value_list: an item of the element type, pushed onto
        the list, and the comma or '}' after it. */
    method ParseListItem(list: SclValue, et: SclType) returns (ok: bool)
      requires Valid() && Cur().kind != RBrace && et != SclNull
      requires list.Valid() && list.tag == SclList && list.elementType == et && list.Homogeneous()
      modifies this, list, list.items
      ensures Valid() && list.Valid() && list.tag == SclList && list.elementType == et && list.Homogeneous()
      ensures list.items == old(list.items) || fresh(list.items)
      ensures var r := ListItems(toks, old(pos), et, old(list.Items()));
        (ok ==> pos > old(pos) && err == old(err) && ListItems(toks, pos, et, list.Items()) == r) &&
        (!ok ==> r.Err? && err == Some(r.error.msg))
    {
      ghost var start, acc := pos, list.Items();
      var t := Cur();
      assert t == toks[pos];
      var x := ElementScalar(et, t);
      if x.None? {
        assert ListItems(toks, start, et, acc) == Err(CLexer.CError("List element type mismatch"));
        err := Some("List element type mismatch");
        return false;
      }
      Next();
      var ev := MakeScalar(x.value);
      // an item of the list's own element type is always accepted
      var rc := ListPush(list, ev);
      assert list.Items() == acc + [x.value];
      var sep := Cur();
      assert sep == toks[start + 1];
      if sep.kind == Comma {
        Next();
        assert ListItems(toks, start, et, acc) == ListItems(toks, pos, et, acc + [x.value]);
      } else if sep.kind != RBrace {
        assert ListItems(toks, start, et, acc) == Err(CLexer.CError("Expected comma or closing brace"));
        err := Some("Expected comma or closing brace");
        return false;
      } else {
        assert ListItems(toks, start, et, acc) == ListItems(toks, pos, et, acc + [x.value]);
      }
      return true;
    }

    /** The call of parse_parameter_pair: the pair read at the cursor, the cursor left
        after it; an error is recorded. */
    method ReadPair(pair: PairReader) returns (r: Result<Pair>)
      requires Valid() && Advances(pair)
      modifies this
      ensures Valid() && r == pair(toks, old(pos))
      ensures r.Ok? ==> pos == r.value.next && err == old(err)
      ensures r.Err? ==> err == Some(r.error.msg)
    {
      r := pair(toks, pos);
      if r.Err? {
        err := Some(r.error.msg);
      } else {
        pos := r.value.next;
      }
    }

    /** parse_value_class: a fresh class holding the parameters of the body in order, or
        NULL with the error recorded. */
    method ParseValueClass(pair: PairReader) returns (v: SclValue?)
      requires Valid() && Advances(pair)
      modifies this
      ensures Valid()
      ensures var r := ClassValueAt(toks, old(pos), pair);
        (r.Ok? ==> v != null && fresh(v) && v.Valid() && v.tag == SclClass && v.Entries() == r.value.0 &&
                   pos == r.value.1 && err == old(err)) &&
        (r.Err? ==> v == null && err == Some(r.error.msg))
    {
      ghost var start := pos;
      var open := Eat(LBrace, "Expected '{'");
      if open.None? {
        return null;
      }
      var obj := MakeClass();
      while Cur().kind != RBrace
        invariant Valid() && err == old(err)
        invariant fresh(obj) && fresh(obj.entries) && obj.Valid() && obj.tag == SclClass
        invariant ClassEntries(toks, pos, pair, obj.Entries()) == ClassEntries(toks, start + 1, pair, [])
        decreases |toks| - pos
      {
        var pr := ReadPair(pair);
        if pr.Err? {
          return null;
        }
        // the object is a class, so the put succeeds
        var rc := ClassPut(obj, KeyOf(pr.value), pr.value.val);
      }
      // the loop stopped at '}', so this eat succeeds
      var close := Eat(RBrace, "Expected '}'");
      v := obj;
    }

    /** parse_root: a fresh class holding every top-level parameter in order, or NULL with
        the error recorded. */
    method ParseRoot(pair: PairReader) returns (v: SclValue?)
      requires Valid() && Advances(pair)
      modifies this
      ensures Valid()
      ensures var r := RootEntries(toks, old(pos), pair, []);
        (r.Ok? ==> v != null && fresh(v) && v.Valid() && v.tag == SclClass && v.Entries() == r.value &&
                   Cur().kind == Eof && err == old(err)) &&
        (r.Err? ==> v == null && err == Some(r.error.msg))
    {
      ghost var start := pos;
      var root := MakeClass();
      while Cur().kind != Eof
        invariant Valid() && err == old(err)
        invariant fresh(root) && fresh(root.entries) && root.Valid() && root.tag == SclClass
        invariant RootEntries(toks, pos, pair, root.Entries()) == RootEntries(toks, start, pair, [])
        decreases |toks| - pos
      {
        if Cur().kind == Newline || Cur().kind == Comment {
          Next();
        } else {
          var pr := ReadPair(pair);
          if pr.Err? {
            return null;
          }
          // the root is a class, so the put succeeds
          var rc := ClassPut(root, KeyOf(pr.value), pr.value.val);
        }
      }
      v := root;
    }
  }

  /** scl_loads: -1 for a NULL text or a NULL out_value; otherwise the lexer's error, the
      parser's error, or 0 with the root class. */
  method Loads(text: Option<string>, hasOut: bool, pair: PairReader) returns (rc: int, value: SclValue?, error: Option<string>)
    requires text.Some? ==> CLexer.IsCString(text.value)
    requires Advances(pair)
    ensures text.None? || !hasOut ==> rc == -1 && value == null && error == None
    ensures text.Some? && hasOut ==> var r := LoadsText(text.value, pair);
      (rc == 0 <==> r.Ok?) && (rc == 0 || rc == -1) &&
      (r.Ok? ==> value != null && fresh(value) && value.Valid() && value.tag == SclClass &&
                 value.Entries() == r.value && error == None) &&
      (r.Err? ==> value == null && error == Some(r.error.msg))
  {
    if text.None? || !hasOut {
      return -1, null, None;
    }
    var tokens := CLexer.LexAll(text.value);
    if tokens.Err? {
      return -1, null, Some(tokens.error.msg);
    }
    CLexer.CLexShape(text.value);
    var ps := new PState(tokens.value);
    value := ps.ParseRoot(pair);
    if value == null {
      return -1, null, Some(if ps.err.Some? then ps.err.value else "Parse error");
    }
    return 0, value, None;
  }

  // ---------------------------------------------------------------------------------
  // The string builder and scl_dumps.
  // ---------------------------------------------------------------------------------

  /** The capacity c doubled until need fits. */
  function DoubleUntil(c: nat, need: nat): (n: nat)
    requires c > 0
    ensures n >= need && n >= c
    ensures n == c || n < 2 * need
    decreases need - c
  {
    if c >= need then c else DoubleUntil(2 * c, need)
  }

  /** The capacity sb_append grows a full buffer to: 256 the first time, otherwise twice
      the old one, doubled until need fits. */
  function GrownBufferCap(cap: nat, need: nat): (n: nat)
    ensures n >= need && n > cap
    ensures n == (if cap == 0 then 256 else 2 * cap) || n < 2 * need
  {
    DoubleUntil(if cap == 0 then 256 else 2 * cap, need)
  }

  /** The buffer, length and capacity that sb_append works on. An empty buffer is the NULL
      of scl_dumps; otherwise the text is NUL-terminated. */
  class StringBuilder {
    var buf: array<char>
    var len: nat
    var cap: nat

    ghost predicate Valid()
      reads this, buf
    {
      buf.Length == cap && (cap == 0 ==> len == 0) && (cap > 0 ==> len < cap && buf[len] == '\0')
    }

    function Contents(): string
      reads this, buf
      requires Valid()
    {
      buf[..len]
    }

    constructor ()
      ensures Valid() && Contents() == "" && cap == 0 && fresh(buf)
    {
      buf := new char[0];
      len := 0;
      cap := 0;
    }

    /** sb_append: add s (the characters before its NUL), growing the buffer first when
        s and the NUL do not fit; grown is whether realloc succeeded, and when it fails
        nothing changes. */
    method Append(s: string, grown: bool)
      requires Valid()
      modifies this, buf
      ensures Valid() && (buf == old(buf) || fresh(buf))
      ensures old(len) + |s| + 1 <= old(cap) ==>
        Contents() == old(Contents()) + s && cap == old(cap) && buf == old(buf)
      ensures old(len) + |s| + 1 > old(cap) && grown ==>
        Contents() == old(Contents()) + s && cap == GrownBufferCap(old(cap), old(len) + |s| + 1) && fresh(buf)
      ensures old(len) + |s| + 1 > old(cap) && !grown ==>
        Contents() == old(Contents()) && len == old(len) && cap == old(cap) && buf == old(buf)
    {
      var need := len + |s| + 1;
      if need > cap {
        var ncap := if cap == 0 then 256 else cap * 2;
        while ncap < need
          invariant ncap > 0 && DoubleUntil(ncap, need) == GrownBufferCap(cap, need)
          decreases need - ncap
        {
          ncap := ncap * 2;
        }
        if !grown {
          return;
        }
        var nb := new char[ncap];
        forall k | 0 <= k < len {
          nb[k] := buf[k];
        }
        buf := nb;
        cap := ncap;
      }
      forall k | 0 <= k < |s| {
        buf[len + k] := s[k];
      }
      buf[len + |s|] := '\0';
      len := len + |s|;
    }
  }

  /** dumps_value_line, whose body the source elides, as a function of the key, the value,
      the indent width and the level: the text of one line. */
  type LineWriter = (string, SclValue?, int, int) -> string

  /** The lines of a class's entries at a level. */
  function EntryLines(es: seq<Entry>, width: int, level: int, write: LineWriter): seq<string>
  {
    seq(|es|, k requires 0 <= k < |es| => write(es[k].key, es[k].value, width, level))
  }

  /** The indent width: 4 when the indent given is not positive. */
  function Width(indent: int): int { if indent <= 0 then 4 else indent }

  /** scl_dumps: a class is its entries' lines joined by newlines, any other value is one
      line named "root"; a newline ends the text. */
  function DumpsText(isClass: bool, es: seq<Entry>, value: SclValue?, indent: int, write: LineWriter): string
  {
    if isClass then Join(EntryLines(es, Width(indent), 0, write), "\n") + "\n"
    else write("root", value, Width(indent), 0) + "\n"
  }

  /** Joining one more part adds the separator (unless it is the first part) and the part. */
  lemma JoinStep(parts: seq<string>, i: nat, sep: string)
    requires i < |parts|
    ensures Join(parts[..i + 1], sep) == Join(parts[..i], sep) + (if i > 0 then sep else "") + parts[i]
  {
    assert parts[..i + 1] == parts[..i] + [parts[i]];
    if i > 0 {
      JoinSnoc(parts[..i], parts[i], sep);
    } else {
      assert parts[..i + 1] == [parts[i]];
    }
  }

  /** dumps_inner: the lines of a class's entries, separated by newlines, appended to the
      buffer; any other value appends nothing. */
  method DumpsInner(value: SclValue, width: int, level: int, sb: StringBuilder, write: LineWriter)
    requires value.Valid() && sb.Valid()
    modifies sb, sb.buf
    ensures sb.Valid() && (sb.buf == old(sb.buf) || fresh(sb.buf))
    ensures sb.Contents() == old(sb.Contents()) +
      (if value.tag == SclClass then Join(EntryLines(value.Entries(), width, level, write), "\n") else "")
  {
    if value.tag != SclClass {
      return;
    }
    ghost var start := sb.Contents();
    ghost var lines := EntryLines(value.Entries(), width, level, write);
    var i := 0;
    while i < value.objLen
      invariant 0 <= i <= value.objLen && sb.Valid() && (sb.buf == old(sb.buf) || fresh(sb.buf))
      invariant sb.Contents() == start + Join(lines[..i], "\n") + (if 0 < i < value.objLen then "\n" else "")
    {
      var e := value.entries[i];
      var line := write(e.key, e.value, width, level);
      ghost var before := sb.Contents();
      assert before == start + Join(lines[..i], "\n") + (if i > 0 then "\n" else "");
      sb.Append(line, true);
      assert sb.Contents() == before + line;
      assert line == lines[i];
      JoinStep(lines, i, "\n");
      ghost var joined := sb.Contents();
      assert joined == start + (Join(lines[..i], "\n") + (if i > 0 then "\n" else "") + lines[i]);
      if i + 1 < value.objLen {
        sb.Append("\n", true);
        assert sb.Contents() == joined + "\n";
      }
      assert sb.Contents() == start + Join(lines[..i + 1], "\n") + (if i + 1 < value.objLen then "\n" else "");
      i := i + 1;
    }
    assert lines[..i] == lines;
  }

  /** scl_dumps: the text of a value at the indent width (4 when the indent is not
      positive); realloc is taken to succeed. */
  method Dumps(value: SclValue, indent: int, write: LineWriter) returns (out: string)
    requires value.Valid()
    ensures out == DumpsText(value.tag == SclClass, value.Entries(), value, indent, write)
  {
    var sb := new StringBuilder();
    var width := if indent <= 0 then 4 else indent;
    if value.tag == SclClass {
      DumpsInner(value, width, 0, sb, write);
      sb.Append("\n", true);
    } else {
      sb.Append(write("root", value, width, 0), true);
      sb.Append("\n", true);
    }
    out := sb.Contents();
  }

  /** The text scl_dumps returns always ends with a newline. */
  lemma DumpsEndsWithNewline(isClass: bool, es: seq<Entry>, value: SclValue?, indent: int, write: LineWriter)
    ensures var out := DumpsText(isClass, es, value, indent, write); |out| > 0 && out[|out| - 1] == '\n'
  {
  }

  /** An indent that is not positive writes as an indent of 4. */
  lemma DumpsDefaultIndent(isClass: bool, es: seq<Entry>, value: SclValue?, indent: int, write: LineWriter)
    requires indent <= 0
    ensures DumpsText(isClass, es, value, indent, write) == DumpsText(isClass, es, value, 4, write)
  {
  }

  /** An empty class is written as a single newline, and a class of one entry as its line
      and a newline. */
  lemma DumpsSmallClasses(e: Entry, value: SclValue?, indent: int, write: LineWriter)
    ensures DumpsText(true, [], value, indent, write) == "\n"
    ensures DumpsText(true, [e], value, indent, write) == write(e.key, e.value, Width(indent), 0) + "\n"
  {
  }
}
