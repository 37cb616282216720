/** The recursive-descent parser object of the reference library, the Python port and the
    Ruby port (and the parameter parser the Go port shares): a filtered token list and a
    cursor that eat advances. Each method is proved to do what the grammar function of the
    same name says, leaving the cursor where that function's result ends. */
module ParserCore {
  import opened Wrappers
  import opened Text
  import opened Tokens
  import opened Values
  import opened Grammar
  import opened LibDocument
  import opened CommentGrammar

  /** The tokens a parser keeps: the comment-preserving parser drops newlines only, the
      others drop newlines and comments. */
  function Filtered(d: Dialect, ts: seq<Token>): seq<Token>
  {
    if d == LibComments then WithoutNewlines(ts) else Significant(ts)
  }

  /** A method's outcome r, with the cursor at pos, is what the grammar's s says. */
  predicate Agrees<T(==)>(r: Result<T>, s: Result<Parsed<T>>, pos: nat)
  {
    match s
    case Ok(e) => r == Ok(e.val) && pos == e.next
    case Err(e) => r == Err(e)
  }

  class Parser {
    const dialect: Dialect
    const tokens: seq<Token>
    var pos: nat

    /** The cursor stays on a token of a stream that ends with EOF: nothing eats EOF. */
    ghost predicate Valid()
      reads this
    {
      EndsWithEof(tokens) && pos < |tokens|
    }

    constructor (dialect: Dialect, input: seq<Token>)
      requires EndsWithEof(input)
      ensures Valid() && this.dialect == dialect && tokens == Filtered(dialect, input) && pos == 0
    {
      var kept: seq<Token> := [];
      var i := 0;
      while i < |input|
        invariant 0 <= i <= |input|
        invariant kept == Filtered(dialect, input[..i])
      {
        var t := input[i];
        assert input[..i + 1][..i] == input[..i];
        if t.kind != Newline && (dialect == LibComments || t.kind != Comment) {
          kept := kept + [t];
        }
        i := i + 1;
      }
      assert input[..|input|] == input;
      this.dialect := dialect;
      this.tokens := kept;
      pos := 0;
    }

    /** currentToken(): past the end it would be the last token, which is EOF. */
    function CurrentToken(): (t: Token)
      reads this
      requires EndsWithEof(tokens)
      ensures t in tokens
      ensures pos >= |tokens| - 1 ==> t.kind == Eof
    {
      if pos < |tokens| then tokens[pos] else tokens[|tokens| - 1]
    }

    /** error(msg): the syntax error at the current token. */
    function Error<T>(msg: string): (r: Result<T>)
      reads this
      requires Valid()
      ensures r == Err(SyntaxError(msg, CurrentToken().line, CurrentToken().col))
    {
      Fail(tokens, pos, msg)
    }

    /** eat(k): on a match the cursor moves by exactly one; otherwise the error carries
        the current token's position and the cursor stays. */
    method Eat(k: TokenKind) returns (r: Result<Token>)
      requires Valid() && k != Eof
      modifies this
      ensures Valid() && Agrees(r, Grammar.Eat(tokens, old(pos), k), pos)
      ensures r.Err? ==> pos == old(pos)
    {
      var token := CurrentToken();
      if token.kind != k {
        return Error("Expected " + KindName(k) + ", got " + KindName(token.kind));
      }
      pos := pos + 1;
      return Ok(token);
    }

    /** parse(): parameters until EOF; a repeated name replaces the earlier value in place. */
    method Parse() returns (r: Result<seq<(string, Value)>>)
      requires Valid()
      modifies this
      ensures Valid() && r == Config(dialect, tokens, old(pos), [])
    {
      ghost var start := pos;
      var config: seq<(string, Value)> := [];
      while CurrentToken().kind != Eof
        invariant Valid() && DistinctKeys(config) && AllWellFormed(config)
        invariant Config(dialect, tokens, pos, config) == Config(dialect, tokens, start, [])
        decreases |tokens| - pos
      {
        var e := ParseParameter();
        if e.Err? {
          return Err(e.error);
        }
        PutKeepsWellFormed(config, e.value.0, e.value.1);
        config := Put(config, e.value.0, e.value.1);
      }
      return Ok(config);
    }

    /** The Ruby port's parse_config: the same loop written as recursion over an
        accumulator that Hash#merge extends. */
    method ParseConfig(acc: seq<(string, Value)>) returns (r: Result<seq<(string, Value)>>)
      requires Valid() && DistinctKeys(acc) && AllWellFormed(acc)
      modifies this
      ensures Valid() && r == Config(dialect, tokens, old(pos), acc)
      ensures r.Ok? ==> tokens[pos].kind == Eof
      decreases |tokens| - pos
    {
      if CurrentToken().kind == Eof {
        return Ok(acc);
      }
      var e := ParseParameter();
      if e.Err? {
        return Err(e.error);
      }
      PutKeepsWellFormed(acc, e.value.0, e.value.1);
      r := ParseConfig(Put(acc, e.value.0, e.value.1));
    }

    /** parseParameter(): a name, `::`, a type keyword and the value it demands. */
    method ParseParameter() returns (r: Result<(string, Value)>)
      requires Valid()
      modifies this
      ensures Valid() && Agrees(r, Param(dialect, tokens, old(pos)), pos)
      decreases |tokens| - pos, 1
    {
      var name := ParseKey();
      if name.Err? {
        return Err(name.error);
      }
      var dc := Eat(DoubleColon);
      if dc.Err? {
        return Err(dc.error);
      }
      var value := ParseTypedValue();
      if value.Err? {
        return Err(value.error);
      }
      return Ok((name.value, value.value));
    }

    /** The parameter name: an identifier, a type keyword used as a name, a number (its
        decimal text) or a quoted string. */
    method ParseKey() returns (r: Result<string>)
      requires Valid()
      modifies this
      ensures Valid() && Agrees(r, Key(tokens, old(pos)), pos)
    {
      var nameToken := CurrentToken();
      if nameToken.kind == Identifier || IsTypeKeyword(nameToken.kind) || nameToken.kind == StringLit {
        pos := pos + 1;
        return Ok(TextOf(nameToken));
      } else if nameToken.kind == NumberLit {
        pos := pos + 1;
        return Ok(Decimal(IntOf(nameToken)));
      }
      return Error("Expected identifier or keyword, got " + KindName(nameToken.kind));
    }

    /** The type keyword and the value parser it selects. */
    method ParseTypedValue() returns (r: Result<Value>)
      requires Valid()
      modifies this
      ensures Valid() && Agrees(r, TypedValue(dialect, tokens, old(pos)), pos)
      decreases |tokens| - pos, 0
    {
      var typeToken := CurrentToken();
      var tag := typeToken.kind;
      ghost var q := pos;
      if tag !in {BoolKw, StrKw, NumKw, FlKw, MlKw, ClassKw, ListKw, DynamicKw} {
        return Error("Unknown type: " + TextOf(typeToken));
      }
      pos := pos + 1;
      if tag == BoolKw {
        assert TypedValue(dialect, tokens, q) == BoolValue(tokens, pos);
        r := ParseBoolValue();
      } else if tag == StrKw {
        assert TypedValue(dialect, tokens, q) == StrValue(dialect, tokens, pos);
        r := ParseStrValue();
      } else if tag == NumKw {
        assert TypedValue(dialect, tokens, q) == NumValue(tokens, pos);
        r := ParseNumValue();
      } else if tag == FlKw {
        assert TypedValue(dialect, tokens, q) == FlValue(tokens, pos);
        r := ParseFlValue();
      } else if tag == MlKw {
        assert TypedValue(dialect, tokens, q) == MlValue(dialect, tokens, pos);
        r := ParseMlValue();
      } else if tag == ClassKw {
        assert TypedValue(dialect, tokens, q) == Class(dialect, tokens, pos);
        r := ParseClassValue();
      } else if tag == ListKw {
        assert TypedValue(dialect, tokens, q) == ListValue(dialect, tokens, pos);
        r := ParseListValue();
      } else {
        assert TypedValue(dialect, tokens, q) == DynamicValue(dialect, tokens, pos);
        r := ParseDynamicValue();
      }
    }

    /** `{` literal `}` where the slot accepts the literal's kind. */
    method ParseBraced(slot: Slot, msg: string, got: bool) returns (r: Result<Token>)
      requires Valid()
      modifies this
      ensures Valid() && Agrees(r, BracedLiteral(tokens, old(pos), slot, msg, got), pos)
    {
      var lb := Eat(LBrace);
      if lb.Err? {
        return Err(lb.error);
      }
      var tok := CurrentToken();
      if !Accepts(slot, tok.kind) {
        return Error(if got then msg + ", got " + KindName(tok.kind) else msg);
      }
      pos := pos + 1;
      var rb := Eat(RBrace);
      if rb.Err? {
        return Err(rb.error);
      }
      return Ok(tok);
    }

    method ParseBoolValue() returns (r: Result<Value>)
      requires Valid()
      modifies this
      ensures Valid() && Agrees(r, BoolValue(tokens, old(pos)), pos)
    {
      var t := ParseBraced(BoolSlot, "Expected BOOLEAN", true);
      if t.Err? {
        return Err(t.error);
      }
      return Ok(Bool(BoolOf(t.value)));
    }

    method ParseNumValue() returns (r: Result<Value>)
      requires Valid()
      modifies this
      ensures Valid() && Agrees(r, NumValue(tokens, old(pos)), pos)
    {
      var t := ParseBraced(NumSlot, "Expected NUMBER", true);
      if t.Err? {
        return Err(t.error);
      }
      return Ok(Int(IntOf(t.value)));
    }

    method ParseStrValue() returns (r: Result<Value>)
      requires Valid()
      modifies this
      ensures Valid() && Agrees(r, StrValue(dialect, tokens, old(pos)), pos)
    {
      var t := ParseBraced(StrSlot(dialect), "Expected string value", true);
      if t.Err? {
        return Err(t.error);
      }
      return Ok(Str(TextOf(t.value)));
    }

    method ParseMlValue() returns (r: Result<Value>)
      requires Valid()
      modifies this
      ensures Valid() && Agrees(r, MlValue(dialect, tokens, old(pos)), pos)
    {
      var t := ParseBraced(MlSlot(dialect), "Expected multiline string value", true);
      if t.Err? {
        return Err(t.error);
      }
      return Ok(Str(TextOf(t.value)));
    }

    /** A NUMBER in an `fl` slot becomes a float: a new value, not the token rewritten. */
    method ParseFlValue() returns (r: Result<Value>)
      requires Valid()
      modifies this
      ensures Valid() && Agrees(r, FlValue(tokens, old(pos)), pos)
    {
      var t := ParseBraced(FlSlot, "Expected float or number", false);
      if t.Err? {
        return Err(t.error);
      }
      if t.value.kind == FloatLit {
        return Ok(Float(TextOf(t.value)));
      }
      return Ok(Float(Decimal(IntOf(t.value))));
    }

    method ParseDynamicValueDirect() returns (r: Result<Value>)
      requires Valid()
      modifies this
      ensures Valid() && Agrees(r, DynamicDirect(dialect, tokens, old(pos)), pos)
    {
      var tok := CurrentToken();
      if !DynamicLiteral(dialect, tok.kind) {
        return Error("dynamic supports only base types (bool, str, num, fl, ml)");
      }
      pos := pos + 1;
      return Ok(LiteralValue(tok));
    }

    method ParseDynamicValue() returns (r: Result<Value>)
      requires Valid()
      modifies this
      ensures Valid() && Agrees(r, DynamicValue(dialect, tokens, old(pos)), pos)
    {
      var lb := Eat(LBrace);
      if lb.Err? {
        return Err(lb.error);
      }
      var v := ParseDynamicValueDirect();
      if v.Err? {
        return Err(v.error);
      }
      var rb := Eat(RBrace);
      if rb.Err? {
        return Err(rb.error);
      }
      return v;
    }

    /** parseClassValue(): `{`, parameters until `}`, `}`. */
    method ParseClassValue() returns (r: Result<Value>)
      requires Valid()
      modifies this
      ensures Valid() && Agrees(r, Class(dialect, tokens, old(pos)), pos)
      decreases |tokens| - pos, 0
    {
      var lb := Eat(LBrace);
      if lb.Err? {
        return Err(lb.error);
      }
      ghost var start := pos;
      var obj: seq<(string, Value)> := [];
      while CurrentToken().kind != RBrace
        invariant Valid() && start <= pos
        invariant DistinctKeys(obj) && AllWellFormed(obj)
        invariant ClassBody(dialect, tokens, pos, obj) == ClassBody(dialect, tokens, start, [])
        decreases |tokens| - pos
      {
        if dialect == LibComments && CurrentToken().kind == Comment {
          pos := pos + 1;
          continue;
        }
        var e := ParseParameter();
        if e.Err? {
          return Err(e.error);
        }
        PutKeepsWellFormed(obj, e.value.0, e.value.1);
        obj := Put(obj, e.value.0, e.value.1);
      }
      var _ := Eat(RBrace);
      return Ok(Object(obj));
    }

    /** _eatOpenBracket(): `(`, or in the reference library `[`. */
    method EatOpenBracket() returns (r: Result<TokenKind>)
      requires Valid()
      modifies this
      ensures Valid()
      ensures r.Ok? <==> tokens[old(pos)].kind == LParen || (IsLib(dialect) && tokens[old(pos)].kind == LBracket)
      ensures r.Ok? ==> r.value == tokens[old(pos)].kind && pos == old(pos) + 1
      ensures r.Err? ==> r == TypeClause(dialect, tokens, old(pos)).PropagateFailure()
    {
      var tok := CurrentToken();
      if tok.kind == LParen || (IsLib(dialect) && tok.kind == LBracket) {
        var _ := Eat(tok.kind);
        return Ok(tok.kind);
      }
      if IsLib(dialect) {
        return Error("Expected '(' or '[', got " + KindName(tok.kind));
      }
      return Error("Expected (, got " + KindName(tok.kind));
    }

    /** _eatCloseBracket(openedWith): the bracket that matches the opener. */
    method EatCloseBracket(openedWith: TokenKind) returns (r: Result<Token>)
      requires Valid()
      modifies this
      ensures Valid() && Agrees(r, Grammar.Eat(tokens, old(pos), Closer(openedWith)), pos)
    {
      if openedWith == LParen {
        r := Eat(RParen);
      } else {
        r := Eat(RBracket);
      }
    }

    /** _parseListElementType(): which element parser the list uses. */
    method ParseListElementType() returns (r: Result<ElemKind>)
      requires Valid()
      modifies this
      ensures Valid() && Agrees(r, ElemType(dialect, tokens, old(pos)), pos)
      decreases |tokens| - pos
    {
      var elementType := CurrentToken();
      var k := elementType.kind;
      if k == NumKw || k == FlKw || k == BoolKw || k == StrKw || (IsLib(dialect) && (k == MlKw || k == ClassKw || k == DynamicKw)) {
        var _ := Eat(k);
        var e := if k == NumKw then ENum else if k == FlKw then EFl else if k == BoolKw then EBool
          else if k == StrKw then EStr else if k == MlKw then EMl else if k == ClassKw then EClass else EDynamic;
        return Ok(e);
      }
      if IsLib(dialect) && k == ListKw {
        var _ := Eat(ListKw);
        ghost var clause := pos;
        var opener := EatOpenBracket();
        if opener.Err? {
          return Err(opener.error);
        }
        var inner := ParseListElementType();
        if inner.Err? {
          return Err(inner.error);
        }
        var closed := EatCloseBracket(opener.value);
        if closed.Err? {
          return Err(closed.error);
        }
        assert TypeClause(dialect, tokens, clause).Ok?;
        return Ok(EList(inner.value));
      }
      return Error("Unsupported list element type: " + TextOf(elementType));
    }

    /** parseListValue(): the bracketed element-type clause, then `{` elements `}`. */
    method ParseListValue() returns (r: Result<Value>)
      requires Valid()
      modifies this
      ensures Valid() && Agrees(r, ListValue(dialect, tokens, old(pos)), pos)
      decreases |tokens| - pos, 0
    {
      var k := ParseTypeClause();
      if k.Err? {
        return Err(k.error);
      }
      var lb := Eat(LBrace);
      if lb.Err? {
        return Err(lb.error);
      }
      r := ParseElements(k.value);
    }

    /** The element-type clause of parseListValue: an opening bracket, the element type and
        the matching closing bracket. */
    method ParseTypeClause() returns (r: Result<ElemKind>)
      requires Valid()
      modifies this
      ensures Valid() && Agrees(r, TypeClause(dialect, tokens, old(pos)), pos)
    {
      var opener := EatOpenBracket();
      if opener.Err? {
        return Err(opener.error);
      }
      r := ParseListElementType();
      if r.Err? {
        return;
      }
      var closed := EatCloseBracket(opener.value);
      if closed.Err? {
        return Err(closed.error);
      }
    }

    /** The element parser the type clause selected, applied once. */
    method ParseElement(k: ElemKind) returns (r: Result<Value>)
      requires Valid()
      modifies this
      ensures Valid() && Agrees(r, Elem(dialect, tokens, old(pos), k), pos)
      decreases |tokens| - pos, 1
    {
      match k
      case ENum =>
        var t := Eat(NumberLit);
        if t.Err? {
          return Err(t.error);
        }
        return Ok(Int(IntOf(t.value)));
      case EFl =>
        if CurrentToken().kind == FloatLit {
          var t := Eat(FloatLit);
          return Ok(Float(TextOf(t.value)));
        }
        var t := Eat(NumberLit);
        if t.Err? {
          return Err(t.error);
        }
        return Ok(Float(Decimal(IntOf(t.value))));
      case EBool =>
        var t := Eat(BooleanLit);
        if t.Err? {
          return Err(t.error);
        }
        return Ok(Bool(BoolOf(t.value)));
      case EStr =>
        var tok := CurrentToken();
        if !StrLiteral(dialect, tok.kind) {
          return Error("Expected string, got " + KindName(tok.kind));
        }
        pos := pos + 1;
        return Ok(Str(TextOf(tok)));
      case EMl =>
        var tok := CurrentToken();
        if !MlLiteral(dialect, tok.kind) {
          return Error("Expected multiline string, got " + KindName(tok.kind));
        }
        pos := pos + 1;
        return Ok(Str(TextOf(tok)));
      case EClass =>
        r := ParseClassValue();
      case EList(inner) =>
        var lb := Eat(LBrace);
        if lb.Err? {
          return Err(lb.error);
        }
        r := ParseElements(inner);
      case EDynamic =>
        r := ParseDynamicValueDirect();
    }

    /** The element loop of parseListValue and of the nested-list parser: elements until
        `}`, a comma after each one but the last optional, then `}`. */
    method ParseElements(k: ElemKind) returns (r: Result<Value>)
      requires Valid()
      modifies this
      ensures Valid() && Agrees(r, ListBody(dialect, tokens, old(pos), k, []), pos)
      decreases |tokens| - pos, 3
    {
      ghost var start := pos;
      var elements: seq<Value> := [];
      while CurrentToken().kind != RBrace
        invariant Valid() && start <= pos
        invariant AllConform(elements, k)
        invariant ListBody(dialect, tokens, pos, k, elements) == ListBody(dialect, tokens, start, k, [])
        decreases |tokens| - pos
      {
        if dialect == LibComments && CurrentToken().kind == Comment {
          pos := pos + 1;
          continue;
        }
        var step := ParseListItem(k, elements);
        if step.Err? {
          return Err(step.error);
        }
        elements := step.value;
      }
      var _ := Eat(RBrace);
      return Ok(List(elements));
    }

    /** One element of the list loop and the separator after it: a comma is eaten, a `}`
        is left for the loop, anything else is the missing-comma error. */
    method ParseListItem(k: ElemKind, elements: seq<Value>) returns (r: Result<seq<Value>>)
      requires Valid() && AllConform(elements, k)
      requires tokens[pos].kind != RBrace && !(dialect == LibComments && tokens[pos].kind == Comment)
      modifies this
      ensures Valid()
      ensures r.Ok? ==> old(pos) < pos && AllConform(r.value, k)
      ensures r.Ok? ==> ListBody(dialect, tokens, old(pos), k, elements) == ListBody(dialect, tokens, pos, k, r.value)
      ensures r.Err? ==> ListBody(dialect, tokens, old(pos), k, elements) == Err(r.error)
      decreases |tokens| - pos, 2
    {
      ghost var here := pos;
      var e := ParseElement(k);
      if e.Err? {
        ListBodyElemFails(dialect, tokens, here, k, elements);
        return Err(e.error);
      }
      assert Elem(dialect, tokens, here, k) == Ok(Parsed(e.value, pos));
      ListBodyStep(dialect, tokens, here, k, elements, e.value, pos);
      var sep := CurrentToken().kind;
      assert sep == tokens[pos].kind;
      if sep == Comma {
        pos := pos + 1;
      } else if sep != RBrace {
        r := Error("Expected comma or closing brace");
        assert r == Fail(tokens, pos, "Expected comma or closing brace");
        return;
      }
      return Ok(elements + [e.value]);
    }

    /** A run of comments: their texts, in order; the cursor ends on the first token that
        is not a comment. */
    method CollectComments() returns (texts: seq<string>)
      requires Valid()
      modifies this
      ensures Valid() && (pos, texts) == CommentRun(tokens, old(pos), [])
    {
      ghost var start := pos;
      texts := [];
      while CurrentToken().kind == Comment
        invariant Valid() && CommentRun(tokens, pos, texts) == CommentRun(tokens, start, [])
        decreases |tokens| - pos
      {
        texts := texts + [TextOf(CurrentToken())];
        pos := pos + 1;
      }
    }

    /** parseWithComments(): the header comment, then each parameter with the comments
        before it and the comment right after its value, written into a new document. */
    method ParseWithComments() returns (r: Result<Document>)
      requires Valid() && dialect == LibComments && pos == 0
      modifies this
      ensures Valid()
      ensures DocumentOf(tokens).Err? ==> r == Err(DocumentOf(tokens).error)
      ensures DocumentOf(tokens).Ok? ==> r.Ok? && fresh(r.value) && r.value.Valid() && r.value.CommentsAttached()
      ensures DocumentOf(tokens).Ok? ==> r.value.header == DocumentOf(tokens).value.header
      ensures DocumentOf(tokens).Ok? ==>
        DocState(r.value.data, r.value.comments, r.value.inlineComments) == DocumentOf(tokens).value.state
    {
      var doc := new Document();
      var headerComments := CollectComments();
      if |headerComments| > 0 {
        doc.SetHeaderComment(Join(headerComments, " "));
      }
      assert doc.header == PreComment(headerComments);
      var entries := ParseEntries(doc);
      if entries.Err? {
        return Err(entries.error);
      }
      return Ok(doc);
    }

    /** The loop of parseWithComments: entries until EOF, written into doc. */
    method ParseEntries(doc: Document) returns (r: Result<()>)
      requires Valid() && dialect == LibComments
      requires Consistent(DocState(doc.data, doc.comments, doc.inlineComments))
      modifies this, doc
      ensures Valid() && doc.header == old(doc.header)
      ensures r.Ok? ==>
        Entries(tokens, old(pos), old(DocState(doc.data, doc.comments, doc.inlineComments))) ==
        Ok(DocState(doc.data, doc.comments, doc.inlineComments))
      ensures r.Err? ==>
        Entries(tokens, old(pos), old(DocState(doc.data, doc.comments, doc.inlineComments))) == Err(r.error)
    {
      ghost var first := pos;
      ghost var st0 := DocState(doc.data, doc.comments, doc.inlineComments);
      while CurrentToken().kind != Eof
        invariant Valid() && first <= pos && doc.header == old(doc.header)
        invariant Consistent(DocState(doc.data, doc.comments, doc.inlineComments))
        invariant Entries(tokens, pos, DocState(doc.data, doc.comments, doc.inlineComments)) == Entries(tokens, first, st0)
        decreases |tokens| - pos
      {
        var step := ParseEntry(doc);
        if step.Err? {
          return Err(step.error);
        }
        if !step.value {
          return Ok(());
        }
      }
      EntriesAtEof(tokens, pos, DocState(doc.data, doc.comments, doc.inlineComments));
      return Ok(());
    }

    /** One pass of parseWithComments' loop: the comments before a parameter, then (unless
        EOF follows them) the parameter and its inline comment. Ok(false) is the EOF break. */
    method ParseEntry(doc: Document) returns (r: Result<bool>)
      requires Valid() && dialect == LibComments
      requires Consistent(DocState(doc.data, doc.comments, doc.inlineComments))
      modifies this, doc
      ensures Valid() && doc.header == old(doc.header)
      ensures r.Ok? ==> Consistent(DocState(doc.data, doc.comments, doc.inlineComments))
      ensures r.Ok? && r.value ==> old(pos) < pos
      ensures r.Ok? && r.value ==>
        Entries(tokens, old(pos), old(DocState(doc.data, doc.comments, doc.inlineComments))) ==
        Entries(tokens, pos, DocState(doc.data, doc.comments, doc.inlineComments))
      ensures r.Ok? && !r.value ==>
        doc.data == old(doc.data) && doc.comments == old(doc.comments) && doc.inlineComments == old(doc.inlineComments)
      ensures r.Ok? && !r.value ==>
        Entries(tokens, old(pos), old(DocState(doc.data, doc.comments, doc.inlineComments))) ==
        Ok(old(DocState(doc.data, doc.comments, doc.inlineComments)))
      ensures r.Err? ==>
        Entries(tokens, old(pos), old(DocState(doc.data, doc.comments, doc.inlineComments))) == Err(r.error)
    {
      ghost var st := DocState(doc.data, doc.comments, doc.inlineComments);
      ghost var start := pos;
      var preComments := CollectComments();
      var commentBefore := PreComment(preComments);
      if CurrentToken().kind == Eof {
        EntriesAtEof(tokens, start, st);
        return Ok(false);
      }
      var e := ParseParameter();
      if e.Err? {
        EntriesParamFails(tokens, start, st);
        return Err(e.error);
      }
      var name := e.value.0;
      EntriesStep(tokens, start, st, name, e.value.1, pos);
      Record(doc, name, e.value.1, commentBefore);
      ParseInlineComment(doc, name);
      return Ok(true);
    }

    /** doc.data[name] = value, and doc.comments[name] = commentBefore when it is truthy. */
    method Record(doc: Document, name: string, value: Value, commentBefore: Option<string>)
      requires Consistent(DocState(doc.data, doc.comments, doc.inlineComments)) && WellFormed(value)
      modifies doc
      ensures DocState(doc.data, doc.comments, doc.inlineComments) ==
        AddEntry(old(DocState(doc.data, doc.comments, doc.inlineComments)), name, value, commentBefore)
      ensures doc.header == old(doc.header)
    {
      doc.data := Put(doc.data, name, value);
      if commentBefore.Some? && commentBefore.value != "" {
        doc.comments := Put(doc.comments, name, commentBefore.value);
      }
    }

    /** A comment right after the value of name is its inline comment. */
    method ParseInlineComment(doc: Document, name: string)
      requires Valid() && Consistent(DocState(doc.data, doc.comments, doc.inlineComments)) && name in Keys(doc.data)
      modifies this, doc
      ensures Valid() && old(pos) <= pos && doc.header == old(doc.header)
      ensures Consistent(DocState(doc.data, doc.comments, doc.inlineComments))
      ensures AfterValue(tokens, old(pos), old(DocState(doc.data, doc.comments, doc.inlineComments)), name) ==
        Entries(tokens, pos, DocState(doc.data, doc.comments, doc.inlineComments))
    {
      ghost var st := DocState(doc.data, doc.comments, doc.inlineComments);
      ghost var spec := AfterValue(tokens, pos, st, name);
      var tok := CurrentToken();
      assert tok == tokens[pos];
      AfterValueStep(tokens, pos, st, name, tok);
      if tok.kind == Comment {
        var text := TextOf(tok);
        ghost var next := AddInline(st, name, text);
        doc.inlineComments := Put(doc.inlineComments, name, text);
        pos := pos + 1;
        assert DocState(doc.data, doc.comments, doc.inlineComments) == next;
      }
      assert spec == Entries(tokens, pos, DocState(doc.data, doc.comments, doc.inlineComments));
    }
  }
}
