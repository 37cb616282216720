/** The reference library's lexer (lib/scl_parser/lexer.py): a cursor over the text that
    emits tokens, proved against a functional reading of the same rules. */
module LibLexer {
  import opened Wrappers
  import opened Text
  import opened Tokens
  import opened Scanning

  // ---------------------------------------------------------------------------------
  // Specification: what each reader produces from index p of the text.
  // ---------------------------------------------------------------------------------

  function ErrorAt(text: string, p: nat, msg: string): Error
    requires p <= |text|
  {
    SyntaxError(msg, LineAt(text, p), ColAt(text, p))
  }

  function TokenAt(text: string, p: nat, kind: TokenKind, payload: Payload): Token
    requires p <= |text|
  {
    Token(kind, payload, LineAt(text, p), ColAt(text, p))
  }

  /** The kind of the last token that is neither a newline nor a comment. */
  function LastSignificant(ts: seq<Token>): (r: Option<TokenKind>)
    ensures r.Some? ==> r.value != Newline && r.value != Comment
  {
    if ts == [] then None
    else if IsSignificant(ts[|ts| - 1]) then Some(ts[|ts| - 1].kind)
    else LastSignificant(ts[..|ts| - 1])
  }

  /** '[' opens a list bracket right after `list` or after a closing ']'. */
  predicate IsListBracketContext(ts: seq<Token>)
  {
    LastSignificant(ts) == Some(ListKw) || LastSignificant(ts) == Some(RBracket)
  }

  /** Right after `str {` or `ml {` an unquoted value runs up to the next '}'. */
  predicate IsPlainStringContext(ts: seq<Token>)
  {
    var s := Significant(ts);
    |s| >= 2 && s[|s| - 1].kind == LBrace && (s[|s| - 2].kind == StrKw || s[|s| - 2].kind == MlKw)
  }

  /** The backward scan for the last significant token finds the last element of the
      filtered stream that the plain-string test looks at. */
  lemma {:induction false} LastSignificantIsLastOfFiltered(ts: seq<Token>)
    ensures var s := Significant(ts);
      LastSignificant(ts) == if s == [] then None else Some(s[|s| - 1].kind)
  {
    if ts != [] {
      LastSignificantIsLastOfFiltered(ts[..|ts| - 1]);
    }
  }

  /** A comment: from '[' to the next ']', trimmed. */
  function CommentAt(text: string, p: nat): (r: Result<Scan>)
    requires p < |text| && text[p] == '['
    ensures r.Ok? ==> p < r.value.next <= |text| && r.value.tok.kind == Comment
  {
    var e := FindFrom(text, p + 1, ']');
    if e == |text| then Err(ErrorAt(text, e, "Unclosed comment"))
    else Ok(Scan(TokenAt(text, p, Comment, Text(Strip(text[p + 1..e], PySpaces))), e + 1))
  }

  /** The value of four hex digits. */
  function Hex4(s: string): (v: nat)
    requires |s| == 4 && forall k :: 0 <= k < 4 ==> IsHexDigit(s[k])
    ensures v < 0x1_0000
  {
    HexValue(s[0]) * 4096 + HexValue(s[1]) * 256 + HexValue(s[2]) * 16 + HexValue(s[3])
  }

  /** \uXXXX after the 'u' at index p - 1. */
  function UnicodeAt(text: string, p: nat): (r: Result<(char, nat)>)
    requires p <= |text|
    ensures r.Ok? ==> r.value.1 == p + 4 <= |text|
  {
    var e := RunEnd(text, p, IsHexDigit);
    if e < p + 4 then Err(ErrorAt(text, e, "Invalid unicode escape: expected 4 hex digits"))
    else
      var code := Hex4(text[p..p + 4]);
      if 0xD800 <= code < 0xE000 then Err(Fault("lone surrogate"))
      else Ok((code as char, p + 4))
  }

  /** What a backslash at index p - 1 stands for: \n, \t, \uXXXX, and any other character
      (among them \\, \" and \') stands for itself. */
  function EscapeAt(text: string, p: nat): (r: Result<(char, nat)>)
    requires p <= |text|
    ensures r.Ok? ==> p < r.value.1 <= |text|
  {
    if p == |text| then Err(ErrorAt(text, p, "Unexpected end of input after backslash"))
    else if text[p] == 'n' then Ok(('\n', p + 1))
    else if text[p] == 't' then Ok(('\t', p + 1))
    else if text[p] == 'u' then UnicodeAt(text, p + 1)
    else Ok((text[p], p + 1))
  }

  /** The body of a quoted literal from index p to its closing quote, with escapes decoded;
      acc is the part already decoded. */
  function QuotedAt(text: string, p: nat, quote: char, acc: string, unclosed: string): (r: Result<(string, nat)>)
    requires p <= |text|
    ensures r.Ok? ==> p <= r.value.1 < |text| && text[r.value.1] == quote
    decreases |text| - p
  {
    if p == |text| then Err(ErrorAt(text, p, unclosed))
    else if text[p] == quote then Ok((acc, p))
    else if text[p] == '\\' then
      match EscapeAt(text, p + 1)
      case Err(e) => Err(e)
      case Ok((c, n)) => QuotedAt(text, n, quote, acc + [c], unclosed)
    else QuotedAt(text, p + 1, quote, acc + [text[p]], unclosed)
  }

  function StringAt(text: string, p: nat): (r: Result<Scan>)
    requires p < |text| && text[p] == '"'
    ensures r.Ok? ==> p < r.value.next <= |text| && r.value.tok.kind == StringLit
  {
    var q :- QuotedAt(text, p + 1, '"', [], "Unclosed string");
    Ok(Scan(TokenAt(text, p, StringLit, Text(q.0)), q.1 + 1))
  }

  function MultilineAt(text: string, p: nat): (r: Result<Scan>)
    requires p < |text| && text[p] == '\''
    ensures r.Ok? ==> p < r.value.next <= |text| && r.value.tok.kind == MultilineLit
  {
    var q :- QuotedAt(text, p + 1, '\'', [], "Unclosed multiline string");
    Ok(Scan(TokenAt(text, p, MultilineLit, Text(q.0)), q.1 + 1))
  }

  /** An unquoted value: everything up to the next '}' (not consumed), trimmed, no escapes. */
  function PlainStringAt(text: string, p: nat): (r: Scan)
    requires p <= |text|
    ensures p <= r.next <= |text| && (r.next < |text| ==> text[r.next] == '}')
    ensures r.tok.kind == PlainLit
  {
    var e := FindFrom(text, p, '}');
    Scan(TokenAt(text, p, PlainLit, Text(Strip(text[p..e], PySpaces))), e)
  }

  /** A number: an optional '-', then digits with at most one dot. A dot makes it a float,
      which keeps its text; otherwise the token carries the integer. */
  function NumberAt(text: string, p: nat): (r: Result<Scan>)
    requires p <= |text|
    ensures r.Ok? ==> p < r.value.next <= |text|
    ensures r.Ok? ==> r.value.tok.kind == NumberLit || r.value.tok.kind == FloatLit
  {
    var neg := p < |text| && text[p] == '-';
    var b := if neg then p + 1 else p;
    if neg && (b == |text| || !IsDigit(text[b])) then Err(ErrorAt(text, b, "Expected digit after '-'"))
    else
      var nb := ScanNumberBody(text, b, false, false);
      if !nb.hasDigits then Err(ErrorAt(text, nb.end, "Invalid number format"))
      else if nb.hasDot then Ok(Scan(TokenAt(text, p, FloatLit, Text(text[p..nb.end])), nb.end))
      else
        assert AllDigits(text[b..nb.end]) by {
          NumberBodyFlags(text, b, false, false);
          forall k | 0 <= k < nb.end - b ensures IsDigit(text[b..nb.end][k]) {
            assert text[b..nb.end][k] == text[b + k];
          }
        }
        assert text[p..nb.end] == (if neg then "-" else "") + text[b..nb.end];
        Ok(Scan(TokenAt(text, p, NumberLit, IntVal(ParseInt(text[p..nb.end]))), nb.end))
  }

  /** An identifier: letters, digits, '_' and '-'. A keyword becomes its type tag, a boolean
      word a boolean literal. */
  function IdentifierAt(text: string, p: nat): (r: Scan)
    requires p <= |text|
    ensures p <= r.next <= |text|
  {
    var e := RunEnd(text, p, IsWordChar);
    var w := text[p..e];
    var tok :=
      match KeywordKind(w)
      case Some(k) => TokenAt(text, p, k, Text(w))
      case None =>
        match BoolWord(w)
        case Some(b) => TokenAt(text, p, BooleanLit, BoolVal(b))
        case None => TokenAt(text, p, Identifier, Text(w));
    Scan(tok, e)
  }

  /** An identifier that starts with digits; never a keyword. */
  function IdentifierWithDigitsAt(text: string, p: nat): (r: Scan)
    requires p <= |text|
    ensures p <= r.next <= |text|
  {
    var e := RunEnd(text, p, IsWordChar);
    Scan(TokenAt(text, p, Identifier, Text(text[p..e])), e)
  }

  predicate IsPunct(c: char) { c == '{' || c == '}' || c == '(' || c == ')' || c == ',' }

  function PunctKind(c: char): TokenKind
    requires IsPunct(c)
  {
    if c == '{' then LBrace else if c == '}' then RBrace
    else if c == '(' then LParen else if c == ')' then RParen else Comma
  }

  /** The token that starts at index q (blanks already skipped), given the tokens so far. */
  function DispatchAt(text: string, q: nat, toks: seq<Token>): (r: Result<Scan>)
    requires q < |text|
    ensures r.Ok? ==> q < r.value.next <= |text| && r.value.tok.kind != Eof
    ensures r.Ok? && r.value.tok.kind == LBracket ==> IsListBracketContext(toks)
    ensures r.Ok? && r.value.tok.kind == Comment ==> !IsListBracketContext(toks)
    ensures r.Ok? && r.value.tok.kind == PlainLit ==> IsPlainStringContext(toks)
  {
    var c := text[q];
    if c == '[' then
      if IsListBracketContext(toks) then Ok(Scan(Token(LBracket, Text("["), LineAt(text, q + 1), ColAt(text, q)), q + 1))
      else CommentAt(text, q)
    else if c == ']' then Ok(Scan(Token(RBracket, Text("]"), LineAt(text, q + 1), ColAt(text, q)), q + 1))
    else if c == '\n' then Ok(Scan(TokenAt(text, q, Newline, Text("\n")), q + 1))
    else if c == ':' && q + 1 < |text| && text[q + 1] == ':' then
      Ok(Scan(Token(DoubleColon, Text("::"), LineAt(text, q + 2), ColAt(text, q)), q + 2))
    else if IsPunct(c) then Ok(Scan(Token(PunctKind(c), Text([c]), LineAt(text, q + 1), ColAt(text, q)), q + 1))
    else if c == '"' then StringAt(text, q)
    else if c == '\'' then MultilineAt(text, q)
    else if IsPlainStringContext(toks) then Ok(PlainStringAt(text, q))
    else if c == '-' && q + 1 < |text| && IsDigit(text[q + 1]) then NumberAt(text, q)
    else if IsDigit(c) then
      var e := RunEnd(text, q + 1, IsDigit);
      if e < |text| && IsWordStart(text[e]) then Ok(IdentifierWithDigitsAt(text, q)) else NumberAt(text, q)
    else if IsWordStart(c) then
      var s := IdentifierAt(text, q);
      assert s.tok.kind != LBracket && s.tok.kind != Comment && s.tok.kind != PlainLit;
      Ok(s)
    else Err(ErrorAt(text, q, "Unexpected character: " + [c]))
  }

  /** One turn of the tokenize loop from index p: skip blanks, then read a token. Blanks that
      run to the end of the text leave peek() at None, and `None in ' \t'` raises TypeError. */
  function StepAt(text: string, p: nat, toks: seq<Token>): (r: Result<Scan>)
    requires p < |text|
    ensures r.Ok? ==> p < r.value.next <= |text|
  {
    var q := RunEnd(text, p, IsBlank);
    if q == |text| then Err(Fault("TypeError: 'in <string>' requires string as left operand, not NoneType"))
    else DispatchAt(text, q, toks)
  }

  /** The token stream from index p on, after the tokens toks already emitted. */
  function LexFrom(text: string, p: nat, toks: seq<Token>): (r: Result<seq<Token>>)
    requires p <= |text|
    ensures r.Ok? ==> |r.value| > |toks| && r.value[..|toks|] == toks
    ensures r.Ok? ==> r.value[|r.value| - 1].kind == Eof
    ensures r.Ok? ==> forall i :: |toks| <= i < |r.value| - 1 ==> r.value[i].kind != Eof
    decreases |text| - p
  {
    if p == |text| then Ok(toks + [TokenAt(text, p, Eof, NoPayload)])
    else
      match StepAt(text, p, toks)
      case Err(e) => Err(e)
      case Ok(s) =>
        var r := LexFrom(text, s.next, toks + [s.tok]);
        if r.Err? then r
        else
          assert r.value[..|toks|] == (toks + [s.tok])[..|toks|];
          assert r.value[|toks|] == (toks + [s.tok])[|toks|] == s.tok;
          r
  }

  function Lex(text: string): Result<seq<Token>>
  {
    LexFrom(text, 0, [])
  }

  /** The stream ends with exactly one Eof. */
  lemma LexEndsWithEof(text: string)
    requires Lex(text).Ok?
    ensures EndsWithSingleEof(Lex(text).value)
  {
  }

  // ---------------------------------------------------------------------------------
  // Properties of the specification.
  // ---------------------------------------------------------------------------------

  /** In every stream the lexer emits, '[' became a list bracket exactly where it follows
      `list` or ']' (newlines and comments aside), and a comment everywhere else; plain
      strings appear only right after `str {` or `ml {`. */
  predicate BracketsAndPlainInContext(ts: seq<Token>)
  {
    forall i :: 0 <= i < |ts| ==>
      (ts[i].kind == LBracket ==> IsListBracketContext(ts[..i])) &&
      (ts[i].kind == Comment ==> !IsListBracketContext(ts[..i])) &&
      (ts[i].kind == PlainLit ==> IsPlainStringContext(ts[..i]))
  }

  lemma {:induction false} LexFromKeepsContext(text: string, p: nat, toks: seq<Token>)
    requires p <= |text| && BracketsAndPlainInContext(toks)
    requires LexFrom(text, p, toks).Ok?
    ensures BracketsAndPlainInContext(LexFrom(text, p, toks).value)
    decreases |text| - p
  {
    if p == |text| {
      var ts := toks + [TokenAt(text, p, Eof, NoPayload)];
      assert forall i :: 0 <= i < |toks| ==> ts[..i] == toks[..i];
    } else {
      var s := StepAt(text, p, toks).value;
      var ts := toks + [s.tok];
      assert ts[..|toks|] == toks;
      assert forall i :: 0 <= i < |toks| ==> ts[..i] == toks[..i];
      LexFromKeepsContext(text, s.next, ts);
    }
  }

  lemma LexContext(text: string)
    requires Lex(text).Ok?
    ensures BracketsAndPlainInContext(Lex(text).value)
  {
    LexFromKeepsContext(text, 0, []);
  }

  /** A lone ':' is not a token: outside a plain-string context it is rejected at its own
      line and column. */
  lemma LoneColonRejected(text: string, q: nat, toks: seq<Token>)
    requires q < |text| && text[q] == ':' && (q + 1 == |text| || text[q + 1] != ':')
    requires !IsPlainStringContext(toks)
    ensures DispatchAt(text, q, toks) == Err(ErrorAt(text, q, "Unexpected character: :"))
  {
    assert "Unexpected character: " + [text[q]] == "Unexpected character: :";
  }

  /** Blanks that run to the end of the text are a TypeError, not a syntax error. */
  lemma TrailingBlanksFault(text: string, p: nat, toks: seq<Token>)
    requires p < |text| && forall k :: p <= k < |text| ==> IsBlank(text[k])
    ensures StepAt(text, p, toks).Err? && StepAt(text, p, toks).error.Fault?
  {
  }

  /** A number token is a float exactly when its text holds a dot, and then it holds one;
      otherwise it carries the integer its text denotes. */
  lemma NumberKinds(text: string, p: nat)
    requires p <= |text| && NumberAt(text, p).Ok?
    ensures var s := NumberAt(text, p).value; var lexeme := text[p..s.next];
      (s.tok.kind == FloatLit <==> '.' in lexeme) &&
      (s.tok.kind == FloatLit ==> (s.tok.payload == Text(lexeme) &&
        forall a :: p <= a < s.next && text[a] == '.' ==> '.' !in text[a + 1..s.next])) &&
      (s.tok.kind == NumberLit ==> IsIntText(lexeme) && s.tok.payload == IntVal(ParseInt(lexeme)))
  {
    var s := NumberAt(text, p).value;
    var b := if p < |text| && text[p] == '-' then p + 1 else p;
    NumberLexemeDot(text, p, b);
    if s.tok.kind == FloatLit {
      NumberLexemeOneDot(text, p, b);
    }
  }

  /** The lexeme of a number holds a dot exactly when the body scan saw one. */
  lemma NumberLexemeDot(text: string, p: nat, b: nat)
    requires p <= b <= |text| && b - p <= 1 && (b == p + 1 ==> text[p] == '-')
    ensures var nb := ScanNumberBody(text, b, false, false);
      nb.hasDot <==> '.' in text[p..nb.end]
  {
    var nb := ScanNumberBody(text, b, false, false);
    NumberBodyFlags(text, b, false, false);
    assert text[p..nb.end] == text[p..b] + text[b..nb.end];
  }

  /** No dot of a number's lexeme is followed by another. */
  lemma NumberLexemeOneDot(text: string, p: nat, b: nat)
    requires p <= b <= |text| && b - p <= 1 && (b == p + 1 ==> text[p] == '-')
    ensures var e := ScanNumberBody(text, b, false, false).end;
      forall a :: p <= a < e && text[a] == '.' ==> '.' !in text[a + 1..e]
  {
    var e := ScanNumberBody(text, b, false, false).end;
    forall a | p <= a < e && text[a] == '.' ensures '.' !in text[a + 1..e] {
      if a >= b {
        NumberHasOneDot(text, b, false, false, a);
      }
    }
  }

  /** The identifier reader's classification: the eight tags, the four boolean words, and
      every other word an identifier carrying its text. */
  lemma IdentifierKinds(text: string, p: nat)
    requires p <= |text|
    ensures var s := IdentifierAt(text, p); var w := text[p..s.next];
      (forall k :: p <= k < s.next ==> IsWordChar(text[k])) &&
      (s.next < |text| ==> !IsWordChar(text[s.next])) &&
      (IsTypeKeyword(s.tok.kind) <==> KeywordKind(w).Some?) &&
      (IsTypeKeyword(s.tok.kind) ==> s.tok.payload == Text(KeywordText(s.tok.kind))) &&
      (s.tok.kind == BooleanLit <==> BoolWord(w).Some?) &&
      (s.tok.kind == BooleanLit ==> s.tok.payload == BoolVal(BoolWord(w).value)) &&
      (s.tok.kind == Identifier ==> s.tok.payload == Text(w))
  {
    var s := IdentifierAt(text, p);
    var w := text[p..s.next];
    if KeywordKind(w).Some? {
      KeywordTableInverse(w, KeywordKind(w).value);
    }
  }

  /** One escaped character of the serializers' output decodes to itself. */
  lemma QuotedReadsOneEscaped(pre: string, c: char, rest: string, acc: string, unclosed: string)
    requires rest != []
    ensures var text := pre + EscapeChar(c) + rest;
      QuotedAt(text, |pre|, '"', acc, unclosed) == QuotedAt(text, |pre| + |EscapeChar(c)|, '"', acc + [c], unclosed)
  {
    var text := pre + EscapeChar(c) + rest;
    if c == '\\' || c == '"' {
      assert text[|pre|] == '\\' && text[|pre| + 1] == c;
      assert EscapeAt(text, |pre| + 1) == Ok((c, |pre| + 2));
    } else {
      assert text[|pre|] == c;
    }
  }

  /** Escape sequences the serializers write decode to the characters they stand for, up to
      the closing quote. */
  lemma {:induction false} QuotedReadsEscaped(pre: string, s: string, post: string, acc: string, unclosed: string)
    ensures QuotedAt(pre + EscapeEach(s) + "\"" + post, |pre|, '"', acc, unclosed) == Ok((acc + s, |pre| + |EscapeEach(s)|))
    decreases |s|
  {
    var text := pre + EscapeEach(s) + "\"" + post;
    if s != [] {
      var head := EscapeChar(s[0]);
      var tail := EscapeEach(s[1..]);
      assert text == pre + head + (tail + "\"" + post);
      QuotedReadsOneEscaped(pre, s[0], tail + "\"" + post, acc, unclosed);
      assert text == (pre + head) + tail + "\"" + post;
      QuotedReadsEscaped(pre + head, s[1..], post, acc + [s[0]], unclosed);
      assert acc + [s[0]] + s[1..] == acc + s;
    } else {
      assert text[|pre|] == '"';
      assert acc + s == acc;
    }
  }

  /** Round trip of the one-line string form: the serializers write Escape(s) between double
      quotes, and the string reader, started at the opening quote, gives back s. */
  lemma EscapedStringReadsBack(pre: string, s: string, post: string)
    ensures var text := pre + "\"" + Escape(s) + "\"" + post;
      StringAt(text, |pre|) == Ok(Scan(TokenAt(text, |pre|, StringLit, Text(s)), |pre| + |Escape(s)| + 2))
  {
    var text := pre + "\"" + Escape(s) + "\"" + post;
    EscapeIsEscapeEach(s);
    assert text[|pre|] == '"';
    QuotedReadsEscaped(pre + "\"", s, post, [], "Unclosed string");
    assert [] + s == s;
  }

  // ---------------------------------------------------------------------------------
  // The lexer as the library runs it: a cursor that advances over the text.
  // ---------------------------------------------------------------------------------

  /** r is what a reader method returned and pos where it left the cursor; s is what the
      specification says about the same reader. On an error the cursor does not matter. */
  predicate Agrees(r: Result<Token>, s: Result<Scan>, pos: nat)
  {
    match s
    case Ok(sc) => r == Ok(sc.tok) && pos == sc.next
    case Err(e) => r == Err(e)
  }

  class Lexer {
    const text: string
    var pos: nat
    var line: int
    var column: int
    var tokens: seq<Token>

    /** The cursor's line and column are always those reached by advancing over text[..pos]. */
    ghost predicate Valid()
      reads this
    {
      pos <= |text| && line == LineAt(text, pos) && column == ColAt(text, pos)
    }

    constructor (text: string)
      ensures Valid() && this.text == text && pos == 0 && tokens == []
    {
      this.text := text;
      pos := 0;
      line := 1;
      column := 1;
      tokens := [];
    }

    /** The error raised at the cursor. */
    function Error(msg: string): (e: Error)
      reads this
      ensures Valid() ==> e == ErrorAt(text, pos, msg)
    {
      SyntaxError(msg, line, column)
    }

    /** The character offset places ahead, or None past the end. */
    function Peek(offset: nat): (c: Option<char>)
      reads this
      ensures c == None <==> |text| <= pos + offset
      ensures c != None ==> c == Some(text[pos + offset])
    {
      if pos + offset < |text| then Some(text[pos + offset]) else None
    }

    /** Consume one character: a line break moves to column 1 of the next line, any other
        character one column right; at the end nothing changes and None is returned. */
    method Advance() returns (c: Option<char>)
      requires Valid()
      modifies this
      ensures Valid() && tokens == old(tokens)
      ensures old(pos) < |text| ==>
        c == Some(text[old(pos)]) && pos == old(pos) + 1 &&
        (if text[old(pos)] == '\n' then line == old(line) + 1 && column == 1
         else line == old(line) && column == old(column) + 1)
      ensures old(pos) == |text| ==> c.None? && pos == old(pos) && line == old(line) && column == old(column)
    {
      if pos < |text| {
        var ch := text[pos];
        pos := pos + 1;
        if ch == '\n' {
          line := line + 1;
          column := 1;
        } else {
          column := column + 1;
        }
        return Some(ch);
      }
      return None;
    }

    /** Skip spaces and tabs. Reaching the end while doing so is the TypeError of
        `None in ' \t'`, reported as fault. */
    method SkipWhitespace() returns (fault: bool)
      requires Valid()
      modifies this
      ensures Valid() && tokens == old(tokens)
      ensures pos == RunEnd(text, old(pos), IsBlank) && (fault <==> pos == |text|)
    {
      while Peek(0).Some? && IsBlank(Peek(0).value)
        invariant Valid() && tokens == old(tokens) && old(pos) <= pos
        invariant RunEnd(text, pos, IsBlank) == RunEnd(text, old(pos), IsBlank)
        decreases |text| - pos
      {
        var _ := Advance();
      }
      return Peek(0).None?;
    }

    /** The kind of the last token that is neither a newline nor a comment, found by walking
        the tokens backwards. */
    method LastSignificantType() returns (r: Option<TokenKind>)
      ensures r == LastSignificant(tokens)
    {
      var i := |tokens|;
      assert tokens[..i] == tokens;
      while i > 0
        invariant 0 <= i <= |tokens|
        invariant LastSignificant(tokens[..i]) == LastSignificant(tokens)
      {
        assert tokens[..i][..i - 1] == tokens[..i - 1];
        var t := tokens[i - 1];
        if t.kind != Newline && t.kind != Comment {
          return Some(t.kind);
        }
        i := i - 1;
      }
      return None;
    }

    method IsListBracketContextNow() returns (r: bool)
      ensures r == IsListBracketContext(tokens)
    {
      var last := LastSignificantType();
      return last == Some(ListKw) || last == Some(RBracket);
    }

    /** The characters up to the next ']' or the end of the text, consumed. */
    method ReadUntilBracket() returns (body: string)
      requires Valid()
      modifies this
      ensures Valid() && tokens == old(tokens)
      ensures pos == FindFrom(text, old(pos), ']') && body == text[old(pos)..pos]
    {
      ghost var start := pos;
      ghost var e := FindFrom(text, start, ']');
      body := "";
      while Peek(0).Some? && Peek(0) != Some(']')
        invariant Valid() && tokens == old(tokens)
        invariant start <= pos <= e
        invariant body == text[start..pos]
        decreases |text| - pos
      {
        var c := Advance();
        body := body + [c.value];
      }
    }

    method ReadComment() returns (r: Result<Token>)
      requires Valid() && pos < |text| && text[pos] == '['
      modifies this
      ensures Valid() && tokens == old(tokens)
      ensures Agrees(r, CommentAt(text, old(pos)), pos)
    {
      var startLine, startCol := line, column;
      ghost var start := pos;
      var _ := Advance();
      var comment := ReadUntilBracket();
      if pos == |text| {
        return Err(Error("Unclosed comment"));
      }
      var _ := Advance();
      return Ok(Token(Comment, Text(Strip(comment, PySpaces)), startLine, startCol));
    }

    /** What follows a backslash (already consumed). */
    method ReadEscape() returns (r: Result<char>)
      requires Valid()
      modifies this
      ensures Valid() && tokens == old(tokens)
      ensures match EscapeAt(text, old(pos))
        case Ok(cn) => r == Ok(cn.0) && pos == cn.1
        case Err(e) => r == Err(e)
    {
      var next := Peek(0);
      if next.None? {
        return Err(Error("Unexpected end of input after backslash"));
      }
      if next == Some('n') {
        var _ := Advance();
        return Ok('\n');
      }
      if next == Some('t') {
        var _ := Advance();
        return Ok('\t');
      }
      if next == Some('u') {
        var _ := Advance();
        var hexDigits := "";
        var i := 0;
        while i < 4
          invariant Valid() && tokens == old(tokens)
          invariant 0 <= i <= 4 && pos == old(pos) + 1 + i
          invariant hexDigits == text[old(pos) + 1..pos]
          invariant forall k :: old(pos) + 1 <= k < pos ==> IsHexDigit(text[k])
        {
          var ch := Peek(0);
          if ch.None? || !IsHexDigit(ch.value) {
            return Err(Error("Invalid unicode escape: expected 4 hex digits"));
          }
          var d := Advance();
          hexDigits := hexDigits + [d.value];
          i := i + 1;
        }
        var code := Hex4(hexDigits);
        if 0xD800 <= code < 0xE000 {
          return Err(Fault("lone surrogate"));
        }
        return Ok(code as char);
      }
      var c := Advance();
      return Ok(c.value);
    }

    method ReadString() returns (r: Result<Token>)
      requires Valid() && pos < |text| && text[pos] == '"'
      modifies this
      ensures Valid() && tokens == old(tokens)
      ensures Agrees(r, StringAt(text, old(pos)), pos)
    {
      var startLine, startCol := line, column;
      var _ := Advance();
      var s := "";
      while Peek(0).Some? && Peek(0) != Some('"')
        invariant Valid() && tokens == old(tokens) && old(pos) < pos
        invariant QuotedAt(text, pos, '"', s, "Unclosed string") == QuotedAt(text, old(pos) + 1, '"', [], "Unclosed string")
        decreases |text| - pos
      {
        if Peek(0) == Some('\\') {
          var _ := Advance();
          var e := ReadEscape();
          if e.Err? {
            return Err(e.error);
          }
          s := s + [e.value];
        } else {
          var c := Advance();
          s := s + [c.value];
        }
      }
      if Peek(0) != Some('"') {
        return Err(Error("Unclosed string"));
      }
      var _ := Advance();
      return Ok(Token(StringLit, Text(s), startLine, startCol));
    }

    method ReadMultilineString() returns (r: Result<Token>)
      requires Valid() && pos < |text| && text[pos] == '\''
      modifies this
      ensures Valid() && tokens == old(tokens)
      ensures Agrees(r, MultilineAt(text, old(pos)), pos)
    {
      var startLine, startCol := line, column;
      var _ := Advance();
      var s := "";
      while Peek(0).Some? && Peek(0) != Some('\'')
        invariant Valid() && tokens == old(tokens) && old(pos) < pos
        invariant QuotedAt(text, pos, '\'', s, "Unclosed multiline string") == QuotedAt(text, old(pos) + 1, '\'', [], "Unclosed multiline string")
        decreases |text| - pos
      {
        if Peek(0) == Some('\\') {
          var _ := Advance();
          var e := ReadEscape();
          if e.Err? {
            return Err(e.error);
          }
          s := s + [e.value];
        } else {
          var c := Advance();
          s := s + [c.value];
        }
      }
      if Peek(0) != Some('\'') {
        return Err(Error("Unclosed multiline string"));
      }
      var _ := Advance();
      return Ok(Token(MultilineLit, Text(s), startLine, startCol));
    }

    method ReadPlainString() returns (t: Token)
      requires Valid()
      modifies this
      ensures Valid() && tokens == old(tokens)
      ensures t == PlainStringAt(text, old(pos)).tok && pos == PlainStringAt(text, old(pos)).next
    {
      var startLine, startCol := line, column;
      var s := "";
      while Peek(0).Some? && Peek(0) != Some('}')
        invariant Valid() && tokens == old(tokens)
        invariant old(pos) <= pos <= FindFrom(text, old(pos), '}')
        invariant s == text[old(pos)..pos]
        decreases |text| - pos
      {
        var c := Advance();
        s := s + [c.value];
      }
      return Token(PlainLit, Text(Strip(s, PySpaces)), startLine, startCol);
    }

    /** The digits-and-dot loop of the number reader: it stops at the first character that
        is neither, or at a second dot. */
    method ReadNumberBody() returns (body: string, hasDot: bool, hasDigits: bool)
      requires Valid()
      modifies this
      ensures Valid() && tokens == old(tokens)
      ensures ScanNumberBody(text, old(pos), false, false) == NumberBody(pos, hasDot, hasDigits)
      ensures body == text[old(pos)..pos]
    {
      body := "";
      hasDot := false;
      var digitsBefore, digitsAfter := false, false;
      while Peek(0).Some? && (IsDigit(Peek(0).value) || Peek(0).value == '.')
        invariant Valid() && tokens == old(tokens) && old(pos) <= pos
        invariant ScanNumberBody(text, pos, hasDot, digitsBefore || digitsAfter) == ScanNumberBody(text, old(pos), false, false)
        invariant body == text[old(pos)..pos]
        decreases |text| - pos
      {
        ghost var p0 := pos;
        assert text[old(pos)..p0 + 1] == text[old(pos)..p0] + [text[p0]];
        if Peek(0).value == '.' {
          if hasDot {
            break;
          }
          hasDot := true;
          var c := Advance();
          body := body + [c.value];
        } else {
          var c := Advance();
          body := body + [c.value];
          if hasDot {
            digitsAfter := true;
          } else {
            digitsBefore := true;
          }
        }
      }
      hasDigits := digitsBefore || digitsAfter;
    }

    method ReadNumber() returns (r: Result<Token>)
      requires Valid()
      modifies this
      ensures Valid() && tokens == old(tokens)
      ensures Agrees(r, NumberAt(text, old(pos)), pos)
    {
      var startLine, startCol := line, column;
      var number := "";
      if Peek(0) == Some('-') {
        var c := Advance();
        number := number + [c.value];
        if Peek(0).None? || !IsDigit(Peek(0).value) {
          return Err(Error("Expected digit after '-'"));
        }
      }
      assert number == text[old(pos)..pos];
      var body, hasDot, hasDigits := ReadNumberBody();
      assert text[old(pos)..pos] == number + body;
      number := number + body;
      if !hasDigits {
        return Err(Error("Invalid number format"));
      }
      if hasDot {
        return Ok(Token(FloatLit, Text(number), startLine, startCol));
      }
      NumberKinds(text, old(pos));
      return Ok(Token(NumberLit, IntVal(ParseInt(number)), startLine, startCol));
    }

    method ReadIdentifier() returns (t: Token)
      requires Valid()
      modifies this
      ensures Valid() && tokens == old(tokens)
      ensures t == IdentifierAt(text, old(pos)).tok && pos == IdentifierAt(text, old(pos)).next
    {
      var startLine, startCol := line, column;
      var word := "";
      while Peek(0).Some? && IsWordChar(Peek(0).value)
        invariant Valid() && tokens == old(tokens) && old(pos) <= pos
        invariant RunEnd(text, pos, IsWordChar) == RunEnd(text, old(pos), IsWordChar)
        invariant word == text[old(pos)..pos]
        decreases |text| - pos
      {
        var c := Advance();
        word := word + [c.value];
      }
      match KeywordKind(word)
      case Some(k) => return Token(k, Text(word), startLine, startCol);
      case None =>
        match BoolWord(word)
        case Some(b) => return Token(BooleanLit, BoolVal(b), startLine, startCol);
        case None => return Token(Identifier, Text(word), startLine, startCol);
    }

    method ReadIdentifierWithDigits() returns (t: Token)
      requires Valid()
      modifies this
      ensures Valid() && tokens == old(tokens)
      ensures t == IdentifierWithDigitsAt(text, old(pos)).tok && pos == IdentifierWithDigitsAt(text, old(pos)).next
    {
      var startLine, startCol := line, column;
      var word := "";
      while Peek(0).Some? && IsWordChar(Peek(0).value)
        invariant Valid() && tokens == old(tokens) && old(pos) <= pos
        invariant RunEnd(text, pos, IsWordChar) == RunEnd(text, old(pos), IsWordChar)
        invariant word == text[old(pos)..pos]
        decreases |text| - pos
      {
        var c := Advance();
        word := word + [c.value];
      }
      return Token(Identifier, Text(word), startLine, startCol);
    }

    /** Read the token at the cursor (blanks already skipped). */
    method NextToken() returns (r: Result<Token>)
      requires Valid() && pos < |text|
      modifies this
      ensures Valid() && tokens == old(tokens)
      ensures Agrees(r, DispatchAt(text, old(pos), tokens), pos)
    {
      var c := text[pos];
      if c == '[' {
        var bracket := IsListBracketContextNow();
        if bracket {
          var startCol := column;
          var _ := Advance();
          return Ok(Token(LBracket, Text("["), line, startCol));
        }
        r := ReadComment();
        return;
      }
      if c == ']' {
        var startCol := column;
        var _ := Advance();
        return Ok(Token(RBracket, Text("]"), line, startCol));
      }
      if c == '\n' {
        var newlineLine, newlineCol := line, column;
        var _ := Advance();
        return Ok(Token(Newline, Text("\n"), newlineLine, newlineCol));
      }
      if c == ':' && Peek(1) == Some(':') {
        var startCol := column;
        var _ := Advance();
        var _ := Advance();
        return Ok(Token(DoubleColon, Text("::"), line, startCol));
      }
      if IsPunct(c) {
        var startCol := column;
        var ch := Advance();
        return Ok(Token(PunctKind(ch.value), Text([ch.value]), line, startCol));
      }
      if c == '"' {
        r := ReadString();
        return;
      }
      if c == '\'' {
        r := ReadMultilineString();
        return;
      }
      if IsPlainStringContext(tokens) {
        var t := ReadPlainString();
        return Ok(t);
      }
      if c == '-' && Peek(1).Some? && IsDigit(Peek(1).value) {
        r := ReadNumber();
        return;
      }
      if IsDigit(c) {
        var ahead := pos + 1;
        while ahead < |text| && IsDigit(text[ahead])
          invariant pos + 1 <= ahead <= |text|
          invariant RunEnd(text, ahead, IsDigit) == RunEnd(text, pos + 1, IsDigit)
          decreases |text| - ahead
        {
          ahead := ahead + 1;
        }
        if ahead < |text| && IsWordStart(text[ahead]) {
          var t := ReadIdentifierWithDigits();
          return Ok(t);
        }
        r := ReadNumber();
        return;
      }
      if IsWordStart(c) {
        var t := ReadIdentifier();
        return Ok(t);
      }
      return Err(Error("Unexpected character: " + [c]));
    }

    /** The whole stream: tokens until the end of the text, then Eof. */
    method Tokenize() returns (r: Result<seq<Token>>)
      requires Valid() && pos == 0 && tokens == []
      modifies this
      ensures Valid()
      ensures r == Lex(text)
      ensures r.Ok? ==> tokens == r.value
    {
      while pos < |text|
        invariant Valid()
        invariant LexFrom(text, pos, tokens) == Lex(text)
        decreases |text| - pos
      {
        ghost var p0 := pos;
        var fault := SkipWhitespace();
        if fault {
          return Err(Fault("TypeError: 'in <string>' requires string as left operand, not NoneType"));
        }
        assert StepAt(text, p0, tokens) == DispatchAt(text, pos, tokens);
        var t := NextToken();
        if t.Err? {
          return Err(t.error);
        }
        tokens := tokens + [t.value];
      }
      tokens := tokens + [Token(Eof, NoPayload, line, column)];
      return Ok(tokens);
    }
  }
}
