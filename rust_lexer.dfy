/** The Rust port's lexer (rust/src/lexer.rs). It reads bytes; the model reads characters,
    one per byte. Every token carries its text: numbers and floats their lexeme, booleans
    "true" or "false". When a run of digits turns out to be a number, the reader moves the
    index back to the run's start but leaves the column where the run ended, so every
    column after such a number, up to the next line break, is shifted right by the length
    of the run. The model keeps that shift as a drift added to the true column. */
module RustLexer {
  import opened Wrappers
  import opened Text
  import opened Tokens
  import opened Scanning
  import opened LibLexer
  import PyLexer

  // ---------------------------------------------------------------------------------
  // Specification: what each reader produces from index p with column drift d.
  // ---------------------------------------------------------------------------------

  /** A reader's outcome: the token, the index after it and the drift left behind. */
  datatype Step = Step(tok: Token, next: nat, drift: nat)

  /** The line and column the cursor reports at index p under drift d. */
  function RTokenAt(text: string, p: nat, d: nat, kind: TokenKind, payload: Payload): Token
    requires p <= |text|
  {
    Token(kind, payload, LineAt(text, p), ColAt(text, p) + d)
  }

  function RErrorAt(text: string, p: nat, d: nat, msg: string): Error
    requires p <= |text|
  {
    SyntaxError(msg, LineAt(text, p), ColAt(text, p) + d)
  }

  /** The drift after advancing over text[a..b]: a line break sets the column to 1 and so
      clears it. */
  function DriftOver(text: string, a: nat, b: nat, d: nat): (r: nat)
    requires a <= b <= |text|
    ensures r == 0 || r == d
    ensures (forall k :: a <= k < b ==> text[k] != '\n') ==> r == d
    decreases b
  {
    if b == a then d else if text[b - 1] == '\n' then 0 else DriftOver(text, a, b - 1, d)
  }

  /** read_comment: up to the first ']', trimmed of ASCII white space. */
  function RCommentAt(text: string, p: nat, d: nat): (r: Result<Step>)
    requires p < |text| && text[p] == '['
    ensures r.Ok? ==> p < r.value.next <= |text| && r.value.tok.kind == Comment
    ensures r.Err? ==> r == Err(RErrorAt(text, |text|, DriftOver(text, p, |text|, d), "Unclosed comment"))
  {
    var e := FindFrom(text, p + 1, ']');
    if e == |text| then Err(RErrorAt(text, e, DriftOver(text, p, e, d), "Unclosed comment"))
    else Ok(Step(RTokenAt(text, p, d, Comment, Text(Strip(text[p + 1..e], AsciiSpaces))), e + 1, DriftOver(text, p, e + 1, d)))
  }

  /** read_string: \n, \t, \" and \\ decoded, any other escaped character kept. Both
      failures are reported at the end of the text. */
  function RStringAt(text: string, p: nat, d: nat): (r: Result<Step>)
    requires p < |text| && text[p] == '"'
    ensures r.Ok? ==> p < r.value.next <= |text| && r.value.tok.kind == StringLit
    ensures r.Err? ==> r.error == RErrorAt(text, |text|, DriftOver(text, p, |text|, d), r.error.msg)
  {
    match SimpleQuoted(text, p + 1, '"', [])
    case Closed(s, close) => Ok(Step(RTokenAt(text, p, d, StringLit, Text(s)), close + 1, DriftOver(text, p, close + 1, d)))
    case Unclosed => Err(RErrorAt(text, |text|, DriftOver(text, p, |text|, d), "Unclosed string"))
    case DanglingBackslash => Err(RErrorAt(text, |text|, DriftOver(text, p, |text|, d), "Unexpected end of string after backslash"))
  }

  /** read_multiline_string: the raw slice up to the next single quote. */
  function RMultilineAt(text: string, p: nat, d: nat): (r: Result<Step>)
    requires p < |text| && text[p] == '\''
    ensures r.Ok? ==> p < r.value.next <= |text| && r.value.tok.kind == MultilineLit
    ensures r.Err? ==> r == Err(RErrorAt(text, |text|, DriftOver(text, p, |text|, d), "Unclosed multiline string"))
  {
    var q := RawQuoted(text, p + 1, '\'');
    if q.Closed? then Ok(Step(RTokenAt(text, p, d, MultilineLit, Text(q.s)), q.close + 1, DriftOver(text, p, q.close + 1, d)))
    else Err(RErrorAt(text, |text|, DriftOver(text, p, |text|, d), "Unclosed multiline string"))
  }

  /** read_number: an optional '-' that must be followed by a digit, then digits and at most
      one dot. The token keeps its text; it is a Float exactly when a dot was read. */
  function RNumberAt(text: string, p: nat, d: nat): (r: Result<Step>)
    requires p <= |text|
    ensures r.Ok? ==> p <= r.value.next <= |text| && r.value.drift == d
    ensures r.Ok? ==> r.value.tok == RTokenAt(text, p, d, r.value.tok.kind, Text(text[p..r.value.next]))
    ensures r.Ok? ==> r.value.tok.kind == NumberLit || r.value.tok.kind == FloatLit
  {
    var neg := p < |text| && text[p] == '-';
    var b := if neg then p + 1 else p;
    if neg && (b == |text| || !IsDigit(text[b])) then Err(RErrorAt(text, b, d, "Expected digit after '-'"))
    else
      var nb := ScanNumberBody(text, b, false, false);
      var kind := if nb.hasDot then FloatLit else NumberLit;
      Ok(Step(RTokenAt(text, p, d, kind, Text(text[p..nb.end])), nb.end, d))
  }

  /** read_identifier_or_number, at a digit: digits followed by a letter or '_' make one
      identifier; otherwise the number reader starts again at the run's start, with the
      column still where the run ended. */
  function RIdentOrNumberAt(text: string, p: nat, d: nat): (r: Result<Step>)
    requires p < |text| && IsDigit(text[p])
    ensures r.Ok? ==> p < r.value.next <= |text|
    ensures r.Ok? ==> r.value.tok.kind == Identifier || r.value.tok.kind == NumberLit || r.value.tok.kind == FloatLit
  {
    var e := RunEnd(text, p, IsDigit);
    if e < |text| && IsWordStart(text[e]) then
      var w := RunEnd(text, e, IsWordChar);
      Ok(Step(RTokenAt(text, p, d, Identifier, Text(text[p..w])), w, d))
    else
      RNumberAt(text, p, d + (e - p))
  }

  /** read_identifier: the eight type tags, the four boolean words as "true" or "false", and
      any other word as an identifier. */
  function RIdentifierAt(text: string, p: nat, d: nat): (r: Step)
    requires p <= |text|
    ensures p <= r.next <= |text| && r.drift == d
    ensures r.tok.kind !in {LBracket, RBracket, PlainLit}
  {
    var e := RunEnd(text, p, IsWordChar);
    var w := text[p..e];
    var tok :=
      match KeywordKind(w)
      case Some(k) => RTokenAt(text, p, d, k, Text(w))
      case None =>
        match BoolWord(w)
        case Some(b) => RTokenAt(text, p, d, BooleanLit, Text(if b then "true" else "false"))
        case None => RTokenAt(text, p, d, Identifier, Text(w));
    Step(tok, e, d)
  }

  /** The match of tokenize on the character at index q (blanks already skipped). */
  function RDispatchAt(text: string, q: nat, d: nat): (r: Result<Step>)
    requires q < |text|
    ensures r.Ok? ==> q < r.value.next <= |text| && r.value.tok.kind !in {Eof, LBracket, RBracket, PlainLit}
  {
    var c := text[q];
    if c == '[' then RCommentAt(text, q, d)
    else if c == '\n' then Ok(Step(RTokenAt(text, q, d, Newline, Text("\n")), q + 1, 0))
    else if c == ':' && q + 1 < |text| && text[q + 1] == ':' then Ok(Step(RTokenAt(text, q, d, DoubleColon, Text("::")), q + 2, d))
    else if IsPunct(c) then Ok(Step(RTokenAt(text, q, d, PunctKind(c), Text([c])), q + 1, d))
    else if c == '"' then RStringAt(text, q, d)
    else if c == '\'' then RMultilineAt(text, q, d)
    else if c == '-' && q + 1 < |text| && IsDigit(text[q + 1]) then RNumberAt(text, q, d)
    else if IsDigit(c) then RIdentOrNumberAt(text, q, d)
    else if IsWordStart(c) then Ok(RIdentifierAt(text, q, d))
    else Err(RErrorAt(text, q, d, "Unexpected character"))
  }

  /** The token stream from index p with drift d, after the tokens toks already emitted.
      Blanks up to the end of the text end the stream. */
  function RLexFrom(text: string, p: nat, d: nat, toks: seq<Token>): (r: Result<seq<Token>>)
    requires p <= |text|
    ensures r.Ok? ==> |r.value| > |toks| && r.value[..|toks|] == toks
    ensures r.Ok? ==> var last := r.value[|r.value| - 1];
      last.kind == Eof && last.payload == NoPayload && last.line == LineAt(text, |text|)
    ensures r.Ok? ==> forall i :: |toks| <= i < |r.value| - 1 ==> r.value[i].kind !in {Eof, LBracket, RBracket, PlainLit}
    decreases |text| - p
  {
    var q := RunEnd(text, p, IsBlank);
    if q == |text| then Ok(toks + [RTokenAt(text, q, d, Eof, NoPayload)])
    else
      match RDispatchAt(text, q, d)
      case Err(e) => Err(e)
      case Ok(s) =>
        var r := RLexFrom(text, s.next, s.drift, toks + [s.tok]);
        assert r.Ok? ==> r.value[..|toks|] == (toks + [s.tok])[..|toks|];
        assert r.Ok? ==> r.value[|toks|] == s.tok by {
          if r.Ok? { assert r.value[|toks|] == (toks + [s.tok])[|toks|]; }
        }
        r
  }

  function RLex(text: string): Result<seq<Token>>
  {
    RLexFrom(text, 0, 0, [])
  }

  // ---------------------------------------------------------------------------------
  // Properties of the specification.
  // ---------------------------------------------------------------------------------

  /** The stream ends with exactly one Eof, on the last line, and holds no bracket token
      and no plain string. */
  lemma RLexShape(text: string)
    requires RLex(text).Ok?
    ensures EndsWithSingleEof(RLex(text).value)
    ensures forall i :: 0 <= i < |RLex(text).value| ==> RLex(text).value[i].kind !in {LBracket, RBracket, PlainLit}
    ensures RLex(text).value[|RLex(text).value| - 1].line == LineAt(text, |text|)
  {
  }

  /** '[' always opens a comment, and a missing ']' is reported at the end of the text. */
  lemma BracketIsComment(text: string, q: nat, d: nat)
    requires q < |text| && text[q] == '['
    ensures RDispatchAt(text, q, d) == RCommentAt(text, q, d)
    ensures ']' !in text[q + 1..] ==>
      RDispatchAt(text, q, d) == Err(RErrorAt(text, |text|, DriftOver(text, q, |text|, d), "Unclosed comment"))
    ensures ']' in text[q + 1..] ==> RDispatchAt(text, q, d).Ok? && RDispatchAt(text, q, d).value.tok.kind == Comment
  {
    assert forall k :: q + 1 <= k < |text| ==> text[k] == text[q + 1..][k - q - 1];
  }

  /** Any byte that starts no token, ']' and a lone ':' among them, is rejected where it
      stands. */
  lemma UnexpectedCharacter(text: string, q: nat, d: nat)
    requires q < |text|
    requires var c := text[q];
      c !in "[\n\"'{}(),-" && !IsDigit(c) && !IsWordStart(c) && (c == ':' ==> q + 1 == |text| || text[q + 1] != ':')
    ensures RDispatchAt(text, q, d) == Err(RErrorAt(text, q, d, "Unexpected character"))
  {
    var c := text[q];
    assert c != '[' && c != '\n' && c != '"' && c != '\'' && c != '-';
    assert !IsPunct(c) by {
      assert c != '{' && c != '}' && c != '(' && c != ')' && c != ',';
    }
  }

  /** A number is a float exactly when its text holds a dot, and then it holds one; its text
      is kept as written. A '-' not followed by a digit is an error after the '-'. */
  lemma RNumberKinds(text: string, p: nat, d: nat)
    requires p <= |text|
    ensures p < |text| && text[p] == '-' && (p + 1 == |text| || !IsDigit(text[p + 1])) ==>
      RNumberAt(text, p, d) == Err(RErrorAt(text, p + 1, d, "Expected digit after '-'"))
    ensures RNumberAt(text, p, d).Ok? ==> var s := RNumberAt(text, p, d).value; var lexeme := text[p..s.next];
      s.tok.payload == Text(lexeme) &&
      (s.tok.kind == FloatLit <==> '.' in lexeme) &&
      (forall a :: p <= a < s.next && text[a] == '.' ==> '.' !in text[a + 1..s.next])
  {
    if RNumberAt(text, p, d).Ok? {
      var s := RNumberAt(text, p, d).value;
      var neg := p < |text| && text[p] == '-';
      var b := if neg then p + 1 else p;
      NumberBodyFlags(text, b, false, false);
      assert text[p..s.next] == text[p..b] + text[b..s.next];
      assert '.' !in text[p..b];
      forall a | p <= a < s.next && text[a] == '.' ensures '.' !in text[a + 1..s.next] {
        NumberHasOneDot(text, b, false, false, a);
      }
    }
  }

  /** Digits followed by a letter or '_' are one identifier token with the whole word. */
  lemma DigitsThenLetterIsIdentifier(text: string, q: nat, d: nat)
    requires q < |text| && IsDigit(text[q])
    requires var e := RunEnd(text, q, IsDigit); e < |text| && IsWordStart(text[e])
    ensures var w := RunEnd(text, q, IsWordChar);
      RDispatchAt(text, q, d) == Ok(Step(RTokenAt(text, q, d, Identifier, Text(text[q..w])), w, d))
  {
    var e := RunEnd(text, q, IsDigit);
    RunOfWordChars(text, q, e);
  }

  lemma {:induction false} RunOfWordChars(text: string, q: nat, e: nat)
    requires q <= e <= |text| && forall k :: q <= k < e ==> IsDigit(text[k])
    ensures RunEnd(text, q, IsWordChar) == RunEnd(text, e, IsWordChar)
    decreases e - q
  {
    if q < e {
      RunOfWordChars(text, q + 1, e);
    }
  }

  /** The rewind: a run of k digits that is a number is read with the column k places too
      far right, and the drift grows by k until the next line break. */
  lemma NumberColumnShift(text: string, q: nat, d: nat)
    requires q < |text| && IsDigit(text[q])
    requires var e := RunEnd(text, q, IsDigit); e == |text| || !IsWordStart(text[e])
    ensures var k := RunEnd(text, q, IsDigit) - q;
      RDispatchAt(text, q, d).Ok? &&
      RDispatchAt(text, q, d).value.tok.col == ColAt(text, q) + d + k &&
      RDispatchAt(text, q, d).value.drift == d + k
  {
  }

  /** A line break clears the drift: the next line's columns are exact again. */
  lemma NewlineClearsDrift(text: string, q: nat, d: nat)
    requires q < |text| && text[q] == '\n'
    ensures RDispatchAt(text, q, d) == Ok(Step(RTokenAt(text, q, d, Newline, Text("\n")), q + 1, 0))
    ensures ColAt(text, q + 1) + 0 == 1
  {
  }

  /** "1 a": the number is reported at column 2 instead of 1, and the identifier at column 4
      instead of 3. */
  lemma ShiftedColumnsExample()
    ensures RLex("1 a") == Ok([Token(NumberLit, Text("1"), 1, 2), Token(Identifier, Text("a"), 1, 4), Token(Eof, NoPayload, 1, 5)])
  {
    var text := "1 a";
    assert RunEnd(text, 0, IsDigit) == 1;
    assert ScanNumberBody(text, 0, false, false) == NumberBody(1, false, true);
    assert text[0..1] == "1";
    var s1 := RDispatchAt(text, 0, 0).value;
    assert s1 == Step(Token(NumberLit, Text("1"), 1, 2), 1, 1);
    assert RunEnd(text, 1, IsBlank) == 2;
    assert RunEnd(text, 2, IsWordChar) == 3;
    assert text[2..3] == "a";
    assert KeywordKind("a") == None && BoolWord("a") == None;
    var s2 := RDispatchAt(text, 2, 1).value;
    assert s2 == Step(Token(Identifier, Text("a"), 1, 4), 3, 1);
    assert ColAt(text, 1) == 2 && ColAt(text, 2) == 3 && ColAt(text, 3) == 4;
    assert LineAt(text, 1) == 1 && LineAt(text, 2) == 1 && LineAt(text, 3) == 1;
    assert RunEnd(text, 3, IsBlank) == 3;
    assert RTokenAt(text, 3, 1, Eof, NoPayload) == Token(Eof, NoPayload, 1, 5);
    var t1, t2, t3 := Token(NumberLit, Text("1"), 1, 2), Token(Identifier, Text("a"), 1, 4), Token(Eof, NoPayload, 1, 5);
    assert [t1, t2] + [t3] == [t1, t2, t3];
    assert RLexFrom(text, 3, 1, [t1, t2]) == Ok([t1, t2, t3]);
    assert [t1] + [t2] == [t1, t2];
    assert RLexFrom(text, 1, 1, [t1]) == RLexFrom(text, 3, 1, [t1, t2]);
    assert [] + [t1] == [t1];
    assert RLexFrom(text, 0, 0, []) == RLexFrom(text, 1, 1, [t1]);
  }

  /** The boolean words are normalised: true and yes give "true", false and no give
      "false"; the type tags are keywords carrying their own spelling. */
  lemma BooleanWords(text: string, q: nat, d: nat)
    requires q <= |text|
    ensures var s := RIdentifierAt(text, q, d); var w := text[q..s.next];
      (s.tok.kind == BooleanLit <==> w in {"true", "yes", "false", "no"}) &&
      (s.tok.kind == BooleanLit ==> s.tok.payload == Text(if w in {"true", "yes"} then "true" else "false")) &&
      (IsTypeKeyword(s.tok.kind) <==> KeywordKind(w).Some?) &&
      (s.tok.kind == Identifier ==> s.tok.payload == Text(w))
  {
  }

  /** Round trip of the one-line string form: Escape(s) between double quotes reads back as
      s. */
  lemma RustEscapedStringReadsBack(pre: string, s: string, post: string, d: nat)
    ensures var text := pre + "\"" + Escape(s) + "\"" + post;
      RStringAt(text, |pre|, d).Ok? && RStringAt(text, |pre|, d).value.tok == RTokenAt(text, |pre|, d, StringLit, Text(s)) &&
      RStringAt(text, |pre|, d).value.next == |pre| + |Escape(s)| + 2
  {
    var text := pre + "\"" + Escape(s) + "\"" + post;
    EscapeIsEscapeEach(s);
    assert text[|pre|] == '"';
    PyLexer.SimpleQuotedReadsEscaped(pre + "\"", s, post, []);
    assert [] + s == s;
  }

  /** Round trip of the raw form: any s without a single quote reads back verbatim. */
  lemma RustRawStringReadsBack(text: string, p: nat, d: nat, s: string)
    requires p + |s| + 1 < |text| && text[p] == '\'' && '\'' !in s
    requires text[p + 1..p + 1 + |s|] == s && text[p + 1 + |s|] == '\''
    ensures RMultilineAt(text, p, d).Ok? && RMultilineAt(text, p, d).value.tok == RTokenAt(text, p, d, MultilineLit, Text(s))
    ensures RMultilineAt(text, p, d).value.next == p + |s| + 2
  {
    assert forall k :: p + 1 <= k < p + 1 + |s| ==> text[k] == s[k - p - 1];
  }

  // ---------------------------------------------------------------------------------
  // The lexer as the port runs it.
  // ---------------------------------------------------------------------------------

  /** What a reader did, against what the specification says it does: on success the token
      was pushed and the cursor and drift moved as specified. */
  predicate Emitted(r: Result<()>, s: Result<Step>, before: seq<Token>, after: seq<Token>, pos: nat, drift: nat)
  {
    match s
    case Ok(st) => r == Ok(()) && after == before + [st.tok] && pos == st.next && drift == st.drift
    case Err(e) => r == Err(e)
  }

  class Lexer {
    const text: string
    var pos: nat
    var line: int
    var col: int
    var tokens: seq<Token>
    /** How far right of the true column the cursor's column is. */
    ghost var drift: nat

    ghost predicate Valid()
      reads this
    {
      pos <= |text| && line == LineAt(text, pos) && col == ColAt(text, pos) + drift
    }

    constructor (text: string)
      ensures Valid() && this.text == text && pos == 0 && drift == 0 && tokens == []
    {
      this.text := text;
      pos := 0;
      line := 1;
      col := 1;
      tokens := [];
      drift := 0;
    }

    function Peek(off: nat): (c: Option<char>)
      reads this
      ensures c.Some? <==> pos + off < |text|
      ensures c.Some? ==> c.value == text[pos + off]
    {
      if pos + off < |text| then Some(text[pos + off]) else None
    }

    /** Consume one byte: a line break moves to column 1 of the next line (and clears the
        drift), any other byte one column right. */
    method Advance() returns (c: Option<char>)
      requires Valid()
      modifies this
      ensures Valid() && tokens == old(tokens)
      ensures old(pos) < |text| ==> (c == Some(text[old(pos)]) && pos == old(pos) + 1 &&
        drift == (if text[old(pos)] == '\n' then 0 else old(drift)))
      ensures old(pos) == |text| ==> c.None? && pos == old(pos) && drift == old(drift) && col == old(col)
    {
      if pos < |text| {
        var b := text[pos];
        pos := pos + 1;
        if b == '\n' {
          line := line + 1;
          col := 1;
          drift := 0;
        } else {
          col := col + 1;
        }
        return Some(b);
      }
      return None;
    }

    method Add(t: TokenKind, value: Payload, line: int, col: int)
      modifies this
      ensures tokens == old(tokens) + [Token(t, value, line, col)]
      ensures pos == old(pos) && this.line == old(this.line) && this.col == old(this.col) && drift == old(drift)
    {
      tokens := tokens + [Token(t, value, line, col)];
    }

    method SkipWs()
      requires Valid()
      modifies this
      ensures Valid() && tokens == old(tokens) && drift == old(drift)
      ensures pos == RunEnd(text, old(pos), IsBlank)
    {
      while Peek(0).Some? && IsBlank(Peek(0).value)
        invariant Valid() && tokens == old(tokens) && drift == old(drift) && old(pos) <= pos
        invariant RunEnd(text, pos, IsBlank) == RunEnd(text, old(pos), IsBlank)
        decreases |text| - pos
      {
        var _ := Advance();
      }
    }

    function Error(msg: string): (e: Error)
      reads this
      ensures Valid() ==> e == RErrorAt(text, pos, drift, msg)
    {
      SyntaxError(msg, line, col)
    }

    /** The loop of read_comment and read_multiline_string: advance until the byte c or the
        end of the text. The drift is that of advancing from index from with drift d0. */
    method SkipUntil(c: char, ghost from: nat, ghost d0: nat)
      requires Valid() && from <= pos && drift == DriftOver(text, from, pos, d0)
      modifies this
      ensures Valid() && tokens == old(tokens)
      ensures pos == FindFrom(text, old(pos), c) && drift == DriftOver(text, from, pos, d0)
    {
      while Peek(0).Some? && Peek(0).value != c
        invariant Valid() && tokens == old(tokens) && old(pos) <= pos
        invariant FindFrom(text, pos, c) == FindFrom(text, old(pos), c)
        invariant drift == DriftOver(text, from, pos, d0)
        decreases |text| - pos
      {
        var _ := Advance();
      }
    }

    method ReadComment() returns (r: Result<()>)
      requires Valid() && pos < |text| && text[pos] == '['
      modifies this
      ensures Valid()
      ensures Emitted(r, RCommentAt(text, old(pos), old(drift)), old(tokens), tokens, pos, drift)
    {
      var line, col := this.line, this.col;
      ghost var spec := RCommentAt(text, old(pos), old(drift));
      var _ := Advance();
      var start := pos;
      SkipUntil(']', old(pos), old(drift));
      if Peek(0) != Some(']') {
        assert spec == Err(RErrorAt(text, pos, drift, "Unclosed comment"));
        return Err(Error("Unclosed comment"));
      }
      var s := text[start..pos];
      ghost var e := pos;
      ghost var tok := RTokenAt(text, old(pos), old(drift), Comment, Text(Strip(s, AsciiSpaces)));
      assert spec == Ok(Step(tok, e + 1, DriftOver(text, old(pos), e + 1, old(drift))));
      var _ := Advance();
      assert pos == e + 1 && drift == DriftOver(text, old(pos), e + 1, old(drift));
      assert line == tok.line && col == tok.col;
      Add(Comment, Text(Strip(s, AsciiSpaces)), line, col);
      return Ok(());
    }

    method ReadString() returns (r: Result<()>)
      requires Valid() && pos < |text| && text[pos] == '"'
      modifies this
      ensures Valid()
      ensures Emitted(r, RStringAt(text, old(pos), old(drift)), old(tokens), tokens, pos, drift)
    {
      var line, col := this.line, this.col;
      var _ := Advance();
      var out := "";
      while Peek(0).Some? && Peek(0).value != '"'
        invariant Valid() && tokens == old(tokens) && old(pos) < pos
        invariant drift == DriftOver(text, old(pos), pos, old(drift))
        invariant SimpleQuoted(text, pos, '"', out) == SimpleQuoted(text, old(pos) + 1, '"', [])
        decreases |text| - pos
      {
        var ch := Advance();
        if ch.value == '\\' {
          var x := Peek(0);
          if x.None? {
            return Err(Error("Unexpected end of string after backslash"));
          }
          out := out + [SimpleEscape(x.value)];
          var _ := Advance();
        } else {
          out := out + [ch.value];
        }
      }
      if Peek(0) != Some('"') {
        return Err(Error("Unclosed string"));
      }
      var _ := Advance();
      Add(StringLit, Text(out), line, col);
      return Ok(());
    }

    method ReadMultilineString() returns (r: Result<()>)
      requires Valid() && pos < |text| && text[pos] == '\''
      modifies this
      ensures Valid()
      ensures Emitted(r, RMultilineAt(text, old(pos), old(drift)), old(tokens), tokens, pos, drift)
    {
      var line, col := this.line, this.col;
      ghost var spec := RMultilineAt(text, old(pos), old(drift));
      var _ := Advance();
      var start := pos;
      SkipUntil('\'', old(pos), old(drift));
      if Peek(0) != Some('\'') {
        assert spec == Err(RErrorAt(text, pos, drift, "Unclosed multiline string"));
        return Err(Error("Unclosed multiline string"));
      }
      var s := text[start..pos];
      ghost var e := pos;
      ghost var tok := RTokenAt(text, old(pos), old(drift), MultilineLit, Text(s));
      assert spec == Ok(Step(tok, e + 1, DriftOver(text, old(pos), e + 1, old(drift))));
      var _ := Advance();
      assert pos == e + 1 && drift == DriftOver(text, old(pos), e + 1, old(drift));
      assert line == tok.line && col == tok.col;
      Add(MultilineLit, Text(s), line, col);
      return Ok(());
    }

    method ReadNumber() returns (r: Result<()>)
      requires Valid()
      modifies this
      ensures Valid()
      ensures Emitted(r, RNumberAt(text, old(pos), old(drift)), old(tokens), tokens, pos, drift)
    {
      var line, col := this.line, this.col;
      ghost var spec := RNumberAt(text, old(pos), old(drift));
      var buf := "";
      if Peek(0) == Some('-') {
        buf := buf + ['-'];
        var _ := Advance();
        if Peek(0).None? || !IsDigit(Peek(0).value) {
          assert spec == Err(RErrorAt(text, pos, drift, "Expected digit after '-'"));
          return Err(Error("Expected digit after '-'"));
        }
      }
      assert buf == text[old(pos)..pos];
      ghost var nb := ScanNumberBody(text, pos, false, false);
      var body, hasDot := ReadNumberBody();
      assert text[old(pos)..pos] == buf + body;
      buf := buf + body;
      assert spec == Ok(Step(RTokenAt(text, old(pos), old(drift), if nb.hasDot then FloatLit else NumberLit, Text(buf)), pos, drift));
      if hasDot {
        Add(FloatLit, Text(buf), line, col);
      } else {
        Add(NumberLit, Text(buf), line, col);
      }
      return Ok(());
    }

    /** The digits-and-dot loop of read_number: it stops at any other byte and at a second
        dot. */
    method ReadNumberBody() returns (body: string, hasDot: bool)
      requires Valid()
      modifies this
      ensures Valid() && tokens == old(tokens) && drift == old(drift)
      ensures var nb := ScanNumberBody(text, old(pos), false, false); pos == nb.end && hasDot == nb.hasDot
      ensures body == text[old(pos)..pos]
    {
      body := "";
      hasDot := false;
      ghost var seen := false;
      while Peek(0).Some?
        invariant Valid() && tokens == old(tokens) && drift == old(drift) && old(pos) <= pos
        invariant ScanNumberBody(text, pos, hasDot, seen) == ScanNumberBody(text, old(pos), false, false)
        invariant body == text[old(pos)..pos]
        decreases |text| - pos
      {
        var c := Peek(0).value;
        ghost var p0 := pos;
        assert text[old(pos)..p0 + 1] == text[old(pos)..p0] + [c];
        if IsDigit(c) {
          body := body + [c];
          var _ := Advance();
          seen := true;
        } else if c == '.' {
          if hasDot {
            break;
          }
          hasDot := true;
          body := body + ['.'];
          var _ := Advance();
        } else {
          break;
        }
      }
    }

    /** The first loop of read_identifier_or_number: past the run of digits. */
    method SkipDigits()
      requires Valid()
      modifies this
      ensures Valid() && tokens == old(tokens) && drift == old(drift)
      ensures pos == RunEnd(text, old(pos), IsDigit)
    {
      while Peek(0).Some?
        invariant Valid() && tokens == old(tokens) && drift == old(drift) && old(pos) <= pos
        invariant RunEnd(text, pos, IsDigit) == RunEnd(text, old(pos), IsDigit)
        decreases |text| - pos
      {
        if IsDigit(Peek(0).value) {
          var _ := Advance();
        } else {
          break;
        }
      }
    }

    /** The second loop: the word goes on with letters, digits, '_' and '-'; s is what the
        word holds so far. */
    method ExtendWord(s: string) returns (word: string)
      requires Valid()
      modifies this
      ensures Valid() && tokens == old(tokens) && drift == old(drift)
      ensures pos == RunEnd(text, old(pos), IsWordChar) && word == s + text[old(pos)..pos]
    {
      word := s;
      while Peek(0).Some?
        invariant Valid() && tokens == old(tokens) && drift == old(drift) && old(pos) <= pos
        invariant RunEnd(text, pos, IsWordChar) == RunEnd(text, old(pos), IsWordChar)
        invariant word == s + text[old(pos)..pos]
        decreases |text| - pos
      {
        var ch := Peek(0).value;
        if IsWordChar(ch) {
          assert text[old(pos)..pos + 1] == text[old(pos)..pos] + [ch];
          word := word + [ch];
          var _ := Advance();
        } else {
          break;
        }
      }
    }

    method ReadIdentifierOrNumber() returns (r: Result<()>)
      requires Valid() && pos < |text| && IsDigit(text[pos])
      modifies this
      ensures Valid()
      ensures Emitted(r, RIdentOrNumberAt(text, old(pos), old(drift)), old(tokens), tokens, pos, drift)
    {
      var line, col := this.line, this.col;
      var start := pos;
      ghost var spec := RIdentOrNumberAt(text, old(pos), old(drift));
      SkipDigits();
      if Peek(0).Some? {
        var b := Peek(0).value;
        if IsAlpha(b) || b == '_' {
          ghost var e := pos;
          var s := ExtendWord(text[start..pos]);
          assert s == text[start..pos];
          assert spec == Ok(Step(RTokenAt(text, start, old(drift), Identifier, Text(s)), pos, drift));
          Add(Identifier, Text(s), line, col);
          return Ok(());
        }
      }
      // number
      assert spec == RNumberAt(text, start, old(drift) + (pos - start));
      ColumnCountsFromLineStart(text, pos, pos - start);
      drift := drift + (pos - start);
      pos := start;
      r := ReadNumber();
    }

    method ReadIdentifier() returns (r: Result<()>)
      requires Valid()
      modifies this
      ensures Valid()
      ensures Emitted(r, Ok(RIdentifierAt(text, old(pos), old(drift))), old(tokens), tokens, pos, drift)
    {
      var line, col := this.line, this.col;
      ghost var spec := RIdentifierAt(text, old(pos), old(drift));
      var s := ExtendWord("");
      assert s == text[old(pos)..pos];
      assert spec.next == pos && spec.drift == drift;
      var t := match KeywordKind(s) case Some(k) => k case None => if BoolWord(s).Some? then BooleanLit else Identifier;
      if t == BooleanLit {
        var val := if s == "true" || s == "yes" then "true" else "false";
        assert spec.tok == Token(BooleanLit, Text(val), line, col);
        Add(BooleanLit, Text(val), line, col);
      } else {
        assert spec.tok == Token(t, Text(s), line, col);
        Add(t, Text(s), line, col);
      }
      return Ok(());
    }

    /** The token at the cursor (blanks already skipped). */
    method Dispatch() returns (r: Result<()>)
      requires Valid() && pos < |text|
      modifies this
      ensures Valid()
      ensures Emitted(r, RDispatchAt(text, old(pos), old(drift)), old(tokens), tokens, pos, drift)
    {
      var c := text[pos];
      if c == '[' {
        r := ReadComment();
      } else if c == '\n' {
        var l, cl := line, col;
        Add(Newline, Text("\n"), l, cl);
        var _ := Advance();
        r := Ok(());
      } else if c == ':' && Peek(1) == Some(':') {
        var l, cl := line, col;
        var _ := Advance();
        var _ := Advance();
        Add(DoubleColon, Text("::"), l, cl);
        r := Ok(());
      } else if IsPunct(c) {
        var l, cl := line, col;
        var _ := Advance();
        Add(PunctKind(c), Text([c]), l, cl);
        r := Ok(());
      } else if c == '"' {
        r := ReadString();
      } else if c == '\'' {
        r := ReadMultilineString();
      } else if c == '-' && Peek(1).Some? && IsDigit(Peek(1).value) {
        r := ReadNumber();
      } else if IsDigit(c) {
        r := ReadIdentifierOrNumber();
      } else if IsAlpha(c) || c == '_' {
        r := ReadIdentifier();
      } else {
        r := Err(Error("Unexpected character"));
      }
    }

    /** One turn of the tokenize loop: skip blanks, then read one token, unless the blanks
        ran to the end of the text. */
    method Turn() returns (done: bool, r: Result<()>)
      requires Valid() && pos < |text|
      modifies this
      ensures Valid()
      ensures done ==> r.Ok? && pos == |text| && RLexFrom(text, old(pos), old(drift), old(tokens)) == Ok(tokens + [Token(Eof, NoPayload, line, col)])
      ensures !done && r.Ok? ==> old(pos) < pos && RLexFrom(text, old(pos), old(drift), old(tokens)) == RLexFrom(text, pos, drift, tokens)
      ensures r.Err? ==> RLexFrom(text, old(pos), old(drift), old(tokens)) == Err(r.error)
    {
      SkipWs();
      if pos >= |text| {
        return true, Ok(());
      }
      r := Dispatch();
      done := false;
    }

    /** tokenize: tokens until the text is used up, then one Eof at the cursor. */
    method Tokenize() returns (r: Result<seq<Token>>)
      requires Valid() && pos == 0 && drift == 0 && tokens == []
      modifies this
      ensures r == RLex(text)
    {
      while pos < |text|
        invariant Valid()
        invariant RLexFrom(text, pos, drift, tokens) == RLex(text)
        decreases |text| - pos
      {
        var done, t := Turn();
        if done {
          Add(Eof, NoPayload, line, col);
          return Ok(tokens);
        }
        if t.Err? {
          return Err(t.error);
        }
      }
      Add(Eof, NoPayload, line, col);
      return Ok(tokens);
    }
  }
}
