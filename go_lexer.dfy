/** The Go port's lexer (go/lexer.go). Its readers follow the Python port's rules (every '['
    opens a comment, "..." knows the escapes \n and \t, '...' is raw), with three
    differences: peek reads a NUL byte as the end of the text, so nothing after the first
    NUL is read; comments are trimmed of ASCII white space; and numbers are converted in the
    lexer, an integer outside int64 or a float beyond float64 being a syntax error. */
module GoLexer {
  import opened Wrappers
  import opened Text
  import opened Tokens
  import opened Scanning
  import opened LibLexer
  import opened PyLexer

  // ---------------------------------------------------------------------------------
  // Specification: what each reader produces from index p of the visible text.
  // ---------------------------------------------------------------------------------

  /** The part of the text the lexer reads: everything before the first NUL byte. */
  function Visible(text: string): (r: string)
    ensures |r| <= |text| && '\0' !in r && r == text[..|r|]
    ensures |r| < |text| ==> text[|r|] == '\0'
  {
    var e := FindFrom(text, 0, '\0');
    assert forall k :: 0 <= k < e ==> text[..e][k] == text[k];
    text[..e]
  }

  /** strconv.ParseFloat reports a range error from 2^1024 - 2^970 on: everything from there
      rounds to infinity. */
  const F64Overflow: int := 179769313486231580793728971405303415079934132710037826936173778980444968292764750946649017977587207096330286416692887910946555547851940402630657488671505820681908902000708383676273854845817711531764475730270069855571366959622842914819860834936475292719074168444365510704342711559699508093042880177904174497792

  /** The value of the digits at the start of s, added to acc * 10^k. */
  function LeadingValue(s: string, acc: nat): nat
  {
    if s == [] || !IsDigit(s[0]) then acc else LeadingValue(s[1..], acc * 10 + (s[0] as int - '0' as int))
  }

  /** The integer part of a float lexeme, without its sign. */
  function IntPart(lexeme: string): nat
  {
    LeadingValue(if |lexeme| > 0 && lexeme[0] == '-' then lexeme[1..] else lexeme, 0)
  }

  /** The magnitude is out of float64's range exactly when the integer part is: the bound is
      itself an integer. */
  predicate FloatOverflows(lexeme: string) { IntPart(lexeme) >= F64Overflow }

  /** "[...]" up to the first ']', trimmed like strings.TrimSpace. */
  function GoCommentAt(text: string, p: nat): (r: Result<Scan>)
    requires p < |text| && text[p] == '['
    ensures r.Ok? ==> p < r.value.next <= |text| && r.value.tok.kind == Comment
    ensures r.Err? ==> r == Err(ErrorAt(text, |text|, "Unclosed comment"))
  {
    var e := FindFrom(text, p + 1, ']');
    if e == |text| then Err(ErrorAt(text, e, "Unclosed comment"))
    else Ok(Scan(TokenAt(text, p, Comment, Text(Strip(text[p + 1..e], AsciiSpaces))), e + 1))
  }

  /** A number: an optional '-', then digits with at most one dot. With a dot the token is a
      float keeping its text; otherwise it carries the integer, which must fit in int64. */
  function GoNumberAt(text: string, p: nat): (r: Result<Scan>)
    requires p <= |text|
    ensures r.Ok? ==> p < r.value.next <= |text|
    ensures r.Ok? ==> (r.value.tok.kind == FloatLit ||
      (r.value.tok.kind == NumberLit && r.value.tok.payload.IntVal? && InI64(r.value.tok.payload.i)))
  {
    var neg := p < |text| && text[p] == '-';
    var b := if neg then p + 1 else p;
    if neg && (b == |text| || !IsDigit(text[b])) then Err(ErrorAt(text, b, "Expected digit after '-'"))
    else
      var nb := ScanNumberBody(text, b, false, false);
      var lexeme := text[p..nb.end];
      if nb.hasDot then
        if !HasDigit(lexeme) || FloatOverflows(lexeme) then Err(ErrorAt(text, p, "Invalid float format"))
        else Ok(Scan(TokenAt(text, p, FloatLit, Text(lexeme)), nb.end))
      else if IsIntText(lexeme) && InI64(ParseInt(lexeme)) then
        Ok(Scan(TokenAt(text, p, NumberLit, IntVal(ParseInt(lexeme))), nb.end))
      else Err(ErrorAt(text, p, "Invalid number format"))
  }

  /** The token that starts at index q (blanks already skipped). */
  function GoDispatchAt(text: string, q: nat): (r: Result<Scan>)
    requires q < |text|
    ensures r.Ok? ==> q < r.value.next <= |text|
    ensures r.Ok? ==> r.value.tok.kind !in {Eof, LBracket, RBracket, PlainLit}
  {
    var c := text[q];
    if c == '[' then GoCommentAt(text, q)
    else if c == '\n' then Ok(Scan(TokenAt(text, q, Newline, Text("\n")), q + 1))
    else if c == ':' && q + 1 < |text| && text[q + 1] == ':' then
      Ok(Scan(Token(DoubleColon, Text("::"), LineAt(text, q + 2), ColAt(text, q)), q + 2))
    else if IsPunct(c) then Ok(Scan(Token(PunctKind(c), Text([c]), LineAt(text, q + 1), ColAt(text, q)), q + 1))
    else if c == '"' then PyStringAt(text, q)
    else if c == '\'' then PyMultilineAt(text, q)
    else if c == '-' && q + 1 < |text| && IsDigit(text[q + 1]) then GoNumberAt(text, q)
    else if IsDigit(c) || IsWordStart(c) then
      var e := RunEnd(text, q + 1, IsDigit);
      if IsDigit(c) && !(e < |text| && IsWordStart(text[e])) then GoNumberAt(text, q)
      else
        var s := IdentifierAt(text, q);
        assert s.tok.kind !in {LBracket, RBracket, PlainLit};
        Ok(s)
    else Err(ErrorAt(text, q, "Unexpected character: " + [c]))
  }

  /** The token stream from index p of the visible text on, after the tokens toks already
      emitted: skip blanks, stop at the end, else read a token. */
  function GoLexFrom(text: string, p: nat, toks: seq<Token>): (r: Result<seq<Token>>)
    requires p <= |text|
    ensures r.Ok? ==> |r.value| > |toks| && r.value[..|toks|] == toks
    ensures r.Ok? ==> r.value[|r.value| - 1] == TokenAt(text, |text|, Eof, NoPayload)
    ensures r.Ok? ==> forall i :: |toks| <= i < |r.value| - 1 ==> r.value[i].kind !in {Eof, LBracket, RBracket, PlainLit}
    decreases |text| - p
  {
    var q := RunEnd(text, p, IsBlank);
    if q == |text| then Ok(toks + [TokenAt(text, q, Eof, NoPayload)])
    else
      match GoDispatchAt(text, q)
      case Err(e) => Err(e)
      case Ok(s) =>
        var r := GoLexFrom(text, s.next, toks + [s.tok]);
        if r.Err? then r
        else
          assert r.value[..|toks|] == (toks + [s.tok])[..|toks|];
          assert r.value[|toks|] == (toks + [s.tok])[|toks|] == s.tok;
          r
  }

  /** Tokenize: the visible text's tokens, then Eof. */
  function GoLex(text: string): Result<seq<Token>>
  {
    GoLexFrom(Visible(text), 0, [])
  }

  // ---------------------------------------------------------------------------------
  // Properties of the specification.
  // ---------------------------------------------------------------------------------

  /** The stream ends with exactly one Eof, placed where the visible text ends, and holds no
      bracket token and no plain string. */
  lemma GoLexShape(text: string)
    requires GoLex(text).Ok?
    ensures EndsWithSingleEof(GoLex(text).value)
    ensures var v := Visible(text); GoLex(text).value[|GoLex(text).value| - 1] == TokenAt(v, |v|, Eof, NoPayload)
    ensures forall i :: 0 <= i < |GoLex(text).value| ==> GoLex(text).value[i].kind !in {LBracket, RBracket, PlainLit}
  {
  }

  /** A NUL byte ends the input: whatever follows it is never read. */
  lemma GoLexStopsAtNul(a: string, b: string)
    requires '\0' !in a
    ensures GoLex(a + "\0" + b) == GoLex(a)
  {
    var t := a + "\0" + b;
    var e := FindFrom(t, 0, '\0');
    assert t[|a|] == '\0';
    assert e == |a|;
    assert t[..e] == a;
    var e' := FindFrom(a, 0, '\0');
    assert a[..e'] == a;
  }

  /** '[' always opens a comment, even right after `list`, and a stray ']' is rejected. */
  lemma GoBracketsAreComments(text: string, q: nat)
    requires q < |text| && (text[q] == '[' || text[q] == ']')
    ensures text[q] == '[' ==> GoDispatchAt(text, q) == GoCommentAt(text, q)
    ensures text[q] == ']' ==> GoDispatchAt(text, q) == Err(ErrorAt(text, q, "Unexpected character: ]"))
  {
    if text[q] == ']' {
      assert "Unexpected character: " + [text[q]] == "Unexpected character: ]";
    }
  }

  /** A comment runs to the first ']': with none left the error is at the end of the text. */
  lemma GoUnclosedComment(text: string, q: nat)
    requires q < |text| && text[q] == '[' && ']' !in text[q + 1..]
    ensures GoDispatchAt(text, q) == Err(ErrorAt(text, |text|, "Unclosed comment"))
  {
    assert forall k :: q + 1 <= k < |text| ==> text[k] == text[q + 1..][k - q - 1];
  }

  /** A run of digits followed by a letter or '_' is one identifier token carrying the whole
      word. */
  lemma GoDigitsThenLetterIsIdentifier(text: string, q: nat)
    requires q < |text| && IsDigit(text[q])
    requires var e := RunEnd(text, q + 1, IsDigit); e < |text| && IsWordStart(text[e])
    ensures var e := RunEnd(text, q, IsWordChar);
      GoDispatchAt(text, q) == Ok(Scan(TokenAt(text, q, Identifier, Text(text[q..e])), e))
  {
    var e := RunEnd(text, q, IsWordChar);
    assert IsDigit(text[q..e][0]);
  }

  /** A '-' not followed by a digit starts no token at all. */
  lemma GoMinusNeedsDigit(text: string, q: nat)
    requires q < |text| && text[q] == '-' && !(q + 1 < |text| && IsDigit(text[q + 1]))
    ensures GoDispatchAt(text, q) == Err(ErrorAt(text, q, "Unexpected character: -"))
  {
    assert "Unexpected character: " + [text[q]] == "Unexpected character: -";
  }

  /** An integer literal becomes a number token exactly when it fits in int64; otherwise it
      is "Invalid number format" at its first character. */
  lemma GoIntegerRange(text: string, q: nat, n: nat)
    requires q < n <= |text| && (text[q] == '-' ==> q + 1 < n)
    requires forall k :: q <= k < n ==> IsDigit(text[k]) || (k == q && text[k] == '-')
    requires n < |text| ==> !IsDigit(text[n]) && text[n] != '.'
    ensures IsIntText(text[q..n])
    ensures InI64(ParseInt(text[q..n])) ==>
      GoNumberAt(text, q) == Ok(Scan(TokenAt(text, q, NumberLit, IntVal(ParseInt(text[q..n]))), n))
    ensures !InI64(ParseInt(text[q..n])) ==> GoNumberAt(text, q) == Err(ErrorAt(text, q, "Invalid number format"))
  {
    var b := if text[q] == '-' then q + 1 else q;
    DigitRunScans(text, b, n, false);
    var lexeme := text[q..n];
    if text[q] == '-' {
      assert forall k :: 0 <= k < |lexeme[1..]| ==> lexeme[1..][k] == text[q + 1 + k];
    } else {
      assert forall k :: 0 <= k < |lexeme| ==> lexeme[k] == text[q + k];
    }
  }

  /** A number body made of digits only is scanned to its end without a dot. */
  lemma {:induction false} DigitRunScans(text: string, i: nat, n: nat, digits: bool)
    requires i <= n <= |text| && forall k :: i <= k < n ==> IsDigit(text[k])
    requires n < |text| ==> !IsDigit(text[n]) && text[n] != '.'
    ensures ScanNumberBody(text, i, false, digits) == NumberBody(n, false, digits || i < n)
    decreases n - i
  {
    if i < n {
      DigitRunScans(text, i + 1, n, true);
    }
  }

  /** A float literal is refused, with "Invalid float format" at its first character,
      exactly when its integer part reaches float64's overflow bound. */
  lemma GoFloatRange(text: string, q: nat)
    requires q < |text| && IsDigit(text[q]) && ScanNumberBody(text, q, false, false).hasDot
    ensures var lexeme := text[q..ScanNumberBody(text, q, false, false).end];
      (GoNumberAt(text, q).Ok? <==> !FloatOverflows(lexeme)) &&
      (GoNumberAt(text, q).Ok? ==> GoNumberAt(text, q).value.tok == TokenAt(text, q, FloatLit, Text(lexeme))) &&
      (GoNumberAt(text, q).Err? ==> GoNumberAt(text, q).error == ErrorAt(text, q, "Invalid float format"))
  {
    var nb := ScanNumberBody(text, q, false, false);
    NumberBodyFlags(text, q, false, false);
    assert IsDigit(text[q..nb.end][0]);
  }

  // ---------------------------------------------------------------------------------
  // The lexer as the port runs it: a cursor that advances over the text.
  // ---------------------------------------------------------------------------------

  /** Line and column over the visible text are those over the whole text. */
  lemma VisibleAt(text: string, p: nat)
    requires p <= |Visible(text)|
    ensures LineAt(Visible(text), p) == LineAt(text, p) && ColAt(Visible(text), p) == ColAt(text, p)
  {
    PositionOfPrefix(text, |Visible(text)|, p);
  }

  class Lexer {
    const text: string
    var pos: nat
    var line: int
    var column: int
    var tokens: seq<Token>

    /** The cursor's line and column are always those reached by advancing over text[..pos]. */
    ghost predicate Valid()
      reads this
    {
      pos <= |text| && line == LineAt(text, pos) && column == ColAt(text, pos)
    }

    /** What the lexer can ever read: the text before its first NUL. */
    function Src(): string { Visible(text) }

    /** NewLexer */
    constructor (text: string)
      ensures Valid() && this.text == text && pos == 0 && tokens == []
    {
      this.text := text;
      pos := 0;
      line := 1;
      column := 1;
      tokens := [];
    }

    /** The error raised at the cursor. */
    function Error(msg: string): (e: Error)
      reads this
      ensures Valid() ==> e == SyntaxError(msg, LineAt(text, pos), ColAt(text, pos))
    {
      SyntaxError(msg, line, column)
    }

    /** The character offset places ahead, or NUL past the end: NUL exactly at the end of
        the visible text. */
    function Peek(offset: nat): (c: char)
      reads this
      ensures pos + offset < |Src()| ==> c == Src()[pos + offset] && c != '\0'
      ensures pos + offset == |Src()| ==> c == '\0'
    {
      if pos + offset < |text| then text[pos + offset] else '\0'
    }

    /** Consume one character: a line break moves to column 1 of the next line, any other
        character one column right; at the end nothing changes and NUL is returned. */
    method Advance() returns (c: char)
      requires Valid()
      modifies this
      ensures Valid() && tokens == old(tokens)
      ensures old(pos) < |text| ==>
        c == text[old(pos)] && pos == old(pos) + 1 &&
        (if text[old(pos)] == '\n' then line == old(line) + 1 && column == 1
         else line == old(line) && column == old(column) + 1)
      ensures old(pos) == |text| ==> c == '\0' && pos == old(pos) && line == old(line) && column == old(column)
    {
      if pos < |text| {
        var ch := text[pos];
        pos := pos + 1;
        if ch == '\n' {
          line := line + 1;
          column := 1;
        } else {
          column := column + 1;
        }
        return ch;
      }
      return '\0';
    }

    /** Skip spaces and tabs. */
    method SkipWhitespace()
      requires Valid() && pos <= |Src()|
      modifies this
      ensures Valid() && tokens == old(tokens)
      ensures pos == RunEnd(Src(), old(pos), IsBlank)
    {
      while Peek(0) == ' ' || Peek(0) == '\t'
        invariant Valid() && tokens == old(tokens) && old(pos) <= pos <= |Src()|
        invariant RunEnd(Src(), pos, IsBlank) == RunEnd(Src(), old(pos), IsBlank)
        decreases |text| - pos
      {
        var _ := Advance();
      }
    }

    method ReadComment() returns (r: Result<Token>)
      requires Valid() && pos < |Src()| && Src()[pos] == '['
      modifies this
      ensures Valid() && tokens == old(tokens)
      ensures Agrees(r, GoCommentAt(Src(), old(pos)), pos)
    {
      VisibleAt(text, pos);
      var startLine, startCol := line, column;
      ghost var start := pos;
      ghost var e := FindFrom(Src(), start + 1, ']');
      var _ := Advance();
      var comment := "";
      while Peek(0) != '\0' && Peek(0) != ']'
        invariant Valid() && tokens == old(tokens)
        invariant start + 1 <= pos <= e
        invariant comment == Src()[start + 1..pos]
        decreases |text| - pos
      {
        var c := Advance();
        comment := comment + [c];
      }
      if Peek(0) != ']' {
        assert pos == e == |Src()|;
        VisibleAt(text, pos);
        assert GoCommentAt(Src(), start) == Err(ErrorAt(Src(), pos, "Unclosed comment"));
        return Err(Error("Unclosed comment"));
      }
      assert pos == e;
      var _ := Advance();
      assert GoCommentAt(Src(), start) == Ok(Scan(TokenAt(Src(), start, Comment, Text(Strip(comment, AsciiSpaces))), e + 1));
      return Ok(Token(Comment, Text(Strip(comment, AsciiSpaces)), startLine, startCol));
    }

    method ReadString() returns (r: Result<Token>)
      requires Valid() && pos < |Src()| && Src()[pos] == '"'
      modifies this
      ensures Valid() && tokens == old(tokens)
      ensures Agrees(r, PyStringAt(Src(), old(pos)), pos)
    {
      VisibleAt(text, pos);
      var startLine, startCol := line, column;
      var _ := Advance();
      var s := "";
      while Peek(0) != '\0' && Peek(0) != '"'
        invariant Valid() && tokens == old(tokens) && old(pos) < pos <= |Src()|
        invariant SimpleQuoted(Src(), pos, '"', s) == SimpleQuoted(Src(), old(pos) + 1, '"', [])
        decreases |text| - pos
      {
        if Peek(0) == '\\' {
          var _ := Advance();
          var next := Peek(0);
          if next == '\0' {
            VisibleAt(text, pos);
            return Err(Error("Unexpected end of string after backslash"));
          }
          if next == 'n' {
            s := s + ['\n'];
          } else if next == 't' {
            s := s + ['\t'];
          } else {
            s := s + [next];
          }
          var _ := Advance();
        } else {
          var c := Advance();
          s := s + [c];
        }
      }
      if Peek(0) != '"' {
        VisibleAt(text, pos);
        return Err(Error("Unclosed string"));
      }
      var _ := Advance();
      return Ok(Token(StringLit, Text(s), startLine, startCol));
    }

    method ReadMultilineString() returns (r: Result<Token>)
      requires Valid() && pos < |Src()| && Src()[pos] == '\''
      modifies this
      ensures Valid() && tokens == old(tokens)
      ensures Agrees(r, PyMultilineAt(Src(), old(pos)), pos)
    {
      VisibleAt(text, pos);
      var startLine, startCol := line, column;
      ghost var e := FindFrom(Src(), old(pos) + 1, '\'');
      var _ := Advance();
      var s := "";
      while Peek(0) != '\0' && Peek(0) != '\''
        invariant Valid() && tokens == old(tokens)
        invariant old(pos) + 1 <= pos <= e
        invariant s == Src()[old(pos) + 1..pos]
        decreases |text| - pos
      {
        var c := Advance();
        s := s + [c];
      }
      if Peek(0) != '\'' {
        VisibleAt(text, pos);
        return Err(Error("Unclosed multiline string"));
      }
      var _ := Advance();
      return Ok(Token(MultilineLit, Text(s), startLine, startCol));
    }

    /** The digits-and-dot loop of readNumber: it stops at the first character that is
        neither, or at a second dot. */
    method ReadNumberBody() returns (body: string, hasDot: bool)
      requires Valid() && pos <= |Src()|
      modifies this
      ensures Valid() && tokens == old(tokens) && old(pos) <= pos <= |Src()|
      ensures var nb := ScanNumberBody(Src(), old(pos), false, false); nb.end == pos && nb.hasDot == hasDot
      ensures body == Src()[old(pos)..pos]
    {
      body := "";
      hasDot := false;
      ghost var digits := false;
      while Peek(0) != '\0' && (IsDigit(Peek(0)) || Peek(0) == '.')
        invariant Valid() && tokens == old(tokens) && old(pos) <= pos <= |Src()|
        invariant ScanNumberBody(Src(), pos, hasDot, digits) == ScanNumberBody(Src(), old(pos), false, false)
        invariant body == Src()[old(pos)..pos]
        decreases |text| - pos
      {
        ghost var p0 := pos;
        assert Src()[old(pos)..p0 + 1] == Src()[old(pos)..p0] + [Src()[p0]];
        if Peek(0) == '.' {
          if hasDot {
            break;
          }
          hasDot := true;
        } else {
          digits := true;
        }
        var c := Advance();
        body := body + [c];
      }
    }

    method ReadNumber() returns (r: Result<Token>)
      requires Valid() && pos < |Src()|
      modifies this
      ensures Valid() && tokens == old(tokens)
      ensures Agrees(r, GoNumberAt(Src(), old(pos)), pos)
    {
      VisibleAt(text, pos);
      var startLine, startCol := line, column;
      var number := "";
      if Peek(0) == '-' {
        var c := Advance();
        number := number + [c];
        if Peek(0) == '\0' || !IsDigit(Peek(0)) {
          VisibleAt(text, pos);
          return Err(Error("Expected digit after '-'"));
        }
      }
      assert number == Src()[old(pos)..pos];
      var body, hasDot := ReadNumberBody();
      assert Src()[old(pos)..pos] == number + body;
      number := number + body;
      if hasDot {
        if !HasDigit(number) || FloatOverflows(number) {
          return Err(SyntaxError("Invalid float format", startLine, startCol));
        }
        return Ok(Token(FloatLit, Text(number), startLine, startCol));
      }
      if !(IsIntText(number) && InI64(ParseInt(number))) {
        return Err(SyntaxError("Invalid number format", startLine, startCol));
      }
      return Ok(Token(NumberLit, IntVal(ParseInt(number)), startLine, startCol));
    }

    /** readIdentifier: letters, digits, '_' and '-'; keywords and boolean words are
        recognised. */
    method ReadIdentifier() returns (t: Token)
      requires Valid() && pos <= |Src()|
      modifies this
      ensures Valid() && tokens == old(tokens)
      ensures t == IdentifierAt(Src(), old(pos)).tok && pos == IdentifierAt(Src(), old(pos)).next
    {
      VisibleAt(text, pos);
      var startLine, startCol := line, column;
      var word := "";
      while Peek(0) != '\0' && IsWordChar(Peek(0))
        invariant Valid() && tokens == old(tokens) && old(pos) <= pos <= |Src()|
        invariant RunEnd(Src(), pos, IsWordChar) == RunEnd(Src(), old(pos), IsWordChar)
        invariant word == Src()[old(pos)..pos]
        decreases |text| - pos
      {
        var c := Advance();
        word := word + [c];
      }
      match KeywordKind(word)
      case Some(k) => return Token(k, Text(word), startLine, startCol);
      case None =>
        match BoolWord(word)
        case Some(b) => return Token(BooleanLit, BoolVal(b), startLine, startCol);
        case None => return Token(Identifier, Text(word), startLine, startCol);
    }

    /** Read the token at the cursor (blanks already skipped, not at the end). */
    method NextToken() returns (r: Result<Token>)
      requires Valid() && pos < |Src()|
      modifies this
      ensures Valid() && tokens == old(tokens)
      ensures Agrees(r, GoDispatchAt(Src(), old(pos)), pos)
    {
      VisibleAt(text, pos);
      var c := Peek(0);
      if c == '[' {
        r := ReadComment();
        return;
      }
      if c == '\n' {
        var newlineLine, newlineCol := line, column;
        var _ := Advance();
        VisibleAt(text, pos);
        return Ok(Token(Newline, Text("\n"), newlineLine, newlineCol));
      }
      if c == ':' && Peek(1) == ':' {
        var startCol := column;
        var _ := Advance();
        var _ := Advance();
        VisibleAt(text, pos);
        return Ok(Token(DoubleColon, Text("::"), line, startCol));
      }
      if IsPunct(c) {
        var startCol := column;
        var ch := Advance();
        VisibleAt(text, pos);
        return Ok(Token(PunctKind(ch), Text([ch]), line, startCol));
      }
      if c == '"' {
        r := ReadString();
        return;
      }
      if c == '\'' {
        r := ReadMultilineString();
        return;
      }
      if c == '-' && IsDigit(Peek(1)) {
        r := ReadNumber();
        return;
      }
      if IsDigit(c) {
        var ahead := pos + 1;
        while ahead < |text| && IsDigit(text[ahead])
          invariant pos + 1 <= ahead <= |Src()|
          invariant RunEnd(Src(), ahead, IsDigit) == RunEnd(Src(), pos + 1, IsDigit)
          decreases |text| - ahead
        {
          ahead := ahead + 1;
        }
        if ahead < |text| && IsWordStart(text[ahead]) {
          var t := ReadIdentifier();
          return Ok(t);
        }
        r := ReadNumber();
        return;
      }
      if IsWordStart(c) {
        var t := ReadIdentifier();
        return Ok(t);
      }
      return Err(Error("Unexpected character: " + [c]));
    }

    /** Tokenize: tokens until the end of the text or a NUL byte, then Eof. */
    method Tokenize() returns (r: Result<seq<Token>>)
      requires Valid() && pos == 0 && tokens == []
      modifies this
      ensures Valid()
      ensures r == GoLex(text)
      ensures r.Ok? ==> tokens == r.value
    {
      while pos < |text|
        invariant Valid() && pos <= |Src()|
        invariant GoLexFrom(Src(), pos, tokens) == GoLex(text)
        decreases |text| - pos
      {
        SkipWhitespace();
        if Peek(0) == '\0' {
          break;
        }
        var t := NextToken();
        if t.Err? {
          return Err(t.error);
        }
        tokens := tokens + [t.value];
      }
      VisibleAt(text, pos);
      tokens := tokens + [Token(Eof, NoPayload, line, column)];
      return Ok(tokens);
    }
  }
}
