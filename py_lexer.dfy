/** The Python port's lexer (python/scl_parser/lexer.py). It reads comments, numbers and
    identifiers by the reference library's rules, but every '[' opens a comment, there are
    no plain strings, a double-quoted string knows only the escapes \n and \t (any other
    escaped character stands for itself) and a single-quoted string is raw. */
module PyLexer {
  import opened Wrappers
  import opened Text
  import opened Tokens
  import opened Scanning
  import opened LibLexer

  // ---------------------------------------------------------------------------------
  // Specification: what each reader produces from index p of the text.
  // ---------------------------------------------------------------------------------

  /** "..." with \n and \t decoded. Both failures are reported at the end of the text, where
      the cursor stands when the text runs out. */
  function PyStringAt(text: string, p: nat): (r: Result<Scan>)
    requires p < |text| && text[p] == '"'
    ensures r.Ok? ==> p < r.value.next <= |text| && r.value.tok.kind == StringLit
    ensures r.Err? ==> r.error.SyntaxError? && r.error == ErrorAt(text, |text|, r.error.msg)
  {
    match SimpleQuoted(text, p + 1, '"', [])
    case Closed(s, close) => Ok(Scan(TokenAt(text, p, StringLit, Text(s)), close + 1))
    case Unclosed => Err(ErrorAt(text, |text|, "Unclosed string"))
    case DanglingBackslash => Err(ErrorAt(text, |text|, "Unexpected end of string after backslash"))
  }

  /** '...' taken verbatim up to the next single quote. */
  function PyMultilineAt(text: string, p: nat): (r: Result<Scan>)
    requires p < |text| && text[p] == '\''
    ensures r.Ok? ==> p < r.value.next <= |text| && r.value.tok.kind == MultilineLit
    ensures r.Err? ==> r == Err(ErrorAt(text, |text|, "Unclosed multiline string"))
  {
    match RawQuoted(text, p + 1, '\'')
    case Closed(s, close) => Ok(Scan(TokenAt(text, p, MultilineLit, Text(s)), close + 1))
    case _ => Err(ErrorAt(text, |text|, "Unclosed multiline string"))
  }

  /** The token that starts at index q (blanks already skipped). */
  function PyDispatchAt(text: string, q: nat): (r: Result<Scan>)
    requires q < |text|
    ensures r.Ok? ==> q < r.value.next <= |text| && r.value.tok.kind != Eof
    ensures r.Ok? ==> r.value.tok.kind !in {LBracket, RBracket, PlainLit}
  {
    var c := text[q];
    if c == '[' then CommentAt(text, q)
    else if c == '\n' then Ok(Scan(TokenAt(text, q, Newline, Text("\n")), q + 1))
    else if c == ':' && q + 1 < |text| && text[q + 1] == ':' then
      Ok(Scan(Token(DoubleColon, Text("::"), LineAt(text, q + 2), ColAt(text, q)), q + 2))
    else if IsPunct(c) then Ok(Scan(Token(PunctKind(c), Text([c]), LineAt(text, q + 1), ColAt(text, q)), q + 1))
    else if c == '"' then PyStringAt(text, q)
    else if c == '\'' then PyMultilineAt(text, q)
    else if c == '-' && q + 1 < |text| && IsDigit(text[q + 1]) then NumberAt(text, q)
    else if IsDigit(c) then
      var e := RunEnd(text, q + 1, IsDigit);
      if e < |text| && IsWordStart(text[e]) then Ok(IdentifierWithDigitsAt(text, q)) else NumberAt(text, q)
    else if IsWordStart(c) then
      var s := IdentifierAt(text, q);
      assert s.tok.kind !in {LBracket, RBracket, PlainLit};
      Ok(s)
    else Err(ErrorAt(text, q, "Unexpected character: " + [c]))
  }

  /** One turn of the tokenize loop from index p: skip blanks, then read a token. Blanks
      that run to the end of the text are the TypeError of `None in ' \t'`. */
  function PyStepAt(text: string, p: nat): (r: Result<Scan>)
    requires p < |text|
    ensures r.Ok? ==> p < r.value.next <= |text|
  {
    var q := RunEnd(text, p, IsBlank);
    if q == |text| then Err(Fault("TypeError: 'in <string>' requires string as left operand, not NoneType"))
    else PyDispatchAt(text, q)
  }

  /** The token stream from index p on, after the tokens toks already emitted. */
  function PyLexFrom(text: string, p: nat, toks: seq<Token>): (r: Result<seq<Token>>)
    requires p <= |text|
    ensures r.Ok? ==> |r.value| > |toks| && r.value[..|toks|] == toks
    ensures r.Ok? ==> r.value[|r.value| - 1] == TokenAt(text, |text|, Eof, NoPayload)
    ensures r.Ok? ==> forall i :: |toks| <= i < |r.value| - 1 ==> r.value[i].kind !in {Eof, LBracket, RBracket, PlainLit}
    decreases |text| - p
  {
    if p == |text| then Ok(toks + [TokenAt(text, p, Eof, NoPayload)])
    else
      match PyStepAt(text, p)
      case Err(e) => Err(e)
      case Ok(s) =>
        var r := PyLexFrom(text, s.next, toks + [s.tok]);
        if r.Err? then r
        else
          assert r.value[..|toks|] == (toks + [s.tok])[..|toks|];
          assert r.value[|toks|] == (toks + [s.tok])[|toks|] == s.tok;
          r
  }

  function PyLex(text: string): Result<seq<Token>>
  {
    PyLexFrom(text, 0, [])
  }

  // ---------------------------------------------------------------------------------
  // Properties of the specification.
  // ---------------------------------------------------------------------------------

  /** The stream ends with exactly one Eof, at the end of the text, and holds no bracket
      token and no plain string: every '[' became a comment. */
  lemma PyLexShape(text: string)
    requires PyLex(text).Ok?
    ensures EndsWithSingleEof(PyLex(text).value)
    ensures PyLex(text).value[|PyLex(text).value| - 1] == TokenAt(text, |text|, Eof, NoPayload)
    ensures forall i :: 0 <= i < |PyLex(text).value| ==> PyLex(text).value[i].kind !in {LBracket, RBracket, PlainLit}
  {
  }

  /** '[' always opens a comment, even right after `list`, and a stray ']' is rejected. */
  lemma BracketsAreComments(text: string, q: nat)
    requires q < |text| && (text[q] == '[' || text[q] == ']')
    ensures text[q] == '[' ==> PyDispatchAt(text, q) == CommentAt(text, q)
    ensures text[q] == ']' ==> PyDispatchAt(text, q) == Err(ErrorAt(text, q, "Unexpected character: ]"))
  {
    if text[q] == ']' {
      assert "Unexpected character: " + [text[q]] == "Unexpected character: ]";
    }
  }

  /** A comment runs to the first ']': with none left the error is at the end of the text. */
  lemma UnclosedComment(text: string, q: nat)
    requires q < |text| && text[q] == '[' && ']' !in text[q + 1..]
    ensures PyDispatchAt(text, q) == Err(ErrorAt(text, |text|, "Unclosed comment"))
  {
    assert forall k :: q + 1 <= k < |text| ==> text[k] == text[q + 1..][k - q - 1];
  }

  /** A run of digits followed by a letter or '_' is one identifier token carrying the whole
      word, never a number and never a keyword. */
  lemma DigitsThenLetterIsIdentifier(text: string, q: nat)
    requires q < |text| && IsDigit(text[q])
    requires var e := RunEnd(text, q + 1, IsDigit); e < |text| && IsWordStart(text[e])
    ensures var e := RunEnd(text, q, IsWordChar);
      PyDispatchAt(text, q) == Ok(Scan(TokenAt(text, q, Identifier, Text(text[q..e])), e))
  {
  }

  /** Inside "...", \n and \t stand for a line break and a tab and any other escaped
      character for itself, so a quoted escape never fails. */
  lemma {:induction false} SimpleQuotedEscapes(text: string, p: nat, acc: string)
    requires p + 1 < |text| && text[p] == '\\'
    ensures SimpleQuoted(text, p, '"', acc) == SimpleQuoted(text, p + 2, '"', acc + [SimpleEscape(text[p + 1])])
    ensures SimpleEscape(text[p + 1]) == (if text[p + 1] == 'n' then '\n' else if text[p + 1] == 't' then '\t' else text[p + 1])
  {
  }

  /** A backslash as the last character of the text is its own error, at the end. */
  lemma BackslashAtEnd(text: string, p: nat)
    requires p + 1 < |text| && text[p] == '"' && text[|text| - 1] == '\\'
    requires forall k :: p + 1 <= k < |text| - 1 ==> text[k] != '"' && text[k] != '\\'
    ensures PyStringAt(text, p) == Err(ErrorAt(text, |text|, "Unexpected end of string after backslash"))
  {
    PlainRunThenBackslash(text, p + 1, []);
  }

  lemma {:induction false} PlainRunThenBackslash(text: string, i: nat, acc: string)
    requires 0 < i < |text| && text[|text| - 1] == '\\'
    requires forall k :: i <= k < |text| - 1 ==> text[k] != '"' && text[k] != '\\'
    ensures SimpleQuoted(text, i, '"', acc) == DanglingBackslash
    decreases |text| - i
  {
    if i < |text| - 1 {
      PlainRunThenBackslash(text, i + 1, acc + [text[i]]);
    }
  }

  /** One escaped character of the serializers' output decodes to itself. */
  lemma SimpleQuotedReadsOneEscaped(pre: string, c: char, rest: string, acc: string)
    requires rest != []
    ensures var text := pre + EscapeChar(c) + rest;
      SimpleQuoted(text, |pre|, '"', acc) == SimpleQuoted(text, |pre| + |EscapeChar(c)|, '"', acc + [c])
  {
    var text := pre + EscapeChar(c) + rest;
    if c == '\\' || c == '"' {
      assert text[|pre|] == '\\' && text[|pre| + 1] == c;
      assert SimpleEscape(c) == c;
    } else {
      assert text[|pre|] == c;
    }
  }

  /** Escape sequences the serializers write decode to the characters they stand for, up to
      the closing quote. */
  lemma {:induction false} SimpleQuotedReadsEscaped(pre: string, s: string, post: string, acc: string)
    ensures SimpleQuoted(pre + EscapeEach(s) + "\"" + post, |pre|, '"', acc) == Closed(acc + s, |pre| + |EscapeEach(s)|)
    decreases |s|
  {
    var text := pre + EscapeEach(s) + "\"" + post;
    if s != [] {
      var head := EscapeChar(s[0]);
      var tail := EscapeEach(s[1..]);
      assert text == pre + head + (tail + "\"" + post);
      SimpleQuotedReadsOneEscaped(pre, s[0], tail + "\"" + post, acc);
      assert text == (pre + head) + tail + "\"" + post;
      SimpleQuotedReadsEscaped(pre + head, s[1..], post, acc + [s[0]]);
      assert acc + [s[0]] + s[1..] == acc + s;
    } else {
      assert text[|pre|] == '"';
      assert acc + s == acc;
    }
  }

  /** Round trip of the one-line string form: Escape(s) between double quotes reads back as
      s, line breaks and tabs included. */
  lemma PyEscapedStringReadsBack(pre: string, s: string, post: string)
    ensures var text := pre + "\"" + Escape(s) + "\"" + post;
      PyStringAt(text, |pre|) == Ok(Scan(TokenAt(text, |pre|, StringLit, Text(s)), |pre| + |Escape(s)| + 2))
  {
    var text := pre + "\"" + Escape(s) + "\"" + post;
    EscapeIsEscapeEach(s);
    assert text[|pre|] == '"';
    SimpleQuotedReadsEscaped(pre + "\"", s, post, []);
    assert [] + s == s;
  }

  /** Round trip of the multi-line form: any s without a single quote, written between
      single quotes, reads back verbatim, backslashes included. */
  lemma PyRawStringReadsBack(text: string, p: nat, s: string)
    requires p + |s| + 1 < |text| && text[p] == '\'' && '\'' !in s
    requires text[p + 1..p + 1 + |s|] == s && text[p + 1 + |s|] == '\''
    ensures PyMultilineAt(text, p) == Ok(Scan(TokenAt(text, p, MultilineLit, Text(s)), p + |s| + 2))
  {
    assert forall k :: p + 1 <= k < p + 1 + |s| ==> text[k] == s[k - p - 1];
  }

  // ---------------------------------------------------------------------------------
  // The lexer as the port runs it: a cursor that advances over the text.
  // ---------------------------------------------------------------------------------

  class Lexer {
    const text: string
    var pos: nat
    var line: int
    var column: int
    var tokens: seq<Token>

    /** The cursor's line and column are always those reached by advancing over text[..pos]. */
    ghost predicate Valid()
      reads this
    {
      pos <= |text| && line == LineAt(text, pos) && column == ColAt(text, pos)
    }

    constructor (text: string)
      ensures Valid() && this.text == text && pos == 0 && tokens == []
    {
      this.text := text;
      pos := 0;
      line := 1;
      column := 1;
      tokens := [];
    }

    /** The error raised at the cursor. */
    function Error(msg: string): (e: Error)
      reads this
      ensures Valid() ==> e == ErrorAt(text, pos, msg)
    {
      SyntaxError(msg, line, column)
    }

    /** The character offset places ahead, or None past the end. */
    function Peek(offset: nat): (c: Option<char>)
      reads this
      ensures c.Some? <==> pos + offset < |text|
      ensures c.Some? ==> c.value == text[pos + offset]
    {
      if pos + offset < |text| then Some(text[pos + offset]) else None
    }

    /** Consume one character: a line break moves to column 1 of the next line, any other
        character one column right; at the end nothing changes and None is returned. */
    method Advance() returns (c: Option<char>)
      requires Valid()
      modifies this
      ensures Valid() && tokens == old(tokens)
      ensures old(pos) < |text| ==>
        c == Some(text[old(pos)]) && pos == old(pos) + 1 &&
        (if text[old(pos)] == '\n' then line == old(line) + 1 && column == 1
         else line == old(line) && column == old(column) + 1)
      ensures old(pos) == |text| ==> c.None? && pos == old(pos) && line == old(line) && column == old(column)
    {
      if pos < |text| {
        var ch := text[pos];
        pos := pos + 1;
        if ch == '\n' {
          line := line + 1;
          column := 1;
        } else {
          column := column + 1;
        }
        return Some(ch);
      }
      return None;
    }

    /** Skip spaces and tabs; reaching the end while doing so is reported as fault. */
    method SkipWhitespace() returns (fault: bool)
      requires Valid()
      modifies this
      ensures Valid() && tokens == old(tokens)
      ensures pos == RunEnd(text, old(pos), IsBlank) && (fault <==> pos == |text|)
    {
      while Peek(0).Some? && IsBlank(Peek(0).value)
        invariant Valid() && tokens == old(tokens) && old(pos) <= pos
        invariant RunEnd(text, pos, IsBlank) == RunEnd(text, old(pos), IsBlank)
        decreases |text| - pos
      {
        var _ := Advance();
      }
      return Peek(0).None?;
    }

    method ReadComment() returns (r: Result<Token>)
      requires Valid() && pos < |text| && text[pos] == '['
      modifies this
      ensures Valid() && tokens == old(tokens)
      ensures Agrees(r, CommentAt(text, old(pos)), pos)
    {
      var startLine, startCol := line, column;
      ghost var start := pos;
      ghost var e := FindFrom(text, start + 1, ']');
      var _ := Advance();
      var comment := "";
      while Peek(0).Some? && Peek(0) != Some(']')
        invariant Valid() && tokens == old(tokens)
        invariant start + 1 <= pos <= e
        invariant comment == text[start + 1..pos]
        decreases |text| - pos
      {
        var c := Advance();
        comment := comment + [c.value];
      }
      if pos == |text| {
        assert CommentAt(text, start) == Err(ErrorAt(text, pos, "Unclosed comment"));
        return Err(Error("Unclosed comment"));
      }
      assert pos == e;
      var _ := Advance();
      assert CommentAt(text, start) == Ok(Scan(TokenAt(text, start, Comment, Text(Strip(comment, PySpaces))), e + 1));
      return Ok(Token(Comment, Text(Strip(comment, PySpaces)), startLine, startCol));
    }

    method ReadString() returns (r: Result<Token>)
      requires Valid() && pos < |text| && text[pos] == '"'
      modifies this
      ensures Valid() && tokens == old(tokens)
      ensures Agrees(r, PyStringAt(text, old(pos)), pos)
    {
      var startLine, startCol := line, column;
      var _ := Advance();
      var s := "";
      while Peek(0).Some? && Peek(0) != Some('"')
        invariant Valid() && tokens == old(tokens) && old(pos) < pos
        invariant SimpleQuoted(text, pos, '"', s) == SimpleQuoted(text, old(pos) + 1, '"', [])
        decreases |text| - pos
      {
        if Peek(0) == Some('\\') {
          var _ := Advance();
          var next := Peek(0);
          if next.None? {
            return Err(Error("Unexpected end of string after backslash"));
          }
          s := s + [SimpleEscape(next.value)];
          var _ := Advance();
        } else {
          var c := Advance();
          s := s + [c.value];
        }
      }
      if Peek(0) != Some('"') {
        return Err(Error("Unclosed string"));
      }
      var _ := Advance();
      return Ok(Token(StringLit, Text(s), startLine, startCol));
    }

    method ReadMultilineString() returns (r: Result<Token>)
      requires Valid() && pos < |text| && text[pos] == '\''
      modifies this
      ensures Valid() && tokens == old(tokens)
      ensures Agrees(r, PyMultilineAt(text, old(pos)), pos)
    {
      var startLine, startCol := line, column;
      ghost var e := FindFrom(text, old(pos) + 1, '\'');
      var _ := Advance();
      var s := "";
      while Peek(0).Some? && Peek(0) != Some('\'')
        invariant Valid() && tokens == old(tokens)
        invariant old(pos) + 1 <= pos <= e
        invariant s == text[old(pos) + 1..pos]
        decreases |text| - pos
      {
        var c := Advance();
        s := s + [c.value];
      }
      if Peek(0) != Some('\'') {
        return Err(Error("Unclosed multiline string"));
      }
      var _ := Advance();
      return Ok(Token(MultilineLit, Text(s), startLine, startCol));
    }

    /** The digits-and-dot loop of the number reader: it stops at the first character that
        is neither, or at a second dot. */
    method ReadNumberBody() returns (body: string, hasDot: bool, hasDigits: bool)
      requires Valid()
      modifies this
      ensures Valid() && tokens == old(tokens)
      ensures ScanNumberBody(text, old(pos), false, false) == NumberBody(pos, hasDot, hasDigits)
      ensures body == text[old(pos)..pos]
    {
      body := "";
      hasDot := false;
      var digitsBefore, digitsAfter := false, false;
      while Peek(0).Some? && (IsDigit(Peek(0).value) || Peek(0).value == '.')
        invariant Valid() && tokens == old(tokens) && old(pos) <= pos
        invariant ScanNumberBody(text, pos, hasDot, digitsBefore || digitsAfter) == ScanNumberBody(text, old(pos), false, false)
        invariant body == text[old(pos)..pos]
        decreases |text| - pos
      {
        ghost var p0 := pos;
        assert text[old(pos)..p0 + 1] == text[old(pos)..p0] + [text[p0]];
        if Peek(0).value == '.' {
          if hasDot {
            break;
          }
          hasDot := true;
          var c := Advance();
          body := body + [c.value];
        } else {
          var c := Advance();
          body := body + [c.value];
          if hasDot {
            digitsAfter := true;
          } else {
            digitsBefore := true;
          }
        }
      }
      hasDigits := digitsBefore || digitsAfter;
    }

    method ReadNumber() returns (r: Result<Token>)
      requires Valid()
      modifies this
      ensures Valid() && tokens == old(tokens)
      ensures Agrees(r, NumberAt(text, old(pos)), pos)
    {
      var startLine, startCol := line, column;
      var number := "";
      if Peek(0) == Some('-') {
        var c := Advance();
        number := number + [c.value];
        if Peek(0).None? || !IsDigit(Peek(0).value) {
          return Err(Error("Expected digit after '-'"));
        }
      }
      assert number == text[old(pos)..pos];
      var body, hasDot, hasDigits := ReadNumberBody();
      assert text[old(pos)..pos] == number + body;
      number := number + body;
      if !hasDigits {
        return Err(Error("Invalid number format"));
      }
      if hasDot {
        return Ok(Token(FloatLit, Text(number), startLine, startCol));
      }
      NumberKinds(text, old(pos));
      return Ok(Token(NumberLit, IntVal(ParseInt(number)), startLine, startCol));
    }

    method ReadIdentifier() returns (t: Token)
      requires Valid()
      modifies this
      ensures Valid() && tokens == old(tokens)
      ensures t == IdentifierAt(text, old(pos)).tok && pos == IdentifierAt(text, old(pos)).next
    {
      var startLine, startCol := line, column;
      var word := "";
      while Peek(0).Some? && IsWordChar(Peek(0).value)
        invariant Valid() && tokens == old(tokens) && old(pos) <= pos
        invariant RunEnd(text, pos, IsWordChar) == RunEnd(text, old(pos), IsWordChar)
        invariant word == text[old(pos)..pos]
        decreases |text| - pos
      {
        var c := Advance();
        word := word + [c.value];
      }
      match KeywordKind(word)
      case Some(k) => return Token(k, Text(word), startLine, startCol);
      case None =>
        match BoolWord(word)
        case Some(b) => return Token(BooleanLit, BoolVal(b), startLine, startCol);
        case None => return Token(Identifier, Text(word), startLine, startCol);
    }

    method ReadIdentifierWithDigits() returns (t: Token)
      requires Valid()
      modifies this
      ensures Valid() && tokens == old(tokens)
      ensures t == IdentifierWithDigitsAt(text, old(pos)).tok && pos == IdentifierWithDigitsAt(text, old(pos)).next
    {
      var startLine, startCol := line, column;
      var word := "";
      while Peek(0).Some? && IsWordChar(Peek(0).value)
        invariant Valid() && tokens == old(tokens) && old(pos) <= pos
        invariant RunEnd(text, pos, IsWordChar) == RunEnd(text, old(pos), IsWordChar)
        invariant word == text[old(pos)..pos]
        decreases |text| - pos
      {
        var c := Advance();
        word := word + [c.value];
      }
      return Token(Identifier, Text(word), startLine, startCol);
    }

    /** Read the token at the cursor (blanks already skipped). */
    method NextToken() returns (r: Result<Token>)
      requires Valid() && pos < |text|
      modifies this
      ensures Valid() && tokens == old(tokens)
      ensures Agrees(r, PyDispatchAt(text, old(pos)), pos)
    {
      var c := text[pos];
      if c == '[' {
        r := ReadComment();
        return;
      }
      if c == '\n' {
        var newlineLine, newlineCol := line, column;
        var _ := Advance();
        return Ok(Token(Newline, Text("\n"), newlineLine, newlineCol));
      }
      if c == ':' && Peek(1) == Some(':') {
        var startCol := column;
        var _ := Advance();
        var _ := Advance();
        return Ok(Token(DoubleColon, Text("::"), line, startCol));
      }
      if IsPunct(c) {
        var startCol := column;
        var ch := Advance();
        return Ok(Token(PunctKind(ch.value), Text([ch.value]), line, startCol));
      }
      if c == '"' {
        r := ReadString();
        return;
      }
      if c == '\'' {
        r := ReadMultilineString();
        return;
      }
      if c == '-' && Peek(1).Some? && IsDigit(Peek(1).value) {
        r := ReadNumber();
        return;
      }
      if IsDigit(c) {
        var ahead := pos + 1;
        while ahead < |text| && IsDigit(text[ahead])
          invariant pos + 1 <= ahead <= |text|
          invariant RunEnd(text, ahead, IsDigit) == RunEnd(text, pos + 1, IsDigit)
          decreases |text| - ahead
        {
          ahead := ahead + 1;
        }
        if ahead < |text| && IsWordStart(text[ahead]) {
          var t := ReadIdentifierWithDigits();
          return Ok(t);
        }
        r := ReadNumber();
        return;
      }
      if IsWordStart(c) {
        var t := ReadIdentifier();
        return Ok(t);
      }
      return Err(Error("Unexpected character: " + [c]));
    }

    /** The whole stream: tokens until the end of the text, then Eof. */
    method Tokenize() returns (r: Result<seq<Token>>)
      requires Valid() && pos == 0 && tokens == []
      modifies this
      ensures Valid()
      ensures r == PyLex(text)
      ensures r.Ok? ==> tokens == r.value
    {
      while pos < |text|
        invariant Valid()
        invariant PyLexFrom(text, pos, tokens) == PyLex(text)
        decreases |text| - pos
      {
        ghost var p0 := pos;
        var fault := SkipWhitespace();
        if fault {
          return Err(Fault("TypeError: 'in <string>' requires string as left operand, not NoneType"));
        }
        assert PyStepAt(text, p0) == PyDispatchAt(text, pos);
        var t := NextToken();
        if t.Err? {
          return Err(t.error);
        }
        tokens := tokens + [t.value];
      }
      tokens := tokens + [Token(Eof, NoPayload, line, column)];
      return Ok(tokens);
    }
  }
}
