/** The Ruby port's lexer (ruby/lib/scl/lexer.rb). Its token rules are those of the Python
    port with three differences: a newline, '::' and punctuation token carries the position
    of its first character, blanks that run to the end of the text simply end the stream,
    and a backslash as the last character of a string is Ruby's TypeError rather than a
    syntax error. Comments are stripped with Ruby's String#strip, which also removes NUL. */
module RubyLexer {
  import opened Wrappers
  import opened Text
  import opened Tokens
  import opened Scanning
  import opened LibLexer
  import PyLexer

  /** `buf << nil` when the text ends right after a backslash inside a string. */
  const NilAppend := "TypeError: no implicit conversion of nil into String"

  // ---------------------------------------------------------------------------------
  // Specification: what each reader produces from index p of the text.
  // ---------------------------------------------------------------------------------

  /** [ ... ] with the text between the brackets stripped; unclosed at the end of the text. */
  function RubyCommentAt(text: string, p: nat): (r: Result<Scan>)
    requires p < |text| && text[p] == '['
    ensures r.Ok? ==> p < r.value.next <= |text| && r.value.tok.kind == Comment
    ensures r.Err? ==> r == Err(ErrorAt(text, |text|, "Unclosed comment"))
  {
    var e := FindFrom(text, p + 1, ']');
    if e == |text| then Err(ErrorAt(text, e, "Unclosed comment"))
    else Ok(Scan(TokenAt(text, p, Comment, Text(Strip(text[p + 1..e], RubySpaces))), e + 1))
  }

  /** "..." with \n and \t decoded and any other escaped character kept. */
  function RubyStringAt(text: string, p: nat): (r: Result<Scan>)
    requires p < |text| && text[p] == '"'
    ensures r.Ok? ==> p < r.value.next <= |text| && r.value.tok.kind == StringLit
  {
    match SimpleQuoted(text, p + 1, '"', [])
    case Closed(s, close) => Ok(Scan(TokenAt(text, p, StringLit, Text(s)), close + 1))
    case Unclosed => Err(ErrorAt(text, |text|, "Unclosed string"))
    case DanglingBackslash => Err(Fault(NilAppend))
  }

  /** The token that starts at index q (blanks already skipped). */
  function RubyDispatchAt(text: string, q: nat): (r: Result<Scan>)
    requires q < |text|
    ensures r.Ok? ==> q < r.value.next <= |text| && r.value.tok.kind != Eof
    ensures r.Ok? ==> r.value.tok.kind !in {LBracket, RBracket, PlainLit}
  {
    var c := text[q];
    if c == '[' then RubyCommentAt(text, q)
    else if c == '\n' then Ok(Scan(TokenAt(text, q, Newline, Text("\n")), q + 1))
    else if c == ':' then
      if q + 1 < |text| && text[q + 1] == ':' then Ok(Scan(TokenAt(text, q, DoubleColon, Text("::")), q + 2))
      else Err(ErrorAt(text, q, "Unexpected ':'"))
    else if IsPunct(c) then Ok(Scan(TokenAt(text, q, PunctKind(c), Text([c])), q + 1))
    else if c == '"' then RubyStringAt(text, q)
    else if c == '\'' then PyLexer.PyMultilineAt(text, q)
    else if c == '-' then
      if q + 1 < |text| && IsDigit(text[q + 1]) then NumberAt(text, q)
      else Err(ErrorAt(text, q, "Expected digit after '-'"))
    else if IsDigit(c) then
      var e := RunEnd(text, q, IsDigit);
      if e < |text| && IsWordStart(text[e]) then
        var s := IdentifierAt(text, q);
        assert s.tok.kind !in {LBracket, RBracket, PlainLit};
        Ok(s)
      else NumberAt(text, q)
    else if IsWordStart(c) then
      var s := IdentifierAt(text, q);
      assert s.tok.kind !in {LBracket, RBracket, PlainLit};
      Ok(s)
    else Err(ErrorAt(text, q, "Unexpected character: " + [c]))
  }

  /** The token stream from index p on, after the tokens toks already emitted: blanks are
      skipped, and when they reach the end of the text the stream ends there. */
  function RubyLexFrom(text: string, p: nat, toks: seq<Token>): (r: Result<seq<Token>>)
    requires p <= |text|
    ensures r.Ok? ==> |r.value| > |toks| && r.value[..|toks|] == toks
    ensures r.Ok? ==> r.value[|r.value| - 1] == TokenAt(text, |text|, Eof, NoPayload)
    ensures r.Ok? ==> forall i :: |toks| <= i < |r.value| - 1 ==> r.value[i].kind !in {Eof, LBracket, RBracket, PlainLit}
    decreases |text| - p
  {
    var q := RunEnd(text, p, IsBlank);
    if q == |text| then Ok(toks + [TokenAt(text, |text|, Eof, NoPayload)])
    else
      match RubyDispatchAt(text, q)
      case Err(e) => Err(e)
      case Ok(s) =>
        var grown := toks + [s.tok];
        var r := RubyLexFrom(text, s.next, grown);
        if r.Err? then r
        else
          assert r.value[..|toks|] == grown[..|toks|];
          assert r.value[|toks|] == grown[|toks|] == s.tok;
          r
  }

  function RubyLex(text: string): Result<seq<Token>>
  {
    RubyLexFrom(text, 0, [])
  }

  // ---------------------------------------------------------------------------------
  // Properties of the specification.
  // ---------------------------------------------------------------------------------

  /** The stream ends with exactly one Eof, at the end of the text, and holds no bracket
      token and no plain string: every '[' became a comment. */
  lemma RubyLexShape(text: string)
    requires RubyLex(text).Ok?
    ensures EndsWithSingleEof(RubyLex(text).value)
    ensures RubyLex(text).value[|RubyLex(text).value| - 1] == TokenAt(text, |text|, Eof, NoPayload)
    ensures forall i :: 0 <= i < |RubyLex(text).value| ==> RubyLex(text).value[i].kind !in {LBracket, RBracket, PlainLit}
  {
  }

  /** Blanks at the end of the text are not an error: the stream is the tokens before them
      followed by Eof. */
  lemma TrailingBlanksEndStream(text: string, p: nat, toks: seq<Token>)
    requires p <= |text| && forall k :: p <= k < |text| ==> IsBlank(text[k])
    ensures RubyLexFrom(text, p, toks) == Ok(toks + [TokenAt(text, |text|, Eof, NoPayload)])
  {
    RunEndOfRun(text, p);
  }

  lemma {:induction false} RunEndOfRun(text: string, p: nat)
    requires p <= |text| && forall k :: p <= k < |text| ==> IsBlank(text[k])
    ensures RunEnd(text, p, IsBlank) == |text|
    decreases |text| - p
  {
    if p < |text| {
      RunEndOfRun(text, p + 1);
    }
  }

  /** A ':' not followed by a second ':' and a '-' not followed by a digit are errors at
      their own position. */
  lemma LoneColonAndMinus(text: string, q: nat)
    requires q < |text| && (text[q] == ':' || text[q] == '-')
    requires q + 1 == |text| || (text[q + 1] != ':' && !IsDigit(text[q + 1]))
    ensures text[q] == ':' ==> RubyDispatchAt(text, q) == Err(ErrorAt(text, q, "Unexpected ':'"))
    ensures text[q] == '-' ==> RubyDispatchAt(text, q) == Err(ErrorAt(text, q, "Expected digit after '-'"))
  {
  }

  /** A run of digits followed by a letter or '_' is one identifier token carrying the whole
      word: no keyword or boolean word starts with a digit. */
  lemma DigitsThenLetterIsIdentifier(text: string, q: nat)
    requires q < |text| && IsDigit(text[q])
    requires var e := RunEnd(text, q, IsDigit); e < |text| && IsWordStart(text[e])
    ensures var e := RunEnd(text, q, IsWordChar);
      RubyDispatchAt(text, q) == Ok(Scan(TokenAt(text, q, Identifier, Text(text[q..e])), e))
  {
    var e := RunEnd(text, q, IsWordChar);
    var w := text[q..e];
    assert w[0] == text[q];
    assert KeywordKind(w).None? && BoolWord(w).None?;
  }

  /** A number never fails here: the reader is entered only at a digit, or at '-' followed
      by a digit, so the "Invalid number format" branch of the shared rule cannot fire. */
  lemma RubyNumbersAreWellFormed(text: string, q: nat)
    requires q < |text| && (IsDigit(text[q]) || (text[q] == '-' && q + 1 < |text| && IsDigit(text[q + 1])))
    ensures NumberAt(text, q).Ok?
  {
    var b := if text[q] == '-' then q + 1 else q;
    var nb := ScanNumberBody(text, b, false, false);
    NumberBodyFlags(text, b, false, false);
    assert text[b..nb.end][0] == text[b];
  }

  /** Strings read as in the Python port, except that a backslash at the very end is a
      TypeError instead of a syntax error. */
  lemma StringsAsInPython(text: string, p: nat)
    requires p < |text| && text[p] == '"'
    ensures SimpleQuoted(text, p + 1, '"', []) != DanglingBackslash ==> RubyStringAt(text, p) == PyLexer.PyStringAt(text, p)
    ensures SimpleQuoted(text, p + 1, '"', []) == DanglingBackslash <==> RubyStringAt(text, p) == Err(Fault(NilAppend))
  {
  }

  /** A comment's text loses leading and trailing NULs along with the blanks. */
  lemma CommentStripsNul(text: string, p: nat)
    requires p + 2 < |text| && text[p] == '[' && text[p + 1] == '\0' && text[p + 2] == ']'
    ensures RubyDispatchAt(text, p) == Ok(Scan(TokenAt(text, p, Comment, Text("")), p + 3))
  {
    assert FindFrom(text, p + 2, ']') == p + 2;
    assert text[p + 1..p + 2] == ['\0'];
    assert LeadingSpaces(text[p + 1..p + 2], RubySpaces) == 1;
  }

  // ---------------------------------------------------------------------------------
  // The lexer as the port runs it: a cursor that advances over the text.
  // ---------------------------------------------------------------------------------

  class Lexer {
    const text: string
    var pos: nat
    var line: int
    var col: int
    var tokens: seq<Token>

    /** The cursor's line and column are always those reached by advancing over text[..pos]. */
    ghost predicate Valid()
      reads this
    {
      pos <= |text| && line == LineAt(text, pos) && col == ColAt(text, pos)
    }

    constructor (text: string)
      ensures Valid() && this.text == text && pos == 0 && tokens == []
    {
      this.text := text;
      pos := 0;
      line := 1;
      col := 1;
      tokens := [];
    }

    /** The SyntaxError raised at the cursor. */
    function Error(msg: string): (e: Error)
      reads this
      ensures Valid() ==> e == ErrorAt(text, pos, msg)
    {
      SyntaxError(msg, line, col)
    }

    /** The character offset places ahead, or nil past the end. */
    function Peek(offset: nat): (c: Option<char>)
      reads this
      ensures c.Some? <==> pos + offset < |text|
      ensures c.Some? ==> c.value == text[pos + offset]
    {
      if pos + offset < |text| then Some(text[pos + offset]) else None
    }

    /** Consume one character: a line break moves to column 1 of the next line, any other
        character one column right. */
    method Advance()
      requires Valid() && pos < |text|
      modifies this
      ensures Valid() && tokens == old(tokens) && pos == old(pos) + 1
      ensures if text[old(pos)] == '\n' then line == old(line) + 1 && col == 1
              else line == old(line) && col == old(col) + 1
    {
      var ch := text[pos];
      pos := pos + 1;
      if ch == '\n' {
        line := line + 1;
        col := 1;
      } else {
        col := col + 1;
      }
    }

    /** Skip spaces and tabs. */
    method SkipWhitespace()
      requires Valid()
      modifies this
      ensures Valid() && tokens == old(tokens)
      ensures pos == RunEnd(text, old(pos), IsBlank)
    {
      while Peek(0) == Some(' ') || Peek(0) == Some('\t')
        invariant Valid() && tokens == old(tokens) && old(pos) <= pos
        invariant RunEnd(text, pos, IsBlank) == RunEnd(text, old(pos), IsBlank)
        decreases |text| - pos
      {
        Advance();
      }
    }

    /** The copying loop of read_comment and read_multiline_string: every character up to
        the next stop character, or to the end of the text. */
    method ReadUntil(stop: char) returns (buf: string)
      requires Valid()
      modifies this
      ensures Valid() && tokens == old(tokens)
      ensures pos == FindFrom(text, old(pos), stop) && buf == text[old(pos)..pos]
    {
      ghost var e := FindFrom(text, pos, stop);
      buf := "";
      while Peek(0).Some? && Peek(0) != Some(stop)
        invariant Valid() && tokens == old(tokens)
        invariant old(pos) <= pos <= e
        invariant buf == text[old(pos)..pos]
        decreases |text| - pos
      {
        assert text[old(pos)..pos + 1] == text[old(pos)..pos] + [text[pos]];
        buf := buf + [text[pos]];
        Advance();
      }
    }

    method ReadComment() returns (r: Result<Token>)
      requires Valid() && pos < |text| && text[pos] == '['
      modifies this
      ensures Valid() && tokens == old(tokens)
      ensures Agrees(r, RubyCommentAt(text, old(pos)), pos)
    {
      var startLine, startCol := line, col;
      Advance();
      var buf := ReadUntil(']');
      if Peek(0) != Some(']') {
        return Err(Error("Unclosed comment"));
      }
      Advance();
      return Ok(Token(Comment, Text(Strip(buf, RubySpaces)), startLine, startCol));
    }

    method ReadString() returns (r: Result<Token>)
      requires Valid() && pos < |text| && text[pos] == '"'
      modifies this
      ensures Valid() && tokens == old(tokens)
      ensures Agrees(r, RubyStringAt(text, old(pos)), pos)
    {
      var startLine, startCol := line, col;
      Advance();
      var buf := "";
      while Peek(0).Some? && Peek(0) != Some('"')
        invariant Valid() && tokens == old(tokens) && old(pos) < pos
        invariant SimpleQuoted(text, pos, '"', buf) == SimpleQuoted(text, old(pos) + 1, '"', [])
        decreases |text| - pos
      {
        if Peek(0) == Some('\\') {
          Advance();
          var next := Peek(0);
          if next.None? {
            return Err(Fault(NilAppend));
          }
          buf := buf + [SimpleEscape(next.value)];
          Advance();
        } else {
          buf := buf + [text[pos]];
          Advance();
        }
      }
      if Peek(0) != Some('"') {
        return Err(Error("Unclosed string"));
      }
      Advance();
      return Ok(Token(StringLit, Text(buf), startLine, startCol));
    }

    method ReadMultilineString() returns (r: Result<Token>)
      requires Valid() && pos < |text| && text[pos] == '\''
      modifies this
      ensures Valid() && tokens == old(tokens)
      ensures Agrees(r, PyLexer.PyMultilineAt(text, old(pos)), pos)
    {
      var startLine, startCol := line, col;
      Advance();
      var buf := ReadUntil('\'');
      if Peek(0) != Some('\'') {
        return Err(Error("Unclosed multiline string"));
      }
      Advance();
      return Ok(Token(MultilineLit, Text(buf), startLine, startCol));
    }

    /** The digits-and-dot loop of read_number: it stops at the first character that is
        neither, or at a second dot. */
    method ReadNumberBody() returns (body: string, hasDot: bool)
      requires Valid()
      modifies this
      ensures Valid() && tokens == old(tokens)
      ensures var nb := ScanNumberBody(text, old(pos), false, false); nb.end == pos && nb.hasDot == hasDot
      ensures body == text[old(pos)..pos]
    {
      body := "";
      hasDot := false;
      ghost var digits := false;
      while Peek(0).Some? && (IsDigit(Peek(0).value) || Peek(0).value == '.')
        invariant Valid() && tokens == old(tokens) && old(pos) <= pos
        invariant ScanNumberBody(text, pos, hasDot, digits) == ScanNumberBody(text, old(pos), false, false)
        invariant body == text[old(pos)..pos]
        decreases |text| - pos
      {
        ghost var p0 := pos;
        assert text[old(pos)..p0 + 1] == text[old(pos)..p0] + [text[p0]];
        if text[pos] == '.' {
          if hasDot {
            break;
          }
          hasDot := true;
        } else {
          digits := true;
        }
        body := body + [text[pos]];
        Advance();
      }
    }

    /** read_number, entered at a digit or at '-' followed by a digit (its own check for a
        digit after '-' cannot fire from either caller). */
    method ReadNumber() returns (t: Token)
      requires Valid() && pos < |text|
      requires IsDigit(text[pos]) || (text[pos] == '-' && pos + 1 < |text| && IsDigit(text[pos + 1]))
      modifies this
      ensures Valid() && tokens == old(tokens)
      ensures NumberAt(text, old(pos)) == Ok(Scan(t, pos))
    {
      var startLine, startCol := line, col;
      var buf := "";
      if text[pos] == '-' {
        buf := buf + [text[pos]];
        Advance();
      }
      assert buf == text[old(pos)..pos];
      var body, hasDot := ReadNumberBody();
      assert text[old(pos)..pos] == buf + body;
      buf := buf + body;
      RubyNumbersAreWellFormed(text, old(pos));
      if hasDot {
        return Token(FloatLit, Text(buf), startLine, startCol);
      }
      NumberKinds(text, old(pos));
      return Token(NumberLit, IntVal(ParseInt(buf)), startLine, startCol);
    }

    method ReadIdentifier() returns (t: Token)
      requires Valid()
      modifies this
      ensures Valid() && tokens == old(tokens)
      ensures t == IdentifierAt(text, old(pos)).tok && pos == IdentifierAt(text, old(pos)).next
    {
      var startLine, startCol := line, col;
      var buf := "";
      while Peek(0).Some? && IsWordChar(Peek(0).value)
        invariant Valid() && tokens == old(tokens) && old(pos) <= pos
        invariant RunEnd(text, pos, IsWordChar) == RunEnd(text, old(pos), IsWordChar)
        invariant buf == text[old(pos)..pos]
        decreases |text| - pos
      {
        buf := buf + [text[pos]];
        Advance();
      }
      match KeywordKind(buf)
      case Some(k) => return Token(k, Text(buf), startLine, startCol);
      case None =>
        match BoolWord(buf)
        case Some(b) => return Token(BooleanLit, BoolVal(b), startLine, startCol);
        case None => return Token(Identifier, Text(buf), startLine, startCol);
    }

    /** A run of digits is a number unless a letter or '_' follows it. */
    method ReadNumberOrIdentifier() returns (t: Token)
      requires Valid() && pos < |text| && IsDigit(text[pos])
      modifies this
      ensures Valid() && tokens == old(tokens)
      ensures RubyDispatchAt(text, old(pos)) == Ok(Scan(t, pos))
    {
      var p := pos;
      while p < |text| && IsDigit(text[p])
        invariant pos <= p <= |text|
        invariant RunEnd(text, p, IsDigit) == RunEnd(text, pos, IsDigit)
        decreases |text| - p
      {
        p := p + 1;
      }
      if p < |text| && (IsAlpha(text[p]) || text[p] == '_') {
        t := ReadIdentifier();
      } else {
        t := ReadNumber();
      }
    }

    /** Read the token at the cursor (blanks already skipped). */
    method NextToken() returns (r: Result<Token>)
      requires Valid() && pos < |text|
      modifies this
      ensures Valid() && tokens == old(tokens)
      ensures Agrees(r, RubyDispatchAt(text, old(pos)), pos)
    {
      var c := text[pos];
      if c == '[' {
        r := ReadComment();
      } else if c == '\n' {
        var t := Token(Newline, Text("\n"), line, col);
        Advance();
        r := Ok(t);
      } else if c == ':' {
        if Peek(1) == Some(':') {
          var t := Token(DoubleColon, Text("::"), line, col);
          Advance();
          Advance();
          r := Ok(t);
        } else {
          r := Err(Error("Unexpected ':'"));
        }
      } else if IsPunct(c) {
        var t := Token(PunctKind(c), Text([c]), line, col);
        Advance();
        r := Ok(t);
      } else if c == '"' {
        r := ReadString();
      } else if c == '\'' {
        r := ReadMultilineString();
      } else if c == '-' {
        if Peek(1).Some? && IsDigit(Peek(1).value) {
          var t := ReadNumber();
          r := Ok(t);
        } else {
          r := Err(Error("Expected digit after '-'"));
        }
      } else if IsDigit(c) {
        var t := ReadNumberOrIdentifier();
        r := Ok(t);
      } else if IsWordStart(c) {
        var t := ReadIdentifier();
        r := Ok(t);
      } else {
        r := Err(Error("Unexpected character: " + [c]));
      }
    }

    /** The whole stream: tokens until the end of the text, then Eof. */
    method Tokenize() returns (r: Result<seq<Token>>)
      requires Valid() && pos == 0 && tokens == []
      modifies this
      ensures Valid()
      ensures r == RubyLex(text)
      ensures r.Ok? ==> tokens == r.value
    {
      while pos < |text|
        invariant Valid()
        invariant RubyLexFrom(text, pos, tokens) == RubyLex(text)
        decreases |text| - pos
      {
        ghost var p0 := pos;
        SkipWhitespace();
        if Peek(0).None? {
          break;
        }
        var t := NextToken();
        if t.Err? {
          return Err(t.error);
        }
        tokens := tokens + [t.value];
      }
      tokens := tokens + [Token(Eof, NoPayload, line, col)];
      return Ok(tokens);
    }
  }
}
