/** The C port's lexer (c-lang/src/scl_lexer.c). It reads a C string, the characters before
    the terminating NUL, with a cursor whose line and column move as in the other ports.
    Its rules are the smallest of all: every '[' opens a comment kept exactly as written,
    "..." knows the escapes \n and \t, '...' is raw, a '-' followed by a digit starts a
    number that may hold one dot, while a number without a sign is digits only. Tokens are
    stored in a growable array; an error is a message without a position. */
module CLexer {
  import opened Wrappers
  import opened Text
  import opened Tokens
  import opened Scanning
  import opened LibLexer
  import PyLexer
  import GoLexer

  /** A C string holds no NUL: the NUL ends it. */
  predicate IsCString(text: string) { '\0' !in text }

  /** The character classes of <ctype.h> in the C locale, on the codes peekc returns (-1 at
      the end of the text). */
  predicate IsDigitCode(c: int) { '0' as int <= c <= '9' as int }
  predicate IsAlphaCode(c: int) { 'a' as int <= c <= 'z' as int || 'A' as int <= c <= 'Z' as int }
  predicate IsIdentCode(c: int) { IsDigitCode(c) || IsAlphaCode(c) || c == '_' as int || c == '-' as int }

  /** atoll as glibc implements it (through strtoll): a value beyond long long saturates at
      the nearest bound. */
  function Atoll(s: string): (r: int)
    requires IsIntText(s)
    ensures InI64(r)
    ensures InI64(ParseInt(s)) ==> r == ParseInt(s)
    ensures ParseInt(s) > I64Max ==> r == I64Max
    ensures ParseInt(s) < I64Min ==> r == I64Min
  {
    var n := ParseInt(s);
    if n < I64Min then I64Min else if n > I64Max then I64Max else n
  }

  /** The C port's errors are bare messages. */
  function CError(msg: string): Error { StructuralError(msg) }

  // ---------------------------------------------------------------------------------
  // Specification: what each branch of lex produces from index p of the text.
  // ---------------------------------------------------------------------------------

  /** "[...]" up to the first ']', not trimmed. */
  function CCommentAt(text: string, p: nat): (r: Result<Scan>)
    requires p < |text| && text[p] == '['
    ensures r.Ok? ==> p < r.value.next <= |text| && r.value.tok.kind == Comment
  {
    var e := FindFrom(text, p + 1, ']');
    if e == |text| then Err(CError("Unclosed comment"))
    else Ok(Scan(TokenAt(text, p, Comment, Text(text[p + 1..e])), e + 1))
  }

  /** "..." with \n and \t decoded and any other escaped character kept. A backslash as the
      last character is read together with the end of the text, so it too leaves the
      string unclosed. */
  function CStringAt(text: string, p: nat): (r: Result<Scan>)
    requires p < |text| && text[p] == '"'
    ensures r.Ok? ==> p < r.value.next <= |text| && r.value.tok.kind == StringLit
  {
    match SimpleQuoted(text, p + 1, '"', [])
    case Closed(s, close) => Ok(Scan(TokenAt(text, p, StringLit, Text(s)), close + 1))
    case _ => Err(CError("Unclosed string"))
  }

  /** '...' taken verbatim up to the next single quote. */
  function CMultilineAt(text: string, p: nat): (r: Result<Scan>)
    requires p < |text| && text[p] == '\''
    ensures r.Ok? ==> p < r.value.next <= |text| && r.value.tok.kind == MultilineLit
  {
    match RawQuoted(text, p + 1, '\'')
    case Closed(s, close) => Ok(Scan(TokenAt(text, p, MultilineLit, Text(s)), close + 1))
    case _ => Err(CError("Unclosed multiline string"))
  }

  /** '-' and a digit: digits and at most one dot. A float keeps its text; an integer is
      converted by atoll. */
  function CSignedNumberAt(text: string, p: nat): (r: Scan)
    requires p + 1 < |text| && text[p] == '-' && IsDigit(text[p + 1])
    ensures p + 1 < r.next <= |text|
    ensures r.tok.kind == FloatLit || r.tok.kind == NumberLit
  {
    var nb := ScanNumberBody(text, p + 1, false, false);
    var s := text[p..nb.end];
    if '.' in s then Scan(TokenAt(text, p, FloatLit, Text(s)), nb.end)
    else
      assert forall k :: 0 <= k < |s[1..]| ==> s[1..][k] == text[p + 1 + k];
      Scan(TokenAt(text, p, NumberLit, IntVal(Atoll(s))), nb.end)
  }

  /** A digit run: an identifier when a letter or '_' follows it (the word runs on over
      identifier characters), otherwise an unsigned integer. */
  function CDigitsAt(text: string, p: nat): (r: Scan)
    requires p < |text| && IsDigit(text[p])
    ensures p < r.next <= |text|
    ensures r.tok.kind == Identifier || r.tok.kind == NumberLit
  {
    var e := RunEnd(text, p, IsDigit);
    if e < |text| && IsWordStart(text[e]) then
      var w := RunEnd(text, e, IsWordChar);
      Scan(TokenAt(text, p, Identifier, Text(text[p..w])), w)
    else
      assert forall k :: 0 <= k < e - p ==> text[p..e][k] == text[p + k];
      Scan(TokenAt(text, p, NumberLit, IntVal(Atoll(text[p..e]))), e)
  }

  /** The token that starts at index q (blanks already skipped). */
  function CDispatchAt(text: string, q: nat): (r: Result<Scan>)
    requires q < |text|
    ensures r.Ok? ==> q < r.value.next <= |text|
    ensures r.Ok? ==> r.value.tok.kind !in {Eof, LBracket, RBracket, PlainLit}
  {
    var c := text[q];
    if c == '[' then CCommentAt(text, q)
    else if c == '\n' then Ok(Scan(TokenAt(text, q, Newline, NoPayload), q + 1))
    else if c == ':' && q + 1 < |text| && text[q + 1] == ':' then Ok(Scan(TokenAt(text, q, DoubleColon, NoPayload), q + 2))
    else if IsPunct(c) then Ok(Scan(TokenAt(text, q, PunctKind(c), NoPayload), q + 1))
    else if c == '"' then CStringAt(text, q)
    else if c == '\'' then CMultilineAt(text, q)
    else if c == '-' && q + 1 < |text| && IsDigit(text[q + 1]) then Ok(CSignedNumberAt(text, q))
    else if IsDigit(c) then Ok(CDigitsAt(text, q))
    else if IsWordStart(c) then
      var s := IdentifierAt(text, q);
      assert s.tok.kind !in {LBracket, RBracket, PlainLit};
      Ok(s)
    else Err(CError("Unexpected char"))
  }

  /** The token stream from index p on, after the tokens toks already stored. */
  function CLexFrom(text: string, p: nat, toks: seq<Token>): (r: Result<seq<Token>>)
    requires p <= |text|
    ensures r.Ok? ==> |r.value| > |toks| && r.value[..|toks|] == toks
    ensures r.Ok? ==> r.value[|r.value| - 1] == TokenAt(text, |text|, Eof, NoPayload)
    ensures r.Ok? ==> forall i :: |toks| <= i < |r.value| - 1 ==> r.value[i].kind !in {Eof, LBracket, RBracket, PlainLit}
    decreases |text| - p
  {
    var q := RunEnd(text, p, IsBlank);
    if q == |text| then Ok(toks + [TokenAt(text, q, Eof, NoPayload)])
    else
      match CDispatchAt(text, q)
      case Err(e) => Err(e)
      case Ok(s) =>
        var r := CLexFrom(text, s.next, toks + [s.tok]);
        assert r.Ok? ==> r.value[..|toks|] == (toks + [s.tok])[..|toks|];
        assert r.Ok? ==> r.value[|toks|] == s.tok by {
          if r.Ok? { assert r.value[|toks|] == (toks + [s.tok])[|toks|]; }
        }
        r
  }

  /** scl_lex_all: the whole text's tokens, then EOF, or the first error. */
  function CLex(text: string): Result<seq<Token>>
  {
    CLexFrom(text, 0, [])
  }

  // ---------------------------------------------------------------------------------
  // Properties of the specification.
  // ---------------------------------------------------------------------------------

  /** The stream ends with exactly one EOF, placed at the end of the text, and holds no
      bracket token and no plain string; every error is a bare message. */
  lemma CLexShape(text: string)
    ensures CLex(text).Ok? ==> EndsWithSingleEof(CLex(text).value)
    ensures CLex(text).Ok? ==> CLex(text).value[|CLex(text).value| - 1] == TokenAt(text, |text|, Eof, NoPayload)
    ensures CLex(text).Ok? ==> forall i :: 0 <= i < |CLex(text).value| ==> CLex(text).value[i].kind !in {LBracket, RBracket, PlainLit}
    ensures CLex(text).Err? ==> CLex(text).error.StructuralError?
  {
    CLexErrorsAreMessages(text, 0, []);
  }

  lemma {:induction false} CLexErrorsAreMessages(text: string, p: nat, toks: seq<Token>)
    requires p <= |text|
    ensures CLexFrom(text, p, toks).Err? ==> CLexFrom(text, p, toks).error.StructuralError?
    decreases |text| - p
  {
    var q := RunEnd(text, p, IsBlank);
    if q < |text| && CDispatchAt(text, q).Ok? {
      var s := CDispatchAt(text, q).value;
      CLexErrorsAreMessages(text, s.next, toks + [s.tok]);
    }
  }

  /** FindFrom finds c exactly when c occurs in the rest of the text. */
  lemma FoundIffPresent(text: string, i: nat, c: char)
    requires i <= |text|
    ensures FindFrom(text, i, c) < |text| <==> c in text[i..]
  {
    var e := FindFrom(text, i, c);
    if c in text[i..] {
      var k :| 0 <= k < |text[i..]| && text[i..][k] == c;
      assert text[i + k] == c;
    }
    if e < |text| {
      assert text[i..][e - i] == c;
    }
  }

  /** A comment keeps its surrounding blanks: it is the Go port's comment before trimming. */
  lemma CCommentUntrimmed(text: string, q: nat)
    requires q < |text| && text[q] == '['
    ensures var e := FindFrom(text, q + 1, ']');
      e < |text| ==>
        CCommentAt(text, q) == Ok(Scan(TokenAt(text, q, Comment, Text(text[q + 1..e])), e + 1)) &&
        GoLexer.GoCommentAt(text, q) == Ok(Scan(TokenAt(text, q, Comment, Text(Strip(text[q + 1..e], AsciiSpaces))), e + 1))
    ensures CCommentAt(text, q).Err? <==> ']' !in text[q + 1..]
  {
    FoundIffPresent(text, q + 1, ']');
  }

  /** The string reader accepts exactly what the Python port's does and yields the same
      token; only the error for a trailing backslash differs ("Unclosed string"). */
  lemma CStringIsPyString(text: string, q: nat)
    requires q < |text| && text[q] == '"'
    ensures CStringAt(text, q).Ok? <==> PyLexer.PyStringAt(text, q).Ok?
    ensures CStringAt(text, q).Ok? ==> CStringAt(text, q) == PyLexer.PyStringAt(text, q)
    ensures CStringAt(text, q).Err? ==> CStringAt(text, q) == Err(CError("Unclosed string"))
  {
  }

  /** The multiline reader is raw and agrees with the Python port's on every text it
      accepts. */
  lemma CMultilineIsRaw(text: string, q: nat)
    requires q < |text| && text[q] == '\''
    ensures CMultilineAt(text, q).Ok? <==> '\'' in text[q + 1..]
    ensures CMultilineAt(text, q).Ok? ==> CMultilineAt(text, q) == PyLexer.PyMultilineAt(text, q)
    ensures CMultilineAt(text, q).Ok? ==>
      var e := FindFrom(text, q + 1, '\'');
      CMultilineAt(text, q).value.tok.payload == Text(text[q + 1..e]) && '\'' !in text[q + 1..e]
  {
    FoundIffPresent(text, q + 1, '\'');
  }

  /** A signed number is a float exactly when its text holds a dot, and it never holds two. */
  lemma CSignedNumberDots(text: string, q: nat)
    requires q + 1 < |text| && text[q] == '-' && IsDigit(text[q + 1])
    ensures var r := CSignedNumberAt(text, q);
      (r.tok.kind == FloatLit <==> '.' in text[q..r.next]) &&
      (r.tok.kind == FloatLit ==> r.tok.payload == Text(text[q..r.next])) &&
      forall a :: q <= a < r.next && text[a] == '.' ==> '.' !in text[a + 1..r.next]
  {
    var nb := ScanNumberBody(text, q + 1, false, false);
    forall a | q <= a < nb.end && text[a] == '.'
      ensures '.' !in text[a + 1..nb.end]
    {
      NumberHasOneDot(text, q + 1, false, false, a);
    }
  }

  /** An unsigned number is digits only: a dot after it starts no token, so "1.5" is
      rejected with "Unexpected char" where the other ports read a float. */
  lemma CUnsignedStopsAtDot(text: string, q: nat, toks: seq<Token>)
    requires q < |text| && IsDigit(text[q])
    requires var e := RunEnd(text, q, IsDigit); e < |text| && text[e] == '.'
    ensures var e := RunEnd(text, q, IsDigit);
      CDispatchAt(text, q) == Ok(Scan(TokenAt(text, q, NumberLit, IntVal(Atoll(text[q..e]))), e)) &&
      CDispatchAt(text, e) == Err(CError("Unexpected char"))
    ensures CLexFrom(text, q, toks) == Err(CError("Unexpected char"))
  {
    var e := RunEnd(text, q, IsDigit);
    assert RunEnd(text, q, IsBlank) == q;
    assert RunEnd(text, e, IsBlank) == e;
  }

  /** The end of a run of P does not depend on where in the run it is looked for. */
  lemma {:induction false} RunEndFrom(text: string, i: nat, j: nat, P: char -> bool)
    requires i <= j <= |text| && forall k :: i <= k < j ==> P(text[k])
    ensures RunEnd(text, i, P) == RunEnd(text, j, P)
    decreases j - i
  {
    if i < j {
      RunEndFrom(text, i + 1, j, P);
    }
  }

  /** No type keyword and no boolean word starts with a digit. */
  lemma DigitLedWordIsPlain(w: string)
    requires |w| > 0 && IsDigit(w[0])
    ensures KeywordKind(w) == None && BoolWord(w) == None
  {
  }

  /** A digit run followed by a letter or '_' is one identifier carrying the whole word, as
      the identifier reader of the other ports reads it. */
  lemma CDigitsThenLetter(text: string, q: nat)
    requires q < |text| && IsDigit(text[q])
    requires var e := RunEnd(text, q, IsDigit); e < |text| && IsWordStart(text[e])
    ensures CDispatchAt(text, q) == Ok(IdentifierAt(text, q))
    ensures CDigitsAt(text, q).tok.kind == Identifier
  {
    var e := RunEnd(text, q, IsDigit);
    RunEndFrom(text, q, e, IsWordChar);
    var w := RunEnd(text, q, IsWordChar);
    var word := text[q..w];
    assert word[0] == text[q];
    DigitLedWordIsPlain(word);
    assert IdentifierAt(text, q) == Scan(TokenAt(text, q, Identifier, Text(word)), w);
    assert CDigitsAt(text, q) == Scan(TokenAt(text, q, Identifier, Text(word)), w);
    DispatchDigit(text, q);
  }

  /** A digit, signed by nothing, goes to the digit branch. */
  lemma DispatchDigit(text: string, q: nat)
    requires q < |text| && IsDigit(text[q])
    ensures CDispatchAt(text, q) == Ok(CDigitsAt(text, q))
  {
  }

  // ---------------------------------------------------------------------------------
  // The lexer as the port runs it: lex_state, its cursor and its token array.
  // ---------------------------------------------------------------------------------

  /** The capacity push gives a full token array: 128 the first time, then double. */
  function GrownTokenCap(cap: nat): (n: nat)
    ensures n > cap
  {
    if cap == 0 then 128 else cap * 2
  }

  /** lex_state. */
  class LexState {
    const text: string
    var pos: nat
    var line: int
    var col: int
    var toks: array<Token>
    var len: nat
    var cap: nat
    var err: Option<string>

    /** The cursor's line and column are those reached by advancing over text[..pos]; the
        first len slots of the array hold the tokens. */
    ghost predicate Valid()
      reads this
    {
      IsCString(text) && pos <= |text| && line == LineAt(text, pos) && col == ColAt(text, pos) &&
      toks.Length == cap && len <= cap
    }

    /** The tokens stored so far. */
    function Tokens(): seq<Token>
      reads this, toks
      requires len <= toks.Length
    {
      toks[..len]
    }

    /** The part of the state the character readers leave alone. */
    function Store(): (array<Token>, nat, nat, Option<string>)
      reads this
    {
      (toks, len, cap, err)
    }

    /** The state scl_lex_all starts from: at line 1, column 1, with no tokens and no
        array. */
    constructor (text: string)
      requires IsCString(text)
      ensures Valid() && this.text == text && pos == 0 && len == 0 && cap == 0 && err == None
      ensures fresh(toks)
    {
      this.text := text;
      pos := 0;
      line := 1;
      col := 1;
      toks := new Token[0];
      len := 0;
      cap := 0;
      err := None;
    }

    /** push: when the array is full it grows (to 128, then by doubling) before the token is
        stored after the others. */
    method Push(tk: Token)
      requires Valid()
      modifies this, toks
      ensures Valid() && pos == old(pos) && err == old(err)
      ensures len == old(len) + 1 && Tokens() == old(Tokens()) + [tk]
      ensures cap == if old(len) == old(cap) then GrownTokenCap(old(cap)) else old(cap)
      ensures toks == old(toks) || fresh(toks)
    {
      if len == cap {
        var ncap := GrownTokenCap(cap);
        var grown := new Token[ncap];
        forall i | 0 <= i < len {
          grown[i] := toks[i];
        }
        toks := grown;
        cap := ncap;
      }
      toks[len] := tk;
      len := len + 1;
    }

    /** peekc: the code of the character off places ahead, or -1 at the terminating NUL. */
    function Peekc(off: nat): (c: int)
      reads this
      ensures c >= 0 <==> pos + off < |text|
      ensures c >= 0 ==> c == text[pos + off] as int
      ensures c < 0 ==> c == -1
    {
      if pos + off < |text| then text[pos + off] as int else -1
    }

    /** adv: consume one character; a line break moves to column 1 of the next line, any
        other character one column right; at the end nothing changes. */
    method Adv() returns (c: int)
      requires Valid()
      modifies this
      ensures Valid() && Store() == old(Store())
      ensures c == old(Peekc(0))
      ensures c >= 0 ==> pos == old(pos) + 1
      ensures c == '\n' as int ==> line == old(line) + 1 && col == 1
      ensures c >= 0 && c != '\n' as int ==> line == old(line) && col == old(col) + 1
      ensures c < 0 ==> pos == old(pos) && line == old(line) && col == old(col)
    {
      c := Peekc(0);
      if c < 0 {
        return;
      }
      pos := pos + 1;
      if c == '\n' as int {
        line := line + 1;
        col := 1;
      } else {
        col := col + 1;
      }
    }

    /** skip_ws: spaces and tabs. */
    method SkipWs()
      requires Valid()
      modifies this
      ensures Valid() && Store() == old(Store())
      ensures pos == RunEnd(text, old(pos), IsBlank)
    {
      var c := Peekc(0);
      while c == ' ' as int || c == '\t' as int
        invariant Valid() && Store() == old(Store()) && old(pos) <= pos
        invariant RunEnd(text, pos, IsBlank) == RunEnd(text, old(pos), IsBlank)
        invariant c == Peekc(0)
        decreases |text| - pos
      {
        var _ := Adv();
        c := Peekc(0);
      }
    }

    /** The comment branch of lex. */
    method LexComment() returns (r: Result<Token>)
      requires Valid() && pos < |text| && text[pos] == '['
      modifies this
      ensures Valid() && Store() == old(Store())
      ensures Agrees(r, CCommentAt(text, old(pos)), pos)
    {
      var line0, col0 := line, col;
      var _ := Adv();
      var start := pos;
      ghost var e := FindFrom(text, start, ']');
      while Peekc(0) >= 0 && Peekc(0) != ']' as int
        invariant Valid() && Store() == old(Store()) && start <= pos <= e
        decreases |text| - pos
      {
        var _ := Adv();
      }
      if Peekc(0) != ']' as int {
        return Err(CError("Unclosed comment"));
      }
      var s := text[start..pos];
      var _ := Adv();
      return Ok(Token(Comment, Text(s), line0, col0));
    }

    /** The string branch of lex. */
    method LexString() returns (r: Result<Token>)
      requires Valid() && pos < |text| && text[pos] == '"'
      modifies this
      ensures Valid() && Store() == old(Store())
      ensures Agrees(r, CStringAt(text, old(pos)), pos)
    {
      var line0, col0 := line, col;
      var _ := Adv();
      var buf := "";
      ghost var spec := SimpleQuoted(text, pos, '"', []);
      ghost var dangling := false;
      while Peekc(0) >= 0 && Peekc(0) != '"' as int
        invariant Valid() && Store() == old(Store()) && old(pos) < pos <= |text|
        invariant if dangling then pos == |text| && spec == DanglingBackslash
                  else SimpleQuoted(text, pos, '"', buf) == spec
        decreases |text| - pos
      {
        var ch := Adv();
        if ch == '\\' as int {
          var n := Adv();
          if n < 0 {
            // (char)-1 is stored; the loop then stops at the end of the text.
            dangling := true;
            buf := buf + ['\U{FF}'];
          } else {
            buf := buf + [SimpleEscape(text[pos - 1])];
          }
        } else {
          buf := buf + [text[pos - 1]];
        }
      }
      if Peekc(0) != '"' as int {
        return Err(CError("Unclosed string"));
      }
      var _ := Adv();
      return Ok(Token(StringLit, Text(buf), line0, col0));
    }

    /** The multiline-string branch of lex. */
    method LexMultiline() returns (r: Result<Token>)
      requires Valid() && pos < |text| && text[pos] == '\''
      modifies this
      ensures Valid() && Store() == old(Store())
      ensures Agrees(r, CMultilineAt(text, old(pos)), pos)
    {
      var line0, col0 := line, col;
      var _ := Adv();
      var start := pos;
      ghost var e := FindFrom(text, start, '\'');
      while Peekc(0) >= 0 && Peekc(0) != '\'' as int
        invariant Valid() && Store() == old(Store()) && start <= pos <= e
        decreases |text| - pos
      {
        var _ := Adv();
      }
      if Peekc(0) != '\'' as int {
        return Err(CError("Unclosed multiline string"));
      }
      var s := text[start..pos];
      var _ := Adv();
      return Ok(Token(MultilineLit, Text(s), line0, col0));
    }

    /** The negative-number branch of lex. */
    method LexSignedNumber() returns (t: Token)
      requires Valid() && pos + 1 < |text| && text[pos] == '-' && IsDigit(text[pos + 1])
      modifies this
      ensures Valid() && Store() == old(Store())
      ensures t == CSignedNumberAt(text, old(pos)).tok && pos == CSignedNumberAt(text, old(pos)).next
    {
      var line0, col0 := line, col;
      var start := pos;
      var _ := Adv();
      var hasDot := false;
      ghost var digits := false;
      while IsDigitCode(Peekc(0)) || Peekc(0) == '.' as int
        invariant Valid() && Store() == old(Store()) && start < pos <= |text|
        invariant ScanNumberBody(text, pos, hasDot, digits) == ScanNumberBody(text, start + 1, false, false)
        decreases |text| - pos
      {
        if Peekc(0) == '.' as int {
          if hasDot {
            break;
          }
          hasDot := true;
        } else {
          digits := true;
        }
        var _ := Adv();
      }
      var s := text[start..pos];
      if '.' in s {
        return Token(FloatLit, Text(s), line0, col0);
      }
      assert forall k :: 0 <= k < |s[1..]| ==> s[1..][k] == text[start + 1 + k];
      return Token(NumberLit, IntVal(Atoll(s)), line0, col0);
    }

    /** The unsigned-number branch of lex: digits, and an identifier if a letter or '_'
        follows them. */
    method LexDigits() returns (t: Token)
      requires Valid() && pos < |text| && IsDigit(text[pos])
      modifies this
      ensures Valid() && Store() == old(Store())
      ensures t == CDigitsAt(text, old(pos)).tok && pos == CDigitsAt(text, old(pos)).next
    {
      var line0, col0 := line, col;
      var p := pos;
      while IsDigitCode(Peekc(0))
        invariant Valid() && Store() == old(Store()) && p <= pos <= |text|
        invariant RunEnd(text, pos, IsDigit) == RunEnd(text, p, IsDigit)
        decreases |text| - pos
      {
        var _ := Adv();
      }
      ghost var e := pos;
      assert e == RunEnd(text, p, IsDigit);
      if IsAlphaCode(Peekc(0)) || Peekc(0) == '_' as int {
        while IsIdentCode(Peekc(0))
          invariant Valid() && Store() == old(Store()) && e <= pos <= |text|
          invariant RunEnd(text, pos, IsWordChar) == RunEnd(text, e, IsWordChar)
          decreases |text| - pos
        {
          var _ := Adv();
        }
        assert pos == RunEnd(text, e, IsWordChar);
        return Token(Identifier, Text(text[p..pos]), line0, col0);
      }
      assert !(e < |text| && IsWordStart(text[e]));
      var s := text[p..pos];
      assert forall k :: 0 <= k < |s| ==> s[k] == text[p + k];
      return Token(NumberLit, IntVal(Atoll(s)), line0, col0);
    }

    /** The identifier branch of lex: the word, looked up among the type keywords and the
        boolean words. */
    method LexWord() returns (t: Token)
      requires Valid() && pos < |text|
      modifies this
      ensures Valid() && Store() == old(Store())
      ensures t == IdentifierAt(text, old(pos)).tok && pos == IdentifierAt(text, old(pos)).next
    {
      var line0, col0 := line, col;
      var start := pos;
      while IsIdentCode(Peekc(0))
        invariant Valid() && Store() == old(Store()) && start <= pos <= |text|
        invariant RunEnd(text, pos, IsWordChar) == RunEnd(text, start, IsWordChar)
        decreases |text| - pos
      {
        var _ := Adv();
      }
      var s := text[start..pos];
      match KeywordKind(s)
      case Some(k) => return Token(k, Text(s), line0, col0);
      case None =>
        match BoolWord(s)
        case Some(b) => return Token(BooleanLit, BoolVal(b), line0, col0);
        case None => return Token(Identifier, Text(s), line0, col0);
    }

    /** One pass of lex's loop once the blanks are skipped and a character is left: the
        token it pushes, or the error it stores. */
    method LexToken() returns (r: Result<Token>)
      requires Valid() && pos < |text|
      modifies this
      ensures Valid() && Store() == old(Store())
      ensures Agrees(r, CDispatchAt(text, old(pos)), pos)
    {
      var c := Peekc(0);
      if c == '[' as int {
        r := LexComment();
      } else if c == '\n' as int {
        var tk := Token(Newline, NoPayload, line, col);
        var _ := Adv();
        r := Ok(tk);
      } else if c == ':' as int && Peekc(1) == ':' as int {
        var tk := Token(DoubleColon, NoPayload, line, col);
        var _ := Adv();
        var _ := Adv();
        r := Ok(tk);
      } else if IsPunct(text[pos]) {
        var tk := Token(PunctKind(text[pos]), NoPayload, line, col);
        var _ := Adv();
        r := Ok(tk);
      } else if c == '"' as int {
        r := LexString();
      } else if c == '\'' as int {
        r := LexMultiline();
      } else if c == '-' as int && IsDigitCode(Peekc(1)) {
        var t := LexSignedNumber();
        r := Ok(t);
      } else if IsDigitCode(c) {
        var t := LexDigits();
        r := Ok(t);
      } else if IsAlphaCode(c) || c == '_' as int {
        var t := LexWord();
        r := Ok(t);
      } else {
        r := Err(CError("Unexpected char"));
      }
    }

    /** lex: tokens until the terminating NUL, then EOF; on an error the message is stored
        and -1 returned. */
    method Lex() returns (rc: int)
      requires Valid()
      modifies this, toks
      ensures Valid()
      ensures rc == 0 || rc == -1
      ensures var spec := CLexFrom(text, old(pos), old(Tokens()));
        (rc == 0 <==> spec.Ok?) &&
        (rc == 0 ==> Tokens() == spec.value) &&
        (rc == -1 ==> err == Some(spec.error.msg))
    {
      ghost var spec := CLexFrom(text, old(pos), old(Tokens()));
      CLexErrorsAreMessages(text, old(pos), old(Tokens()));
      while true
        invariant Valid() && (toks == old(toks) || fresh(toks))
        invariant CLexFrom(text, pos, Tokens()) == spec
        decreases |text| - pos
      {
        SkipWs();
        var c := Peekc(0);
        if c < 0 {
          break;
        }
        var t := LexToken();
        if t.Err? {
          err := Some(t.error.msg);
          return -1;
        }
        Push(t.value);
      }
      Push(Token(Eof, NoPayload, line, col));
      return 0;
    }
  }

  /** scl_lex_all (and scl_tokens_from_text over it): the tokens of the text, or the stored
      message ("Lex error" when none was stored). */
  method LexAll(text: string) returns (r: Result<seq<Token>>)
    requires IsCString(text)
    ensures r == CLex(text)
  {
    var st := new LexState(text);
    assert st.Tokens() == [];
    CLexShape(text);
    var rc := st.Lex();
    if rc != 0 {
      var msg := if st.err.Some? then st.err.value else "Lex error";
      return Err(CError(msg));
    }
    return Ok(st.toks[..st.len]);
  }
}
