/** Character-level scanning shared by the lexers: where a reader stops, and the line and
    column a lexer has reached at a given index. */
module Scanning {
  import opened Wrappers
  import opened Text
  import opened Tokens

  /** The line a lexer is on after advancing over text[..p]: every line break starts a new
      line. */
  function LineAt(text: string, p: nat): (l: int)
    requires p <= |text|
    ensures l >= 1
  {
    if p == 0 then 1 else LineAt(text, p - 1) + (if text[p - 1] == '\n' then 1 else 0)
  }

  /** The column a lexer is on after advancing over text[..p]: a line break resets it to 1,
      any other character moves it one to the right. */
  function ColAt(text: string, p: nat): (c: int)
    requires p <= |text|
    ensures c >= 1
  {
    if p == 0 then 1 else if text[p - 1] == '\n' then 1 else ColAt(text, p - 1) + 1
  }

  /** Line and column depend only on the text already consumed. */
  lemma {:induction false} PositionOfPrefix(text: string, e: nat, p: nat)
    requires p <= e <= |text|
    ensures LineAt(text[..e], p) == LineAt(text, p) && ColAt(text[..e], p) == ColAt(text, p)
  {
    if p > 0 {
      PositionOfPrefix(text, e, p - 1);
    }
  }

  /** The column counts the characters since the last line break, plus one. */
  lemma {:induction false} ColumnCountsFromLineStart(text: string, p: nat, k: nat)
    requires k <= p <= |text|
    requires forall i :: p - k <= i < p ==> text[i] != '\n'
    ensures ColAt(text, p) == ColAt(text, p - k) + k && LineAt(text, p) == LineAt(text, p - k)
  {
    if k > 0 {
      ColumnCountsFromLineStart(text, p - 1, k - 1);
    }
  }

  /** The first index at or after i that holds c, or |text| when there is none. */
  function FindFrom(text: string, i: nat, c: char): (j: nat)
    requires i <= |text|
    ensures i <= j <= |text| && (j < |text| ==> text[j] == c)
    ensures forall k :: i <= k < j ==> text[k] != c
    decreases |text| - i
  {
    if i == |text| || text[i] == c then i else FindFrom(text, i + 1, c)
  }

  /** The end of the run of characters satisfying P that starts at i. */
  function RunEnd(text: string, i: nat, P: char -> bool): (j: nat)
    requires i <= |text|
    ensures i <= j <= |text| && (j < |text| ==> !P(text[j]))
    ensures forall k :: i <= k < j ==> P(text[k])
    decreases |text| - i
  {
    if i == |text| || !P(text[i]) then i else RunEnd(text, i + 1, P)
  }

  /** Where a number's body (digits, and at most one dot) ends, whether it holds a dot and
      whether it holds a digit; hasDot and hasDigits say what the part before i held. */
  datatype NumberBody = NumberBody(end: nat, hasDot: bool, hasDigits: bool)

  function ScanNumberBody(text: string, i: nat, hasDot: bool, hasDigits: bool): (r: NumberBody)
    requires i <= |text|
    ensures i <= r.end <= |text|
    ensures forall k :: i <= k < r.end ==> IsDigit(text[k]) || text[k] == '.'
    ensures r.end < |text| ==> !IsDigit(text[r.end]) && (text[r.end] == '.' ==> r.hasDot)
    decreases |text| - i
  {
    if i < |text| && IsDigit(text[i]) then ScanNumberBody(text, i + 1, hasDot, true)
    else if i < |text| && text[i] == '.' && !hasDot then ScanNumberBody(text, i + 1, true, hasDigits)
    else NumberBody(i, hasDot, hasDigits)
  }

  /** The flags the scan ends with: a dot was seen exactly when one was seen before or the
      body holds one (and none when one was seen before); digits likewise. */
  lemma {:induction false} NumberBodyFlags(text: string, i: nat, hasDot: bool, hasDigits: bool)
    requires i <= |text|
    ensures var r := ScanNumberBody(text, i, hasDot, hasDigits);
      (r.hasDot <==> hasDot || '.' in text[i..r.end]) &&
      (hasDot ==> '.' !in text[i..r.end]) &&
      (r.hasDigits <==> hasDigits || HasDigit(text[i..r.end]))
    decreases |text| - i
  {
    var r := ScanNumberBody(text, i, hasDot, hasDigits);
    if i < |text| && IsDigit(text[i]) {
      NumberBodyFlags(text, i + 1, hasDot, true);
      assert text[i..r.end] == [text[i]] + text[i + 1..r.end];
      assert text[i..r.end][0] == text[i];
    } else if i < |text| && text[i] == '.' && !hasDot {
      NumberBodyFlags(text, i + 1, true, hasDigits);
      assert text[i..r.end] == [text[i]] + text[i + 1..r.end];
      assert HasDigit(text[i + 1..r.end]) <==> HasDigit(text[i..r.end]) by {
        if HasDigit(text[i..r.end]) {
          var k :| 0 <= k < r.end - i && IsDigit(text[i..r.end][k]);
          assert k > 0 && text[i + 1..r.end][k - 1] == text[i..r.end][k];
        }
        if HasDigit(text[i + 1..r.end]) {
          var k :| 0 <= k < r.end - i - 1 && IsDigit(text[i + 1..r.end][k]);
          assert text[i..r.end][k + 1] == text[i + 1..r.end][k];
        }
      }
    }
  }

  /** A number's body holds at most one dot: nothing after a dot is another dot. */
  lemma {:induction false} NumberHasOneDot(text: string, i: nat, hasDot: bool, hasDigits: bool, a: nat)
    requires i <= |text| && i <= a < ScanNumberBody(text, i, hasDot, hasDigits).end && text[a] == '.'
    ensures '.' !in text[a + 1..ScanNumberBody(text, i, hasDot, hasDigits).end]
    decreases |text| - i
  {
    if i < a {
      if IsDigit(text[i]) {
        NumberHasOneDot(text, i + 1, hasDot, true, a);
      } else {
        NumberHasOneDot(text, i + 1, true, hasDigits, a);
      }
    } else {
      NumberBodyFlags(text, i + 1, true, hasDigits);
    }
  }

  /** A reader's outcome: the token it built and the index just after what it consumed. */
  datatype Scan = Scan(tok: Token, next: nat)

  /** How a quoted literal without \u escapes ends: closed at index close with body s, still
      open at the end of the text, or a backslash as its last character. */
  datatype Quoted = Closed(s: string, close: nat) | Unclosed | DanglingBackslash

  /** The backslash escapes of the language ports: \n and \t stand for a line break and a tab,
      any other escaped character stands for itself. */
  function SimpleEscape(c: char): char
  {
    if c == 'n' then '\n' else if c == 't' then '\t' else c
  }

  /** The body of a double-quoted literal from index p on, decoded with SimpleEscape; acc is
      the part already decoded. */
  function SimpleQuoted(text: string, p: nat, quote: char, acc: string): (r: Quoted)
    requires p <= |text|
    ensures r.Closed? ==> p <= r.close < |text| && text[r.close] == quote
    decreases |text| - p
  {
    if p == |text| then Unclosed
    else if text[p] == quote then Closed(acc, p)
    else if text[p] == '\\' then
      if p + 1 == |text| then DanglingBackslash
      else SimpleQuoted(text, p + 2, quote, acc + [SimpleEscape(text[p + 1])])
    else SimpleQuoted(text, p + 1, quote, acc + [text[p]])
  }

  /** The body of a raw (single-quoted) literal: everything up to the closing quote. */
  function RawQuoted(text: string, p: nat, quote: char): (r: Quoted)
    requires p <= |text|
    ensures r.Closed? ==> p <= r.close < |text| && quote !in r.s && r.s == text[p..r.close]
  {
    var e := FindFrom(text, p, quote);
    if e == |text| then Unclosed else Closed(text[p..e], e)
  }

  /** What the ports' string readers decode from a serialized one-line string: with no
      backslash left in it (Escape adds one before every quote and backslash), a quoted
      body decodes back to itself. */
  lemma {:induction false} SimpleQuotedPlain(text: string, p: nat, s: string, acc: string)
    requires p + |s| < |text| && text[p..p + |s|] == s && text[p + |s|] == '"'
    requires '"' !in s && '\\' !in s
    ensures SimpleQuoted(text, p, '"', acc) == Closed(acc + s, p + |s|)
    decreases |s|
  {
    if s != [] {
      assert text[p] == s[0];
      assert text[p + 1..p + 1 + |s[1..]|] == s[1..];
      SimpleQuotedPlain(text, p + 1, s[1..], acc + [s[0]]);
      assert acc + [s[0]] + s[1..] == acc + s;
    }
  }
}
