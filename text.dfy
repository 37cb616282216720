/** Character classes and string helpers shared by the lexers and serializers.
    Every lexer is modelled on ASCII text, where Python's isdigit/isalpha/isalnum,
    Go's unicode.IsDigit/IsLetter, Ruby's range tests and C's ctype tests agree. */
module Text {
  predicate IsDigit(c: char) { '0' <= c <= '9' }
  predicate IsAlpha(c: char) { 'a' <= c <= 'z' || 'A' <= c <= 'Z' }
  predicate IsAlnum(c: char) { IsDigit(c) || IsAlpha(c) }

  /** The characters an identifier continues with: letters, digits, '_' and '-'. */
  predicate IsWordChar(c: char) { IsAlnum(c) || c == '_' || c == '-' }

  /** The characters an identifier may start with. */
  predicate IsWordStart(c: char) { IsAlpha(c) || c == '_' }

  /** Spaces and tabs, the only characters the lexers skip between tokens. */
  predicate IsBlank(c: char) { c == ' ' || c == '\t' }

  predicate IsHexDigit(c: char) { IsDigit(c) || 'a' <= c <= 'f' || 'A' <= c <= 'F' }

  function HexValue(c: char): (v: nat)
    requires IsHexDigit(c)
    ensures v < 16
    ensures IsDigit(c) ==> v == c as int - '0' as int
  {
    if IsDigit(c) then c as int - '0' as int
    else if 'a' <= c <= 'f' then c as int - 'a' as int + 10
    else c as int - 'A' as int + 10
  }

  /** ASCII whitespace as Python's str.strip sees it (it includes the separators 0x1C-0x1F). */
  predicate IsPyStripSpace(c: char) { c == ' ' || '\t' <= c <= '\r' || '\U{1C}' <= c <= '\U{1F}' }

  /** ASCII whitespace as Rust's str::trim and Go's strings.TrimSpace see it. */
  predicate IsAsciiSpace(c: char) { c == ' ' || '\t' <= c <= '\r' }

  /** Ruby's String#strip also removes NUL. */
  predicate IsRubyStripSpace(c: char) { c == '\0' || IsAsciiSpace(c) }

  /** Which characters a strip function removes: Python's, Rust's and Go's, or Ruby's. */
  datatype SpaceSet = PySpaces | AsciiSpaces | RubySpaces

  predicate IsSpace(ws: SpaceSet, c: char)
  {
    match ws
    case PySpaces => IsPyStripSpace(c)
    case AsciiSpaces => IsAsciiSpace(c)
    case RubySpaces => IsRubyStripSpace(c)
  }

  /** How many leading characters of s are spaces. */
  function LeadingSpaces(s: string, ws: SpaceSet): (i: nat)
    ensures i <= |s| && (i < |s| ==> !IsSpace(ws, s[i]))
    ensures forall k :: 0 <= k < i ==> IsSpace(ws, s[k])
  {
    if s == [] || !IsSpace(ws, s[0]) then 0 else 1 + LeadingSpaces(s[1..], ws)
  }

  /** The length of s without its trailing spaces. */
  function WithoutTrailingSpaces(s: string, ws: SpaceSet): (j: nat)
    ensures j <= |s| && (j > 0 ==> !IsSpace(ws, s[j - 1]))
    ensures forall k :: j <= k < |s| ==> IsSpace(ws, s[k])
  {
    if s == [] || !IsSpace(ws, s[|s| - 1]) then |s| else WithoutTrailingSpaces(s[..|s| - 1], ws)
  }

  /** str.strip / str::trim / strings.TrimSpace / String#strip, for the given notion of space:
      what remains once the leading and trailing spaces are cut off. */
  function Strip(s: string, ws: SpaceSet): (r: string)
    ensures r == [] || (!IsSpace(ws, r[0]) && !IsSpace(ws, r[|r| - 1]))
  {
    var i := LeadingSpaces(s, ws);
    if i == |s| then [] else s[i..WithoutTrailingSpaces(s, ws)]
  }

  /** Strip cuts off spaces only, and everything between the first and the last non-space
      character survives. */
  lemma StripKeepsCore(s: string, ws: SpaceSet, k: nat)
    requires k < |s| && !IsSpace(ws, s[k])
    ensures var i := LeadingSpaces(s, ws);
      i <= k < WithoutTrailingSpaces(s, ws) && Strip(s, ws)[k - i] == s[k]
  {
  }

  /** The decimal digits of a natural number, most significant first. */
  function NatText(n: nat): (r: string)
    ensures |r| > 0 && forall k :: 0 <= k < |r| ==> IsDigit(r[k])
    decreases n
  {
    var d := ['0' + (n % 10) as char];
    if n < 10 then d else NatText(n / 10) + d
  }

  /** str(i) for a Python int, to_s for a Ruby Integer, %d in Go. */
  function Decimal(i: int): string
  {
    if i < 0 then "-" + NatText(-i) else NatText(i)
  }

  /** A single digit is written as that digit. */
  lemma DecimalOfDigit(d: int)
    requires 0 <= d < 10
    ensures Decimal(d) == ['0' + d as char]
  {
    assert d % 10 == d;
  }

  predicate AllDigits(s: string) { forall k :: 0 <= k < |s| ==> IsDigit(s[k]) }

  predicate HasDigit(s: string) { exists k :: 0 <= k < |s| && IsDigit(s[k]) }

  /** The text of an integer literal: an optional '-' followed by one or more digits. */
  predicate IsIntText(s: string)
  {
    |s| > 0 && if s[0] == '-' then |s| > 1 && AllDigits(s[1..]) else AllDigits(s)
  }

  function DigitsValue(s: string): nat
    requires AllDigits(s)
  {
    if s == [] then 0 else DigitsValue(s[..|s| - 1]) * 10 + (s[|s| - 1] as int - '0' as int)
  }

  /** The range of a 64-bit signed integer (Rust i64, Go int64). */
  const I64Min: int := -0x8000_0000_0000_0000
  const I64Max: int := 0x7FFF_FFFF_FFFF_FFFF

  predicate InI64(n: int) { I64Min <= n <= I64Max }

  /** int(s) in Python, to_i in Ruby, ParseInt in Go, atoll in C, on integer text. */
  function ParseInt(s: string): int
    requires IsIntText(s)
  {
    if s[0] == '-' then 0 - DigitsValue(s[1..]) else DigitsValue(s)
  }

  lemma {:induction false} NatTextValue(n: nat)
    ensures DigitsValue(NatText(n)) == n
    decreases n
  {
    var d := ['0' + (n % 10) as char];
    if n >= 10 {
      NatTextValue(n / 10);
      var t := NatText(n / 10) + d;
      assert t[..|t| - 1] == NatText(n / 10);
    }
  }

  /** Parsing the decimal text of an integer gives the integer back. */
  lemma DecimalRoundTrip(i: int)
    ensures IsIntText(Decimal(i)) && ParseInt(Decimal(i)) == i
  {
    if i < 0 {
      NatTextValue(-i);
      assert Decimal(i)[1..] == NatText(-i);
    } else {
      NatTextValue(i);
    }
  }

  /** "sep".join(parts) */
  function Join(parts: seq<string>, sep: string): string
  {
    if |parts| == 0 then "" else if |parts| == 1 then parts[0] else parts[0] + sep + Join(parts[1..], sep)
  }

  lemma {:induction false} JoinSnoc(parts: seq<string>, x: string, sep: string)
    requires |parts| > 0
    ensures Join(parts + [x], sep) == Join(parts, sep) + sep + x
  {
    if |parts| == 1 {
      assert (parts + [x])[1..] == [x];
    } else {
      assert (parts + [x])[1..] == parts[1..] + [x];
      JoinSnoc(parts[1..], x, sep);
    }
  }

  /** s.replace(c, r) for a single character c. */
  function Replace(s: string, c: char, r: string): string
  {
    if s == [] then [] else (if s[0] == c then r else [s[0]]) + Replace(s[1..], c, r)
  }

  /** How the serializers quote a one-line string: backslashes doubled first, then
      double quotes preceded by a backslash. */
  function Escape(s: string): string
  {
    Replace(Replace(s, '\\', "\\\\"), '"', "\\\"")
  }

  function EscapeChar(c: char): string
  {
    if c == '\\' then "\\\\" else if c == '"' then "\\\"" else [c]
  }

  /** Escape, character by character. */
  function EscapeEach(s: string): string
  {
    if s == [] then [] else EscapeChar(s[0]) + EscapeEach(s[1..])
  }

  lemma {:induction false} ReplaceAppend(a: string, b: string, c: char, r: string)
    ensures Replace(a + b, c, r) == Replace(a, c, r) + Replace(b, c, r)
  {
    if a != [] {
      assert (a + b)[0] == a[0] && (a + b)[1..] == a[1..] + b;
      ReplaceAppend(a[1..], b, c, r);
    } else {
      assert a + b == b;
    }
  }

  /** A character that does not occur is not replaced anywhere. */
  lemma {:induction false} ReplaceAbsent(s: string, c: char, r: string)
    requires c !in s
    ensures Replace(s, c, r) == s
  {
    if s != [] {
      ReplaceAbsent(s[1..], c, r);
      assert s == [s[0]] + s[1..];
    }
  }

  /** The two passes of Escape amount to escaping each character once: the first pass adds
      only backslashes, which the second pass leaves alone. */
  lemma {:induction false} EscapeIsEscapeEach(s: string)
    ensures Escape(s) == EscapeEach(s)
  {
    if s != [] {
      var once := Replace(s, '\\', "\\\\");
      assert once == (if s[0] == '\\' then "\\\\" else [s[0]]) + Replace(s[1..], '\\', "\\\\");
      ReplaceAppend(if s[0] == '\\' then "\\\\" else [s[0]], Replace(s[1..], '\\', "\\\\"), '"', "\\\"");
      EscapeIsEscapeEach(s[1..]);
      if s[0] == '\\' {
        assert Replace("\\\\", '"', "\\\"") == "\\\\" by {
          assert "\\\\"[1..] == "\\";
          assert "\\"[1..] == [];
        }
      } else {
        assert Replace([s[0]], '"', "\\\"") == EscapeChar(s[0]) by {
          assert [s[0]][1..] == [];
        }
      }
    }
  }

  /** Escaping neither adds nor removes line breaks. */
  lemma {:induction false} EscapeKeepsNewlines(s: string)
    ensures ('\n' in Escape(s)) <==> ('\n' in s)
  {
    EscapeIsEscapeEach(s);
    EscapeEachNewlines(s);
  }

  lemma {:induction false} EscapeEachNewlines(s: string)
    ensures ('\n' in EscapeEach(s)) <==> ('\n' in s)
  {
    if s != [] {
      EscapeEachNewlines(s[1..]);
      assert s == [s[0]] + s[1..];
    }
  }

  /** " " * n */
  function Spaces(n: nat): (r: string)
    ensures |r| == n && forall k :: 0 <= k < n ==> r[k] == ' '
  {
    seq(n, _ => ' ')
  }

  predicate StartsWith(s: string, p: string) { |p| <= |s| && s[..|p|] == p }
  predicate EndsWith(s: string, p: string) { |p| <= |s| && s[|s| - |p|..] == p }
}
