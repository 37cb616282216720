/** Properties of the Rust port's serializer: what trim_float keeps, how strings come back
    through the Rust lexer, one line per key in any iteration order, and that every map
    the parser produces can be written. */
module RustSerializerFacts {
  import opened Wrappers
  import opened Text
  import opened Tokens
  import opened RustLexer
  import opened RustParser
  import opened RustSerializer

  /** trim_float leaves text without a dot alone. With a dot it keeps a non-empty prefix
      that does not end in a dot and drops only zeros and dots, or it gives "0". */
  lemma TrimFloatShape(s: string)
    ensures '.' !in s ==> TrimFloat(s) == s
    ensures '.' in s ==> var r := TrimFloat(s);
      r == "0" || (0 < |r| <= |s| && r == s[..|r|] && r[|r| - 1] != '.' &&
                   forall k :: |r| <= k < |s| ==> s[k] == '0' || s[k] == '.')
  {
    if '.' in s {
      var t0 := TrimEnd(s, '0');
      var t := TrimEnd(t0, '.');
      assert forall k :: |t| <= k < |s| ==> s[k] == '0' || s[k] == '.' by {
        forall k | |t| <= k < |s| ensures s[k] == '0' || s[k] == '.' {
          if k < |t0| {
            assert t0[k] == s[k];
          }
        }
      }
      assert t == s[..|t|] by {
        assert t == t0[..|t|];
        assert s[..|t0|][..|t|] == s[..|t|];
      }
    }
  }

  /** Trimming a trimmed float changes nothing when the text has at most one dot, as a
      float lexeme has. With two dots it can: "1.0.0" trims to "1.0", which trims to "1". */
  lemma TrimFloatIdempotent(s: string)
    requires forall i, j :: 0 <= i < j < |s| && s[i] == '.' ==> s[j] != '.'
    ensures TrimFloat(TrimFloat(s)) == TrimFloat(s)
  {
    if '.' in s {
      var t0 := TrimEnd(s, '0');
      var t := TrimEnd(t0, '.');
      if t != [] && '.' in t {
        assert t == t0 by {
          var i :| 0 <= i < |t| && t[i] == '.';
          assert t0[i] == t[i] && s[i] == '.';
        }
        assert TrimEnd(t, '0') == t;
        assert TrimEnd(t, '.') == t;
      }
    }
  }

  lemma TrimFloatTwoDots()
    ensures TrimFloat("1.0.0") == "1.0" && TrimFloat(TrimFloat("1.0.0")) == "1"
  {
    assert TrimEnd("1.0.0", '0') == "1.0.";
    assert TrimEnd("1.0.", '.') == "1.0";
    assert TrimEnd("1.0", '0') == "1.";
    assert TrimEnd("1.", '.') == "1";
  }

  /** A string with a line break is written exactly as the same text in an ml slot. */
  lemma NewlineStringIsMl(s: string, o: Order, ind: nat, level: nat)
    requires '\n' in s
    ensures ValueText(RStr(s), o, ind, level) == ValueText(RMl(s), o, ind, level)
    ensures DynamicText(RStr(s), ind, level) == Ok(MlText(s, ind, level))
  {
  }

  /** A one-line string is written quoted and escaped, and the Rust lexer reads the quoted
      part back as a String token holding s. */
  lemma StrValueReadsBack(s: string, o: Order, ind: nat, level: nat, d: nat)
    requires '\n' !in s
    ensures ValueText(RStr(s), o, ind, level) == Ok("str { " + "\"" + Escape(s) + "\"" + " }")
    ensures var text := "str { " + "\"" + Escape(s) + "\"" + " }";
      RStringAt(text, 6, d).Ok? && RStringAt(text, 6, d).value.tok == RTokenAt(text, 6, d, StringLit, Text(s)) &&
      RStringAt(text, 6, d).value.next == |text| - 2
  {
    RustEscapedStringReadsBack("str { ", s, " }", d);
    assert StrText("str", s, ind, level) == "str { " + "\"" + Escape(s) + "\"" + " }";
  }

  /** The ml form of a string without a single quote reads back through the Rust lexer as a
      MultilineString token holding the string. */
  lemma MlValueReadsBack(s: string, ind: nat, level: nat, d: nat)
    requires '\'' !in s
    ensures var text := MlText(s, ind, level); var p := 9 + ind * level;
      RMultilineAt(text, p, d).Ok? && RMultilineAt(text, p, d).value.tok == RTokenAt(text, p, d, MultilineLit, Text(s))
  {
    var pre := "ml {\n" + Indent(ind, level) + "    ";
    var post := "\n" + Indent(ind, level) + "}";
    var text := pre + "'" + s + "'" + post;
    assert text == MlText(s, ind, level);
    var p := |pre|;
    assert p == 9 + ind * level;
    assert text[p] == '\'';
    assert text[p + 1..p + 1 + |s|] == s;
    assert text[p + 1 + |s|] == '\'';
    RustRawStringReadsBack(text, p, d, s);
  }

  /** Line i of a level is the entry line of the i-th key in iteration order; with an order
      that enumerates the map, every key has exactly one line. */
  lemma {:induction false} LevelLinesAreEntries(v: RValue, o: Order, n: nat, ind: nat, level: nat)
    requires v.RClass? && Fits(o, v) && n <= |o.keys| && LevelLines(v, o, n, ind, level).Ok?
    ensures forall i :: 0 <= i < n ==>
      EntryLine(v, o, o.keys[i], ind, level).Ok? && LevelLines(v, o, n, ind, level).value[i] == EntryLine(v, o, o.keys[i], ind, level).value
    decreases n
  {
    if n > 0 {
      LevelLinesAreEntries(v, o, n - 1, ind, level);
    }
  }

  /** A dynamic value is written exactly when it holds a base value; anything else makes
      serialize_value panic. */
  lemma DynamicWritesOnlyBase(w: RValue, o: Order, ind: nat, level: nat)
    ensures ValueText(RDynamic(w), o, ind, level).Ok? <==> IsBase(w)
  {
  }

  /** Every map the parser produces can be written, in any iteration order, with any indent. */
  lemma ParsedMapsDump(tokens: seq<Token>, o: Order, indent: nat)
    requires EndsWithEof(tokens) && RParse(tokens).Ok? && Fits(o, RClass(RParse(tokens).value))
    ensures Dumps(RParse(tokens).value, o, indent).Ok?
  {
  }
}
