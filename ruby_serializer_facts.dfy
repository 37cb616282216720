/** Properties of the Ruby port's serializer: which values it can write, which tag each value
    gets, how hashes and lists are laid out, and that the string forms it writes read back
    through the port's own lexer. */
module RubySerializerFacts {
  import opened Wrappers
  import opened Text
  import opened Tokens
  import opened Values
  import opened Scanning
  import opened LibLexer
  import opened RubyLexer
  import opened RubySerializer
  import PyLexer

  // ---------------------------------------------------------------------------------
  // What can be written, and with which tag.
  // ---------------------------------------------------------------------------------

  /** The values serialize can write with a non-negative indent: scalars, hashes of such
      values, and lists whose elements all pass one of the list checks. */
  predicate Writable(v: Value)
  {
    match v
    case Object(es) => forall i :: 0 <= i < |es| ==> Writable(es[i].1)
    case List(xs) => ListTag(xs).Some?
    case Other(_) => false
    case _ => true
  }

  /** With a non-negative indent, a value can be written exactly when it is Writable. */
  lemma {:induction false} ValueTextOkIff(indent: int, v: Value, level: nat)
    requires indent >= 0
    ensures ValueText(indent, v, level).Ok? <==> Writable(v)
    decreases v, 2
  {
    match v
    case Object(es) => ObjLinesOkIff(indent, es, level + 1, Spaces(indent * (level + 1)), 0);
    case _ =>
  }

  lemma {:induction false} ObjLinesOkIff(indent: int, es: seq<(string, Value)>, level: nat, pad: string, i: nat)
    requires indent >= 0 && i <= |es|
    ensures ObjLines(indent, es, level, pad, i).Ok? <==> forall j :: i <= j < |es| ==> Writable(es[j].1)
    decreases Object(es), 0, |es| - i
  {
    if i < |es| {
      ValueTextOkIff(indent, es[i].1, level);
      ObjLinesOkIff(indent, es, level, pad, i + 1);
    }
  }

  /** serialize succeeds on a hash with a non-negative indent exactly when every value in
      it can be written. */
  lemma SerializeOkIff(indent: int, es: seq<(string, Value)>)
    requires indent >= 0
    ensures Serialize(indent, Object(es)).Ok? <==> Writable(Object(es))
  {
    ObjLinesOkIff(indent, es, 0, Spaces(0), 0);
  }

  /** How the text of each kind of value begins. */
  function TagPrefix(v: Value): string
  {
    match v
    case Bool(_) => "bool { "
    case Int(_) => "num { "
    case Float(_) => "fl { "
    case Str(s) => if '\n' in s then "ml {\n" else "str { \""
    case Object(_) => "class {\n"
    case List(_) => "list("
    case Other(_) => "dynamic { "
  }

  /** Each value is written under the tag of its class: true and false as bool, never as
      num; a string with a line break as ml, any other string as str; a value of any other
      class is refused with its class name. */
  lemma ValueTextTag(indent: int, v: Value, level: nat)
    ensures ValueText(indent, v, level).Ok? ==> StartsWith(ValueText(indent, v, level).value, TagPrefix(v))
    ensures v.Other? ==> ValueText(indent, v, level) == Err(StructuralError("Unsupported value type: " + v.typeName))
  {
    var r := ValueText(indent, v, level);
    if r.Ok? {
      var t := TagPrefix(v);
      match v
      case Bool(b) => assert r.value == t + BoolText(b) + " }";
      case Int(i) => assert r.value == t + Decimal(i) + " }";
      case Float(x) => assert r.value == t + x + " }";
      case Str(s) =>
        if '\n' in s {
          var pad := Pad(indent, level).value;
          assert r.value == t + pad + "    '" + s + "'\n" + pad + "}";
        } else {
          assert r.value == t + Escape(s) + "\" }";
        }
      case Object(es) =>
        var body := ObjText(indent, es, level + 1).value;
        assert r.value == t + body + "\n" + Spaces(indent * level) + "}";
      case List(xs) =>
        if xs == [] {
          assert r.value == "list(str) { }";
        } else {
          var tag := ListTag(xs).value;
          assert r.value == t + tag + ") { " + Join(ItemTexts(xs), ", ") + " }";
        }
    }
  }

  // ---------------------------------------------------------------------------------
  // Layout of hashes.
  // ---------------------------------------------------------------------------------

  /** A nested hash opens with `class {` and a line break, and its `}` stands alone on the
      last line at the current level's indent. */
  lemma ClassLayout(indent: int, es: seq<(string, Value)>, level: nat)
    requires ValueText(indent, Object(es), level).Ok?
    ensures var r := ValueText(indent, Object(es), level).value;
      StartsWith(r, "class {\n") && EndsWith(r, "\n" + Spaces(indent * level) + "}")
  {
    var r := ValueText(indent, Object(es), level).value;
    var body := ObjText(indent, es, level + 1).value;
    var tail := "\n" + Spaces(indent * level) + "}";
    assert r == "class {\n" + body + tail;
    assert r[|r| - |tail|..] == tail;
  }

  /** Line k - i is the key of es[k], ` :: ` and the text of its value, after the indent
      of the level: every entry is written once, in the hash's order. */
  lemma {:induction false} ObjLinesAreEntries(indent: int, es: seq<(string, Value)>, level: nat, pad: string, i: nat)
    requires i <= |es| && ObjLines(indent, es, level, pad, i).Ok?
    ensures forall k :: i <= k < |es| ==>
      ValueText(indent, es[k].1, level).Ok? &&
      ObjLines(indent, es, level, pad, i).value[k - i] == pad + es[k].0 + " :: " + ValueText(indent, es[k].1, level).value
    decreases |es| - i
  {
    if i < |es| {
      ObjLinesAreEntries(indent, es, level, pad, i + 1);
      var lines := ObjLines(indent, es, level, pad, i).value;
      var rest := ObjLines(indent, es, level, pad, i + 1).value;
      assert lines == [pad + es[i].0 + " :: " + ValueText(indent, es[i].1, level).value] + rest;
      forall k | i < k < |es|
        ensures lines[k - i] == pad + es[k].0 + " :: " + ValueText(indent, es[k].1, level).value
      {
        assert lines[k - i] == rest[k - (i + 1)];
      }
    }
  }

  /** The first entry that cannot be written decides the error: entries before it are
      written, and the error is that entry's own. */
  lemma {:induction false} ObjLinesFirstError(indent: int, es: seq<(string, Value)>, level: nat, pad: string, i: nat, k: nat)
    requires i <= k < |es| && ValueText(indent, es[k].1, level).Err?
    requires forall j :: i <= j < k ==> ValueText(indent, es[j].1, level).Ok?
    ensures ObjLines(indent, es, level, pad, i) == Err(ValueText(indent, es[k].1, level).error)
    decreases k - i
  {
    if i < k {
      ObjLinesFirstError(indent, es, level, pad, i + 1, k);
    }
  }

  /** A negative indent width fails as soon as Ruby multiplies it by a positive level: any
      nested hash, and any multi-line string below the top level, is ArgumentError. */
  lemma NegativeIndent(indent: int, v: Value, level: nat)
    requires indent < 0
    requires v.Object? || (v.Str? && '\n' in v.s && level > 0)
    ensures ValueText(indent, v, level) == Err(Fault(NegativeArgument))
  {
    if v.Object? {
      assert indent * (level + 1) < 0;
    } else {
      assert indent * level < 0;
    }
  }

  // ---------------------------------------------------------------------------------
  // Lists.
  // ---------------------------------------------------------------------------------

  /** Two values that no single list check accepts together. */
  predicate Clash(a: Value, b: Value)
  {
    !((a.Bool? && b.Bool?) || ((a.Int? || a.Float?) && (b.Int? || b.Float?)) || (a.Str? && b.Str?))
  }

  /** Every element is checked, not only the first: one element anywhere in the list that
      clashes with the first makes the whole list fail, naming the first element's class. */
  lemma ListChecksEveryElement(xs: seq<Value>, i: nat)
    requires 0 < i < |xs| && Clash(xs[0], xs[i])
    ensures ListText(xs) == Err(StructuralError("Unsupported list element type: " + RubyClass(xs[0])))
  {
    assert !AllBool(xs) && !AllNumeric(xs) && !AllStr(xs) by {
      assert xs[0] in xs && xs[i] in xs;
    }
  }

  /** The tag a non-empty list is written with: bool for booleans, num for integers only,
      fl once a float is among the numbers, str for strings. */
  lemma ListTagChoice(xs: seq<Value>)
    requires xs != []
    ensures AllBool(xs) ==> ListTag(xs) == Some("bool")
    ensures AllInt(xs) ==> ListTag(xs) == Some("num")
    ensures AllNumeric(xs) && !AllInt(xs) ==> ListTag(xs) == Some("fl")
    ensures AllStr(xs) ==> ListTag(xs) == Some("str")
  {
    assert xs[0] in xs;
  }

  /** A non-empty list that can be written opens with its tag and the items follow. */
  lemma ListTextHead(xs: seq<Value>)
    requires xs != [] && ListText(xs).Ok?
    ensures StartsWith(ListText(xs).value, "list(" + ListTag(xs).value + ") { ")
  {
    var head := "list(" + ListTag(xs).value + ") { ";
    var r := ListText(xs).value;
    assert r == head + (Join(ItemTexts(xs), ", ") + " }");
    assert r[..|head|] == head;
  }

  // ---------------------------------------------------------------------------------
  // The string forms read back through the Ruby lexer.
  // ---------------------------------------------------------------------------------

  /** The one-line string form: s escaped between double quotes reads back as s. */
  lemma StrFormReadsBack(pre: string, s: string, post: string)
    ensures var text := pre + "\"" + Escape(s) + "\"" + post;
      RubyDispatchAt(text, |pre|) == Ok(Scan(TokenAt(text, |pre|, StringLit, Text(s)), |pre| + |Escape(s)| + 2))
  {
    var text := pre + "\"" + Escape(s) + "\"" + post;
    assert text[|pre|] == '"';
    PyLexer.PyEscapedStringReadsBack(pre, s, post);
    StringsAsInPython(text, |pre|);
  }

  /** The multi-line form: s between single quotes reads back verbatim when it holds no
      single quote. */
  lemma MlFormReadsBack(pre: string, s: string, post: string)
    requires '\'' !in s
    ensures var text := pre + "'" + s + "'" + post;
      RubyDispatchAt(text, |pre|) == Ok(Scan(TokenAt(text, |pre|, MultilineLit, Text(s)), |pre| + |s| + 2))
  {
    var text := pre + "'" + s + "'" + post;
    assert text[|pre|] == '\'';
    assert text[|pre| + 1..|pre| + 1 + |s|] == s;
    assert text[|pre| + 1 + |s|] == '\'';
    PyLexer.PyRawStringReadsBack(text, |pre|, s);
  }

  /** Where a string holds no backslash, the quoting as written and the corrected quoting
      agree, so the serializer model writes exactly what serializer.rb writes; with a
      backslash they part (AsWrittenBackslashUnclosed). */
  lemma EscapeAgreesWithoutBackslash(s: string)
    requires '\\' !in s
    ensures EscapeAsWritten(s) == Escape(s)
  {
    ReplaceAbsent(s, '\\', "\\\\");
  }

  /** The quoting as written loses backslashes: a string holding one backslash comes out
      as `"\"`, where the backslash escapes the closing quote and the literal never ends. */
  lemma AsWrittenBackslashUnclosed()
    ensures EscapeAsWritten("\\") == "\\"
    ensures var text := "\"" + EscapeAsWritten("\\") + "\" }\n";
      RubyDispatchAt(text, 0) == Err(ErrorAt(text, |text|, "Unclosed string"))
  {
    assert EscapeAsWritten("\\") == "\\" by {
      assert "\\"[0] != '"' && "\\"[1..] == [];
    }
    var text := "\"\\\" }\n";
    assert "\"" + EscapeAsWritten("\\") + "\" }\n" == text;
    assert SimpleQuoted(text, 1, '"', []) == SimpleQuoted(text, 3, '"', ['"']);
    assert SimpleQuoted(text, 3, '"', ['"']) == SimpleQuoted(text, 4, '"', ['"', ' ']);
    assert SimpleQuoted(text, 4, '"', ['"', ' ']) == SimpleQuoted(text, 5, '"', ['"', ' ', '}']);
    assert SimpleQuoted(text, 5, '"', ['"', ' ', '}']) == SimpleQuoted(text, 6, '"', ['"', ' ', '}', '\n']);
  }

  // ---------------------------------------------------------------------------------
  // The port's round-trip example.
  // ---------------------------------------------------------------------------------

  lemma JoinOfThree(a: string, b: string, c: string, sep: string)
    ensures Join([a, b, c], sep) == a + sep + b + sep + c
  {
    assert [b, c][1..] == [c];
    assert Join([b, c], sep) == b + sep + c;
    assert [a, b, c][1..] == [b, c];
  }

  /** The lines of three writable top-level entries. */
  lemma LinesOfThree(indent: int, es: seq<(string, Value)>)
    requires |es| == 3
    requires ValueText(indent, es[0].1, 0).Ok? && ValueText(indent, es[1].1, 0).Ok? && ValueText(indent, es[2].1, 0).Ok?
    ensures ObjLines(indent, es, 0, "", 0).Ok?
    ensures ObjLines(indent, es, 0, "", 0).value ==
      [es[0].0 + " :: " + ValueText(indent, es[0].1, 0).value,
       es[1].0 + " :: " + ValueText(indent, es[1].1, 0).value,
       es[2].0 + " :: " + ValueText(indent, es[2].1, 0).value]
  {
    assert "" + es[0].0 == es[0].0 && "" + es[1].0 == es[1].0 && "" + es[2].0 == es[2].0;
    assert ObjLines(indent, es, 0, "", 3) == Ok([]);
    assert ObjLines(indent, es, 0, "", 2).value == [es[2].0 + " :: " + ValueText(indent, es[2].1, 0).value];
    assert ObjLines(indent, es, 0, "", 1).value ==
      [es[1].0 + " :: " + ValueText(indent, es[1].1, 0).value, es[2].0 + " :: " + ValueText(indent, es[2].1, 0).value];
  }

  /** A top-level hash of three writable entries is three `key :: value` lines, in order,
      each ended by a line break. */
  lemma SerializeThree(indent: int, k1: string, v1: Value, k2: string, v2: Value, k3: string, v3: Value)
    requires ValueText(indent, v1, 0).Ok? && ValueText(indent, v2, 0).Ok? && ValueText(indent, v3, 0).Ok?
    ensures Serialize(indent, Object([(k1, v1), (k2, v2), (k3, v3)])) ==
      Ok((k1 + " :: " + ValueText(indent, v1, 0).value) + "\n" +
         (k2 + " :: " + ValueText(indent, v2, 0).value) + "\n" +
         (k3 + " :: " + ValueText(indent, v3, 0).value) + "\n")
  {
    var es := [(k1, v1), (k2, v2), (k3, v3)];
    var l0 := k1 + " :: " + ValueText(indent, v1, 0).value;
    var l1 := k2 + " :: " + ValueText(indent, v2, 0).value;
    var l2 := k3 + " :: " + ValueText(indent, v3, 0).value;
    assert indent * 0 == 0 && Pad(indent, 0) == Ok("");
    LinesOfThree(indent, es);
    JoinOfThree(l0, l1, l2, "\n");
    assert ObjText(indent, es, 0).value == l0 + "\n" + l1 + "\n" + l2;
  }

  /** A hash of a one-line string, an integer and a boolean, with the default indent. */
  lemma SerializeScalars(k1: string, s: string, k2: string, i: int, k3: string, b: bool)
    requires '\n' !in s
    ensures Serialize(4, Object([(k1, Str(s)), (k2, Int(i)), (k3, Bool(b))])) ==
      Ok((k1 + " :: " + ("str { \"" + Escape(s) + "\" }")) + "\n" +
         (k2 + " :: " + ("num { " + Decimal(i) + " }")) + "\n" +
         (k3 + " :: " + ("bool { " + BoolText(b) + " }")) + "\n")
  {
    SerializeThree(4, k1, Str(s), k2, Int(i), k3, Bool(b));
  }

  /** {"title" => "example", "count" => 3, "enabled" => false} with the default indent:
      three lines, one per key in order, and a final line break. */
  lemma SerializeExample(example: string)
    requires example == "example"
    ensures Serialize(4, Object([("title", Str(example)), ("count", Int(3)), ("enabled", Bool(false))])) ==
      Ok("title :: str { \"example\" }" + "\n" + "count :: num { 3 }" + "\n" + "enabled :: bool { false }" + "\n")
  {
    assert forall k | 0 <= k < |example| :: example[k] != '\\' && example[k] != '"';
    ReplaceAbsent(example, '\\', "\\\\");
    ReplaceAbsent(example, '"', "\\\"");
    DecimalOfDigit(3);
    assert ['0' + 3 as char] == "3";
    SerializeScalars("title", example, "count", 3, "enabled", false);
    ExampleLines();
  }

  /** The three lines of the example, each assembled from its key, the separator and its
      value's text. */
  lemma ExampleLines()
    ensures "title" + " :: " + ("str { \"" + "example" + "\" }") == "title :: str { \"example\" }"
    ensures "count" + " :: " + ("num { " + "3" + " }") == "count :: num { 3 }"
    ensures "enabled" + " :: " + ("bool { " + "false" + " }") == "enabled :: bool { false }"
  {
  }
}
