/** Properties of the reference serializer: what it writes reads back through the lexer,
    the list types it infers are always ones it can write, and the document layout. */
module LibSerializerFacts {
  import opened Wrappers
  import opened Text
  import opened Tokens
  import opened Values
  import opened PyValues
  import opened LibDocument
  import opened Scanning
  import opened LibLexer
  import opened LibSerializer

  /** A newline-free string is written `str { "<escaped>" }`, and the lexer's string reader,
      started at the opening quote, gives back exactly the original string. */
  lemma StrValueReadsBack(indent: int, s: string, level: int)
    requires '\n' !in s
    ensures ValueText(indent, Str(s), level) == Ok("str { \"" + Escape(s) + "\" }")
    ensures var text := "str { \"" + Escape(s) + "\" }";
      StringAt(text, 6) == Ok(Scan(TokenAt(text, 6, StringLit, Text(s)), |text| - 2))
  {
    var text := "str { \"" + Escape(s) + "\" }";
    EscapedStringReadsBack("str { ", s, " }");
    assert "str { " + "\"" + Escape(s) + "\"" + " }" == text;
  }

  /** The reader of a quoted literal gives back a stretch of text that holds neither the
      closing quote nor a backslash unchanged. */
  lemma {:induction false} QuotedReadsPlain(text: string, i: nat, s: string, quote: char, acc: string, unclosed: string)
    requires quote !in s && '\\' !in s
    requires i + |s| < |text| && text[i..i + |s|] == s && text[i + |s|] == quote
    ensures QuotedAt(text, i, quote, acc, unclosed) == Ok((acc + s, i + |s|))
    decreases |s|
  {
    if s == [] {
      assert acc + s == acc;
    } else {
      assert text[i] == s[0];
      assert text[i + 1..i + 1 + |s[1..]|] == s[1..];
      QuotedReadsPlain(text, i + 1, s[1..], quote, acc + [s[0]], unclosed);
      assert acc + [s[0]] + s[1..] == acc + s;
    }
  }

  /** A string with a line break is written in the ml form without escaping; when it holds
      no single quote and no backslash, the lexer's multi-line reader, started at the opening
      quote, gives it back. */
  lemma MlValueReadsBack(indent: int, s: string, level: int)
    requires '\n' in s && '\'' !in s && '\\' !in s
    ensures var ind := IndentStr(indent, level);
      ValueText(indent, Str(s), level) == Ok("ml {\n" + ind + "    '" + s + "'\n" + ind + "}")
    ensures var ind := IndentStr(indent, level);
      var text := "ml {\n" + ind + "    '" + s + "'\n" + ind + "}";
      var p := |ind| + 9;
      p < |text| && text[p] == '\'' &&
      MultilineAt(text, p) == Ok(Scan(TokenAt(text, p, MultilineLit, Text(s)), p + |s| + 2))
  {
    MlTextReadsBack(IndentStr(indent, level), s);
  }

  /** A single-quoted stretch without quote or backslash reads back unchanged. */
  lemma MultilineReadsPlain(text: string, p: nat, s: string)
    requires '\'' !in s && '\\' !in s
    requires p + 1 + |s| < |text| && text[p] == '\''
    requires text[p + 1..p + 1 + |s|] == s && text[p + 1 + |s|] == '\''
    ensures MultilineAt(text, p) == Ok(Scan(TokenAt(text, p, MultilineLit, Text(s)), p + |s| + 2))
  {
    QuotedReadsPlain(text, p + 1, s, '\'', [], "Unclosed multiline string");
    assert [] + s == s;
  }

  lemma MlTextReadsBack(ind: string, s: string)
    requires '\'' !in s && '\\' !in s
    ensures var text := "ml {\n" + ind + "    '" + s + "'\n" + ind + "}";
      var p := |ind| + 9;
      p < |text| && text[p] == '\'' &&
      MultilineAt(text, p) == Ok(Scan(TokenAt(text, p, MultilineLit, Text(s)), p + |s| + 2))
  {
    var head := "ml {\n" + ind + "    '";
    var tail := "'\n" + ind + "}";
    var text := head + s + tail;
    var p := |ind| + 9;
    assert text == "ml {\n" + ind + "    '" + s + "'\n" + ind + "}";
    assert |head| == p + 1;
    assert text[p] == head[p] == '\'';
    assert text[p + 1..p + 1 + |s|] == s;
    assert text[p + 1 + |s|] == tail[0] == '\'';
    MultilineReadsPlain(text, p, s);
  }

  /** A boolean is written with the bool tag, never as a number. */
  lemma BooleanNeverNum(indent: int, b: bool, level: int)
    ensures ValueText(indent, Bool(b), level).Ok?
    ensures StartsWith(ValueText(indent, Bool(b), level).value, "bool { ")
    ensures !StartsWith(ValueText(indent, Bool(b), level).value, "num")
  {
    assert ValueText(indent, Bool(b), level).value[0] == 'b';
  }

  /** Only the first element of a list decides its type. */
  lemma ListTypeFirstDecides(xs: seq<Value>, ys: seq<Value>)
    requires xs != []
    ensures ListType(xs + ys) == ListType(xs[..1])
  {
    assert (xs + ys)[0] == xs[0] == xs[..1][0];
  }

  /** A type string whose inner type serializeTypedList knows at every level. */
  predicate KnownListType(t: string)
  {
    IsListType(t) && KnownType(InnerType(t))
  }

  /** The inner types the block branches of serializeTypedList are reached with. */
  predicate BlockInner(inner: string)
  {
    inner == "ml" || inner == "class" || KnownListType(inner)
  }

  /** The two type-string errors of serializeTypedList. */
  predicate TypeStringError(e: Error)
  {
    e.StructuralError? && (StartsWith(e.msg, "Invalid list type: ") || StartsWith(e.msg, "Unknown inner type: "))
  }

  /** The list types getListType infers are always ones serializeTypedList can write: from
      serializeValue, at any depth, neither "Invalid list type" nor "Unknown inner type" is
      ever raised. The errors that remain are unsupported values and mixed lists. */
  lemma {:induction false} ValueTextNoTypeStringError(indent: int, v: Value, level: int)
    ensures ValueText(indent, v, level).Err? ==> !TypeStringError(ValueText(indent, v, level).error)
    decreases v, 4
  {
    match v
    case Object(es) => DictLinesNoTypeStringError(indent, es, |es|, level + 1);
    case List(xs) =>
      if xs != [] {
        ListTypeNoTypeStringError(xs);
        if ListType(xs).Ok? {
          TypedListTextNoTypeStringError(indent, xs, ListType(xs).value, level);
        }
      }
    case Other(t) => UnsupportedIsNoTypeStringError("Unsupported value type: <class '" + t + "'>");
    case _ =>
  }

  /** A message starting "Uns" is neither of the two type-string errors. */
  lemma UnsupportedIsNoTypeStringError(m: string)
    requires |m| >= 3 && m[..3] == "Uns"
    ensures !TypeStringError(StructuralError(m))
  {
    assert m[0] == 'U' && m[2] == 's';
    assert "Invalid list type: "[0] == 'I';
    assert "Unknown inner type: "[2] == 'k';
  }

  lemma {:induction false} ListTypeNoTypeStringError(xs: seq<Value>)
    ensures ListType(xs).Err? ==> !TypeStringError(ListType(xs).error)
    decreases xs
  {
    if xs != [] {
      match xs[0]
      case List(ys) => ListTypeNoTypeStringError(ys);
      case Other(t) => UnsupportedIsNoTypeStringError("Unsupported type: <class '" + t + "'>");
      case _ =>
    }
  }

  lemma {:induction false} DictLinesNoTypeStringError(indent: int, es: seq<(string, Value)>, n: nat, level: int)
    requires n <= |es|
    ensures DictLines(indent, es, n, level).Err? ==> !TypeStringError(DictLines(indent, es, n, level).error)
    decreases Object(es), 2, n
  {
    if n > 0 {
      DictLinesNoTypeStringError(indent, es, n - 1, level);
      ValueTextNoTypeStringError(indent, es[n - 1].1, level);
    }
  }

  lemma {:induction false} TypedListTextNoTypeStringError(indent: int, xs: seq<Value>, t: string, level: int)
    requires KnownListType(t)
    ensures TypedListText(indent, xs, t, level).Err? ==> !TypeStringError(TypedListText(indent, xs, t, level).error)
    decreases List(xs), 2
  {
    if xs != [] {
      var inner := InnerType(t);
      if inner == "bool" || inner == "num" || inner == "fl" || inner == "str" {
        ItemWordsNoTypeStringError(inner, xs, |xs|);
      } else {
        assert BlockInner(inner);
        BlockPartsNoTypeStringError(indent, xs, |xs|, inner, level);
      }
    }
  }

  lemma {:induction false} ItemWordsNoTypeStringError(inner: string, xs: seq<Value>, n: nat)
    requires n <= |xs|
    requires inner == "bool" || inner == "num" || inner == "fl" || inner == "str"
    ensures ItemWords(inner, xs, n).Err? ==> ItemWords(inner, xs, n).error.Fault?
  {
    if n > 0 {
      ItemWordsNoTypeStringError(inner, xs, n - 1);
    }
  }

  lemma {:induction false} BlockPartsNoTypeStringError(indent: int, xs: seq<Value>, n: nat, inner: string, level: int)
    requires n <= |xs| && BlockInner(inner)
    ensures BlockParts(indent, xs, n, inner, level).Err? ==> !TypeStringError(BlockParts(indent, xs, n, inner, level).error)
    decreases List(xs), 1, n
  {
    if n > 0 {
      BlockPartsNoTypeStringError(indent, xs, n - 1, inner, level);
      ItemPartNoTypeStringError(indent, xs[n - 1], inner, level);
    }
  }

  lemma {:induction false} ItemPartNoTypeStringError(indent: int, x: Value, inner: string, level: int)
    requires BlockInner(inner)
    ensures ItemPart(indent, x, inner, level).Err? ==> !TypeStringError(ItemPart(indent, x, inner, level).error)
    decreases x, 4
  {
    if inner == "class" {
      if x.Object? {
        EntryLinesNoTypeStringError(indent, x.entries, |x.entries|, level);
      }
    } else if inner != "ml" {
      if Truth(x) && x.List? {
        TypedListTextNoTypeStringError(indent, x.items, inner, level + 1);
      }
    }
  }

  lemma {:induction false} EntryLinesNoTypeStringError(indent: int, es: seq<(string, Value)>, n: nat, level: int)
    requires n <= |es|
    ensures EntryLines(indent, es, n, level).Err? ==> !TypeStringError(EntryLines(indent, es, n, level).error)
    decreases Object(es), 0, n
  {
    if n > 0 {
      EntryLinesNoTypeStringError(indent, es, n - 1, level);
      ValueTextNoTypeStringError(indent, es[n - 1].1, level + 2);
    }
  }

  /** A document with a truthy header starts with the header comment and an empty line. */
  lemma HeaderComesFirst(indent: int, data: seq<(string, Value)>, comments: seq<(string, string)>,
                         inline: seq<(string, string)>, h: string)
    requires h != ""
    requires DocumentText(indent, data, comments, inline, Some(h)).Ok?
    ensures StartsWith(DocumentText(indent, data, comments, inline, Some(h)).value, "[ " + h + " ]\n\n")
  {
    var body := DocLines(indent, data, comments, inline, |data|).value;
    var lines := ["[ " + h + " ]", ""] + body;
    assert lines[1..] == [""] + body;
    if body == [] {
      assert Join(lines, "\n") == "[ " + h + " ]" + "\n" + "";
    } else {
      assert ([""] + body)[1..] == body;
      assert Join(lines, "\n") == "[ " + h + " ]" + "\n" + ("" + "\n" + Join(body, "\n"));
    }
  }

  /** An empty document with no header is written as nothing at all; an empty dictionary
      as a single line break. */
  lemma EmptyOutputs(indent: int, comments: seq<(string, string)>, inline: seq<(string, string)>,
                     header: Option<string>, level: int)
    requires !Truthy(header)
    ensures DocumentText(indent, [], comments, inline, header) == Ok("")
    ensures DictText(indent, [], level) == Ok("\n")
  {
    assert DictLines(indent, [], 0, level) == Ok([]);
    assert Join([], "\n") + "\n" == "\n";
  }

  /** Where no key has a comment, a document's entries are the lines serializeDict writes
      at level 0. */
  lemma {:induction false} DocLinesWithoutComments(indent: int, data: seq<(string, Value)>,
                                                  comments: seq<(string, string)>, inline: seq<(string, string)>, n: nat)
    requires n <= |data|
    requires forall i :: 0 <= i < |data| ==> data[i].0 !in Keys(comments) && data[i].0 !in Keys(inline)
    ensures DocLines(indent, data, comments, inline, n) == DictLines(indent, data, n, 0)
  {
    if n > 0 {
      DocLinesWithoutComments(indent, data, comments, inline, n - 1);
      var key := data[n - 1].0;
      GetPresent(comments, key);
      GetPresent(inline, key);
      assert CommentLine(comments, key) == [] && InlineSuffix(inline, key) == "";
      var t := ValueText(indent, data[n - 1].1, 0);
      if t.Ok? {
        var line := key + " :: " + t.value;
        assert line + InlineSuffix(inline, key) == line;
        assert CommentLine(comments, key) + [line] == [line];
        assert DocEntry(indent, comments, inline, key, data[n - 1].1) == Ok([line]);
        assert IndentStr(indent, 0) + key + " :: " + t.value == key + " :: " + t.value;
      }
    }
  }

  /** A non-empty document with no header and no comment on any key is written exactly as
      its data dictionary: serialize gives the same text for the document and for its data. */
  lemma DocumentWithoutCommentsIsDict(indent: int, data: seq<(string, Value)>,
                                      comments: seq<(string, string)>, inline: seq<(string, string)>, header: Option<string>)
    requires data != [] && !Truthy(header)
    requires forall i :: 0 <= i < |data| ==> data[i].0 !in Keys(comments) && data[i].0 !in Keys(inline)
    ensures DocumentText(indent, data, comments, inline, header) == DictText(indent, data, 0)
  {
    DocLinesWithoutComments(indent, data, comments, inline, |data|);
    var body := DocLines(indent, data, comments, inline, |data|);
    if body.Ok? {
      assert HeaderLines(header) + body.value == body.value;
    }
  }
}
