/** The serializer of the reference library: it infers a type tag for each value and writes
    `key :: tag { ... }` lines, nested dictionaries as `class` blocks at a deeper indent,
    lists typed by their first element. A document also gets its header, its leading
    comments and its inline comments back. */
module LibSerializer {
  import opened Wrappers
  import opened Text
  import opened Values
  import opened PyValues
  import opened LibDocument

  /** " " * (indent * level): no spaces when the product is not positive. */
  function IndentStr(indent: int, level: int): (r: string)
    ensures |r| == (if indent * level > 0 then indent * level else 0)
    ensures forall k :: 0 <= k < |r| ==> r[k] == ' '
  {
    if indent * level > 0 then Spaces(indent * level) else ""
  }

  /** A list type serializeTypedList accepts: `list(` ... `)`. */
  predicate IsListType(t: string)
  {
    StartsWith(t, "list(") && EndsWith(t, ")")
  }

  /** listType[5:-1] */
  function InnerType(t: string): (inner: string)
    requires IsListType(t)
    ensures |inner| == |t| - 6 && t == "list(" + inner + ")"
  {
    assert t[..5] == "list(";
    assert t[4] == t[..5][4] == '(';
    assert t[|t| - 1] == t[|t| - 1..][0] == ')';
    assert |t| >= 6;
    assert t == t[..5] + t[5..|t| - 1] + t[|t| - 1..];
    t[5..|t| - 1]
  }

  /** A type string whose every level serializeTypedList knows how to write. */
  predicate KnownType(t: string)
    decreases |t|
  {
    t == "bool" || t == "num" || t == "fl" || t == "str" || t == "ml" || t == "class" ||
    (IsListType(t) && KnownType(InnerType(t)))
  }

  /** getListType: the type tag of a non-empty list comes from its first element alone;
      an empty list is a list of strings. */
  function ListType(xs: seq<Value>): (r: Result<string>)
    ensures r.Ok? ==> IsListType(r.value) && KnownType(InnerType(r.value))
    ensures r.Err? ==> r.error.StructuralError?
    decreases xs
  {
    if xs == [] then Ok("list(str)")
    else
      match xs[0]
      case List(ys) =>
        var inner :- ListType(ys);
        Ok("list(" + inner + ")")
      case Bool(_) => Ok("list(bool)")
      case Int(_) => Ok("list(num)")
      case Float(_) => Ok("list(fl)")
      case Str(s) => if '\n' in s then Ok("list(ml)") else Ok("list(str)")
      case Object(_) => Ok("list(class)")
      case Other(t) => Err(StructuralError("Unsupported type: <class '" + t + "'>"))
  }

  /** serializeDynamic: the dynamic tag for the scalars (a string with a line break takes the
      ml form); any other value is refused. */
  function DynamicText(v: Value): (r: Result<string>)
    ensures r.Ok? <==> IsScalar(v)
    ensures r.Err? ==> r.error == StructuralError("Unsupported value type: <class '" + TypeName(v) + "'>")
  {
    match v
    case Bool(b) => Ok("dynamic { " + BoolWord(b) + " }")
    case Int(i) => Ok("dynamic { " + Decimal(i) + " }")
    case Float(x) => Ok("dynamic { " + x + " }")
    case Str(s) =>
      if '\n' in s then Ok("ml { '" + s + "' }")
      else Ok("dynamic { \"" + Escape(s) + "\" }")
    case _ => Err(StructuralError("Unsupported value type: <class '" + TypeName(v) + "'>"))
  }

  /** serializeValue at the given nesting level. */
  function ValueText(indent: int, v: Value, level: int): (r: Result<string>)
    decreases v, 4
  {
    var ind := IndentStr(indent, level);
    match v
    case Bool(b) => Ok("bool { " + BoolWord(b) + " }")
    case Int(i) => Ok("num { " + Decimal(i) + " }")
    case Float(x) => Ok("fl { " + x + " }")
    case Str(s) =>
      if '\n' in s then Ok("ml {\n" + ind + "    '" + s + "'\n" + ind + "}")
      else Ok("str { \"" + Escape(s) + "\" }")
    case Object(es) =>
      var body :- DictText(indent, es, level + 1);
      Ok("class {\n" + body + ind + "}")
    case List(xs) => ListText(indent, xs, level)
    case Other(_) => DynamicText(v)
  }

  /** The lines serializeDict writes for the first n entries. */
  function DictLines(indent: int, es: seq<(string, Value)>, n: nat, level: int): (r: Result<seq<string>>)
    requires n <= |es|
    ensures r.Ok? ==> |r.value| == n
    decreases Object(es), 2, n
  {
    if n == 0 then Ok([])
    else
      var lines :- DictLines(indent, es, n - 1, level);
      var t :- ValueText(indent, es[n - 1].1, level);
      Ok(lines + [IndentStr(indent, level) + es[n - 1].0 + " :: " + t])
  }

  /** serializeDict: one line per entry, each followed by a line break. */
  function DictText(indent: int, es: seq<(string, Value)>, level: int): (r: Result<string>)
    decreases Object(es), 3
  {
    var lines :- DictLines(indent, es, |es|, level);
    Ok(Join(lines, "\n") + "\n")
  }

  /** serializeList: an empty list is written as a list of strings. */
  function ListText(indent: int, xs: seq<Value>, level: int): (r: Result<string>)
    decreases List(xs), 3
  {
    if xs == [] then Ok("list(str) { }")
    else
      var t :- ListType(xs);
      TypedListText(indent, xs, t, level)
  }

  /** How one item of a one-line list is written: the truth value in a bool list, str() of
      it in a num or fl list, an escaped quoted string in a str list. */
  function ItemWord(inner: string, x: Value): (r: Result<string>)
    requires inner == "bool" || inner == "num" || inner == "fl" || inner == "str"
  {
    if inner == "bool" then Ok(BoolWord(Truth(x)))
    else if inner == "num" || inner == "fl" then StrOf(x)
    else if x.Str? then Ok("\"" + Escape(x.s) + "\"")
    else Err(Fault("AttributeError: '" + TypeName(x) + "' object has no attribute 'replace'"))
  }

  /** The words of the first n items of a one-line list. */
  function ItemWords(inner: string, xs: seq<Value>, n: nat): (r: Result<seq<string>>)
    requires n <= |xs|
    requires inner == "bool" || inner == "num" || inner == "fl" || inner == "str"
    ensures r.Ok? ==> |r.value| == n
  {
    if n == 0 then Ok([])
    else
      var ws :- ItemWords(inner, xs, n - 1);
      var w :- ItemWord(inner, xs[n - 1]);
      Ok(ws + [w])
  }

  /** The body lines of a block list: each part after the indent and four spaces, a comma
      after every part but the last of n. */
  function ItemLines(ind: string, parts: seq<string>, n: int): string
    decreases |parts|
  {
    if parts == [] then ""
    else ItemLines(ind, parts[..|parts| - 1], n) + ind + "    " + parts[|parts| - 1] + (if |parts| < n then "," else "") + "\n"
  }

  /** The entry lines of one object of a class list, two levels deeper than the list. */
  function EntryLines(indent: int, es: seq<(string, Value)>, n: nat, level: int): (r: Result<string>)
    requires n <= |es|
    decreases Object(es), 0, n
  {
    if n == 0 then Ok("")
    else
      var body :- EntryLines(indent, es, n - 1, level);
      var t :- ValueText(indent, es[n - 1].1, level + 2);
      Ok(body + IndentStr(indent, level) + "        " + es[n - 1].0 + " :: " + t + "\n")
  }

  /** serializeTypedList(item, inner, level) for one item of a nested list: a false item
      is empty; a list is written with the inner type; other true items cannot be indexed
      as a list. */
  function NestedItemText(indent: int, x: Value, inner: string, level: int): (r: Result<string>)
    ensures r.Ok? ==> StartsWith(r.value, inner)
    decreases x, 3
  {
    if !Truth(x) then Ok(inner + " { }")
    else if x.List? then TypedListText(indent, x.items, inner, level)
    else Err(Fault("'" + TypeName(x) + "' item of a nested list is not a list"))
  }

  /** How one item of a block list is written after its indent: an ml item between single
      quotes, unescaped; a class item as its entries in braces; a nested list item as its
      own text with the inner type cut off and the rest stripped. */
  function ItemPart(indent: int, x: Value, inner: string, level: int): (r: Result<string>)
    decreases x, 4
  {
    if inner == "ml" then
      var s :- StrOf(x);
      Ok("'" + s + "'")
    else if inner == "class" then
      match x
      case Object(es) =>
        var body :- EntryLines(indent, es, |es|, level);
        Ok("{\n" + body + IndentStr(indent, level) + "    }")
      case _ => Err(Fault("AttributeError: '" + TypeName(x) + "' object has no attribute 'items'"))
    else
      var t :- NestedItemText(indent, x, inner, level + 1);
      Ok(Strip(t[|inner|..], PySpaces))
  }

  /** The parts of the first n items of a block list. */
  function BlockParts(indent: int, xs: seq<Value>, n: nat, inner: string, level: int): (r: Result<seq<string>>)
    requires n <= |xs|
    ensures r.Ok? ==> |r.value| == n
    decreases List(xs), 1, n
  {
    if n == 0 then Ok([])
    else
      var ps :- BlockParts(indent, xs, n - 1, inner, level);
      var p :- ItemPart(indent, xs[n - 1], inner, level);
      Ok(ps + [p])
  }

  /** A block list: the type and an opening brace, the body lines, the closing brace at the
      list's own indent. */
  function Block(listType: string, ind: string, parts: seq<string>): string
  {
    listType + " {\n" + ItemLines(ind, parts, |parts|) + ind + "}"
  }

  /** serializeTypedList: a list written under the given type string. */
  function TypedListText(indent: int, xs: seq<Value>, listType: string, level: int): (r: Result<string>)
    ensures xs == [] ==> r == Ok(listType + " { }")
    ensures r.Ok? ==> StartsWith(r.value, listType)
    ensures xs != [] && !IsListType(listType) ==> r == Err(StructuralError("Invalid list type: " + listType))
    decreases List(xs), 2
  {
    if xs == [] then Ok(listType + " { }")
    else if !IsListType(listType) then Err(StructuralError("Invalid list type: " + listType))
    else
      var inner := InnerType(listType);
      var ind := IndentStr(indent, level);
      if inner == "bool" || inner == "num" || inner == "fl" || inner == "str" then
        var ws :- ItemWords(inner, xs, |xs|);
        Ok(listType + " { " + Join(ws, ", ") + " }")
      else if inner == "ml" || inner == "class" || StartsWith(inner, "list(") then
        var ps :- BlockParts(indent, xs, |xs|, inner, level);
        Ok(Block(listType, ind, ps))
      else Err(StructuralError("Unknown inner type: " + inner))
  }

  /** The comment line written before a key that has a leading comment. */
  function CommentLine(comments: seq<(string, string)>, key: string): (r: seq<string>)
    ensures |r| <= 1
  {
    match Get(comments, key)
    case Some(c) => ["[ " + c + " ]"]
    case None => []
  }

  /** The inline comment written after a key's value, two spaces away. */
  function InlineSuffix(inline: seq<(string, string)>, key: string): string
  {
    match Get(inline, key)
    case Some(c) => "  [ " + c + " ]"
    case None => ""
  }

  /** The lines for the first n entries of a document: each entry after its comment line,
      with its inline comment. */
  function DocLines(indent: int, data: seq<(string, Value)>, comments: seq<(string, string)>,
                    inline: seq<(string, string)>, n: nat): (r: Result<seq<string>>)
    requires n <= |data|
    ensures r.Ok? ==> |r.value| >= n
  {
    if n == 0 then Ok([])
    else
      var lines :- DocLines(indent, data, comments, inline, n - 1);
      var entry :- DocEntry(indent, comments, inline, data[n - 1].0, data[n - 1].1);
      Ok(lines + entry)
  }

  /** The lines of one document entry: its comment line, then the entry with its inline
      comment. */
  function DocEntry(indent: int, comments: seq<(string, string)>, inline: seq<(string, string)>,
                    key: string, v: Value): (r: Result<seq<string>>)
    ensures r.Ok? ==> 1 <= |r.value| <= 2
  {
    var t :- ValueText(indent, v, 0);
    Ok(CommentLine(comments, key) + [key + " :: " + t + InlineSuffix(inline, key)])
  }

  /** The header and the blank line after it, when the header is truthy. */
  function HeaderLines(header: Option<string>): (r: seq<string>)
    ensures |r| == if Truthy(header) then 2 else 0
  {
    if Truthy(header) then ["[ " + header.value + " ]", ""] else []
  }

  /** serializeDocument: the lines joined with line breaks and a final one; nothing at all
      for a document with no line. */
  function DocumentText(indent: int, data: seq<(string, Value)>, comments: seq<(string, string)>,
                        inline: seq<(string, string)>, header: Option<string>): (r: Result<string>)
  {
    var body :- DocLines(indent, data, comments, inline, |data|);
    var lines := HeaderLines(header) + body;
    Ok(if lines == [] then "" else Join(lines, "\n") + "\n")
  }

  /** What serialize is handed: a document, or a plain dictionary and a level. */
  datatype Input = DocumentInput(doc: Document) | DictInput(data: seq<(string, Value)>, level: int)

  class Serializer {
    const indent: int

    constructor (indent: int)
      ensures this.indent == indent
    {
      this.indent := indent;
    }

    /** serialize: a document is written with its comments, anything else as a dictionary. */
    method Serialize(input: Input) returns (r: Result<string>)
      ensures input.DocumentInput? ==> r == DocumentText(indent, input.doc.data, input.doc.comments,
        input.doc.inlineComments, input.doc.header)
      ensures input.DictInput? ==> r == DictText(indent, input.data, input.level)
    {
      match input
      case DocumentInput(doc) => r := SerializeDocument(doc);
      case DictInput(data, level) => r := SerializeDict(data, level);
    }

    method SerializeDocument(doc: Document) returns (r: Result<string>)
      ensures r == DocumentText(indent, doc.data, doc.comments, doc.inlineComments, doc.header)
    {
      var lines: seq<string> := [];
      if Truthy(doc.header) {
        lines := lines + ["[ " + doc.header.value + " ]"];
        lines := lines + [""];
      }
      ghost var head := lines;
      ghost var body: seq<string> := [];
      assert head == HeaderLines(doc.header);
      var data, comments, inlineComments := doc.data, doc.comments, doc.inlineComments;
      var i := 0;
      while i < |data|
        invariant 0 <= i <= |data|
        invariant lines == head + body
        invariant DocLines(indent, data, comments, inlineComments, i) == Ok(body)
      {
        var entry := SerializeDocEntry(comments, inlineComments, data[i].0, data[i].1);
        if entry.Err? {
          DocLinesFailureStays(indent, data, comments, inlineComments, i + 1, |data|);
          return Err(entry.error);
        }
        lines := lines + entry.value;
        body := body + entry.value;
        i := i + 1;
      }
      if lines == [] {
        r := Ok("");
      } else {
        r := Ok(Join(lines, "\n") + "\n");
      }
    }

    /** One entry of serializeDocument: its comment line when the key has one, then
        `key :: value` with the inline comment when the key has one. */
    method SerializeDocEntry(comments: seq<(string, string)>, inlineComments: seq<(string, string)>,
                             key: string, value: Value) returns (r: Result<seq<string>>)
      ensures r == DocEntry(indent, comments, inlineComments, key, value)
    {
      var lines: seq<string> := [];
      var before := Get(comments, key);
      if before.Some? {
        lines := lines + ["[ " + before.value + " ]"];
      }
      var line := key + " :: ";
      var t := ValueText(indent, value, 0);
      if t.Err? {
        return Err(t.error);
      }
      line := line + t.value;
      var after := Get(inlineComments, key);
      if after.Some? {
        line := line + "  [ " + after.value + " ]";
      }
      assert lines == CommentLine(comments, key);
      assert line == key + " :: " + t.value + InlineSuffix(inlineComments, key);
      lines := lines + [line];
      r := Ok(lines);
    }

    method SerializeDict(data: seq<(string, Value)>, level: int) returns (r: Result<string>)
      ensures r == DictText(indent, data, level)
    {
      var lines: seq<string> := [];
      var indentStr := IndentStr(indent, level);
      var i := 0;
      while i < |data|
        invariant 0 <= i <= |data|
        invariant DictLines(indent, data, i, level) == Ok(lines)
      {
        var (key, value) := data[i];
        var line := indentStr + key + " :: ";
        var t := ValueText(indent, value, level);
        if t.Err? {
          DictLinesFailureStays(indent, data, i + 1, |data|, level);
          return Err(t.error);
        }
        line := line + t.value;
        lines := lines + [line];
        i := i + 1;
      }
      r := Ok(Join(lines, "\n") + "\n");
    }

    method SerializeTypedList(xs: seq<Value>, listType: string, level: int) returns (r: Result<string>)
      ensures r == TypedListText(indent, xs, listType, level)
      decreases List(xs), 2
    {
      if xs == [] {
        return Ok(listType + " { }");
      }
      if !IsListType(listType) {
        return Err(StructuralError("Invalid list type: " + listType));
      }
      var inner := InnerType(listType);
      if inner == "bool" || inner == "num" || inner == "fl" || inner == "str" {
        var ws := ItemWords(inner, xs, |xs|);
        if ws.Err? {
          return Err(ws.error);
        }
        r := Ok(listType + " { " + Join(ws.value, ", ") + " }");
      } else if inner == "ml" || inner == "class" || StartsWith(inner, "list(") {
        r := SerializeBlockList(xs, listType, inner, level);
      } else {
        r := Err(StructuralError("Unknown inner type: " + inner));
      }
    }

    /** The ml, class and nested-list branches of serializeTypedList: the type and an
        opening brace, one line per item with a comma after all but the last, the closing
        brace at the list's indent. */
    method SerializeBlockList(xs: seq<Value>, listType: string, inner: string, level: int) returns (r: Result<string>)
      ensures r.Ok? <==> BlockParts(indent, xs, |xs|, inner, level).Ok?
      ensures r.Ok? ==> r.value == Block(listType, IndentStr(indent, level), BlockParts(indent, xs, |xs|, inner, level).value)
      ensures r.Err? ==> r.error == BlockParts(indent, xs, |xs|, inner, level).error
      decreases List(xs), 1
    {
      var indentStr := IndentStr(indent, level);
      var result := listType + " {\n";
      ghost var parts: seq<string> := [];
      var i := 0;
      while i < |xs|
        invariant 0 <= i <= |xs|
        invariant BlockParts(indent, xs, i, inner, level) == Ok(parts)
        invariant result == listType + " {\n" + ItemLines(indentStr, parts, |xs|)
      {
        var part := SerializeItem(xs[i], inner, level);
        if part.Err? {
          BlockPartsFailureStays(indent, xs, i + 1, |xs|, inner, level);
          return Err(part.error);
        }
        var line := indentStr + "    " + part.value;
        if i < |xs| - 1 {
          line := line + ",";
        }
        line := line + "\n";
        BlockPartsSnoc(indent, xs, i, inner, level, parts, part.value);
        ItemLinesSnoc(indentStr, parts, part.value, |xs|);
        result := result + line;
        parts := parts + [part.value];
        i := i + 1;
      }
      result := result + indentStr + "}";
      r := Ok(result);
    }

    /** One item of a block list, as it is written after its indent. */
    method SerializeItem(x: Value, inner: string, level: int) returns (r: Result<string>)
      ensures r == ItemPart(indent, x, inner, level)
      decreases x, 3
    {
      if inner == "ml" {
        var s := StrOf(x);
        if s.Err? {
          return Err(s.error);
        }
        r := Ok("'" + s.value + "'");
      } else if inner == "class" {
        if !x.Object? {
          return Err(Fault("AttributeError: '" + TypeName(x) + "' object has no attribute 'items'"));
        }
        var body := SerializeEntries(x.entries, level);
        if body.Err? {
          return Err(body.error);
        }
        r := Ok("{\n" + body.value + IndentStr(indent, level) + "    }");
      } else {
        var t: Result<string>;
        if !Truth(x) {
          t := Ok(inner + " { }");
        } else if x.List? {
          t := SerializeTypedList(x.items, inner, level + 1);
        } else {
          t := Err(Fault("'" + TypeName(x) + "' item of a nested list is not a list"));
        }
        if t.Err? {
          return Err(t.error);
        }
        r := Ok(Strip(t.value[|inner|..], PySpaces));
      }
    }

    /** The entries of one object of a class list, each on its own line two levels deeper
        than the list. */
    method SerializeEntries(es: seq<(string, Value)>, level: int) returns (r: Result<string>)
      ensures r == EntryLines(indent, es, |es|, level)
    {
      var indentStr := IndentStr(indent, level);
      var body := "";
      var j := 0;
      while j < |es|
        invariant 0 <= j <= |es|
        invariant EntryLines(indent, es, j, level) == Ok(body)
      {
        var t := ValueText(indent, es[j].1, level + 2);
        if t.Err? {
          EntryLinesFailureStays(indent, es, j + 1, |es|, level);
          return Err(t.error);
        }
        body := body + indentStr + "        " + es[j].0 + " :: " + t.value + "\n";
        j := j + 1;
      }
      r := Ok(body);
    }
  }

  lemma ItemLinesSnoc(ind: string, parts: seq<string>, p: string, n: int)
    ensures ItemLines(ind, parts + [p], n) == ItemLines(ind, parts, n) + (ind + "    " + p + (if |parts| + 1 < n then "," else "") + "\n")
  {
    assert (parts + [p])[..|parts|] == parts;
  }

  /** One more written item extends the parts by its text. */
  lemma BlockPartsSnoc(indent: int, xs: seq<Value>, i: nat, inner: string, level: int, parts: seq<string>, p: string)
    requires i < |xs| && BlockParts(indent, xs, i, inner, level) == Ok(parts)
    requires ItemPart(indent, xs[i], inner, level) == Ok(p)
    ensures BlockParts(indent, xs, i + 1, inner, level) == Ok(parts + [p])
  {
  }

  // A failure in the first k items is the failure of the whole: the loops stop at it.

  lemma {:induction false} BlockPartsFailureStays(indent: int, xs: seq<Value>, k: nat, n: nat, inner: string, level: int)
    requires k <= n <= |xs| && BlockParts(indent, xs, k, inner, level).Err?
    ensures BlockParts(indent, xs, n, inner, level) == BlockParts(indent, xs, k, inner, level)
    decreases n
  {
    if n > k {
      BlockPartsFailureStays(indent, xs, k, n - 1, inner, level);
    }
  }

  lemma {:induction false} EntryLinesFailureStays(indent: int, es: seq<(string, Value)>, k: nat, n: nat, level: int)
    requires k <= n <= |es| && EntryLines(indent, es, k, level).Err?
    ensures EntryLines(indent, es, n, level) == EntryLines(indent, es, k, level)
    decreases n
  {
    if n > k {
      EntryLinesFailureStays(indent, es, k, n - 1, level);
    }
  }

  lemma {:induction false} DictLinesFailureStays(indent: int, es: seq<(string, Value)>, k: nat, n: nat, level: int)
    requires k <= n <= |es| && DictLines(indent, es, k, level).Err?
    ensures DictLines(indent, es, n, level) == DictLines(indent, es, k, level)
    decreases n
  {
    if n > k {
      DictLinesFailureStays(indent, es, k, n - 1, level);
    }
  }

  lemma {:induction false} DocLinesFailureStays(indent: int, data: seq<(string, Value)>, comments: seq<(string, string)>,
                                               inline: seq<(string, string)>, k: nat, n: nat)
    requires k <= n <= |data| && DocLines(indent, data, comments, inline, k).Err?
    ensures DocLines(indent, data, comments, inline, n) == DocLines(indent, data, comments, inline, k)
    decreases n
  {
    if n > k {
      DocLinesFailureStays(indent, data, comments, inline, k, n - 1);
    }
  }
}
