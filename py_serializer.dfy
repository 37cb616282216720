/** The Python port's serializer (python/scl_parser/serializer.py): one `key :: tag { ... }`
    line per entry, dictionaries as `class` blocks one level deeper, and lists typed by
    their first element with every other element checked against it. */
module PySerializer {
  import opened Wrappers
  import opened Text
  import opened Values
  import opened PyValues
  import LibSerializer

  // ---------------------------------------------------------------------------------
  // Specification.
  // ---------------------------------------------------------------------------------

  /** The element type a non-empty list is written with. */
  datatype ListTag = TBool | TNum | TFl | TStr

  function TagName(t: ListTag): (w: string)
    ensures w in {"bool", "num", "fl", "str"}
  {
    match t
    case TBool => "bool"
    case TNum => "num"
    case TFl => "fl"
    case TStr => "str"
  }

  /** The tag the first element selects: bool is tested before int; any other first element
      is rejected. */
  function FirstTag(x: Value): (r: Result<ListTag>)
    ensures r.Ok? <==> IsScalar(x)
    ensures r.Err? ==> r.error.StructuralError?
  {
    match x
    case Bool(_) => Ok(TBool)
    case Int(_) => Ok(TNum)
    case Float(_) => Ok(TFl)
    case Str(_) => Ok(TStr)
    case _ => Err(StructuralError("Unsupported list element type: <class '" + TypeName(x) + "'>"))
  }

  /** The elements a list of tag t may hold: a float list also takes integers. */
  predicate Fits(t: ListTag, v: Value)
  {
    match t
    case TBool => v.Bool?
    case TNum => v.Int?
    case TFl => v.Int? || v.Float?
    case TStr => v.Str?
  }

  /** The error raised for a list that mixes element types. */
  function MixedTypes(key: string, what: string): (e: Error)
    ensures e.StructuralError?
  {
    StructuralError("Mixed types in list for key '" + key + "': " + what)
  }

  /** The error for an element that does not fit its list: a float list names a boolean
      apart from any other misfit. */
  function Misfit(key: string, t: ListTag, v: Value): (e: Error)
    ensures e.StructuralError?
  {
    var what :=
      match t
      case TBool => "expected all bool"
      case TNum => "expected all int"
      case TFl => if v.Bool? then "bool not allowed in float list" else "expected all numeric"
      case TStr => "expected all str";
    MixedTypes(key, what)
  }

  /** The check of xs[..n] against t: the first element that does not fit decides the
      error. */
  function CheckItems(key: string, t: ListTag, xs: seq<Value>, n: nat): (r: Result<()>)
    requires n <= |xs|
    ensures r.Ok? <==> forall i :: 0 <= i < n ==> Fits(t, xs[i])
    ensures r.Err? ==> r.error.StructuralError?
  {
    if n == 0 then Ok(())
    else
      var _ :- CheckItems(key, t, xs, n - 1);
      if Fits(t, xs[n - 1]) then Ok(()) else Err(Misfit(key, t, xs[n - 1]))
  }

  /** How one element is written in a list of tag t. */
  function ItemWord(t: ListTag, v: Value): (w: string)
    requires Fits(t, v)
  {
    match t
    case TBool => BoolWord(v.b)
    case TNum => Decimal(v.i)
    case TFl => if v.Int? then Decimal(v.i) else v.lexeme
    case TStr => "\"" + Escape(v.s) + "\""
  }

  function ItemWords(t: ListTag, xs: seq<Value>): (ws: seq<string>)
    requires forall i :: 0 <= i < |xs| ==> Fits(t, xs[i])
    ensures |ws| == |xs| && forall i :: 0 <= i < |xs| ==> ws[i] == ItemWord(t, xs[i])
  {
    seq(|xs|, i requires 0 <= i < |xs| => ItemWord(t, xs[i]))
  }

  /** A list value: `list(str) { }` when empty, else `list(T) { a, b, ... }` with T taken
      from the first element. */
  function ListText(key: string, xs: seq<Value>): (r: Result<string>)
    ensures xs == [] ==> r == Ok("list(str) { }")
    ensures r.Err? ==> r.error.StructuralError?
  {
    if xs == [] then Ok("list(str) { }")
    else
      var t :- FirstTag(xs[0]);
      var _ :- CheckItems(key, t, xs, |xs|);
      Ok("list(" + TagName(t) + ") { " + Join(ItemWords(t, xs), ", ") + " }")
  }

  /** _serialize_dynamic: the scalars only. A string with a line break is written as a
      multi-line block with no indent. */
  function DynamicText(v: Value): (r: Result<string>)
    ensures r.Ok? <==> IsScalar(v)
    ensures r.Err? ==> r.error.StructuralError?
  {
    match v
    case Bool(b) => Ok("dynamic { " + BoolWord(b) + " }")
    case Int(i) => Ok("dynamic { " + Decimal(i) + " }")
    case Float(x) => Ok("dynamic { " + x + " }")
    case Str(s) =>
      if '\n' in s then Ok("ml {\n    '" + s + "'\n}")
      else Ok("dynamic { \"" + Escape(s) + "\" }")
    case _ => Err(StructuralError("Unsupported value type: <class '" + TypeName(v) + "'>"))
  }

  /** What follows `key :: ` for a value at the given level. */
  function ValueText(indent: int, key: string, v: Value, level: nat): (r: Result<string>)
    decreases v, 4
  {
    var ind := LibSerializer.IndentStr(indent, level);
    match v
    case Bool(b) => Ok("bool { " + BoolWord(b) + " }")
    case Int(i) => Ok("num { " + Decimal(i) + " }")
    case Float(x) => Ok("fl { " + x + " }")
    case Str(s) =>
      if '\n' in s then Ok("ml {\n" + ind + "    '" + s + "'\n" + ind + "}")
      else Ok("str { \"" + Escape(s) + "\" }")
    case Object(es) =>
      var body :- DictText(indent, es, level + 1);
      Ok("class {\n" + body + ind + "}")
    case List(xs) => ListText(key, xs)
    case Other(_) => DynamicText(v)
  }

  /** The lines of the first n entries. */
  function DictLines(indent: int, es: seq<(string, Value)>, n: nat, level: nat): (r: Result<seq<string>>)
    requires n <= |es|
    ensures r.Ok? ==> |r.value| == n
    decreases Object(es), 2, n
  {
    if n == 0 then Ok([])
    else
      var lines :- DictLines(indent, es, n - 1, level);
      var t :- ValueText(indent, es[n - 1].0, es[n - 1].1, level);
      Ok(lines + [LibSerializer.IndentStr(indent, level) + es[n - 1].0 + " :: " + t])
  }

  /** serialize(data, level): the entry lines joined by line breaks, plus a final one. */
  function DictText(indent: int, es: seq<(string, Value)>, level: nat): (r: Result<string>)
    ensures r.Ok? ==> |r.value| > 0 && r.value[|r.value| - 1] == '\n'
    decreases Object(es), 3
  {
    var lines :- DictLines(indent, es, |es|, level);
    Ok(Join(lines, "\n") + "\n")
  }

  lemma {:induction false} DictLinesFailureStays(indent: int, es: seq<(string, Value)>, k: nat, n: nat, level: nat)
    requires k <= n <= |es| && DictLines(indent, es, k, level).Err?
    ensures DictLines(indent, es, n, level) == DictLines(indent, es, k, level)
    decreases n
  {
    if n > k {
      DictLinesFailureStays(indent, es, k, n - 1, level);
    }
  }

  lemma {:induction false} CheckItemsFailureStays(key: string, t: ListTag, xs: seq<Value>, k: nat, n: nat)
    requires k <= n <= |xs| && CheckItems(key, t, xs, k).Err?
    ensures CheckItems(key, t, xs, n) == CheckItems(key, t, xs, k)
    decreases n
  {
    if n > k {
      CheckItemsFailureStays(key, t, xs, k, n - 1);
    }
  }

  // ---------------------------------------------------------------------------------
  // The serializer as the port runs it.
  // ---------------------------------------------------------------------------------

  class Serializer {
    const indent: int

    constructor (indent: int)
      ensures this.indent == indent
    {
      this.indent := indent;
    }

    /** serialize: one line per entry, in order; the first entry that cannot be written
        stops the whole call. */
    method Serialize(data: seq<(string, Value)>, level: nat) returns (r: Result<string>)
      ensures r == DictText(indent, data, level)
      decreases Object(data), 3
    {
      var lines: seq<string> := [];
      var indentStr := LibSerializer.IndentStr(indent, level);
      var i := 0;
      while i < |data|
        invariant 0 <= i <= |data|
        invariant DictLines(indent, data, i, level) == Ok(lines)
      {
        var (key, value) := data[i];
        var line := indentStr + key + " :: ";
        var t := SerializeValue(key, value, level);
        if t.Err? {
          DictLinesFailureStays(indent, data, i + 1, |data|, level);
          return Err(t.error);
        }
        line := line + t.value;
        lines := lines + [line];
        i := i + 1;
      }
      r := Ok(Join(lines, "\n") + "\n");
    }

    /** The isinstance chain of serialize for one value. */
    method SerializeValue(key: string, value: Value, level: nat) returns (r: Result<string>)
      ensures r == ValueText(indent, key, value, level)
      decreases value, 4
    {
      var indentStr := LibSerializer.IndentStr(indent, level);
      match value
      case Bool(b) => r := Ok("bool { " + BoolWord(b) + " }");
      case Int(i) => r := Ok("num { " + Decimal(i) + " }");
      case Float(x) => r := Ok("fl { " + x + " }");
      case Str(s) =>
        if '\n' in s {
          r := Ok("ml {\n" + indentStr + "    '" + s + "'\n" + indentStr + "}");
        } else {
          r := Ok("str { \"" + Escape(s) + "\" }");
        }
      case Object(es) =>
        var body := Serialize(es, level + 1);
        if body.Err? {
          return Err(body.error);
        }
        r := Ok("class {\n" + body.value + indentStr + "}");
      case List(xs) => r := SerializeList(key, xs);
      case Other(_) => r := DynamicText(value);
    }

    /** The list branch: the first element picks the tag, then every element is checked. */
    method SerializeList(key: string, xs: seq<Value>) returns (r: Result<string>)
      ensures r == ListText(key, xs)
    {
      if xs == [] {
        return Ok("list(str) { }");
      }
      var first := xs[0];
      var t := FirstTag(first);
      if t.Err? {
        return Err(t.error);
      }
      if t.value == TFl {
        var valid := CheckFloatItems(key, xs);
        if valid.Err? {
          return Err(valid.error);
        }
      } else {
        var c := CheckItems(key, t.value, xs, |xs|);
        if c.Err? {
          return Err(c.error);
        }
      }
      var items := Join(ItemWords(t.value, xs), ", ");
      r := Ok("list(" + TagName(t.value) + ") { " + items + " }");
    }

    /** The loop of a float list: a boolean is refused first, then anything that is not a
        number; the elements that pass are collected. */
    method CheckFloatItems(key: string, xs: seq<Value>) returns (r: Result<seq<Value>>)
      ensures CheckItems(key, TFl, xs, |xs|).Ok? ==> r == Ok(xs)
      ensures CheckItems(key, TFl, xs, |xs|).Err? ==> r == Err(CheckItems(key, TFl, xs, |xs|).error)
    {
      var validItems: seq<Value> := [];
      var i := 0;
      while i < |xs|
        invariant 0 <= i <= |xs|
        invariant CheckItems(key, TFl, xs, i) == Ok(()) && validItems == xs[..i]
      {
        var item := xs[i];
        assert CheckItems(key, TFl, xs, i + 1) == if Fits(TFl, item) then Ok(()) else Err(Misfit(key, TFl, item));
        if item.Bool? {
          CheckItemsFailureStays(key, TFl, xs, i + 1, |xs|);
          return Err(MixedTypes(key, "bool not allowed in float list"));
        }
        if !(item.Int? || item.Float?) {
          CheckItemsFailureStays(key, TFl, xs, i + 1, |xs|);
          return Err(MixedTypes(key, "expected all numeric"));
        }
        assert xs[..i + 1] == xs[..i] + [item];
        validItems := validItems + [item];
        i := i + 1;
      }
      assert xs[..|xs|] == xs;
      return Ok(validItems);
    }
  }
}
