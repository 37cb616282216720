/** The Rust port's serializer (rust/src/serializer.rs). Each map level is written as one
    `key :: tag { … }` line per entry, classes as blocks one level deeper, strings with a
    line break in the raw `ml` form. A HashMap yields its entries in an order the program
    does not control, so the order is a parameter: an Order lists the keys of a map in the
    order iteration visits them, and the orders of the nested classes below them. */
module RustSerializer {
  import opened Wrappers
  import opened Text
  import opened RustParser
  import PyValues

  /** The order a map is iterated in, with the orders of its class-valued entries. */
  datatype Order = Order(keys: seq<string>, sub: map<string, Order>)

  /** keys lists every key of m exactly once. */
  ghost predicate Enumerates(keys: seq<string>, m: map<string, RValue>)
  {
    (forall i, j :: 0 <= i < j < |keys| ==> keys[i] != keys[j]) && (forall k :: k in m <==> k in keys)
  }

  /** o is an iteration order of v and of every class inside it. */
  ghost predicate Fits(o: Order, v: RValue)
  {
    match v
    case RClass(m) => Enumerates(o.keys, m) && forall k :: k in m ==> k in o.sub && Fits(o.sub[k], m[k])
    case _ => true
  }

  // ---------------------------------------------------------------------------------
  // trim_float
  // ---------------------------------------------------------------------------------

  /** s.trim_end_matches(c) */
  function TrimEnd(s: string, c: char): (r: string)
    ensures |r| <= |s| && r == s[..|r|] && (r == [] || r[|r| - 1] != c)
    ensures forall k :: |r| <= k < |s| ==> s[k] == c
  {
    if s != [] && s[|s| - 1] == c then TrimEnd(s[..|s| - 1], c) else s
  }

  /** trim_float on the printed text s of a float. */
  function TrimFloat(s: string): (r: string)
  {
    if '.' in s then
      var t := TrimEnd(TrimEnd(s, '0'), '.');
      if t == [] then "0" else t
    else s
  }

  /** The printed text of an fl value: its lexeme, or the integer's decimal digits. */
  function FloatText(f: Fl): string
  {
    TrimFloat(match f case FlText(lexeme) => lexeme case FlInt(n) => Decimal(n))
  }

  // ---------------------------------------------------------------------------------
  // The text of a value
  // ---------------------------------------------------------------------------------

  /** " ".repeat(indent * level) */
  function Indent(ind: nat, level: nat): string { Spaces(ind * level) }

  /** The raw multiline form, its quote indented by four spaces. */
  function MlText(s: string, ind: nat, level: nat): string
  {
    "ml {\n" + Indent(ind, level) + "    '" + s + "'\n" + Indent(ind, level) + "}"
  }

  /** A string is escaped and quoted, or in the ml form when it holds a line break. */
  function StrText(tag: string, s: string, ind: nat, level: nat): string
  {
    if '\n' in s then MlText(s, ind, level) else tag + " { \"" + Escape(s) + "\" }"
  }

  function BoolItems(bs: seq<bool>): (r: seq<string>)
    ensures |r| == |bs|
  {
    if bs == [] then [] else [PyValues.BoolWord(bs[0])] + BoolItems(bs[1..])
  }

  function NumItems(ns: seq<int>): (r: seq<string>)
    ensures |r| == |ns|
  {
    if ns == [] then [] else [Decimal(ns[0])] + NumItems(ns[1..])
  }

  function FlItems(fs: seq<Fl>): (r: seq<string>)
    ensures |r| == |fs|
  {
    if fs == [] then [] else [FloatText(fs[0])] + FlItems(fs[1..])
  }

  function StrItems(ss: seq<string>): (r: seq<string>)
    ensures |r| == |ss|
  {
    if ss == [] then [] else ["\"" + Escape(ss[0]) + "\""] + StrItems(ss[1..])
  }

  /** `list(tag) { items }`, the items joined by ", ". */
  function ListText(tag: string, items: seq<string>): string
  {
    "list(" + tag + ") { " + Join(items, ", ") + " }"
  }

  /** serialize_dynamic: the base types only; the source has no arm for a nested dynamic,
      which is refused like the other non-base values. */
  function DynamicText(v: RValue, ind: nat, level: nat): (r: Result<string>)
    ensures r.Ok? <==> IsBase(v)
    ensures r.Err? ==> r.error == StructuralError("Unsupported value type for dynamic")
  {
    match v
    case RBool(b) => Ok("dynamic { " + PyValues.BoolWord(b) + " }")
    case RNum(n) => Ok("dynamic { " + Decimal(n) + " }")
    case RFl(f) => Ok("dynamic { " + FloatText(f) + " }")
    case RStr(s) => Ok(StrText("dynamic", s, ind, level))
    case RMl(s) => Ok(MlText(s, ind, level))
    case _ => Err(StructuralError("Unsupported value type for dynamic"))
  }

  /** serialize_value. A refused dynamic value makes `expect` panic: a Fault. */
  function ValueText(v: RValue, o: Order, ind: nat, level: nat): (r: Result<string>)
    requires Fits(o, v)
    ensures Dumpable(v) ==> r.Ok?
    ensures r.Err? ==> r.error == Fault("dynamic serialization failed")
    decreases v, 2
  {
    match v
    case RBool(b) => Ok("bool { " + PyValues.BoolWord(b) + " }")
    case RNum(n) => Ok("num { " + Decimal(n) + " }")
    case RFl(f) => Ok("fl { " + FloatText(f) + " }")
    case RStr(s) => Ok(StrText("str", s, ind, level))
    case RMl(s) => Ok(MlText(s, ind, level))
    case RClass(_) =>
      var inner :- LevelText(v, o, ind, level + 1);
      Ok("class {\n" + inner + "\n" + Indent(ind, level) + "}")
    case RListBool(bs) => Ok(ListText("bool", BoolItems(bs)))
    case RListNum(ns) => Ok(ListText("num", NumItems(ns)))
    case RListFl(fs) => Ok(ListText("fl", FlItems(fs)))
    case RListStr(ss) => Ok(ListText("str", StrItems(ss)))
    case RDynamic(inner) =>
      match DynamicText(inner, ind, level)
      case Ok(s) => Ok(s)
      case Err(_) => Err(Fault("dynamic serialization failed"))
  }

  /** The line of the entry named k at the given level. */
  function EntryLine(v: RValue, o: Order, k: string, ind: nat, level: nat): (r: Result<string>)
    requires v.RClass? && Fits(o, v) && k in v.fields
    ensures Dumpable(v) ==> r.Ok?
    ensures r.Err? ==> r.error == Fault("dynamic serialization failed")
    decreases v, 0, 0
  {
    var t :- ValueText(v.fields[k], o.sub[k], ind, level);
    Ok(Indent(ind, level) + k + " :: " + t)
  }

  /** The lines of the first n entries in iteration order. */
  function LevelLines(v: RValue, o: Order, n: nat, ind: nat, level: nat): (r: Result<seq<string>>)
    requires v.RClass? && Fits(o, v) && n <= |o.keys|
    ensures Dumpable(v) ==> r.Ok?
    ensures r.Ok? ==> |r.value| == n
    ensures r.Err? ==> r.error == Fault("dynamic serialization failed")
    decreases v, 0, n + 1
  {
    if n == 0 then Ok([])
    else
      var lines :- LevelLines(v, o, n - 1, ind, level);
      var line :- EntryLine(v, o, o.keys[n - 1], ind, level);
      Ok(lines + [line])
  }

  /** serialize_level: the entry lines joined by line breaks. */
  function LevelText(v: RValue, o: Order, ind: nat, level: nat): (r: Result<string>)
    requires v.RClass? && Fits(o, v)
    ensures Dumpable(v) ==> r.Ok?
    ensures r.Err? ==> r.error == Fault("dynamic serialization failed")
    decreases v, 1
  {
    var lines :- LevelLines(v, o, |o.keys|, ind, level);
    Ok(Join(lines, "\n"))
  }

  /** serialize_map: level 0 and a final line break. */
  function MapText(data: map<string, RValue>, o: Order, ind: nat): (r: Result<string>)
    requires Fits(o, RClass(data))
    ensures AllDumpable(data) ==> r.Ok? && EndsWith(r.value, "\n")
  {
    var body :- LevelText(RClass(data), o, ind, 0);
    Ok(body + "\n")
  }

  /** dumps(data, indent) (rust/src/lib.rs): an indent of 0 means 4. */
  function Dumps(data: map<string, RValue>, o: Order, indent: nat): (r: Result<string>)
    requires Fits(o, RClass(data))
    ensures indent == 0 ==> r == MapText(data, o, 4)
    ensures AllDumpable(data) ==> r.Ok? && EndsWith(r.value, "\n")
  {
    MapText(data, o, if indent == 0 then 4 else indent)
  }

  class Serializer {
    const indent: nat

    /** Serializer::new: an indent of 0 means 4. */
    constructor (indent: nat)
      ensures this.indent == if indent == 0 then 4 else indent
      ensures this.indent > 0
    {
      this.indent := if indent == 0 then 4 else indent;
    }

    /** serialize_map */
    method SerializeMap(data: map<string, RValue>, o: Order) returns (r: Result<string>)
      requires Fits(o, RClass(data))
      ensures r == MapText(data, o, indent)
      ensures AllDumpable(data) ==> r.Ok?
    {
      var body := SerializeLevel(data, o, 0);
      if body.Err? {
        return Err(body.error);
      }
      return Ok(body.value + "\n");
    }

    /** serialize_level: a line per entry, pushed in iteration order, then joined. */
    method SerializeLevel(data: map<string, RValue>, o: Order, level: nat) returns (r: Result<string>)
      requires Fits(o, RClass(data))
      ensures r == LevelText(RClass(data), o, indent, level)
    {
      ghost var v := RClass(data);
      var lines: seq<string> := [];
      var ind := Indent(indent, level);
      var i := 0;
      while i < |o.keys|
        invariant 0 <= i <= |o.keys|
        invariant LevelLines(v, o, i, indent, level) == Ok(lines)
      {
        var k := o.keys[i];
        var t := ValueText(data[k], o.sub[k], indent, level);
        if t.Err? {
          LevelLinesFailureStays(v, o, i + 1, |o.keys|, indent, level);
          return Err(t.error);
        }
        lines := lines + [ind + k + " :: " + t.value];
        i := i + 1;
      }
      return Ok(Join(lines, "\n"));
    }
  }

  /** Once an entry fails, every longer prefix fails the same way. */
  lemma {:induction false} LevelLinesFailureStays(v: RValue, o: Order, k: nat, n: nat, ind: nat, level: nat)
    requires v.RClass? && Fits(o, v) && k <= n <= |o.keys| && LevelLines(v, o, k, ind, level).Err?
    ensures LevelLines(v, o, n, ind, level) == LevelLines(v, o, k, ind, level)
    decreases n
  {
    if n > k {
      LevelLinesFailureStays(v, o, k, n - 1, ind, level);
    }
  }
}
