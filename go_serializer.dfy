/** The Go port's serializer (go/serializer.go). Each map level is written as one
    `key :: tag { … }` line per entry, in the order Go's map iteration visits the keys, and
    ends with a line break. A list the serializer cannot write does not raise an error:
    serialize returns the message as its whole result for that level, which a parent level
    then embeds in its class block like any other text. */
module GoSerializer {
  import opened Wrappers
  import opened Text
  import opened GoParser

  /** The order a map is iterated in, with the orders of its map-valued entries. */
  datatype Order = Order(keys: seq<string>, sub: map<string, Order>)

  /** keys lists every key of m exactly once. */
  ghost predicate Enumerates(keys: seq<string>, m: map<string, GValue>)
  {
    (forall i, j :: 0 <= i < j < |keys| ==> keys[i] != keys[j]) && (forall k :: k in m <==> k in keys)
  }

  /** o is an iteration order of v and of every map inside it. */
  ghost predicate Fits(o: Order, v: GValue)
  {
    match v
    case GMap(m) => Enumerates(o.keys, m) && forall k :: k in m ==> k in o.sub && Fits(o.sub[k], m[k])
    case _ => true
  }

  /** What a step of serialize yields: a piece of output, or an early `return` whose string
      becomes the whole result of the current level. */
  datatype Step<T> = Emit(val: T) | Cut(out: string)

  /** The name %T prints for the type of a value. */
  function GoTypeName(v: GValue): string
  {
    match v
    case GBool(_) => "bool"
    case GInt(_) => "int"
    case GFloat(_) => "float64"
    case GStr(_) => "string"
    case GMap(_) => "map[string]interface {}"
    case GList(_) => "[]interface {}"
    case GOther(t) => t
  }

  function BoolWord(b: bool): string { if b then "true" else "false" }

  /** strings.Repeat(" ", indent*level) */
  function Indent(ind: nat, level: nat): string { Spaces(ind * level) }

  /** A string with a line break: the raw ml block, its quote four spaces in. */
  function MlText(s: string, indentStr: string): string
  {
    "ml {\n" + indentStr + "    '" + s + "'\n" + indentStr + "}"
  }

  /** A one-line string: escaped and quoted after the tag. */
  function QuotedText(tag: string, s: string): string
  {
    tag + " { \"" + Escape(s) + "\" }"
  }

  // ---------------------------------------------------------------------------------
  // Lists
  // ---------------------------------------------------------------------------------

  /** The list types the serializer can write, chosen by the type of the first element. */
  datatype ListKind = LBool | LNum | LFl | LStr

  function KindOf(first: GValue): Option<ListKind>
  {
    match first
    case GBool(_) => Some(LBool)
    case GInt(_) => Some(LNum)
    case GFloat(_) => Some(LFl)
    case GStr(_) => Some(LStr)
    case _ => None
  }

  function KindTag(k: ListKind): string
  {
    match k
    case LBool => "bool"
    case LNum => "num"
    case LFl => "fl"
    case LStr => "str"
  }

  /** The word the mixed-types message uses for what every element should be. */
  function KindExpected(k: ListKind): string
  {
    match k
    case LBool => "bool"
    case LNum => "int"
    case LFl => "numeric"
    case LStr => "str"
  }

  function MixedTypes(key: string, k: ListKind): string
  {
    "Mixed types in list for key '" + key + "': expected all " + KindExpected(k)
  }

  /** The text of one element of a list of kind k, or None when the element does not fit:
      an fl list also takes integers. */
  function ItemText(k: ListKind, x: GValue): (r: Option<string>)
    ensures r.Some? <==> (KindOf(x) == Some(k) || (k == LFl && x.GInt?))
  {
    match (k, x)
    case (LBool, GBool(b)) => Some(BoolWord(b))
    case (LNum, GInt(i)) => Some(Decimal(i))
    case (LFl, GFloat(l)) => Some(l)
    case (LFl, GInt(i)) => Some(Decimal(i))
    case (LStr, GStr(s)) => Some("\"" + Escape(s) + "\"")
    case _ => None
  }

  /** The item loop over the first n elements: their texts, or the mixed-types message at
      the first element that does not fit. */
  function Items(key: string, k: ListKind, xs: seq<GValue>, n: nat): (r: Step<seq<string>>)
    requires n <= |xs|
    ensures r.Emit? ==> |r.val| == n
    ensures r.Cut? ==> r.out == MixedTypes(key, k)
  {
    if n == 0 then Emit([])
    else
      match Items(key, k, xs, n - 1)
      case Cut(out) => Cut(out)
      case Emit(ss) =>
        match ItemText(k, xs[n - 1])
        case None => Cut(MixedTypes(key, k))
        case Some(t) => Emit(ss + [t])
  }

  /** The list branch: `list(str) { }` when empty, else typed by the first element. */
  function ListText(key: string, xs: seq<GValue>): Step<string>
  {
    if xs == [] then Emit("list(str) { }")
    else
      match KindOf(xs[0])
      case None => Cut("Unsupported list element type: " + GoTypeName(xs[0]))
      case Some(k) =>
        match Items(key, k, xs, |xs|)
        case Cut(out) => Cut(out)
        case Emit(ss) => Emit("list(" + KindTag(k) + ") { " + Join(ss, ", ") + " }")
  }

  // ---------------------------------------------------------------------------------
  // Values and levels
  // ---------------------------------------------------------------------------------

  /** serializeDynamic. From serialize it only ever receives values of the types the main
      switch has no case for; its other branches are written as the source has them. */
  function DynamicText(v: GValue): string
  {
    match v
    case GBool(b) => "dynamic { " + BoolWord(b) + " }"
    case GInt(i) => "dynamic { " + Decimal(i) + " }"
    case GFloat(l) => "dynamic { " + l + " }"
    case GStr(s) => if '\n' in s then MlText(s, "") else QuotedText("dynamic", s)
    case _ => "Unsupported value type: " + GoTypeName(v)
  }

  /** What serialize appends after `key :: ` for a value at the given level. */
  function ValueText(v: GValue, o: Order, key: string, ind: nat, level: nat): (r: Step<string>)
    requires Fits(o, v)
    decreases v, 3
  {
    match v
    case GBool(b) => Emit("bool { " + BoolWord(b) + " }")
    case GInt(i) => Emit("num { " + Decimal(i) + " }")
    case GFloat(l) => Emit("fl { " + l + " }")
    case GStr(s) => Emit(if '\n' in s then MlText(s, Indent(ind, level)) else QuotedText("str", s))
    case GMap(m) => Emit("class {\n" + LevelText(m, o, ind, level + 1) + Indent(ind, level) + "}")
    case GList(xs) => ListText(key, xs)
    case GOther(_) => Emit(DynamicText(v))
  }

  /** The line of the entry named k. */
  function EntryLine(m: map<string, GValue>, o: Order, k: string, ind: nat, level: nat): Step<string>
    requires Fits(o, GMap(m)) && k in m
    decreases GMap(m), 0, 0
  {
    match ValueText(m[k], o.sub[k], k, ind, level)
    case Cut(out) => Cut(out)
    case Emit(t) => Emit(Indent(ind, level) + k + " :: " + t)
  }

  /** The loop over the first n keys in iteration order. */
  function LevelLines(m: map<string, GValue>, o: Order, n: nat, ind: nat, level: nat): (r: Step<seq<string>>)
    requires Fits(o, GMap(m)) && n <= |o.keys|
    ensures r.Emit? ==> |r.val| == n
    decreases GMap(m), 1, n
  {
    if n == 0 then Emit([])
    else
      match LevelLines(m, o, n - 1, ind, level)
      case Cut(out) => Cut(out)
      case Emit(lines) =>
        match EntryLine(m, o, o.keys[n - 1], ind, level)
        case Cut(out) => Cut(out)
        case Emit(line) => Emit(lines + [line])
  }

  /** serialize(data, level): the lines joined by line breaks and a final line break, or
      the message of the first list it could not write. */
  function LevelText(m: map<string, GValue>, o: Order, ind: nat, level: nat): string
    requires Fits(o, GMap(m))
    decreases GMap(m), 2
  {
    match LevelLines(m, o, |o.keys|, ind, level)
    case Cut(out) => out
    case Emit(lines) => Join(lines, "\n") + "\n"
  }

  /** Dumps (go/scl.go): an indent of zero or less means 4. The error is always nil. */
  function Dumps(data: map<string, GValue>, o: Order, indent: int): (r: string)
    requires Fits(o, GMap(data))
    ensures indent > 0 ==> r == LevelText(data, o, indent, 0)
    ensures indent <= 0 ==> r == LevelText(data, o, 4, 0)
  {
    LevelText(data, o, if indent <= 0 then 4 else indent, 0)
  }

  /** Once the loop has returned early, it stays returned with the same message. */
  lemma {:induction false} LevelLinesCutStays(m: map<string, GValue>, o: Order, k: nat, n: nat, ind: nat, level: nat)
    requires Fits(o, GMap(m)) && k <= n <= |o.keys| && LevelLines(m, o, k, ind, level).Cut?
    ensures LevelLines(m, o, n, ind, level) == LevelLines(m, o, k, ind, level)
    decreases n
  {
    if n > k {
      LevelLinesCutStays(m, o, k, n - 1, ind, level);
    }
  }

  /** The same for the item loop of a list. */
  lemma {:induction false} ItemsCutStays(key: string, kind: ListKind, xs: seq<GValue>, k: nat, n: nat)
    requires k <= n <= |xs| && Items(key, kind, xs, k).Cut?
    ensures Items(key, kind, xs, n) == Items(key, kind, xs, k)
    decreases n
  {
    if n > k {
      ItemsCutStays(key, kind, xs, k, n - 1);
    }
  }

  class Serializer {
    const indent: nat

    /** NewSerializer */
    constructor (indent: nat)
      ensures this.indent == indent
    {
      this.indent := indent;
    }

    /** Serialize: level 0, and a nil error. */
    method Serialize(data: map<string, GValue>, o: Order) returns (s: string)
      requires Fits(o, GMap(data))
      ensures s == LevelText(data, o, indent, 0)
    {
      s := SerializeLevel(data, o, 0);
    }

    /** serialize: a line per entry in iteration order; an unwritable list returns its
        message at once. */
    method SerializeLevel(data: map<string, GValue>, o: Order, level: nat) returns (s: string)
      requires Fits(o, GMap(data))
      ensures s == LevelText(data, o, indent, level)
      decreases GMap(data), 2
    {
      var lines: seq<string> := [];
      var indentStr := Indent(indent, level);
      var i := 0;
      while i < |o.keys|
        invariant 0 <= i <= |o.keys|
        invariant LevelLines(data, o, i, indent, level) == Emit(lines)
      {
        var key := o.keys[i];
        assert key in data;
        var t := SerializeValue(data[key], o.sub[key], key, level);
        if t.Cut? {
          assert EntryLine(data, o, key, indent, level) == Cut(t.out);
          LevelLinesCutStays(data, o, i + 1, |o.keys|, indent, level);
          return t.out;
        }
        assert EntryLine(data, o, key, indent, level) == Emit(indentStr + key + " :: " + t.val);
        lines := lines + [indentStr + key + " :: " + t.val];
        i := i + 1;
      }
      return Join(lines, "\n") + "\n";
    }

    /** The type switch of serialize for one value. */
    method SerializeValue(v: GValue, o: Order, key: string, level: nat) returns (r: Step<string>)
      requires Fits(o, v)
      ensures r == ValueText(v, o, key, indent, level)
      decreases v, 3
    {
      match v
      case GMap(m) =>
        var inner := SerializeLevel(m, o, level + 1);
        r := Emit("class {\n" + inner + Indent(indent, level) + "}");
      case GList(xs) =>
        r := SerializeList(key, xs);
      case _ =>
        r := ValueText(v, o, key, indent, level);
    }

    /** The list branch: the first element picks the type, then every element is checked
        and written in turn. */
    method SerializeList(key: string, xs: seq<GValue>) returns (r: Step<string>)
      ensures r == ListText(key, xs)
    {
      if |xs| == 0 {
        return Emit("list(str) { }");
      }
      var kind := KindOf(xs[0]);
      if kind.None? {
        return Cut("Unsupported list element type: " + GoTypeName(xs[0]));
      }
      var items: seq<string> := [];
      var i := 0;
      while i < |xs|
        invariant 0 <= i <= |xs|
        invariant Items(key, kind.value, xs, i) == Emit(items)
      {
        var t := ItemText(kind.value, xs[i]);
        if t.None? {
          ItemsCutStays(key, kind.value, xs, i + 1, |xs|);
          return Cut(MixedTypes(key, kind.value));
        }
        items := items + [t.value];
        i := i + 1;
      }
      return Emit("list(" + KindTag(kind.value) + ") { " + Join(items, ", ") + " }");
    }
  }
}
