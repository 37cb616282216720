/** The Ruby port's serializer (ruby/lib/scl/serializer.rb): pure functions of the indent
    width, the value and the nesting level. Each returns the text Ruby builds, or the error
    it raises: ParseError (a structural error) for a value it cannot write, ArgumentError
    when a negative width makes `" " * n` negative. */
module RubySerializer {
  import opened Wrappers
  import opened Text
  import opened Values

  /** `" " * n` with n < 0. */
  const NegativeArgument := "ArgumentError: negative argument"

  /** The class name `#{x.class}` prints. */
  function RubyClass(v: Value): string
  {
    match v
    case Bool(b) => if b then "TrueClass" else "FalseClass"
    case Int(_) => "Integer"
    case Float(_) => "Float"
    case Str(_) => "String"
    case Object(_) => "Hash"
    case List(_) => "Array"
    case Other(name) => name
  }

  function BoolText(b: bool): string { if b then "true" else "false" }

  /** `" " * (@indent * level)`. */
  function Pad(indent: int, level: nat): (r: Result<string>)
    ensures r.Ok? <==> indent * level >= 0
    ensures r.Ok? ==> |r.value| == indent * level && forall k :: 0 <= k < |r.value| ==> r.value[k] == ' '
    ensures r.Err? ==> r.error == Fault(NegativeArgument)
  {
    if indent * level < 0 then Err(Fault(NegativeArgument)) else Ok(Spaces(indent * level))
  }

  /** A string with a line break: `ml {`, the string between single quotes on the next line
      four columns in, and `}` back at the current indent. */
  function MlText(indent: int, s: string, level: nat): (r: Result<string>)
    ensures r.Ok? <==> indent * level >= 0
  {
    var pad :- Pad(indent, level);
    Ok("ml {\n" + pad + "    '" + s + "'\n" + pad + "}")
  }

  /** The quoting as serializer.rb writes it: two gsub calls, the first meant to double
      each backslash, the second to put a backslash before each double quote. Ruby reads a
      replacement string with escapes of its own, in which two backslashes stand for one,
      so the first call puts back the single backslash it took out and only double quotes
      change. The model writes strings with Escape instead (see the README's findings). */
  function EscapeAsWritten(s: string): (r: string)
    ensures '"' !in s ==> r == s
  {
    if '"' !in s then ReplaceAbsent(s, '"', "\\\""); Replace(s, '"', "\\\"")
    else Replace(s, '"', "\\\"")
  }

  // ---------------------------------------------------------------------------------
  // Lists
  // ---------------------------------------------------------------------------------

  predicate AllBool(xs: seq<Value>) { forall i :: 0 <= i < |xs| ==> xs[i].Bool? }
  predicate AllInt(xs: seq<Value>) { forall i :: 0 <= i < |xs| ==> xs[i].Int? }
  predicate AllNumeric(xs: seq<Value>) { forall i :: 0 <= i < |xs| ==> xs[i].Int? || xs[i].Float? }
  predicate AllStr(xs: seq<Value>) { forall i :: 0 <= i < |xs| ==> xs[i].Str? }

  /** One list item as the branch that accepted the list writes it: true/false, to_s of a
      number, a string escaped between double quotes. */
  function ItemText(v: Value): (r: string)
    ensures v.Int? ==> IsIntText(r) && ParseInt(r) == v.i
    ensures v.Str? ==> |r| >= 2 && r[0] == '"' && r[|r| - 1] == '"' && ('\n' in r <==> '\n' in v.s)
    ensures !IsScalar(v) ==> r == ""
  {
    match v
    case Bool(b) => BoolText(b)
    case Int(i) => DecimalRoundTrip(i); Decimal(i)
    case Float(x) => x
    case Str(s) => EscapeKeepsNewlines(s); "\"" + Escape(s) + "\""
    case _ => ""
  }

  function ItemTexts(xs: seq<Value>): (r: seq<string>)
    ensures |r| == |xs| && forall i :: 0 <= i < |xs| ==> r[i] == ItemText(xs[i])
  {
    if xs == [] then [] else [ItemText(xs[0])] + ItemTexts(xs[1..])
  }

  /** The element type a list is written with: the first of bool, num, fl, str whose
      check every element passes. */
  function ListTag(xs: seq<Value>): (r: Option<string>)
    ensures r.Some? <==> xs == [] || AllBool(xs) || AllNumeric(xs) || AllStr(xs)
  {
    if xs == [] then Some("str")
    else if AllBool(xs) then Some("bool")
    else if AllInt(xs) then Some("num")
    else if AllNumeric(xs) then Some("fl")
    else if AllStr(xs) then Some("str")
    else None
  }

  /** serialize_list: every element is checked, not only the first; an empty list is
      written as a list of strings. */
  function ListText(xs: seq<Value>): (r: Result<string>)
    ensures r.Ok? <==> ListTag(xs).Some?
    ensures r.Err? ==> xs != [] && r.error == StructuralError("Unsupported list element type: " + RubyClass(xs[0]))
  {
    if xs == [] then Ok("list(str) { }")
    else
      match ListTag(xs)
      case Some(tag) => Ok("list(" + tag + ") { " + Join(ItemTexts(xs), ", ") + " }")
      case None => Err(StructuralError("Unsupported list element type: " + RubyClass(xs[0])))
  }

  // ---------------------------------------------------------------------------------
  // Values and hashes
  // ---------------------------------------------------------------------------------

  /** serialize_dynamic: the scalar forms under the `dynamic` tag, and ParseError for a
      value of any other class. serialize_value reaches it only with such a value. */
  function DynamicText(indent: int, v: Value, level: nat): (r: Result<string>)
    ensures IsScalar(v) && !(v.Str? && '\n' in v.s) ==> r.Ok?
    ensures !IsScalar(v) ==> r == Err(StructuralError("Unsupported value type: " + RubyClass(v)))
  {
    match v
    case Bool(b) => Ok("dynamic { " + BoolText(b) + " }")
    case Int(i) => Ok("dynamic { " + Decimal(i) + " }")
    case Float(x) => Ok("dynamic { " + x + " }")
    case Str(s) =>
      if '\n' in s then MlText(indent, s, level)
      else Ok("dynamic { \"" + Escape(s) + "\" }")
    case _ => Err(StructuralError("Unsupported value type: " + RubyClass(v)))
  }

  /** serialize_value: the tag is chosen by the value's class, booleans before numbers. */
  function ValueText(indent: int, v: Value, level: nat): (r: Result<string>)
    ensures v.Bool? || v.Int? || v.Float? || (v.Str? && '\n' !in v.s) ==> r.Ok?
    ensures v.Other? ==> r == Err(StructuralError("Unsupported value type: " + RubyClass(v)))
    decreases v, 2
  {
    match v
    case Bool(b) => Ok("bool { " + BoolText(b) + " }")
    case Int(i) => Ok("num { " + Decimal(i) + " }")
    case Float(x) => Ok("fl { " + x + " }")
    case Str(s) =>
      if '\n' in s then MlText(indent, s, level)
      else Ok("str { \"" + Escape(s) + "\" }")
    case Object(es) =>
      var body :- ObjText(indent, es, level + 1);
      var pad :- Pad(indent, level);
      Ok("class {\n" + body + "\n" + pad + "}")
    case List(xs) => ListText(xs)
    case Other(_) => DynamicText(indent, v, level)
  }

  /** serialize_obj: one line per entry, `key :: value` at the level's indent, joined with
      line breaks. The indent is computed before any entry is written. */
  function ObjText(indent: int, es: seq<(string, Value)>, level: nat): (r: Result<string>)
    ensures indent * level < 0 ==> r == Err(Fault(NegativeArgument))
    decreases Object(es), 1
  {
    var pad :- Pad(indent, level);
    var lines :- ObjLines(indent, es, level, pad, 0);
    Ok(Join(lines, "\n"))
  }

  /** The lines of the entries es[i..], or the error of the first entry that cannot be
      written. */
  function ObjLines(indent: int, es: seq<(string, Value)>, level: nat, pad: string, i: nat): (r: Result<seq<string>>)
    requires i <= |es|
    ensures r.Ok? ==> |r.value| == |es| - i
    decreases Object(es), 0, |es| - i
  {
    if i == |es| then Ok([])
    else
      var v :- ValueText(indent, es[i].1, level);
      var rest :- ObjLines(indent, es, level, pad, i + 1);
      Ok([pad + es[i].0 + " :: " + v] + rest)
  }

  /** serialize: a Hash written at level 0, followed by a line break; anything else is
      refused. SCL.dumps runs it with the indent width it is given, 4 by default. */
  function Serialize(indent: int, v: Value): (r: Result<string>)
    ensures !v.Object? ==> r == Err(StructuralError("Expected Hash"))
    ensures r.Ok? ==> EndsWith(r.value, "\n")
  {
    if !v.Object? then Err(StructuralError("Expected Hash"))
    else
      var body :- ObjText(indent, v.entries, 0);
      Ok(body + "\n")
  }
}
