/** How Python treats a configuration value when a serializer hands it to a built-in without
    checking its type first: its truth value, str() of it, and the name type() reports. */
module PyValues {
  import opened Wrappers
  import opened Text
  import opened Values

  /** A float lexeme denotes zero when it has no non-zero digit. */
  predicate ZeroLexeme(s: string)
  {
    forall k :: 0 <= k < |s| ==> !('1' <= s[k] <= '9')
  }

  /** bool(v): False, 0, 0.0, "", {}, [] and None are false; everything else is true. */
  predicate Truth(v: Value)
  {
    match v
    case Bool(b) => b
    case Int(i) => i != 0
    case Float(x) => !ZeroLexeme(x)
    case Str(s) => s != ""
    case Object(es) => es != []
    case List(xs) => xs != []
    case Other(t) => t != "NoneType"
  }

  /** type(v).__name__ */
  function TypeName(v: Value): string
  {
    match v
    case Bool(_) => "bool"
    case Int(_) => "int"
    case Float(_) => "float"
    case Str(_) => "str"
    case Object(_) => "dict"
    case List(_) => "list"
    case Other(t) => t
  }

  /** How f"{v}" renders a value. */
  function BoolWord(b: bool): (w: string)
    ensures w == "true" || w == "false"
  {
    if b then "true" else "false"
  }

  /** str(v) for the scalars: True/False, the decimal digits, the float's lexeme, the string
      itself. The repr() of a dict, a list or a host value is not modelled: a Fault. */
  function StrOf(v: Value): (r: Result<string>)
    ensures r.Ok? <==> IsScalar(v)
    ensures v.Str? ==> r == Ok(v.s)
  {
    match v
    case Bool(b) => Ok(if b then "True" else "False")
    case Int(i) => Ok(Decimal(i))
    case Float(x) => Ok(x)
    case Str(s) => Ok(s)
    case _ => Err(Fault("repr() of a " + TypeName(v) + " is not modelled"))
  }
}
