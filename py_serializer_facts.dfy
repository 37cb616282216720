/** Properties of the Python port's serializer: which values it can write at all, how a list
    is typed and checked, and that the string forms it writes read back through the port's
    own lexer. */
module PySerializerFacts {
  import opened Wrappers
  import opened Text
  import opened Tokens
  import opened Values
  import opened PyValues
  import opened Scanning
  import opened LibLexer
  import opened PyLexer
  import opened PySerializer
  import LibSerializer

  /** The values serialize can write: scalars, dictionaries of such values, and lists whose
      elements all fit the tag of the first one. */
  predicate Serializable(v: Value)
  {
    match v
    case Object(es) => forall i :: 0 <= i < |es| ==> Serializable(es[i].1)
    case List(xs) => xs == [] || (IsScalar(xs[0]) && forall i :: 0 <= i < |xs| ==> Fits(FirstTag(xs[0]).value, xs[i]))
    case Other(_) => false
    case _ => true
  }

  /** serialize fails exactly when some value, at any depth, is not serializable. */
  lemma {:induction false} ValueTextOkIff(indent: int, key: string, v: Value, level: nat)
    ensures ValueText(indent, key, v, level).Ok? <==> Serializable(v)
    decreases v, 4
  {
    match v
    case Object(es) => DictLinesOkIff(indent, es, |es|, level + 1);
    case _ =>
  }

  lemma {:induction false} DictLinesOkIff(indent: int, es: seq<(string, Value)>, n: nat, level: nat)
    requires n <= |es|
    ensures DictLines(indent, es, n, level).Ok? <==> forall i :: 0 <= i < n ==> Serializable(es[i].1)
    decreases Object(es), 2, n
  {
    if n > 0 {
      DictLinesOkIff(indent, es, n - 1, level);
      ValueTextOkIff(indent, es[n - 1].0, es[n - 1].1, level);
    }
  }

  lemma DictTextOkIff(indent: int, es: seq<(string, Value)>, level: nat)
    ensures DictText(indent, es, level).Ok? <==> Serializable(Object(es))
  {
    DictLinesOkIff(indent, es, |es|, level);
  }

  /** A non-empty list is typed by its first element alone: it can be written exactly when
      that element is a scalar and every element fits its tag. */
  lemma ListTypedByFirst(key: string, xs: seq<Value>)
    requires xs != []
    ensures ListText(key, xs).Ok? <==> IsScalar(xs[0]) && forall i :: 0 <= i < |xs| ==> Fits(FirstTag(xs[0]).value, xs[i])
    ensures !IsScalar(xs[0]) ==> ListText(key, xs) == Err(FirstTag(xs[0]).error)
  {
  }

  /** The element tag the writer picks is one the strict parser accepts after `list(`. */
  lemma ListTagIsScalarType(key: string, xs: seq<Value>)
    requires xs != [] && ListText(key, xs).Ok?
    ensures var w := TagName(FirstTag(xs[0]).value);
      StartsWith(ListText(key, xs).value, "list(" + w + ") { ") &&
      KeywordKind(w) in {Some(BoolKw), Some(NumKw), Some(FlKw), Some(StrKw)}
  {
    var t := FirstTag(xs[0]).value;
    var w := TagName(t);
    var r := "list(" + w + ") { " + Join(ItemWords(t, xs), ", ") + " }";
    assert r[..|"list(" + w + ") { "|] == "list(" + w + ") { ";
  }

  /** xs[i] is the first element of xs that does not fit t. */
  predicate FirstMisfitAt(t: ListTag, xs: seq<Value>, i: nat)
  {
    i < |xs| && !Fits(t, xs[i]) && forall j :: 0 <= j < i ==> Fits(t, xs[j])
  }

  /** The first misfit decides the error: every element before it fits. */
  lemma {:induction false} FirstMisfitDecides(key: string, t: ListTag, xs: seq<Value>, n: nat)
    requires n <= |xs| && CheckItems(key, t, xs, n).Err?
    ensures exists i: nat :: i < n && FirstMisfitAt(t, xs, i) && CheckItems(key, t, xs, n).error == Misfit(key, t, xs[i])
  {
    var i := FirstMisfitIndex(key, t, xs, n);
  }

  /** The index of the first misfit, found by induction on n. */
  lemma {:induction false} FirstMisfitIndex(key: string, t: ListTag, xs: seq<Value>, n: nat) returns (i: nat)
    requires n <= |xs| && CheckItems(key, t, xs, n).Err?
    ensures i < n && FirstMisfitAt(t, xs, i) && CheckItems(key, t, xs, n).error == Misfit(key, t, xs[i])
  {
    var prev := CheckItems(key, t, xs, n - 1);
    if prev.Err? {
      i := FirstMisfitIndex(key, t, xs, n - 1);
      assert CheckItems(key, t, xs, n) == prev;
    } else {
      i := n - 1;
      assert CheckItems(key, t, xs, n) == Err(Misfit(key, t, xs[i]));
    }
  }

  /** In a float list a boolean is refused with its own message, even when it follows
      integers. */
  lemma FloatListRefusesBool(key: string, x: string, i: int, b: bool)
    ensures ListText(key, [Float(x), Int(i), Bool(b)]) == Err(MixedTypes(key, "bool not allowed in float list"))
  {
    var xs := [Float(x), Int(i), Bool(b)];
    assert CheckItems(key, TFl, xs, 2) == Ok(());
  }

  /** A string after an integer in a num list is refused as a non-int. */
  lemma NumListRefusesString(key: string, i: int, s: string)
    ensures ListText(key, [Int(i), Str(s)]) == Err(MixedTypes(key, "expected all int"))
  {
    var xs := [Int(i), Str(s)];
    assert CheckItems(key, TNum, xs, 1) == Ok(());
  }

  /** Booleans are tested before integers: a boolean never becomes a num. */
  lemma BooleanNeverNum(indent: int, key: string, b: bool, level: nat)
    ensures ValueText(indent, key, Bool(b), level).Ok?
    ensures StartsWith(ValueText(indent, key, Bool(b), level).value, "bool { ")
    ensures !StartsWith(ValueText(indent, key, Bool(b), level).value, "num")
  {
    assert ValueText(indent, key, Bool(b), level).value[0] == 'b';
  }

  /** An empty dictionary is written as a single line break, and every output ends with one. */
  lemma EmptyAndFinalNewline(indent: int, es: seq<(string, Value)>, level: nat)
    ensures DictText(indent, [], level) == Ok("\n")
    ensures DictText(indent, es, level).Ok? ==> EndsWith(DictText(indent, es, level).value, "\n")
  {
    assert DictLines(indent, [], 0, level) == Ok([]);
    assert Join([], "\n") + "\n" == "\n";
    if DictText(indent, es, level).Ok? {
      var r := DictText(indent, es, level).value;
      assert r[|r| - 1..] == [r[|r| - 1]];
    }
  }

  /** One-line strings: the `str` form reads back through the port's string reader. */
  lemma StrValueReadsBack(indent: int, key: string, s: string, level: nat)
    requires '\n' !in s
    ensures ValueText(indent, key, Str(s), level) == Ok("str { \"" + Escape(s) + "\" }")
    ensures var text := "str { \"" + Escape(s) + "\" }";
      PyStringAt(text, 6) == Ok(Scan(TokenAt(text, 6, StringLit, Text(s)), |text| - 2))
  {
    var text := "str { \"" + Escape(s) + "\" }";
    PyEscapedStringReadsBack("str { ", s, " }");
    assert "str { " + "\"" + Escape(s) + "\"" + " }" == text;
  }

  /** Strings with a line break: the `ml` block reads back verbatim through the port's raw
      reader whenever the string holds no single quote; backslashes survive. */
  lemma MlValueReadsBack(indent: int, key: string, s: string, level: nat)
    requires '\n' in s && '\'' !in s
    ensures var ind := LibSerializer.IndentStr(indent, level);
      ValueText(indent, key, Str(s), level) == Ok("ml {\n" + ind + "    '" + s + "'\n" + ind + "}")
    ensures var ind := LibSerializer.IndentStr(indent, level);
      var text := "ml {\n" + ind + "    '" + s + "'\n" + ind + "}";
      var p := |ind| + 9;
      p < |text| && text[p] == '\'' &&
      PyMultilineAt(text, p) == Ok(Scan(TokenAt(text, p, MultilineLit, Text(s)), p + |s| + 2))
  {
    MlBlockReadsBack(LibSerializer.IndentStr(indent, level), s);
  }

  lemma MlBlockReadsBack(ind: string, s: string)
    requires '\'' !in s
    ensures var text := "ml {\n" + ind + "    '" + s + "'\n" + ind + "}";
      var p := |ind| + 9;
      p < |text| && text[p] == '\'' &&
      PyMultilineAt(text, p) == Ok(Scan(TokenAt(text, p, MultilineLit, Text(s)), p + |s| + 2))
  {
    var head := "ml {\n" + ind + "    '";
    var tail := "'\n" + ind + "}";
    var text := head + s + tail;
    var p := |ind| + 9;
    assert text == "ml {\n" + ind + "    '" + s + "'\n" + ind + "}";
    assert |head| == p + 1;
    assert text[p] == head[p] == '\'';
    assert text[p + 1..p + 1 + |s|] == s;
    assert text[p + 1 + |s|] == tail[0] == '\'';
    PyRawStringReadsBack(text, p, s);
  }
}
