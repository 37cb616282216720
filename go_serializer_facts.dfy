/** Properties of the Go port's serializer: one line per key in any iteration order, the
    first unwritable list deciding a level's whole output, lists typed by their first
    element, strings that the Go lexer reads back, and that every map Loads produces is
    written without a message in place of its lines. */
module GoSerializerFacts {
  import opened Wrappers
  import opened Text
  import opened Tokens
  import opened Scanning
  import opened LibLexer
  import opened PyLexer
  import opened GoLexer
  import opened Values
  import opened Grammar
  import opened StrictGrammarFacts
  import opened GoParser
  import opened GoSerializer
  import PySerializerFacts

  // ---------------------------------------------------------------------------------
  // The loops
  // ---------------------------------------------------------------------------------

  /** The item loop runs to its end exactly when every element fits the list's kind. */
  lemma {:induction false} ItemsEmitIff(key: string, k: ListKind, xs: seq<GValue>, n: nat)
    requires n <= |xs|
    ensures Items(key, k, xs, n).Emit? <==> forall j :: 0 <= j < n ==> ItemText(k, xs[j]).Some?
    ensures Items(key, k, xs, n).Emit? ==> forall j :: 0 <= j < n ==> Items(key, k, xs, n).val[j] == ItemText(k, xs[j]).value
    decreases n
  {
    if n > 0 {
      ItemsEmitIff(key, k, xs, n - 1);
    }
  }

  /** A list is written exactly when it is empty, or its first element has a list type and
      every element fits that type; otherwise the level's output is the message. */
  lemma ListTextCases(key: string, xs: seq<GValue>)
    ensures xs == [] ==> ListText(key, xs) == Emit("list(str) { }")
    ensures xs != [] && KindOf(xs[0]).None? ==>
      ListText(key, xs) == Cut("Unsupported list element type: " + GoTypeName(xs[0]))
    ensures xs != [] && KindOf(xs[0]).Some? ==>
      (ListText(key, xs).Emit? <==> forall j :: 0 <= j < |xs| ==> ItemText(KindOf(xs[0]).value, xs[j]).Some?)
    ensures xs != [] && KindOf(xs[0]).Some? && ListText(key, xs).Cut? ==>
      ListText(key, xs) == Cut(MixedTypes(key, KindOf(xs[0]).value))
  {
    if xs != [] && KindOf(xs[0]).Some? {
      ItemsEmitIff(key, KindOf(xs[0]).value, xs, |xs|);
    }
  }

  /** An fl list takes integers beside floats and writes them in decimal. */
  lemma FlListTakesInts(key: string, l: string, i: int)
    ensures ListText(key, [GFloat(l), GInt(i)]) == Emit("list(fl) { " + l + ", " + Decimal(i) + " }")
  {
    var xs := [GFloat(l), GInt(i)];
    assert KindOf(xs[0]) == Some(LFl) && ItemText(LFl, xs[0]) == Some(l) && ItemText(LFl, xs[1]) == Some(Decimal(i));
    assert Items(key, LFl, xs, 0) == Emit([]);
    assert Items(key, LFl, xs, 1) == Emit([] + [l]);
    assert Items(key, LFl, xs, 2) == Emit([] + [l] + [Decimal(i)]);
    assert [] + [l] + [Decimal(i)] == [l, Decimal(i)];
    assert ListText(key, xs) == Emit("list(" + KindTag(LFl) + ") { " + Join([l, Decimal(i)], ", ") + " }");
    assert Join([l, Decimal(i)], ", ") == l + ", " + Decimal(i);
    assert "list(" + KindTag(LFl) + ") { " == "list(fl) { ";
    assert "list(fl) { " + (l + ", " + Decimal(i)) + " }" == "list(fl) { " + l + ", " + Decimal(i) + " }";
  }

  /** The level loop runs to its end exactly when no entry returns early. */
  lemma {:induction false} LevelLinesEmitIff(m: map<string, GValue>, o: Order, n: nat, ind: nat, level: nat)
    requires Fits(o, GMap(m)) && n <= |o.keys|
    ensures LevelLines(m, o, n, ind, level).Emit? <==>
      forall j :: 0 <= j < n ==> o.keys[j] in m && EntryLine(m, o, o.keys[j], ind, level).Emit?
    decreases n
  {
    if n > 0 {
      LevelLinesEmitIff(m, o, n - 1, ind, level);
    }
  }

  /** When it does, line j is the line of the j-th key in iteration order, so every key of
      the map has exactly one line. */
  lemma {:induction false} LevelLinesAreEntries(m: map<string, GValue>, o: Order, n: nat, ind: nat, level: nat)
    requires Fits(o, GMap(m)) && n <= |o.keys| && LevelLines(m, o, n, ind, level).Emit?
    ensures forall j :: 0 <= j < n ==>
      (o.keys[j] in m && EntryLine(m, o, o.keys[j], ind, level).Emit? &&
       LevelLines(m, o, n, ind, level).val[j] == EntryLine(m, o, o.keys[j], ind, level).val)
    decreases n
  {
    if n > 0 {
      LevelLinesAreEntries(m, o, n - 1, ind, level);
    }
  }

  /** The first entry that returns early decides the whole level: its message is all that
      serialize returns for that level, with no line of the other entries. */
  lemma FirstCutDecides(m: map<string, GValue>, o: Order, i: nat, ind: nat, level: nat)
    requires Fits(o, GMap(m)) && i < |o.keys|
    requires forall j :: 0 <= j < i ==> EntryLine(m, o, o.keys[j], ind, level).Emit?
    requires EntryLine(m, o, o.keys[i], ind, level).Cut?
    ensures LevelText(m, o, ind, level) == EntryLine(m, o, o.keys[i], ind, level).out
  {
    assert forall j :: 0 <= j < i ==> o.keys[j] in m;
    LevelLinesEmitIff(m, o, i, ind, level);
    assert LevelLines(m, o, i + 1, ind, level) == Cut(EntryLine(m, o, o.keys[i], ind, level).out);
    LevelLinesCutStays(m, o, i + 1, |o.keys|, ind, level);
  }

  /** An empty map at a nested level, whose only iteration order visits nothing, is an
      empty class block: the level is just its final line break. */
  lemma EmptyClassBlock(key: string, ind: nat, level: nat)
    ensures ValueText(GMap(map[]), Order([], map[]), key, ind, level) == Emit("class {\n\n" + Indent(ind, level) + "}")
  {
    var o := Order([], map[]);
    assert LevelLines(map[], o, 0, ind, level + 1) == Emit([]);
    assert LevelText(map[], o, ind, level + 1) == "\n";
    assert "class {\n" + "\n" + Indent(ind, level) + "}" == "class {\n\n" + Indent(ind, level) + "}";
  }

  // ---------------------------------------------------------------------------------
  // What Loads produces is always written in full
  // ---------------------------------------------------------------------------------

  /** No list anywhere in v makes serialize return early. */
  predicate Writable(v: GValue)
  {
    match v
    case GMap(m) => forall k :: k in m ==> Writable(m[k])
    case GList(xs) => xs == [] || (KindOf(xs[0]).Some? && forall j :: 0 <= j < |xs| ==> ItemText(KindOf(xs[0]).value, xs[j]).Some?)
    case _ => true
  }

  /** A writable map is written as its entry lines, one per key, and a line break. */
  lemma WritableLevel(m: map<string, GValue>, o: Order, ind: nat, level: nat)
    requires Writable(GMap(m)) && Fits(o, GMap(m))
    ensures LevelLines(m, o, |o.keys|, ind, level).Emit?
    ensures LevelText(m, o, ind, level) == Join(LevelLines(m, o, |o.keys|, ind, level).val, "\n") + "\n"
  {
    forall j | 0 <= j < |o.keys| ensures o.keys[j] in m && EntryLine(m, o, o.keys[j], ind, level).Emit? {
      var k := o.keys[j];
      assert k in m;
      match m[k]
      case GList(xs) => ListTextCases(k, xs);
      case _ =>
    }
    LevelLinesEmitIff(m, o, |o.keys|, ind, level);
  }

  /** Where a lookup finds a key: the entry that holds it. */
  lemma {:induction false} GetIndex(es: seq<(string, Value)>, k: string) returns (i: nat)
    requires Get(es, k).Some?
    ensures i < |es| && es[i].1 == Get(es, k).value
  {
    if es[0].0 == k {
      i := 0;
    } else {
      var j := GetIndex(es[1..], k);
      i := j + 1;
    }
  }

  /** A value whose lists hold scalars of one type becomes a writable Go value. */
  lemma {:induction false} FlatIsWritable(v: Value)
    requires FlatLists(v)
    ensures Writable(ToGo(v))
    decreases v
  {
    match v
    case Object(es) =>
      assert ToGo(v) == GMap(MapOf(es));
      forall k | k in MapOf(es) ensures Writable(MapOf(es)[k]) {
        MapOfLookup(es, k);
        var i := GetIndex(es, k);
        FlatIsWritable(es[i].1);
      }
    case List(xs) =>
      var ys := ListFrom(xs, 0);
      assert ToGo(v) == GList(ys);
      ListFromItems(xs, 0);
      if xs != [] {
        forall j | 0 <= j < |ys| ensures ItemText(KindOf(ys[0]).value, ys[j]).Some? {
          assert ys[j] == ToGo(xs[j - 0]) && ys[0] == ToGo(xs[0]);
          assert SameScalar(xs[j], xs[0]);
        }
      }
    case _ =>
  }

  /** Every map Loads returns is written as one line per key and a final line break, in any
      iteration order and with any indent: no message stands in for its lines. */
  lemma LoadedMapsAreWritten(text: string, o: Order, indent: int)
    requires GoLoads(text).Ok? && Fits(o, GMap(GoLoads(text).value))
    ensures var m := GoLoads(text).value; var ind := if indent <= 0 then 4 else indent;
      LevelLines(m, o, |o.keys|, ind, 0).Emit? &&
      Dumps(m, o, indent) == Join(LevelLines(m, o, |o.keys|, ind, 0).val, "\n") + "\n"
  {
    var ts := GoLex(text).value;
    GoLexShape(text);
    StrictParseFlat(ts);
    var es := Parse(Strict, ts).value;
    assert FlatLists(Object(es));
    FlatIsWritable(Object(es));
    WritableLevel(GoLoads(text).value, o, if indent <= 0 then 4 else indent, 0);
  }

  // ---------------------------------------------------------------------------------
  // Strings read back through the Go lexer
  // ---------------------------------------------------------------------------------

  /** At a quote the Go lexer reads a string: escaped after '"', raw after '\''. */
  lemma QuoteDispatch(text: string, q: nat)
    requires q < |text|
    ensures text[q] == '"' ==> GoDispatchAt(text, q) == PyStringAt(text, q)
    ensures text[q] == '\'' ==> GoDispatchAt(text, q) == PyMultilineAt(text, q)
  {
  }

  /** A one-line string is written quoted and escaped, and the Go lexer reads the quoted
      part back as a String token holding s. */
  lemma StrValueReadsBack(s: string, o: Order, key: string, ind: nat, level: nat)
    requires '\n' !in s
    ensures ValueText(GStr(s), o, key, ind, level) == Emit("str { " + "\"" + Escape(s) + "\"" + " }")
    ensures var text := "str { " + "\"" + Escape(s) + "\"" + " }";
      GoDispatchAt(text, 6) == Ok(Scan(TokenAt(text, 6, StringLit, Text(s)), |text| - 2))
  {
    var text := "str { " + "\"" + Escape(s) + "\"" + " }";
    PyEscapedStringReadsBack("str { ", s, " }");
    QuoteDispatch(text, 6);
    assert QuotedText("str", s) == text;
    assert text[6] == '"';
  }

  /** A string with a line break and no single quote is written in the ml form, which the
      Go lexer reads back as a MultilineString token holding the string. */
  lemma MlValueReadsBack(s: string, o: Order, key: string, ind: nat, level: nat)
    requires '\n' in s && '\'' !in s
    ensures ValueText(GStr(s), o, key, ind, level) == Emit(MlText(s, Indent(ind, level)))
    ensures var text := MlText(s, Indent(ind, level)); var p := 9 + ind * level;
      GoDispatchAt(text, p) == Ok(Scan(TokenAt(text, p, MultilineLit, Text(s)), p + |s| + 2))
  {
    var text := MlText(s, Indent(ind, level));
    PySerializerFacts.MlBlockReadsBack(Indent(ind, level), s);
    QuoteDispatch(text, 9 + ind * level);
  }
}
