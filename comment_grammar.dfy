/** What the comment-preserving parser of the reference library builds from a token stream
    that still holds its comments (newlines removed): the data, the comment written before
    each parameter, the comment right after each parameter's value, and the header made of
    the comments that open the stream. */
module CommentGrammar {
  import opened Wrappers
  import opened Text
  import opened Tokens
  import opened Values
  import opened Grammar
  import opened LibDocument

  /** The three dictionaries of a document under construction. */
  datatype DocState = DocState(data: seq<(string, Value)>, comments: seq<(string, string)>, inline: seq<(string, string)>)

  /** A finished document: its dictionaries and its header comment. */
  datatype Doc = Doc(state: DocState, header: Option<string>)

  /** Keys are unique in each dictionary, every value is well formed, and every commented
      key is a data key. */
  predicate Consistent(st: DocState)
  {
    DistinctKeys(st.data) && AllWellFormed(st.data) && DistinctKeys(st.comments) && DistinctKeys(st.inline) &&
    (forall k :: k in Keys(st.comments) ==> k in Keys(st.data)) &&
    (forall k :: k in Keys(st.inline) ==> k in Keys(st.data))
  }

  /** The run of comments starting at p, their texts appended to acc: where the run ends
      (the first token that is not a comment) and the texts collected. */
  function CommentRun(ts: seq<Token>, p: nat, acc: seq<string>): (r: (nat, seq<string>))
    requires EndsWithEof(ts) && p < |ts|
    ensures p <= r.0 < |ts| && ts[r.0].kind != Comment
    ensures forall i :: p <= i < r.0 ==> ts[i].kind == Comment
    ensures |r.1| == |acc| + (r.0 - p) && r.1[..|acc|] == acc
    ensures forall i :: p <= i < r.0 ==> r.1[|acc| + (i - p)] == TextOf(ts[i])
    decreases |ts| - p
  {
    if ts[p].kind == Comment then CommentRun(ts, p + 1, acc + [TextOf(ts[p])]) else (p, acc)
  }

  /** The comments before a parameter, joined with single spaces; None when there are none. */
  function PreComment(pre: seq<string>): (c: Option<string>)
    ensures c.Some? <==> |pre| > 0
  {
    if |pre| == 0 then None else Some(Join(pre, " "))
  }

  /** The entries from p to EOF added to st. Each entry is the comment run before it, the
      parameter, and an optional comment right after the value. Comments just before EOF
      belong to no parameter and are dropped. */
  function Entries(ts: seq<Token>, p: nat, st: DocState): (r: Result<DocState>)
    requires EndsWithEof(ts) && p < |ts| && Consistent(st)
    ensures r.Ok? ==> Consistent(r.value)
    ensures r.Ok? ==> forall k :: k in Keys(st.data) ==> k in Keys(r.value.data)
    decreases |ts| - p, 0
  {
    var run := CommentRun(ts, p, []);
    var q := run.0;
    if ts[q].kind == Eof then Ok(st)
    else
      var e :- Param(LibComments, ts, q);
      AfterValue(ts, e.next, AddEntry(st, e.val.0, e.val.1, PreComment(run.1)), e.val.0)
  }

  /** After the value of the parameter name: a comment right there is its inline comment;
      the entries go on after it. */
  function AfterValue(ts: seq<Token>, n: nat, st: DocState, name: string): (r: Result<DocState>)
    requires EndsWithEof(ts) && n < |ts| && Consistent(st) && name in Keys(st.data)
    ensures r.Ok? ==> Consistent(r.value)
    ensures r.Ok? ==> forall k :: k in Keys(st.data) ==> k in Keys(r.value.data)
    decreases |ts| - n, 1
  {
    if ts[n].kind == Comment then Entries(ts, n + 1, AddInline(st, name, TextOf(ts[n])))
    else Entries(ts, n, st)
  }

  /** doc.data[name] = value, then doc.comments[name] = commentBefore when it is truthy. */
  function AddEntry(st: DocState, name: string, v: Value, before: Option<string>): (r: DocState)
    requires Consistent(st) && WellFormed(v)
    ensures Consistent(r) && name in Keys(r.data)
    ensures forall k :: k in Keys(st.data) ==> k in Keys(r.data)
    ensures Get(r.data, name) == Some(v)
    ensures Truthy(before) ==> Get(r.comments, name) == before
    ensures !Truthy(before) ==> r.comments == st.comments
    ensures r.inline == st.inline
  {
    PutKeepsWellFormed(st.data, name, v);
    PutKeys(st.data, name, v);
    PutGet(st.data, name, v, name);
    GetPresent(Put(st.data, name, v), name);
    if Truthy(before) then
      PutDistinct(st.comments, name, before.value);
      PutKeys(st.comments, name, before.value);
      PutGet(st.comments, name, before.value, name);
      DocState(Put(st.data, name, v), Put(st.comments, name, before.value), st.inline)
    else DocState(Put(st.data, name, v), st.comments, st.inline)
  }

  /** doc.inlineComments[name] = text, for a name that already has data. */
  function AddInline(st: DocState, name: string, text: string): (r: DocState)
    requires Consistent(st) && name in Keys(st.data)
    ensures Consistent(r) && r.data == st.data && r.comments == st.comments
    ensures Get(r.inline, name) == Some(text)
  {
    PutDistinct(st.inline, name, text);
    PutKeys(st.inline, name, text);
    PutGet(st.inline, name, text, name);
    st.(inline := Put(st.inline, name, text))
  }

  /** parseWithComments(): the header from the comments that open the stream, joined with
      single spaces, then the entries. */
  function DocumentOf(ts: seq<Token>): (r: Result<Doc>)
    requires EndsWithEof(ts)
    ensures r.Ok? ==> Consistent(r.value.state)
    ensures r.Ok? ==> (r.value.header.Some? <==> ts[0].kind == Comment)
  {
    var run := CommentRun(ts, 0, []);
    var st :- Entries(ts, run.0, DocState([], [], []));
    Ok(Doc(st, PreComment(run.1)))
  }

  /** After a value, a comment is taken as the inline comment of that value's key and
      the entries go on after it; any other token starts the next entries. */
  lemma AfterValueStep(ts: seq<Token>, n: nat, st: DocState, name: string, tok: Token)
    requires EndsWithEof(ts) && n < |ts| && Consistent(st) && name in Keys(st.data) && tok == ts[n]
    ensures tok.kind == Comment ==>
      n + 1 < |ts| && AfterValue(ts, n, st, name) == Entries(ts, n + 1, AddInline(st, name, TextOf(tok)))
    ensures tok.kind != Comment ==> AfterValue(ts, n, st, name) == Entries(ts, n, st)
  {
  }

  /** Entries stop where the comment run before them reaches EOF. */
  lemma EntriesAtEof(ts: seq<Token>, p: nat, st: DocState)
    requires EndsWithEof(ts) && p < |ts| && Consistent(st)
    requires ts[CommentRun(ts, p, []).0].kind == Eof
    ensures Entries(ts, p, st) == Ok(st)
  {
  }

  /** Entries fail with the error of a malformed parameter after the comment run. */
  lemma EntriesParamFails(ts: seq<Token>, p: nat, st: DocState)
    requires EndsWithEof(ts) && p < |ts| && Consistent(st)
    requires ts[CommentRun(ts, p, []).0].kind != Eof
    requires Param(LibComments, ts, CommentRun(ts, p, []).0).Err?
    ensures Entries(ts, p, st) == Err(Param(LibComments, ts, CommentRun(ts, p, []).0).error)
  {
  }

  /** One entry: the parameter is added with its pre-comment and the entries go on after
      its value. */
  lemma EntriesStep(ts: seq<Token>, p: nat, st: DocState, name: string, v: Value, n: nat)
    requires EndsWithEof(ts) && p < |ts| && Consistent(st)
    requires ts[CommentRun(ts, p, []).0].kind != Eof
    requires Param(LibComments, ts, CommentRun(ts, p, []).0) == Ok(Parsed((name, v), n))
    ensures p < n < |ts| && WellFormed(v)
    ensures Entries(ts, p, st) == AfterValue(ts, n, AddEntry(st, name, v, PreComment(CommentRun(ts, p, []).1)), name)
  {
  }

  /** The result of a plain parse seen as a document state with the given comments. */
  function WithData(r: Result<seq<(string, Value)>>, st: DocState): Result<DocState>
  {
    match r
    case Ok(data) => Ok(DocState(data, st.comments, st.inline))
    case Err(e) => Err(e)
  }

  /** Where no comment follows, collecting entries is the plain parse of the parameters:
      the same data, the same error, and no comment attached. */
  lemma {:induction false} EntriesWithoutComments(ts: seq<Token>, p: nat, st: DocState)
    requires EndsWithEof(ts) && p < |ts| && Consistent(st)
    requires forall i :: p <= i < |ts| ==> ts[i].kind != Comment
    ensures Entries(ts, p, st) == WithData(Config(LibComments, ts, p, st.data), st)
    decreases |ts| - p
  {
    if ts[p].kind != Eof {
      var e := Param(LibComments, ts, p);
      if e.Ok? {
        var n := e.value.next;
        var st' := AddEntry(st, e.value.val.0, e.value.val.1, None);
        EntriesWithoutComments(ts, n, st');
        PutKeepsWellFormed(st.data, e.value.val.0, e.value.val.1);
      }
    }
  }

  /** A stream without comments gives a document with the plain parse's data, no comments
      and no header. */
  lemma DocumentWithoutComments(ts: seq<Token>)
    requires EndsWithEof(ts) && forall i :: 0 <= i < |ts| ==> ts[i].kind != Comment
    ensures Config(LibComments, ts, 0, []).Ok? <==> DocumentOf(ts).Ok?
    ensures DocumentOf(ts).Ok? ==>
      DocumentOf(ts).value == Doc(DocState(Config(LibComments, ts, 0, []).value, [], []), None)
  {
    EntriesWithoutComments(ts, 0, DocState([], [], []));
  }

  /** Every comment run of the header is in the header, in order, space-separated. */
  lemma HeaderJoinsLeadingComments(ts: seq<Token>, n: nat)
    requires EndsWithEof(ts) && 0 < n < |ts|
    requires forall i :: 0 <= i < n ==> ts[i].kind == Comment
    requires ts[n].kind != Comment
    requires DocumentOf(ts).Ok?
    ensures DocumentOf(ts).value.header == Some(Join(seq(n, i requires 0 <= i < n => TextOf(ts[i])), " "))
  {
    var run := CommentRun(ts, 0, []);
    assert run.0 == n;
    assert run.1 == seq(n, i requires 0 <= i < n => TextOf(ts[i]));
  }
}
