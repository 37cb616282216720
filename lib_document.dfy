/** SCLDocument of the reference library: the parsed data together with the comments that
    the comment-preserving parser attaches to keys, and an optional header comment. The
    three dictionaries are insertion-ordered, as Python dicts are. */
module LibDocument {
  import opened Wrappers
  import opened Values

  /** Python's truth test on an optional comment: None and "" are false. */
  predicate Truthy(c: Option<string>) { c.Some? && c.value != "" }

  class Document {
    var data: seq<(string, Value)>
    var comments: seq<(string, string)>
    var inlineComments: seq<(string, string)>
    var header: Option<string>

    /** Each dictionary holds a key at most once. */
    ghost predicate Valid()
      reads this
    {
      DistinctKeys(data) && DistinctKeys(comments) && DistinctKeys(inlineComments)
    }

    /** Every commented key is a data key. set, delete and the parser keep this; setComment
        and setInlineComment do not. */
    ghost predicate CommentsAttached()
      reads this
    {
      (forall k :: k in Keys(comments) ==> k in Keys(data)) &&
      (forall k :: k in Keys(inlineComments) ==> k in Keys(data))
    }

    constructor ()
      ensures Valid() && CommentsAttached()
      ensures data == [] && comments == [] && inlineComments == [] && header.None?
    {
      data := [];
      comments := [];
      inlineComments := [];
      header := None;
    }

    /** get(key, default) */
    function Get(key: string, default: Value): (v: Value)
      reads this
      ensures Values.Get(data, key).Some? ==> v == Values.Get(data, key).value
      ensures key !in Keys(data) ==> v == default
    {
      GetPresent(data, key);
      match Values.Get(data, key)
      case Some(x) => x
      case None => default
    }

    /** set(key, value, comment, inlineComment): the value always, each comment only when
        it is truthy. */
    method Set(key: string, value: Value, comment: Option<string>, inlineComment: Option<string>)
      requires Valid()
      modifies this
      ensures Valid()
      ensures data == Put(old(data), key, value)
      ensures comments == if Truthy(comment) then Put(old(comments), key, comment.value) else old(comments)
      ensures inlineComments == if Truthy(inlineComment) then Put(old(inlineComments), key, inlineComment.value) else old(inlineComments)
      ensures header == old(header)
      ensures old(CommentsAttached()) ==> CommentsAttached()
    {
      PutDistinct(data, key, value);
      PutKeys(data, key, value);
      data := Put(data, key, value);
      if comment.Some? && comment.value != "" {
        PutDistinct(comments, key, comment.value);
        PutKeys(comments, key, comment.value);
        comments := Put(comments, key, comment.value);
      }
      if inlineComment.Some? && inlineComment.value != "" {
        PutDistinct(inlineComments, key, inlineComment.value);
        PutKeys(inlineComments, key, inlineComment.value);
        inlineComments := Put(inlineComments, key, inlineComment.value);
      }
    }

    /** delete(key): the key leaves all three dictionaries; an absent key changes nothing. */
    method Delete(key: string)
      requires Valid()
      modifies this
      ensures Valid()
      ensures data == Remove(old(data), key)
      ensures comments == Remove(old(comments), key)
      ensures inlineComments == Remove(old(inlineComments), key)
      ensures header == old(header)
      ensures old(CommentsAttached()) ==> CommentsAttached()
    {
      RemoveGet(data, key, key);
      RemoveGet(comments, key, key);
      RemoveGet(inlineComments, key, key);
      RemoveKeysSubset(comments, key);
      RemoveKeysSubset(inlineComments, key);
      ghost var attached := CommentsAttached();
      ghost var oldData := data;
      data := Remove(data, key);
      comments := Remove(comments, key);
      inlineComments := Remove(inlineComments, key);
      if attached {
        forall k | k in Keys(comments) ensures k in Keys(data) {
          RemoveDropsKey(old(comments), key, k);
          RemoveKeepsOthers(oldData, key, k);
        }
        forall k | k in Keys(inlineComments) ensures k in Keys(data) {
          RemoveDropsKey(old(inlineComments), key, k);
          RemoveKeepsOthers(oldData, key, k);
        }
      }
    }

    /** has(key), `key in doc`: only the data counts. */
    function Has(key: string): (b: bool)
      reads this
      ensures b <==> Values.Get(data, key).Some?
    {
      GetPresent(data, key);
      key in Keys(data)
    }

    /** keys(): the data keys in insertion order. */
    function KeyList(): (ks: seq<string>)
      reads this
      ensures |ks| == |data| && forall i :: 0 <= i < |data| ==> ks[i] == data[i].0
    {
      Keys(data)
    }

    /** len(doc) */
    function Len(): (n: nat)
      reads this
      ensures n == |KeyList()|
    {
      |data|
    }

    /** getComment(key): the comment before the key, None when it has none. */
    function GetComment(key: string): (c: Option<string>)
      reads this
      ensures c.Some? <==> key in Keys(comments)
    {
      GetPresent(comments, key);
      Values.Get(comments, key)
    }

    /** getInlineComment(key): the comment after the key's value, None when it has none. */
    function GetInlineComment(key: string): (c: Option<string>)
      reads this
      ensures c.Some? <==> key in Keys(inlineComments)
    {
      GetPresent(inlineComments, key);
      Values.Get(inlineComments, key)
    }

    /** setComment(key, comment): attaches even to a key that has no data. */
    method SetComment(key: string, comment: string)
      requires Valid()
      modifies this
      ensures Valid()
      ensures comments == Put(old(comments), key, comment)
      ensures data == old(data) && inlineComments == old(inlineComments) && header == old(header)
      ensures GetComment(key) == Some(comment)
    {
      PutDistinct(comments, key, comment);
      PutGet(comments, key, comment, key);
      comments := Put(comments, key, comment);
    }

    method SetInlineComment(key: string, comment: string)
      requires Valid()
      modifies this
      ensures Valid()
      ensures inlineComments == Put(old(inlineComments), key, comment)
      ensures data == old(data) && comments == old(comments) && header == old(header)
      ensures GetInlineComment(key) == Some(comment)
    {
      PutDistinct(inlineComments, key, comment);
      PutGet(inlineComments, key, comment, key);
      inlineComments := Put(inlineComments, key, comment);
    }

    method SetHeaderComment(comment: string)
      modifies this
      ensures header == Some(comment)
      ensures data == old(data) && comments == old(comments) && inlineComments == old(inlineComments)
    {
      header := Some(comment);
    }

    /** getHeaderComment(): the header as last set, None on a document never given one. */
    function GetHeaderComment(): (h: Option<string>)
      reads this
      ensures h == header
    {
      header
    }

    /** toDict(): a copy of the data; the copy is a value and later changes to the
        document do not reach it. */
    function ToDict(): (d: seq<(string, Value)>)
      reads this
      requires Valid()
      ensures DistinctKeys(d) && Keys(d) == KeyList()
    {
      data
    }

    /** doc[key]: a missing key is a KeyError. */
    function GetItem(key: string): (r: Result<Value>)
      reads this
      ensures r.Ok? <==> Has(key)
      ensures r.Ok? ==> Values.Get(data, key) == Some(r.value)
    {
      match Values.Get(data, key)
      case Some(v) => Ok(v)
      case None => Err(Fault("KeyError"))
    }

    /** doc[key] = value: the data only; the comment dictionaries are untouched. */
    method SetItem(key: string, value: Value)
      requires Valid()
      modifies this
      ensures Valid()
      ensures data == Put(old(data), key, value)
      ensures comments == old(comments) && inlineComments == old(inlineComments) && header == old(header)
      ensures old(CommentsAttached()) ==> CommentsAttached()
    {
      PutDistinct(data, key, value);
      PutKeys(data, key, value);
      data := Put(data, key, value);
    }

    /** del doc[key] */
    method DelItem(key: string)
      requires Valid()
      modifies this
      ensures Valid()
      ensures data == Remove(old(data), key)
      ensures comments == Remove(old(comments), key)
      ensures inlineComments == Remove(old(inlineComments), key)
      ensures header == old(header)
    {
      Delete(key);
    }
  }

  /** SCLDocument.fromDict(data): a copy of the mapping, no comments, no header. */
  method FromDict(d: seq<(string, Value)>) returns (doc: Document)
    requires DistinctKeys(d)
    ensures fresh(doc) && doc.Valid() && doc.CommentsAttached()
    ensures doc.data == d && doc.comments == [] && doc.inlineComments == [] && doc.header.None?
  {
    doc := new Document();
    doc.data := d;
  }

  /** A key that is not k survives removing k. */
  lemma {:induction false} RemoveKeepsOthers<V>(es: seq<(string, V)>, k: string, x: string)
    requires x in Keys(es) && x != k
    ensures x in Keys(Remove(es, k))
  {
    assert Keys(es) == [es[0].0] + Keys(es[1..]);
    if es[0].0 != k {
      assert Keys(Remove(es, k)) == [es[0].0] + Keys(Remove(es[1..], k));
      if es[0].0 != x {
        RemoveKeepsOthers(es[1..], k, x);
      }
    }
  }

  /** A key present after removing k was present before and is not k. */
  lemma RemoveDropsKey<V>(es: seq<(string, V)>, k: string, x: string)
    requires DistinctKeys(es) && x in Keys(Remove(es, k))
    ensures x in Keys(es) && x != k
  {
    RemoveKeysSubset(es, k);
    RemoveGet(es, k, x);
    GetPresent(Remove(es, k), x);
  }

  /** Setting a key and deleting it again removes it and leaves every other key as it was. */
  lemma SetThenDelete(d: seq<(string, Value)>, key: string, v: Value)
    requires DistinctKeys(d)
    ensures Get(Remove(Put(d, key, v), key), key).None?
    ensures forall k :: k != key ==> Get(Remove(Put(d, key, v), key), k) == Get(d, k)
  {
    PutDistinct(d, key, v);
    forall k | k != key ensures Get(Remove(Put(d, key, v), key), k) == Get(d, k) {
      RemoveGet(Put(d, key, v), key, k);
      PutGet(d, key, v, k);
    }
    RemoveGet(Put(d, key, v), key, key);
  }
}
