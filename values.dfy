/** The values of a configuration as the Python, Ruby and reference implementations hold
    them, and the insertion-ordered dictionaries they live in. */
module Values {
  import opened Wrappers

  /** A value. Objects are insertion-ordered dictionaries (Python dict, Ruby Hash); floats
      keep the text they were read from. Other stands for a host value of a type the
      language has no tag for (None, a tuple, a set), which only reaches a serializer. */
  datatype Value =
    | Bool(b: bool)
    | Int(i: int)
    | Float(lexeme: string)
    | Str(s: string)
    | Object(entries: seq<(string, Value)>)
    | List(items: seq<Value>)
    | Other(typeName: string)

  predicate IsScalar(v: Value) { v.Bool? || v.Int? || v.Float? || v.Str? }

  function Keys<V>(es: seq<(string, V)>): (ks: seq<string>)
    ensures |ks| == |es| && forall i :: 0 <= i < |es| ==> ks[i] == es[i].0
  {
    if es == [] then [] else [es[0].0] + Keys(es[1..])
  }

  predicate DistinctKeys<V>(es: seq<(string, V)>)
  {
    forall i, j :: 0 <= i < j < |es| ==> es[i].0 != es[j].0
  }

  /** d.get(k) */
  function Get<V>(es: seq<(string, V)>, k: string): Option<V>
  {
    if es == [] then None else if es[0].0 == k then Some(es[0].1) else Get(es[1..], k)
  }

  /** d[k] = v: an existing key keeps its place and takes the new value; a new key goes last. */
  function Put<V>(es: seq<(string, V)>, k: string, v: V): seq<(string, V)>
  {
    if es == [] then [(k, v)]
    else if es[0].0 == k then [(k, v)] + es[1..]
    else [es[0]] + Put(es[1..], k, v)
  }

  /** del d[k] when k is present; the other entries keep their order. */
  function Remove<V>(es: seq<(string, V)>, k: string): seq<(string, V)>
  {
    if es == [] then [] else if es[0].0 == k then es[1..] else [es[0]] + Remove(es[1..], k)
  }

  lemma {:induction false} GetPresent<V>(es: seq<(string, V)>, k: string)
    ensures Get(es, k).Some? <==> k in Keys(es)
  {
    if es != [] {
      GetPresent(es[1..], k);
      assert Keys(es) == [es[0].0] + Keys(es[1..]);
    }
  }

  /** After d[k] = v, looking up k gives v and every other key is unaffected. */
  lemma {:induction false} PutGet<V>(es: seq<(string, V)>, k: string, v: V, k': string)
    ensures Get(Put(es, k, v), k) == Some(v)
    ensures k' != k ==> Get(Put(es, k, v), k') == Get(es, k')
  {
    if es != [] && es[0].0 != k {
      PutGet(es[1..], k, v, k');
    }
  }

  /** d[k] = v keeps the key order; a new key is appended. */
  lemma {:induction false} PutKeys<V>(es: seq<(string, V)>, k: string, v: V)
    ensures Keys(Put(es, k, v)) == if k in Keys(es) then Keys(es) else Keys(es) + [k]
  {
    if es != [] {
      assert Keys(es) == [es[0].0] + Keys(es[1..]);
      if es[0].0 != k {
        PutKeys(es[1..], k, v);
        assert Keys(Put(es, k, v)) == [es[0].0] + Keys(Put(es[1..], k, v));
      } else {
        assert Keys(Put(es, k, v)) == [k] + Keys(es[1..]);
      }
    }
  }

  /** A dictionary never holds a key twice. */
  lemma PutDistinct<V>(es: seq<(string, V)>, k: string, v: V)
    requires DistinctKeys(es)
    ensures DistinctKeys(Put(es, k, v))
  {
    PutKeys(es, k, v);
    var r := Put(es, k, v);
    assert Keys(r) == if k in Keys(es) then Keys(es) else Keys(es) + [k];
    forall i, j | 0 <= i < j < |r| ensures r[i].0 != r[j].0 {
      assert Keys(r)[i] == r[i].0 && Keys(r)[j] == r[j].0;
    }
  }

  /** After del d[k] the key is gone, the other keys keep their order and their values. */
  lemma {:induction false} RemoveGet<V>(es: seq<(string, V)>, k: string, k': string)
    requires DistinctKeys(es)
    ensures DistinctKeys(Remove(es, k))
    ensures Get(Remove(es, k), k).None?
    ensures k' != k ==> Get(Remove(es, k), k') == Get(es, k')
  {
    if es != [] {
      if es[0].0 == k {
        GetPresent(es[1..], k);
        assert k !in Keys(es[1..]);
      } else {
        RemoveGet(es[1..], k, k');
        RemoveKeysSubset(es[1..], k);
        var r := Remove(es, k);
        forall i, j | 0 <= i < j < |r| ensures r[i].0 != r[j].0 {
          if i == 0 {
            assert r[j] == Remove(es[1..], k)[j - 1];
            assert r[j].0 in Keys(Remove(es[1..], k));
          }
        }
      }
    }
  }

  lemma {:induction false} RemoveKeysSubset<V>(es: seq<(string, V)>, k: string)
    ensures forall x :: x in Keys(Remove(es, k)) ==> x in Keys(es)
    ensures |Remove(es, k)| <= |es|
  {
    if es != [] && es[0].0 != k {
      RemoveKeysSubset(es[1..], k);
      assert Keys(Remove(es, k)) == [es[0].0] + Keys(Remove(es[1..], k));
      assert Keys(es) == [es[0].0] + Keys(es[1..]);
    }
  }
}
