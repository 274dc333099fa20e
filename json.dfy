/** Decoded JSON values, and the dictionary operations the pipeline applies to
    JSON objects.

    An object is an association list in insertion order, which is how a Python
    dictionary behaves: `d.get(k)` finds the entry for `k`, and `d[k] = v`
    replaces that entry where it stands or, for a new key, appends one. */
module JsonValue {
  import opened Wrappers

  /** A numeric value is kept as its literal text: the pipeline never
      computes with numbers, it only carries them along. */
  datatype Json =
    | JNull
    | JBool(b: bool)
    | JNum(literal: string)
    | JStr(s: string)
    | JArr(items: seq<Json>)
    | JObj(fields: Fields)

  type Fields = seq<(string, Json)>

  /** The keys of an object, in insertion order. */
  function Keys(f: Fields): seq<string> {
    if f == [] then [] else [f[0].0] + Keys(f[1..])
  }

  lemma {:induction false} KeysAt(f: Fields)
    ensures |Keys(f)| == |f|
    ensures forall i :: 0 <= i < |f| ==> Keys(f)[i] == f[i].0
  {
    if f != [] {
      KeysAt(f[1..]);
    }
  }

  /** Every key occurs once, as in every dictionary that a JSON decoder builds. */
  predicate UniqueKeys(f: Fields) {
    forall i, j :: 0 <= i < j < |f| ==> f[i].0 != f[j].0
  }

  /** `d.get(k)`: the value stored under `k`, if any. */
  function Get(f: Fields, k: string): (r: Option<Json>)
    ensures r.Some? <==> k in Keys(f)
  {
    if f == [] then None
    else if f[0].0 == k then Some(f[0].1)
    else Get(f[1..], k)
  }

  predicate HasKey(f: Fields, k: string) {
    Get(f, k).Some?
  }

  /** `d[k] = v`: overwrite the entry for `k` in place, or append a new one. */
  function Set(f: Fields, k: string, v: Json): (r: Fields)
  {
    if f == [] then [(k, v)]
    else if f[0].0 == k then [(k, v)] + f[1..]
    else [f[0]] + Set(f[1..], k, v)
  }

  /** After `d[k] = v`, reading `k` gives `v`. */
  lemma {:induction false} GetSetSame(f: Fields, k: string, v: Json)
    ensures Get(Set(f, k, v), k) == Some(v)
  {
    if f != [] && f[0].0 != k {
      GetSetSame(f[1..], k, v);
    }
  }

  /** After `d[k] = v`, every other key reads as before. */
  lemma {:induction false} GetSetOther(f: Fields, k: string, v: Json, k': string)
    requires k' != k
    ensures Get(Set(f, k, v), k') == Get(f, k')
  {
    if f != [] && f[0].0 != k {
      GetSetOther(f[1..], k, v, k');
    }
  }

  /** `d[k] = v` keeps the key order of `d`, and a new key goes last. */
  lemma {:induction false} KeysSet(f: Fields, k: string, v: Json)
    ensures Keys(Set(f, k, v)) == if k in Keys(f) then Keys(f) else Keys(f) + [k]
  {
    if f != [] && f[0].0 != k {
      KeysSet(f[1..], k, v);
      assert Keys(f) == [f[0].0] + Keys(f[1..]);
    }
  }

  /** `d[k] = v` keeps a dictionary's keys unique. */
  lemma SetKeepsUniqueKeys(f: Fields, k: string, v: Json)
    requires UniqueKeys(f)
    ensures UniqueKeys(Set(f, k, v))
  {
    var r := Set(f, k, v);
    KeysSet(f, k, v);
    KeysAt(f);
    KeysAt(r);
    forall i, j | 0 <= i < j < |r| ensures r[i].0 != r[j].0 {
      assert Keys(r)[i] == r[i].0 && Keys(r)[j] == r[j].0;
      if j < |f| {
        assert Keys(f)[i] == f[i].0 && Keys(f)[j] == f[j].0;
      } else {
        assert k !in Keys(f) && Keys(r)[i] == Keys(f)[i];
      }
    }
  }
}
