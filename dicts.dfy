// A Python `dict` with string keys as the planners use it: keys in insertion order,
// `d[k] = v` keeping a present key in its place and replacing its value, `d.values()`.
module Dicts {

  datatype Dict<V> = Dict(order: seq<string>, entries: map<string, V>)
  {
    /** Every key is listed once, and the listed keys are the mapped ones. */
    ghost predicate Valid()
    {
      && (forall i, j :: 0 <= i < j < |order| ==> order[i] != order[j])
      && (forall k :: k in entries <==> k in order)
    }
  }

  function Empty<V>(): (d: Dict<V>)
    ensures d.Valid()
  {
    Dict([], map[])
  }

  /** `d[k] = v`. */
  function Put<V>(d: Dict<V>, k: string, v: V): (r: Dict<V>)
    requires d.Valid()
    ensures r.Valid()
    ensures r.entries == d.entries[k := v]
    ensures k in d.entries ==> r.order == d.order
    ensures k !in d.entries ==> r.order == d.order + [k]
  {
    if k in d.entries then Dict(d.order, d.entries[k := v]) else Dict(d.order + [k], d.entries[k := v])
  }

  /** `list(d.values())`: the values in the order of their keys. */
  function Values<V>(d: Dict<V>): (vs: seq<V>)
    requires d.Valid()
    ensures |vs| == |d.order|
    ensures forall i :: 0 <= i < |d.order| ==> vs[i] == d.entries[d.order[i]]
  {
    seq(|d.order|, i requires 0 <= i < |d.order| => d.entries[d.order[i]])
  }

  /** Adding a new key appends its value; overwriting a key with the value it already
      has changes nothing. */
  lemma PutValues<V>(d: Dict<V>, k: string, v: V)
    requires d.Valid()
    ensures k !in d.entries ==> Values(Put(d, k, v)) == Values(d) + [v]
    ensures k in d.entries && d.entries[k] == v ==> Put(d, k, v) == d
  {
    if k in d.entries && d.entries[k] == v {
      assert d.entries[k := v] == d.entries;
    }
  }
}
