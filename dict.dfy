/**
 * A JavaScript plain object with string keys, as the proxy uses for header
 * tables and request options: an ordered list of (key, value) entries.
 * Assigning to a present key replaces its value in place; assigning to a new
 * key appends it, so the key order is the order of first assignment.
 */
module Dict {
  import opened Js

  type Dict<V> = seq<(string, V)>

  function Keys<V>(d: Dict<V>): (r: seq<string>)
    ensures |r| == |d|
    ensures forall i :: 0 <= i < |d| ==> r[i] == d[i].0
  {
    if d == [] then [] else [d[0].0] + Keys(d[1..])
  }

  /** No key appears twice, as in every JavaScript object. */
  predicate Unique<V>(d: Dict<V>) {
    d == [] || (d[0].0 !in Keys(d[1..]) && Unique(d[1..]))
  }

  /** `obj[k]` for an own property `k`; `None` when `k` is not a key. */
  function Get<V>(d: Dict<V>, k: string): (r: Option<V>)
    ensures r.Some? <==> k in Keys(d)
  {
    if d == [] then None
    else if d[0].0 == k then Some(d[0].1)
    else Get(d[1..], k)
  }

  /** `obj[k] = v`. */
  function Put<V>(d: Dict<V>, k: string, v: V): (r: Dict<V>)
    ensures Get(r, k) == Some(v)
    ensures forall k' :: k' != k ==> Get(r, k') == Get(d, k')
    ensures k in Keys(d) ==> Keys(r) == Keys(d)
    ensures k !in Keys(d) ==> Keys(r) == Keys(d) + [k]
    ensures Unique(d) ==> Unique(r)
  {
    if d == [] then [(k, v)]
    else if d[0].0 == k then
      assert Keys(d) == [k] + Keys(d[1..]);
      [(k, v)] + d[1..]
    else
      var rest := Put(d[1..], k, v);
      assert Keys(d) == [d[0].0] + Keys(d[1..]);
      assert ([d[0]] + rest)[1..] == rest;
      [d[0]] + rest
  }

  /** `_.extend(d, e)`: assigns every entry of `e`, in order, onto `d`. */
  function Extend<V>(d: Dict<V>, e: Dict<V>): (r: Dict<V>)
    ensures Unique(d) ==> Unique(r)
    decreases |e|
  {
    if e == [] then d else Extend(Put(d, e[0].0, e[0].1), e[1..])
  }

  /**
   * After `_.extend(d, e)`, a key of `e` has its value from `e` and any other
   * key keeps its value from `d`; the keys are those of both.
   */
  lemma {:induction false} ExtendGet<V>(d: Dict<V>, e: Dict<V>, k: string)
    ensures k !in Keys(e) ==> Get(Extend(d, e), k) == Get(d, k)
    ensures Unique(e) && k in Keys(e) ==> Get(Extend(d, e), k) == Get(e, k)
    ensures k in Keys(Extend(d, e)) <==> k in Keys(d) || k in Keys(e)
    decreases |e|
  {
    if e != [] {
      assert Keys(e) == [e[0].0] + Keys(e[1..]);
      ExtendGet(Put(d, e[0].0, e[0].1), e[1..], k);
    }
  }
}
