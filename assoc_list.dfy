/** Lists of (key, value) entries, searched from the front: the shape shared
    by the model of a Python dict and of a std::map. */
module AssocList {
  import opened Wrappers

  type Entry<V> = (string, V)

  /** The value of the first entry for `k`, or None when no entry has that key:
      `d.get(k)` on a dict, `m.find(k)` on a std::map. */
  function Lookup<V>(es: seq<Entry<V>>, k: string): (r: Option<V>)
    ensures r.None? <==> forall i :: 0 <= i < |es| ==> es[i].0 != k
    ensures r.Some? ==> exists i :: 0 <= i < |es| && es[i] == (k, r.value)
  {
    if |es| == 0 then None
    else if es[0].0 == k then Some(es[0].1)
    else
      var rest := Lookup(es[1..], k);
      assert forall i :: 1 <= i < |es| ==> es[i] == es[1..][i - 1];
      rest
  }
}
