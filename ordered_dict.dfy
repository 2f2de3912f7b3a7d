/** A Python dict with string keys: a list of entries in insertion order,
    each key at most once. */
module OrderedDict {
  import opened Wrappers
  import opened AssocList

  predicate DistinctKeys<V>(es: seq<Entry<V>>)
  {
    forall i, j :: 0 <= i < j < |es| ==> es[i].0 != es[j].0
  }

  function KeySet<V>(es: seq<Entry<V>>): set<string>
  {
    set i | 0 <= i < |es| :: es[i].0
  }

  /** `d[k] = v`: an existing key keeps its place and takes the new value; a
      new key is added after all the others. */
  function Assign<V>(es: seq<Entry<V>>, k: string, v: V): (r: seq<Entry<V>>)
    ensures (k, v) in r
    ensures forall e :: e in r ==> e == (k, v) || e in es
  {
    if |es| == 0 then [(k, v)]
    else if es[0].0 == k then [(k, v)] + es[1..]
    else [es[0]] + Assign(es[1..], k, v)
  }

  lemma {:induction false} LookupFound<V>(es: seq<Entry<V>>, k: string)
    ensures Lookup(es, k).Some? <==> k in KeySet(es)
  {
    if |es| > 0 {
      LookupFound(es[1..], k);
      KeySetCons(es);
    }
  }

  /** After `d[k] = v`, looking up `k` gives `v` and every other key is as it was. */
  lemma {:induction false} AssignLookup<V>(es: seq<Entry<V>>, k: string, v: V, k': string)
    ensures Lookup(Assign(es, k, v), k') == if k' == k then Some(v) else Lookup(es, k')
  {
    if |es| > 0 && es[0].0 != k {
      AssignLookup(es[1..], k, v, k');
      assert Assign(es, k, v)[1..] == Assign(es[1..], k, v);
    } else if |es| > 0 {
      assert Assign(es, k, v)[1..] == es[1..];
    }
  }

  /** Where `d[k] = v` puts things: in place for a key already present, at the
      end for a new one. */
  lemma {:induction false} AssignPositions<V>(es: seq<Entry<V>>, k: string, v: V)
    ensures Lookup(es, k).None? ==> Assign(es, k, v) == es + [(k, v)]
    ensures Lookup(es, k).Some? && DistinctKeys(es) ==>
      |Assign(es, k, v)| == |es| &&
      forall i :: 0 <= i < |es| ==> Assign(es, k, v)[i] == if es[i].0 == k then (k, v) else es[i]
  {
    if |es| > 0 && es[0].0 != k {
      AssignPositions(es[1..], k, v);
      if Lookup(es, k).None? {
        assert es == [es[0]] + es[1..];
      }
    }
  }

  /** The keys of a non-empty list: its first key and the keys of the rest. */
  lemma KeySetCons<V>(es: seq<Entry<V>>)
    requires |es| > 0
    ensures KeySet(es) == {es[0].0} + KeySet(es[1..])
  {
    forall x | x in KeySet(es) ensures x in {es[0].0} + KeySet(es[1..]) {
      var i :| 0 <= i < |es| && es[i].0 == x;
      if i > 0 { assert es[1..][i - 1].0 == x; }
    }
    forall x | x in KeySet(es[1..]) ensures x in KeySet(es) {
      var i :| 0 <= i < |es[1..]| && es[1..][i].0 == x;
      assert es[i + 1].0 == x;
    }
  }

  /** `d[k] = v` keeps every key at most once, and changes `len(d)` by one
      exactly when `k` was new. */
  lemma AssignSize<V>(es: seq<Entry<V>>, k: string, v: V)
    requires DistinctKeys(es)
    ensures DistinctKeys(Assign(es, k, v))
    ensures |Assign(es, k, v)| == if Lookup(es, k).Some? then |es| else |es| + 1
  {
    AssignPositions(es, k, v);
    LookupFound(es, k);
    var a := Assign(es, k, v);
    if Lookup(es, k).None? {
      assert k !in KeySet(es);
      forall i, j | 0 <= i < j < |a| ensures a[i].0 != a[j].0 {
        if j == |es| { assert es[i].0 in KeySet(es); }
      }
    }
  }

  /** With distinct keys, `len(d)` is the number of keys. */
  lemma {:induction false} SizeIsKeyCount<V>(es: seq<Entry<V>>)
    requires DistinctKeys(es)
    ensures |KeySet(es)| == |es|
  {
    if |es| > 0 {
      var rest := es[1..];
      SizeIsKeyCount(rest);
      KeySetCons(es);
      assert es[0].0 !in KeySet(rest);
    }
  }
}
