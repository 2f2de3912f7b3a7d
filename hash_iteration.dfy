/** Iteration over a hash map (java.util.HashMap, std::unordered_map): every
    entry is visited exactly once, in an order the model leaves open. */
module HashIteration {

  /** `ks` lists every element of `keys` exactly once. */
  predicate IsEnumeration<K>(ks: seq<K>, keys: set<K>)
  {
    && (forall i, j :: 0 <= i < j < |ks| ==> ks[i] != ks[j])
    && (forall i :: 0 <= i < |ks| ==> ks[i] in keys)
    && (forall k :: k in keys ==> k in ks)
  }

  /** The entries of `m` in the order `ks`. */
  function PairsOf<K, V>(m: map<K, V>, ks: seq<K>): seq<(K, V)>
    requires forall i :: 0 <= i < |ks| ==> ks[i] in m
  {
    seq(|ks|, i requires 0 <= i < |ks| => (ks[i], m[ks[i]]))
  }

  /** The order in which an iterator over `m` visits its keys: any order at all. */
  method IterationOrder<K, V>(m: map<K, V>) returns (ks: seq<K>)
    ensures IsEnumeration(ks, m.Keys)
  {
    ks := [];
    var remaining := m.Keys;
    while remaining != {}
      invariant remaining <= m.Keys
      invariant forall k :: k in ks ==> k !in remaining
      invariant IsEnumeration(ks, m.Keys - remaining)
      decreases |remaining|
    {
      var k :| k in remaining;
      ks := ks + [k];
      remaining := remaining - {k};
    }
  }

  /** An enumeration is exactly as long as the set it enumerates. */
  lemma {:induction false} EnumerationSize<K>(ks: seq<K>, keys: set<K>)
    requires IsEnumeration(ks, keys)
    ensures |ks| == |keys|
  {
    if |ks| > 0 {
      var last := ks[|ks| - 1];
      var init := ks[..|ks| - 1];
      forall k | k in keys - {last} ensures k in init {
        var i :| 0 <= i < |ks| && ks[i] == k;
        assert i < |ks| - 1;
        assert init[i] == k;
      }
      EnumerationSize(init, keys - {last});
    }
  }

  /** The enumeration of a one-key set is that key alone. */
  lemma SingleEnumeration<K>(ks: seq<K>, k: K)
    requires IsEnumeration(ks, {k})
    ensures ks == [k]
  {
    EnumerationSize(ks, {k});
  }
}
