/** A std::map<std::string, std::string>: entries kept in ascending key order,
    each key at most once. */
module SortedMap {
  import opened Wrappers
  import opened Text
  import opened AssocList

  type Entry = (string, string)

  /** Keys strictly ascending, so each appears once. */
  predicate Sorted(es: seq<Entry>)
  {
    forall i, j :: 0 <= i < j < |es| ==> Less(es[i].0, es[j].0)
  }

  /** `m[k] = v`: overwrite the entry for `k`, or insert it at its place in key order. */
  function Assign(es: seq<Entry>, k: string, v: string): (r: seq<Entry>)
    ensures (k, v) in r
    ensures forall e :: e in r ==> e == (k, v) || e in es
  {
    if |es| == 0 then [(k, v)]
    else if es[0].0 == k then [(k, v)] + es[1..]
    else if Less(k, es[0].0) then [(k, v)] + es
    else [es[0]] + Assign(es[1..], k, v)
  }

  /** A list is sorted when its tail is and its first key is below all the others. */
  lemma ConsSorted(e: Entry, rest: seq<Entry>)
    requires Sorted(rest)
    requires forall j :: 0 <= j < |rest| ==> Less(e.0, rest[j].0)
    ensures Sorted([e] + rest)
  {
    var a := [e] + rest;
    forall i, j | 0 <= i < j < |a| ensures Less(a[i].0, a[j].0) {
      assert a[j] == rest[j - 1];
      if i > 0 { assert a[i] == rest[i - 1]; }
    }
  }

  /** In a sorted list, a key below the first key is below every key. */
  lemma BelowFirstBelowAll(es: seq<Entry>, k: string)
    requires Sorted(es) && |es| > 0 && Less(k, es[0].0)
    ensures forall j :: 0 <= j < |es| ==> Less(k, es[j].0)
  {
    forall j | 0 < j < |es| ensures Less(k, es[j].0) {
      LessTransitive(k, es[0].0, es[j].0);
    }
  }

  /** `m[k] = v` keeps the keys in ascending order. */
  lemma {:induction false} AssignSorted(es: seq<Entry>, k: string, v: string)
    requires Sorted(es)
    ensures Sorted(Assign(es, k, v))
  {
    if |es| == 0 {
    } else if es[0].0 == k {
      assert Sorted(es[1..]);
      ConsSorted((k, v), es[1..]);
    } else if Less(k, es[0].0) {
      BelowFirstBelowAll(es, k);
      ConsSorted((k, v), es);
    } else {
      LessTotal(k, es[0].0);
      var tail := es[1..];
      assert Sorted(tail);
      AssignSorted(tail, k, v);
      var rest := Assign(tail, k, v);
      forall j | 0 <= j < |rest| ensures Less(es[0].0, rest[j].0) {
        assert rest[j] in rest;
        if rest[j] != (k, v) {
          var n :| 0 <= n < |tail| && tail[n] == rest[j];
          assert es[n + 1] == rest[j];
        }
      }
      ConsSorted(es[0], rest);
    }
  }

  /** After `m[k] = v`, looking up `k` gives `v` and every other key is as it was. */
  lemma {:induction false} AssignLookup(es: seq<Entry>, k: string, v: string, k': string)
    ensures Lookup(Assign(es, k, v), k') == if k' == k then Some(v) else Lookup(es, k')
  {
    if |es| > 0 && es[0].0 != k && !Less(k, es[0].0) {
      AssignLookup(es[1..], k, v, k');
      assert Assign(es, k, v)[1..] == Assign(es[1..], k, v);
    } else if |es| > 0 && es[0].0 == k {
      assert Assign(es, k, v)[1..] == es[1..];
    } else if |es| > 0 {
      assert Assign(es, k, v)[1..] == es;
    }
  }

  /** In a sorted list, a key below the first key is absent. */
  lemma {:induction false} LookupBelowFirst(es: seq<Entry>, k: string)
    requires Sorted(es) && |es| > 0 && Less(k, es[0].0)
    ensures Lookup(es, k).None?
  {
    LessIrreflexive(k);
    if |es| > 1 {
      LessTransitive(k, es[0].0, es[1].0);
      assert Sorted(es[1..]);
      LookupBelowFirst(es[1..], k);
    }
  }

  lemma LookupFirst(es: seq<Entry>)
    requires |es| > 0
    ensures Lookup(es, es[0].0) == Some(es[0].1)
  {
  }

  /** Two sorted lists with the same lookups are the same list: the order in
      which a std::map lists its entries is fixed by its contents. */
  lemma {:induction false} Canonical(a: seq<Entry>, b: seq<Entry>)
    requires Sorted(a) && Sorted(b)
    requires forall k :: Lookup(a, k) == Lookup(b, k)
    ensures a == b
  {
    if |a| == 0 || |b| == 0 {
      if |a| > 0 { LookupFirst(a); assert false; }
      if |b| > 0 { LookupFirst(b); assert false; }
    } else {
      var x, y := a[0].0, b[0].0;
      if x != y {
        LessTotal(x, y);
        if Less(x, y) {
          LookupBelowFirst(b, x);
        } else {
          LookupBelowFirst(a, y);
        }
      } else {
        assert a[0] == b[0] by { assert Lookup(a, x) == Lookup(b, x); }
        forall k ensures Lookup(a[1..], k) == Lookup(b[1..], k) {
          if k == x {
            if |a| > 1 { assert Sorted(a[1..]); LookupBelowFirst(a[1..], k); }
            if |b| > 1 { assert Sorted(b[1..]); LookupBelowFirst(b[1..], k); }
          } else {
            assert Lookup(a, k) == Lookup(b, k);
          }
        }
        assert Sorted(a[1..]) && Sorted(b[1..]);
        Canonical(a[1..], b[1..]);
        assert a == [a[0]] + a[1..];
        assert b == [b[0]] + b[1..];
      }
    }
  }

  /** Assigning two different keys gives the same map in either order. */
  lemma AssignCommutes(es: seq<Entry>, k1: string, v1: string, k2: string, v2: string)
    requires Sorted(es) && k1 != k2
    ensures Assign(Assign(es, k1, v1), k2, v2) == Assign(Assign(es, k2, v2), k1, v1)
  {
    var a1 := Assign(es, k1, v1);
    var b1 := Assign(es, k2, v2);
    AssignSorted(es, k1, v1);
    AssignSorted(es, k2, v2);
    AssignSorted(a1, k2, v2);
    AssignSorted(b1, k1, v1);
    forall k ensures Lookup(Assign(a1, k2, v2), k) == Lookup(Assign(b1, k1, v1), k) {
      AssignLookup(a1, k2, v2, k);
      AssignLookup(es, k1, v1, k);
      AssignLookup(b1, k1, v1, k);
      AssignLookup(es, k2, v2, k);
    }
    Canonical(Assign(a1, k2, v2), Assign(b1, k1, v1));
  }
}
