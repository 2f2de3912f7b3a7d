/** CacheManager of the Java version: a lazily created singleton around a
    HashMap<String, Object>; a null key is rejected. */
module SingletonJava {
  import opened Wrappers
  import opened Text
  import opened CacheFormat
  import HashIteration

  const NullKeyMessage := "Cache key cannot be null"

  // ---- The cache as a value ---------------------------------------------

  /** The check `put` and `get` make before they touch the map. */
  function KeyCheck(key: Option<string>): Outcome
  {
    if key.None? then Fail(IllegalArgumentException(NullKeyMessage)) else Pass
  }

  /** The map after `put(key, value)`. */
  function AfterPut<V>(m: map<string, V>, key: Option<string>, value: V): map<string, V>
  {
    match KeyCheck(key)
    case Fail(_) => m
    case Pass => m[key.value := value]
  }

  /** What `get(key)` returns (`null` is None) or throws. */
  function Lookup<V>(m: map<string, V>, key: Option<string>): Result<Option<V>>
  {
    match KeyCheck(key)
    case Fail(e) => Err(e)
    case Pass => Ok(if key.value in m then Some(m[key.value]) else None)
  }

  /** What toString returns, the entries listed in the map's iteration order. */
  function CacheText<V>(entries: seq<(string, V)>, show: V -> string): string
  {
    Header + "\n" + if |entries| == 0 then EmptyMarker else Terminated(EntryLines(entries, show))
  }

  /** After `put(k, v)`, `get(k)` returns `v` and every other key reads as before. */
  lemma PutThenGet<V>(m: map<string, V>, k: string, v: V, k': string)
    ensures Lookup(AfterPut(m, Some(k), v), Some(k')) ==
      if k' == k then Ok(Some(v)) else Lookup(m, Some(k'))
  {
  }

  /** `put` on a present key keeps `size()`; on a new key it adds one. */
  lemma PutSize<V>(m: map<string, V>, k: string, v: V)
    ensures |AfterPut(m, Some(k), v)| == if k in m then |m| else |m| + 1
  {
  }

  /** A null key throws from both `put` and `get`, and the failed `put` leaves the map alone. */
  lemma NullKeyRejected<V>(m: map<string, V>, v: V)
    ensures KeyCheck(None) == Fail(IllegalArgumentException(NullKeyMessage))
    ensures AfterPut(m, None, v) == m
    ensures Lookup(m, None) == Err(IllegalArgumentException(NullKeyMessage))
  {
  }

  /** `get` of a key never stored returns null; after `clear()` every key is absent. */
  lemma AbsentIsNull<V>(m: map<string, V>, k: string)
    ensures k !in m <==> Lookup(m, Some(k)) == Ok(None)
    ensures Lookup<V>(map[], Some(k)) == Ok(None)
  {
  }

  /** toString of an empty cache is the header and the marker, with no final newline. */
  lemma EmptyText<V>(show: V -> string)
    ensures CacheText([], show) == "Cache Contents:\n  (empty)"
  {
  }

  /** toString of a non-empty cache is the header line, then one terminated line
      per entry; whatever the iteration order, the lines are exactly the entries. */
  lemma {:induction false} NonEmptyText<V>(m: map<string, V>, ks: seq<string>, show: V -> string)
    requires HashIteration.IsEnumeration(ks, m.Keys) && |m| > 0
    ensures var lines := EntryLines(HashIteration.PairsOf(m, ks), show);
      && CacheText(HashIteration.PairsOf(m, ks), show) == Terminated([Header] + lines)
      && |lines| == |m|
      && forall line :: line in lines <==> exists k :: k in m && line == EntryLine(k, show(m[k]))
  {
    LinesAreTheEntries(m, ks, show);
    TerminatedFront(Header, EntryLines(HashIteration.PairsOf(m, ks), show));
  }

  /** A one-entry cache renders the same in every iteration order. */
  lemma {:induction false} SingleEntryText<V>(k: string, v: V, ks: seq<string>, show: V -> string)
    requires HashIteration.IsEnumeration(ks, {k})
    ensures (map[k := v]).Keys == {k}
    ensures CacheText(HashIteration.PairsOf(map[k := v], ks), show) ==
      "Cache Contents:\n  Key: " + k + ", Value: " + show(v) + "\n"
  {
    HashIteration.SingleEnumeration(ks, k);
    var lines := EntryLines(HashIteration.PairsOf(map[k := v], ks), show);
    assert lines == [EntryLine(k, show(v))];
    assert lines[..0] == [];
    assert Terminated(lines) == EntryLine(k, show(v)) + "\n";
  }

  // ---- The cache object --------------------------------------------------

  class CacheManager<V> {
    /** The HashMap holding the entries. */
    var cache: map<string, V>

    /** The private constructor: an empty cache. */
    constructor ()
      ensures cache == map[]
    {
      cache := map[];
    }

    method Put(key: Option<string>, value: V) returns (outcome: Outcome)
      modifies this
      ensures outcome == KeyCheck(key)
      ensures cache == AfterPut(old(cache), key, value)
    {
      if key.None? {
        return Fail(IllegalArgumentException(NullKeyMessage));
      }
      cache := cache[key.value := value];
      outcome := Pass;
    }

    method Get(key: Option<string>) returns (r: Result<Option<V>>)
      ensures r == Lookup(cache, key)
    {
      if key.None? {
        return Err(IllegalArgumentException(NullKeyMessage));
      }
      r := Ok(if key.value in cache then Some(cache[key.value]) else None);
    }

    method Clear()
      modifies this
      ensures cache == map[]
    {
      cache := map[];
    }

    method Size() returns (n: nat)
      ensures n == |cache|
    {
      n := |cache|;
    }

    /** toString: a StringBuilder filled while iterating over the entry set;
        `show` is String.valueOf on the stored values. */
    method ToString(show: V -> string) returns (s: string, ghost order: seq<string>)
      ensures HashIteration.IsEnumeration(order, cache.Keys)
      ensures s == CacheText(HashIteration.PairsOf(cache, order), show)
      ensures |cache| == 0 ==> s == Header + "\n" + EmptyMarker
      ensures |cache| > 0 ==> |s| > 0 && s[|s| - 1] == '\n'
    {
      var ks := HashIteration.IterationOrder(cache);
      HashIteration.EnumerationSize(ks, cache.Keys);
      order := ks;
      // the entry set, in iteration order
      var entries := HashIteration.PairsOf(cache, ks);
      s := Render(entries, show);
    }
  }

  /** The StringBuilder appends of `toString`, for the entries in the order the
      map is iterated. */
  method Render<V>(entries: seq<(string, V)>, show: V -> string) returns (s: string)
    ensures s == CacheText(entries, show)
  {
    s := Header + "\n";
    if |entries| == 0 {
      s := s + EmptyMarker;
    } else {
      var i := 0;
      while i < |entries|
        invariant 0 <= i <= |entries|
        invariant s == Header + "\n" + Terminated(EntryLines(entries[..i], show))
      {
        EntryLinesPrefix(entries, i, show);
        s := s + "  Key: " + entries[i].0 + ", Value: " + show(entries[i].1) + "\n";
        i := i + 1;
      }
      assert entries[..i] == entries;
    }
  }

  /** The class-level state: the static `instance` field. */
  class Statics<V> {
    var instance: CacheManager?<V>

    constructor ()
      ensures instance == null
    {
      instance := null;
    }

    /** getInstance: creates the cache on the first call and returns that same
        object, with its entries untouched, on every later call. */
    method GetInstance() returns (c: CacheManager<V>)
      modifies this
      ensures old(instance) != null ==> c == old(instance) && c.cache == old(instance.cache)
      ensures old(instance) == null ==> fresh(c) && c.cache == map[]
      ensures instance == c
    {
      // The check under the lock sees the same value as the first check in a
      // sequential run, so one test stands for both.
      if instance == null {
        instance := new CacheManager();
      }
      c := instance;
    }
  }

  /** The demonstration, first part: two references obtained from getInstance
      are the same object and see each other's puts. */
  method SharedInstanceScenario() returns (sizeFirst: nat, sizeSecond: nat,
                                           retrieved: Result<Option<string>>, sameInstance: bool)
    ensures sizeFirst == 2 && sizeSecond == 3
    ensures retrieved == Ok(Some("Alice Smith"))
    ensures sameInstance
  {
    var statics := new Statics<string>();
    var cache1 := statics.GetInstance();
    var o1 := cache1.Put(Some("user:123"), "Alice Smith");
    var o2 := cache1.Put(Some("config:theme"), "dark");
    assert "user:123" != "config:theme" by { assert "user:123"[0] != "config:theme"[0]; }
    assert cache1.cache == map["user:123" := "Alice Smith", "config:theme" := "dark"];
    sizeFirst := cache1.Size();
    var cache2 := statics.GetInstance();
    var o3 := cache2.Put(Some("user:456"), "Bob Jones");
    assert "user:456" !in map["user:123" := "Alice Smith", "config:theme" := "dark"] by {
      assert "user:456"[5] != "user:123"[5] && "user:456"[0] != "config:theme"[0];
    }
    sizeSecond := cache1.Size();
    retrieved := cache1.Get(Some("user:123"));
    sameInstance := cache1 == cache2;
  }

  /** The demonstration, second part: after the same three puts, a clear
      through one reference empties the cache seen through the other. */
  method ClearScenario() returns (sizeCleared: nat, clearedText: string)
    ensures sizeCleared == 0
    ensures clearedText == "Cache Contents:\n  (empty)"
  {
    var statics := new Statics<string>();
    var cache1 := statics.GetInstance();
    var o1 := cache1.Put(Some("user:123"), "Alice Smith");
    var o2 := cache1.Put(Some("config:theme"), "dark");
    var cache2 := statics.GetInstance();
    var o3 := cache2.Put(Some("user:456"), "Bob Jones");
    cache2.Clear();
    sizeCleared := cache1.Size();
    ghost var order;
    clearedText, order := cache1.ToString(v => v);
    EmptyText<string>(v => v);
  }
}
