/** CacheManager of the Python version: `__new__` keeps one instance in a class
    attribute, and the cache is a dict, listed in insertion order; a None key
    is rejected. */
module SingletonPython {
  import opened Wrappers
  import opened Text
  import opened CacheFormat
  import OrderedDict
  import AssocList
  import SingletonJava

  const NoneKeyMessage := "Cache key cannot be None"

  // ---- The cache as a value ---------------------------------------------

  /** The check `put` and `get` make before they touch the dict. */
  function KeyCheck(key: Option<string>): Outcome
  {
    if key.None? then Fail(ValueError(NoneKeyMessage)) else Pass
  }

  /** The dict after `put(key, value)`. */
  function AfterPut<V>(d: seq<AssocList.Entry<V>>, key: Option<string>, value: V): seq<AssocList.Entry<V>>
  {
    match KeyCheck(key)
    case Fail(_) => d
    case Pass => OrderedDict.Assign(d, key.value, value)
  }

  /** What `get(key)` returns or raises. */
  function Lookup<V>(d: seq<AssocList.Entry<V>>, key: Option<string>): Result<Option<V>>
  {
    match KeyCheck(key)
    case Fail(e) => Err(e)
    case Pass => Ok(AssocList.Lookup(d, key.value))
  }

  /** What `__str__` returns. */
  function StrText<V>(d: seq<AssocList.Entry<V>>, show: V -> string): string
  {
    if |d| == 0 then Header + "\n" + EmptyMarker
    else Join("\n", [Header] + EntryLines(d, show))
  }

  /** After `put(k, v)`, `get(k)` returns `v` and every other key reads as before. */
  lemma PutThenGet<V>(d: seq<AssocList.Entry<V>>, k: string, v: V, k': string)
    ensures Lookup(AfterPut(d, Some(k), v), Some(k')) ==
      if k' == k then Ok(Some(v)) else Lookup(d, Some(k'))
  {
    OrderedDict.AssignLookup(d, k, v, k');
  }

  /** `put` keeps keys distinct; it keeps `size()` for a present key and adds
      one for a new key, which goes last in the listing order. */
  lemma PutSizeAndOrder<V>(d: seq<AssocList.Entry<V>>, k: string, v: V)
    requires OrderedDict.DistinctKeys(d)
    ensures OrderedDict.DistinctKeys(AfterPut(d, Some(k), v))
    ensures Lookup(d, Some(k)) == Ok(None) ==> AfterPut(d, Some(k), v) == d + [(k, v)]
    ensures Lookup(d, Some(k)) != Ok(None) ==>
      |AfterPut(d, Some(k), v)| == |d| &&
      forall i :: 0 <= i < |d| ==> AfterPut(d, Some(k), v)[i].0 == d[i].0
  {
    OrderedDict.AssignSize(d, k, v);
    OrderedDict.AssignPositions(d, k, v);
  }

  /** None is rejected by `put` and `get`, and the failed `put` leaves the dict
      alone; the empty string is an ordinary key. */
  lemma NoneKeyRejected<V>(d: seq<AssocList.Entry<V>>, v: V)
    ensures AfterPut(d, None, v) == d
    ensures Lookup(d, None) == Err(ValueError(NoneKeyMessage))
    ensures KeyCheck(Some("")) == Pass
    ensures Lookup(AfterPut(d, Some(""), v), Some("")) == Ok(Some(v))
  {
    PutThenGet(d, "", v, "");
  }

  /** `get` returns None exactly for keys not in the dict. */
  lemma AbsentIsNone<V>(d: seq<AssocList.Entry<V>>, k: string)
    ensures Lookup(d, Some(k)) == Ok(None) <==> k !in OrderedDict.KeySet(d)
  {
    OrderedDict.LookupFound(d, k);
  }

  /** `size()` is the number of keys. */
  lemma SizeIsKeyCount<V>(d: seq<AssocList.Entry<V>>)
    requires OrderedDict.DistinctKeys(d)
    ensures |OrderedDict.KeySet(d)| == |d|
  {
    OrderedDict.SizeIsKeyCount(d);
  }

  /** `__str__` of an empty cache is the header and the marker. */
  lemma EmptyStr<V>(show: V -> string)
    ensures StrText([], show) == "Cache Contents:\n  (empty)"
  {
  }

  /** `__str__` lists the entries in insertion order, one per line, and ends
      without a newline: it is Java's toString for that order minus the final
      newline, and the two agree on an empty cache. */
  lemma StrIsJavaWithoutFinalNewline<V>(d: seq<AssocList.Entry<V>>, show: V -> string)
    ensures |d| == 0 ==> StrText(d, show) == SingletonJava.CacheText(d, show)
    ensures |d| > 0 ==> StrText(d, show) + "\n" == SingletonJava.CacheText(d, show)
  {
    if |d| > 0 {
      var lines := EntryLines(d, show);
      TerminatedIsJoinPlusNewline([Header] + lines);
      TerminatedFront(Header, lines);
    }
  }

  // ---- The cache object --------------------------------------------------

  class CacheManager<V> {
    /** The `_cache` dict. */
    var cache: seq<AssocList.Entry<V>>

    ghost predicate Valid()
      reads this
    {
      OrderedDict.DistinctKeys(cache)
    }

    /** `super().__new__(cls)` followed by `_init_cache`: an empty dict. */
    constructor InitCache()
      ensures Valid() && cache == []
    {
      cache := [];
    }

    method Put(key: Option<string>, value: V) returns (outcome: Outcome)
      requires Valid()
      modifies this
      ensures Valid()
      ensures outcome == KeyCheck(key)
      ensures cache == AfterPut(old(cache), key, value)
    {
      if key.None? {
        return Fail(ValueError(NoneKeyMessage));
      }
      OrderedDict.AssignSize(cache, key.value, value);
      cache := OrderedDict.Assign(cache, key.value, value);
      outcome := Pass;
    }

    method Get(key: Option<string>) returns (r: Result<Option<V>>)
      ensures r == Lookup(cache, key)
    {
      if key.None? {
        return Err(ValueError(NoneKeyMessage));
      }
      r := Ok(AssocList.Lookup(cache, key.value));
    }

    method Clear()
      modifies this
      ensures Valid() && cache == []
    {
      cache := [];
    }

    /** `len(self._cache)`. */
    method Size() returns (n: nat)
      ensures n == |cache|
    {
      n := |cache|;
    }

    /** `__str__`: the lines are collected in a loop and joined with newlines;
        `show` is `str` on the stored values. */
    method Str(show: V -> string) returns (s: string)
      ensures s == StrText(cache, show)
    {
      if |cache| == 0 {
        return Header + "\n" + EmptyMarker;
      }
      var lines := [Header];
      var i := 0;
      while i < |cache|
        invariant 0 <= i <= |cache|
        invariant lines == [Header] + EntryLines(cache[..i], show)
      {
        EntryLinesPrefix(cache, i, show);
        lines := lines + ["  Key: " + cache[i].0 + ", Value: " + show(cache[i].1)];
        i := i + 1;
      }
      assert cache[..i] == cache;
      s := Join("\n", lines);
    }
  }

  /** The class object: the `_instance` class attribute. */
  class CacheManagerClass<V> {
    var instance: CacheManager?<V>

    /** The instance, once there is one, holds a well-formed dict. */
    ghost predicate Valid()
      reads this, instance
    {
      instance != null ==> instance.Valid()
    }

    constructor ()
      ensures Valid() && instance == null
    {
      instance := null;
    }

    /** `CacheManager()`, that is `__new__`: creates and initialises the instance
        on the first call only; later calls return it with its entries intact. */
    method New() returns (c: CacheManager<V>)
      requires Valid()
      modifies this
      ensures Valid() && c.Valid()
      ensures old(instance) != null ==> c == old(instance) && c.cache == old(instance.cache)
      ensures old(instance) == null ==> fresh(c) && c.cache == []
      ensures instance == c
    {
      if instance == null {
        instance := new CacheManager.InitCache();
      }
      c := instance;
    }
  }

  /** The listing of the demonstration's first two entries: header, then the
      entries in insertion order, newline-separated. */
  lemma FirstListing()
    ensures StrText([("user:123", "Alice Smith"), ("config:theme", "dark")], (v: string) => v) ==
      Header + "\n" + EntryLine("user:123", "Alice Smith") + "\n" + EntryLine("config:theme", "dark")
  {
    var lines := EntryLines([("user:123", "Alice Smith"), ("config:theme", "dark")], (v: string) => v);
    assert lines == [EntryLine("user:123", "Alice Smith"), EntryLine("config:theme", "dark")];
    JoinSnoc("\n", [Header], lines[0]);
    JoinSnoc("\n", [Header, lines[0]], lines[1]);
    assert [Header] + lines == [Header, lines[0]] + [lines[1]];
  }

  /** The demonstration, first part: the second `CacheManager()` returns the
      same object and neither resets nor copies the cache; the listing follows
      insertion order. */
  method SharedInstanceScenario() returns (firstText: string, sizeFirst: nat, sizeAfterSecondNew: nat,
                                           sizeSecond: nat, retrieved: Result<Option<string>>,
                                           sameInstance: bool)
    ensures firstText == Header + "\n" + EntryLine("user:123", "Alice Smith") + "\n" + EntryLine("config:theme", "dark")
    ensures sizeFirst == 2 && sizeAfterSecondNew == 2 && sizeSecond == 3
    ensures retrieved == Ok(Some("Alice Smith"))
    ensures sameInstance
  {
    var cls := new CacheManagerClass<string>();
    var cache1 := cls.New();
    var o1 := cache1.Put(Some("user:123"), "Alice Smith");
    assert cache1.cache == [("user:123", "Alice Smith")];
    var o2 := cache1.Put(Some("config:theme"), "dark");
    assert "user:123"[0] != "config:theme"[0];
    assert [("user:123", "Alice Smith")][1..] == [];
    assert cache1.cache == [("user:123", "Alice Smith")] + OrderedDict.Assign([], "config:theme", "dark");
    sizeFirst := cache1.Size();
    firstText := cache1.Str(v => v);
    assert cache1.cache == [("user:123", "Alice Smith"), ("config:theme", "dark")];
    FirstListing();
    var cache2 := cls.New();
    sizeAfterSecondNew := cache1.Size();
    var o3 := cache2.Put(Some("user:456"), "Bob Jones");
    PutSizeAndOrder([("user:123", "Alice Smith"), ("config:theme", "dark")], "user:456", "Bob Jones");
    assert "user:456" !in OrderedDict.KeySet([("user:123", "Alice Smith"), ("config:theme", "dark")]) by {
      assert "user:456"[5] != "user:123"[5] && "user:456"[0] != "config:theme"[0];
    }
    AbsentIsNone([("user:123", "Alice Smith"), ("config:theme", "dark")], "user:456");
    sizeSecond := cache1.Size();
    retrieved := cache1.Get(Some("user:123"));
    sameInstance := cache1 == cache2;
  }

  /** The demonstration, second part: after the same three puts, a clear
      through one reference empties the cache seen through the other. */
  method ClearScenario() returns (sizeCleared: nat, clearedText: string)
    ensures sizeCleared == 0
    ensures clearedText == "Cache Contents:\n  (empty)"
  {
    var cls := new CacheManagerClass<string>();
    var cache1 := cls.New();
    var o1 := cache1.Put(Some("user:123"), "Alice Smith");
    var o2 := cache1.Put(Some("config:theme"), "dark");
    var cache2 := cls.New();
    var o3 := cache2.Put(Some("user:456"), "Bob Jones");
    cache2.Clear();
    sizeCleared := cache1.Size();
    clearedText := cache1.Str(v => v);
    EmptyStr<string>(v => v);
  }
}
