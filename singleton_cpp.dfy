/** CacheManager of the C++ version: a singleton created through std::call_once
    around an unordered_map<string, string>; an empty key is rejected. */
module SingletonCpp {
  import opened Wrappers
  import opened Text
  import opened CacheFormat
  import HashIteration

  const EmptyKeyMessage := "Cache key cannot be empty"

  // ---- The cache as a value ---------------------------------------------

  /** The check `put` and `get` make before they take the lock. */
  function KeyCheck(key: string): Outcome
  {
    if key == "" then Fail(InvalidArgument(EmptyKeyMessage)) else Pass
  }

  /** The map after `put(key, value)`. */
  function AfterPut(m: map<string, string>, key: string, value: string): map<string, string>
  {
    match KeyCheck(key)
    case Fail(_) => m
    case Pass => m[key := value]
  }

  /** What `get(key)` returns or throws: a missing key reads as "". */
  function Lookup(m: map<string, string>, key: string): Result<string>
  {
    match KeyCheck(key)
    case Fail(e) => Err(e)
    case Pass => Ok(if key in m then m[key] else "")
  }

  /** How `<<` writes a stored std::string: as it is. The shared entry
      rendering takes a show function for the value (Java's `toString`,
      Python's `str`); the C++ cache holds strings, so here it is the identity. */
  function Verbatim(s: string): string
  {
    s
  }

  /** The lines `print` writes, the entries in the map's iteration order. */
  function PrintLines(entries: seq<(string, string)>): seq<string>
  {
    [Header] + if |entries| == 0 then [EmptyMarker] else EntryLines(entries, Verbatim)
  }

  /** The text `print` writes: every line terminated by a newline. */
  function PrintText(entries: seq<(string, string)>): string
  {
    Terminated(PrintLines(entries))
  }

  /** After `put(k, v)` with a non-empty key, `get(k)` returns `v`; other keys read as before. */
  lemma PutThenGet(m: map<string, string>, k: string, v: string, k': string)
    requires k != ""
    ensures Lookup(AfterPut(m, k, v), k') ==
      if k' == k then Ok(v) else Lookup(m, k')
  {
  }

  /** An empty key throws invalid_argument from both `put` and `get`; the map is untouched. */
  lemma EmptyKeyRejected(m: map<string, string>, v: string)
    ensures KeyCheck("") == Fail(InvalidArgument(EmptyKeyMessage))
    ensures AfterPut(m, "", v) == m
    ensures Lookup(m, "") == Err(InvalidArgument(EmptyKeyMessage))
  {
  }

  /** `get` cannot tell a missing key from a key holding the empty string. */
  lemma MissLooksLikeEmptyValue(m: map<string, string>, k: string)
    requires k != "" && k !in m
    ensures Lookup(m, k) == Lookup(AfterPut(m, k, ""), k) == Ok("")
    ensures AfterPut(m, k, "") != m
  {
    assert k in AfterPut(m, k, "");
  }

  /** `put` on a present key keeps `size()`; on a new key it adds one. */
  lemma PutSize(m: map<string, string>, k: string, v: string)
    requires k != ""
    ensures |AfterPut(m, k, v)| == if k in m then |m| else |m| + 1
  {
  }

  /** `print` of an empty cache writes the header and the marker, each on its own line. */
  lemma EmptyPrint()
    ensures PrintText([]) == "Cache Contents:\n  (empty)\n"
  {
    assert PrintLines([]) == [Header] + [EmptyMarker];
    TerminatedFront(Header, [EmptyMarker]);
    assert [EmptyMarker][..0] == [];
    assert Terminated([EmptyMarker]) == EmptyMarker + "\n";
  }

  /** `print` of a non-empty cache writes the header, then one line per entry;
      whatever the iteration order, the lines are exactly the entries. */
  lemma NonEmptyPrint(m: map<string, string>, ks: seq<string>)
    requires HashIteration.IsEnumeration(ks, m.Keys) && |m| > 0
    ensures var lines := EntryLines(HashIteration.PairsOf(m, ks), Verbatim);
      && PrintText(HashIteration.PairsOf(m, ks)) == Header + "\n" + Terminated(lines)
      && |lines| == |m|
      && forall line :: line in lines <==> exists k :: k in m && line == EntryLine(k, m[k])
  {
    var lines := EntryLines(HashIteration.PairsOf(m, ks), Verbatim);
    LinesAreTheEntries(m, ks, Verbatim);
    TerminatedFront(Header, lines);
  }

  // ---- The cache object --------------------------------------------------

  class CacheManager {
    /** The unordered_map holding the entries. */
    var cache: map<string, string>

    /** The private default constructor: an empty cache. */
    constructor ()
      ensures cache == map[]
    {
      cache := map[];
    }

    method Put(key: string, value: string) returns (outcome: Outcome)
      modifies this
      ensures outcome == KeyCheck(key)
      ensures cache == AfterPut(old(cache), key, value)
    {
      if key == "" {
        return Fail(InvalidArgument(EmptyKeyMessage));
      }
      cache := cache[key := value];
      outcome := Pass;
    }

    method Get(key: string) returns (r: Result<string>)
      ensures r == Lookup(cache, key)
    {
      if key == "" {
        return Err(InvalidArgument(EmptyKeyMessage));
      }
      if key in cache {
        return Ok(cache[key]);
      }
      r := Ok("");
    }

    method Clear()
      modifies this
      ensures cache == map[]
    {
      cache := map[];
    }

    method Size() returns (n: nat)
      ensures n == |cache|
    {
      n := |cache|;
    }

    /** print: the text written to standard output while iterating over the map. */
    method Print() returns (out: string, ghost order: seq<string>)
      ensures HashIteration.IsEnumeration(order, cache.Keys)
      ensures out == PrintText(HashIteration.PairsOf(cache, order))
      ensures |cache| == 0 ==> out == Header + "\n" + EmptyMarker + "\n"
    {
      var ks := HashIteration.IterationOrder(cache);
      HashIteration.EnumerationSize(ks, cache.Keys);
      order := ks;
      // the map's entries, in iteration order
      var entries := HashIteration.PairsOf(cache, ks);
      out := WriteEntries(entries);
    }
  }

  /** The writes of `print`, for the entries in the order the map is iterated. */
  method WriteEntries(entries: seq<(string, string)>) returns (out: string)
    ensures out == PrintText(entries)
    ensures |entries| == 0 ==> out == Header + "\n" + EmptyMarker + "\n"
  {
    out := Header + "\n";
    if |entries| == 0 {
      out := out + EmptyMarker + "\n";
      EmptyPrint();
    } else {
      var i := 0;
      while i < |entries|
        invariant 0 <= i <= |entries|
        invariant out == Header + "\n" + Terminated(EntryLines(entries[..i], Verbatim))
      {
        EntryLinesPrefix(entries, i, Verbatim);
        out := out + "  Key: " + entries[i].0 + ", Value: " + entries[i].1 + "\n";
        i := i + 1;
      }
      assert entries[..i] == entries;
      TerminatedFront(Header, EntryLines(entries, Verbatim));
    }
  }

  /** The class-level state: the static `instance` pointer and `initInstanceFlag`. */
  class Statics {
    var instance: CacheManager?
    var initInstanceFlag: bool
    /** How many times initSingleton has run. */
    ghost var initRuns: nat

    ghost predicate Valid()
      reads this
    {
      && initRuns <= 1
      && (initInstanceFlag <==> initRuns == 1)
      && (initInstanceFlag <==> instance != null)
    }

    /** The static initialisation: a null pointer and a fresh once_flag. */
    constructor ()
      ensures Valid() && instance == null && initRuns == 0
    {
      instance := null;
      initInstanceFlag := false;
      initRuns := 0;
    }

    /** initSingleton: allocate the instance. */
    method InitSingleton()
      modifies this
      ensures fresh(instance) && instance.cache == map[]
      ensures initInstanceFlag == old(initInstanceFlag) && initRuns == old(initRuns) + 1
    {
      instance := new CacheManager();
      initRuns := initRuns + 1;
    }

    /** getInstance: call_once(initInstanceFlag, initSingleton), then `*instance`.
        initSingleton runs on the first call only, and every call returns the same object. */
    method GetInstance() returns (c: CacheManager)
      requires Valid()
      modifies this
      ensures Valid() && initRuns == 1 && instance == c
      ensures old(initInstanceFlag) ==> c == old(instance) && c.cache == old(instance.cache) && initRuns == old(initRuns)
      ensures !old(initInstanceFlag) ==> fresh(c) && c.cache == map[]
    {
      if !initInstanceFlag {
        InitSingleton();
        initInstanceFlag := true;
      }
      c := instance;
    }
  }

  /** The demonstration, first part: both references are the same object and
      see 2, then 3 entries. */
  method SharedInstanceScenario() returns (sizeFirst: nat, sizeSecond: nat, retrieved: Result<string>,
                                           sameInstance: bool)
    ensures sizeFirst == 2 && sizeSecond == 3
    ensures retrieved == Ok("Alice Smith")
    ensures sameInstance
  {
    var statics := new Statics();
    var cache1 := statics.GetInstance();
    var o1 := cache1.Put("user:123", "Alice Smith");
    var o2 := cache1.Put("config:theme", "dark");
    assert "user:123" != "config:theme" by { assert "user:123"[0] != "config:theme"[0]; }
    assert cache1.cache == map["user:123" := "Alice Smith", "config:theme" := "dark"];
    sizeFirst := cache1.Size();
    var cache2 := statics.GetInstance();
    var o3 := cache2.Put("user:456", "Bob Jones");
    assert "user:456" !in map["user:123" := "Alice Smith", "config:theme" := "dark"] by {
      assert "user:456"[5] != "user:123"[5] && "user:456"[0] != "config:theme"[0];
    }
    sizeSecond := cache1.Size();
    retrieved := cache1.Get("user:123");
    sameInstance := cache1 == cache2;
  }

  /** The demonstration, second part: after the same three puts, a clear
      through one reference leaves 0 entries through the other. */
  method ClearScenario() returns (sizeCleared: nat, clearedText: string)
    ensures sizeCleared == 0
    ensures clearedText == "Cache Contents:\n  (empty)\n"
  {
    var statics := new Statics();
    var cache1 := statics.GetInstance();
    var o1 := cache1.Put("user:123", "Alice Smith");
    var o2 := cache1.Put("config:theme", "dark");
    var cache2 := statics.GetInstance();
    var o3 := cache2.Put("user:456", "Bob Jones");
    cache2.Clear();
    sizeCleared := cache1.Size();
    ghost var order;
    clearedText, order := cache1.Print();
    EmptyPrint();
  }
}
