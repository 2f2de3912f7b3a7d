/** The pieces every CacheManager rendering is made of. */
module CacheFormat {
  import HashIteration

  const Header := "Cache Contents:"
  const EmptyMarker := "  (empty)"

  /** One entry, without a line terminator. */
  function EntryLine(k: string, v: string): string
  {
    "  Key: " + k + ", Value: " + v
  }

  /** One line per entry, in the given order; `show` renders a value as text. */
  function EntryLines<V>(entries: seq<(string, V)>, show: V -> string): seq<string>
  {
    seq(|entries|, i requires 0 <= i < |entries| => EntryLine(entries[i].0, show(entries[i].1)))
  }

  /** Listing a map in any iteration order shows each entry once and nothing
      else: the lines are the map's entries, as a set. */
  lemma LinesAreTheEntries<V>(m: map<string, V>, ks: seq<string>, show: V -> string)
    requires HashIteration.IsEnumeration(ks, m.Keys)
    ensures |EntryLines(HashIteration.PairsOf(m, ks), show)| == |m|
    ensures forall line :: line in EntryLines(HashIteration.PairsOf(m, ks), show) <==>
      exists k :: k in m && line == EntryLine(k, show(m[k]))
  {
    HashIteration.EnumerationSize(ks, m.Keys);
    var lines := EntryLines(HashIteration.PairsOf(m, ks), show);
    forall line | line in lines ensures exists k :: k in m && line == EntryLine(k, show(m[k])) {
      var i :| 0 <= i < |lines| && lines[i] == line;
      assert ks[i] in m;
    }
    forall k | k in m ensures EntryLine(k, show(m[k])) in lines {
      var i :| 0 <= i < |ks| && ks[i] == k;
      assert lines[i] == EntryLine(k, show(m[k]));
    }
  }

  /** A prefix of the entries gives a prefix of the lines. */
  lemma EntryLinesPrefix<V>(entries: seq<(string, V)>, i: nat, show: V -> string)
    requires i < |entries|
    ensures EntryLines(entries[..i + 1], show) ==
      EntryLines(entries[..i], show) + [EntryLine(entries[i].0, show(entries[i].1))]
  {
  }
}
