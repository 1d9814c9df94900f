/** The counting loops behind the statistics page's bar chart (entries per
    genre, `loadGenreChart`) and line chart (entries per month,
    `loadTimeChart`): `counts[key] = (counts[key] || 0) + 1` for each entry. */
module Histogram {
  import opened Strings
  import opened Lists
  import opened WatchList

  /** One pass of `counts[key] = (counts[key] || 0) + 1` over the keys, in order. */
  function Tally(keys: seq<string>): (counts: map<string, nat>)
    ensures forall k :: k in counts <==> k in keys
    ensures forall k :: k in counts ==> counts[k] == multiset(keys)[k]
    decreases |keys|
  {
    if |keys| == 0 then map[]
    else
      var init := keys[..|keys| - 1];
      var k := keys[|keys| - 1];
      assert keys == init + [k];
      var counts := Tally(init);
      counts[k := (if k in counts then counts[k] else 0) + 1]
  }

  /** The sum of the counts of the keys in `ks`. */
  ghost function SumOver(counts: map<string, nat>, ks: set<string>): nat
    requires ks <= counts.Keys
    decreases |ks|
  {
    if ks == {} then 0
    else
      var k :| k in ks;
      counts[k] + SumOver(counts, ks - {k})
  }

  /** The sum of all counts: the height of all bars together. */
  ghost function TotalCount(counts: map<string, nat>): nat {
    SumOver(counts, counts.Keys)
  }

  /** The sum does not depend on which key is taken first. */
  lemma {:induction false} SumOverRemove(counts: map<string, nat>, ks: set<string>, k: string)
    requires ks <= counts.Keys && k in ks
    ensures SumOver(counts, ks) == counts[k] + SumOver(counts, ks - {k})
    decreases |ks|
  {
    var j :| j in ks && SumOver(counts, ks) == counts[j] + SumOver(counts, ks - {j});
    if j != k {
      SumOverRemove(counts, ks - {j}, k);
      SumOverRemove(counts, ks - {k}, j);
      assert ks - {j} - {k} == ks - {k} - {j};
    }
  }

  /** Only the counts of the keys summed over matter. */
  lemma {:induction false} SumOverAgree(a: map<string, nat>, b: map<string, nat>, ks: set<string>)
    requires ks <= a.Keys && ks <= b.Keys
    requires forall k :: k in ks ==> a[k] == b[k]
    ensures SumOver(a, ks) == SumOver(b, ks)
    decreases |ks|
  {
    if ks != {} {
      var k :| k in ks && SumOver(a, ks) == a[k] + SumOver(a, ks - {k});
      SumOverRemove(b, ks, k);
      SumOverAgree(a, b, ks - {k});
    }
  }

  /** Incrementing one count raises the total by one. */
  lemma Increment(counts: map<string, nat>, k: string)
    ensures TotalCount(counts[k := (if k in counts then counts[k] else 0) + 1]) == TotalCount(counts) + 1
  {
    var c := if k in counts then counts[k] else 0;
    var next := counts[k := c + 1];
    SumOverRemove(next, next.Keys, k);
    assert next.Keys - {k} == counts.Keys - {k};
    SumOverAgree(next, counts, counts.Keys - {k});
    if k in counts {
      SumOverRemove(counts, counts.Keys, k);
    } else {
      assert counts.Keys - {k} == counts.Keys;
    }
  }

  /** Every key is counted exactly once: the counts add up to the number of keys. */
  lemma {:induction false} TallyTotal(keys: seq<string>)
    ensures TotalCount(Tally(keys)) == |keys|
    decreases |keys|
  {
    if |keys| > 0 {
      var init := keys[..|keys| - 1];
      TallyTotal(init);
      Increment(Tally(init), keys[|keys| - 1]);
    }
  }

  // ---------------------------------------------------------------------------
  // The two charts

  function KeysOf(items: seq<WatchedItem>, key: WatchedItem -> string): (keys: seq<string>)
    ensures |keys| == |items|
    ensures forall i :: 0 <= i < |items| ==> keys[i] == key(items[i])
  {
    seq(|items|, i requires 0 <= i < |items| => key(items[i]))
  }

  function HasKey(key: WatchedItem -> string, k: string): WatchedItem -> bool {
    (x: WatchedItem) => key(x) == k
  }

  /** How often a key occurs is how many entries carry it. */
  lemma {:induction false} KeyOccurrences(items: seq<WatchedItem>, key: WatchedItem -> string, k: string)
    ensures multiset(KeysOf(items, key))[k] == |Filter(items, HasKey(key, k))|
    decreases |items|
  {
    if |items| > 0 {
      KeyOccurrences(items[1..], key, k);
      assert KeysOf(items, key) == [key(items[0])] + KeysOf(items[1..], key);
    }
  }

  /** Entries counted per key: every key of an entry appears, with the number
      of entries carrying it, and the counts sum to the number of entries. */
  function Chart(items: seq<WatchedItem>, key: WatchedItem -> string): (counts: map<string, nat>)
    ensures forall k :: k in counts <==> exists x :: x in items && key(x) == k
    ensures forall k :: k in counts ==> counts[k] == |Filter(items, HasKey(key, k))|
    ensures TotalCount(counts) == |items|
  {
    var keys := KeysOf(items, key);
    forall k | k in keys
      ensures exists x :: x in items && key(x) == k
    {
      var i :| 0 <= i < |keys| && keys[i] == k;
      assert items[i] in items;
    }
    forall k ensures multiset(keys)[k] == |Filter(items, HasKey(key, k))| {
      KeyOccurrences(items, key, k);
    }
    TallyTotal(keys);
    Tally(keys)
  }

  function GenreOf(x: WatchedItem): string {
    x.genre
  }

  /** The month of a viewing: the first seven characters of its date
      (`YYYY-MM`). */
  function MonthOf(x: WatchedItem): (month: string)
    ensures month <= x.watchedDate
    ensures |x.watchedDate| >= 7 ==> |month| == 7
  {
    Prefix(x.watchedDate, 7)
  }

  function GenreChart(items: seq<WatchedItem>): (counts: map<string, nat>)
    ensures forall g :: g in counts <==> exists x :: x in items && x.genre == g
    ensures forall g :: g in counts ==> counts[g] == |Filter(items, HasKey(GenreOf, g))|
    ensures TotalCount(counts) == |items|
  {
    Chart(items, GenreOf)
  }

  function MonthChart(items: seq<WatchedItem>): (counts: map<string, nat>)
    ensures forall m :: m in counts <==> exists x :: x in items && MonthOf(x) == m
    ensures forall m :: m in counts ==> counts[m] == |Filter(items, HasKey(MonthOf, m))|
    ensures TotalCount(counts) == |items|
  {
    Chart(items, MonthOf)
  }
}
