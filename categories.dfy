/**
 * The manager keeps its services as a map from category to the services of
 * that category. Group builds that map from (category, service) pairs the
 * way repeated `append` into the map does.
 */
module Categories {
  /** `g[c]`, or the empty sequence (Go's nil slice) when `c` is absent. */
  function Lookup<T>(g: map<string, seq<T>>, c: string): seq<T>
  {
    if c in g then g[c] else []
  }

  /** The map obtained by appending each entry, in order, to the slice of its category. */
  function Group<T>(entries: seq<(string, T)>): map<string, seq<T>>
  {
    if entries == [] then map[]
    else
      var prefix := Group(entries[..|entries| - 1]);
      var e := entries[|entries| - 1];
      prefix[e.0 := Lookup(prefix, e.0) + [e.1]]
  }

  /** The elements of the entries in category `c`, in their original order. */
  function Filter<T>(entries: seq<(string, T)>, c: string): seq<T>
  {
    if entries == [] then []
    else (if entries[0].0 == c then [entries[0].1] else []) + Filter(entries[1..], c)
  }

  lemma {:induction false} FilterAppend<T>(entries: seq<(string, T)>, e: (string, T), c: string)
    ensures Filter(entries + [e], c) == Filter(entries, c) + (if e.0 == c then [e.1] else [])
  {
    if entries == [] {
      assert entries + [e] == [e];
      assert [e][1..] == [];
    } else {
      assert (entries + [e])[1..] == entries[1..] + [e];
      FilterAppend(entries[1..], e, c);
    }
  }

  /**
   * Each category's slice holds exactly that category's entries in
   * declaration order, and a category is a key iff some entry has it.
   */
  lemma {:induction false} GroupIsFilter<T>(entries: seq<(string, T)>, c: string)
    ensures Lookup(Group(entries), c) == Filter(entries, c)
    ensures c in Group(entries) <==> exists k :: 0 <= k < |entries| && entries[k].0 == c
  {
    if entries != [] {
      var n := |entries|;
      var prefix := entries[..n - 1];
      GroupIsFilter(prefix, c);
      FilterAppend(prefix, entries[n - 1], c);
      assert prefix + [entries[n - 1]] == entries;
      if exists k :: 0 <= k < n && entries[k].0 == c {
        var k :| 0 <= k < n && entries[k].0 == c;
        if k < n - 1 {
          assert prefix[k].0 == c;
        }
      }
      if c in Group(entries) && entries[n - 1].0 != c {
        var k :| 0 <= k < n - 1 && prefix[k].0 == c;
        assert entries[k].0 == c;
      }
    }
  }

  /** An entry's element is among the elements filtered by its own category. */
  lemma {:induction false} FilterContains<T>(entries: seq<(string, T)>, k: nat)
    requires k < |entries|
    ensures entries[k].1 in Filter(entries, entries[k].0)
  {
    if k > 0 {
      FilterContains(entries[1..], k - 1);
      assert entries[1..][k - 1] == entries[k];
    }
  }

  /** Every grouped entry is stored in the slice under its own category. */
  lemma GroupContains<T>(entries: seq<(string, T)>, c: string, x: T)
    requires (c, x) in entries
    ensures c in Group(entries) && x in Group(entries)[c]
  {
    var k :| 0 <= k < |entries| && entries[k] == (c, x);
    FilterContains(entries, k);
    GroupIsFilter(entries, c);
  }

  ghost function PickKey<T>(g: map<string, seq<T>>): string
    requires g.Keys != {}
  {
    var c :| c in g.Keys; c
  }

  /** The number of elements over all categories. */
  ghost function TotalLength<T>(g: map<string, seq<T>>): nat
    decreases g.Keys
  {
    if g.Keys == {} then 0
    else
      var c := PickKey(g);
      assert (g - {c}).Keys < g.Keys;
      |g[c]| + TotalLength(g - {c})
  }

  /** The total may be computed by taking out any one category first. */
  lemma {:induction false} TotalLengthRemove<T>(g: map<string, seq<T>>, c: string)
    requires c in g
    ensures TotalLength(g) == |g[c]| + TotalLength(g - {c})
    decreases g.Keys
  {
    var p := PickKey(g);
    if p != c {
      assert (g - {p}).Keys < g.Keys;
      assert (g - {c}).Keys < g.Keys;
      TotalLengthRemove(g - {p}, c);
      TotalLengthRemove(g - {c}, p);
      assert g - {p} - {c} == g - {c} - {p};
    }
  }

  lemma TotalLengthUpdate<T>(g: map<string, seq<T>>, c: string, v: seq<T>)
    ensures TotalLength(g[c := v]) + |Lookup(g, c)| == TotalLength(g) + |v|
  {
    TotalLengthRemove(g[c := v], c);
    assert g[c := v] - {c} == g - {c};
    if c in g {
      TotalLengthRemove(g, c);
    } else {
      assert g - {c} == g;
    }
  }

  /** Grouping neither loses nor duplicates entries. */
  lemma {:induction false} GroupTotal<T>(entries: seq<(string, T)>)
    ensures TotalLength(Group(entries)) == |entries|
  {
    if entries != [] {
      var n := |entries|;
      GroupTotal(entries[..n - 1]);
      var prefix := Group(entries[..n - 1]);
      var e := entries[n - 1];
      TotalLengthUpdate(prefix, e.0, Lookup(prefix, e.0) + [e.1]);
    }
  }
}
