/** The memo table that `functools.lru_cache(maxsize=100)` keeps for a
    function: at most 100 argument tuples with their results, ordered from
    least to most recently used. A hit moves the entry to the most recent
    end; a miss stores the new result there, first evicting the least
    recently used entry when the table is full. */
module Lru {
  import opened Results

  const MaxSize := 100

  /** No key appears twice. */
  predicate Distinct<K(==)>(s: seq<K>) {
    forall i, j :: 0 <= i < j < |s| ==> s[i] != s[j]
  }

  /** `s` without `k`, the rest in their order. */
  function Remove<K(==,!new)>(s: seq<K>, k: K): (r: seq<K>)
    ensures forall x :: x in r <==> x in s && x != k
    ensures Distinct(s) ==> Distinct(r)
    ensures Distinct(s) && k in s ==> |r| == |s| - 1
    ensures k !in s ==> r == s
  {
    if s == [] then []
    else if s[0] == k then Remove(s[1..], k)
    else
      var rest := Remove(s[1..], k);
      assert Distinct(s) ==> s[0] !in s[1..] by {
        if Distinct(s) {
          forall i | 0 <= i < |s[1..]| ensures s[1..][i] != s[0] {
            assert s[1..][i] == s[i + 1];
          }
        }
      }
      var r := [s[0]] + rest;
      assert Distinct(s) ==> Distinct(r) by {
        if Distinct(s) {
          forall i, j | 0 <= i < j < |r| ensures r[i] != r[j] {
            if i == 0 {
              assert r[j] in rest;
            } else {
              assert r[i] == rest[i - 1] && r[j] == rest[j - 1];
            }
          }
        }
      }
      r
  }

  /** The keys of a sequence without repetitions are as many as its
      elements. */
  lemma {:induction false} DistinctCardinality<K>(s: seq<K>)
    requires Distinct(s)
    ensures |set x | x in s| == |s|
  {
    if s != [] {
      DistinctCardinality(s[1..]);
      assert (set x | x in s) == {s[0]} + (set x | x in s[1..]);
      assert s[0] !in s[1..] by {
        forall i | 0 <= i < |s[1..]| ensures s[1..][i] != s[0] {
          assert s[1..][i] == s[i + 1];
        }
      }
    }
  }

  class LruCache<K(==,!new), V> {
    /** The stored results, by argument tuple. */
    var entries: map<K, V>
    /** The stored keys, least recently used first. */
    var order: seq<K>

    ghost predicate Valid()
      reads this
    {
      Distinct(order) && (forall k :: k in entries <==> k in order) && |order| <= MaxSize
    }

    constructor ()
      ensures Valid() && entries == map[] && order == []
    {
      entries := map[];
      order := [];
    }

    /** The table never holds more than `MaxSize` results. */
    lemma SizeBound()
      requires Valid()
      ensures |entries| <= MaxSize
    {
      DistinctCardinality(order);
      assert entries.Keys == set x | x in order;
    }

    /** The lookup on a call: a hit returns the stored result and makes it
        the most recently used. */
    method Get(k: K) returns (r: Option<V>)
      requires Valid()
      modifies this
      ensures Valid()
      ensures entries == old(entries)
      ensures k in entries ==> r == Some(entries[k]) && order == Remove(old(order), k) + [k]
      ensures k !in entries ==> r == None && order == old(order)
    {
      if k in entries {
        r := Some(entries[k]);
        order := Remove(order, k) + [k];
      } else {
        r := None;
      }
    }

    /** Storing the result of a miss, evicting the least recently used
        entry when the table is full. */
    method Put(k: K, v: V)
      requires Valid() && k !in entries
      modifies this
      ensures Valid()
      ensures |old(order)| < MaxSize ==>
        entries == old(entries)[k := v] && order == old(order) + [k]
      ensures |old(order)| == MaxSize ==>
        entries == (old(entries) - {old(order)[0]})[k := v] && order == old(order)[1..] + [k]
    {
      if |order| == MaxSize {
        var oldest := order[0];
        assert Distinct(order[1..]) by {
          forall i, j | 0 <= i < j < |order[1..]| ensures order[1..][i] != order[1..][j] {
            assert order[1..][i] == order[i + 1] && order[1..][j] == order[j + 1];
          }
        }
        assert forall x :: x in order[1..] <==> x in order && x != oldest by {
          forall x ensures x in order[1..] <==> x in order && x != oldest {
            if x in order && x != oldest {
              var i :| 0 <= i < |order| && order[i] == x;
              assert order[1..][i - 1] == x;
            }
            if x in order[1..] {
              var i :| 0 <= i < |order[1..]| && order[1..][i] == x;
              assert order[i + 1] == x;
            }
          }
        }
        entries := (entries - {oldest})[k := v];
        order := order[1..] + [k];
      } else {
        entries := entries[k := v];
        order := order + [k];
      }
    }
  }
}
