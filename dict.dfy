/** A Python dict literal with string keys, kept as its insertion-ordered list of entries. */
module Dict {
  import opened Wrappers

  /** `list(d.keys())`, in insertion order. */
  function Keys<V>(table: seq<(string, V)>): (r: seq<string>)
    ensures |r| == |table|
    ensures forall i :: 0 <= i < |table| ==> r[i] == table[i].0
  {
    if table == [] then [] else [table[0].0] + Keys(table[1..])
  }

  /** No key occurs twice, as in any dict. */
  predicate DistinctKeys<V>(table: seq<(string, V)>) {
    forall i, j :: 0 <= i < j < |table| ==> table[i].0 != table[j].0
  }

  /** `d.get(key)`: the value stored under `key`, or None when the key is absent. */
  function Get<V>(table: seq<(string, V)>, key: string): Option<V> {
    if table == [] then None
    else if table[0].0 == key then Some(table[0].1)
    else Get(table[1..], key)
  }

  /** A lookup succeeds exactly for the listed keys, and then yields the value of an entry with
      that key. */
  lemma {:induction false} GetSpec<V>(table: seq<(string, V)>, key: string)
    ensures Get(table, key).Some? <==> key in Keys(table)
    ensures Get(table, key).Some? ==> exists i :: 0 <= i < |table| && table[i] == (key, Get(table, key).value)
  {
    if table != [] {
      assert Keys(table) == [table[0].0] + Keys(table[1..]);
      if table[0].0 == key {
        assert table[0] == (key, Get(table, key).value);
      } else {
        GetSpec(table[1..], key);
        if Get(table, key).Some? {
          var i :| 0 <= i < |table[1..]| && table[1..][i] == (key, Get(table, key).value);
          assert table[i + 1] == (key, Get(table, key).value);
        }
      }
    }
  }

  /** In a dict every listed entry is what a lookup of its key returns. */
  lemma {:induction false} GetEntry<V>(table: seq<(string, V)>, i: nat)
    requires DistinctKeys(table)
    requires i < |table|
    ensures Get(table, table[i].0) == Some(table[i].1)
  {
    if i > 0 {
      assert table[0].0 != table[i].0;
      assert DistinctKeys(table[1..]) by {
        forall a, b | 0 <= a < b < |table[1..]| ensures table[1..][a].0 != table[1..][b].0 {
          assert table[1..][a] == table[a + 1] && table[1..][b] == table[b + 1];
        }
      }
      GetEntry(table[1..], i - 1);
    }
  }
}
