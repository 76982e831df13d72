/** Tables built by upserting a list of entries into an empty table, one after the other. */
module Upserts {
  ghost function TableOf<K, V>(entries: seq<(K, V)>): map<K, V> {
    if entries == [] then map[]
    else TableOf(entries[..|entries| - 1])[entries[|entries| - 1].0 := entries[|entries| - 1].1]
  }

  /** Entry i is the last one for its key. */
  ghost predicate LastForKey<K(!new), V(!new)>(entries: seq<(K, V)>, i: int) {
    0 <= i < |entries| && forall j :: i < j < |entries| ==> entries[j].0 != entries[i].0
  }

  ghost predicate DistinctKeys<K(!new), V(!new)>(entries: seq<(K, V)>) {
    forall i, j :: 0 <= i < j < |entries| ==> entries[i].0 != entries[j].0
  }

  /** The table holds, for each key, the value of the last entry for it ... */
  lemma {:induction false} LastWriterWins<K(!new), V(!new)>(entries: seq<(K, V)>, i: int)
    requires LastForKey(entries, i)
    ensures entries[i].0 in TableOf(entries) && TableOf(entries)[entries[i].0] == entries[i].1
  {
    var n := |entries| - 1;
    if i < n {
      LastWriterWins(entries[..n], i);
      assert entries[n].0 != entries[i].0;
    }
  }

  /** ... and no other key. */
  lemma {:induction false} EveryKeyWritten<K(!new), V(!new)>(entries: seq<(K, V)>, k: K) returns (i: int)
    requires k in TableOf(entries)
    ensures LastForKey(entries, i) && entries[i].0 == k
  {
    i := |entries| - 1;
    if k != entries[i].0 {
      var n := i;
      i := EveryKeyWritten(entries[..n], k);
      assert forall j :: i < j < n ==> entries[..n][j].0 != entries[..n][i].0;
    }
  }

  /** With distinct keys the table has one row per entry. */
  lemma {:induction false} TableOfDistinct<K(!new), V(!new)>(entries: seq<(K, V)>)
    requires DistinctKeys(entries)
    ensures |TableOf(entries)| == |entries|
    ensures forall i :: 0 <= i < |entries| ==>
              entries[i].0 in TableOf(entries) && TableOf(entries)[entries[i].0] == entries[i].1
    ensures forall k :: k in TableOf(entries) ==> exists i :: 0 <= i < |entries| && entries[i].0 == k
  {
    forall i | 0 <= i < |entries|
      ensures entries[i].0 in TableOf(entries) && TableOf(entries)[entries[i].0] == entries[i].1
    {
      assert LastForKey(entries, i);
      LastWriterWins(entries, i);
    }
    forall k | k in TableOf(entries) ensures exists i :: 0 <= i < |entries| && entries[i].0 == k {
      var i := EveryKeyWritten(entries, k);
      assert entries[i].0 == k;
    }
    if entries != [] {
      var init := entries[..|entries| - 1];
      TableOfDistinct(init);
      var k := entries[|entries| - 1].0;
      assert k !in TableOf(init);
      assert TableOf(entries).Keys == TableOf(init).Keys + {k};
    }
  }

  lemma {:induction false} KeyInTable<K(!new), V(!new)>(entries: seq<(K, V)>, i: nat)
    requires i < |entries|
    ensures entries[i].0 in TableOf(entries)
  {
    var n := |entries| - 1;
    if i < n { KeyInTable(entries[..n], i); }
  }

  lemma {:induction false} TableSize<K(!new), V(!new)>(entries: seq<(K, V)>)
    ensures |TableOf(entries)| <= |entries|
  {
    if entries != [] {
      var n := |entries| - 1;
      TableSize(entries[..n]);
      assert TableOf(entries).Keys == TableOf(entries[..n]).Keys + {entries[n].0};
    }
  }

  /** A key written twice leaves the table short of the entries. */
  lemma {:induction false} TableOfRepeated<K(!new), V(!new)>(entries: seq<(K, V)>, i: nat, j: nat)
    requires i < j < |entries| && entries[i].0 == entries[j].0
    ensures |TableOf(entries)| < |entries|
  {
    var n := |entries| - 1;
    var init := entries[..n];
    assert TableOf(entries).Keys == TableOf(init).Keys + {entries[n].0};
    if j < n {
      TableOfRepeated(init, i, j);
    } else {
      TableSize(init);
      KeyInTable(init, i);
      assert TableOf(entries).Keys == TableOf(init).Keys;
    }
  }
}
