/**
 * Python's insertion-ordered dict, as a sequence of (key, value) entries.
 * Writing an existing key replaces its value in place; writing a new key
 * appends it. Used where the comprehensions build a dict as their result.
 */
module PyDict {
  import opened Values

  type Entries<K, V> = seq<(K, V)>

  predicate DistinctKeys<K(==), V>(d: Entries<K, V>) {
    forall i, j :: 0 <= i < j < |d| ==> d[i].0 != d[j].0
  }

  function Keys<K(==), V>(d: Entries<K, V>): set<K> {
    set i | 0 <= i < |d| :: d[i].0
  }

  /** Position of key `k` in `d`, or |d| when absent. */
  function IndexOf<K(==), V>(d: Entries<K, V>, k: K): (n: nat)
    ensures n <= |d|
    ensures n < |d| ==> d[n].0 == k
    ensures forall i :: 0 <= i < n ==> d[i].0 != k
  {
    if |d| == 0 then 0 else if d[0].0 == k then 0 else 1 + IndexOf(d[1..], k)
  }

  /** Lookup, `d.get(k)`. */
  function Get<K(==), V>(d: Entries<K, V>, k: K): Option<V> {
    var n := IndexOf(d, k);
    if n < |d| then Some(d[n].1) else None
  }

  /** `d[k] = v`. */
  function Put<K(==,!new), V>(d: Entries<K, V>, k: K, v: V): (r: Entries<K, V>)
    ensures DistinctKeys(d) ==> DistinctKeys(r)
    ensures Keys(r) == Keys(d) + {k}
    ensures Get(r, k) == Some(v)
    ensures forall k' :: k' != k ==> Get(r, k') == Get(d, k')
    // existing entries keep their positions: only a new key grows the dict, at the end
    ensures |r| == if k in Keys(d) then |d| else |d| + 1
    ensures forall i :: 0 <= i < |d| ==> r[i].0 == d[i].0
  {
    var n := IndexOf(d, k);
    var r := if n < |d| then d[n := (k, v)] else d + [(k, v)];
    PutLookups(d, k, v, r);
    PutKeys(d, k, v, r);
    r
  }

  lemma PutLookups<K, V>(d: Entries<K, V>, k: K, v: V, r: Entries<K, V>)
    requires r == if IndexOf(d, k) < |d| then d[IndexOf(d, k) := (k, v)] else d + [(k, v)]
    ensures Get(r, k) == Some(v)
    ensures forall k' :: k' != k ==> Get(r, k') == Get(d, k')
  {
    var n := IndexOf(d, k);
    IndexOfIs(r, k, n);
    forall k' | k' != k ensures Get(r, k') == Get(d, k') {
      var m := IndexOf(d, k');
      if m < |d| {
        IndexOfIs(r, k', m);
      } else {
        IndexOfIs(r, k', |r|);
      }
    }
  }

  lemma PutKeys<K, V>(d: Entries<K, V>, k: K, v: V, r: Entries<K, V>)
    requires r == if IndexOf(d, k) < |d| then d[IndexOf(d, k) := (k, v)] else d + [(k, v)]
    ensures DistinctKeys(d) ==> DistinctKeys(r)
    ensures Keys(r) == Keys(d) + {k}
    ensures |r| == if k in Keys(d) then |d| else |d| + 1
    ensures forall i :: 0 <= i < |d| ==> r[i].0 == d[i].0
  {
    PutKeySet(d, k, v, r);
    KeysIndexOf(d, k);
    PutShape(d, k, v, r);
  }

  lemma PutShape<K, V>(d: Entries<K, V>, k: K, v: V, r: Entries<K, V>)
    requires r == if IndexOf(d, k) < |d| then d[IndexOf(d, k) := (k, v)] else d + [(k, v)]
    ensures DistinctKeys(d) ==> DistinctKeys(r)
    ensures |r| == if IndexOf(d, k) < |d| then |d| else |d| + 1
    ensures forall i :: 0 <= i < |d| ==> r[i].0 == d[i].0
  {
    var n := IndexOf(d, k);
    if n < |d| {
      assert forall i :: 0 <= i < |d| ==> r[i].0 == d[i].0;
    } else {
      assert forall i :: 0 <= i < |d| ==> r[i] == d[i] && d[i].0 != k;
    }
  }

  lemma PutKeySet<K, V>(d: Entries<K, V>, k: K, v: V, r: Entries<K, V>)
    requires r == if IndexOf(d, k) < |d| then d[IndexOf(d, k) := (k, v)] else d + [(k, v)]
    ensures Keys(r) == Keys(d) + {k}
  {
    var n := IndexOf(d, k);
    if n < |d| {
      SameKeys(d, r);
      assert d[n].0 == k;
    } else {
      KeysAppend(d, k, v);
    }
  }

  /** Entries with the same keys position by position have the same key set. */
  lemma SameKeys<K, V>(d: Entries<K, V>, r: Entries<K, V>)
    requires |r| == |d| && forall i :: 0 <= i < |d| ==> r[i].0 == d[i].0
    ensures Keys(r) == Keys(d)
  {
    forall x | x in Keys(r) ensures x in Keys(d) {
      var i :| 0 <= i < |r| && r[i].0 == x;
      assert d[i].0 == x;
    }
  }

  lemma KeysAppend<K, V>(d: Entries<K, V>, k: K, v: V)
    ensures Keys(d + [(k, v)]) == Keys(d) + {k}
  {
    var r := d + [(k, v)];
    forall x | x in Keys(r) ensures x in Keys(d) + {k} {
      var i :| 0 <= i < |r| && r[i].0 == x;
      if i < |d| { assert d[i].0 == x; }
    }
    forall x | x in Keys(d) ensures x in Keys(r) {
      var i :| 0 <= i < |d| && d[i].0 == x;
      assert r[i].0 == x;
    }
    assert r[|d|].0 == k;
  }

  /** IndexOf is determined by the first occurrence. */
  lemma IndexOfIs<K, V>(d: Entries<K, V>, k: K, n: nat)
    requires n <= |d|
    requires n < |d| ==> d[n].0 == k
    requires forall i :: 0 <= i < n ==> d[i].0 != k
    ensures IndexOf(d, k) == n
  {
  }

  lemma KeysIndexOf<K, V>(d: Entries<K, V>, k: K)
    ensures k in Keys(d) <==> IndexOf(d, k) < |d|
  {
    if k in Keys(d) {
      var i :| 0 <= i < |d| && d[i].0 == k;
      assert IndexOf(d, k) <= i;
    }
  }

  /** The dict built by writing each pair in order: `for k, v in pairs: d[k] = v`. */
  function FromPairs<K(==,!new), V>(pairs: seq<(K, V)>): Entries<K, V>
  {
    if |pairs| == 0 then [] else
      var last := pairs[|pairs| - 1];
      Put(FromPairs(pairs[..|pairs| - 1]), last.0, last.1)
  }

  lemma FromPairsSnoc<K(!new), V>(pairs: seq<(K, V)>, p: (K, V))
    ensures FromPairs(pairs + [p]) == Put(FromPairs(pairs), p.0, p.1)
  {
    assert (pairs + [p])[..|pairs|] == pairs;
  }

  /** Building a dict from pairs: its keys are distinct and are exactly the keys written. */
  lemma {:induction false} FromPairsKeys<K(!new), V>(pairs: seq<(K, V)>)
    ensures DistinctKeys(FromPairs(pairs))
    ensures Keys(FromPairs(pairs)) == Keys(pairs)
  {
    if |pairs| > 0 {
      var init := pairs[..|pairs| - 1];
      FromPairsKeys(init);
      KeysOfSnoc(pairs);
    }
  }

  lemma KeysOfSnoc<K, V>(pairs: seq<(K, V)>)
    requires |pairs| > 0
    ensures Keys(pairs) == Keys(pairs[..|pairs| - 1]) + {pairs[|pairs| - 1].0}
  {
    var init := pairs[..|pairs| - 1];
    forall x | x in Keys(pairs) ensures x in Keys(init) + {pairs[|pairs| - 1].0} {
      var i :| 0 <= i < |pairs| && pairs[i].0 == x;
      if i < |init| { assert init[i] == pairs[i]; }
    }
    forall x | x in Keys(init) ensures x in Keys(pairs) {
      var i :| 0 <= i < |init| && init[i].0 == x;
      assert pairs[i] == init[i];
    }
  }

  /** Last write wins: each key maps to the value of the LAST pair that wrote it. */
  lemma {:induction false} FromPairsLastWriteWins<K(!new), V>(pairs: seq<(K, V)>, i: nat)
    requires i < |pairs|
    requires forall j :: i < j < |pairs| ==> pairs[j].0 != pairs[i].0
    ensures Get(FromPairs(pairs), pairs[i].0) == Some(pairs[i].1)
  {
    var init := pairs[..|pairs| - 1];
    if i < |init| {
      assert init[i] == pairs[i];
      FromPairsLastWriteWins(init, i);
    }
  }

  /**
   * Round trip: writing pairs with distinct keys into a fresh dict and reading
   * its entries back gives the same pairs in the same order.
   */
  lemma {:induction false} FromDistinctPairs<K(!new), V>(pairs: seq<(K, V)>)
    requires DistinctKeys(pairs)
    ensures FromPairs(pairs) == pairs
  {
    if |pairs| > 0 {
      var init := pairs[..|pairs| - 1];
      var last := pairs[|pairs| - 1];
      FromDistinctPairs(init);
      forall i | 0 <= i < |init| ensures init[i].0 != last.0 {
        assert init[i] == pairs[i];
      }
      IndexOfIs(init, last.0, |init|);
      assert init + [last] == pairs;
    }
  }
}
