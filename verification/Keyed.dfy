/** Lists of records with an id, read as maps: the projections keep lists and look records up by id. */
module Keyed {

  /** The records by id; a later record of the same id replaces an earlier one. */
  function Index<T, K>(xs: seq<T>, key: T -> K): (m: map<K, T>)
    ensures forall k :: k in m ==> m[k] in xs && key(m[k]) == k
    ensures forall x :: x in xs ==> key(x) in m
  {
    if xs == [] then map[] else
    var last := xs[|xs| - 1];
    Index(xs[..|xs| - 1], key)[key(last) := last]
  }

  predicate Unique<T, K(==)>(xs: seq<T>, key: T -> K) {
    forall i, j :: 0 <= i < j < |xs| ==> key(xs[i]) != key(xs[j])
  }

  /** The place of the first record with an id, or the length when there is none. */
  function Find<T, K(==)>(xs: seq<T>, key: T -> K, k: K): (i: nat)
    ensures i <= |xs| && (i < |xs| ==> key(xs[i]) == k)
    ensures forall j :: 0 <= j < i ==> key(xs[j]) != k
  {
    if xs == [] || key(xs[0]) == k then 0 else 1 + Find(xs[1..], key, k)
  }

  /** Overwrite the record with the same id, or push a new one. */
  function Put<T, K(==)>(xs: seq<T>, key: T -> K, x: T): (r: seq<T>) {
    var i := Find(xs, key, key(x));
    if i < |xs| then xs[i := x] else xs + [x]
  }

  lemma FindSameKeys<T, K>(xs: seq<T>, ys: seq<T>, key: T -> K, k: K)
    requires |xs| == |ys| && forall i :: 0 <= i < |xs| ==> key(xs[i]) == key(ys[i])
    ensures Find(xs, key, k) == Find(ys, key, k)
  {
  }

  lemma FindAppend<T, K>(xs: seq<T>, key: T -> K, x: T, k: K)
    requires Find(xs, key, key(x)) == |xs|
    ensures Find(xs + [x], key, k)
         == if Find(xs, key, k) < |xs| then Find(xs, key, k)
            else if k == key(x) then |xs|
            else |xs| + 1
  {
    var i := Find(xs + [x], key, k);
    assert (xs + [x])[|xs|] == x;
    assert forall j :: 0 <= j < |xs| ==> (xs + [x])[j] == xs[j];
  }

  /** `m` reads `xs` by id. */
  ghost predicate Reads<T, K>(xs: seq<T>, key: T -> K, m: map<K, T>) {
    && (forall i :: 0 <= i < |xs| ==> key(xs[i]) in m && m[key(xs[i])] == xs[i])
    && (forall k :: k in m ==> m[k] in xs && key(m[k]) == k)
  }

  lemma {:induction false} IndexReads<T, K>(xs: seq<T>, key: T -> K)
    requires Unique(xs, key)
    ensures Reads(xs, key, Index(xs, key))
  {
    if xs != [] {
      IndexReads(xs[..|xs| - 1], key);
    }
  }

  lemma ReadsAgree<T, K>(xs: seq<T>, key: T -> K, m: map<K, T>, n: map<K, T>)
    requires Reads(xs, key, m) && Reads(xs, key, n)
    ensures m == n
  {
    assert forall k :: k in m ==> m[k] in xs && k in n && n[k] == m[k];
    assert forall k :: k in n ==> n[k] in xs && k in m;
  }

  lemma PutUnique<T, K>(xs: seq<T>, key: T -> K, x: T)
    requires Unique(xs, key)
    ensures Unique(Put(xs, key, x), key)
  {
  }

  lemma PutReads<T, K>(xs: seq<T>, key: T -> K, x: T, m: map<K, T>)
    requires Unique(xs, key) && Reads(xs, key, m)
    ensures Reads(Put(xs, key, x), key, m[key(x) := x])
  {
    var after, n := Put(xs, key, x), m[key(x) := x];
    var at := Find(xs, key, key(x));
    assert after[at] == x;
    forall k | k in n ensures n[k] in after && key(n[k]) == k {
      if k != key(x) {
        var i :| 0 <= i < |xs| && xs[i] == m[k];
        assert after[i] == xs[i];
      }
    }
  }

  /** Putting a record into the list is putting it into the map. */
  lemma IndexPut<T, K>(xs: seq<T>, key: T -> K, x: T)
    requires Unique(xs, key)
    ensures Unique(Put(xs, key, x), key)
    ensures Index(Put(xs, key, x), key) == Index(xs, key)[key(x) := x]
  {
    PutUnique(xs, key, x);
    IndexReads(xs, key);
    PutReads(xs, key, x, Index(xs, key));
    IndexReads(Put(xs, key, x), key);
    ReadsAgree(Put(xs, key, x), key, Index(Put(xs, key, x), key), Index(xs, key)[key(x) := x]);
  }
}
