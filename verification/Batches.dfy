/**
 What `SELECT ... ORDER BY k1, k2, k3 FOR UPDATE SKIP LOCKED LIMIT n` may return.
 Four sweeps of the system are such statements. Rows with equal sort keys come in any order.
 */
module Batches {

  datatype SortKey = SortKey(first: int, second: int, third: int)

  predicate Before(a: SortKey, b: SortKey) {
    || a.first < b.first
    || (a.first == b.first && a.second < b.second)
    || (a.first == b.first && a.second == b.second && a.third < b.third)
  }

  predicate Distinct<K(==)>(s: seq<K>) {
    forall i, j :: 0 <= i < j < |s| ==> s[i] != s[j]
  }

  ghost predicate Ordered<K>(keys: map<K, SortKey>, batch: seq<K>)
    requires forall k | k in batch :: k in keys
  {
    forall i, j :: 0 <= i < j < |batch| ==> !Before(keys[batch[j]], keys[batch[i]])
  }

  /** No row left behind sorts before a row that was taken. */
  ghost predicate TakesTheFirst<K>(keys: map<K, SortKey>, batch: seq<K>)
    requires forall k | k in batch :: k in keys
  {
    forall k, t | k in keys && k !in batch && t in batch :: !Before(keys[k], keys[t])
  }

  ghost predicate IsBatch<K>(keys: map<K, SortKey>, limit: nat, batch: seq<K>) {
    && (forall k | k in batch :: k in keys)
    && |batch| == (if |keys| <= limit then |keys| else limit)
    && Distinct(batch)
    && Ordered(keys, batch)
    && TakesTheFirst(keys, batch)
  }

  function Elements<K>(s: seq<K>): (r: set<K>) {
    set k | k in s
  }

  lemma {:induction false} DistinctCardinality<K>(s: seq<K>)
    requires Distinct(s)
    ensures |Elements(s)| == |s|
  {
    if s != [] {
      var rest := s[..|s| - 1];
      DistinctCardinality(rest);
      assert s == rest + [s[|s| - 1]];
      assert Elements(s) == Elements(rest) + {s[|s| - 1]};
    }
  }

  lemma SubsetCardinality<K>(a: set<K>, b: set<K>)
    requires a <= b
    ensures |a| <= |b|
    ensures |a| == |b| ==> a == b
  {
    assert |b| == |a| + |b - a| by {
      assert b == a + (b - a);
    }
  }

  /** A row that is eligible but not taken proves that the batch is full. */
  lemma LeftBehindMeansFull<K>(keys: map<K, SortKey>, limit: nat, batch: seq<K>, k: K)
    requires IsBatch(keys, limit, batch)
    requires k in keys && k !in batch
    ensures |batch| == limit && |keys| > limit
  {
    DistinctCardinality(batch);
    assert Elements(batch) <= keys.Keys - {k};
    SubsetCardinality(Elements(batch), keys.Keys - {k});
  }

  /** A row that is eligible is taken, or the batch is full of rows that do not come after it. */
  lemma TakenOrFull<K>(keys: map<K, SortKey>, limit: nat, batch: seq<K>, k: K)
    requires IsBatch(keys, limit, batch) && k in keys && k !in batch
    ensures |batch| == limit
    ensures forall b | b in batch ::
              && b in keys
              && (|| keys[b].first < keys[k].first
                  || (keys[b].first == keys[k].first && keys[b].second < keys[k].second)
                  || (&& keys[b].first == keys[k].first && keys[b].second == keys[k].second
                      && keys[b].third <= keys[k].third))
  {
    LeftBehindMeansFull(keys, limit, batch, k);
    forall b | b in batch ensures !Before(keys[k], keys[b]) {
    }
  }

  /** The rows that the ORDER BY does not put after the given one, itself included. */
  function NotAfter<K>(keys: map<K, SortKey>, k: K): set<K>
    requires k in keys
  {
    set j | j in keys && !Before(keys[k], keys[j])
  }

  /**
   A batch that leaves an eligible row behind takes as many rows as the limit says, all of them not after that row.
   */
  lemma BatchBringsForward<K>(waiting: map<K, SortKey>, eligible: map<K, SortKey>, limit: nat, batch: seq<K>, k: K)
    requires forall j | j in eligible :: j in waiting && waiting[j] == eligible[j]
    requires IsBatch(eligible, limit, batch) && k in eligible && k !in batch
    ensures |NotAfter(waiting - Elements(batch), k)| == |NotAfter(waiting, k)| - limit
  {
    var taken, before := Elements(batch), NotAfter(waiting, k);
    LeftBehindMeansFull(eligible, limit, batch, k);
    DistinctCardinality(batch);
    assert taken <= before;
    assert NotAfter(waiting - taken, k) == before - taken;
    assert before == (before - taken) + taken;
  }

  lemma FewerNotAfter<K>(a: map<K, SortKey>, b: map<K, SortKey>, k: K)
    requires k in a && k in b && a[k] == b[k]
    requires forall j | j in NotAfter(b, k) :: j in a && a[j] == b[j]
    ensures |NotAfter(b, k)| <= |NotAfter(a, k)|
  {
    SubsetCardinality(NotAfter(b, k), NotAfter(a, k));
  }

  lemma {:induction false} MinimumExists<K>(keys: map<K, SortKey>, s: set<K>) returns (m: K)
    requires s != {} && s <= keys.Keys
    ensures m in s && forall k | k in s :: !Before(keys[k], keys[m])
    decreases |s|
  {
    var x :| x in s;
    m := x;
    if s != {x} {
      var n := MinimumExists(keys, s - {x});
      m := if Before(keys[n], keys[x]) then n else x;
    }
  }

  /** The database's selection; it shows that a batch always exists. */
  method Select<K(==)>(keys: map<K, SortKey>, limit: nat) returns (batch: seq<K>)
    ensures IsBatch(keys, limit, batch)
  {
    batch := [];
    var left := keys.Keys;
    while left != {} && |batch| < limit
      invariant left <= keys.Keys
      invariant |batch| + |left| == |keys| && |batch| <= limit
      invariant forall k :: k in keys ==> (k in left <==> k !in batch)
      invariant forall k :: k in batch ==> k in keys
      invariant Distinct(batch) && Ordered(keys, batch)
      invariant forall k, t | k in left && t in batch :: !Before(keys[k], keys[t])
      decreases |left|
    {
      ghost var least := MinimumExists(keys, left);
      var m :| m in left && forall k | k in left :: !Before(keys[k], keys[m]);
      batch := batch + [m];
      left := left - {m};
    }
  }
}
