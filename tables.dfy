/** A table with a UNIQUE key written with SQLite's `INSERT OR REPLACE`: the conflicting row is
    deleted and the new row is appended, so the table behaves like a map from keys to rows. */
module Tables {
  import opened Common

  datatype Entry<K, V> = Entry(key: K, value: V)

  /** No two rows share a key (the UNIQUE constraint). */
  predicate UniqueKeys<K(==), V>(t: seq<Entry<K, V>>)
  {
    forall i, j | 0 <= i < j < |t| :: t[i].key != t[j].key
  }

  /** The row stored under `k`, if any. */
  function Lookup<K(==), V>(t: seq<Entry<K, V>>, k: K): (r: Option<V>)
    ensures r.None? <==> forall i | 0 <= i < |t| :: t[i].key != k
    ensures r.Some? ==> Entry(k, r.value) in t
  {
    if |t| == 0 then None
    else if t[|t| - 1].key == k then Some(t[|t| - 1].value)
    else Lookup(t[..|t| - 1], k)
  }

  /** The rows whose key is not `k`, in their original order. */
  function Without<K(==), V>(t: seq<Entry<K, V>>, k: K): (r: seq<Entry<K, V>>)
    ensures forall i | 0 <= i < |r| :: r[i].key != k && r[i] in t
    ensures forall e | e in t && e.key != k :: e in r
    ensures |r| <= |t|
  {
    if |t| == 0 then []
    else
      var rest := Without(t[..|t| - 1], k);
      assert t == t[..|t| - 1] + [t[|t| - 1]];
      if t[|t| - 1].key == k then rest else rest + [t[|t| - 1]]
  }

  /** `INSERT OR REPLACE`: drop the row with the same key, then append the new one. */
  function Upsert<K(==), V>(t: seq<Entry<K, V>>, k: K, v: V): (r: seq<Entry<K, V>>)
    ensures |r| >= 1 && r[|r| - 1] == Entry(k, v)
  {
    Without(t, k) + [Entry(k, v)]
  }

  /** Dropping a key from a table with unique keys keeps the keys unique. */
  lemma {:induction false} WithoutUnique<K, V>(t: seq<Entry<K, V>>, k: K)
    requires UniqueKeys(t)
    ensures UniqueKeys(Without(t, k))
  {
    if |t| > 0 {
      var init := t[..|t| - 1];
      assert UniqueKeys(init);
      WithoutUnique(init, k);
      var rest := Without(init, k);
      forall i | 0 <= i < |rest| ensures rest[i].key != t[|t| - 1].key {
        var j :| 0 <= j < |init| && init[j] == rest[i];
        assert t[j] == rest[i];
      }
    }
  }

  /** Dropping `k` forgets `k` and keeps every other key's row. */
  lemma {:induction false} WithoutLookup<K, V>(t: seq<Entry<K, V>>, k: K, k2: K)
    ensures Lookup(Without(t, k), k2) == if k2 == k then None else Lookup(t, k2)
  {
    if |t| > 0 {
      WithoutLookup(t[..|t| - 1], k, k2);
    }
  }

  /** The map view of an upsert: the written key now holds the new row, every other key is unchanged,
      the keys stay unique, and the table grows by one row exactly when the key was new. */
  lemma UpsertIsMapUpdate<K, V>(t: seq<Entry<K, V>>, k: K, v: V)
    requires UniqueKeys(t)
    ensures UniqueKeys(Upsert(t, k, v))
    ensures Lookup(Upsert(t, k, v), k) == Some(v)
    ensures forall k2 | k2 != k :: Lookup(Upsert(t, k, v), k2) == Lookup(t, k2)
    ensures |Upsert(t, k, v)| == |t| + (if Lookup(t, k).None? then 1 else 0)
  {
    WithoutUnique(t, k);
    forall k2 | k2 != k ensures Lookup(Upsert(t, k, v), k2) == Lookup(t, k2) {
      var u := Upsert(t, k, v);
      assert u[..|u| - 1] == Without(t, k);
      WithoutLookup(t, k, k2);
    }
    WithoutSize(t, k);
  }

  /** In a table with unique keys, dropping a key removes exactly one row if it was present. */
  lemma {:induction false} WithoutSize<K, V>(t: seq<Entry<K, V>>, k: K)
    requires UniqueKeys(t)
    ensures |Without(t, k)| == |t| - (if Lookup(t, k).Some? then 1 else 0)
  {
    if |t| > 0 {
      var init := t[..|t| - 1];
      assert UniqueKeys(init);
      WithoutSize(init, k);
      if t[|t| - 1].key == k {
        assert Lookup(init, k).None? by {
          forall i | 0 <= i < |init| ensures init[i].key != k {
            assert t[i] == init[i];
          }
        }
      }
    }
  }

  /** Writing a batch of rows one after another. */
  function UpsertAll<K(==), V>(t: seq<Entry<K, V>>, rows: seq<Entry<K, V>>): (r: seq<Entry<K, V>>)
  {
    if |rows| == 0 then t
    else Upsert(UpsertAll(t, rows[..|rows| - 1]), rows[|rows| - 1].key, rows[|rows| - 1].value)
  }

  /** After a batch the table keeps unique keys, and each key holds the batch's last row for it,
      or its old row when the batch did not mention it: the last write wins. */
  lemma {:induction false} UpsertAllLastWriteWins<K, V>(t: seq<Entry<K, V>>, rows: seq<Entry<K, V>>, k: K)
    requires UniqueKeys(t)
    ensures UniqueKeys(UpsertAll(t, rows))
    ensures Lookup(UpsertAll(t, rows), k) == if Lookup(rows, k).Some? then Lookup(rows, k) else Lookup(t, k)
  {
    if |rows| > 0 {
      var last := rows[|rows| - 1];
      UpsertAllLastWriteWins(t, rows[..|rows| - 1], k);
      UpsertIsMapUpdate(UpsertAll(t, rows[..|rows| - 1]), last.key, last.value);
    }
  }

  /** The lookup finds the last row written under a key. */
  lemma {:induction false} LookupLast<K, V>(t: seq<Entry<K, V>>, k: K, i: int)
    requires 0 <= i < |t| && t[i].key == k
    requires forall j | i < j < |t| :: t[j].key != k
    ensures Lookup(t, k) == Some(t[i].value)
  {
    if i < |t| - 1 {
      LookupLast(t[..|t| - 1], k, i);
    }
  }
}
