/**
 * The key/value store underneath the cache wrapper (the NodeCache library),
 * kept abstract: a map from full key to a value and an absolute expiry
 * instant, holding at most MaxKeys entries. Time is an explicit parameter
 * `now`, in milliseconds.
 */
module NodeStore {
  import opened Types

  /** The entry limit the wrapper configures (`maxKeys: 10000`). */
  const MaxKeys: nat := 10000

  datatype Entry<V> = Entry(value: V, expiresAt: int)

  type Store<V> = map<string, Entry<V>>

  predicate Bounded<V>(m: Store<V>) {
    |m| <= MaxKeys
  }

  /** An entry is served while its expiry instant has not passed. */
  predicate Live<V>(m: Store<V>, k: string, now: int) {
    k in m && now <= m[k].expiresAt
  }

  /** What a read at `now` returns. */
  function Lookup<V>(m: Store<V>, k: string, now: int): Option<V> {
    if Live(m, k, now) then Some(m[k].value) else None
  }

  /** A read drops the entry it finds expired (lazy expiry). */
  function Prune<V>(m: Store<V>, k: string, now: int): Store<V> {
    if k in m && m[k].expiresAt < now then m - {k} else m
  }

  /**
   * A write is admitted only while the store holds fewer than MaxKeys
   * entries: the count is checked before the key is looked at, so at the
   * bound even an overwrite is refused (ECACHEFULL).
   */
  predicate Admits<V>(m: Store<V>, k: string) {
    |m| < MaxKeys
  }

  /** The store after a write: replaced or inserted if admitted, unchanged if rejected. */
  function Write<V>(m: Store<V>, k: string, e: Entry<V>): Store<V> {
    if Admits(m, k) then m[k := e] else m
  }

  /** The store after deleting a set of keys. */
  function RemoveKeys<V>(m: Store<V>, ks: set<string>): Store<V> {
    m - ks
  }

  /** How many of the keys a deletion actually removes. */
  function RemovedCount<V>(m: Store<V>, ks: set<string>): nat {
    |m.Keys * ks|
  }

  /** Every operation keeps the store within its bound. */
  lemma WriteKeepsBound<V>(m: Store<V>, k: string, e: Entry<V>)
    requires Bounded(m)
    ensures Bounded(Write(m, k, e))
    ensures |Write(m, k, e)| <= |m| + 1
  {
    if k in m {
      assert m[k := e].Keys == m.Keys;
    }
  }

  /** A write is rejected exactly at the bound, and a rejected write leaves the store as it was. */
  lemma RejectedWriteChangesNothing<V>(m: Store<V>, k: string, e: Entry<V>)
    requires Bounded(m)
    ensures !Admits(m, k) <==> |m| == MaxKeys
    ensures !Admits(m, k) ==> Write(m, k, e) == m
  {
  }

  /** The lazy expiry a read performs is not observable by any read at the same instant. */
  lemma PruneIsUnobservable<V>(m: Store<V>, k: string, now: int, j: string)
    ensures Lookup(Prune(m, k, now), j, now) == Lookup(m, j, now)
    ensures Prune(m, k, now).Keys <= m.Keys
  {
  }

  /** Deleting only shrinks the store and removes each named key. */
  lemma RemoveKeysEffect<V>(m: Store<V>, ks: set<string>)
    ensures RemoveKeys(m, ks).Keys == m.Keys - ks
    ensures |RemoveKeys(m, ks)| + RemovedCount(m, ks) == |m|
    ensures RemovedCount(m, ks) <= |ks|
  {
    var gone := m.Keys * ks;
    assert m.Keys == (m.Keys - ks) + gone;
    assert (m.Keys - ks) !! gone;
    assert gone <= ks;
    SubsetCard(gone, ks);
  }

  lemma SubsetCard<T>(a: set<T>, b: set<T>)
    requires a <= b
    ensures |a| <= |b|
  {
    assert b == a + (b - a);
  }
}
