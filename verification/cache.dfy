/**
 * The cache wrapper: key namespacing, the default time-to-live, and the
 * three operations get, set and del over the abstract store. The store's
 * only failure (a write rejected at the capacity bound) surfaces as `false`;
 * get and del cannot fail.
 */
module CacheUtil {
  import opened Types
  import opened NodeStore

  /** Time-to-live in seconds used when a call gives none (or gives 0). */
  const DefaultTtl: int := 900

  /** A prefix takes part in the key only when it is present and non-empty (JS truthiness). */
  predicate HasPrefix(prefix: Option<string>) {
    prefix.Some? && prefix.value != ""
  }

  /** The full key: `prefix:key`, or the key itself when there is no prefix. */
  function FullKey(key: string, prefix: Option<string>): (full: string)
    ensures !HasPrefix(prefix) ==> full == key
    ensures HasPrefix(prefix) ==>
      && |full| == |prefix.value| + 1 + |key|
      && full[..|prefix.value|] == prefix.value
      && full[|prefix.value|] == ':'
      && full[|prefix.value| + 1..] == key
  {
    if HasPrefix(prefix) then prefix.value + ":" + key else key
  }

  /** Under one fixed prefix, distinct keys have distinct full keys. */
  lemma FullKeyInjective(k1: string, k2: string, prefix: Option<string>)
    ensures FullKey(k1, prefix) == FullKey(k2, prefix) <==> k1 == k2
  {
    if FullKey(k1, prefix) == FullKey(k2, prefix) && HasPrefix(prefix) {
      var n := |prefix.value| + 1;
      assert k1 == FullKey(k1, prefix)[n..];
    }
  }

  /**
   * Namespaces are not isolated from one another: a key containing ':' under
   * one prefix, or an unprefixed key, can name the same entry as another
   * prefix/key pair.
   */
  lemma FullKeysCanCollide()
    ensures FullKey("b:c", Some("a")) == FullKey("c", Some("a:b"))
    ensures FullKey("project:x", None) == FullKey("x", Some("project"))
    ensures FullKey("k", Some("")) == FullKey("k", None)
  {
  }

  /** `options?.ttl || defaultTTL`: an absent or zero ttl falls back to the default. */
  function EffectiveTtl(ttl: Option<int>): (t: int)
    ensures t != 0
    ensures ttl.Some? && ttl.value != 0 ==> t == ttl.value
    ensures ttl.None? || ttl.value == 0 ==> t == DefaultTtl
  {
    if ttl.Some? && ttl.value != 0 then ttl.value else DefaultTtl
  }

  /** The absolute expiry, in milliseconds, of an entry written at `now`. */
  function ExpiryAt(now: int, ttl: Option<int>): int {
    now + EffectiveTtl(ttl) * 1000
  }

  /** The `key` argument of del: one key, or a list of keys. */
  datatype Keys = One(key: string) | Many(keys: seq<string>)

  /** `Array.isArray(key) ? key : [key]` */
  function KeyList(k: Keys): (ks: seq<string>)
    ensures k.One? ==> ks == [k.key]
    ensures k.Many? ==> ks == k.keys
  {
    match k
    case One(key) => [key]
    case Many(keys) => keys
  }

  /** The full keys of a key list, all under the same prefix. */
  function FullKeys(keys: seq<string>, prefix: Option<string>): (full: seq<string>)
    ensures |full| == |keys|
    ensures forall i :: 0 <= i < |keys| ==> full[i] == FullKey(keys[i], prefix)
  {
    if keys == [] then [] else [FullKey(keys[0], prefix)] + FullKeys(keys[1..], prefix)
  }

  function Elements(s: seq<string>): set<string> {
    set x | x in s
  }

  /** A list has at most as many distinct elements as it has positions. */
  lemma {:induction false} ElementsBound(s: seq<string>)
    ensures |Elements(s)| <= |s|
  {
    if s != [] {
      ElementsBound(s[1..]);
      assert Elements(s) == {s[0]} + Elements(s[1..]);
    }
  }

  /** What del removes from the store. */
  function DeletedKeys(k: Keys, options: CacheOptions): set<string> {
    Elements(FullKeys(KeyList(k), options.prefix))
  }

  /** `del(k)` and `del([k])` delete the same entry. */
  lemma DelOneIsDelList(k: string, options: CacheOptions)
    ensures DeletedKeys(One(k), options) == DeletedKeys(Many([k]), options) == {FullKey(k, options.prefix)}
  {
    assert FullKeys([k], options.prefix) == [FullKey(k, options.prefix)];
  }

  /**
   * The count del returns: zero exactly when none of the keys is stored,
   * never more than the number of distinct full keys nor the number of keys
   * given; afterwards none of the keys can be read.
   */
  lemma DelCount<V>(m: Store<V>, k: Keys, options: CacheOptions, now: int)
    ensures RemovedCount(m, DeletedKeys(k, options)) <= |DeletedKeys(k, options)| <= |KeyList(k)|
    ensures RemovedCount(m, DeletedKeys(k, options)) == 0 <==>
              forall i :: 0 <= i < |KeyList(k)| ==> FullKey(KeyList(k)[i], options.prefix) !in m
    ensures forall i :: 0 <= i < |KeyList(k)| ==>
              Lookup(RemoveKeys(m, DeletedKeys(k, options)), FullKey(KeyList(k)[i], options.prefix), now) == None
  {
    var keys := KeyList(k);
    var ks := DeletedKeys(k, options);
    var full := FullKeys(keys, options.prefix);
    RemoveKeysEffect(m, ks);
    ElementsBound(full);
    if RemovedCount(m, ks) == 0 {
      forall i | 0 <= i < |keys| ensures FullKey(keys[i], options.prefix) !in m {
        assert full[i] in ks && full[i] !in m.Keys * ks;
      }
    } else {
      var x :| x in m.Keys * ks;
      var i :| 0 <= i < |full| && full[i] == x;
      assert FullKey(keys[i], options.prefix) in m;
    }
  }

  /** Without a prefix every key is its own full key. */
  lemma FullKeysUnprefixed(keys: seq<string>)
    ensures FullKeys(keys, None) == keys
  {
  }

  /** `del(["a", "b", "c"])` where only a and c are stored removes two entries. */
  lemma DelCountExample<V>(m: Store<V>)
    requires m.Keys == {"a", "c"}
    ensures RemovedCount(m, DeletedKeys(Many(["a", "b", "c"]), NoOptions)) == 2
  {
    var keys := ["a", "b", "c"];
    FullKeysUnprefixed(keys);
    assert keys[0] == "a" && keys[2] == "c";
    assert m.Keys * Elements(keys) == m.Keys;
    assert |m.Keys| == 2 by {
      assert "a" != "c";
    }
  }

  /** A value written is read back under the same key and prefix until its ttl elapses. */
  lemma SetThenGet<V>(m: Store<V>, key: string, v: V, options: CacheOptions, now: int, later: int)
    requires Admits(m, FullKey(key, options.prefix))
    requires now <= later <= ExpiryAt(now, options.ttl)
    ensures Lookup(Write(m, FullKey(key, options.prefix), Entry(v, ExpiryAt(now, options.ttl))),
                   FullKey(key, options.prefix), later) == Some(v)
  {
  }

  /**
   * After the ttl of an admitted write elapses the value is no longer read,
   * whether or not a sweep ran, and the read drops it.
   */
  lemma ExpiredIsAbsent<V>(m: Store<V>, key: string, v: V, options: CacheOptions, now: int, later: int)
    requires Admits(m, FullKey(key, options.prefix))
    requires later > ExpiryAt(now, options.ttl)
    ensures var m' := Write(m, FullKey(key, options.prefix), Entry(v, ExpiryAt(now, options.ttl)));
      && Lookup(m', FullKey(key, options.prefix), later) == None
      && FullKey(key, options.prefix) !in Prune(m', FullKey(key, options.prefix), later)
  {
  }

  /**
   * Of two writes to the same full key the second wins, value and expiry
   * alike, unless the store is full by then; a refused second write leaves
   * the first in place.
   */
  lemma LastWriteWins<V>(m: Store<V>, k: string, e1: Entry<V>, e2: Entry<V>)
    ensures Admits(Write(m, k, e1), k) ==> Write(Write(m, k, e1), k, e2) == Write(m, k, e2)
    ensures !Admits(Write(m, k, e1), k) ==> Write(Write(m, k, e1), k, e2) == Write(m, k, e1)
  {
    if Admits(Write(m, k, e1), k) {
      assert |m| <= |Write(m, k, e1)| by {
        if Admits(m, k) {
          assert m.Keys <= m[k := e1].Keys;
          SubsetCard(m.Keys, m[k := e1].Keys);
        }
      }
    }
  }

  /** The cache wrapper, holding the store it wraps. */
  class Cache<V> {
    var store: Store<V>

    ghost predicate Valid()
      reads this
    {
      Bounded(store)
    }

    constructor ()
      ensures Valid() && store == map[]
    {
      store := map[];
    }

    /** Reads a live entry; an expired one is dropped and reads as absent. */
    method Get(key: string, options: CacheOptions, now: int) returns (value: Option<V>)
      requires Valid()
      modifies this
      ensures Valid()
      ensures value == Lookup(old(store), FullKey(key, options.prefix), now)
      ensures store == Prune(old(store), FullKey(key, options.prefix), now)
    {
      var fullKey := FullKey(key, options.prefix);
      value := Lookup(store, fullKey, now);
      store := Prune(store, fullKey, now);
    }

    /** Writes with the chosen ttl; `false` when the store rejects the write. */
    method Set(key: string, value: V, options: CacheOptions, now: int) returns (success: bool)
      requires Valid()
      modifies this
      ensures Valid()
      ensures success == Admits(old(store), FullKey(key, options.prefix))
      ensures store == Write(old(store), FullKey(key, options.prefix), Entry(value, ExpiryAt(now, options.ttl)))
    {
      var fullKey := FullKey(key, options.prefix);
      var ttl := EffectiveTtl(options.ttl);
      WriteKeepsBound(store, fullKey, Entry(value, now + ttl * 1000));
      success := Admits(store, fullKey);
      store := Write(store, fullKey, Entry(value, now + ttl * 1000));
    }

    /** Deletes every listed key under the one prefix and counts the entries removed. */
    method Del(key: Keys, options: CacheOptions) returns (deletedCount: nat)
      requires Valid()
      modifies this
      ensures Valid()
      ensures deletedCount == RemovedCount(old(store), DeletedKeys(key, options))
      ensures store == RemoveKeys(old(store), DeletedKeys(key, options))
    {
      var fullKeys := FullKeys(KeyList(key), options.prefix);
      RemoveKeysEffect(store, Elements(fullKeys));
      deletedCount := RemovedCount(store, Elements(fullKeys));
      store := RemoveKeys(store, Elements(fullKeys));
    }
  }
}
