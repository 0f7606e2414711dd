/**
 What a time-to-live cache guarantees when every accepted use of a key was recorded with `or_insert`
 and found the key absent: two uses of one key lie at least one lifetime apart.
 */
module ReplayGuard {
  import opened TtlCaches

  datatype Use<+K> = Use(key: K, recorded: nat)

  /** Every use so far is still in the cache, under an entry at least as young. */
  ghost predicate Remembered<K, V>(entries: map<K, Entry<V>>, uses: seq<Use<K>>, now: nat) {
    forall i :: 0 <= i < |uses| ==>
      uses[i].key in entries && uses[i].recorded <= entries[uses[i].key].at && uses[i].recorded <= now
  }

  ghost predicate Spaced<K>(ttl: nat, uses: seq<Use<K>>) {
    forall i, j :: 0 <= i < j < |uses| && uses[i].key == uses[j].key ==> uses[i].recorded + ttl <= uses[j].recorded
  }

  ghost predicate GuardOk<K, V>(entries: map<K, Entry<V>>, ttl: nat, uses: seq<Use<K>>, now: nat) {
    Remembered(entries, uses, now) && Spaced(ttl, uses)
  }

  lemma GuardedUse<K, V>(entries: map<K, Entry<V>>, ttl: nat, uses: seq<Use<K>>, key: K, value: V, now: nat)
    requires GuardOk(entries, ttl, uses, now) && !Live(entries, ttl, key, now)
    ensures GuardOk(entries[key := Entry(value, now)], ttl, uses + [Use(key, now)], now)
  {
  }
}
