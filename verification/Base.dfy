/** Option and Result, used for nullable columns and for the error returns of the service. */
module Wrappers {
  datatype Option<+T> = None | Some(value: T)

  datatype Result<+T, +E> = Ok(value: T) | Err(error: E)
}

/**
 One monotone clock shared by the process and the database. An instant and a duration are both
 natural numbers of nanoseconds, the resolution of Rust's `Duration`.
 */
module Clock {
  const SEC: nat := 1_000_000_000

  const U64_MAX: nat := 0xFFFF_FFFF_FFFF_FFFF

  /** `Duration::as_secs` on a duration, `get_current_timestamp` on an instant. */
  function WholeSecs(t: nat): nat {
    t / SEC
  }

  /** `u64::saturating_add`. */
  function SaturatingAdd(a: nat, b: nat): nat {
    if a + b <= U64_MAX then a + b else U64_MAX
  }

  /** `u64::saturating_sub`. */
  function SaturatingSub(a: nat, b: nat): nat {
    if b <= a then a - b else 0
  }
}

/**
 The time-to-live cache behind the jti, nonce, TOTP and grace caches: a map from key to value and
 insertion time. An expired entry may stay in the map; it is treated as absent.
 */
module TtlCaches {
  import opened Wrappers

  datatype Entry<+V> = Entry(value: V, at: nat)

  predicate Live<K, V>(entries: map<K, Entry<V>>, ttl: nat, key: K, now: nat) {
    key in entries && now < entries[key].at + ttl
  }

  /** `entry(key).or_insert(value)`: a live entry is kept as it is, anything else is replaced. */
  function Recorded<K, V>(entries: map<K, Entry<V>>, ttl: nat, key: K, value: V, now: nat): map<K, Entry<V>> {
    if Live(entries, ttl, key, now) then entries else entries[key := Entry(value, now)]
  }

  class TtlCache<K(==), V> {
    const ttl: nat
    var entries: map<K, Entry<V>>

    constructor (ttl: nat)
      ensures this.ttl == ttl && entries == map[]
    {
      this.ttl := ttl;
      entries := map[];
    }

    method Get(key: K, now: nat) returns (r: Option<V>)
      ensures r.Some? <==> key in entries && now < entries[key].at + ttl
      ensures r.Some? ==> r.value == entries[key].value
    {
      if key in entries && now < entries[key].at + ttl {
        r := Some(entries[key].value);
      } else {
        r := None;
      }
    }

    /** `insert` overwrites and restarts the lifetime. */
    method Insert(key: K, value: V, now: nat)
      modifies this
      ensures entries == old(entries)[key := Entry(value, now)]
    {
      entries := entries[key := Entry(value, now)];
    }

    /** `entry(key).or_insert(value)`; `added` is the entry's `is_fresh`. */
    method OrInsert(key: K, value: V, now: nat) returns (added: bool)
      modifies this
      ensures added <==> !(key in old(entries) && now < old(entries)[key].at + ttl)
      ensures entries == if added then old(entries)[key := Entry(value, now)] else old(entries)
      ensures entries == Recorded(old(entries), ttl, key, value, now)
      ensures Live(entries, ttl, key, now) || ttl == 0
    {
      var found := Get(key, now);
      added := found.None?;
      if added {
        Insert(key, value, now);
      }
    }
  }
}
