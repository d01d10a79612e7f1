/** The process-wide `nCache` store (index.js:7-8) as far as `cacheMW` uses
    it: node-cache's `get(key)` and `set(key, value, ttl)` over an explicit
    clock in seconds instead of wall time. */
module NodeCache {
  import opened JsValues

  /** When an entry stops being returned; a TTL of 0 means never. */
  datatype Expiry = Never | At(t: int)

  datatype Entry = Entry(value: Body, expiry: Expiry)

  /** An entry is still valid strictly before its expiry time. */
  predicate Live(e: Entry, now: int) {
    e.expiry.Never? || now < e.expiry.t
  }

  /** The expiry node-cache gives an entry set at `now` with `ttl` seconds. */
  function ExpiryFor(now: int, ttl: nat): Expiry {
    if ttl == 0 then Never else At(now + ttl)
  }

  /** What `get(key)` returns at time `now`: the value of a live entry, else nothing. */
  function Lookup(m: map<string, Entry>, now: int, key: string): Option<Body> {
    if key in m && Live(m[key], now) then Some(m[key].value) else None
  }

  /** The store after `set(key, value, ttl)` at time `now`. */
  function Put(m: map<string, Entry>, now: int, key: string, value: Body, ttl: nat): map<string, Entry> {
    m[key := Entry(value, ExpiryFor(now, ttl))]
  }

  /** The store after `get(key)` at time `now`: node-cache deletes an expired entry it reads. */
  function Evicted(m: map<string, Entry>, now: int, key: string): map<string, Entry> {
    if key in m && !Live(m[key], now) then m - {key} else m
  }

  /** `set` then `get` under the same key returns the value until the TTL has
      run out, and nothing from then on; a TTL of 0 never runs out. */
  lemma PutThenLookup(m: map<string, Entry>, now: int, key: string, value: Body, ttl: nat, later: int)
    ensures Lookup(Put(m, now, key, value, ttl), later, key)
         == if ttl == 0 || later < now + ttl then Some(value) else None
  {
  }

  /** `set` under one key leaves what `get` returns for every other key unchanged. */
  lemma PutLeavesOtherKeys(m: map<string, Entry>, now: int, key: string, value: Body, ttl: nat, other: string, later: int)
    requires other != key
    ensures Lookup(Put(m, now, key, value, ttl), later, other) == Lookup(m, later, other)
  {
  }

  /** A second `set` under the same key replaces the first entirely. */
  lemma PutOverwrites(m: map<string, Entry>, t1: int, t2: int, key: string, v1: Body, v2: Body, ttl1: nat, ttl2: nat)
    ensures Put(Put(m, t1, key, v1, ttl1), t2, key, v2, ttl2) == Put(m, t2, key, v2, ttl2)
  {
  }

  /** Evicting on read is invisible: every later `get` at or after that time
      returns what it would have returned without the eviction. */
  lemma EvictionInvisible(m: map<string, Entry>, now: int, key: string, other: string, later: int)
    requires now <= later
    ensures Lookup(Evicted(m, now, key), later, other) == Lookup(m, later, other)
  {
  }

  /** Once an entry is no longer returned it stays gone until it is set again. */
  lemma ExpiredStaysExpired(m: map<string, Entry>, now: int, later: int, key: string)
    requires now <= later && Lookup(m, now, key) == None
    ensures Lookup(m, later, key) == None
  {
  }

  /** The single store instance with its own clock. */
  class Store {
    var entries: map<string, Entry>
    var now: int

    /** `new NodeCache()`: an empty store whose clock starts at `start`. */
    constructor (start: int)
      ensures entries == map[] && now == start
    {
      entries := map[];
      now := start;
    }

    /** `get(key)`: the live value under `key`, evicting the entry when it has expired. */
    method Get(key: string) returns (r: Option<Body>)
      modifies this`entries
      ensures r == Lookup(old(entries), now, key)
      ensures entries == Evicted(old(entries), now, key)
      ensures forall k :: Lookup(entries, now, k) == Lookup(old(entries), now, k)
    {
      if key in entries && Live(entries[key], now) {
        r := Some(entries[key].value);
      } else {
        if key in entries {
          entries := entries - {key};
        }
        r := None;
      }
    }

    /** `set(key, value, ttl)`: inserts or overwrites the entry for `key`. */
    method Set(key: string, value: Body, ttl: nat)
      modifies this`entries
      ensures entries == Put(old(entries), now, key, value, ttl)
      ensures Lookup(entries, now, key) == Some(value)
      ensures forall k :: k != key ==> Lookup(entries, now, k) == Lookup(old(entries), now, k)
    {
      entries := entries[key := Entry(value, ExpiryFor(now, ttl))];
    }

    /** Wall time passing: `dt` seconds. */
    method Tick(dt: nat)
      modifies this`now
      ensures now == old(now) + dt
    {
      now := now + dt;
    }
  }
}
