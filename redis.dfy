/**
  The string cache the services talk to (Redis, through a string template):
  GET, SET with or without a time-to-live, SET-IF-ABSENT with a time-to-live,
  and DEL. Time is an integer clock in milliseconds; an entry's time-to-live
  is kept as the absolute instant at which it stops being visible, and an
  entry past that instant reads as absent, exactly as a key Redis has evicted.
 */
module Redis {
  import opened Wrappers
  import opened Entity

  const SECOND: nat := 1000
  const MINUTE: nat := 60 * SECOND

  /** The key layout `cache:shop:<id>`, `lock:shop:<id>` and the fixed key `cache:shopType:`. */
  datatype Key = CacheShop(id: int) | LockShop(id: int) | CacheShopType

  /**
    A stored string, through the JSON codec: the empty string (the
    "confirmed absent" marker), the lock flag "1", a serialized shop, a
    serialized logical-expiry wrapper `{data, expireTime}`, and a serialized
    shop-type list. No serialized document is blank, so only `Blank` is.
   */
  datatype Value =
    | Blank
    | LockFlag
    | ShopJson(shop: Shop)
    | RedisDataJson(data: Option<Shop>, expireTime: int)
    | ShopTypeListJson(types: seq<ShopType>)

  /** A stored value and the instant it expires at; `None` means no time-to-live. */
  datatype Entry = Entry(value: Value, expiresAt: Option<int>)

  /** The nullable string a GET returns is not blank: present and not the empty string. */
  predicate NotBlank(v: Option<Value>)
  {
    v.Some? && !v.value.Blank?
  }

  predicate Live(e: Entry, now: int)
  {
    e.expiresAt.None? || now < e.expiresAt.value
  }

  /** GET at instant `now`. */
  function Lookup(entries: map<Key, Entry>, k: Key, now: int): (v: Option<Value>)
    ensures v.Some? <==> k in entries && Live(entries[k], now)
    ensures v.Some? ==> v.value == entries[k].value
  {
    if k in entries && Live(entries[k], now) then Some(entries[k].value) else None
  }

  /** SET at instant `now`, with a time-to-live in milliseconds or none (which clears any earlier one). */
  function Put(entries: map<Key, Entry>, k: Key, v: Value, ttl: Option<nat>, now: int): (r: map<Key, Entry>)
    ensures forall t :: Lookup(r, k, t) == Some(v) <==> ttl.None? || t < now + ttl.value
    ensures forall t :: !(ttl.None? || t < now + ttl.value) ==> Lookup(r, k, t).None?
    ensures Agree(entries, r, {k})
  {
    entries[k := Entry(v, if ttl.Some? then Some(now + ttl.value) else None)]
  }

  /** SET-IF-ABSENT with a time-to-live: the first component says whether the key was written. */
  function PutIfAbsent(entries: map<Key, Entry>, k: Key, v: Value, ttl: nat, now: int): (r: (bool, map<Key, Entry>))
    ensures r.0 <==> Lookup(entries, k, now).None?
    ensures r.0 ==> r.1 == Put(entries, k, v, Some(ttl), now)
    ensures !r.0 ==> r.1 == entries
  {
    if Lookup(entries, k, now).None? then (true, Put(entries, k, v, Some(ttl), now)) else (false, entries)
  }

  /** DEL: the key is gone and every other key keeps its entry. */
  function Del(entries: map<Key, Entry>, k: Key): (r: map<Key, Entry>)
    ensures k !in r
    ensures forall k' :: k' in entries && k' != k ==> k' in r && r[k'] == entries[k']
    ensures forall k' :: k' in r ==> k' in entries
  {
    entries - {k}
  }

  /** The two caches hold the same entries on every key outside `ks`. */
  predicate Agree(before: map<Key, Entry>, after: map<Key, Entry>, ks: set<Key>)
  {
    before - ks == after - ks
  }

  /** The cache server: one mutable key space shared by every service. */
  class RedisCache {
    var entries: map<Key, Entry>

    constructor (initial: map<Key, Entry>)
      ensures entries == initial
    {
      entries := initial;
    }

    method Get(k: Key, now: int) returns (v: Option<Value>)
      ensures v.Some? <==> k in entries && Live(entries[k], now)
      ensures v.Some? ==> v.value == entries[k].value
    {
      if k in entries && Live(entries[k], now) {
        v := Some(entries[k].value);
      } else {
        v := None;
      }
    }

    method Set(k: Key, v: Value, ttl: Option<nat>, now: int)
      modifies this
      ensures entries == Put(old(entries), k, v, ttl, now)
    {
      entries := entries[k := Entry(v, if ttl.Some? then Some(now + ttl.value) else None)];
    }

    method SetIfAbsent(k: Key, v: Value, ttl: nat, now: int) returns (written: bool)
      modifies this
      ensures (written, entries) == PutIfAbsent(old(entries), k, v, ttl, now)
    {
      var current := Get(k, now);
      written := current.None?;
      if written {
        Set(k, v, Some(ttl), now);
      }
    }

    method Delete(k: Key)
      modifies this
      ensures entries == Del(old(entries), k)
    {
      entries := entries - {k};
    }
  }
}
