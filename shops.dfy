/**
  The shop read/write service and its three cache strategies:

  - pass-through with a null marker (`PassThrough`), against penetration;
  - a mutex-guarded retry loop (`MutexRound`, `MutexCritical`, `MutexRun`),
    against breakdown;
  - logical expiry with a rebuild handed to a worker (`LogicalExpire`,
    `Rebuild`), against breakdown without blocking readers;

  and the write path (`UpdateShop`): store first, then drop the cache key.

  Each strategy is a function from the cache, the shop table and the clock
  to a `Step`: what the caller gets back, the cache afterwards and how many
  times the table was read. The class `ShopService` performs the same calls
  on the shared `RedisCache` and `ShopTable`, in the order the service makes
  them, and promises to end exactly where the function says.
 */
module Shops {
  import opened Wrappers
  import opened Entity
  import opened Redis
  import opened Mapper

  /** Time-to-live of the "confirmed absent" marker: 2 minutes. */
  const CACHE_NULL_TTL: nat := 2 * MINUTE
  /** Time-to-live of a cached shop under pass-through: 30 minutes. */
  const CACHE_SHOP_TTL: nat := 30 * MINUTE
  /** Base time-to-live of a shop the mutex strategy caches; a jitter of 0 to 9 minutes is added. */
  const MUTEX_SHOP_TTL_BASE: nat := 30
  /** Safety time-to-live of a lock record: 10 seconds. */
  const LOCK_SHOP_TTL: nat := 10 * SECOND
  /** Pause between two lock attempts of the mutex strategy. */
  const RETRY_SLEEP: nat := 50
  /** Simulated rebuild delay, both under the mutex and in the background rebuild. */
  const REBUILD_SLEEP: nat := 200
  /** Logical lifetime, in seconds, the background rebuild gives a shop. */
  const LOGICAL_EXPIRE_SECONDS: nat := 30

  /** What a read returns: the shop, null, or an exception. */
  datatype Reply = Found(shop: Shop) | Null | Thrown

  /** A read's outcome: the reply, the cache afterwards, and the number of table reads. */
  datatype Step = Step(reply: Reply, entries: map<Key, Entry>, loads: nat)

  /** The service-level result the controller sees. */
  datatype ApiResult = Ok(data: Option<Shop>) | Fail(reason: FailReason) | Raised
  datatype FailReason = ShopNotFound | ShopIdRequired

  /** Deserializing a cached string as a shop; any other document fails to decode. */
  function DecodeShop(v: Value): (r: Reply)
    ensures r != Null
    ensures r.Found? <==> v.ShopJson?
    ensures r.Found? ==> v == ShopJson(r.shop)
  {
    if v.ShopJson? then Found(v.shop) else Thrown
  }

  // ---------------------------------------------------------------------------
  // The lock: set-if-absent with a 10 s safety time-to-live, and a plain delete.
  // ---------------------------------------------------------------------------

  /** `tryLock(key)`: succeeds exactly when the key is absent; then it holds "1" for 10 s. */
  function Locked(entries: map<Key, Entry>, key: Key, now: int): (r: (bool, map<Key, Entry>))
    ensures r.0 <==> Lookup(entries, key, now).None?
    ensures r.0 ==> Agree(entries, r.1, {key}) && key in r.1 && r.1[key] == Entry(LockFlag, Some(now + LOCK_SHOP_TTL))
    ensures !r.0 ==> r.1 == entries
  {
    PutIfAbsent(entries, key, LockFlag, LOCK_SHOP_TTL, now)
  }

  /** `unlock(key)`: deletes the key, whoever set it; no ownership token is compared. */
  function Unlocked(entries: map<Key, Entry>, key: Key): (r: map<Key, Entry>)
    ensures key !in r
    ensures Agree(entries, r, {key})
  {
    Del(entries, key)
  }

  /** Every lock record of this shop carries a time-to-live. */
  predicate LockBounded(entries: map<Key, Entry>, id: int)
  {
    LockShop(id) in entries ==> entries[LockShop(id)].expiresAt.Some?
  }

  /** Every lock record in the cache carries a time-to-live, as every `tryLock` writes one. */
  ghost predicate LocksBounded(entries: map<Key, Entry>)
  {
    forall id :: LockBounded(entries, id)
  }

  /** Milliseconds until the lock record of this shop expires; 0 when there is none. */
  function LockRemaining(entries: map<Key, Entry>, id: int, now: int): (r: nat)
    requires LockBounded(entries, id)
    ensures r > 0 <==> Lookup(entries, LockShop(id), now).Some?
  {
    if LockShop(id) in entries && now < entries[LockShop(id)].expiresAt.value
    then entries[LockShop(id)].expiresAt.value - now
    else 0
  }

  // ---------------------------------------------------------------------------
  // Pass-through with the null marker.
  // ---------------------------------------------------------------------------

  /** `queryPassThrough(id)` at instant `now`. */
  function PassThrough(entries: map<Key, Entry>, rows: map<int, Shop>, id: int, now: int): (r: Step)
    // a cached string, blank or not, answers without the table and without a write
    ensures Lookup(entries, CacheShop(id), now).Some? ==> r.loads == 0 && r.entries == entries
    ensures Lookup(entries, CacheShop(id), now) == Some(Blank) ==> r.reply == Null
    ensures NotBlank(Lookup(entries, CacheShop(id), now)) ==> r.reply == DecodeShop(entries[CacheShop(id)].value)
    // a miss reads the table once and caches what it found, or the marker
    ensures Lookup(entries, CacheShop(id), now).None? ==> r.loads == 1
    ensures Lookup(entries, CacheShop(id), now).None? && id !in rows ==>
      r.reply == Null && r.entries == Put(entries, CacheShop(id), Blank, Some(CACHE_NULL_TTL), now)
    ensures Lookup(entries, CacheShop(id), now).None? && id in rows ==>
      r.reply == Found(rows[id]) && r.entries == Put(entries, CacheShop(id), ShopJson(rows[id]), Some(CACHE_SHOP_TTL), now)
    // no other key is touched
    ensures Agree(entries, r.entries, {CacheShop(id)})
  {
    var key := CacheShop(id);
    var shopJson := Lookup(entries, key, now);
    if NotBlank(shopJson) then Step(DecodeShop(shopJson.value), entries, 0)
    else if shopJson.Some? then Step(Null, entries, 0)
    else if id !in rows then Step(Null, Put(entries, key, Blank, Some(CACHE_NULL_TTL), now), 1)
    else Step(Found(rows[id]), Put(entries, key, ShopJson(rows[id]), Some(CACHE_SHOP_TTL), now), 1)
  }

  // ---------------------------------------------------------------------------
  // The mutex strategy: one round of the `while (true)` loop, its critical
  // section, and the whole loop.
  // ---------------------------------------------------------------------------

  /**
    The body of the `try` once the lock is held, followed by its `finally`
    unlock. `e` is the cache as it is when the lock has been taken (another
    reader may have filled the shop key in the meantime); `interrupted` says
    whether the 200 ms rebuild pause is interrupted, which the `catch`
    rethrows; the table is read and the cache written at `now + 200`.
   */
  function MutexCritical(e: map<Key, Entry>, rows: map<int, Shop>, id: int, now: int, jitter: nat, interrupted: bool): (r: Step)
    requires jitter < 10
    // every exit path releases the lock
    ensures LockShop(id) !in r.entries
    ensures Agree(e, r.entries, {CacheShop(id), LockShop(id)})
    // the table is read only when the re-check after locking still misses
    ensures r.loads <= 1
    ensures r.loads == 1 <==> Lookup(e, CacheShop(id), now).None? && !interrupted
    ensures r.loads == 0 ==> Agree(e, r.entries, {LockShop(id)})
    ensures Lookup(e, CacheShop(id), now) == Some(Blank) ==> r.reply == Null
    ensures NotBlank(Lookup(e, CacheShop(id), now)) ==> r.reply == DecodeShop(e[CacheShop(id)].value)
    // an interrupted rebuild pause is rethrown by the `catch`
    ensures Lookup(e, CacheShop(id), now).None? && interrupted ==> r.reply == Thrown
    // what a load caches: the marker for 2 minutes, or the shop for 30 to 39 minutes
    ensures r.loads == 1 && id !in rows ==>
      r.reply == Null && CacheShop(id) in r.entries && r.entries[CacheShop(id)] == Entry(Blank, Some(now + REBUILD_SLEEP + CACHE_NULL_TTL))
    ensures r.loads == 1 && id in rows ==>
      && r.reply == Found(rows[id]) && CacheShop(id) in r.entries
      && r.entries[CacheShop(id)].value == ShopJson(rows[id])
      && r.entries[CacheShop(id)].expiresAt.Some?
      && now + REBUILD_SLEEP + 30 * MINUTE <= r.entries[CacheShop(id)].expiresAt.value <= now + REBUILD_SLEEP + 39 * MINUTE
  {
    var key, lockKey := CacheShop(id), LockShop(id);
    var cacheAgain := Lookup(e, key, now);
    if NotBlank(cacheAgain) then Step(DecodeShop(cacheAgain.value), Unlocked(e, lockKey), 0)
    else if cacheAgain.Some? then Step(Null, Unlocked(e, lockKey), 0)
    else if interrupted then Step(Thrown, Unlocked(e, lockKey), 0)
    else
      var loadedAt := now + REBUILD_SLEEP;
      if id !in rows then
        Step(Null, Unlocked(Put(e, key, Blank, Some(CACHE_NULL_TTL), loadedAt), lockKey), 1)
      else
        Step(Found(rows[id]), Unlocked(Put(e, key, ShopJson(rows[id]), Some((MUTEX_SHOP_TTL_BASE + jitter) * MINUTE), loadedAt), lockKey), 1)
  }

  /** One round of the loop either ends the query or, having lost the lock, sleeps and goes round again. */
  datatype Round = Done(step: Step) | Retry

  /** Round of `queryWithMutex2(id)` at instant `now`; `interrupted` says whether this round's sleep is interrupted. */
  function MutexRound(entries: map<Key, Entry>, rows: map<int, Shop>, id: int, now: int, jitter: nat, interrupted: bool): (r: Round)
    requires jitter < 10
    // a lost lock: someone else holds it, and the round neither loads nor writes
    ensures r.Retry? ==> Lookup(entries, CacheShop(id), now).None? && Lookup(entries, LockShop(id), now).Some?
    ensures r.Retry? <==> !interrupted && Lookup(entries, CacheShop(id), now).None? && Lookup(entries, LockShop(id), now).Some?
    ensures r.Done? && Lookup(entries, LockShop(id), now).Some? ==> r.step.loads == 0 && r.step.entries == entries
    // a cached string answers without the lock: decoded, or null for the marker
    ensures Lookup(entries, CacheShop(id), now).Some? ==>
      r == Done(Step(if NotBlank(Lookup(entries, CacheShop(id), now)) then DecodeShop(entries[CacheShop(id)].value) else Null, entries, 0))
    // a waiting sleep that is interrupted returns null
    ensures interrupted && Lookup(entries, CacheShop(id), now).None? && Lookup(entries, LockShop(id), now).Some? ==>
      r == Done(Step(Null, entries, 0))
    // a won lock runs the critical section on the cache holding the new lock
    ensures Lookup(entries, CacheShop(id), now).None? && Lookup(entries, LockShop(id), now).None? ==>
      r == Done(MutexCritical(Locked(entries, LockShop(id), now).1, rows, id, now, jitter, interrupted))
    // only the shop key and the lock key may change
    ensures r.Done? ==> Agree(entries, r.step.entries, {CacheShop(id), LockShop(id)})
    // a round that took the lock gives it back
    ensures r.Done? && Lookup(entries, CacheShop(id), now).None? && Lookup(entries, LockShop(id), now).None? ==>
      LockShop(id) !in r.step.entries
  {
    var key, lockKey := CacheShop(id), LockShop(id);
    var shopJson := Lookup(entries, key, now);
    if NotBlank(shopJson) then Done(Step(DecodeShop(shopJson.value), entries, 0))
    else if shopJson.Some? then Done(Step(Null, entries, 0))
    else
      var (isLock, locked) := Locked(entries, lockKey, now);
      if !isLock then
        if interrupted then Done(Step(Null, entries, 0)) else Retry
      else
        Done(MutexCritical(locked, rows, id, now, jitter, interrupted))
  }

  /**
    `queryWithMutex2(id)` from round `round` on, at instant `now`. The sleep
    of round `interruptAt` (if any) is interrupted. The loop ends because a
    lock record always expires: each lost round waits 50 ms closer to it.
   */
  function MutexRun(entries: map<Key, Entry>, rows: map<int, Shop>, id: int, now: int, jitter: nat,
                    interruptAt: Option<nat>, round: nat): (r: Step)
    requires jitter < 10
    requires LockBounded(entries, id)
    // a cached string ends the loop in its first round, with no read and no write
    ensures Lookup(entries, CacheShop(id), now).Some? ==> r.loads == 0 && r.entries == entries
    // however many rounds are lost, the table is read at most once, and only
    // the shop key and the lock key may change
    ensures r.loads <= 1
    ensures Agree(entries, r.entries, {CacheShop(id), LockShop(id)})
    decreases LockRemaining(entries, id, now)
  {
    match MutexRound(entries, rows, id, now, jitter, interruptAt == Some(round))
    case Done(s) => s
    case Retry => MutexRun(entries, rows, id, now + RETRY_SLEEP, jitter, interruptAt, round + 1)
  }

  // ---------------------------------------------------------------------------
  // Logical expiry and the background rebuild.
  // ---------------------------------------------------------------------------

  /** A logical-expiry read: the reply, the cache afterwards, and whether a rebuild task was submitted. */
  datatype LogicalStep = LogicalStep(reply: Reply, entries: map<Key, Entry>, rebuild: bool)

  /** The shop embedded in a wrapper, or null when the wrapper holds none. */
  function Embedded(data: Option<Shop>): (r: Reply)
    ensures r != Thrown
    ensures r == Null <==> data.None?
    ensures data.Some? ==> r == Found(data.value)
  {
    if data.Some? then Found(data.value) else Null
  }

  /**
    `queryWithLogicalExpire(id)`. The clock is read twice: `now` for the
    first staleness test and `nowAgain` for the second, which tests the same
    `expireTime` again rather than re-reading the cache.
   */
  function LogicalExpire(entries: map<Key, Entry>, id: int, now: int, nowAgain: int): (r: LogicalStep)
    // null exactly for a blank string or a wrapper without a shop
    ensures r.reply == Null <==>
      !NotBlank(Lookup(entries, CacheShop(id), now)) || (entries[CacheShop(id)].value.RedisDataJson? && entries[CacheShop(id)].value.data.None?)
    ensures NotBlank(Lookup(entries, CacheShop(id), now)) && entries[CacheShop(id)].value.RedisDataJson? ==>
      r.reply == Embedded(entries[CacheShop(id)].value.data)
    // a non-blank string that is not a wrapper has no `expireTime`: the read throws, writing nothing
    ensures NotBlank(Lookup(entries, CacheShop(id), now)) && !entries[CacheShop(id)].value.RedisDataJson? ==>
      r.reply == Thrown && r.entries == entries && !r.rebuild
    // the shop key is never written here; only the lock may be taken
    ensures Agree(entries, r.entries, {LockShop(id)})
    ensures r.entries != entries ==> r.entries == Locked(entries, LockShop(id), now).1 && Locked(entries, LockShop(id), now).0
    // a rebuild is submitted only for a stale wrapper whose lock this read took
    ensures r.rebuild ==>
      && NotBlank(Lookup(entries, CacheShop(id), now))
      && entries[CacheShop(id)].value.RedisDataJson?
      && entries[CacheShop(id)].value.expireTime <= now
      && Lookup(entries, LockShop(id), now).None?
      && r.entries == Locked(entries, LockShop(id), now).1
  {
    var shopJson := Lookup(entries, CacheShop(id), now);
    if !NotBlank(shopJson) then LogicalStep(Null, entries, false)
    else if !shopJson.value.RedisDataJson? then LogicalStep(Thrown, entries, false)
    else
      var shop := Embedded(shopJson.value.data);
      var expireTime := shopJson.value.expireTime;
      if expireTime > now then LogicalStep(shop, entries, false)
      else
        var (isLock, locked) := Locked(entries, LockShop(id), now);
        if !isLock then LogicalStep(shop, entries, false)
        else if expireTime > nowAgain then LogicalStep(shop, locked, false)
        else LogicalStep(shop, locked, true)
  }

  /**
    `saveShop2Redis(id, expireSeconds)` at instant `now`: read the table,
    pause 200 ms (an interrupt ends it there, with nothing written), then
    store the wrapper with `expireTime` `expireSeconds` after the pause and
    no time-to-live.
   */
  function SaveShop(entries: map<Key, Entry>, rows: map<int, Shop>, id: int, expireSeconds: nat, now: int, interrupted: bool): (r: map<Key, Entry>)
    ensures interrupted ==> r == entries
    ensures !interrupted ==>
      && CacheShop(id) in r
      && r[CacheShop(id)] == Entry(RedisDataJson(if id in rows then Some(rows[id]) else None,
                                                 now + REBUILD_SLEEP + expireSeconds * SECOND), None)
    ensures Agree(entries, r, {CacheShop(id)})
  {
    var shop := if id in rows then Some(rows[id]) else None;
    if interrupted then entries
    else
      var savedAt := now + REBUILD_SLEEP;
      Put(entries, CacheShop(id), RedisDataJson(shop, savedAt + expireSeconds * SECOND), None, savedAt)
  }

  /** The submitted task: `saveShop2Redis(id, 30)`, then `unlock` in its `finally`. */
  function Rebuild(entries: map<Key, Entry>, rows: map<int, Shop>, id: int, now: int, interrupted: bool): (r: map<Key, Entry>)
    ensures LockShop(id) !in r
    ensures Agree(entries, r, {CacheShop(id), LockShop(id)})
    ensures interrupted ==> Agree(entries, r, {LockShop(id)})
    ensures !interrupted ==> Lookup(r, CacheShop(id), now + REBUILD_SLEEP).Some?
    ensures !interrupted ==>
      (&& CacheShop(id) in r
       && r[CacheShop(id)] == Entry(RedisDataJson(if id in rows then Some(rows[id]) else None,
                                                  now + REBUILD_SLEEP + LOGICAL_EXPIRE_SECONDS * SECOND), None))
  {
    Unlocked(SaveShop(entries, rows, id, LOGICAL_EXPIRE_SECONDS, now, interrupted), LockShop(id))
  }

  // ---------------------------------------------------------------------------
  // The write path.
  // ---------------------------------------------------------------------------

  /** An update's outcome: accepted or not, the cache and the table afterwards. */
  datatype UpdateStep = UpdateStep(ok: bool, entries: map<Key, Entry>, rows: map<int, Shop>)

  /** `update(shop)`: a shop without id is refused; otherwise the row is updated and the cache key deleted. */
  function UpdateShop(entries: map<Key, Entry>, rows: map<int, Shop>, shop: Shop): (r: UpdateStep)
    ensures !r.ok <==> shop.id.None?
    ensures !r.ok ==> r.entries == entries && r.rows == rows
    ensures r.ok ==> CacheShop(shop.id.value) !in r.entries && Agree(entries, r.entries, {CacheShop(shop.id.value)})
    ensures r.ok ==> r.rows == UpdatedRows(rows, shop)
  {
    if shop.id.None? then UpdateStep(false, entries, rows)
    else UpdateStep(true, Del(entries, CacheShop(shop.id.value)), UpdatedRows(rows, shop))
  }

  /** `queryById`: the logical-expiry read, null turned into a failure. */
  function ToApiResult(reply: Reply): (r: ApiResult)
    ensures r == Fail(ShopNotFound) <==> reply == Null
    ensures r.Ok? <==> reply.Found?
    ensures r.Ok? ==> r.data == Some(reply.shop)
    ensures r == Raised <==> reply == Thrown
  {
    match reply
    case Found(s) => Ok(Some(s))
    case Null => Fail(ShopNotFound)
    case Thrown => Raised
  }

  // ---------------------------------------------------------------------------
  // The service object.
  // ---------------------------------------------------------------------------

  class ShopService {
    const redis: RedisCache
    const db: ShopTable
    /** Ids of rebuild tasks submitted to the worker pool and not yet run, oldest first. */
    var pending: seq<int>

    constructor (redis: RedisCache, db: ShopTable)
      ensures this.redis == redis && this.db == db && pending == []
    {
      this.redis := redis;
      this.db := db;
      pending := [];
    }

    method TryLock(key: Key, now: int) returns (ok: bool)
      modifies redis
      ensures (ok, redis.entries) == Locked(old(redis.entries), key, now)
    {
      ok := redis.SetIfAbsent(key, LockFlag, LOCK_SHOP_TTL, now);
    }

    method Unlock(key: Key)
      modifies redis
      ensures redis.entries == Unlocked(old(redis.entries), key)
    {
      redis.Delete(key);
    }

    method QueryPassThrough(id: int, now: int) returns (r: Reply)
      modifies redis, db`loads
      ensures var s := PassThrough(old(redis.entries), db.rows, id, now);
        r == s.reply && redis.entries == s.entries && db.loads == old(db.loads) + s.loads
    {
      var key := CacheShop(id);
      var shopJson := redis.Get(key, now);
      if NotBlank(shopJson) {
        return DecodeShop(shopJson.value);
      }
      if shopJson.Some? {
        return Null;
      }
      var shop := db.GetById(id);
      if shop.None? {
        redis.Set(key, Blank, Some(CACHE_NULL_TTL), now);
        return Null;
      }
      redis.Set(key, ShopJson(shop.value), Some(CACHE_SHOP_TTL), now);
      r := Found(shop.value);
    }

    /** The `try` block of `queryWithMutex2` with the lock held, and its `finally`. */
    method LoadUnderLock(id: int, now: int, jitter: nat, interrupted: bool) returns (r: Reply)
      requires jitter < 10
      modifies redis, db`loads
      ensures var s := MutexCritical(old(redis.entries), db.rows, id, now, jitter, interrupted);
        r == s.reply && redis.entries == s.entries && db.loads == old(db.loads) + s.loads
    {
      var key := CacheShop(id);
      var cacheAgain := redis.Get(key, now);
      if NotBlank(cacheAgain) {
        r := DecodeShop(cacheAgain.value);
      } else if cacheAgain.Some? {
        r := Null;
      } else if interrupted {
        r := Thrown;
      } else {
        var loadedAt := now + REBUILD_SLEEP;
        var shop := db.GetById(id);
        if shop.None? {
          redis.Set(key, Blank, Some(CACHE_NULL_TTL), loadedAt);
          r := Null;
        } else {
          redis.Set(key, ShopJson(shop.value), Some((MUTEX_SHOP_TTL_BASE + jitter) * MINUTE), loadedAt);
          r := Found(shop.value);
        }
      }
      Unlock(LockShop(id));
    }

    /** One round of the `while (true)` loop of `queryWithMutex2`. */
    method MutexAttempt(id: int, now: int, jitter: nat, interrupted: bool) returns (done: bool, r: Reply)
      requires jitter < 10
      modifies redis, db`loads
      ensures var x := MutexRound(old(redis.entries), db.rows, id, now, jitter, interrupted);
        && done == x.Done?
        && (done ==> r == x.step.reply && redis.entries == x.step.entries && db.loads == old(db.loads) + x.step.loads)
        && (!done ==> redis.entries == old(redis.entries) && db.loads == old(db.loads))
    {
      var shopJson := redis.Get(CacheShop(id), now);
      if NotBlank(shopJson) {
        return true, DecodeShop(shopJson.value);
      }
      if shopJson.Some? {
        return true, Null;
      }
      var isLock := TryLock(LockShop(id), now);
      if !isLock {
        done, r := interrupted, Null;
        return;
      }
      r := LoadUnderLock(id, now, jitter, interrupted);
      done := true;
    }

    /** `queryWithMutex2(id)` starting at instant `start`; the sleep of round `interruptAt` is interrupted. */
    method QueryWithMutex(id: int, start: int, jitter: nat, interruptAt: Option<nat>) returns (r: Reply)
      requires jitter < 10
      requires LockBounded(redis.entries, id)
      modifies redis, db`loads
      ensures var s := MutexRun(old(redis.entries), db.rows, id, start, jitter, interruptAt, 0);
        r == s.reply && redis.entries == s.entries && db.loads == old(db.loads) + s.loads
    {
      var now, round := start, 0;
      var done := false;
      r := Null;
      while !done
        invariant !done ==> redis.entries == old(redis.entries) && db.loads == old(db.loads)
        invariant !done ==>
          MutexRun(old(redis.entries), db.rows, id, start, jitter, interruptAt, 0) ==
          MutexRun(old(redis.entries), db.rows, id, now, jitter, interruptAt, round)
        invariant done ==> var s := MutexRun(old(redis.entries), db.rows, id, start, jitter, interruptAt, 0);
                           r == s.reply && redis.entries == s.entries && db.loads == old(db.loads) + s.loads
        decreases !done, LockRemaining(old(redis.entries), id, now)
      {
        done, r := MutexAttempt(id, now, jitter, interruptAt == Some(round));
        if !done {
          now, round := now + RETRY_SLEEP, round + 1;
        }
      }
    }

    /** `queryWithLogicalExpire(id)`; the two clock readings are `now` and `nowAgain`. */
    method QueryWithLogicalExpire(id: int, now: int, nowAgain: int) returns (r: Reply)
      modifies redis, this`pending
      ensures var s := LogicalExpire(old(redis.entries), id, now, nowAgain);
        r == s.reply && redis.entries == s.entries && pending == old(pending) + (if s.rebuild then [id] else [])
    {
      var shopJson := redis.Get(CacheShop(id), now);
      if !NotBlank(shopJson) {
        return Null;
      }
      if !shopJson.value.RedisDataJson? {
        return Thrown;
      }
      var shop := Embedded(shopJson.value.data);
      var expireTime := shopJson.value.expireTime;
      if expireTime > now {
        return shop;
      }
      var isLock := TryLock(LockShop(id), now);
      if !isLock {
        return shop;
      }
      if expireTime > nowAgain {
        return shop;
      }
      pending := pending + [id];
      r := shop;
    }

    /** `saveShop2Redis(id, expireSeconds)` at instant `now`; `completed` is false when the pause is interrupted. */
    method SaveShopToRedis(id: int, expireSeconds: nat, now: int, interrupted: bool) returns (completed: bool)
      modifies redis, db`loads
      ensures completed == !interrupted
      ensures redis.entries == SaveShop(old(redis.entries), db.rows, id, expireSeconds, now, interrupted)
      ensures db.loads == old(db.loads) + 1
    {
      var shop := db.GetById(id);
      if interrupted {
        return false;
      }
      var savedAt := now + REBUILD_SLEEP;
      redis.Set(CacheShop(id), RedisDataJson(shop, savedAt + expireSeconds * SECOND), None, savedAt);
      completed := true;
    }

    /** A worker runs the oldest submitted rebuild task, if any, starting at instant `now`. */
    method RunNextRebuild(now: int, interrupted: bool)
      modifies redis, db`loads, this`pending
      ensures old(pending) == [] ==> pending == [] && redis.entries == old(redis.entries) && db.loads == old(db.loads)
      ensures old(pending) != [] ==>
        && pending == old(pending)[1..]
        && redis.entries == Rebuild(old(redis.entries), db.rows, old(pending)[0], now, interrupted)
        && db.loads == old(db.loads) + 1
    {
      if pending == [] {
        return;
      }
      var id := pending[0];
      pending := pending[1..];
      var _ := SaveShopToRedis(id, LOGICAL_EXPIRE_SECONDS, now, interrupted);
      Unlock(LockShop(id));
    }

    /** `queryById(id)`, which reads through the logical-expiry strategy. */
    method QueryById(id: int, now: int, nowAgain: int) returns (res: ApiResult)
      modifies redis, this`pending
      ensures var s := LogicalExpire(old(redis.entries), id, now, nowAgain);
        res == ToApiResult(s.reply) && redis.entries == s.entries && pending == old(pending) + (if s.rebuild then [id] else [])
    {
      var shop := QueryWithLogicalExpire(id, now, nowAgain);
      res := ToApiResult(shop);
    }

    /** `update(shop)`: the table first, then the cache key. */
    method Update(shop: Shop) returns (res: ApiResult)
      modifies db`rows, redis
      ensures var u := UpdateShop(old(redis.entries), old(db.rows), shop);
        res == (if u.ok then Ok(None) else Fail(ShopIdRequired)) && redis.entries == u.entries && db.rows == u.rows
    {
      if shop.id.None? {
        return Fail(ShopIdRequired);
      }
      var _ := db.UpdateById(shop);
      redis.Delete(CacheShop(shop.id.value));
      res := Ok(None);
    }
  }
}
