/**
  What the shop cache strategies guarantee across several calls: the null
  marker shields the table from repeated misses, the mutex loop always ends
  up loading once a crashed holder's lock has expired, a stale logical entry
  triggers one rebuild while the lock lives and is fresh after it, and an
  update is visible to the next read-through.
 */
module ShopProperties {
  import opened Wrappers
  import opened Entity
  import opened Redis
  import opened Mapper
  import opened Shops

  /** The marker lives shorter than a cached shop. */
  lemma NullMarkerShorterThanShop()
    ensures 0 < CACHE_NULL_TTL < CACHE_SHOP_TTL
    ensures CACHE_NULL_TTL < MUTEX_SHOP_TTL_BASE * MINUTE
  {
  }

  /**
    Penetration: a miss for an id the table does not have caches the marker,
    and every read within the next 2 minutes answers null without the table.
   */
  lemma PassThroughShieldsMissingId(entries: map<Key, Entry>, rows: map<int, Shop>, id: int, now: int, later: int)
    requires id !in rows
    requires Lookup(entries, CacheShop(id), now).None?
    requires now <= later < now + CACHE_NULL_TTL
    ensures var first := PassThrough(entries, rows, id, now);
      && first.reply == Null && first.loads == 1
      && var second := PassThrough(first.entries, rows, id, later);
         second.reply == Null && second.loads == 0 && second.entries == first.entries
  {
  }

  /** A shop loaded by pass-through is served from the cache for the next 30 minutes. */
  lemma PassThroughServesCachedShop(entries: map<Key, Entry>, rows: map<int, Shop>, id: int, now: int, later: int)
    requires id in rows
    requires Lookup(entries, CacheShop(id), now).None?
    requires now <= later < now + CACHE_SHOP_TTL
    ensures var first := PassThrough(entries, rows, id, now);
      && first.reply == Found(rows[id]) && first.loads == 1
      && var second := PassThrough(first.entries, rows, id, later);
         second.reply == Found(rows[id]) && second.loads == 0 && second.entries == first.entries
  {
  }

  /**
    The whole mutex loop: it reads the table at most once, touches only the
    shop key and the lock key, and either leaves the cache as it found it
    (answered from the cache, or interrupted while waiting) or has released
    the lock. A load caches the marker or the shop and answers with it.
   */
  lemma {:induction false} MutexRunEffect(entries: map<Key, Entry>, rows: map<int, Shop>, id: int, now: int, jitter: nat,
                                          interruptAt: Option<nat>, round: nat)
    requires jitter < 10
    requires LockBounded(entries, id)
    ensures var r := MutexRun(entries, rows, id, now, jitter, interruptAt, round);
      && r.loads <= 1
      && Agree(entries, r.entries, {CacheShop(id), LockShop(id)})
      && (r.entries == entries || LockShop(id) !in r.entries)
      && (r.loads == 0 ==> Agree(entries, r.entries, {LockShop(id)}))
      && (r.loads == 1 ==> LockShop(id) !in r.entries && CacheShop(id) in r.entries)
      && (r.loads == 1 && id !in rows ==> r.reply == Null && r.entries[CacheShop(id)].value == Blank)
      && (r.loads == 1 && id in rows ==> r.reply == Found(rows[id]) && r.entries[CacheShop(id)].value == ShopJson(rows[id]))
    decreases LockRemaining(entries, id, now)
  {
    match MutexRound(entries, rows, id, now, jitter, interruptAt == Some(round))
    case Done(s) =>
    case Retry =>
      MutexRunEffect(entries, rows, id, now + RETRY_SLEEP, jitter, interruptAt, round + 1);
  }

  /** A cached string ends the mutex loop at once, with no table read and no write. */
  lemma MutexRunCachedAnswer(entries: map<Key, Entry>, rows: map<int, Shop>, id: int, now: int, jitter: nat,
                             interruptAt: Option<nat>, round: nat)
    requires jitter < 10
    requires LockBounded(entries, id)
    requires Lookup(entries, CacheShop(id), now).Some?
    ensures var r := MutexRun(entries, rows, id, now, jitter, interruptAt, round);
      && r.loads == 0 && r.entries == entries
      && r.reply == (if NotBlank(Lookup(entries, CacheShop(id), now)) then DecodeShop(entries[CacheShop(id)].value) else Null)
  {
  }

  /**
    Crash safety of the lock: with the shop key absent and no interrupt, the
    loop waits out any lock record (each one expires) and then loads the
    shop exactly once, caches the answer and releases the lock.
   */
  lemma {:induction false} MutexRunOutlivesStaleLock(entries: map<Key, Entry>, rows: map<int, Shop>, id: int, now: int,
                                                     jitter: nat, round: nat)
    requires jitter < 10
    requires LockBounded(entries, id)
    requires Lookup(entries, CacheShop(id), now).None?
    ensures var r := MutexRun(entries, rows, id, now, jitter, None, round);
      && r.loads == 1
      && LockShop(id) !in r.entries
      && r.reply == (if id in rows then Found(rows[id]) else Null)
    decreases LockRemaining(entries, id, now)
  {
    match MutexRound(entries, rows, id, now, jitter, false)
    case Done(s) =>
      var (isLock, locked) := Locked(entries, LockShop(id), now);
      assert isLock;
      assert Lookup(locked, CacheShop(id), now).None?;
    case Retry =>
      assert Lookup(entries, CacheShop(id), now + RETRY_SLEEP).None?;
      MutexRunOutlivesStaleLock(entries, rows, id, now + RETRY_SLEEP, jitter, round + 1);
  }

  /**
    A waiting reader whose sleep in this round is interrupted, before the lock
    frees up, returns null, reads nothing and writes nothing.
   */
  lemma MutexInterruptedWhileWaiting(entries: map<Key, Entry>, rows: map<int, Shop>, id: int, now: int, jitter: nat, round: nat)
    requires jitter < 10
    requires LockBounded(entries, id)
    requires Lookup(entries, CacheShop(id), now).None?
    requires Lookup(entries, LockShop(id), now).Some?
    ensures var r := MutexRun(entries, rows, id, now, jitter, Some(round), round);
      r.reply == Null && r.loads == 0 && r.entries == entries
  {
  }

  /**
    Every lock written by the service carries a time-to-live: each strategy,
    the rebuild task and the update keep every lock record bounded, so the
    mutex loop's precondition holds of any cache they produce.
   */
  lemma LocksStayBounded(entries: map<Key, Entry>, rows: map<int, Shop>, id: int, now: int, nowAgain: int, jitter: nat,
                         interruptAt: Option<nat>, round: nat, interrupted: bool, shop: Shop)
    requires jitter < 10
    requires LocksBounded(entries)
    ensures LocksBounded(PassThrough(entries, rows, id, now).entries)
    ensures MutexRound(entries, rows, id, now, jitter, interrupted).Done? ==>
      LocksBounded(MutexRound(entries, rows, id, now, jitter, interrupted).step.entries)
    ensures LocksBounded(MutexRun(entries, rows, id, now, jitter, interruptAt, round).entries)
    ensures LocksBounded(LogicalExpire(entries, id, now, nowAgain).entries)
    ensures LocksBounded(Rebuild(entries, rows, id, now, interrupted))
    ensures LocksBounded(UpdateShop(entries, rows, shop).entries)
  {
    var ks := {CacheShop(id), LockShop(id)};
    AgreeKeepsLocksBounded(entries, PassThrough(entries, rows, id, now).entries, {CacheShop(id)});
    var x := MutexRound(entries, rows, id, now, jitter, interrupted);
    if x.Done? {
      if LockShop(id) in x.step.entries {
        assert x.step.entries == entries && LockBounded(entries, id);
      }
      AgreeKeepsLocksBounded(entries, x.step.entries, ks);
    }
    MutexRunEffect(entries, rows, id, now, jitter, interruptAt, round);
    AgreeKeepsLocksBounded(entries, MutexRun(entries, rows, id, now, jitter, interruptAt, round).entries, ks);
    AgreeKeepsLocksBounded(entries, LogicalExpire(entries, id, now, nowAgain).entries, {LockShop(id)});
    AgreeKeepsLocksBounded(entries, Rebuild(entries, rows, id, now, interrupted), ks);
    var u := UpdateShop(entries, rows, shop);
    if u.ok {
      AgreeKeepsLocksBounded(entries, u.entries, {CacheShop(shop.id.value)});
    }
  }

  /** Keys outside `ks` keep their entries, so only the lock records written in `ks` need a time-to-live. */
  lemma AgreeKeepsLocksBounded(before: map<Key, Entry>, after: map<Key, Entry>, ks: set<Key>)
    requires LocksBounded(before)
    requires Agree(before, after, ks)
    requires forall k :: k in ks && k in after && k.LockShop? ==> after[k].expiresAt.Some?
    ensures LocksBounded(after)
  {
    forall i
      ensures LockBounded(after, i)
    {
      var k := LockShop(i);
      assert LockBounded(before, i);
      if k in after && k !in ks {
        assert k in after - ks;
        assert (after - ks)[k] == (before - ks)[k];
      } else if k in after {
        assert k in ks && k.LockShop?;
      }
    }
  }

  /** With a clock that does not run backwards, the lock is taken exactly when a rebuild is submitted. */
  lemma LogicalExpireLockIffRebuild(entries: map<Key, Entry>, id: int, now: int, nowAgain: int)
    requires now <= nowAgain
    ensures var r := LogicalExpire(entries, id, now, nowAgain);
      (r.entries != entries <==> r.rebuild)
    ensures var r := LogicalExpire(entries, id, now, nowAgain);
      r.rebuild <==>
        && NotBlank(Lookup(entries, CacheShop(id), now))
        && entries[CacheShop(id)].value.RedisDataJson?
        && entries[CacheShop(id)].value.expireTime <= now
        && Lookup(entries, LockShop(id), now).None?
  {
  }

  /**
    The second staleness test re-reads only the clock: if it ran backwards
    across `expireTime`, the read returns with the lock taken, submits no
    rebuild and never releases it; the lock is left until its 10 s lapse.
   */
  lemma LogicalExpireRecheckKeepsLock(entries: map<Key, Entry>, id: int, now: int, nowAgain: int)
    requires NotBlank(Lookup(entries, CacheShop(id), now))
    requires entries[CacheShop(id)].value.RedisDataJson?
    requires nowAgain < entries[CacheShop(id)].value.expireTime <= now
    requires Lookup(entries, LockShop(id), now).None?
    ensures var r := LogicalExpire(entries, id, now, nowAgain);
      && !r.rebuild
      && Lookup(r.entries, LockShop(id), now).Some?
      && Lookup(r.entries, LockShop(id), now + LOCK_SHOP_TTL).None?
  {
  }

  /**
    Readers of a stale entry: the first one takes the lock and submits the
    rebuild; every reader until the lock lapses gets the same stale shop,
    submits nothing and changes nothing.
   */
  lemma StaleReadersSubmitOneRebuild(entries: map<Key, Entry>, id: int, now: int, nowAgain: int, later: int, laterAgain: int)
    requires NotBlank(Lookup(entries, CacheShop(id), now))
    requires entries[CacheShop(id)].value.RedisDataJson? && entries[CacheShop(id)].expiresAt.None?
    requires entries[CacheShop(id)].value.expireTime <= now <= nowAgain
    requires Lookup(entries, LockShop(id), now).None?
    requires now <= later < now + LOCK_SHOP_TTL
    ensures var first := LogicalExpire(entries, id, now, nowAgain);
      && first.rebuild
      && first.reply == Embedded(entries[CacheShop(id)].value.data)
      && var second := LogicalExpire(first.entries, id, later, laterAgain);
         !second.rebuild && second.reply == first.reply && second.entries == first.entries
  {
  }

  /**
    Freshness: after the rebuild task has run, reads within the next 30
    seconds get the table's shop as fresh, with no lock and no new task.
   */
  lemma RebuildRefreshes(entries: map<Key, Entry>, rows: map<int, Shop>, id: int, now: int, later: int, laterAgain: int)
    requires now + REBUILD_SLEEP <= later < now + REBUILD_SLEEP + LOGICAL_EXPIRE_SECONDS * SECOND
    ensures var rebuilt := Rebuild(entries, rows, id, now, false);
      && LockShop(id) !in rebuilt
      && rebuilt[CacheShop(id)].expiresAt.None?
      && var r := LogicalExpire(rebuilt, id, later, laterAgain);
         && r.reply == (if id in rows then Found(rows[id]) else Null)
         && !r.rebuild && r.entries == rebuilt
  {
  }

  /** Store first, then delete: the next pass-through read loads and returns the updated shop. */
  lemma UpdateThenPassThroughReadsUpdate(entries: map<Key, Entry>, rows: map<int, Shop>, shop: Shop, now: int)
    requires shop.id.Some? && shop.id.value in rows
    ensures var u := UpdateShop(entries, rows, shop);
      && u.ok
      && var s := PassThrough(u.entries, u.rows, shop.id.value, now);
         s.reply == Found(shop) && s.loads == 1
  {
  }

  /** The next mutex read after an update, if not interrupted, loads and returns the updated shop. */
  lemma UpdateThenMutexReadsUpdate(entries: map<Key, Entry>, rows: map<int, Shop>, shop: Shop, now: int, jitter: nat)
    requires jitter < 10
    requires shop.id.Some? && shop.id.value in rows
    requires LockBounded(entries, shop.id.value)
    ensures var u := UpdateShop(entries, rows, shop);
      var s := MutexRun(u.entries, u.rows, shop.id.value, now, jitter, None, 0);
      s.reply == Found(shop) && s.loads == 1
  {
    var u := UpdateShop(entries, rows, shop);
    MutexRunOutlivesStaleLock(u.entries, u.rows, shop.id.value, now, jitter, 0);
  }

  /**
    The logical-expiry read never fills the cache itself: after an update has
    deleted the key, it answers null (the service reports "shop not found")
    until the entry is written again out of band.
   */
  lemma UpdateThenLogicalExpireReadsNull(entries: map<Key, Entry>, rows: map<int, Shop>, shop: Shop, now: int, nowAgain: int)
    requires shop.id.Some?
    ensures var u := UpdateShop(entries, rows, shop);
      var r := LogicalExpire(u.entries, shop.id.value, now, nowAgain);
      r.reply == Null && !r.rebuild && r.entries == u.entries && ToApiResult(r.reply) == Fail(ShopNotFound)
  {
  }
}
