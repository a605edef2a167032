# Shop cache layer, modelled in Dafny

This project models the read-through cache that the shop service keeps in Redis in front of its
MySQL tables (`ShopServiceImpl`), and the cached shop-type list (`ShopTypeServiceImpl`).

- **The cache** (`Redis.RedisCache`) is a map from key to an entry. An entry holds a value and an
  optional expiry instant. `GET` treats an entry past its expiry as absent. Keys follow the layout
  `cache:shop:<id>`, `lock:shop:<id>` and `cache:shopType:`. Values are the empty string (the
  "confirmed absent" marker), the lock flag `"1"`, or a serialized document: a shop, a
  logical-expiry wrapper `{data, expireTime}`, or a shop-type list.
- **The tables** (`Mapper.ShopTable`, `Mapper.ShopTypeTable`) are a map from id to shop and a
  sequence of shop types. A ghost counter records every query, so the services can promise how
  often they reach the database.
- **The clock** is an integer in milliseconds, passed to each operation. `Thread.sleep` advances it.
- **Each strategy** is a function of the cache and the clock, and of the table where the strategy
  reads it. Pass-through and the mutex strategy give a `Step`: the reply (shop, null or exception),
  the cache afterwards and the number of table reads. The logical-expiry read takes two clock
  readings and no table, and gives a `LogicalStep`: the reply, the cache afterwards and whether a
  rebuild task was submitted.
  A method of `Shops.ShopService` or `ShopTypes.ShopTypeService` makes the same Redis and table
  calls, in the source's order, and its postcondition says it ends in the state the function gives.
- **The mutex strategy's `while (true)` loop** is the method `QueryWithMutex`. One round is
  `MutexRound`/`MutexAttempt`, and the critical section under the lock is
  `MutexCritical`/`LoadUnderLock`. A round's sleep may be interrupted: the parameter `interruptAt`
  names that round. The loop terminates because every lock record carries a 10 s time-to-live, and
  each lost round waits 50 ms nearer to its expiry.
- **The logical-expiry rebuild** runs on the worker pool in the source. Here it is a queue of
  submitted shop ids (`pending`). `RunNextRebuild` runs the oldest task: `saveShop2Redis(id, 30)`,
  then the `finally` unlock.

Two details of the source are kept as written:

- The lock has no ownership token. `Unlocked` deletes the key whoever set it.
- `queryWithLogicalExpire` runs its second staleness test (line 215) on the same `expireTime` with
  a second clock reading, `nowAgain`. When the clock does not run backwards that branch cannot be
  taken (`LogicalExpireLockIffRebuild`). When it does, the read returns with the lock still set and
  submits no rebuild. The lock is then left until its 10 s lapse (`LogicalExpireRecheckKeepsLock`).

The logical-expiry read answers null for a blank cached string. It also answers null for a wrapper
whose `data` is null, which the rebuild writes when the shop is missing from the table. So
"null iff blank" holds only while the table has the shop.

## Model

| member | source | states |
|---|---|---|
| `Redis.Lookup` | hm-dianping/src/main/java/com/hmdp/service/impl/ShopServiceImpl.java:56 | a GET returns a value exactly when the key is present and not past its expiry |
| `Redis.Put` | hm-dianping/src/main/java/com/hmdp/service/impl/ShopServiceImpl.java:70 | after a SET with a time-to-live the key reads back the value exactly until now + ttl, without one forever; other keys unchanged |
| `Redis.PutIfAbsent` | hm-dianping/src/main/java/com/hmdp/service/impl/ShopServiceImpl.java:81 | SET-IF-ABSENT writes exactly when the key reads as absent, otherwise leaves the cache as it was |
| `Redis.Del` | hm-dianping/src/main/java/com/hmdp/service/impl/ShopServiceImpl.java:86 | DEL removes the key and keeps every other entry |
| `Redis.RedisCache.Get` | hm-dianping/src/main/java/com/hmdp/service/impl/ShopServiceImpl.java:56 | returns the stored value exactly when the key is live at `now` |
| `Redis.RedisCache.Set` | hm-dianping/src/main/java/com/hmdp/service/impl/ShopServiceImpl.java:70 | the key space afterwards is `Put` of the one before |
| `Redis.RedisCache.SetIfAbsent` | hm-dianping/src/main/java/com/hmdp/service/impl/ShopServiceImpl.java:81 | result and key space afterwards are those of `PutIfAbsent` |
| `Redis.RedisCache.Delete` | hm-dianping/src/main/java/com/hmdp/service/impl/ShopServiceImpl.java:86 | the key space afterwards is `Del` of the one before |
| `Mapper.ShopTable.GetById` | hm-dianping/src/main/java/com/hmdp/service/impl/ShopServiceImpl.java:67 | returns the row with the id or null, counts one query, changes no row |
| `Mapper.ShopTable.UpdateById` | hm-dianping/src/main/java/com/hmdp/service/impl/ShopServiceImpl.java:239 | overwrites the row with the shop's id if there is one, reports whether there was |
| `Mapper.UpdatedRows` | hm-dianping/src/main/java/com/hmdp/service/impl/ShopServiceImpl.java:239 | the same ids afterwards; the updated id holds the new shop, every other row is unchanged |
| `Mapper.InsertBySort` | hm-dianping/src/main/java/com/hmdp/service/impl/ShopTypeServiceImpl.java:46 | inserting into a list ordered by `sort` keeps it ordered and adds exactly that element |
| `Mapper.OrderBySort` | hm-dianping/src/main/java/com/hmdp/service/impl/ShopTypeServiceImpl.java:46 | the result is ascending by `sort` and a permutation of the table |
| `Mapper.OrderBySortKeepsSorted` | hm-dianping/src/main/java/com/hmdp/service/impl/ShopTypeServiceImpl.java:46 | a table already in `sort` order comes back unchanged |
| `Mapper.ShopTypeTable.ListOrderedBySort` | hm-dianping/src/main/java/com/hmdp/service/impl/ShopTypeServiceImpl.java:46 | returns the rows ordered by `sort`, counts one query |
| `Shops.DecodeShop` | hm-dianping/src/main/java/com/hmdp/service/impl/ShopServiceImpl.java:59 | a serialized shop decodes to that shop; any other document raises, never null |
| `Shops.Locked` | hm-dianping/src/main/java/com/hmdp/service/impl/ShopServiceImpl.java:80-83 | `tryLock` succeeds iff the key reads as absent; then it holds "1" expiring 10 s later and nothing else changes; on failure the cache is unchanged |
| `Shops.Unlocked` | hm-dianping/src/main/java/com/hmdp/service/impl/ShopServiceImpl.java:85-87 | `unlock` removes the key, with no owner check, and no other key |
| `Shops.ShopService.TryLock` | hm-dianping/src/main/java/com/hmdp/service/impl/ShopServiceImpl.java:80-83 | result and cache afterwards are those of `Locked` |
| `Shops.ShopService.Unlock` | hm-dianping/src/main/java/com/hmdp/service/impl/ShopServiceImpl.java:85-87 | cache afterwards is `Unlocked` of the one before |
| `Shops.LockRemaining` | hm-dianping/src/main/java/com/hmdp/service/impl/ShopServiceImpl.java:81 | time left on the lock is positive exactly when the lock key is live |
| `Shops.PassThrough` | hm-dianping/src/main/java/com/hmdp/service/impl/ShopServiceImpl.java:54-77 | a cached string (shop or marker) answers with no table read and no write, the marker as null; a miss reads the table once and caches the marker for 2 min (null) or the shop for 30 min (the shop); no other key changes |
| `Shops.ShopService.QueryPassThrough` | hm-dianping/src/main/java/com/hmdp/service/impl/ShopServiceImpl.java:54-77 | reply, cache and table reads are those of `PassThrough` |
| `Shops.MutexCritical` | hm-dianping/src/main/java/com/hmdp/service/impl/ShopServiceImpl.java:124-157 | every exit (re-check hit, re-check marker, interrupt, not found, found) deletes the lock; an interrupted pause is rethrown; the table is read iff the re-check misses and no interrupt; the marker is cached for 2 min, the shop for 30 to 39 min |
| `Shops.MutexRound` | hm-dianping/src/main/java/com/hmdp/service/impl/ShopServiceImpl.java:99-122 | a round retries iff the cache misses, the lock is held by another and the sleep is not interrupted; a lost round neither reads the table nor writes; a cached string answers at once with its decoded shop, or null for the marker; an interrupted wait answers null; a won lock answers exactly as `MutexCritical` on the cache holding the new lock and releases it; only the shop and lock keys change |
| `Shops.MutexRun` | hm-dianping/src/main/java/com/hmdp/service/impl/ShopServiceImpl.java:99-158 | the whole `while (true)` loop, ending because each lock expires: a cached string ends it with no read and no write; over all rounds at most one table read, and only the shop and lock keys change |
| `Shops.ShopService.LoadUnderLock` | hm-dianping/src/main/java/com/hmdp/service/impl/ShopServiceImpl.java:124-157 | reply, cache and table reads are those of `MutexCritical` |
| `Shops.ShopService.MutexAttempt` | hm-dianping/src/main/java/com/hmdp/service/impl/ShopServiceImpl.java:100-157 | ends the query or retries as `MutexRound` says; a retry changes nothing |
| `Shops.ShopService.QueryWithMutex` | hm-dianping/src/main/java/com/hmdp/service/impl/ShopServiceImpl.java:94-159 | the loop terminates and its reply, cache and table reads are those of `MutexRun` |
| `Shops.Embedded` | hm-dianping/src/main/java/com/hmdp/service/impl/ShopServiceImpl.java:202 | the wrapper's own shop when it holds one, and null exactly when it holds none |
| `Shops.LogicalExpire` | hm-dianping/src/main/java/com/hmdp/service/impl/ShopServiceImpl.java:192-229 | null iff the string is blank or the wrapper holds no shop, otherwise the embedded shop fresh or stale; a non-blank string that is not a wrapper throws (its `expireTime` is null) and changes nothing; the shop key is never written; a rebuild is submitted only for a stale wrapper whose absent lock this read took |
| `Shops.ShopService.QueryWithLogicalExpire` | hm-dianping/src/main/java/com/hmdp/service/impl/ShopServiceImpl.java:192-229 | reply and cache are those of `LogicalExpire`; the task queue grows by this id exactly when it submits a rebuild |
| `Shops.SaveShop` | hm-dianping/src/main/java/com/hmdp/service/impl/ShopServiceImpl.java:176-188 | unless the pause is interrupted, the shop key holds the table's shop (or null) with `expireTime` = save time + 30 s and no time-to-live; nothing else changes |
| `Shops.ShopService.SaveShopToRedis` | hm-dianping/src/main/java/com/hmdp/service/impl/ShopServiceImpl.java:176-188 | reads the table once and leaves the cache as `SaveShop` says |
| `Shops.Rebuild` | hm-dianping/src/main/java/com/hmdp/service/impl/ShopServiceImpl.java:219-227 | the task always deletes the lock; only the shop key and lock key change; an uninterrupted task writes the wrapper with the table's shop (or null), `expireTime` 30 s after the 200 ms pause and no time-to-live; an interrupted task writes nothing else |
| `Shops.ShopService.RunNextRebuild` | hm-dianping/src/main/java/com/hmdp/service/impl/ShopServiceImpl.java:219-227 | runs the oldest submitted task as `Rebuild` and removes it from the queue; an empty queue changes nothing |
| `Shops.ToApiResult` | hm-dianping/src/main/java/com/hmdp/service/impl/ShopServiceImpl.java:169-173 | null becomes "shop not found", a shop becomes ok with it, and an exception reaches the caller (nothing catches it) |
| `Shops.ShopService.QueryById` | hm-dianping/src/main/java/com/hmdp/service/impl/ShopServiceImpl.java:161-174 | reads through the logical-expiry strategy and maps its reply |
| `Shops.UpdateShop` | hm-dianping/src/main/java/com/hmdp/service/impl/ShopServiceImpl.java:234-244 | a shop without id is refused with cache and table unchanged; otherwise the row is updated and `cache:shop:<id>` is gone with every other key unchanged |
| `Shops.ShopService.Update` | hm-dianping/src/main/java/com/hmdp/service/impl/ShopServiceImpl.java:234-244 | updates the table, then deletes the key; result, cache and table are those of `UpdateShop` |
| `ShopProperties.NullMarkerShorterThanShop` | hm-dianping/src/main/java/com/hmdp/service/impl/ShopServiceImpl.java:70-75 | the marker's 2 min time-to-live is shorter than a shop's 30 min |
| `ShopProperties.PassThroughShieldsMissingId` | hm-dianping/src/main/java/com/hmdp/service/impl/ShopServiceImpl.java:63-71 | a miss on a missing id reads the table once; every read in the next 2 min answers null with no table read and no write |
| `ShopProperties.PassThroughServesCachedShop` | hm-dianping/src/main/java/com/hmdp/service/impl/ShopServiceImpl.java:58-76 | a loaded shop is served from the cache for the next 30 min without the table |
| `ShopProperties.MutexRunEffect` | hm-dianping/src/main/java/com/hmdp/service/impl/ShopServiceImpl.java:99-158 | over the whole loop: at most one table read; only the shop and lock keys change; the cache is untouched or the lock released; no load means the shop key is untouched; a load caches and returns the marker or the shop |
| `ShopProperties.MutexRunCachedAnswer` | hm-dianping/src/main/java/com/hmdp/service/impl/ShopServiceImpl.java:101-108 | a cached string ends the loop at once with no table read and no write |
| `ShopProperties.MutexRunOutlivesStaleLock` | hm-dianping/src/main/java/com/hmdp/service/impl/ShopServiceImpl.java:110-157 | with the key absent or expired and no interrupt, the loop outlasts any lock (all expire), loads exactly once, returns the table's answer and releases the lock |
| `ShopProperties.MutexInterruptedWhileWaiting` | hm-dianping/src/main/java/com/hmdp/service/impl/ShopServiceImpl.java:112-120 | an interrupt of the sleep in any round spent waiting for a held lock returns null with no table read and no write |
| `ShopProperties.LocksStayBounded` | hm-dianping/src/main/java/com/hmdp/service/impl/ShopServiceImpl.java:80-83 | every lock record carries a time-to-live: pass-through, a mutex round, the mutex loop, the logical-expiry read, the rebuild task and the update all keep that true for every shop, so `QueryWithMutex`'s precondition holds of any cache they produce |
| `ShopProperties.LogicalExpireLockIffRebuild` | hm-dianping/src/main/java/com/hmdp/service/impl/ShopServiceImpl.java:206-227 | with a clock that does not run backwards, a read takes the lock iff it submits a rebuild, iff the wrapper is stale and the lock free |
| `ShopProperties.LogicalExpireRecheckKeepsLock` | hm-dianping/src/main/java/com/hmdp/service/impl/ShopServiceImpl.java:211-217 | if the clock runs back across `expireTime`, the read keeps the lock, submits nothing, and the lock lasts until its 10 s lapse |
| `ShopProperties.StaleReadersSubmitOneRebuild` | hm-dianping/src/main/java/com/hmdp/service/impl/ShopServiceImpl.java:206-228 | the first reader of a stale entry submits one rebuild; readers until the lock lapses get the same stale shop and submit none |
| `ShopProperties.RebuildRefreshes` | hm-dianping/src/main/java/com/hmdp/service/impl/ShopServiceImpl.java:176-188 | after the rebuild task runs, the lock is gone, the entry has no time-to-live, and reads in the next 30 s get the table's shop fresh with no new task |
| `ShopProperties.UpdateThenPassThroughReadsUpdate` | hm-dianping/src/main/java/com/hmdp/service/impl/ShopServiceImpl.java:238-241 | after an update, the next pass-through read loads and returns the updated shop |
| `ShopProperties.UpdateThenMutexReadsUpdate` | hm-dianping/src/main/java/com/hmdp/service/impl/ShopServiceImpl.java:238-241 | after an update, the next uninterrupted mutex read loads and returns the updated shop |
| `ShopProperties.UpdateThenLogicalExpireReadsNull` | hm-dianping/src/main/java/com/hmdp/service/impl/ShopServiceImpl.java:169-171 | after an update deletes the key, the logical-expiry read answers "shop not found" and submits nothing |
| `ShopTypes.DecodeTypes` | hm-dianping/src/main/java/com/hmdp/service/impl/ShopTypeServiceImpl.java:43 | a serialized list decodes to that list, any other document raises |
| `ShopTypes.ListTtl` | hm-dianping/src/main/java/com/hmdp/service/impl/ShopTypeServiceImpl.java:49-51 | the list's time-to-live is a whole number of minutes from 60 to 69 |
| `ShopTypes.ReadTypeList` | hm-dianping/src/main/java/com/hmdp/service/impl/ShopTypeServiceImpl.java:39-54 | a non-blank cached string answers with no query and no write; otherwise one query, the reply is the table ascending by `sort` (a permutation), exactly that list is cached for 60 to 69 min; only `cache:shopType:` changes |
| `ShopTypes.ShopTypeService.QueryByType` | hm-dianping/src/main/java/com/hmdp/service/impl/ShopTypeServiceImpl.java:39-54 | reply, cache and table queries are those of `ReadTypeList` |
| `ShopTypes.QueryByTypeCachesWhatItReturns` | hm-dianping/src/main/java/com/hmdp/service/impl/ShopTypeServiceImpl.java:41-51 | a read within 60 min of a miss returns the list the miss returned, with no query and no write |
| `ShopTypes.QueryByTypeKeepsSortedTable` | hm-dianping/src/main/java/com/hmdp/service/impl/ShopTypeServiceImpl.java:46 | a table already in `sort` order is returned in table order; when `sort` values tie, this is the model's stable order, which `orderByAsc("sort")` does not promise |

## Left out

- Concurrency: the worker pool (ShopServiceImpl.java:190), interleavings of readers, and real sleeping. A sleep advances the clock. The pool is a FIFO queue run one task at a time by `RunNextRebuild`. Another reader's effect between the first read and the post-lock re-check is covered only by `MutexCritical` and `LoadUnderLock`, which are stated for every cache state at lock time. Inside `MutexRound`, `MutexRun` and `QueryWithMutex` the re-check sees the cache of the same round's first read, so its hit and marker branches are never taken there. The multi-reader stampede guarantees are stated only for sequential reads.
- The JSON codec (Hutool `JSONUtil`, `BeanUtil`) is abstract: a document of the wrong shape for the reader raises. Hutool may instead decode it leniently into an empty bean. A wrapper's null `data` is taken to decode to a null shop.
- Wall-clock time is an integer in milliseconds. Redis evaluates expiry on the same clock as the service.
- Randomness: the mutex jitter (`nextInt(10)`) and the shop-type jitter (`(long) (Math.random() * 10)`) are parameters below 10, not floats.
- Interrupts: whether a sleep is interrupted is a parameter, either a flag or the index of the interrupted round.
- Shops.ShopService.QueryWithMutex: requires that a live lock record carry a time-to-live. Every lock is written by `tryLock` with one, and `ShopProperties.LocksStayBounded` proves every modelled operation keeps it so. If a lock had no expiry, the source would spin until interrupted, and that case is not modelled.
- Mapper.UpdatedRows: replaces the whole row, while MyBatis-Plus `updateById` writes only the non-null fields. `@Transactional` rollback and database or Redis transport errors are not modelled.
- Ids are unbounded integers. A null `Long` id passed to the read strategies is not modelled.
- The order of the two writes in `update` (table, then cache) is visible only in the body of `ShopService.Update`. A sequential model cannot observe the race it prevents.
- `checkShop` (ShopServiceImpl.java:46-51) is unused and not modelled. `RedisConstants` is not part of this model: the key prefixes `cache:shop:` and `lock:shop:` are the assumed values of `RedisConstants.CACHE_SHOP_KEY` and `LOCK_SHOP_KEY`.
- Rows of equal `sort` come back in table order. SQL leaves their order open.
- User login (`UserServiceImpl`) and the login interceptor are outside the cache layer and not modelled.
