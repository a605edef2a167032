/**
  The shop-type list: one fixed cache key holds the whole list, read through
  with a time-to-live of 60 minutes plus a jitter of 0 to 9 minutes, so that
  the key does not expire in step with others written at the same moment.
 */
module ShopTypes {
  import opened Wrappers
  import opened Entity
  import opened Redis
  import opened Mapper

  /** Base time-to-live of the cached list, in minutes. */
  const BASE_EXPIRATION_TIME: nat := 60

  /** The list returned, or an exception from decoding a cached string. */
  datatype TypeReply = Types(list: seq<ShopType>) | TypesThrown

  /** A read's outcome: the reply, the cache afterwards, and the number of table queries. */
  datatype TypeStep = TypeStep(reply: TypeReply, entries: map<Key, Entry>, queries: nat)

  /** Deserializing a cached string as a shop-type list. */
  function DecodeTypes(v: Value): (r: TypeReply)
    ensures r.Types? <==> v.ShopTypeListJson?
    ensures r.Types? ==> v == ShopTypeListJson(r.list)
  {
    if v.ShopTypeListJson? then Types(v.types) else TypesThrown
  }

  /** Time-to-live, in milliseconds, for a jitter drawn as the truncation of `Math.random() * 10`. */
  function ListTtl(jitter: nat): (ttl: nat)
    requires jitter < 10
    ensures BASE_EXPIRATION_TIME * MINUTE <= ttl <= (BASE_EXPIRATION_TIME + 9) * MINUTE
    ensures ttl % MINUTE == 0
  {
    (jitter + BASE_EXPIRATION_TIME) * MINUTE
  }

  /** `queryByType()` at instant `now`, against the shop-type table `table`. */
  function ReadTypeList(entries: map<Key, Entry>, table: seq<ShopType>, now: int, jitter: nat): (r: TypeStep)
    requires jitter < 10
    // a non-blank cached string answers without the table and without a write
    ensures NotBlank(Lookup(entries, CacheShopType, now)) ==>
      r.queries == 0 && r.entries == entries && r.reply == DecodeTypes(entries[CacheShopType].value)
    // otherwise (absent or the empty string) the table is queried once, the list
    // comes back in `sort` order, and exactly that list is cached
    ensures !NotBlank(Lookup(entries, CacheShopType, now)) ==>
      && r.queries == 1
      && r.reply.Types?
      && SortedBySort(r.reply.list)
      && multiset(r.reply.list) == multiset(table)
      && CacheShopType in r.entries
      && r.entries[CacheShopType].value == ShopTypeListJson(r.reply.list)
      && r.entries[CacheShopType].expiresAt.Some?
      && now + 60 * MINUTE <= r.entries[CacheShopType].expiresAt.value <= now + 69 * MINUTE
    // the only key written is `cache:shopType:`
    ensures Agree(entries, r.entries, {CacheShopType})
  {
    var shopType := Lookup(entries, CacheShopType, now);
    if NotBlank(shopType) then TypeStep(DecodeTypes(shopType.value), entries, 0)
    else
      var shopTypeList := OrderBySort(table);
      TypeStep(Types(shopTypeList), Put(entries, CacheShopType, ShopTypeListJson(shopTypeList), Some(ListTtl(jitter)), now), 1)
  }

  class ShopTypeService {
    const redis: RedisCache
    const table: ShopTypeTable

    constructor (redis: RedisCache, table: ShopTypeTable)
      ensures this.redis == redis && this.table == table
    {
      this.redis := redis;
      this.table := table;
    }

    /** `queryByType()`; `jitter` is the whole number of minutes drawn at random, 0 to 9. */
    method QueryByType(now: int, jitter: nat) returns (r: TypeReply)
      requires jitter < 10
      modifies redis, table`queries
      ensures var s := ReadTypeList(old(redis.entries), table.rows, now, jitter);
        r == s.reply && redis.entries == s.entries && table.queries == old(table.queries) + s.queries
    {
      var shopType := redis.Get(CacheShopType, now);
      if NotBlank(shopType) {
        return DecodeTypes(shopType.value);
      }
      var shopTypeList := table.ListOrderedBySort();
      var totalTime := jitter + BASE_EXPIRATION_TIME;
      redis.Set(CacheShopType, ShopTypeListJson(shopTypeList), Some(totalTime * MINUTE), now);
      r := Types(shopTypeList);
    }
  }

  /**
    Read-through round trip: the list a miss caches is the list every read
    before its time-to-live lapses gets back, with no table query.
   */
  lemma QueryByTypeCachesWhatItReturns(entries: map<Key, Entry>, table: seq<ShopType>, now: int, jitter: nat,
                                        later: int, laterJitter: nat)
    requires jitter < 10 && laterJitter < 10
    requires !NotBlank(Lookup(entries, CacheShopType, now))
    requires now <= later < now + BASE_EXPIRATION_TIME * MINUTE
    ensures var first := ReadTypeList(entries, table, now, jitter);
      var second := ReadTypeList(first.entries, table, later, laterJitter);
      second == TypeStep(first.reply, first.entries, 0)
  {
  }

  /** A table already stored in `sort` order is returned in table order on a miss (for tied `sort` values, the model's stable order). */
  lemma QueryByTypeKeepsSortedTable(entries: map<Key, Entry>, table: seq<ShopType>, now: int, jitter: nat)
    requires jitter < 10
    requires SortedBySort(table)
    requires !NotBlank(Lookup(entries, CacheShopType, now))
    ensures ReadTypeList(entries, table, now, jitter).reply == Types(table)
  {
    OrderBySortKeepsSorted(table);
  }
}
