/**
  The relational tables behind the cache: the shop table, read by id and
  updated by id, and the shop-type table, listed ascending by its `sort`
  column. Each table counts the queries made against it in a ghost field,
  so that the services can promise how often they reach the database.
 */
module Mapper {
  import opened Wrappers
  import opened Entity

  class ShopTable {
    var rows: map<int, Shop>
    ghost var loads: nat

    constructor (initial: map<int, Shop>)
      ensures rows == initial && loads == 0
    {
      rows := initial;
      loads := 0;
    }

    /** `getById`: the row with this id, or null. */
    method GetById(id: int) returns (s: Option<Shop>)
      modifies this`loads
      ensures loads == old(loads) + 1
      ensures s.Some? <==> id in rows
      ensures s.Some? ==> s.value == rows[id]
    {
      loads := loads + 1;
      s := if id in rows then Some(rows[id]) else None;
    }

    /** `updateById`: overwrites the row whose id the shop carries; no row, nothing changes. */
    method UpdateById(shop: Shop) returns (updated: bool)
      requires shop.id.Some?
      modifies this`rows
      ensures updated <==> shop.id.value in old(rows)
      ensures rows == UpdatedRows(old(rows), shop)
    {
      updated := shop.id.value in rows;
      if updated {
        rows := rows[shop.id.value := shop];
      }
    }
  }

  /** The table after `updateById(shop)`. */
  function UpdatedRows(rows: map<int, Shop>, shop: Shop): (r: map<int, Shop>)
    requires shop.id.Some?
    ensures r.Keys == rows.Keys
    ensures shop.id.value in rows ==> r[shop.id.value] == shop
    ensures forall i :: i in rows && i != shop.id.value ==> r[i] == rows[i]
  {
    if shop.id.value in rows then rows[shop.id.value := shop] else rows
  }

  class ShopTypeTable {
    var rows: seq<ShopType>
    ghost var queries: nat

    constructor (initial: seq<ShopType>)
      ensures rows == initial && queries == 0
    {
      rows := initial;
      queries := 0;
    }

    /** `query().orderByAsc("sort").list()`. */
    method ListOrderedBySort() returns (l: seq<ShopType>)
      modifies this`queries
      ensures queries == old(queries) + 1
      ensures l == OrderBySort(rows)
    {
      queries := queries + 1;
      l := OrderBySort(rows);
    }
  }

  predicate SortedBySort(s: seq<ShopType>)
  {
    forall i, j :: 0 <= i < j < |s| ==> s[i].sort <= s[j].sort
  }

  /** Places `t` in front of the first row with a larger `sort`, keeping `s` ordered. */
  function InsertBySort(t: ShopType, s: seq<ShopType>): (r: seq<ShopType>)
    requires SortedBySort(s)
    ensures SortedBySort(r)
    ensures multiset(r) == multiset(s) + multiset{t}
    ensures |r| == |s| + 1
    ensures |r| > 0 && (r[0] == t || (|s| > 0 && r[0] == s[0]))
  {
    if s == [] || t.sort <= s[0].sort then
      [t] + s
    else
      var rest := InsertBySort(t, s[1..]);
      assert s == [s[0]] + s[1..];
      [s[0]] + rest
  }

  /**
    The rows ascending by `sort`. SQL leaves the order of rows with equal
    `sort` open; this one keeps their table order.
   */
  function OrderBySort(s: seq<ShopType>): (r: seq<ShopType>)
    ensures SortedBySort(r)
    ensures multiset(r) == multiset(s)
    ensures |r| == |s|
  {
    if s == [] then []
    else
      assert s == [s[0]] + s[1..];
      InsertBySort(s[0], OrderBySort(s[1..]))
  }

  /** A table already in `sort` order comes back as it is. */
  lemma {:induction false} OrderBySortKeepsSorted(s: seq<ShopType>)
    requires SortedBySort(s)
    ensures OrderBySort(s) == s
  {
    if s != [] {
      assert SortedBySort(s[1..]);
      OrderBySortKeepsSorted(s[1..]);
      assert s == [s[0]] + s[1..];
    }
  }
}
