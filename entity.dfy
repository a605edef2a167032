/**
  The two domain records the cache layer serves: a shop, owned by the shop
  table and looked up by its numeric id, and a shop type, listed in `sort`
  order. Only the fields the cache layer touches are kept.
 */
module Entity {
  import opened Wrappers

  /** A shop row. `id` is a nullable `Long` in the source: an update request may omit it. */
  datatype Shop = Shop(id: Option<int>, name: string, typeId: int)

  /** A shop-type row; `sort` is the column the type list is ordered by. */
  datatype ShopType = ShopType(id: int, name: string, sort: int)
}
