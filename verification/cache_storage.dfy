/**
 * The key-value cache the actions persist to. It holds the two keys `"customer"`
 * and `"backInStockWatching"`; each is a slot that is present or absent. Every
 * operation the actions perform on it, reads included, is recorded.
 */
module CacheStorage {
  import opened StoreState

  /** `CustomerKey` is `"customer"`, `WatchingKey` is `"backInStockWatching"`. */
  datatype CacheKey = CustomerKey | WatchingKey

  datatype Cache = Cache(customer: Option<Props>, watching: Option<seq<string>>)

  datatype CacheOp =
    | GetItem(key: CacheKey)
    | SetCustomerItem(customer: Props)
    | SetWatchingItem(keys: seq<string>)
    | RemoveItem(key: CacheKey)

  /** The answer of one `getItem`: the stored slot, or a failed read. */
  datatype CacheRead = ReadOk | ReadFails

  predicate IsWrite(op: CacheOp) {
    !op.GetItem?
  }

  /** The cache after one operation; in this model a write always succeeds. */
  function Perform(c: Cache, op: CacheOp): (c': Cache)
    ensures !IsWrite(op) ==> c' == c
    ensures op.SetCustomerItem? ==> c'.customer == Some(op.customer) && c'.watching == c.watching
    ensures op.SetWatchingItem? ==> c'.watching == Some(op.keys) && c'.customer == c.customer
    ensures op.RemoveItem? && op.key == CustomerKey ==> c' == c.(customer := None)
    ensures op.RemoveItem? && op.key == WatchingKey ==> c' == c.(watching := None)
  {
    match op
    case GetItem(_) => c
    case SetCustomerItem(v) => c.(customer := Some(v))
    case SetWatchingItem(keys) => c.(watching := Some(keys))
    case RemoveItem(CustomerKey) => c.(customer := None)
    case RemoveItem(WatchingKey) => c.(watching := None)
  }

  /** The cache after performing `ops` in order. */
  function PerformAll(c: Cache, ops: seq<CacheOp>): Cache
    decreases |ops|
  {
    if ops == [] then c else Perform(PerformAll(c, ops[..|ops| - 1]), ops[|ops| - 1])
  }

  lemma PerformAllOne(c: Cache, a: CacheOp)
    ensures PerformAll(c, [a]) == Perform(c, a)
  {
    assert [a][..0] == [];
  }

  lemma PerformAllTwo(c: Cache, a: CacheOp, b: CacheOp)
    ensures PerformAll(c, [a, b]) == Perform(Perform(c, a), b)
  {
    assert [a, b][..1] == [a];
    PerformAllOne(c, a);
  }
}
