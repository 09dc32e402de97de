/**
 * The action handler selected by name, with the rules that hold of all of them,
 * and a run of several dispatches in a row. `ReturnsUndefined` is what the
 * handler itself returns; Vuex's `dispatch` wraps it in a resolved promise.
 */
module Dispatch {
  import S = StoreState
  import C = CacheStorage
  import A = Actions

  /** One dispatched action with its arguments (the getter's and root store's answers included). */
  datatype Action =
    | Identify(user: A.User, useCache: bool)
    | LoadCustomerFromCache
    | ResetCustomer(useCache: bool)
    | Track(event: string, data: S.Props)
    | Subscribe(email: string)
    | Unsubscribe(email: string, current: S.Option<A.User>)
    | BackInStockSubscribe(product: A.Product, email: string, subscribeForNewsletter: bool, useCache: bool, watching: bool)
    | BackInStockUnsubscribe(product: A.Product, email: string, subscribeForNewsletter: bool, useCache: bool, watching: bool)
    | LoadWatchingList(useCache: bool)
    | ProductViewed(product: A.Product)
    | ProductAddedToCart(item: A.LineItem)
    | ProductRemovedFromCart(item: A.LineItem)
    | CheckoutStarted(cart: A.Cart)
    | OrderPlaced(order: A.Order)
    | ProductOrdered(order: A.Order, item: A.LineItem)

  /** The action was dispatched with `useCache` set (the actions without the flag never write the cache). */
  predicate CacheEnabled(a: Action) {
    match a
    case Identify(_, useCache) => useCache
    case ResetCustomer(useCache) => useCache
    case BackInStockSubscribe(_, _, _, useCache, _) => useCache
    case BackInStockUnsubscribe(_, _, _, useCache, _) => useCache
    case LoadWatchingList(useCache) => useCache
    case _ => false
  }

  /** The UI-facing tracking actions, whose failures never reach the caller. */
  predicate Telemetry(a: Action) {
    a.ProductViewed? || a.ProductAddedToCart? || a.ProductRemovedFromCart? || a.CheckoutStarted?
    || a.OrderPlaced? || a.ProductOrdered?
  }

  /** Every cache operation in `ops` is a read. */
  predicate ReadsOnly(ops: seq<C.CacheOp>) {
    forall op :: op in ops ==> !C.IsWrite(op)
  }

  /** The actions on the customer and the newsletter. */
  predicate AccountAction(a: Action) {
    a.Identify? || a.LoadCustomerFromCache? || a.ResetCustomer? || a.Track? || a.Subscribe? || a.Unsubscribe?
  }

  /** The actions on the back-in-stock watch list. */
  predicate WatchAction(a: Action) {
    a.BackInStockSubscribe? || a.BackInStockUnsubscribe? || a.LoadWatchingList?
  }

  /**
   * The step of action `a`. `outcome` answers its remote call and `read` its cache
   * read; an action ignores the one it does not make.
   */
  function Run(env: A.Env, w: A.World, a: Action, outcome: A.Outcome, read: C.CacheRead): (st: A.Step)
    // state changes only after a delivered response or a cache read that worked, reset aside
    ensures st.commits != [] ==>
              || a.ResetCustomer?
              || ((a.LoadCustomerFromCache? || a.LoadWatchingList?) && read.ReadOk?)
              || outcome.Delivered?
    // a guard that stops the request stops everything else too
    ensures st.requests == [] && st.commits != [] ==> a.ResetCustomer? || a.LoadCustomerFromCache? || a.LoadWatchingList?
    ensures |st.requests| <= 1 || a.OrderPlaced?
    ensures Telemetry(a) ==> !st.result.Rejects? && st.commits == [] && st.cacheOps == []
  {
    if AccountAction(a) then RunAccount(env, w, a, outcome, read)
    else if WatchAction(a) then RunWatch(env, w, a, outcome, read)
    else RunTelemetry(env, w, a, outcome)
  }

  function RunAccount(env: A.Env, w: A.World, a: Action, outcome: A.Outcome, read: C.CacheRead): (st: A.Step)
    requires AccountAction(a)
    ensures st.commits != [] ==> a.ResetCustomer? || (a.LoadCustomerFromCache? && read.ReadOk?) || outcome.Delivered?
    ensures st.requests == [] && st.commits != [] ==> a.ResetCustomer? || a.LoadCustomerFromCache?
    ensures |st.requests| <= 1
  {
    match a
    case Identify(user, useCache) => A.Identify(env, w, user, useCache, outcome)
    case LoadCustomerFromCache => A.LoadCustomerFromCache(env, w, read)
    case ResetCustomer(useCache) => A.ResetCustomer(env, w, useCache)
    case Track(event, data) => A.Track(env, w, event, data, outcome)
    case Subscribe(email) => A.Subscribe(env, w, email, outcome)
    case Unsubscribe(email, current) => A.Unsubscribe(env, w, email, current, outcome)
  }

  function RunWatch(env: A.Env, w: A.World, a: Action, outcome: A.Outcome, read: C.CacheRead): (st: A.Step)
    requires WatchAction(a)
    ensures st.commits != [] ==> (a.LoadWatchingList? && read.ReadOk?) || outcome.Delivered?
    ensures st.requests == [] && st.commits != [] ==> a.LoadWatchingList?
    ensures |st.requests| <= 1
  {
    match a
    case BackInStockSubscribe(p, email, sfn, useCache, watching) =>
      A.BackInStockSubscribe(env, w, p, email, sfn, useCache, watching, outcome)
    case BackInStockUnsubscribe(p, email, sfn, useCache, watching) =>
      A.BackInStockUnsubscribe(env, w, p, email, sfn, useCache, watching, outcome)
    case LoadWatchingList(useCache) => A.LoadWatchingList(env, w, useCache, read)
  }

  function RunTelemetry(env: A.Env, w: A.World, a: Action, outcome: A.Outcome): (st: A.Step)
    requires Telemetry(a)
    ensures !st.result.Rejects? && st.commits == [] && st.cacheOps == []
    ensures |st.requests| <= 1 || a.OrderPlaced?
  {
    match a
    case ProductViewed(p) => A.ProductViewed(env, w, p, outcome)
    case ProductAddedToCart(item) => A.ProductAddedToCart(env, w, item, outcome)
    case ProductRemovedFromCart(item) => A.ProductRemovedFromCart(env, w, item, outcome)
    case CheckoutStarted(cart) => A.CheckoutStarted(env, w, cart, outcome)
    case OrderPlaced(order) => A.OrderPlaced(env, w, order, outcome)
    case ProductOrdered(order, item) => A.ProductOrdered(env, w, order, item, outcome)
  }

  /** One dispatch together with the answers its remote call and its cache read get. */
  datatype Event = Event(action: Action, outcome: A.Outcome, read: C.CacheRead)

  /** The session and cache after dispatching `script` in order, each action settling before the next. */
  function RunScript(env: A.Env, w: A.World, script: seq<Event>): A.World
    decreases |script|
  {
    if script == [] then w
    else
      var before := RunScript(env, w, script[..|script| - 1]);
      var e := script[|script| - 1];
      A.After(env, before, Run(env, before, e.action, e.outcome, e.read))
  }
}
