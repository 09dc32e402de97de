/**
 * The store as the actions see it: one object holding the session fields, the
 * cache and the logs of commits, cache operations and requests, with one method
 * per action. Each method is proved to do exactly what the action's step in
 * `Actions` says.
 */
module Store {
  import opened StoreState
  import opened CacheStorage
  import opened Actions

  /** Everything the store shows: session and cache, and what was committed, cached and sent so far. */
  datatype Observed = Observed(world: World, commits: seq<Mutation>, cacheOps: seq<CacheOp>, requests: seq<Request>)

  /** The record after one more step. */
  function Advance(env: Env, o: Observed, st: Step): Observed {
    Observed(After(env, o.world, st), o.commits + st.commits, o.cacheOps + st.cacheOps, o.requests + st.requests)
  }

  class KlaviyoStore {
    const env: Env

    var customer: Option<Props>
    var isSubscribed: Option<bool>
    var backInStockWatching: seq<string>
    var cache: Cache

    var commitLog: seq<Mutation>
    var cacheLog: seq<CacheOp>
    var requestLog: seq<Request>

    function State(): World
      reads this
    {
      World(Session(customer, isSubscribed, backInStockWatching), cache)
    }

    function Snapshot(): Observed
      reads this
    {
      Observed(State(), commitLog, cacheLog, requestLog)
    }

    constructor (env: Env, session: Session, cache: Cache)
      ensures this.env == env && State() == World(session, cache)
      ensures commitLog == [] && cacheLog == [] && requestLog == []
    {
      this.env := env;
      customer, isSubscribed, backInStockWatching := session.customer, session.isSubscribed, session.watching;
      this.cache := cache;
      commitLog, cacheLog, requestLog := [], [], [];
    }

    /** `commit(m)`: the store's handler for `m` runs, and the commit is logged. */
    method Commit(m: Mutation)
      modifies this
      ensures State() == old(State()).(session := env.reducer(old(State()).session, m))
      ensures commitLog == old(commitLog) + [m]
      ensures cacheLog == old(cacheLog) && requestLog == old(requestLog)
    {
      var s := env.reducer(Session(customer, isSubscribed, backInStockWatching), m);
      customer, isSubscribed, backInStockWatching := s.customer, s.isSubscribed, s.watching;
      commitLog := commitLog + [m];
    }

    /** One call on `cacheStorage`. */
    method UseCache(op: CacheOp)
      modifies this
      ensures State() == old(State()).(cache := Perform(old(cache), op))
      ensures cacheLog == old(cacheLog) + [op]
      ensures commitLog == old(commitLog) && requestLog == old(requestLog)
    {
      cache := Perform(cache, op);
      cacheLog := cacheLog + [op];
    }

    /** One `fetch`. */
    method Send(request: Request)
      modifies this
      ensures State() == old(State())
      ensures requestLog == old(requestLog) + [request]
      ensures commitLog == old(commitLog) && cacheLog == old(cacheLog)
    {
      requestLog := requestLog + [request];
    }

    method Identify(user: User, useCache: bool, outcome: Outcome) returns (result: Settlement)
      modifies this
      ensures var st := Actions.Identify(env, old(State()), user, useCache, outcome);
              result == st.result && Snapshot() == Advance(env, old(Snapshot()), st)
    {
      var c := env.mappers.customer(user);
      ghost var w := State();
      Send(IdentifyRequest(env, user));
      match outcome
      case Failed(e) =>
        result := Rejects(TransportError(e));
      case Delivered(res) =>
        Commit(SetCustomer(Some(c)));
        ReplayOne(env.reducer, w.session, SetCustomer(Some(c)));
        if useCache {
          UseCache(SetCustomerItem(c));
          PerformAllOne(w.cache, SetCustomerItem(c));
        }
        result := Resolves(ResponseReply(res));
    }

    method LoadCustomerFromCache(read: CacheRead) returns (result: Settlement)
      modifies this
      ensures var st := Actions.LoadCustomerFromCache(env, old(State()), read);
              result == st.result && Snapshot() == Advance(env, old(Snapshot()), st)
    {
      ghost var w := State();
      UseCache(GetItem(CustomerKey));
      PerformAllOne(w.cache, GetItem(CustomerKey));
      match read
      case ReadFails =>
        result := Rejects(Undefined);
      case ReadOk =>
        match cache.customer
        case Some(c) =>
          Commit(SetCustomer(Some(c)));
          ReplayOne(env.reducer, w.session, SetCustomer(Some(c)));
          result := Resolves(CustomerReply(c));
        case None =>
          result := Resolves(Null);
    }

    method ResetCustomer(useCache: bool)
      modifies this
      ensures Snapshot() == Advance(env, old(Snapshot()), Actions.ResetCustomer(env, old(State()), useCache))
    {
      ghost var w := State();
      Commit(SetCustomer(None));
      Commit(SetNewsletterSubscribed(None));
      Commit(SetWatching([]));
      ghost var ms := [SetCustomer(None), SetNewsletterSubscribed(None), SetWatching([])];
      assert ms[..2] == [SetCustomer(None), SetNewsletterSubscribed(None)];
      assert ms[..2][..1] == [SetCustomer(None)];
      ReplayOne(env.reducer, w.session, SetCustomer(None));
      if useCache {
        UseCache(RemoveItem(CustomerKey));
        UseCache(RemoveItem(WatchingKey));
        PerformAllTwo(w.cache, RemoveItem(CustomerKey), RemoveItem(WatchingKey));
      }
    }

    method Track(event: string, data: Props, outcome: Outcome) returns (result: Settlement)
      modifies this
      ensures var st := Actions.Track(env, old(State()), event, data, outcome);
              result == st.result && Snapshot() == Advance(env, old(Snapshot()), st)
    {
      if customer.None? {
        return Rejects(Message(NoCustomer));
      }
      Send(TrackRequest(env, customer.value, event, data));
      result := Forwarded(outcome);
    }

    method Subscribe(email: string, outcome: Outcome) returns (result: Settlement)
      modifies this
      ensures var st := Actions.Subscribe(env, old(State()), email, outcome);
              result == st.result && Snapshot() == Advance(env, old(Snapshot()), st)
    {
      if isSubscribed == Some(true) {
        return ReturnsUndefined;
      }
      ghost var w := State();
      Send(Request(Post, env.config.subscribeEndpoint, EmailBody(email)));
      match outcome
      case Failed(e) =>
        result := Rejects(TransportError(e));
      case Delivered(res) =>
        Commit(NewsletterSubscribe);
        ReplayOne(env.reducer, w.session, NewsletterSubscribe);
        if customer.None? {
          var c := env.mappers.customer(EmailOnly(email));
          Commit(SetCustomer(Some(c)));
          assert [NewsletterSubscribe, SetCustomer(Some(c))][..1] == [NewsletterSubscribe];
        }
        result := Resolves(ResponseReply(res));
    }

    /** `current` is `rootStore.state.user.current`, read when the response arrives. */
    method Unsubscribe(email: string, current: Option<User>, outcome: Outcome) returns (result: Settlement)
      modifies this
      ensures var st := Actions.Unsubscribe(env, old(State()), email, current, outcome);
              result == st.result && Snapshot() == Advance(env, old(Snapshot()), st)
    {
      if isSubscribed != Some(true) {
        return ReturnsUndefined;
      }
      ghost var w := State();
      Send(Request(Delete, env.config.subscribeEndpoint, EmailBody(email)));
      match outcome
      case Failed(e) =>
        result := Rejects(TransportError(e));
      case Delivered(res) =>
        Commit(NewsletterUnsubscribe);
        ReplayOne(env.reducer, w.session, NewsletterUnsubscribe);
        if !HasEmail(current) {
          Commit(SetCustomer(None));
          assert [NewsletterUnsubscribe, SetCustomer(None)][..1] == [NewsletterUnsubscribe];
        }
        result := Resolves(ResponseReply(res));
    }

    /** The part both back-in-stock actions share once their guard has passed. */
    method ChangeWatching(request: Request, m: Mutation, useCache: bool, outcome: Outcome) returns (result: Settlement)
      modifies this
      ensures var st := WatchChange(env, old(State()), request, m, useCache, outcome);
              result == st.result && Snapshot() == Advance(env, old(Snapshot()), st)
    {
      ghost var w := State();
      Send(request);
      match outcome
      case Failed(e) =>
        result := Rejects(TransportError(e));
      case Delivered(res) =>
        match res.json
        case None =>
          result := NeverSettles;
        case Some(body) =>
          if body.success {
            Commit(m);
            ReplayOne(env.reducer, w.session, m);
            if useCache {
              UseCache(SetWatchingItem(backInStockWatching));
              PerformAllOne(w.cache, SetWatchingItem(env.reducer(w.session, m).watching));
            }
            result := Resolves(BodyReply(body));
          } else {
            result := Rejects(BodyReply(body));
          }
    }

    /** `watching` is the answer of the `isWatching(product.sku)` getter. */
    method BackInStockSubscribe(product: Product, email: string, subscribeForNewsletter: bool, useCache: bool,
                                watching: bool, outcome: Outcome) returns (result: Settlement)
      modifies this
      ensures var st := Actions.BackInStockSubscribe(env, old(State()), product, email, subscribeForNewsletter,
                                                     useCache, watching, outcome);
              result == st.result && Snapshot() == Advance(env, old(Snapshot()), st)
    {
      if watching {
        return ReturnsUndefined;
      }
      var form := Form(env.config, product, email, subscribeForNewsletter);
      result := ChangeWatching(Request(Post, env.config.backInStockEndpoint, FormBody(form)),
                               StoreState.BackInStockSubscribe(WatchKey(product)), useCache, outcome);
    }

    /** `watching` is the answer of the `isWatching(product.sku)` getter. */
    method BackInStockUnsubscribe(product: Product, email: string, subscribeForNewsletter: bool, useCache: bool,
                                  watching: bool, outcome: Outcome) returns (result: Settlement)
      modifies this
      ensures var st := Actions.BackInStockUnsubscribe(env, old(State()), product, email, subscribeForNewsletter,
                                                       useCache, watching, outcome);
              result == st.result && Snapshot() == Advance(env, old(Snapshot()), st)
    {
      if !watching {
        return ReturnsUndefined;
      }
      var form := Form(env.config, product, email, subscribeForNewsletter);
      result := ChangeWatching(Request(Delete, env.config.subscribeEndpoint, FormBody(form)),
                               StoreState.BackInStockUnsubscribe(WatchKey(product)), useCache, outcome);
    }

    method LoadWatchingList(useCache: bool, read: CacheRead) returns (result: Settlement)
      modifies this
      ensures var st := Actions.LoadWatchingList(env, old(State()), useCache, read);
              result == st.result && Snapshot() == Advance(env, old(Snapshot()), st)
    {
      if !useCache {
        return Rejects(Message(NotImplemented));
      }
      ghost var w := State();
      UseCache(GetItem(WatchingKey));
      PerformAllOne(w.cache, GetItem(WatchingKey));
      match read
      case ReadFails =>
        result := Rejects(Undefined);
      case ReadOk =>
        match cache.watching
        case Some(keys) =>
          Commit(SetWatching(keys));
          ReplayOne(env.reducer, w.session, SetWatching(keys));
          result := Resolves(WatchListReply(keys));
        case None =>
          result := Rejects(Message(NotImplemented));
    }

    /** `dispatch('track', ...)` with any rejection swallowed. */
    method TrackQuietly(event: string, data: Props, outcome: Outcome) returns (result: Settlement)
      modifies this
      ensures var st := Swallow(Actions.Track(env, old(State()), event, data, outcome));
              result == st.result && Snapshot() == Advance(env, old(Snapshot()), st)
    {
      result := Track(event, data, outcome);
      if result.Rejects? {
        result := Resolves(Undefined);
      }
    }

    method ProductViewed(product: Product, outcome: Outcome) returns (result: Settlement)
      modifies this
      ensures var st := Actions.ProductViewed(env, old(State()), product, outcome);
              result == st.result && Snapshot() == Advance(env, old(Snapshot()), st)
    {
      result := TrackQuietly(ViewedProduct, env.mappers.product(product), outcome);
    }

    method ProductAddedToCart(item: LineItem, outcome: Outcome) returns (result: Settlement)
      modifies this
      ensures var st := Actions.ProductAddedToCart(env, old(State()), item, outcome);
              result == st.result && Snapshot() == Advance(env, old(Snapshot()), st)
    {
      result := TrackQuietly(AddedToCart, env.mappers.lineItem(item), outcome);
    }

    method ProductRemovedFromCart(item: LineItem, outcome: Outcome) returns (result: Settlement)
      modifies this
      ensures var st := Actions.ProductRemovedFromCart(env, old(State()), item, outcome);
              result == st.result && Snapshot() == Advance(env, old(Snapshot()), st)
    {
      result := TrackQuietly(RemovedFromCart, env.mappers.lineItem(item), outcome);
    }

    method CheckoutStarted(cart: Cart, outcome: Outcome) returns (result: Settlement)
      modifies this
      ensures var st := Actions.CheckoutStarted(env, old(State()), cart, outcome);
              result == st.result && Snapshot() == Advance(env, old(Snapshot()), st)
    {
      result := TrackQuietly(StartedCheckout, env.mappers.cart(cart), outcome);
    }

    method ProductOrdered(order: Order, item: LineItem, outcome: Outcome) returns (result: Settlement)
      modifies this
      ensures var st := Actions.ProductOrdered(env, old(State()), order, item, outcome);
              result == st.result && Snapshot() == Advance(env, old(Snapshot()), st)
    {
      result := TrackQuietly(OrderedProduct, env.mappers.orderedProduct(order, item), outcome);
    }

    /** `order.products.forEach(...)`: one `productOrdered` dispatch per line item, in list order. */
    method DispatchOrderedProducts(order: Order, itemOutcomes: seq<Outcome>)
      requires |itemOutcomes| == |order.products|
      requires customer.Some?
      modifies this
      ensures State() == old(State())
      ensures commitLog == old(commitLog) && cacheLog == old(cacheLog)
      ensures requestLog == old(requestLog) + OrderedProductRequests(env, old(customer).value, order, order.products)
    {
      var i := 0;
      while i < |order.products|
        invariant 0 <= i <= |order.products|
        invariant State() == old(State())
        invariant commitLog == old(commitLog) && cacheLog == old(cacheLog)
        invariant requestLog == old(requestLog) + OrderedProductRequests(env, customer.value, order, order.products[..i])
      {
        var item := order.products[i];
        var ignored := ProductOrdered(order, item, itemOutcomes[i]);
        assert order.products[..i + 1] == order.products[..i] + [item];
        OrderedProductRequestsSnoc(env, customer.value, order, order.products[..i], item);
        i := i + 1;
      }
      assert order.products[..i] == order.products;
    }

    /**
     * `itemOutcomes[i]` answers the track request of the `i`-th line item; those
     * answers are swallowed, so the result and the record do not depend on them.
     */
    method OrderPlaced(order: Order, outcome: Outcome, itemOutcomes: seq<Outcome>) returns (result: Settlement)
      requires |itemOutcomes| == |order.products|
      modifies this
      ensures var st := Actions.OrderPlaced(env, old(State()), order, outcome);
              result == st.result && Snapshot() == Advance(env, old(Snapshot()), st)
    {
      ghost var w := State();
      OrderPlacedUnfold(env, w, order, outcome);
      var placed := Track(PlacedOrder, env.mappers.order(order), outcome);
      if !placed.Resolves? {
        return NeverSettles;
      }
      DispatchOrderedProducts(order, itemOutcomes);
      result := placed;
    }
  }
}
