/**
 * The Klaviyo Vuex actions, each as one deterministic step. A step takes the
 * session and the cache as they are when the action is dispatched, the action's
 * arguments and the outcome of its one remote call (or of its one cache read), and
 * gives the mutations committed, the cache operations performed, the requests
 * issued and how the returned promise settles.
 */
module Actions {
  import opened StoreState
  import opened CacheStorage

  // Domain objects handed to the actions; apart from a product's skus and an
  // order's line items, only the mappers look inside them.
  datatype User = User(fields: Props)
  datatype Product = Product(sku: string, parentSku: Option<string>, fields: Props)
  datatype LineItem = LineItem(fields: Props)
  datatype Cart = Cart(fields: Props)
  datatype Order = Order(fields: Props, products: seq<LineItem>)

  /** The object `{ email }` that `subscribe` hands to the customer mapper. */
  function EmailOnly(email: string): User {
    User(map["email" := email])
  }

  /** The mappers of the helpers module: not part of this model, so left uninterpreted. */
  datatype Mappers = Mappers(
    customer: User -> Props,
    product: Product -> Props,
    lineItem: LineItem -> Props,
    cart: Cart -> Props,
    order: Order -> Props,
    orderedProduct: (Order, LineItem) -> Props)

  /** The `klaviyo` configuration values. */
  datatype Config = Config(
    publicKey: string,
    listId: string,
    platform: string,
    apiEndpoint: string,
    subscribeEndpoint: string,
    backInStockEndpoint: string)

  /** Everything a step depends on besides the state, the arguments and the outcome. */
  datatype Env = Env(config: Config, mappers: Mappers, reducer: Reducer)

  datatype HttpMethod = Get | Post | Delete

  /** What a request carries: the `data` query parameter before encoding, a JSON body or a multipart form. */
  datatype Payload =
    | IdentifyData(token: string, properties: Props)
    | TrackData(token: string, event: string, customerProperties: Props, properties: Props)
    | EmailBody(email: string)
    | FormBody(fields: seq<(string, string)>)

  datatype Request = Request(verb: HttpMethod, url: string, payload: Payload)

  /** The JSON answer of the back-in-stock calls. */
  datatype Body = Body(success: bool, fields: Props)

  /** An HTTP response; `json` is `None` when its body does not parse as JSON. */
  datatype Response = Response(status: nat, json: Option<Body>)

  /** The outcome of the one `fetch` an action makes: a response (any status) or a transport error. */
  datatype Outcome = Delivered(response: Response) | Failed(error: string)

  /** A value a promise resolves or rejects with. `Undefined` is also what `reject()` with no argument gives. */
  datatype Reply =
    | Undefined
    | Null
    | ResponseReply(response: Response)
    | BodyReply(body: Body)
    | TransportError(error: string)
    | Message(text: string)
    | CustomerReply(customer: Props)
    | WatchListReply(keys: seq<string>)

  /** What the caller of an action gets: a promise that resolves, rejects or never settles, or plain `undefined`. */
  datatype Settlement = Resolves(value: Reply) | Rejects(reason: Reply) | ReturnsUndefined | NeverSettles

  datatype World = World(session: Session, cache: Cache)

  datatype Step = Step(commits: seq<Mutation>, cacheOps: seq<CacheOp>, requests: seq<Request>, result: Settlement)

  /** The session and cache once a step's commits and cache operations have taken effect. */
  function After(env: Env, w: World, st: Step): World {
    World(Replay(env.reducer, w.session, st.commits), PerformAll(w.cache, st.cacheOps))
  }

  const NoCustomer := "No customer identified"
  const NotImplemented := "Not Implemented"

  const ViewedProduct := "Viewed Product"
  const AddedToCart := "Added to Cart Product"
  const RemovedFromCart := "Removed from Cart Product"
  const StartedCheckout := "Started Checkout"
  const PlacedOrder := "Placed Order"
  const OrderedProduct := "Ordered Product"

  /** A promise that resolves with the response and rejects with the transport error. */
  function Forwarded(outcome: Outcome): Settlement {
    match outcome
    case Delivered(res) => Resolves(ResponseReply(res))
    case Failed(e) => Rejects(TransportError(e))
  }

  /** The back-in-stock answer confirms the change: a JSON body whose `success` is set. */
  predicate Confirmed(outcome: Outcome) {
    outcome.Delivered? && outcome.response.json.Some? && outcome.response.json.value.success
  }

  // ---------------------------------------------------------------- identify

  function IdentifyRequest(env: Env, user: User): Request {
    Request(Get, env.config.apiEndpoint + "/identify", IdentifyData(env.config.publicKey, env.mappers.customer(user)))
  }

  function Identify(env: Env, w: World, user: User, useCache: bool, outcome: Outcome): (st: Step)
    ensures st.requests == [IdentifyRequest(env, user)]
    ensures st.result == Forwarded(outcome)
    ensures outcome.Failed? ==> st.commits == [] && st.cacheOps == [] && After(env, w, st) == w
    ensures outcome.Delivered? ==> st.commits == [SetCustomer(Some(env.mappers.customer(user)))]
    ensures st.cacheOps == if outcome.Delivered? && useCache then [SetCustomerItem(env.mappers.customer(user))] else []
    ensures After(env, w, st).cache
            == if outcome.Delivered? && useCache then w.cache.(customer := Some(env.mappers.customer(user))) else w.cache
  {
    var customer := env.mappers.customer(user);
    var request := IdentifyRequest(env, user);
    match outcome
    case Failed(_) => Step([], [], [request], Forwarded(outcome))
    case Delivered(_) =>
      PerformAllOne(w.cache, SetCustomerItem(customer));
      Step([SetCustomer(Some(customer))], if useCache then [SetCustomerItem(customer)] else [], [request], Forwarded(outcome))
  }

  // ---------------------------------------------------- loadCustomerFromCache

  function LoadCustomerFromCache(env: Env, w: World, read: CacheRead): (st: Step)
    ensures st.requests == [] && st.cacheOps == [GetItem(CustomerKey)]
    ensures After(env, w, st).cache == w.cache
    ensures st.result.Rejects? <==> read.ReadFails?
    ensures read.ReadFails? ==> st.result == Rejects(Undefined)
    ensures st.commits != [] <==> read.ReadOk? && w.cache.customer.Some?
    ensures read.ReadOk? && w.cache.customer.Some? ==>
              st.commits == [SetCustomer(w.cache.customer)] && st.result == Resolves(CustomerReply(w.cache.customer.value))
    ensures read.ReadOk? && w.cache.customer.None? ==> st.result == Resolves(Null)
  {
    var ops := [GetItem(CustomerKey)];
    match read
    case ReadFails => Step([], ops, [], Rejects(Undefined))
    case ReadOk =>
      match w.cache.customer
      case Some(c) => Step([SetCustomer(Some(c))], ops, [], Resolves(CustomerReply(c)))
      case None => Step([], ops, [], Resolves(Null))
  }

  // ------------------------------------------------------------ resetCustomer

  function ResetCustomer(env: Env, w: World, useCache: bool): (st: Step)
    ensures st.requests == [] && st.result == ReturnsUndefined
    ensures st.commits == [SetCustomer(None), SetNewsletterSubscribed(None), SetWatching([])]
    ensures After(env, w, st).cache == if useCache then Cache(None, None) else w.cache
    ensures st.cacheOps == if useCache then [RemoveItem(CustomerKey), RemoveItem(WatchingKey)] else []
  {
    PerformAllTwo(w.cache, RemoveItem(CustomerKey), RemoveItem(WatchingKey));
    Step([SetCustomer(None), SetNewsletterSubscribed(None), SetWatching([])],
         if useCache then [RemoveItem(CustomerKey), RemoveItem(WatchingKey)] else [],
         [],
         ReturnsUndefined)
  }

  // -------------------------------------------------------------------- track

  function TrackRequest(env: Env, customer: Props, event: string, data: Props): Request {
    Request(Get, env.config.apiEndpoint + "/track", TrackData(env.config.publicKey, event, customer, data))
  }

  function Track(env: Env, w: World, event: string, data: Props, outcome: Outcome): (st: Step)
    ensures st.commits == [] && st.cacheOps == [] && After(env, w, st) == w
    ensures st.requests == [] <==> w.session.customer.None?
    ensures w.session.customer.None? ==> st.result == Rejects(Message(NoCustomer))
    ensures w.session.customer.Some? ==>
              st.requests == [TrackRequest(env, w.session.customer.value, event, data)] && st.result == Forwarded(outcome)
  {
    match w.session.customer
    case None => Step([], [], [], Rejects(Message(NoCustomer)))
    case Some(c) => Step([], [], [TrackRequest(env, c, event, data)], Forwarded(outcome))
  }

  // ---------------------------------------------------- subscribe, unsubscribe

  /** The commits of a confirmed `subscribe`: the customer test reads the state after the first commit. */
  function SubscribeCommits(env: Env, s: Session, email: string): seq<Mutation> {
    [NewsletterSubscribe]
    + if env.reducer(s, NewsletterSubscribe).customer.None?
      then [SetCustomer(Some(env.mappers.customer(EmailOnly(email))))]
      else []
  }

  function Subscribe(env: Env, w: World, email: string, outcome: Outcome): (st: Step)
    ensures st.cacheOps == []
    ensures Subscribed(w.session) ==> st.requests == [] && st.commits == [] && st.result == ReturnsUndefined
    ensures !Subscribed(w.session) ==>
              st.requests == [Request(Post, env.config.subscribeEndpoint, EmailBody(email))] && st.result == Forwarded(outcome)
    ensures st.commits != [] <==> !Subscribed(w.session) && outcome.Delivered?
    ensures st.commits != [] ==>
              && st.commits[0] == NewsletterSubscribe
              && (|st.commits| == 2 <==> env.reducer(w.session, NewsletterSubscribe).customer.None?)
              && (|st.commits| == 2 ==> st.commits[1] == SetCustomer(Some(env.mappers.customer(EmailOnly(email)))))
              && |st.commits| <= 2
  {
    if Subscribed(w.session) then Step([], [], [], ReturnsUndefined)
    else
      var request := Request(Post, env.config.subscribeEndpoint, EmailBody(email));
      var commits := if outcome.Delivered? then SubscribeCommits(env, w.session, email) else [];
      Step(commits, [], [request], Forwarded(outcome))
  }

  /** `rootStore.state.user.current` exists and has a non-empty email. */
  predicate HasEmail(current: Option<User>) {
    current.Some? && "email" in current.value.fields && current.value.fields["email"] != ""
  }

  function Unsubscribe(env: Env, w: World, email: string, current: Option<User>, outcome: Outcome): (st: Step)
    ensures st.cacheOps == []
    ensures !Subscribed(w.session) ==> st.requests == [] && st.commits == [] && st.result == ReturnsUndefined
    ensures Subscribed(w.session) ==>
              st.requests == [Request(Delete, env.config.subscribeEndpoint, EmailBody(email))] && st.result == Forwarded(outcome)
    ensures st.commits != [] <==> Subscribed(w.session) && outcome.Delivered?
    ensures st.commits != [] ==>
              && st.commits[0] == NewsletterUnsubscribe
              && (|st.commits| == 2 <==> !HasEmail(current))
              && (|st.commits| == 2 ==> st.commits[1] == SetCustomer(None))
              && |st.commits| <= 2
  {
    if !Subscribed(w.session) then Step([], [], [], ReturnsUndefined)
    else
      var request := Request(Delete, env.config.subscribeEndpoint, EmailBody(email));
      var commits :=
        if outcome.Delivered?
        then [NewsletterUnsubscribe] + if HasEmail(current) then [] else [SetCustomer(None)]
        else [];
      Step(commits, [], [request], Forwarded(outcome))
  }

  // ------------------------------------------ back in stock: keys and form

  /** `product.parentSku` is truthy: present and not empty. */
  predicate HasParent(p: Product) {
    p.parentSku.Some? && p.parentSku.value != ""
  }

  /** The `product` form field: the parent sku when there is one, else the sku. */
  function ProductField(p: Product): string {
    if HasParent(p) then p.parentSku.value else p.sku
  }

  /** The key committed to the watch list. */
  function WatchKey(p: Product): (k: string)
    ensures k == p.sku <==> !HasParent(p)
    ensures |p.sku| <= |k| && k[|k| - |p.sku|..] == p.sku
    ensures HasParent(p) ==>
              |k| == |p.parentSku.value| + 1 + |p.sku|
              && k[..|p.parentSku.value|] == p.parentSku.value && k[|p.parentSku.value|] == '-'
  {
    if HasParent(p) then p.parentSku.value + "-" + p.sku else p.sku
  }

  function BoolText(b: bool): string {
    if b then "true" else "false"
  }

  /** The multipart form both back-in-stock actions send. */
  function Form(cfg: Config, p: Product, email: string, subscribeForNewsletter: bool): (fields: seq<(string, string)>)
    ensures |fields| == 7
    ensures fields[0] == ("a", cfg.publicKey) && fields[1] == ("email", email) && fields[2] == ("g", cfg.listId)
    ensures fields[3] == ("variant", p.sku)
    ensures fields[4].0 == "product" && fields[5] == ("platform", cfg.platform)
    ensures fields[6] == ("subscribe_for_newsletter", BoolText(subscribeForNewsletter))
    ensures WatchKey(p) == if HasParent(p) then fields[4].1 + "-" + fields[3].1 else fields[4].1
    ensures fields[4].1 == fields[3].1 <==> !HasParent(p) || p.parentSku.value == p.sku
  {
    [("a", cfg.publicKey), ("email", email), ("g", cfg.listId), ("variant", p.sku),
     ("product", ProductField(p)), ("platform", cfg.platform),
     ("subscribe_for_newsletter", BoolText(subscribeForNewsletter))]
  }

  /**
   * The common tail of both back-in-stock actions once the request is out: on a
   * confirming JSON body, commit `m` and write the resulting watch list to the
   * cache when `useCache`; a body that does not parse leaves the promise unsettled.
   */
  function WatchChange(env: Env, w: World, request: Request, m: Mutation, useCache: bool, outcome: Outcome): (st: Step)
    ensures st.requests == [request]
    ensures st.commits != [] <==> Confirmed(outcome)
    ensures Confirmed(outcome) ==>
              && st.commits == [m]
              && st.result == Resolves(BodyReply(outcome.response.json.value))
              && (st.cacheOps != [] <==> useCache)
              && (useCache ==> After(env, w, st).cache == w.cache.(watching := Some(After(env, w, st).session.watching)))
    ensures !Confirmed(outcome) ==> st.cacheOps == [] && After(env, w, st) == w
    ensures st.cacheOps == if Confirmed(outcome) && useCache then [SetWatchingItem(After(env, w, st).session.watching)] else []
    ensures After(env, w, st).cache.customer == w.cache.customer
    ensures outcome.Failed? ==> st.result == Rejects(TransportError(outcome.error))
    ensures outcome.Delivered? && outcome.response.json.None? ==> st.result == NeverSettles
    ensures outcome.Delivered? && outcome.response.json.Some? && !outcome.response.json.value.success ==>
              st.result == Rejects(BodyReply(outcome.response.json.value))
  {
    match outcome
    case Failed(e) => Step([], [], [request], Rejects(TransportError(e)))
    case Delivered(res) =>
      match res.json
      case None => Step([], [], [request], NeverSettles)
      case Some(body) =>
        if body.success then
          var ops := if useCache then [SetWatchingItem(env.reducer(w.session, m).watching)] else [];
          PerformAllOne(w.cache, SetWatchingItem(env.reducer(w.session, m).watching));
          ReplayOne(env.reducer, w.session, m);
          Step([m], ops, [request], Resolves(BodyReply(body)))
        else Step([], [], [request], Rejects(BodyReply(body)))
  }

  /** `watching` is what the `isWatching(product.sku)` getter answers; the getter is not part of this model. */
  function BackInStockSubscribe(env: Env, w: World, product: Product, email: string, subscribeForNewsletter: bool,
                                useCache: bool, watching: bool, outcome: Outcome): (st: Step)
    ensures watching ==> st == Step([], [], [], ReturnsUndefined)
    ensures !watching ==>
              st.requests == [Request(Post, env.config.backInStockEndpoint,
                                      FormBody(Form(env.config, product, email, subscribeForNewsletter)))]
    ensures st.commits != [] <==> !watching && Confirmed(outcome)
    ensures st.commits != [] ==> st.commits == [StoreState.BackInStockSubscribe(WatchKey(product))]
    ensures After(env, w, st).cache.customer == w.cache.customer
    ensures st.cacheOps != [] <==> !watching && Confirmed(outcome) && useCache
    ensures st.cacheOps == if !watching && Confirmed(outcome) && useCache
                           then [SetWatchingItem(After(env, w, st).session.watching)] else []
    ensures st.cacheOps != [] ==> After(env, w, st).cache.watching == Some(After(env, w, st).session.watching)
    ensures st.commits == [] ==> After(env, w, st) == w
    // how the promise settles once the request is out
    ensures !watching && Confirmed(outcome) ==> st.result == Resolves(BodyReply(outcome.response.json.value))
    ensures !watching && outcome.Delivered? && outcome.response.json.Some? && !outcome.response.json.value.success ==>
              st.result == Rejects(BodyReply(outcome.response.json.value))
    ensures !watching && outcome.Failed? ==> st.result == Rejects(TransportError(outcome.error))
    ensures !watching && outcome.Delivered? && outcome.response.json.None? ==> st.result == NeverSettles
  {
    if watching then Step([], [], [], ReturnsUndefined)
    else
      var request := Request(Post, env.config.backInStockEndpoint,
                             FormBody(Form(env.config, product, email, subscribeForNewsletter)));
      WatchChange(env, w, request, StoreState.BackInStockSubscribe(WatchKey(product)), useCache, outcome)
  }

  /** Sent to the general subscribe endpoint, not the back-in-stock one, as the source does. */
  function BackInStockUnsubscribe(env: Env, w: World, product: Product, email: string, subscribeForNewsletter: bool,
                                  useCache: bool, watching: bool, outcome: Outcome): (st: Step)
    ensures !watching ==> st == Step([], [], [], ReturnsUndefined)
    ensures watching ==>
              st.requests == [Request(Delete, env.config.subscribeEndpoint,
                                      FormBody(Form(env.config, product, email, subscribeForNewsletter)))]
    ensures st.commits != [] <==> watching && Confirmed(outcome)
    ensures st.commits != [] ==> st.commits == [StoreState.BackInStockUnsubscribe(WatchKey(product))]
    ensures After(env, w, st).cache.customer == w.cache.customer
    ensures st.cacheOps != [] <==> watching && Confirmed(outcome) && useCache
    ensures st.cacheOps == if watching && Confirmed(outcome) && useCache
                           then [SetWatchingItem(After(env, w, st).session.watching)] else []
    ensures st.cacheOps != [] ==> After(env, w, st).cache.watching == Some(After(env, w, st).session.watching)
    ensures st.commits == [] ==> After(env, w, st) == w
    // how the promise settles once the request is out
    ensures watching && Confirmed(outcome) ==> st.result == Resolves(BodyReply(outcome.response.json.value))
    ensures watching && outcome.Delivered? && outcome.response.json.Some? && !outcome.response.json.value.success ==>
              st.result == Rejects(BodyReply(outcome.response.json.value))
    ensures watching && outcome.Failed? ==> st.result == Rejects(TransportError(outcome.error))
    ensures watching && outcome.Delivered? && outcome.response.json.None? ==> st.result == NeverSettles
  {
    if !watching then Step([], [], [], ReturnsUndefined)
    else
      var request := Request(Delete, env.config.subscribeEndpoint,
                             FormBody(Form(env.config, product, email, subscribeForNewsletter)));
      WatchChange(env, w, request, StoreState.BackInStockUnsubscribe(WatchKey(product)), useCache, outcome)
  }

  // --------------------------------------------------------- loadWatchingList

  function LoadWatchingList(env: Env, w: World, useCache: bool, read: CacheRead): (st: Step)
    ensures st.requests == []
    ensures st.cacheOps == if useCache then [GetItem(WatchingKey)] else []
    ensures After(env, w, st).cache == w.cache
    ensures st.commits != [] <==> useCache && read.ReadOk? && w.cache.watching.Some?
    ensures st.commits != [] ==>
              st.commits == [SetWatching(w.cache.watching.value)] && st.result == Resolves(WatchListReply(w.cache.watching.value))
    ensures st.commits == [] ==> st.result.Rejects?
    ensures st.result == Rejects(Undefined) <==> useCache && read.ReadFails?
    ensures !useCache || (read.ReadOk? && w.cache.watching.None?) ==> st.result == Rejects(Message(NotImplemented))
  {
    var fromServer := Rejects(Message(NotImplemented));
    if !useCache then Step([], [], [], fromServer)
    else
      var ops := [GetItem(WatchingKey)];
      match read
      case ReadFails => Step([], ops, [], Rejects(Undefined))
      case ReadOk =>
        match w.cache.watching
        case Some(keys) => Step([SetWatching(keys)], ops, [], Resolves(WatchListReply(keys)))
        case None => Step([], ops, [], fromServer)
  }

  // ------------------------------------------------------ the track wrappers

  /** A rejection turned into a resolution with `undefined`: `.catch(err => {})`. */
  function Swallow(st: Step): (st': Step)
    ensures !st'.result.Rejects?
    ensures st.result.Rejects? ==> st' == st.(result := Resolves(Undefined))
    ensures !st.result.Rejects? ==> st' == st
  {
    if st.result.Rejects? then st.(result := Resolves(Undefined)) else st
  }

  /**
   * What every tracking wrapper promises: nothing committed or cached, one `track`
   * request with `event` and `data` exactly when a customer is identified, and a
   * promise that resolves with the response or, on any failure, with `undefined`.
   */
  ghost predicate TracksQuietly(env: Env, w: World, event: string, data: Props, outcome: Outcome, st: Step) {
    && st.commits == [] && st.cacheOps == []
    && st.requests == (if w.session.customer.Some? then [TrackRequest(env, w.session.customer.value, event, data)] else [])
    && st.result == (if w.session.customer.Some? && outcome.Delivered?
                     then Resolves(ResponseReply(outcome.response)) else Resolves(Undefined))
  }

  function ProductViewed(env: Env, w: World, product: Product, outcome: Outcome): (st: Step)
    ensures TracksQuietly(env, w, ViewedProduct, env.mappers.product(product), outcome, st)
  {
    Swallow(Track(env, w, ViewedProduct, env.mappers.product(product), outcome))
  }

  function ProductAddedToCart(env: Env, w: World, item: LineItem, outcome: Outcome): (st: Step)
    ensures TracksQuietly(env, w, AddedToCart, env.mappers.lineItem(item), outcome, st)
  {
    Swallow(Track(env, w, AddedToCart, env.mappers.lineItem(item), outcome))
  }

  function ProductRemovedFromCart(env: Env, w: World, item: LineItem, outcome: Outcome): (st: Step)
    ensures TracksQuietly(env, w, RemovedFromCart, env.mappers.lineItem(item), outcome, st)
  {
    Swallow(Track(env, w, RemovedFromCart, env.mappers.lineItem(item), outcome))
  }

  function CheckoutStarted(env: Env, w: World, cart: Cart, outcome: Outcome): (st: Step)
    ensures TracksQuietly(env, w, StartedCheckout, env.mappers.cart(cart), outcome, st)
  {
    Swallow(Track(env, w, StartedCheckout, env.mappers.cart(cart), outcome))
  }

  function ProductOrdered(env: Env, w: World, order: Order, item: LineItem, outcome: Outcome): (st: Step)
    ensures TracksQuietly(env, w, OrderedProduct, env.mappers.orderedProduct(order, item), outcome, st)
  {
    Swallow(Track(env, w, OrderedProduct, env.mappers.orderedProduct(order, item), outcome))
  }

  // -------------------------------------------------------------- orderPlaced

  /** The requests of one `productOrdered` dispatch per line item, in list order. */
  function OrderedProductRequests(env: Env, customer: Props, order: Order, items: seq<LineItem>): (rs: seq<Request>)
    ensures |rs| == |items|
    ensures forall i :: 0 <= i < |items| ==>
              rs[i] == TrackRequest(env, customer, OrderedProduct, env.mappers.orderedProduct(order, items[i]))
  {
    if items == [] then []
    else [TrackRequest(env, customer, OrderedProduct, env.mappers.orderedProduct(order, items[0]))]
         + OrderedProductRequests(env, customer, order, items[1..])
  }

  /** One more line item adds its request at the end. */
  lemma OrderedProductRequestsSnoc(env: Env, customer: Props, order: Order, items: seq<LineItem>, item: LineItem)
    ensures OrderedProductRequests(env, customer, order, items + [item])
            == OrderedProductRequests(env, customer, order, items)
               + [TrackRequest(env, customer, OrderedProduct, env.mappers.orderedProduct(order, item))]
  {
    var all := items + [item];
    assert forall i :: 0 <= i < |items| ==> all[i] == items[i];
  }

  /** `OrderPlaced` unfolded: the placed-order track step, then the line items only if it resolved. */
  lemma OrderPlacedUnfold(env: Env, w: World, order: Order, outcome: Outcome)
    ensures var placed := Track(env, w, PlacedOrder, env.mappers.order(order), outcome);
            OrderPlaced(env, w, order, outcome)
            == if placed.result.Resolves?
               then Step([], [], placed.requests + OrderedProductRequests(env, w.session.customer.value, order, order.products),
                         placed.result)
               else Step([], [], placed.requests, NeverSettles)
  {
  }

  /**
   * `track` with the mapped order; once it resolves, one `productOrdered` per line
   * item (their own outcomes are swallowed and cannot matter) and a resolution with
   * the track response. A failed track is swallowed without settling.
   */
  function OrderPlaced(env: Env, w: World, order: Order, outcome: Outcome): (st: Step)
    ensures st.commits == [] && st.cacheOps == []
    ensures st.result.Resolves? || st.result == NeverSettles
    ensures st.result.Resolves? <==> w.session.customer.Some? && outcome.Delivered?
    ensures st.result.Resolves? ==>
              && st.result == Resolves(ResponseReply(outcome.response))
              && |st.requests| == 1 + |order.products|
              && st.requests[0] == TrackRequest(env, w.session.customer.value, PlacedOrder, env.mappers.order(order))
              && st.requests[1..] == OrderedProductRequests(env, w.session.customer.value, order, order.products)
    ensures !st.result.Resolves? ==> |st.requests| <= 1 && (st.requests == [] <==> w.session.customer.None?)
    ensures !st.result.Resolves? && w.session.customer.Some? ==>
              st.requests == [TrackRequest(env, w.session.customer.value, PlacedOrder, env.mappers.order(order))]
  {
    var placed := Track(env, w, PlacedOrder, env.mappers.order(order), outcome);
    if placed.result.Resolves? then
      Step([], [], placed.requests + OrderedProductRequests(env, w.session.customer.value, order, order.products), placed.result)
    else Step([], [], placed.requests, NeverSettles)
  }
}
