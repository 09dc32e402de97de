/**
 * Properties that relate several dispatches, or every action at once: what a
 * later action sees of an earlier one, the invariants the actions keep, and the
 * history of a watch-list key.
 */
module ActionProperties {
  import opened StoreState
  import opened CacheStorage
  import A = Actions
  import D = Dispatch

  // ------------------------------------------------------------ cache writes

  /** Every action writes the cache only when dispatched with `useCache`, and only after a delivered response (reset aside). */
  lemma CacheWrittenOnlyWhenAsked(env: A.Env, w: A.World, a: D.Action, outcome: A.Outcome, read: CacheRead)
    ensures var st := D.Run(env, w, a, outcome, read);
            D.ReadsOnly(st.cacheOps) || (D.CacheEnabled(a) && (a.ResetCustomer? || outcome.Delivered?))
  {
    match a
    case Identify(_, _) =>
    case LoadCustomerFromCache =>
    case ResetCustomer(_) =>
    case Track(_, _) =>
    case Subscribe(_) =>
    case Unsubscribe(_, _) =>
    case BackInStockSubscribe(_, _, _, _, _) =>
    case BackInStockUnsubscribe(_, _, _, _, _) =>
    case LoadWatchingList(_) =>
    case ProductViewed(_) =>
    case ProductAddedToCart(_) =>
    case ProductRemovedFromCart(_) =>
    case CheckoutStarted(_) =>
    case OrderPlaced(_) =>
    case ProductOrdered(_, _) =>
  }

  // ---------------------------------------------------- one action, then the next

  /** `identify` with the cache on, then `loadCustomerFromCache`, gives back the mapped customer. */
  lemma IdentifyThenLoadCustomer(env: A.Env, w: A.World, user: A.User, res: A.Response)
    ensures var w1 := A.After(env, w, A.Identify(env, w, user, true, A.Delivered(res)));
            var st := A.LoadCustomerFromCache(env, w1, ReadOk);
            && st.result == A.Resolves(A.CustomerReply(env.mappers.customer(user)))
            && st.commits == [SetCustomer(Some(env.mappers.customer(user)))]
            && (HonoursNames(env.reducer) ==> A.After(env, w1, st).session.customer == Some(env.mappers.customer(user)))
  {
    var w1 := A.After(env, w, A.Identify(env, w, user, true, A.Delivered(res)));
    ReplayOne(env.reducer, w1.session, SetCustomer(Some(env.mappers.customer(user))));
  }

  /** `resetCustomer` with the cache on, then the two loads: no customer (not an error), and the not-implemented fallback. */
  lemma ResetThenLoad(env: A.Env, w: A.World)
    ensures var w1 := A.After(env, w, A.ResetCustomer(env, w, true));
            && A.LoadCustomerFromCache(env, w1, ReadOk) == A.Step([], [GetItem(CustomerKey)], [], A.Resolves(A.Null))
            && A.LoadWatchingList(env, w1, true, ReadOk).result == A.Rejects(A.Message(A.NotImplemented))
  {
  }

  /** `resetCustomer` under the named meaning of its mutations empties the whole session. */
  lemma ResetClearsSession(env: A.Env, w: A.World, useCache: bool)
    requires HonoursNames(env.reducer)
    ensures A.After(env, w, A.ResetCustomer(env, w, useCache)).session == Session(None, None, [])
  {
    var ms := [SetCustomer(None), SetNewsletterSubscribed(None), SetWatching([])];
    assert ms[..2] == [SetCustomer(None), SetNewsletterSubscribed(None)];
    assert ms[..2][..1] == [SetCustomer(None)];
    ReplayOne(env.reducer, w.session, SetCustomer(None));
  }

  /** A second `subscribe` after a confirmed first one sends nothing: one POST in all. */
  lemma SubscribeTwice(env: A.Env, w: A.World, email: string, res: A.Response, second: A.Outcome)
    requires HonoursNames(env.reducer)
    requires !Subscribed(w.session)
    ensures var st1 := A.Subscribe(env, w, email, A.Delivered(res));
            var st2 := A.Subscribe(env, A.After(env, w, st1), email, second);
            |st1.requests + st2.requests| == 1 && st2.result == A.ReturnsUndefined
  {
    var st1 := A.Subscribe(env, w, email, A.Delivered(res));
    var s1 := env.reducer(w.session, NewsletterSubscribe);
    if |st1.commits| == 2 {
      assert st1.commits[..1] == [NewsletterSubscribe];
      ReplayOne(env.reducer, w.session, NewsletterSubscribe);
    } else {
      assert st1.commits == [NewsletterSubscribe];
      ReplayOne(env.reducer, w.session, NewsletterSubscribe);
    }
  }

  /** A confirmed back-in-stock subscription followed by a confirmed unsubscription leaves the product's key unwatched. */
  lemma BackInStockRoundTrip(env: A.Env, w: A.World, p: A.Product, email: string, sfn: bool, useCache: bool,
                             r1: A.Response, r2: A.Response)
    requires HonoursNames(env.reducer)
    requires A.Confirmed(A.Delivered(r1)) && A.Confirmed(A.Delivered(r2))
    ensures var w1 := A.After(env, w, A.BackInStockSubscribe(env, w, p, email, sfn, useCache, false, A.Delivered(r1)));
            var w2 := A.After(env, w1, A.BackInStockUnsubscribe(env, w1, p, email, sfn, useCache, true, A.Delivered(r2)));
            && A.WatchKey(p) in w1.session.watching
            && A.WatchKey(p) !in w2.session.watching
            && (useCache ==> w2.cache.watching == Some(w2.session.watching))
  {
    var w1 := A.After(env, w, A.BackInStockSubscribe(env, w, p, email, sfn, useCache, false, A.Delivered(r1)));
    ReplayOne(env.reducer, w.session, StoreState.BackInStockSubscribe(A.WatchKey(p)));
    ReplayOne(env.reducer, w1.session, StoreState.BackInStockUnsubscribe(A.WatchKey(p)));
  }

  /** The two examples of the composite key. */
  lemma WatchKeyExamples()
    ensures A.WatchKey(A.Product("S1", Some("P1"), map[])) == "P1-S1"
    ensures A.WatchKey(A.Product("S2", None, map[])) == "S2"
  {
  }

  /** A delivered `orderPlaced` sends one "Placed Order" track call and then one "Ordered Product" call per line item, in order. */
  lemma OrderPlacedFanOut(env: A.Env, w: A.World, order: A.Order, res: A.Response)
    requires w.session.customer.Some?
    ensures var st := A.OrderPlaced(env, w, order, A.Delivered(res));
            && |st.requests| == 1 + |order.products|
            && (forall i :: 0 <= i < |st.requests| ==>
                  st.requests[i].verb == A.Get && st.requests[i].url == env.config.apiEndpoint + "/track"
                  && st.requests[i].payload.TrackData?
                  && st.requests[i].payload.event == if i == 0 then A.PlacedOrder else A.OrderedProduct)
            && (forall i :: 0 < i < |st.requests| ==>
                  st.requests[i].payload.properties == env.mappers.orderedProduct(order, order.products[i - 1]))
  {
    var st := A.OrderPlaced(env, w, order, A.Delivered(res));
    var items := A.OrderedProductRequests(env, w.session.customer.value, order, order.products);
    assert forall i :: 0 < i < |st.requests| ==> st.requests[i] == items[i - 1];
  }

  // ------------------------------------------------ the customer and its cache

  /**
   * The cached customer mirrors the store's customer across every action except
   * `subscribe` and `unsubscribe`, provided `identify` and `resetCustomer` run with
   * the cache on.
   */
  lemma CustomerMirrorKept(env: A.Env, w: A.World, a: D.Action, outcome: A.Outcome, read: CacheRead)
    requires HonoursNames(env.reducer)
    requires w.session.customer == w.cache.customer
    requires !a.Subscribe? && !a.Unsubscribe?
    requires (a.Identify? || a.ResetCustomer?) ==> D.CacheEnabled(a)
    ensures var w' := A.After(env, w, D.Run(env, w, a, outcome, read));
            w'.session.customer == w'.cache.customer
  {
    match a
    case Identify(user, _) => IdentifyKeepsMirror(env, w, user, outcome);
    case LoadCustomerFromCache => LoadCustomerKeepsMirror(env, w, read);
    case ResetCustomer(_) => ResetKeepsMirror(env, w);
    case BackInStockSubscribe(p, email, sfn, useCache, watching) =>
      WatchChangeKeepsMirror(env, w, p, email, sfn, useCache, watching, outcome, true);
    case BackInStockUnsubscribe(p, email, sfn, useCache, watching) =>
      WatchChangeKeepsMirror(env, w, p, email, sfn, useCache, watching, outcome, false);
    case LoadWatchingList(useCache) => LoadWatchingKeepsMirror(env, w, useCache, read);
    case Track(_, _) =>
    case ProductViewed(_) =>
    case ProductAddedToCart(_) =>
    case ProductRemovedFromCart(_) =>
    case CheckoutStarted(_) =>
    case OrderPlaced(_) =>
    case ProductOrdered(_, _) =>
  }

  lemma IdentifyKeepsMirror(env: A.Env, w: A.World, user: A.User, outcome: A.Outcome)
    requires HonoursNames(env.reducer)
    requires w.session.customer == w.cache.customer
    ensures var w' := A.After(env, w, A.Identify(env, w, user, true, outcome));
            w'.session.customer == w'.cache.customer
  {
    if outcome.Delivered? {
      ReplayOne(env.reducer, w.session, SetCustomer(Some(env.mappers.customer(user))));
    }
  }

  lemma LoadCustomerKeepsMirror(env: A.Env, w: A.World, read: CacheRead)
    requires HonoursNames(env.reducer)
    requires w.session.customer == w.cache.customer
    ensures var w' := A.After(env, w, A.LoadCustomerFromCache(env, w, read));
            w'.session.customer == w'.cache.customer
  {
    if A.LoadCustomerFromCache(env, w, read).commits != [] {
      ReplayOne(env.reducer, w.session, SetCustomer(w.cache.customer));
    }
  }

  lemma ResetKeepsMirror(env: A.Env, w: A.World)
    requires HonoursNames(env.reducer)
    ensures var w' := A.After(env, w, A.ResetCustomer(env, w, true));
            w'.session.customer == w'.cache.customer
  {
    var rest := [SetNewsletterSubscribed(None), SetWatching([])];
    assert A.ResetCustomer(env, w, true).commits == [SetCustomer(None)] + rest;
    ReplayAppend(env.reducer, w.session, [SetCustomer(None)], rest);
    ReplayOne(env.reducer, w.session, SetCustomer(None));
    ReplayKeepsCustomer(env.reducer, Replay(env.reducer, w.session, [SetCustomer(None)]), rest);
  }

  /** Both back-in-stock actions; `subscribing` picks which. */
  lemma WatchChangeKeepsMirror(env: A.Env, w: A.World, p: A.Product, email: string, sfn: bool, useCache: bool,
                               watching: bool, outcome: A.Outcome, subscribing: bool)
    requires HonoursNames(env.reducer)
    requires w.session.customer == w.cache.customer
    ensures var st := if subscribing then A.BackInStockSubscribe(env, w, p, email, sfn, useCache, watching, outcome)
                      else A.BackInStockUnsubscribe(env, w, p, email, sfn, useCache, watching, outcome);
            var w' := A.After(env, w, st);
            w'.session.customer == w'.cache.customer
  {
    var m := if subscribing then StoreState.BackInStockSubscribe(A.WatchKey(p)) else StoreState.BackInStockUnsubscribe(A.WatchKey(p));
    var st := if subscribing then A.BackInStockSubscribe(env, w, p, email, sfn, useCache, watching, outcome)
              else A.BackInStockUnsubscribe(env, w, p, email, sfn, useCache, watching, outcome);
    if st.commits != [] {
      assert st.commits == [m];
      ReplayOne(env.reducer, w.session, m);
    }
  }

  lemma LoadWatchingKeepsMirror(env: A.Env, w: A.World, useCache: bool, read: CacheRead)
    requires HonoursNames(env.reducer)
    requires w.session.customer == w.cache.customer
    ensures var w' := A.After(env, w, A.LoadWatchingList(env, w, useCache, read));
            w'.session.customer == w'.cache.customer
  {
    if A.LoadWatchingList(env, w, useCache, read).commits != [] {
      ReplayOne(env.reducer, w.session, SetWatching(w.cache.watching.value));
    }
  }

  /** `subscribe` can give the store a customer that the cache never sees. */
  lemma SubscribeLeavesCacheBehind(env: A.Env, w: A.World, email: string, res: A.Response)
    requires HonoursNames(env.reducer)
    requires w.session.customer.None? && !Subscribed(w.session) && w.cache.customer.None?
    ensures var w' := A.After(env, w, A.Subscribe(env, w, email, A.Delivered(res)));
            w'.session.customer == Some(env.mappers.customer(A.EmailOnly(email))) && w'.cache.customer.None?
  {
    var st := A.Subscribe(env, w, email, A.Delivered(res));
    assert st.commits[..1] == [NewsletterSubscribe];
    ReplayOne(env.reducer, w.session, NewsletterSubscribe);
  }

  /** `unsubscribe` without a logged-in email drops the store's customer but leaves the cached one. */
  lemma UnsubscribeLeavesCacheBehind(env: A.Env, w: A.World, email: string, current: Option<A.User>, res: A.Response)
    requires HonoursNames(env.reducer)
    requires w.session.customer.Some? && w.cache.customer == w.session.customer
    requires Subscribed(w.session) && !A.HasEmail(current)
    ensures var w' := A.After(env, w, A.Unsubscribe(env, w, email, current, A.Delivered(res)));
            w'.session.customer.None? && w'.cache.customer == w.session.customer
  {
  }

  // ------------------------------------------------ history of a watch-list key

  /** What event `e` does to watch-list key `k`, read from the event alone: set it, clear it, or nothing. */
  function WatchEffect(e: D.Event, k: string): Option<bool> {
    match e.action
    case ResetCustomer(_) => Some(false)
    case BackInStockSubscribe(p, _, _, _, watching) =>
      if !watching && A.Confirmed(e.outcome) && A.WatchKey(p) == k then Some(true) else None
    case BackInStockUnsubscribe(p, _, _, _, watching) =>
      if watching && A.Confirmed(e.outcome) && A.WatchKey(p) == k then Some(false) else None
    case _ => None
  }

  /** Whether `k` is watched after `script`: decided by the last event that sets or clears it. */
  function WatchedAfter(script: seq<D.Event>, k: string, initially: bool): bool
    decreases |script|
  {
    if script == [] then initially
    else match WatchEffect(script[|script| - 1], k)
      case Some(b) => b
      case None => WatchedAfter(script[..|script| - 1], k, initially)
  }

  /** One dispatch changes whether `k` is watched exactly as `WatchEffect` says. */
  lemma StepWatching(env: A.Env, w: A.World, e: D.Event, k: string)
    requires HonoursNames(env.reducer)
    requires !e.action.LoadWatchingList?
    ensures var w' := A.After(env, w, D.Run(env, w, e.action, e.outcome, e.read));
            k in w'.session.watching <==> match WatchEffect(e, k) case Some(b) => b case None => k in w.session.watching
  {
    var a := e.action;
    match a
    case ResetCustomer(useCache) => ResetClearsSession(env, w, useCache);
    case BackInStockSubscribe(p, email, sfn, useCache, watching) =>
      WatchChangeEffect(env, w, p, email, sfn, useCache, watching, e.outcome, true, k);
    case BackInStockUnsubscribe(p, email, sfn, useCache, watching) =>
      WatchChangeEffect(env, w, p, email, sfn, useCache, watching, e.outcome, false, k);
    case _ =>
      if D.AccountAction(a) {
        AccountKeepsWatching(env, w, a, e.outcome, e.read);
      } else {
        TelemetryKeepsWatching(env, w, a, e.outcome);
      }
  }

  /** The account actions other than `resetCustomer` never touch the watch list. */
  lemma AccountKeepsWatching(env: A.Env, w: A.World, a: D.Action, outcome: A.Outcome, read: CacheRead)
    requires HonoursNames(env.reducer)
    requires D.AccountAction(a) && !a.ResetCustomer?
    ensures A.After(env, w, D.RunAccount(env, w, a, outcome, read)).session.watching == w.session.watching
  {
    KeepsWatching(env, w, D.RunAccount(env, w, a, outcome, read));
  }

  /** The tracking actions commit nothing, so they keep the watch list. */
  lemma TelemetryKeepsWatching(env: A.Env, w: A.World, a: D.Action, outcome: A.Outcome)
    requires D.Telemetry(a)
    ensures A.After(env, w, D.RunTelemetry(env, w, a, outcome)).session.watching == w.session.watching
  {
  }

  /**
   * What one back-in-stock action does to key `k`: when its guard passes and the
   * answer confirms, `k` is watched afterwards exactly when subscribing (if `k` is
   * the product's key); otherwise whether `k` is watched is unchanged.
   */
  lemma WatchChangeEffect(env: A.Env, w: A.World, p: A.Product, email: string, sfn: bool, useCache: bool,
                          watching: bool, outcome: A.Outcome, subscribing: bool, k: string)
    requires HonoursNames(env.reducer)
    ensures var st := if subscribing then A.BackInStockSubscribe(env, w, p, email, sfn, useCache, watching, outcome)
                      else A.BackInStockUnsubscribe(env, w, p, email, sfn, useCache, watching, outcome);
            var applies := watching != subscribing && A.Confirmed(outcome) && A.WatchKey(p) == k;
            k in A.After(env, w, st).session.watching <==> if applies then subscribing else k in w.session.watching
  {
    var m := if subscribing then StoreState.BackInStockSubscribe(A.WatchKey(p)) else StoreState.BackInStockUnsubscribe(A.WatchKey(p));
    var st := if subscribing then A.BackInStockSubscribe(env, w, p, email, sfn, useCache, watching, outcome)
              else A.BackInStockUnsubscribe(env, w, p, email, sfn, useCache, watching, outcome);
    if st.commits != [] {
      assert st.commits == [m];
      ReplayOne(env.reducer, w.session, m);
    }
  }

  /** A step whose commits only set the customer or the subscription flag keeps the watch list. */
  lemma KeepsWatching(env: A.Env, w: A.World, st: A.Step)
    requires HonoursNames(env.reducer)
    requires forall i :: 0 <= i < |st.commits| ==> !TouchesWatching(st.commits[i])
    ensures A.After(env, w, st).session.watching == w.session.watching
  {
    ReplayKeepsWatching(env.reducer, w.session, st.commits);
  }

  /**
   * A key is on the watch list after a run of dispatches exactly when the last
   * event that touched it was a confirmed subscription (or, with no such event, when
   * it was there to begin with). Runs that load the watch list from the cache are
   * excluded: what such a load brings back depends on the cache, not on the run.
   */
  lemma {:induction false} WatchListHistory(env: A.Env, w: A.World, script: seq<D.Event>, k: string)
    requires HonoursNames(env.reducer)
    requires forall e :: e in script ==> !e.action.LoadWatchingList?
    ensures k in D.RunScript(env, w, script).session.watching <==> WatchedAfter(script, k, k in w.session.watching)
    decreases |script|
  {
    if script != [] {
      var prefix := script[..|script| - 1];
      var last := script[|script| - 1];
      assert forall e :: e in prefix ==> e in script;
      assert last in script;
      WatchListHistory(env, w, prefix, k);
      StepWatching(env, D.RunScript(env, w, prefix), last, k);
    }
  }
}
