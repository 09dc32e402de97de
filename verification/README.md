# Klaviyo store actions, modelled in Dafny

This project models the Vuex actions of the Vue Storefront Klaviyo module
(`store/actions.ts`). These actions identify a shopper to Klaviyo, send tracking
events, subscribe and unsubscribe the shopper from the newsletter and from
back-in-stock alerts, and keep a client-side cache of the customer and the watch
list.

Each action is modelled as one deterministic step. A step takes:
- the session (`customer`, `isSubscribed`, `backInStockWatching`) and the cache,
  as they are when the action is dispatched;
- the action's arguments;
- the outcome of the action's one `fetch` (a response, which may or may not carry
  parseable JSON, or a transport error), or the outcome of its one cache read.

A step (`Actions.Step`) produces:
- the mutations committed;
- the cache operations performed, reads included;
- the requests issued;
- how the returned promise settles: it resolves, rejects or never settles, or the
  action returns plain `undefined`.

The modules:
- `StoreState`: the session and the mutations. A committed mutation takes effect
  through the store's handlers. These handlers are a parameter (`Reducer`), so
  every claim about the session after a commit holds for any handlers. Claims that
  need the handlers to do what their names say require `HonoursNames`, which
  compares them with `ByName`.
- `CacheStorage`: the two cache keys `customer` and `backInStockWatching`.
- `Actions`: one step function per action.
- `Dispatch`: all actions under one `Run`, and a run of several dispatches.
- `ActionProperties`: properties relating several actions.
- `Store`: the store as an object (`KlaviyoStore`). It holds the session fields,
  the cache and logs of commits, cache operations and requests. It has one method
  per action, and each method is proved to perform exactly the step that
  `Actions` defines.

Behaviour of the code that a caller may not expect, which the model follows:
- `subscribe` and `unsubscribe` change the store's customer without touching the
  cache. The cached customer is therefore not always a mirror of the store's
  customer (`ActionProperties.SubscribeLeavesCacheBehind`,
  `ActionProperties.UnsubscribeLeavesCacheBehind`).
- `backInStockUnsubscribe` sends its `DELETE` to the general subscribe endpoint.
- A failed "Placed Order" track call leaves the promise of `orderPlaced` unsettled.
- A back-in-stock response whose body is not JSON also leaves the promise
  unsettled.
- The empty watch list read from the cache counts as a hit, as an empty array is
  truthy.

## Model

| member | source | states |
|---|---|---|
| Actions.Identify | store/actions.ts:15-38 | one GET to `<api>/identify` carrying the public key and the mapped customer; on a response, commit `SET_CUSTOMER` with the mapped customer and, exactly when `useCache` is set, one `setItem` of it under `customer`; a transport error changes nothing; the promise forwards the response or the error |
| Actions.LoadCustomerFromCache | store/actions.ts:41-52 | exactly one read of `customer` and no request; a cached customer is committed and resolved; an absent one resolves null without a commit; the promise rejects (with `undefined`) exactly when the read fails |
| Actions.ResetCustomer | store/actions.ts:54-62 | commits the customer, the subscription flag and the watch list cleared, in that order; with `useCache`, removes `customer` and then `backInStockWatching`, and touches no cache without it; sends nothing and returns `undefined` |
| Actions.Track | store/actions.ts:64-94 | without a customer, rejects with "No customer identified" and sends nothing; with one, one GET to `<api>/track` with the token, event, customer and data; never commits or touches the cache |
| Actions.Subscribe | store/actions.ts:96-118 | already subscribed: nothing sent, `undefined` returned; otherwise one POST of `{ email }` to the subscribe endpoint; commits happen exactly on a response: `NEWSLETTER_SUBSCRIBE`, then `SET_CUSTOMER` of the email-only customer exactly when the state after the first commit has no customer; the cache is never touched |
| Actions.Unsubscribe | store/actions.ts:120-141 | not subscribed: nothing sent, `undefined` returned; otherwise one DELETE to the subscribe endpoint; on a response, `NEWSLETTER_UNSUBSCRIBE`, then the customer cleared exactly when the logged-in user has no email |
| Actions.WatchKey | store/actions.ts:163 | the watch-list key equals the sku exactly when there is no non-empty parent sku; otherwise it is parent, `-`, sku; it always ends with the sku |
| Actions.Form | store/actions.ts:145-153 | the seven form fields in order (`a`, `email`, `g`, `variant`, `product`, `platform`, `subscribe_for_newsletter`) with their values; the watch key is rebuilt from the `product` and `variant` fields |
| Actions.WatchChange | store/actions.ts:160-173 | the shared tail of both back-in-stock actions: it commits exactly on a JSON body with `success`, and then resolves with that body; with `useCache` it then logs exactly one `setItem` of the watch list as it stands after the commit, and no cache operation otherwise; a body without success rejects with the body, a transport error rejects with the error, an unparseable body never settles; the cached customer is never touched |
| Actions.BackInStockSubscribe | store/actions.ts:143-176 | already watching: nothing happens and `undefined` is returned; otherwise one POST of the form to the back-in-stock endpoint; `BACK_IN_STOCK_SUBSCRIBE` of the watch key exactly on confirmation; exactly one `setItem` of the new watch list on confirmation with `useCache`, and no cache operation otherwise; otherwise session and cache unchanged; the promise resolves with the JSON body on `success`, rejects with the body without it, rejects with a transport error, and never settles on a body that is not JSON |
| Actions.BackInStockUnsubscribe | store/actions.ts:178-212 | not watching: nothing happens; otherwise one DELETE of the form to the subscribe endpoint; `BACK_IN_STOCK_UNSUBSCRIBE` of the watch key exactly on confirmation; cache write, mirror and settlement as for subscribing |
| Actions.LoadWatchingList | store/actions.ts:214-243 | never sends; reads `backInStockWatching` only with `useCache`; commits and resolves the cached list exactly when that read succeeds and finds one; otherwise rejects: with `undefined` exactly when the read fails, with "Not Implemented" on no cache or a miss |
| Actions.Swallow | store/actions.ts:246 | `.catch(err => {})`: the result never rejects; a rejection becomes a resolution with `undefined`; everything else is kept |
| Actions.ProductViewed | store/actions.ts:245-247 | a "Viewed Product" track with the mapped product: no commit, no cache, one request exactly when a customer is identified, resolves with the response or with `undefined` |
| Actions.ProductAddedToCart | store/actions.ts:249-251 | as above, "Added to Cart Product" with the mapped line item |
| Actions.ProductRemovedFromCart | store/actions.ts:253-255 | as above, "Removed from Cart Product" with the mapped line item |
| Actions.CheckoutStarted | store/actions.ts:257-259 | as above, "Started Checkout" with the mapped cart |
| Actions.ProductOrdered | store/actions.ts:272-274 | as above, "Ordered Product" with the mapped order and line item |
| Actions.OrderedProductRequests | store/actions.ts:264-266 | one "Ordered Product" track request per line item, the `i`-th for the `i`-th item |
| Actions.OrderPlaced | store/actions.ts:261-270 | no commit, no cache; resolves with the track response exactly when a customer exists and the "Placed Order" call gets a response, and then the "Placed Order" request is followed by one "Ordered Product" request per line item; otherwise never settles, having sent exactly the "Placed Order" request when a customer exists and nothing otherwise |
| Dispatch.Run | store/actions.ts:14-275 | over every action: state changes only after a response, after a successful cache read, or on reset; at most one request except for `orderPlaced`; the tracking wrappers never reject, commit or touch the cache |
| Dispatch.RunAccount | store/actions.ts:15-141 | for the customer and newsletter actions: commits only on reset, a successful customer read or a response; at most one request |
| Dispatch.RunWatch | store/actions.ts:143-243 | for the watch-list actions: commits only after a successful cache read or a response; at most one request |
| Dispatch.RunTelemetry | store/actions.ts:245-274 | the tracking actions never reject, commit or touch the cache; only `orderPlaced` sends more than one request |
| ActionProperties.CacheWrittenOnlyWhenAsked | store/actions.ts:14-275 | every action writes the cache only when dispatched with `useCache`, and only after a response, reset aside |
| ActionProperties.IdentifyThenLoadCustomer | store/actions.ts:15-52 | after `identify` with the cache on, `loadCustomerFromCache` resolves with, and commits, the same mapped customer |
| ActionProperties.ResetThenLoad | store/actions.ts:41-62 | after `resetCustomer` with the cache on, loading the customer resolves null and commits nothing; loading the watch list rejects with "Not Implemented" |
| ActionProperties.ResetClearsSession | store/actions.ts:54-62 | under the named handlers, `resetCustomer` leaves the session empty |
| ActionProperties.SubscribeTwice | store/actions.ts:96-118 | a second `subscribe` after a delivered first one sends nothing and returns `undefined`: one POST in all |
| ActionProperties.BackInStockRoundTrip | store/actions.ts:143-212 | a confirmed subscribe puts the product's key on the watch list; a confirmed unsubscribe then removes it, and the cache holds the resulting list |
| ActionProperties.WatchKeyExamples | store/actions.ts:163 | parent `P1` with sku `S1` gives `P1-S1`; `S2` without a parent gives `S2` |
| ActionProperties.OrderPlacedFanOut | store/actions.ts:261-274 | a delivered `orderPlaced` sends `1 + n` GETs to `<api>/track` for `n` line items: "Placed Order" first, then "Ordered Product" with the mapped pair for each item in order |
| ActionProperties.CustomerMirrorKept | store/actions.ts:14-275 | if the cached customer equals the store's customer before an action other than `subscribe`/`unsubscribe`, it still does afterwards, given `identify` and `resetCustomer` run with the cache on |
| ActionProperties.IdentifyKeepsMirror | store/actions.ts:31-34 | `identify` with the cache on keeps the cached customer equal to the store's |
| ActionProperties.LoadCustomerKeepsMirror | store/actions.ts:43-46 | loading the customer from the cache keeps the two equal |
| ActionProperties.ResetKeepsMirror | store/actions.ts:54-62 | `resetCustomer` with the cache on leaves no customer in either place |
| ActionProperties.WatchChangeKeepsMirror | store/actions.ts:160-173 | the back-in-stock actions keep the cached customer equal to the store's |
| ActionProperties.LoadWatchingKeepsMirror | store/actions.ts:222-226 | loading the watch list keeps the cached customer equal to the store's |
| ActionProperties.SubscribeLeavesCacheBehind | store/actions.ts:104-110 | `subscribe` with no customer anywhere gives the store the email-only customer while the cache stays empty |
| ActionProperties.UnsubscribeLeavesCacheBehind | store/actions.ts:128-133 | `unsubscribe` without a logged-in email clears the store's customer while the cache keeps the old one |
| ActionProperties.StepWatching | store/actions.ts:54-212 | one dispatch (other than a watch-list load) changes whether a key is watched exactly as `WatchEffect` says: reset clears it, a confirmed back-in-stock call on that key sets or clears it, anything else keeps it |
| ActionProperties.WatchChangeEffect | store/actions.ts:143-212 | a back-in-stock action whose guard passes and whose answer confirms makes the product's key watched exactly when subscribing; any other key, and any other outcome, keeps its watched state |
| ActionProperties.KeepsWatching | store/actions.ts:32-132 | a step whose commits never touch the watch list keeps it |
| ActionProperties.AccountKeepsWatching | store/actions.ts:15-141 | the customer and newsletter actions other than reset keep the watch list |
| ActionProperties.TelemetryKeepsWatching | store/actions.ts:245-274 | the tracking actions keep the watch list |
| ActionProperties.WatchListHistory | store/actions.ts:143-212 | after any run of dispatches without a watch-list load, a key is watched exactly when the last event that set or cleared it set it, or, with no such event, when it was watched at the start |
| StoreState.Without | store/actions.ts:199 | the reference reading of removing a key from the watch list: exactly the other keys stay, and a list without the key is unchanged |
| StoreState.ByName | store/actions.ts:55-57 | the reference reading of the mutations: a subscribed key is on the list, an unsubscribed one is not, `SET_CUSTOMER` sets the customer, and the subscription flag is true exactly after a subscribe or after it was true and nothing reset or cleared it |
| StoreState.ReplayAppend | store/actions.ts:55-57 | committing two batches one after another is committing their concatenation |
| StoreState.ReplayKeepsWatching | store/actions.ts:105-132 | under the named handlers, commits that never touch the watch list leave it as it was |
| StoreState.ReplayKeepsCustomer | store/actions.ts:56-57 | under the named handlers, commits without `SET_CUSTOMER` leave the customer as it was |
| Store.KlaviyoStore.Identify | store/actions.ts:15-38 | the object's result, session, cache and logs are exactly those of `Actions.Identify` from its previous state |
| Store.KlaviyoStore.LoadCustomerFromCache | store/actions.ts:41-52 | likewise for `Actions.LoadCustomerFromCache` |
| Store.KlaviyoStore.ResetCustomer | store/actions.ts:54-62 | likewise for `Actions.ResetCustomer` |
| Store.KlaviyoStore.Track | store/actions.ts:64-94 | likewise for `Actions.Track` |
| Store.KlaviyoStore.Subscribe | store/actions.ts:96-118 | likewise for `Actions.Subscribe`; the customer test reads the field after the first commit |
| Store.KlaviyoStore.Unsubscribe | store/actions.ts:120-141 | likewise for `Actions.Unsubscribe` |
| Store.KlaviyoStore.ChangeWatching | store/actions.ts:160-173 | likewise for `Actions.WatchChange`; the cache receives the watch-list field as it stands after the commit |
| Store.KlaviyoStore.BackInStockSubscribe | store/actions.ts:143-176 | likewise for `Actions.BackInStockSubscribe` |
| Store.KlaviyoStore.BackInStockUnsubscribe | store/actions.ts:178-212 | likewise for `Actions.BackInStockUnsubscribe` |
| Store.KlaviyoStore.LoadWatchingList | store/actions.ts:214-243 | likewise for `Actions.LoadWatchingList` |
| Store.KlaviyoStore.TrackQuietly | store/actions.ts:246 | likewise for `Actions.Swallow` applied to `Actions.Track` |
| Store.KlaviyoStore.ProductViewed | store/actions.ts:245-247 | likewise for `Actions.ProductViewed` |
| Store.KlaviyoStore.ProductAddedToCart | store/actions.ts:249-251 | likewise for `Actions.ProductAddedToCart` |
| Store.KlaviyoStore.ProductRemovedFromCart | store/actions.ts:253-255 | likewise for `Actions.ProductRemovedFromCart` |
| Store.KlaviyoStore.CheckoutStarted | store/actions.ts:257-259 | likewise for `Actions.CheckoutStarted` |
| Store.KlaviyoStore.ProductOrdered | store/actions.ts:272-274 | likewise for `Actions.ProductOrdered` |
| Store.KlaviyoStore.DispatchOrderedProducts | store/actions.ts:264-266 | the loop over the line items appends exactly one "Ordered Product" request per item, in order, and changes nothing else, whatever each item's own outcome |
| Store.KlaviyoStore.OrderPlaced | store/actions.ts:261-270 | likewise for `Actions.OrderPlaced`, for any outcomes of the per-item calls |

## Left out

- Request encoding is not modelled. `encode` (base64 of JSON), URL building with `searchParams`, `FormData`, headers and the `cors` mode are left out. A request is kept as its verb, endpoint and structured payload.
- The mappers (`mapCustomer`, `mapProduct`, and the rest) are uninterpreted function parameters. Their code is not part of this model.
- The store's mutation handlers are a `Reducer` parameter; `ByName` is only their reference reading. The handler code is not part of this model.
- The `isWatching` getter and `rootStore.state.user.current` are not modelled. Their answers are arguments of the actions.
- The default `useCache = true` of `identify`, `resetCustomer`, `backInStockSubscribe`, `backInStockUnsubscribe` and `loadWatchingList` is not modelled: every caller, `Dispatch.Action` included, passes the flag explicitly, so a dispatch that omits it corresponds to passing `true`.
- `ReturnsUndefined` is what an action handler itself returns. Vuex's `dispatch` turns it into a promise that resolves with `undefined`; that wrapping is not modelled.
- The `klaviyo` configuration values are arguments (`Config`), not fixed constants.
- Promises, timing and concurrency are not modelled. Each action is one atomic step, and the next action is dispatched only after the previous one settles. Interleaved dispatches and a state change between a request and its response are not modelled.
- Cache writes and removals are not awaited in the source; the model treats them as instantly successful. A failing cache write is not modelled.
- `console.warn` in `track` is left out, because it is logging only.
- Only `null` is modelled as a missing customer. `track` tests `=== null`, so an `undefined` or other falsy customer would behave differently; such values are not modelled.
- Non-boolean `subscribeForNewsletter` values are not modelled. The form field is the text of a boolean.
- The `json.success` flag is modelled as a boolean; other truthy or falsy values are not modelled.
- Exceptions thrown by a mapper, by a handler, by `res.json()`, or by `encode` are not modelled. `window.btoa` throws on text outside Latin-1. The model treats encoding as total, so `identify`, `track` and the tracking wrappers always send their request. An `encode` throw would instead make them send nothing, make the wrappers throw before their `catch` applies, and make `orderPlaced` reject or stop partway through its line items. An unparseable body is modelled as a promise that never settles, as the missing `catch` on `res.json()` leaves it.
- Store.KlaviyoStore.OrderPlaced: requires one outcome per line item. This is the sequence of answers to the per-item calls, not a demand of the source.
- Actions.OrderPlaced: does not take the per-item outcomes. They are swallowed and cannot affect the result or the state, so the step does not depend on them.
