/**
 * The session part of the Vuex store that the Klaviyo actions read and commit to:
 * `state.customer`, `state.isSubscribed` and `state.backInStockWatching`, and the
 * mutations the actions commit. The mutation handlers are not part of this model,
 * so every statement about the session after a commit is made relative to a
 * `Reducer`; `ByName` is the reading that each mutation's name announces.
 */
module StoreState {

  datatype Option<+T> = None | Some(value: T)

  /** A mapped object (customer properties, product properties, ...). */
  type Props = map<string, string>

  /** `customer` is null when absent; `isSubscribed` is null, true or false. */
  datatype Session = Session(customer: Option<Props>, isSubscribed: Option<bool>, watching: seq<string>)

  /** `state.isSubscribed` is truthy only when it is true: null and false both read as "not subscribed". */
  predicate Subscribed(s: Session) {
    s.isSubscribed == Some(true)
  }

  /** The mutation types the actions commit, with their payloads. */
  datatype Mutation =
    | SetCustomer(customer: Option<Props>)
    | SetNewsletterSubscribed(flag: Option<bool>)
    | NewsletterSubscribe
    | NewsletterUnsubscribe
    | SetWatching(keys: seq<string>)
    | BackInStockSubscribe(key: string)
    | BackInStockUnsubscribe(key: string)

  /** The store's mutation handlers, one state transition per committed mutation. */
  type Reducer = (Session, Mutation) -> Session

  /** The session after committing `ms` in order. */
  function Replay(r: Reducer, s: Session, ms: seq<Mutation>): Session
    decreases |ms|
  {
    if ms == [] then s else r(Replay(r, s, ms[..|ms| - 1]), ms[|ms| - 1])
  }

  lemma ReplayOne(r: Reducer, s: Session, m: Mutation)
    ensures Replay(r, s, [m]) == r(s, m)
  {
    assert [m][..0] == [];
  }

  /** Committing two batches one after the other is committing their concatenation. */
  lemma {:induction false} ReplayAppend(r: Reducer, s: Session, a: seq<Mutation>, b: seq<Mutation>)
    ensures Replay(r, s, a + b) == Replay(r, Replay(r, s, a), b)
    decreases |b|
  {
    if b == [] {
      assert a + b == a;
    } else {
      var b' := b[..|b| - 1];
      assert (a + b)[..|a + b| - 1] == a + b';
      ReplayAppend(r, s, a, b');
    }
  }

  /** `w` with every occurrence of `k` removed; everything else keeps its order. */
  function Without(w: seq<string>, k: string): (r: seq<string>)
    ensures forall x :: x in r <==> x in w && x != k
    ensures |r| <= |w|
    ensures k !in w ==> r == w
  {
    if w == [] then []
    else (if w[0] == k then [] else [w[0]]) + Without(w[1..], k)
  }

  /** Each mutation read as its name says; the store's real handlers are not part of this model. */
  function ByName(s: Session, m: Mutation): (s': Session)
    ensures m.BackInStockSubscribe? ==> m.key in s'.watching
    ensures m.BackInStockUnsubscribe? ==> m.key !in s'.watching
    ensures m.SetCustomer? ==> s'.customer == m.customer
    ensures Subscribed(s') <==> m.NewsletterSubscribe? || (Subscribed(s) && !m.NewsletterUnsubscribe? && !m.SetNewsletterSubscribed?)
                                || (m.SetNewsletterSubscribed? && m.flag == Some(true))
  {
    match m
    case SetCustomer(c) => s.(customer := c)
    case SetNewsletterSubscribed(f) => s.(isSubscribed := f)
    case NewsletterSubscribe => s.(isSubscribed := Some(true))
    case NewsletterUnsubscribe => s.(isSubscribed := Some(false))
    case SetWatching(keys) => s.(watching := keys)
    case BackInStockSubscribe(k) => s.(watching := s.watching + [k])
    case BackInStockUnsubscribe(k) => s.(watching := Without(s.watching, k))
  }

  /** Under `ByName`, the mutations that can change the watch list. */
  predicate TouchesWatching(m: Mutation) {
    m.SetWatching? || m.BackInStockSubscribe? || m.BackInStockUnsubscribe?
  }

  /** Under `ByName`, commits that never touch the watch list leave it as it was. */
  lemma {:induction false} ReplayKeepsWatching(r: Reducer, s: Session, ms: seq<Mutation>)
    requires HonoursNames(r)
    requires forall m :: m in ms ==> !TouchesWatching(m)
    ensures Replay(r, s, ms).watching == s.watching
    decreases |ms|
  {
    if ms != [] {
      var prefix := ms[..|ms| - 1];
      assert forall m :: m in prefix ==> m in ms;
      assert ms[|ms| - 1] in ms;
      ReplayKeepsWatching(r, s, prefix);
    }
  }

  /** Under `ByName`, commits without a `SetCustomer` leave the customer as it was. */
  lemma {:induction false} ReplayKeepsCustomer(r: Reducer, s: Session, ms: seq<Mutation>)
    requires HonoursNames(r)
    requires forall m :: m in ms ==> !m.SetCustomer?
    ensures Replay(r, s, ms).customer == s.customer
    decreases |ms|
  {
    if ms != [] {
      var prefix := ms[..|ms| - 1];
      assert forall m :: m in prefix ==> m in ms;
      assert ms[|ms| - 1] in ms;
      ReplayKeepsCustomer(r, s, prefix);
    }
  }

  /** The reducer `r` agrees with `ByName` on every state and mutation. */
  ghost predicate HonoursNames(r: Reducer) {
    forall s, m :: r(s, m) == ByName(s, m)
  }
}
