/**
 The plain logic inside `useStore`: the missing-provider check, the value a
 consumer starts with, and what its listener does when the holder notifies
 it. React's `useContext`, `useState` and `useEffect` are replaced by explicit
 handle passing: the ambient holder is a nullable reference, the consumer's
 local state is the `value` of a `Consumer`, and mounting is a call to
 `StoreHolder.Subscribe` with the consumer's listener id.
 */
module Consumers {
  import opened Store

  /** The message `useStore` throws with when no provider is mounted above
      the consumer. */
  const StoreNotInitialized: string := "Store not initialized"

  datatype Result<T> = Success(value: T) | Failure(error: string)

  /** A mounted consumer: the id of the listener it subscribes, its selector,
      and the value held in its local state. */
  datatype Consumer<!V, L, T> = Consumer(listener: L, selector: State<V> -> T, value: T)

  /** The render phase of `useStore`: with no holder in context it fails with
      "Store not initialized"; otherwise the consumer starts from its
      selector applied to the holder's current value. */
  method UseStore<V, L(==), T>(context: StoreHolder?<V, L>, selector: State<V> -> T, listener: L)
    returns (r: Result<Consumer<V, L, T>>)
    ensures context == null <==> r.Failure?
    ensures r.Failure? ==> r.error == StoreNotInitialized
    ensures r.Success? ==> r.value.listener == listener && r.value.selector == selector
    ensures r.Success? ==> r.value.value == selector(context.state)
  {
    if context == null {
      return Failure(StoreNotInitialized);
    }
    var current := context.Get();
    r := Success(Consumer(listener, selector, selector(current)));
  }

  /** What the consumer looks like after the calls of `batch` ran: each call
      to its listener stores `selector(get())`, read when the call runs. */
  function Deliver<V, L(==), T>(c: Consumer<V, L, T>, batch: seq<Call<V, L>>): (r: Consumer<V, L, T>)
    ensures r.listener == c.listener && r.selector == c.selector
    decreases |batch|
  {
    if batch == [] then c
    else
      var next := if batch[0].listener == c.listener then c.(value := c.selector(batch[0].observed)) else c;
      Deliver(next, batch[1..])
  }

  /** When every call of a batch reads the same store value, a consumer ends
      with its selector applied to that value if its listener was called,
      and is untouched otherwise. */
  lemma {:induction false} DeliverUniform<V, L, T>(c: Consumer<V, L, T>, batch: seq<Call<V, L>>, observed: State<V>)
    requires forall i :: 0 <= i < |batch| ==> batch[i].observed == observed
    ensures c.listener in Listeners(batch) ==> Deliver(c, batch).value == c.selector(observed)
    ensures c.listener !in Listeners(batch) ==> Deliver(c, batch) == c
    decreases |batch|
  {
    if batch != [] {
      ListenersCons(batch);
      var next := if batch[0].listener == c.listener then c.(value := c.selector(batch[0].observed)) else c;
      DeliverUniform(next, batch[1..], observed);
    }
  }

  /** After one `set` round, every subscribed consumer holds its selector
      applied to the merged store value, and every other consumer (never
      subscribed, or unsubscribed) is left as it was. */
  lemma SetRefreshesConsumers<V, L, T>(c: Consumer<V, L, T>, batch: seq<Call<V, L>>, subscribers: set<L>, observed: State<V>)
    requires NotifiesEach(batch, subscribers, observed)
    ensures c.listener in subscribers ==> Deliver(c, batch).value == c.selector(observed)
    ensures c.listener !in subscribers ==> Deliver(c, batch) == c
  {
    DeliverUniform(c, batch, observed);
  }
}
