/**
 The store holder that `useStoreData` builds for one mounted provider: the
 current store value, the set of subscribed callbacks, and the three
 operations `get`, `set` and `subscribe` (with the unsubscribe closure that
 `subscribe` returns).

 The store record is a map from field names to field values, so the spread
 `{ ...current, ...partial }` is a map union in which the partial wins.
 Callbacks are opaque listener ids; invoking one is recorded as a `Call` in the
 holder's `calls` log, together with the store value it reads.
 */
module Store {

  /** A store record: field name to field value. */
  type State<V> = map<string, V>

  /** One invocation of a subscribed callback, and the store value it sees
      through `get()` while it runs. */
  datatype Call<V, L> = Call(listener: L, observed: State<V>)

  /** Top-level shallow merge: every key present in `partial` takes the
      partial's value (even a JS `undefined` value, since the key is present),
      every other key keeps its current value, and no other key appears. */
  function Merge<V>(current: State<V>, partial: State<V>): (r: State<V>)
    ensures r.Keys == current.Keys + partial.Keys
    ensures forall k :: k in partial ==> r[k] == partial[k]
    ensures forall k :: k in current && k !in partial ==> r[k] == current[k]
  {
    current + partial
  }

  /** Merging an empty partial leaves the contents unchanged. */
  lemma MergeEmpty<V>(current: State<V>)
    ensures Merge(current, map[]) == current
  {
  }

  /** Setting the same partial twice has the effect of setting it once. */
  lemma MergeIdempotent<V>(current: State<V>, partial: State<V>)
    ensures Merge(Merge(current, partial), partial) == Merge(current, partial)
  {
  }

  /** Two successive sets equal one set of the second partial merged over the
      first. */
  lemma MergeSequential<V>(current: State<V>, p: State<V>, q: State<V>)
    ensures Merge(Merge(current, p), q) == Merge(current, Merge(p, q))
  {
  }

  /** The listeners a batch of calls invoked. */
  function Listeners<V, L(==)>(batch: seq<Call<V, L>>): (ids: set<L>)
    ensures forall i :: 0 <= i < |batch| ==> batch[i].listener in ids
    ensures forall id :: id in ids ==> exists i :: 0 <= i < |batch| && batch[i].listener == id
  {
    set i | 0 <= i < |batch| :: batch[i].listener
  }

  /** Appending a call adds exactly its listener. */
  lemma ListenersAppend<V, L>(batch: seq<Call<V, L>>, c: Call<V, L>)
    ensures Listeners(batch + [c]) == Listeners(batch) + {c.listener}
  {
    var longer := batch + [c];
    forall x | x in Listeners(longer) ensures x in Listeners(batch) + {c.listener} {
      var i :| 0 <= i < |longer| && longer[i].listener == x;
      if i < |batch| { assert longer[i] == batch[i]; }
    }
    forall i | 0 <= i < |batch| ensures batch[i].listener in Listeners(longer) {
      assert longer[i] == batch[i];
    }
    assert longer[|batch|] == c;
  }

  /** A non-empty batch invokes its first call's listener and those of the
      rest. */
  lemma ListenersCons<V, L>(batch: seq<Call<V, L>>)
    requires batch != []
    ensures Listeners(batch) == {batch[0].listener} + Listeners(batch[1..])
  {
  }

  /** How many calls of a batch went to `id`. */
  function CallCount<V, L(==)>(batch: seq<Call<V, L>>, id: L): (n: nat)
    ensures n <= |batch|
    ensures n == 0 <==> id !in Listeners(batch)
  {
    if batch == [] then 0
    else (if batch[0].listener == id then 1 else 0) + CallCount(batch[1..], id)
  }

  /** `batch` is one notification round over `subscribers`: every subscriber
      is called, nobody else is, nobody twice, and every call sees `observed`. */
  ghost predicate NotifiesEach<V, L>(batch: seq<Call<V, L>>, subscribers: set<L>, observed: State<V>)
  {
    && Listeners(batch) == subscribers
    && (forall i, j :: 0 <= i < j < |batch| ==> batch[i].listener != batch[j].listener)
    && (forall i :: 0 <= i < |batch| ==> batch[i].observed == observed)
  }

  /** One notification round calls each subscriber exactly once and nothing
      else at all. */
  lemma {:induction false} NotifiedExactlyOnce<V, L>(
    batch: seq<Call<V, L>>, subscribers: set<L>, observed: State<V>, id: L)
    requires NotifiesEach(batch, subscribers, observed)
    ensures CallCount(batch, id) == if id in subscribers then 1 else 0
    ensures |batch| == |subscribers|
  {
    if batch == [] {
    } else {
      var rest := batch[1..];
      var head := batch[0].listener;
      ListenersCons(batch);
      forall i | 0 <= i < |rest| ensures rest[i].listener != head {
        assert rest[i] == batch[i + 1];
      }
      var others := subscribers - {head};
      assert Listeners(rest) == others;
      NotifiedExactlyOnce(rest, others, observed, id);
    }
  }

  /**
   The `forEach` over the subscriber set in `set`: call every callback once,
   in an order the source leaves unspecified, each seeing the store value
   `observed`. The loop walks a snapshot of the set, so callbacks cannot
   disturb the iteration.
   */
  method Notify<V, L(==)>(subscribers: set<L>, observed: State<V>) returns (batch: seq<Call<V, L>>)
    ensures NotifiesEach(batch, subscribers, observed)
  {
    batch := [];
    var pending := subscribers;
    while pending != {}
      invariant pending <= subscribers
      invariant Listeners(batch) == subscribers - pending
      invariant forall i, j :: 0 <= i < j < |batch| ==> batch[i].listener != batch[j].listener
      invariant forall i :: 0 <= i < |batch| ==> batch[i].observed == observed
      decreases pending
    {
      var id :| id in pending;
      ListenersAppend(batch, Call(id, observed));
      batch := batch + [Call(id, observed)];
      pending := pending - {id};
    }
  }

  /** The holder of one provider's store value and subscriber set. */
  class StoreHolder<V, L(==)> {
    /** `store.current` */
    var state: State<V>
    /** `subscribers.current` */
    var subscribers: set<L>
    /** Every callback invocation made so far, oldest first. */
    var calls: seq<Call<V, L>>

    /** The first render of `useStoreData`: the store starts at the
        factory's `initialState`, with no subscribers. */
    constructor (initialState: State<V>)
      ensures state == initialState
      ensures subscribers == {}
      ensures calls == []
    {
      state := initialState;
      subscribers := {};
      calls := [];
    }

    /** `get`: the current store value; changes nothing. */
    method Get() returns (s: State<V>)
      ensures s == state
    {
      s := state;
    }

    /** `set`: replace the store value by the shallow merge of `partial` over
        it, then call every subscriber once against the new value. */
    method Set(partial: State<V>)
      modifies this
      ensures state == Merge(old(state), partial)
      ensures subscribers == old(subscribers)
      ensures |calls| >= |old(calls)| && calls[..|old(calls)|] == old(calls)
      ensures NotifiesEach(calls[|old(calls)|..], subscribers, state)
    {
      state := Merge(state, partial);
      var batch := Notify(subscribers, state);
      calls := calls + batch;
      assert calls[|old(calls)|..] == batch;
    }

    /** `subscribe`: add the callback to the set and hand back the closure
        that removes it. */
    method Subscribe(listener: L) returns (sub: Subscription<V, L>)
      modifies this
      ensures subscribers == old(subscribers) + {listener}
      ensures state == old(state) && calls == old(calls)
      ensures fresh(sub) && sub.holder == this && sub.listener == listener
    {
      subscribers := subscribers + {listener};
      sub := new Subscription(this, listener);
    }
  }

  /** The closure `() => subscribers.current.delete(callback)` returned by
      `subscribe`, bound to its holder and its callback. */
  class Subscription<V, L(==)> {
    const holder: StoreHolder<V, L>
    const listener: L

    constructor (holder: StoreHolder<V, L>, listener: L)
      ensures this.holder == holder && this.listener == listener
    {
      this.holder := holder;
      this.listener := listener;
    }

    /** Remove exactly this callback; the result is `Set.delete`'s: whether
        it was still registered. A second call is a no-op returning false. */
    method Cancel() returns (removed: bool)
      modifies holder
      ensures holder.subscribers == old(holder.subscribers) - {listener}
      ensures removed <==> listener in old(holder.subscribers)
      ensures holder.state == old(holder.state) && holder.calls == old(holder.calls)
    {
      removed := listener in holder.subscribers;
      holder.subscribers := holder.subscribers - {listener};
    }
  }
}
