/**
 Clients of the holder and consumer specifications: a `{count}` store, two
 consumers selecting `count` and `count * 2`, and the unsubscribe and
 missing-provider paths. Everything asserted here follows from the
 contracts alone.
 */
module Scenario {
  import opened Store
  import opened Consumers

  function Count(s: State<int>): int {
    if "count" in s then s["count"] else 0
  }

  function DoubleCount(s: State<int>): int {
    2 * Count(s)
  }

  /** Two consumers over one store; `set({count: 5})` leaves them at 5 and
      10, and a sibling provider's store is untouched. */
  method CounterScenario() {
    var holder := new StoreHolder<int, nat>(map["count" := 0]);
    var sibling := new StoreHolder<int, nat>(map["count" := 0]);
    var ra := UseStore(holder, Count, 1);
    var rb := UseStore(holder, DoubleCount, 2);
    var a, b := ra.value, rb.value;
    var subA := holder.Subscribe(a.listener);
    var subB := holder.Subscribe(b.listener);

    var before := |holder.calls|;
    holder.Set(map["count" := 5]);
    var round := holder.calls[before..];
    assert Count(holder.state) == 5;
    SetRefreshesConsumers(a, round, holder.subscribers, holder.state);
    SetRefreshesConsumers(b, round, holder.subscribers, holder.state);
    assert Deliver(a, round).value == 5;
    assert Deliver(b, round).value == 10;
    assert sibling.state == map["count" := 0];
  }

  /** An empty partial keeps the contents and still calls every subscriber. */
  method EmptySetScenario() {
    var holder := new StoreHolder<int, nat>(map["count" := 3]);
    var sub := holder.Subscribe(1);
    holder.Set(map[]);
    assert holder.state == map["count" := 3];
    NotifiedExactlyOnce(holder.calls, holder.subscribers, holder.state, 1);
    assert CallCount(holder.calls, 1) == 1;
  }

  /** Subscribing twice keeps one registration; unsubscribing is idempotent
      and leaves other subscribers registered. */
  method UnsubscribeScenario() {
    var holder := new StoreHolder<int, nat>(map[]);
    var first := holder.Subscribe(1);
    var again := holder.Subscribe(1);
    var other := holder.Subscribe(2);
    assert holder.subscribers == {1, 2};
    var removed := first.Cancel();
    assert removed && holder.subscribers == {2};
    removed := again.Cancel();
    assert !removed && holder.subscribers == {2};
  }

  /** Without a provider, `useStore` fails with "Store not initialized". */
  method MissingProviderScenario() {
    var missing := UseStore<int, nat, int>(null, Count, 3);
    assert missing == Failure("Store not initialized");
  }
}
