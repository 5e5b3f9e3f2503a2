# fast-context store holder, in Dafny

`createFastContext(initialState)` builds a small shared store for one React
subtree. Each mounted `Provider` owns a *store holder*, built by
`useStoreData`. The holder keeps the current store value and a set of
subscriber callbacks, and it offers three operations:

- `get` returns the current value.
- `set(partial)` replaces the value with a top-level shallow merge of
  `partial` over it, then calls every subscriber.
- `subscribe(callback)` registers a callback and returns a closure that
  unregisters it.

A consumer calls `useStore(selector)`. The hook fails with
`'Store not initialized'` when no provider is mounted above it. Otherwise the
consumer starts from `selector(get())`, and its listener stores
`selector(get())` again each time it is called.

This project models that holder and that consumer logic.

- `store.dfy`, module `Store`:
  - A store record is `map<string, V>`. `Partial<Store>` is a map holding only
    the keys that are present, so the spread `{ ...current, ...partial }` is
    `Merge`, a map union in which the partial wins.
  - Callbacks are opaque listener ids of a type `L`. Calling one is recorded
    as a `Call` in the holder's `calls` log, together with the store value it
    reads through `get()`.
  - `StoreHolder` is a class whose fields `state` and `subscribers` stand for
    `store.current` and `subscribers.current`. `Set` reassigns `state` and
    then runs `Notify`, the `forEach` loop, over the subscriber set.
  - `Subscription` is the unsubscribe closure. It is bound to its holder and
    its callback, and `Cancel` returns `Set.delete`'s boolean.
- `consumer.dfy`, module `Consumers`:
  - The React context lookup becomes a nullable holder reference passed to
    `UseStore`.
  - A consumer's `useState` slot is the `value` of a `Consumer`.
  - `Deliver` applies a batch of calls to a consumer, the way its listener
    would.
- `scenario.dfy`, module `Scenario`: clients that use only the contracts.
  They cover the two-consumer counter (`count` and `count * 2`, then
  `set({count: 5})` gives 5 and 10). They also cover sibling isolation, the
  empty `set`, idempotent unsubscribe and the missing provider.

## Model

| member | source | states |
|---|---|---|
| `Store.Merge` | fast-context-generic/src/createFastContext.tsx:24 | every key present in the partial takes the partial's value, every other key keeps its current value, and the result has exactly the keys of both |
| `Store.MergeEmpty` | fast-context-generic/src/createFastContext.tsx:24 | merging an empty partial leaves the store's contents unchanged |
| `Store.MergeIdempotent` | fast-context-generic/src/createFastContext.tsx:24 | setting the same partial twice gives the same value as setting it once |
| `Store.MergeSequential` | fast-context-generic/src/createFastContext.tsx:23-24 | two successive sets equal a single set of the second partial merged over the first |
| `Store.Notify` | fast-context-generic/src/createFastContext.tsx:25 | the notification loop calls every subscriber, no one else, nobody twice, and each call sees the given store value |
| `Store.NotifiedExactlyOnce` | fast-context-generic/src/createFastContext.tsx:25 | in one notification round every registered callback is called exactly once, every other callback zero times, and the round has as many calls as there are subscribers |
| `Store.StoreHolder.constructor` | fast-context-generic/src/createFastContext.tsx:17-21 | a fresh holder's value is the factory's `initialState`, with no subscribers and no calls made |
| `Store.StoreHolder.Get` | fast-context-generic/src/createFastContext.tsx:19 | returns the current value and changes neither the value nor the subscriber set |
| `Store.StoreHolder.Set` | fast-context-generic/src/createFastContext.tsx:23-26 | the new value is the shallow merge of the partial over the old one; the subscriber set is unchanged; the earlier calls are kept, and the new calls are one round over the current subscribers, each seeing the merged value |
| `Store.StoreHolder.Subscribe` | fast-context-generic/src/createFastContext.tsx:28-32 | the subscriber set becomes the old set plus the callback, which leaves it unchanged if the callback was already there; the value and the calls are untouched; the returned closure is bound to this holder and this callback |
| `Store.Subscription.Cancel` | fast-context-generic/src/createFastContext.tsx:31 | removes exactly its callback and keeps every other one; returns whether the callback was still registered, so a second call is a no-op returning false |
| `Consumers.UseStore` | fast-context-generic/src/createFastContext.tsx:52-61 | fails with "Store not initialized" exactly when no holder is in context; otherwise the consumer starts with its selector applied to the holder's current value |
| `Consumers.Deliver` | fast-context-generic/src/createFastContext.tsx:57-64 | running the listener never changes which listener or selector a consumer has |
| `Consumers.DeliverUniform` | fast-context-generic/src/createFastContext.tsx:57-64 | if every call in a batch reads the same store value, a consumer whose listener was called ends with its selector applied to that value, and any other consumer is unchanged |
| `Consumers.SetRefreshesConsumers` | fast-context-generic/src/createFastContext.tsx:24-25 | after one `set` round, every subscribed consumer holds its selector applied to the merged value, and an unsubscribed consumer is left as it was |

## Left out

- React primitives. `useRef`, `useCallback`, `useState`, `useEffect`,
  `createContext`/`useContext` and the `Provider` component (lines 40-46) are
  library behaviour. They are replaced by class fields, a nullable holder
  reference and explicit calls. Mounting a consumer is `StoreHolder.Subscribe`
  with its listener id, and unmounting is `Subscription.Cancel`.
- Callback bodies. A callback is an opaque id, and calling it is recorded in
  `calls`. The only listener body modelled is `useStore`'s, through
  `Deliver`.
- Re-render scheduling, and any equality short-circuit inside React's
  `setState`. These belong to the renderer.
- Reentrant listeners that call `set` during notification, and changes to
  the `Set` while `forEach` is iterating over it. `Notify` iterates over a
  snapshot of the subscriber set, which is what the code does when callbacks
  do not touch the holder. JavaScript's live-iteration semantics under
  mutation are not modelled.
- Object identity, including "the previous object is not mutated". Store
  values are plain values here, so this holds trivially.
- Call order. `Set` fixes no order among subscribers. JavaScript iterates a
  `Set` in insertion order, but nothing in this code relies on it.
- Heterogeneous field types. A store record is `map<string, V>` with one value type
  `V`. Records whose fields have different types are not modelled.
- The commented-out `useSyncExternalStore` line (line 59).
- Provider mount and unmount lifetimes, and nested-provider shadowing. These
  are component-tree behaviour. Isolation between providers follows from each
  holder being a separate object whose methods modify only themselves.
- The error kind. The code throws a plain `Error` with the message
  `'Store not initialized'`. The model returns that message in a `Failure`
  and does not use a dedicated error type.
