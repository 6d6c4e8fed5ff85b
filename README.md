# Breadcrumb navigation history, modelled in Dafny

This project models `Breadcrumb<S, V>` from OpGraph. It is a linear
navigation history of (state, value) entries kept as two parallel stacks,
where index 0 is the current, newest entry. Its mutations are:

- `addState`: push an entry;
- `popState`: drop the current entry;
- `gotoState`: go back to an earlier state, discarding everything newer;
- `set`: replace the whole history with a list given oldest first;
- `clear`: empty the history.

Each mutation notifies registered listeners with `stateAdded` and
`stateChanged` events.

Modules:

- `Wrappers`: `Option` stands for Java `null`. `Result` and `Outcome` stand
  for return-or-throw.
- `History`: pure sequence functions that specify the stacks:
  - `Reverse` (loading a list newest first);
  - `FirstIndex` (the scan `gotoState` performs);
  - `Firsts`, `Seconds` and `Zip` (the two stacks against a list of pairs).
- `Listeners`: the event and delivery records, the listener registry
  (`Register`, `Unregister`) and the notification protocol:
  - `Broadcast`: one fire call, reaching every listener in registration order;
  - `Dispatch`: many fire calls;
  - `Received`: what one listener heard.
- `Breadcrumbs`:
  - class `Breadcrumb`, with fields `states`, `values` and `listeners`, and
    three logs: `events` (one entry per fire call), `deliveries` (one entry
    per listener callback) and `observed` (for each fire call, the
    `Snapshot` of both stacks that its callbacks see);
  - class `EntryIterator`, the breadcrumb's read-only iterator.

  Every mutating method keeps `Valid()`: the two stacks have equal length
  and no listener is registered twice. Each one states its complete new
  state in terms of the old one, including exactly which events were fired
  and what history each of them observed (`Notified`). Every mutation
  changes the stacks before it fires, so its callbacks see the new history;
  within `set`, the `k`-th `stateAdded` sees the first `k + 1` entries
  loaded (`Loads`).
- `Scenarios`: client programs that run the breadcrumb on concrete
  histories. Their results follow from the contracts of the class and of
  the functions those contracts name.

Modelling decisions:

- States are compared with Dafny equality. In the source, `containsState`
  goes through `LinkedList.contains` and so uses `equals`. `gotoState`
  compares with `==`, which for reference types is identity. Dafny's `==`
  on a class type is identity too, and on a value type it is equality, so
  the model's two lookups always agree, which the source's agree only when
  `equals` is identity.
- Values are `Option<V>`, because Java values may be `null`. The one-argument
  `addState` (`AddBareState`) stores `None`. As in the source,
  `CurrentValue()` returns `None` both for an empty history and for a
  current entry whose value is `null`.
- Listener callbacks are foreign code, so each call is recorded instead of
  executed. `Fire` models both `fireStateAdded` and `fireStateChanged`. It
  adds one `Event` to `events` and the current stacks to `observed`, then
  loops over the listeners and adds one `Delivery` per listener.
- The documentation comments disagree with the code in two places, and the
  model follows the code:
  - `peekState` (Breadcrumb.java:110-111) documents `index > size()` as out
    of range, but `LinkedList.get` also throws for `index == size()`.
  - `popState` (Breadcrumb.java:118) is documented as "Empties this
    breadcrumb", but it removes only the current entry.
- `set` fires `stateChanged` even when neither the old nor the new current
  state exists, i.e. from empty to empty (`Scenarios.LoadNothing`).

## Model

| member | source | states |
|---|---|---|
| `Breadcrumbs.Breadcrumb.constructor` | core/src/main/java/ca/gedge/opgraph/util/Breadcrumb.java:37-40 | a new breadcrumb has empty stacks, no listeners and no events, and satisfies the lockstep invariant |
| `Breadcrumbs.Breadcrumb.ContainsState` | core/src/main/java/ca/gedge/opgraph/util/Breadcrumb.java:50-52 | true exactly when some index of the state stack holds the state |
| `Breadcrumbs.Breadcrumb.IsEmpty` | core/src/main/java/ca/gedge/opgraph/util/Breadcrumb.java:60-62 | true exactly when the state stack is empty |
| `Breadcrumbs.Breadcrumb.CurrentState` | core/src/main/java/ca/gedge/opgraph/util/Breadcrumb.java:69-71 | `None` exactly when the history is empty, otherwise the state at index 0 |
| `Breadcrumbs.Breadcrumb.CurrentValue` | core/src/main/java/ca/gedge/opgraph/util/Breadcrumb.java:78-80 | `None` for an empty history, otherwise the (possibly null) value at index 0 |
| `Breadcrumbs.Breadcrumb.Size` | core/src/main/java/ca/gedge/opgraph/util/Breadcrumb.java:87-89 | the number of states, which equals the number of values |
| `Breadcrumbs.Breadcrumb.PeekState` | core/src/main/java/ca/gedge/opgraph/util/Breadcrumb.java:113-115 | succeeds exactly for `0 <= index < size` with the state `index` steps back; fails with IndexOutOfBounds for negative indices and for `index >= size` |
| `Breadcrumbs.Breadcrumb.Entries` | core/src/main/java/ca/gedge/opgraph/util/Breadcrumb.java:224-243 | the sequence iteration walks: entry `j` pairs state `j` with value `j`, newest first |
| `Breadcrumbs.Breadcrumb.GetStates` | core/src/main/java/ca/gedge/opgraph/util/Breadcrumb.java:206-208 | the states are the first components of the entries, and element `i` is what `peekState(i)` returns |
| `Breadcrumbs.Breadcrumb.GetValues` | core/src/main/java/ca/gedge/opgraph/util/Breadcrumb.java:215-217 | the values are the second components of the entries; the first is the current value |
| `Breadcrumbs.Breadcrumb.Iterator` | core/src/main/java/ca/gedge/opgraph/util/Breadcrumb.java:224-227 | a fresh iterator over this breadcrumb, before its newest entry |
| `Breadcrumbs.EntryIterator.constructor` | core/src/main/java/ca/gedge/opgraph/util/Breadcrumb.java:225-227 | the iterator starts at position 0 of its breadcrumb |
| `Breadcrumbs.EntryIterator.HasNext` | core/src/main/java/ca/gedge/opgraph/util/Breadcrumb.java:229-231 | true exactly while entries remain, judged on the state stack as the source does |
| `Breadcrumbs.EntryIterator.Next` | core/src/main/java/ca/gedge/opgraph/util/Breadcrumb.java:234-236 | yields entry `position` and advances by one; once exhausted, fails with NoSuchElement and does not move |
| `Breadcrumbs.EntryIterator.Remove` | core/src/main/java/ca/gedge/opgraph/util/Breadcrumb.java:239-241 | always fails with UnsupportedOperation |
| `Breadcrumbs.Breadcrumb.Clear` | core/src/main/java/ca/gedge/opgraph/util/Breadcrumb.java:94-101 | both stacks become empty; a non-empty history fires exactly one `stateChanged(old current, null)`, observed with the stacks already empty; an empty one fires nothing |
| `Breadcrumbs.Breadcrumb.PopState` | core/src/main/java/ca/gedge/opgraph/util/Breadcrumb.java:120-129 | a non-empty history loses index 0 of both stacks and fires exactly one `stateChanged(old current, new current or null)`, observed with the entry already removed; an empty one is unchanged and fires nothing |
| `Breadcrumbs.Breadcrumb.GotoState` | core/src/main/java/ca/gedge/opgraph/util/Breadcrumb.java:137-154 | when the first occurrence `i` of the state has `0 < i < size`, both stacks become their suffixes from `i`, the state is current, and exactly one `stateChanged(old current, state)` fires, observed with the stacks already truncated; when the state is absent or already current, nothing changes and nothing fires; a state present anywhere ends up current; both loops terminate |
| `Breadcrumbs.Breadcrumb.Set` | core/src/main/java/ca/gedge/opgraph/util/Breadcrumb.java:162-176 | the stacks become the reversed first and second components of the oldest-first input; one `stateAdded` fires per input entry in input order, the `k`-th observing the first `k + 1` entries loaded; then exactly one `stateChanged(old current, last input state or null)`, observing the loaded history, also for an empty input |
| `Breadcrumbs.Breadcrumb.AddBareState` | core/src/main/java/ca/gedge/opgraph/util/Breadcrumb.java:183-185 | pushes the state with a null value, with the same events and observed histories as `addState` |
| `Breadcrumbs.Breadcrumb.AddState` | core/src/main/java/ca/gedge/opgraph/util/Breadcrumb.java:193-199 | the stacks become `[state] + old` and `[value] + old`; fires `stateAdded(state, value)` and then `stateChanged(old current, state)`, both observing the new entry on top |
| `Breadcrumbs.Breadcrumb.AddBreadcrumbListener` | core/src/main/java/ca/gedge/opgraph/util/Breadcrumb.java:256-261 | the registry becomes `Register(old, listener)`; stacks and all three logs are unchanged; no duplicates arise |
| `Breadcrumbs.Breadcrumb.RemoveBreadcrumbListener` | core/src/main/java/ca/gedge/opgraph/util/Breadcrumb.java:268-272 | the registry becomes `Unregister(old, listener)` and no longer holds the listener; stacks and all three logs are unchanged |
| `Breadcrumbs.Breadcrumb.Fire` | core/src/main/java/ca/gedge/opgraph/util/Breadcrumb.java:274-286 | logs the event once, with the stacks as they stand at the call, and delivers it to every registered listener in registration order; stacks and registry are unchanged |
| `Listeners.Register` | core/src/main/java/ca/gedge/opgraph/util/Breadcrumb.java:256-261 | null is ignored; the result holds exactly the old listeners plus the new one, keeps the old ones as a prefix, grows by at most one, and keeps the registry free of duplicates |
| `Listeners.RegisterIdempotent` | core/src/main/java/ca/gedge/opgraph/util/Breadcrumb.java:258 | registering the same listener twice is the same as registering it once |
| `Listeners.RemoveFirst` | core/src/main/java/ca/gedge/opgraph/util/Breadcrumb.java:270 | `ArrayList.remove`: when the listener is present, the result is one shorter, the listeners before its first occurrence keep their places and those after it move up by one; otherwise unchanged; adds nothing |
| `Listeners.Unregister` | core/src/main/java/ca/gedge/opgraph/util/Breadcrumb.java:268-272 | removing null or a listener that is not registered changes nothing; removal never adds a listener |
| `Listeners.UnregisterRemoves` | core/src/main/java/ca/gedge/opgraph/util/Breadcrumb.java:268-272 | on a duplicate-free registry, removal leaves every other listener, removes the given one entirely, and stays duplicate-free |
| `Listeners.Without` | core/src/main/java/ca/gedge/opgraph/util/Breadcrumb.java:268-272 | a reference definition of removal: every occurrence filtered out, nothing added |
| `Listeners.WithoutAbsent` | core/src/main/java/ca/gedge/opgraph/util/Breadcrumb.java:268-272 | filtering out a listener that is not registered changes nothing |
| `Listeners.UnregisterFilters` | core/src/main/java/ca/gedge/opgraph/util/Breadcrumb.java:268-272 | on a duplicate-free registry, removal equals the filter: the other listeners stay in registration order |
| `Listeners.RegisterUnregister` | core/src/main/java/ca/gedge/opgraph/util/Breadcrumb.java:256-272 | removing a listener just added (that was not registered before) restores the registry |
| `Listeners.Broadcast` | core/src/main/java/ca/gedge/opgraph/util/Breadcrumb.java:276-277 | one fire call makes one callback per listener; callback `k` goes to listener `k` |
| `Listeners.BroadcastSnoc` | core/src/main/java/ca/gedge/opgraph/util/Breadcrumb.java:283-284 | one more listener in the loop means one more callback, at the end |
| `Listeners.DispatchAppend` | core/src/main/java/ca/gedge/opgraph/util/Breadcrumb.java:274-286 | the callbacks of two runs of fire calls are those of each run in turn |
| `Listeners.ReceivedAppend` | core/src/main/java/ca/gedge/opgraph/util/Breadcrumb.java:274-286 | what a listener hears from two runs of callbacks is what it hears from each in turn |
| `Listeners.ReceivedBroadcast` | core/src/main/java/ca/gedge/opgraph/util/Breadcrumb.java:274-279 | on a duplicate-free registry, one fire call reaches each registered listener exactly once and an unregistered one not at all |
| `Listeners.ReceivedDispatch` | core/src/main/java/ca/gedge/opgraph/util/Breadcrumb.java:274-286 | with the registry fixed, every registered listener hears exactly the fired events in order, and any other listener hears nothing |
| `History.Reverse` | core/src/main/java/ca/gedge/opgraph/util/Breadcrumb.java:169-173 | reversal keeps the length |
| `History.ReverseAt` | core/src/main/java/ca/gedge/opgraph/util/Breadcrumb.java:169-173 | element `k` of the loaded stack is input element `n - 1 - k`, so the last input entry becomes current |
| `History.ReverseSnoc` | core/src/main/java/ca/gedge/opgraph/util/Breadcrumb.java:170-171 | appending to the input pushes at the front of the stack, which is what each `addFirst` of the loading loop does |
| `History.ReverseReverse` | core/src/main/java/ca/gedge/opgraph/util/Breadcrumb.java:162-176 | reading a loaded stack oldest first gives back the input |
| `History.FirstIndex` | core/src/main/java/ca/gedge/opgraph/util/Breadcrumb.java:138-142 | the scan stops at the first occurrence of the target, with no occurrence before it, or at `size` exactly when the target is absent |
| `History.Firsts` | core/src/main/java/ca/gedge/opgraph/util/Breadcrumb.java:170 | element `k` is the state of input pair `k`, same length |
| `History.Seconds` | core/src/main/java/ca/gedge/opgraph/util/Breadcrumb.java:171 | element `k` is the value of input pair `k`, same length |
| `History.ProjectionsSnoc` | core/src/main/java/ca/gedge/opgraph/util/Breadcrumb.java:169-173 | one more input pair adds one state and one value at the end of the projections |
| `History.Zip` | core/src/main/java/ca/gedge/opgraph/util/Breadcrumb.java:235 | pair `k` is `(states[k], values[k])`, same length |
| `History.ZipProjections` | core/src/main/java/ca/gedge/opgraph/util/Breadcrumb.java:206-243 | projecting the iterated pairs gives back the state and value stacks |
| `Breadcrumbs.AddedEvents` | core/src/main/java/ca/gedge/opgraph/util/Breadcrumb.java:172 | event `k` is `stateAdded` of input entry `k`, one per entry |
| `Breadcrumbs.AddedEventsSnoc` | core/src/main/java/ca/gedge/opgraph/util/Breadcrumb.java:169-173 | one more loaded entry fires one more `stateAdded`, at the end |
| `Breadcrumbs.LoadStep` | core/src/main/java/ca/gedge/opgraph/util/Breadcrumb.java:169-173 | one turn of the loading loop pushes the entry at the front of both stacks, extends the `stateAdded` run by it, and extends the observed histories by the history with it loaded |
| `Breadcrumbs.Loads` | core/src/main/java/ca/gedge/opgraph/util/Breadcrumb.java:169-173 | one observed history per loaded entry |
| `Breadcrumbs.LoadsAt` | core/src/main/java/ca/gedge/opgraph/util/Breadcrumb.java:169-173 | the `k`-th `stateAdded` of a load observes the first `k + 1` entries, newest first |
| `Breadcrumbs.Breadcrumb.Now` | core/src/main/java/ca/gedge/opgraph/util/Breadcrumb.java:206-243 | the history a callback observes through the getters and the iterator: both stacks as they stand |
| `Scenarios.GotoOldest` | core/src/main/java/ca/gedge/opgraph/util/Breadcrumb.java:137-154 | after pushing A, B, C and going to A, only A (value 1) remains; the goto adds exactly `stateChanged(C, A)` after the three add/change pairs |
| `Scenarios.NoOps` | core/src/main/java/ca/gedge/opgraph/util/Breadcrumb.java:94-154 | popping and clearing an empty history leave it empty and fire nothing; then going to the current state or to an absent one changes nothing and fires nothing |
| `Scenarios.LoadThree` | core/src/main/java/ca/gedge/opgraph/util/Breadcrumb.java:162-176 | loading [a, b, c] gives states [c, b, a], three `stateAdded` in input order, then `stateChanged(X, c)` |
| `Scenarios.LoadsTwo` | core/src/main/java/ca/gedge/opgraph/util/Breadcrumb.java:169-173 | loading two entries gives the stacks newest first, and the first `stateAdded` observes only the first entry |
| `Scenarios.LoadObserved` | core/src/main/java/ca/gedge/opgraph/util/Breadcrumb.java:162-176 | loading [a, b] makes the first `stateAdded` observe [a], the second and the closing `stateChanged` observe [b, a] |
| `Scenarios.PushPopObserved` | core/src/main/java/ca/gedge/opgraph/util/Breadcrumb.java:120-199 | both callbacks of each push observe the pushed entry on top, and the callback of a pop observes it gone |
| `Scenarios.LoadNothing` | core/src/main/java/ca/gedge/opgraph/util/Breadcrumb.java:175 | loading an empty list over an empty history still fires `stateChanged(null, null)` |
| `Scenarios.Peeks` | core/src/main/java/ca/gedge/opgraph/util/Breadcrumb.java:113-115 | `peekState(-1)` and `peekState(size())` fail; `peekState(0)` is the current state |
| `Scenarios.PopThenClear` | core/src/main/java/ca/gedge/opgraph/util/Breadcrumb.java:94-129 | popping from [C, B, A] fires `stateChanged(C, B)`, then clearing fires `stateChanged(B, null)` and leaves size 0 |
| `Scenarios.Iterate` | core/src/main/java/ca/gedge/opgraph/util/Breadcrumb.java:224-243 | iteration yields the newest entry first, then the older one, then fails; removal always fails |
| `Scenarios.Registry` | core/src/main/java/ca/gedge/opgraph/util/Breadcrumb.java:256-272 | adding 1, 2, 1 and null registers [1, 2]; removing 1 leaves [2] |
| `Scenarios.Hearing` | core/src/main/java/ca/gedge/opgraph/util/Breadcrumb.java:274-286 | the registered listener hears `stateAdded` then `stateChanged` of a push; an unregistered one hears nothing |

## Left out

- The `synchronized (listeners)` blocks (Breadcrumb.java:257, 269, 275, 282): the model is single-threaded, so there is no locking.
- Listener callback bodies, and any mutation of the breadcrumb from inside a callback: callbacks are foreign code, and each one is recorded as a `Delivery` instead of run.
- `null` states: `S` has no null. A caller who needs one instantiates `S` with an option type. The source's ambiguity, where a `null` current state looks like an empty history, therefore does not arise.
- Reference identity versus `equals` for states and listeners: both are Dafny equality.
- `Size`: Java's `int` result is unbounded here; histories longer than 2^31 - 1 entries are not modelled.
- `GetStates` and `GetValues` return sequence values. The source returns `Collections.unmodifiableList` views that show later mutations.
- `EntryIterator.Next` reads the breadcrumb's current stacks. The source's `LinkedList` iterators are fail-fast and throw `ConcurrentModificationException` after a mutation; that behaviour is not modelled.
- The `Pair` class is a Dafny tuple `(S, Option<V>)`.
- `Set` takes a sequence of tuples, so neither the list nor one of its pairs can be `null`. In the source, `set(null)` clears both stacks (Breadcrumb.java:166-167) and then throws `NullPointerException` at the loop (:169) without firing `stateChanged`; a `null` pair throws at :170 after loading the pairs before it and firing their `stateAdded`. Neither path is modelled.
- `observed` records one history per fire call, shared by all listeners of that call: since callbacks are not run, no listener can change the breadcrumb before the next one is called.
- `fireStateChanged` and `fireStateAdded` are `protected` in the source, and a subclass may override them. The model has one `Fire` method.
- The Swing viewer (app/src/main/java/ca/gedge/opgraph/app/components/BreadcrumbViewer.java) is a presentation layer that only redraws from the breadcrumb, so it is not modelled.
- MaxIterationsNode (common-nodes/src/main/java/ca/gedge/opgraph/nodes/iteration/MaxIterationsNode.java) is a constructor wrapper with no logic, so it is not modelled.
