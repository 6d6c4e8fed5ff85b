/** The breadcrumb: a linear navigation history of (state, value) entries with
    listener notification. Index 0 of both stacks is the current, newest
    entry; higher indices are progressively older. */
module Breadcrumbs {
  import opened Wrappers
  import opened History
  import opened Listeners

  /** The exceptions the breadcrumb and its iterator throw. */
  datatype Failure =
    | IndexOutOfBounds      // peekState outside 0 .. size() - 1
    | NoSuchElement         // next() on an exhausted iterator
    | UnsupportedOperation  // remove() through the iterator

  /** The `stateAdded` events that loading `entries` fires, in input order. */
  function AddedEvents<S, V>(entries: seq<(S, Option<V>)>): (r: seq<Event<S, V>>)
    ensures |r| == |entries|
    ensures forall k :: 0 <= k < |entries| ==> r[k] == StateAdded(entries[k].0, entries[k].1)
  {
    if entries == [] then [] else [StateAdded(entries[0].0, entries[0].1)] + AddedEvents(entries[1..])
  }

  /** Loading one more entry fires one more `stateAdded`, at the end. */
  lemma AddedEventsSnoc<S, V>(entries: seq<(S, Option<V>)>, e: (S, Option<V>))
    ensures AddedEvents(entries + [e]) == AddedEvents(entries) + [StateAdded(e.0, e.1)]
  {
    assert forall k :: 0 <= k < |entries| ==> (entries + [e])[k] == entries[k];
  }

  /** What a listener callback that reads the breadcrumb (through its
      getters or its iterator) observes: both stacks, newest first. */
  datatype Snapshot<S, V> = Snapshot(states: seq<S>, values: seq<Option<V>>)

  /** The history each `stateAdded` of loading `entries` observes: the
      `k`-th fires with the first `k + 1` entries loaded, newest first. */
  function Loads<S, V>(entries: seq<(S, Option<V>)>): (r: seq<Snapshot<S, V>>)
    ensures |r| == |entries|
  {
    if entries == [] then []
    else Loads(entries[..|entries| - 1]) + [Snapshot(Reverse(Firsts(entries)), Reverse(Seconds(entries)))]
  }

  /** Element `k` of `Loads(entries)` is the history with the first `k + 1`
      entries loaded. */
  lemma {:induction false} LoadsAt<S, V>(entries: seq<(S, Option<V>)>, k: nat)
    requires k < |entries|
    ensures Loads(entries)[k] == Snapshot(Reverse(Firsts(entries[..k + 1])), Reverse(Seconds(entries[..k + 1])))
  {
    var n := |entries|;
    if k == n - 1 {
      assert entries[..k + 1] == entries;
    } else {
      assert entries[..n - 1][..k + 1] == entries[..k + 1];
      LoadsAt(entries[..n - 1], k);
    }
  }

  /** Loading one more entry of an oldest-first list pushes it at the front
      of both stacks and fires one more `stateAdded`, which observes the
      history with that entry loaded. */
  lemma LoadStep<S, V>(entries: seq<(S, Option<V>)>, i: nat)
    requires i < |entries|
    ensures Reverse(Firsts(entries[..i + 1])) == [entries[i].0] + Reverse(Firsts(entries[..i]))
    ensures Reverse(Seconds(entries[..i + 1])) == [entries[i].1] + Reverse(Seconds(entries[..i]))
    ensures AddedEvents(entries[..i + 1]) == AddedEvents(entries[..i]) + [StateAdded(entries[i].0, entries[i].1)]
    ensures Loads(entries[..i + 1]) == Loads(entries[..i]) +
      [Snapshot(Reverse(Firsts(entries[..i + 1])), Reverse(Seconds(entries[..i + 1])))]
  {
    assert entries[..i + 1] == entries[..i] + [entries[i]];
    assert entries[..i + 1][..i] == entries[..i];
    ProjectionsSnoc(entries[..i], entries[i]);
    ReverseSnoc(Firsts(entries[..i]), entries[i].0);
    ReverseSnoc(Seconds(entries[..i]), entries[i].1);
    AddedEventsSnoc(entries[..i], entries[i]);
  }

  /** A navigation history. `S` is compared with Dafny equality throughout:
      the source's `containsState` uses `equals` (through `LinkedList.contains`)
      while `gotoState` uses reference identity `==`; with a value type for
      `S` the two coincide. */
  class Breadcrumb<S(==), V, L(==)> {
    /** The state stack, newest first. */
    var states: seq<S>
    /** The value stack, parallel to `states`; `None` is a `null` value. */
    var values: seq<Option<V>>
    /** The registered listeners, in registration order. */
    var listeners: seq<L>
    /** Every call of a fire method so far, in order. */
    var events: seq<Event<S, V>>
    /** Every listener callback so far, in order. */
    var deliveries: seq<Delivery<S, V, L>>
    /** For each entry of `events`, the history as it stood when that event
        was fired, i.e. what its callbacks could observe. */
    var observed: seq<Snapshot<S, V>>

    /** The stacks move in lockstep, and no listener is registered twice. */
    ghost predicate Valid()
      reads this
    {
      |states| == |values| && NoDuplicates(listeners)
    }

    /** The history as it stands now. */
    function Now(): (r: Snapshot<S, V>)
      reads this
      ensures r.states == states && r.values == values
    {
      Snapshot(states, values)
    }

    /** Since `events0`, `deliveries0` and `observed0`, exactly the events
        `es` were fired, each delivered to every listener of the registry,
        the `k`-th while the history stood at `ss[k]`. */
    ghost predicate Notified(events0: seq<Event<S, V>>, deliveries0: seq<Delivery<S, V, L>>,
                             observed0: seq<Snapshot<S, V>>, es: seq<Event<S, V>>, ss: seq<Snapshot<S, V>>)
      reads this
    {
      events == events0 + es && deliveries == deliveries0 + Dispatch(listeners, es) &&
      observed == observed0 + ss
    }

    constructor ()
      ensures Valid()
      ensures states == [] && values == [] && listeners == []
      ensures events == [] && deliveries == [] && observed == []
    {
      states, values, listeners := [], [], [];
      events, deliveries, observed := [], [], [];
    }

    //
    // Queries
    //

    /** Whether `state` occurs anywhere in the history. */
    function ContainsState(state: S): (r: bool)
      reads this
      ensures r <==> exists i :: 0 <= i < |states| && states[i] == state
    {
      state in states
    }

    function IsEmpty(): (r: bool)
      reads this
      ensures r <==> states == []
    {
      |states| == 0
    }

    /** The current state, or `None` (Java `null`) for an empty history. */
    function CurrentState(): (r: Option<S>)
      reads this
      ensures r == None <==> states == []
      ensures r != None ==> r == Some(states[0])
    {
      if IsEmpty() then None else Some(states[0])
    }

    /** The current value; `None` both for an empty history and for a current
        entry whose value is `null`, as in the source. */
    function CurrentValue(): (r: Option<V>)
      requires Valid()
      reads this
      ensures states == [] ==> r == None
      ensures states != [] ==> r == values[0]
    {
      if IsEmpty() then None else values[0]
    }

    function Size(): (n: int)
      requires Valid()
      reads this
      ensures n == |states| && n == |values|
    {
      |states|
    }

    /** The state `index` steps back from the current one; the error path
        models `IndexOutOfBoundsException`, thrown for `index < 0` and for
        `index >= size()`. */
    function PeekState(index: int): (r: Result<S, Failure>)
      reads this
      ensures r.Ok? <==> 0 <= index < |states|
      ensures r.Ok? ==> r.value == states[index]
      ensures r.Err? ==> r.error == IndexOutOfBounds
    {
      if 0 <= index < |states| then Ok(states[index]) else Err(IndexOutOfBounds)
    }

    /** The entries, newest first: what iteration yields. */
    function Entries(): (r: seq<(S, Option<V>)>)
      requires Valid()
      reads this
      ensures |r| == |states|
      ensures forall j :: 0 <= j < |r| ==> r[j] == (states[j], values[j])
    {
      Zip(states, values)
    }

    /** A read-only snapshot of the states, newest first. */
    function GetStates(): (r: seq<S>)
      requires Valid()
      reads this
      ensures r == Firsts(Entries())
      ensures forall i :: 0 <= i < |r| ==> PeekState(i) == Ok(r[i])
    {
      ZipProjections(states, values);
      states
    }

    /** A read-only snapshot of the values, newest first. */
    function GetValues(): (r: seq<Option<V>>)
      requires Valid()
      reads this
      ensures r == Seconds(Entries())
      ensures r != [] ==> CurrentValue() == r[0]
    {
      ZipProjections(states, values);
      values
    }

    /** An iterator over the entries, positioned before the newest one. */
    method Iterator() returns (it: EntryIterator<S, V, L>)
      ensures fresh(it) && it.owner == this && it.position == 0
    {
      it := new EntryIterator(this);
    }

    //
    // Mutations
    //

    /** Empties the history; fires one `stateChanged(old, null)`, and nothing
        at all when it was already empty. */
    method Clear()
      requires Valid()
      modifies this
      ensures Valid()
      ensures states == [] && values == [] && listeners == old(listeners)
      ensures old(states) == [] ==>
        events == old(events) && deliveries == old(deliveries) && observed == old(observed)
      ensures old(states) != [] ==>
        Notified(old(events), old(deliveries), old(observed), [StateChanged(Some(old(states)[0]), None)], [Now()])
    {
      if !IsEmpty() {
        var oldState := CurrentState();
        states := [];
        values := [];
        Fire(StateChanged(oldState, None));
      }
    }

    /** Removes the current entry; fires one `stateChanged(old, new)`, and
        nothing at all when the history is empty. */
    method PopState()
      requires Valid()
      modifies this
      ensures Valid() && listeners == old(listeners)
      ensures old(states) == [] ==>
        states == [] && values == [] &&
        events == old(events) && deliveries == old(deliveries) && observed == old(observed)
      ensures old(states) != [] ==>
        states == old(states)[1..] && values == old(values)[1..] &&
        Notified(old(events), old(deliveries), old(observed),
                 [StateChanged(Some(old(states)[0]), if |old(states)| > 1 then Some(old(states)[1]) else None)],
                 [Now()])
    {
      if !IsEmpty() {
        var oldState := CurrentState();
        states := states[1..];
        values := values[1..];
        var newState := CurrentState();
        Fire(StateChanged(oldState, newState));
      }
    }

    /** Goes back to the first (newest) occurrence of `state`, discarding
        every newer entry, and fires one `stateChanged(old, state)`. When
        `state` is absent or already current nothing changes and nothing
        is fired. */
    method GotoState(state: S)
      requires Valid()
      modifies this
      ensures Valid() && listeners == old(listeners)
      ensures var i := FirstIndex(old(states), state);
        if 0 < i < |old(states)| then
          states == old(states)[i..] && values == old(values)[i..] &&
          CurrentState() == Some(state) &&
          Notified(old(events), old(deliveries), old(observed),
                   [StateChanged(Some(old(states)[0]), Some(state))], [Now()])
        else
          states == old(states) && values == old(values) &&
          events == old(events) && deliveries == old(deliveries) && observed == old(observed)
      ensures state in old(states) ==> CurrentState() == Some(state)
      ensures state !in old(states) || old(states)[0] == state ==>
        states == old(states) && events == old(events) && deliveries == old(deliveries) && observed == old(observed)
    {
      var index := 0;
      while index < |states|
        invariant 0 <= index <= |states|
        invariant forall j :: 0 <= j < index ==> states[j] != state
      {
        if states[index] == state {
          break;
        }
        index := index + 1;
      }
      assert index == FirstIndex(states, state);

      if 0 < index < |states| {
        var oldState := CurrentState();
        ghost var removed := 0;
        while states[0] != state
          invariant 0 <= removed <= index
          invariant states == old(states)[removed..] && values == old(values)[removed..]
          invariant listeners == old(listeners) && events == old(events) && deliveries == old(deliveries)
          invariant observed == old(observed)
          decreases index - removed
        {
          states := states[1..];
          values := values[1..];
          removed := removed + 1;
        }
        Fire(StateChanged(oldState, Some(state)));
      }
    }

    /** Replaces the whole history by `entries`, given oldest first: each
        entry goes in at the front and fires `stateAdded`, in input order;
        then one `stateChanged(old, new)` fires, even when both are `None`. */
    method Set(entries: seq<(S, Option<V>)>)
      requires Valid()
      modifies this
      ensures Valid() && listeners == old(listeners)
      ensures states == Reverse(Firsts(entries)) && values == Reverse(Seconds(entries))
      ensures CurrentState() == if entries == [] then None else Some(entries[|entries| - 1].0)
      ensures Notified(old(events), old(deliveries), old(observed),
                       AddedEvents(entries) +
                       [StateChanged(old(CurrentState()), if entries == [] then None else Some(entries[|entries| - 1].0))],
                       Loads(entries) + [Now()])
    {
      var oldState := CurrentState();
      states := [];
      values := [];
      for i := 0 to |entries|
        invariant Valid() && listeners == old(listeners)
        invariant states == Reverse(Firsts(entries[..i])) && values == Reverse(Seconds(entries[..i]))
        invariant events == old(events) + AddedEvents(entries[..i])
        invariant deliveries == old(deliveries) + Dispatch(listeners, AddedEvents(entries[..i]))
        invariant observed == old(observed) + Loads(entries[..i])
      {
        LoadStep(entries, i);
        var e := StateAdded(entries[i].0, entries[i].1);
        states := [entries[i].0] + states;
        values := [entries[i].1] + values;
        Fire(e);
        DispatchAppend(listeners, AddedEvents(entries[..i]), [e]);
        AppendAssoc(old(events), AddedEvents(entries[..i]), [e]);
        AppendAssoc(old(deliveries), Dispatch(listeners, AddedEvents(entries[..i])), Dispatch(listeners, [e]));
        AppendAssoc(old(observed), Loads(entries[..i]), [Now()]);
      }
      assert entries[..|entries|] == entries;
      if entries != [] {
        ReverseAt(Firsts(entries), 0);
        assert states[0] == entries[|entries| - 1].0;
      }
      var newState := CurrentState();
      Fire(StateChanged(oldState, newState));
      DispatchAppend(listeners, AddedEvents(entries), [StateChanged(oldState, newState)]);
      AppendAssoc(old(events), AddedEvents(entries), [StateChanged(oldState, newState)]);
      AppendAssoc(old(deliveries), Dispatch(listeners, AddedEvents(entries)), Dispatch(listeners, [StateChanged(oldState, newState)]));
      AppendAssoc(old(observed), Loads(entries), [Now()]);
    }

    /** Pushes `state` with a `null` value. */
    method AddBareState(state: S)
      requires Valid()
      modifies this
      ensures Valid() && listeners == old(listeners)
      ensures states == [state] + old(states) && values == [None] + old(values)
      ensures Notified(old(events), old(deliveries), old(observed),
                       [StateAdded(state, None), StateChanged(old(CurrentState()), Some(state))], [Now(), Now()])
    {
      AddState(state, None);
    }

    /** Pushes `(state, value)` as the new current entry; fires `stateAdded`
        and then `stateChanged(old, state)`. */
    method AddState(state: S, value: Option<V>)
      requires Valid()
      modifies this
      ensures Valid() && listeners == old(listeners)
      ensures states == [state] + old(states) && values == [value] + old(values)
      ensures Notified(old(events), old(deliveries), old(observed),
                       [StateAdded(state, value), StateChanged(old(CurrentState()), Some(state))], [Now(), Now()])
    {
      var oldState := CurrentState();
      states := [state] + states;
      values := [value] + values;
      var added, changed := StateAdded(state, value), StateChanged(oldState, Some(state));
      Fire(added);
      Fire(changed);
      DispatchAppend(listeners, [added], [changed]);
      assert [added] + [changed] == [added, changed];
    }

    //
    // Listeners
    //

    /** Registers `listener` unless it is `null` or already registered. */
    method AddBreadcrumbListener(listener: Option<L>)
      requires Valid()
      modifies this
      ensures Valid() && listeners == Register(old(listeners), listener)
      ensures states == old(states) && values == old(values)
      ensures events == old(events) && deliveries == old(deliveries) && observed == old(observed)
    {
      if listener.Some? && listener.value !in listeners {
        listeners := listeners + [listener.value];
      }
    }

    /** Unregisters `listener`; removing one never registered does nothing. */
    method RemoveBreadcrumbListener(listener: Option<L>)
      requires Valid()
      modifies this
      ensures Valid() && listeners == Unregister(old(listeners), listener)
      ensures listener.Some? ==> listener.value !in listeners
      ensures states == old(states) && values == old(values)
      ensures events == old(events) && deliveries == old(deliveries) && observed == old(observed)
    {
      if listener.Some? {
        UnregisterRemoves(listeners, listener.value);
        listeners := RemoveFirst(listeners, listener.value);
      }
    }

    /** One fire call (`fireStateAdded` or `fireStateChanged`): logs `e`,
        together with the history its callbacks observe, and hands it to
        every registered listener in registration order. */
    method Fire(e: Event<S, V>)
      requires Valid()
      modifies this
      ensures Valid() && listeners == old(listeners)
      ensures states == old(states) && values == old(values)
      ensures Notified(old(events), old(deliveries), old(observed), [e], [Now()])
    {
      events := events + [e];
      observed := observed + [Now()];
      var i := 0;
      while i < |listeners|
        invariant 0 <= i <= |listeners|
        invariant Valid() && listeners == old(listeners)
        invariant states == old(states) && values == old(values) && events == old(events) + [e]
        invariant observed == old(observed) + [Now()]
        invariant deliveries == old(deliveries) + Broadcast(listeners[..i], e)
      {
        assert listeners[..i + 1] == listeners[..i] + [listeners[i]];
        BroadcastSnoc(listeners[..i], listeners[i], e);
        deliveries := deliveries + [Delivery(listeners[i], e)];
        i := i + 1;
      }
      assert listeners[..i] == listeners;
      assert Dispatch(listeners, [e]) == Broadcast(listeners, e) + Dispatch(listeners, []);
    }
  }

  /** The breadcrumb's iterator: walks both stacks together, newest first,
      and refuses to remove. */
  class EntryIterator<S(==), V, L(==)> {
    const owner: Breadcrumb<S, V, L>
    var position: nat

    constructor (owner: Breadcrumb<S, V, L>)
      ensures this.owner == owner && position == 0
    {
      this.owner := owner;
      position := 0;
    }

    function HasNext(): (r: bool)
      reads this, owner
      ensures r <==> position < |owner.states|
    {
      position < |owner.states|
    }

    /** The next entry, or `NoSuchElementException` once exhausted. */
    method Next() returns (r: Result<(S, Option<V>), Failure>)
      requires owner.Valid()
      modifies this
      ensures old(position) < |owner.states| ==>
        r == Ok(owner.Entries()[old(position)]) && position == old(position) + 1
      ensures old(position) >= |owner.states| ==>
        r == Err(NoSuchElement) && position == old(position)
    {
      if position < |owner.states| {
        r := Ok((owner.states[position], owner.values[position]));
        position := position + 1;
      } else {
        r := Err(NoSuchElement);
      }
    }

    /** Removal through the iterator always fails. */
    method Remove() returns (r: Outcome<Failure>)
      ensures r == Fail(UnsupportedOperation)
    {
      r := Fail(UnsupportedOperation);
    }
  }
}
