/** Client programs that drive a breadcrumb through concrete histories and
    state the results they must observe. Each follows from the contracts of
    the class and of the functions those contracts name. */
module Scenarios {
  import opened Wrappers
  import opened History
  import opened Listeners
  import opened Breadcrumbs

  /** Push A, B, C, then go back to A: only A is left, and the jump fires one
      `stateChanged(C, A)` after the three add-and-change pairs. */
  method GotoOldest() returns (states: seq<string>, current: Option<string>, value: Option<int>,
                               events: seq<Event<string, int>>)
    ensures states == ["A"] && current == Some("A") && value == Some(1)
    ensures events == [StateAdded("A", Some(1)), StateChanged(None, Some("A")),
                       StateAdded("B", Some(2)), StateChanged(Some("A"), Some("B")),
                       StateAdded("C", Some(3)), StateChanged(Some("B"), Some("C")),
                       StateChanged(Some("C"), Some("A"))]
  {
    var b := new Breadcrumb<string, int, nat>();
    b.AddState("A", Some(1));
    b.AddState("B", Some(2));
    b.AddState("C", Some(3));
    assert b.states == ["C", "B", "A"];
    assert FirstIndex(b.states, "A") == 2;
    b.GotoState("A");
    states, current, value, events := b.GetStates(), b.CurrentState(), b.CurrentValue(), b.events;
  }

  /** Popping and clearing an empty history change nothing and fire
      nothing; then going to the current state, or to one never visited,
      changes nothing and fires nothing. */
  method NoOps() returns (emptied: seq<string>, firedWhileEmpty: seq<Event<string, int>>,
                          states: seq<string>, fired: seq<Event<string, int>>)
    ensures emptied == [] && firedWhileEmpty == []
    ensures states == ["B", "A"] && fired == []
  {
    var b := new Breadcrumb<string, int, nat>();
    b.PopState();
    b.Clear();
    emptied, firedWhileEmpty := b.GetStates(), b.events;
    b.AddBareState("A");
    b.AddBareState("B");
    var before := b.events;
    b.GotoState("B");
    b.GotoState("Z");
    states := b.GetStates();
    fired := b.events[|before|..];
  }

  /** Loading [a, b, c] (oldest first) over a history holding X: the stacks
      read newest first, three `stateAdded` fire in input order, then one
      `stateChanged(X, c)`. */
  method LoadThree() returns (states: seq<string>, values: seq<Option<int>>, fired: seq<Event<string, int>>)
    ensures states == ["c", "b", "a"] && values == [Some(3), Some(2), Some(1)]
    ensures fired == [StateAdded("a", Some(1)), StateAdded("b", Some(2)), StateAdded("c", Some(3)),
                      StateChanged(Some("X"), Some("c"))]
  {
    var b := new Breadcrumb<string, int, nat>();
    b.AddBareState("X");
    var before := b.events;
    var entries := [("a", Some(1)), ("b", Some(2)), ("c", Some(3))];
    b.Set(entries);
    assert Firsts(entries) == ["a", "b", "c"] && Seconds(entries) == [Some(1), Some(2), Some(3)];
    assert Reverse(["a", "b", "c"]) == ["c", "b", "a"];
    assert Reverse([Some(1), Some(2), Some(3)]) == [Some(3), Some(2), Some(1)];
    states, values := b.GetStates(), b.GetValues();
    fired := b.events[|before|..];
  }

  /** The histories observed while loading two entries `x` then `y`. */
  lemma LoadsTwo<S, V>(x: (S, Option<V>), y: (S, Option<V>))
    ensures Reverse(Firsts([x, y])) == [y.0, x.0] && Reverse(Seconds([x, y])) == [y.1, x.1]
    ensures Loads([x, y]) == [Snapshot([x.0], [x.1]), Snapshot([y.0, x.0], [y.1, x.1])]
  {
    assert [x, y][..1] == [x];
    assert Firsts([x]) == [x.0] && Seconds([x]) == [x.1];
    assert Firsts([x, y]) == [x.0, y.0] && Seconds([x, y]) == [x.1, y.1];
    assert Reverse([x.0]) == [x.0] && Reverse([x.1]) == [x.1];
    assert Reverse([x.0, y.0]) == [y.0, x.0] by {
      assert [x.0, y.0][1..] == [y.0];
    }
    assert Reverse([x.1, y.1]) == [y.1, x.1] by {
      assert [x.1, y.1][1..] == [y.1];
    }
  }

  /** Each `stateAdded` of a load observes the entries loaded so far, and
      the closing `stateChanged` the whole loaded history. */
  method LoadObserved() returns (seen: seq<Snapshot<string, int>>)
    ensures seen == [Snapshot(["a"], [Some(1)]),
                     Snapshot(["b", "a"], [Some(2), Some(1)]),
                     Snapshot(["b", "a"], [Some(2), Some(1)])]
  {
    var b := new Breadcrumb<string, int, nat>();
    var x, y := ("a", Some(1)), ("b", Some(2));
    b.Set([x, y]);
    LoadsTwo(x, y);
    seen := b.observed;
  }

  /** Listeners are called after the stacks change: both callbacks of a push
      observe the new entry on top, and the callback of a pop observes it
      gone. */
  method PushPopObserved() returns (seen: seq<Snapshot<string, int>>)
    ensures seen == [Snapshot(["A"], [None]), Snapshot(["A"], [None]),
                     Snapshot(["B", "A"], [Some(2), None]), Snapshot(["B", "A"], [Some(2), None]),
                     Snapshot(["A"], [None])]
  {
    var b := new Breadcrumb<string, int, nat>();
    b.AddBareState("A");
    assert b.states == ["A"] && b.values == [None];
    assert b.observed == [Snapshot(["A"], [None]), Snapshot(["A"], [None])];
    b.AddState("B", Some(2));
    assert b.states == ["B", "A"] && b.values == [Some(2), None];
    ghost var pushed := b.observed;
    b.PopState();
    assert b.states == ["A"] && b.values == [None];
    assert b.observed == pushed + [Snapshot(["A"], [None])];
    seen := b.observed;
  }

  /** Loading an empty list over an empty history still fires one
      `stateChanged(null, null)`. */
  method LoadNothing() returns (fired: seq<Event<string, int>>)
    ensures fired == [StateChanged(None, None)]
  {
    var b := new Breadcrumb<string, int, nat>();
    b.Set([]);
    fired := b.events;
  }

  /** `peekState(-1)` and `peekState(size())` throw; `peekState(0)` is the
      current state. */
  method Peeks() returns (below: Result<string, Failure>, beyond: Result<string, Failure>,
                          top: Result<string, Failure>, current: Option<string>)
    ensures below == Err(IndexOutOfBounds) && beyond == Err(IndexOutOfBounds)
    ensures top == Ok("B") && current == Some("B")
  {
    var b := new Breadcrumb<string, int, nat>();
    b.AddBareState("A");
    b.AddBareState("B");
    below, beyond, top := b.PeekState(-1), b.PeekState(b.Size()), b.PeekState(0);
    current := b.CurrentState();
  }

  /** Popping and clearing report the old and new current states. */
  method PopThenClear() returns (fired: seq<Event<string, int>>, size: int)
    ensures fired == [StateChanged(Some("C"), Some("B")), StateChanged(Some("B"), None)]
    ensures size == 0
  {
    var b := new Breadcrumb<string, int, nat>();
    b.AddBareState("A");
    b.AddBareState("B");
    b.AddBareState("C");
    var before := b.events;
    b.PopState();
    b.Clear();
    fired := b.events[|before|..];
    size := b.Size();
  }

  /** The iterator yields the entries newest first, then throws; removal
      through it always fails. */
  method Iterate() returns (first: Result<(string, Option<int>), Failure>,
                            second: Result<(string, Option<int>), Failure>,
                            third: Result<(string, Option<int>), Failure>,
                            removal: Outcome<Failure>)
    ensures first == Ok(("B", None)) && second == Ok(("A", Some(1)))
    ensures third == Err(NoSuchElement) && removal == Fail(UnsupportedOperation)
  {
    var b := new Breadcrumb<string, int, nat>();
    b.AddState("A", Some(1));
    b.AddBareState("B");
    var it := b.Iterator();
    first := it.Next();
    removal := it.Remove();
    second := it.Next();
    third := it.Next();
  }

  /** Registering a listener twice, or registering `null`, adds nothing;
      removal takes the listener out. */
  method Registry() returns (afterAdds: seq<nat>, afterRemove: seq<nat>)
    ensures afterAdds == [1, 2] && afterRemove == [2]
  {
    var b := new Breadcrumb<string, int, nat>();
    b.AddBreadcrumbListener(Some(1));
    assert b.listeners == [1];
    b.AddBreadcrumbListener(Some(2));
    assert b.listeners == [1, 2];
    b.AddBreadcrumbListener(Some(1));
    assert b.listeners == [1, 2];
    b.AddBreadcrumbListener(None);
    afterAdds := b.listeners;
    b.RemoveBreadcrumbListener(Some(1));
    assert b.listeners == [1, 2][1..];
    afterRemove := b.listeners;
  }

  /** A registered listener hears every event, in order; one that is not
      registered hears nothing. */
  method Hearing() returns (toOne: seq<Event<string, int>>, toTwo: seq<Event<string, int>>)
    ensures toOne == [] && toTwo == [StateAdded("A", None), StateChanged(None, Some("A"))]
  {
    var b := new Breadcrumb<string, int, nat>();
    b.AddBreadcrumbListener(Some(2));
    assert b.listeners == [2];
    ghost var fired: seq<Event<string, int>> := [StateAdded("A", None), StateChanged(None, Some("A"))];
    b.AddBareState("A");
    assert b.events == [] + fired == fired;
    assert b.deliveries == [] + Dispatch([2], fired) == Dispatch([2], fired);
    ReceivedDispatch<string, int, nat>([2], fired, 1);
    ReceivedDispatch<string, int, nat>([2], fired, 2);
    toOne, toTwo := Received(b.deliveries, 1), Received(b.deliveries, 2);
  }
}
