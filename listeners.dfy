/** The breadcrumb's listener registry and its notification protocol.
    A listener's callbacks are foreign code; the model records each call
    instead: an `Event` per call of a fire method, and a `Delivery` per
    callback, naming the listener that received it. */
module Listeners {
  import opened Wrappers
  import opened History

  /** One call of `fireStateAdded(state, value)` or `fireStateChanged(old, new)`;
      `None` stands for a `null` argument (no current state, no value). */
  datatype Event<S, V> =
    | StateAdded(state: S, value: Option<V>)
    | StateChanged(oldState: Option<S>, newState: Option<S>)

  /** One callback: `event` handed to `listener`. */
  datatype Delivery<S, V, L> = Delivery(listener: L, event: Event<S, V>)

  /** No listener is registered twice. */
  ghost predicate NoDuplicates<L>(ls: seq<L>)
  {
    forall i, j :: 0 <= i < j < |ls| ==> ls[i] != ls[j]
  }

  /** The registry after `addBreadcrumbListener(l)`: a `null` listener and one
      already registered are ignored; otherwise `l` goes last. */
  function Register<L(==)>(ls: seq<L>, l: Option<L>): (r: seq<L>)
    ensures forall x :: x in r ==> x in ls || l == Some(x)
    ensures forall x :: x in ls ==> x in r
    ensures l.Some? ==> l.value in r
    ensures |ls| <= |r| <= |ls| + 1 && r[..|ls|] == ls
    ensures NoDuplicates(ls) ==> NoDuplicates(r)
  {
    if l.Some? && l.value !in ls then ls + [l.value] else ls
  }

  /** Registering the same listener twice has no further effect. */
  lemma RegisterIdempotent<L>(ls: seq<L>, l: Option<L>)
    ensures Register(Register(ls, l), l) == Register(ls, l)
  {
  }

  /** `ls` without its first occurrence of `x`, as `ArrayList.remove` does:
      find the index, then close the gap. The listeners before that
      occurrence keep their places and those after it move up by one. */
  function RemoveFirst<L(==)>(ls: seq<L>, x: L): (r: seq<L>)
    ensures x !in ls ==> r == ls
    ensures |r| == if x in ls then |ls| - 1 else |ls|
    ensures forall y :: y in r ==> y in ls
    ensures x in ls ==> forall k :: 0 <= k < |r| ==>
      r[k] == if k < FirstIndex(ls, x) then ls[k] else ls[k + 1]
  {
    var i := FirstIndex(ls, x);
    if i == |ls| then ls else ls[..i] + ls[i + 1..]
  }

  /** The registry after `removeBreadcrumbListener(l)`; removing `null` finds
      nothing to remove, as the registry never holds `null`. */
  function Unregister<L(==)>(ls: seq<L>, l: Option<L>): (r: seq<L>)
    ensures l.None? || l.value !in ls ==> r == ls
    ensures forall x :: x in r ==> x in ls
  {
    match l
    case None => ls
    case Some(x) => RemoveFirst(ls, x)
  }

  /** `ls` with every occurrence of `x` filtered out, the others in order:
      an independent definition of what unregistering should leave. */
  function Without<L(==)>(ls: seq<L>, x: L): (r: seq<L>)
    ensures x !in r
    ensures forall y :: y in r ==> y in ls
  {
    if ls == [] then [] else (if ls[0] == x then [] else [ls[0]]) + Without(ls[1..], x)
  }

  /** Filtering out a listener that is absent changes nothing. */
  lemma {:induction false} WithoutAbsent<L>(ls: seq<L>, x: L)
    requires x !in ls
    ensures Without(ls, x) == ls
  {
    if ls != [] {
      assert x !in ls[1..];
      WithoutAbsent(ls[1..], x);
      assert [ls[0]] + ls[1..] == ls;
    }
  }

  /** A registry without duplicates stays so without its first listener,
      and that listener does not occur again. */
  lemma NoDuplicatesTail<L>(ls: seq<L>)
    requires ls != [] && NoDuplicates(ls)
    ensures NoDuplicates(ls[1..]) && ls[0] !in ls[1..]
  {
    forall i, j | 0 <= i < j < |ls| - 1 ensures ls[1..][i] != ls[1..][j] {
      assert ls[i + 1] != ls[j + 1];
    }
    forall j | 0 <= j < |ls| - 1 ensures ls[1..][j] != ls[0] {
      assert ls[0] != ls[j + 1];
    }
  }

  /** Removal past a different first listener keeps that listener in front. */
  lemma RemoveFirstCons<L>(ls: seq<L>, x: L)
    requires ls != [] && ls[0] != x
    ensures RemoveFirst(ls, x) == [ls[0]] + RemoveFirst(ls[1..], x)
  {
    var tail := ls[1..];
    assert ls == [ls[0]] + tail;
    assert x in ls <==> x in tail;
    if x in tail {
      var i := FirstIndex(tail, x);
      assert FirstIndex(ls, x) == i + 1;
      assert ls[..i + 1] == [ls[0]] + tail[..i];
      assert ls[i + 2..] == tail[i + 1..];
    }
  }

  /** In a registry without duplicates, unregistering `l` is filtering it
      out: every other listener stays, in registration order. */
  lemma {:induction false} UnregisterFilters<L>(ls: seq<L>, l: L)
    requires NoDuplicates(ls)
    ensures Unregister(ls, Some(l)) == Without(ls, l)
  {
    if ls != [] {
      NoDuplicatesTail(ls);
      if ls[0] == l {
        WithoutAbsent(ls[1..], l);
      } else {
        UnregisterFilters(ls[1..], l);
        RemoveFirstCons(ls, l);
      }
    }
  }

  /** In a registry without duplicates, unregistering `l` leaves every other
      listener and no `l` at all, and the registry stays duplicate-free. */
  lemma {:induction false} UnregisterRemoves<L>(ls: seq<L>, l: L)
    requires NoDuplicates(ls)
    ensures NoDuplicates(Unregister(ls, Some(l)))
    ensures l !in Unregister(ls, Some(l))
    ensures forall x :: x in ls && x != l ==> x in Unregister(ls, Some(l))
    ensures forall x :: x in Unregister(ls, Some(l)) ==> x in ls
  {
    var r := Unregister(ls, Some(l));
    if l in ls {
      var i := FirstIndex(ls, l);
      assert r == ls[..i] + ls[i + 1..];
      forall a, b | 0 <= a < b < |r| ensures r[a] != r[b] {
        var a' := if a < i then a else a + 1;
        var b' := if b < i then b else b + 1;
        assert r[a] == ls[a'] && r[b] == ls[b'];
      }
      forall k | 0 <= k < |r| ensures r[k] in ls && r[k] != l {
        var k' := if k < i then k else k + 1;
        assert r[k] == ls[k'] && k' != i;
        assert ls[i] == l;
      }
      forall x | x in ls && x != l ensures x in r {
        var k :| 0 <= k < |ls| && ls[k] == x;
        assert k != i;
        assert r[if k < i then k else k - 1] == x;
      }
    }
  }

  /** Removing a listener just registered, that was not registered before,
      restores the registry. */
  lemma {:induction false} RegisterUnregister<L>(ls: seq<L>, l: L)
    requires l !in ls
    ensures Unregister(Register(ls, Some(l)), Some(l)) == ls
  {
    var r := Register(ls, Some(l));
    assert r == ls + [l];
    assert FirstIndex(r, l) == |ls|;
    assert r[..|ls|] == ls;
  }

  /** The callbacks one fire call makes: `e` to every listener, in
      registration order. */
  function Broadcast<S, V, L>(ls: seq<L>, e: Event<S, V>): (r: seq<Delivery<S, V, L>>)
    ensures |r| == |ls|
    ensures forall k :: 0 <= k < |ls| ==> r[k] == Delivery(ls[k], e)
  {
    if ls == [] then [] else [Delivery(ls[0], e)] + Broadcast(ls[1..], e)
  }

  /** One more listener means one more callback, at the end. */
  lemma BroadcastSnoc<S, V, L>(ls: seq<L>, l: L, e: Event<S, V>)
    ensures Broadcast(ls + [l], e) == Broadcast(ls, e) + [Delivery(l, e)]
  {
    assert forall k :: 0 <= k < |ls| ==> (ls + [l])[k] == ls[k];
  }

  /** The callbacks a sequence of fire calls makes, with the registry fixed. */
  function Dispatch<S, V, L>(ls: seq<L>, es: seq<Event<S, V>>): seq<Delivery<S, V, L>>
  {
    if es == [] then [] else Broadcast(ls, es[0]) + Dispatch(ls, es[1..])
  }

  /** Dispatching two runs of events is dispatching each in turn. */
  lemma {:induction false} DispatchAppend<S, V, L>(ls: seq<L>, a: seq<Event<S, V>>, b: seq<Event<S, V>>)
    ensures Dispatch(ls, a + b) == Dispatch(ls, a) + Dispatch(ls, b)
  {
    if a == [] {
      assert a + b == b;
    } else {
      assert (a + b)[1..] == a[1..] + b;
      DispatchAppend(ls, a[1..], b);
    }
  }

  /** The events `l` received, in order, among the callbacks `ds`. */
  function Received<S, V, L(==)>(ds: seq<Delivery<S, V, L>>, l: L): seq<Event<S, V>>
  {
    if ds == [] then []
    else (if ds[0].listener == l then [ds[0].event] else []) + Received(ds[1..], l)
  }

  lemma {:induction false} ReceivedAppend<S, V, L>(a: seq<Delivery<S, V, L>>, b: seq<Delivery<S, V, L>>, l: L)
    ensures Received(a + b, l) == Received(a, l) + Received(b, l)
  {
    if a == [] {
      assert a + b == b;
    } else {
      var head := if a[0].listener == l then [a[0].event] else [];
      assert (a + b)[0] == a[0];
      assert (a + b)[1..] == a[1..] + b;
      ReceivedAppend(a[1..], b, l);
    }
  }

  /** One fire call reaches each registered listener exactly once. */
  lemma {:induction false} ReceivedBroadcast<S, V, L>(ls: seq<L>, e: Event<S, V>, l: L)
    requires NoDuplicates(ls)
    ensures Received(Broadcast(ls, e), l) == if l in ls then [e] else []
  {
    if ls != [] {
      var rest := Broadcast(ls[1..], e);
      assert Broadcast(ls, e) == [Delivery(ls[0], e)] + rest;
      ReceivedAppend([Delivery(ls[0], e)], rest, l);
      NoDuplicatesTail(ls);
      ReceivedBroadcast(ls[1..], e, l);
      assert l in ls <==> ls[0] == l || l in ls[1..] by {
        assert ls == [ls[0]] + ls[1..];
      }
    }
  }

  /** The notification protocol: with the registry fixed, every registered
      listener receives exactly the sequence of fired events, in order, and
      an unregistered one receives nothing. */
  lemma {:induction false} ReceivedDispatch<S, V, L>(ls: seq<L>, es: seq<Event<S, V>>, l: L)
    requires NoDuplicates(ls)
    ensures Received(Dispatch(ls, es), l) == if l in ls then es else []
  {
    if es != [] {
      ReceivedAppend(Broadcast(ls, es[0]), Dispatch(ls, es[1..]), l);
      ReceivedBroadcast(ls, es[0], l);
      ReceivedDispatch(ls, es[1..], l);
      assert es == [es[0]] + es[1..];
    }
  }
}
