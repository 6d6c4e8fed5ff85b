/** Pure sequence functions that specify how the breadcrumb's two stacks
    change: prepending, truncating back to the first occurrence of a state,
    and loading an oldest-first list of entries newest-first. */
module History {

  /** `s` in the opposite order. */
  function Reverse<T>(s: seq<T>): (r: seq<T>)
    ensures |r| == |s|
  {
    if s == [] then [] else Reverse(s[1..]) + [s[0]]
  }

  /** Element `k` of the reversal is element `|s| - 1 - k` of the original. */
  lemma {:induction false} ReverseAt<T>(s: seq<T>, k: nat)
    requires k < |s|
    ensures Reverse(s)[k] == s[|s| - 1 - k]
  {
    if k < |s| - 1 {
      ReverseAt(s[1..], k);
    }
  }

  /** Appending at the back of the input prepends to the reversal: this is
      why a loop that pushes each entry at the front loads a list reversed. */
  lemma {:induction false} ReverseSnoc<T>(s: seq<T>, x: T)
    ensures Reverse(s + [x]) == [x] + Reverse(s)
  {
    if s == [] {
      assert s + [x] == [x];
    } else {
      assert (s + [x])[1..] == s[1..] + [x];
      ReverseSnoc(s[1..], x);
    }
  }

  /** Reversing twice gives back the input. */
  lemma {:induction false} ReverseReverse<T>(s: seq<T>)
    ensures Reverse(Reverse(s)) == s
  {
    if s != [] {
      ReverseReverse(s[1..]);
      ReverseSnoc(Reverse(s[1..]), s[0]);
      assert [s[0]] + s[1..] == s;
    }
  }

  /** Concatenation is associative. Stated once, and called where a log
      that grows at the end is compared with its old value plus a run, so
      that the solver need not rediscover it among many sequence terms. */
  lemma AppendAssoc<T>(a: seq<T>, b: seq<T>, c: seq<T>)
    ensures (a + b) + c == a + (b + c)
  {
  }

  /** The index of the first occurrence of `t` in `s`, or `|s|` when `t`
      does not occur: the value the scan of `gotoState` stops at. */
  function FirstIndex<T(==)>(s: seq<T>, t: T): (i: nat)
    ensures i <= |s|
    ensures i < |s| ==> s[i] == t
    ensures forall j :: 0 <= j < i ==> s[j] != t
    ensures i == |s| <==> t !in s
  {
    if s == [] then 0
    else if s[0] == t then 0
    else 1 + FirstIndex(s[1..], t)
  }

  /** The first components of a list of pairs, in the same order. */
  function Firsts<A, B>(ps: seq<(A, B)>): (r: seq<A>)
    ensures |r| == |ps|
    ensures forall k :: 0 <= k < |ps| ==> r[k] == ps[k].0
  {
    if ps == [] then [] else [ps[0].0] + Firsts(ps[1..])
  }

  /** The second components of a list of pairs, in the same order. */
  function Seconds<A, B>(ps: seq<(A, B)>): (r: seq<B>)
    ensures |r| == |ps|
    ensures forall k :: 0 <= k < |ps| ==> r[k] == ps[k].1
  {
    if ps == [] then [] else [ps[0].1] + Seconds(ps[1..])
  }

  /** Extending a list of pairs by one pair extends both projections. */
  lemma ProjectionsSnoc<A, B>(ps: seq<(A, B)>, p: (A, B))
    ensures Firsts(ps + [p]) == Firsts(ps) + [p.0]
    ensures Seconds(ps + [p]) == Seconds(ps) + [p.1]
  {
    assert Firsts(ps + [p]) == Firsts(ps) + [p.0] by {
      assert forall k :: 0 <= k < |ps| ==> (ps + [p])[k] == ps[k];
    }
    assert Seconds(ps + [p]) == Seconds(ps) + [p.1] by {
      assert forall k :: 0 <= k < |ps| ==> (ps + [p])[k] == ps[k];
    }
  }

  /** The pairs `(a[k], b[k])` of two lists of equal length, in order. */
  function Zip<A, B>(a: seq<A>, b: seq<B>): (r: seq<(A, B)>)
    requires |a| == |b|
    ensures |r| == |a|
    ensures forall k :: 0 <= k < |a| ==> r[k] == (a[k], b[k])
  {
    if a == [] then [] else [(a[0], b[0])] + Zip(a[1..], b[1..])
  }

  /** Zipping two lists and projecting gives each list back. */
  lemma ZipProjections<A, B>(a: seq<A>, b: seq<B>)
    requires |a| == |b|
    ensures Firsts(Zip(a, b)) == a && Seconds(Zip(a, b)) == b
  {
  }
}
