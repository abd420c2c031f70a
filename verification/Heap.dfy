/** The binary heap of dst/engine.go over a list of events, as facts about single swaps. */
module Heap {
  import opened Schedule

  function Parent(i: nat): nat
    requires i > 0
  {
    (i - 1) / 2
  }

  /** No event is earlier than its parent. */
  predicate InOrder<M>(q: seq<Event<M>>, i: nat)
    requires 0 < i < |q|
  {
    !Earlier(q[i], q[Parent(i)])
  }

  predicate IsHeap<M>(q: seq<Event<M>>) {
    forall i :: 0 < i < |q| ==> InOrder(q, i)
  }

  function Swap<M>(q: seq<Event<M>>, i: nat, j: nat): seq<Event<M>>
    requires i < |q| && j < |q|
  {
    q[i := q[j]][j := q[i]]
  }

  lemma SwapKeeps<M>(q: seq<Event<M>>, i: nat, j: nat)
    requires i < |q| && j < |q|
    ensures multiset(Swap(q, i, j)) == multiset(q)
  {
  }

  // ------------------------------------------------------------ sifting up

  /** A heap except that `i` may be earlier than its parent. */
  predicate HeapUp<M>(q: seq<Event<M>>, i: nat) {
    i < |q| && (forall j :: 0 < j < |q| && j != i ==> InOrder(q, j))
    && forall j :: 0 < j < |q| && i > 0 && Parent(j) == i ==> !Earlier(q[j], q[Parent(i)])
  }

  lemma AppendedIsHeapUp<M>(q: seq<Event<M>>, e: Event<M>)
    requires IsHeap(q)
    ensures HeapUp(q + [e], |q|)
  {
    var r := q + [e];
    forall j | 0 < j < |r| && j != |q| ensures InOrder(r, j) {
      assert InOrder(q, j);
    }
  }

  lemma SiftUpStep<M>(q: seq<Event<M>>, i: nat)
    requires HeapUp(q, i) && i > 0 && !InOrder(q, i)
    ensures HeapUp(Swap(q, i, Parent(i)), Parent(i))
  {
    var p := Parent(i);
    var r := Swap(q, i, p);
    forall j | 0 < j < |r| && j != p ensures InOrder(r, j) {
      if j != i { assert InOrder(q, j); }
    }
    forall j | 0 < j < |r| && p > 0 && Parent(j) == p ensures !Earlier(r[j], r[Parent(p)]) {
      assert InOrder(q, p);
      if j != i { assert InOrder(q, j); }
    }
  }

  lemma SiftUpDone<M>(q: seq<Event<M>>, i: nat)
    requires HeapUp(q, i) && (i == 0 || InOrder(q, i))
    ensures IsHeap(q)
  {
  }

  // ------------------------------------------------------------ sifting down

  /** In order below every position from `lo` on, except below `i`. */
  predicate HeapDown<M>(q: seq<Event<M>>, lo: nat, i: nat) {
    lo <= i && (i == lo || (i > 0 && Parent(i) >= lo))
    && (forall j :: 0 < j < |q| && Parent(j) >= lo && Parent(j) != i ==> InOrder(q, j))
    && forall j :: 0 < j < |q| && i > lo && i < |q| && Parent(j) == i ==> !Earlier(q[j], q[Parent(i)])
  }

  predicate HeapFrom<M>(q: seq<Event<M>>, lo: nat) {
    forall j :: 0 < j < |q| && Parent(j) >= lo ==> InOrder(q, j)
  }

  /** `c` is the child of `i` that no other child, nor `i`, is earlier than. */
  predicate SmallestChild<M>(q: seq<Event<M>>, i: nat, c: nat)
    requires c < |q| && i < |q|
  {
    c > 0 && Parent(c) == i && Earlier(q[c], q[i])
    && forall j :: 0 < j < |q| && Parent(j) == i ==> !Earlier(q[j], q[c])
  }

  lemma SiftDownStep<M>(q: seq<Event<M>>, lo: nat, i: nat, c: nat)
    requires i < |q| && c < |q| && HeapDown(q, lo, i) && SmallestChild(q, i, c)
    ensures HeapDown(Swap(q, i, c), lo, c)
  {
    var r := Swap(q, i, c);
    forall j | 0 < j < |r| && Parent(j) >= lo && Parent(j) != c ensures InOrder(r, j) {
      if j != c && j != i && Parent(j) != i { assert InOrder(q, j); }
    }
    forall j | 0 < j < |r| && Parent(j) == c ensures !Earlier(r[j], r[Parent(c)]) {
      assert InOrder(q, j);
    }
  }

  lemma SiftDownDone<M>(q: seq<Event<M>>, lo: nat, i: nat)
    requires HeapDown(q, lo, i)
    requires forall j :: 0 < j < |q| && Parent(j) == i ==> InOrder(q, j)
    ensures HeapFrom(q, lo)
  {
  }

  /** Before a sift from `lo`, the positions above it are already in order. */
  lemma SiftDownStart<M>(q: seq<Event<M>>, lo: nat)
    requires HeapFrom(q, lo + 1)
    ensures HeapDown(q, lo, lo)
  {
  }

  // ------------------------------------------------------------ the root

  lemma {:induction false} RootIsFirst<M>(q: seq<Event<M>>, i: nat)
    requires IsHeap(q) && i < |q|
    ensures !Earlier(q[i], q[0])
  {
    if i > 0 {
      assert InOrder(q, i);
      RootIsFirst(q, Parent(i));
    }
  }

  /** The event before all others, wherever it lies in a list with the same events. */
  lemma FirstIsHead<M>(q: seq<Event<M>>, order: seq<Event<M>>, i: nat)
    requires Sorted(order) && multiset(q) == multiset(order) && i < |q|
    requires forall j :: 0 <= j < |q| ==> !Earlier(q[j], q[i])
    ensures |order| > 0 && order[0] == q[i]
  {
    assert q[i] in multiset(q);
    assert q[i] in order;
    var k :| 0 <= k < |order| && order[k] == q[i];
    assert order[0] in multiset(order);
    assert order[0] in q;
    var j :| 0 <= j < |q| && q[j] == order[0];
    assert k > 0 ==> Earlier(order[0], order[k]);
  }

  lemma HeapHead<M>(q: seq<Event<M>>, order: seq<Event<M>>)
    requires IsHeap(q) && Sorted(order) && multiset(q) == multiset(order)
    ensures |q| == |order|
    ensures |q| > 0 ==> q[0] == order[0]
  {
    assert |q| == |multiset(q)| == |multiset(order)| == |order|;
    if |q| > 0 {
      forall j | 0 <= j < |q| ensures !Earlier(q[j], q[0]) { RootIsFirst(q, j); }
      FirstIsHead(q, order, 0);
    }
  }

  /** Taking the first event out of both keeps them alike. */
  lemma TailsAlike<M>(q: seq<Event<M>>, r: seq<Event<M>>, order: seq<Event<M>>)
    requires multiset(q) == multiset(order) && |order| > 0 && multiset(r) == multiset(q) - multiset{order[0]}
    ensures multiset(r) == multiset(order[1..])
  {
    assert order == [order[0]] + order[1..];
  }

  lemma SortedTail<M>(order: seq<Event<M>>)
    requires Sorted(order) && |order| > 0
    ensures Sorted(order[1..]) && forall x :: x in order[1..] ==> x in order
  {
  }

  lemma {:induction false} KeptConcat<M>(a: seq<Event<M>>, b: seq<Event<M>>, node: nat)
    ensures Kept(a + b, node) == Kept(a, node) + Kept(b, node)
  {
    if b == [] {
      assert a + b == a;
    } else {
      var n := |b| - 1;
      assert (a + b)[..|a + b| - 1] == a + b[..n];
      KeptConcat(a, b[..n], node);
    }
  }

  lemma KeptMiddle<M>(a: seq<Event<M>>, e: Event<M>, b: seq<Event<M>>, node: nat)
    ensures multiset(Kept(a + [e] + b, node)) == multiset(Kept(a + b, node)) + multiset(Kept([e], node))
  {
    hide Kept;
    KeptConcat(a + [e], b, node);
    KeptConcat(a, [e], node);
    KeptConcat(a, b, node);
  }

  /** Isolation treats lists with the same events alike. */
  lemma {:induction false} KeptAlike<M>(q: seq<Event<M>>, order: seq<Event<M>>, node: nat)
    requires multiset(q) == multiset(order)
    ensures multiset(Kept(q, node)) == multiset(Kept(order, node))
    decreases |q|
  {
    hide Kept;
    if q == [] {
      assert |multiset(order)| == 0;
      assert order == [];
    } else {
      var n := |q| - 1;
      var e := q[n];
      assert q == q[..n] + [e] + [];
      assert e in multiset(order);
      var k :| 0 <= k < |order| && order[k] == e;
      var a, b := order[..k], order[k + 1..];
      assert order == a + [e] + b;
      Removed(q[..n], e, []);
      Removed(a, e, b);
      KeptAlike(q[..n], a + b, node);
      KeptMiddle(a, e, b, node);
      KeptMiddle(q[..n], e, [], node);
      assert q[..n] + [] == q[..n];
    }
  }

  lemma Removed<M>(a: seq<Event<M>>, e: Event<M>, b: seq<Event<M>>)
    ensures multiset(a + b) == multiset(a + [e] + b) - multiset{e}
  {
  }

  lemma SameLength<M>(q: seq<Event<M>>, r: seq<Event<M>>)
    requires multiset(q) == multiset(r)
    ensures |q| == |r|
  {
    assert |multiset(q)| == |q| && |multiset(r)| == |r|;
  }
}
