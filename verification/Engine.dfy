/**
 The two schedulers as objects: the heap engine of dst/engine.go and the linear-scan
 simulator of sim/sim.go. Both are proved to do what the functions of Schedule say, so
 under the same commands they deliver the same messages and end in the same state.
 */
module Engine {
  import opened Schedule
  import opened ScheduleRuns
  import opened Heap

  /** blockedBy: the loop over the injectors. */
  method Blocker(injectors: seq<Injector>, now: nat, from: nat, to: nat, delay: nat) returns (name: string)
    ensures name == BlockedBy(injectors, now, from, to, delay)
  {
    var i := 0;
    while i < |injectors|
      invariant 0 <= i <= |injectors|
      invariant BlockedBy(injectors[i..], now, from, to, delay) == BlockedBy(injectors, now, from, to, delay)
    {
      if !injectors[i].allow(now, from, to, delay) { return injectors[i].name; }
      assert injectors[i..][1..] == injectors[i + 1..];
      i := i + 1;
    }
    name := "";
  }

  /** The loss draw, then the delay draw for a message that survives it. */
  method DrawFate<C, M, R>(p: Params<C, M, R>, rng: R) returns (fate: Fate, next: R)
    ensures (fate, next) == Draw(p, rng)
  {
    next := rng;
    if p.drop > 0 {
      var (v, r) := p.intn(next, 1000);
      next := r;
      if v < p.drop { return Lost, next; }
    }
    var d := 0;
    if p.delay > 0 {
      var (v, r) := p.int63n(next, p.delay + 1);
      d, next := v, r;
    }
    fate := Delayed(d);
  }

  /** The filtering loop that isolating a node and restarting one share. */
  method Filter<M>(queue: seq<Event<M>>, node: nat) returns (kept: seq<Event<M>>, dropped: nat)
    ensures kept == Kept(queue, node) && dropped == |queue| - |kept|
  {
    kept, dropped := [], 0;
    for k := 0 to |queue|
      invariant kept == Kept(queue[..k], node) && dropped == k - |kept|
    {
      assert queue[..k + 1][..k] == queue[..k];
      if queue[k].from == node || queue[k].to == node {
        dropped := dropped + 1;
      } else {
        kept := kept + [queue[k]];
      }
    }
    assert queue[..|queue|] == queue;
  }

  class HeapEngine<C(!new), M(!new), R(!new)> {
    const p: Params<C, M, R>
    var now: nat
    var cluster: C
    var rng: R
    var seqno: nat
    var queue: seq<Event<M>>
    var trace: seq<Event<M>>
    var injected: map<string, nat>
    ghost var order: seq<Event<M>>
    ghost var discarded: nat
    ghost var fates: seq<Fate>

    ghost function State(): State<C, M, R>
      reads this
    {
      Schedule.State(now, cluster, rng, seqno, order, trace, discarded, injected, fates)
    }

    /** The heap holds the schedule's events. */
    ghost predicate Valid()
      reads this
    {
      IsHeap(queue) && multiset(queue) == multiset(order) && Sorted(order)
      && forall x :: x in order ==> x.seqno <= seqno
    }

    constructor (p: Params<C, M, R>, cluster: C, rng: R)
      ensures Valid() && this.p == p && State() == Initial(cluster, rng)
    {
      this.p, now, this.cluster, this.rng, seqno := p, 0, cluster, rng, 0;
      queue, trace, injected, order, discarded, fates := [], [], map[], [], 0, [];
    }

    // ---------------------------------------------------------- the heap

    method Push(e: Event<M>)
      requires IsHeap(queue)
      modifies this`queue
      ensures IsHeap(queue) && multiset(queue) == multiset(old(queue)) + multiset{e}
    {
      AppendedIsHeapUp(queue, e);
      queue := queue + [e];
      var i := |queue| - 1;
      while i > 0
        invariant 0 <= i < |queue| && HeapUp(queue, i)
        invariant multiset(queue) == multiset(old(queue)) + multiset{e}
      {
        var parent := (i - 1) / 2;
        if !Earlier(queue[i], queue[parent]) { break; }
        SiftUpStep(queue, i);
        SwapKeeps(queue, i, parent);
        queue := queue[i := queue[parent]][parent := queue[i]];
        i := parent;
      }
      SiftUpDone(queue, i);
    }

    method SiftDown(start: nat)
      requires HeapFrom(queue, start + 1) && (start < |queue| || queue == [])
      modifies this`queue
      ensures HeapFrom(queue, start) && multiset(queue) == multiset(old(queue)) && |queue| == |old(queue)|
    {
      SiftDownStart(queue, start);
      var n := |queue|;
      var i := start;
      while i < n
        invariant start <= i && (i < n || n == 0) && |queue| == n && HeapDown(queue, start, i)
        invariant multiset(queue) == multiset(old(queue))
        decreases n - i
      {
        var left, smallest := 2 * i + 1, i;
        if left < n && Earlier(queue[left], queue[smallest]) { smallest := left; }
        var right := left + 1;
        if right < n && Earlier(queue[right], queue[smallest]) { smallest := right; }
        assert forall j :: 0 < j < n && Parent(j) == i ==> j == left || j == right;
        if smallest == i { break; }
        SiftDownStep(queue, start, i, smallest);
        SwapKeeps(queue, i, smallest);
        queue := queue[i := queue[smallest]][smallest := queue[i]];
        i := smallest;
      }
      SiftDownDone(queue, start, i);
    }

    method Pop() returns (top: Event<M>)
      requires IsHeap(queue) && |queue| > 0
      modifies this`queue
      ensures top == old(queue)[0] && IsHeap(queue) && multiset(queue) == multiset(old(queue)) - multiset{top}
    {
      top := queue[0];
      var last := |queue| - 1;
      ghost var before := queue;
      queue := queue[0 := queue[last]];
      queue := queue[..last];
      PoppedBag(before, queue);
      PoppedHeap(before, queue);
      SiftDown(0);
    }

    method Add(e: Event<M>)
      requires Valid() && e.seqno == seqno + 1
      modifies this`queue, this`seqno, this`order
      ensures Valid() && seqno == e.seqno && order == Insert(old(order), e)
    {
      InsertSorts(order, e);
      InsertAdds(order, e);
      forall x | x in Insert(order, e) ensures x.seqno <= seqno + 1 { InsertMember(order, e, x); }
      seqno := seqno + 1;
      Push(e);
      order := Insert(order, e);
    }

    /** Collect for one message: the draws first, the injectors after them. */
    method Enqueue(m: M)
      requires Valid()
      modifies this
      ensures Valid() && State() == CollectMessage(p, old(State()), m)
    {
      hide Draw, Insert, BlockedBy, IsHeap, Sorted;
      var fate, next := DrawFate(p, rng);
      rng, fates := next, fates + [fate];
      if fate.Lost? { return; }
      var (from, to) := p.route(m);
      var blocked := Blocker(p.injectors, now, from, to, fate.units);
      if blocked != "" {
        injected := injected[blocked := Count(injected, blocked) + 1];
        return;
      }
      Add(Event(now + fate.units, seqno + 1, from, to, m));
    }

    method Collect()
      requires Valid()
      modifies this
      ensures Valid() && State() == Schedule.Collect(p, old(State()))
    {
      hide CollectMessage;
      var ids := p.nodes(cluster);
      for k := 0 to |ids|
        invariant Valid() && State() == CollectNodes(p, old(State()), ids[..k])
      {
        assert ids[..k + 1][..k] == ids[..k];
        var (c, ms) := p.drain(cluster, ids[k]);
        cluster := c;
        ghost var start := State();
        for j := 0 to |ms|
          invariant Valid() && State() == CollectMessages(p, start, ms[..j])
        {
          assert ms[..j + 1][..j] == ms[..j];
          Enqueue(ms[j]);
        }
        assert ms[..|ms|] == ms;
      }
      assert ids[..|ids|] == ids;
    }

    method TickAll()
      requires Valid()
      modifies this`cluster
      ensures State() == old(State()).(cluster := TickNodes(p, old(cluster), p.nodes(old(cluster))))
    {
      var ids := p.nodes(cluster);
      for k := 0 to |ids|
        invariant cluster == TickNodes(p, old(cluster), ids[..k])
      {
        assert ids[..k + 1][..k] == ids[..k];
        cluster := p.tick(cluster, ids[k]);
      }
      assert ids[..|ids|] == ids;
    }

    method RootDue() returns (due: bool)
      requires Valid()
      ensures due <==> Due(State())
    {
      HeapHead(queue, order);
      due := |queue| > 0 && queue[0].at <= now;
    }

    method TakeRoot() returns (e: Event<M>)
      requires Valid() && |order| > 0
      modifies this`queue, this`order
      ensures Valid() && e == old(order)[0] && order == old(order)[1..]
    {
      HeapHead(queue, order);
      SortedTail(order);
      e := Pop();
      TailsAlike(old(queue), queue, order);
      order := order[1..];
    }

    method DeliverNext()
      requires Valid() && Due(State())
      modifies this
      ensures Valid() && State() == DeliverOne(p, old(State()))
    {
      hide CollectNodes, IsHeap, Sorted;
      var e := TakeRoot();
      trace := trace + [e];
      cluster := p.deliver(cluster, e.to, e.msg);
      Collect();
    }

    /** One step, cut off after `fuel` deliveries. */
    method Step(fuel: nat) returns (finished: bool)
      requires Valid()
      modifies this
      ensures Valid() && (State(), finished) == Schedule.Step(p, old(State()), fuel)
    {
      hide CollectNodes, DeliverOne, IsHeap, Sorted, Due;
      now := now + 1;
      TickAll();
      Collect();
      ghost var start := State();
      var left := fuel;
      var due := RootDue();
      while due
        invariant Valid() && DeliverDue(p, State(), left) == DeliverDue(p, start, fuel)
        invariant due <==> Due(State())
        decreases left
      {
        if left == 0 { return false; }
        DeliverNext();
        left := left - 1;
        due := RootDue();
      }
      finished := true;
    }

    /** Isolate: drop the node's events, then rebuild the heap bottom-up. */
    method Isolate(node: nat) returns (dropped: nat)
      requires Valid()
      modifies this
      ensures Valid() && State() == Schedule.Isolate(old(State()), node)
      ensures dropped == discarded - old(discarded)
    {
      hide Kept, IsHeap, Sorted;
      KeptAlike(queue, order, node);
      SameLength(queue, order);
      SameLength(Kept(queue, node), Kept(order, node));
      KeptSorted(order, node);
      var kept, gone := Filter(queue, node);
      queue := kept;
      dropped := gone;
      order := Kept(order, node);
      discarded := discarded + gone;
      Rebuild();
    }

    method Rebuild()
      modifies this`queue
      ensures IsHeap(queue) && multiset(queue) == multiset(old(queue))
    {
      var i := |queue| / 2;
      assert HeapFrom(queue, i);
      while i > 0
        invariant 0 <= i <= |queue| && HeapFrom(queue, i) && multiset(queue) == multiset(old(queue))
      {
        i := i - 1;
        SiftDown(i);
      }
    }
  }

  // ------------------------------------------------------------ the simulator

  class Simulator<C(!new), M(!new), R(!new)> {
    const p: Params<C, M, R>
    var now: nat
    var cluster: C
    var rng: R
    var seqno: nat
    var queue: seq<Event<M>>
    var trace: seq<Event<M>>
    ghost var order: seq<Event<M>>
    ghost var discarded: nat
    ghost var fates: seq<Fate>

    ghost function State(): State<C, M, R>
      reads this
    {
      Schedule.State(now, cluster, rng, seqno, order, trace, discarded, map[], fates)
    }

    /** The unsorted list holds the schedule's events; the simulator knows no injectors. */
    ghost predicate Valid()
      reads this
    {
      p.injectors == [] && multiset(queue) == multiset(order) && Sorted(order)
      && forall x :: x in order ==> x.seqno <= seqno
    }

    constructor (p: Params<C, M, R>, cluster: C, rng: R)
      requires p.injectors == []
      ensures Valid() && this.p == p && State() == Initial(cluster, rng)
    {
      this.p, now, this.cluster, this.rng, seqno := p, 0, cluster, rng, 0;
      queue, trace, order, discarded, fates := [], [], [], 0, [];
    }

    method Enqueue(m: M)
      requires Valid()
      modifies this
      ensures Valid() && State() == CollectMessage(p, old(State()), m)
    {
      hide Draw, Insert, Sorted;
      var fate, next := DrawFate(p, rng);
      rng, fates := next, fates + [fate];
      if fate.Lost? { return; }
      var (from, to) := p.route(m);
      Add(Event(now + fate.units, seqno + 1, from, to, m));
    }

    method Add(e: Event<M>)
      requires Valid() && e.seqno == seqno + 1
      modifies this`queue, this`seqno, this`order
      ensures Valid() && seqno == e.seqno && order == Insert(old(order), e)
    {
      InsertSorts(order, e);
      InsertAdds(order, e);
      forall x | x in Insert(order, e) ensures x.seqno <= seqno + 1 { InsertMember(order, e, x); }
      seqno := seqno + 1;
      queue := queue + [e];
      order := Insert(order, e);
    }

    method Collect()
      requires Valid()
      modifies this
      ensures Valid() && State() == Schedule.Collect(p, old(State()))
    {
      hide CollectMessage;
      var ids := p.nodes(cluster);
      for k := 0 to |ids|
        invariant Valid() && State() == CollectNodes(p, old(State()), ids[..k])
      {
        assert ids[..k + 1][..k] == ids[..k];
        var (c, ms) := p.drain(cluster, ids[k]);
        cluster := c;
        ghost var start := State();
        for j := 0 to |ms|
          invariant Valid() && State() == CollectMessages(p, start, ms[..j])
        {
          assert ms[..j + 1][..j] == ms[..j];
          Enqueue(ms[j]);
        }
        assert ms[..|ms|] == ms;
      }
      assert ids[..|ids|] == ids;
    }

    /** nextReady: the scan for the earliest due event. */
    method NextReady() returns (best: int)
      ensures -1 <= best < |queue|
      ensures best == -1 ==> forall j :: 0 <= j < |queue| ==> queue[j].at > now
      ensures best >= 0 ==> queue[best].at <= now
                            && forall j :: 0 <= j < |queue| ==> queue[j].at > now || !Earlier(queue[j], queue[best])
    {
      best := -1;
      for i := 0 to |queue|
        invariant -1 <= best < i
        invariant best == -1 ==> forall j :: 0 <= j < i ==> queue[j].at > now
        invariant best >= 0 ==> queue[best].at <= now
                                && forall j :: 0 <= j < i ==> queue[j].at > now || !Earlier(queue[j], queue[best])
      {
        if queue[i].at > now { continue; }
        if best < 0 || queue[i].at < queue[best].at
           || (queue[i].at == queue[best].at && queue[i].seqno < queue[best].seqno) {
          best := i;
        }
      }
    }

    method DeliverAt(best: nat)
      requires Valid() && best < |queue| && Due(State()) && queue[best] == order[0]
      modifies this
      ensures Valid() && State() == DeliverOne(p, old(State()))
    {
      hide CollectNodes, Sorted;
      SortedTail(order);
      var e := queue[best];
      RemovedBag(queue, best);
      TailsAlike(queue, queue[..best] + queue[best + 1..], order);
      queue := queue[..best] + queue[best + 1..];
      order := order[1..];
      trace := trace + [e];
      cluster := p.deliver(cluster, e.to, e.msg);
      Collect();
    }

    method TickAll()
      requires Valid()
      modifies this`cluster
      ensures State() == old(State()).(cluster := TickNodes(p, old(cluster), p.nodes(old(cluster))))
    {
      var ids := p.nodes(cluster);
      for k := 0 to |ids|
        invariant cluster == TickNodes(p, old(cluster), ids[..k])
      {
        assert ids[..k + 1][..k] == ids[..k];
        cluster := p.tick(cluster, ids[k]);
      }
      assert ids[..|ids|] == ids;
    }

    method Step(fuel: nat) returns (finished: bool)
      requires Valid()
      modifies this
      ensures Valid() && (State(), finished) == Schedule.Step(p, old(State()), fuel)
    {
      hide CollectNodes, DeliverOne, Sorted, Due;
      now := now + 1;
      TickAll();
      Collect();
      ghost var start := State();
      var left := fuel;
      while true
        invariant Valid() && DeliverDue(p, State(), left) == DeliverDue(p, start, fuel)
        decreases left
      {
        var best := NextReady();
        ScanFindsHead(queue, order, now, best);
        assert best >= 0 <==> Due(State()) by { DueMeans(State()); }
        if best < 0 { return true; }
        if left == 0 { return false; }
        DeliverAt(best);
        left := left - 1;
      }
    }

    method Isolate(node: nat)
      requires Valid()
      modifies this
      ensures Valid() && State() == Schedule.Isolate(old(State()), node)
    {
      hide Kept, Sorted;
      KeptAlike(queue, order, node);
      SameLength(queue, order);
      SameLength(Kept(queue, node), Kept(order, node));
      KeptSorted(order, node);
      var kept, gone := Filter(queue, node);
      queue := kept;
      order := Kept(order, node);
      discarded := discarded + gone;
    }
  }

  lemma DueMeans<C, M, R>(s: State<C, M, R>)
    ensures Due(s) <==> |s.queue| > 0 && s.queue[0].at <= s.now
  {
  }

  /** The scan finds something exactly when the head is due, and then it finds the head. */
  lemma ScanFindsHead<M>(q: seq<Event<M>>, order: seq<Event<M>>, now: nat, best: int)
    requires Sorted(order) && multiset(q) == multiset(order) && -1 <= best < |q|
    requires best == -1 ==> forall j :: 0 <= j < |q| ==> q[j].at > now
    requires best >= 0 ==> q[best].at <= now
                           && forall j :: 0 <= j < |q| ==> q[j].at > now || !Earlier(q[j], q[best])
    ensures best >= 0 <==> |order| > 0 && order[0].at <= now
    ensures best >= 0 ==> q[best] == order[0]
  {
    if best >= 0 {
      FirstIsHead(q, order, best);
    } else if |order| > 0 {
      assert order[0] in multiset(order);
      assert order[0] in q;
    }
  }

  lemma RemovedBag<M>(q: seq<Event<M>>, i: nat)
    requires i < |q|
    ensures multiset(q[..i] + q[i + 1..]) == multiset(q) - multiset{q[i]}
  {
    assert q == q[..i] + [q[i]] + q[i + 1..];
  }

  // ------------------------------------------------------------ the refinement

  /**
   The heap engine refines the linear-scan simulator: driven by the same commands over the
   same protocol and random source, without injectors, the two stay in the same state, and so
   do their deliveries, counters, random states and pending events.
   */
  method Lockstep<C(!new), M(!new), R(!new)>(e: HeapEngine<C, M, R>, s: Simulator<C, M, R>, cs: seq<Command<C>>)
    requires e.Valid() && s.Valid() && e.p == s.p && e.State() == s.State()
    modifies e, s
    ensures e.Valid() && s.Valid() && e.State() == s.State()
    ensures e.trace == s.trace && e.cluster == s.cluster && e.seqno == s.seqno && e.rng == s.rng && e.now == s.now
    ensures multiset(e.queue) == multiset(s.queue)
    ensures old(e.State()) == Initial(old(e.cluster), old(e.rng)) ==>
              e.State() == Run(e.p, old(e.cluster), old(e.rng), cs)
  {
    hide Schedule.Step, Schedule.Collect, Schedule.Isolate, IsHeap, Sorted;
    ghost var blank, c, r := e.State() == Initial(e.cluster, e.rng), e.cluster, e.rng;
    for k := 0 to |cs|
      invariant e.Valid() && s.Valid() && e.State() == s.State()
      invariant blank ==> e.State() == Run(e.p, c, r, cs[..k])
    {
      assert cs[..k + 1][..k] == cs[..k];
      match cs[k]
      case StepCmd(fuel) =>
        var a := e.Step(fuel);
        var b := s.Step(fuel);
      case IsolateCmd(node) =>
        var dropped := e.Isolate(node);
        s.Isolate(node);
      case DriveCmd(change) =>
        e.cluster := change(e.cluster);
        e.Collect();
        s.cluster := change(s.cluster);
        s.Collect();
    }
    assert cs[..|cs|] == cs;
  }

  lemma PoppedBag<M>(q: seq<Event<M>>, r: seq<Event<M>>)
    requires |q| > 0 && r == q[0 := q[|q| - 1]][..|q| - 1]
    ensures multiset(r) == multiset(q) - multiset{q[0]}
  {
    var n := |q| - 1;
    assert q == q[..n] + [q[n]];
    if n > 0 {
      assert q == [q[0]] + q[1..n] + [q[n]];
      assert r == [q[n]] + q[1..n];
    }
  }

  lemma PoppedHeap<M>(q: seq<Event<M>>, r: seq<Event<M>>)
    requires IsHeap(q) && |q| > 0 && r == q[0 := q[|q| - 1]][..|q| - 1]
    ensures HeapFrom(r, 1)
  {
    forall j | 0 < j < |r| && Parent(j) >= 1 ensures InOrder(r, j) {
      assert InOrder(q, j);
    }
  }
}
