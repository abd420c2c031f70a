/**
 What the deterministic scheduler means, over values: the schedule is a list sorted by due
 time and then by sequence number, and a step delivers its head while the head is due.
 Both the heap engine (dst/engine.go) and the linear-scan simulator (sim/sim.go) are proved
 to do exactly this; the properties of whole runs are proved here once.
 */
module Schedule {

  datatype Injector = Injector(name: string, allow: (nat, nat, nat, nat) -> bool)

  /** The protocol, the random source and the fault configuration of one run. */
  datatype Params<!C, !M, !R> = Params(
    nodes: C -> seq<nat>,
    tick: (C, nat) -> C,
    deliver: (C, nat, M) -> C,
    drain: (C, nat) -> (C, seq<M>),
    route: M -> (nat, nat),
    intn: (R, nat) -> (nat, R),
    int63n: (R, nat) -> (nat, R),
    drop: int,
    delay: nat,
    injectors: seq<Injector>)

  datatype Event<M> = Event(at: nat, seqno: nat, from: nat, to: nat, msg: M)

  /** What chance decided for one drained message. */
  datatype Fate = Lost | Delayed(units: nat)

  datatype State<C, M, R> = State(
    now: nat,
    cluster: C,
    rng: R,
    seqno: nat,
    queue: seq<Event<M>>,
    trace: seq<Event<M>>,
    discarded: nat,
    injected: map<string, nat>,
    fates: seq<Fate>)

  // ------------------------------------------------------------ order

  predicate Earlier<M>(a: Event<M>, b: Event<M>) {
    a.at < b.at || (a.at == b.at && a.seqno < b.seqno)
  }

  predicate Sorted<M>(q: seq<Event<M>>) {
    forall i, j :: 0 <= i < j < |q| ==> Earlier(q[i], q[j])
  }

  function Insert<M>(q: seq<Event<M>>, e: Event<M>): seq<Event<M>> {
    if q == [] || Earlier(e, q[0]) then [e] + q else [q[0]] + Insert(q[1..], e)
  }

  /** Inserting adds exactly the event. */
  lemma {:induction false} InsertAdds<M>(q: seq<Event<M>>, e: Event<M>)
    ensures multiset(Insert(q, e)) == multiset(q) + multiset{e}
    ensures |Insert(q, e)| == |q| + 1
  {
    if q != [] {
      assert q == [q[0]] + q[1..];
      if !Earlier(e, q[0]) { InsertAdds(q[1..], e); }
    }
  }

  lemma InsertMember<M>(q: seq<Event<M>>, e: Event<M>, x: Event<M>)
    ensures x in Insert(q, e) <==> x in q || x == e
  {
    InsertAdds(q, e);
    assert x in Insert(q, e) <==> x in multiset(Insert(q, e));
    assert x in q <==> x in multiset(q);
  }

  /** Inserting an event with a new sequence number keeps the order. */
  lemma {:induction false} InsertSorts<M>(q: seq<Event<M>>, e: Event<M>)
    requires Sorted(q) && forall x :: x in q ==> x.seqno != e.seqno
    ensures Sorted(Insert(q, e))
  {
    if q != [] {
      assert q[0] in q;
      if Earlier(e, q[0]) {
        forall i | 0 <= i < |q| ensures Earlier(e, q[i]) {
          assert i > 0 ==> Earlier(q[0], q[i]);
        }
      } else {
        var rest := q[1..];
        assert forall x :: x in rest ==> x in q;
        InsertSorts(rest, e);
        var r := Insert(rest, e);
        forall i | 0 <= i < |r| ensures Earlier(q[0], r[i]) {
          InsertMember(rest, e, r[i]);
          if r[i] in rest {
            var j :| 0 <= j < |rest| && rest[j] == r[i];
            assert q[j + 1] == r[i];
          }
        }
      }
    }
  }

  // ------------------------------------------------------------ collecting

  /** The two draws for one message: loss first, and a delay only for a message not lost. */
  function Draw<C, M, R>(p: Params<C, M, R>, r: R): (Fate, R) {
    var (lost, r1) := if p.drop > 0 then (var (v, r') := p.intn(r, 1000); (v < p.drop, r')) else (false, r);
    if lost then (Lost, r1)
    else if p.delay > 0 then (var (v, r2) := p.int63n(r1, p.delay + 1); (Delayed(v), r2))
    else (Delayed(0), r1)
  }

  /** The name of the first injector that denies the message; the empty name means none did. */
  function BlockedBy(injectors: seq<Injector>, now: nat, from: nat, to: nat, delay: nat): string {
    if injectors == [] then ""
    else if !injectors[0].allow(now, from, to, delay) then injectors[0].name
    else BlockedBy(injectors[1..], now, from, to, delay)
  }

  function Count(m: map<string, nat>, name: string): nat {
    if name in m then m[name] else 0
  }

  function CollectMessage<C, M, R>(p: Params<C, M, R>, s: State<C, M, R>, m: M): State<C, M, R> {
    var (fate, rng) := Draw(p, s.rng);
    var s1 := s.(rng := rng, fates := s.fates + [fate]);
    if fate.Lost? then s1
    else
      var (from, to) := p.route(m);
      var blocked := BlockedBy(p.injectors, s.now, from, to, fate.units);
      if blocked != "" then s1.(injected := s.injected[blocked := Count(s.injected, blocked) + 1])
      else s1.(seqno := s.seqno + 1, queue := Insert(s.queue, Event(s.now + fate.units, s.seqno + 1, from, to, m)))
  }

  function CollectMessages<C, M, R>(p: Params<C, M, R>, s: State<C, M, R>, ms: seq<M>): State<C, M, R> {
    if ms == [] then s
    else CollectMessage(p, CollectMessages(p, s, ms[..|ms| - 1]), ms[|ms| - 1])
  }

  function CollectNodes<C, M, R>(p: Params<C, M, R>, s: State<C, M, R>, ids: seq<nat>): State<C, M, R> {
    if ids == [] then s
    else
      var s1 := CollectNodes(p, s, ids[..|ids| - 1]);
      var (cluster, ms) := p.drain(s1.cluster, ids[|ids| - 1]);
      CollectMessages(p, s1.(cluster := cluster), ms)
  }

  function Collect<C, M, R>(p: Params<C, M, R>, s: State<C, M, R>): State<C, M, R> {
    CollectNodes(p, s, p.nodes(s.cluster))
  }

  // ------------------------------------------------------------ stepping

  function TickNodes<C, M, R>(p: Params<C, M, R>, c: C, ids: seq<nat>): C {
    if ids == [] then c else p.tick(TickNodes(p, c, ids[..|ids| - 1]), ids[|ids| - 1])
  }

  predicate Due<C, M, R>(s: State<C, M, R>) {
    |s.queue| > 0 && s.queue[0].at <= s.now
  }

  function DeliverOne<C, M, R>(p: Params<C, M, R>, s: State<C, M, R>): State<C, M, R>
    requires Due(s)
  {
    var e := s.queue[0];
    Collect(p, s.(queue := s.queue[1..], trace := s.trace + [e], cluster := p.deliver(s.cluster, e.to, e.msg)))
  }

  /** At most `fuel` deliveries; the second part says whether nothing was left due. */
  function DeliverDue<C, M, R>(p: Params<C, M, R>, s: State<C, M, R>, fuel: nat): (State<C, M, R>, bool)
    decreases fuel
  {
    if !Due(s) then (s, true)
    else if fuel == 0 then (s, false)
    else DeliverDue(p, DeliverOne(p, s), fuel - 1)
  }

  /** Time advances, every node ticks, the sends are collected. */
  function Begin<C, M, R>(p: Params<C, M, R>, s: State<C, M, R>): State<C, M, R> {
    Collect(p, s.(now := s.now + 1, cluster := TickNodes(p, s.cluster, p.nodes(s.cluster))))
  }

  function Step<C, M, R>(p: Params<C, M, R>, s: State<C, M, R>, fuel: nat): (State<C, M, R>, bool) {
    DeliverDue(p, Begin(p, s), fuel)
  }

  /** The events neither from nor to the node, in their order. */
  function Kept<M>(q: seq<Event<M>>, node: nat): (k: seq<Event<M>>)
    ensures |k| <= |q|
  {
    if q == [] then []
    else
      var k := Kept(q[..|q| - 1], node);
      var e := q[|q| - 1];
      if e.from == node || e.to == node then k else k + [e]
  }

  function Isolate<C, M, R>(s: State<C, M, R>, node: nat): State<C, M, R> {
    var k := Kept(s.queue, node);
    s.(queue := k, discarded := s.discarded + |s.queue| - |k|)
  }

  /** Isolation removes exactly the node's events. */
  lemma {:induction false} KeptMeans<M>(q: seq<Event<M>>, node: nat, e: Event<M>)
    ensures multiset(Kept(q, node))[e] == if e.from == node || e.to == node then 0 else multiset(q)[e]
  {
    if q != [] {
      KeptMeans(q[..|q| - 1], node, e);
      assert q == q[..|q| - 1] + [q[|q| - 1]];
    }
  }
}
