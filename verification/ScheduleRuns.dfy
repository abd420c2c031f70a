/**
 Whole runs of the scheduler: delivery order, conservation of messages, independence of the
 random draws from the faults, and neutrality of injectors that allow everything.
 */
module ScheduleRuns {
  import opened Schedule

  /** What a driver can ask for; `change` is anything it does to the cluster out of band. */
  datatype Command<!C> = StepCmd(fuel: nat) | IsolateCmd(node: nat) | DriveCmd(change: C -> C)

  function Apply<C, M, R>(p: Params<C, M, R>, s: State<C, M, R>, c: Command<C>): State<C, M, R> {
    match c
    case StepCmd(fuel) => Step(p, s, fuel).0
    case IsolateCmd(node) => Isolate(s, node)
    case DriveCmd(change) => Collect(p, s.(cluster := change(s.cluster)))
  }

  function Initial<C, M, R>(cluster: C, rng: R): State<C, M, R> {
    State(0, cluster, rng, 0, [], [], 0, map[], [])
  }

  function Run<C, M, R>(p: Params<C, M, R>, cluster: C, rng: R, cs: seq<Command<C>>): State<C, M, R> {
    if cs == [] then Initial(cluster, rng) else Apply(p, Run(p, cluster, rng, cs[..|cs| - 1]), cs[|cs| - 1])
  }

  // ------------------------------------------------------------ order and conservation

  /**
   The schedule is in order and numbered within what was scheduled; the deliveries so far
   are in order, all before anything still pending; nothing scheduled is unaccounted for.
   */
  ghost predicate Ok<C, M, R>(s: State<C, M, R>) {
    Sorted(s.queue) && Sorted(s.trace)
    && (forall x :: x in s.queue ==> x.seqno <= s.seqno)
    && (forall x :: x in s.trace ==> x.at <= s.now && x.seqno <= s.seqno)
    && (forall x, y :: x in s.trace && y in s.queue ==> Earlier(x, y))
    && s.seqno == |s.trace| + |s.queue| + s.discarded
  }

  lemma CollectMessageOk<C, M, R>(p: Params<C, M, R>, s: State<C, M, R>, m: M)
    requires Ok(s)
    ensures Ok(CollectMessage(p, s, m)) && CollectMessage(p, s, m).now == s.now
  {
    var (fate, rng) := Draw(p, s.rng);
    if fate.Delayed? {
      var (from, to) := p.route(m);
      ScheduleOk(s, Event(s.now + fate.units, s.seqno + 1, from, to, m), rng, s.fates + [fate]);
    }
  }

  lemma ScheduleOk<C, M, R>(s: State<C, M, R>, e: Event<M>, rng: R, fates: seq<Fate>)
    requires Ok(s) && e.at >= s.now && e.seqno == s.seqno + 1
    ensures Ok(s.(rng := rng, fates := fates, seqno := e.seqno, queue := Insert(s.queue, e)))
  {
    InsertSorts(s.queue, e);
    InsertAdds(s.queue, e);
    forall x | x in Insert(s.queue, e) ensures x in s.queue || x == e { InsertMember(s.queue, e, x); }
  }

  lemma {:induction false} CollectMessagesOk<C, M, R>(p: Params<C, M, R>, s: State<C, M, R>, ms: seq<M>)
    requires Ok(s)
    ensures Ok(CollectMessages(p, s, ms)) && CollectMessages(p, s, ms).now == s.now
  {
    hide Ok;
    if ms != [] {
      CollectMessagesOk(p, s, ms[..|ms| - 1]);
      CollectMessageOk(p, CollectMessages(p, s, ms[..|ms| - 1]), ms[|ms| - 1]);
    }
  }

  lemma OkIgnoresCluster<C, M, R>(s: State<C, M, R>, cluster: C)
    requires Ok(s)
    ensures Ok(s.(cluster := cluster))
  {
  }

  lemma {:induction false} CollectNodesOk<C, M, R>(p: Params<C, M, R>, s: State<C, M, R>, ids: seq<nat>)
    requires Ok(s)
    ensures Ok(CollectNodes(p, s, ids)) && CollectNodes(p, s, ids).now == s.now
  {
    hide Ok;
    if ids != [] {
      CollectNodesOk(p, s, ids[..|ids| - 1]);
      var s1 := CollectNodes(p, s, ids[..|ids| - 1]);
      var (cluster, ms) := p.drain(s1.cluster, ids[|ids| - 1]);
      OkIgnoresCluster(s1, cluster);
      CollectMessagesOk(p, s1.(cluster := cluster), ms);
    }
  }

  lemma DeliverOneOk<C, M, R>(p: Params<C, M, R>, s: State<C, M, R>)
    requires Ok(s) && Due(s)
    ensures Ok(DeliverOne(p, s)) && DeliverOne(p, s).now == s.now
  {
    hide Collect, CollectNodes;
    var e := s.queue[0];
    var s1 := s.(queue := s.queue[1..], trace := s.trace + [e], cluster := p.deliver(s.cluster, e.to, e.msg));
    assert e in s.queue;
    forall x, y | x in s1.trace && y in s1.queue ensures Earlier(x, y) {
      assert y in s.queue;
      if x !in s.trace {
        var j :| 0 <= j < |s1.queue| && s1.queue[j] == y;
        assert s.queue[j + 1] == y;
      }
    }
    assert Ok(s1);
    CollectOk(p, s1);
  }

  lemma CollectOk<C, M, R>(p: Params<C, M, R>, s: State<C, M, R>)
    requires Ok(s)
    ensures Ok(Collect(p, s)) && Collect(p, s).now == s.now
  {
    CollectNodesOk(p, s, p.nodes(s.cluster));
  }

  lemma {:induction false} DeliverDueOk<C, M, R>(p: Params<C, M, R>, s: State<C, M, R>, fuel: nat)
    requires Ok(s)
    ensures Ok(DeliverDue(p, s, fuel).0) && DeliverDue(p, s, fuel).0.now == s.now
    decreases fuel
  {
    hide Ok, DeliverOne;
    if Due(s) && fuel > 0 {
      DeliverOneOk(p, s);
      DeliverDueOk(p, DeliverOne(p, s), fuel - 1);
    }
  }

  lemma StepOk<C, M, R>(p: Params<C, M, R>, s: State<C, M, R>, fuel: nat)
    requires Ok(s)
    ensures Ok(Step(p, s, fuel).0)
  {
    hide Collect, DeliverDue;
    var s1 := s.(now := s.now + 1, cluster := TickNodes(p, s.cluster, p.nodes(s.cluster)));
    assert Ok(s1);
    CollectOk(p, s1);
    DeliverDueOk(p, Begin(p, s), fuel);
  }

  lemma {:induction false} KeptSorted<M>(q: seq<Event<M>>, node: nat)
    requires Sorted(q)
    ensures Sorted(Kept(q, node)) && forall x :: x in Kept(q, node) ==> x in q
  {
    if q != [] {
      var n := |q| - 1;
      KeptSorted(q[..n], node);
      var k := Kept(q[..n], node);
      forall i | 0 <= i < |k| ensures Earlier(k[i], q[n]) {
        assert k[i] in k;
        var j :| 0 <= j < n && q[..n][j] == k[i];
        assert q[j] == k[i];
      }
    }
  }

  lemma IsolateOk<C, M, R>(s: State<C, M, R>, node: nat)
    requires Ok(s)
    ensures Ok(Isolate(s, node))
  {
    KeptSorted(s.queue, node);
  }

  /** Every run, of any protocol, with any faults and isolations. */
  lemma {:induction false} RunOk<C, M, R>(p: Params<C, M, R>, cluster: C, rng: R, cs: seq<Command<C>>)
    ensures Ok(Run(p, cluster, rng, cs))
  {
    hide Ok, Step, Isolate, Collect;
    if cs == [] {
      InitialOk<C, M, R>(cluster, rng);
    } else {
      var before := Run(p, cluster, rng, cs[..|cs| - 1]);
      RunOk(p, cluster, rng, cs[..|cs| - 1]);
      match cs[|cs| - 1]
      case StepCmd(fuel) => StepOk(p, before, fuel);
      case IsolateCmd(node) => IsolateOk(before, node);
      case DriveCmd(change) =>
        OkIgnoresCluster(before, change(before.cluster));
        CollectOk(p, before.(cluster := change(before.cluster)));
    }
  }

  lemma InitialOk<C, M, R>(cluster: C, rng: R)
    ensures Ok(Initial<C, M, R>(cluster, rng))
  {
  }

  /** Deliveries strictly increase in (at, seqno) over a whole run. */
  lemma DeliveriesIncrease<C, M, R>(p: Params<C, M, R>, cluster: C, rng: R, cs: seq<Command<C>>, i: nat, j: nat)
    requires i < j < |Run(p, cluster, rng, cs).trace|
    ensures Earlier(Run(p, cluster, rng, cs).trace[i], Run(p, cluster, rng, cs).trace[j])
  {
    hide Run;
    RunOk(p, cluster, rng, cs);
  }

  /** Everything scheduled was delivered, is pending, or was discarded by an isolation. */
  lemma Conservation<C, M, R>(p: Params<C, M, R>, cluster: C, rng: R, cs: seq<Command<C>>)
    ensures var s := Run(p, cluster, rng, cs);
            s.seqno == |s.trace| + |s.queue| + s.discarded
  {
    hide Run;
    RunOk(p, cluster, rng, cs);
  }

  lemma {:induction false} FinishedMeans<C, M, R>(p: Params<C, M, R>, s: State<C, M, R>, fuel: nat)
    ensures DeliverDue(p, s, fuel).1 <==> !Due(DeliverDue(p, s, fuel).0)
    decreases fuel
  {
    hide DeliverOne;
    if Due(s) && fuel > 0 { FinishedMeans(p, DeliverOne(p, s), fuel - 1); }
  }

  /** After a step that finished, nothing pending is due. */
  lemma NothingDueAfterStep<C, M, R>(p: Params<C, M, R>, cluster: C, rng: R, cs: seq<Command<C>>, fuel: nat)
    requires Step(p, Run(p, cluster, rng, cs), fuel).1
    ensures var s := Step(p, Run(p, cluster, rng, cs), fuel).0;
            forall x :: x in s.queue ==> x.at > s.now
  {
    hide Run, Begin;
    var before := Run(p, cluster, rng, cs);
    RunOk(p, cluster, rng, cs);
    StepOk(p, before, fuel);
    FinishedMeans(p, Begin(p, before), fuel);
    var s := Step(p, before, fuel).0;
    forall x | x in s.queue ensures x.at > s.now {
      var j :| 0 <= j < |s.queue| && s.queue[j] == x;
      assert j > 0 ==> Earlier(s.queue[0], s.queue[j]);
    }
  }

  /** A step that finishes within some fuel is the same step with any more. */
  lemma {:induction false} MoreFuelChangesNothing<C, M, R>(p: Params<C, M, R>, s: State<C, M, R>, fuel: nat, more: nat)
    requires DeliverDue(p, s, fuel).1 && fuel <= more
    ensures DeliverDue(p, s, more) == DeliverDue(p, s, fuel)
    decreases fuel
  {
    hide DeliverOne;
    if Due(s) && fuel > 0 { MoreFuelChangesNothing(p, DeliverOne(p, s), fuel - 1, more - 1); }
  }

  // ------------------------------------------------------------ the draws

  /** The random state after `k` drained messages, and the fate of the next one. */
  function RngAfter<C, M, R>(p: Params<C, M, R>, seed: R, k: nat): R {
    if k == 0 then seed else Draw(p, RngAfter(p, seed, k - 1)).1
  }

  function FateOf<C, M, R>(p: Params<C, M, R>, seed: R, k: nat): Fate {
    Draw(p, RngAfter(p, seed, k)).0
  }

  /** So far every message met the fate its position in the drained sequence dictates. */
  ghost predicate Drawn<C, M, R>(p: Params<C, M, R>, seed: R, s: State<C, M, R>) {
    s.rng == RngAfter(p, seed, |s.fates|) && forall k :: 0 <= k < |s.fates| ==> s.fates[k] == FateOf(p, seed, k)
  }

  lemma CollectMessageDrawn<C, M, R>(p: Params<C, M, R>, seed: R, s: State<C, M, R>, m: M)
    requires Drawn(p, seed, s)
    ensures Drawn(p, seed, CollectMessage(p, s, m))
  {
    hide Draw, BlockedBy, Insert;
    var n, s' := |s.fates|, CollectMessage(p, s, m);
    assert s'.fates == s.fates + [FateOf(p, seed, n)];
    assert s'.rng == Draw(p, RngAfter(p, seed, n)).1 == RngAfter(p, seed, n + 1);
  }

  lemma {:induction false} CollectMessagesDrawn<C, M, R>(p: Params<C, M, R>, seed: R, s: State<C, M, R>, ms: seq<M>)
    requires Drawn(p, seed, s)
    ensures Drawn(p, seed, CollectMessages(p, s, ms))
  {
    hide Drawn;
    if ms != [] {
      CollectMessagesDrawn(p, seed, s, ms[..|ms| - 1]);
      CollectMessageDrawn(p, seed, CollectMessages(p, s, ms[..|ms| - 1]), ms[|ms| - 1]);
    }
  }

  lemma {:induction false} CollectNodesDrawn<C, M, R>(p: Params<C, M, R>, seed: R, s: State<C, M, R>, ids: seq<nat>)
    requires Drawn(p, seed, s)
    ensures Drawn(p, seed, CollectNodes(p, s, ids))
  {
    if ids != [] {
      CollectNodesDrawn(p, seed, s, ids[..|ids| - 1]);
      var s1 := CollectNodes(p, s, ids[..|ids| - 1]);
      var (cluster, ms) := p.drain(s1.cluster, ids[|ids| - 1]);
      CollectMessagesDrawn(p, seed, s1.(cluster := cluster), ms);
    }
  }

  lemma {:induction false} DeliverDueDrawn<C, M, R>(p: Params<C, M, R>, seed: R, s: State<C, M, R>, fuel: nat)
    requires Drawn(p, seed, s)
    ensures Drawn(p, seed, DeliverDue(p, s, fuel).0)
    decreases fuel
  {
    if Due(s) && fuel > 0 {
      var e := s.queue[0];
      var s1 := s.(queue := s.queue[1..], trace := s.trace + [e], cluster := p.deliver(s.cluster, e.to, e.msg));
      CollectNodesDrawn(p, seed, s1, p.nodes(s1.cluster));
      DeliverDueDrawn(p, seed, DeliverOne(p, s), fuel - 1);
    }
  }

  lemma ApplyDrawn<C, M, R>(p: Params<C, M, R>, seed: R, s: State<C, M, R>, c: Command<C>)
    requires Drawn(p, seed, s)
    ensures Drawn(p, seed, Apply(p, s, c))
  {
    hide CollectNodes, DeliverDue;
    match c
    case StepCmd(fuel) =>
      var s1 := s.(now := s.now + 1, cluster := TickNodes(p, s.cluster, p.nodes(s.cluster)));
      CollectNodesDrawn(p, seed, s1, p.nodes(s1.cluster));
      DeliverDueDrawn(p, seed, Begin(p, s), fuel);
    case IsolateCmd(node) =>
    case DriveCmd(change) =>
      var s1 := s.(cluster := change(s.cluster));
      CollectNodesDrawn(p, seed, s1, p.nodes(s1.cluster));
  }

  lemma {:induction false} RunDrawn<C, M, R>(p: Params<C, M, R>, cluster: C, seed: R, cs: seq<Command<C>>)
    ensures Drawn(p, seed, Run(p, cluster, seed, cs))
  {
    hide Apply;
    if cs != [] {
      RunDrawn(p, cluster, seed, cs[..|cs| - 1]);
      ApplyDrawn(p, seed, Run(p, cluster, seed, cs[..|cs| - 1]), cs[|cs| - 1]);
    }
  }

  ghost predicate SameChance<C, M, D, N, R>(p: Params<C, M, R>, q: Params<D, N, R>) {
    p.drop == q.drop && p.delay == q.delay && p.intn == q.intn && p.int63n == q.int63n
  }

  lemma {:induction false} SameRng<C, M, D, N, R>(p: Params<C, M, R>, q: Params<D, N, R>, seed: R, k: nat)
    requires SameChance(p, q)
    ensures RngAfter(p, seed, k) == RngAfter(q, seed, k) && FateOf(p, seed, k) == FateOf(q, seed, k)
  {
    if k > 0 { SameRng(p, q, seed, k - 1); }
  }

  /**
   Loss and delay of the k-th drained message depend only on the seed, the drop rate, the
   delay bound and k: two runs of different protocols, with different injectors and different
   commands, give their k-th messages the same fate.
   */
  lemma FaultsNeverShiftTheDraws<C, M, D, N, R>(p: Params<C, M, R>, c: C, cs: seq<Command<C>>,
                                                q: Params<D, N, R>, d: D, ds: seq<Command<D>>, seed: R, k: nat)
    requires SameChance(p, q)
    requires k < |Run(p, c, seed, cs).fates| && k < |Run(q, d, seed, ds).fates|
    ensures Run(p, c, seed, cs).fates[k] == Run(q, d, seed, ds).fates[k]
  {
    hide Run;
    RunDrawn(p, c, seed, cs);
    RunDrawn(q, d, seed, ds);
    SameRng(p, q, seed, k);
  }

  // ------------------------------------------------------------ injectors

  ghost predicate AllowAll(injectors: seq<Injector>) {
    forall i, now, from, to, delay :: 0 <= i < |injectors| ==> injectors[i].allow(now, from, to, delay)
  }

  lemma {:induction false} NobodyBlocks(injectors: seq<Injector>, now: nat, from: nat, to: nat, delay: nat)
    requires AllowAll(injectors)
    ensures BlockedBy(injectors, now, from, to, delay) == ""
  {
    if injectors != [] {
      assert injectors[0].allow(now, from, to, delay);
      NobodyBlocks(injectors[1..], now, from, to, delay);
    }
  }

  /** The first injector that denies decides, so a denial under an empty name does not block. */
  lemma {:induction false} FirstDenialDecides(injectors: seq<Injector>, i: nat, now: nat, from: nat, to: nat,
                                              delay: nat)
    requires i < |injectors| && !injectors[i].allow(now, from, to, delay)
    requires forall j :: 0 <= j < i ==> injectors[j].allow(now, from, to, delay)
    ensures BlockedBy(injectors, now, from, to, delay) == injectors[i].name
  {
    if i > 0 { FirstDenialDecides(injectors[1..], i - 1, now, from, to, delay); }
  }

  ghost function Bare<C, M, R>(p: Params<C, M, R>): Params<C, M, R> {
    p.(injectors := [])
  }

  lemma {:induction false} MessagesAlike<C, M, R>(p: Params<C, M, R>, s: State<C, M, R>, ms: seq<M>)
    requires AllowAll(p.injectors)
    ensures CollectMessages(p, s, ms) == CollectMessages(Bare(p), s, ms)
  {
    hide AllowAll, Insert;
    if ms != [] {
      MessagesAlike(p, s, ms[..|ms| - 1]);
      var s1 := CollectMessages(p, s, ms[..|ms| - 1]);
      var (fate, rng) := Draw(p, s1.rng);
      if fate.Delayed? {
        var (from, to) := p.route(ms[|ms| - 1]);
        NobodyBlocks(p.injectors, s1.now, from, to, fate.units);
      }
    }
  }

  lemma {:induction false} NodesAlike<C, M, R>(p: Params<C, M, R>, s: State<C, M, R>, ids: seq<nat>)
    requires AllowAll(p.injectors)
    ensures CollectNodes(p, s, ids) == CollectNodes(Bare(p), s, ids)
  {
    hide AllowAll, CollectMessages;
    if ids != [] {
      NodesAlike(p, s, ids[..|ids| - 1]);
      var s1 := CollectNodes(p, s, ids[..|ids| - 1]);
      var (cluster, ms) := p.drain(s1.cluster, ids[|ids| - 1]);
      MessagesAlike(p, s1.(cluster := cluster), ms);
    }
  }

  lemma {:induction false} TicksAlike<C, M, R>(p: Params<C, M, R>, c: C, ids: seq<nat>)
    ensures TickNodes(p, c, ids) == TickNodes(Bare(p), c, ids)
  {
    if ids != [] { TicksAlike(p, c, ids[..|ids| - 1]); }
  }

  lemma {:induction false} DeliveriesAlike<C, M, R>(p: Params<C, M, R>, s: State<C, M, R>, fuel: nat)
    requires AllowAll(p.injectors)
    ensures DeliverDue(p, s, fuel) == DeliverDue(Bare(p), s, fuel)
    decreases fuel
  {
    hide AllowAll, CollectNodes;
    if Due(s) && fuel > 0 {
      var e := s.queue[0];
      var s1 := s.(queue := s.queue[1..], trace := s.trace + [e], cluster := p.deliver(s.cluster, e.to, e.msg));
      NodesAlike(p, s1, p.nodes(s1.cluster));
      DeliveriesAlike(p, DeliverOne(p, s), fuel - 1);
    }
  }

  /** Injectors that allow everything leave the whole run identical. */
  lemma {:induction false} AllowingInjectorsChangeNothing<C, M, R>(
      p: Params<C, M, R>, cluster: C, rng: R, cs: seq<Command<C>>)
    requires AllowAll(p.injectors)
    ensures Run(p, cluster, rng, cs) == Run(Bare(p), cluster, rng, cs)
  {
    hide AllowAll, CollectNodes, DeliverDue;
    if cs != [] {
      AllowingInjectorsChangeNothing(p, cluster, rng, cs[..|cs| - 1]);
      var s := Run(p, cluster, rng, cs[..|cs| - 1]);
      match cs[|cs| - 1]
      case StepCmd(fuel) =>
        TicksAlike(p, s.cluster, p.nodes(s.cluster));
        var s1 := s.(now := s.now + 1, cluster := TickNodes(p, s.cluster, p.nodes(s.cluster)));
        NodesAlike(p, s1, p.nodes(s1.cluster));
        DeliveriesAlike(p, Begin(p, s), fuel);
      case IsolateCmd(node) =>
      case DriveCmd(change) =>
        var s1 := s.(cluster := change(s.cluster));
        NodesAlike(p, s1, p.nodes(s1.cluster));
    }
  }
}
