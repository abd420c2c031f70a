/**
 One step of a cluster that compacts its logs and installs snapshots. Beside it moves a cluster
 of whole logs: where a node installs a snapshot, its partner takes over the leader's committed
 prefix. Voters are fixed.
 */
module RaftCompaction {
  import opened Masks
  import opened RaftTypes
  import opened RaftDisk
  import opened RaftNode
  import opened RaftHistory
  import opened RaftExtend
  import opened RaftFixed
  import opened RaftSteps
  import opened RaftReplicate
  import opened RaftCluster
  import opened RaftBarrier
  import opened RaftSim
  import opened RaftInstall
  import opened RaftAdopt
  import D = RaftDurable

  // ------------------------------------------------------------ the cluster

  /** As before, but a node that has not stopped may compact, and snapshots are delivered. */
  ghost predicate Allowed(c: Cluster, i: NodeId, call: Call)
    requires i in c.nodes
  {
    match call
    case CallStep(m) => m in c.net && m.to == i
    case CallStartRead(context) => context !in c.contexts
    case CallCompact(_, _) => !c.nodes[i].faulted
    case CallProposeJoint(_) => false
    case CallProposeFinal => false
    case _ => true
  }

  ghost predicate Moves(c: Cluster, a: Action, c': Cluster) {
    && a.node in c.nodes
    && match a
       case Act(i, call, plan) =>
         var n := Perform(c.nodes[i], call, plan);
         Allowed(c, i, call)
         && c' == Cluster(c.nodes[i := n], c.net + Messages(n.outbound), c.contexts + ContextsOf(call))
       case Restart(i, timeout) =>
         var d := Open(c.nodes[i].disk);
         d.Ok? && c' == c.(nodes := c.nodes[i := Recover(i, c.nodes[i].peers, timeout, d.value)])
  }

  // ------------------------------------------------------------ the partner cluster

  predicate Offers(m: Message) {
    m.InstallSnapshot? && m.snapshot.oldVoters != 0
  }

  predicate Confirms(m: Message) {
    m.InstallSnapshotResponse? && !m.reject
  }

  /** What the whole cluster has instead: for a snapshot an empty Append at its index, and an ordinary answer to it. */
  function Shadow(m: Message): Message {
    if Offers(m) then
      Append(m.from, m.to, m.term, m.snapshot.lastIndex, m.snapshot.lastTerm, None, m.snapshot.lastIndex, 0)
    else if Confirms(m) then AppendResponse(m.from, m.to, m.term, false, m.matched, 0)
    else m
  }

  /** A snapshot names the voters. */
  ghost predicate NamesAll(h: History, m: Message) {
    Offers(m) ==> Ids(m.snapshot.oldVoters) == h.voters && m.snapshot.newVoters == 0
  }

  function Sent(n: Node): set<Message> {
    Messages(n.outbound)
  }

  function Shadows(n: Node): set<Message> {
    set q | q in n.outbound :: Shadow(q.msg)
  }

  ghost predicate Paired(net: set<Message>, n: Node, x: Node) {
    Like(net, n, x) && D.Sound(D.WHOLE, n) && Sent(n) <= net
  }

  ghost predicate Inv(c: Cluster, w: Cluster, h: History) {
    && ClusterOk(w, h)
    && c.nodes.Keys == w.nodes.Keys && c.contexts == w.contexts
    && (forall i :: i in c.nodes ==> Paired(c.net, c.nodes[i], w.nodes[i]))
    && (forall m :: m in c.net ==> Shadow(m) in w.net && NamesAll(h, m))
  }

  // ------------------------------------------------------------ what a step must show

  /** Every message that is new is accounted for. */
  ghost predicate Accounted(net: set<Message>, h: History, n: Node) {
    forall m :: m in Sent(n) && m !in net ==> MessageOk(h, Shadow(m)) && NamesAll(h, m)
  }

  lemma KnowsMore(net: set<Message>, n: Node, x: Node, more: set<Message>)
    requires Like(net, n, x)
    ensures Like(net + more, n, x)
  {
    hide Running, Stopped;
    forall q | q in n.outbound && q.msg !in net + more ensures exists p :: p in x.outbound && Mirrors(n, q.msg, p.msg) {
      assert q.msg !in net;
    }
  }

  /** One node moved, its partner moved, and nothing else did. */
  lemma OneMoved(c: Cluster, w: Cluster, h: History, h': History, i: NodeId, n: Node, x: Node, contexts: set<nat>)
    requires Inv(c, w, h) && i in c.nodes && Like(c.net + Sent(n), n, x) && D.Sound(D.WHOLE, n)
    requires Accounted(c.net, h', n) && h'.voters == h.voters
    requires var net := w.net + Sent(x);
             ClusterOk(Cluster(w.nodes[i := x], net, w.contexts + contexts), h')
    ensures var c' := Cluster(c.nodes[i := n], c.net + Sent(n), c.contexts + contexts);
            Inv(c', Cluster(w.nodes[i := x], w.net + Sent(x) + Shadows(n), w.contexts + contexts), h')
  {
    hide Like, D.Sound, NodeOk, HistOk, MessageOk;
    var c' := Cluster(c.nodes[i := n], c.net + Sent(n), c.contexts + contexts);
    var w' := Cluster(w.nodes[i := x], w.net + Sent(x) + Shadows(n), w.contexts + contexts);
    forall m | m in w'.net ensures MessageOk(h', m) {
      if m in Shadows(n) && m !in w.net + Sent(x) {
        var q :| q in n.outbound && Shadow(q.msg) == m;
        assert q.msg in Sent(n);
      }
    }
    forall j | j in c'.nodes ensures Paired(c'.net, c'.nodes[j], w'.nodes[j]) {
      if j != i {
        assert Paired(c.net, c.nodes[j], w.nodes[j]);
        KnowsMore(c.net, c.nodes[j], w.nodes[j], Sent(n));
      }
    }
    forall m | m in c'.net ensures Shadow(m) in w'.net && NamesAll(h', m) {
      if m !in c.net {
        var q :| q in n.outbound && q.msg == m;
      }
    }
  }

  // ------------------------------------------------------------ taking the pair apart

  lemma PairFacts(net: set<Message>, h: History, n: Node, x: Node)
    requires Paired(net, n, x) && NodeOk(h, x)
    ensures Fields(n, x) && Suffix(n.baseIndex, n.log, x.log) && VotersKept(n) && n.id == x.id
    ensures n.commit <= LastIndex(n) && n.baseIndex <= n.commit && (n.faulted ==> n.role == Follower)
    ensures DiskView(n.disk, x.disk)
    ensures forall q :: q in n.outbound ==> q.msg in net
    ensures !n.faulted ==> Running(n, x) && x.disk.wal.data == x.log && x.term == x.disk.wal.hard.term
  {
    hide LogOk, CommitOk, DiskPair, DiskView, Suffix, NoConfig, D.PromisesBacked, D.StoreSound, DiskOk;
    forall q | q in n.outbound ensures q.msg in net { assert q.msg in Sent(n); }
    CommitBelow(h, x);
    SameEntries(n, x, 0);
    if !n.faulted { PairIsView(n.disk, x.disk); }
  }

  lemma CommitBelow(h: History, x: Node)
    requires NodeOk(h, x)
    ensures x.commit <= LastIndex(x)
  {
    hide LogOk, DiskOk, LiveOk;
  }

  lemma VotersAgree(h: History, n: Node, x: Node, mask: Mask)
    requires NodeOk(h, x) && Fields(n, x) && Ids(mask) == h.voters
    ensures mask == n.votersOld
  {
    IdsDetermineMask(mask, x.votersOld, 1);
  }

  /** The snapshot that a leader sends is its committed prefix. */
  lemma SnapshotIsOffered(h: History, n: Node, x: Node, m: Message)
    requires HistOk(h) && NodeOk(h, x) && Running(n, x) && D.Sound(D.WHOLE, n) && SendsSnapshot(n, m) && m.to != n.id
    ensures MessageOk(h, Shadow(m)) && NamesAll(h, m)
  {
    hide HistOk, DiskOk, LogOk, D.PromisesBacked, DiskPair, NoConfig, OutboundOk;
    var s := n.snapshot.lastIndex;
    SuffixAt(n.baseIndex, n.log, x.log, n.baseIndex);
    if s == 0 {
      assert n.snapshot == NO_SNAPSHOT;
    } else {
      assert n.snapshot.oldVoters == n.votersOld;
      CommitDown(h, x.log, x.commit, x.disk.wal.hard.term, s);
    }
  }

  lemma CommitDown(h: History, log: Log, commit: nat, term: nat, s: nat)
    requires CommitOk(h, log, commit, term) && s <= commit
    ensures CommitOk(h, log, s, term)
  {
    if s != 0 {
      var t: nat :| t <= term && CommittedAt(h, log, commit, t);
      AgreeDown(log, h.llog[t], commit, s);
      assert CommittedAt(h, log, s, t);
    }
  }

  // ------------------------------------------------------------ calls that both perform

  /** A call that the partner performs too. */
  lemma MirroredSent(net: set<Message>, h: History, n: Node, x: Node)
    requires HistOk(h) && NodeOk(h, x) && Like(net, n, x) && D.Sound(D.WHOLE, n)
    ensures Accounted(net, h, n) && Like(net + Sent(n), n, x)
  {
    hide NodeOk, D.Sound, HistOk, MessageOk, Running, Stopped, NamesAll;
    KnowsMore(net, n, x, Sent(n));
    forall m | m in Sent(n) && m !in net ensures MessageOk(h, Shadow(m)) && NamesAll(h, m) {
      var q :| q in n.outbound && q.msg == m;
      var p :| p in x.outbound && Mirrors(n, q.msg, p.msg);
      QueuedOk(h, x, p);
      if m == p.msg {
        PlainShadow(h, m);
      } else {
        LikeRuns(net, n, x);
        SnapshotIsOffered(h, n, x, m);
      }
    }
  }

  lemma LikeRuns(net: set<Message>, n: Node, x: Node)
    requires Like(net, n, x) && n.outbound != []
    ensures Running(n, x) && n.id == x.id
  {}

  lemma QueuedOk(h: History, x: Node, p: Queued)
    requires NodeOk(h, x) && p in x.outbound
    ensures MessageOk(h, p.msg) && p.msg.from == x.id && p.msg.to != x.id
  {}

  lemma PlainShadow(h: History, m: Message)
    requires MessageOk(h, m)
    ensures Shadow(m) == m && NamesAll(h, m)
  {}

  /** The partner can be asked the same. */
  lemma IsMirrored(c: Cluster, w: Cluster, h: History, i: NodeId, call: Call)
    requires Inv(c, w, h) && i in c.nodes && Allowed(c, i, call) && !call.CallCompact?
    requires call.CallStep? ==> !call.m.InstallSnapshot? && !Confirms(call.m)
                                && (call.m.Append? ==> call.m.logIndex >= c.nodes[i].baseIndex)
    ensures Mirrored(c.nodes[i], call) && Supported(w, i, call)
  {
    hide Like, D.Sound, HistOk, NodeOk, MessageOk;
    var n, x := c.nodes[i], w.nodes[i];
    assert Paired(c.net, n, x);
    if call.CallStep? {
      var m := call.m;
      assert Shadow(m) == m && m in w.net;
      if m.Append? {
        LikePeers(c.net, n, x);
        if m.entry.Some? { EntryIsPlain(h, m); }
        AppendFrom(h, m);
        if n.role == Leader && m.term == n.term {
          OnlyItsOwn(h, x, m);
          assert false;
        }
      }
    }
  }

  lemma EntryIsPlain(h: History, m: Message)
    requires HistOk(h) && m.Append? && MessageOk(h, m) && m.entry.Some?
    ensures m.entry.value.kind != KIND_JOINT && m.entry.value.kind != KIND_FINAL
  {
    hide HistOk, LogOk, CommitOk;
    LeaderLogFacts(h, m.term);
    assert Plain(h.llog[m.term][m.logIndex + 1]);
  }

  lemma AppendFrom(h: History, m: Message)
    requires MessageOk(h, m)
    ensures m.from != m.to
  {}

  lemma OnlyItsOwn(h: History, x: Node, m: Message)
    requires NodeOk(h, x) && x.role == Leader && m.Append? && MessageOk(h, m) && m.term == x.term
    ensures m.from == x.id
  {
    hide DiskOk, LogOk, CommitOk;
  }

  lemma MirroredMove(c: Cluster, w: Cluster, h: History, a: Action, c': Cluster) returns (w': Cluster, h': History)
    requires Inv(c, w, h) && Moves(c, a, c') && a.Act? && !a.call.CallCompact?
    requires a.call.CallStep? ==> !a.call.m.InstallSnapshot? && !Confirms(a.call.m)
                                  && (a.call.m.Append? ==> a.call.m.logIndex >= c.nodes[a.node].baseIndex)
    ensures Inv(c', w', h') && Later(h, h')
    ensures a.call.CallStartRead? && MayStartRead(c.nodes[a.node], a.call.context) ==>
              a.call.context in h'.barriers && h'.barriers[a.call.context] == BarrierNow(w, a.node)
  {
    hide Perform, Like, D.Sound, NodeOk, HistOk, MessageOk, Later, Mirrored, MayStartRead, BarrierNow;
    var i, call, plan := a.node, a.call, a.plan;
    var n, x := c.nodes[i], w.nodes[i];
    assert Paired(c.net, n, x);
    IsMirrored(c, w, h, i, call);
    PairFacts(c.net, h, n, x);
    PerformAlike(c.net, n, x, call, plan);
    var n', x' := Perform(n, call, plan), Perform(x, call, plan);
    NoTear(n, call, plan);
    D.PerformSound(D.WHOLE, n, call, plan);
    var w1 := Cluster(w.nodes[i := x'], w.net + Sent(x'), w.contexts + ContextsOf(call));
    h' := StepPreserves(w, h, a, w1);
    ClusterFacts(w1, h');
    ClusterFacts(w, h);
    assert w1.nodes[i] == x' && NodeOk(h', x');
    MirroredSent(c.net, h', n', x');
    OneMoved(c, w, h, h', i, n', x', ContextsOf(call));
    w' := Cluster(w.nodes[i := x'], w.net + Sent(x') + Shadows(n'), w.contexts + ContextsOf(call));
    if call.CallStartRead? { StartReadAlike(c.net, n, x, call.context); }
  }

  lemma NoTear(n: Node, call: Call, plan: seq<Outcome>)
    requires call.CallCompact? ==> !n.faulted
    ensures !D.Tears(n, call, plan)
  {}

  // ------------------------------------------------------------ deliveries that the partner takes differently

  /** What a step owes: the partner keeps the invariant, stays alike, and every new message is accounted for. */
  ghost predicate Stepped(net: set<Message>, h: History, h': History, n': Node, x': Node) {
    Preserved(h, h', x'.id, x') && Like(net + Sent(n'), n', x') && Accounted(net, h', n')
  }

  lemma SteppedAlike(net: set<Message>, h: History, h': History, n': Node, x': Node)
    requires Preserved(h, h', x'.id, x') && Like(net, n', x') && D.Sound(D.WHOLE, n')
    ensures Stepped(net, h, h', n', x')
  {
    hide Like, D.Sound, HistOk, NodeOk, Ext, Accounted;
    MirroredSent(net, h', n', x');
  }

  /** A delivery up to the point where the message itself is handled. */
  lemma Observed(net: set<Message>, h: History, n: Node, x: Node, m: Message, plan: seq<Outcome>) returns (h': History)
    requires HistOk(h) && NodeOk(h, x) && Paired(net, n, x) && !n.faulted
    ensures var (n1, ok) := ObserveTerm(n.(plan := plan), m); var (x1, ok') := ObserveTerm(x.(plan := plan), m);
            ok == ok' && Preserved(h, h', x.id, x1) && Like(net, n1, x1) && D.Sound(D.WHOLE, n1)
            && (n1.faulted <==> !ok) && n1.id == n.id && x1.id == x.id
            && (ok ==> Sent(n1) <= net && n1.baseIndex == n.baseIndex && n1.votersOld == n.votersOld
                       && (!IsPreVote(m) ==> m.term <= n1.term))
  {
    hide Like, D.Sound, HistOk, NodeOk, Ext, ObserveTerm;
    var n0, x0 := n.(plan := plan), x.(plan := plan);
    PairFacts(net, h, n, x);
    Replanned(net, n, x, plan);
    QuietOk(h, x, x0);
    D.QuietSound(D.WHOLE, n, n0);
    h' := ObserveTermOk(h, x0, m);
    RunningNow(net, n0, x0);
    ObserveAlike(net, n0, x0, m);
    D.ObserveSound(D.WHOLE, n0, m);
    LikePeers(net, ObserveTerm(n0, m).0, ObserveTerm(x0, m).0);
  }

  lemma RunningNow(net: set<Message>, n: Node, x: Node)
    requires Like(net, n, x) && !n.faulted
    ensures !x.faulted
  {}

  lemma StepIs(n: Node, m: Message, plan: seq<Outcome>)
    ensures var (n1, ok) := ObserveTerm(n.(plan := plan), m);
            Perform(n, CallStep(m), plan)
            == if n.faulted then n.(plan := plan) else if !ok then n1 else Dispatch(n1, m)
  {
    hide ObserveTerm, Dispatch;
  }

  lemma StoppedStep(net: set<Message>, h: History, n: Node, x: Node, plan: seq<Outcome>)
    requires HistOk(h) && NodeOk(h, x) && Paired(net, n, x)
    ensures Stepped(net, h, h, n.(plan := plan), x.(plan := plan)) && x.(plan := plan).id == n.id
  {
    hide Like, D.Sound, HistOk, NodeOk, Ext, Stepped;
    PairFacts(net, h, n, x);
    Replanned(net, n, x, plan);
    QuietOk(h, x, x.(plan := plan));
    ExtRefl(h, x.id);
    D.QuietSound(D.WHOLE, n, n.(plan := plan));
    SteppedAlike(net, h, h, n.(plan := plan), x.(plan := plan));
  }

  /** Both refuse, with the same answer. */
  lemma Refused(net: set<Message>, h: History, h1: History, n: Node, x: Node, r: Message)
    requires Preserved(h, h1, x.id, x) && Like(net, n, x) && D.Sound(D.WHOLE, n) && !n.faulted
    requires MessageOk(h1, r) && r.from == x.id && D.Backed(r, n.disk)
    ensures Stepped(net, h, h1, Send(n, r), Send(x, r))
  {
    hide Like, D.Sound, HistOk, NodeOk, Ext, MessageOk, Stepped;
    RunningNow(net, n, x);
    SendAlike(net, n, x, r);
    SendOk(h1, x, r);
    D.SendSound(D.WHOLE, n, r);
    SteppedAlike(net, h, h1, Send(n, r), Send(x, r));
  }

  /** An Append that starts below the base is refused, although the whole log could have taken it. */
  lemma LowAppend(net: set<Message>, h: History, n: Node, x: Node, m: Message, plan: seq<Outcome>)
    returns (x': Node, h': History)
    requires HistOk(h) && NodeOk(h, x) && Paired(net, n, x) && m.Append? && MessageOk(h, m) && m.to == n.id
    requires m.logIndex < n.baseIndex
    ensures Stepped(net, h, h', Perform(n, CallStep(m), plan), x') && x'.id == n.id
  {
    hide Like, D.Sound, HistOk, NodeOk, Ext, MessageOk, Stepped, ObserveTerm, Perform;
    StepIs(n, m, plan);
    PairFacts(net, h, n, x);
    if n.faulted {
      x', h' := x.(plan := plan), h;
      StoppedStep(net, h, n, x, plan);
    } else {
      h' := Observed(net, h, n, x, m, plan);
      var (n1, ok) := ObserveTerm(n.(plan := plan), m);
      var x1 := ObserveTerm(x.(plan := plan), m).0;
      if !ok {
        x' := x1;
        SteppedAlike(net, h, h', n1, x1);
      } else {
        var r := AppendResponse(n1.id, m.from, n1.term, true, LastIndex(n1), m.context);
        x' := Send(x1, r);
        assert Dispatch(n1, m) == Send(n1, r);
        ExtMessage(h, h', x.id, m);
        NoOk(h', x1, m, r);
        Refused(net, h, h', n1, x1, r);
      }
    }
  }

  /** A refusal is always in order. */
  lemma NoOk(h: History, x: Node, m: Message, r: Message)
    requires NodeOk(h, x) && MessageOk(h, m) && r.from == m.to == x.id && r.to == m.from
    requires (r.AppendResponse? && r.reject) || (r.InstallSnapshotResponse? && r.reject)
    ensures MessageOk(h, r)
  {}

  /** The acknowledgement of a snapshot. */
  lemma ConfirmStep(net: set<Message>, h: History, n: Node, x: Node, m: Message, plan: seq<Outcome>)
    returns (x': Node, h': History)
    requires HistOk(h) && NodeOk(h, x) && Paired(net, n, x) && Confirms(m) && MessageOk(h, Shadow(m)) && m.to == n.id
    ensures Stepped(net, h, h', Perform(n, CallStep(m), plan), x') && x'.id == n.id
  {
    hide Like, D.Sound, HistOk, NodeOk, Ext, MessageOk, Stepped, ObserveTerm, Perform, OnInstallSnapshotResponse;
    StepIs(n, m, plan);
    PairFacts(net, h, n, x);
    if n.faulted {
      x', h' := x.(plan := plan), h;
      StoppedStep(net, h, n, x, plan);
    } else {
      h' := Observed(net, h, n, x, m, plan);
      var (n1, ok) := ObserveTerm(n.(plan := plan), m);
      var x1 := ObserveTerm(x.(plan := plan), m).0;
      if !ok {
        x' := x1;
        SteppedAlike(net, h, h', n1, x1);
      } else {
        x' := OnInstallSnapshotResponse(x1, m);
        RunningNow(net, n1, x1);
        ExtMessage(h, h', x.id, Shadow(m));
        OnInstallSnapshotResponseAlike(net, n1, x1, m);
        InstallAckOk(h', x1, m);
        D.OnInstallSnapshotResponseSound(D.WHOLE, n1, m);
        SteppedAlike(net, h, h', OnInstallSnapshotResponse(n1, m), x');
      }
    }
  }

  // ------------------------------------------------------------ installing

  /** A follower that has the snapshot acknowledges it; its partner acknowledges the prefix. */
  lemma Acknowledged(net: set<Message>, h: History, h1: History, n: Node, x: Node, m: Message)
    returns (x': Node, h': History)
    requires Preserved(h, h1, x.id, x) && Like(net, n, x) && D.Sound(D.WHOLE, n) && !n.faulted && n.role == Follower
    requires Sent(n) <= net && Offers(m) && MessageOk(h1, Shadow(m)) && m.to == n.id && m.term == n.term
    requires Agree(x.log, h1.llog[n.term], m.snapshot.lastIndex) && n.baseIndex == m.snapshot.lastIndex
    ensures var n' := Send(n, InstallSnapshotResponse(n.id, m.from, n.term, false, n.baseIndex));
            Stepped(net, h, h', n', x') && x'.id == n.id
  {
    hide Like, D.Sound, HistOk, NodeOk, Ext, MessageOk, Running, Agree;
    RunningNow(net, n, x);
    LikePeers(net, n, x);
    var s := m.snapshot.lastIndex;
    h' := AcknowledgeOk(h1, x, Shadow(m));
    var r := AppendResponse(x.id, m.from, x.term, false, s, 0);
    x' := Send(x, r);
    PreservedTrans(h, h1, h', x.id, x, x');
    var q := InstallSnapshotResponse(n.id, m.from, n.term, false, n.baseIndex);
    var n' := Send(n, q);
    SendingRuns(n, x, n', x');
    KnownOut(net + Sent(n'), n', x') by { AllSent(net, n'); }
    MakeLike(net + Sent(n'), n', x');
    assert Queued(r, x.disk) in x'.outbound;
    QueuedOk(h', x', Queued(r, x.disk));
    forall k | k in Sent(n') && k !in net ensures MessageOk(h', Shadow(k)) && NamesAll(h', k) {
      var p :| p in n'.outbound && p.msg == k;
      assert p.msg !in Sent(n);
    }
  }

  lemma AllSent(net: set<Message>, n: Node)
    ensures forall q :: q in n.outbound ==> q.msg in net + Sent(n)
  {
    forall q | q in n.outbound ensures q.msg in net + Sent(n) { assert q.msg in Sent(n); }
  }

  lemma SendingRuns(n: Node, x: Node, n': Node, x': Node)
    requires Running(n, x) && n' == n.(outbound := n'.outbound) && x' == x.(outbound := x'.outbound)
    ensures Running(n', x')
  {
    hide DiskPair, Suffix, Ordinary;
  }

  /** What an accepted snapshot is to the partner. */
  lemma OfferedBy(h: History, n: Node, x: Node, m: Message)
    requires HistOk(h) && NodeOk(h, x) && Fields(n, x) && Offers(m) && MessageOk(h, Shadow(m)) && NamesAll(h, m)
    requires m.to == x.id && m.term == x.term
    ensures var s := m.snapshot; var prefix := Offer(h, m.term, s.lastIndex);
            Offered(h, x.term, s.lastIndex, s.lastTerm) && x.role != Leader
            && s.oldVoters == n.votersOld && s.newVoters == 0
            && |prefix| == s.lastIndex + 1 && prefix[s.lastIndex].term == s.lastTerm
            && forall k :: 0 <= k < |prefix| ==> Ordinary(prefix[k])
  {
    hide HistOk, NodeOk, LogOk, CommitOk, Ids, Ordinary;
    VotersAgree(h, n, x, m.snapshot.oldVoters);
    LeaderLogFacts(h, m.term);
    PlainLog(h, h.llog[m.term]);
    if x.role == Leader {
      OnlyItsOwn(h, x, Shadow(m));
      assert false;
    }
  }

  /** Installing, once the term is observed and the snapshot is newer than the base. */
  lemma InstallNew(net: set<Message>, h: History, h1: History, n: Node, x: Node, m: Message)
    returns (x': Node, h': History)
    requires Preserved(h, h1, x.id, x) && Like(net, n, x) && D.Sound(D.WHOLE, n) && !n.faulted && Sent(n) <= net
    requires Offers(m) && MessageOk(h1, Shadow(m)) && NamesAll(h1, m) && m.to == n.id && m.term == n.term
    requires !RejectsSnapshot(n, m) && m.snapshot.lastIndex > n.baseIndex && x.disk.wal.data == x.log
    ensures Stepped(net, h, h', OnInstallSnapshot(n, m), x') && x'.id == n.id
  {
    hide Like, D.Sound, HistOk, NodeOk, Ext, MessageOk, Install, Running, Stepped, Ordinary, CommitOk;
    LikePeers(net, n, x);
    RunningNow(net, n, x);
    OfferedBy(h1, n, x, m);
    var snap := m.snapshot;
    var prefix := Offer(h1, n.term, snap.lastIndex);
    var full := AdoptedLog(h1, x.log, x.term, snap.lastIndex, snap.lastTerm);
    forall q | q in n.outbound ensures q.msg in net { assert q.msg in Sent(n); }
    InstallAlike(net, n, x, snap, prefix);
    D.InstallSound(D.WHOLE, n, snap);
    InstallFrame(n, snap);
    var (n2, ok) := Install(n, snap);
    var x2 := Partner(n2, x, full, snap, n.disk);
    if !ok {
      x', h' := x2, h1;
      AdoptingStops(h1, x, snap.lastIndex, snap.lastTerm, n2.plan);
      StopsOk(h1, x, n2.plan);
      assert x.(disk := x.disk, plan := n2.plan) == x.(plan := n2.plan);
      PreservedTrans(h, h1, h1, x.id, x, x2);
      SteppedAlike(net, h, h1, n2, x2);
    } else {
      var n3 := n2.(role := Follower, leader := m.from, elapsed := 0);
      var x3 := x2.(role := Follower, leader := m.from, elapsed := 0);
      LikePeers(net, n2, x2);
      NextAlike(net, n2, x2, n3, x3);
      D.QuietSound(D.WHOLE, n2, n3);
      AdoptingOk(h1, x, snap.lastIndex, snap.lastTerm, x3);
      x', h' := Acknowledged(net, h, h1, n3, x3, m);
    }
  }

  lemma InstallFrame(n: Node, snap: Snapshot)
    requires n.baseIndex < snap.lastIndex && !n.faulted
    ensures var (n', ok) := Install(n, snap);
            ok ==> n'.outbound == n.outbound && n'.baseIndex == snap.lastIndex && n'.id == n.id && n'.term == n.term
                   && n'.role == n.role
  {
    hide Write, SaveSnapshot, CompactLog;
    WriteCases(n, SaveSnapshot(n.disk, snap));
    var (n1, ok1) := Write(n, SaveSnapshot(n.disk, snap));
    if ok1 { WriteCases(n1, CompactLog(n1.disk, snap.lastIndex)); }
  }

  /** A snapshot that the node already has. */
  lemma InstallKnown(net: set<Message>, h: History, h1: History, n: Node, x: Node, m: Message)
    returns (x': Node, h': History)
    requires Preserved(h, h1, x.id, x) && Like(net, n, x) && D.Sound(D.WHOLE, n) && !n.faulted && Sent(n) <= net
    requires Offers(m) && MessageOk(h1, Shadow(m)) && NamesAll(h1, m) && m.to == n.id && m.term == n.term
    requires !RejectsSnapshot(n, m) && m.snapshot.lastIndex == n.baseIndex
    ensures Stepped(net, h, h', OnInstallSnapshot(n, m), x') && x'.id == n.id
  {
    hide Like, D.Sound, HistOk, NodeOk, Ext, MessageOk, Install, Running, Stepped, Offered, Ordinary, CommitOk, Agree;
    LikePeers(net, n, x);
    RunningNow(net, n, x);
    OfferedBy(h1, n, x, m);
    var s := m.snapshot.lastIndex;
    D.BaseInRange(D.WHOLE, n);
    SuffixAt(n.baseIndex, n.log, x.log, s);
    LogIsOk(h1, x);
    AdoptedAgrees(h1, x.log, x.term, s, m.snapshot.lastTerm);
    var n3 := n.(role := Follower, leader := m.from, elapsed := 0);
    var x3 := x.(role := Follower, leader := m.from, elapsed := 0);
    NextAlike(net, n, x, n3, x3);
    D.QuietSound(D.WHOLE, n, n3);
    FollowNode(h1, x, m);
    x', h' := Acknowledged(net, h, h1, n3, x3, m);
  }

  lemma LogIsOk(h: History, x: Node)
    requires NodeOk(h, x)
    ensures LogOk(h, x.log)
  {}

  /** Delivering a snapshot, whatever becomes of it. */
  lemma InstallStep(net: set<Message>, h: History, n: Node, x: Node, m: Message, plan: seq<Outcome>)
    returns (x': Node, h': History)
    requires HistOk(h) && NodeOk(h, x) && Paired(net, n, x) && m.InstallSnapshot? && m.to == n.id
    requires MessageOk(h, Shadow(m)) && NamesAll(h, m)
    ensures Stepped(net, h, h', Perform(n, CallStep(m), plan), x') && x'.id == n.id
  {
    hide Like, D.Sound, HistOk, NodeOk, Ext, MessageOk, Stepped, ObserveTerm, Perform, OnInstallSnapshot;
    StepIs(n, m, plan);
    PairFacts(net, h, n, x);
    if n.faulted {
      x', h' := x.(plan := plan), h;
      StoppedStep(net, h, n, x, plan);
    } else {
      var h1 := Observed(net, h, n, x, m, plan);
      var (n1, ok) := ObserveTerm(n.(plan := plan), m);
      var x1 := ObserveTerm(x.(plan := plan), m).0;
      if !ok {
        x', h' := x1, h1;
        SteppedAlike(net, h, h1, n1, x1);
      } else {
        ExtMessage(h, h1, x.id, Shadow(m));
        ExtVoters(h, h1, x.id);
        SyncedLog(net, h1, n1, x1);
        if RejectsSnapshot(n1, m) {
          var r := InstallSnapshotResponse(n1.id, m.from, n1.term, true, n1.baseIndex);
          x', h' := Send(x1, r), h1;
          RejectedSnapshot(n1, m);
          NoOk(h1, x1, Shadow(m), r);
          Refused(net, h, h1, n1, x1, r);
        } else if m.snapshot.lastIndex > n1.baseIndex {
          x', h' := InstallNew(net, h, h1, n1, x1, m);
        } else {
          x', h' := InstallKnown(net, h, h1, n1, x1, m);
        }
      }
    }
  }

  lemma RejectedSnapshot(n: Node, m: Message)
    requires m.InstallSnapshot? && RejectsSnapshot(n, m)
    ensures OnInstallSnapshot(n, m) == Send(n, InstallSnapshotResponse(n.id, m.from, n.term, true, n.baseIndex))
  {}

  lemma SyncedLog(net: set<Message>, h: History, n: Node, x: Node)
    requires NodeOk(h, x) && Like(net, n, x) && !n.faulted
    ensures x.disk.wal.data == x.log
  {
    hide DiskOk, LogOk, CommitOk, Suffix, DiskPair;
  }

  // ------------------------------------------------------------ compaction

  /** The partner stands still, or stops with the node. */
  lemma CompactStep(net: set<Message>, h: History, n: Node, x: Node, call: Call, plan: seq<Outcome>)
    returns (x': Node)
    requires HistOk(h) && NodeOk(h, x) && Paired(net, n, x) && call.CallCompact? && !n.faulted
    ensures Stepped(net, h, h, Perform(n, call, plan), x') && x'.id == n.id
  {
    hide Like, D.Sound, HistOk, NodeOk, Ext, Stepped, Compact, Running;
    PairFacts(net, h, n, x);
    var n0, x0 := n.(plan := plan), x.(plan := plan);
    Replanned(net, n, x, plan);
    QuietOk(h, x, x0);
    D.QuietSound(D.WHOLE, n, n0);
    var n' := Compact(n0, call.index, call.state);
    CompactAlike(net, n0, x0, call.index, call.state);
    D.CompactSound(D.WHOLE, n0, call.index, call.state);
    x' := Beside(x0, n');
    ExtRefl(h, x.id);
    StopsOk(h, x0, n'.plan);
    QuietOk(h, x0, x0.(plan := n'.plan));
    SteppedAlike(net, h, h, n', x');
  }

  // ------------------------------------------------------------ every move

  lemma SpecialMove(c: Cluster, w: Cluster, h: History, h': History, i: NodeId, n: Node, x: Node)
    returns (w': Cluster)
    requires Inv(c, w, h) && i in c.nodes && Stepped(c.net, h, h', n, x) && x.id == i && D.Sound(D.WHOLE, n)
    ensures Inv(Cluster(c.nodes[i := n], c.net + Sent(n), c.contexts), w', h') && Later(h, h')
  {
    hide Like, D.Sound, NodeOk, HistOk, MessageOk, Ext, Later, Accounted;
    ExtIsLater(h, h', i);
    ExtVoters(h, h', i);
    SentOk(h', x);
    OneNodeMoved(w, h, h', i, x, Sent(x), {});
    OneMoved(c, w, h, h', i, n, x, {});
    assert c.contexts + {} == c.contexts;
    w' := Cluster(w.nodes[i := x], w.net + Sent(x) + Shadows(n), w.contexts + {});
  }

  lemma RestartMove(c: Cluster, w: Cluster, h: History, i: NodeId, timeout: nat, c': Cluster)
    returns (w': Cluster, h': History)
    requires Inv(c, w, h) && Moves(c, Restart(i, timeout), c')
    ensures Inv(c', w', h') && Later(h, h')
  {
    hide Like, D.Sound, NodeOk, HistOk, MessageOk, Later, Recover, Open, Running;
    var n, x := c.nodes[i], w.nodes[i];
    assert Paired(c.net, n, x);
    ClusterFacts(w, h);
    PairFacts(c.net, h, n, x);
    RestartAlike(h, n, x, timeout);
    D.RebootSound(D.WHOLE, n, timeout);
    var r := Recover(i, n.peers, timeout, Open(n.disk).value);
    var y := Recover(i, x.peers, timeout, Open(x.disk).value);
    var w1 := w.(nodes := w.nodes[i := y]);
    h' := StepPreserves(w, h, Restart(i, timeout), w1);
    ClusterFacts(w1, h');
    StartsAlike(c.net, r, y);
    assert Sent(r) == {} && Sent(y) == {} && Shadows(r) == {};
    assert w1 == Cluster(w.nodes[i := y], w.net + {}, w.contexts + {});
    OneMoved(c, w, h, h', i, r, y, {});
    assert c' == Cluster(c.nodes[i := r], c.net + {}, c.contexts + {});
    w' := Cluster(w.nodes[i := y], w.net + Sent(y) + Shadows(r), w.contexts + {});
  }

  lemma StartsAlike(net: set<Message>, r: Node, y: Node)
    requires Running(r, y) && r.outbound == [] && y.outbound == []
    ensures Like(net + Sent(r), r, y) && Sent(r) == {} && Sent(y) == {}
  {
    hide Suffix, DiskPair, NoConfig;
  }

  /** A delivery or a compaction for which the partner does something else. */
  lemma OtherStep(c: Cluster, w: Cluster, h: History, i: NodeId, call: Call, plan: seq<Outcome>)
    returns (x': Node, h': History)
    requires Inv(c, w, h) && i in c.nodes && Allowed(c, i, call) && (call.CallCompact? || call.CallStep?)
    requires call.CallStep? ==> call.m.InstallSnapshot? || Confirms(call.m)
                                || (call.m.Append? && call.m.logIndex < c.nodes[i].baseIndex)
    ensures Stepped(c.net, h, h', Perform(c.nodes[i], call, plan), x') && x'.id == i
  {
    hide Like, D.Sound, NodeOk, HistOk, MessageOk, Perform, Stepped;
    var n, x := c.nodes[i], w.nodes[i];
    assert Paired(c.net, n, x);
    ClusterFacts(w, h);
    SameId(c.net, n, x);
    if call.CallCompact? {
      h' := h;
      x' := CompactStep(c.net, h, n, x, call, plan);
    } else {
      var m := call.m;
      assert Shadow(m) in w.net && NamesAll(h, m);
      if m.InstallSnapshot? {
        x', h' := InstallStep(c.net, h, n, x, m, plan);
      } else if Confirms(m) {
        x', h' := ConfirmStep(c.net, h, n, x, m, plan);
      } else {
        x', h' := LowAppend(c.net, h, n, x, m, plan);
      }
    }
  }

  lemma SameId(net: set<Message>, n: Node, x: Node)
    requires Like(net, n, x)
    ensures n.id == x.id
  {}

  /** Every move of the compacting cluster has a partner, and the invariant survives it. */
  lemma MoveOk(c: Cluster, w: Cluster, h: History, a: Action, c': Cluster) returns (w': Cluster, h': History)
    requires Inv(c, w, h) && Moves(c, a, c')
    ensures Inv(c', w', h') && Later(h, h')
    ensures a.Act? && a.call.CallStartRead? && MayStartRead(c.nodes[a.node], a.call.context) ==>
              a.call.context in h'.barriers && h'.barriers[a.call.context] == BarrierNow(w, a.node)
  {
    hide Inv, Perform, D.Sound, Recover, Open, Stepped, Later, MayStartRead, BarrierNow;
    match a
    case Restart(i, timeout) => w', h' := RestartMove(c, w, h, i, timeout, c');
    case Act(i, call, plan) =>
      if call.CallCompact? || (call.CallStep? && (call.m.InstallSnapshot? || Confirms(call.m)
                                                  || (call.m.Append? && call.m.logIndex < c.nodes[i].baseIndex))) {
        var x;
        x, h' := OtherStep(c, w, h, i, call, plan);
        NoTear(c.nodes[i], call, plan);
        PairIsSound(c, w, h, i);
        D.PerformSound(D.WHOLE, c.nodes[i], call, plan);
        w' := SpecialMove(c, w, h, h', i, Perform(c.nodes[i], call, plan), x);
        assert c.contexts + {} == c.contexts;
      } else {
        w', h' := MirroredMove(c, w, h, a, c');
      }
  }

  lemma PairIsSound(c: Cluster, w: Cluster, h: History, i: NodeId)
    requires Inv(c, w, h) && i in c.nodes
    ensures D.Sound(D.WHOLE, c.nodes[i])
  {
    hide Like, D.Sound, ClusterOk;
    assert Paired(c.net, c.nodes[i], w.nodes[i]);
  }

  /** At first every node is its own partner. */
  lemma InitIsPaired(c: Cluster) returns (h: History)
    requires Init(c)
    ensures Inv(c, c, h)
  {
    hide NewNode, D.Sound, ClusterOk, Like;
    h := InitOk(c);
    forall i | i in c.nodes ensures Paired(c.net, c.nodes[i], c.nodes[i]) {
      var n := c.nodes[i];
      D.BlankSound(D.WHOLE, i, n.peers, n.timeout);
      BlankAlike(i, n.peers, n.timeout);
    }
  }

  lemma BlankAlike(id: NodeId, peers: seq<NodeId>, timeout: nat)
    ensures var n := NewNode(id, peers, timeout, EMPTY_DISK); Like({}, n, n) && n.outbound == []
  {}
}
