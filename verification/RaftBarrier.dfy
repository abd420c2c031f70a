/** Starting a read barrier, and one step of a cluster of whole logs. */
module RaftBarrier {
  import opened Masks
  import opened RaftTypes
  import opened RaftDisk
  import opened RaftNode
  import opened RaftHistory
  import opened RaftExtend
  import opened RaftFixed
  import opened RaftSteps
  import opened RaftElect
  import opened RaftReplicate
  import opened RaftCluster

  // ------------------------------------------------------------ starting a read barrier

  /** The barrier node `i` starts now. */
  ghost function BarrierNow(c: Cluster, i: NodeId): Barrier
    requires i in c.nodes
  {
    Barrier(i, c.nodes[i].term, c.nodes[i].commit,
            map j: nat | j in c.nodes :: c.nodes[j].disk.wal.hard.commit,
            map j: nat | j in c.nodes :: c.nodes[j].disk.wal.hard.term)
  }

  ghost function WithBarrier(h: History, context: nat, b: Barrier): History {
    h.(barriers := h.barriers[context := b])
  }

  lemma StoredFacts(h: History, n: Node)
    requires NodeOk(h, n)
    ensures CommitOk(h, n.disk.wal.data, n.disk.wal.hard.commit, n.disk.wal.hard.term)
    ensures n.role == Leader ==> n.disk.wal.hard.commit == n.commit
  {
    hide LogOk, CommitOk, RetainsAll;
  }

  /** What another node has stored as committed, an unchallenged leader that may start a read has committed too. */
  lemma LeaderCoversNode(c: Cluster, h: History, i: NodeId, j: NodeId, context: nat)
    requires ClusterOk(c, h) && i in c.nodes && j in c.nodes && MayStartRead(c.nodes[i], context)
    ensures c.nodes[j].disk.wal.hard.commit <= c.nodes[i].commit || Overtaken(h, BarrierNow(c, i))
  {
    hide HistOk, DiskOk, LogOk, Majority, Quorum, Monotone;
    var n, x := c.nodes[i], c.nodes[j];
    Facts(h, n);
    StoredFacts(h, n);
    StoredFacts(h, x);
    var hard := x.disk.wal.hard;
    NodeIsPlain(h, n);
    QuorumFixed(n, NodeBit(i));
    RecordingAddsSender(0, i);
    if Quorum(n, NodeBit(i)) {
      OnlyVoter(h.voters, i);
    } else if hard.commit != 0 {
      var t: nat :| t <= hard.term && CommittedAt(h, x.disk.wal.data, hard.commit, t);
      TermFacts(h, t);
      if t > n.term {
        forall f | f in h.electors[t] && f in BarrierNow(c, i).terms ensures BarrierNow(c, i).terms[f] > n.term {
          VotersHaveTerm(c, h, f, t);
        }
      } else if t < n.term {
        OwnCommitIsHigher(h, t, n.term, n.commit);
      }
    }
  }

  lemma OnlyVoter(voters: set<nat>, i: nat)
    requires Majority(voters, {i})
    ensures voters == {i}
  {
    assert voters * {i} <= {i};
    Subset(voters * {i}, {i});
    assert i !in voters ==> voters * {i} == {};
    if voters != {i} {
      var j :| j in voters && j != i;
      Subset({i, j}, voters);
    }
  }

  lemma VotersHaveTerm(c: Cluster, h: History, f: nat, t: nat)
    requires ClusterOk(c, h) && f in c.nodes && (f, t) in h.votes
    ensures t <= c.nodes[f].disk.wal.hard.term
  {
    hide HistOk, LogOk, CommitOk, LiveOk;
    assert NodeOk(h, c.nodes[f]);
  }

  /** A commit index in the leader's own term lies above everything earlier leaders committed. */
  lemma OwnCommitIsHigher(h: History, t: nat, term: nat, commit: nat)
    requires HistOk(h) && t in h.commits && t < term && term in h.llog
    requires commit < |h.llog[term]| && h.llog[term][commit].term == term
    ensures h.commits[t] < commit
  {
    hide HistOk;
    TermFacts(h, t);
    TermFacts(h, term);
    LeaderCompleteness(h, t, h.commits[t], term);
    AgreeDown(h.llog[term], h.llog[t], h.commits[t], h.commits[t]);
  }

  lemma BarrierNowOk(c: Cluster, h: History, i: NodeId, context: nat)
    requires ClusterOk(c, h) && i in c.nodes && MayStartRead(c.nodes[i], context) && context !in h.barriers
    ensures BarrierOk(WithBarrier(h, context, BarrierNow(c, i)), context)
  {
    hide HistOk, NodeOk, MessageOk, Majority, MayStartRead;
    var b := BarrierNow(c, i);
    var h' := WithBarrier(h, context, b);
    LeaderIsKnown(h, c.nodes[i], context);
    assert b.terms.Keys == h.voters;
    if !Overtaken(h', b) {
      forall j | j in b.floors ensures b.floors[j] <= b.started {
        LeaderCoversNode(c, h, i, j, context);
        if Overtaken(h, b) { SameOvertaken(h, h', b); }
      }
    }
  }

  lemma SameOvertaken(h: History, h': History, b: Barrier)
    requires Overtaken(h, b) && h'.electors == h.electors && h'.voters == h.voters
    ensures Overtaken(h', b)
  {}

  lemma LeaderIsKnown(h: History, n: Node, context: nat)
    requires NodeOk(h, n) && MayStartRead(n, context)
    ensures n.role == Leader && !n.faulted && n.term in h.leaderOf && h.leaderOf[n.term] == n.id
  {}

  /** A fresh barrier leaves the rest of the history as it was. */
  lemma WithBarrierOk(h: History, context: nat, b: Barrier)
    requires HistOk(h) && context !in h.barriers && BarrierOk(WithBarrier(h, context, b), context)
    ensures HistOk(WithBarrier(h, context, b))
  {
    hide ElectionOk, LeaderLogOk, CandidacyOk, VoteLogOk, AckOk, CommitRecordOk, BarrierOk, VoteOk;
    var h' := WithBarrier(h, context, b);
    forall t | t in h'.llog ensures ElectionOk(h', t) && LeaderLogOk(h', t) { SameTerm(h, h', t); }
    forall a, t | (a, t) in h'.candLog ensures CandidacyOk(h', a, t) { SameCandidacy(h, h', a, t); }
    forall f, t | (f, t) in h'.votes ensures VoteOk(h', f, t) { SameVote(h, h', f, t); }
    forall f, t | (f, t) in h'.voteLog ensures VoteLogOk(h', f, t) { SameVoteLog(h, h', f, t); }
    forall f, t | (f, t) in h'.acks ensures AckOk(h', f, t) { SameAck(h, h', f, t); }
    forall t | t in h'.commits ensures CommitRecordOk(h', t) { SameCommitRecord(h, h', t); }
    forall x | x in h'.barriers ensures BarrierOk(h', x) { if x != context { SameBarrier(h, h', x); } }
  }

  /** The histories differ in their barriers only. */
  ghost predicate SameBut(h: History, h': History) {
    h' == h.(barriers := h'.barriers)
  }

  lemma SameTerm(h: History, h': History, t: nat)
    requires SameBut(h, h') && ElectionOk(h, t) && LeaderLogOk(h, t)
    ensures ElectionOk(h', t) && LeaderLogOk(h', t)
  {
    SameLogOk(h, h', h.llog[t]);
  }

  lemma SameCandidacy(h: History, h': History, a: nat, t: nat)
    requires SameBut(h, h') && CandidacyOk(h, a, t)
    ensures CandidacyOk(h', a, t)
  {
    SameLogOk(h, h', h.candLog[(a, t)]);
  }

  lemma SameVote(h: History, h': History, f: nat, t: nat)
    requires SameBut(h, h') && VoteOk(h, f, t)
    ensures VoteOk(h', f, t)
  {}

  lemma SameVoteLog(h: History, h': History, f: nat, t: nat)
    requires SameBut(h, h') && VoteLogOk(h, f, t)
    ensures VoteLogOk(h', f, t)
  {
    hide RetainsAll;
    SameLogOk(h, h', h.voteLog[(f, t)]);
    forall u | u < t && (f, u) in h'.acks ensures RetainsAll(h', h'.voteLog[(f, t)], f, u, t) {
      SameRetains(h, h', h.voteLog[(f, t)], f, u, t);
    }
  }

  lemma SameAck(h: History, h': History, f: nat, t: nat)
    requires SameBut(h, h') && AckOk(h, f, t)
    ensures AckOk(h', f, t)
  {}

  lemma SameCommitRecord(h: History, h': History, t: nat)
    requires SameBut(h, h') && CommitRecordOk(h, t)
    ensures CommitRecordOk(h', t)
  {
    assert Ackers(h', t, h.commits[t]) == Ackers(h, t, h.commits[t]);
  }

  lemma SameBarrier(h: History, h': History, x: nat)
    requires SameBut(h, h') && BarrierOk(h, x) && x in h'.barriers && h'.barriers[x] == h.barriers[x]
    ensures BarrierOk(h', x)
  {
    if Overtaken(h, h.barriers[x]) { SameOvertaken(h, h', h.barriers[x]); }
  }

  lemma SameLogOk(h: History, h': History, log: Log)
    requires h'.llog == h.llog && LogOk(h, log)
    ensures LogOk(h', log)
  {
    forall k | 1 <= k < |log| ensures EntryOk(h', log, k) { assert EntryOk(h, log, k); }
  }

  lemma SameRetains(h: History, h': History, log: Log, f: nat, u: nat, before: nat)
    requires h'.llog == h.llog && h'.acks == h.acks && RetainsAll(h, log, f, u, before)
    ensures RetainsAll(h', log, f, u, before)
  {
    forall k | 0 <= k <= h'.acks[(f, u)] && OwnEntry(h', u, k) ensures Retains(h', log, u, k, before) {
      assert OwnEntry(h, u, k) && Retains(h, log, u, k, before);
      if !Agree(log, h.llog[u], k) {
        var w: nat :| u < w < before && Missing(h, u, k, w);
        assert Missing(h', u, k, w);
      }
    }
  }

  lemma SameCommit(h: History, h': History, log: Log, commit: nat, term: nat)
    requires h'.llog == h.llog && h'.commits == h.commits && CommitOk(h, log, commit, term)
    ensures CommitOk(h', log, commit, term)
  {
    if commit != 0 {
      var t: nat :| t <= term && CommittedAt(h, log, commit, t);
      assert CommittedAt(h', log, commit, t);
    }
  }

  lemma BarrierMessage(h: History, context: nat, b: Barrier, m: Message)
    requires MessageOk(h, m) && context !in h.barriers
    ensures MessageOk(WithBarrier(h, context, b), m)
  {
    if m.Append? { SameCommit(h, WithBarrier(h, context, b), h.llog[m.term], m.commit, m.term); }
  }

  lemma BarrierDisk(h: History, context: nat, b: Barrier, id: nat, d: Disk)
    requires DiskOk(h, id, d) && context !in h.barriers && (id in b.terms ==> b.terms[id] <= d.wal.hard.term)
    ensures DiskOk(WithBarrier(h, context, b), id, d)
  {
    hide LogOk, CommitOk, RetainsAll;
    var h' := WithBarrier(h, context, b);
    SameLogOk(h, h', d.wal.data);
    SameCommit(h, h', d.wal.data, d.wal.hard.commit, d.wal.hard.term);
    forall t | (id, t) in h'.acks ensures RetainsAll(h', d.wal.data, id, t, d.wal.hard.term + 1) {
      SameRetains(h, h', d.wal.data, id, t, d.wal.hard.term + 1);
    }
  }

  /** Nodes other than the barrier's leader, and that leader's other claims, are unaffected. */
  lemma BarrierNode(h: History, context: nat, b: Barrier, n: Node)
    requires NodeOk(h, n) && context !in h.barriers && (n.id in b.terms ==> b.terms[n.id] <= n.disk.wal.hard.term)
    requires b.term in h.leaderOf && h.leaderOf[b.term] == b.leader
    requires n.id != b.leader || (n.role == Leader && n.readContext == context)
    requires n.id == b.leader ==> !n.faulted && LeaderCore(WithBarrier(h, context, b), n)
    ensures NodeOk(WithBarrier(h, context, b), n)
  {
    hide LogOk, CommitOk, DiskOk;
    var h' := WithBarrier(h, context, b);
    BarrierDisk(h, context, b, n.id, n.disk);
    SameLogOk(h, h', n.log);
    SameCommit(h, h', n.log, n.commit, n.disk.wal.hard.term);
    forall q | q in n.outbound ensures MessageOk(h', q.msg) { BarrierMessage(h, context, b, q.msg); }
    assert n.id != b.leader && n.role == Leader && !n.faulted && BarrierHolds(h, n) ==> BarrierHolds(h', n);
  }

  function Reading(n: Node, context: nat): Node {
    var ready := Quorum(n, NodeBit(n.id));
    n.(readContext := context, readAckMask := NodeBit(n.id), readReady := ready,
       readIndex := if ready then n.commit else n.readIndex)
  }

  /** The reader's claims about its new barrier. */
  lemma ReaderCore(c: Cluster, h: History, i: NodeId, context: nat)
    requires ClusterOk(c, h) && i in c.nodes && MayStartRead(c.nodes[i], context) && context !in h.barriers
    ensures LeaderCore(WithBarrier(h, context, BarrierNow(c, i)), Reading(c.nodes[i], context))
  {
    hide HistOk, DiskOk, LogOk, CommitOk, Majority, Quorum;
    var b := BarrierNow(c, i);
    var h' := WithBarrier(h, context, b);
    var n := c.nodes[i];
    var r := Reading(n, context);
    BarrierNowOk(c, h, i, context);
    WithBarrierOk(h, context, b);
    RecordingAddsSender(0, i);
    var r0 := r.(readReady := false);
    assert BarrierHolds(h', r0);
    NodeIsPlain(h, n);
    QuorumFixed(n, NodeBit(i));
    if r.readReady { ConfirmedBarrier(h', r0, r.readAckMask); }
    assert BarrierHolds(h', r);
  }

  /** Pending write outcomes do not influence the decision to start a read. */
  lemma PlanIsIrrelevant(h: History, n: Node, plan: seq<Outcome>, context: nat)
    requires HistOk(h) && NodeOk(h, n)
    ensures MayStartRead(n.(plan := plan), context) == MayStartRead(n, context)
    ensures Reading(n.(plan := plan), context) == Reading(n, context).(plan := plan)
  {
    hide HistOk, Majority, LogOk, DiskOk, CommitOk, LiveOk, Quorum;
    var n0 := n.(plan := plan);
    NodeIsPlain(h, n);
    NodeIsPlain(h, n0);
    QuorumFixed(n, NodeBit(n.id));
    QuorumFixed(n0, NodeBit(n.id));
  }

  lemma StartReadOk(c: Cluster, h: History, i: NodeId, context: nat, plan: seq<Outcome>) returns (h': History)
    requires ClusterOk(c, h) && i in c.nodes && context !in c.contexts
    ensures HistOk(h')
    ensures NodeOk(h', Perform(c.nodes[i], CallStartRead(context), plan))
            && Perform(c.nodes[i], CallStartRead(context), plan).id == i
    ensures forall j :: j in c.nodes && j != i ==> NodeOk(h', c.nodes[j])
    ensures forall m :: m in c.net ==> MessageOk(h', m)
    ensures if MayStartRead(c.nodes[i], context)
            then h' == WithBarrier(h, context, BarrierNow(c, i))
            else h' == h
  {
    hide HistOk, NodeOk, MessageOk, Quorum, BarrierOk, MayStartRead, SendReadContext, Perform, Reading, WithBarrier;
    var n := c.nodes[i];
    var n0 := n.(plan := plan);
    QuietOk(h, n, n0);
    PlanIsIrrelevant(h, n, plan, context);
    if !MayStartRead(n, context) {
      PerformsNothing(n, context, plan);
      h' := h;
    } else {
      var b := BarrierNow(c, i);
      h' := WithBarrier(h, context, b);
      LeaderIsKnown(h, n, context);
      BarrierNowOk(c, h, i, context);
      WithBarrierOk(h, context, b);
      forall j | j in c.nodes && j != i ensures NodeOk(h', c.nodes[j]) { BarrierNode(h, context, b, c.nodes[j]); }
      forall m | m in c.net ensures MessageOk(h', m) { BarrierMessage(h, context, b, m); }
      ReaderOk(c, h, i, context, plan);
    }
  }

  lemma ReaderOk(c: Cluster, h: History, i: NodeId, context: nat, plan: seq<Outcome>)
    requires ClusterOk(c, h) && i in c.nodes && context !in h.barriers && MayStartRead(c.nodes[i], context)
    ensures var n' := Perform(c.nodes[i], CallStartRead(context), plan);
            NodeOk(WithBarrier(h, context, BarrierNow(c, i)), n') && n'.id == i
  {
    hide HistOk, NodeOk, MessageOk, Quorum, BarrierOk, LeaderCore, SendReadContext, Perform, MayStartRead, Reading;
    var n, b := c.nodes[i], BarrierNow(c, i);
    var h' := WithBarrier(h, context, b);
    LeaderIsKnown(h, n, context);
    ReaderCore(c, h, i, context);
    var r := Reading(n, context);
    ReadingNode(h, n, context, b);
    PlanIsIrrelevant(h, n, plan, context);
    PerformsRead(n, context, plan);
    var r1 := Reading(n.(plan := plan), context);
    ReadingFrame(n, context);
    QuietOk(h', r, r1);
    SendReadContextOk(h', r1, 0, context);
  }

  lemma PerformsRead(n: Node, context: nat, plan: seq<Outcome>)
    requires MayStartRead(n.(plan := plan), context)
    ensures Perform(n, CallStartRead(context), plan) == SendReadContext(Reading(n.(plan := plan), context), 0, context)
  {
    hide Step, Tick, Propose, ProposeRequest, ProposeJoint, ProposeFinal, TransferLeadership, ApplyEntries, Drain,
         Compact, StartReadIndex, Reading;
    StartsReading(n.(plan := plan), context);
  }

  lemma PerformsNothing(n: Node, context: nat, plan: seq<Outcome>)
    requires !MayStartRead(n.(plan := plan), context)
    ensures Perform(n, CallStartRead(context), plan) == n.(plan := plan)
  {
    hide Step, Tick, Propose, ProposeRequest, ProposeJoint, ProposeFinal, TransferLeadership, ApplyEntries, Drain,
         Compact, SendReadContext, MayStartRead, Quorum;
  }

  lemma StartsReading(n: Node, context: nat)
    requires MayStartRead(n, context)
    ensures StartReadIndex(n, context) == SendReadContext(Reading(n, context), 0, context)
  {
    hide SendReadContext, MayStartRead, Quorum;
  }

  lemma ReadingFrame(n: Node, context: nat)
    ensures var r := Reading(n, context);
            r.id == n.id && r.role == n.role && r.term == n.term && r.faulted == n.faulted
  {}

  lemma ReadingNode(h: History, n: Node, context: nat, b: Barrier)
    requires NodeOk(h, n) && !n.faulted && n.role == Leader && context !in h.barriers
    requires b.term in h.leaderOf && h.leaderOf[b.term] == b.leader && b.leader == n.id
    requires n.id in b.terms && b.terms[n.id] == n.disk.wal.hard.term
    requires LeaderCore(WithBarrier(h, context, b), Reading(n, context))
    ensures NodeOk(WithBarrier(h, context, b), Reading(n, context))
  {
    hide LogOk, CommitOk, DiskOk, Quorum;
    var h' := WithBarrier(h, context, b);
    var r := Reading(n, context);
    BarrierDisk(h, context, b, n.id, n.disk);
    forall q | q in n.outbound ensures MessageOk(h', q.msg) { BarrierMessage(h, context, b, q.msg); }
    LiveNodeOk(h', r);
  }

  // ------------------------------------------------------------ one step of the cluster

  /** What never changes again: who led a term, what it logged and committed, and every barrier. */
  ghost predicate Later(h: History, h': History) {
    && Grows(h.leaderOf, h'.leaderOf) && Grows(h.barriers, h'.barriers)
    && (forall t :: t in h.llog ==> t in h'.llog && Extends(h'.llog[t], h.llog[t], t))
    && (forall t :: t in h.commits ==> t in h'.commits && h.commits[t] <= h'.commits[t])
  }

  lemma LaterRefl(h: History)
    ensures Later(h, h)
  {
    ExtRefl(h, 0);
  }

  lemma LaterTrans(h: History, h1: History, h2: History)
    requires Later(h, h1) && Later(h1, h2)
    ensures Later(h, h2)
  {
    forall t | t in h.llog ensures t in h2.llog && Extends(h2.llog[t], h.llog[t], t) {
      ExtendsTrans(h.llog[t], h1.llog[t], h2.llog[t], t);
    }
  }

  lemma ExtIsLater(h: History, h': History, i: nat)
    requires Ext(h, h', i)
    ensures Later(h, h')
  {}

  /** Node `i` moved to `n` and everyone else stands still. */
  lemma OneNodeMoved(c: Cluster, h: History, h': History, i: NodeId, n: Node, sent: set<Message>, contexts: set<nat>)
    requires ClusterOk(c, h) && i in c.nodes && Preserved(h, h', i, n)
    requires forall m :: m in sent ==> MessageOk(h', m)
    ensures ClusterOk(Cluster(c.nodes[i := n], c.net + sent, c.contexts + contexts), h')
  {
    hide HistOk, NodeOk, MessageOk;
    var c' := Cluster(c.nodes[i := n], c.net + sent, c.contexts + contexts);
    ExtVoters(h, h', i);
    forall j | j in c'.nodes ensures c'.nodes[j].id == j && NodeOk(h', c'.nodes[j]) {
      if j != i { ExtOtherNode(h, h', i, c.nodes[j]); }
    }
    forall m | m in c'.net ensures MessageOk(h', m) {
      if m in c.net { ExtMessage(h, h', i, m); }
    }
  }

  lemma ExtVoters(h: History, h': History, i: nat)
    requires Ext(h, h', i)
    ensures h'.voters == h.voters && h'.barriers == h.barriers
  {}

  lemma SentOk(h: History, n: Node)
    requires NodeOk(h, n)
    ensures forall m :: m in Messages(n.outbound) ==> MessageOk(h, m)
  {}

  /** The cluster after node `i` was asked to start the read `context`. */
  ghost function AfterRead(c: Cluster, i: NodeId, context: nat, plan: seq<Outcome>): Cluster
    requires i in c.nodes
  {
    var n := Perform(c.nodes[i], CallStartRead(context), plan);
    Cluster(c.nodes[i := n], c.net + Messages(n.outbound), c.contexts + {context})
  }

  lemma ReadStep(c: Cluster, h: History, i: NodeId, context: nat, plan: seq<Outcome>) returns (h': History)
    requires ClusterOk(c, h) && i in c.nodes && context !in c.contexts
    ensures ClusterOk(AfterRead(c, i, context, plan), h') && Later(h, h')
    ensures MayStartRead(c.nodes[i], context) ==> context in h'.barriers && h'.barriers[context] == BarrierNow(c, i)
  {
    hide HistOk, NodeOk, MessageOk, Perform, MayStartRead, Messages, Later, BarrierNow, ClusterOk, WithBarrier;
    ClusterFacts(c, h);
    BarrierAdded(h, context, BarrierNow(c, i));
    h' := StartReadOk(c, h, i, context, plan);
    StartReadIsLater(c, h, h', i, context);
    var n := Perform(c.nodes[i], CallStartRead(context), plan);
    SentOk(h', n);
    ReadMoved(c, h', i, n, Messages(n.outbound), context);
  }

  lemma BarrierAdded(h: History, context: nat, b: Barrier)
    ensures context in WithBarrier(h, context, b).barriers && WithBarrier(h, context, b).barriers[context] == b
    ensures WithBarrier(h, context, b).voters == h.voters
  {}

  lemma ClusterFacts(c: Cluster, h: History)
    requires ClusterOk(c, h)
    ensures c.nodes.Keys == h.voters && h.barriers.Keys <= c.contexts
    ensures forall j :: j in c.nodes ==> c.nodes[j].id == j
  {
    hide HistOk, NodeOk, MessageOk;
  }

  lemma ReadMoved(c: Cluster, h: History, i: NodeId, n: Node, sent: set<Message>, context: nat)
    requires i in c.nodes && HistOk(h) && NodeOk(h, n) && n.id == i
    requires c.nodes.Keys == h.voters && h.barriers.Keys <= c.contexts + {context}
    requires forall j :: j in c.nodes && j != i ==> c.nodes[j].id == j && NodeOk(h, c.nodes[j])
    requires forall m :: m in c.net ==> MessageOk(h, m)
    requires forall m :: m in sent ==> MessageOk(h, m)
    ensures ClusterOk(Cluster(c.nodes[i := n], c.net + sent, c.contexts + {context}), h)
  {
    hide HistOk, NodeOk, MessageOk;
    var c' := Cluster(c.nodes[i := n], c.net + sent, c.contexts + {context});
    assert c'.nodes.Keys == c.nodes.Keys;
  }

  lemma StartReadIsLater(c: Cluster, h: History, h': History, i: NodeId, context: nat)
    requires i in c.nodes && h.barriers.Keys <= c.contexts && context !in c.contexts
    requires h' == h || h' == WithBarrier(h, context, BarrierNow(c, i))
    ensures Later(h, h') && h'.barriers.Keys <= c.contexts + {context}
  {
    LaterRefl(h);
  }

  lemma StepPreserves(c: Cluster, h: History, a: Action, c': Cluster) returns (h': History)
    requires ClusterOk(c, h) && Next(c, a, c')
    ensures ClusterOk(c', h') && Later(h, h')
    ensures a.Act? && a.call.CallStartRead? && MayStartRead(c.nodes[a.node], a.call.context) ==>
              a.call.context in h'.barriers && h'.barriers[a.call.context] == BarrierNow(c, a.node)
  {
    hide HistOk, NodeOk, MessageOk, Perform, Recover, Open, MayStartRead, Ext;
    match a
    case Act(i, call, plan) =>
      if call.CallStartRead? {
        h' := ReadStep(c, h, i, call.context, plan);
        assert c' == AfterRead(c, i, call.context, plan);
      } else {
        h' := PerformOk(h, c.nodes[i], call, plan);
        ExtIsLater(h, h', i);
        var n := Perform(c.nodes[i], call, plan);
        SentOk(h', n);
        OneNodeMoved(c, h, h', i, n, Messages(n.outbound), ContextsOf(call));
      }
    case Restart(i, timeout) =>
      h' := h;
      LaterRefl(h);
      ExtRefl(h, i);
      RestartOk(h, c.nodes[i], timeout);
      var n := Recover(i, c.nodes[i].peers, timeout, Open(c.nodes[i].disk).value);
      OneNodeMoved(c, h, h, i, n, {}, {});
      assert c' == Cluster(c.nodes[i := n], c.net + {}, c.contexts + {});
  }
}
