/**
 A Raft cluster as a transition system: nodes, the messages ever sent, and the read contexts
 ever used. A message stays in the network once sent, so loss, delay, duplication and
 reordering are the freedom to deliver it never, late, often or in any order. A restart
 keeps nothing but the durable state. Voters are fixed, and nothing is compacted before
 RaftCompaction.
 */
module RaftCluster {
  import opened Masks
  import opened RaftTypes
  import opened RaftDisk
  import opened RaftNode
  import opened RaftHistory
  import opened RaftExtend
  import opened RaftFixed
  import opened RaftSteps
  import opened RaftElect
  import opened RaftReplicate

  datatype Cluster = Cluster(nodes: map<NodeId, Node>, net: set<Message>, contexts: set<nat>)

  datatype Action =
    | Act(node: NodeId, call: Call, plan: seq<Outcome>)
    | Restart(node: NodeId, timeout: nat)

  ghost predicate Init(c: Cluster) {
    && c.net == {} && c.contexts == {}
    && forall i :: i in c.nodes ==>
         var n := c.nodes[i];
         n == NewNode(i, n.peers, n.timeout, EMPTY_DISK) && forall p :: p in n.peers <==> p in c.nodes && p != i
  }

  /** Only sent messages are delivered, contexts are unique, and there is no compaction or membership change. */
  ghost predicate Supported(c: Cluster, i: NodeId, call: Call) {
    match call
    case CallStep(m) => m in c.net && m.to == i
    case CallStartRead(context) => context !in c.contexts
    case CallCompact(_, _) => false
    case CallProposeJoint(_) => false
    case CallProposeFinal => false
    case _ => true
  }

  function Messages(outbound: seq<Queued>): set<Message> {
    set q | q in outbound :: q.msg
  }

  function ContextsOf(call: Call): set<nat> {
    if call.CallStartRead? then {call.context} else {}
  }

  ghost predicate Next(c: Cluster, a: Action, c': Cluster) {
    && a.node in c.nodes
    && match a
       case Act(i, call, plan) =>
         var n := Perform(c.nodes[i], call, plan);
         Supported(c, i, call)
         && c' == Cluster(c.nodes[i := n], c.net + Messages(n.outbound), c.contexts + ContextsOf(call))
       case Restart(i, timeout) =>
         var d := Open(c.nodes[i].disk);
         d.Ok? && c' == c.(nodes := c.nodes[i := Recover(i, c.nodes[i].peers, timeout, d.value)])
  }

  // ------------------------------------------------------------ the invariant

  ghost predicate ClusterOk(c: Cluster, h: History) {
    && HistOk(h)
    && c.nodes.Keys == h.voters
    && (forall i :: i in c.nodes ==> c.nodes[i].id == i && NodeOk(h, c.nodes[i]))
    && (forall m :: m in c.net ==> MessageOk(h, m))
    && h.barriers.Keys <= c.contexts
  }

  lemma InitOk(c: Cluster) returns (h: History)
    requires Init(c)
    ensures ClusterOk(c, h)
  {
    hide NodeOk, NewNode;
    h := EmptyHistory(c.nodes.Keys);
    forall i | i in c.nodes ensures NodeOk(h, c.nodes[i]) && c.nodes[i].id == i {
      FreshNodeOk(h.voters, i, c.nodes[i].peers, c.nodes[i].timeout);
    }
  }

  lemma FreshNodeOk(voters: set<nat>, i: NodeId, peers: seq<NodeId>, timeout: nat)
    requires i in voters && forall p :: p in peers <==> p in voters && p != i
    requires forall p :: p in voters ==> 0 < p <= 64
    ensures NodeOk(EmptyHistory(voters), NewNode(i, peers, timeout, EMPTY_DISK))
    ensures NewNode(i, peers, timeout, EMPTY_DISK).id == i
  {
    var n := NewNode(i, peers, timeout, EMPTY_DISK);
    MaskOfMeans([i] + peers);
    assert forall p: nat :: p in Ids(n.votersOld) <==> p in voters;
    assert Ids(n.votersOld) == voters;
  }

  // ------------------------------------------------------------ calls

  lemma OnPreVoteOk(h: History, n: Node, m: Message)
    requires NodeOk(h, n) && !n.faulted && m.PreVote? && m.from != n.id
    ensures NodeOk(h, OnPreVote(n, m))
  {
    hide DiskOk, LiveOk, LogOk, CommitOk;
    var r := PreVoteResponse(n.id, m.from, m.term,
                             !(IsVoter(n, m.from) && m.term >= n.term + 1 && UpToDate(n, m.logIndex, m.logTerm)
                               && !(n.leader != 0 && n.elapsed < n.timeout)));
    SendOk(h, n, r);
  }

  lemma OnPreVoteResponseOk(h: History, n: Node, m: Message) returns (h': History)
    requires HistOk(h) && NodeOk(h, n) && !n.faulted && m.PreVoteResponse?
    ensures Preserved(h, h', n.id, OnPreVoteResponse(n, m))
  {
    hide HistOk, NodeOk, Ext, StartElection, IsVoter, Quorum;
    ExtRefl(h, n.id);
    h' := h;
    if n.role != Leader && IsVoter(n, m.from) && m.term == n.term + 1 && m.term == n.preVoteTerm && !m.reject {
      var n1 := n.(preVoteMask := Or(n.preVoteMask, NodeBit(m.from)));
      QuietOk(h, n, n1);
      if Quorum(n1, n1.preVoteMask) { h' := StartElectionOk(h, n1); }
    }
  }

  lemma OnVoteResponseOk(h: History, n: Node, m: Message) returns (h': History)
    requires HistOk(h) && NodeOk(h, n) && !n.faulted && m.RequestVoteResponse? && MessageOk(h, m) && m.to == n.id
    ensures Preserved(h, h', n.id, OnVoteResponse(n, m))
  {
    hide HistOk, NodeOk, Ext, BecomeLeader, IsVoter, Quorum, LogOk, DiskOk, CommitOk;
    ExtRefl(h, n.id);
    h' := h;
    if n.role == Candidate && IsVoter(n, m.from) && m.term == n.term && !m.reject {
      var n1 := n.(voteMask := Or(n.voteMask, NodeBit(m.from)));
      Facts(h, n);
      RecordingAddsSender(n.voteMask, m.from);
      LiveNodeOk(h, n1);
      NodeIsPlain(h, n1);
      QuorumFixed(n1, n1.voteMask);
      if Quorum(n1, n1.voteMask) { h' := BecomeLeaderOk(h, n1); }
    }
  }

  lemma OnSnapshotOk(h: History, n: Node, m: Message)
    requires NodeOk(h, n) && !n.faulted && MessageOk(h, m) && m.to == n.id
    requires m.InstallSnapshot? || m.InstallSnapshotResponse?
    ensures NodeOk(h, Dispatch(n, m))
  {
    hide DiskOk, LiveOk, LogOk, CommitOk, IsVoter, Install;
    if m.InstallSnapshot? {
      SendOk(h, n, InstallSnapshotResponse(n.id, m.from, n.term, true, n.baseIndex));
    }
  }

  lemma DispatchOk(h: History, n: Node, m: Message) returns (h': History)
    requires HistOk(h) && NodeOk(h, n) && !n.faulted && MessageOk(h, m) && m.to == n.id
    requires !IsPreVote(m) ==> m.term <= n.term
    ensures Preserved(h, h', n.id, Dispatch(n, m))
  {
    hide HistOk, NodeOk, Ext, StartElection, OnPreVote, OnPreVoteResponse, OnVote, OnVoteResponse, OnAppend,
         OnAppendResponse, OnInstallSnapshot, OnInstallSnapshotResponse;
    ExtRefl(h, n.id);
    h' := h;
    SenderIsOther(h, m);
    match m
    case PreVote(_, _, _, _, _) => OnPreVoteOk(h, n, m); OnPreVoteFrame(n, m);
    case PreVoteResponse(_, _, _, _) => h' := OnPreVoteResponseOk(h, n, m);
    case RequestVote(_, _, _, _, _) => h' := OnVoteOk(h, n, m);
    case RequestVoteResponse(_, _, _, _) => h' := OnVoteResponseOk(h, n, m);
    case Append(_, _, _, _, _, _, _, _) => h' := OnAppendOk(h, n, m);
    case AppendResponse(_, _, _, _, _, _) => h' := OnAppendResponseOk(h, n, m);
    case TimeoutNow(_, _, _) =>
      if n.role == Follower && m.term == n.term && m.from == n.leader { h' := StartElectionOk(h, n); }
    case InstallSnapshot(_, _, _, _) => OnSnapshotOk(h, n, m); OnSnapshotFrame(h, n, m);
    case InstallSnapshotResponse(_, _, _, _, _) => OnSnapshotOk(h, n, m); OnSnapshotFrame(h, n, m);
  }

  lemma SenderIsOther(h: History, m: Message)
    requires MessageOk(h, m)
    ensures m.from != m.to
  {}

  lemma OnPreVoteFrame(n: Node, m: Message)
    requires m.PreVote?
    ensures OnPreVote(n, m).id == n.id
  {}

  lemma OnSnapshotFrame(h: History, n: Node, m: Message)
    requires MessageOk(h, m) && (m.InstallSnapshot? || m.InstallSnapshotResponse?)
    ensures Dispatch(n, m).id == n.id
  {
    hide IsVoter, Install;
  }

  lemma StepOk(h: History, n: Node, m: Message) returns (h': History)
    requires HistOk(h) && NodeOk(h, n) && MessageOk(h, m) && m.to == n.id
    ensures Preserved(h, h', n.id, Step(n, m))
  {
    hide HistOk, NodeOk, Ext, ObserveTerm, Dispatch, MessageOk;
    ExtRefl(h, n.id);
    h' := h;
    if !n.faulted {
      var h1 := ObserveTermOk(h, n, m);
      h' := h1;
      var (n1, ok) := ObserveTerm(n, m);
      if ok {
        ExtMessage(h, h1, n.id, m);
        h' := DispatchOk(h1, n1, m);
        PreservedTrans(h, h1, h', n.id, n1, Dispatch(n1, m));
      }
    }
  }

  lemma TickOk(h: History, n: Node) returns (h': History)
    requires HistOk(h) && NodeOk(h, n)
    ensures Preserved(h, h', n.id, Tick(n))
  {
    hide HistOk, NodeOk, Ext, StartPreVote, Broadcast;
    ExtRefl(h, n.id);
    h' := h;
    if !n.faulted {
      var n1 := n.(elapsed := n.elapsed + 1);
      QuietOk(h, n, n1);
      if n1.role == Leader {
        if n1.elapsed >= 3 {
          var n2 := n1.(elapsed := 0);
          QuietOk(h, n1, n2);
          WholeBroadcast(h, n2);
        }
      } else if n1.elapsed >= n1.timeout {
        h' := StartPreVoteOk(h, n1);
      }
    }
  }

  lemma TransferOk(h: History, n: Node, target: NodeId)
    requires NodeOk(h, n)
    ensures var n' := TransferLeadership(n, target); NodeOk(h, n') && n'.id == n.id
  {
    hide DiskOk, LogOk, CommitOk, IsVoter;
    if n.role == Leader && target != n.id && IsVoter(n, target) {
      if At(n.matched, target) < LastIndex(n) {
        AppendToOk(h, n, target, 0);
      } else {
        SendOk(h, n, TimeoutNow(n.id, target, n.term));
      }
    }
  }

  lemma DrainOk(h: History, n: Node)
    requires NodeOk(h, n)
    ensures NodeOk(h, Drain(n))
  {
    assert n.role == Leader && !n.faulted && BarrierHolds(h, n) ==> BarrierHolds(h, Drain(n));
  }

  lemma ProposalsArePlain(term: nat, command: nat, operation: nat, c: nat, r: nat, k: nat, v: nat)
    ensures Plain(Sentinel(term).(command := command))
    ensures Plain(Entry(term, 0, KIND_NORMAL, 0, 0, operation, c, r, k, v))
  {}

  /** Every call but the start of a read barrier. */
  lemma PerformOk(h: History, n: Node, call: Call, plan: seq<Outcome>) returns (h': History)
    requires HistOk(h) && NodeOk(h, n)
    requires !call.CallCompact? && !call.CallProposeJoint? && !call.CallProposeFinal? && !call.CallStartRead?
    requires call.CallStep? ==> MessageOk(h, call.m) && call.m.to == n.id
    ensures Preserved(h, h', n.id, Perform(n, call, plan))
  {
    hide HistOk, NodeOk, Ext, MessageOk, Step, Tick, ProposeEntry, TransferLeadership, Plain;
    var n0 := n.(plan := plan);
    QuietOk(h, n, n0);
    ExtRefl(h, n.id);
    h' := h;
    match call
    case CallStep(m) => h' := StepOk(h, n0, m);
    case CallTick => h' := TickOk(h, n0);
    case CallPropose(command) =>
      ProposalsArePlain(n.term, command, 0, 0, 0, 0, 0);
      if n0.role == Leader && !n0.faulted {
        h' := ProposeEntryOk(h, n0, Sentinel(n0.term).(command := command));
      }
    case CallProposeRequest(op, c, r, k, v) =>
      ProposalsArePlain(n.term, 0, op, c, r, k, v);
      if ProposeRequest(n0, op, c, r, k, v) != n0 {
        h' := ProposeEntryOk(h, n0, Entry(n0.term, 0, KIND_NORMAL, 0, 0, op, c, r, k, v));
      }
    case CallTransfer(target) => TransferOk(h, n0, target);
    case CallApply => QuietOk(h, n0, ApplyEntries(n0));
    case CallDrain => DrainOk(h, n0);
  }

  // ------------------------------------------------------------ restart

  /** Restart rebuilds the node the disk describes, as a follower. */
  lemma RestartOk(h: History, n: Node, timeout: nat)
    requires HistOk(h) && NodeOk(h, n)
    ensures Open(n.disk).Ok?
    ensures var r := Recover(n.id, n.peers, timeout, Open(n.disk).value);
            NodeOk(h, r) && r.id == n.id && !r.faulted && r.outbound == []
  {
    hide HistOk, CommitOk, LogOk, RetainsAll;
    Facts(h, n);
    var d := Fresh(n.disk.wal, n.disk.image);
    RestartLog(h, d.wal.data);
    RestartCommit(h, d.wal.data, d.wal.hard.commit, d.wal.hard.term);
    assert Open(n.disk) == Ok(d);
    var hard := d.wal.hard;
    var r := NewNode(n.id, n.peers, timeout, d).(term := hard.term, votedFor := hard.votedFor, commit := hard.commit,
                                                log := [Sentinel(0)] + d.wal.data[1..]);
    MaskOfMeans([n.id] + n.peers);
    assert forall p: nat :: p in Ids(r.votersOld) <==> p in h.voters;
    assert Ids(r.votersOld) == h.voters;
    LiveNodeOk(h, r);
    NodeIsPlain(h, r);
    PlainLog(h, r.log);
    RestoreFixed(r, 1);
  }

  lemma RestartLog(h: History, log: Log)
    requires LogOk(h, log)
    ensures [Sentinel(0)] + log[1..] == log
  {}

  lemma RestartCommit(h: History, log: Log, commit: nat, term: nat)
    requires CommitOk(h, log, commit, term)
    ensures commit < |log|
  {}
}
