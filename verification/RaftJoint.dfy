/**
 The joint rule over whole runs of one node: whenever a call makes the node itself move its
 commit index past a joint entry, and that entry is the only pending one, majorities of the
 old and of the new voters hold the new commit index.
 */
module RaftJoint {
  import opened Masks
  import opened RaftTypes
  import opened RaftDisk
  import opened RaftNode
  import opened RaftDurable
  import opened RaftMembership

  /** The node and the peers it knows to hold the index. */
  function Holders(n: Node, index: nat): set<nat> {
    {n.id} + Matching(n, index, |n.peers|)
  }

  /** Between `commit` and the node's commit index there is one joint entry, at `j`. */
  predicate Passed(commit: nat, n: Node, j: nat) {
    OnlyJoint(n.(commit := commit), j, n.commit)
  }

  /** The rule, for the ids `holders`, about a commit index that was at `commit` before. */
  ghost predicate Ruled(commit: nat, n: Node, holders: set<nat>) {
    forall j: nat :: Passed(commit, n, j) ==> BothMajorities(EntryAt(n, j), holders)
  }

  ghost predicate Decided(commit: nat, n: Node) {
    Ruled(commit, n, Holders(n, n.commit))
  }

  lemma SameDecides(commit: nat, n: Node)
    requires n.commit <= commit
    ensures forall holders :: Ruled(commit, n, holders)
  {}

  lemma MoreHolders(e: Entry, a: set<nat>, b: set<nat>)
    requires BothMajorities(e, a) && a <= b
    ensures BothMajorities(e, b)
  {
    MoreMajority(Ids(e.oldVoters), a, b);
    if e.newVoters != 0 { MoreMajority(Ids(e.newVoters), a, b); }
  }

  lemma MoreMajority(voters: set<nat>, a: set<nat>, b: set<nat>)
    requires Majority(voters, a) && a <= b
    ensures Majority(voters, b)
  {
    assert voters * a <= voters * b;
    Subset(voters * a, voters * b);
  }

  /** The rule survives whatever leaves the core alone and loses no holder. */
  lemma RuledLater(commit: nat, n: Node, a: set<nat>, n': Node, b: set<nat>)
    requires Ruled(commit, n, a) && SameCore(n, n') && a <= b
    ensures Ruled(commit, n', b)
  {
    hide BothMajorities;
    forall j: nat | Passed(commit, n', j) ensures BothMajorities(EntryAt(n', j), b) {
      SamePassed(commit, n, n', j);
      MoreHolders(EntryAt(n, j), a, b);
    }
  }

  lemma SamePassed(commit: nat, n: Node, n': Node, j: nat)
    requires Passed(commit, n', j) && n'.log == n.log && n'.baseIndex == n.baseIndex && n'.commit == n.commit
    ensures Passed(commit, n, j) && EntryAt(n, j) == EntryAt(n', j)
  {
    var a, b := n.(commit := commit), n'.(commit := commit);
    forall i: nat ensures IsJoint(a, i) == IsJoint(b, i) {}
  }

  // ------------------------------------------------------------ deciding alone

  /** The node itself holds what it commits at once. */
  lemma AppendLocalDecides(n: Node, e: Entry)
    requires n.baseIndex <= n.commit
    ensures var (r, ok) := AppendLocal(n, e); Ruled(n.commit, r, {r.id}) && r.id == n.id
  {
    hide Write, ApplyConfigurations, Majority, Quorum;
    var attempt := AppendEntry(n.disk, LastIndex(n) + 1, e);
    WriteFrame(n, attempt);
    WriteKeeps(n, attempt);
    var (n1, ok) := Write(n, attempt);
    var (r, done) := AppendLocal(n, e);
    if ok {
      var n2 := n1.(log := n1.log + [e]);
      if Quorum(n2, NodeBit(n2.id)) {
        var hard := HardState(n2.term, n2.votedFor, LastIndex(n2));
        WriteFrame(n2, SaveHard(n2.disk, hard));
        WriteKeeps(n2, SaveHard(n2.disk, hard));
        var (n3, stored) := PersistHard(n2, hard);
        if stored {
          var n4 := n3.(commit := LastIndex(n2));
          ApplyingKeeps(n4, Max(n.commit, n4.baseIndex) + 1, n4.commit);
          AloneRules(n2, n4);
          RuledLater(n.commit, n4, {n.id}, r, {n.id});
        } else {
          SameDecides(n.commit, r);
        }
      } else {
        SameDecides(n.commit, r);
      }
    } else {
      SameDecides(n.commit, r);
    }
  }

  lemma WriteKeeps(n: Node, attempt: Result<Disk>)
    ensures Write(n, attempt).0.commit == n.commit && Write(n, attempt).0.id == n.id
  {}

  /** A quorum of the node alone is a quorum of the last pending change. */
  lemma AloneRules(n: Node, n': Node)
    requires n.baseIndex <= n.commit && Quorum(n, NodeBit(n.id))
    requires n' == n.(disk := n'.disk, plan := n'.plan, commit := LastIndex(n))
    ensures Ruled(n.commit, n', {n.id})
  {
    hide Majority;
    forall j: nat | Passed(n.commit, n', j) ensures BothMajorities(EntryAt(n', j), {n.id}) {
      forall i: nat ensures IsJoint(n, i) == IsJoint(n'.(commit := n.commit), i) {}
      VotersOfLastJoint(n, n.commit + 1, LastIndex(n), j);
      SingleBit(n.id);
    }
  }

  /** Afterwards only messages are queued and progress is reset. */
  lemma AloneLater(commit: nat, n: Node, n': Node)
    requires Ruled(commit, n, {n.id}) && SameCore(n, n')
    ensures Decided(commit, n')
  {
    RuledLater(commit, n, {n.id}, n', Holders(n', n'.commit));
  }

  lemma BecomeLeaderDecides(n: Node)
    requires n.baseIndex <= n.commit
    ensures Decided(n.commit, BecomeLeader(n))
  {
    hide AppendLocal, BroadcastFrom, Ruled;
    var n0 := n.(role := Leader, leader := n.id, elapsed := 0);
    AppendLocalDecides(n0, NoopEntry(n.term));
    var (n1, ok) := AppendLocal(n0, NoopEntry(n.term));
    if ok {
      var last := LastIndex(n1) + 1;
      var n2 := n1.(next := Reset(n1.next, n1.peers, last), matched := Reset(n1.matched, n1.peers, 0));
      BroadcastKeeps(n2, 0);
      AloneLater(n.commit, n1, Broadcast(n2));
    } else {
      AloneLater(n.commit, n1, n1);
    }
  }

  lemma {:induction false} SendingKeeps(n: Node, k: nat, message: NodeId -> Message)
    ensures SameCore(n, SendToPeers(n, k, message))
    decreases |n.peers| - k
  {
    if k < |n.peers| { SendingKeeps(Send(n, message(n.peers[k])), k + 1, message); }
  }

  lemma StartElectionDecides(n: Node)
    requires n.baseIndex <= n.commit
    ensures Decided(n.commit, StartElection(n))
  {
    hide Write, BecomeLeader, SendToPeers, Quorum, Ruled;
    var hard := HardState(n.term + 1, n.id, n.commit);
    WriteFrame(n, SaveHard(n.disk, hard));
    WriteKeeps(n, SaveHard(n.disk, hard));
    var (n1, ok) := PersistHard(n, hard);
    SameDecides(n.commit, n1);
    if ok {
      var n2 := n1.(role := Candidate, term := n.term + 1, votedFor := n.id, elapsed := 0,
                    voteMask := NodeBit(n.id), preVoteMask := 0);
      var last := LastIndex(n2);
      var message := (p: NodeId) => RequestVote(n2.id, p, n2.term, last, TermAt(n2, last));
      SendingKeeps(n2, 0, message);
      var n3 := SendToPeers(n2, 0, message);
      SameDecides(n.commit, n3);
      BecomeLeaderDecides(n3);
    }
  }

  lemma StartPreVoteDecides(n: Node)
    requires n.baseIndex <= n.commit
    ensures Decided(n.commit, StartPreVote(n))
  {
    hide StartElection, SendToPeers, Quorum, Ruled;
    var n1 := n.(elapsed := 0, preVoteTerm := n.term + 1, leader := 0, preVoteMask := NodeBit(n.id));
    var last := LastIndex(n1);
    var message := (p: NodeId) => PreVote(n1.id, p, n1.preVoteTerm, last, TermAt(n1, last));
    SendingKeeps(n1, 0, message);
    var n2 := SendToPeers(n1, 0, message);
    SameDecides(n.commit, n2);
    StartElectionDecides(n2);
  }

  /** An own entry, and then a broadcast from a node that differs in nothing the rule reads. */
  lemma ProposalDecides(n: Node, e: Entry)
    requires n.baseIndex <= n.commit
    ensures var (n1, ok) := AppendLocal(n, e);
            forall pending :: Decided(n.commit, if ok then Broadcast(n1.(pendingConfig := pending)) else n1)
  {
    hide AppendLocal, BroadcastFrom, Ruled;
    AppendLocalDecides(n, e);
    var (n1, ok) := AppendLocal(n, e);
    forall pending ensures Decided(n.commit, if ok then Broadcast(n1.(pendingConfig := pending)) else n1) {
      var n2 := n1.(pendingConfig := pending);
      BroadcastKeeps(n2, 0);
      AloneLater(n.commit, n1, if ok then Broadcast(n2) else n1);
    }
  }

  // ------------------------------------------------------------ deciding with acknowledgements

  /** Applying configurations adds peers that hold nothing yet, and forgets none. */
  lemma {:induction false} EnsuringKeepsHolders(n: Node, mask: Mask, id: nat, index: nat)
    ensures Holders(n, index) <= Holders(EnsurePeersFrom(n, mask, id), index)
    decreases 65 - id
  {
    if id == 0 || id > 64 {
    } else if id == n.id || id !in Ids(mask) || id in n.peers {
      EnsuringKeepsHolders(n, mask, id + 1, index);
    } else {
      var n1 := n.(peers := n.peers + [id], next := n.next[id := LastIndex(n) + 1], matched := n.matched[id := 0]);
      forall x | x in Matching(n, index, |n.peers|) ensures x in Matching(n1, index, |n1.peers|) {
        var i: nat :| i < |n.peers| && At(n.matched, n.peers[i]) >= index && n.peers[i] == x;
        assert n1.peers[i] == x && x != id;
      }
      EnsuringKeepsHolders(n1, mask, id + 1, index);
    }
  }

  lemma ApplyingOneKeepsHolders(n: Node, at: nat, index: nat)
    ensures Holders(n, index) <= Holders(ApplyConfiguration(n, at), index)
  {
    hide EnsurePeersFrom, IsVoter, Holders;
    var e := EntryAt(n, at);
    var r := ApplyConfiguration(n, at);
    if e.kind == KIND_JOINT {
      var n0 := n.(votersOld := e.oldVoters, votersNew := e.newVoters);
      SamePeers(n, n0, index);
      EnsuringKeepsHolders(n0, Or(e.oldVoters, e.newVoters), 1, index);
      SamePeers(EnsurePeers(n0, Or(e.oldVoters, e.newVoters)), r, index);
    } else {
      SamePeers(n, r, index);
    }
  }

  lemma SamePeers(n: Node, n': Node, index: nat)
    ensures n'.peers == n.peers && n'.matched == n.matched && n'.id == n.id ==> Holders(n', index) == Holders(n, index)
  {
    if n'.peers == n.peers && n'.matched == n.matched {
      assert Matching(n', index, |n'.peers|) == Matching(n, index, |n.peers|);
    }
  }

  lemma {:induction false} ApplyingKeepsHolders(n: Node, first: nat, last: nat, index: nat)
    ensures Holders(n, index) <= Holders(ApplyConfigurations(n, first, last), index)
    decreases last + 1 - first
  {
    hide ApplyConfiguration, Holders;
    if first <= last {
      ApplyingOneKeepsHolders(n, first, index);
      ApplyingKeepsHolders(ApplyConfiguration(n, first), first + 1, last, index);
    }
  }

  lemma AppendingKeepsHolders(n: Node, p: NodeId, context: nat)
    ensures var r := AppendToContext(n, p, context);
            r.peers == n.peers && r.matched == n.matched && SameCore(n, r)
  {}

  lemma {:induction false} BroadcastKeepsPeers(n: Node, k: nat)
    ensures BroadcastFrom(n, k).peers == n.peers && BroadcastFrom(n, k).matched == n.matched
    decreases |n.peers| - k
  {
    hide IsVoter, AppendToContext;
    if k < |n.peers| {
      AppendingKeepsHolders(n, n.peers[k], 0);
      BroadcastKeepsPeers(if IsVoter(n, n.peers[k]) then AppendTo(n, n.peers[k]) else n, k + 1);
    }
  }

  lemma CommitScanRules(n: Node, target: nat)
    requires target == HighestCommittable(n, LastIndex(n)) && target > n.commit
    ensures Ruled(n.commit, n.(commit := target), Holders(n, target))
  {
    hide Majority, HighestCommittable, Acked;
    assert CanCommit(n, target, Acked(n, target)) by { ScanFinds(n); }
    forall j: nat | Passed(n.commit, n.(commit := target), j)
      ensures BothMajorities(EntryAt(n, j), Holders(n, target))
    {
      assert n.(commit := target).(commit := n.commit) == n;
      VotersOfLastJoint(n, n.commit + 1, target, j);
      AckedAreHolders(n, target);
    }
  }

  lemma ScanFinds(n: Node)
    ensures var k := HighestCommittable(n, LastIndex(n)); k > n.commit ==> CanCommit(n, k, Acked(n, k))
  {}

  lemma AckedAreHolders(n: Node, index: nat)
    ensures Ids(Acked(n, index)) == Holders(n, index)
  {
    AckedMembers(n, index, |n.peers|);
  }

  lemma LeaderCommitDecides(n: Node)
    ensures var (r, ok) := LeaderCommit(n); Decided(n.commit, r)
  {
    hide Write, ApplyConfigurations, BroadcastFrom, HighestCommittable, Ruled, Holders;
    var target := HighestCommittable(n, LastIndex(n));
    var (r, ok) := LeaderCommit(n);
    if target == n.commit {
      SameDecides(n.commit, r);
    } else {
      var hard := HardState(n.term, n.votedFor, target);
      WriteFrame(n, SaveHard(n.disk, hard));
      WriteKeeps(n, SaveHard(n.disk, hard));
      var (n1, stored) := PersistHard(n, hard);
      if !stored {
        SameDecides(n.commit, r);
      } else {
        TargetAbove(n);
        CommitScanRules(n, target);
        var n2 := n1.(commit := target);
        SamePeers(n, n2, target);
        var n3 := ApplyCommitted(n2, n.commit);
        ApplyingKeeps(n2, Max(n.commit, n2.baseIndex) + 1, target);
        ApplyingKeepsHolders(n2, Max(n.commit, n2.baseIndex) + 1, target, target);
        BroadcastKeeps(n3, 0);
        BroadcastKeepsPeers(n3, 0);
        SamePeers(n3, r, target);
        RuledAfterScan(n, target, n2, r);
      }
    }
  }

  lemma TargetAbove(n: Node)
    ensures HighestCommittable(n, LastIndex(n)) >= n.commit
  {}

  lemma RuledAfterScan(n: Node, target: nat, n2: Node, r: Node)
    requires Ruled(n.commit, n.(commit := target), Holders(n, target)) && Holders(n, target) <= Holders(r, target)
    requires n2 == n.(disk := n2.disk, plan := n2.plan, commit := target) && SameCore(n2, r)
    ensures Decided(n.commit, r)
  {
    hide Holders;
    var n0 := n.(commit := target, disk := n2.disk);
    RuledDisk(n.commit, n.(commit := target), n0, Holders(n, target));
    RuledLater(n.commit, n0, Holders(n, target), r, Holders(r, target));
  }

  lemma RuledDisk(commit: nat, n: Node, n': Node, holders: set<nat>)
    requires Ruled(commit, n, holders) && n' == n.(disk := n'.disk)
    ensures Ruled(commit, n', holders)
  {
    forall j: nat | Passed(commit, n', j) ensures BothMajorities(EntryAt(n', j), holders) {
      SamePassed(commit, n, n', j);
    }
  }

  lemma OnAppendResponseDecides(n: Node, m: Message)
    requires m.AppendResponse?
    ensures Decided(n.commit, OnAppendResponse(n, m))
  {
    hide LeaderCommit, AppendToContext, Quorum, IsVoter, Ruled, Holders;
    var n1 := RecordReadAck(n, m);
    var r := OnAppendResponse(n, m);
    if n1.role != Leader || m.term != n1.term || m.matched >= LastIndex(n1) + 1 {
      SameDecides(n.commit, r);
    } else if m.reject {
      var next := At(n1.next, m.from);
      AppendingKeepsHolders(if next > 1 then n1.(next := n1.next[m.from := next - 1]) else n1, m.from, 0);
      SameDecides(n.commit, r);
    } else {
      var n2 := n1.(matched := n1.matched[m.from := m.matched], next := n1.next[m.from := m.matched + 1]);
      LeaderCommitDecides(n2);
      var n3 := LeaderCommit(n2).0;
      AppendingKeepsHolders(n3, m.from, 0);
      SamePeers(n3, r, n3.commit);
      RuledLater(n.commit, n3, Holders(n3, n3.commit), r, Holders(r, r.commit));
    }
  }

  // ------------------------------------------------------------ every call

  /** The node follows somebody else's commit index only when it is told to by a leader. */
  predicate OwnDecision(call: Call) {
    !(call.CallStep? && (call.m.Append? || call.m.InstallSnapshot?))
  }

  lemma DispatchDecides(n: Node, m: Message)
    requires n.baseIndex <= n.commit && !m.Append? && !m.InstallSnapshot?
    ensures Decided(n.commit, Dispatch(n, m))
  {
    hide StartElection, BecomeLeader, IsVoter, Quorum, OnAppendResponse, AppendToContext, UpToDate, Write, Ruled;
    match m
    case PreVote(_, _, _, _, _) => SameDecides(n.commit, OnPreVote(n, m));
    case PreVoteResponse(_, _, _, _) =>
      var n1 := n.(preVoteMask := Or(n.preVoteMask, NodeBit(m.from)));
      SameDecides(n.commit, n);
      SameDecides(n.commit, n1);
      StartElectionDecides(n1);
    case RequestVote(_, _, _, _, _) =>
      var hard := HardState(n.term, m.from, n.commit);
      WriteFrame(n, SaveHard(n.disk, hard));
      WriteKeeps(n, SaveHard(n.disk, hard));
      SameDecides(n.commit, OnVote(n, m));
    case RequestVoteResponse(_, _, _, _) =>
      var n1 := n.(voteMask := Or(n.voteMask, NodeBit(m.from)));
      SameDecides(n.commit, n);
      SameDecides(n.commit, n1);
      BecomeLeaderDecides(n1);
    case AppendResponse(_, _, _, _, _, _) => OnAppendResponseDecides(n, m);
    case TimeoutNow(_, _, _) =>
      SameDecides(n.commit, n);
      StartElectionDecides(n);
    case InstallSnapshotResponse(_, _, _, _, _) =>
      var n1 := if m.matched > At(n.matched, m.from)
                then n.(matched := n.matched[m.from := m.matched], next := n.next[m.from := m.matched + 1]) else n;
      AppendingKeepsHolders(n1, m.from, 0);
      SameDecides(n.commit, OnInstallSnapshotResponse(n, m));
  }

  lemma StepDecides(n: Node, m: Message)
    requires n.baseIndex <= n.commit && !m.Append? && !m.InstallSnapshot?
    ensures Decided(n.commit, Step(n, m))
  {
    hide Write, Dispatch, Ruled;
    var hard := HardState(m.term, 0, n.commit);
    WriteFrame(n, SaveHard(n.disk, hard));
    WriteKeeps(n, SaveHard(n.disk, hard));
    SameDecides(n.commit, n);
    var (n1, ok) := ObserveTerm(n, m);
    SameDecides(n.commit, n1);
    if ok { DispatchDecides(n1, m); }
  }

  lemma TickDecides(n: Node)
    requires n.baseIndex <= n.commit
    ensures Decided(n.commit, Tick(n))
  {
    hide StartPreVote, BroadcastFrom, Ruled;
    var n1 := n.(elapsed := n.elapsed + 1);
    SameDecides(n.commit, n);
    SameDecides(n.commit, n1);
    BroadcastKeeps(n1.(elapsed := 0), 0);
    SameDecides(n.commit, Broadcast(n1.(elapsed := 0)));
    StartPreVoteDecides(n1);
  }

  lemma {:induction false} ReadContextKeeps(n: Node, k: nat, context: nat)
    ensures SameCore(n, SendReadContext(n, k, context))
    decreases |n.peers| - k
  {
    hide AppendToContext;
    if k < |n.peers| {
      AppendingKeepsHolders(n, n.peers[k], context);
      ReadContextKeeps(AppendToContext(n, n.peers[k], context), k + 1, context);
    }
  }

  lemma CompactKeepsCommit(n: Node, index: nat, state: seq<Bytes.byte>)
    ensures Compact(n, index, state).commit == n.commit
  {
    hide Write, SaveSnapshot, CompactLog;
    var snap := Snapshot(index, TermAt(n, index), state, n.votersOld, n.votersNew);
    WriteKeeps(n, SaveSnapshot(n.disk, snap));
    var n1 := Write(n, SaveSnapshot(n.disk, snap)).0;
    WriteKeeps(n1, CompactLog(n1.disk, index));
  }

  lemma ProposeJointDecides(n: Node, w: Mask)
    requires n.baseIndex <= n.commit
    ensures Decided(n.commit, ProposeJoint(n, w)) && Decided(n.commit, ProposeFinal(n))
  {
    hide AppendLocal, Broadcast, EnsurePeersFrom, Ruled;
    SameDecides(n.commit, n);
    var n1 := EnsurePeers(n, w);
    ProposalDecides(n1, Entry(n1.term, 0, KIND_JOINT, n1.votersOld, w, OP_LEGACY, 0, 0, 0, 0));
    ProposalDecides(n, Entry(n.term, 0, KIND_FINAL, n.votersNew, 0, OP_LEGACY, 0, 0, 0, 0));
  }

  lemma ProposeDecides(n: Node, e: Entry)
    requires n.baseIndex <= n.commit
    ensures Decided(n.commit, ProposeEntry(n, e))
  {
    hide AppendLocal, Broadcast, Decided;
    ProposalDecides(n, e);
    var n1 := AppendLocal(n, e).0;
    assert n1.(pendingConfig := n1.pendingConfig) == n1;
  }

  lemma PerformDecides(n: Node, call: Call, plan: seq<Outcome>)
    requires n.baseIndex <= n.commit && OwnDecision(call)
    ensures Decided(n.commit, Perform(n, call, plan))
  {
    hide Step, Tick, ProposeEntry, ProposeJoint, ProposeFinal, SendReadContext, AppendToContext, Compact, IsVoter,
         Quorum, Decided;
    var n0 := n.(plan := plan);
    StandsDecided(n0, n0);
    match call
    case CallStep(m) => StepDecides(n0, m);
    case CallTick => TickDecides(n0);
    case CallPropose(command) => ProposeDecides(n0, Sentinel(n0.term).(command := command));
    case CallProposeRequest(op, client, r, k, v) =>
      ProposeDecides(n0, Entry(n0.term, 0, KIND_NORMAL, 0, 0, op, client, r, k, v));
    case CallProposeJoint(w) => ProposeJointDecides(n0, w);
    case CallProposeFinal => ProposeJointDecides(n0, 0);
    case CallStartRead(context) =>
      var ready := Quorum(n0, NodeBit(n0.id));
      var n1 := n0.(readContext := context, readAckMask := NodeBit(n0.id), readReady := ready,
                    readIndex := if ready then n0.commit else n0.readIndex);
      ReadContextKeeps(n1, 0, context);
      StandsDecided(n0, StartReadIndex(n0, context));
    case CallTransfer(target) =>
      AppendingKeepsHolders(n0, target, 0);
      StandsDecided(n0, TransferLeadership(n0, target));
    case CallApply => StandsDecided(n0, ApplyEntries(n0));
    case CallDrain => StandsDecided(n0, Drain(n0));
    case CallCompact(index, state) =>
      CompactKeepsCommit(n0, index, state);
      StandsDecided(n0, Compact(n0, index, state));
  }

  lemma StandsDecided(n: Node, n': Node)
    requires n'.commit == n.commit
    ensures Decided(n.commit, n')
  {}

  /**
   Over every run with failures and restarts: when a call other than a leader's Append or
   snapshot moves the commit index past a joint entry, and no other joint entry is passed,
   the ids that the node then knows to hold its commit index are majorities of both sets.
   */
  lemma EveryCommitHasBothMajorities(states: seq<Node>, steps: seq<NodeStep>, k: nat, j: nat)
    requires NodeRun(states, steps) && k < |steps| && steps[k].Do? && OwnDecision(steps[k].call)
    requires Passed(states[k].commit, states[k + 1], j)
    ensures BothMajorities(EntryAt(states[k + 1], j), Holders(states[k + 1], states[k + 1].commit))
  {
    hide Perform, Recover, NewNode, BothMajorities, Holders;
    EveryStateIsSound(false, states, steps, k);
    assert StepsTo(states[k], steps[k], states[k + 1]);
    if states[k].faulted {
      FaultedStays(states[k], steps[k].call, steps[k].plan);
    } else {
      PerformDecides(states[k], steps[k].call, steps[k].plan);
    }
  }
}
