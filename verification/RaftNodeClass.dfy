/**
 The Raft node as raft/node.go has it: an object updated in place, with loops over peers
 and indexes. The fields of the Go struct are the fields of the record `n`; each method is
 proved to leave in `n` what the functions of RaftNode say.
 */
module RaftNodeClass {
  import opened Masks
  import opened RaftTypes
  import opened RaftDisk
  import N = RaftNode
  import M = RaftMembership
  import opened Bytes

  class RaftNode {
    var n: N.Node

    /** NewNodeWithStore; the source panics on a repeated id. */
    constructor (id: NodeId, peers: seq<NodeId>, timeout: nat, disk: Disk)
      requires Distinct([id] + peers)
      ensures n == N.NewNode(id, peers, timeout, disk)
    {
      var blank := Blank(id, peers, timeout, disk);
      n := blank;
    }

    /** NewRecoveredNode: a restart from the log alone. */
    constructor Recovered(id: NodeId, peers: seq<NodeId>, timeout: nat, disk: Disk)
      requires Distinct([id] + peers)
      ensures n == N.RecoveredNode(id, peers, timeout, disk)
    {
      var blank := Blank(id, peers, timeout, disk);
      n := blank;
      new;
      var hard := disk.wal.hard;
      n := n.(term := hard.term, votedFor := hard.votedFor, commit := hard.commit);
      n := n.(log := [Sentinel(0)] + disk.wal.data[1..]);
      CheckRecovered();
    }

    /** NewRecoveredNodeWithSnapshot: the compacted base first, then the WAL suffix. */
    constructor RecoveredWithSnapshot(id: NodeId, peers: seq<NodeId>, timeout: nat, disk: Disk)
      requires Distinct([id] + peers)
      ensures n == N.RecoveredNodeWithSnapshot(id, peers, timeout, disk)
    {
      var blank := Blank(id, peers, timeout, disk);
      n := blank;
      new;
      hide N.EnsurePeers, N.Restored, N.NewNode;
      var hard, snap := disk.wal.hard, disk.image;
      n := n.(term := hard.term, votedFor := hard.votedFor, baseIndex := snap.lastIndex, baseTerm := snap.lastTerm);
      n := n.(snapshot := snap, votersOld := snap.oldVoters, votersNew := snap.newVoters);
      if n.votersOld == 0 {
        FailStorage();
        return;
      }
      EnsurePeers(Or(n.votersOld, n.votersNew));
      n := n.(log := [Sentinel(snap.lastTerm)] + disk.wal.data[1..]);
      n := n.(commit := Max(hard.commit, snap.lastIndex), applied := snap.lastIndex);
      CheckRecovered();
    }

    /** A commit index past the log, or an unacceptable configuration entry, stops the node. */
    method CheckRecovered()
      modifies this
      ensures n == N.Restored(old(n))
    {
      if n.commit > N.LastIndex(n) {
        FailStorage();
        return;
      }
      var ok := RestoreConfigurationState();
      if !ok { FailStorage(); }
    }

    method RestoreConfigurationState() returns (ok: bool)
      modifies this
      ensures (n, ok) == N.RestoreFrom(old(n), old(n).baseIndex + 1, old(n).votersOld, old(n).votersNew, 0)
    {
      hide N.EnsurePeers, N.Restorable;
      var oldVoters, newVoters := n.votersOld, n.votersNew;
      var pending: nat := 0;
      var index: nat := n.baseIndex + 1;
      while index <= N.LastIndex(n)
        invariant n.log == old(n).log && n.baseIndex == old(n).baseIndex
        invariant N.RestoreFrom(n, index, oldVoters, newVoters, pending)
               == N.RestoreFrom(old(n), old(n).baseIndex + 1, old(n).votersOld, old(n).votersNew, 0)
        decreases N.LastIndex(n) + 1 - index
      {
        var e := N.EntryAt(n, index);
        if !N.Restorable(e, oldVoters, newVoters, pending) { return false; }
        if e.kind == KIND_JOINT || e.kind == KIND_FINAL {
          if index <= n.commit {
            oldVoters, newVoters := e.oldVoters, e.newVoters;
          } else {
            pending := index;
          }
        }
        EnsurePeers(Or(e.oldVoters, e.newVoters));
        index := index + 1;
      }
      n := n.(votersOld := oldVoters, votersNew := newVoters, pendingConfig := pending);
      ok := true;
    }

    // ---------------------------------------------------------- voters

    /** The last joint entry in `first..upto` decides, as in effectiveVoters and canCommitIndex. */
    method VotersUpTo(first: nat, upto: nat) returns (o: Mask, w: Mask)
      requires first > 0
      ensures (o, w) == N.VotersUpTo(n, first, upto)
    {
      o, w := n.votersOld, n.votersNew;
      var index := first;
      while index <= upto
        invariant first <= index
        invariant index <= upto + 1 || index == first
        invariant (o, w) == N.VotersUpTo(n, first, index - 1)
        decreases upto + 1 - index
      {
        var e := N.EntryAt(n, index);
        if e.kind == KIND_JOINT { o, w := e.oldVoters, e.newVoters; }
        index := index + 1;
      }
    }

    method QuorumOf(o: Mask, w: Mask, mask: Mask) returns (r: bool)
      ensures r <==> JointQuorum(o, w, Ids(mask))
    {
      r := MajorityMask(o, mask);
      if r && w != 0 { r := MajorityMask(w, mask); }
    }

    method QuorumMask(mask: Mask) returns (r: bool)
      ensures r <==> N.Quorum(n, mask)
    {
      var o, w := VotersUpTo(Max(n.commit, n.baseIndex) + 1, N.LastIndex(n));
      r := QuorumOf(o, w, mask);
    }

    method IsVoter(id: NodeId) returns (r: bool)
      ensures r <==> N.IsVoter(n, id)
    {
      var o, w := VotersUpTo(Max(n.commit, n.baseIndex) + 1, N.LastIndex(n));
      OrMeansUnion(o, w, 1);
      TestingIsMembership(Or(o, w), id);
      r := And(Or(o, w), NodeBit(id)) != 0;
    }

    method CanCommitIndex(index: nat, acked: Mask) returns (r: bool)
      ensures r <==> N.CanCommit(n, index, acked)
    {
      var o, w := VotersUpTo(n.commit + 1, index);
      r := QuorumOf(o, w, acked);
    }

    method HasPeer(id: NodeId) returns (found: bool)
      ensures found <==> id in n.peers
    {
      found := false;
      for k := 0 to |n.peers|
        invariant found <==> id in n.peers[..k]
      {
        found := found || n.peers[k] == id;
      }
    }

    method EnsurePeers(mask: Mask)
      modifies this
      ensures n == N.EnsurePeers(old(n), mask)
    {
      for id: nat := 1 to 65
        invariant N.EnsurePeersFrom(n, mask, id) == N.EnsurePeersFrom(old(n), mask, 1)
      {
        TestingIsMembership(mask, id);
        var found := HasPeer(id);
        if id != n.id && And(mask, NodeBit(id)) != 0 && !found {
          n := n.(peers := n.peers + [id], next := n.next[id := N.LastIndex(n) + 1], matched := n.matched[id := 0]);
        }
      }
    }

    method ApplyConfiguration(index: nat)
      modifies this
      ensures n == N.ApplyConfiguration(old(n), index)
    {
      var e := N.EntryAt(n, index);
      if e.kind == KIND_JOINT {
        n := n.(votersOld := e.oldVoters, votersNew := e.newVoters);
        EnsurePeers(Or(e.oldVoters, e.newVoters));
      } else if e.kind == KIND_FINAL {
        n := n.(votersOld := e.oldVoters, votersNew := 0);
        var voter := IsVoter(n.id);
        if !voter { n := n.(role := N.Follower, leader := 0, readReady := false); }
      }
      if index == n.pendingConfig { n := n.(pendingConfig := 0); }
    }

    method ApplyCommittedConfigurations(previous: nat)
      modifies this
      ensures n == N.ApplyCommitted(old(n), previous)
    {
      hide N.ApplyConfiguration;
      var index, last := Max(previous, n.baseIndex) + 1, n.commit;
      while index <= last
        invariant N.ApplyConfigurations(n, index, last) == N.ApplyCommitted(old(n), previous)
        decreases last + 1 - index
      {
        ApplyConfiguration(index);
        index := index + 1;
      }
    }

    method RebuildPendingConfig()
      modifies this
      ensures n == N.RebuildPending(old(n))
    {
      hide N.EnsurePeers;
      n := n.(pendingConfig := 0);
      var index: nat := Max(n.commit, n.baseIndex) + 1;
      while index <= N.LastIndex(n)
        invariant N.RebuildPendingFrom(n, index) == N.RebuildPending(old(n))
        decreases N.LastIndex(n) + 1 - index
      {
        var e := N.EntryAt(n, index);
        if e.kind == KIND_JOINT || e.kind == KIND_FINAL {
          n := n.(pendingConfig := index);
          EnsurePeers(Or(e.oldVoters, e.newVoters));
        }
        index := index + 1;
      }
    }

    // ---------------------------------------------------------- storage and sending

    method FailStorage()
      modifies this
      ensures n == N.FailStorage(old(n))
    {
      n := n.(faulted := true);
      n := n.(role := N.Follower, leader := 0);
      n := n.(outbound := []);
    }

    /** One call on the stable store, whose success would leave `attempt`. */
    method Write(attempt: Result<Disk>) returns (ok: bool)
      modifies this
      ensures (n, ok) == N.Write(old(n), attempt)
      ensures ok ==> attempt.Ok? && n == old(n).(disk := attempt.value, plan := n.plan)
      ensures !ok ==> n == old(n).(disk := n.disk, plan := n.plan, faulted := true, role := N.Follower, leader := 0,
                                   outbound := [])
    {
      var outcome := Done;
      if n.plan != [] {
        outcome := n.plan[0];
        n := n.(plan := n.plan[1..]);
      }
      var (d, acknowledged) := Written(n.disk, attempt, outcome);
      ok := acknowledged;
      n := n.(disk := d);
      if !ok { FailStorage(); }
    }

    method PersistHard(h: HardState) returns (ok: bool)
      modifies this
      ensures (n, ok) == N.PersistHard(old(n), h)
      ensures ok ==> n == old(n).(disk := n.disk, plan := n.plan)
      ensures ok && Clean(old(n).disk) ==> Clean(n.disk) && n.disk.wal == old(n).disk.wal.(hard := h)
      ensures !ok ==> n.faulted && n.outbound == [] && n.log == old(n).log && n.commit == old(n).commit
                      && SameBallot(old(n), n)
    {
      ok := Write(SaveHard(n.disk, h));
    }

    method Send(m: Message)
      modifies this
      ensures n == N.Send(old(n), m)
    {
      n := n.(outbound := n.outbound + [N.Queued(m, n.disk)]);
    }

    // ---------------------------------------------------------- replication

    method AppendToContext(p: NodeId, context: nat)
      modifies this
      ensures n == N.AppendToContext(old(n), p, context)
    {
      var next := N.At(n.next, p);
      if next <= n.baseIndex {
        Send(InstallSnapshot(n.id, p, n.term, n.snapshot));
        return;
      }
      if next > N.LastIndex(n) + 1 {
        next := N.LastIndex(n) + 1;
        n := n.(next := n.next[p := next]);
      }
      var entry := None;
      if next < N.LastIndex(n) + 1 { entry := Some(N.EntryAt(n, next)); }
      Send(Append(n.id, p, n.term, next - 1, N.TermAt(n, next - 1), entry, n.commit, context));
    }

    method BroadcastAppend()
      modifies this
      ensures n == N.Broadcast(old(n))
    {
      hide N.IsVoter, N.AppendToContext;
      var k := 0;
      while k < |n.peers|
        invariant N.BroadcastFrom(n, k) == N.Broadcast(old(n))
        decreases |n.peers| - k
      {
        var voter := IsVoter(n.peers[k]);
        ghost var before := n;
        if voter { AppendToContext(n.peers[k], 0); }
        AppendToContextKeepsPeers(before, before.peers[k], 0);
        k := k + 1;
      }
    }

    method AppendLocal(e: Entry) returns (ok: bool)
      modifies this
      ensures (n, ok) == N.AppendLocal(old(n), e)
      ensures SameBallot(old(n), n) && (ok && BallotStored(old(n)) ==> BallotStored(n))
      ensures ok ==> n.log == old(n).log + [e] && n.faulted == old(n).faulted
      ensures ok && Clean(old(n).disk) ==> EndsWith(n.disk.wal.data, e)
      ensures !ok ==> n.faulted && n.outbound == []
    {
      hide N.Write, N.Quorum, N.PersistHard, N.ApplyConfigurations, AppendEntry;
      if Clean(n.disk) { CleanWrites(n.disk, n.disk.wal.hard, N.LastIndex(n) + 1, e); }
      var previous := n.commit;
      ok := Write(AppendEntry(n.disk, N.LastIndex(n) + 1, e));
      if !ok { return; }
      n := n.(log := n.log + [e]);
      var alone := QuorumMask(NodeBit(n.id));
      if alone {
        var last := N.LastIndex(n);
        ok := PersistHard(HardState(n.term, n.votedFor, last));
        if !ok { return; }
        n := n.(commit := last);
        M.ApplyingKeeps(n, Max(previous, n.baseIndex) + 1, last);
        ApplyCommittedConfigurations(previous);
      }
    }

    /** Who holds `index`, as a mask: the leader and every peer whose match reaches it. */
    method AckedMask(index: nat) returns (mask: Mask)
      ensures mask == N.Acked(n, index)
    {
      mask := NodeBit(n.id);
      for k := 0 to |n.peers|
        invariant mask == N.AckedFrom(n, index, k)
      {
        if N.At(n.matched, n.peers[k]) >= index { mask := Or(mask, NodeBit(n.peers[k])); }
      }
    }

    /** The commit scan of onAppendResponse, from the last index down. */
    method AdvanceCommit() returns (ok: bool)
      modifies this
      ensures (n, ok) == N.LeaderCommit(old(n))
    {
      hide N.Write, N.ApplyCommitted, N.Broadcast, N.CanCommit, N.Acked;
      var index: nat := N.LastIndex(n);
      while index > n.commit
        invariant n == old(n)
        invariant N.HighestCommittable(n, index) == N.HighestCommittable(n, N.LastIndex(n))
        decreases index
      {
        if N.TermAt(n, index) == n.term {
          var acked := AckedMask(index);
          var can := CanCommitIndex(index, acked);
          if can {
            var previous := n.commit;
            ok := PersistHard(HardState(n.term, n.votedFor, index));
            if !ok { return; }
            n := n.(commit := index);
            ApplyCommittedConfigurations(previous);
            if n.role == N.Leader { BroadcastAppend(); }
            return;
          }
        }
        index := index - 1;
      }
      ok := true;
    }

    method BecomeLeader()
      modifies this
      ensures n == N.BecomeLeader(old(n))
      ensures SameBallot(old(n), n) && (!n.faulted && BallotStored(old(n)) ==> BallotStored(n))
      ensures !old(n).faulted && n.faulted ==> n.outbound == []
    {
      hide N.AppendLocal, N.BroadcastFrom;
      n := n.(role := N.Leader, leader := n.id, elapsed := 0);
      var ok := AppendLocal(NoopEntry(n.term));
      if !ok { return; }
      var last := N.LastIndex(n) + 1;
      ghost var start := n;
      for k := 0 to |n.peers|
        invariant n == start.(next := n.next, matched := n.matched)
        invariant n.next == N.Reset(start.next, start.peers[..k], last)
        invariant n.matched == N.Reset(start.matched, start.peers[..k], 0)
      {
        var p := n.peers[k];
        n := n.(next := n.next[p := last]);
        n := n.(matched := n.matched[p := 0]);
        assert start.peers[..k + 1][..k] == start.peers[..k];
      }
      assert start.peers[..|start.peers|] == start.peers;
      M.BroadcastKeeps(n, 0);
      BroadcastAppend();
    }

    // ---------------------------------------------------------- elections

    method StartElection()
      modifies this
      ensures n == N.StartElection(old(n))
      ensures !n.faulted ==> n.term == old(n).term + 1 && n.votedFor == n.id
      ensures !n.faulted && Clean(old(n).disk) ==> BallotStored(n)
      ensures !old(n).faulted && n.faulted ==> n.outbound == []
    {
      hide N.Write, N.Quorum, N.BecomeLeader, N.TermAt, N.SendToPeers;
      var ok := PersistHard(HardState(n.term + 1, n.id, n.commit));
      if !ok { return; }
      n := n.(role := N.Candidate, term := n.term + 1, votedFor := n.id, elapsed := 0);
      n := n.(voteMask := NodeBit(n.id), preVoteMask := 0);
      AskForVotes(false);
      var won := QuorumMask(n.voteMask);
      if won { BecomeLeader(); }
    }

    method StartPreVote()
      modifies this
      ensures n == N.StartPreVote(old(n))
    {
      hide N.Quorum, N.StartElection, N.TermAt;
      n := n.(elapsed := 0, preVoteTerm := n.term + 1, leader := 0, preVoteMask := NodeBit(n.id));
      AskForVotes(true);
      var won := QuorumMask(n.preVoteMask);
      if won { StartElection(); }
    }

    /** The request loop that the two kinds of election share. */
    method AskForVotes(pre: bool)
      modifies this
      ensures n == N.SendToPeers(old(n), 0, Ballot(old(n), pre))
      ensures n == old(n).(outbound := n.outbound)
    {
      var last := N.LastIndex(n);
      var k := 0;
      while k < |n.peers|
        invariant n == old(n).(outbound := n.outbound)
        invariant N.SendToPeers(n, k, Ballot(old(n), pre)) == N.SendToPeers(old(n), 0, Ballot(old(n), pre))
        decreases |n.peers| - k
      {
        if pre {
          Send(PreVote(n.id, n.peers[k], n.preVoteTerm, last, N.TermAt(n, last)));
        } else {
          Send(RequestVote(n.id, n.peers[k], n.term, last, N.TermAt(n, last)));
        }
        k := k + 1;
      }
    }

    method OnPreVote(m: Message)
      requires m.PreVote?
      modifies this
      ensures n == N.OnPreVote(old(n), m)
      ensures n == old(n).(outbound := n.outbound)
      ensures Answered(old(n), n) && Answer(n).PreVoteResponse? && Answer(n).to == m.from
      ensures !Answer(n).reject ==> m.term > n.term && N.UpToDate(old(n), m.logIndex, m.logTerm)
                                    && N.IsVoter(old(n), m.from)
    {
      var last := N.LastIndex(n);
      var upToDate := m.logTerm > N.TermAt(n, last) || (m.logTerm == N.TermAt(n, last) && m.logIndex >= last);
      var leaderActive := n.leader != 0 && n.elapsed < n.timeout;
      var voter := IsVoter(m.from);
      var grant := voter && m.term >= n.term + 1 && upToDate && !leaderActive;
      Send(PreVoteResponse(n.id, m.from, m.term, !grant));
    }

    method OnPreVoteResponse(m: Message)
      requires m.PreVoteResponse?
      modifies this
      ensures n == N.OnPreVoteResponse(old(n), m)
    {
      hide N.IsVoter, N.Quorum, N.StartElection;
      var voter := IsVoter(m.from);
      if n.role != N.Leader && voter && m.term == n.term + 1 && m.term == n.preVoteTerm && !m.reject {
        n := n.(preVoteMask := Or(n.preVoteMask, NodeBit(m.from)));
        var won := QuorumMask(n.preVoteMask);
        if won { StartElection(); }
      }
    }

    method OnVote(m: Message)
      requires m.RequestVote?
      modifies this
      ensures n == N.OnVote(old(n), m)
      ensures n.term == old(n).term && n.log == old(n).log && n.commit == old(n).commit
      ensures n.votedFor != old(n).votedFor ==> old(n).votedFor == 0 && n.votedFor == m.from
      ensures !n.faulted ==> Answered(old(n), n) && Answer(n).RequestVoteResponse? && Answer(n).to == m.from
      ensures !n.faulted && !Answer(n).reject ==> n.votedFor == m.from && N.UpToDate(old(n), m.logIndex, m.logTerm)
      ensures !n.faulted && !Answer(n).reject && Clean(old(n).disk) ==>
                n.disk.wal.hard == HardState(n.term, m.from, n.commit)
    {
      hide N.IsVoter, N.PersistHard;
      var last := N.LastIndex(n);
      var upToDate := m.logTerm > N.TermAt(n, last) || (m.logTerm == N.TermAt(n, last) && m.logIndex >= last);
      var voter := IsVoter(m.from);
      var grant := voter && m.term == n.term && (n.votedFor == 0 || n.votedFor == m.from) && upToDate;
      if grant {
        var ok := PersistHard(HardState(n.term, m.from, n.commit));
        if !ok { return; }
        n := n.(votedFor := m.from, elapsed := 0);
      }
      Send(RequestVoteResponse(n.id, m.from, n.term, !grant));
    }

    method OnVoteResponse(m: Message)
      requires m.RequestVoteResponse?
      modifies this
      ensures n == N.OnVoteResponse(old(n), m)
    {
      hide N.IsVoter, N.Quorum, N.BecomeLeader;
      var voter := IsVoter(m.from);
      if n.role == N.Candidate && voter && m.term == n.term && !m.reject {
        n := n.(voteMask := Or(n.voteMask, NodeBit(m.from)));
        var won := QuorumMask(n.voteMask);
        if won { BecomeLeader(); }
      }
    }

    // ---------------------------------------------------------- following

    method OnAppend(m: Message)
      requires m.Append?
      modifies this
      ensures n == N.OnAppend(old(n), m)
    {
      hide N.ValidNewEntry, N.FollowerAppend, N.FollowerCommit;
      var reject := m.term < n.term || !N.InLog(n, m.logIndex) || N.TermAt(n, m.logIndex) != m.logTerm;
      if !reject && m.entry.Some? && m.logIndex == N.LastIndex(n) && !N.ValidNewEntry(n, m.entry.value) {
        reject := true;
      }
      if !reject {
        n := n.(role := N.Follower, leader := m.from, elapsed := 0);
        var ok := true;
        if m.entry.Some? { ok := TakeEntry(m.logIndex + 1, m.entry.value); }
        if !ok { return; }
        ok := TakeCommit(m);
        if !ok { return; }
      }
      var matched := N.LastIndex(n);
      if !reject {
        matched := m.logIndex;
        if m.entry.Some? { matched := matched + 1; }
      }
      Send(AppendResponse(n.id, m.from, n.term, reject, matched, m.context));
    }

    /** A conflicting entry takes the suffix with it; then the new entry is stored and kept. */
    method TakeEntry(at: nat, e: Entry) returns (ok: bool)
      requires n.baseIndex < at
      modifies this
      ensures (n, ok) == N.FollowerAppend(old(n), at, e)
    {
      hide N.RebuildPending, N.Write, N.EnsurePeers;
      if N.InLog(n, at) && N.TermAt(n, at) != e.term {
        n := n.(log := n.log[..at - n.baseIndex]);
        RebuildPendingConfig();
      }
      ok := true;
      if at == N.LastIndex(n) + 1 {
        ok := Write(AppendEntry(n.disk, at, e));
        if !ok { return; }
        n := n.(log := n.log + [e]);
        if e.kind == KIND_JOINT || e.kind == KIND_FINAL {
          n := n.(pendingConfig := at);
          EnsurePeers(Or(e.oldVoters, e.newVoters));
        }
      }
    }

    method TakeCommit(m: Message) returns (ok: bool)
      requires m.Append?
      modifies this
      ensures (n, ok) == N.FollowerCommit(old(n), m)
      ensures n.log == old(n).log
      ensures ok ==> n.commit == Max(old(n).commit, Min(m.commit, N.MatchOf(m)))
      ensures ok && n.commit != old(n).commit && Clean(old(n).disk) ==> n.disk.wal.hard.commit == n.commit
    {
      hide N.PersistHard, N.ApplyConfigurations;
      ok := true;
      if m.commit > n.commit && (m.logIndex > n.commit || (m.entry.Some? && m.logIndex + 1 > n.commit)) {
        var previous := n.commit;
        var matched := m.logIndex;
        if m.entry.Some? { matched := matched + 1; }
        var commit := Min(m.commit, matched);
        ok := PersistHard(HardState(n.term, n.votedFor, commit));
        if !ok { return; }
        n := n.(commit := commit);
        M.ApplyingKeeps(n, Max(previous, n.baseIndex) + 1, commit);
        ApplyCommittedConfigurations(previous);
      }
    }

    method RecordReadAck(m: Message)
      requires m.AppendResponse?
      modifies this
      ensures n == N.RecordReadAck(old(n), m)
    {
      hide N.IsVoter, N.Quorum;
      var voter := IsVoter(m.from);
      if n.role == N.Leader && m.term == n.term && !m.reject && m.context != 0 && m.context == n.readContext && voter {
        n := n.(readAckMask := Or(n.readAckMask, NodeBit(m.from)));
        var confirmed := QuorumMask(n.readAckMask);
        if confirmed { n := n.(readIndex := n.commit, readReady := true); }
      }
    }

    method OnAppendResponse(m: Message)
      requires m.AppendResponse?
      modifies this
      ensures n == N.OnAppendResponse(old(n), m)
    {
      hide N.RecordReadAck, N.AppendToContext, N.LeaderCommit;
      RecordReadAck(m);
      if n.role != N.Leader || m.term != n.term || m.matched >= N.LastIndex(n) + 1 { return; }
      if m.reject {
        if N.At(n.next, m.from) > 1 { n := n.(next := n.next[m.from := N.At(n.next, m.from) - 1]); }
        AppendToContext(m.from, 0);
        return;
      }
      n := n.(matched := n.matched[m.from := m.matched], next := n.next[m.from := m.matched + 1]);
      var ok := AdvanceCommit();
      if !ok || n.role != N.Leader { return; }
      if N.At(n.next, m.from) < N.LastIndex(n) + 1 { AppendToContext(m.from, 0); }
    }

    // ---------------------------------------------------------- snapshots

    method Compact(index: nat, state: seq<byte>) returns (done: bool)
      modifies this
      ensures n == N.Compact(old(n), index, state)
      ensures done <==> old(n).baseIndex < index && n.baseIndex == index
    {
      hide N.Write;
      if index <= n.baseIndex || index > n.applied || !N.InLog(n, index) { return false; }
      var snap := Snapshot(index, N.TermAt(n, index), state, n.votersOld, n.votersNew);
      var ok := Write(SaveSnapshot(n.disk, snap));
      if !ok { return false; }
      ok := Write(CompactLog(n.disk, index));
      if !ok { return false; }
      n := n.(log := n.log[index - n.baseIndex..], baseIndex := index, baseTerm := snap.lastTerm, snapshot := snap);
      done := true;
    }

    method Install(snap: Snapshot) returns (ok: bool)
      requires n.baseIndex < snap.lastIndex
      modifies this
      ensures (n, ok) == N.Install(old(n), snap)
    {
      hide N.Write, SaveSnapshot, CompactLog;
      ok := Write(SaveSnapshot(n.disk, snap));
      if !ok { return; }
      ok := Write(CompactLog(n.disk, snap.lastIndex));
      if !ok { return; }
      if N.InLog(n, snap.lastIndex) && N.TermAt(n, snap.lastIndex) == snap.lastTerm {
        n := n.(log := n.log[snap.lastIndex - n.baseIndex..]);
      } else {
        n := n.(log := [Sentinel(snap.lastTerm)]);
      }
      n := n.(baseIndex := snap.lastIndex, baseTerm := snap.lastTerm, snapshot := snap);
      n := n.(votersOld := snap.oldVoters, votersNew := snap.newVoters);
      if n.commit < snap.lastIndex { n := n.(commit := snap.lastIndex); }
      if n.applied < snap.lastIndex { n := n.(applied := snap.lastIndex); }
    }

    method OnInstallSnapshot(m: Message)
      requires m.InstallSnapshot?
      modifies this
      ensures n == N.OnInstallSnapshot(old(n), m)
    {
      hide N.Install;
      var snap := m.snapshot;
      var reject := m.term < n.term || snap.lastIndex < n.baseIndex || snap.oldVoters == 0
                    || (snap.lastIndex == n.baseIndex && snap.lastTerm != n.baseTerm);
      if !reject {
        var ok := true;
        if snap.lastIndex > n.baseIndex { ok := Install(snap); }
        if !ok { return; }
        n := n.(role := N.Follower, leader := m.from, elapsed := 0);
      }
      Send(InstallSnapshotResponse(n.id, m.from, n.term, reject, n.baseIndex));
    }

    method OnInstallSnapshotResponse(m: Message)
      requires m.InstallSnapshotResponse?
      modifies this
      ensures n == N.OnInstallSnapshotResponse(old(n), m)
    {
      hide N.IsVoter, N.AppendToContext;
      var voter := IsVoter(m.from);
      if n.role != N.Leader || m.term != n.term || m.reject || !voter { return; }
      if m.matched > N.At(n.matched, m.from) {
        n := n.(matched := n.matched[m.from := m.matched], next := n.next[m.from := m.matched + 1]);
      }
      if N.At(n.next, m.from) <= N.LastIndex(n) { AppendToContext(m.from, 0); }
    }

    // ---------------------------------------------------------- entry points

    method Step(m: Message)
      modifies this
      ensures n == N.Step(old(n), m)
    {
      hide N.PersistHard, N.OnPreVote, N.OnPreVoteResponse, N.OnVote, N.OnVoteResponse, N.OnAppend, N.OnAppendResponse,
           N.StartElection, N.OnInstallSnapshot, N.OnInstallSnapshotResponse;
      if n.faulted { return; }
      if !N.IsPreVote(m) && m.term > n.term {
        var ok := PersistHard(HardState(m.term, 0, n.commit));
        if !ok { return; }
        n := n.(role := N.Follower, term := m.term, votedFor := 0, leader := 0, readReady := false);
      }
      match m
      case PreVote(_, _, _, _, _) => OnPreVote(m);
      case PreVoteResponse(_, _, _, _) => OnPreVoteResponse(m);
      case RequestVote(_, _, _, _, _) => OnVote(m);
      case RequestVoteResponse(_, _, _, _) => OnVoteResponse(m);
      case Append(_, _, _, _, _, _, _, _) => OnAppend(m);
      case AppendResponse(_, _, _, _, _, _) => OnAppendResponse(m);
      case TimeoutNow(_, _, _) =>
        if n.role == N.Follower && m.term == n.term && m.from == n.leader { StartElection(); }
      case InstallSnapshot(_, _, _, _) => OnInstallSnapshot(m);
      case InstallSnapshotResponse(_, _, _, _, _) => OnInstallSnapshotResponse(m);
    }

    method Tick()
      modifies this
      ensures n == N.Tick(old(n))
    {
      hide N.Broadcast, N.StartPreVote;
      if n.faulted { return; }
      n := n.(elapsed := n.elapsed + 1);
      if n.role == N.Leader {
        if n.elapsed >= 3 {
          n := n.(elapsed := 0);
          BroadcastAppend();
        }
        return;
      }
      if n.elapsed >= n.timeout { StartPreVote(); }
    }

    method Propose(command: nat) returns (accepted: bool)
      modifies this
      ensures n == N.Propose(old(n), command)
      ensures accepted <==> old(n).role == N.Leader && !old(n).faulted && !n.faulted
    {
      hide N.AppendLocal, N.BroadcastFrom;
      if n.role != N.Leader || n.faulted { return false; }
      accepted := AppendLocal(Sentinel(n.term).(command := command));
      if accepted {
        M.BroadcastKeeps(n, 0);
        BroadcastAppend();
      }
    }

    method ProposeRequest(operation: nat, clientId: nat, requestId: nat, key: nat, value: nat) returns (accepted: bool)
      modifies this
      ensures n == N.ProposeRequest(old(n), operation, clientId, requestId, key, value)
      ensures accepted <==> old(n).role == N.Leader && !old(n).faulted && !n.faulted && clientId != 0 && requestId != 0
                            && (operation == OP_PUT || operation == OP_DELETE)
    {
      hide N.AppendLocal, N.BroadcastFrom;
      if n.role != N.Leader || n.faulted || clientId == 0 || requestId == 0
         || (operation != OP_PUT && operation != OP_DELETE) { return false; }
      accepted := AppendLocal(Entry(n.term, 0, KIND_NORMAL, 0, 0, operation, clientId, requestId, key, value));
      if accepted {
        M.BroadcastKeeps(n, 0);
        BroadcastAppend();
      }
    }

    /** An empty or repeating voter list is refused; otherwise its mask is proposed. */
    method ProposeJoint(newVoters: seq<nat>) returns (accepted: bool)
      requires forall v :: v in newVoters ==> 0 < v
      modifies this
      ensures newVoters == [] || !Distinct(newVoters) ==> !accepted && n == old(n)
      ensures newVoters != [] && Distinct(newVoters) ==>
                exists mask :: Ids(mask) == Elements(newVoters) && n == N.ProposeJoint(old(n), mask)
      ensures accepted <==> newVoters != [] && Distinct(newVoters) && old(n).role == N.Leader && !old(n).faulted
                            && old(n).votersNew == 0 && old(n).pendingConfig == 0 && !n.faulted
    {
      hide N.AppendLocal, N.BroadcastFrom, N.EnsurePeers;
      var mask, ok := VoterMask(newVoters);
      if !ok { return false; }
      IdsFromEmpty(mask, 1);
      assert newVoters[0] in Elements(newVoters);
      if n.role != N.Leader || n.faulted || n.votersNew != 0 || n.pendingConfig != 0 { return false; }
      EnsurePeers(mask);
      accepted := AppendLocal(Entry(n.term, 0, KIND_JOINT, n.votersOld, mask, OP_LEGACY, 0, 0, 0, 0));
      if accepted {
        n := n.(pendingConfig := N.LastIndex(n));
        M.BroadcastKeeps(n, 0);
        BroadcastAppend();
      }
      assert n == N.ProposeJoint(old(n), mask);
    }

    method ProposeFinal() returns (accepted: bool)
      modifies this
      ensures n == N.ProposeFinal(old(n))
      ensures accepted <==> old(n).role == N.Leader && !old(n).faulted && old(n).votersNew != 0
                            && old(n).pendingConfig == 0 && !n.faulted
    {
      hide N.AppendLocal, N.BroadcastFrom;
      if n.role != N.Leader || n.faulted || n.votersNew == 0 || n.pendingConfig != 0 { return false; }
      accepted := AppendLocal(Entry(n.term, 0, KIND_FINAL, n.votersNew, 0, OP_LEGACY, 0, 0, 0, 0));
      if accepted {
        n := n.(pendingConfig := N.LastIndex(n));
        M.BroadcastKeeps(n, 0);
        BroadcastAppend();
      }
    }

    method StartReadIndex(context: nat) returns (started: bool)
      modifies this
      ensures n == N.StartReadIndex(old(n), context)
      ensures started <==> N.MayStartRead(old(n), context)
    {
      hide N.Quorum, N.AppendToContext;
      var alone := QuorumMask(NodeBit(n.id));
      if n.role != N.Leader || n.faulted || context == 0 || n.commit == 0
         || (N.TermAt(n, n.commit) != n.term && !alone) { return false; }
      n := n.(readContext := context, readAckMask := NodeBit(n.id), readReady := alone);
      if n.readReady { n := n.(readIndex := n.commit); }
      var k := 0;
      while k < |n.peers|
        invariant N.SendReadContext(n, k, context) == N.StartReadIndex(old(n), context)
        decreases |n.peers| - k
      {
        AppendToContextKeepsPeers(n, n.peers[k], context);
        AppendToContext(n.peers[k], context);
        k := k + 1;
      }
      started := true;
    }

    method TransferLeadership(target: NodeId) returns (asked: bool)
      modifies this
      ensures n == N.TransferLeadership(old(n), target)
      ensures asked <==> old(n).role == N.Leader && target != old(n).id && N.IsVoter(old(n), target)
                         && N.At(old(n).matched, target) >= N.LastIndex(old(n))
      ensures asked ==> n.outbound == old(n).outbound + [N.Queued(TimeoutNow(n.id, target, n.term), n.disk)]
    {
      hide N.IsVoter, N.AppendToContext;
      var voter := IsVoter(target);
      if n.role != N.Leader || target == n.id || !voter { return false; }
      if N.At(n.matched, target) < N.LastIndex(n) {
        AppendToContext(target, 0);
        return false;
      }
      Send(TimeoutNow(n.id, target, n.term));
      asked := true;
    }

    /** Hands over the queue and empties it. */
    method Drain() returns (out: seq<Message>)
      modifies this
      ensures n == N.Drain(old(n))
      ensures |out| == |old(n).outbound| && forall k :: 0 <= k < |out| ==> out[k] == old(n).outbound[k].msg
    {
      out := [];
      for k := 0 to |n.outbound|
        invariant |out| == k && forall j :: 0 <= j < k ==> out[j] == n.outbound[j].msg
      {
        out := out + [n.outbound[k].msg];
      }
      n := n.(outbound := []);
    }

    /** The ordinary entries that became committed since the last call, in log order. */
    method ApplyEntries() returns (out: seq<Entry>)
      modifies this
      ensures n == N.ApplyEntries(old(n))
      ensures out == NormalEntries(n, old(n).applied + 1, n.commit)
    {
      out := [];
      var from := n.applied;
      while n.applied < n.commit
        invariant from <= n.applied <= Max(from, n.commit)
        invariant n == old(n).(applied := n.applied)
        invariant out == NormalEntries(old(n), from + 1, n.applied)
        decreases n.commit - n.applied
      {
        n := n.(applied := n.applied + 1);
        var e := N.EntryAt(n, n.applied);
        if e.kind == KIND_NORMAL { out := out + [e]; }
      }
      NormalEntriesOnlyReadTheLog(old(n), n, from + 1, n.commit);
    }
  }

  predicate SameBallot(n: N.Node, n': N.Node) {
    n'.id == n.id && n'.term == n.term && n'.votedFor == n.votedFor
  }

  /** One message was queued after the others. */
  predicate Answered(n: N.Node, n': N.Node) {
    |n'.outbound| == |n.outbound| + 1 && n'.outbound[..|n.outbound|] == n.outbound
  }

  function Answer(n: N.Node): Message
    requires n.outbound != []
  {
    n.outbound[|n.outbound| - 1].msg
  }

  /** The store holds the node's term and vote. */
  predicate BallotStored(n: N.Node) {
    Clean(n.disk) && n.disk.wal.hard.term == n.term && n.disk.wal.hard.votedFor == n.votedFor
  }

  predicate EndsWith(log: Log, e: Entry) {
    log[|log| - 1] == e
  }

  /** The state of a node that has heard nothing yet. */
  method Blank(id: NodeId, peers: seq<NodeId>, timeout: nat, disk: Disk) returns (r: N.Node)
    requires Distinct([id] + peers)
    ensures r == N.NewNode(id, peers, timeout, disk)
  {
    var ids := [id] + peers;
    var voters := 0;
    assert Ids(0) == Elements(ids[..0]);
    for k := 0 to |ids|
      invariant Ids(voters) == Elements(ids[..k])
    {
      RecordingAddsSender(voters, ids[k]);
      assert ids[..k + 1] == ids[..k] + [ids[k]];
      voters := Or(voters, NodeBit(ids[k]));
    }
    assert ids[..|ids|] == ids;
    IdsDetermineMask(voters, N.MaskOf(ids), 1);
    r := N.Node(id, peers, N.Follower, 0, 0, 0, [Sentinel(0)], 0, 0, 0, 0, timeout, 0, 0, 0, 0,
                map[], map[], [], disk, [], false, 0, 0, 0, false, NO_SNAPSHOT, voters, 0, 0);
  }

  lemma AppendToContextKeepsPeers(n: N.Node, p: NodeId, context: nat)
    ensures N.AppendToContext(n, p, context).peers == n.peers
  {
  }

  /** The request for a vote, or for a pre-vote, that `n` sends. */
  function Ballot(n: N.Node, pre: bool): NodeId -> Message {
    var last := N.LastIndex(n);
    if pre then (p: NodeId) => PreVote(n.id, p, n.preVoteTerm, last, N.TermAt(n, last))
    else (p: NodeId) => RequestVote(n.id, p, n.term, last, N.TermAt(n, last))
  }

  function NormalEntries(n: N.Node, first: nat, last: nat): seq<Entry> {
    if last < first || last == 0 then []
    else NormalEntries(n, first, last - 1)
         + (if N.EntryAt(n, last).kind == KIND_NORMAL then [N.EntryAt(n, last)] else [])
  }

  lemma {:induction false} NormalEntriesOnlyReadTheLog(a: N.Node, b: N.Node, first: nat, last: nat)
    requires a.log == b.log && a.baseIndex == b.baseIndex
    ensures NormalEntries(a, first, last) == NormalEntries(b, first, last)
  {
    if last >= first && last > 0 { NormalEntriesOnlyReadTheLog(a, b, first, last - 1); }
  }
}
