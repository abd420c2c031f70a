/** Each building block of raft/node.go preserves the invariant. */
module RaftSteps {
  import opened RaftTypes
  import opened RaftDisk
  import opened RaftNode
  import opened RaftHistory
  import opened RaftExtend
  import opened RaftFixed

  /** Node `i` went to `n'` and the history to `h'`. */
  ghost predicate Preserved(h: History, h': History, i: nat, n': Node) {
    HistOk(h') && Ext(h, h', i) && NodeOk(h', n') && n'.id == i
  }

  lemma PreservedTrans(h: History, h1: History, h2: History, i: nat, n1: Node, n2: Node)
    requires Preserved(h, h1, i, n1) && Preserved(h1, h2, i, n2)
    ensures Preserved(h, h2, i, n2)
  {
    ExtTrans(h, h1, h2, i);
  }

  // ------------------------------------------------------------ failing

  lemma WriteCases(n: Node, attempt: Result<Disk>)
    ensures var (n1, ok) := Write(n, attempt);
            if ok then attempt.Ok? && n1 == n.(disk := attempt.value, plan := n1.plan)
            else n1 == FailStorage(n.(disk := n1.disk, plan := n1.plan))
                 && (n1.disk == n.disk || (attempt.Ok? && n1.disk == Unacknowledged(n.disk, attempt.value)))
  {}

  lemma RetainsLonger(h: History, log: Log, f: nat, t: nat, before: nat, later: nat)
    requires RetainsAll(h, log, f, t, before) && before <= later
    ensures RetainsAll(h, log, f, t, later)
  {
    forall k | 0 <= k <= h.acks[(f, t)] && OwnEntry(h, t, k) ensures Retains(h, log, t, k, later) {
      assert Retains(h, log, t, k, before);
    }
  }

  lemma CommitLater(h: History, log: Log, commit: nat, term: nat, later: nat)
    requires CommitOk(h, log, commit, term) && term <= later
    ensures CommitOk(h, log, commit, later)
  {
    if commit != 0 {
      var t: nat :| t <= term && CommittedAt(h, log, commit, t);
    }
  }

  /** A node that fail-stops keeps only claims about its disk. */
  lemma FailOk(h: History, h': History, n: Node, d: Disk, plan: seq<Outcome>)
    requires StaticOk(h, n) && LogOk(h, n.log) && CommitOk(h, n.log, n.commit, n.disk.wal.hard.term)
    requires HistOk(h') && Ext(h, h', n.id) && DiskOk(h', n.id, d)
    requires n.disk.wal.hard.term <= d.wal.hard.term
    ensures Preserved(h, h', n.id, FailStorage(n.(disk := d, plan := plan)))
  {
    ExtLog(h, h', n.id, n.log);
    ExtCommit(h, h', n.id, n.log, n.commit, n.disk.wal.hard.term);
    CommitLater(h', n.log, n.commit, n.disk.wal.hard.term, d.wal.hard.term);
  }

  /** The invariant does not speak of what the store remembers. */
  lemma SameMedium(h: History, id: nat, d: Disk, d': Disk)
    requires DiskOk(h, id, d) && d'.wal == d.wal && d'.readable == d.readable && d'.image == d.image
    ensures DiskOk(h, id, d')
  {}

  /** A failed write: either nothing happened, or the medium already has the new state. */
  lemma FailedWrite(h: History, h1: History, n: Node, attempt: Result<Disk>) returns (h': History)
    requires StaticOk(h, n) && LogOk(h, n.log) && CommitOk(h, n.log, n.commit, n.disk.wal.hard.term)
    requires HistOk(h) && DiskOk(h, n.id, n.disk)
    requires attempt.Ok? ==> HistOk(h1) && Ext(h, h1, n.id) && DiskOk(h1, n.id, attempt.value)
                             && n.disk.wal.hard.term <= attempt.value.wal.hard.term
    requires !Write(n, attempt).1
    ensures Preserved(h, h', n.id, Write(n, attempt).0)
  {
    WriteCases(n, attempt);
    var n1 := Write(n, attempt).0;
    if n1.disk == n.disk {
      h' := h;
      ExtRefl(h, n.id);
    } else {
      h' := h1;
      SameMedium(h1, n.id, attempt.value, n1.disk);
    }
    FailOk(h, h', n, n1.disk, n1.plan);
  }

  // ------------------------------------------------------------ sending

  lemma SendOk(h: History, n: Node, m: Message)
    requires NodeOk(h, n) && !n.faulted && MessageOk(h, m) && m.from == n.id
    ensures NodeOk(h, Send(n, m))
  {
    hide DiskOk, LogOk, CommitOk;
    var n' := Send(n, m);
    assert OutboundOk(h, n');
    assert n.role == Leader && BarrierHolds(h, n) ==> BarrierHolds(h, n');
  }

  lemma {:induction false} SendToPeersOk(h: History, n: Node, k: nat, message: NodeId -> Message)
    requires NodeOk(h, n) && !n.faulted
    requires forall p :: p in n.peers ==> MessageOk(h, message(p)) && message(p).from == n.id
    ensures var n' := SendToPeers(n, k, message); NodeOk(h, n') && n' == n.(outbound := n'.outbound)
    decreases |n.peers| - k
  {
    if k < |n.peers| {
      var p := n.peers[k];
      assert p in n.peers;
      SendOk(h, n, message(p));
      SendToPeersOk(h, Send(n, message(p)), k + 1, message);
    }
  }

  function NextMessage(n: Node, p: NodeId, next: nat, context: nat): Message
    requires 0 < next
  {
    Append(n.id, p, n.term, next - 1, TermAt(n, next - 1),
           if next < LastIndex(n) + 1 then Some(EntryAt(n, next)) else None, n.commit, context)
  }

  lemma NextMessageOk(h: History, n: Node, p: NodeId, next: nat, context: nat)
    requires NodeOk(h, n) && n.role == Leader && 0 < next <= LastIndex(n) + 1 && p != n.id
    requires context != 0 ==> context in h.barriers && h.barriers[context].term == n.term
    ensures MessageOk(h, NextMessage(n, p, next, context))
  {
    assert LiveOk(h, n);
    assert LeaderCore(h, n);
  }

  /** What a leader sends to replicate its log. */
  lemma AppendToOk(h: History, n: Node, p: NodeId, context: nat)
    requires NodeOk(h, n) && n.role == Leader && p != n.id
    requires context != 0 ==> context in h.barriers && h.barriers[context].term == n.term
    ensures var n' := AppendToContext(n, p, context);
            NodeOk(h, n') && n' == n.(outbound := n'.outbound, next := n'.next)
  {
    hide LiveOk, DiskOk, LogOk, CommitOk, OutboundOk;
    if At(n.next, p) <= n.baseIndex {
      SendOk(h, n, InstallSnapshot(n.id, p, n.term, n.snapshot));
    } else {
      var next := Min(LastIndex(n) + 1, At(n.next, p));
      var n1 := n.(next := if At(n.next, p) > next then n.next[p := next] else n.next);
      assert AppendToContext(n, p, context) == Send(n1, NextMessage(n1, p, next, context));
      QuietOk(h, n, n1);
      NextMessageOk(h, n1, p, next, context);
      SendOk(h, n1, NextMessage(n1, p, next, context));
    }
  }

  /** Fields the invariant does not read may change freely. */
  lemma QuietOk(h: History, n: Node, n': Node)
    requires NodeOk(h, n)
    requires n' == n.(elapsed := n'.elapsed, next := n'.next, plan := n'.plan, applied := n'.applied,
                      preVoteMask := n'.preVoteMask, preVoteTerm := n'.preVoteTerm, leader := n'.leader,
                      timeout := n'.timeout)
    ensures NodeOk(h, n')
  {
    assert n.role == Leader && !n.faulted && BarrierHolds(h, n) ==> BarrierHolds(h, n');
  }

  lemma {:induction false} BroadcastOk(h: History, n: Node, k: nat)
    requires NodeOk(h, n) && n.role == Leader
    ensures var n' := BroadcastFrom(n, k); NodeOk(h, n') && n' == n.(outbound := n'.outbound, next := n'.next)
    decreases |n.peers| - k
  {
    if k < |n.peers| {
      assert n.peers[k] in n.peers;
      if IsVoter(n, n.peers[k]) {
        AppendToOk(h, n, n.peers[k], 0);
        BroadcastOk(h, AppendTo(n, n.peers[k]), k + 1);
      } else {
        BroadcastOk(h, n, k + 1);
      }
    }
  }

  lemma {:induction false} SendReadContextOk(h: History, n: Node, k: nat, context: nat)
    requires NodeOk(h, n) && n.role == Leader
    requires context != 0 ==> context in h.barriers && h.barriers[context].term == n.term
    ensures var n' := SendReadContext(n, k, context);
            NodeOk(h, n') && n' == n.(outbound := n'.outbound, next := n'.next)
    decreases |n.peers| - k
  {
    if k < |n.peers| {
      assert n.peers[k] in n.peers;
      AppendToOk(h, n, n.peers[k], context);
      SendReadContextOk(h, AppendToContext(n, n.peers[k], context), k + 1, context);
    }
  }

  // ------------------------------------------------------------ terms and votes

  /** A higher term with an empty vote. */
  lemma NewTermDisk(h: History, id: nat, d: Disk, term: nat)
    requires DiskOk(h, id, d) && d.wal.hard.term < term
    ensures DiskOk(h, id, Together(d, d.wal.(hard := HardState(term, 0, d.wal.hard.commit))))
  {
    hide LogOk, CommitOk, RetainsAll;
    CommitLater(h, d.wal.data, d.wal.hard.commit, d.wal.hard.term, term);
    forall t | (id, t) in h.acks ensures RetainsAll(h, d.wal.data, id, t, term + 1) {
      RetainsLonger(h, d.wal.data, id, t, d.wal.hard.term + 1, term + 1);
    }
  }

  lemma ObserveTermOk(h: History, n: Node, m: Message) returns (h': History)
    requires HistOk(h) && NodeOk(h, n) && !n.faulted
    ensures var (n', ok) := ObserveTerm(n, m);
            Preserved(h, h', n.id, n')
            && (ok ==> !n'.faulted && (!IsPreVote(m) ==> m.term <= n'.term))
  {
    hide HistOk, Ext, LogOk, CommitOk, DiskOk;
    ExtRefl(h, n.id);
    h' := h;
    if !IsPreVote(m) && m.term > n.term {
      var hard := HardState(m.term, 0, n.commit);
      var attempt := SaveHard(n.disk, hard);
      NewTermDisk(h, n.id, n.disk, m.term);
      WriteCases(n, attempt);
      var (n1, ok) := PersistHard(n, hard);
      if !ok {
        h' := FailedWrite(h, h, n, attempt);
      } else {
        var n' := n1.(role := Follower, term := m.term, votedFor := 0, leader := 0, readReady := false);
        CommitLater(h, n.log, n.commit, n.term, m.term);
        assert NodeOk(h, n');
      }
    }
  }

  /** The history after `f` durably votes for `c` in `t` with log `log`. */
  ghost function WithVote(h: History, f: nat, t: nat, c: nat, log: Log): History {
    h.(votes := h.votes[(f, t) := c], voteLog := if t in h.llog then h.voteLog else h.voteLog[(f, t) := log])
  }

  lemma WithVoteExt(h: History, f: nat, t: nat, c: nat, log: Log)
    requires (f, t) !in h.votes && (f, t) !in h.voteLog
    ensures Ext(h, WithVote(h, f, t, c, log), f)
  {
    ExtRefl(h, f);
  }

  lemma WithVoteLogOk(h: History, f: nat, t: nat, c: nat, d: Disk)
    requires DiskOk(h, f, d) && (f, t) !in h.votes && (f, t) !in h.voteLog && t == d.wal.hard.term && t !in h.llog
    requires forall u :: (f, u) in h.acks ==> AckOk(h, f, u)
    requires (c, t) in h.candLog && AtLeastAsUpToDate(h.candLog[(c, t)], d.wal.data)
    ensures VoteLogOk(WithVote(h, f, t, c, d.wal.data), f, t)
  {
    var log := d.wal.data;
    var h' := WithVote(h, f, t, c, log);
    WithVoteExt(h, f, t, c, log);
    ExtLog(h, h', f, log);
    forall u | u < t && (f, u) in h'.acks ensures RetainsAll(h', log, f, u, t) {
      assert AckOk(h, f, u);
      RetainsBeforeElection(h, log, f, u, t);
      ExtRetainsAll(h, h', f, log, f, u, t);
    }
  }

  lemma WithVoteOk(h: History, f: nat, t: nat, c: nat, d: Disk)
    requires HistOk(h) && DiskOk(h, f, d) && (f, t) !in h.votes && t == d.wal.hard.term
    requires c in h.voters && (c, t) in h.candLog && AtLeastAsUpToDate(h.candLog[(c, t)], d.wal.data)
    ensures var h' := WithVote(h, f, t, c, d.wal.data); HistOk(h') && Ext(h, h', f)
  {
    assert (f, t) in h.voteLog ==> VoteLogOk(h, f, t);
    var h' := WithVote(h, f, t, c, d.wal.data);
    WithVoteExt(h, f, t, c, d.wal.data);
    if t !in h.llog { WithVoteLogOk(h, f, t, c, d); }
    assert VoteOk(h', f, t);
    CarryHistory(h, h', f);
  }

  /** As long as a term has no leader, it cannot be the one that lacked an entry. */
  lemma RetainsBeforeElection(h: History, log: Log, f: nat, u: nat, t: nat)
    requires RetainsAll(h, log, f, u, t + 1) && t !in h.llog
    ensures RetainsAll(h, log, f, u, t)
  {
    forall k | 0 <= k <= h.acks[(f, u)] && OwnEntry(h, u, k) ensures Retains(h, log, u, k, t) {
      assert Retains(h, log, u, k, t + 1);
    }
  }

  /** The acting node's own durable log under an extended history. */
  lemma OwnDisk(h: History, h': History, id: nat, d: Disk)
    requires Ext(h, h', id) && DiskOk(h, id, d) && h'.acks == h.acks
    requires forall u :: (id, u) in h.acks ==> AckOk(h, id, u)
    ensures LogOk(h', d.wal.data) && CommitOk(h', d.wal.data, d.wal.hard.commit, d.wal.hard.term)
    ensures forall u :: (id, u) in h'.acks ==> RetainsAll(h', d.wal.data, id, u, d.wal.hard.term + 1)
  {
    ExtLog(h, h', id, d.wal.data);
    ExtCommit(h, h', id, d.wal.data, d.wal.hard.commit, d.wal.hard.term);
    forall u | (id, u) in h'.acks ensures RetainsAll(h', d.wal.data, id, u, d.wal.hard.term + 1) {
      assert AckOk(h, id, u);
      ExtRetainsAll(h, h', id, d.wal.data, id, u, d.wal.hard.term + 1);
    }
  }

  lemma VotedDisk(h: History, id: nat, d: Disk, c: nat)
    requires HistOk(h) && DiskOk(h, id, d) && c != 0 && c in h.voters
    requires (id, d.wal.hard.term) !in h.votes
    requires (c, d.wal.hard.term) in h.candLog && AtLeastAsUpToDate(h.candLog[(c, d.wal.hard.term)], d.wal.data)
    ensures var h' := WithVote(h, id, d.wal.hard.term, c, d.wal.data);
            HistOk(h') && Ext(h, h', id)
            && DiskOk(h', id, Together(d, d.wal.(hard := HardState(d.wal.hard.term, c, d.wal.hard.commit))))
  {
    hide HistOk, Ext, LogOk, CommitOk, RetainsAll, TermsAtMost, AtLeastAsUpToDate;
    var h' := WithVote(h, id, d.wal.hard.term, c, d.wal.data);
    AckFacts(h, id);
    WithVoteOk(h, id, d.wal.hard.term, c, d);
    OwnDisk(h, h', id, d);
  }
}
