/** Elections and a leader's own appends and commits preserve the invariant. */
module RaftElect {
  import opened Masks
  import opened RaftTypes
  import opened RaftDisk
  import opened RaftNode
  import opened RaftHistory
  import opened RaftExtend
  import opened RaftFixed
  import opened RaftSteps

  // ------------------------------------------------------------ voting

  /** New votes and candidacies do not disturb what a live node claims. */
  lemma RolesUnderVotes(h: History, h': History, n: Node)
    requires LiveOk(h, n) && Ext(h, h', n.id)
    requires h'.llog == h.llog && h'.leaderOf == h.leaderOf && h'.acks == h.acks && h'.commits == h.commits
    ensures LiveOk(h', n)
  {
    assert n.role == Leader && BarrierHolds(h, n) ==> BarrierHolds(h', n);
  }

  lemma GrantedOk(h: History, n: Node, m: Message)
    requires m.RequestVote? && MessageOk(h, m) && StaticOk(h, n) && Synced(n)
    requires m.term == n.term && UpToDate(n, m.logIndex, m.logTerm)
    ensures (m.from, n.term) in h.candLog && AtLeastAsUpToDate(h.candLog[(m.from, n.term)], n.disk.wal.data)
  {}

  /** No vote yet in this term. */
  lemma NotVotedYet(h: History, n: Node)
    requires HistOk(h) && NodeOk(h, n) && !n.faulted && n.votedFor == 0
    ensures (n.id, n.term) !in h.votes
  {
    hide HistOk;
    VoteFacts(h, n.id, n.term);
    assert 0 !in Ids(n.votersOld);
  }

  lemma GrantOk(h: History, n: Node, m: Message) returns (h': History)
    requires HistOk(h) && NodeOk(h, n) && !n.faulted && m.RequestVote? && MessageOk(h, m)
    requires m.term == n.term && (n.votedFor == 0 || n.votedFor == m.from) && UpToDate(n, m.logIndex, m.logTerm)
    ensures var (n1, ok) := PersistHard(n, HardState(n.term, m.from, n.commit));
            var n2 := if ok then n1.(votedFor := m.from, elapsed := 0) else n1;
            Preserved(h, h', n.id, n2)
            && (ok ==> (n.id, n.term) in h'.votes && h'.votes[(n.id, n.term)] == m.from)
  {
    GrantedOk(h, n, m);
    var hard := HardState(n.term, m.from, n.commit);
    var attempt := SaveHard(n.disk, hard);
    WriteCases(n, attempt);
    var (n1, ok) := PersistHard(n, hard);
    var h1 := h;
    if n.votedFor == 0 {
      NotVotedYet(h, n);
      h1 := WithVote(h, n.id, n.term, m.from, n.log);
      VotedDisk(h, n.id, n.disk, m.from);
    } else {
      ExtRefl(h, n.id);
      assert attempt == Ok(n.disk);
    }
    assert DiskOk(h1, n.id, attempt.value);
    if !ok {
      h' := FailedWrite(h, h1, n, attempt);
    } else {
      h' := h1;
      RolesUnderVotes(h, h1, n);
      ExtOutbound(h, h1, n.id, n);
      GrantedNode(h1, n, n1.(votedFor := m.from, elapsed := 0));
    }
  }

  lemma GrantedNode(h: History, n: Node, n': Node)
    requires StaticOk(h, n) && OutboundOk(h, n) && LiveOk(h, n) && !n.faulted
    requires DiskOk(h, n.id, n'.disk) && Synced(n')
    requires n' == n.(disk := n'.disk, plan := n'.plan, votedFor := n'.votedFor, elapsed := n'.elapsed)
    ensures NodeOk(h, n')
  {
    assert n.role == Leader && BarrierHolds(h, n) ==> BarrierHolds(h, n');
  }

  lemma OnVoteOk(h: History, n: Node, m: Message) returns (h': History)
    requires HistOk(h) && NodeOk(h, n) && !n.faulted && m.RequestVote? && MessageOk(h, m) && m.to == n.id
    ensures Preserved(h, h', n.id, OnVote(n, m))
  {
    hide HistOk, NodeOk, Ext, DiskOk, LogOk, CommitOk, LiveOk, IsVoter, Write, UpToDate;
    Facts(h, n);
    NodeIsPlain(h, n);
    VoterFixed(n, m.from);
    var grant := IsVoter(n, m.from) && m.term == n.term && (n.votedFor == 0 || n.votedFor == m.from)
                 && UpToDate(n, m.logIndex, m.logTerm);
    if grant {
      h' := GrantOk(h, n, m);
      var (n1, ok) := PersistHard(n, HardState(n.term, m.from, n.commit));
      WriteCases(n, SaveHard(n.disk, HardState(n.term, m.from, n.commit)));
      if ok {
        var n2 := n1.(votedFor := m.from, elapsed := 0);
        Facts(h', n2);
        SendOk(h', n2, RequestVoteResponse(n.id, m.from, n.term, false));
      }
    } else {
      h' := h;
      ExtRefl(h, n.id);
      SendOk(h, n, RequestVoteResponse(n.id, m.from, n.term, true));
    }
  }

  // ------------------------------------------------------------ candidacy

  ghost function WithCandidacy(h: History, c: nat, t: nat, log: Log): History {
    h.(candLog := h.candLog[(c, t) := log])
  }

  lemma WithCandidacyOk(h: History, id: nat, d: Disk)
    requires HistOk(h) && DiskOk(h, id, d) && d.wal.hard.term > 0 && TermsAtMost(d.wal.data, d.wal.hard.term - 1)
    requires (id, d.wal.hard.term) !in h.candLog
    ensures var h' := WithCandidacy(h, id, d.wal.hard.term, d.wal.data);
            HistOk(h') && Ext(h, h', id) && DiskOk(h', id, d)
  {
    var t := d.wal.hard.term;
    var h' := WithCandidacy(h, id, t, d.wal.data);
    ExtRefl(h, id);
    assert Ext(h, h', id);
    OwnDisk(h, h', id, d);
    assert CandidacyOk(h', id, t);
    CarryHistory(h, h', id);
  }

  /** Durable effect of starting an election: a new term and a vote for oneself. */
  lemma CandidateDisk(h: History, id: nat, d: Disk) returns (h': History)
    requires HistOk(h) && DiskOk(h, id, d) && id in h.voters && id != 0
    ensures HistOk(h') && Ext(h, h', id)
    ensures var t := d.wal.hard.term + 1;
            DiskOk(h', id, Together(d, d.wal.(hard := HardState(t, id, d.wal.hard.commit))))
            && (id, t) in h'.candLog && h'.candLog[(id, t)] == d.wal.data
            && (id, t) in h'.votes && h'.votes[(id, t)] == id
            && !(t in h'.leaderOf && h'.leaderOf[t] == id)
  {
    hide HistOk, Ext, LogOk, CommitOk, RetainsAll;
    var t := d.wal.hard.term + 1;
    var d1 := Together(d, d.wal.(hard := HardState(t, 0, d.wal.hard.commit)));
    NewTermDisk(h, id, d, t);
    TermFacts(h, t);
    var h1 := WithCandidacy(h, id, t, d.wal.data);
    WithCandidacyOk(h, id, d1);
    VotedDisk(h1, id, d1, id);
    h' := WithVote(h1, id, t, id, d.wal.data);
    ExtTrans(h, h1, h', id);
  }

  /** The candidate's state right after its election started. */
  function Campaigning(n: Node, stored: Node): Node {
    stored.(role := Candidate, term := n.term + 1, votedFor := n.id, elapsed := 0,
            voteMask := NodeBit(n.id), preVoteMask := 0)
  }

  lemma CampaignOk(h: History, n: Node) returns (h': History)
    requires HistOk(h) && NodeOk(h, n) && !n.faulted && n.role != Leader
    ensures var (n1, ok) := PersistHard(n, HardState(n.term + 1, n.id, n.commit));
            Preserved(h, h', n.id, if ok then Campaigning(n, n1) else n1)
  {
    hide HistOk, Ext, LogOk, CommitOk, NodeOk;
    Facts(h, n);
    var h1 := CandidateDisk(h, n.id, n.disk);
    var hard := HardState(n.term + 1, n.id, n.commit);
    var attempt := SaveHard(n.disk, hard);
    WriteCases(n, attempt);
    var (n1, ok) := PersistHard(n, hard);
    if !ok {
      h' := FailedWrite(h, h1, n, attempt);
    } else {
      h' := h1;
      ExtOutbound(h, h1, n.id, n);
      ExtStatic(h, h1, n.id, n);
      RecordingAddsSender(0, n.id);
      LiveNodeOk(h1, Campaigning(n, n1));
    }
  }

  lemma ExtStatic(h: History, h': History, i: nat, n: Node)
    requires Ext(h, h', i) && StaticOk(h, n)
    ensures StaticOk(h', n)
  {}

  lemma StartElectionOk(h: History, n: Node) returns (h': History)
    requires HistOk(h) && NodeOk(h, n) && !n.faulted && n.role != Leader
    ensures Preserved(h, h', n.id, StartElection(n))
  {
    hide HistOk, Ext, LogOk, CommitOk, NodeOk, DiskOk;
    var h1 := CampaignOk(h, n);
    h' := h1;
    var (n1, ok) := PersistHard(n, HardState(n.term + 1, n.id, n.commit));
    WriteCases(n, SaveHard(n.disk, HardState(n.term + 1, n.id, n.commit)));
    if ok {
      var n2 := Campaigning(n, n1);
      Facts(h1, n2);
      var last := LastIndex(n2);
      var message := (p: NodeId) => RequestVote(n2.id, p, n2.term, last, TermAt(n2, last));
      SendToPeersOk(h1, n2, 0, message);
      var n3 := SendToPeers(n2, 0, message);
      NodeIsPlain(h1, n3);
      QuorumFixed(n3, n3.voteMask);
      if Quorum(n3, n3.voteMask) {
        h' := BecomeLeaderOk(h1, n3);
        PreservedTrans(h, h1, h', n.id, n3, BecomeLeader(n3));
      }
    }
  }

  lemma StartPreVoteOk(h: History, n: Node) returns (h': History)
    requires HistOk(h) && NodeOk(h, n) && !n.faulted && n.role != Leader
    ensures Preserved(h, h', n.id, StartPreVote(n))
  {
    hide HistOk, Ext, NodeOk, StartElection, SendToPeers, Quorum, DiskOk, LiveOk, LogOk, CommitOk;
    Facts(h, n);
    var n1 := n.(elapsed := 0, preVoteTerm := n.term + 1, leader := 0, preVoteMask := NodeBit(n.id));
    QuietOk(h, n, n1);
    var last := LastIndex(n1);
    var message := (p: NodeId) => PreVote(n1.id, p, n1.preVoteTerm, last, TermAt(n1, last));
    SendToPeersOk(h, n1, 0, message);
    var n2 := SendToPeers(n1, 0, message);
    if Quorum(n2, n2.preVoteMask) {
      h' := StartElectionOk(h, n2);
    } else {
      h' := h;
      ExtRefl(h, n.id);
    }
  }

  // ------------------------------------------------------------ a leader's log

  function Grown(log: Log, e: Entry): Log {
    log + [e]
  }

  ghost function WithLeader(h: History, c: nat, t: nat, log: Log, electors: set<nat>): History {
    h.(llog := h.llog[t := log], leaderOf := h.leaderOf[t := c], electors := h.electors[t := electors])
  }

  ghost function WithLeaderLog(h: History, t: nat, log: Log): History {
    h.(llog := h.llog[t := log])
  }

  /** One more entry of the leader's own term keeps its log in order. */
  lemma LeaderLogGrows(h: History, h': History, i: nat, log: Log, e: Entry)
    requires HistOk(h) && LeadersExtend(h, h', i) && LogOk(h, log) && TermsAtMost(log, e.term) && e.term > 0 && Plain(e)
    requires e.term in h'.llog && h'.llog[e.term] == log + [e]
    ensures LogOk(h', log + [e]) && Monotone(log + [e]) && AllPlain(log + [e])
  {
    var l: Log := log + [e];
    LogIsMonotone(h, log);
    PlainLog(h, log);
    ExtLog(h, h', i, log);
    forall k | 1 <= k < |l| ensures EntryOk(h', l, k) {
      if k < |log| {
        assert EntryOk(h', log, k);
        PrefixAgrees(log, l, k);
      }
    }
  }

  lemma WithLeaderOk(h: History, n: Node)
    requires HistOk(h) && NodeOk(h, n) && !n.faulted && n.role == Candidate && n.term !in h.llog && n.term > 0
    requires n.term !in h.electors && Majority(h.voters, Ids(n.voteMask))
    ensures var h' := WithLeader(h, n.id, n.term, Grown(n.log, NoopEntry(n.term)), Ids(n.voteMask));
            HistOk(h') && Ext(h, h', n.id)
  {
    hide HistOk, Ext, NodeOk, LogOk, DiskOk, Monotone, AllPlain;
    var t := n.term;
    var log := Grown(n.log, NoopEntry(t));
    var h' := WithLeader(h, n.id, t, log, Ids(n.voteMask));
    TermFacts(h, t);
    Facts(h, n);
    ElectoralFacts(h, n);
    WithLeaderExt(h, n.id, t, log, Ids(n.voteMask));
    ExtLeaders(h, h', n.id);
    LeaderLogGrows(h, h', n.id, n.log, NoopEntry(t));
    assert Extends(log, n.log, t) by { assert log[..|n.log|] == n.log; }
    assert ElectionOk(h', t);
    assert LeaderLogOk(h', t);
    CarryHistory(h, h', n.id);
  }

  lemma ExtLeaders(h: History, h': History, i: nat)
    requires Ext(h, h', i)
    ensures LeadersExtend(h, h', i)
  {}

  lemma ElectoralFacts(h: History, n: Node)
    requires HistOk(h) && NodeOk(h, n) && !n.faulted && n.role == Candidate && n.term !in h.llog
    ensures forall f :: f in Ids(n.voteMask) ==>
              (f, n.term) in h.votes && h.votes[(f, n.term)] == n.id && (f, n.term) in h.voteLog
    ensures TermsAtMost(n.log, n.term)
    ensures (n.id, n.term) in h.candLog && h.candLog[(n.id, n.term)] == n.log
  {
    hide HistOk;
    forall f | f in Ids(n.voteMask) ensures (f, n.term) in h.voteLog {
      VoteFacts(h, f, n.term);
    }
  }

  lemma WithLeaderExt(h: History, c: nat, t: nat, log: Log, electors: set<nat>)
    requires t !in h.llog && t !in h.leaderOf && t !in h.electors
    ensures Ext(h, WithLeader(h, c, t, log, electors), c)
  {
    ExtRefl(h, c);
  }

  lemma WithLeaderLogOk(h: History, n: Node, e: Entry)
    requires HistOk(h) && NodeOk(h, n) && !n.faulted && n.role == Leader && Plain(e) && e.term == n.term
    ensures var h' := WithLeaderLog(h, n.term, Grown(n.log, e)); HistOk(h') && Ext(h, h', n.id)
  {
    hide HistOk, Ext, NodeOk, LogOk, Monotone, AllPlain, Extends, Plain;
    var t := n.term;
    var log := Grown(n.log, e);
    var h' := WithLeaderLog(h, t, log);
    Facts(h, n);
    TermFacts(h, t);
    WithLeaderLogExt(h, n.id, t, n.log, e);
    ExtLeaders(h, h', n.id);
    LeaderLogGrows(h, h', n.id, n.log, e);
    ExtendsTrans(h.candLog[(n.id, t)], n.log, log, t);
    assert LeaderLogOk(h', t);
    CarryHistory(h, h', n.id);
  }

  lemma WithLeaderLogExt(h: History, c: nat, t: nat, log: Log, e: Entry)
    requires t in h.llog && t in h.leaderOf && h.leaderOf[t] == c && h.llog[t] == log && e.term == t
    ensures Ext(h, WithLeaderLog(h, t, Grown(log, e)), c)
    ensures Extends(Grown(log, e), log, t)
  {
    ExtRefl(h, c);
    var l: Log := log + [e];
    assert l[..|log|] == log;
  }

  /** The leader's durable log after storing its new entry. */
  lemma AppendedDisk(h: History, h1: History, id: nat, d: Disk, e: Entry)
    requires DiskOk(h, id, d) && Ext(h, h1, id) && h1.acks == h.acks && h1.votes == h.votes && h1.candLog == h.candLog
    requires forall u :: (id, u) in h.acks ==> AckOk(h, id, u)
    requires e.term == d.wal.hard.term && e.term > 0
    requires e.term in h1.llog && h1.llog[e.term] == d.wal.data + [e]
    ensures DiskOk(h1, id, Together(d, d.wal.(data := d.wal.data + [e])))
  {
    var log, l := d.wal.data, d.wal.data + [e];
    OwnDisk(h, h1, id, d);
    forall k | 1 <= k < |l| ensures EntryOk(h1, l, k) {
      if k < |log| {
        assert EntryOk(h1, log, k);
        PrefixAgrees(log, l, k);
      }
    }
    LongerLog(h1, id, log, l, d.wal.hard.commit, d.wal.hard.term);
  }

  /** What a log retains or has committed, any longer log does too. */
  lemma LongerLog(h: History, id: nat, log: Log, l: Log, commit: nat, term: nat)
    requires Prefix(log, l) && CommitOk(h, log, commit, term)
    requires forall u :: (id, u) in h.acks ==> RetainsAll(h, log, id, u, term + 1)
    ensures CommitOk(h, l, commit, term)
    ensures forall u :: (id, u) in h.acks ==> RetainsAll(h, l, id, u, term + 1)
  {
    if commit != 0 {
      var t: nat :| t <= term && CommittedAt(h, log, commit, t);
      PrefixAgrees(log, l, commit);
      assert CommittedAt(h, l, commit, t);
    }
    forall u | (id, u) in h.acks ensures RetainsAll(h, l, id, u, term + 1) {
      assert RetainsAll(h, log, id, u, term + 1);
      forall k | 0 <= k <= h.acks[(id, u)] && OwnEntry(h, u, k) ensures Retains(h, l, u, k, term + 1) {
        assert Retains(h, log, u, k, term + 1);
        if Agree(log, h.llog[u], k) { PrefixAgrees(log, l, k); }
      }
    }
  }

  // ------------------------------------------------------------ committing as leader

  ghost function WithCommit(h: History, id: nat, t: nat, k: nat): History {
    h.(acks := h.acks[(id, t) := if (id, t) in h.acks then Max(h.acks[(id, t)], k) else k],
       commits := h.commits[t := k])
  }

  lemma WithCommitExt(h: History, id: nat, t: nat, k: nat)
    requires t in h.leaderOf && h.leaderOf[t] == id && (t in h.commits ==> h.commits[t] <= k)
    ensures Ext(h, WithCommit(h, id, t, k), id)
  {
    ExtRefl(h, id);
  }

  lemma WithCommitOk(h: History, id: nat, t: nat, k: nat, acked: set<nat>)
    requires HistOk(h) && t in h.leaderOf && h.leaderOf[t] == id && (t in h.commits ==> h.commits[t] <= k)
    requires OwnEntry(h, t, k) && id in h.voters
    requires Majority(h.voters, acked) && forall f :: f in acked && f in h.voters && f != id ==> f in Ackers(h, t, k)
    requires forall u :: (id, u) in h.votes ==> u <= t
    ensures HistOk(WithCommit(h, id, t, k))
  {
    hide HistOk, Ext, Majority;
    var h' := WithCommit(h, id, t, k);
    WithCommitExt(h, id, t, k);
    forall u | (id, u) in h'.voteLog ensures u <= t { VoteFacts(h, id, u); }
    assert AcksAreRecent(h, h', id);
    VoteFacts(h, id, t);
    assert AckOk(h', id, t);
    assert h.voters * acked <= Ackers(h', t, k);
    MajorityOfVoters(h.voters, acked, Ackers(h', t, k));
    assert CommitRecordOk(h', t);
    CarryHistory(h, h', id);
  }

  lemma MajorityOfVoters(voters: set<nat>, a: set<nat>, b: set<nat>)
    requires Majority(voters, a) && voters * a <= b
    ensures Majority(voters, b)
  {
    assert voters * (voters * a) == voters * a;
    MajorityGrows(voters, voters * a, b);
  }

  /** The leader's disk after its commit index moved to `k`. */
  lemma CommittedDisk(h: History, id: nat, d: Disk, k: nat)
    requires HistOk(h) && DiskOk(h, id, d)
    requires var t := d.wal.hard.term;
             t in h.leaderOf && h.leaderOf[t] == id && (t in h.commits ==> h.commits[t] <= k)
             && OwnEntry(h, t, k) && h.llog[t] == d.wal.data
    ensures var h' := WithCommit(h, id, d.wal.hard.term, k);
            DiskOk(h', id, Together(d, d.wal.(hard := d.wal.hard.(commit := k))))
  {
    hide HistOk, LogOk;
    var t := d.wal.hard.term;
    var h' := WithCommit(h, id, t, k);
    WithCommitExt(h, id, t, k);
    ExtLog(h, h', id, d.wal.data);
    assert CommittedAt(h', d.wal.data, k, t);
    forall u | (id, u) in h'.acks ensures u <= t && RetainsAll(h', d.wal.data, id, u, t + 1) {
      if u == t {
        OwnLogRetains(h', d.wal.data, id, t);
      } else {
        VoteFacts(h, id, u);
        ExtRetainsAll(h, h', id, d.wal.data, id, u, t + 1);
      }
    }
  }

  lemma OwnLogRetains(h: History, log: Log, id: nat, t: nat)
    requires (id, t) in h.acks && t in h.llog && h.llog[t] == log
    ensures RetainsAll(h, log, id, t, t + 1)
  {
    forall j | 0 <= j <= h.acks[(id, t)] && OwnEntry(h, t, j) ensures Retains(h, log, t, j, t + 1) {
      assert Agree(log, h.llog[t], j);
    }
  }

  /** What a live leader claims survives its own commit. */
  lemma LeaderUnderCommit(h: History, n: Node, n': Node)
    requires NodeOk(h, n) && !n.faulted && n.role == Leader && n.commit <= n'.commit
    requires n' == n.(disk := n'.disk, plan := n'.plan, commit := n'.commit) && Synced(n')
    requires var h' := WithCommit(h, n.id, n.term, n'.commit); Ext(h, h', n.id) && DiskOk(h', n.id, n'.disk)
    ensures NodeOk(WithCommit(h, n.id, n.term, n'.commit), n')
  {
    var h' := WithCommit(h, n.id, n.term, n'.commit);
    ExtOutbound(h, h', n.id, n);
    assert BarrierHolds(h, n) ==> BarrierHolds(h', n');
    assert LeaderCore(h', n');
    assert MatchedOk(h', n');
  }

  /** Committing `k` as leader with the acknowledgements of `acked`. */
  lemma CommitAsLeader(h: History, n: Node, k: nat, acked: set<nat>) returns (h': History)
    requires HistOk(h) && NodeOk(h, n) && !n.faulted && n.role == Leader
    requires n.commit < k < |n.log| && n.log[k].term == n.term
    requires Majority(h.voters, acked)
    requires forall f :: f in acked && f in h.voters && f != n.id ==> f in Ackers(h, n.term, k)
    ensures var (n1, ok) := PersistHard(n, HardState(n.term, n.votedFor, k));
            Preserved(h, h', n.id, if ok then n1.(commit := k) else n1)
  {
    hide HistOk, Ext, NodeOk, LogOk, CommitOk, Ackers, Majority, WithCommit;
    Facts(h, n);
    var h1 := WithCommit(h, n.id, n.term, k);
    WithCommitExt(h, n.id, n.term, k);
    WithCommitOk(h, n.id, n.term, k, acked);
    CommittedDisk(h, n.id, n.disk, k);
    var hard := HardState(n.term, n.votedFor, k);
    var attempt := SaveHard(n.disk, hard);
    WriteCases(n, attempt);
    var (n1, ok) := PersistHard(n, hard);
    if !ok {
      h' := FailedWrite(h, h1, n, attempt);
    } else {
      h' := h1;
      LeaderUnderCommit(h, n, n1.(commit := k));
    }
  }

  // ------------------------------------------------------------ appending as leader

  /** The state before a leader's append: an established leader, or a candidate just elected. */
  ghost predicate ReadyToAppend(h: History, n: Node) {
    && !n.faulted && n.role == Leader
    && StaticOk(h, n) && DiskOk(h, n.id, n.disk) && Synced(n) && OutboundOk(h, n)
    && (BarrierHolds(h, n)
        || (!n.readReady && (n.readContext in h.barriers ==> h.barriers[n.readContext].term != n.term)))
  }

  lemma ReadyFacts(h: History, n: Node)
    requires ReadyToAppend(h, n)
    ensures StaticOk(h, n) && DiskOk(h, n.id, n.disk) && Synced(n)
    ensures LogOk(h, n.log) && CommitOk(h, n.log, n.commit, n.disk.wal.hard.term)
    ensures n.disk.wal.base == 0
  {}

  /** The history in which the leader of `n.term` has the entry `e`. */
  ghost predicate HasEntry(h: History, h1: History, n: Node, e: Entry) {
    && HistOk(h1) && Ext(h, h1, n.id)
    && h1.acks == h.acks && h1.votes == h.votes && h1.candLog == h.candLog && h1.commits == h.commits
    && e.term == n.term && n.term > 0
    && n.term in h1.llog && h1.llog[n.term] == n.log + [e] && n.term in h1.leaderOf && h1.leaderOf[n.term] == n.id
    && (n.term in h.commits ==> h.commits[n.term] <= n.commit)
  }

  lemma StoredEntry(h: History, h1: History, n: Node, e: Entry, n2: Node)
    requires ReadyToAppend(h, n) && HasEntry(h, h1, n, e)
    requires DiskOk(h1, n.id, n2.disk) && n2.disk == Together(n.disk, n.disk.wal.(data := n.disk.wal.data + [e]))
    requires n2 == n.(disk := n2.disk, plan := n2.plan, log := n.log + [e], matched := map[])
    ensures NodeOk(h1, n2)
  {
    hide HistOk, DiskOk;
    ExtOutbound(h, h1, n.id, n);
    assert BarrierHolds(h, n) ==> BarrierHolds(h1, n2);
    assert LeaderCore(h1, n2);
    LiveNodeOk(h1, n2);
  }

  /** The write of a leader's own entry, and the node that remembers it. */
  function StoreOwn(n: Node, e: Entry): (Node, bool) {
    Write(n, AppendEntry(n.disk, LastIndex(n) + 1, e))
  }

  function Remembering(n: Node, e: Entry): Node {
    n.(log := n.log + [e])
  }

  function Bare(n: Node): Node {
    n.(matched := map[])
  }

  /** Storing the entry. */
  lemma StoreOwnEntry(h: History, h1: History, n: Node, e: Entry) returns (h': History)
    requires HistOk(h) && ReadyToAppend(h, n) && HasEntry(h, h1, n, e)
    ensures var (n1, ok) := StoreOwn(n, e);
            if ok then h' == h1 && NodeOk(h1, Bare(Remembering(n1, e))) else Preserved(h, h', n.id, n1)
  {
    hide HistOk, NodeOk, Ext, LogOk, DiskOk, CommitOk, ReadyToAppend;
    ReadyFacts(h, n);
    var attempt := AppendEntry(n.disk, LastIndex(n) + 1, e);
    assert n.log[..|n.log|] == n.log;
    assert attempt == Ok(Together(n.disk, n.disk.wal.(data := n.disk.wal.data + [e])));
    AckFacts(h, n.id);
    AppendedDisk(h, h1, n.id, n.disk, e);
    WriteCases(n, attempt);
    var (n1, ok) := Write(n, attempt);
    if !ok {
      h' := FailedWrite(h, h1, n, attempt);
    } else {
      h' := h1;
      StoredEntry(h, h1, n, e, n1.(log := n1.log + [e], matched := map[]));
    }
  }

  /** Persisting neither reads nor changes the match indexes. */
  lemma PersistFacts(n: Node, hard: HardState)
    ensures var (n1, ok) := PersistHard(n, hard);
            PersistHard(Bare(n), hard) == (Bare(n1), ok)
            && (ok ==> n1 == n.(disk := n1.disk, plan := n1.plan)) && (!ok ==> n1.faulted)
  {}

  lemma ApplyNothing(h: History, n: Node, n1: Node, commit: nat)
    requires HistOk(h) && NodeOk(h, Bare(n)) && n1 == n.(disk := n1.disk, plan := n1.plan, commit := n1.commit)
    ensures ApplyCommitted(n1, commit) == n1
  {
    hide HistOk, DiskOk, LiveOk, OutboundOk, CommitOk, LogOk;
    NodeIsPlain(h, n);
    ApplyFixed(n1, Max(commit, n1.baseIndex) + 1, n1.commit);
  }

  /** A single voter commits what it stored at once. */
  lemma CommitAlone(h: History, n: Node) returns (h': History)
    requires HistOk(h) && NodeOk(h, Bare(n)) && !n.faulted && n.role == Leader && n.baseIndex == 0
    requires Majority(h.voters, {n.id}) && n.commit < LastIndex(n) && LastTerm(n.log) == n.term
    ensures var (n1, ok) := PersistHard(n, HardState(n.term, n.votedFor, LastIndex(n)));
            if ok then
              ApplyCommitted(n1.(commit := LastIndex(n)), n.commit) == n1.(commit := LastIndex(n))
              && HistOk(h') && Ext(h, h', n.id) && NodeOk(h', Bare(n1.(commit := LastIndex(n))))
            else Preserved(h, h', n.id, n1)
  {
    hide HistOk, NodeOk, Ext, Ackers, Majority, PersistHard, ApplyCommitted;
    var k := LastIndex(n);
    var hard := HardState(n.term, n.votedFor, k);
    h' := CommitAsLeader(h, Bare(n), k, {n.id});
    PersistFacts(n, hard);
    var (n1, ok) := PersistHard(n, hard);
    if ok {
      ApplyNothing(h, n, n1.(commit := k), n.commit);
    } else {
      FaultedForgetsMatches(h', n1);
    }
  }

  lemma AppendLocalOk(h: History, h1: History, n: Node, e: Entry) returns (h': History)
    requires HistOk(h) && ReadyToAppend(h, n) && HasEntry(h, h1, n, e)
    ensures var (n', ok) := AppendLocal(n, e);
            if ok then HistOk(h') && Ext(h, h', n.id) && NodeOk(h', Bare(n')) && n'.id == n.id
                       && n'.matched == n.matched && n'.peers == n.peers && n'.term == n.term
                       && n'.role == Leader && !n'.faulted
            else Preserved(h, h', n.id, n')
  {
    hide HistOk, NodeOk, Ext, LogOk, CommitOk, Majority, Write, Quorum, ApplyCommitted, PersistHard, DiskOk, LiveOk,
         AppendEntry;
    h' := StoreOwnEntry(h, h1, n, e);
    var (n1, ok) := StoreOwn(n, e);
    WriteCases(n, AppendEntry(n.disk, LastIndex(n) + 1, e));
    if ok {
      var n2 := Remembering(n1, e);
      Facts(h1, Bare(n2));
      NodeIsPlain(h1, n2);
      QuorumFixed(n2, NodeBit(n2.id));
      RecordingAddsSender(0, n.id);
      if Quorum(n2, NodeBit(n2.id)) {
        CommitBelowLog(h, n);
        var h2 := CommitAlone(h1, n2);
        ExtTrans(h, h1, h2, n.id);
        PersistFacts(n2, HardState(n2.term, n2.votedFor, LastIndex(n2)));
        h' := h2;
      }
    }
  }

  lemma CommitBelowLog(h: History, n: Node)
    requires ReadyToAppend(h, n)
    ensures n.commit < |n.log|
  {}

  lemma FaultedForgetsMatches(h: History, n: Node)
    requires n.faulted && NodeOk(h, Bare(n))
    ensures NodeOk(h, n)
  {}

  lemma BecomeLeaderOk(h: History, n: Node) returns (h': History)
    requires HistOk(h) && NodeOk(h, n) && !n.faulted && n.role == Candidate && Majority(h.voters, Ids(n.voteMask))
    ensures Preserved(h, h', n.id, BecomeLeader(n))
  {
    hide HistOk, NodeOk, Ext, LogOk, Majority, ReadyToAppend, AppendLocal;
    FirstLeaderOfTerm(h, n);
    WithLeaderOk(h, n);
    var e := NoopEntry(n.term);
    var h1 := WithLeader(h, n.id, n.term, Grown(n.log, e), Ids(n.voteMask));
    var n1 := n.(role := Leader, leader := n.id, elapsed := 0);
    NewLeaderReady(h, n, n1);
    var h2 := AppendLocalOk(h, h1, n1, e);
    h' := h2;
    var (n2, ok) := AppendLocal(n1, e);
    if ok {
      var last := LastIndex(n2) + 1;
      var n3 := n2.(next := Reset(n2.next, n2.peers, last), matched := Reset(n2.matched, n2.peers, 0));
      ResetMatches(h2, n2, n3);
      BroadcastOk(h2, n3, 0);
    }
  }

  /** A candidate with a majority is the first leader its term has. */
  lemma FirstLeaderOfTerm(h: History, n: Node)
    requires HistOk(h) && NodeOk(h, n) && !n.faulted && n.role == Candidate && Majority(h.voters, Ids(n.voteMask))
    ensures n.term !in h.llog && n.term !in h.leaderOf && n.term !in h.electors && n.term > 0
  {
    hide HistOk, Majority;
    TermFacts(h, n.term);
    VoteFacts(h, n.id, n.term);
    if n.term in h.llog { OneWinnerPerTerm(h, n.term, n.id, Ids(n.voteMask)); }
  }

  lemma NewLeaderReady(h: History, n: Node, n1: Node)
    requires HistOk(h) && NodeOk(h, n) && !n.faulted && n.role == Candidate && n.term !in h.llog
    requires n1 == n.(role := Leader, leader := n.id, elapsed := 0)
    ensures ReadyToAppend(h, n1)
    ensures n.term !in h.commits
  {
    hide HistOk;
    TermFacts(h, n.term);
    BarrierFacts(h, n.readContext);
  }

  lemma ResetMatches(h: History, n: Node, n': Node)
    requires NodeOk(h, Bare(n)) && !n.faulted && n.role == Leader
    requires n' == n.(next := n'.next, matched := Reset(n.matched, n.peers, 0))
    ensures NodeOk(h, n')
  {
    var bare := n.(matched := map[]);
    assert BarrierHolds(h, bare) ==> BarrierHolds(h, n');
    assert LeaderCore(h, n');
    assert MatchedOk(h, n');
  }

  lemma ProposeEntryOk(h: History, n: Node, e: Entry) returns (h': History)
    requires HistOk(h) && NodeOk(h, n) && !n.faulted && n.role == Leader && Plain(e) && e.term == n.term
    ensures Preserved(h, h', n.id, ProposeEntry(n, e))
  {
    hide HistOk, NodeOk, Ext, LogOk, CommitOk, DiskOk, Plain;
    Facts(h, n);
    WithLeaderLogOk(h, n, e);
    TermFacts(h, n.term);
    var h1 := WithLeaderLog(h, n.term, Grown(n.log, e));
    h' := AppendLocalOk(h, h1, n, e);
    var (n1, ok) := AppendLocal(n, e);
    if ok {
      KeepMatches(h, h', n, n1);
      BroadcastOk(h', n1, 0);
    }
  }

  lemma KeepMatches(h: History, h': History, n: Node, n1: Node)
    requires MatchedOk(h, n) && Ext(h, h', n.id) && NodeOk(h', Bare(n1)) && !n1.faulted && n1.role == Leader
    requires n1.matched == n.matched && n1.peers == n.peers && n1.term == n.term
    ensures NodeOk(h', n1)
  {
    var bare := n1.(matched := map[]);
    assert BarrierHolds(h', bare) ==> BarrierHolds(h', n1);
    assert LeaderCore(h', n1);
    assert MatchedOk(h', n1);
  }
}
