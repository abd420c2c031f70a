/** Log replication, read barriers and restarts preserve the invariant. */
module RaftReplicate {
  import opened Masks
  import opened RaftTypes
  import opened RaftDisk
  import opened RaftNode
  import opened RaftHistory
  import opened RaftExtend
  import opened RaftFixed
  import opened RaftSteps
  import opened RaftElect

  // ------------------------------------------------------------ accepting entries

  lemma LeaderTerms(h: History, t: nat)
    requires LeaderLogOk(h, t) && CandidacyOk(h, h.leaderOf[t], t)
    ensures TermsAtMost(h.llog[t], t)
  {
    var c, l := h.candLog[(h.leaderOf[t], t)], h.llog[t];
    forall k | 0 <= k < |l| ensures l[k].term <= t {
      if k < |c| {
        PrefixAgrees(c, l, k);
        AgreeDown(c, l, k, k);
      }
    }
  }

  lemma LeaderLogFacts(h: History, t: nat)
    requires HistOk(h) && t in h.llog
    ensures LogOk(h, h.llog[t]) && Monotone(h.llog[t]) && AllPlain(h.llog[t]) && TermsAtMost(h.llog[t], t)
    ensures t in h.leaderOf && t > 0
  {
    hide HistOk;
    TermFacts(h, t);
    VoteFacts(h, h.leaderOf[t], t);
    LeaderTerms(h, t);
  }

  lemma PrefixLogOk(h: History, log: Log, at: nat)
    requires LogOk(h, log) && 0 < at <= |log|
    ensures LogOk(h, log[..at])
  {
    var l: Log := log[..at];
    forall k | 1 <= k < |l| ensures EntryOk(h, l, k) {
      assert EntryOk(h, log, k);
      PrefixAgrees(l, log, k);
    }
  }

  /** The log after taking over the leader's entry at `at`. */
  function Spliced(log: Log, at: nat, e: Entry): Log
    requires at <= |log|
  {
    log[..at] + [e]
  }

  lemma SplicedAgrees(log: Log, leader: Log, at: nat, e: Entry)
    requires 0 < at <= |log| && at < |leader| && Agree(log, leader, at - 1) && e == leader[at]
    ensures Agree(Spliced(log, at, e), leader, at)
  {
    assert leader[..at + 1] == leader[..at] + [leader[at]];
    assert Spliced(log, at, e)[..at + 1] == Spliced(log, at, e);
  }

  lemma SplicedLogOk(h: History, log: Log, t: nat, at: nat, e: Entry)
    requires t in h.llog && LogOk(h, h.llog[t]) && TermsAtMost(h.llog[t], t)
    requires 0 < at <= |log| && Agree(Spliced(log, at, e), h.llog[t], at)
    ensures LogOk(h, Spliced(log, at, e)) && TermsAtMost(Spliced(log, at, e), t)
  {
    var l, leader := Spliced(log, at, e), h.llog[t];
    forall k | 0 <= k < |l| ensures l[k] == leader[k] && Agree(l, leader, k) { AgreeDown(l, leader, at, k); }
    forall k | 1 <= k < |l| ensures EntryOk(h, l, k) { assert EntryOk(h, leader, k); }
  }

  /** Committed entries are never cut off: the leader has them too. */
  lemma CutIsAboveCommit(h: History, log: Log, commit: nat, t: nat, at: nat, e: Entry)
    requires HistOk(h) && CommitOk(h, log, commit, t) && t in h.llog
    requires 0 < at < |h.llog[t]| && e == h.llog[t][at]
    requires at < |log| ==> log[at].term != e.term
    requires at <= |log|
    ensures commit < at
  {
    hide HistOk;
    if commit != 0 {
      var u: nat :| u <= t && CommittedAt(h, log, commit, u);
      LeaderHasCommitted(h, log, commit, u, t);
      if at <= commit { AgreeDown(log, h.llog[t], commit, at); }
    }
  }

  /** Acknowledged entries survive unless this very leader lacks them. */
  lemma SplicedRetains(h: History, log: Log, f: nat, u: nat, t: nat, at: nat, e: Entry)
    requires RetainsAll(h, log, f, u, t + 1) && u <= t && t in h.llog
    requires 0 < at <= |log| && at < |h.llog[t]| && e == h.llog[t][at]
    requires at < |log| ==> log[at].term != e.term
    requires Agree(Spliced(log, at, e), h.llog[t], at)
    ensures RetainsAll(h, Spliced(log, at, e), f, u, t + 1)
  {
    var l, leader := Spliced(log, at, e), h.llog[t];
    forall k | 0 <= k <= h.acks[(f, u)] && OwnEntry(h, u, k) ensures Retains(h, l, u, k, t + 1) {
      assert Retains(h, log, u, k, t + 1);
      if Agree(log, h.llog[u], k) {
        if Agree(leader, h.llog[u], k) {
          if k > at { AgreeDown(log, leader, k, at); }
          AgreeDown(l, leader, at, k);
        } else {
          assert Missing(h, u, k, t);
        }
      }
    }
  }

  lemma SplicedCommit(h: History, log: Log, commit: nat, term: nat, at: nat, e: Entry)
    requires CommitOk(h, log, commit, term) && commit < at <= |log|
    ensures CommitOk(h, Spliced(log, at, e), commit, term)
    ensures CommitOk(h, log[..at], commit, term)
  {
    if commit != 0 {
      var t: nat :| t <= term && CommittedAt(h, log, commit, t);
      var l: Log, c: Log := Spliced(log, at, e), log[..at];
      assert l[..commit + 1] == log[..commit + 1] == c[..commit + 1];
      assert CommittedAt(h, l, commit, t) && CommittedAt(h, c, commit, t);
    }
  }

  /** The durable log of a follower after it stored the leader's entry. */
  lemma FollowerDisk(h: History, id: nat, d: Disk, at: nat, e: Entry)
    requires HistOk(h) && DiskOk(h, id, d) && d.wal.hard.term in h.llog
    requires var t := d.wal.hard.term;
             0 < at <= |d.wal.data| && at < |h.llog[t]| && e == h.llog[t][at]
             && Agree(d.wal.data, h.llog[t], at - 1)
             && (at < |d.wal.data| ==> d.wal.data[at].term != e.term)
    ensures DiskOk(h, id, Together(d, d.wal.(data := Spliced(d.wal.data, at, e))))
    ensures d.wal.hard.commit < at
  {
    hide HistOk, LogOk, CommitOk, RetainsAll, Agree;
    var t, log := d.wal.hard.term, d.wal.data;
    LeaderLogFacts(h, t);
    SplicedAgrees(log, h.llog[t], at, e);
    SplicedLogOk(h, log, t, at, e);
    CutIsAboveCommit(h, log, d.wal.hard.commit, t, at, e);
    SplicedCommit(h, log, d.wal.hard.commit, t, at, e);
    forall u | (id, u) in h.acks ensures RetainsAll(h, Spliced(log, at, e), id, u, t + 1) {
      SplicedRetains(h, log, id, u, t, at, e);
    }
  }

  /** An accepted message agrees with the follower's log up to its predecessor index. */
  lemma AcceptedMatches(h: History, n: Node, m: Message)
    requires HistOk(h) && NodeOk(h, n) && !n.faulted && m.Append? && MessageOk(h, m)
    requires m.term == n.term && !RejectsAppend(n, m)
    ensures Agree(n.log, h.llog[n.term], m.logIndex)
    ensures n.role != Leader || m.from == n.id
  {
    hide HistOk, DiskOk, LogOk;
    Facts(h, n);
    LeaderLogFacts(h, m.term);
    SameTermSamePrefix(h, n.log, h.llog[n.term], m.logIndex);
  }

  lemma FollowNode(h: History, n: Node, m: Message)
    requires NodeOk(h, n) && !n.faulted && n.role != Leader
    ensures NodeOk(h, n.(role := Follower, leader := m.from, elapsed := 0))
  {}

  /** The node that cut its log at `at` in memory only. */
  function Cut(n: Node, at: nat): Node
    requires 0 < at <= |n.log|
  {
    n.(log := n.log[..at])
  }

  lemma CutNode(h: History, n: Node, at: nat)
    requires HistOk(h) && NodeOk(h, n) && !n.faulted && n.commit < at <= |n.log|
    ensures LogOk(h, Cut(n, at).log) && CommitOk(h, Cut(n, at).log, n.commit, n.disk.wal.hard.term)
    ensures RebuildPending(Cut(n, at)) == Cut(n, at)
  {
    hide HistOk, LogOk, DiskOk;
    Facts(h, n);
    PrefixLogOk(h, n.log, at);
    SplicedCommit(h, n.log, n.commit, n.disk.wal.hard.term, at, Sentinel(0));
    NodeIsPlain(h, Cut(n, at));
    RebuildFixed(Cut(n, at));
  }

  /** Storing the leader's entry at `at`, after the memory log was cut there. */
  lemma StoreEntry(h: History, n: Node, at: nat, e: Entry)
    requires HistOk(h) && NodeOk(h, n) && !n.faulted && n.role == Follower && n.term in h.llog
    requires 0 < at <= |n.log| && at < |h.llog[n.term]| && e == h.llog[n.term][at]
    requires Agree(n.log, h.llog[n.term], at - 1)
    requires at < |n.log| ==> n.log[at].term != e.term
    ensures var (n1, ok) := Write(Cut(n, at), AppendEntry(n.disk, at, e));
            if ok then NodeOk(h, Remembering(n1, e)) && Agree(Remembering(n1, e).log, h.llog[n.term], at)
                       && n1.id == n.id && !n1.faulted
                       && n1 == n.(disk := n1.disk, plan := n1.plan, log := n1.log)
            else exists h' :: Preserved(h, h', n.id, n1)
    ensures RebuildPending(Cut(n, at)) == Cut(n, at)
    ensures n.commit < at
  {
    hide HistOk, LogOk, DiskOk, Ext, NodeOk, CommitOk, Write, Agree;
    Facts(h, n);
    WalBaseIsZero(h, n);
    FollowerDisk(h, n.id, n.disk, at, e);
    SplicedAgrees(n.log, h.llog[n.term], at, e);
    CutNode(h, n, at);
    var attempt := AppendEntry(n.disk, at, e);
    assert attempt == Ok(Together(n.disk, n.disk.wal.(data := Spliced(n.log, at, e))));
    WriteCases(Cut(n, at), attempt);
    var (n1, ok) := Write(Cut(n, at), attempt);
    ExtRefl(h, n.id);
    if !ok {
      var h' := FailedWrite(h, h, Cut(n, at), attempt);
    } else {
      StoredFollower(h, n, Remembering(n1, e));
    }
  }

  lemma WalBaseIsZero(h: History, n: Node)
    requires DiskOk(h, n.id, n.disk)
    ensures n.disk.wal.base == 0
  {}

  lemma StoredFollower(h: History, n: Node, n': Node)
    requires NodeOk(h, n) && !n.faulted && n.role == Follower
    requires DiskOk(h, n.id, n'.disk) && Synced(n')
    requires n' == n.(disk := n'.disk, plan := n'.plan, log := n'.log)
    ensures NodeOk(h, n')
  {}

  lemma FollowerAppendOk(h: History, n: Node, at: nat, e: Entry) returns (h': History)
    requires HistOk(h) && NodeOk(h, n) && !n.faulted && n.role == Follower && n.term in h.llog
    requires 0 < at < |h.llog[n.term]| && e == h.llog[n.term][at]
    requires Agree(n.log, h.llog[n.term], at - 1)
    requires n.baseIndex == 0
    ensures var (n', ok) := FollowerAppend(n, at, e);
            Preserved(h, h', n.id, n')
            && (ok ==> h' == h && !n'.faulted && n'.role == Follower && n'.term == n.term && n'.commit == n.commit
                       && Agree(n'.log, h.llog[n.term], at))
  {
    hide HistOk, LogOk, DiskOk, Ext, NodeOk, CommitOk, Write, Agree, RebuildPending, Monotone;
    ExtRefl(h, n.id);
    h' := h;
    LeaderLogFacts(h, n.term);
    assert Ordinary(e) by { assert Plain(h.llog[n.term][at]); }
    assert at - 1 < |n.log| by {
      assert Agree(n.log, h.llog[n.term], at - 1);
      AgreeBounds(n.log, h.llog[n.term], at - 1);
    }
    if InLog(n, at) && TermAt(n, at) == e.term {
      Facts(h, n);
      SameTermSamePrefix(h, n.log, h.llog[n.term], at);
    } else {
      StoreEntry(h, n, at, e);
      assert n.log[..|n.log|] == n.log;
      assert at == |n.log| ==> Cut(n, at) == n;
      var (n1, ok) := Write(Cut(n, at), AppendEntry(n.disk, at, e));
      if !ok { h' :| Preserved(h, h', n.id, n1); }
    }
  }

  lemma AgreeBounds(a: Log, b: Log, k: nat)
    requires Agree(a, b, k)
    ensures k < |a| && k < |b|
  {}

  // ------------------------------------------------------------ a follower's commit index

  lemma FollowerTarget(h: History, log: Log, m: Message)
    requires m.Append? && AppendOk(h, m) && Agree(log, h.llog[m.term], MatchOf(m))
    ensures CommitOk(h, log, Min(m.commit, MatchOf(m)), m.term)
  {
    var target := Min(m.commit, MatchOf(m));
    if target != 0 {
      var leader := h.llog[m.term];
      var t: nat :| t <= m.term && CommittedAt(h, leader, m.commit, t);
      AgreeDown(leader, h.llog[t], m.commit, target);
      AgreeDown(log, leader, MatchOf(m), target);
      assert CommittedAt(h, log, target, t);
    }
  }

  lemma NewCommitDisk(h: History, id: nat, d: Disk, commit: nat)
    requires DiskOk(h, id, d) && CommitOk(h, d.wal.data, commit, d.wal.hard.term)
    ensures DiskOk(h, id, Together(d, d.wal.(hard := d.wal.hard.(commit := commit))))
  {}

  lemma FollowerCommitOk(h: History, n: Node, m: Message) returns (h': History)
    requires HistOk(h) && NodeOk(h, n) && !n.faulted && n.role == Follower
    requires m.Append? && MessageOk(h, m) && m.term == n.term && Agree(n.log, h.llog[n.term], MatchOf(m))
    ensures var (n', ok) := FollowerCommit(n, m);
            Preserved(h, h', n.id, n')
            && (ok ==> h' == h && !n'.faulted && n'.role == Follower && n'.term == n.term && n'.log == n.log)
  {
    hide HistOk, LogOk, DiskOk, Ext, NodeOk, CommitOk, Write, Agree, ApplyCommitted;
    ExtRefl(h, n.id);
    h' := h;
    if m.commit > n.commit && MatchOf(m) > n.commit {
      Facts(h, n);
      var target := Min(m.commit, MatchOf(m));
      FollowerTarget(h, n.log, m);
      NewCommitDisk(h, n.id, n.disk, target);
      var hard := HardState(n.term, n.votedFor, target);
      var attempt := SaveHard(n.disk, hard);
      WriteCases(n, attempt);
      var (n1, ok) := PersistHard(n, hard);
      if !ok {
        h' := FailedWrite(h, h, n, attempt);
      } else {
        CommittedFollower(h, n, n1.(commit := target));
        NodeIsPlain(h, n);
        ApplyFixedCommitted(n1.(commit := target), n.commit);
      }
    }
  }

  lemma ApplyFixedCommitted(n: Node, previous: nat)
    requires NoConfig(n)
    ensures ApplyCommitted(n, previous) == n
  {
    ApplyFixed(n, Max(previous, n.baseIndex) + 1, n.commit);
  }

  lemma CommittedFollower(h: History, n: Node, n': Node)
    requires NodeOk(h, n) && !n.faulted && n.role == Follower
    requires DiskOk(h, n.id, n'.disk) && Synced(n')
    requires n' == n.(disk := n'.disk, plan := n'.plan, commit := n'.commit)
    ensures NodeOk(h, n')
  {}

  // ------------------------------------------------------------ acknowledging

  ghost function WithAck(h: History, f: nat, t: nat, k: nat): History {
    h.(acks := h.acks[(f, t) := if (f, t) in h.acks then Max(h.acks[(f, t)], k) else k])
  }

  lemma WithAckExt(h: History, f: nat, t: nat, k: nat)
    ensures Ext(h, WithAck(h, f, t, k), f)
  {
    ExtRefl(h, f);
  }

  lemma WithAckOk(h: History, f: nat, d: Disk, k: nat)
    requires HistOk(h) && DiskOk(h, f, d) && d.wal.hard.term in h.llog && Agree(d.wal.data, h.llog[d.wal.hard.term], k)
    ensures var h' := WithAck(h, f, d.wal.hard.term, k); HistOk(h') && Ext(h, h', f)
  {
    hide HistOk, Ext, LogOk, CommitOk, RetainsAll;
    var t := d.wal.hard.term;
    var h' := WithAck(h, f, t, k);
    WithAckExt(h, f, t, k);
    forall u | (f, u) in h'.voteLog ensures u <= t { VoteFacts(h, f, u); }
    assert AcksAreRecent(h, h', f);
    VoteFacts(h, f, t);
    assert AckOk(h', f, t);
    CarryHistory(h, h', f);
  }

  lemma AckedRetains(h: History, log: Log, f: nat, t: nat, k: nat)
    requires t in h.llog && Agree(log, h.llog[t], k)
    requires (f, t) in h.acks ==> RetainsAll(h, log, f, t, t + 1)
    ensures RetainsAll(WithAck(h, f, t, k), log, f, t, t + 1)
  {
    var h' := WithAck(h, f, t, k);
    forall j | 0 <= j <= h'.acks[(f, t)] && OwnEntry(h', t, j) ensures Retains(h', log, t, j, t + 1) {
      if j <= k {
        AgreeDown(log, h.llog[t], k, j);
      } else {
        assert OwnEntry(h, t, j) && Retains(h, log, t, j, t + 1);
      }
    }
  }

  lemma AckedDisk(h: History, f: nat, d: Disk, k: nat)
    requires HistOk(h) && DiskOk(h, f, d) && d.wal.hard.term in h.llog && Agree(d.wal.data, h.llog[d.wal.hard.term], k)
    ensures DiskOk(WithAck(h, f, d.wal.hard.term, k), f, d)
  {
    hide HistOk, LogOk, CommitOk, RetainsAll, Agree;
    var t := d.wal.hard.term;
    var h' := WithAck(h, f, t, k);
    WithAckExt(h, f, t, k);
    ExtLog(h, h', f, d.wal.data);
    ExtCommit(h, h', f, d.wal.data, d.wal.hard.commit, t);
    forall u | (f, u) in h'.acks ensures u <= t && RetainsAll(h', d.wal.data, f, u, t + 1) {
      if u == t {
        AckedRetains(h, d.wal.data, f, t, k);
      } else {
        VoteFacts(h, f, u);
        ExtRetainsAll(h, h', f, d.wal.data, f, u, t + 1);
      }
    }
  }

  lemma AcknowledgeOk(h: History, n: Node, m: Message) returns (h': History)
    requires HistOk(h) && NodeOk(h, n) && !n.faulted && n.role == Follower
    requires m.Append? && MessageOk(h, m) && m.to == n.id && m.term == n.term
             && Agree(n.log, h.llog[n.term], MatchOf(m))
    ensures Preserved(h, h', n.id, Send(n, AppendResponse(n.id, m.from, n.term, false, MatchOf(m), m.context)))
  {
    hide HistOk, LogOk, Ext, NodeOk, CommitOk, Agree, RetainsAll;
    Facts(h, n);
    var k := MatchOf(m);
    h' := WithAck(h, n.id, n.term, k);
    WithAckOk(h, n.id, n.disk, k);
    AckedDisk(h, n.id, n.disk, k);
    ExtOutbound(h, h', n.id, n);
    ExtStatic(h, h', n.id, n);
    LiveNodeOk(h', n);
    var r := AppendResponse(n.id, m.from, n.term, false, k, m.context);
    BarrierFacts(h, m.context);
    assert AppendResponseOk(h', r);
    SendOk(h', n, r);
  }

  lemma AcceptOk(h: History, n: Node, m: Message) returns (h': History)
    requires HistOk(h) && NodeOk(h, n) && !n.faulted && m.Append? && MessageOk(h, m) && m.to == n.id
    requires m.term == n.term && !RejectsAppend(n, m)
    ensures Preserved(h, h', n.id, OnAppend(n, m))
  {
    hide HistOk, LogOk, DiskOk, Ext, NodeOk, CommitOk, Agree, RejectsAppend, FollowerAppend, FollowerCommit, LiveOk;
    Facts(h, n);
    AcceptedMatches(h, n, m);
    FollowNode(h, n, m);
    InLogWhenAccepted(n, m);
    var n1 := n.(role := Follower, leader := m.from, elapsed := 0);
    var n2, ok2 := n1, true;
    h' := h;
    if m.entry.Some? {
      h' := FollowerAppendOk(h, n1, m.logIndex + 1, m.entry.value);
      var (taken, ok) := FollowerAppend(n1, m.logIndex + 1, m.entry.value);
      n2, ok2 := taken, ok;
    }
    if ok2 {
      h' := FollowerCommitOk(h, n2, m);
      var (n3, ok3) := FollowerCommit(n2, m);
      if ok3 {
        h' := AcknowledgeOk(h, n3, m);
      }
    }
  }

  lemma InLogWhenAccepted(n: Node, m: Message)
    requires m.Append? && !RejectsAppend(n, m)
    ensures InLog(n, m.logIndex)
  {}

  lemma OnAppendOk(h: History, n: Node, m: Message) returns (h': History)
    requires HistOk(h) && NodeOk(h, n) && !n.faulted && m.Append? && MessageOk(h, m) && m.to == n.id && m.term <= n.term
    ensures Preserved(h, h', n.id, OnAppend(n, m))
  {
    hide HistOk, LogOk, DiskOk, Ext, NodeOk, CommitOk, Agree, FollowerAppend, FollowerCommit, LiveOk;
    if RejectsAppend(n, m) {
      h' := h;
      ExtRefl(h, n.id);
      Facts(h, n);
      SendOk(h, n, AppendResponse(n.id, m.from, n.term, true, LastIndex(n), m.context));
    } else {
      h' := AcceptOk(h, n, m);
    }
  }

  // ------------------------------------------------------------ collecting acknowledgements

  /** A barrier confirmed by a majority was not overtaken, so the leader's commit index covers it. */
  lemma ConfirmedBarrier(h: History, n: Node, mask: Mask)
    requires HistOk(h) && BarrierHolds(h, n) && Majority(h.voters, Ids(mask))
    requires forall f :: f in Ids(mask) && f in h.barriers[n.readContext].terms ==>
               h.barriers[n.readContext].terms[f] <= n.term
    ensures Covers(h.barriers[n.readContext], n.commit)
  {
    hide HistOk, Majority;
    BarrierFacts(h, n.readContext);
    var b := h.barriers[n.readContext];
    if Overtaken(h, b) {
      var t :| t in h.electors && Majority(h.voters, h.electors[t])
               && forall f :: f in h.electors[t] && f in b.terms ==> b.terms[f] > b.term;
      var f := MajoritiesIntersect(h.voters, h.electors[t], Ids(mask));
      assert false;
    }
  }

  lemma RecordReadAckOk(h: History, n: Node, m: Message)
    requires HistOk(h) && NodeOk(h, n) && !n.faulted && m.AppendResponse? && MessageOk(h, m)
    ensures var n1 := RecordReadAck(n, m);
            NodeOk(h, n1)
            && n1 == n.(readAckMask := n1.readAckMask, readIndex := n1.readIndex, readReady := n1.readReady)
  {
    hide HistOk, LogOk, DiskOk, CommitOk, Majority, Quorum, IsVoter;
    if n.role == Leader && m.term == n.term && !m.reject && m.context != 0 && m.context == n.readContext
       && IsVoter(n, m.from) {
      assert BarrierHolds(h, n);
      var n1 := n.(readAckMask := Or(n.readAckMask, NodeBit(m.from)));
      RecordingAddsSender(n.readAckMask, m.from);
      NodeIsPlain(h, n1);
      QuorumFixed(n1, n1.readAckMask);
      assert BarrierHolds(h, n1);
      if Quorum(n1, n1.readAckMask) {
        ConfirmedBarrier(h, n1, n1.readAckMask);
        assert BarrierHolds(h, n1.(readIndex := n1.commit, readReady := true));
      }
    }
  }

  lemma RecordMatchOk(h: History, n: Node, m: Message)
    requires NodeOk(h, n) && !n.faulted && n.role == Leader && m.AppendResponse? && MessageOk(h, m)
    requires m.term == n.term && !m.reject
    ensures NodeOk(h, n.(matched := n.matched[m.from := m.matched], next := n.next[m.from := m.matched + 1]))
  {
    var n' := n.(matched := n.matched[m.from := m.matched], next := n.next[m.from := m.matched + 1]);
    assert BarrierHolds(h, n) ==> BarrierHolds(h, n');
    assert MatchedOk(h, n');
  }

  /** Those counted for a committable index have acknowledged it in this term. */
  lemma CountedHaveAcked(h: History, n: Node, k: nat)
    requires MatchedOk(h, n) && k > 0
    ensures forall f :: f in Ids(Acked(n, k)) && f in h.voters && f != n.id ==> f in Ackers(h, n.term, k)
  {
    AckedMeans(n, k, |n.peers|);
  }

  lemma LeaderCommitOk(h: History, n: Node) returns (h': History)
    requires HistOk(h) && NodeOk(h, n) && !n.faulted && n.role == Leader
    ensures var (n', ok) := LeaderCommit(n);
            Preserved(h, h', n.id, n') && (ok ==> !n'.faulted && n'.role == Leader)
  {
    hide HistOk, LogOk, DiskOk, Ext, NodeOk, CommitOk, Majority, PersistHard, ApplyCommitted, Broadcast, Ackers,
         HighestCommittable, CanCommit, Acked;
    ExtRefl(h, n.id);
    h' := h;
    Facts(h, n);
    var k := HighestCommittable(n, LastIndex(n));
    TargetFacts(n);
    if k != n.commit {
      NodeIsPlain(h, n);
      CanCommitFixed(n, k, Acked(n, k));
      CountedHaveAcked(h, n, k);
      h' := CommitAsLeader(h, n, k, Ids(Acked(n, k)));
      var hard := HardState(n.term, n.votedFor, k);
      PersistFacts(n, hard);
      var (n1, ok) := PersistHard(n, hard);
      if ok {
        ApplyFixedCommitted(n1.(commit := k), n.commit);
        WholeBroadcast(h', n1.(commit := k));
      }
    }
  }

  lemma TargetFacts(n: Node)
    ensures var k := HighestCommittable(n, LastIndex(n));
            k != n.commit ==> n.commit < k <= LastIndex(n) && TermAt(n, k) == n.term && CanCommit(n, k, Acked(n, k))
  {}

  lemma WholeBroadcast(h: History, n: Node)
    requires NodeOk(h, n) && n.role == Leader
    ensures var n' := Broadcast(n); NodeOk(h, n') && n' == n.(outbound := n'.outbound, next := n'.next)
  {
    BroadcastOk(h, n, 0);
  }

  lemma OnAppendResponseOk(h: History, n: Node, m: Message) returns (h': History)
    requires HistOk(h) && NodeOk(h, n) && !n.faulted && m.AppendResponse? && MessageOk(h, m) && m.to == n.id
    ensures Preserved(h, h', n.id, OnAppendResponse(n, m))
  {
    hide HistOk, Ext, NodeOk, RecordReadAck, LeaderCommit, AppendToContext;
    ExtRefl(h, n.id);
    h' := h;
    RecordReadAckOk(h, n, m);
    var n1 := RecordReadAck(n, m);
    if n1.role != Leader || m.term != n1.term || m.matched >= LastIndex(n1) + 1 {
    } else if m.reject {
      var next := At(n1.next, m.from);
      var n2 := if next > 1 then n1.(next := n1.next[m.from := next - 1]) else n1;
      QuietOk(h, n1, n2);
      AppendToOk(h, n2, m.from, 0);
    } else {
      RecordMatchOk(h, n1, m);
      var n2 := n1.(matched := n1.matched[m.from := m.matched], next := n1.next[m.from := m.matched + 1]);
      h' := LeaderCommitOk(h, n2);
      var (n3, ok) := LeaderCommit(n2);
      if ok && At(n3.next, m.from) < LastIndex(n3) + 1 {
        AppendToOk(h', n3, m.from, 0);
      }
    }
  }
}
