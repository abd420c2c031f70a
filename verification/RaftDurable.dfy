/**
 One node and its store, over any sequence of calls, messages and storage failures, with
 compaction, snapshots and configuration entries: memory never runs ahead of what is
 durable, promises are queued only after they are durable, and a restart rebuilds the node.
 */
module RaftDurable {
  import opened Masks
  import opened RaftTypes
  import opened RaftDisk
  import opened RaftNode
  import opened RaftHistory
  import opened RaftFixed
  import opened RaftSteps

  // ------------------------------------------------------------ the invariant

  /** What is claimed of a store: that its medium is healthy, and a commit index it has reached. */
  datatype Claim = Claim(whole: bool, floor: nat)

  const WHOLE := Claim(true, 0)
  const LOOSE := Claim(false, 0)

  /** The commit index a restart would start from. */
  function StoredCommit(d: Disk): nat {
    Max(d.wal.hard.commit, d.image.lastIndex)
  }

  /** The WAL can be replayed, and where it starts at the snapshot it carries the snapshot's term. */
  predicate Healthy(d: Disk) {
    d.readable && d.wal.base <= d.image.lastIndex
    && (d.wal.base == d.image.lastIndex ==> d.wal.data[0].term == d.image.lastTerm)
  }

  /**
   The store remembers its medium; durable term and vote are the node's; the logs agree above
   the base, and by term at it. Only the medium of a stopped node can come apart, and only by
   one kind of call; the claim `c.whole` says that it has not.
   */
  ghost predicate InSync(c: Claim, n: Node) {
    var w := n.disk.wal;
    && Clean(n.disk) && w.hard.term == n.term && w.hard.votedFor == n.votedFor
    && n.commit == Max(w.hard.commit, n.baseIndex)
    && w.base == n.baseIndex && |w.data| == |n.log| && w.data[1..] == n.log[1..]
    && n.log[0].term == n.baseTerm && (c.whole ==> w.data[0].term == n.baseTerm)
    && n.disk.image == n.snapshot && n.snapshot.lastIndex == n.baseIndex && n.snapshot.lastTerm == n.baseTerm
    && (n.baseIndex == 0 ==> n.baseTerm == 0)
    && n.baseIndex <= n.applied
  }

  /** The durable state `d` already contains what `m` promises. */
  ghost predicate Backed(m: Message, d: Disk) {
    match m
    case RequestVoteResponse(_, to, term, reject) =>
      !reject ==> d.wal.hard.term == term && d.wal.hard.votedFor == to
    case AppendResponse(_, _, term, reject, matched, _) =>
      !reject ==> d.wal.hard.term == term && d.wal.base <= matched <= WalLast(d.wal)
    case InstallSnapshotResponse(_, _, term, reject, matched) =>
      !reject ==> d.wal.hard.term == term && d.image.lastIndex == matched && d.wal.base == matched
    case _ => true
  }

  ghost predicate PromisesBacked(n: Node) {
    forall q :: q in n.outbound ==> Backed(q.msg, q.durable)
  }

  /** What the medium keeps at every moment, also between the two writes of a compaction. */
  ghost predicate DiskSound(c: Claim, base: nat, d: Disk) {
    && (c.whole ==> Healthy(d))
    && base <= d.image.lastIndex && (d.image.lastIndex == 0 ==> d.image == NO_SNAPSHOT)
    && c.floor <= Max(d.wal.hard.commit, base)
  }

  /** The store remembers the node's base and its log, and perhaps more of it. */
  ghost predicate Remembered(n: Node) {
    var w := n.disk.memory.wal;
    w.base == n.baseIndex && |n.log| <= |w.data| && n.log[1..] == w.data[1..|n.log|]
  }

  ghost predicate StoreSound(c: Claim, n: Node) {
    && DiskSound(c, n.baseIndex, n.disk) && Remembered(n)
    && n.applied <= n.commit <= Max(n.disk.wal.hard.commit, n.baseIndex)
    && (n.baseIndex <= n.applied || n.log == [Sentinel(0)])
  }

  /** A node that stopped: nothing is queued, and it leads nobody. */
  ghost predicate Silent(n: Node) {
    n.faulted && n.outbound == [] && n.role == Follower
  }

  ghost predicate Sound(c: Claim, n: Node) {
    && PromisesBacked(n) && StoreSound(c, n)
    && (if n.faulted then Silent(n) else InSync(c, n))
  }

  // ------------------------------------------------------------ frames

  /** Nothing durable, and nothing the store mirrors, is different. */
  ghost predicate SameStored(n: Node, n': Node) {
    && n'.id == n.id && n'.term == n.term && n'.votedFor == n.votedFor && n'.log == n.log
    && n'.baseIndex == n.baseIndex && n'.baseTerm == n.baseTerm && n'.commit == n.commit && n'.applied == n.applied
    && n'.disk == n.disk && n'.snapshot == n.snapshot && n'.faulted == n.faulted
  }

  /** Additionally nothing was sent. */
  ghost predicate Quiet(n: Node, n': Node) {
    SameStored(n, n') && n'.outbound == n.outbound
  }

  lemma QuietSound(c: Claim, n: Node, n': Node)
    requires Sound(c, n) && Quiet(n, n') && (n.faulted ==> n'.role == n.role)
    ensures Sound(c, n')
  {}

  lemma ApplyConfigurationQuiet(n: Node, index: nat)
    ensures Quiet(n, ApplyConfiguration(n, index))
  {
    hide EnsurePeers, IsVoter;
  }

  lemma {:induction false} ApplyQuiet(n: Node, first: nat, last: nat)
    ensures Quiet(n, ApplyConfigurations(n, first, last))
    decreases last + 1 - first
  {
    hide ApplyConfiguration;
    if first <= last {
      ApplyConfigurationQuiet(n, first);
      ApplyQuiet(ApplyConfiguration(n, first), first + 1, last);
    }
  }

  lemma {:induction false} RebuildQuiet(n: Node, index: nat)
    ensures Quiet(n, RebuildPendingFrom(n, index))
    decreases LastIndex(n) + 1 - index
  {
    hide EnsurePeers;
    if index <= LastIndex(n) {
      var e := EntryAt(n, index);
      if e.kind == KIND_JOINT || e.kind == KIND_FINAL {
        var n1 := EnsurePeers(n.(pendingConfig := index), Or(e.oldVoters, e.newVoters));
        EnsurePeersFrame(n.(pendingConfig := index), Or(e.oldVoters, e.newVoters));
        RebuildQuiet(n1, index + 1);
      } else {
        RebuildQuiet(n, index + 1);
      }
    }
  }

  lemma EnsurePeersFrame(n: Node, mask: Mask)
    ensures Quiet(n, EnsurePeers(n, mask))
  {}

  // ------------------------------------------------------------ sending

  lemma SendSound(c: Claim, n: Node, m: Message)
    requires Sound(c, n) && !n.faulted && Backed(m, n.disk)
    ensures Sound(c, Send(n, m)) && SameStored(n, Send(n, m))
  {}

  lemma {:induction false} SendToPeersSound(c: Claim, n: Node, k: nat, message: NodeId -> Message)
    requires Sound(c, n) && !n.faulted && forall p, d :: Backed(message(p), d)
    ensures var n' := SendToPeers(n, k, message); Sound(c, n') && SameStored(n, n')
    decreases |n.peers| - k
  {
    hide Sound;
    if k < |n.peers| {
      SendSound(c, n, message(n.peers[k]));
      SendToPeersSound(c, Send(n, message(n.peers[k])), k + 1, message);
    }
  }

  lemma AppendToSound(c: Claim, n: Node, p: NodeId, context: nat)
    requires Sound(c, n) && !n.faulted
    ensures var n' := AppendToContext(n, p, context); Sound(c, n') && SameStored(n, n') && n'.peers == n.peers
  {
    hide InSync;
    if At(n.next, p) <= n.baseIndex {
      SendSound(c, n, InstallSnapshot(n.id, p, n.term, n.snapshot));
    } else {
      var next := Min(LastIndex(n) + 1, At(n.next, p));
      var n1 := n.(next := if At(n.next, p) > next then n.next[p := next] else n.next);
      QuietSound(c, n, n1);
      SendSound(c, n1, NextMessage(n1, p, next, context));
    }
  }

  lemma {:induction false} BroadcastSound(c: Claim, n: Node, k: nat)
    requires Sound(c, n) && !n.faulted
    ensures var n' := BroadcastFrom(n, k); Sound(c, n') && SameStored(n, n')
    decreases |n.peers| - k
  {
    hide Sound, AppendToContext, IsVoter;
    if k < |n.peers| {
      if IsVoter(n, n.peers[k]) {
        AppendToSound(c, n, n.peers[k], 0);
        BroadcastSound(c, AppendTo(n, n.peers[k]), k + 1);
      } else {
        BroadcastSound(c, n, k + 1);
      }
    }
  }

  lemma {:induction false} ReadContextSound(c: Claim, n: Node, k: nat, context: nat)
    requires Sound(c, n) && !n.faulted
    ensures var n' := SendReadContext(n, k, context); Sound(c, n') && SameStored(n, n')
    decreases |n.peers| - k
  {
    hide Sound, AppendToContext;
    if k < |n.peers| {
      AppendToSound(c, n, n.peers[k], context);
      ReadContextSound(c, AppendToContext(n, n.peers[k], context), k + 1, context);
    }
  }

  // ------------------------------------------------------------ writing

  /** Whatever a failed write left behind. */
  lemma FailedWriteSound(c: Claim, n: Node, attempt: Result<Disk>)
    requires StoreSound(c, n) && (attempt.Ok? ==> StoreSound(c, n.(disk := Unacknowledged(n.disk, attempt.value))))
    ensures var (n1, ok) := Write(n, attempt); !ok ==> Sound(c, n1) && n1.faulted
  {
    hide DiskSound;
    WriteCases(n, attempt);
  }

  /** A hard state that repeats or advances the node's commit index. */
  lemma PersistSound(c: Claim, n: Node, h: HardState)
    requires Sound(c, n) && !n.faulted && n.commit <= h.commit
    ensures var (n1, ok) := PersistHard(n, h);
            if ok then !n1.faulted && Sound(c, n1.(term := h.term, votedFor := h.votedFor, commit := h.commit))
                       && n1 == n.(disk := n1.disk, plan := n1.plan)
                       && n1.disk.wal.hard == h
            else n1.faulted && Sound(c, n1)
  {
    WriteCases(n, SaveHard(n.disk, h));
    FailedWriteSound(c, n, SaveHard(n.disk, h));
  }

  lemma ObserveSound(c: Claim, n: Node, m: Message)
    requires Sound(c, n) && !n.faulted
    ensures var (n1, ok) := ObserveTerm(n, m);
            Sound(c, n1) && (n1.faulted <==> !ok) && (ok && !IsPreVote(m) ==> m.term <= n1.term)
  {
    hide PersistHard, InSync;
    if !IsPreVote(m) && m.term > n.term {
      var h := HardState(m.term, 0, n.commit);
      PersistSound(c, n, h);
      var (n1, ok) := PersistHard(n, h);
      if ok {
        var a := n1.(term := m.term, votedFor := 0, commit := n.commit);
        QuietSound(c, a, n1.(role := Follower, term := m.term, votedFor := 0, leader := 0, readReady := false));
      }
    }
  }

  lemma AppendLocalSound(c: Claim, n: Node, e: Entry)
    requires Sound(c, n) && !n.faulted
    ensures var (n', ok) := AppendLocal(n, e); Sound(c, n') && (n'.faulted <==> !ok)
  {
    hide Quorum, ApplyCommitted, Write, Sound, AppendEntry, StoreSound;
    var attempt := AppendEntry(n.disk, LastIndex(n) + 1, e);
    WriteCases(n, attempt);
    GrownSound(c, n, LastIndex(n) + 1, e);
    assert n.log[..|n.log|] == n.log;
    FailedWriteSound(c, n, attempt);
    var (n1, ok) := Write(n, attempt);
    if ok {
      var n2 := n1.(log := n1.log + [e]);
      QuietSound(c, n.(disk := attempt.value, log := n.log + [e]), n2);
      if Quorum(n2, NodeBit(n2.id)) {
        AppendLocalCommitSound(c, n2, n.commit);
      }
    }
  }

  /** Storing an entry at `at`, and every way in which that can be left. */
  lemma GrownSound(c: Claim, n: Node, at: nat, e: Entry)
    requires Sound(c, n) && !n.faulted && n.baseIndex < at <= LastIndex(n) + 1
    ensures var attempt := AppendEntry(n.disk, at, e);
            var cut := n.(log := n.log[..at - n.baseIndex]);
            StoreSound(c, cut)
            && attempt.Ok? && StoreSound(c, cut.(disk := Unacknowledged(n.disk, attempt.value)))
            && Sound(c, n.(disk := attempt.value, log := n.log[..at - n.baseIndex] + [e]))
  {
    hide PromisesBacked;
    StoredTail(c, n, e, at);
    var k := at - n.baseIndex;
    assert n.log[..k][1..] == n.log[1..][..k - 1] == n.disk.wal.data[1..][..k - 1] == n.disk.wal.data[1..k];
    var n' := n.(disk := AppendEntry(n.disk, at, e).value, log := n.log[..k] + [e]);
    SameQueue(n, n');
  }

  lemma SameQueue(n: Node, n': Node)
    requires PromisesBacked(n) && n'.outbound == n.outbound
    ensures PromisesBacked(n')
  {}

  lemma AppendLocalCommitSound(c: Claim, n: Node, previous: nat)
    requires Sound(c, n) && !n.faulted
    ensures var (n3, ok3) := PersistHard(n, HardState(n.term, n.votedFor, LastIndex(n)));
            var n' := if ok3 then ApplyCommitted(n3.(commit := LastIndex(n)), previous) else n3;
            Sound(c, n') && (n'.faulted <==> !ok3)
  {
    hide Write, ApplyConfigurations;
    var h := HardState(n.term, n.votedFor, LastIndex(n));
    var (n3, ok3) := PersistHard(n, h);
    if n.commit > LastIndex(n) {
      // Only a commit index above the whole log can be ahead, and then the store refuses to go back.
      FailedWriteSound(c, n, SaveHard(n.disk, h));
      WriteCases(n, SaveHard(n.disk, h));
    } else {
      PersistSound(c, n, h);
    }
    if ok3 {
      var n4 := n3.(commit := LastIndex(n));
      ApplyQuiet(n4, Max(previous, n4.baseIndex) + 1, n4.commit);
      QuietSound(c, n4, ApplyCommitted(n4, previous));
    }
  }

  /** Storing an entry at `at` cuts both logs at the same place. */
  lemma StoredTail(c: Claim, n: Node, e: Entry, at: nat)
    requires InSync(c, n) && n.baseIndex < at <= LastIndex(n) + 1
    ensures WalAppend(n.disk.wal, at, e).Ok?
    ensures var d, l := WalAppend(n.disk.wal, at, e).value.data, n.log[..at - n.baseIndex] + [e];
            |d| == |l| && d[1..] == l[1..] && d[0] == n.disk.wal.data[0] && l[0] == n.log[0]
  {
    var k := at - n.baseIndex;
    var d, l := n.disk.wal.data[..k] + [e], n.log[..k] + [e];
    assert n.disk.wal.data[..k][1..] == n.disk.wal.data[1..][..k - 1];
    assert n.log[..k][1..] == n.log[1..][..k - 1];
    assert d[1..] == n.disk.wal.data[..k][1..] + [e];
    assert l[1..] == n.log[..k][1..] + [e];
  }

  // ------------------------------------------------------------ elections

  lemma BecomeLeaderSound(c: Claim, n: Node)
    requires Sound(c, n) && !n.faulted
    ensures Sound(c, BecomeLeader(n))
  {
    hide Sound, AppendLocal;
    var n1 := n.(role := Leader, leader := n.id, elapsed := 0);
    QuietSound(c, n, n1);
    AppendLocalSound(c, n1, NoopEntry(n.term));
    var (n2, ok) := AppendLocal(n1, NoopEntry(n.term));
    if ok {
      var last := LastIndex(n2) + 1;
      var n3 := n2.(next := Reset(n2.next, n2.peers, last), matched := Reset(n2.matched, n2.peers, 0));
      QuietSound(c, n2, n3);
      BroadcastSound(c, n3, 0);
    }
  }

  lemma StartElectionSound(c: Claim, n: Node)
    requires Sound(c, n) && !n.faulted
    ensures Sound(c, StartElection(n))
  {
    hide Sound, PersistHard, BecomeLeader, SendToPeers, Quorum;
    var h := HardState(n.term + 1, n.id, n.commit);
    PersistSound(c, n, h);
    var (n1, ok) := PersistHard(n, h);
    if ok {
      var a := n1.(term := h.term, votedFor := h.votedFor, commit := h.commit);
      var n2 := n1.(role := Candidate, term := n.term + 1, votedFor := n.id, elapsed := 0,
                    voteMask := NodeBit(n.id), preVoteMask := 0);
      QuietSound(c, a, n2);
      var last := LastIndex(n2);
      var message := (p: NodeId) => RequestVote(n2.id, p, n2.term, last, TermAt(n2, last));
      SendToPeersSound(c, n2, 0, message);
      var n3 := SendToPeers(n2, 0, message);
      if Quorum(n3, n3.voteMask) { BecomeLeaderSound(c, n3); }
    }
  }

  lemma StartPreVoteSound(c: Claim, n: Node)
    requires Sound(c, n) && !n.faulted
    ensures Sound(c, StartPreVote(n))
  {
    hide Sound, StartElection, SendToPeers, Quorum;
    var n1 := n.(elapsed := 0, preVoteTerm := n.term + 1, leader := 0, preVoteMask := NodeBit(n.id));
    QuietSound(c, n, n1);
    var last := LastIndex(n1);
    var message := (p: NodeId) => PreVote(n1.id, p, n1.preVoteTerm, last, TermAt(n1, last));
    SendToPeersSound(c, n1, 0, message);
    var n2 := SendToPeers(n1, 0, message);
    if Quorum(n2, n2.preVoteMask) { StartElectionSound(c, n2); }
  }

  lemma OnVoteSound(c: Claim, n: Node, m: Message)
    requires Sound(c, n) && !n.faulted && m.RequestVote?
    ensures Sound(c, OnVote(n, m))
  {
    hide IsVoter, UpToDate, Write, InSync;
    if IsVoter(n, m.from) && m.term == n.term && (n.votedFor == 0 || n.votedFor == m.from)
       && UpToDate(n, m.logIndex, m.logTerm) {
      var h := HardState(n.term, m.from, n.commit);
      PersistSound(c, n, h);
      var (n1, ok) := PersistHard(n, h);
      if ok {
        var a := n1.(term := h.term, votedFor := h.votedFor, commit := h.commit);
        var n2 := n1.(votedFor := m.from, elapsed := 0);
        QuietSound(c, a, n2);
        SendSound(c, n2, RequestVoteResponse(n2.id, m.from, n2.term, false));
      }
    } else {
      SendSound(c, n, RequestVoteResponse(n.id, m.from, n.term, true));
    }
  }

  lemma OnVoteResponseSound(c: Claim, n: Node, m: Message)
    requires Sound(c, n) && !n.faulted && m.RequestVoteResponse?
    ensures Sound(c, OnVoteResponse(n, m))
  {
    hide Sound, BecomeLeader, IsVoter, Quorum;
    if n.role == Candidate && IsVoter(n, m.from) && m.term == n.term && !m.reject {
      var n1 := n.(voteMask := Or(n.voteMask, NodeBit(m.from)));
      QuietSound(c, n, n1);
      if Quorum(n1, n1.voteMask) { BecomeLeaderSound(c, n1); }
    }
  }

  lemma OnPreVoteResponseSound(c: Claim, n: Node, m: Message)
    requires Sound(c, n) && !n.faulted && m.PreVoteResponse?
    ensures Sound(c, OnPreVoteResponse(n, m))
  {
    hide Sound, StartElection, IsVoter, Quorum;
    if n.role != Leader && IsVoter(n, m.from) && m.term == n.term + 1 && m.term == n.preVoteTerm && !m.reject {
      var n1 := n.(preVoteMask := Or(n.preVoteMask, NodeBit(m.from)));
      QuietSound(c, n, n1);
      if Quorum(n1, n1.preVoteMask) { StartElectionSound(c, n1); }
    }
  }

  // ------------------------------------------------------------ replication

  /** The node already holds an entry of that term at `at`, so nothing is stored. */
  predicate Holds(n: Node, at: nat, e: Entry) {
    InLog(n, at) && TermAt(n, at) == e.term
  }

  /** What is at `at` once `e` was accepted there: the entry held with that term, else `e` itself. */
  function Taken(n: Node, at: nat, e: Entry): Entry {
    if Holds(n, at, e) then EntryAt(n, at) else e
  }

  /** What a node that accepted `e` at `at` looks like, compared with the node before. */
  ghost predicate Took(n: Node, at: nat, e: Entry, n': Node)
    requires n.baseIndex < at <= LastIndex(n) + 1
  {
    && n'.id == n.id && n'.baseIndex == n.baseIndex && n'.term == n.term && n'.commit == n.commit
    && n'.snapshot == n.snapshot && InLog(n', at) && EntryAt(n', at) == Taken(n, at, e)
    && n'.log == (if Holds(n, at, e) then n.log else n.log[..at - n.baseIndex] + [e])
    && (forall x :: n.baseIndex <= x < at ==> EntryAt(n', x) == EntryAt(n, x))
  }

  /** Writing the entry after the memory log was cut at `at`. */
  lemma StoreAt(c: Claim, n: Node, n1: Node, at: nat, e: Entry)
    requires Sound(c, n) && !n.faulted && n.baseIndex < at <= LastIndex(n) + 1 && !Holds(n, at, e)
    requires Quiet(n.(log := n.log[..at - n.baseIndex]), n1)
    ensures var (n2, ok) := Write(n1, AppendEntry(n1.disk, at, e));
            if ok then !n2.faulted && Sound(c, n2.(log := n2.log + [e])) && Took(n, at, e, n2.(log := n2.log + [e]))
            else Sound(c, n2) && n2.faulted
  {
    hide Write, Sound, StoreSound, AppendEntry, Took;
    var attempt := AppendEntry(n1.disk, at, e);
    var cut := n.(log := n.log[..at - n.baseIndex]);
    GrownSound(c, n, at, e);
    QuietStore(c, cut, n1);
    QuietStore(c, cut.(disk := Unacknowledged(n.disk, attempt.value)),
               n1.(disk := Unacknowledged(n.disk, attempt.value)));
    WriteCases(n1, attempt);
    FailedWriteSound(c, n1, attempt);
    var (n2, ok) := Write(n1, attempt);
    if ok {
      var n3 := n2.(log := n2.log + [e]);
      QuietSound(c, n.(disk := attempt.value, log := n.log[..at - n.baseIndex] + [e]), n3);
      TookStored(n, at, e, n3);
    }
  }

  lemma TookStored(n: Node, at: nat, e: Entry, n': Node)
    requires n.baseIndex < at <= LastIndex(n) + 1 && !Holds(n, at, e) && n'.log == n.log[..at - n.baseIndex] + [e]
    requires n'.id == n.id && n'.baseIndex == n.baseIndex && n'.term == n.term && n'.commit == n.commit
    requires n'.snapshot == n.snapshot
    ensures Took(n, at, e, n')
  {}

  lemma QuietStore(c: Claim, n: Node, n': Node)
    requires StoreSound(c, n) && Quiet(n, n')
    ensures StoreSound(c, n')
  {}

  /** After a successful append the entry is at `at` in memory and on disk. */
  lemma FollowerAppendSound(c: Claim, n: Node, at: nat, e: Entry)
    requires Sound(c, n) && !n.faulted && n.baseIndex < at <= LastIndex(n) + 1
    ensures var (n', ok) := FollowerAppend(n, at, e);
            Sound(c, n') && (n'.faulted <==> !ok) && (ok ==> Took(n, at, e, n'))
  {
    hide EnsurePeers, Write, RebuildPendingFrom, Sound, AppendEntry;
    if InLog(n, at) && TermAt(n, at) == e.term {
    } else {
      var n0 := n.(log := n.log[..at - n.baseIndex]);
      RebuildQuiet(n0.(pendingConfig := 0), Max(n0.commit, n0.baseIndex) + 1);
      assert n.log[..|n.log|] == n.log;
      var n1 := if InLog(n, at) then RebuildPending(n0) else n;
      assert Quiet(n0, n1);
      StoreAt(c, n, n1, at, e);
      var (n2, ok) := Write(n1, AppendEntry(n1.disk, at, e));
      if ok && (e.kind == KIND_JOINT || e.kind == KIND_FINAL) {
        var n3 := n2.(log := n2.log + [e]);
        EnsurePeersFrame(n3.(pendingConfig := at), Or(e.oldVoters, e.newVoters));
        QuietSound(c, n3, EnsurePeers(n3.(pendingConfig := at), Or(e.oldVoters, e.newVoters)));
      }
    }
  }

  lemma FollowerCommitSound(c: Claim, n: Node, m: Message)
    requires Sound(c, n) && !n.faulted && m.Append?
    ensures var (n', ok) := FollowerCommit(n, m);
            Sound(c, n') && (n'.faulted <==> !ok)
            && (ok ==> n'.baseIndex == n.baseIndex && n'.term == n.term && n'.log == n.log && n'.id == n.id
                       && n'.commit == AcceptedCommit(n, m) && n'.snapshot == n.snapshot
                       && n'.disk.wal.data == n.disk.wal.data && n'.disk.wal.base == n.disk.wal.base)
  {
    hide InSync, ApplyConfigurations, Write;
    if m.commit > n.commit && MatchOf(m) > n.commit {
      var target := Min(m.commit, MatchOf(m));
      var h := HardState(n.term, n.votedFor, target);
      PersistSound(c, n, h);
      WriteCases(n, SaveHard(n.disk, h));
      var (n1, ok) := PersistHard(n, h);
      if ok {
        var n2 := n1.(commit := target);
        ApplyQuiet(n2, Max(n.commit, n2.baseIndex) + 1, n2.commit);
        QuietSound(c, n2, ApplyCommitted(n2, n.commit));
      }
    }
  }

  /** The log once `m` was accepted. */
  function AcceptedLog(n: Node, m: Message): Log
    requires m.Append? && InLog(n, m.logIndex)
  {
    if m.entry.None? || Holds(n, m.logIndex + 1, m.entry.value) then n.log
    else n.log[..m.logIndex + 1 - n.baseIndex] + [m.entry.value]
  }

  /** Where `m`, once accepted, puts the commit index. */
  function AcceptedCommit(n: Node, m: Message): nat
    requires m.Append?
  {
    Max(n.commit, Min(m.commit, MatchOf(m)))
  }

  /** The durable log holds the predecessor's term, and the entry that was accepted after it. */
  ghost predicate Accepted(c: Claim, n: Node, m: Message, d: Disk)
    requires m.Append?
  {
    && d.wal.hard.term == m.term && d.wal.base == n.baseIndex
    && (c.whole || m.logIndex > n.baseIndex ==> WalTerm(d.wal, m.logIndex) == Some(m.logTerm))
    && (m.entry.Some? ==>
          d.wal.base < m.logIndex + 1 <= WalLast(d.wal)
          && d.wal.data[m.logIndex + 1 - d.wal.base] == Taken(n, m.logIndex + 1, m.entry.value))
  }

  /**
   Accepting entries: the acknowledgement is the last thing queued, and by then the durable
   log holds the predecessor and the entry it acknowledges.
   */
  lemma AcceptanceIsDurable(c: Claim, n: Node, m: Message)
    requires Sound(c, n) && !n.faulted && m.Append? && !RejectsAppend(n, m) && m.term <= n.term
    ensures var n' := OnAppend(n, m);
            Sound(c, n')
            && (!n'.faulted ==>
                  |n'.outbound| > 0 && n'.id == n.id && n'.baseIndex == n.baseIndex && n'.snapshot == n.snapshot
                  && n'.log == AcceptedLog(n, m) && n'.commit == AcceptedCommit(n, m)
                  && var q := n'.outbound[|n'.outbound| - 1];
                     q.msg == AppendResponse(n.id, m.from, n.term, false, MatchOf(m), m.context)
                     && Accepted(c, n, m, q.durable))
  {
    hide FollowerAppend, FollowerCommit, Sound, Accepted, Took;
    var n1 := n.(role := Follower, leader := m.from, elapsed := 0);
    QuietSound(c, n, n1);
    BaseInRange(c, n1);
    var n2, ok2 := n1, true;
    if m.entry.Some? {
      FollowerAppendSound(c, n1, m.logIndex + 1, m.entry.value);
      var (taken, ok) := FollowerAppend(n1, m.logIndex + 1, m.entry.value);
      n2, ok2 := taken, ok;
    }
    if ok2 {
      FollowerCommitSound(c, n2, m);
      var (n3, ok3) := FollowerCommit(n2, m);
      if ok3 {
        StoredAsAccepted(c, n1, n2, n3, m);
        SendSound(c, n3, AppendResponse(n3.id, m.from, n3.term, false, MatchOf(m), m.context));
        SameTaken(n, n1, m);
      }
    }
  }

  lemma SameTaken(n: Node, n1: Node, m: Message)
    requires m.Append? && n1.log == n.log && n1.baseIndex == n.baseIndex
    ensures forall c, d :: Accepted(c, n1, m, d) == Accepted(c, n, m, d)
  {}

  lemma BaseInRange(c: Claim, n: Node)
    requires Sound(c, n) && !n.faulted
    ensures InSync(c, n)
  {}

  /** The node after the append and after the commit: what it accepted is what its store holds. */
  lemma StoredAsAccepted(c: Claim, n: Node, n2: Node, n3: Node, m: Message)
    requires Sound(c, n3) && !n3.faulted && m.Append? && !RejectsAppend(n, m) && m.term <= n.term
    requires if m.entry.Some? then Took(n, m.logIndex + 1, m.entry.value, n2)
             else n2.log == n.log && n2.baseIndex == n.baseIndex && n2.term == n.term && n2.id == n.id
                  && n2.commit == n.commit && n2.snapshot == n.snapshot
    requires n3.id == n2.id && n3.log == n2.log && n3.baseIndex == n2.baseIndex && n3.term == n2.term
    requires n3.commit == AcceptedCommit(n2, m) && n3.snapshot == n2.snapshot
    ensures Accepted(c, n, m, n3.disk) && n3.term == n.term == m.term && n3.id == n.id
    ensures n3.log == AcceptedLog(n, m) && n3.baseIndex == n.baseIndex && n3.commit == AcceptedCommit(n, m)
    ensures n3.snapshot == n.snapshot
    ensures Backed(AppendResponse(n3.id, m.from, n3.term, false, MatchOf(m), m.context), n3.disk)
  {
    assert InLog(n3, MatchOf(m)) && TermAt(n3, m.logIndex) == m.logTerm;
    TermsAgree(c, n3, m.logIndex);
    TermsAgree(c, n3, MatchOf(m));
  }

  /** Memory and disk have the same term at every index of the log. */
  lemma TermsAgree(c: Claim, n: Node, index: nat)
    requires InSync(c, n) && InLog(n, index)
    ensures c.whole || index > n.baseIndex ==> WalTerm(n.disk.wal, index) == Some(TermAt(n, index))
    ensures n.baseIndex == n.disk.wal.base && LastIndex(n) == WalLast(n.disk.wal)
    ensures index > n.baseIndex ==> n.disk.wal.data[index - n.baseIndex] == EntryAt(n, index)
  {
    var k := index - n.baseIndex;
    if k > 0 {
      assert n.disk.wal.data[k] == n.disk.wal.data[1..][k - 1];
      assert n.log[k] == n.log[1..][k - 1];
    }
  }

  lemma OnAppendSound(c: Claim, n: Node, m: Message)
    requires Sound(c, n) && !n.faulted && m.Append? && m.term <= n.term
    ensures Sound(c, OnAppend(n, m))
  {
    hide InSync, FollowerAppend, FollowerCommit;
    if RejectsAppend(n, m) {
      SendSound(c, n, AppendResponse(n.id, m.from, n.term, true, LastIndex(n), m.context));
    } else {
      AcceptanceIsDurable(c, n, m);
    }
  }

  lemma LeaderCommitSound(c: Claim, n: Node)
    requires Sound(c, n) && !n.faulted
    ensures var (n', ok) := LeaderCommit(n); Sound(c, n') && (n'.faulted <==> !ok)
  {
    hide Sound, ApplyConfigurations, Broadcast, HighestCommittable, PersistHard;
    var k := HighestCommittable(n, LastIndex(n));
    TargetIsHigher(n);
    if k != n.commit {
      var h := HardState(n.term, n.votedFor, k);
      PersistSound(c, n, h);
      var (n1, ok) := PersistHard(n, h);
      if ok {
        var n2 := n1.(commit := k);
        ApplyQuiet(n2, Max(n.commit, n2.baseIndex) + 1, n2.commit);
        var n3 := ApplyCommitted(n2, n.commit);
        QuietSound(c, n2, n3);
        WholeBroadcastSound(c, n3);
      }
    }
  }

  lemma TargetIsHigher(n: Node)
    ensures HighestCommittable(n, LastIndex(n)) >= n.commit
  {}

  lemma WholeBroadcastSound(c: Claim, n: Node)
    requires Sound(c, n) && !n.faulted
    ensures Sound(c, Broadcast(n)) && SameStored(n, Broadcast(n))
  {
    BroadcastSound(c, n, 0);
  }

  lemma OnAppendResponseSound(c: Claim, n: Node, m: Message)
    requires Sound(c, n) && !n.faulted && m.AppendResponse?
    ensures Sound(c, OnAppendResponse(n, m))
  {
    hide Sound, LeaderCommit, AppendToContext, Quorum, IsVoter;
    var n1 := RecordReadAck(n, m);
    QuietSound(c, n, n1);
    if n1.role != Leader || m.term != n1.term || m.matched >= LastIndex(n1) + 1 {
    } else if m.reject {
      var next := At(n1.next, m.from);
      var n2 := if next > 1 then n1.(next := n1.next[m.from := next - 1]) else n1;
      QuietSound(c, n1, n2);
      AppendToSound(c, n2, m.from, 0);
    } else {
      var n2 := n1.(matched := n1.matched[m.from := m.matched], next := n1.next[m.from := m.matched + 1]);
      QuietSound(c, n1, n2);
      LeaderCommitSound(c, n2);
      var (n3, ok) := LeaderCommit(n2);
      if ok && At(n3.next, m.from) < LastIndex(n3) + 1 { AppendToSound(c, n3, m.from, 0); }
    }
  }

  // ------------------------------------------------------------ snapshots

  function Saved(d: Disk, snap: Snapshot): Disk {
    d.(image := snap, memory := d.memory.(pending := snap, last := snap.lastIndex))
  }

  /** Saving a snapshot and fencing the log behind it, as the store of a running node does it. */
  lemma FenceFollowsMemory(c: Claim, n: Node, snap: Snapshot)
    requires InSync(c, n) && n.baseIndex < snap.lastIndex
    ensures var d := Saved(n.disk, snap);
            SaveSnapshot(n.disk, snap) == Ok(d) && CompactLog(d, snap.lastIndex).Ok?
            && var d1 := CompactLog(d, snap.lastIndex).value; var w := d1.wal;
               Clean(d1) && d1.image == snap && w.base == snap.lastIndex && w.hard == n.disk.wal.hard
               && w.data[0].term == snap.lastTerm
               && (if InLog(n, snap.lastIndex) && TermAt(n, snap.lastIndex) == snap.lastTerm
                   then w.data == n.log[snap.lastIndex - n.baseIndex..]
                   else w.data == [Sentinel(snap.lastTerm)])
  {
    var k := snap.lastIndex - n.baseIndex;
    CleanFence(Saved(n.disk, snap), snap.lastIndex);
    if InLog(n, snap.lastIndex) {
      TermsAgree(c, n, snap.lastIndex);
      assert n.disk.wal.data[k..] == n.disk.wal.data[1..][k - 1..];
      assert n.log[k..] == n.log[1..][k - 1..];
    }
  }

  /** Between the two writes, and when either is reported as failed, the store is sound. */
  lemma FencingSound(c: Claim, n: Node, snap: Snapshot)
    requires Sound(c, n) && !n.faulted && n.baseIndex < snap.lastIndex
    ensures var d := Saved(n.disk, snap);
            StoreSound(c, n) && StoreSound(c, n.(disk := d)) && StoreSound(c, n.(disk := Unacknowledged(n.disk, d)))
            && CompactLog(d, snap.lastIndex).Ok?
            && StoreSound(c, n.(disk := Unacknowledged(d, CompactLog(d, snap.lastIndex).value)))
  {
    hide PromisesBacked, CompactLog;
    FenceFollowsMemory(c, n, snap);
  }

  /** The two writes of a compaction: either may fail. */
  lemma FenceWrites(c: Claim, n: Node, snap: Snapshot)
    requires Sound(c, n) && !n.faulted && n.baseIndex < snap.lastIndex
    ensures var (n1, ok1) := Write(n, SaveSnapshot(n.disk, snap));
            if !ok1 then Sound(c, n1) && n1.faulted
            else n1 == n.(disk := Saved(n.disk, snap), plan := n1.plan)
                 && var (n2, ok2) := Write(n1, CompactLog(n1.disk, snap.lastIndex));
                    if !ok2 then Sound(c, n2) && n2.faulted
                    else n2 == n.(disk := CompactLog(n1.disk, snap.lastIndex).value, plan := n2.plan)
                         && CompactLog(n1.disk, snap.lastIndex).Ok?
  {
    hide InSync, Write, CompactLog, SaveSnapshot, StoreSound;
    BaseInRange(c, n);
    FenceFollowsMemory(c, n, snap);
    FencingSound(c, n, snap);
    WriteCases(n, SaveSnapshot(n.disk, snap));
    FailedWriteSound(c, n, SaveSnapshot(n.disk, snap));
    var (n1, ok1) := Write(n, SaveSnapshot(n.disk, snap));
    if ok1 {
      QuietStore(c, n.(disk := Saved(n.disk, snap)), n1);
      var attempt := CompactLog(n1.disk, snap.lastIndex);
      QuietStore(c, n.(disk := Unacknowledged(n1.disk, attempt.value)),
                   n1.(disk := Unacknowledged(n1.disk, attempt.value)));
      WriteCases(n1, attempt);
      FailedWriteSound(c, n1, attempt);
    }
  }

  lemma CompactSound(c: Claim, n: Node, index: nat, state: seq<Bytes.byte>)
    requires Sound(c, n) && !n.faulted
    ensures Sound(c, Compact(n, index, state))
  {
    hide Write, CompactLog;
    if !(index <= n.baseIndex || index > n.applied || !InLog(n, index)) {
      var snap := Snapshot(index, TermAt(n, index), state, n.votersOld, n.votersNew);
      FenceFollowsMemory(c, n, snap);
      FenceWrites(c, n, snap);
    }
  }

  lemma InstallSound(c: Claim, n: Node, snap: Snapshot)
    requires Sound(c, n) && !n.faulted && n.baseIndex < snap.lastIndex
    ensures var (n', ok) := Install(n, snap); Sound(c, n') && (n'.faulted <==> !ok)
  {
    hide Write, CompactLog;
    FenceFollowsMemory(c, n, snap);
    FenceWrites(c, n, snap);
  }

  lemma OnInstallSnapshotSound(c: Claim, n: Node, m: Message)
    requires Sound(c, n) && !n.faulted && m.InstallSnapshot?
    ensures Sound(c, OnInstallSnapshot(n, m))
  {
    hide Install;
    if RejectsSnapshot(n, m) {
      SendSound(c, n, InstallSnapshotResponse(n.id, m.from, n.term, true, n.baseIndex));
    } else {
      var n1, ok := n, true;
      if m.snapshot.lastIndex > n.baseIndex {
        InstallSound(c, n, m.snapshot);
        n1, ok := Install(n, m.snapshot).0, Install(n, m.snapshot).1;
      }
      if ok {
        var n2 := n1.(role := Follower, leader := m.from, elapsed := 0);
        QuietSound(c, n1, n2);
        SendSound(c, n2, InstallSnapshotResponse(n2.id, m.from, n2.term, false, n2.baseIndex));
      }
    }
  }

  lemma OnInstallSnapshotResponseSound(c: Claim, n: Node, m: Message)
    requires Sound(c, n) && !n.faulted && m.InstallSnapshotResponse?
    ensures Sound(c, OnInstallSnapshotResponse(n, m))
  {
    hide Sound, AppendToContext, IsVoter;
    if !(n.role != Leader || m.term != n.term || m.reject || !IsVoter(n, m.from)) {
      var n1 := if m.matched > At(n.matched, m.from)
                then n.(matched := n.matched[m.from := m.matched], next := n.next[m.from := m.matched + 1]) else n;
      QuietSound(c, n, n1);
      if At(n1.next, m.from) <= LastIndex(n1) { AppendToSound(c, n1, m.from, 0); }
    }
  }

  // ------------------------------------------------------------ every call

  lemma DispatchSound(c: Claim, n: Node, m: Message)
    requires Sound(c, n) && !n.faulted && (!IsPreVote(m) ==> m.term <= n.term)
    ensures Sound(c, Dispatch(n, m))
  {
    hide Sound, StartElection, IsVoter, UpToDate, OnPreVoteResponse, OnVote, OnVoteResponse, OnAppend, OnAppendResponse,
         OnInstallSnapshot, OnInstallSnapshotResponse;
    match m
    case PreVote(_, _, _, _, _) =>
      SendSound(c, n, PreVoteResponse(n.id, m.from, m.term,
                                   !(IsVoter(n, m.from) && m.term >= n.term + 1 && UpToDate(n, m.logIndex, m.logTerm)
                                     && !(n.leader != 0 && n.elapsed < n.timeout))));
    case PreVoteResponse(_, _, _, _) => OnPreVoteResponseSound(c, n, m);
    case RequestVote(_, _, _, _, _) => OnVoteSound(c, n, m);
    case RequestVoteResponse(_, _, _, _) => OnVoteResponseSound(c, n, m);
    case Append(_, _, _, _, _, _, _, _) => OnAppendSound(c, n, m);
    case AppendResponse(_, _, _, _, _, _) => OnAppendResponseSound(c, n, m);
    case TimeoutNow(_, _, _) =>
      if n.role == Follower && m.term == n.term && m.from == n.leader { StartElectionSound(c, n); }
    case InstallSnapshot(_, _, _, _) => OnInstallSnapshotSound(c, n, m);
    case InstallSnapshotResponse(_, _, _, _, _) => OnInstallSnapshotResponseSound(c, n, m);
  }

  lemma StepSound(c: Claim, n: Node, m: Message)
    requires Sound(c, n)
    ensures Sound(c, Step(n, m))
  {
    hide Sound, ObserveTerm, Dispatch;
    if !n.faulted {
      ObserveSound(c, n, m);
      var (n1, ok) := ObserveTerm(n, m);
      if ok { DispatchSound(c, n1, m); }
    }
  }

  lemma TickSound(c: Claim, n: Node)
    requires Sound(c, n)
    ensures Sound(c, Tick(n))
  {
    hide Sound, StartPreVote, Broadcast;
    if !n.faulted {
      var n1 := n.(elapsed := n.elapsed + 1);
      QuietSound(c, n, n1);
      QuietSound(c, n1, n1.(elapsed := 0));
      if n1.role == Leader {
        WholeBroadcastSound(c, n1.(elapsed := 0));
      } else {
        StartPreVoteSound(c, n1);
      }
    }
  }

  lemma ProposeSound(c: Claim, n: Node, e: Entry)
    requires Sound(c, n) && !n.faulted
    ensures Sound(c, ProposeEntry(n, e))
  {
    hide Sound, AppendLocal, Broadcast;
    AppendLocalSound(c, n, e);
    var (n1, ok) := AppendLocal(n, e);
    if ok { WholeBroadcastSound(c, n1); }
  }

  lemma ProposeConfigSound(c: Claim, n: Node, e: Entry)
    requires Sound(c, n) && !n.faulted
    ensures var (n1, ok) := AppendLocal(n, e);
            Sound(c, if ok then Broadcast(n1.(pendingConfig := LastIndex(n1))) else n1)
  {
    hide Sound, AppendLocal, Broadcast;
    AppendLocalSound(c, n, e);
    var (n1, ok) := AppendLocal(n, e);
    if ok {
      var n2 := n1.(pendingConfig := LastIndex(n1));
      QuietSound(c, n1, n2);
      WholeBroadcastSound(c, n2);
    }
  }

  lemma StartReadSound(c: Claim, n: Node, context: nat)
    requires Sound(c, n)
    ensures Sound(c, StartReadIndex(n, context))
  {
    hide Sound, Quorum, SendReadContext;
    if MayStartRead(n, context) {
      var ready := Quorum(n, NodeBit(n.id));
      var n1 := n.(readContext := context, readAckMask := NodeBit(n.id), readReady := ready,
                   readIndex := if ready then n.commit else n.readIndex);
      QuietSound(c, n, n1);
      ReadContextSound(c, n1, 0, context);
    }
  }

  lemma TransferSound(c: Claim, n: Node, target: NodeId)
    requires Sound(c, n)
    ensures Sound(c, TransferLeadership(n, target))
  {
    hide PromisesBacked, InSync, AppendToContext, IsVoter;
    if n.role == Leader && target != n.id && IsVoter(n, target) {
      if At(n.matched, target) < LastIndex(n) { AppendToSound(c, n, target, 0); }
      else { SendSound(c, n, TimeoutNow(n.id, target, n.term)); }
    }
  }

  lemma ProposeJointSound(c: Claim, n: Node, newVoters: Mask)
    requires Sound(c, n)
    ensures Sound(c, ProposeJoint(n, newVoters)) && Sound(c, ProposeFinal(n))
  {
    hide Sound, AppendLocal, Broadcast, EnsurePeers;
    if n.role == Leader && !n.faulted {
      EnsurePeersFrame(n, newVoters);
      var n1 := EnsurePeers(n, newVoters);
      QuietSound(c, n, n1);
      ProposeConfigSound(c, n1, Entry(n1.term, 0, KIND_JOINT, n1.votersOld, newVoters, OP_LEGACY, 0, 0, 0, 0));
      ProposeConfigSound(c, n, Entry(n.term, 0, KIND_FINAL, n.votersNew, 0, OP_LEGACY, 0, 0, 0, 0));
    }
  }

  lemma ApplySound(c: Claim, n: Node)
    requires Sound(c, n)
    ensures Sound(c, ApplyEntries(n)) && Sound(c, Drain(n))
  {}

  function OutcomeAt(plan: seq<Outcome>, k: nat): Outcome {
    if k < |plan| then plan[k] else Done
  }

  /** Compact reaches its first write. It does not look at the fault flag. */
  predicate Compacts(n: Node, call: Call) {
    call.CallCompact? && n.baseIndex < call.index <= n.applied && InLog(n, call.index)
  }

  /** A stopped node replaces the snapshot file. */
  predicate Resaves(n: Node, call: Call, plan: seq<Outcome>) {
    n.faulted && Compacts(n, call) && n.disk.memory.last <= call.index && OutcomeAt(plan, 0) != Lost
  }

  /**
   On a node that fail-stopped although its write had reached the medium, the store no longer
   remembers the medium. Compact then replaces the snapshot by one that the WAL has already
   passed, or has with another term; or it fences the WAL at an index that is not there.
   */
  predicate Tears(n: Node, call: Call, plan: seq<Outcome>) {
    Resaves(n, call, plan)
    && var w, term := n.disk.wal, TermAt(n, call.index);
       || w.base > call.index
       || (w.base == call.index && w.data[0].term != term)
       || (OutcomeAt(plan, 0) == Done && OutcomeAt(plan, 1) != Lost && WalTerm(w, call.index) != Some(term))
  }

  /** The store after the two writes of a compaction. */
  function CompactedDisk(d: Disk, snap: Snapshot, plan: seq<Outcome>): Disk {
    var (d1, ok) := Written(d, SaveSnapshot(d, snap), OutcomeAt(plan, 0));
    if !ok then d1 else Written(d1, CompactLog(d1, snap.lastIndex), OutcomeAt(plan, 1)).0
  }

  lemma CompactWrites(n: Node, index: nat, state: seq<Bytes.byte>)
    requires n.baseIndex < index <= n.applied && InLog(n, index)
    ensures Compact(n, index, state).disk
         == CompactedDisk(n.disk, Snapshot(index, TermAt(n, index), state, n.votersOld, n.votersNew), n.plan)
  {
    hide SaveSnapshot, CompactLog, Write;
    var saved := SaveSnapshot(n.disk, Snapshot(index, TermAt(n, index), state, n.votersOld, n.votersNew));
    WriteOutcome(n, saved);
    var n1 := Write(n, saved).0;
    WriteOutcome(n1, CompactLog(n1.disk, index));
  }

  lemma WriteOutcome(n: Node, attempt: Result<Disk>)
    ensures var (n', ok) := Write(n, attempt);
            (n'.disk, ok) == Written(n.disk, attempt, OutcomeAt(n.plan, 0))
            && OutcomeAt(n'.plan, 0) == OutcomeAt(n.plan, 1)
            && n'.baseIndex == n.baseIndex && n'.log == n.log && n'.commit == n.commit && n'.applied == n.applied
  {}

  /** A store that remembers the log fences it by keeping its suffix. */
  lemma RememberedFence(n: Node, snap: Snapshot)
    requires Remembered(n) && n.baseIndex < snap.lastIndex <= LastIndex(n) && TermAt(n, snap.lastIndex) == snap.lastTerm
    ensures var m := n.disk.memory.wal;
            Fence(m, snap) == WalCompact(m, snap.lastIndex) && Fence(m, snap).Ok?
            && FenceRecord(m, snap) == CompactRecord(snap.lastIndex)
  {
    var k := snap.lastIndex - n.baseIndex;
    assert n.log[k] == n.log[1..][k - 1] == n.disk.memory.wal.data[1..|n.log|][k - 1] == n.disk.memory.wal.data[k];
  }

  /** The medium after the two writes of a stopped node's compaction. */
  lemma ResavedMedium(n: Node, snap: Snapshot, plan: seq<Outcome>)
    requires Remembered(n) && n.baseIndex < snap.lastIndex <= LastIndex(n) && TermAt(n, snap.lastIndex) == snap.lastTerm
    ensures var d, d' := n.disk, CompactedDisk(n.disk, snap, plan);
            if snap.lastIndex < d.memory.last || OutcomeAt(plan, 0) == Lost then d' == d
            else
              d'.image == snap
              && (if OutcomeAt(plan, 0) == Done && OutcomeAt(plan, 1) != Lost
                  then d'.wal == Logged(d, CompactRecord(snap.lastIndex)).wal
                       && d'.readable == Logged(d, CompactRecord(snap.lastIndex)).readable
                  else d'.wal == d.wal && d'.readable == d.readable)
  {
    hide Fence;
    RememberedFence(n, snap);
  }

  /** Replaying the fence on the medium. */
  lemma FencedHealthy(d: Disk, snap: Snapshot)
    requires d.readable
    ensures var d' := Logged(d, CompactRecord(snap.lastIndex)).(image := snap);
            (Healthy(d') <==> WalTerm(d.wal, snap.lastIndex) == Some(snap.lastTerm)) && d'.wal.hard == d.wal.hard
  {}

  lemma WrittenMemory(d: Disk, attempt: Result<Disk>, outcome: Outcome)
    ensures var (d', ok) := Written(d, attempt, outcome);
            if ok then attempt == Ok(d') else d'.memory == d.memory
  {}

  /** What a compaction leaves in memory: everything as before, or the suffix of node and store alike. */
  lemma CompactedMemory(n: Node, index: nat, state: seq<Bytes.byte>)
    requires n.baseIndex < index <= n.applied && InLog(n, index)
    ensures var n' := Compact(n, index, state);
            var snap := Snapshot(index, TermAt(n, index), state, n.votersOld, n.votersNew);
            n'.applied == n.applied
            && (if n'.baseIndex == n.baseIndex then n'.log == n.log && n'.disk.memory.wal == n.disk.memory.wal
                else n'.baseIndex == index == n'.disk.image.lastIndex && n'.log == n.log[index - n.baseIndex..]
                     && Fence(n.disk.memory.wal, snap) == Ok(n'.disk.memory.wal))
  {
    hide Write, Written, Fence, Logged;
    var snap := Snapshot(index, TermAt(n, index), state, n.votersOld, n.votersNew);
    var saved := SaveSnapshot(n.disk, snap);
    WriteOutcome(n, saved);
    WrittenMemory(n.disk, saved, OutcomeAt(n.plan, 0));
    var n1 := Write(n, saved).0;
    var fenced := CompactLog(n1.disk, index);
    WriteOutcome(n1, fenced);
    WrittenMemory(n1.disk, fenced, OutcomeAt(n1.plan, 0));
    LoggedImage(n1.disk, FenceRecord(n1.disk.memory.wal, n1.disk.memory.pending));
  }

  lemma LoggedImage(d: Disk, r: Record)
    ensures Logged(d, r).image == d.image && Logged(d, r).memory == d.memory
  {}

  /** So a stopped node that compacted still remembers its log. */
  lemma CompactedRemembers(n: Node, index: nat, state: seq<Bytes.byte>)
    requires Remembered(n) && n.baseIndex < index <= n.applied && InLog(n, index)
    ensures Remembered(Compact(n, index, state))
  {
    hide Compact, Fence;
    var n' := Compact(n, index, state);
    var snap := Snapshot(index, TermAt(n, index), state, n.votersOld, n.votersNew);
    CompactedMemory(n, index, state);
    RememberedFence(n, snap);
    var k := index - n.baseIndex;
    if n'.baseIndex != n.baseIndex {
      var m := n.disk.memory.wal;
      assert n.log[k..][1..] == n.log[1..][k..];
      assert m.data[k..][1..|n.log| - k] == m.data[1..|n.log|][k..];
    }
  }

  lemma FaultedCompact(c: Claim, n: Node, index: nat, state: seq<Bytes.byte>)
    requires Sound(c, n) && n.faulted
    ensures Sound(c, Compact(n, index, state)) <==> !(c.whole && Tears(n, CallCompact(index, state), n.plan))
  {
    hide PromisesBacked, Compact, CompactedDisk, Remembered, Logged;
    var n' := Compact(n, index, state);
    CompactStaysFaulted(n, index, state);
    NothingQueued(n');
    if n.baseIndex < index <= n.applied && InLog(n, index) {
      CompactedMemory(n, index, state);
      CompactedRemembers(n, index, state);
      LoggedHard(n.disk, index);
      var snap := Snapshot(index, TermAt(n, index), state, n.votersOld, n.votersNew);
      CompactWrites(n, index, state);
      ResavedMedium(n, snap, n.plan);
      if n.disk.readable { FencedHealthy(n.disk, snap); }
    } else {
      assert n' == n by { CompactRefused(n, index, state); }
    }
  }

  lemma LoggedHard(d: Disk, index: nat)
    ensures Logged(d, CompactRecord(index)).wal.hard == d.wal.hard
  {}

  lemma CompactRefused(n: Node, index: nat, state: seq<Bytes.byte>)
    requires !(n.baseIndex < index <= n.applied && InLog(n, index))
    ensures Compact(n, index, state) == n
  {}

  lemma WriteStaysSilent(n: Node, attempt: Result<Disk>)
    requires Silent(n)
    ensures Silent(Write(n, attempt).0) && Write(n, attempt).0.commit == n.commit
  {}

  lemma CompactStaysFaulted(n: Node, index: nat, state: seq<Bytes.byte>)
    requires Silent(n)
    ensures Silent(Compact(n, index, state)) && Compact(n, index, state).commit == n.commit
  {
    hide SaveSnapshot, CompactLog, Write;
    if n.baseIndex < index <= n.applied && InLog(n, index) {
      var snap := Snapshot(index, TermAt(n, index), state, n.votersOld, n.votersNew);
      WriteStaysSilent(n, SaveSnapshot(n.disk, snap));
      var n1 := Write(n, SaveSnapshot(n.disk, snap)).0;
      WriteStaysSilent(n1, CompactLog(n1.disk, index));
    }
  }

  lemma NothingQueued(n: Node)
    requires n.outbound == []
    ensures PromisesBacked(n)
  {}

  /** Memory and store stay in step under every call but a tearing one. */
  lemma PerformSound(c: Claim, n: Node, call: Call, plan: seq<Outcome>)
    requires Sound(c, n) && !(c.whole && Tears(n, call, plan))
    ensures Sound(c, Perform(n, call, plan))
  {
    hide Sound, Step, Tick, ProposeEntry, ProposeJoint, ProposeFinal, StartReadIndex, TransferLeadership, Compact;
    var n0 := n.(plan := plan);
    QuietSound(c, n, n0);
    match call
    case CallStep(m) => StepSound(c, n0, m);
    case CallTick => TickSound(c, n0);
    case CallPropose(command) =>
      if !n0.faulted { ProposeSound(c, n0, Sentinel(n0.term).(command := command)); }
    case CallProposeRequest(op, client, r, k, v) =>
      if !n0.faulted { ProposeSound(c, n0, Entry(n0.term, 0, KIND_NORMAL, 0, 0, op, client, r, k, v)); }
    case CallProposeJoint(w) => ProposeJointSound(c, n0, w);
    case CallProposeFinal => ProposeJointSound(c, n0, 0);
    case CallStartRead(context) => StartReadSound(c, n0, context);
    case CallTransfer(target) => TransferSound(c, n0, target);
    case CallApply => ApplySound(c, n0);
    case CallDrain => ApplySound(c, n0);
    case CallCompact(index, state) =>
      if n0.faulted { FaultedCompact(c, n0, index, state); } else { CompactSound(c, n0, index, state); }
  }

  /** The exact condition: a call keeps the store whole if and only if it does not tear it. */
  lemma PerformSoundIff(c: Claim, n: Node, call: Call, plan: seq<Outcome>)
    requires Sound(c, n) && c.whole
    ensures Sound(c, Perform(n, call, plan)) <==> !Tears(n, call, plan)
  {
    hide Sound, Step, Tick, ProposeEntry, ProposeJoint, ProposeFinal, StartReadIndex, TransferLeadership, Compact;
    if Tears(n, call, plan) {
      var n0 := n.(plan := plan);
      QuietSound(c, n, n0);
      FaultedCompact(c, n0, call.index, call.state);
    } else {
      PerformSound(c, n, call, plan);
    }
  }

  /** A stopped node stays stopped and silent, whatever it is asked. */
  lemma FaultedStays(n: Node, call: Call, plan: seq<Outcome>)
    requires Silent(n)
    ensures Silent(Perform(n, call, plan)) && Perform(n, call, plan).commit == n.commit
  {
    hide AppendLocal, Broadcast, StartPreVote, Quorum, SendReadContext, AppendToContext, IsVoter, Compact;
    if call.CallCompact? { CompactStaysFaulted(n.(plan := plan), call.index, call.state); }
  }

  // ------------------------------------------------------------ restart

  lemma {:induction false} RestoreFrame(n: Node, index: nat, o: Mask, w: Mask, pending: nat)
    ensures Quiet(n, RestoreFrom(n, index, o, w, pending).0)
    ensures RestoreFrom(n, index, o, w, pending).0.role == n.role
    decreases LastIndex(n) + 1 - index
  {
    hide EnsurePeers, Restorable;
    if index <= LastIndex(n) {
      var e := EntryAt(n, index);
      if Restorable(e, o, w, pending) {
        var n1 := EnsurePeers(n, Or(e.oldVoters, e.newVoters));
        EnsurePeersFrame(n, Or(e.oldVoters, e.newVoters));
        RestoreFrame(n1, index + 1, e.oldVoters, e.newVoters, pending);
        RestoreFrame(n1, index + 1, o, w, index);
        RestoreFrame(n1, index + 1, o, w, pending);
      }
    }
  }

  /** The node that recovery builds from an opened store, before it is checked. */
  ghost function Rebuilt(id: NodeId, peers: seq<NodeId>, timeout: nat, d: Disk): Node {
    var n := NewNode(id, peers, timeout, d);
    var hard, snap := d.wal.hard, d.image;
    if snap.lastIndex == 0 then
      n.(term := hard.term, votedFor := hard.votedFor, commit := hard.commit, log := [Sentinel(0)] + d.wal.data[1..])
    else
      EnsurePeers(n.(term := hard.term, votedFor := hard.votedFor, baseIndex := snap.lastIndex,
                     baseTerm := snap.lastTerm, snapshot := snap,
                     votersOld := snap.oldVoters, votersNew := snap.newVoters),
                  Or(snap.oldVoters, snap.newVoters))
      .(log := [Sentinel(snap.lastTerm)] + d.wal.data[1..],
        commit := Max(hard.commit, snap.lastIndex), applied := snap.lastIndex)
  }

  lemma RebuiltFrame(id: NodeId, peers: seq<NodeId>, timeout: nat, d: Disk)
    ensures var r := Rebuilt(id, peers, timeout, d);
            r.id == id && r.term == d.wal.hard.term && r.votedFor == d.wal.hard.votedFor && r.disk == d
            && r.outbound == [] && !r.faulted && r.role == Follower
            && r.commit == Max(d.wal.hard.commit, d.image.lastIndex)
            && r.baseIndex == d.image.lastIndex && r.applied == r.baseIndex
            && r.log[1..] == d.wal.data[1..] && |r.log| == |d.wal.data|
            && (d.image.lastIndex != 0 ==> r.snapshot == d.image && r.baseTerm == d.image.lastTerm
                                           && r.log[0] == Sentinel(d.image.lastTerm))
            && (d.image.lastIndex == 0 ==> r.snapshot == NO_SNAPSHOT && r.baseTerm == 0 && r.log[0] == Sentinel(0))
  {
    hide EnsurePeersFrom;
  }

  /** Recovery keeps the rebuilt node exactly when its checks pass, and fail-stops otherwise. */
  ghost predicate RecoveryAccepts(id: NodeId, peers: seq<NodeId>, timeout: nat, d: Disk) {
    var r := Rebuilt(id, peers, timeout, d);
    (d.image.lastIndex != 0 ==> d.image.oldVoters != 0)
    && r.commit <= LastIndex(r)
    && RestoreFrom(r, r.baseIndex + 1, r.votersOld, r.votersNew, 0).1
  }

  lemma RecoverCases(id: NodeId, peers: seq<NodeId>, timeout: nat, d: Disk)
    ensures var r, n := Rebuilt(id, peers, timeout, d), Recover(id, peers, timeout, d);
            if RecoveryAccepts(id, peers, timeout, d) then Quiet(r, n) && n.role == Follower
            else Silent(n) && n.disk == d && n.applied <= n.commit <= r.commit
                 && n.baseIndex == r.baseIndex
                 && ((n.log == r.log && n.applied == r.applied) || n.log == [Sentinel(0)])
  {
    hide Restored, EnsurePeers, RestoreFrom, Quiet, NewNode;
    var r := Rebuilt(id, peers, timeout, d);
    RebuiltFrame(id, peers, timeout, d);
    RestoredCases(r);
    var blank := NewNode(id, peers, timeout, d);
    BlankFrame(id, peers, timeout, d);
    assert d.image.lastIndex == 0 || d.image.oldVoters != 0 ==> Recover(id, peers, timeout, d) == Restored(r);
  }

  lemma BlankFrame(id: NodeId, peers: seq<NodeId>, timeout: nat, d: Disk)
    ensures var n := NewNode(id, peers, timeout, d);
            n.disk == d && n.commit == n.applied == 0 && n.log == [Sentinel(0)]
  {}

  /** The checks at the end of recovery: all pass, or the node is stopped. */
  lemma RestoredCases(r: Node)
    requires r.outbound == [] && !r.faulted && r.role == Follower
    ensures var n := Restored(r);
            if r.commit <= LastIndex(r) && RestoreFrom(r, r.baseIndex + 1, r.votersOld, r.votersNew, 0).1
            then Quiet(r, n) && n.role == Follower
            else Silent(n) && n.disk == r.disk && n.commit == r.commit && n.applied == r.applied
                 && n.baseIndex == r.baseIndex && n.log == r.log
  {
    hide RestoreFrom;
    RestoreFrame(r, r.baseIndex + 1, r.votersOld, r.votersNew, 0);
  }

  lemma OpenSound(c: Claim, base: nat, d: Disk)
    requires DiskSound(c, base, d) && Open(d).Ok?
    ensures var o := Open(d).value;
            DiskSound(c, o.image.lastIndex, o) && Clean(o) && o.wal.base == o.image.lastIndex == d.image.lastIndex
  {}

  lemma RecoverSound(c: Claim, id: NodeId, peers: seq<NodeId>, timeout: nat, d: Disk)
    requires DiskSound(c, d.image.lastIndex, d) && Clean(d) && d.wal.base == d.image.lastIndex
    ensures Sound(c, Recover(id, peers, timeout, d))
  {
    hide Recover, Rebuilt, RecoveryAccepts;
    RebuiltFrame(id, peers, timeout, d);
    RecoverCases(id, peers, timeout, d);
    var r := Rebuilt(id, peers, timeout, d);
    assert InSync(c, r);
  }

  // ------------------------------------------------------------ runs of one node

  datatype NodeStep =
    | Do(call: Call, plan: seq<Outcome>)
    | Reboot(timeout: nat)

  /** A reboot reopens the store and rebuilds the node; when the store refuses, nothing runs. */
  ghost predicate StepsTo(n: Node, s: NodeStep, n': Node) {
    match s
    case Do(call, plan) => n' == Perform(n, call, plan)
    case Reboot(timeout) => Open(n.disk).Ok? && n' == Recover(n.id, n.peers, timeout, Open(n.disk).value)
  }

  ghost predicate NodeRun(states: seq<Node>, steps: seq<NodeStep>) {
    && |states| == |steps| + 1
    && states[0] == NewNode(states[0].id, states[0].peers, states[0].timeout, EMPTY_DISK)
    && forall k :: 0 <= k < |steps| ==> StepsTo(states[k], steps[k], states[k + 1])
  }

  predicate TornStep(n: Node, s: NodeStep) {
    s.Do? && Tears(n, s.call, s.plan)
  }

  /**
   Persist before promise, over every run: each queued vote grant, append acceptance and
   snapshot acknowledgement was durable when it was queued, and after a storage failure
   nothing is queued at all. Until a call tears the base, the store is also whole.
   */
  lemma {:induction false} EveryStateIsSound(whole: bool, states: seq<Node>, steps: seq<NodeStep>, k: nat)
    requires NodeRun(states, steps) && k < |states|
    requires whole ==> forall j :: 0 <= j < k ==> !TornStep(states[j], steps[j])
    ensures PromisesBacked(states[k]) && (states[k].faulted ==> Silent(states[k]))
    ensures !states[k].faulted ==> InSync(Claim(whole, 0), states[k])
    ensures Sound(Claim(whole, 0), states[k])
  {
    hide Sound, Perform, Recover, Open, InSync, PromisesBacked, NewNode, Tears;
    if k == 0 {
      BlankSound(Claim(whole, 0), states[0].id, states[0].peers, states[0].timeout);
    } else {
      EveryStateIsSound(whole, states, steps, k - 1);
      assert whole ==> !TornStep(states[k - 1], steps[k - 1]);
      StepKeepsSound(Claim(whole, 0), states[k - 1], steps[k - 1], states[k]);
    }
    Unfold(Claim(whole, 0), states[k]);
  }

  /**
   The commit index never goes back: whatever a node had committed, its store remembers
   through every later call, failure and restart, and a node that runs has exactly the stored
   index.
   */
  lemma {:induction false} CommitNeverGoesBack(states: seq<Node>, steps: seq<NodeStep>, i: nat, j: nat)
    requires NodeRun(states, steps) && i <= j < |states|
    ensures states[i].commit <= StoredCommit(states[j].disk)
    ensures !states[j].faulted ==> states[i].commit <= states[j].commit == StoredCommit(states[j].disk)
  {
    hide PromisesBacked, Perform, Recover, NewNode, Tears, Remembered;
    EveryStateIsSound(false, states, steps, i);
    KeepsFloor(Claim(false, Max(states[i].disk.wal.hard.commit, states[i].baseIndex)), states, steps, i, j);
  }

  /**
   A stopped node lowers what its store had reached: it saves a snapshot below one whose own
   save was reported as failed, and which no stored commit index covers.
   */
  predicate Lowers(n: Node, call: Call, plan: seq<Outcome>) {
    Resaves(n, call, plan) && call.index < n.disk.image.lastIndex && n.disk.wal.hard.commit < n.disk.image.lastIndex
  }

  /** The exact condition: a call moves the stored commit index down if and only if it is such a save. */
  lemma StoredCommitDropsIff(n: Node, call: Call, plan: seq<Outcome>)
    requires Sound(LOOSE, n)
    ensures StoredCommit(Perform(n, call, plan).disk) < StoredCommit(n.disk) <==> Lowers(n, call, plan)
  {
    hide Perform, Sound;
    var n0 := n.(plan := plan);
    Unfold(LOOSE, n);
    if !n.faulted {
      var c := Claim(false, StoredCommit(n.disk));
      RaisedSound(n);
      PerformSound(c, n, call, plan);
      ReachedSound(c, Perform(n, call, plan));
    } else if !Compacts(n, call) {
      FaultedKeepsDisk(n, call, plan);
    } else {
      QuietSound(LOOSE, n, n0);
      ResavedCommit(n0, call.index, call.state);
      PerformCompact(n, call, plan);
    }
  }

  lemma PerformCompact(n: Node, call: Call, plan: seq<Outcome>)
    requires call.CallCompact?
    ensures Perform(n, call, plan) == Compact(n.(plan := plan), call.index, call.state)
  {}

  lemma RaisedSound(n: Node)
    requires Sound(LOOSE, n) && !n.faulted
    ensures Sound(Claim(false, StoredCommit(n.disk)), n)
  {
    hide PromisesBacked, Remembered;
  }

  lemma ReachedSound(c: Claim, n: Node)
    requires Sound(c, n)
    ensures n.commit <= StoredCommit(n.disk) && c.floor <= StoredCommit(n.disk)
  {}

  lemma FaultedKeepsDisk(n: Node, call: Call, plan: seq<Outcome>)
    requires Silent(n) && !Compacts(n, call)
    ensures Perform(n, call, plan).disk == n.disk
  {
    hide AppendLocal, Broadcast, StartPreVote, Quorum, SendReadContext, AppendToContext, IsVoter, Compact;
    if call.CallCompact? { CompactRefused(n.(plan := plan), call.index, call.state); }
  }

  lemma ResavedCommit(n: Node, index: nat, state: seq<Bytes.byte>)
    requires Sound(LOOSE, n) && n.faulted && n.baseIndex < index <= n.applied && InLog(n, index)
    ensures var d := Compact(n, index, state).disk;
            StoredCommit(d) < StoredCommit(n.disk)
            <==> n.disk.memory.last <= index && OutcomeAt(n.plan, 0) != Lost
                 && index < n.disk.image.lastIndex && n.disk.wal.hard.commit < n.disk.image.lastIndex
  {
    hide Compact, CompactedDisk, Logged, PromisesBacked, Remembered;
    var snap := Snapshot(index, TermAt(n, index), state, n.votersOld, n.votersNew);
    CompactWrites(n, index, state);
    ResavedMedium(n, snap, n.plan);
    LoggedHard(n.disk, index);
  }

  /** Over every run, a stored commit index drops only by such a save. */
  lemma {:induction false} StoredCommitStays(states: seq<Node>, steps: seq<NodeStep>, i: nat, j: nat)
    requires NodeRun(states, steps) && i <= j < |states|
    requires forall k :: i <= k < j ==> !(steps[k].Do? && Lowers(states[k], steps[k].call, steps[k].plan))
    ensures StoredCommit(states[i].disk) <= StoredCommit(states[j].disk)
    decreases j
  {
    hide Sound, Perform, Recover, NewNode, Lowers, Open, StoredCommit;
    if i < j {
      var n, s := states[j - 1], steps[j - 1];
      StoredCommitStays(states, steps, i, j - 1);
      EveryStateIsSound(false, states, steps, j - 1);
      assert StepsTo(n, s, states[j]);
      match s
      case Do(call, plan) => StoredCommitDropsIff(n, call, plan);
      case Reboot(timeout) => RebootKeepsCommit(n, timeout);
    }
  }

  lemma RebootKeepsCommit(n: Node, timeout: nat)
    requires Open(n.disk).Ok?
    ensures StoredCommit(Recover(n.id, n.peers, timeout, Open(n.disk).value).disk) == StoredCommit(n.disk)
  {
    hide Recover;
    RecoverCases(n.id, n.peers, timeout, Open(n.disk).value);
    RebuiltFrame(n.id, n.peers, timeout, Open(n.disk).value);
  }

  lemma {:induction false} KeepsFloor(c: Claim, states: seq<Node>, steps: seq<NodeStep>, i: nat, j: nat)
    requires NodeRun(states, steps) && i <= j < |states| && Sound(c, states[i]) && !c.whole
    ensures Sound(c, states[j])
    decreases j
  {
    hide Sound, Perform, Recover, NewNode, Tears;
    if i < j {
      KeepsFloor(c, states, steps, i, j - 1);
      StepKeepsSound(c, states[j - 1], steps[j - 1], states[j]);
    }
  }

  lemma StepKeepsSound(c: Claim, n: Node, s: NodeStep, n': Node)
    requires Sound(c, n) && StepsTo(n, s, n') && !(c.whole && TornStep(n, s))
    ensures Sound(c, n')
  {
    hide Sound, Perform, Recover, Open, Tears;
    match s
    case Do(call, plan) => PerformSound(c, n, call, plan);
    case Reboot(timeout) => RebootSound(c, n, timeout);
  }

  /** Once storage fails, the queue is empty in every state up to the next reboot. */
  lemma {:induction false} FaultIsFinal(states: seq<Node>, steps: seq<NodeStep>, i: nat, j: nat)
    requires NodeRun(states, steps) && i <= j < |states| && states[i].faulted
    requires forall k :: i <= k < j ==> steps[k].Do?
    ensures Silent(states[j])
    decreases j
  {
    hide Perform, Recover, NewNode, Tears;
    if i == j {
      EveryStateIsSound(false, states, steps, i);
    } else {
      FaultIsFinal(states, steps, i, j - 1);
      assert StepsTo(states[j - 1], steps[j - 1], states[j]);
      FaultedStays(states[j - 1], steps[j - 1].call, steps[j - 1].plan);
    }
  }

  /** `q` is the acceptance that this call queued. */
  ghost predicate QueuesAcceptance(n: Node, n': Node, q: Queued) {
    |n'.outbound| > |n.outbound| && q == n'.outbound[|n'.outbound| - 1] && q.msg.AppendResponse? && !q.msg.reject
  }

  /** When a call queues an acceptance, the store already holds all of what it accepts. */
  lemma StepAcceptance(c: Claim, n: Node, m: Message, plan: seq<Outcome>, q: Queued)
    requires Sound(c, n) && m.Append? && QueuesAcceptance(n, Perform(n, CallStep(m), plan), q)
    ensures q.msg == AppendResponse(n.id, m.from, m.term, false, MatchOf(m), m.context) && Accepted(c, n, m, q.durable)
  {
    hide OnAppend, Sound, Accepted, ObserveTerm;
    var n0 := n.(plan := plan);
    QuietSound(c, n, n0);
    if !n0.faulted {
      ObserveSound(c, n0, m);
      ObserveFrame(n0, m);
      var (n1, ok) := ObserveTerm(n0, m);
      if ok {
        if RejectsAppend(n1, m) {
          RejectionIsQueued(n1, m);
        } else {
          AcceptanceIsDurable(c, n1, m);
          Unfold(c, OnAppend(n1, m));
          SameTaken(n, n1, m);
        }
      }
    }
  }

  lemma ObserveFrame(n: Node, m: Message)
    ensures var (n1, ok) := ObserveTerm(n, m);
            if ok then n1.id == n.id && n1.log == n.log && n1.baseIndex == n.baseIndex && n1.outbound == n.outbound
            else n1.outbound == []
  {
    hide SaveHard;
  }

  lemma RejectionIsQueued(n: Node, m: Message)
    requires m.Append? && RejectsAppend(n, m)
    ensures var out := OnAppend(n, m).outbound;
            |out| == |n.outbound| + 1 && out[|out| - 1].msg.AppendResponse? && out[|out| - 1].msg.reject
  {}

  /** Over every run: whenever a delivered Append leads to an acceptance, the durable log already held the entry. */
  lemma AcceptancesAreDurable(whole: bool, states: seq<Node>, steps: seq<NodeStep>, k: nat, m: Message,
                              plan: seq<Outcome>, q: Queued)
    requires NodeRun(states, steps) && k < |steps| && steps[k] == Do(CallStep(m), plan) && m.Append?
    requires whole ==> forall j :: 0 <= j < k ==> !TornStep(states[j], steps[j])
    requires QueuesAcceptance(states[k], states[k + 1], q)
    ensures q.msg == AppendResponse(states[k].id, m.from, m.term, false, MatchOf(m), m.context)
    ensures Accepted(Claim(whole, 0), states[k], m, q.durable)
  {
    hide Sound, Perform, Recover, NewNode, Tears, Accepted;
    EveryStateIsSound(whole, states, steps, k);
    assert StepsTo(states[k], steps[k], states[k + 1]);
    StepAcceptance(Claim(whole, 0), states[k], m, plan, q);
  }

  lemma BlankSound(c: Claim, id: NodeId, peers: seq<NodeId>, timeout: nat)
    requires c.floor == 0
    ensures Sound(c, NewNode(id, peers, timeout, EMPTY_DISK))
  {}

  lemma Unfold(c: Claim, n: Node)
    requires Sound(c, n)
    ensures PromisesBacked(n) && (n.faulted ==> Silent(n)) && n.applied <= n.commit
    ensures !n.faulted ==> InSync(c, n)
  {}

  lemma RebootSound(c: Claim, n: Node, timeout: nat)
    requires Sound(c, n) && Open(n.disk).Ok?
    ensures Sound(c, Recover(n.id, n.peers, timeout, Open(n.disk).value))
  {
    hide Recover;
    OpenSound(c, n.baseIndex, n.disk);
    RecoverSound(c, n.id, n.peers, timeout, Open(n.disk).value);
  }

  /**
   Restart equivalence: a crash after any completed call that left the node running rebuilds
   the same term, vote, commit index, base and entries, exactly when recovery's checks pass.
   */
  lemma RestartEquivalence(c: Claim, n: Node, peers: seq<NodeId>, timeout: nat)
    requires Sound(c, n) && !n.faulted
    ensures Open(n.disk).Ok?
    ensures var d := Open(n.disk).value; var r := Recover(n.id, peers, timeout, d);
            (r.faulted <==> !RecoveryAccepts(n.id, peers, timeout, d))
            && (!r.faulted ==>
                  r.term == n.term && r.votedFor == n.votedFor && r.commit == n.commit
                  && r.baseIndex == n.baseIndex && r.baseTerm == n.baseTerm && r.snapshot == n.snapshot
                  && |r.log| == |n.log| && r.log[1..] == n.log[1..] && r.log[0].term == n.log[0].term
                  && r.role == Follower && r.outbound == [])
  {
    hide Recover, Rebuilt, RecoveryAccepts;
    var d := Open(n.disk).value;
    RebuiltFrame(n.id, peers, timeout, d);
    RecoverCases(n.id, peers, timeout, d);
  }

  /** The voters with which recovery starts its scan. */
  ghost function StartVoters(id: NodeId, peers: seq<NodeId>, image: Snapshot): (Mask, Mask) {
    if image.lastIndex == 0 then (MaskOf([id] + peers), 0) else (image.oldVoters, image.newVoters)
  }

  /**
   Recovery's scan on the log alone: the voters and the pending change after the first `k`
   entries above `base`, or nothing if one of them is refused.
   */
  function Scan(log: Log, base: nat, commit: nat, o: Mask, w: Mask, k: nat): Option<(Mask, Mask, nat)>
    requires k < |log|
  {
    if k == 0 then Some((o, w, 0))
    else
      match Scan(log, base, commit, o, w, k - 1)
      case None => None
      case Some((o1, w1, pending)) =>
        var e := log[k];
        if !Restorable(e, o1, w1, pending) then None
        else if e.kind != KIND_JOINT && e.kind != KIND_FINAL then Some((o1, w1, pending))
        else if base + k <= commit then Some((e.oldVoters, e.newVoters, pending))
        else Some((o1, w1, base + k))
  }

  lemma {:induction false} ScanReads(a: Log, b: Log, base: nat, commit: nat, o: Mask, w: Mask, k: nat)
    requires k < |a| && k < |b| && forall i :: 1 <= i <= k ==> a[i] == b[i]
    ensures Scan(a, base, commit, o, w, k) == Scan(b, base, commit, o, w, k)
  {
    hide Restorable;
    if k > 0 { ScanReads(a, b, base, commit, o, w, k - 1); }
  }

  lemma {:induction false} ScanStops(log: Log, base: nat, commit: nat, o: Mask, w: Mask, j: nat, k: nat)
    requires j <= k < |log| && Scan(log, base, commit, o, w, j).None?
    ensures Scan(log, base, commit, o, w, k).None?
  {
    hide Restorable;
    if j < k { ScanStops(log, base, commit, o, w, j, k - 1); }
  }

  /** The scan of restoreConfigurationState, which also adds peers, accepts exactly what `Scan` accepts. */
  lemma {:induction false} RestoreIsScan(n: Node, o: Mask, w: Mask, k: nat)
    requires k < |n.log| && Scan(n.log, n.baseIndex, n.commit, o, w, k).Some?
    ensures var (o1, w1, pending) := Scan(n.log, n.baseIndex, n.commit, o, w, k).value;
            RestoreFrom(n, n.baseIndex + 1 + k, o1, w1, pending).1
            <==> Scan(n.log, n.baseIndex, n.commit, o, w, |n.log| - 1).Some?
    decreases |n.log| - k
  {
    hide Restorable, EnsurePeersFrom;
    if k + 1 < |n.log| {
      var e := n.log[k + 1];
      var (o1, w1, pending) := Scan(n.log, n.baseIndex, n.commit, o, w, k).value;
      if !Restorable(e, o1, w1, pending) {
        ScanStops(n.log, n.baseIndex, n.commit, o, w, k + 1, |n.log| - 1);
      } else {
        RestoreIsScan(EnsurePeers(n, Or(e.oldVoters, e.newVoters)), o, w, k + 1);
      }
    }
  }

  lemma RebuiltVoters(id: NodeId, peers: seq<NodeId>, timeout: nat, d: Disk)
    ensures var r := Rebuilt(id, peers, timeout, d);
            (r.votersOld, r.votersNew) == StartVoters(id, peers, d.image)
  {
    hide EnsurePeersFrom;
  }

  /** When a restart of a running node is refused, on the node itself. */
  lemma RestartRefusedIff(c: Claim, n: Node, peers: seq<NodeId>, timeout: nat)
    requires Sound(c, n) && !n.faulted
    ensures Open(n.disk).Ok?
    ensures var (o, w) := StartVoters(n.id, peers, n.snapshot);
            Recover(n.id, peers, timeout, Open(n.disk).value).faulted
            <==> n.commit > LastIndex(n) || (n.baseIndex > 0 && n.snapshot.oldVoters == 0)
                 || Scan(n.log, n.baseIndex, n.commit, o, w, |n.log| - 1).None?
  {
    hide Recover, RestoreFrom, Rebuilt, PromisesBacked, Restorable, Scan;
    var d := Open(n.disk).value;
    var r := Rebuilt(n.id, peers, timeout, d);
    RebuiltFrame(n.id, peers, timeout, d);
    RebuiltVoters(n.id, peers, timeout, d);
    RecoverCases(n.id, peers, timeout, d);
    forall i | 1 <= i < |n.log| ensures r.log[i] == n.log[i] {
      assert r.log[i] == r.log[1..][i - 1] == n.log[1..][i - 1];
    }
    ScanReads(n.log, r.log, n.baseIndex, n.commit, r.votersOld, r.votersNew, |n.log| - 1);
    ScanStarts(r.log, r.baseIndex, r.commit, r.votersOld, r.votersNew);
    RestoreIsScan(r, r.votersOld, r.votersNew, 0);
  }

  lemma ScanStarts(log: Log, base: nat, commit: nat, o: Mask, w: Mask)
    ensures Scan(log, base, commit, o, w, 0) == Some((o, w, 0))
  {}

  /** With ordinary and no-op entries recovery refuses only a commit index past the log or a voterless snapshot. */
  lemma PlainRestart(c: Claim, n: Node, peers: seq<NodeId>, timeout: nat)
    requires Sound(c, n) && !n.faulted && AllPlain(n.log)
    ensures Open(n.disk).Ok?
    ensures Recover(n.id, peers, timeout, Open(n.disk).value).faulted
       <==> n.commit > LastIndex(n) || (n.baseIndex > 0 && n.snapshot.oldVoters == 0)
  {
    hide Recover, Sound, Scan, Open, AllPlain;
    RestartRefusedIff(c, n, peers, timeout);
    var (o, w) := StartVoters(n.id, peers, n.snapshot);
    PlainScan(n.log, n.baseIndex, n.commit, o, w, |n.log| - 1);
  }

  lemma {:induction false} PlainScan(log: Log, base: nat, commit: nat, o: Mask, w: Mask, k: nat)
    requires k < |log| && AllPlain(log)
    ensures Scan(log, base, commit, o, w, k) == Some((o, w, 0))
  {
    if k > 0 {
      PlainScan(log, base, commit, o, w, k - 1);
      assert Plain(log[k]);
    }
  }
}
