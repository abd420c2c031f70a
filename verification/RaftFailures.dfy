/**
 Where the node's own rules do not reach. An entry that overwrites a conflicting one is not
 validated, so a node can log what its restart refuses, or two pending changes at once. And
 a node that has fail-stopped can still be compacted. Each consequence is a run of calls from
 a new node; the exact conditions are here, in RaftDurable and in RaftMembership.
 */
module RaftFailures {
  import opened Masks
  import opened RaftTypes
  import opened RaftDisk
  import opened RaftNode
  import opened RaftHistory
  import opened RaftFixed
  import opened RaftDurable
  import opened RaftMembership

  // ------------------------------------------------------------ one accepted entry

  /** An Append that carries `e` for index `at`, continuing what `n` has before it. */
  function Carrying(n: Node, from: NodeId, term: nat, at: nat, e: Entry, commit: nat): Message
    requires 0 < at
  {
    Append(from, n.id, term, at - 1, TermAt(n, at - 1), Some(e), commit, 0)
  }

  lemma {:induction false} RebuildFrame(n: Node, index: nat)
    ensures var r := RebuildPendingFrom(n, index);
            r == n.(peers := r.peers, next := r.next, matched := r.matched, pendingConfig := r.pendingConfig)
    decreases LastIndex(n) + 1 - index
  {
    hide EnsurePeersFrom;
    if index <= LastIndex(n) {
      var e := EntryAt(n, index);
      if e.kind == KIND_JOINT || e.kind == KIND_FINAL {
        RebuildFrame(EnsurePeers(n.(pendingConfig := index), Or(e.oldVoters, e.newVoters)), index + 1);
      } else {
        RebuildFrame(n, index + 1);
      }
    }
  }

  /** Everything but the bookkeeping of peers and of the pending change. */
  ghost predicate SameBut(n: Node, n': Node) {
    n' == n.(peers := n'.peers, next := n'.next, matched := n'.matched, pendingConfig := n'.pendingConfig,
             outbound := n'.outbound)
  }

  /** With a working store, storing `e` at `at` leaves exactly the log cut there and `e`. */
  lemma FollowerAppendStores(n: Node, at: nat, e: Entry)
    requires Sound(WHOLE, n) && !n.faulted && n.plan == [] && n.baseIndex < at <= LastIndex(n) + 1 && !Holds(n, at, e)
    ensures var (n', ok) := FollowerAppend(n, at, e);
            ok && SameBut(n.(log := n.log[..at - n.baseIndex] + [e], disk := n'.disk), n')
  {
    hide EnsurePeersFrom, RebuildPendingFrom, PromisesBacked;
    StoredTail(WHOLE, n, e, at);
    var n0 := n.(log := n.log[..at - n.baseIndex], pendingConfig := 0);
    RebuildFrame(n0, Max(n0.commit, n0.baseIndex) + 1);
    assert n.log[..|n.log|] == n.log;
  }

  /** The node that has taken over the message's term. */
  lemma ObserveTakes(n: Node, m: Message)
    requires Sound(WHOLE, n) && !n.faulted && n.plan == [] && m.Append? && m.term >= n.term
    ensures var (n1, ok) := ObserveTerm(n, m);
            ok && n1.term == m.term && Sound(WHOLE, n1) && !n1.faulted
            && n1 == n.(term := m.term, disk := n1.disk, role := n1.role, votedFor := n1.votedFor, leader := n1.leader,
                        readReady := n1.readReady)
  {
    hide PromisesBacked;
    ObserveSound(WHOLE, n, m);
  }

  /** Delivering an entry that may be stored: it is, whether it was validated or not. */
  lemma TakesEntry(n: Node, from: NodeId, term: nat, at: nat, e: Entry)
    requires Sound(WHOLE, n) && !n.faulted && term >= n.term && n.baseIndex < at <= LastIndex(n) + 1 && !Holds(n, at, e)
    requires at == LastIndex(n) + 1 ==> e.kind == KIND_NOOP && ValidNewEntry(n, e)
    ensures var n' := Perform(n, CallStep(Carrying(n, from, term, at, e, 0)), []);
            Sound(WHOLE, n') && !n'.faulted && n'.id == n.id && n'.term == term && n'.leader == from
            && n'.role == Follower
            && n'.log == n.log[..at - n.baseIndex] + [e] && n'.baseIndex == n.baseIndex
            && n'.commit == n.commit && n'.applied == n.applied
  {
    hide FollowerAppend, ObserveTerm, Sound;
    var m := Carrying(n, from, term, at, e, 0);
    var n0 := n.(plan := []);
    QuietSound(WHOLE, n, n0);
    PerformSound(WHOLE, n, CallStep(m), []);
    ObserveTakes(n0, m);
    var (n1, ok) := ObserveTerm(n0, m);
    assert !RejectsAppend(n1, m);
    var n2 := n1.(role := Follower, leader := from, elapsed := 0);
    QuietSound(WHOLE, n1, n2);
    FollowerAppendStores(n2, at, e);
  }

  // ------------------------------------------------------------ recovery after an overwrite

  /** A no-op with a command: restoreConfigurationState refuses it, validNewEntry would have too. */
  function Malformed(term: nat): Entry {
    NoopEntry(term).(command := 7)
  }

  /** After two messages the log holds an entry that its own restart refuses. */
  lemma OverwriteMakesRecoveryFail(peers: seq<NodeId>, timeout: nat)
    ensures var n0 := NewNode(1, peers, timeout, EMPTY_DISK);
            var n1 := Perform(n0, CallStep(Append(2, 1, 1, 0, 0, Some(NoopEntry(1)), 0, 0)), []);
            var n2 := Perform(n1, CallStep(Append(2, 1, 2, 0, 0, Some(Malformed(2)), 0, 0)), []);
            !n2.faulted && n2.log == [Sentinel(0), Malformed(2)] && Open(n2.disk).Ok?
            && Recover(1, peers, timeout, Open(n2.disk).value).faulted
  {
    hide Perform, Recover, NewNode;
    var n0 := NewNode(1, peers, timeout, EMPTY_DISK);
    BlankSound(WHOLE, 1, peers, timeout);
    BlankNode(1, peers, timeout);
    TakesEntry(n0, 2, 1, 1, NoopEntry(1));
    var n1 := Perform(n0, CallStep(Append(2, 1, 1, 0, 0, Some(NoopEntry(1)), 0, 0)), []);
    TakesEntry(n1, 2, 2, 1, Malformed(2));
    var n2 := Perform(n1, CallStep(Append(2, 1, 2, 0, 0, Some(Malformed(2)), 0, 0)), []);
    assert n2.log == [Sentinel(0), Malformed(2)];
    MalformedRefused(n2, peers, timeout);
  }

  lemma BlankNode(id: NodeId, peers: seq<NodeId>, timeout: nat)
    ensures var n := NewNode(id, peers, timeout, EMPTY_DISK);
            n.id == id && !n.faulted && n.term == 0 && n.log == [Sentinel(0)] && n.baseIndex == 0 && n.commit == 0
            && n.applied == 0 && n.leader == 0
  {}

  lemma MalformedRefused(n: Node, peers: seq<NodeId>, timeout: nat)
    requires Sound(WHOLE, n) && !n.faulted && n.baseIndex == 0 && n.log == [Sentinel(0), Malformed(2)]
    ensures Open(n.disk).Ok? && Recover(n.id, peers, timeout, Open(n.disk).value).faulted
  {
    hide Sound, Recover, Open;
    RestartRefusedIff(WHOLE, n, peers, timeout);
  }

  /** An accepted Append keeps a plain log plain exactly when it stores nothing or stores a plain entry. */
  lemma PlainAfterAppendIff(c: Claim, n: Node, m: Message)
    requires Sound(c, n) && !n.faulted && m.Append? && m.term <= n.term && !RejectsAppend(n, m) && AllPlain(n.log)
    requires !OnAppend(n, m).faulted
    ensures AllPlain(OnAppend(n, m).log)
       <==> m.entry.None? || Holds(n, m.logIndex + 1, m.entry.value) || Plain(m.entry.value)
  {
    hide Sound, OnAppend, Plain, Accepted;
    AcceptanceIsDurable(c, n, m);
    var log := OnAppend(n, m).log;
    if m.entry.Some? && !Holds(n, m.logIndex + 1, m.entry.value) {
      var k := m.logIndex + 1 - n.baseIndex;
      assert log[k] == m.entry.value;
      assert forall i :: 1 <= i < k ==> log[i] == n.log[i];
    }
  }

  /**
   Whether a restart after `m` was accepted is refused, read off the node before it and the
   message. An Append that stores past the end has checked its entry; one that overwrites
   has not.
   */
  ghost predicate RefusedAfter(n: Node, m: Message, peers: seq<NodeId>)
    requires m.Append? && InLog(n, m.logIndex)
  {
    var stores := m.entry.Some? && !Holds(n, m.logIndex + 1, m.entry.value);
    var (o, w) := StartVoters(n.id, peers, n.snapshot);
    var kept := if stores then m.logIndex else LastIndex(n);
    var scan := Scan(n.log, n.baseIndex, AcceptedCommit(n, m), o, w, kept - n.baseIndex);
    || n.commit > (if stores then m.logIndex + 1 else LastIndex(n))
    || (n.baseIndex > 0 && n.snapshot.oldVoters == 0)
    || scan.None?
    || (stores && !Restorable(m.entry.value, scan.value.0, scan.value.1, scan.value.2))
  }

  /** The exact condition, for every running node and every accepted Append. */
  lemma RestartAfterAppendIff(c: Claim, n: Node, m: Message, peers: seq<NodeId>, timeout: nat)
    requires Sound(c, n) && !n.faulted && m.Append? && m.term <= n.term && !RejectsAppend(n, m)
    requires !OnAppend(n, m).faulted
    ensures Open(OnAppend(n, m).disk).Ok?
    ensures Recover(n.id, peers, timeout, Open(OnAppend(n, m).disk).value).faulted <==> RefusedAfter(n, m, peers)
  {
    hide Sound, OnAppend, Recover, Accepted, Open, Restorable;
    AcceptanceIsDurable(c, n, m);
    var n' := OnAppend(n, m);
    RestartRefusedIff(c, n', peers, timeout);
    var (o, w) := StartVoters(n.id, peers, n.snapshot);
    if m.entry.Some? && !Holds(n, m.logIndex + 1, m.entry.value) {
      var k := m.logIndex - n.baseIndex;
      ScanReads(n.log, n'.log, n.baseIndex, n'.commit, o, w, k);
    }
  }

  // ------------------------------------------------------------ compacting a stopped node

  /** Storing and committing the first entry, a no-op. */
  lemma CommitsFirst(n: Node, from: NodeId, term: nat)
    requires Sound(WHOLE, n) && !n.faulted && term >= n.term && n.log == [Sentinel(0)] && n.baseIndex == n.commit == 0
    ensures var n' := Perform(n, CallStep(Carrying(n, from, term, 1, NoopEntry(term), 1)), []);
            Sound(WHOLE, n') && !n'.faulted && n'.id == n.id && n'.term == term
            && n'.log == [Sentinel(0), NoopEntry(term)]
            && n'.baseIndex == 0 && n'.commit == 1
  {
    hide FollowerAppend, ObserveTerm, Sound, FollowerCommit;
    var e := NoopEntry(term);
    var m := Carrying(n, from, term, 1, e, 1);
    var n0 := n.(plan := []);
    QuietSound(WHOLE, n, n0);
    PerformSound(WHOLE, n, CallStep(m), []);
    ObserveTakes(n0, m);
    var (n1, ok) := ObserveTerm(n0, m);
    assert !RejectsAppend(n1, m);
    var n2 := n1.(role := Follower, leader := from, elapsed := 0);
    QuietSound(WHOLE, n1, n2);
    FollowerAppendStores(n2, 1, e);
    FollowerAppendSound(WHOLE, n2, 1, e);
    var (n3, ok3) := FollowerAppend(n2, 1, e);
    assert n3.log == [Sentinel(0), e];
    CommitStores(n3, m);
  }

  lemma CommitStores(n: Node, m: Message)
    requires Sound(WHOLE, n) && !n.faulted && n.plan == [] && n.commit == n.baseIndex == 0 && LastIndex(n) == 1
    requires n.log[1].kind == KIND_NOOP && m.Append? && m.entry.Some? && m.logIndex == 0 && m.commit == 1
    ensures var (n', ok) := FollowerCommit(n, m);
            ok && n' == n.(disk := n'.disk, commit := 1, pendingConfig := n'.pendingConfig)
  {
    hide PromisesBacked;
  }

  /** A stopped node whose memory and store disagree about the term at index 1. */
  ghost function Disagreeing(timeout: nat): Node {
    var n0 := NewNode(1, [2], timeout, EMPTY_DISK);
    var n1 := Perform(n0, CallStep(Append(2, 1, 1, 0, 0, Some(NoopEntry(1)), 1, 0)), []);
    var n2 := Perform(n1, CallApply, []);
    Perform(n2, CallStep(InstallSnapshot(2, 1, 1, Snapshot(1, 9, [], 3, 0))), [Done, Kept])
  }

  lemma DisagreeingShape(timeout: nat)
    ensures var n := Disagreeing(timeout);
            Sound(WHOLE, n) && n.faulted && n.baseIndex == 0 && n.applied == 1 && LastIndex(n) == 1 && TermAt(n, 1) == 1
            && n.disk.image.lastIndex == n.disk.wal.base == n.disk.memory.last == 1 && n.disk.wal.data[0].term == 9
  {
    hide Perform, NewNode, Sound;
    var n0 := NewNode(1, [2], timeout, EMPTY_DISK);
    BlankSound(WHOLE, 1, [2], timeout);
    BlankNode(1, [2], timeout);
    CommitsFirst(n0, 2, 1);
    var n1 := Perform(n0, CallStep(Append(2, 1, 1, 0, 0, Some(NoopEntry(1)), 1, 0)), []);
    AppliesAll(n1);
    var n2 := Perform(n1, CallApply, []);
    KeepsConflict(n2, 2, Snapshot(1, 9, [], 3, 0));
  }

  lemma AppliesAll(n: Node)
    requires Sound(WHOLE, n) && !n.faulted
    ensures var n' := Perform(n, CallApply, []);
            Sound(WHOLE, n') && n' == n.(applied := n.commit, plan := [])
  {
    hide Sound;
    PerformSound(WHOLE, n, CallApply, []);
    Unfold(WHOLE, n);
  }

  /** Installing a conflicting snapshot whose fence reaches the medium but is reported as failed. */
  lemma KeepsConflict(n: Node, from: NodeId, snap: Snapshot)
    requires Sound(WHOLE, n) && !n.faulted && n.baseIndex == 0 < snap.lastIndex
    requires InLog(n, snap.lastIndex) && TermAt(n, snap.lastIndex) != snap.lastTerm && snap.oldVoters != 0
    ensures var n' := Perform(n, CallStep(InstallSnapshot(from, n.id, n.term, snap)), [Done, Kept]);
            Sound(WHOLE, n') && n'.faulted && n'.log == n.log && n'.baseIndex == 0 && n'.applied == n.applied
            && n'.disk.image == snap && n'.disk.wal.base == n'.disk.memory.last == snap.lastIndex
            && n'.disk.wal.data[0].term == snap.lastTerm
  {
    hide PromisesBacked;
    var m := InstallSnapshot(from, n.id, n.term, snap);
    PerformSound(WHOLE, n, CallStep(m), [Done, Kept]);
    TermsAgree(WHOLE, n, snap.lastIndex);
  }

  /**
   The failing runs: compacting that node leaves a snapshot and a WAL base of different terms,
   whether or not the fence succeeds, and opening the store does not repair it.
   */
  lemma FaultedCompactTearsTheBase(timeout: nat, plan: seq<Outcome>)
    requires OutcomeAt(plan, 0) != Lost
    ensures var n := Disagreeing(timeout);
            var n' := Perform(n, CallCompact(1, []), plan);
            Sound(WHOLE, n) && Tears(n, CallCompact(1, []), plan) && !Sound(WHOLE, n')
            && n'.disk.image.lastIndex == n'.disk.wal.base == 1 && n'.disk.image.lastTerm == 1
            && n'.disk.wal.data[0].term == 9
            && Open(n'.disk).Ok? && Open(n'.disk).value.wal == n'.disk.wal
  {
    hide Perform, Disagreeing, Sound, CompactedDisk;
    DisagreeingShape(timeout);
    var n := Disagreeing(timeout);
    PerformSoundIff(WHOLE, n, CallCompact(1, []), plan);
    PerformCompact(n, CallCompact(1, []), plan);
    var n0 := n.(plan := plan);
    CompactWrites(n0, 1, []);
    SoundMemory(n);
    ResavedMedium(n0, Snapshot(1, 1, [], n.votersOld, n.votersNew), plan);
  }

  lemma SoundMemory(n: Node)
    requires Sound(WHOLE, n)
    ensures Remembered(n) && n.disk.readable
  {}

  // ------------------------------------------------------------ a stored commit index that drops

  /** A stopped node whose snapshot file is ahead of everything it remembers. */
  ghost function Ahead(timeout: nat): Node {
    var n0 := NewNode(1, [2], timeout, EMPTY_DISK);
    var n1 := Perform(n0, CallStep(Append(2, 1, 1, 0, 0, Some(NoopEntry(1)), 1, 0)), []);
    var n2 := Perform(n1, CallApply, []);
    Perform(n2, CallStep(InstallSnapshot(2, 1, 1, Snapshot(5, 9, [], 3, 0))), [Kept])
  }

  lemma AheadShape(timeout: nat)
    ensures var n := Ahead(timeout);
            Sound(WHOLE, n) && n.faulted && n.baseIndex == 0 && n.applied == 1 && LastIndex(n) == 1 && TermAt(n, 1) == 1
            && n.disk.image.lastIndex == 5 && n.disk.wal.hard.commit == 1 && n.disk.memory.last == 0
            && WalLast(n.disk.wal) == 1
  {
    hide Perform, NewNode, Sound;
    var n0 := NewNode(1, [2], timeout, EMPTY_DISK);
    BlankSound(WHOLE, 1, [2], timeout);
    BlankNode(1, [2], timeout);
    CommitsFirst(n0, 2, 1);
    var n1 := Perform(n0, CallStep(Append(2, 1, 1, 0, 0, Some(NoopEntry(1)), 1, 0)), []);
    AppliesAll(n1);
    var n2 := Perform(n1, CallApply, []);
    KeepsImage(n2, 2, Snapshot(5, 9, [], 3, 0));
  }

  /** Installing a snapshot whose file was replaced, with the save reported as failed. */
  lemma KeepsImage(n: Node, from: NodeId, snap: Snapshot)
    requires Sound(WHOLE, n) && !n.faulted && n.baseIndex == 0 < snap.lastIndex && snap.oldVoters != 0
    ensures var n' := Perform(n, CallStep(InstallSnapshot(from, n.id, n.term, snap)), [Kept]);
            Sound(WHOLE, n') && n'.faulted && n'.log == n.log && n'.baseIndex == 0 && n'.applied == n.applied
            && n'.disk.image == snap && n'.disk.wal.hard.commit == n.commit && n'.disk.memory.last == 0
            && WalLast(n'.disk.wal) == LastIndex(n)
  {
    hide PromisesBacked;
    PerformSound(WHOLE, n, CallStep(InstallSnapshot(from, n.id, n.term, snap)), [Kept]);
  }

  /** Its store cannot be opened again. */
  lemma TornInstallIsRefused(timeout: nat)
    ensures Open(Ahead(timeout).disk).Err?
  {
    hide Ahead, Sound;
    AheadShape(timeout);
  }

  /** The failing run: compacting that node takes the stored commit index from 5 down to 1. */
  lemma FaultedCompactLowersTheCommit(timeout: nat, plan: seq<Outcome>)
    requires OutcomeAt(plan, 0) != Lost
    ensures var n := Ahead(timeout);
            var n' := Perform(n, CallCompact(1, []), plan);
            Lowers(n, CallCompact(1, []), plan) && StoredCommit(n.disk) == 5 && StoredCommit(n'.disk) == 1
  {
    hide Perform, Ahead, Sound, CompactedDisk, Logged;
    AheadShape(timeout);
    var n := Ahead(timeout);
    PerformCompact(n, CallCompact(1, []), plan);
    var n0 := n.(plan := plan);
    CompactWrites(n0, 1, []);
    SoundMemory(n);
    ResavedMedium(n0, Snapshot(1, 1, [], n.votersOld, n.votersNew), plan);
    LoggedHard(n.disk, 1);
  }

  // ------------------------------------------------------------ two pending changes

  function JointEntry(term: nat, oldVoters: Mask, newVoters: Mask): Entry {
    Entry(term, 0, KIND_JOINT, oldVoters, newVoters, OP_LEGACY, 0, 0, 0, 0)
  }

  /** Node 3 after two overwrites: a change among 1 and 2, then a change to 3 alone, both pending. */
  ghost function TwoPending(timeout: nat): Node {
    var n0 := NewNode(3, [1], timeout, EMPTY_DISK);
    var n1 := Perform(n0, CallStep(Append(1, 3, 1, 0, 0, Some(NoopEntry(1)), 0, 0)), []);
    var e1 := JointEntry(2, NodeBit(1), NodeBit(2));
    var n2 := Perform(n1, CallStep(Append(2, 3, 2, 0, 0, Some(e1), 0, 0)), []);
    var n3 := Perform(n2, CallStep(Append(2, 3, 2, 1, 2, Some(NoopEntry(2)), 0, 0)), []);
    var e2 := JointEntry(3, NodeBit(3), NodeBit(3));
    Perform(n3, CallStep(Append(1, 3, 3, 1, 2, Some(e2), 0, 0)), [])
  }

  lemma TwoPendingShape(timeout: nat)
    ensures var n := TwoPending(timeout);
            Sound(WHOLE, n) && !n.faulted && n.id == 3 && n.term == 3 && n.leader == 1 && n.role == Follower
            && n.baseIndex == n.commit == 0
            && n.log == [Sentinel(0), JointEntry(2, NodeBit(1), NodeBit(2)), JointEntry(3, NodeBit(3), NodeBit(3))]
  {
    hide Perform, NewNode, Sound, NodeBit;
    var n0 := NewNode(3, [1], timeout, EMPTY_DISK);
    BlankSound(WHOLE, 3, [1], timeout);
    BlankNode(3, [1], timeout);
    TakesEntry(n0, 1, 1, 1, NoopEntry(1));
    var n1 := Perform(n0, CallStep(Append(1, 3, 1, 0, 0, Some(NoopEntry(1)), 0, 0)), []);
    assert n1.log == [Sentinel(0), NoopEntry(1)];
    var e1 := JointEntry(2, NodeBit(1), NodeBit(2));
    TakesEntry(n1, 2, 2, 1, e1);
    var n2 := Perform(n1, CallStep(Append(2, 3, 2, 0, 0, Some(e1), 0, 0)), []);
    assert n2.log == [Sentinel(0), e1];
    TakesEntry(n2, 2, 2, 2, NoopEntry(2));
    var n3 := Perform(n2, CallStep(Append(2, 3, 2, 1, 2, Some(NoopEntry(2)), 0, 0)), []);
    assert n3.log == [Sentinel(0), e1, NoopEntry(2)];
    var e2 := JointEntry(3, NodeBit(3), NodeBit(3));
    TakesEntry(n3, 1, 3, 2, e2);
    var n4 := Perform(n3, CallStep(Append(1, 3, 3, 1, 2, Some(e2), 0, 0)), []);
    assert n4.log == [Sentinel(0), e1, e2];
  }

  /** When the last pending change names the node alone, the node is a quorum. */
  lemma AloneIsQuorum(n: Node)
    requires n.id == 3 && n.baseIndex == n.commit == 0 && 2 <= LastIndex(n)
    requires EntryAt(n, 2) == JointEntry(3, NodeBit(3), NodeBit(3))
             && forall i :: 2 < i <= LastIndex(n) ==> !IsJoint(n, i)
    ensures Quorum(n, NodeBit(3))
  {
    hide NodeBit, Ids;
    VotersOfLastJoint(n, 1, LastIndex(n), 2);
    SingleBit(3);
    assert {3} * {3} == {3};
  }

  lemma {:induction false} SendingKeepsNode(n: Node, k: nat, message: NodeId -> Message)
    ensures var r := SendToPeers(n, k, message);
            r == n.(outbound := r.outbound)
    decreases |n.peers| - k
  {
    if k < |n.peers| { SendingKeepsNode(Send(n, message(n.peers[k])), k + 1, message); }
  }

  /** A new leader that is a quorum commits its own no-op at once. */
  lemma LeaderCommitsAlone(n: Node)
    requires Sound(WHOLE, n) && !n.faulted && n.plan == [] && n.id == 3 && n.baseIndex == n.commit == 0
             && LastIndex(n) == 2
    requires EntryAt(n, 2) == JointEntry(3, NodeBit(3), NodeBit(3))
    ensures var n' := BecomeLeader(n);
            !n'.faulted && n'.commit == 3
  {
    hide Quorum, ApplyConfigurations, BroadcastFrom, PromisesBacked, NodeBit;
    var e := NoopEntry(n.term);
    var n1 := n.(role := Leader, leader := n.id, elapsed := 0);
    StoredTail(WHOLE, n1, e, 3);
    var n2 := n1.(log := n1.log + [e], disk := AppendEntry(n1.disk, 3, e).value);
    AloneIsQuorum(n2);
    var hard := HardState(n2.term, n2.votedFor, 3);
    var n3 := n2.(disk := SaveHard(n2.disk, hard).value, commit := 3);
    ApplyingKeeps(n3, 1, 3);
    var n4 := ApplyCommitted(n3, 0);
    var n5 := n4.(next := Reset(n4.next, n4.peers, LastIndex(n4) + 1), matched := Reset(n4.matched, n4.peers, 0));
    BroadcastKeeps(n5, 0);
  }

  lemma ElectsItself(n: Node)
    requires Sound(WHOLE, n) && !n.faulted && n.plan == [] && n.id == 3 && n.baseIndex == n.commit == 0
             && LastIndex(n) == 2
    requires EntryAt(n, 2) == JointEntry(3, NodeBit(3), NodeBit(3))
    ensures var n' := StartElection(n);
            !n'.faulted && n'.commit == 3
  {
    hide Quorum, BecomeLeader, PromisesBacked, NodeBit;
    var hard := HardState(n.term + 1, n.id, n.commit);
    PersistSound(WHOLE, n, hard);
    var n1 := PersistHard(n, hard).0;
    var a := n1.(term := hard.term, votedFor := hard.votedFor, commit := hard.commit);
    var n2 := n1.(role := Candidate, term := n.term + 1, votedFor := n.id, elapsed := 0,
                  voteMask := NodeBit(n.id), preVoteMask := 0);
    QuietSound(WHOLE, a, n2);
    var last := LastIndex(n2);
    var message := (p: NodeId) => RequestVote(n2.id, p, n2.term, last, TermAt(n2, last));
    SendToPeersSound(WHOLE, n2, 0, message);
    SendingKeepsNode(n2, 0, message);
    var n3 := SendToPeers(n2, 0, message);
    AloneIsQuorum(n3);
    LeaderCommitsAlone(n3);
  }

  /**
   So with two changes pending the rule fails: told to stand for election, node 3 alone
   commits past a change among 1 and 2, of which it is not a member.
   */
  lemma TwoPendingChangesBreakTheRule(timeout: nat)
    ensures var n := TwoPending(timeout);
            var n' := Perform(n, CallStep(TimeoutNow(1, 3, 3)), []);
            n.commit == 0 && IsJoint(n, 1) && IsJoint(n, 2)
            && !n'.faulted && n'.commit == 3 && !BothMajorities(EntryAt(n, 1), {3})
  {
    hide TwoPending, StartElection, Sound, NodeBit;
    TwoPendingShape(timeout);
    var n := TwoPending(timeout);
    QuietSound(WHOLE, n, n.(plan := []));
    ElectsItself(n.(plan := []));
    SingleBit(1);
    assert {1} * {3} == {};
  }
}
