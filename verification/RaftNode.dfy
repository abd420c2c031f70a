/**
 One Raft node as a value: raft/node.go and raft/recover.go written as functions from the
 state before a call to the state after it. The imperative form in RaftNodeClass is proved
 equal to these functions.

 Storage failures are part of the model. Each write consumes one outcome of the node's
 `plan`: it may succeed, fail without effect, or reach the medium and still be reported as
 failed, which is also what a crash just after the write looks like.
 */
module RaftNode {
  import opened Masks
  import opened RaftTypes
  import opened RaftDisk

  datatype Role = Follower | Candidate | Leader

  /** A queued message together with the durable state at the moment it was queued. */
  datatype Queued = Queued(msg: Message, durable: Disk)

  datatype Node = Node(
    id: NodeId,
    peers: seq<NodeId>,
    role: Role,
    term: nat,
    votedFor: nat,
    leader: nat,
    log: Log,
    baseIndex: nat,
    baseTerm: nat,
    commit: nat,
    applied: nat,
    timeout: nat,
    elapsed: nat,
    voteMask: Mask,
    preVoteMask: Mask,
    preVoteTerm: nat,
    next: map<nat, nat>,
    matched: map<nat, nat>,
    outbound: seq<Queued>,
    disk: Disk,
    plan: seq<Outcome>,
    faulted: bool,
    readContext: nat,
    readAckMask: Mask,
    readIndex: nat,
    readReady: bool,
    snapshot: Snapshot,
    votersOld: Mask,
    votersNew: Mask,
    pendingConfig: nat)

  /** A Go map read: absent keys read as zero. */
  function At(m: map<nat, nat>, k: nat): nat {
    if k in m then m[k] else 0
  }

  // ------------------------------------------------------------ construction

  /** The mask that holds exactly `ids`. */
  ghost function MaskOf(ids: seq<NodeId>): Mask {
    assert exists m: Mask :: Ids(m) == Elements(ids) by { var m := MaskExists(ids); }
    var m: Mask :| Ids(m) == Elements(ids);
    m
  }

  /** NewNodeWithStore for distinct peers other than `id`, which the source demands. */
  ghost function NewNode(id: NodeId, peers: seq<NodeId>, timeout: nat, disk: Disk): Node {
    Node(id, peers, Follower, 0, 0, 0, [Sentinel(0)], 0, 0, 0, 0, timeout, 0, 0, 0, 0,
         map[], map[], [], disk, [], false, 0, 0, 0, false, NO_SNAPSHOT,
         MaskOf([id] + peers), 0, 0)
  }

  // ------------------------------------------------------------ log queries

  function LastIndex(n: Node): nat {
    n.baseIndex + |n.log| - 1
  }

  predicate InLog(n: Node, index: nat) {
    n.baseIndex <= index <= LastIndex(n)
  }

  /** The source panics outside the log; here such a lookup reads the empty entry. */
  function EntryAt(n: Node, index: nat): Entry {
    if InLog(n, index) then n.log[index - n.baseIndex] else Sentinel(0)
  }

  function TermAt(n: Node, index: nat): nat {
    EntryAt(n, index).term
  }

  // ------------------------------------------------------------ voters

  /** The voters in force: the last joint entry in `first..upto`, else the given masks. */
  function VotersUpTo(n: Node, first: nat, upto: nat): (Mask, Mask) {
    if upto < first then (n.votersOld, n.votersNew)
    else
      var e := EntryAt(n, upto);
      if e.kind == KIND_JOINT then (e.oldVoters, e.newVoters)
      else if upto == 0 then (n.votersOld, n.votersNew)
      else VotersUpTo(n, first, upto - 1)
  }

  function EffectiveVoters(n: Node): (Mask, Mask) {
    VotersUpTo(n, Max(n.commit, n.baseIndex) + 1, LastIndex(n))
  }

  predicate Quorum(n: Node, mask: Mask) {
    var (o, w) := EffectiveVoters(n);
    JointQuorum(o, w, Ids(mask))
  }

  predicate IsVoter(n: Node, id: nat) {
    var (o, w) := EffectiveVoters(n);
    id in Ids(o) || id in Ids(w)
  }

  predicate CanCommit(n: Node, index: nat, acked: Mask) {
    var (o, w) := VotersUpTo(n, n.commit + 1, index);
    JointQuorum(o, w, Ids(acked))
  }

  /** ensurePeers for the ids `id..64` of the mask. */
  function EnsurePeersFrom(n: Node, mask: Mask, id: nat): (r: Node)
    ensures r == n.(peers := r.peers, next := r.next, matched := r.matched)
    decreases 65 - id
  {
    if id == 0 || id > 64 then n
    else if id == n.id || id !in Ids(mask) || id in n.peers then EnsurePeersFrom(n, mask, id + 1)
    else EnsurePeersFrom(
        n.(peers := n.peers + [id], next := n.next[id := LastIndex(n) + 1], matched := n.matched[id := 0]),
        mask, id + 1)
  }

  function EnsurePeers(n: Node, mask: Mask): (r: Node)
    ensures r == n.(peers := r.peers, next := r.next, matched := r.matched)
  {
    EnsurePeersFrom(n, mask, 1)
  }

  function ApplyConfiguration(n: Node, index: nat): Node {
    var e := EntryAt(n, index);
    var n1 :=
      if e.kind == KIND_JOINT then
        EnsurePeers(n.(votersOld := e.oldVoters, votersNew := e.newVoters), Or(e.oldVoters, e.newVoters))
      else if e.kind == KIND_FINAL then
        var n0 := n.(votersOld := e.oldVoters, votersNew := 0);
        if IsVoter(n0, n0.id) then n0 else n0.(role := Follower, leader := 0, readReady := false)
      else n;
    if index == n1.pendingConfig then n1.(pendingConfig := 0) else n1
  }

  function ApplyConfigurations(n: Node, first: nat, last: nat): Node
    decreases last + 1 - first
  {
    if first > last then n else ApplyConfigurations(ApplyConfiguration(n, first), first + 1, last)
  }

  /** applyCommittedConfigurations after the commit index moved from `previous`. */
  function ApplyCommitted(n: Node, previous: nat): Node {
    ApplyConfigurations(n, Max(previous, n.baseIndex) + 1, n.commit)
  }

  function RebuildPendingFrom(n: Node, index: nat): Node
    decreases LastIndex(n) + 1 - index
  {
    if index > LastIndex(n) then n
    else
      var e := EntryAt(n, index);
      if e.kind == KIND_JOINT || e.kind == KIND_FINAL then
        RebuildPendingFrom(EnsurePeers(n.(pendingConfig := index), Or(e.oldVoters, e.newVoters)), index + 1)
      else RebuildPendingFrom(n, index + 1)
  }

  function RebuildPending(n: Node): Node {
    RebuildPendingFrom(n.(pendingConfig := 0), Max(n.commit, n.baseIndex) + 1)
  }

  // ------------------------------------------------------------ storage and sending

  /** Fail-stop: nothing that was queued may leave the node. */
  function FailStorage(n: Node): Node {
    n.(faulted := true, role := Follower, leader := 0, outbound := [])
  }

  /** One durable write whose success would give `attempt`. */
  function Write(n: Node, attempt: Result<Disk>): (Node, bool) {
    var (d, ok) := Written(n.disk, attempt, if n.plan == [] then Done else n.plan[0]);
    var n1 := n.(disk := d, plan := if n.plan == [] then [] else n.plan[1..]);
    (if ok then n1 else FailStorage(n1), ok)
  }

  /** A write that succeeds changes the store and nothing else. */
  lemma WriteFrame(n: Node, attempt: Result<Disk>)
    ensures var (r, ok) := Write(n, attempt);
            ok ==> attempt.Ok? && r == n.(disk := attempt.value, plan := r.plan)
  {
  }

  function PersistHard(n: Node, h: HardState): (Node, bool) {
    Write(n, SaveHard(n.disk, h))
  }

  function Send(n: Node, m: Message): Node {
    n.(outbound := n.outbound + [Queued(m, n.disk)])
  }

  /** One message to each peer from position `k` on. */
  function SendToPeers(n: Node, k: nat, message: NodeId -> Message): Node
    decreases |n.peers| - k
  {
    if k >= |n.peers| then n else SendToPeers(Send(n, message(n.peers[k])), k + 1, message)
  }

  // ------------------------------------------------------------ elections

  function StartPreVote(n: Node): Node {
    var n1 := n.(elapsed := 0, preVoteTerm := n.term + 1, leader := 0, preVoteMask := NodeBit(n.id));
    var last := LastIndex(n1);
    var n2 := SendToPeers(n1, 0, (p: NodeId) => PreVote(n1.id, p, n1.preVoteTerm, last, TermAt(n1, last)));
    if Quorum(n2, n2.preVoteMask) then StartElection(n2) else n2
  }

  function StartElection(n: Node): Node {
    var (n1, ok) := PersistHard(n, HardState(n.term + 1, n.id, n.commit));
    if !ok then n1
    else
      var n2 := n1.(role := Candidate, term := n.term + 1, votedFor := n.id, elapsed := 0,
                    voteMask := NodeBit(n.id), preVoteMask := 0);
      var last := LastIndex(n2);
      var n3 := SendToPeers(n2, 0, (p: NodeId) => RequestVote(n2.id, p, n2.term, last, TermAt(n2, last)));
      if Quorum(n3, n3.voteMask) then BecomeLeader(n3) else n3
  }

  function OnPreVote(n: Node, m: Message): Node
    requires m.PreVote?
  {
    var leaderActive := n.leader != 0 && n.elapsed < n.timeout;
    var grant := IsVoter(n, m.from) && m.term >= n.term + 1 && UpToDate(n, m.logIndex, m.logTerm) && !leaderActive;
    Send(n, PreVoteResponse(n.id, m.from, m.term, !grant))
  }

  predicate UpToDate(n: Node, logIndex: nat, logTerm: nat) {
    var last := LastIndex(n);
    logTerm > TermAt(n, last) || (logTerm == TermAt(n, last) && logIndex >= last)
  }

  function OnPreVoteResponse(n: Node, m: Message): Node
    requires m.PreVoteResponse?
  {
    if n.role != Leader && IsVoter(n, m.from) && m.term == n.term + 1 && m.term == n.preVoteTerm && !m.reject then
      var n1 := n.(preVoteMask := Or(n.preVoteMask, NodeBit(m.from)));
      if Quorum(n1, n1.preVoteMask) then StartElection(n1) else n1
    else n
  }

  function OnVote(n: Node, m: Message): Node
    requires m.RequestVote?
  {
    var grant := IsVoter(n, m.from) && m.term == n.term && (n.votedFor == 0 || n.votedFor == m.from)
                 && UpToDate(n, m.logIndex, m.logTerm);
    if grant then
      var (n1, ok) := PersistHard(n, HardState(n.term, m.from, n.commit));
      if !ok then n1
      else
        var n2 := n1.(votedFor := m.from, elapsed := 0);
        Send(n2, RequestVoteResponse(n2.id, m.from, n2.term, false))
    else Send(n, RequestVoteResponse(n.id, m.from, n.term, true))
  }

  function OnVoteResponse(n: Node, m: Message): Node
    requires m.RequestVoteResponse?
  {
    if n.role == Candidate && IsVoter(n, m.from) && m.term == n.term && !m.reject then
      var n1 := n.(voteMask := Or(n.voteMask, NodeBit(m.from)));
      if Quorum(n1, n1.voteMask) then BecomeLeader(n1) else n1
    else n
  }

  function BecomeLeader(n: Node): Node {
    var (n1, ok) := AppendLocal(n.(role := Leader, leader := n.id, elapsed := 0), NoopEntry(n.term));
    if !ok then n1
    else
      var last := LastIndex(n1) + 1;
      Broadcast(n1.(next := Reset(n1.next, n1.peers, last), matched := Reset(n1.matched, n1.peers, 0)))
  }

  /** `m` with the value `v` for every one of `ids`. */
  function Reset(m: map<nat, nat>, ids: seq<NodeId>, v: nat): (r: map<nat, nat>)
    ensures forall p: nat :: At(r, p) == if p in ids then v else At(m, p)
  {
    if ids == [] then m
    else
      assert ids == ids[..|ids| - 1] + [ids[|ids| - 1]];
      Reset(m, ids[..|ids| - 1], v)[ids[|ids| - 1] := v]
  }

  // ------------------------------------------------------------ replication

  function AppendLocal(n: Node, e: Entry): (Node, bool) {
    var (n1, ok) := Write(n, AppendEntry(n.disk, LastIndex(n) + 1, e));
    if !ok then (n1, false)
    else
      var n2 := n1.(log := n1.log + [e]);
      if Quorum(n2, NodeBit(n2.id)) then
        var (n3, ok3) := PersistHard(n2, HardState(n2.term, n2.votedFor, LastIndex(n2)));
        if !ok3 then (n3, false)
        else (ApplyCommitted(n3.(commit := LastIndex(n2)), n.commit), true)
      else (n2, true)
  }

  function AppendToContext(n: Node, p: NodeId, context: nat): Node {
    if At(n.next, p) <= n.baseIndex then Send(n, InstallSnapshot(n.id, p, n.term, n.snapshot))
    else
      var clipped := At(n.next, p) > LastIndex(n) + 1;
      var next := if clipped then LastIndex(n) + 1 else At(n.next, p);
      var n1 := if clipped then n.(next := n.next[p := next]) else n;
      Send(n1, Append(n1.id, p, n1.term, next - 1, TermAt(n1, next - 1),
                      if next < LastIndex(n1) + 1 then Some(EntryAt(n1, next)) else None,
                      n1.commit, context))
  }

  function AppendTo(n: Node, p: NodeId): Node {
    AppendToContext(n, p, 0)
  }

  function BroadcastFrom(n: Node, k: nat): Node
    decreases |n.peers| - k
  {
    if k >= |n.peers| then n
    else BroadcastFrom(if IsVoter(n, n.peers[k]) then AppendTo(n, n.peers[k]) else n, k + 1)
  }

  function Broadcast(n: Node): Node {
    BroadcastFrom(n, 0)
  }

  predicate ValidNewEntry(n: Node, e: Entry) {
    if e.kind == KIND_NORMAL then
      e.oldVoters == 0 && e.newVoters == 0
      && (e.operation == OP_LEGACY
          || ((e.operation == OP_PUT || e.operation == OP_DELETE) && e.clientId != 0 && e.requestId != 0))
    else if e.kind == KIND_NOOP then
      e.command == 0 && e.oldVoters == 0 && e.newVoters == 0 && e.operation == OP_LEGACY
    else if e.kind == KIND_JOINT then
      n.pendingConfig == 0 && n.votersNew == 0 && e.oldVoters == n.votersOld && e.oldVoters != 0 && e.newVoters != 0
    else if e.kind == KIND_FINAL then
      n.pendingConfig == 0 && n.votersNew != 0 && e.oldVoters == n.votersNew && e.newVoters == 0
    else false
  }

  predicate RejectsAppend(n: Node, m: Message)
    requires m.Append?
  {
    m.term < n.term || !InLog(n, m.logIndex) || TermAt(n, m.logIndex) != m.logTerm
    || (m.entry.Some? && m.logIndex == LastIndex(n) && !ValidNewEntry(n, m.entry.value))
  }

  /** The index a follower acknowledges when it accepts `m`. */
  function MatchOf(m: Message): nat
    requires m.Append?
  {
    if m.entry.Some? then m.logIndex + 1 else m.logIndex
  }

  /** A conflicting entry at `at` takes its whole suffix with it, then `e` is stored. */
  function FollowerAppend(n: Node, at: nat, e: Entry): (Node, bool)
    requires n.baseIndex < at
  {
    var n1 := if InLog(n, at) && TermAt(n, at) != e.term
              then RebuildPending(n.(log := n.log[..at - n.baseIndex])) else n;
    if at == LastIndex(n1) + 1 then
      var (n2, ok) := Write(n1, AppendEntry(n1.disk, at, e));
      if !ok then (n2, false)
      else
        var n3 := n2.(log := n2.log + [e]);
        if e.kind == KIND_JOINT || e.kind == KIND_FINAL
        then (EnsurePeers(n3.(pendingConfig := at), Or(e.oldVoters, e.newVoters)), true)
        else (n3, true)
    else (n1, true)
  }

  function FollowerCommit(n: Node, m: Message): (Node, bool)
    requires m.Append?
  {
    if m.commit > n.commit && MatchOf(m) > n.commit then
      var target := Min(m.commit, MatchOf(m));
      var (n1, ok) := PersistHard(n, HardState(n.term, n.votedFor, target));
      if !ok then (n1, false)
      else (ApplyCommitted(n1.(commit := target), n.commit), true)
    else (n, true)
  }

  function OnAppend(n: Node, m: Message): Node
    requires m.Append?
  {
    if RejectsAppend(n, m) then
      Send(n, AppendResponse(n.id, m.from, n.term, true, LastIndex(n), m.context))
    else
      var n1 := n.(role := Follower, leader := m.from, elapsed := 0);
      var (n2, ok2) := if m.entry.Some? then FollowerAppend(n1, m.logIndex + 1, m.entry.value) else (n1, true);
      if !ok2 then n2
      else
        var (n3, ok3) := FollowerCommit(n2, m);
        if !ok3 then n3
        else Send(n3, AppendResponse(n3.id, m.from, n3.term, false, MatchOf(m), m.context))
  }

  /** The acknowledgements a leader counts for `index`: itself and the peers that matched it. */
  function Acked(n: Node, index: nat): Mask {
    AckedFrom(n, index, |n.peers|)
  }

  function AckedFrom(n: Node, index: nat, k: nat): Mask
    requires k <= |n.peers|
  {
    if k == 0 then NodeBit(n.id)
    else
      var m := AckedFrom(n, index, k - 1);
      if At(n.matched, n.peers[k - 1]) >= index then Or(m, NodeBit(n.peers[k - 1])) else m
  }

  predicate Committable(n: Node, index: nat) {
    TermAt(n, index) == n.term && CanCommit(n, index, Acked(n, index))
  }

  /** The highest committable index at or below `index`, or the current commit index. */
  function HighestCommittable(n: Node, index: nat): (r: nat)
    ensures r == n.commit || (n.commit < r <= index && Committable(n, r))
    ensures forall i :: r < i <= index ==> !Committable(n, i)
  {
    if index <= n.commit then n.commit
    else if Committable(n, index) then index
    else HighestCommittable(n, index - 1)
  }

  function LeaderCommit(n: Node): (Node, bool) {
    var target := HighestCommittable(n, LastIndex(n));
    if target == n.commit then (n, true)
    else
      var (n1, ok) := PersistHard(n, HardState(n.term, n.votedFor, target));
      if !ok then (n1, false)
      else
        var n2 := ApplyCommitted(n1.(commit := target), n.commit);
        (if n2.role == Leader then Broadcast(n2) else n2, true)
  }

  function RecordReadAck(n: Node, m: Message): Node
    requires m.AppendResponse?
  {
    if n.role == Leader && m.term == n.term && !m.reject && m.context != 0 && m.context == n.readContext
       && IsVoter(n, m.from) then
      var n1 := n.(readAckMask := Or(n.readAckMask, NodeBit(m.from)));
      if Quorum(n1, n1.readAckMask) then n1.(readIndex := n1.commit, readReady := true) else n1
    else n
  }

  function OnAppendResponse(n: Node, m: Message): Node
    requires m.AppendResponse?
  {
    var n1 := RecordReadAck(n, m);
    if n1.role != Leader || m.term != n1.term || m.matched >= LastIndex(n1) + 1 then n1
    else if m.reject then
      var next := At(n1.next, m.from);
      AppendTo(if next > 1 then n1.(next := n1.next[m.from := next - 1]) else n1, m.from)
    else
      var n2 := n1.(matched := n1.matched[m.from := m.matched], next := n1.next[m.from := m.matched + 1]);
      var (n3, ok) := LeaderCommit(n2);
      if !ok || n3.role != Leader then n3
      else if At(n3.next, m.from) < LastIndex(n3) + 1 then AppendTo(n3, m.from)
      else n3
  }

  // ------------------------------------------------------------ proposals and reads

  function ProposeEntry(n: Node, e: Entry): Node {
    var (n1, ok) := AppendLocal(n, e);
    if ok then Broadcast(n1) else n1
  }

  function Propose(n: Node, command: nat): Node {
    if n.role != Leader || n.faulted then n
    else ProposeEntry(n, Sentinel(n.term).(command := command))
  }

  function ProposeRequest(n: Node, operation: nat, clientId: nat, requestId: nat, key: nat, value: nat): Node {
    if n.role != Leader || n.faulted || clientId == 0 || requestId == 0
       || (operation != OP_PUT && operation != OP_DELETE) then n
    else ProposeEntry(n, Entry(n.term, 0, KIND_NORMAL, 0, 0, operation, clientId, requestId, key, value))
  }

  function ProposeJoint(n: Node, newVoters: Mask): Node {
    if newVoters == 0 || n.role != Leader || n.faulted || n.votersNew != 0 || n.pendingConfig != 0 then n
    else
      var n1 := EnsurePeers(n, newVoters);
      var e := Entry(n1.term, 0, KIND_JOINT, n1.votersOld, newVoters, OP_LEGACY, 0, 0, 0, 0);
      var (n2, ok) := AppendLocal(n1, e);
      if !ok then n2 else Broadcast(n2.(pendingConfig := LastIndex(n2)))
  }

  function ProposeFinal(n: Node): Node {
    if n.role != Leader || n.faulted || n.votersNew == 0 || n.pendingConfig != 0 then n
    else
      var e := Entry(n.term, 0, KIND_FINAL, n.votersNew, 0, OP_LEGACY, 0, 0, 0, 0);
      var (n2, ok) := AppendLocal(n, e);
      if !ok then n2 else Broadcast(n2.(pendingConfig := LastIndex(n2)))
  }

  predicate MayStartRead(n: Node, context: nat) {
    n.role == Leader && !n.faulted && context != 0 && n.commit != 0
    && (TermAt(n, n.commit) == n.term || Quorum(n, NodeBit(n.id)))
  }

  function SendReadContext(n: Node, k: nat, context: nat): Node
    decreases |n.peers| - k
  {
    if k >= |n.peers| then n
    else
      var n1 := AppendToContext(n, n.peers[k], context);
      SendReadContext(n1, k + 1, context)
  }

  function StartReadIndex(n: Node, context: nat): Node {
    if !MayStartRead(n, context) then n
    else
      var ready := Quorum(n, NodeBit(n.id));
      var n1 := n.(readContext := context, readAckMask := NodeBit(n.id), readReady := ready,
                   readIndex := if ready then n.commit else n.readIndex);
      SendReadContext(n1, 0, context)
  }

  /** The barrier's answer, once a quorum confirmed it. */
  function ReadIndex(n: Node, context: nat): Option<nat> {
    if n.role != Leader || context != n.readContext || !n.readReady then None else Some(n.readIndex)
  }

  function TransferLeadership(n: Node, target: NodeId): Node {
    if n.role != Leader || target == n.id || !IsVoter(n, target) then n
    else if At(n.matched, target) < LastIndex(n) then AppendTo(n, target)
    else Send(n, TimeoutNow(n.id, target, n.term))
  }

  function ApplyEntries(n: Node): Node {
    n.(applied := Max(n.applied, n.commit))
  }

  function Drain(n: Node): Node {
    n.(outbound := [])
  }

  // ------------------------------------------------------------ snapshots

  function Compact(n: Node, index: nat, state: seq<Bytes.byte>): Node {
    if index <= n.baseIndex || index > n.applied || !InLog(n, index) then n
    else
      var snap := Snapshot(index, TermAt(n, index), state, n.votersOld, n.votersNew);
      var (n1, ok1) := Write(n, SaveSnapshot(n.disk, snap));
      if !ok1 then n1
      else
        var (n2, ok2) := Write(n1, CompactLog(n1.disk, index));
        if !ok2 then n2
        else n2.(log := n2.log[index - n2.baseIndex..], baseIndex := index, baseTerm := snap.lastTerm, snapshot := snap)
  }

  predicate RejectsSnapshot(n: Node, m: Message)
    requires m.InstallSnapshot?
  {
    m.term < n.term || m.snapshot.lastIndex < n.baseIndex || m.snapshot.oldVoters == 0
    || (m.snapshot.lastIndex == n.baseIndex && m.snapshot.lastTerm != n.baseTerm)
  }

  function Install(n: Node, snap: Snapshot): (Node, bool)
    requires n.baseIndex < snap.lastIndex
  {
    var (n1, ok1) := Write(n, SaveSnapshot(n.disk, snap));
    if !ok1 then (n1, false)
    else
      var (n2, ok2) := Write(n1, CompactLog(n1.disk, snap.lastIndex));
      if !ok2 then (n2, false)
      else
        var keeps := InLog(n2, snap.lastIndex) && TermAt(n2, snap.lastIndex) == snap.lastTerm;
        (n2.(log := if keeps then n2.log[snap.lastIndex - n2.baseIndex..] else [Sentinel(snap.lastTerm)],
             baseIndex := snap.lastIndex, baseTerm := snap.lastTerm, snapshot := snap,
             votersOld := snap.oldVoters, votersNew := snap.newVoters,
             commit := Max(n2.commit, snap.lastIndex), applied := Max(n2.applied, snap.lastIndex)), true)
  }

  function OnInstallSnapshot(n: Node, m: Message): Node
    requires m.InstallSnapshot?
  {
    if RejectsSnapshot(n, m) then Send(n, InstallSnapshotResponse(n.id, m.from, n.term, true, n.baseIndex))
    else
      var (n1, ok) := if m.snapshot.lastIndex > n.baseIndex then Install(n, m.snapshot) else (n, true);
      if !ok then n1
      else
        var n2 := n1.(role := Follower, leader := m.from, elapsed := 0);
        Send(n2, InstallSnapshotResponse(n2.id, m.from, n2.term, false, n2.baseIndex))
  }

  function OnInstallSnapshotResponse(n: Node, m: Message): Node
    requires m.InstallSnapshotResponse?
  {
    if n.role != Leader || m.term != n.term || m.reject || !IsVoter(n, m.from) then n
    else
      var n1 := if m.matched > At(n.matched, m.from)
                then n.(matched := n.matched[m.from := m.matched], next := n.next[m.from := m.matched + 1]) else n;
      if At(n1.next, m.from) <= LastIndex(n1) then AppendTo(n1, m.from) else n1
  }

  // ------------------------------------------------------------ entry points

  predicate IsPreVote(m: Message) {
    m.PreVote? || m.PreVoteResponse?
  }

  /** A higher term is made durable, with an empty vote, before anything else happens. */
  function ObserveTerm(n: Node, m: Message): (Node, bool) {
    if !IsPreVote(m) && m.term > n.term then
      var (n1, ok) := PersistHard(n, HardState(m.term, 0, n.commit));
      if !ok then (n1, false)
      else (n1.(role := Follower, term := m.term, votedFor := 0, leader := 0, readReady := false), true)
    else (n, true)
  }

  function Dispatch(n: Node, m: Message): Node {
    match m
    case PreVote(_, _, _, _, _) => OnPreVote(n, m)
    case PreVoteResponse(_, _, _, _) => OnPreVoteResponse(n, m)
    case RequestVote(_, _, _, _, _) => OnVote(n, m)
    case RequestVoteResponse(_, _, _, _) => OnVoteResponse(n, m)
    case Append(_, _, _, _, _, _, _, _) => OnAppend(n, m)
    case AppendResponse(_, _, _, _, _, _) => OnAppendResponse(n, m)
    case TimeoutNow(_, _, _) =>
      if n.role == Follower && m.term == n.term && m.from == n.leader then StartElection(n) else n
    case InstallSnapshot(_, _, _, _) => OnInstallSnapshot(n, m)
    case InstallSnapshotResponse(_, _, _, _, _) => OnInstallSnapshotResponse(n, m)
  }

  function Step(n: Node, m: Message): Node {
    if n.faulted then n
    else
      var (n1, ok) := ObserveTerm(n, m);
      if !ok then n1 else Dispatch(n1, m)
  }

  function Tick(n: Node): Node {
    if n.faulted then n
    else
      var n1 := n.(elapsed := n.elapsed + 1);
      if n1.role == Leader then
        if n1.elapsed >= 3 then Broadcast(n1.(elapsed := 0)) else n1
      else if n1.elapsed >= n1.timeout then StartPreVote(n1)
      else n1
  }

  /** Every call a driver can make on a node. */
  datatype Call =
    | CallStep(m: Message)
    | CallTick
    | CallPropose(command: nat)
    | CallProposeRequest(operation: nat, clientId: nat, requestId: nat, key: nat, value: nat)
    | CallProposeJoint(newVoters: Mask)
    | CallProposeFinal
    | CallStartRead(context: nat)
    | CallTransfer(target: NodeId)
    | CallApply
    | CallDrain
    | CallCompact(index: nat, state: seq<Bytes.byte>)

  /** One call under the write outcomes `plan`. */
  function Perform(n: Node, call: Call, plan: seq<Outcome>): Node {
    var n0 := n.(plan := plan);
    match call
    case CallStep(m) => Step(n0, m)
    case CallTick => Tick(n0)
    case CallPropose(command) => Propose(n0, command)
    case CallProposeRequest(op, c, r, k, v) => ProposeRequest(n0, op, c, r, k, v)
    case CallProposeJoint(w) => ProposeJoint(n0, w)
    case CallProposeFinal => ProposeFinal(n0)
    case CallStartRead(context) => StartReadIndex(n0, context)
    case CallTransfer(target) => TransferLeadership(n0, target)
    case CallApply => ApplyEntries(n0)
    case CallDrain => Drain(n0)
    case CallCompact(index, state) => Compact(n0, index, state)
  }

  // ------------------------------------------------------------ recovery

  /** Whether restoreConfigurationState accepts `e` at this point of its scan. */
  predicate Restorable(e: Entry, oldVoters: Mask, newVoters: Mask, pending: nat) {
    if e.kind == KIND_NORMAL then e.oldVoters == 0 && e.newVoters == 0
    else if e.kind == KIND_NOOP then
      e.command == 0 && e.oldVoters == 0 && e.newVoters == 0 && e.operation == OP_LEGACY
    else if e.kind == KIND_JOINT then
      pending == 0 && newVoters == 0 && e.oldVoters == oldVoters && e.oldVoters != 0 && e.newVoters != 0
    else if e.kind == KIND_FINAL then
      pending == 0 && newVoters != 0 && e.oldVoters == newVoters && e.newVoters == 0
    else false
  }

  /** restoreConfigurationState from `index` on, with the voters found so far. */
  function RestoreFrom(n: Node, index: nat, oldVoters: Mask, newVoters: Mask, pending: nat): (Node, bool)
    decreases LastIndex(n) + 1 - index
  {
    if index > LastIndex(n) then (n.(votersOld := oldVoters, votersNew := newVoters, pendingConfig := pending), true)
    else
      var e := EntryAt(n, index);
      if !Restorable(e, oldVoters, newVoters, pending) then (n, false)
      else
        var n1 := EnsurePeers(n, Or(e.oldVoters, e.newVoters));
        if e.kind == KIND_JOINT || e.kind == KIND_FINAL then
          if index <= n.commit then RestoreFrom(n1, index + 1, e.oldVoters, e.newVoters, pending)
          else RestoreFrom(n1, index + 1, oldVoters, newVoters, index)
        else RestoreFrom(n1, index + 1, oldVoters, newVoters, pending)
  }

  function Restored(n: Node): Node {
    if n.commit > LastIndex(n) then FailStorage(n)
    else
      var (r, ok) := RestoreFrom(n, n.baseIndex + 1, n.votersOld, n.votersNew, 0);
      if ok then r else FailStorage(r)
  }

  ghost function RecoveredNode(id: NodeId, peers: seq<NodeId>, timeout: nat, disk: Disk): Node {
    var n := NewNode(id, peers, timeout, disk);
    var hard := disk.wal.hard;
    Restored(n.(term := hard.term, votedFor := hard.votedFor, commit := hard.commit,
                 log := [Sentinel(0)] + disk.wal.data[1..]))
  }

  ghost function RecoveredNodeWithSnapshot(id: NodeId, peers: seq<NodeId>, timeout: nat, disk: Disk): Node {
    var n := NewNode(id, peers, timeout, disk);
    var hard, snap := disk.wal.hard, disk.image;
    var n1 := n.(term := hard.term, votedFor := hard.votedFor, baseIndex := snap.lastIndex, baseTerm := snap.lastTerm,
                 snapshot := snap, votersOld := snap.oldVoters, votersNew := snap.newVoters);
    if n1.votersOld == 0 then FailStorage(n1)
    else
      var n2 := EnsurePeers(n1, Or(n1.votersOld, n1.votersNew));
      Restored(n2.(log := [Sentinel(snap.lastTerm)] + disk.wal.data[1..],
                   commit := Max(hard.commit, snap.lastIndex), applied := snap.lastIndex))
  }

  /** Restart from an opened store: the snapshot constructor is used exactly when there is a snapshot. */
  ghost function Recover(id: NodeId, peers: seq<NodeId>, timeout: nat, disk: Disk): Node {
    if disk.image.lastIndex != 0 then RecoveredNodeWithSnapshot(id, peers, timeout, disk)
    else RecoveredNode(id, peers, timeout, disk)
  }
}
