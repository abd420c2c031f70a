/**
 The three places where a compacting node and the node with its whole log part ways:
 compacting, installing a snapshot, and restarting from one. Each is matched by a move of the
 whole log: none, taking over the leader's committed prefix, and restarting.
 */
module RaftInstall {
  import opened Masks
  import opened RaftTypes
  import opened RaftDisk
  import opened RaftNode
  import opened RaftHistory
  import opened RaftFixed
  import opened RaftSteps
  import opened RaftCluster
  import opened RaftSim
  import D = RaftDurable

  // ------------------------------------------------------------ the fence

  /** The whole log once a snapshot up to `s` with `term` was taken over: `log` if it has that, else `prefix`. */
  function Adopted(log: Log, prefix: Log, s: nat, term: nat): Log {
    if s < |log| && log[s].term == term then log else prefix
  }

  /** The whole store that goes with a compacted one whose snapshot reaches `s`. */
  function AdoptedDisk(e: Disk, full: Log, s: nat): Disk {
    Together(e, e.wal.(hard := e.wal.hard.(commit := Max(e.wal.hard.commit, s)), data := full))
  }

  lemma SuffixDrop(base: nat, log: Log, full: Log, index: nat)
    requires Suffix(base, log, full) && base <= index < |full|
    ensures Suffix(index, log[index - base..], full)
  {
    SuffixAt(base, log, full, index);
    var k := index - base;
    assert full[index + 1..] == full[base + 1..][k..];
    assert log[k..][1..] == log[1..][k..];
  }

  lemma SuffixOne(s: nat, term: nat, full: Log)
    requires |full| == s + 1 && full[s].term == term
    ensures Suffix(s, [Sentinel(term)], full)
  {}

  /** Fencing the compacted WAL, beside the whole log that goes with it. */
  lemma FencedSuffix(d: Disk, e: Disk, snap: Snapshot, prefix: Log)
    requires DiskPair(d, e) && d.wal.base < snap.lastIndex
    requires |prefix| == snap.lastIndex + 1 && prefix[snap.lastIndex].term == snap.lastTerm
    ensures Fence(d.wal, snap).Ok?
    ensures var w := Fence(d.wal, snap).value;
            w.base == snap.lastIndex && w.hard == d.wal.hard
            && Suffix(w.base, w.data, Adopted(e.wal.data, prefix, snap.lastIndex, snap.lastTerm))
  {
    var s := snap.lastIndex;
    if s <= WalLast(d.wal) { SuffixAt(d.wal.base, d.wal.data, e.wal.data, s); }
    if WalTerm(d.wal, s) == Some(snap.lastTerm) {
      SuffixDrop(d.wal.base, d.wal.data, e.wal.data, s);
    } else {
      SuffixOne(s, snap.lastTerm, prefix);
    }
  }

  /** Whatever is left of saving and fencing, a restart reads the adopted log. */
  lemma FencedViews(d: Disk, e: Disk, snap: Snapshot, prefix: Log)
    requires DiskPair(d, e) && d.wal.base < snap.lastIndex
    requires |prefix| == snap.lastIndex + 1 && prefix[snap.lastIndex].term == snap.lastTerm
    ensures SaveSnapshot(d, snap) == Ok(D.Saved(d, snap)) && CompactLog(D.Saved(d, snap), snap.lastIndex).Ok?
    ensures var d1 := D.Saved(d, snap); var d2 := CompactLog(d1, snap.lastIndex).value;
            var e' := AdoptedDisk(e, Adopted(e.wal.data, prefix, snap.lastIndex, snap.lastTerm), snap.lastIndex);
            DiskView(Unacknowledged(d, d1), e') && DiskView(d1, e') && DiskView(Unacknowledged(d1, d2), e')
            && DiskPair(d2, e') && d2.image == snap && d2.wal.base == snap.lastIndex
  {
    hide Suffix, Fence;
    FencedSuffix(d, e, snap, prefix);
    CleanFence(D.Saved(d, snap), snap.lastIndex);
  }

  // ------------------------------------------------------------ compacting

  /** The partner of a node that compacted: it stands still, or stops with it. */
  function Beside(x: Node, n: Node): Node {
    var x1 := x.(plan := n.plan);
    if n.faulted then FailStorage(x1) else x1
  }

  lemma CompactAlike(known: set<Message>, n: Node, x: Node, index: nat, state: seq<Bytes.byte>)
    requires Like(known, n, x) && !n.faulted && D.Sound(D.WHOLE, n) && n.commit <= LastIndex(n)
    requires forall q :: q in n.outbound ==> q.msg in known
    ensures var n' := Compact(n, index, state); Like(known, n', Beside(x, n'))
  {
    hide Like, Write, SaveSnapshot, CompactLog, D.Sound, Running, DiskView;
    var n' := Compact(n, index, state);
    LikePeers(known, n, x);
    if index <= n.baseIndex || index > n.applied || !InLog(n, index) {
      Stays(known, n, x);
    } else {
      var snap := Snapshot(index, TermAt(n, index), state, n.votersOld, n.votersNew);
      CompactedPair(n, x, snap);
      RunningFields(n, x);
      D.BaseInRange(D.WHOLE, n);
      D.FenceFollowsMemory(D.WHOLE, n, snap);
      WriteCases(n, SaveSnapshot(n.disk, snap));
      var (n1, ok1) := Write(n, SaveSnapshot(n.disk, snap));
      if !ok1 {
        StopBeside(known, n, x, n', x.disk);
      } else {
        WriteCases(n1, CompactLog(n1.disk, index));
        var (n2, ok2) := Write(n1, CompactLog(n1.disk, index));
        if !ok2 {
          StopBeside(known, n, x, n', x.disk);
        } else {
          var a := n.(disk := n2.disk, log := n.log[index - n.baseIndex..], baseIndex := index,
                      baseTerm := snap.lastTerm, snapshot := snap);
          assert n' == a.(plan := n'.plan);
          PlanAlike(a, x, n', Beside(x, n'));
          KnownOut(known, n', Beside(x, n'));
          MakeLike(known, n', Beside(x, n'));
        }
      }
    }
  }

  lemma Stays(known: set<Message>, n: Node, x: Node)
    requires Like(known, n, x) && !n.faulted
    ensures Like(known, n, Beside(x, n))
  {
    assert x.(plan := n.plan) == x;
  }

  lemma KnownOut(known: set<Message>, n: Node, x: Node)
    requires forall q :: q in n.outbound ==> q.msg in known
    ensures Out(known, n, x)
  {}

  /** A node that fail-stopped in a write of its store, beside the node that stops with it. */
  lemma StopBeside(known: set<Message>, n: Node, x: Node, n': Node, e: Disk)
    requires Running(n, x) && n' == FailStorage(n.(disk := n'.disk, plan := n'.plan))
    requires DiskView(n'.disk, e) && VotersKept(n')
    ensures Like(known, n', FailStorage(x.(disk := e, plan := n'.plan)))
  {
    hide DiskView, DiskPair, Suffix, NoConfig;
    StoppedOut(known, n', FailStorage(x.(disk := e, plan := n'.plan)));
  }

  /** What compaction at `snap` does to the pair, in every outcome of its two writes. */
  lemma CompactedPair(n: Node, x: Node, snap: Snapshot)
    requires Running(n, x) && D.Sound(D.WHOLE, n) && n.baseIndex < snap.lastIndex <= n.applied
    requires snap.lastIndex <= LastIndex(n) && snap.lastTerm == TermAt(n, snap.lastIndex)
    requires snap.oldVoters == n.votersOld && snap.newVoters == n.votersNew
    ensures var d1 := D.Saved(n.disk, snap);
            SaveSnapshot(n.disk, snap) == Ok(d1) && CompactLog(d1, snap.lastIndex).Ok?
            && var d2 := CompactLog(d1, snap.lastIndex).value;
               DiskView(n.disk, x.disk) && DiskView(Unacknowledged(n.disk, d1), x.disk)
               && DiskView(d1, x.disk) && DiskView(Unacknowledged(d1, d2), x.disk)
               && Running(n.(disk := d2, log := n.log[snap.lastIndex - n.baseIndex..], baseIndex := snap.lastIndex,
                             baseTerm := snap.lastTerm, snapshot := snap), x)
               && d1.image == d2.image == snap
  {
    hide DiskView, CompactLog, SaveSnapshot, D.PromisesBacked, Ordinary;
    var s := snap.lastIndex;
    SameEntries(n, x, s);
    SuffixDrop(n.baseIndex, n.log, x.log, s);
    var prefix: Log := x.log[..s + 1];
    D.FenceFollowsMemory(D.WHOLE, n, snap);
    SuffixAt(n.disk.wal.base, n.disk.wal.data, x.disk.wal.data, s);
    D.TermsAgree(D.WHOLE, n, s);
    FencedViews(n.disk, x.disk, snap, x.log[..s + 1]);
    PairIsView(n.disk, x.disk);
    assert AdoptedDisk(x.disk, Adopted(x.disk.wal.data, prefix, s, snap.lastTerm), s) == x.disk;
  }

  // ------------------------------------------------------------ installing

  /** The partner of a node that installed a snapshot up to `s`: it adopts the log, the commit index and the store. */
  function Adopting(x: Node, full: Log, s: nat): Node {
    x.(log := full, commit := Max(x.commit, s), disk := AdoptedDisk(x.disk, full, s))
  }

  /** What installing leaves: both stopped, with or without the snapshot on the medium, or both adopted. */
  ghost function Partner(n': Node, x: Node, full: Log, snap: Snapshot, was: Disk): Node {
    if !n'.faulted then Adopting(x, full, snap.lastIndex).(plan := n'.plan)
    else FailStorage(x.(disk := if n'.disk == was then x.disk else AdoptedDisk(x.disk, full, snap.lastIndex),
                        plan := n'.plan))
  }

  lemma InstallAlike(known: set<Message>, n: Node, x: Node, snap: Snapshot, prefix: Log)
    requires Like(known, n, x) && !n.faulted && D.Sound(D.WHOLE, n) && n.baseIndex < snap.lastIndex
    requires forall q :: q in n.outbound ==> q.msg in known
    requires |prefix| == snap.lastIndex + 1 && prefix[snap.lastIndex].term == snap.lastTerm
    requires forall k :: 0 <= k < |prefix| ==> Ordinary(prefix[k])
    requires snap.oldVoters == n.votersOld && snap.newVoters == 0
    requires x.disk.wal.data == x.log
    ensures var full := Adopted(x.log, prefix, snap.lastIndex, snap.lastTerm);
            var (n', ok) := Install(n, snap);
            Like(known, n', Partner(n', x, full, snap, n.disk)) && (n'.faulted <==> !ok)
  {
    hide Like, Install, SaveSnapshot, CompactLog, D.Sound, Running, DiskView, Unacknowledged;
    LikePeers(known, n, x);
    var s := snap.lastIndex;
    var full := Adopted(x.log, prefix, s, snap.lastTerm);
    var (n', ok) := Install(n, snap);
    InstalledPair(n, x, snap, prefix);
    RunningFields(n, x);
    D.BaseInRange(D.WHOLE, n);
    D.FenceFollowsMemory(D.WHOLE, n, snap);
    InstallCases(n, snap, D.Saved(n.disk, snap));
    if ok {
      InstalledRuns(n, x, snap, prefix, n'.disk, n');
      KnownOut(known, n', Partner(n', x, full, snap, n.disk));
      MakeLike(known, n', Partner(n', x, full, snap, n.disk));
    } else {
      StoppedVoters(n, n', snap);
      StopBeside(known, n, x, n', if n'.disk == n.disk then x.disk else AdoptedDisk(x.disk, full, s));
    }
  }

  lemma StoppedVoters(n: Node, n': Node, snap: Snapshot)
    requires VotersKept(n) && n'.votersOld == n.votersOld && snap.oldVoters == n.votersOld && snap.newVoters == 0
    requires n'.disk.image == n.disk.image || n'.disk.image == snap
    ensures VotersKept(n')
  {}

  /** How installing can end, once both writes are known to be accepted by the store. */
  lemma InstallCases(n: Node, snap: Snapshot, d1: Disk)
    requires n.baseIndex < snap.lastIndex && !n.faulted
    requires SaveSnapshot(n.disk, snap) == Ok(d1) && CompactLog(d1, snap.lastIndex).Ok?
    requires d1.image == snap && CompactLog(d1, snap.lastIndex).value.image == snap
    ensures var (n', ok) := Install(n, snap); var d2 := CompactLog(d1, snap.lastIndex).value;
            if ok then n' == Installed(n, snap, d2).(plan := n'.plan, applied := n'.applied) && !n'.faulted
            else n' == FailStorage(n.(disk := n'.disk, plan := n'.plan))
                 && (n'.disk == n.disk || n'.disk == Unacknowledged(n.disk, d1) || n'.disk == d1
                     || n'.disk == Unacknowledged(d1, d2))
                 && (n'.disk.image == n.disk.image || n'.disk.image == snap)
  {
    hide Write, SaveSnapshot, CompactLog;
    WriteCases(n, SaveSnapshot(n.disk, snap));
    var (n1, ok1) := Write(n, SaveSnapshot(n.disk, snap));
    if ok1 { WriteCases(n1, CompactLog(n1.disk, snap.lastIndex)); }
  }

  lemma InstalledPair(n: Node, x: Node, snap: Snapshot, prefix: Log)
    requires Running(n, x) && D.Sound(D.WHOLE, n) && n.baseIndex < snap.lastIndex
    requires |prefix| == snap.lastIndex + 1 && prefix[snap.lastIndex].term == snap.lastTerm
    requires forall k :: 0 <= k < |prefix| ==> Ordinary(prefix[k])
    requires snap.oldVoters == n.votersOld && snap.newVoters == 0 && x.disk.wal.data == x.log
    ensures var s := snap.lastIndex; var d1 := D.Saved(n.disk, snap);
            var full := Adopted(x.log, prefix, s, snap.lastTerm); var e' := AdoptedDisk(x.disk, full, s);
            SaveSnapshot(n.disk, snap) == Ok(d1) && CompactLog(d1, s).Ok? && d1 != n.disk
            && var d2 := CompactLog(d1, s).value;
               DiskView(n.disk, x.disk) && DiskView(Unacknowledged(n.disk, d1), e')
               && DiskView(d1, e') && DiskView(Unacknowledged(d1, d2), e') && d1.image == d2.image == snap
               && Unacknowledged(n.disk, d1) != n.disk && Unacknowledged(d1, d2) != n.disk
               && DiskPair(d2, e') && d2.wal.base == s
  {
    hide DiskView, CompactLog, SaveSnapshot, D.PromisesBacked;
    FencedViews(n.disk, x.disk, snap, prefix);
    PairIsView(n.disk, x.disk);
  }

  /** The fields of a node that installed `snap`, with `d` as its store. */
  function Installed(n: Node, snap: Snapshot, d: Disk): Node {
    var keeps := InLog(n, snap.lastIndex) && TermAt(n, snap.lastIndex) == snap.lastTerm;
    n.(log := if keeps && n.baseIndex <= snap.lastIndex then n.log[snap.lastIndex - n.baseIndex..]
              else [Sentinel(snap.lastTerm)],
       baseIndex := snap.lastIndex, baseTerm := snap.lastTerm, snapshot := snap,
       votersOld := snap.oldVoters, votersNew := snap.newVoters, commit := Max(n.commit, snap.lastIndex), disk := d)
  }

  lemma InstalledRuns(n: Node, x: Node, snap: Snapshot, prefix: Log, d: Disk, n': Node)
    requires Running(n, x) && n.baseIndex < snap.lastIndex
    requires |prefix| == snap.lastIndex + 1 && prefix[snap.lastIndex].term == snap.lastTerm
    requires forall k :: 0 <= k < |prefix| ==> Ordinary(prefix[k])
    requires snap.oldVoters == n.votersOld && snap.newVoters == 0
    requires var full := Adopted(x.log, prefix, snap.lastIndex, snap.lastTerm);
             DiskPair(d, AdoptedDisk(x.disk, full, snap.lastIndex)) && d.wal.base == snap.lastIndex
    requires d.image == snap
    requires if InLog(n, snap.lastIndex) && TermAt(n, snap.lastIndex) == snap.lastTerm
             then d.wal.data == n.log[snap.lastIndex - n.baseIndex..] else d.wal.data == [Sentinel(snap.lastTerm)]
    requires n' == Installed(n, snap, d).(plan := n'.plan, applied := n'.applied)
    ensures var full := Adopted(x.log, prefix, snap.lastIndex, snap.lastTerm);
            Running(n', Adopting(x, full, snap.lastIndex).(plan := n'.plan))
  {
    hide DiskPair;
    var s := snap.lastIndex;
    SameEntries(n, x, s);
    if InLog(n, s) && TermAt(n, s) == snap.lastTerm {
      SuffixDrop(n.baseIndex, n.log, x.log, s);
    } else {
      SuffixOne(s, snap.lastTerm, prefix);
    }
  }

  // ------------------------------------------------------------ restarting

  lemma {:induction false} EnsureKnown(n: Node, mask: Mask, id: nat)
    requires forall p :: p in Ids(mask) ==> p == n.id || p in n.peers
    ensures EnsurePeersFrom(n, mask, id) == n
    decreases 65 - id
  {
    if 0 < id <= 64 { EnsureKnown(n, mask, id + 1); }
  }

  /** The node that a snapshot and plain entries describe. */
  ghost function FromSnapshot(id: NodeId, peers: seq<NodeId>, timeout: nat, d: Disk): Node {
    var hard, snap := d.wal.hard, d.image;
    NewNode(id, peers, timeout, d).(
      term := hard.term, votedFor := hard.votedFor, baseIndex := snap.lastIndex, baseTerm := snap.lastTerm,
      snapshot := snap, votersOld := snap.oldVoters, votersNew := snap.newVoters,
      log := [Sentinel(snap.lastTerm)] + d.wal.data[1..],
      commit := Max(hard.commit, snap.lastIndex), applied := snap.lastIndex)
  }

  ghost function FromLog(id: NodeId, peers: seq<NodeId>, timeout: nat, d: Disk): Node {
    var hard := d.wal.hard;
    NewNode(id, peers, timeout, d).(term := hard.term, votedFor := hard.votedFor, commit := hard.commit,
                                    log := [Sentinel(0)] + d.wal.data[1..])
  }

  lemma RecoversSnapshot(id: NodeId, peers: seq<NodeId>, timeout: nat, d: Disk)
    requires d.image.lastIndex > 0 && d.image.oldVoters != 0
    requires var r := FromSnapshot(id, peers, timeout, d);
             NoConfig(r) && AllPlain(r.log) && r.commit <= LastIndex(r)
    requires forall p :: p in Ids(d.image.oldVoters) ==> p == id || p in peers
    ensures Recover(id, peers, timeout, d) == FromSnapshot(id, peers, timeout, d)
  {
    hide EnsurePeersFrom, RestoreFrom, MaskOf, NoConfig, AllPlain;
    var r := FromSnapshot(id, peers, timeout, d);
    var snap := d.image;
    var n1 := NewNode(id, peers, timeout, d).(
      term := d.wal.hard.term, votedFor := d.wal.hard.votedFor, baseIndex := snap.lastIndex, baseTerm := snap.lastTerm,
      snapshot := snap, votersOld := snap.oldVoters, votersNew := snap.newVoters);
    assert snap.newVoters == 0 by { NoNewVoters(r); }
    OrMeansUnion(snap.oldVoters, 0, 1);
    assert Ids(0) == {};
    EnsureKnown(n1, Or(snap.oldVoters, snap.newVoters), 1);
    RestoreFixed(r, r.baseIndex + 1);
  }

  lemma NoNewVoters(n: Node)
    requires NoConfig(n)
    ensures n.votersNew == 0
  {}

  lemma RecoversLog(id: NodeId, peers: seq<NodeId>, timeout: nat, d: Disk)
    requires d.image.lastIndex == 0
    requires var r := FromLog(id, peers, timeout, d); NoConfig(r) && AllPlain(r.log) && r.commit <= LastIndex(r)
    ensures Recover(id, peers, timeout, d) == FromLog(id, peers, timeout, d)
  {
    hide RestoreFrom, MaskOf, NoConfig, AllPlain;
    var r := FromLog(id, peers, timeout, d);
    NoNewVoters(r);
    RestoreFixed(r, r.baseIndex + 1);
  }

  /** The whole node after a restart. */
  lemma WholeRestart(h: History, x: Node, timeout: nat)
    requires HistOk(h) && NodeOk(h, x)
    ensures Open(x.disk) == Ok(Fresh(x.disk.wal, NO_SNAPSHOT))
    ensures var d := Fresh(x.disk.wal, NO_SNAPSHOT); var y := FromLog(x.id, x.peers, timeout, d);
            Recover(x.id, x.peers, timeout, d) == y && y.log == x.disk.wal.data && y.commit < |y.log|
            && NoConfig(y) && AllPlain(y.log) && y.log[0] == Sentinel(0)
            && y.votersOld == x.votersOld && Ids(y.votersOld) == h.voters
            && (forall p :: p in x.peers <==> p in h.voters && p != x.id) && x.id in h.voters
  {
    hide HistOk, CommitOk, RetainsAll, LogOk, LiveOk, OutboundOk, MaskOf;
    var d := Fresh(x.disk.wal, NO_SNAPSHOT);
    var y := FromLog(x.id, x.peers, timeout, d);
    RestartLog(h, d.wal.data);
    RestartCommit(h, d.wal.data, d.wal.hard.commit, d.wal.hard.term);
    MaskOfMeans([x.id] + x.peers);
    assert forall p: nat :: p in Ids(y.votersOld) <==> p in h.voters;
    assert Ids(y.votersOld) == h.voters;
    IdsDetermineMask(y.votersOld, x.votersOld, 1);
    PlainLog(h, y.log);
    assert y.log[0] == Sentinel(0) by { FirstEntry(h, y.log); }
    RecoversLog(x.id, x.peers, timeout, d);
  }

  lemma FirstEntry(h: History, log: Log)
    requires LogOk(h, log)
    ensures log[0] == Sentinel(0)
  {}

  /** Two nodes whose media look alike restart alike. */
  lemma RestartAlike(h: History, n: Node, x: Node, timeout: nat)
    requires HistOk(h) && NodeOk(h, x) && D.Sound(D.WHOLE, n) && Open(n.disk).Ok?
    requires Fields(n, x) && DiskView(n.disk, x.disk) && VotersKept(n)
    ensures Open(x.disk).Ok?
    ensures var r := Recover(n.id, n.peers, timeout, Open(n.disk).value);
            var y := Recover(x.id, x.peers, timeout, Open(x.disk).value);
            Running(r, y) && r.outbound == [] && y.outbound == []
  {
    hide HistOk, NodeOk, D.Sound, Recover, Suffix, MaskOf, Fence, NoConfig, AllPlain, LogOk;
    WholeRestart(h, x, timeout);
    OpenedMedium(n);
    var d := Open(n.disk).value;
    var y := FromLog(x.id, x.peers, timeout, Fresh(x.disk.wal, NO_SNAPSHOT));
    if d.image.lastIndex > 0 {
      var r := FromSnapshot(n.id, n.peers, timeout, d);
      SuffixHead(d.wal.base, d.wal.data, y.log, d.image.lastTerm);
      PlainSuffix(r, y);
      NamesVoters(y.votersOld, h.voters, x.id);
      RecoversSnapshot(n.id, n.peers, timeout, d);
    } else {
      var r := FromLog(n.id, n.peers, timeout, d);
      SuffixHead(0, d.wal.data, y.log, 0);
      PlainSuffix(r, y);
      RecoversLog(n.id, n.peers, timeout, d);
    }
  }

  lemma NamesVoters(mask: Mask, voters: set<nat>, id: nat)
    requires Ids(mask) == voters && id in voters
    ensures mask != 0
  {
    assert Ids(0) == {};
  }

  lemma SuffixHead(base: nat, data: Log, full: Log, term: nat)
    requires Suffix(base, data, full) && data[0].term == term
    ensures Suffix(base, [Sentinel(term)] + data[1..], full) && |full| == base + |data|
  {
    assert ([Sentinel(term)] + data[1..])[1..] == data[1..];
  }

  lemma PlainSuffix(r: Node, y: Node)
    requires Suffix(r.baseIndex, r.log, y.log) && NoConfig(y) && AllPlain(y.log) && Ordinary(r.log[0])
    requires r.votersNew == 0 && r.pendingConfig == 0
    ensures NoConfig(r) && AllPlain(r.log) && |y.log| == r.baseIndex + |r.log|
  {
    forall k | 1 <= k < |r.log| ensures r.log[k] == y.log[r.baseIndex + k] {
      SuffixAt(r.baseIndex, r.log, y.log, r.baseIndex + k);
    }
  }

  /** What opening makes of a medium that fits together. */
  lemma OpenedMedium(n: Node)
    requires D.Sound(D.WHOLE, n) && Open(n.disk).Ok?
    ensures var d := Open(n.disk).value;
            d == Fresh(d.wal, n.disk.image) && d.wal.base == d.image.lastIndex && d.wal.hard == n.disk.wal.hard
            && d.wal.data[0].term == d.image.lastTerm && (d.image.lastIndex == 0 ==> d.image == NO_SNAPSHOT)
  {
    hide D.PromisesBacked, D.Remembered;
  }
}
