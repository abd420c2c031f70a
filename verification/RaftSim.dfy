/**
 A node that compacts its log, beside the same node with its whole log: one simulates the
 other. Whatever both are asked, they answer alike, except that the compacting node sends its
 snapshot where the other would send an entry below the base. Configurations are fixed.
 */
module RaftSim {
  import opened Masks
  import opened RaftTypes
  import opened RaftDisk
  import opened RaftNode
  import opened RaftFixed
  import opened RaftSteps
  import D = RaftDurable

  // ------------------------------------------------------------ the relation

  /** `log` is the part of `full` from `base` on; of the entry at the base only the term is left. */
  ghost predicate Suffix(base: nat, log: Log, full: Log) {
    |full| == base + |log| && full[base].term == log[0].term && full[base + 1..] == log[1..]
  }

  /** Two stores in step with their media: `d` compacted, `e` whole. */
  ghost predicate DiskPair(d: Disk, e: Disk) {
    && Clean(d) && Clean(e) && e.wal.base == 0 && e.image == NO_SNAPSHOT
    && d.image.lastIndex == d.wal.base
    && e.wal.hard == d.wal.hard.(commit := D.StoredCommit(d))
    && Suffix(d.wal.base, d.wal.data, e.wal.data)
  }

  /** What a restart reads off the two media, once either node has stopped. */
  ghost predicate DiskView(d: Disk, e: Disk) {
    && e.readable && e.wal.base == 0 && e.image == NO_SNAPSHOT
    && e.wal.hard == d.wal.hard.(commit := D.StoredCommit(d))
    && (Open(d).Ok? ==> var w := Open(d).value.wal; Suffix(w.base, w.data, e.wal.data))
  }

  /** Everything but the log and what is kept of it. */
  ghost predicate Fields(n: Node, x: Node) {
    x == n.(log := x.log, baseIndex := 0, baseTerm := 0, snapshot := NO_SNAPSHOT, disk := x.disk,
            outbound := x.outbound, applied := x.applied)
  }

  /** The snapshot on disk names the voters. */
  ghost predicate VotersKept(n: Node) {
    n.disk.image.lastIndex > 0 ==> n.disk.image.oldVoters == n.votersOld && n.disk.image.newVoters == 0
  }

  ghost predicate Running(n: Node, x: Node) {
    && !n.faulted && Fields(n, x) && Suffix(n.baseIndex, n.log, x.log) && VotersKept(n)
    && DiskPair(n.disk, x.disk) && n.disk.wal.base == n.baseIndex <= n.commit && x.disk.wal.hard.commit == n.commit
    && NoConfig(n) && NoConfig(x) && |n.log| <= |n.disk.wal.data|
  }

  ghost predicate Stopped(n: Node, x: Node) {
    && n.faulted && n.outbound == [] && Fields(n, x) && Suffix(n.baseIndex, n.log, x.log) && VotersKept(n)
    && DiskView(n.disk, x.disk) && n.baseIndex <= n.commit
  }

  /** A snapshot that the leader `n` sends now. */
  predicate SendsSnapshot(n: Node, m: Message) {
    n.role == Leader && m.InstallSnapshot? && m.from == n.id && m.term == n.term && m.snapshot == n.snapshot
  }

  /** `b` is what the other node queues when `n` queues `a`: the same, or an entry instead of the snapshot. */
  ghost predicate Mirrors(n: Node, a: Message, b: Message) {
    a == b || (SendsSnapshot(n, a) && b.to == a.to)
  }

  /** Each queued message was known before, or the other node has queued its counterpart. */
  ghost predicate Out(known: set<Message>, n: Node, x: Node) {
    forall q :: q in n.outbound ==> q.msg in known || exists p :: p in x.outbound && Mirrors(n, q.msg, p.msg)
  }

  ghost predicate Like(known: set<Message>, n: Node, x: Node) {
    Out(known, n, x) && if n.faulted then Stopped(n, x) else Running(n, x)
  }

  // ------------------------------------------------------------ logs

  lemma SuffixAt(base: nat, log: Log, full: Log, i: nat)
    requires Suffix(base, log, full) && base <= i < |full|
    ensures i > base ==> full[i] == log[i - base]
    ensures full[i].term == log[i - base].term
  {
    if i > base { assert full[i] == full[base + 1..][i - base - 1] == log[1..][i - base - 1]; }
  }

  lemma SuffixAppend(base: nat, log: Log, full: Log, e: Entry)
    requires Suffix(base, log, full)
    ensures Suffix(base, log + [e], full + [e])
  {
    assert (full + [e])[base + 1..] == full[base + 1..] + [e];
    assert (log + [e])[1..] == log[1..] + [e];
  }

  lemma SuffixCut(base: nat, log: Log, full: Log, at: nat)
    requires Suffix(base, log, full) && base < at <= |full|
    ensures Suffix(base, log[..at - base], full[..at])
  {
    assert full[..at][base + 1..] == full[base + 1..][..at - base - 1];
    assert log[..at - base][1..] == log[1..][..at - base - 1];
  }

  lemma SameEntries(n: Node, x: Node, i: nat)
    requires Fields(n, x) && Suffix(n.baseIndex, n.log, x.log)
    ensures LastIndex(n) == LastIndex(x)
    ensures i >= n.baseIndex ==> (InLog(n, i) <==> InLog(x, i)) && TermAt(n, i) == TermAt(x, i)
    ensures i > n.baseIndex ==> EntryAt(n, i) == EntryAt(x, i)
  {
    if n.baseIndex <= i <= LastIndex(n) { SuffixAt(n.baseIndex, n.log, x.log, i); }
  }

  // ------------------------------------------------------------ voters

  lemma SameVoters(n: Node, x: Node)
    requires Fields(n, x) && NoConfig(n) && NoConfig(x)
    ensures forall mask :: Quorum(n, mask) == Quorum(x, mask)
    ensures forall id :: IsVoter(n, id) == IsVoter(x, id)
    ensures forall index, acked :: CanCommit(n, index, acked) == CanCommit(x, index, acked)
  {
    hide Quorum, IsVoter, CanCommit, NoConfig;
    forall mask ensures Quorum(n, mask) == Quorum(x, mask) {
      QuorumFixed(n, mask);
      QuorumFixed(x, mask);
    }
    forall id ensures IsVoter(n, id) == IsVoter(x, id) {
      VoterFixed(n, id);
      VoterFixed(x, id);
    }
    forall index, acked ensures CanCommit(n, index, acked) == CanCommit(x, index, acked) {
      CanCommitFixed(n, index, acked);
      CanCommitFixed(x, index, acked);
    }
  }

  // ------------------------------------------------------------ writing

  lemma PairIsView(d: Disk, e: Disk)
    requires DiskPair(d, e)
    ensures DiskView(d, e)
  {}

  lemma HardPair(d: Disk, e: Disk, h: HardState)
    requires DiskPair(d, e) && e.wal.hard.commit <= h.commit
    ensures SaveHard(d, h).Ok? <==> SaveHard(e, h).Ok?
    ensures SaveHard(d, h).Ok? ==>
              var d1, e1 := SaveHard(d, h).value, SaveHard(e, h).value;
              DiskPair(d1, e1) && e1.wal.hard == h && d1.image == d.image && d1.wal == d.wal.(hard := h)
              && DiskView(Unacknowledged(d, d1), Unacknowledged(e, e1))
  {
    hide Suffix;
    CleanWrites(d, h, 0, Sentinel(0));
    CleanWrites(e, h, 0, Sentinel(0));
  }

  lemma EntryPair(d: Disk, e: Disk, at: nat, entry: Entry)
    requires DiskPair(d, e) && d.wal.base < at <= WalLast(d.wal) + 1
    ensures AppendEntry(d, at, entry).Ok? && AppendEntry(e, at, entry).Ok?
    ensures var d1, e1 := AppendEntry(d, at, entry).value, AppendEntry(e, at, entry).value;
            DiskPair(d1, e1) && e1.wal.hard == e.wal.hard && d1.image == d.image && d1.wal.base == d.wal.base
            && |d1.wal.data| == at - d.wal.base + 1
            && DiskView(Unacknowledged(d, d1), Unacknowledged(e, e1))
  {
    hide Suffix;
    assert |e.wal.data| == d.wal.base + |d.wal.data| by { SuffixLength(d.wal.base, d.wal.data, e.wal.data); }
    CleanWrites(d, d.wal.hard, at, entry);
    CleanWrites(e, e.wal.hard, at, entry);
    SuffixCut(d.wal.base, d.wal.data, e.wal.data, at);
    SuffixAppend(d.wal.base, d.wal.data[..at - d.wal.base], e.wal.data[..at], entry);
  }

  lemma SuffixLength(base: nat, log: Log, full: Log)
    requires Suffix(base, log, full)
    ensures |full| == base + |log|
  {}

  /** The same write on both: both succeed, or both stop. */
  lemma WriteAlike(n: Node, x: Node, a: Result<Disk>, b: Result<Disk>)
    requires Running(n, x) && (a.Ok? <==> b.Ok?)
    requires a.Ok? ==> DiskView(Unacknowledged(n.disk, a.value), Unacknowledged(x.disk, b.value))
                       && a.value.image == n.disk.image
    ensures var (n1, ok) := Write(n, a); var (x1, ok') := Write(x, b);
            ok == ok'
            && (if ok then a.Ok? && b.Ok? && n1 == n.(disk := a.value, plan := n1.plan)
                           && x1 == x.(disk := b.value, plan := n1.plan)
                else Stopped(n1, x1))
  {
    hide DiskView, Suffix, Open;
    PairIsView(n.disk, x.disk);
    WriteCases(n, a);
    WriteCases(x, b);
  }

  lemma PersistAlike(n: Node, x: Node, h: HardState)
    requires Running(n, x) && n.commit <= h.commit
    ensures var (n1, ok) := PersistHard(n, h); var (x1, ok') := PersistHard(x, h);
            ok == ok'
            && (if ok then n1 == n.(disk := n1.disk, plan := n1.plan) && x1 == x.(disk := x1.disk, plan := n1.plan)
                           && Running(n1.(commit := h.commit), x1.(commit := h.commit))
                else Stopped(n1, x1))
  {
    hide Write, DiskView, Suffix, DiskPair, SaveHard;
    assert DiskPair(n.disk, x.disk);
    HardPair(n.disk, x.disk, h);
    WriteAlike(n, x, SaveHard(n.disk, h), SaveHard(x.disk, h));
  }

  lemma StoppedOut(known: set<Message>, n: Node, x: Node)
    requires Stopped(n, x)
    ensures Like(known, n, x)
  {}

  // ------------------------------------------------------------ sending

  lemma SendAlike(known: set<Message>, n: Node, x: Node, m: Message)
    requires Like(known, n, x) && !n.faulted
    ensures Like(known, Send(n, m), Send(x, m))
  {
    hide DiskPair, Suffix;
    var n1, x1 := Send(n, m), Send(x, m);
    forall q | q in n1.outbound && q.msg !in known ensures exists p :: p in x1.outbound && Mirrors(n1, q.msg, p.msg) {
      if q in n.outbound {
        var p :| p in x.outbound && Mirrors(n, q.msg, p.msg);
        assert p in x1.outbound && Mirrors(n1, q.msg, p.msg);
      } else {
        assert Queued(m, x.disk) in x1.outbound && Mirrors(n1, m, m);
      }
    }
  }

  lemma {:induction false} SendToPeersAlike(known: set<Message>, n: Node, x: Node, k: nat,
                                            f: NodeId -> Message, g: NodeId -> Message)
    requires Like(known, n, x) && !n.faulted && forall p :: f(p) == g(p)
    ensures var n', x' := SendToPeers(n, k, f), SendToPeers(x, k, g);
            Like(known, n', x') && n' == n.(outbound := n'.outbound) && x' == x.(outbound := x'.outbound)
    decreases |n.peers| - k
  {
    hide Like;
    LikePeers(known, n, x);
    if k < |n.peers| {
      SendAlike(known, n, x, f(n.peers[k]));
      SendToPeersAlike(known, Send(n, f(n.peers[k])), Send(x, g(x.peers[k])), k + 1, f, g);
    }
  }

  lemma LikePeers(known: set<Message>, n: Node, x: Node)
    requires Like(known, n, x)
    ensures Fields(n, x) && x.baseIndex == 0 && Suffix(n.baseIndex, n.log, x.log) && n.baseIndex <= n.commit
    ensures !n.faulted ==> Running(n, x)
  {}

  /** Where the compacting leader sends its snapshot, the other sends an entry. */
  lemma AppendToAlike(known: set<Message>, n: Node, x: Node, p: NodeId, context: nat)
    requires Like(known, n, x) && !n.faulted && n.role == Leader
    ensures var n', x' := AppendToContext(n, p, context), AppendToContext(x, p, context);
            Like(known, n', x') && n' == n.(outbound := n'.outbound, next := n'.next)
  {
    hide Like, DiskPair, Suffix, NoConfig, TermAt, EntryAt, Running, Ordinary;
    LikePeers(known, n, x);
    var next := At(n.next, p);
    SameEntries(n, x, 0);
    if next <= n.baseIndex {
      SnapshotOut(known, n, x, p, context);
    } else {
      var clipped := next > LastIndex(n) + 1;
      var to := if clipped then LastIndex(n) + 1 else next;
      SameEntries(n, x, to - 1);
      SameEntries(n, x, to);
      var n1 := if clipped then n.(next := n.next[p := to]) else n;
      var x1 := if clipped then x.(next := x.next[p := to]) else x;
      NextAlike(known, n, x, n1, x1);
      SameEntries(n1, x1, to - 1);
      SameEntries(n1, x1, to);
      SendAlike(known, n1, x1,
                Append(n1.id, p, n1.term, to - 1, TermAt(n1, to - 1),
                       if to < LastIndex(n1) + 1 then Some(EntryAt(n1, to)) else None, n1.commit, context));
    }
  }

  lemma SnapshotOut(known: set<Message>, n: Node, x: Node, p: NodeId, context: nat)
    requires Like(known, n, x) && !n.faulted && n.role == Leader && At(n.next, p) <= n.baseIndex
    ensures Like(known, AppendToContext(n, p, context), AppendToContext(x, p, context))
  {
    hide DiskPair, Suffix, Ordinary, TermAt, EntryAt;
    var n1, x1 := AppendToContext(n, p, context), AppendToContext(x, p, context);
    SameEntries(n, x, 0);
    assert n.baseIndex <= LastIndex(n);
    var sent := x1.outbound[|x.outbound|];
    forall q | q in n1.outbound && q.msg !in known ensures exists p :: p in x1.outbound && Mirrors(n1, q.msg, p.msg) {
      if q in n.outbound {
        var p :| p in x.outbound && Mirrors(n, q.msg, p.msg);
        assert p in x1.outbound && Mirrors(n1, q.msg, p.msg);
      } else {
        assert sent in x1.outbound && Mirrors(n1, q.msg, sent.msg);
      }
    }
  }

  /** Bookkeeping that neither the log nor the store sees. */
  lemma NextAlike(known: set<Message>, n: Node, x: Node, n1: Node, x1: Node)
    requires Like(known, n, x) && !n.faulted && Fields(n1, x1)
    requires n1.log == n.log && n1.baseIndex == n.baseIndex && n1.disk == n.disk && n1.commit == n.commit
    requires n1.outbound == n.outbound && n1.votersOld == n.votersOld && n1.votersNew == n.votersNew
    requires n1.pendingConfig == n.pendingConfig && !n1.faulted && n1.id == n.id
    requires n.role == Leader ==> n1.role == Leader && n1.term == n.term && n1.snapshot == n.snapshot
    requires x1.log == x.log && x1.disk == x.disk && x1.outbound == x.outbound
    ensures Like(known, n1, x1)
  {
    hide DiskPair, Suffix, Ordinary;
  }

  lemma {:induction false} BroadcastAlike(known: set<Message>, n: Node, x: Node, k: nat)
    requires Like(known, n, x) && !n.faulted && n.role == Leader
    ensures var n' := BroadcastFrom(n, k);
            Like(known, n', BroadcastFrom(x, k)) && n' == n.(outbound := n'.outbound, next := n'.next)
    decreases |n.peers| - k
  {
    hide Like, AppendToContext, IsVoter;
    LikePeers(known, n, x);
    if k < |n.peers| {
      SameVoters(n, x);
      AppendToAlike(known, n, x, n.peers[k], 0);
      if IsVoter(n, n.peers[k]) {
        LikePeers(known, AppendTo(n, n.peers[k]), AppendTo(x, n.peers[k]));
        BroadcastAlike(known, AppendTo(n, n.peers[k]), AppendTo(x, n.peers[k]), k + 1);
      } else {
        BroadcastAlike(known, n, x, k + 1);
      }
    }
  }

  lemma {:induction false} ReadContextAlike(known: set<Message>, n: Node, x: Node, k: nat, context: nat)
    requires Like(known, n, x) && !n.faulted && n.role == Leader
    ensures Like(known, SendReadContext(n, k, context), SendReadContext(x, k, context))
    decreases |n.peers| - k
  {
    hide Like, AppendToContext;
    LikePeers(known, n, x);
    if k < |n.peers| {
      AppendToAlike(known, n, x, n.peers[k], context);
      ReadContextAlike(known, AppendToContext(n, n.peers[k], context), AppendToContext(x, n.peers[k], context), k + 1,
                       context);
    }
  }

  // ------------------------------------------------------------ appending as leader

  lemma SameOut(known: set<Message>, n: Node, x: Node, n1: Node, x1: Node)
    requires Out(known, n, x) && n1.outbound == n.outbound && x1.outbound == x.outbound
    requires n.role == Leader ==> n1.role == Leader && n1.id == n.id && n1.term == n.term && n1.snapshot == n.snapshot
    ensures Out(known, n1, x1)
  {}

  lemma ApplyNothing(n: Node, previous: nat)
    requires NoConfig(n)
    ensures ApplyCommitted(n, previous) == n
  {
    ApplyFixed(n, Max(previous, n.baseIndex) + 1, n.commit);
  }

  /** The entry is in both logs and on both media. */
  lemma StoredAlike(n: Node, x: Node, at: nat, e: Entry)
    requires Running(n, x) && n.baseIndex < at <= LastIndex(n) + 1 && Ordinary(e)
    ensures AppendEntry(n.disk, at, e).Ok? && AppendEntry(x.disk, at, e).Ok?
    ensures var d1, e1 := AppendEntry(n.disk, at, e).value, AppendEntry(x.disk, at, e).value;
            d1.image == n.disk.image && DiskView(Unacknowledged(n.disk, d1), Unacknowledged(x.disk, e1))
            && Running(n.(disk := d1, log := n.log[..at - n.baseIndex] + [e]), x.(disk := e1, log := x.log[..at] + [e]))
  {
    hide AppendEntry, DiskView;
    SameEntries(n, x, 0);
    EntryPair(n.disk, x.disk, at, e);
    SuffixCut(n.baseIndex, n.log, x.log, at);
    SuffixAppend(n.baseIndex, n.log[..at - n.baseIndex], x.log[..at], e);
  }

  lemma AppendLocalAlike(known: set<Message>, n: Node, x: Node, e: Entry)
    requires Like(known, n, x) && !n.faulted && n.commit <= LastIndex(n) && Ordinary(e)
    ensures var (n', ok) := AppendLocal(n, e); var (x', ok') := AppendLocal(x, e);
            ok == ok' && Like(known, n', x') && (n'.faulted <==> !ok)
            && (ok ==> n'.role == n.role && n'.commit <= LastIndex(n'))
  {
    hide AppendEntry, DiskView, Write, Quorum, PersistHard, ApplyCommitted, Out, DiskPair, Suffix,
         NoConfig, Or, NodeBit;
    LikePeers(known, n, x);
    SameEntries(n, x, 0);
    var at := LastIndex(n) + 1;
    assert n.log[..|n.log|] == n.log && x.log[..|x.log|] == x.log;
    StoredAlike(n, x, at, e);
    var a, b := AppendEntry(n.disk, at, e), AppendEntry(x.disk, at, e);
    WriteAlike(n, x, a, b);
    var (n1, ok) := Write(n, a);
    var x1 := Write(x, b).0;
    if !ok {
      StoppedOut(known, n1, x1);
    } else {
      var n2, x2 := n1.(log := n1.log + [e]), x1.(log := x1.log + [e]);
      PlanAlike(n.(disk := a.value, log := n.log + [e]), x.(disk := b.value, log := x.log + [e]), n2, x2);
      SameOut(known, n, x, n2, x2);
      SameVoters(n2, x2);
      SameEntries(n2, x2, 0);
      MakeLike(known, n2, x2);
      if Quorum(n2, NodeBit(n2.id)) { CommitLastAlike(known, n2, x2, n.commit); }
    }
  }

  /** A node that is a quorum commits all it has. */
  lemma CommitLastAlike(known: set<Message>, n: Node, x: Node, previous: nat)
    requires Like(known, n, x) && !n.faulted && n.commit <= LastIndex(n) == LastIndex(x)
    ensures var h := HardState(n.term, n.votedFor, LastIndex(n));
            var (n1, ok) := PersistHard(n, h); var (x1, ok') := PersistHard(x, h);
            ok == ok' && (n1.faulted <==> !ok) && x.term == n.term && x.votedFor == n.votedFor
            && if ok then
                 var n2 := ApplyCommitted(n1.(commit := LastIndex(n)), previous);
                 var x2 := ApplyCommitted(x1.(commit := LastIndex(n)), previous);
                 Like(known, n2, x2) && !n2.faulted && n2.role == n.role && n2.commit <= LastIndex(n2)
               else Like(known, n1, x1)
  {
    hide PersistHard, DiskView, Out, DiskPair, Suffix, NoConfig, ApplyCommitted;
    LikePeers(known, n, x);
    var h := HardState(n.term, n.votedFor, LastIndex(n));
    PersistAlike(n, x, h);
    var (n1, ok) := PersistHard(n, h);
    var x1 := PersistHard(x, h).0;
    if ok {
      var n2, x2 := n1.(commit := LastIndex(n)), x1.(commit := LastIndex(n));
      ApplyNothing(n2, previous);
      ApplyNothing(x2, previous);
      SameOut(known, n, x, n2, x2);
    } else {
      StoppedOut(known, n1, x1);
    }
  }

  lemma PlanAlike(n: Node, x: Node, n1: Node, x1: Node)
    requires Running(n, x) && n1 == n.(plan := n1.plan) && x1 == x.(plan := n1.plan)
    ensures Running(n1, x1)
  {
    hide DiskPair, Suffix, Ordinary;
  }

  lemma BecomeLeaderAlike(known: set<Message>, n: Node, x: Node)
    requires Like(known, n, x) && !n.faulted && n.role != Leader && n.commit <= LastIndex(n)
    ensures Like(known, BecomeLeader(n), BecomeLeader(x))
  {
    hide Like, AppendLocal, BroadcastFrom;
    LikePeers(known, n, x);
    var n0, x0 := n.(role := Leader, leader := n.id, elapsed := 0), x.(role := Leader, leader := x.id, elapsed := 0);
    NextAlike(known, n, x, n0, x0);
    AppendLocalAlike(known, n0, x0, NoopEntry(n.term));
    var (n1, ok) := AppendLocal(n0, NoopEntry(n.term));
    var x1 := AppendLocal(x0, NoopEntry(n.term)).0;
    if ok {
      LikePeers(known, n1, x1);
      SameEntries(n1, x1, 0);
      var last := LastIndex(n1) + 1;
      var n2 := n1.(next := Reset(n1.next, n1.peers, last), matched := Reset(n1.matched, n1.peers, 0));
      var x2 := x1.(next := Reset(x1.next, x1.peers, last), matched := Reset(x1.matched, x1.peers, 0));
      NextAlike(known, n1, x1, n2, x2);
      BroadcastAlike(known, n2, x2, 0);
    }
  }

  lemma StartElectionAlike(known: set<Message>, n: Node, x: Node)
    requires Like(known, n, x) && !n.faulted && n.role != Leader && n.commit <= LastIndex(n)
    ensures Like(known, StartElection(n), StartElection(x))
  {
    hide Like, PersistHard, BecomeLeader, SendToPeers, Quorum, Out, Running, Stopped, Suffix, Or, NodeBit;
    LikePeers(known, n, x);
    var h := HardState(n.term + 1, n.id, n.commit);
    PersistAlike(n, x, h);
    var (n1, ok) := PersistHard(n, h);
    var x1 := PersistHard(x, h).0;
    if !ok {
      StoppedOut(known, n1, x1);
    } else {
      var n2 := n1.(role := Candidate, term := n.term + 1, votedFor := n.id, elapsed := 0,
                    voteMask := NodeBit(n.id), preVoteMask := 0);
      var x2 := x1.(role := Candidate, term := x.term + 1, votedFor := x.id, elapsed := 0,
                    voteMask := NodeBit(x.id), preVoteMask := 0);
      Campaigning(known, n, x, n1, x1, n2, x2);
      var last := LastIndex(n2);
      SameEntries(n2, x2, last);
      var f := (p: NodeId) => RequestVote(n2.id, p, n2.term, last, TermAt(n2, last));
      var last' := LastIndex(x2);
      var g := (p: NodeId) => RequestVote(x2.id, p, x2.term, last', TermAt(x2, last'));
      SendToPeersAlike(known, n2, x2, 0, f, g);
      var n3, x3 := SendToPeers(n2, 0, f), SendToPeers(x2, 0, g);
      LikePeers(known, n3, x3);
      SameVoters(n3, x3);
      if Quorum(n3, n3.voteMask) { BecomeLeaderAlike(known, n3, x3); }
    }
  }

  lemma Campaigning(known: set<Message>, n: Node, x: Node, n1: Node, x1: Node, n2: Node, x2: Node)
    requires Like(known, n, x) && !n.faulted && n.role != Leader
    requires Running(n1.(commit := n.commit), x1.(commit := n.commit))
    requires n1 == n.(disk := n1.disk, plan := n1.plan) && x1 == x.(disk := x1.disk, plan := n1.plan)
    requires n2 == n1.(role := Candidate, term := n2.term, votedFor := n2.votedFor, elapsed := n2.elapsed,
                       voteMask := n2.voteMask, preVoteMask := n2.preVoteMask)
    requires Fields(n2, x2) && x2.log == x1.log && x2.disk == x1.disk && x2.outbound == x1.outbound
    ensures Like(known, n2, x2) && n2.log == n.log && n2.baseIndex == n.baseIndex && n2.commit == n.commit
  {
    hide DiskPair, Suffix, Ordinary;
  }

  lemma StartPreVoteAlike(known: set<Message>, n: Node, x: Node)
    requires Like(known, n, x) && !n.faulted && n.role != Leader && n.commit <= LastIndex(n)
    ensures Like(known, StartPreVote(n), StartPreVote(x))
  {
    hide Like, StartElection, SendToPeers, Quorum, Running, Suffix, Or, NodeBit;
    LikePeers(known, n, x);
    var n1 := n.(elapsed := 0, preVoteTerm := n.term + 1, leader := 0, preVoteMask := NodeBit(n.id));
    var x1 := x.(elapsed := 0, preVoteTerm := x.term + 1, leader := 0, preVoteMask := NodeBit(x.id));
    NextAlike(known, n, x, n1, x1);
    var last := LastIndex(n1);
    SameEntries(n1, x1, last);
    var f := (p: NodeId) => PreVote(n1.id, p, n1.preVoteTerm, last, TermAt(n1, last));
    var last' := LastIndex(x1);
    var g := (p: NodeId) => PreVote(x1.id, p, x1.preVoteTerm, last', TermAt(x1, last'));
    SendToPeersAlike(known, n1, x1, 0, f, g);
    var n2, x2 := SendToPeers(n1, 0, f), SendToPeers(x1, 0, g);
    LikePeers(known, n2, x2);
    SameVoters(n2, x2);
    if Quorum(n2, n2.preVoteMask) { StartElectionAlike(known, n2, x2); }
  }

  lemma OnPreVoteResponseAlike(known: set<Message>, n: Node, x: Node, m: Message)
    requires Like(known, n, x) && !n.faulted && m.PreVoteResponse? && n.commit <= LastIndex(n)
    ensures Like(known, OnPreVoteResponse(n, m), OnPreVoteResponse(x, m))
  {
    hide Like, StartElection, Quorum, IsVoter, Or, NodeBit;
    LikePeers(known, n, x);
    SameVoters(n, x);
    if n.role != Leader && IsVoter(n, m.from) && m.term == n.term + 1 && m.term == n.preVoteTerm && !m.reject {
      var n1 := n.(preVoteMask := Or(n.preVoteMask, NodeBit(m.from)));
      var x1 := x.(preVoteMask := Or(x.preVoteMask, NodeBit(m.from)));
      NextAlike(known, n, x, n1, x1);
      LikePeers(known, n1, x1);
      SameVoters(n1, x1);
      if Quorum(n1, n1.preVoteMask) { StartElectionAlike(known, n1, x1); }
    }
  }

  lemma OnVoteResponseAlike(known: set<Message>, n: Node, x: Node, m: Message)
    requires Like(known, n, x) && !n.faulted && m.RequestVoteResponse? && n.commit <= LastIndex(n)
    ensures Like(known, OnVoteResponse(n, m), OnVoteResponse(x, m))
  {
    hide Like, BecomeLeader, Quorum, IsVoter, Or, NodeBit;
    LikePeers(known, n, x);
    SameVoters(n, x);
    if n.role == Candidate && IsVoter(n, m.from) && m.term == n.term && !m.reject {
      var n1 := n.(voteMask := Or(n.voteMask, NodeBit(m.from)));
      var x1 := x.(voteMask := Or(x.voteMask, NodeBit(m.from)));
      NextAlike(known, n, x, n1, x1);
      LikePeers(known, n1, x1);
      SameVoters(n1, x1);
      if Quorum(n1, n1.voteMask) { BecomeLeaderAlike(known, n1, x1); }
    }
  }

  lemma SameUpToDate(n: Node, x: Node, logIndex: nat, logTerm: nat)
    requires Running(n, x)
    ensures UpToDate(n, logIndex, logTerm) == UpToDate(x, logIndex, logTerm)
  {
    SameEntries(n, x, LastIndex(n));
  }

  lemma OnPreVoteAlike(known: set<Message>, n: Node, x: Node, m: Message)
    requires Like(known, n, x) && !n.faulted && m.PreVote?
    ensures Like(known, OnPreVote(n, m), OnPreVote(x, m))
  {
    hide Like, IsVoter, UpToDate;
    LikePeers(known, n, x);
    SameVoters(n, x);
    SameUpToDate(n, x, m.logIndex, m.logTerm);
    var grant := IsVoter(n, m.from) && m.term >= n.term + 1 && UpToDate(n, m.logIndex, m.logTerm)
                 && !(n.leader != 0 && n.elapsed < n.timeout);
    SendAlike(known, n, x, PreVoteResponse(n.id, m.from, m.term, !grant));
  }

  lemma OnVoteAlike(known: set<Message>, n: Node, x: Node, m: Message)
    requires Like(known, n, x) && !n.faulted && m.RequestVote?
    ensures Like(known, OnVote(n, m), OnVote(x, m))
  {
    hide Like, IsVoter, UpToDate, PersistHard;
    LikePeers(known, n, x);
    SameVoters(n, x);
    SameUpToDate(n, x, m.logIndex, m.logTerm);
    var grant := IsVoter(n, m.from) && m.term == n.term && (n.votedFor == 0 || n.votedFor == m.from)
                 && UpToDate(n, m.logIndex, m.logTerm);
    if grant {
      var h := HardState(n.term, m.from, n.commit);
      PersistAlike(n, x, h);
      var (n1, ok) := PersistHard(n, h);
      var x1 := PersistHard(x, h).0;
      if !ok {
        StoppedOut(known, n1, x1);
      } else {
        var n2, x2 := n1.(votedFor := m.from, elapsed := 0), x1.(votedFor := m.from, elapsed := 0);
        Persisted(known, n, x, n1, x1, h.commit);
        NextAlike(known, n1, x1, n2, x2);
        SendAlike(known, n2, x2, RequestVoteResponse(n2.id, m.from, n2.term, false));
      }
    } else {
      SendAlike(known, n, x, RequestVoteResponse(n.id, m.from, n.term, true));
    }
  }

  /** After a hard state was stored on both, and the commit index it carries was taken over. */
  lemma Persisted(known: set<Message>, n: Node, x: Node, n1: Node, x1: Node, commit: nat)
    requires Like(known, n, x) && !n.faulted && Running(n1.(commit := commit), x1.(commit := commit))
    requires n1 == n.(disk := n1.disk, plan := n1.plan) && x1 == x.(disk := x1.disk, plan := n1.plan)
    ensures Like(known, n1.(commit := commit), x1.(commit := commit))
  {
    hide DiskPair, Suffix, NoConfig;
    SameOut(known, n, x, n1.(commit := commit), x1.(commit := commit));
  }

  // ------------------------------------------------------------ following

  lemma FollowerAppendAlike(known: set<Message>, n: Node, x: Node, at: nat, e: Entry)
    requires Like(known, n, x) && !n.faulted && n.role == Follower
    requires n.baseIndex < at <= LastIndex(n) + 1 && Ordinary(e)
    ensures var (n', ok) := FollowerAppend(n, at, e); var (x', ok') := FollowerAppend(x, at, e);
            ok == ok' && Like(known, n', x') && (n'.faulted <==> !ok) && (ok ==> n'.role == Follower)
  {
    hide Like, Write, AppendEntry, DiskView, RebuildPending, Out, Suffix, DiskPair, NoConfig, Unacknowledged;
    LikePeers(known, n, x);
    SameEntries(n, x, at);
    if InLog(n, at) && TermAt(n, at) == e.term {
    } else {
      var n0, x0 := n.(log := n.log[..at - n.baseIndex]), x.(log := x.log[..at]);
      CutAlike(n, x, at);
      assert n.log[..|n.log|] == n.log && x.log[..|x.log|] == x.log;
      StoredAlike(n, x, at, e);
      var a, b := AppendEntry(n.disk, at, e), AppendEntry(x.disk, at, e);
      WriteAlike(n0, x0, a, b);
      var (n2, ok) := Write(n0, a);
      var x2 := Write(x0, b).0;
      if !ok {
        StoppedOut(known, n2, x2);
      } else {
        var n3, x3 := n2.(log := n2.log + [e]), x2.(log := x2.log + [e]);
        PlanAlike(n.(disk := a.value, log := n.log[..at - n.baseIndex] + [e]),
                  x.(disk := b.value, log := x.log[..at] + [e]), n3, x3);
        LikeOut(known, n, x);
        SameOut(known, n, x, n3, x3);
        MakeLike(known, n3, x3);
      }
    }
  }

  lemma LikeOut(known: set<Message>, n: Node, x: Node)
    requires Like(known, n, x)
    ensures Out(known, n, x)
  {}

  lemma MakeLike(known: set<Message>, n: Node, x: Node)
    requires Out(known, n, x) && Running(n, x)
    ensures Like(known, n, x)
  {}

  lemma CutAlike(n: Node, x: Node, at: nat)
    requires Running(n, x) && n.baseIndex < at <= LastIndex(n) + 1
    ensures var n0, x0 := n.(log := n.log[..at - n.baseIndex]), x.(log := x.log[..at]);
            Running(n0, x0) && RebuildPending(n0) == n0 && RebuildPending(x0) == x0
  {
    hide DiskPair;
    SuffixCut(n.baseIndex, n.log, x.log, at);
    RebuildFixed(n.(log := n.log[..at - n.baseIndex]));
    RebuildFixed(x.(log := x.log[..at]));
  }

  lemma FollowerCommitAlike(known: set<Message>, n: Node, x: Node, m: Message)
    requires Like(known, n, x) && !n.faulted && n.role == Follower && m.Append?
    ensures var (n', ok) := FollowerCommit(n, m); var (x', ok') := FollowerCommit(x, m);
            ok == ok' && Like(known, n', x') && (n'.faulted <==> !ok)
  {
    hide Like, PersistHard, ApplyConfigurations;
    LikePeers(known, n, x);
    if m.commit > n.commit && MatchOf(m) > n.commit {
      var target := Min(m.commit, MatchOf(m));
      var h := HardState(n.term, n.votedFor, target);
      PersistAlike(n, x, h);
      var (n1, ok) := PersistHard(n, h);
      var x1 := PersistHard(x, h).0;
      if !ok {
        StoppedOut(known, n1, x1);
      } else {
        Persisted(known, n, x, n1, x1, target);
        ApplyNothing(n1.(commit := target), n.commit);
        ApplyNothing(x1.(commit := target), x.commit);
      }
    }
  }

  lemma RejectsAlike(n: Node, x: Node, m: Message)
    requires Running(n, x) && m.Append? && m.logIndex >= n.baseIndex
    ensures RejectsAppend(n, m) == RejectsAppend(x, m) && LastIndex(n) == LastIndex(x)
  {
    hide DiskPair, Suffix, NoConfig;
    SameEntries(n, x, m.logIndex);
  }

  lemma OnAppendAlike(known: set<Message>, n: Node, x: Node, m: Message)
    requires Like(known, n, x) && !n.faulted && m.Append? && m.logIndex >= n.baseIndex
    requires n.role == Leader ==> RejectsAppend(n, m)
    requires m.entry.Some? ==> Ordinary(m.entry.value)
    ensures Like(known, OnAppend(n, m), OnAppend(x, m))
  {
    hide Like, FollowerAppend, FollowerCommit, RejectsAppend;
    LikePeers(known, n, x);
    RejectsAlike(n, x, m);
    if RejectsAppend(n, m) {
      SendAlike(known, n, x, AppendResponse(n.id, m.from, n.term, true, LastIndex(n), m.context));
    } else {
      AcceptedInLog(n, m);
      var n1 := n.(role := Follower, leader := m.from, elapsed := 0);
      var x1 := x.(role := Follower, leader := m.from, elapsed := 0);
      NextAlike(known, n, x, n1, x1);
      var n2, x2, ok := n1, x1, true;
      if m.entry.Some? {
        FollowerAppendAlike(known, n1, x1, m.logIndex + 1, m.entry.value);
        var (n', ok') := FollowerAppend(n1, m.logIndex + 1, m.entry.value);
        n2, x2, ok := n', FollowerAppend(x1, m.logIndex + 1, m.entry.value).0, ok';
      }
      if ok {
        FollowerCommitAlike(known, n2, x2, m);
        var (n3, ok3) := FollowerCommit(n2, m);
        var x3 := FollowerCommit(x2, m).0;
        LikePeers(known, n3, x3);
        if ok3 { SendAlike(known, n3, x3, AppendResponse(n3.id, m.from, n3.term, false, MatchOf(m), m.context)); }
      }
    }
  }

  lemma AcceptedInLog(n: Node, m: Message)
    requires m.Append? && !RejectsAppend(n, m)
    ensures InLog(n, m.logIndex)
  {}

  // ------------------------------------------------------------ collecting acknowledgements

  lemma {:induction false} SameAcked(n: Node, x: Node, index: nat, k: nat)
    requires n.id == x.id && n.peers == x.peers && n.matched == x.matched && k <= |n.peers|
    ensures AckedFrom(n, index, k) == AckedFrom(x, index, k)
  {
    if k > 0 { SameAcked(n, x, index, k - 1); }
  }

  lemma {:induction false} SameTarget(n: Node, x: Node, index: nat)
    requires Running(n, x)
    ensures HighestCommittable(n, index) == HighestCommittable(x, index)
  {
    hide Running, CanCommit, TermAt;
    RunningFields(n, x);
    if index > n.commit {
      SameVoters(n, x);
      SameEntries(n, x, index);
      SameAcked(n, x, index, |n.peers|);
      SameTarget(n, x, index - 1);
    }
  }

  lemma RunningFields(n: Node, x: Node)
    requires Running(n, x)
    ensures Fields(n, x) && Suffix(n.baseIndex, n.log, x.log) && n.baseIndex <= n.commit && NoConfig(n) && NoConfig(x)
    ensures VotersKept(n) && DiskPair(n.disk, x.disk)
  {}

  lemma LeaderCommitAlike(known: set<Message>, n: Node, x: Node)
    requires Like(known, n, x) && !n.faulted && n.role == Leader
    ensures var (n', ok) := LeaderCommit(n); var (x', ok') := LeaderCommit(x);
            ok == ok' && Like(known, n', x') && (n'.faulted <==> !ok) && (ok ==> n'.role == Leader)
  {
    hide Like, PersistHard, ApplyConfigurations, BroadcastFrom, HighestCommittable;
    LikePeers(known, n, x);
    SameEntries(n, x, 0);
    SameTarget(n, x, LastIndex(n));
    D.TargetIsHigher(n);
    var target := HighestCommittable(n, LastIndex(n));
    if target != n.commit {
      var h := HardState(n.term, n.votedFor, target);
      PersistAlike(n, x, h);
      var (n1, ok) := PersistHard(n, h);
      var x1 := PersistHard(x, h).0;
      if !ok {
        StoppedOut(known, n1, x1);
      } else {
        var n2, x2 := n1.(commit := target), x1.(commit := target);
        Persisted(known, n, x, n1, x1, target);
        LikePeers(known, n2, x2);
        ApplyNothing(n2, n.commit);
        ApplyNothing(x2, x.commit);
        BroadcastAlike(known, n2, x2, 0);
      }
    }
  }

  lemma RecordReadAckAlike(known: set<Message>, n: Node, x: Node, m: Message)
    requires Like(known, n, x) && !n.faulted && m.AppendResponse?
    ensures var n', x' := RecordReadAck(n, m), RecordReadAck(x, m);
            Like(known, n', x') && !n'.faulted && n'.role == n.role && n'.log == n.log && n'.baseIndex == n.baseIndex
  {
    hide Like, Quorum, IsVoter, Or, NodeBit;
    LikePeers(known, n, x);
    SameVoters(n, x);
    var mask := Or(n.readAckMask, NodeBit(m.from));
    var n1, x1 := n.(readAckMask := mask), x.(readAckMask := mask);
    NextAlike(known, n, x, n1, x1);
    LikePeers(known, n1, x1);
    SameVoters(n1, x1);
    NextAlike(known, n1, x1, n1.(readIndex := n1.commit, readReady := true),
              x1.(readIndex := x1.commit, readReady := true));
  }

  lemma OnAppendResponseAlike(known: set<Message>, n: Node, x: Node, m: Message)
    requires Like(known, n, x) && !n.faulted && m.AppendResponse?
    ensures Like(known, OnAppendResponse(n, m), OnAppendResponse(x, m))
  {
    hide Like, RecordReadAck, LeaderCommit, AppendToContext;
    RecordReadAckAlike(known, n, x, m);
    var n1, x1 := RecordReadAck(n, m), RecordReadAck(x, m);
    LikePeers(known, n1, x1);
    SameEntries(n1, x1, 0);
    if n1.role != Leader || m.term != n1.term || m.matched >= LastIndex(n1) + 1 {
    } else if m.reject {
      var next := At(n1.next, m.from);
      var n2 := if next > 1 then n1.(next := n1.next[m.from := next - 1]) else n1;
      var x2 := if next > 1 then x1.(next := x1.next[m.from := next - 1]) else x1;
      NextAlike(known, n1, x1, n2, x2);
      AppendToAlike(known, n2, x2, m.from, 0);
    } else {
      var n2 := n1.(matched := n1.matched[m.from := m.matched], next := n1.next[m.from := m.matched + 1]);
      var x2 := x1.(matched := x1.matched[m.from := m.matched], next := x1.next[m.from := m.matched + 1]);
      NextAlike(known, n1, x1, n2, x2);
      LeaderCommitAlike(known, n2, x2);
      var (n3, ok) := LeaderCommit(n2);
      var x3 := LeaderCommit(x2).0;
      LikePeers(known, n3, x3);
      SameEntries(n3, x3, 0);
      if ok && At(n3.next, m.from) < LastIndex(n3) + 1 { AppendToAlike(known, n3, x3, m.from, 0); }
    }
  }

  lemma OnInstallSnapshotResponseAlike(known: set<Message>, n: Node, x: Node, m: Message)
    requires Like(known, n, x) && !n.faulted && m.InstallSnapshotResponse?
    ensures Like(known, OnInstallSnapshotResponse(n, m), OnInstallSnapshotResponse(x, m))
  {
    hide Like, AppendToContext, IsVoter;
    LikePeers(known, n, x);
    SameVoters(n, x);
    if !(n.role != Leader || m.term != n.term || m.reject || !IsVoter(n, m.from)) {
      var n1 := if m.matched > At(n.matched, m.from)
                then n.(matched := n.matched[m.from := m.matched], next := n.next[m.from := m.matched + 1]) else n;
      var x1 := if m.matched > At(x.matched, m.from)
                then x.(matched := x.matched[m.from := m.matched], next := x.next[m.from := m.matched + 1]) else x;
      NextAlike(known, n, x, n1, x1);
      SameEntries(n1, x1, 0);
      if At(n1.next, m.from) <= LastIndex(n1) { AppendToAlike(known, n1, x1, m.from, 0); }
    }
  }

  // ------------------------------------------------------------ every call

  lemma ObserveAlike(known: set<Message>, n: Node, x: Node, m: Message)
    requires Like(known, n, x) && !n.faulted && forall q :: q in n.outbound ==> q.msg in known
    ensures var (n', ok) := ObserveTerm(n, m); var (x', ok') := ObserveTerm(x, m);
            ok == ok' && Like(known, n', x') && (n'.faulted <==> !ok)
            && (ok ==> n'.log == n.log && n'.baseIndex == n.baseIndex && n'.commit == n.commit
                       && n'.outbound == n.outbound && n'.votersOld == n.votersOld)
  {
    hide PersistHard, DiskPair, Suffix, NoConfig;
    if !IsPreVote(m) && m.term > n.term {
      var h := HardState(m.term, 0, n.commit);
      PersistAlike(n, x, h);
      var (n1, ok) := PersistHard(n, h);
      var x1 := PersistHard(x, h).0;
      if !ok {
        StoppedOut(known, n1, x1);
      } else {
        var n2 := n1.(role := Follower, term := m.term, votedFor := 0, leader := 0, readReady := false);
        var x2 := x1.(role := Follower, term := m.term, votedFor := 0, leader := 0, readReady := false);
        assert Out(known, n2, x2);
        SteppedDown(n1.(commit := n.commit), x1.(commit := n.commit), n2, x2);
      }
    }
  }

  lemma SteppedDown(n: Node, x: Node, n1: Node, x1: Node)
    requires Running(n, x) && Fields(n1, x1) && x1.log == x.log && x1.disk == x.disk
    requires n1 == n.(role := n1.role, term := n1.term, votedFor := n1.votedFor, leader := n1.leader,
                      readReady := n1.readReady)
    ensures Running(n1, x1)
  {
    hide DiskPair, Suffix, Ordinary;
  }

  lemma DispatchAlike(known: set<Message>, n: Node, x: Node, m: Message)
    requires Like(known, n, x) && !n.faulted && n.commit <= LastIndex(n) && !m.InstallSnapshot?
    requires m.Append? ==> m.logIndex >= n.baseIndex && (n.role == Leader ==> RejectsAppend(n, m))
                           && (m.entry.Some? ==> Ordinary(m.entry.value))
    ensures Like(known, Dispatch(n, m), Dispatch(x, m))
  {
    hide Like, OnPreVote, OnPreVoteResponse, OnVote, OnVoteResponse, OnAppend, OnAppendResponse, StartElection,
         OnInstallSnapshotResponse;
    LikePeers(known, n, x);
    match m
    case PreVote(_, _, _, _, _) => OnPreVoteAlike(known, n, x, m);
    case PreVoteResponse(_, _, _, _) => OnPreVoteResponseAlike(known, n, x, m);
    case RequestVote(_, _, _, _, _) => OnVoteAlike(known, n, x, m);
    case RequestVoteResponse(_, _, _, _) => OnVoteResponseAlike(known, n, x, m);
    case Append(_, _, _, _, _, _, _, _) => OnAppendAlike(known, n, x, m);
    case AppendResponse(_, _, _, _, _, _) => OnAppendResponseAlike(known, n, x, m);
    case TimeoutNow(_, _, _) =>
      if n.role == Follower && m.term == n.term && m.from == n.leader { StartElectionAlike(known, n, x); }
    case InstallSnapshotResponse(_, _, _, _, _) => OnInstallSnapshotResponseAlike(known, n, x, m);
  }

  lemma StepAlike(known: set<Message>, n: Node, x: Node, m: Message)
    requires Like(known, n, x) && n.commit <= LastIndex(n) && !m.InstallSnapshot?
    requires forall q :: q in n.outbound ==> q.msg in known
    requires m.Append? ==> m.logIndex >= n.baseIndex && (n.role == Leader ==> m.term != n.term)
                           && (m.entry.Some? ==> Ordinary(m.entry.value))
    ensures Like(known, Step(n, m), Step(x, m))
  {
    hide Like, ObserveTerm, Dispatch;
    LikePeers(known, n, x);
    if !n.faulted {
      ObserveAlike(known, n, x, m);
      ObservedRole(n, m);
      var (n1, ok) := ObserveTerm(n, m);
      var x1 := ObserveTerm(x, m).0;
      if ok {
        LikePeers(known, n1, x1);
        DispatchAlike(known, n1, x1, m);
      }
    }
  }

  lemma ObservedRole(n: Node, m: Message)
    ensures var (n1, ok) := ObserveTerm(n, m);
            ok && m.Append? && n1.role == Leader && (n.role == Leader ==> m.term != n.term) ==> m.term < n1.term
  {
    hide SaveHard;
  }

  lemma TickAlike(known: set<Message>, n: Node, x: Node)
    requires Like(known, n, x) && n.commit <= LastIndex(n)
    ensures Like(known, Tick(n), Tick(x))
  {
    hide Like, StartPreVote, BroadcastFrom;
    LikePeers(known, n, x);
    if !n.faulted {
      var n1, x1 := n.(elapsed := n.elapsed + 1), x.(elapsed := x.elapsed + 1);
      NextAlike(known, n, x, n1, x1);
      if n1.role == Leader {
        if n1.elapsed >= 3 {
          NextAlike(known, n1, x1, n1.(elapsed := 0), x1.(elapsed := 0));
          BroadcastAlike(known, n1.(elapsed := 0), x1.(elapsed := 0), 0);
        }
      } else if n1.elapsed >= n1.timeout {
        StartPreVoteAlike(known, n1, x1);
      }
    }
  }

  lemma ProposeAlike(known: set<Message>, n: Node, x: Node, e: Entry)
    requires Like(known, n, x) && !n.faulted && n.role == Leader && n.commit <= LastIndex(n) && Ordinary(e)
    ensures Like(known, ProposeEntry(n, e), ProposeEntry(x, e))
  {
    hide Like, AppendLocal, BroadcastFrom;
    AppendLocalAlike(known, n, x, e);
    var (n1, ok) := AppendLocal(n, e);
    if ok { BroadcastAlike(known, n1, AppendLocal(x, e).0, 0); }
  }

  lemma StartReadAlike(known: set<Message>, n: Node, x: Node, context: nat)
    requires Like(known, n, x)
    ensures MayStartRead(n, context) == MayStartRead(x, context)
    ensures Like(known, StartReadIndex(n, context), StartReadIndex(x, context))
  {
    hide Like, Quorum, SendReadContext, TermAt, Or, NodeBit;
    LikePeers(known, n, x);
    if !n.faulted {
      SameVoters(n, x);
      SameEntries(n, x, n.commit);
      if MayStartRead(n, context) {
        var ready := Quorum(n, NodeBit(n.id));
        var n1 := n.(readContext := context, readAckMask := NodeBit(n.id), readReady := ready,
                     readIndex := if ready then n.commit else n.readIndex);
        var x1 := x.(readContext := context, readAckMask := NodeBit(x.id), readReady := ready,
                     readIndex := if ready then x.commit else x.readIndex);
        NextAlike(known, n, x, n1, x1);
        ReadContextAlike(known, n1, x1, 0, context);
      }
    }
  }

  lemma TransferAlike(known: set<Message>, n: Node, x: Node, target: NodeId)
    requires Like(known, n, x) && (n.faulted ==> n.role == Follower)
    ensures Like(known, TransferLeadership(n, target), TransferLeadership(x, target))
  {
    hide AppendToContext, IsVoter, Running, Out;
    LikePeers(known, n, x);
    if n.role == Leader {
      RunningFields(n, x);
      SameVoters(n, x);
      SameEntries(n, x, 0);
      if target != n.id && IsVoter(n, target) {
        if At(n.matched, target) < LastIndex(n) {
          AppendToAlike(known, n, x, target, 0);
        } else {
          SendAlike(known, n, x, TimeoutNow(n.id, target, n.term));
        }
      }
    }
  }

  /** The calls that the simulation covers as they are. */
  predicate Mirrored(n: Node, call: Call) {
    match call
    case CallStep(m) =>
      !m.InstallSnapshot?
      && (m.Append? ==> m.logIndex >= n.baseIndex && (n.role == Leader ==> m.term != n.term)
                        && (m.entry.Some? ==> m.entry.value.kind != KIND_JOINT && m.entry.value.kind != KIND_FINAL))
    case CallCompact(_, _) => false
    case CallProposeJoint(_) => false
    case CallProposeFinal => false
    case _ => true
  }

  /** Asked the same, both do the same. */
  lemma PerformAlike(known: set<Message>, n: Node, x: Node, call: Call, plan: seq<Outcome>)
    requires Like(known, n, x) && n.commit <= LastIndex(n) && Mirrored(n, call) && (n.faulted ==> n.role == Follower)
    requires forall q :: q in n.outbound ==> q.msg in known
    ensures Like(known, Perform(n, call, plan), Perform(x, call, plan))
  {
    hide Like, Step, Tick, ProposeEntry, StartReadIndex, TransferLeadership;
    LikePeers(known, n, x);
    var n0, x0 := n.(plan := plan), x.(plan := plan);
    Replanned(known, n, x, plan);
    match call
    case CallStep(m) => StepAlike(known, n0, x0, m);
    case CallTick => TickAlike(known, n0, x0);
    case CallPropose(command) =>
      if n.role == Leader && !n.faulted { ProposeAlike(known, n0, x0, Sentinel(n.term).(command := command)); }
    case CallProposeRequest(op, c, r, k, v) =>
      if n.role == Leader && !n.faulted {
        ProposeAlike(known, n0, x0, Entry(n.term, 0, KIND_NORMAL, 0, 0, op, c, r, k, v));
      }
    case CallStartRead(context) => StartReadAlike(known, n0, x0, context);
    case CallTransfer(target) => TransferAlike(known, n0, x0, target);
    case CallApply => AppliedAlike(known, n0, x0, ApplyEntries(n0), ApplyEntries(x0));
    case CallDrain => Drained(known, n0, x0);
  }

  lemma Replanned(known: set<Message>, n: Node, x: Node, plan: seq<Outcome>)
    requires Like(known, n, x)
    ensures Like(known, n.(plan := plan), x.(plan := plan))
  {
    hide DiskPair, Suffix, Ordinary, DiskView;
  }

  lemma AppliedAlike(known: set<Message>, n: Node, x: Node, n1: Node, x1: Node)
    requires Like(known, n, x) && n1 == n.(applied := n1.applied) && x1 == x.(applied := x1.applied)
    ensures Like(known, n1, x1)
  {
    hide DiskPair, Suffix, Ordinary, DiskView;
  }

  lemma Drained(known: set<Message>, n: Node, x: Node)
    requires Like(known, n, x)
    ensures Like(known, Drain(n), Drain(x))
  {
    hide DiskPair, Suffix, Ordinary, DiskView;
  }
}
