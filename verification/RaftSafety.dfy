/**
 Safety of every run of a cluster whose nodes crash, restart, compact and install snapshots:
 election safety, log matching, committed prefixes and the read barrier.
 */
module RaftSafety {
  import opened RaftTypes
  import opened RaftDisk
  import opened RaftNode
  import opened RaftHistory
  import opened RaftFixed
  import opened RaftCluster
  import opened RaftBarrier
  import opened RaftSim
  import opened RaftInstall
  import opened RaftCompaction
  import D = RaftDurable

  // ------------------------------------------------------------ runs

  /** A run: `states[k + 1]` follows from `states[k]` by `actions[k]`. */
  datatype Run = Run(states: seq<Cluster>, actions: seq<Action>)

  ghost predicate IsRun(r: Run) {
    && |r.states| == |r.actions| + 1
    && Init(r.states[0])
    && forall k :: 0 <= k < |r.actions| ==> Moves(r.states[k], r.actions[k], r.states[k + 1])
  }

  ghost predicate Starts(r: Run, k: nat, i: NodeId, context: nat) {
    && k < |r.actions| < |r.states|
    && r.actions[k].Act? && r.actions[k].node == i && r.actions[k].call == CallStartRead(context)
    && i in r.states[k].nodes && MayStartRead(r.states[k].nodes[i], context)
  }

  /** One partner and one history per state, each history later than the ones before. */
  ghost predicate Partners(r: Run, ws: seq<Cluster>, hs: seq<History>, upto: nat) {
    && upto < |r.states| && |ws| == |hs| == upto + 1
    && (forall k :: 0 <= k <= upto ==> Inv(r.states[k], ws[k], hs[k]))
    && (forall j, k :: 0 <= j <= k <= upto ==> Later(hs[j], hs[k]))
    && (forall k: nat, i, x :: k < upto && Starts(r, k, i, x) ==>
          i in ws[k].nodes && x in hs[k + 1].barriers && hs[k + 1].barriers[x] == BarrierNow(ws[k], i))
  }

  lemma {:induction false} PartnersExist(r: Run, upto: nat) returns (ws: seq<Cluster>, hs: seq<History>)
    requires IsRun(r) && upto < |r.states|
    ensures Partners(r, ws, hs, upto)
  {
    hide Inv, Later, Init, Moves, MayStartRead, BarrierNow;
    if upto == 0 {
      var h := InitIsPaired(r.states[0]);
      LaterRefl(h);
      ws, hs := [r.states[0]], [h];
    } else {
      var k := upto - 1;
      var before, past := PartnersExist(r, k);
      var w, h := MoveOk(r.states[k], before[k], past[k], r.actions[k], r.states[k + 1]);
      ws, hs := before + [w], past + [h];
      LaterRefl(h);
      SameKeys(r.states[k], before[k], past[k]);
      forall j | 0 <= j < upto ensures Later(hs[j], hs[upto]) { LaterTrans(past[j], past[k], h); }
    }
  }

  lemma SameKeys(c: Cluster, w: Cluster, h: History)
    requires Inv(c, w, h)
    ensures c.nodes.Keys == w.nodes.Keys
  {
    hide ClusterOk, Paired;
  }

  /** A node of a reachable state and its partner. */
  lemma PartnerOf(c: Cluster, w: Cluster, h: History, i: NodeId)
    requires Inv(c, w, h) && i in c.nodes
    ensures i in w.nodes && HistOk(h) && NodeOk(h, w.nodes[i]) && Paired(c.net, c.nodes[i], w.nodes[i])
    ensures c.nodes[i].id == w.nodes[i].id == i
    ensures var n, x := c.nodes[i], w.nodes[i];
            Fields(n, x) && Suffix(n.baseIndex, n.log, x.log) && DiskView(n.disk, x.disk) && VotersKept(n)
            && n.baseIndex <= n.commit <= LastIndex(n)
  {
    hide HistOk, NodeOk, MessageOk, Like, D.Sound, DiskView, Suffix;
    assert Paired(c.net, c.nodes[i], w.nodes[i]);
    PairFacts(c.net, h, c.nodes[i], w.nodes[i]);
  }

  // ------------------------------------------------------------ theorems

  /** Election safety: over a whole run, with crashes and restarts, a term has at most one leader. */
  lemma ElectionSafety(r: Run, a: nat, i: NodeId, b: nat, j: NodeId)
    requires IsRun(r) && a <= b < |r.states|
    requires i in r.states[a].nodes && j in r.states[b].nodes
    requires r.states[a].nodes[i].role == Leader && r.states[b].nodes[j].role == Leader
    requires r.states[a].nodes[i].term == r.states[b].nodes[j].term
    ensures i == j
  {
    hide IsRun, Inv, HistOk, LogOk, DiskOk, CommitOk, Paired, Suffix, DiskView;
    var ws, hs := PartnersExist(r, b);
    PartnerOf(r.states[a], ws[a], hs[a], i);
    PartnerOf(r.states[b], ws[b], hs[b], j);
    assert Later(hs[a], hs[b]);
  }

  /** Log matching: in every reachable state, equal terms at an index mean equal logs from the later base up to it. */
  lemma LogMatching(r: Run, s: nat, i: NodeId, j: NodeId, k: nat)
    requires IsRun(r) && s < |r.states| && i in r.states[s].nodes && j in r.states[s].nodes
    requires var a, b := r.states[s].nodes[i], r.states[s].nodes[j];
             a.baseIndex <= k <= LastIndex(a) && b.baseIndex <= k <= LastIndex(b) && TermAt(a, k) == TermAt(b, k)
    ensures var a, b := r.states[s].nodes[i], r.states[s].nodes[j];
            forall x: nat :: a.baseIndex <= x <= k && b.baseIndex <= x ==>
              TermAt(a, x) == TermAt(b, x) && (a.baseIndex < x && b.baseIndex < x ==> EntryAt(a, x) == EntryAt(b, x))
  {
    hide IsRun, Inv, Partners, HistOk, NodeOk, LogOk, Paired, Suffix, DiskView;
    var a, b := r.states[s].nodes[i], r.states[s].nodes[j];
    var x, y, h := PairNow(r, s, i, j);
    SameEntries(a, x, k);
    SameEntries(b, y, k);
    LogIsOk(h, x);
    LogIsOk(h, y);
    SameTermSamePrefix(h, x.log, y.log, k);
    forall l: nat | a.baseIndex <= l <= k && b.baseIndex <= l
      ensures TermAt(a, l) == TermAt(b, l) && (a.baseIndex < l && b.baseIndex < l ==> EntryAt(a, l) == EntryAt(b, l))
    {
      AgreeDown(x.log, y.log, k, l);
      SameEntries(a, x, l);
      SameEntries(b, y, l);
    }
  }

  lemma PairNow(r: Run, s: nat, i: NodeId, j: NodeId) returns (x: Node, y: Node, h: History)
    requires IsRun(r) && s < |r.states| && i in r.states[s].nodes && j in r.states[s].nodes
    ensures HistOk(h) && NodeOk(h, x) && NodeOk(h, y)
    ensures var n := r.states[s].nodes[i]; Fields(n, x) && Suffix(n.baseIndex, n.log, x.log)
    ensures var n := r.states[s].nodes[j]; Fields(n, y) && Suffix(n.baseIndex, n.log, y.log)
  {
    hide IsRun, Inv, HistOk, NodeOk, Paired, Suffix, DiskView, Later;
    var ws, hs := PartnersExist(r, s);
    PartnerOf(r.states[s], ws[s], hs[s], i);
    PartnerOf(r.states[s], ws[s], hs[s], j);
    x, y, h := ws[s].nodes[i], ws[s].nodes[j], hs[s];
  }

  lemma LaterCommit(h: History, h': History, log: Log, commit: nat, t: nat)
    requires Later(h, h') && CommittedAt(h, log, commit, t)
    ensures CommittedAt(h', log, commit, t)
  {
    assert Extends(h'.llog[t], h.llog[t], t);
    PrefixAgrees(h.llog[t], h'.llog[t], commit);
  }

  /**
   State machine safety: what any node ever committed at an index is what every node commits
   there, as far as their logs still reach. A snapshot's index and term are part of it.
   */
  lemma CommittedPrefix(r: Run, a: nat, i: NodeId, b: nat, j: NodeId, k: nat)
    requires IsRun(r) && a <= b < |r.states| && i in r.states[a].nodes && j in r.states[b].nodes
    requires var x, y := r.states[a].nodes[i], r.states[b].nodes[j];
             x.baseIndex <= k <= x.commit && y.baseIndex <= k <= y.commit
    ensures var x, y := r.states[a].nodes[i], r.states[b].nodes[j];
            InLog(x, k) && InLog(y, k) && TermAt(x, k) == TermAt(y, k)
            && (x.baseIndex < k && y.baseIndex < k ==> EntryAt(x, k) == EntryAt(y, k))
  {
    hide IsRun, Inv, HistOk, NodeOk, Later, Paired, Suffix, DiskView;
    var ws, hs := PartnersExist(r, b);
    assert Later(hs[a], hs[b]);
    PartnerOf(r.states[a], ws[a], hs[a], i);
    PartnerOf(r.states[b], ws[b], hs[b], j);
    SameEntries(r.states[a].nodes[i], ws[a].nodes[i], k);
    SameEntries(r.states[b].nodes[j], ws[b].nodes[j], k);
    CommittedAgree(hs[a], hs[b], ws[a].nodes[i], ws[b].nodes[j], k);
  }

  lemma CommittedAgree(h: History, h': History, x: Node, y: Node, k: nat)
    requires Later(h, h') && HistOk(h') && NodeOk(h, x) && NodeOk(h', y) && k <= x.commit && k <= y.commit
    ensures InLog(x, k) && InLog(y, k) && EntryAt(x, k) == EntryAt(y, k) && TermAt(x, k) == TermAt(y, k)
  {
    hide HistOk, DiskOk, LiveOk, Later, NodeOk, OutboundOk;
    Facts(h, x);
    Facts(h', y);
    if k == 0 {
      assert x.log[0] == Sentinel(0) == y.log[0];
    } else {
      var t: nat :| t <= x.disk.wal.hard.term && CommittedAt(h, x.log, x.commit, t);
      var u: nat :| u <= y.disk.wal.hard.term && CommittedAt(h', y.log, y.commit, u);
      LaterCommit(h, h', x.log, x.commit, t);
      CommittedPrefixesAgree(h', x.log, x.commit, t, y.log, y.commit, u, k);
      AgreeDown(x.log, y.log, k, k);
    }
  }

  // ------------------------------------------------------------ what a store keeps

  /** Whatever a node had committed or stored, its store remembers in every later state. */
  lemma StoredCommitGrows(r: Run, s: nat, a: nat, j: NodeId)
    requires IsRun(r) && s <= a < |r.states| && j in r.states[s].nodes
    ensures j in r.states[a].nodes
    ensures r.states[s].nodes[j].commit <= D.StoredCommit(r.states[a].nodes[j].disk)
  {
    hide IsRun, Inv, Later, D.Sound;
    var ws, hs := PartnersExist(r, s);
    PairIsSound(r.states[s], ws[s], hs[s], j);
    var n := r.states[s].nodes[j];
    var c := D.Claim(false, n.commit);
    SoundRaised(n);
    FloorHolds(r, s, a, j, c);
    SoundFloor(c, r.states[a].nodes[j]);
  }

  lemma SoundFloor(c: D.Claim, n: Node)
    requires D.Sound(c, n)
    ensures n.applied <= n.commit && c.floor <= D.StoredCommit(n.disk)
  {}

  lemma SoundRaised(n: Node)
    requires D.Sound(D.WHOLE, n)
    ensures D.Sound(D.Claim(false, n.commit), n)
  {
    hide D.PromisesBacked;
  }

  lemma NodeStepSound(c: D.Claim, s: Cluster, a: Action, s': Cluster, j: NodeId)
    requires Moves(s, a, s') && j in s.nodes && s.nodes[j].id == j && D.Sound(c, s.nodes[j]) && !c.whole
    ensures j in s'.nodes && D.Sound(c, s'.nodes[j])
  {
    hide D.Sound, Perform, Recover, Open;
    if a.node == j {
      match a
      case Act(i, call, plan) => D.PerformSound(c, s.nodes[i], call, plan);
      case Restart(i, timeout) => D.RebootSound(c, s.nodes[i], timeout);
    }
  }

  lemma {:induction false} FloorHolds(r: Run, s: nat, a: nat, j: NodeId, c: D.Claim)
    requires IsRun(r) && s <= a < |r.states| && j in r.states[s].nodes && D.Sound(c, r.states[s].nodes[j]) && !c.whole
    ensures j in r.states[a].nodes && D.Sound(c, r.states[a].nodes[j])
    decreases a
  {
    hide D.Sound, Moves, Init, Inv, Later;
    if s < a {
      FloorHolds(r, s, a - 1, j, c);
      var ws, hs := PartnersExist(r, a - 1);
      PartnerOf(r.states[a - 1], ws[a - 1], hs[a - 1], j);
      NodeStepSound(c, r.states[a - 1], r.actions[a - 1], r.states[a], j);
    }
  }

  /**
   Linearizable reads: whatever index the barrier `context` returns, at whatever later moment,
   is at least every index any node had ever committed by the time the barrier was started.
   */
  lemma ReadBarrier(r: Run, s: nat, j: NodeId, a: nat, i: NodeId, context: nat, b: nat, reader: NodeId)
    requires IsRun(r) && s <= a && Starts(r, a, i, context) && a < b < |r.states|
    requires reader in r.states[b].nodes && ReadIndex(r.states[b].nodes[reader], context).Some?
    requires j in r.states[s].nodes
    ensures reader == i
    ensures r.states[s].nodes[j].commit <= ReadIndex(r.states[b].nodes[reader], context).value
  {
    hide IsRun, Inv, HistOk, NodeOk, MayStartRead, Paired, Suffix, D.Sound;
    StoredCommitGrows(r, s, a, j);
    var ws, hs := PartnersExist(r, b);
    assert Starts(r, a, i, context);
    assert Later(hs[a + 1], hs[b]);
    PartnerOf(r.states[b], ws[b], hs[b], reader);
    PartnerOf(r.states[a], ws[a], hs[a], j);
    ReaderHolds(hs[b], ws[b].nodes[reader], context);
    assert hs[b].barriers[context] == BarrierNow(ws[a], i);
    assert j in BarrierNow(ws[a], i).floors;
  }

  lemma ReaderHolds(h: History, n: Node, context: nat)
    requires NodeOk(h, n) && ReadIndex(n, context).Some?
    ensures context in h.barriers && h.barriers[context].leader == n.id
    ensures forall j :: j in h.barriers[context].floors ==> h.barriers[context].floors[j] <= ReadIndex(n, context).value
  {
    hide DiskOk, LogOk, CommitOk;
    assert BarrierHolds(h, n);
  }

  /** The indexes of every node stay in their order. */
  lemma IndexesStayInRange(r: Run, s: nat, i: NodeId)
    requires IsRun(r) && s < |r.states| && i in r.states[s].nodes
    ensures var n := r.states[s].nodes[i]; n.baseIndex <= n.applied <= n.commit <= LastIndex(n)
  {
    hide IsRun, Inv, HistOk, NodeOk, Later, D.Sound, Like;
    var ws, hs := PartnersExist(r, s);
    PartnerOf(r.states[s], ws[s], hs[s], i);
    var n, x := r.states[s].nodes[i], ws[s].nodes[i];
    LogIsOk(hs[s], x);
    BaseApplied(n);
    if n.baseIndex > 0 { assert EntryOk(hs[s], x.log, n.baseIndex); }
  }

  lemma BaseApplied(n: Node)
    requires D.Sound(D.WHOLE, n)
    ensures n.applied <= n.commit && (n.baseIndex <= n.applied || n.log == [Sentinel(0)])
  {}

  /**
   A restart is refused exactly when a snapshot beyond the end of the log was stored and the
   log was not reset; otherwise it succeeds, and the node runs.
   */
  lemma RestartsUnlessTorn(r: Run, s: nat, i: NodeId, timeout: nat)
    requires IsRun(r) && s < |r.states| && i in r.states[s].nodes
    ensures var n := r.states[s].nodes[i];
            (Open(n.disk).Ok? <==> n.disk.image.lastIndex <= WalLast(n.disk.wal))
            && (Open(n.disk).Ok? ==> !Recover(i, n.peers, timeout, Open(n.disk).value).faulted)
            && (!n.faulted ==> Open(n.disk).Ok?)
  {
    hide IsRun, Inv, HistOk, NodeOk, Later, D.Sound, Like, Recover, Suffix;
    var ws, hs := PartnersExist(r, s);
    PartnerOf(r.states[s], ws[s], hs[s], i);
    var n, x := r.states[s].nodes[i], ws[s].nodes[i];
    OpensIff(n);
    if Open(n.disk).Ok? { RestartAlike(hs[s], n, x, timeout); }
  }

  lemma OpensIff(n: Node)
    requires D.Sound(D.WHOLE, n)
    ensures Open(n.disk).Ok? <==> n.disk.image.lastIndex <= WalLast(n.disk.wal)
    ensures !n.faulted ==> Open(n.disk).Ok?
  {
    hide D.PromisesBacked;
  }
}
