/** Without configuration entries the voters never change and the configuration code does nothing. */
module RaftFixed {
  import opened Masks
  import opened RaftTypes
  import opened RaftNode
  import opened RaftHistory

  ghost predicate Ordinary(e: Entry) {
    e.kind != KIND_JOINT && e.kind != KIND_FINAL
  }

  ghost predicate NoConfig(n: Node) {
    n.votersNew == 0 && n.pendingConfig == 0 && forall k :: 0 <= k < |n.log| ==> Ordinary(n.log[k])
  }

  lemma PlainLog(h: History, log: Log)
    requires HistOk(h) && LogOk(h, log)
    ensures forall k :: 0 <= k < |log| ==> Ordinary(log[k])
    ensures AllPlain(log)
  {
    forall k | 1 <= k < |log| ensures Plain(log[k]) {
      assert EntryOk(h, log, k);
      var t := log[k].term;
      assert LeaderLogOk(h, t);
      AgreeDown(log, h.llog[t], k, k);
    }
  }

  lemma NodeIsPlain(h: History, n: Node)
    requires HistOk(h) && StaticOk(h, n) && LogOk(h, n.log)
    ensures NoConfig(n)
  {
    PlainLog(h, n.log);
  }

  lemma {:induction false} VotersFixed(n: Node, first: nat, upto: nat)
    requires NoConfig(n)
    ensures VotersUpTo(n, first, upto) == (n.votersOld, 0)
    decreases upto
  {
    if first <= upto && upto != 0 { VotersFixed(n, first, upto - 1); }
  }

  lemma QuorumFixed(n: Node, mask: Mask)
    requires NoConfig(n)
    ensures Quorum(n, mask) <==> Majority(Ids(n.votersOld), Ids(mask))
  {
    VotersFixed(n, Max(n.commit, n.baseIndex) + 1, LastIndex(n));
  }

  lemma VoterFixed(n: Node, id: nat)
    requires NoConfig(n)
    ensures IsVoter(n, id) <==> id in Ids(n.votersOld)
  {
    VotersFixed(n, Max(n.commit, n.baseIndex) + 1, LastIndex(n));
    assert Ids(0) == {};
  }

  lemma CanCommitFixed(n: Node, index: nat, acked: Mask)
    requires NoConfig(n)
    ensures CanCommit(n, index, acked) <==> Majority(Ids(n.votersOld), Ids(acked))
  {
    VotersFixed(n, n.commit + 1, index);
  }

  lemma {:induction false} ApplyFixed(n: Node, first: nat, last: nat)
    requires NoConfig(n)
    ensures ApplyConfigurations(n, first, last) == n
    decreases last + 1 - first
  {
    if first <= last {
      assert Ordinary(EntryAt(n, first));
      assert ApplyConfiguration(n, first) == n;
      ApplyFixed(n, first + 1, last);
    }
  }

  lemma {:induction false} RebuildFromFixed(n: Node, index: nat)
    requires NoConfig(n)
    ensures RebuildPendingFrom(n, index) == n
    decreases LastIndex(n) + 1 - index
  {
    if index <= LastIndex(n) {
      assert Ordinary(EntryAt(n, index));
      RebuildFromFixed(n, index + 1);
    }
  }

  lemma RebuildFixed(n: Node)
    requires NoConfig(n)
    ensures RebuildPending(n) == n
  {
    RebuildFromFixed(n, Max(n.commit, n.baseIndex) + 1);
  }

  lemma {:induction false} EnsureNothing(n: Node, id: nat)
    ensures EnsurePeersFrom(n, 0, id) == n
    decreases 65 - id
  {
    if 0 < id <= 64 { EnsureNothing(n, id + 1); }
  }

  /** restoreConfigurationState accepts a log of plain entries and changes nothing. */
  lemma {:induction false} RestoreFixed(n: Node, index: nat)
    requires NoConfig(n) && AllPlain(n.log) && index > n.baseIndex
    ensures RestoreFrom(n, index, n.votersOld, 0, 0) == (n, true)
    decreases LastIndex(n) + 1 - index
  {
    if index <= LastIndex(n) {
      var e := EntryAt(n, index);
      assert Plain(e);
      assert Or(e.oldVoters, e.newVoters) == 0;
      EnsureNothing(n, 1);
      RestoreFixed(n, index + 1);
    }
  }

  /** A mask built by OR-ing node bits stands for exactly those nodes. */
  lemma MaskOfMeans(ids: seq<NodeId>)
    ensures Ids(MaskOf(ids)) == set i | i in ids
  {
  }

  lemma {:induction false} AckedMeans(n: Node, index: nat, k: nat)
    requires k <= |n.peers|
    ensures forall f :: f in Ids(AckedFrom(n, index, k)) ==>
              f == n.id || (f in n.peers && At(n.matched, f) >= index)
    ensures n.id in Ids(AckedFrom(n, index, k))
  {
    RecordingAddsSender(0, n.id);
    if k > 0 {
      AckedMeans(n, index, k - 1);
      RecordingAddsSender(AckedFrom(n, index, k - 1), n.peers[k - 1]);
    }
  }
}
