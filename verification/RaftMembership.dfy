/**
 Membership change at the quorum level: what a leader's commit index needs before it may
 pass a joint entry, and before it may pass the final entry that follows it.
 */
module RaftMembership {
  import opened Masks
  import opened RaftTypes
  import opened RaftDisk
  import opened RaftNode

  predicate IsJoint(n: Node, index: nat) {
    EntryAt(n, index).kind == KIND_JOINT
  }

  /** `j` is the only joint entry above the commit index, up to `last`. */
  predicate OnlyJoint(n: Node, j: nat, last: nat) {
    n.commit < j <= last && IsJoint(n, j) && forall i :: n.commit < i <= last && i != j ==> !IsJoint(n, i)
  }

  predicate BothMajorities(e: Entry, acked: set<nat>) {
    Majority(Ids(e.oldVoters), acked) && (e.newVoters != 0 ==> Majority(Ids(e.newVoters), acked))
  }

  /** With no joint entry in the range the masks in force decide. */
  lemma {:induction false} VotersWithoutJoint(n: Node, first: nat, upto: nat)
    requires forall i :: first <= i <= upto ==> !IsJoint(n, i)
    ensures VotersUpTo(n, first, upto) == (n.votersOld, n.votersNew)
    decreases upto
  {
    if first <= upto {
      assert !IsJoint(n, upto);
      if upto > 0 { VotersWithoutJoint(n, first, upto - 1); }
    }
  }

  /** The last joint entry of the range decides. */
  lemma {:induction false} VotersOfLastJoint(n: Node, first: nat, upto: nat, j: nat)
    requires 0 < first <= j <= upto && IsJoint(n, j) && forall i :: j < i <= upto ==> !IsJoint(n, i)
    ensures VotersUpTo(n, first, upto) == (EntryAt(n, j).oldVoters, EntryAt(n, j).newVoters)
    decreases upto
  {
    if j < upto {
      assert !IsJoint(n, upto);
      VotersOfLastJoint(n, first, upto - 1, j);
    }
  }

  /** The first `k` peers whose match reaches the index. */
  function Matching(n: Node, index: nat, k: nat): set<nat>
    requires k <= |n.peers|
  {
    set i: nat | i < k && At(n.matched, n.peers[i]) >= index :: n.peers[i]
  }

  /** The ids counted for an index are the leader and the peers whose match reaches it. */
  lemma {:induction false} AckedMembers(n: Node, index: nat, k: nat)
    requires k <= |n.peers|
    ensures Ids(AckedFrom(n, index, k)) == {n.id} + Matching(n, index, k)
  {
    hide Ids, Or, NodeBit, Matching;
    MatchingStep(n, index, k);
    if k == 0 {
      SingleBit(n.id);
    } else {
      AckedMembers(n, index, k - 1);
      RecordingAddsSender(AckedFrom(n, index, k - 1), n.peers[k - 1]);
    }
  }

  lemma SingleBit(id: NodeId)
    ensures Ids(NodeBit(id)) == {id}
  {
    Pow2MeansSingleton(id - 1, 1);
  }

  lemma MatchingStep(n: Node, index: nat, k: nat)
    requires k <= |n.peers|
    ensures Matching(n, index, k) ==
            if k == 0 then {}
            else Matching(n, index, k - 1) + (if At(n.matched, n.peers[k - 1]) >= index then {n.peers[k - 1]} else {})
  {
    if k > 0 {
      var s, t := Matching(n, index, k), Matching(n, index, k - 1);
      var e := if At(n.matched, n.peers[k - 1]) >= index then {n.peers[k - 1]} else {};
      forall x | x in s ensures x in t + e {
        var i: nat :| i < k && At(n.matched, n.peers[i]) >= index && n.peers[i] == x;
        assert i < k - 1 ==> x in t;
      }
    }
  }

  /** What applying a configuration and sending messages leave alone. */
  predicate SameCore(n: Node, n': Node) {
    && n'.id == n.id && n'.term == n.term && n'.votedFor == n.votedFor && n'.commit == n.commit
    && n'.log == n.log && n'.baseIndex == n.baseIndex && n'.disk == n.disk && n'.faulted == n.faulted
  }

  lemma ApplyingOneKeeps(n: Node, index: nat)
    ensures SameCore(n, ApplyConfiguration(n, index))
  {
    hide EnsurePeersFrom, IsVoter;
  }

  lemma {:induction false} ApplyingKeeps(n: Node, first: nat, last: nat)
    ensures SameCore(n, ApplyConfigurations(n, first, last))
    decreases last + 1 - first
  {
    hide ApplyConfiguration;
    if first <= last {
      ApplyingOneKeeps(n, first);
      ApplyingKeeps(ApplyConfiguration(n, first), first + 1, last);
    }
  }

  lemma AppendingToKeeps(n: Node, p: NodeId)
    ensures SameCore(n, AppendTo(n, p)) && AppendTo(n, p).peers == n.peers
  {
  }

  lemma {:induction false} BroadcastKeeps(n: Node, k: nat)
    ensures SameCore(n, BroadcastFrom(n, k))
    decreases |n.peers| - k
  {
    hide AppendTo, IsVoter;
    if k < |n.peers| {
      AppendingToKeeps(n, n.peers[k]);
      BroadcastKeeps(if IsVoter(n, n.peers[k]) then AppendTo(n, n.peers[k]) else n, k + 1);
    }
  }

  lemma LeaderCommitTarget(n: Node)
    ensures var (r, ok) := LeaderCommit(n);
            ok ==> r.commit == HighestCommittable(n, LastIndex(n))
  {
    hide Write, ApplyConfigurations, BroadcastFrom, HighestCommittable;
    var target := HighestCommittable(n, LastIndex(n));
    if target != n.commit {
      var hard := HardState(n.term, n.votedFor, target);
      WriteFrame(n, SaveHard(n.disk, hard));
      var (n1, ok) := PersistHard(n, hard);
      if ok {
        var n2 := n1.(commit := target);
        ApplyingKeeps(n2, Max(n.commit, n2.baseIndex) + 1, target);
        BroadcastKeeps(ApplyCommitted(n2, n.commit), 0);
      }
    }
  }

  /**
   With one pending change, the commit scan moves past the joint entry only when the ids
   that hold the new commit index are a majority of the old set and of the new set.
   */
  lemma CommitPastJointNeedsBoth(n: Node, j: nat)
    requires OnlyJoint(n, j, LastIndex(n))
    ensures var (r, ok) := LeaderCommit(n);
            ok && r.commit >= j ==> BothMajorities(EntryAt(n, j), Ids(Acked(n, r.commit)))
  {
    hide LeaderCommit, Majority;
    LeaderCommitTarget(n);
    var target := HighestCommittable(n, LastIndex(n));
    if target >= j { VotersOfLastJoint(n, n.commit + 1, target, j); }
  }

  /** The immediate commit of a local append obeys the same rule. */
  lemma SelfCommitPastJointNeedsBoth(n: Node, e: Entry, j: nat)
    requires n.commit <= LastIndex(n) && n.baseIndex <= n.commit
    requires OnlyJoint(n.(log := n.log + [e]), j, LastIndex(n) + 1)
    ensures var (r, ok) := AppendLocal(n, e);
            ok && r.commit >= j ==> BothMajorities(EntryAt(n.(log := n.log + [e]), j), {n.id})
  {
    hide Write, ApplyConfigurations, Majority;
    var grown := n.(log := n.log + [e]);
    var attempt := AppendEntry(n.disk, LastIndex(n) + 1, e);
    WriteFrame(n, attempt);
    var (n1, ok) := Write(n, attempt);
    if ok {
      var n2 := n1.(log := n1.log + [e]);
      VotersReadLog(grown, n2, n.commit + 1, LastIndex(n2));
      VotersOfLastJoint(grown, n.commit + 1, LastIndex(n2), j);
      Pow2MeansSingleton(n.id - 1, 1);
      if Quorum(n2, NodeBit(n2.id)) {
        assert BothMajorities(EntryAt(grown, j), {n.id});
      }
    }
  }

  lemma {:induction false} VotersReadLog(a: Node, b: Node, first: nat, upto: nat)
    requires a.log == b.log && a.baseIndex == b.baseIndex && a.votersOld == b.votersOld && a.votersNew == b.votersNew
    ensures VotersUpTo(a, first, upto) == VotersUpTo(b, first, upto)
    decreases upto
  {
    if first <= upto && upto > 0 { VotersReadLog(a, b, first, upto - 1); }
  }

  /** Once the joint entry is committed, everything after it, the final entry included, needs both sets. */
  lemma CommitUnderJointNeedsBoth(n: Node)
    requires forall i :: n.commit < i <= LastIndex(n) ==> !IsJoint(n, i)
    ensures var (r, ok) := LeaderCommit(n);
            ok && r.commit > n.commit ==> JointQuorum(n.votersOld, n.votersNew, Ids(Acked(n, r.commit)))
  {
    hide LeaderCommit, JointQuorum;
    LeaderCommitTarget(n);
    var target := HighestCommittable(n, LastIndex(n));
    if target > n.commit { VotersWithoutJoint(n, n.commit + 1, target); }
  }

  /** With two joint entries pending the first one's voters are not asked at all. */
  lemma SecondJointHidesFirst(n: Node, first: nat, second: nat, index: nat, acked: Mask)
    requires n.commit < first < second <= index && IsJoint(n, first) && IsJoint(n, second)
    requires forall i :: second < i <= index ==> !IsJoint(n, i)
    ensures CanCommit(n, index, acked)
       <==> JointQuorum(EntryAt(n, second).oldVoters, EntryAt(n, second).newVoters, Ids(acked))
  {
    VotersOfLastJoint(n, n.commit + 1, index, second);
  }
}
