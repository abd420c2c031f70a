/**
 Taking over a leader's committed prefix keeps the cluster invariant: what a node had
 acknowledged survives, or a later leader already lacked it; what it had committed is in the
 prefix; and the acknowledgement of the snapshot is one of the prefix.
 */
module RaftAdopt {
  import opened Masks
  import opened RaftTypes
  import opened RaftDisk
  import opened RaftNode
  import opened RaftHistory
  import opened RaftExtend
  import opened RaftFixed
  import opened RaftSteps
  import opened RaftElect
  import opened RaftReplicate
  import opened RaftCluster
  import opened RaftInstall

  /** The leader of `t` has committed everything up to `s`, where its log has an entry of `term`. */
  ghost predicate Offered(h: History, t: nat, s: nat, term: nat) {
    t in h.llog && s < |h.llog[t]| && h.llog[t][s].term == term && CommitOk(h, h.llog[t], s, t)
  }

  ghost function Offer(h: History, t: nat, s: nat): Log
    requires t in h.llog && s < |h.llog[t]|
  {
    h.llog[t][..s + 1]
  }

  /** The log after adopting what the leader of `t` offers up to `s`. */
  ghost function AdoptedLog(h: History, log: Log, t: nat, s: nat, term: nat): Log
    requires Offered(h, t, s, term)
  {
    Adopted(log, Offer(h, t, s), s, term)
  }

  lemma AdoptedAgrees(h: History, log: Log, t: nat, s: nat, term: nat)
    requires HistOk(h) && LogOk(h, log) && Offered(h, t, s, term)
    ensures Agree(AdoptedLog(h, log, t, s, term), h.llog[t], s)
  {
    hide HistOk, LogOk, CommitOk;
    LeaderLogFacts(h, t);
    var full := AdoptedLog(h, log, t, s, term);
    if full == log && s < |log| && log[s].term == term {
      SameTermSamePrefix(h, log, h.llog[t], s);
    } else {
      assert full[..s + 1] == h.llog[t][..s + 1];
    }
  }

  lemma AdoptedLogOk(h: History, log: Log, t: nat, s: nat, term: nat)
    requires HistOk(h) && LogOk(h, log) && TermsAtMost(log, t) && Offered(h, t, s, term)
    ensures LogOk(h, AdoptedLog(h, log, t, s, term)) && TermsAtMost(AdoptedLog(h, log, t, s, term), t)
  {
    hide HistOk, LogOk, CommitOk;
    LeaderLogFacts(h, t);
    PrefixLogOk(h, h.llog[t], s + 1);
  }

  /** What was acknowledged to the leader of `u` is still there, or the leader of `t` lacks it. */
  lemma AdoptedRetains(h: History, log: Log, f: nat, u: nat, t: nat, s: nat, term: nat)
    requires Offered(h, t, s, term) && RetainsAll(h, log, f, u, t + 1) && u <= t
    ensures RetainsAll(h, AdoptedLog(h, log, t, s, term), f, u, t + 1)
  {
    var full, leader := AdoptedLog(h, log, t, s, term), h.llog[t];
    if full != log {
      forall k | 0 <= k <= h.acks[(f, u)] && OwnEntry(h, u, k) ensures Retains(h, full, u, k, t + 1) {
        assert Retains(h, log, u, k, t + 1);
        if Agree(log, h.llog[u], k) {
          if Agree(leader, h.llog[u], k) {
            if k > s { BothHave(log, leader, h.llog[u], k, s); }
            PrefixAgrees(full, leader, s);
            AgreeDown(full, leader, s, k);
          } else {
            assert Missing(h, u, k, t);
          }
        }
      }
    }
  }

  lemma BothHave(log: Log, leader: Log, other: Log, k: nat, s: nat)
    requires Agree(log, other, k) && Agree(leader, other, k) && s <= k
    ensures s < |log| && s < |leader| && log[s] == leader[s]
  {
    AgreeDown(log, other, k, s);
    AgreeDown(leader, other, k, s);
  }

  /** The commit index moves up to the snapshot, and what was committed before is in it. */
  lemma AdoptedCommit(h: History, log: Log, commit: nat, t: nat, s: nat, term: nat)
    requires HistOk(h) && LogOk(h, log) && CommitOk(h, log, commit, t) && Offered(h, t, s, term)
    ensures CommitOk(h, AdoptedLog(h, log, t, s, term), Max(commit, s), t)
  {
    hide HistOk, LogOk;
    var full := AdoptedLog(h, log, t, s, term);
    AdoptedAgrees(h, log, t, s, term);
    if commit > s {
      var u: nat :| u <= t && CommittedAt(h, log, commit, u);
      LeaderHasCommitted(h, log, commit, u, t);
      AgreeDown(log, h.llog[t], commit, s);
    } else if s > 0 {
      var u: nat :| u <= t && CommittedAt(h, h.llog[t], s, u);
      assert CommittedAt(h, full, s, u);
    }
  }

  lemma AdoptedDiskOk(h: History, id: nat, e: Disk, s: nat, term: nat)
    requires HistOk(h) && DiskOk(h, id, e) && Offered(h, e.wal.hard.term, s, term)
    ensures DiskOk(h, id, AdoptedDisk(e, AdoptedLog(h, e.wal.data, e.wal.hard.term, s, term), s))
  {
    hide HistOk, LogOk, CommitOk, RetainsAll, Offered;
    var t := e.wal.hard.term;
    AdoptedLogOk(h, e.wal.data, t, s, term);
    AdoptedCommit(h, e.wal.data, e.wal.hard.commit, t, s, term);
    forall u | (id, u) in h.acks ensures RetainsAll(h, AdoptedLog(h, e.wal.data, t, s, term), id, u, t + 1) {
      AdoptedRetains(h, e.wal.data, id, u, t, s, term);
    }
  }

  /** A node that adopted the prefix, and one that stopped after its store had. */
  lemma AdoptingOk(h: History, x: Node, s: nat, term: nat, x': Node)
    requires HistOk(h) && NodeOk(h, x) && !x.faulted && x.role != Leader && Offered(h, x.term, s, term)
    requires var full := AdoptedLog(h, x.log, x.term, s, term);
             x' == Adopting(x, full, s).(plan := x'.plan, role := Follower, leader := x'.leader, elapsed := x'.elapsed)
    ensures NodeOk(h, x') && Agree(x'.log, h.llog[x.term], s)
  {
    hide HistOk, LogOk, CommitOk, RetainsAll, Offered;
    AdoptedDiskOk(h, x.id, x.disk, s, term);
    AdoptedAgrees(h, x.log, x.term, s, term);
    LiveNodeOk(h, x');
  }

  lemma AdoptingStops(h: History, x: Node, s: nat, term: nat, plan: seq<Outcome>)
    requires HistOk(h) && NodeOk(h, x) && !x.faulted && Offered(h, x.term, s, term)
    ensures var full := AdoptedLog(h, x.log, x.term, s, term);
            Preserved(h, h, x.id, FailStorage(x.(disk := AdoptedDisk(x.disk, full, s), plan := plan)))
  {
    hide HistOk, LogOk, CommitOk, RetainsAll, Offered, Ext;
    ExtRefl(h, x.id);
    AdoptedDiskOk(h, x.id, x.disk, s, term);
    FailOk(h, h, x, AdoptedDisk(x.disk, AdoptedLog(h, x.log, x.term, s, term), s), plan);
  }

  /** Stopping without any effect on the store. */
  lemma StopsOk(h: History, x: Node, plan: seq<Outcome>)
    requires HistOk(h) && NodeOk(h, x)
    ensures Preserved(h, h, x.id, FailStorage(x.(plan := plan)))
  {
    hide HistOk, LogOk, CommitOk, RetainsAll, Ext;
    ExtRefl(h, x.id);
    FailOk(h, h, x, x.disk, plan);
    assert x.(disk := x.disk, plan := plan) == x.(plan := plan);
  }

  /** The leader learns that a follower has its snapshot. */
  lemma InstallAckOk(h: History, x: Node, m: Message)
    requires NodeOk(h, x) && !x.faulted && m.InstallSnapshotResponse? && !m.reject && m.to == x.id
    requires MessageOk(h, AppendResponse(m.from, m.to, m.term, false, m.matched, 0))
    ensures NodeOk(h, OnInstallSnapshotResponse(x, m)) && OnInstallSnapshotResponse(x, m).id == x.id
  {
    hide DiskOk, LogOk, CommitOk, IsVoter, AppendToContext, OutboundOk;
    if x.role == Leader && m.term == x.term && IsVoter(x, m.from) {
      var x1 := if m.matched > At(x.matched, m.from)
                then x.(matched := x.matched[m.from := m.matched], next := x.next[m.from := m.matched + 1]) else x;
      assert BarrierHolds(h, x) ==> BarrierHolds(h, x1);
      assert NodeOk(h, x1) by { MatchedNode(h, x, x1); }
      AppendToOk(h, x1, m.from, 0);
    }
  }

  lemma MatchedNode(h: History, x: Node, x1: Node)
    requires NodeOk(h, x) && !x.faulted && x1 == x.(matched := x1.matched, next := x1.next) && MatchedOk(h, x1)
    ensures NodeOk(h, x1)
  {
    hide DiskOk, LogOk, CommitOk;
    assert OutboundOk(h, x1);
    assert x.role == Leader && BarrierHolds(h, x) ==> BarrierHolds(h, x1);
  }
}
