/**
 How the history grows. Everything one node does extends the history in a way that leaves
 every other node's invariant, and every message already sent, intact.
 */
module RaftExtend {
  import opened Masks
  import opened RaftTypes
  import opened RaftDisk
  import opened RaftNode
  import opened RaftHistory

  ghost predicate Grows<K, V>(a: map<K, V>, b: map<K, V>) {
    forall k :: k in a ==> k in b && b[k] == a[k]
  }

  ghost predicate VotesExtend(h: History, h': History, i: nat) {
    && Grows(h.votes, h'.votes) && Grows(h.voteLog, h'.voteLog) && Grows(h.candLog, h'.candLog)
    && (forall f, t :: (f, t) in h'.votes && (f, t) !in h.votes ==> f == i)
    && (forall f, t :: (f, t) in h'.voteLog && (f, t) !in h.voteLog ==> f == i)
    && (forall f, t :: (f, t) in h'.candLog && (f, t) !in h.candLog ==> f == i)
  }

  ghost predicate LeadersExtend(h: History, h': History, i: nat) {
    && Grows(h.leaderOf, h'.leaderOf) && Grows(h.electors, h'.electors)
    && (forall t :: t in h.llog ==> t in h'.llog && Extends(h'.llog[t], h.llog[t], t))
    && (forall t :: t in h'.leaderOf && t !in h.leaderOf ==> h'.leaderOf[t] == i)
    && (forall t :: t in h'.llog && (t !in h.llog || h'.llog[t] != h.llog[t]) ==>
          t in h'.leaderOf && h'.leaderOf[t] == i)
  }

  ghost predicate AcksExtend(h: History, h': History, i: nat) {
    && (forall f, t :: (f, t) in h.acks ==> (f, t) in h'.acks && h'.acks[(f, t)] >= h.acks[(f, t)])
    && (forall f, t :: (f, t) in h'.acks && f != i ==> (f, t) in h.acks && h'.acks[(f, t)] == h.acks[(f, t)])
  }

  ghost predicate CommitsExtend(h: History, h': History, i: nat) {
    && (forall t :: t in h.commits ==> t in h'.commits && h'.commits[t] >= h.commits[t])
    && (forall t :: t in h'.commits && (t !in h.commits || h'.commits[t] != h.commits[t]) ==>
          t in h'.leaderOf && h'.leaderOf[t] == i)
  }

  /** `h'` is `h` after something node `i` did. */
  ghost predicate Ext(h: History, h': History, i: nat) {
    && h'.voters == h.voters && h'.barriers == h.barriers
    && VotesExtend(h, h', i) && LeadersExtend(h, h', i) && AcksExtend(h, h', i) && CommitsExtend(h, h', i)
  }

  lemma ExtRefl(h: History, i: nat)
    ensures Ext(h, h, i)
  {
    forall t | t in h.llog ensures Extends(h.llog[t], h.llog[t], t) {
      assert h.llog[t][..|h.llog[t]|] == h.llog[t];
    }
  }

  lemma ExtendsTrans(a: Log, b: Log, c: Log, t: nat)
    requires Extends(b, a, t) && Extends(c, b, t)
    ensures Extends(c, a, t)
  {
    assert c[..|a|] == c[..|b|][..|a|];
    forall k | |a| <= k < |c| ensures c[k].term == t {
      if k < |b| { assert c[k] == c[..|b|][k]; }
    }
  }

  lemma VotesTrans(h: History, h1: History, h2: History, i: nat)
    requires VotesExtend(h, h1, i) && VotesExtend(h1, h2, i)
    ensures VotesExtend(h, h2, i)
  {}

  lemma LeadersTrans(h: History, h1: History, h2: History, i: nat)
    requires LeadersExtend(h, h1, i) && LeadersExtend(h1, h2, i)
    ensures LeadersExtend(h, h2, i)
  {
    forall t | t in h.llog ensures t in h2.llog && Extends(h2.llog[t], h.llog[t], t) {
      ExtendsTrans(h.llog[t], h1.llog[t], h2.llog[t], t);
    }
  }

  lemma AcksTrans(h: History, h1: History, h2: History, i: nat)
    requires AcksExtend(h, h1, i) && AcksExtend(h1, h2, i)
    ensures AcksExtend(h, h2, i)
  {}

  lemma CommitsTrans(h: History, h1: History, h2: History, i: nat)
    requires CommitsExtend(h, h1, i) && CommitsExtend(h1, h2, i) && Grows(h1.leaderOf, h2.leaderOf)
    ensures CommitsExtend(h, h2, i)
  {}

  lemma ExtTrans(h: History, h1: History, h2: History, i: nat)
    requires Ext(h, h1, i) && Ext(h1, h2, i)
    ensures Ext(h, h2, i)
  {
    assert Grows(h1.leaderOf, h2.leaderOf) by { hide VotesExtend, AcksExtend, CommitsExtend; }
    hide VotesExtend, LeadersExtend, AcksExtend, CommitsExtend;
    VotesTrans(h, h1, h2, i);
    LeadersTrans(h, h1, h2, i);
    AcksTrans(h, h1, h2, i);
    CommitsTrans(h, h1, h2, i);
  }

  // ------------------------------------------------------------ what carries over

  lemma ExtAgree(h: History, h': History, i: nat, log: Log, t: nat, k: nat)
    requires LeadersExtend(h, h', i) && t in h.llog && Agree(log, h.llog[t], k)
    ensures Agree(log, h'.llog[t], k)
  {
    assert Extends(h'.llog[t], h.llog[t], t);
    PrefixAgrees(h.llog[t], h'.llog[t], k);
  }

  lemma ExtLog(h: History, h': History, i: nat, log: Log)
    requires LeadersExtend(h, h', i) && LogOk(h, log)
    ensures LogOk(h', log)
  {
    forall k | 1 <= k < |log| ensures EntryOk(h', log, k) {
      assert EntryOk(h, log, k);
      ExtAgree(h, h', i, log, log[k].term, k);
    }
  }

  lemma ExtMissing(h: History, h': History, i: nat, t: nat, k: nat, u: nat)
    requires LeadersExtend(h, h', i) && OwnEntry(h, t, k) && Missing(h, t, k, u)
    ensures Missing(h', t, k, u)
  {
    var a, b, a', b' := h.llog[t], h.llog[u], h'.llog[t], h'.llog[u];
    assert Extends(a', a, t) && Extends(b', b, u);
    PrefixAgrees(a, a', k);
    if Agree(b', a', k) {
      AgreeDown(b', a', k, k);
      AgreeDown(a, a', k, k);
      assert b'[k].term == t;
      assert k < |b|;
      PrefixAgrees(b, b', k);
      assert false;
    }
  }

  lemma ExtRetains(h: History, h': History, i: nat, log: Log, t: nat, k: nat, before: nat)
    requires LeadersExtend(h, h', i) && OwnEntry(h, t, k) && Retains(h, log, t, k, before)
    ensures Retains(h', log, t, k, before)
  {
    if Agree(log, h.llog[t], k) {
      ExtAgree(h, h', i, log, t, k);
    } else {
      var u: nat :| t < u < before && Missing(h, t, k, u);
      ExtMissing(h, h', i, t, k, u);
    }
  }

  lemma ExtRetainsAll(h: History, h': History, i: nat, log: Log, f: nat, t: nat, before: nat)
    requires LeadersExtend(h, h', i) && RetainsAll(h, log, f, t, before)
    requires (f, t) in h'.acks && h'.acks[(f, t)] == h.acks[(f, t)] && AckOk(h, f, t)
    ensures RetainsAll(h', log, f, t, before)
  {
    forall k | 0 <= k <= h'.acks[(f, t)] && OwnEntry(h', t, k) ensures Retains(h', log, t, k, before) {
      assert Extends(h'.llog[t], h.llog[t], t);
      PrefixAgrees(h.llog[t], h'.llog[t], k);
      AgreeDown(h.llog[t], h'.llog[t], k, k);
      assert OwnEntry(h, t, k);
      ExtRetains(h, h', i, log, t, k, before);
    }
  }

  lemma ExtCommit(h: History, h': History, i: nat, log: Log, commit: nat, term: nat)
    requires LeadersExtend(h, h', i) && CommitsExtend(h, h', i) && CommitOk(h, log, commit, term)
    ensures CommitOk(h', log, commit, term)
  {
    if commit != 0 {
      var t: nat :| t <= term && CommittedAt(h, log, commit, t);
      ExtAgree(h, h', i, log, t, commit);
      assert CommittedAt(h', log, commit, t);
    }
  }

  /** A leader's commit claim refers to its log, which may have grown. */
  lemma ExtLeaderCommit(h: History, h': History, i: nat, t: nat, commit: nat, term: nat)
    requires LeadersExtend(h, h', i) && CommitsExtend(h, h', i)
    requires t in h.llog && CommitOk(h, h.llog[t], commit, term)
    ensures CommitOk(h', h'.llog[t], commit, term)
  {
    ExtCommit(h, h', i, h.llog[t], commit, term);
    if commit != 0 {
      var u: nat :| u <= term && CommittedAt(h', h.llog[t], commit, u);
      assert Extends(h'.llog[t], h.llog[t], t);
      PrefixAgrees(h.llog[t], h'.llog[t], commit);
      assert CommittedAt(h', h'.llog[t], commit, u);
    }
  }

  lemma ExtMessage(h: History, h': History, i: nat, m: Message)
    requires Ext(h, h', i) && MessageOk(h, m)
    ensures MessageOk(h', m)
  {
    match m
    case Append(_, _, _, _, _, _, _, _) =>
      ExtLeaderCommit(h, h', i, m.term, m.commit, m.term);
      var l, l' := h.llog[m.term], h'.llog[m.term];
      assert Extends(l', l, m.term);
      PrefixAgrees(l, l', m.logIndex);
      AgreeDown(l, l', m.logIndex, m.logIndex);
      if m.entry.Some? {
        PrefixAgrees(l, l', m.logIndex + 1);
        AgreeDown(l, l', m.logIndex + 1, m.logIndex + 1);
      }
    case _ =>
  }

  lemma ExtOutbound(h: History, h': History, i: nat, n: Node)
    requires Ext(h, h', i) && OutboundOk(h, n)
    ensures OutboundOk(h', n)
  {
    forall q | q in n.outbound ensures MessageOk(h', q.msg) { ExtMessage(h, h', i, q.msg); }
  }

  lemma ExtDisk(h: History, h': History, i: nat, id: nat, d: Disk)
    requires Ext(h, h', i) && id != i && DiskOk(h, id, d)
    requires forall f, t :: (f, t) in h.acks ==> AckOk(h, f, t)
    ensures DiskOk(h', id, d)
  {
    ExtLog(h, h', i, d.wal.data);
    ExtCommit(h, h', i, d.wal.data, d.wal.hard.commit, d.wal.hard.term);
    forall t | (id, t) in h'.acks
      ensures t <= d.wal.hard.term && RetainsAll(h', d.wal.data, id, t, d.wal.hard.term + 1)
    {
      assert (id, t) in h.acks && AckOk(h, id, t);
      ExtRetainsAll(h, h', i, d.wal.data, id, t, d.wal.hard.term + 1);
    }
  }

  /** Whatever node `i` does, the invariant of the other nodes stands. */
  lemma ExtOtherNode(h: History, h': History, i: nat, n: Node)
    requires HistOk(h) && Ext(h, h', i) && NodeOk(h, n) && n.id != i
    ensures NodeOk(h', n)
  {
    ExtDisk(h, h', i, n.id, n.disk);
    ExtLog(h, h', i, n.log);
    ExtCommit(h, h', i, n.log, n.commit, n.disk.wal.hard.term);
    ExtOutbound(h, h', i, n);
    if !n.faulted {
      if n.role == Leader { ExtLeader(h, h', i, n); }
    }
  }

  lemma ExtLeader(h: History, h': History, i: nat, n: Node)
    requires Ext(h, h', i) && n.id != i && LeaderCore(h, n)
    ensures LeaderCore(h', n)
  {
    assert h'.leaderOf[n.term] == n.id;
    assert h'.llog[n.term] == h.llog[n.term];
    if BarrierHolds(h, n) { assert BarrierHolds(h', n); }
  }

  // ------------------------------------------------------------ the history's own invariant

  /** Acknowledgements by `i` were raised only in terms after which it has not voted. */
  ghost predicate AcksAreRecent(h: History, h': History, i: nat) {
    forall u, t :: (i, u) in h'.acks && ((i, u) !in h.acks || h'.acks[(i, u)] != h.acks[(i, u)]) && u < t
                   ==> (i, t) !in h'.voteLog
  }

  lemma CarryElection(h: History, h': History, i: nat, t: nat)
    requires Ext(h, h', i) && ElectionOk(h, t)
    ensures ElectionOk(h', t)
  {}

  lemma CarryLeaderLog(h: History, h': History, i: nat, t: nat)
    requires Ext(h, h', i) && LeaderLogOk(h, t) && h'.llog[t] == h.llog[t]
    ensures LeaderLogOk(h', t)
  {
    ExtLog(h, h', i, h.llog[t]);
  }

  lemma CarryCandidacy(h: History, h': History, i: nat, c: nat, t: nat)
    requires Ext(h, h', i) && CandidacyOk(h, c, t)
    ensures CandidacyOk(h', c, t)
  {
    ExtLog(h, h', i, h.candLog[(c, t)]);
  }

  lemma CarryVoteLog(h: History, h': History, i: nat, f: nat, t: nat)
    requires HistOk(h) && Ext(h, h', i) && AcksAreRecent(h, h', i) && VoteLogOk(h, f, t)
    ensures VoteLogOk(h', f, t)
  {
    var log := h.voteLog[(f, t)];
    ExtLog(h, h', i, log);
    forall u | u < t && (f, u) in h'.acks ensures RetainsAll(h', log, f, u, t) {
      assert (f, u) in h.acks && h'.acks[(f, u)] == h.acks[(f, u)];
      assert AckOk(h, f, u);
      ExtRetainsAll(h, h', i, log, f, u, t);
    }
  }

  lemma CarryAck(h: History, h': History, i: nat, f: nat, t: nat)
    requires Ext(h, h', i) && AckOk(h, f, t) && h'.acks[(f, t)] == h.acks[(f, t)]
    ensures AckOk(h', f, t)
  {
    assert Extends(h'.llog[t], h.llog[t], t);
  }

  lemma CarryCommit(h: History, h': History, i: nat, t: nat)
    requires Ext(h, h', i) && CommitRecordOk(h, t) && h'.commits[t] == h.commits[t]
    ensures CommitRecordOk(h', t)
  {
    var k := h.commits[t];
    assert Extends(h'.llog[t], h.llog[t], t);
    PrefixAgrees(h.llog[t], h'.llog[t], k);
    AgreeDown(h.llog[t], h'.llog[t], k, k);
    MajorityGrows(h.voters, Ackers(h, t, k), Ackers(h', t, k));
  }

  lemma CarryBarrier(h: History, h': History, i: nat, x: nat)
    requires Ext(h, h', i) && BarrierOk(h, x)
    ensures BarrierOk(h', x)
  {
    var b := h.barriers[x];
    if Overtaken(h, b) {
      var t :| t in h.electors && Majority(h.voters, h.electors[t])
               && forall f :: f in h.electors[t] && f in b.terms ==> b.terms[f] > b.term;
      assert t in h'.electors && h'.electors[t] == h.electors[t];
    }
  }

  /** It suffices to check what is new. */
  lemma CarryHistory(h: History, h': History, i: nat)
    requires HistOk(h) && Ext(h, h', i) && AcksAreRecent(h, h', i)
    requires forall t :: t in h'.llog && t !in h.llog ==> ElectionOk(h', t)
    requires forall t :: t in h'.llog && (t !in h.llog || h'.llog[t] != h.llog[t]) ==> LeaderLogOk(h', t)
    requires forall t :: t in h'.leaderOf && t !in h.leaderOf ==> t in h'.llog
    requires forall t :: t in h'.electors && t !in h.electors ==> t in h'.llog
    requires forall c, t :: (c, t) in h'.candLog && (c, t) !in h.candLog ==> CandidacyOk(h', c, t)
    requires forall f, t :: (f, t) in h'.votes && (f, t) !in h.votes ==> VoteOk(h', f, t)
    requires forall f, t :: (f, t) in h'.voteLog && (f, t) !in h.voteLog ==> VoteLogOk(h', f, t)
    requires forall f, t :: (f, t) in h'.acks && ((f, t) !in h.acks || h'.acks[(f, t)] != h.acks[(f, t)]) ==>
               AckOk(h', f, t)
    requires forall t :: t in h'.commits && (t !in h.commits || h'.commits[t] != h.commits[t]) ==> CommitRecordOk(h', t)
    ensures HistOk(h')
  {
    hide ElectionOk, LeaderLogOk, CandidacyOk, VoteLogOk, VoteOk, AckOk, CommitRecordOk, BarrierOk, AcksAreRecent;
    CarryRecords(h, h', i);
    CarryBallots(h, h', i);
    forall t | t in h'.llog ensures ElectionOk(h', t) && LeaderLogOk(h', t) {
      if t in h.llog {
        CarryElection(h, h', i, t);
        if h'.llog[t] == h.llog[t] { CarryLeaderLog(h, h', i, t); }
      }
    }
  }

  lemma CarryBallots(h: History, h': History, i: nat)
    requires HistOk(h) && Ext(h, h', i) && AcksAreRecent(h, h', i)
    requires forall c, t :: (c, t) in h'.candLog && (c, t) !in h.candLog ==> CandidacyOk(h', c, t)
    requires forall f, t :: (f, t) in h'.votes && (f, t) !in h.votes ==> VoteOk(h', f, t)
    requires forall f, t :: (f, t) in h'.voteLog && (f, t) !in h.voteLog ==> VoteLogOk(h', f, t)
    ensures forall c, t :: (c, t) in h'.candLog ==> CandidacyOk(h', c, t)
    ensures forall f, t :: (f, t) in h'.votes ==> VoteOk(h', f, t)
    ensures forall f, t :: (f, t) in h'.voteLog ==> VoteLogOk(h', f, t)
  {
    hide ElectionOk, LeaderLogOk, CandidacyOk, VoteLogOk, AckOk, CommitRecordOk, BarrierOk, AcksAreRecent;
    forall c, t | (c, t) in h'.candLog ensures CandidacyOk(h', c, t) {
      if (c, t) in h.candLog { CarryCandidacy(h, h', i, c, t); }
    }
    forall f, t | (f, t) in h'.votes ensures VoteOk(h', f, t) {
      if (f, t) in h.votes { assert VoteOk(h, f, t); }
    }
    forall f, t | (f, t) in h'.voteLog ensures VoteLogOk(h', f, t) {
      if (f, t) in h.voteLog { CarryVoteLog(h, h', i, f, t); }
    }
  }

  lemma CarryRecords(h: History, h': History, i: nat)
    requires HistOk(h) && Ext(h, h', i) && AcksAreRecent(h, h', i)
    requires forall f, t :: (f, t) in h'.acks && ((f, t) !in h.acks || h'.acks[(f, t)] != h.acks[(f, t)]) ==>
               AckOk(h', f, t)
    requires forall t :: t in h'.commits && (t !in h.commits || h'.commits[t] != h.commits[t]) ==> CommitRecordOk(h', t)
    ensures forall f, t :: (f, t) in h'.acks ==> AckOk(h', f, t)
    ensures forall t :: t in h'.commits ==> CommitRecordOk(h', t)
    ensures forall x :: x in h'.barriers ==> BarrierOk(h', x)
  {
    hide ElectionOk, LeaderLogOk, CandidacyOk, VoteOk, VoteLogOk, AckOk, CommitRecordOk, BarrierOk, AcksAreRecent;
    forall f, t | (f, t) in h'.acks ensures AckOk(h', f, t) {
      if (f, t) in h.acks && h'.acks[(f, t)] == h.acks[(f, t)] { CarryAck(h, h', i, f, t); }
    }
    forall t | t in h'.commits ensures CommitRecordOk(h', t) {
      if t in h.commits && h'.commits[t] == h.commits[t] { CarryCommit(h, h', i, t); }
    }
    forall x | x in h'.barriers ensures BarrierOk(h', x) { CarryBarrier(h, h', i, x); }
  }
}
