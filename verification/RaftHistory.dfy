/**
 What has happened in a run, and the invariant that ties it to the nodes.

 The history is not part of the system: RaftSafety shows that every reachable cluster has
 one that its partner of whole logs satisfies the invariant with. It records each durable vote, the log behind each
 candidacy and vote, the log of each term's leader, how far each node has acknowledged each
 leader, and how far each leader has committed.
 */
module RaftHistory {
  import opened Masks
  import opened RaftTypes
  import opened RaftDisk
  import opened RaftNode

  /** A read barrier: who started it, its commit index, and every node's stored commit index and term at that moment. */
  datatype Barrier = Barrier(leader: nat, term: nat, started: nat, floors: map<nat, nat>, terms: map<nat, nat>)

  datatype History = History(
    voters: set<nat>,
    votes: map<(nat, nat), nat>,        // (voter, term) -> candidate
    voteLog: map<(nat, nat), Log>,      // (voter, term) -> voter's log, for votes cast before the term had a leader
    candLog: map<(nat, nat), Log>,      // (candidate, term) -> candidate's log
    llog: map<nat, Log>,                // term -> log of its leader
    leaderOf: map<nat, nat>,            // term -> leader
    electors: map<nat, set<nat>>,       // term -> the voters that elected its leader
    acks: map<(nat, nat), nat>,         // (node, term) -> highest index acknowledged to that term's leader
    commits: map<nat, nat>,             // term -> highest index its leader committed
    barriers: map<nat, Barrier>)        // context -> barrier

  function EmptyHistory(voters: set<nat>): History {
    History(voters, map[], map[], map[], map[], map[], map[], map[], map[], map[])
  }

  // ------------------------------------------------------------ logs

  /** The two logs are the same up to and including index `k`. */
  ghost predicate Agree(a: Log, b: Log, k: nat) {
    k < |a| && k < |b| && a[..k + 1] == b[..k + 1]
  }

  ghost predicate Prefix(a: Log, b: Log) {
    |a| <= |b| && b[..|a|] == a
  }

  function LastTerm(log: Log): nat {
    log[|log| - 1].term
  }

  /** The voting rule on whole logs. */
  ghost predicate AtLeastAsUpToDate(c: Log, v: Log) {
    LastTerm(c) > LastTerm(v) || (LastTerm(c) == LastTerm(v) && |c| >= |v|)
  }

  /** An ordinary or no-op entry as restoreConfigurationState accepts it. */
  predicate Plain(e: Entry) {
    (e.kind == KIND_NORMAL || e.kind == KIND_NOOP) && Restorable(e, 0, 0, 0)
  }

  /** The entry at `k`, with everything before it, is what the leader of its term had. */
  ghost predicate EntryOk(h: History, log: Log, k: nat) {
    k < |log| && log[k].term > 0 && log[k].term in h.llog && Agree(log, h.llog[log[k].term], k)
  }

  ghost predicate LogOk(h: History, log: Log) {
    log[0] == Sentinel(0) && forall k :: 1 <= k < |log| ==> EntryOk(h, log, k)
  }

  ghost predicate TermsAtMost(log: Log, t: nat) {
    forall k :: 0 <= k < |log| ==> log[k].term <= t
  }

  ghost predicate Monotone(log: Log) {
    forall j, k :: 0 <= j <= k < |log| ==> log[j].term <= log[k].term
  }

  ghost predicate AllPlain(log: Log) {
    forall k :: 1 <= k < |log| ==> Plain(log[k])
  }

  /** `log` continues `c` with entries of term `t` only. */
  ghost predicate Extends(log: Log, c: Log, t: nat) {
    Prefix(c, log) && forall k :: |c| <= k < |log| ==> log[k].term == t
  }

  /** Index `k` of the log of term `t`'s leader holds an entry of that very term. */
  ghost predicate OwnEntry(h: History, t: nat, k: nat) {
    t in h.llog && k < |h.llog[t]| && h.llog[t][k].term == t
  }

  /** A later leader that does not have what the leader of `t` has up to `k`. */
  ghost predicate Missing(h: History, t: nat, k: nat, later: nat) {
    t in h.llog && later in h.llog && t < later && !Agree(h.llog[later], h.llog[t], k)
  }

  /** The log still has what was acknowledged, unless a leader in between lacked it. */
  ghost predicate Retains(h: History, log: Log, t: nat, k: nat, before: nat) {
    t in h.llog && (Agree(log, h.llog[t], k) || exists u: nat :: t < u < before && Missing(h, t, k, u))
  }

  ghost predicate RetainsAll(h: History, log: Log, f: nat, t: nat, before: nat) {
    (f, t) in h.acks && forall k :: 0 <= k <= h.acks[(f, t)] && OwnEntry(h, t, k) ==> Retains(h, log, t, k, before)
  }

  // ------------------------------------------------------------ commitment

  /** The voters that acknowledged index `k` to the leader of term `t`. */
  ghost function Ackers(h: History, t: nat, k: nat): set<nat> {
    set f | f in h.voters && (f, t) in h.acks && h.acks[(f, t)] >= k
  }

  ghost predicate CommittedAt(h: History, log: Log, commit: nat, t: nat) {
    t in h.commits && t in h.llog && commit <= h.commits[t] && Agree(log, h.llog[t], commit)
  }

  /** Everything up to `commit` was committed by the leader of some term up to `term`. */
  ghost predicate CommitOk(h: History, log: Log, commit: nat, term: nat) {
    commit == 0 || exists t: nat :: t <= term && CommittedAt(h, log, commit, t)
  }

  // ------------------------------------------------------------ the history's own invariant

  ghost predicate ElectionOk(h: History, t: nat) {
    t in h.llog && t in h.leaderOf && t in h.electors && t > 0
    && (h.leaderOf[t], t) in h.candLog
    && Majority(h.voters, h.electors[t])
    && forall f :: f in h.electors[t] ==> (f, t) in h.votes && h.votes[(f, t)] == h.leaderOf[t] && (f, t) in h.voteLog
  }

  ghost predicate LeaderLogOk(h: History, t: nat) {
    t in h.llog && t in h.leaderOf && (h.leaderOf[t], t) in h.candLog
    && Extends(h.llog[t], h.candLog[(h.leaderOf[t], t)], t)
    && |h.candLog[(h.leaderOf[t], t)]| < |h.llog[t]|
    && AllPlain(h.llog[t]) && LogOk(h, h.llog[t]) && Monotone(h.llog[t])
  }

  ghost predicate CandidacyOk(h: History, c: nat, t: nat) {
    (c, t) in h.candLog && t > 0 && LogOk(h, h.candLog[(c, t)]) && TermsAtMost(h.candLog[(c, t)], t - 1)
  }

  ghost predicate VoteOk(h: History, f: nat, t: nat) {
    (f, t) in h.votes && h.votes[(f, t)] in h.voters && (h.votes[(f, t)], t) in h.candLog
    && ((f, t) in h.voteLog || t in h.llog)
  }

  ghost predicate VoteLogOk(h: History, f: nat, t: nat) {
    (f, t) in h.voteLog && (f, t) in h.votes && (h.votes[(f, t)], t) in h.candLog
    && LogOk(h, h.voteLog[(f, t)])
    && AtLeastAsUpToDate(h.candLog[(h.votes[(f, t)], t)], h.voteLog[(f, t)])
    && forall u :: u < t && (f, u) in h.acks ==> RetainsAll(h, h.voteLog[(f, t)], f, u, t)
  }

  ghost predicate AckOk(h: History, f: nat, t: nat) {
    (f, t) in h.acks && t in h.llog && h.acks[(f, t)] < |h.llog[t]|
  }

  ghost predicate CommitRecordOk(h: History, t: nat) {
    t in h.commits && OwnEntry(h, t, h.commits[t]) && Majority(h.voters, Ackers(h, t, h.commits[t]))
  }

  /** `index` is at least every commit index that was stored when the barrier started. */
  ghost predicate Covers(b: Barrier, index: nat) {
    forall j :: j in b.floors ==> b.floors[j] <= index
  }

  /** A later leader was already elected when the barrier started. */
  ghost predicate Overtaken(h: History, b: Barrier) {
    exists t :: t in h.electors && Majority(h.voters, h.electors[t])
                && forall f :: f in h.electors[t] && f in b.terms ==> b.terms[f] > b.term
  }

  ghost predicate BarrierOk(h: History, context: nat) {
    context in h.barriers && var b := h.barriers[context];
    b.terms.Keys == h.voters && b.term in h.leaderOf && h.leaderOf[b.term] == b.leader
    && (Covers(b, b.started) || Overtaken(h, b))
  }

  ghost predicate HistOk(h: History) {
    && (forall t :: t in h.llog ==> ElectionOk(h, t))
    && (forall t :: t in h.llog ==> LeaderLogOk(h, t))
    && (forall t :: t in h.leaderOf ==> t in h.llog)
    && (forall t :: t in h.electors ==> t in h.llog)
    && (forall c, t :: (c, t) in h.candLog ==> CandidacyOk(h, c, t))
    && (forall f, t :: (f, t) in h.votes ==> VoteOk(h, f, t))
    && (forall f, t :: (f, t) in h.voteLog ==> VoteLogOk(h, f, t))
    && (forall f, t :: (f, t) in h.acks ==> AckOk(h, f, t))
    && (forall t :: t in h.commits ==> CommitRecordOk(h, t))
    && (forall x :: x in h.barriers ==> BarrierOk(h, x))
  }

  // ------------------------------------------------------------ messages

  ghost predicate AppendOk(h: History, m: Message)
    requires m.Append?
  {
    m.term in h.llog && m.term in h.leaderOf && h.leaderOf[m.term] == m.from
    && m.logIndex < |h.llog[m.term]| && m.logTerm == h.llog[m.term][m.logIndex].term
    && (m.entry.Some? ==>
          m.logIndex + 1 < |h.llog[m.term]| && m.entry.value == h.llog[m.term][m.logIndex + 1])
    && CommitOk(h, h.llog[m.term], m.commit, m.term)
    && (m.context != 0 ==> m.context in h.barriers && h.barriers[m.context].term == m.term)
  }

  ghost predicate AppendResponseOk(h: History, m: Message)
    requires m.AppendResponse?
  {
    m.reject
    || ((m.from, m.term) in h.acks && h.acks[(m.from, m.term)] >= m.matched
        && (m.context != 0 ==> m.context in h.barriers && h.barriers[m.context].term == m.term
                               && m.from in h.barriers[m.context].terms
                               && h.barriers[m.context].terms[m.from] <= m.term))
  }

  ghost predicate MessageOk(h: History, m: Message) {
    m.from in h.voters && m.from != m.to
    && match m
       case RequestVote(from, _, term, logIndex, logTerm) =>
         (from, term) in h.candLog && logIndex == |h.candLog[(from, term)]| - 1
         && logTerm == LastTerm(h.candLog[(from, term)])
       case RequestVoteResponse(from, to, term, reject) =>
         !reject ==> (from, term) in h.votes && h.votes[(from, term)] == to
       case Append(_, _, _, _, _, _, _, _) => AppendOk(h, m)
       case AppendResponse(_, _, _, _, _, _) => AppendResponseOk(h, m)
       case InstallSnapshot(_, _, _, snapshot) => snapshot.oldVoters == 0
       case InstallSnapshotResponse(_, _, _, reject, _) => reject
       case _ => true
  }

  // ------------------------------------------------------------ nodes

  /** What the durable state of node `id` says about the history, whatever its memory holds. */
  ghost predicate DiskOk(h: History, id: nat, d: Disk) {
    var hard := d.wal.hard;
    && d.readable && d.wal.base == 0 && d.image == NO_SNAPSHOT
    && LogOk(h, d.wal.data) && TermsAtMost(d.wal.data, hard.term)
    && CommitOk(h, d.wal.data, hard.commit, hard.term)
    && (hard.votedFor != 0 ==> (id, hard.term) in h.votes)
    && (forall t :: (id, t) in h.votes ==> t <= hard.term && (t == hard.term ==> h.votes[(id, t)] == hard.votedFor))
    && (forall t :: (id, t) in h.candLog ==> t <= hard.term)
    && (forall t :: (id, t) in h.acks ==> t <= hard.term && RetainsAll(h, d.wal.data, id, t, hard.term + 1))
    && (forall x :: x in h.barriers && id in h.barriers[x].terms ==> h.barriers[x].terms[id] <= hard.term)
  }

  /** The fixed parts of a node in a cluster without compaction or membership change. */
  ghost predicate StaticOk(h: History, n: Node) {
    && n.id in h.voters
    && Ids(n.votersOld) == h.voters && n.votersNew == 0 && n.pendingConfig == 0
    && n.baseIndex == 0 && n.snapshot == NO_SNAPSHOT
    && (forall p :: p in n.peers <==> p in h.voters && p != n.id)
  }

  ghost predicate CandidateOk(h: History, n: Node) {
    && (n.id, n.term) in h.candLog && h.candLog[(n.id, n.term)] == n.log
    && !(n.term in h.leaderOf && h.leaderOf[n.term] == n.id)
    && (forall f :: f in Ids(n.voteMask) ==> (f, n.term) in h.votes && h.votes[(f, n.term)] == n.id)
  }

  ghost predicate BarrierHolds(h: History, n: Node) {
    && n.readContext in h.barriers
    && var b := h.barriers[n.readContext];
    && b.term == n.term && b.leader == n.id && b.started <= n.commit
    && (forall f :: f in Ids(n.readAckMask) && f in b.terms ==> b.terms[f] <= n.term)
    && (n.readReady ==> Covers(b, n.readIndex))
  }

  /** The leader's log is its term's log; its barrier, if any, belongs to this term. */
  ghost predicate LeaderCore(h: History, n: Node) {
    && n.term in h.leaderOf && n.term in h.llog && h.leaderOf[n.term] == n.id && h.llog[n.term] == n.log
    && (n.term in h.commits ==> h.commits[n.term] <= n.commit)
    && (BarrierHolds(h, n)
        || (!n.readReady && (n.readContext in h.barriers ==> h.barriers[n.readContext].term != n.term)))
  }

  /** A positive match index was acknowledged in this term. */
  ghost predicate MatchedOk(h: History, n: Node) {
    forall p :: p in n.peers && At(n.matched, p) > 0 ==>
      (p, n.term) in h.acks && h.acks[(p, n.term)] >= At(n.matched, p)
  }

  /** Memory and disk say the same. */
  ghost predicate Synced(n: Node) {
    Clean(n.disk) && n.disk.wal.hard == HardState(n.term, n.votedFor, n.commit) && n.disk.wal.data == n.log
  }

  ghost predicate LiveOk(h: History, n: Node) {
    && Synced(n)
    && (n.role == Candidate ==> CandidateOk(h, n))
    && (n.role == Leader ==> LeaderCore(h, n) && MatchedOk(h, n))
    && (n.role != Leader ==> !n.readReady)
  }

  ghost predicate OutboundOk(h: History, n: Node) {
    forall q :: q in n.outbound ==> MessageOk(h, q.msg) && q.msg.from == n.id
  }

  ghost predicate NodeOk(h: History, n: Node) {
    && StaticOk(h, n)
    && DiskOk(h, n.id, n.disk)
    && LogOk(h, n.log) && CommitOk(h, n.log, n.commit, n.disk.wal.hard.term)
    && OutboundOk(h, n)
    && (if n.faulted then n.role == Follower && n.outbound == [] else LiveOk(h, n))
  }

  // ------------------------------------------------------------ taking the invariant apart

  lemma Facts(h: History, n: Node)
    requires NodeOk(h, n)
    ensures StaticOk(h, n) && DiskOk(h, n.id, n.disk) && OutboundOk(h, n)
    ensures LogOk(h, n.log) && CommitOk(h, n.log, n.commit, n.disk.wal.hard.term)
    ensures if n.faulted then n.role == Follower else LiveOk(h, n)
  {}

  /** For a live node memory and disk agree, so the disk's claims are the memory's. */
  lemma LiveNodeOk(h: History, n: Node)
    requires !n.faulted && StaticOk(h, n) && DiskOk(h, n.id, n.disk) && OutboundOk(h, n) && LiveOk(h, n)
    ensures NodeOk(h, n)
  {}

  lemma TermFacts(h: History, t: nat)
    requires HistOk(h)
    ensures t in h.llog ==> ElectionOk(h, t) && LeaderLogOk(h, t)
    ensures t in h.leaderOf || t in h.electors ==> t in h.llog
    ensures t in h.commits ==> CommitRecordOk(h, t)
  {}

  lemma VoteFacts(h: History, f: nat, t: nat)
    requires HistOk(h)
    ensures (f, t) in h.votes ==> VoteOk(h, f, t)
    ensures (f, t) in h.voteLog ==> VoteLogOk(h, f, t)
    ensures (f, t) in h.candLog ==> CandidacyOk(h, f, t)
    ensures (f, t) in h.acks ==> AckOk(h, f, t)
  {}

  lemma AckFacts(h: History, f: nat)
    requires HistOk(h)
    ensures forall u :: (f, u) in h.acks ==> AckOk(h, f, u)
  {}

  lemma BarrierFacts(h: History, x: nat)
    requires HistOk(h)
    ensures x in h.barriers ==> BarrierOk(h, x)
  {}

  // ------------------------------------------------------------ consequences for logs

  /** A well-formed log ends in the leader log of its last term. */
  lemma EndsInLeaderLog(h: History, log: Log)
    requires LogOk(h, log) && LastTerm(log) > 0
    ensures LastTerm(log) in h.llog && Prefix(log, h.llog[LastTerm(log)])
  {
    var k := |log| - 1;
    assert k >= 1;
    assert EntryOk(h, log, k);
    assert log[..k + 1] == log;
  }

  lemma LogIsMonotone(h: History, log: Log)
    requires HistOk(h) && LogOk(h, log)
    ensures Monotone(log)
  {
    forall j, k | 0 <= j <= k < |log|
      ensures log[j].term <= log[k].term
    {
      if 1 <= k {
        assert EntryOk(h, log, k);
        var l := h.llog[log[k].term];
        assert LeaderLogOk(h, log[k].term);
        assert log[j] == log[..k + 1][j] == l[..k + 1][j] == l[j];
        assert log[k] == log[..k + 1][k] == l[..k + 1][k] == l[k];
      }
    }
  }

  /** Log matching: equal terms at an index force equal prefixes. */
  lemma SameTermSamePrefix(h: History, a: Log, b: Log, k: nat)
    requires LogOk(h, a) && LogOk(h, b)
    requires k < |a| && k < |b| && a[k].term == b[k].term
    ensures Agree(a, b, k)
  {
    if k == 0 {
      assert a[..1] == [a[0]] && b[..1] == [b[0]];
    } else {
      assert EntryOk(h, a, k) && EntryOk(h, b, k);
    }
  }

  lemma AgreeDown(a: Log, b: Log, k: nat, j: nat)
    requires Agree(a, b, k) && j <= k
    ensures Agree(a, b, j) && a[j] == b[j]
  {
    assert a[..j + 1] == a[..k + 1][..j + 1];
    assert b[..j + 1] == b[..k + 1][..j + 1];
    assert a[j] == a[..k + 1][j];
    assert b[j] == b[..k + 1][j];
  }

  lemma PrefixAgrees(a: Log, b: Log, k: nat)
    requires Prefix(a, b) && k < |a|
    ensures Agree(a, b, k)
  {
    assert a[..k + 1] == b[..|a|][..k + 1] == b[..k + 1];
  }

  // ------------------------------------------------------------ election safety, leader completeness

  /** Two candidates with a majority of one term's votes are the same candidate. */
  lemma OneWinnerPerTerm(h: History, t: nat, c: nat, mine: set<nat>)
    requires HistOk(h) && t in h.llog && Majority(h.voters, mine)
    requires forall f :: f in mine ==> (f, t) in h.votes && h.votes[(f, t)] == c
    ensures h.leaderOf[t] == c
  {
    assert ElectionOk(h, t);
    var f := MajoritiesIntersect(h.voters, h.electors[t], mine);
  }

  /**
   Leader completeness. Once a majority has acknowledged an entry of a leader's own term,
   every later leader has that entry and everything before it.
   */
  lemma {:induction false} LeaderCompleteness(h: History, t: nat, k: nat, later: nat)
    requires HistOk(h) && OwnEntry(h, t, k) && Majority(h.voters, Ackers(h, t, k))
    requires later in h.llog && t < later
    ensures Agree(h.llog[later], h.llog[t], k)
    decreases later
  {
    assert ElectionOk(h, later) && LeaderLogOk(h, later) && LeaderLogOk(h, t);
    var f := MajoritiesIntersect(h.voters, h.electors[later], Ackers(h, t, k));
    var c := h.candLog[(h.leaderOf[later], later)];
    var v := h.voteLog[(f, later)];
    assert VoteLogOk(h, f, later);
    assert RetainsAll(h, v, f, t, later);
    assert Retains(h, v, t, k, later);
    if !Agree(v, h.llog[t], k) {
      var u :| t < u < later && Missing(h, t, k, u);
      LeaderCompleteness(h, t, k, u);
      assert false;
    }
    CandidateHas(h, t, k, later, v);
    PrefixAgrees(c, h.llog[later], k);
  }

  /** A candidate at least as up to date as a log with the entry has the entry itself. */
  lemma {:induction false} CandidateHas(h: History, t: nat, k: nat, later: nat, v: Log)
    requires HistOk(h) && OwnEntry(h, t, k) && Majority(h.voters, Ackers(h, t, k))
    requires later in h.llog && t < later && ElectionOk(h, later)
    requires LogOk(h, v) && Agree(v, h.llog[t], k)
    requires AtLeastAsUpToDate(h.candLog[(h.leaderOf[later], later)], v)
    ensures Agree(h.candLog[(h.leaderOf[later], later)], h.llog[t], k)
    decreases later, 0
  {
    var c := h.candLog[(h.leaderOf[later], later)];
    assert CandidacyOk(h, h.leaderOf[later], later) && ElectionOk(h, t) && LeaderLogOk(h, t);
    LogIsMonotone(h, v);
    AgreeDown(v, h.llog[t], k, k);
    assert LastTerm(v) >= v[k].term == t;
    var u := LastTerm(c);
    EndsInLeaderLog(h, c);
    if u == LastTerm(v) {
      EndsInLeaderLog(h, v);
      LongerOfOneLeader(c, v, h.llog[u], h.llog[t], k);
    } else {
      assert t < u < later;
      LeaderCompleteness(h, t, k, u);
      NewerLastTerm(c, h.llog[u], h.llog[t], k);
    }
  }

  lemma LongerOfOneLeader(c: Log, v: Log, leader: Log, target: Log, k: nat)
    requires Prefix(c, leader) && Prefix(v, leader) && |v| <= |c| && Agree(v, target, k)
    ensures Agree(c, target, k)
  {
    PrefixAgrees(c, leader, k);
    PrefixAgrees(v, leader, k);
  }

  lemma NewerLastTerm(c: Log, leader: Log, target: Log, k: nat)
    requires Prefix(c, leader) && Agree(leader, target, k) && Monotone(target) && LastTerm(c) > target[k].term
    ensures Agree(c, target, k)
  {
    var last := |c| - 1;
    if last <= k {
      AgreeDown(leader, target, k, last);
      assert false;
    }
    PrefixAgrees(c, leader, k);
  }

  /** Whatever was committed up to some term, a leader of that or a later term has. */
  lemma LeaderHasCommitted(h: History, log: Log, commit: nat, t: nat, later: nat)
    requires HistOk(h) && CommittedAt(h, log, commit, t)
    requires later in h.llog && t <= later
    ensures Agree(log, h.llog[later], commit)
  {
    assert CommitRecordOk(h, t);
    if t < later {
      LeaderCompleteness(h, t, h.commits[t], later);
      AgreeDown(h.llog[later], h.llog[t], h.commits[t], commit);
    }
  }

  /** The latest of the terms that vouch for two committed prefixes. */
  lemma CommittedPrefixesAgree(h: History, a: Log, ca: nat, t: nat, b: Log, cb: nat, u: nat, k: nat)
    requires HistOk(h) && CommittedAt(h, a, ca, t) && CommittedAt(h, b, cb, u)
    requires k <= ca && k <= cb
    ensures Agree(a, b, k)
  {
    var later := if t <= u then u else t;
    LeaderHasCommitted(h, a, ca, t, later);
    LeaderHasCommitted(h, b, cb, u, later);
    AgreeDown(a, h.llog[later], ca, k);
    AgreeDown(b, h.llog[later], cb, k);
  }
}
