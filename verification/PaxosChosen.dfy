/**
 The counting definition of "chosen" in examples/paxos/cluster.go. It counts entries of the
 acceptance histories; it counts acceptors exactly when no history repeats an entry, which
 at-most-once delivery guarantees and duplication breaks.
 */
module PaxosChosen {
  import opened Masks
  import opened Paxos
  import opened PaxosSafety

  // ------------------------------------------------------------ counting

  function Flat(histories: seq<seq<Acceptance>>): seq<Acceptance> {
    if histories == [] then [] else Flat(histories[..|histories| - 1]) + histories[|histories| - 1]
  }

  /** The values that reach the quorum among the first `k` entries, in first-seen order. */
  function Found(flat: seq<Acceptance>, quorum: nat, k: nat): seq<nat>
    requires k <= |flat|
  {
    if k == 0 then []
    else
      var f, a := Found(flat, quorum, k - 1), flat[k - 1];
      if multiset(flat)[a] >= quorum && a.val !in f then f + [a.val] else f
  }

  /** Each value once, and exactly those with a quorum of entries at some number. */
  lemma {:induction false} FoundMeans(flat: seq<Acceptance>, quorum: nat, k: nat)
    requires k <= |flat|
    ensures Distinct(Found(flat, quorum, k))
    ensures forall v :: v in Found(flat, quorum, k) <==>
              exists j :: 0 <= j < k && flat[j].val == v && multiset(flat)[flat[j]] >= quorum
  {
    if k > 0 {
      FoundMeans(flat, quorum, k - 1);
      var f, g := Found(flat, quorum, k - 1), Found(flat, quorum, k);
      forall v | v in g ensures exists j :: 0 <= j < k && flat[j].val == v && multiset(flat)[flat[j]] >= quorum {
        if v in f {
          var j :| 0 <= j < k - 1 && flat[j].val == v && multiset(flat)[flat[j]] >= quorum;
        } else {
          assert flat[k - 1].val == v;
        }
      }
    }
  }

  /** chosenValues: count every entry, then walk the histories again for a stable order. */
  method ChosenValues(histories: seq<seq<Acceptance>>) returns (found: seq<nat>)
    ensures found == Found(Flat(histories), |histories| / 2 + 1, |Flat(histories)|)
  {
    var counts := CountEntries(histories);
    found := Collect(histories, counts, |histories| / 2 + 1);
  }

  method CountEntries(histories: seq<seq<Acceptance>>) returns (counts: map<Acceptance, nat>)
    ensures forall a :: Read(counts, a) == multiset(Flat(histories))[a]
  {
    hide Flat;
    counts := map[];
    assert Flat([]) == [] by { FlatOfNone(); }
    for i := 0 to |histories|
      invariant forall a :: Read(counts, a) == multiset(Flat(histories[..i]))[a]
    {
      var h := histories[i];
      ghost var before := Flat(histories[..i]);
      FlatStep(histories, i);
      assert before + h[..0] == before;
      for j := 0 to |h|
        invariant forall a :: Read(counts, a) == multiset(before + h[..j])[a]
      {
        assert before + h[..j + 1] == (before + h[..j]) + [h[j]];
        counts := counts[h[j] := Read(counts, h[j]) + 1];
      }
      assert h[..|h|] == h;
    }
    assert histories[..|histories|] == histories;
  }

  method Collect(histories: seq<seq<Acceptance>>, counts: map<Acceptance, nat>, quorum: nat) returns (found: seq<nat>)
    requires forall a :: Read(counts, a) == multiset(Flat(histories))[a]
    ensures found == Found(Flat(histories), quorum, |Flat(histories)|)
  {
    hide Flat;
    ghost var flat := Flat(histories);
    found := [];
    var seen: set<nat> := {};
    FlatOfNone();
    FlatPrefix(histories, 0);
    for i := 0 to |histories|
      invariant |Flat(histories[..i])| <= |flat|
      invariant found == Found(flat, quorum, |Flat(histories[..i])|)
      invariant forall v :: v in seen <==> v in found
    {
      var h := histories[i];
      ghost var base := |Flat(histories[..i])|;
      FlatStep(histories, i);
      FlatPrefix(histories, i + 1);
      for j := 0 to |h|
        invariant found == Found(flat, quorum, base + j)
        invariant forall v :: v in seen <==> v in found
      {
        assert flat[base + j] == flat[..base + |h|][base + j] == h[j];
        if Read(counts, h[j]) >= quorum && h[j].val !in seen {
          seen := seen + {h[j].val};
          found := found + [h[j].val];
        }
      }
    }
    assert histories[..|histories|] == histories;
  }

  lemma FlatOfNone()
    ensures Flat([]) == []
  {
  }

  /** A Go map read: absent keys read as zero. */
  function Read(m: map<Acceptance, nat>, a: Acceptance): nat {
    if a in m then m[a] else 0
  }

  lemma FlatStep(histories: seq<seq<Acceptance>>, i: nat)
    requires i < |histories|
    ensures Flat(histories[..i + 1]) == Flat(histories[..i]) + histories[i]
  {
    assert histories[..i + 1][..i] == histories[..i];
  }

  lemma {:induction false} FlatPrefix(histories: seq<seq<Acceptance>>, i: nat)
    requires i <= |histories|
    ensures |Flat(histories[..i])| <= |Flat(histories)|
    ensures Flat(histories)[..|Flat(histories[..i])|] == Flat(histories[..i])
    decreases |histories|
  {
    var n := |histories| - 1;
    if i == |histories| {
      assert histories[..i] == histories;
    } else {
      FlatPrefix(histories[..n], i);
      assert histories[..n][..i] == histories[..i];
    }
  }

  /** Node `i` owns history `i - 1`. */
  function HistoryOf(histories: seq<seq<Acceptance>>, i: nat): seq<Acceptance> {
    if 0 < i <= |histories| then histories[i - 1] else []
  }

  /** The nodes whose history holds `a`. */
  function Holders(histories: seq<seq<Acceptance>>, a: Acceptance): set<nat> {
    set i: nat | i <= |histories| && a in HistoryOf(histories, i)
  }

  predicate RepeatsIn(h: seq<Acceptance>, a: Acceptance) {
    multiset(h)[a] > 1
  }

  /** Counting entries counts acceptors exactly when no history repeats the entry. */
  lemma {:induction false} CountsAcceptorsIff(histories: seq<seq<Acceptance>>, a: Acceptance)
    ensures multiset(Flat(histories))[a] >= |Holders(histories, a)|
    ensures multiset(Flat(histories))[a] == |Holders(histories, a)|
       <==> forall i :: 0 <= i < |histories| ==> !RepeatsIn(histories[i], a)
  {
    if histories != [] {
      var n := |histories| - 1;
      var before, h := histories[..n], histories[n];
      CountsAcceptorsIff(before, a);
      HoldersStep(histories, a);
      assert forall i :: 0 <= i < n ==> before[i] == histories[i];
      assert multiset(Flat(histories))[a] == multiset(Flat(before))[a] + multiset(h)[a];
    }
  }

  lemma HoldersStep(histories: seq<seq<Acceptance>>, a: Acceptance)
    requires histories != []
    ensures var n := |histories| - 1;
            |Holders(histories, a)| == |Holders(histories[..n], a)| + (if a in histories[n] then 1 else 0)
  {
    var n := |histories| - 1;
    var before := histories[..n];
    forall i: nat ensures i in Holders(histories, a) <==> i in Holders(before, a) || (i == n + 1 && a in histories[n]) {
      assert i <= n ==> HistoryOf(histories, i) == HistoryOf(before, i);
    }
    assert Holders(histories, a) == Holders(before, a) + (if a in histories[n] then {n + 1} else {});
  }

  /** One message delivered twice is accepted twice, whenever it is accepted at all. */
  lemma DoubleDeliveryRepeats(n: Node, m: Message)
    requires m.Accept?
    ensures var a := Acceptance(m.num, m.val);
            Step(Step(n, m), m).accepts == n.accepts + (if m.num >= n.promised then [a, a] else [])
  {
  }

  /** So after duplication one acceptor out of three is counted as a quorum. */
  lemma DuplicationMiscounts(a: Acceptance)
    ensures var histories := [[], [a, a], []];
            Found(Flat(histories), 2, |Flat(histories)|) == [a.val] && |Holders(histories, a)| == 1
  {
    hide Flat, Holders;
    MiscountedFlat(a);
    MiscountedHolders(a);
    assert multiset([a, a])[a] == 2;
    assert Found([a, a], 2, 1) == [a.val];
  }

  lemma MiscountedFlat(a: Acceptance)
    ensures Flat([[], [a, a], []]) == [a, a]
  {
    hide Flat;
    var h := [[], [a, a], []];
    FlatOfNone();
    FlatStep(h, 0);
    FlatStep(h, 1);
    FlatStep(h, 2);
    assert h[..0] == [] && h[..3] == h;
  }

  lemma MiscountedHolders(a: Acceptance)
    ensures |Holders([[], [a, a], []], a)| == 1
  {
    var h := [[], [a, a], []];
    assert HistoryOf(h, 1) == [] && HistoryOf(h, 2) == [a, a] && HistoryOf(h, 3) == [];
    assert Holders(h, a) == {2};
  }

  // ------------------------------------------------------------ at-most-once delivery

  /** A world together with the message instances not yet delivered. */
  datatype Once = Once(w: World, inflight: multiset<Message>)

  predicate OnceEnabled(o: Once, a: Action) {
    Enabled(o.w, a) && (a.Deliver? ==> a.m in o.inflight)
  }

  function OnceAct(o: Once, a: Action): Once
    requires OnceEnabled(o, a)
  {
    var kept := if a.Deliver? then o.inflight - multiset{a.m} else o.inflight;
    Once(Act(o.w, a), kept + multiset(Called(o.w, a).outbound))
  }

  function OnceRun(size: Size, timeouts: nat -> nat, actions: seq<Action>): Once {
    if actions == [] then Once(Initial(size, timeouts), multiset{})
    else
      var o := OnceRun(size, timeouts, actions[..|actions| - 1]);
      var a := actions[|actions| - 1];
      if OnceEnabled(o, a) then OnceAct(o, a) else o
  }

  /** An Accept in flight is the only one of its kind, and has not been accepted yet. */
  ghost predicate FlightOk(o: Once, m: Message) {
    m.Accept? && m in o.inflight ==>
      o.inflight[m] == 1 && m in o.w.net && Owner(o.w.size, m.num) == m.from && m.to != m.from
      && (m.to in o.w.nodes ==> Acceptance(m.num, m.val) !in o.w.nodes[m.to].accepts)
  }

  ghost predicate NodeFresh(n: Node) {
    n.outbound == [] && n.peers == PeersUpTo(n.id, n.size) && forall a :: !RepeatsIn(n.accepts, a)
  }

  ghost predicate OnceOk(o: Once) {
    (forall i :: i in o.w.nodes ==> NodeFresh(o.w.nodes[i])) && forall m :: FlightOk(o, m)
  }

  /** What one call can add: at most one acceptance, and Accepts only for a number new to everybody. */
  ghost predicate CallOk(n: Node, n': Node, h: History) {
    n'.peers == n.peers && n'.id == n.id && n'.size == n.size
    && (n'.accepts == n.accepts
        || exists a :: n'.accepts == n.accepts + [a] && a.num !in h)
    && (forall m :: m in n'.outbound && m.Accept? ==>
          m == Accept(n.id, m.to, n'.myNum, n'.myVal) && m.to in n.peers && multiset(n'.outbound)[m] == 1
          && m.num !in h && Owner(n.size, m.num) == n.id)
  }

  lemma {:induction false} PeersAreDistinct(id: nat, last: nat)
    ensures forall p :: p in PeersUpTo(id, last) ==> p != id && p <= last
    ensures forall p :: multiset(PeersUpTo(id, last))[p] <= 1
  {
    if last > 0 {
      PeersAreDistinct(id, last - 1);
      assert last !in PeersUpTo(id, last - 1);
      assert last !in multiset(PeersUpTo(id, last - 1));
      assert last != id ==> PeersUpTo(id, last) == PeersUpTo(id, last - 1) + [last];
    }
  }

  /** The queue after a broadcast: what was there, then one message per remaining peer. */
  lemma {:induction false} BroadcastQueue(n: Node, k: nat, message: nat -> Message, m: Message)
    requires k <= |n.peers|
    ensures var r := SendToPeers(n, k, message);
            r == n.(outbound := r.outbound)
            && multiset(r.outbound)[m] == multiset(n.outbound)[m] + CountSent(n.peers[k..], message, m)
    decreases |n.peers| - k
  {
    if k < |n.peers| {
      var n1 := n.(outbound := n.outbound + [message(n.peers[k])]);
      BroadcastQueue(n1, k + 1, message, m);
      assert n.peers[k..][1..] == n.peers[k + 1..];
    }
  }

  function CountSent(peers: seq<nat>, message: nat -> Message, m: Message): nat {
    if peers == [] then 0 else (if message(peers[0]) == m then 1 else 0) + CountSent(peers[1..], message, m)
  }

  /** With one message per peer, a message is queued as often as its receiver is a peer. */
  lemma {:induction false} CountSentIs(peers: seq<nat>, message: nat -> Message, m: Message)
    requires forall p :: message(p).to == p
    ensures CountSent(peers, message, m) == if m == message(m.to) then multiset(peers)[m.to] else 0
  {
    if peers != [] {
      CountSentIs(peers[1..], message, m);
      assert peers == [peers[0]] + peers[1..];
    }
  }

  lemma RecordPromiseCall(n: Node, from: nat, r: Reply, h: History)
    requires n.outbound == [] && n.myNum !in h && Owner(n.size, n.myNum) == n.id
    requires n.peers == PeersUpTo(n.id, n.size)
    ensures CallOk(n, RecordPromise(n, from, r), h)
    ensures RecordPromise(n, from, r).myNum == n.myNum
  {
    hide Quorum, Owner, Or, SendToPeers;
    var n1 := NotePromise(n, from, r);
    var n2 := SelfAccept(EnterAccepting(n1));
    assert n2.accepts == n.accepts || n2.accepts == n.accepts + [Acceptance(n.myNum, n2.myVal)];
    if Quorum(n1.size, n1.promiseMask) && !Quorum(n2.size, n2.acceptMask) {
      AcceptQueue(n2);
    }
  }

  lemma AcceptQueue(n: Node)
    requires n.outbound == [] && n.peers == PeersUpTo(n.id, n.size)
    ensures var r := SendToPeers(n, 0, (p: nat) => Accept(n.id, p, n.myNum, n.myVal));
            r == n.(outbound := r.outbound)
            && forall m :: m in r.outbound ==>
                 m == Accept(n.id, m.to, n.myNum, n.myVal) && m.to in n.peers && multiset(r.outbound)[m] == 1
  {
    hide SendToPeers;
    var message := (p: nat) => Accept(n.id, p, n.myNum, n.myVal);
    var r := SendToPeers(n, 0, message);
    PeersAreDistinct(n.id, n.size);
    BroadcastQueue(n, 0, message, Prepare(0, 0, 0));
    forall m | m in r.outbound
      ensures m == Accept(n.id, m.to, n.myNum, n.myVal) && m.to in n.peers && multiset(r.outbound)[m] == 1
    {
      BroadcastQueue(n, 0, message, m);
      assert n.peers[0..] == n.peers;
      CountSentIs(n.peers, message, m);
      assert multiset(r.outbound)[m] > 0;
    }
  }

  lemma PrepareQueue(n: Node)
    ensures var r := SendToPeers(n, 0, (p: nat) => Prepare(n.id, p, n.myNum));
            r == n.(outbound := r.outbound)
            && forall m: Message :: m.Accept? ==> multiset(r.outbound)[m] == multiset(n.outbound)[m]
  {
    hide SendToPeers;
    var message := (p: nat) => Prepare(n.id, p, n.myNum);
    var r := SendToPeers(n, 0, message);
    BroadcastQueue(n, 0, message, Accept(0, 0, 0, 0));
    forall m: Message | m.Accept? ensures multiset(r.outbound)[m] == multiset(n.outbound)[m] {
      BroadcastQueue(n, 0, message, m);
      CountSentIs(n.peers[0..], message, m);
    }
  }

  lemma ProposeCall(w: World, h: History, i: nat, val: nat)
    requires Inv(w, h) && i in w.nodes && val in w.asked && NodeFresh(w.nodes[i])
    ensures CallOk(w.nodes[i], Propose(w.nodes[i], val), h)
  {
    hide Inv, NextRound, Owner, RecordPromise, SendToPeers, AcceptorPart, NumberPart, ProposerPart, RepeatsIn, All;
    var n := w.nodes[i];
    Facts(w, h, i);
    var n1 := StartRound(n, val);
    StartRoundOk(w, h, i, val);
    PreparedNumberIsNew(With(w, i, n1), h, i);
    OwnPrepareIsGranted(n, val);
    var (n2, r) := OnPrepare(n1, n1.myNum);
    RecordPromiseCall(n2, n2.id, r, h);
    var n3 := RecordPromise(n2, n2.id, r);
    PrepareQueue(n3);
    var n4 := Propose(n, val);
    forall m | m in n4.outbound && m.Accept?
      ensures m == Accept(n.id, m.to, n4.myNum, n4.myVal) && m.to in n.peers && multiset(n4.outbound)[m] == 1
              && m.num !in h && Owner(n.size, m.num) == n.id
    {
      assert multiset(n4.outbound)[m] > 0;
      assert m in n3.outbound;
    }
  }

  lemma OtherCalls(w: World, h: History, a: Action)
    requires Inv(w, h) && Enabled(w, a) && NodeFresh(w.nodes[ActorOf(a)])
    requires a.Deliver? ==> !a.m.Accept?
    ensures CallOk(w.nodes[ActorOf(a)], Called(w, a), h)
  {
    hide Inv, Owner, RecordPromise, Propose, Quorum, Or, AcceptorPart, NumberPart, RepeatsIn, All;
    var i := ActorOf(a);
    var n := w.nodes[i];
    match a
    case ProposeAt(_, val) =>
      AskOk(w, h, val);
      ProposeCall(w.(asked := w.asked + {val}), h, i, val);
    case TickAt(_) =>
      if n.phase == Preparing || n.phase == Accepting {
        ElapsedOk(w, h, i);
        var n1 := n.(elapsed := n.elapsed + 1);
        ProposeCall(With(w, i, n1), h, i, n1.myVal);
      }
    case Deliver(m) =>
      if m.Promise? && m.num == n.myNum && n.phase == Preparing && m.ok {
        PreparedNumberIsNew(w, h, i);
        Facts(w, h, i);
        RecordPromiseCall(n, m.from, Reply(true, m.acceptedNum, m.acceptedVal, m.hasAccepted), h);
      }
  }

  lemma AppendOnce(s: seq<Acceptance>, a: Acceptance)
    requires (forall x :: !RepeatsIn(s, x)) && a !in s
    ensures forall x :: !RepeatsIn(s + [a], x)
  {
    assert multiset(s)[a] == 0;
    forall x ensures !RepeatsIn(s + [a], x) {
      assert !RepeatsIn(s, x);
    }
  }

  lemma InHistory(w: World, h: History, i: nat, a: Acceptance)
    requires Inv(w, h) && i in w.nodes && a in w.nodes[i].accepts
    ensures a.num in h
  {
    hide Inv, NumberPart, ProposerPart;
    Facts(w, h, i);
  }

  lemma AcceptInHistory(w: World, h: History, m: Message)
    requires Inv(w, h) && m in w.net && m.Accept?
    ensures m.num in h
  {
    hide Inv;
    NetOk(w, h, m);
  }

  lemma CallKeepsNodesFresh(o: Once, h: History, a: Action)
    requires Inv(o.w, h) && OnceOk(o) && OnceEnabled(o, a)
    ensures forall x :: !RepeatsIn(Called(o.w, a).accepts, x)
    ensures Called(o.w, a).peers == PeersUpTo(Called(o.w, a).id, Called(o.w, a).size)
  {
    hide Inv, Called, RepeatsIn, PeersUpTo;
    var i := ActorOf(a);
    var n, n' := o.w.nodes[i], Called(o.w, a);
    assert NodeFresh(n);
    if a.Deliver? && a.m.Accept? {
      AcceptDelivery(o.w, a.m);
      assert FlightOk(o, a.m);
      AppendOnce(n.accepts, Acceptance(a.m.num, a.m.val));
    } else {
      OtherCalls(o.w, h, a);
      if n'.accepts != n.accepts {
        var x :| n'.accepts == n.accepts + [x] && x.num !in h;
        if x in n.accepts { InHistory(o.w, h, i, x); }
        AppendOnce(n.accepts, x);
      }
    }
  }

  lemma AcceptDelivery(w: World, m: Message)
    requires m.Accept? && Enabled(w, Deliver(m)) && w.nodes[m.to].outbound == []
    ensures var n, n' := w.nodes[m.to], Called(w, Deliver(m));
            n'.peers == n.peers && n'.id == n.id && n'.size == n.size
            && (n'.accepts == n.accepts || n'.accepts == n.accepts + [Acceptance(m.num, m.val)])
            && forall x :: x in n'.outbound ==> !x.Accept?
  {
  }

  lemma FlightStaysOk(o: Once, h: History, a: Action, m: Message)
    requires Inv(o.w, h) && OnceOk(o) && OnceEnabled(o, a) && m.Accept? && m in OnceAct(o, a).inflight
    ensures FlightOk(OnceAct(o, a), m)
  {
    hide Inv, Called, RepeatsIn, Owner, PeersUpTo, AcceptorPart, NumberPart, ProposerPart;
    var i := ActorOf(a);
    var n, n', o' := o.w.nodes[i], Called(o.w, a), OnceAct(o, a);
    Facts(o.w, h, i);
    assert NodeFresh(n) && FlightOk(o, m);
    var kept := if a.Deliver? then o.inflight - multiset{a.m} else o.inflight;
    assert o'.inflight[m] == kept[m] + multiset(n'.outbound)[m];
    if a.Deliver? && a.m.Accept? {
      AcceptDelivery(o.w, a.m);
      assert FlightOk(o, a.m);
      assert m !in n'.outbound;
      assert m in kept && m != a.m;
    } else {
      OtherCalls(o.w, h, a);
      if m in o.inflight { AcceptInHistory(o.w, h, m); }
      if m in n'.outbound {
        PeersAreDistinct(n.id, n.size);
        assert m !in o.inflight;
        NewAcceptIsNew(o.w, h, i, m, n.id);
      }
    }
  }

  lemma NewAcceptIsNew(w: World, h: History, i: nat, m: Message, id: nat)
    requires Inv(w, h) && i in w.nodes && w.nodes[i].id == id && m.Accept? && m.from == id && m.num !in h && m.to != id
    ensures m.to != i
    ensures m.to in w.nodes ==> Acceptance(m.num, m.val) !in w.nodes[m.to].accepts
  {
    hide Inv, AcceptorPart, NumberPart, ProposerPart;
    Facts(w, h, i);
    var a := Acceptance(m.num, m.val);
    if m.to in w.nodes && a in w.nodes[m.to].accepts { InHistory(w, h, m.to, a); }
  }

  lemma OnceActOk(o: Once, h: History, a: Action)
    requires Inv(o.w, h) && OnceOk(o) && OnceEnabled(o, a)
    ensures OnceOk(OnceAct(o, a))
  {
    hide Inv, Called, FlightOk;
    var o' := OnceAct(o, a);
    CallKeepsNodesFresh(o, h, a);
    forall m ensures FlightOk(o', m) {
      if m.Accept? && m in o'.inflight { FlightStaysOk(o, h, a, m); } else { NotInFlight(o', m); }
    }
    forall j | j in o'.w.nodes ensures NodeFresh(o'.w.nodes[j]) {
      assert j != ActorOf(a) ==> NodeFresh(o.w.nodes[j]);
    }
  }

  lemma NotInFlight(o: Once, m: Message)
    requires !m.Accept? || m !in o.inflight
    ensures FlightOk(o, m)
  {
  }

  lemma {:induction false} OnceRunsOk(size: Size, timeouts: nat -> nat, actions: seq<Action>) returns (h: History)
    ensures Inv(OnceRun(size, timeouts, actions).w, h) && OnceOk(OnceRun(size, timeouts, actions))
    ensures OnceRun(size, timeouts, actions).w.size == size
  {
    hide Inv, Called, Act, OnceOk, Initial;
    if actions == [] {
      InitialOk(size, timeouts);
      InitialOnce(size, timeouts);
      h := map[];
    } else {
      h := OnceRunsOk(size, timeouts, actions[..|actions| - 1]);
      var o := OnceRun(size, timeouts, actions[..|actions| - 1]);
      var a := actions[|actions| - 1];
      if OnceEnabled(o, a) {
        OnceActOk(o, h, a);
        h := ActOk(o.w, h, a);
        ActKeepsSize(o.w, a);
      }
    }
  }

  lemma ActKeepsSize(w: World, a: Action)
    requires Enabled(w, a)
    ensures Act(w, a).size == w.size
  {
  }

  lemma InitialOnce(size: Size, timeouts: nat -> nat)
    ensures OnceOk(Once(Initial(size, timeouts), multiset{})) && Initial(size, timeouts).size == size
  {
  }

  // ------------------------------------------------------------ the count is right

  function HistoriesOf(w: World): seq<seq<Acceptance>>
    requires w.nodes.Keys == All(w.size)
  {
    seq(w.size, i requires 0 <= i < w.size => w.nodes[i + 1].accepts)
  }

  lemma HoldersAreAcceptors(w: World, h: History, num: nat, val: nat)
    requires Inv(w, h)
    ensures |Holders(HistoriesOf(w), Acceptance(num, val))| == |Acceptors(w, num, val)|
    ensures ChosenAt(w, num, val) <==> |Acceptors(w, num, val)| >= w.size / 2 + 1
  {
    hide Inv, All;
    Keys(w, h);
    var a := Acceptance(num, val);
    var hs := HistoriesOf(w);
    forall i: nat ensures i in Holders(hs, a) <==> i in Acceptors(w, num, val) {
      assert i in w.nodes ==> HistoryOf(hs, i) == w.nodes[i].accepts;
    }
    assert Holders(hs, a) == Acceptors(w, num, val);
  }

  lemma Keys(w: World, h: History)
    requires Inv(w, h)
    ensures w.nodes.Keys == All(w.size)
  {
  }

  /** Under at-most-once delivery an entry reaches the quorum exactly when its value is chosen there. */
  lemma EntryCountMeansChosen(o: Once, h: History, a: Acceptance)
    requires Inv(o.w, h) && OnceOk(o)
    ensures o.w.nodes.Keys == All(o.w.size)
    ensures multiset(Flat(HistoriesOf(o.w)))[a] >= o.w.size / 2 + 1 <==> ChosenAt(o.w, a.num, a.val)
  {
    hide Inv, ChosenAt, Flat, Holders, FlightOk, All, RepeatsIn;
    Keys(o.w, h);
    var hs := HistoriesOf(o.w);
    CountsAcceptorsIff(hs, a);
    HoldersAreAcceptors(o.w, h, a.num, a.val);
    forall i | 0 <= i < |hs| ensures !RepeatsIn(hs[i], a) {
      assert i + 1 in All(o.w.size);
      assert NodeFresh(o.w.nodes[i + 1]);
    }
  }

  /**
   With at-most-once delivery chosenValues returns exactly the values a quorum of distinct
   acceptors accepted at a common number, and so it never returns two.
   */
  lemma CountingIsRight(size: Size, timeouts: nat -> nat, actions: seq<Action>, v: nat)
    ensures OnceRun(size, timeouts, actions).w.nodes.Keys == All(OnceRun(size, timeouts, actions).w.size)
    ensures var w := OnceRun(size, timeouts, actions).w;
            var flat := Flat(HistoriesOf(w));
            (v in Found(flat, size / 2 + 1, |flat|) <==> exists num :: ChosenAt(w, num, v))
            && |Found(flat, size / 2 + 1, |flat|)| <= 1
  {
    hide OnceRun, Inv, OnceOk, ChosenAt, Flat, Found, HistoriesOf, All;
    var o := OnceRun(size, timeouts, actions);
    var w := o.w;
    var h := OnceRunsOk(size, timeouts, actions);
    Keys(w, h);
    var flat, q := Flat(HistoriesOf(w)), size / 2 + 1;
    var found := Found(flat, q, |flat|);
    FoundMeans(flat, q, |flat|);
    forall a: Acceptance ensures multiset(flat)[a] >= q <==> ChosenAt(w, a.num, a.val) {
      EntryCountMeansChosen(o, h, a);
    }
    forall x | x in found ensures exists num :: ChosenAt(w, num, x) {
      var j :| 0 <= j < |flat| && flat[j].val == x && multiset(flat)[flat[j]] >= q;
      assert ChosenAt(w, flat[j].num, x);
    }
    forall num | ChosenAt(w, num, v) ensures v in found {
      var a := Acceptance(num, v);
      assert multiset(flat)[a] >= q;
      assert a in flat;
      var j :| 0 <= j < |flat| && flat[j] == a;
    }
    if |found| > 1 {
      assert found[0] in found && found[1] in found;
      var n1 :| ChosenAt(w, n1, found[0]);
      var n2 :| ChosenAt(w, n2, found[1]);
      ChosenValuesAgree(w, h, n1, found[0], n2, found[1]);
    }
  }

  // ------------------------------------------------------------ a run with duplication

  /** The node after its first proposal in a cluster of three. */
  lemma FirstProposal(id: nat, timeout: nat, val: nat)
    requires 1 <= id <= 3
    ensures var n := Propose(NewNode(id, 3, timeout), val);
            n.id == id && n.size == 3 && n.promised == 3 + id && n.myNum == 3 + id && n.myVal == val
            && n.phase == Preparing && n.promiseMask == NodeBit(id) && !n.hasBest && n.accepts == [] && !n.hasAccepted
            && n.peers == PeersUpTo(id, 3)
            && forall p :: p in PeersUpTo(id, 3) ==> Prepare(id, p, 3 + id) in n.outbound
  {
    hide SendToPeers, Ids;
    var n1 := StartRound(NewNode(id, 3, timeout), val);
    assert n1.myNum == 3 + id;
    var (n2, r) := OnPrepare(n1, n1.myNum);
    OneIdIsNoQuorum(id);
    assert Or(0, Bit(id)) == NodeBit(id);
    var n3 := RecordPromise(n2, id, r);
    assert n3 == NotePromise(n2, id, r);
    var n := Propose(NewNode(id, 3, timeout), val);
    PrepareQueue(n3);
    forall p | p in PeersUpTo(id, 3) ensures Prepare(id, p, 3 + id) in n.outbound {
      var message := (q: nat) => Prepare(n3.id, q, n3.myNum);
      var k :| 0 <= k < |n3.peers| && n3.peers[k] == p;
      SentToPeer(n3, 0, message, k);
    }
  }

  lemma NobodyIsNoQuorum()
    ensures !Quorum(3, 0)
  {
    assert Ids(0) == {};
  }

  lemma OneIdIsNoQuorum(id: nat)
    requires 1 <= id <= 3
    ensures Ids(NodeBit(id)) == {id} && !Quorum(3, NodeBit(id))
  {
    Pow2MeansSingleton(id - 1, 1);
  }

  lemma {:induction false} SentToPeer(n: Node, k: nat, message: nat -> Message, j: nat)
    requires k <= j < |n.peers|
    ensures message(n.peers[j]) in SendToPeers(n, k, message).outbound
    decreases j - k
  {
    var n1 := n.(outbound := n.outbound + [message(n.peers[k])]);
    if k == j {
      StaysQueued(n1, k + 1, message, message(n.peers[j]));
    } else {
      SentToPeer(n1, k + 1, message, j);
    }
  }

  lemma {:induction false} StaysQueued(n: Node, k: nat, message: nat -> Message, m: Message)
    requires m in n.outbound
    ensures m in SendToPeers(n, k, message).outbound
    decreases |n.peers| - k
  {
    if k < |n.peers| { StaysQueued(n.(outbound := n.outbound + [message(n.peers[k])]), k + 1, message, m); }
  }

  /** A proposer of three that promised past its own number still sends Accept, and accepts nothing itself. */
  lemma OvertakenProposer(n: Node)
    requires n.id == 1 && n.size == 3 && n.peers == PeersUpTo(1, 3) && n.phase == Preparing && n.myNum == 4
    requires n.promised == 6 && n.promiseMask == NodeBit(1) && !n.hasBest && n.accepts == [] && n.outbound == []
    ensures var r := RecordPromise(n, 2, Reply(true, 0, 0, false));
            r.accepts == [] && Accept(1, 2, 4, n.myVal) in r.outbound
  {
    hide SendToPeers, Ids, Or;
    var n1 := NotePromise(n, 2, Reply(true, 0, 0, false));
    RecordingAddsSender(NodeBit(1), 2);
    OneIdIsNoQuorum(1);
    assert n1.promiseMask == Or(NodeBit(1), NodeBit(2));
    assert |{1, 2}| == 2 && Ids(n1.promiseMask) == {1} + {2} == {1, 2};
    var n2 := SelfAccept(EnterAccepting(n1));
    assert n2 == EnterAccepting(n1);
    NobodyIsNoQuorum();
    var message := (p: nat) => Accept(n2.id, p, n2.myNum, n2.myVal);
    SendKeeps(n2, 0, message);
    SentToPeer(n2, 0, message, 0);
    assert n2.peers[0] == 2;
  }

  function DuplicatingRun(val: nat, other: nat): seq<Action> {
    [ProposeAt(1, val), ProposeAt(3, other), Deliver(Prepare(1, 2, 4)), Deliver(Prepare(3, 1, 6)),
     Deliver(Promise(2, 1, 4, true, 0, 0, false)), Deliver(Accept(1, 2, 4, val)), Deliver(Accept(1, 2, 4, val))]
  }

  lemma RunStep(size: Size, timeouts: nat -> nat, actions: seq<Action>, k: nat)
    requires k < |actions|
    ensures var w := RunOf(size, timeouts, actions[..k]);
            RunOf(size, timeouts, actions[..k + 1]) == if Enabled(w, actions[k]) then Act(w, actions[k]) else w
  {
    assert actions[..k + 1][..k] == actions[..k];
  }

  /** After two proposals. */
  lemma DuplicatingProposals(timeouts: nat -> nat, val: nat, other: nat)
    ensures var w := RunOf(3, timeouts, DuplicatingRun(val, other)[..2]);
            w.size == 3 && w.nodes.Keys == {1, 2, 3} && Prepare(1, 2, 4) in w.net && Prepare(3, 1, 6) in w.net
            && w.nodes[1] == Propose(NewNode(1, 3, timeouts(1)), val).(outbound := [])
            && w.nodes[2] == NewNode(2, 3, timeouts(2)) && w.nodes[3].accepts == []
  {
    hide Propose;
    var actions := DuplicatingRun(val, other);
    FirstProposal(1, timeouts(1), val);
    FirstProposal(3, timeouts(3), other);
    assert 2 in PeersUpTo(1, 3) && 1 in PeersUpTo(3, 3);
    assert All(3) == {1, 2, 3};
    assert actions[..0] == [];
    RunStep(3, timeouts, actions, 0);
    RunStep(3, timeouts, actions, 1);
  }

  /** Then node 2 promises to node 1, and node 1 to node 3. */
  lemma DuplicatingPromises(timeouts: nat -> nat, val: nat, other: nat)
    ensures var w := RunOf(3, timeouts, DuplicatingRun(val, other)[..4]);
            w.size == 3 && w.nodes.Keys == {1, 2, 3} && Promise(2, 1, 4, true, 0, 0, false) in w.net
            && w.nodes[1] == Propose(NewNode(1, 3, timeouts(1)), val).(promised := 6, outbound := [])
            && w.nodes[2] == NewNode(2, 3, timeouts(2)).(promised := 4) && w.nodes[3].accepts == []
  {
    hide Propose, RunOf;
    var actions := DuplicatingRun(val, other);
    DuplicatingProposals(timeouts, val, other);
    FirstProposal(1, timeouts(1), val);
    RunStep(3, timeouts, actions, 2);
    RunStep(3, timeouts, actions, 3);
  }

  /** Then node 1 enters phase two without accepting anything itself. */
  lemma DuplicatingPhaseTwo(timeouts: nat -> nat, val: nat, other: nat)
    ensures var w := RunOf(3, timeouts, DuplicatingRun(val, other)[..5]);
            w.size == 3 && w.nodes.Keys == {1, 2, 3} && Accept(1, 2, 4, val) in w.net && w.nodes[1].accepts == []
            && w.nodes[2] == NewNode(2, 3, timeouts(2)).(promised := 4) && w.nodes[3].accepts == []
  {
    hide Propose, RunOf, RecordPromise;
    DuplicatingPromises(timeouts, val, other);
    FirstProposal(1, timeouts(1), val);
    OvertakenProposer(RunOf(3, timeouts, DuplicatingRun(val, other)[..4]).nodes[1]);
    RunStep(3, timeouts, DuplicatingRun(val, other), 4);
  }

  /**
   Duplication makes the count wrong in a real run: one acceptor out of three accepted, no
   quorum did, and the entries still reach the quorum.
   */
  lemma DuplicatedAcceptIsCountedTwice(timeouts: nat -> nat, val: nat, other: nat)
    ensures var w := RunOf(3, timeouts, DuplicatingRun(val, other));
            w.nodes.Keys == All(w.size) && HistoriesOf(w) == [[], [Acceptance(4, val), Acceptance(4, val)], []]
            && !ChosenAt(w, 4, val)
            && Found(Flat(HistoriesOf(w)), 2, |Flat(HistoriesOf(w))|) == [val]
  {
    hide RunOf, Flat, Found;
    var actions := DuplicatingRun(val, other);
    var a := Acceptance(4, val);
    DuplicatingPhaseTwo(timeouts, val, other);
    RunStep(3, timeouts, actions, 5);
    RunStep(3, timeouts, actions, 6);
    assert actions[..7] == actions;
    var w := RunOf(3, timeouts, actions);
    assert w.nodes[1].accepts == [] && w.nodes[2].accepts == [a, a] && w.nodes[3].accepts == [];
    OnlyNodeTwo(w, a);
    DuplicationMiscounts(a);
  }

  lemma OnlyNodeTwo(w: World, a: Acceptance)
    requires w.size == 3 && w.nodes.Keys == {1, 2, 3}
    requires w.nodes[1].accepts == [] && w.nodes[2].accepts == [a, a] && w.nodes[3].accepts == []
    ensures w.nodes.Keys == All(w.size) && HistoriesOf(w) == [[], [a, a], []] && !ChosenAt(w, a.num, a.val)
  {
    assert All(3) == {1, 2, 3};
    assert Acceptors(w, a.num, a.val) == {2};
  }
}
