/**
 Paxos agreement for any cluster size and any run. The network is the set of every message
 ever sent, so loss, delay, duplication and reordering need no steps of their own. The
 invariant speaks of a history of proposals: for each number that entered phase two, its
 value, the quorum that promised, and the best acceptance that quorum reported.
 */
module PaxosSafety {
  import opened Masks
  import opened Paxos

  // ------------------------------------------------------------ the cluster

  datatype World = World(size: Size, nodes: map<nat, Node>, net: set<Message>, asked: set<nat>)

  /** The ids 1..size. */
  function All(size: nat): (s: set<nat>)
    ensures forall i :: i in s <==> 1 <= i <= size
  {
    if size == 0 then {} else All(size - 1) + {size}
  }

  lemma {:induction false} CountAll(size: nat)
    ensures |All(size)| == size
  {
    if size > 0 { CountAll(size - 1); }
  }

  function Initial(size: Size, timeouts: nat -> nat): World {
    World(size, map i | i in All(size) :: NewNode(i, size, timeouts(i)), {}, {})
  }

  datatype Action = ProposeAt(id: nat, val: nat) | TickAt(id: nat) | Deliver(m: Message)

  predicate Enabled(w: World, a: Action) {
    match a
    case ProposeAt(i, _) => i in w.nodes
    case TickAt(i) => i in w.nodes
    case Deliver(m) => m in w.net && m.to in w.nodes
  }

  function ActorOf(a: Action): nat {
    match a
    case ProposeAt(i, _) => i
    case TickAt(i) => i
    case Deliver(m) => m.to
  }

  /** The acting node right after its call, its queue not yet drained. */
  function Called(w: World, a: Action): Node
    requires Enabled(w, a)
  {
    match a
    case ProposeAt(i, val) => Propose(w.nodes[i], val)
    case TickAt(i) => Tick(w.nodes[i])
    case Deliver(m) => Step(w.nodes[m.to], m)
  }

  function With(w: World, i: nat, n: Node): World {
    w.(nodes := w.nodes[i := n])
  }

  /** One call, after which the node's queue is drained into the network. */
  function Act(w: World, a: Action): World
    requires Enabled(w, a)
  {
    var n := Called(w, a);
    World(w.size, w.nodes[ActorOf(a) := n.(outbound := [])], w.net + (set m | m in n.outbound),
          if a.ProposeAt? then w.asked + {a.val} else w.asked)
  }

  function RunOf(size: Size, timeouts: nat -> nat, actions: seq<Action>): World {
    if actions == [] then Initial(size, timeouts)
    else
      var w := RunOf(size, timeouts, actions[..|actions| - 1]);
      var a := actions[|actions| - 1];
      if Enabled(w, a) then Act(w, a) else w
  }

  /** The nodes that ever accepted `val` at `num`. */
  function Acceptors(w: World, num: nat, val: nat): set<nat> {
    set i | i in w.nodes && Acceptance(num, val) in w.nodes[i].accepts
  }

  predicate IsQuorum(size: nat, s: set<nat>) {
    s <= All(size) && |s| >= size / 2 + 1
  }

  /** A quorum accepted `val` at the common number `num`. */
  predicate ChosenAt(w: World, num: nat, val: nat) {
    IsQuorum(w.size, Acceptors(w, num, val))
  }

  // ------------------------------------------------------------ numbers

  lemma {:induction false} Residue(r: nat, size: Size, x: nat)
    requires x < size
    ensures (r * size + x) % size == x
  {
    if r > 0 {
      Residue(r - 1, size, x);
      assert r * size + x == (r - 1) * size + x + size;
      ModStep((r - 1) * size + x, size);
    }
  }

  lemma ModStep(y: nat, size: Size)
    ensures (y + size) % size == y % size
  {
    var q, m := y / size, y % size;
    assert y + size == (q + 1) * size + m;
    DivUnique(y + size, size, q + 1, m);
  }

  lemma MulGap(q: nat, q': nat, size: Size)
    ensures q < q' ==> q' * size >= q * size + size
  {
    if q < q' { assert q' * size == q * size + size + (q' - q - 1) * size; }
  }

  lemma DivUnique(y: nat, size: Size, q: nat, m: nat)
    requires y == q * size + m && m < size
    ensures y % size == m
  {
    var q' := y / size;
    assert y == q' * size + y % size;
    MulGap(q, q', size);
    MulGap(q', q, size);
  }

  /** The proposer a number belongs to. */
  function Owner(size: Size, num: nat): nat {
    if num == 0 then 0 else (num - 1) % size + 1
  }

  lemma OwnerOfNumber(r: nat, size: Size, i: nat)
    requires i in All(size)
    ensures r * size + i > 0 && Owner(size, r * size + i) == i
  {
    Residue(r, size, i - 1);
  }

  /** Numbers never collide across proposers, whatever their rounds. */
  lemma NumbersNeverCollide(size: Size, r: nat, i: nat, s: nat, j: nat)
    requires i in All(size) && j in All(size) && r * size + i == s * size + j
    ensures i == j && r == s
  {
    OwnerOfNumber(r, size, i);
    OwnerOfNumber(s, size, j);
    MulGap(r, s, size);
    MulGap(s, r, size);
  }

  /** A new round's number is above every earlier number of its node and above its promise. */
  lemma RoundGoesUp(n: Node, val: nat)
    ensures var n1 := StartRound(n, val);
            n1.myNum >= n.round * n.size + n.id + n.size && n1.myNum > n.promised + n.id - 1
  {
    var round := NextRound(n);
    assert round * n.size >= (n.round + 1) * n.size == n.round * n.size + n.size;
    var q := n.promised / n.size;
    assert round * n.size >= (q + 1) * n.size == q * n.size + n.size;
    assert n.promised == q * n.size + n.promised % n.size;
  }

  /** So a proposer's own Prepare is always granted. */
  lemma OwnPrepareIsGranted(n: Node, val: nat)
    requires n.id > 0
    ensures var n1 := StartRound(n, val);
            OnPrepare(n1, n1.myNum).1.ok
  {
    RoundGoesUp(n, val);
  }

  // ------------------------------------------------------------ the invariant

  datatype Proposal = Proposal(val: nat, quorum: set<nat>, has: bool, best: nat)

  type History = map<nat, Proposal>

  /** Node `j` promised `num`, and its acceptances below `num` go no higher than `best`. */
  predicate Pledged(nodes: map<nat, Node>, j: nat, num: nat, has: bool, best: nat) {
    j in nodes && nodes[j].promised >= num
    && forall a :: a in nodes[j].accepts && a.num < num ==> has && a.num <= best
  }

  /** A reported acceptance is an earlier proposal with that value. */
  predicate Reported(h: History, num: nat, has: bool, best: nat, val: nat) {
    has ==> best < num && best in h && h[best].val == val
  }

  predicate ProposalOk(w: World, h: History, num: nat)
    requires num in h
  {
    var p := h[num];
    IsQuorum(w.size, p.quorum) && (forall j :: j in p.quorum ==> Pledged(w.nodes, j, num, p.has, p.best))
    && Reported(h, num, p.has, p.best, p.val) && p.val in w.asked
  }

  /** Acceptances are proposals of the history, and the last one reported is the highest. */
  predicate AcceptorOk(h: History, promised: nat, num: nat, val: nat, has: bool, accepts: seq<Acceptance>) {
    (forall a :: a in accepts ==> a.num <= promised && a.num in h && h[a.num].val == a.val)
    && (forall a :: a in accepts ==> has && a.num <= num)
    && (has ==> Acceptance(num, val) in accepts)
  }

  predicate AcceptorPart(h: History, n: Node) {
    AcceptorOk(h, n.promised, n.acceptedNum, n.acceptedVal, n.hasAccepted, n.accepts)
  }

  predicate InPhaseTwo(n: Node) {
    n.phase == Accepting || n.phase == Decided
  }

  /** Every proposal of node `i` is its current one or an earlier one. */
  predicate OwnNumbersOk(size: Size, h: History, i: nat, phase: Paxos.Phase, round: nat, myNum: nat, myVal: nat) {
    myNum == (if phase == Idle then 0 else round * size + i)
    && (phase == Idle ==> round == 0)
    && forall num :: num in h && Owner(size, num) == i ==>
         num <= myNum && (num == myNum ==> (phase == Accepting || phase == Decided) && h[num].val == myVal)
  }

  predicate NumberPart(size: Size, h: History, n: Node) {
    OwnNumbersOk(size, h, n.id, n.phase, n.round, n.myNum, n.myVal)
  }

  /** Every promise counted so far is a pledge, and the best report covers them all. */
  predicate PreparingOk(w: World, h: History, mask: Mask, num: nat, has: bool, best: nat, val: nat) {
    (forall j :: j in Ids(mask) ==> j in All(w.size) && Pledged(w.nodes, j, num, has, best))
    && Reported(h, num, has, best, val)
  }

  /** Every acceptance counted so far really happened. */
  predicate AcceptingOk(w: World, h: History, mask: Mask, num: nat, val: nat) {
    num in h && h[num].val == val
    && forall j :: j in Ids(mask) ==> j in All(w.size) && j in w.nodes && Acceptance(num, val) in w.nodes[j].accepts
  }

  predicate ProposerPart(w: World, h: History, n: Node) {
    (n.phase != Idle ==> n.myVal in w.asked)
    && (n.phase == Preparing ==> PreparingOk(w, h, n.promiseMask, n.myNum, n.hasBest, n.bestNum, n.bestVal))
    && (InPhaseTwo(n) ==> AcceptingOk(w, h, n.acceptMask, n.myNum, n.myVal))
    && (n.phase == Decided ==> Quorum(n.size, n.acceptMask))
  }

  predicate MsgOk(w: World, h: History, m: Message) {
    m.from in All(w.size)
    && match m
       case Prepare(_, _, _) => true
       case Promise(from, _, num, ok, accNum, accVal, has) =>
         ok ==> Pledged(w.nodes, from, num, has, accNum) && Reported(h, num, has, accNum, accVal)
       case Accept(_, _, num, val) => num in h && h[num].val == val
       case Accepted(from, _, num, ok) =>
         ok ==> num in h && from in w.nodes && Acceptance(num, h[num].val) in w.nodes[from].accepts
  }

  predicate NodeOk(w: World, h: History, i: nat, n: Node) {
    n.id == i && n.size == w.size && AcceptorPart(h, n) && NumberPart(w.size, h, n) && ProposerPart(w, h, n)
    && forall m :: m in n.outbound ==> MsgOk(w, h, m)
  }

  predicate Inv(w: World, h: History) {
    w.nodes.Keys == All(w.size)
    && (forall num :: num in h ==> ProposalOk(w, h, num))
    && (forall i :: i in w.nodes ==> NodeOk(w, h, i, w.nodes[i]))
    && (forall m :: m in w.net ==> MsgOk(w, h, m))
  }

  // ------------------------------------------------------------ what a step may change

  /** Promises only rise, and acceptances are only added at or above the promise. */
  predicate Grows(n: Node, n': Node) {
    n.promised <= n'.promised
    && (forall a :: a in n.accepts ==> a in n'.accepts)
    && (forall a :: a in n'.accepts ==> a in n.accepts || a.num >= n.promised)
  }

  predicate HistGrows(size: Size, h: History, h': History, i: nat) {
    (forall num :: num in h ==> num in h' && h'[num] == h[num])
    && (forall num :: num in h' ==> num in h || Owner(size, num) == i)
  }

  lemma PledgedStable(w: World, i: nat, n': Node, j: nat, num: nat, has: bool, best: nat)
    requires i in w.nodes && Grows(w.nodes[i], n') && Pledged(w.nodes, j, num, has, best)
    ensures Pledged(With(w, i, n').nodes, j, num, has, best)
  {
  }

  lemma MsgStable(w: World, h: History, h': History, i: nat, n': Node, m: Message)
    requires i in w.nodes && Grows(w.nodes[i], n') && HistGrows(w.size, h, h', i) && MsgOk(w, h, m)
    ensures MsgOk(With(w, i, n'), h', m)
  {
    if m.Promise? && m.ok { PledgedStable(w, i, n', m.from, m.num, m.hasAccepted, m.acceptedNum); }
  }

  lemma ProposalStable(w: World, h: History, h': History, i: nat, n': Node, num: nat)
    requires i in w.nodes && Grows(w.nodes[i], n') && HistGrows(w.size, h, h', i) && num in h && ProposalOk(w, h, num)
    ensures ProposalOk(With(w, i, n'), h', num)
  {
    hide IsQuorum, Pledged;
    var p := h[num];
    forall j | j in p.quorum ensures Pledged(With(w, i, n').nodes, j, num, p.has, p.best) {
      PledgedStable(w, i, n', j, num, p.has, p.best);
    }
  }

  lemma ProposerStable(w: World, h: History, h': History, i: nat, n': Node, n: Node)
    requires i in w.nodes && Grows(w.nodes[i], n') && HistGrows(w.size, h, h', i) && ProposerPart(w, h, n)
    ensures ProposerPart(With(w, i, n'), h', n)
  {
    hide Pledged, Quorum, All;
    var w' := With(w, i, n');
    if n.phase == Preparing {
      forall j | j in Ids(n.promiseMask) ensures Pledged(w'.nodes, j, n.myNum, n.hasBest, n.bestNum) {
        PledgedStable(w, i, n', j, n.myNum, n.hasBest, n.bestNum);
      }
    }
  }

  /** Everybody else's part of the invariant survives a step of node `i`. */
  lemma OthersStable(w: World, h: History, h': History, i: nat, n': Node, j: nat)
    requires i in w.nodes && Grows(w.nodes[i], n') && HistGrows(w.size, h, h', i)
    requires j in w.nodes && j != i && NodeOk(w, h, j, w.nodes[j])
    ensures NodeOk(With(w, i, n'), h', j, w.nodes[j])
  {
    hide ProposerPart, MsgOk, Grows;
    ProposerStable(w, h, h', i, n', w.nodes[j]);
    forall m | m in w.nodes[j].outbound ensures MsgOk(With(w, i, n'), h', m) {
      MsgStable(w, h, h', i, n', m);
    }
  }

  /** The frame of every step: only the acting node, and new proposals, need a proof. */
  lemma Stepped(w: World, h: History, h': History, i: nat, n': Node)
    requires Inv(w, h) && i in w.nodes && n'.id == i && n'.size == w.size
    requires Grows(w.nodes[i], n') && HistGrows(w.size, h, h', i)
    requires AcceptorPart(h', n') && NumberPart(w.size, h', n') && ProposerPart(With(w, i, n'), h', n')
    requires forall m :: m in n'.outbound ==> m in w.nodes[i].outbound || MsgOk(With(w, i, n'), h', m)
    requires forall num :: num in h' && num !in h ==> ProposalOk(With(w, i, n'), h', num)
    ensures Inv(With(w, i, n'), h')
  {
    hide AcceptorPart, NumberPart, ProposerPart, MsgOk, ProposalOk, Grows, All;
    var w' := With(w, i, n');
    assert w'.nodes.Keys == w.nodes.Keys;
    forall num | num in h' ensures ProposalOk(w', h', num) {
      if num in h { ProposalStable(w, h, h', i, n', num); }
    }
    forall m | m in n'.outbound ensures MsgOk(w', h', m) {
      if m in w.nodes[i].outbound { MsgStable(w, h, h', i, n', m); }
    }
    forall j | j in w'.nodes ensures NodeOk(w', h', j, w'.nodes[j]) {
      if j != i { OthersStable(w, h, h', i, n', j); }
    }
    forall m | m in w'.net ensures MsgOk(w', h', m) {
      MsgStable(w, h, h', i, n', m);
    }
  }

  lemma Facts(w: World, h: History, i: nat)
    requires Inv(w, h) && i in w.nodes
    ensures i in All(w.size) && w.nodes[i].id == i && w.nodes[i].size == w.size
    ensures AcceptorPart(h, w.nodes[i]) && NumberPart(w.size, h, w.nodes[i]) && ProposerPart(w, h, w.nodes[i])
    ensures InPhaseTwo(w.nodes[i]) ==> w.nodes[i].myNum in h && h[w.nodes[i].myNum].val == w.nodes[i].myVal
  {
    hide AcceptorPart, NumberPart, MsgOk, ProposalOk, Pledged;
    assert NodeOk(w, h, i, w.nodes[i]);
  }

  lemma ProposalFacts(w: World, h: History, num: nat)
    requires Inv(w, h) && num in h
    ensures ProposalOk(w, h, num)
  {
  }

  // ------------------------------------------------------------ the steps

  /** Promising: what the reply reports stays true for ever. */
  lemma PrepareOk(w: World, h: History, i: nat, num: nat)
    requires Inv(w, h) && i in w.nodes
    ensures var (n', r) := OnPrepare(w.nodes[i], num);
            var w' := With(w, i, n');
            Inv(w', h) && (r.ok ==> Pledged(w'.nodes, i, num, r.has, r.num) && Reported(h, num, r.has, r.num, r.val))
  {
    hide Inv, OwnNumbersOk, PreparingOk, AcceptingOk, Quorum, MsgOk;
    var (n', r) := OnPrepare(w.nodes[i], num);
    Facts(w, h, i);
    ProposerStable(w, h, h, i, n', w.nodes[i]);
    Stepped(w, h, h, i, n');
  }

  /** Accepting a proposal of the history. */
  lemma AcceptOk(w: World, h: History, i: nat, num: nat, val: nat)
    requires Inv(w, h) && i in w.nodes && num in h && h[num].val == val
    ensures var (n', ok) := OnAccept(w.nodes[i], num, val);
            Inv(With(w, i, n'), h) && (ok ==> Acceptance(num, val) in n'.accepts)
  {
    hide Inv, OwnNumbersOk, PreparingOk, AcceptingOk, Quorum, MsgOk;
    var (n', ok) := OnAccept(w.nodes[i], num, val);
    Facts(w, h, i);
    ProposerStable(w, h, h, i, n', w.nodes[i]);
    Stepped(w, h, h, i, n');
  }

  /** Queueing a message that is in order. */
  lemma SendOk(w: World, h: History, i: nat, m: Message)
    requires Inv(w, h) && i in w.nodes && MsgOk(w, h, m)
    ensures Inv(With(w, i, Send(w.nodes[i], m)), h)
  {
    hide Inv, AcceptorOk, OwnNumbersOk, PreparingOk, AcceptingOk, Quorum, MsgOk;
    var n' := Send(w.nodes[i], m);
    Facts(w, h, i);
    MsgStable(w, h, h, i, n', m);
    ProposerStable(w, h, h, i, n', w.nodes[i]);
    Stepped(w, h, h, i, n');
  }

  lemma {:induction false} SendToPeersOk(w: World, h: History, i: nat, k: nat, message: nat -> Message)
    requires Inv(w, h) && i in w.nodes
    requires forall p, n :: MsgOk(With(w, i, n), h, message(p)) <== Grows(w.nodes[i], n)
    ensures Inv(With(w, i, SendToPeers(w.nodes[i], k, message)), h)
    decreases |w.nodes[i].peers| - k
  {
    hide MsgOk, Inv;
    var n := w.nodes[i];
    assert With(w, i, n) == w;
    if k < |n.peers| {
      var m := message(n.peers[k]);
      assert MsgOk(With(w, i, n), h, m);
      SendOk(w, h, i, m);
      var n1 := Send(n, m);
      var w1 := With(w, i, n1);
      forall p, n2 | Grows(w1.nodes[i], n2) ensures MsgOk(With(w1, i, n2), h, message(p)) {
        assert Grows(n, n2);
        assert With(w1, i, n2) == With(w, i, n2);
      }
      SendToPeersOk(w1, h, i, k + 1, message);
      assert With(w1, i, SendToPeers(n1, k + 1, message)) == With(w, i, SendToPeers(n1, k + 1, message));
    }
  }

  /** A new round: a fresh number, nothing promised to it yet. */
  lemma StartRoundOk(w: World, h: History, i: nat, val: nat)
    requires Inv(w, h) && i in w.nodes && val in w.asked
    ensures Inv(With(w, i, StartRound(w.nodes[i], val)), h)
  {
    hide Inv, AcceptorOk, AcceptingOk, Quorum, MsgOk, Pledged, Owner;
    var n := w.nodes[i];
    Facts(w, h, i);
    RoundGoesUp(n, val);
    assert StartRound(n, val).myNum > n.myNum;
    assert Ids(0) == {};
    Stepped(w, h, h, i, StartRound(n, val));
  }

  lemma BitIds(mask: Mask, id: nat)
    ensures Ids(mask) <= Ids(Or(mask, Bit(id))) <= Ids(mask) + {id}
  {
    if 1 <= id <= 64 { RecordingAddsSender(mask, id); } else { OrMeansUnion(mask, 0, 1); }
  }

  lemma NotePromiseOk(w: World, h: History, i: nat, from: nat, r: Reply)
    requires Inv(w, h) && i in w.nodes && w.nodes[i].phase == Preparing && from in All(w.size)
    requires Pledged(w.nodes, from, w.nodes[i].myNum, r.has, r.num)
    requires Reported(h, w.nodes[i].myNum, r.has, r.num, r.val)
    ensures Inv(With(w, i, NotePromise(w.nodes[i], from, r)), h)
  {
    hide Inv, AcceptorOk, OwnNumbersOk, AcceptingOk, Quorum, MsgOk, All, Ids, Or;
    var n := w.nodes[i];
    var n' := NotePromise(n, from, r);
    var w' := With(w, i, n');
    Facts(w, h, i);
    BitIds(n.promiseMask, from);
    forall j | j in Ids(n'.promiseMask)
      ensures j in All(w.size) && Pledged(w'.nodes, j, n'.myNum, n'.hasBest, n'.bestNum)
    {
      var (has, best) := if j in Ids(n.promiseMask) then (n.hasBest, n.bestNum) else (r.has, r.num);
      PledgedStable(w, i, n', j, n.myNum, has, best);
    }
    Stepped(w, h, h, i, n');
  }

  /** A number still being prepared is not in the history. */
  lemma PreparedNumberIsNew(w: World, h: History, i: nat)
    requires Inv(w, h) && i in w.nodes && w.nodes[i].phase == Preparing
    ensures w.nodes[i].myNum !in h && Owner(w.size, w.nodes[i].myNum) == i
  {
    hide Inv, AcceptorOk, PreparingOk, AcceptingOk, Owner;
    Facts(w, h, i);
    OwnerOfNumber(w.nodes[i].round, w.size, i);
  }

  lemma NewProposalOk(w: World, h: History, h': History, i: nat)
    requires Inv(w, h) && i in w.nodes && w.nodes[i].phase == Preparing && w.nodes[i].myNum !in h
    requires Quorum(w.size, w.nodes[i].promiseMask)
    requires var n := w.nodes[i];
             h' == h[n.myNum := Proposal(Chosen(n), Ids(n.promiseMask), n.hasBest, n.bestNum)]
    ensures ProposalOk(With(w, i, EnterAccepting(w.nodes[i])), h', w.nodes[i].myNum)
  {
    hide Inv, AcceptorOk, OwnNumbersOk, AcceptingOk, Pledged, Ids;
    var n := w.nodes[i];
    var n' := EnterAccepting(n);
    Facts(w, h, i);
    ChosenWasAsked(w, h, i);
    forall j | j in Ids(n.promiseMask) ensures Pledged(With(w, i, n').nodes, j, n.myNum, n.hasBest, n.bestNum) {
      assert Grows(n, n');
      PledgedStable(w, i, n', j, n.myNum, n.hasBest, n.bestNum);
    }
  }

  lemma ChosenWasAsked(w: World, h: History, i: nat)
    requires Inv(w, h) && i in w.nodes && w.nodes[i].phase == Preparing
    ensures Chosen(w.nodes[i]) in w.asked
  {
    hide Inv, AcceptorOk, OwnNumbersOk, AcceptingOk, Pledged;
    Facts(w, h, i);
    if w.nodes[i].hasBest { ProposalFacts(w, h, w.nodes[i].bestNum); }
  }

  /** Phase two begins: the number enters the history with the quorum behind it. */
  lemma EnterAcceptingOk(w: World, h: History, i: nat) returns (h': History)
    requires Inv(w, h) && i in w.nodes && w.nodes[i].phase == Preparing
    requires Quorum(w.size, w.nodes[i].promiseMask)
    ensures Inv(With(w, i, EnterAccepting(w.nodes[i])), h')
  {
    hide Inv, MsgOk, Quorum, ProposalOk, PreparingOk, Owner, Pledged;
    var n := w.nodes[i];
    var n' := EnterAccepting(n);
    Facts(w, h, i);
    PreparedNumberIsNew(w, h, i);
    h' := h[n.myNum := Proposal(n'.myVal, Ids(n.promiseMask), n.hasBest, n.bestNum)];
    NewProposalOk(w, h, h', i);
    ChosenWasAsked(w, h, i);
    assert Ids(0) == {};
    Stepped(w, h, h', i, n');
  }

  /** Counting an acceptance that really happened, whether or not it completes the quorum. */
  lemma CountedOk(w: World, h: History, i: nat, from: nat, n': Node)
    requires Inv(w, h) && i in w.nodes && w.nodes[i].phase == Accepting && from in All(w.size) && from in w.nodes
    requires Acceptance(w.nodes[i].myNum, w.nodes[i].myVal) in w.nodes[from].accepts
    requires n' == w.nodes[i].(acceptMask := Or(w.nodes[i].acceptMask, Bit(from)), phase := n'.phase)
    requires n'.phase == Accepting || (n'.phase == Decided && Quorum(n'.size, n'.acceptMask))
    ensures Inv(With(w, i, n'), h)
  {
    hide Inv, AcceptorOk, PreparingOk, Quorum, MsgOk, All, Ids, Or, Owner;
    Facts(w, h, i);
    BitIds(w.nodes[i].acceptMask, from);
    Stepped(w, h, h, i, n');
  }

  // ------------------------------------------------------------ whole calls

  lemma SelfAcceptOk(w: World, h: History, i: nat)
    requires Inv(w, h) && i in w.nodes && w.nodes[i].phase == Accepting
    ensures Inv(With(w, i, SelfAccept(w.nodes[i])), h)
  {
    hide Inv, AcceptorPart, NumberPart, ProposerPart, All, Or;
    var n := w.nodes[i];
    Facts(w, h, i);
    AcceptOk(w, h, i, n.myNum, n.myVal);
    var (n1, ok) := OnAccept(n, n.myNum, n.myVal);
    if ok {
      CountedOk(With(w, i, n1), h, i, i, SelfAccept(n));
      WithTwice(w, i, n1, SelfAccept(n));
    }
  }

  lemma DecideOk(w: World, h: History, i: nat)
    requires Inv(w, h) && i in w.nodes && w.nodes[i].phase == Accepting && Quorum(w.size, w.nodes[i].acceptMask)
    ensures Inv(With(w, i, w.nodes[i].(phase := Decided)), h)
  {
    hide Inv, AcceptorOk, PreparingOk, Quorum, MsgOk, All, Ids, Owner;
    Facts(w, h, i);
    Stepped(w, h, h, i, w.nodes[i].(phase := Decided));
  }

  lemma BroadcastOk(w: World, h: History, i: nat, accepting: bool)
    requires Inv(w, h) && i in w.nodes && (accepting ==> InPhaseTwo(w.nodes[i]))
    ensures Inv(With(w, i, SendToPeers(w.nodes[i], 0, Ballot(w.nodes[i], accepting))), h)
  {
    hide Inv, AcceptorPart, NumberPart, ProposerPart, All;
    Facts(w, h, i);
    SendToPeersOk(w, h, i, 0, Ballot(w.nodes[i], accepting));
  }

  lemma RecordPromiseOk(w: World, h: History, i: nat, from: nat, r: Reply) returns (h': History)
    requires Inv(w, h) && i in w.nodes && w.nodes[i].phase == Preparing && from in All(w.size)
    requires Pledged(w.nodes, from, w.nodes[i].myNum, r.has, r.num)
    requires Reported(h, w.nodes[i].myNum, r.has, r.num, r.val)
    ensures Inv(With(w, i, RecordPromise(w.nodes[i], from, r)), h')
  {
    hide Inv, Pledged, Reported, Quorum, NotePromise, OnAccept, AcceptorPart, NumberPart, ProposerPart, All;
    var n := w.nodes[i];
    Facts(w, h, i);
    NotePromiseOk(w, h, i, from, r);
    h' := h;
    var n1 := NotePromise(n, from, r);
    NotePromiseKeepsPhase(n, from, r);
    if Quorum(n1.size, n1.promiseMask) {
      var w1 := With(w, i, n1);
      h' := EnterAcceptingOk(w1, h, i);
      var n2 := EnterAccepting(n1);
      var w2 := With(w1, i, n2);
      SelfAcceptOk(w2, h', i);
      SelfAcceptKeepsPhase(n2);
      FinishAccepting(With(w2, i, SelfAccept(n2)), h', i);
      WithTwice(w, i, n1, n2);
      WithTwice(w, i, n2, SelfAccept(n2));
      WithTwice(w, i, SelfAccept(n2), RecordPromise(n, from, r));
    }
  }

  lemma WithTwice(w: World, i: nat, a: Node, b: Node)
    ensures With(With(w, i, a), i, b) == With(w, i, b)
  {
  }

  lemma NotePromiseKeepsPhase(n: Node, from: nat, r: Reply)
    ensures NotePromise(n, from, r).phase == n.phase && NotePromise(n, from, r).size == n.size
  {
  }

  lemma SelfAcceptKeepsPhase(n: Node)
    ensures SelfAccept(n).phase == n.phase
  {
  }

  /** After the self-acceptance: decided at once, or Accept goes to every peer. */
  function Finished(n: Node): Node {
    if Quorum(n.size, n.acceptMask) then n.(phase := Decided) else SendToPeers(n, 0, Ballot(n, true))
  }

  lemma FinishAccepting(w: World, h: History, i: nat)
    requires Inv(w, h) && i in w.nodes && w.nodes[i].phase == Accepting
    ensures Inv(With(w, i, Finished(w.nodes[i])), h)
  {
    hide Inv, Quorum, AcceptorPart, NumberPart, ProposerPart, All;
    Facts(w, h, i);
    if Quorum(w.size, w.nodes[i].acceptMask) { DecideOk(w, h, i); } else { BroadcastOk(w, h, i, true); }
  }

  lemma ProposeOk(w: World, h: History, i: nat, val: nat) returns (h': History)
    requires Inv(w, h) && i in w.nodes && val in w.asked
    ensures Inv(With(w, i, Propose(w.nodes[i], val)), h')
  {
    hide Inv, Pledged, Reported, RecordPromise, SendToPeers, StartRound;
    var n := w.nodes[i];
    Facts(w, h, i);
    StartRoundOk(w, h, i, val);
    var n1 := StartRound(n, val);
    StartRoundShape(n, val);
    var w1 := With(w, i, n1);
    PrepareOk(w1, h, i, n1.myNum);
    var (n2, r) := OnPrepare(n1, n1.myNum);
    var w2 := With(w1, i, n2);
    WithTwice(w, i, n1, n2);
    OwnPrepareIsGranted(n, val);
    h' := RecordPromiseOk(w2, h, i, i, r);
    var n3 := RecordPromise(n2, i, r);
    var w3 := With(w2, i, n3);
    WithTwice(w, i, n2, n3);
    BroadcastOk(w3, h', i, false);
    WithTwice(w, i, n3, Propose(n, val));
  }

  lemma StartRoundShape(n: Node, val: nat)
    ensures var n1 := StartRound(n, val);
            n1.phase == Preparing && n1.id == n.id && n1.size == n.size
  {
  }

  lemma TickOk(w: World, h: History, i: nat) returns (h': History)
    requires Inv(w, h) && i in w.nodes
    ensures Inv(With(w, i, Tick(w.nodes[i])), h')
  {
    hide Inv, Propose;
    var n := w.nodes[i];
    h' := h;
    assert With(w, i, n) == w;
    if n.phase == Preparing || n.phase == Accepting {
      var n1 := n.(elapsed := n.elapsed + 1);
      ElapsedOk(w, h, i);
      var w1 := With(w, i, n1);
      if n1.elapsed >= n1.timeout {
        h' := ProposeOk(w1, h, i, n1.myVal);
        WithTwice(w, i, n1, Propose(n1, n1.myVal));
      }
    }
  }

  lemma ElapsedOk(w: World, h: History, i: nat)
    requires Inv(w, h) && i in w.nodes
    ensures Inv(With(w, i, w.nodes[i].(elapsed := w.nodes[i].elapsed + 1)), h)
    ensures w.nodes[i].phase != Idle ==> w.nodes[i].myVal in w.asked
  {
    hide Inv, AcceptorOk, OwnNumbersOk, PreparingOk, AcceptingOk, Quorum, MsgOk;
    var n' := w.nodes[i].(elapsed := w.nodes[i].elapsed + 1);
    Facts(w, h, i);
    ProposerStable(w, h, h, i, n', w.nodes[i]);
    Stepped(w, h, h, i, n');
  }

  lemma StepOk(w: World, h: History, m: Message) returns (h': History)
    requires Inv(w, h) && m in w.net && m.to in w.nodes
    ensures Inv(With(w, m.to, Step(w.nodes[m.to], m)), h')
  {
    hide Inv, Pledged, Reported, RecordPromise, Quorum, OnPrepare, OnAccept, AcceptorPart, NumberPart, ProposerPart;
    var i := m.to;
    var n := w.nodes[i];
    h' := h;
    assert With(w, i, n) == w;
    Facts(w, h, i);
    NetOk(w, h, m);
    match m
    case Prepare(from, _, num) =>
      PrepareOk(w, h, i, num);
      var (n1, r) := OnPrepare(n, num);
      IdKept(n, num, 0);
      SendOk(With(w, i, n1), h, i, Promise(i, from, num, r.ok, r.num, r.val, r.has));
      WithTwice(w, i, n1, Step(n, m));
    case Promise(from, _, num, ok, accNum, accVal, has) =>
      if num == n.myNum && n.phase == Preparing && ok {
        h' := RecordPromiseOk(w, h, i, from, Reply(true, accNum, accVal, has));
      }
    case Accept(from, _, num, val) =>
      AcceptOk(w, h, i, num, val);
      var (n1, ok) := OnAccept(n, num, val);
      IdKept(n, num, val);
      SendOk(With(w, i, n1), h, i, Accepted(i, from, num, ok));
      WithTwice(w, i, n1, Step(n, m));
    case Accepted(from, _, num, ok) =>
      if num == n.myNum && n.phase == Accepting && ok { CountedOk(w, h, i, from, NoteAccepted(n, from)); }
  }

  lemma IdKept(n: Node, num: nat, val: nat)
    ensures OnPrepare(n, num).0.id == n.id && OnAccept(n, num, val).0.id == n.id
  {
  }

  lemma NetOk(w: World, h: History, m: Message)
    requires Inv(w, h) && m in w.net
    ensures MsgOk(w, h, m)
  {
  }

  /** Draining the queue into the network. */
  lemma DrainOk(w: World, h: History, i: nat)
    requires Inv(w, h) && i in w.nodes
    ensures var n := w.nodes[i];
            Inv(w.(nodes := w.nodes[i := n.(outbound := [])], net := w.net + (set m | m in n.outbound)), h)
  {
    hide AcceptorOk, OwnNumbersOk, PreparingOk, AcceptingOk, Quorum, MsgOk, ProposalOk, All;
    var n := w.nodes[i];
    var n' := n.(outbound := []);
    Facts(w, h, i);
    ProposerStable(w, h, h, i, n', n);
    Stepped(w, h, h, i, n');
    var w1 := With(w, i, n');
    var w2 := w1.(net := w.net + (set m | m in n.outbound));
    assert NodeOk(w, h, i, n);
    forall m | m in w2.net ensures MsgOk(w2, h, m) {
      if m !in w.net { MsgStable(w, h, h, i, n', m); }
      MoreNet(w1, w2, h, m);
    }
    forall num | num in h ensures ProposalOk(w2, h, num) { NetIsNotRead(w1, w2, h, num); }
    forall j | j in w2.nodes ensures NodeOk(w2, h, j, w2.nodes[j]) { NodeIgnoresNet(w1, w2, h, j); }
  }

  lemma MoreNet(w: World, w': World, h: History, m: Message)
    requires w' == w.(net := w'.net, asked := w'.asked) && w.asked <= w'.asked && MsgOk(w, h, m)
    ensures MsgOk(w', h, m)
  {
  }

  lemma NetIsNotRead(w: World, w': World, h: History, num: nat)
    requires w' == w.(net := w'.net, asked := w'.asked) && w.asked <= w'.asked && num in h && ProposalOk(w, h, num)
    ensures ProposalOk(w', h, num)
  {
    hide Pledged, IsQuorum;
  }

  lemma NodeIgnoresNet(w: World, w': World, h: History, i: nat)
    requires w' == w.(net := w'.net, asked := w'.asked) && w.asked <= w'.asked
    requires i in w.nodes && NodeOk(w, h, i, w.nodes[i])
    ensures NodeOk(w', h, i, w.nodes[i])
  {
    hide Pledged, Quorum, MsgOk, AcceptorPart, NumberPart;
    forall m | m in w.nodes[i].outbound ensures MsgOk(w', h, m) { MoreNet(w, w', h, m); }
  }

  lemma AskOk(w: World, h: History, val: nat)
    requires Inv(w, h)
    ensures Inv(w.(asked := w.asked + {val}), h)
  {
    hide ProposalOk, MsgOk, NodeOk;
    var w' := w.(asked := w.asked + {val});
    forall m | m in w'.net ensures MsgOk(w', h, m) { MoreNet(w, w', h, m); }
    forall num | num in h ensures ProposalOk(w', h, num) { NetIsNotRead(w, w', h, num); }
    forall j | j in w'.nodes ensures NodeOk(w', h, j, w'.nodes[j]) { NodeIgnoresNet(w, w', h, j); }
  }

  lemma ActOk(w: World, h: History, a: Action) returns (h': History)
    requires Inv(w, h) && Enabled(w, a)
    ensures Inv(Act(w, a), h')
  {
    hide Inv, Propose, Tick, Step;
    var i := ActorOf(a);
    var w0 := if a.ProposeAt? then w.(asked := w.asked + {a.val}) else w;
    match a {
      case ProposeAt(_, val) =>
        AskOk(w, h, val);
        h' := ProposeOk(w0, h, i, val);
      case TickAt(_) => h' := TickOk(w, h, i);
      case Deliver(m) => h' := StepOk(w, h, m);
    }
    var n := Called(w, a);
    var w1 := With(w0, i, n);
    DrainOk(w1, h', i);
    assert w1.nodes[i := n.(outbound := [])] == w.nodes[i := n.(outbound := [])];
  }

  lemma InitialOk(size: Size, timeouts: nat -> nat)
    ensures Inv(Initial(size, timeouts), map[])
  {
    var w := Initial(size, timeouts);
    assert w.nodes.Keys == All(size);
  }

  /** Every run keeps the invariant, for some history of its proposals. */
  lemma {:induction false} RunsAreSafe(size: Size, timeouts: nat -> nat, actions: seq<Action>) returns (h: History)
    ensures Inv(RunOf(size, timeouts, actions), h)
  {
    hide Inv, Act, Initial;
    if actions == [] {
      InitialOk(size, timeouts);
      h := map[];
    } else {
      h := RunsAreSafe(size, timeouts, actions[..|actions| - 1]);
      var w := RunOf(size, timeouts, actions[..|actions| - 1]);
      if Enabled(w, actions[|actions| - 1]) { h := ActOk(w, h, actions[|actions| - 1]); }
    }
  }

  // ------------------------------------------------------------ agreement

  lemma Domain(w: World, h: History, j: nat)
    requires Inv(w, h)
    ensures j in w.nodes <==> j in All(w.size)
  {
  }

  /** Whatever was chosen at `num`, every later proposal carries that value. */
  lemma {:induction false} LaterProposalsAgree(w: World, h: History, num: nat, val: nat, later: nat)
    requires Inv(w, h) && ChosenAt(w, num, val) && later in h && num <= later
    ensures h[later].val == val
    decreases later
  {
    hide Inv, NumberPart, ProposerPart, All;
    var p := h[later];
    ProposalFacts(w, h, later);
    var q := Acceptors(w, num, val);
    CountAll(w.size);
    assert All(w.size) * q == q && All(w.size) * p.quorum == p.quorum;
    var j := MajoritiesIntersect(All(w.size), q, p.quorum);
    Domain(w, h, j);
    Facts(w, h, j);
    var a := Acceptance(num, val);
    assert a in w.nodes[j].accepts;
    if num < later {
      assert Pledged(w.nodes, j, later, p.has, p.best);
      assert p.has && num <= p.best;
      LaterProposalsAgree(w, h, num, val, p.best);
    }
  }

  lemma ChosenIsProposal(w: World, h: History, num: nat, val: nat)
    requires Inv(w, h) && ChosenAt(w, num, val)
    ensures num in h && h[num].val == val && val in w.asked
  {
    hide Inv, NumberPart, ProposerPart, All, Pledged;
    var q := Acceptors(w, num, val);
    assert q != {};
    var j :| j in q;
    Facts(w, h, j);
    ProposalFacts(w, h, num);
  }

  lemma ChosenValuesAgree(w: World, h: History, n1: nat, v1: nat, n2: nat, v2: nat)
    requires Inv(w, h) && ChosenAt(w, n1, v1) && ChosenAt(w, n2, v2)
    ensures v1 == v2
  {
    hide Inv, ChosenAt;
    ChosenIsProposal(w, h, n1, v1);
    ChosenIsProposal(w, h, n2, v2);
    if n1 <= n2 { LaterProposalsAgree(w, h, n1, v1, n2); } else { LaterProposalsAgree(w, h, n2, v2, n1); }
  }

  /** At most one value is ever accepted by a quorum at a common number. */
  lemma Agreement(size: Size, timeouts: nat -> nat, actions: seq<Action>, n1: nat, v1: nat, n2: nat, v2: nat)
    requires ChosenAt(RunOf(size, timeouts, actions), n1, v1) && ChosenAt(RunOf(size, timeouts, actions), n2, v2)
    ensures v1 == v2
  {
    hide Inv, ChosenAt;
    var h := RunsAreSafe(size, timeouts, actions);
    ChosenValuesAgree(RunOf(size, timeouts, actions), h, n1, v1, n2, v2);
  }

  /** A decided node's value was accepted by a quorum at its number. */
  lemma DecisionsAreReal(size: Size, timeouts: nat -> nat, actions: seq<Action>, i: nat)
    requires var w := RunOf(size, timeouts, actions);
             i in w.nodes && w.nodes[i].phase == Decided
    ensures var w := RunOf(size, timeouts, actions);
            ChosenAt(w, w.nodes[i].myNum, w.nodes[i].myVal)
  {
    hide Inv, NumberPart, AcceptorPart, PreparingOk, RunOf, All, Ids;
    var w := RunOf(size, timeouts, actions);
    var h := RunsAreSafe(size, timeouts, actions);
    var n := w.nodes[i];
    Facts(w, h, i);
    var q := Acceptors(w, n.myNum, n.myVal);
    forall j | j in q ensures j in All(w.size) { Domain(w, h, j); }
    assert Ids(n.acceptMask) <= q;
    Subset(Ids(n.acceptMask), q);
  }

  /** Every accepted value was the argument of some Propose call of the run. */
  lemma AcceptedValuesWereProposed(size: Size, timeouts: nat -> nat, actions: seq<Action>, i: nat, a: Acceptance)
    requires var w := RunOf(size, timeouts, actions);
             i in w.nodes && a in w.nodes[i].accepts
    ensures exists k :: 0 <= k < |actions| && actions[k].ProposeAt? && actions[k].val == a.val
  {
    hide Inv, NumberPart, ProposerPart, Pledged, RunOf, All;
    var w := RunOf(size, timeouts, actions);
    var h := RunsAreSafe(size, timeouts, actions);
    Facts(w, h, i);
    ProposalFacts(w, h, a.num);
    AskedMeansProposed(size, timeouts, actions, a.val);
  }

  lemma {:induction false} AskedMeansProposed(size: Size, timeouts: nat -> nat, actions: seq<Action>, val: nat)
    requires val in RunOf(size, timeouts, actions).asked
    ensures exists k :: 0 <= k < |actions| && actions[k].ProposeAt? && actions[k].val == val
  {
    hide Called, Initial;
    if actions == [] {
      InitialAsked(size, timeouts);
    } else {
      var n := |actions| - 1;
      var before := actions[..n];
      if val in RunOf(size, timeouts, before).asked {
        AskedMeansProposed(size, timeouts, before, val);
        var k :| 0 <= k < |before| && before[k].ProposeAt? && before[k].val == val;
        assert actions[k] == before[k];
      } else {
        assert actions[n].ProposeAt? && actions[n].val == val;
      }
    }
  }

  lemma InitialAsked(size: Size, timeouts: nat -> nat)
    ensures Initial(size, timeouts).asked == {}
  {
  }

  // ------------------------------------------------------------ over time

  /** An acceptance, once made, is never forgotten. */
  lemma {:induction false} AcceptancesPersist(size: Size, timeouts: nat -> nat, actions: seq<Action>, k: nat, i: nat)
    requires k <= |actions|
    ensures var w, w' := RunOf(size, timeouts, actions[..k]), RunOf(size, timeouts, actions);
            w'.size == w.size && w'.nodes.Keys == w.nodes.Keys
            && (i in w.nodes ==> forall a :: a in w.nodes[i].accepts ==> a in w'.nodes[i].accepts)
    decreases |actions|
  {
    hide Initial, Propose, Tick, Step;
    var n := |actions| - 1;
    if k == |actions| {
      assert actions[..k] == actions;
    } else {
      AcceptancesPersist(size, timeouts, actions[..n], k, i);
      assert actions[..n][..k] == actions[..k];
      var w := RunOf(size, timeouts, actions[..n]);
      if Enabled(w, actions[n]) { CalledKeepsAcceptances(w, actions[n]); }
    }
  }

  lemma CalledKeepsAcceptances(w: World, a: Action)
    requires Enabled(w, a)
    ensures forall x :: x in w.nodes[ActorOf(a)].accepts ==> x in Called(w, a).accepts
  {
    hide RecordPromise, SendToPeers;
    var n := w.nodes[ActorOf(a)];
    match a
    case ProposeAt(_, val) => ProposeKeeps(n, val);
    case TickAt(_) => ProposeKeeps(n.(elapsed := n.elapsed + 1), n.myVal);
    case Deliver(m) =>
      if m.Promise? { RecordPromiseKeeps(n, m.from, Reply(true, m.acceptedNum, m.acceptedVal, m.hasAccepted)); }
  }

  lemma {:induction false} SendKeeps(n: Node, k: nat, message: nat -> Message)
    ensures SendToPeers(n, k, message) == n.(outbound := SendToPeers(n, k, message).outbound)
    decreases |n.peers| - k
  {
    if k < |n.peers| { SendKeeps(n.(outbound := n.outbound + [message(n.peers[k])]), k + 1, message); }
  }

  lemma RecordPromiseKeeps(n: Node, from: nat, r: Reply)
    ensures forall x :: x in n.accepts ==> x in RecordPromise(n, from, r).accepts
  {
    hide Quorum, SendToPeers;
    var n2 := SelfAccept(EnterAccepting(NotePromise(n, from, r)));
    SendKeeps(n2, 0, (p: nat) => Accept(n2.id, p, n2.myNum, n2.myVal));
  }

  lemma ProposeKeeps(n: Node, val: nat)
    ensures forall x :: x in n.accepts ==> x in Propose(n, val).accepts
  {
    hide RecordPromise, SendToPeers;
    var n1 := StartRound(n, val);
    var (n2, r) := OnPrepare(n1, n1.myNum);
    RecordPromiseKeeps(n2, n2.id, r);
    var n3 := if r.ok then RecordPromise(n2, n2.id, r) else n2;
    SendKeeps(n3, 0, (p: nat) => Prepare(n3.id, p, n3.myNum));
  }

  /** What is chosen stays chosen. */
  lemma ChosenStaysChosen(size: Size, timeouts: nat -> nat, actions: seq<Action>, k: nat, num: nat, val: nat)
    requires k <= |actions| && ChosenAt(RunOf(size, timeouts, actions[..k]), num, val)
    ensures ChosenAt(RunOf(size, timeouts, actions), num, val)
  {
    hide RunOf;
    var w, w' := RunOf(size, timeouts, actions[..k]), RunOf(size, timeouts, actions);
    AcceptancesPersist(size, timeouts, actions, k, 0);
    forall i | i in Acceptors(w, num, val) ensures i in Acceptors(w', num, val) {
      AcceptancesPersist(size, timeouts, actions, k, i);
    }
    var h := RunsAreSafe(size, timeouts, actions);
    Subset(Acceptors(w, num, val), Acceptors(w', num, val));
  }

  /** Agreement between any two moments of a run. */
  lemma AgreementOverTime(size: Size, timeouts: nat -> nat, actions: seq<Action>, j: nat, k: nat,
                          n1: nat, v1: nat, n2: nat, v2: nat)
    requires j <= |actions| && k <= |actions|
    requires ChosenAt(RunOf(size, timeouts, actions[..j]), n1, v1)
    requires ChosenAt(RunOf(size, timeouts, actions[..k]), n2, v2)
    ensures v1 == v2
  {
    hide RunOf, ChosenAt;
    ChosenStaysChosen(size, timeouts, actions, j, n1, v1);
    ChosenStaysChosen(size, timeouts, actions, k, n2, v2);
    Agreement(size, timeouts, actions, n1, v1, n2, v2);
  }

  /** Two nodes that decided, at whatever two moments, decided the same value. */
  lemma DecidedNodesAgree(size: Size, timeouts: nat -> nat, actions: seq<Action>, j: nat, a: nat, k: nat, b: nat)
    requires j <= |actions| && k <= |actions|
    requires var w := RunOf(size, timeouts, actions[..j]); a in w.nodes && w.nodes[a].phase == Decided
    requires var w := RunOf(size, timeouts, actions[..k]); b in w.nodes && w.nodes[b].phase == Decided
    ensures RunOf(size, timeouts, actions[..j]).nodes[a].myVal == RunOf(size, timeouts, actions[..k]).nodes[b].myVal
  {
    hide RunOf, ChosenAt;
    var x, y := RunOf(size, timeouts, actions[..j]).nodes[a], RunOf(size, timeouts, actions[..k]).nodes[b];
    DecisionsAreReal(size, timeouts, actions[..j], a);
    DecisionsAreReal(size, timeouts, actions[..k], b);
    AgreementOverTime(size, timeouts, actions, j, k, x.myNum, x.myVal, y.myNum, y.myVal);
  }
}
