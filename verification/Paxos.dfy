/**
 Single-decree Paxos as examples/paxos/paxos.go implements it: one node that is proposer and
 acceptor at once, first as functions from state to state, then as the object with loops that
 the source has, proved equal to those functions.
 */
module Paxos {
  import opened Masks

  type Size = n: nat | n > 0 witness 1

  datatype Message =
    | Prepare(from: nat, to: nat, num: nat)
    | Promise(from: nat, to: nat, num: nat, ok: bool, acceptedNum: nat, acceptedVal: nat, hasAccepted: bool)
    | Accept(from: nat, to: nat, num: nat, val: nat)
    | Accepted(from: nat, to: nat, num: nat, ok: bool)

  datatype Phase = Idle | Preparing | Accepting | Decided

  datatype Acceptance = Acceptance(num: nat, val: nat)

  datatype Node = Node(
    id: nat,
    size: Size,
    peers: seq<nat>,
    promised: nat,
    acceptedNum: nat,
    acceptedVal: nat,
    hasAccepted: bool,
    accepts: seq<Acceptance>,
    phase: Phase,
    round: nat,
    myNum: nat,
    myVal: nat,
    promiseMask: Mask,
    acceptMask: Mask,
    bestNum: nat,
    bestVal: nat,
    hasBest: bool,
    elapsed: nat,
    timeout: nat,
    adopted: nat,
    outbound: seq<Message>)

  /** The ids 1..last except `id`. */
  function PeersUpTo(id: nat, last: nat): seq<nat> {
    if last == 0 then [] else PeersUpTo(id, last - 1) + (if last != id then [last] else [])
  }

  function NewNode(id: nat, size: Size, timeout: nat): Node {
    Node(id, size, PeersUpTo(id, size), 0, 0, 0, false, [], Idle, 0, 0, 0, 0, 0, 0, 0, false, 0, timeout, 0, [])
  }

  /** `uint64(1) << (id - 1)`: shifts of 64 or more give zero. */
  function Bit(id: nat): Mask {
    if 1 <= id <= 64 then NodeBit(id) else 0
  }

  predicate Quorum(size: Size, mask: Mask) {
    |Ids(mask)| >= size / 2 + 1
  }

  // ------------------------------------------------------------ acceptor

  datatype Reply = Reply(ok: bool, num: nat, val: nat, has: bool)

  function OnPrepare(n: Node, num: nat): (Node, Reply) {
    if num <= n.promised then (n, Reply(false, 0, 0, false))
    else (n.(promised := num), Reply(true, n.acceptedNum, n.acceptedVal, n.hasAccepted))
  }

  function OnAccept(n: Node, num: nat, val: nat): (Node, bool) {
    if num < n.promised then (n, false)
    else (n.(promised := num, acceptedNum := num, acceptedVal := val, hasAccepted := true,
             accepts := n.accepts + [Acceptance(num, val)]), true)
  }

  // ------------------------------------------------------------ proposer

  /** A promise is noted, and the highest acceptance it reports is remembered. */
  function NotePromise(n: Node, from: nat, r: Reply): Node {
    var better := r.has && (!n.hasBest || r.num > n.bestNum);
    n.(promiseMask := Or(n.promiseMask, Bit(from)),
       bestNum := if better then r.num else n.bestNum,
       bestVal := if better then r.val else n.bestVal,
       hasBest := n.hasBest || r.has)
  }

  /** The value of phase two: the best one reported, else the proposer's own. */
  function Chosen(n: Node): nat {
    if n.hasBest then n.bestVal else n.myVal
  }

  function EnterAccepting(n: Node): Node {
    n.(adopted := if n.hasBest && n.bestVal != n.myVal then n.adopted + 1 else n.adopted,
       myVal := Chosen(n), phase := Accepting, acceptMask := 0)
  }

  function SendToPeers(n: Node, k: nat, message: nat -> Message): Node
    decreases |n.peers| - k
  {
    if k >= |n.peers| then n
    else SendToPeers(n.(outbound := n.outbound + [message(n.peers[k])]), k + 1, message)
  }

  function SelfAccept(n: Node): Node {
    var (n1, ok) := OnAccept(n, n.myNum, n.myVal);
    if ok then n1.(acceptMask := Or(n1.acceptMask, Bit(n1.id))) else n1
  }

  function RecordPromise(n: Node, from: nat, r: Reply): Node {
    var n1 := NotePromise(n, from, r);
    if !Quorum(n1.size, n1.promiseMask) then n1
    else
      var n2 := SelfAccept(EnterAccepting(n1));
      if Quorum(n2.size, n2.acceptMask) then n2.(phase := Decided)
      else SendToPeers(n2, 0, (p: nat) => Accept(n2.id, p, n2.myNum, n2.myVal))
  }

  function NextRound(n: Node): nat {
    if n.round + 1 >= n.promised / n.size + 1 then n.round + 1 else n.promised / n.size + 1
  }

  function StartRound(n: Node, val: nat): Node {
    var round := NextRound(n);
    n.(round := round, myNum := round * n.size + n.id, myVal := val, phase := Preparing, elapsed := 0,
       promiseMask := 0, acceptMask := 0, hasBest := false)
  }

  function Propose(n: Node, val: nat): Node {
    var n1 := StartRound(n, val);
    var (n2, r) := OnPrepare(n1, n1.myNum);
    var n3 := if r.ok then RecordPromise(n2, n2.id, r) else n2;
    SendToPeers(n3, 0, (p: nat) => Prepare(n3.id, p, n3.myNum))
  }

  function Tick(n: Node): Node {
    if n.phase != Preparing && n.phase != Accepting then n
    else
      var n1 := n.(elapsed := n.elapsed + 1);
      if n1.elapsed >= n1.timeout then Propose(n1, n1.myVal) else n1
  }

  function Send(n: Node, m: Message): Node {
    n.(outbound := n.outbound + [m])
  }

  function NoteAccepted(n: Node, from: nat): Node {
    var n1 := n.(acceptMask := Or(n.acceptMask, Bit(from)));
    if Quorum(n1.size, n1.acceptMask) then n1.(phase := Decided) else n1
  }

  function Step(n: Node, m: Message): Node {
    match m
    case Prepare(from, _, num) =>
      var (n1, r) := OnPrepare(n, num);
      Send(n1, Promise(n1.id, from, num, r.ok, r.num, r.val, r.has))
    case Promise(from, _, num, ok, accNum, accVal, has) =>
      if num != n.myNum || n.phase != Preparing || !ok then n
      else RecordPromise(n, from, Reply(true, accNum, accVal, has))
    case Accept(from, _, num, val) =>
      var (n1, ok) := OnAccept(n, num, val);
      Send(n1, Accepted(n1.id, from, num, ok))
    case Accepted(from, _, num, ok) =>
      if num != n.myNum || n.phase != Accepting || !ok then n else NoteAccepted(n, from)
  }

  // ------------------------------------------------------------ the object

  class PaxosNode {
    var n: Node

    constructor (id: nat, size: Size, timeout: nat)
      ensures n == NewNode(id, size, timeout)
    {
      var peers := [];
      for i := 1 to size + 1
        invariant peers == PeersUpTo(id, i - 1)
      {
        if i != id { peers := peers + [i]; }
      }
      n := Node(id, size, peers, 0, 0, 0, false, [], Idle, 0, 0, 0, 0, 0, 0, 0, false, 0, timeout, 0, []);
    }

    method HasQuorum(mask: Mask) returns (r: bool)
      ensures r <==> Quorum(n.size, mask)
    {
      var count := BitsSet(mask);
      r := count >= n.size / 2 + 1;
    }

    method HandlePrepare(num: nat) returns (r: Reply)
      modifies this
      ensures (n, r) == OnPrepare(old(n), num)
      ensures r.ok <==> num > old(n).promised
      ensures n.accepts == old(n).accepts && old(n).promised <= n.promised && (r.ok ==> n.promised == num)
    {
      if num <= n.promised { return Reply(false, 0, 0, false); }
      n := n.(promised := num);
      return Reply(true, n.acceptedNum, n.acceptedVal, n.hasAccepted);
    }

    method HandleAccept(num: nat, val: nat) returns (ok: bool)
      modifies this
      ensures (n, ok) == OnAccept(old(n), num, val)
      ensures ok <==> num >= old(n).promised
      ensures n.accepts == old(n).accepts + (if ok then [Acceptance(num, val)] else [])
      ensures old(n).promised <= n.promised && (ok ==> n.promised == n.acceptedNum == num && n.acceptedVal == val)
    {
      if num < n.promised { return false; }
      n := n.(promised := num);
      n := n.(acceptedNum := num, acceptedVal := val, hasAccepted := true);
      n := n.(accepts := n.accepts + [Acceptance(num, val)]);
      ok := true;
    }

    method HandlePromise(from: nat, r: Reply)
      modifies this
      ensures n == RecordPromise(old(n), from, r)
      ensures !Quorum(old(n).size, Or(old(n).promiseMask, Bit(from))) ==>
                n.phase == old(n).phase && n.outbound == old(n).outbound && n.accepts == old(n).accepts
    {
      hide Quorum, EnterAccepting, SendToPeers;
      n := n.(promiseMask := Or(n.promiseMask, Bit(from)));
      if r.has && (!n.hasBest || r.num > n.bestNum) {
        n := n.(bestNum := r.num, bestVal := r.val, hasBest := true);
      }
      var promised := HasQuorum(n.promiseMask);
      if !promised { return; }
      BeginAccepting();
      var ok := HandleAccept(n.myNum, n.myVal);
      if ok { n := n.(acceptMask := Or(n.acceptMask, Bit(n.id))); }
      var accepted := HasQuorum(n.acceptMask);
      if accepted {
        n := n.(phase := Decided);
        return;
      }
      Broadcast(true);
    }

    /** Phase two starts with the best value reported, or with the proposer's own. */
    method BeginAccepting()
      modifies this
      ensures n == EnterAccepting(old(n))
    {
      if n.hasBest {
        if n.bestVal != n.myVal { n := n.(adopted := n.adopted + 1); }
        n := n.(myVal := n.bestVal);
      }
      n := n.(phase := Accepting, acceptMask := 0);
    }

    /** The loop that sends to every peer: Accept in phase two, Prepare in phase one. */
    method Broadcast(accepting: bool)
      modifies this
      ensures n == SendToPeers(old(n), 0, Ballot(old(n), accepting))
    {
      var k := 0;
      while k < |n.peers|
        invariant n == old(n).(outbound := n.outbound)
        invariant SendToPeers(n, k, Ballot(old(n), accepting)) == SendToPeers(old(n), 0, Ballot(old(n), accepting))
        decreases |n.peers| - k
      {
        var m := if accepting then Accept(n.id, n.peers[k], n.myNum, n.myVal) else Prepare(n.id, n.peers[k], n.myNum);
        n := n.(outbound := n.outbound + [m]);
        k := k + 1;
      }
    }

    method StartProposal(val: nat)
      modifies this
      ensures n == Propose(old(n), val)
    {
      hide RecordPromise, Quorum, Or;
      var round := n.promised / n.size + 1;
      if n.round + 1 >= round { round := n.round + 1; }
      n := n.(round := round, myNum := round * n.size + n.id, myVal := val);
      n := n.(phase := Preparing, elapsed := 0, promiseMask := 0, acceptMask := 0, hasBest := false);
      var r := HandlePrepare(n.myNum);
      if r.ok { HandlePromise(n.id, r); }
      Broadcast(false);
    }

    method TickOnce()
      modifies this
      ensures n == Tick(old(n))
    {
      hide Propose;
      if n.phase != Preparing && n.phase != Accepting { return; }
      n := n.(elapsed := n.elapsed + 1);
      if n.elapsed >= n.timeout { StartProposal(n.myVal); }
    }

    method Handle(m: Message)
      modifies this
      ensures n == Step(old(n), m)
    {
      hide RecordPromise, Quorum;
      match m
      case Prepare(from, _, num) =>
        var r := HandlePrepare(num);
        n := n.(outbound := n.outbound + [Promise(n.id, from, num, r.ok, r.num, r.val, r.has)]);
      case Promise(from, _, num, ok, accNum, accVal, has) =>
        if num != n.myNum || n.phase != Preparing || !ok { return; }
        HandlePromise(from, Reply(true, accNum, accVal, has));
      case Accept(from, _, num, val) =>
        var ok := HandleAccept(num, val);
        n := n.(outbound := n.outbound + [Accepted(n.id, from, num, ok)]);
      case Accepted(from, _, num, ok) =>
        if num != n.myNum || n.phase != Accepting || !ok { return; }
        n := n.(acceptMask := Or(n.acceptMask, Bit(from)));
        var accepted := HasQuorum(n.acceptMask);
        if accepted { n := n.(phase := Decided); }
    }
  }

  function Ballot(n: Node, accepting: bool): nat -> Message {
    if accepting then (p: nat) => Accept(n.id, p, n.myNum, n.myVal) else (p: nat) => Prepare(n.id, p, n.myNum)
  }
}
