/**
 The replicated key-value machine of statemachine/machine.go: applying log entries with
 per-client deduplication. Operations here are on values; MachineCodec has the snapshot
 format and the object.
 */
module StateMachine {
  import opened RaftTypes

  datatype ClientRecord = ClientRecord(requestId: nat, value: nat, found: bool)

  datatype Machine = Machine(values: map<nat, nat>, clients: map<nat, ClientRecord>)

  const EMPTY := Machine(map[], map[])

  datatype Reply = Reply(clientId: nat, requestId: nat, value: nat, found: bool)

  datatype Outcome = Answer(reply: Reply) | StaleRequest | Unsupported

  function Apply(m: Machine, e: Entry): (Machine, Outcome) {
    if e.operation == OP_LEGACY then (m, Answer(Reply(0, 0, 0, false)))
    else if e.clientId in m.clients && m.clients[e.clientId].requestId == e.requestId then
      var r := m.clients[e.clientId];
      (m, Answer(Reply(e.clientId, r.requestId, r.value, r.found)))
    else if e.clientId in m.clients && e.requestId < m.clients[e.clientId].requestId then (m, StaleRequest)
    else if e.operation == OP_PUT then
      (Machine(m.values[e.key := e.value], m.clients[e.clientId := ClientRecord(e.requestId, e.value, true)]),
       Answer(Reply(e.clientId, e.requestId, e.value, true)))
    else if e.operation == OP_DELETE then
      var found := e.key in m.values;
      var value := if found then m.values[e.key] else 0;
      (Machine(m.values - {e.key}, m.clients[e.clientId := ClientRecord(e.requestId, value, found)]),
       Answer(Reply(e.clientId, e.requestId, value, found)))
    else (m, Unsupported)
  }

  datatype CacheAnswer = Hit(reply: Reply) | Miss | StaleLookup

  function Cached(m: Machine, clientId: nat, requestId: nat): CacheAnswer {
    if clientId !in m.clients || requestId > m.clients[clientId].requestId then Miss
    else if requestId < m.clients[clientId].requestId then StaleLookup
    else
      var r := m.clients[clientId];
      Hit(Reply(clientId, requestId, r.value, r.found))
  }

  /** The machine and the outcomes after a whole log. */
  function ApplyAll(m: Machine, es: seq<Entry>): (Machine, seq<Outcome>) {
    if es == [] then (m, [])
    else
      var (m1, outs) := ApplyAll(m, es[..|es| - 1]);
      var (m2, out) := Apply(m1, es[|es| - 1]);
      (m2, outs + [out])
  }

  function Replayed(m: Machine, es: seq<Entry>): Machine {
    ApplyAll(m, es).0
  }

  /** Applying a log in two parts is applying it at once, results included. */
  lemma {:induction false} ApplyInParts(m: Machine, a: seq<Entry>, b: seq<Entry>)
    ensures ApplyAll(m, a + b).0 == ApplyAll(ApplyAll(m, a).0, b).0
    ensures ApplyAll(m, a + b).1 == ApplyAll(m, a).1 + ApplyAll(ApplyAll(m, a).0, b).1
  {
    hide Apply;
    if b == [] {
      assert a + b == a;
    } else {
      var n := |b| - 1;
      ApplyInParts(m, a, b[..n]);
      assert (a + b)[..|a + b| - 1] == a + b[..n];
    }
  }

  // ------------------------------------------------------------ deduplication

  /** The request a client is known to have reached. */
  predicate Reached(m: Machine, clientId: nat, requestId: nat) {
    clientId in m.clients && m.clients[clientId].requestId >= requestId
  }

  lemma ReachedStays(m: Machine, e: Entry, clientId: nat, requestId: nat)
    requires Reached(m, clientId, requestId)
    ensures Reached(Apply(m, e).0, clientId, requestId)
  {
  }

  lemma {:induction false} ReachedForever(m: Machine, es: seq<Entry>, clientId: nat, requestId: nat)
    requires Reached(m, clientId, requestId)
    ensures Reached(Replayed(m, es), clientId, requestId)
  {
    hide Apply, Reached;
    if es != [] {
      ReachedForever(m, es[..|es| - 1], clientId, requestId);
      ReachedStays(Replayed(m, es[..|es| - 1]), es[|es| - 1], clientId, requestId);
    }
  }

  /** An entry changes the machine exactly when it is a request its client has not reached. */
  lemma ChangesIff(m: Machine, e: Entry)
    ensures Apply(m, e).0 != m
       <==> (e.operation == OP_PUT || e.operation == OP_DELETE) && !Reached(m, e.clientId, e.requestId)
    ensures Apply(m, e).0 != m ==> Reached(Apply(m, e).0, e.clientId, e.requestId)
  {
    var (m1, out) := Apply(m, e);
    if (e.operation == OP_PUT || e.operation == OP_DELETE) && !Reached(m, e.clientId, e.requestId) {
      assert m1.clients[e.clientId].requestId == e.requestId;
      if m1 == m { assert e.clientId in m.clients; }
    }
  }

  /** Over any log, with any retries in between, a (client, request) pair changes the machine at most once. */
  lemma AtMostOneEffect(m: Machine, es: seq<Entry>, i: nat, j: nat)
    requires i < j < |es| && es[i].clientId == es[j].clientId && es[i].requestId == es[j].requestId
    requires Replayed(m, es[..i + 1]) != Replayed(m, es[..i])
    ensures Replayed(m, es[..j + 1]) == Replayed(m, es[..j])
  {
    hide Apply, Reached;
    Stepwise(m, es, i);
    Stepwise(m, es, j);
    var mi := Replayed(m, es[..i]);
    ChangesIff(mi, es[i]);
    var later := es[i + 1..j];
    assert es[..j] == es[..i + 1] + later;
    ApplyInParts(m, es[..i + 1], later);
    ReachedForever(Replayed(m, es[..i + 1]), later, es[i].clientId, es[i].requestId);
    ChangesIff(Replayed(m, es[..j]), es[j]);
  }

  lemma Stepwise(m: Machine, es: seq<Entry>, i: nat)
    requires i < |es|
    ensures Replayed(m, es[..i + 1]) == Apply(Replayed(m, es[..i]), es[i]).0
  {
    assert es[..i + 1][..i] == es[..i];
  }

  /** A retry that arrives before the client moved on gets the original answer, and changes nothing. */
  lemma RetryGetsTheSameAnswer(m: Machine, e: Entry, later: seq<Entry>, retry: Entry)
    requires e.operation == OP_PUT || e.operation == OP_DELETE
    requires !Reached(m, e.clientId, e.requestId)
    requires forall k :: 0 <= k < |later| ==> later[k].clientId != e.clientId
    requires retry.clientId == e.clientId && retry.requestId == e.requestId && retry.operation != OP_LEGACY
    ensures var m' := Replayed(Apply(m, e).0, later);
            Apply(m', retry) == (m', Apply(m, e).1) && Cached(m', e.clientId, e.requestId) == Hit(Apply(m, e).1.reply)
  {
    OthersKeepTheRecord(Apply(m, e).0, later, e.clientId);
  }

  lemma {:induction false} OthersKeepTheRecord(m: Machine, es: seq<Entry>, clientId: nat)
    requires clientId in m.clients && forall k :: 0 <= k < |es| ==> es[k].clientId != clientId
    ensures clientId in Replayed(m, es).clients && Replayed(m, es).clients[clientId] == m.clients[clientId]
  {
    if es != [] { OthersKeepTheRecord(m, es[..|es| - 1], clientId); }
  }
}
