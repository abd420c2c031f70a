/**
 The machine as an object, and its canonical snapshot: sorted keys, sorted clients, a CRC
 over everything before it. Restoring a snapshot gives the machine back exactly when both
 tables have fewer than 2^32 entries, so a snapshot may be cut anywhere into a log.
 */
module MachineCodec {
  import opened Bytes
  import opened RaftTypes
  import opened StateMachine
  import F = WalFormat

  const TWO_32: nat := 0x1_0000_0000

  /** "HYSM" */
  const MAGIC: seq<byte> := [0x48, 0x59, 0x53, 0x4D]

  // ------------------------------------------------------------ sorted keys

  predicate Increasing(ks: seq<nat>) {
    forall i, j :: 0 <= i < j < |ks| ==> ks[i] < ks[j]
  }

  ghost predicate Lists(ks: seq<nat>, s: set<nat>) {
    Increasing(ks) && (forall k :: k in ks <==> k in s)
  }

  /** A set has exactly one increasing listing. */
  lemma {:induction false} ListingIsUnique(a: seq<nat>, b: seq<nat>, s: set<nat>)
    requires Lists(a, s) && Lists(b, s)
    ensures a == b
    decreases |a|
  {
    assert (a != [] ==> a[0] in b) && (b != [] ==> b[0] in a);
    if a != [] && b != [] {
      var x, y := a[|a| - 1], b[|b| - 1];
      assert x in b && y in a;
      assert x == y;
      DropLast(a, s);
      DropLast(b, s);
      ListingIsUnique(a[..|a| - 1], b[..|b| - 1], s - {x});
    }
  }

  lemma DropLast(a: seq<nat>, s: set<nat>)
    requires Lists(a, s) && a != []
    ensures Lists(a[..|a| - 1], s - {a[|a| - 1]})
  {
    var n := |a| - 1;
    assert a == a[..n] + [a[n]];
  }

  function InsertKey(ks: seq<nat>, k: nat): seq<nat> {
    if ks == [] || k < ks[0] then [k] + ks else [ks[0]] + InsertKey(ks[1..], k)
  }

  lemma {:induction false} InsertKeyLists(ks: seq<nat>, k: nat, s: set<nat>)
    requires Lists(ks, s) && k !in s
    ensures Lists(InsertKey(ks, k), s + {k})
  {
    if ks != [] && ks[0] <= k {
      var rest, t := ks[1..], s - {ks[0]};
      assert ks == [ks[0]] + rest;
      assert ks[0] in s;
      forall x | x in t ensures x in rest { assert x in ks; }
      forall x | x in rest ensures x in t {
        assert x in ks;
        var j :| 0 <= j < |rest| && rest[j] == x;
        assert ks[j + 1] == x;
      }
      InsertKeyLists(rest, k, t);
      var r := InsertKey(rest, k);
      forall i | 0 <= i < |r| ensures ks[0] < r[i] {
        assert r[i] in r;
        if r[i] != k {
          var j :| 0 <= j < |rest| && rest[j] == r[i];
          assert ks[j + 1] == r[i];
        }
      }
    }
  }

  /** The keys of a map in increasing order, whatever order the map yields them in. */
  method SortedKeys(s: set<nat>) returns (ks: seq<nat>)
    ensures Lists(ks, s) && |ks| == |s|
  {
    ks := [];
    var left := s;
    while left != {}
      invariant left <= s && Lists(ks, s - left) && |ks| + |left| == |s|
      decreases left
    {
      var k :| k in left;
      InsertKeyLists(ks, k, s - left);
      InsertKeyLength(ks, k);
      assert (s - left) + {k} == s - (left - {k});
      ks := InsertKey(ks, k);
      left := left - {k};
    }
    assert s - left == s;
  }

  lemma {:induction false} InsertKeyLength(ks: seq<nat>, k: nat)
    ensures |InsertKey(ks, k)| == |ks| + 1
  {
    if ks != [] && ks[0] <= k { InsertKeyLength(ks[1..], k); }
  }

  // ------------------------------------------------------------ the format

  /** Everything fits the uint64 fields. */
  ghost predicate Fits(m: Machine) {
    (forall k :: k in m.values ==> k <= MAX_UINT64 && m.values[k] <= MAX_UINT64)
    && (forall c :: c in m.clients ==>
          c <= MAX_UINT64 && m.clients[c].requestId <= MAX_UINT64 && m.clients[c].value <= MAX_UINT64)
  }

  function Header(keys: nat, clients: nat): (s: seq<byte>)
    ensures |s| == 16
  {
    MAGIC + LittleEndian(1, 2) + [0, 0] + LittleEndian(keys, 4) + LittleEndian(clients, 4)
  }

  function ValueBytes(k: nat, v: nat): (s: seq<byte>)
    ensures |s| == 16
  {
    LittleEndian(k, 8) + LittleEndian(v, 8)
  }

  function ClientBytes(c: nat, r: ClientRecord): (s: seq<byte>)
    ensures |s| == 32
  {
    LittleEndian(c, 8) + LittleEndian(r.requestId, 8) + LittleEndian(r.value, 8)
    + [if r.found then 1 else 0] + LittleEndian(0, 7)
  }

  function ValuesPart(m: Machine, ks: seq<nat>): (s: seq<byte>)
    requires forall k :: k in ks ==> k in m.values
    ensures |s| == 16 * |ks|
  {
    if ks == [] then []
    else ValuesPart(m, ks[..|ks| - 1]) + ValueBytes(ks[|ks| - 1], m.values[ks[|ks| - 1]])
  }

  function ClientsPart(m: Machine, cs: seq<nat>): (s: seq<byte>)
    requires forall c :: c in cs ==> c in m.clients
    ensures |s| == 32 * |cs|
  {
    if cs == [] then []
    else ClientsPart(m, cs[..|cs| - 1]) + ClientBytes(cs[|cs| - 1], m.clients[cs[|cs| - 1]])
  }

  function BodyOf(m: Machine, ks: seq<nat>, cs: seq<nat>): seq<byte>
    requires (forall k :: k in ks ==> k in m.values) && forall c :: c in cs ==> c in m.clients
  {
    Header(|ks|, |cs|) + ValuesPart(m, ks) + ClientsPart(m, cs)
  }

  function Sealed(crc: F.Checksum, body: seq<byte>): seq<byte> {
    body + LittleEndian(crc(body), 4)
  }

  /** `s` is the snapshot of `m`; there is only one, as the listings are unique. */
  ghost predicate IsSnapshot(crc: F.Checksum, m: Machine, s: seq<byte>) {
    exists ks, cs ::
      Lists(ks, m.values.Keys) && Lists(cs, m.clients.Keys) && |ks| == |m.values| && |cs| == |m.clients|
      && s == Sealed(crc, BodyOf(m, ks, cs))
  }

  lemma SnapshotIsCanonical(crc: F.Checksum, m: Machine, s: seq<byte>, t: seq<byte>)
    requires IsSnapshot(crc, m, s) && IsSnapshot(crc, m, t)
    ensures s == t
  {
    var ks, cs :| Lists(ks, m.values.Keys) && Lists(cs, m.clients.Keys) && s == Sealed(crc, BodyOf(m, ks, cs));
    var ls, ds :| Lists(ls, m.values.Keys) && Lists(ds, m.clients.Keys) && t == Sealed(crc, BodyOf(m, ls, ds));
    ListingIsUnique(ks, ls, m.values.Keys);
    ListingIsUnique(cs, ds, m.clients.Keys);
  }

  // ------------------------------------------------------------ restoring

  datatype Restored = Restored(machine: Machine) | BadSnapshot

  function U64At(s: seq<byte>, at: nat): nat
    requires at + 8 <= |s|
  {
    FromLittleEndian(s[at..at + 8])
  }

  function ReadValues(s: seq<byte>, n: nat): map<nat, nat>
    requires 16 + 16 * n <= |s|
  {
    if n == 0 then map[]
    else
      var at := 16 + 16 * (n - 1);
      ReadValues(s, n - 1)[U64At(s, at) := U64At(s, at + 8)]
  }

  function ReadClients(s: seq<byte>, start: nat, n: nat): map<nat, ClientRecord>
    requires start + 32 * n <= |s|
  {
    if n == 0 then map[]
    else
      var at := start + 32 * (n - 1);
      ReadClients(s, start, n - 1)[U64At(s, at) := ClientRecord(U64At(s, at + 8), U64At(s, at + 16), s[at + 24] == 1)]
  }

  function Restore(crc: F.Checksum, s: seq<byte>): Restored {
    if |s| < 20 || s[..4] != MAGIC || FromLittleEndian(s[4..6]) != 1 then BadSnapshot
    else if crc(s[..|s| - 4]) != FromLittleEndian(s[|s| - 4..]) then BadSnapshot
    else
      var keyCount, clientCount := FromLittleEndian(s[8..12]), FromLittleEndian(s[12..16]);
      if 20 + keyCount * 16 + clientCount * 32 != |s| then BadSnapshot
      else Restored(Machine(ReadValues(s, keyCount), ReadClients(s, 16 + 16 * keyCount, clientCount)))
  }

  // ------------------------------------------------------------ round trip

  lemma OneByte(v: nat, width: nat)
    requires width > 0
    ensures FromLittleEndian(LittleEndian(v, width))
            == v % 256 + 256 * FromLittleEndian(LittleEndian(v / 256, width - 1))
  {
    var s := LittleEndian(v, width);
    assert s[1..] == LittleEndian(v / 256, width - 1);
  }

  /** Four bytes keep a number modulo 2^32. */
  lemma Low32(v: nat)
    ensures FromLittleEndian(LittleEndian(v, 4)) == v % TWO_32
  {
    hide LittleEndian, FromLittleEndian;
    OneByte(v, 4);
    OneByte(v / 256, 3);
    OneByte(v / 256 / 256, 2);
    OneByte(v / 256 / 256 / 256, 1);
    assert FromLittleEndian(LittleEndian(v / 256 / 256 / 256 / 256, 0)) == 0 by { NoBytes(v / 256 / 256 / 256 / 256); }
    FourDigits(v);
  }

  lemma NoBytes(v: nat)
    ensures FromLittleEndian(LittleEndian(v, 0)) == 0
  {
  }

  lemma FourDigits(v: nat)
    ensures v % TWO_32
            == v % 256 + 256 * (v / 256 % 256 + 256 * (v / 256 / 256 % 256 + 256 * (v / 256 / 256 / 256 % 256)))
  {
  }

  lemma HeaderReads(keys: nat, clients: nat)
    ensures var h := Header(keys, clients);
            h[..4] == MAGIC && FromLittleEndian(h[4..6]) == 1
            && FromLittleEndian(h[8..12]) == keys % TWO_32 && FromLittleEndian(h[12..16]) == clients % TWO_32
  {
    hide LittleEndian, FromLittleEndian;
    var h := Header(keys, clients);
    Widths();
    LittleEndianRoundTrip(1, 2);
    Low32(keys);
    Low32(clients);
    var front := MAGIC + LittleEndian(1, 2) + [0, 0];
    assert h == front + LittleEndian(keys, 4) + LittleEndian(clients, 4) && |front| == 8;
    assert h[..4] == front[..4] == MAGIC && h[4..6] == front[4..6] == LittleEndian(1, 2);
    assert h[8..12] == LittleEndian(keys, 4);
    assert h[12..16] == LittleEndian(clients, 4);
  }

  lemma {:induction false} ValuesSlot(m: Machine, ks: seq<nat>, i: nat)
    requires (forall k :: k in ks ==> k in m.values) && i < |ks|
    ensures ValuesPart(m, ks)[16 * i..16 * i + 16] == ValueBytes(ks[i], m.values[ks[i]])
  {
    var n := |ks| - 1;
    if i < n {
      ValuesSlot(m, ks[..n], i);
      assert ValuesPart(m, ks)[16 * i..16 * i + 16] == ValuesPart(m, ks[..n])[16 * i..16 * i + 16];
    }
  }

  lemma {:induction false} ClientsSlot(m: Machine, cs: seq<nat>, i: nat)
    requires (forall c :: c in cs ==> c in m.clients) && i < |cs|
    ensures ClientsPart(m, cs)[32 * i..32 * i + 32] == ClientBytes(cs[i], m.clients[cs[i]])
  {
    var n := |cs| - 1;
    if i < n {
      ClientsSlot(m, cs[..n], i);
      assert ClientsPart(m, cs)[32 * i..32 * i + 32] == ClientsPart(m, cs[..n])[32 * i..32 * i + 32];
    }
  }

  lemma ReadsBack(v: nat)
    requires v <= MAX_UINT64
    ensures FromLittleEndian(LittleEndian(v, 8)) == v
  {
    Widths();
    LittleEndianRoundTrip(v, 8);
  }

  /** Reading back the first `n` values of a snapshot. */
  lemma {:induction false} ReadValuesBack(m: Machine, ks: seq<nat>, rest: seq<byte>, cs: nat, n: nat)
    requires Fits(m) && (forall k :: k in ks ==> k in m.values) && n <= |ks|
    ensures var s := Header(|ks|, cs) + ValuesPart(m, ks) + rest;
            var r := ReadValues(s, n);
            (forall k :: k in r <==> k in ks[..n]) && forall k :: k in r ==> k in m.values && r[k] == m.values[k]
  {
    hide Header, ValuesPart, FromLittleEndian, LittleEndian;
    if n > 0 {
      ReadValuesBack(m, ks, rest, cs, n - 1);
      var s := Header(|ks|, cs) + ValuesPart(m, ks) + rest;
      var i := n - 1;
      var k := ks[i];
      ValuesSlot(m, ks, i);
      var slot := ValueBytes(k, m.values[k]);
      assert s[16 + 16 * i..16 + 16 * i + 16] == slot;
      assert s[16 + 16 * i..16 + 16 * i + 8] == slot[..8] == LittleEndian(k, 8);
      assert s[16 + 16 * i + 8..16 + 16 * i + 16] == slot[8..] == LittleEndian(m.values[k], 8);
      ReadsBack(k);
      ReadsBack(m.values[k]);
      assert ks[..n] == ks[..i] + [k];
    }
  }

  lemma SliceOfSlice(s: seq<byte>, at: nat, n: nat, i: nat, j: nat)
    requires at + n <= |s| && i <= j <= n
    ensures s[at..at + n][i..j] == s[at + i..at + j]
  {
    var a, b := s[at..at + n][i..j], s[at + i..at + j];
    forall k | 0 <= k < |a| ensures a[k] == b[k] {
      assert s[at..at + n][i + k] == s[at + (i + k)];
    }
  }

  lemma ClientReads(s: seq<byte>, at: nat, c: nat, r: ClientRecord)
    requires at + 32 <= |s| && s[at..at + 32] == ClientBytes(c, r)
    requires c <= MAX_UINT64 && r.requestId <= MAX_UINT64 && r.value <= MAX_UINT64
    ensures U64At(s, at) == c && ClientRecord(U64At(s, at + 8), U64At(s, at + 16), s[at + 24] == 1) == r
  {
    hide FromLittleEndian, LittleEndian;
    var slot := s[at..at + 32];
    SliceOfSlice(s, at, 32, 0, 8);
    SliceOfSlice(s, at, 32, 8, 16);
    SliceOfSlice(s, at, 32, 16, 24);
    assert slot[..8] == LittleEndian(c, 8);
    assert slot[8..16] == LittleEndian(r.requestId, 8);
    assert slot[16..24] == LittleEndian(r.value, 8);
    assert s[at + 24] == slot[24];
    ReadsBack(c);
    ReadsBack(r.requestId);
    ReadsBack(r.value);
  }

  lemma {:induction false} ReadClientsBack(m: Machine, front: seq<byte>, cs: seq<nat>, rest: seq<byte>, n: nat)
    requires Fits(m) && (forall c :: c in cs ==> c in m.clients) && n <= |cs|
    ensures var s := front + ClientsPart(m, cs) + rest;
            var r := ReadClients(s, |front|, n);
            (forall c :: c in r <==> c in cs[..n]) && forall c :: c in r ==> c in m.clients && r[c] == m.clients[c]
  {
    hide ClientsPart, ClientBytes, U64At;
    if n > 0 {
      ReadClientsBack(m, front, cs, rest, n - 1);
      var s := front + ClientsPart(m, cs) + rest;
      var i := n - 1;
      var c := cs[i];
      ClientsSlot(m, cs, i);
      assert s[|front| + 32 * i..|front| + 32 * i + 32] == ClientsPart(m, cs)[32 * i..32 * i + 32];
      ClientReads(s, |front| + 32 * i, c, m.clients[c]);
      assert cs[..n] == cs[..i] + [c];
    }
  }

  /** What Restore sees before it reads the tables. */
  lemma SealedReads(crc: F.Checksum, m: Machine, ks: seq<nat>, cs: seq<nat>)
    requires (forall k :: k in ks ==> k in m.values) && forall c :: c in cs ==> c in m.clients
    ensures var s := Sealed(crc, BodyOf(m, ks, cs));
            |s| == 20 + 16 * |ks| + 32 * |cs| && s[..4] == MAGIC && FromLittleEndian(s[4..6]) == 1
            && FromLittleEndian(s[8..12]) == |ks| % TWO_32 && FromLittleEndian(s[12..16]) == |cs| % TWO_32
            && crc(s[..|s| - 4]) == FromLittleEndian(s[|s| - 4..])
  {
    hide Header, ValuesPart, ClientsPart, FromLittleEndian, LittleEndian;
    var body := BodyOf(m, ks, cs);
    var s, h := Sealed(crc, body), Header(|ks|, |cs|);
    HeaderReads(|ks|, |cs|);
    assert s[..4] == h[..4] && s[4..6] == h[4..6] && s[8..12] == h[8..12] && s[12..16] == h[12..16];
    assert s[..|s| - 4] == body && s[|s| - 4..] == LittleEndian(crc(body), 4);
    Low32(crc(body));
  }

  lemma TablesReadBack(crc: F.Checksum, m: Machine, ks: seq<nat>, cs: seq<nat>)
    requires Fits(m) && Lists(ks, m.values.Keys) && Lists(cs, m.clients.Keys)
    ensures var s := Sealed(crc, BodyOf(m, ks, cs));
            |s| == 20 + 16 * |ks| + 32 * |cs|
            && ReadValues(s, |ks|) == m.values && ReadClients(s, 16 + 16 * |ks|, |cs|) == m.clients
  {
    hide Header, ValuesPart, ClientsPart, LittleEndian, ReadValues, ReadClients, Fits;
    var s := Sealed(crc, BodyOf(m, ks, cs));
    var sum := LittleEndian(crc(BodyOf(m, ks, cs)), 4);
    var front := Header(|ks|, |cs|) + ValuesPart(m, ks);
    ReadValuesBack(m, ks, ClientsPart(m, cs) + sum, |cs|, |ks|);
    assert s == front + (ClientsPart(m, cs) + sum);
    ReadClientsBack(m, front, cs, sum, |cs|);
    assert s == front + ClientsPart(m, cs) + sum;
    assert ks[..|ks|] == ks && cs[..|cs|] == cs;
    assert ReadValues(s, |ks|).Keys == m.values.Keys;
    assert ReadClients(s, |front|, |cs|).Keys == m.clients.Keys;
  }

  predicate Countable(m: Machine) {
    |m.values| < TWO_32 && |m.clients| < TWO_32
  }

  /** Restoring a snapshot gives the machine back exactly when both counts fit their fields. */
  lemma RestoreSnapshot(crc: F.Checksum, m: Machine, s: seq<byte>)
    requires Fits(m) && IsSnapshot(crc, m, s)
    ensures Restore(crc, s) == (if Countable(m) then Restored(m) else BadSnapshot)
  {
    hide Restore, Sealed, BodyOf, Fits;
    var ks, cs :| Lists(ks, m.values.Keys) && Lists(cs, m.clients.Keys) && |ks| == |m.values| && |cs| == |m.clients|
                  && s == Sealed(crc, BodyOf(m, ks, cs));
    RestoreListed(crc, m, ks, cs);
  }

  lemma RestoreListed(crc: F.Checksum, m: Machine, ks: seq<nat>, cs: seq<nat>)
    requires Fits(m) && Lists(ks, m.values.Keys) && Lists(cs, m.clients.Keys)
    requires |ks| == |m.values| && |cs| == |m.clients|
    ensures Restore(crc, Sealed(crc, BodyOf(m, ks, cs))) == (if Countable(m) then Restored(m) else BadSnapshot)
  {
    hide FromLittleEndian, Sealed, BodyOf, ReadValues, ReadClients, Fits, Lists;
    assert (forall k :: k in ks ==> k in m.values) && forall c :: c in cs ==> c in m.clients by { Listed(m, ks, cs); }
    SealedReads(crc, m, ks, cs);
    TablesReadBack(crc, m, ks, cs);
  }

  lemma Listed(m: Machine, ks: seq<nat>, cs: seq<nat>)
    requires Lists(ks, m.values.Keys) && Lists(cs, m.clients.Keys)
    ensures (forall k :: k in ks ==> k in m.values) && forall c :: c in cs ==> c in m.clients
  {
  }

  // ------------------------------------------------------------ snapshots and replay

  predicate EntryFits(e: Entry) {
    e.clientId <= MAX_UINT64 && e.requestId <= MAX_UINT64 && e.key <= MAX_UINT64 && e.value <= MAX_UINT64
  }

  lemma {:induction false} ReplayFits(m: Machine, es: seq<Entry>)
    requires Fits(m) && forall k :: 0 <= k < |es| ==> EntryFits(es[k])
    ensures Fits(Replayed(m, es))
  {
    if es != [] { ReplayFits(m, es[..|es| - 1]); }
  }

  /**
   Snapshot commutes with replay: cut any log anywhere, snapshot there, restore and apply the
   rest; the values, the deduplication table and all results are those of the whole log.
   */
  lemma SnapshotCommutesWithReplay(crc: F.Checksum, es: seq<Entry>, cut: nat, s: seq<byte>)
    requires cut <= |es| && forall k :: 0 <= k < |es| ==> EntryFits(es[k])
    requires IsSnapshot(crc, Replayed(EMPTY, es[..cut]), s) && Countable(Replayed(EMPTY, es[..cut]))
    ensures var r := Restore(crc, s);
            r.Restored?
            && ApplyAll(r.machine, es[cut..]).0 == ApplyAll(EMPTY, es).0
            && ApplyAll(EMPTY, es[..cut]).1 + ApplyAll(r.machine, es[cut..]).1 == ApplyAll(EMPTY, es).1
  {
    hide Restore, IsSnapshot, Apply, EntryFits, Fits;
    EmptyFits();
    ReplayFits(EMPTY, es[..cut]);
    RestoreSnapshot(crc, Replayed(EMPTY, es[..cut]), s);
    ApplyInParts(EMPTY, es[..cut], es[cut..]);
    assert es[..cut] + es[cut..] == es;
  }

  lemma EmptyFits()
    ensures Fits(EMPTY)
  {
  }

  // ------------------------------------------------------------ the object

  class StateMachineObject {
    var values: map<nat, nat>
    var clients: map<nat, ClientRecord>

    ghost function State(): Machine
      reads this
    {
      Machine(values, clients)
    }

    constructor ()
      ensures State() == EMPTY
    {
      values, clients := map[], map[];
    }

    method ApplyEntry(e: Entry) returns (out: Outcome)
      modifies this
      ensures (State(), out) == Apply(old(State()), e)
    {
      if e.operation == OP_LEGACY { return Answer(Reply(0, 0, 0, false)); }
      if e.clientId in clients {
        var previous := clients[e.clientId];
        if previous.requestId == e.requestId {
          return Answer(Reply(e.clientId, previous.requestId, previous.value, previous.found));
        }
        if e.requestId < previous.requestId { return StaleRequest; }
      }
      var value, found := 0, false;
      if e.operation == OP_PUT {
        values := values[e.key := e.value];
        value, found := e.value, true;
      } else if e.operation == OP_DELETE {
        if e.key in values { value, found := values[e.key], true; }
        values := values - {e.key};
      } else {
        return Unsupported;
      }
      clients := clients[e.clientId := ClientRecord(e.requestId, value, found)];
      out := Answer(Reply(e.clientId, e.requestId, value, found));
    }

    method Lookup(clientId: nat, requestId: nat) returns (r: CacheAnswer)
      ensures r == Cached(State(), clientId, requestId)
    {
      if clientId !in clients || requestId > clients[clientId].requestId { return Miss; }
      var record := clients[clientId];
      if requestId < record.requestId { return StaleLookup; }
      return Hit(Reply(clientId, requestId, record.value, record.found));
    }

    /** Snapshot: a buffer of the final size, filled from the front. */
    method Snapshot(crc: F.Checksum) returns (s: seq<byte>)
      ensures IsSnapshot(crc, State(), s)
    {
      hide Header, ValuesPart, ClientsPart, BodyOf, Sealed, Increasing;
      var keys := SortedKeys(values.Keys);
      var ids := SortedKeys(clients.Keys);
      var out := new byte[20 + |keys| * 16 + |ids| * 32](_ => 0);
      WriteHeader(out, |keys|, |ids|);
      WriteValues(out, keys, |ids|);
      WriteClients(out, keys, ids);
      Seal(crc, out);
      s := out[..];
      assert s == Sealed(crc, BodyOf(State(), keys, ids));
    }

    method WriteHeader(out: array<byte>, keys: nat, ids: nat)
      requires out.Length >= 20 && forall k :: 0 <= k < out.Length ==> out[k] == 0
      modifies out
      ensures out[..16] == Header(keys, ids) && forall k :: 16 <= k < out.Length ==> out[k] == 0
    {
      hide LittleEndian;
      for i := 0 to 4
        invariant forall k :: 0 <= k < i ==> out[k] == MAGIC[k]
        invariant forall k :: i <= k < out.Length ==> out[k] == 0
      {
        out[i] := MAGIC[i];
      }
      F.Put(out, 4, 2, 1);
      assert out[4..6] == LittleEndian(1, 2);
      ghost var front := out[..8];
      assert front == MAGIC + LittleEndian(1, 2) + [0, 0];
      F.Put(out, 8, 4, keys);
      F.Put(out, 12, 4, ids);
      assert out[..8] == front;
      assert out[8..12] == LittleEndian(keys, 4) && out[12..16] == LittleEndian(ids, 4);
      assert out[..16] == out[..8] + out[8..12] + out[12..16];
    }

    method WriteValues(out: array<byte>, keys: seq<nat>, ids: nat)
      requires forall k :: k in keys ==> k in values
      requires out.Length >= 20 + 16 * |keys| && out[..16] == Header(|keys|, ids)
      requires forall k :: 16 <= k < out.Length ==> out[k] == 0
      modifies out
      ensures out[..16 + 16 * |keys|] == Header(|keys|, ids) + ValuesPart(State(), keys)
      ensures forall k :: 16 + 16 * |keys| <= k < out.Length ==> out[k] == 0
    {
      hide Header, ValueBytes;
      for i := 0 to |keys|
        invariant out[..16 + 16 * i] == Header(|keys|, ids) + ValuesPart(State(), keys[..i])
        invariant forall k :: 16 + 16 * i <= k < out.Length ==> out[k] == 0
      {
        var at, k := 16 + 16 * i, keys[i];
        assert keys[..i + 1][..i] == keys[..i];
        ghost var done := out[..at];
        WriteValue(out, at, k, values[k]);
        assert out[..at] == done;
        assert out[..at + 16] == out[..at] + out[at..at + 16];
      }
      assert keys[..|keys|] == keys;
    }

    method WriteClients(out: array<byte>, keys: seq<nat>, ids: seq<nat>)
      requires (forall k :: k in keys ==> k in values) && forall c :: c in ids ==> c in clients
      requires out.Length == 20 + 16 * |keys| + 32 * |ids|
      requires out[..16 + 16 * |keys|] == Header(|keys|, |ids|) + ValuesPart(State(), keys)
      requires forall k :: 16 + 16 * |keys| <= k < out.Length ==> out[k] == 0
      modifies out
      ensures out[..out.Length - 4] == BodyOf(State(), keys, ids)
    {
      hide Header, ValuesPart, ClientBytes;
      ghost var front := Header(|keys|, |ids|) + ValuesPart(State(), keys);
      for i := 0 to |ids|
        invariant out[..16 + 16 * |keys| + 32 * i] == front + ClientsPart(State(), ids[..i])
        invariant forall k :: 16 + 16 * |keys| + 32 * i <= k < out.Length ==> out[k] == 0
      {
        var at, c := 16 + 16 * |keys| + 32 * i, ids[i];
        assert ids[..i + 1][..i] == ids[..i];
        ghost var done := out[..at];
        WriteClient(out, at, c, clients[c]);
        assert out[..at] == done;
        assert out[..at + 32] == out[..at] + out[at..at + 32];
      }
      assert ids[..|ids|] == ids;
    }
  }

  /** The checksum of everything before it goes into the last four bytes. */
  method Seal(crc: F.Checksum, out: array<byte>)
    requires out.Length >= 4
    modifies out
    ensures out[..] == Sealed(crc, old(out[..out.Length - 4]))
  {
    hide LittleEndian;
    var end := out.Length - 4;
    ghost var body := out[..end];
    F.Put(out, end, 4, crc(out[..end]));
    assert out[..end] == body;
    assert out[end..] == LittleEndian(crc(body), 4);
    assert out[..] == out[..end] + out[end..];
  }

  method WriteValue(out: array<byte>, at: nat, k: nat, v: nat)
    requires at + 16 <= out.Length
    modifies out
    ensures out[at..at + 16] == ValueBytes(k, v)
    ensures forall j :: 0 <= j < at || at + 16 <= j < out.Length ==> out[j] == old(out[j])
  {
    F.Put(out, at, 8, k);
    F.Put(out, at + 8, 8, v);
    assert out[at..at + 8] == LittleEndian(k, 8) && out[at + 8..at + 16] == LittleEndian(v, 8);
    assert out[at..at + 16] == out[at..at + 8] + out[at + 8..at + 16];
  }

  method WriteClient(out: array<byte>, at: nat, c: nat, r: ClientRecord)
    requires at + 32 <= out.Length && forall k :: at <= k < out.Length ==> out[k] == 0
    modifies out
    ensures out[at..at + 32] == ClientBytes(c, r)
    ensures forall k :: 0 <= k < at || at + 32 <= k < out.Length ==> out[k] == old(out[k])
  {
    hide LittleEndian;
    F.Put(out, at, 8, c);
    assert out[at..at + 8] == LittleEndian(c, 8);
    F.Put(out, at + 8, 8, r.requestId);
    assert out[at..at + 16] == out[at..at + 8] + out[at + 8..at + 16];
    ghost var front := out[at..at + 16];
    F.Put(out, at + 16, 8, r.value);
    ghost var value := out[at + 16..at + 24];
    if r.found { out[at + 24] := 1; }
    assert out[at..at + 16] == front && out[at + 16..at + 24] == value;
    F.ZeroBytes(7);
    assert out[at + 25..at + 32] == LittleEndian(0, 7);
    assert out[at..at + 32] == out[at..at + 16] + out[at + 16..at + 24] + [out[at + 24]] + out[at + 25..at + 32];
  }

  /** Restore: the checks, then the two loops that fill the tables. */
  method RestoreObject(crc: F.Checksum, s: seq<byte>) returns (m: StateMachineObject?)
    ensures m == null <==> Restore(crc, s) == BadSnapshot
    ensures m != null ==> fresh(m) && Restore(crc, s) == Restored(m.State())
  {
    hide FromLittleEndian, ReadValues, ReadClients;
    if |s| < 20 || s[..4] != MAGIC || FromLittleEndian(s[4..6]) != 1 { return null; }
    var expected := FromLittleEndian(s[|s| - 4..]);
    if crc(s[..|s| - 4]) != expected { return null; }
    var keyCount, clientCount := FromLittleEndian(s[8..12]), FromLittleEndian(s[12..16]);
    if 20 + keyCount * 16 + clientCount * 32 != |s| { return null; }
    m := new StateMachineObject();
    FillValues(m, s, keyCount);
    FillClients(m, s, 16 + 16 * keyCount, clientCount);
  }

  method FillValues(m: StateMachineObject, s: seq<byte>, n: nat)
    requires 16 + 16 * n <= |s| && m.values == map[]
    modifies m`values
    ensures m.values == ReadValues(s, n)
  {
    hide U64At;
    var offset := 16;
    for i := 0 to n
      invariant offset == 16 + 16 * i && m.values == ReadValues(s, i)
    {
      m.values := m.values[U64At(s, offset) := U64At(s, offset + 8)];
      offset := offset + 16;
    }
  }

  method FillClients(m: StateMachineObject, s: seq<byte>, start: nat, n: nat)
    requires start + 32 * n <= |s| && m.clients == map[]
    modifies m`clients
    ensures m.clients == ReadClients(s, start, n)
  {
    hide U64At;
    var offset := start;
    for i := 0 to n
      invariant offset == start + 32 * i && m.clients == ReadClients(s, start, i)
    {
      var record := ClientRecord(U64At(s, offset + 8), U64At(s, offset + 16), s[offset + 24] == 1);
      m.clients := m.clients[U64At(s, offset) := record];
      offset := offset + 32;
    }
  }
}
