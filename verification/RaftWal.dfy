/**
 storage/raftwal/store.go: a Raft hard state, log and compacted base kept as records of the
 write-ahead log. Opening replays the records; the main results say that the replay is
 exactly the state the live store holds, also when a crash falls inside an operation.
 */
module RaftWal {
  import opened Bytes
  import opened RaftTypes
  import opened RaftDisk
  import F = WalFormat
  import L = Wal

  /** Index 0 and the two highest indexes mark records that are not log entries. */
  const HARD_STATE_INDEX: nat := 0
  const RESET_INDEX: nat := MAX_UINT64 - 1
  const COMPACT_INDEX: nat := MAX_UINT64

  // ------------------------------------------------------------ what the source's types allow

  predicate EntryFits(e: Entry) {
    e.term <= MAX_UINT64 && e.command <= MAX_UINT64 && e.kind < 256 && e.oldVoters <= MAX_UINT64
    && e.newVoters <= MAX_UINT64 && e.operation < 256 && e.clientId <= MAX_UINT64 && e.requestId <= MAX_UINT64
    && e.key <= MAX_UINT64 && e.value <= MAX_UINT64
  }

  predicate HardFits(h: HardState) {
    h.term <= MAX_UINT64 && h.votedFor < 0x1_0000_0000 && h.commit <= MAX_UINT64
  }

  /** The live state fits its types. */
  predicate WalFits(w: Wal) {
    HardFits(w.hard) && WalLast(w) <= MAX_UINT64 && forall i :: 0 <= i < |w.data| ==> EntryFits(w.data[i])
  }

  // ------------------------------------------------------------ operations and their records

  datatype Op =
    | SaveHardOp(hard: HardState)
    | AppendOp(index: nat, entry: Entry)
    | ResetOp(index: nat, term: nat)
    | CompactOp(index: nat)

  predicate OpFits(op: Op) {
    match op
    case SaveHardOp(h) => HardFits(h)
    case AppendOp(i, e) => i <= MAX_UINT64 && EntryFits(e)
    case ResetOp(i, t) => i <= MAX_UINT64 && t <= MAX_UINT64
    case CompactOp(i) => i <= MAX_UINT64
  }

  /**
   The effect on the fields. An append compares its index with base + len(data), which wraps
   to 0 once the log reaches the highest index, so that no append is accepted after that.
   */
  function Live(w: Wal, op: Op): Result<Wal> {
    match op
    case SaveHardOp(h) => WalSaveHard(w, h)
    case AppendOp(i, e) => if w.base + |w.data| > MAX_UINT64 then Err else WalAppend(w, i, e)
    case ResetOp(i, t) => WalReset(w, i, t)
    case CompactOp(i) => WalCompact(w, i)
  }

  /** Not an entry stored under an index that replay reads as a marker. */
  predicate Faithful(w: Wal, op: Op) {
    !(op.AppendOp? && op.index >= RESET_INDEX && Live(w, op).Ok?)
  }

  function LogRecord(index: nat, e: Entry): F.Entry
    requires index <= MAX_UINT64 && EntryFits(e)
  {
    F.Entry(index, e.term, e.command, e.kind, e.oldVoters, e.newVoters, e.operation, e.clientId, e.requestId, e.key,
            e.value)
  }

  function Marker(index: F.u64, term: F.u64, command: F.u64, oldVoters: F.u64): F.Entry {
    F.Entry(index, term, command, 0, oldVoters, 0, 0, 0, 0, 0, 0)
  }

  /** The one record a successful operation writes. */
  function RecordOf(w: Wal, op: Op): F.Entry
    requires WalFits(w) && OpFits(op) && Live(w, op).Ok?
  {
    match op
    case SaveHardOp(h) => Marker(HARD_STATE_INDEX, h.term, h.votedFor, h.commit)
    case AppendOp(i, e) => LogRecord(i, e)
    case ResetOp(i, t) => Marker(RESET_INDEX, i, t, 0)
    case CompactOp(i) => Marker(COMPACT_INDEX, i, w.data[i - w.base].term, 0)
  }

  // ------------------------------------------------------------ replay

  function ReplayOne(w: Wal, e: F.Entry): Result<Wal> {
    if e.index == RESET_INDEX then
      if e.term < w.base then Err else Ok(w.(base := e.term, data := [Sentinel(e.command)]))
    else if e.index == COMPACT_INDEX then
      if e.term < w.base || e.term > WalLast(w) then Err
      else Ok(w.(base := e.term, data := w.data[e.term - w.base..]))
    else if e.index == HARD_STATE_INDEX then
      var h := HardState(e.term, e.command % 0x1_0000_0000, e.oldVoters);
      if HardStateRegresses(w.hard, h) then Err else Ok(w.(hard := h))
    else if e.index <= w.base then Ok(w)
    else if e.index - w.base > |w.data| then Err
    else
      var entry := Entry(e.term, e.command, e.kind, e.oldVoters, e.newVoters, e.operation, e.clientId, e.requestId,
                         e.key, e.value);
      Ok(w.(data := w.data[..e.index - w.base] + [entry]))
  }

  function ReplayFrom(w: Wal, es: seq<F.Entry>): Result<Wal>
    decreases es
  {
    if es == [] then Ok(w)
    else match ReplayOne(w, es[0])
         case Err => Err
         case Ok(w1) => ReplayFrom(w1, es[1..])
  }

  function Replay(es: seq<F.Entry>): Result<Wal> {
    ReplayFrom(EMPTY_WAL, es)
  }

  lemma {:induction false} ReplayAppend(w: Wal, es: seq<F.Entry>, e: F.Entry)
    ensures ReplayFrom(w, es + [e]) == match ReplayFrom(w, es) case Err => Err case Ok(w1) => ReplayOne(w1, e)
    decreases es
  {
    hide ReplayOne;
    if es == [] {
      assert es + [e] == [e];
      assert [e][1..] == [];
    } else {
      assert (es + [e])[1..] == es[1..] + [e];
      match ReplayOne(w, es[0])
      case Err =>
      case Ok(w1) => ReplayAppend(w1, es[1..], e);
    }
  }

  lemma LiveFits(w: Wal, op: Op)
    requires WalFits(w) && OpFits(op) && Live(w, op).Ok?
    ensures WalFits(Live(w, op).value)
  {
  }

  lemma {:induction false} ReplayFits(w: Wal, es: seq<F.Entry>)
    requires WalFits(w) && ReplayFrom(w, es).Ok?
    ensures WalFits(ReplayFrom(w, es).value)
    decreases es
  {
    if es != [] { ReplayFits(ReplayOne(w, es[0]).value, es[1..]); }
  }

  /**
   Replaying an operation's record on the state before it gives the state after it, for
   every operation but one: an append at one of the two reserved indexes.
   */
  lemma ReplayMatchesLiveIff(w: Wal, op: Op)
    requires WalFits(w) && OpFits(op) && Live(w, op).Ok?
    ensures ReplayOne(w, RecordOf(w, op)) == Live(w, op) <==> Faithful(w, op)
  {
    if op.AppendOp? && op.index >= RESET_INDEX {
      AppendGrows(w, op.index, op.entry);
    }
  }

  lemma AppendGrows(w: Wal, index: nat, e: Entry)
    requires WalFits(w) && Live(w, AppendOp(index, e)).Ok? && RESET_INDEX <= index <= MAX_UINT64
    ensures |Live(w, AppendOp(index, e)).value.data| >= 2
    ensures index == COMPACT_INDEX ==> |Live(w, AppendOp(index, e)).value.data| == |w.data| + 1
  {
  }

  /** The record as RaftDisk has it. */
  function DiskRecord(op: Op): Record {
    match op
    case SaveHardOp(h) => HardRecord(h)
    case AppendOp(i, e) => EntryRecord(i, e)
    case ResetOp(i, t) => ResetRecord(i, t)
    case CompactOp(i) => CompactRecord(i)
  }

  /** Replaying the bytes of a record, on whatever state, is what RaftDisk says of it. */
  lemma RecordsAgree(live: Wal, op: Op, w: Wal)
    requires WalFits(live) && OpFits(op) && Live(live, op).Ok? && Faithful(live, op)
    ensures ReplayOne(w, RecordOf(live, op)) == Replayed(w, DiskRecord(op))
  {
  }

  // ------------------------------------------------------------ whole runs

  /** The live state and the records written by a sequence of calls; a refused call changes nothing. */
  datatype Run = Run(live: Wal, records: seq<F.Entry>)

  predicate AllFit(ops: seq<Op>) {
    forall i :: 0 <= i < |ops| ==> OpFits(ops[i])
  }

  function Do(r: Run, op: Op): (r': Run)
    requires WalFits(r.live) && OpFits(op)
    ensures WalFits(r'.live)
  {
    match Live(r.live, op)
    case Err => r
    case Ok(w) =>
      LiveFits(r.live, op);
      Run(w, r.records + [RecordOf(r.live, op)])
  }

  function RunOf(ops: seq<Op>): (r: Run)
    requires AllFit(ops)
    ensures WalFits(r.live) && |r.records| <= |ops|
  {
    if ops == [] then Run(EMPTY_WAL, []) else Do(RunOf(ops[..|ops| - 1]), ops[|ops| - 1])
  }

  /** No call of the run stores an entry under a reserved index. */
  ghost predicate AllFaithful(ops: seq<Op>)
    requires AllFit(ops)
  {
    forall i :: 0 <= i < |ops| ==> Faithful(RunOf(ops[..i]).live, ops[i])
  }

  lemma DoReplaysIff(r: Run, op: Op)
    requires WalFits(r.live) && OpFits(op) && Replay(r.records) == Ok(r.live)
    ensures Replay(Do(r, op).records) == Ok(Do(r, op).live) <==> Faithful(r.live, op)
  {
    hide ReplayFrom, ReplayOne, RecordOf;
    if Live(r.live, op).Ok? {
      ReplayMatchesLiveIff(r.live, op);
      ReplayAppend(EMPTY_WAL, r.records, RecordOf(r.live, op));
    }
  }

  lemma FaithfulPrefix(ops: seq<Op>, k: nat)
    requires AllFit(ops) && AllFaithful(ops) && k <= |ops|
    ensures AllFit(ops[..k]) && AllFaithful(ops[..k])
  {
    hide RunOf, Faithful;
    forall i | 0 <= i < k ensures Faithful(RunOf(ops[..k][..i]).live, ops[..k][i]) {
      assert ops[..k][..i] == ops[..i];
    }
  }

  lemma LastFaithful(ops: seq<Op>)
    requires AllFit(ops) && AllFaithful(ops) && ops != []
    ensures var n := |ops| - 1;
            Faithful(RunOf(ops[..n]).live, ops[n]) && RunOf(ops) == Do(RunOf(ops[..n]), ops[n])
  {
    hide Faithful, Do;
  }

  /** After any calls the records replay, without error, to exactly the live state. */
  lemma {:induction false} ReplayEqualsLive(ops: seq<Op>)
    requires AllFit(ops) && AllFaithful(ops)
    ensures Replay(RunOf(ops).records) == Ok(RunOf(ops).live)
  {
    hide ReplayFrom, Faithful, Do, AllFaithful;
    if ops == [] {
      ReplayNothing(EMPTY_WAL);
    } else {
      var n := |ops| - 1;
      FaithfulPrefix(ops, n);
      ReplayEqualsLive(ops[..n]);
      LastFaithful(ops);
      DoReplaysIff(RunOf(ops[..n]), ops[n]);
    }
  }

  /**
   The exception is real. After ResetBase below the reset index, the appended entry is
   replayed as a reset; after ResetBase at the reset index, as a compaction. Either way it
   is gone, although the call had succeeded.
   */
  lemma ReservedAppendIsLost()
    ensures var e := Sentinel(RESET_INDEX);
            var r := RunOf([ResetOp(RESET_INDEX - 1, 0), AppendOp(RESET_INDEX, e)]);
            r.live.data == [Sentinel(0), e]
            && Replay(r.records) == Ok(r.live.(base := RESET_INDEX, data := [Sentinel(0)]))
    ensures var e := Sentinel(RESET_INDEX);
            var r := RunOf([ResetOp(RESET_INDEX, 0), AppendOp(COMPACT_INDEX, e)]);
            r.live.data == [Sentinel(0), e] && Replay(r.records) == Ok(r.live.(data := [Sentinel(0)]))
  {
    LostAfter(RESET_INDEX - 1);
    LostAfter(RESET_INDEX);
  }

  lemma LostAfter(base: nat)
    requires RESET_INDEX - 1 <= base <= RESET_INDEX
    ensures var e := Sentinel(RESET_INDEX);
            var r := RunOf([ResetOp(base, 0), AppendOp(base + 1, e)]);
            r.live == EMPTY_WAL.(base := base, data := [Sentinel(0), e])
            && Replay(r.records) == Ok(EMPTY_WAL.(base := RESET_INDEX))
  {
    hide ReplayFrom;
    var e := Sentinel(RESET_INDEX);
    var ops := [ResetOp(base, 0), AppendOp(base + 1, e)];
    assert ops[..1] == [ops[0]] && ops[..1][..0] == [];
    var w := EMPTY_WAL.(base := base);
    assert RunOf([]) == Run(EMPTY_WAL, []);
    assert RunOf(ops[..1]) == Run(w, [] + [Marker(RESET_INDEX, base, 0, 0)]);
    assert w.data[..1] + [e] == [Sentinel(0), e];
    assert RunOf(ops).records == [Marker(RESET_INDEX, base, 0, 0)] + [LogRecord(base + 1, e)];
    ReplayAppend(EMPTY_WAL, [], Marker(RESET_INDEX, base, 0, 0));
    ReplayAppend(EMPTY_WAL, [] + [Marker(RESET_INDEX, base, 0, 0)], LogRecord(base + 1, e));
    assert ReplayFrom(EMPTY_WAL, []) == Ok(EMPTY_WAL) by { ReplayNothing(EMPTY_WAL); }
    assert w.data[0..] == w.data;
  }

  lemma ReplayNothing(w: Wal)
    ensures ReplayFrom(w, []) == Ok(w)
  {
  }

  /** What the records replay to, up to the first that cannot be replayed, and whether there is none. */
  function Medium(es: seq<F.Entry>): (Wal, bool) {
    if es == [] then (EMPTY_WAL, true)
    else
      var (w, readable) := Medium(es[..|es| - 1]);
      if !readable then (w, false)
      else match ReplayOne(w, es[|es| - 1])
           case Err => (w, false)
           case Ok(w1) => (w1, true)
  }

  lemma {:induction false} MediumIsReplay(es: seq<F.Entry>)
    ensures Medium(es).1 <==> Replay(es).Ok?
    ensures Replay(es).Ok? ==> Replay(es) == Ok(Medium(es).0)
  {
    hide ReplayOne;
    if es != [] {
      var n := |es| - 1;
      MediumIsReplay(es[..n]);
      ReplayAppend(EMPTY_WAL, es[..n], es[n]);
      assert es[..n] + [es[n]] == es;
    }
  }

  // ------------------------------------------------------------ crashes

  /** What reopening the bytes of an image yields. */
  function Reopened(crc: F.Checksum, image: seq<byte>): Result<Wal> {
    match L.Recovered(crc, image)
    case Failure(_) => Err
    case Success(rs) => Replay(L.EntriesOf(rs))
  }

  /** The medium keeps records that replay to the live state. */
  ghost predicate Holds(crc: F.Checksum, m: L.Medium, r: Run) {
    L.Keeps(crc, m, r.records) && WalFits(r.live) && Replay(r.records) == Ok(r.live)
  }

  /** The medium once the operation's record is synced. */
  function Grown(crc: F.Checksum, m: L.Medium, w: Wal, op: Op): L.Medium
    requires WalFits(w) && OpFits(op) && Live(w, op).Ok?
  {
    L.Synced(L.Appended(crc, m, [RecordOf(w, op)]))
  }

  /** The bytes a crash inside the operation leaves when `torn` of its own reached the medium. */
  function TornBytes(crc: F.Checksum, m: L.Medium, w: Wal, op: Op, torn: nat): seq<byte>
    requires WalFits(w) && OpFits(op) && Live(w, op).Ok?
  {
    var p := L.Appended(crc, m, [RecordOf(w, op)]).pending;
    m.durable + p[..Min(torn, |p|)]
  }

  /**
   A crash inside an operation, with any number of its bytes on the medium, recovers the
   state before the operation; only when all 112 arrived does it replay the operation.
   */
  lemma CrashInsideOperation(crc: F.Checksum, m: L.Medium, r: Run, op: Op, torn: nat)
    requires Holds(crc, m, r) && |r.records| < MAX_UINT64 && OpFits(op) && Live(r.live, op).Ok?
    ensures var image := TornBytes(crc, m, r.live, op, torn);
            if torn < F.RECORD_SIZE then
              Reopened(crc, image) == Ok(r.live) && L.Opened(crc, image) == F.Success(m)
            else
              (Reopened(crc, image) == Live(r.live, op) <==> Faithful(r.live, op))
              && L.Opened(crc, image) == F.Success(Grown(crc, m, r.live, op))
  {
    hide L.Keeps, L.Recovered, L.Opened, L.Appended, Replay, RecordOf, L.Numbered, Faithful, L.EntriesOf, L.Synced;
    var e := RecordOf(r.live, op);
    L.TornAppend(crc, m, r.records, e, Min(torn, F.RECORD_SIZE));
    L.EntriesOfNumbered(r.records);
    L.EntriesOfNumbered(r.records + [e]);
    DoReplaysIff(r, op);
  }

  /** A synced operation keeps medium and live state together unless it is an append replay would lose. */
  lemma GrownHolds(crc: F.Checksum, m: L.Medium, r: Run, op: Op)
    requires Holds(crc, m, r) && OpFits(op) && Faithful(r.live, op) && Live(r.live, op).Ok?
    ensures Holds(crc, Grown(crc, m, r.live, op), Do(r, op))
  {
    hide L.Keeps, Replay, RecordOf, L.Appended, L.Synced, Faithful;
    L.KeepsNext(crc, m, r.records, RecordOf(r.live, op));
    DoReplaysIff(r, op);
  }

  /** A call that completes, or a call cut off by a crash and followed by reopening. */
  datatype StoreEvent = Completes(op: Op) | Crashes(op: Op, torn: nat)

  /** The device and the fields; reopening rebuilds both from the bytes alone. */
  datatype StoreState = StoreState(medium: L.Medium, live: Wal)

  function After(crc: F.Checksum, s: StoreState, ev: StoreEvent): (r: Result<StoreState>)
    requires WalFits(s.live) && OpFits(ev.op)
    ensures r.Ok? ==> WalFits(r.value.live)
  {
    if Live(s.live, ev.op).Err? then Ok(s)
    else if ev.Completes? then
      LiveFits(s.live, ev.op);
      Ok(StoreState(Grown(crc, s.medium, s.live, ev.op), Live(s.live, ev.op).value))
    else
      Reboot(crc, TornBytes(crc, s.medium, s.live, ev.op, ev.torn))
  }

  function Reboot(crc: F.Checksum, image: seq<byte>): (r: Result<StoreState>)
    ensures r.Ok? ==> WalFits(r.value.live)
  {
    match Reopened(crc, image)
    case Err => Err
    case Ok(w) =>
      ReplayFits(EMPTY_WAL, L.EntriesOf(L.Recovered(crc, image).value));
      match L.Opened(crc, image)
      case Failure(_) => Err
      case Success(m) => Ok(StoreState(m, w))
  }

  predicate EventsFit(events: seq<StoreEvent>) {
    forall i :: 0 <= i < |events| ==> OpFits(events[i].op)
  }

  /** The store after the events, from an empty device. */
  function StoreAfter(crc: F.Checksum, events: seq<StoreEvent>): (r: Result<StoreState>)
    requires EventsFit(events)
    ensures r.Ok? ==> WalFits(r.value.live)
  {
    if events == [] then Ok(StoreState(L.BLANK, EMPTY_WAL))
    else
      match StoreAfter(crc, events[..|events| - 1])
      case Err => Err
      case Ok(s) => After(crc, s, events[|events| - 1])
  }

  /** The operations whose record is complete on the medium. */
  function Survivors(events: seq<StoreEvent>): (ops: seq<Op>)
    requires EventsFit(events)
    ensures AllFit(ops) && |ops| <= |events|
  {
    if events == [] then []
    else
      var before, ev := Survivors(events[..|events| - 1]), events[|events| - 1];
      if ev.Completes? || ev.torn >= F.RECORD_SIZE then before + [ev.op] else before
  }

  lemma BlankHolds(crc: F.Checksum)
    ensures RunOf([]) == Run(EMPTY_WAL, []) && Holds(crc, L.BLANK, RunOf([]))
  {
  }

  /** One event: the medium and the fields move together. */
  lemma EventHolds(crc: F.Checksum, m: L.Medium, r: Run, ev: StoreEvent)
    requires Holds(crc, m, r) && |r.records| < MAX_UINT64 && OpFits(ev.op)
    requires ev.Completes? || ev.torn >= F.RECORD_SIZE ==> Faithful(r.live, ev.op)
    ensures var s := After(crc, StoreState(m, r.live), ev);
            var r' := if ev.Completes? || ev.torn >= F.RECORD_SIZE then Do(r, ev.op) else r;
            s.Ok? && s.value.live == r'.live && Holds(crc, s.value.medium, r')
  {
    hide Live, Grown, TornBytes, Reopened, L.Opened, L.Keeps, Replay, Faithful, RecordOf, WalFits;
    if Live(r.live, ev.op).Ok? {
      if ev.Completes? || ev.torn >= F.RECORD_SIZE { GrownHolds(crc, m, r, ev.op); }
      if ev.Crashes? { CrashInsideOperation(crc, m, r, ev.op, ev.torn); }
    }
  }

  /**
   Calls and crashes in any order: reopening never fails, and the device and the fields are
   those of a run of exactly the operations whose record was complete.
   */
  lemma {:induction false} EveryCrashRecovers(crc: F.Checksum, events: seq<StoreEvent>)
    requires EventsFit(events) && |events| < MAX_UINT64 && AllFaithful(Survivors(events))
    ensures var s, r := StoreAfter(crc, events), RunOf(Survivors(events));
            s.Ok? && s.value.live == r.live && Holds(crc, s.value.medium, r)
  {
    hide Holds, After, Live, Faithful, Do, RunOf, AllFaithful;
    if events == [] {
      BlankHolds(crc);
    } else {
      var n := |events| - 1;
      var before, ops := Survivors(events[..n]), Survivors(events);
      FaithfulPrefix(ops, |before|);
      assert ops[..|before|] == before;
      EveryCrashRecovers(crc, events[..n]);
      if ops != before {
        assert ops[..|ops| - 1] == before;
        LastFaithful(ops);
      }
      EventHolds(crc, StoreAfter(crc, events[..n]).value.medium, RunOf(before), events[n]);
    }
  }

  // ------------------------------------------------------------ the store

  class Store {
    const log: L.Log
    var hard: HardState
    var data: Log
    var base: nat
    ghost var records: seq<F.Entry>

    ghost function State(): Wal
      reads this
    {
      Wal(hard, base, data)
    }

    ghost function Repr(): set<object> {
      {this, log, log.device, log.scratch}
    }

    /** The medium keeps exactly the records. */
    ghost predicate Stored()
      reads Repr()
    {
      log.Valid() && L.Keeps(log.crc, log.State(), records) && WalFits(State())
    }

    /** Additionally the records replay to the fields. */
    ghost predicate Valid()
      reads Repr()
    {
      Stored() && Replay(records) == Ok(State())
    }

    constructor (log: L.Log, w: Wal, ghost records: seq<F.Entry>)
      ensures this.log == log && State() == w && this.records == records
    {
      this.log, hard, base, data, this.records := log, w.hard, w.base, w.data, records;
    }

    /** One record. A device that fails takes nothing, or stores the record and reports an error. */
    method Write(e: F.Entry, outcome: Outcome) returns (ok: bool)
      requires log.Valid() && L.Keeps(log.crc, log.State(), records)
      modifies Repr()
      ensures log.Valid() && L.Keeps(log.crc, log.State(), records) && State() == old(State())
      ensures ok <==> outcome == Done
      ensures records == if outcome == Lost then old(records) else old(records) + [e]
    {
      hide L.Keeps, L.Appended, L.Synced;
      if outcome == Lost { return false; }
      L.KeepsNext(log.crc, log.State(), records, e);
      var staged := log.Append([e], 1);
      var synced := log.Sync(false);
      records := records + [e];
      ok := outcome == Done;
    }

    method SaveHardState(h: HardState, outcome: Outcome) returns (ok: bool)
      requires Stored() && HardFits(h)
      modifies Repr()
      ensures Stored() && Ran(old(Run(State(), records)), SaveHardOp(h), outcome, Run(State(), records), ok)
      ensures old(Valid()) && outcome != Kept ==> Valid()
    {
      hide L.Keeps, ReplayFrom;
      if h.term < hard.term || h.commit < hard.commit
         || (h.term == hard.term && hard.votedFor != 0 && h.votedFor != hard.votedFor) {
        return false;
      }
      RanReplays(Run(State(), records), SaveHardOp(h), outcome);
      ok := Write(Marker(HARD_STATE_INDEX, h.term, h.votedFor, h.commit), outcome);
      if !ok { return; }
      hard := h;
    }

    method Append(index: nat, e: Entry, outcome: Outcome) returns (ok: bool)
      requires Stored() && EntryFits(e) && index <= MAX_UINT64
      modifies Repr()
      ensures Stored() && Ran(old(Run(State(), records)), AppendOp(index, e), outcome, Run(State(), records), ok)
      ensures old(Valid()) && outcome == Done ==> (Valid() <==> Faithful(old(State()), AppendOp(index, e)))
    {
      hide L.Keeps, ReplayFrom;
      if index <= base || index > (base + |data|) % L.TWO_64 { return false; }
      ghost var before := Run(State(), records);
      RanReplays(before, AppendOp(index, e), outcome);
      ok := Write(LogRecord(index, e), outcome);
      if !ok { return; }
      var offset := index - base;
      if offset < |data| { data := data[..offset]; }
      assert data == before.live.data[..offset];
      data := data + [e];
    }

    method Term(index: nat) returns (r: Option<nat>)
      ensures r == WalTerm(State(), index)
    {
      if index < base || index > base + |data| - 1 { return None; }
      return Some(data[index - base].term);
    }

    method ResetBase(index: nat, term: nat, outcome: Outcome) returns (ok: bool)
      requires Stored() && index <= MAX_UINT64 && term <= MAX_UINT64
      modifies Repr()
      ensures Stored() && Ran(old(Run(State(), records)), ResetOp(index, term), outcome, Run(State(), records), ok)
      ensures old(Valid()) && outcome != Kept ==> Valid()
    {
      hide L.Keeps, ReplayFrom;
      if index < base { return false; }
      RanReplays(Run(State(), records), ResetOp(index, term), outcome);
      ok := Write(Marker(RESET_INDEX, index, term, 0), outcome);
      if !ok { return; }
      base := index;
      data := [Sentinel(term)];
    }

    method CompactLog(index: nat, outcome: Outcome) returns (ok: bool)
      requires Stored() && index <= MAX_UINT64
      modifies Repr()
      ensures Stored() && Ran(old(Run(State(), records)), CompactOp(index), outcome, Run(State(), records), ok)
      ensures old(Valid()) && outcome != Kept ==> Valid()
    {
      hide L.Keeps, ReplayFrom;
      if index <= base || index > base + |data| - 1 { return false; }
      RanReplays(Run(State(), records), CompactOp(index), outcome);
      var offset := index - base;
      var term := data[offset].term;
      ok := Write(Marker(COMPACT_INDEX, index, term, 0), outcome);
      if !ok { return; }
      data := data[offset..];
      base := index;
    }
  }

  /** One call under a device outcome: a reported failure leaves the fields alone, also when the record was stored. */
  ghost predicate Ran(r: Run, op: Op, outcome: Outcome, r': Run, ok: bool)
    requires WalFits(r.live) && OpFits(op)
  {
    if Live(r.live, op).Err? then !ok && r' == r
    else
      (ok <==> outcome == Done)
      && r' == Run(if ok then Live(r.live, op).value else r.live,
                   if outcome == Lost then r.records else r.records + [RecordOf(r.live, op)])
  }

  lemma RanReplays(r: Run, op: Op, outcome: Outcome)
    requires WalFits(r.live) && OpFits(op) && Live(r.live, op).Ok?
    ensures WalFits(Live(r.live, op).value)
    ensures Replay(r.records) == Ok(r.live) ==>
              (Replay(r.records + [RecordOf(r.live, op)]) == Live(r.live, op) <==> Faithful(r.live, op))
  {
    hide ReplayFrom, RecordOf;
    LiveFits(r.live, op);
    if Replay(r.records) == Ok(r.live) { DoReplaysIff(r, op); }
  }

  lemma {:induction false} ReplayStops(w: Wal, es: seq<F.Entry>, k: nat)
    requires k <= |es| && ReplayFrom(w, es[..k]).Err?
    ensures ReplayFrom(w, es).Err?
    decreases |es|
  {
    hide ReplayOne;
    if k < |es| {
      var n := |es| - 1;
      assert es[..n][..k] == es[..k];
      ReplayStops(w, es[..n], k);
      ReplayAppend(w, es[..n], es[n]);
      assert es[..n] + [es[n]] == es;
    } else {
      assert es[..k] == es;
    }
  }

  /** raftwal.Open: recover the records and replay them one by one, from any bytes. */
  method Open(crc: F.Checksum, device: L.MemoryDevice) returns (r: Result<Store>)
    modifies device
    ensures r.Ok? <==> Reopened(crc, old(device.durable)).Ok?
    ensures r.Ok? ==> fresh(r.value) && fresh(r.value.log) && fresh(r.value.log.scratch) && r.value.log.device == device
    ensures r.Ok? ==> r.value.log.crc == crc && Ok(r.value.State()) == Reopened(crc, old(device.durable))
    ensures r.Ok? && old(device.pending) == [] ==> r.value.Valid()
  {
    hide L.Keeps, L.Recovered, L.Opened, ReplayOne, L.EntriesOf, WalFits;
    var outcome := L.Open(crc, device);
    if outcome.Failure? { return Err; }
    var log, rs := outcome.value.0, outcome.value.1;
    ghost var es := L.EntriesOf(rs);
    EntriesOfAt(rs);
    var w := EMPTY_WAL;
    for i := 0 to |rs|
      invariant ReplayFrom(EMPTY_WAL, es[..i]) == Ok(w)
      invariant device.pending == old(device.pending) && log.device == device
      modifies {}
    {
      ReplayAppend(EMPTY_WAL, es[..i], es[i]);
      assert es[..i] + [es[i]] == es[..i + 1];
      var next := ReplayOne(w, rs[i].entry);
      if next.Err? {
        ReplayStops(EMPTY_WAL, es, i + 1);
        return Err;
      }
      w := next.value;
    }
    assert es[..|rs|] == es;
    var store := new Store(log, w, es);
    L.OpenedKeeps(crc, old(device.durable));
    EmptyFits();
    ReplayFits(EMPTY_WAL, es);
    if old(device.pending) == [] { assert log.State() == log.State().(pending := []); }
    return Ok(store);
  }

  lemma EmptyFits()
    ensures WalFits(EMPTY_WAL)
  {
  }

  lemma EntriesOfAt(rs: seq<F.Record>)
    ensures forall i :: 0 <= i < |rs| ==> L.EntriesOf(rs)[i] == rs[i].entry
  {
  }
}
