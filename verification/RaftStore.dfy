/**
 storage/raftstore/store.go: the WAL and the snapshot file as one store. Compaction saves
 the snapshot first and fences the WAL second; opening completes a compaction that a crash
 cut in half, however often the crash repeats.
 */
module RaftStore {
  import opened Bytes
  import opened RaftTypes
  import opened RaftDisk
  import F = WalFormat
  import L = Wal
  import W = RaftWal

  // ------------------------------------------------------------ interrupted compaction

  /** Opening succeeds exactly when the WAL replays and the snapshot lies between its base and its last index. */
  lemma OpenSucceedsIff(d: Disk)
    ensures Open(d).Ok? <==> d.readable && d.wal.base <= d.image.lastIndex <= WalLast(d.wal)
    ensures Open(d).Ok? ==> Open(d).value.wal.base == d.image.lastIndex && Open(d).value.image == d.image
  {
  }

  /** The fence is one WAL operation. */
  function FenceOp(w: Wal, s: Snapshot): W.Op {
    if WalTerm(w, s.lastIndex) == Some(s.lastTerm) then W.CompactOp(s.lastIndex) else W.ResetOp(s.lastIndex, s.lastTerm)
  }

  lemma FenceIsOneOperation(w: Wal, s: Snapshot)
    ensures W.Live(w, FenceOp(w, s)) == Fence(w, s) && W.Faithful(w, FenceOp(w, s))
    ensures W.DiskRecord(FenceOp(w, s)) == FenceRecord(w, s)
  {
  }

  predicate SnapshotFits(s: Snapshot) {
    s.lastIndex <= MAX_UINT64 && s.lastTerm <= MAX_UINT64
  }

  /** The snapshot is ahead of the base and within the WAL, so that a fence is due. */
  predicate FenceDue(w: Wal, s: Snapshot) {
    w.base < s.lastIndex <= WalLast(w)
  }

  lemma FenceFits(w: Wal, s: Snapshot)
    requires W.WalFits(w) && SnapshotFits(s) && FenceDue(w, s)
    ensures W.OpFits(FenceOp(w, s)) && Fence(w, s).Ok? && Fence(w, s).value.base == s.lastIndex
  {
  }

  /**
   So a crash inside the fence is all or nothing: with fewer than 112 of its bytes on the
   medium the WAL reopens as it was, with all of them it reopens fenced.
   */
  lemma CrashInsideFence(crc: F.Checksum, m: L.Medium, r: W.Run, s: Snapshot, torn: nat)
    requires W.Holds(crc, m, r) && |r.records| < MAX_UINT64 && SnapshotFits(s) && FenceDue(r.live, s)
    ensures W.OpFits(FenceOp(r.live, s)) && W.Live(r.live, FenceOp(r.live, s)).Ok?
    ensures var image := W.TornBytes(crc, m, r.live, FenceOp(r.live, s), torn);
            if torn < F.RECORD_SIZE then
              W.Reopened(crc, image) == Ok(r.live) && L.Opened(crc, image) == F.Success(m)
            else
              W.Reopened(crc, image) == Fence(r.live, s)
              && L.Opened(crc, image) == F.Success(W.Grown(crc, m, r.live, FenceOp(r.live, s)))
  {
    hide W.TornBytes, W.Reopened, L.Opened, W.Grown, W.Live, W.Faithful, FenceOp, Fence, W.Holds;
    FenceIsOneOperation(r.live, s);
    HoldsFits(crc, m, r);
    FenceFits(r.live, s);
    W.CrashInsideOperation(crc, m, r, FenceOp(r.live, s), torn);
  }

  lemma HoldsFits(crc: F.Checksum, m: L.Medium, r: W.Run)
    requires W.Holds(crc, m, r)
    ensures W.WalFits(r.live)
  {
  }

  /**
   Where a crash falls inside raftstore.Open, or inside the fence of a compaction: before
   the torn tail is cut off, or when `torn` bytes of the fence reached the medium.
   */
  datatype Crash = BeforeCut | InFence(torn: nat)

  /** The bytes a crashed attempt to open leaves behind; a WAL that is fenced already gets no second fence. */
  function Attempt(crc: F.Checksum, s: Snapshot, image: seq<byte>, crash: Crash): seq<byte>
    requires SnapshotFits(s)
  {
    match W.Reboot(crc, image)
    case Err => image
    case Ok(state) =>
      if crash.BeforeCut? then image
      else if FenceDue(state.live, s) then
        FenceFits(state.live, s);
        FenceIsOneOperation(state.live, s);
        W.TornBytes(crc, state.medium, state.live, FenceOp(state.live, s), crash.torn)
      else state.medium.durable
  }

  function Attempts(crc: F.Checksum, s: Snapshot, image: seq<byte>, crashes: seq<Crash>): seq<byte>
    requires SnapshotFits(s)
    decreases crashes
  {
    if crashes == [] then image
    else Attempt(crc, s, Attempts(crc, s, image, crashes[..|crashes| - 1]), crashes[|crashes| - 1])
  }

  /** The image reopens as the unfenced store, or as the fenced one. */
  ghost predicate BeforeOrAfter(crc: F.Checksum, m: L.Medium, w: Wal, s: Snapshot, image: seq<byte>)
    requires W.WalFits(w) && SnapshotFits(s) && FenceDue(w, s)
  {
    FenceFits(w, s);
    FenceIsOneOperation(w, s);
    || (W.Reopened(crc, image) == Ok(w) && L.Opened(crc, image) == F.Success(m))
    || (W.Reopened(crc, image) == Fence(w, s)
        && L.Opened(crc, image) == F.Success(W.Grown(crc, m, w, FenceOp(w, s))))
  }

  lemma AttemptKeeps(crc: F.Checksum, m: L.Medium, r: W.Run, s: Snapshot, image: seq<byte>, crash: Crash)
    requires W.Holds(crc, m, r) && |r.records| < MAX_UINT64 && SnapshotFits(s) && FenceDue(r.live, s)
    requires BeforeOrAfter(crc, m, r.live, s, image)
    ensures BeforeOrAfter(crc, m, r.live, s, Attempt(crc, s, image, crash))
  {
    hide W.TornBytes, W.Reopened, L.Opened, W.Grown, W.Live, FenceOp, Fence, W.Holds, W.WalFits;
    HoldsFits(crc, m, r);
    FenceFits(r.live, s);
    FenceIsOneOperation(r.live, s);
    if crash.InFence? {
      CrashInsideFence(crc, m, r, s, crash.torn);
      FencedReopens(crc, m, r, s);
    }
  }

  /** The fenced medium, cut at its last complete record, is itself. */
  lemma FencedReopens(crc: F.Checksum, m: L.Medium, r: W.Run, s: Snapshot)
    requires W.Holds(crc, m, r) && |r.records| < MAX_UINT64 && SnapshotFits(s) && FenceDue(r.live, s)
    ensures W.OpFits(FenceOp(r.live, s)) && W.Live(r.live, FenceOp(r.live, s)).Ok?
    ensures var m1 := W.Grown(crc, m, r.live, FenceOp(r.live, s));
            W.Reopened(crc, m1.durable) == Fence(r.live, s) && L.Opened(crc, m1.durable) == F.Success(m1)
  {
    hide W.Reopened, L.Opened, W.Live, FenceOp, Fence, W.Holds, L.Appended, W.RecordOf;
    CrashInsideFence(crc, m, r, s, F.RECORD_SIZE);
    var op := FenceOp(r.live, s);
    AllBytes(crc, m, r, op);
  }

  lemma AllBytes(crc: F.Checksum, m: L.Medium, r: W.Run, op: W.Op)
    requires W.Holds(crc, m, r) && |r.records| < MAX_UINT64 && W.OpFits(op) && W.Live(r.live, op).Ok?
    ensures W.TornBytes(crc, m, r.live, op, F.RECORD_SIZE) == W.Grown(crc, m, r.live, op).durable
  {
    hide L.Keeps, L.Appended, W.Live, W.RecordOf, W.Replay, L.Recovered, L.Opened, L.Numbered;
    L.TornAppend(crc, m, r.records, W.RecordOf(r.live, op), F.RECORD_SIZE);
    L.AppendedOne(crc, m, W.RecordOf(r.live, op));
    var p := L.Appended(crc, m, [W.RecordOf(r.live, op)]).pending;
    assert p[..F.RECORD_SIZE] == p;
  }

  lemma {:induction false} AttemptsKeep(crc: F.Checksum, m: L.Medium, r: W.Run, s: Snapshot, image: seq<byte>,
                                        crashes: seq<Crash>)
    requires W.Holds(crc, m, r) && |r.records| < MAX_UINT64 && SnapshotFits(s) && FenceDue(r.live, s)
    requires BeforeOrAfter(crc, m, r.live, s, image)
    ensures BeforeOrAfter(crc, m, r.live, s, Attempts(crc, s, image, crashes))
    decreases crashes
  {
    hide BeforeOrAfter, Attempt, W.Holds, W.WalFits;
    if crashes != [] {
      var n := |crashes| - 1;
      AttemptsKeep(crc, m, r, s, image, crashes[..n]);
      AttemptKeeps(crc, m, r, s, Attempts(crc, s, image, crashes[..n]), crashes[n]);
    }
  }

  /**
   A compaction within the WAL whose fence is torn at any byte, followed by any number of
   attempts to open that are torn at any byte themselves, ends exactly where the
   uninterrupted compaction ends. `image` is any readable WAL, so also what a run of calls
   and earlier crashes left.
   */
  lemma InterruptedCompactionCompletes(crc: F.Checksum, image: seq<byte>, d: Disk, s: Snapshot, crashes: seq<Crash>)
    requires W.Reopened(crc, image) == Ok(d.wal) && |image| / F.RECORD_SIZE < MAX_UINT64 && SnapshotFits(s)
    requires Clean(d) && d.image.lastIndex <= s.lastIndex && FenceDue(d.wal, s)
    ensures var saved := SaveSnapshot(d, s);
            var left := W.Reopened(crc, Attempts(crc, s, image, crashes));
            saved.Ok? && CompactLog(saved.value, s.lastIndex).Ok? && left.Ok?
            && Open(Fresh(left.value, s)) == CompactLog(saved.value, s.lastIndex)
  {
    hide W.Reopened, W.Holds, W.WalFits, L.Opened, W.Grown, Attempts, Fence;
    ReadableHolds(crc, image);
    var m := L.Opened(crc, image).value;
    var r := W.Run(d.wal, L.EntriesOf(L.Recovered(crc, image).value));
    HoldsFits(crc, m, r);
    AttemptsKeep(crc, m, r, s, image, crashes);
    FenceFits(d.wal, s);
    CleanFence(SaveSnapshot(d, s).value, s.lastIndex);
  }

  /** Any readable WAL opens to a medium that holds what was read. */
  lemma ReadableHolds(crc: F.Checksum, image: seq<byte>)
    requires W.Reopened(crc, image).Ok?
    ensures var rs := L.Recovered(crc, image);
            rs.Success? && |rs.value| == |image| / F.RECORD_SIZE && L.Opened(crc, image).Success?
            && W.Holds(crc, L.Opened(crc, image).value, W.Run(W.Reopened(crc, image).value, L.EntriesOf(rs.value)))
  {
    hide L.Keeps, L.Opened, L.RecoveredUpTo, L.EntriesOf, W.WalFits, W.ReplayFrom;
    L.OpenedKeeps(crc, image);
    W.EmptyFits();
    W.ReplayFits(EMPTY_WAL, L.EntriesOf(L.Recovered(crc, image).value));
    L.RecoveredMeans(crc, image, |image| / F.RECORD_SIZE);
  }

  /** Beyond the WAL's last index the same crash is fatal, although the compaction itself would succeed. */
  lemma CrashBeyondTheWalIsFatal(d: Disk, s: Snapshot)
    requires Clean(d) && d.image.lastIndex <= s.lastIndex && d.wal.base < s.lastIndex
    ensures var saved := SaveSnapshot(d, s);
            saved.Ok? && CompactLog(saved.value, s.lastIndex).Ok?
            && (Open(saved.value) == CompactLog(saved.value, s.lastIndex) <==> s.lastIndex <= WalLast(d.wal))
            && (s.lastIndex > WalLast(d.wal) ==> Open(saved.value).Err?)
  {
  }

  /** What a compaction keeps: the hard state, and every entry above the snapshot when the terms agree. */
  lemma CompactionKeepsSuffix(d: Disk, s: Snapshot, i: nat)
    requires Clean(d) && d.image.lastIndex <= s.lastIndex && d.wal.base < s.lastIndex < i <= WalLast(d.wal)
    requires WalTerm(d.wal, s.lastIndex) == Some(s.lastTerm)
    ensures var w := CompactLog(SaveSnapshot(d, s).value, s.lastIndex).value.wal;
            w.hard == d.wal.hard && w.base == s.lastIndex && WalLast(w) == WalLast(d.wal)
            && w.data[i - w.base] == d.wal.data[i - d.wal.base]
  {
  }

  // ------------------------------------------------------------ the store object

  /** The snapshot file, replaced as a whole or not at all, and the index of the last snapshot saved through it. */
  class SnapshotFile {
    var image: Snapshot
    var last: nat

    constructor (found: Snapshot)
      ensures image == found && last == found.lastIndex
    {
      image, last := found, found.lastIndex;
    }

    /** The rename may have happened although the directory could not be synced. */
    method Save(s: Snapshot, outcome: Outcome) returns (ok: bool)
      modifies this
      ensures ok <==> old(last) <= s.lastIndex && outcome == Done
      ensures image == if old(last) <= s.lastIndex && outcome != Lost then s else old(image)
      ensures last == if ok then s.lastIndex else old(last)
    {
      if s.lastIndex < last || outcome == Lost { return false; }
      image := s;
      if outcome == Kept { return false; }
      last := s.lastIndex;
      ok := true;
    }
  }

  /** What the bytes of the WAL, the snapshot file and the fields amount to. */
  ghost function DiskOf(records: seq<F.Entry>, live: Wal, image: Snapshot, pending: Snapshot, last: nat): Disk {
    Disk(W.Medium(records).0, W.Medium(records).1, image, Memory(live, pending, last))
  }

  /** One more record on the medium. */
  lemma LoggedIsMedium(r: W.Run, op: W.Op, image: Snapshot, memory: Memory)
    requires W.WalFits(r.live) && W.OpFits(op) && W.Live(r.live, op).Ok? && W.Faithful(r.live, op)
    ensures var (w, readable) := W.Medium(r.records + [W.RecordOf(r.live, op)]);
            Logged(Disk(W.Medium(r.records).0, W.Medium(r.records).1, image, memory), W.DiskRecord(op))
            == Disk(w, readable, image, memory)
  {
    hide W.Live, W.RecordOf, W.ReplayOne, Replayed, W.Faithful, W.DiskRecord, W.WalFits, W.OpFits;
    W.RecordsAgree(r.live, op, W.Medium(r.records).0);
    assert (r.records + [W.RecordOf(r.live, op)])[..|r.records|] == r.records;
  }

  /** What the call would leave if it succeeded. */
  function Attempted(d: Disk, op: W.Op): Result<Disk> {
    match W.Live(d.memory.wal, op)
    case Err => Err
    case Ok(w) => Ok(Acknowledged(d, W.DiskRecord(op), w))
  }

  /** A WAL call under a device outcome is the write that RaftDisk describes. */
  lemma RanIsWritten(r: W.Run, op: W.Op, outcome: Outcome, r': W.Run, ok: bool, image: Snapshot, pending: Snapshot,
                     last: nat)
    requires W.WalFits(r.live) && W.OpFits(op) && W.Faithful(r.live, op) && W.Ran(r, op, outcome, r', ok)
    ensures var d := DiskOf(r.records, r.live, image, pending, last);
            Written(d, Attempted(d, op), outcome) == (DiskOf(r'.records, r'.live, image, pending, last), ok)
  {
    hide W.Live, W.RecordOf, Logged, W.Medium, W.Faithful, W.DiskRecord, W.WalFits, W.OpFits;
    if W.Live(r.live, op).Ok? {
      LoggedIsMedium(r, op, image, Memory(r.live, pending, last));
    }
  }

  class Store {
    const wal: W.Store
    const file: SnapshotFile
    var pending: Snapshot

    ghost function Repr(): set<object> {
      wal.Repr() + {this, file}
    }

    ghost predicate Valid()
      reads Repr()
    {
      wal.Stored() && SnapshotFits(pending)
    }

    ghost function State(): Disk
      reads this, wal, file
    {
      DiskOf(wal.records, wal.State(), file.image, pending, file.last)
    }

    constructor (wal: W.Store, file: SnapshotFile)
      ensures this.wal == wal && this.file == file && pending == NO_SNAPSHOT
    {
      this.wal, this.file, pending := wal, file, NO_SNAPSHOT;
    }

    method SaveHardState(h: HardState, outcome: Outcome) returns (ok: bool)
      requires Valid() && W.HardFits(h)
      modifies Repr()
      ensures Valid() && (State(), ok) == Written(old(State()), SaveHard(old(State()), h), outcome)
    {
      hide W.Store.Stored, W.Medium, W.Ran;
      ghost var r := W.Run(wal.State(), wal.records);
      StoredFits(wal);
      ok := wal.SaveHardState(h, outcome);
      RanIsWritten(r, W.SaveHardOp(h), outcome, W.Run(wal.State(), wal.records), ok, file.image, pending, file.last);
    }

    /** An append at a reserved index is stored, but replay would read it as something else. */
    method Append(index: nat, e: Entry, outcome: Outcome) returns (ok: bool)
      requires Valid() && W.EntryFits(e) && index <= MAX_UINT64
      modifies Repr()
      ensures Valid() && (ok <==> W.Live(old(State()).memory.wal, W.AppendOp(index, e)).Ok? && outcome == Done)
      ensures State().memory.wal == (if ok then W.Live(old(State()).memory.wal, W.AppendOp(index, e)).value
                                     else old(State()).memory.wal)
      ensures W.Faithful(old(State()).memory.wal, W.AppendOp(index, e))
              && WalLast(old(State()).memory.wal) < MAX_UINT64 ==>
                (State(), ok) == Written(old(State()), AppendEntry(old(State()), index, e), outcome)
    {
      hide W.Store.Stored, W.Medium;
      ghost var r := W.Run(wal.State(), wal.records);
      StoredFits(wal);
      ok := wal.Append(index, e, outcome);
      if W.Faithful(r.live, W.AppendOp(index, e)) {
        RanIsWritten(r, W.AppendOp(index, e), outcome, W.Run(wal.State(), wal.records), ok, file.image, pending,
                     file.last);
      }
    }

    method SaveSnapshot(s: Snapshot, outcome: Outcome) returns (ok: bool)
      requires Valid() && SnapshotFits(s)
      modifies Repr()
      ensures Valid() && (State(), ok) == Written(old(State()), RaftDisk.SaveSnapshot(old(State()), s), outcome)
    {
      hide W.Store.Stored, W.Medium;
      ok := file.Save(s, outcome);
      if ok { pending := s; }
    }

    method CompactLog(index: nat, outcome: Outcome) returns (ok: bool)
      requires Valid()
      modifies Repr()
      ensures Valid() && (State(), ok) == Written(old(State()), RaftDisk.CompactLog(old(State()), index), outcome)
    {
      hide W.Store.Stored, W.Medium, Fence, FenceRecord;
      if pending.lastIndex != index { return false; }
      ghost var d := State();
      ok := WriteFence(wal, pending, outcome, file.image, pending, file.last);
      if ok { pending := NO_SNAPSHOT; }
    }
  }

  lemma StoredFits(wal: W.Store)
    requires wal.Stored()
    ensures W.WalFits(wal.State())
  {
  }

  /** The fence, as the fields choose it, on whatever the medium holds. */
  function Fencing(d: Disk, s: Snapshot): Result<Disk> {
    match Fence(d.memory.wal, s)
    case Err => Err
    case Ok(w) => Ok(Acknowledged(d, FenceRecord(d.memory.wal, s), w))
  }

  /** The fence that compaction and opening share. */
  method WriteFence(wal: W.Store, s: Snapshot, outcome: Outcome,
                    ghost image: Snapshot, ghost pending: Snapshot, ghost last: nat)
    returns (ok: bool)
    requires wal.Stored() && SnapshotFits(s)
    modifies wal.Repr()
    ensures wal.Stored()
    ensures var d := old(DiskOf(wal.records, wal.State(), image, pending, last));
            (DiskOf(wal.records, wal.State(), image, pending, last), ok) == Written(d, Fencing(d, s), outcome)
  {
    hide W.Store.Stored, W.Medium, W.Ran;
    ghost var r := W.Run(wal.State(), wal.records);
    StoredFits(wal);
    FenceIsOneOperation(r.live, s);
    var term := wal.Term(s.lastIndex);
    if term == Some(s.lastTerm) {
      ok := wal.CompactLog(s.lastIndex, outcome);
    } else {
      ok := wal.ResetBase(s.lastIndex, s.lastTerm, outcome);
    }
    RanIsWritten(r, FenceOp(r.live, s), outcome, W.Run(wal.State(), wal.records), ok, image, pending, last);
  }

  /**
   raftstore.Open on any bytes of a device that buffers nothing, and the snapshot found beside
   it. An unreadable WAL, a WAL base past the snapshot, a snapshot past the WAL and a fence
   that fails are refused; a missing fence is written now.
   */
  method OpenStore(crc: F.Checksum, device: L.MemoryDevice, image: Snapshot, outcome: Outcome)
    returns (r: Result<Store>)
    requires device.pending == [] && SnapshotFits(image)
    modifies device
    ensures W.Reopened(crc, old(device.durable)).Err? ==> r.Err?
    ensures W.Reopened(crc, old(device.durable)).Ok? ==>
              var w := W.Reopened(crc, old(device.durable)).value;
              match Open(Fresh(w, image))
              case Err => r.Err?
              case Ok(d) =>
                if w.base < image.lastIndex && outcome != Done then r.Err?
                else r.Ok? && r.value.Valid() && r.value.State() == d && r.value.wal.log.device == device
  {
    hide W.Reopened, W.Replay, L.Keeps, W.Medium;
    var opening := W.Open(crc, device);
    if opening.Err? { return Err; }
    var wal := opening.value;
    W.MediumIsReplay(wal.records);
    ghost var w := wal.State();
    assert DiskOf(wal.records, w, image, NO_SNAPSHOT, image.lastIndex) == Fresh(w, image);
    if wal.base > image.lastIndex { return Err; }
    if image.lastIndex > wal.base {
      if image.lastIndex > wal.base + |wal.data| - 1 { return Err; }
      FenceIsOneOperation(w, image);
      var fenced := WriteFence(wal, image, outcome, image, NO_SNAPSHOT, image.lastIndex);
      if !fenced { return Err; }
    }
    var file := new SnapshotFile(image);
    var store := new Store(wal, file);
    return Ok(store);
  }
}
