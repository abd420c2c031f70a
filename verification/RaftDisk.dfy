/**
 The store behind a Raft node, as storage/raftwal, storage/snapshot and storage/raftstore
 define it: a hard state, a log above a compacted base, and one atomically replaced snapshot
 image. The medium and what the store objects remember of it are kept apart, because a call
 that reports a failure leaves the memory as it was even when its write reached the medium.
 */
module RaftDisk {
  import opened RaftTypes

  datatype Result<+T> = Ok(value: T) | Err

  /** What replaying the write-ahead log yields. */
  datatype Wal = Wal(hard: HardState, base: nat, data: Log)

  const EMPTY_WAL := Wal(HardState(0, 0, 0), 0, [Sentinel(0)])

  function WalLast(w: Wal): nat {
    w.base + |w.data| - 1
  }

  predicate HardStateRegresses(was: HardState, h: HardState) {
    h.term < was.term || h.commit < was.commit
    || (h.term == was.term && was.votedFor != 0 && h.votedFor != was.votedFor)
  }

  function WalSaveHard(w: Wal, h: HardState): Result<Wal> {
    if HardStateRegresses(w.hard, h) then Err else Ok(w.(hard := h))
  }

  function WalAppend(w: Wal, index: nat, e: Entry): Result<Wal> {
    if index <= w.base || index > w.base + |w.data| then Err
    else Ok(w.(data := w.data[..index - w.base] + [e]))
  }

  function WalTerm(w: Wal, index: nat): Option<nat> {
    if index < w.base || index > WalLast(w) then None else Some(w.data[index - w.base].term)
  }

  function WalReset(w: Wal, index: nat, term: nat): Result<Wal> {
    if index < w.base then Err else Ok(w.(base := index, data := [Sentinel(term)]))
  }

  function WalCompact(w: Wal, index: nat): Result<Wal> {
    if index <= w.base || index > WalLast(w) then Err
    else Ok(w.(base := index, data := w.data[index - w.base..]))
  }

  // ------------------------------------------------------------ records

  /** What one call writes to the WAL. */
  datatype Record =
    | HardRecord(hard: HardState)
    | EntryRecord(index: nat, entry: Entry)
    | ResetRecord(index: nat, term: nat)
    | CompactRecord(index: nat)

  /** What replaying the record makes of `w`, which need not be the state it was written from. */
  function Replayed(w: Wal, r: Record): Result<Wal> {
    match r
    case HardRecord(h) => WalSaveHard(w, h)
    case EntryRecord(index, e) => if index <= w.base then Ok(w) else WalAppend(w, index, e)
    case ResetRecord(index, term) => WalReset(w, index, term)
    case CompactRecord(index) => if index == w.base then Ok(w) else WalCompact(w, index)
  }

  // ------------------------------------------------------------ medium and memory

  /** What the store objects remember: the WAL's fields, the snapshot saved but not yet fenced, the last one saved. */
  datatype Memory = Memory(wal: Wal, pending: Snapshot, last: nat)

  /**
   The medium is what a restart finds: the replay of the WAL, up to the first record that
   cannot be replayed if there is one, and the snapshot file. Calls consult the memory only.
   */
  datatype Disk = Disk(wal: Wal, readable: bool, image: Snapshot, memory: Memory)

  /** A medium that the store has just read. */
  function Fresh(wal: Wal, image: Snapshot): Disk {
    Disk(wal, true, image, Memory(wal, NO_SNAPSHOT, image.lastIndex))
  }

  const EMPTY_DISK := Fresh(EMPTY_WAL, NO_SNAPSHOT)

  /** The memory is that of a store which read the medium, or wrote it without a failure since. */
  predicate Clean(d: Disk) {
    d.readable && d.memory.wal == d.wal && d.memory.last == d.image.lastIndex
  }

  /** Medium and memory have both become `w`. */
  function Together(d: Disk, w: Wal): Disk {
    d.(wal := w, memory := d.memory.(wal := w))
  }

  /** A record reached the medium. */
  function Logged(d: Disk, r: Record): Disk {
    if !d.readable then d
    else match Replayed(d.wal, r)
         case Err => d.(readable := false)
         case Ok(w) => d.(wal := w)
  }

  /** A record reached the medium, and the fields became `w`. */
  function Acknowledged(d: Disk, r: Record, w: Wal): Disk {
    Logged(d, r).(memory := d.memory.(wal := w))
  }

  /** What is left when the write that would give `done` reached the medium but was reported as failed. */
  function Unacknowledged(d: Disk, done: Disk): Disk {
    done.(memory := d.memory)
  }

  function SaveHard(d: Disk, h: HardState): Result<Disk> {
    match WalSaveHard(d.memory.wal, h)
    case Err => Err
    case Ok(w) => Ok(Acknowledged(d, HardRecord(h), w))
  }

  function AppendEntry(d: Disk, index: nat, e: Entry): Result<Disk> {
    match WalAppend(d.memory.wal, index, e)
    case Err => Err
    case Ok(w) => Ok(Acknowledged(d, EntryRecord(index, e), w))
  }

  function SaveSnapshot(d: Disk, s: Snapshot): Result<Disk> {
    if s.lastIndex < d.memory.last then Err
    else Ok(d.(image := s, memory := d.memory.(pending := s, last := s.lastIndex)))
  }

  /** The WAL side of a compaction: keep the suffix when the terms agree, otherwise reset. */
  function Fence(w: Wal, s: Snapshot): Result<Wal> {
    if WalTerm(w, s.lastIndex) == Some(s.lastTerm) then WalCompact(w, s.lastIndex)
    else WalReset(w, s.lastIndex, s.lastTerm)
  }

  function FenceRecord(w: Wal, s: Snapshot): Record {
    if WalTerm(w, s.lastIndex) == Some(s.lastTerm) then CompactRecord(s.lastIndex)
    else ResetRecord(s.lastIndex, s.lastTerm)
  }

  function CompactLog(d: Disk, index: nat): Result<Disk> {
    var s := d.memory.pending;
    if s.lastIndex != index then Err
    else match Fence(d.memory.wal, s)
         case Err => Err
         case Ok(w) =>
           var d1 := Acknowledged(d, FenceRecord(d.memory.wal, s), w);
           Ok(d1.(memory := d1.memory.(pending := NO_SNAPSHOT)))
  }

  /** Reopening after a crash: an interrupted compaction is completed first. */
  function Open(d: Disk): Result<Disk> {
    var image := d.image;
    if !d.readable || d.wal.base > image.lastIndex then Err
    else if image.lastIndex == d.wal.base then Ok(Fresh(d.wal, image))
    else if image.lastIndex > WalLast(d.wal) then Err
    else match Fence(d.wal, image)
         case Err => Err
         case Ok(w) => Ok(Fresh(w, image))
  }

  // ------------------------------------------------------------ outcomes

  /**
   A write succeeds, fails without effect, or reaches the medium and is reported as failed,
   which is also what a crash just after it looks like.
   */
  datatype Outcome = Done | Lost | Kept

  /** The store after a write whose success would give `attempt`, and whether it reports success. */
  function Written(d: Disk, attempt: Result<Disk>, outcome: Outcome): (Disk, bool) {
    if attempt.Err? || outcome == Lost then (d, false)
    else if outcome == Kept then (Unacknowledged(d, attempt.value), false)
    else (attempt.value, true)
  }

  /** On a clean store the record replays to what the call did. */
  lemma CleanWrites(d: Disk, h: HardState, index: nat, e: Entry)
    requires Clean(d)
    ensures match WalSaveHard(d.wal, h)
            case Err => SaveHard(d, h).Err?
            case Ok(w) => SaveHard(d, h) == Ok(Together(d, w))
    ensures match WalAppend(d.wal, index, e)
            case Err => AppendEntry(d, index, e).Err?
            case Ok(w) => AppendEntry(d, index, e) == Ok(Together(d, w))
  {
  }

  lemma CleanFence(d: Disk, index: nat)
    requires Clean(d)
    ensures CompactLog(d, index).Ok? <==> d.memory.pending.lastIndex == index && Fence(d.wal, d.memory.pending).Ok?
    ensures CompactLog(d, index).Ok? ==>
              var w := Fence(d.wal, d.memory.pending).value;
              CompactLog(d, index).value == d.(wal := w, memory := d.memory.(wal := w, pending := NO_SNAPSHOT))
  {
  }
}
