/**
 A device that buffers. When a sync fails, the record it should have made durable stays in the
 buffer: a later sync may still store it, and a crash may keep any prefix of the buffer
 (storage/wal/wal.go, storage/wal/device.go). The result is that three outcomes per write are
 enough: for every run over a buffering device, and wherever it crashes, there is a run of
 RaftDisk in which each write succeeds, is lost or is kept, with the same reports, the same
 memory and the same medium.
 */
module RaftBuffer {
  import opened RaftTypes
  import opened RaftDisk

  datatype StoreCall =
    | HardCall(hard: HardState)
    | EntryCall(index: nat, entry: Entry)
    | SnapshotCall(snapshot: Snapshot)
    | FenceCall(index: nat)

  function Attempt(d: Disk, call: StoreCall): Result<Disk> {
    match call
    case HardCall(h) => SaveHard(d, h)
    case EntryCall(i, e) => AppendEntry(d, i, e)
    case SnapshotCall(s) => SaveSnapshot(d, s)
    case FenceCall(i) => CompactLog(d, i)
  }

  /** The record that the call writes; a snapshot goes to its own file. */
  function RecordOf(d: Disk, call: StoreCall): Option<Record> {
    match call
    case HardCall(h) => Some(HardRecord(h))
    case EntryCall(i, e) => Some(EntryRecord(i, e))
    case SnapshotCall(_) => None
    case FenceCall(_) => Some(FenceRecord(d.memory.wal, d.memory.pending))
  }

  /** What the device does: the last two report a failure after the record was handed over. */
  datatype Fate = Succeeds | Refuses | StaysBuffered | ReachesMedium

  /** `disk.wal` is what is durable now; `staged` is what waits in the buffer. */
  datatype Buffer = Buffer(disk: Disk, staged: seq<Record>)

  function LoggedAll(d: Disk, rs: seq<Record>): Disk {
    if rs == [] then d else Logged(LoggedAll(d, rs[..|rs| - 1]), rs[|rs| - 1])
  }

  /** What a crash leaves when the first `k` buffered records reached the medium. */
  function Crashed(b: Buffer, k: nat): Disk
    requires k <= |b.staged|
  {
    LoggedAll(b.disk, b.staged[..k])
  }

  function Flushed(b: Buffer, r: Record): Disk {
    Logged(LoggedAll(b.disk, b.staged), r)
  }

  /** One call over the buffering device, and whether it reports success. */
  function Perform(b: Buffer, call: StoreCall, fate: Fate): (Buffer, bool) {
    var attempt := Attempt(b.disk, call);
    if attempt.Err? || fate == Refuses then (b, false)
    else
      match RecordOf(b.disk, call)
      case None =>
        if fate == StaysBuffered then (b, false)
        else if fate == ReachesMedium then (b.(disk := Unacknowledged(b.disk, attempt.value)), false)
        else (b.(disk := attempt.value), true)
      case Some(r) =>
        if fate == StaysBuffered then (b.(staged := b.staged + [r]), false)
        else if fate == ReachesMedium then (Buffer(Flushed(b, r), []), false)
        else (Buffer(Flushed(b, r).(memory := attempt.value.memory), []), true)
  }

  function Run(d: Disk, calls: seq<StoreCall>, fates: seq<Fate>): (Buffer, seq<bool>)
    requires |fates| == |calls|
  {
    if calls == [] then (Buffer(d, []), [])
    else
      var k := |calls| - 1;
      var (b, oks) := Run(d, calls[..k], fates[..k]);
      var (b', ok) := Perform(b, calls[k], fates[k]);
      (b', oks + [ok])
  }

  /** The same calls without a buffer. */
  function Resolved(d: Disk, calls: seq<StoreCall>, plan: seq<Outcome>): (Disk, seq<bool>)
    requires |plan| == |calls|
  {
    if calls == [] then (d, [])
    else
      var k := |calls| - 1;
      var (d1, oks) := Resolved(d, calls[..k], plan[..k]);
      var (d', ok) := Written(d1, Attempt(d1, calls[k]), plan[k]);
      (d', oks + [ok])
  }

  lemma LoggedKeeps(d: Disk, r: Record)
    ensures Logged(d, r).memory == d.memory && Logged(d, r).image == d.image
  {}

  lemma {:induction false} LoggedAllKeeps(d: Disk, rs: seq<Record>)
    ensures LoggedAll(d, rs).memory == d.memory && LoggedAll(d, rs).image == d.image
  {
    if rs != [] { LoggedAllKeeps(d, rs[..|rs| - 1]); }
  }

  /** Replacing the snapshot and the memory commutes with logging. */
  lemma {:induction false} LoggedAllFrame(d: Disk, d': Disk, rs: seq<Record>)
    requires d' == d.(image := d'.image, memory := d'.memory)
    ensures LoggedAll(d', rs) == LoggedAll(d, rs).(image := d'.image, memory := d'.memory)
  {
    hide Replayed;
    if rs != [] { LoggedAllFrame(d, d', rs[..|rs| - 1]); }
  }

  /** Calls consult the memory, and change the medium by their record alone. */
  lemma AttemptReadsMemory(d: Disk, d': Disk, call: StoreCall)
    requires d'.memory == d.memory && d'.image == d.image
    ensures Attempt(d, call).Ok? <==> Attempt(d', call).Ok?
    ensures RecordOf(d, call) == RecordOf(d', call)
    ensures Attempt(d, call).Ok? ==>
              var a, a' := Attempt(d, call).value, Attempt(d', call).value;
              a.memory == a'.memory && a.image == a'.image
              && (match RecordOf(d, call)
                  case None => a' == d'.(image := a'.image, memory := a'.memory)
                  case Some(r) => a' == Logged(d', r).(memory := a'.memory))
  {
    hide Replayed, Fence;
  }

  /**
   Wherever the buffering device crashes, some plan of plain outcomes has the same reports and
   ends with the same medium and the same memory.
   */
  lemma {:induction false} BufferedRunsResolve(d: Disk, calls: seq<StoreCall>, fates: seq<Fate>, k: nat)
    returns (plan: seq<Outcome>)
    requires |fates| == |calls| && k <= |Run(d, calls, fates).0.staged|
    ensures |plan| == |calls|
    ensures Resolved(d, calls, plan) == (Crashed(Run(d, calls, fates).0, k), Run(d, calls, fates).1)
    decreases calls
  {
    hide Attempt, RecordOf, Logged;
    if calls == [] {
      plan := [];
    } else {
      var n := |calls| - 1;
      var (b, oks) := Run(d, calls[..n], fates[..n]);
      var (b', ok) := Perform(b, calls[n], fates[n]);
      var (reached, outcome) := Choice(b, calls[n], fates[n], k);
      var before := BufferedRunsResolve(d, calls[..n], fates[..n], reached);
      OneCallResolves(b, calls[n], fates[n], k, reached, outcome);
      plan := before + [outcome];
      assert plan[..n] == before;
    }
  }

  /** How much of the buffer reached the medium before the call, and what became of the call itself. */
  function Choice(b: Buffer, call: StoreCall, fate: Fate, k: nat): (r: (nat, Outcome))
    requires k <= |Perform(b, call, fate).0.staged|
    ensures r.0 <= |b.staged|
  {
    if Attempt(b.disk, call).Err? || fate == Refuses then (k, Lost)
    else if RecordOf(b.disk, call).None? then
      (k, if fate == Succeeds then Done else if fate == ReachesMedium then Kept else Lost)
    else if fate == Succeeds then (|b.staged|, Done)
    else if fate == ReachesMedium then (|b.staged|, Kept)
    else if k <= |b.staged| then (k, Lost)
    else (|b.staged|, Kept)
  }

  lemma OneCallResolves(b: Buffer, call: StoreCall, fate: Fate, k: nat, reached: nat, outcome: Outcome)
    requires k <= |Perform(b, call, fate).0.staged| && (reached, outcome) == Choice(b, call, fate, k)
    ensures reached <= |b.staged|
    ensures var (b', ok) := Perform(b, call, fate);
            Written(Crashed(b, reached), Attempt(Crashed(b, reached), call), outcome) == (Crashed(b', k), ok)
  {
    hide Attempt, RecordOf, Logged;
    var d := Crashed(b, reached);
    LoggedAllKeeps(b.disk, b.staged[..reached]);
    AttemptReadsMemory(b.disk, d, call);
    AttemptReadsMemory(b.disk, b.disk, call);
    assert b.staged[..|b.staged|] == b.staged;
    var (b', ok) := Perform(b, call, fate);
    if Attempt(b.disk, call).Ok? && fate != Refuses {
      match RecordOf(b.disk, call)
      case None =>
        LoggedAllFrame(b.disk, b'.disk, b.staged[..k]);
      case Some(r) =>
        LoggedKeeps(d, r);
        if fate == StaysBuffered {
          if k <= |b.staged| {
            assert b'.staged[..k] == b.staged[..k];
          } else {
            assert b'.staged[..k][..k - 1] == b.staged;
          }
        }
    }
  }
}
