/**
 The write-ahead log over a device that may lose or tear whatever was not synced:
 storage/wal/wal.go and the MemoryDevice of storage/wal/device.go. A run appends, syncs,
 crashes at any byte and reopens; recovery gives back every synced record and then a
 prefix of the staged ones.
 */
module Wal {
  import opened Bytes
  import opened WalFormat

  const TWO_64: nat := MAX_UINT64 + 1

  // ------------------------------------------------------------ images

  /** Entries with consecutive sequence numbers from `first`, which wrap like uint64. */
  function Numbered(entries: seq<Entry>, first: u64): (rs: seq<Record>)
    ensures |rs| == |entries|
  {
    seq(|entries|, i requires 0 <= i < |entries| => Record((first + i) % TWO_64, entries[i]))
  }

  /** The bytes of records one after another. */
  function Image(crc: Checksum, rs: seq<Record>): (s: seq<byte>)
    ensures |s| == RECORD_SIZE * |rs|
  {
    if rs == [] then [] else Image(crc, rs[..|rs| - 1]) + Encoded(crc, rs[|rs| - 1])
  }

  /** The `i`-th complete record slot of an image. */
  function Slot(image: seq<byte>, i: nat): seq<byte>
    requires RECORD_SIZE * (i + 1) <= |image|
  {
    image[RECORD_SIZE * i..RECORD_SIZE * (i + 1)]
  }

  lemma {:induction false} ImageSlot(crc: Checksum, rs: seq<Record>, i: nat)
    requires i < |rs|
    ensures Slot(Image(crc, rs), i) == Encoded(crc, rs[i])
  {
    hide Encoded;
    var n := |rs| - 1;
    if i < n {
      ImageSlot(crc, rs[..n], i);
      assert Slot(Image(crc, rs), i) == Slot(Image(crc, rs[..n]), i);
    }
  }

  lemma {:induction false} ImageConcat(crc: Checksum, a: seq<Record>, b: seq<Record>)
    ensures Image(crc, a + b) == Image(crc, a) + Image(crc, b)
  {
    hide Encoded;
    if b == [] {
      assert a + b == a;
    } else {
      var n := |b| - 1;
      ImageConcat(crc, a, b[..n]);
      assert (a + b)[..|a + b| - 1] == a + b[..n];
    }
  }

  lemma ImagePrefix(crc: Checksum, rs: seq<Record>, k: nat)
    requires k <= |rs|
    ensures Image(crc, rs)[..RECORD_SIZE * k] == Image(crc, rs[..k])
  {
    hide Image;
    ImageConcat(crc, rs[..k], rs[k..]);
    assert rs[..k] + rs[k..] == rs;
    assert Image(crc, rs)[..|Image(crc, rs[..k])|] == Image(crc, rs[..k]);
  }

  lemma NumberedConcat(a: seq<Entry>, b: seq<Entry>, first: u64)
    ensures Numbered(a + b, first) == Numbered(a, first) + Numbered(b, (first + |a|) % TWO_64)
  {
    var both := Numbered(a, first) + Numbered(b, (first + |a|) % TWO_64);
    forall j | 0 <= j < |a + b| ensures Numbered(a + b, first)[j] == both[j] {
      if j >= |a| { WrapTwice(first + |a|, j - |a|); }
    }
  }

  lemma WrapTwice(x: nat, y: nat)
    ensures (x + y) % TWO_64 == (x % TWO_64 + y) % TWO_64
  {
    var q := x / TWO_64;
    assert x + y == x % TWO_64 + y + q * TWO_64;
    Multiple(x % TWO_64 + y, q);
  }

  lemma {:induction false} Multiple(x: nat, q: nat)
    ensures (x + q * TWO_64) % TWO_64 == x % TWO_64
  {
    if q > 0 {
      Multiple(x, q - 1);
      assert x + q * TWO_64 == x + (q - 1) * TWO_64 + TWO_64;
    }
  }

  // ------------------------------------------------------------ recovery

  /** What Recover makes of the first `k` slots. */
  function RecoveredUpTo(crc: Checksum, image: seq<byte>, k: nat): Try<seq<Record>>
    requires RECORD_SIZE * k <= |image|
  {
    if k == 0 then Success([])
    else
      match RecoveredUpTo(crc, image, k - 1)
      case Failure(e) => Failure(e)
      case Success(rs) =>
        match Decode(crc, Slot(image, k - 1))
        case Failure(e) => Failure(e)
        case Success(r) => if r.sequence != k then Failure(ErrSequence) else Success(rs + [r])
  }

  function Recovered(crc: Checksum, image: seq<byte>): Try<seq<Record>> {
    RecoveredUpTo(crc, image, |image| / RECORD_SIZE)
  }

  predicate GoodSlot(crc: Checksum, image: seq<byte>, i: nat)
    requires RECORD_SIZE * (i + 1) <= |image|
  {
    var d := Decode(crc, Slot(image, i));
    d.Success? && d.value.sequence == i + 1
  }

  /** Recovery succeeds exactly when every complete slot holds a valid record in sequence. */
  lemma {:induction false} RecoveredMeans(crc: Checksum, image: seq<byte>, k: nat)
    requires RECORD_SIZE * k <= |image|
    ensures RecoveredUpTo(crc, image, k).Success? <==> forall i :: 0 <= i < k ==> GoodSlot(crc, image, i)
    ensures RecoveredUpTo(crc, image, k).Success? ==>
              var rs := RecoveredUpTo(crc, image, k).value;
              |rs| == k && forall i :: 0 <= i < k ==> Decode(crc, Slot(image, i)) == Success(rs[i])
  {
    hide Decode, Slot;
    if k > 0 {
      RecoveredMeans(crc, image, k - 1);
      if GoodSlot(crc, image, k - 1) && RecoveredUpTo(crc, image, k - 1).Success? {
        var rs := RecoveredUpTo(crc, image, k - 1).value;
        assert RecoveredUpTo(crc, image, k).value == rs + [Decode(crc, Slot(image, k - 1)).value];
      }
    }
  }

  /** A well-formed image with any incomplete tail recovers exactly its records. */
  lemma {:induction false} RecoverWritten(crc: Checksum, entries: seq<Entry>, tail: seq<byte>, k: nat)
    requires k <= |entries| <= MAX_UINT64
    ensures RecoveredUpTo(crc, Image(crc, Numbered(entries, 1)) + tail, k) == Success(Numbered(entries, 1)[..k])
  {
    hide Decode, Encoded, Numbered;
    var rs := Numbered(entries, 1);
    var image := Image(crc, rs) + tail;
    if k > 0 {
      RecoverWritten(crc, entries, tail, k - 1);
      ImageSlot(crc, rs, k - 1);
      assert Slot(image, k - 1) == Slot(Image(crc, rs), k - 1);
      DecodeEncoded(crc, rs[k - 1]);
      NumberOf(entries, k - 1);
      assert rs[..k - 1] + [rs[k - 1]] == rs[..k];
    }
  }

  lemma NumberOf(entries: seq<Entry>, i: nat)
    requires i < |entries| <= MAX_UINT64
    ensures Numbered(entries, 1)[i].sequence == i + 1
  {
  }

  /** Recover: the loop over complete slots; a partial tail is ignored, a bad record is fatal. */
  method Recover(crc: Checksum, image: seq<byte>) returns (r: Try<seq<Record>>, valid: nat)
    ensures r == Recovered(crc, image)
    ensures r.Success? ==> valid == RECORD_SIZE * |r.value| && |r.value| == |image| / RECORD_SIZE
    ensures r.Failure? ==>
              valid % RECORD_SIZE == 0 && valid + RECORD_SIZE <= |image|
              && (forall i :: 0 <= i < valid / RECORD_SIZE ==> GoodSlot(crc, image, i))
              && !GoodSlot(crc, image, valid / RECORD_SIZE)
  {
    hide Decode;
    var count := |image| / RECORD_SIZE;
    var records := [];
    var i := 0;
    while i < count
      invariant 0 <= i <= count && |records| == i
      invariant RecoveredUpTo(crc, image, i) == Success(records)
    {
      RecoveredMeans(crc, image, i);
      var d := Decode(crc, image[RECORD_SIZE * i..RECORD_SIZE * (i + 1)]);
      if d.Failure? {
        FailsForever(crc, image, i + 1, count);
        return Failure(d.error), RECORD_SIZE * i;
      }
      if d.value.sequence != i + 1 {
        FailsForever(crc, image, i + 1, count);
        return Failure(ErrSequence), RECORD_SIZE * i;
      }
      records := records + [d.value];
      i := i + 1;
    }
    return Success(records), RECORD_SIZE * count;
  }

  lemma {:induction false} FailsForever(crc: Checksum, image: seq<byte>, k: nat, count: nat)
    requires k <= count && RECORD_SIZE * count <= |image|
    requires RecoveredUpTo(crc, image, k).Failure?
    ensures RecoveredUpTo(crc, image, count) == RecoveredUpTo(crc, image, k)
    decreases count
  {
    if k < count { FailsForever(crc, image, k, count - 1); }
  }

  // ------------------------------------------------------------ the medium as a value

  /** Durable bytes, bytes still in the volatile buffer, and the next sequence number. */
  datatype Medium = Medium(durable: seq<byte>, pending: seq<byte>, nextSeq: u64)

  const BLANK := Medium([], [], 1)

  function Appended(crc: Checksum, m: Medium, entries: seq<Entry>): Medium {
    Medium(m.durable, m.pending + Image(crc, Numbered(entries, m.nextSeq)), (m.nextSeq + |entries|) % TWO_64)
  }

  function Synced(m: Medium): Medium {
    Medium(m.durable + m.pending, [], m.nextSeq)
  }

  /** Open on a rebooted device: recover, cut the torn tail off, continue the numbering. */
  function Opened(crc: Checksum, durable: seq<byte>): Try<Medium> {
    match Recovered(crc, durable)
    case Failure(e) => Failure(e)
    case Success(rs) =>
      RecoveredMeans(crc, durable, |durable| / RECORD_SIZE);
      Success(Medium(durable[..RECORD_SIZE * |rs|], [],
                     if rs == [] then 1 else (rs[|rs| - 1].sequence + 1) % TWO_64))
  }

  datatype Event = AppendEvent(entry: Entry) | SyncEvent | CrashEvent(torn: nat)

  /** A crash keeps the first `torn` volatile bytes; a longer tear than that is refused. */
  function Next(crc: Checksum, m: Medium, ev: Event): Try<Medium> {
    match ev
    case AppendEvent(e) => Success(Appended(crc, m, [e]))
    case SyncEvent => Success(Synced(m))
    case CrashEvent(torn) =>
      if torn > |m.pending| then Success(m) else Opened(crc, m.durable + m.pending[..torn])
  }

  function Run(crc: Checksum, events: seq<Event>): Try<Medium> {
    if events == [] then Success(BLANK)
    else
      match Run(crc, events[..|events| - 1])
      case Failure(e) => Failure(e)
      case Success(m) => Next(crc, m, events[|events| - 1])
  }

  /** What a caller knows of a run: the entries synced, and those staged after them. */
  datatype Known = Known(synced: seq<Entry>, staged: seq<Entry>)

  /** Each record is 112 bytes, so a tear of `torn` bytes keeps the first torn / 112 staged records. */
  function Learn(k: Known, ev: Event): Known {
    match ev
    case AppendEvent(e) => Known(k.synced, k.staged + [e])
    case SyncEvent => Known(k.synced + k.staged, [])
    case CrashEvent(torn) =>
      if torn > RECORD_SIZE * |k.staged| then k
      else Known(k.synced + k.staged[..torn / RECORD_SIZE], [])
  }

  function KnownAfter(events: seq<Event>): (k: Known)
    ensures |k.synced| + |k.staged| <= |events|
  {
    if events == [] then Known([], []) else Learn(KnownAfter(events[..|events| - 1]), events[|events| - 1])
  }

  /** The medium that holds exactly the known entries. */
  function Holding(crc: Checksum, k: Known): Medium {
    var n := |k.synced|;
    Medium(Image(crc, Numbered(k.synced, 1)), Image(crc, Numbered(k.staged, (1 + n) % TWO_64)),
           (1 + n + |k.staged|) % TWO_64)
  }

  lemma SplitTail(a: seq<byte>, p: seq<byte>, cut: nat, torn: nat)
    requires cut <= torn <= |p|
    ensures a + p[..torn] == (a + p[..cut]) + p[cut..torn]
  {
  }

  /** What survives a tear at any byte: the whole records of the prefix, then less than one record. */
  lemma TornImage(crc: Checksum, k: Known, torn: nat)
    requires torn <= RECORD_SIZE * |k.staged|
    ensures var m := Holding(crc, k);
            var c := torn / RECORD_SIZE;
            m.durable + m.pending[..torn]
            == Image(crc, Numbered(k.synced + k.staged[..c], 1)) + m.pending[RECORD_SIZE * c..torn]
  {
    hide Image, Encoded;
    var m := Holding(crc, k);
    var c := torn / RECORD_SIZE;
    var first: u64 := (1 + |k.synced|) % TWO_64;
    NumberedConcat(k.synced, k.staged[..c], 1);
    ImageConcat(crc, Numbered(k.synced, 1), Numbered(k.staged[..c], first));
    ImagePrefix(crc, Numbered(k.staged, first), c);
    assert Numbered(k.staged, first)[..c] == Numbered(k.staged[..c], first);
    SplitTail(m.durable, m.pending, RECORD_SIZE * c, torn);
  }

  /** Recovery after a tear at any byte: every synced entry, then a prefix of the staged ones, numbered 1..n. */
  lemma CrashRecovers(crc: Checksum, k: Known, torn: nat)
    requires torn <= RECORD_SIZE * |k.staged| && |k.synced| + |k.staged| <= MAX_UINT64
    ensures var m := Holding(crc, k);
            Recovered(crc, m.durable + m.pending[..torn])
            == Success(Numbered(k.synced + k.staged[..torn / RECORD_SIZE], 1))
  {
    hide Numbered, Image, RecoveredUpTo;
    TornImage(crc, k, torn);
    var m := Holding(crc, k);
    var kept := k.synced + k.staged[..torn / RECORD_SIZE];
    RecoverWritten(crc, kept, m.pending[RECORD_SIZE * (torn / RECORD_SIZE)..torn], |kept|);
    assert Numbered(kept, 1)[..|kept|] == Numbered(kept, 1);
  }

  lemma NothingStaged(crc: Checksum, first: u64)
    ensures Image(crc, Numbered([], first)) == []
  {
    assert Numbered([], first) == [];
  }

  lemma OpenAfterCrash(crc: Checksum, k: Known, torn: nat)
    requires torn <= RECORD_SIZE * |k.staged| && |k.synced| + |k.staged| <= MAX_UINT64
    ensures var m := Holding(crc, k);
            Opened(crc, m.durable + m.pending[..torn])
            == Success(Holding(crc, Known(k.synced + k.staged[..torn / RECORD_SIZE], [])))
  {
    hide Recovered, Numbered, Image;
    CrashRecovers(crc, k, torn);
    TornImage(crc, k, torn);
    var m := Holding(crc, k);
    var kept := k.synced + k.staged[..torn / RECORD_SIZE];
    var whole := Image(crc, Numbered(kept, 1));
    assert (m.durable + m.pending[..torn])[..|whole|] == whole;
    NothingStaged(crc, (1 + |kept|) % TWO_64);
    if kept != [] { NumberOf(kept, |kept| - 1); }
  }

  lemma AppendHolds(crc: Checksum, k: Known, e: Entry)
    ensures Appended(crc, Holding(crc, k), [e]) == Holding(crc, Known(k.synced, k.staged + [e]))
  {
    hide Image, Numbered;
    var first: u64 := (1 + |k.synced|) % TWO_64;
    NumberedConcat(k.staged, [e], first);
    WrapTwice(1 + |k.synced|, |k.staged|);
    WrapTwice(1 + |k.synced| + |k.staged|, 1);
    ImageConcat(crc, Numbered(k.staged, first), Numbered([e], (first + |k.staged|) % TWO_64));
  }

  lemma SyncHolds(crc: Checksum, k: Known)
    ensures Synced(Holding(crc, k)) == Holding(crc, Known(k.synced + k.staged, []))
  {
    hide Image, Numbered;
    NumberedConcat(k.synced, k.staged, 1);
    ImageConcat(crc, Numbered(k.synced, 1), Numbered(k.staged, (1 + |k.synced|) % TWO_64));
    NothingStaged(crc, (1 + |k.synced + k.staged|) % TWO_64);
  }

  /**
   Torn-tail recovery over every run: reopening never fails, and the medium always holds
   exactly the entries the caller may rely on, contiguously numbered.
   */
  lemma {:induction false} RunsRecover(crc: Checksum, events: seq<Event>)
    requires |events| <= MAX_UINT64
    ensures Run(crc, events) == Success(Holding(crc, KnownAfter(events)))
  {
    hide Opened, Appended, Synced, Holding;
    if events == [] {
      assert Holding(crc, Known([], [])) == BLANK by { EmptyHolds(crc); }
    } else {
      var before, ev := events[..|events| - 1], events[|events| - 1];
      RunsRecover(crc, before);
      var k := KnownAfter(before);
      match ev
      case AppendEvent(e) => AppendHolds(crc, k, e);
      case SyncEvent => SyncHolds(crc, k);
      case CrashEvent(torn) =>
        HoldingLength(crc, k);
        if torn <= RECORD_SIZE * |k.staged| { OpenAfterCrash(crc, k, torn); }
    }
  }

  lemma EmptyHolds(crc: Checksum)
    ensures Holding(crc, Known([], [])) == BLANK
  {
  }

  lemma HoldingLength(crc: Checksum, k: Known)
    ensures |Holding(crc, k).pending| == RECORD_SIZE * |k.staged|
  {
  }

  // ------------------------------------------------------------ any readable image

  /** Slot `i` decodes to the `i`-th entry under its number. */
  ghost predicate Keeping(crc: Checksum, image: seq<byte>, es: seq<Entry>) {
    RECORD_SIZE * |es| <= |image|
    && forall i :: 0 <= i < |es| ==> Decode(crc, Slot(image, i)) == Success(Record((1 + i) % TWO_64, es[i]))
  }

  /** A synced medium whose records are `es`, whoever wrote them and whatever their reserved bytes are. */
  ghost predicate Keeps(crc: Checksum, m: Medium, es: seq<Entry>) {
    && m.pending == [] && |m.durable| == RECORD_SIZE * |es| && m.nextSeq == (1 + |es|) % TWO_64
    && Keeping(crc, m.durable, es)
  }

  lemma KeepingTail(crc: Checksum, image: seq<byte>, es: seq<Entry>, tail: seq<byte>)
    requires Keeping(crc, image, es)
    ensures Keeping(crc, image + tail, es)
  {
    hide Decode;
    forall i | 0 <= i < |es| ensures Slot(image + tail, i) == Slot(image, i) {}
  }

  lemma {:induction false} KeepingRecovers(crc: Checksum, image: seq<byte>, es: seq<Entry>, k: nat)
    requires Keeping(crc, image, es) && k <= |es| <= MAX_UINT64
    ensures RecoveredUpTo(crc, image, k) == Success(Numbered(es, 1)[..k])
  {
    hide Decode, Slot;
    if k > 0 {
      KeepingRecovers(crc, image, es, k - 1);
      assert Numbered(es, 1)[..k - 1] + [Numbered(es, 1)[k - 1]] == Numbered(es, 1)[..k];
    }
  }

  lemma EncodedKeeping(crc: Checksum, image: seq<byte>, es: seq<Entry>, e: Entry)
    requires |image| == RECORD_SIZE * |es| && Keeping(crc, image, es)
    ensures Keeping(crc, image + Encoded(crc, Record((1 + |es|) % TWO_64, e)), es + [e])
  {
    hide Decode, Encoded;
    var r := Record((1 + |es|) % TWO_64, e);
    DecodeEncoded(crc, r);
    var longer := image + Encoded(crc, r);
    assert Slot(longer, |es|) == Encoded(crc, r);
    forall i | 0 <= i < |es| ensures Slot(longer, i) == Slot(image, i) {}
  }

  /** Appending and syncing one entry adds exactly that entry. */
  lemma KeepsNext(crc: Checksum, m: Medium, es: seq<Entry>, e: Entry)
    requires Keeps(crc, m, es)
    ensures Keeps(crc, Synced(Appended(crc, m, [e])), es + [e])
  {
    hide Keeping, Encoded, Appended;
    AppendedOne(crc, m, e);
    EncodedKeeping(crc, m.durable, es, e);
    WrapTwice(1 + |es|, 1);
    var r := Record(m.nextSeq, e);
    assert [] + Encoded(crc, r) == Encoded(crc, r);
    assert Synced(Appended(crc, m, [e])).nextSeq == (m.nextSeq + 1) % TWO_64;
  }

  /** What opening makes of kept records and an incomplete tail. */
  lemma KeepsOpens(crc: Checksum, m: Medium, es: seq<Entry>, tail: seq<byte>)
    requires Keeps(crc, m, es) && |es| <= MAX_UINT64 && |tail| < RECORD_SIZE
    ensures Recovered(crc, m.durable + tail) == Success(Numbered(es, 1))
    ensures Opened(crc, m.durable + tail) == Success(m)
  {
    hide Keeping, RecoveredUpTo;
    var image := m.durable + tail;
    KeepingTail(crc, m.durable, es, tail);
    KeepingRecovers(crc, image, es, |es|);
    assert Numbered(es, 1)[..|es|] == Numbered(es, 1);
    assert image[..RECORD_SIZE * |es|] == m.durable;
  }

  /** One append torn at any byte: opening gives the medium before it, or all of it. */
  lemma TornAppend(crc: Checksum, m: Medium, es: seq<Entry>, e: Entry, torn: nat)
    requires Keeps(crc, m, es) && |es| < MAX_UINT64 && torn <= RECORD_SIZE
    ensures var p := Appended(crc, m, [e]).pending;
            |p| == RECORD_SIZE
            && var image := m.durable + p[..torn];
               if torn < RECORD_SIZE then
                 Recovered(crc, image) == Success(Numbered(es, 1)) && Opened(crc, image) == Success(m)
               else
                 Recovered(crc, image) == Success(Numbered(es + [e], 1))
                 && Opened(crc, image) == Success(Synced(Appended(crc, m, [e])))
  {
    hide Keeps, Encoded, Recovered, Opened, Numbered;
    AppendedOne(crc, m, e);
    assert m.pending == [] by { KeepsPending(crc, m, es); }
    var p := Appended(crc, m, [e]).pending;
    if torn < RECORD_SIZE {
      KeepsOpens(crc, m, es, p[..torn]);
    } else {
      var m1 := Synced(Appended(crc, m, [e]));
      KeepsNext(crc, m, es, e);
      KeepsOpens(crc, m1, es + [e], []);
      assert p[..torn] == p && m1.durable + [] == m.durable + p;
    }
  }

  lemma KeepsPending(crc: Checksum, m: Medium, es: seq<Entry>)
    requires Keeps(crc, m, es)
    ensures m.pending == []
  {}

  /** Whatever can be opened at all is kept. */
  lemma OpenedKeeps(crc: Checksum, image: seq<byte>)
    requires Recovered(crc, image).Success?
    ensures var rs := Recovered(crc, image).value;
            Opened(crc, image).Success? && Keeps(crc, Opened(crc, image).value, EntriesOf(rs)) && |rs| <= MAX_UINT64
  {
    hide Decode, RecoveredUpTo;
    var k := |image| / RECORD_SIZE;
    RecoveredMeans(crc, image, k);
    var rs := Recovered(crc, image).value;
    var m := Opened(crc, image).value;
    forall i | 0 <= i < |rs|
      ensures Slot(m.durable, i) == Slot(image, i) && rs[i] == Record((1 + i) % TWO_64, rs[i].entry) && i < MAX_UINT64
    {
      assert GoodSlot(crc, image, i);
    }
    assert k > 0 ==> rs[k - 1].sequence == k;
  }

  function EntriesOf(rs: seq<Record>): (es: seq<Entry>)
    ensures |es| == |rs|
  {
    seq(|rs|, i requires 0 <= i < |rs| => rs[i].entry)
  }

  lemma EntriesOfNumbered(es: seq<Entry>)
    ensures EntriesOf(Numbered(es, 1)) == es
  {
  }

  // ------------------------------------------------------------ the device and the log

  class MemoryDevice {
    var durable: seq<byte>
    var pending: seq<byte>

    constructor (image: seq<byte>)
      ensures durable == image && pending == []
    {
      durable, pending := image, [];
    }

    method Append(p: seq<byte>)
      modifies this
      ensures durable == old(durable) && pending == old(pending) + p
    {
      pending := pending + p;
    }

    method Sync()
      modifies this
      ensures durable == old(durable) + old(pending) && pending == []
    {
      durable := durable + pending;
      pending := [];
    }

    method TruncateDurable(size: int) returns (r: Try<()>)
      modifies this
      ensures r == if 0 <= size <= |old(durable)| then Success(()) else Failure(ErrInvalidTear)
      ensures r.Success? ==> durable == old(durable)[..size]
      ensures r.Failure? ==> durable == old(durable)
      ensures pending == old(pending)
    {
      if size < 0 || size > |durable| { return Failure(ErrInvalidTear); }
      durable := durable[..size];
      return Success(());
    }

    /** The rebooted medium: durable bytes and the first `torn` volatile ones. */
    method Crash(torn: int) returns (r: Try<MemoryDevice>)
      ensures r.Success? <==> 0 <= torn <= |pending|
      ensures r.Failure? ==> r.error == ErrInvalidTear
      ensures r.Success? ==> fresh(r.value) && r.value.pending == [] && r.value.durable == durable + pending[..torn]
    {
      if torn < 0 || torn > |pending| { return Failure(ErrInvalidTear); }
      var d := new MemoryDevice(durable + pending[..torn]);
      return Success(d);
    }
  }

  class Log {
    const crc: Checksum
    const device: MemoryDevice
    const scratch: array<byte>
    var nextSeq: u64

    ghost predicate Valid()
      reads this
    {
      scratch.Length == RECORD_SIZE
    }

    ghost function State(): Medium
      reads this, device
    {
      Medium(device.durable, device.pending, nextSeq)
    }

    constructor (crc: Checksum, device: MemoryDevice, next: u64)
      ensures Valid() && fresh(scratch) && this.crc == crc && this.device == device && nextSeq == next
    {
      this.crc, this.device, nextSeq := crc, device, next;
      scratch := new byte[RECORD_SIZE];
    }

    /** Stages entries until the context is cancelled, which happens before entry `allowed`. */
    method Append(entries: seq<Entry>, allowed: nat) returns (ok: bool)
      requires Valid()
      modifies this, device, scratch
      ensures Valid() && ok == (|entries| <= allowed)
      ensures State() == Appended(crc, old(State()), if ok then entries else entries[..allowed])
    {
      hide Encoded, Appended;
      ghost var start := State();
      var i := 0;
      AppendedNone(crc, start);
      assert entries[..0] == [];
      while i < |entries|
        invariant 0 <= i <= |entries| && i <= allowed
        invariant State() == Appended(crc, start, entries[..i])
      {
        if i == allowed { return false; }
        AppendedOne(crc, State(), entries[i]);
        Encode(crc, scratch, Record(nextSeq, entries[i]));
        device.Append(scratch[..]);
        nextSeq := if nextSeq == MAX_UINT64 then 0 else nextSeq + 1;
        AppendedTwice(crc, start, entries[..i], [entries[i]]);
        assert entries[..i + 1] == entries[..i] + [entries[i]];
        i := i + 1;
      }
      assert entries[..|entries|] == entries;
      ok := true;
    }

    method Sync(cancelled: bool) returns (ok: bool)
      modifies device
      ensures ok == !cancelled
      ensures State() == if ok then Synced(old(State())) else old(State())
    {
      if cancelled { return false; }
      device.Sync();
      ok := true;
    }
  }

  lemma AppendedNone(crc: Checksum, m: Medium)
    ensures Appended(crc, m, []) == m
  {
    assert Numbered([], m.nextSeq) == [];
  }

  lemma OneNumbered(e: Entry, next: u64)
    ensures Numbered([e], next) == [Record(next, e)]
  {
  }

  lemma OneRecord(crc: Checksum, r: Record)
    ensures Image(crc, [r]) == Encoded(crc, r)
  {
    hide Encoded;
    assert Image(crc, []) == [];
    assert [r][..0] == [];
  }

  /** Appending in two batches is appending at once. */
  lemma AppendedTwice(crc: Checksum, m: Medium, a: seq<Entry>, b: seq<Entry>)
    ensures Appended(crc, Appended(crc, m, a), b) == Appended(crc, m, a + b)
  {
    hide Image, Numbered;
    NumberedConcat(a, b, m.nextSeq);
    ImageConcat(crc, Numbered(a, m.nextSeq), Numbered(b, (m.nextSeq + |a|) % TWO_64));
    WrapTwice(m.nextSeq + |a|, |b|);
  }

  lemma AppendedOne(crc: Checksum, m: Medium, e: Entry)
    ensures Appended(crc, m, [e])
         == Medium(m.durable, m.pending + Encoded(crc, Record(m.nextSeq, e)),
                   if m.nextSeq == MAX_UINT64 then 0 else m.nextSeq + 1)
  {
    hide Image, Numbered, Encoded;
    OneNumbered(e, m.nextSeq);
    OneRecord(crc, Record(m.nextSeq, e));
  }

  /** wal.Open: a torn tail is cut off before anything new may be appended. */
  method Open(crc: Checksum, device: MemoryDevice) returns (r: Try<(Log, seq<Record>)>)
    modifies device
    ensures device.pending == old(device.pending)
    ensures match Recovered(crc, old(device.durable))
            case Failure(e) => r == Failure(e) && device.durable == old(device.durable)
            case Success(rs) =>
              r.Success? && r.value.1 == rs && fresh(r.value.0) && fresh(r.value.0.scratch) && r.value.0.Valid()
              && r.value.0.crc == crc && r.value.0.device == device
              && Success(r.value.0.State().(pending := [])) == Opened(crc, old(device.durable))
  {
    hide Decode, RecoveredUpTo;
    var records, valid := Recover(crc, device.durable);
    if records.Failure? { return Failure(records.error); }
    if valid != |device.durable| {
      var cut := device.TruncateDurable(valid);
    }
    assert device.durable == old(device.durable)[..valid];
    var next: u64 := 1;
    var rs := records.value;
    if |rs| > 0 { next := if rs[|rs| - 1].sequence == MAX_UINT64 then 0 else rs[|rs| - 1].sequence + 1; }
    var log := new Log(crc, device, next);
    return Success((log, rs));
  }
}
