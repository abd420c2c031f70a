/**
 The 112-byte write-ahead-log record of storage/wal/format.go. The CRC32C checksum is an
 uninterpreted function of the bytes it covers.
 */
module WalFormat {
  import opened Bytes

  type u64 = x: nat | x <= MAX_UINT64
  type u32 = x: nat | x < 0x1_0000_0000
  type u8 = x: nat | x < 256

  type Checksum = seq<byte> -> u32

  const RECORD_SIZE: nat := 112
  const VERSION: nat := 3
  /** "HYPWAL03" */
  const MAGIC: seq<byte> := [0x48, 0x59, 0x50, 0x57, 0x41, 0x4C, 0x30, 0x33]

  datatype Error = ErrFormat | ErrChecksum | ErrSequence | ErrInvalidTear

  datatype Try<+T> = Success(value: T) | Failure(error: Error)

  datatype Entry = Entry(index: u64, term: u64, command: u64, kind: u8, oldVoters: u64, newVoters: u64,
                         operation: u8, clientId: u64, requestId: u64, key: u64, value: u64)

  datatype Record = Record(sequence: u64, entry: Entry)

  /** Byte `i` of the checksummed part of a record: each field at its offset, zeros between. */
  function BodyByte(r: Record, i: nat): byte
    requires i < 108
  {
    var e := r.entry;
    if i < 8 then MAGIC[i]
    else if i < 10 then LittleEndian(VERSION, 2)[i - 8]
    else if i < 12 then 0
    else if i < 20 then LittleEndian(r.sequence, 8)[i - 12]
    else if i < 28 then LittleEndian(e.index, 8)[i - 20]
    else if i < 36 then LittleEndian(e.term, 8)[i - 28]
    else if i < 44 then LittleEndian(e.command, 8)[i - 36]
    else if i < 46 then LittleEndian(e.kind, 2)[i - 44]
    else if i < 52 then 0
    else if i < 60 then LittleEndian(e.oldVoters, 8)[i - 52]
    else if i < 68 then LittleEndian(e.newVoters, 8)[i - 60]
    else if i < 70 then LittleEndian(e.operation, 2)[i - 68]
    else if i < 72 then 0
    else if i < 80 then LittleEndian(e.clientId, 8)[i - 72]
    else if i < 88 then LittleEndian(e.requestId, 8)[i - 80]
    else if i < 96 then LittleEndian(e.key, 8)[i - 88]
    else if i < 104 then LittleEndian(e.value, 8)[i - 96]
    else 0
  }

  function Body(r: Record): (s: seq<byte>)
    ensures |s| == 108
  {
    seq(108, i requires 0 <= i < 108 => BodyByte(r, i))
  }

  /** The bytes a record occupies. */
  function Encoded(crc: Checksum, r: Record): (s: seq<byte>)
    ensures |s| == RECORD_SIZE
  {
    Body(r) + LittleEndian(crc(Body(r)), 4)
  }

  predicate Written(s: seq<byte>, r: Record, n: nat) {
    n <= |s| && n <= 108 && forall i :: 0 <= i < n ==> s[i] == BodyByte(r, i)
  }

  /** PutUint and clear: `width` bytes at `at`, nothing else. */
  method Put(dst: array<byte>, at: nat, width: nat, v: nat)
    requires at + width <= dst.Length
    modifies dst
    ensures forall k :: at <= k < at + width ==> dst[k] == LittleEndian(v, width)[k - at]
    ensures dst[at..at + width] == LittleEndian(v, width)
    ensures forall k :: 0 <= k < at || at + width <= k < dst.Length ==> dst[k] == old(dst[k])
  {
    ghost var all := LittleEndian(v, width);
    var rest := v;
    for k := 0 to width
      invariant LittleEndian(rest, width - k) == all[k..]
      invariant forall i :: at <= i < at + k ==> dst[i] == all[i - at]
      invariant forall i :: 0 <= i < at || at + width <= i < dst.Length ==> dst[i] == old(dst[i])
    {
      dst[at + k] := rest % 256;
      assert all[k] == all[k..][0] == rest % 256;
      assert all[k + 1..] == all[k..][1..] == LittleEndian(rest / 256, width - k - 1);
      rest := rest / 256;
    }
    forall k | 0 <= k < width ensures dst[at..at + width][k] == all[k] {
      assert dst[at + k] == all[at + k - at];
    }
  }

  lemma {:induction false} ZeroBytes(width: nat)
    ensures forall k :: 0 <= k < width ==> LittleEndian(0, width)[k] == 0
  {
    if width > 0 { ZeroBytes(width - 1); }
  }

  /** Encode, field by field into the caller's buffer. */
  method Encode(crc: Checksum, dst: array<byte>, r: Record)
    requires dst.Length == RECORD_SIZE
    modifies dst
    ensures dst[..] == Encoded(crc, r)
  {
    EncodeHead(dst, r);
    EncodeTail(dst, r);
    assert dst[..108] == Body(r);
    var sum := crc(dst[..108]);
    Put(dst, 108, 4, sum);
    assert dst[..108] == Body(r);
    assert dst[108..] == LittleEndian(sum, 4);
    assert dst[..] == dst[..108] + dst[108..];
  }

  method EncodeHead(dst: array<byte>, r: Record)
    requires dst.Length == RECORD_SIZE
    modifies dst
    ensures Written(dst[..], r, 52)
  {
    for i := 0 to 8
      invariant Written(dst[..], r, i)
    {
      dst[i] := MAGIC[i];
    }
    ZeroBytes(2);
    ZeroBytes(6);
    Put(dst, 8, 2, VERSION);
    Put(dst, 10, 2, 0);
    assert Written(dst[..], r, 12);
    Put(dst, 12, 8, r.sequence);
    assert Written(dst[..], r, 20);
    Put(dst, 20, 8, r.entry.index);
    assert Written(dst[..], r, 28);
    Put(dst, 28, 8, r.entry.term);
    assert Written(dst[..], r, 36);
    Put(dst, 36, 8, r.entry.command);
    assert Written(dst[..], r, 44);
    Put(dst, 44, 2, r.entry.kind);
    assert Written(dst[..], r, 46);
    Put(dst, 46, 6, 0);
  }

  method EncodeTail(dst: array<byte>, r: Record)
    requires dst.Length == RECORD_SIZE && Written(dst[..], r, 52)
    modifies dst
    ensures Written(dst[..], r, 108)
  {
    ZeroBytes(2);
    ZeroBytes(4);
    Put(dst, 52, 8, r.entry.oldVoters);
    assert Written(dst[..], r, 60);
    Put(dst, 60, 8, r.entry.newVoters);
    assert Written(dst[..], r, 68);
    Put(dst, 68, 2, r.entry.operation);
    assert Written(dst[..], r, 70);
    Put(dst, 70, 2, 0);
    assert Written(dst[..], r, 72);
    Put(dst, 72, 8, r.entry.clientId);
    assert Written(dst[..], r, 80);
    Put(dst, 80, 8, r.entry.requestId);
    assert Written(dst[..], r, 88);
    Put(dst, 88, 8, r.entry.key);
    assert Written(dst[..], r, 96);
    Put(dst, 96, 8, r.entry.value);
    assert Written(dst[..], r, 104);
    Put(dst, 104, 4, 0);
  }

  /** binary.LittleEndian.Uint64 on a slice. */
  function U64(s: seq<byte>): u64
    requires |s| == 8
  {
    FromLittleEndianRoundTrip(s);
    Widths();
    FromLittleEndian(s)
  }

  /** uint8(binary.LittleEndian.Uint16(s)): the high byte is dropped. */
  function U8(s: seq<byte>): u8
    requires |s| == 2
  {
    FromLittleEndian(s) % 256
  }

  function Decode(crc: Checksum, src: seq<byte>): Try<Record> {
    if |src| != RECORD_SIZE || src[..8] != MAGIC || FromLittleEndian(src[8..10]) != VERSION then Failure(ErrFormat)
    else if crc(src[..108]) != FromLittleEndian(src[108..112]) then Failure(ErrChecksum)
    else Success(Record(U64(src[12..20]),
        Entry(U64(src[20..28]), U64(src[28..36]), U64(src[36..44]), U8(src[44..46]), U64(src[52..60]),
              U64(src[60..68]), U8(src[68..70]), U64(src[72..80]), U64(src[80..88]), U64(src[88..96]),
              U64(src[96..104]))))
  }

  lemma ReadsBack64(s: seq<byte>, v: u64)
    requires s == LittleEndian(v, 8)
    ensures U64(s) == v
  {
    Widths();
    LittleEndianRoundTrip(v, 8);
  }

  lemma ReadsBack8(s: seq<byte>, v: u8)
    requires s == LittleEndian(v, 2)
    ensures U8(s) == v
  {
    Widths();
    LittleEndianRoundTrip(v, 2);
  }

  lemma HeadReadsBack(r: Record)
    ensures var s := Body(r);
            s[..8] == MAGIC && FromLittleEndian(s[8..10]) == VERSION && U64(s[12..20]) == r.sequence
            && U64(s[20..28]) == r.entry.index && U64(s[28..36]) == r.entry.term
            && U64(s[36..44]) == r.entry.command && U8(s[44..46]) == r.entry.kind
  {
    hide U64, U8;
    var s := Body(r);
    Widths();
    LittleEndianRoundTrip(VERSION, 2);
    assert s[8..10] == LittleEndian(VERSION, 2);
    ReadsBack64(s[12..20], r.sequence);
    ReadsBack64(s[20..28], r.entry.index);
    ReadsBack64(s[28..36], r.entry.term);
    ReadsBack64(s[36..44], r.entry.command);
    ReadsBack8(s[44..46], r.entry.kind);
  }

  lemma TailReadsBack(r: Record)
    ensures var s := Body(r);
            U64(s[52..60]) == r.entry.oldVoters && U64(s[60..68]) == r.entry.newVoters
            && U8(s[68..70]) == r.entry.operation && U64(s[72..80]) == r.entry.clientId
            && U64(s[80..88]) == r.entry.requestId && U64(s[88..96]) == r.entry.key && U64(s[96..104]) == r.entry.value
  {
    hide U64, U8;
    var s := Body(r);
    ReadsBack64(s[52..60], r.entry.oldVoters);
    ReadsBack64(s[60..68], r.entry.newVoters);
    ReadsBack8(s[68..70], r.entry.operation);
    ReadsBack64(s[72..80], r.entry.clientId);
    ReadsBack64(s[80..88], r.entry.requestId);
    ReadsBack64(s[88..96], r.entry.key);
    ReadsBack64(s[96..104], r.entry.value);
  }

  /** Decoding an encoded record gives the record back, for every record and every checksum. */
  lemma DecodeEncoded(crc: Checksum, r: Record)
    ensures Decode(crc, Encoded(crc, r)) == Success(r)
  {
    hide U64, U8, Body;
    HeadReadsBack(r);
    TailReadsBack(r);
    var b, s := Body(r), Encoded(crc, r);
    assert s[..108] == b;
    forall i, j | 0 <= i <= j <= 108 ensures s[i..j] == b[i..j] { assert s[i..j] == s[..108][i..j]; }
    assert s[..8] == b[..8];
    Widths();
    LittleEndianRoundTrip(crc(b), 4);
    assert s[108..112] == LittleEndian(crc(b), 4);
  }

  lemma WritesBack64(s: seq<byte>)
    requires |s| == 8
    ensures LittleEndian(U64(s), 8) == s
  {
    FromLittleEndianRoundTrip(s);
  }

  lemma WritesBack8(s: seq<byte>)
    requires |s| == 2
    ensures LittleEndian(U8(s), 2)[0] == s[0]
  {
    assert FromLittleEndian(s) == s[0] + 256 * FromLittleEndian(s[1..]);
    assert FromLittleEndian(s) % 256 == s[0];
  }

  /** A position Decode reads: not reserved, and not the high byte of a one-byte field. */
  predicate Meaningful(i: nat) {
    i < 10 || 12 <= i < 45 || 52 <= i < 69 || 72 <= i < 104
  }

  /**
   Whatever Decode accepts agrees with the encoding of the record it returns at every
   meaningful byte, and carries the checksum of its own bytes: the converse of the round trip.
   */
  lemma DecodedBytes(crc: Checksum, s: seq<byte>, i: nat)
    requires Decode(crc, s).Success? && Meaningful(i)
    ensures |s| == RECORD_SIZE && s[i] == BodyByte(Decode(crc, s).value, i)
    ensures crc(s[..108]) == FromLittleEndian(s[108..112])
  {
    hide U64, U8, LittleEndian;
    if i < 8 {
      assert s[i] == s[..8][i];
    } else if i < 10 {
      FromLittleEndianRoundTrip(s[8..10]);
      assert s[8..10][i - 8] == s[i];
    } else if i == 44 {
      WritesBack8(s[44..46]);
    } else if i == 68 {
      WritesBack8(s[68..70]);
    } else {
      var at := FieldStart(i);
      WritesBack64(s[at..at + 8]);
      assert s[at..at + 8][i - at] == s[i];
    }
  }

  /** Where the eight-byte field around `i` starts. */
  function FieldStart(i: nat): nat {
    if i < 20 then 12 else if i < 28 then 20 else if i < 36 then 28 else if i < 44 then 36
    else if i < 60 then 52 else if i < 68 then 60 else if i < 80 then 72 else if i < 88 then 80
    else if i < 96 then 88 else 96
  }
}
