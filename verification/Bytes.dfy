/** Bytes and the little-endian integer encodings the durable formats use. */
module Bytes {

  type byte = b: nat | b < 256

  /** The `width` low bytes of `v`, least significant first. */
  function LittleEndian(v: nat, width: nat): (s: seq<byte>)
    ensures |s| == width
  {
    if width == 0 then [] else [v % 256] + LittleEndian(v / 256, width - 1)
  }

  function FromLittleEndian(s: seq<byte>): nat {
    if s == [] then 0 else s[0] + 256 * FromLittleEndian(s[1..])
  }

  function Pow256(k: nat): (p: nat)
    ensures p > 0
  {
    if k == 0 then 1 else 256 * Pow256(k - 1)
  }

  const MAX_UINT64: nat := 0xFFFF_FFFF_FFFF_FFFF

  predicate FitsIn(v: nat, width: nat) {
    v < Pow256(width)
  }

  lemma {:induction false} LittleEndianRoundTrip(v: nat, width: nat)
    requires FitsIn(v, width)
    ensures FromLittleEndian(LittleEndian(v, width)) == v
    decreases width
  {
    if width > 0 {
      LittleEndianRoundTrip(v / 256, width - 1);
      var s := LittleEndian(v, width);
      assert s[1..] == LittleEndian(v / 256, width - 1);
    }
  }

  /** Decoding loses nothing: the bytes are those of the decoded value. */
  lemma {:induction false} FromLittleEndianRoundTrip(s: seq<byte>)
    ensures FitsIn(FromLittleEndian(s), |s|)
    ensures LittleEndian(FromLittleEndian(s), |s|) == s
  {
    if s != [] {
      FromLittleEndianRoundTrip(s[1..]);
      assert s == [s[0]] + s[1..];
    }
  }

  lemma Widths()
    ensures Pow256(2) == 0x1_0000 && Pow256(4) == 0x1_0000_0000 && Pow256(8) == MAX_UINT64 + 1
  {
    assert Pow256(1) == 256 && Pow256(2) == 0x1_0000 && Pow256(3) == 0x100_0000;
    assert Pow256(4) == 0x1_0000_0000 && Pow256(5) == 0x100_0000_0000;
    assert Pow256(6) == 0x1_0000_0000_0000 && Pow256(7) == 0x100_0000_0000_0000;
  }
}
