/** Words as bytes in memory, on a little-endian machine. */
module Words {

  function Bytes16(v: bv16): (b: seq<bv8>)
    ensures |b| == 2
  {
    [(v & 0xFF) as bv8, (v >> 8) as bv8]
  }

  function Bytes32(v: bv32): (b: seq<bv8>)
    ensures |b| == 4
  {
    [(v & 0xFF) as bv8, ((v >> 8) & 0xFF) as bv8, ((v >> 16) & 0xFF) as bv8, (v >> 24) as bv8]
  }

  function Bytes64(v: bv64): (b: seq<bv8>)
    ensures |b| == 8
  {
    [(v & 0xFF) as bv8, ((v >> 8) & 0xFF) as bv8, ((v >> 16) & 0xFF) as bv8, ((v >> 24) & 0xFF) as bv8,
     ((v >> 32) & 0xFF) as bv8, ((v >> 40) & 0xFF) as bv8, ((v >> 48) & 0xFF) as bv8, (v >> 56) as bv8]
  }

  function Low(v: bv64): bv32 { (v & 0xFFFF_FFFF) as bv32 }
  function High(v: bv64): bv32 { (v >> 32) as bv32 }

  lemma LowBytes(v: bv64)
    ensures Bytes64(v)[0] == Bytes32(Low(v))[0] && Bytes64(v)[1] == Bytes32(Low(v))[1]
    ensures Bytes64(v)[2] == Bytes32(Low(v))[2] && Bytes64(v)[3] == Bytes32(Low(v))[3]
  {
  }

  lemma HighBytes(v: bv64)
    ensures Bytes64(v)[4] == Bytes32(High(v))[0] && Bytes64(v)[5] == Bytes32(High(v))[1]
    ensures Bytes64(v)[6] == Bytes32(High(v))[2] && Bytes64(v)[7] == Bytes32(High(v))[3]
  {
  }

  /** A word is its low half followed by its high half. */
  lemma Halves(v: bv64)
    ensures Bytes64(v) == Bytes32(Low(v)) + Bytes32(High(v))
  {
    hide Low, High, Bytes32, Bytes64;
    LowBytes(v);
    HighBytes(v);
  }

  // The lowest byte comes first, and none is lost: a word is put together again from its bytes.

  lemma Rejoined16(v: bv16)
    ensures v == Bytes16(v)[0] as bv16 | (Bytes16(v)[1] as bv16 << 8)
  {
  }

  lemma Rejoined32(v: bv32)
    ensures var b := Bytes32(v);
            v == b[0] as bv32 | (b[1] as bv32 << 8) | (b[2] as bv32 << 16) | (b[3] as bv32 << 24)
  {
  }

  lemma Joined64(v: bv64)
    ensures v == Low(v) as bv64 | (High(v) as bv64 << 32)
  {
  }
}

/** Conversion between host and network byte order. */
module ByteOrder {
  import opened Words

  function HtoN16(v: bv16): bv16 {
    (v >> 8) + (v << 8)
  }

  function HtoN32(v: bv32): bv32 {
    var even := v & 0x00FF00FF;
    var odd := v & 0xFF00FF00;
    ((even >> 8) | (even << 24)) + ((odd << 8) | (odd >> 24))
  }

  function HtoN64(v: bv64): bv64 {
    ((HtoN32(Low(v)) as bv64) << 32) + (HtoN32(High(v)) as bv64)
  }

  function NtoH16(v: bv16): bv16 { HtoN16(v) }
  function NtoH32(v: bv32): bv32 { HtoN32(v) }
  function NtoH64(v: bv64): bv64 { HtoN64(v) }

  function Reversed(b: seq<bv8>): (r: seq<bv8>)
    ensures |r| == |b|
    ensures forall i :: 0 <= i < |b| ==> r[i] == b[|b| - 1 - i]
  {
    seq(|b|, i requires 0 <= i < |b| => b[|b| - 1 - i])
  }

  lemma HtoN16Reverses(v: bv16)
    ensures Bytes16(HtoN16(v)) == Reversed(Bytes16(v))
  {
  }

  lemma HtoN32Outer(v: bv32)
    ensures Bytes32(HtoN32(v))[0] == Bytes32(v)[3] && Bytes32(HtoN32(v))[3] == Bytes32(v)[0]
  {
  }

  lemma HtoN32Inner(v: bv32)
    ensures Bytes32(HtoN32(v))[1] == Bytes32(v)[2] && Bytes32(HtoN32(v))[2] == Bytes32(v)[1]
  {
  }

  lemma HtoN32Reverses(v: bv32)
    ensures Bytes32(HtoN32(v)) == Reversed(Bytes32(v))
  {
    hide Bytes32, HtoN32;
    HtoN32Outer(v);
    HtoN32Inner(v);
  }

  lemma HtoN64Swaps(v: bv64)
    ensures Low(HtoN64(v)) == HtoN32(High(v)) && High(HtoN64(v)) == HtoN32(Low(v))
  {
    hide HtoN32;
  }

  lemma HtoN64Reverses(v: bv64)
    ensures Bytes64(HtoN64(v)) == Reversed(Bytes64(v))
  {
    hide Bytes64, Bytes32, HtoN32, HtoN64;
    Halves(v);
    Halves(HtoN64(v));
    HtoN64Swaps(v);
    HtoN32Reverses(Low(v));
    HtoN32Reverses(High(v));
    assert Reversed(Bytes32(Low(v)) + Bytes32(High(v)))
        == Reversed(Bytes32(High(v))) + Reversed(Bytes32(Low(v)));
  }

  lemma RoundTrip16(v: bv16)
    ensures NtoH16(HtoN16(v)) == v && HtoN16(NtoH16(v)) == v
  {
  }

  lemma RoundTrip32(v: bv32)
    ensures NtoH32(HtoN32(v)) == v && HtoN32(NtoH32(v)) == v
  {
  }

  lemma RoundTrip64(v: bv64)
    ensures NtoH64(HtoN64(v)) == v && HtoN64(NtoH64(v)) == v
  {
  }
}
