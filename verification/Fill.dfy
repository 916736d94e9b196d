/** Word-wise filling and comparing of memory. */
module Fill {
  import opened Words
  import opened Memory

  // ---- filling --------------------------------------------------------------------------------

  /** `len` bytes from `dst` repeat the pattern, starting with its first byte; nothing else changes. */
  ghost predicate Filled(m: Mem, r: Mem, dst: nat, pattern: seq<bv8>, len: nat)
    requires |pattern| == 8 && dst + len <= |m|
  {
    && |r| == |m|
    && (forall x :: dst <= x < dst + len ==> r[x] == pattern[(x - dst) % 8])
    && (forall x :: 0 <= x < |m| && !(dst <= x < dst + len) ==> r[x] == m[x])
  }

  lemma FillMore(m: Mem, a: Mem, dst: nat, pattern: seq<bv8>, n: nat, o: nat, w: nat, c: nat)
    requires |pattern| == 8 && o <= c <= o + w <= 8 && dst + 8 * n + o + w <= |m|
    requires Filled(m, a, dst, pattern, 8 * n + c)
    ensures Filled(m, Store(a, dst + 8 * n + o, pattern[o..o + w]), dst, pattern, 8 * n + o + w)
  {
    var b := Store(a, dst + 8 * n + o, pattern[o..o + w]);
    forall x | dst <= x < dst + (8 * n + o + w) ensures b[x] == pattern[(x - dst) % 8] {
      if dst + 8 * n + o <= x {
        var j := x - dst - 8 * n;
        assert (8 * n + j) % 8 == j;
      }
    }
  }

  method StoreAt(mem: array<bv8>, at: nat, bytes: seq<bv8>)
    requires at + |bytes| <= mem.Length
    modifies mem
    ensures mem[..] == Store(old(mem[..]), at, bytes)
  {
    forall i | 0 <= i < |bytes| {
      mem[at + i] := bytes[i];
    }
    ghost var e := Store(old(mem[..]), at, bytes);
    forall x | 0 <= x < mem.Length ensures mem[x] == e[x] {
      if at <= x < at + |bytes| {
        assert mem[at + (x - at)] == bytes[x - at];
      }
    }
  }

  /** Stores `w` bytes of the pattern, from its byte `o`, after `8 * n` bytes. */
  method FillWordAt(ghost was: Mem, mem: array<bv8>, dst: nat, pattern: seq<bv8>,
                    limit: nat, ghost n: nat, o: nat, w: nat, ghost c: nat)
    requires |pattern| == 8 && limit == 8 * n && o <= c <= o + w <= 8
    requires dst + 8 * n + o + w <= mem.Length == |was|
    requires Filled(was, mem[..], dst, pattern, 8 * n + c)
    modifies mem
    ensures Filled(was, mem[..], dst, pattern, 8 * n + o + w)
  {
    hide Filled;
    FillMore(was, mem[..], dst, pattern, n, o, w, c);
    StoreAt(mem, dst + limit + o, pattern[o..o + w]);
  }

  method FillTailAt(ghost was: Mem, mem: array<bv8>, dst: nat, pattern: seq<bv8>,
                    limit: nat, ghost n: nat, r: nat)
    requires |pattern| == 8 && limit == 8 * n && r < 8
    requires dst + 8 * n + r <= mem.Length == |was|
    requires Filled(was, mem[..], dst, pattern, 8 * n)
    modifies mem
    ensures Filled(was, mem[..], dst, pattern, 8 * n + r)
  {
    hide Filled;
    match r {
      case 0 =>
      case 1 => FillWordAt(was, mem, dst, pattern, limit, n, 0, 1, 0);
      case 2 => FillWordAt(was, mem, dst, pattern, limit, n, 0, 2, 0);
      case 3 =>
        FillWordAt(was, mem, dst, pattern, limit, n, 0, 2, 0);
        FillWordAt(was, mem, dst, pattern, limit, n, 1, 2, 2);
      case 4 => FillWordAt(was, mem, dst, pattern, limit, n, 0, 4, 0);
      case 5 =>
        FillWordAt(was, mem, dst, pattern, limit, n, 0, 4, 0);
        FillWordAt(was, mem, dst, pattern, limit, n, 1, 4, 4);
      case 6 =>
        FillWordAt(was, mem, dst, pattern, limit, n, 0, 4, 0);
        FillWordAt(was, mem, dst, pattern, limit, n, 2, 4, 4);
      case _ =>
        FillWordAt(was, mem, dst, pattern, limit, n, 0, 4, 0);
        FillWordAt(was, mem, dst, pattern, limit, n, 3, 4, 4);
    }
  }

  method MemSet(mem: array<bv8>, dst: nat, value: bv64, len: nat)
    requires dst + len <= mem.Length
    modifies mem
    ensures Filled(old(mem[..]), mem[..], dst, Bytes64(value), len)
  {
    hide Bytes64;
    var pattern := Bytes64(value);
    ghost var was := mem[..];
    ghost var n := 0;
    var limit := len - len % 8;
    var cursor := 0;
    assert Filled(was, mem[..], dst, pattern, 0);
    hide Filled;
    while cursor < limit
      invariant cursor == 8 * n && n <= len / 8
      invariant Filled(was, mem[..], dst, pattern, cursor)
    {
      FillWordAt(was, mem, dst, pattern, cursor, n, 0, 8, 0);
      cursor := cursor + 8;
      n := n + 1;
    }
    FillTailAt(was, mem, dst, pattern, limit, n, len % 8);
  }

  // ---- the narrower overloads -----------------------------------------------------------------

  function SpreadByte(v: bv8): bv64 {
    var u := v as bv64;
    u | (u << 8) | (u << 16) | (u << 24) | (u << 32) | (u << 40) | (u << 48) | (u << 56)
  }

  /** The conversion of a signed value to 64 bits copies its sign upwards. */
  function Extend16(v: bv16): bv64 {
    if v >= 0x8000 then v as bv64 | 0xFFFF_FFFF_FFFF_0000 else v as bv64
  }

  function Extend32(v: bv32): bv64 {
    if v >= 0x8000_0000 then v as bv64 | 0xFFFF_FFFF_0000_0000 else v as bv64
  }

  function SpreadShort(v: bv16): bv64 {
    var u := Extend16(v);
    u | (u << 16) | (u << 32) | (u << 48)
  }

  function SpreadInt(v: bv32): bv64 {
    var u := Extend32(v);
    u | (u << 32)
  }

  /** What the eight bytes should be read as: the value over and over, except that a negative value is
      followed by sign bytes only. */
  function ShortPattern(v: bv16): (p: seq<bv8>)
    ensures |p| == 8
  {
    if v < 0x8000 then Bytes16(v) + Bytes16(v) + Bytes16(v) + Bytes16(v)
    else Bytes16(v) + [0xFF, 0xFF, 0xFF, 0xFF, 0xFF, 0xFF]
  }

  function IntPattern(v: bv32): (p: seq<bv8>)
    ensures |p| == 8
  {
    Bytes32(v) + (if v < 0x8000_0000 then Bytes32(v) else [0xFF, 0xFF, 0xFF, 0xFF])
  }

  /** A value repeated over `len` bytes. */
  ghost predicate Repeats(m: Mem, dst: nat, len: nat, unit: seq<bv8>)
    requires dst + len <= |m| && |unit| > 0
  {
    forall x :: dst <= x < dst + len ==> m[x] == unit[(x - dst) % |unit|]
  }

  lemma SpreadByteBytes(v: bv8)
    ensures Bytes64(SpreadByte(v)) == [v, v, v, v, v, v, v, v]
  {
  }

  function Twice(v: bv16): bv32 {
    (v as bv32) | ((v as bv32) << 16)
  }

  lemma TwiceByte(v: bv16)
    ensures Bytes32(Twice(v))[0] == Bytes16(v)[0] && Bytes32(Twice(v))[1] == Bytes16(v)[1]
    ensures Bytes32(Twice(v))[2] == Bytes16(v)[0] && Bytes32(Twice(v))[3] == Bytes16(v)[1]
  {
  }

  lemma TwiceBytes(v: bv16)
    ensures Bytes32(Twice(v)) == Bytes16(v) + Bytes16(v)
  {
    hide Bytes32, Bytes16, Twice;
    TwiceByte(v);
  }

  lemma LowFourTimes(v: bv16)
    ensures var u := v as bv64; Low(u | (u << 16) | (u << 32) | (u << 48)) == Twice(v)
  {
  }

  lemma HighFourTimes(v: bv16)
    ensures var u := v as bv64; High(u | (u << 16) | (u << 32) | (u << 48)) == Twice(v)
  {
  }

  lemma PositiveShort(v: bv16)
    requires v < 0x8000
    ensures Low(SpreadShort(v)) == Twice(v) && High(SpreadShort(v)) == Twice(v)
  {
    hide Low, High, Twice;
    LowFourTimes(v);
    HighFourTimes(v);
  }

  lemma NegativeShort(v: bv16)
    requires v >= 0x8000
    ensures Bytes32(Low(SpreadShort(v))) == Bytes16(v) + [0xFF, 0xFF]
    ensures High(SpreadShort(v)) == 0xFFFF_FFFF
  {
  }

  lemma SpreadShortBytes(v: bv16)
    ensures Bytes64(SpreadShort(v)) == ShortPattern(v)
  {
    assert Bytes32(0xFFFF_FFFF) == [0xFF, 0xFF, 0xFF, 0xFF];
    hide *;
    Halves(SpreadShort(v));
    if v < 0x8000 {
      PositiveShort(v);
      TwiceBytes(v);
    } else {
      NegativeShort(v);
    }
  }

  lemma PositiveInt(v: bv32)
    requires v < 0x8000_0000
    ensures Low(SpreadInt(v)) == v && High(SpreadInt(v)) == v
  {
  }

  lemma NegativeInt(v: bv32)
    requires v >= 0x8000_0000
    ensures Low(SpreadInt(v)) == v && High(SpreadInt(v)) == 0xFFFF_FFFF
  {
  }

  lemma SpreadIntBytes(v: bv32)
    ensures Bytes64(SpreadInt(v)) == IntPattern(v)
  {
    assert Bytes32(0xFFFF_FFFF) == [0xFF, 0xFF, 0xFF, 0xFF];
    hide *;
    Halves(SpreadInt(v));
    if v < 0x8000_0000 {
      PositiveInt(v);
    } else {
      NegativeInt(v);
    }
  }

  // A value of `u` bytes repeats correctly when the rest of the pattern continues it; when the rest
  // of the pattern is sign bits, it does so only as far as the value's own bytes are sign bits.

  predicate AllOnes(unit: seq<bv8>, len: nat) {
    forall k :: 0 <= k < |unit| && k + |unit| < len ==> unit[k] == 0xFF
  }

  lemma ModTwo(k: nat)
    ensures (k % 8) % 2 == k % 2
  {
  }

  lemma ModFour(k: nat)
    ensures (k % 8) % 4 == k % 4
  {
  }

  lemma ModMod(k: nat, u: nat)
    requires u == 2 || u == 4
    ensures (k % 8) % u == k % u
  {
    if u == 2 {
      ModTwo(k);
    } else {
      ModFour(k);
    }
  }

  lemma RepeatsWhenPeriodic(m: Mem, dst: nat, pattern: seq<bv8>, len: nat, unit: seq<bv8>)
    requires |pattern| == 8 && dst + len <= |m| && (|unit| == 2 || |unit| == 4)
    requires forall x :: dst <= x < dst + len ==> m[x] == pattern[(x - dst) % 8]
    requires forall k :: 0 <= k < 8 ==> pattern[k] == unit[k % |unit|]
    ensures Repeats(m, dst, len, unit)
  {
    forall x | dst <= x < dst + len ensures m[x] == unit[(x - dst) % |unit|] {
      ModMod(x - dst, |unit|);
    }
  }

  lemma SignedNeedsOnes(m: Mem, dst: nat, pattern: seq<bv8>, len: nat, unit: seq<bv8>)
    requires |pattern| == 8 && dst + len <= |m| && (|unit| == 2 || |unit| == 4)
    requires forall x :: dst <= x < dst + len ==> m[x] == pattern[(x - dst) % 8]
    requires forall k :: 0 <= k < 8 ==> pattern[k] == if k < |unit| then unit[k] else 0xFF
    requires Repeats(m, dst, len, unit)
    ensures AllOnes(unit, len)
  {
    var u := |unit|;
    forall k | 0 <= k < u && k + u < len ensures unit[k] == 0xFF {
      var x := dst + k + u;
      assert (k + u) % 8 == k + u && (k + u) % u == k;
      assert m[x] == pattern[(x - dst) % 8] && m[x] == unit[(x - dst) % u];
    }
  }

  lemma OnesAreEnough(m: Mem, dst: nat, pattern: seq<bv8>, len: nat, unit: seq<bv8>)
    requires |pattern| == 8 && dst + len <= |m| && (|unit| == 2 || |unit| == 4)
    requires forall x :: dst <= x < dst + len ==> m[x] == pattern[(x - dst) % 8]
    requires forall k :: 0 <= k < 8 ==> pattern[k] == if k < |unit| then unit[k] else 0xFF
    requires AllOnes(unit, len)
    ensures Repeats(m, dst, len, unit)
  {
    var u := |unit|;
    forall x | dst <= x < dst + len ensures m[x] == unit[(x - dst) % u] {
      ModMod(x - dst, u);
      var k := (x - dst) % 8;
      assert k >= u ==> (k % u) + u < len;
    }
  }

  lemma RepeatsWhenSigned(m: Mem, dst: nat, pattern: seq<bv8>, len: nat, unit: seq<bv8>)
    requires |pattern| == 8 && dst + len <= |m| && (|unit| == 2 || |unit| == 4)
    requires forall x :: dst <= x < dst + len ==> m[x] == pattern[(x - dst) % 8]
    requires forall k :: 0 <= k < 8 ==> pattern[k] == if k < |unit| then unit[k] else 0xFF
    ensures Repeats(m, dst, len, unit) <==> AllOnes(unit, len)
  {
    hide Repeats, AllOnes;
    if Repeats(m, dst, len, unit) {
      SignedNeedsOnes(m, dst, pattern, len, unit);
    }
    if AllOnes(unit, len) {
      OnesAreEnough(m, dst, pattern, len, unit);
    }
  }

  method MemSetByte(mem: array<bv8>, dst: nat, value: bv8, len: nat)
    requires dst + len <= mem.Length
    modifies mem
    ensures forall x :: dst <= x < dst + len ==> mem[x] == value
    ensures forall x :: 0 <= x < mem.Length && !(dst <= x < dst + len) ==> mem[x] == old(mem[x])
  {
    SpreadByteBytes(value);
    hide Bytes64, SpreadByte;
    MemSet(mem, dst, SpreadByte(value), len);
    forall x | dst <= x < dst + len ensures mem[x] == value {
      assert mem[..][x] == Bytes64(SpreadByte(value))[(x - dst) % 8];
    }
    forall x | 0 <= x < mem.Length && !(dst <= x < dst + len) ensures mem[x] == old(mem[x]) {
      assert mem[..][x] == old(mem[..])[x];
    }
  }

  method MemSetShort(mem: array<bv8>, dst: nat, value: bv16, len: nat)
    requires dst + len <= mem.Length
    modifies mem
    ensures Filled(old(mem[..]), mem[..], dst, ShortPattern(value), len)
    ensures Repeats(mem[..], dst, len, Bytes16(value)) <==> value < 0x8000 || AllOnes(Bytes16(value), len)
  {
    hide Bytes64, Bytes16, SpreadShort, Repeats, AllOnes;
    SpreadShortBytes(value);
    var word := SpreadShort(value);
    MemSet(mem, dst, word, len);
    if value < 0x8000 {
      RepeatsWhenPeriodic(mem[..], dst, Bytes64(word), len, Bytes16(value));
    } else {
      RepeatsWhenSigned(mem[..], dst, Bytes64(word), len, Bytes16(value));
    }
  }

  method MemSetInt(mem: array<bv8>, dst: nat, value: bv32, len: nat)
    requires dst + len <= mem.Length
    modifies mem
    ensures Filled(old(mem[..]), mem[..], dst, IntPattern(value), len)
    ensures Repeats(mem[..], dst, len, Bytes32(value)) <==> value < 0x8000_0000 || AllOnes(Bytes32(value), len)
  {
    hide Bytes64, Bytes32, SpreadInt, Repeats, AllOnes;
    SpreadIntBytes(value);
    var word := SpreadInt(value);
    MemSet(mem, dst, word, len);
    if value < 0x8000_0000 {
      RepeatsWhenPeriodic(mem[..], dst, Bytes64(word), len, Bytes32(value));
    } else {
      RepeatsWhenSigned(mem[..], dst, Bytes64(word), len, Bytes32(value));
    }
  }

  /** Such values exist: a short 0x8000 over three bytes or more, an int 0x8000_0000 over five or more. */
  lemma NegativeFillFails(was: Mem, m: Mem, dst: nat, len: nat)
    requires dst + len <= |was|
    ensures len > 2 && Filled(was, m, dst, ShortPattern(0x8000), len) ==> !Repeats(m, dst, len, Bytes16(0x8000))
    ensures len > 4 && Filled(was, m, dst, IntPattern(0x8000_0000), len) ==> !Repeats(m, dst, len, Bytes32(0x8000_0000))
  {
    assert Bytes16(0x8000)[0] == Bytes32(0x8000_0000)[0] == 0;
    assert ShortPattern(0x8000)[2] == IntPattern(0x8000_0000)[4] == 0xFF;
    hide ShortPattern, IntPattern, Bytes16, Bytes32;
    if len > 2 && Filled(was, m, dst, ShortPattern(0x8000), len) {
      assert m[dst + 2] == 0xFF && (dst + 2 - dst) % 2 == 0;
    }
    if len > 4 && Filled(was, m, dst, IntPattern(0x8000_0000), len) {
      assert m[dst + 4] == 0xFF && (dst + 4 - dst) % 4 == 0;
    }
  }

  // ---- comparing ------------------------------------------------------------------------------

  ghost predicate SameBytes(m: Mem, a: nat, b: nat, len: nat)
    requires a + len <= |m| && b + len <= |m|
  {
    forall x :: a <= x < a + len ==> m[x] == m[b + (x - a)]
  }

  lemma SameWord(m: Mem, a: nat, b: nat, w: nat)
    requires a + w <= |m| && b + w <= |m|
    ensures m[a..a + w] == m[b..b + w] <==> SameBytes(m, a, b, w)
  {
    var p, q := m[a..a + w], m[b..b + w];
    if p == q {
      forall x | a <= x < a + w ensures m[x] == m[b + (x - a)] {
        assert p[x - a] == q[x - a];
      }
    }
    if SameBytes(m, a, b, w) {
      forall i | 0 <= i < w ensures p[i] == q[i] {
        assert m[a + i] == m[b + (a + i - a)];
      }
    }
  }

  /** Agreement on two stretches, the second starting no later than the first ends. */
  lemma SameMore(m: Mem, a: nat, b: nat, c: nat, o: nat, w: nat)
    requires o <= c <= o + w && a + o + w <= |m| && b + o + w <= |m| && SameBytes(m, a, b, c)
    ensures SameBytes(m, a, b, o + w) <==> SameBytes(m, a + o, b + o, w)
  {
  }

  lemma SameLess(m: Mem, a: nat, b: nat, c: nat, len: nat)
    requires c <= len && a + len <= |m| && b + len <= |m|
    ensures SameBytes(m, a, b, len) ==> SameBytes(m, a, b, c)
  {
  }

  /** Compares one word of `w` bytes. */
  method WordsEqual(mem: array<bv8>, a: nat, b: nat, w: nat) returns (eq: bool)
    requires a + w <= mem.Length && b + w <= mem.Length
    ensures eq <==> SameBytes(mem[..], a, b, w)
  {
    SameWord(mem[..], a, b, w);
    eq := mem[a..a + w] == mem[b..b + w];
    assert mem[a..a + w] == mem[..][a..a + w] && mem[b..b + w] == mem[..][b..b + w];
  }

  method TailsEqual(mem: array<bv8>, a: nat, b: nat, r: nat) returns (eq: bool)
    requires r < 8 && a + r <= mem.Length && b + r <= mem.Length
    ensures eq <==> SameBytes(mem[..], a, b, r)
  {
    hide SameBytes;
    ghost var m := mem[..];
    match r {
      case 0 => eq := true; SameWord(m, a, b, 0);
      case 1 => eq := WordsEqual(mem, a, b, 1);
      case 2 => eq := WordsEqual(mem, a, b, 2);
      case 3 => eq := TwoWordsEqual(mem, a, b, 1, 2);
      case 4 => eq := WordsEqual(mem, a, b, 4);
      case 5 => eq := TwoWordsEqual(mem, a, b, 1, 4);
      case 6 => eq := TwoWordsEqual(mem, a, b, 2, 4);
      case _ => eq := TwoWordsEqual(mem, a, b, 3, 4);
    }
  }

  method TwoWordsEqual(mem: array<bv8>, a: nat, b: nat, o: nat, w: nat) returns (eq: bool)
    requires o <= w && a + o + w <= mem.Length && b + o + w <= mem.Length
    ensures eq <==> SameBytes(mem[..], a, b, o + w)
  {
    hide SameBytes;
    eq := WordsEqual(mem, a, b, w);
    if eq {
      eq := WordsEqual(mem, a + o, b + o, w);
      SameMore(mem[..], a, b, w, o, w);
    } else {
      SameLess(mem[..], a, b, w, o + w);
    }
  }

  /** True exactly when every byte matches. */
  method MemCmp(mem: array<bv8>, a: nat, b: nat, len: nat) returns (eq: bool)
    requires a + len <= mem.Length && b + len <= mem.Length
    ensures eq <==> SameBytes(mem[..], a, b, len)
  {
    ghost var m := mem[..];
    var limit := len - len % 8;
    var cursor := 0;
    assert SameBytes(m, a, b, 0);
    hide SameBytes;
    while cursor < limit
      invariant cursor % 8 == 0 && cursor <= limit
      invariant SameBytes(m, a, b, cursor)
    {
      eq := WordsEqual(mem, a + cursor, b + cursor, 8);
      SameMore(m, a, b, cursor, cursor, 8);
      if !eq {
        SameLess(m, a, b, cursor + 8, len);
        return;
      }
      cursor := cursor + 8;
    }
    eq := TailsEqual(mem, a + limit, b + limit, len % 8);
    SameMore(m, a, b, limit, limit, len % 8);
  }

  lemma MovedRanges(m: Mem, dst: nat, src: nat, len: nat)
    requires Fits(m, dst, src, len)
    ensures Moved(m, dst, src, len)[dst..dst + len] == m[src..src + len]
    ensures dst + len <= src || src + len <= dst ==>
              Moved(m, dst, src, len)[src..src + len] == m[src..src + len]
  {
  }

  /** After a safe copy the comparison holds exactly when the copy left the source as it was, as every
      copy between disjoint ranges does. */
  lemma CopyThenCompare(m: Mem, dst: nat, src: nat, len: nat)
    requires Fits(m, dst, src, len) && Safe(dst, src, len)
    ensures var r := WordCopy(m, dst, src, len);
            && (SameBytes(r, dst, src, len) <==> r[src..src + len] == m[src..src + len])
            && (dst + len <= src || src + len <= dst ==> SameBytes(r, dst, src, len))
  {
    hide WordCopy, Safe, Moved, SameBytes;
    WordCopyIsMemmoveExactly(|m|, dst, src, len);
    MovedRanges(m, dst, src, len);
    SameWord(WordCopy(m, dst, src, len), dst, src, len);
  }
}
