/** Word-wise copying within one flat memory, so that source and destination may overlap. A word of
    w bytes is loaded whole and then stored whole. */
module Memory {

  type Mem = seq<bv8>

  // ---- what the routine is measured against ---------------------------------------------------

  function Store(m: Mem, at: nat, bytes: seq<bv8>): (r: Mem)
    requires at + |bytes| <= |m|
    ensures |r| == |m|
    ensures forall x :: at <= x < at + |bytes| ==> r[x] == bytes[x - at]
    ensures forall x :: 0 <= x < |m| && !(at <= x < at + |bytes|) ==> r[x] == m[x]
  {
    m[..at] + bytes + m[at + |bytes|..]
  }

  predicate Fits(m: Mem, dst: nat, src: nat, len: nat) {
    dst + len <= |m| && src + len <= |m|
  }

  /** The effect of memmove, and of a single word copied: the destination gets what the source held
      before. */
  function Moved(m: Mem, dst: nat, src: nat, len: nat): (r: Mem)
    requires Fits(m, dst, src, len)
    ensures |r| == |m|
  {
    Store(m, dst, m[src..src + len])
  }

  // ---- the routine ----------------------------------------------------------------------------

  /** The loop: `n` words of eight bytes. */
  function CopyLoop(m: Mem, dst: nat, src: nat, n: nat): (r: Mem)
    requires Fits(m, dst, src, 8 * n)
    ensures |r| == |m|
  {
    if n == 0 then m
    else Moved(CopyLoop(m, dst, src, n - 1), dst + 8 * (n - 1), src + 8 * (n - 1), 8)
  }

  /** Width of the word stores used for a remainder of `r` bytes, and the offset of the second. */
  function TailWidth(r: nat): nat
    requires r < 8
  {
    if r < 2 then r else if r < 4 then 2 else 4
  }

  function TailOffset(r: nat): nat
    requires r < 8
  {
    r - TailWidth(r)
  }

  /** The remainder: one store, or two that overlap. */
  function CopyTail(m: Mem, dst: nat, src: nat, r: nat): (res: Mem)
    requires r < 8 && Fits(m, dst, src, r)
    ensures |res| == |m|
  {
    if r == 0 then m else
    var w, o := TailWidth(r), TailOffset(r);
    var first := Moved(m, dst, src, w);
    if o == 0 then first else Moved(first, dst + o, src + o, w)
  }

  /** The whole copy of `8 * n + r` bytes. */
  function CopyParts(m: Mem, dst: nat, src: nat, n: nat, r: nat): (res: Mem)
    requires r < 8 && Fits(m, dst, src, 8 * n + r)
    ensures |res| == |m|
  {
    CopyTail(CopyLoop(m, dst, src, n), dst + 8 * n, src + 8 * n, r)
  }

  function WordCopy(m: Mem, dst: nat, src: nat, len: nat): (r: Mem)
    requires Fits(m, dst, src, len)
    ensures |r| == |m|
  {
    CopyParts(m, dst, src, len / 8, len % 8)
  }

  // ---- where it is memmove --------------------------------------------------------------------

  /** Disjoint or identical ranges; a source above the destination, unless the overlap feeds the
      second store of a five- or six-byte remainder; or a copy that is a single word. */
  predicate Safe(dst: nat, src: nat, len: nat) {
    || dst + len <= src || src + len <= dst || dst == src
    || (dst < src && !(len % 8 == 5 && src - dst <= 2) && !(len % 8 == 6 && src - dst == 1))
    || len == 1 || len == 2 || len == 4 || len == 8
  }

  /** `c` bytes have been copied and nothing else has changed. */
  predicate Copied(m: Mem, r: Mem, dst: nat, src: nat, c: nat)
    requires Fits(m, dst, src, c)
  {
    && |r| == |m|
    && (forall x :: dst <= x < dst + c ==> r[x] == m[src + (x - dst)])
    && (forall x :: 0 <= x < |m| && !(dst <= x < dst + c) ==> r[x] == m[x])
  }

  /** The word about to be loaded at offset `o` has not been overwritten by the first `c` bytes, or
      has been overwritten with itself. */
  predicate Clear(dst: nat, src: nat, c: nat, o: nat, w: nat) {
    c == 0 || dst == src || src + o + w <= dst || dst + c <= src + o
  }

  lemma CopyMore(m: Mem, a: Mem, dst: nat, src: nat, c: nat, o: nat, w: nat)
    requires o <= c <= o + w && Fits(m, dst, src, o + w) && Copied(m, a, dst, src, c)
    requires Clear(dst, src, c, o, w)
    ensures Copied(m, Moved(a, dst + o, src + o, w), dst, src, o + w)
  {
    var b := Moved(a, dst + o, src + o, w);
    forall x | dst <= x < dst + (o + w) ensures b[x] == m[src + (x - dst)] {
      if dst + o <= x {
        assert b[x] == a[src + (x - dst)];
      }
    }
  }

  lemma {:induction false} LoopCopies(m: Mem, dst: nat, src: nat, n: nat)
    requires Fits(m, dst, src, 8 * n)
    requires dst <= src || src + 8 * n <= dst || n <= 1
    ensures Copied(m, CopyLoop(m, dst, src, n), dst, src, 8 * n)
  {
    hide Moved, Copied;
    if n == 0 {
      NothingCopied(m, dst, src);
    } else {
      LoopCopies(m, dst, src, n - 1);
      CopyMore(m, CopyLoop(m, dst, src, n - 1), dst, src, 8 * (n - 1), 8 * (n - 1), 8);
      assert 8 * (n - 1) + 8 == 8 * n;
    }
  }

  lemma NothingCopied(m: Mem, dst: nat, src: nat)
    requires Fits(m, dst, src, 0)
    ensures Copied(m, m, dst, src, 0)
  {
  }

  lemma CopiedIsMoved(m: Mem, r: Mem, dst: nat, src: nat, len: nat)
    requires Fits(m, dst, src, len) && Copied(m, r, dst, src, len)
    ensures r == Moved(m, dst, src, len)
  {
    var e := Moved(m, dst, src, len);
    assert forall x :: 0 <= x < |m| ==> r[x] == e[x];
  }

  /** The remainder `r` after `c` bytes are in place. */
  lemma TailCopies(m: Mem, a: Mem, dst: nat, src: nat, c: nat, r: nat)
    requires r < 8 && |a| == |m| && Fits(m, dst, src, c + r) && Copied(m, a, dst, src, c)
    requires r > 0 ==> Clear(dst, src, c, c, TailWidth(r))
    requires TailOffset(r) > 0 ==> Clear(dst, src, c + TailWidth(r), c + TailOffset(r), TailWidth(r))
    ensures Copied(m, CopyTail(a, dst + c, src + c, r), dst, src, c + r)
  {
    hide Moved, Copied, Clear;
    if r > 0 {
      var w, o := TailWidth(r), TailOffset(r);
      CopyMore(m, a, dst, src, c, c, w);
      if o > 0 {
        CopyMore(m, Moved(a, dst + c, src + c, w), dst, src, c + w, c + o, w);
      }
    }
  }

  lemma SafeMeansClear(dst: nat, src: nat, n: nat, r: nat)
    requires r < 8 && Safe(dst, src, 8 * n + r)
    ensures dst <= src || src + 8 * n <= dst || n <= 1
    ensures r > 0 ==> Clear(dst, src, 8 * n, 8 * n, TailWidth(r))
    ensures TailOffset(r) > 0 ==>
              Clear(dst, src, 8 * n + TailWidth(r), 8 * n + TailOffset(r), TailWidth(r))
  {
    assert (8 * n + r) % 8 == r;
  }

  lemma SafeCopies(m: Mem, dst: nat, src: nat, n: nat, r: nat)
    requires r < 8 && Fits(m, dst, src, 8 * n + r) && Safe(dst, src, 8 * n + r)
    ensures CopyParts(m, dst, src, n, r) == Moved(m, dst, src, 8 * n + r)
  {
    hide CopyLoop, CopyTail, Copied, Clear, Safe, Moved, TailWidth, TailOffset;
    SafeMeansClear(dst, src, n, r);
    LoopCopies(m, dst, src, n);
    TailCopies(m, CopyLoop(m, dst, src, n), dst, src, 8 * n, r);
    CopiedIsMoved(m, CopyParts(m, dst, src, n, r), dst, src, 8 * n + r);
  }

  // ---- where it is not ------------------------------------------------------------------------

  /** A memory that tells address `p` from every other. */
  function Mark(size: nat, p: nat): (m: Mem)
    ensures |m| == size
    ensures forall x :: 0 <= x < size && x != p ==> m[x] == 0
    ensures p < size ==> m[p] == 1
  {
    seq(size, x => if x == p then 1 else 0)
  }

  lemma WordAt(m: Mem, dst: nat, src: nat, w: nat, x: nat)
    requires Fits(m, dst, src, w) && x < |m|
    ensures Moved(m, dst, src, w)[x] == if dst <= x < dst + w then m[src + (x - dst)] else m[x]
  {
  }

  /** Once the first word is stored, no later word of the loop touches what lies below its end, and
      whatever is loaded from there later is what the first word left. */
  lemma {:induction false} LoopReads(m: Mem, dst: nat, src: nat, n: nat, k: nat)
    requires n >= 1 && Fits(m, dst, src, 8 * n) && 8 <= k && src + k < dst + 8
    ensures CopyLoop(m, dst, src, n)[src + k] == Moved(m, dst, src, 8)[src + k]
    ensures k < 8 * n ==> CopyLoop(m, dst, src, n)[dst + k] == Moved(m, dst, src, 8)[src + k]
  {
    hide Moved;
    if n == 1 {
      assert CopyLoop(m, dst, src, 0) == m;
      assert CopyLoop(m, dst, src, 1) == Moved(m, dst, src, 8);
    } else {
      LoopReads(m, dst, src, n - 1, k);
      var a := CopyLoop(m, dst, src, n - 1);
      WordAt(a, dst + 8 * (n - 1), src + 8 * (n - 1), 8, src + k);
      if k < 8 * n {
        WordAt(a, dst + 8 * (n - 1), src + 8 * (n - 1), 8, dst + k);
      }
    }
  }

  /** A remainder whose byte `k` is loaded from below the destination. */
  lemma TailReads(a: Mem, dst: nat, src: nat, r: nat, base: nat, k: nat)
    requires r < 8 && Fits(a, dst + base, src + base, r) && k < base + r && src + k < dst + base
    ensures CopyTail(a, dst + base, src + base, r)[dst + k] == if k < base then a[dst + k] else a[src + k]
  {
    hide Moved;
    if r > 0 {
      var w, o := TailWidth(r), TailOffset(r);
      var first := Moved(a, dst + base, src + base, w);
      WordAt(a, dst + base, src + base, w, dst + k);
      WordAt(a, dst + base, src + base, w, src + k);
      if o > 0 {
        WordAt(first, dst + base + o, src + base + o, w, dst + k);
      }
    }
  }

  /** With the source `e` bytes below the destination, the first byte that is stored after its source
      has been overwritten. */
  function Stale(e: nat, n: nat, r: nat): nat
    requires r < 8
  {
    var first := if n > 0 then 8 else TailOffset(r);
    if e > first then e else first
  }

  lemma ForwardOverlap(m: Mem, dst: nat, src: nat, n: nat, r: nat)
    requires r < 8 && Fits(m, dst, src, 8 * n + r)
    requires src < dst < src + 8 * n + r && !Safe(dst, src, 8 * n + r)
    ensures var k := Stale(dst - src, n, r);
            k < 8 * n + r && CopyParts(m, dst, src, n, r)[dst + k] == m[src + k - (dst - src)]
  {
    hide Moved;
    assert (8 * n + r) % 8 == r;
    var k := Stale(dst - src, n, r);
    if n > 0 {
      LoopReads(m, dst, src, n, k);
      TailReads(CopyLoop(m, dst, src, n), dst, src, r, 8 * n, k);
      WordAt(m, dst, src, 8, src + k);
    } else {
      var w, o := TailWidth(r), TailOffset(r);
      assert CopyLoop(m, dst, src, 0) == m;
      var one := Moved(m, dst, src, w);
      WordAt(m, dst, src, w, src + k);
      WordAt(one, dst + o, src + o, w, dst + k);
    }
  }

  /** A source one or two bytes above the destination: the second store of the remainder loads a byte
      that the first has just replaced. */
  lemma BackwardOverlap(m: Mem, dst: nat, src: nat, n: nat, r: nat)
    requires Fits(m, dst, src, 8 * n + r) && dst < src
    requires (r == 5 && src - dst <= 2) || (r == 6 && src - dst == 1)
    ensures CopyParts(m, dst, src, n, r)[dst + 8 * n + TailOffset(r)]
         == m[src + 8 * n + TailOffset(r) + (src - dst)]
  {
    hide Moved, CopyLoop;
    var o, d, c := TailOffset(r), src - dst, 8 * n;
    var a := CopyLoop(m, dst, src, n);
    var first := Moved(a, dst + c, src + c, 4);
    WordAt(first, dst + c + o, src + c + o, 4, dst + c + o);
    WordAt(a, dst + c, src + c, 4, src + c + o);
    AfterLoop(m, dst, src, n, src + c + o + d);
  }

  lemma {:induction false} AfterLoop(m: Mem, dst: nat, src: nat, n: nat, x: nat)
    requires Fits(m, dst, src, 8 * n) && dst + 8 * n <= x < |m|
    ensures CopyLoop(m, dst, src, n)[x] == m[x]
  {
    hide Moved;
    if n > 0 {
      AfterLoop(m, dst, src, n - 1, x);
      WordAt(CopyLoop(m, dst, src, n - 1), dst + 8 * (n - 1), src + 8 * (n - 1), 8, x);
    }
  }

  lemma MovedAt(m: Mem, dst: nat, src: nat, len: nat, k: nat)
    requires Fits(m, dst, src, len) && k < len
    ensures Moved(m, dst, src, len)[dst + k] == m[src + k]
  {
  }

  /** For ranges that are not safe, some memory comes out wrong. */
  lemma UnsafeGoesWrong(size: nat, dst: nat, src: nat, n: nat, r: nat) returns (m: Mem)
    requires r < 8 && dst + 8 * n + r <= size && src + 8 * n + r <= size && !Safe(dst, src, 8 * n + r)
    ensures |m| == size && CopyParts(m, dst, src, n, r) != Moved(m, dst, src, 8 * n + r)
  {
    hide CopyParts, Moved;
    var len := 8 * n + r;
    assert len % 8 == r;
    if src < dst {
      var k := Stale(dst - src, n, r);
      m := Mark(size, src + k - (dst - src));
      ForwardOverlap(m, dst, src, n, r);
      MovedAt(m, dst, src, len, k);
    } else {
      var k := 8 * n + TailOffset(r);
      m := Mark(size, src + k + (src - dst));
      BackwardOverlap(m, dst, src, n, r);
      MovedAt(m, dst, src, len, k);
    }
  }

  /** The word-wise copy is memmove on every memory exactly when the ranges are safe. */
  lemma WordCopyIsMemmoveExactly(size: nat, dst: nat, src: nat, len: nat)
    requires dst + len <= size && src + len <= size
    ensures (forall m: Mem :: |m| == size ==> WordCopy(m, dst, src, len) == Moved(m, dst, src, len))
            <==> Safe(dst, src, len)
  {
    hide CopyParts, Moved, Safe;
    var n, r := len / 8, len % 8;
    assert 8 * n + r == len;
    if Safe(dst, src, len) {
      forall m: Mem | |m| == size ensures WordCopy(m, dst, src, len) == Moved(m, dst, src, len) {
        SafeCopies(m, dst, src, n, r);
      }
    } else {
      var m := UnsafeGoesWrong(size, dst, src, n, r);
      assert WordCopy(m, dst, src, len) != Moved(m, dst, src, len);
    }
  }

  // ---- in place -------------------------------------------------------------------------------

  method CopyWordAt(mem: array<bv8>, dst: nat, src: nat, w: nat)
    requires dst + w <= mem.Length && src + w <= mem.Length
    modifies mem
    ensures mem[..] == Moved(old(mem[..]), dst, src, w)
  {
    forall i | 0 <= i < w {
      mem[dst + i] := mem[src + i];
    }
    ghost var e := Moved(old(mem[..]), dst, src, w);
    forall x | 0 <= x < mem.Length ensures mem[x] == e[x] {
      WordAt(old(mem[..]), dst, src, w, x);
      if dst <= x < dst + w {
        assert mem[dst + (x - dst)] == old(mem[src + (x - dst)]);
      }
    }
  }

  method CopyTailAt(mem: array<bv8>, to: nat, from: nat, r: nat)
    requires r < 8 && to + r <= mem.Length && from + r <= mem.Length
    modifies mem
    ensures mem[..] == CopyTail(old(mem[..]), to, from, r)
  {
    hide Moved;
    match r {
      case 0 =>
      case 1 => CopyWordAt(mem, to, from, 1);
      case 2 => CopyWordAt(mem, to, from, 2);
      case 3 =>
        CopyWordAt(mem, to, from, 2);
        CopyWordAt(mem, to + 1, from + 1, 2);
      case 4 => CopyWordAt(mem, to, from, 4);
      case 5 =>
        CopyWordAt(mem, to, from, 4);
        CopyWordAt(mem, to + 1, from + 1, 4);
      case 6 =>
        CopyWordAt(mem, to, from, 4);
        CopyWordAt(mem, to + 2, from + 2, 4);
      case _ =>
        CopyWordAt(mem, to, from, 4);
        CopyWordAt(mem, to + 3, from + 3, 4);
    }
  }

  method MemCpy(mem: array<bv8>, dst: nat, src: nat, len: nat)
    requires dst + len <= mem.Length && src + len <= mem.Length
    modifies mem
    ensures mem[..] == WordCopy(old(mem[..]), dst, src, len)
    ensures Safe(dst, src, len) ==> mem[..] == Moved(old(mem[..]), dst, src, len)
  {
    hide Moved, Safe;
    var limit := len - len % 8;
    var cursor := 0;
    ghost var n := 0;
    while cursor < limit
      invariant cursor == 8 * n && n <= len / 8
      invariant mem[..] == CopyLoop(old(mem[..]), dst, src, n)
    {
      CopyWordAt(mem, dst + cursor, src + cursor, 8);
      cursor := cursor + 8;
      n := n + 1;
    }
    assert n == len / 8;
    CopyTailAt(mem, dst + limit, src + limit, len % 8);
    if Safe(dst, src, len) {
      WordCopyIsMemmoveExactly(mem.Length, dst, src, len);
    }
  }
}
