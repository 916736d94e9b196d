/** The stream format: each payload is preceded by its length in four bytes, highest first. */
module Frames {
  import opened Basics

  type Bytes = seq<Byte>

  const LENGTH_LIMIT: nat := 0x1_0000_0000

  function Value(b: Bytes): (n: nat)
    requires |b| == 4
    ensures n < LENGTH_LIMIT
  {
    var b0, b1, b2, b3 := b[0] as int, b[1] as int, b[2] as int, b[3] as int;
    ((b0 * 0x100 + b1) * 0x100 + b2) * 0x100 + b3
  }

  function Header(n: nat): (b: Bytes)
    requires n < LENGTH_LIMIT
    ensures |b| == 4
  {
    var n1 := n / 0x100;
    var n2 := n1 / 0x100;
    [n2 / 0x100, n2 % 0x100, n1 % 0x100, n % 0x100]
  }

  lemma HeaderValue(n: nat)
    requires n < LENGTH_LIMIT
    ensures Value(Header(n)) == n
  {
  }

  lemma SplitByte(q: nat, b: Byte)
    ensures (q * 0x100 + b as int) / 0x100 == q && (q * 0x100 + b as int) % 0x100 == b as int
  {
  }

  lemma ValueHeader(b: Bytes)
    requires |b| == 4
    ensures Header(Value(b)) == b
  {
    var q2: nat := b[0] as int * 0x100 + b[1] as int;
    var q1: nat := q2 * 0x100 + b[2] as int;
    SplitByte(q1, b[3]);
    SplitByte(q2, b[2]);
    SplitByte(b[0], b[1]);
    assert Header(Value(b)) == [b[0], b[1], b[2], b[3]];
  }

  /** The first byte in which they differ is smaller in `a`. */
  predicate Before(a: Bytes, b: Bytes)
    requires |a| == |b|
  {
    a != [] && (a[0] < b[0] || (a[0] == b[0] && Before(a[1..], b[1..])))
  }

  /** Lengths are ordered as their headers are, read from the first byte on. With the round trips this
      leaves `Value` and `Header` no choice: it is the highest byte that comes first. */
  lemma ValueOrders(a: Bytes, b: Bytes)
    requires |a| == |b| == 4
    ensures Value(a) < Value(b) <==> Before(a, b)
  {
    assert a[1..][1..] == a[2..] && b[1..][1..] == b[2..];
    assert a[2..][1..] == a[3..] && b[2..][1..] == b[3..];
    assert a[3..][1..] == [] == b[3..][1..];
    assert Before(a[3..], b[3..]) <==> a[3] < b[3];
    assert Before(a[2..], b[2..]) <==> a[2] < b[2] || (a[2] == b[2] && a[3] < b[3]);
    assert Before(a[1..], b[1..]) <==> a[1] < b[1] || (a[1] == b[1] && Before(a[2..], b[2..]));
  }

  predicate Sendable(payloads: seq<Bytes>) {
    forall i :: 0 <= i < |payloads| ==> |payloads[i]| < LENGTH_LIMIT
  }

  function Encode(payloads: seq<Bytes>): Bytes
    requires Sendable(payloads)
  {
    if payloads == [] then []
    else Header(|payloads[0]|) + payloads[0] + Encode(payloads[1..])
  }

  /** The payloads that are complete in a stream. */
  function Decode(s: Bytes): seq<Bytes>
    decreases |s|
  {
    if |s| < 4 || |s| < 4 + Value(s[..4]) then []
    else [s[4..4 + Value(s[..4])]] + Decode(s[4 + Value(s[..4])..])
  }

  lemma DecodeOne(p: Bytes, rest: Bytes)
    requires |p| < LENGTH_LIMIT
    ensures Decode(Header(|p|) + p + rest) == [p] + Decode(rest)
  {
    var s := Header(|p|) + p + rest;
    HeaderValue(|p|);
    assert s[..4] == Header(|p|);
    hide Header, Value;
    assert s[4..4 + |p|] == p && s[4 + |p|..] == rest;
  }

  /** Decoding gives back what was encoded, whatever follows it. */
  lemma {:induction false} DecodeEncoded(payloads: seq<Bytes>, rest: Bytes)
    requires Sendable(payloads)
    ensures Decode(Encode(payloads) + rest) == payloads + Decode(rest)
  {
    hide Header, Decode;
    if payloads == [] {
      assert Encode(payloads) + rest == rest;
    } else {
      var p, tail := payloads[0], Encode(payloads[1..]);
      DecodeEncoded(payloads[1..], rest);
      DecodeOne(p, tail + rest);
      assert Encode(payloads) == Header(|p|) + p + tail;
      hide Encode;
      assert Header(|p|) + p + tail + rest == Header(|p|) + p + (tail + rest);
      assert payloads + Decode(rest) == [p] + (payloads[1..] + Decode(rest));
    }
  }

  lemma RoundTrip(payloads: seq<Bytes>)
    requires Sendable(payloads)
    ensures Decode(Encode(payloads)) == payloads
  {
    DecodeEncoded(payloads, []);
    assert Encode(payloads) + [] == Encode(payloads);
  }

  lemma {:induction false} EncodeMore(payloads: seq<Bytes>, p: Bytes)
    requires Sendable(payloads) && |p| < LENGTH_LIMIT
    ensures Sendable(payloads + [p])
    ensures Encode(payloads + [p]) == Encode(payloads) + Header(|p|) + p
  {
    hide Header;
    if payloads == [] {
      assert [] + [p] == [p];
      assert Encode([p][1..]) == [];
    } else {
      EncodeMore(payloads[1..], p);
      assert (payloads + [p])[1..] == payloads[1..] + [p];
    }
  }

  /** Every stream is its complete payloads, encoded, and a remainder that completes none. */
  lemma {:induction false} EncodeDecoded(s: Bytes) returns (rest: Bytes)
    ensures Sendable(Decode(s)) && s == Encode(Decode(s)) + rest && Decode(rest) == []
    decreases |s|
  {
    hide Header, Value, Decode, Encode;
    if |s| < 4 || |s| < 4 + Value(s[..4]) {
      rest := s;
      NoneComplete(s);
    } else {
      var p, later := SplitFirst(s);
      rest := EncodeDecoded(later);
      EncodeFirst(p, Decode(later));
      Regroup(Header(|p|) + p, Encode(Decode(later)), rest);
    }
  }

  lemma NoneComplete(s: Bytes)
    requires |s| < 4 || |s| < 4 + Value(s[..4])
    ensures Decode(s) == [] && Encode([]) + s == s
  {
    assert [] + s == s;
  }

  lemma Regroup(a: Bytes, b: Bytes, c: Bytes)
    ensures a + (b + c) == a + b + c
  {
  }

  lemma SplitFirst(s: Bytes) returns (p: Bytes, later: Bytes)
    requires |s| >= 4 && |s| >= 4 + Value(s[..4])
    ensures |p| < LENGTH_LIMIT && s == Header(|p|) + p + later && Decode(s) == [p] + Decode(later)
  {
    var n := Value(s[..4]);
    p, later := s[4..4 + n], s[4 + n..];
    ValueHeader(s[..4]);
    hide Header, Value;
    assert s == s[..4] + p + later;
  }

  lemma EncodeFirst(p: Bytes, payloads: seq<Bytes>)
    requires |p| < LENGTH_LIMIT && Sendable(payloads)
    ensures Sendable([p] + payloads) && Encode([p] + payloads) == Header(|p|) + p + Encode(payloads)
  {
    assert ([p] + payloads)[1..] == payloads;
  }
}

/** The reader of one link: a read buffer with a cursor, and what it awaits next. */
module Framing {
  import opened Basics
  import opened Frames

  datatype Awaits = Length | Payload

  /** `data` is what has been written to the current buffer and `cursor` how much of it has been read;
      `pool` counts the spare buffers. `input` and `output` are the history: every byte appended and
      every payload handed out. */
  datatype Reader = Reader(
    data: Bytes, cursor: nat, awaits: Awaits, next: nat, pool: nat,
    input: Bytes, output: seq<Bytes>)
  {
    function Unread(): Bytes
      requires cursor <= |data|
    {
      data[cursor..]
    }
  }

  datatype Op = Append(bytes: Bytes) | Read | Swap | Spare

  function Fresh(pool: nat): Reader {
    Reader([], 0, Length, 0, pool, [], [])
  }

  predicate InBounds(r: Reader) {
    r.cursor <= |r.data| <= MAX_RECV && r.next < LENGTH_LIMIT
  }

  // ---- what each call does --------------------------------------------------------------------

  function Appended(r: Reader, bytes: Bytes): Reader {
    if |r.data| + |bytes| > MAX_RECV then r
    else r.(data := r.data + bytes, input := r.input + bytes)
  }

  function HeaderRead(r: Reader): Reader
    requires InBounds(r)
  {
    if |r.Unread()| < 4 then r
    else r.(cursor := r.cursor + 4, next := Value(r.Unread()[..4]), awaits := Payload)
  }

  function PayloadRead(r: Reader): Reader
    requires InBounds(r)
  {
    if |r.Unread()| < r.next then r
    else r.(cursor := r.cursor + r.next, awaits := Length, output := r.output + [r.Unread()[..r.next]])
  }

  function Swapped(r: Reader): Reader
    requires InBounds(r)
  {
    if r.pool == 0 then r else r.(data := r.Unread(), cursor := 0, pool := r.pool - 1)
  }

  /** One call; a read is dispatched on what it awaits. `Spare` is another owner returning a buffer. */
  function Step(r: Reader, op: Op): Reader
    requires InBounds(r)
  {
    match op
    case Append(bytes) => Appended(r, bytes)
    case Read => if r.awaits == Payload then PayloadRead(r) else HeaderRead(r)
    case Swap => Swapped(r)
    case Spare => r.(pool := r.pool + 1)
  }

  lemma StepInBounds(r: Reader, op: Op)
    requires InBounds(r)
    ensures InBounds(Step(r, op))
  {
  }

  function Run(r: Reader, ops: seq<Op>): (t: Reader)
    requires InBounds(r)
    ensures InBounds(t)
    decreases |ops|
  {
    if ops == [] then r else
    StepInBounds(r, ops[0]);
    Run(Step(r, ops[0]), ops[1..])
  }

  // ---- what every run keeps -------------------------------------------------------------------

  /** The part of the stream that has not been handed out: a header already consumed comes back. */
  function Pending(r: Reader): Bytes
    requires InBounds(r)
  {
    (if r.awaits == Payload then Header(r.next) else []) + r.Unread()
  }

  predicate Accounted(r: Reader) {
    && InBounds(r) && Sendable(r.output)
    && r.input == Encode(r.output) + Pending(r)
  }

  lemma HeaderKeeps(r: Reader)
    requires Accounted(r) && r.awaits != Payload
    ensures Accounted(HeaderRead(r))
  {
    hide Encode, Header, Value;
    var u := r.Unread();
    if |u| >= 4 {
      ValueHeader(u[..4]);
      assert u == u[..4] + u[4..];
      assert HeaderRead(r).Unread() == u[4..];
    }
  }

  lemma PayloadKeeps(r: Reader)
    requires Accounted(r) && r.awaits == Payload
    ensures Accounted(PayloadRead(r))
  {
    hide Encode, Header;
    var u, t := r.Unread(), PayloadRead(r);
    if |u| >= r.next {
      EncodeMore(r.output, u[..r.next]);
      assert t.Unread() == u[r.next..];
      assert r.input == Encode(r.output) + (Header(r.next) + (u[..r.next] + u[r.next..]));
      assert t.input == Encode(t.output) + t.Unread();
    }
  }

  lemma StepKeeps(r: Reader, op: Op)
    requires Accounted(r)
    ensures Accounted(Step(r, op))
  {
    hide Encode, Header, Value;
    match op {
      case Append(bytes) =>
        if |r.data| + |bytes| <= MAX_RECV {
          assert Step(r, op).Unread() == r.Unread() + bytes;
          assert Step(r, op).input == Encode(r.output) + (Pending(r) + bytes);
        }
      case Read =>
        if r.awaits == Payload {
          PayloadKeeps(r);
        } else {
          HeaderKeeps(r);
        }
      case Swap =>
        assert Step(r, op).Unread() == r.Unread();
      case Spare =>
    }
  }

  lemma {:induction false} RunKeeps(r: Reader, ops: seq<Op>)
    requires Accounted(r)
    ensures Accounted(Run(r, ops))
    decreases |ops|
  {
    if ops != [] {
      StepKeeps(r, ops[0]);
      RunKeeps(Step(r, ops[0]), ops[1..]);
    }
  }

  /** The payloads handed out so far, followed by those complete in the pending bytes, are the
      decoding of everything appended. */
  lemma OutputIsPrefixOfDecoding(pool: nat, ops: seq<Op>)
    ensures var r := Run(Fresh(pool), ops);
            && Decode(r.input) == r.output + Decode(Pending(r))
            && r.output <= Decode(r.input)
            && (r.output == Decode(r.input) <==> Decode(Pending(r)) == [])
  {
    hide Decode, Header, Run;
    assert Accounted(Fresh(pool));
    hide Encode;
    RunKeeps(Fresh(pool), ops);
    var r := Run(Fresh(pool), ops);
    DecodeEncoded(r.output, Pending(r));
  }

  // ---- spare buffers --------------------------------------------------------------------------

  /** How many swaps of a run found a spare buffer. */
  function SwapsDone(r: Reader, ops: seq<Op>): nat
    requires InBounds(r)
    decreases |ops|
  {
    if ops == [] then 0
    else (if ops[0] == Swap && r.pool > 0 then 1 else 0) + SwapsDone(Step(r, ops[0]), ops[1..])
  }

  function SparesGiven(ops: seq<Op>): nat {
    if ops == [] then 0 else (if ops[0] == Spare then 1 else 0) + SparesGiven(ops[1..])
  }

  /** Every swap that succeeds takes a spare buffer out of the pool for good: the pool holds what it held,
      and what others returned, less one for each of them. */
  lemma {:induction false} SparesAreUsedUp(r: Reader, ops: seq<Op>)
    requires InBounds(r)
    ensures Run(r, ops).pool + SwapsDone(r, ops) == r.pool + SparesGiven(ops)
    decreases |ops|
  {
    if ops != [] {
      hide InBounds, Value;
      SparesAreUsedUp(Step(r, ops[0]), ops[1..]);
    }
  }

  /** Unless others return buffers, no more swaps succeed than there were spares at the start. */
  lemma {:induction false} SwapsRunOut(r: Reader, ops: seq<Op>)
    requires InBounds(r) && NoSpare(ops)
    ensures SwapsDone(r, ops) <= r.pool
  {
    SparesAreUsedUp(r, ops);
    NoneGiven(ops);
  }

  lemma {:induction false} NoneGiven(ops: seq<Op>)
    requires NoSpare(ops)
    ensures SparesGiven(ops) == 0
  {
    if ops != [] {
      NoneGiven(ops[1..]);
    }
  }

  // ---- payloads that do not fit ---------------------------------------------------------------

  lemma {:induction false} OversizeStays(r: Reader, ops: seq<Op>)
    requires InBounds(r) && r.awaits == Payload && r.next > MAX_RECV
    ensures Run(r, ops).output == r.output
    decreases |ops|
  {
    if ops != [] {
      OversizeStays(Step(r, ops[0]), ops[1..]);
    }
  }

  function Missing(r: Reader): (b: Bytes)
    requires InBounds(r)
    ensures |b| == if r.next > |r.Unread()| then r.next - |r.Unread()| else 0
  {
    seq(if r.next > |r.Unread()| then r.next - |r.Unread()| else 0, _ => 0)
  }

  lemma AppendThenRead(r: Reader)
    requires InBounds(r) && r.awaits == Payload && r.cursor + r.next <= MAX_RECV
    ensures |Run(r, [Append(Missing(r)), Read]).output| == |r.output| + 1
  {
    var t := Step(r, Append(Missing(r)));
    assert t.Unread() == r.Unread() + Missing(r);
    RunTwo(r, Append(Missing(r)), Read);
  }

  lemma RunTwo(r: Reader, a: Op, b: Op)
    requires InBounds(r) && InBounds(Step(r, a))
    ensures Run(r, [a, b]) == Step(Step(r, a), b)
  {
    var t := Step(r, a);
    assert [a, b][1..] == [b] && [b][1..] == [];
    assert Run(t, [b]) == Run(Step(t, b), []);
  }

  lemma {:induction false} RunAppend(r: Reader, a: seq<Op>, b: seq<Op>)
    requires InBounds(r)
    ensures Run(r, a + b) == Run(Run(r, a), b)
    decreases |a|
  {
    if a == [] {
      assert a + b == b;
    } else {
      RunAppend(Step(r, a[0]), a[1..], b);
      assert (a + b)[1..] == a[1..] + b;
    }
  }

  /** An awaited payload can still be handed out exactly when it fits an empty buffer. */
  lemma PayloadCanArriveExactly(r: Reader)
    requires InBounds(r) && r.awaits == Payload
    ensures (exists ops :: Run(r, ops).output != r.output) <==> r.next <= MAX_RECV
  {
    if r.next <= MAX_RECV {
      RunTwo(r, Spare, Swap);
      var t := Run(r, [Spare, Swap]);
      AppendThenRead(t);
      RunAppend(r, [Spare, Swap], [Append(Missing(t)), Read]);
      assert Run(r, [Spare, Swap] + [Append(Missing(t)), Read]).output != r.output;
    } else {
      forall ops ensures Run(r, ops).output == r.output {
        OversizeStays(r, ops);
      }
    }
  }

  /** Such a payload exists: after a header that announces 65536 bytes, no append, read, swap or spare
      buffer ever yields anything again. */
  lemma OversizePayloadIsStuck(pool: nat, ops: seq<Op>)
    ensures var head := [Append(Header(MAX_RECV + 1)), Read];
            Run(Fresh(pool), head).next == MAX_RECV + 1 && Run(Run(Fresh(pool), head), ops).output == []
  {
    var r, h := Fresh(pool), Header(MAX_RECV + 1);
    HeaderValue(MAX_RECV + 1);
    RunTwo(r, Append(h), Read);
    assert Step(r, Append(h)).Unread()[..4] == h;
    hide Header, Value;
    OversizeStays(Run(r, [Append(h), Read]), ops);
  }

  predicate NoSpare(ops: seq<Op>) {
    forall i :: 0 <= i < |ops| ==> !ops[i].Spare?
  }

  lemma {:induction false} CrampedStays(r: Reader, ops: seq<Op>)
    requires InBounds(r) && r.awaits == Payload && r.pool == 0 && r.cursor + r.next > MAX_RECV
    requires NoSpare(ops)
    ensures Run(r, ops).output == r.output
    decreases |ops|
  {
    if ops != [] {
      CrampedStays(Step(r, ops[0]), ops[1..]);
    }
  }

  /** With no spare buffer and none returned, only exactly when it fits behind what has been read. */
  lemma PayloadCanArriveWithoutSparesExactly(r: Reader)
    requires InBounds(r) && r.awaits == Payload && r.pool == 0
    ensures (exists ops :: NoSpare(ops) && Run(r, ops).output != r.output) <==> r.cursor + r.next <= MAX_RECV
  {
    if r.cursor + r.next <= MAX_RECV {
      AppendThenRead(r);
      assert NoSpare([Append(Missing(r)), Read]);
    } else {
      forall ops | NoSpare(ops) ensures Run(r, ops).output == r.output {
        CrampedStays(r, ops);
      }
    }
  }

  // ---- in place -------------------------------------------------------------------------------

  class LinkReader {
    var data: Bytes
    var cursor: nat
    var awaits: Awaits
    var next: nat
    var pool: nat
    ghost var input: Bytes
    ghost var output: seq<Bytes>

    ghost function View(): Reader
      reads this
    {
      Reader(data, cursor, awaits, next, pool, input, output)
    }

    constructor (spares: nat)
      ensures View() == Fresh(spares)
    {
      data, cursor, awaits, next, pool := [], 0, Length, 0, spares;
      input, output := [], [];
    }

    /** Bytes arrive in the current buffer: whoever fills it calls this. */
    method Write(bytes: Bytes) returns (ok: bool)
      requires InBounds(View())
      modifies this
      ensures View() == Appended(old(View()), bytes)
      ensures ok <==> |old(data)| + |bytes| <= MAX_RECV
      ensures data == old(data) + (if ok then bytes else []) && cursor == old(cursor)
    {
      ok := |data| + |bytes| <= MAX_RECV;
      if ok {
        data := data + bytes;
        input := input + bytes;
      }
    }

    /** Fails, consuming nothing, with fewer than four unread bytes. */
    method ReadHeader() returns (ok: bool, len: nat)
      requires InBounds(View())
      modifies this
      ensures View() == HeaderRead(old(View())) && InBounds(View())
      ensures ok <==> |old(data)| - old(cursor) >= 4
      ensures ok ==> len < LENGTH_LIMIT && Header(len) == old(data)[old(cursor)..old(cursor) + 4]
      ensures ok ==> cursor == old(cursor) + 4 && awaits == Payload && next == len
      ensures data == old(data) && pool == old(pool)
      ensures !ok ==> len == 0 && View() == old(View())
    {
      if |data| - cursor < 4 {
        return false, 0;
      }
      ok, len := true, Value(data[cursor..cursor + 4]);
      ValueHeader(data[cursor..cursor + 4]);
      assert View().Unread()[..4] == data[cursor..cursor + 4];
      cursor := cursor + 4;
      next := len;
      awaits := Payload;
    }

    /** Fails, consuming nothing, until the whole payload is unread. */
    method ReadPayload() returns (ok: bool, span: Bytes)
      requires InBounds(View())
      modifies this
      ensures View() == PayloadRead(old(View())) && InBounds(View())
      ensures ok <==> |old(data)| - old(cursor) >= old(next)
      ensures ok ==> |span| == old(next) && output == old(output) + [span]
      ensures ok ==> span == old(data)[old(cursor)..cursor] && awaits == Length
      ensures data == old(data) && pool == old(pool)
      ensures !ok ==> span == [] && View() == old(View())
    {
      if |data| - cursor < next {
        return false, [];
      }
      ok, span := true, data[cursor..cursor + next];
      assert View().Unread()[..next] == span;
      cursor := cursor + next;
      awaits := Length;
      output := output + [span];
    }

    /** Fails with no spare buffer. Otherwise the unread bytes move to an empty one; the previous
        buffer does not go back to the pool. */
    method BufferSwap() returns (ok: bool)
      requires InBounds(View())
      modifies this
      ensures View() == Swapped(old(View())) && InBounds(View())
      ensures ok <==> old(pool) > 0
      ensures pool == old(pool) - (if ok then 1 else 0)
      ensures if ok then data == old(data)[old(cursor)..] && cursor == 0 else View() == old(View())
      ensures awaits == old(awaits) && next == old(next)
      ensures data[cursor..] == old(data[cursor..])
    {
      if pool == 0 {
        return false;
      }
      var previous, at := data, cursor;
      pool := pool - 1;
      data, cursor := [], 0;
      if |previous| - at > 0 {
        data := data + previous[at..];
      }
      ok := true;
    }

    /** The driver: reads on until a call fails. Everything complete has then been handed out. */
    method Drain() returns (payloads: seq<Bytes>)
      requires Accounted(View())
      modifies this
      ensures Accounted(View())
      ensures input == old(input) && data == old(data) && pool == old(pool)
      ensures output == old(output) + payloads && output == Decode(input)
      ensures payloads == Decode(Pending(old(View())))
    {
      payloads := [];
      var ok := true;
      hide Encode, Header, Value;
      while ok
        invariant Accounted(View())
        invariant input == old(input) && data == old(data) && pool == old(pool)
        invariant output == old(output) + payloads
        invariant !ok ==> |View().Unread()| < if awaits == Payload then next else 4
        decreases ok, |data| - cursor, awaits == Payload
      {
        StepKeeps(View(), Read);
        if awaits == Payload {
          var span;
          ok, span := ReadPayload();
          if ok {
            payloads := payloads + [span];
          }
        } else {
          var len;
          ok, len := ReadHeader();
        }
      }
      NothingComplete(View());
      DecodeEncoded(output, Pending(View()));
      ghost var all := Decode(Pending(old(View())));
      DecodeEncoded(old(output), Pending(old(View())));
      assert payloads == (old(output) + payloads)[|old(output)|..] == (old(output) + all)[|old(output)|..] == all;
    }
  }

  lemma NothingComplete(r: Reader)
    requires InBounds(r) && |r.Unread()| < if r.awaits == Payload then r.next else 4
    ensures Decode(Pending(r)) == []
  {
    if r.awaits == Payload {
      HeaderValue(r.next);
      assert Pending(r)[..4] == Header(r.next);
    }
  }
}
