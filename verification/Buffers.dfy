// A byte vector with a cursor, as the connection's two buffers use it, and what the connection
// does with it: making room for output, and filling the input buffer from the socket.
//
// Reading position, length and capacity are explicit, because the compaction and growth
// decisions are made on them. A vector asked for more room grows to the larger of twice its
// capacity and what is required; with_capacity is exact; a full vector offered to a socket read
// is first given room for at least 64 more bytes.
module Buffers {
  import opened Types

  const READ_CHUNK: nat := 64

  datatype Vec = Vec(data: Bytes, pos: nat, cap: nat) {
    predicate Valid() {
      pos <= |data| <= cap
    }

    /** The bytes between the cursor and the end: received and not yet taken, or accepted and not yet sent. */
    function Unread(): Bytes
      requires Valid()
    {
      data[pos..]
    }

    predicate Full() {
      |data| == cap
    }

    function Reserve(extra: nat): Buf
      requires Valid()
    {
      if cap - |data| >= extra then this else this.(cap := Max(2 * cap, |data| + extra))
    }

    function Append(bytes: Bytes): Buf
      requires Valid()
    {
      var room := Reserve(|bytes|);
      room.(data := data + bytes)
    }

    /** A new vector of the same capacity holding only the unread bytes. */
    function Compacted(): Buf
      requires Valid()
    {
      Vec(data[pos..], 0, cap)
    }

    /** Room for at least one byte from the socket. */
    function Offered(): (b: Buf)
      requires Valid()
      ensures b.data == data && b.pos == pos && |data| < b.cap && cap <= b.cap
      ensures b.cap == if Full() then Max(2 * cap, cap + 64) else cap
    {
      if Full() then Reserve(READ_CHUNK) else this
    }
  }

  /** The cursor never passes the end, and the bytes fit the capacity. */
  type Buf = v: Vec | v.Valid() witness Vec([], 0, 0)

  function WithCapacity(n: nat): Buf {
    Vec([], 0, n)
  }

  // ---------- output: room for a message ----------

  /** Makes the output buffer ready for size more bytes, or refuses. */
  function CheckBufferOut(s: Settings, b: Buf, size: nat): (Buf, Outcome) {
    if b.cap <= |b.data| + size then
      var packed := b.Compacted();
      if packed.Full() then
        if s.outBufferGrow then (packed.Reserve(s.outBufferCapacity), Pass) else (b, Fail(Capacity))
      else (packed, Pass)
    else (b, Pass)
  }

  // ---------- input: the read loop ----------

  /** What one call of the read loop does: the buffer it leaves, the bytes it received, how many
      times it went round again, what the socket still holds, and its answer. */
  datatype Intake = Intake(buf: Buf, got: Bytes, passes: nat, rest: seq<ReadResult>, outcome: Result<Option<nat>>) {
    /** The same call seen one pass earlier. */
    function After(taken: Bytes): Intake {
      this.(got := taken + got, passes := passes + 1)
    }
  }

  function SupplySize(supply: seq<ReadResult>): nat {
    if supply == [] then 0
    else (if supply[0].Data? then |supply[0].bytes| + 1 else 1) + SupplySize(supply[1..])
  }

  /** All the bytes a socket script still holds. */
  function SupplyBytes(supply: seq<ReadResult>): Bytes {
    if supply == [] then []
    else (if supply[0].Data? then supply[0].bytes else []) + SupplyBytes(supply[1..])
  }

  /** One successful read: the vector with the bytes it took, those bytes, and what the script still holds. */
  datatype Filled = Filled(buf: Buf, taken: Bytes, rest: seq<ReadResult>)

  function Fill(b: Buf, supply: seq<ReadResult>): (f: Filled)
    requires supply != [] && supply[0].Data?
    ensures f.buf.pos == b.pos && f.buf.cap == b.Offered().cap >= b.cap
    ensures f.buf.data == b.data + f.taken
    ensures f.buf.Unread() == b.Unread() + f.taken
    ensures SupplyBytes(supply) == f.taken + SupplyBytes(f.rest)
    ensures f.taken == [] <==> supply[0].bytes == []
    ensures SupplySize(f.rest) < SupplySize(supply)
  {
    var offered, bytes := b.Offered(), supply[0].bytes;
    var n := Min(offered.cap - |offered.data|, |bytes|);
    var filled := offered.(data := offered.data + bytes[..n]);
    assert (b.data + bytes[..n])[b.pos..] == b.data[b.pos..] + bytes[..n];
    if n < |bytes| then
      var rest := [Data(bytes[n..])] + supply[1..];
      assert rest[1..] == supply[1..];
      assert bytes == bytes[..n] + bytes[n..];
      Filled(filled, bytes[..n], rest)
    else
      assert bytes[..n] == bytes;
      Filled(filled, bytes, supply[1..])
  }

  /** Where the loop goes after filling a vector: a compacted one, grown if it is still full. */
  function NextInBuffer(s: Settings, b: Buf): (Buf, Outcome) {
    var packed := b.Compacted();
    if packed.Full() then
      if s.inBufferGrow then (packed.Reserve(s.inBufferCapacity), Pass) else (b, Fail(Capacity))
    else (packed, Pass)
  }

  /** One pass of the read loop: it stops with an answer, or goes round again from another vector. */
  datatype Round =
    | Stop(buf: Buf, taken: Bytes, rest: seq<ReadResult>, outcome: Result<Option<nat>>)
    | Again(buf: Buf, taken: Bytes, rest: seq<ReadResult>)

  function OnePass(s: Settings, b: Buf, supply: seq<ReadResult>): (p: Round)
    ensures p.Again? ==> SupplySize(p.rest) < SupplySize(supply)
  {
    if supply == [] then Stop(b.Offered(), [], supply, Ok(None))
    else match supply[0] {
      case ReadBlocks => Stop(b.Offered(), [], supply[1..], Ok(None))
      case ReadFails(errno) => Stop(b.Offered(), [], supply[1..], Err(Io(errno)))
      case Data(_) =>
        var f := Fill(b, supply);
        if f.taken == [] || !f.buf.Full() then Stop(f.buf, f.taken, f.rest, Ok(Some(|f.buf.data|)))
        else
          var (next, room) := NextInBuffer(s, f.buf);
          if room.Fail? then Stop(f.buf, f.taken, f.rest, Err(room.error)) else Again(next, f.taken, f.rest)
    }
  }

  function BufferIn(s: Settings, b: Buf, supply: seq<ReadResult>): Intake
    decreases SupplySize(supply)
  {
    var p := OnePass(s, b, supply);
    if p.Stop? then Intake(p.buf, p.taken, 0, p.rest, p.outcome)
    else BufferIn(s, p.buf, p.rest).After(p.taken)
  }

  // ---------- properties of the output side ----------

  /** Making room never changes the unsent bytes; it is refused exactly when growth is off and
      the whole capacity is unsent, and then nothing moves. */
  lemma CheckBufferOutKeepsUnsent(s: Settings, b: Buf, size: nat)
    ensures var (b', r) := CheckBufferOut(s, b, size);
      && b'.Unread() == b.Unread()
      && (r.Fail? <==> !s.outBufferGrow && |b.Unread()| == b.cap)
      && (r.Fail? ==> r.error == Capacity && b' == b)
      && (|b.data| + size < b.cap ==> b' == b)
  {
  }

  /** An append adds exactly the message to the unsent bytes. It enlarges the vector only when no
      already-sent byte is left in it, and then at least doubles it, to at most the configured capacity
      plus twice the unsent bytes it leaves. */
  lemma AppendSpace(s: Settings, b: Buf, bytes: Bytes)
    ensures var (b', r) := CheckBufferOut(s, b, |bytes|);
      r.Pass? ==>
        var b'' := b'.Append(bytes);
        && b''.Unread() == b.Unread() + bytes
        && b''.cap >= b.cap
        && (b''.cap > b.cap ==> b''.pos == 0 && b''.data == b.Unread() + bytes)
        && (b''.cap > b.cap ==> 2 * b.cap <= b''.cap <= s.outBufferCapacity + 2 * |b''.Unread()|)
        && (|b.Unread()| == b.cap && b.cap <= |b.data| + |bytes| ==> b''.cap >= b.cap + s.outBufferCapacity)
  {
  }

  /** Turning growth off does not bound the output vector: an accepted message still enlarges it
      exactly when it does not fit beside the unsent bytes. */
  lemma GrowthOffStillEnlarges(s: Settings, b: Buf, bytes: Bytes)
    requires !s.outBufferGrow && CheckBufferOut(s, b, |bytes|).1.Pass?
    ensures CheckBufferOut(s, b, |bytes|).0.Append(bytes).cap > b.cap <==> |b.Unread()| + |bytes| > b.cap
  {
  }

  // ---------- properties of the read loop ----------

  lemma NextInBufferKeepsUnread(s: Settings, b: Buf)
    ensures var (b', r) := NextInBuffer(s, b);
      && b'.Unread() == b.Unread()
      && b'.cap >= b.cap
      && (b.Full() ==> (r.Fail? <==> !s.inBufferGrow && b.pos == 0))
      && (r.Fail? ==> r.error == Capacity && b' == b)
      && (r.Pass? ==> b'.pos == 0)
      && (b.Full() && r.Pass? && b.pos == 0 ==> b'.Offered().cap >= 2 * b.cap)
  {
  }

  lemma Regroup(a: Bytes, b: Bytes, c: Bytes)
    ensures (a + b) + c == a + (b + c)
  {
  }

  lemma OnePassStream(s: Settings, b: Buf, supply: seq<ReadResult>)
    ensures var p := OnePass(s, b, supply);
      && p.buf.cap >= b.cap
      && p.buf.Unread() == b.Unread() + p.taken
      && SupplyBytes(supply) == p.taken + SupplyBytes(p.rest)
  {
    if supply != [] && supply[0].Data? {
      NextInBufferKeepsUnread(s, Fill(b, supply).buf);
    }
  }

  /** Compaction and growth are invisible: the bytes received are exactly what left the socket's
      script, in order, and they follow the bytes that were already unread. */
  lemma {:induction false} BufferInStream(s: Settings, b: Buf, supply: seq<ReadResult>)
    ensures var r := BufferIn(s, b, supply);
      && r.buf.cap >= b.cap
      && r.buf.Unread() == b.Unread() + r.got
      && SupplyBytes(supply) == r.got + SupplyBytes(r.rest)
    decreases SupplySize(supply)
  {
    var p := OnePass(s, b, supply);
    OnePassStream(s, b, supply);
    if p.Again? {
      BufferInStream(s, p.buf, p.rest);
      var rest := BufferIn(s, p.buf, p.rest);
      Regroup(b.Unread(), p.taken, rest.got);
      Regroup(p.taken, rest.got, SupplyBytes(rest.rest));
    }
  }

  function Pow2(k: nat): nat {
    if k == 0 then 1 else 2 * Pow2(k - 1)
  }

  /** n doubled k times. */
  function Doubled(n: nat, k: nat): nat
    decreases k
  {
    if k == 0 then n else Doubled(2 * n, k - 1)
  }

  lemma {:induction false} DoubledIsPow2(n: nat, k: nat)
    ensures Doubled(n, k) == Pow2(k) * n
    decreases k
  {
    if k != 0 {
      DoubledIsPow2(2 * n, k - 1);
      var p := Pow2(k - 1);
      assert p * (2 * n) == (2 * p) * n;
    }
  }

  lemma {:induction false} DoubledMonotone(small: nat, large: nat, k: nat)
    requires small <= large
    ensures Doubled(small, k) <= Doubled(large, k)
    decreases k
  {
    if k != 0 {
      DoubledMonotone(2 * small, 2 * large, k - 1);
    }
  }

  /** Every pass of a call doubled a vector of this capacity, out of so many unread bytes and those received. */
  predicate PassesBounded(cap: nat, r: Intake, unread: nat) {
    r.passes > 0 ==> Doubled(cap, r.passes - 1) <= unread + |r.got|
  }

  /** Going round from a vector with nothing before its cursor means it was filled with unread
      bytes, and at least doubles it; from any other it may only compact it. */
  lemma OnePassDoubles(s: Settings, b: Buf, supply: seq<ReadResult>)
    requires OnePass(s, b, supply).Again?
    ensures var p := OnePass(s, b, supply);
      && p.buf.pos == 0 && b.cap <= p.buf.Offered().cap
      && |p.buf.Unread()| == |b.Unread()| + |p.taken|
      && (b.pos == 0 ==> b.Offered().cap == |b.Unread()| + |p.taken| && 2 * b.Offered().cap <= p.buf.Offered().cap)
  {
  }

  /** A bound on the passes after one that at least doubled the capacity bounds them all. */
  lemma OnePassMore(cap: nat, cap': nat, unread: nat, taken: Bytes, rest: Intake)
    requires 2 * cap <= cap' && cap <= unread + |taken| && PassesBounded(cap', rest, unread + |taken|)
    ensures PassesBounded(cap, rest.After(taken), unread)
  {
    if rest.passes > 0 {
      DoubledMonotone(2 * cap, cap', rest.passes - 1);
    }
  }

  /** From a buffer with nothing before its cursor every further pass at least doubles the capacity. */
  lemma {:induction false} PassesDouble(s: Settings, b: Buf, supply: seq<ReadResult>)
    requires b.pos == 0
    ensures PassesBounded(b.Offered().cap, BufferIn(s, b, supply), |b.Unread()|)
    decreases SupplySize(supply)
  {
    var p := OnePass(s, b, supply);
    if p.Again? {
      OnePassDoubles(s, b, supply);
      PassesDouble(s, p.buf, p.rest);
      OnePassMore(b.Offered().cap, p.buf.Offered().cap, |b.Unread()|, p.taken, BufferIn(s, p.buf, p.rest));
    }
  }

  /** The first further pass may merely compact, so it counts for nothing. */
  lemma OnePassFirst(cap: nat, cap': nat, unread: nat, taken: Bytes, rest: Intake)
    requires cap <= cap' && PassesBounded(cap', rest, unread + |taken|)
    ensures var r := rest.After(taken); r.passes >= 2 ==> Pow2(r.passes - 2) * cap <= unread + |r.got|
  {
    if rest.passes > 0 {
      DoubledMonotone(cap, cap', rest.passes - 1);
      DoubledIsPow2(cap, rest.passes - 1);
    }
  }

  /** The read loop goes round logarithmically often: k >= 2 passes need 2^(k-2) times the entry
      capacity in bytes, because at most one pass merely compacts. */
  lemma LogarithmicPasses(s: Settings, b: Buf, supply: seq<ReadResult>)
    ensures var r := BufferIn(s, b, supply);
      r.passes >= 2 ==> Pow2(r.passes - 2) * b.cap <= |b.Unread()| + |r.got|
  {
    var p := OnePass(s, b, supply);
    if p.Again? {
      OnePassDoubles(s, b, supply);
      PassesDouble(s, p.buf, p.rest);
      OnePassFirst(b.cap, p.buf.Offered().cap, |b.Unread()|, p.taken, BufferIn(s, p.buf, p.rest));
    }
  }

  // ---------- when a read loop hands its bytes over ----------

  /** The capacity a vector full of unread bytes is offered to the next read with. */
  function Grown(s: Settings, cap: nat): nat {
    Max(2 * cap, cap + if s.inBufferCapacity > 0 then s.inBufferCapacity else READ_CHUNK)
  }

  /** total is base, or base doubled a number of times. */
  predicate IsDoubling(base: nat, total: nat)
    decreases total - base
  {
    total == base || (0 < base < total && IsDoubling(2 * base, total))
  }

  /** Whether total unread bytes end exactly where some vector of the loop is full: the one offered
      first, of so much capacity and with its cursor there, the same compacted, or one grown. */
  predicate FillsExactly(s: Settings, cap: nat, pos: nat, total: nat) {
    || (pos + total == cap && (pos > 0 || s.inBufferGrow))
    || (s.inBufferGrow && ((pos > 0 && total == cap) || IsDoubling(Grown(s, cap), total)))
  }

  predicate Overflows(s: Settings, cap: nat, total: nat) {
    !s.inBufferGrow && total >= cap
  }

  /** What becomes of the bytes of a read: handed over after so many answers of the socket, held
      back after so many, or refused for want of room. */
  datatype Fate = Handed(answers: nat) | Held(answers: nat) | Overrun {
    function After1(): Fate {
      if Overrun? then Overrun else this.(answers := answers + 1)
    }

    predicate Within(n: nat) {
      (Handed? ==> 0 < answers <= n) && (Held? ==> answers <= n)
    }
  }

  /** The fate of a read by the lengths of the socket's answers alone: it hands over at the end of
      stream, or after a burst that fits without filling a vector exactly. A burst that does fill
      one is held until the next answer. */
  function FateOf(s: Settings, cap: nat, pos: nat, unread: nat, supply: seq<ReadResult>): (f: Fate)
    ensures f.Within(|supply|)
    decreases |supply|
  {
    if supply == [] || !supply[0].Data? then Held(0)
    else
      var total := unread + |supply[0].bytes|;
      if supply[0].bytes == [] then Handed(1)
      else if FillsExactly(s, cap, pos, total) then
        FateOf(s, if pos > 0 && pos + total == cap then cap else Grown(s, total), 0, total, supply[1..]).After1()
      else if Overflows(s, cap, total) then Overrun
      else Handed(1)
  }

  lemma {:induction false} DoublingIsAbove(base: nat, total: nat)
    requires IsDoubling(base, total)
    ensures base <= total
    decreases total - base
  {
  }

  /** Growing twice doubles the second time. */
  lemma GrownTwice(s: Settings, cap: nat)
    ensures Grown(s, Grown(s, cap)) == 2 * Grown(s, cap)
  {
  }

  /** What is left of a burst that overran one vector fills the next exactly when all of it does. */
  lemma RestFillsToo(s: Settings, cap: nat, pos: nat, total: nat)
    requires 0 < cap < pos + total && (pos > 0 || s.inBufferGrow)
    ensures var cap' := if pos > 0 then cap else Grown(s, cap);
      && (FillsExactly(s, cap', 0, total) <==> FillsExactly(s, cap, pos, total))
      && (Overflows(s, cap', total) <==> Overflows(s, cap, total))
  {
    if pos == 0 {
      GrownTwice(s, cap);
      if IsDoubling(2 * Grown(s, cap), total) {
        DoublingIsAbove(2 * Grown(s, cap), total);
      }
    }
  }

  /** A burst that stops short of the end of the vector fills none. */
  lemma ShortFillsNone(s: Settings, cap: nat, pos: nat, total: nat)
    requires pos + total < cap
    ensures !FillsExactly(s, cap, pos, total) && !Overflows(s, cap, total)
  {
    if IsDoubling(Grown(s, cap), total) {
      DoublingIsAbove(Grown(s, cap), total);
    }
  }

  function FateFrom(s: Settings, b: Buf, supply: seq<ReadResult>): Fate {
    FateOf(s, b.Offered().cap, b.pos, |b.Unread()|, supply)
  }

  /** What a loop answers that holds its bytes back after k answers of the socket: a failure if that is
      what comes next. */
  function HeldAnswer(supply: seq<ReadResult>, k: nat): Result<Option<nat>> {
    if k < |supply| && supply[k].ReadFails? then Err(Io(supply[k].errno)) else Ok(None)
  }

  /** The answer of a read loop that meets this fate, and the bytes it received. */
  predicate Meets(r: Intake, f: Fate, supply: seq<ReadResult>) {
    f.Within(|supply|) &&
    match f
    case Handed(k) => r.outcome.Ok? && r.outcome.value.Some? && r.got == SupplyBytes(supply[..k])
    case Held(k) => r.outcome == HeldAnswer(supply, k) && r.got == SupplyBytes(supply[..k])
    case Overrun => r.outcome == Err(Capacity)
  }

  /** The vector a pass goes round with, of what a first one of this capacity and cursor held. */
  predicate GoesOn(s: Settings, cap: nat, pos: nat, next: Buf) {
    && (pos > 0 || s.inBufferGrow) && pos <= cap
    && next.pos == 0 && |next.Unread()| == cap - pos
    && next.Offered().cap == if pos > 0 then cap else Grown(s, cap)
  }

  /** Going round means that the burst reached the end of the vector. */
  lemma AgainGoesOn(s: Settings, b: Buf, supply: seq<ReadResult>)
    requires OnePass(s, b, supply).Again?
    ensures var p, cap, n := OnePass(s, b, supply), b.Offered().cap, b.Offered().cap - |b.data|;
      && supply != [] && supply[0].Data? && n <= |supply[0].bytes| && p.taken == supply[0].bytes[..n]
      && p.rest == (if n == |supply[0].bytes| then supply[1..] else [Data(supply[0].bytes[n..])] + supply[1..])
      && GoesOn(s, cap, b.pos, p.buf)
  {
  }

  /** With the whole of a burst taken the loop goes on with the next answer. */
  lemma FateAfterBurst(s: Settings, b: Buf, supply: seq<ReadResult>, next: Buf)
    requires supply != [] && supply[0].Data? && |supply[0].bytes| == b.Offered().cap - |b.data|
    requires GoesOn(s, b.Offered().cap, b.pos, next)
    ensures FateFrom(s, b, supply) == FateFrom(s, next, supply[1..]).After1()
  {
    var cap, total := b.Offered().cap, |b.Unread()| + |supply[0].bytes|;
    assert FillsExactly(s, cap, b.pos, total);
  }

  /** The fate of a burst is that of what is left of it once it has filled a vector. */
  lemma RestFate(s: Settings, cap: nat, pos: nat, unread: nat, supply: seq<ReadResult>, n: nat)
    requires supply != [] && supply[0].Data? && n < |supply[0].bytes|
    requires 0 < cap == pos + unread + n && (pos > 0 || s.inBufferGrow)
    ensures var rest := [Data(supply[0].bytes[n..])] + supply[1..];
      FateOf(s, if pos > 0 then cap else Grown(s, cap), 0, cap - pos, rest) == FateOf(s, cap, pos, unread, supply)
  {
    assert ([Data(supply[0].bytes[n..])] + supply[1..])[1..] == supply[1..];
    RestFillsToo(s, cap, pos, unread + |supply[0].bytes|);
  }

  /** In the middle of a burst it goes on with what is left of it, which has the same fate. */
  lemma FateInBurst(s: Settings, b: Buf, supply: seq<ReadResult>, next: Buf)
    requires supply != [] && supply[0].Data? && |supply[0].bytes| > b.Offered().cap - |b.data|
    requires GoesOn(s, b.Offered().cap, b.pos, next)
    ensures var n := b.Offered().cap - |b.data|;
      FateFrom(s, next, [Data(supply[0].bytes[n..])] + supply[1..]) == FateFrom(s, b, supply)
  {
    RestFate(s, b.Offered().cap, b.pos, |b.Unread()|, supply, b.Offered().cap - |b.data|);
  }

  /** The bytes of a burst and of the answers after it, the first n of them taken apart. */
  lemma SplitBurst(supply: seq<ReadResult>, n: nat, k: nat)
    requires supply != [] && supply[0].Data? && n <= |supply[0].bytes| && 0 < k <= |supply|
    ensures var rest := [Data(supply[0].bytes[n..])] + supply[1..];
      SupplyBytes(supply[..k]) == supply[0].bytes[..n] + SupplyBytes(rest[..k])
  {
    var bytes, rest := supply[0].bytes, [Data(supply[0].bytes[n..])] + supply[1..];
    assert rest[..k][1..] == supply[..k][1..];
    assert bytes == bytes[..n] + bytes[n..];
    Regroup(bytes[..n], bytes[n..], SupplyBytes(supply[..k][1..]));
  }

  /** What a pass that goes round leaves to show. */
  lemma AgainMeets(s: Settings, b: Buf, supply: seq<ReadResult>, r: Intake)
    requires var p := OnePass(s, b, supply); p.Again? && Meets(r, FateFrom(s, p.buf, p.rest), p.rest)
    ensures Meets(r.After(OnePass(s, b, supply).taken), FateFrom(s, b, supply), supply)
  {
    var p, n := OnePass(s, b, supply), b.Offered().cap - |b.data|;
    AgainGoesOn(s, b, supply);
    var f := FateFrom(s, b, supply);
    if |supply[0].bytes| == n {
      FateAfterBurst(s, b, supply, p.buf);
      if !f.Overrun? {
        assert supply[..f.answers][1..] == p.rest[..f.answers - 1];
      }
    } else {
      FateInBurst(s, b, supply, p.buf);
      if !f.Overrun? {
        HeldAfterOne(s, b, supply);
        SplitBurst(supply, n, f.answers);
      }
    }
  }

  /** A first answer that fills the vector is used up. */
  lemma HeldAfterOne(s: Settings, b: Buf, supply: seq<ReadResult>)
    requires OnePass(s, b, supply).Again? && !FateFrom(s, b, supply).Overrun?
    ensures FateFrom(s, b, supply).answers > 0
  {
  }

  lemma StopMeets(s: Settings, b: Buf, supply: seq<ReadResult>)
    requires OnePass(s, b, supply).Stop?
    ensures Meets(BufferIn(s, b, supply), FateFrom(s, b, supply), supply)
  {
    if supply != [] && supply[0].Data? {
      assert supply[..1] == [supply[0]];
      assert SupplyBytes([supply[0]]) == supply[0].bytes + SupplyBytes([]);
      if |supply[0].bytes| < b.Offered().cap - |b.data| {
        ShortFillsNone(s, b.Offered().cap, b.pos, |b.Unread()| + |supply[0].bytes|);
      }
    }
  }

  /** The read loop meets the fate that the lengths of the socket's answers foretell. */
  lemma {:induction false} MeetsFate(s: Settings, b: Buf, supply: seq<ReadResult>)
    ensures Meets(BufferIn(s, b, supply), FateFrom(s, b, supply), supply)
    decreases SupplySize(supply)
  {
    var p := OnePass(s, b, supply);
    if p.Again? {
      MeetsFate(s, p.buf, p.rest);
      AgainMeets(s, b, supply, BufferIn(s, p.buf, p.rest));
    } else {
      StopMeets(s, b, supply);
    }
  }

  lemma {:induction false} GrowthNeverOverruns(s: Settings, cap: nat, pos: nat, unread: nat, supply: seq<ReadResult>)
    requires s.inBufferGrow
    ensures FateOf(s, cap, pos, unread, supply) != Overrun
    decreases |supply|
  {
    if supply != [] && supply[0].Data? {
      var total := unread + |supply[0].bytes|;
      GrowthNeverOverruns(s, if pos > 0 && pos + total == cap then cap else Grown(s, total), 0, total, supply[1..]);
    }
  }

  lemma {:induction false} CapacityMeansFull(s: Settings, b: Buf, supply: seq<ReadResult>)
    requires !s.inBufferGrow
    ensures var r := BufferIn(s, b, supply);
      r.outcome == Err(Capacity) ==> |b.Unread()| + |r.got| == b.Offered().cap
    decreases SupplySize(supply)
  {
    var p := OnePass(s, b, supply);
    if p.Again? {
      OnePassDoubles(s, b, supply);
      AgainGoesOn(s, b, supply);
      CapacityMeansFull(s, p.buf, p.rest);
    }
  }

  /** A read that runs out of room has received what fills the vector beside the bytes already unread. */
  lemma OverrunTakesWhatFits(s: Settings, b: Buf, supply: seq<ReadResult>)
    requires FateFrom(s, b, supply).Overrun?
    ensures var got, room := BufferIn(s, b, supply).got, b.Offered().cap - |b.Unread()|;
      room <= |SupplyBytes(supply)| && got == SupplyBytes(supply)[..room]
  {
    if s.inBufferGrow {
      GrowthNeverOverruns(s, b.Offered().cap, b.pos, |b.Unread()|, supply);
    }
    MeetsFate(s, b, supply);
    CapacityMeansFull(s, b, supply);
    BufferInStream(s, b, supply);
  }

  /** The loop answers with an empty vector only for an end of stream that is the first answer, when
      the vector was empty already. */
  lemma {:induction false} AnswersEmptyExactly(s: Settings, b: Buf, supply: seq<ReadResult>)
    ensures BufferIn(s, b, supply).outcome == Ok(Some(0)) <==> supply != [] && supply[0] == Data([]) && b.data == []
    decreases SupplySize(supply)
  {
    var p := OnePass(s, b, supply);
    if p.Again? {
      OnePassDoubles(s, b, supply);
      AnswersEmptyExactly(s, p.buf, p.rest);
    }
  }

  // ---------- an input vector that may not grow ----------

  lemma OnePassHardBound(s: Settings, b: Buf, supply: seq<ReadResult>)
    requires !s.inBufferGrow && |b.data| < b.cap
    ensures var p := OnePass(s, b, supply);
      && p.buf.cap == b.cap
      && (p.Again? ==> |p.buf.data| < b.cap)
      && (p.Stop? ==> (p.outcome == Err(Capacity) <==> |p.buf.Unread()| == b.cap)
                      && (p.outcome != Err(Capacity) ==> |p.buf.data| < b.cap))
  {
  }

  /** With growth off, a buffer below its configured capacity stays strictly below it, except that
      the call that answers Capacity leaves it full of unread bytes, none of them lost. */
  lemma {:induction false} HardInputBound(s: Settings, b: Buf, supply: seq<ReadResult>)
    requires !s.inBufferGrow && |b.data| < b.cap
    ensures var r := BufferIn(s, b, supply);
      && r.buf.cap == b.cap
      && (r.outcome == Err(Capacity) <==> |r.buf.Unread()| == b.cap)
      && (r.outcome != Err(Capacity) ==> |r.buf.data| < b.cap)
    decreases SupplySize(supply)
  {
    var p := OnePass(s, b, supply);
    OnePassHardBound(s, b, supply);
    if p.Again? {
      HardInputBound(s, p.buf, p.rest);
    }
  }
}
