// What every operation of a connection keeps, for all answers of the socket and the handler.
module ConnectionProofs {
  import opened Types
  import opened Buffers
  import opened ConnectionSpec

  /** The texts handed to the handler, in order. */
  function Delivered(calls: seq<Callback>): seq<Bytes> {
    if calls == [] then []
    else
      var front, last := calls[..|calls| - 1], calls[|calls| - 1];
      if last.OnMessage? then Delivered(front) + [last.text] else Delivered(front)
  }

  lemma DeliveredSnoc(calls: seq<Callback>, last: Callback)
    ensures Delivered(calls + [last]) ==
            if last.OnMessage? then Delivered(calls) + [last.text] else Delivered(calls)
  {
  }

  // ---------- the two byte streams ----------

  /** Output is a byte queue: what the socket took, then what is unsent, is what was accepted. */
  predicate OutputIsFifo(c: Conn) {
    c.trace.sent + c.Unsent() == Flatten(c.trace.accepted)
  }

  /** Input is a byte queue: what was received is the chunks taken, then what is unread; and the
      handler got exactly the chunks that are text. */
  predicate InputIsFifo(c: Conn) {
    && c.trace.received == Flatten(c.trace.taken) + c.input.Unread()
    && Delivered(c.trace.calls) == TextChunks(c.trace.taken)
  }

  predicate SpaceBounded(s: Settings, c: Conn) {
    && |c.Unsent()| <= c.trace.peak
    && s.outBufferCapacity <= c.output.cap <= s.outBufferCapacity + 2 * c.trace.peak
    && s.inBufferCapacity <= c.input.cap
  }

  predicate Sound(s: Settings, c: Conn) {
    && OutputIsFifo(c)
    && InputIsFifo(c)
    && SpaceBounded(s, c)
  }

  /** Past the handshake and not finished. */
  predicate Settled(c: Conn) {
    c.state.Open? || c.state.AwaitingClose?
  }

  predicate SameIdentity(c: Conn, c': Conn) {
    c'.token == c.token && c'.id == c.id && c'.handler == c.handler
  }

  /** c' is a possible later value of c: nothing recorded is undone, and a close is final, for the
      state and for the messages accepted. */
  predicate Evolves(c: Conn, c': Conn) {
    && SameIdentity(c, c')
    && c.trace.calls <= c'.trace.calls
    && c.trace.received <= c'.trace.received
    && c.trace.taken <= c'.trace.taken
    && c.trace.accepted <= c'.trace.accepted
    && c.trace.sent <= c'.trace.sent
    && (c.state.IsClosing() ==> c'.state.IsClosing() && c'.trace.accepted == c.trace.accepted)
  }

  /** Evolves, without accepting a message. */
  predicate Quiet(c: Conn, c': Conn) {
    Evolves(c, c') && c'.trace.accepted == c.trace.accepted
  }

  /** What holds of a connection between operations, and of every later value. */
  predicate Kept(s: Settings, c: Conn, c': Conn) {
    Sound(s, c') && Settled(c') && Evolves(c, c')
  }

  lemma EvolvesTrans(a: Conn, b: Conn, c: Conn)
    requires Evolves(a, b) && Evolves(b, c)
    ensures Evolves(a, c)
    ensures Quiet(a, b) && Quiet(b, c) ==> Quiet(a, c)
  {
  }

  // ---------- operations that only talk to the handler ----------

  /** Only the state, the interest and the calls other than OnMessage differ. */
  predicate OnlyCalls(c: Conn, c': Conn) {
    && SameIdentity(c, c')
    && c'.input == c.input && c'.output == c.output
    && c'.trace == c.trace.(calls := c'.trace.calls)
    && c.trace.calls <= c'.trace.calls
    && Delivered(c'.trace.calls) == Delivered(c.trace.calls)
    && (Settled(c) ==> Settled(c'))
    && (c.state.AwaitingClose? ==> c'.state.AwaitingClose?)
  }

  lemma OnlyCallsKeeps(s: Settings, c: Conn, c': Conn)
    requires Sound(s, c) && Settled(c) && OnlyCalls(c, c')
    ensures Kept(s, c, c') && Quiet(c, c')
  {
  }

  lemma CalledOnlyCalls(c: Conn, call: Callback)
    requires !call.OnMessage?
    ensures OnlyCalls(c, c.Called(call))
  {
  }

  lemma SendCloseOnlyCalls(c: Conn)
    ensures OnlyCalls(c, SendClose(c))
  {
  }

  lemma DisconnectOnlyCalls(c: Conn)
    ensures OnlyCalls(c, Disconnect(c))
  {
  }

  lemma EndOfStreamOnlyCalls(c: Conn)
    ensures OnlyCalls(c, EndOfStream(c))
  {
  }

  lemma OnlyCallsTrans(a: Conn, b: Conn, c: Conn)
    requires OnlyCalls(a, b) && OnlyCalls(b, c)
    ensures OnlyCalls(a, c)
  {
  }

  lemma ErrorOnlyCalls(s: Settings, c: Conn, kind: Kind)
    ensures OnlyCalls(c, Error(s, c, kind))
  {
    var c1 := c.Called(OnError(kind));
    CalledOnlyCalls(c, OnError(kind));
    if c.state.Connecting? || s.PanicsOn(kind) {
    } else if ClosesOn(kind) {
      SendCloseOnlyCalls(c1);
      OnlyCallsTrans(c, c1, SendClose(c1));
    } else if HangsUpOn(kind) {
      DisconnectOnlyCalls(c1);
      OnlyCallsTrans(c, c1, Disconnect(c1));
    }
  }

  lemma ErrorKeeps(s: Settings, c: Conn, kind: Kind)
    requires Sound(s, c) && Settled(c)
    ensures var c' := Error(s, c, kind); Kept(s, c, c') && Quiet(c, c')
  {
    ErrorOnlyCalls(s, c, kind);
    OnlyCallsKeeps(s, c, Error(s, c, kind));
  }

  // ---------- operations on the buffers ----------

  /** What a message taken leaves, before the interest is brought up to date. */
  function Buffered(s: Settings, c: Conn, msg: Bytes): Conn {
    var b := CheckBufferOut(s, c.output, |msg|).0.Append(msg);
    c.(output := b, trace := c.trace.(accepted := c.trace.accepted + [msg], peak := Max(c.trace.peak, |b.Unread()|)))
  }

  lemma SendMessageCases(s: Settings, c: Conn, msg: Bytes)
    ensures var r, room := SendMessage(s, c, msg), CheckBufferOut(s, c.output, |msg|).1;
      r == if c.state.IsClosing() then (c, Pass) else if room.Fail? then (c, room)
           else (CheckEvents(Buffered(s, c, msg)), Pass)
  {
  }

  /** A message is taken whole or not at all: it is ignored when closing, refused exactly when
      growth is off and the full capacity is unsent, and otherwise appended to what is unsent. */
  lemma SendMessageOutcome(s: Settings, c: Conn, msg: Bytes)
    ensures var (c', r) := SendMessage(s, c, msg);
      && (r.Fail? <==> !c.state.IsClosing() && !s.outBufferGrow && |c.Unsent()| == c.output.cap)
      && (r.Fail? ==> r.error == Capacity)
      && (if c.state.IsClosing() || r.Fail? then c' == c
          else && c'.Unsent() == c.Unsent() + msg
               && c'.trace.accepted == c.trace.accepted + [msg])
  {
    SendMessageCases(s, c, msg);
    CheckBufferOutKeepsUnsent(s, c.output, |msg|);
    AppendSpace(s, c.output, msg);
  }

  lemma BufferedKeeps(s: Settings, c: Conn, msg: Bytes)
    requires Sound(s, c) && Settled(c) && !c.state.IsClosing() && CheckBufferOut(s, c.output, |msg|).1.Pass?
    ensures Kept(s, c, Buffered(s, c, msg))
  {
    var c1 := Buffered(s, c, msg);
    CheckBufferOutKeepsUnsent(s, c.output, |msg|);
    AppendSpace(s, c.output, msg);
    assert OutputIsFifo(c1) by {
      FlattenSnoc(c.trace.accepted, msg);
      Regroup(c.trace.sent, c.Unsent(), msg);
    }
  }

  lemma SendMessageKeeps(s: Settings, c: Conn, msg: Bytes)
    requires Sound(s, c) && Settled(c)
    ensures Kept(s, c, SendMessage(s, c, msg).0)
  {
    SendMessageCases(s, c, msg);
    if !c.state.IsClosing() && CheckBufferOut(s, c.output, |msg|).1.Pass? {
      var c1 := Buffered(s, c, msg);
      BufferedKeeps(s, c, msg);
      EventsKeep(s, c1, CheckEvents(c1).events);
    }
  }

  lemma SentKeeps(s: Settings, c: Conn, n: nat)
    requires Sound(s, c) && Settled(c) && n <= |c.Unsent()|
    ensures var c' := Sent(c, n); Kept(s, c, c') && Quiet(c, c')
  {
  }

  lemma EventsKeep(s: Settings, c: Conn, events: Interest)
    requires Sound(s, c) && Settled(c)
    ensures var c' := c.(events := events); Kept(s, c, c') && Quiet(c, c')
  {
  }

  lemma WriteKeeps(s: Settings, c: Conn, answer: WriteResult)
    requires Sound(s, c) && Settled(c)
    ensures var c' := Write(c, answer).0; Kept(s, c, c') && Quiet(c, c')
  {
    var c1 := c.(events := c.events.(writable := false));
    EventsKeep(s, c, c1.events);
    if answer.Takes? {
      var n := Min(answer.count, |c1.Unsent()|);
      SentKeeps(s, c1, n);
      EvolvesTrans(c, c1, Sent(c1, n));
      EventsKeep(s, Sent(c1, n), CheckEvents(Sent(c1, n)).events);
    }
  }

  lemma ReceivedKeeps(s: Settings, c: Conn, supply: seq<ReadResult>)
    requires Sound(s, c) && Settled(c)
    ensures var c' := Received(c, BufferIn(s, c.input, supply)); Kept(s, c, c') && Quiet(c, c')
  {
    var r := BufferIn(s, c.input, supply);
    BufferInStream(s, c.input, supply);
    Regroup(Flatten(c.trace.taken), c.input.Unread(), r.got);
  }

  lemma ReadDataKeeps(s: Settings, c: Conn, reply: Option<Kind>)
    requires Sound(s, c) && Settled(c)
    ensures var c' := ReadData(c, reply).0; Kept(s, c, c') && Quiet(c, c')
  {
    var chunk := c.input.Unread();
    FlattenSnoc(c.trace.taken, chunk);
    TextChunksSnoc(c.trace.taken, chunk);
    DeliveredSnoc(c.trace.calls, OnMessage(chunk));
  }

  lemma EndOfStreamKeeps(s: Settings, c: Conn)
    requires Sound(s, c) && Settled(c)
    ensures var c' := EndOfStream(c); Kept(s, c, c') && Quiet(c, c')
  {
    EndOfStreamOnlyCalls(c);
    OnlyCallsKeeps(s, c, EndOfStream(c));
  }

  lemma DeliverKeeps(s: Settings, c: Conn, len: nat, reply: Option<Kind>)
    requires Sound(s, c) && Settled(c)
    ensures var c' := Deliver(c, len, reply).0; Kept(s, c, c') && Quiet(c, c')
  {
    var (c1, taken) := ReadData(c, reply);
    ReadDataKeeps(s, c, reply);
    if taken.Pass? && len == 0 {
      EndOfStreamKeeps(s, c1);
      EvolvesTrans(c, c1, EndOfStream(c1));
    }
  }

  lemma ReadKeeps(s: Settings, c: Conn, supply: seq<ReadResult>, reply: Option<Kind>)
    requires Sound(s, c) && Settled(c)
    ensures var c' := Read(s, c, supply, reply).0; Kept(s, c, c') && Quiet(c, c')
  {
    var r := BufferIn(s, c.input, supply);
    var c1 := Received(c, r);
    ReceivedKeeps(s, c, supply);
    if r.outcome.Ok? && r.outcome.value.Some? {
      DeliverKeeps(s, c1, r.outcome.value.value, reply);
      EvolvesTrans(c, c1, Deliver(c1, r.outcome.value.value, reply).0);
    }
  }

  /** What delivery makes of everything unread: one chunk, handed to the handler if it is text, and
      an encoding error if not. */
  predicate HandedOver(c: Conn, all: Bytes, reply: Option<Kind>, c': Conn, r: Outcome) {
    && c'.trace.taken == c.trace.taken + [all] && c'.input.Unread() == []
    && (if ValidUtf8(all) then r == Answer(reply) && c.trace.calls + [OnMessage(all)] <= c'.trace.calls
        else r == Fail(Encoding) && c'.trace.calls == c.trace.calls)
  }

  predicate HeldBack(c: Conn, all: Bytes, c': Conn) {
    c'.trace.taken == c.trace.taken && c'.trace.calls == c.trace.calls && c'.input.Unread() == all
  }

  lemma DeliverHandsOver(c: Conn, len: nat, reply: Option<Kind>)
    ensures var (c', r) := Deliver(c, len, reply); HandedOver(c, c.input.Unread(), reply, c', r)
  {
  }

  /** What the lengths of the socket's answers foretell of a read. */
  function ReadFate(s: Settings, c: Conn, supply: seq<ReadResult>): Fate {
    FateOf(s, c.input.Offered().cap, c.input.pos, |c.input.Unread()|, supply)
  }

  function HeldOutcome(supply: seq<ReadResult>, k: nat): Outcome {
    if k < |supply| && supply[k].ReadFails? then Fail(Io(supply[k].errno)) else Pass
  }

  /** What a read does of which this was foretold. */
  predicate ReadMeets(c: Conn, f: Fate, supply: seq<ReadResult>, reply: Option<Kind>, c': Conn, r: Outcome)
    requires f.Within(|supply|)
  {
    var all := c.input.Unread() + SupplyBytes(supply);
    match f
    case Handed(k) => HandedOver(c, c.input.Unread() + SupplyBytes(supply[..k]), reply, c', r)
    case Held(k) => HeldBack(c, c.input.Unread() + SupplyBytes(supply[..k]), c') && r == HeldOutcome(supply, k)
    case Overrun =>
      var cap := c.input.Offered().cap;
      cap <= |all| && HeldBack(c, all[..cap], c') && r == Fail(Capacity)
  }

  /** A read from what its loop answered. */
  function AfterIntake(c: Conn, r: Intake, reply: Option<Kind>): (Conn, Outcome) {
    match r.outcome
    case Err(kind) => (Received(c, r), Fail(kind))
    case Ok(None) => (Received(c, r), Pass)
    case Ok(Some(len)) => Deliver(Received(c, r), len, reply)
  }

  lemma IntakeMeets(c: Conn, r: Intake, f: Fate, supply: seq<ReadResult>, reply: Option<Kind>)
    requires Meets(r, f, supply) && r.buf.Unread() == c.input.Unread() + r.got
    requires f.Overrun? ==>
               var room := c.input.Offered().cap - |c.input.Unread()|;
               room <= |SupplyBytes(supply)| && r.got == SupplyBytes(supply)[..room]
    ensures var (c', o) := AfterIntake(c, r, reply); ReadMeets(c, f, supply, reply, c', o)
  {
    if f.Handed? {
      DeliverHandsOver(Received(c, r), r.outcome.value.value, reply);
    }
  }

  /** A read hands everything unread to the handler's side, as one chunk, exactly when the lengths
      of the socket's answers say so: it stops at an end of stream, or at a burst that fits and
      does not fill a vector exactly. Otherwise all it received stays unread, and it fails with
      Capacity, having received just what fills the vector, exactly when the lengths say so too. */
  lemma ReadDeliversExactly(s: Settings, c: Conn, supply: seq<ReadResult>, reply: Option<Kind>)
    requires Settled(c)
    ensures var (c', r) := Read(s, c, supply, reply); ReadMeets(c, ReadFate(s, c, supply), supply, reply, c', r)
  {
    var r := BufferIn(s, c.input, supply);
    BufferInStream(s, c.input, supply);
    MeetsFate(s, c.input, supply);
    if ReadFate(s, c, supply).Overrun? {
      OverrunTakesWhatFits(s, c.input, supply);
    }
    IntakeMeets(c, r, ReadFate(s, c, supply), supply, reply);
    assert Read(s, c, supply, reply) == AfterIntake(c, r, reply);
  }

  lemma BurstFate(s: Settings, c: Conn, bytes: Bytes)
    requires bytes != []
    ensures var cap, total := c.input.Offered().cap, |c.input.Unread()| + |bytes|;
      ReadFate(s, c, [Data(bytes)]) == if FillsExactly(s, cap, c.input.pos, total) then Held(1)
                                       else if Overflows(s, cap, total) then Overrun else Handed(1)
  {
    var cap, pos, total := c.input.Offered().cap, c.input.pos, |c.input.Unread()| + |bytes|;
    assert [Data(bytes)][1..] == [];
    assert FateOf(s, if pos > 0 && pos + total == cap then cap else Grown(s, total), 0, total, []) == Held(0);
  }

  /** A single burst is handed over exactly when it fits and fills no vector of the loop exactly; in
      particular one that reaches no further than the end of the first vector is held back exactly
      when it reaches that end. */
  lemma ExactFillIsHeldBack(s: Settings, c: Conn, bytes: Bytes, reply: Option<Kind>)
    requires Settled(c) && bytes != []
    ensures var b, c' := c.input, Read(s, c, [Data(bytes)], reply).0;
      var cap, all := b.Offered().cap, b.Unread() + bytes;
      && (c'.trace.taken == c.trace.taken + [all] <==> !FillsExactly(s, cap, b.pos, |all|) && !Overflows(s, cap, |all|))
      && (FillsExactly(s, cap, b.pos, |all|) ==> HeldBack(c, all, c'))
      && (|b.data| + |bytes| <= cap && (s.inBufferGrow || b.pos > 0) ==>
            (c'.trace.taken == c.trace.taken + [all] <==> |b.data| + |bytes| < cap))
  {
    var supply, all := [Data(bytes)], c.input.Unread() + bytes;
    BurstFate(s, c, bytes);
    ReadDeliversExactly(s, c, supply, reply);
    assert supply[..1] == supply && SupplyBytes(supply) == bytes + SupplyBytes(supply[1..]) == bytes;
    assert |c.trace.taken + [all]| > |c.trace.taken|;
    if |c.input.data| + |bytes| < c.input.Offered().cap {
      ShortFillsNone(s, c.input.Offered().cap, c.input.pos, |all|);
    }
  }

  // ---------- reactions to readiness ----------

  /** A connection past the handshake cannot be reset, so every failure is reported. */
  lemma RecoverReports(s: Settings, c: Conn, kind: Kind, dials: bool)
    requires Settled(c) && !c.panicked
    ensures Recover(s, c, kind, dials) == (Error(s, c, kind), false)
  {
  }

  lemma AfterReadKeeps(s: Settings, c: Conn, supply: seq<ReadResult>, reply: Option<Kind>,
      dials: bool)
    requires Sound(s, c) && Settled(c) && !c.panicked
    ensures var (c', reset) := AfterRead(s, c, supply, reply, dials);
      Kept(s, c, c') && Quiet(c, c') && !reset
  {
    ReadKeeps(s, c, supply, reply);
    var (c1, r) := Read(s, c, supply, reply);
    if r.Fail? {
      RecoverReports(s, c1, r.error, dials);
      ErrorKeeps(s, c1, r.error);
      EvolvesTrans(c, c1, Error(s, c1, r.error));
    }
  }

  lemma AfterWriteKeeps(s: Settings, c: Conn, answer: WriteResult, dials: bool)
    requires Sound(s, c) && Settled(c) && !c.panicked
    ensures var (c', reset) := AfterWrite(s, c, answer, dials);
      Kept(s, c, c') && Quiet(c, c') && !reset
  {
    WriteKeeps(s, c, answer);
    var (c1, r) := Write(c, answer);
    if r.Fail? {
      RecoverReports(s, c1, r.error, dials);
      ErrorKeeps(s, c1, r.error);
      EvolvesTrans(c, c1, Error(s, c1, r.error));
    }
  }
}
