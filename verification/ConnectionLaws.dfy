// What each operation of a connection past its handshake leaves, field by field: whom it tells, what
// it moves, what it is interested in afterwards, and what it does not touch.
module ConnectionLaws {
  import opened Types
  import opened Buffers
  import opened ConnectionSpec
  import opened ConnectionProofs

  /** The interest of a connection that was just brought up to date: in reading always, in writing if
      it was, or if bytes are unsent. */
  function FullInterest(c: Conn): Interest {
    Interest(true, c.events.writable || c.Unsent() != [])
  }

  function CalledAll(c: Conn, calls: seq<Callback>): Trace {
    c.trace.(calls := c.trace.calls + calls)
  }

  // ---------- opening ----------

  /** An open connection on which nothing has happened but these calls, with vectors of exactly the
      configured capacities. */
  function Fresh(s: Settings, t: nat, h: nat, id: nat, endpoint: Endpoint, events: Interest, addresses: seq<nat>,
                 calls: seq<Callback>): Conn {
    Conn(t, id, h, Open, endpoint, events, Vec([], 0, s.inBufferCapacity), Vec([], 0, s.outBufferCapacity), addresses,
         Trace(calls, [], [], [], [], 0), false)
  }

  /** New connections open: an accepted one is found connecting, even after it was told that its
      registration failed, and is then interested in writing only; a client is open when it is made one. */
  lemma NewConnectionsOpen(s: Settings, t: nat, h: nat, id: nat, registers: bool, url: string, untried: seq<nat>)
    ensures var (c, r) := OpenUp(UnopenedServer(s, t, h, id, registers));
      && r.Pass? && c == ServerConn(s, t, h, id, registers)
      && c == if registers then Fresh(s, t, h, id, Server, Interest(true, false), [], [])
              else Fresh(s, t, h, id, Server, Interest(false, true), [], [OnError(Io(None))])
    ensures ClientConn(s, t, h, id, url, untried) ==
            (Fresh(s, t, h, id, Client(url), Interest(true, false), untried, []), Pass)
  {
  }

  /** A client that is still connecting takes its next address, from the last to the first, and dials it;
      with none left it fails, or panics if it is to. */
  lemma ResetLaw(s: Settings, c: Conn, untried: seq<nat>, next: nat, dials: bool)
    requires c.endpoint.Client? && c.state.Connecting?
    ensures c.addresses == untried + [next] ==>
              Reset(s, c, dials) == (c.(events := Interest(true, false), addresses := untried),
                                     if dials then Pass else Fail(Io(None)))
    ensures c.addresses == [] ==>
              Reset(s, c, dials) ==
              (c.(events := Interest(true, false), panicked := c.panicked || s.panicOnNewConnection), Fail(Internal))
  {
  }

  // ---------- closing and hanging up ----------

  predicate IsClosed(c: Conn, calls: seq<Callback>, c': Conn) {
    c' == c.(state := AwaitingClose, events := FullInterest(c), trace := CalledAll(c, calls))
  }

  predicate IsHungUp(c: Conn, calls: seq<Callback>, c': Conn) {
    c' == c.(events := NOTHING, trace := CalledAll(c, calls + [OnClose]))
  }

  predicate IsTold(c: Conn, calls: seq<Callback>, c': Conn) {
    c' == c.(trace := CalledAll(c, calls))
  }

  /** A close leaves a connection awaiting the peer's, whatever is still to be sent, and interested in
      both; it calls nobody. */
  lemma CloseLaw(c: Conn)
    requires Settled(c)
    ensures IsClosed(c, [], SendClose(c))
  {
  }

  /** From the other states a close answers the peer's, or is not possible yet. */
  lemma CloseLawElsewhere(c: Conn)
    requires !Settled(c)
    ensures if c.state.Connecting? then SendClose(c) == c.Panic()
            else SendClose(c) == c.(state := FinishedClose, events := FullInterest(c))
  {
  }

  /** Hanging up calls on_close, except when the close was agreed on or nothing was ever opened. */
  lemma HangUpLaw(c: Conn)
    ensures if Settled(c) then IsHungUp(c, [], Disconnect(c)) else Disconnect(c) == c.(events := NOTHING)
  {
  }

  lemma ShutdownLaw(c: Conn)
    requires Settled(c)
    ensures IsClosed(c, [OnShutdown], ShutdownConn(c))
  {
  }

  // ---------- errors ----------

  /** Which setting makes an error panic instead of being reported, kind by kind. */
  lemma ErrorPanicsBySetting(s: Settings, c: Conn, kind: Kind)
    requires Settled(c) && !c.panicked
    ensures Error(s, c, kind).panicked <==>
            || (kind == Internal && s.panicOnInternal)
            || (kind == Capacity && s.panicOnCapacity)
            || (kind == Protocol && s.panicOnProtocol)
            || (kind == Encoding && s.panicOnEncoding)
            || (kind == Queue && s.panicOnQueue)
            || (kind == Timer && s.panicOnTimeout)
            || (kind.Io? && s.panicOnIo)
  {
  }

  /** An error that is reported closes, hangs up, or is only told, by its kind. */
  lemma ErrorLaw(s: Settings, c: Conn, kind: Kind)
    requires Settled(c) && !Error(s, c, kind).panicked
    ensures var c', calls := Error(s, c, kind), [OnError(kind)];
      if kind == Internal || kind == Capacity || kind == Protocol || kind == Encoding then IsClosed(c, calls, c')
      else if kind == Http || kind.Io? then IsHungUp(c, calls, c')
      else IsTold(c, calls, c')
  {
  }

  /** Before the handshake is over an error only tells the handler, and never panics: a server is then
      to write its refusal, a client to do nothing more. */
  lemma ErrorWhileConnecting(s: Settings, c: Conn, kind: Kind)
    requires c.state.Connecting?
    ensures Error(s, c, kind) ==
            c.(events := Interest(false, c.endpoint.Server?), trace := CalledAll(c, [OnError(kind)]))
  {
  }

  // ---------- timeouts ----------

  /** The handler is told of a new timeout and of one that fires by their own callbacks, with the event
      of the timeout, and what it returns is reported. */
  lemma TimeoutLaw(c: Conn, event: nat, reply: Option<Kind>)
    ensures var (c', r) := NewTimeout(c, event, reply);
      IsTold(c, [OnNewTimeout(event)], c') && (reply.None? <==> r.Pass?) && (reply.Some? ==> r == Fail(reply.value))
    ensures var (c', r) := TimeoutTriggered(c, event, reply);
      IsTold(c, [OnTimeout(event)], c') && (reply.None? <==> r.Pass?) && (reply.Some? ==> r == Fail(reply.value))
  {
  }

  // ---------- writing ----------

  /** A write moves exactly the bytes the socket took from unsent to sent, and keeps write interest while
      bytes remain, and read interest always; a failing one moves nothing and drops write interest. */
  lemma WriteLaw(c: Conn, answer: WriteResult)
    requires Settled(c)
    ensures var (c', r) := Write(c, answer);
      var n := if answer.Takes? then Min(answer.count, |c.Unsent()|) else 0;
      && c' == c.(output := c'.output, events := c'.events, trace := c.trace.(sent := c.trace.sent + c.Unsent()[..n]))
      && c'.Unsent() == c.Unsent()[n..] && c'.output.cap == c.output.cap && c'.output.data == c.output.data
      && (if answer.WriteFails? then r == Fail(Io(answer.errno)) && c'.events == Interest(c.events.readable, false)
          else r == Pass && c'.events == Interest(true, c'.Unsent() != []))
  {
  }

  lemma BufferedLaw(s: Settings, c: Conn, msg: Bytes)
    requires CheckBufferOut(s, c.output, |msg|).1.Pass?
    ensures var c' := Buffered(s, c, msg);
      && c'.Unsent() == c.Unsent() + msg
      && c' == c.(output := c'.output, trace := c.trace.(accepted := c.trace.accepted + [msg],
                                                         peak := Max(c.trace.peak, |c.Unsent() + msg|)))
  {
    AppendSpace(s, c.output, msg);
  }

  /** A message that is accepted changes the output only, and makes the connection interested in reading,
      and in writing if bytes are unsent. */
  lemma MessageLaw(s: Settings, c: Conn, msg: Bytes)
    requires Settled(c) && SendMessage(s, c, msg).1.Pass? && !c.state.IsClosing()
    ensures var c' := SendMessage(s, c, msg).0;
      && c'.Unsent() == c.Unsent() + msg
      && c' == c.(output := c'.output, events := Interest(true, c.events.writable || c'.Unsent() != []),
                  trace := c.trace.(accepted := c.trace.accepted + [msg],
                                    peak := Max(c.trace.peak, |c.Unsent() + msg|)))
  {
    SendMessageCases(s, c, msg);
    BufferedLaw(s, c, msg);
  }

  /** Once the close is agreed on, a server that finds nothing more to write is done; a client goes on. */
  lemma WriteOnceFinished(c: Conn, answer: WriteResult)
    requires c.state.FinishedClose? && answer.Takes?
    ensures var (c', r), n := Write(c, answer), Min(answer.count, |c.Unsent()|);
      && r == Pass && c'.trace.sent == c.trace.sent + c.Unsent()[..n] && c'.Unsent() == c.Unsent()[n..]
      && c'.events == if c.endpoint.Server? && n == 0 then NOTHING else Interest(true, c'.Unsent() != [])
  {
  }

  /** Before the handshake is over nothing is read or written, and the interest is left alone. */
  lemma NothingWhileConnecting(s: Settings, c: Conn, supply: seq<ReadResult>, reply: Option<Kind>, answer: WriteResult)
    requires c.state.Connecting?
    ensures Read(s, c, supply, reply) == (c, Fail(Internal)) && Write(c, answer) == (c, Fail(Internal))
    ensures CheckEvents(c) == c
  {
  }

  // ---------- reading ----------

  /** A read that starts at the end of the stream, with an empty vector, and whose empty message the
      handler takes. */
  predicate MeetsEnd(c: Conn, supply: seq<ReadResult>, reply: Option<Kind>) {
    supply != [] && supply[0] == Data([]) && c.input.data == [] && reply.None?
  }

  /** What a read receives, by the lengths of the socket's answers. */
  function ReadGets(s: Settings, c: Conn, supply: seq<ReadResult>): Bytes {
    match ReadFate(s, c, supply)
    case Handed(k) => SupplyBytes(supply[..k])
    case Held(k) => SupplyBytes(supply[..k])
    case Overrun =>
      var room := c.input.Offered().cap - |c.input.Unread()|;
      SupplyBytes(supply)[..Min(room, |SupplyBytes(supply)|)]
  }

  /** Whom a read calls before its failure, if it fails, is reported. */
  function ReadCalls(s: Settings, c: Conn, supply: seq<ReadResult>, reply: Option<Kind>): seq<Callback> {
    var f, all := ReadFate(s, c, supply), c.input.Unread() + ReadGets(s, c, supply);
    (if f.Handed? && ValidUtf8(all) then [OnMessage(all)] else [])
    + if MeetsEnd(c, supply, reply) && !c.events.writable then [OnClose] else []
  }

  /** At the end of the stream a connection that has something to write stops reading, and one that has
      not is hung up; otherwise a read leaves the interest alone. */
  function ReadEvents(c: Conn, supply: seq<ReadResult>, reply: Option<Kind>): Interest {
    if !MeetsEnd(c, supply, reply) then c.events
    else if c.events.writable then Interest(false, true) else NOTHING
  }

  lemma DeliverLaw(c: Conn, len: nat, reply: Option<Kind>)
    requires Settled(c)
    ensures var (c', r), all := Deliver(c, len, reply), c.input.Unread();
      var ends := len == 0 && ValidUtf8(all) && reply.None?;
      && c' == c.(input := c'.input, events := c'.events,
                  trace := c.trace.(calls := c'.trace.calls, taken := c.trace.taken + [all]))
      && c'.events == (if !ends then c.events else if c.events.writable then Interest(false, true) else NOTHING)
      && c'.trace.calls == c.trace.calls + (if ValidUtf8(all) then [OnMessage(all)] else [])
                           + if ends && !c.events.writable then [OnClose] else []
  {
  }

  /** An end of stream at an empty vector, and nothing else, is answered with an empty vector. */
  lemma EmptyAnswer(s: Settings, c: Conn, supply: seq<ReadResult>)
    ensures var r := BufferIn(s, c.input, supply);
      r.outcome == Ok(Some(0)) <==> supply != [] && supply[0] == Data([]) && c.input.data == []
    ensures var r := BufferIn(s, c.input, supply);
      r.outcome == Ok(Some(0)) ==> c.input.Unread() + ReadGets(s, c, supply) == []
  {
    AnswersEmptyExactly(s, c.input, supply);
    if supply != [] && supply[0] == Data([]) {
      assert supply[..1] == [Data([])] && SupplyBytes([Data([])]) == [] + SupplyBytes([]);
    }
  }

  lemma ReadGetsExactly(s: Settings, c: Conn, supply: seq<ReadResult>)
    ensures BufferIn(s, c.input, supply).got == ReadGets(s, c, supply)
  {
    MeetsFate(s, c.input, supply);
    if ReadFate(s, c, supply).Overrun? {
      OverrunTakesWhatFits(s, c.input, supply);
    }
  }

  /** What follows the read loop: the chunk it hands over, if it does, and the end of the stream, if
      that is what it answers. */
  lemma AfterIntakeLaw(c: Conn, r: Intake, handed: bool, ends: bool, reply: Option<Kind>)
    requires Settled(c) && r.buf.Unread() == c.input.Unread() + r.got
    requires handed <==> r.outcome.Ok? && r.outcome.value.Some?
    requires ends <==> r.outcome == Ok(Some(0)) && reply.None?
    requires ends ==> r.buf.Unread() == []
    ensures var c', all := AfterIntake(c, r, reply).0, r.buf.Unread();
      && c' == c.(input := c'.input, events := c'.events,
                  trace := c.trace.(calls := c'.trace.calls, received := c.trace.received + r.got,
                                    taken := c'.trace.taken))
      && c'.events == (if !ends then c.events else if c.events.writable then Interest(false, true) else NOTHING)
      && c'.trace.calls == c.trace.calls + (if handed && ValidUtf8(all) then [OnMessage(all)] else [])
                           + if ends && !c.events.writable then [OnClose] else []
  {
    if handed {
      DeliverLaw(Received(c, r), r.outcome.value.value, reply);
    }
  }

  /** A read changes the input, records what it received and whom it called, and stops reading or hangs
      up only at the end of the stream. */
  lemma ReadLaw(s: Settings, c: Conn, supply: seq<ReadResult>, reply: Option<Kind>)
    requires Settled(c)
    ensures var c' := Read(s, c, supply, reply).0;
      && c' == c.(input := c'.input, events := ReadEvents(c, supply, reply),
                  trace := c.trace.(calls := c.trace.calls + ReadCalls(s, c, supply, reply),
                                    received := c.trace.received + ReadGets(s, c, supply), taken := c'.trace.taken))
  {
    var r := BufferIn(s, c.input, supply);
    MeetsFate(s, c.input, supply);
    BufferInStream(s, c.input, supply);
    ReadGetsExactly(s, c, supply);
    EmptyAnswer(s, c, supply);
    AfterIntakeLaw(c, r, ReadFate(s, c, supply).Handed?, MeetsEnd(c, supply, reply), reply);
    assert Read(s, c, supply, reply) == AfterIntake(c, r, reply);
    SameCalls(c.trace.calls, if ReadFate(s, c, supply).Handed? && ValidUtf8(r.buf.Unread())
                             then [OnMessage(r.buf.Unread())] else [],
              if MeetsEnd(c, supply, reply) && !c.events.writable then [OnClose] else []);
  }

  lemma SameCalls(a: seq<Callback>, b: seq<Callback>, c: seq<Callback>)
    ensures a + (b + c) == a + b + c
  {
  }
}
