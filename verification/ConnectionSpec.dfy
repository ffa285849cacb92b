// The connection as a value: what each of its operations does to it, given what the socket and
// the handler's callbacks answer. The class in Connections.dfy is proved to do exactly this.
module ConnectionSpec {
  import opened Types
  import opened Buffers

  datatype State = Connecting | Open | AwaitingClose | RespondingClose | FinishedClose {
    predicate IsClosing() {
      AwaitingClose? || FinishedClose?
    }
  }

  datatype Endpoint = Client(url: string) | Server

  /** The calls a connection makes to its handler. */
  datatype Callback =
    | OnMessage(text: Bytes)
    | OnError(kind: Kind)
    | OnClose
    | OnShutdown
    | OnTimeout(event: nat)
    | OnNewTimeout(event: nat)

  /** What has happened on a connection: the calls to its handler; the bytes received from its
      socket and the chunks taken from them; the messages accepted for it and the bytes its
      socket took; and the largest number of unsent bytes it ever held. */
  datatype Trace = Trace(
    calls: seq<Callback>,
    received: Bytes,
    taken: seq<Bytes>,
    accepted: seq<Bytes>,
    sent: Bytes,
    peak: nat)

  /** handler numbers the handler object the connection owns. panicked marks an operation that
      panicked: nothing after it happens. */
  datatype Conn = Conn(
    token: nat,
    id: nat,
    handler: nat,
    state: State,
    endpoint: Endpoint,
    events: Interest,
    input: Buf,
    output: Buf,
    addresses: seq<nat>,
    trace: Trace,
    panicked: bool)
  {
    function Unsent(): Bytes {
      output.Unread()
    }

    function Called(call: Callback): Conn {
      this.(trace := trace.(calls := trace.calls + [call]))
    }

    function Panic(): Conn {
      this.(panicked := true)
    }
  }

  function NewConn(s: Settings, token: nat, handler: nat, id: nat): Conn {
    Conn(token, id, handler, Connecting, Server, NOTHING,
         WithCapacity(s.inBufferCapacity), WithCapacity(s.outBufferCapacity), [],
         Trace([], [], [], [], [], 0), false)
  }

  // ---------- state changes ----------

  /** Becomes open whatever it was before; the answer says whether it was connecting. */
  function OpenUp(c: Conn): (Conn, Outcome) {
    (c.(state := Open), if c.state.Connecting? then Pass else Fail(Internal))
  }

  function AsServer(c: Conn): Conn {
    c.(events := c.events.(readable := true))
  }

  function AsClient(c: Conn, url: string, addresses: seq<nat>): (Conn, Outcome) {
    if c.state.Open? then
      (c.(addresses := addresses, events := c.events.(readable := true), endpoint := Client(url)), Pass)
    else (c, Fail(Internal))
  }

  /** Tries the next address of a client that is still connecting; dials says whether the dial succeeds. */
  function Reset(s: Settings, c: Conn, dials: bool): (Conn, Outcome) {
    if c.endpoint.Server? || !c.state.Connecting? then (c, Fail(Internal))
    else
      var c1 := c.(events := Interest(true, false));
      if c.addresses == [] then
        if s.panicOnNewConnection then (c1.Panic(), Fail(Internal)) else (c1, Fail(Internal))
      else
        var c2 := c1.(addresses := c.addresses[..|c.addresses| - 1]);
        (c2, if dials then Pass else Fail(Io(None)))
  }

  function CheckEvents(c: Conn): Conn {
    if c.state.Connecting? then c
    else c.(events := Interest(true, c.events.writable || c.output.pos < |c.output.data|))
  }

  /** Starts or continues a close. Closing a connection that is still connecting trips an assertion. */
  function SendClose(c: Conn): Conn {
    match c.state
    case RespondingClose => CheckEvents(c.(state := FinishedClose))
    case AwaitingClose => CheckEvents(c)
    case FinishedClose => CheckEvents(c)
    case Open => CheckEvents(c.(state := AwaitingClose))
    case Connecting => c.Panic()
  }

  function Disconnect(c: Conn): Conn {
    (match c.state
     case RespondingClose => c
     case FinishedClose => c
     case Connecting => c
     case Open => c.Called(OnClose)
     case AwaitingClose => c.Called(OnClose)).(events := NOTHING)
  }

  function ShutdownConn(c: Conn): Conn {
    SendClose(c.Called(OnShutdown))
  }

  /** Errors answered by closing, and errors answered by hanging up; the others are only reported. */
  predicate ClosesOn(kind: Kind) {
    kind.Internal? || kind.Capacity? || kind.Protocol? || kind.Encoding?
  }

  predicate HangsUpOn(kind: Kind) {
    kind.Http? || kind.Io?
  }

  /** Reports an error and reacts to its kind. */
  function Error(s: Settings, c: Conn, kind: Kind): Conn {
    if c.state.Connecting? then
      c.Called(OnError(kind)).(events := if c.endpoint.Server? then Interest(false, true) else NOTHING)
    else if s.PanicsOn(kind) then c.Panic()
    else
      var c1 := c.Called(OnError(kind));
      if ClosesOn(kind) then SendClose(c1)
      else if HangsUpOn(kind) then Disconnect(c1)
      else c1
  }

  function Answer(reply: Option<Kind>): Outcome {
    if reply.Some? then Fail(reply.value) else Pass
  }

  function NewTimeout(c: Conn, event: nat, reply: Option<Kind>): (Conn, Outcome) {
    (c.Called(OnNewTimeout(event)), Answer(reply))
  }

  function TimeoutTriggered(c: Conn, event: nat, reply: Option<Kind>): (Conn, Outcome) {
    (c.Called(OnTimeout(event)), Answer(reply))
  }

  /** The connection for an accepted socket before it is opened: if registering it failed it has
      been told so while it was still connecting. */
  function UnopenedServer(s: Settings, token: nat, handler: nat, id: nat, registers: bool): Conn {
    var c := AsServer(NewConn(s, token, handler, id));
    if registers then c else Error(s, c, Io(None))
  }

  function ServerConn(s: Settings, token: nat, handler: nat, id: nat, registers: bool): Conn {
    OpenUp(UnopenedServer(s, token, handler, id, registers)).0
  }

  /** The connection for a dialled socket, open and with the addresses it has not tried. */
  function ClientConn(s: Settings, token: nat, handler: nat, id: nat, url: string, untried: seq<nat>): (Conn, Outcome) {
    AsClient(OpenUp(NewConn(s, token, handler, id)).0, url, untried)
  }

  // ---------- reading ----------

  /** Takes everything unread as one chunk and hands it to the handler if it is text. */
  function ReadData(c: Conn, reply: Option<Kind>): (Conn, Outcome) {
    var chunk := c.input.Unread();
    var c1 := c.(input := c.input.(pos := |c.input.data|), trace := c.trace.(taken := c.trace.taken + [chunk]));
    if ValidUtf8(chunk) then (c1.Called(OnMessage(chunk)), Answer(reply)) else (c1, Fail(Encoding))
  }

  function Received(c: Conn, r: Intake): Conn {
    c.(input := r.buf, trace := c.trace.(received := c.trace.received + r.got))
  }

  /** After a read that ends at an empty vector: stop reading, or hang up if nothing is to be written. */
  function EndOfStream(c: Conn): Conn {
    if c.events.writable then c.(events := Interest(false, true)) else Disconnect(c)
  }

  /** What follows a read loop that answered with a vector of len bytes. */
  function Deliver(c: Conn, len: nat, reply: Option<Kind>): (Conn, Outcome) {
    var (c1, taken) := ReadData(c, reply);
    if taken.Fail? then (c1, taken)
    else (if len == 0 then EndOfStream(c1) else c1, Pass)
  }

  function Read(s: Settings, c: Conn, supply: seq<ReadResult>, reply: Option<Kind>): (Conn, Outcome) {
    if c.state.Connecting? then (c, Fail(Internal))
    else
      var intake := BufferIn(s, c.input, supply);
      var c1 := Received(c, intake);
      match intake.outcome
      case Err(kind) => (c1, Fail(kind))
      case Ok(None) => (c1, Pass)
      case Ok(Some(len)) => Deliver(c1, len, reply)
  }

  // ---------- writing ----------

  function Sent(c: Conn, n: nat): Conn
    requires n <= |c.Unsent()|
  {
    c.(output := c.output.(pos := c.output.pos + n), trace := c.trace.(sent := c.trace.sent + c.Unsent()[..n]))
  }

  function Write(c: Conn, answer: WriteResult): (Conn, Outcome) {
    if c.state.Connecting? then (c, Fail(Internal))
    else
      var c1 := c.(events := c.events.(writable := false));
      match answer
      case WriteFails(errno) => (c1, Fail(Io(errno)))
      case WriteBlocks => (CheckEvents(c1), Pass)
      case Takes(count) =>
        var n := Min(count, |c1.Unsent()|);
        var c2 := Sent(c1, n);
        if n == 0 && c2.state.FinishedClose? && c2.endpoint.Server? then (c2.(events := NOTHING), Pass)
        else (CheckEvents(c2), Pass)
  }

  /** Buffers a whole message, unless the connection is closing (ignored) or out of room (refused). */
  function SendMessage(s: Settings, c: Conn, msg: Bytes): (Conn, Outcome) {
    if c.state.IsClosing() then (c, Pass)
    else
      var (b, room) := CheckBufferOut(s, c.output, |msg|);
      if room.Fail? then (c, room)
      else
        var b' := b.Append(msg);
        (CheckEvents(c.(output := b', trace := c.trace.(
                          accepted := c.trace.accepted + [msg],
                          peak := Max(c.trace.peak, |b'.Unread()|)))), Pass)
  }

  // ---------- reacting to a readiness event ----------

  /** Reacts to a failed read or write: a refused connection is first reset, any other failure, or
      a failed reset, is reported. The flag says that the reset succeeded. */
  function Recover(s: Settings, c: Conn, kind: Kind, dials: bool): (Conn, bool) {
    if kind == Io(Some(CONNECTION_REFUSED)) then
      var (c1, r) := Reset(s, c, dials);
      if c1.panicked || r.Pass? then (c1, r.Pass?) else (Error(s, c1, kind), false)
    else (Error(s, c, kind), false)
  }

  function AfterRead(s: Settings, c: Conn, supply: seq<ReadResult>, reply: Option<Kind>, dials: bool): (Conn, bool) {
    var (c1, r) := Read(s, c, supply, reply);
    if r.Fail? then Recover(s, c1, r.error, dials) else (c1, false)
  }

  function AfterWrite(s: Settings, c: Conn, answer: WriteResult, dials: bool): (Conn, bool) {
    var (c1, r) := Write(c, answer);
    if r.Fail? then Recover(s, c1, r.error, dials) else (c1, false)
  }

  /** Reads and then writes, as far as the event and the interest agree. The flag says that a
      reset succeeded. */
  function OnReadiness(s: Settings, c: Conn, kind: Interest, supply: seq<ReadResult>, onMessage: Option<Kind>,
                       answer: WriteResult, redials: bool): (Conn, bool)
  {
    var (c1, reset) := if kind.readable && c.events.readable
                       then AfterRead(s, c, supply, onMessage, redials) else (c, false);
    if c1.panicked || reset then (c1, reset)
    else if kind.writable && c1.events.writable then AfterWrite(s, c1, answer, redials)
    else (c1, false)
  }

  // ---------- commands ----------

  /** What a message, a close or a shutdown first does to one connection. */
  function Deliver1(s: Settings, c: Conn, signal: Signal): (Conn, Outcome) {
    match signal
    case Message(payload) => SendMessage(s, c, payload)
    case Close => (SendClose(c), Pass)
    case Shutdown => (ShutdownConn(c), Pass)
    case Connect(_) => (c, Pass)
    case Timeout(_) => (c, Pass)
    case Cancel => (c, Pass)
  }

  /** A failed delivery is reported to the connection. */
  function Reported(s: Settings, delivered: (Conn, Outcome)): Conn {
    if delivered.1.Fail? && !delivered.0.panicked then Error(s, delivered.0, delivered.1.error) else delivered.0
  }
}
