// What a connection does that others can see: whom it calls, what it receives and sends, and whether it
// closes. Each step of the loop adds to it what its inputs say.
module Deeds {
  import opened Types
  import opened Buffers
  import opened ConnectionSpec
  import opened ConnectionProofs
  import opened ConnectionLaws
  import opened Lifecycle
  import opened LoopSpec
  import opened ConnectionSteps
  import opened LoopPanics

  datatype Deed = Deed(calls: seq<Callback>, received: Bytes, sent: Bytes, closes: bool) {
    function Then(d: Deed): Deed {
      Deed(calls + d.calls, received + d.received, sent + d.sent, closes || d.closes)
    }
  }

  const NO_DEED := Deed([], [], [], false)

  function DeedOf(c: Conn): Deed {
    Deed(c.trace.calls, c.trace.received, c.trace.sent, c.state.AwaitingClose?)
  }

  function Called(calls: seq<Callback>): Deed {
    Deed(calls, [], [], false)
  }

  lemma ThenAssociates(a: Deed, b: Deed, c: Deed)
    ensures a.Then(b).Then(c) == a.Then(b.Then(c))
  {
  }

  lemma ThenNothing(a: Deed)
    ensures a.Then(NO_DEED) == a && NO_DEED.Then(a) == a
  {
  }

  // ---------- errors ----------

  predicate Closing(kind: Kind) {
    kind == Internal || kind == Capacity || kind == Protocol || kind == Encoding
  }

  predicate Fatal(kind: Kind) {
    kind == Http || kind.Io?
  }

  /** An error is told; some close, and some hang up. */
  function ErrorDeed(kind: Kind): Deed {
    Deed(if Fatal(kind) then [OnError(kind), OnClose] else [OnError(kind)], [], [], Closing(kind))
  }

  function FailureDeed(error: Option<Kind>): Deed {
    if error.Some? then ErrorDeed(error.value) else NO_DEED
  }

  lemma ErrorDoes(s: Settings, c: Conn, kind: Kind)
    requires Settled(c) && !Error(s, c, kind).panicked
    ensures var c' := Error(s, c, kind);
      && DeedOf(c') == DeedOf(c).Then(ErrorDeed(kind))
      && c'.output == c.output && Settled(c')
      && (c'.events.Any() <==> !Fatal(kind) && (Closing(kind) || c.events.Any()))
      && (c'.events.writable <==> !Fatal(kind) && (c.events.writable || (Closing(kind) && c.Unsent() != [])))
  {
    ErrorLaw(s, c, kind);
  }

  // ---------- reading and writing ----------

  /** A read calls and receives what ReadLaw says, and then its error, if it has one, is reported. */
  function ReadDeed(s: Settings, c: Conn, env: Env): Deed {
    Deed(ReadCalls(s, c, env.supply, env.onMessage), ReadGets(s, c, env.supply), [], false)
      .Then(FailureDeed(ReadError(s, c, env.supply, env.onMessage)))
  }

  /** The connection is hung up by a read: at the end of the stream with nothing to write, or for its error. */
  predicate ReadHangsUp(s: Settings, c: Conn, env: Env) {
    var error := ReadError(s, c, env.supply, env.onMessage);
    (MeetsEnd(c, env.supply, env.onMessage) && !c.events.writable) || (error.Some? && Fatal(error.value))
  }

  /** It is to be written after a read: it was before, or it was closed with bytes unsent. */
  predicate WritableOnceRead(s: Settings, c: Conn, env: Env) {
    var error := ReadError(s, c, env.supply, env.onMessage);
    !ReadHangsUp(s, c, env)
    && (c.events.writable || (error.Some? && Closing(error.value) && c.Unsent() != []))
  }

  lemma EndIsNoError(s: Settings, c: Conn, env: Env)
    requires MeetsEnd(c, env.supply, env.onMessage)
    ensures ReadError(s, c, env.supply, env.onMessage) == None
  {
    assert env.supply[..1] == [Data([])] && SupplyBytes([Data([])]) == [] + SupplyBytes([]);
    assert c.input.Unread() + [] == [];
  }

  lemma AfterReadDoes(s: Settings, c: Conn, env: Env)
    requires Settled(c) && !c.panicked && c.events.readable
    requires !AfterRead(s, c, env.supply, env.onMessage, env.redials).0.panicked
    ensures var c' := AfterRead(s, c, env.supply, env.onMessage, env.redials).0;
      && DeedOf(c') == DeedOf(c).Then(ReadDeed(s, c, env))
      && c'.output == c.output && Settled(c')
      && (c'.events.Any() <==> !ReadHangsUp(s, c, env))
      && (c'.events.writable <==> WritableOnceRead(s, c, env))
  {
    var (c1, r) := Read(s, c, env.supply, env.onMessage);
    var error := ReadError(s, c, env.supply, env.onMessage);
    ReadLaw(s, c, env.supply, env.onMessage);
    ReadFailsIff(s, c, env.supply, env.onMessage);
    ReadSettled(s, c, env.supply, env.onMessage);
    if MeetsEnd(c, env.supply, env.onMessage) {
      EndIsNoError(s, c, env);
    }
    var got := Deed(ReadCalls(s, c, env.supply, env.onMessage), ReadGets(s, c, env.supply), [], false);
    assert DeedOf(c1) == DeedOf(c).Then(got);
    if r.Fail? {
      RecoverReports(s, c1, r.error, env.redials);
      ErrorDoes(s, c1, r.error);
      ThenAssociates(DeedOf(c), got, ErrorDeed(r.error));
    } else {
      ThenNothing(got);
    }
  }

  /** A write sends what the socket takes; if it fails, that is reported. */
  function WriteDeed(c: Conn, answer: WriteResult): Deed {
    match answer
    case Takes(count) => Deed([], [], c.Unsent()[..Min(count, |c.Unsent()|)], false)
    case WriteBlocks => NO_DEED
    case WriteFails(errno) => ErrorDeed(Io(errno))
  }

  lemma AfterWriteDoes(s: Settings, c: Conn, env: Env)
    requires Settled(c) && !c.panicked && !AfterWrite(s, c, env.write, env.redials).0.panicked
    ensures var c' := AfterWrite(s, c, env.write, env.redials).0;
      DeedOf(c') == DeedOf(c).Then(WriteDeed(c, env.write)) && (c'.events.Any() <==> !env.write.WriteFails?)
  {
    var (c1, r) := Write(c, env.write);
    WriteLaw(c, env.write);
    if r.Fail? {
      RecoverReports(s, c1, r.error, env.redials);
      ErrorDoes(s, c1, r.error);
    }
  }

  /** Whether an event on a connection comes to a write: the interest is that after the read. */
  predicate Writes(s: Settings, c: Conn, kind: Interest, env: Env) {
    kind.writable && if Reads(c, kind) then WritableOnceRead(s, c, env) else c.events.writable
  }

  function ReadyDeed(s: Settings, c: Conn, kind: Interest, env: Env): Deed {
    (if Reads(c, kind) then ReadDeed(s, c, env) else NO_DEED)
      .Then(if Writes(s, c, kind, env) then WriteDeed(c, env.write) else NO_DEED)
  }

  predicate ReadyHangsUp(s: Settings, c: Conn, kind: Interest, env: Env) {
    (Reads(c, kind) && ReadHangsUp(s, c, env)) || (Writes(s, c, kind, env) && env.write.WriteFails?)
  }

  /** An event on a connection: it reads if the event and its interest say so, then writes if the event
      and the interest it has by then say so, and keeps some interest unless it had none or was hung up. */
  lemma OnReadyDoes(s: Settings, c: Conn, kind: Interest, env: Env)
    requires Good(s, c) && !OnReady(s, c, kind, env).0.panicked
    ensures var c' := OnReady(s, c, kind, env).0;
      && DeedOf(c') == DeedOf(c).Then(ReadyDeed(s, c, kind, env))
      && (c'.events.Any() <==> c.events.Any() && !ReadyHangsUp(s, c, kind, env))
  {
    var c1 := OnceRead(s, c, kind, env);
    var read := if Reads(c, kind) then ReadDeed(s, c, env) else NO_DEED;
    if Reads(c, kind) {
      AfterReadDoes(s, c, env);
      AfterReadStep(s, c, env);
    } else {
      ThenNothing(DeedOf(c));
    }
    if Writes(s, c, kind, env) {
      AfterWriteDoes(s, c1, env);
      ThenAssociates(DeedOf(c), read, WriteDeed(c, env.write));
    } else {
      ThenNothing(read);
    }
  }

  // ---------- timers and commands ----------

  function FireDeed(event: nat, reply: Option<Kind>): Deed {
    Called([OnTimeout(event)]).Then(FailureDeed(reply))
  }

  lemma OnFireDoes(s: Settings, c: Conn, event: nat, reply: Option<Kind>)
    requires Good(s, c) && !OnFire(s, c, event, reply).panicked
    ensures var c' := OnFire(s, c, event, reply);
      && DeedOf(c') == DeedOf(c).Then(FireDeed(event, reply))
      && (c'.events.Any() <==>
          if reply.Some? then !Fatal(reply.value) && (Closing(reply.value) || c.events.Any()) else c.events.Any())
  {
    TimeoutLaw(c, event, reply);
    var c1 := TimeoutTriggered(c, event, reply).0;
    assert DeedOf(c1) == DeedOf(c).Then(Called([OnTimeout(event)]));
    if reply.Some? {
      ErrorDoes(s, c1, reply.value);
    }
    ThenAssociates(DeedOf(c), Called([OnTimeout(event)]), FailureDeed(reply));
  }

  function NewTimeoutDeed(event: nat, reply: Option<Kind>): Deed {
    Called([OnNewTimeout(event)]).Then(FailureDeed(reply))
  }

  lemma SetTimeout1Does(s: Settings, c: Conn, event: nat, reply: Option<Kind>)
    requires Good(s, c) && !SetTimeout1(s, c, event, reply).panicked
    ensures DeedOf(SetTimeout1(s, c, event, reply)) == DeedOf(c).Then(NewTimeoutDeed(event, reply))
  {
    TimeoutLaw(c, event, reply);
    var c1 := NewTimeout(c, event, reply).0;
    assert DeedOf(c1) == DeedOf(c).Then(Called([OnNewTimeout(event)]));
    if reply.Some? {
      ErrorDoes(s, c1, reply.value);
    }
    ThenAssociates(DeedOf(c), Called([OnNewTimeout(event)]), FailureDeed(reply));
  }

  /** What a delivered signal does: a message that finds no room is an error, a close closes, and a
      shutdown tells the handler and closes. */
  function SignalDeed(s: Settings, c: Conn, signal: Signal): Deed {
    match signal
    case Message(_) => if RefusesMessage(s, c, signal) then ErrorDeed(Capacity) else NO_DEED
    case Close => Deed([], [], [], true)
    case Shutdown => Deed([OnShutdown], [], [], true)
    case Connect(_) => NO_DEED
    case Timeout(_) => NO_DEED
    case Cancel => NO_DEED
  }

  lemma MessageDoes(s: Settings, c: Conn, msg: Bytes)
    requires Good(s, c)
    ensures var (c', r) := SendMessage(s, c, msg);
      && (r.Fail? <==> RefusesMessage(s, c, Message(msg))) && (r.Fail? ==> r.error == Capacity)
      && DeedOf(c') == DeedOf(c) && Settled(c')
  {
    SendMessageOutcome(s, c, msg);
    if !c.state.IsClosing() && SendMessage(s, c, msg).1.Pass? {
      MessageLaw(s, c, msg);
    }
  }

  lemma ReportedDoes(s: Settings, d: (Conn, Outcome))
    requires Settled(d.0) && !d.0.panicked && !Reported(s, d).panicked
    ensures DeedOf(Reported(s, d)) == DeedOf(d.0).Then(if d.1.Fail? then ErrorDeed(d.1.error) else NO_DEED)
  {
    if d.1.Fail? {
      ErrorDoes(s, d.0, d.1.error);
    } else {
      ThenNothing(DeedOf(d.0));
    }
  }

  lemma DeliveryDoes(s: Settings, c: Conn, signal: Signal)
    requires Good(s, c) && !Reported(s, Deliver1(s, c, signal)).panicked
    ensures DeedOf(Reported(s, Deliver1(s, c, signal))) == DeedOf(c).Then(SignalDeed(s, c, signal))
  {
    Deliver1Step(s, c, signal);
    ReportedDoes(s, Deliver1(s, c, signal));
    match signal {
      case Message(payload) => MessageDoes(s, c, payload);
      case Close => CloseLaw(c);
      case Shutdown => ShutdownLaw(c);
      case Connect(_) =>
      case Timeout(_) =>
      case Cancel =>
    }
  }

  lemma ShutdownDoes(c: Conn)
    requires Settled(c)
    ensures DeedOf(ShutdownConn(c)) == DeedOf(c).Then(Deed([OnShutdown], [], [], true))
  {
    ShutdownLaw(c);
  }

  function RearmDeed(fails: bool): Deed {
    if fails then ErrorDeed(Io(None)) else NO_DEED
  }

  lemma Broadcast1Does(s: Settings, c: Conn, signal: Signal, rearmFails: bool)
    requires Good(s, c) && !Broadcast1(s, c, signal, rearmFails).panicked
    ensures DeedOf(Broadcast1(s, c, signal, rearmFails)) ==
            DeedOf(c).Then(SignalDeed(s, c, signal)).Then(RearmDeed(rearmFails))
  {
    var c1 := Reported(s, Deliver1(s, c, signal));
    Reported1Step(s, c, signal);
    DeliveryDoes(s, c, signal);
    if rearmFails {
      ErrorDoes(s, c1, Io(None));
    } else {
      ThenNothing(DeedOf(c1));
    }
  }
}
