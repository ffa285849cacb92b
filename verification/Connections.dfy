// The connection as an object: its operations, step by step, each proved to do to the
// connection's value what ConnectionSpec says.
module Connections {
  import opened Types
  import opened Buffers
  import opened Cursors
  import opened ConnectionSpec

  class Connection {
    const settings: Settings
    const token: nat
    const id: nat
    ghost const handler: nat
    const input: Cursor
    const output: Cursor
    var state: State
    var endpoint: Endpoint
    var events: Interest
    var addresses: seq<nat>
    var panicked: bool
    ghost var trace: Trace

    ghost predicate Valid()
      reads this, input, output
    {
      input != output && input.Valid() && output.Valid()
    }

    ghost function Repr(): set<object> {
      {this, input, output}
    }

    ghost function View(): Conn
      requires Valid()
      reads this, input, output
    {
      Conn(token, id, handler, state, endpoint, events, input.View(), output.View(), addresses, trace, panicked)
    }

    constructor (s: Settings, tok: nat, ghost hnd: nat, connectionId: nat)
      ensures Valid() && fresh(Repr()) && settings == s && token == tok
      ensures View() == NewConn(s, tok, hnd, connectionId)
    {
      settings, token, id, handler := s, tok, connectionId, hnd;
      state, endpoint, events, addresses, panicked := Connecting, Server, NOTHING, [], false;
      trace := Trace([], [], [], [], [], 0);
      var in_ := new Cursor(s.inBufferCapacity);
      var out := new Cursor(s.outBufferCapacity);
      input, output := in_, out;
    }

    /** A call to the handler. */
    ghost method Call(call: Callback)
      requires Valid()
      modifies this`trace
      ensures View() == old(View()).Called(call)
    {
      trace := trace.(calls := trace.calls + [call]);
    }

    // ---------- state changes ----------

    method Open() returns (r: Outcome)
      requires Valid()
      modifies this`state
      ensures (View(), r) == OpenUp(old(View()))
    {
      r := if state.Connecting? then Pass else Fail(Internal);
      state := State.Open;
    }

    method MakeServer()
      requires Valid()
      modifies this`events
      ensures View() == AsServer(old(View()))
    {
      events := events.(readable := true);
    }

    method MakeClient(url: string, addrs: seq<nat>) returns (r: Outcome)
      requires Valid()
      modifies this
      ensures Valid() && (View(), r) == AsClient(old(View()), url, addrs)
    {
      if state.Open? {
        addresses := addrs;
        events := events.(readable := true);
        endpoint := Client(url);
        r := Pass;
      } else {
        r := Fail(Internal);
      }
    }

    method TryReset(dials: bool) returns (r: Outcome)
      requires Valid()
      modifies this
      ensures Valid() && (View(), r) == Reset(settings, old(View()), dials)
    {
      if endpoint.Client? {
        if state.Connecting? {
          events := events.(writable := false);
          events := events.(readable := true);
          if addresses != [] {
            addresses := addresses[..|addresses| - 1];
            r := if dials then Pass else Fail(Io(None));
          } else {
            if settings.panicOnNewConnection {
              panicked := true;
            }
            r := Fail(Internal);
          }
        } else {
          r := Fail(Internal);
        }
      } else {
        r := Fail(Internal);
      }
    }

    method UpdateEvents()
      requires Valid()
      modifies this`events
      ensures View() == CheckEvents(old(View()))
    {
      if !state.Connecting? {
        events := events.(readable := true);
        if output.pos < |output.data| {
          events := events.(writable := true);
        }
      }
    }

    method Close()
      requires Valid()
      modifies this
      ensures Valid() && View() == SendClose(old(View()))
    {
      match state {
        case RespondingClose => state := FinishedClose;
        case AwaitingClose =>
          UpdateEvents();
          return;
        case FinishedClose =>
          UpdateEvents();
          return;
        case Open => state := AwaitingClose;
        case Connecting =>
          panicked := true;
          return;
      }
      UpdateEvents();
    }

    method HangUp()
      requires Valid()
      modifies this
      ensures Valid() && View() == Disconnect(old(View()))
    {
      if !state.RespondingClose? && !state.FinishedClose? && !state.Connecting? {
        Call(OnClose);
      }
      events := NOTHING;
    }

    method Shutdown()
      requires Valid()
      modifies this
      ensures Valid() && View() == ShutdownConn(old(View()))
    {
      Call(OnShutdown);
      Close();
    }

    method Report(kind: Kind)
      requires Valid()
      modifies this
      ensures Valid() && View() == Error(settings, old(View()), kind)
    {
      if state.Connecting? {
        Call(OnError(kind));
        if endpoint.Server? {
          events := events.(readable := false);
          events := events.(writable := true);
        } else {
          events := NOTHING;
        }
      } else if settings.PanicsOn(kind) {
        panicked := true;
      } else {
        Call(OnError(kind));
        if ClosesOn(kind) {
          Close();
        } else if HangsUpOn(kind) {
          HangUp();
        }
      }
    }

    method SetTimeout(event: nat, reply: Option<Kind>) returns (r: Outcome)
      requires Valid()
      modifies this
      ensures Valid() && (View(), r) == NewTimeout(old(View()), event, reply)
    {
      Call(OnNewTimeout(event));
      r := if reply.Some? then Fail(reply.value) else Pass;
    }

    method Timeout(event: nat, reply: Option<Kind>) returns (r: Outcome)
      requires Valid()
      modifies this
      ensures Valid() && (View(), r) == TimeoutTriggered(old(View()), event, reply)
    {
      Call(OnTimeout(event));
      r := if reply.Some? then Fail(reply.value) else Pass;
    }

    // ---------- reading ----------

    /** Compacts a full input vector, and grows it if that frees nothing. */
    method MakeInputRoom() returns (r: Outcome)
      requires Valid()
      modifies input
      ensures Valid() && (input.View(), r) == NextInBuffer(settings, old(input.View()))
    {
      var packed := new Cursor(input.cap);
      packed.Extend(input.data[input.pos..]);
      assert packed.data == input.data[input.pos..];
      if |packed.data| == packed.cap {
        if settings.inBufferGrow {
          packed.Reserve(settings.inBufferCapacity);
        } else {
          return Fail(Capacity);
        }
      }
      input.Become(packed);
      r := Pass;
    }

    /** One pass of the read loop: done tells whether it stops, answering r. */
    method ReadPass(supply: seq<ReadResult>)
      returns (done: bool, r: Result<Option<nat>>, rest: seq<ReadResult>, ghost taken: Bytes)
      requires Valid()
      modifies input
      ensures Valid()
      ensures var p := OnePass(settings, old(input.View()), supply);
        && done == p.Stop? && taken == p.taken && rest == p.rest && input.View() == p.buf
        && (done ==> r == p.outcome)
    {
      taken := if supply != [] && supply[0].Data? then Fill(input.View(), supply).taken else [];
      r, rest := input.TryRead(supply);
      done := true;
      if r.Ok? && r.value.Some? {
        if r.value.value == 0 || |input.data| != input.cap {
          r := Ok(Some(|input.data|));
        } else {
          var room := MakeInputRoom();
          if room.Fail? {
            r := Err(room.error);
          } else {
            done := false;
          }
        }
      }
    }

    /** The read loop. */
    method FillInput(supply: seq<ReadResult>) returns (r: Result<Option<nat>>, ghost got: Bytes)
      requires Valid()
      modifies input
      ensures Valid()
      ensures var intake := BufferIn(settings, old(input.View()), supply);
        input.View() == intake.buf && r == intake.outcome && got == intake.got
    {
      got, r := [], Ok(None);
      var done, rest := false, supply;
      ghost var entry, taken: Bytes := input.View(), [];
      while !done
        invariant Valid()
        invariant !done ==> SameEnd(got, BufferIn(settings, input.View(), rest), BufferIn(settings, entry, supply))
        invariant done ==> var whole := BufferIn(settings, entry, supply);
                    input.View() == whole.buf && r == whole.outcome && got == whole.got
        decreases !done, SupplySize(rest)
      {
        done, r, rest, taken := ReadPass(rest);
        got := got + taken;
      }
    }

    /** Going on with r after receiving got is the whole call. */
    static ghost predicate SameEnd(got: Bytes, r: Intake, whole: Intake) {
      r.buf == whole.buf && r.outcome == whole.outcome && got + r.got == whole.got
    }

    method TakeInput(reply: Option<Kind>) returns (r: Outcome)
      requires Valid()
      modifies this, input
      ensures Valid() && (View(), r) == ReadData(old(View()), reply)
    {
      var chunk := input.ReadToEnd();
      trace := trace.(taken := trace.taken + [chunk]);
      if ValidUtf8(chunk) {
        Call(OnMessage(chunk));
        r := if reply.Some? then Fail(reply.value) else Pass;
      } else {
        r := Fail(Encoding);
      }
    }

    method Read(supply: seq<ReadResult>, reply: Option<Kind>) returns (r: Outcome)
      requires Valid()
      modifies this, input
      ensures Valid() && (View(), r) == ConnectionSpec.Read(settings, old(View()), supply, reply)
    {
      if state.Connecting? {
        return Fail(Internal);
      }
      var filled, got := FillInput(supply);
      trace := trace.(received := trace.received + got);
      if filled.Err? {
        return Fail(filled.error);
      }
      if filled.value.None? {
        return Pass;
      }
      r := TakeInput(reply);
      if r.Pass? && filled.value.value == 0 {
        if events.writable {
          events := events.(readable := false);
        } else {
          HangUp();
        }
      }
    }

    // ---------- writing ----------

    method Write(answer: WriteResult) returns (r: Outcome)
      requires Valid()
      modifies this, output
      ensures Valid() && (View(), r) == ConnectionSpec.Write(old(View()), answer)
    {
      if state.Connecting? {
        return Fail(Internal);
      }
      events := events.(writable := false);
      ghost var unsent := output.View().Unread();
      var wrote := output.TryWrite(answer);
      if wrote.Err? {
        return Fail(wrote.error);
      }
      if wrote.value.Some? {
        trace := trace.(sent := trace.sent + unsent[..wrote.value.value]);
        if wrote.value.value == 0 && state.FinishedClose? && endpoint.Server? {
          events := NOTHING;
          return Pass;
        }
      }
      UpdateEvents();
      r := Pass;
    }

    /** Compacts the output vector when a message does not fit, and grows it if that frees nothing. */
    method MakeOutputRoom(size: nat) returns (r: Outcome)
      requires Valid()
      modifies output
      ensures Valid() && (output.View(), r) == CheckBufferOut(settings, old(output.View()), size)
    {
      if output.cap <= |output.data| + size {
        var packed := new Cursor(output.cap);
        packed.Extend(output.data[output.pos..]);
        assert packed.data == output.data[output.pos..];
        if |packed.data| == packed.cap {
          if settings.outBufferGrow {
            packed.Reserve(settings.outBufferCapacity);
          } else {
            return Fail(Capacity);
          }
        }
        output.Become(packed);
      }
      r := Pass;
    }

    method Send(msg: Bytes) returns (r: Outcome)
      requires Valid()
      modifies this, output
      ensures Valid() && (View(), r) == SendMessage(settings, old(View()), msg)
    {
      if state.IsClosing() {
        return Pass;
      }
      r := MakeOutputRoom(|msg|);
      if r.Fail? {
        return;
      }
      var pos := output.pos;
      output.SeekEnd();
      output.Write(msg);
      output.SeekTo(pos);
      trace := trace.(accepted := trace.accepted + [msg], peak := Max(trace.peak, |output.View().Unread()|));
      UpdateEvents();
    }

    // ---------- reacting to a readiness event ----------

    method RecoverFrom(kind: Kind, dials: bool) returns (reset: bool)
      requires Valid()
      modifies this
      ensures Valid() && (View(), reset) == Recover(settings, old(View()), kind, dials)
    {
      if kind == Io(Some(CONNECTION_REFUSED)) {
        var r := TryReset(dials);
        if panicked || r.Pass? {
          return r.Pass?;
        }
      }
      Report(kind);
      reset := false;
    }

    method React(kind: Interest, supply: seq<ReadResult>, onMessage: Option<Kind>, answer: WriteResult, redials: bool)
      returns (reset: bool)
      requires Valid()
      modifies this, input, output
      ensures Valid()
      ensures (View(), reset) == OnReadiness(settings, old(View()), kind, supply, onMessage, answer, redials)
    {
      reset := false;
      if kind.readable && events.readable {
        var r := Read(supply, onMessage);
        if r.Fail? {
          reset := RecoverFrom(r.error, redials);
        }
      }
      if panicked || reset {
        return;
      }
      if kind.writable && events.writable {
        var r := Write(answer);
        if r.Fail? {
          reset := RecoverFrom(r.error, redials);
        }
      }
    }

    // ---------- commands ----------

    method Deliver(signal: Signal) returns (r: Outcome)
      requires Valid()
      modifies this, output
      ensures Valid() && (View(), r) == Deliver1(settings, old(View()), signal)
    {
      r := Pass;
      match signal {
        case Message(payload) => r := Send(payload);
        case Close => Close();
        case Shutdown => Shutdown();
        case Connect(_) =>
        case Timeout(_) =>
        case Cancel =>
      }
    }

    /** Delivers, and reports a refusal. */
    method DeliverAndReport(signal: Signal)
      requires Valid()
      modifies this, output
      ensures Valid() && View() == Reported(settings, Deliver1(settings, old(View()), signal))
    {
      var r := Deliver(signal);
      if r.Fail? && !panicked {
        Report(r.error);
      }
    }
  }
}
