// What each step of the loop does to one connection: everything kept, and nothing accepted
// except the payload of a message delivered to it.
module ConnectionSteps {
  import opened Types
  import opened ConnectionSpec
  import opened ConnectionProofs
  import opened Lifecycle
  import opened LoopSpec

  /** What holds of every connection in the slab between events. */
  predicate Good(s: Settings, c: Conn) {
    Sound(s, c) && Settled(c) && InputBounded(s, c) && !c.panicked
  }

  predicate Step(s: Settings, c: Conn, c': Conn) {
    c'.panicked || (Good(s, c') && Evolves(c, c'))
  }

  predicate QuietStep(s: Settings, c: Conn, c': Conn) {
    Step(s, c, c') && (c'.panicked || Quiet(c, c'))
  }

  /** A step that leaves a live connection live or ended. */
  predicate Tidy(c: Conn, c': Conn) {
    Alive(c) ==> c'.panicked || Alive(c') || Ended(c')
  }

  lemma StepTrans(s: Settings, a: Conn, b: Conn, c: Conn)
    requires Step(s, a, b) && Step(s, b, c) && !b.panicked
    ensures Step(s, a, c)
    ensures QuietStep(s, a, b) && QuietStep(s, b, c) ==> QuietStep(s, a, c)
  {
  }

  lemma NewConnGood(s: Settings, token: nat, handler: nat, id: nat)
    ensures var c := OpenUp(NewConn(s, token, handler, id)).0;
      Good(s, c) && c.trace.accepted == [] && c.trace.calls == [] && c.state.Open?
  {
  }

  lemma ErrorStep(s: Settings, c: Conn, kind: Kind)
    requires Good(s, c)
    ensures var c' := Error(s, c, kind); QuietStep(s, c, c') && Tidy(c, c')
  {
    ErrorKeeps(s, c, kind);
    ErrorOnlyCalls(s, c, kind);
    OnlyCallsInputBounded(s, c, Error(s, c, kind));
    if Alive(c) {
      ErrorAliveOrEnded(s, c, kind);
    }
  }

  lemma CalledStep(s: Settings, c: Conn, call: Callback)
    requires Good(s, c) && !call.OnMessage? && !call.OnClose?
    ensures var c' := c.Called(call); QuietStep(s, c, c') && !c'.panicked && (Alive(c) ==> Alive(c'))
  {
    CalledOnlyCalls(c, call);
    OnlyCallsKeeps(s, c, c.Called(call));
    OnlyCallsInputBounded(s, c, c.Called(call));
  }

  lemma SendCloseStep(s: Settings, c: Conn)
    requires Good(s, c)
    ensures var c' := SendClose(c);
      QuietStep(s, c, c') && !c'.panicked && c'.state.AwaitingClose? && (Alive(c) ==> Alive(c'))
  {
  }

  lemma ShutdownStep(s: Settings, c: Conn)
    requires Good(s, c)
    ensures var c' := ShutdownConn(c);
      QuietStep(s, c, c') && !c'.panicked && c'.state.AwaitingClose? && (Alive(c) ==> Alive(c'))
  {
    CalledStep(s, c, OnShutdown);
    SendCloseStep(s, c.Called(OnShutdown));
    StepTrans(s, c, c.Called(OnShutdown), ShutdownConn(c));
  }

  // ---------- readiness ----------

  lemma AfterReadStep(s: Settings, c: Conn, env: Env)
    requires Good(s, c)
    ensures var (c', reset) := AfterRead(s, c, env.supply, env.onMessage, env.redials);
      QuietStep(s, c, c') && Tidy(c, c') && !reset
  {
    AfterReadKeeps(s, c, env.supply, env.onMessage, env.redials);
    AfterReadInputBounded(s, c, env.supply, env.onMessage, env.redials);
    if Alive(c) {
      AfterReadAliveOrEnded(s, c, env.supply, env.onMessage, env.redials);
    }
  }

  lemma WriteInputBounded(s: Settings, c: Conn, answer: WriteResult)
    requires InputBounded(s, c)
    ensures InputBounded(s, Write(c, answer).0)
  {
  }

  lemma AfterWriteStep(s: Settings, c: Conn, env: Env)
    requires Good(s, c)
    ensures var (c', reset) := AfterWrite(s, c, env.write, env.redials);
      QuietStep(s, c, c') && Tidy(c, c') && !reset
  {
    AfterWriteKeeps(s, c, env.write, env.redials);
    WriteInputBounded(s, c, env.write);
    var (c1, r) := Write(c, env.write);
    if r.Fail? {
      WriteKeeps(s, c, env.write);
      RecoverReports(s, c1, r.error, env.redials);
      ErrorOnlyCalls(s, c1, r.error);
      OnlyCallsInputBounded(s, c1, Error(s, c1, r.error));
    }
    if Alive(c) {
      AfterWriteAliveOrEnded(s, c, env.write, env.redials);
    }
  }

  /** A connection that reads ended has no interest left, so it is not written to. */
  lemma OnReadyStep(s: Settings, c: Conn, kind: Interest, env: Env)
    requires Good(s, c)
    ensures var (c', reset) := OnReady(s, c, kind, env);
      QuietStep(s, c, c') && Tidy(c, c') && !reset
  {
    if kind.readable && c.events.readable {
      AfterReadStep(s, c, env);
      var c1 := AfterRead(s, c, env.supply, env.onMessage, env.redials).0;
      if !c1.panicked && kind.writable && c1.events.writable {
        AfterWriteStep(s, c1, env);
        StepTrans(s, c, c1, AfterWrite(s, c1, env.write, env.redials).0);
      }
    } else if kind.writable && c.events.writable {
      AfterWriteStep(s, c, env);
    }
  }

  lemma OnFireStep(s: Settings, c: Conn, event: nat, reply: Option<Kind>)
    requires Good(s, c)
    ensures var c' := OnFire(s, c, event, reply); QuietStep(s, c, c') && Tidy(c, c')
  {
    var c1 := c.Called(OnTimeout(event));
    CalledStep(s, c, OnTimeout(event));
    if reply.Some? {
      ErrorStep(s, c1, reply.value);
      StepTrans(s, c, c1, Error(s, c1, reply.value));
    }
  }

  lemma SetTimeout1Step(s: Settings, c: Conn, event: nat, reply: Option<Kind>)
    requires Good(s, c)
    ensures var c' := SetTimeout1(s, c, event, reply);
      QuietStep(s, c, c') && Tidy(c, c') && (Alive(c) && reply.None? ==> Alive(c'))
  {
    var c1 := c.Called(OnNewTimeout(event));
    CalledStep(s, c, OnNewTimeout(event));
    if reply.Some? {
      ErrorStep(s, c1, reply.value);
      StepTrans(s, c, c1, Error(s, c1, reply.value));
    }
  }

  // ---------- delivery of a command ----------

  /** The payload a connection accepts from a signal delivered to it: the whole message, unless
      it is closing, or growth is off and its full capacity is unsent. */
  function Accepts(s: Settings, c: Conn, signal: Signal): seq<Bytes> {
    if signal.Message? && !c.state.IsClosing() && (s.outBufferGrow || |c.Unsent()| < c.output.cap)
    then [signal.payload] else []
  }

  /** Identical except for accepting what Accepts says. */
  predicate AcceptsExactly(s: Settings, c: Conn, signal: Signal, c': Conn) {
    c'.panicked || c'.trace.accepted == c.trace.accepted + Accepts(s, c, signal)
  }

  lemma SendMessageStep(s: Settings, c: Conn, msg: Bytes)
    requires Good(s, c)
    ensures var (c', r) := SendMessage(s, c, msg);
      && Step(s, c, c') && !c'.panicked && (Alive(c) ==> Alive(c'))
      && AcceptsExactly(s, c, Message(msg), c')
      && (r.Fail? ==> r.error == Capacity)
  {
    SendMessageOutcome(s, c, msg);
    SendMessageKeeps(s, c, msg);
    if Alive(c) {
      SendMessageAlive(s, c, msg);
    }
  }

  lemma Deliver1Step(s: Settings, c: Conn, signal: Signal)
    requires Good(s, c)
    ensures var (c', r) := Deliver1(s, c, signal);
      && Step(s, c, c') && !c'.panicked && (Alive(c) ==> Alive(c'))
      && AcceptsExactly(s, c, signal, c')
      && (r.Fail? ==> r.error == Capacity)
  {
    match signal
    case Message(payload) => SendMessageStep(s, c, payload);
    case Close => SendCloseStep(s, c);
    case Shutdown => ShutdownStep(s, c);
    case Connect(_) =>
    case Timeout(_) =>
    case Cancel =>
  }

  lemma ErrorClosesAlive(s: Settings, c: Conn, kind: Kind)
    requires Alive(c) && !HangsUpOn(kind)
    ensures var c' := Error(s, c, kind); c'.panicked || Alive(c')
  {
  }

  lemma ReportedStep(s: Settings, c: Conn, signal: Signal, d: (Conn, Outcome))
    requires Step(s, c, d.0) && !d.0.panicked && AcceptsExactly(s, c, signal, d.0)
    ensures var c' := Reported(s, d); Step(s, c, c') && AcceptsExactly(s, c, signal, c')
  {
    if d.1.Fail? {
      ErrorStep(s, d.0, d.1.error);
      StepTrans(s, c, d.0, Error(s, d.0, d.1.error));
    }
  }

  lemma ReportedAlive(s: Settings, d: (Conn, Outcome))
    requires Alive(d.0) && (d.1.Fail? ==> !HangsUpOn(d.1.error))
    ensures var c' := Reported(s, d); c'.panicked || Alive(c')
  {
  }

  lemma Reported1Step(s: Settings, c: Conn, signal: Signal)
    requires Good(s, c)
    ensures var c' := Reported(s, Deliver1(s, c, signal));
      && Step(s, c, c') && (Alive(c) && !c'.panicked ==> Alive(c'))
      && AcceptsExactly(s, c, signal, c')
  {
    var d := Deliver1(s, c, signal);
    Deliver1Step(s, c, signal);
    ReportedStep(s, c, signal, d);
    if Alive(c) {
      ReportedAlive(s, d);
    }
  }

  lemma Broadcast1Step(s: Settings, c: Conn, signal: Signal, rearmFails: bool)
    requires Good(s, c)
    ensures var c' := Broadcast1(s, c, signal, rearmFails);
      && Step(s, c, c') && (Alive(c) && !rearmFails && !c'.panicked ==> Alive(c'))
      && AcceptsExactly(s, c, signal, c')
  {
    var c1 := Reported(s, Deliver1(s, c, signal));
    Reported1Step(s, c, signal);
    if rearmFails && !c1.panicked {
      ErrorStep(s, c1, Io(None));
      StepTrans(s, c, c1, Error(s, c1, Io(None)));
    }
  }
}
