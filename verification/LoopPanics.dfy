// When the loop panics: for every event, and so for every run, exactly the cases named here.
module LoopPanics {
  import opened Types
  import opened Buffers
  import opened ConnectionSpec
  import opened ConnectionProofs
  import opened Lifecycle
  import opened LoopSpec
  import opened ConnectionSteps
  import opened LoopInvariant
  import opened LoopSafety
  import opened LoopRuns

  // ---------- one connection ----------

  /** Past the handshake, reporting an error panics exactly when the settings say so for its kind:
      closing and hanging up never do. */
  lemma ErrorPanicsIff(s: Settings, c: Conn, kind: Kind)
    requires Settled(c) && !c.panicked
    ensures Error(s, c, kind).panicked <==> s.PanicsOn(kind)
  {
  }

  /** The error a read ends with, if any, by the answers of the socket and of the handler. */
  function ReadError(s: Settings, c: Conn, supply: seq<ReadResult>, reply: Option<Kind>): Option<Kind> {
    match ReadFate(s, c, supply)
    case Handed(k) => if ValidUtf8(c.input.Unread() + SupplyBytes(supply[..k])) then reply else Some(Encoding)
    case Held(k) => if k < |supply| && supply[k].ReadFails? then Some(Io(supply[k].errno)) else None
    case Overrun => Some(Capacity)
  }

  predicate Raises(s: Settings, error: Option<Kind>) {
    error.Some? && s.PanicsOn(error.value)
  }

  lemma ReadFailsIff(s: Settings, c: Conn, supply: seq<ReadResult>, reply: Option<Kind>)
    requires Settled(c)
    ensures Read(s, c, supply, reply).1 == Answer(ReadError(s, c, supply, reply))
  {
    ReadDeliversExactly(s, c, supply, reply);
  }

  lemma AfterReadPanicsIff(s: Settings, c: Conn, env: Env)
    requires Settled(c) && !c.panicked
    ensures AfterRead(s, c, env.supply, env.onMessage, env.redials).0.panicked <==>
            Raises(s, ReadError(s, c, env.supply, env.onMessage))
  {
    var (c1, r) := Read(s, c, env.supply, env.onMessage);
    ReadFailsIff(s, c, env.supply, env.onMessage);
    ReadSettled(s, c, env.supply, env.onMessage);
    if r.Fail? {
      RecoverReports(s, c1, r.error, env.redials);
      ErrorPanicsIff(s, c1, r.error);
    }
  }

  lemma AfterWritePanicsIff(s: Settings, c: Conn, env: Env)
    requires Settled(c) && !c.panicked
    ensures AfterWrite(s, c, env.write, env.redials).0.panicked <==> s.panicOnIo && env.write.WriteFails?
  {
    var (c1, r) := Write(c, env.write);
    if r.Fail? {
      RecoverReports(s, c1, r.error, env.redials);
      ErrorPanicsIff(s, c1, r.error);
    }
  }

  predicate Reads(c: Conn, kind: Interest) {
    kind.readable && c.events.readable
  }

  /** The connection once an event on it has been read, and before it is written. */
  function OnceRead(s: Settings, c: Conn, kind: Interest, env: Env): Conn {
    if Reads(c, kind) then AfterRead(s, c, env.supply, env.onMessage, env.redials).0 else c
  }

  /** The read ends with an error that panics, or the write fails and I/O errors panic. */
  predicate ReadyPanics(s: Settings, c: Conn, kind: Interest, env: Env) {
    || (Reads(c, kind) && Raises(s, ReadError(s, c, env.supply, env.onMessage)))
    || (s.panicOnIo && kind.writable && OnceRead(s, c, kind, env).events.writable && env.write.WriteFails?)
  }

  lemma OnReadyPanicsIff(s: Settings, c: Conn, kind: Interest, env: Env)
    requires Good(s, c)
    ensures OnReady(s, c, kind, env).0.panicked <==> ReadyPanics(s, c, kind, env)
  {
    var c1 := OnceRead(s, c, kind, env);
    AfterReadPanicsIff(s, c, env);
    AfterReadStep(s, c, env);
    if !c1.panicked {
      AfterWritePanicsIff(s, c1, env);
    }
  }

  /** A message the connection has no room for. */
  predicate RefusesMessage(s: Settings, c: Conn, signal: Signal) {
    signal.Message? && !c.state.IsClosing() && !s.outBufferGrow && |c.Unsent()| == c.output.cap
  }

  lemma DeliveryFailsIff(s: Settings, c: Conn, signal: Signal)
    ensures var r := Deliver1(s, c, signal).1;
      (r.Fail? <==> RefusesMessage(s, c, signal)) && (r.Fail? ==> r.error == Capacity)
  {
    if signal.Message? {
      SendMessageOutcome(s, c, signal.payload);
    }
  }

  lemma ReportedPanicsIff(s: Settings, d: (Conn, Outcome))
    requires Settled(d.0) && !d.0.panicked
    ensures Reported(s, d).panicked <==> d.1.Fail? && s.PanicsOn(d.1.error)
  {
  }

  lemma DeliveryPanicsIff(s: Settings, c: Conn, signal: Signal)
    requires Good(s, c)
    ensures Reported(s, Deliver1(s, c, signal)).panicked <==> s.panicOnCapacity && RefusesMessage(s, c, signal)
  {
    Deliver1Step(s, c, signal);
    DeliveryFailsIff(s, c, signal);
    ReportedPanicsIff(s, Deliver1(s, c, signal));
  }

  predicate TellPanics(s: Settings, c: Conn, signal: Signal, rearmFails: bool) {
    (s.panicOnCapacity && RefusesMessage(s, c, signal)) || (s.panicOnIo && rearmFails)
  }

  lemma RearmPanicsIff(s: Settings, c: Conn, rearmFails: bool)
    requires c.panicked || Settled(c)
    ensures var c' := if rearmFails && !c.panicked then Error(s, c, Io(None)) else c;
      c'.panicked <==> c.panicked || (s.panicOnIo && rearmFails)
  {
  }

  lemma Broadcast1PanicsIff(s: Settings, c: Conn, signal: Signal, rearmFails: bool)
    requires Good(s, c)
    ensures Broadcast1(s, c, signal, rearmFails).panicked <==> TellPanics(s, c, signal, rearmFails)
  {
    DeliveryPanicsIff(s, c, signal);
    Reported1Step(s, c, signal);
    RearmPanicsIff(s, Reported(s, Deliver1(s, c, signal)), rearmFails);
  }

  lemma SetTimeout1PanicsIff(s: Settings, c: Conn, event: nat, reply: Option<Kind>)
    requires Good(s, c)
    ensures SetTimeout1(s, c, event, reply).panicked <==> Raises(s, reply)
  {
    if reply.Some? {
      ErrorPanicsIff(s, c.Called(OnNewTimeout(event)), reply.value);
    }
  }

  lemma OnFirePanicsIff(s: Settings, c: Conn, event: nat, reply: Option<Kind>)
    requires Good(s, c)
    ensures OnFire(s, c, event, reply).panicked <==> Raises(s, reply)
  {
    if reply.Some? {
      ErrorPanicsIff(s, c.Called(OnTimeout(event)), reply.value);
    }
  }

  // ---------- events on connections, timers and the listener ----------

  /** A connection still interested in something that cannot be rearmed, where I/O errors panic. */
  predicate CheckPanics(s: Settings, c: Conn, fails: bool) {
    s.panicOnIo && fails && c.events.Any()
  }

  lemma CheckActivePanicsIff(w: Loop, t: nat, c: Conn, fails: bool)
    requires !w.panicked && Settled(c) && !c.panicked
    ensures CheckActive(w.Put(t, c), t, fails).panicked <==> CheckPanics(w.settings, c, fails)
  {
    ErrorPanicsIff(w.settings, c, Io(None));
  }

  predicate ConnPanics(w: Loop, t: nat, kind: Interest, env: Env)
    requires t in w.conns
  {
    var s, c := w.settings, w.conns[t];
    ReadyPanics(s, c, kind, env) || CheckPanics(s, OnReady(s, c, kind, env).0, t in env.rearmFails)
  }

  lemma HandleConnPanicsIff(w: Loop, t: nat, kind: Interest, env: Env)
    requires Inv(w) && !w.panicked && t in w.conns
    ensures HandleConn(w, t, kind, env).panicked <==> ConnPanics(w, t, kind, env)
  {
    var c := OnReady(w.settings, w.conns[t], kind, env).0;
    assert SlotOk(w, t);
    OnReadyPanicsIff(w.settings, w.conns[t], kind, env);
    OnReadyStep(w.settings, w.conns[t], kind, env);
    if !c.panicked {
      CheckActivePanicsIff(w, t, c, t in env.rearmFails);
    }
  }

  predicate FirePanics(w: Loop, fire: TimerFire) {
    fire.token in w.conns &&
    (Raises(w.settings, fire.reply) ||
     CheckPanics(w.settings, OnFire(w.settings, w.conns[fire.token], fire.event, fire.reply), fire.rearmFails))
  }

  lemma HandleTimeoutPanicsIff(w: Loop, fire: TimerFire)
    requires Inv(w) && !w.panicked
    ensures HandleTimeout(w, fire).panicked <==> FirePanics(w, fire)
  {
    var t := fire.token;
    if t in w.conns {
      var c := OnFire(w.settings, w.conns[t], fire.event, fire.reply);
      assert SlotOk(w, t);
      OnFirePanicsIff(w.settings, w.conns[t], fire.event, fire.reply);
      OnFireStep(w.settings, w.conns[t], fire.event, fire.reply);
      if !c.panicked {
        CheckActivePanicsIff(w, t, c, fire.rearmFails);
      }
    }
  }

  /** One of the timers that fire panics, when its turn comes. */
  predicate TimersPanic(w: Loop, fires: seq<TimerFire>)
    decreases |fires|
  {
    fires != [] && (FirePanics(w, fires[0]) || TimersPanic(HandleTimeout(w, fires[0]), fires[1..]))
  }

  lemma {:induction false} HandleTimersPanicIff(w: Loop, fires: seq<TimerFire>)
    requires Inv(w) && !w.panicked
    ensures HandleTimers(w, fires).panicked <==> TimersPanic(w, fires)
    decreases |fires|
  {
    if fires != [] {
      HandleTimeoutPanicsIff(w, fires[0]);
      HandleTimeoutSafe(w, fires[0]);
      if !HandleTimeout(w, fires[0]).panicked {
        HandleTimersPanicIff(HandleTimeout(w, fires[0]), fires[1..]);
      }
    }
  }

  /** There is no listener to accept from, or accepting fails where that panics. */
  predicate ListenerPanics(w: Loop, kind: Interest, env: Env) {
    kind.readable &&
    (!w.listening ||
     (env.accepts && w.settings.panicOnNewConnection
      && (MayDrop(w.settings, env) || SlabFull(w) || env.registerFails)))
  }

  lemma HandleListenerPanicsIff(w: Loop, kind: Interest, env: Env)
    requires !w.panicked
    ensures HandleListener(w, kind, env).panicked <==> ListenerPanics(w, kind, env)
  {
  }

  // ---------- commands ----------

  /** A connect that finds a slot but whose name does not resolve: that always panics. */
  predicate Unresolved(w: Loop, env: Env) {
    !SlabFull(w) && env.resolved.None?
  }

  /** The error a connect ends with, if any. */
  function ConnectError(w: Loop, env: Env): Option<Kind> {
    if SlabFull(w) then Some(Capacity)
    else if env.resolved.None? then None
    else if PickAddress(env, |env.resolved.value|).None? then Some(Internal)
    else if MayDrop(w.settings, env) || env.registerFails then Some(Io(None))
    else None
  }

  lemma DialledFailsIff(w: Loop, url: string, env: Env, pick: Option<nat>)
    requires Inv(w) && !SlabFull(w) && env.resolved.Some? && (pick.Some? ==> pick.value < |env.resolved.value|)
    ensures var (w', r) := Dialled(w, url, env, pick);
      && w'.panicked == w.panicked && w'.settings == w.settings
      && r == (if pick.None? then Fail(Internal)
               else if MayDrop(w.settings, env) || env.registerFails then Fail(Io(None)) else Pass)
      && (r.Fail? ==> w'.conns == w.conns)
  {
    if pick.Some? {
      var c := NewClient(w, url, env, env.resolved.value[..pick.value]).0;
      NewClientInserts(w, url, env, env.resolved.value[..pick.value]);
      assert w.conns[c.token := c] - {c.token} == w.conns;
    }
  }

  lemma ConnectToFailsIff(w: Loop, url: string, env: Env)
    requires Inv(w) && !w.panicked
    ensures var (w', r) := ConnectTo(w, url, env);
      && (w'.panicked <==> Unresolved(w, env)) && w'.settings == w.settings
      && r == Answer(ConnectError(w, env))
      && (r.Fail? ==> w'.conns == w.conns)
  {
    if !SlabFull(w) && env.resolved.Some? {
      DialledFailsIff(w, url, env, PickAddress(env, |env.resolved.value|));
    }
  }

  /** A connect from the server panics for its failure if new connections are to; one from the sender of
      a connection in the slab as the error would, being reported to that connection. */
  predicate ConnectPanics(w: Loop, ofServer: bool, t: nat, env: Env) {
    Unresolved(w, env) ||
    (ConnectError(w, env).Some? &&
     if !ofServer && t in w.conns then w.settings.PanicsOn(ConnectError(w, env).value)
     else w.settings.panicOnNewConnection)
  }

  lemma ConnectForPanicsIff(w: Loop, t: nat, url: string, env: Env)
    requires Inv(w) && !w.panicked
    ensures ConnectFor(w, t, url, env).panicked <==> ConnectPanics(w, false, t, env)
  {
    ConnectToFailsIff(w, url, env);
    if t in w.conns && ConnectError(w, env).Some? {
      assert SlotOk(w, t);
      ErrorPanicsIff(w.settings, w.conns[t], ConnectError(w, env).value);
    }
  }

  lemma ConnectForAllPanicsIff(w: Loop, url: string, env: Env)
    requires Inv(w) && !w.panicked
    ensures ConnectForAll(w, url, env).panicked <==> ConnectPanics(w, true, 0, env)
  {
    ConnectToFailsIff(w, url, env);
  }

  /** Telling some connection in the slab panics. */
  predicate SomeTellPanics(w: Loop, signal: Signal, rearmFails: set<nat>) {
    exists t | t in w.conns :: TellPanics(w.settings, w.conns[t], signal, t in rearmFails)
  }

  lemma BroadcastPanicsIff(w: Loop, signal: Signal, rearmFails: set<nat>)
    requires Inv(w) && !w.panicked
    ensures Broadcast(w, signal, rearmFails).panicked <==> SomeTellPanics(w, signal, rearmFails)
  {
    var conns := BroadcastConns(w, signal, rearmFails);
    forall t | t in w.conns
      ensures t in conns && (conns[t].panicked <==> TellPanics(w.settings, w.conns[t], signal, t in rearmFails))
    {
      assert SlotOk(w, t);
      Broadcast1PanicsIff(w.settings, w.conns[t], signal, t in rearmFails);
    }
  }

  lemma ShutdownAllPanicsIff(w: Loop)
    requires Inv(w) && !w.panicked
    ensures ShutdownAll(w).panicked <==> w.settings.panicOnShutdown
  {
    forall t | t in w.conns ensures !ShutdownConn(w.conns[t]).panicked {
      ShutdownSlot(w, t);
    }
  }

  lemma SchedulePanicsIff(w: Loop, t: nat, fails: bool)
    requires !w.panicked && t in w.conns && Settled(w.conns[t]) && !w.conns[t].panicked
    ensures Schedule(w, t, fails).panicked <==> w.settings.panicOnIo && fails
  {
    ErrorPanicsIff(w.settings, w.conns[t], Io(None));
  }

  lemma ShutdownForPanicsIff(w: Loop, t: nat, fails: bool)
    requires Inv(w) && !w.panicked
    ensures ShutdownFor(w, t, fails).panicked <==>
            w.settings.panicOnShutdown || (t in w.conns && w.settings.panicOnIo && fails)
  {
    var w1 := ShutdownAll(w);
    ShutdownAllPanicsIff(w);
    ShutdownSlots(w);
    if !w1.panicked && t in w1.conns {
      ShutdownSlot(w, t);
      SchedulePanicsIff(w1, t, fails);
    }
  }

  lemma AddressPanicsIff(w: Loop, cmd: Command, env: Env)
    requires Inv(w) && !w.panicked && cmd.token != ALL
    ensures Address(w, cmd, env).panicked <==>
            cmd.token in w.conns &&
            ((Reaches(w, cmd) && w.settings.panicOnCapacity
              && RefusesMessage(w.settings, w.conns[cmd.token], cmd.signal))
             || (w.settings.panicOnIo && cmd.token in env.rearmFails))
  {
    var t := cmd.token;
    if t in w.conns {
      var c := Addressed(w, cmd);
      assert SlotOk(w, t);
      DeliveryPanicsIff(w.settings, w.conns[t], cmd.signal);
      AddressSlot(w, cmd);
      if !c.panicked {
        ErrorPanicsIff(w.settings, c, Io(None));
      }
    }
  }

  /** The connection at t is in the slab, and what on_new_timeout returns for it panics. */
  predicate TimeoutPanicsAt(w: Loop, t: nat, env: Env) {
    t in w.conns && Raises(w.settings, ReplyOf(env, t))
  }

  lemma SetTimeoutAllPanicsIff(w: Loop, event: nat, env: Env)
    requires Inv(w) && !w.panicked
    ensures SetTimeoutAll(w, event, env).panicked <==>
            if env.timerFails then w.settings.panicOnTimeout else exists t | t in w.conns :: TimeoutPanicsAt(w, t, env)
  {
    var conns := TimeoutConns(w, event, env);
    forall t | t in w.conns ensures t in conns && (conns[t].panicked <==> TimeoutPanicsAt(w, t, env)) {
      assert SlotOk(w, t);
      SetTimeout1PanicsIff(w.settings, w.conns[t], event, ReplyOf(env, t));
    }
  }

  lemma SetTimeoutOnePanicsIff(w: Loop, t: nat, event: nat, env: Env)
    requires Inv(w) && !w.panicked
    ensures SetTimeoutOne(w, t, event, env).panicked <==>
            t in w.conns && if env.timerFails then w.settings.panicOnTimeout else TimeoutPanicsAt(w, t, env)
  {
    if t in w.conns {
      assert SlotOk(w, t);
      ErrorPanicsIff(w.settings, w.conns[t], Timer);
      SetTimeout1PanicsIff(w.settings, w.conns[t], event, ReplyOf(env, t));
    }
  }

  predicate CommandForAllPanics(w: Loop, signal: Signal, env: Env) {
    match signal
    case Message(_) => SomeTellPanics(w, signal, env.rearmFails)
    case Close => SomeTellPanics(w, signal, env.rearmFails)
    case Shutdown => w.settings.panicOnShutdown || SomeTellPanics(w, signal, env.rearmFails)
    case Connect(_) => ConnectPanics(w, true, 0, env)
    case Timeout(_) =>
      if env.timerFails then w.settings.panicOnTimeout else exists t | t in w.conns :: TimeoutPanicsAt(w, t, env)
    case Cancel => false
  }

  predicate CommandForOnePanics(w: Loop, cmd: Command, env: Env) {
    var s, t := w.settings, cmd.token;
    var unarmed := t in w.conns && s.panicOnIo && t in env.rearmFails;
    match cmd.signal
    case Message(_) => unarmed || (Reaches(w, cmd) && s.panicOnCapacity && RefusesMessage(s, w.conns[t], cmd.signal))
    case Close => unarmed
    case Shutdown => unarmed || s.panicOnShutdown
    case Connect(_) => ConnectPanics(w, false, t, env)
    case Timeout(_) => t in w.conns && if env.timerFails then s.panicOnTimeout else TimeoutPanicsAt(w, t, env)
    case Cancel => false
  }

  predicate CommandPanics(w: Loop, cmd: Command, env: Env) {
    cmd.token != SYSTEM &&
    if cmd.token == ALL then CommandForAllPanics(w, cmd.signal, env) else CommandForOnePanics(w, cmd, env)
  }

  lemma HandleAllPanicsIff(w: Loop, signal: Signal, env: Env)
    requires Inv(w) && !w.panicked
    ensures HandleAll(w, signal, env).panicked <==> CommandForAllPanics(w, signal, env)
  {
    match signal {
      case Message(_) => BroadcastPanicsIff(w, signal, env.rearmFails);
      case Close => BroadcastPanicsIff(w, signal, env.rearmFails);
      case Shutdown => BroadcastPanicsIff(w, signal, env.rearmFails);
      case Connect(url) => ConnectForAllPanicsIff(w, url, env);
      case Timeout(event) => SetTimeoutAllPanicsIff(w, event, env);
      case Cancel =>
    }
  }

  lemma HandleOnePanicsIff(w: Loop, cmd: Command, env: Env)
    requires Inv(w) && !w.panicked && cmd.token != ALL
    ensures HandleOne(w, cmd, env).panicked <==> CommandForOnePanics(w, cmd, env)
  {
    match cmd.signal {
      case Message(_) => AddressPanicsIff(w, cmd, env);
      case Close => AddressPanicsIff(w, cmd, env);
      case Shutdown => ShutdownForPanicsIff(w, cmd.token, cmd.token in env.rearmFails);
      case Connect(url) => ConnectForPanicsIff(w, cmd.token, url, env);
      case Timeout(event) => SetTimeoutOnePanicsIff(w, cmd.token, event, env);
      case Cancel =>
    }
  }

  lemma HandleQueuePanicsIff(w: Loop, cmd: Command, env: Env)
    requires Inv(w) && !w.panicked
    ensures HandleQueue(w, cmd, env).panicked <==> CommandPanics(w, cmd, env)
  {
    if cmd.token == SYSTEM {
    } else if cmd.token == ALL {
      HandleAllPanicsIff(w, cmd.signal, env);
    } else {
      HandleOnePanicsIff(w, cmd, env);
    }
  }

  // ---------- events, batches and runs ----------

  /** The events that panic: one for the system; one for a token that is neither reserved nor in the
      slab, such as that of a connection removed earlier in the batch; and those that meet one of
      the cases above. */
  predicate EventPanics(w: Loop, e: Event) {
    var w1 := Arrived(w, e.env);
    if e.token == SYSTEM then true
    else if e.token == ALL then ListenerPanics(w1, e.kind, e.env)
    else if e.token == TIMER then TimersPanic(w1, e.env.timers)
    else if e.token == QUEUE then w1.queue != [] && CommandPanics(Dequeued(w1), w1.queue[0], e.env)
    else e.token in w1.conns ==> ConnPanics(w1, e.token, e.kind, e.env)
  }

  /** Handling an event panics exactly in those cases, whatever the settings. */
  lemma HandleEventPanicsIff(w: Loop, e: Event)
    requires Inv(w) && !w.panicked
    ensures HandleEvent(w, e).panicked <==> EventPanics(w, e)
  {
    var w1 := Arrived(w, e.env);
    SameConnsSafe(w, w1);
    if e.token == SYSTEM {
    } else if e.token == ALL {
      HandleListenerPanicsIff(w1, e.kind, e.env);
    } else if e.token == TIMER {
      HandleTimersPanicIff(w1, e.env.timers);
    } else if e.token == QUEUE {
      QueueEventPanicsIff(w1, e.env);
    } else if e.token in w1.conns {
      HandleConnPanicsIff(w1, e.token, e.kind, e.env);
    }
  }

  lemma QueueEventPanicsIff(w: Loop, env: Env)
    requires Inv(w) && !w.panicked
    ensures HandleNext(w, env).panicked <==> w.queue != [] && CommandPanics(Dequeued(w), w.queue[0], env)
  {
    if w.queue != [] {
      SameConnsSafe(w, Dequeued(w));
      HandleQueuePanicsIff(Dequeued(w), w.queue[0], env);
    }
  }

  predicate BatchPanics(w: Loop, batch: seq<Event>)
    decreases |batch|
  {
    batch != [] && (EventPanics(w, batch[0]) || BatchPanics(HandleEvent(w, batch[0]), batch[1..]))
  }

  predicate RunPanics(w: Loop, polls: seq<PollResult>)
    decreases |polls|
  {
    polls != [] && Running(w) &&
    ((polls[0].Ready? && BatchPanics(Polled(w, polls[0].batch), polls[0].batch))
     || RunPanics(Turn(w, polls[0]), polls[1..]))
  }

  lemma {:induction false} HandleEventsPanicIff(w: Loop, batch: seq<Event>)
    requires Inv(w) && TokensFit(w.settings) && !w.panicked
    ensures HandleEvents(w, batch).panicked <==> BatchPanics(w, batch)
    decreases |batch|
  {
    if batch != [] {
      HandleEventPanicsIff(w, batch[0]);
      HandleEventSafe(w, batch[0]);
      if !HandleEvent(w, batch[0]).panicked {
        HandleEventsPanicIff(HandleEvent(w, batch[0]), batch[1..]);
      }
    }
  }

  lemma TurnPanicsIff(w: Loop, p: PollResult)
    requires Inv(w) && TokensFit(w.settings) && !w.panicked
    ensures Turn(w, p).panicked <==> p.Ready? && BatchPanics(Polled(w, p.batch), p.batch)
  {
    if p.Ready? {
      SameConnsSafe(w, Polled(w, p.batch));
      HandleEventsPanicIff(Polled(w, p.batch), p.batch);
    }
  }

  /** A run panics exactly when one of its events does, from the state the loop has then. */
  lemma {:induction false} RunPanicsIff(w: Loop, polls: seq<PollResult>)
    requires Inv(w) && TokensFit(w.settings) && !w.panicked
    ensures Run(w, polls).panicked <==> RunPanics(w, polls)
    decreases |polls|
  {
    if polls != [] && Running(w) {
      TurnPanicsIff(w, polls[0]);
      TurnSafe(w, polls[0], 0, 0);
      if !Turn(w, polls[0]).panicked {
        RunPanicsIff(Turn(w, polls[0]), polls[1..]);
      }
    }
  }

  // ---------- panics without a failure of the loop's own ----------

  /** A connect from a connection's own sender that reaches no address panics the whole loop exactly
      when internal errors are to panic, as they are by default. */
  lemma UnansweredConnectPanicsIff(w: Loop, t: nat, url: string, env: Env)
    requires Inv(w) && !w.panicked && t in w.conns && !SlabFull(w)
    requires env.resolved.Some? && PickAddress(env, |env.resolved.value|).None?
    ensures ConnectFor(w, t, url, env).panicked <==> w.settings.panicOnInternal
  {
    ConnectForPanicsIff(w, t, url, env);
  }

  lemma FireHangsUp(w: Loop, fire: TimerFire)
    requires Inv(w) && !w.panicked && fire.token in w.conns
    requires fire.reply.Some? && HangsUpOn(fire.reply.value) && !w.settings.PanicsOn(fire.reply.value)
    ensures var w' := HandleTimeout(w, fire); !w'.panicked && fire.token !in w'.conns
  {
    assert SlotOk(w, fire.token);
    assert OnFire(w.settings, w.conns[fire.token], fire.event, fire.reply).events == NOTHING;
  }

  lemma TimerEventHangsUp(w: Loop, timer: Event, fire: TimerFire)
    requires Inv(w) && !w.panicked && timer.token == TIMER && timer.env.timers == [fire] && fire.token in w.conns
    requires fire.reply.Some? && HangsUpOn(fire.reply.value) && !w.settings.PanicsOn(fire.reply.value)
    ensures var w' := HandleEvent(w, timer); !w'.panicked && fire.token !in w'.conns
  {
    var w1 := Arrived(w, timer.env);
    SameConnsSafe(w, w1);
    FireHangsUp(w1, fire);
    assert [fire][1..] == [];
    assert HandleTimers(w1, [fire]) == HandleTimers(HandleTimeout(w1, fire), []);
  }

  lemma TwoEvents(w: Loop, first: Event, second: Event)
    requires !w.panicked && !HandleEvent(w, first).panicked
    ensures HandleEvents(w, [first, second]) == HandleEvent(HandleEvent(w, first), second)
  {
    var w1 := HandleEvent(w, first);
    assert [first, second][1..] == [second] && [second][1..] == [];
    assert HandleEvents(w1, [second]) == HandleEvents(HandleEvent(w1, second), []);
  }

  /** A connection that a timer hangs up is gone when its own event comes later in the batch, and that
      event panics the loop. */
  lemma HungUpByTimerPanics(w: Loop, timer: Event, e: Event, fire: TimerFire)
    requires Inv(w) && TokensFit(w.settings) && !w.panicked
    requires timer.token == TIMER && timer.env.timers == [fire] && fire.token == e.token && e.token in w.conns
    requires fire.reply.Some? && HangsUpOn(fire.reply.value) && !w.settings.PanicsOn(fire.reply.value)
    ensures HandleEvents(w, [timer, e]).panicked
  {
    TokensAreOrdinary(w);
    TimerEventHangsUp(w, timer, fire);
    TwoEvents(w, timer, e);
  }
}
