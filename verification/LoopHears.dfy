// No lost read wakeup: a connection stops reading only at the end of its stream, and else is armed for
// reading whenever the loop returns to poll.
module LoopHears {
  import opened Types
  import opened ConnectionSpec
  import opened ConnectionProofs
  import opened ConnectionLaws
  import opened Lifecycle
  import opened LoopSpec
  import opened ConnectionSteps
  import opened LoopInvariant
  import opened LoopSafety
  import opened LoopRuns
  import opened LoopTidy
  import opened LoopPanics

  // ---------- one connection ----------

  /** Interested in writing and not in reading. */
  predicate HalfClosed(c: Conn) {
    c.events == Interest(false, true)
  }

  predicate KeepsHearing(c: Conn, c': Conn) {
    HalfClosed(c') ==> HalfClosed(c)
  }

  lemma ErrorHears(s: Settings, c: Conn, kind: Kind)
    requires Settled(c) && !Error(s, c, kind).panicked
    ensures KeepsHearing(c, Error(s, c, kind))
  {
    ErrorLaw(s, c, kind);
  }

  /** An event on a connection meets the end of the stream while there is something to write. */
  predicate StopsReading(c: Conn, kind: Interest, env: Env) {
    Reads(c, kind) && MeetsEnd(c, env.supply, env.onMessage) && c.events.writable
  }

  lemma AfterReadHears(s: Settings, c: Conn, env: Env)
    requires Settled(c) && !c.panicked && !AfterRead(s, c, env.supply, env.onMessage, env.redials).0.panicked
    requires !(MeetsEnd(c, env.supply, env.onMessage) && c.events.writable)
    ensures KeepsHearing(c, AfterRead(s, c, env.supply, env.onMessage, env.redials).0)
  {
    var (c1, r) := Read(s, c, env.supply, env.onMessage);
    ReadLaw(s, c, env.supply, env.onMessage);
    ReadSettled(s, c, env.supply, env.onMessage);
    if r.Fail? {
      RecoverReports(s, c1, r.error, env.redials);
      ErrorHears(s, c1, r.error);
    }
  }

  lemma AfterWriteHears(s: Settings, c: Conn, env: Env)
    requires Settled(c) && !c.panicked && !AfterWrite(s, c, env.write, env.redials).0.panicked
    ensures KeepsHearing(c, AfterWrite(s, c, env.write, env.redials).0)
  {
    var (c1, r) := Write(c, env.write);
    WriteLaw(c, env.write);
    if r.Fail? {
      RecoverReports(s, c1, r.error, env.redials);
      ErrorHears(s, c1, r.error);
    }
  }

  lemma OnReadyHears(s: Settings, c: Conn, kind: Interest, env: Env)
    requires Good(s, c) && !OnReady(s, c, kind, env).0.panicked && !StopsReading(c, kind, env)
    ensures KeepsHearing(c, OnReady(s, c, kind, env).0)
  {
    var c1 := OnceRead(s, c, kind, env);
    if Reads(c, kind) {
      AfterReadHears(s, c, env);
      AfterReadStep(s, c, env);
    }
    if kind.writable && c1.events.writable {
      AfterWriteHears(s, c1, env);
    }
  }

  lemma OnFireHears(s: Settings, c: Conn, event: nat, reply: Option<Kind>)
    requires Good(s, c) && !OnFire(s, c, event, reply).panicked
    ensures KeepsHearing(c, OnFire(s, c, event, reply))
  {
    TimeoutLaw(c, event, reply);
    if reply.Some? {
      ErrorHears(s, TimeoutTriggered(c, event, reply).0, reply.value);
    }
  }

  lemma SetTimeout1Hears(s: Settings, c: Conn, event: nat, reply: Option<Kind>)
    requires Good(s, c) && !SetTimeout1(s, c, event, reply).panicked
    ensures KeepsHearing(c, SetTimeout1(s, c, event, reply))
  {
    TimeoutLaw(c, event, reply);
    if reply.Some? {
      ErrorHears(s, NewTimeout(c, event, reply).0, reply.value);
    }
  }

  lemma DeliveryHears(s: Settings, c: Conn, signal: Signal)
    requires Good(s, c)
    ensures KeepsHearing(c, Deliver1(s, c, signal).0)
  {
    match signal {
      case Message(payload) =>
        SendMessageOutcome(s, c, payload);
        if !c.state.IsClosing() && SendMessage(s, c, payload).1.Pass? {
          MessageLaw(s, c, payload);
        }
      case Close => CloseLaw(c);
      case Shutdown => ShutdownLaw(c);
      case Connect(_) =>
      case Timeout(_) =>
      case Cancel =>
    }
  }

  lemma ReportedHears(s: Settings, c: Conn, signal: Signal)
    requires Good(s, c) && !Reported(s, Deliver1(s, c, signal)).panicked
    ensures KeepsHearing(c, Reported(s, Deliver1(s, c, signal)))
  {
    var d := Deliver1(s, c, signal);
    Deliver1Step(s, c, signal);
    DeliveryHears(s, c, signal);
    if d.1.Fail? {
      ErrorHears(s, d.0, d.1.error);
    }
  }

  lemma Broadcast1Hears(s: Settings, c: Conn, signal: Signal, rearmFails: bool)
    requires Good(s, c) && !Broadcast1(s, c, signal, rearmFails).panicked
    ensures KeepsHearing(c, Broadcast1(s, c, signal, rearmFails))
  {
    Reported1Step(s, c, signal);
    ReportedHears(s, c, signal);
    if rearmFails {
      ErrorHears(s, Reported(s, Deliver1(s, c, signal)), Io(None));
    }
  }

  /** A live connection that is not half closed is interested in reading. */
  lemma LiveHears(c: Conn)
    requires Alive(c) && !HalfClosed(c)
    ensures c.events.readable
  {
  }

  // ---------- single steps ----------

  /** The connection at t is one of those that may not be reading, or it is not half closed, and if it is
      armed it is armed for reading. */
  ghost predicate SlotHears(w: Loop, t: nat, deaf: set<nat>)
    requires t in w.conns
  {
    w.conns[t].handler in deaf || (!HalfClosed(w.conns[t]) && (t in w.armed ==> w.armed[t].readable))
  }

  ghost predicate Hears(w: Loop, deaf: set<nat>) {
    forall t {:trigger SlotHears(w, t, deaf)} | t in w.conns :: SlotHears(w, t, deaf)
  }

  ghost predicate StillHears(w: Loop, deaf: set<nat>) {
    w.panicked || Hears(w, deaf)
  }

  lemma MoreDeaf(w: Loop, deaf: set<nat>, more: set<nat>)
    requires Hears(w, deaf)
    ensures Hears(w, deaf + more)
  {
    forall t | t in w.conns ensures SlotHears(w, t, deaf + more) {
      assert SlotHears(w, t, deaf);
    }
  }

  /** Each connection keeps hearing, and what is armed newly is armed for reading. */
  lemma EachHears(w: Loop, w': Loop, deaf: set<nat>)
    requires Hears(w, deaf) && w'.conns.Keys <= w.conns.Keys
    requires forall t | t in w'.conns ::
               && w'.conns[t].handler == w.conns[t].handler
               && (w.conns[t].handler !in deaf ==> KeepsHearing(w.conns[t], w'.conns[t]))
               && (w.conns[t].handler !in deaf && t in w'.armed ==>
                     w'.armed[t].readable || (t in w.armed && w'.armed[t] == w.armed[t]))
    ensures Hears(w', deaf)
  {
    forall t | t in w'.conns ensures SlotHears(w', t, deaf) {
      assert SlotHears(w, t, deaf);
    }
  }

  lemma PutHears(w: Loop, u: nat, c: Conn, deaf: set<nat>)
    requires Hears(w, deaf) && u in w.conns && c.handler == w.conns[u].handler
    requires c.handler in deaf || KeepsHearing(w.conns[u], c)
    ensures Hears(w.Put(u, c), deaf)
  {
    EachHears(w, w.Put(u, c), deaf);
  }

  lemma RemoveHears(w: Loop, u: nat, deaf: set<nat>)
    requires Hears(w, deaf) && u in w.conns
    ensures Hears(w.Remove(u), deaf)
  {
    EachHears(w, w.Remove(u), deaf);
  }

  lemma ArmHears(w: Loop, u: nat, deaf: set<nat>)
    requires Hears(w, deaf) && u in w.conns && w.conns[u].events.Any()
    ensures Hears(w.Arm(u, w.conns[u].events), deaf)
  {
    var w' := w.Arm(u, w.conns[u].events);
    forall t | t in w'.conns ensures SlotHears(w', t, deaf) {
      assert SlotHears(w, t, deaf);
    }
  }

  lemma RearmOrRemoveHears(w: Loop, u: nat, fails: bool, deaf: set<nat>)
    requires Hears(w, deaf) && u in w.conns && Settled(w.conns[u]) && w.conns[u].events.Any()
    ensures StillHears(RearmOrRemove(w, u, fails), deaf)
  {
    var c := Error(w.settings, w.conns[u], Io(None));
    if !fails {
      ArmHears(w, u, deaf);
    } else if !c.panicked {
      ErrorHears(w.settings, w.conns[u], Io(None));
      ErrorOnlyCalls(w.settings, w.conns[u], Io(None));
      PutHears(w, u, c, deaf);
      RemoveHears(w.Put(u, c), u, deaf);
    }
  }

  lemma CheckActiveHears(w: Loop, u: nat, fails: bool, deaf: set<nat>)
    requires Hears(w, deaf) && u in w.conns && Settled(w.conns[u])
    ensures StillHears(CheckActive(w, u, fails), deaf)
  {
    if w.conns[u].events.Any() {
      RearmOrRemoveHears(w, u, fails, deaf);
    } else {
      RemoveHears(w, u, deaf);
    }
  }

  lemma ScheduleHears(w: Loop, u: nat, fails: bool, deaf: set<nat>)
    requires Hears(w, deaf) && u in w.conns && Alive(w.conns[u])
    ensures StillHears(Schedule(w, u, fails), deaf)
  {
    var c := Error(w.settings, w.conns[u], Io(None));
    if !fails {
      ArmHears(w, u, deaf);
    } else if !c.panicked {
      ErrorHears(w.settings, w.conns[u], Io(None));
      ErrorOnlyCalls(w.settings, w.conns[u], Io(None));
      PutHears(w, u, c, deaf);
    }
  }

  // ---------- events on connections and timers ----------

  /** The handler of a connection that stops reading. */
  function ConnDeaf(w: Loop, u: nat, kind: Interest, env: Env): set<nat>
    requires u in w.conns
  {
    if StopsReading(w.conns[u], kind, env) then {w.conns[u].handler} else {}
  }

  lemma HandleConnHears(w: Loop, u: nat, kind: Interest, env: Env, deaf: set<nat>)
    requires Inv(w) && !w.panicked && Hears(w, deaf) && u in w.conns
    ensures StillHears(HandleConn(w, u, kind, env), deaf + ConnDeaf(w, u, kind, env))
  {
    var c, deaf' := OnReady(w.settings, w.conns[u], kind, env).0, deaf + ConnDeaf(w, u, kind, env);
    assert SlotOk(w, u);
    OnReadyStep(w.settings, w.conns[u], kind, env);
    MoreDeaf(w, deaf, ConnDeaf(w, u, kind, env));
    if !c.panicked {
      if !StopsReading(w.conns[u], kind, env) {
        OnReadyHears(w.settings, w.conns[u], kind, env);
      }
      PutHears(w, u, c, deaf');
      CheckActiveHears(w.Put(u, c), u, u in env.rearmFails, deaf');
    }
  }

  lemma HandleTimeoutHears(w: Loop, fire: TimerFire, deaf: set<nat>)
    requires Inv(w) && !w.panicked && Hears(w, deaf)
    ensures StillHears(HandleTimeout(w, fire), deaf)
  {
    var u := fire.token;
    if u in w.conns {
      var c := OnFire(w.settings, w.conns[u], fire.event, fire.reply);
      assert SlotOk(w, u);
      OnFireStep(w.settings, w.conns[u], fire.event, fire.reply);
      if !c.panicked {
        OnFireHears(w.settings, w.conns[u], fire.event, fire.reply);
        PutHears(w, u, c, deaf);
        CheckActiveHears(w.Put(u, c), u, fire.rearmFails, deaf);
      }
    }
  }

  lemma {:induction false} HandleTimersHears(w: Loop, fires: seq<TimerFire>, deaf: set<nat>)
    requires Inv(w) && StillHears(w, deaf)
    ensures StillHears(HandleTimers(w, fires), deaf)
    decreases |fires|
  {
    if fires != [] && !w.panicked {
      HandleTimeoutHears(w, fires[0], deaf);
      HandleTimeoutSafe(w, fires[0]);
      HandleTimersHears(HandleTimeout(w, fires[0]), fires[1..], deaf);
    }
  }

  // ---------- new connections ----------

  lemma SameHears(w: Loop, w': Loop, deaf: set<nat>)
    requires Hears(w, deaf) && w'.conns == w.conns && w'.armed.Keys <= w.armed.Keys
    requires forall t | t in w'.armed :: w'.armed[t] == w.armed[t]
    ensures Hears(w', deaf)
  {
    EachHears(w, w', deaf);
  }

  lemma InsertHears(w: Loop, c: Conn, deaf: set<nat>)
    requires Hears(w, deaf) && ArmedInSlab(w) && c.token !in w.conns
    requires c.handler in deaf || c.events.readable
    ensures Hears(NextId(w, c.token).Put(c.token, c), deaf)
  {
    var w' := NextId(w, c.token).Put(c.token, c);
    forall t | t in w'.conns ensures SlotHears(w', t, deaf) {
      if t != c.token {
        assert SlotHears(w, t, deaf);
      }
    }
  }

  /** A connection accepted whose registration failed is interested in writing only. */
  function AcceptDeaf(w: Loop, env: Env): set<nat> {
    if !MayDrop(w.settings, env) && !SlabFull(w) && env.registerFails then {w.log.created} else {}
  }

  lemma NewServerEvents(w: Loop, env: Env)
    ensures NewServer(w, env).events == Interest(!env.registerFails, env.registerFails)
    ensures NewServer(w, env).handler == w.log.created
  {
  }

  lemma AcceptHears(w: Loop, env: Env, deaf: set<nat>)
    requires Inv(w) && Hears(w, deaf) && ArmedInSlab(w)
    ensures StillHears(Accept(w, env).0, deaf + AcceptDeaf(w, env))
  {
    MoreDeaf(w, deaf, AcceptDeaf(w, env));
    if !MayDrop(w.settings, env) && !SlabFull(w) && !Accept(w, env).0.panicked {
      var c, deaf' := NewServer(w, env), deaf + AcceptDeaf(w, env);
      VacantIsFree(w, env.slot);
      NewServerEvents(w, env);
      InsertHears(w, c, deaf');
      if !env.registerFails {
        ArmHears(NextId(w, c.token).Put(c.token, c), c.token, deaf');
      }
    }
  }

  lemma NewClientEvents(w: Loop, url: string, env: Env, untried: seq<nat>)
    ensures NewClient(w, url, env, untried).0.events == Interest(true, false)
  {
  }

  lemma DialledHears(w: Loop, url: string, env: Env, pick: Option<nat>, deaf: set<nat>)
    requires Inv(w) && Hears(w, deaf) && ArmedInSlab(w) && !SlabFull(w)
    requires env.resolved.Some? && (pick.Some? ==> pick.value < |env.resolved.value|)
    ensures Hears(Dialled(w, url, env, pick).0, deaf)
  {
    var w' := Dialled(w, url, env, pick).0;
    if pick.None? || MayDrop(w.settings, env) {
      SameHears(w, w', deaf);
    } else {
      var c := NewClient(w, url, env, env.resolved.value[..pick.value]).0;
      var w1 := NextId(w, c.token).Put(c.token, c);
      NewClientInserts(w, url, env, env.resolved.value[..pick.value]);
      NewClientEvents(w, url, env, env.resolved.value[..pick.value]);
      InsertHears(w, c, deaf);
      if env.registerFails {
        RemoveHears(w1, c.token, deaf);
      } else {
        ArmHears(w1, c.token, deaf);
      }
    }
  }

  lemma ConnectToHears(w: Loop, url: string, env: Env, deaf: set<nat>)
    requires Inv(w) && Hears(w, deaf) && ArmedInSlab(w)
    ensures StillHears(ConnectTo(w, url, env).0, deaf)
  {
    if !SlabFull(w) && env.resolved.Some? {
      DialledHears(w, url, env, PickAddress(env, |env.resolved.value|), deaf);
    }
  }

  // ---------- commands ----------

  lemma BroadcastArms(w: Loop, signal: Signal, rearmFails: set<nat>)
    requires !Broadcast(w, signal, rearmFails).panicked
    ensures var w' := Broadcast(w, signal, rearmFails);
      forall t | t in w'.armed ::
        if t in w.conns && t !in rearmFails then w'.armed[t] == Deliver1(w.settings, w.conns[t], signal).0.events
        else t in w.armed && w'.armed[t] == w.armed[t]
  {
  }

  lemma DeliveredHears(s: Settings, c: Conn, signal: Signal)
    requires Good(s, c) && Alive(c) && !HalfClosed(c)
    ensures Deliver1(s, c, signal).0.events.readable
  {
    DeliveryHears(s, c, signal);
    Deliver1Step(s, c, signal);
  }

  lemma BroadcastHears(w: Loop, signal: Signal, rearmFails: set<nat>, deaf: set<nat>, pending: set<nat>)
    requires Inv(w) && !w.panicked && Hears(w, deaf) && TidyLoop(w, pending)
    ensures StillHears(Broadcast(w, signal, rearmFails), deaf)
  {
    var w' := Broadcast(w, signal, rearmFails);
    BroadcastSlots(w, signal, rearmFails);
    if !w'.panicked {
      BroadcastArms(w, signal, rearmFails);
      forall t | t in w'.conns
        ensures w'.conns[t].handler == w.conns[t].handler
        ensures w.conns[t].handler !in deaf ==> KeepsHearing(w.conns[t], w'.conns[t])
        ensures w.conns[t].handler !in deaf && t in w'.armed ==>
                  w'.armed[t].readable || (t in w.armed && w'.armed[t] == w.armed[t])
      {
        assert SlotOk(w, t) && SlotHears(w, t, deaf) && SlotTidy(w, t, pending);
        Broadcast1Hears(w.settings, w.conns[t], signal, t in rearmFails);
        Broadcast1Step(w.settings, w.conns[t], signal, t in rearmFails);
        if w.conns[t].handler !in deaf {
          DeliveredHears(w.settings, w.conns[t], signal);
        }
      }
      EachHears(w, w', deaf);
    }
  }

  lemma ShutdownAllHears(w: Loop, deaf: set<nat>)
    requires Inv(w) && !w.panicked && Hears(w, deaf)
    ensures StillHears(ShutdownAll(w), deaf)
  {
    var w' := ShutdownAll(w);
    ShutdownSlots(w);
    if !w'.panicked {
      forall t | t in w'.conns
        ensures w'.conns[t].handler == w.conns[t].handler && KeepsHearing(w.conns[t], w'.conns[t])
      {
        assert SlotOk(w, t);
        ShutdownLaw(w.conns[t]);
      }
      EachHears(w, w', deaf);
    }
  }

  lemma ShutdownForHears(w: Loop, u: nat, fails: bool, deaf: set<nat>, pending: set<nat>)
    requires Inv(w) && !w.panicked && Hears(w, deaf) && TidyLoop(w, pending)
    ensures StillHears(ShutdownFor(w, u, fails), deaf)
  {
    var w1 := ShutdownAll(w);
    ShutdownAllHears(w, deaf);
    ShutdownAllTidy(w, pending);
    if !w1.panicked && u in w1.conns {
      assert SlotTidy(w1, u, pending);
      ScheduleHears(w1, u, fails, deaf);
    }
  }

  lemma SetTimeoutAllHears(w: Loop, event: nat, env: Env, deaf: set<nat>)
    requires Inv(w) && !w.panicked && Hears(w, deaf)
    ensures StillHears(SetTimeoutAll(w, event, env), deaf)
  {
    var w' := SetTimeoutAll(w, event, env);
    if !env.timerFails && !w'.panicked {
      SetTimeoutAllSlots(w, event, env);
      TimeoutConnsAt(w, event, env);
      forall t | t in w'.conns
        ensures w'.conns[t].handler == w.conns[t].handler && KeepsHearing(w.conns[t], w'.conns[t])
      {
        assert SlotOk(w, t);
        SetTimeout1Hears(w.settings, w.conns[t], event, ReplyOf(env, t));
        SetTimeout1Step(w.settings, w.conns[t], event, ReplyOf(env, t));
      }
      EachHears(w, w', deaf);
    }
  }

  lemma ReportHears(w: Loop, u: nat, kind: Kind, deaf: set<nat>)
    requires Inv(w) && Hears(w, deaf) && u in w.conns && !Error(w.settings, w.conns[u], kind).panicked
    ensures Hears(w.Put(u, Error(w.settings, w.conns[u], kind)), deaf)
  {
    assert SlotOk(w, u);
    ErrorHears(w.settings, w.conns[u], kind);
    ErrorOnlyCalls(w.settings, w.conns[u], kind);
    PutHears(w, u, Error(w.settings, w.conns[u], kind), deaf);
  }

  lemma SetTimeoutOneHears(w: Loop, u: nat, event: nat, env: Env, deaf: set<nat>)
    requires Inv(w) && !w.panicked && Hears(w, deaf)
    ensures StillHears(SetTimeoutOne(w, u, event, env), deaf)
  {
    if u in w.conns && !SetTimeoutOne(w, u, event, env).panicked {
      assert SlotOk(w, u);
      if env.timerFails {
        ReportHears(w, u, Timer, deaf);
      } else {
        SetTimeout1Hears(w.settings, w.conns[u], event, ReplyOf(env, u));
        SetTimeout1Step(w.settings, w.conns[u], event, ReplyOf(env, u));
        PutHears(w, u, SetTimeout1(w.settings, w.conns[u], event, ReplyOf(env, u)), deaf);
      }
    }
  }

  lemma ConnectForHears(w: Loop, u: nat, url: string, env: Env, deaf: set<nat>)
    requires Inv(w) && !w.panicked && Hears(w, deaf) && ArmedInSlab(w)
    ensures StillHears(ConnectFor(w, u, url, env), deaf)
  {
    var (w1, r) := ConnectTo(w, url, env);
    ConnectToHears(w, url, env, deaf);
    ConnectToSafe(w, url, env);
    if !ConnectFor(w, u, url, env).panicked && r.Fail? && u in w1.conns {
      ReportHears(w1, u, r.error, deaf);
    }
  }

  lemma AddressHears(w: Loop, cmd: Command, env: Env, deaf: set<nat>, pending: set<nat>)
    requires Inv(w) && !w.panicked && Hears(w, deaf) && TidyLoop(w, pending) && cmd.token != ALL
    ensures StillHears(Address(w, cmd, env), deaf)
  {
    var u := cmd.token;
    if u in w.conns && !Addressed(w, cmd).panicked {
      var c := Addressed(w, cmd);
      assert SlotOk(w, u) && SlotTidy(w, u, pending);
      AddressSlot(w, cmd);
      if Reaches(w, cmd) {
        ReportedHears(w.settings, w.conns[u], cmd.signal);
        Reported1Step(w.settings, w.conns[u], cmd.signal);
      }
      PutHears(w, u, c, deaf);
      ScheduleHears(w.Put(u, c), u, u in env.rearmFails, deaf);
    }
  }

  lemma HandleAllHears(w: Loop, signal: Signal, env: Env, deaf: set<nat>, pending: set<nat>)
    requires Inv(w) && !w.panicked && Hears(w, deaf) && TidyLoop(w, pending)
    ensures StillHears(HandleAll(w, signal, env), deaf)
  {
    match signal {
      case Message(_) => BroadcastHears(w, signal, env.rearmFails, deaf, pending);
      case Close => BroadcastHears(w, signal, env.rearmFails, deaf, pending);
      case Shutdown =>
        BroadcastHears(w, signal, env.rearmFails, deaf, pending);
        var w1 := Broadcast(w, signal, env.rearmFails);
        if !w1.panicked {
          SameHears(w1, Stopped(w1), deaf);
        }
      case Connect(url) => ConnectToHears(w, url, env, deaf);
      case Timeout(event) => SetTimeoutAllHears(w, event, env, deaf);
      case Cancel =>
    }
  }

  lemma HandleOneHears(w: Loop, cmd: Command, env: Env, deaf: set<nat>, pending: set<nat>)
    requires Inv(w) && !w.panicked && Hears(w, deaf) && TidyLoop(w, pending) && cmd.token != ALL
    ensures StillHears(HandleOne(w, cmd, env), deaf)
  {
    match cmd.signal {
      case Message(_) => AddressHears(w, cmd, env, deaf, pending);
      case Close => AddressHears(w, cmd, env, deaf, pending);
      case Shutdown => ShutdownForHears(w, cmd.token, cmd.token in env.rearmFails, deaf, pending);
      case Connect(url) => ConnectForHears(w, cmd.token, url, env, deaf);
      case Timeout(event) => SetTimeoutOneHears(w, cmd.token, event, env, deaf);
      case Cancel =>
    }
  }

  lemma HandleNextHears(w: Loop, env: Env, deaf: set<nat>, pending: set<nat>)
    requires Inv(w) && !w.panicked && Hears(w, deaf) && TidyLoop(w, pending)
    ensures StillHears(HandleNext(w, env), deaf)
  {
    if w.queue != [] {
      var w1, cmd := Dequeued(w), w.queue[0];
      SameConnsSafe(w, w1);
      SameHears(w, w1, deaf);
      SameSlotsTidy(w, w1, pending);
      if cmd.token == SYSTEM {
      } else if cmd.token == ALL {
        HandleAllHears(w1, cmd.signal, env, deaf, pending);
      } else {
        HandleOneHears(w1, cmd, env, deaf, pending);
      }
    }
  }

  // ---------- events, batches and runs ----------

  /** The handlers of the connections that an event makes stop reading, or that it accepts without
      being able to register them. */
  function EventDeaf(w: Loop, e: Event): set<nat> {
    if e.token == ALL then
      if e.kind.readable && e.env.accepts then AcceptDeaf(w, e.env) else {}
    else if e.token == TIMER || e.token == QUEUE || e.token == SYSTEM then {}
    else if e.token in w.conns then ConnDeaf(w, e.token, e.kind, e.env)
    else {}
  }

  lemma HandleListenerHears(w: Loop, kind: Interest, env: Env, deaf: set<nat>)
    requires Inv(w) && !w.panicked && Hears(w, deaf) && ArmedInSlab(w)
    ensures StillHears(HandleListener(w, kind, env),
                       deaf + if kind.readable && env.accepts then AcceptDeaf(w, env) else {})
  {
    MoreDeaf(w, deaf, if kind.readable && env.accepts then AcceptDeaf(w, env) else {});
    if kind.readable && env.accepts {
      AcceptHears(w, env, deaf);
    }
  }

  lemma HandleEventHears(w: Loop, e: Event, rest: set<nat>, deaf: set<nat>)
    requires Inv(w) && TokensFit(w.settings) && TidyLoop(w, {e.token} + rest) && Hears(w, deaf) && !w.panicked
    ensures StillHears(HandleEvent(w, e), deaf + EventDeaf(w, e))
  {
    var w1 := Arrived(w, e.env);
    ArrivedTidy(w, e, rest);
    SameHears(w, w1, deaf);
    MoreDeaf(w1, deaf, EventDeaf(w, e));
    if e.token == SYSTEM {
    } else if e.token == ALL {
      HandleListenerHears(w1, e.kind, e.env, deaf);
    } else if e.token == TIMER {
      HandleTimersHears(w1, e.env.timers, deaf + EventDeaf(w, e));
    } else if e.token == QUEUE {
      HandleNextHears(w1, e.env, deaf + EventDeaf(w, e), rest);
    } else if e.token in w1.conns {
      HandleConnHears(w1, e.token, e.kind, e.env, deaf);
    }
  }

  function BatchDeaf(w: Loop, batch: seq<Event>): set<nat>
    decreases |batch|
  {
    if batch == [] || w.panicked then {} else EventDeaf(w, batch[0]) + BatchDeaf(HandleEvent(w, batch[0]), batch[1..])
  }

  function TurnDeaf(w: Loop, p: PollResult): set<nat> {
    if p.Ready? then BatchDeaf(Polled(w, p.batch), p.batch) else {}
  }

  /** The handlers of all connections that in a run met the end of their stream with something to write,
      or could not be registered when they were accepted. */
  function RunDeaf(w: Loop, polls: seq<PollResult>): set<nat>
    decreases |polls|
  {
    if polls == [] || !Running(w) then {} else TurnDeaf(w, polls[0]) + RunDeaf(Turn(w, polls[0]), polls[1..])
  }

  lemma {:induction false} HandleEventsHears(w: Loop, batch: seq<Event>, deaf: set<nat>)
    requires Inv(w) && TokensFit(w.settings) && TidyLoop(w, Tokens(batch)) && Hears(w, deaf)
    requires GentleBatch(w, batch) && !HandleEvents(w, batch).panicked
    ensures Hears(HandleEvents(w, batch), deaf + BatchDeaf(w, batch))
    decreases |batch|
  {
    if batch == [] {
      MoreDeaf(w, deaf, {});
    } else {
      var e, rest, w1 := batch[0], batch[1..], HandleEvent(w, batch[0]);
      assert batch == [e] + rest;
      assert Tokens(batch) == {e.token} + Tokens(rest);
      HandleEventTidyIff(w, e, Tokens(rest));
      HandleEventHears(w, e, Tokens(rest), deaf);
      HandleEventSafe(w, e);
      HandleEventsHears(w1, rest, deaf + EventDeaf(w, e));
      assert deaf + EventDeaf(w, e) + BatchDeaf(w1, rest) == deaf + BatchDeaf(w, batch);
    }
  }

  lemma TurnHears(w: Loop, p: PollResult, deaf: set<nat>)
    requires Inv(w) && TokensFit(w.settings) && TidyLoop(w, {}) && Hears(w, deaf) && !w.panicked
    requires (p.Ready? ==> GentleBatch(Polled(w, p.batch), p.batch)) && !Turn(w, p).panicked
    ensures Hears(Turn(w, p), deaf + TurnDeaf(w, p))
  {
    if p.Ready? {
      var w1 := Polled(w, p.batch);
      var w2 := HandleEvents(w1, p.batch);
      SameConnsSafe(w, w1);
      PolledTidy(w, p.batch);
      SameHears(w, w1, deaf);
      HandleEventsHears(w1, p.batch, deaf);
      SameHears(w2, Settle(w2), deaf + BatchDeaf(w1, p.batch));
    } else {
      IdleTurnSame(w, p);
      SameHears(w, Turn(w, p), deaf);
      MoreDeaf(Turn(w, p), deaf, {});
    }
  }

  lemma DeafInTurn(deaf: set<nat>, first: set<nat>, second: set<nat>)
    ensures deaf + first + second == deaf + (first + second)
  {
  }

  lemma {:induction false} RunHears(w: Loop, polls: seq<PollResult>, deaf: set<nat>)
    requires Inv(w) && TokensFit(w.settings) && TidyLoop(w, {}) && Hears(w, deaf) && GentleRun(w, polls)
    requires !Run(w, polls).panicked
    ensures Hears(Run(w, polls), deaf + RunDeaf(w, polls))
    decreases |polls|
  {
    if polls == [] || !Running(w) {
      MoreDeaf(w, deaf, {});
    } else {
      var p, w1 := polls[0], Turn(w, polls[0]);
      TurnIsFine(w, p, polls[1..]);
      TurnHears(w, p, deaf);
      RunHears(w1, polls[1..], deaf + TurnDeaf(w, p));
      DeafInTurn(deaf, TurnDeaf(w, p), RunDeaf(w1, polls[1..]));
    }
  }

  lemma TurnIsFine(w: Loop, p: PollResult, polls: seq<PollResult>)
    requires Inv(w) && TokensFit(w.settings) && TidyLoop(w, {}) && !w.panicked && !Run(Turn(w, p), polls).panicked
    requires p.Ready? ==> GentleBatch(Polled(w, p.batch), p.batch)
    ensures var w1 := Turn(w, p); Inv(w1) && TokensFit(w1.settings) && TidyLoop(w1, {}) && !w1.panicked
  {
    TurnSafe(w, p, 0, 0);
    if Turn(w, p).panicked {
      PanicEndsRun(w, p, polls);
    }
    TurnStaysTidy(w, p);
  }

  lemma TurnStaysTidy(w: Loop, p: PollResult)
    requires Inv(w) && TokensFit(w.settings) && TidyLoop(w, {}) && !w.panicked && !Turn(w, p).panicked
    requires p.Ready? ==> GentleBatch(Polled(w, p.batch), p.batch)
    ensures TidyLoop(Turn(w, p), {})
  {
    if p.Ready? {
      TurnTidyIff(w, p);
    } else {
      IdleTurnTidy(w, p);
    }
  }

  /** No lost read wakeup: whenever a gentle run returns to poll, every live connection is interested in
      reading and armed for it, except those that met the end of their stream with something to write,
      and those that could not be registered when they were accepted. */
  lemma NoLostReads(s: Settings, listening: bool, polls: seq<PollResult>, t: nat)
    requires TokensFit(s) && GentleRun(Initial(s, listening), polls)
    requires var w := Run(Initial(s, listening), polls);
      !w.panicked && t in w.conns && w.conns[t].handler !in RunDeaf(Initial(s, listening), polls)
    ensures var w := Run(Initial(s, listening), polls);
      w.conns[t].events.readable && t in w.armed && w.armed[t].readable
  {
    var w0, w := Initial(s, listening), Run(Initial(s, listening), polls);
    InitialInv(s, listening);
    RunTidyIff(w0, polls);
    RunHears(w0, polls, {});
    assert SlotTidy(w, t, {}) && SlotHears(w, t, {} + RunDeaf(w0, polls));
    LiveHears(w.conns[t]);
  }
}
