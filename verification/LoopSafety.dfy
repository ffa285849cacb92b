// Every step of the loop keeps the invariant, traces every connection, and accepts for each
// connection exactly the payload of the message it handles. No assumption on the environment.
module LoopSafety {
  import opened Types
  import opened ConnectionSpec
  import opened ConnectionProofs
  import opened LoopSpec
  import opened ConnectionSteps
  import opened LoopInvariant

  ghost predicate Safe(w: Loop, w': Loop) {
    Inv(w') && Later(w, w')
  }

  ghost predicate SafeQuiet(w: Loop, w': Loop) {
    Safe(w, w') && NothingAccepted(w, w')
  }

  lemma SafeTrans(a: Loop, b: Loop, c: Loop)
    requires Safe(a, b) && Safe(b, c)
    ensures Safe(a, c)
    ensures NothingAccepted(a, b) && NothingAccepted(b, c) ==> NothingAccepted(a, c)
  {
    LaterTrans(a, b, c);
  }

  // ---------- single steps ----------

  /** Nothing but the queue, the armed interests, and the flags and counters of the loop differ. */
  lemma SameConnsSafe(w: Loop, w': Loop)
    requires Inv(w) && SameBooks(w, w') && w'.conns == w.conns
    ensures SafeQuiet(w, w')
  {
    forall t | t in w.conns ensures Step(w.settings, w.conns[t], w'.conns[t]) && Quiet(w.conns[t], w'.conns[t])
        && !w'.conns[t].panicked {
      assert SlotOk(w, t);
    }
    AdvancesInv(w, w');
    AdvancesAcceptsNothing(w, w');
  }

  lemma NoStep(s: Settings, c: Conn)
    requires Good(s, c)
    ensures QuietStep(s, c, c)
  {
  }

  lemma PutSafe(w: Loop, t: nat, c: Conn)
    requires Inv(w) && t in w.conns && QuietStep(w.settings, w.conns[t], c) && !c.panicked
    ensures SafeQuiet(w, w.Put(t, c))
  {
    var w' := w.Put(t, c);
    forall u | u in w.conns ensures Step(w.settings, w.conns[u], w'.conns[u]) && Quiet(w.conns[u], w'.conns[u])
        && !w'.conns[u].panicked {
      assert SlotOk(w, u);
      NoStep(w.settings, w.conns[u]);
    }
    assert w'.conns.Keys == w.conns.Keys;
    AdvancesInv(w, w');
    AdvancesAcceptsNothing(w, w');
  }

  lemma ScheduleSafe(w: Loop, t: nat, fails: bool)
    requires Inv(w) && t in w.conns
    ensures SafeQuiet(w, Schedule(w, t, fails))
  {
    assert SlotOk(w, t);
    var c := Error(w.settings, w.conns[t], Io(None));
    ErrorStep(w.settings, w.conns[t], Io(None));
    if fails && !c.panicked {
      PutSafe(w, t, c);
    } else {
      SameConnsSafe(w, Schedule(w, t, fails));
    }
  }

  lemma RearmOrRemoveSafe(w: Loop, t: nat, fails: bool)
    requires Inv(w) && t in w.conns
    ensures SafeQuiet(w, RearmOrRemove(w, t, fails))
  {
    assert SlotOk(w, t);
    var c := Error(w.settings, w.conns[t], Io(None));
    ErrorStep(w.settings, w.conns[t], Io(None));
    if fails && !c.panicked {
      PutSafe(w, t, c);
      RemoveInv(w.Put(t, c), t);
      SafeTrans(w, w.Put(t, c), w.Put(t, c).Remove(t));
    } else {
      SameConnsSafe(w, RearmOrRemove(w, t, fails));
    }
  }

  lemma CheckActiveSafe(w: Loop, t: nat, fails: bool)
    requires Inv(w) && t in w.conns
    ensures SafeQuiet(w, CheckActive(w, t, fails))
  {
    if !w.conns[t].events.Any() {
      RemoveInv(w, t);
    } else {
      RearmOrRemoveSafe(w, t, fails);
    }
  }

  // ---------- new connections ----------

  /** A connection accepted from the listener is good, whatever the registration did. */
  lemma NewServerInserts(w: Loop, env: Env)
    requires Inv(w) && |w.conns| < w.settings.maxConnections
    ensures Inserts(w, NewServer(w, env).token, NewServer(w, env))
  {
    VacantIsFree(w, env.slot);
    DeliveredSnoc([], OnError(Io(None)));
  }

  lemma AcceptSafe(w: Loop, env: Env)
    requires Inv(w)
    ensures SafeQuiet(w, Accept(w, env).0)
  {
    var s := w.settings;
    var w' := Accept(w, env).0;
    if (s.tcpNodelay && env.nodelayFails) || |w.conns| >= s.maxConnections || (env.registerFails
        && s.panicOnNewConnection) {
      SameConnsSafe(w, w');
    } else {
      var c := NewServer(w, env);
      NewServerInserts(w, env);
      InsertInv(w, c.token, c);
      SameConnsSafe(NextId(w, c.token).Put(c.token, c), w');
      SafeTrans(w, NextId(w, c.token).Put(c.token, c), w');
    }
  }

  lemma NewClientInserts(w: Loop, url: string, env: Env, untried: seq<nat>)
    requires Inv(w) && |w.conns| < w.settings.maxConnections
    ensures var (c, r) := NewClient(w, url, env, untried); r.Pass? && Inserts(w, c.token, c)
  {
    VacantIsFree(w, env.slot);
    NewConnGood(w.settings, Vacant(w, env.slot), w.log.created, w.nextId);
  }

  lemma ConnectToSafe(w: Loop, url: string, env: Env)
    requires Inv(w)
    ensures SafeQuiet(w, ConnectTo(w, url, env).0)
  {
    var w' := ConnectTo(w, url, env).0;
    if |w.conns| >= w.settings.maxConnections || env.resolved.None? {
      SameConnsSafe(w, w');
    } else {
      var i := PickAddress(env, |env.resolved.value|);
      if i.None? || (w.settings.tcpNodelay && env.nodelayFails) {
        VacantIsFree(w, env.slot);
        NotKeptInv(w, Vacant(w, env.slot), w');
      } else {
        var c := NewClient(w, url, env, env.resolved.value[..i.value]).0;
        NewClientInserts(w, url, env, env.resolved.value[..i.value]);
        InsertInv(w, c.token, c);
        var w1 := NextId(w, c.token).Put(c.token, c);
        if env.registerFails {
          RemoveInv(w1, c.token);
        } else {
          SameConnsSafe(w1, w');
        }
        SafeTrans(w, w1, w');
      }
    }
  }

  // ---------- events on connections and timers ----------

  lemma HandleConnSafe(w: Loop, t: nat, kind: Interest, env: Env)
    requires Inv(w) && t in w.conns
    ensures SafeQuiet(w, HandleConn(w, t, kind, env))
  {
    assert SlotOk(w, t);
    OnReadyStep(w.settings, w.conns[t], kind, env);
    var c := OnReady(w.settings, w.conns[t], kind, env).0;
    if c.panicked {
      SameConnsSafe(w, w.Panic());
    } else {
      PutSafe(w, t, c);
      CheckActiveSafe(w.Put(t, c), t, t in env.rearmFails);
      SafeTrans(w, w.Put(t, c), HandleConn(w, t, kind, env));
    }
  }

  lemma HandleTimeoutSafe(w: Loop, fire: TimerFire)
    requires Inv(w)
    ensures SafeQuiet(w, HandleTimeout(w, fire))
  {
    var t := fire.token;
    if t in w.conns {
      assert SlotOk(w, t);
      OnFireStep(w.settings, w.conns[t], fire.event, fire.reply);
      var c := OnFire(w.settings, w.conns[t], fire.event, fire.reply);
      if c.panicked {
        SameConnsSafe(w, w.Panic());
      } else {
        PutSafe(w, t, c);
        CheckActiveSafe(w.Put(t, c), t, fire.rearmFails);
        SafeTrans(w, w.Put(t, c), HandleTimeout(w, fire));
      }
    } else {
      SameConnsSafe(w, w);
    }
  }

  lemma {:induction false} HandleTimersSafe(w: Loop, fires: seq<TimerFire>)
    requires Inv(w)
    ensures SafeQuiet(w, HandleTimers(w, fires))
    decreases |fires|
  {
    if fires == [] || w.panicked {
      SameConnsSafe(w, w);
    } else {
      var w1 := HandleTimeout(w, fires[0]);
      HandleTimeoutSafe(w, fires[0]);
      HandleTimersSafe(w1, fires[1..]);
      SafeTrans(w, w1, HandleTimers(w1, fires[1..]));
    }
  }

  // ---------- commands ----------

  /** What a command makes the connection with handler h at token t accept: the payload of a
      message addressed to that connection, or broadcast, unless the connection is closing or, with growth off, out
      of room. */
  ghost function Payload(w: Loop, cmd: Command, t: nat, h: nat): seq<Bytes> {
    if t in w.conns && w.conns[t].handler == h && (cmd.token == ALL || (cmd.token == t && Reaches(w, cmd)))
    then Accepts(w.settings, w.conns[t], cmd.signal) else []
  }

  ghost predicate AcceptsPayload(w: Loop, cmd: Command, w': Loop) {
    w'.panicked || forall t, h :: Accepted(w', t, h) == Accepted(w, t, h) + Payload(w, cmd, t, h)
  }

  ghost predicate SafeAccepting(w: Loop, cmd: Command, w': Loop) {
    Safe(w, w') && AcceptsPayload(w, cmd, w')
  }

  /** Every connection takes its own step. */
  ghost predicate EachSteps(w: Loop, cmd: Command, w': Loop) {
    && SameBooks(w, w') && w'.conns.Keys == w.conns.Keys
    && forall t {:trigger w'.conns[t]} | t in w.conns ::
         && Step(w.settings, w.conns[t], w'.conns[t]) && !w'.conns[t].panicked
         && w'.conns[t].trace.accepted == w.conns[t].trace.accepted + Payload(w, cmd, t, w.conns[t].handler)
  }

  lemma LiveIsNotRetired(w: Loop, t: nat)
    requires Conserved(w) && RetiredOk(w) && t in w.conns
    ensures w.conns[t].handler !in w.log.retired
  {
    LiveIsNotLost(w, t);
    RetiredWereLost(w);
  }

  /** One connection accepts more; what is on record for removed ones is the same. */
  lemma AcceptsMore(w: Loop, w': Loop, t: nat, h: nat, more: seq<Bytes>)
    requires w'.log.retired == w.log.retired && (t in w'.conns <==> t in w.conns)
    requires t in w.conns ==> w'.conns[t].handler == w.conns[t].handler
    requires if t in w.conns && w.conns[t].handler == h
             then h !in w.log.retired && w'.conns[t].trace.accepted == w.conns[t].trace.accepted + more
             else more == []
    ensures Accepted(w', t, h) == Accepted(w, t, h) + more
  {
  }

  lemma EachAccepts(w: Loop, cmd: Command, w': Loop)
    requires Inv(w) && EachSteps(w, cmd, w')
    ensures AcceptsPayload(w, cmd, w')
  {
    forall t, h ensures Accepted(w', t, h) == Accepted(w, t, h) + Payload(w, cmd, t, h) {
      if t in w.conns {
        LiveIsNotRetired(w, t);
        assert w'.conns[t].handler == w.conns[t].handler;
      }
      AcceptsMore(w, w', t, h, Payload(w, cmd, t, h));
    }
  }

  lemma EachStepsSafe(w: Loop, cmd: Command, w': Loop)
    requires Inv(w) && EachSteps(w, cmd, w')
    ensures SafeAccepting(w, cmd, w')
  {
    AdvancesInv(w, w');
    EachAccepts(w, cmd, w');
  }

  lemma BroadcastSlot(w: Loop, cmd: Command, rearmFails: set<nat>, t: nat)
    requires Inv(w) && cmd.token == ALL && t in w.conns
    ensures var c, c' := w.conns[t], Broadcast1(w.settings, w.conns[t], cmd.signal, t in rearmFails);
      && Step(w.settings, c, c')
      && (c'.panicked || c'.trace.accepted == c.trace.accepted + Payload(w, cmd, t, c.handler))
  {
    assert SlotOk(w, t);
    Broadcast1Step(w.settings, w.conns[t], cmd.signal, t in rearmFails);
  }

  /** A broadcast gives each live connection its own outcome, and adds and removes none. */
  lemma BroadcastSlots(w: Loop, signal: Signal, rearmFails: set<nat>)
    ensures var w' := Broadcast(w, signal, rearmFails);
      w' == w.Panic() || (SameBooks(w, w') && w'.conns.Keys == w.conns.Keys
        && forall t | t in w.conns :: w'.conns[t] == Broadcast1(w.settings, w.conns[t], signal, t in rearmFails)
            && !w'.conns[t].panicked)
  {
  }

  lemma BroadcastPanics(w: Loop, signal: Signal, rearmFails: set<nat>)
    requires Broadcast(w, signal, rearmFails).panicked && !w.panicked
    ensures Broadcast(w, signal, rearmFails) == w.Panic()
  {
  }

  lemma BroadcastSafe(w: Loop, cmd: Command, rearmFails: set<nat>)
    requires Inv(w) && cmd.token == ALL
    ensures SafeAccepting(w, cmd, Broadcast(w, cmd.signal, rearmFails))
  {
    var w' := Broadcast(w, cmd.signal, rearmFails);
    BroadcastSlots(w, cmd.signal, rearmFails);
    if w' == w.Panic() {
      SameConnsSafe(w, w');
    } else {
      forall t | t in w.conns
        ensures Step(w.settings, w.conns[t], w'.conns[t])
        ensures w'.conns[t].trace.accepted == w.conns[t].trace.accepted + Payload(w, cmd, t, w.conns[t].handler)
      {
        BroadcastSlot(w, cmd, rearmFails, t);
      }
      EachStepsSafe(w, cmd, w');
    }
  }

  /** Every connection takes its own quiet step. */
  ghost predicate EachStepsQuietly(w: Loop, w': Loop) {
    && SameBooks(w, w') && w'.conns.Keys == w.conns.Keys
    && forall t {:trigger w'.conns[t]} | t in w.conns ::
         QuietStep(w.settings, w.conns[t], w'.conns[t]) && !w'.conns[t].panicked
  }

  lemma EachStepsQuietlySafe(w: Loop, w': Loop)
    requires Inv(w) && EachStepsQuietly(w, w')
    ensures SafeQuiet(w, w')
  {
    AdvancesInv(w, w');
    AdvancesAcceptsNothing(w, w');
  }

  lemma ShutdownSlot(w: Loop, t: nat)
    requires Inv(w) && t in w.conns
    ensures var c' := ShutdownConn(w.conns[t]); QuietStep(w.settings, w.conns[t], c') && !c'.panicked
  {
    assert SlotOk(w, t);
    ShutdownStep(w.settings, w.conns[t]);
  }

  lemma ShutdownSlots(w: Loop)
    ensures var w' := ShutdownAll(w);
      w' == w.Panic() || (SameBooks(w, w') && w'.armed == w.armed && w'.panicked == w.panicked
          && w'.conns.Keys == w.conns.Keys
        && forall t | t in w.conns :: w'.conns[t] == ShutdownConn(w.conns[t]))
  {
  }

  lemma ShutdownAllSafe(w: Loop)
    requires Inv(w)
    ensures SafeQuiet(w, ShutdownAll(w))
  {
    var w' := ShutdownAll(w);
    ShutdownSlots(w);
    if w' == w.Panic() {
      SameConnsSafe(w, w');
    } else {
      forall t | t in w.conns ensures QuietStep(w.settings, w.conns[t], w'.conns[t]) && !w'.conns[t].panicked {
        ShutdownSlot(w, t);
      }
      EachStepsQuietlySafe(w, w');
    }
  }

  lemma SetTimeoutSlot(w: Loop, event: nat, env: Env, t: nat)
    requires Inv(w) && t in w.conns
    ensures QuietStep(w.settings, w.conns[t], SetTimeout1(w.settings, w.conns[t], event, ReplyOf(env, t)))
  {
    assert SlotOk(w, t);
    SetTimeout1Step(w.settings, w.conns[t], event, ReplyOf(env, t));
  }

  lemma SetTimeoutSlots(w: Loop, event: nat, env: Env)
    ensures var w' := SetTimeoutAll(w, event, env);
      w' == w.Panic() || w' == w || (SameBooks(w, w') && w'.conns.Keys == w.conns.Keys
        && forall t | t in w.conns :: w'.conns[t] == SetTimeout1(w.settings, w.conns[t], event, ReplyOf(env, t))
            && !w'.conns[t].panicked)
  {
  }

  lemma SetTimeoutAllSafe(w: Loop, event: nat, env: Env)
    requires Inv(w)
    ensures SafeQuiet(w, SetTimeoutAll(w, event, env))
  {
    var w' := SetTimeoutAll(w, event, env);
    SetTimeoutSlots(w, event, env);
    if w' == w.Panic() || w' == w {
      SameConnsSafe(w, w');
    } else {
      forall t | t in w.conns ensures QuietStep(w.settings, w.conns[t], w'.conns[t]) {
        SetTimeoutSlot(w, event, env, t);
      }
      EachStepsQuietlySafe(w, w');
    }
  }

  lemma OnlyMessagesAreAccepted(w: Loop, cmd: Command, w': Loop)
    requires AcceptsPayload(w, cmd, w') && !w'.panicked && !cmd.signal.Message?
    ensures NothingAccepted(w, w')
  {
  }

  lemma ShutdownForAllSafe(w: Loop, cmd: Command, env: Env)
    requires Inv(w) && !w.panicked && cmd.token == ALL && cmd.signal.Shutdown?
    ensures SafeQuiet(w, ShutdownForAll(w, env))
  {
    var w', w1 := ShutdownForAll(w, env), Broadcast(w, Shutdown, env.rearmFails);
    if w' == w.Panic() {
      SameConnsSafe(w, w');
    } else {
      BroadcastSafe(w, cmd, env.rearmFails);
      if !w1.panicked {
        OnlyMessagesAreAccepted(w, cmd, w1);
        SameConnsSafe(w1, w');
        SafeTrans(w, w1, w');
      } else {
        BroadcastPanics(w, Shutdown, env.rearmFails);
      }
    }
  }

  lemma ConnectForAllSafe(w: Loop, url: string, env: Env)
    requires Inv(w)
    ensures SafeQuiet(w, ConnectForAll(w, url, env))
  {
    var w1 := ConnectTo(w, url, env).0;
    ConnectToSafe(w, url, env);
    SameConnsSafe(w1, ConnectForAll(w, url, env));
    SafeTrans(w, w1, ConnectForAll(w, url, env));
  }

  lemma HandleAllSafe(w: Loop, cmd: Command, env: Env)
    requires Inv(w) && !w.panicked && cmd.token == ALL
    ensures SafeAccepting(w, cmd, HandleAll(w, cmd.signal, env))
  {
    match cmd.signal {
      case Message(_) => BroadcastSafe(w, cmd, env.rearmFails);
      case Close => BroadcastSafe(w, cmd, env.rearmFails);
      case Shutdown => ShutdownForAllSafe(w, cmd, env);
      case Connect(url) => ConnectForAllSafe(w, url, env);
      case Timeout(event) => SetTimeoutAllSafe(w, event, env);
      case Cancel => SameConnsSafe(w, w);
    }
  }

  lemma AddressSlot(w: Loop, cmd: Command)
    requires Inv(w) && cmd.token in w.conns && cmd.token != ALL
    ensures var c, c' := w.conns[cmd.token], Addressed(w, cmd);
      && Step(w.settings, c, c')
      && (c'.panicked || c'.trace.accepted == c.trace.accepted + Payload(w, cmd, cmd.token, c.handler))
  {
    assert SlotOk(w, cmd.token);
    if Reaches(w, cmd) {
      Reported1Step(w.settings, w.conns[cmd.token], cmd.signal);
    } else {
      NoStep(w.settings, w.conns[cmd.token]);
    }
  }

  lemma AddressPut(w: Loop, cmd: Command)
    requires Inv(w) && cmd.token in w.conns && cmd.token != ALL && !Addressed(w, cmd).panicked
    ensures SafeAccepting(w, cmd, w.Put(cmd.token, Addressed(w, cmd)))
  {
    var w' := w.Put(cmd.token, Addressed(w, cmd));
    AddressSlot(w, cmd);
    forall t | t in w.conns
      ensures Step(w.settings, w.conns[t], w'.conns[t]) && !w'.conns[t].panicked
      ensures w'.conns[t].trace.accepted == w.conns[t].trace.accepted + Payload(w, cmd, t, w.conns[t].handler)
    {
      if t != cmd.token {
        assert SlotOk(w, t);
        NoStep(w.settings, w.conns[t]);
      }
    }
    EachStepsSafe(w, cmd, w');
  }

  lemma AddressSafe(w: Loop, cmd: Command, env: Env)
    requires Inv(w) && cmd.token != ALL
    ensures SafeAccepting(w, cmd, Address(w, cmd, env))
  {
    var w' := Address(w, cmd, env);
    if cmd.token !in w.conns || w' == w.Panic() {
      SameConnsSafe(w, w');
    } else {
      var t, c := cmd.token, Addressed(w, cmd);
      if c.panicked {
        SameConnsSafe(w, w');
      } else {
        AddressPut(w, cmd);
        ScheduleSafe(w.Put(t, c), t, t in env.rearmFails);
        SafeTrans(w, w.Put(t, c), w');
      }
    }
  }

  lemma ShutdownForSafe(w: Loop, t: nat, fails: bool)
    requires Inv(w)
    ensures SafeQuiet(w, ShutdownFor(w, t, fails))
  {
    var w1 := ShutdownAll(w);
    ShutdownAllSafe(w);
    if !w1.panicked && t in w1.conns {
      ScheduleSafe(w1, t, fails);
      SafeTrans(w, w1, ShutdownFor(w, t, fails));
    }
  }

  lemma ConnectForSafe(w: Loop, t: nat, url: string, env: Env)
    requires Inv(w)
    ensures SafeQuiet(w, ConnectFor(w, t, url, env))
  {
    var (w1, r) := ConnectTo(w, url, env);
    var w' := ConnectFor(w, t, url, env);
    ConnectToSafe(w, url, env);
    if w1.panicked || r.Pass? {
    } else if t in w1.conns && !Error(w1.settings, w1.conns[t], r.error).panicked {
      assert SlotOk(w1, t);
      ErrorStep(w1.settings, w1.conns[t], r.error);
      PutSafe(w1, t, Error(w1.settings, w1.conns[t], r.error));
      SafeTrans(w, w1, w');
    } else {
      SameConnsSafe(w1, w');
      SafeTrans(w, w1, w');
    }
  }

  lemma SetTimeoutOneSafe(w: Loop, t: nat, event: nat, env: Env)
    requires Inv(w)
    ensures SafeQuiet(w, SetTimeoutOne(w, t, event, env))
  {
    var w' := SetTimeoutOne(w, t, event, env);
    if t in w.conns && w' != w.Panic() {
      assert SlotOk(w, t);
      ErrorStep(w.settings, w.conns[t], Timer);
      SetTimeout1Step(w.settings, w.conns[t], event, ReplyOf(env, t));
      PutSafe(w, t, w'.conns[t]);
    } else {
      SameConnsSafe(w, w');
    }
  }

  lemma QuietAccepts(w: Loop, cmd: Command, w': Loop)
    requires SafeQuiet(w, w') && !cmd.signal.Message?
    ensures SafeAccepting(w, cmd, w')
  {
  }

  lemma HandleOneSafe(w: Loop, cmd: Command, env: Env)
    requires Inv(w) && cmd.token != ALL
    ensures SafeAccepting(w, cmd, HandleOne(w, cmd, env))
  {
    var w' := HandleOne(w, cmd, env);
    match cmd.signal {
      case Message(_) => AddressSafe(w, cmd, env);
      case Close => AddressSafe(w, cmd, env);
      case Shutdown => ShutdownForSafe(w, cmd.token, cmd.token in env.rearmFails);
      case Connect(url) => ConnectForSafe(w, cmd.token, url, env);
      case Timeout(event) => SetTimeoutOneSafe(w, cmd.token, event, env);
      case Cancel => SameConnsSafe(w, w);
    }
    if !cmd.signal.Message? && !cmd.signal.Close? {
      QuietAccepts(w, cmd, w');
    }
  }

  /** No slab key is one of the reserved tokens. */
  predicate TokensFit(s: Settings) {
    s.maxConnections <= SYSTEM
  }

  /** Token dispatch is unambiguous: no connection sits at a reserved token. */
  lemma TokensAreOrdinary(w: Loop)
    requires SlabOk(w) && TokensFit(w.settings)
    ensures forall t | t in w.conns :: t != QUEUE && t != TIMER && t != ALL && t != SYSTEM
  {
    forall t | t in w.conns ensures t < SYSTEM {
      assert SlotOk(w, t);
    }
  }

  lemma HandleQueueSafe(w: Loop, cmd: Command, env: Env)
    requires Inv(w) && !w.panicked && TokensFit(w.settings)
    ensures SafeAccepting(w, cmd, HandleQueue(w, cmd, env))
  {
    if cmd.token == SYSTEM {
      SameConnsSafe(w, w);
      TokensAreOrdinary(w);
    } else if cmd.token == ALL {
      HandleAllSafe(w, cmd, env);
    } else {
      HandleOneSafe(w, cmd, env);
    }
  }

  // ---------- events, turns and runs ----------

  lemma HandleListenerSafe(w: Loop, kind: Interest, env: Env)
    requires Inv(w)
    ensures SafeQuiet(w, HandleListener(w, kind, env))
  {
    var w' := HandleListener(w, kind, env);
    if !kind.readable || !w.listening || !env.accepts {
      SameConnsSafe(w, w');
    } else {
      var w1 := Accept(w, env).0;
      AcceptSafe(w, env);
      SameConnsSafe(w1, w');
      SafeTrans(w, w1, w');
    }
  }

  /** What handling an event makes the connection with handler h at token t accept. */
  ghost function EventPayload(w: Loop, e: Event, t: nat, h: nat): seq<Bytes> {
    var w1 := Arrived(w, e.env);
    if e.token == QUEUE && w1.queue != [] then Payload(w, w1.queue[0], t, h) else []
  }

  ghost predicate AcceptsEvent(w: Loop, e: Event, w': Loop) {
    w'.panicked || forall t, h :: Accepted(w', t, h) == Accepted(w, t, h) + EventPayload(w, e, t, h)
  }

  lemma HandleNextSafe(w: Loop, env: Env)
    requires Inv(w) && !w.panicked && TokensFit(w.settings)
    ensures var w' := HandleNext(w, env);
      && Safe(w, w')
      && (w.queue == [] ==> NothingAccepted(w, w'))
      && (w.queue != [] ==> AcceptsPayload(w, w.queue[0], w'))
  {
    if w.queue == [] {
      SameConnsSafe(w, w);
    } else {
      var w1 := Dequeued(w);
      SameConnsSafe(w, w1);
      HandleQueueSafe(w1, w.queue[0], env);
      SafeTrans(w, w1, HandleNext(w, env));
    }
  }

  /** The events that are not on the queue. */
  lemma OtherEventSafe(w: Loop, e: Event)
    requires Inv(w) && e.token != QUEUE
    ensures SafeQuiet(w, HandleEvent(w, e))
  {
    var w', w1 := HandleEvent(w, e), Arrived(w, e.env);
    SameConnsSafe(w, w1);
    if e.token == SYSTEM {
      SameConnsSafe(w1, w');
    } else if e.token == ALL {
      HandleListenerSafe(w1, e.kind, e.env);
    } else if e.token == TIMER {
      HandleTimersSafe(w1, e.env.timers);
    } else if e.token in w1.conns {
      HandleConnSafe(w1, e.token, e.kind, e.env);
    } else {
      SameConnsSafe(w1, w');
    }
    SafeTrans(w, w1, w');
  }

  lemma QueueEventSafe(w: Loop, e: Event)
    requires Inv(w) && !w.panicked && TokensFit(w.settings) && e.token == QUEUE
    ensures Safe(w, HandleNext(Arrived(w, e.env), e.env)) && AcceptsEvent(w, e, HandleNext(Arrived(w, e.env), e.env))
  {
    var w1 := Arrived(w, e.env);
    SameConnsSafe(w, w1);
    HandleNextSafe(w1, e.env);
    SafeTrans(w, w1, HandleNext(w1, e.env));
  }

  lemma HandleEventSafe(w: Loop, e: Event)
    requires Inv(w) && !w.panicked && TokensFit(w.settings)
    ensures Safe(w, HandleEvent(w, e)) && AcceptsEvent(w, e, HandleEvent(w, e))
  {
    if e.token == QUEUE {
      QueueEventSafe(w, e);
    } else {
      OtherEventSafe(w, e);
    }
  }
}
