// What the loop makes of its events and commands, beyond what a single connection does: which
// connections close, which leave the slab, and when the loop stops.
module LoopReactions {
  import opened Types
  import opened ConnectionSpec
  import opened ConnectionProofs
  import opened ConnectionLaws
  import opened Lifecycle
  import opened LoopSpec
  import opened ConnectionSteps
  import opened LoopInvariant
  import opened LoopSafety
  import opened LoopRuns
  import opened LoopPanics
  import opened Deeds
  import opened LoopDeeds

  // ---------- closing ----------

  /** A connection of the slab that a command makes close is closing afterwards, and still in the slab. */
  lemma CommandCloses(w: Loop, cmd: Command, env: Env, t: nat)
    requires Inv(w) && !w.panicked && t in w.conns && !HandleQueue(w, cmd, env).panicked
    requires CommandDeed(w, cmd, env, t, w.conns[t].handler).closes
    requires var w' := HandleQueue(w, cmd, env); t in w'.conns && w'.conns[t].handler == w.conns[t].handler
    requires TokensFit(w.settings)
    ensures HandleQueue(w, cmd, env).conns[t].state.AwaitingClose?
  {
    var h, w' := w.conns[t].handler, HandleQueue(w, cmd, env);
    HandleQueueDoes(w, cmd, env, t, h);
    HandleQueueSafe(w, cmd, env);
    LiveIsNotRetired(w', t);
  }

  ghost predicate SameSlab(w: Loop, w': Loop) {
    w'.conns.Keys == w.conns.Keys && forall t | t in w.conns :: w'.conns[t].handler == w.conns[t].handler
  }

  lemma ScheduleKeepsSlab(w: Loop, u: nat, fails: bool)
    requires u in w.conns
    ensures SameSlab(w, Schedule(w, u, fails))
  {
    ErrorOnlyCalls(w.settings, w.conns[u], Io(None));
  }

  lemma AddressKeepsSlab(w: Loop, cmd: Command, env: Env)
    requires Inv(w) && cmd.token != ALL
    ensures SameSlab(w, Address(w, cmd, env))
  {
    var u := cmd.token;
    if u in w.conns && !Addressed(w, cmd).panicked {
      AddressSlot(w, cmd);
      PutKeepsSlab(w, u, Addressed(w, cmd));
      ScheduleKeepsSlab(w.Put(u, Addressed(w, cmd)), u, u in env.rearmFails);
    }
  }

  lemma PutKeepsSlab(w: Loop, u: nat, c: Conn)
    requires u in w.conns && c.handler == w.conns[u].handler
    ensures SameSlab(w, w.Put(u, c))
  {
  }

  lemma BroadcastKeepsSlab(w: Loop, cmd: Command, env: Env)
    requires Inv(w) && cmd.token == ALL
    ensures SameSlab(w, Broadcast(w, cmd.signal, env.rearmFails))
  {
    var w' := Broadcast(w, cmd.signal, env.rearmFails);
    BroadcastSlots(w, cmd.signal, env.rearmFails);
    if w' != w.Panic() {
      forall t | t in w.conns ensures w'.conns[t].handler == w.conns[t].handler {
        BroadcastSlot(w, cmd, env.rearmFails, t);
      }
    }
  }

  lemma ShutdownAllKeepsSlab(w: Loop)
    requires Inv(w)
    ensures SameSlab(w, ShutdownAll(w))
  {
    ShutdownSlots(w);
    forall t | t in w.conns && ShutdownAll(w) != w.Panic()
      ensures ShutdownAll(w).conns[t].handler == w.conns[t].handler
    {
      ShutdownSlot(w, t);
    }
  }

  lemma ShutdownForKeepsSlab(w: Loop, u: nat, fails: bool)
    requires Inv(w)
    ensures SameSlab(w, ShutdownFor(w, u, fails))
  {
    var w1 := ShutdownAll(w);
    ShutdownAllKeepsSlab(w);
    if u in w1.conns {
      ScheduleKeepsSlab(w1, u, fails);
    }
  }

  /** The commands that close connections. */
  predicate ClosesSome(cmd: Command) {
    (cmd.signal.Close? || cmd.signal.Shutdown?) && cmd.token != SYSTEM
  }

  lemma ClosingKeepsSlab(w: Loop, cmd: Command, env: Env)
    requires Inv(w) && !w.panicked && ClosesSome(cmd) && !HandleQueue(w, cmd, env).panicked
    ensures SameSlab(w, HandleQueue(w, cmd, env))
  {
    if cmd.token == ALL {
      BroadcastKeepsSlab(w, cmd, env);
    } else if cmd.signal.Close? {
      AddressKeepsSlab(w, cmd, env);
    } else {
      ShutdownForKeepsSlab(w, cmd.token, cmd.token in env.rearmFails);
    }
  }

  /** A close to one connection leaves it awaiting the peer's close if it reaches it; a close to all, and a
      shutdown from anyone, leave every connection so. */
  lemma CloseCommandCloses(w: Loop, cmd: Command, env: Env, t: nat)
    requires Inv(w) && TokensFit(w.settings) && !w.panicked && !HandleQueue(w, cmd, env).panicked && ClosesSome(cmd)
    requires t in w.conns && (cmd.signal.Close? && cmd.token != ALL ==> cmd.token == t && Reaches(w, cmd))
    ensures var w' := HandleQueue(w, cmd, env); t in w'.conns && w'.conns[t].state.AwaitingClose?
  {
    ClosingKeepsSlab(w, cmd, env);
    CommandCloses(w, cmd, env, t);
  }

  /** So from then on it accepts nothing, and all it ever sends is a prefix of what it had accepted before
      the close, whatever happens. */
  lemma CloseCommandFreezes(w: Loop, cmd: Command, env: Env, t: nat, rest: seq<Event>, polls: seq<PollResult>,
      reported: seq<Event>, k: nat, c: Conn)
    requires Inv(w) && TokensFit(w.settings) && !w.panicked && !HandleQueue(w, cmd, env).panicked && ClosesSome(cmd)
    requires t in w.conns && (cmd.signal.Close? && cmd.token != ALL ==> cmd.token == t && Reaches(w, cmd))
    requires k <= |reported|
    requires LastValue(Onward(HandleQueue(w, cmd, env), rest, polls, reported, k), t, w.conns[t].handler, c)
    ensures c.trace.accepted == w.conns[t].trace.accepted
    ensures c.trace.sent <= Flatten(w.conns[t].trace.accepted)
  {
    var w' := HandleQueue(w, cmd, env);
    CloseCommandCloses(w, cmd, env, t);
    ClosingKeepsSlab(w, cmd, env);
    HandleQueueSafe(w, cmd, env);
    CloseAcceptsNothing(w, cmd, w', t);
    CloseFreezes(w', rest, polls, reported, k, t, c);
  }

  lemma CloseAcceptsNothing(w: Loop, cmd: Command, w': Loop, t: nat)
    requires Inv(w) && Inv(w') && AcceptsPayload(w, cmd, w') && !w'.panicked && !cmd.signal.Message?
    requires SameSlab(w, w') && t in w.conns
    ensures w'.conns[t].trace.accepted == w.conns[t].trace.accepted
  {
    OnlyMessagesAreAccepted(w, cmd, w');
    LiveIsNotRetired(w, t);
    LiveIsNotRetired(w', t);
    assert Accepted(w', t, w.conns[t].handler) == Accepted(w, t, w.conns[t].handler);
  }

  // ---------- leaving the slab ----------

  /** The connection at t is gone, its handler is given back, and nothing else has changed in the slab. */
  ghost predicate Leaves(w: Loop, w': Loop, t: nat)
    requires t in w.conns
  {
    var h := w.conns[t].handler;
    && w'.conns == w.conns - {t} && t !in w'.armed
    && w'.log.lost == w.log.lost + [h] && h in w'.log.retired
  }

  /** It has stayed, armed with its interest. */
  ghost predicate Stays(w: Loop, w': Loop, t: nat)
    requires t in w.conns
  {
    && t in w'.conns && w'.conns - {t} == w.conns - {t} && w'.log == w.log
    && t in w'.armed && w'.armed[t] == w'.conns[t].events
  }

  lemma CheckedStaysIff(w: Loop, t: nat, c: Conn, fails: bool)
    requires t in w.conns && !w.panicked && c.handler == w.conns[t].handler
    requires !CheckActive(w.Put(t, c), t, fails).panicked
    ensures var w' := CheckActive(w.Put(t, c), t, fails);
      if c.events.Any() && !fails then Stays(w, w', t) else Leaves(w, w', t)
  {
    var w1 := w.Put(t, c);
    ErrorOnlyCalls(w.settings, c, Io(None));
    assert w1.conns - {t} == w.conns - {t};
    assert w1.Put(t, Error(w.settings, c, Io(None))).conns - {t} == w.conns - {t};
  }

  /** An event on a connection leaves it in the slab, armed again, exactly if it had some interest, was not
      hung up, and could be rearmed; otherwise its handler is given back. */
  lemma HandleConnStaysIff(w: Loop, t: nat, kind: Interest, env: Env)
    requires Inv(w) && !w.panicked && t in w.conns && !HandleConn(w, t, kind, env).panicked
    ensures var w', c := HandleConn(w, t, kind, env), w.conns[t];
      if c.events.Any() && !ReadyHangsUp(w.settings, c, kind, env) && t !in env.rearmFails then Stays(w, w', t)
      else Leaves(w, w', t)
  {
    assert SlotOk(w, t);
    OnReadyStep(w.settings, w.conns[t], kind, env);
    OnReadyDoes(w.settings, w.conns[t], kind, env);
    CheckedStaysIff(w, t, OnReady(w.settings, w.conns[t], kind, env).0, t in env.rearmFails);
  }

  /** A timer that fires for a connection likewise. */
  lemma HandleTimeoutStaysIff(w: Loop, fire: TimerFire)
    requires Inv(w) && !w.panicked && fire.token in w.conns && !HandleTimeout(w, fire).panicked
    ensures var t, w' := fire.token, HandleTimeout(w, fire);
      if InterestedAfter(w.conns[t], fire.reply) && !fire.rearmFails then Stays(w, w', t) else Leaves(w, w', t)
  {
    var t := fire.token;
    assert SlotOk(w, t);
    OnFireStep(w.settings, w.conns[t], fire.event, fire.reply);
    OnFireDoes(w.settings, w.conns[t], fire.event, fire.reply);
    CheckedStaysIff(w, t, OnFire(w.settings, w.conns[t], fire.event, fire.reply), fire.rearmFails);
  }

  /** In particular a read that fails with an error that hangs up, and does not panic: the handler is told,
      on_close is called last, the connection leaves the slab, and the handler is given back. */
  lemma FailedReadHangsUp(w: Loop, t: nat, kind: Interest, env: Env, error: Kind)
    requires Inv(w) && !w.panicked && t in w.conns && Alive(w.conns[t]) && Reads(w.conns[t], kind)
    requires ReadError(w.settings, w.conns[t], env.supply, env.onMessage) == Some(error) && Fatal(error)
    requires !HandleConn(w, t, kind, env).panicked
    ensures var c, w' := w.conns[t], HandleConn(w, t, kind, env);
      && Leaves(w, w', t)
      && (var c' := w'.log.retired[c.handler];
          && Ended(c')
          && c'.trace.calls == c.trace.calls + ReadCalls(w.settings, c, env.supply, env.onMessage)
                               + [OnError(error), OnClose])
  {
    var s, c, w' := w.settings, w.conns[t], HandleConn(w, t, kind, env);
    var c1 := OnReady(s, c, kind, env).0;
    assert SlotOk(w, t);
    HandleConnStaysIff(w, t, kind, env);
    OnReadyDoes(s, c, kind, env);
    OnReadyStep(s, c, kind, env);
    FatalReadDeed(s, c, kind, env, error);
    assert !c1.events.Any();
    assert w'.log.retired[c.handler] == c1;
  }

  lemma FatalReadDeed(s: Settings, c: Conn, kind: Interest, env: Env, error: Kind)
    requires Reads(c, kind) && ReadError(s, c, env.supply, env.onMessage) == Some(error) && Fatal(error)
    ensures DeedOf(c).Then(ReadyDeed(s, c, kind, env)).calls ==
            c.trace.calls + ReadCalls(s, c, env.supply, env.onMessage) + [OnError(error), OnClose]
  {
    assert !Writes(s, c, kind, env);
    var calls := ReadCalls(s, c, env.supply, env.onMessage);
    assert c.trace.calls + (calls + [OnError(error), OnClose]) == c.trace.calls + calls + [OnError(error), OnClose];
    assert calls + [OnError(error), OnClose] + [] == calls + [OnError(error), OnClose];
  }

  /** Registrations are oneshot: those that poll reports an event for are disarmed, and no others. */
  lemma PollDisarms(w: Loop, batch: seq<Event>, t: nat)
    ensures var w1 := Polled(w, batch);
      && (t in w1.armed <==> t in w.armed && forall e | e in batch :: e.token != t)
      && (t in w1.armed ==> w1.armed[t] == w.armed[t])
  {
    assert forall e | e in batch :: e.token in Tokens(batch);
  }

  // ---------- stopping ----------

  /** An interrupted poll ends the loop if it is to, without shutting the factory down; otherwise it only
      has the connections counted. */
  lemma InterruptStopsIff(w: Loop)
    requires Running(w)
    ensures var w' := Turn(w, Interrupted);
      if w.settings.shutdownOnInterrupt
      then w' == w.(active := false, log := w.log.(interrupted := true)) && !Running(w')
      else w' == if w.conns == map[] && !w.listening
                 then w.(active := false, log := w.log.(shutdowns := w.log.shutdowns + 1)) else w
  {
  }

  /** A poll that fails ends the loop, and leaves all else as it was. */
  lemma FailedPollEnds(w: Loop, polls: seq<PollResult>)
    requires Running(w)
    ensures var w' := w.(log := w.log.(failed := true)); Run(w, [PollFails] + polls) == w' && !Running(w')
  {
    assert ([PollFails] + polls)[1..] == polls;
    assert Run(Turn(w, PollFails), polls) == Turn(w, PollFails);
  }
}
