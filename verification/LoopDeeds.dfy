// What every connection ever made does in a run, call by call and byte by byte: for each event it is
// what the inputs of that event say, and nothing else happens to it.
module LoopDeeds {
  import opened Types
  import opened ConnectionSpec
  import opened LoopSpec
  import opened ConnectionSteps
  import opened LoopInvariant
  import opened LoopSafety
  import opened LoopRuns
  import opened LoopTidy
  import opened LoopPanics
  import opened Deeds

  /** The connection with handler h is in the slab at t. */
  predicate Owns(w: Loop, t: nat, h: nat) {
    t in w.conns && w.conns[t].handler == h
  }

  /** What the connection with handler h at token t has done so far, if there ever was one. */
  ghost function Record(w: Loop, t: nat, h: nat): Deed {
    if h in w.log.retired && w.log.retired[h].token == t then DeedOf(w.log.retired[h])
    else if Owns(w, t, h) then DeedOf(w.conns[t])
    else NO_DEED
  }

  /** From w to w' the connection does d more. */
  ghost predicate Does(w: Loop, w': Loop, t: nat, h: nat, d: Deed) {
    w'.panicked || Record(w', t, h) == Record(w, t, h).Then(d)
  }

  function If(b: bool, d: Deed): Deed {
    if b then d else NO_DEED
  }

  // ---------- single steps ----------

  lemma SameRecord(w: Loop, w': Loop, t: nat, h: nat)
    requires w'.conns == w.conns && w'.log.retired == w.log.retired
    ensures Record(w', t, h) == Record(w, t, h) && Does(w, w', t, h, NO_DEED)
  {
    ThenNothing(Record(w, t, h));
  }

  lemma DoesTrans(a: Loop, b: Loop, c: Loop, t: nat, h: nat, first: Deed, second: Deed)
    requires Does(a, b, t, h, first) && Does(b, c, t, h, second) && (b.panicked ==> c.panicked)
    ensures Does(a, c, t, h, first.Then(second))
  {
    ThenAssociates(Record(a, t, h), first, second);
  }

  /** One connection does something, and the others nothing. */
  lemma PutDoes(w: Loop, u: nat, c: Conn, d: Deed, t: nat, h: nat)
    requires Inv(w) && u in w.conns && c.handler == w.conns[u].handler && DeedOf(c) == DeedOf(w.conns[u]).Then(d)
    ensures Does(w, w.Put(u, c), t, h, If(u == t && Owns(w, t, h), d))
  {
    LiveIsNotRetired(w, u);
    ThenNothing(Record(w, t, h));
  }

  lemma RemoveDoes(w: Loop, u: nat, t: nat, h: nat)
    requires Inv(w) && u in w.conns
    ensures Does(w, w.Remove(u), t, h, NO_DEED)
  {
    LiveIsNotRetired(w, u);
    assert SlotOk(w, u);
    ThenNothing(Record(w, t, h));
  }

  /** Every connection in the slab does its own part. */
  lemma EachDoes(w: Loop, w': Loop, t: nat, h: nat, d: Deed)
    requires Inv(w) && w'.log.retired == w.log.retired && w'.conns.Keys == w.conns.Keys
    requires t in w.conns ==> w'.conns[t].handler == w.conns[t].handler
    requires Owns(w, t, h) ==> DeedOf(w'.conns[t]) == DeedOf(w.conns[t]).Then(d)
    ensures Does(w, w', t, h, If(Owns(w, t, h), d))
  {
    if Owns(w, t, h) {
      LiveIsNotRetired(w, t);
    } else {
      assert t in w'.conns <==> t in w.conns;
      ThenNothing(Record(w, t, h));
    }
  }

  lemma ScheduleDoes(w: Loop, u: nat, fails: bool, t: nat, h: nat)
    requires Inv(w) && u in w.conns
    ensures Does(w, Schedule(w, u, fails), t, h, If(u == t && Owns(w, t, h), RearmDeed(fails)))
  {
    var c := Error(w.settings, w.conns[u], Io(None));
    assert SlotOk(w, u);
    if fails && !c.panicked {
      ErrorDoes(w.settings, w.conns[u], Io(None));
      ErrorStep(w.settings, w.conns[u], Io(None));
      PutDoes(w, u, c, ErrorDeed(Io(None)), t, h);
    } else {
      SameRecord(w, Schedule(w, u, fails), t, h);
    }
  }

  lemma RearmOrRemoveDoes(w: Loop, u: nat, fails: bool, t: nat, h: nat)
    requires Inv(w) && u in w.conns
    ensures Does(w, RearmOrRemove(w, u, fails), t, h, If(u == t && Owns(w, t, h), RearmDeed(fails)))
  {
    var c := Error(w.settings, w.conns[u], Io(None));
    var w1 := w.Put(u, c);
    assert SlotOk(w, u);
    if fails && !c.panicked {
      ErrorDoes(w.settings, w.conns[u], Io(None));
      ErrorStep(w.settings, w.conns[u], Io(None));
      PutDoes(w, u, c, ErrorDeed(Io(None)), t, h);
      PutSafe(w, u, c);
      RemoveDoes(w1, u, t, h);
      DoesTrans(w, w1, w1.Remove(u), t, h, If(u == t && Owns(w, t, h), ErrorDeed(Io(None))), NO_DEED);
      ThenNothing(If(u == t && Owns(w, t, h), ErrorDeed(Io(None))));
    } else {
      SameRecord(w, RearmOrRemove(w, u, fails), t, h);
    }
  }

  lemma CheckActiveDoes(w: Loop, u: nat, fails: bool, t: nat, h: nat)
    requires Inv(w) && u in w.conns
    ensures Does(w, CheckActive(w, u, fails), t, h,
                 If(u == t && Owns(w, t, h), RearmDeed(w.conns[u].events.Any() && fails)))
  {
    if w.conns[u].events.Any() {
      RearmOrRemoveDoes(w, u, fails, t, h);
    } else {
      RemoveDoes(w, u, t, h);
    }
  }

  /** A connection does something, and is then rearmed or removed. */
  lemma ThenCheckedDoes(w: Loop, u: nat, c: Conn, fails: bool, any: bool, d: Deed, t: nat, h: nat)
    requires Inv(w) && u in w.conns && QuietStep(w.settings, w.conns[u], c) && !c.panicked
    requires DeedOf(c) == DeedOf(w.conns[u]).Then(d) && (c.events.Any() <==> any)
    ensures Does(w, CheckActive(w.Put(u, c), u, fails), t, h,
                 If(u == t && Owns(w, t, h), d.Then(RearmDeed(any && fails))))
  {
    var w1 := w.Put(u, c);
    var mine := u == t && Owns(w, t, h);
    PutSafe(w, u, c);
    PutDoes(w, u, c, d, t, h);
    CheckActiveDoes(w1, u, fails, t, h);
    DoesTrans(w, w1, CheckActive(w1, u, fails), t, h, If(mine, d), If(mine, RearmDeed(any && fails)));
    ThenNothing(NO_DEED);
  }

  // ---------- events on connections and timers ----------

  /** What an event on a connection makes it do: read, write, and be rearmed if it is still interested. */
  function ConnDeed(w: Loop, u: nat, kind: Interest, env: Env): Deed
    requires u in w.conns
  {
    var s, c := w.settings, w.conns[u];
    ReadyDeed(s, c, kind, env)
      .Then(RearmDeed(c.events.Any() && !ReadyHangsUp(s, c, kind, env) && u in env.rearmFails))
  }

  lemma HandleConnDoes(w: Loop, u: nat, kind: Interest, env: Env, t: nat, h: nat)
    requires Inv(w) && !w.panicked && u in w.conns
    ensures Does(w, HandleConn(w, u, kind, env), t, h, If(u == t && Owns(w, t, h), ConnDeed(w, u, kind, env)))
  {
    var s, x := w.settings, w.conns[u];
    var c := OnReady(s, x, kind, env).0;
    assert SlotOk(w, u);
    OnReadyStep(s, x, kind, env);
    if !c.panicked {
      OnReadyDoes(s, x, kind, env);
      ThenCheckedDoes(w, u, c, u in env.rearmFails, x.events.Any() && !ReadyHangsUp(s, x, kind, env),
          ReadyDeed(s, x, kind, env), t, h);
    }
  }

  /** Whether a connection that had some interest has any once a timer fired for it. */
  predicate InterestedAfter(c: Conn, reply: Option<Kind>) {
    if reply.Some? then !Fatal(reply.value) && (Closing(reply.value) || c.events.Any()) else c.events.Any()
  }

  function TimeoutDeed(w: Loop, fire: TimerFire): Deed
    requires fire.token in w.conns
  {
    FireDeed(fire.event, fire.reply)
      .Then(RearmDeed(InterestedAfter(w.conns[fire.token], fire.reply) && fire.rearmFails))
  }

  /** What a timer makes the connection with handler h at t do, when it fires for that one. */
  function TimerDeed(w: Loop, fire: TimerFire, t: nat, h: nat): Deed {
    if fire.token == t && Owns(w, t, h) then TimeoutDeed(w, fire) else NO_DEED
  }

  lemma HandleTimeoutDoes(w: Loop, fire: TimerFire, t: nat, h: nat)
    requires Inv(w) && !w.panicked
    ensures Does(w, HandleTimeout(w, fire), t, h, TimerDeed(w, fire, t, h))
  {
    var u := fire.token;
    if u in w.conns {
      var s, x := w.settings, w.conns[u];
      var c := OnFire(s, x, fire.event, fire.reply);
      assert SlotOk(w, u);
      OnFireStep(s, x, fire.event, fire.reply);
      if !c.panicked {
        OnFireDoes(s, x, fire.event, fire.reply);
        ThenCheckedDoes(w, u, c, fire.rearmFails, InterestedAfter(x, fire.reply),
            FireDeed(fire.event, fire.reply), t, h);
      }
    } else {
      SameRecord(w, w, t, h);
    }
  }

  function TimersDeed(w: Loop, fires: seq<TimerFire>, t: nat, h: nat): Deed
    decreases |fires|
  {
    if fires == [] then NO_DEED
    else TimerDeed(w, fires[0], t, h).Then(TimersDeed(HandleTimeout(w, fires[0]), fires[1..], t, h))
  }

  lemma {:induction false} HandleTimersDoes(w: Loop, fires: seq<TimerFire>, t: nat, h: nat)
    requires Inv(w) && !w.panicked
    ensures Does(w, HandleTimers(w, fires), t, h, TimersDeed(w, fires, t, h))
    decreases |fires|
  {
    if fires == [] {
      SameRecord(w, w, t, h);
    } else {
      var w1 := HandleTimeout(w, fires[0]);
      HandleTimeoutDoes(w, fires[0], t, h);
      HandleTimeoutSafe(w, fires[0]);
      if !w1.panicked {
        HandleTimersDoes(w1, fires[1..], t, h);
        DoesTrans(w, w1, HandleTimers(w1, fires[1..]), t, h, TimerDeed(w, fires[0], t, h),
            TimersDeed(w1, fires[1..], t, h));
      }
    }
  }

  // ---------- new connections ----------

  /** A connection accepted whose registration fails is told so, and so starts with a call. */
  function AcceptDeed(w: Loop, env: Env, t: nat, h: nat): Deed {
    If(!MayDrop(w.settings, env) && !SlabFull(w) && env.registerFails && t == Vacant(w, env.slot) && h == w.log.created,
       Called([OnError(Io(None))]))
  }

  lemma InsertDoes(w: Loop, c: Conn, t: nat, h: nat)
    requires Inv(w) && Inserts(w, c.token, c)
    ensures Does(w, NextId(w, c.token).Put(c.token, c), t, h, If(t == c.token && h == c.handler, DeedOf(c)))
  {
    var w' := NextId(w, c.token).Put(c.token, c);
    if t == c.token && h == c.handler {
      NextIsNotRetired(w);
      assert Record(w, t, h) == NO_DEED;
      ThenNothing(DeedOf(c));
    } else {
      ThenNothing(Record(w, t, h));
    }
  }

  lemma NextIsNotRetired(w: Loop)
    requires Conserved(w) && RetiredOk(w)
    ensures w.log.created !in w.log.retired
  {
    var h := w.log.created;
    RetiredWereLost(w);
    assert One(h in LiveHandlers(w)) + multiset(w.log.lost)[h] + multiset(w.log.dropped)[h] == 0;
    assert forall x | x in w.log.lost :: x in multiset(w.log.lost);
  }

  lemma NewServerDeed(w: Loop, env: Env)
    ensures DeedOf(NewServer(w, env)) == If(env.registerFails, Called([OnError(Io(None))]))
  {
  }

  lemma AcceptDoes(w: Loop, env: Env, t: nat, h: nat)
    requires Inv(w) && !w.panicked
    ensures Does(w, Accept(w, env).0, t, h, AcceptDeed(w, env, t, h))
  {
    var w' := Accept(w, env).0;
    if MayDrop(w.settings, env) || SlabFull(w) {
      SameRecord(w, w', t, h);
    } else if !w'.panicked {
      var c := NewServer(w, env);
      var w1 := NextId(w, c.token).Put(c.token, c);
      NewServerInserts(w, env);
      NewServerDeed(w, env);
      InsertDoes(w, c, t, h);
      SameRecord(w1, w', t, h);
    }
  }

  lemma HandleListenerDoes(w: Loop, kind: Interest, env: Env, t: nat, h: nat)
    requires Inv(w) && !w.panicked
    ensures Does(w, HandleListener(w, kind, env), t, h,
                 if kind.readable && env.accepts then AcceptDeed(w, env, t, h) else NO_DEED)
  {
    if !kind.readable || !w.listening || !env.accepts {
      SameRecord(w, HandleListener(w, kind, env), t, h);
    } else {
      AcceptDoes(w, env, t, h);
    }
  }

  lemma DialledDoes(w: Loop, url: string, env: Env, pick: Option<nat>, t: nat, h: nat)
    requires Inv(w) && !w.panicked && !SlabFull(w)
    requires env.resolved.Some? && (pick.Some? ==> pick.value < |env.resolved.value|)
    ensures Does(w, Dialled(w, url, env, pick).0, t, h, NO_DEED)
  {
    var w' := Dialled(w, url, env, pick).0;
    if pick.None? || MayDrop(w.settings, env) {
      SameRecord(w, w', t, h);
    } else {
      var c := NewClient(w, url, env, env.resolved.value[..pick.value]).0;
      var w1 := NextId(w, c.token).Put(c.token, c);
      NewClientInserts(w, url, env, env.resolved.value[..pick.value]);
      NewClientDeed(w, url, env, env.resolved.value[..pick.value]);
      InsertDoes(w, c, t, h);
      InsertInv(w, c.token, c);
      if env.registerFails {
        RemoveDoes(w1, c.token, t, h);
      } else {
        SameRecord(w1, w', t, h);
      }
      ThenNothing(Record(w, t, h));
    }
  }

  lemma NewClientDeed(w: Loop, url: string, env: Env, untried: seq<nat>)
    ensures DeedOf(NewClient(w, url, env, untried).0) == NO_DEED
  {
  }

  lemma ConnectToDoes(w: Loop, url: string, env: Env, t: nat, h: nat)
    requires Inv(w) && !w.panicked
    ensures Does(w, ConnectTo(w, url, env).0, t, h, NO_DEED)
  {
    if SlabFull(w) || env.resolved.None? {
      SameRecord(w, ConnectTo(w, url, env).0, t, h);
    } else {
      DialledDoes(w, url, env, PickAddress(env, |env.resolved.value|), t, h);
    }
  }

  // ---------- commands ----------

  /** What a command makes the connection with handler h at t do. To all, it is delivered to each and
      each is rearmed; a shutdown tells every connection whoever sent it; anything else is for the
      connection at its token, which it reaches only if the ids agree, and which is rearmed in any case. */
  function CommandDeed(w: Loop, cmd: Command, env: Env, t: nat, h: nat): Deed {
    if !Owns(w, t, h) || cmd.token == SYSTEM then NO_DEED
    else if cmd.token == ALL then AllDeed(w, cmd.signal, env, t)
    else OneDeed(w, cmd, env, t)
  }

  function AllDeed(w: Loop, signal: Signal, env: Env, t: nat): Deed
    requires t in w.conns
  {
    match signal
    case Message(_) => SignalDeed(w.settings, w.conns[t], signal).Then(RearmDeed(t in env.rearmFails))
    case Close => Deed([], [], [], true).Then(RearmDeed(t in env.rearmFails))
    case Shutdown => Deed([OnShutdown], [], [], true).Then(RearmDeed(t in env.rearmFails))
    case Connect(_) => NO_DEED
    case Timeout(event) => If(!env.timerFails, NewTimeoutDeed(event, ReplyOf(env, t)))
    case Cancel => NO_DEED
  }

  function OneDeed(w: Loop, cmd: Command, env: Env, t: nat): Deed
    requires t in w.conns
  {
    var own := cmd.token == t;
    var rearm := RearmDeed(own && t in env.rearmFails);
    match cmd.signal
    case Message(_) => If(own && Reaches(w, cmd), SignalDeed(w.settings, w.conns[t], cmd.signal)).Then(rearm)
    case Close => If(own && Reaches(w, cmd), Deed([], [], [], true)).Then(rearm)
    case Shutdown => Deed([OnShutdown], [], [], true).Then(rearm)
    case Connect(_) => If(own, FailureDeed(ConnectError(w, env)))
    case Timeout(event) => If(own, if env.timerFails then ErrorDeed(Timer) else NewTimeoutDeed(event, ReplyOf(env, t)))
    case Cancel => NO_DEED
  }

  lemma BroadcastDoes(w: Loop, cmd: Command, env: Env, t: nat, h: nat, d: Deed)
    requires Inv(w) && !w.panicked && cmd.token == ALL
    requires t in w.conns ==>
               d == SignalDeed(w.settings, w.conns[t], cmd.signal).Then(RearmDeed(t in env.rearmFails))
    ensures Does(w, Broadcast(w, cmd.signal, env.rearmFails), t, h, If(Owns(w, t, h), d))
  {
    var w' := Broadcast(w, cmd.signal, env.rearmFails);
    BroadcastSlots(w, cmd.signal, env.rearmFails);
    if !w'.panicked {
      if t in w.conns {
        var d1 := SignalDeed(w.settings, w.conns[t], cmd.signal);
        BroadcastSlot(w, cmd, env.rearmFails, t);
        assert SlotOk(w, t);
        Broadcast1Does(w.settings, w.conns[t], cmd.signal, t in env.rearmFails);
        ThenAssociates(DeedOf(w.conns[t]), d1, RearmDeed(t in env.rearmFails));
      }
      EachDoes(w, w', t, h, d);
    }
  }

  lemma ShutdownForAllDoes(w: Loop, cmd: Command, env: Env, t: nat, h: nat)
    requires Inv(w) && !w.panicked && cmd.token == ALL && cmd.signal.Shutdown?
    ensures Does(w, ShutdownForAll(w, env), t, h, CommandDeed(w, cmd, env, t, h))
  {
    var w1, w' := Broadcast(w, Shutdown, env.rearmFails), ShutdownForAll(w, env);
    BroadcastDoes(w, cmd, env, t, h, Deed([OnShutdown], [], [], true).Then(RearmDeed(t in env.rearmFails)));
    if !w'.panicked {
      SameRecord(w1, w', t, h);
    }
  }

  lemma ShutdownAllDoes(w: Loop, t: nat, h: nat)
    requires Inv(w) && !w.panicked
    ensures Does(w, ShutdownAll(w), t, h, If(Owns(w, t, h), Deed([OnShutdown], [], [], true)))
  {
    var w' := ShutdownAll(w);
    ShutdownSlots(w);
    if !w'.panicked {
      if t in w.conns {
        ShutdownSlot(w, t);
        assert SlotOk(w, t);
        ShutdownDoes(w.conns[t]);
      }
      EachDoes(w, w', t, h, Deed([OnShutdown], [], [], true));
    }
  }

  /** What a shutdown from one connection's sender makes the connection at t do. */
  function ShutdownDeed(u: nat, fails: bool, t: nat): Deed {
    Deed([OnShutdown], [], [], true).Then(RearmDeed(u == t && fails))
  }

  lemma ShutdownForDoes(w: Loop, u: nat, fails: bool, t: nat, h: nat)
    requires Inv(w) && !w.panicked
    ensures Does(w, ShutdownFor(w, u, fails), t, h, If(Owns(w, t, h), ShutdownDeed(u, fails, t)))
  {
    var w1 := ShutdownAll(w);
    var d := Deed([OnShutdown], [], [], true);
    ShutdownAllSafe(w);
    ShutdownAllDoes(w, t, h);
    ShutdownSlots(w);
    ThenNothing(d);
    if !w1.panicked {
      SlotHandler(w, w1, t, h);
      if u in w1.conns {
        ScheduleDoes(w1, u, fails, t, h);
        DoesTrans(w, w1, Schedule(w1, u, fails), t, h, If(Owns(w, t, h), d),
            If(u == t && Owns(w, t, h), RearmDeed(fails)));
        ThenNothing(NO_DEED);
      }
    }
  }

  /** Shutting down moves no connection. */
  lemma SlotHandler(w: Loop, w1: Loop, t: nat, h: nat)
    requires w1.conns.Keys == w.conns.Keys && forall u | u in w.conns :: w1.conns[u] == ShutdownConn(w.conns[u])
    ensures Owns(w1, t, h) <==> Owns(w, t, h)
  {
    assert t in w1.conns <==> t in w.conns;
  }

  lemma SetTimeoutAllDoes(w: Loop, event: nat, env: Env, t: nat, h: nat)
    requires Inv(w) && !w.panicked
    ensures Does(w, SetTimeoutAll(w, event, env), t, h,
                 If(Owns(w, t, h) && !env.timerFails, NewTimeoutDeed(event, ReplyOf(env, t))))
  {
    var w' := SetTimeoutAll(w, event, env);
    if env.timerFails {
      SameRecord(w, w', t, h);
    } else if !w'.panicked {
      SetTimeoutAllSlots(w, event, env);
      TimeoutConnsAt(w, event, env);
      if t in w.conns {
        SetTimeoutSlot(w, event, env, t);
        assert SlotOk(w, t);
        SetTimeout1Does(w.settings, w.conns[t], event, ReplyOf(env, t));
      }
      EachDoes(w, w', t, h, NewTimeoutDeed(event, ReplyOf(env, t)));
    }
  }

  lemma SetTimeoutOneDoes(w: Loop, cmd: Command, event: nat, env: Env, t: nat, h: nat)
    requires Inv(w) && !w.panicked && cmd.token != ALL && cmd.token != SYSTEM && cmd.signal == Timeout(event)
    ensures Does(w, SetTimeoutOne(w, cmd.token, event, env), t, h, CommandDeed(w, cmd, env, t, h))
  {
    var u, w', s := cmd.token, SetTimeoutOne(w, cmd.token, event, env), w.settings;
    if u !in w.conns {
      SameRecord(w, w', t, h);
    } else if !w'.panicked {
      assert SlotOk(w, u);
      if env.timerFails {
        ErrorDoes(s, w.conns[u], Timer);
        ErrorStep(s, w.conns[u], Timer);
        PutDoes(w, u, Error(s, w.conns[u], Timer), ErrorDeed(Timer), t, h);
      } else {
        SetTimeout1Does(s, w.conns[u], event, ReplyOf(env, u));
        SetTimeout1Step(s, w.conns[u], event, ReplyOf(env, u));
        PutDoes(w, u, SetTimeout1(s, w.conns[u], event, ReplyOf(env, u)), NewTimeoutDeed(event, ReplyOf(env, u)), t, h);
      }
    }
  }

  lemma ConnectForDoes(w: Loop, cmd: Command, url: string, env: Env, t: nat, h: nat)
    requires Inv(w) && !w.panicked && cmd.token != ALL && cmd.token != SYSTEM && cmd.signal == Connect(url)
    ensures Does(w, ConnectFor(w, cmd.token, url, env), t, h, CommandDeed(w, cmd, env, t, h))
  {
    var u, w' := cmd.token, ConnectFor(w, cmd.token, url, env);
    var (w1, r) := ConnectTo(w, url, env);
    ConnectToDoes(w, url, env, t, h);
    ConnectToSafe(w, url, env);
    ConnectToFailsIff(w, url, env);
    ThenNothing(Record(w, t, h));
    if !w'.panicked && r.Fail? && u in w1.conns {
      assert SlotOk(w1, u);
      ErrorDoes(w1.settings, w1.conns[u], r.error);
      ErrorStep(w1.settings, w1.conns[u], r.error);
      PutDoes(w1, u, Error(w1.settings, w1.conns[u], r.error), ErrorDeed(r.error), t, h);
    }
  }

  /** What a message or a close to the connection at t makes it do. */
  function SentDeed(w: Loop, cmd: Command, fails: bool): Deed
    requires cmd.token in w.conns
  {
    If(Reaches(w, cmd), SignalDeed(w.settings, w.conns[cmd.token], cmd.signal)).Then(RearmDeed(fails))
  }

  lemma AddressedDoes(w: Loop, cmd: Command)
    requires Inv(w) && cmd.token in w.conns && !Addressed(w, cmd).panicked
    ensures DeedOf(Addressed(w, cmd)) ==
            DeedOf(w.conns[cmd.token]).Then(If(Reaches(w, cmd), SignalDeed(w.settings, w.conns[cmd.token], cmd.signal)))
  {
    assert SlotOk(w, cmd.token);
    if Reaches(w, cmd) {
      DeliveryDoes(w.settings, w.conns[cmd.token], cmd.signal);
    } else {
      ThenNothing(DeedOf(w.conns[cmd.token]));
    }
  }

  lemma AddressDoes(w: Loop, cmd: Command, env: Env, t: nat, h: nat)
    requires Inv(w) && !w.panicked && cmd.token != ALL && cmd.token in w.conns
    ensures Does(w, Address(w, cmd, env), t, h,
                 If(cmd.token == t && Owns(w, t, h), SentDeed(w, cmd, cmd.token in env.rearmFails)))
  {
    var u := cmd.token;
    var c, fails, mine := Addressed(w, cmd), u in env.rearmFails, u == t && Owns(w, t, h);
    if !c.panicked {
      var d := If(Reaches(w, cmd), SignalDeed(w.settings, w.conns[u], cmd.signal));
      AddressSlot(w, cmd);
      AddressPut(w, cmd);
      AddressedDoes(w, cmd);
      PutDoes(w, u, c, d, t, h);
      ScheduleDoes(w.Put(u, c), u, fails, t, h);
      DoesTrans(w, w.Put(u, c), Schedule(w.Put(u, c), u, fails), t, h, If(mine, d), If(mine, RearmDeed(fails)));
      ThenNothing(NO_DEED);
    }
  }

  lemma SendDoes(w: Loop, cmd: Command, env: Env, t: nat, h: nat)
    requires Inv(w) && !w.panicked && cmd.token != ALL && cmd.token != SYSTEM
    requires cmd.signal.Message? || cmd.signal.Close?
    ensures Does(w, Address(w, cmd, env), t, h, CommandDeed(w, cmd, env, t, h))
  {
    ThenNothing(NO_DEED);
    if cmd.token in w.conns {
      AddressDoes(w, cmd, env, t, h);
    } else {
      SameRecord(w, w, t, h);
    }
  }

  lemma HandleAllDoes(w: Loop, cmd: Command, env: Env, t: nat, h: nat)
    requires Inv(w) && !w.panicked && cmd.token == ALL
    ensures Does(w, HandleAll(w, cmd.signal, env), t, h, CommandDeed(w, cmd, env, t, h))
  {
    var d := if t in w.conns then AllDeed(w, cmd.signal, env, t) else NO_DEED;
    match cmd.signal {
      case Message(_) => BroadcastDoes(w, cmd, env, t, h, d);
      case Close => BroadcastDoes(w, cmd, env, t, h, d);
      case Shutdown => ShutdownForAllDoes(w, cmd, env, t, h);
      case Connect(url) => ConnectToDoes(w, url, env, t, h);
      case Timeout(event) => SetTimeoutAllDoes(w, event, env, t, h);
      case Cancel => SameRecord(w, w, t, h);
    }
  }

  lemma HandleOneDoes(w: Loop, cmd: Command, env: Env, t: nat, h: nat)
    requires Inv(w) && !w.panicked && cmd.token != ALL && cmd.token != SYSTEM
    ensures Does(w, HandleOne(w, cmd, env), t, h, CommandDeed(w, cmd, env, t, h))
  {
    match cmd.signal {
      case Message(_) => SendDoes(w, cmd, env, t, h);
      case Close => SendDoes(w, cmd, env, t, h);
      case Shutdown => ShutdownForDoes(w, cmd.token, cmd.token in env.rearmFails, t, h);
      case Connect(url) => ConnectForDoes(w, cmd, url, env, t, h);
      case Timeout(event) => SetTimeoutOneDoes(w, cmd, event, env, t, h);
      case Cancel => SameRecord(w, w, t, h);
    }
  }

  lemma HandleQueueDoes(w: Loop, cmd: Command, env: Env, t: nat, h: nat)
    requires Inv(w) && !w.panicked
    ensures Does(w, HandleQueue(w, cmd, env), t, h, CommandDeed(w, cmd, env, t, h))
  {
    if cmd.token == SYSTEM {
      SameRecord(w, w, t, h);
    } else if cmd.token == ALL {
      HandleAllDoes(w, cmd, env, t, h);
    } else {
      HandleOneDoes(w, cmd, env, t, h);
    }
  }

  // ---------- events, batches and runs ----------

  /** What an event makes the connection with handler h at token t do. */
  function EventDeed(w: Loop, e: Event, t: nat, h: nat): Deed {
    var w1 := Arrived(w, e.env);
    if e.token == ALL then
      if e.kind.readable && e.env.accepts then AcceptDeed(w1, e.env, t, h) else NO_DEED
    else if e.token == TIMER then TimersDeed(w1, e.env.timers, t, h)
    else if e.token == QUEUE then
      if w1.queue == [] then NO_DEED else CommandDeed(Dequeued(w1), w1.queue[0], e.env, t, h)
    else if e.token == t && Owns(w1, t, h) then ConnDeed(w1, t, e.kind, e.env)
    else NO_DEED
  }

  lemma HandleNextDoes(w: Loop, env: Env, t: nat, h: nat)
    requires Inv(w) && !w.panicked
    ensures Does(w, HandleNext(w, env), t, h,
                 if w.queue == [] then NO_DEED else CommandDeed(Dequeued(w), w.queue[0], env, t, h))
  {
    if w.queue == [] {
      SameRecord(w, w, t, h);
    } else {
      var w1 := Dequeued(w);
      SameConnsSafe(w, w1);
      SameRecord(w, w1, t, h);
      HandleQueueDoes(w1, w.queue[0], env, t, h);
    }
  }

  /** An event does this to each connection, and nothing else. */
  lemma HandleEventDoes(w: Loop, e: Event, t: nat, h: nat)
    requires Inv(w) && TokensFit(w.settings) && !w.panicked
    ensures Does(w, HandleEvent(w, e), t, h, EventDeed(w, e, t, h))
  {
    var w1 := Arrived(w, e.env);
    SameConnsSafe(w, w1);
    SameRecord(w, w1, t, h);
    TokensAreOrdinary(w1);
    if e.token == SYSTEM {
    } else if e.token == ALL {
      HandleListenerDoes(w1, e.kind, e.env, t, h);
    } else if e.token == TIMER {
      HandleTimersDoes(w1, e.env.timers, t, h);
    } else if e.token == QUEUE {
      HandleNextDoes(w1, e.env, t, h);
    } else if e.token in w1.conns {
      HandleConnDoes(w1, e.token, e.kind, e.env, t, h);
    }
  }

  function BatchDeed(w: Loop, batch: seq<Event>, t: nat, h: nat): Deed
    decreases |batch|
  {
    if batch == [] || w.panicked then NO_DEED
    else EventDeed(w, batch[0], t, h).Then(BatchDeed(HandleEvent(w, batch[0]), batch[1..], t, h))
  }

  function RunDeed(w: Loop, polls: seq<PollResult>, t: nat, h: nat): Deed
    decreases |polls|
  {
    if polls == [] || !Running(w) then NO_DEED
    else
      (if polls[0].Ready? then BatchDeed(Polled(w, polls[0].batch), polls[0].batch, t, h) else NO_DEED)
        .Then(RunDeed(Turn(w, polls[0]), polls[1..], t, h))
  }

  lemma {:induction false} HandleEventsDoes(w: Loop, batch: seq<Event>, t: nat, h: nat)
    requires Inv(w) && TokensFit(w.settings)
    ensures Does(w, HandleEvents(w, batch), t, h, BatchDeed(w, batch, t, h))
    decreases |batch|
  {
    if batch == [] || w.panicked {
      SameRecord(w, w, t, h);
    } else {
      var w1 := HandleEvent(w, batch[0]);
      HandleEventDoes(w, batch[0], t, h);
      HandleEventSafe(w, batch[0]);
      HandleEventsDoes(w1, batch[1..], t, h);
      DoesTrans(w, w1, HandleEvents(w1, batch[1..]), t, h, EventDeed(w, batch[0], t, h),
          BatchDeed(w1, batch[1..], t, h));
    }
  }

  lemma TurnDoes(w: Loop, p: PollResult, t: nat, h: nat)
    requires Inv(w) && TokensFit(w.settings)
    ensures Does(w, Turn(w, p), t, h, if p.Ready? then BatchDeed(Polled(w, p.batch), p.batch, t, h) else NO_DEED)
  {
    if p.Ready? {
      var w1 := Polled(w, p.batch);
      var w2 := HandleEvents(w1, p.batch);
      SameConnsSafe(w, w1);
      SameRecord(w, w1, t, h);
      HandleEventsDoes(w1, p.batch, t, h);
      SameRecord(w2, Settle(w2), t, h);
    } else {
      IdleTurnSame(w, p);
      SameRecord(w, Turn(w, p), t, h);
    }
  }

  /** In every run each connection does, call by call and byte by byte, what the events of the run make
      it do, and nothing else. */
  lemma {:induction false} RunDoes(w: Loop, polls: seq<PollResult>, t: nat, h: nat)
    requires Inv(w) && TokensFit(w.settings)
    ensures Does(w, Run(w, polls), t, h, RunDeed(w, polls, t, h))
    decreases |polls|
  {
    if polls == [] || !Running(w) {
      SameRecord(w, w, t, h);
    } else {
      var p, w1 := polls[0], Turn(w, polls[0]);
      TurnDoes(w, p, t, h);
      TurnSafe(w, p, 0, 0);
      RunDoes(w1, polls[1..], t, h);
      DoesTrans(w, w1, Run(w1, polls[1..]), t, h,
          if p.Ready? then BatchDeed(Polled(w, p.batch), p.batch, t, h) else NO_DEED, RunDeed(w1, polls[1..], t, h));
    }
  }

  /** So for every connection ever made: the calls its handler got, the bytes received from its socket
      and sent to it, and whether it is closing, are those its events account for. */
  lemma DeedsOfRuns(s: Settings, listening: bool, polls: seq<PollResult>, t: nat, h: nat, c: Conn)
    requires TokensFit(s)
    requires var w := Run(Initial(s, listening), polls); !w.panicked && LastValue(w, t, h, c)
    ensures var d := RunDeed(Initial(s, listening), polls, t, h);
      && c.trace.calls == d.calls && c.trace.received == d.received && c.trace.sent == d.sent
      && (c.state.AwaitingClose? <==> d.closes) && (c.state.Open? <==> !d.closes)
  {
    var w0, w := Initial(s, listening), Run(Initial(s, listening), polls);
    InitialInv(s, listening);
    RunSafe(w0, polls, t, h);
    RunDoes(w0, polls, t, h);
    ThenNothing(RunDeed(w0, polls, t, h));
    LastRecord(w, t, h, c);
    LastValueSound(w, t, h, c);
  }

  lemma LastRecord(w: Loop, t: nat, h: nat, c: Conn)
    requires Inv(w) && LastValue(w, t, h, c)
    ensures Record(w, t, h) == DeedOf(c)
  {
    if t in w.conns && w.conns[t] == c && c.handler == h {
      LiveIsNotRetired(w, t);
    }
  }
}
