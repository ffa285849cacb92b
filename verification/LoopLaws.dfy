// Laws of whole runs that follow the books of the loop: the order of the queue, shutdown,
// handlers, capacity, address fallback, and the states and buffers a connection can be in.
module LoopLaws {
  import opened Types
  import opened ConnectionSpec
  import opened ConnectionProofs
  import opened ConnectionLaws
  import opened Lifecycle
  import opened LoopSpec
  import opened LoopInvariant
  import opened LoopSafety
  import opened LoopRuns

  // ---------- what steps leave alone ----------

  predicate SameQueue(w: Loop, w': Loop) {
    w'.settings == w.settings && w'.queue == w.queue && w'.log.handled == w.log.handled && w'.listening == w.listening
  }

  /** Neither stops the loop nor shuts the factory down. */
  predicate SameClock(w: Loop, w': Loop) {
    && w'.active == w.active && w'.log.shutdowns == w.log.shutdowns
    && w'.log.interrupted == w.log.interrupted && w'.log.failed == w.log.failed
  }

  predicate DropsOnlyIf(w: Loop, w': Loop, mayDrop: bool) {
    w'.log.dropped == w.log.dropped || mayDrop
  }

  predicate Calm(w: Loop, w': Loop, mayDrop: bool) {
    SameQueue(w, w') && SameClock(w, w') && DropsOnlyIf(w, w', mayDrop)
  }

  lemma CalmTrans(a: Loop, b: Loop, c: Loop, mayDrop: bool)
    requires Calm(a, b, mayDrop) && Calm(b, c, mayDrop)
    ensures Calm(a, c, mayDrop)
  {
  }

  lemma PutCalm(w: Loop, t: nat, c: Conn)
    ensures Calm(w, w.Put(t, c), false)
  {
  }

  lemma RemoveCalm(w: Loop, t: nat)
    requires t in w.conns
    ensures Calm(w, w.Remove(t), false)
  {
  }

  lemma ScheduleCalm(w: Loop, t: nat, fails: bool)
    requires t in w.conns
    ensures Calm(w, Schedule(w, t, fails), false)
  {
  }

  lemma CheckActiveCalm(w: Loop, t: nat, fails: bool)
    requires t in w.conns
    ensures Calm(w, CheckActive(w, t, fails), false)
  {
    RemoveCalm(w, t);
    RearmOrRemoveCalm(w, t, fails);
  }

  lemma RearmOrRemoveCalm(w: Loop, t: nat, fails: bool)
    requires t in w.conns
    ensures Calm(w, RearmOrRemove(w, t, fails), false)
  {
    RemoveCalm(w.Put(t, Error(w.settings, w.conns[t], Io(None))), t);
  }

  /** A handled event on a connection: the connection changes, and is then rearmed or removed. */
  lemma ThenCheckActiveCalm(w: Loop, t: nat, c: Conn, fails: bool)
    ensures Calm(w, CheckActive(w.Put(t, c), t, fails), false)
    ensures Calm(w, RearmOrRemove(w.Put(t, c), t, fails), false)
  {
    CheckActiveCalm(w.Put(t, c), t, fails);
    RearmOrRemoveCalm(w.Put(t, c), t, fails);
  }

  lemma HandleConnCalm(w: Loop, t: nat, kind: Interest, env: Env)
    requires t in w.conns
    ensures Calm(w, HandleConn(w, t, kind, env), false)
  {
    ThenCheckActiveCalm(w, t, OnReady(w.settings, w.conns[t], kind, env).0, t in env.rearmFails);
  }

  lemma HandleTimeoutCalm(w: Loop, fire: TimerFire)
    ensures Calm(w, HandleTimeout(w, fire), false)
  {
    if fire.token in w.conns {
      ThenCheckActiveCalm(w, fire.token, OnFire(w.settings, w.conns[fire.token], fire.event, fire.reply),
          fire.rearmFails);
    }
  }

  lemma {:induction false} HandleTimersCalm(w: Loop, fires: seq<TimerFire>)
    ensures Calm(w, HandleTimers(w, fires), false)
    decreases |fires|
  {
    if fires != [] && !w.panicked {
      HandleTimeoutCalm(w, fires[0]);
      HandleTimersCalm(HandleTimeout(w, fires[0]), fires[1..]);
      CalmTrans(w, HandleTimeout(w, fires[0]), HandleTimers(w, fires), false);
    }
  }

  lemma InsertCalm(w: Loop, c: Conn)
    ensures Calm(w, NextId(w, c.token).Put(c.token, c), false)
    ensures Calm(w, NextId(w, c.token).Put(c.token, c).Arm(c.token, c.events), false)
    ensures Calm(w, NextId(w, c.token).Put(c.token, c).Remove(c.token), false)
  {
  }

  lemma AcceptCalm(w: Loop, env: Env)
    ensures Calm(w, Accept(w, env).0, false)
  {
    InsertCalm(w, NewServer(w, env));
  }

  lemma ListenerCalm(w: Loop, kind: Interest, env: Env)
    ensures Calm(w, HandleListener(w, kind, env), false)
  {
    AcceptCalm(w, env);
  }

  lemma DialledCalm(w: Loop, url: string, env: Env, pick: Option<nat>)
    requires env.resolved.Some? && (pick.Some? ==> pick.value < |env.resolved.value|)
    ensures var w' := Dialled(w, url, env, pick).0;
      && Calm(w, w', MayDrop(w.settings, env))
      && (w'.log.dropped != w.log.dropped <==> pick.Some? && MayDrop(w.settings, env))
  {
  }

  /** A connect drops a handler exactly when it found a slot and an address and then could not set nodelay. */
  lemma ConnectDropsExactly(w: Loop, url: string, env: Env)
    ensures var w' := ConnectTo(w, url, env).0;
      && Calm(w, w', MayDrop(w.settings, env))
      && (w'.log.dropped != w.log.dropped <==>
          && |w.conns| < w.settings.maxConnections && env.resolved.Some?
          && PickAddress(env, |env.resolved.value|).Some? && MayDrop(w.settings, env))
  {
    if |w.conns| < w.settings.maxConnections && env.resolved.Some? {
      DialledCalm(w, url, env, PickAddress(env, |env.resolved.value|));
    }
  }

  lemma ConnectForCalm(w: Loop, t: nat, url: string, env: Env)
    ensures Calm(w, ConnectFor(w, t, url, env), MayDrop(w.settings, env))
  {
    var (w1, r) := ConnectTo(w, url, env);
    ConnectDropsExactly(w, url, env);
    if t in w1.conns && r.Fail? {
      PutCalm(w1, t, Error(w1.settings, w1.conns[t], r.error));
    }
  }

  lemma ConnectForAllCalm(w: Loop, url: string, env: Env)
    ensures Calm(w, ConnectForAll(w, url, env), MayDrop(w.settings, env))
  {
    ConnectDropsExactly(w, url, env);
  }

  lemma AddressCalm(w: Loop, cmd: Command, env: Env)
    ensures Calm(w, Address(w, cmd, env), false)
  {
    var t := cmd.token;
    if t in w.conns {
      var w1 := w.Put(t, Addressed(w, cmd));
      PutCalm(w, t, Addressed(w, cmd));
      ScheduleCalm(w1, t, t in env.rearmFails);
      CalmTrans(w, w1, Schedule(w1, t, t in env.rearmFails), false);
    }
  }

  lemma BroadcastCalm(w: Loop, signal: Signal, rearmFails: set<nat>)
    ensures Calm(w, Broadcast(w, signal, rearmFails), false)
  {
  }

  lemma SetTimeoutAllCalm(w: Loop, event: nat, env: Env)
    ensures Calm(w, SetTimeoutAll(w, event, env), false)
  {
  }

  lemma SetTimeoutOneCalm(w: Loop, t: nat, event: nat, env: Env)
    ensures Calm(w, SetTimeoutOne(w, t, event, env), false)
  {
  }

  lemma HandleOneCalm(w: Loop, cmd: Command, env: Env)
    requires !cmd.signal.Shutdown?
    ensures Calm(w, HandleOne(w, cmd, env), MayDrop(w.settings, env))
  {
    match cmd.signal {
      case Connect(url) => ConnectForCalm(w, cmd.token, url, env);
      case Message(_) => AddressCalm(w, cmd, env);
      case Close => AddressCalm(w, cmd, env);
      case Timeout(event) => SetTimeoutOneCalm(w, cmd.token, event, env);
      case Cancel =>
    }
  }

  lemma HandleAllCalm(w: Loop, signal: Signal, env: Env)
    requires !signal.Shutdown?
    ensures Calm(w, HandleAll(w, signal, env), MayDrop(w.settings, env))
  {
    match signal {
      case Connect(url) => ConnectForAllCalm(w, url, env);
      case Message(_) => BroadcastCalm(w, signal, env.rearmFails);
      case Close => BroadcastCalm(w, signal, env.rearmFails);
      case Timeout(event) => SetTimeoutAllCalm(w, event, env);
      case Cancel =>
    }
  }

  predicate Stops(w: Loop, w': Loop) {
    SameQueue(w, w') && SameClock(Stopped(w), w') && w'.log.dropped == w.log.dropped
  }

  lemma ShutdownAllStops(w: Loop)
    ensures var w' := ShutdownAll(w); w'.panicked || Stops(w, w')
  {
  }

  lemma ShutdownForStops(w: Loop, t: nat, fails: bool)
    ensures var w' := ShutdownFor(w, t, fails); w'.panicked || Stops(w, w')
  {
    var w1 := ShutdownAll(w);
    ShutdownAllStops(w);
    if t in w1.conns {
      ScheduleCalm(w1, t, fails);
    }
  }

  lemma ShutdownForAllStops(w: Loop, env: Env)
    ensures var w' := ShutdownForAll(w, env); w'.panicked || Stops(w, w')
  {
    BroadcastCalm(w, Shutdown, env.rearmFails);
  }

  /** The commands that stop the loop, from the server or from any connection's sender. */
  predicate StopsLoop(cmd: Command) {
    cmd.signal.Shutdown? && cmd.token != SYSTEM
  }

  /** Stops the loop if it is to, and else is calm. */
  predicate CalmUnless(stops: bool, w: Loop, w': Loop, mayDrop: bool) {
    w'.panicked || if stops then Stops(w, w') else Calm(w, w', mayDrop)
  }

  lemma HandleQueueStopsExactly(w: Loop, cmd: Command, env: Env)
    requires !w.panicked
    ensures CalmUnless(StopsLoop(cmd), w, HandleQueue(w, cmd, env), MayDrop(w.settings, env))
  {
    if cmd.signal.Shutdown? {
      ShutdownForAllStops(w, env);
      ShutdownForStops(w, cmd.token, cmd.token in env.rearmFails);
    } else if cmd.token == ALL {
      HandleAllCalm(w, cmd.signal, env);
    } else if cmd.token != SYSTEM {
      HandleOneCalm(w, cmd, env);
    }
  }

  lemma OtherEventCalm(w: Loop, e: Event)
    requires e.token != QUEUE
    ensures Calm(Arrived(w, e.env), HandleEvent(w, e), false)
  {
    var w1 := Arrived(w, e.env);
    if e.token == ALL {
      ListenerCalm(w1, e.kind, e.env);
    } else if e.token == TIMER {
      HandleTimersCalm(w1, e.env.timers);
    } else if e.token in w1.conns {
      HandleConnCalm(w1, e.token, e.kind, e.env);
    }
  }

  /** The command an event makes the loop handle, if any. */
  function Taken(w: Loop, e: Event): seq<Command> {
    var queue := w.queue + e.env.arrivals;
    if e.token == QUEUE && queue != [] then [queue[0]] else []
  }

  /** The loop with the arrivals of an event on the queue and the command it handles off it. */
  function Started(w: Loop, e: Event): Loop {
    var w1 := Arrived(w, e.env);
    if Taken(w, e) == [] then w1 else Dequeued(w1)
  }

  predicate StopsAt(w: Loop, e: Event) {
    Taken(w, e) != [] && StopsLoop(Taken(w, e)[0])
  }

  lemma EventStopsExactly(w: Loop, e: Event)
    requires !w.panicked
    ensures CalmUnless(StopsAt(w, e), Started(w, e), HandleEvent(w, e), MayDrop(w.settings, e.env))
  {
    var w1 := Arrived(w, e.env);
    if e.token != QUEUE {
      OtherEventCalm(w, e);
    } else if w1.queue != [] {
      HandleQueueStopsExactly(Dequeued(w1), w1.queue[0], e.env);
    }
  }

  // ---------- the queue is first in, first out ----------

  /** Commands are handled in the order they arrived: each event on the queue that finds a command
      takes the first, and only that one; no other event takes any. */
  lemma QueueIsFifo(w: Loop, e: Event)
    requires !w.panicked && !HandleEvent(w, e).panicked
    ensures var w' := HandleEvent(w, e);
      && w'.log.handled + w'.queue == w.log.handled + w.queue + e.env.arrivals
      && |w'.log.handled| == |w.log.handled| + if e.token == QUEUE && w.queue + e.env.arrivals != [] then 1 else 0
  {
    EventStopsExactly(w, e);
    if Taken(w, e) != [] {
      TakeFirst(w.log.handled, w.queue + e.env.arrivals);
    }
  }

  /** All the commands that arrive while a batch is handled, and while a run lasts. */
  function BatchArrivals(batch: seq<Event>): seq<Command> {
    if batch == [] then [] else batch[0].env.arrivals + BatchArrivals(batch[1..])
  }

  function RunArrivals(w: Loop, polls: seq<PollResult>): seq<Command>
    decreases |polls|
  {
    if polls == [] || !Running(w) then []
    else (if polls[0].Ready? then BatchArrivals(polls[0].batch) else []) + RunArrivals(Turn(w, polls[0]), polls[1..])
  }

  /** Handled and waiting together are what they were, and then what arrived. */
  predicate Queued(w: Loop, w': Loop, arrivals: seq<Command>) {
    w'.panicked || w'.log.handled + w'.queue == w.log.handled + w.queue + arrivals
  }

  lemma QueuedTrans(a: Loop, b: Loop, c: Loop, first: seq<Command>, second: seq<Command>)
    requires Queued(a, b, first) && Queued(b, c, second) && (b.panicked ==> c.panicked)
    ensures Queued(a, c, first + second)
  {
    var before := a.log.handled + a.queue;
    assert before + (first + second) == before + first + second;
  }

  lemma {:induction false} BatchQueued(w: Loop, batch: seq<Event>)
    ensures Queued(w, HandleEvents(w, batch), BatchArrivals(batch))
    decreases |batch|
  {
    if batch == [] {
    } else if !w.panicked {
      var w1 := HandleEvent(w, batch[0]);
      if !w1.panicked {
        QueueIsFifo(w, batch[0]);
      }
      BatchQueued(w1, batch[1..]);
      QueuedTrans(w, w1, HandleEvents(w1, batch[1..]), batch[0].env.arrivals, BatchArrivals(batch[1..]));
    }
  }

  lemma TurnQueued(w: Loop, p: PollResult)
    ensures Queued(w, Turn(w, p), if p.Ready? then BatchArrivals(p.batch) else [])
  {
    if p.Ready? {
      BatchQueued(Polled(w, p.batch), p.batch);
    }
  }

  lemma {:induction false} RunQueued(w: Loop, polls: seq<PollResult>)
    ensures Queued(w, Run(w, polls), RunArrivals(w, polls))
    decreases |polls|
  {
    if polls != [] && Running(w) {
      var p, w1 := polls[0], Turn(w, polls[0]);
      TurnQueued(w, p);
      RunQueued(w1, polls[1..]);
      QueuedTrans(w, w1, Run(w1, polls[1..]), if p.Ready? then BatchArrivals(p.batch) else [],
          RunArrivals(w1, polls[1..]));
    }
  }

  /** In every run: the commands handled so far, followed by those on the queue, are all those that
      ever arrived, in order. */
  lemma RunIsFifo(s: Settings, listening: bool, polls: seq<PollResult>)
    requires !Run(Initial(s, listening), polls).panicked
    ensures var w := Run(Initial(s, listening), polls);
      w.log.handled + w.queue == RunArrivals(Initial(s, listening), polls)
  {
    RunQueued(Initial(s, listening), polls);
  }

  lemma TakeFirst<T>(done: seq<T>, queue: seq<T>)
    requires queue != []
    ensures (done + [queue[0]]) + queue[1..] == done + queue
  {
  }

  // ---------- shutdown ----------

  function QueueEvents(batch: seq<Event>): nat {
    if batch == [] then 0 else (if batch[0].token == QUEUE then 1 else 0) + QueueEvents(batch[1..])
  }

  /** While the loop is active the factory was not shut down; after that it was, once, unless an
      interrupt stopped the loop. */
  predicate ClockOk(w: Loop) {
    && w.log.shutdowns == (if w.active || w.log.interrupted then 0 else 1)
    && (w.active ==> !w.log.interrupted)
  }

  lemma EventClock(w: Loop, e: Event)
    requires !w.panicked
    ensures var w' := HandleEvent(w, e);
      w'.panicked || if StopsAt(w, e) then SameClock(Stopped(w), w') else SameClock(w, w')
  {
    EventStopsExactly(w, e);
  }

  lemma {:induction false} BatchClock(w: Loop, batch: seq<Event>)
    requires QueueEvents(batch) <= 1
    requires w.panicked || (ClockOk(w) && (w.active || QueueEvents(batch) == 0))
    ensures var w' := HandleEvents(w, batch); w'.panicked || ClockOk(w')
    decreases |batch|
  {
    if batch != [] && !w.panicked {
      EventClock(w, batch[0]);
      BatchClock(HandleEvent(w, batch[0]), batch[1..]);
    }
  }

  predicate OneQueueEventEach(polls: seq<PollResult>) {
    forall p | p in polls && p.Ready? :: QueueEvents(p.batch) <= 1
  }

  lemma TurnClock(w: Loop, p: PollResult)
    requires Running(w) && ClockOk(w) && (p.Ready? ==> QueueEvents(p.batch) <= 1)
    ensures var w' := Turn(w, p); w'.panicked || ClockOk(w')
  {
    if p.Ready? {
      BatchClock(Polled(w, p.batch), p.batch);
    }
  }

  lemma {:induction false} RunClock(w: Loop, polls: seq<PollResult>)
    requires (w.panicked || ClockOk(w)) && OneQueueEventEach(polls)
    ensures var w' := Run(w, polls); w'.panicked || ClockOk(w')
    decreases |polls|
  {
    if polls != [] && Running(w) {
      assert polls[0] in polls;
      TurnClock(w, polls[0]);
      RunClock(Turn(w, polls[0]), polls[1..]);
    }
  }

  lemma {:induction false} BatchNeverFails(w: Loop, batch: seq<Event>)
    ensures var w' := HandleEvents(w, batch); w'.panicked || w'.log.failed == w.log.failed
    decreases |batch|
  {
    if batch != [] && !w.panicked {
      EventClock(w, batch[0]);
      BatchNeverFails(HandleEvent(w, batch[0]), batch[1..]);
    }
  }

  /** The loop has failed after a turn exactly when its poll did. */
  lemma TurnFails(w: Loop, p: PollResult)
    requires Running(w)
    ensures var w' := Turn(w, p); w'.panicked || w'.log.failed == p.PollFails?
  {
    if p.Ready? {
      BatchNeverFails(Polled(w, p.batch), p.batch);
    }
  }

  /** The factory is shut down at most once in a run, and exactly once when the loop has ended
      other than by an interrupt or a poll error; and an ended loop polls no more. */
  lemma ShutdownOnce(s: Settings, listening: bool, polls: seq<PollResult>, more: seq<PollResult>)
    requires OneQueueEventEach(polls)
    requires !Run(Initial(s, listening), polls).panicked
    ensures var w := Run(Initial(s, listening), polls);
      && w.log.shutdowns <= 1
      && (w.log.shutdowns == 1 <==> !w.active && !w.log.interrupted)
      && (!w.active ==> Run(w, more) == w)
  {
    RunClock(Initial(s, listening), polls);
  }

  /** A shutdown command from the server, taken straight off an empty queue, when no connection is in the way. */
  lemma ShutdownCommandStops(w: Loop, e: Event)
    requires !w.panicked && w.conns == map[] && w.queue == [] && !w.settings.panicOnShutdown
    requires e.token == QUEUE && e.env.arrivals == [Command(ALL, Shutdown, 0)]
    ensures var w' := HandleEvent(w, e);
      && !w'.panicked && w'.conns == map[] && w'.queue == [] && w'.settings == w.settings
      && !w'.active && w'.log.shutdowns == w.log.shutdowns + 1
  {
  }

  /** That a batch reports the queue at most once, as a oneshot registration does, is needed: two
      queue events in one batch would shut the factory down twice. */
  lemma TwoQueueEventsShutDownTwice(w: Loop, e: Event)
    requires !w.panicked && w.conns == map[] && w.queue == [] && !w.settings.panicOnShutdown
    requires e.token == QUEUE && e.env.arrivals == [Command(ALL, Shutdown, 0)]
    ensures HandleEvents(w, [e, e]).log.shutdowns == w.log.shutdowns + 2
  {
    var w1 := HandleEvent(w, e);
    ShutdownCommandStops(w, e);
    ShutdownCommandStops(w1, e);
    assert [e, e][1..] == [e] && [e][1..] == [];
    assert HandleEvents(w, [e, e]) == HandleEvents(w1, [e]) == HandleEvents(HandleEvent(w1, e), []);
  }

  /** How many of the commands stop the loop. */
  function StopCommands(cmds: seq<Command>): nat {
    if cmds == [] then 0
    else StopCommands(cmds[..|cmds| - 1]) + if StopsLoop(cmds[|cmds| - 1]) then 1 else 0
  }

  /** The shutdowns that no command handled accounts for. */
  function OtherShutdowns(w: Loop): int {
    w.log.shutdowns - StopCommands(w.log.handled)
  }

  lemma TakenStops(handled: seq<Command>, cmd: Command)
    ensures StopCommands(handled + [cmd]) == StopCommands(handled) + if StopsLoop(cmd) then 1 else 0
  {
    assert (handled + [cmd])[..|handled|] == handled;
  }

  lemma EventShutdowns(w: Loop, e: Event)
    requires !w.panicked
    ensures var w' := HandleEvent(w, e); w'.panicked || OtherShutdowns(w') == OtherShutdowns(w)
  {
    EventStopsExactly(w, e);
    if Taken(w, e) != [] {
      TakenStops(w.log.handled, Taken(w, e)[0]);
    }
  }

  lemma {:induction false} BatchShutdowns(w: Loop, batch: seq<Event>)
    ensures var w' := HandleEvents(w, batch); w'.panicked || OtherShutdowns(w') == OtherShutdowns(w)
    decreases |batch|
  {
    if batch != [] && !w.panicked {
      EventShutdowns(w, batch[0]);
      BatchShutdowns(HandleEvent(w, batch[0]), batch[1..]);
    }
  }

  /** A turn in which the count of connections stops the loop. */
  predicate CountStops(w: Loop, p: PollResult) {
    !p.PollFails? &&
    var w1 := if p.Ready? then HandleEvents(Polled(w, p.batch), p.batch) else Interrupt(w);
    !w1.panicked && w1.active && !w1.listening && w1.conns == map[]
  }

  /** Whether a run ended so. */
  predicate RunsOut(w: Loop, polls: seq<PollResult>)
    decreases |polls|
  {
    polls != [] && Running(w) && (CountStops(w, polls[0]) || RunsOut(Turn(w, polls[0]), polls[1..]))
  }

  lemma TurnShutdowns(w: Loop, p: PollResult)
    ensures var w' := Turn(w, p);
      w'.panicked || (OtherShutdowns(w') == OtherShutdowns(w) + (if CountStops(w, p) then 1 else 0)
                      && (CountStops(w, p) ==> !w'.active))
  {
    if p.Ready? {
      BatchShutdowns(Polled(w, p.batch), p.batch);
    }
  }

  lemma {:induction false} RunShutdowns(w: Loop, polls: seq<PollResult>)
    ensures var w' := Run(w, polls);
      w'.panicked || OtherShutdowns(w') == OtherShutdowns(w) + if RunsOut(w, polls) then 1 else 0
    decreases |polls|
  {
    if polls != [] && Running(w) {
      TurnShutdowns(w, polls[0]);
      RunShutdowns(Turn(w, polls[0]), polls[1..]);
    }
  }

  /** In every run, whatever poll reports, the factory was shut down once for each shutdown command
      handled, from whichever sender, and once more if the loop ran out of connections. */
  lemma ShutdownsExactly(s: Settings, listening: bool, polls: seq<PollResult>)
    requires !Run(Initial(s, listening), polls).panicked
    ensures var w := Run(Initial(s, listening), polls);
      w.log.shutdowns == StopCommands(w.log.handled) + if RunsOut(Initial(s, listening), polls) then 1 else 0
  {
    RunShutdowns(Initial(s, listening), polls);
  }

  // ---------- handlers ----------

  predicate NodelayHolds(s: Settings, polls: seq<PollResult>) {
    forall p, e | p in polls && p.Ready? && e in p.batch :: !MayDrop(s, e.env)
  }

  lemma EventDrops(w: Loop, e: Event)
    requires !w.panicked && !MayDrop(w.settings, e.env)
    ensures var w' := HandleEvent(w, e); w'.panicked || (w'.log.dropped == w.log.dropped && w'.settings == w.settings)
  {
    EventStopsExactly(w, e);
  }

  lemma {:induction false} BatchDrops(w: Loop, batch: seq<Event>)
    requires forall e | e in batch :: !MayDrop(w.settings, e.env)
    ensures var w' := HandleEvents(w, batch);
      w'.panicked || (w'.log.dropped == w.log.dropped && w'.settings == w.settings)
    decreases |batch|
  {
    if batch != [] && !w.panicked {
      EventDrops(w, batch[0]);
      if !HandleEvent(w, batch[0]).panicked {
        BatchDrops(HandleEvent(w, batch[0]), batch[1..]);
      }
    }
  }

  lemma {:induction false} RunDrops(w: Loop, polls: seq<PollResult>)
    requires NodelayHolds(w.settings, polls)
    ensures var w' := Run(w, polls); w'.panicked || w'.log.dropped == w.log.dropped
    decreases |polls|
  {
    if polls != [] && Running(w) {
      var p, w1 := polls[0], Turn(w, polls[0]);
      assert p in polls;
      if p.Ready? {
        BatchDrops(Polled(w, p.batch), p.batch);
      }
      if !w1.panicked {
        RunDrops(w1, polls[1..]);
      }
    }
  }

  /** Handler conservation: in every run the handlers the factory made are exactly those in the
      slab, those it got back, and those a failing set_nodelay dropped, each in one place and once;
      without such a failure none is dropped. The slab never exceeds its capacity. */
  lemma HandlersConserved(s: Settings, listening: bool, polls: seq<PollResult>, h: nat)
    requires TokensFit(s)
    ensures var w := Run(Initial(s, listening), polls);
      && |w.conns| <= s.maxConnections
      && One(h in LiveHandlers(w)) + multiset(w.log.lost)[h] + multiset(w.log.dropped)[h] == One(h < w.log.created)
      && (NodelayHolds(s, polls) && !w.panicked ==> w.log.dropped == [])
  {
    InitialInv(s, listening);
    RunSafe(Initial(s, listening), polls, 0, 0);
    if NodelayHolds(s, polls) {
      RunDrops(Initial(s, listening), polls);
    }
  }

  /** An event that would add a connection: a socket accepted, or a connect taken off the queue. */
  predicate WouldAdd(w: Loop, e: Event) {
    || (e.token == ALL && e.kind.readable && e.env.accepts && !MayDrop(w.settings, e.env))
    || (Taken(w, e) != [] && Taken(w, e)[0].signal.Connect? && Taken(w, e)[0].token != SYSTEM)
  }

  predicate NothingMade(w: Loop, w': Loop) {
    && w'.log.created == w.log.created && w'.log.senders == w.log.senders && w'.nextId == w.nextId
    && w'.log.lost == w.log.lost && w'.log.dropped == w.log.dropped && w'.conns.Keys == w.conns.Keys
  }

  predicate OneMade(w: Loop, w': Loop) {
    w'.log.created == w.log.created + 1 && w'.nextId == WrappingNext(w.nextId)
  }

  predicate MadeUnless(full: bool, w: Loop, w': Loop) {
    w'.panicked || if full then NothingMade(w, w') else OneMade(w, w')
  }

  lemma ListenerMakes(w: Loop, kind: Interest, env: Env)
    requires kind.readable && env.accepts && !MayDrop(w.settings, env)
    ensures MadeUnless(SlabFull(w), w, HandleListener(w, kind, env))
  {
  }

  lemma DialledMakes(w: Loop, url: string, env: Env, pick: Option<nat>)
    requires env.resolved.Some? && (pick.Some? ==> pick.value < |env.resolved.value|)
    ensures OneMade(w, Dialled(w, url, env, pick).0)
  {
  }

  lemma ConnectToMakes(w: Loop, url: string, env: Env)
    ensures MadeUnless(SlabFull(w), w, ConnectTo(w, url, env).0)
  {
    if !SlabFull(w) && env.resolved.Some? {
      DialledMakes(w, url, env, PickAddress(env, |env.resolved.value|));
    }
  }

  lemma ConnectForMakes(w: Loop, t: nat, url: string, env: Env)
    ensures MadeUnless(SlabFull(w), w, ConnectFor(w, t, url, env))
  {
    ConnectToMakes(w, url, env);
  }

  lemma CommandMakes(w: Loop, cmd: Command, env: Env)
    requires cmd.signal.Connect? && cmd.token != SYSTEM
    ensures MadeUnless(SlabFull(w), w, HandleQueue(w, cmd, env))
  {
    ConnectToMakes(w, cmd.signal.url, env);
    ConnectForMakes(w, cmd.token, cmd.signal.url, env);
  }

  /** An event that would add a connection has the factory make one handler, and uses up one id,
      unless the slab is full: then no handler is made, given back or dropped, no id is used, and
      no connection comes or goes. */
  lemma FullSlabRefuses(w: Loop, e: Event)
    requires !w.panicked && WouldAdd(w, e)
    ensures MadeUnless(SlabFull(w), w, HandleEvent(w, e))
  {
    var w1 := Arrived(w, e.env);
    if e.token == ALL {
      ListenerMakes(w1, e.kind, e.env);
    } else {
      CommandMakes(Dequeued(w1), w1.queue[0], e.env);
    }
  }

  // ---------- address fallback ----------

  ghost predicate NoneDials(env: Env, from: nat, bound: nat) {
    forall i | from <= i < bound :: !Dials(env, i)
  }

  /** A connect tries the resolved addresses from last to first: it succeeds with the last one that
      answers, and keeps exactly those before it untried. */
  lemma AddressFallback(w: Loop, url: string, env: Env, i: nat)
    requires Inv(w) && |w.conns| < w.settings.maxConnections && env.resolved.Some? && !MayDrop(w.settings, env)
    requires !env.registerFails
    requires i < |env.resolved.value| && Dials(env, i) && NoneDials(env, i + 1, |env.resolved.value|)
    ensures var (w', r) := ConnectTo(w, url, env);
      var t := Vacant(w, env.slot);
      var c := Fresh(w.settings, t, w.log.created, w.nextId, Client(url), Interest(true, false),
                     env.resolved.value[..i], []);
      && r.Pass?
      && t !in w.conns && w'.conns == w.conns[t := c] && w'.armed == w.armed[t := c.events]
  {
    var addresses := env.resolved.value;
    assert PickAddress(env, |addresses|) == Some(i);
    VacantIsFree(w, env.slot);
    NewConnectionsOpen(w.settings, Vacant(w, env.slot), w.log.created, w.nextId, true, url, addresses[..i]);
  }

  /** A socket accepted gets a connection at a vacant key, open and armed for reading; if it cannot be
      registered, it is told, stays unarmed, and is to write only. */
  lemma AcceptAdds(w: Loop, env: Env)
    requires Inv(w) && !w.panicked && !SlabFull(w) && !MayDrop(w.settings, env) && !Accept(w, env).0.panicked
    ensures var (w', r), t, s := Accept(w, env), Vacant(w, env.slot), w.settings;
      var c := if env.registerFails
               then Fresh(s, t, w.log.created, w.nextId, Server, Interest(false, true), [], [OnError(Io(None))])
               else Fresh(s, t, w.log.created, w.nextId, Server, Interest(true, false), [], []);
      && r.Pass?
      && t !in w.conns && w'.conns == w.conns[t := c]
      && w'.armed == if env.registerFails then w.armed else w.armed[t := c.events]
  {
    VacantIsFree(w, env.slot);
    NewConnectionsOpen(w.settings, Vacant(w, env.slot), w.log.created, w.nextId, !env.registerFails, "", []);
  }

  /** A socket that is not accepted changes nothing: its nodelay cannot be set, or the slab is full. */
  lemma NotAccepted(w: Loop, env: Env)
    requires SlabFull(w) || MayDrop(w.settings, env)
    ensures var (w', r) := Accept(w, env);
      w' == w && r == Fail(if MayDrop(w.settings, env) then Io(None) else Capacity)
  {
  }

  lemma RegistrationFails(w: Loop, url: string, env: Env, i: nat)
    requires env.resolved.Some? && i < |env.resolved.value| && env.registerFails && !MayDrop(w.settings, env)
    requires Vacant(w, env.slot) !in w.conns
    ensures var (w', r) := Dialled(w, url, env, Some(i));
      r.Fail? && w'.conns == w.conns && w'.log.lost == w.log.lost + [w.log.created]
  {
    var c := NewClient(w, url, env, env.resolved.value[..i]).0;
    assert w.conns[c.token := c] - {c.token} == w.conns;
  }

  /** If no address answers, or the registration fails, the factory gets the handler back and the
      slab is as it was. */
  lemma AddressesExhausted(w: Loop, url: string, env: Env)
    requires Inv(w) && |w.conns| < w.settings.maxConnections && env.resolved.Some? && !MayDrop(w.settings, env)
    requires env.registerFails || NoneDials(env, 0, |env.resolved.value|)
    ensures var (w', r) := ConnectTo(w, url, env);
      r.Fail? && w'.conns == w.conns && w'.log.lost == w.log.lost + [w.log.created]
  {
    VacantIsFree(w, env.slot);
    var i := PickAddress(env, |env.resolved.value|);
    if i.Some? {
      assert Dials(env, i.value);
      RegistrationFails(w, url, env, i.value);
    }
  }

  // ---------- states and buffers ----------

  /** At every moment of every run, while a batch is handled too, each connection is open or awaiting
      close: it can be closed without tripping the assertion, and it cannot be reset. */
  lemma ReachableStates(s: Settings, listening: bool, polls: seq<PollResult>, reported: seq<Event>, k: nat, t: nat,
      dials: bool)
    requires TokensFit(s) && k <= |reported| && t in Moment(s, listening, polls, reported, k).conns
    ensures var c := Moment(s, listening, polls, reported, k).conns[t];
      && (c.state.Open? || c.state.AwaitingClose?)
      && !SendClose(c).panicked && SendClose(c).state.AwaitingClose?
      && Reset(s, c, dials) == (c, Fail(Internal))
  {
    MomentInv(s, listening, polls, reported, k);
    assert SlotOk(Moment(s, listening, polls, reported, k), t);
  }

  /** In every run, for every connection ever created: what it received is the chunks taken and
      then what is unread, its handler got exactly the chunks that are text, in order; the output
      vector's capacity is never below its configured one, and within that plus twice the most bytes
      ever unsent; and an input vector that may not grow keeps its configured capacity and room in it until a Capacity
      error is reported. */
  lemma BuffersInRuns(s: Settings, listening: bool, polls: seq<PollResult>, t: nat, h: nat, c: Conn)
    requires TokensFit(s) && LastValue(Run(Initial(s, listening), polls), t, h, c)
    ensures c.trace.received == Flatten(c.trace.taken) + c.input.Unread()
    ensures Delivered(c.trace.calls) == TextChunks(c.trace.taken)
    ensures s.outBufferCapacity <= c.output.cap <= s.outBufferCapacity + 2 * c.trace.peak
    ensures s.inBufferCapacity <= c.input.cap
    ensures InputBounded(s, c)
  {
    var w := Run(Initial(s, listening), polls);
    InitialInv(s, listening);
    RunSafe(Initial(s, listening), polls, 0, 0);
    LastValueSound(w, t, h, c);
  }
}
