// The event loop as a value: the slab of connections, the command queue, the armed poll
// interests, and what each step of the loop does to them, given what the environment answers.
// The class in EventLoop.dfy is proved to do exactly this.
module LoopSpec {
  import opened Types
  import opened Slabs
  import opened ConnectionSpec

  /** What a handler is given to put commands on the queue with: the token and the id that its
      commands are stamped with. */
  datatype Sender = Sender(token: nat, id: nat)

  /** What has happened in a run: how many handlers the factory made, and the sender each was given
      when it was made, whatever became of it then; which of them it got back,
      which were dropped without being given back, the final value of every connection removed
      from the slab by handler, how often the factory was shut down, how the loop was made to
      stop from outside, and the commands handled. */
  datatype Log = Log(
    created: nat,
    senders: seq<Sender>,
    lost: seq<nat>,
    dropped: seq<nat>,
    retired: map<nat, Conn>,
    shutdowns: nat,
    interrupted: bool,
    failed: bool,
    handled: seq<Command>)

  /** armed holds, for each token whose registration is armed, the interest it is armed with.
      panicked marks a step that panicked: nothing happens after it, and the rest of the value is
      that of some moment before the panic. */
  datatype Loop = Loop(
    settings: Settings,
    listening: bool,
    conns: map<nat, Conn>,
    active: bool,
    nextId: nat,
    queue: seq<Command>,
    armed: map<nat, Interest>,
    log: Log,
    panicked: bool)
  {
    function Panic(): Loop {
      this.(panicked := true)
    }

    function Put(t: nat, c: Conn): Loop {
      this.(conns := conns[t := c])
    }

    function Arm(t: nat, interest: Interest): Loop {
      this.(armed := armed[t := interest])
    }

    /** Takes a connection out of the slab and gives its handler back to the factory. */
    function Remove(t: nat): Loop
      requires t in conns
    {
      var c := conns[t];
      this.(conns := conns - {t}, armed := armed - {t},
            log := log.(lost := log.lost + [c.handler], retired := log.retired[c.handler := c]))
    }
  }

  /** A timer that fires: the token and event it was set for, the handler's answer, and whether
      rearming the connection fails. */
  datatype TimerFire = TimerFire(token: nat, event: nat, reply: Option<Kind>, rearmFails: bool)

  /** What the environment answers while one event is handled. */
  datatype Env = Env(
    arrivals: seq<Command>,       // commands put on the channel since the last event
    supply: seq<ReadResult>,      // the socket's answers to successive reads
    write: WriteResult,           // and to a write
    onMessage: Option<Kind>,      // the error on_message returns, if any
    redials: bool,                // whether a reset finds its next address
    rearmFails: set<nat>,         // tokens whose reregistration fails
    timers: seq<TimerFire>,       // the timers that fire
    accepts: bool,                // whether the listener yields a socket
    slot: nat,                    // the vacant slab key preferred
    nodelayFails: bool,
    registerFails: bool,
    resolved: Option<seq<nat>>,   // the addresses a name resolves to
    dials: seq<bool>,             // whether dialling each of them succeeds
    timerFails: bool,             // whether setting a timer fails
    onNewTimeout: map<nat, Kind>) // the errors on_new_timeout returns, by token

  datatype Event = Event(token: nat, kind: Interest, env: Env)

  datatype PollResult = Ready(batch: seq<Event>) | Interrupted | PollFails

  /** Any vacant slab key: the preferred one if it is vacant. */
  function Vacant(w: Loop, slot: nat): nat {
    VacantIn(w.conns.Keys, slot, w.settings.maxConnections)
  }

  // ---------- rearming and removing ----------

  /** Arms a connection's interest again; if that fails the connection is told, and removed. */
  function RearmOrRemove(w: Loop, t: nat, fails: bool): Loop
    requires t in w.conns
  {
    if fails then
      var c := Error(w.settings, w.conns[t], Io(None));
      if c.panicked then w.Panic() else w.Put(t, c).Remove(t)
    else w.Arm(t, w.conns[t].events)
  }

  function CheckActive(w: Loop, t: nat, fails: bool): Loop
    requires t in w.conns
  {
    if !w.conns[t].events.Any() then w.Remove(t) else RearmOrRemove(w, t, fails)
  }

  /** Arms a connection's interest again; if that fails the connection is told, and stays. */
  function Schedule(w: Loop, t: nat, fails: bool): Loop
    requires t in w.conns
  {
    if fails then
      var c := Error(w.settings, w.conns[t], Io(None));
      if c.panicked then w.Panic() else w.Put(t, c)
    else w.Arm(t, w.conns[t].events)
  }

  // ---------- new connections ----------

  /** Adding one to a 32-bit id, wrapping around. */
  function WrappingNext(id: nat): nat {
    if id + 1 >= ID_SPACE then 0 else id + 1
  }

  /** Has the factory make the next handler, with a sender for slab key t and the next id. */
  function NextId(w: Loop, t: nat): Loop {
    w.(nextId := WrappingNext(w.nextId),
       log := w.log.(created := w.log.created + 1, senders := w.log.senders + [Sender(t, w.nextId)]))
  }

  predicate SlabFull(w: Loop) {
    |w.conns| >= w.settings.maxConnections
  }

  /** Whether setting nodelay on a new socket fails, which drops a handler just made for it. */
  predicate MayDrop(s: Settings, env: Env) {
    s.tcpNodelay && env.nodelayFails
  }

  function NewServer(w: Loop, env: Env): Conn {
    ServerConn(w.settings, Vacant(w, env.slot), w.log.created, w.nextId, !env.registerFails)
  }

  function Admitted(w: Loop, env: Env): Loop {
    var c := NewServer(w, env);
    var w1 := NextId(w, c.token).Put(c.token, c);
    if !env.registerFails then w1.Arm(c.token, c.events)
    else if w.settings.panicOnNewConnection then w.Panic()
    else w1
  }

  function Accept(w: Loop, env: Env): (Loop, Outcome) {
    if MayDrop(w.settings, env) then (w, Fail(Io(None)))
    else if SlabFull(w) then (w, Fail(Capacity))
    else (Admitted(w, env), Pass)
  }

  predicate Dials(env: Env, i: nat) {
    i < |env.dials| && env.dials[i]
  }

  /** The address a client reaches first, trying them from last to first; n of them are left. */
  function PickAddress(env: Env, n: nat): (r: Option<nat>)
    ensures r.Some? ==> r.value < n && Dials(env, r.value) && forall j | r.value < j < n :: !Dials(env, j)
    ensures r.None? ==> forall j | 0 <= j < n :: !Dials(env, j)
  {
    if n == 0 then None else if Dials(env, n - 1) then Some(n - 1) else PickAddress(env, n - 1)
  }

  function GiveBack(w: Loop, handler: nat): Loop {
    w.(log := w.log.(lost := w.log.lost + [handler]))
  }

  function Drop(w: Loop, handler: nat): Loop {
    w.(log := w.log.(dropped := w.log.dropped + [handler]))
  }

  /** The connection a successful dial makes, with the addresses it has not tried. */
  function NewClient(w: Loop, url: string, env: Env, untried: seq<nat>): (Conn, Outcome) {
    ClientConn(w.settings, Vacant(w, env.slot), w.log.created, w.nextId, url, untried)
  }

  /** Registers a client just put into the slab, or takes it out again. */
  function Admit(w: Loop, t: nat, made: Outcome, env: Env): (Loop, Outcome)
    requires t in w.conns
  {
    if made.Fail? then (w.Remove(t), made)
    else if env.registerFails then (w.Remove(t), Fail(Io(None)))
    else (w.Arm(t, w.conns[t].events), Pass)
  }

  /** What follows the dialling, of which pick is the address that answered. */
  function Dialled(w: Loop, url: string, env: Env, pick: Option<nat>): (Loop, Outcome)
    requires env.resolved.Some? && (pick.Some? ==> pick.value < |env.resolved.value|)
  {
    if pick.None? then (GiveBack(NextId(w, Vacant(w, env.slot)), w.log.created), Fail(Internal))
    else if MayDrop(w.settings, env) then (Drop(NextId(w, Vacant(w, env.slot)), w.log.created), Fail(Io(None)))
    else
      var (c, r) := NewClient(w, url, env, env.resolved.value[..pick.value]);
      Admit(NextId(w, c.token).Put(c.token, c), c.token, r, env)
  }

  function ConnectTo(w: Loop, url: string, env: Env): (Loop, Outcome) {
    if SlabFull(w) then (w, Fail(Capacity))
    else if env.resolved.None? then (w.Panic(), Pass)
    else Dialled(w, url, env, PickAddress(env, |env.resolved.value|))
  }

  // ---------- an event on a connection ----------

  function OnReady(s: Settings, c: Conn, kind: Interest, env: Env): (Conn, bool) {
    OnReadiness(s, c, kind, env.supply, env.onMessage, env.write, env.redials)
  }

  function HandleConn(w: Loop, t: nat, kind: Interest, env: Env): Loop
    requires t in w.conns
  {
    var (c, reset) := OnReady(w.settings, w.conns[t], kind, env);
    if c.panicked then w.Panic()
    else if reset then RearmOrRemove(w.Put(t, c), t, t in env.rearmFails)
    else CheckActive(w.Put(t, c), t, t in env.rearmFails)
  }

  // ---------- timers ----------

  function OnFire(s: Settings, c: Conn, event: nat, reply: Option<Kind>): Conn {
    var (c1, r) := TimeoutTriggered(c, event, reply);
    if r.Fail? then Error(s, c1, r.error) else c1
  }

  function HandleTimeout(w: Loop, fire: TimerFire): Loop {
    if fire.token in w.conns then
      var c := OnFire(w.settings, w.conns[fire.token], fire.event, fire.reply);
      if c.panicked then w.Panic() else CheckActive(w.Put(fire.token, c), fire.token, fire.rearmFails)
    else w
  }

  function HandleTimers(w: Loop, fires: seq<TimerFire>): Loop
    decreases |fires|
  {
    if fires == [] || w.panicked then w else HandleTimers(HandleTimeout(w, fires[0]), fires[1..])
  }

  // ---------- commands ----------

  /** What a broadcast leaves of one connection: delivery, its failure reported, and then the
      failure to rearm reported. */
  function Broadcast1(s: Settings, c: Conn, signal: Signal, rearmFails: bool): Conn {
    var c1 := Reported(s, Deliver1(s, c, signal));
    if rearmFails && !c1.panicked then Error(s, c1, Io(None)) else c1
  }

  function BroadcastConns(w: Loop, signal: Signal, rearmFails: set<nat>): map<nat, Conn> {
    map t | t in w.conns :: Broadcast1(w.settings, w.conns[t], signal, t in rearmFails)
  }

  /** Every connection is armed with the interest it has right after delivery, before any failure
      is reported. */
  function BroadcastArmed(w: Loop, signal: Signal, rearmFails: set<nat>): map<nat, Interest> {
    w.armed + map t | t in w.conns && t !in rearmFails :: Deliver1(w.settings, w.conns[t], signal).0.events
  }

  function Broadcast(w: Loop, signal: Signal, rearmFails: set<nat>): Loop {
    var conns := BroadcastConns(w, signal, rearmFails);
    if exists t | t in conns :: conns[t].panicked then w.Panic()
    else w.(conns := conns, armed := BroadcastArmed(w, signal, rearmFails))
  }

  /** Shuts the factory down and makes the loop stop. */
  function Stopped(w: Loop): Loop {
    w.(active := false, log := w.log.(shutdowns := w.log.shutdowns + 1))
  }

  function ShutdownConns(w: Loop): map<nat, Conn> {
    map t | t in w.conns :: ShutdownConn(w.conns[t])
  }

  /** Tells every connection, then stops. */
  function ShutdownAll(w: Loop): Loop {
    var conns := ShutdownConns(w);
    if (exists t | t in conns :: conns[t].panicked) || w.settings.panicOnShutdown then w.Panic()
    else Stopped(w.(conns := conns))
  }

  function SetTimeout1(s: Settings, c: Conn, event: nat, reply: Option<Kind>): Conn {
    Reported(s, NewTimeout(c, event, reply))
  }

  function ReplyOf(env: Env, t: nat): Option<Kind> {
    if t in env.onNewTimeout then Some(env.onNewTimeout[t]) else None
  }

  function TimeoutConns(w: Loop, event: nat, env: Env): map<nat, Conn> {
    map t | t in w.conns :: SetTimeout1(w.settings, w.conns[t], event, ReplyOf(env, t))
  }

  function SetTimeoutAll(w: Loop, event: nat, env: Env): Loop {
    if env.timerFails then if w.settings.panicOnTimeout then w.Panic() else w
    else
      var conns := TimeoutConns(w, event, env);
      if exists t | t in conns :: conns[t].panicked then w.Panic() else w.(conns := conns)
  }

  function SetTimeoutOne(w: Loop, t: nat, event: nat, env: Env): Loop {
    var s := w.settings;
    if t !in w.conns then w
    else
      var c := if env.timerFails then Error(s, w.conns[t], Timer)
               else SetTimeout1(s, w.conns[t], event, ReplyOf(env, t));
      if c.panicked then w.Panic() else w.Put(t, c)
  }

  /** A connect command from a connection's own sender: a failure is reported to that connection. */
  function ConnectFor(w: Loop, t: nat, url: string, env: Env): Loop {
    var (w1, r) := ConnectTo(w, url, env);
    if w1.panicked || r.Pass? then w1
    else if t in w1.conns then
      var c := Error(w1.settings, w1.conns[t], r.error);
      if c.panicked then w1.Panic() else w1.Put(t, c)
    else if w1.settings.panicOnNewConnection then w1.Panic() else w1
  }

  /** A connect command from the server itself. */
  function ConnectForAll(w: Loop, url: string, env: Env): Loop {
    var (w1, r) := ConnectTo(w, url, env);
    if !w1.panicked && r.Fail? && w.settings.panicOnNewConnection then w1.Panic() else w1
  }

  function ShutdownFor(w: Loop, t: nat, fails: bool): Loop {
    var w1 := ShutdownAll(w);
    if w1.panicked || t !in w1.conns then w1 else Schedule(w1, t, fails)
  }

  function ShutdownForAll(w: Loop, env: Env): Loop {
    if w.settings.panicOnShutdown then w.Panic()
    else
      var w1 := Broadcast(w, Shutdown, env.rearmFails);
      if w1.panicked then w1 else Stopped(w1)
  }

  function HandleAll(w: Loop, signal: Signal, env: Env): Loop {
    match signal
    case Message(_) => Broadcast(w, signal, env.rearmFails)
    case Close => Broadcast(w, signal, env.rearmFails)
    case Shutdown => ShutdownForAll(w, env)
    case Connect(url) => ConnectForAll(w, url, env)
    case Timeout(event) => SetTimeoutAll(w, event, env)
    case Cancel => w
  }

  /** Whether a command addressed to a single token reaches the connection there. */
  predicate Reaches(w: Loop, cmd: Command) {
    cmd.token in w.conns && w.conns[cmd.token].id == cmd.id
  }

  /** What an addressed message or close leaves of the connection at its token, before rearming:
      it is delivered only if the id matches. */
  function Addressed(w: Loop, cmd: Command): Conn
    requires cmd.token in w.conns
  {
    var s, c := w.settings, w.conns[cmd.token];
    if Reaches(w, cmd) then Reported(s, Deliver1(s, c, cmd.signal)) else c
  }

  /** Whatever connection is at the token is then rearmed. */
  function Address(w: Loop, cmd: Command, env: Env): Loop {
    var t := cmd.token;
    if t !in w.conns then w
    else
      var c := Addressed(w, cmd);
      if c.panicked then w.Panic() else Schedule(w.Put(t, c), t, t in env.rearmFails)
  }

  function HandleOne(w: Loop, cmd: Command, env: Env): Loop {
    match cmd.signal
    case Message(_) => Address(w, cmd, env)
    case Close => Address(w, cmd, env)
    case Shutdown => ShutdownFor(w, cmd.token, cmd.token in env.rearmFails)
    case Connect(url) => ConnectFor(w, cmd.token, url, env)
    case Timeout(event) => SetTimeoutOne(w, cmd.token, event, env)
    case Cancel => w
  }

  function HandleQueue(w: Loop, cmd: Command, env: Env): Loop {
    if cmd.token == SYSTEM then w
    else if cmd.token == ALL then HandleAll(w, cmd.signal, env)
    else HandleOne(w, cmd, env)
  }

  // ---------- events, turns and runs ----------

  function Arrived(w: Loop, env: Env): Loop {
    w.(queue := w.queue + env.arrivals)
  }

  /** Takes the first command off the queue. */
  function Dequeued(w: Loop): Loop
    requires w.queue != []
  {
    w.(queue := w.queue[1..], log := w.log.(handled := w.log.handled + [w.queue[0]]))
  }

  function HandleListener(w: Loop, kind: Interest, env: Env): Loop {
    if !kind.readable then w
    else if !w.listening then w.Panic()
    else if !env.accepts then w
    else
      var (w1, r) := Accept(w, env);
      if !w1.panicked && r.Fail? && w.settings.panicOnNewConnection then w1.Panic() else w1
  }

  /** At most one command is handled for each event on the queue. */
  function HandleNext(w: Loop, env: Env): Loop {
    if w.queue == [] then w else HandleQueue(Dequeued(w), w.queue[0], env)
  }

  /** Dispatches an event by its token. */
  function HandleArrived(w: Loop, e: Event): Loop {
    if e.token == SYSTEM then w.Panic()
    else if e.token == ALL then HandleListener(w, e.kind, e.env)
    else if e.token == TIMER then HandleTimers(w, e.env.timers)
    else if e.token == QUEUE then HandleNext(w, e.env)
    else if e.token in w.conns then HandleConn(w, e.token, e.kind, e.env)
    else w.Panic()
  }

  function HandleEvent(w: Loop, e: Event): Loop {
    HandleArrived(Arrived(w, e.env), e)
  }

  function HandleEvents(w: Loop, batch: seq<Event>): Loop
    decreases |batch|
  {
    if batch == [] || w.panicked then w else HandleEvents(HandleEvent(w, batch[0]), batch[1..])
  }

  function CheckCount(w: Loop): Loop {
    if |w.conns| == 0 && w.active && !w.listening then Stopped(w) else w
  }

  function Tokens(batch: seq<Event>): set<nat> {
    set e | e in batch :: e.token
  }

  /** Poll reports a batch of events, which disarms their registrations. */
  function Polled(w: Loop, batch: seq<Event>): Loop {
    w.(armed := w.armed - Tokens(batch))
  }

  /** What ends a turn: the connections are counted. */
  function Settle(w: Loop): Loop {
    if w.panicked then w else CheckCount(w)
  }

  function Interrupt(w: Loop): Loop {
    if w.settings.shutdownOnInterrupt then w.(active := false, log := w.log.(interrupted := true)) else w
  }

  /** One turn of the loop: poll, handle every event, count connections. */
  function Turn(w: Loop, p: PollResult): Loop {
    match p
    case Ready(batch) => Settle(HandleEvents(Polled(w, batch), batch))
    case Interrupted => Settle(Interrupt(w))
    case PollFails => w.(log := w.log.(failed := true))
  }

  predicate Running(w: Loop) {
    w.active && !w.panicked && !w.log.failed
  }

  /** The loop, on the first polls of a run. */
  function Run(w: Loop, polls: seq<PollResult>): Loop
    decreases |polls|
  {
    if polls == [] || !Running(w) then w else Run(Turn(w, polls[0]), polls[1..])
  }

  function Initial(s: Settings, listening: bool): Loop {
    Loop(s, listening, map[], true, 0, [], map[], Log(0, [], [], [], map[], 0, false, false, []), false)
  }
}
