// The event loop as an object: a slab of connection objects, the command queue and the poll
// registrations, updated in place. Each method is proved to do to the loop's value what LoopSpec
// says, or to panic exactly when it does.
module EventLoop {
  import opened Types
  import opened Slabs
  import opened ConnectionSpec
  import opened Connections
  import opened LoopSpec
  import opened LoopPhases
  import opened LoopLaws

  class Handler {
    const settings: Settings
    const listening: bool
    var slab: map<nat, Connection>
    var active: bool
    var nextId: nat
    var queue: seq<Command>
    var armed: map<nat, Interest>
    var panicked: bool
    ghost var log: Log

    /** The objects the slab owns. */
    ghost var repr: set<object>

    /** Two connections share no object. */
    static ghost predicate Apart(a: Connection, b: Connection) {
      a != b && a.input != b.input && a.output != b.output && a.input != b.output && a.output != b.input
    }

    ghost predicate Owned(t: nat)
      requires t in slab
      reads `slab, `repr
    {
      slab[t] in repr && slab[t].input in repr && slab[t].output in repr
    }

    /** Connections share nothing, and none has panicked unless the loop has. */
    ghost predicate Valid()
      reads `slab, `repr, `panicked, repr
    {
      && this !in repr
      && (forall t | t in slab :: Owned(t) && slab[t].Valid() && slab[t].settings == settings)
      && (forall t | t in slab :: panicked || !slab[t].panicked)
      && (forall t, u {:trigger slab[t], slab[u]} | t in slab && u in slab && t != u :: Apart(slab[t], slab[u]))
    }

    ghost function Conns(): map<nat, Conn>
      requires Valid()
      reads `slab, `repr, `panicked, repr
    {
      map t | t in slab :: slab[t].View()
    }

    ghost function View(): Loop
      requires Valid()
      reads this, repr
    {
      Loop(settings, listening, Conns(), active, nextId, queue, armed, log, panicked)
    }

    /** The loop's value is w, or both have panicked. */
    ghost predicate Is(w: Loop)
      reads this, repr
    {
      Valid() && panicked == w.panicked && (!panicked ==> View() == w)
    }

    constructor (s: Settings, listens: bool)
      ensures Is(Initial(s, listens)) && repr == {}
    {
      settings, listening := s, listens;
      slab, active, nextId, queue, armed, panicked := map[], true, 0, [], map[], false;
      log, repr := Log(0, [], [], [], map[], 0, false, false, []), {};
    }

    /** Only fields of the loop other than the slab have changed. */
    twostate lemma SlabUnchanged()
      requires old(Valid()) && slab == old(slab) && repr == old(repr) && panicked == old(panicked)
      requires forall o | o in repr :: unchanged(o)
      ensures Valid() && Conns() == old(Conns())
    {
      forall u | u in slab ensures Owned(u) && slab[u].Valid() && slab[u].View() == old(slab[u].View()) {
        assert old(Owned(u));
      }
    }

    /** Only the connection at t, and fields of the loop other than the slab, have changed. */
    twostate lemma OneChangedValid(t: nat)
      requires old(Valid()) && slab == old(slab) && repr == old(repr) && t in slab && slab[t].Valid()
      requires forall o | o in repr && o != slab[t] && o != slab[t].input && o != slab[t].output :: unchanged(o)
      requires panicked || (!slab[t].panicked && !old(panicked))
      ensures Valid()
    {
      forall u | u in slab && u != t ensures slab[u].Valid() && slab[u].panicked == old(slab[u].panicked) {
        assert Apart(slab[u], slab[t]) && Owned(u);
      }
    }

    twostate lemma OthersSame(t: nat)
      requires old(Valid()) && Valid() && slab == old(slab) && repr == old(repr) && t in slab
      requires forall o | o in repr && o != slab[t] && o != slab[t].input && o != slab[t].output :: unchanged(o)
      ensures forall u | u in slab && u != t :: Conns()[u] == old(Conns())[u]
    {
      forall u | u in slab && u != t ensures slab[u].View() == old(slab[u].View()) {
        assert old(Owned(u)) && Apart(slab[u], slab[t]);
      }
    }

    static lemma OneDiffers(before: map<nat, Conn>, after: map<nat, Conn>, t: nat)
      requires after.Keys == before.Keys && t in after && forall u | u in after && u != t :: after[u] == before[u]
      ensures after == before[t := after[t]]
    {
    }

    twostate lemma OneChanged(t: nat)
      requires old(Valid()) && slab == old(slab) && repr == old(repr) && t in slab && slab[t].Valid()
      requires forall o | o in repr && o != slab[t] && o != slab[t].input && o != slab[t].output :: unchanged(o)
      requires panicked || (!slab[t].panicked && !old(panicked))
      ensures Valid() && Conns() == old(Conns())[t := slab[t].View()]
    {
      OneChangedValid(t);
      OthersSame(t);
      OneDiffers(old(Conns()), Conns(), t);
    }

    /** The connection at t has changed, and the flag of the loop tells whether it panicked. */
    twostate lemma ChangedAt(t: nat)
      requires old(Valid()) && !old(panicked) && slab == old(slab) && repr == old(repr) && t in slab
      requires slab[t].Valid() && panicked == slab[t].panicked
      requires active == old(active) && nextId == old(nextId) && queue == old(queue)
      requires armed == old(armed) && log == old(log)
      requires forall o | o in repr && o != slab[t] && o != slab[t].input && o != slab[t].output :: unchanged(o)
      ensures Valid() && View() == Changed(old(View()), t, slab[t].View())
    {
      OneChanged(t);
    }

    /** Only the connection at t has left the slab. */
    twostate lemma OneRemoved(t: nat)
      requires old(Valid()) && slab == old(slab) - {t} && repr == old(repr) && panicked == old(panicked)
      requires forall o | o in repr :: unchanged(o)
      ensures Valid() && Conns() == old(Conns()) - {t}
    {
      forall u | u in slab ensures Owned(u) && slab[u].Valid() && slab[u].View() == old(slab[u].View()) {
        assert old(Owned(u));
      }
    }

    // ---------- rearming and removing ----------

    /** Reregisters a connection with its present interest. */
    method Rearm(t: nat, fails: bool) returns (r: Outcome)
      requires Valid() && t in slab
      modifies this`armed
      ensures Valid() && r == (if fails then Fail(Io(None)) else Pass)
      ensures View() == if fails then old(View()) else old(View()).Arm(t, slab[t].events)
    {
      if fails {
        r := Fail(Io(None));
      } else {
        armed := armed[t := slab[t].events];
        r := Pass;
      }
    }

    /** Reports an error to one connection. */
    method ReportTo(t: nat, kind: Kind)
      requires Valid() && !panicked && t in slab
      modifies this`panicked, repr
      ensures slab == old(slab) && repr == old(repr) && Valid()
      ensures View() == Changed(old(View()), t, Error(settings, old(View().conns[t]), kind))
    {
      slab[t].Report(kind);
      panicked := slab[t].panicked;
      ChangedAt(t);
    }

    /** Takes a connection out of the slab and gives its handler back to the factory. */
    method Remove(t: nat)
      requires Valid() && !panicked && t in slab
      modifies this`slab, this`armed, this`log
      ensures Valid() && View() == old(View()).Remove(t)
    {
      var c := slab[t];
      slab, armed := slab - {t}, armed - {t};
      log := log.(lost := log.lost + [c.handler], retired := log.retired[c.handler := c.View()]);
      OneRemoved(t);
    }

    method RearmOrRemoveIt(t: nat, fails: bool)
      requires Valid() && !panicked && t in slab
      modifies this, repr
      ensures Is(RearmOrRemove(old(View()), t, fails)) && repr == old(repr)
    {
      var r := Rearm(t, fails);
      if r.Fail? {
        ReportTo(t, r.error);
        if !panicked {
          Remove(t);
        }
      }
    }

    method CheckIt(t: nat, fails: bool)
      requires Valid() && !panicked && t in slab
      modifies this, repr
      ensures Is(CheckActive(old(View()), t, fails)) && repr == old(repr)
    {
      if !slab[t].events.Any() {
        Remove(t);
      } else {
        RearmOrRemoveIt(t, fails);
      }
    }

    method ScheduleIt(t: nat, fails: bool)
      requires Valid() && !panicked && t in slab
      modifies this, repr
      ensures Is(Schedule(old(View()), t, fails)) && repr == old(repr)
    {
      var r := Rearm(t, fails);
      if r.Fail? {
        ReportTo(t, r.error);
      }
    }

    // ---------- an event on a connection ----------

    method ReactAt(t: nat, kind: Interest, env: Env) returns (reset: bool)
      requires Valid() && !panicked && t in slab
      modifies this`panicked, repr
      ensures slab == old(slab) && repr == old(repr) && Valid()
      ensures reset == OnReady(settings, old(View().conns[t]), kind, env).1
      ensures View() == Changed(old(View()), t, OnReady(settings, old(View().conns[t]), kind, env).0)
    {
      reset := slab[t].React(kind, env.supply, env.onMessage, env.write, env.redials);
      panicked := slab[t].panicked;
      ChangedAt(t);
    }

    method HandleConnection(t: nat, kind: Interest, env: Env)
      requires Valid() && !panicked && t in slab
      modifies this, repr
      ensures Is(HandleConn(old(View()), t, kind, env)) && repr == old(repr)
    {
      var reset := ReactAt(t, kind, env);
      if panicked {
        return;
      }
      if reset {
        RearmOrRemoveIt(t, t in env.rearmFails);
      } else {
        CheckIt(t, t in env.rearmFails);
      }
    }

    // ---------- timers ----------

    method FireAt(t: nat, event: nat, reply: Option<Kind>)
      requires Valid() && !panicked && t in slab
      modifies this`panicked, repr
      ensures slab == old(slab) && repr == old(repr) && Valid()
      ensures View() == Changed(old(View()), t, OnFire(settings, old(View().conns[t]), event, reply))
    {
      var r := slab[t].Timeout(event, reply);
      if r.Fail? {
        slab[t].Report(r.error);
      }
      panicked := slab[t].panicked;
      ChangedAt(t);
    }

    method HandleFire(fire: TimerFire)
      requires Valid() && !panicked
      modifies this, repr
      ensures Is(HandleTimeout(old(View()), fire)) && repr == old(repr)
    {
      if fire.token in slab {
        FireAt(fire.token, fire.event, fire.reply);
        if !panicked {
          CheckIt(fire.token, fire.rearmFails);
        }
      }
    }

    method HandleTimerEvent(fires: seq<TimerFire>)
      requires Valid() && !panicked
      modifies this, repr
      ensures Is(HandleTimers(old(View()), fires)) && repr == old(repr)
    {
      var i := 0;
      while i < |fires| && !panicked
        invariant 0 <= i <= |fires| && Valid() && repr == old(repr)
        invariant if panicked then HandleTimers(old(View()), fires).panicked
                  else HandleTimers(View(), fires[i..]) == HandleTimers(old(View()), fires)
      {
        HandleFire(fires[i]);
        i := i + 1;
      }
    }

    // ---------- new connections ----------

    /** A connection object that shares nothing with the others is in the slab at a key that was vacant. */
    twostate predicate Added(t: nat, new c: Connection)
      reads this, c, c.input, c.output, repr
    {
      && old(Valid()) && t !in old(slab) && slab == old(slab)[t := c] && panicked == old(panicked)
      && c.Valid() && c.settings == settings && !c.panicked && this !in repr
      && repr == old(repr) + c.Repr()
      && (forall u | u in old(slab) :: Apart(c, slab[u]) && Apart(slab[u], c))
      && (forall o | o in old(repr) :: unchanged(o))
    }

    twostate lemma AddedValid(t: nat, new c: Connection)
      requires Added(t, c)
      ensures Valid()
    {
      forall u | u in slab ensures Owned(u) && slab[u].Valid() && slab[u].settings == settings {
        if u != t {
          assert old(Owned(u));
        }
      }
    }

    twostate lemma AddedConns(t: nat, new c: Connection)
      requires Added(t, c) && Valid()
      ensures Conns() == old(Conns())[t := c.View()]
    {
      var before, after := old(Conns()), Conns();
      assert after.Keys == before.Keys + {t};
      forall u | u in after ensures after[u] == before[t := c.View()][u] {
        if u != t {
          assert old(Owned(u));
        }
      }
    }

    lemma KeysAreKeys()
      requires Valid()
      ensures Conns().Keys == slab.Keys && |Conns()| == |slab|
    {
      assert Conns().Keys == slab.Keys;
      assert |Conns()| == |Conns().Keys| && |slab| == |slab.Keys|;
    }

    method UseId(tok: nat) returns (id: nat)
      requires Valid()
      modifies this`nextId, this`log
      ensures Valid() && id == old(nextId) && View() == NextId(old(View()), tok)
    {
      id := nextId;
      nextId := WrappingNext(nextId);
      log := log.(created := log.created + 1, senders := log.senders + [Sender(tok, id)]);
      SlabUnchanged();
    }

    /** Puts a new connection object into the slab. */
    method Insert(c: Connection)
      requires Valid() && c.Valid() && c.token !in slab && c.settings == settings && !c.panicked
      requires c.Repr() !! repr + {this}
      requires forall u | u in slab :: Apart(c, slab[u]) && Apart(slab[u], c)
      modifies this`slab, this`repr
      ensures Valid() && View() == old(View()).Put(c.token, old(c.View()))
      ensures slab == old(slab)[c.token := c] && repr == old(repr) + c.Repr()
    {
      slab := slab[c.token := c];
      repr := repr + c.Repr();
      AddedValid(c.token, c);
      AddedConns(c.token, c);
    }

    /** A new connection object, not yet in the slab, for the next handler and id. */
    method Make(tok: nat, ghost hnd: nat, id: nat) returns (c: Connection)
      requires Valid() && tok !in slab
      ensures Valid() && c.Valid() && c.token == tok && c.settings == settings && !c.panicked
      ensures fresh(c.Repr()) && c.View() == NewConn(settings, tok, hnd, id)
      ensures c.Repr() !! repr + {this}
      ensures forall u | u in slab :: Apart(c, slab[u]) && Apart(slab[u], c)
    {
      c := new Connection(settings, tok, hnd, id);
      assert forall u | u in slab :: Owned(u);
    }

    /** A new server connection: told to read, registered, and opened. */
    method MakeServer(tok: nat, ghost hnd: nat, id: nat, registers: bool) returns (c: Connection)
      requires Valid() && tok !in slab
      ensures Valid() && c.Valid() && c.token == tok && c.settings == settings && !c.panicked
      ensures fresh(c.Repr())
      ensures c.View() == ServerConn(settings, tok, hnd, id, registers)
      ensures c.Repr() !! repr + {this}
      ensures forall u | u in slab :: Apart(c, slab[u]) && Apart(slab[u], c)
    {
      c := Make(tok, hnd, id);
      c.MakeServer();
      if !registers {
        c.Report(Io(None));
      }
      var connected := c.Open();
    }

    method InsertServer(tok: nat, ghost hnd: nat, id: nat, registers: bool)
      requires Valid() && !panicked && tok !in slab
      modifies this`slab, this`repr
      ensures Valid() && tok in slab && fresh(repr - old(repr))
      ensures View() == old(View()).Put(tok, ServerConn(settings, tok, hnd, id, registers))
    {
      var c := MakeServer(tok, hnd, id, registers);
      Insert(c);
    }

    /** Adds a server connection with the next handler and id at a vacant key. */
    method AddServer(tok: nat, registers: bool)
      requires Valid() && !panicked && tok !in slab
      modifies this`slab, this`repr, this`nextId, this`log
      ensures Valid() && tok in slab && fresh(repr - old(repr))
      ensures View() == NextId(old(View()), tok).Put(tok, ServerConn(settings, tok, old(log.created), old(nextId),
          registers))
    {
      ghost var h := log.created;
      var id := UseId(tok);
      InsertServer(tok, h, id, registers);
    }

    /** Arms a new connection with its interest. */
    method Register(t: nat)
      requires Valid() && t in slab
      modifies this`armed
      ensures Valid() && View() == old(View()).Arm(t, old(View()).conns[t].events)
    {
      armed := armed[t := slab[t].events];
      SlabUnchanged();
    }

    lemma SlabSize()
      requires Valid()
      ensures |slab| == |View().conns|
    {
      KeysAreKeys();
    }

    lemma FreeKey(slot: nat)
      requires Valid() && |slab| < settings.maxConnections
      ensures var tok := VacantIn(slab.Keys, slot, settings.maxConnections);
        tok !in slab && tok == Vacant(View(), slot)
    {
      KeysAreKeys();
      assert |slab| == |slab.Keys|;
      VacantInIsFree(slab.Keys, slot, settings.maxConnections);
    }

    method PanicNow()
      requires Valid()
      modifies this`panicked
      ensures Valid() && panicked
    {
      panicked := true;
    }

    method AcceptSocket(env: Env) returns (r: Outcome)
      requires Valid() && !panicked
      modifies this
      ensures Is(Accept(old(View()), env).0) && (!panicked ==> r == Accept(old(View()), env).1)
      ensures fresh(repr - old(repr))
    {
      SlabSize();
      if settings.tcpNodelay && env.nodelayFails {
        return Fail(Io(None));
      }
      if |slab| >= settings.maxConnections {
        return Fail(Capacity);
      }
      AdmitServer(env);
      r := Pass;
    }

    method AdmitServer(env: Env)
      requires Valid() && !panicked && |slab| < settings.maxConnections
      modifies this
      ensures Is(Admitted(old(View()), env))
      ensures fresh(repr - old(repr))
    {
      ghost var w0 := View();
      ghost var c := NewServer(w0, env);
      var tok := VacantIn(slab.Keys, env.slot, settings.maxConnections);
      FreeKey(env.slot);
      assert c.token == tok;
      AddServer(tok, !env.registerFails);
      assert View() == NextId(w0, tok).Put(tok, c);
      if !env.registerFails {
        Register(tok);
      } else if settings.panicOnNewConnection {
        PanicNow();
      }
    }

    /** Tries the addresses from last to first; left are those not tried when one answered. */
    method Dial(env: Env, addresses: seq<nat>) returns (left: Option<seq<nat>>)
      ensures var i := PickAddress(env, |addresses|);
        left == if i.None? then None else Some(addresses[..i.value])
    {
      var rest := addresses;
      while rest != []
        invariant |rest| <= |addresses| && rest == addresses[..|rest|]
        invariant PickAddress(env, |rest|) == PickAddress(env, |addresses|)
        decreases |rest|
      {
        rest := rest[..|rest| - 1];
        assert rest == addresses[..|rest|];
        if Dials(env, |rest|) {
          return Some(rest);
        }
      }
      left := None;
    }

    /** A new client connection: opened, and told its addresses. */
    method BuildClient(tok: nat, ghost hnd: nat, id: nat, url: string, untried: seq<nat>)
      returns (c: Connection, r: Outcome)
      requires Valid() && tok !in slab
      ensures Valid() && c.Valid() && c.token == tok && c.settings == settings && !c.panicked
      ensures fresh(c.Repr())
      ensures (c.View(), r) == ClientConn(settings, tok, hnd, id, url, untried)
      ensures c.Repr() !! repr + {this}
      ensures forall u | u in slab :: Apart(c, slab[u]) && Apart(slab[u], c)
    {
      c := Make(tok, hnd, id);
      var connected := c.Open();
      r := c.MakeClient(url, untried);
    }

    /** Adds an open client connection at a vacant key. */
    method AddClient(tok: nat, ghost hnd: nat, id: nat, url: string, untried: seq<nat>) returns (r: Outcome)
      requires Valid() && !panicked && tok !in slab
      modifies this`slab, this`repr
      ensures Valid() && tok in slab && fresh(repr - old(repr))
      ensures var (c, r') := ClientConn(settings, tok, hnd, id, url, untried);
        r == r' && View() == old(View()).Put(tok, c)
    {
      var c;
      c, r := BuildClient(tok, hnd, id, url, untried);
      Insert(c);
    }

    method AdmitClient(t: nat, made: Outcome, env: Env) returns (r: Outcome)
      requires Valid() && !panicked && t in slab
      modifies this`slab, this`armed, this`log
      ensures Valid() && (View(), r) == Admit(old(View()), t, made, env)
    {
      r := made;
      if r.Fail? {
        Remove(t);
      } else if env.registerFails {
        Remove(t);
        r := Fail(Io(None));
      } else {
        Register(t);
      }
    }

    /** Gives a handler that got no connection back to the factory, or drops it. */
    method GiveUp(ghost hnd: nat, dropped: bool)
      requires Valid()
      modifies this`log
      ensures Valid() && View() == if dropped then Drop(old(View()), hnd) else GiveBack(old(View()), hnd)
    {
      if dropped {
        log := log.(dropped := log.dropped + [hnd]);
      } else {
        log := log.(lost := log.lost + [hnd]);
      }
      SlabUnchanged();
    }

    method AddAndAdmit(tok: nat, ghost hnd: nat, id: nat, url: string, untried: seq<nat>, env: Env) returns (r: Outcome)
      requires Valid() && !panicked && tok !in slab
      modifies this
      ensures Valid() && fresh(repr - old(repr))
      ensures var (c, made) := ClientConn(settings, tok, hnd, id, url, untried);
        (View(), r) == Admit(old(View()).Put(tok, c), tok, made, env)
    {
      r := AddClient(tok, hnd, id, url, untried);
      r := AdmitClient(tok, r, env);
    }

    /** What follows the dialling: the handler just made is given back, dropped, or gets its connection. */
    method SettleDial(tok: nat, ghost hnd: nat, id: nat, url: string, untried: Option<seq<nat>>, env: Env)
      returns (r: Outcome)
      requires Valid() && !panicked && tok !in slab
      modifies this
      ensures Valid() && fresh(repr - old(repr))
      ensures untried.None? ==> (View(), r) == (GiveBack(old(View()), hnd), Fail(Internal))
      ensures untried.Some? && MayDrop(settings, env) ==> (View(), r) == (Drop(old(View()), hnd), Fail(Io(None)))
      ensures untried.Some? && !MayDrop(settings, env) ==>
                var (c, made) := ClientConn(settings, tok, hnd, id, url, untried.value);
                (View(), r) == Admit(old(View()).Put(tok, c), tok, made, env)
    {
      if untried.None? {
        GiveUp(hnd, false);
        r := Fail(Internal);
      } else if settings.tcpNodelay && env.nodelayFails {
        GiveUp(hnd, true);
        r := Fail(Io(None));
      } else {
        r := AddAndAdmit(tok, hnd, id, url, untried.value, env);
      }
    }

    /** Has the factory make a handler for a vacant key. */
    method TakeKey(env: Env) returns (tok: nat, id: nat)
      requires Valid() && |slab| < settings.maxConnections
      modifies this`nextId, this`log
      ensures Valid() && tok !in slab && tok == Vacant(old(View()), env.slot) && id == old(nextId)
      ensures View() == NextId(old(View()), tok)
    {
      tok := VacantIn(slab.Keys, env.slot, settings.maxConnections);
      FreeKey(env.slot);
      id := UseId(tok);
    }

    /** Adds a connection for the address that answered, of which those untried are left. */
    method FinishConnect(url: string, untried: Option<seq<nat>>, env: Env) returns (r: Outcome)
      requires Valid() && !panicked && |slab| < settings.maxConnections && env.resolved.Some?
      requires var i := PickAddress(env, |env.resolved.value|);
        untried == if i.None? then None else Some(env.resolved.value[..i.value])
      modifies this
      ensures Valid() && fresh(repr - old(repr))
      ensures (View(), r) == Dialled(old(View()), url, env, PickAddress(env, |env.resolved.value|))
    {
      ghost var w0 := View();
      var tok, id := TakeKey(env);
      r := SettleDial(tok, w0.log.created, id, url, untried, env);
      DialledIs(w0, url, env, tok, untried, View(), r);
    }

    /** The cases of a dialling, by the addresses it left untried. */
    lemma DialledIs(w: Loop, url: string, env: Env, tok: nat, untried: Option<seq<nat>>, w': Loop, r: Outcome)
      requires env.resolved.Some? && tok == Vacant(w, env.slot)
      requires var i := PickAddress(env, |env.resolved.value|);
        untried == if i.None? then None else Some(env.resolved.value[..i.value])
      requires var w1, h := NextId(w, tok), w.log.created;
        && (untried.None? ==> (w', r) == (GiveBack(w1, h), Fail(Internal)))
        && (untried.Some? && MayDrop(w.settings, env) ==> (w', r) == (Drop(w1, h), Fail(Io(None))))
        && (untried.Some? && !MayDrop(w.settings, env) ==>
              var (c, made) := ClientConn(w.settings, tok, h, w.nextId, url, untried.value);
              (w', r) == Admit(w1.Put(tok, c), tok, made, env))
      ensures (w', r) == Dialled(w, url, env, PickAddress(env, |env.resolved.value|))
    {
    }

    method DialAndFinish(url: string, env: Env) returns (r: Outcome)
      requires Valid() && !panicked && |slab| < settings.maxConnections && env.resolved.Some?
      modifies this
      ensures Valid() && fresh(repr - old(repr))
      ensures (View(), r) == Dialled(old(View()), url, env, PickAddress(env, |env.resolved.value|))
    {
      var untried := Dial(env, env.resolved.value);
      SlabUnchanged();
      r := FinishConnect(url, untried, env);
    }

    method ConnectToUrl(url: string, env: Env) returns (r: Outcome)
      requires Valid() && !panicked
      modifies this
      ensures Is(ConnectTo(old(View()), url, env).0) && (!panicked ==> r == ConnectTo(old(View()), url, env).1)
      ensures fresh(repr - old(repr))
    {
      SlabSize();
      if |slab| >= settings.maxConnections {
        return Fail(Capacity);
      }
      if env.resolved.None? {
        PanicNow();
        return Pass;
      }
      r := DialAndFinish(url, env);
    }

    // ---------- walks over the slab ----------

    method DeliverAt(t: nat, signal: Signal) returns (r: Outcome)
      requires Valid() && !panicked && t in slab
      modifies this`panicked, repr
      ensures slab == old(slab) && repr == old(repr) && Valid()
      ensures r == Deliver1(settings, old(View().conns[t]), signal).1
      ensures View() == Changed(old(View()), t, Deliver1(settings, old(View().conns[t]), signal).0)
    {
      r := slab[t].Deliver(signal);
      panicked := slab[t].panicked;
      ChangedAt(t);
    }

    method SetTimeoutAt(t: nat, event: nat, reply: Option<Kind>)
      requires Valid() && !panicked && t in slab
      modifies this`panicked, repr
      ensures slab == old(slab) && repr == old(repr) && Valid()
      ensures View() == Changed(old(View()), t, SetTimeout1(settings, old(View().conns[t]), event, reply))
    {
      var r := slab[t].SetTimeout(event, reply);
      if r.Fail? {
        slab[t].Report(r.error);
      }
      panicked := slab[t].panicked;
      ChangedAt(t);
    }

    method DoAt(t: nat, task: Task) returns (r: Outcome)
      requires Valid() && !panicked && t in slab
      modifies this`panicked, repr
      ensures slab == old(slab) && repr == old(repr) && Valid()
      ensures r == Done(settings, task, t, old(View().conns[t])).1
      ensures View() == Changed(old(View()), t, Done(settings, task, t, old(View().conns[t])).0)
    {
      r := Pass;
      match task {
        case Deliver(signal) => r := DeliverAt(t, signal);
        case Tell(errors) =>
          if t in errors {
            ReportTo(t, errors[t]);
          }
        case SetTimeouts(event, replies) =>
          SetTimeoutAt(t, event, if t in replies then Some(replies[t]) else None);
      }
    }

    lemma NoneHasPanicked()
      requires Valid() && !panicked
      ensures forall t | t in Conns() :: !Conns()[t].panicked
    {
    }

    /** Walks the slab, in any order, and does the same to every connection; collects the failures. */
    method Each(task: Task) returns (failures: map<nat, Kind>)
      requires Valid() && !panicked
      modifies this`panicked, repr
      ensures slab == old(slab) && repr == old(repr)
      ensures Is(AllDone(old(View()), task))
      ensures !panicked ==> failures == Failures(settings, old(View()).conns, task, {})
    {
      ghost var w0 := View();
      var todo := slab.Keys;
      failures := map[];
      KeysAreKeys();
      PartlyStart(settings, w0.conns, task);
      while todo != {}
        invariant Valid() && !panicked && slab == old(slab) && repr == old(repr) && todo <= w0.conns.Keys
        invariant View() == w0.(conns := Partly(settings, w0.conns, task, todo))
        invariant failures == Failures(settings, w0.conns, task, todo)
        decreases todo
      {
        var t :| t in todo;
        PartlyStep(settings, w0.conns, task, todo, t);
        var r := DoAt(t, task);
        if panicked {
          WalkPanics(w0, task, t);
          return;
        }
        if r.Fail? {
          failures := failures[t := r.error];
        }
        todo := todo - {t};
      }
      NoneHasPanicked();
      WalkEnds(w0, task, Conns());
    }

    /** Rearms one more connection of w0, todo being those left. */
    method RearmNext(t: nat, fails: set<nat>, unarmed: map<nat, Kind>, ghost w0: Loop, ghost todo: set<nat>)
      returns (unarmed': map<nat, Kind>)
      requires Valid() && t in slab && t in todo && Conns() == w0.conns
      requires armed == ArmedSoFar(w0, fails, todo) && unarmed == UnarmedSoFar(w0, fails, todo)
      modifies this`armed
      ensures Valid() && Conns() == w0.conns
      ensures armed == ArmedSoFar(w0, fails, todo - {t}) && unarmed' == UnarmedSoFar(w0, fails, todo - {t})
    {
      ArmedStep(w0, fails, todo, t);
      UnarmedStep(w0, fails, todo, t);
      var r := Rearm(t, t in fails);
      unarmed' := if r.Fail? then unarmed[t := r.error] else unarmed;
    }

    /** Rearms every connection; collects the failures. */
    method RearmEach(fails: set<nat>) returns (unarmed: map<nat, Kind>)
      requires Valid() && !panicked
      modifies this`armed
      ensures Valid() && View() == AllArmed(old(View()), fails)
      ensures unarmed == Unarmed(old(View()), fails)
    {
      ghost var w0 := View();
      var todo := slab.Keys;
      unarmed := map[];
      KeysAreKeys();
      ArmedStart(w0, fails);
      while todo != {}
        invariant Valid() && todo <= slab.Keys && Conns() == w0.conns
        invariant armed == ArmedSoFar(w0, fails, todo) && unarmed == UnarmedSoFar(w0, fails, todo)
        decreases todo
      {
        var t :| t in todo;
        unarmed := RearmNext(t, fails, unarmed, w0, todo);
        todo := todo - {t};
      }
      ArmedEnd(w0, fails);
    }

    /** Delivers to every connection, rearms every one, and then reports the refused deliveries and
        the failures to rearm, which the source keeps in one list in that order. */
    method BroadcastSignal(signal: Signal, fails: set<nat>)
      requires Valid() && !panicked
      modifies this`armed, this`panicked, repr
      ensures slab == old(slab) && repr == old(repr)
      ensures Is(Broadcast(old(View()), signal, fails))
    {
      ghost var w0 := View();
      var refused := Each(Task.Deliver(signal));
      if panicked {
        DeliveryPanics(w0, signal, fails);
        return;
      }
      var unarmed := RearmEach(fails);
      ReportFailures(refused, unarmed, w0, signal, fails);
    }

    method ReportFailures(refused: map<nat, Kind>, unarmed: map<nat, Kind>, ghost w0: Loop, ghost signal: Signal,
        ghost fails: set<nat>)
      requires Valid() && !panicked && !w0.panicked && !DeliveredPhase(w0, signal).panicked
      requires View() == AllArmed(DeliveredPhase(w0, signal), fails)
      requires refused == Refused(w0, signal)
      requires unarmed == Unarmed(DeliveredPhase(w0, signal), fails)
      requires w0.settings == settings
      modifies this`panicked, repr
      ensures slab == old(slab) && repr == old(repr)
      ensures Is(Broadcast(w0, signal, fails))
    {
      var none := Each(Tell(refused));
      if panicked {
        ReportPanics(w0, signal, fails);
        return;
      }
      UnarmedLater(w0, signal, fails);
      none := Each(Tell(unarmed));
      BroadcastInPhases(w0, signal, fails);
    }

    /** Stops the loop, shutting the factory down. */
    method StopNow()
      requires Valid()
      modifies this`active, this`log
      ensures Valid() && View() == Stopped(old(View()))
    {
      log := log.(shutdowns := log.shutdowns + 1);
      active := false;
      SlabUnchanged();
    }

    method ShutdownEach()
      requires Valid() && !panicked
      modifies this`panicked, this`active, this`log, repr
      ensures slab == old(slab) && repr == old(repr)
      ensures Is(ShutdownAll(old(View())))
    {
      ShutdownIsWalk(View());
      var none := Each(Task.Deliver(Shutdown));
      if panicked {
        return;
      }
      StopNow();
      if settings.panicOnShutdown {
        PanicNow();
      }
    }

    // ---------- commands ----------

    /** Delivers to one connection, which is told if it is refused. */
    method DeliverOne(t: nat, signal: Signal)
      requires Valid() && !panicked && t in slab
      modifies this`panicked, repr
      ensures slab == old(slab) && repr == old(repr) && Valid()
      ensures View() == Changed(old(View()), t, Reported(settings, Deliver1(settings, old(View().conns[t]), signal)))
    {
      slab[t].DeliverAndReport(signal);
      panicked := slab[t].panicked;
      ChangedAt(t);
    }

    /** Delivers only if the id matches. */
    method DeliverIfReached(cmd: Command)
      requires Valid() && !panicked && cmd.token in slab
      modifies this`panicked, repr
      ensures slab == old(slab) && repr == old(repr) && Valid()
      ensures View() == Changed(old(View()), cmd.token, Addressed(old(View()), cmd))
    {
      assert View().conns[cmd.token] == slab[cmd.token].View();
      if slab[cmd.token].id == cmd.id {
        DeliverOne(cmd.token, cmd.signal);
      } else {
        assert Changed(View(), cmd.token, View().conns[cmd.token]) == View();
      }
    }

    method AddressOne(cmd: Command, env: Env)
      requires Valid() && !panicked
      modifies this, repr
      ensures Is(Address(old(View()), cmd, env)) && repr == old(repr)
    {
      if cmd.token in slab {
        DeliverIfReached(cmd);
        if !panicked {
          ScheduleIt(cmd.token, cmd.token in env.rearmFails);
        }
      }
    }

    method ShutdownFromOne(t: nat, fails: bool)
      requires Valid() && !panicked
      modifies this, repr
      ensures Is(ShutdownFor(old(View()), t, fails)) && repr == old(repr)
    {
      ShutdownEach();
      if !panicked && t in slab {
        ScheduleIt(t, fails);
      }
    }

    /** The order of stopping and rearming is not visible. */
    method ShutdownFromAll(env: Env)
      requires Valid() && !panicked
      modifies this, repr
      ensures Is(ShutdownForAll(old(View()), env)) && repr == old(repr)
    {
      BroadcastSignal(Shutdown, env.rearmFails);
      if panicked {
        return;
      }
      StopNow();
      if settings.panicOnShutdown {
        PanicNow();
      }
    }

    method ConnectFromOne(t: nat, url: string, env: Env)
      requires Valid() && !panicked
      modifies this, repr
      ensures Is(ConnectFor(old(View()), t, url, env)) && fresh(repr - old(repr))
    {
      var r := ConnectToUrl(url, env);
      if panicked || r.Pass? {
        return;
      }
      if t in slab {
        ReportTo(t, r.error);
      } else if settings.panicOnNewConnection {
        PanicNow();
      }
    }

    method ConnectFromAll(url: string, env: Env)
      requires Valid() && !panicked
      modifies this, repr
      ensures Is(ConnectForAll(old(View()), url, env)) && fresh(repr - old(repr))
    {
      var r := ConnectToUrl(url, env);
      if !panicked && r.Fail? && settings.panicOnNewConnection {
        PanicNow();
      }
    }

    method SetTimeoutFromOne(t: nat, event: nat, env: Env)
      requires Valid() && !panicked
      modifies this`panicked, repr
      ensures Is(SetTimeoutOne(old(View()), t, event, env)) && repr == old(repr)
    {
      if t in slab {
        if env.timerFails {
          ReportTo(t, Timer);
        } else {
          SetTimeoutAt(t, event, ReplyOf(env, t));
        }
      }
    }

    method SetTimeoutFromAll(event: nat, env: Env)
      requires Valid() && !panicked
      modifies this`panicked, repr
      ensures Is(SetTimeoutAll(old(View()), event, env)) && repr == old(repr)
    {
      if env.timerFails {
        if settings.panicOnTimeout {
          PanicNow();
        }
      } else {
        SetTimeoutsIsWalk(View(), event, env);
        var none := Each(SetTimeouts(event, env.onNewTimeout));
      }
    }

    method HandleCommandForAll(signal: Signal, env: Env)
      requires Valid() && !panicked
      modifies this, repr
      ensures Is(HandleAll(old(View()), signal, env)) && fresh(repr - old(repr))
    {
      match signal {
        case Message(_) => BroadcastSignal(signal, env.rearmFails);
        case Close => BroadcastSignal(signal, env.rearmFails);
        case Shutdown => ShutdownFromAll(env);
        case Connect(url) => ConnectFromAll(url, env);
        case Timeout(event) => SetTimeoutFromAll(event, env);
        case Cancel =>
      }
    }

    method HandleCommandForOne(cmd: Command, env: Env)
      requires Valid() && !panicked
      modifies this, repr
      ensures Is(HandleOne(old(View()), cmd, env)) && fresh(repr - old(repr))
    {
      match cmd.signal {
        case Message(_) => AddressOne(cmd, env);
        case Close => AddressOne(cmd, env);
        case Shutdown => ShutdownFromOne(cmd.token, cmd.token in env.rearmFails);
        case Connect(url) => ConnectFromOne(cmd.token, url, env);
        case Timeout(event) => SetTimeoutFromOne(cmd.token, event, env);
        case Cancel =>
      }
    }

    method HandleCommand(cmd: Command, env: Env)
      requires Valid() && !panicked
      modifies this, repr
      ensures Is(HandleQueue(old(View()), cmd, env)) && fresh(repr - old(repr))
    {
      if cmd.token == SYSTEM {
      } else if cmd.token == ALL {
        HandleCommandForAll(cmd.signal, env);
      } else {
        HandleCommandForOne(cmd, env);
      }
    }

    // ---------- events, turns and runs ----------

    /** Other threads put commands on the channel. */
    method Arrive(commands: seq<Command>)
      requires Valid()
      modifies this`queue
      ensures Valid() && View() == old(View()).(queue := old(queue) + commands)
    {
      queue := queue + commands;
      SlabUnchanged();
    }

    method TakeCommand() returns (cmd: Command)
      requires Valid() && queue != []
      modifies this`queue, this`log
      ensures Valid() && View() == Dequeued(old(View())) && cmd == old(queue)[0]
    {
      cmd := queue[0];
      queue := queue[1..];
      log := log.(handled := log.handled + [cmd]);
      SlabUnchanged();
    }

    method HandleQueueEvent(env: Env)
      requires Valid() && !panicked
      modifies this, repr
      ensures Is(HandleNext(old(View()), env)) && fresh(repr - old(repr))
    {
      if queue != [] {
        var cmd := TakeCommand();
        HandleCommand(cmd, env);
      }
    }

    method HandleListenerEvent(kind: Interest, env: Env)
      requires Valid() && !panicked
      modifies this
      ensures Is(HandleListener(old(View()), kind, env)) && fresh(repr - old(repr))
    {
      if !kind.readable {
        return;
      }
      if !listening {
        PanicNow();
        return;
      }
      if env.accepts {
        var r := AcceptSocket(env);
        if !panicked && r.Fail? && settings.panicOnNewConnection {
          PanicNow();
        }
      }
    }

    method Dispatch(e: Event)
      requires Valid() && !panicked
      modifies this, repr
      ensures Is(HandleArrived(old(View()), e)) && fresh(repr - old(repr))
    {
      if e.token == SYSTEM {
        PanicNow();
      } else if e.token == ALL {
        HandleListenerEvent(e.kind, e.env);
      } else if e.token == TIMER {
        HandleTimerEvent(e.env.timers);
      } else if e.token == QUEUE {
        HandleQueueEvent(e.env);
      } else if e.token in slab {
        HandleConnection(e.token, e.kind, e.env);
      } else {
        PanicNow();
      }
    }

    method Handle(e: Event)
      requires Valid() && !panicked
      modifies this, repr
      ensures Is(HandleEvent(old(View()), e)) && fresh(repr - old(repr))
    {
      Arrive(e.env.arrivals);
      Dispatch(e);
    }

    method HandleBatch(batch: seq<Event>)
      requires Valid() && !panicked
      modifies this, repr
      ensures Is(HandleEvents(old(View()), batch)) && fresh(repr - old(repr))
    {
      var i := 0;
      while i < |batch| && !panicked
        invariant 0 <= i <= |batch| && Valid() && fresh(repr - old(repr))
        invariant if panicked then HandleEvents(old(View()), batch).panicked
                  else HandleEvents(View(), batch[i..]) == HandleEvents(old(View()), batch)
      {
        Handle(batch[i]);
        i := i + 1;
      }
    }

    method CountConnections()
      requires Valid()
      modifies this`active, this`log
      ensures Valid() && View() == CheckCount(old(View()))
    {
      SlabSize();
      if |slab| == 0 && active && !listening {
        StopNow();
      }
    }

    /** Poll reports a batch, which disarms its registrations, and the batch is handled. */
    method HandlePoll(batch: seq<Event>)
      requires Valid() && !panicked
      modifies this, repr
      ensures Is(HandleEvents(Polled(old(View()), batch), batch)) && fresh(repr - old(repr))
    {
      Disarm(batch);
      HandleBatch(batch);
    }

    method Disarm(batch: seq<Event>)
      requires Valid()
      modifies this`armed
      ensures Valid() && View() == Polled(old(View()), batch)
    {
      armed := armed - Tokens(batch);
      SlabUnchanged();
    }

    method HandleInterrupt()
      requires Valid()
      modifies this`active, this`log
      ensures Valid() && View() == Interrupt(old(View()))
    {
      if settings.shutdownOnInterrupt {
        active := false;
        log := log.(interrupted := true);
      }
      SlabUnchanged();
    }

    method FailPoll()
      requires Valid()
      modifies this`log
      ensures Valid() && View() == Turn(old(View()), PollFails)
    {
      log := log.(failed := true);
      SlabUnchanged();
    }

    /** One poll and what follows it. */
    method TakeTurn(p: PollResult)
      requires Valid() && !panicked
      modifies this, repr
      ensures Is(Turn(old(View()), p)) && fresh(repr - old(repr))
    {
      match p {
        case Ready(batch) =>
          HandlePoll(batch);
          if !panicked {
            CountConnections();
          }
        case Interrupted =>
          HandleInterrupt();
          CountConnections();
        case PollFails =>
          FailPoll();
      }
    }

    /** The loop: polls while it is active, until a poll fails. */
    method Loops(polls: seq<PollResult>)
      requires Valid() && Running(View())
      modifies this, repr
      ensures Is(Run(old(View()), polls)) && fresh(repr - old(repr))
    {
      var i, failed := 0, false;
      while i < |polls| && active && !panicked && !failed
        invariant 0 <= i <= |polls| && Valid() && fresh(repr - old(repr))
        invariant if panicked then Run(old(View()), polls).panicked
                  else log.failed == failed && Run(View(), polls[i..]) == Run(old(View()), polls)
      {
        TurnFails(View(), polls[i]);
        TakeTurn(polls[i]);
        failed := polls[i].PollFails?;
        i := i + 1;
      }
    }
  }

  /** The loop with the connection at t replaced, panicking if that did. */
  ghost function Changed(w: Loop, t: nat, c: Conn): Loop {
    w.(conns := w.conns[t := c], panicked := c.panicked)
  }
}
