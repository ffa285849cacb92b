// No lost write wakeup, exactly-once teardown, and the environments under which they hold.
module LoopTidy {
  import opened Types
  import opened ConnectionSpec
  import opened ConnectionProofs
  import opened Lifecycle
  import opened LoopSpec
  import opened ConnectionSteps
  import opened LoopInvariant
  import opened LoopSafety
  import opened LoopRuns

  /** The next poll will report the connection at t when it matters: it is armed, with write
      interest if it has unsent bytes, or its event is already in the batch being handled. */
  ghost predicate Watched(w: Loop, t: nat, pending: set<nat>)
    requires t in w.conns
  {
    t in pending || (t in w.armed && (w.conns[t].Unsent() != [] ==> w.armed[t].writable))
  }

  ghost predicate SlotTidy(w: Loop, t: nat, pending: set<nat>)
    requires t in w.conns
  {
    Alive(w.conns[t]) && Watched(w, t, pending)
  }

  /** Every removed connection was hung up, just once. */
  ghost predicate RetiredTidy(w: Loop) {
    forall h | h in w.log.retired :: Ended(w.log.retired[h])
  }

  /** What is armed is in the slab. */
  predicate ArmedInSlab(w: Loop) {
    w.armed.Keys <= w.conns.Keys
  }

  ghost predicate TidyExcept(w: Loop, t: nat, pending: set<nat>) {
    && RetiredTidy(w) && ArmedInSlab(w)
    && forall u {:trigger SlotTidy(w, u, pending)} | u in w.conns && u != t :: SlotTidy(w, u, pending)
  }

  /** What holds while a batch is handled, pending being the tokens still to come. */
  ghost predicate TidyLoop(w: Loop, pending: set<nat>) {
    && RetiredTidy(w) && ArmedInSlab(w)
    && forall u {:trigger SlotTidy(w, u, pending)} | u in w.conns :: SlotTidy(w, u, pending)
  }

  /** Tidy, unless the step panicked. */
  ghost predicate StaysTidy(w: Loop, pending: set<nat>) {
    w.panicked || TidyLoop(w, pending)
  }

  // ---------- single steps ----------

  lemma RemoveTidy(w: Loop, t: nat, pending: set<nat>)
    requires TidyExcept(w, t, pending) && t in w.conns && Ended(w.conns[t])
    ensures TidyLoop(w.Remove(t), pending)
  {
    var w' := w.Remove(t);
    forall u | u in w'.conns ensures SlotTidy(w', u, pending) {
      assert SlotTidy(w, u, pending);
    }
  }

  lemma ArmTidy(w: Loop, t: nat, pending: set<nat>)
    requires TidyExcept(w, t, pending) && t in w.conns && Alive(w.conns[t])
    ensures TidyLoop(w.Arm(t, w.conns[t].events), pending)
  {
    var w' := w.Arm(t, w.conns[t].events);
    forall u | u in w'.conns ensures SlotTidy(w', u, pending) {
      if u != t {
        assert SlotTidy(w, u, pending);
      }
    }
  }

  lemma PutTidy(w: Loop, t: nat, c: Conn, pending: set<nat>)
    requires TidyExcept(w, t, pending)
    ensures TidyExcept(w.Put(t, c), t, pending)
  {
    var w' := w.Put(t, c);
    forall u | u in w'.conns && u != t ensures SlotTidy(w', u, pending) {
      assert SlotTidy(w, u, pending);
    }
  }

  lemma RearmOrRemoveTidy(w: Loop, t: nat, fails: bool, pending: set<nat>)
    requires TidyExcept(w, t, pending) && t in w.conns && Alive(w.conns[t])
    ensures StaysTidy(RearmOrRemove(w, t, fails), pending)
  {
    if fails {
      var c := Error(w.settings, w.conns[t], Io(None));
      IoErrorEnds(w.settings, w.conns[t], None);
      if !c.panicked {
        PutTidy(w, t, c, pending);
        RemoveTidy(w.Put(t, c), t, pending);
      }
    } else {
      ArmTidy(w, t, pending);
    }
  }

  /** A connection that is live or ended leaves check_active armed or removed. */
  lemma CheckActiveTidy(w: Loop, t: nat, fails: bool, pending: set<nat>)
    requires TidyExcept(w, t, pending) && t in w.conns && (Alive(w.conns[t]) || Ended(w.conns[t]))
    ensures StaysTidy(CheckActive(w, t, fails), pending)
  {
    if w.conns[t].events.Any() {
      RearmOrRemoveTidy(w, t, fails, pending);
    } else {
      RemoveTidy(w, t, pending);
    }
  }

  /** The event being handled leaves the batch. */
  lemma TakeFromBatch(w: Loop, t: nat, rest: set<nat>)
    requires TidyLoop(w, {t} + rest)
    ensures TidyExcept(w, t, rest)
    ensures t !in w.conns ==> TidyLoop(w, rest)
  {
    forall u | u in w.conns && u != t ensures SlotTidy(w, u, rest) {
      assert SlotTidy(w, u, {t} + rest);
    }
  }

  lemma HandleConnTidy(w: Loop, t: nat, kind: Interest, env: Env, rest: set<nat>)
    requires Inv(w) && TidyLoop(w, {t} + rest) && t in w.conns
    ensures StaysTidy(HandleConn(w, t, kind, env), rest)
  {
    var c := OnReady(w.settings, w.conns[t], kind, env).0;
    assert SlotOk(w, t) && SlotTidy(w, t, {t} + rest);
    OnReadyStep(w.settings, w.conns[t], kind, env);
    TakeFromBatch(w, t, rest);
    if !c.panicked {
      PutTidy(w, t, c, rest);
      CheckActiveTidy(w.Put(t, c), t, t in env.rearmFails, rest);
    }
  }

  lemma HandleTimeoutTidy(w: Loop, fire: TimerFire, pending: set<nat>)
    requires Inv(w) && TidyLoop(w, pending)
    ensures StaysTidy(HandleTimeout(w, fire), pending)
  {
    var t := fire.token;
    if t in w.conns {
      var c := OnFire(w.settings, w.conns[t], fire.event, fire.reply);
      assert SlotOk(w, t) && SlotTidy(w, t, pending);
      OnFireStep(w.settings, w.conns[t], fire.event, fire.reply);
      if !c.panicked {
        PutTidy(w, t, c, pending);
        CheckActiveTidy(w.Put(t, c), t, fire.rearmFails, pending);
      }
    }
  }

  lemma {:induction false} HandleTimersTidy(w: Loop, fires: seq<TimerFire>, pending: set<nat>)
    requires Inv(w) && StaysTidy(w, pending)
    ensures StaysTidy(HandleTimers(w, fires), pending)
    decreases |fires|
  {
    if fires != [] && !w.panicked {
      HandleTimeoutTidy(w, fires[0], pending);
      HandleTimeoutSafe(w, fires[0]);
      HandleTimersTidy(HandleTimeout(w, fires[0]), fires[1..], pending);
    }
  }

  // ---------- new connections ----------

  lemma InsertTidy(w: Loop, c: Conn, pending: set<nat>)
    requires TidyLoop(w, pending) && Alive(c)
    ensures TidyLoop(NextId(w, c.token).Put(c.token, c).Arm(c.token, c.events), pending)
  {
    var w1 := NextId(w, c.token).Put(c.token, c);
    forall u | u in w1.conns && u != c.token ensures SlotTidy(w1, u, pending) {
      assert SlotTidy(w, u, pending);
    }
    ArmTidy(w1, c.token, pending);
  }

  lemma SameSlotsTidy(w: Loop, w': Loop, pending: set<nat>)
    requires TidyLoop(w, pending)
    requires w'.conns == w.conns && w'.armed == w.armed && w'.log.retired == w.log.retired
    ensures TidyLoop(w', pending)
  {
    forall u | u in w'.conns ensures SlotTidy(w', u, pending) {
      assert SlotTidy(w, u, pending);
    }
  }

  /** A connection put into the slab without being armed is watched only if an event for its key,
      left by an earlier connection there, is still to come. */
  lemma UnarmedTidyExactly(w: Loop, c: Conn, pending: set<nat>)
    requires TidyLoop(w, pending) && Alive(c) && c.token !in w.conns
    ensures TidyLoop(NextId(w, c.token).Put(c.token, c), pending) <==> c.token in pending
  {
    var w' := NextId(w, c.token).Put(c.token, c);
    assert SlotTidy(w', c.token, pending) <==> c.token in pending;
    if c.token in pending {
      forall u | u in w'.conns && u != c.token ensures SlotTidy(w', u, pending) {
        assert SlotTidy(w, u, pending);
      }
    }
  }

  /** A connection accepted whose registration fails is told so, and stays in the slab unarmed. */
  predicate AcceptsUnarmed(w: Loop, env: Env, pending: set<nat>) {
    !SlabFull(w) && !MayDrop(w.settings, env) && env.registerFails && Vacant(w, env.slot) !in pending
  }

  lemma AdmittedTidyExactly(w: Loop, env: Env, pending: set<nat>)
    requires Inv(w) && TidyLoop(w, pending) && !SlabFull(w) && !MayDrop(w.settings, env)
    requires !Admitted(w, env).panicked
    ensures TidyLoop(Admitted(w, env), pending) <==> !AcceptsUnarmed(w, env, pending)
  {
    VacantIsFree(w, env.slot);
    if env.registerFails {
      UnarmedTidyExactly(w, NewServer(w, env), pending);
    } else {
      InsertTidy(w, NewServer(w, env), pending);
    }
  }

  /** What follows a dialling that answered, if the registration fails, takes a connection out of the
      slab that was never hung up. */
  lemma AdmitTidyExactly(w: Loop, env: Env, c: Conn, pending: set<nat>)
    requires Inv(w) && TidyLoop(w, pending) && Inserts(w, c.token, c) && Alive(c)
    ensures TidyLoop(Admit(NextId(w, c.token).Put(c.token, c), c.token, Pass, env).0, pending) <==> !env.registerFails
  {
    var w1 := NextId(w, c.token).Put(c.token, c);
    if env.registerFails {
      var w' := w1.Remove(c.token);
      assert c.handler in w'.log.retired && w'.log.retired[c.handler] == c;
      assert !Ended(c);
    } else {
      InsertTidy(w, c, pending);
    }
  }

  /** Whether a connect finds a slot, a name that resolves and an address that answers. */
  predicate Answered(w: Loop, env: Env) {
    !SlabFull(w) && env.resolved.Some? && PickAddress(env, |env.resolved.value|).Some?
  }

  lemma DialledTidyExactly(w: Loop, url: string, env: Env, i: nat, pending: set<nat>)
    requires Inv(w) && TidyLoop(w, pending) && !SlabFull(w) && !MayDrop(w.settings, env)
    requires env.resolved.Some? && i < |env.resolved.value|
    ensures TidyLoop(Dialled(w, url, env, Some(i)).0, pending) <==> !env.registerFails
  {
    var (c, made) := NewClient(w, url, env, env.resolved.value[..i]);
    NewClientInserts(w, url, env, env.resolved.value[..i]);
    AdmitTidyExactly(w, env, c, pending);
  }

  /** A connect keeps the loop tidy unless a client it made cannot be registered; if it fails
      otherwise, no connection has changed, and only a failing set_nodelay is an I/O error. */
  lemma ConnectToTidyExactly(w: Loop, url: string, env: Env, pending: set<nat>)
    requires Inv(w) && TidyLoop(w, pending) && !ConnectTo(w, url, env).0.panicked
    ensures var (w', r) := ConnectTo(w, url, env);
      && (TidyLoop(w', pending) <==> !(Answered(w, env) && !MayDrop(w.settings, env) && env.registerFails))
      && (r.Fail? && TidyLoop(w', pending) ==>
            (w'.conns == w.conns && w'.armed == w.armed && (HangsUpOn(r.error) <==> Answered(w, env))))
      && (Answered(w, env) && MayDrop(w.settings, env) ==> r.Fail?)
  {
    var w' := ConnectTo(w, url, env).0;
    if SlabFull(w) || env.resolved.None? {
    } else {
      var i := PickAddress(env, |env.resolved.value|);
      if i.None? || MayDrop(w.settings, env) {
        SameSlotsTidy(w, w', pending);
      } else {
        DialledTidyExactly(w, url, env, i.value, pending);
        NewClientInserts(w, url, env, env.resolved.value[..i.value]);
      }
    }
  }

  // ---------- commands ----------

  /** Reporting an error, shutting down and timeouts leave the output buffer alone. */
  lemma ErrorKeepsOutput(s: Settings, c: Conn, kind: Kind)
    ensures Error(s, c, kind).output == c.output
  {
  }

  /** Connections stay live with the same unsent bytes, so the armed interests still fit. */
  lemma SameOutputTidy(w: Loop, w': Loop, pending: set<nat>)
    requires TidyLoop(w, pending)
    requires w'.conns.Keys == w.conns.Keys && w'.armed == w.armed && w'.log.retired == w.log.retired
    requires forall u {:trigger w'.conns[u]} | u in w.conns ::
               Alive(w'.conns[u]) && w'.conns[u].output == w.conns[u].output
    ensures TidyLoop(w', pending)
  {
    forall u | u in w'.conns ensures SlotTidy(w', u, pending) {
      assert SlotTidy(w, u, pending);
    }
  }

  /** The interest a connection has right after delivery covers what a reported failure leaves unsent. */
  lemma DeliveredInterest(s: Settings, c: Conn, signal: Signal)
    requires Good(s, c) && Alive(c)
    ensures var d, c' := Deliver1(s, c, signal), Reported(s, Deliver1(s, c, signal));
      c'.panicked || (Alive(c') && c'.output == d.0.output && (c'.Unsent() != [] ==> d.0.events.writable))
  {
    Deliver1Step(s, c, signal);
    Reported1Step(s, c, signal);
    var d := Deliver1(s, c, signal);
    if d.1.Fail? {
      ErrorKeepsOutput(s, d.0, d.1.error);
    }
  }

  /** w' is w after a delivery to every connection, each armed with its interest right after it. */
  ghost predicate DeliveredToAll(w: Loop, signal: Signal, w': Loop) {
    && w'.log == w.log && w'.conns.Keys == w.conns.Keys && w'.armed.Keys <= w.armed.Keys + w.conns.Keys
    && forall t | t in w.conns ::
         && w'.conns[t] == Reported(w.settings, Deliver1(w.settings, w.conns[t], signal))
         && !w'.conns[t].panicked
         && t in w'.armed && w'.armed[t] == Deliver1(w.settings, w.conns[t], signal).0.events
  }

  lemma BroadcastDelivers(w: Loop, signal: Signal, rearmFails: set<nat>)
    requires w.conns.Keys !! rearmFails
    ensures var w' := Broadcast(w, signal, rearmFails); w' == w.Panic() || DeliveredToAll(w, signal, w')
  {
  }

  lemma DeliveredSlotTidy(w: Loop, signal: Signal, w': Loop, u: nat, pending: set<nat>)
    requires Inv(w) && TidyLoop(w, pending) && DeliveredToAll(w, signal, w') && u in w.conns
    ensures SlotTidy(w', u, pending)
  {
    assert SlotOk(w, u) && SlotTidy(w, u, pending);
    DeliveredInterest(w.settings, w.conns[u], signal);
  }

  lemma DeliveredToAllTidy(w: Loop, signal: Signal, w': Loop, pending: set<nat>)
    requires Inv(w) && TidyLoop(w, pending) && DeliveredToAll(w, signal, w')
    ensures TidyLoop(w', pending)
  {
    forall u | u in w'.conns ensures SlotTidy(w', u, pending) {
      DeliveredSlotTidy(w, signal, w', u, pending);
    }
  }

  /** A slab with a connection that was hung up is not tidy. */
  lemma HungUpIsUntidy(w: Loop, t: nat, pending: set<nat>)
    requires t in w.conns && Ended(w.conns[t])
    ensures !TidyLoop(w, pending)
  {
    var calls := w.conns[t].trace.calls;
    assert OnClose == calls[|calls| - 1];
    assert !SlotTidy(w, t, pending);
  }

  lemma BroadcastHangsUp(w: Loop, signal: Signal, rearmFails: set<nat>, t: nat)
    requires t in w.conns && t in rearmFails && Good(w.settings, w.conns[t]) && Alive(w.conns[t])
    ensures var c' := Broadcast1(w.settings, w.conns[t], signal, true); c'.panicked || Ended(c')
  {
    DeliveredInterest(w.settings, w.conns[t], signal);
    var c1 := Reported(w.settings, Deliver1(w.settings, w.conns[t], signal));
    if !c1.panicked {
      IoErrorEnds(w.settings, c1, None);
    }
  }

  /** A broadcast keeps the loop tidy exactly when every connection is rearmed: each is then armed for
      the bytes it leaves unsent, although refusals are reported after the arming. */
  lemma BroadcastTidyIff(w: Loop, signal: Signal, rearmFails: set<nat>, pending: set<nat>)
    requires Inv(w) && TidyLoop(w, pending) && !w.panicked && !Broadcast(w, signal, rearmFails).panicked
    ensures TidyLoop(Broadcast(w, signal, rearmFails), pending) <==> w.conns.Keys !! rearmFails
  {
    var w' := Broadcast(w, signal, rearmFails);
    if w.conns.Keys !! rearmFails {
      BroadcastDelivers(w, signal, rearmFails);
      DeliveredToAllTidy(w, signal, w', pending);
    } else {
      var t :| t in w.conns && t in rearmFails;
      BroadcastSlots(w, signal, rearmFails);
      assert SlotOk(w, t) && SlotTidy(w, t, pending);
      BroadcastHangsUp(w, signal, rearmFails, t);
      HungUpIsUntidy(w', t, pending);
    }
  }

  /** Arming a connection again keeps the loop tidy exactly when it succeeds. */
  lemma ScheduleTidyIff(w: Loop, t: nat, fails: bool, pending: set<nat>)
    requires TidyExcept(w, t, pending) && t in w.conns && Alive(w.conns[t])
    requires !w.panicked && !Schedule(w, t, fails).panicked
    ensures TidyLoop(Schedule(w, t, fails), pending) <==> !fails
  {
    if fails {
      IoErrorEnds(w.settings, w.conns[t], None);
      HungUpIsUntidy(Schedule(w, t, true), t, pending);
    } else {
      ArmTidy(w, t, pending);
    }
  }

  lemma TidyIsTidyExcept(w: Loop, t: nat, pending: set<nat>)
    requires TidyLoop(w, pending)
    ensures TidyExcept(w, t, pending)
  {
  }

  /** An addressed message or close keeps the loop tidy exactly when rearming the connection at
      its token, if there is one, succeeds: a failure hangs it up and leaves it in the slab. */
  lemma AddressTidyIff(w: Loop, cmd: Command, env: Env, pending: set<nat>)
    requires Inv(w) && TidyLoop(w, pending) && !w.panicked && !Address(w, cmd, env).panicked
    ensures TidyLoop(Address(w, cmd, env), pending) <==> !(cmd.token in w.conns && cmd.token in env.rearmFails)
  {
    var t := cmd.token;
    if t in w.conns {
      assert SlotOk(w, t) && SlotTidy(w, t, pending);
      DeliveredInterest(w.settings, w.conns[t], cmd.signal);
      TidyIsTidyExcept(w, t, pending);
      PutTidy(w, t, Addressed(w, cmd), pending);
      ScheduleTidyIff(w.Put(t, Addressed(w, cmd)), t, t in env.rearmFails, pending);
    }
  }

  lemma ShutdownConnAlive(s: Settings, c: Conn)
    requires Good(s, c) && Alive(c)
    ensures Alive(ShutdownConn(c)) && ShutdownConn(c).output == c.output
  {
  }

  lemma ShutdownAllTidy(w: Loop, pending: set<nat>)
    requires Inv(w) && TidyLoop(w, pending)
    ensures ShutdownAll(w) == w.Panic() || TidyLoop(ShutdownAll(w), pending)
  {
    var w1 := ShutdownAll(w);
    ShutdownSlots(w);
    if w1 != w.Panic() {
      forall u | u in w.conns ensures Alive(w1.conns[u]) && w1.conns[u].output == w.conns[u].output {
        assert SlotOk(w, u) && SlotTidy(w, u, pending);
        ShutdownConnAlive(w.settings, w.conns[u]);
      }
      SameOutputTidy(w, w1, pending);
    }
  }

  lemma ShutdownForTidyIff(w: Loop, t: nat, fails: bool, pending: set<nat>)
    requires Inv(w) && TidyLoop(w, pending) && !w.panicked && !ShutdownFor(w, t, fails).panicked
    ensures TidyLoop(ShutdownFor(w, t, fails), pending) <==> !(t in w.conns && fails)
  {
    var w1 := ShutdownAll(w);
    ShutdownAllTidy(w, pending);
    ShutdownSlots(w);
    if !w1.panicked && t in w1.conns {
      assert SlotTidy(w1, t, pending);
      TidyIsTidyExcept(w1, t, pending);
      ScheduleTidyIff(w1, t, fails, pending);
    }
  }

  /** Replacing one connection by a live one with the same output. */
  lemma PutSameOutputTidy(w: Loop, t: nat, c: Conn, pending: set<nat>)
    requires TidyLoop(w, pending) && t in w.conns && Alive(c) && c.output == w.conns[t].output
    ensures TidyLoop(w.Put(t, c), pending)
  {
    var w' := w.Put(t, c);
    forall u | u in w'.conns ensures SlotTidy(w', u, pending) {
      assert SlotTidy(w, u, pending);
    }
  }

  /** Reporting an error to a live connection keeps the loop tidy exactly when it does not hang it up. */
  lemma ReportTidyIff(w: Loop, t: nat, kind: Kind, pending: set<nat>)
    requires TidyLoop(w, pending) && t in w.conns && !Error(w.settings, w.conns[t], kind).panicked
    ensures TidyLoop(w.Put(t, Error(w.settings, w.conns[t], kind)), pending) <==> !HangsUpOn(kind)
  {
    var c := Error(w.settings, w.conns[t], kind);
    assert SlotTidy(w, t, pending);
    if HangsUpOn(kind) {
      HangsUp(w.settings, w.conns[t], kind);
      HungUpIsUntidy(w.Put(t, c), t, pending);
    } else {
      ErrorClosesAlive(w.settings, w.conns[t], kind);
      ErrorKeepsOutput(w.settings, w.conns[t], kind);
      PutSameOutputTidy(w, t, c, pending);
    }
  }

  lemma HangsUp(s: Settings, c: Conn, kind: Kind)
    requires Alive(c) && HangsUpOn(kind)
    ensures var c' := Error(s, c, kind); c'.panicked || Ended(c')
  {
  }

  /** A connect from the server breaks it by a client that cannot be registered; one from the sender of
      the connection at t also by a failing set_nodelay, which hangs up that connection instead. */
  predicate ConnectBreaks(w: Loop, ofServer: bool, t: nat, env: Env) {
    Answered(w, env) && if MayDrop(w.settings, env) then !ofServer && t in w.conns else env.registerFails
  }

  lemma ConnectForTidyIff(w: Loop, t: nat, url: string, env: Env, pending: set<nat>)
    requires Inv(w) && TidyLoop(w, pending) && !w.panicked && !ConnectFor(w, t, url, env).panicked
    ensures TidyLoop(ConnectFor(w, t, url, env), pending) <==> !ConnectBreaks(w, false, t, env)
  {
    var (w1, r) := ConnectTo(w, url, env);
    ConnectToTidyExactly(w, url, env, pending);
    if TidyLoop(w1, pending) {
      if r.Fail? && t in w1.conns {
        ReportTidyIff(w1, t, r.error, pending);
      }
    } else {
      RegistrationLost(w, url, env);
      ReportKeepsLog(w, t, url, env);
    }
  }

  /** A client whose registration fails is removed without having been hung up, and no report to
      another connection mends that. */
  lemma RegistrationLost(w: Loop, url: string, env: Env)
    requires Inv(w) && Answered(w, env) && !MayDrop(w.settings, env) && env.registerFails
    ensures !RetiredTidy(ConnectTo(w, url, env).0)
  {
    var i := PickAddress(env, |env.resolved.value|);
    var c := NewClient(w, url, env, env.resolved.value[..i.value]).0;
    NewClientInserts(w, url, env, env.resolved.value[..i.value]);
    assert ConnectTo(w, url, env).0.log.retired[c.handler] == c && !Ended(c);
  }

  lemma ReportKeepsLog(w: Loop, t: nat, url: string, env: Env)
    ensures ConnectFor(w, t, url, env).log == ConnectTo(w, url, env).0.log
  {
  }

  lemma ConnectForAllTidyIff(w: Loop, url: string, env: Env, pending: set<nat>)
    requires Inv(w) && TidyLoop(w, pending) && !w.panicked && !ConnectForAll(w, url, env).panicked
    ensures TidyLoop(ConnectForAll(w, url, env), pending) <==> !ConnectBreaks(w, true, 0, env)
  {
    ConnectToTidyExactly(w, url, env, pending);
  }

  /** The connection at t would be hung up for what on_new_timeout returns. */
  predicate TimeoutHangsUp(w: Loop, t: nat, env: Env) {
    !env.timerFails && t in w.conns && t in env.onNewTimeout && HangsUpOn(env.onNewTimeout[t])
  }

  lemma SetTimeout1Tidy(s: Settings, c: Conn, event: nat, reply: Option<Kind>)
    requires Good(s, c) && Alive(c)
    ensures var c' := SetTimeout1(s, c, event, reply);
      c'.panicked || if reply.Some? && HangsUpOn(reply.value) then Ended(c') else Alive(c') && c'.output == c.output
  {
    var c1 := c.Called(OnNewTimeout(event));
    assert Alive(c1);
    if reply.Some? {
      if HangsUpOn(reply.value) {
        HangsUp(s, c1, reply.value);
      } else {
        ErrorClosesAlive(s, c1, reply.value);
        ErrorKeepsOutput(s, c1, reply.value);
      }
    }
  }

  lemma SetTimeoutOneTidyIff(w: Loop, t: nat, event: nat, env: Env, pending: set<nat>)
    requires Inv(w) && TidyLoop(w, pending) && !w.panicked && !SetTimeoutOne(w, t, event, env).panicked
    ensures TidyLoop(SetTimeoutOne(w, t, event, env), pending) <==> !TimeoutHangsUp(w, t, env)
  {
    if t in w.conns {
      assert SlotOk(w, t) && SlotTidy(w, t, pending);
      if env.timerFails {
        ReportTidyIff(w, t, Timer, pending);
      } else {
        var c := SetTimeout1(w.settings, w.conns[t], event, ReplyOf(env, t));
        SetTimeout1Tidy(w.settings, w.conns[t], event, ReplyOf(env, t));
        if TimeoutHangsUp(w, t, env) {
          HungUpIsUntidy(w.Put(t, c), t, pending);
        } else {
          PutSameOutputTidy(w, t, c, pending);
        }
      }
    }
  }

  lemma SetTimeoutAllTidyIff(w: Loop, event: nat, env: Env, pending: set<nat>)
    requires Inv(w) && TidyLoop(w, pending) && !w.panicked && !SetTimeoutAll(w, event, env).panicked
    ensures TidyLoop(SetTimeoutAll(w, event, env), pending) <==> forall t | t in w.conns :: !TimeoutHangsUp(w, t, env)
  {
    var w' := SetTimeoutAll(w, event, env);
    if !env.timerFails {
      SetTimeoutAllSlots(w, event, env);
      TimeoutConnsAt(w, event, env);
      if t :| t in w.conns && TimeoutHangsUp(w, t, env) {
        assert SlotOk(w, t) && SlotTidy(w, t, pending);
        SetTimeout1Tidy(w.settings, w.conns[t], event, ReplyOf(env, t));
        HungUpIsUntidy(w', t, pending);
      } else {
        forall u | u in w.conns ensures Alive(w'.conns[u]) && w'.conns[u].output == w.conns[u].output {
          assert SlotOk(w, u) && SlotTidy(w, u, pending);
          assert !TimeoutHangsUp(w, u, env);
          SetTimeout1Tidy(w.settings, w.conns[u], event, ReplyOf(env, u));
        }
        SameOutputTidy(w, w', pending);
      }
    }
  }

  lemma TimeoutConnsAt(w: Loop, event: nat, env: Env)
    ensures var conns := TimeoutConns(w, event, env);
      conns.Keys == w.conns.Keys &&
      forall t | t in w.conns :: conns[t] == SetTimeout1(w.settings, w.conns[t], event, ReplyOf(env, t))
  {
  }

  lemma SetTimeoutAllSlots(w: Loop, event: nat, env: Env)
    requires !w.panicked && !env.timerFails
    ensures var w', conns := SetTimeoutAll(w, event, env), TimeoutConns(w, event, env);
      w'.panicked || (w' == w.(conns := conns) && forall t | t in conns :: !conns[t].panicked)
  {
  }

  // ---------- gentle environments ----------

  /** What the environment must answer for a command to keep the loop tidy: the connections the
      command has rearmed are, a client it makes is registered, and on_new_timeout hangs none up.
      A connect from a connection's own sender must not fail in set_nodelay either. */
  predicate GentleCommand(w: Loop, cmd: Command, env: Env) {
    var t, all := cmd.token, cmd.token == ALL;
    t == SYSTEM ||
    match cmd.signal
    case Message(_) => if all then w.conns.Keys !! env.rearmFails else !(t in w.conns && t in env.rearmFails)
    case Close => if all then w.conns.Keys !! env.rearmFails else !(t in w.conns && t in env.rearmFails)
    case Shutdown => if all then w.conns.Keys !! env.rearmFails else !(t in w.conns && t in env.rearmFails)
    case Connect(_) => !ConnectBreaks(w, all, t, env)
    case Timeout(_) => if all then forall u | u in w.conns :: !TimeoutHangsUp(w, u, env) else !TimeoutHangsUp(w, t, env)
    case Cancel => true
  }

  /** And for an event: a socket accepted is registered, unless an event for its slab key is still to
      come in the batch. Events on connections and timers may meet any environment. */
  predicate Gentle(w: Loop, e: Event, rest: set<nat>) {
    && (e.token == ALL && e.kind.readable && e.env.accepts ==> !AcceptsUnarmed(w, e.env, rest))
    && (e.token == QUEUE && w.queue + e.env.arrivals != [] ==>
          GentleCommand(w, (w.queue + e.env.arrivals)[0], e.env))
  }

  predicate GentleBatch(w: Loop, batch: seq<Event>)
    decreases |batch|
  {
    batch == [] || w.panicked ||
    (Gentle(w, batch[0], Tokens(batch[1..])) && GentleBatch(HandleEvent(w, batch[0]), batch[1..]))
  }

  predicate GentleRun(w: Loop, polls: seq<PollResult>)
    decreases |polls|
  {
    polls == [] || !Running(w) ||
    ((polls[0].Ready? ==> GentleBatch(Polled(w, polls[0].batch), polls[0].batch))
        && GentleRun(Turn(w, polls[0]), polls[1..]))
  }

  lemma ShutdownForAllTidyIff(w: Loop, env: Env, pending: set<nat>)
    requires Inv(w) && TidyLoop(w, pending) && !w.panicked && !ShutdownForAll(w, env).panicked
    ensures TidyLoop(ShutdownForAll(w, env), pending) <==> w.conns.Keys !! env.rearmFails
  {
    var w1 := Broadcast(w, Shutdown, env.rearmFails);
    BroadcastTidyIff(w, Shutdown, env.rearmFails, pending);
    StoppedTidyIff(w1, pending);
  }

  lemma StoppedTidyIff(w: Loop, pending: set<nat>)
    ensures TidyLoop(Stopped(w), pending) <==> TidyLoop(w, pending)
  {
    if TidyLoop(w, pending) {
      SameSlotsTidy(w, Stopped(w), pending);
    }
    if TidyLoop(Stopped(w), pending) {
      SameSlotsTidy(Stopped(w), w, pending);
    }
  }

  lemma HandleAllTidyIff(w: Loop, cmd: Command, env: Env, pending: set<nat>)
    requires Inv(w) && TidyLoop(w, pending) && !w.panicked && !HandleAll(w, cmd.signal, env).panicked
    requires cmd.token == ALL
    ensures TidyLoop(HandleAll(w, cmd.signal, env), pending) <==> GentleCommand(w, cmd, env)
  {
    match cmd.signal {
      case Message(_) => BroadcastTidyIff(w, cmd.signal, env.rearmFails, pending);
      case Close => BroadcastTidyIff(w, cmd.signal, env.rearmFails, pending);
      case Shutdown => ShutdownForAllTidyIff(w, env, pending);
      case Connect(url) => ConnectForAllTidyIff(w, url, env, pending);
      case Timeout(event) => SetTimeoutAllTidyIff(w, event, env, pending);
      case Cancel =>
    }
  }

  lemma HandleOneTidyIff(w: Loop, cmd: Command, env: Env, pending: set<nat>)
    requires Inv(w) && TidyLoop(w, pending) && !w.panicked && !HandleOne(w, cmd, env).panicked
    requires cmd.token != ALL && cmd.token != SYSTEM
    ensures TidyLoop(HandleOne(w, cmd, env), pending) <==> GentleCommand(w, cmd, env)
  {
    match cmd.signal {
      case Message(_) => AddressTidyIff(w, cmd, env, pending);
      case Close => AddressTidyIff(w, cmd, env, pending);
      case Shutdown => ShutdownForTidyIff(w, cmd.token, cmd.token in env.rearmFails, pending);
      case Connect(url) => ConnectForTidyIff(w, cmd.token, url, env, pending);
      case Timeout(event) => SetTimeoutOneTidyIff(w, cmd.token, event, env, pending);
      case Cancel =>
    }
  }

  lemma HandleQueueTidyIff(w: Loop, cmd: Command, env: Env, pending: set<nat>)
    requires Inv(w) && TidyLoop(w, pending) && !w.panicked && !HandleQueue(w, cmd, env).panicked
    ensures TidyLoop(HandleQueue(w, cmd, env), pending) <==> GentleCommand(w, cmd, env)
  {
    if cmd.token == SYSTEM {
    } else if cmd.token == ALL {
      HandleAllTidyIff(w, cmd, env, pending);
    } else {
      HandleOneTidyIff(w, cmd, env, pending);
    }
  }

  lemma HandleNextTidyIff(w: Loop, env: Env, pending: set<nat>)
    requires Inv(w) && TidyLoop(w, pending) && !w.panicked && !HandleNext(w, env).panicked
    ensures TidyLoop(HandleNext(w, env), pending) <==> w.queue == [] || GentleCommand(w, w.queue[0], env)
  {
    if w.queue != [] {
      var w1, cmd := Dequeued(w), w.queue[0];
      SameConnsSafe(w, w1);
      SameSlotsTidy(w, w1, pending);
      HandleQueueTidyIff(w1, cmd, env, pending);
    }
  }

  // ---------- events, batches and runs ----------

  lemma HandleListenerTidyIff(w: Loop, kind: Interest, env: Env, pending: set<nat>)
    requires Inv(w) && TidyLoop(w, pending) && !w.panicked && !HandleListener(w, kind, env).panicked
    ensures TidyLoop(HandleListener(w, kind, env), pending) <==>
            !(kind.readable && env.accepts && AcceptsUnarmed(w, env, pending))
  {
    if kind.readable && env.accepts && !SlabFull(w) && !MayDrop(w.settings, env) {
      AdmittedTidyExactly(w, env, pending);
    }
  }

  /** Before an event is handled: what arrives changes nothing, and the event leaves the batch. */
  lemma ArrivedTidy(w: Loop, e: Event, rest: set<nat>)
    requires Inv(w) && TokensFit(w.settings) && TidyLoop(w, {e.token} + rest)
    ensures var w1 := Arrived(w, e.env);
      && Inv(w1) && TidyLoop(w1, {e.token} + rest)
      && (e.token == ALL || e.token == TIMER || e.token == QUEUE ==> TidyLoop(w1, rest))
  {
    var w1 := Arrived(w, e.env);
    SameConnsSafe(w, w1);
    SameSlotsTidy(w, w1, {e.token} + rest);
    TakeFromBatch(w1, e.token, rest);
    TokensAreOrdinary(w1);
  }

  /** Each event keeps every connection live and watched, counting the events still in the batch, and
      every removed one hung up just once, exactly when the environment is gentle to it. */
  lemma HandleEventTidyIff(w: Loop, e: Event, rest: set<nat>)
    requires Inv(w) && TokensFit(w.settings) && TidyLoop(w, {e.token} + rest)
    requires !w.panicked && !HandleEvent(w, e).panicked
    ensures TidyLoop(HandleEvent(w, e), rest) <==> Gentle(w, e, rest)
  {
    var w1 := Arrived(w, e.env);
    ArrivedTidy(w, e, rest);
    if e.token == ALL {
      HandleListenerTidyIff(w1, e.kind, e.env, rest);
    } else if e.token == TIMER {
      HandleTimersTidy(w1, e.env.timers, rest);
    } else if e.token == QUEUE {
      QueueEventTidyIff(w, e, rest);
    } else if e.token in w1.conns {
      HandleConnTidy(w1, e.token, e.kind, e.env, rest);
    }
  }

  lemma QueueEventTidyIff(w: Loop, e: Event, rest: set<nat>)
    requires e.token == QUEUE && !w.panicked && !HandleEvent(w, e).panicked
    requires Inv(Arrived(w, e.env)) && TidyLoop(Arrived(w, e.env), rest)
    ensures TidyLoop(HandleEvent(w, e), rest) <==> Gentle(w, e, rest)
  {
    HandleNextTidyIff(Arrived(w, e.env), e.env, rest);
  }

  /** Tidy after each event of a batch, and after each batch of a run. */
  ghost predicate TidyBatch(w: Loop, batch: seq<Event>)
    decreases |batch|
  {
    TidyLoop(w, Tokens(batch)) && (batch == [] || w.panicked || TidyBatch(HandleEvent(w, batch[0]), batch[1..]))
  }

  ghost predicate TidyRun(w: Loop, polls: seq<PollResult>)
    decreases |polls|
  {
    TidyLoop(w, {}) &&
    (polls == [] || !Running(w) ||
     ((polls[0].Ready? ==> TidyBatch(Polled(w, polls[0].batch), polls[0].batch))
         && TidyRun(Turn(w, polls[0]), polls[1..])))
  }

  lemma {:induction false} HandleEventsTidyIff(w: Loop, batch: seq<Event>)
    requires Inv(w) && TokensFit(w.settings) && TidyLoop(w, Tokens(batch)) && !HandleEvents(w, batch).panicked
    ensures TidyBatch(w, batch) <==> GentleBatch(w, batch)
    ensures TidyBatch(w, batch) ==> TidyLoop(HandleEvents(w, batch), {})
    decreases |batch|
  {
    if batch == [] {
      assert Tokens(batch) == {};
    } else {
      var e, rest, w1 := batch[0], batch[1..], HandleEvent(w, batch[0]);
      assert batch == [e] + rest;
      assert Tokens(batch) == {e.token} + Tokens(rest);
      HandleEventTidyIff(w, e, Tokens(rest));
      HandleEventSafe(w, e);
      if TidyLoop(w1, Tokens(rest)) {
        HandleEventsTidyIff(w1, rest);
      }
    }
  }

  /** Poll disarms exactly the registrations whose events it reports. */
  lemma PolledTidy(w: Loop, batch: seq<Event>)
    requires TidyLoop(w, {})
    ensures TidyLoop(Polled(w, batch), Tokens(batch))
  {
    var w1 := Polled(w, batch);
    forall u | u in w1.conns ensures SlotTidy(w1, u, Tokens(batch)) {
      assert SlotTidy(w, u, {});
    }
  }

  lemma BatchTidyIff(w: Loop, batch: seq<Event>)
    requires Inv(w) && TokensFit(w.settings) && TidyLoop(w, {}) && !HandleEvents(Polled(w, batch), batch).panicked
    ensures TidyBatch(Polled(w, batch), batch) <==> GentleBatch(Polled(w, batch), batch)
    ensures TidyBatch(Polled(w, batch), batch) ==> TidyLoop(HandleEvents(Polled(w, batch), batch), {})
  {
    SameConnsSafe(w, Polled(w, batch));
    PolledTidy(w, batch);
    HandleEventsTidyIff(Polled(w, batch), batch);
  }

  lemma TurnTidyIff(w: Loop, p: PollResult)
    requires Inv(w) && TokensFit(w.settings) && TidyLoop(w, {}) && !w.panicked && !Turn(w, p).panicked && p.Ready?
    ensures var w1 := Polled(w, p.batch); TidyBatch(w1, p.batch) <==> GentleBatch(w1, p.batch)
    ensures TidyBatch(Polled(w, p.batch), p.batch) ==> TidyLoop(Turn(w, p), {})
  {
    BatchTidyIff(w, p.batch);
    var w2 := HandleEvents(Polled(w, p.batch), p.batch);
    if TidyLoop(w2, {}) {
      SameSlotsTidy(w2, Settle(w2), {});
    }
  }

  lemma IdleTurnTidy(w: Loop, p: PollResult)
    requires TidyLoop(w, {}) && !p.Ready?
    ensures TidyLoop(Turn(w, p), {})
  {
    IdleTurnSame(w, p);
    SameSlotsTidy(w, Turn(w, p), {});
  }

  lemma PanicEndsRun(w: Loop, p: PollResult, polls: seq<PollResult>)
    requires Turn(w, p).panicked
    ensures Run(Turn(w, p), polls).panicked
  {
  }

  /** A run that does not panic is tidy after every event exactly when its environment is gentle
      throughout. */
  lemma {:induction false} RunTidyIff(w: Loop, polls: seq<PollResult>)
    requires Inv(w) && TokensFit(w.settings) && TidyLoop(w, {}) && !Run(w, polls).panicked
    ensures TidyRun(w, polls) <==> GentleRun(w, polls)
    ensures TidyRun(w, polls) ==> TidyLoop(Run(w, polls), {})
    decreases |polls|
  {
    if polls != [] && Running(w) {
      var p, w1 := polls[0], Turn(w, polls[0]);
      TurnSafe(w, p, 0, 0);
      if w1.panicked {
        PanicEndsRun(w, p, polls[1..]);
      }
      if p.Ready? {
        TurnTidyIff(w, p);
      } else {
        IdleTurnTidy(w, p);
      }
      if TidyLoop(w1, {}) {
        RunTidyIff(w1, polls[1..]);
      }
    }
  }

  /** No lost write wakeup: whenever a gentle run returns to poll, every live connection with
      unsent bytes has write interest, and is armed with it. */
  lemma NoLostWakeup(s: Settings, listening: bool, polls: seq<PollResult>, t: nat)
    requires TokensFit(s) && GentleRun(Initial(s, listening), polls)
    requires var w := Run(Initial(s, listening), polls); !w.panicked && t in w.conns
    ensures var w := Run(Initial(s, listening), polls);
      && t in w.armed
      && (w.conns[t].Unsent() != [] ==> w.conns[t].events.writable && w.armed[t].writable)
  {
    InitialInv(s, listening);
    RunTidyIff(Initial(s, listening), polls);
    assert SlotTidy(Run(Initial(s, listening), polls), t, {});
  }

  /** Exactly-once teardown: in a gentle run on_close has not been called for a connection in the
      slab, and was the last call, made once, for every connection removed from it, whose handler
      the factory then got back once. */
  lemma TeardownOnce(s: Settings, listening: bool, polls: seq<PollResult>)
    requires TokensFit(s) && GentleRun(Initial(s, listening), polls)
    requires !Run(Initial(s, listening), polls).panicked
    ensures var w := Run(Initial(s, listening), polls);
      && (forall t | t in w.conns :: Closes(w.conns[t]) == 0)
      && (forall h | h in w.log.retired ::
            Ended(w.log.retired[h]) && Closes(w.log.retired[h]) == 1 && multiset(w.log.lost)[h] == 1)
  {
    var w := Run(Initial(s, listening), polls);
    InitialInv(s, listening);
    RunTidyIff(Initial(s, listening), polls);
    RunSafe(Initial(s, listening), polls, 0, 0);
    forall t | t in w.conns ensures Closes(w.conns[t]) == 0 {
      assert SlotTidy(w, t, {});
      LiveOrEndedCloses(w.conns[t]);
    }
    forall h | h in w.log.retired ensures Ended(w.log.retired[h]) && Closes(w.log.retired[h]) == 1
        && multiset(w.log.lost)[h] == 1 {
      LiveOrEndedCloses(w.log.retired[h]);
      assert RetiredSlotOk(w, h);
      LostOnce(w, h);
    }
  }

  lemma LostOnce(w: Loop, h: nat)
    requires Conserved(w) && h in w.log.lost
    ensures multiset(w.log.lost)[h] == 1
  {
  }

  // ---------- where the environment is not gentle ----------

  lemma IoErrorCloses(s: Settings, c: Conn)
    requires Settled(c) && !s.panicOnIo && !c.panicked
    ensures var c' := Error(s, c, Io(None)); !c'.panicked && Closes(c') == Closes(c) + 1
  {
  }

  lemma DeliveryCloses(s: Settings, c: Conn)
    requires Settled(c) && !c.panicked
    ensures var c' := Reported(s, Deliver1(s, c, Close)); Settled(c') && !c'.panicked && Closes(c') == Closes(c)
  {
  }

  /** Each close addressed to a token whose connection cannot be rearmed hangs that connection up once
      more, and leaves it in the slab. */
  lemma EachFailedCloseHangsUp(w: Loop, cmd: Command, env: Env)
    requires Inv(w) && !w.panicked && !w.settings.panicOnIo && cmd.signal.Close?
    requires cmd.token in w.conns && cmd.token in env.rearmFails && cmd.token != ALL && cmd.token != SYSTEM
    ensures var t, w' := cmd.token, HandleQueue(w, cmd, env);
      && Inv(w') && !w'.panicked && w'.settings == w.settings
      && t in w'.conns && Closes(w'.conns[t]) == Closes(w.conns[t]) + 1
  {
    var t := cmd.token;
    assert SlotOk(w, t);
    DeliveryCloses(w.settings, w.conns[t]);
    IoErrorCloses(w.settings, Addressed(w, cmd));
    AddressSafe(w, cmd, env);
  }

  /** So in a tidy loop two closes in a row for one connection, with both rearmings failing, call
      on_close for it twice. */
  lemma HungUpTwice(w: Loop, first: Command, second: Command, env: Env, env': Env, pending: set<nat>)
    requires Inv(w) && TidyLoop(w, pending) && !w.panicked && !w.settings.panicOnIo
    requires first.signal.Close? && second.signal.Close? && first.token == second.token
    requires var t := first.token;
      t in w.conns && t in env.rearmFails && t in env'.rearmFails && t != ALL && t != SYSTEM
    ensures var w1, t := HandleQueue(w, first, env), first.token;
      var w2 := HandleQueue(w1, second, env');
      !w2.panicked && t in w2.conns && Closes(w.conns[t]) == 0 && Closes(w2.conns[t]) == 2
  {
    assert SlotTidy(w, first.token, pending);
    LiveOrEndedCloses(w.conns[first.token]);
    EachFailedCloseHangsUp(w, first, env);
    EachFailedCloseHangsUp(HandleQueue(w, first, env), second, env');
  }
}
