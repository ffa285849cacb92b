// The steps that walk the whole slab, split into the walks the loop makes.
module LoopPhases {
  import opened Types
  import opened ConnectionSpec
  import opened LoopSpec

  /** What one walk over the slab does to every connection it passes. */
  datatype Task =
    | Deliver(signal: Signal)
    | Tell(errors: map<nat, Kind>)
    | SetTimeouts(event: nat, replies: map<nat, Kind>)

  function Done(s: Settings, task: Task, t: nat, c: Conn): (Conn, Outcome) {
    match task
    case Deliver(signal) => Deliver1(s, c, signal)
    case Tell(errors) => (if t in errors then Error(s, c, errors[t]) else c, Pass)
    case SetTimeouts(event, replies) =>
      (SetTimeout1(s, c, event, if t in replies then Some(replies[t]) else None), Pass)
  }

  /** The connections when those in todo have not been passed yet. */
  ghost function Partly(s: Settings, conns: map<nat, Conn>, task: Task, todo: set<nat>): map<nat, Conn> {
    map t | t in conns :: if t in todo then conns[t] else Done(s, task, t, conns[t]).0
  }

  /** The failures met among those passed. */
  ghost function Failures(s: Settings, conns: map<nat, Conn>, task: Task, todo: set<nat>): map<nat, Kind> {
    map t | t in conns && t !in todo && Done(s, task, t, conns[t]).1.Fail? :: Done(s, task, t, conns[t]).1.error
  }

  ghost predicate SomePanics(s: Settings, conns: map<nat, Conn>, task: Task) {
    exists t | t in conns :: Done(s, task, t, conns[t]).0.panicked
  }

  /** The loop after a whole walk. */
  ghost function AllDone(w: Loop, task: Task): Loop {
    if SomePanics(w.settings, w.conns, task) then w.Panic()
    else w.(conns := Partly(w.settings, w.conns, task, {}))
  }

  /** One connection further. */
  lemma PartlyStep(s: Settings, conns: map<nat, Conn>, task: Task, todo: set<nat>, t: nat)
    requires t in conns && t in todo
    ensures Partly(s, conns, task, todo)[t] == conns[t]
    ensures Partly(s, conns, task, todo - {t}) == Partly(s, conns, task, todo)[t := Done(s, task, t, conns[t]).0]
    ensures var r := Done(s, task, t, conns[t]).1;
      Failures(s, conns, task, todo - {t}) ==
        if r.Fail? then Failures(s, conns, task, todo)[t := r.error] else Failures(s, conns, task, todo)
  {
  }

  lemma PartlyStart(s: Settings, conns: map<nat, Conn>, task: Task)
    ensures Partly(s, conns, task, conns.Keys) == conns
    ensures Failures(s, conns, task, conns.Keys) == map[]
  {
  }

  lemma WalkPanics(w: Loop, task: Task, t: nat)
    requires t in w.conns && Done(w.settings, task, t, w.conns[t]).0.panicked
    ensures AllDone(w, task).panicked
  {
  }

  lemma WalkEnds(w: Loop, task: Task, conns: map<nat, Conn>)
    requires conns == Partly(w.settings, w.conns, task, {}) && forall t | t in conns :: !conns[t].panicked
    ensures AllDone(w, task) == w.(conns := conns)
  {
    forall t | t in w.conns ensures !Done(w.settings, task, t, w.conns[t]).0.panicked {
      assert !conns[t].panicked;
    }
  }

  /** A walk that does not panic adds and removes no connection, and leaves each as its task does. */
  lemma WalkKeys(w: Loop, task: Task)
    requires !w.panicked && !AllDone(w, task).panicked
    ensures AllDone(w, task).conns.Keys == w.conns.Keys && AllDone(w, task).settings == w.settings
  {
  }

  lemma WalkSlot(w: Loop, task: Task, t: nat, c: Conn)
    requires !w.panicked && !AllDone(w, task).panicked && t in w.conns
    requires Done(w.settings, task, t, w.conns[t]).0 == c
    ensures t in AllDone(w, task).conns && AllDone(w, task).conns[t] == c && !c.panicked
  {
  }

  /** Every connection whose rearming does not fail is armed with its present interest. */
  ghost function AllArmed(w: Loop, fails: set<nat>): Loop {
    w.(armed := w.armed + map t | t in w.conns && t !in fails :: w.conns[t].events)
  }

  /** The loop after the connections passed so far were armed. */
  ghost function ArmedSoFar(w: Loop, fails: set<nat>, todo: set<nat>): map<nat, Interest> {
    w.armed + map t | t in w.conns && t !in todo && t !in fails :: w.conns[t].events
  }

  /** The failures to rearm met among those passed. */
  ghost function UnarmedSoFar(w: Loop, fails: set<nat>, todo: set<nat>): map<nat, Kind> {
    map t | t in w.conns && t !in todo && t in fails :: Io(None)
  }

  lemma ArmedStart(w: Loop, fails: set<nat>)
    ensures ArmedSoFar(w, fails, w.conns.Keys) == w.armed
    ensures UnarmedSoFar(w, fails, w.conns.Keys) == map[]
  {
  }

  lemma ArmedEnd(w: Loop, fails: set<nat>)
    ensures w.(armed := ArmedSoFar(w, fails, {})) == AllArmed(w, fails)
    ensures UnarmedSoFar(w, fails, {}) == Unarmed(w, fails)
  {
  }

  lemma UnarmedStep(w: Loop, fails: set<nat>, todo: set<nat>, t: nat)
    requires t in w.conns && t in todo
    ensures UnarmedSoFar(w, fails, todo - {t}) ==
            if t in fails then UnarmedSoFar(w, fails, todo)[t := Io(None)] else UnarmedSoFar(w, fails, todo)
  {
  }

  lemma ArmedStep(w: Loop, fails: set<nat>, todo: set<nat>, t: nat)
    requires t in w.conns && t in todo
    ensures ArmedSoFar(w, fails, todo - {t}) ==
            if t in fails then ArmedSoFar(w, fails, todo) else ArmedSoFar(w, fails, todo)[t := w.conns[t].events]
  {
  }

  ghost function Unarmed(w: Loop, fails: set<nat>): map<nat, Kind> {
    map t | t in w.conns && t in fails :: Io(None)
  }

  // ---------- a broadcast in three walks ----------

  ghost function Refused(w: Loop, signal: Signal): map<nat, Kind> {
    Failures(w.settings, w.conns, Deliver(signal), {})
  }

  /** The walk that delivers, the walk that rearms, and the walk that reports refused deliveries. */
  ghost function DeliveredPhase(w: Loop, signal: Signal): Loop {
    AllDone(w, Deliver(signal))
  }

  ghost function ReportedPhase(w: Loop, signal: Signal, fails: set<nat>): Loop {
    AllDone(AllArmed(DeliveredPhase(w, signal), fails), Tell(Refused(w, signal)))
  }

  lemma DeliveredSlots(w: Loop, signal: Signal)
    requires !w.panicked && !DeliveredPhase(w, signal).panicked
    ensures var w1 := DeliveredPhase(w, signal);
      && w1 == w.(conns := w1.conns) && w1.conns.Keys == w.conns.Keys
      && forall t | t in w.conns :: w1.conns[t] == Deliver1(w.settings, w.conns[t], signal).0 && !w1.conns[t].panicked
  {
  }

  lemma RefusedSlot(w: Loop, signal: Signal, t: nat)
    requires t in w.conns
    ensures var d := Deliver1(w.settings, w.conns[t], signal);
      (t in Refused(w, signal) <==> d.1.Fail?) && (d.1.Fail? ==> Refused(w, signal)[t] == d.1.error)
  {
  }

  lemma DeliveredSlot(w: Loop, signal: Signal, t: nat)
    requires !w.panicked && !DeliveredPhase(w, signal).panicked && t in w.conns
    ensures var w1 := DeliveredPhase(w, signal);
      t in w1.conns && w1.conns[t] == Deliver1(w.settings, w.conns[t], signal).0 && !w1.conns[t].panicked
  {
  }

  lemma ReportedKeys(w: Loop, signal: Signal, fails: set<nat>)
    requires !w.panicked && !DeliveredPhase(w, signal).panicked && !ReportedPhase(w, signal, fails).panicked
    ensures var w3 := ReportedPhase(w, signal, fails); w3.conns.Keys == w.conns.Keys && w3.settings == w.settings
  {
    WalkKeys(w, Deliver(signal));
    WalkKeys(AllArmed(DeliveredPhase(w, signal), fails), Tell(Refused(w, signal)));
  }

  lemma ReportedSlot(w: Loop, signal: Signal, fails: set<nat>, t: nat)
    requires !w.panicked && !DeliveredPhase(w, signal).panicked && !ReportedPhase(w, signal, fails).panicked
    requires t in w.conns
    ensures var w3 := ReportedPhase(w, signal, fails);
      t in w3.conns && w3.conns[t] == Reported(w.settings, Deliver1(w.settings, w.conns[t], signal))
          && !w3.conns[t].panicked
  {
    DeliveredSlot(w, signal, t);
    RefusedSlot(w, signal, t);
    WalkKeys(w, Deliver(signal));
    WalkSlot(AllArmed(DeliveredPhase(w, signal), fails), Tell(Refused(w, signal)), t,
             Reported(w.settings, Deliver1(w.settings, w.conns[t], signal)));
  }

  /** One connection that panics makes the broadcast panic. */
  lemma OnePanics(w: Loop, signal: Signal, fails: set<nat>, t: nat)
    requires t in w.conns && Broadcast1(w.settings, w.conns[t], signal, t in fails).panicked
    ensures Broadcast(w, signal, fails).panicked
  {
    assert BroadcastConns(w, signal, fails)[t].panicked;
  }

  lemma DeliveryPanics(w: Loop, signal: Signal, fails: set<nat>)
    requires !w.panicked && DeliveredPhase(w, signal).panicked
    ensures Broadcast(w, signal, fails).panicked
  {
    var t :| t in w.conns && Done(w.settings, Deliver(signal), t, w.conns[t]).0.panicked;
    OnePanics(w, signal, fails, t);
  }

  lemma ReportPanics(w: Loop, signal: Signal, fails: set<nat>)
    requires !w.panicked && !DeliveredPhase(w, signal).panicked && ReportedPhase(w, signal, fails).panicked
    ensures Broadcast(w, signal, fails).panicked
  {
    DeliveredSlots(w, signal);
    var w2 := AllArmed(DeliveredPhase(w, signal), fails);
    var t :| t in w2.conns && Done(w.settings, Tell(Refused(w, signal)), t, w2.conns[t]).0.panicked;
    RefusedSlot(w, signal, t);
    OnePanics(w, signal, fails, t);
  }

  /** The last walk, which reports failures to rearm. */
  ghost function LastPhase(w: Loop, signal: Signal, fails: set<nat>): Loop {
    var w3 := ReportedPhase(w, signal, fails);
    AllDone(w3, Tell(Unarmed(w3, fails)))
  }

  /** Reporting refusals changes neither who is in the slab nor who could not be rearmed. */
  lemma UnarmedLater(w: Loop, signal: Signal, fails: set<nat>)
    requires !w.panicked && !DeliveredPhase(w, signal).panicked && !ReportedPhase(w, signal, fails).panicked
    ensures Unarmed(ReportedPhase(w, signal, fails), fails) == Unarmed(DeliveredPhase(w, signal), fails)
  {
    ReportedKeys(w, signal, fails);
    WalkKeys(w, Deliver(signal));
  }

  /** The last walk leaves a connection as the broadcast does. */
  lemma LastSlot(w: Loop, signal: Signal, fails: set<nat>, t: nat)
    requires !w.panicked && !DeliveredPhase(w, signal).panicked && !ReportedPhase(w, signal, fails).panicked
    requires t in w.conns
    ensures var w3 := ReportedPhase(w, signal, fails);
      && t in w3.conns && w3.settings == w.settings
      && Done(w.settings, Tell(Unarmed(w3, fails)), t, w3.conns[t]).0 == BroadcastConns(w, signal, fails)[t]
  {
    ReportedKeys(w, signal, fails);
    ReportedSlot(w, signal, fails, t);
  }

  /** A walk that panics panics at some connection. */
  lemma PanicWitness(w: Loop, task: Task) returns (t: nat)
    requires !w.panicked && AllDone(w, task).panicked
    ensures t in w.conns && Done(w.settings, task, t, w.conns[t]).0.panicked
  {
    t :| t in w.conns && Done(w.settings, task, t, w.conns[t]).0.panicked;
  }

  lemma BroadcastPanicsAt(w: Loop, signal: Signal, fails: set<nat>, t: nat, c: Conn)
    requires t in w.conns && c.panicked && c == BroadcastConns(w, signal, fails)[t]
    ensures Broadcast(w, signal, fails).panicked
  {
  }

  lemma LastPanics(w: Loop, signal: Signal, fails: set<nat>)
    requires !w.panicked && !DeliveredPhase(w, signal).panicked && !ReportedPhase(w, signal, fails).panicked
    requires LastPhase(w, signal, fails).panicked
    ensures Broadcast(w, signal, fails).panicked
  {
    var w3 := ReportedPhase(w, signal, fails);
    var t := PanicWitness(w3, Tell(Unarmed(w3, fails)));
    ReportedKeys(w, signal, fails);
    LastSlot(w, signal, fails, t);
    BroadcastPanicsAt(w, signal, fails, t, Done(w.settings, Tell(Unarmed(w3, fails)), t, w3.conns[t]).0);
  }

  lemma LastKeys(w: Loop, signal: Signal, fails: set<nat>)
    requires !w.panicked && !DeliveredPhase(w, signal).panicked && !ReportedPhase(w, signal, fails).panicked
    requires !LastPhase(w, signal, fails).panicked
    ensures LastPhase(w, signal, fails).conns.Keys == w.conns.Keys
  {
    var w3 := ReportedPhase(w, signal, fails);
    ReportedKeys(w, signal, fails);
    WalkKeys(w3, Tell(Unarmed(w3, fails)));
  }

  lemma LastSlotFine(w: Loop, signal: Signal, fails: set<nat>, t: nat)
    requires !w.panicked && !DeliveredPhase(w, signal).panicked && !ReportedPhase(w, signal, fails).panicked
    requires !LastPhase(w, signal, fails).panicked && t in w.conns
    ensures var w4, b := LastPhase(w, signal, fails), BroadcastConns(w, signal, fails);
      t in w4.conns && w4.conns[t] == b[t] && !b[t].panicked
  {
    var w3 := ReportedPhase(w, signal, fails);
    LastSlot(w, signal, fails, t);
    WalkSlot(w3, Tell(Unarmed(w3, fails)), t, BroadcastConns(w, signal, fails)[t]);
  }

  lemma SameMaps(a: map<nat, Conn>, b: map<nat, Conn>)
    requires a.Keys == b.Keys && forall t | t in a :: a[t] == b[t] && !b[t].panicked
    ensures a == b && forall t | t in b :: !b[t].panicked
  {
  }

  lemma LastConns(w: Loop, signal: Signal, fails: set<nat>)
    requires !w.panicked && !DeliveredPhase(w, signal).panicked && !ReportedPhase(w, signal, fails).panicked
    requires !LastPhase(w, signal, fails).panicked
    ensures var b := BroadcastConns(w, signal, fails);
      LastPhase(w, signal, fails).conns == b && forall t | t in b :: !b[t].panicked
  {
    var a, b := LastPhase(w, signal, fails).conns, BroadcastConns(w, signal, fails);
    LastKeys(w, signal, fails);
    forall t | t in a ensures a[t] == b[t] && !b[t].panicked {
      LastSlotFine(w, signal, fails, t);
    }
    SameMaps(a, b);
  }

  lemma LastArmed(w: Loop, signal: Signal, fails: set<nat>)
    requires !w.panicked && !DeliveredPhase(w, signal).panicked
    ensures AllArmed(DeliveredPhase(w, signal), fails).armed == BroadcastArmed(w, signal, fails)
  {
    DeliveredSlots(w, signal);
  }

  lemma LastRest(w: Loop, signal: Signal, fails: set<nat>)
    requires !w.panicked && !DeliveredPhase(w, signal).panicked && !ReportedPhase(w, signal, fails).panicked
    requires !LastPhase(w, signal, fails).panicked
    ensures var w1, w4 := DeliveredPhase(w, signal), LastPhase(w, signal, fails);
      w4 == w.(conns := w4.conns, armed := AllArmed(w1, fails).armed)
  {
    assert DeliveredPhase(w, signal) == w.(conns := DeliveredPhase(w, signal).conns) by { DeliveredSlots(w, signal); }
  }

  /** The three walks are the broadcast. */
  lemma BroadcastInPhases(w: Loop, signal: Signal, fails: set<nat>)
    requires !w.panicked && !DeliveredPhase(w, signal).panicked && !ReportedPhase(w, signal, fails).panicked
    ensures var w4, b := LastPhase(w, signal, fails), Broadcast(w, signal, fails);
      w4.panicked == b.panicked && (!w4.panicked ==> w4 == b)
  {
    if LastPhase(w, signal, fails).panicked {
      LastPanics(w, signal, fails);
    } else {
      LastConns(w, signal, fails);
      LastArmed(w, signal, fails);
      LastRest(w, signal, fails);
    }
  }

  // ---------- other walks ----------

  lemma PanicsAt(conns: map<nat, Conn>, t: nat)
    requires t in conns && conns[t].panicked
    ensures exists u | u in conns :: conns[u].panicked
  {
  }

  /** Telling every connection of a shutdown, then stopping. */
  lemma ShutdownIsWalk(w: Loop)
    requires !w.panicked
    ensures var w1, w' := AllDone(w, Deliver(Shutdown)), ShutdownAll(w);
      if w1.panicked || w.settings.panicOnShutdown then w'.panicked else w' == Stopped(w1)
  {
    var conns := ShutdownConns(w);
    if AllDone(w, Deliver(Shutdown)).panicked {
      var t := PanicWitness(w, Deliver(Shutdown));
      PanicsAt(conns, t);
    } else {
      assert conns == Partly(w.settings, w.conns, Deliver(Shutdown), {});
      forall t | t in conns ensures !conns[t].panicked {
        assert !Done(w.settings, Deliver(Shutdown), t, w.conns[t]).0.panicked;
      }
    }
  }

  /** Telling every connection of a timeout. */
  lemma SetTimeoutsIsWalk(w: Loop, event: nat, env: Env)
    requires !w.panicked && !env.timerFails
    ensures var w1, w' := AllDone(w, SetTimeouts(event, env.onNewTimeout)), SetTimeoutAll(w, event, env);
      w'.panicked == w1.panicked && (!w1.panicked ==> w' == w1)
  {
    var task := SetTimeouts(event, env.onNewTimeout);
    var conns := TimeoutConns(w, event, env);
    if AllDone(w, task).panicked {
      var t := PanicWitness(w, task);
      PanicsAt(conns, t);
    } else {
      assert conns == Partly(w.settings, w.conns, task, {});
      forall t | t in conns ensures !conns[t].panicked {
        assert !Done(w.settings, task, t, w.conns[t]).0.panicked;
      }
    }
  }
}
