// A broadcast is the same as sending to the connections one at a time, in any order.
module Broadcasts {
  import opened Types
  import opened ConnectionSpec
  import opened ConnectionProofs
  import opened LoopSpec
  import opened ConnectionSteps
  import opened LoopInvariant
  import opened LoopSafety

  /** Every connection in the slab once, in some order. */
  ghost predicate Enumerates(order: seq<nat>, conns: map<nat, Conn>) {
    && (forall i, j | 0 <= i < j < |order| :: order[i] != order[j])
    && (forall t :: t in order <==> t in conns)
  }

  predicate Sendable(signal: Signal) {
    signal.Message? || signal.Close?
  }

  /** A message or close put on the queue by the sender of the connection at t. */
  function Send1(w: Loop, t: nat, signal: Signal, env: Env): Loop
    requires t in w.conns
  {
    Address(w, Command(t, signal, w.conns[t].id), env)
  }

  /** Sends to the connections one at a time, in the order given, until one panics. */
  ghost function SendEach(w: Loop, order: seq<nat>, signal: Signal, env: Env): Loop
    decreases |order|
  {
    if order == [] || w.panicked || order[0] !in w.conns then w
    else SendEach(Send1(w, order[0], signal, env), order[1..], signal, env)
  }

  /** What a broadcast leaves of the connection at t. */
  function Told(w: Loop, t: nat, signal: Signal, env: Env): Conn
    requires t in w.conns
  {
    Broadcast1(w.settings, w.conns[t], signal, t in env.rearmFails)
  }

  /** One send does to its connection what a broadcast does to it, and nothing to another. */
  lemma OneSend(w: Loop, t: nat, signal: Signal, env: Env)
    requires t in w.conns && Sendable(signal) && !w.panicked
    ensures var w' := Send1(w, t, signal, env);
      && (w'.panicked <==> Told(w, t, signal, env).panicked)
      && (!w'.panicked ==> w'.settings == w.settings && w'.conns == w.conns[t := Told(w, t, signal, env)])
  {
    assert w.Put(t, Reported(w.settings, Deliver1(w.settings, w.conns[t], signal))).conns.Keys == w.conns.Keys;
  }

  /** A walk over part of the slab: each connection on it is told, or one of them panics. */
  ghost predicate ToldIn(w: Loop, order: seq<nat>, signal: Signal, env: Env, w': Loop)
    requires forall t | t in order :: t in w.conns
  {
    if w'.panicked then exists t :: t in order && Told(w, t, signal, env).panicked
    else && w'.conns.Keys == w.conns.Keys
         && (forall t | t in order :: !Told(w, t, signal, env).panicked)
         && (forall t | t in w.conns ::
               w'.conns[t] == if t in order then Told(w, t, signal, env) else w.conns[t])
  }

  /** One more connection, told before the others. */
  lemma ToldFirst(w: Loop, t: nat, rest: seq<nat>, signal: Signal, env: Env, w': Loop)
    requires t in w.conns && t !in rest && forall u | u in rest :: u in w.conns
    requires !Told(w, t, signal, env).panicked
    requires ToldIn(w.Put(t, Told(w, t, signal, env)), rest, signal, env, w')
    ensures ToldIn(w, [t] + rest, signal, env, w')
  {
    var w1 := w.Put(t, Told(w, t, signal, env));
    assert forall u | u in rest :: Told(w1, u, signal, env) == Told(w, u, signal, env);
    if w'.panicked {
      var u :| u in rest && Told(w1, u, signal, env).panicked;
      assert u in [t] + rest;
    }
  }

  lemma ToldDependsOnConns(a: Loop, b: Loop, order: seq<nat>, signal: Signal, env: Env, w': Loop)
    requires a.settings == b.settings && a.conns == b.conns && forall t | t in order :: t in a.conns
    requires ToldIn(a, order, signal, env, w')
    ensures ToldIn(b, order, signal, env, w')
  {
    assert forall t | t in order :: Told(b, t, signal, env) == Told(a, t, signal, env);
  }

  lemma {:induction false} SendEachTells(w: Loop, order: seq<nat>, signal: Signal, env: Env)
    requires Sendable(signal) && !w.panicked && (forall t | t in order :: t in w.conns)
    requires forall i, j | 0 <= i < j < |order| :: order[i] != order[j]
    ensures ToldIn(w, order, signal, env, SendEach(w, order, signal, env))
    decreases |order|
  {
    if order != [] {
      var t, rest := order[0], order[1..];
      var w1, w' := Send1(w, t, signal, env), SendEach(w, order, signal, env);
      assert order == [t] + rest;
      OneSend(w, t, signal, env);
      if w1.panicked {
        assert t in order;
      } else {
        SendEachTells(w1, rest, signal, env);
        ToldDependsOnConns(w1, w.Put(t, Told(w, t, signal, env)), rest, signal, env, w');
        ToldFirst(w, t, rest, signal, env, w');
      }
    }
  }

  /** In whatever order, and whichever rearmings fail, sending a message or a close to each
      connection by its own token and id leaves the connections that a broadcast leaves, and panics
      exactly when the broadcast does. */
  lemma BroadcastIsInTurn(w: Loop, order: seq<nat>, signal: Signal, env: Env)
    requires Sendable(signal) && !w.panicked && Enumerates(order, w.conns)
    ensures var all, each := Broadcast(w, signal, env.rearmFails), SendEach(w, order, signal, env);
      && (each.panicked <==> all.panicked)
      && (!all.panicked ==> each.conns == all.conns)
  {
    SendEachTells(w, order, signal, env);
    BroadcastTells(w, signal, env);
    SameOutcome(w, order, signal, env, Broadcast(w, signal, env.rearmFails), SendEach(w, order, signal, env));
  }

  lemma SameOutcome(w: Loop, order: seq<nat>, signal: Signal, env: Env, all: Loop, each: Loop)
    requires Enumerates(order, w.conns) && AllTold(w, signal, env, all) && ToldIn(w, order, signal, env, each)
    ensures each.panicked <==> all.panicked
    ensures !all.panicked ==> each.conns == all.conns
  {
    if all.panicked {
      var t :| t in w.conns && Told(w, t, signal, env).panicked;
      assert t in order;
    }
  }

  lemma BroadcastConnsTold(w: Loop, signal: Signal, env: Env)
    ensures var conns := BroadcastConns(w, signal, env.rearmFails);
      conns.Keys == w.conns.Keys && forall t | t in w.conns :: conns[t] == Told(w, t, signal, env)
  {
  }

  /** All told, unless one of them panicked. */
  ghost predicate AllTold(w: Loop, signal: Signal, env: Env, all: Loop) {
    if all.panicked then exists t :: t in w.conns && Told(w, t, signal, env).panicked
    else && all.conns.Keys == w.conns.Keys
         && forall t | t in w.conns :: all.conns[t] == Told(w, t, signal, env) && !Told(w, t, signal, env).panicked
  }

  lemma ToldConns(w: Loop, signal: Signal, env: Env, conns: map<nat, Conn>, all: Loop)
    requires conns.Keys == w.conns.Keys && forall t | t in w.conns :: conns[t] == Told(w, t, signal, env)
    requires all.panicked <==> exists t :: t in conns && conns[t].panicked
    requires !all.panicked ==> all.conns == conns
    ensures AllTold(w, signal, env, all)
  {
    if all.panicked {
      var t :| t in conns && conns[t].panicked;
      assert Told(w, t, signal, env).panicked;
    }
  }

  lemma BroadcastPanicsExactly(w: Loop, signal: Signal, rearmFails: set<nat>)
    requires !w.panicked
    ensures var all, conns := Broadcast(w, signal, rearmFails), BroadcastConns(w, signal, rearmFails);
      && (all.panicked <==> exists t :: t in conns && conns[t].panicked)
      && (!all.panicked ==> all.conns == conns)
  {
  }

  lemma BroadcastTells(w: Loop, signal: Signal, env: Env)
    requires !w.panicked
    ensures AllTold(w, signal, env, Broadcast(w, signal, env.rearmFails))
  {
    BroadcastConnsTold(w, signal, env);
    BroadcastPanicsExactly(w, signal, env.rearmFails);
    ToldConns(w, signal, env, BroadcastConns(w, signal, env.rearmFails), Broadcast(w, signal, env.rearmFails));
  }

  /** The three outcomes of a message for one connection, and nothing else, whatever rearming does. */
  ghost predicate Appended(c: Conn, msg: Bytes, c': Conn) {
    && c'.Unsent() == c.Unsent() + msg
    && c'.trace.accepted == c.trace.accepted + [msg]
    && c'.state == c.state
  }

  ghost predicate Ignored(c: Conn, c': Conn) {
    && c'.output == c.output && c'.trace.accepted == c.trace.accepted && c'.state == c.state
  }

  ghost predicate Refused(c: Conn, c': Conn) {
    && c'.output == c.output
    && c'.trace.accepted == c.trace.accepted
    && c'.state.AwaitingClose?
  }

  /** The handler is told of a refusal, then of a rearming that fails, and of nothing else. */
  ghost predicate CallsFit(c: Conn, refused: bool, rearmFails: bool, c': Conn) {
    var told := c.trace.calls + if refused then [OnError(Capacity)] else [];
    c'.trace.calls == told + if rearmFails then [OnError(Io(None)), OnClose] else []
  }

  /** Closing, it is ignored; out of room with growth off, it is refused, reported and closed;
      otherwise it is appended whole. */
  ghost predicate OneOutcome(s: Settings, c: Conn, msg: Bytes, rearmFails: bool, c': Conn) {
    var full := !s.outBufferGrow && |c.Unsent()| == c.output.cap;
    && (if c.state.IsClosing() then Ignored(c, c') else if full then Refused(c, c') else Appended(c, msg, c'))
    && CallsFit(c, !c.state.IsClosing() && full, rearmFails, c')
    && (rearmFails ==> c'.events == NOTHING)
  }

  /** What delivering a message gives, before a refusal is reported. */
  ghost predicate Delivery(s: Settings, c: Conn, msg: Bytes, d: (Conn, Outcome)) {
    && (d.1.Fail? <==> !c.state.IsClosing() && !s.outBufferGrow && |c.Unsent()| == c.output.cap)
    && (d.1.Fail? ==> d.1.error == Capacity)
    && (if c.state.IsClosing() || d.1.Fail? then d.0 == c else Appended(c, msg, d.0))
    && d.0.trace.calls == c.trace.calls
  }

  lemma SendMessageDelivers(s: Settings, c: Conn, msg: Bytes)
    ensures Delivery(s, c, msg, SendMessage(s, c, msg))
  {
    SendMessageCases(s, c, msg);
    SendMessageOutcome(s, c, msg);
  }

  lemma RefusalReported(s: Settings, c: Conn)
    requires Settled(c)
    ensures var c' := Error(s, c, Capacity);
      c'.panicked || (&& c'.output == c.output && c'.trace.accepted == c.trace.accepted && c'.state.AwaitingClose?
                      && c'.trace.calls == c.trace.calls + [OnError(Capacity)])
  {
  }

  lemma DeliveryOutcome(s: Settings, c: Conn, msg: Bytes, d: (Conn, Outcome))
    requires Settled(c) && Delivery(s, c, msg, d)
    ensures var c' := Reported(s, d); c'.panicked || (OneOutcome(s, c, msg, false, c') && Settled(c'))
  {
    if d.1.Fail? {
      RefusalReported(s, c);
    }
  }

  lemma DeliveredOutcome(s: Settings, c: Conn, msg: Bytes)
    requires Good(s, c)
    ensures var c' := Reported(s, Deliver1(s, c, Message(msg)));
      c'.panicked || (OneOutcome(s, c, msg, false, c') && Settled(c'))
  {
    SendMessageDelivers(s, c, msg);
    DeliveryOutcome(s, c, msg, SendMessage(s, c, msg));
  }

  lemma RearmFailure(s: Settings, c: Conn)
    requires Settled(c)
    ensures var c' := Error(s, c, Io(None));
      c'.panicked || (&& c'.output == c.output && c'.trace.accepted == c.trace.accepted && c'.state == c.state
                      && c'.trace.calls == c.trace.calls + [OnError(Io(None)), OnClose] && c'.events == NOTHING)
  {
  }

  lemma MessageOutcome(s: Settings, c: Conn, msg: Bytes, rearmFails: bool)
    requires Good(s, c)
    ensures var c' := Broadcast1(s, c, Message(msg), rearmFails);
      c'.panicked || OneOutcome(s, c, msg, rearmFails, c')
  {
    var c1 := Reported(s, Deliver1(s, c, Message(msg)));
    DeliveredOutcome(s, c, msg);
    if rearmFails && !c1.panicked {
      RearmFailure(s, c1);
      if !Error(s, c1, Io(None)).panicked {
        AfterRearmFailure(s, c, msg, c1, Error(s, c1, Io(None)));
      }
    }
  }

  /** A rearming that fails hangs up, and changes nothing else of the outcome. */
  lemma AfterRearmFailure(s: Settings, c: Conn, msg: Bytes, c1: Conn, c': Conn)
    requires OneOutcome(s, c, msg, false, c1)
    requires c'.output == c1.output && c'.trace.accepted == c1.trace.accepted && c'.state == c1.state
    requires c'.trace.calls == c1.trace.calls + [OnError(Io(None)), OnClose] && c'.events == NOTHING
    ensures OneOutcome(s, c, msg, true, c')
  {
  }

  /** A broadcast message gives each live connection exactly one outcome, whichever rearmings fail,
      and adds and removes no connection. */
  lemma BroadcastOutcomes(w: Loop, msg: Bytes, rearmFails: set<nat>)
    requires Inv(w) && !w.panicked
    ensures var w' := Broadcast(w, Message(msg), rearmFails);
      w'.panicked || (w'.conns.Keys == w.conns.Keys &&
        forall t | t in w.conns :: OneOutcome(w.settings, w.conns[t], msg, t in rearmFails, w'.conns[t]))
  {
    BroadcastSlots(w, Message(msg), rearmFails);
    forall t | t in w.conns
      ensures var c' := Broadcast1(w.settings, w.conns[t], Message(msg), t in rearmFails);
        c'.panicked || OneOutcome(w.settings, w.conns[t], msg, t in rearmFails, c')
    {
      assert SlotOk(w, t);
      MessageOutcome(w.settings, w.conns[t], msg, t in rearmFails);
    }
  }
}
