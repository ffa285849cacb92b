// Whole runs: the invariant at every poll, the end-to-end order of messages, closes that
// freeze a connection's output.
module LoopRuns {
  import opened Types
  import opened ConnectionSpec
  import opened ConnectionProofs
  import opened Lifecycle
  import opened LoopSpec
  import opened LoopInvariant
  import opened LoopSafety

  lemma InitialInv(s: Settings, listening: bool)
    ensures Inv(Initial(s, listening))
  {
  }

  // ---------- what a run accepts for each connection ----------

  ghost function BatchPayload(w: Loop, batch: seq<Event>, t: nat, h: nat): seq<Bytes>
    decreases |batch|
  {
    if batch == [] || w.panicked then []
    else EventPayload(w, batch[0], t, h) + BatchPayload(HandleEvent(w, batch[0]), batch[1..], t, h)
  }

  ghost function TurnPayload(w: Loop, p: PollResult, t: nat, h: nat): seq<Bytes> {
    if p.Ready? then BatchPayload(Polled(w, p.batch), p.batch, t, h) else []
  }

  /** The messages addressed to the connection with handler h at token t, or broadcast, in the
      order the queue gave them up, that found it live, not closing and with room. */
  ghost function RunPayload(w: Loop, polls: seq<PollResult>, t: nat, h: nat): seq<Bytes>
    decreases |polls|
  {
    if polls == [] || !Running(w) then []
    else TurnPayload(w, polls[0], t, h) + RunPayload(Turn(w, polls[0]), polls[1..], t, h)
  }

  ghost predicate Adds(w: Loop, w': Loop, t: nat, h: nat, messages: seq<Bytes>) {
    w'.panicked || Accepted(w', t, h) == Accepted(w, t, h) + messages
  }

  lemma AddsTrans(a: Loop, b: Loop, c: Loop, t: nat, h: nat, first: seq<Bytes>, second: seq<Bytes>)
    requires Adds(a, b, t, h, first) && Adds(b, c, t, h, second) && (b.panicked ==> c == b)
    ensures Adds(a, c, t, h, first + second)
  {
  }

  lemma AddsNothing(w: Loop, w': Loop, t: nat, h: nat)
    requires NothingAccepted(w, w')
    ensures Adds(w, w', t, h, [])
  {
  }

  lemma EventAdds(w: Loop, e: Event, t: nat, h: nat)
    requires Inv(w) && !w.panicked && TokensFit(w.settings)
    ensures Safe(w, HandleEvent(w, e)) && Adds(w, HandleEvent(w, e), t, h, EventPayload(w, e, t, h))
  {
    HandleEventSafe(w, e);
  }

  lemma {:induction false} HandleEventsSafe(w: Loop, batch: seq<Event>, t: nat, h: nat)
    requires Inv(w) && TokensFit(w.settings)
    ensures var w' := HandleEvents(w, batch); Safe(w, w') && Adds(w, w', t, h, BatchPayload(w, batch, t, h))
    decreases |batch|
  {
    if batch == [] || w.panicked {
      SameConnsSafe(w, w);
      AddsNothing(w, w, t, h);
    } else {
      var w1 := HandleEvent(w, batch[0]);
      var w' := HandleEvents(w1, batch[1..]);
      EventAdds(w, batch[0], t, h);
      HandleEventsSafe(w1, batch[1..], t, h);
      SafeTrans(w, w1, w');
      AddsTrans(w, w1, w', t, h, EventPayload(w, batch[0], t, h), BatchPayload(w1, batch[1..], t, h));
    }
  }

  lemma BatchSafe(w: Loop, batch: seq<Event>, t: nat, h: nat)
    requires Inv(w) && TokensFit(w.settings)
    ensures var w1 := Polled(w, batch); var w' := HandleEvents(w1, batch);
      Safe(w, w') && Adds(w, w', t, h, BatchPayload(w1, batch, t, h))
  {
    var w1 := Polled(w, batch);
    SameConnsSafe(w, w1);
    HandleEventsSafe(w1, batch, t, h);
    SafeTrans(w, w1, HandleEvents(w1, batch));
  }

  /** Ending a turn accepts nothing. */
  lemma SettleSafe(w: Loop, w1: Loop, t: nat, h: nat, messages: seq<Bytes>)
    requires Safe(w, w1) && Adds(w, w1, t, h, messages)
    ensures Safe(w, Settle(w1)) && Adds(w, Settle(w1), t, h, messages)
  {
    SameConnsSafe(w1, Settle(w1));
    SafeTrans(w, w1, Settle(w1));
  }

  /** A turn without events touches no connection and no interest. */
  lemma IdleTurnSame(w: Loop, p: PollResult)
    requires !p.Ready?
    ensures var w' := Turn(w, p); SameBooks(w, w') && w'.conns == w.conns && w'.armed == w.armed
  {
  }

  lemma IdleTurnSafe(w: Loop, p: PollResult, t: nat, h: nat)
    requires Inv(w) && !p.Ready?
    ensures var w' := Turn(w, p); Safe(w, w') && Adds(w, w', t, h, [])
  {
    var w' := Turn(w, p);
    IdleTurnSame(w, p);
    SameConnsSafe(w, w');
    AddsNothing(w, w', t, h);
  }

  lemma TurnSafe(w: Loop, p: PollResult, t: nat, h: nat)
    requires Inv(w) && TokensFit(w.settings)
    ensures var w' := Turn(w, p); Safe(w, w') && Adds(w, w', t, h, TurnPayload(w, p, t, h))
  {
    if p.Ready? {
      BatchSafe(w, p.batch, t, h);
      SettleSafe(w, HandleEvents(Polled(w, p.batch), p.batch), t, h, BatchPayload(Polled(w, p.batch), p.batch, t, h));
    } else {
      IdleTurnSafe(w, p, t, h);
    }
  }

  /** The invariant holds at every return to poll of every run, and the run accepts for each
      connection exactly the messages RunPayload lists. */
  lemma {:induction false} RunSafe(w: Loop, polls: seq<PollResult>, t: nat, h: nat)
    requires Inv(w) && TokensFit(w.settings)
    ensures var w' := Run(w, polls); Safe(w, w') && Adds(w, w', t, h, RunPayload(w, polls, t, h))
    decreases |polls|
  {
    if polls == [] || !Running(w) {
      SameConnsSafe(w, w);
      AddsNothing(w, w, t, h);
    } else {
      var w1 := Turn(w, polls[0]);
      var w' := Run(w1, polls[1..]);
      TurnSafe(w, polls[0], t, h);
      RunSafe(w1, polls[1..], t, h);
      SafeTrans(w, w1, w');
      AddsTrans(w, w1, w', t, h, TurnPayload(w, polls[0], t, h), RunPayload(w1, polls[1..], t, h));
    }
  }

  /** c is the last value so far of the connection with handler h at token t. */
  ghost predicate LastValue(w: Loop, t: nat, h: nat, c: Conn) {
    || (t in w.conns && w.conns[t] == c && c.handler == h)
    || (h in w.log.retired && w.log.retired[h] == c && c.token == t)
  }

  lemma LastValueSound(w: Loop, t: nat, h: nat, c: Conn)
    requires Inv(w) && LastValue(w, t, h, c)
    ensures Sound(w.settings, c) && Settled(c) && InputBounded(w.settings, c)
    ensures c.trace.accepted == Accepted(w, t, h)
  {
    if t in w.conns && w.conns[t] == c && c.handler == h {
      assert SlotOk(w, t);
      LiveIsNotRetired(w, t);
    } else {
      assert RetiredSlotOk(w, h);
    }
  }

  /** End to end: in every run, for every connection ever created, the bytes its socket took
      followed by its unsent bytes are exactly the payloads addressed to it, whole, once each and
      in queue order. */
  lemma EndToEnd(s: Settings, listening: bool, polls: seq<PollResult>, t: nat, h: nat, c: Conn)
    requires TokensFit(s)
    requires var w := Run(Initial(s, listening), polls); !w.panicked && LastValue(w, t, h, c)
    ensures c.trace.sent + c.Unsent() == Flatten(RunPayload(Initial(s, listening), polls, t, h))
  {
    var w0 := Initial(s, listening);
    InitialInv(s, listening);
    RunSafe(w0, polls, t, h);
    LastValueSound(Run(w0, polls), t, h, c);
    assert [] + RunPayload(w0, polls, t, h) == RunPayload(w0, polls, t, h);
  }

  /** The loop while it handles a batch, some events into it, after some polls of a run. */
  ghost function Moment(s: Settings, listening: bool, polls: seq<PollResult>, reported: seq<Event>, k: nat): Loop
    requires k <= |reported|
  {
    HandleEvents(Polled(Run(Initial(s, listening), polls), reported), reported[..k])
  }

  /** The invariant holds while batches are handled, too. */
  lemma MomentInv(s: Settings, listening: bool, polls: seq<PollResult>, reported: seq<Event>, k: nat)
    requires TokensFit(s) && k <= |reported|
    ensures Inv(Moment(s, listening, polls, reported, k)) && Moment(s, listening, polls, reported, k).settings == s
  {
    InitialInv(s, listening);
    RunSafe(Initial(s, listening), polls, 0, 0);
    BatchedSafe(Run(Initial(s, listening), polls), reported, reported[..k]);
  }

  lemma BatchedSafe(w: Loop, reported: seq<Event>, events: seq<Event>)
    requires Inv(w) && TokensFit(w.settings)
    ensures Safe(w, HandleEvents(Polled(w, reported), events))
  {
    SameConnsSafe(w, Polled(w, reported));
    HandleEventsSafe(Polled(w, reported), events, 0, 0);
    SafeTrans(w, Polled(w, reported), HandleEvents(Polled(w, reported), events));
  }

  /** From a moment in a batch on: the rest of its events, more polls, and some events of a later batch. */
  ghost function Onward(w: Loop, rest: seq<Event>, polls: seq<PollResult>, reported: seq<Event>, k: nat): Loop
    requires k <= |reported|
  {
    HandleEvents(Polled(Run(Settle(HandleEvents(w, rest)), polls), reported), reported[..k])
  }

  lemma OnwardSafe(w: Loop, rest: seq<Event>, polls: seq<PollResult>, reported: seq<Event>, k: nat)
    requires Inv(w) && TokensFit(w.settings) && k <= |reported|
    ensures Safe(w, Onward(w, rest, polls, reported, k))
  {
    var w1, w2 := HandleEvents(w, rest), Settle(HandleEvents(w, rest));
    HandleEventsSafe(w, rest, 0, 0);
    SameConnsSafe(w1, w2);
    SafeTrans(w, w1, w2);
    RunSafe(w2, polls, 0, 0);
    SafeTrans(w, w2, Run(w2, polls));
    BatchedSafe(Run(w2, polls), reported, reported[..k]);
    SafeTrans(w, Run(w2, polls), Onward(w, rest, polls, reported, k));
  }

  /** A close freezes the output: from any moment on, in a batch or between batches, a connection that
      is closing stays so, accepts no more, and all it ever sends is a prefix of what it had accepted. */
  lemma CloseFreezes(w: Loop, rest: seq<Event>, polls: seq<PollResult>, reported: seq<Event>, k: nat, t: nat, c: Conn)
    requires Inv(w) && TokensFit(w.settings) && k <= |reported|
    requires t in w.conns && w.conns[t].state.IsClosing()
    requires LastValue(Onward(w, rest, polls, reported, k), t, w.conns[t].handler, c)
    ensures c.state.IsClosing()
    ensures c.trace.accepted == w.conns[t].trace.accepted
    ensures c.trace.sent <= Flatten(w.conns[t].trace.accepted)
  {
    var w', x := Onward(w, rest, polls, reported, k), w.conns[t];
    OnwardSafe(w, rest, polls, reported, k);
    LastValueSound(w', t, x.handler, c);
    assert SlotOk(w, t);
    assert Traced(w', w.conns[t]);
    TracedToLast(w', x, c);
  }

  /** The later value of a connection is the one it is traced to. */
  lemma TracedToLast(w: Loop, x: Conn, c: Conn)
    requires Inv(w) && Traced(w, x) && LastValue(w, x.token, x.handler, c)
    ensures Evolves(x, c)
  {
    if x.token in w.conns {
      LiveIsNotRetired(w, x.token);
    }
  }
}
