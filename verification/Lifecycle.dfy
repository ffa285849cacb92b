// A live connection stays live, with its write interest in step with its unsent bytes, or ends
// with exactly one on_close and no interest left; and the bound on a vector that may not grow.
module Lifecycle {
  import opened Types
  import opened Buffers
  import opened ConnectionSpec
  import opened ConnectionProofs

  /** Not hung up, interested in something, and in writing whenever bytes are unsent. */
  predicate Alive(c: Conn) {
    && Settled(c)
    && OnClose !in c.trace.calls
    && c.events.Any()
    && (c.Unsent() != [] ==> c.events.writable)
  }

  /** Hung up: the last call to the handler is the only on_close, and nothing is of interest. */
  predicate Ended(c: Conn) {
    && c.trace.calls != []
    && c.trace.calls[|c.trace.calls| - 1] == OnClose
    && OnClose !in c.trace.calls[..|c.trace.calls| - 1]
    && c.events == NOTHING
  }

  /** How many times on_close was called. */
  function Closes(c: Conn): nat {
    multiset(c.trace.calls)[OnClose]
  }

  lemma LiveOrEndedCloses(c: Conn)
    ensures Alive(c) ==> Closes(c) == 0
    ensures Ended(c) ==> Closes(c) == 1
  {
    if Ended(c) {
      var calls := c.trace.calls;
      assert calls == calls[..|calls| - 1] + [calls[|calls| - 1]];
    }
  }

  lemma DisconnectEnds(c: Conn)
    requires Settled(c) && OnClose !in c.trace.calls
    ensures Ended(Disconnect(c))
  {
  }

  lemma SendCloseAlive(c: Conn)
    requires Alive(c)
    ensures Alive(SendClose(c))
  {
  }

  lemma ErrorAliveOrEnded(s: Settings, c: Conn, kind: Kind)
    requires Alive(c)
    ensures var c' := Error(s, c, kind);
      !c'.panicked ==> Alive(c') || Ended(c')
  {
    var c1 := c.Called(OnError(kind));
    assert Alive(c1);
    DisconnectEnds(c1);
    SendCloseAlive(c1);
  }

  /** An I/O error always hangs up. */
  lemma IoErrorEnds(s: Settings, c: Conn, errno: Option<int>)
    requires Settled(c) && OnClose !in c.trace.calls
    ensures var c' := Error(s, c, Io(errno)); c'.panicked || Ended(c')
  {
  }

  lemma SendMessageAlive(s: Settings, c: Conn, msg: Bytes)
    requires Alive(c)
    ensures var (c', r) := SendMessage(s, c, msg); Alive(c') && c'.panicked == c.panicked
  {
  }

  lemma DeliverAliveOrEnded(c: Conn, len: nat, reply: Option<Kind>)
    requires Alive(c)
    ensures var (c', r) := Deliver(c, len, reply);
      (Alive(c') || (r.Pass? && Ended(c'))) && c'.panicked == c.panicked
  {
  }

  /** After a read that does not fail the connection is live or has ended; a failed one leaves it live. */
  lemma ReadAliveOrEnded(s: Settings, c: Conn, supply: seq<ReadResult>, reply: Option<Kind>)
    requires Alive(c)
    ensures var (c', r) := Read(s, c, supply, reply);
      (Alive(c') || (r.Pass? && Ended(c'))) && c'.panicked == c.panicked
  {
    var r := BufferIn(s, c.input, supply);
    var c1 := Received(c, r);
    assert Alive(c1);
    if r.outcome.Ok? && r.outcome.value.Some? {
      DeliverAliveOrEnded(c1, r.outcome.value.value, reply);
    }
  }

  lemma DeliverHangsUpExactly(c: Conn, len: nat, reply: Option<Kind>)
    requires Alive(c)
    ensures Ended(Deliver(c, len, reply).0) <==>
            len == 0 && !c.events.writable && reply.None? && ValidUtf8(c.input.Unread())
  {
  }

  /** A read hangs a connection up exactly when the first thing it meets is the end of stream, with
      nothing to be written, a handler that takes the empty message, and an input vector that has
      held nothing since it was last replaced: not the empty read but the empty vector is tested. */
  lemma EndOfStreamHangsUpExactly(s: Settings, c: Conn, supply: seq<ReadResult>, reply: Option<Kind>)
    requires Alive(c)
    ensures Ended(Read(s, c, supply, reply).0) <==>
            supply != [] && supply[0] == Data([]) && c.input.data == [] && !c.events.writable && reply.None?
  {
    var r := BufferIn(s, c.input, supply);
    AnswersEmptyExactly(s, c.input, supply);
    if r.outcome.Ok? && r.outcome.value.Some? {
      DeliverHangsUpExactly(Received(c, r), r.outcome.value.value, reply);
    }
  }

  lemma AfterReadAliveOrEnded(s: Settings, c: Conn, supply: seq<ReadResult>, reply: Option<Kind>, dials: bool)
    requires Alive(c) && !c.panicked
    ensures var c' := AfterRead(s, c, supply, reply, dials).0;
      c'.panicked || Alive(c') || Ended(c')
  {
    ReadAliveOrEnded(s, c, supply, reply);
    var (c1, r) := Read(s, c, supply, reply);
    if r.Fail? {
      RecoverReports(s, c1, r.error, dials);
      ErrorAliveOrEnded(s, c1, r.error);
    }
  }

  /** A write keeps the write interest exactly while bytes remain, or fails with an I/O error. */
  lemma WriteRearms(s: Settings, c: Conn, answer: WriteResult)
    requires Alive(c)
    ensures var (c', r) := Write(c, answer);
      && c'.panicked == c.panicked
      && Settled(c') && OnClose !in c'.trace.calls
      && (r.Pass? ==> Alive(c') && (c'.events.writable <==> c'.Unsent() != []))
      && (r.Fail? ==> r.error.Io? && answer.WriteFails?)
  {
  }

  lemma AfterWriteAliveOrEnded(s: Settings, c: Conn, answer: WriteResult, dials: bool)
    requires Alive(c) && !c.panicked
    ensures var c' := AfterWrite(s, c, answer, dials).0;
      c'.panicked || Alive(c') || Ended(c')
  {
    WriteRearms(s, c, answer);
    var (c1, r) := Write(c, answer);
    if r.Fail? {
      RecoverReports(s, c1, r.error, dials);
      IoErrorEnds(s, c1, r.error.errno);
    }
  }

  // ---------- an input buffer that may not grow ----------

  /** Until a Capacity error is reported the input vector keeps its configured capacity and room in it. */
  predicate InputBounded(s: Settings, c: Conn) {
    !s.inBufferGrow && s.inBufferCapacity > 0 && OnError(Capacity) !in c.trace.calls ==>
      c.input.cap == s.inBufferCapacity && |c.input.data| < c.input.cap
  }

  lemma OnlyCallsInputBounded(s: Settings, c: Conn, c': Conn)
    requires InputBounded(s, c) && OnlyCalls(c, c')
    ensures InputBounded(s, c')
  {
  }

  lemma DeliverInputBounded(s: Settings, c: Conn, len: nat, reply: Option<Kind>)
    requires InputBounded(s, c)
    ensures InputBounded(s, Deliver(c, len, reply).0)
  {
  }

  /** A read keeps the bound or fails with Capacity. */
  lemma ReadInputBounded(s: Settings, c: Conn, supply: seq<ReadResult>, reply: Option<Kind>)
    requires InputBounded(s, c)
    ensures var (c', r) := Read(s, c, supply, reply);
      InputBounded(s, c') || r == Fail(Capacity)
  {
    if !s.inBufferGrow && s.inBufferCapacity > 0 && OnError(Capacity) !in c.trace.calls {
      HardInputBound(s, c.input, supply);
    }
    var r := BufferIn(s, c.input, supply);
    var c1 := Received(c, r);
    if r.outcome.Ok? && r.outcome.value.Some? {
      assert InputBounded(s, c1);
      DeliverInputBounded(s, c1, r.outcome.value.value, reply);
    }
  }

  lemma AfterReadInputBounded(s: Settings, c: Conn, supply: seq<ReadResult>, reply: Option<Kind>, dials: bool)
    requires InputBounded(s, c) && Settled(c) && !c.panicked
    ensures var c' := AfterRead(s, c, supply, reply, dials).0;
      c'.panicked || InputBounded(s, c')
  {
    ReadInputBounded(s, c, supply, reply);
    var (c1, r) := Read(s, c, supply, reply);
    if r.Fail? {
      ReadSettled(s, c, supply, reply);
      RecoverReports(s, c1, r.error, dials);
      ErrorOnlyCalls(s, c1, r.error);
      var c2 := Error(s, c1, r.error);
      if r.error == Capacity && !c2.panicked {
        assert c1.Called(OnError(Capacity)).trace.calls == c1.trace.calls + [OnError(Capacity)];
        assert OnError(Capacity) in c1.trace.calls + [OnError(Capacity)];
      } else if r.error != Capacity {
        OnlyCallsInputBounded(s, c1, c2);
      }
    }
  }

  lemma ReadSettled(s: Settings, c: Conn, supply: seq<ReadResult>, reply: Option<Kind>)
    requires Settled(c)
    ensures var c' := Read(s, c, supply, reply).0; Settled(c') && c'.panicked == c.panicked
  {
  }
}
