// The invariant of the event loop and the four primitive changes it is made of: connections
// advance in place, one is removed, one is inserted, or a handler is created and not kept.
module LoopInvariant {
  import opened Types
  import opened ConnectionSpec
  import opened ConnectionProofs
  import opened Lifecycle
  import opened Slabs
  import opened LoopSpec
  import opened ConnectionSteps

  /** What holds of the connection at slab key t. */
  ghost predicate SlotOk(w: Loop, t: nat)
    requires t in w.conns
  {
    var c := w.conns[t];
    && t < w.settings.maxConnections
    && c.token == t
    && Good(w.settings, c)
    && c.handler < w.log.created
    && c.id == c.handler % ID_SPACE
  }

  /** The n-th sender: its id counts handlers up to wrapping, and the connection at its token, if
      there is one, is its own or a newer one. */
  ghost predicate SenderOk(w: Loop, n: nat)
    requires n < |w.log.senders|
  {
    var s := w.log.senders[n];
    s.id == n % ID_SPACE && (s.token in w.conns ==> n <= w.conns[s.token].handler)
  }

  /** The sender that the handler at slab key t was given is for that key. */
  ghost predicate OwnsSender(w: Loop, t: nat)
    requires t in w.conns
  {
    var h := w.conns[t].handler;
    h < |w.log.senders| && w.log.senders[h].token == t
  }

  ghost predicate SendersOk(w: Loop) {
    && |w.log.senders| == w.log.created
    && (forall n {:trigger SenderOk(w, n)} | 0 <= n < |w.log.senders| :: SenderOk(w, n))
    && (forall t {:trigger OwnsSender(w, t)} | t in w.conns :: OwnsSender(w, t))
  }

  ghost predicate SlabOk(w: Loop) {
    && (forall t {:trigger SlotOk(w, t)} | t in w.conns :: SlotOk(w, t))
    && |w.conns| <= w.settings.maxConnections
    && w.nextId == w.log.created % ID_SPACE
  }

  ghost predicate Distinct(w: Loop) {
    forall t, u | t in w.conns && u in w.conns && t != u :: w.conns[t].handler != w.conns[u].handler
  }

  ghost function LiveHandlers(w: Loop): set<nat> {
    set t | t in w.conns :: w.conns[t].handler
  }

  ghost function One(b: bool): nat {
    if b then 1 else 0
  }

  /** Where the handlers are: every one the factory made is in the slab, was given back, or was
      dropped, in exactly one of the three and exactly once. */
  ghost predicate Conserved(w: Loop) {
    var live, lost, dropped := LiveHandlers(w), multiset(w.log.lost), multiset(w.log.dropped);
    forall h: nat :: One(h in live) + lost[h] + dropped[h] == One(h < w.log.created)
  }

  ghost predicate RetiredSlotOk(w: Loop, h: nat)
    requires h in w.log.retired
  {
    && w.log.retired[h].handler == h
    && h in w.log.lost
    && Sound(w.settings, w.log.retired[h]) && Settled(w.log.retired[h])
    && InputBounded(w.settings, w.log.retired[h])
  }

  ghost predicate RetiredOk(w: Loop) {
    forall h {:trigger RetiredSlotOk(w, h)} | h in w.log.retired :: RetiredSlotOk(w, h)
  }

  ghost predicate Inv(w: Loop) {
    SlabOk(w) && Distinct(w) && Conserved(w) && RetiredOk(w) && SendersOk(w)
  }

  // ---------- what one stretch of a run does to every connection ----------

  /** The connection that was c is still in the slab, evolved, or was removed later. */
  ghost predicate Traced(w: Loop, c: Conn) {
    || (c.token in w.conns && Evolves(c, w.conns[c.token]))
    || (c.handler in w.log.retired && Evolves(c, w.log.retired[c.handler]))
  }

  /** w' is a possible later value of w. */
  ghost predicate Later(w: Loop, w': Loop) {
    && w'.settings == w.settings && w'.listening == w.listening
    && w.log.created <= w'.log.created && w.log.senders <= w'.log.senders
    && w.log.lost <= w'.log.lost && w.log.dropped <= w'.log.dropped
    && (forall t {:trigger Traced(w', w.conns[t])} | t in w.conns :: Traced(w', w.conns[t]))
    && (forall h | h in w.log.retired :: h in w'.log.retired && w'.log.retired[h] == w.log.retired[h])
  }

  /** The messages accepted, in order, for the connection with handler h at token t. */
  ghost function Accepted(w: Loop, t: nat, h: nat): seq<Bytes> {
    if h in w.log.retired && w.log.retired[h].token == t then w.log.retired[h].trace.accepted
    else if t in w.conns && w.conns[t].handler == h then w.conns[t].trace.accepted
    else []
  }

  ghost predicate NothingAccepted(w: Loop, w': Loop) {
    forall t, h :: Accepted(w', t, h) == Accepted(w, t, h)
  }

  lemma TracedLater(b: Loop, c: Loop, x: Conn)
    requires Traced(b, x) && Later(b, c)
    ensures Traced(c, x)
  {
    if x.token in b.conns && Evolves(x, b.conns[x.token]) {
      var y := b.conns[x.token];
      assert Traced(c, b.conns[x.token]);
      if y.token in c.conns && Evolves(y, c.conns[y.token]) {
        EvolvesTrans(x, y, c.conns[y.token]);
      } else {
        EvolvesTrans(x, y, c.log.retired[y.handler]);
      }
    }
  }

  lemma LaterTrans(a: Loop, b: Loop, c: Loop)
    requires Later(a, b) && Later(b, c)
    ensures Later(a, c)
  {
    forall t | t in a.conns ensures Traced(c, a.conns[t]) {
      assert Traced(b, a.conns[t]);
      TracedLater(b, c, a.conns[t]);
    }
  }

  lemma SlotCarries(w: Loop, w': Loop, t: nat)
    requires t in w.conns && t in w'.conns && w'.conns[t] == w.conns[t]
    requires SlotOk(w, t) && w'.settings == w.settings && w.log.created <= w'.log.created
    ensures SlotOk(w', t) && Traced(w', w.conns[t])
  {
  }

  // ---------- advancing in place ----------

  ghost predicate SameBooks(w: Loop, w': Loop) {
    && w'.settings == w.settings && w'.listening == w.listening && w'.nextId == w.nextId
    && w'.log.created == w.log.created && w'.log.senders == w.log.senders && w'.log.lost == w.log.lost
    && w'.log.dropped == w.log.dropped && w'.log.retired == w.log.retired
  }

  ghost predicate Advances(w: Loop, w': Loop) {
    && SameBooks(w, w')
    && w'.conns.Keys == w.conns.Keys
    && forall t | t in w.conns :: Step(w.settings, w.conns[t], w'.conns[t]) && !w'.conns[t].panicked
  }

  ghost predicate AdvancesQuietly(w: Loop, w': Loop) {
    && Advances(w, w')
    && forall t | t in w.conns :: Quiet(w.conns[t], w'.conns[t])
  }

  lemma SameCard<T>(a: map<nat, T>, b: map<nat, T>)
    requires a.Keys == b.Keys
    ensures |a| == |b|
  {
  }

  lemma AdvancesSlabOk(w: Loop, w': Loop)
    requires SlabOk(w) && Advances(w, w')
    ensures SlabOk(w') && Later(w, w')
  {
    SameCard(w.conns, w'.conns);
    forall t | t in w'.conns
      ensures SlotOk(w', t) && Traced(w', w.conns[t])
    {
      assert SlotOk(w, t);
    }
  }

  lemma AdvancesConserved(w: Loop, w': Loop)
    requires Distinct(w) && Conserved(w) && Advances(w, w')
    ensures Distinct(w') && Conserved(w')
  {
  }

  /** Connections may leave the slab, or change, but none gets a new handler. */
  lemma FewerSenders(w: Loop, w': Loop)
    requires SendersOk(w) && w'.log.senders == w.log.senders && w'.log.created == w.log.created
    requires forall t | t in w'.conns :: t in w.conns && w'.conns[t].handler == w.conns[t].handler
    ensures SendersOk(w')
  {
    forall n | 0 <= n < |w'.log.senders| ensures SenderOk(w', n) {
      assert SenderOk(w, n);
    }
    forall t | t in w'.conns ensures OwnsSender(w', t) {
      assert OwnsSender(w, t);
    }
  }

  lemma AdvancesSenders(w: Loop, w': Loop)
    requires SendersOk(w) && Advances(w, w')
    ensures SendersOk(w')
  {
    FewerSenders(w, w');
  }

  lemma AdvancesInv(w: Loop, w': Loop)
    requires Inv(w) && Advances(w, w')
    ensures Inv(w') && Later(w, w')
  {
    AdvancesSlabOk(w, w');
    AdvancesConserved(w, w');
    AdvancesSenders(w, w');
    forall h | h in w'.log.retired ensures RetiredSlotOk(w', h) {
      assert RetiredSlotOk(w, h);
    }
  }

  lemma AdvancesAcceptsNothing(w: Loop, w': Loop)
    requires AdvancesQuietly(w, w')
    ensures NothingAccepted(w, w')
  {
  }

  // ---------- removing ----------

  lemma LiveIsNotLost(w: Loop, t: nat)
    requires Conserved(w) && t in w.conns
    ensures w.conns[t].handler !in w.log.lost
  {
    var h := w.conns[t].handler;
    assert h in LiveHandlers(w);
    assert multiset(w.log.lost)[h] == 0;
    assert forall x | x in w.log.lost :: x in multiset(w.log.lost);
  }

  lemma RetiredWereLost(w: Loop)
    requires RetiredOk(w)
    ensures forall h | h in w.log.retired :: h in w.log.lost
  {
    forall h | h in w.log.retired ensures h in w.log.lost {
      assert RetiredSlotOk(w, h);
    }
  }

  lemma RemoveConserved(w: Loop, t: nat)
    requires Distinct(w) && Conserved(w) && t in w.conns
    ensures Distinct(w.Remove(t)) && Conserved(w.Remove(t))
  {
    var w', h := w.Remove(t), w.conns[t].handler;
    assert LiveHandlers(w') == LiveHandlers(w) - {h} by {
      forall k ensures k in LiveHandlers(w') <==> k in LiveHandlers(w) && k != h {
        if k in LiveHandlers(w) && k != h {
          var u :| u in w.conns && w.conns[u].handler == k;
          assert u in w'.conns && w'.conns[u].handler == k;
        }
      }
    }
    assert h in LiveHandlers(w);
  }

  lemma RemoveSlabOk(w: Loop, t: nat)
    requires SlabOk(w) && t in w.conns
    ensures SlabOk(w.Remove(t))
  {
    var w' := w.Remove(t);
    assert w'.conns.Keys == w.conns.Keys - {t};
    assert |w'.conns| == |w'.conns.Keys| <= |w.conns.Keys| == |w.conns|;
    forall u | u in w'.conns ensures SlotOk(w', u) {
      assert SlotOk(w, u);
      SlotCarries(w, w', u);
    }
  }

  lemma RemoveLater(w: Loop, t: nat)
    requires SlabOk(w) && Conserved(w) && RetiredOk(w) && t in w.conns
    ensures Later(w, w.Remove(t))
  {
    var w' := w.Remove(t);
    LiveIsNotLost(w, t);
    assert SlotOk(w, t);
    forall u | u in w.conns ensures Traced(w', w.conns[u]) {
      assert SlotOk(w, u);
      if u != t {
        SlotCarries(w, w', u);
      }
    }
    forall h | h in w.log.retired ensures h in w'.log.retired && w'.log.retired[h] == w.log.retired[h] {
      assert RetiredSlotOk(w, h);
    }
  }

  lemma RemoveRetiredOk(w: Loop, t: nat)
    requires SlabOk(w) && Conserved(w) && RetiredOk(w) && t in w.conns
    ensures RetiredOk(w.Remove(t))
  {
    var w' := w.Remove(t);
    assert SlotOk(w, t);
    forall h | h in w'.log.retired ensures RetiredSlotOk(w', h) {
      if h in w.log.retired {
        assert RetiredSlotOk(w, h);
      }
    }
  }

  lemma RemoveAcceptsNothing(w: Loop, t: nat)
    requires SlabOk(w) && Conserved(w) && RetiredOk(w) && t in w.conns
    ensures NothingAccepted(w, w.Remove(t))
  {
    LiveIsNotLost(w, t);
    RetiredWereLost(w);
    assert SlotOk(w, t);
  }

  lemma RemoveInv(w: Loop, t: nat)
    requires Inv(w) && t in w.conns
    ensures Inv(w.Remove(t)) && Later(w, w.Remove(t)) && NothingAccepted(w, w.Remove(t))
  {
    RemoveConserved(w, t);
    RemoveSlabOk(w, t);
    RemoveLater(w, t);
    RemoveRetiredOk(w, t);
    FewerSenders(w, w.Remove(t));
    RemoveAcceptsNothing(w, t);
  }

  // ---------- inserting ----------

  /** A slab that is not full has a vacant key, whichever one is preferred. */
  lemma VacantIsFree(w: Loop, slot: nat)
    requires |w.conns| < w.settings.maxConnections
    ensures var t := Vacant(w, slot); t < w.settings.maxConnections && t !in w.conns
  {
    assert |w.conns| == |w.conns.Keys|;
    VacantInIsFree(w.conns.Keys, slot, w.settings.maxConnections);
  }

  /** A new connection at a vacant key, with the next handler and id. */
  ghost predicate Inserts(w: Loop, t: nat, c: Conn) {
    && t < w.settings.maxConnections && t !in w.conns && |w.conns| < w.settings.maxConnections
    && c.token == t && c.handler == w.log.created && c.id == w.nextId
    && Good(w.settings, c) && c.trace.accepted == []
  }

  lemma InsertLive(w: Loop, t: nat, c: Conn)
    requires t !in w.conns
    ensures LiveHandlers(NextId(w, t).Put(t, c)) == LiveHandlers(w) + {c.handler}
  {
    var w' := NextId(w, t).Put(t, c);
    forall k ensures k in LiveHandlers(w') <==> k in LiveHandlers(w) || k == c.handler {
      if k in LiveHandlers(w) {
        var u :| u in w.conns && w.conns[u].handler == k;
        assert u in w'.conns && w'.conns[u].handler == k;
      }
      if k == c.handler {
        assert t in w'.conns && w'.conns[t].handler == k;
      }
    }
  }

  lemma InsertConserved(w: Loop, t: nat, c: Conn)
    requires Distinct(w) && Conserved(w) && t !in w.conns && c.handler == w.log.created
    ensures var w' := NextId(w, t).Put(t, c); Distinct(w') && Conserved(w')
  {
    var w', h := NextId(w, t).Put(t, c), w.log.created;
    InsertLive(w, t, c);
    assert h !in LiveHandlers(w) by {
      assert One(h in LiveHandlers(w)) + multiset(w.log.lost)[h] + multiset(w.log.dropped)[h] == 0;
    }
    forall u | u in w.conns ensures w.conns[u].handler != h {
      assert w.conns[u].handler in LiveHandlers(w);
    }
  }

  lemma WrapsOnce(n: nat)
    ensures WrappingNext(n % 0x1_0000_0000) == (n + 1) % 0x1_0000_0000
  {
  }

  lemma NextIdCounts(w: Loop, t: nat)
    requires w.nextId == w.log.created % ID_SPACE
    ensures NextId(w, t).nextId == NextId(w, t).log.created % ID_SPACE
  {
    WrapsOnce(w.log.created);
  }

  lemma InsertCard<T>(m: map<nat, T>, t: nat, c: T)
    requires t !in m
    ensures |m[t := c]| == |m| + 1
  {
  }

  /** A sender for a vacant key is newer than any connection there was. */
  lemma NextIdSenders(w: Loop, t: nat)
    requires SlabOk(w) && SendersOk(w) && t !in w.conns
    ensures SendersOk(NextId(w, t))
  {
    var w' := NextId(w, t);
    forall n | 0 <= n < |w'.log.senders| ensures SenderOk(w', n) {
      if n < w.log.created {
        assert SenderOk(w, n);
      }
    }
    forall u | u in w'.conns ensures OwnsSender(w', u) {
      assert OwnsSender(w, u);
    }
  }

  lemma InsertSenders(w: Loop, t: nat, c: Conn)
    requires SlabOk(w) && SendersOk(w) && Inserts(w, t, c)
    ensures SendersOk(NextId(w, t).Put(t, c))
  {
    var w1, w' := NextId(w, t), NextId(w, t).Put(t, c);
    NextIdSenders(w, t);
    forall n | 0 <= n < |w'.log.senders| ensures SenderOk(w', n) {
      assert SenderOk(w1, n);
    }
    forall u | u in w'.conns ensures OwnsSender(w', u) {
      if u != t {
        assert OwnsSender(w1, u);
      }
    }
  }

  lemma InsertSlabOk(w: Loop, t: nat, c: Conn)
    requires SlabOk(w) && Inserts(w, t, c)
    ensures SlabOk(NextId(w, t).Put(t, c))
  {
    var w' := NextId(w, t).Put(t, c);
    InsertCard(w.conns, t, c);
    NextIdCounts(w, t);
    assert SlotOk(w', t);
    forall u | u in w'.conns ensures SlotOk(w', u) {
      if u != t {
        assert SlotOk(w, u);
        SlotCarries(w, w', u);
      }
    }
  }

  lemma InsertLater(w: Loop, t: nat, c: Conn)
    requires SlabOk(w) && RetiredOk(w) && Inserts(w, t, c)
    ensures var w' := NextId(w, t).Put(t, c); Later(w, w') && RetiredOk(w')
  {
    var w' := NextId(w, t).Put(t, c);
    forall u | u in w.conns ensures Traced(w', w.conns[u]) {
      assert SlotOk(w, u);
      SlotCarries(w, w', u);
    }
    forall h | h in w'.log.retired ensures RetiredSlotOk(w', h) {
      assert RetiredSlotOk(w, h);
    }
  }

  lemma InsertAcceptsNothing(w: Loop, t: nat, c: Conn)
    requires RetiredOk(w) && Conserved(w) && t !in w.conns && c.trace.accepted == [] && c.handler == w.log.created
    ensures NothingAccepted(w, NextId(w, t).Put(t, c))
  {
  }

  lemma InsertInv(w: Loop, t: nat, c: Conn)
    requires Inv(w) && Inserts(w, t, c)
    ensures var w' := NextId(w, t).Put(t, c); Inv(w') && Later(w, w') && NothingAccepted(w, w')
  {
    InsertConserved(w, t, c);
    InsertSlabOk(w, t, c);
    InsertLater(w, t, c);
    InsertSenders(w, t, c);
    InsertAcceptsNothing(w, t, c);
  }

  // ---------- creating a handler that is not kept ----------

  lemma NotKeptConserved(w: Loop, t: nat, w': Loop)
    requires Distinct(w) && Conserved(w)
    requires w' == GiveBack(NextId(w, t), w.log.created) || w' == Drop(NextId(w, t), w.log.created)
    ensures Distinct(w') && Conserved(w')
  {
  }

  lemma NotKeptSlabOk(w: Loop, t: nat, w': Loop)
    requires SlabOk(w)
    requires w' == GiveBack(NextId(w, t), w.log.created) || w' == Drop(NextId(w, t), w.log.created)
    ensures SlabOk(w') && Later(w, w')
  {
    NextIdCounts(w, t);
    forall u | u in w.conns ensures SlotOk(w', u) && Traced(w', w.conns[u]) {
      assert SlotOk(w, u);
      SlotCarries(w, w', u);
    }
  }

  lemma NotKeptInv(w: Loop, t: nat, w': Loop)
    requires Inv(w) && t !in w.conns
    requires w' == GiveBack(NextId(w, t), w.log.created) || w' == Drop(NextId(w, t), w.log.created)
    ensures Inv(w') && Later(w, w') && NothingAccepted(w, w')
  {
    NotKeptConserved(w, t, w');
    NextIdSenders(w, t);
    FewerSenders(NextId(w, t), w');
    NotKeptSlabOk(w, t, w');
    forall h | h in w'.log.retired ensures RetiredSlotOk(w', h) {
      assert RetiredSlotOk(w, h);
    }
  }
}
