// Connection ids wrap: when a command from the sender of a connection that is gone is harmless.
module StaleSenders {
  import opened Types
  import opened ConnectionSpec
  import opened ConnectionProofs
  import opened LoopSpec
  import opened LoopInvariant
  import opened LoopSafety
  import opened LoopRuns

  /** A command put on the queue by the sender that the n-th handler was given when it was made,
      whether or not that handler ever had a connection in the slab. */
  ghost predicate StampedBy(w: Loop, n: nat, cmd: Command) {
    n < |w.log.senders| && cmd.token == w.log.senders[n].token && cmd.id == w.log.senders[n].id
  }

  /** The ids of the n-th and the m-th handler are equal exactly when a multiple of 2^32 handlers
      separates them. */
  lemma IdsClash(n: nat, m: nat)
    requires n <= m
    ensures n % 0x1_0000_0000 == m % 0x1_0000_0000 <==> (m - n) % 0x1_0000_0000 == 0
  {
  }

  lemma SmallMultiple(d: nat)
    requires d < 0x1_0000_0000
    ensures d % 0x1_0000_0000 == 0 <==> d == 0
  {
  }

  /** A slab key is only ever handed on to a newer connection. */
  lemma OccupantIsNewer(w: Loop, w': Loop, t: nat)
    requires Inv(w) && Inv(w') && Later(w, w') && t in w.conns && t in w'.conns
    ensures w.conns[t].handler <= w'.conns[t].handler
  {
    assert OwnsSender(w, t);
    assert SenderOk(w', w.conns[t].handler);
  }

  /** Whether a command from the n-th sender reaches the connection now at its token, whatever became
      of the n-th handler: exactly when a multiple of 2^32 handlers was made from the one to the other. */
  lemma ReachesExactly(w: Loop, n: nat, cmd: Command)
    requires Inv(w) && StampedBy(w, n, cmd)
    ensures cmd.token in w.conns ==> n <= w.conns[cmd.token].handler
    ensures Reaches(w, cmd) <==> cmd.token in w.conns && (w.conns[cmd.token].handler - n) % ID_SPACE == 0
  {
    assert SenderOk(w, n);
    if cmd.token in w.conns {
      assert SlotOk(w, cmd.token);
      IdsClash(n, w.conns[cmd.token].handler);
    }
  }

  ghost predicate Undelivered(c: Conn, c': Conn) {
    && c'.output == c.output && c'.input == c.input
    && c'.state == c.state && c'.trace.accepted == c.trace.accepted
  }

  /** No buffer and no close state of any connection differs. */
  ghost predicate NothingDelivered(w: Loop, w': Loop) {
    && w'.conns.Keys == w.conns.Keys
    && forall t | t in w.conns :: Undelivered(w.conns[t], w'.conns[t])
  }

  /** An I/O error changes neither buffers nor close state. */
  lemma IoErrorDeliversNothing(s: Settings, c: Conn)
    requires Settled(c)
    ensures Undelivered(c, Error(s, c, Io(None)))
  {
  }

  lemma ScheduleDeliversNothing(w: Loop, t: nat, fails: bool)
    requires t in w.conns && Settled(w.conns[t])
    ensures NothingDelivered(w, Schedule(w, t, fails))
  {
    IoErrorDeliversNothing(w.settings, w.conns[t]);
  }

  lemma UnreachedDeliversNothing(w: Loop, cmd: Command, env: Env)
    requires Inv(w) && !Reaches(w, cmd)
    ensures NothingDelivered(w, Address(w, cmd, env))
  {
    var t := cmd.token;
    if t in w.conns {
      assert SlotOk(w, t);
      assert w.Put(t, w.conns[t]) == w;
      ScheduleDeliversNothing(w, t, t in env.rearmFails);
    }
  }

  /** A command reaches the connection of handler n and no other. */
  ghost predicate OnlyReaches(w: Loop, n: nat, cmd: Command) {
    Reaches(w, cmd) <==> cmd.token in w.conns && w.conns[cmd.token].handler == n
  }

  /** Stale-sender safety: if fewer than 2^32 handlers were made from the one with this sender to the
      one now at its token, a command is delivered only if they are the same, and otherwise no
      connection's buffers or close state change. */
  lemma StaleSenderIsHarmless(w: Loop, n: nat, cmd: Command, env: Env)
    requires Inv(w) && StampedBy(w, n, cmd)
    requires cmd.token in w.conns ==> w.conns[cmd.token].handler < n + ID_SPACE
    ensures OnlyReaches(w, n, cmd)
    ensures !Reaches(w, cmd) ==> NothingDelivered(w, Address(w, cmd, env))
  {
    ReachesExactly(w, n, cmd);
    if cmd.token in w.conns {
      SmallMultiple(w.conns[cmd.token].handler - n);
    }
    if !Reaches(w, cmd) {
      UnreachedDeliversNothing(w, cmd, env);
    }
  }

  /** What is promised of a command from the n-th sender. */
  ghost predicate Discerns(w: Loop, n: nat, cmd: Command, env: Env) {
    && cmd.id == n % ID_SPACE
    && (cmd.token in w.conns ==> n <= w.conns[cmd.token].handler)
    && (Reaches(w, cmd) <==> cmd.token in w.conns && (w.conns[cmd.token].handler - n) % ID_SPACE == 0)
    && ((cmd.token in w.conns ==> w.conns[cmd.token].handler < n + ID_SPACE) ==>
          OnlyReaches(w, n, cmd) && (!Reaches(w, cmd) ==> NothingDelivered(w, Address(w, cmd, env))))
  }

  /** At every moment a command may be handled, in every run: every handler made so far was given a
      sender, and a command from it reaches the connection at its token exactly when a multiple of
      2^32 handlers lies between; with fewer than 2^32 between it is harmless. */
  lemma StaleSenderInRuns(s: Settings, listening: bool, polls: seq<PollResult>, reported: seq<Event>, k: nat,
      n: nat, signal: Signal, env: Env)
    requires TokensFit(s) && k <= |reported| && n < Moment(s, listening, polls, reported, k).log.created
    ensures var w := Moment(s, listening, polls, reported, k);
      && n < |w.log.senders|
      && Discerns(w, n, Command(w.log.senders[n].token, signal, w.log.senders[n].id), env)
  {
    var w := Moment(s, listening, polls, reported, k);
    MomentInv(s, listening, polls, reported, k);
    SendersDiscern(w, n, Command(w.log.senders[n].token, signal, w.log.senders[n].id), env);
  }

  lemma SendersDiscern(w: Loop, n: nat, cmd: Command, env: Env)
    requires Inv(w) && StampedBy(w, n, cmd)
    ensures Discerns(w, n, cmd, env)
  {
    assert SenderOk(w, n);
    ReachesExactly(w, n, cmd);
    if cmd.token in w.conns ==> w.conns[cmd.token].handler < n + ID_SPACE {
      StaleSenderIsHarmless(w, n, cmd, env);
    }
  }
}
