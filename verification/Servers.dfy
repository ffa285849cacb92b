// A server from its start: what the objects of the event loop hold after any number of polls.
module Servers {
  import opened Types
  import opened LoopSpec
  import opened LoopSafety
  import opened LoopRuns
  import opened LoopTidy
  import opened LoopHears
  import opened Deeds
  import opened LoopDeeds
  import opened ConnectionSpec
  import opened EventLoop

  /** The calls made and the bytes moved are those accounted for. */
  predicate Accounted(trace: Trace, d: Deed) {
    trace.calls == d.calls && trace.received == d.received && trace.sent == d.sent
  }

  /** Runs a new event loop on the first polls of a run. Whatever poll, sockets, handlers and other
      threads do, for every connection object in the slab the bytes its socket took and those
      unsent are the messages the run addressed to it, and the calls its handler got and the bytes it
      received and sent are those its events account for; and if the environment is gentle, no object
      with unsent bytes is without an armed write interest, nor one whose stream has not ended without
      an armed read interest. */
  method Serve(s: Settings, listens: bool, polls: seq<PollResult>) returns (server: Handler)
    requires TokensFit(s)
    ensures server.Is(Run(Initial(s, listens), polls))
    ensures !server.panicked ==> forall t | t in server.slab ::
              var c := server.slab[t];
              c.trace.sent + c.output.View().Unread() == Flatten(RunPayload(Initial(s, listens), polls, t, c.handler))
    ensures !server.panicked && GentleRun(Initial(s, listens), polls) ==> forall t | t in server.slab ::
              var c := server.slab[t];
              t in server.armed && (c.output.View().Unread() != [] ==> c.events.writable && server.armed[t].writable)
    ensures !server.panicked && GentleRun(Initial(s, listens), polls) ==> forall t | t in server.slab ::
              var c := server.slab[t];
              c.handler in RunDeaf(Initial(s, listens), polls) ||
              (c.events.readable && t in server.armed && server.armed[t].readable)
    ensures !server.panicked ==> forall t | t in server.slab ::
              Accounted(server.slab[t].trace, RunDeed(Initial(s, listens), polls, t, server.slab[t].handler))
  {
    server := new Handler(s, listens);
    server.Loops(polls);
    ghost var w := Run(Initial(s, listens), polls);
    if !server.panicked {
      forall t | t in server.slab
        ensures var c := server.slab[t];
          c.trace.sent + c.output.View().Unread() == Flatten(RunPayload(Initial(s, listens), polls, t, c.handler))
      {
        assert w.conns[t] == server.slab[t].View();
        EndToEnd(s, listens, polls, t, server.slab[t].handler, w.conns[t]);
      }
      forall t | t in server.slab
        ensures Accounted(server.slab[t].trace, RunDeed(Initial(s, listens), polls, t, server.slab[t].handler))
      {
        assert w.conns[t] == server.slab[t].View();
        DeedsOfRuns(s, listens, polls, t, server.slab[t].handler, w.conns[t]);
      }
      if GentleRun(Initial(s, listens), polls) {
        forall t | t in server.slab
          ensures var c := server.slab[t];
            t in server.armed && (c.output.View().Unread() != [] ==> c.events.writable && server.armed[t].writable)
        {
          assert w.conns[t] == server.slab[t].View();
          NoLostWakeup(s, listens, polls, t);
        }
        forall t | t in server.slab && server.slab[t].handler !in RunDeaf(Initial(s, listens), polls)
          ensures server.slab[t].events.readable && t in server.armed && server.armed[t].readable
        {
          assert w.conns[t] == server.slab[t].View();
          NoLostReads(s, listens, polls, t);
        }
      }
    }
  }
}
