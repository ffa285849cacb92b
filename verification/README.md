# XnetSocket: a verified model of the connection and the event loop

XnetSocket is an event-driven socket server: one loop polls, and owns a bounded slab of
connections, a command channel, timers and a listener; each connection owns a socket, an input and
an output buffer, and a handler made by a factory. This project models both layers in Dafny and
proves what they promise together.

## How it is laid out

Each layer is modelled twice.

- As objects, in the source's own form: `Cursors.Cursor` (a byte vector with a cursor, updated in
  place), `Connections.Connection` (the connection's methods, step by step, loops included) and
  `EventLoop.Handler` (the loop, with a slab of connection objects that share nothing). A method
  that walks the slab takes its connections in any order.
- As values, in `Buffers`, `ConnectionSpec`, `Slabs` and `LoopSpec`: functions that say what each
  step does, given what the environment answers. Every method of the objects is proved to do
  exactly that (`Is` says: the same value, or both panicked).

The laws are proved on the values, for all inputs, and so hold of the objects: `ConnectionProofs`,
`ConnectionLaws` and `Lifecycle` for one connection, `ConnectionSteps` and `Deeds` for what a step of
the loop does to one connection, `LoopInvariant` and `LoopSafety` for every step of the loop in any
environment, `LoopReactions` for what single events and commands bring about, `LoopRuns`, `LoopDeeds`,
`LoopTidy`, `LoopHears`, `LoopLaws` and `LoopPanics` for whole runs, `StaleSenders` and `Broadcasts`
for commands. `Utf8` says what text is. `LoopPhases` splits a broadcast into the walks the loop makes.
`Servers` puts objects and laws together.

## The environment

Sockets, poll, timers, other threads and the callbacks of handlers and factory are inputs: each
event carries what they answer while it is handled (`LoopSpec.Env`). A socket read is a script of
answers, each giving some bytes (none at end of stream), refusing or failing; a write takes any
number of the bytes offered, refuses or fails. Registrations are oneshot: an event disarms the
one it is reported for. A callback that sends commands is covered by commands arriving before the
next event. The factory's handlers are numbered in the order they are made; that number identifies
a connection in the laws, where the source has only the slab key and a 32-bit id.

Some laws restrict the environment. `NoLostWakeup`, `NoLostReads` and `TeardownOnce` are stated for runs that are
`Gentle`: the connections a command has rearmed are rearmed, an accepted socket or a dialled client
is registered, `on_new_timeout` returns no error that hangs up, and a connect from a connection's
own sender does not fail in `set_nodelay`; rearming after a connection's own event or timer may
fail. This is exact for the state behind these laws after every event (`HandleEventTidyIff`,
`RunTidyIff`). For the laws themselves at a return to poll it is sufficient and not necessary: a
connection hung up by a failed rearming is removed after all if its own event comes later in the
same batch. `ShutdownOnce` needs that a batch reports the queue at most once, as its oneshot
registration does; `ShutdownsExactly` does not. `AddressFallback` and `AddressesExhausted` are about
a connect whose `set_nodelay` succeeds, the first also about one whose registration does. A lemma about
one case names it in its premises; everything else holds in every environment.

Growing a vector gives it the larger of twice its capacity and what is required, `with_capacity`
is exact, and offering a full vector to a socket read first reserves 64 bytes: these are the
contracts of the standard library and of the `bytes` crate, which are not part of this model. Debug
assertions are on. A panic is final: it ends the run, and the laws speak of runs that have not
panicked; `HandleEventPanicsIff` and `RunPanicsIff` say exactly which do.

## What the proofs found

Where a promise one might read into the code does not hold, the exact condition is proved.

- A peer's end of stream hangs a connection up only if it is the first thing a read meets and the
  input vector is empty, because the length tested is that of the vector and not of the read
  (`EndOfStreamHangsUpExactly`).
- Bytes that exactly fill a vector of the read loop are held back until the socket answers again.
  When that happens follows from the lengths of the answers (`ReadDeliversExactly`); for one burst
  the condition is that some vector, the first, the compacted one or one of the grown ones, ends
  where it ends (`ExactFillIsHeldBack`, `FillsExactly`).
- Turning growth off does not bound the output vector (`GrowthOffStillEnlarges`).
- A failed rearming while a command is handled hangs a connection up and leaves it in the slab; the
  other ways to lose a wakeup or a teardown are the negations in `Gentle`, and there are no more
  (`HandleEventTidyIff`). Every later close that cannot be rearmed hangs the connection up again
  (`EachFailedCloseHangsUp`, `HungUpTwice`).
- A connect whose `set_nodelay` fails drops a handler that the factory never gets back
  (`ConnectDropsExactly`).
- A sender outlives its connection safely only while fewer than 2^32 handlers are made
  (`ReachesExactly`).
- With `panic_on_internal`, which is on by default, one connection's connect that reaches no address
  panics the whole loop (`UnansweredConnectPanicsIff`). So does, with any settings, a connect that
  finds a slot and a name that does not resolve, and the event of a connection removed earlier in
  the batch, by a timer for example (`HandleEventPanicsIff`, `HungUpByTimerPanics`).
- The constant `MESSAGES_PER_TICK` suggests 256 commands for each queue event; the loop takes one
  (`QueueIsFifo`).

## Model

| member | source | states |
|---|---|---|
| Servers.Serve | src/io.rs:246-292 | after any polls, every connection object in the slab has sent, followed by unsent, exactly the messages the run addressed to it, and its calls and its traffic are those its events account for; in a gentle environment none with unsent bytes lacks an armed write interest, and none whose stream has not ended an armed read interest |
| LoopRuns.EndToEnd | src/io.rs:382-392 | for every connection ever created, bytes sent followed by bytes unsent are the payloads addressed to it or broadcast, in queue order, that found it live, not closing and with room: whole, once each, none crossed |
| LoopRuns.RunSafe | src/io.rs:261-292 | the loop invariant holds at every return to poll, every connection is traced to a later value or its removal, and each accepts exactly the messages listed for it |
| LoopRuns.CloseFreezes | src/connection.rs:444-501 | from any moment on, within a batch or between batches, a closing connection stays closing until removal, accepts nothing more, and all it ever sends is a prefix of what it had accepted |
| LoopDeeds.DeedsOfRuns | src/io.rs:261-292 | in every run, for every connection ever made, the calls its handler got, in order, the bytes received from its socket and sent to it, and whether it is closing, are those its events account for |
| LoopDeeds.HandleEventDoes | src/io.rs:355-470 | an event makes each connection do exactly what the answers of its inputs say, and the others nothing |
| LoopDeeds.HandleConnDoes | src/io.rs:393-468 | an event on a connection reads, writes, reports what fails and rearms, as far as the event and the interest agree, and makes no other connection do anything |
| LoopDeeds.HandleTimersDoes | src/io.rs:630-644 | each timer that fires tells the connection at its token of its own event, and reports what that returns |
| LoopDeeds.HandleQueueDoes | src/io.rs:472-627 | a command makes exactly the connections it is for be told, close or be rearmed; a shutdown tells and closes every one |
| Deeds.OnReadyDoes | src/io.rs:394-461 | a connection reads and then writes exactly if the event and the interest it has by then say so, and keeps no interest exactly if it had none or was hung up |
| LoopReactions.CloseCommandCloses | src/io.rs:490-567 | a close that reaches a connection, a close to all, and a shutdown from anyone leave the connections they are for awaiting the peer's close |
| LoopReactions.CloseCommandFreezes | src/io.rs:490-567 | from then on such a connection accepts nothing, and all it ever sends is a prefix of what it had accepted before |
| LoopReactions.HandleConnStaysIff | src/io.rs:313-333 | after its event a connection stays, armed again, exactly if it had some interest, was not hung up and could be rearmed; otherwise it leaves the slab and its handler is given back |
| LoopReactions.HandleTimeoutStaysIff | src/io.rs:630-644 | the same after a timer |
| LoopReactions.PollDisarms | src/io.rs:262-288 | registrations are oneshot: those poll reports an event for are disarmed, and no others |
| LoopReactions.FailedReadHangsUp | src/io.rs:399-425 | a read that fails with an I/O or an Http error that does not panic tells the handler, calls on_close last, removes the connection and gives its handler back |
| LoopReactions.InterruptStopsIff | src/io.rs:269-276 | an interrupted poll ends the loop exactly if it is to, without shutting the factory down, and changes nothing else |
| LoopReactions.FailedPollEnds | src/io.rs:277-281 | a poll that fails ends the loop and leaves all else as it was |
| LoopPanics.HandleEventPanicsIff | src/io.rs:355-627 | whatever the settings, an event panics exactly if it is for the system or for a token neither reserved nor in the slab, finds no listener, connects to a name that does not resolve, or meets an error whose setting makes it panic |
| LoopPanics.RunPanicsIff | src/io.rs:261-292 | a run panics exactly when one of its events does |
| LoopPanics.HandleConnPanicsIff | src/io.rs:393-468 | an event on a connection panics exactly when its read, by the lengths of the socket's answers, its write or its rearming ends with an error that is to panic |
| LoopPanics.HandleQueuePanicsIff | src/io.rs:472-627 | the same for each command: refused messages, failed rearmings, timeouts and connects |
| LoopPanics.UnansweredConnectPanicsIff | src/io.rs:577-587 | a connect from a connection's own sender that reaches no address panics the loop exactly when internal errors are to panic |
| LoopPanics.HungUpByTimerPanics | src/io.rs:393-401 | the event of a connection that a timer hung up earlier in the batch panics the loop |
| LoopTidy.NoLostWakeup | src/io.rs:295-333 | at every return to poll of a gentle run, a live connection is armed, and with write interest if it has unsent bytes |
| LoopHears.NoLostReads | src/connection.rs:376-387 | at every return to poll of a gentle run every live connection is interested in reading and armed for it, unless it met the end of its stream with something to write, or could not be registered when it was accepted |
| LoopTidy.TeardownOnce | src/io.rs:313-333 | in a gentle run no connection in the slab has had on_close; each one removed had it once, as its last call, and its handler was given back once |
| LoopTidy.HandleEventTidyIff | src/io.rs:355-470 | each event keeps every connection live and watched, counting the events still in the batch, and every removed one hung up just once, exactly when the environment is gentle to it |
| LoopTidy.RunTidyIff | src/io.rs:261-333 | a run that does not panic is so after every event exactly when its environment is gentle throughout |
| LoopTidy.AddressTidyIff | src/io.rs:546-625 | an addressed message or close keeps that state exactly when rearming the connection at its token succeeds |
| LoopTidy.HungUpTwice | src/connection.rs:348-356 | two closes in a row for one connection of the slab, with both rearmings failing, call on_close for it twice |
| LoopTidy.EachFailedCloseHangsUp | src/io.rs:546-625 | every close whose rearming fails calls on_close once more and leaves the connection in the slab |
| LoopTidy.BroadcastTidyIff | src/io.rs:477-544 | a broadcast keeps that state exactly when it rearms every connection; each is armed for the bytes it leaves unsent, although refusals are reported after the arming |
| LoopLaws.QueueIsFifo | src/io.rs:382-392 | a queue event that finds a command takes the first one and no other, no other event takes any, and none is lost |
| LoopLaws.RunIsFifo | src/io.rs:261-292 | in every run the commands handled, followed by those waiting, are all that ever arrived, in order |
| LoopLaws.ShutdownOnce | src/io.rs:246-353 | with at most one queue event in a batch the factory is shut down at most once, exactly once when the loop ended otherwise than by an interrupt or a poll error, and an ended loop polls no more |
| LoopLaws.ShutdownsExactly | src/io.rs:300-353 | in every run, whatever poll reports, the factory is shut down once for each shutdown command handled and once more if the loop ran out of connections |
| LoopLaws.TwoQueueEventsShutDownTwice | src/io.rs:300-310 | why ShutdownOnce asks for at most one queue event in a batch: two would shut the factory down twice |
| LoopLaws.HandlersConserved | src/io.rs:138-217 | every handler made is in the slab, was given back, or was dropped, in one place and once; none is dropped unless set_nodelay fails; the slab stays within its capacity |
| LoopLaws.ConnectDropsExactly | src/io.rs:159-175 | a connect drops a handler exactly when it found a slot and an address and set_nodelay then failed |
| LoopLaws.FullSlabRefuses | src/io.rs:142-149 | a socket accepted, or a connect handled, makes exactly one handler and uses one id unless the slab is full; then no handler is made or given back, no id is used, and no connection comes or goes |
| LoopLaws.AddressFallback | src/io.rs:159-184 | a connect uses the last resolved address that answers, stores exactly the addresses before it, and arms the fresh client for reading |
| LoopLaws.AcceptAdds | src/io.rs:198-244 | a socket accepted gets a fresh connection at a vacant key, armed for reading if it can be registered, and told and unarmed if not |
| LoopLaws.NotAccepted | src/io.rs:198-217 | a socket is turned away, and nothing changes, when its nodelay cannot be set or the slab is full |
| LoopLaws.AddressesExhausted | src/io.rs:171-194 | when no address answers or registering fails, the handler is given back and the slab is as it was |
| LoopLaws.ReachableStates | src/connection.rs:116-189 | at every moment, within a batch too, a connection is open or awaiting close, so closing never trips the assertion and a reset is always refused without effect |
| ConnectionLaws.NewConnectionsOpen | src/io.rs:212-241 | opening finds a new connection connecting, also one that was told its registration failed, which is then interested in writing only; making a client of an open one succeeds; either way it is fresh, with vectors of the configured capacities |
| LoopLaws.BuffersInRuns | src/connection.rs:364-557 | in every run, for every connection ever made, received bytes are the chunks taken and then the unread ones, handlers got exactly the text chunks in order, output capacity is never below its configured one and within that plus twice the peak of unsent bytes, and input that may not grow keeps its capacity until a Capacity error |
| StaleSenders.ReachesExactly | src/io.rs:138-149 | a command from the sender of any handler ever made, whatever became of it, reaches the connection now at its token exactly when a multiple of 2^32 handlers lies between, and that one is never older |
| StaleSenders.OccupantIsNewer | src/io.rs:142-147 | a slab key is only handed on to newer connections |
| StaleSenders.StaleSenderIsHarmless | src/io.rs:546-575 | with fewer than 2^32 between, the command is delivered only to the connection of its own handler, and otherwise changes no connection's buffers or close state |
| StaleSenders.StaleSenderInRuns | src/communication.rs:67-104 | the same for every handler made so far, at every moment of any run, within a batch too |
| Broadcasts.BroadcastIsInTurn | src/io.rs:477-544 | a broadcast message or close leaves the connections that sending it to each by its own token and id leaves, in any order and whichever rearmings fail, and panics exactly when that does |
| Broadcasts.BroadcastOutcomes | src/io.rs:481-489 | whichever rearmings fail, a broadcast message is, for each connection, ignored if closing, refused and closed if out of room with growth off, and otherwise appended whole; and the handler is told of nothing but that refusal and a failed rearming |
| LoopSafety.TokensAreOrdinary | src/io.rs:16-19 | no connection sits at a reserved token, so dispatch by token is unambiguous |
| LoopSafety.HandleEventSafe | src/io.rs:355-470 | in any environment each event keeps the invariant, traces every connection, and accepts exactly the payload it should |
| LoopSafety.HandleQueueSafe | src/io.rs:472-627 | the same for each command |
| LoopSafety.HandleConnSafe | src/io.rs:393-468 | the same, accepting nothing, for an event on a connection |
| LoopSafety.HandleTimersSafe | src/io.rs:377-381 | the same for the timers that fire |
| LoopSafety.AcceptSafe | src/io.rs:198-244 | the same for a new server connection, also when registering it fails |
| LoopSafety.ConnectToSafe | src/io.rs:138-195 | the same for a new client connection, also on every failure |
| LoopInvariant.RemoveInv | src/io.rs:320-321 | removing a connection keeps the invariant and remembers what it had accepted |
| LoopInvariant.InsertInv | src/io.rs:206-213 | inserting one at a vacant key, with the next id, keeps the invariant |
| Slabs.VacantInIsFree | src/io.rs:142-143 | a slab that is not full has a vacant key, whichever is preferred |
| LoopSpec.PickAddress | src/io.rs:159-175 | the last address that answers, or none if none does |
| Lifecycle.WriteRearms | src/connection.rs:406-442 | a write that does not fail keeps write interest exactly while bytes remain; the only failure is an I/O error |
| Lifecycle.ReadAliveOrEnded | src/connection.rs:364-391 | a read leaves a live connection live, or hangs it up once and succeeds |
| Lifecycle.ErrorAliveOrEnded | src/connection.rs:227-346 | reporting an error leaves a live connection live or hangs it up once |
| Lifecycle.EndOfStreamHangsUpExactly | src/connection.rs:376-387 | whatever the socket answers, a read hangs up exactly when end of stream comes first, the input vector is empty, nothing is to be written and the handler takes the empty message |
| Lifecycle.AfterReadInputBounded | src/connection.rs:531-557 | an input vector that may not grow keeps its configured capacity and room in it until Capacity is reported |
| ConnectionSteps.OnReadyStep | src/io.rs:394-465 | reading and then writing keeps all a connection's invariants, accepts nothing, leaves it live or hung up once, and never resets it |
| ConnectionSteps.Broadcast1Step | src/io.rs:481-544 | delivery with its reports keeps them too, and accepts the message exactly when it should |
| ConnectionProofs.SendMessageOutcome | src/connection.rs:444-467 | a message is taken whole or not at all; Capacity exactly when growth is off, the connection is not closing and its full capacity is unsent |
| ConnectionProofs.SendMessageKeeps | src/connection.rs:444-467 | sent followed by unsent stays what was accepted |
| ConnectionProofs.WriteKeeps | src/connection.rs:406-442 | a partial write moves bytes from unsent to sent and nothing else |
| ConnectionProofs.ReadKeeps | src/connection.rs:364-404 | received stays the chunks taken followed by the unread bytes; each chunk that is text goes to the handler once, another never does |
| ConnectionProofs.ReadDeliversExactly | src/connection.rs:376-404 | whether a read hands over everything unread as one chunk, holds it back, or runs out of room having received just what fits, is decided by the lengths of the socket's answers; a chunk that is not text fails with an encoding error and no call |
| ConnectionProofs.ExactFillIsHeldBack | src/connection.rs:534-556 | one burst is handed over exactly when it fits and fills no vector of the loop exactly; up to the end of the first vector, exactly when it stops short of that end |
| ConnectionProofs.ErrorKeeps | src/connection.rs:227-346 | reporting an error moves no byte and undoes no close |
| ConnectionLaws.ErrorPanicsBySetting | src/connection.rs:265-344 | which setting makes an error panic, kind by kind; Http and Custom never do |
| ConnectionLaws.ErrorLaw | src/connection.rs:265-344 | Internal, Capacity, Protocol and Encoding are told and close, Http and I/O are told and hang up once, Timer, Queue and Custom are only told; nothing else changes |
| ConnectionLaws.ErrorWhileConnecting | src/connection.rs:227-264 | before the handshake is over an error is told and never panics |
| ConnectionLaws.NothingWhileConnecting | src/connection.rs:364-442 | before the handshake is over nothing is read or written, and the interest is left alone |
| ConnectionLaws.CloseLaw | src/connection.rs:471-501 | a close leaves the connection awaiting the peer's, interested in reading and in writing if bytes are unsent, and calls nobody |
| ConnectionLaws.CloseLawElsewhere | src/connection.rs:471-501 | a close that answers the peer's finishes; before the handshake is over it trips the assertion |
| ConnectionLaws.HangUpLaw | src/connection.rs:348-356 | hanging up calls on_close unless the close was agreed on, and leaves no interest |
| ConnectionLaws.ShutdownLaw | src/connection.rs:209-215 | a shutdown calls on_shutdown once and closes |
| ConnectionLaws.TimeoutLaw | src/connection.rs:217-225 | a new timeout and one that fires call their own callback with the event of the timeout, and pass on what it returns |
| ConnectionLaws.WriteLaw | src/connection.rs:417-437 | a write moves exactly the bytes the socket took from unsent to sent, and leaves the connection interested in reading, and in writing exactly while bytes remain |
| ConnectionLaws.WriteOnceFinished | src/connection.rs:420-430 | a server whose close is agreed on is done once nothing is written |
| ConnectionLaws.MessageLaw | src/connection.rs:444-467 | a message accepted changes the output only, and makes the connection interested in reading, and in writing if bytes are unsent |
| ConnectionLaws.ReadLaw | src/connection.rs:364-391 | a read records what it received and whom it called, by the socket's answers, and stops reading or hangs up only at an end of stream at an empty vector |
| ConnectionLaws.ResetLaw | src/connection.rs:165-189 | a client still connecting takes its addresses from the last to the first, and fails when none is left |
| Utf8.TextIsEncoding | src/connection.rs:393-404 | a chunk counts as text exactly if it is the UTF-8 encoding of some Unicode scalar values |
| Buffers.CheckBufferOutKeepsUnsent | src/connection.rs:514-529 | making room never changes the unsent bytes, and is refused exactly when growth is off and the whole capacity is unsent |
| Buffers.AppendSpace | src/connection.rs:444-529 | an append enlarges the vector only when no sent byte is left in it, and then at least doubles it, to at most the configured capacity plus twice the unsent bytes |
| Buffers.GrowthOffStillEnlarges | src/connection.rs:514-529 | with growth off an accepted message enlarges the vector exactly when it does not fit beside the unsent bytes |
| Buffers.BufferInStream | src/connection.rs:531-557 | compaction and growth are invisible: the bytes received leave the socket in order and follow the unread ones |
| Buffers.MeetsFate | src/connection.rs:531-557 | the read loop answers with a length, with nothing, with the failure that comes next, or with Capacity as the lengths of the socket's answers foretell, and receives all of the answers it uses up |
| Buffers.OverrunTakesWhatFits | src/connection.rs:531-557 | a read that runs out of room has received exactly the bytes that fill the vector beside those already unread |
| Buffers.AnswersEmptyExactly | src/connection.rs:376-387 | the loop answers zero exactly for an end of stream that comes first to an empty vector |
| Buffers.LogarithmicPasses | src/connection.rs:531-557 | k >= 2 passes of the read loop need 2^(k-2) times the entry capacity in bytes |
| Buffers.HardInputBound | src/connection.rs:531-557 | with growth off the vector stays below its capacity; Capacity is answered exactly when it is full of unread bytes, losing none |
| Buffers.Fill | src/stream.rs:17-32 | one read adds what it takes to the end of the vector, and takes something unless the stream ended |
| Cursors.Cursor.TryRead | src/stream.rs:17-32 | a read advances the vector by what the socket gave; a refusal is no error |
| Cursors.Cursor.TryWrite | src/stream.rs:34-47 | a write advances the cursor by what the socket took, never past the end |
| Cursors.Cursor.Write | src/connection.rs:457-463 | overwrites from the cursor, extends the rest; at the end it appends |
| Connections.Connection.constructor | src/connection.rs:99-113 | a new connection is connecting, with empty buffers of the configured capacities |
| Connections.Connection.Open | src/connection.rs:116-124 | becomes open whatever it was; succeeds if it was connecting |
| Connections.Connection.MakeServer | src/connection.rs:126-129 | gains read interest |
| Connections.Connection.MakeClient | src/connection.rs:131-145 | an open connection becomes a client with the addresses given |
| Connections.Connection.TryReset | src/connection.rs:165-189 | only a connecting client takes its next address |
| Connections.Connection.UpdateEvents | src/connection.rs:503-511 | write interest is added when bytes are unsent |
| Connections.Connection.Close | src/connection.rs:471-501 | an open connection awaits close, a later close changes no state |
| Connections.Connection.HangUp | src/connection.rs:348-356 | on_close is called unless the close was already agreed, and no interest is left |
| Connections.Connection.Shutdown | src/connection.rs:209-215 | the handler is told and the connection closes |
| Connections.Connection.Report | src/connection.rs:227-346 | the handler is told, and the kind of the error decides between closing, hanging up, panicking and nothing |
| Connections.Connection.ReadPass | src/connection.rs:534-555 | one pass of the read loop, as the specification has it |
| Connections.Connection.FillInput | src/connection.rs:531-557 | the read loop ends with the buffer, the answer and the bytes of the specification |
| Connections.Connection.TakeInput | src/connection.rs:393-404 | takes all that is unread as one chunk for the handler if it is text, an encoding error if not |
| Connections.Connection.Read | src/connection.rs:364-391 | the read loop, delivery and end of stream together |
| Connections.Connection.Write | src/connection.rs:406-442 | write interest is dropped, and kept again if bytes remain |
| Connections.Connection.MakeOutputRoom | src/connection.rs:514-529 | compacts, grows or refuses as the specification says |
| Connections.Connection.Send | src/connection.rs:444-467 | seeks to the end, writes, and seeks back: an append |
| Connections.Connection.RecoverFrom | src/io.rs:402-425 | a refused connection is reset if that works, any other failure is reported |
| Connections.Connection.React | src/io.rs:394-461 | reads and then writes, as far as the event and the present interest agree |
| EventLoop.Handler.CheckIt | src/io.rs:313-333 | a connection with no interest left, or that cannot be rearmed, is removed and its handler given back |
| EventLoop.Handler.ConnectToUrl | src/io.rs:138-195 | adds a client connection or fails as the specification says |
| EventLoop.Handler.Dial | src/io.rs:159-175 | pops addresses until one answers; what is left are the addresses before it |
| EventLoop.Handler.AcceptSocket | src/io.rs:198-244 | adds a server connection or fails as the specification says |
| EventLoop.Handler.HandleConnection | src/io.rs:393-468 | an event on a connection object |
| EventLoop.Handler.HandleTimerEvent | src/io.rs:377-381 | fires timers one by one until one panics |
| EventLoop.Handler.HandleFire | src/io.rs:630-644 | a timer that fires for a connection gone from the slab does nothing |
| EventLoop.Handler.Each | src/io.rs:484-488 | a walk over the slab in any order changes every connection as its task says and collects the failures |
| EventLoop.Handler.RearmEach | src/io.rs:535-539 | arms every connection with its present interest and collects the failures |
| EventLoop.Handler.BroadcastSignal | src/io.rs:477-544 | the walks that deliver, rearm and report are together the broadcast of the specification |
| EventLoop.Handler.AddressOne | src/io.rs:548-575 | delivers only if the id matches, and rearms whatever is at the token |
| EventLoop.Handler.ShutdownEach | src/io.rs:300-310 | tells every connection, then the factory, and stops |
| EventLoop.Handler.HandleCommand | src/io.rs:472-627 | dispatches a command by its token |
| EventLoop.Handler.Handle | src/io.rs:355-470 | dispatches an event by its token |
| EventLoop.Handler.CountConnections | src/io.rs:341-353 | an active client loop without connections stops |
| EventLoop.Handler.Loops | src/io.rs:261-292 | polls while active until a poll fails, as the run of the specification |
| LoopPhases.BroadcastInPhases | src/io.rs:477-544 | delivering to all, arming all and then reporting failures equals each connection's own outcome |

## Left out

- Real sockets, poll, name resolution and the timer wheel: replaced by the environment's answers.
- The bound of the command channel, and a sender that blocks or fails on it; commands simply arrive.
- Setting up the listener and registering the channel and the timer before the loop starts.
- Which timeouts were set: any timer may fire for any token at any time.
- The opcode and close-code tables, and close codes and reasons altogether: nothing is framed or sent for a close.
- The text of error replies written while a connection is still connecting.
- The difference between text and binary messages: a message is its bytes.
- TLS negotiation, which the only kind of stream never does.
- The settings for fragments, which nothing modelled reads.
- The order in which a slab hands out vacant keys: any vacant key may be taken.
- What a panic leaves behind: a run ends there.
