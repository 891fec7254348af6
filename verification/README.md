# A verified model of highServer's core

highServer is a reactor-style network library: one event loop per thread, non-blocking connections with user-space
buffers, a timer queue behind one timer descriptor, a connector that retries with a growing pause, and an asynchronous
double-buffered logger. This project models that core in Dafny and proves what it is relied on for, over every run:
every interleaving of threads, every result the kernel may give, every order of events.

Each component appears twice. A *state machine over values* (a `State`, its `Event`s, `Enabled`, `Next`, and `Run`
over a sequence of events) says what one step does; theorems about it are inductions over all `Legal` runs. A *class in
the form of the source* updates its fields, arrays and buffers in place, with the branches and loops of the source; its
methods are proved to take exactly the step of the machine (`View() == Next(old(View()), e)`), and most of them keep a
ghost history, so that what holds of every run holds of every state the object reaches (the lemmas named `Sound`).
What the machines keep as history is itself pinned to the events: what was queued, logged, accepted, read and sent is
defined on the sequence of events alone, and each step has a lemma that says, value by value, what it does.
System calls, clocks and other threads are inputs: any prefix of a write is taken, any chunk is read, any errno comes
back, any script of actions is what a callback does.

| files | component |
|---|---|
| `Buffer.dfy`, `Codec.dfy` | the growable buffer on its storage array; length-prefixed framing and the incremental decoder |
| `Connection.dfy`, `ConnectionEffects.dfy`, `TcpConnection.dfy`, `Link.dfy` | one connection as a machine and as an object; two connections end to end |
| `Poller.dfy` | channels, their masks, and the kernel's interest list |
| `TimerSpec.dfy`, `TimerProofs.dfy`, `TimerCalls.dfy`, `TimerCancel.dfy`, `TimerFates.dfy`, `TimerArming.dfy`, `TimerQueue.dfy` | the timer queue over a heap whose addresses are reused; the object |
| `EventLoop.dfy` | functor queue, wake-up counter, and the loop |
| `LoggingSpec.dfy`, `AsyncLogging.dfy`, `FixedBuffer.dfy`, `LogFile.dfy`, `Chunks.dfy` | the logger, its owned buffers, and its files |
| `ConnectorSpec.dfy`, `ConnectorProofs.dfy`, `ConnectorEffects.dfy`, `ConnectorStarts.dfy`, `Connector.dfy` | connection attempts, their sockets and timers, the backoff; which starts are safe; the object with its channel |
| `Numerals.dfy`, `LogStream.dfy` | numbers as text, and the conversion that writes them in place |

## Where a plain statement is false

The model keeps the code as it is. Where the obvious claim does not hold, an exact condition is proved instead.

- A message survives framing exactly if it has at most 65536 bytes; `send` does not check (`Codec.RoundTripIffWithinLimit`).
- The assert after the search in `getExpired` holds exactly if no timer is due at the very microsecond of `now`: the
  sentry `(now, null)` stops in front of such a timer, which stays in the queue (`TimerProofs.ExpiredExactly`); a timer
  added for the time the clock shows is one (`TimerProofs.DueJustNow`). The model goes on as a build without asserts does.
- `disableAll` followed by `removeChannel` meets the asserts of the removal exactly if the channel was *not* registered
  before, because disabling a channel that is not registered registers it with an empty mask
  (`Poller.DisableAndRemoveIffUnregistered`). So closing a connection and destroying it later is fine, whatever other
  channels do meanwhile, exactly if nothing registers its channel again (`Poller.CloseOthersDestroy`,
  `Poller.DestroyIffUnregistered`), as switching write interest on does (`Poller.CloseWriteDestroyFails`).
- The assert in `handleClose` holds exactly if the connection was established and no shutdown on any thread, no bad
  length and no destruction has come since (`Connection.ClosesExactlyIfStillOpen`); after a local `shutdown` it fails in
  every later state (`Connection.NeverOpenAgain`).
- Every assert on the way of `connectDestroyed`, the removal included, holds exactly if the connection is still open in
  that sense and the run leaves its channel unregistered (`Connection.DestroysExactlyIf`). A close takes the registration
  away, and it stays away while nothing new has to wait (`Connection.CloseLeavesUnregistered`); without a close, after a
  second one, or after a send that has to wait, the destruction fails (`Connection.DestroyFailsAfter`).
- `callingPendingFunctors_` is never set, so what the loop's own thread queues outside an event callback does not wake
  the loop. In a loop that polls with no wake-up in sight, work is pending exactly if its own thread has queued something
  since the last swap (`EventLoop.UnnoticedIff`). It happens before
  the loop starts (`EventLoop.QueuedBeforeLoopGoesUnnoticed`) and to the last functor of a batch
  (`EventLoop.FunctorQueuedLastGoesUnnoticed`, `EventLoop.SuchARunExists`).
- A `quit` is forgotten exactly if `loop` is entered after it, since `loop` clears the flag (`EventLoop.QuitKeptIff`,
  `EventLoop.QuitBeforeStartIsLost`).
- A start of the connector is followed by a failing assert in some run, at once or later, exactly if it is not safe: the
  connector must be disconnected, an attempt that the kernel refuses or accepts must find no retry timer waiting or
  about to be called and no start queued, and one that proceeds must not find the channel of the last attempt
  (`ConnectorStarts.SafeStartIff`). Stopping does not help if the retry timer is in the batch of timers being called:
  its callback runs all the same (`ConnectorStarts.StopThenStartIff`, `ConnectorStarts.StopInBatchThenStartFails`,
  `TimerCancel.CancelledInBatchIsStillCalled`).
- The retry timer of the connector trips over the old channel exactly if it fires before the queued reset and the new
  attempt proceeds (`ConnectorStarts.TimerFaultsIff`, `ConnectorStarts.TimerAndResetPending`).
- The pause of the connector is reset by `restart` only: neither a successful attempt nor `start` shortens it.
- A line of exactly the size of a large buffer, or longer, is dropped by the logger; conservation counts the others.
- The repository's introduction speaks of edge-triggered polling; the code registers its masks without that flag and
  relies on being told again, and so does the model: a counter that was not read is reported by the next poll.
- When a write ends in an error, the bytes it took are in the file but not in `writtenBytes_`: the count falls short by
  exactly those bytes (`LogFile.AppendFile.Append`), so a file may outgrow `rollSize_` by them (`LogFile.AppendKeeps`).
  The rest of the line is dropped and later lines follow, so the files need not hold a prefix of the lines any more
  (`LogFile.LinesCanMissTheirEnd`). They hold the part taken of each line, in order; and that is a prefix, whatever the
  lines are, exactly if nothing was taken after the first line cut short (`Chunks.PrefixIffUnbroken`).
- `ensureWritableBytes` alone keeps the bound on the storage exactly if the room is there, or moving the data down makes
  it, or `writerIndex_ + len` is within the bound (`Buffers.Buffer.EnsureWritableBytes`); asking a new buffer for 1025
  bytes breaks it (`Buffers.ReserveOneTooMany`). Every other operation keeps it.

## Model

| member | source | states |
|---|---|---|
| Buffers.Buffer.Valid | include/net/Buffer.h:148-150 | the indexes are in order, and the storage is at most max(1032, 2M + 7) bytes, where M is the largest number of readable bytes there ever was; kept by append, prepend, retrieve, retrieveAll and readFd |
| Buffers.Buffer.constructor | include/net/Buffer.h:16-23 | a new buffer is empty, with 8 bytes free in front |
| Buffers.Buffer.Append | include/net/Buffer.h:81-85 | the readable bytes grow by exactly the data, wherever they lie in the storage |
| Buffers.Buffer.Prepend | include/net/Buffer.h:109-114 | the data come before the readable bytes; the storage is not replaced |
| Buffers.Buffer.Retrieve | include/net/Buffer.h:49-56 | drops the first bytes, whether or not some remain |
| Buffers.Buffer.RetrieveAll | include/net/Buffer.h:66-69 | drops everything and restores the room in front |
| Buffers.Buffer.EnsureWritableBytes | include/net/Buffer.h:91-95 | room for the bytes asked for, the readable ones unchanged; alone it keeps the bound on the storage if and only if the room was there, or moving makes it, or growing stays within the bound |
| Buffers.ReserveOneTooMany | include/net/Buffer.h:91-95 | a call that does not |
| Buffers.Buffer.MakeSpace | include/net/Buffer.h:133-145 | both branches make the room and keep the readable bytes, the assert of the second holds, and growth is bounded by readable + 2 * len + 7 |
| Buffers.Buffer.MoveDown | include/net/Buffer.h:139-141 | the forward copy within one block is right although source and target may overlap |
| Buffers.Buffer.HasWritten | include/net/Buffer.h:105-107 | bytes stored behind the readable ones become readable, in order |
| Buffers.Buffer.ReadFd | src/net/Buffer.cpp:7-27 | whatever the split between tail and overflow area, the bytes read follow the readable ones; an error changes nothing |
| Buffers.Buffer.ScatterRead | src/net/Buffer.cpp:8-17 | the kernel fills the tail first and the overflow area with the rest |
| Codec.HeaderSpells | example/Chat/code.h:46-48 | a length goes out as four bytes, the most significant first |
| Codec.HeaderValueSpells | example/Chat/code.h:26-27 | four bytes are read that way, as a signed number |
| Codec.HeadExactly | example/Chat/code.h:24-40 | what the decoder makes of the front of a stream, by the number its first four bytes spell: incomplete, a bad length, or the message and the rest |
| Codec.HeaderRoundTrip | example/Chat/code.h:46-48 | the length written in network order is the length read |
| Codec.HeaderOfValue | example/Chat/code.h:26-27 | four bytes are the header of the length they stand for |
| Codec.Send | example/Chat/code.h:42-50 | the bytes sent are the frame of the message: four bytes that spell its size, the most significant first, and then the message |
| Codec.OnMessage | example/Chat/code.h:22-41 | takes out of the buffer in place exactly what decoding its contents gives: messages in order, remainder, and the request to shut down |
| Codec.ParseConcat | example/Chat/code.h:22-41 | decoding a stream in two steps is decoding the whole, for arbitrary bytes |
| Codec.ParseRest | example/Chat/code.h:24-40 | the remainder holds no further message |
| Codec.ChunkingIsIrrelevant | example/Chat/code.h:22-41 | however the stream is cut into reads, the same messages and the same remainder come out |
| Codec.ParseAccountsForEveryByte | example/Chat/code.h:22-41 | any stream is the frames of the messages delivered, followed by the remainder; all messages are within the limit |
| Codec.ParsePrefixOfFrames | example/Chat/code.h:22-41 | from any prefix of the frames of a list of messages the decoder delivers a prefix of the list, holds back no complete message, and never meets a bad length |
| Codec.RoundTripIffWithinLimit | example/Chat/code.h:28-50 | a message is delivered as sent if and only if it has at most 65536 bytes |
| Codec.HeadIsFrame | example/Chat/code.h:28-36 | what the decoder takes from the front is a frame `send` would make |
| Connection.OutboundConservation | src/net/TcpConnection.cpp:62-91 | in every run, wire followed by output buffer is everything handed to the sender, and before a close write interest is on exactly while bytes wait |
| Connection.StepConserves | src/net/TcpConnection.cpp:135-159 | every event keeps that, for every result of `write`, errors included |
| Connection.WriteSideShutExactlyWhenDrained | src/net/TcpConnection.cpp:177-189 | with calls on the loop thread and up to the first close, the write side is shut exactly once a shutdown was asked for and everything accepted is on the wire, and at most once |
| ConnectionEffects.AcceptedIsSent | src/net/TcpConnection.cpp:48-58 | over every run, what was accepted is the messages sent while the connection was open and those another thread had queued |
| ConnectionEffects.SendEffect | src/net/TcpConnection.cpp:62-91 | a send puts on the wire what the kernel takes, if nothing waits, and the rest behind what waits, with write interest on |
| ConnectionEffects.WritableEffect | src/net/TcpConnection.cpp:135-159 | a writable descriptor moves what the kernel takes from the front of the buffer to the wire, and the last byte switches write interest off |
| ConnectionEffects.ReadEffect | src/net/TcpConnection.cpp:121-133 | a read delivers what can be decoded and keeps the rest; the end of the stream closes |
| ConnectionEffects.DeliveredIsRead | src/net/TcpConnection.cpp:121-133 | over every run, decoding all bytes read gives the messages delivered and the bytes left over |
| ConnectionEffects.ShutsOnlyThen | src/net/TcpConnection.cpp:135-189 | over every run up to the first close, shutdowns of other threads included, the write side is shut exactly at a shutdown, a bad length or the last byte after a shutdown, when nothing waits, with everything accepted on the wire |
| ConnectionEffects.DetachedIffEnded | src/net/TcpConnection.cpp:109-169 | a run counts as closed exactly if it has a close or a destruction |
| ConnectionEffects.WatchingEffect | src/net/TcpConnection.cpp:99-169 | which bits an established connection watches, and what a close and a destruction leave |
| Connection.ClosesExactlyIfStillOpen | src/net/TcpConnection.cpp:161-182 | the assert of the close holds, at a hang-up and at the end of the stream, if and only if the connection was established and no shutdown on any thread, bad length or destruction has come since |
| Connection.DestroysExactlyIf | src/net/TcpConnection.cpp:109-118 | the asserts of the destruction and of the removal in it hold if and only if the connection is still open in that sense and the run leaves its channel unregistered |
| Connection.RegistrationOfRun | src/net/EPoller.cpp:62-81 | what a run leaves the channel: a close takes the registration away or makes one that is not there, write interest switched on makes one, and draining after a close takes it away |
| Connection.CloseLeavesUnregistered | src/net/TcpConnection.cpp:109-169 | after one close, reads, writes and shutdowns leave the connection ready for its destruction |
| Connection.DestroyFailsAfter | src/net/TcpConnection.cpp:62-118 | runs of an open connection after which it fails: no close, two closes, and a send that has to wait after a close |
| Connection.NeverOpenAgain | src/net/TcpConnection.cpp:177-182 | once disconnected, no run makes them hold again |
| Link.EndToEnd | example/Chat/code.h:22-50 | in every run of two connections, for messages within the limit and whatever else happens at either end, the messages delivered are a prefix of those the client was asked to send; once buffer and wire are drained they are all of them |
| Link.EventsDecide | example/Chat/code.h:42-50 | what was sent and how much was read is decided by the events alone |
| Link.AnyMessageCanBeSent | example/Chat/code.h:42-50 | the runs include every message of at most 65536 bytes with every result of the write |
| Link.AnyChunkCanBeRead | src/net/Buffer.cpp:7-27 | and every chunk of what is on the wire |
| Link.AlwaysInStep | src/net/TcpConnection.cpp:62-159 | the client's stream is always the frames of what was sent, and the server has decoded exactly the part it has read |
| Link.WholeStream | example/Chat/code.h:22-50 | decoding the frames of messages within the limit gives the messages back, with nothing left |
| Link.EndOfStreamMeansAll | src/net/TcpConnection.cpp:62-189 | with the client on its loop thread and not closed: when it has shut its write side and the wire is read to the end, every message sent has been delivered and no byte is left over |
| TcpConnection.TcpConnection.Sound | src/net/TcpConnection.cpp:48-189 | of every state of the object: accepted, delivered and shut is what its history says, nothing is lost on the way out, the write side is shut exactly once drained, and it can be destroyed exactly as its history says |
| TcpConnection.TcpConnection.ConnectEstablished | src/net/TcpConnection.cpp:99-107 | the object takes the machine's step: connected, with read interest registered |
| TcpConnection.TcpConnection.Send | src/net/TcpConnection.cpp:48-58 | a message counts only while connected; on the loop thread it is sent at once, as the machine does, on another one it is queued and nothing else changes |
| TcpConnection.TcpConnection.SendInLoop | src/net/TcpConnection.cpp:62-91 | buffers, mask, registration and kernel see exactly the machine's step, for direct, partial and failed writes |
| TcpConnection.TcpConnection.HandleRead | src/net/TcpConnection.cpp:121-133 | reads, decodes and, on a bad length or the end of the stream, shuts or closes as the machine does |
| TcpConnection.TcpConnection.HandleWrite | src/net/TcpConnection.cpp:135-159 | drains the buffer as the machine does; the last byte switches write interest off and may shut the write side |
| TcpConnection.TcpConnection.HandleClose | src/net/TcpConnection.cpp:161-169 | a close disables every event of the channel, once, in the poller too |
| TcpConnection.TcpConnection.Shutdown | src/net/TcpConnection.cpp:177-182 | the state changes at once on any thread; the write side is shut on the loop thread, if nothing waits, or later |
| TcpConnection.TcpConnection.ConnectDestroyed | src/net/TcpConnection.cpp:109-118 | on an open connection whose channel is unregistered every assert holds, and the poller ends as it was, without the channel |
| Poller.MirrorAlways | src/net/EPoller.cpp:62-111 | over any legal sequence of calls, the interest list is exactly the channels marked as added, each with its own mask, and no request to the kernel is ever refused |
| Poller.OpEffect | include/net/Channel.h:40-57 | what each call does to the mask and the registration of its channel, and that it leaves the others alone |
| Poller.DisableAllToggles | include/net/Channel.h:54-57 | disabling everything unregisters a registered channel and registers one that is not |
| Poller.DisableAndRemoveIffUnregistered | src/net/EPoller.cpp:82-96 | removal right after disabling everything meets its asserts if and only if the channel was unregistered before |
| Poller.CloseOthersDestroy | src/net/TcpConnection.cpp:109-169 | close, then any legal calls on other channels, then destroy: every assert is met, the channel ends unregistered, and the others are as without the destruction |
| Poller.DestroyIffUnregistered | src/net/TcpConnection.cpp:109-169 | whatever comes between close and destruction, the asserts are met if and only if it leaves the channel unregistered |
| Poller.CloseWriteDestroyFails | src/net/TcpConnection.cpp:62-118 | write interest switched on in between makes them fail |
| Poller.FiresExactly | src/net/Channel.cpp:31-52 | which bits of an event ask for which callback |
| Poller.Dispatch | src/net/Channel.cpp:31-52 | exactly the callbacks that are set and asked for, in the order close, error, read, write |
| Poller.Channel.HandleEvent | src/net/Channel.cpp:31-52 | the calls made are those, and the handling flag is clear afterwards |
| Poller.Channel.EnableReading | include/net/Channel.h:40-43 | mask, index and interest list take the machine's step |
| Poller.Channel.EnableWriting | include/net/Channel.h:44-47 | the same for write interest |
| Poller.Channel.DisableWriting | include/net/Channel.h:49-52 | the same for giving up write interest |
| Poller.Channel.DisableAllEvents | include/net/Channel.h:54-57 | the same for giving up every event |
| Poller.EPoller.UpdateChannel | src/net/EPoller.cpp:62-81 | chooses the one request the kernel accepts, and restores the mirror the changed mask had broken |
| Poller.EPoller.RemoveChannel | src/net/EPoller.cpp:82-96 | with the asserts as preconditions, the channel is unregistered everywhere |
| Poller.EPoller.Update | src/net/EPoller.cpp:98-111 | the kernel accepts every request made |
| TimerSpec.AddTime | src/utils/DateTime.cpp:52-55 | adds whole microseconds, modulo 2^64; exact while it fits |
| TimerSpec.MicrosOfSeconds | src/utils/DateTime.cpp:53-53 | a second has a million microseconds, and a part of one is dropped |
| TimerSpec.HowMuchTime | src/net/TimerQueue.cpp:33-44 | the time to wait is the signed 64-bit difference, and 100 microseconds if that is less |
| TimerSpec.LowerBoundSplits | src/net/TimerQueue.cpp:138-140 | the search with the sentry separates the times before now from those at or after it |
| TimerProofs.IndexesAlwaysAgree | src/net/TimerQueue.cpp:92-196 | in every run, with callbacks adding and cancelling in mid-batch: the two indexes describe the same timers under their current expirations, every timer is in exactly one of queue, indexes and batch, and no pointer is followed or deleted after its delete |
| TimerProofs.StepKeepsInv | src/net/TimerQueue.cpp:92-196 | each single step keeps that |
| TimerProofs.ExpiredExactly | src/net/TimerQueue.cpp:135-155 | the batch is exactly the timers due before now, in order; the assert holds if and only if none is due just now |
| TimerProofs.DueJustNow | src/net/TimerQueue.cpp:138-141 | a run in which one is: a timer added for the time the clock shows |
| TimerProofs.TakenTogether | src/net/TimerQueue.cpp:143-151 | an entry leaves one index exactly if its id leaves the other |
| TimerProofs.ResetKeeps | src/net/TimerQueue.cpp:157-170 | re-inserting or deleting a called timer keeps the agreement; a restarted timer is in neither index while its expiration changes |
| TimerProofs.CancelKeeps | src/net/TimerQueue.cpp:101-115 | a cancellation takes the timer out of both indexes and deletes it once, or only marks it |
| TimerFates.NoTimerIsForgotten | src/net/TimerQueue.cpp:79-179 | over every run, a timer that nobody cancels stays stored with its interval in exactly one of queue, indexes and batch; only a timer for one call, once it has been called, may go |
| TimerFates.NewEffect | include/net/Timer.h:11-17 | a new timer has the time and interval asked for and the next number |
| TimerFates.AddEffect | src/net/TimerQueue.cpp:92-99 | adding puts the timer into both indexes, takes nothing out, and sets the descriptor if it is the earliest |
| TimerFates.CancelEffect | src/net/TimerQueue.cpp:101-115 | cancelling takes an active timer out of both indexes and deletes it, leaves a mark during a batch, and does nothing else |
| TimerFates.BeginEffect | src/net/TimerQueue.cpp:117-155 | a batch takes what is due out of both indexes, with no marks |
| TimerFates.CallEffect | src/net/TimerQueue.cpp:125-127 | each callback of the batch runs, for the time of the batch |
| TimerFates.ResetEffectOnTimer | src/net/TimerQueue.cpp:157-170 | a timer that repeats and was not cancelled goes on under its number, due its interval in microseconds after the batch, in both indexes; any other is deleted and the indexes stay |
| TimerFates.RearmEffect | src/net/TimerQueue.cpp:171-179 | the descriptor is set for the earliest timer, if there is one |
| TimerFates.FaultsAreNoticed | src/net/TimerQueue.cpp:92-179 | wherever a pointer is followed, a timer that is not there counts as a fault |
| TimerCalls.CallsOfEveryRun | src/net/TimerQueue.cpp:117-170 | over whole runs, no callback runs at or before its expiration, those of a batch run in order of expiration, and two calls of a repeating timer are for times more than its interval apart |
| TimerCancel.CancelIsFinal | src/net/TimerQueue.cpp:101-170 | after a cancellation of an active timer its callback never runs again; of a timer in the batch being called, at most in the rest of that batch, even if it repeats |
| TimerCancel.OneCallPerBatch | src/net/TimerQueue.cpp:125-127 | no batch calls a timer twice |
| TimerCancel.CancelledInBatchIsStillCalled | src/net/TimerQueue.cpp:101-127 | cancelling a timer of the batch being called takes nothing out of the batch: if its callback has not run, it is called all the same |
| TimerCancel.StaleCancelIsInvisible | src/net/TimerQueue.cpp:101-113 | cancelling an id whose timer is gone changes nothing any later run can tell, even if its address belongs to a newer timer |
| TimerArming.AlwaysArmedInTime | src/net/TimerQueue.cpp:33-57 | whenever the loop goes back to polling with timers outstanding, the descriptor has fired unread or is armed for a time no later than the earliest expiration, up to the 100 microseconds |
| TimerArming.CancelKeepsArming | src/net/TimerQueue.cpp:101-115 | cancelling the earliest timer leaves the descriptor early, never late |
| TimerQueue.TimerQueue.Sound | src/net/TimerQueue.cpp:79-196 | all of the invariant holds of every state of the object |
| TimerQueue.TimerQueue.SoundCalls | src/net/TimerQueue.cpp:117-132 | so do the order, the spacing and the arming |
| TimerQueue.TimerQueue.NewTimer | include/net/Timer.h:11-17 | a new timer gets a free address and the next sequence number |
| TimerQueue.TimerQueue.AddTimerInLoop | src/net/TimerQueue.cpp:92-99 | inserts into both indexes and re-arms if the timer is the earliest: one step of the machine |
| TimerQueue.TimerQueue.CancelInLoop | src/net/TimerQueue.cpp:101-115 | one step of the machine; the sizes of the indexes agree afterwards |
| TimerQueue.TimerQueue.HandleRead | src/net/TimerQueue.cpp:117-132 | for every script of the callbacks, handling is exactly: begin, one call per expired timer each followed by what its callback does, end, one reset per timer, re-arm |
| TimerQueue.TimerQueue.CallExpired | src/net/TimerQueue.cpp:125-127 | the batch is called from the first to the last, whatever the callbacks do |
| TimerQueue.TimerQueue.RunCallback | src/net/TimerQueue.cpp:125-127 | a callback's additions and cancellations happen one by one, in its order, in the middle of the batch |
| TimerQueue.TimerQueue.GetExpired | src/net/TimerQueue.cpp:135-155 | takes from both indexes what the machine takes, and follows no dangling pointer |
| TimerQueue.TimerQueue.CountExpired | src/net/TimerQueue.cpp:138-143 | finds the position of the sentry |
| TimerQueue.TimerQueue.ResetTimer | src/net/TimerQueue.cpp:160-170 | heap and indexes afterwards, value by value: restarted under its number and inserted into both, or deleted |
| TimerQueue.TimerQueue.Reset | src/net/TimerQueue.cpp:157-179 | every timer of the batch is dealt with once, and then the descriptor is re-armed |
| TimerQueue.TimerQueue.InsertTimer | src/net/TimerQueue.cpp:181-196 | both indexes grow by one and the first stays sorted; the timer stands first if it became the earliest, and otherwise the earliest time is unchanged |
| EventLoop.FunctorsRunInOrder | src/net/EventLoop.cpp:105-114 | over every interleaving, and wherever functors are queued, functors started, rest of the batch and functors pending are together the pushes in their order; each runs at most once |
| EventLoop.RunRemembers | src/net/EventLoop.cpp:66-183 | over every run, stage, functors queued, pending and started, counter and threads still to wake are what the events alone say: one functor for each event that queues one, all taken out by a swap, started one by one |
| EventLoop.WhatCanHappen | src/net/EventLoop.cpp:66-114 | other threads can act at any time, and the loop can go on from every stage |
| EventLoop.NoLostWakeup | src/net/EventLoop.cpp:66-92 | outside the event callbacks, every pending functor of another thread has left the counter positive or its thread is about to raise it, and none comes from an event callback; a quit flag that is set while polling has woken the loop, or is about to; also when a poll returns without reporting the counter |
| EventLoop.UnnoticedIff | src/net/EventLoop.cpp:66-114 | in a loop that polls with no wake-up in sight, work is pending if and only if the loop's own thread has queued something since the last swap; all of it was queued by functors or outside the loop |
| EventLoop.QueuedBeforeLoopGoesUnnoticed | src/net/EventLoop.cpp:66-114 | a functor queued on the loop thread before the loop starts is such work |
| EventLoop.FunctorQueuedLastGoesUnnoticed | src/net/EventLoop.cpp:172-183 | so is one queued by the last functor of a batch, from every state that runs it |
| EventLoop.SuchARunExists | src/net/EventLoop.cpp:172-183 | which a run reaches |
| EventLoop.QuitKeptIff | src/net/EventLoop.cpp:66-92 | the loop is told to quit if and only if a quit, on any thread, has come since it was last started; if so while polling, a wake-up was made or is on its way |
| EventLoop.QuitBeforeStartIsLost | src/net/EventLoop.cpp:66-92 | a quit from another thread just before the start is forgotten, and its wake-up is spent on an empty turn |
| EventLoop.EventLoop.Sound | src/net/EventLoop.cpp:66-183 | order and wake-ups hold of every state of the object |
| EventLoop.EventLoop.Loop | src/net/EventLoop.cpp:66-85 | the loop is a run of the machine, for every interference at every point and whether or not a poll reports the counter; it takes its turns until told to quit |
| EventLoop.EventLoop.TakeTurn | src/net/EventLoop.cpp:72-81 | whatever was pending when a turn began has been started, after all that was started before, when it ends |
| EventLoop.EventLoop.QueueInLoop | src/net/EventLoop.cpp:105-114 | queuing on the loop thread, anywhere but in the poll: exactly one functor behind those pending, and a wake-up only if the flag is set |
| EventLoop.EventLoop.PushFromElsewhere | src/net/EventLoop.cpp:105-109 | queuing on another thread puts exactly one functor behind those pending, under the lock |
| EventLoop.EventLoop.WakeFromElsewhere | src/net/EventLoop.cpp:110-113 | followed, at some later point, by the wake-up |
| EventLoop.EventLoop.HandleRead | src/net/EventLoop.cpp:163-169 | reading the counter clears it |
| EventLoop.EventLoop.DoPendingFunctors | src/net/EventLoop.cpp:172-183 | starts exactly what was pending at the swap, in order, while functors and threads queue more |
| FixedBuffers.FixedBuffer.Append | include/asynLog/FixedBuffer.h:32-37 | the array and the position hold the contents followed by the line if that leaves a byte free, and the contents unchanged otherwise |
| FixedBuffers.FixedBuffer.Add | include/asynLog/FixedBuffer.h:56-58 | bytes stored directly become part of the contents |
| FixedBuffers.FixedBuffer.Reset | include/asynLog/FixedBuffer.h:60-62 | the buffer is empty |
| LoggingSpec.LoggerConserves | src/asynlog/AsyncLogging.cpp:36-100 | under every interleaving of appends and backend: written bytes, unwritten collected buffers, full buffers and current buffer are together the lines of the appends shorter than a large buffer, in their order; written is a prefix of them; nothing is taken from an empty vector, nothing null is used, and every spare buffer is empty |
| LoggingSpec.AppendEffect | src/asynlog/AsyncLogging.cpp:36-51 | a line goes behind the current contents, or, if no byte would stay free, into the spare or a new buffer |
| LoggingSpec.CollectEffect | src/asynlog/AsyncLogging.cpp:66-77 | the exchange takes everything, in order, and leaves the producers two empty buffers |
| LoggingSpec.WriteEffect | src/asynlog/AsyncLogging.cpp:79-81 | one collected buffer is written after the other |
| LoggingSpec.RecycleEffect | src/asynlog/AsyncLogging.cpp:83-97 | the backend goes back with two empty buffers |
| LoggingSpec.FaultsAreNoticed | src/asynlog/AsyncLogging.cpp:36-97 | a null buffer used, and a buffer taken from an empty vector, count as faults |
| LoggingSpec.StepKeepsInv | src/asynlog/AsyncLogging.cpp:36-100 | each single step keeps that |
| LoggingSpec.RecycleKeepsStock | src/asynlog/AsyncLogging.cpp:84-97 | two spare buffers can always be refilled from what was collected |
| LoggingSpec.AppendConserves | src/asynlog/AsyncLogging.cpp:36-51 | an append that has to change buffers loses and doubles nothing |
| AsyncLogging.Exclusive | src/asynlog/AsyncLogging.cpp:36-97 | no buffer is held by two slots |
| AsyncLogging.AsyncLogging.Sound | src/asynlog/AsyncLogging.cpp:36-100 | stock, conservation and the prefix hold of every state of the object |
| AsyncLogging.AsyncLogging.AppendLine | src/asynlog/AsyncLogging.cpp:36-51 | one append logs exactly its line, if a large buffer can hold it, and is one step of the machine on buffers in the heap that move between owners |
| AsyncLogging.AsyncLogging.CollectBuffers | src/asynlog/AsyncLogging.cpp:66-77 | so is the critical section of the backend |
| AsyncLogging.AsyncLogging.WriteBuffer | src/asynlog/AsyncLogging.cpp:79-81 | the chunk given to the file is the next collected buffer |
| AsyncLogging.AsyncLogging.RecycleBuffers | src/asynlog/AsyncLogging.cpp:83-97 | so is keeping two of the collected buffers for the backend |
| AsyncLogging.AsyncLogging.ThreadFunc | src/asynlog/AsyncLogging.cpp:53-100 | for every clock, every production in between and every answer of the library, rounds log exactly the lines produced and keep logger and file together; the first round writes everything logged before its exchange, and without a failing write every chunk arrives whole |
| AsyncLogging.AsyncLogging.WriteBuffers | src/asynlog/AsyncLogging.cpp:79-81 | every collected buffer is offered to the file, in order, whatever producers append meanwhile and however the library answers |
| AsyncLogging.AsyncLogging.Round | src/asynlog/AsyncLogging.cpp:64-99 | a round writes exactly what was logged before its exchange |
| LoggingSpec.CollectTakesAll | src/asynlog/AsyncLogging.cpp:73-76 | what the backend holds after the lock, behind what is written, is everything logged so far |
| AsyncLogging.AsyncLogging.FilesHoldTakenParts | src/asynlog/AsyncLogging.cpp:79-81 | the log files in the order of their creation hold the part taken of each chunk, and the chunks together are a prefix of the lines logged |
| AsyncLogging.AsyncLogging.FilesHoldPrefix | src/asynlog/AsyncLogging.cpp:79-81 | they hold a prefix of the lines logged as long as nothing was taken after the first chunk cut short, and all that was written as long as no write has failed |
| Chunks.PrefixIffUnbroken | src/asynlog/AppendFile.cpp:19-40 | what arrived is a prefix of what was to be written, whatever the texts are, if and only if nothing arrived behind a chunk cut short |
| LogFile.FilesHoldTheStream | src/asynlog/LogFile.cpp:42-81 | over every run, failing writes included, with a clock that never steps back: the files in order hold every byte that was taken, their seconds strictly increase, the period is the day of the last roll, and the append count stays below the limit |
| LogFile.FilesHoldTakenParts | src/asynlog/LogFile.cpp:42-81 | they hold the part taken of each line, in order |
| LogFile.FilesHoldEveryLine | src/asynlog/LogFile.cpp:42-81 | without a failing write that is every line, and each file has counted all of its bytes |
| LogFile.LinesCanMissTheirEnd | src/asynlog/AppendFile.cpp:19-40 | a run with failing writes whose files hold no prefix of the lines |
| LogFile.AppendKeeps | src/asynlog/LogFile.cpp:60-81 | one append keeps that, and rolls only for size or day, only to a later second; a file larger than the limit and its uncounted bytes stays open only if its second is not over; a check on another day always rolls |
| LogFile.AppendEffect | src/asynlog/LogFile.cpp:60-81 | when an append rolls, counts, checks the day and flushes, value by value |
| LogFile.CountsSinceCheck | src/asynlog/LogFile.cpp:66-69 | over every run the count is the appends since the last check, apart from those that were too large |
| LogFile.DayHasSeconds | src/asynlog/LogFile.cpp:48-48 | a period starts at a multiple of 86400 seconds |
| LogFile.LogFile.RollFile | src/asynlog/LogFile.cpp:42-58 | a new file exactly if the second has changed |
| LogFile.LogFile.AppendUnlocked | src/asynlog/LogFile.cpp:60-81 | one append is one step of the machine, for every sequence of short and failing writes |
| LogFile.AppendFile.Append | src/asynlog/AppendFile.cpp:19-40 | a prefix of the line reaches the file, all of it without an error; the count grows by it except for exactly the bytes of the write that failed |
| ConnectorProofs.AlwaysInv | src/net/Connector.cc:31-177 | in every run with safe starts no assert fails, every socket is held while connecting or closed once or handed over once, the pauses double from 500 to 30000 ms, and a wanted connection is not forgotten |
| ConnectorProofs.StepKeepsInv | src/net/Connector.cc:31-177 | each single step keeps that |
| ConnectorProofs.OneEventOneRemoval | src/net/Connector.cc:127-161 | an event that reports an error and writability causes one removal, one close and at most one retry |
| ConnectorEffects.StartEffect | src/net/Connector.cc:46-86 | what an attempt does for each errno: its descriptor is watched by a channel, or closed and tried again after the pause, which doubles, or closed for good |
| ConnectorEffects.RestartEffect | src/net/Connector.cc:88-94 | a restart is an attempt with the pause back at 500 ms |
| ConnectorEffects.TimerEffect | src/net/Connector.cc:36-44 | a retry timer makes an attempt if one is wanted |
| ConnectorEffects.FunctorEffect | src/net/Connector.cc:36-125 | the queue of the loop lets the channel go, or makes an attempt if one is wanted |
| ConnectorEffects.StopEffect | src/net/Connector.cc:96-99 | after a stop nothing is wanted, and the last timer is taken out or will be |
| ConnectorEffects.ChannelEffect | src/net/Connector.cc:127-161 | after an error the descriptor is closed and tried again; a writable one is tried again, handed over and not closed, or closed because nobody wants it |
| ConnectorEffects.FaultsAreNoticed | src/net/Connector.cc:36-161 | when the asserts fail, whatever the state |
| ConnectorProofs.ConnectKeeps | src/net/Connector.cc:46-86 | an attempt with room for it leaves one chain of attempts, whatever the errno |
| ConnectorProofs.StartKeeps | src/net/Connector.cc:36-44 | so does a start, and one that is not wanted changes nothing that matters |
| ConnectorProofs.RetryKeeps | src/net/Connector.cc:164-177 | a retry settles its socket and is followed by at most one timer |
| ConnectorProofs.WriteKeeps | src/net/Connector.cc:127-152 | after a writable event the socket is settled in one way and the channel waits for its reset |
| ConnectorProofs.ErrorKeeps | src/net/Connector.cc:154-161 | after an error event likewise, and the connector is disconnected |
| ConnectorProofs.StopKeeps | src/net/Connector.cc:96-99 | stopping on any thread keeps the invariant, though a timer may still fire |
| ConnectorSpec.Doubles | src/net/Connector.cc:172-173 | the next pause continues min(500 * 2^k, 30000) |
| ConnectorStarts.SafeStartIff | src/net/Connector.cc:31-112 | from any state the connector can be in, no assert fails at a start, a restart or in any orderly run after it, if and only if the start is safe; starts queued by other threads included |
| ConnectorStarts.UnsafeStartFails | src/net/Connector.cc:31-161 | for every other start, the run that fails |
| ConnectorStarts.IdleIsSafeForEveryAnswer | src/net/Connector.cc:31-112 | a start is safe whatever the kernel will answer if and only if the connector is disconnected, without channel, timers or queued starts |
| ConnectorStarts.StopThenStartIff | src/net/Connector.cc:96-99 | a stop on the loop thread leaves exactly the timers of the batch being called, so a start may follow at once if and only if there is none, and nothing else is left |
| ConnectorStarts.StopInBatchThenStartFails | src/net/Connector.cc:31-105 | a run in which there is one: stop and start in a callback of the same batch, and then the retry timer fails its assert |
| ConnectorStarts.TimerFaultsIff | src/net/Connector.cc:101-105 | a retry timer finds the old channel if and only if it fires before the queued reset and the attempt proceeds |
| ConnectorStarts.TimerAndResetPending | src/net/Connector.cc:115-120 | the two can be pending together |
| Connectors.Connector.Accounted | src/net/Connector.cc:31-177 | the invariant holds of every state of the object |
| Connectors.Connector.StartConnecting | src/net/Connector.cc:101-112 | the interest list of the kernel grows by exactly the new descriptor, watched for writing |
| Connectors.Connector.RemoveAndResetChannel | src/net/Connector.cc:115-120 | exactly the channel's descriptor leaves the interest list, and the channel is unregistered |
| Connectors.Connector.Close | src/net/Connector.cc:78-83 | no descriptor is closed while the kernel still watches it |
| Connectors.Connector.ResetChannel | src/net/Connector.cc:123-125 | the channel that goes away has left the poller before |
| Connectors.Connector.Start | src/net/Connector.cc:31-34 | every safe start is one step of the machine, at once or through the queue of the loop; for each errno the attempt does what it should, and the kernel watches the descriptor exactly if the connect is under way |
| Connectors.Connector.Restart | src/net/Connector.cc:88-94 | so is every safe restart, with the shortest pause |
| Connectors.Connector.Stop | src/net/Connector.cc:96-99 | so is a stop, on any thread and at any time |
| Connectors.Connector.RunFunctor | src/net/Connector.cc:36-44 | so are the reset and the start when the loop comes to them, in the order they were queued |
| Connectors.Connector.FireTimer | src/net/Connector.cc:172-172 | so is a retry timer of the batch |
| Connectors.Connector.HandleEvent | src/net/Channel.cpp:31-52 | so are the callbacks of one event |
| Numerals.DecimalRoundTrip | src/asynlog/LogStream.cpp:19-38 | for every integer, reading its text gives it back, and the text is canonical: no leading zero, no "-0" |
| Numerals.DecimalOfCanonical | src/asynlog/LogStream.cpp:19-38 | every canonical text is the text of an integer, so the two correspond one to one |
| Numerals.DecimalByDigits | src/asynlog/LogStream.cpp:10-38 | one more digit goes behind, as its character; a minus sign goes in front |
| Numerals.HexByDigits | src/asynlog/LogStream.cpp:15-55 | the same in base 16 |
| Numerals.AtMostTwentyBytes | src/asynlog/LogStream.cpp:91-98 | no signed or unsigned 64-bit value takes more than 20 characters |
| Numerals.ReadWritten | src/asynlog/LogStream.cpp:40-55 | what is written in any base, 16 included, is read back |
| Numerals.AtMostSixteenBytes | src/asynlog/LogStream.cpp:40-55 | no unsigned 64-bit value takes more than 16 hexadecimal characters |
| LogStream.LastGlyph | src/asynlog/LogStream.cpp:10-13 | the remainder of truncated division, of either sign, selects the last digit in the mirrored table |
| LogStream.Reverse | src/asynlog/LogStream.cpp:34-35 | reverses a range in place and touches nothing else |
| LogStream.PutDigits | src/asynlog/LogStream.cpp:22-29 | the do-while loop writes the digits of the magnitude backwards, for the minimum value too |
| LogStream.Convert | src/asynlog/LogStream.cpp:20-38 | the buffer holds the decimal text and a terminating zero, and nothing around them changes |
| LogStream.ConvertHex | src/asynlog/LogStream.cpp:41-55 | the same in base 16 |
| LogStream.FormatInteger | src/asynlog/LogStream.cpp:91-98 | appends exactly the decimal text if 48 bytes are free, and nothing otherwise |

## Left out

- Sizes and indexes are unbounded: running out of memory, and buffers beyond the range of `size_t` or `int`, are not modelled; the 32-bit length of a frame and 64-bit times are.
- Appending to a `Buffer` a range of its own storage is not modelled; data are values.
- `Buffer::shrink` copies the data without moving the indexes, so it does not keep the contents; nothing in the core calls it. `swap`, `retrieveUntil` and `retrieveAsString` are thin.
- The callback of `Codec::onMessage` is the list of messages delivered; it does not read or change the input buffer itself.
- Link.EndToEnd: covers one direction, with both ends' events interleaved freely; the other is the same with the roles exchanged. After a shutdown from another thread, sends still queued do reach the wire in the model, although the real socket would refuse them.
- Connection.WriteSideShutExactlyWhenDrained: is about calls on the loop thread, because a shutdown from another thread is not ordered against sends still queued; it ends at the first close.
- Write-complete callbacks: the one for a drained buffer is bound but never run, and nothing depends on the other.
- Closing the descriptor removes it from the interest list in the kernel; the poller here sees `epoll_ctl` only. A delete the kernel refuses is logged by the source, and proved not to occur.
- Cancelling a timer whose addition by another thread is still queued: nothing is found at that moment, and the timer runs later (the model behaves so, without a claim).
- TimerCalls.CallsOfEveryRun: the interval is a real number, converted toward zero to microseconds; rounding of `double` is not modelled. The wall clock is taken not to step back, to be positive and to fit 63 bits.
- TimerQueue.TimerQueue.HandleRead: callbacks add, cancel and let time pass; other things they do do not concern the queue. Additions by other threads come between handlers. Cancelling is to be called in the loop, so no cancellation falls into `reset`.
- The timers and activeTimers sets of the source are a sorted sequence and a set of values here; how the standard library stores them is not modelled.
- The destructor of TimerQueue, which deletes what is left, and aborts by `LOG_FATAL`.
- Blocking: that the poll, which waits without a limit, returns when the counter is positive is the kernel's part; it may return earlier, and without reporting the counter.
- Lines appended to AsyncLogging after the last round stay unwritten, as in the source; only the prefix is claimed. `start`, `stop`, the flushing and the timing of the condition variable are left out; a wait is any number of appends before the collection.
- Names of log files hold the date, the second, the host and the process; here a file is named by its second.
- ConnectorProofs.AlwaysInv: takes the order the source relies on: safe starts, and a queued reset that runs before a retry timer is taken into a batch; `SafeStartIff` and `TimerFaultsIff` say what happens otherwise.
- The retry timers of the connector are sets of ids, waiting and in the batch being called, with the rules of the timer queue; the timer queue object itself is not part of the connector object. Cancellations queued by other threads run at any time relative to the connector's other functors, which allows more runs than one queue would.
- A descriptor number that a silenced channel of the connector once had may be used by another channel before the reset: from the removal on, the poller does not count the silenced channel. The callback for a new connection does not call back into the connector.
- Acceptor, server and client wiring, the pool of loops, thread wrappers, date and floating-point printing, logger macros and the chat program: thin, or outside the core.
