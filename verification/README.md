# A verified model of muduo's reactor

muduo is a TCP library built on one event loop per thread: non-blocking sockets, an epoll poller per
loop, and a functor queue with an eventfd through which threads hand work to each other. This project
models its five cooperating state machines and proves what each keeps over all of its runs. Objects that
the program updates in place are classes here, proved against functions on values; what the program
promises is proved about those functions and about the runs they generate.

| layer | files | program |
|---|---|---|
| byte queue | `Buffer.dfy` | `muduo/Buffer.h` |
| interest and registration | `Registration.dfy`, `ChannelTable.dfy`, `EventSlots.dfy`, `Poller.dfy` | `muduo/Channel.h`, `muduo/Poller.cpp`, `muduo/EpollPoller.cpp` |
| one connection | `Connection.dfy`, `ConnectionTheorems.dfy`, `Ledger.dfy`, `ShutdownRace.dfy`, `SecondClose.dfy`, `TcpConnection.dfy` | `muduo/TcpConnection.cpp`, `muduo/Channel.cpp` |
| functor hand-off between threads | `LoopProtocol.dfy`, `EventLoop.dfy` | `muduo/EventLoop.cpp` |
| a server's connections over its loops | `Naming.dfy`, `Server.dfy`, `ServerInvariant.dfy`, `FunctorOrder.dfy`, `ServerTheorems.dfy`, `ServerLedger.dfy`, `TcpServer.dfy` | `muduo/TcpServer.cpp`, `muduo/EventLoopThreadPool.cpp` |
| the server on event lists and shutdowns as written | `StaleEvents.dfy`, `DanglingPointers.dfy`, `LateShutdown.dfy`, `LateInvariant.dfy`, `LateTheorems.dfy`, `LateShadow.dfy`, `LateRuns.dfy` | `muduo/EpollPoller.cpp`, `muduo/TcpConnection.cpp` |
| the layers together | `Composition.dfy`, `ServerLoops.dfy` | all of these |

## How to read it

A *run* is a sequence of states with the action taken from each to the next. What the kernel answers
(partial writes, errors, which events, how many bytes), the order of calls, and the interleaving of
threads are arbitrary; the `Enabled` predicates hold the few things the kernel and the rest of the library
guarantee. A lemma over `IsRun(..., r)` and an index therefore speaks of every reachable state.

What an operation does is said twice: by the function that its method refines, and from the outside. `Ledger`
keeps a connection's account from the kernel's answers and the user's calls alone (what was taken, received,
refused, notified and observed), and every step and run agrees with it field by field; `ServerLedger` does so for
a loop's reports, accepts and removals, and `EventLoop` for what the calls of handlers and functors leave behind.

Some fields exist only to state theorems: a connection's accepted messages, the bytes on the wire and
the observations in its log; a loop's enqueued, executed, submitted and begun functors; a server
connection's life. No step of the program reads them.

The layers are put together, and not only in words. `Composition` is a server whose every connection is the
full state machine of `Connection`; a step is enabled there when its thread is where it must be and the
kernel allows it. What the server assumes of a connection (a close is entered once and while up, only a
watched descriptor is reported) and what a connection assumes of its server (establishment finds it
connecting; destruction comes after the close callback, outside its events, and once) are proved there:
`ServerRunIsRun` and `ConnRunIsRun` say that every run of the whole is a run of each part, so the theorems
of both modules hold of it. `ServerLoops` is a server whose every loop is the hand-off of `LoopProtocol`: a
functor is pushed by a thread and the loop woken by that thread later, with all others in between. Its runs are
runs of `Server` and, loop by loop, of `LoopProtocol`, so no functor of a connection's life is ever left in the
queue of a loop that sleeps (`QueuedFunctorsAreAttended`). Each waits for the next batch its loop completes
(`NextBatchBeginsTheQueue`), and one queued while a batch runs for that batch and the next
(`TwoBatchesBeginTheQueue`).

Since a connection being dispatched is owned throughout (`HandlersFindItOwned`), the guard that
`Channel::handleEvent` locks (`muduo/Channel.cpp:27-37`) is never empty for a connection.

## What is false of the program as written

Seven places do not keep the property they are meant to keep. Each has its exact condition proved.

- `fillActivateChannels` walks all of `events_` and not the `numEvents` entries that epoll_wait filled
  (`muduo/EpollPoller.cpp:91`). `Poll` and `VisitedIffFull`: what it activates is what was reported if and
  only if nothing was, or the list was full. `FaultsIffPartial`: in every run of a server, a poll meets a null
  pointer if and only if it reports something without filling the list; `OneEventFaults` is one event for
  the sixteen slots of a new poller. Until then the program makes runs of the server as it is meant to be
  (`SurvivingRunIsIntended`), so its waiting channels are safe (`WaitingIsSafeWhileFull`). Passing over the
  null pointers would not be enough: `StaleChannelIsDispatched` dispatches a channel whose connection nobody
  owns any more.
- `kReadEvent` and `kWriteEvent` both contain EPOLLPRI (`muduo/Channel.cpp:10-11`). Masks are therefore
  parameters. `DrainIffDisjoint`: buffered bytes always have EPOLLOUT to fetch them, over all runs, if and
  only if the masks share no bit. `HalfCloseRememberedIffDisjoint`: the same condition decides whether a
  requested half-close always has something left to carry it out. `SourceMasksStarve`: with the masks as
  written no run of any connection ever puts a byte on the wire. Stream conservation, the order of half-close
  and close finality need no disjointness.
- `recv` in `muduo/Buffer.h:101` is given the iovec array as its destination. `ReadFd` models the scatter
  read that the surrounding lines set up; `ReadFdAsWritten` models the call as it stands, and
  `ReadAsWrittenDeliversOnlyNothing` shows that what it leaves in the buffer is what was received, whatever
  was received, only for zero bytes.
- A functor that the loop's own thread queues before `loop()` gets no wake-up
  (`muduo/EventLoop.cpp:110`). `NoLostWakeup` gives the condition on the state in which the loop begins;
  `EarlyOwnTaskIsForgotten` is the failing run.
- `loop()` clears `quit_` (`muduo/EventLoop.cpp:60`), so an earlier `quit()` is forgotten:
  `QuitCountsOnlyAfterBegin`.
- `shutdown()` tests `state_` and sets it in two accesses (`muduo/TcpConnection.cpp:57-58`). `Connection` and
  `Server` take them as one step; `ShutdownRace` and `LateShutdown` take them apart. A set that finds the
  connection already down leaves it Disconnecting, and then:
  - its channel can enter the kernel's interest set again, in some continuation, unless its write end is shut and
    nothing is buffered (`UnwatchedEverAfterIffSpent`): a send queued before and not taken whole registers it
    (`LateSetReopens`, and from the start `ClosedConnectionReopens`);
  - it can close a second time, in some continuation, if and only if besides that it is not destroyed
    (`ClosesOnceIffNotReopenable`; over all runs `ClosesOnceUnlessReopenable`); `UpDownDown` is such a run, and
    `UserSeesUpDownDown` is one of a whole server;
  - its queued half-close owes bytes if and only if it had some buffered (`HalfClosesStayFlushed`,
    `FlushedEverAfterIffNothingOwed`, `HalfCloseOwesAByte`);
  - the destructor's assert (`muduo/TcpConnection.cpp:44`) and the state in which connectDestroyed finds its
    connection depend on whether a set came late since the last close (`DestructorAssertHoldsIff`,
    `DestructionFindsItDownIff`, and the run `DestructorAssertFails`).

  In every run of the server, second closes included, a connection not yet destroyed is owned
  (`OwnedBeforeDestruction`), handleClose's assert holds (`CloseAssertHolds`), and the user sees up and then one down
  for each close (`UpThenDowns`), in order if and only if no close found it gone down before
  (`CallbacksInOrderIff`). What a second close breaks besides is that destruction ends ownership:
  `SecondRemovalOutlivesDestruction`. As long as no connection set late sends again, ownership and callbacks
  are untouched (`ShadowRunIsRun`, `OwnershipSurvives`).
- The functors of an off-loop `send` and `shutdown` bind the bare `this` (`muduo/TcpConnection.cpp:52,59`).
  `FunctorFindsItOwnedIff`: when such a functor begins, its connection is owned if and only if the functor was
  queued before the connection's destruction, or a batch not yet done still keeps the connection. What a caller
  can check is `QueuedWhileUpIsEarly`: queued while the connection is up, it always was.
  `BareFunctorFindsItGone` is a failing run, of a `send` preempted between its assert and its push.

An off-loop `send` carries its payload as a value (`muduo/TcpConnection.cpp:52` binds a raw pointer to it).

## Model

| member | source | states |
|---|---|---|
| ByteBuffer.Buffer.constructor | muduo/Buffer.h:16-21 | a new buffer is empty and has the initial sizes |
| ByteBuffer.Buffer.Append | muduo/Buffer.h:68-72 | the readable bytes become the old ones followed by the data, whichever of in-place, growth or compaction makes the room |
| ByteBuffer.Buffer.Retrieve | muduo/Buffer.h:39-49 | drops the first `len` readable bytes, or all of them when there are fewer |
| ByteBuffer.Buffer.RetrieveAll | muduo/Buffer.h:47-49 | leaves no readable byte and both indices at the prepend area |
| ByteBuffer.Buffer.RetrieveAsString | muduo/Buffer.h:56-60 | what is returned and what stays are together the old content |
| ByteBuffer.Buffer.RetrieveAllAsString | muduo/Buffer.h:52-54 | returns the whole content and leaves none |
| ByteBuffer.Buffer.EnsureWritableBytes | muduo/Buffer.h:62-66 | content unchanged, sizes as `Ensured`, whose own contract guarantees the room |
| ByteBuffer.Buffer.MakeSpace | muduo/Buffer.h:122-131 | whichever way it takes, content unchanged and sizes as `Ensured` |
| ByteBuffer.Buffer.Grow | muduo/Buffer.h:123-124 | a larger array with the same content at the same indices |
| ByteBuffer.Buffer.Compact | muduo/Buffer.h:125-130 | the overlapping forward copy in place keeps the content, which then starts at the prepend area |
| BufferShape.CompactionMovesLeft | muduo/Buffer.h:62-66 | from ensureWritableBytes compaction is reached only with the reader past the prepend area, so the forward copy is safe, and it makes enough room |
| ByteBuffer.Buffer.ReadFd | muduo/Buffer.h:91-111 | returns the count and the content grows by what was received; an error is negative, saves errno and changes nothing |
| ByteBuffer.Buffer.Receive | muduo/Buffer.h:91-111 | appends exactly the received bytes in order across the 65536-byte overflow, with the sizes of one append |
| ByteBuffer.Buffer.Scatter | muduo/Buffer.h:93-100 | the kernel fills the writable space first and the stack buffer next, and touches no readable byte |
| ByteBuffer.Buffer.ReadFdAsWritten | muduo/Buffer.h:101-109 | with the call as it stands, what is appended is stale storage and stack, not what was received |
| ByteBuffer.ReadAsWrittenDeliversOnlyNothing | muduo/Buffer.h:101-109 | that effect appends what was received, for every reception of a length, if and only if the length is zero |
| ByteBuffer.Buffer.WriteFd | muduo/Buffer.h:82-88 | the socket takes a prefix of the readable bytes, which stay; an error is negative, saves errno and sends nothing |
| BufferShape.FillThenAppend | muduo/Buffer.h:104-109 | filling the writable space and appending the overflow has the sizes of one append |
| BufferShape.IndicesMove | muduo/Buffer.h:39-72 | where both indices and the array's size stand after a retrieve and after each of the three ways of an append, in numbers |
| BufferShape.MemoryBoundFromStart | muduo/Buffer.h:16-72 | over every run holding at most R readable bytes the array never exceeds 1032 bytes, or 2R+7 when R > 1024, and never shrinks |
| BufferShape.MemoryBoundIsTight | muduo/Buffer.h:122-131 | for every R some such run reaches exactly that size |
| Registration.AgreementOverRuns | muduo/EpollPoller.cpp:56-87 | over every run of interest changes and removals the index, the map and the kernel agree, and every epoll_ctl is legal |
| ChannelTable.StepIsSingle | muduo/EpollPoller.cpp:56-87 | with many channels on distinct descriptors, each step is the single-channel step for its own channel and nothing for any other; a channel for a reused descriptor starts fresh |
| ChannelTable.TableAgreesOverRuns | muduo/EpollPoller.cpp:56-113 | over every run of any number of channels, through closing and reuse of descriptors, indices, map and kernel agree and no epoll_ctl is illegal |
| Registration.DisableAllLeavesOnlyFromAdded | muduo/EpollPoller.cpp:59-75 | asking for nothing takes a channel out of the kernel set if and only if it was in it; asked twice it puts it back with an empty mask |
| Poller.EpollPoller.UpdateChannel | muduo/EpollPoller.cpp:56-75 | restores the agreement of all live channels after one changed its mask, and touches no other |
| Poller.EpollPoller.RemoveChannel | muduo/EpollPoller.cpp:76-87 | takes one channel out of map and kernel whatever its index, and touches no other |
| Poller.EpollPoller.Update | muduo/EpollPoller.cpp:98-113 | epoll_ctl with the kernel's own precondition: ADD only when absent, MOD and DEL only when present |
| Poller.EpollPoller.FillActivateChannels | muduo/EpollPoller.cpp:90-96 | over `numEvents` entries, as meant: the active list is the reported channels in order, each with its events, all registered |
| Poller.EpollPoller.FillActivateChannelsAsWritten | muduo/EpollPoller.cpp:90-96 | over every slot, as written: all channels up to the first null pointer, where it faults; the last slot of a channel decides its events |
| Poller.EpollPoller.Poll | muduo/EpollPoller.cpp:34-55 | the active list is what was reported if and only if nothing was or the list was full; otherwise it faults; the list doubles when full and keeps its leftover slots when not |
| EventSlots.VisitedIffFull | muduo/EpollPoller.cpp:91 | the visited slots are the reported ones if and only if nothing was reported or the list was full |
| EventSlots.LastSlotIsEmpty | muduo/EpollPoller.cpp:36-45 | the last slot is empty after every poll, so an empty slot is visited if and only if something was reported without filling the list |
| EventSlots.KeptSize | muduo/EpollPoller.cpp:41-45 | a full list doubles, with empty slots behind what was reported; any other keeps its size and leftover slots |
| Poller.EpollPoller.HasChannelIffRegistered | muduo/Poller.cpp:13-16 | the lookup holds exactly when the index is not kNew; the kernel has the fd exactly when it is kAdd, with the channel's own mask |
| Poller.Channel.EnableReading | muduo/Channel.h:38-41 | read bits are added to the wanted events and the poller follows |
| Poller.Channel.DisableReading | muduo/Channel.h:42-45 | read bits are taken away and the poller follows |
| Poller.Channel.EnableWriting | muduo/Channel.h:46-49 | write bits are added and the poller follows |
| Poller.Channel.DisableWriting | muduo/Channel.h:50-53 | write bits are taken away and the poller follows |
| Poller.Channel.DisableAll | muduo/Channel.h:54-57 | no bit is wanted and the poller follows |
| Poller.Channel.Remove | muduo/Channel.cpp:75-77 | the channel leaves its poller |
| TcpConnection.TcpConnection.constructor | muduo/TcpConnection.cpp:22-41 | a new connection is connecting, unregistered and empty, and disturbs no channel of its loop |
| TcpConnection.TcpConnection.ConnectEstablished | muduo/TcpConnection.cpp:63-72 | refines `Establish` |
| TcpConnection.TcpConnection.ConnectDestroyed | muduo/TcpConnection.cpp:73-80 | refines `Destroy` |
| TcpConnection.TcpConnection.SendInLoop | muduo/TcpConnection.cpp:143-185 | over array buffers and the poller, refines the send of the state machine |
| TcpConnection.TcpConnection.BufferRest | muduo/TcpConnection.cpp:173-184 | refines `Buffered`: notice on the way up, append, ask for EPOLLOUT |
| TcpConnection.TcpConnection.HandleWrite | muduo/TcpConnection.cpp:98-120 | refines the write event of the state machine |
| TcpConnection.TcpConnection.OutputDrained | muduo/TcpConnection.cpp:104-113 | refines `Drained`: interest dropped, notice, postponed half-close |
| TcpConnection.TcpConnection.HandleRead | muduo/TcpConnection.cpp:82-97 | refines the read event: bytes, end of stream or error |
| TcpConnection.TcpConnection.HandleClose | muduo/TcpConnection.cpp:121-129 | refines the close |
| TcpConnection.TcpConnection.Shutdown | muduo/TcpConnection.cpp:56-61 | refines the shutdown request, made only when connected |
| TcpConnection.TcpConnection.SetDisconnecting | muduo/TcpConnection.cpp:58-59 | refines its second access, whatever the state by then, with the half-close inline or queued |
| TcpConnection.TcpConnection.ShutdownInLoop | muduo/TcpConnection.cpp:186-191 | refines the half-close |
| TcpConnection.TcpConnection.HandleEventsHup | muduo/Channel.cpp:39-50 | dispatches hang-up and then error; a hang-up closes only when it comes without EPOLLIN |
| TcpConnection.TcpConnection.HandleEventsRead | muduo/Channel.cpp:51-55 | dispatches the read event next |
| TcpConnection.TcpConnection.HandleEventsWrite | muduo/Channel.cpp:56-60 | dispatches the write event last |
| Ledger.StepSettles | muduo/TcpConnection.cpp:56-191 | every step from any state leaves stream, buffers, notices, log, interest and state as the account from the kernel's answers and the user's calls says |
| Ledger.AccountHolds | muduo/TcpConnection.cpp:82-185 | in every run the wire is exactly what the kernel took, the input what the reads brought, the accepted messages those not refused, and every notice and callback due is there, in order, and no other |
| Ledger.DirectSendSplits | muduo/TcpConnection.cpp:151-184 | what the socket takes of a direct send is on the wire and the rest in the buffer |
| Ledger.DirectSendFails | muduo/TcpConnection.cpp:160-184 | a direct send that fails waits whole, or is dropped and changes nothing when the peer is gone |
| Ledger.LaterSendWaits | muduo/TcpConnection.cpp:151-184 | behind buffered bytes or an awaited write event a message waits whole |
| Ledger.NothingMovedNothingChanges | muduo/TcpConnection.cpp:93-116 | a write event of which nothing is taken, and a read that fails, change nothing |
| Ledger.OneMessageForEachReception | muduo/TcpConnection.cpp:85-87 | the message callback runs once for every read that brings bytes and for no other |
| Ledger.CloseCallbackIsLast | muduo/TcpConnection.cpp:121-129 | in every run each close runs the connection callback and right after it the close callback |
| ConnectionTheorems.StreamConserved | muduo/TcpConnection.cpp:98-185 | in every run, with any masks, wire followed by output buffer is the accepted messages in order |
| ConnectionTheorems.WireOnlyGrows | muduo/TcpConnection.cpp:98-185 | what is on the wire is a prefix of what is on it later |
| ConnectionTheorems.AcceptedWholeOrNotAtAll | muduo/TcpConnection.cpp:143-173 | a message is taken on whole, or refused and the connection left as it was; nothing else changes what was accepted |
| ConnectionTheorems.GracefulHalfClose | muduo/TcpConnection.cpp:104-113 | whenever shutdownWrite is called on a connection not yet down, every accepted byte has been sent |
| ConnectionTheorems.HalfCloseIsTheLastWord | muduo/TcpConnection.cpp:143-191 | from the half-close until the close nothing more is accepted and the wire holds everything ever accepted |
| ConnectionTheorems.InvHolds | muduo/TcpConnection.cpp:56-191 | the inductive invariant of a connection, in every reachable state |
| ConnectionTheorems.EstablishedOnce | muduo/TcpConnection.cpp:63-72 | a connection once established is never connecting again |
| ConnectionTheorems.CloseIsFinal | muduo/TcpConnection.cpp:73-129 | once down a connection stays down, never re-enters the kernel set, never closes again, and its stream is frozen |
| ConnectionTheorems.CallbackTrace | muduo/Channel.cpp:39-61 | callbacks are nothing, up, or up and down, by state; one close callback exactly when down; handleClose's assert always holds |
| ConnectionTheorems.RegistrationAgrees | muduo/EpollPoller.cpp:56-87 | in every run of a connection its registration agrees, and the kernel watches it exactly while it is up |
| ShutdownRace.CloseIsFinalIffSetsFindItUp | muduo/TcpConnection.cpp:56-61 | with test and set apart, in every run: a connection that is down stays down, out of the kernel and with its stream and callbacks frozen, if and only if no set finds it down; the set itself undoes its state |
| ShutdownRace.InvariantSurvives | muduo/TcpConnection.cpp:56-61 | and then the connection's whole invariant holds throughout |
| ShutdownRace.FinalEverAfterIffUp | muduo/TcpConnection.cpp:57-58 | the same over every continuation of one set |
| SecondClose.UnwatchedEverAfterIffSpent | muduo/TcpConnection.cpp:143-191 | a set on a connection that is down leaves it out of the kernel's interest set in every continuation if and only if its write end is shut and nothing is buffered |
| SecondClose.ClosesOnceIffNotReopenable | muduo/TcpConnection.cpp:121-129 | in every continuation of a set there is one close at most if and only if the set did not find the connection down, not destroyed, and with its write end open or bytes buffered |
| SecondClose.ClosesOnceUnlessReopenable | muduo/TcpConnection.cpp:121-129 | and so over every run in which no set finds it so |
| SecondClose.UpDownDown | muduo/Channel.cpp:39-50 | a run from the start with two closes, in which the user sees up, down, down |
| ShutdownRace.LateSetReopens | muduo/TcpConnection.cpp:57-58 | after a late set any send that is not refused and not taken whole re-registers the closed channel |
| ShutdownRace.ClosedConnectionReopens | muduo/TcpConnection.cpp:57-58 | a run from the start in which the peer's end of stream closes a connection and, its events done, it is registered again |
| ShutdownRace.HalfClosesStayFlushed | muduo/TcpConnection.cpp:104-113 | with test and set apart, in every run: half-closes of a connection not down find everything sent as long as no set finds bytes buffered on one that is down |
| ShutdownRace.LateBytesAreOwed | muduo/TcpConnection.cpp:186-191 | a set that does find them is followed by a half-close that owes them |
| ShutdownRace.FlushedEverAfterIffNothingOwed | muduo/TcpConnection.cpp:57-59 | in every continuation of a set half-closes find everything sent if and only if the set did not find the connection down with bytes buffered |
| ShutdownRace.HalfCloseOwesAByte | muduo/TcpConnection.cpp:57-59 | a run from the start in which such a half-close is made |
| ConnectionTheorems.HalfCloseRememberedIffDisjoint | muduo/TcpConnection.cpp:104-113 | in all runs a requested half-close not yet made has bytes still to send or a functor queued, if and only if the masks are disjoint |
| ConnectionTheorems.DrainIffDisjoint | muduo/TcpConnection.cpp:102-184 | buffered bytes, write interest and EPOLLOUT in the kernel mask go together in all runs if and only if the masks are disjoint; likewise that buffered bytes have a trigger |
| ConnectionTheorems.BufferedCanBeReported | muduo/TcpConnection.cpp:98-103 | with disjoint masks, in every run, the kernel may report a connection with buffered bytes writable |
| ConnectionTheorems.EveryWriteEventSends | muduo/TcpConnection.cpp:98-114 | and every write event sends what the socket takes and keeps the rest; the one that empties the buffer carries out a postponed half-close with everything sent |
| ConnectionTheorems.OverlapStarves | muduo/Channel.h:61 | with overlapping masks no connection ever sends a byte or half-closes while up |
| ConnectionTheorems.SourceMasksStarve | muduo/Channel.cpp:10-11 | so it is with the masks in the text |
| ConnectionTheorems.NoticesAreCrossings | muduo/TcpConnection.cpp:173-180 | high-water notices over any run are as many as the upward crossings of the mark |
| ConnectionTheorems.WriteBetweenCrossings | muduo/TcpConnection.cpp:98-120 | between two crossings a write event took the buffer below the mark |
| ConnectionTheorems.WriteCompleteMeansSent | muduo/TcpConnection.cpp:104-109 | a write-complete notice is queued only when everything accepted is on the wire |
| LoopProtocol.ExactlyOnceInOrder | muduo/EventLoop.cpp:101-126 | in every interleaving the enqueued functors are the begun ones, the rest of the batch and the pending ones, in that order |
| LoopProtocol.BatchIsBounded | muduo/EventLoop.cpp:115-126 | while a batch runs, functors begun and functors left are together as many as it had, whatever is queued meanwhile: every batch terminates |
| LoopProtocol.SubmissionOrder | muduo/EventLoop.cpp:93-113 | each thread's runInLoop submissions begin in submission order; those of the loop's own thread at once |
| LoopProtocol.NoLostWakeup | muduo/EventLoop.cpp:58-126 | from the start of the loop on, a loop in poll with functors pending has a wake-up written or coming, in every continuation, if and only if what was pending at the start had one |
| LoopProtocol.LaunchSafeUnlessOwnTasks | muduo/EventLoop.cpp:101-113 | that is so at the start unless the loop's own thread queued something before |
| LoopProtocol.EarlyOwnTaskIsForgotten | muduo/EventLoop.cpp:110-112 | one functor queued so leads to a loop waiting with it pending and no wake-up |
| LoopProtocol.PassDrains | muduo/EventLoop.cpp:63-126 | in every interleaving the first batch completed after a poll has begun everything queued when the loop went to poll |
| LoopProtocol.QuitIsAttended | muduo/EventLoop.cpp:77-91 | a quit in force never leaves the loop in poll without a wake-up written or coming |
| LoopProtocol.QuitIsPrompt | muduo/EventLoop.cpp:63-83 | once quit is set on a begun loop it never goes to poll again |
| LoopProtocol.QuitCountsOnlyAfterBegin | muduo/EventLoop.cpp:58-60 | a quit is in force on a begun loop if and only if it was issued after quit_ was cleared |
| LoopProtocol.CounterCountsWrites | muduo/EventLoop.cpp:85-147 | in every run the eventfd's counter is the number of writes since it was last read, up to its maximum |
| EventLoop.CallsDo | muduo/EventLoop.cpp:77-113 | what user code's calls queue, run at once and quit, over any sequence of them |
| EventLoop.HandlersDo | muduo/EventLoop.cpp:66-68 | over an active list, the same for the handlers of every channel but the eventfd's own, each once and in order |
| EventLoop.FunctorsDo | muduo/EventLoop.cpp:122-124 | over a batch, functors begin in order, each followed by what it runs at once |
| EventLoop.EventLoop.UserCode | muduo/EventLoop.cpp:77-113 | does what its calls say: queue, inline runs, quit and eventfd |
| EventLoop.EventLoop.QueueInLoop | muduo/EventLoop.cpp:101-113 | appends the functor and writes the eventfd exactly for other threads and during a batch, as protocol steps |
| EventLoop.EventLoop.RunInLoop | muduo/EventLoop.cpp:93-99 | begun at once on the loop's own thread, queued otherwise |
| EventLoop.EventLoop.Quit | muduo/EventLoop.cpp:77-83 | sets quit_ and wakes the loop from other threads |
| EventLoop.EventLoop.Weakup | muduo/EventLoop.cpp:141-147 | the counter grows by one unless it is full |
| EventLoop.EventLoop.HandleRead | muduo/EventLoop.cpp:85-91 | the read resets the counter |
| EventLoop.EventLoop.DoPendingFunctors | muduo/EventLoop.cpp:115-126 | runs exactly the functors queued before the swap, in order; what they queue, run at once and quit is what is found after |
| EventLoop.EventLoop.RunBatch | muduo/EventLoop.cpp:122-124 | the loop over the batch, whose length its functors cannot change |
| EventLoop.EventLoop.HandleActive | muduo/EventLoop.cpp:66-68 | every active channel is handled once and in order: the queue, the functors run at once and the quit flag are those its handlers' calls leave |
| EventLoop.EventLoop.Pass | muduo/EventLoop.cpp:64-70 | handles all that is reported and then begins exactly what was pending and what the handlers queued, in that order |
| EventLoop.EventLoop.Loop | muduo/EventLoop.cpp:58-75 | the object's whole history is a run of the protocol, pass after pass; it ends early only stopped, by quit_ |
| Naming.DecimalRoundTrip | muduo/TcpServer.cpp:63 | reading back a printed number gives the number |
| Naming.DecimalIsDigits | muduo/TcpServer.cpp:63 | a printed number is decimal digits only, without a zero in front |
| Naming.IpPortsDiffer | muduo/InetAddress.cpp:25-31 | two addresses and ports print the same if and only if they are the same |
| Naming.IpPortFits | muduo/InetAddress.cpp:25-31 | an address and port take at most 21 characters |
| Naming.NameFits | muduo/TcpServer.cpp:62-65 | no connection name is truncated by the 64-byte buffer |
| Naming.NamesDistinct | muduo/TcpServer.cpp:62-65 | two connections have the same name if and only if they are the same |
| RoundRobin.FairShare | muduo/EventLoopThreadPool.cpp:37-44 | of k turns over n loops each gets the floor or the ceiling of k/n, the first k mod n the ceiling |
| RoundRobin.EventLoopThreadPool.GetNextLoop | muduo/EventLoopThreadPool.cpp:37-44 | the k-th loop handed out is loop k mod n, or the base loop when there is none |
| RoundRobin.EventLoopThreadPool.Start | muduo/EventLoopThreadPool.cpp:21-34 | the pool's loops are those its threads report, in order; the init callback runs on each of them, or on the base loop when there is none |
| RoundRobin.EventLoopThreadPool.GetAllLoops | muduo/EventLoopThreadPool.cpp:47-53 | the pool's loops, or the base loop alone |
| ServerInvariant.InvHolds | muduo/TcpServer.cpp:60-98 | the inductive invariant of a server with all its loops, queues and connections, in every reachable state |
| ServerTheorems.WaitingChannelIsSafe | muduo/EventLoop.cpp:63-71 | every connection waiting in a loop's active list is up, registered, watched and owned, in every interleaving |
| ServerTheorems.DispatchedChannelIsSafe | muduo/Channel.cpp:27-37 | the one being dispatched stays registered and owned until its handleEvent returns, through its own close and removal |
| ServerTheorems.OwnedUntilDestroyed | muduo/EventLoop.cpp:115-126 | a connection is owned if and only if its destruction has not run or a batch not yet done has begun one of its functors; registered implies owned; unowned implies down, as its destructor asserts |
| ServerTheorems.SingleToken | muduo/TcpServer.cpp:83-98 | the phase decides the one functor of a connection's life cycle that is queued, on which loop, and whether the map holds it; there is no other of these |
| ServerTheorems.NextBatchBeginsTheQueue | muduo/EventLoop.cpp:115-126 | the next batch that a loop not in one completes has begun, in order, everything queued on it now |
| ServerTheorems.TwoBatchesBeginTheQueue | muduo/EventLoop.cpp:115-126 | and of a loop that is in a batch the one after it has |
| FunctorOrder.OrderHolds | muduo/EventLoop.cpp:101-124 | in every run a notice, send or shutdown functor queued before its connection's destruction stands before it, and a later one behind it |
| ServerTheorems.FunctorFindsItOwnedIff | muduo/TcpConnection.cpp:52-59 | when such a functor begins, its connection is owned if and only if it was queued before the destruction or a batch not yet done keeps the connection; one that owns its connection always was |
| ServerTheorems.QueuedWhileUpIsEarly | muduo/TcpConnection.cpp:56-61 | a functor queued while its connection is up is queued before the destruction |
| DanglingPointers.BareFunctorFindsItGone | muduo/TcpConnection.cpp:47-54 | a run in which the functor of an off-loop send is queued while its connection is owned and begins when it is not |
| LateInvariant.RoughHolds | muduo/TcpServer.cpp:60-98 | what every run of the server keeps with test and set apart, sends of connections set late and second closes included |
| LateTheorems.LateIffSetLate | muduo/TcpConnection.cpp:57-58 | a connection is found Disconnecting after it went down if and only if a set found it down and no close has come since |
| LateTheorems.CloseAssertHolds | muduo/TcpConnection.cpp:121-123 | handleClose is entered only by a connection that is connected or disconnecting, a second time included |
| LateTheorems.OwnedBeforeDestruction | muduo/TcpServer.cpp:83-98 | in every such run a connection whose destruction has not run is owned |
| LateTheorems.DestructorAssertHoldsIff | muduo/TcpConnection.cpp:42-45 | a connection that nobody owns is down, as the destructor asserts, if and only if no set came late since its last close |
| LateTheorems.DestructionFindsItDownIff | muduo/TcpConnection.cpp:73-80 | connectDestroyed finds its connection down if and only if no set came late since its last close |
| LateTheorems.UpThenDowns | muduo/TcpConnection.cpp:63-129 | the callbacks are up and then one down for each close |
| LateTheorems.CallbacksInOrderIff | muduo/TcpConnection.cpp:121-129 | they are up and down, never more, if and only if no close found the connection gone down before |
| LateShadow.ShadowRunIsRun | muduo/TcpConnection.cpp:56-61 | as long as no connection set late sends again, the server is, but for the states set late, in a run of the server with one step |
| LateShadow.OwnershipSurvives | muduo/TcpServer.cpp:83-98 | so ownership until destruction and the callbacks' order hold then |
| LateRuns.DestructorAssertFails | muduo/TcpConnection.cpp:42-45 | a run from the start in which the assert fails |
| LateRuns.UserSeesUpDownDown | muduo/TcpConnection.cpp:180-182 | a run of a server with an I/O loop in which a queued send registers a closed connection again and it closes twice, its removal still waiting |
| LateRuns.SecondRemovalOutlivesDestruction | muduo/TcpServer.cpp:90-98 | the run continued: the second removal owns the connection after its destruction has run |
| StaleEvents.FaultsIffPartial | muduo/EpollPoller.cpp:34-55 | in every run of a server a poll meets a null pointer if and only if it reports something without filling its list |
| StaleEvents.OneEventFaults | muduo/EpollPoller.cpp:22 | one event for sixteen slots |
| StaleEvents.SurvivingRunIsIntended | muduo/EpollPoller.cpp:91 | until a poll faults the run is one of the server with polls as meant |
| StaleEvents.WaitingIsSafeWhileFull | muduo/EventLoop.cpp:63-68 | so the channels waiting in the active list are up, registered, watched and owned as long as every reporting poll fills its list |
| DanglingPointers.StaleChannelIsDispatched | muduo/EpollPoller.cpp:91-95 | with nulls passed over, a run from the start dispatches the channel of a connection nobody owns |
| Composition.ServerRefines | muduo/TcpServer.cpp:60-98 | with full connections in it, what the server does is always a step of module Server |
| Composition.ConnRefines | muduo/TcpConnection.cpp:63-191 | and what it does to a connection always a step of module Connection, or nothing |
| Composition.ServerRunIsRun | muduo/TcpServer.cpp:60-98 | the server's part of every run of the whole is a run of module Server |
| Composition.ConnRunIsRun | muduo/TcpConnection.cpp:63-191 | and each connection's part a run of module Connection |
| Composition.RegistrationsAgree | muduo/EpollPoller.cpp:56-87 | the server's record and the connection's own registration, state and destruction agree in every run |
| Composition.HandlersFindItOwned | muduo/Channel.cpp:27-61 | no handler ever runs on a connection destroyed or without an owner |
| ServerLoops.CodeIsInjective | muduo/EventLoop.cpp:101-113 | the number a functor has in the hand-off says what it does |
| ServerLoops.ServerRefines | muduo/EventLoop.cpp:115-126 | what the hand-offs let their loops do, the server may do |
| ServerLoops.LoopRefines | muduo/TcpServer.cpp:60-98 | what the server and its users queue, each hand-off may take; before a loop begins its own thread queues nothing |
| ServerLoops.ServerRunIsRun | muduo/TcpServer.cpp:60-98 | with pushes, wake-ups and swaps as separate steps, the server's part of every run is a run of module Server |
| ServerLoops.LoopRunIsRun | muduo/EventLoop.cpp:58-126 | and each loop's part a run of module LoopProtocol |
| ServerLoops.QueuedFunctorsAreAttended | muduo/EventLoop.cpp:101-113 | a loop waiting in poll, or yet to begin, with an establishment, removal, destruction or other functor queued has a wake-up written or coming |
| ServerTheorems.LifeInOrder | muduo/TcpConnection.cpp:63-129 | callbacks are a prefix of up, down; events come after up and before down; destruction once, after down, and last |
| ServerTheorems.EntryStates | muduo/TcpConnection.cpp:73-80 | handleClose is entered only by a connection that is up, connectDestroyed only by one that is down |
| ServerTheorems.AcceptNeverOverwrites | muduo/TcpServer.cpp:83 | the map never already has the name of a newly accepted connection |
| ServerTheorems.LoadIsFair | muduo/TcpServer.cpp:61 | in every reachable state each I/O loop has the floor or the ceiling of its share of the connections |
| ServerLedger.ReportIsDispatchedInOrder | muduo/EventLoop.cpp:63-68 | after a poll what a loop has begun to dispatch and what still waits are together the report, in order |
| ServerLedger.WholeReportIsDispatched | muduo/EventLoop.cpp:66-70 | when the functors' turn comes the whole report has been dispatched, each once and in order |
| ServerLedger.EventsAreDispatches | muduo/Channel.cpp:27-37 | in every run a connection's life records each of its dispatches |
| ServerLedger.NothingBegunOutsideABatch | muduo/EventLoop.cpp:115-126 | what a batch has begun is held for that batch only |
| ServerLedger.AcceptGives | muduo/TcpServer.cpp:60-89 | what an accept leaves: counter, map entry, loop, and establishment at once on the base loop or by one queued functor |
| ServerLedger.NotifyGives | muduo/TcpServer.cpp:90-98 | what the close callback leaves: the name erased in the call on the base loop, one removal queued from any other |
| ServerLedger.DestructionGives | muduo/TcpConnection.cpp:73-80 | a connection still up goes down first, and either way it leaves the poller |
| TcpServer.TcpServer.constructor | muduo/TcpServer.cpp:25-37 | a server starts without I/O loops in the initial state of the model |
| TcpServer.TcpServer.Start | muduo/TcpServer.cpp:49-58 | the first call brings in the pool's loops, idle, and the initial state over them; any other call changes nothing |
| TcpServer.TcpServer.NewConnection | muduo/TcpServer.cpp:60-89 | over loop and connection objects refines the accept: next loop, name, map entry, establishment inline or queued |
| TcpServer.TcpServer.RunInLoop | muduo/EventLoop.cpp:93-99 | refines the functor's own effect on the loop's thread, and the queueing elsewhere |
| TcpServer.TcpServer.Run | muduo/EventLoop.cpp:122-124 | running a functor object refines the model's execution of its task |
| TcpServer.TcpServer.RemoveConnection | muduo/TcpServer.cpp:90-92 | refines the close callback: inline on the base loop's thread, queued from any other |
| TcpServer.TcpServer.RemoveConnectionInLoop | muduo/TcpServer.cpp:93-98 | erases the name and queues the destruction on the connection's loop |

## Left out

- System calls: sockets, epoll_wait and eventfd are oracles constrained only by `Enabled` and preconditions.
- `muduo/Acceptor.cpp`, `muduo/Socket.cpp`, `muduo/defaultPoller.cpp` and the rest of `muduo/InetAddress.cpp`: thin wrappers over system calls.
- `muduo/logger.cpp`, `muduo/timestamp.cpp`, `muduo/Thread.cpp`, `muduo/EventLoopThread.cpp`: output, clock and thread start-up; a thread's identity is a parameter.
- `TcpServer::~TcpServer` and `EventLoop::~EventLoop`: the server theorems concern a live server; the destructor may run connectDestroyed inline (`muduo/TcpServer.cpp:42`).
- `TcpConnection::send`: its assert is the precondition of a send, and its off-loop branch is a send action at any later time, so a queued send has no identity of its own.
- User callbacks: their bodies are arbitrary further actions, which is why events are dispatched in several steps; a callback that blocks or throws is not modelled.
- ServerTheorems.WaitingChannelIsSafe: takes polls as they are meant, over the reported entries, and shutdown's test and set as one step; `StaleEvents` has polls as written, and `RoughHolds` keeps a waiting channel up with test and set apart.
- Poller.EpollPoller.FillActivateChannels: as it is meant; `FillActivateChannelsAsWritten` is the text.
- ConnectionTheorems.InvHolds: takes shutdown's test and set as one step; `InvariantSurvives` has it with them apart.
- ConnectionTheorems.GracefulHalfClose: likewise; `HalfClosesStayFlushed` has it with them apart.
- ConnectionTheorems.HalfCloseIsTheLastWord: likewise; it follows from the invariant, which `InvariantSurvives` keeps.
- ConnectionTheorems.CloseIsFinal: likewise; `CloseIsFinalIffSetsFindItUp` has it with them apart.
- ConnectionTheorems.CallbackTrace: likewise; it is part of the invariant.
- ConnectionTheorems.RegistrationAgrees: likewise; it is part of the invariant.
- TcpConnection.TcpConnection.Shutdown: runs its test and its set without another thread in between; `SetDisconnecting` is the second alone.
- ServerInvariant.InvHolds: takes shutdown's test and set as one step; `ShadowRunIsRun` says what is left of it with them apart.
- ServerTheorems.OwnedUntilDestroyed: likewise; `OwnershipSurvives` and `DestructorAssertHoldsIff` have it with them apart.
- ServerTheorems.EntryStates: likewise; `DestructionFindsItDownIff` has it with them apart.
- ServerTheorems.LifeInOrder: likewise; `OwnershipSurvives` has it with them apart.
- LateShadow.ShadowRunIsRun: for runs in which no connection set late sends again, or leads to a notice; `LateTheorems` has every run.
- LateShadow.OwnershipSurvives: likewise; `SecondRemovalOutlivesDestruction` and `CallbacksInOrderIff` say what is lost otherwise.
- Composition.ServerRunIsRun: there a shutdown is one step; runInLoop calls made inline are no step of a loop's hand-off in `ServerLoops`.
- TcpServer.TcpServer.Run: over loops and connections as the server sees them; that full connections fit is `Composition`, and that the hand-offs do is `ServerLoops`.
- Poller.EpollPoller.Update: an epoll_ctl that is legal but fails is not modelled.
- ByteBuffer.Buffer.Receive: the scatter read that `muduo/Buffer.h:93-100` sets up; `ReadFdAsWritten` is the call in the text.
- Shared pointers that the user keeps: a connection nobody owns here may still have an owner there.
- More than 2147483647 accepted connections, at which the source's `int` counter overflows.
- Memory effects weaker than sequential consistency, and C++ value widths other than the connection id, the eventfd counter and the name buffer.
- EventLoop.EventLoop.Loop: takes its surroundings as a list of passes, so a run of the object is finite, and calls of other threads fall between the steps of user code; every finer interleaving is covered by the protocol's own runs.
- TcpConnection.TcpConnection.SendInLoop: the payload is a value, so the lifetime of the caller's buffer is not modelled.
- ByteBuffer.Buffer.RetrieveAsString: `len` beyond the readable bytes, which the source reads past, is excluded; the constructor's ignored `initialSize` is not a parameter.
- RoundRobin.EventLoopThreadPool.Start: the loops come as the threads report them; starting a thread is not modelled.
- `TcpServer::start` also queues `Acceptor::listen`; accepting before it is excluded, as the socket does not listen yet.
- `design_pattern/` and `my_test/`: a demonstration and a smoke test, not part of the library.
