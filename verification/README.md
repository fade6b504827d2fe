# A model of OugeNetLib's event loop, timers, connections and thread pool

OugeNetLib is a reactor-style TCP library: each thread runs an event loop that waits in epoll, dispatches
the channels that became active, and then runs the functors queued to it.  This project models the parts
of it that keep state over time, and proves what they keep.  Nothing was executed.

Each module has two layers.

* A *state* of plain values, functions that say what each operation leaves, events, and `Run`, which applies
  any list of events.  Threads interleave event by event; system calls are arguments of the events, so a
  statement about every list of events is a statement about every schedule and every answer of the kernel.
  The theorems are about these runs.  Lemmas whose names end in `Decides` or `OverRuns` say what calls and
  answers of the kernel lead to in terms of the calls and answers themselves, not of the functions that compute it.
* A *class* with the source's fields, whose methods work step by step as the source does, and whose
  contracts equate the new state with the function of the old one.

| file | what it models |
|---|---|
| `TimerQueue.dfy` | the two timer indexes, the batch of expired timers with callbacks that add and cancel, the timerfd |
| `EventLoop.dfy` | the pending functors, the eventfd, any number of threads pushing, quitting and waking |
| `Dispatch.dfy`, `DispatchRuns.dfy` | which channels exist and are registered while the active ones are visited |
| `Poller.dfy` | channels, the poller's indexes, and the kernel's interest set |
| `Buffer.dfy`, `Endian.dfy` | the byte buffer, and integers in network byte order (Appendix B of RFC 791) |
| `TcpConnection.dfy` | one connection: the four states, the output path, shutdown, event dispatch |
| `TcpServer.dfy` | connections handed between the acceptor's loop and their I/O loops |
| `ThreadPool.dfy` | the bounded task queue with two condition variables |
| `Connector.dfy` | connecting with retries |

## What is assumed of the environment

* `epoll_ctl` succeeds; `write` answers -1 or at most the length it was given; `readv` at most the space it
  was given; an allocator never answers the address of a live object.  The clock is positive.
* The loop thread calls `queueInLoop` only from handlers and functors, and `quit` is not called before
  `loop`.  What happens otherwise is `EventLoops.QuietPushIsSafe` and `EventLoops.QuietPushCanBeLost`.
* `send`, `shutdown`, `forceClose`, `startRead` and `stopRead` are called in the connection's loop thread,
  and the last two while the connection is up.
* The kernel reports HUP together with IN, or without PRI and RDHUP.
* `start` of a connector is called once, and `restart` when its connection has gone.
* Flags that the source reads without a lock are read and written one at a time.

## Where the code falls short of its promises

Each of these is kept as the code has it.  The lemma named gives the exact condition; where it is about a
state, a run that reaches such a state is given as well.

* `handleEvent` runs the close callback and then the read callback when HUP comes without IN but with PRI or
  RDHUP; the assertion in `handleClose` then fails if and only if the read finds the end
  (`TcpConnections.CloseThenReadFails`).
* Closing a connection that watches for nothing puts it back into the kernel's set, with an empty mask: the
  `disableAll` of `handleClose` adds a channel that `stopRead` had taken out.  If it is closed by force, or in a
  loop other than the acceptor's by a report that poll stored before `stopRead` and that is handled after it,
  then `connectDestroyed` is not in the batch of functors that the loop runs before it polls again.  A hang-up
  reported by that poll runs the close callback a second time, and its assertion fails
  (`TcpServers.DarkCloseCanFail`; reached in `TcpServers.ForcedDarkCloseIsReachable` and
  `TcpServers.OutdatedDarkCloseIsReachable`).  Without it, and without the previous item, every assertion on
  the way holds (`TcpServers.LifecycleOverRuns`); an outdated report in the acceptor's own loop does no harm
  (`TcpServers.OutdatedReportInTheAcceptorsLoop`).
* An added channel need not be interested in anything (`Pollers.AddedWithoutInterest`).
* The assertion in `makeSpace` fails for requests so long that adding 8 wraps around
  (`Buffers.CompactionAssertion`).
* `shrink` narrows the number of readable bytes to int (`Buffers.ShrinkKeepsTheBytes`); a negative length makes
  it throw or fail an assertion (`Buffers.ShrinkEndsInMakeSpace`).
* A functor that the loop thread queues outside handlers and functors can be left behind
  (`EventLoops.QuietPushIsSafe`).
* A retry timer that fires before `resetChannel` has run breaks the assertion in `connecting`
  (`Connectors.TimerBeforeResetFails`).
* `stop` of the thread pool does not wake producers, and can leave one inside `run` for ever
  (`ThreadPools.StopStrandsProducers`).

## Model

| member | source | states |
|---|---|---|
| TimerQueues.TimeSpecIsExact | net/TimerQueue.cc:24-34 | the timespec is max(when - now, 100 us) to the nanosecond, with 0 <= tv_nsec < 10^9 |
| TimerQueues.DeadlineIsExact | net/TimerQueue.cc:24-56 | arming with that timespec rings at the expiration, or 100 us from now if that is later |
| TimerQueues.SortedIsUnique | net/TimerQueue.cc:147-155 | the order of std::set iteration is determined by its elements |
| TimerQueues.OneHomeOverRuns | net/TimerQueue.cc:104-213 | over every run with re-entrant add and cancel and reused addresses: each timer ever created is in both indexes under its current expiration and sequence, or in the running batch, or freed, and in exactly one of these |
| TimerQueues.SizesAgree | net/TimerQueue.cc:192 | the size assertions: both indexes have equally many elements, by pairing them through the heap |
| TimerQueues.AddDecides | net/TimerQueue.cc:86-109 | an Add makes one timer, with the time, interval and repetition it was given and the next sequence number, and changes nothing else |
| TimerQueues.AddArms | net/TimerQueue.cc:104-109 | it moves the alarm if and only if no other timer is due as early |
| TimerQueues.TimerLife | net/TimerQueue.cc:128-189 | the life of a timer, from its Add through every run that does not cancel it: it waits for its time, the first batch that begins no earlier takes it, its callback starts once in each of its batches, and afterwards it waits until the interval has passed since the batch began if it repeats, and is deleted if it does not |
| TimerQueues.AlarmOverRuns | net/TimerQueue.cc:104-109 | outside handleRead, an indexed timer means an alarm no later than the earliest expiration or 100 us after it was last set |
| TimerQueues.BatchRunsThrough | net/TimerQueue.cc:135-142 | the callbacks of a batch start once each, in the order of the batch |
| TimerQueues.NeverEarlyOverRuns | net/TimerQueue.cc:128-145 | no callback starts before its expiration |
| TimerQueues.BatchIsExactlyTheDue | net/TimerQueue.cc:147-166 | getExpired takes out of both indexes exactly the timers due, in order of expiration and address, and leaves exactly the later ones |
| TimerQueues.FinishOutcome | net/TimerQueue.cc:168-189 | after a batch each timer of it is indexed again, once, at now + interval if it repeats and was not cancelled, and freed otherwise; other timers are untouched |
| TimerQueues.CancelDecides | net/TimerQueue.cc:111-126 | an id that is indexed loses its timer and both entries at once; any other is noted while callbacks run and ignored otherwise; nothing else changes |
| TimerQueues.CancelRetires | net/TimerQueue.cc:111-126 | cancelInLoop leaves no index entry for the id, and a timer that is alive only if it is in the running batch and marked |
| TimerQueues.CancelledTimer | net/TimerQueue.cc:111-145 | after cancel the timer is never indexed again in any continuation, and its callback starts at most once more, only if it is in the batch and not reached yet |
| TimerQueues.StaleCancelIsHarmless | net/TimerQueue.cc:111-126 | cancelling an id that names no live timer changes nothing that any continuation shows |
| TimerQueues.StaleIds | net/TimerId.h:16-18 | these are the ids whose timer is freed, even with its address in use again, those never given out, and the id of the default constructor |
| TimerQueues.TimerQueue.constructor | net/TimerQueue.cc:66-74 | the empty queue satisfies the invariant |
| TimerQueues.TimerQueue.ResetTimerfd | net/TimerQueue.cc:47-56 | the timerfd rings at the expiration, or 100 us from now if that is later, however the time is split into seconds and nanoseconds |
| TimerQueues.TimerQueue.Insert | net/TimerQueue.cc:191-213 | adds to both indexes, and answers whether the earliest expiration changed |
| TimerQueues.TimerQueue.AddTimer | net/TimerQueue.cc:86-109 | the timer has what it was given and is in both indexes, the alarm is moved exactly when it is now the earliest, and the invariant is kept |
| TimerQueues.TimerQueue.CancelInLoop | net/TimerQueue.cc:111-126 | erases and frees an indexed timer, or marks the id while callbacks run, and keeps the invariant |
| TimerQueues.TimerQueue.GetExpired | net/TimerQueue.cc:147-166 | lower_bound, copy and two erasures leave exactly the later timers |
| TimerQueues.TimerQueue.RunCallback | net/TimerQueue.cc:139-142 | a callback with any sequence of adds and cancels equals the corresponding events |
| TimerQueues.TimerQueue.Reset | net/TimerQueue.cc:168-189 | the loop over the batch computes the reset function, and the alarm is set for the earliest timer left |
| TimerQueues.TimerQueue.HandleRead | net/TimerQueue.cc:128-145 | the whole of handleRead, callbacks included, equals its sequence of events and keeps the invariant |
| EventLoops.NoLostWakeup | net/EventLoop.cc:83-149 | with any number of threads: in poll with functors pending, or with quit_ set, the eventfd is readable or another thread is about to write it |
| EventLoops.ControlOverRuns | net/EventLoop.cc:83-149 | in every interleaving, where the loop thread is, quit_, the threads that owe the eventfd a write, its counter, and the list of everything pushed are what the calls and steps so far say, with no regard to the functors: no push, quit or wakeup is lost or made up |
| EventLoops.ExactlyOnceInOrder | net/EventLoop.cc:131-149 | everything pushed is what has been executed, then the rest of the batch, then pendingFunctors_, in order |
| EventLoops.BatchIsWhatWasPushedBefore | net/EventLoop.cc:234-246 | when a batch is done, exactly the functors pushed before its swap have run |
| EventLoops.BatchIsFixedAtTheSwap | net/EventLoop.cc:234-246 | whatever is pushed meanwhile, doPendingFunctors calls the functors of its batch once each, in order, so it ends |
| EventLoops.WokenLoopRunsEverything | net/EventLoop.cc:90-103 | once the pushers have written the eventfd, poll can return, and the turn that follows executes everything pushed |
| EventLoops.QuitIsFinal | net/EventLoop.cc:90-114 | once quit_ is set and the loop is out of poll, it never polls again, unless loop() is called again |
| EventLoops.QuietPushIsSafe | net/EventLoop.cc:146-148 | a loop-thread push without wakeup is lost in no continuation, further calls of loop() included, if and only if it is made in a handler or with a wakeup on its way |
| EventLoops.QuietPushCanBeLost | net/EventLoop.cc:146-148 | made before loop(), the functor is left behind while the loop waits in poll |
| EventLoops.EventLoop.QueueInLoop | net/EventLoop.cc:131-149 | the push, and the wakeup exactly for other threads or while functors run |
| EventLoops.EventLoop.Quit | net/EventLoop.cc:110-114 | sets quit_, and leaves the eventfd readable if another thread called |
| EventLoops.EventLoop.Wakeup | net/EventLoop.cc:216-223 | one more on the eventfd, up to its maximum |
| EventLoops.EventLoop.HandleRead | net/EventLoop.cc:225-232 | the read empties the eventfd |
| EventLoops.EventLoop.TakeBatch | net/EventLoop.cc:234-241 | flag and swap |
| EventLoops.EventLoop.DoPendingFunctors | net/EventLoop.cc:234-246 | runs exactly the functors that were pending, and leaves pending exactly what was queued meanwhile, by functors and other threads; quit_ is set exactly if one of them called quit |
| EventLoops.EventLoop.PerformAll | net/EventLoop.cc:110-149 | any calls of queueInLoop and quit, by the loop thread or others, leave the functors pending in order and equal their pushes, quits and wakeups |
| EventLoops.EventLoop.ReturnFromPoll | net/EventLoop.cc:90-92 | when functors are pending or quit_ is set, and every thread has written the eventfd, it is readable, and handleRead empties it |
| EventLoops.EventLoop.TakeTurn | net/EventLoop.cc:90-103 | a turn executes what was pending, what arrived in poll and what the handlers queued, in this order, and leaves what was queued during its functors |
| EventLoops.EventLoop.Loop | net/EventLoop.cc:83-107 | called for the first time or again, the loop ends after the first turn in which anyone, a handler or functor included, calls quit, having executed each turn's functors in order, and leaves pending what the last ones queued |
| EventLoops.EventLoop.RemoveChannel | net/EventLoop.cc:192-202 | unregisters the channel; its assertion is about the fields the loop has set |
| EventLoops.EventLoop.Do | net/EventLoop.cc:192-202 | whatever a callback or a functor does to the channels, the channel it removes passes that assertion |
| EventLoops.EventLoop.HandleEvents | net/EventLoop.cc:95-102 | the dispatch, with anything a callback can do to channels, equals its events, and every removal passes the assertion of removeChannel |
| DispatchRuns.DispatchIsSafe | net/EventLoop.cc:90-103 | in every run the channels still to be visited are live, registered and not about to be freed, the current one is live, and the assertions of removeChannel and of Channel's destructor hold at every step |
| Dispatches.ApplyKeepsInv | net/EventLoop.cc:192-202 | every step keeps the invariant of connectors, connections and the dispatch, and from it what the step removes and frees may be removed and freed |
| Dispatches.CallbackRemovesItsOwn | net/Connector.cc:122-169 | what a connector removes in handleWrite or handleError is the current channel, because its state_ is kConnecting only while it holds that channel |
| DispatchRuns.RemovedChannelsAreFreedOnce | net/TcpServer.cc:89-102 | a channel that a connector has removed has exactly one resetChannel waiting, and a closed connection exactly one connectDestroyed, here or by way of the acceptor's loop, until it has run |
| DispatchRuns.ChannelLifeOverRuns | net/EventLoop.cc:83-107 | in every run, at every address, a channel is made, closed, removed and freed when its own owner does that to it, and at no other time |
| DispatchRuns.AgendaIsKept | net/EventLoop.cc:95-102 | each step of the loop, its callbacks and the other threads queues exactly the functor it has to, and the loop visits and runs in order |
| Pollers.ApplyKeepsMirror | net/EPollPoller.cc:65-131 | every channel operation keeps the indexes in step with the kernel's set, and makes only epoll_ctl calls the kernel accepts |
| Pollers.MirrorOverRuns | net/EPollPoller.cc:51-131 | kNew iff not in channels_, kAdded iff in the kernel with mask = events, kDeleted iff registered only, over every run |
| Pollers.ReportedPointersAreGood | net/EPollPoller.cc:51-63 | with channels destroyed and their addresses used again, every pointer epoll returns is a channel that is alive and passes the assertions of fillActiveChannels |
| Pollers.KernelFollowsTheLastUpdate | net/EPollPoller.cc:65-131 | over every run the kernel watches a descriptor if and only if the channel registered for it is added, and then for what the last update of that channel asked for |
| Pollers.RemovedIsGone | net/EPollPoller.cc:97-111 | a removed channel is in neither index and not in the kernel, and no other is touched |
| Pollers.DisablingTwiceAddsAgain | net/Channel.h:66-69 | disableAll on a deleted channel adds it to the kernel again, without interest |
| Pollers.AddedWithoutInterest | net/EPollPoller.cc:65-95 | an update leaves a channel added without interest if and only if it clears the events of one that was not added |
| Pollers.Channel.SetEvents | net/Channel.cc:39-42 | update() after a change of events_ |
| Pollers.Channel.Destroy | net/Channel.cc:28-32 | a channel that is not in the poller can be destroyed, and the poller does not know it afterwards |
| Pollers.Channel.Remove | net/Channel.cc:44-48 | the channel leaves channels_ and the kernel's set |
| Pollers.EPollPoller.UpdateChannel | net/EPollPoller.cc:65-95 | a poller that mirrored the kernel before the channel's events changed mirrors it again, with the index the three cases give |
| Pollers.EPollPoller.RemoveChannel | net/EPollPoller.cc:97-111 | erases the channel, and deletes it from the kernel if it was there |
| Pollers.EPollPoller.FillActiveChannels | net/EPollPoller.cc:51-63 | the active channels are the reported ones, in order, each registered at its descriptor |
| Pollers.EPollPoller.Poll | net/EPollPoller.cc:28-49 | fills the list, and doubles the event array exactly when it was full |
| Endian.WireImage | net/Endian.h:20-30 | on either host, storing what hostToNetwork gives puts the big-endian bytes in memory, and networkToHost undoes it |
| Endian.MostSignificantFirst | net/Endian.h:20-30 | byte k of an n-byte number is its (n-1-k)-th digit to base 256 |
| Endian.BigEndianDecodes | net/Endian.h:20-30 | decoding an encoded number gives it back |
| Endian.BigEndianEncodes | net/Endian.h:20-30 | encoding a decoded byte string gives it back |
| Endian.DecodesWhatWasEncoded | net/Buffer.h:146-229 | signed integers of 8, 16, 32 and 64 bits survive the round trip |
| Endian.MixedListRoundTrip | net/Buffer.h:146-212 | any list of integers of mixed widths reads back as it was, and the bytes after it are left |
| Buffers.RefinesBytes | net/Buffer.h:73-145 | over every run of operations the readable bytes are those of a plain byte sequence, with shrink as the code narrows it |
| Buffers.OnlyPrependTakesTheArea | net/Buffer.h:231-236 | over every run without a prepend the prependable area keeps its 8 bytes |
| Buffers.StepRefines | net/Buffer.h:73-145 | both for one operation, and that ensureWritableBytes makes the room |
| Buffers.Ensured | net/Buffer.h:127-130 | there is room, and the readable bytes are kept through growth and compaction |
| Buffers.GrowsOnlyWhenItMust | net/Buffer.h:255-270 | the array stays as long as it is, and the bytes move to the front, whenever the room behind and in front of them is enough; otherwise it grows to exactly what is needed |
| Buffers.EmptyStartsOver | net/Buffer.h:73-80 | retrieving the last byte makes the whole array but for the prependable area writable again |
| Buffers.StreamStaysSmall | net/Buffer.h:117-121 | over every run of appends, reads and retrievals in which at most n bytes are readable at a time, the array stays shorter than 2n + 8 bytes, unless it was longer at the start |
| Buffers.CompactionAssertion | net/Buffer.h:255-270 | the assertion in makeSpace holds if and only if the request does not wrap around (or there is slack in front) |
| Buffers.CompactionAssertionFails | net/Buffer.h:255-270 | an input for which it fails |
| Buffers.ShrinkKeepsTheBytes | net/Buffer.h:111-113 | shrink returns and keeps the readable bytes if and only if there are at most INT_MAX of them |
| Buffers.LowBitsDecide | net/Buffer.h:238-243 | which of its three ends shrink comes to, by the low 32 bits of the number of readable bytes |
| Buffers.ShrinkLosesBytes | net/Buffer.h:238-243 | 2^32 + 5 readable bytes shrink to 5; with 2^31 of them shrink throws, with 2^32 - 1 an assertion fails |
| Buffers.ShrinkEndsInMakeSpace | net/Buffer.h:255-270 | why: for a negative length the vector is asked for more than it can hold, or, from -8 to -1, the sum wraps and there is nothing to compact |
| Buffers.AppendedIntegersReadBack | net/Buffer.h:146-212 | integers of any widths, appended one after the other with the growth and compaction of each, are read back one after the other, after what was readable before, which stays |
| Buffers.PrependedIntegerReadsBack | net/Buffer.h:163-229 | prependIntN then readIntN gives the integer and restores the readable bytes, and the indexes unless nothing else was readable |
| Buffers.Buffer.Swap | net/Buffer.h:35-39 | exchanges contents and indexes |
| Buffers.Buffer.Retrieve | net/Buffer.h:73-80 | drops bytes in front; resets the indexes when all are dropped |
| Buffers.Buffer.RetrieveAsString | net/Buffer.h:104-109 | answers the bytes it drops |
| Buffers.Buffer.Unwrite | net/Buffer.h:141-144 | drops bytes at the end |
| Buffers.Buffer.Compact | net/Buffer.h:260-268 | the readable bytes are at the front, the indexes follow |
| Buffers.Buffer.MoveDown | net/Buffer.h:264-265 | the overlapping copy, byte by byte in place, moves exactly those bytes |
| Buffers.Buffer.Grow | net/Buffer.h:256-259 | resize keeps the bytes |
| Buffers.Buffer.MakeSpace | net/Buffer.h:255-270 | compacts in the same array when the free room is enough, and grows to exactly what is needed otherwise |
| Buffers.Buffer.Append | net/Buffer.h:117-121 | the readable bytes followed by the new ones |
| Buffers.Buffer.Prepend | net/Buffer.h:231-236 | the new bytes before the readable ones |
| Buffers.Buffer.Shrink | net/Buffer.h:238-243 | a smaller array with as many of the bytes as the length narrowed to int says; or it throws, or fails in makeSpace, and the buffer is as it was |
| Buffers.Buffer.AppendInt | net/Buffer.h:146-161 | appends the network-order bytes, on either host |
| Buffers.Buffer.PrependInt | net/Buffer.h:214-229 | prepends them |
| Buffers.Buffer.PeekInt | net/Buffer.h:187-212 | decodes the first bytes |
| Buffers.Buffer.ReadInt | net/Buffer.h:163-185 | decodes and drops them |
| Buffers.Buffer.FindCRLF | net/Buffer.h:49-59 | the first CR LF at or after the start, or none if there is none |
| Buffers.Buffer.FindEOL | net/Buffer.h:61-71 | the first LF at or after the start, or none if there is none |
| Buffers.Buffer.ReadFd | net/Buffer.cc:17-45 | appends exactly the bytes read, for every split between the buffer and the spill area |
| TcpConnections.StreamOverRuns | net/TcpConnection.cc:104-146 | over every run, bytes given to the kernel followed by the output buffer are all messages that were not refused, in order; an up connection watches for writability exactly when the output buffer is not empty |
| TcpConnections.AcceptedOverRuns | net/TcpConnection.cc:104-146 | the accepted bytes of any run are the concatenation of its messages that were not refused |
| TcpConnections.AcceptedIsWhatWasSent | net/TcpConnection.cc:104-146 | a send adds its whole message unless the connection is not connected, or the direct write met EPIPE or ECONNRESET; nothing else adds |
| TcpConnections.KernelDecidesTheCut | net/TcpConnection.cc:104-146 | over every run, cut the accepted bytes where the numbers that write answered add up to: what is before is on the wire and what is after is in the output buffer, so nothing is sent twice or skipped |
| TcpConnections.SendDecides | net/TcpConnection.cc:104-146 | sendInLoop in every state, by what write answers: which bytes go out, which are buffered, and when the message is dropped; nothing else changes |
| TcpConnections.WriteDecides | net/TcpConnection.cc:258-284 | handleWrite, by what write answers: the buffer gives that many bytes, and write interest ends with the last |
| TcpConnections.InputOverRuns | net/TcpConnection.cc:243-256 | over every run, what message callbacks have retrieved followed by what inputBuffer_ still holds is exactly what the reads found, in order |
| TcpConnections.CallbacksDecideTheCut | net/TcpConnection.cc:243-256 | over every run, cut what the reads found where the callbacks' retrievals add up to: what is before has been retrieved, and what is after is readable |
| TcpConnections.ShutdownOverRuns | net/TcpConnection.cc:148-168 | shutdownWrite happens at most once, when every accepted byte is with the kernel, and no byte is written after it |
| TcpConnections.ShutdownArrives | net/TcpConnection.cc:148-159 | after shutdown on a connected connection, in every continuation: closed, or output is left to drain, or the write side has been shut down once |
| TcpConnections.PhaseOverRuns | net/TcpConnection.cc:148-298 | over every run state_ and the interest in input are what the calls so far, and the end of input, say |
| TcpConnections.NoticesDecide | net/TcpConnection.cc:161-168 | forceClose queues one forceCloseInLoop exactly when the connection is up, and the write that empties the buffer the one write-complete notice |
| TcpConnections.MessageIsReadAndConsumed | net/TcpConnection.cc:243-256 | handleRead with a message callback is the read and then what the callback retrieves |
| TcpConnections.DrainingShutsDown | net/TcpConnection.cc:258-284 | a shut-down connection keeps draining, and the write that empties the buffer shuts the write side down |
| TcpConnections.HighWaterExactly | net/TcpConnection.cc:104-146 | the two notices are queued exactly when the message went out at once, and when the buffer crosses the mark |
| TcpConnections.ApplyKeepsInv | net/TcpConnection.cc:104-298 | every operation keeps the invariant of states, interest, buffer and shutdown |
| TcpConnections.CloseThenReadFails | net/Channel.cc:60-84 | the assertion of handleClose fails within one event on a connection that is up if and only if HUP comes without IN, with PRI or RDHUP, and the read finds the end; and on one that is not, if and only if the event closes or the read finds the end |
| TcpConnections.PolloutDrains | net/Channel.cc:80-82 | in an event with any other bits, the write callback comes last, if and only if POLLOUT is reported: the bytes that the kernel takes then go from the buffer to the wire |
| TcpConnections.OtherBitsDecide | net/Channel.cc:60-79 | and which callback the other bits call: none, the read callback, or the close callback |
| TcpConnections.TcpConnection.ConnectEstablished | net/TcpConnection.cc:222-230 | kConnecting to kConnected, reading enabled |
| TcpConnections.TcpConnection.SendInLoop | net/TcpConnection.cc:104-146 | in every state: given up when kDisconnected; else direct write of as much as the kernel takes, fault, buffering of the rest and write interest, on the real buffer and channel |
| TcpConnections.TcpConnection.Shutdown | net/TcpConnection.cc:148-159 | kDisconnecting, and shutdownWrite at once only when nothing waits |
| TcpConnections.TcpConnection.ForceClose | net/TcpConnection.cc:161-168 | kDisconnecting, and forceCloseInLoop queued |
| TcpConnections.TcpConnection.StartRead | net/TcpConnection.cc:198-208 | reading enabled |
| TcpConnections.TcpConnection.StopRead | net/TcpConnection.cc:210-220 | reading disabled |
| TcpConnections.TcpConnection.HandleRead | net/TcpConnection.cc:243-256 | the input buffer gets what was read and loses what the message callback retrieves; the end closes |
| TcpConnections.TcpConnection.HandleWrite | net/TcpConnection.cc:258-284 | the output buffer gives what was written; when empty, write interest ends and a pending shutdown happens |
| TcpConnections.TcpConnection.HandleClose | net/TcpConnection.cc:286-298 | kDisconnected, no interest |
| TcpConnections.TcpConnection.ConnectDestroyed | net/TcpConnection.cc:232-241 | closes if still connected, and takes the channel out of the poller; it asks exactly what Channel::remove and the poller assert |
| TcpServers.LifecycleOverRuns | net/TcpServer.cc:60-102 | in every interleaving of the loops, each with its turns of poll, dispatch and one batch of functors, and with reports that get out of date between poll and their visit: each connection is made, up, down, notified, erased and destroyed in that order and each at most once; on the way the work for the next step is queued or about to run; it is in the map, with its loop, exactly until erased; and every assertion holds, as long as no connection that watches for nothing is closed by force, or by an outdated report outside the acceptor's loop |
| TcpServers.ApplyKeepsInv | net/TcpServer.cc:60-102 | every such event keeps the invariant that the queues hold exactly the functors each connection is waiting for, that unvisited connections are up, and that a closed connection still in the kernel's set is destroyed before its loop polls; and meets the assertions of erase, handleClose, connectEstablished and Channel::remove |
| TcpServers.LoopsMoveThemselves | net/EventLoop.cc:90-102 | only a loop's own thread moves it, and in order: poll fills the list of reports, each visit takes the first, the swap fixes the batch, each functor shortens it, and forceCloseInLoop goes on to the close |
| TcpServers.UserCallIsMade | net/TcpConnection.cc:161-168 | the user's call changes its connection as the call does, and a forceClose of a connection that is up queues one functor in its loop; nothing else changes |
| TcpServers.PolledIsUp | net/EventLoop.cc:90-102 | what a loop finds in the kernel's set when its batch is done is up |
| TcpServers.VisitOwes | net/Channel.cc:60-84 | visiting a report owes its connection the close, read and write callbacks that its bits name |
| TcpServers.VisitIsHandledEvent | net/EventLoop.cc:95-100 | made one at a time, with nothing in between, these do to the connection what handleEvent does, and the loop is free again |
| TcpServers.ConnectionsAreNumbered | net/TcpServer.cc:60-87 | over every run, the connections made so far are 1 to the number accepted, so no name is used twice |
| TcpServers.DroppedIsOutOfThePoller | net/TcpConnection.cc:51-55 | when the library holds no reference any more, the connection is disconnected, destroyed, and out of the poller |
| TcpServers.DarkCloseCanFail | net/TcpConnection.cc:286-298 | from every state in which a connection that watches for nothing is closed by force, or by an outdated report outside the acceptor's loop, the run can go on, through the rest of the turn, to fail an assertion |
| TcpServers.ForcedDarkCloseIsReachable | net/TcpConnection.cc:161-184 | legal events lead there: stopRead, then forceClose |
| TcpServers.OutdatedDarkCloseIsReachable | net/EventLoop.cc:90-100 | and there, with two loops: stopRead between poll and the visit |
| TcpServers.OutdatedReportInTheAcceptorsLoop | net/TcpServer.cc:89-102 | in the acceptor's own loop the same close is reachable and among the runs in which nothing fails: connectDestroyed is queued during the dispatch |
| TcpServers.TcpServer.NewConnection | net/TcpServer.cc:60-87 | a new id, a map entry, connectEstablished at once or queued |
| TcpServers.TcpServer.RemoveConnection | net/TcpServer.cc:89-91 | erases at once in the acceptor's loop, queues otherwise |
| TcpServers.TcpServer.RemoveConnectionInLoop | net/TcpServer.cc:93-102 | erase answers 1 exactly when the connection was there, and connectDestroyed is queued |
| ThreadPools.PoolOverRuns | base/ThreadPool.cc:52-92 | no lost notification on either side: a sleeping worker means at least as many workers awake or woken on their way (not counting those inside tasks) as queued tasks, and a sleeping producer at least as many producers on their way as free slots; tasks are conserved, in order, and the bound is kept |
| ThreadPools.TakeKeepsInv | base/ThreadPool.cc:78-88 | take keeps both cardinality invariants |
| ThreadPools.PutKeepsInv | base/ThreadPool.cc:52-76 | run keeps them |
| ThreadPools.CallDecides | base/ThreadPool.cc:52-55 | without threads the task runs in the caller of run |
| ThreadPools.PutDecides | base/ThreadPool.cc:52-76 | run sleeps if and only if the queue is full; otherwise the task is the last of the queue and one sleeping worker wakes, if there is one |
| ThreadPools.TakeDecides | base/ThreadPool.cc:78-88 | take gives the oldest task if and only if there is one, sleeps if and only if there is none and the pool is running, and wakes one sleeping producer when it made room |
| ThreadPools.QueuedTaskCanStart | base/ThreadPool.cc:52-92 | over every run without a stop, whenever tasks are queued the steps of the workers alone can start the oldest of them |
| ThreadPools.OneTaskEach | base/ThreadPool.cc:94-103 | over every run, a worker is inside a task if and only if it has begun one more than it has finished |
| ThreadPools.RunningUntilStop | base/ThreadPool.cc:35-41 | over every run, the pool is running if and only if stop has not been called |
| ThreadPools.StopDecides | base/ThreadPool.cc:35-41 | stop clears running_ in every state, wakes every sleeping worker, and touches no task and no producer |
| ThreadPools.JoinsAfterStop | base/ThreadPool.cc:35-45 | stop called in any state: in every continuation a worker never sleeps, can always make its next step, makes at most three, and starts at most one more task |
| ThreadPools.StopStrandsProducers | base/ThreadPool.cc:35-41 | stop called in any state leaves a producer inside run for ever, in every continuation, if and only if the queue is full and no worker sleeps or is on its way into take or out of its wait |
| ThreadPools.StrandedOnceStopped | base/ThreadPool.cc:52-63 | the same for any later moment: full, and no worker on its way into take or out of its wait |
| ThreadPools.StrandedProducerIsReachable | base/ThreadPool.cc:52-63 | a run that strands a producer |
| ThreadPools.ThreadPool.Put | base/ThreadPool.cc:56-62 | queues the task, or sleeps exactly when the queue is full |
| ThreadPools.ThreadPool.Take | base/ThreadPool.cc:78-88 | the oldest task, or sleep while running, or the empty task |
| ThreadPools.ThreadPool.Stop | base/ThreadPool.cc:35-41 | running_ is false, and nobody sleeps on notEmpty_ any more |
| Connectors.SocketsAreConserved | net/Connector.cc:54-184 | every socket made is held by the registered channel, closed once or handed over once, and exactly one of these, over every run |
| Connectors.Connector.Start | net/Connector.cc:31-45 | connect_ is set first, startInLoop runs at once or is queued |
| Connectors.Connector.Stop | net/Connector.cc:47-52 | connect_ is cleared first, then stopInLoop queued; other threads may come between |
| Connectors.RegisteredWhileConnecting | net/Connector.cc:108-132 | the channel is registered exactly in kConnecting, it is gone when nothing is pending, and the assertions hold at every step |
| Connectors.BackoffIsCapped | net/Connector.cc:171-184 | the k-th retry since construction or restart comes after min(500 * 2^k, 30000) ms, and at most one waits |
| Connectors.HandedExactlyOnSuccess | net/Connector.cc:134-159 | when the socket became writable without error or self connection, the state is kConnected, and it is handed to newConnectionCallback_ if and only if it is still wanted, and closed otherwise; nothing else hands one over |
| Connectors.AnswerDecides | net/Connector.cc:63-98 | every attempt, in start, in a queued start, for a retry and in restart: the channel watches the new socket for four answers of connect(2), a retry is scheduled with the delay due for five, and for all others the socket is closed and nothing is scheduled |
| Connectors.FailureRetries | net/Connector.cc:134-169 | an error on the connecting channel, on its socket, or a self connection closes the socket, and schedules one retry if and only if the connector still wants to connect |
| Connectors.UnwantedStartDoesNothing | net/Connector.cc:37-45 | when the connector does not want to connect, startInLoop uses up the functor or the timer that called it and does nothing |
| Connectors.CallsAreQueued | net/Connector.cc:31-52 | from other threads start and stop reach the loop as functors, at the end of its queue |
| Connectors.CallsArriveOnce | net/Connector.cc:31-61 | over every run, each start brings one startInLoop, each stop one stopInLoop, and each channel given up one resetChannel |
| Connectors.LastCallDecides | net/Connector.cc:31-52 | over every run, connect_ is what the last of start, stop and restart said |
| Connectors.TimerBeforeResetFails | net/Connector.cc:108-132 | a retry timer meets the assertions if and only if resetChannel has run, or no attempt gets under way |
| Connectors.EarlyTimerIsReachable | net/Connector.cc:161-184 | a run in which it fails: an error on the connecting channel, and the timer before the functor |
| Connectors.StoppedStaysStopped | net/Connector.cc:47-61 | from the moment stop is called, in any state, only restart makes sockets or retries again |
| Connectors.StopInLoopEndsTheAttempt | net/Connector.cc:54-61 | stopInLoop closes the socket of the attempt, and retries only if restart came between |
| Connectors.Connector.Connect | net/Connector.cc:63-98 | the cases of errno, written out: which answers register the channel, which schedule a retry, and that the socket is closed for all others |
| Connectors.Connector.Retry | net/Connector.cc:171-184 | closes, and schedules the next attempt with the doubled delay |
| Connectors.Connector.StopInLoopNow | net/Connector.cc:54-61 | gives up an attempt in progress |
| Connectors.Connector.HandleError | net/Connector.cc:161-169 | gives the attempt up and retries |
| Connectors.Connector.HandleWrite | net/Connector.cc:134-159 | hands the socket over exactly when connected, still wanted and not a self connection |
| Connectors.Connector.Restart | net/Connector.cc:100-106 | the delay and the state as at the start, and a new attempt |

## Left out

- Buffers.Buffer.Append: asks for a length of at most SIZE_MAX - 8, as do the other operations that make room; what longer requests meet is Buffers.CompactionAssertion.
- TcpConnections.TcpConnection.SendInLoop: the same bound on the message, since it may be appended to the output buffer.
- TcpConnections.CloseThenReadFails: within one event; between events it is the assertion part of TcpServers.LifecycleOverRuns.
- TcpServers.DarkCloseCanFail: the run it gives may fail at another connection's assertion first, if that one is closed in the dark as well.
- TcpServers.LifecycleOverRuns: functors that the user queues are not in the queues; what they do to connections can happen between any two events of the loop.
- Buffers.RefinesBytes: a run does not go on after a shrink that fails the assertion in makeSpace.
- EventLoops.QuietPushIsSafe: that poll also ends after 10 s, or for another channel, is left out of account.
- Buffers.ShrinkKeepsTheBytes: for arrays no longer than a vector of bytes can be, 2^63 - 1.
- Cross-thread `send`, `shutdown` and `forceClose`: they capture a pointer that does not own its bytes, or test and set `state_` without synchronisation.
- `send(Buffer*)` (net/TcpConnection.cc:86-98): the same path as `send` of its readable bytes, followed by retrieveAll.
- The destructors of TcpServer and TcpClient, and stopping a loop that still has connections; TcpConnections.TcpConnection.ConnectDestroyed covers the call they make on a kDisconnecting connection, when it meets the assertions.
- TcpClient itself, except that it restarts a connector whose connection has gone.
- The weak reference of Channel::tie and reference counting in general; TcpServers.DroppedIsOutOfThePoller counts the references in the map, in queues and in running callbacks.
- PollPoller, whose source is not part of this model; logging; addresses, DNS and accept; formatting of timestamps.
- Floating-point intervals: intervals and delays are whole microseconds or milliseconds; since an interval below a microsecond still repeats, whether a timer repeats is an argument of its own.
- Timers and connections are values in maps keyed by address and by id, not heap objects of their own; that reuse of an address cannot be noticed by anyone is what TimerQueues.OneHomeOverRuns and TimerQueues.StaleCancelIsHarmless say.
- Overflow of sequence numbers, connection ids and timestamps.
- The cross-thread half of addTimer and cancel, which hand their argument over by queueInLoop.
- EventLoops.EventLoop.Loop: the calls of each other thread are complete when the loop thread moves on; all other schedules are covered by the runs of events.
- The loop of `ThreadPool::runInThread` as a method: it is the events Test, Take and Finish, since it waits for other threads.
- BlockingQueue, CountDownLatch, EventLoopThread and the round robin of EventLoopThreadPool: they add only easy members; the loop of a new connection is an arbitrary choice.
