# zing, modelled and verified in Dafny

zing is a C++11 network library built on reactors: each thread runs an event loop, connections live in one
loop each, and loops hand work to each other as functors. This project models the parts of it that rest on
invariants and proves the invariants, and what follows from them, for all inputs and all runs.

`dafny verify dfyconfig.toml` checks everything. There is nothing to execute.

## The parts

| files | what they model |
|---|---|
| `Types.dfy`, `CArithmetic.dfy` | `Option`, bytes; C's truncating division and the 32-bit `int` |
| `Interest.dfy`, `Channel.dfy` | the table of descriptors and requested events that both pollers implement; one channel's event mask and the dispatch of reported events |
| `Poller.dfy`, `PollPoller.dfy`, `EPollPoller.dfy` | the two pollers as classes, refining that table |
| `ConnState.dfy`, `TcpConnection.dfy` | one connection: functions on a value, with the properties of whole runs, and the class whose methods are proved equal to them |
| `Server.dfy`, `ServerInvariant.dfy`, `ServerContainment.dfy`, `ServerSafety.dfy`, `ServerExposure.dfy`, `ServerDispatch.dfy`, `ServerExample.dfy` | the life of all connections of a server across its base loop and I/O loops: the state machine; what its steps keep; when a closed connection cannot be polled again; the theorems on whole runs; exactly which closes endanger them; what events, functors and calls do to their connections; a run that ends in a failed assertion |
| `Timers.dfy`, `TimerQueue.dfy` | what a timer queue does, as a machine with one map of timers, and the class with two indices over hand-managed objects, refining it |
| `Calendar.dfy`, `TimeZone.dfy`, `TimeZoneFile.dfy` | Julian day numbers against the Gregorian calendar; UTC and local time conversion; reading a zone file |
| `EventLoop.dfy` | queueing functors from any thread, waking the loop up, and running the queue |
| `Monitor.dfy` | the bounded queue with two condition variables of `ThreadPool` and `BoundedBlockingQueue` |
| `BigEndian.dfy`, `Buffer.dfy` | integers in network byte order; the buffer class, refining a byte sequence |
| `Numerals.dfy`, `LogStream.dfy` | numerals; integer formatting into a fixed buffer |

Concurrent parts (`Server`, `EventLoop`, `Monitor`) are state machines: one step is what a thread does
without being interrupted where it matters, and all interleavings are runs. Objects that one thread updates in
place are classes whose methods are proved against functions or machines on values. Results of system calls
are parameters, constrained to what the system may return.

## What the code does not do

Where a property expected of the code turned out to be false, the exact condition under which it holds is
proved, together with a failing case.

* Under epoll, asking for nothing on a descriptor that is already disabled makes the kernel watch it again:
  the `kDeleted` branch of `EPollPoller::updateChannel` does not look at the mask
  (zing/net/EPollPoller.cpp:110-128). `PollPoller` leaves such a descriptor alone, so the two pollers agree
  exactly for callers that never do this (`Interest.PollersAgreeIff`). `handleClose` does it when the
  connection is not reading and has nothing to write (zing/net/TcpConnection.cpp:374-381), and then the
  descriptor of the closed connection stays watched (`ServerExposure.WatchedIffIdleClose`). That does harm if
  the connection's loop can poll before it has destroyed the connection. It can exactly if the loop was running
  functors when it closed the connection, or is not the base loop (`ServerExposure.ExposedIffRisky`). After
  such a close, a risky one, a hang-up runs `handleClose` a second time (`ServerExposure.RiskyThenFault`), and a user who
  stops reading and then force-closes gets there (`ServerExample.StopReadThenForceCloseFaults`). The life cycle
  theorems are proved for all runs without such a close. Those include every run on poll, and every run of a
  server that never stops reading.
* Functors that a loop's own thread queues before `loop()` get no wakeup, and a loop can sleep on them
  (`EventLoop.MissedWakeupIff`, `EventLoop.QueuedBeforeLoop`).
* A channel gets both its close and its read callback for one report exactly if priority data comes with a
  hang-up and nothing to read (`Channel.CloseAndReadIff`); the server's runs exclude that report.
* The date formulas are those of the Gregorian calendar from 1 March -4800 on and on no earlier day, and
  `tm_yday` is one too small in the rest of that year (`Calendar.DayIsDateIff`, `Calendar.DateRoundTripIff`,
  `TimeZone.YearDayIff`). The week day of a negative day number can be negative (`Calendar.WeekDayIff`).
* A local time converts back exactly under the condition of `TimeZone.LocalRoundTripIff`, which every zone
  that alternates between standard time and a daylight saving time one hour ahead meets. In terms of the
  transitions, if they are an hour apart or more: a time is lost exactly if the next transition repeats it,
  unless that transition ends daylight saving time by an hour (`TimeZone.LostTimesIff`), as in a zone that
  sets its standard time back (`TimeZone.StandardTimeSetBack`).
* `PollPoller::removeChannel` asserts that the slot has been disabled. Of the channels that ask for nothing,
  exactly those fail it that were added that way and not updated since (`Interest.IdleButWatchedIff`,
  `Interest.AddedWithoutEvents`).

## Model

| member | source | states |
|---|---|---|
| `ServerSafety.LifeCycle` | zing/net/TcpServer.cpp:70-116 | In every state of every run without a risky close, with any number of loops and connections: no assertion has failed; each connection was established at most once, closed at most once and only after that, erased from the map at most once per close and destroyed at most once per erasure; it is in the map until erased, and its state says which of these have happened |
| `ServerSafety.NothingLeftBehind` | zing/net/TcpServer.cpp:99-116 | When, after such a run, all loops have run dry, every accepted connection has been established, and every close has led to exactly one erasure and one destruction |
| `ServerSafety.AliveUntilDestroyed` | zing/net/EventLoop.cpp:118-126 | In every state of such a run a connection is referenced by the map or by a pending act until it has been destroyed, and no remaining entry of `activeChannels_` refers to a channel that was removed |
| `ServerSafety.DestroyedInFunctorPhase` | zing/net/TcpConnection.cpp:304-315 | Any step that destroys a connection is the `connectDestroyed` functor of its own loop, while that loop runs functors |
| `ServerSafety.StepKeepsInv` | zing/net/TcpConnection.cpp:293-387 | Every step of the protocol but a risky close keeps the invariant: the books of every pending establish, remove and destroy against the history of the connection, and that a closed connection which the kernel still watches is destroyed before its loop polls |
| `ServerSafety.ReadingServersAreDisciplined` | zing/net/TcpConnection.cpp:278-291 | A server whose user never calls `stopRead` never makes a risky close |
| `ServerInvariant.StepKeepsCore` | zing/net/TcpServer.cpp:70-116 | Every step keeps the books and the agendas in order, risky closes included, unless the kernel reports a connection that is down |
| `ServerContainment.StepKeepsContained` | zing/net/EventLoop.cpp:109-129 | Once a closed connection is not watched, or is to be destroyed before its loop polls, that stays so, whatever happens to it and to others |
| `ServerExposure.WatchedIffIdleClose` | zing/net/EPollPoller.cpp:104-145 | Closing a connection leaves its descriptor watched by the kernel exactly if the channel asked for nothing and the poller is epoll |
| `ServerExposure.ExposedIffRisky` | zing/net/TcpConnection.cpp:374-387 | After a close, some continuation polls the closed connection while the kernel still watches it, exactly if the close was risky: under epoll, with a channel that asked for nothing, on an I/O loop or in the functor phase |
| `ServerExposure.RiskyThenFault` | zing/net/TcpConnection.cpp:374-387 | After every risky close some continuation ends in a failed assertion |
| `ServerExposure.ExposedThenFault` | zing/net/TcpConnection.cpp:374-387 | From any state with a connection that is down, still watched, and whose loop is at poll, two steps lead to the failed assertion of `handleClose` |
| `ServerExample.StopReadThenForceCloseFaults` | zing/net/TcpConnection.cpp:210-291 | From the start of a server on epoll, a run with `stopRead` and then `forceClose` ends in a failed assertion |
| `ServerDispatch.PollActs` | zing/net/EventLoop.cpp:111-129 | The loop handles the reported events in order, and `activeChannels_`, against which `removeChannel` asserts, has exactly their channels |
| `ServerDispatch.CloseStage` | zing/net/Channel.cpp:82-94 | The first step of an event closes its connection, and no other, if it reports a hang-up with nothing to read, and otherwise changes none; reading comes next |
| `ServerDispatch.ReadStage` | zing/net/TcpConnection.cpp:317-336 | The second closes its connection exactly if it reports something to read and reading finds the end of the stream; writing comes next |
| `ServerDispatch.WriteStage` | zing/net/Channel.cpp:119-125 | The third, exactly if it reports that the channel is writable, moves what the kernel takes from the front of the buffer to it, and sends the FIN of a shutdown behind the last byte |
| `ServerDispatch.WritableEventDrains` | zing/net/TcpConnection.cpp:338-372 | From any state with a connection that is up and has bytes waiting, and whose loop polls, a writable event and its three steps drain the buffer in order and send the FIN that was asked for |
| `ServerDispatch.ForceCloseActs` | zing/net/TcpConnection.cpp:232-239 | The functor of `forceClose` closes its connection, and no other, if it is up, and otherwise changes none |
| `ServerDispatch.ForceCloseQueues` | zing/net/TcpConnection.cpp:210-218 | `forceClose` on a connection that is up queues that functor last on the loop of the connection |
| `ServerDispatch.ForceCloseCloses` | zing/net/TcpConnection.cpp:210-239 | After `forceClose` on a connection that is up, in every run without a risky close, once the loops have run dry the connection has been closed, erased from the map and destroyed, once each |
| `ServerDispatch.AcceptActs` | zing/net/TcpServer.cpp:70-97 | A new connection gets the next number and the next I/O loop in turn, or the base loop if there is no other, joins the map, and is established at once or queued to be |
| `ServerDispatch.EstablishActs` | zing/net/TcpConnection.cpp:293-302 | The functor that establishes a connection has it up, watched and reading, and changes no other |
| `ConnState.StreamConservation` | zing/net/TcpConnection.cpp:135-187 | Over any mix of complete, partial, blocked and failed writes: the bytes handed to the kernel followed by `outputBuffer_` are the accepted messages in order, and until disconnect writing is enabled iff the buffer is nonempty |
| `ConnState.NothingAfterFin` | zing/net/TcpConnection.cpp:189-208 | Once the write side has been shut down, every accepted byte has been written before it, nothing is written after it, and there is no second shutdown |
| `ConnState.DrainingSendsFin` | zing/net/TcpConnection.cpp:338-372 | A `shutdown()` that found bytes waiting is carried out by the writable events that drain them, however they divide the bytes, right behind the last one |
| `ConnState.ShutdownSendsFin` | zing/net/TcpConnection.cpp:189-208 | `shutdown()` on an open connection, followed by writable events that drain what waits, however they divide it, has sent every accepted byte and then the FIN |
| `ConnState.PerformKeepsConnOk` | zing/net/TcpConnection.cpp:135-387 | Every operation of a connection keeps stream conservation, the place of the FIN, the memory of a requested shutdown and the agreement of the mask with state, buffer and poller |
| `TcpConnection.TcpConnection.SendInLoop` | zing/net/TcpConnection.cpp:135-187 | For each result of `write`: what the kernel has and what waits grow by the message, or by nothing if the connection is down or the peer gone; the write-complete callback is queued exactly if `write` took the whole message, and the high water mark's exactly if the buffer rises to the mark or above; no FIN is sent |
| `TcpConnection.TcpConnection.Send` | zing/net/TcpConnection.cpp:91-108 | In the loop: the message goes behind everything before it or is dropped whole, writing is enabled iff something waits, the callbacks are queued exactly as for `sendInLoop`, and the invariant is kept |
| `TcpConnection.TcpConnection.HandleWrite` | zing/net/TcpConnection.cpp:338-372 | A prefix of what waits moves to the kernel; draining it all disables writing, queues the write-complete callback, and sends the FIN of a shutdown that is under way behind every accepted byte; the invariant is kept |
| `TcpConnection.TcpConnection.Shutdown` | zing/net/TcpConnection.cpp:189-208 | From an open connection the FIN is sent at once iff nothing waits; no byte moves, any other call changes nothing, and the invariant is kept |
| `TcpConnection.TcpConnection.ForceClose` | zing/net/TcpConnection.cpp:210-218 | A connection that is up is `kDisconnecting` from then on, still up, with the functor queued that closes it; any other call changes and queues nothing; the invariant is kept |
| `TcpConnection.TcpConnection.StartReadInLoop` | zing/net/TcpConnection.cpp:268-276 | Reading is asked for, interest in writing is untouched, and a connection that is up keeps the invariant and is watched |
| `TcpConnection.TcpConnection.StopReadInLoop` | zing/net/TcpConnection.cpp:283-291 | Reading is asked for no longer, interest in writing is untouched, and a connection that is up keeps the invariant and is watched iff bytes wait |
| `TcpConnection.TcpConnection.ConnectEstablished` | zing/net/TcpConnection.cpp:293-302 | The connection is up and watched for reading only, nothing having been sent, and the invariant is kept |
| `TcpConnection.TcpConnection.HandleClose` | zing/net/TcpConnection.cpp:374-381 | Up to the callbacks: the connection is down and asks for nothing, no byte moves, the invariant is kept, and the kernel still watches it exactly if the poller is epoll and it asked for nothing before |
| `TcpConnection.TcpConnection.ConnectDestroyed` | zing/net/TcpConnection.cpp:304-315 | The channel asks for nothing when it is removed, and the invariant is kept |
| `TcpConnection.TcpConnection.RunAll` | zing/net/TcpConnection.cpp:135-387 | Through any calls on the object, what the kernel has and what waits grow by just the accepted messages, in order; until disconnect writing is enabled iff bytes wait; after a FIN nothing is sent |
| `Channel.CloseAndReadIff` | zing/net/Channel.cpp:82-128 | Among the reports the kernel may make, exactly priority data with a hang-up and nothing to read calls both the close and the read callback |
| `Interest.BothImplementRequests` | zing/net/PollPoller.cpp:71-133 | Through any calls both pollers hold, for every descriptor, the events last requested, and watch every descriptor with a request |
| `Interest.PollersAgreeIff` | zing/net/EPollPoller.cpp:104-165 | The pollers hold the same table after every prefix of the calls exactly if no call asks for nothing on a known descriptor that is not watched |
| `Interest.IdleButWatchedIff` | zing/net/PollPoller.cpp:74-103 | Through any calls, a descriptor that asks for nothing is watched under poll exactly if the last call that named it added it that way |
| `Interest.AddedWithoutEvents` | zing/net/PollPoller.cpp:105-116 | Adding a descriptor without events leaves its slot enabled, which `removeChannel` asserts it is not |
| `PollPoller.PollPoller.UpdateChannel` | zing/net/PollPoller.cpp:71-103 | Adding or changing a slot is the table's update, and slots and indices stay inverse to each other |
| `PollPoller.PollPoller.RemoveChannel` | zing/net/PollPoller.cpp:105-133 | Removal, by popping or by moving the last slot into the hole, removes just this descriptor from the table, and slots and indices stay inverse |
| `PollPoller.SwapPopOk` | zing/net/PollPoller.cpp:119-132 | Moving the last slot into the hole and re-indexing its channel, found through the decoded descriptor, leaves every other registration as it was |
| `PollPoller.PollPoller.PollOnce` | zing/net/PollPoller.cpp:28-69 | Exactly the channels with reported events become active, once each, in slot order, with those events; others are untouched, and stopping at the count loses none |
| `EPollPoller.EPollPoller.UpdateChannel` | zing/net/EPollPoller.cpp:104-145 | Every epoll_ctl call is legal, a descriptor is in the kernel's list iff its index is `kAdded`, and the effect is the table's update |
| `EPollPoller.EPollPoller.RemoveChannel` | zing/net/EPollPoller.cpp:146-165 | The same for removal, from both states; the index is `kNew` again |
| `EPollPoller.EPollPoller.FillActiveChannels` | zing/net/EPollPoller.cpp:86-102 | The returned channels become active in order, each of them in the map, with the events that were returned |
| `Timers.EveryTimerOnce` | zing/net/TimerQueue.cpp:101-255 | In every state of every run each timer ever added, whatever its number in the process-wide count, is in the queue, or in the batch being run, or was deleted once; numbers identify timers, and live timers have different addresses |
| `Timers.NeverStranded` | zing/net/TimerQueue.cpp:39-79 | Whenever control is back in the loop with timers in the queue, the timerfd has fired or is set for a deadline no later than each expiration or 100 microseconds after it was set |
| `Timers.CancelledNeverRunsAgain` | zing/net/TimerQueue.cpp:139-177 | A timer that was cancelled is in no later batch, whether it was waiting, in the running batch, cancelling itself, or gone |
| `Timers.CancelSparesOthers` | zing/net/TimerQueue.cpp:139-157 | Cancelling affects no other timer, one at the same address included |
| `Timers.BatchOutcome` | zing/net/TimerQueue.cpp:201-229 | After a batch exactly the repeating timers that were not cancelled are back, with an expiration at the batch's time plus their interval, the rest are deleted, and timers added meanwhile are untouched |
| `Timers.WholeBatch` | zing/net/TimerQueue.cpp:159-229 | Over a whole batch a timer that was queued before it stays as it is if it is not due, is back at the batch's time plus its interval if it is due and repeats, and is gone if it is cancelled meanwhile, or due and does not repeat |
| `Timers.BatchEnds` | zing/net/TimerQueue.cpp:165-177 | From every state within a batch, running each remaining callback once leads to the end of the batch, after which none is being run |
| `Timers.SetForEarliest` | zing/net/TimerQueue.cpp:128-137 | A new earliest timer, or the end of a batch, sets the timerfd for the earliest expiration of the queue, or for 100 microseconds later than now if that is later |
| `Timers.AlarmMoves` | zing/net/TimerQueue.cpp:55-79 | The timerfd is readable from the expiry of its deadline until a batch reads it or it is set anew; a timer that is not earlier than all others does not set it, nor does any other step |
| `Timers.ArmedForDelay` | zing/net/TimerQueue.cpp:39-53 | The delay is up to the expiration, but no less than 100 microseconds |
| `TimerQueue.TimerQueue.HandleRead` | zing/net/TimerQueue.cpp:159-177 | The whole of `handleRead` is a run of the timer machine: one batch begun and one finished, and in between, timer by timer in order, exactly the adds and cancels of the callbacks given; each timer that was queued is, afterwards, as `WholeBatch` says |
| `TimerQueue.TimerQueue.GetExpired` | zing/net/TimerQueue.cpp:179-199 | Exactly the timers with expiration at or before now leave both indices, in order of expiration and address |
| `TimerQueue.TimerQueue.CancelInLoop` | zing/net/TimerQueue.cpp:139-157 | Erasing from both indices and deleting, or noting the cancellation during a batch, is the machine's cancel |
| `TimerQueue.TimerQueue.AddTimer` | zing/net/TimerQueue.cpp:112-137 | A new object, with any number this queue has not seen, joins both indices, and the timerfd is set anew iff the new timer is earlier than all others: the machine's add |
| `TimerQueue.TimerQueue.Reset` | zing/net/TimerQueue.cpp:201-229 | Restarting or deleting each timer of the batch, and setting the timerfd for the earliest, is the machine's finish |
| `TimerQueue.TimerQueue.Insert` | zing/net/TimerQueue.cpp:231-255 | An object in neither index joins both, and the result says whether it is the earliest |
| `TimerQueue.SameSize` | zing/net/TimerQueue.cpp:142-156 | The two indices always have the same size |
| `TimerQueue.FrontIsEarliest` | zing/net/TimerQueue.cpp:220-223 | The front of the ordered index is a timer of earliest expiration, keyed by the expiration its object has now |
| `TimerQueue.DiscardOk` | zing/net/TimerQueue.cpp:147-150 | Erasing one timer from both indices and deleting its object leaves the indices, the objects and the batch consistent |
| `Calendar.DayIsDateIff` | zing/base/Date.cpp:28-41 | `getYearMonthDay` gives a date of the Gregorian calendar exactly for numbers from -32044 on, and `getJulianDayNumber` gives that number back |
| `Calendar.DateRoundTripIff` | zing/base/Date.cpp:19-41 | A date comes back from its day number exactly if it is not before 1 March -4800 |
| `Calendar.NextDay` | zing/base/Date.cpp:19-26 | The calendar's next day, over month ends, leap days and new years, has the next number |
| `Calendar.NextNumber` | zing/base/Date.cpp:28-41 | The next number's date is the calendar's next day |
| `Calendar.WeekDayIff` | zing/base/Date.h:71-74 | `weekDay` is the day of the week counted from Thursday 1 January 1970, exactly if the number is at least -1 or falls on a Sunday |
| `Calendar.JulianDay32` | zing/base/Date.cpp:19-26 | In 32 bits no intermediate value overflows for years -5800000 to 5800000, and the result is the same |
| `Calendar.FromJulianDay32Is` | zing/base/Date.cpp:28-41 | In 32 bits nothing overflows up to the last number for which `4 * a + 3` fits, and the result is the same |
| `TimeZone.UtcRoundTrip` | zing/base/TimeZone.cpp:323-364 | For every time whose day the calendar formulas can handle, negative ones included, `fromUtcTime` undoes `toUtcTime`, and the fields are a date and a time of day |
| `TimeZone.TmRoundTripIff` | zing/base/TimeZone.cpp:323-364 | `toUtcTime` undoes `fromUtcTime`, week day and day of the year included, on a well-formed broken-down time exactly if it is after the calendar's first year and its week day is not that of a negative day number |
| `TimeZone.YearDayIff` | zing/base/TimeZone.cpp:343-347 | `tm_yday` is the sum of the preceding month lengths plus the day minus one, exactly from the year -4799 on |
| `TimeZone.Truncated` | zing/base/TimeZone.cpp:327-334 | C's truncating division and remainder, cut to `int`, are the floor ones but for the correction that the code makes for negative times |
| `TimeZone.LocalRoundTripIff` | zing/base/TimeZone.cpp:278-321 | For any zone, a time comes back from its local time exactly if the type found by local time has the offset in force, or the time is in DST one hour ahead of it and a standard time an hour later reads the same |
| `TimeZone.LocalRoundTrip` | zing/base/TimeZone.cpp:225-321 | In every zone alternating between a standard time and a DST one hour ahead, every time comes back, both passes of a repeated hour included |
| `TimeZone.FoldIsMarked` | zing/base/TimeZone.cpp:278-298 | The two passes of a repeated hour agree in all clock and date fields and differ in `tm_isdst` |
| `TimeZone.FindsLast` | zing/base/TimeZone.cpp:225-257 | On sorted transitions `findLocaltime` gives the type of the last transition not after the key |
| `TimeZone.LostTimesIff` | zing/base/TimeZone.cpp:278-321 | With transitions an hour apart or more, a time is lost exactly if the next transition sets the clock back over it, unless that transition, and no later one as well, does so by ending DST by an hour |
| `TimeZone.StandardTimeSetBack` | zing/base/TimeZone.cpp:300-321 | A zone whose standard time is set back has two times with the same local time, and the first of them is lost |
| `TimeZoneFile.File.ReadTimeZoneFile` | zing/base/TimeZone.cpp:155-223 | From a file that holds a version 1 block of RFC 8536, sections 3.1 and 3.2, exactly the tables of the block are read, negative times and offsets included, with each transition's local time by the type that it starts |
| `EventLoop.MissedWakeupIff` | zing/net/EventLoop.cpp:101-165 | A call of `loop` can come to sleep with work waiting and no wakeup on its way exactly if functors wait when it is made for which nobody wakes the loop up |
| `EventLoop.NeverStuck` | zing/net/EventLoop.cpp:101-165 | At `poll` with functors waiting or `quit_` set, the eventfd is readable or some thread is between its push, or its setting of `quit_`, and its wakeup |
| `EventLoop.QueuedBeforeLoop` | zing/net/EventLoop.cpp:154-165 | A functor queued by the loop's own thread before `loop` can be slept on |
| `EventLoop.WakesUp` | zing/net/EventLoop.cpp:228-263 | From such a `poll`, the owed wakeup and the loop's next four steps bring it to run all waiting functors in order |
| `EventLoop.QuitIsHeard` | zing/net/EventLoop.cpp:133-140 | Once `quit` has been called, in the loop's thread or another, `quit_` stays set until the next `loop`, and from anywhere but `poll` itself no run polls again |
| `EventLoop.QuitReturns` | zing/net/EventLoop.cpp:109-131 | With `quit_` set, and a wakeup on its way if the loop is in `poll`, that wakeup and a bounded number of the loop's own steps lead out of `loop`, and run the functors that were waiting, in order |
| `EventLoop.EventfdCounts` | zing/net/EventLoop.cpp:228-246 | In every run the eventfd stands at the number of wakeups since it was last read, up to its maximum |
| `EventLoop.ReportedIffReadable` | zing/net/EventLoop.cpp:111-126 | The wakeup channel is reported, and its handler runs, exactly if the eventfd is readable |
| `EventLoop.OwesUntilItWakes` | zing/net/EventLoop.cpp:133-165 | A thread owes the loop a wakeup exactly from its push, or its setting of `quit_`, until its own write to the eventfd |
| `EventLoop.RunInOrder` | zing/net/EventLoop.cpp:154-165 | In every state of every run the functors run so far, the rest of the batch and the waiting ones are the whole history, in the order of the lock |
| `EventLoop.RunsItsSnapshot` | zing/net/EventLoop.cpp:248-263 | One `doPendingFunctors` runs the functors it swapped and no others, however many are queued meanwhile |
| `EventLoop.Queue.DoPendingFunctors` | zing/net/EventLoop.cpp:248-263 | The method is a run of the machine; it runs all that was waiting, even if a functor quits the loop, and leaves what the functors queued, in order, with the loop woken up for it |
| `EventLoop.Queue.QueueInLoop` | zing/net/EventLoop.cpp:154-165 | In the loop's thread the functor is queued last, and the loop is woken up iff it is running functors |
| `Monitor.NoLostWakeup` | zing/base/ThreadPool.cpp:73-118 | In every run, with single signals and spurious wakeups: while a taker sleeps there are at least as many woken takers as tasks, and while a producer sleeps at least as many woken producers as free places |
| `Monitor.NeverAllAsleep` | zing/base/BoundedBlockingQueue.h:34-70 | Producers and takers are never all asleep; nor all waiting takers while there is a task, or all waiting producers while there is room |
| `Monitor.FirstInFirstOut` | zing/base/ThreadPool.cpp:84-112 | What was accepted is what was taken followed by the queue, in order, and the queue respects its bound |
| `Monitor.PutOutcome` | zing/base/ThreadPool.cpp:73-92 | A put appends just its task if there is room, waits with it if there is none, drops it if the pool has been stopped, and changes nothing else |
| `Monitor.TakeOutcome` | zing/base/ThreadPool.cpp:94-112 | A take gives its worker the first task, waits if there is none, and leaves without one if the pool has been stopped |
| `Monitor.NoTaskLost` | zing/base/ThreadPool.cpp:73-92 | Until `stop`, every task has been accepted, or is held by a producer that waits, just as often as it was given |
| `Monitor.GetsATask` | zing/base/ThreadPool.cpp:120-135 | While there are tasks and the pool runs, a worker that does not wait has the first of them after at most three steps of its own |
| `Monitor.StopsCleanly` | zing/base/ThreadPool.cpp:53-65 | After `stop` has cleared `running_` and notified, no thread is or falls asleep, each worker starts at most one more task and is gone within three of its steps |
| `Monitor.WorkerCanMove` | zing/base/ThreadPool.cpp:94-135 | A worker that is not gone can take its next step, unless it sleeps in a running pool with takers enough on their way |
| `Monitor.StepKeeps` | zing/base/BoundedBlockingQueue.h:34-70 | Every critical section keeps the counting invariant, the bound and the order |
| `Buffer.Buffer.Append` | zing/net/Buffer.h:170-175 | The readable bytes are followed by the new ones, whatever had to be moved or grown |
| `Buffer.Buffer.MakeSpace` | zing/net/Buffer.h:345-364 | The assertion before compaction holds, also after prepends; the readable bytes are kept; the array is replaced only if front and back together are too small, and grows just enough |
| `Buffer.Buffer.Compact` | zing/net/Buffer.h:355-362 | Copying the readable bytes down over themselves keeps them |
| `Buffer.Buffer.Prepend` | zing/net/Buffer.h:314-320 | The new bytes are put before the readable ones, in the room in front that the caller must have |
| `Buffer.Buffer.Retrieve` | zing/net/Buffer.h:101-112 | Just the first bytes are gone |
| `Buffer.Buffer.RetrieveAsString` | zing/net/Buffer.h:152-158 | The result and what remains make up what was readable |
| `Buffer.Buffer.Unwrite` | zing/net/Buffer.h:203-207 | Just the last bytes are gone |
| `Buffer.Buffer.Shrink` | zing/net/Buffer.h:322-328 | The readable bytes are kept in a new array with the reserve, no larger than needed or than a new buffer |
| `Buffer.Buffer.ReadFd` | zing/net/Buffer.cpp:23-55 | Whatever arrives, in the buffer or beyond it in the extra one, is appended in order; an error changes nothing |
| `Buffer.Buffer.ReadInt` | zing/net/Buffer.h:232-258 | The one value that is written as the first bytes is returned, and those bytes are gone |
| `Buffer.Buffer.AppendInt` | zing/net/Buffer.h:209-230 | A signed value is appended in network byte order |
| `Buffer.Buffer.PrependInt` | zing/net/Buffer.h:291-312 | A signed value is prepended in network byte order |
| `Buffer.Buffer.FindCRLF` | zing/net/Buffer.h:73-85 | The first line end at or after the start, or none if there is none |
| `Buffer.Buffer.FindEOL` | zing/net/Buffer.h:87-99 | The first newline at or after the start, or none if there is none |
| `BigEndian.EncodeDecode` | zing/net/Buffer.h:209-289 | A signed value of 1, 2, 4 or 8 bytes, or any other size, is read back as it was written |
| `BigEndian.DecodeEncode` | zing/net/Buffer.h:260-289 | Any bytes are the encoding of the value they are read as |
| `BigEndian.FirstByte` | zing/net/Buffer.h:209-230 | The first byte is the most significant one |
| `BigEndian.SignIsFirst` | zing/net/Buffer.h:209-289 | A value is negative exactly if its first byte has the top bit set |
| `LogStream.Convert` | zing/base/LogStream.cpp:47-68 | For every signed or unsigned 64-bit value, the least one included, the characters written are its canonical decimal numeral, and the result is its length; nothing before them changes |
| `LogStream.ConvertHex` | zing/base/LogStream.cpp:70-86 | The same for hexadecimal addresses |
| `LogStream.Reverse` | zing/base/LogStream.cpp:65 | The slice is reversed in place, and the rest is kept |
| `LogStream.Lengths` | zing/base/LogStream.cpp:215-235 | A 64-bit integer takes at most 20 characters, sign included, and an address 16 |
| `LogStream.DigitOfRemainder` | zing/base/LogStream.cpp:39-57 | The digit table read from its middle gives the right digit for remainders of either sign |
| `Numerals.DecimalReadsBack` | zing/base/LogStream.cpp:47-68 | The numeral is canonical, with no leading zeros, and reads back as the value |
| `Numerals.DecimalUnique` | zing/base/LogStream.cpp:47-68 | It is the only canonical numeral that reads as the value |
| `LogStream.FixedBuffer.Append` | zing/base/LogStream.h:41-48 | All of the text is appended if a byte stays free, and none of it otherwise |
| `LogStream.LogStream.FormatInteger` | zing/base/LogStream.cpp:227-235 | The numeral is appended if there is room for any number, and nothing otherwise |
| `LogStream.LogStream.FormatPointer` | zing/base/LogStream.cpp:285-297 | The same for an address with its prefix |
| `LogStream.LogStream.PutAll` | zing/base/LogStream.h:84-152 | A whole line of items leaves the text that keeping or dropping each item in turn gives |
| `LogStream.WholePieces` | zing/base/LogStream.h:41-55 | Through any items the text grows by whole pieces in order, and one byte stays free |
| `LogStream.RenderedReadsBack` | zing/base/LogStream.h:84-152 | Each kind of item is written so that it reads back: text as itself, truth values as 0 and 1, numbers in decimal, addresses with their prefix in base 16 |

## Left out

- ServerSafety.LifeCycle: holds for runs without a risky close, of which ServerExposure.RiskyThenFault shows what
  they lead to, and with reports that do not combine priority data with a hang-up and nothing to read.
- TimeZone.LocalRoundTrip: transitions have to be more than an hour apart; closer ones are covered by
  TimeZone.LocalRoundTripIff.
- TcpConnection.TcpConnection.StartReadInLoop: keeps the invariant of a connection that is up; for one that is
  down there is no state check to rest it on, and the same goes for `stopRead`.
- TimerQueue.TimerQueue.HandleRead: callbacks add and cancel timers in the queue's own loop, and do nothing else
  that the queue could notice.
- Monitor.NoLostWakeup: the maximum queue size is fixed before `start`, as a field that nothing changes.
- Real sockets, files, clocks, epoll, poll, timerfd and eventfd: only their possible results and the small
  kernel state they need (interest list, counter, deadline) are represented.
- `TcpServer::~TcpServer`, and API calls on a connection from other threads than its loop's: the code marks
  those hand-offs as unsafe. `send`, `shutdown`, `forceClose`, `startRead` and `stopRead` are calls in the loop.
- `startRead` and `stopRead` on a connection that is down, and user code that edits `outputBuffer()`: there
  is no state check to rest a property on.
- `TcpServer` and the loops of `Server.dfy` as objects updated in place: their steps interleave, so they are a
  state machine on values. `Channel` in `Channel.dfy` is a value for the same reason; the object that the
  pollers update in place is `Poller.Channel`.
- TCP connections' message callbacks, the high water mark callback's contents, and the input side of a
  connection: a read is represented by its result only.
- Cross-thread `addTimer` and `cancel`: they queue the calls modelled here as functors, so cancellation is
  relative to `addTimerInLoop`. Intervals are whole microseconds instead of `double` seconds.
- Objects of `TimerQueue.dfy` live in a map from addresses, so that an address can be used again; `~TimerQueue`
  is not part of the model.
- Identities (connection numbers, timer sequence numbers) are unbounded integers.
- `gmtime_r` and `timegm`: `toUtcTime` and `fromUtcTime` take their place in local time conversion, as the
  source's comments intend.
- `readTimeZoneFile` on files that are not laid out as section 3 of RFC 8536 says: the source reports a short
  read or a wrong magic, keeps what it has, and does not check that indices are in range.
- `ThreadPool::run` in a pool without threads calls the task itself and touches no queue; thread creation, task
  exceptions and the thread-init callback are left out. Tasks that call `run` on their own full pool can block
  all workers; the counting invariant holds for them too and says nothing against it.
- `EPollPoller`'s growing event list, `hasChannel`, logging.
- `FixedBuffer`'s cookies, floating-point output, `formatSI`, `formatIEC` and `Fmt`: they depend on `snprintf`.
- Singleton, ThreadLocal, Exception, Atomic, InetAddress, Socket, StringPiece and the examples: thin wrappers.
