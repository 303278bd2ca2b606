# A verified model of uvexec's event loop

uvexec wraps one libuv loop in senders and receivers. This project models the parts of
it in which several threads, or several callbacks of the loop, meet, and proves what
they keep over every run:

- **The hand-over of the loop** (`LoopHandoff`, `HandoffInvariant`, `HandoffTheorems`,
  `HandoffProgress`, `HandoffRuns`): any number of calls of `run`, `run_once`, `drain` and `sync_wait` share
  the loop through `RunMtx`, `Running` and the runner queue. One step is one access to an
  atomic or one mutex action; the state keeps every call's program counter.
- **The list of scheduled operations** (`OperationQueue`, `OperationTheorems`): a
  compare-and-swap stack with any number of pushers, weak swaps that fail for no reason,
  freed operations and reused addresses; the loop thread grabs, reverses in place and
  applies. `OperationListHeap` is the same list on the heap.
- **The race between an event and a stop request** (`StopOperation`, `OneShot`,
  `OneShotTheorems`), run by timers, signals, reads, receives and accepts; `Timers`,
  `Reads` and `ReadUntil` are the operation states as objects whose methods are
  uninterrupted pieces of such runs.
- **Both together** (`StopScheduling`): any number of races push their stop operations on
  one list. That they keep the rules the list has for its clients is proved, not assumed.
- **The listener** (`Listener`, `ListenerTheorems`, `ListenerRuns`, `ListenerObjects`):
  arrivals are matched with accepts, each of which runs the race; the objects' methods are
  uninterrupted pieces of the listener's runs.
- **The socket bracket** (`SocketBracket`) of `connect_to` and `accept_from`.
- **Runners and the intrusive list** (`Runners`, `IntrusiveList`, `ListModel`): the heap
  structures under the hand-over and the listener.

A state machine is a datatype `State`, an `Action`, `Enabled`, `Next` and `Exec`, which
folds a run of actions; a state is reachable when some run ends in it. Fields called
history in the comments are only written by the steps, never read by them.

## What the environment is taken to do

- Atomics and the mutex are sequentially consistent. libuv's async wakeup coalesces, and a
  callback follows it; `uv_stop` raises a flag that a returning `uv_run` clears; a close
  callback comes once and later; a timer or signal may fire any number of times while its
  handle is active.
- A stop callback runs at most once: on the thread that requests the stop, or inside its
  own constructor if the stop came first. Destroying it waits until it has returned.
- A sync_wait's sender completes once: inside some call's `uv_run`, or in `start` before
  the call looks at the loop. `TLoop::finish` may be called at any time.
- Each socket has one active reader, and an accept's storage outlives `RegisterAccept`.

## Where the code does not do what one would expect

- A wakeup can be lost: `Wait` takes its snapshot after the mutex is released, so it may
  already count the wakeup. `HandoffRuns.AWakeupIsLost` is such a run, and
  `HandoffTheorems.StrandedIffSleptThroughWakeup` says that nothing else strands a call.
- A sync_wait can stay in the loop past its result: `Acq` is never cleared, so a runner
  that `uv_run` left early, because of `finish`, enters it again although another call has
  finished it meanwhile (`HandoffRuns.ASyncWaitOverstays`, and
  `HandoffTheorems.EntersFinishedIffReturnedEarly` for exactly when).
- A timer or signal whose initialisation fails reports that and goes on, so it completes
  twice; and one whose start fails never closes its handle
  (`OneShotTheorems.ExactlyOnceIffInitialised`).
- The public listener constructor leaves the connection counter negative. Then arrivals
  are lost, and an accept that fails to listen completes while it is still in the list
  (`ListenerTheorems.PublicConstructorLosesArrivals`, `CompletedLeaveIffCounterNotNegative`).
- `connect_to` and `accept_from` leave an initialised socket open if building their first
  nested operation throws (`SocketBracket.ExactlyOneCloseIffBuilt`).

## Model

| member | source | states |
|---|---|---|
| HandoffTheorems.MutualExclusion | src/execution/loop.cpp:169-176 | In every reachable state `Running` holds exactly while one call is between setting and clearing it, so at most one thread is in uv_run; at most one call works under the mutex |
| HandoffTheorems.BatonIsHeld | src/execution/loop.cpp:103-119 | Whenever nobody runs the loop, the mutex is free and runners are queued, some unfinished runner was popped and woken and has not come back for the mutex; it can go on if and only if it did not sleep through its wakeup |
| HandoffTheorems.CriticalSectionsEnd | src/execution/runner.cpp:61-69 | Every critical section ends, the loop in WakeupNext included: each step of the holder brings the unlock closer and no other thread puts it off |
| HandoffTheorems.StrandedIffSleptThroughWakeup | src/execution/loop.cpp:40-119 | If no call can go on and nobody is in uv_run, the mutex is free, and a call is left waiting if and only if some popped runner took its snapshot after its wakeup |
| HandoffTheorems.SomebodyCanGoOn | src/execution/loop.cpp:40-119 | Whoever holds the mutex can go on, and so can whoever runs the loop once the mutex is free |
| HandoffTheorems.SnapshotsStayEarly | src/execution/runner.cpp:46-51 | Only a step that takes a snapshot after the wakeup can make a snapshot count it |
| HandoffTheorems.TimelyRunsStrandNobody | src/execution/runner.cpp:36-69 | In every run where snapshots precede wakeups, a stuck loop means that every call has returned |
| HandoffProgress.ReturningComesCloser | src/execution/loop.cpp:103-119 | Once a sync_wait has its result and is out of uv_run, unless it was sent back too early and is about to enter again, each of its instructions brings its return closer; so does each of another call's after its uv_run returned |
| HandoffProgress.OthersDoNotDelay | src/execution/loop.cpp:103-119 | No other call, completion or user's `finish` puts that return off |
| HandoffProgress.ReturningWaitsForTheLockOnly | src/execution/loop.cpp:40-55 | Until it has returned such a call waits for nothing but the mutex |
| HandoffProgress.ReturnsAfterItsTurn | src/execution/loop.cpp:40-55 | In every run a sync_wait returns with its result only, and any other call only after it was inside uv_run |
| HandoffProgress.NoCallCircles | src/execution/loop.cpp:40-119 | The order of a call's instructions, and that it takes finitely many of them between two decisions at the top of its loop |
| HandoffProgress.DecidesAtTheTop | src/execution/loop.cpp:103-117 | At the top of the loop a call queues up in front of all others if somebody runs the loop; otherwise it runs the loop, except that a sync_wait with its result that was never sent back too early passes it on |
| HandoffProgress.NewestIsWoken | src/execution/runner.cpp:61-69 | WakeupNext takes finished runners off the queue until it meets an unfinished one, which it wakes; in every run no runner that stays queued was queued after it |
| HandoffRuns.AWakeupIsLost | src/execution/loop.cpp:48-54 | A run of two calls in which a runner sleeps through its wakeup and the loop is abandoned |
| HandoffTheorems.QueueMembership | src/execution/loop.cpp:110-117 | Queued runners are queued once and belong to waiting calls; a runner about to be woken or finished by another thread belongs to a call that has not returned |
| HandoffTheorems.AwakeningsGrow | src/execution/runner.cpp:21-44 | In every step of every run `Awakenings` grows until it is 0 and then stays 0, although the test for 0 and the increment are two steps |
| HandoffTheorems.OverstayNeedsEarlyReturn | include/uvexec/execution/loop.hpp:195-209 | A finished sync_wait inside uv_run has the stop flag raised, unless uv_run returned to it early before and the user called `finish` |
| HandoffTheorems.EntersFinishedIffReturnedEarly | src/execution/runner.cpp:25-30 | A sync_wait enters uv_run with its result in hand if and only if it finished after an earlier, early return |
| HandoffRuns.ASyncWaitOverstays | src/execution/loop.cpp:103-109 | A run of a sync_wait, a `finish` and a `run` that leaves the finished sync_wait in uv_run with nothing to stop it |
| HandoffInvariant.NextKeepsInv | src/execution/loop.cpp:40-119 | Every step of every call keeps the invariant behind these results, for any number of calls |
| Runners.Runner.AcquireIfNotFinished | src/execution/runner.cpp:25-30 | Acquired if and only if the counter is not 0 or it was acquired before |
| Runners.RunnersQueue.PopUnfinished | src/execution/runner.cpp:61-69 | Pops exactly the runners at the front whose counter is 0 and the first other one, and no more |
| Runners.RunnersQueue.WakeupNext | src/execution/runner.cpp:61-69 | Adds 1 to the counter of the first runner of the queue whose counter is not 0, if any, and touches no other |
| OperationTheorems.HeadIsStackOfPushes | src/execution/loop.cpp:125-130 | From Head the pushes since the last grab follow each other newest first, whatever swaps failed or addresses were reused |
| OperationTheorems.GrabReturnsPushesInOrder | src/execution/loop.cpp:132-143 | At a grab everything grabbed before has been applied, and the grab yields exactly the pushes since then, in the order of their swaps |
| OperationTheorems.AppliedIsPrefixOfPushed | src/execution/loop.cpp:145-154 | Over the whole run operations are applied once per push and in push order |
| OperationTheorems.NeverTouchesTheDead | src/execution/loop.cpp:125-154 | No step touches an operation that is not alive, although its life may end or it may be scheduled again from the start of its own Apply |
| OperationTheorems.NothingIsForgotten | src/execution/loop.cpp:98-101 | While the list is not empty a wakeup is pending, about to be sent, or about to be served |
| OperationTheorems.QuietMeansAllApplied | src/execution/loop.cpp:98-154 | Once pushers, wakeup and loop thread are quiet, everything scheduled was applied |
| OperationTheorems.CallbackEnds | src/execution/loop.cpp:145-154 | A callback applies only what it grabbed and ends, however much is scheduled meanwhile |
| OperationListHeap.OperationList.PushBack | src/execution/loop.cpp:125-130 | On the heap, a push appends to the pushed sequence however often its weak swap fails for no reason |
| OperationListHeap.OperationList.Grab | src/execution/loop.cpp:132-143 | On the heap, the in-place reversal empties the list and links its operations in push order |
| StopOperation.StopOperation.Setup | include/uvexec/execution/loop.hpp:74-76 | Constructing the stop callback runs it at once if the stop was requested before; then the latch is taken and the stop operation scheduled unless the latch was used |
| StopOperation.StopOperation.Invoke | include/uvexec/execution/loop.hpp:99-103 | The stop callback schedules the stop operation exactly when it takes the latch |
| StopOperation.StopOperation.Reset | include/uvexec/execution/loop.hpp:78-84 | Reports a lost race and then changes nothing; the winner takes the latch and drops the stop callback |
| StopOperation.StopOperation.ResetUnsafe | include/uvexec/execution/loop.hpp:86-92 | Drops the stop callback and reports whether there was none |
| OneShotTheorems.AtMostOnce | include/uvexec/algorithms/after_op_state.hpp:43-85 | In every interleaving an initialised operation completes at most once, closes or stops its source at most once, and pushes its stop operation at most once |
| OneShotTheorems.WinnerDecides | include/uvexec/algorithms/upon_signal_op_state.hpp:53-72 | The receiver gets stopped if and only if the stop won the latch; otherwise a timer or signal reports a value and a read, receive or accept the very event that won |
| OneShotTheorems.CloseCallbackKnowsTheWinner | include/uvexec/algorithms/after_op_state.hpp:73-80 | While the handle is closing, the stop callback is engaged if and only if the stop won |
| OneShotTheorems.CompletedIsUnreferenced | include/uvexec/execution/loop.hpp:78-106 | After completion the stop operation is in no list, its source is silent and no step but a stop request is left |
| OneShotTheorems.InternalStepsEnd | include/uvexec/algorithms/after_op_state.hpp:66-85 | The steps that follow a decision come to an end |
| OneShotTheorems.ExactlyOnceIffInitialised | include/uvexec/algorithms/after_op_state.hpp:43-63 | When they have ended, the operation completed exactly once if and only if its initialisation succeeded, and exactly once it closed its handle (timers, signals) or stopped its source (the others) if and only if that was ever started |
| OneShotTheorems.StopRequestDecides | include/uvexec/execution/loop.hpp:98-106 | A stop request decides every started operation, also one that comes before Setup |
| OneShotTheorems.EventDecides | include/uvexec/execution/loop.hpp:78-84 | An event that finds the latch free wins with the signal it brought; a later one changes nothing |
| OneShotTheorems.StartReports | include/uvexec/algorithms/after_op_state.hpp:43-63 | The start sends exactly the errors of initialising and starting, in this order |
| OneShotTheorems.FailedInitialisationCompletesTwice | include/uvexec/algorithms/after_op_state.hpp:44-59 | A run in which a failed initialisation completes a timer twice |
| OneShot.CallbackAtOnceIsARun | include/uvexec/execution/loop.hpp:98-104 | The stop callback without interruption is a run of the race |
| Timers.TimedOperation.Apply | include/uvexec/algorithms/after_op_state.hpp:43-63 | Initialise, start and set up, with both error branches, is an uninterrupted piece of a run of the race; exactly the errors that libuv answered are sent |
| Timers.TimedOperation.EventCallback | include/uvexec/algorithms/after_op_state.hpp:66-71 | The firing timer or signal takes the latch and starts closing, or does nothing if the latch was taken |
| Timers.TimedOperation.StopCallback | include/uvexec/algorithms/upon_signal_op_state.hpp:69-72 | The drained stop starts closing the handle |
| Timers.TimedOperation.CloseCallback | include/uvexec/algorithms/upon_signal_op_state.hpp:60-67 | The close callback completes with stopped or value as the race decided |
| Reads.ReadOperation.StartRead | include/uvexec/algorithms/read_some_op_state.hpp:42-51 | A failed start completes with libuv's error, a successful one sets up the race |
| Reads.ReadOperation.Complete | include/uvexec/algorithms/read_some_op_state.hpp:79-90 | The winner of the latch stops the source and sends the signal; the loser does nothing |
| Reads.ReadOperation.ReadSomeCallback | include/uvexec/algorithms/read_some_op_state.hpp:74-91 | Empty callbacks do not even enter the race; with the latch free, end of stream sends the value 0, another negative length itself as an error, a positive length itself as a value; with the latch taken nothing changes |
| Reads.ReadOperation.ReceiveCallback | include/uvexec/algorithms/receive_op_state.hpp:74-88 | Only an empty datagram without a sender is ignored; with the latch free a length is sent as a value or error |
| Reads.ReadOperation.ReceiveFromCallback | include/uvexec/algorithms/receive_op_state.hpp:162-181 | As above, and a sender address that cannot be copied turns the value into an error |
| Reads.ReadOperation.StopCallback | include/uvexec/algorithms/receive_op_state.hpp:96-100 | The drained stop drops the callback, stops the source and completes with stopped |
| ReadUntil.ReadUntilIsAFold | include/uvexec/algorithms/read_until_op_state.hpp:72-95 | In every interleaving a value is the sum of all chunks taken, the condition failed on all but the last of them, and held on the last unless the stream ended; a stop that wins yields no value |
| ReadUntil.ReadUntilReportsTheLastDelivery | include/uvexec/algorithms/read_until_op_state.hpp:72-95 | In every interleaving: while nobody has decided, no error, end of stream or matching chunk was delivered; if an event won, the last delivery was the first of these, and the receiver gets what it stands for: the bytes so far at the end of the stream, the error, or the bytes including the chunk |
| ReadUntil.DeliverKeepsOk | include/uvexec/algorithms/read_until_op_state.hpp:72-95 | Accumulating a chunk keeps the sum and the condition's record right |
| ReadUntil.ReadUntilOperation.ReadCallback | include/uvexec/algorithms/read_until_op_state.hpp:72-95 | The callback as an object's method is an uninterrupted piece of such a run, and what it appends to the receiver's signals, written out by length, latch and condition |
| StopScheduling.ListAndRacesAreSound | src/execution/loop.cpp:98-154 | With any number of cancellable operations on one list, nothing dead is touched, the list stays intact and every race is a run of OneShot |
| StopScheduling.CompletedIsNowhere | include/uvexec/execution/loop.hpp:78-106 | No operation completes while its stop operation is in the list, in the unapplied rest of a batch, or with a thread inside Schedule |
| StopScheduling.SettledHasCompleted | include/uvexec/execution/loop.hpp:74-106 | Once the list is quiet and an operation has no step of its own left, it has completed exactly once (twice if its initialisation failed) if it was started and then stopped or reached by an event; it released its source once, and reports stopped exactly if the stop won |
| StopScheduling.QuietListLeavesNoStop | src/execution/loop.cpp:98-101 | Once the list is quiet, no stop that won its race is still waiting |
| ListenerTheorems.ArrivalsAreConserved | src/sockets/tcp_listener.cpp:23-68 | From Bind on, the successful arrivals of a run equal pending ones plus uv_accept attempts plus those handed to accepts whose stop had won; the counter is never negative, and positive only while no accept is listed |
| ListenerTheorems.ServedByTheWinner | include/uvexec/sockets/tcp_listener.hpp:70-86 | From Bind on, uv_accept is called once for exactly the accepts that an event won, and the arrivals handed over in vain went to different accepts that a stop won and that have left the list |
| ListenerTheorems.ServedAreToldTheAnswer | include/uvexec/sockets/tcp_listener.hpp:70-80 | An arrival that reaches an undecided accept, or an accept that finds one pending, settles it with the answer of uv_accept; an accept that a stop has won is left as it is |
| ListenerTheorems.BindAnswers | include/uvexec/sockets/tcp_listener.hpp:136-145 | Bind passes on the error of bind or of listen, and arrivals are conserved afterwards if and only if binding succeeded or the backlog is 0 |
| ListenerTheorems.AcceptsCompleteOnce | include/uvexec/sockets/tcp_listener.hpp:43-92 | Every accept completes at most once, is out of the list when it has, and is stopped exactly if its stop won |
| ListenerTheorems.WaitersAreListed | src/sockets/tcp_listener.cpp:23-37 | An accept that neither an arrival nor a stop has decided is in the list |
| ListenerTheorems.ConservedIffCounterStartsAtZero | include/uvexec/sockets/tcp_listener.hpp:105-114 | Arrivals are conserved in every run if and only if the counter starts at zero |
| ListenerTheorems.PublicConstructorLosesArrivals | include/uvexec/sockets/tcp_listener.hpp:105-114 | With the counter that the public constructor leaves, arrivals are conserved in every run if and only if the backlog is 0 |
| ListenerTheorems.CompletedLeaveIffCounterNotNegative | src/sockets/tcp_listener.cpp:27-36 | Completed accepts are out of the list in every run if and only if the counter does not start negative |
| ListenerObjects.AcceptOperation.Complete | include/uvexec/sockets/tcp_listener.hpp:70-86 | Completes with the given signal unless the latch was taken, and is as far as its race afterwards |
| ListenerObjects.TcpListener.ConnectionCallback | src/sockets/tcp_listener.cpp:57-68 | The callback without interruption is a piece of a run of the listener: an arrival is either counted or handed to the accept at the front of the list, which leaves it and is told the answer of uv_accept |
| ListenerObjects.TcpListener.RegisterAccept | src/sockets/tcp_listener.cpp:23-37 | Likewise: a pending arrival serves the accept at once, otherwise it is listed; a negative counter listens first and keeps a failed accept listed; what it is told is written out |
| ListenerObjects.TcpListener.Start | include/uvexec/sockets/tcp_listener.hpp:43-47 | Likewise: the accept is registered and then set up, also when it has completed or its stop was requested before |
| ListenerObjects.TcpListener.StopCallback | include/uvexec/sockets/tcp_listener.hpp:88-92 | Likewise: the stopped accept leaves the list, linked or not, and completes with stopped |
| ListenerObjects.ObjectConserves | src/sockets/tcp_listener.cpp:23-68 | Conservation for the object: its counter and what its run tried and handed over add up to the arrivals, and nothing is pending while its list holds an accept |
| SocketBracket.ClosedOnceBeforeCompletion | include/uvexec/algorithms/connect_to_op_state.hpp:124-168 | For all answers the receiver is completed at most once, after the single close of the socket, with the body's signal or the failure that took its place |
| SocketBracket.ExactlyOneCloseIffBuilt | include/uvexec/algorithms/connect_to_op_state.hpp:136-145 | An initialised socket is closed exactly once if and only if building the first nested operation did not throw |
| SocketBracket.AnswersDetermineOutcome | include/uvexec/algorithms/accept_from_op_state.hpp:120-160 | The signal and the number of closes as one expression of the answers, a throwing body factory included |
| SocketBracket.BracketOperation.EmplaceAndStartInitially | include/uvexec/algorithms/connect_to_op_state.hpp:124-147 | A failed initialisation or a throwing build completes with its error, else the nested operation starts |
| SocketBracket.BracketOperation.NestedCompletes | include/uvexec/algorithms/connect_to_op_state.hpp:85-101 | A value starts the body; an error, a stop or a throwing factory starts the close that reports it |
| IntrusiveList.List.Add | include/uvexec/util/intrusive_list.hpp:37-43 | Adding a detached node puts it in front of the sequence |
| IntrusiveList.List.Pop | include/uvexec/util/intrusive_list.hpp:45-49 | Takes the front node off and detaches it |
| IntrusiveList.List.Erase | include/uvexec/util/intrusive_list.hpp:51-62 | Removes exactly that node and detaches it; on a node that is already detached nothing changes |
| ListModel.RemoveMeaning | include/uvexec/util/intrusive_list.hpp:51-62 | Removing takes out that element only, keeps the rest distinct, undoes an insertion and is idempotent |

## Left out

- libuv and stdexec themselves: their contracts are the assumptions listed above.
- Memory orderings weaker than sequential consistency.
- `Awakenings` is unbounded: after 2^64 wakeups the source's counter would wrap to 0 and read as finished. The running total of read_until is unbounded in the same way.
- Object lifetime inside `std::variant::emplace`, moved-from receivers, and `notify_one` on a runner whose owner has just left.
- The methods of a stop operation and of the operation states on the heap cover the uninterrupted case; where several threads are inside them at once, the race is modelled on values in OneShot, so the objects' methods require that no stop callback is half-way through.
- A failed timer or signal initialisation leaves an uninitialised handle behind; the model lets the start that follows succeed or fail.
- OperationListHeap.OperationList.PushBack: is seen by one thread, so its swap fails for no reason but not because of another push; pushes in competition are OperationQueue's.
- ListenerObjects: each method speaks of the accepts it works on, and the rest is outside its frame; that an accept is linked or detached is asked of the caller of StopCallback.
- HandoffTheorems.TimelyRunsStrandNobody: says that a stuck loop has no waiting call; that a loop which is not stuck gets there needs a fair scheduler and is not modelled.
- The return values of `run`, `run_once` and `drain`.
- Bind as a method of the listener object: its constructor takes the counter that Bind or the public constructor leaves.
- `bind_to`, `async_value` and the write, send, connect, shutdown and close receivers: single branches around one foreign call.
- The destructor of the loop, clock arithmetic and the type-level machinery.
