# Verified models of the POSIX concurrency exercises

Six programs of the repository keep real state over time: two thread pools, a poll
server, an epoll reactor, a SIGCHLD reaper and a producer/consumer list. This
project models each of them and proves what it guarantees in every run.

Concurrent programs are labelled transition systems: a state with every thread's
program counter, the lock's owner, the wait sets and histories, and a partial
function `Step(state, action)`. An action names the thread that moves and the
choices made outside the program (who is woken, what a system call answers).
`Runs.Exec` runs a list of actions, so a statement about a reachable state is about
every interleaving. Fields that the program updates in place are classes and arrays
(`ThreadPool`, `Threadpool`, `EchoServer`, `EventLoop`, `Kernel`, `MessageList`). Their
methods carry equations to the functions the transition systems step by; a turn of
`EchoServer` or `EventLoop` is one step of its system, and the handler loop of `Kernel`
is a run of it.

| file | what it holds |
|---|---|
| `Basics.dfy` | options, sums over sequences, runs |
| `CxxPool.dfy`, `CxxMoves.dfy`, `CxxShutdown.dfy` | the C++11 thread pool, who moves when in it, and its destructor from call to return |
| `TaskRing.dfy`, `PoolData.dfy`, `ThreadpoolClass.dfy` | the pthread pool's ring, fields, growth scan and class |
| `PthreadPool.dfy`, `PthreadInvariants.dfy`, `PthreadTheorems.dfy` | the pthread pool's steps, invariants and guarantees |
| `PthreadMoves.dfy`, `PthreadRounds.dfy` | who moves when, what ends a sleep, and each thread's round on its own |
| `PthreadGrowth.dfy`, `PthreadManager.dfy` | the growth scan and the manager's decisions in every interleaving, and its round on its own |
| `PthreadLostWakeup.dfy` | the run that loses a wake-up |
| `PthreadDestroy.dfy` | what the unlocked broadcast of destroy achieves, and who can miss it |
| `PollTable.dfy`, `PollServer.dfy` | the poll echo server, order-free and as an array scan |
| `PollService.dfy` | what one turn does for a descriptor, by the bits reported for it |
| `PollLoss.dfy` | the runs that lose bytes |
| `ReactorTable.dfy`, `ReactorTheorems.dfy`, `ReactorServer.dfy` | the epoll reactor |
| `ReactorBatch.dfy` | how every event of a batch is served |
| `ReactorDescriptors.dfy` | which descriptors it closes, and the run that echoes nothing |
| `Reaper.dfy`, `ReaperRuns.dfy` | the SIGCHLD reaper, for any number of children, and its whole runs |
| `StackList.dfy`, `StackProgress.dfy` | the producer/consumer list, its orders and its progress |

## Assumptions

- Memory is sequentially consistent; a mutex admits one owner; a wait gives up the
  mutex and sleeps in one step; spurious wake-ups happen at any time.
- A critical section guarded by a mutex that no unlocked write disturbs is one step
  after its acquisition. In the pthread pool `shutdown` is written without the lock,
  so every check there is a step of its own.
- Pthread pool: `1 <= min <= max`, a queue of at least one place, creation succeeds;
  `is_thread_alive` never denies a thread that has not exited, and may say anything
  about one that has. Every new thread gets an id that no earlier thread had: a
  `pthread_t` is not used again, though a system may do so once its thread has ended,
  and then two slots could hold one id.
- C++11 pool: tasks return. The number of workers is arbitrary, also zero.
- Poll: at an accept the new descriptor is not open yet and the array has a free
  place; poll reports only conditions that were asked for, or errors; a receive
  returns 1 to 9 bytes, end of file or an error; a send writes at most what it is given.
  The listener may fail, payloads may hold NULs, and sends may be short.
- Reactor: a client slot is free at each accept, an accepted descriptor was not open,
  a receive is shorter than the buffer, `epoll_ctl` ADD succeeds, and closing a
  descriptor removes it from the interest set.
- Reaper: signals behave as in section 2.4 of the System Interfaces volume of
  POSIX.1-2017 with one pending bit; a blocked SIGCHLD stays pending also before a
  handler is installed; `old` does not block SIGCHLD. Fork may fail, children may be
  killed, and SIGCHLD may also arrive for other reasons.

## What the code does differently from its comments

- `socket/epoll/Reactor/main.cpp:169` says that received data is sent back unchanged.
  `eventset` wipes the length between receive and send, so `send` is asked for zero
  bytes: nothing is ever sent and the connection is closed (`NothingIsEverSent`;
  `ReceivedDataIsNotEchoed` gives a run for any data).
- `socket/epoll/Reactor/main.cpp:125-129` forgets a connection whose `fcntl` fails without
  closing it (`FailedFcntlLeaks`). `NoDescriptorLeaksExactlyWhen` says that nothing else
  leaks.
- `socket/poll/poll.cpp:153` speaks of sending back whatever the peer sends. A NUL in the
  input or a short send loses bytes (`NulLosesBytes`, `ShortSendLosesBytes`), and nothing
  else does (`EchoFaithful`).
- `socket/thread_Pool/C11/ThreadPool.h:84` warns of a deadlock through `notify_one`.
  There is none (`NeverStuck`).
- `socket/thread_Pool/main.cpp:21` speaks of ten seconds where the constant is 1, and
  line 235 of the minimum thread number where the code compares with 10.
- `socket/thread_Pool/main.cpp:303` promises a wake-up for each added task. A retiring
  worker can use it up; `WakeupLostExactlyWhen` says exactly when, `WakeupCanBeLost`
  gives the run.
- `socket/thread_Pool/main.cpp:364-368` means to wake all idle workers so that they end.
  A worker between its loop condition and its wait misses the broadcasts and sleeps on:
  at most one can (`AtMostOneSleepsOn`), exactly when it stood there
  (`BroadcastMissedExactlyWhen`), and `BroadcastCanBeMissed` gives the run.

## Model

| member | source | states |
|---|---|---|
| `CxxPool.Safety` | socket/thread_Pool/C11/ThreadPool.h:34-96 | in every interleaving: mutual exclusion, FIFO tickets, each ticket held by one worker or run once, exits only when stopped and empty, wake-up accounting |
| `CxxPool.DrainOnStop` | socket/thread_Pool/C11/ThreadPool.h:40-96 | when the joins are over, every accepted task was taken in order of acceptance, ran exactly once and has a ready future, if and only if there was a worker or nothing was accepted |
| `CxxPool.NoWorkersLoseTask` | socket/thread_Pool/C11/ThreadPool.h:34-37 | the excluded case is reachable: a pool of no workers is destroyed with an accepted task never run |
| `CxxPool.NoLostWakeup` | socket/thread_Pool/C11/ThreadPool.h:44-82 | while a worker sleeps un-notified, queued tasks are at most the notifications under way, the gap between unlock and notify_one included |
| `CxxPool.NeverStuck` | socket/thread_Pool/C11/ThreadPool.h:40-96 | queued work or an unfinished destructor always leaves a pool thread able to move |
| `CxxMoves.WorkerMovesExactlyWhen` | socket/thread_Pool/C11/ThreadPool.h:40-54 | a worker waits for nothing but the lock, unless it sleeps or has returned |
| `CxxMoves.SleepEndsExactlyBy` | socket/thread_Pool/C11/ThreadPool.h:46-93 | a worker's sleep ends exactly by a notification that picks it, by notify_all, or spuriously |
| `CxxMoves.MarksFollowNotifications` | socket/thread_Pool/C11/ThreadPool.h:46-93 | the mark that the wake-up accounts count is set by nothing but a notification and lost exactly when its worker looks at the queue |
| `CxxMoves.WorkerDecides` | socket/thread_Pool/C11/ThreadPool.h:45-50 | with the lock a worker sleeps exactly if there is neither task nor stop, returns exactly if there is no task after stop, and otherwise takes the oldest task |
| `CxxMoves.RefusedExactlyAfterStop` | socket/thread_Pool/C11/ThreadPool.h:73-82 | enqueue fails exactly after stop and then leaves the queue alone; otherwise its task goes last with a future that is not ready, and a notification follows |
| `CxxMoves.ReadyExactlyByFinish` | socket/thread_Pool/C11/ThreadPool.h:53-70 | a future becomes ready exactly when its own task ends |
| `CxxPool.CountdownStep` | socket/thread_Pool/C11/ThreadPool.h:45-54 | after notify_all nobody sleeps again and every worker step lowers the measure by exactly one |
| `CxxPool.ShutdownProgress` | socket/thread_Pool/C11/ThreadPool.h:87-96 | along any run after notify_all the number of worker steps equals the fall of the measure |
| `CxxPool.ShutdownBound` | socket/thread_Pool/C11/ThreadPool.h:93-95 | after notify_all the workers take at most `Remaining` more steps in any run |
| `CxxPool.ShutdownCompletes` | socket/thread_Pool/C11/ThreadPool.h:87-96 | a run that can go no further after the destructor was called has joined all workers and drained |
| `CxxShutdown.EverySchedule` | socket/thread_Pool/C11/ThreadPool.h:87-96 | after notify_all every schedule of workers, callers inside enqueue and joining destructor uses up a fixed number of steps and ends |
| `CxxShutdown.DestructorReturns` | socket/thread_Pool/C11/ThreadPool.h:87-96 | from any reachable state with the destructor called, the pool's own threads can bring it to its end: every accepted task run once, every worker joined |
| `CxxShutdown.RefusedOnlyAfterStop` | socket/thread_Pool/C11/ThreadPool.h:76-77 | no call of enqueue is refused before the stop |
| `CxxPool.ThreadPool.constructor` | socket/thread_Pool/C11/ThreadPool.h:34 | starts empty and not stopped |
| `CxxPool.ThreadPool.Enqueue` | socket/thread_Pool/C11/ThreadPool.h:74-81 | appends, or refuses exactly when stopped and changes nothing |
| `CxxPool.ThreadPool.Next` | socket/thread_Pool/C11/ThreadPool.h:45-50 | hands out the front task, or tells the worker to return when the queue is empty |
| `CxxPool.ThreadPool.Stop` | socket/thread_Pool/C11/ThreadPool.h:89-92 | sets stop and keeps the queue |
| `CxxPool.ThreadPool.WorkerLoop` | socket/thread_Pool/C11/ThreadPool.h:40-55 | once stopped, a worker alone runs exactly the queued tasks in order and returns |
| `TaskRing.PutAppends` | socket/thread_Pool/main.cpp:297-302 | storing at the rear of a ring with room appends to the queue and keeps rear = (front + size) mod capacity |
| `TaskRing.DropRemovesOldest` | socket/thread_Pool/main.cpp:184-190 | the slot at the front holds the oldest element and advancing removes just that one |
| `PoolData.ScanCount` | socket/thread_Pool/main.cpp:240-250 | the growth scan adds the minimum of batch size, room below the maximum, and free slots |
| `PoolData.ScanKeepsOccupied` | socket/thread_Pool/main.cpp:245-249 | the scan keeps every slot whose thread is reported alive, and every field but table and live count |
| `PoolData.OccupiedCount` | socket/thread_Pool/main.cpp:241-250 | slots of unexited workers are as many as unexited workers |
| `PoolData.GrowthExact` | socket/thread_Pool/main.cpp:236-250 | with right liveness answers and live equal to the unexited workers, the scan adds exactly min(10, max - live) |
| `PthreadInvariants.Safety` | socket/thread_Pool/main.cpp:143-307 | in every run: mutual exclusion, what each lock holder relies on, counts, bounds, slot table, ledger and wake-up accounting |
| `PthreadTheorems.SizeBounds` | socket/thread_Pool/main.cpp:160-173 | min <= live <= max, 0 <= wait_exit <= 10, 0 <= busy <= live in every state; live counts the unretired workers, busy those between increment and decrement |
| `PthreadTheorems.ConfigurationKept` | socket/thread_Pool/main.cpp:90-97 | minimum, maximum and queue capacity stay as created |
| `PthreadTheorems.RingIsFifo` | socket/thread_Pool/main.cpp:184-302 | taken tasks are a prefix of accepted ones, the ring holds the rest from front, rear = (front + size) mod capacity |
| `PthreadTheorems.TaskConservation` | socket/thread_Pool/main.cpp:184-211 | each accepted task is queued, or held by the one worker that took it, or executed; at most once |
| `PthreadTheorems.AtMostOneLateMutation` | socket/thread_Pool/main.cpp:177-361 | after the unlocked shutdown write at most one enqueue or dequeue happens in any continuation, and none unless a lock holder was past its check |
| `PthreadTheorems.WakeAccounting` | socket/thread_Pool/main.cpp:152-305 | before shutdown, while a worker sleeps, queued tasks <= signalled workers not yet done with it + retirements |
| `PthreadTheorems.NoRetirementNoLoss` | socket/thread_Pool/main.cpp:152-305 | without retirement no wake-up is lost |
| `PthreadTheorems.WakeupLostExactlyWhen` | socket/thread_Pool/main.cpp:157-173 | from any state the invariant allows, a step loses a wake-up if and only if it is a signalled worker that retires beside a sleeper with no signalled worker to spare |
| `PthreadTheorems.RunCoveredExactlyWhen` | socket/thread_Pool/main.cpp:148-305 | over whole runs before shutdown: queued tasks are covered in every state if and only if no step of the run is such a retirement |
| `PthreadTheorems.QueuedWorkMoves` | socket/thread_Pool/main.cpp:148-213 | while no wake-up was lost and work is queued, the thread that holds the lock can move, and when nobody holds it, a worker that has not retired can |
| `PthreadMoves.WorkerMovesExactlyWhen` | socket/thread_Pool/main.cpp:143-214 | in every reachable state a worker waits for nothing but the lock, unless it sleeps or has exited |
| `PthreadMoves.ProducerMovesExactlyWhen` | socket/thread_Pool/main.cpp:281-307 | so does a producer, and its signal can go to any sleeper, to nobody only if nobody sleeps |
| `PthreadMoves.ManagerMovesExactlyWhen` | socket/thread_Pool/main.cpp:218-268 | so does the manager until it has exited |
| `PthreadMoves.SleepEndsExactlyBy` | socket/thread_Pool/main.cpp:157-367 | a worker's sleep ends exactly by the signal of an accepted task or of a shrinking manager that picks it, by a broadcast after shutdown, or spuriously |
| `PthreadMoves.SignalsAndBroadcasts` | socket/thread_Pool/main.cpp:263-367 | a signal takes one sleeper off the wait set if there is any, a broadcast all of them, and neither touches anybody else |
| `PthreadMoves.MarksFollowSignals` | socket/thread_Pool/main.cpp:152-304 | the mark that the wake-up accounts count is set by nothing but a signal or broadcast, and lost exactly when its worker takes a task, retires, leaves, or finds the queue empty |
| `PthreadMoves.ProducerSleepEndsExactlyBy` | socket/thread_Pool/main.cpp:193-285 | a producer's sleep ends exactly when a task is taken, or spuriously |
| `PthreadMoves.RetiresExactlyWhen` | socket/thread_Pool/main.cpp:160-173 | back from its wait a worker uses up a request if there is one, also at the minimum, and retires exactly if there was one and the pool is above its minimum |
| `PthreadRounds.WorkerRunsOldestTask` | socket/thread_Pool/main.cpp:148-213 | a worker on its own takes the oldest queued task, executes it once and is back at the lock, with the waiting producers woken and nothing else changed |
| `PthreadRounds.IdleWorkerSleeps` | socket/thread_Pool/main.cpp:152-157 | one that finds no task sleeps and changes nothing |
| `PthreadRounds.WorkerExitsAfterShutdown` | socket/thread_Pool/main.cpp:177-182 | after shutdown it exits, whatever is queued |
| `PthreadRounds.WokenWorkerRetires` | socket/thread_Pool/main.cpp:157-173 | a woken worker asked to retire above the minimum exits without a look at the queue, and request and live count fall by one |
| `PthreadRounds.WokenWorkerSleepsAgain` | socket/thread_Pool/main.cpp:152-173 | otherwise, with nothing queued, it uses up the request and sleeps again |
| `PthreadRounds.AddGoesThrough` | socket/thread_Pool/main.cpp:281-307 | a producer on its own stores its task last and wakes one sleeping worker |
| `PthreadRounds.AddWaitsForRoom` | socket/thread_Pool/main.cpp:284-285 | a full queue puts it to sleep and nothing else changes |
| `PthreadRounds.AddRefused` | socket/thread_Pool/main.cpp:287-291 | after shutdown it comes back with nothing stored and every sleeping worker woken |
| `PthreadDestroy.DozingNeverRises` | socket/thread_Pool/main.cpp:152-361 | once the flag is written, no step makes more workers asleep or about to wait |
| `PthreadDestroy.AtMostOneSleepsOn` | socket/thread_Pool/main.cpp:152-368 | in any continuation of a broadcast of destroy at most one worker is ever asleep, and none unless one was between loop condition and wait at the broadcast |
| `PthreadDestroy.BroadcastMissedExactlyWhen` | socket/thread_Pool/main.cpp:152-368 | a worker can be asleep in some continuation if and only if one stood in that gap |
| `PthreadDestroy.WorkersStopAfterDestroy` | socket/thread_Pool/main.cpp:148-364 | once the flag is written and the manager joined, the workers take at most eight steps each in any run |
| `PthreadDestroy.DestroyReleasesAllButOne` | socket/thread_Pool/main.cpp:148-368 | when no worker can move any more and nobody holds the lock, every worker has exited, but for at most one asleep, and that only if one stood in that gap |
| `PthreadDestroy.BroadcastCanBeMissed` | socket/thread_Pool/main.cpp:152-371 | for any pool created with one worker, the run in which it misses the only broadcast and sleeps on with no step of it or the manager enabled |
| `PthreadTheorems.ProducersNeverSleepBesideRoom` | socket/thread_Pool/main.cpp:189-286 | an un-notified sleeper on queue_not_full implies a full queue |
| `PthreadTheorems.OneSlotEach` | socket/thread_Pool/main.cpp:126-249 | every unexited worker occupies exactly one slot |
| `PthreadTheorems.SlotKeptUntilExit` | socket/thread_Pool/main.cpp:241-250 | along any run a worker keeps the slot it was created in until it has exited |
| `PthreadGrowth.GrowthBounds` | socket/thread_Pool/main.cpp:236-250 | in every interleaving of a growth scan with workers, producers and the shutdown write, and right liveness answers: live grows with the batch, the batch is at most min(10, max - live), and the finished scan falls short of that by at most the threads retired but not exited when it began; when a scan begins is `DecisionsFollowTheLook` |
| `PthreadGrowth.GrowthAddsBatch` | socket/thread_Pool/main.cpp:236-250 | in every interleaving, when every retired worker had exited at its start, the finished scan has added exactly min(10, max - live); `RoundAlone` joins it to the queue length that starts it |
| `PthreadGrowth.EveryScanComputesScan` | socket/thread_Pool/main.cpp:238-251 | in every interleaving the finished scan has computed `Scan` of the state it started from, whatever the others did to the fields `lock` does not guard |
| `PthreadGrowth.ManagerScans` | socket/thread_Pool/main.cpp:238-251 | from any state of a scan the manager moving alone finishes it and unlocks, with the result of `Scan` |
| `PthreadManager.DecisionsFollowTheLook` | socket/thread_Pool/main.cpp:220-263 | in every run, whatever the others do meanwhile: the manager goes to grow if and only if at its last look at least 10 tasks were queued and live < max, and to shrink if and only if 2 * busy < live and live > min by the same look; it scans or arms only after that |
| `PthreadManager.RoundAlone` | socket/thread_Pool/main.cpp:220-265 | a round of the manager on its own, from start to end: min(10, max - live) workers more exactly if 10 or more tasks are queued below the maximum, ten requests and up to ten sleepers woken exactly if 2 * busy < live and live > min, both if both hold, and nothing else changed |
| `PthreadManager.ManagerExitsAfterShutdown` | socket/thread_Pool/main.cpp:218-268 | once shutdown is written the manager, wherever it is, can end its round and exits |
| `PthreadManager.NoExitBeforeShutdown` | socket/thread_Pool/main.cpp:220 | it has exited only if shutdown was written |
| `PthreadLostWakeup.WakeupCanBeLost` | socket/thread_Pool/main.cpp:157-173 | a reachable state with a queued task, the only live worker asleep and unable to move, the lock free, and no signal or manager round under way |
| `ThreadpoolClass.Threadpool.constructor` | socket/thread_Pool/main.cpp:90-130 | the created pool: counters, empty ring, first min slots filled |
| `ThreadpoolClass.Threadpool.Add` | socket/thread_Pool/main.cpp:287-306 | appends to the ring's contents and signals one worker, or after shutdown changes nothing and wakes all workers |
| `ThreadpoolClass.Threadpool.Take` | socket/thread_Pool/main.cpp:177-195 | removes and returns the oldest and wakes the waiting producers, or changes nothing after shutdown |
| `ThreadpoolClass.Threadpool.CheckRetire` | socket/thread_Pool/main.cpp:160-173 | uses up a retirement request if there is one, also at the minimum, and retires exactly if there was one and live > min |
| `ThreadpoolClass.Threadpool.CountBusy` | socket/thread_Pool/main.cpp:198-211 | changes the busy count only |
| `ThreadpoolClass.Threadpool.Arm` | socket/thread_Pool/main.cpp:259 | asks for ten retirements |
| `ThreadpoolClass.Threadpool.Grow` | socket/thread_Pool/main.cpp:240-250 | the loop over the slot array computes `Scan` |
| `ThreadpoolClass.Threadpool.SetShutdown` | socket/thread_Pool/main.cpp:361 | changes the flag only |
| `PollTable.CStr` | socket/poll/poll.cpp:118-123 | the bytes received up to the first NUL; all of them exactly when they hold none |
| `PollTable.PassMembership` | socket/poll/poll.cpp:83-114 | after a pass the table holds exactly the polled entries that showed neither POLLRDHUP nor POLLERR, and the accepted descriptor if the listener showed POLLIN and neither of the two |
| `PollService.TurnRunsExactlyWhen` | socket/poll/poll.cpp:77-150 | the process goes through a turn if and only if the calls kept their promises and no kept entry met a failed accept, recv, or send other than ECONNRESET |
| `PollService.HangUpDeletes` | socket/poll/poll.cpp:86-95 | POLLRDHUP or POLLERR deletes the entry and all that is kept for it, whatever else is reported with them |
| `PollService.ReadServed` | socket/poll/poll.cpp:116-139 | bytes read turn a client from POLLIN to POLLOUT and are stored up to the first NUL; end of file changes nothing |
| `PollService.WriteServed` | socket/poll/poll.cpp:142-156 | the first n stored bytes go out and the client is turned back to POLLIN even if that is not all; after ECONNRESET nothing changes |
| `PollService.OnlyTheAcceptedJoins` | socket/poll/poll.cpp:97-114 | a descriptor joins exactly if the listener announced it, with a fresh entry and history |
| `PollService.OthersLeftAlone` | socket/poll/poll.cpp:83-157 | an entry with none of these bits keeps events, string and history |
| `PollService.MessageComesBack` | socket/poll/poll.cpp:116-156 | what is read without a NUL in one turn and written out in the next has come back whole, and the client is read from again |
| `PollTable.ConnStep` | socket/poll/poll.cpp:116-156 | handling one connection keeps its direction and byte accounting |
| `PollTable.EchoFaithful` | socket/poll/poll.cpp:65-158 | over whole runs, received == sent ++ pending if and only if no receive held a NUL and no send was short; pending is at most 9 bytes |
| `PollLoss.NulLosesBytes` | socket/poll/poll.cpp:116-130 | a reachable state in which two bytes were received, the first a NUL, and neither is sent or pending |
| `PollLoss.ShortSendLosesBytes` | socket/poll/poll.cpp:142-156 | a reachable state in which two bytes were received, one sent, and the other is not pending |
| `PollTable.OneDirectionArmed` | socket/poll/poll.cpp:126-155 | each open connection has exactly one of POLLIN and POLLOUT armed; strings are stored for open clients only |
| `PollTable.ReuseStartsClean` | socket/poll/poll.cpp:86-113 | a reused descriptor number starts with nothing stored and an empty history |
| `PollServer.EchoServer.constructor` | socket/poll/poll.cpp:67-73 | the table holds the listener alone at index 0 |
| `PollServer.EchoServer.Remove` | socket/poll/poll.cpp:88-91 | moving the last entry into a hole removes just that descriptor and nobody crosses the scan index |
| `PollServer.EchoServer.Insert` | socket/poll/poll.cpp:109-113 | appending adds just that descriptor |
| `PollServer.EchoServer.Drop` | socket/poll/poll.cpp:86-95 | the deleting branch handles its entry and keeps the scan's invariant |
| `PollServer.EchoServer.Append` | socket/poll/poll.cpp:97-114 | the accepting branch likewise |
| `PollServer.EchoServer.Read` | socket/poll/poll.cpp:116-140 | the reading branch likewise |
| `PollServer.EchoServer.Write` | socket/poll/poll.cpp:142-156 | the writing branch likewise, on ECONNRESET too |
| `PollServer.EchoServer.RunPass` | socket/poll/poll.cpp:83-157 | the scan ends, handles every polled entry exactly once, computes the order-free pass (whose entries `PassMembership` and `PollService` give by the reported bits), and exits if and only if some kept entry meets a fatal answer |
| `PollServer.EchoServer.Poll` | socket/poll/poll.cpp:77 | the kernel's answers land in the entries of their descriptors |
| `PollServer.EchoServer.Turn` | socket/poll/poll.cpp:74-158 | one turn of the loop is one step of the order-free server, which `PollService` describes by bits and answers |
| `ReactorTable.FirstFree` | socket/epoll/Reactor/main.cpp:114-120 | the first client slot off the tree |
| `ReactorTheorems.Safety` | socket/epoll/Reactor/main.cpp:220-290 | in every run table and interest set agree and every slot has its callback, mask and length |
| `ReactorTheorems.TableMirrorsInterest` | socket/epoll/Reactor/main.cpp:70-217 | slots with status 1 are exactly the interest set with the same masks; no descriptor twice; the listener stays |
| `ReactorTheorems.AcceptNeedsRoom` | socket/epoll/Reactor/main.cpp:114-132 | eventadd on the chosen slot is defined if and only if a client slot is free |
| `ReactorTheorems.NothingIsEverSent` | socket/epoll/Reactor/main.cpp:139-183 | no byte is sent in any run; each write callback takes its connection off the tree and closes its descriptor |
| `ReactorDescriptors.ReceivedDataIsNotEchoed` | socket/epoll/Reactor/main.cpp:139-183 | for any data, the run in which it is read and the next turn's write callback sends nothing and closes the connection |
| `ReactorDescriptors.FailedFcntlLeaks` | socket/epoll/Reactor/main.cpp:125-129 | for any descriptor, the run of one turn in which it is accepted, fcntl fails, and it stays open and unregistered |
| `ReactorDescriptors.NoDescriptorLeaksExactlyWhen` | socket/epoll/Reactor/main.cpp:96-268 | over whole runs the open descriptors are exactly the registered ones if and only if fcntl failed on no accepted connection |
| `ReactorTheorems.DispatchOnce` | socket/epoll/Reactor/main.cpp:275-288 | a reported event runs at most one callback although both tests are made |
| `ReactorTheorems.DispatchStep` | socket/epoll/Reactor/main.cpp:275-288 | later events of a batch still find their slots as reported, whatever earlier ones did |
| `ReactorBatch.EveryEventDispatched` | socket/epoll/Reactor/main.cpp:275-288 | every event of a batch is dispatched once, in order, each finding its slot as reported; the batch breaks off only before an answer that does not fit |
| `ReactorBatch.EveryEventServed` | socket/epoll/Reactor/main.cpp:275-288 | for every event of a batch the final slots show it served: bytes read leave its connection waiting to write with buffer, length and clock reset; end of file, a read error or POLLOUT leave it off the tree and closed unless the listener reused slot or number; an accepted connection sits in a client slot waiting to read |
| `ReactorBatch.TurnServesEveryEvent` | socket/epoll/Reactor/main.cpp:243-289 | a turn of any reachable server sweeps a hundred slots, serves every event then reported, and leaves every other slot and closed descriptor alone |
| `ReactorBatch.EventRunsExactlyWhen` | socket/epoll/Reactor/main.cpp:96-183 | a callback is defined if and only if a new descriptor finds room, a read fits the buffer, and no byte is written where none was asked for |
| `ReactorTheorems.CursorAt` | socket/epoll/Reactor/main.cpp:247-253 | iteration k of a sweep looks at slot (cursor + k) mod 1024 |
| `ReactorTheorems.SweepExact` | socket/epoll/Reactor/main.cpp:247-267 | a sweep takes off the tree exactly the expired among the slots its iterations look at, never the listener, and touches no other slot |
| `ReactorTheorems.SweepCloses` | socket/epoll/Reactor/main.cpp:260-265 | a sweep closes and unregisters exactly the descriptors of those slots |
| `ReactorTheorems.AcceptedIsNotSwept` | socket/epoll/Reactor/main.cpp:56-132 | a connection accepted less than 60 seconds ago stays registered through any sweep |
| `ReactorTheorems.ReadIsNotSwept` | socket/epoll/Reactor/main.cpp:139-154 | one read from less than 60 seconds ago stays registered for writing through any sweep |
| `ReactorTheorems.EverySlotInspected` | socket/epoll/Reactor/main.cpp:241-267 | in any 11 consecutive rounds some iteration of some sweep looks at a given client slot |
| `ReactorTheorems.IdleConnectionClosed` | socket/epoll/Reactor/main.cpp:241-267 | a connection idle for 60 seconds does not outlive 11 rounds unless renewed: a sweep takes it off the tree, and its descriptor out of the open ones and the interest set |
| `ReactorServer.EventLoop.constructor` | socket/epoll/Reactor/main.cpp:185-241 | the listener alone, in the last slot |
| `ReactorServer.EventLoop.Set` | socket/epoll/Reactor/main.cpp:57-67 | resets one slot and keeps its status |
| `ReactorServer.EventLoop.Add` | socket/epoll/Reactor/main.cpp:70-93 | registers a slot that is off the tree |
| `ReactorServer.EventLoop.Del` | socket/epoll/Reactor/main.cpp:205-217 | takes a slot off the tree, if it is on it |
| `ReactorServer.EventLoop.FindFree` | socket/epoll/Reactor/main.cpp:114-120 | the search loop finds the first free slot |
| `ReactorServer.EventLoop.Accept` | socket/epoll/Reactor/main.cpp:96-137 | keeps the agreement and registers the new connection for reading |
| `ReactorServer.EventLoop.Receive` | socket/epoll/Reactor/main.cpp:139-165 | keeps the agreement; re-registers for writing or closes |
| `ReactorServer.EventLoop.Transmit` | socket/epoll/Reactor/main.cpp:167-183 | re-registers for reading or closes |
| `ReactorServer.EventLoop.InspectOne` | socket/epoll/Reactor/main.cpp:249-266 | one iteration of the sweep |
| `ReactorServer.EventLoop.SweepIdle` | socket/epoll/Reactor/main.cpp:247-267 | the sweep loop computes `Sweep` |
| `ReactorServer.EventLoop.DispatchBatch` | socket/epoll/Reactor/main.cpp:275-288 | the event loop computes `DispatchAll`, by which every reported event is served (`EveryEventServed`), and keeps the agreement |
| `ReactorServer.EventLoop.Turn` | socket/epoll/Reactor/main.cpp:243-289 | one turn of the loop is one step of the reactor, which serves every reported event (`TurnServesEveryEvent`) |
| `Reaper.ZombieIsAnnounced` | signal/recovery.cpp:14-68 | while there is a zombie, SIGCHLD is pending or the handler is in its loop |
| `Reaper.QuiescentMeansReaped` | signal/recovery.cpp:35-83 | when nothing more can happen, every child whose fork succeeded was reaped and reported exactly once, with its number i+1 in eight bits or its killing signal; `AsManyReportsAsForks` ties the children to the forks |
| `ReaperRuns.ForksDecide` | signal/recovery.cpp:44-51 | in every run child i is unborn exactly until fork i, and was not forked exactly if that fork failed |
| `ReaperRuns.AsManyReportsAsForks` | signal/recovery.cpp:14-83 | when nothing more can happen, all n forks were made and the handler printed as many reports as forks succeeded, n if none failed |
| `ReaperRuns.EveryOutcomeHappens` | signal/recovery.cpp:14-83 | for any outcome of the forks and any ends of the children some run ends with all of them reaped so and no signal left |
| `ReaperRuns.EndsExactlyWhen` | signal/recovery.cpp:76-83 | a living child can end by a signal or with its number i+1 in eight bits, and in no other way; then SIGCHLD is pending |
| `ReaperRuns.DeliveriesAreBounded` | signal/recovery.cpp:14-68 | the handler is entered at most once for each time the signal is raised, and never while it is running |
| `ReaperRuns.HandlerReapsAll` | signal/recovery.cpp:19-30 | from inside the handler, successful calls of waitpid and its exit reap and report every zombie and nothing else |
| `Reaper.HandlerCanMove` | signal/recovery.cpp:19 | inside the handler a turn or the exit is possible |
| `Reaper.HandlerTerminates` | signal/recovery.cpp:19-28 | the handler makes at most one successful waitpid per child in any run |
| `Reaper.Kernel.OneTurn` | signal/recovery.cpp:19 | one waitpid call, after whatever deaths, takes exactly one unreaped child off or finds no zombie; it is a run of the system |
| `Reaper.Kernel.ReapOne` | signal/recovery.cpp:19-27 | reaping and reporting one zombie is one step of the system |
| `Reaper.Kernel.CatchChild` | signal/recovery.cpp:14-30 | the loop ends with no zombie left, every earlier zombie reaped with its status, while children keep dying; the whole call is a run of the system up to the handler's exit |
| `StackList.ListDescends` | thread/P_C_Model/Signal_type.cpp:29-58 | the list descends from head; produced messages are consumed, listed or in hand, each in one place; a consumer asleep beside messages is about to be signalled (and then moves: `ListedMessageMoves`) |
| `StackProgress.WhoCanMove` | thread/P_C_Model/Signal_type.cpp:27-60 | in every reachable state the producer waits for nothing but the lock, the consumer for nothing but the lock unless it sleeps, and the lock's owner can move |
| `StackProgress.ListedMessageMoves` | thread/P_C_Model/Signal_type.cpp:31-58 | beside a listed message the consumer can move, or the producer that holds the lock or is about to signal; the signal wakes a sleeping consumer |
| `StackProgress.SpuriousWakeupIsHarmless` | thread/P_C_Model/Signal_type.cpp:32-34 | a sleep can end without a signal, and beside an empty list the consumer is asleep again with nothing changed |
| `StackProgress.FinishingEnds` | thread/P_C_Model/Signal_type.cpp:27-60 | once no new message is begun, every schedule without spurious wake-ups ends after a bounded number of steps |
| `StackProgress.FinishedMeansConsumed` | thread/P_C_Model/Signal_type.cpp:27-60 | it can go no further exactly when every message made has been consumed once and the consumer sleeps beside an empty list |
| `StackProgress.EveryMessageIsConsumed` | thread/P_C_Model/Signal_type.cpp:27-60 | from every reachable state such a schedule exists |
| `StackList.ConsumedInStackOrder` | thread/P_C_Model/Signal_type.cpp:27-58 | when a message follows a larger one, all between them came before it |
| `StackList.Never312` | thread/P_C_Model/Signal_type.cpp:35-38 | no three messages are consumed in the order largest, smallest, middle |
| `StackList.CompleteOrder` | thread/P_C_Model/Signal_type.cpp:35-54 | for complete orders, stack order and avoiding that pattern are the same |
| `StackList.OrdersExactly` | thread/P_C_Model/Signal_type.cpp:27-58 | an order of consumption occurs in some run if and only if it is a stack order |
| `SharedList.MessageList.Push` | thread/P_C_Model/Signal_type.cpp:52-53 | puts a new node before the list, as the producer's step does |
| `SharedList.MessageList.Pop` | thread/P_C_Model/Signal_type.cpp:35-36 | takes the head node off the list, as the consumer's step does |

## Left out

- `threadpool_free`, the join loop of `threadpool_destory` and the allocation pairing: memory management, with joins of detached threads that promise nothing.
- What shutdown does not give in the pthread pool: queued work is not drained, sleeping producers are not released, and the join loop need not reach every worker. The write of the flag and each broadcast after the manager's exit are modelled; how many broadcasts the loop makes is not.
- Calls of user functions, printing, sleeping, addresses, ports and the arguments of tasks; a task is its ticket.
- Results and exceptions of C++11 tasks: a future is pending or ready.
- `PollServer.EchoServer.RunPass`: requires room in the array at an accept; the source writes past the array otherwise.
- `PthreadGrowth.GrowthBounds`: gives the shortfall as a bound, since a thread that retired may exit before or after the scan reaches its slot.
- `ReactorServer.EventLoop.Accept`: requires a free client slot; otherwise the source overwrites the listener's slot and passes an uninitialised operation.
- `ReactorServer.EventLoop.Receive`: requires a receive shorter than the buffer; the source writes one byte past it otherwise. The buffer's old contents are not modelled.
- `Reaper.Kernel.CatchChild`: models the deaths between two waitpid calls by the contract of `Elapse`, not by a second process.
- socket/Server/*: copies and unfinished variants of the pool and the reactor.
- thread/multhread_copy, lock, process_api, IPC, bases, session, the socket clients and the select, pipe and simple epoll servers: fixed plumbing that would only add easy members.
