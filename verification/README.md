# The sylar fiber runtime, modelled and proved

sylar runs fibers on a pool of worker threads. A fiber that would block hands
its continuation to a timer or to an event slot of an fd and suspends; epoll
readiness, timer expiry, queued timer callbacks and cancellation then compete to
put it back into the ready queue. This project models that machinery and proves
what it keeps, in every run, for any number of workers and any interleaving. A
second, separate part models the pattern scanner of the log formatter.

## How the project is laid out

| file | contents |
|---|---|
| `Tasks`, `Tally` | tasks, callbacks and queue entries; sums of a weight over a sequence, the tool of every conservation law |
| `TimerSet`, `TimerRuns`, `TimerManager` | the ordered timer set as a value; all runs of its operations; the `Timer` and `TimerManager` objects, tied to the value method by method |
| `EventTable`, `IoManager` | fd contexts, kernel interest map and pending count as a value; the `FdContext` and `IoManager` objects, tied to it |
| `ReadyQueue`, `Scheduler` | the dispatch scan as a value; the `Fiber`, `Scheduler` and `Worker` objects with the run loop |
| `Runtime` | the whole runtime as one step system: state, steps, enabling conditions |
| `RuntimeTokens`, `RuntimeCalls`, `RuntimeCallSteps`, `RuntimePlaces`, `RuntimeWorkSteps`, `RuntimeInvariant` | the invariant of the step system and the proof that every step keeps it |
| `RuntimeIdle`, `RuntimeTasks` | idling and stopping; what becomes of every accepted task |
| `RuntimeTimeouts`, `RuntimeDelivery` | whether a timeout that was set is delivered |
| `RuntimeExit`, `RuntimeProgress`, `RuntimeWakes` | when idle fibers and workers end; that no worker gets stuck; that queued work is attended to |
| `RuntimeTheorems`, `RuntimeHooks` | what follows for every reachable state; what the hooks, timer callbacks and actions do in it |
| `Stories`, `OrdinaryRun`, `LostTimeout`, `FailedCancel`, `StaleReport` | complete runs, told state by state: one in which everything goes well, and those that end where a promise fails |
| `BlockingIo` | the hooked calls as loops over the timer and event table objects |
| `LogPattern`, `LogFormatter` | the pattern scanner: specification, round trips, and the index loops proved against it |

In `Runtime` one step is what runs without interruption in the model: a
dispatch from scanning the queue to the switch (`DoDispatch`,
sylar/scheduler.cc:178-320), the idle fiber's check (`DoIdleCheck`,
sylar/iomanager.cc:302-326), one batch expiry (`DoExpire`,
sylar/timer.cc:155-206), scheduling the batch (`DoPostExpired`,
sylar/iomanager.cc:341-346), one entry of the epoll result (`DoReport`,
sylar/iomanager.cc:350-417), one timer callback up to its cancel and the cancel
itself (`DoCallback`, `DoCancel`, sylar/hook.cc:139-149 and 289-300), and each
decision of a hooked call (`DoSleep`, `DoBegin`, `DoRawCall`, `DoRegister`,
`DoSuspend`, `DoAfterWait`, `DoCheckSocket`, sylar/hook.cc:123-178, 188-239 and
274-333). `Apply` is the transition, `Enabled` says when it may happen; a step
whose assertion would fail is not enabled. `Run(Start(n), steps)` is the state a
pool of `n` workers reaches by `steps`; raw results, readiness, epoll_ctl
failures, the clock and object addresses are parameters of the steps, so they are
arbitrary.

## What the code does not do

Each of these is a proved statement about the code as it is.

- A timeout can be lost with two or more workers: the callback may run between
  setting the timer and adding the event, and then finds nothing to cancel. While
  no epoll_ctl fails inside a timeout callback, no run loses one exactly if there
  is one worker (`LostTimeout.NoneLostIffAlone`); a single failing one loses a
  timeout with any number of workers (`FailedCancel.FailureLosesTimeout`).
- A report of epoll that is stale by the time it is processed ends the process,
  exactly when some but not all of its events are still registered and epoll_ctl
  succeeds (`EventTable.ProcessReadyKeeps`). One outside `cancel_event` between
  epoll_wait and its processing is enough, in a pool of any size
  (`StaleReport.StaleReportAborts`).
- A second fiber that waits for the same event of an fd ends the process: that
  assertion of `add_event`, and the end of the 64-bit clock, are the only places where
  a worker cannot go on (`RuntimeProgress.WorkersGoOn`).
- A task pinned to a thread that is not a worker stays queued, and while it does no
  submission writes a byte: a lone worker sleeps up to 5000 ms beside work it may
  take. With two workers or more that cannot happen, whatever is pinned
  (`RuntimeWakes.NoneMissedIffSeveral`).
- `del_event` drops a waiting continuation without scheduling it, exactly when one
  is there (`EventTable.DelEventDrops`, `EventTable.DelEventDropsWaiter`).
- A callback that yields ready leaves its fiber in the callback slot, and the next
  callback trips the assertion of `reset` (`Schedulers.Worker.ReadyCallbackTrips`).
- The hooked `sleep` multiplies in 32 bits: it is long enough exactly up to
  4294967 seconds, and 4294968 seconds become 704 ms (`BlockingIo.SleepIsFull`).
- `connect_with_timeout` reports success when its event was refused and the socket
  has no error yet (`BlockingIo.Hooks.Connect`).
- `%%` in a log pattern is listed as a form of its own (sylar/log.cc:483), but its
  second percent sign opens a directive (`LogPattern.DoublePercent`).

## Model

| member | source | states |
|---|---|---|
| `TimerSet.ExpireExact` | sylar/timer.cc:171-205 | With the head due, a batch fires, in order, the head, every timer due before now, and of those due at now the ones below the probe's address; never one due later, none twice; the set afterwards is what did not fire plus the recurring ones, one period away, and stays sorted |
| `TimerSet.InsertKeeps` | sylar/timer.cc:100-113 | Inserting a timer with an address of its own keeps the set strictly sorted by (m_next, address) and addresses distinct |
| `TimerSet.RekeyKeeps` | sylar/timer.cc:66-70 | Taking a timer out and putting it back under a new key keeps the order and changes no other timer |
| `TimerSet.CancelKeeps` | sylar/timer.cc:43-55 | Cancelling removes exactly the timer at that address |
| `TimerSet.RequeueKeeps` | sylar/timer.cc:194-205 | Re-adding the recurring timers of a batch keeps the set sorted and adds exactly those |
| `TimerSet.SumOfExpire` | sylar/timer.cc:181-205 | Counted by any weight that requeued timers do not have, what a batch takes out and what it leaves add up to the set before |
| `TimerRuns.RunKeepsInv` | sylar/timer.cc:31-113 | In every run of add, cancel, refresh, reset and expiry the set stays sorted, every timer in it has its callback and the last period it was given, and m_next is its last start time plus that period in 64-bit arithmetic |
| `TimerRuns.ResetKeepsStart` | sylar/timer.cc:75-98 | reset gives its timer the new period, counted from now or, whatever periods came before and even across wrap-around, from the start it had, and touches no other timer |
| `TimerRuns.NeverRevived` | sylar/timer.cc:43-98 | A cancelled or fired one-shot timer is in no later set, whatever refreshes, resets and batches follow |
| `TimerRuns.RecurringSpacing` | sylar/timer.cc:186-201 | Without reset or refresh the k-th firing of a recurring timer is no earlier than its creation plus k periods, and firings are at least a period apart |
| `TimerManagers.ComparatorIsStrictOrder` | sylar/timer.cc:11-30 | The comparator, null pointers included, is irreflexive and transitive, and ties only the same key and address |
| `TimerManagers.TimerManager.Find` | sylar/timer.cc:48-51 | A search by the comparator finds a timer exactly if it is in the set |
| `TimerManagers.TimerManager.Insert` | sylar/timer.cc:100-113 | Inserts at the ordered position and reports an insertion at the front exactly when it is one |
| `TimerManagers.TimerManager.AddTimer` | sylar/timer.cc:115-120 | A new object due one period from now joins the set; everything else stays |
| `TimerManagers.TimerManager.CancelTimer` | sylar/timer.cc:43-55 | Succeeds exactly if the timer still has its callback; then it is out of the set and empty |
| `TimerManagers.TimerManager.RefreshTimer` | sylar/timer.cc:57-73 | Succeeds exactly for a live timer, which keeps its period and is due one period from now; the others stay |
| `TimerManagers.TimerManager.ResetTimer` | sylar/timer.cc:75-98 | Succeeds exactly if nothing changes or the timer is in the set; then it has the new period and is due that much after now or after its old start; the others stay |
| `TimerManagers.TimerManager.TakeDue` | sylar/timer.cc:171-190 | Takes out the due prefix, or the head alone when the probe's address sorts before it |
| `TimerManagers.TimerManager.SettleAll` | sylar/timer.cc:192-205 | Collects the callbacks in order, puts recurring timers back and empties the others, so that being in the set and having a callback agree again |
| `TimerManagers.TimerManager.ListExpired` | sylar/timer.cc:155-206 | The batch's callbacks and the set afterwards are those of the specification, on the objects updated in place |
| `TimerManagers.TimerManager.GetNextTimeout` | sylar/timer.cc:138-153 | The largest value for an empty set, zero if the head is due, else the exact time to it, and no timer is earlier than the head |
| `EventTable.GrowKeeps` | sylar/iomanager.cc:67-78 | Growth ends with room for the fd and, if it grew, at most half again as many as fd; existing contexts stay, new ones are blank, agreement holds |
| `EventTable.GrowRound` | sylar/iomanager.cc:74-76 | Each round of the growth loop makes the vector larger and is on the way to the same final table |
| `EventTable.AddEventKeeps` | sylar/iomanager.cc:80-127 | add_event fails its assertion exactly for a bit already set; otherwise its epoll_ctl is legal, agreement holds whatever it answers, and success parks the continuation and counts it |
| `EventTable.AddEventExact` | sylar/iomanager.cc:106-127 | A successful add sets that bit and fills that slot with the continuation; the other slot of the fd, and every other fd, is as before or blank |
| `EventTable.LeaveKeeps` | sylar/iomanager.cc:149-169 | Removing registered events issues a legal MOD or DEL and keeps kernel mask, m_events, slots and pending count in agreement |
| `EventTable.CancelsKeep` | sylar/iomanager.cc:130-258 | del_event, cancel_event and cancel_all keep agreement, successful or not; cancel_all leaves the fd unregistered |
| `EventTable.CancelsExact` | sylar/iomanager.cc:130-258 | Each removal succeeds exactly if there is something registered to remove and epoll_ctl succeeds; then exactly those bits and slots are cleared, and exactly their continuations scheduled, none by del_event; otherwise nothing changes |
| `EventTable.ProcessReadyKeeps` | sylar/iomanager.cc:365-412 | Processing a report issues a legal MOD or DEL and keeps agreement, and fails triggerEvent's assertion exactly on a stale report with part of its events left |
| `EventTable.ReadyExact` | sylar/iomanager.cc:376-412 | Reading goes on exactly if it was waited for and the fd is readable or has failed, writing likewise; just those slots are cleared and their continuations scheduled, reading first; and when the assertion fails instead |
| `EventTable.ProcessReadyIs` | sylar/iomanager.cc:400-412 | Triggering READ and then WRITE comes to both leaving together, or to the failed assertion if either bit is missing |
| `EventTable.AddCancelRoundTrip` | sylar/iomanager.cc:172-212 | An event added and then cancelled gives its continuation back once and leaves the table as it was but for its size; a refused one leaves nothing |
| `EventTable.AddEventParks` | sylar/iomanager.cc:106-127 | A successful add parks exactly the given continuation |
| `EventTable.LeaveConserves` | sylar/iomanager.cc:450-466 | Whatever leaves the table by triggerEvent is scheduled once |
| `EventTable.CancelsConserve` | sylar/iomanager.cc:172-258 | cancel_event and cancel_all move continuations to the queue and lose none |
| `EventTable.ReadyConserves` | sylar/iomanager.cc:400-412 | So does readiness |
| `EventTable.DelEventDrops` | sylar/iomanager.cc:162-169 | del_event conserves continuations exactly unless the fd has the event, epoll_ctl succeeds, and its continuation counts for something |
| `EventTable.DelEventDropsWaiter` | sylar/iomanager.cc:162-169 | On a new manager a fiber parked by add_event is neither parked nor scheduled after del_event |
| `IoManagers.FdContext.TriggerEvent` | sylar/iomanager.cc:450-466 | Fails its assertion exactly for a bit that is not set; otherwise clears it, empties the slot and schedules its continuation, the callback before the fiber |
| `IoManagers.IoManager.ContextResize` | sylar/iomanager.cc:53-62 | Keeps the existing objects in place and fills the new slots with blank contexts numbered by position |
| `IoManagers.IoManager.ContextFor` | sylar/iomanager.cc:66-78 | The growth loop ends with the context of the fd, old or new |
| `IoManagers.IoManager.AddEvent` | sylar/iomanager.cc:64-128 | On the objects: the assertion, the return value and the whole table afterwards are those of the specification |
| `IoManagers.IoManager.DelEvent` | sylar/iomanager.cc:130-170 | Result and table as specified; nothing is scheduled |
| `IoManagers.IoManager.CancelEvent` | sylar/iomanager.cc:172-212 | Result, table and scheduled continuation as specified |
| `IoManagers.IoManager.CancelAll` | sylar/iomanager.cc:214-258 | Result, table and scheduled continuations, read before write, as specified |
| `IoManagers.IoManager.ProcessReady` | sylar/iomanager.cc:365-412 | Triggers READ and then WRITE on the object; its assertion fails exactly as specified, and otherwise table and scheduled continuations are as specified |
| `ReadyQueue.FirstEligible` | sylar/scheduler.cc:187-213 | The first entry neither pinned elsewhere nor an executing fiber |
| `ReadyQueue.TakeExact` | sylar/scheduler.cc:185-219 | The scan takes something whenever it may, never an executing fiber or another thread's task, and loses or duplicates nothing |
| `ReadyQueue.TakeByPosition` | sylar/scheduler.cc:185-227 | The scan takes the first entry that is unpinned or pinned to this thread and not an executing fiber, leaves the others in place, and asks for a tickle exactly if it passed a task pinned to another thread or left anything behind the one it took |
| `ReadyQueue.TakeIsFifo` | sylar/scheduler.cc:185-227 | An eligible head is taken first, the rest keeps its order, and a tickle is asked for exactly if something is left |
| `Schedulers.Scheduler.ScheduleNoLock` | sylar/scheduler.h:79-92 | Appends one entry and says whether the queue was empty |
| `Schedulers.Scheduler.Schedule` | sylar/scheduler.h:39-50 | One entry, and one tickle byte exactly if the queue was empty and a worker is idle |
| `Schedulers.Scheduler.ScheduleBatch` | sylar/scheduler.h:52-67 | All callbacks of the vector in order, each swapped out of it, and one tickle for the batch exactly if the queue was empty |
| `Schedulers.Scheduler.TakeNext` | sylar/scheduler.cc:185-227 | The scan loop takes that first entry, keeps the order of the others, and writes a byte exactly if a worker idles and it passed another thread's task or left entries behind |
| `Schedulers.Fiber.Reset` | sylar/fiber.cc:114-131 | From new or ended to new, with the given callback |
| `Schedulers.Fiber.SwapIn` | sylar/fiber.cc:149-165 | From not executing to executing; a new fiber begins its callback |
| `Schedulers.Fiber.RunUntilSwitch` | sylar/fiber.cc:205-249 | Returning ends the fiber and clears its callback, throwing ends it as an exception, yielding leaves it ready or on hold, and merely switching out leaves it executing |
| `Schedulers.Worker.Round` | sylar/scheduler.cc:178-320 | One round, with anything scheduled meanwhile: which fiber is switched in, once and no other, what callback it begins, in what state it is left, what is queued afterwards, which assertion trips and when, when the loop ends; the kept fiber is free again exactly unless its callback yielded ready |
| `Schedulers.Worker.RunFiber` | sylar/scheduler.cc:228-252 | An ended fiber is skipped; any other is switched in once and comes back queued again, on hold or ended |
| `Schedulers.Worker.TakeCallback` | sylar/scheduler.cc:273-290 | The callback gets the kept fiber or a new one; refused exactly if the kept one cannot be reset |
| `Schedulers.Worker.RunCallback` | sylar/scheduler.cc:273-303 | The callback is begun by the kept fiber or a new one, which afterwards is kept empty, given away on hold, or queued again still in the slot |
| `Schedulers.Worker.Idle` | sylar/scheduler.cc:305-320 | The loop ends exactly when the idle fiber has ended; otherwise it is switched in once, counted as idle so that work arriving at an empty queue writes a byte, and left ended or on hold |
| `Schedulers.Worker.Run` | sylar/scheduler.cc:178-322 | For any behaviour and any arrivals: each round takes from the queue the one before left; every fiber was switched in, and began callbacks, exactly as the rounds say; the kept fiber is free before every round up to the first callback that yields ready, so till then reset's assertion holds; the loop ends only with nothing to take and the idle fiber ended |
| `Schedulers.Worker.ReadyCallbackTrips` | sylar/scheduler.cc:280-293 | Two queued callbacks, the first yielding ready: whatever arrives meanwhile, the second round fails reset's assertion |
| `RuntimeTokens.StepTotal` | sylar/iomanager.cc:450-466 | Each step changes the number of references to a fiber only by what it visibly hands out or takes |
| `RuntimeTokens.StepKeepsLinear` | sylar/hook.cc:123-178 | Every step keeps exactly one reference for each fiber that must run again and none for any other |
| `RuntimeTokens.StepKeepsRuns` | sylar/scheduler.cc:228-249 | Every step keeps a fiber executing exactly when one worker, and one only, runs it |
| `RuntimeTokens.StepKeepsCounters` | sylar/scheduler.cc:232-316 | Every step keeps the active and idle counters equal to the workers inside a task and inside their idle fiber |
| `RuntimeTokens.TakenIsRunnable` | sylar/scheduler.cc:205-236 | What a scan takes is never executing nor ended |
| `RuntimeInvariant.StepKeepsTables` | sylar/iomanager.cc:64-424 | Every step keeps the timer set sorted and the event table in agreement |
| `RuntimeInvariant.StepKeepsCalls` | sylar/hook.cc:119-178 | Every step keeps each call in order with its owner, its raw results and its flag |
| `RuntimeInvariant.StepKeepsPlaces` | sylar/hook.cc:139-149 | Every step keeps timers, queue, hands and slots referring to the right calls and fibers, none of them early |
| `RuntimeInvariant.StepKeepsInv` | sylar/scheduler.cc:178-320 | Every step of every worker, timer, event and outside thread keeps the whole invariant |
| `RuntimeInvariant.StartKeeps` | sylar/iomanager.cc:14-38 | It holds for a started scheduler with any number of workers |
| `RuntimeTheorems.ReachedIsSound` | sylar/scheduler.cc:160-324 | Every reachable state satisfies the invariant, the idle and exit guarantees, and the accounting law |
| `RuntimeTheorems.WakeTokensAreLinear` | sylar/hook.cc:123-207 | In every reachable state a fiber that must run again is referred to from exactly one of queue, event slot, timer or hand, any other from none, and none runs on two workers |
| `RuntimeTheorems.FibersAreInOnePlace` | sylar/scheduler.cc:205-303 | Every fiber is referred to once, or executing without having handed itself out, or ended, and only one of these |
| `RuntimeTheorems.ResumedAtMostOnce` | sylar/fiber.cc:149-219 | A fiber's switches in never run ahead of its start and switches out: each suspension is resumed at most once |
| `RuntimeTheorems.SwapInIsLegal` | sylar/scheduler.cc:228-236 | Whatever any worker's next dispatch takes is new, ready or on hold, so swapIn's assertion never fails and no queued fiber is dropped as ended |
| `RuntimeTheorems.EndedStaysEnded` | sylar/fiber.cc:228-249 | A fiber that has ended stays as it is however the run goes on |
| `RuntimeTheorems.CountersAreExact` | sylar/scheduler.cc:232-316 | In every reachable state the counters are the numbers of workers inside a task and inside their idle fiber |
| `RuntimeTheorems.TablesAgree` | sylar/iomanager.cc:64-424 | In every reachable state the event table agrees with the kernel and the timers are strictly sorted |
| `RuntimeTheorems.TasksAreConserved` | sylar/scheduler.h:39-92 | In every reachable state each task was accepted as often as it is queued or was begun: a fiber by being switched in, an application callback by a fiber made for it, a callback of the runtime by being in a worker's hands or finished; and every fiber is in one place |
| `RuntimeTasks.StepKeepsTaken` | sylar/scheduler.cc:205-303 | Every step begins what it takes from the queue, as often as it takes it, and begins nothing else |
| `RuntimeTheorems.TimeoutsAreOwnAndNotEarly` | sylar/hook.cc:139-172 | A call ends as timed out only after one of its own timers fired and its timeout has passed since its first wait, even if a callback of an earlier retry flagged it |
| `RuntimeTheorems.CallsRefineBlocking` | sylar/hook.cc:123-178 | A connect sees one raw result, waits exactly on EINPROGRESS and returns exactly any other; a read goes on after EINTR and EAGAIN only, has waited exactly if it saw EAGAIN, and returns the first other result; otherwise a call ends on a result that made it wait, by timeout, refused event (read) or socket error (connect); once it has ended no timer of its own is set |
| `RuntimeTheorems.WokenTimesOutIffFlagged` | sylar/hook.cc:165-175 | Back from its wait a call times out exactly if flagged, else tries again or reads the socket error, and its timer is gone |
| `RuntimeTheorems.EndedCallIsFinal` | sylar/hook.cc:139-149 | However a run goes on, a call that has ended stays as it ended, and no worker starts to cancel an event on its behalf |
| `RuntimeHooks.RawResult` | sylar/hook.cc:125-150 | After a raw result the call has seen it; if it makes the call wait, that moment is its first wait if there was none, and with a timeout exactly one timer is added, due that much later and aimed at this call, fd and event |
| `RuntimeHooks.CallsEndBy` | sylar/hook.cc:126-177 | An unfinished call ends exactly by a step of its own fiber: a raw result that answers it, a refused event of a read, the flag seen after its wait, or the socket error of a connect |
| `RuntimeHooks.CallbackResult` | sylar/hook.cc:139-149 | A timeout callback flags exactly its own call and goes on to cancel that call's event, unless the call is over or flagged; a sleeper's callback queues the sleeper |
| `RuntimeHooks.SleepResult` | sylar/hook.cc:188-208 | A sleep adds exactly one timer, due that much later, that wakes this fiber |
| `RuntimeHooks.WaitersAreParked` | sylar/hook.cc:153-163 | A fiber suspended in a call is in the read slot of its fd for a read, in the write slot for a connect, or in the ready queue, and never in both |
| `RuntimeHooks.GoesOnBehindWait` | sylar/fiber.cc:149-165 | A fiber that a worker takes executes once more, behind what suspended it: a call looks at its flag, a sleep is over |
| `RuntimeHooks.ActionResult` | sylar/scheduler.h:39-92 | Posting appends just that task for just that thread; the event actions change the table and queue as the table's operations say and nothing else |
| `RuntimeHooks.TimerActionResult` | sylar/timer.cc:43-113 | An added timer is due its period from now, a cancelled one is gone, a refreshed or reset one has its new key and period, and no other is touched |
| `RuntimeTheorems.SleepersAreNotEarly` | sylar/hook.cc:188-208 | A sleeping fiber is taken from the queue no earlier than its wake-up time |
| `RuntimeTheorems.NobodyOversleeps` | sylar/iomanager.cc:302-326 | While an idle fiber is alive, a tickle byte is unread, or a worker is awake or waits no longer than until the earliest timer; no wait exceeds 5000 ms |
| `RuntimeWakes.WorkIsAttended` | sylar/scheduler.cc:178-227 | Until stop, if anything is queued a tickle byte is unread or some worker is awake and will look before it waits; with one worker, if nothing is pinned to another thread |
| `RuntimeWakes.NoneMissedIffSeveral` | sylar/scheduler.h:79-92 | Whatever is pinned, no run leaves queued work unattended exactly if there are two workers or more |
| `RuntimeWakes.ExpiryHandsOut` | sylar/timer.cc:192-205 | A batch hands the worker the callback of every timer that fired, in order, application timers included |
| `RuntimeWakes.HandIsQueued` | sylar/iomanager.cc:341-346 | And all of them are queued behind what is there, in order, for any worker |
| `RuntimeTheorems.ExitIsClean` | sylar/iomanager.cc:276-310 | When every worker has exited and nobody outside acted after stop, nothing is queued, timed or pending, every fiber has ended and no hooked call is unfinished |
| `RuntimeExit.IdleEndsIff` | sylar/iomanager.cc:276-310 | In every reachable state the check of an idle fiber ends it exactly if stop was called, nothing is queued, timed or pending and no worker is inside a fiber or callback; otherwise it goes on to wait |
| `RuntimeExit.ExitsIff` | sylar/scheduler.cc:305-310 | A worker leaves its loop exactly if there is nothing it may take and its idle fiber has ended |
| `RuntimeExit.PoolExits` | sylar/scheduler.cc:305-322 | From any stopped state with nothing left, of any number of workers, all of them can exit without anybody acting from outside |
| `OrdinaryRun.AllGoesWell` | sylar/hook.cc:118-333 | Pools of every size have a run in which a fiber sleeps, a read is interrupted, blocked and answered, a connect waits and succeeds, and after stop every worker exits |
| `RuntimeProgress.WorkersGoOn` | sylar/scheduler.cc:178-320 | In every reachable state a worker has a step to take exactly unless it has exited, its fiber is about to add an event that is there already, or its clock ends |
| `RuntimeIdle.StepWatched` | sylar/timer.cc:100-113 | Every way timers change while a worker idles leaves a byte unread or no timer earlier than before |
| `RuntimeIdle.WaitInTime` | sylar/iomanager.cc:302-326 | The computed wait is exactly the time to the earliest timer, zero if due, capped at 5000 ms |
| `RuntimeIdle.StepKeepsWatch` | sylar/iomanager.cc:266-326 | Every step keeps somebody watching the timers |
| `RuntimeIdle.StepKeepsExit` | sylar/iomanager.cc:276-310 | Once every idle fiber has ended all is quiet and stays quiet, unless somebody outside acts after stop |
| `RuntimeIdle.StepAccounts` | sylar/scheduler.h:39-92 | Counted by any weight, every step keeps what was accepted equal to what is queued plus what was taken out |
| `RuntimeTimeouts.TimeoutsAreOnTheirWay` | sylar/hook.cc:138-149 | In every reachable state of any number of workers, a call that has set its timer and not been flagged has its callback on a timer, in a hand or queued |
| `RuntimeTimeouts.StepKeepsCirculates` | sylar/iomanager.cc:338-346 | No step loses such a callback |
| `RuntimeDelivery.TimeoutsAreDelivered` | sylar/hook.cc:139-172 | With one worker and no failed cancel, the fiber of a flagged call whose cancel is done is in the ready queue |
| `RuntimeDelivery.StepKeepsAlone` | sylar/hook.cc:139-163 | With one worker a call is flagged only behind its wait, and is parked only while the cancel is still to come |
| `LostTimeout.TimeoutCanBeLost` | sylar/hook.cc:138-163 | For any two or more workers a run, from the start and with every epoll_ctl succeeding, after which a flagged call is suspended with no cancel to come, and no timer, task or callback anywhere |
| `LostTimeout.NoneLostIffAlone` | sylar/hook.cc:138-172 | While no cancel fails, no run reaches a state, busy or not, in which a flagged call is parked and no worker is about to cancel it, exactly if there is one worker |
| `FailedCancel.FailureLosesTimeout` | sylar/hook.cc:139-149 | With any number of workers a run with one failing epoll_ctl in a timeout callback loses a timeout, so that condition is needed |
| `StaleReport.StaleReportAborts` | sylar/iomanager.cc:365-412 | With any number of workers a run, nothing failing, to a report whose processing fails triggerEvent's assertion |
| `BlockingIo.Hooks.DoIo` | sylar/hook.cc:118-178 | Over real timers and a real event table: every EAGAIN makes one wait and nothing else does; ends with the first settling raw result, or by timeout exactly if an own timer fired and a callback got to run, not early, or at the first refused event; each accepted wait parked and scheduled the fiber once; timers, clock and flag are those of the waits, and no own timer is set |
| `BlockingIo.Hooks.TryRaw` | sylar/hook.cc:125-129 | Repeats the raw call only while it is interrupted and returns the first other result |
| `BlockingIo.Hooks.WaitOnce` | sylar/hook.cc:138-168 | Exactly one timer if there is a timeout, one add_event, and if that is accepted one suspension, scheduled once; the timer is cancelled in every case, the flag set exactly if a callback that left the timers got to run, and the event table is as before |
| `BlockingIo.Hooks.YieldToHold` | sylar/hook.cc:162-164 | While switched out: the timers expire, a callback that fired sets the flag if it runs, and the event leaves the table and schedules the fiber |
| `BlockingIo.Hooks.Attempt` | sylar/hook.cc:123-177 | One round of the retry loop either ends the call or leaves it with as many accepted waits as there were EAGAINs |
| `BlockingIo.FlaggedIff` | sylar/hook.cc:139-169 | Over any number of waits, the flag is set exactly if a timer of the call's own fired in one of them and a callback got to run in that one or a later one |
| `BlockingIo.Hooks.Connect` | sylar/hook.cc:274-333 | One raw call and at most one wait; with an accepted event times out exactly if flagged, else the socket error alone decides, 0 meaning success, after a refused event too; one timer, no longer set |
| `BlockingIo.Hooks.Sleep` | sylar/hook.cc:188-208 | Sets one timer for this fiber, due never later than asked for, and exactly then up to 4294967 seconds |
| `BlockingIo.SleepIsFull` | sylar/hook.cc:201-201 | The 32-bit product is the asked time exactly up to 4294967 seconds, and below it by a multiple of 2^32 otherwise; the next value gives 704 ms |
| `BlockingIo.UsleepIsFull` | sylar/hook.cc:218-218 | Whole milliseconds only: too short, by under one, exactly if the time is not a multiple |
| `LogPattern.LosslessIff` | sylar/log.cc:484-559 | Printing the scanned items gives the pattern back exactly if every directive that opens a brace closes it after at least one letter |
| `LogPattern.PrintedBack` | sylar/log.cc:489-559 | Without unclosed braces and empty formats, items printed so far plus pending text are the consumed prefix, `%%` included |
| `LogPattern.PrintedLength` | sylar/log.cc:489-559 | In general the printed form is 16 characters longer for each unclosed brace and 2 shorter for each empty format |
| `LogPattern.WellFormedIff` | sylar/log.cc:507-527 | The scan meets no error and no empty format exactly if the pattern is well formed, position by position |
| `LogPattern.HeadIsMaximal` | sylar/log.cc:501-528 | A name is as many letters and closing braces as there are, a format letters and opening braces; and where an unclosed brace is given up |
| `LogPattern.RoundTrip` | sylar/log.cc:484-559 | Canonical lists of texts and directives are recovered exactly from their printed form |
| `LogPattern.DoublePercent` | sylar/log.cc:494-499 | Two percent signs scan as a text percent sign followed by the directive the second one opens |
| `LogFormatters.LogFormatter.Init` | sylar/log.cc:484-604 | One item for each scanned piece, in order: literal text as it is, a known directive with its name and format, an unknown one marked by name; flagged exactly for an unclosed brace or an unknown name |
| `LogFormatters.LogFormatter.ScanPattern` | sylar/log.cc:489-559 | The outer index loop computes the specified items and flags exactly the unclosed braces |
| `LogFormatters.LogFormatter.ScanHead` | sylar/log.cc:501-528 | The inner status loop reads a bare name, a name with a closed format, or an unclosed brace, and stops where the specification says |

## Left out

- RuntimeTheorems.ExitIsClean: popping a task and counting the worker as active are one step, and `stopping` reads timers, pending count, queue and active count at once; the code reads them one after another (sylar/scheduler.cc:213-234, sylar/iomanager.cc:276-284).
- RuntimeTheorems.NobodyOversleeps: EINTR inside epoll_wait is not modelled; the retry does not recompute the timeout (sylar/iomanager.cc:315-330). The scan that finds nothing and `++m_idle_thread_count` are one step.
- RuntimeTheorems.WakeTokensAreLinear: assumes that `del_event` is not used on an event a fiber waits for, since that drops the fiber (`EventTable.DelEventDrops`), and that an application schedules only fibers it creates, once.
- RuntimeTheorems.SwapInIsLegal: in the step system a callback does not yield ready before it has been suspended once and so given its fiber away; `Schedulers.Worker.ReadyCallbackTrips` shows what happens if one does.
- RuntimeTheorems.TimeoutsAreOwnAndNotEarly: the clock is monotone and now plus a timeout does not wrap.
- RuntimeDelivery.TimeoutsAreDelivered: no epoll_ctl fails inside a timeout callback; `FailedCancel.FailureLosesTimeout` shows that this is needed.
- TimerSet.ExpireExact: one batch is one step, although `add_timer(timer, lock)` unlocks inside the loop (sylar/timer.cc:106, 201); a set that empties between the two locks (sylar/timer.cc:169-171) is not modelled.
- EventTable.CancelsKeep: `del_event`, `cancel_event` and `cancel_all` are atomic for one fd, although they copy the fd's mutex instead of locking it (sylar/iomanager.cc:141, 183, 225).
- IoManagers.IoManager.EpollCtl: a call the kernel would refuse for the fd's registration state is a violated precondition; the callers are proved never to make one. Other failures are arbitrary.
- BlockingIo.Hooks.DoIo: the retry as one fiber of many, and other waiters on the same fd, are in `Runtime`; here the event is always accepted or refused, and what switches the fiber back in is a script. It assumes the hook is enabled, a socket in blocking mode with an initialised context, and calls that wait for READ, as do_io always does (sylar/hook.cc:148-153).
- BlockingIo.Hooks.Sleep: the conversion of `nanosleep` through a double is not modelled.
- Schedulers.Worker.Round: other threads add to the queue while the fiber runs, but what they take from it is in `Runtime`, not here; nobody else may queue the fiber kept for callbacks. In `Runtime` each callback runs in a fiber of its own; the reuse of one fiber is here.
- LogFormatters.LogFormatter.Init: what the items print, and dates with formats of other characters than letters, which the scanner reports as errors.
- Setting a fiber's state and switching it out is one step, with the worker's bookkeeping after the switch (sylar/fiber.cc:217-218, sylar/scheduler.cc:236-249).
- `use_caller` mode and termination of `stop`: the root fiber runs before `m_stopping` is set (sylar/scheduler.cc:114-121).
- RuntimeWakes.WorkIsAttended: finding nothing and counting the worker as idle are one step; in the code a submission between the two writes no tickle byte (sylar/scheduler.cc:219-315), so there only the 5000 ms cap holds. After stop it is not stated.
- RuntimeProgress.WorkersGoOn: a report may be processed with epoll_ctl failing; with it succeeding, a stale one ends the process (`StaleReport.StaleReportAborts`).
- Null fibers and callbacks in the queue, which the worker drains as idle rounds.
- Contexts, stacks, threads, epoll, the pipe and dlsym themselves: the kernel is an interest map with arbitrary readiness, raw calls have arbitrary results.
- `detect_clock_rollover`, the fd manager, the fcntl, ioctl and setsockopt wrappers, addresses, the rest of logging and the configuration registry: thin members or library glue.
