# TaskSchedX: a verified model of the scheduler

TaskSchedX runs tasks at their start times, by priority, on a pool of worker threads. A task wanders between a
client, a priority queue, the scheduler thread, the FIFO of the pool and a worker, while `cancelTask`, the two
registries, the statistics and `stop()` cut across that traffic. This project models the whole of it and proves
what every interleaving keeps, for any number of tasks, clients and workers.

## How it is built

* `TaskIds`, `Tasks`: the decimal id printer with its inverse, the ordering key, the time-out test, and the mutable
  `Task` object.
* `TaskQueues`: class `TaskQueue`, a binary heap over shared mutable tasks, with cancellation by drain and rebuild.
* `PoolModel`, `ThreadPools`: the worker pool as a state machine (mutex, condition variable, spurious wake-ups, stop
  flag stored outside the lock) and class `ThreadPool`, whose methods are the atomic pieces of the program.
* `Lifecycle`: the life of one task as events on a token: the task object, its entries in `activeTasks` and
  `completedTasks`, the place that holds it, and the history of its starts, ends and outcomes.
* `Protocol`: the whole system. One step is one critical section or one atomic access of one thread. `Run` applies any
  sequence of steps; a step that is not enabled leaves the state alone, so every schedule is covered.
* `Ownership`, `Simulation`, `Invariant`: each task has one token in one place; every system step is at most one event
  of each task; the invariant of all reachable states.
* `Accounting`, `Totals`, `Registry`, `Ordering`: conservation laws, exact statistics, registry coverage, dispatch
  order.
* `Journals`, `Cancellations`: what is done about a task besides running it: where a cancellation found it, the calls of
  the completion callback, the records in `completedTasks`, the reschedulings.
* `Restarts`, `Repushes`, `Endings`, `Progress`: exactly when a task can still be started or pushed again, before and
  after its cancellation, and what becomes of it. The possible side of each is a schedule built by a lemma.
* `Shutdown`, `Stops`: exactly what `stop()` still lets happen, and exactly when it can return.
* `SoloCalls`: `scheduleTask` and `cancelTask` when no other thread comes between their steps.
* `Witnesses`: schedules from the initial state that reach the surprising states named below.
* `Properties`: the main results, each for every reachable state or every run.
* `TaskSchedulers`: class `TaskScheduler`, the program's object with its registries, queue, pool and threads. Each
  method is one atomic piece of a member function. `TaskScheduler.Run` executes an arbitrary schedule and keeps
  `Reachable(View())`, so every result about reachable states holds of the object.

The tokens of `TaskScheduler` are ghost: `Valid()` ties each of them to the task object and to the registries, and
requires the heap order over the current keys, so `Run` also shows that no interleaving breaks the heap by mutating a
shared task.

Times are integer ticks of one nanosecond; `interval` is `repeatEvery` in ticks and `timeout` is in whole seconds. The system clock (start
times) and the steady clock (durations) are two readings that never go back and need not advance together. How a user's
task ends (it returns or throws, after any time) and whether a completion callback throws are choices of the
environment. Clients cancel ids that `scheduleTask` has returned, or texts that are no task ids. One thread calls
`start()` and `stop()`. Atomic accesses are sequentially consistent.

## Where the code and its documentation differ

* The feature list promises that tasks are cancelled before execution. A task whose cancellation succeeds can still be
  started once, exactly from the scheduler's status test (line 282 of `src/TaskScheduler.cpp`) up to the call of the task
  function, as long as the pool can hand it over (`CancellationBound`, `RestartsExactly`; `CancelledYetToRun` reaches
  such a state).
* `src/TaskScheduler.cpp:113` says that cancelled tasks are not rescheduled. A repeatable task can still be pushed again
  once after its cancellation: when it was cancelled after the test of line 322, and also when it was cancelled between
  the test of line 282 and line 287, which overwrites CANCELLED with RUNNING (`RepushBound`, `RepushesExactly`,
  `CancelledYetToRun`). Such a push is in vain: the task stays queued, is thrown away at its look-up, or is dropped by a
  second cancellation, and is not started again (`PushedInVain`).
* A task is reported as timed out only when a full second more than its limit has passed, since elapsed time is cut
  down to whole seconds before the comparison of line 514 (`Verdicts`, `TimeoutIsCoarse`, `OverLimitNotReported`). It is
  never aborted.
* `stop()` promises that no new task is started. After `isRunning` is cleared one more task is dispatched exactly when
  the scheduler thread has one to go on with (`DispatchesExactly`, `DispatchedAfterStop`); after the stop flag of the
  pool is set one more job is taken exactly when a worker is already bound to take it (`JobsExactly`, `TakenAfterStop`);
  after `stop()` has returned the promise holds for ever (`NothingRunsAfterStop`). Jobs that it throws away keep the
  status RUNNING (`DiscardedStaysRunning`).
* `stop()` promises to wake all workers and to wait until they are gone. The stop flag is stored without the mutex of
  the wait, so a worker that has read the flag before and blocks after `notify_all` is not woken: then `stop()` never
  returns without a spurious wake-up, and in every other case it can (`StopReturnsExactly`, `StopHangs`).
* A completion callback that throws inside the try block leads into the catch branch, which counts the execution a
  second time; one that throws inside the catch branch leaves the task in `activeTasks` until a client cancels it
  (`CallbackThrowsTwice`, `EscapedUntilCancelled`, `SearchRemoves`). The counting laws and the outcome language name
  exactly this excess.
* The status is RUNNING already while the job waits in the pool (`StatusAgreesWithPosition`).

## Model

| member | source | states |
|---|---|---|
| TaskIds.Printed | src/Task.cpp:250-260 | an id is "task_" and the decimal digits of the counter, zero-padded to six and never cut off |
| TaskIds.RoundTrip | src/Task.cpp:250-260 | parsing a printed id gives back the counter, for every value, also beyond six digits |
| TaskIds.Canonical | src/Task.cpp:250-260 | every text the parser accepts is exactly the printed form of its value |
| TaskIds.Injective | src/TaskScheduler.cpp:80 | two counters print the same registry key iff they are equal |
| Tasks.TimeoutIsCoarse | src/TaskScheduler.cpp:503-514 | a run times out iff a limit is set and at least limit + 1 whole seconds passed |
| Tasks.OverLimitNotReported | src/TaskScheduler.cpp:512-514 | for every limit there is a run longer than the limit that is not a time-out |
| Tasks.Task.constructor | src/Task.cpp:41-51 | a new task is PENDING with the given key and its own id |
| Tasks.Task.Reschedule | src/Task.cpp:182-184 | only the start time changes, to one interval after now |
| Tasks.Task.SetStatus | src/Task.cpp:218-220 | only the status changes |
| TaskQueues.AfterIsStrictWeakOrder | src/Task.cpp:233-240 | operator> compares priority numbers, then start times; it is irreflexive, asymmetric, transitive, with transitive incomparability |
| TaskQueues.RootIsLeast | include/TaskQueue.h:10-14 | in heap order no task stands before the root |
| TaskQueues.TaskQueue.Push | src/TaskQueue.cpp:15-17 | heap order is kept and exactly the task is added |
| TaskQueues.TaskQueue.SiftUp | src/TaskQueue.cpp:15-17 | repairs a heap whose last element is misplaced, rearranging only |
| TaskQueues.TaskQueue.SiftDown | src/TaskQueue.cpp:30-34 | repairs a heap whose root is misplaced, rearranging only |
| TaskQueues.TaskQueue.Pop | src/TaskQueue.cpp:30-34 | heap order is kept, exactly the result is removed, and no queued task has a smaller priority number, nor the same and an earlier start time |
| TaskQueues.TaskQueue.PopAll | src/TaskQueue.cpp:71-74 | repeated pops end, and yield a rearrangement of the contents that ascends in priority number, then in start time |
| TaskQueues.TaskQueue.Clear | src/TaskQueue.cpp:117-123 | the queue ends empty |
| TaskQueues.TaskQueue.ExtractOthers | src/TaskQueue.cpp:71-85 | the draining loop ends, keeps exactly the other tasks, and marks exactly the matching ones |
| TaskQueues.TaskQueue.CancelTask | src/TaskQueue.cpp:62-93 | cancelling filters: heap order, the old contents without the id, exactly those CANCELLED, true iff one matched |
| TaskQueues.OthersRearranged | src/TaskQueue.cpp:71-85 | filtering does not depend on the order in which the heap is drained |
| TaskQueues.SortedIsUnique | src/TaskQueue.cpp:30-34 | contents have one sorted key sequence, so drains are determined up to equal keys |
| TaskQueues.DrainAfterCancel | src/TaskQueue.cpp:62-93 | any drain after a cancellation yields the keys of any drain before it, without the matching tasks |
| PoolModel.StepKeepsInv | src/ThreadPool.cpp:125-154 | mutual exclusion, stop, FIFO and wake-up invariants are kept by every atomic step |
| PoolModel.NoJobLeftBehind | src/ThreadPool.cpp:80-87 | while the pool runs and a worker sleeps, queued jobs <= pending notifies + awake idle workers; never all asleep with a job and no notify due |
| PoolModel.FifoAndCapacity | src/ThreadPool.cpp:80-143 | dequeued is a prefix of enqueued, dequeued ++ queued = enqueued until the discard, and at most numThreads jobs run |
| PoolModel.StopBudget | src/ThreadPool.cpp:97-143 | after the stop flag is set at most one more job is taken, under any schedule |
| PoolModel.StoppedForGood | src/ThreadPool.cpp:97-113 | once stop() has returned every worker is gone and no job is ever taken again |
| ThreadPools.ThreadPool.constructor | src/ThreadPool.cpp:25-55 | numThreads workers about to enter their loop, empty queue |
| ThreadPools.ThreadPool.Discard | src/ThreadPool.cpp:107-112 | the drain loop throws away exactly the queued jobs |
| ThreadPools.ThreadPool.Do | src/ThreadPool.cpp:80-154 | each atomic piece of enqueueTask, workerLoop and stop, enabled exactly when the model's step is, makes the model's step and nothing else |
| ThreadPools.ThreadPool.Run | src/ThreadPool.cpp:80-154 | under any schedule the object is in the state the model computes, and keeps the invariant |
| Lifecycle.EventKeepsStatus | src/TaskScheduler.cpp:320-353 | in activeTasks the status stays a function of the position |
| Lifecycle.EventKeepsOutcome | src/TaskScheduler.cpp:369-409 | one outcome for each decided execution; a final outcome leads nowhere but out |
| Lifecycle.EventKeepsTruth | src/TaskScheduler.cpp:577-590 | what completedTasks records has happened |
| Lifecycle.EventKeepsVerdict | src/TaskScheduler.cpp:501-532 | every decided outcome is what the steady clock and the task function make it |
| Lifecycle.EventKeepsReentry | src/TaskScheduler.cpp:369-408 | a callback throws into the catch branch only after a success or a time-out, and adds one failure |
| Lifecycle.EventKeepsPace | src/TaskScheduler.cpp:335-344 | each start is at least one interval after the end before it |
| Simulation.StepIsEvent | src/TaskScheduler.cpp:224-409 | every step of any thread is, for each task, nothing or one event of its life cycle |
| Invariant.NextKeepsInv | src/TaskScheduler.cpp:70-431 | every enabled step keeps the whole invariant and moves each task only forward |
| Invariant.RunKeepsInv | src/TaskScheduler.cpp:70-431 | so does every run |
| Journals.EventKeepsFound | src/TaskScheduler.cpp:320-324 | an execution is ignored as cancelled iff a search found the task while it awaited the test |
| Journals.WorkKeepsAnnounced | src/TaskScheduler.cpp:577-584 | a worker calls the callback once for each outcome, with its status |
| Journals.WorkKeepsRecorded | src/TaskScheduler.cpp:586-589 | a worker records each call that returned, and the entry is the last record |
| Journals.StaysHopeless | src/TaskScheduler.cpp:320-353 | an execution that has failed, is too late or will be seen cancelled leads to no completion and no push |
| Cancellations.StepKeepsCallsAddUp | src/TaskScheduler.cpp:141-144 | each success of cancelTask calls the callback once, and records once unless it throws |
| Properties.SingleOwnership | src/TaskScheduler.cpp:242-289 | no task is in two places at once, nor twice in one |
| Properties.NoTaskLost | src/TaskScheduler.cpp:242-344 | a task is held somewhere iff it has not reached a final place, where it then stays |
| Properties.StartsAtMostOnce | src/TaskScheduler.cpp:335-344 | a non-repeatable task starts at most once in any run |
| Properties.ThreadsAreSafe | src/TaskScheduler.cpp:209-242 | pop never meets an empty queue and start() never replaces a live thread |
| Properties.SchedulerLives | src/TaskScheduler.cpp:228-259 | while isRunning is set the scheduler thread is in its loop |
| Properties.ScheduleAlone | src/TaskScheduler.cpp:70-101 | without interference a scheduleTask call adds exactly one task, as asked for, active, PENDING and queued, under a new id |
| Properties.IdsAreNumbered | src/Task.cpp:250-251 | the ids in use are exactly those printed for the counter values from 1 up to the last one |
| Properties.StartsExactly | src/TaskScheduler.cpp:224-353 | while no stop() is under way and the pool has a worker, a task can be started (again) in some run iff it is still to be started, or is repeatable and will be pushed again; once cancelled, iff it is past the status test |
| Properties.DueTasksStart | src/TaskScheduler.cpp:246-289 | with all queued tasks due, any active one of them can be started before any time passes |
| Progress.ReachesHand | src/TaskScheduler.cpp:228-289 | from any point of the loop some schedule brings a queued task into the hand of the scheduler thread, past all that stand before it |
| Progress.StaysThrough | src/TaskScheduler.cpp:320-408 | a task that was started and will not be pushed again is never started again |
| Properties.CancellationBound | src/TaskScheduler.cpp:116-129 | an id that left activeTasks never re-enters, and starts at most StartsLeft (0 or 1) more times |
| Properties.RestartsExactly | src/TaskScheduler.cpp:282-289 | a task that left activeTasks can start again in some run iff its token is between the status test and the call of the task function and the pool can still hand it over, also while the pool stops |
| Restarts.ReachesTaken | src/TaskScheduler.cpp:287-374 | from there some schedule brings it to a worker, whatever the other workers and queued jobs are |
| Restarts.BecomesReady | src/TaskScheduler.cpp:369-409 | a busy worker can always end its job and return to its loop, past a held queue mutex |
| Restarts.StaysDoomed | src/ThreadPool.cpp:131-143 | once the pool cannot hand the task over, no schedule starts it |
| Properties.RepushBound | src/TaskScheduler.cpp:320-347 | a task that left activeTasks is pushed again at most PushesLeft (0 or 1) more times |
| Properties.RepushesExactly | src/TaskScheduler.cpp:282-347 | it can be pushed again in some run iff it is repeatable, past the status test and before the push, no status test or time-out can stop it any more, and the pool can hand it over if it has not started |
| Repushes.PushesBack | src/TaskScheduler.cpp:320-347 | from a worker some schedule leads to the push, past a held queue mutex |
| Properties.PushedInVain | src/TaskScheduler.cpp:270-284 | a task pushed after its cancellation stays queued, is thrown away at its look-up or dropped, and is not started |
| Properties.CancelMarks | src/TaskScheduler.cpp:123-125 | the search in activeTasks makes the task that it finds CANCELLED, wherever it is, and removes it |
| Properties.CancelledInTime | src/TaskScheduler.cpp:322-324 | a task found between the store of RUNNING and the test after its execution is neither completed nor pushed again in any run |
| Properties.CancelAlone | src/TaskScheduler.cpp:116-150 | without interference cancelTask cancels, counts, records and reports a task that is active, or else one that is queued; otherwise nothing changes |
| Properties.EscapedUntilCancelled | src/TaskScheduler.cpp:379-408 | a task whose callback threw in the catch branch stays in activeTasks through every run without a cancellation of it |
| Endings.SearchRemoves | src/TaskScheduler.cpp:120-129 | the search of a cancelTask call removes it |
| Witnesses.CancelledYetToRun | src/TaskScheduler.cpp:120-129 | a run from the start to a cancelled task that can still be started and pushed again |
| Witnesses.DispatchedAfterStop | src/TaskScheduler.cpp:423 | a run in which isRunning is cleared and a task dispatched after that |
| Witnesses.TakenAfterStop | src/ThreadPool.cpp:99-143 | a run in which the stop flag is set and a job taken after that |
| Witnesses.DiscardedStaysRunning | src/ThreadPool.cpp:107-112 | a run in which stop() returns and a discarded job is still reported RUNNING |
| Witnesses.StopHangs | src/ThreadPool.cpp:99-135 | a run in which stop() has notified the workers and one of them is about to sleep |
| Witnesses.CallbackThrowsTwice | src/TaskScheduler.cpp:577-584 | a run in which one execution is counted COMPLETED and FAILED and its task stays in activeTasks |
| Properties.LeavesActiveOnce | src/TaskScheduler.cpp:120-129 | leaving activeTasks is leaving it for good |
| Properties.CancelSucceedsTwiceAtMost | src/TaskScheduler.cpp:116-150 | at most one success in each search, and in the queue only after one in activeTasks |
| Properties.CancelledStatistics | src/TaskScheduler.cpp:141-144 | tasksCancelled <= 2 * the number of tasks cancelled |
| Properties.StatusAgreesWithPosition | src/TaskScheduler.cpp:172-180 | an active task's status is determined by where its token is, and is never CANCELLED |
| Properties.RegistryCoverage | src/TaskScheduler.cpp:172-192 | a returned id is active, recorded with a terminal status, or between the erase and the record of a cancelTask call; a throwing callback is the only exception |
| Properties.RecordsAreTruthful | src/TaskScheduler.cpp:577-590 | a recorded status has happened; a task never cancelled keeps the status of its last execution |
| Properties.CancelIsReported | src/TaskScheduler.cpp:586-589 | after cancelTask has made its record, getTaskStatus answers CANCELLED whatever was recorded before |
| Properties.CallbacksExactly | src/TaskScheduler.cpp:577-584 | the callback is called once for each outcome of an execution, in order, and once for each success of cancelTask |
| Properties.RecordsExactly | src/TaskScheduler.cpp:586-589 | each call of the callback that returns is recorded once, and completedTasks holds the last record, cancelled tasks included |
| Properties.AnswersExplained | src/TaskScheduler.cpp:172-192 | each answer about a returned id is so or has been so; COMPLETED also during a cancellation, or after a callback has thrown in one |
| Properties.UnknownIsCompleted | src/TaskScheduler.cpp:188-191 | the answer for a text that is no id of a task is COMPLETED |
| Properties.OutcomeLanguage | src/TaskScheduler.cpp:320-409 | outcomes are COMPLETED* then at most one other, at most one without repetition, plus one FAILED at the end if a callback threw after a success or a time-out; nothing runs after a final one |
| Properties.Verdicts | src/TaskScheduler.cpp:501-532 | for every execution of every run: FAILED iff the function threw; TIMEOUT iff it returned, a limit is set and the steady clock showed at least limit + 1 seconds; otherwise ignored as cancelled iff cancelTask found it between line 287 and line 322, and COMPLETED if not |
| Properties.StartTimesExactly | src/TaskScheduler.cpp:335-344 | the start time is the one asked for until the first rescheduling, then the clock at the last one plus the interval; one rescheduling for each further push, after the end of an execution |
| Properties.RepeatPacing | src/TaskScheduler.cpp:335-344 | start n is no earlier than startTime + (n - 1) intervals, and executions of one task never overlap |
| Properties.StartsUpTo | src/TaskScheduler.cpp:335-344 | the starts up to time T number at most (T - startTime) / interval + 1 |
| Properties.QueuedKeysAreStable | src/TaskScheduler.cpp:338-344 | no step changes the key of a task that stays in the queue |
| Properties.NoInversion | src/TaskScheduler.cpp:242-289 | of two tasks queued together the one with the smaller priority number, or the same and the earlier start time, leaves first, and a worker takes it first if both are dispatched |
| Properties.Conservation | src/TaskScheduler.cpp:282-353 | pushes = queued + in hand + skipped + dropped + dispatched; dispatched = taken + discarded + in the pool; taken = counted + ignored + not yet counted, up to re-entered catch branches |
| Properties.StatisticsAreExact | src/TaskScheduler.cpp:543-564 | each counter equals the number of such outcomes of all tasks, minus threads just before the increment |
| Properties.AtMostOneMoreDispatch | src/TaskScheduler.cpp:420-431 | after isRunning is cleared, until the next start(), at most one more task is dispatched, and none unless the scheduler thread has one to go on with |
| Properties.DispatchesExactly | src/TaskScheduler.cpp:228-289 | one more task can then be dispatched iff the scheduler thread holds a task that it will not skip, or is about to pop with an active task among the least |
| Properties.AtMostOneMoreJob | src/ThreadPool.cpp:97-143 | after the stop flag is set at most one more job is taken, and none unless a worker is bound to take it |
| Properties.JobsExactly | src/ThreadPool.cpp:138-143 | one more job can then be taken iff a worker has read the flag before and is about to take the front job |
| Properties.NothingRunsAfterStop | src/TaskScheduler.cpp:420-431 | once stop() has returned no worker holds a job and no execution ever begins again, even after a later start() |
| Properties.StopReturnsExactly | src/ThreadPool.cpp:97-143 | a stop() under way can return without a spurious wake-up iff it has not yet notified the workers, or none of them sleeps or is about to sleep |
| Stops.AllLeave | src/ThreadPool.cpp:125-154 | some schedule leads every worker that is awake out of its loop, whatever job it has |
| Stops.StaysHung | src/ThreadPool.cpp:99-143 | no schedule without spurious wake-ups frees a stop() that waits for a worker asleep |
| Stops.EndsLoop | src/TaskScheduler.cpp:420-431 | with isRunning cleared some schedule ends the scheduler loop, whatever it is doing |
| TaskSchedulers.TaskScheduler.constructor | src/TaskScheduler.cpp:19-21 | the initial state of the model |
| TaskSchedulers.TaskScheduler.CreateTask | src/TaskScheduler.cpp:74-75 | the new task with a fresh id |
| TaskSchedulers.TaskScheduler.InsertIntoActive | src/TaskScheduler.cpp:78-81 | the registry entry |
| TaskSchedulers.TaskScheduler.PushNewTask | src/TaskScheduler.cpp:84-87 | the push under the queue mutex |
| TaskSchedulers.TaskScheduler.CountScheduledTask | src/TaskScheduler.cpp:90-93 | the statistics of scheduleTask |
| TaskSchedulers.TaskScheduler.SearchActive | src/TaskScheduler.cpp:120-129 | find, mark and erase in one critical section |
| TaskSchedulers.TaskScheduler.SearchQueue | src/TaskScheduler.cpp:133-139 | the queue search after a miss in activeTasks |
| TaskSchedulers.TaskScheduler.CancelCallBack | src/TaskScheduler.cpp:579-584 | an exception of the callback leaves cancelTask before the record |
| TaskSchedulers.TaskScheduler.RecordCancelled | src/TaskScheduler.cpp:586-589 | CANCELLED is recorded |
| TaskSchedulers.TaskScheduler.ReadStatus | src/TaskScheduler.cpp:172-192 | active status, else recorded status, else COMPLETED |
| TaskSchedulers.TaskScheduler.PopNextTask | src/TaskScheduler.cpp:242-263 | a least task is popped and kept if due, else pushed back |
| TaskSchedulers.TaskScheduler.DecideOnTask | src/TaskScheduler.cpp:270-287 | look-up, status test and RUNNING, one after the other |
| TaskSchedulers.TaskScheduler.EnqueueJob | src/TaskScheduler.cpp:289 | hands the job to the pool |
| TaskSchedulers.TaskScheduler.WakeUpForWork | src/TaskScheduler.cpp:230-239 | the wait for work ends with work, or with isRunning cleared |
| TaskSchedulers.TaskScheduler.WakeUpForTime | src/TaskScheduler.cpp:254-259 | the timed wait ends |
| TaskSchedulers.TaskScheduler.TakeNextJob | src/ThreadPool.cpp:141-147 | a worker takes the front job |
| TaskSchedulers.TaskScheduler.EndRun | src/TaskScheduler.cpp:510-514 | the elapsed time is the difference of two readings of the steady clock, held in a local variable between them |
| TaskSchedulers.TaskScheduler.RunTaskWithTimeout | src/TaskScheduler.cpp:501-532 | each statement of the run and of the time-out branch |
| TaskSchedulers.TaskScheduler.FinalizeCompletedTask | src/TaskScheduler.cpp:320-353 | each statement of the finalisation |
| TaskSchedulers.TaskScheduler.HandleException | src/TaskScheduler.cpp:379-408 | each statement of the catch branches |
| TaskSchedulers.TaskScheduler.RescheduleRepeatable | src/TaskScheduler.cpp:338 | the key changes while the worker owns the task, outside the heap |
| TaskSchedulers.TaskScheduler.StartScheduler | src/TaskScheduler.cpp:209-214 | a second start does nothing |
| TaskSchedulers.TaskScheduler.ClearRunningFlag | src/TaskScheduler.cpp:423 | stop() clears isRunning |
| TaskSchedulers.TaskScheduler.JoinSchedulerThread | src/TaskScheduler.cpp:427-429 | stop() waits for the loop |
| TaskSchedulers.TaskScheduler.StopPool | src/TaskScheduler.cpp:430 | the pool is stopped |
| TaskSchedulers.TaskScheduler.DiscardPoolJobs | src/ThreadPool.cpp:107-112 | jobs nobody took are thrown away |
| TaskSchedulers.TaskScheduler.Do | src/TaskScheduler.cpp:70-431 | any step of any thread is the model's step; only the heap chooses which least task is popped |
| TaskSchedulers.TaskScheduler.Run | src/TaskScheduler.cpp:70-431 | under any schedule the object stays valid and in a reachable state of the model |

## Left out

- Logger, log messages, thread names, `TaskConfig::toString` and `status_to_string`: input, output and formatting.
- The body of user tasks: an execution returns after any time or throws.
- Copying and moving of `Task`: the scheduler only shares tasks.
- Wrap-around of the 64-bit id counter and overflow of time points: counters and times are unbounded.
- Weak memory: steps interleave, each atomic access is one step.
- Callbacks that call the scheduler, and replacing the callback while tasks run.
- `start()` and `stop()` from several threads.
- Fairness: that a due task is started, or that `stop()` returns, is claimed of some schedule and not of every one.
- The wake-ups of `workAvailable_cv`: the scheduler thread may test its wait conditions at any time, which covers every
  notification, time-out and spurious wake-up.
- The pool mutex is modelled with its holder; the queue mutex is held across steps only between the wait predicate and
  the pop; the other critical sections are single steps.
- The two catch branches are identical and are one in the model.
- Order among tasks with equal priority and equal start time: any least task may be popped.
- `TaskQueue::size`, which nothing calls, and the destructors, which only call the `stop()` functions.
