/** The worker pool as the program has it: one object whose fields the threads update in place. Each method is
    one atomic piece of enqueueTask, workerLoop or stop; ok tells whether a thread could execute it now. */
module ThreadPools {
  import opened Options
  import P = PoolModel

  class ThreadPool<J> {
    var taskQueue: seq<J>
    var stopFlag: bool
    var workers: map<nat, P.Worker<J>>
    var mutexHolder: Option<nat>
    var notifies: nat
    var stopper: P.Stopper
    ghost var stopped: bool
    ghost var enqueued: seq<J>
    ghost var dequeued: seq<J>
    ghost var discarded: seq<J>
    ghost var finished: nat

    ghost function View(): P.State<J>
      reads this
    {
      P.State(taskQueue, stopFlag, workers, mutexHolder, notifies, stopper,
              stopped, enqueued, dequeued, discarded, finished)
    }

    constructor (numThreads: nat)
      ensures View() == P.Init(numThreads)
    {
      taskQueue, stopFlag, mutexHolder, notifies, stopper := [], false, None, 0, P.NotStopping;
      stopped, enqueued, dequeued, discarded, finished := false, [], [], [], 0;
      var spawned: map<nat, P.Worker<J>> := map[];
      for i := 0 to numThreads
        invariant spawned == P.Spawn(i)
      {
        spawned := spawned[i := P.Ready];
      }
      workers := spawned;
    }

    // ---------- enqueueTask ----------

    /** The critical section of enqueueTask. */
    method PushJob(job: J) returns (ok: bool)
      modifies this
      ensures ok == P.Enabled(old(View()), P.Push(job)) && View() == P.Apply(old(View()), P.Push(job))
    {
      ok := mutexHolder.None?;
      if ok {
        taskQueue := taskQueue + [job];
        enqueued := enqueued + [job];
        notifies := notifies + 1;
      }
    }

    /** notify_one: one sleeping worker wakes up, whichever; nothing happens when none sleeps. */
    method NotifyOne(woken: Option<nat>) returns (ok: bool)
      modifies this
      ensures ok == P.Enabled(old(View()), P.Notify(woken)) && View() == P.Apply(old(View()), P.Notify(woken))
    {
      if notifies == 0 {
        return false;
      }
      match woken
      case Some(w) =>
        ok := w in workers && workers[w].Waiting?;
        if ok {
          workers := workers[w := P.Ready];
          notifies := notifies - 1;
        }
      case None =>
        ok := forall w :: w in workers ==> !workers[w].Waiting?;
        if ok {
          notifies := notifies - 1;
        }
    }

    // ---------- workerLoop ----------

    /** Lock the mutex and evaluate the first half of the wait predicate. */
    method Acquire(w: nat) returns (ok: bool)
      modifies this
      ensures ok == P.Enabled(old(View()), P.Acquire(w)) && View() == P.Apply(old(View()), P.Acquire(w))
    {
      ok := w in workers && workers[w].Ready? && mutexHolder.None?;
      if ok {
        mutexHolder := Some(w);
        workers := workers[w := if taskQueue == [] then P.Checking else P.Granted];
      }
    }

    /** The second half of the wait predicate. */
    method ReadStop(w: nat) returns (ok: bool)
      modifies this
      ensures ok == P.Enabled(old(View()), P.ReadStop(w)) && View() == P.Apply(old(View()), P.ReadStop(w))
    {
      ok := w in workers && workers[w].Checking?;
      if ok {
        workers := workers[w := if stopFlag then P.Granted else P.Blocking];
      }
    }

    /** Release the mutex and fall asleep, in one atomic action. */
    method Block(w: nat) returns (ok: bool)
      modifies this
      ensures ok == P.Enabled(old(View()), P.Block(w)) && View() == P.Apply(old(View()), P.Block(w))
    {
      ok := w in workers && workers[w].Blocking?;
      if ok {
        workers := workers[w := P.Waiting];
        mutexHolder := None;
      }
    }

    method WakeSpuriously(w: nat) returns (ok: bool)
      modifies this
      ensures ok == P.Enabled(old(View()), P.Spurious(w)) && View() == P.Apply(old(View()), P.Spurious(w))
    {
      ok := w in workers && workers[w].Waiting?;
      if ok {
        workers := workers[w := P.Ready];
      }
    }

    /** The test of stopFlag after the wait: leave the loop, or go on to the queue. */
    method LoadStop(w: nat) returns (ok: bool)
      modifies this
      ensures ok == P.Enabled(old(View()), P.LoadStop(w)) && View() == P.Apply(old(View()), P.LoadStop(w))
    {
      ok := w in workers && workers[w].Granted?;
      if ok {
        if stopFlag {
          workers := workers[w := P.Exited];
          mutexHolder := None;
        } else {
          workers := workers[w := P.Dequeuing];
        }
      }
    }

    /** front() and pop(), then the mutex is released. */
    method Dequeue(w: nat) returns (ok: bool)
      modifies this
      ensures ok == P.Enabled(old(View()), P.Dequeue(w)) && View() == P.Apply(old(View()), P.Dequeue(w))
    {
      ok := w in workers && workers[w].Dequeuing? && taskQueue != [];
      if ok {
        var job := taskQueue[0];
        taskQueue := taskQueue[1..];
        dequeued := dequeued + [job];
        mutexHolder := None;
        workers := workers[w := P.Busy(job)];
      }
    }

    /** The job is over, however it ended; the worker starts its loop again. */
    method Finish(w: nat) returns (ok: bool)
      modifies this
      ensures ok == P.Enabled(old(View()), P.Finish(w)) && View() == P.Apply(old(View()), P.Finish(w))
    {
      ok := w in workers && workers[w].Busy?;
      if ok {
        workers := workers[w := P.Ready];
        finished := finished + 1;
      }
    }

    // ---------- stop ----------

    method StoreStop() returns (ok: bool)
      modifies this
      ensures ok == P.Enabled(old(View()), P.StoreStop) && View() == P.Apply(old(View()), P.StoreStop)
    {
      ok := stopper.NotStopping?;
      if ok {
        stopFlag := true;
        stopper := P.FlagStored;
      }
    }

    method NotifyAll() returns (ok: bool)
      modifies this
      ensures ok == P.Enabled(old(View()), P.NotifyAll) && View() == P.Apply(old(View()), P.NotifyAll)
    {
      ok := stopper.FlagStored?;
      if ok {
        workers := map w | w in workers :: if workers[w].Waiting? then P.Ready else workers[w];
        stopper := P.AllNotified;
      }
    }

    method Join() returns (ok: bool)
      modifies this
      ensures ok == P.Enabled(old(View()), P.Join) && View() == P.Apply(old(View()), P.Join)
    {
      ok := stopper.AllNotified? && forall w :: w in workers ==> workers[w].Exited?;
      if ok {
        stopper := P.AllJoined;
      }
    }

    /** The loop that empties the queue, under the mutex. */
    method Discard() returns (ok: bool)
      modifies this
      ensures ok == P.Enabled(old(View()), P.Discard) && View() == P.Apply(old(View()), P.Discard)
    {
      ok := stopper.AllJoined? && mutexHolder.None?;
      if ok {
        while taskQueue != []
          invariant discarded + taskQueue == old(discarded + taskQueue)
          decreases |taskQueue|
          modifies `taskQueue, `discarded
        {
          discarded := discarded + [taskQueue[0]];
          taskQueue := taskQueue[1..];
        }
        stopper := P.NotStopping;
        stopped := true;
      }
    }

    // ---------- Any schedule ----------

    method Do(st: P.Step<J>) returns (ok: bool)
      modifies this
      ensures ok == P.Enabled(old(View()), st) && View() == P.Apply(old(View()), st)
    {
      match st
      case Push(job) => ok := PushJob(job);
      case Notify(woken) => ok := NotifyOne(woken);
      case Acquire(w) => ok := Acquire(w);
      case ReadStop(w) => ok := ReadStop(w);
      case Block(w) => ok := Block(w);
      case Spurious(w) => ok := WakeSpuriously(w);
      case LoadStop(w) => ok := LoadStop(w);
      case Dequeue(w) => ok := Dequeue(w);
      case Finish(w) => ok := Finish(w);
      case StoreStop => ok := StoreStop();
      case NotifyAll => ok := NotifyAll();
      case Join => ok := Join();
      case Discard => ok := Discard();
    }

    /** An arbitrary interleaving of any number of enqueuers, the workers and the stopping thread. */
    method Run(schedule: seq<P.Step<J>>)
      modifies this
      ensures View() == P.Run(old(View()), schedule)
      ensures P.Inv(old(View())) ==> P.Inv(View())
    {
      for i := 0 to |schedule|
        invariant View() == P.Run(old(View()), schedule[..i])
      {
        var _ := Do(schedule[i]);
        assert schedule[..i + 1][..i] == schedule[..i];
      }
      assert schedule[..|schedule|] == schedule;
      if P.Inv(old(View())) {
        P.RunKeepsInv(old(View()), schedule);
      }
    }
  }
}
