/** The worker pool as a state machine: one step per atomic access or critical section of
    ThreadPool::enqueueTask, ThreadPool::workerLoop and ThreadPool::stop. */
module PoolModel {
  import opened Options
  import opened Counting

  /** Where a worker thread is in workerLoop. The mutex is held from Checking to Dequeuing. */
  datatype Worker<J> =
    | Ready         // awake, about to take the mutex and test the wait predicate
    | Checking      // predicate: the queue was empty, stopFlag is read next
    | Blocking      // predicate false, about to block on the condition variable
    | Waiting       // asleep on the condition variable
    | Granted       // predicate true, about to test stopFlag once more
    | Dequeuing     // stopFlag was clear, about to take the front job
    | Busy(job: J)  // outside the mutex, running the job
    | Exited

  /** Progress of the thread inside stop(). */
  datatype Stopper = NotStopping | FlagStored | AllNotified | AllJoined

  datatype State<J> = State(
    queue: seq<J>,
    stopFlag: bool,
    workers: map<nat, Worker<J>>,
    holder: Option<nat>,          // the worker that holds the mutex
    notifies: nat,                // enqueuers between their push and their notify_one
    stopper: Stopper,
    stopped: bool,                // some call of stop() has returned
    enqueued: seq<J>,             // history: every job ever pushed
    dequeued: seq<J>,             // history: every job ever taken by a worker
    discarded: seq<J>,            // history: every job thrown away by stop()
    finished: nat)                // history: how many taken jobs are over

  datatype Step<J> =
    | Push(job: J)
    | Notify(woken: Option<nat>)
    | Acquire(w: nat)
    | ReadStop(w: nat)
    | Block(w: nat)
    | Spurious(w: nat)
    | LoadStop(w: nat)
    | Dequeue(w: nat)
    | Finish(w: nat)
    | StoreStop
    | NotifyAll
    | Join
    | Discard

  predicate HoldsMutex<J>(w: Worker<J>) {
    w.Checking? || w.Blocking? || w.Granted? || w.Dequeuing?
  }

  /** A worker that will look at the queue again before it sleeps. */
  predicate AwakeIdle<J>(w: Worker<J>) {
    w.Ready? || w.Granted? || w.Dequeuing?
  }

  predicate IsBusy<J>(w: Worker<J>) {
    w.Busy?
  }

  predicate NoneWaiting<J>(s: State<J>) {
    forall w :: w in s.workers ==> !s.workers[w].Waiting?
  }

  predicate AllExited<J>(s: State<J>) {
    forall w :: w in s.workers ==> s.workers[w].Exited?
  }

  /** The constructor's loop: numThreads workers, each about to enter workerLoop. */
  function Spawn<J>(numThreads: nat): (workers: map<nat, Worker<J>>)
    ensures |workers| == numThreads
    ensures forall w :: w in workers ==> w < numThreads && workers[w].Ready?
  {
    if numThreads == 0 then map[] else Spawn(numThreads - 1)[numThreads - 1 := Ready]
  }

  function Init<J>(numThreads: nat): State<J> {
    State([], false, Spawn(numThreads), None, 0, NotStopping, false, [], [], [], 0)
  }

  predicate Enabled<J>(s: State<J>, st: Step<J>) {
    match st
    case Push(_) => s.holder.None?
    case Notify(woken) =>
      && s.notifies > 0
      && (match woken
          case None => NoneWaiting(s)
          case Some(w) => w in s.workers && s.workers[w].Waiting?)
    case Acquire(w) => w in s.workers && s.workers[w].Ready? && s.holder.None?
    case ReadStop(w) => w in s.workers && s.workers[w].Checking?
    case Block(w) => w in s.workers && s.workers[w].Blocking?
    case Spurious(w) => w in s.workers && s.workers[w].Waiting?
    case LoadStop(w) => w in s.workers && s.workers[w].Granted?
    // front() and pop() on an empty queue are undefined; StepKeepsInv shows the guard never blocks
    case Dequeue(w) => w in s.workers && s.workers[w].Dequeuing? && s.queue != []
    case Finish(w) => w in s.workers && s.workers[w].Busy?
    case StoreStop => s.stopper.NotStopping?
    case NotifyAll => s.stopper.FlagStored?
    case Join => s.stopper.AllNotified? && AllExited(s)
    case Discard => s.stopper.AllJoined? && s.holder.None?
  }

  function Move<J>(s: State<J>, w: nat, pc: Worker<J>): State<J> {
    s.(workers := s.workers[w := pc])
  }

  function Wake<J>(w: Worker<J>): Worker<J> {
    if w.Waiting? then Ready else w
  }

  function Next<J>(s: State<J>, st: Step<J>): State<J>
    requires Enabled(s, st)
  {
    match st
    case Push(j) => s.(queue := s.queue + [j], enqueued := s.enqueued + [j], notifies := s.notifies + 1)
    case Notify(woken) =>
      var t := s.(notifies := s.notifies - 1);
      if woken.Some? then Move(t, woken.value, Ready) else t
    case Acquire(w) => Move(s, w, if s.queue == [] then Checking else Granted).(holder := Some(w))
    case ReadStop(w) => Move(s, w, if s.stopFlag then Granted else Blocking)
    case Block(w) => Move(s, w, Waiting).(holder := None)
    case Spurious(w) => Move(s, w, Ready)
    case LoadStop(w) => if s.stopFlag then Move(s, w, Exited).(holder := None) else Move(s, w, Dequeuing)
    case Dequeue(w) =>
      Move(s, w, Busy(s.queue[0])).(queue := s.queue[1..], dequeued := s.dequeued + [s.queue[0]], holder := None)
    case Finish(w) => Move(s, w, Ready).(finished := s.finished + 1)
    case StoreStop => s.(stopFlag := true, stopper := FlagStored)
    case NotifyAll =>
      s.(workers := map w | w in s.workers :: Wake(s.workers[w]), stopper := AllNotified)
    case Join => s.(stopper := AllJoined)
    case Discard => s.(queue := [], discarded := s.discarded + s.queue, stopper := NotStopping, stopped := true)
  }

  /** One scheduling decision; a step that is not enabled leaves the pool as it is. */
  function Apply<J>(s: State<J>, st: Step<J>): State<J> {
    if Enabled(s, st) then Next(s, st) else s
  }

  function Run<J>(s: State<J>, steps: seq<Step<J>>): State<J> {
    if steps == [] then s else Apply(Run(s, steps[..|steps| - 1]), steps[|steps| - 1])
  }

  // ---------- What every step keeps ----------

  ghost predicate MutexInv<J>(s: State<J>) {
    && (s.holder.Some? ==> s.holder.value in s.workers)
    && (forall w :: w in s.workers ==> (HoldsMutex(s.workers[w]) <==> s.holder == Some(w)))
    && (forall w :: w in s.workers ==>
          && (s.workers[w].Checking? || s.workers[w].Blocking? ==> s.queue == [])
          && (s.workers[w].Granted? ==> s.queue != [] || s.stopFlag)
          && (s.workers[w].Dequeuing? ==> s.queue != []))
  }

  ghost predicate StopInv<J>(s: State<J>) {
    && (!s.stopper.NotStopping? || s.stopped <==> s.stopFlag)
    && (s.stopper.AllJoined? || s.stopped ==> AllExited(s))
    && (s.discarded != [] ==> s.stopped)
    && (forall w :: w in s.workers && s.workers[w].Exited? ==> s.stopFlag)
  }

  ghost predicate FifoInv<J>(s: State<J>) {
    && s.enqueued == s.dequeued + s.discarded + s.queue
    && |s.dequeued| == s.finished + Count(s.workers, IsBusy<J>)
  }

  /** While the pool runs and somebody sleeps, every queued job has a wake-up on its way. */
  ghost predicate NoStrandedJob<J>(s: State<J>) {
    !s.stopFlag && !NoneWaiting(s) ==> |s.queue| <= s.notifies + Count(s.workers, AwakeIdle<J>)
  }

  ghost predicate Inv<J>(s: State<J>) {
    MutexInv(s) && StopInv(s) && FifoInv(s) && NoStrandedJob(s)
  }

  lemma InitInv<J>(numThreads: nat)
    ensures Inv(Init<J>(numThreads))
  {
    var s := Init<J>(numThreads);
    assert Where(s.workers, IsBusy<J>) == {};
  }

  lemma MoveCounts<J>(s: State<J>, w: nat, pc: Worker<J>)
    requires w in s.workers
    ensures Count(Move(s, w, pc).workers, IsBusy<J>) + Bit(s.workers[w].Busy?) ==
            Count(s.workers, IsBusy<J>) + Bit(pc.Busy?)
    ensures Count(Move(s, w, pc).workers, AwakeIdle<J>) + Bit(AwakeIdle(s.workers[w])) ==
            Count(s.workers, AwakeIdle<J>) + Bit(AwakeIdle(pc))
  {
    CountPut(s.workers, w, pc, IsBusy<J>);
    CountPut(s.workers, w, pc, AwakeIdle<J>);
  }

  /** The worker that a step moves along its loop, with its next point. */
  function Moved<J>(s: State<J>, st: Step<J>): Option<(nat, Worker<J>)>
    requires Enabled(s, st)
  {
    match st
    case Notify(Some(w)) => Some((w, Ready))
    case Acquire(w) => Some((w, if s.queue == [] then Checking else Granted))
    case ReadStop(w) => Some((w, if s.stopFlag then Granted else Blocking))
    case Block(w) => Some((w, Waiting))
    case Spurious(w) => Some((w, Ready))
    case LoadStop(w) => Some((w, if s.stopFlag then Exited else Dequeuing))
    case Dequeue(w) => Some((w, Busy(s.queue[0])))
    case Finish(w) => Some((w, Ready))
    case _ => None
  }

  lemma StepCounts<J>(s: State<J>, st: Step<J>)
    requires Enabled(s, st)
    ensures var t := Next(s, st);
            match Moved(s, st)
            case Some((w, pc)) =>
              && w in s.workers && t.workers == s.workers[w := pc]
              && Count(t.workers, IsBusy<J>) + Bit(s.workers[w].Busy?) == Count(s.workers, IsBusy<J>) + Bit(pc.Busy?)
              && Count(t.workers, AwakeIdle<J>) + Bit(AwakeIdle(s.workers[w])) ==
                 Count(s.workers, AwakeIdle<J>) + Bit(AwakeIdle(pc))
            case None => Count(t.workers, IsBusy<J>) == Count(s.workers, IsBusy<J>)
  {
    match Moved(s, st)
    case Some((w, pc)) => MoveCounts(s, w, pc);
    case None =>
      assert Where(Next(s, st).workers, IsBusy<J>) == Where(s.workers, IsBusy<J>);
  }

  /** Only taking and finishing a job changes who is busy. */
  lemma StepKeepsBusy<J>(s: State<J>, st: Step<J>)
    requires Enabled(s, st) && !st.Dequeue? && !st.Finish?
    ensures SameBusy(s, Next(s, st))
  {
  }

  ghost predicate SameBusy<J>(s: State<J>, t: State<J>) {
    && t.workers.Keys == s.workers.Keys
    && (forall w :: w in s.workers && (s.workers[w].Busy? || t.workers[w].Busy?) ==> t.workers[w] == s.workers[w])
  }

  lemma StepKeepsMutex<J>(s: State<J>, st: Step<J>)
    requires MutexInv(s) && Enabled(s, st)
    ensures MutexInv(Next(s, st))
  {
  }

  lemma StepKeepsStop<J>(s: State<J>, st: Step<J>)
    requires MutexInv(s) && StopInv(s) && Enabled(s, st)
    ensures StopInv(Next(s, st))
  {
  }

  lemma StepKeepsFifo<J>(s: State<J>, st: Step<J>)
    requires StopInv(s) && FifoInv(s) && Enabled(s, st)
    ensures FifoInv(Next(s, st))
  {
    StepCounts(s, st);
    if st.Dequeue? {
      assert s.discarded == [];
    }
  }

  lemma StepKeepsNoStranded<J>(s: State<J>, st: Step<J>)
    requires MutexInv(s) && NoStrandedJob(s) && Enabled(s, st)
    ensures NoStrandedJob(Next(s, st))
  {
    StepCounts(s, st);
  }

  lemma StepKeepsInv<J>(s: State<J>, st: Step<J>)
    requires Inv(s)
    ensures Inv(Apply(s, st))
  {
    if Enabled(s, st) {
      StepKeepsMutex(s, st);
      StepKeepsStop(s, st);
      StepKeepsFifo(s, st);
      StepKeepsNoStranded(s, st);
    }
  }

  lemma {:induction false} RunKeepsInv<J>(s: State<J>, steps: seq<Step<J>>)
    requires Inv(s)
    ensures Inv(Run(s, steps))
    decreases |steps|
  {
    if steps != [] {
      RunKeepsInv(s, steps[..|steps| - 1]);
      StepKeepsInv(Run(s, steps[..|steps| - 1]), steps[|steps| - 1]);
    }
  }

  // ---------- Results about every run ----------

  /** Once the pool is stopped, or has no worker, no worker becomes bound to take a job. */
  lemma CommitmentIsOld<J>(s: State<J>, st: Step<J>)
    requires MutexInv(s) && (s.stopFlag || s.workers.Keys == {}) && Enabled(s, st)
    ensures var t := Next(s, st);
            && (t.stopFlag || t.workers.Keys == {})
            && (Committed(t) == 1 ==> Committed(s) == 1 && t.queue == s.queue)
  {
  }

  lemma StoppedStays<J>(s: State<J>, st: Step<J>)
    requires Enabled(s, st) && s.stopped
    ensures Next(s, st).stopped
  {
  }

  lemma OnlyPushEnqueues<J>(s: State<J>, st: Step<J>)
    requires Enabled(s, st)
    ensures Next(s, st).enqueued == if st.Push? then s.enqueued + [st.job] else s.enqueued
  {
  }

  /** Jobs that a worker has already decided to take. */
  ghost function Committed<J>(s: State<J>): (n: nat)
    ensures n <= 1 && (n == 1 ==> s.holder.Some?)
  {
    Bit(s.holder.Some? && s.holder.value in s.workers && s.workers[s.holder.value].Dequeuing?)
  }

  lemma StepKeepsThreads<J>(s: State<J>, st: Step<J>)
    ensures Apply(s, st).workers.Keys == s.workers.Keys
    ensures s.dequeued <= Apply(s, st).dequeued && s.enqueued <= Apply(s, st).enqueued
  {
  }

  lemma StepKeepsBudget<J>(s: State<J>, st: Step<J>)
    requires MutexInv(s) && s.stopFlag
    ensures var t := Apply(s, st);
            t.stopFlag && |t.dequeued| + Committed(t) <= |s.dequeued| + Committed(s)
  {
  }

  lemma StepKeepsStopped<J>(s: State<J>, st: Step<J>)
    requires StopInv(s) && s.stopped
    ensures var t := Apply(s, st);
            t.stopped && t.dequeued == s.dequeued && t.finished == s.finished
  {
  }

  lemma {:induction false} RunKeepsThreads<J>(s: State<J>, steps: seq<Step<J>>)
    ensures Run(s, steps).workers.Keys == s.workers.Keys
    ensures s.dequeued <= Run(s, steps).dequeued
    decreases |steps|
  {
    if steps != [] {
      RunKeepsThreads(s, steps[..|steps| - 1]);
      StepKeepsThreads(Run(s, steps[..|steps| - 1]), steps[|steps| - 1]);
    }
  }

  /** No wake-up is lost: with every worker asleep and no notify on its way, nothing is queued. */
  lemma NoJobLeftBehind<J>(numThreads: nat, steps: seq<Step<J>>)
    ensures var s := Run(Init(numThreads), steps);
            && NoStrandedJob(s)
            && (numThreads > 0 && !s.stopFlag && s.notifies == 0 && AllAsleep(s) ==> s.queue == [])
  {
    var s := Run(Init(numThreads), steps);
    InitInv<J>(numThreads);
    RunKeepsInv(Init(numThreads), steps);
    RunKeepsThreads(Init(numThreads), steps);
    if numThreads > 0 && AllAsleep(s) {
      assert Where(s.workers, AwakeIdle<J>) == {};
      var w :| w in s.workers;
    }
  }

  ghost predicate AllAsleep<J>(s: State<J>) {
    forall w :: w in s.workers ==> s.workers[w].Waiting?
  }

  lemma FifoLaw<J>(s: State<J>)
    requires FifoInv(s) && StopInv(s)
    ensures s.dequeued <= s.enqueued && (!s.stopped ==> s.dequeued + s.queue == s.enqueued)
    ensures |s.dequeued| - s.finished == Count(s.workers, IsBusy<J>) <= |s.workers.Keys|
  {
    CountAtMost(s.workers, IsBusy<J>);
    assert s.enqueued == s.dequeued + (s.discarded + s.queue);
    assert s.discarded == [] ==> s.discarded + s.queue == s.queue;
  }

  /** First in, first out, each job once, and never more jobs running than there are threads. */
  lemma FifoAndCapacity<J>(numThreads: nat, steps: seq<Step<J>>)
    ensures var s := Run(Init(numThreads), steps);
            && s.dequeued <= s.enqueued
            && (!s.stopped ==> s.dequeued + s.queue == s.enqueued)
            && |s.dequeued| - s.finished == Count(s.workers, IsBusy<J>) <= numThreads
  {
    InitInv<J>(numThreads);
    RunKeepsInv(Init(numThreads), steps);
    RunKeepsThreads(Init(numThreads), steps);
    FifoLaw(Run(Init(numThreads), steps));
    assert |Init<J>(numThreads).workers.Keys| == numThreads;
  }

  /** After the stop flag is stored at most one more job is taken, whatever the schedule. */
  lemma {:induction false} StopBudget<J>(s: State<J>, steps: seq<Step<J>>)
    requires Inv(s) && s.stopFlag
    ensures var t := Run(s, steps);
            Inv(t) && t.stopFlag && |t.dequeued| + Committed(t) <= |s.dequeued| + Committed(s) <= |s.dequeued| + 1
    decreases |steps|
  {
    if steps != [] {
      var t := Run(s, steps[..|steps| - 1]);
      StopBudget(s, steps[..|steps| - 1]);
      StepKeepsInv(t, steps[|steps| - 1]);
      StepKeepsBudget(t, steps[|steps| - 1]);
    }
  }

  /** Once stop() has returned every worker is gone, and no job is ever taken again. */
  lemma {:induction false} StoppedForGood<J>(s: State<J>, steps: seq<Step<J>>)
    requires Inv(s) && s.stopped
    ensures var t := Run(s, steps);
            Inv(t) && t.stopped && AllExited(t) && t.dequeued == s.dequeued && t.finished == s.finished
    decreases |steps|
  {
    if steps != [] {
      var t := Run(s, steps[..|steps| - 1]);
      StoppedForGood(s, steps[..|steps| - 1]);
      StepKeepsInv(t, steps[|steps| - 1]);
      StepKeepsStopped(t, steps[|steps| - 1]);
    }
  }
}
