/** The scheduler as a state machine. Every step is one critical section or one atomic access of one
    thread: clients inside scheduleTask and cancelTask, the scheduler thread in runSchedulerLoop, the pool
    workers running executeAndFinalizeTask, and the thread that calls start() and stop(). */
module Protocol {
  import opened Options
  import opened TaskIds
  import opened Tasks
  import opened Lifecycle
  import P = PoolModel

  /** A client thread inside scheduleTask or cancelTask: what it has done so far. */
  datatype Call =
    | Created(id: Id)          // the task exists, activeTasks is next
    | Inserted(id: Id)         // in activeTasks, the queue push is next
    | Pushed(id: Id)           // queued, the statistics are next
    | Counted(id: Id)          // notify_one and return are next
    | CancelBegun(id: Id)      // the search in activeTasks is next
    | CancelMissed(id: Id)     // not active, the search in the queue is next
    | CancelHit(id: Id)        // cancelled, the statistics are next
    | CancelCounted(id: Id)    // the completion callback is next
    | CancelNotified(id: Id)   // the record in completedTasks is next

  /** The scheduler thread. It keeps the queue mutex exactly at Checked. */
  datatype SchedPc =
    | Off                             // no thread
    | LoopTop                         // about to read isRunning
    | WaitingForWork                  // about to lock the queue and test the wait predicate
    | Checked                         // queue not empty, isRunning was set: pop is next
    | Sleeping                        // the popped task was not due and went back: waiting for its start time
    | Holding(id: Id, phase: Phase)   // a due task is popped
    | Notifying                       // notify_one of the pool is next
    | Done                            // the loop has returned, join is next

  /** A worker inside executeAndFinalizeTask; at Finished it has given its task up. */
  datatype Exec = Exec(id: Id, at: Point)

  datatype CtlPc = Idle | Cleared | StoppingPool

  datatype Statistics = Statistics(
    totalTasksScheduled: nat, tasksCompleted: nat, tasksFailed: nat, tasksCancelled: nat, tasksTimeout: nat)

  /** Counters of the whole run, for the conservation laws. */
  datatype Log = Log(
    pushes: nat,              // first pushes and pushes of repeating tasks
    skipped: nat,             // popped tasks the scheduler thread threw away
    dropped: nat,             // queued tasks removed by cancelTask
    cancelledFinishes: nat,   // executions whose result was ignored because the task was cancelled
    reentered: nat)           // completion callbacks that threw into the catch branch

  datatype State = State(
    now: Clock,
    nextId: nat,
    tokens: map<Id, Token>,
    queue: multiset<Id>,
    pool: P.State<Id>,
    stats: Statistics,
    isRunning: bool,
    sched: SchedPc,
    calls: map<nat, Call>,
    exec: map<nat, Exec>,
    ctl: CtlPc,
    returned: set<Id>,
    log: Log)

  datatype ClientOp =
    | Create(config: Config) | InsertActive | PushNew | CountScheduled | ReturnId
    | BeginCancel(id: Id) | CancelInActive | CancelInQueue | CountCancelled | CallBack(throws: bool)
    | RecordCancel

  datatype SchedOp =
    | TestRunning | WakeForWork | PopTask(id: Id) | WakeForTime | Decide | Enqueue | Notify(woken: Option<nat>)

  datatype WorkerOp = Acquire | ReadStop | Block | Spurious | LoadStop | TakeJob | Statement(choice: Choice) | Finish

  datatype CtlOp = Start | ClearRunning | JoinScheduler | StoreStop | NotifyAll | JoinWorkers | DiscardJobs

  datatype Step =
    | Tick(ticks: nat, steadyTicks: nat)   // each clock advances by so much
    | Client(c: nat, clientOp: ClientOp)
    | Sched(schedOp: SchedOp)
    | Worker(w: nat, workerOp: WorkerOp)
    | Ctl(ctlOp: CtlOp)

  function Init(numThreads: nat, now: Clock): State {
    State(now, 1, map[], multiset{}, P.Init(numThreads), Statistics(0, 0, 0, 0, 0), false, Off,
          map[], map[], Idle, {}, Log(0, 0, 0, 0, 0))
  }

  // ---------- Shared pieces ----------

  /** The queue mutex is only ever kept across steps by the scheduler thread. */
  predicate QueueFree(s: State) {
    !s.sched.Checked?
  }

  /** A scheduleTask call that still holds the token of its task. */
  predicate OwnsToken(c: Call) {
    c.Created? || c.Inserted?
  }

  /** Every reference that some thread or container keeps leads to a task. */
  predicate Linked(s: State) {
    && (forall id :: id in s.queue ==> id in s.tokens)
    && (forall i :: 0 <= i < |s.pool.queue| ==> s.pool.queue[i] in s.tokens)
    && (forall c :: c in s.calls && OwnsToken(s.calls[c]) ==> s.calls[c].id in s.tokens)
    && (forall w :: w in s.exec && !s.exec[w].at.Finished? ==> s.exec[w].id in s.tokens)
    && (s.sched.Holding? ==> s.sched.id in s.tokens)
  }

  function Put(s: State, id: Id, t: Token): (r: State)
    ensures id in s.tokens ==> r.tokens.Keys == s.tokens.Keys
  {
    s.(tokens := s.tokens[id := t])
  }

  /** TaskScheduler::getTaskStatus. */
  function GetTaskStatus(s: State, id: Id): Status {
    if id in s.tokens && s.tokens[id].active then s.tokens[id].task.status
    else if id in s.tokens && s.tokens[id].record.Some? then s.tokens[id].record.value
    else Completed
  }

  // ---------- Clients: scheduleTask and cancelTask ----------

  predicate ClientEnabled(s: State, c: nat, op: ClientOp) {
    match op
    case Create(_) => c !in s.calls
    // a client cancels an id it was given, or a text that is no task id at all
    case BeginCancel(id) => c !in s.calls && (id in s.returned || !IsTaskId(id))
    case InsertActive => c in s.calls && s.calls[c].Created?
    case PushNew => c in s.calls && s.calls[c].Inserted? && QueueFree(s)
    case CountScheduled => c in s.calls && s.calls[c].Pushed?
    case ReturnId => c in s.calls && s.calls[c].Counted?
    case CancelInActive => c in s.calls && s.calls[c].CancelBegun?
    case CancelInQueue => c in s.calls && s.calls[c].CancelMissed? && QueueFree(s)
    case CountCancelled => c in s.calls && s.calls[c].CancelHit?
    case CallBack(_) => c in s.calls && s.calls[c].CancelCounted?
    case RecordCancel => c in s.calls && s.calls[c].CancelNotified?
  }

  /** Control flow: where call c is after the step; None when it has returned or let an exception escape. */
  function NextCall(s: State, c: nat, op: ClientOp): Option<Call>
    requires ClientEnabled(s, c, op)
  {
    match op
    case Create(_) => Some(Created(GenerateTaskId(s.nextId)))
    case BeginCancel(id) => Some(CancelBegun(id))
    case InsertActive => Some(Inserted(s.calls[c].id))
    case PushNew => Some(Pushed(s.calls[c].id))
    case CountScheduled => Some(Counted(s.calls[c].id))
    case ReturnId => None
    case CancelInActive =>
      var id := s.calls[c].id;
      Some(if IsActive(s, id) then CancelHit(id) else CancelMissed(id))
    case CancelInQueue => if s.calls[c].id in s.queue then Some(CancelHit(s.calls[c].id)) else None
    case CountCancelled => Some(CancelCounted(s.calls[c].id))
    case CallBack(throws) => if throws then None else Some(CancelNotified(s.calls[c].id))
    case RecordCancel => None
  }

  predicate IsActive(s: State, id: Id) {
    id in s.tokens && s.tokens[id].active
  }

  /** Data: what the step changes in the registries, the queue, the tasks and the statistics. */
  function ClientEffect(s: State, c: nat, op: ClientOp): State
    requires Linked(s) && ClientEnabled(s, c, op)
  {
    match op
    case Create(config) => Put(s, GenerateTaskId(s.nextId), NewToken(config, c)).(nextId := s.nextId + 1)
    case BeginCancel(id) => s
    case InsertActive =>
      var id := s.calls[c].id;
      Put(s, id, s.tokens[id].(active := true, loc := AtClient(c, true)))
    case PushNew =>
      var id := s.calls[c].id;
      Put(s, id, s.tokens[id].(loc := InQueue)).(
        queue := s.queue + multiset{id}, log := s.log.(pushes := s.log.pushes + 1))
    case CountScheduled => s.(stats := s.stats.(totalTasksScheduled := s.stats.totalTasksScheduled + 1))
    case ReturnId => s.(returned := s.returned + {s.calls[c].id})
    case CancelInActive =>
      var id := s.calls[c].id;
      if IsActive(s, id) then Put(s, id, CancelToken(s.tokens[id])) else s
    case CancelInQueue =>
      var id := s.calls[c].id;
      if id in s.queue then
        Put(s, id, DropToken(s.tokens[id])).(
          queue := s.queue[id := 0], log := s.log.(dropped := s.log.dropped + s.queue[id]))
      else s
    case CountCancelled => s.(stats := s.stats.(tasksCancelled := s.stats.tasksCancelled + 1))
    case CallBack(throws) =>
      var id := s.calls[c].id;
      if id in s.tokens then Put(s, id, CalledToken(s.tokens[id], throws)) else s
    case RecordCancel =>
      var id := s.calls[c].id;
      if id in s.tokens then Put(s, id, RecordStatus(s.tokens[id], Cancelled)) else s
  }

  function ClientNext(s: State, c: nat, op: ClientOp): State
    requires Linked(s) && ClientEnabled(s, c, op)
  {
    var call := NextCall(s, c, op);
    ClientEffect(s, c, op).(calls := if call.Some? then s.calls[c := call.value] else s.calls - {c})
  }

  // ---------- The scheduler thread: runSchedulerLoop ----------

  /** Least by operator>; any least element may be on top of the heap. */
  predicate Least(tokens: map<Id, Token>, queue: multiset<Id>, id: Id) {
    && id in queue && id in tokens
    && (forall u :: u in queue ==>
          u in tokens && !Tasks.After(KeyOf(tokens[id].task), KeyOf(tokens[u].task)))
  }

  predicate SchedEnabled(s: State, op: SchedOp) {
    match op
    case TestRunning => s.sched.LoopTop?
    case WakeForWork => s.sched.WaitingForWork? && (!s.isRunning || s.queue != multiset{})
    case PopTask(id) => s.sched.Checked? && Least(s.tokens, s.queue, id)
    case WakeForTime => s.sched.Sleeping?
    case Decide => s.sched.Holding? && !s.sched.phase.Marked?
    case Enqueue => s.sched.Holding? && s.sched.phase.Marked? && P.Enabled(s.pool, P.Push(s.sched.id))
    case Notify(woken) => s.sched.Notifying? && P.Enabled(s.pool, P.Notify(woken))
  }

  function SchedNext(s: State, op: SchedOp): State
    requires Linked(s) && SchedEnabled(s, op)
  {
    match op
    case TestRunning => s.(sched := if s.isRunning then WaitingForWork else Done)
    case WakeForWork => s.(sched := if s.isRunning then Checked else Done)
    case PopTask(id) =>
      if s.tokens[id].task.startTime > s.now.system then s.(sched := Sleeping)
      else Put(s, id, s.tokens[id].(loc := InHand(Popped))).(
             queue := s.queue - multiset{id}, sched := Holding(id, Popped))
    case WakeForTime => s.(sched := if s.isRunning then LoopTop else Done)
    case Decide =>
      var t := AdvanceToken(s.tokens[s.sched.id], s.sched.phase);
      Put(s, s.sched.id, t).(
        sched := if t.loc.InHand? then Holding(s.sched.id, t.loc.phase) else LoopTop,
        log := if t.loc.InHand? then s.log else s.log.(skipped := s.log.skipped + 1))
    case Enqueue =>
      Put(s, s.sched.id, AdvanceToken(s.tokens[s.sched.id], Marked)).(
        pool := P.Next(s.pool, P.Push(s.sched.id)), sched := Notifying)
    case Notify(woken) => s.(pool := P.Next(s.pool, P.Notify(woken)), sched := LoopTop)
  }

  // ---------- The workers: workerLoop and executeAndFinalizeTask ----------

  function PoolStep(w: nat, op: WorkerOp): P.Step<Id>
    requires !op.Statement?
  {
    match op
    case Acquire => P.Acquire(w)
    case ReadStop => P.ReadStop(w)
    case Block => P.Block(w)
    case Spurious => P.Spurious(w)
    case LoadStop => P.LoadStop(w)
    case TakeJob => P.Dequeue(w)
    case Finish => P.Finish(w)
  }

  predicate WorkerEnabled(s: State, w: nat, op: WorkerOp) {
    match op
    case Statement(choice) =>
      && w in s.exec && !s.exec[w].at.Finished? && ChoiceFits(s.exec[w].at, choice)
      && (s.exec[w].at.Repush? ==> QueueFree(s))
    case Finish => w in s.exec && s.exec[w].at.Finished? && P.Enabled(s.pool, P.Finish(w))
    case _ => P.Enabled(s.pool, PoolStep(w, op))
  }

  function WorkerNext(s: State, w: nat, op: WorkerOp): State
    requires Linked(s) && WorkerEnabled(s, w, op)
  {
    match op
    case Statement(choice) => WorkNext(s, w, choice)
    case TakeJob =>
      var id := s.pool.queue[0];
      Put(s, id, s.tokens[id].(loc := OnWorker(w, Taken))).(
        pool := P.Next(s.pool, P.Dequeue(w)), exec := s.exec[w := Exec(id, Taken)])
    case Finish => s.(pool := P.Next(s.pool, P.Finish(w)), exec := s.exec - {w})
    case _ => s.(pool := P.Next(s.pool, PoolStep(w, op)))
  }

  /** The statement at which worker w stands: its effect on the task, then on what all tasks share. */
  function WorkNext(s: State, w: nat, choice: Choice): State
    requires Linked(s) && WorkerEnabled(s, w, Statement(choice))
  {
    var Exec(id, p) := s.exec[w];
    var t := WorkToken(s.tokens[id], w, p, choice, s.now);
    Put(s, id, t).(
      exec := s.exec[w := Exec(id, if t.loc.OnWorker? then t.loc.at else Finished)],
      queue := if p.Repush? then s.queue + multiset{id} else s.queue,
      stats := CountAt(s.stats, p),
      log := LogAt(s.log, p, choice, t.loc))
  }

  /** TaskScheduler::updateStatistics, at the statements that call it. */
  function CountAt(stats: Statistics, p: Point): Statistics {
    match p
    case TimeoutCount => stats.(tasksTimeout := stats.tasksTimeout + 1)
    case DoneCount => stats.(tasksCompleted := stats.tasksCompleted + 1)
    case FailCount => stats.(tasksFailed := stats.tasksFailed + 1)
    case _ => stats
  }

  function LogAt(log: Log, p: Point, choice: Choice, loc: Loc): Log {
    match p
    case Repush => log.(pushes := log.pushes + 1)
    case FinalCheck => if loc.Settled? then log.(cancelledFinishes := log.cancelledFinishes + 1) else log
    case TimeoutCallback => if choice.Threw? then log.(reentered := log.reentered + 1) else log
    case DoneCallback => if choice.Threw? then log.(reentered := log.reentered + 1) else log
    case _ => log
  }

  // ---------- The controlling thread: start() and stop() ----------

  predicate CtlEnabled(s: State, op: CtlOp) {
    match op
    case Start => s.ctl.Idle?
    case ClearRunning => s.ctl.Idle?
    case JoinScheduler => s.ctl.Cleared? && (s.sched.Off? || s.sched.Done?)
    case StoreStop => s.ctl.StoppingPool? && P.Enabled(s.pool, P.StoreStop)
    case NotifyAll => s.ctl.StoppingPool? && P.Enabled(s.pool, P.NotifyAll)
    case JoinWorkers => s.ctl.StoppingPool? && P.Enabled(s.pool, P.Join)
    case DiscardJobs => s.ctl.StoppingPool? && P.Enabled(s.pool, P.Discard)
  }

  function CtlNext(s: State, op: CtlOp): State
    requires CtlEnabled(s, op)
  {
    match op
    case Start => if s.isRunning then s else s.(isRunning := true, sched := LoopTop)
    case ClearRunning => s.(isRunning := false, ctl := Cleared)
    case JoinScheduler => s.(sched := Off, ctl := StoppingPool)
    case StoreStop => s.(pool := P.Next(s.pool, P.StoreStop))
    case NotifyAll => s.(pool := P.Next(s.pool, P.NotifyAll))
    case JoinWorkers => s.(pool := P.Next(s.pool, P.Join))
    case DiscardJobs =>
      s.(pool := P.Next(s.pool, P.Discard), ctl := Idle, tokens := DiscardTokens(s.tokens, s.pool.queue))
  }

  function DiscardTokens(tokens: map<Id, Token>, jobs: seq<Id>): map<Id, Token> {
    map id | id in tokens :: if id in jobs then tokens[id].(loc := Discarded) else tokens[id]
  }

  // ---------- Runs ----------

  predicate Enabled(s: State, st: Step) {
    match st
    case Tick(_, _) => true
    case Client(c, op) => ClientEnabled(s, c, op)
    case Sched(op) => SchedEnabled(s, op)
    case Worker(w, op) => WorkerEnabled(s, w, op)
    case Ctl(op) => CtlEnabled(s, op)
  }

  function Next(s: State, st: Step): State
    requires Linked(s) && Enabled(s, st)
  {
    match st
    case Tick(ticks, steadyTicks) => s.(now := Clock(s.now.system + ticks, s.now.steady + steadyTicks))
    case Client(c, op) => ClientNext(s, c, op)
    case Sched(op) => SchedNext(s, op)
    case Worker(w, op) => WorkerNext(s, w, op)
    case Ctl(op) => CtlNext(s, op)
  }

  /** One scheduling decision; a step that is not enabled leaves the system as it is. */
  function Apply(s: State, st: Step): State {
    if Linked(s) && Enabled(s, st) then Next(s, st) else s
  }

  function Run(s: State, steps: seq<Step>): State {
    if steps == [] then s else Apply(Run(s, steps[..|steps| - 1]), steps[|steps| - 1])
  }

  /** A schedule in which start() is not called. */
  predicate NoStart(steps: seq<Step>) {
    forall i :: 0 <= i < |steps| ==> steps[i] != Ctl(Start)
  }
}
