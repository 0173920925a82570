/** Schedules from the initial state that reach the states at which the program does more than its documentation
    says. */
module Witnesses {
  import opened Options
  import opened TaskIds
  import opened Tasks
  import opened Lifecycle
  import opened Protocol
  import opened Invariant
  import opened Restarts
  import opened Repushes
  import opened Shutdown
  import opened Stops
  import P = PoolModel

  /** One repeatable task that is due at once, and one worker. */
  const ID: Id := GenerateTaskId(1)
  const START: Clock := Clock(0, 0)
  const CONFIG: Config := Config(0, 0, true, 0, 0)

  function At(loc: Loc, active: bool, status: Status): Token {
    NewToken(CONFIG, 0).(loc := loc, active := active, task := NewTask(CONFIG).(status := status))
  }

  /** The task exists, and call 0 has come so far. */
  function Scheduling(tok: Token, call: Call): State {
    Init(1, START).(nextId := 2, tokens := map[ID := tok], calls := map[0 := call])
  }

  function Pushes(n: nat): Log {
    Log(n, 0, 0, 0, 0)
  }

  /** scheduleTask has returned; the scheduler thread is at sched. */
  function Started(tok: Token, queue: multiset<Id>, sched: SchedPc): State {
    Init(1, START).(nextId := 2, tokens := map[ID := tok], queue := queue, returned := {ID}, isRunning := true,
                    sched := sched, stats := Statistics(1, 0, 0, 0, 0), log := Pushes(1))
  }

  lemma Reached(s: State, st: Step, t: State)
    requires Reachable(s) && Apply(s, st) == t
    ensures Reachable(t)
  {
    StepReachable(s, st);
  }

  lemma CreatedTask()
    ensures Reachable(Scheduling(At(AtClient(0, false), false, Pending), Created(ID)))
  {
    hide Reachable;
    var t := Scheduling(At(AtClient(0, false), false, Pending), Created(ID));
    InitReachable(1, START);
    assert map[][ID := NewToken(CONFIG, 0)] == t.tokens && map[][0 := Created(ID)] == t.calls;
    Reached(Init(1, START), Client(0, Create(CONFIG)), t);
  }

  lemma InsertedTask()
    ensures Reachable(Scheduling(At(AtClient(0, true), true, Pending), Inserted(ID)))
  {
    hide Reachable;
    var s := Scheduling(At(AtClient(0, false), false, Pending), Created(ID));
    var t := Scheduling(At(AtClient(0, true), true, Pending), Inserted(ID));
    CreatedTask();
    assert s.tokens[ID := t.tokens[ID]] == t.tokens && s.calls[0 := Inserted(ID)] == t.calls;
    Reached(s, Client(0, InsertActive), t);
  }

  function Queued(call: Call): State {
    Scheduling(At(InQueue, true, Pending), call).(queue := multiset{ID}, log := Pushes(1))
  }

  lemma PushedTask()
    ensures Reachable(Queued(Pushed(ID)))
  {
    hide Reachable;
    var s, t := Scheduling(At(AtClient(0, true), true, Pending), Inserted(ID)), Queued(Pushed(ID));
    InsertedTask();
    assert s.tokens[ID := t.tokens[ID]] == t.tokens && s.calls[0 := Pushed(ID)] == t.calls;
    Reached(s, Client(0, PushNew), t);
  }

  lemma CountedTask()
    ensures Reachable(Queued(Counted(ID)).(stats := Statistics(1, 0, 0, 0, 0)))
  {
    hide Reachable;
    var s, t := Queued(Pushed(ID)), Queued(Counted(ID)).(stats := Statistics(1, 0, 0, 0, 0));
    PushedTask();
    assert s.calls[0 := Counted(ID)] == t.calls;
    Reached(s, Client(0, CountScheduled), t);
  }

  const WAITING: Token := At(InQueue, true, Pending)

  lemma ReturnedTask()
    ensures Reachable(Started(WAITING, multiset{ID}, Off).(isRunning := false))
  {
    hide Reachable;
    var s := Queued(Counted(ID)).(stats := Statistics(1, 0, 0, 0, 0));
    var t := Started(WAITING, multiset{ID}, Off).(isRunning := false);
    CountedTask();
    assert s.calls - {0} == t.calls;
    Reached(s, Client(0, ReturnId), t);
  }

  lemma StartedLoop()
    ensures Reachable(Started(WAITING, multiset{ID}, Checked))
  {
    hide Reachable;
    ReturnedTask();
    var s := Started(WAITING, multiset{ID}, LoopTop);
    Reached(Started(WAITING, multiset{ID}, Off).(isRunning := false), Ctl(Start), s);
    Reached(s, Sched(TestRunning), s.(sched := WaitingForWork));
    Reached(s.(sched := WaitingForWork), Sched(WakeForWork), s.(sched := Checked));
  }

  function InLoop(phase: Phase, status: Status): State {
    Started(At(InHand(phase), true, status), multiset{}, Holding(ID, phase))
  }

  lemma PoppedTask()
    ensures Reachable(InLoop(Popped, Pending))
  {
    hide Reachable;
    var s, t := Started(WAITING, multiset{ID}, Checked), InLoop(Popped, Pending);
    StartedLoop();
    assert s.tokens[ID := t.tokens[ID]] == t.tokens && s.queue - multiset{ID} == t.queue;
    Reached(s, Sched(PopTask(ID)), t);
  }

  lemma Decided(phase: Phase, next: Phase)
    requires (phase.Popped? && next.LookedUp?) || (phase.LookedUp? && next.Approved?)
    requires Reachable(InLoop(phase, Pending))
    ensures Reachable(InLoop(next, Pending))
  {
    hide Reachable;
    var s, t := InLoop(phase, Pending), InLoop(next, Pending);
    assert s.tokens[ID := t.tokens[ID]] == t.tokens;
    Reached(s, Sched(Decide), t);
  }

  lemma ApprovedTask()
    ensures Reachable(InLoop(Approved, Pending))
  {
    PoppedTask();
    Decided(Popped, LookedUp);
    Decided(LookedUp, Approved);
  }

  // ---------- A cancelled task that can still be started, and pushed again ----------

  function CancelledInHand(): State {
    InLoop(Approved, Pending).(tokens := map[ID := CancelToken(At(InHand(Approved), true, Pending))],
                               calls := map[0 := CancelHit(ID)])
  }

  lemma AskedInHand()
    ensures Reachable(InLoop(Approved, Pending).(calls := map[0 := CancelBegun(ID)]))
  {
    hide Reachable;
    var s := InLoop(Approved, Pending);
    ApprovedTask();
    assert s.calls[0 := CancelBegun(ID)] == map[0 := CancelBegun(ID)];
    Reached(s, Client(0, BeginCancel(ID)), s.(calls := map[0 := CancelBegun(ID)]));
  }

  lemma CancelsInHand()
    ensures Reachable(CancelledInHand())
  {
    hide Reachable;
    var s, t := InLoop(Approved, Pending).(calls := map[0 := CancelBegun(ID)]), CancelledInHand();
    AskedInHand();
    assert s.calls[0 := CancelHit(ID)] == t.calls && s.tokens[ID := t.tokens[ID]] == t.tokens;
    Reached(s, Client(0, CancelInActive), t);
  }

  /** cancelTask has removed the task from activeTasks and will return true; yet the task can be started and,
      being repeatable, pushed again. */
  lemma CancelledYetToRun()
    ensures var s := CancelledInHand();
            && Reachable(s) && Gone(s.tokens[ID]) && s.tokens[ID].loc == InHand(Approved)
            && (exists t :: LeadsTo(s, t) && MoreStarts(s, t, ID))
            && (exists t :: LeadsTo(s, t) && MorePushes(s, t, ID))
  {
    hide Reachable, LeadsTo;
    CancelsInHand();
    OneWorker();
    CanStart(CancelledInHand(), ID);
    CanPush(CancelledInHand(), ID);
  }

  lemma OneWorker()
    ensures P.Spawn<Id>(1) == map[0 := P.Ready]
    ensures Init(1, START).pool.workers.Keys == {0}
  {
    assert P.Spawn<Id>(0) == map[];
    assert P.Spawn<Id>(1) == map[][0 := P.Ready];
  }

  // ---------- stop() and one more dispatch ----------

  /** isRunning is cleared, and a task is dispatched after that. */
  lemma DispatchedAfterStop()
    ensures var s := InLoop(Approved, Pending).(isRunning := false, ctl := Cleared);
            Reachable(s) && CanDispatch(s) && exists steps: seq<Step> :: Dispatching(s, steps)
  {
    hide Reachable, Dispatching;
    ApprovedTask();
    var s := InLoop(Approved, Pending).(isRunning := false, ctl := Cleared);
    Reached(InLoop(Approved, Pending), Ctl(ClearRunning), s);
    var steps := DispatchesOne(s);
  }

  // ---------- stop() and one more job ----------

  function PoolAt(queue: seq<Id>, worker: P.Worker<Id>, holder: Option<nat>, notifies: nat): P.State<Id> {
    P.Init<Id>(1).(queue := queue, workers := map[0 := worker], holder := holder, notifies := notifies,
                   enqueued := [ID])
  }

  /** The job is in the pool. */
  function Handed(pool: P.State<Id>, sched: SchedPc): State {
    Started(At(InPool, true, Running), multiset{}, sched).(pool := pool)
  }

  lemma MarkedTask()
    ensures Reachable(InLoop(Marked, Running))
  {
    hide Reachable;
    var t := InLoop(Marked, Running);
    ApprovedTask();
    assert InLoop(Approved, Pending).tokens[ID := t.tokens[ID]] == t.tokens;
    Reached(InLoop(Approved, Pending), Sched(Decide), t);
  }

  lemma EnqueuedTask()
    ensures Reachable(Handed(PoolAt([ID], P.Ready, None, 1), Notifying))
  {
    hide Reachable;
    var s, t := InLoop(Marked, Running), Handed(PoolAt([ID], P.Ready, None, 1), Notifying);
    MarkedTask();
    OneWorker();
    assert s.tokens[ID := t.tokens[ID]] == t.tokens && [] + [ID] == [ID];
    Reached(s, Sched(Enqueue), t);
  }

  lemma HandedTask()
    ensures Reachable(Handed(PoolAt([ID], P.Ready, None, 0), LoopTop))
  {
    hide Reachable;
    EnqueuedTask();
    Reached(Handed(PoolAt([ID], P.Ready, None, 1), Notifying), Sched(Notify(None)),
            Handed(PoolAt([ID], P.Ready, None, 0), LoopTop));
  }

  /** stop() has been called, and has come as far as ctl and the pool say. */
  function Stopping(pool: P.State<Id>, sched: SchedPc, ctl: CtlPc): State {
    Handed(pool, sched).(isRunning := false, ctl := ctl)
  }

  lemma StopsLoop(pool: P.State<Id>)
    requires Reachable(Handed(pool, LoopTop))
    ensures Reachable(Stopping(pool, Done, Cleared)) && Linked(Handed(pool, LoopTop))
  {
    hide Reachable;
    StopLinks(pool);
    Reached(Handed(pool, LoopTop), Ctl(ClearRunning), Stopping(pool, LoopTop, Cleared));
    Reached(Stopping(pool, LoopTop, Cleared), Sched(TestRunning), Stopping(pool, Done, Cleared));
  }

  /** stop() up to the stop flag of the pool. */
  lemma StopsScheduler(pool: P.State<Id>)
    requires Reachable(Handed(pool, LoopTop)) && pool.stopper.NotStopping?
    ensures Reachable(Stopping(pool.(stopFlag := true, stopper := P.FlagStored), Off, StoppingPool))
  {
    hide Reachable;
    StopsLoop(pool);
    Reached(Stopping(pool, Done, Cleared), Ctl(JoinScheduler), Stopping(pool, Off, StoppingPool));
    Reached(Stopping(pool, Off, StoppingPool), Ctl(StoreStop),
            Stopping(pool.(stopFlag := true, stopper := P.FlagStored), Off, StoppingPool));
  }

  lemma StopLinks(pool: P.State<Id>)
    requires Reachable(Handed(pool, LoopTop))
    ensures Linked(Handed(pool, LoopTop))
  {
    ReachableInv(Handed(pool, LoopTop));
  }

  lemma StepsOfPool(pool: P.State<Id>, op: WorkerOp, next: P.State<Id>, s: State)
    requires Reachable(s) && s.pool == pool && Linked(s) && OnLoop(op)
    requires P.Enabled(pool, PoolStep(0, op)) && P.Next(pool, PoolStep(0, op)) == next
    ensures Reachable(s.(pool := next))
  {
    hide Reachable;
    LoopStepIs(s, 0, op);
    Reached(s, Worker(0, op), s.(pool := next));
  }

  function BoundToTake(): P.State<Id> {
    PoolAt([ID], P.Dequeuing, Some(0), 0)
  }

  /** A worker has read the stop flag before it was set, and takes a job after that. */
  lemma TakenAfterStop()
    ensures var s := Stopping(BoundToTake().(stopFlag := true, stopper := P.FlagStored), Off, StoppingPool);
            && Reachable(s) && s.pool.stopFlag && P.Committed(s.pool) == 1
            && (exists t :: LeadsTo(s, t) && |t.pool.dequeued| > |s.pool.dequeued|)
  {
    hide Reachable, LeadsTo;
    var ready, granted := PoolAt([ID], P.Ready, None, 0), PoolAt([ID], P.Granted, Some(0), 0);
    HandedTask();
    assert ready.workers[0 := P.Granted] == granted.workers;
    assert granted.workers[0 := P.Dequeuing] == BoundToTake().workers;
    StepsOfPool(ready, Acquire, granted, Handed(ready, LoopTop));
    StepsOfPool(granted, LoadStop, BoundToTake(), Handed(granted, LoopTop));
    StopsScheduler(BoundToTake());
    CommittedLeads(Stopping(BoundToTake().(stopFlag := true, stopper := P.FlagStored), Off, StoppingPool));
  }

  function Emptied(): State {
    Stopping(PoolAt([], P.Exited, None, 0).(stopFlag := true, stopped := true, discarded := [ID]), Off, Idle).(
      tokens := map[ID := At(Discarded, true, Running)])
  }

  function Notified(worker: P.Worker<Id>, holder: Option<nat>): P.State<Id> {
    PoolAt([ID], worker, holder, 0).(stopFlag := true, stopper := P.AllNotified)
  }

  lemma NotifiedWorker()
    ensures Reachable(Stopping(Notified(P.Ready, None), Off, StoppingPool))
  {
    hide Reachable;
    var pool := PoolAt([ID], P.Ready, None, 0);
    var flagged := Stopping(pool.(stopFlag := true, stopper := P.FlagStored), Off, StoppingPool);
    HandedTask();
    StopsScheduler(pool);
    assert P.Next(flagged.pool, P.NotifyAll).workers == pool.workers;
    Reached(flagged, Ctl(NotifyAll), Stopping(Notified(P.Ready, None), Off, StoppingPool));
  }

  lemma ExitedWorker()
    ensures Reachable(Stopping(Notified(P.Exited, None), Off, StoppingPool))
  {
    hide Reachable;
    var ready, granted, exited := Notified(P.Ready, None), Notified(P.Granted, Some(0)), Notified(P.Exited, None);
    NotifiedWorker();
    assert ready.workers[0 := P.Granted] == granted.workers && granted.workers[0 := P.Exited] == exited.workers;
    StepsOfPool(ready, Acquire, granted, Stopping(ready, Off, StoppingPool));
    StepsOfPool(granted, LoadStop, exited, Stopping(granted, Off, StoppingPool));
  }

  function Joined(): State {
    Stopping(Notified(P.Exited, None).(stopper := P.AllJoined), Off, StoppingPool)
  }

  lemma JoinedWorkers()
    ensures Reachable(Joined())
  {
    hide Reachable;
    ExitedWorker();
    Reached(Stopping(Notified(P.Exited, None), Off, StoppingPool), Ctl(JoinWorkers), Joined());
  }

  lemma EmptiedPool()
    ensures P.Next(Joined().pool, P.Discard) == Emptied().pool
    ensures DiscardTokens(Joined().tokens, [ID]) == Emptied().tokens
  {
    assert [] + [ID] == [ID];
  }

  /** stop() has returned, and a job that it has thrown away is still RUNNING in activeTasks. */
  lemma DiscardedStaysRunning()
    ensures Reachable(Emptied()) && Emptied().pool.stopped && GetTaskStatus(Emptied(), ID) == Running
  {
    hide Reachable, P.Next, DiscardTokens;
    JoinedWorkers();
    EmptiedPool();
    Reached(Joined(), Ctl(DiscardJobs), Emptied());
  }

  // ---------- A lost wake-up ----------

  /** No task; the only worker is at this point, and stop() as far as ctl and the pool say. */
  function Empty(worker: P.Worker<Id>, ctl: CtlPc): State {
    Init(1, START).(ctl := ctl, pool := P.Init<Id>(1).(
      workers := map[0 := worker], holder := if P.HoldsMutex(worker) then Some(0) else None))
  }

  lemma AboutToSleep()
    ensures Reachable(Empty(P.Blocking, Idle))
  {
    hide Reachable;
    InitReachable(1, START);
    OneWorker();
    var ready, checking, blocking := Empty(P.Ready, Idle), Empty(P.Checking, Idle), Empty(P.Blocking, Idle);
    assert ready.pool.workers[0 := P.Checking] == checking.pool.workers;
    assert checking.pool.workers[0 := P.Blocking] == blocking.pool.workers;
    StepsOfPool(ready.pool, Acquire, checking.pool, ready);
    StepsOfPool(checking.pool, ReadStop, blocking.pool, checking);
  }

  lemma StopsWhileBlocking(s: State)
    requires s == Empty(P.Blocking, StoppingPool) && Reachable(s)
    ensures Reachable(s.(pool := s.pool.(stopFlag := true, stopper := P.AllNotified)))
  {
    hide Reachable;
    var flagged := s.(pool := s.pool.(stopFlag := true, stopper := P.FlagStored));
    Reached(s, Ctl(StoreStop), flagged);
    assert P.Next(flagged.pool, P.NotifyAll).workers == flagged.pool.workers;
    Reached(flagged, Ctl(NotifyAll), s.(pool := s.pool.(stopFlag := true, stopper := P.AllNotified)));
  }

  /** The worker has read the stop flag before it was set and sleeps after the notification: without a spurious
      wake-up stop() never returns. */
  lemma StopHangs()
    ensures exists s :: Reachable(s) && !s.ctl.Idle? && Hung(s)
  {
    hide Reachable;
    var s := Empty(P.Blocking, StoppingPool);
    var hung := s.(pool := s.pool.(stopFlag := true, stopper := P.AllNotified));
    AboutToSleep();
    Reached(Empty(P.Blocking, Idle), Ctl(ClearRunning), Empty(P.Blocking, Cleared));
    Reached(Empty(P.Blocking, Cleared), Ctl(JoinScheduler), s);
    StopsWhileBlocking(s);
    assert HungAt(hung, 0);
  }

  // ---------- Completion callbacks that throw ----------

  /** The worker executes one more statement. */
  lemma OneMore(s: State, choice: Choice) returns (t: State)
    requires Reachable(s) && ID in s.tokens && s.tokens[ID].loc.OnWorker? && !s.tokens[ID].loc.at.Repush?
    requires Happens(s.tokens[ID], Work(choice), s.now)
    ensures Reachable(t) && ID in t.tokens && t.now == s.now
    ensures t.tokens[ID] == AfterEvent(s.tokens[ID], Work(choice), s.now)
  {
    hide Reachable, Apply, AfterEvent, Happens;
    var st := Worker(s.tokens[ID].loc.w, Statement(choice));
    ReachablePlaced(s);
    WorkerStep(s, ID, choice);
    t := Apply(s, st);
    Reached(s, st, t);
  }

  predicate AtCallback(t: Token) {
    && t.active && t.loc.OnWorker? && t.loc.at.DoneCallback? && !t.hist.reentered
    && t.hist.outcomes == [Success] && |t.hist.starts| == 1
  }

  lemma ReachesCallback(a: State) returns (s: State)
    requires Reachable(a) && ID in a.tokens && IsTaken(a.tokens[ID].loc)
    requires a.tokens[ID] == At(a.tokens[ID].loc, true, Running)
    ensures Reachable(s) && ID in s.tokens && AtCallback(s.tokens[ID])
  {
    hide Reachable, Elapsed;
    var b := OneMore(a, Quiet);
    var c := OneMore(b, Returned);
    var d := OneMore(c, Quiet);
    var e := OneMore(d, Quiet);
    s := OneMore(e, Quiet);
  }

  lemma CallbackThrows(s: State) returns (t: State)
    requires Reachable(s) && ID in s.tokens && AtCallback(s.tokens[ID])
    ensures Reachable(t) && ID in t.tokens && EscapedTwice(t.tokens[ID])
  {
    hide Reachable;
    var b := OneMore(s, Threw);
    var c := OneMore(b, Quiet);
    var d := OneMore(c, Quiet);
    t := OneMore(d, Threw);
  }

  /** The callback throws after COMPLETED has been counted, FAILED is counted for the same execution, and when
      the callback throws again the task stays in activeTasks. */
  lemma CallbackThrowsTwice()
    ensures exists s :: Reachable(s) && ID in s.tokens && EscapedTwice(s.tokens[ID])
  {
    hide Reachable, Run;
    var s := InLoop(Approved, Pending);
    ApprovedTask();
    OneWorker();
    var steps := ReachesTaken(s, ID);
    var called := ReachesCallback(Run(s, steps));
    var t := CallbackThrows(called);
  }

  predicate EscapedTwice(t: Token) {
    && t.active && t.loc.Escaped? && t.hist.reentered
    && t.hist.outcomes == [Success, Failure] && |t.hist.starts| == 1
  }
}
