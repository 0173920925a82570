/** What stop() guarantees, whatever the other threads do meanwhile. */
module Shutdown {
  import opened Options
  import opened Counting
  import opened TaskIds
  import opened Tasks
  import opened Lifecycle
  import opened Protocol
  import opened Ownership
  import opened Simulation
  import opened Invariant
  import opened Ordering
  import opened Restarts
  import P = PoolModel

  // ---------- After isRunning is cleared ----------

  /** The scheduler thread will go on with the task it holds. */
  predicate GoesOn(t: Token, phase: Phase) {
    match phase
    case Popped => t.active
    case LookedUp => !t.task.status.Cancelled?
    case Approved => true
    case Marked => true
  }

  /** The scheduler thread still has a task to dispatch: the one it holds, or one that it may pop next. */
  ghost predicate CanDispatch(s: State) {
    match s.sched
    case Holding(id, phase) => id in s.tokens && GoesOn(s.tokens[id], phase)
    case Checked => exists id :: Least(s.tokens, s.queue, id) && s.tokens[id].active
    case _ => false
  }

  lemma SchedWindsDown(s: State, op: SchedOp)
    requires Linked(s) && SchedEnabled(s, op) && !s.isRunning
    ensures !SchedNext(s, op).isRunning
    ensures Bit(CanDispatch(SchedNext(s, op))) + Bit(op.Enqueue?) <= Bit(CanDispatch(s))
  {
    hide P.Next, P.Enabled;
    match op
    case TestRunning =>
    case WakeForWork =>
    case PopTask(id) => assert s.tokens[id].active ==> CanDispatch(s);
    case WakeForTime =>
    case Decide =>
    case Enqueue =>
    case Notify(_) =>
  }

  lemma HandEvent(t: Token, ev: Event, now: Clock)
    requires Happens(t, ev, now) && t.loc.InHand? && !ev.Advance? && !ev.Dispatch?
    ensures GoesOn(AfterEvent(t, ev, now), t.loc.phase) ==> GoesOn(t, t.loc.phase)
  {
  }

  lemma QueuedEvent(t: Token, ev: Event, now: Clock)
    requires Happens(t, ev, now) && t.loc.InQueue?
    ensures KeyOf(AfterEvent(t, ev, now).task) == KeyOf(t.task)
    ensures AfterEvent(t, ev, now).active ==> t.active
  {
  }

  lemma OnlySchedAdvances(s: State, st: Step, id: Id)
    requires Linked(s) && Enabled(s, st) && !st.Sched? && id in s.tokens
    ensures EventOf(s, st, id) != Some(Advance) && EventOf(s, st, id) != Some(Dispatch)
  {
  }

  /** The task in hand gains nothing from what the other threads do. */
  lemma HandGainsNothing(s: State, st: Step)
    requires Inv(s) && Enabled(s, st) && !st.Sched? && s.sched.Holding?
    ensures s.sched.id in s.tokens && s.sched.id in Next(s, st).tokens
    ensures GoesOn(Next(s, st).tokens[s.sched.id], s.sched.phase) ==> GoesOn(s.tokens[s.sched.id], s.sched.phase)
  {
    hide Inv, Next, Enabled, Linked, EventOf, AfterEvent, Happens, GoesOn;
    InvHand(s);
    var id := s.sched.id;
    TokenBecomes(s, st, id);
    OnlySchedAdvances(s, st, id);
    var ev := EventOf(s, st, id);
    if ev.Some? {
      HandEvent(s.tokens[id], ev.value, s.now);
    }
  }

  lemma InvHand(s: State)
    requires Inv(s) && s.sched.Holding?
    ensures Linked(s) && s.sched.id in s.tokens && s.tokens[s.sched.id].loc == InHand(s.sched.phase)
  {
  }

  /** While the scheduler thread keeps the queue mutex nobody else changes the queue. */
  lemma QueueIsKept(s: State, st: Step)
    requires Linked(s) && Enabled(s, st) && !st.Sched? && s.sched.Checked?
    ensures Next(s, st).queue == s.queue
  {
    match st
    case Tick(_, _) =>
    case Client(c, op) => ClientKeepsQueue(s, c, op);
    case Worker(_, _) =>
    case Ctl(_) =>
  }

  lemma ClientKeepsQueue(s: State, c: nat, op: ClientOp)
    requires Linked(s) && ClientEnabled(s, c, op) && s.sched.Checked?
    ensures ClientNext(s, c, op).queue == s.queue
  {
  }

  lemma QueuedGainsNothing(s: State, st: Step, id: Id)
    requires Inv(s) && Enabled(s, st) && id in s.queue
    ensures id in s.tokens && id in Next(s, st).tokens
    ensures KeyOf(Next(s, st).tokens[id].task) == KeyOf(s.tokens[id].task)
    ensures Next(s, st).tokens[id].active ==> s.tokens[id].active
  {
    hide Inv, Next, Enabled, Linked, Placed, EventOf, AfterEvent, Happens;
    InvLinks(s);
    QueuedToken(s, id);
    TokenBecomes(s, st, id);
    var ev := EventOf(s, st, id);
    if ev.Some? {
      QueuedEvent(s.tokens[id], ev.value, s.now);
    }
  }

  lemma LeastStays(s: State, st: Step, id: Id)
    requires Inv(s) && Enabled(s, st) && !st.Sched? && s.sched.Checked?
    requires Least(Next(s, st).tokens, Next(s, st).queue, id)
    ensures Least(s.tokens, s.queue, id) && (Next(s, st).tokens[id].active ==> s.tokens[id].active)
  {
    hide Inv, Next, Enabled, Linked;
    InvLinks(s);
    QueueIsKept(s, st);
    QueuedGainsNothing(s, st, id);
    forall u | u in s.queue
      ensures u in s.tokens && !Tasks.After(KeyOf(s.tokens[id].task), KeyOf(s.tokens[u].task))
    {
      QueuedGainsNothing(s, st, u);
    }
  }

  predicate SameLoop(s: State, t: State) {
    (t.sched == s.sched || t.sched.Off?) && (t.isRunning ==> s.isRunning)
  }

  lemma ClientKeepsLoop(s: State, c: nat, op: ClientOp)
    requires Linked(s) && ClientEnabled(s, c, op)
    ensures SameLoop(s, ClientNext(s, c, op))
  {
  }

  lemma WorkerKeepsLoop(s: State, w: nat, op: WorkerOp)
    requires Linked(s) && WorkerEnabled(s, w, op)
    ensures SameLoop(s, WorkerNext(s, w, op))
  {
  }

  lemma CtlKeepsLoop(s: State, op: CtlOp)
    requires CtlEnabled(s, op) && !op.Start?
    ensures SameLoop(s, CtlNext(s, op))
  {
  }

  lemma OthersKeepLoop(s: State, st: Step)
    requires Linked(s) && Enabled(s, st) && !st.Sched? && st != Ctl(Start)
    ensures SameLoop(s, Next(s, st))
  {
    match st
    case Tick(_, _) =>
    case Client(c, op) => ClientKeepsLoop(s, c, op);
    case Worker(w, op) => WorkerKeepsLoop(s, w, op);
    case Ctl(op) => CtlKeepsLoop(s, op);
  }

  lemma OthersGiveNoChance(s: State, st: Step)
    requires Inv(s) && Enabled(s, st) && !st.Sched? && st != Ctl(Start)
    ensures CanDispatch(Next(s, st)) ==> CanDispatch(s)
  {
    hide Inv, Next, Enabled, Linked, GoesOn;
    InvLinks(s);
    var t := Next(s, st);
    OthersKeepLoop(s, st);
    if s.sched.Holding? {
      HandGainsNothing(s, st);
    } else if s.sched.Checked? && t.sched.Checked? {
      if id :| Least(t.tokens, t.queue, id) && t.tokens[id].active {
        LeastStays(s, st, id);
      }
    }
  }

  lemma StepWindsDown(s: State, st: Step)
    requires Inv(s) && !s.isRunning && st != Ctl(Start) && Enabled(s, st)
    ensures var t := Next(s, st);
            && !t.isRunning
            && |t.pool.enqueued| + Bit(CanDispatch(t)) <= |s.pool.enqueued| + Bit(CanDispatch(s))
  {
    hide Inv, Next, Linked, CanDispatch;
    InvLinks(s);
    Dispatches(s, st);
    if st.Sched? {
      SchedStepIs(s, st);
      SchedWindsDown(s, st.schedOp);
    } else {
      OthersKeepLoop(s, st);
      OthersGiveNoChance(s, st);
    }
  }

  lemma SchedStepIs(s: State, st: Step)
    requires Linked(s) && Enabled(s, st) && st.Sched?
    ensures SchedEnabled(s, st.schedOp) && Next(s, st) == SchedNext(s, st.schedOp)
  {
  }

  lemma {:induction false} RunWindsDown(s: State, steps: seq<Step>)
    requires Inv(s) && !s.isRunning && NoStart(steps)
    ensures var t := Run(s, steps);
            && !t.isRunning
            && |t.pool.enqueued| + Bit(CanDispatch(t)) <= |s.pool.enqueued| + Bit(CanDispatch(s))
    decreases |steps|
  {
    hide Inv, Next, Enabled, Linked, CanDispatch;
    if steps != [] {
      var t, st := Run(s, steps[..|steps| - 1]), steps[|steps| - 1];
      RunWindsDown(s, steps[..|steps| - 1]);
      RunKeepsInv(s, steps[..|steps| - 1]);
      if Linked(t) && Enabled(t, st) {
        StepWindsDown(t, st);
      }
    }
  }

  // ---------- The dispatch can happen ----------

  lemma {:induction false} EnqueuedGrows(s: State, steps: seq<Step>)
    ensures |s.pool.enqueued| <= |Run(s, steps).pool.enqueued|
    decreases |steps|
  {
    hide Next, Enabled, Linked;
    if steps != [] {
      var t, st := Run(s, steps[..|steps| - 1]), steps[|steps| - 1];
      EnqueuedGrows(s, steps[..|steps| - 1]);
      if Linked(t) && Enabled(t, st) {
        Dispatches(t, st);
      }
    }
  }

  /** Some schedule without start() dispatches a further task. */
  ghost predicate Dispatching(s: State, steps: seq<Step>) {
    NoStart(steps) && |Run(s, steps).pool.enqueued| > |s.pool.enqueued|
  }

  lemma ThenDispatching(s: State, st: Step, rest: seq<Step>) returns (steps: seq<Step>)
    requires st != Ctl(Start) && Dispatching(Apply(s, st), rest)
    requires |Apply(s, st).pool.enqueued| >= |s.pool.enqueued|
    ensures Dispatching(s, steps)
  {
    hide Run, Apply;
    steps := [st] + rest;
    RunOne(s, st);
    RunAppend(s, [st], rest);
  }

  lemma DispatchMarked(s: State, id: Id) returns (steps: seq<Step>)
    requires Reachable(s) && s.sched == Holding(id, Marked)
    ensures Dispatching(s, steps)
  {
    hide Reachable, Run, Apply, Placed, Linked, Inv;
    ReachableInv(s);
    InvHand(s);
    var first := FreesMutex(s, id);
    var t := Run(s, first);
    ReachablePlaced(t);
    EnqueueIs(t, id);
    steps := first + [Sched(Enqueue)];
    RunOne(t, Sched(Enqueue));
    RunAppend(s, first, [Sched(Enqueue)]);
    EnqueuedGrows(s, first);
  }

  lemma DecideIs(s: State, id: Id, phase: Phase, next: Phase)
    requires Linked(s) && s.sched == Holding(id, phase) && GoesOn(s.tokens[id], phase)
    requires match phase case Popped => next.LookedUp? case LookedUp => next.Approved? case _ => next.Marked?
    requires !phase.Marked?
    ensures var t := Apply(s, Sched(Decide));
            && t.sched == Holding(id, next) && t.pool == s.pool
            && id in t.tokens && t.tokens[id].active == s.tokens[id].active
  {
  }

  lemma DispatchApproved(s: State, id: Id) returns (steps: seq<Step>)
    requires Reachable(s) && s.sched == Holding(id, Approved)
    ensures Dispatching(s, steps)
  {
    hide Reachable, Apply, Placed, Linked, Dispatching;
    ReachablePlaced(s);
    DecideIs(s, id, Approved, Marked);
    StepReachable(s, Sched(Decide));
    var rest := DispatchMarked(Apply(s, Sched(Decide)), id);
    steps := ThenDispatching(s, Sched(Decide), rest);
  }

  lemma DispatchLookedUp(s: State, id: Id) returns (steps: seq<Step>)
    requires Reachable(s) && s.sched == Holding(id, LookedUp) && id in s.tokens && GoesOn(s.tokens[id], LookedUp)
    ensures Dispatching(s, steps)
  {
    hide Reachable, Apply, Placed, Linked, Dispatching, GoesOn;
    ReachablePlaced(s);
    DecideIs(s, id, LookedUp, Approved);
    StepReachable(s, Sched(Decide));
    var rest := DispatchApproved(Apply(s, Sched(Decide)), id);
    steps := ThenDispatching(s, Sched(Decide), rest);
  }

  /** An active task that has been looked up is PENDING. */
  lemma ActiveGoesOn(s: State, id: Id)
    requires Reachable(s) && s.sched == Holding(id, LookedUp) && id in s.tokens && s.tokens[id].active
    ensures GoesOn(s.tokens[id], LookedUp)
  {
    ReachableInv(s);
    InvHand(s);
    assert TokenInv(s.tokens[id], s.now);
  }

  lemma DispatchPopped(s: State, id: Id) returns (steps: seq<Step>)
    requires Reachable(s) && s.sched == Holding(id, Popped) && id in s.tokens && s.tokens[id].active
    ensures Dispatching(s, steps)
  {
    hide Reachable, Apply, Placed, Linked, Dispatching;
    ReachablePlaced(s);
    DecideIs(s, id, Popped, LookedUp);
    StepReachable(s, Sched(Decide));
    ActiveGoesOn(Apply(s, Sched(Decide)), id);
    var rest := DispatchLookedUp(Apply(s, Sched(Decide)), id);
    steps := ThenDispatching(s, Sched(Decide), rest);
  }

  lemma TickIs(s: State, ticks: nat)
    requires Linked(s)
    ensures Apply(s, Tick(ticks, 0)) == s.(now := Clock(s.now.system + ticks, s.now.steady))
    ensures Linked(Apply(s, Tick(ticks, 0)))
  {
  }

  lemma PopDueIs(s: State, id: Id)
    requires Linked(s) && SchedEnabled(s, PopTask(id)) && s.tokens[id].task.startTime <= s.now.system
    ensures var t := Apply(s, Sched(PopTask(id)));
            && t.sched == Holding(id, Popped) && t.pool == s.pool
            && id in t.tokens && t.tokens[id].active == s.tokens[id].active
  {
  }

  lemma DispatchQueued(s: State, id: Id) returns (steps: seq<Step>)
    requires Reachable(s) && s.sched.Checked? && Least(s.tokens, s.queue, id) && s.tokens[id].active
    ensures Dispatching(s, steps)
  {
    hide Reachable, Apply, Placed, Linked, Dispatching;
    ReachablePlaced(s);
    var wait := Since(s.now.system, s.tokens[id].task.startTime);
    var t := Apply(s, Tick(wait, 0));
    TickIs(s, wait);
    StepReachable(s, Tick(wait, 0));
    PopDueIs(t, id);
    StepReachable(t, Sched(PopTask(id)));
    var rest := DispatchPopped(Apply(t, Sched(PopTask(id))), id);
    var popped := ThenDispatching(t, Sched(PopTask(id)), rest);
    steps := ThenDispatching(s, Tick(wait, 0), popped);
  }

  lemma DispatchesOne(s: State) returns (steps: seq<Step>)
    requires Reachable(s) && CanDispatch(s)
    ensures Dispatching(s, steps)
  {
    hide Reachable, Dispatching;
    if s.sched.Checked? {
      var id :| Least(s.tokens, s.queue, id) && s.tokens[id].active;
      steps := DispatchQueued(s, id);
    } else {
      match s.sched.phase {
        case Popped => steps := DispatchPopped(s, s.sched.id);
        case LookedUp => steps := DispatchLookedUp(s, s.sched.id);
        case Approved => steps := DispatchApproved(s, s.sched.id);
        case Marked => steps := DispatchMarked(s, s.sched.id);
      }
    }
  }

  // ---------- After the pool's stop flag is set ----------

  lemma StepKeepsPoolBudget(s: State, st: Step)
    requires Inv(s) && s.pool.stopFlag
    ensures var p, q := s.pool, Apply(s, st).pool;
            q.stopFlag && |q.dequeued| + P.Committed(q) <= |p.dequeued| + P.Committed(p)
  {
    if Enabled(s, st) {
      StepIsPoolStep(s, st);
      var ps := PoolStepOf(s, st);
      if ps.Some? {
        P.StepKeepsBudget(s.pool, ps.value);
      }
    }
  }

  lemma {:induction false} RunKeepsPoolBudget(s: State, steps: seq<Step>)
    requires Inv(s) && s.pool.stopFlag
    ensures var p, q := s.pool, Run(s, steps).pool;
            q.stopFlag && |q.dequeued| + P.Committed(q) <= |p.dequeued| + P.Committed(p)
    decreases |steps|
  {
    if steps != [] {
      RunKeepsPoolBudget(s, steps[..|steps| - 1]);
      RunKeepsInv(s, steps[..|steps| - 1]);
      StepKeepsPoolBudget(Run(s, steps[..|steps| - 1]), steps[|steps| - 1]);
    }
  }

  /** A worker that is bound to take a job takes it. */
  lemma CommittedTakes(s: State)
    requires Linked(s) && P.MutexInv(s.pool) && P.Committed(s.pool) == 1
    ensures var t := Apply(s, Worker(s.pool.holder.value, TakeJob)); |t.pool.dequeued| > |s.pool.dequeued|
  {
  }

  lemma CommittedLeads(s: State)
    requires Reachable(s) && P.Committed(s.pool) == 1
    ensures exists t :: LeadsTo(s, t) && |t.pool.dequeued| > |s.pool.dequeued|
  {
    hide Reachable, Inv, Apply, Run, P.Committed;
    ReachableInv(s);
    InvPool(s);
    var st := Worker(s.pool.holder.value, TakeJob);
    CommittedTakes(s);
    RunOne(s, st);
    assert LeadsTo(s, Run(s, [st]));
  }

  // ---------- After stop() has returned ----------

  /** No execution that is in t began after s. */
  ghost predicate NothingStarted(s: State, t: State) {
    && (forall id :: id in s.tokens ==> id in t.tokens && t.tokens[id].hist.starts == s.tokens[id].hist.starts)
    && (forall id :: id in t.tokens && id !in s.tokens ==> t.tokens[id].hist.starts == [])
  }

  lemma StoppedMeansIdle(s: State)
    requires Inv(s) && s.pool.stopped
    ensures s.exec == map[]
  {
    assert P.AllExited(s.pool);
    assert s.exec.Keys == {};
  }

  lemma OnlyWorkStarts(t: Token, ev: Event, now: Clock)
    requires Happens(t, ev, now) && !ev.Work?
    ensures AfterEvent(t, ev, now).hist.starts == t.hist.starts
  {
  }

  lemma WorkEvent(s: State, st: Step, id: Id)
    requires Linked(s) && Enabled(s, st) && id in s.tokens && s.exec == map[]
    ensures EventOf(s, st, id).Some? ==> !EventOf(s, st, id).value.Work?
  {
  }

  lemma TokenAfterStop(s: State, st: Step, id: Id)
    requires Inv(s) && s.pool.stopped && Enabled(s, st) && id in s.tokens
    ensures id in Next(s, st).tokens && Next(s, st).tokens[id].hist.starts == s.tokens[id].hist.starts
  {
    StoppedMeansIdle(s);
    StepIsEvent(s, st, id);
    WorkEvent(s, st, id);
    var ev := EventOf(s, st, id);
    if ev.Some? {
      OnlyWorkStarts(s.tokens[id], ev.value, s.now);
    }
  }

  lemma PoolAfterStop(s: State, st: Step)
    requires Linked(s) && s.pool.stopped && Enabled(s, st)
    ensures Next(s, st).pool.stopped
  {
    hide Next, Enabled, Linked, P.Next, P.Enabled;
    StepIsPoolStep(s, st);
    var ps := PoolStepOf(s, st);
    if ps.Some? {
      P.StoppedStays(s.pool, ps.value);
    }
  }

  lemma StepAfterStop(s: State, st: Step)
    requires Inv(s) && s.pool.stopped
    ensures Apply(s, st).pool.stopped && NothingStarted(s, Apply(s, st))
  {
    hide Inv, Next, Enabled, Linked;
    InvLinks(s);
    if Enabled(s, st) {
      PoolAfterStop(s, st);
      NewTokens(s, st);
      forall id | id in s.tokens
        ensures id in Next(s, st).tokens && Next(s, st).tokens[id].hist.starts == s.tokens[id].hist.starts
      {
        TokenAfterStop(s, st, id);
      }
    } else {
      SameStarts(s);
    }
  }

  lemma SameStarts(s: State)
    ensures NothingStarted(s, s)
  {
  }

  lemma {:induction false} RunAfterStop(s: State, steps: seq<Step>)
    requires Inv(s) && s.pool.stopped
    ensures var t := Run(s, steps);
            Inv(t) && t.pool.stopped && t.exec == map[] && NothingStarted(s, t)
    decreases |steps|
  {
    RunKeepsInv(s, steps);
    if steps != [] {
      var t := Run(s, steps[..|steps| - 1]);
      RunAfterStop(s, steps[..|steps| - 1]);
      StepAfterStop(t, steps[|steps| - 1]);
    }
    StoppedMeansIdle(Run(s, steps));
  }
}
