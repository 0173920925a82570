/** The statistics count what really happened: each counter is a total over all tasks of the run. */
module Totals {
  import opened Options
  import opened Counting
  import opened TaskIds
  import opened Tasks
  import opened Lifecycle
  import opened Protocol
  import opened Ownership
  import opened Simulation
  import opened Invariant

  /** How often the executions of a task ended with outcome x. */
  function Occurs(x: Outcome): Token -> nat {
    (t: Token) => multiset(t.hist.outcomes)[x]
  }

  /** The counter for an outcome. */
  function Counter(s: State, x: Outcome): nat {
    match x
    case Success => s.stats.tasksCompleted
    case Failure => s.stats.tasksFailed
    case Timeout => s.stats.tasksTimeout
    case CancelSeen => s.log.cancelledFinishes
  }

  /** The worker is between the status of outcome x and its counter. */
  function AboutToCount(x: Outcome): Exec -> bool {
    (e: Exec) =>
      match x
      case Success => e.at.DoneCount?
      case Failure => e.at.FailCount?
      case Timeout => e.at.TimeoutCount?
      case CancelSeen => false
  }

  ghost predicate TotalIs(s: State, x: Outcome) {
    Counter(s, x) + Count(s.exec, AboutToCount(x)) == Sum(s.tokens, Occurs(x))
  }

  /** A scheduleTask call that has not reached its statistics. */
  predicate Unscheduled(c: Call) {
    c.Created? || c.Inserted? || c.Pushed?
  }

  ghost predicate ScheduledAddUp(s: State) {
    s.stats.totalTasksScheduled + Count(s.calls, Unscheduled) == |s.tokens.Keys|
  }

  predicate IsSkipped(t: Token) {
    t.loc.Skipped?
  }

  predicate IsDropped(t: Token) {
    t.loc.Dropped?
  }

  ghost predicate RetiredAddUp(s: State) {
    s.log.skipped == Count(s.tokens, IsSkipped) && s.log.dropped == Count(s.tokens, IsDropped)
  }

  // ---------- Outcomes ----------

  /** The outcome that the statement at p decides. */
  function Decided(t: Token, p: Point): Option<Outcome> {
    match p
    case TimeoutSet => Some(Timeout)
    case FinalCheck => if t.task.status.Cancelled? then Some(CancelSeen) else None
    case DoneSet => Some(Success)
    case FailSet => Some(Failure)
    case _ => None
  }

  lemma WorkOutcomes(t: Token, w: nat, p: Point, choice: Choice, now: Clock, x: Outcome)
    requires ChoiceFits(p, choice) && !p.Finished?
    ensures Occurs(x)(WorkToken(t, w, p, choice, now)) == Occurs(x)(t) + Bit(Decided(t, p) == Some(x))
  {
  }

  lemma WorkCounters(s: State, w: nat, choice: Choice, x: Outcome)
    requires Linked(s) && WorkerEnabled(s, w, Statement(choice))
    ensures var e, f := s.exec[w], WorkNext(s, w, choice).exec[w];
            Counter(WorkNext(s, w, choice), x) + Bit(AboutToCount(x)(f)) ==
              Counter(s, x) + Bit(AboutToCount(x)(e)) + Bit(Decided(s.tokens[e.id], e.at) == Some(x))
  {
  }

  lemma StatementKeepsTotal(s: State, w: nat, choice: Choice, x: Outcome)
    requires Linked(s) && WorkerEnabled(s, w, Statement(choice)) && TotalIs(s, x)
    ensures TotalIs(WorkNext(s, w, choice), x)
  {
    var e, t := s.exec[w], WorkNext(s, w, choice);
    WorkOutcomes(s.tokens[e.id], w, e.at, choice, s.now, x);
    WorkCounters(s, w, choice, x);
    assert t.tokens == s.tokens[e.id := t.tokens[e.id]] && t.exec == s.exec[w := t.exec[w]];
    SumPut(s.tokens, e.id, t.tokens[e.id], Occurs(x));
    CountPut(s.exec, w, t.exec[w], AboutToCount(x));
  }

  lemma CreateKeepsTotal(s: State, c: nat, config: Config, x: Outcome)
    requires Linked(s) && GenerateTaskId(s.nextId) !in s.tokens && ClientEnabled(s, c, Create(config)) && TotalIs(s, x)
    ensures TotalIs(ClientNext(s, c, Create(config)), x)
  {
    SumPut(s.tokens, GenerateTaskId(s.nextId), NewToken(config, c), Occurs(x));
  }

  lemma EventKeepsOutcomes(t: Token, ev: Event, now: Clock)
    requires Happens(t, ev, now) && !ev.Work?
    ensures AfterEvent(t, ev, now).hist.outcomes == t.hist.outcomes
  {
  }

  lemma SameOutcomes(s: State, st: Step, id: Id)
    requires Inv(s) && Enabled(s, st) && Plain(st) && id in s.tokens
    ensures id in Next(s, st).tokens && Next(s, st).tokens[id].hist.outcomes == s.tokens[id].hist.outcomes
  {
    hide Inv, Next, Enabled, Linked, AfterEvent, Happens;
    InvLinks(s);
    TokenBecomes(s, st, id);
    PlainEvent(s, st, id);
    var ev := EventOf(s, st, id);
    if ev.Some? {
      EventKeepsOutcomes(s.tokens[id], ev.value, s.now);
    }
  }

  /** Counters and the workers about to count change only at a worker's statement. */
  lemma SameCounters(s: State, st: Step, x: Outcome)
    requires Linked(s) && BusyInv(s) && Enabled(s, st) && Plain(st)
    ensures Counter(Next(s, st), x) == Counter(s, x)
    ensures Count(Next(s, st).exec, AboutToCount(x)) == Count(s.exec, AboutToCount(x))
  {
    match st
    case Tick(_, _) =>
    case Client(c, op) => ClientCounters(s, c, op, x);
    case Sched(op) => SchedCounters(s, op);
    case Worker(w, op) => LoopCounters(s, w, op, x);
    case Ctl(_) =>
  }

  lemma SchedCounters(s: State, op: SchedOp)
    requires Linked(s) && SchedEnabled(s, op)
    ensures var t := SchedNext(s, op);
            t.stats == s.stats && t.log.cancelledFinishes == s.log.cancelledFinishes && t.exec == s.exec
  {
    match op
    case TestRunning =>
    case WakeForWork =>
    case PopTask(_) =>
    case WakeForTime =>
    case Decide =>
    case Enqueue =>
    case Notify(_) =>
  }

  lemma ClientCounters(s: State, c: nat, op: ClientOp, x: Outcome)
    requires Linked(s) && ClientEnabled(s, c, op)
    ensures Counter(ClientNext(s, c, op), x) == Counter(s, x) && ClientNext(s, c, op).exec == s.exec
  {
  }

  lemma LoopCounters(s: State, w: nat, op: WorkerOp, x: Outcome)
    requires Linked(s) && BusyInv(s) && WorkerEnabled(s, w, op) && !op.Statement?
    ensures Counter(WorkerNext(s, w, op), x) == Counter(s, x)
    ensures Count(WorkerNext(s, w, op).exec, AboutToCount(x)) == Count(s.exec, AboutToCount(x))
  {
    match op
    case TakeJob => CountPut(s.exec, w, Exec(s.pool.queue[0], Taken), AboutToCount(x));
    case Finish => CountRemove(s.exec, w, AboutToCount(x));
    case _ =>
  }

  lemma QuietStepKeepsTotal(s: State, st: Step, x: Outcome)
    requires Inv(s) && Enabled(s, st) && Plain(st) && TotalIs(s, x)
    ensures TotalIs(Next(s, st), x)
  {
    hide Inv, Next, Enabled, Linked, BusyInv;
    InvThreads(s);
    var t := Next(s, st);
    NewTokens(s, st);
    SameCounters(s, st, x);
    forall id | id in s.tokens
      ensures id in t.tokens && t.tokens[id].hist.outcomes == s.tokens[id].hist.outcomes
    {
      SameOutcomes(s, st, id);
    }
    SumSame(s.tokens, t.tokens, Occurs(x));
  }

  lemma InvThreads(s: State)
    requires Inv(s)
    ensures Linked(s) && BusyInv(s)
  {
  }

  lemma StepKeepsTotal(s: State, st: Step, x: Outcome)
    requires Inv(s) && Enabled(s, st) && TotalIs(s, x)
    ensures TotalIs(Next(s, st), x)
  {
    if Plain(st) {
      QuietStepKeepsTotal(s, st, x);
    } else if st.Worker? {
      StatementKeepsTotal(s, st.w, st.workerOp.choice, x);
    } else {
      FreshId(s);
      CreateKeepsTotal(s, st.c, st.clientOp.config, x);
    }
  }

  // ---------- Tasks scheduled ----------

  lemma CallsCount(s: State, c: nat, op: ClientOp)
    requires Linked(s) && ClientEnabled(s, c, op)
    ensures Count(ClientNext(s, c, op).calls, Unscheduled) + Bit(op.CountScheduled?) ==
            Count(s.calls, Unscheduled) + Bit(op.Create?)
  {
    var call := NextCall(s, c, op);
    if call.Some? {
      CountPut(s.calls, c, call.value, Unscheduled);
    } else {
      CountRemove(s.calls, c, Unscheduled);
    }
  }

  lemma ClientScheduled(s: State, c: nat, op: ClientOp)
    requires Linked(s) && ClientEnabled(s, c, op)
    ensures ClientNext(s, c, op).stats.totalTasksScheduled == s.stats.totalTasksScheduled + Bit(op.CountScheduled?)
  {
  }

  lemma OthersScheduled(s: State, st: Step)
    requires Linked(s) && Enabled(s, st) && !st.Client?
    ensures Next(s, st).stats.totalTasksScheduled == s.stats.totalTasksScheduled && Next(s, st).calls == s.calls
  {
    StepNames(s, st);
  }

  lemma StepKeepsScheduled(s: State, st: Step)
    requires Inv(s) && Enabled(s, st) && ScheduledAddUp(s)
    ensures ScheduledAddUp(Next(s, st))
  {
    hide Inv, Next, Enabled, Linked;
    InvLinks(s);
    NewKeys(s, st);
    if st.Client? {
      ClientStepIs(s, st);
      CallsCount(s, st.c, st.clientOp);
      ClientScheduled(s, st.c, st.clientOp);
    } else {
      OthersScheduled(s, st);
    }
  }

  lemma ClientStepIs(s: State, st: Step)
    requires Linked(s) && Enabled(s, st) && st.Client?
    ensures ClientEnabled(s, st.c, st.clientOp) && Next(s, st) == ClientNext(s, st.c, st.clientOp)
  {
  }

  lemma CreateKeys(s: State, c: nat, config: Config)
    requires Linked(s) && IdsInv(s) && ClientEnabled(s, c, Create(config))
    ensures |ClientNext(s, c, Create(config)).tokens.Keys| == |s.tokens.Keys| + 1
  {
    FreshId(s);
    assert ClientNext(s, c, Create(config)).tokens.Keys == s.tokens.Keys + {GenerateTaskId(s.nextId)};
  }

  lemma InvIds(s: State)
    requires Inv(s)
    ensures Linked(s) && IdsInv(s)
  {
  }

  lemma NewKeys(s: State, st: Step)
    requires Inv(s) && Enabled(s, st)
    ensures |Next(s, st).tokens.Keys| == |s.tokens.Keys| + Bit(st.Client? && st.clientOp.Create?)
  {
    hide Inv, Next, Enabled, Linked, IdsInv, ClientNext, ClientEnabled;
    InvIds(s);
    if st.Client? {
      ClientStepIs(s, st);
      if st.clientOp.Create? {
        CreateKeys(s, st.c, st.clientOp.config);
      } else {
        ClientNames(s, st.c, st.clientOp);
      }
    } else {
      StepNames(s, st);
      if st.Tick? {
        TickKeys(s, st);
      }
    }
  }

  lemma TickKeys(s: State, st: Step)
    requires Linked(s) && Enabled(s, st) && st.Tick?
    ensures Next(s, st).tokens == s.tokens
  {
  }

  // ---------- Tasks thrown away before they reach the pool ----------

  predicate ThrowsAway(st: Step) {
    st == Sched(Decide) || (st.Client? && (st.clientOp.Create? || st.clientOp.CancelInQueue?))
  }

  lemma EventKeepsFate(t: Token, ev: Event, now: Clock)
    requires Happens(t, ev, now) && !ev.Advance? && !ev.CancelQueued?
    ensures IsSkipped(AfterEvent(t, ev, now)) == IsSkipped(t) && IsDropped(AfterEvent(t, ev, now)) == IsDropped(t)
  {
  }

  lemma KeepingEvent(s: State, st: Step, id: Id)
    requires Linked(s) && Enabled(s, st) && !ThrowsAway(st) && id in s.tokens
    ensures EventOf(s, st, id) != Some(Advance) && EventOf(s, st, id) != Some(CancelQueued)
  {
  }

  lemma SameFate(s: State, st: Step, id: Id)
    requires Inv(s) && Enabled(s, st) && !ThrowsAway(st) && id in s.tokens
    ensures id in Next(s, st).tokens
    ensures IsSkipped(Next(s, st).tokens[id]) == IsSkipped(s.tokens[id])
    ensures IsDropped(Next(s, st).tokens[id]) == IsDropped(s.tokens[id])
  {
    hide Inv, Next, Enabled, Linked, AfterEvent, Happens;
    InvLinks(s);
    TokenBecomes(s, st, id);
    KeepingEvent(s, st, id);
    var ev := EventOf(s, st, id);
    if ev.Some? {
      EventKeepsFate(s.tokens[id], ev.value, s.now);
    }
  }

  lemma SameLog(s: State, st: Step)
    requires Linked(s) && Enabled(s, st) && !ThrowsAway(st)
    ensures Next(s, st).log.skipped == s.log.skipped && Next(s, st).log.dropped == s.log.dropped
  {
    match st
    case Tick(_, _) =>
    case Client(c, op) => ClientLog(s, c, op);
    case Sched(op) => SchedLog(s, op);
    case Worker(w, op) => WorkerLog(s, w, op);
    case Ctl(_) =>
  }

  lemma WorkerLog(s: State, w: nat, op: WorkerOp)
    requires Linked(s) && WorkerEnabled(s, w, op)
    ensures WorkerNext(s, w, op).log.skipped == s.log.skipped && WorkerNext(s, w, op).log.dropped == s.log.dropped
  {
  }

  lemma SchedLog(s: State, op: SchedOp)
    requires Linked(s) && SchedEnabled(s, op) && !op.Decide?
    ensures SchedNext(s, op).log == s.log
  {
    match op
    case PopTask(_) =>
    case Enqueue =>
    case _ =>
  }

  lemma ClientLog(s: State, c: nat, op: ClientOp)
    requires Linked(s) && ClientEnabled(s, c, op) && !op.CancelInQueue?
    ensures ClientNext(s, c, op).log.skipped == s.log.skipped && ClientNext(s, c, op).log.dropped == s.log.dropped
  {
  }

  lemma DecideKeepsRetired(s: State)
    requires Placed(s) && SchedEnabled(s, Decide) && RetiredAddUp(s)
    ensures RetiredAddUp(SchedNext(s, Decide))
  {
    var id, t := s.sched.id, SchedNext(s, Decide);
    assert Located(s, id);
    CountPut(s.tokens, id, t.tokens[id], IsSkipped);
    CountPut(s.tokens, id, t.tokens[id], IsDropped);
  }

  lemma DropKeepsRetired(s: State, c: nat)
    requires Placed(s) && ClientEnabled(s, c, CancelInQueue) && RetiredAddUp(s)
    ensures RetiredAddUp(ClientNext(s, c, CancelInQueue))
  {
    var id, t := s.calls[c].id, ClientNext(s, c, CancelInQueue);
    if id in s.queue {
      QueuedToken(s, id);
      CountPut(s.tokens, id, DropToken(s.tokens[id]), IsSkipped);
      CountPut(s.tokens, id, DropToken(s.tokens[id]), IsDropped);
    }
  }

  lemma CreateKeepsRetired(s: State, c: nat, config: Config)
    requires Linked(s) && GenerateTaskId(s.nextId) !in s.tokens
    requires ClientEnabled(s, c, Create(config)) && RetiredAddUp(s)
    ensures RetiredAddUp(ClientNext(s, c, Create(config)))
  {
    CountPut(s.tokens, GenerateTaskId(s.nextId), NewToken(config, c), IsSkipped);
    CountPut(s.tokens, GenerateTaskId(s.nextId), NewToken(config, c), IsDropped);
  }

  lemma KeepingStep(s: State, st: Step)
    requires Inv(s) && Enabled(s, st) && !ThrowsAway(st) && RetiredAddUp(s)
    ensures RetiredAddUp(Next(s, st))
  {
    hide Inv, Next, Enabled, Linked;
    InvLinks(s);
    var t := Next(s, st);
    NewTokens(s, st);
    SameLog(s, st);
    forall id | id in s.tokens
      ensures id in t.tokens && IsSkipped(t.tokens[id]) == IsSkipped(s.tokens[id])
      ensures IsDropped(t.tokens[id]) == IsDropped(s.tokens[id])
    {
      SameFate(s, st, id);
    }
    assert Where(t.tokens, IsSkipped) == Where(s.tokens, IsSkipped);
    assert Where(t.tokens, IsDropped) == Where(s.tokens, IsDropped);
  }

  lemma StepKeepsRetired(s: State, st: Step)
    requires Inv(s) && Enabled(s, st) && RetiredAddUp(s)
    ensures RetiredAddUp(Next(s, st))
  {
    if !ThrowsAway(st) {
      KeepingStep(s, st);
    } else if st.Sched? {
      DecideKeepsRetired(s);
    } else if st.clientOp.CancelInQueue? {
      DropKeepsRetired(s, st.c);
    } else {
      FreshId(s);
      CreateKeepsRetired(s, st.c, st.clientOp.config);
    }
  }

  // ---------- Every run ----------

  ghost predicate Totalled(s: State) {
    (forall x: Outcome :: TotalIs(s, x)) && ScheduledAddUp(s) && RetiredAddUp(s)
  }

  lemma InitTotalled(numThreads: nat, now: Clock)
    ensures Totalled(Init(numThreads, now))
  {
  }

  lemma StepKeepsTotalled(s: State, st: Step)
    requires Inv(s) && Totalled(s)
    ensures Totalled(Apply(s, st))
  {
    hide Inv, TotalIs, ScheduledAddUp, RetiredAddUp, Next, Enabled, Linked;
    InvLinks(s);
    if Enabled(s, st) {
      forall x: Outcome
        ensures TotalIs(Next(s, st), x)
      {
        StepKeepsTotal(s, st, x);
      }
      StepKeepsScheduled(s, st);
      StepKeepsRetired(s, st);
    }
  }

  lemma {:induction false} RunKeepsTotalled(s: State, steps: seq<Step>)
    requires Inv(s) && Totalled(s)
    ensures Totalled(Run(s, steps))
    decreases |steps|
  {
    hide Inv, Totalled, Apply;
    if steps != [] {
      RunKeepsTotalled(s, steps[..|steps| - 1]);
      RunKeepsInv(s, steps[..|steps| - 1]);
      StepKeepsTotalled(Run(s, steps[..|steps| - 1]), steps[|steps| - 1]);
    }
  }

  lemma ReachableTotalled(s: State)
    requires Reachable(s)
    ensures Totalled(s)
  {
    hide Inv, Totalled;
    var numThreads: nat, now: Clock, steps: seq<Step> :| s == Run(Init(numThreads, now), steps);
    InitInv(numThreads, now);
    InitTotalled(numThreads, now);
    RunKeepsTotalled(Init(numThreads, now), steps);
  }
}
