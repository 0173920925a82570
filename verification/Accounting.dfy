/** Conservation: what is counted adds up in every reachable state. */
module Accounting {
  import opened Options
  import opened Counting
  import opened TaskIds
  import opened Tasks
  import opened Lifecycle
  import opened Protocol
  import opened Ownership
  import opened Simulation
  import opened Invariant

  /** Each push is still queued, in the scheduler's hand, thrown away, or was dispatched. */
  ghost predicate PushesAddUp(s: State) {
    s.log.pushes == |s.queue| + Bit(s.sched.Holding?) + s.log.skipped + s.log.dropped + |s.pool.enqueued|
  }

  /** The execution has not reached its updateStatistics call. */
  predicate BeforeStats(e: Exec) {
    match e.at
    case Taken => true
    case Executing => true
    case TimeoutSet => true
    case TimeoutCount => true
    case FinalCheck => true
    case DoneSet => true
    case DoneCount => true
    case FailSet => true
    case FailCount => true
    case _ => false
  }

  /** Each job taken by a worker is counted once, plus once more for each callback that threw into the
      catch branch. */
  ghost predicate JobsAddUp(s: State) {
    |s.pool.dequeued| + s.log.reentered ==
      s.stats.tasksCompleted + s.stats.tasksFailed + s.stats.tasksTimeout + s.log.cancelledFinishes
      + Count(s.exec, BeforeStats)
  }

  predicate Reentered(t: Token) {
    t.hist.reentered
  }

  /** The catch branch is entered from a callback at most once for each task. */
  ghost predicate ReentersAddUp(s: State) {
    s.log.reentered == Count(s.tokens, Reentered)
  }

  predicate HitActive(t: Token) {
    t.hist.activeHits == 1
  }

  predicate HitQueued(t: Token) {
    t.hist.queueHits == 1
  }

  predicate Uncounted(c: Call) {
    c.CancelHit?
  }

  /** tasksCancelled counts the successful cancelTask calls that have passed their statistics step. */
  ghost predicate CancelsAddUp(s: State) {
    s.stats.tasksCancelled + Count(s.calls, Uncounted) == Count(s.tokens, HitActive) + Count(s.tokens, HitQueued)
  }

  ghost predicate Balanced(s: State) {
    PushesAddUp(s) && JobsAddUp(s) && ReentersAddUp(s) && CancelsAddUp(s)
  }

  // ---------- Pushes ----------

  lemma ClientKeepsPushes(s: State, c: nat, op: ClientOp)
    requires Linked(s) && ClientEnabled(s, c, op) && PushesAddUp(s)
    ensures PushesAddUp(ClientNext(s, c, op))
  {
  }

  lemma SchedKeepsPushes(s: State, op: SchedOp)
    requires Placed(s) && CtlInv(s) && SchedEnabled(s, op) && PushesAddUp(s)
    ensures PushesAddUp(SchedNext(s, op))
  {
  }

  lemma WorkerKeepsPushes(s: State, w: nat, op: WorkerOp)
    requires Linked(s) && WorkerEnabled(s, w, op) && PushesAddUp(s)
    ensures PushesAddUp(WorkerNext(s, w, op))
  {
  }

  lemma CtlKeepsPushes(s: State, op: CtlOp)
    requires CtlInv(s) && CtlEnabled(s, op) && PushesAddUp(s)
    ensures PushesAddUp(CtlNext(s, op))
  {
  }

  // ---------- Jobs ----------

  lemma StatementKeepsJobs(s: State, w: nat, choice: Choice)
    requires Linked(s) && WorkerEnabled(s, w, Statement(choice)) && JobsAddUp(s)
    ensures JobsAddUp(WorkNext(s, w, choice))
  {
    hide Linked, WorkerEnabled, WorkNext;
    StatementCounts(s, w, choice);
    CountPut(s.exec, w, WorkNext(s, w, choice).exec[w], BeforeStats);
  }

  lemma StatementCounts(s: State, w: nat, choice: Choice)
    requires Linked(s) && WorkerEnabled(s, w, Statement(choice))
    ensures var t := WorkNext(s, w, choice);
            && w in s.exec && w in t.exec && t.exec == s.exec[w := t.exec[w]] && t.pool == s.pool
            && t.stats.tasksCompleted + t.stats.tasksFailed + t.stats.tasksTimeout + t.log.cancelledFinishes
               + Bit(BeforeStats(t.exec[w])) + s.log.reentered ==
               s.stats.tasksCompleted + s.stats.tasksFailed + s.stats.tasksTimeout + s.log.cancelledFinishes
               + Bit(BeforeStats(s.exec[w])) + t.log.reentered
  {
  }

  lemma TakeKeepsJobs(s: State, w: nat)
    requires Linked(s) && BusyInv(s) && WorkerEnabled(s, w, TakeJob) && JobsAddUp(s)
    ensures JobsAddUp(WorkerNext(s, w, TakeJob))
  {
    CountPut(s.exec, w, Exec(s.pool.queue[0], Taken), BeforeStats);
  }

  lemma WorkerKeepsJobs(s: State, w: nat, op: WorkerOp)
    requires Linked(s) && BusyInv(s) && WorkerEnabled(s, w, op) && JobsAddUp(s)
    ensures JobsAddUp(WorkerNext(s, w, op))
  {
    match op
    case Statement(choice) => StatementKeepsJobs(s, w, choice);
    case TakeJob => TakeKeepsJobs(s, w);
    case Finish => CountRemove(s.exec, w, BeforeStats);
    case _ =>
  }

  lemma ClientKeepsJobs(s: State, c: nat, op: ClientOp)
    requires Linked(s) && ClientEnabled(s, c, op) && JobsAddUp(s)
    ensures JobsAddUp(ClientNext(s, c, op))
  {
  }

  lemma SchedKeepsJobs(s: State, op: SchedOp)
    requires Linked(s) && SchedEnabled(s, op) && JobsAddUp(s)
    ensures JobsAddUp(SchedNext(s, op))
  {
  }

  lemma CtlKeepsJobs(s: State, op: CtlOp)
    requires CtlEnabled(s, op) && JobsAddUp(s)
    ensures JobsAddUp(CtlNext(s, op))
  {
  }

  // ---------- Callbacks that throw into the catch branch ----------

  lemma StatementKeepsReenters(s: State, w: nat, choice: Choice)
    requires Placed(s) && WorkerEnabled(s, w, Statement(choice)) && ReentersAddUp(s)
    requires OutcomeInv(s.tokens[s.exec[w].id])
    ensures ReentersAddUp(WorkNext(s, w, choice))
  {
    CountPut(s.tokens, s.exec[w].id, WorkNext(s, w, choice).tokens[s.exec[w].id], Reentered);
  }

  lemma CreateKeepsReenters(s: State, c: nat, config: Config)
    requires Linked(s) && ClientEnabled(s, c, Create(config)) && ReentersAddUp(s)
    requires GenerateTaskId(s.nextId) !in s.tokens
    ensures ReentersAddUp(ClientNext(s, c, Create(config)))
  {
    CountPut(s.tokens, GenerateTaskId(s.nextId), NewToken(config, c), Reentered);
  }

  lemma PlainLog(s: State, st: Step)
    requires Linked(s) && Enabled(s, st) && Plain(st)
    ensures Next(s, st).log.reentered == s.log.reentered
  {
    match st
    case Tick(_, _) =>
    case Client(c, op) => ClientKeepsReenterLog(s, c, op);
    case Sched(op) =>
    case Worker(w, op) =>
    case Ctl(op) =>
  }

  lemma ClientKeepsReenterLog(s: State, c: nat, op: ClientOp)
    requires Linked(s) && ClientEnabled(s, c, op)
    ensures ClientNext(s, c, op).log.reentered == s.log.reentered
  {
  }

  lemma PlainTokenReenters(s: State, st: Step, id: Id)
    requires Inv(s) && Enabled(s, st) && Plain(st) && id in s.tokens
    ensures id in Next(s, st).tokens && Next(s, st).tokens[id].hist.reentered == s.tokens[id].hist.reentered
  {
    StepIsEvent(s, st, id);
    PlainEvent(s, st, id);
    var ev := EventOf(s, st, id);
    if ev.Some? {
      EventKeepsReentered(s.tokens[id], ev.value, s.now);
    }
  }

  lemma PlainStepKeepsReenters(s: State, st: Step)
    requires Inv(s) && Enabled(s, st) && Plain(st) && ReentersAddUp(s)
    ensures ReentersAddUp(Next(s, st))
  {
    hide Inv, Next, Enabled, Linked;
    InvLinks(s);
    var t := Next(s, st);
    PlainLog(s, st);
    NewTokens(s, st);
    forall id | id in s.tokens
      ensures id in t.tokens && t.tokens[id].hist.reentered == s.tokens[id].hist.reentered
    {
      PlainTokenReenters(s, st, id);
    }
    assert Where(t.tokens, Reentered) == Where(s.tokens, Reentered);
  }

  // ---------- Cancellations ----------

  lemma CallKeepsCount(s: State, c: nat, op: ClientOp)
    requires Linked(s) && ClientEnabled(s, c, op)
    ensures Count(ClientNext(s, c, op).calls, Uncounted) + Bit(op.CountCancelled?) ==
            Count(s.calls, Uncounted) + Bit(NextCall(s, c, op).Some? && NextCall(s, c, op).value.CancelHit?)
  {
    var call := NextCall(s, c, op);
    if call.Some? {
      CountPut(s.calls, c, call.value, Uncounted);
    } else {
      CountRemove(s.calls, c, Uncounted);
    }
  }

  lemma SameHits(s: State, t: State)
    requires t.tokens.Keys == s.tokens.Keys
    requires forall id :: id in s.tokens ==>
               t.tokens[id].hist.activeHits == s.tokens[id].hist.activeHits
               && t.tokens[id].hist.queueHits == s.tokens[id].hist.queueHits
    ensures Count(t.tokens, HitActive) == Count(s.tokens, HitActive)
    ensures Count(t.tokens, HitQueued) == Count(s.tokens, HitQueued)
  {
    assert Where(t.tokens, HitActive) == Where(s.tokens, HitActive);
    assert Where(t.tokens, HitQueued) == Where(s.tokens, HitQueued);
  }

  predicate Quiet(st: Step) {
    st.Client? ==> !st.clientOp.Create? && !st.clientOp.CancelInActive? && !st.clientOp.CancelInQueue?
  }

  lemma QuietEvent(s: State, st: Step, id: Id)
    requires Linked(s) && Enabled(s, st) && Quiet(st) && id in s.tokens
    ensures EventOf(s, st, id) != Some(CancelActive) && EventOf(s, st, id) != Some(CancelQueued)
  {
  }

  /** A step that is neither of the two searches of cancelTask records no hit. */
  lemma QuietTokenHits(s: State, st: Step, id: Id)
    requires Inv(s) && Enabled(s, st) && Quiet(st) && id in s.tokens
    ensures id in Next(s, st).tokens
    ensures Next(s, st).tokens[id].hist.activeHits == s.tokens[id].hist.activeHits
    ensures Next(s, st).tokens[id].hist.queueHits == s.tokens[id].hist.queueHits
  {
    StepIsEvent(s, st, id);
    QuietEvent(s, st, id);
    var ev := EventOf(s, st, id);
    if ev.Some? {
      EventKeepsHits(s.tokens[id], ev.value, s.now);
    }
  }

  lemma QuietStepKeepsHits(s: State, st: Step)
    requires Inv(s) && Enabled(s, st) && Quiet(st)
    ensures Count(Next(s, st).tokens, HitActive) == Count(s.tokens, HitActive)
    ensures Count(Next(s, st).tokens, HitQueued) == Count(s.tokens, HitQueued)
  {
    var t := Next(s, st);
    NewTokens(s, st);
    forall id | id in s.tokens
      ensures id in t.tokens && t.tokens[id].hist.activeHits == s.tokens[id].hist.activeHits
      ensures t.tokens[id].hist.queueHits == s.tokens[id].hist.queueHits
    {
      QuietTokenHits(s, st, id);
    }
    SameHits(s, t);
  }

  lemma CreateKeepsCancels(s: State, c: nat, config: Config)
    requires IdsInv(s) && Linked(s) && ClientEnabled(s, c, Create(config)) && CancelsAddUp(s)
    ensures CancelsAddUp(ClientNext(s, c, Create(config)))
  {
    FreshId(s);
    CallKeepsCount(s, c, Create(config));
    CountPut(s.tokens, GenerateTaskId(s.nextId), NewToken(config, c), HitActive);
    CountPut(s.tokens, GenerateTaskId(s.nextId), NewToken(config, c), HitQueued);
  }

  lemma ActiveHitKeepsCancels(s: State, c: nat)
    requires Linked(s) && ClientEnabled(s, c, CancelInActive) && CancelsAddUp(s)
    requires s.calls[c].id in s.tokens ==> CancelInv(s.tokens[s.calls[c].id]) && StatusInv(s.tokens[s.calls[c].id])
    ensures CancelsAddUp(ClientNext(s, c, CancelInActive))
  {
    CallKeepsCount(s, c, CancelInActive);
    var id := s.calls[c].id;
    if IsActive(s, id) {
      CountPut(s.tokens, id, CancelToken(s.tokens[id]), HitActive);
      CountPut(s.tokens, id, CancelToken(s.tokens[id]), HitQueued);
    }
  }

  lemma QueueHitKeepsCancels(s: State, c: nat)
    requires Placed(s) && ClientEnabled(s, c, CancelInQueue) && CancelsAddUp(s)
    requires s.calls[c].id in s.tokens ==> CancelInv(s.tokens[s.calls[c].id])
    ensures CancelsAddUp(ClientNext(s, c, CancelInQueue))
  {
    CallKeepsCount(s, c, CancelInQueue);
    var id := s.calls[c].id;
    if id in s.queue {
      CountPut(s.tokens, id, DropToken(s.tokens[id]), HitActive);
      CountPut(s.tokens, id, DropToken(s.tokens[id]), HitQueued);
    }
  }

  lemma SameCalls(s: State, st: Step)
    requires Linked(s) && Enabled(s, st) && !st.Client?
    ensures Next(s, st).calls == s.calls && Next(s, st).stats.tasksCancelled == s.stats.tasksCancelled
  {
    StepNames(s, st);
  }

  lemma QuietClientKeepsCancels(s: State, c: nat, op: ClientOp)
    requires Inv(s) && ClientEnabled(s, c, op) && CancelsAddUp(s)
    requires !op.Create? && !op.CancelInActive? && !op.CancelInQueue?
    ensures CancelsAddUp(ClientNext(s, c, op))
  {
    hide Inv, Next, Linked, ClientNext, ClientEnabled;
    InvLinks(s);
    ClientStep(s, c, op);
    QuietStepKeepsHits(s, Client(c, op));
    CallKeepsCount(s, c, op);
  }

  lemma ClientStep(s: State, c: nat, op: ClientOp)
    requires Linked(s) && ClientEnabled(s, c, op)
    ensures Enabled(s, Client(c, op)) && Next(s, Client(c, op)) == ClientNext(s, c, op)
    ensures !op.CountCancelled? ==> ClientNext(s, c, op).stats.tasksCancelled == s.stats.tasksCancelled
    ensures op.CountCancelled? ==> ClientNext(s, c, op).stats.tasksCancelled == s.stats.tasksCancelled + 1
    ensures !op.CancelInActive? && !op.CancelInQueue? ==>
              !(NextCall(s, c, op).Some? && NextCall(s, c, op).value.CancelHit?)
  {
  }

  // ---------- Every step ----------

  lemma StepKeepsPushes(s: State, st: Step)
    requires Placed(s) && CtlInv(s) && Enabled(s, st) && PushesAddUp(s)
    ensures PushesAddUp(Next(s, st))
  {
    match st
    case Tick(_, _) =>
    case Client(c, op) => ClientKeepsPushes(s, c, op);
    case Sched(op) => SchedKeepsPushes(s, op);
    case Worker(w, op) => WorkerKeepsPushes(s, w, op);
    case Ctl(op) => CtlKeepsPushes(s, op);
  }

  lemma StepKeepsJobs(s: State, st: Step)
    requires Linked(s) && BusyInv(s) && Enabled(s, st) && JobsAddUp(s)
    ensures JobsAddUp(Next(s, st))
  {
    match st
    case Tick(_, _) =>
    case Client(c, op) => ClientKeepsJobs(s, c, op);
    case Sched(op) => SchedKeepsJobs(s, op);
    case Worker(w, op) => WorkerKeepsJobs(s, w, op);
    case Ctl(op) => CtlKeepsJobs(s, op);
  }

  lemma StepKeepsReenters(s: State, st: Step)
    requires Inv(s) && Enabled(s, st) && ReentersAddUp(s)
    ensures ReentersAddUp(Next(s, st))
  {
    if Plain(st) {
      PlainStepKeepsReenters(s, st);
    } else if st.Worker? {
      StatementKeepsReenters(s, st.w, st.workerOp.choice);
    } else {
      FreshId(s);
      CreateKeepsReenters(s, st.c, st.clientOp.config);
    }
  }

  lemma StepKeepsCancels(s: State, st: Step)
    requires Inv(s) && Enabled(s, st) && CancelsAddUp(s)
    ensures CancelsAddUp(Next(s, st))
  {
    if st.Client? {
      var c, op := st.c, st.clientOp;
      match op
      case Create(config) => CreateKeepsCancels(s, c, config);
      case CancelInActive => ActiveHitKeepsCancels(s, c);
      case CancelInQueue => QueueHitKeepsCancels(s, c);
      case _ => QuietClientKeepsCancels(s, c, op);
    } else {
      QuietStepKeepsHits(s, st);
      SameCalls(s, st);
    }
  }

  lemma StepKeepsBalanced(s: State, st: Step)
    requires Inv(s) && Balanced(s)
    ensures Balanced(Apply(s, st))
  {
    if Enabled(s, st) {
      StepKeepsPushes(s, st);
      StepKeepsJobs(s, st);
      StepKeepsReenters(s, st);
      StepKeepsCancels(s, st);
    }
  }

  lemma {:induction false} RunKeepsBalanced(s: State, steps: seq<Step>)
    requires Inv(s) && Balanced(s)
    ensures Balanced(Run(s, steps))
    decreases |steps|
  {
    if steps != [] {
      var t := Run(s, steps[..|steps| - 1]);
      RunKeepsBalanced(s, steps[..|steps| - 1]);
      RunKeepsInv(s, steps[..|steps| - 1]);
      StepKeepsBalanced(t, steps[|steps| - 1]);
    }
  }

  lemma InitBalanced(numThreads: nat, now: Clock)
    ensures Balanced(Init(numThreads, now))
  {
  }

  lemma ReachableBalanced(s: State)
    requires Reachable(s)
    ensures Inv(s) && Balanced(s)
  {
    hide Inv, Balanced;
    ReachableInv(s);
    var numThreads: nat, now: Clock, steps: seq<Step> :| s == Run(Init(numThreads, now), steps);
    InitInv(numThreads, now);
    InitBalanced(numThreads, now);
    RunKeepsBalanced(Init(numThreads, now), steps);
  }
}
