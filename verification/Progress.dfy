/** What can still happen to a task while the scheduler is not being stopped: exactly when it can be started. */
module Progress {
  import opened Options
  import opened TaskIds
  import opened Tasks
  import opened Lifecycle
  import opened Protocol
  import opened Ownership
  import opened Simulation
  import opened Invariant
  import opened Shutdown
  import opened Restarts
  import opened Repushes
  import P = PoolModel

  /** No stop() is under way, and the pool runs and has a worker. */
  ghost predicate Open(s: State) {
    Reachable(s) && s.ctl.Idle? && !s.pool.stopFlag && s.pool.workers.Keys != {}
  }

  ghost predicate Queued(s: State, id: Id) {
    id in s.tokens && s.tokens[id].active && s.tokens[id].loc.InQueue?
  }

  /** Every queued task has reached its start time. */
  ghost predicate AllDue(s: State) {
    forall u :: u in s.queue ==> u in s.tokens && s.tokens[u].task.startTime <= s.now.system
  }

  // ---------- Steps of the scheduler thread, and of the worker that is in its way ----------

  predicate LoopStep(st: Step) {
    st.Sched? || (st.Worker? && OfHolder(st.workerOp))
  }

  lemma LoopEvent(s: State, st: Step, id: Id)
    requires Linked(s) && Enabled(s, st) && LoopStep(st) && id in s.tokens
    ensures var ev := EventOf(s, st, id);
            ev.Some? ==> ev.value.Pop? || ev.value.Advance? || ev.value.Dispatch? || ev.value.Take?
  {
  }

  lemma QueuedLoopEvent(t: Token, ev: Event, now: Clock)
    requires Happens(t, ev, now) && t.loc.InQueue?
    requires ev.Pop? || ev.Advance? || ev.Dispatch? || ev.Take?
    ensures AfterEvent(t, ev, now) == t.(loc := InHand(Popped))
  {
  }

  /** A queued task is left alone, or popped. */
  lemma QueuedInLoop(s: State, st: Step, id: Id)
    requires Inv(s) && Enabled(s, st) && LoopStep(st) && id in s.tokens && s.tokens[id].loc.InQueue?
    ensures id in Next(s, st).tokens
    ensures Next(s, st).tokens[id] == s.tokens[id] || Next(s, st).tokens[id] == s.tokens[id].(loc := InHand(Popped))
  {
    hide Inv, Next, Enabled, Linked, EventOf, Happens, AfterEvent, LoopStep;
    InvLinks(s);
    TokenBecomes(s, st, id);
    LoopEvent(s, st, id);
    var ev := EventOf(s, st, id);
    if ev.Some? {
      QueuedLoopEvent(s.tokens[id], ev.value, s.now);
    }
  }

  lemma SchedKeepsControl(s: State, op: SchedOp)
    requires Linked(s) && SchedEnabled(s, op)
    ensures var t := SchedNext(s, op);
            t.now == s.now && t.ctl == s.ctl && t.isRunning == s.isRunning && t.queue <= s.queue
  {
    hide P.Next, P.Enabled, Linked;
    match op
    case PopTask(_) =>
    case Decide =>
    case _ =>
  }

  lemma SchedKeepsPool(s: State, op: SchedOp)
    requires Linked(s) && SchedEnabled(s, op)
    ensures var t := SchedNext(s, op);
            t.pool.stopFlag == s.pool.stopFlag && t.pool.workers.Keys == s.pool.workers.Keys
  {
    match op
    case Enqueue =>
    case Notify(_) =>
    case _ =>
  }

  lemma HolderKeepsControl(s: State, w: nat, op: WorkerOp)
    requires Linked(s) && WorkerEnabled(s, w, op) && OfHolder(op)
    ensures var t := WorkerNext(s, w, op);
            && t.now == s.now && t.ctl == s.ctl && t.isRunning == s.isRunning && t.queue == s.queue
            && t.pool.stopFlag == s.pool.stopFlag && t.pool.workers.Keys == s.pool.workers.Keys
  {
  }

  lemma LoopKeepsControl(s: State, st: Step)
    requires Linked(s) && Enabled(s, st) && LoopStep(st)
    ensures var t := Next(s, st);
            && t.now == s.now && t.ctl == s.ctl && t.isRunning == s.isRunning && t.queue <= s.queue
            && t.pool.stopFlag == s.pool.stopFlag && t.pool.workers.Keys == s.pool.workers.Keys
  {
    match st
    case Sched(op) => SchedKeepsControl(s, op); SchedKeepsPool(s, op);
    case Worker(w, op) => HolderKeepsControl(s, w, op);
  }

  lemma LoopKeepsDue(s: State, st: Step)
    requires Inv(s) && Enabled(s, st) && LoopStep(st) && AllDue(s)
    ensures AllDue(Next(s, st))
  {
    hide Inv, Next, Enabled, Linked, LoopStep, Placed;
    InvLinks(s);
    LoopKeepsControl(s, st);
    forall u | u in Next(s, st).queue
      ensures u in Next(s, st).tokens && Next(s, st).tokens[u].task.startTime <= Next(s, st).now.system
    {
      QueuedToken(s, u);
      QueuedInLoop(s, st, u);
    }
  }

  /** The loop has come nearer to the task: it is in hand, or nothing about it has changed. */
  ghost predicate Nearer(s: State, t: State, id: Id) {
    && Open(t) && t.isRunning && AllDue(t) && t.now == s.now && id in s.tokens && id in t.tokens
    && (t.tokens[id] == s.tokens[id] || t.tokens[id] == s.tokens[id].(loc := InHand(Popped)))
  }

  lemma LoopKeepsOpen(s: State, st: Step, id: Id)
    requires Open(s) && s.isRunning && AllDue(s) && Queued(s, id) && Linked(s) && Enabled(s, st) && LoopStep(st)
    ensures Apply(s, st) == Next(s, st) && Nearer(s, Apply(s, st), id)
  {
    hide Inv, Next, Enabled, Linked, LoopStep, Reachable, AllDue;
    ReachableInv(s);
    LoopKeepsControl(s, st);
    LoopKeepsDue(s, st);
    QueuedInLoop(s, st, id);
    StepReachable(s, st);
  }

  /** How far the loop is from its next pop. */
  function LoopRank(sched: SchedPc): nat {
    match sched
    case Holding(_, phase) =>
      (match phase case Popped => 9 case LookedUp => 8 case Approved => 7 case Marked => 6)
    case Notifying => 5
    case Sleeping => 4
    case LoopTop => 3
    case WaitingForWork => 2
    case Checked => 1
    case _ => 0
  }

  ghost predicate CloserBy(s: State, t: State) {
    || |t.queue| < |s.queue|
    || (t.queue == s.queue && LoopRank(t.sched) < LoopRank(s.sched))
    || (t.queue == s.queue && t.sched == s.sched && HolderRank(t) < HolderRank(s))
  }

  lemma OpenFacts(s: State, id: Id)
    requires Open(s) && s.isRunning && Queued(s, id)
    ensures Linked(s) && id in s.queue && !s.sched.Off? && !s.sched.Done?
    ensures s.sched.Notifying? ==> s.pool.notifies == 1
    ensures s.sched.Holding? ==>
              s.sched.id in s.tokens && s.tokens[s.sched.id].loc == InHand(s.sched.phase) && Going(s, s.sched.id)
  {
    ReachableInv(s);
    assert Located(s, id);
  }

  lemma PopCloser(s: State, popped: Id)
    requires Linked(s) && SchedEnabled(s, PopTask(popped)) && s.tokens[popped].task.startTime <= s.now.system
    ensures |SchedNext(s, PopTask(popped)).queue| < |s.queue|
  {
  }

  lemma SimpleCloser(s: State, op: SchedOp)
    requires Linked(s) && SchedEnabled(s, op) && s.isRunning
    requires op.TestRunning? || op.WakeForWork? || op.WakeForTime? || op.Decide? || op.Notify? || op.Enqueue?
    ensures var t := SchedNext(s, op); t.queue == s.queue && LoopRank(t.sched) < LoopRank(s.sched)
  {
  }

  lemma NotifyWoken(s: State) returns (woken: Option<nat>)
    requires s.sched.Notifying? && s.pool.notifies == 1
    ensures SchedEnabled(s, Notify(woken))
  {
    if w :| w in s.pool.workers && s.pool.workers[w].Waiting? {
      woken := Some(w);
    } else {
      woken := None;
    }
  }

  /** The next step of the loop, when nothing is in its way. */
  lemma OwnStep(s: State, id: Id) returns (op: SchedOp)
    requires Open(s) && s.isRunning && AllDue(s) && Queued(s, id)
    requires s.sched.Holding? && s.sched.phase.Marked? ==> s.pool.holder.None?
    ensures Linked(s) && SchedEnabled(s, op) && CloserBy(s, SchedNext(s, op))
  {
    hide Open, Going, Linked, SchedNext, HolderRank, LoopRank;
    OpenFacts(s, id);
    match s.sched {
      case LoopTop => op := TestRunning; SimpleCloser(s, op);
      case WaitingForWork => op := WakeForWork; SimpleCloser(s, op);
      case Checked =>
        var popped := LeastExists(s);
        op := PopTask(popped);
        PopCloser(s, popped);
      case Sleeping => op := WakeForTime; SimpleCloser(s, op);
      case Holding(_, phase) =>
        op := if phase.Marked? then Enqueue else Decide;
        SimpleCloser(s, op);
      case Notifying =>
        var woken := NotifyWoken(s);
        op := Notify(woken);
        SimpleCloser(s, op);
    }
  }

  lemma HolderQueue(s: State, w: nat, op: WorkerOp)
    requires OfHolder(op)
    ensures Apply(s, Worker(w, op)).queue == s.queue
  {
  }

  /** A step that changed something was enabled. */
  lemma WasEnabled(s: State, st: Step)
    requires Apply(s, st) != s
    ensures Linked(s) && Enabled(s, st)
  {
  }

  lemma OneStepOn(s: State, id: Id) returns (st: Step)
    requires Open(s) && s.isRunning && AllDue(s) && Queued(s, id)
    ensures Nearer(s, Apply(s, st), id) && CloserBy(s, Apply(s, st)) && LoopStep(st)
  {
    hide Open, AllDue, Nearer, Going, Linked, SchedNext, HolderRank, LoopRank, Apply, SchedEnabled;
    OpenFacts(s, id);
    if s.sched.Holding? && s.sched.phase.Marked? && s.pool.holder.Some? {
      st := OneStepFree(s, s.sched.id);
      HolderQueue(s, st.w, st.workerOp);
      WasEnabled(s, st);
    } else {
      var op := OwnStep(s, id);
      st := Sched(op);
      SchedApplies(s, op);
    }
    LoopKeepsOpen(s, st, id);
  }

  lemma SchedApplies(s: State, op: SchedOp)
    requires Linked(s) && SchedEnabled(s, op)
    ensures Apply(s, Sched(op)) == SchedNext(s, op) && Enabled(s, Sched(op))
  {
  }

  /** The loop gets to the task, without any time passing. */
  lemma {:induction false} ReachesHand(s: State, id: Id) returns (steps: seq<Step>)
    requires Open(s) && s.isRunning && AllDue(s) && Queued(s, id)
    ensures var t := Run(s, steps);
            && Open(t) && t.now == s.now && id in t.tokens
            && t.tokens[id] == s.tokens[id].(loc := InHand(Popped))
    decreases |s.queue|, LoopRank(s.sched), HolderRank(s)
  {
    hide Open, AllDue, Run, Apply, LoopRank, HolderRank;
    var st := OneStepOn(s, id);
    var t := Apply(s, st);
    RunOne(s, st);
    if t.tokens[id].loc.InQueue? {
      var rest := ReachesHand(t, id);
      steps := [st] + rest;
      RunAppend(s, [st], rest);
    } else {
      steps := [st];
    }
  }

  // ---------- From the scheduler's hand to the start ----------

  /** The task is started in this schedule, and no time passes. */
  ghost predicate StartsNow(s: State, steps: seq<Step>, id: Id) {
    Run(s, steps).now == s.now && MoreStarts(s, Run(s, steps), id)
  }

  lemma FirstThen(s: State, first: seq<Step>, rest: seq<Step>, id: Id)
    requires StartsNow(Run(s, first), rest, id)
    requires id in s.tokens && id in Run(s, first).tokens
    requires Run(s, first).tokens[id].hist.starts == s.tokens[id].hist.starts
    ensures MoreStarts(s, Run(s, first + rest), id) && Run(s, first + rest).now == Run(s, first).now
  {
    hide Run;
    RunAppend(s, first, rest);
  }

  lemma StartStatement(s: State, id: Id)
    requires Placed(s) && id in s.tokens && IsTaken(s.tokens[id].loc)
    ensures Apply(s, Worker(s.tokens[id].loc.w, Statement(Quiet))).now == s.now
  {
    assert Located(s, id);
  }

  lemma StartsIfHanded(s: State, id: Id) returns (steps: seq<Step>)
    requires Reachable(s) && id in s.tokens && CanRestart(s, id)
    ensures StartsNow(s, steps, id)
  {
    hide Reachable, Run, Apply, Placed, CanRestart;
    var first := ReachesTaken(s, id);
    var t := Run(s, first);
    var st := Worker(t.tokens[id].loc.w, Statement(Quiet));
    ReachablePlaced(t);
    TakenStarts(t, id);
    StartStatement(t, id);
    RunAppend(s, first, [st]);
    RunOne(t, st);
    steps := first + [st];
  }

  /** Where a task is that the scheduler thread has popped. */
  lemma HandFacts(s: State, id: Id)
    requires Open(s) && id in s.tokens && s.tokens[id].loc.InHand?
    ensures Linked(s) && s.sched == Holding(id, s.tokens[id].loc.phase)
  {
    ReachableInv(s);
    assert Located(s, id);
  }

  lemma DecideGoesOn(s: State, id: Id)
    requires Open(s) && id in s.tokens && s.tokens[id].active
    requires s.tokens[id].loc == InHand(Popped) || s.tokens[id].loc == InHand(LookedUp)
    ensures var t := Apply(s, Sched(Decide));
            && Open(t) && t.now == s.now && id in t.tokens
            && t.tokens[id] == s.tokens[id].(
                 loc := InHand(if s.tokens[id].loc.phase.Popped? then LookedUp else Approved))
  {
    hide Reachable, Apply, Placed;
    HandFacts(s, id);
    if s.tokens[id].loc.phase.LookedUp? {
      ActiveGoesOn(s, id);
    }
    DecisionIs(s, id);
    StepReachable(s, Sched(Decide));
  }

  lemma DecisionIs(s: State, id: Id)
    requires Linked(s) && id in s.tokens && s.tokens[id].loc.InHand? && s.sched == Holding(id, s.tokens[id].loc.phase)
    requires !s.sched.phase.Marked? && GoesOn(s.tokens[id], s.sched.phase)
    ensures var t := Apply(s, Sched(Decide));
            && t.now == s.now && t.ctl == s.ctl && t.pool == s.pool && id in t.tokens
            && t.tokens[id] == AdvanceToken(s.tokens[id], s.sched.phase)
  {
  }

  lemma StartsFromHand(s: State, id: Id) returns (steps: seq<Step>)
    requires Open(s) && id in s.tokens && s.tokens[id].active && s.tokens[id].loc.InHand?
    ensures StartsNow(s, steps, id)
    decreases if s.tokens[id].loc.phase.Popped? then 2 else if s.tokens[id].loc.phase.LookedUp? then 1 else 0
  {
    hide Reachable, Run, Apply;
    if s.tokens[id].loc.phase.Popped? || s.tokens[id].loc.phase.LookedUp? {
      DecideGoesOn(s, id);
      RunOne(s, Sched(Decide));
      var rest := StartsFromHand(Apply(s, Sched(Decide)), id);
      FirstThen(s, [Sched(Decide)], rest, id);
      steps := [Sched(Decide)] + rest;
    } else {
      steps := StartsIfHanded(s, id);
    }
  }

  // ---------- From the queue to the start ----------

  lemma StartLoop(s: State, id: Id)
    requires Open(s) && !s.isRunning && Queued(s, id)
    ensures var t := Apply(s, Ctl(Start));
            && Open(t) && t.isRunning && t.now == s.now && t.queue == s.queue && t.tokens == s.tokens
  {
    hide Reachable, Apply, Linked;
    OpenLinks(s);
    StartIs(s);
    StepReachable(s, Ctl(Start));
  }

  lemma StartIs(s: State)
    requires Linked(s) && s.ctl.Idle? && !s.isRunning
    ensures Apply(s, Ctl(Start)) == s.(isRunning := true, sched := LoopTop)
  {
  }

  lemma StartsWhenRunning(s: State, id: Id) returns (steps: seq<Step>)
    requires Open(s) && s.isRunning && AllDue(s) && Queued(s, id)
    ensures StartsNow(s, steps, id)
  {
    hide Open, AllDue, Run;
    var first := ReachesHand(s, id);
    var rest := StartsFromHand(Run(s, first), id);
    FirstThen(s, first, rest, id);
    steps := first + rest;
  }

  /** With every queued task due, a queued task can be started before any time passes. */
  lemma StartsFromQueue(s: State, id: Id) returns (steps: seq<Step>)
    requires Open(s) && AllDue(s) && Queued(s, id)
    ensures StartsNow(s, steps, id)
  {
    hide Open, Run, Apply;
    if s.isRunning {
      steps := StartsWhenRunning(s, id);
    } else {
      StartLoop(s, id);
      RunOne(s, Ctl(Start));
      var rest := StartsWhenRunning(Apply(s, Ctl(Start)), id);
      FirstThen(s, [Ctl(Start)], rest, id);
      steps := [Ctl(Start)] + rest;
    }
  }

  // ---------- Time ----------

  lemma {:induction false} EnoughTime(s: State, q: multiset<Id>) returns (ticks: nat)
    requires Linked(s) && q <= s.queue
    ensures forall u :: u in q ==> u in s.tokens && s.tokens[u].task.startTime <= s.now.system + ticks
    decreases |q|
  {
    if q == multiset{} {
      ticks := 0;
    } else {
      var id :| id in q;
      ticks := EnoughTime(s, q - multiset{id});
      ticks := ticks + Since(s.now.system, s.tokens[id].task.startTime);
    }
  }

  lemma OpenLinks(s: State)
    requires Open(s)
    ensures Linked(s) && Placed(s) && BusyInv(s)
  {
    ReachableInv(s);
  }

  lemma WaitsUntilDue(s: State, id: Id) returns (st: Step)
    requires Open(s) && Queued(s, id)
    ensures Open(Apply(s, st)) && AllDue(Apply(s, st)) && Queued(Apply(s, st), id)
    ensures Apply(s, st).tokens == s.tokens
  {
    hide Reachable;
    OpenLinks(s);
    var ticks := EnoughTime(s, s.queue);
    st := Tick(ticks, 0);
    StepReachable(s, st);
  }

  lemma CanStartFromQueue(s: State, id: Id) returns (steps: seq<Step>)
    requires Open(s) && Queued(s, id)
    ensures MoreStarts(s, Run(s, steps), id)
  {
    hide Open, AllDue, Run, Apply;
    var st := WaitsUntilDue(s, id);
    RunOne(s, st);
    var rest := StartsFromQueue(Apply(s, st), id);
    FirstThen(s, [st], rest, id);
    steps := [st] + rest;
  }

  // ---------- From the client ----------

  /** A schedule that brings the task into the queue. */
  ghost predicate BringsIn(s: State, steps: seq<Step>, id: Id) {
    && id in s.tokens && Open(Run(s, steps)) && Queued(Run(s, steps), id)
    && Run(s, steps).tokens[id].hist.starts == s.tokens[id].hist.starts
  }

  lemma ThenBringsIn(s: State, st: Step, rest: seq<Step>, id: Id) returns (steps: seq<Step>)
    requires BringsIn(Apply(s, st), rest, id) && id in s.tokens && id in Apply(s, st).tokens
    requires Apply(s, st).tokens[id].hist.starts == s.tokens[id].hist.starts
    ensures BringsIn(s, steps, id)
  {
    hide Run, Apply, Open, Queued;
    steps := [st] + rest;
    RunOne(s, st);
    RunAppend(s, [st], rest);
  }

  lemma CallOf(s: State, id: Id)
    requires Open(s) && id in s.tokens && s.tokens[id].loc.AtClient?
    ensures Linked(s)
    ensures var AtClient(c, inserted) := s.tokens[id].loc;
            c in s.calls && s.calls[c] == if inserted then Inserted(id) else Created(id)
  {
    hide Reachable;
    OpenLinks(s);
    assert Located(s, id);
  }

  lemma PushMoves(s: State, c: nat, id: Id)
    requires Linked(s) && c in s.calls && s.calls[c] == Inserted(id) && QueueFree(s)
    ensures var t := Apply(s, Client(c, PushNew));
            SameControl(s, t) && id in s.tokens && id in t.tokens && t.tokens[id] == s.tokens[id].(loc := InQueue)
  {
  }

  lemma InsertMoves(s: State, c: nat, id: Id)
    requires Linked(s) && c in s.calls && s.calls[c] == Created(id)
    ensures var t := Apply(s, Client(c, InsertActive));
            && SameControl(s, t) && id in s.tokens && id in t.tokens
            && t.tokens[id] == s.tokens[id].(active := true, loc := AtClient(c, true))
  {
  }

  lemma PushIs(s: State, id: Id)
    requires Open(s) && id in s.tokens && s.tokens[id].loc.AtClient? && s.tokens[id].loc.inserted && QueueFree(s)
    requires s.tokens[id].active
    ensures var t := Apply(s, Client(s.tokens[id].loc.c, PushNew));
            Open(t) && Queued(t, id) && t.tokens[id].hist == s.tokens[id].hist
  {
    hide Reachable, Apply, Linked;
    CallOf(s, id);
    PushMoves(s, s.tokens[id].loc.c, id);
    StepReachable(s, Client(s.tokens[id].loc.c, PushNew));
  }

  /** The scheduler thread leaves the queue to others. */
  lemma MakesRoom(s: State, id: Id) returns (st: Step)
    requires Open(s) && s.sched.Checked? && id in s.tokens && s.tokens[id].loc.AtClient?
    ensures var t := Apply(s, st);
            Open(t) && QueueFree(t) && id in t.tokens && t.tokens[id] == s.tokens[id]
  {
    hide Reachable, Placed, Linked, Apply, BusyInv;
    ReachableInv(s);
    InvPlaces(s);
    var popped := LeastExists(s);
    st := Sched(PopTask(popped));
    NotInQueue(s, popped, id);
    PopIs(s, popped, id);
    StepReachable(s, st);
  }

  lemma NotInQueue(s: State, popped: Id, id: Id)
    requires Placed(s) && SchedEnabled(s, PopTask(popped)) && id in s.tokens && s.tokens[id].loc.AtClient?
    ensures popped != id
  {
  }

  lemma InsertedBringsIn(s: State, id: Id) returns (steps: seq<Step>)
    requires Open(s) && id in s.tokens && s.tokens[id].active && s.tokens[id].loc.AtClient? && s.tokens[id].loc.inserted
    ensures BringsIn(s, steps, id)
  {
    hide Open, Apply, Run;
    if s.sched.Checked? {
      var st := MakesRoom(s, id);
      var push := Client(s.tokens[id].loc.c, PushNew);
      PushIs(Apply(s, st), id);
      RunOne(Apply(s, st), push);
      steps := ThenBringsIn(s, st, [push], id);
    } else {
      PushIs(s, id);
      RunOne(s, Client(s.tokens[id].loc.c, PushNew));
      steps := [Client(s.tokens[id].loc.c, PushNew)];
    }
  }

  lemma InsertIs(s: State, id: Id)
    requires Open(s) && id in s.tokens && Unborn(s.tokens[id])
    ensures var t := Apply(s, Client(s.tokens[id].loc.c, InsertActive));
            && Open(t) && id in t.tokens && t.tokens[id].active
            && t.tokens[id].loc.AtClient? && t.tokens[id].loc.inserted
            && t.tokens[id].hist == s.tokens[id].hist
  {
    hide Reachable, Apply, Linked;
    CallOf(s, id);
    InsertMoves(s, s.tokens[id].loc.c, id);
    StepReachable(s, Client(s.tokens[id].loc.c, InsertActive));
  }

  lemma ClientBringsIn(s: State, id: Id) returns (steps: seq<Step>)
    requires Open(s) && id in s.tokens && s.tokens[id].loc.AtClient? && !Gone(s.tokens[id])
    ensures BringsIn(s, steps, id)
  {
    hide Open, Apply;
    if Unborn(s.tokens[id]) {
      InsertIs(s, id);
      var st := Client(s.tokens[id].loc.c, InsertActive);
      var rest := InsertedBringsIn(Apply(s, st), id);
      steps := ThenBringsIn(s, st, rest, id);
    } else {
      steps := InsertedBringsIn(s, id);
    }
  }

  // ---------- When a task can be started ----------

  /** Gone: it is past the status test and not yet started. Otherwise: it waits for its start, or it will be
      pushed again. */
  predicate MayStart(t: Token, now: Clock) {
    if Gone(t) then StartsLeft(t.loc) == 1 else BeforeStart(t.loc) || PushesLeft(t, now) == 1
  }

  lemma {:induction false} RunReachable(s: State, steps: seq<Step>)
    requires Reachable(s)
    ensures Reachable(Run(s, steps))
    decreases |steps|
  {
    hide Reachable, Apply;
    if steps != [] {
      RunReachable(s, steps[..|steps| - 1]);
      StepReachable(Run(s, steps[..|steps| - 1]), steps[|steps| - 1]);
    }
  }

  lemma StillOpen(s: State, t: State, id: Id)
    requires Open(s) && Reachable(t) && BackInQueue(s, t, id) && s.tokens[id].active
    ensures Open(t) && Queued(t, id)
  {
  }

  lemma {:induction false} StartsKeptBy(s: State, steps: seq<Step>, id: Id)
    requires Inv(s) && id in s.tokens
    ensures id in Run(s, steps).tokens && s.tokens[id].hist.starts <= Run(s, steps).tokens[id].hist.starts
  {
    RunKeepsInv(s, steps);
    assert Later(s.tokens[id], Run(s, steps).tokens[id]);
  }

  lemma MoreThen(s: State, first: seq<Step>, rest: seq<Step>, id: Id)
    requires Inv(s) && id in s.tokens && MoreStarts(Run(s, first), Run(Run(s, first), rest), id)
    ensures MoreStarts(s, Run(s, first + rest), id)
  {
    hide Run, Inv;
    StartsKeptBy(s, first, id);
    RunAppend(s, first, rest);
  }

  lemma StartsAgain(s: State, id: Id) returns (steps: seq<Step>)
    requires Open(s) && id in s.tokens && s.tokens[id].active && s.tokens[id].loc.OnWorker?
    requires PushesLeft(s.tokens[id], s.now) == 1
    ensures MoreStarts(s, Run(s, steps), id)
  {
    hide Reachable, Run, Inv, PushesLeft, BackInQueue;
    ReachableInv(s);
    var first := PushesBack(s, id);
    RunReachable(s, first);
    StillOpen(s, Run(s, first), id);
    var rest := CanStartFromQueue(Run(s, first), id);
    MoreThen(s, first, rest, id);
    steps := first + rest;
  }

  lemma StartsFromClient(s: State, id: Id) returns (steps: seq<Step>)
    requires Open(s) && id in s.tokens && s.tokens[id].loc.AtClient? && !Gone(s.tokens[id])
    ensures MoreStarts(s, Run(s, steps), id)
  {
    hide Reachable, Run, Inv, Open;
    var first := ClientBringsIn(s, id);
    var rest := CanStartFromQueue(Run(s, first), id);
    OpenInv(s);
    MoreThen(s, first, rest, id);
    steps := first + rest;
  }

  lemma OpenInv(s: State)
    requires Open(s)
    ensures Inv(s) && Reachable(s)
  {
    ReachableInv(s);
  }

  lemma HandedCanStart(s: State, id: Id)
    requires Open(s) && id in s.tokens && StartsLeft(s.tokens[id].loc) == 1
    ensures Reachable(s) && CanRestart(s, id)
  {
  }

  /** The places of a task that is in activeTasks or on its way there. */
  lemma MayStartWhere(t: Token, now: Clock)
    requires MayStart(t, now) && !Gone(t) && !t.loc.AtClient?
    ensures t.active
    ensures t.loc.InQueue? || t.loc.InHand? || StartsLeft(t.loc) == 1 || (t.loc.OnWorker? && PushesLeft(t, now) == 1)
  {
  }

  lemma MayStartStarts(s: State, id: Id) returns (steps: seq<Step>)
    requires Open(s) && id in s.tokens && MayStart(s.tokens[id], s.now)
    ensures MoreStarts(s, Run(s, steps), id)
  {
    hide Open, Run, CanRestart, PushesLeft;
    var t := s.tokens[id];
    if Gone(t) || StartsLeft(t.loc) == 1 {
      HandedCanStart(s, id);
      steps := StartsIfHanded(s, id);
    } else if t.loc.AtClient? {
      steps := StartsFromClient(s, id);
    } else {
      MayStartWhere(t, s.now);
      if t.loc.InQueue? {
        steps := CanStartFromQueue(s, id);
      } else if t.loc.InHand? {
        steps := StartsFromHand(s, id);
      } else {
        steps := StartsAgain(s, id);
      }
    }
  }

  // ---------- When a task can no longer be started ----------

  /** It has been started and will not be pushed again. */
  predicate Through(t: Token, now: Clock) {
    !BeforeStart(t.loc) && PushesLeft(t, now) == 0
  }

  lemma WorkKeepsThrough(t: Token, choice: Choice, now: Clock)
    requires StatusInv(t) && OnceInv(t) && Through(t, now) && Happens(t, Work(choice), now)
    ensures var u := AfterEvent(t, Work(choice), now); Through(u, now) && u.hist.starts == t.hist.starts
  {
  }

  lemma EventKeepsThrough(t: Token, ev: Event, now: Clock)
    requires StatusInv(t) && OnceInv(t) && Through(t, now) && Happens(t, ev, now)
    ensures var u := AfterEvent(t, ev, now); Through(u, now) && u.hist.starts == t.hist.starts
  {
    if ev.Work? {
      WorkKeepsThrough(t, ev.choice, now);
    }
  }

  lemma StepKeepsThrough(s: State, st: Step, id: Id)
    requires Inv(s) && Enabled(s, st) && id in s.tokens && Through(s.tokens[id], s.now)
    ensures var t := Next(s, st);
            id in t.tokens && Through(t.tokens[id], t.now) && t.tokens[id].hist.starts == s.tokens[id].hist.starts
  {
    hide Inv, Next, Enabled, Linked, AfterEvent, Happens, PushesLeft, TokenInv, EventOf;
    InvLinks(s);
    TokenBecomes(s, st, id);
    TokenOf(s, id);
    TokenFacts(s.tokens[id], s.now);
    NewTokens(s, st);
    var ev := EventOf(s, st, id);
    if ev.Some? {
      EventKeepsThrough(s.tokens[id], ev.value, s.now);
    }
    if st.Tick? {
      TickEvent(s, st, id);
      PushesLater(s.tokens[id], s.now, Next(s, st).now);
    }
  }

  lemma TickEvent(s: State, st: Step, id: Id)
    requires Linked(s) && Enabled(s, st) && st.Tick? && id in s.tokens
    ensures EventOf(s, st, id).None?
  {
  }

  lemma {:induction false} StaysThrough(s: State, steps: seq<Step>, id: Id)
    requires Inv(s) && id in s.tokens && Through(s.tokens[id], s.now)
    ensures var t := Run(s, steps);
            id in t.tokens && Through(t.tokens[id], t.now) && t.tokens[id].hist.starts == s.tokens[id].hist.starts
    decreases |steps|
  {
    hide Inv, Next, Enabled, Linked, Through;
    if steps != [] {
      var t, st := Run(s, steps[..|steps| - 1]), steps[|steps| - 1];
      StaysThrough(s, steps[..|steps| - 1], id);
      RunKeepsInv(s, steps[..|steps| - 1]);
      if Linked(t) && Enabled(t, st) {
        StepKeepsThrough(t, st, id);
      }
    }
  }

  lemma ThroughOrDoomed(s: State, id: Id)
    requires id in s.tokens && !MayStart(s.tokens[id], s.now)
    ensures Through(s.tokens[id], s.now) || (Gone(s.tokens[id]) && !CanRestart(s, id))
  {
  }

  lemma NeverStarts(s: State, steps: seq<Step>, id: Id)
    requires Inv(s) && id in s.tokens && !MayStart(s.tokens[id], s.now)
    ensures !MoreStarts(s, Run(s, steps), id)
  {
    hide Inv, Run, Through, CanRestart, Gone;
    ThroughOrDoomed(s, id);
    if Through(s.tokens[id], s.now) {
      StaysThrough(s, steps, id);
    } else {
      StaysDoomed(s, steps, id);
    }
  }
}
