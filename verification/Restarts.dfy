/** When exactly a task that has left activeTasks can still be started. */
module Restarts {
  import opened TaskIds
  import opened Tasks
  import opened Lifecycle
  import opened Protocol
  import opened Ownership
  import opened Simulation
  import opened Invariant
  import P = PoolModel

  // ---------- Runs, one after the other ----------

  lemma {:induction false} RunAppend(s: State, a: seq<Step>, b: seq<Step>)
    ensures Run(s, a + b) == Run(Run(s, a), b)
    decreases |b|
  {
    hide Apply;
    if b == [] {
      assert a + b == a;
    } else {
      assert (a + b)[..|a + b| - 1] == a + b[..|b| - 1];
      RunAppend(s, a, b[..|b| - 1]);
    }
  }

  lemma RunOne(s: State, st: Step)
    ensures Run(s, [st]) == Apply(s, st)
  {
    hide Apply;
    assert [st][..0] == [];
  }

  /** The pool runs and has a worker; the task exists. */
  ghost predicate Going(s: State, id: Id) {
    Reachable(s) && id in s.tokens && !s.pool.stopFlag && s.pool.workers.Keys != {}
  }

  lemma GoingFacts(s: State, id: Id)
    requires Going(s, id)
    ensures Placed(s) && Linked(s) && BusyInv(s) && P.MutexInv(s.pool) && P.StopInv(s.pool)
    ensures !s.pool.stopFlag && s.pool.workers.Keys != {}
    ensures s.sched.Checked? ==> s.queue != multiset{}
    ensures s.tokens[id].loc.InPool? <==> id in s.pool.queue
    ensures s.tokens[id].loc.InHand? ==> s.sched == Holding(id, s.tokens[id].loc.phase)
    ensures s.tokens[id].loc.OnWorker? ==>
              s.tokens[id].loc.w in s.exec && s.exec[s.tokens[id].loc.w] == Exec(id, s.tokens[id].loc.at)
  {
    ReachableInv(s);
    PoolHolds(s, id);
    assert Located(s, id);
  }

  lemma StillGoing(s: State, st: Step, id: Id)
    requires Going(s, id) && id in Apply(s, st).tokens && !Apply(s, st).pool.stopFlag
    requires Apply(s, st).pool.workers.Keys == s.pool.workers.Keys
    ensures Going(Apply(s, st), id)
  {
    hide Reachable, Apply;
    StepReachable(s, st);
  }

  // ---------- What single steps do to the rest of the system ----------

  predicate OnLoop(op: WorkerOp) {
    op.Acquire? || op.ReadStop? || op.Block? || op.Spurious? || op.LoadStop?
  }

  lemma LoopStepIs(s: State, w: nat, op: WorkerOp)
    requires Linked(s) && OnLoop(op) && P.Enabled(s.pool, PoolStep(w, op))
    ensures Apply(s, Worker(w, op)) == s.(pool := P.Next(s.pool, PoolStep(w, op)))
  {
  }

  /** Nothing about the task or the queue of the pool has changed. */
  predicate Aside(s: State, t: State, id: Id) {
    && id in s.tokens && id in t.tokens && t.tokens[id] == s.tokens[id]
    && t.pool.queue == s.pool.queue && t.now == s.now
  }

  /** A worker without a job moves on; the mutex and the worker are as the pool says. */
  lemma LoopStepAside(s: State, w: nat, op: WorkerOp, id: Id)
    requires Going(s, id) && OnLoop(op) && P.Enabled(s.pool, PoolStep(w, op))
    ensures var t := Apply(s, Worker(w, op));
            Going(t, id) && Aside(s, t, id) && t.pool == P.Next(s.pool, PoolStep(w, op)) && t.sched == s.sched
  {
    GoingFacts(s, id);
    LoopStepIs(s, w, op);
    StillGoing(s, Worker(w, op), id);
  }

  /** Statements still to come, on the shortest way out. */
  function Rank(p: Point): nat {
    match p
    case Taken => 7
    case Executing => 6
    case TimeoutSet => 5
    case TimeoutCount => 4
    case TimeoutCallback => 3
    case TimeoutRecord => 2
    case TimeoutErase => 1
    case FinalCheck => 8
    case DoneSet => 7
    case DoneCount => 6
    case DoneCallback => 5
    case DoneRecord => 4
    case Reschedule => 3
    case Reset => 2
    case Repush => 1
    case DoneErase => 1
    case FailSet => 5
    case FailCount => 4
    case FailCallback => 3
    case FailRecord => 2
    case FailErase => 1
    case Finished => 0
  }

  function WayOut(p: Point): Choice {
    if p.Executing? then Threw else Quiet
  }

  lemma WayLeadsOut(t: Token, w: nat, p: Point, now: Clock)
    requires !p.Finished?
    ensures ChoiceFits(p, WayOut(p))
    ensures var loc := NextLoc(t, w, p, WayOut(p), now);
            Rank(if loc.OnWorker? then loc.at else Finished) < Rank(p)
  {
  }

  lemma StatementIs(s: State, w: nat, id: Id)
    requires Linked(s) && w in s.exec && !s.exec[w].at.Finished? && (s.exec[w].at.Repush? ==> QueueFree(s))
    requires id in s.tokens && id != s.exec[w].id
    ensures var t := Apply(s, Worker(w, Statement(WayOut(s.exec[w].at))));
            && Aside(s, t, id) && t.pool == s.pool && t.sched == s.sched
            && w in t.exec && Rank(t.exec[w].at) < Rank(s.exec[w].at)
  {
    var Exec(j, p) := s.exec[w];
    WayLeadsOut(s.tokens[j], w, p, s.now);
    StatementApplies(s, w, WayOut(p));
  }

  lemma StatementApplies(s: State, w: nat, choice: Choice)
    requires Linked(s) && WorkerEnabled(s, w, Statement(choice))
    ensures var Exec(j, p) := s.exec[w];
            var loc := NextLoc(s.tokens[j], w, p, choice, s.now);
            var t := Apply(s, Worker(w, Statement(choice)));
            && (forall id :: id in s.tokens && id != j ==> id in t.tokens && t.tokens[id] == s.tokens[id])
            && t.pool == s.pool && t.sched == s.sched && t.ctl == s.ctl
            && t.exec == s.exec[w := Exec(j, if loc.OnWorker? then loc.at else Finished)]
  {
  }

  lemma PopIs(s: State, popped: Id, id: Id)
    requires Linked(s) && SchedEnabled(s, PopTask(popped)) && id in s.tokens && id != popped
    ensures var t := Apply(s, Sched(PopTask(popped)));
            && Aside(s, t, id) && t.pool == s.pool && t.exec == s.exec && !t.sched.Checked?
            && t.ctl == s.ctl && t.isRunning == s.isRunning
  {
  }

  lemma FinishIs(s: State, w: nat, id: Id)
    requires Linked(s) && BusyInv(s) && w in s.exec && s.exec[w].at.Finished? && id in s.tokens
    ensures var t := Apply(s, Worker(w, Finish));
            && Aside(s, t, id) && !t.pool.stopFlag == !s.pool.stopFlag && t.pool.holder == s.pool.holder
            && t.pool.workers == s.pool.workers[w := P.Ready]
  {
  }

  // ---------- A busy worker becomes ready ----------

  function Distance(s: State, w: nat): nat
    requires w in s.exec
  {
    2 * Rank(s.exec[w].at) + if s.sched.Checked? then 1 else 0
  }

  lemma LeastExists(s: State) returns (id: Id)
    requires Linked(s) && s.sched.Checked? && s.queue != multiset{}
    ensures SchedEnabled(s, PopTask(id))
  {
    id := LeastOf(s, s.queue);
  }

  lemma {:induction false} LeastOf(s: State, q: multiset<Id>) returns (id: Id)
    requires Linked(s) && q != multiset{} && q <= s.queue
    ensures id in q
    ensures forall u :: u in q ==> !Tasks.After(KeyOf(s.tokens[id].task), KeyOf(s.tokens[u].task))
    decreases |q|
  {
    var first :| first in q;
    var rest := q - multiset{first};
    id := first;
    if rest != multiset{} {
      id := LeastOf(s, rest);
      id := if Tasks.After(KeyOf(s.tokens[first].task), KeyOf(s.tokens[id].task)) then id else first;
    }
    forall u | u in q
      ensures !Tasks.After(KeyOf(s.tokens[id].task), KeyOf(s.tokens[u].task))
    {
      assert u == first || u in rest;
    }
  }

  /** One step of busy worker w, or of the scheduler thread that keeps the queue from it. */
  lemma OneStepOut(s: State, w: nat, id: Id) returns (st: Step)
    requires Going(s, id) && s.tokens[id].loc.InPool? && w in s.exec && !s.exec[w].at.Finished?
    ensures var t := Apply(s, st);
            Going(t, id) && Aside(s, t, id) && t.pool == s.pool && w in t.exec && Distance(t, w) < Distance(s, w)
  {
    hide Going, Placed, Linked, BusyInv, P.MutexInv, P.StopInv, Apply, SchedEnabled, Rank;
    GoingFacts(s, id);
    if s.exec[w].at.Repush? && s.sched.Checked? {
      var popped := LeastExists(s);
      NotQueued(s, popped, id);
      st := Sched(PopTask(popped));
      PopIs(s, popped, id);
    } else {
      NotOnWorker(s, w, id);
      st := Worker(w, Statement(WayOut(s.exec[w].at)));
      StatementIs(s, w, id);
    }
    StillGoing(s, st, id);
  }

  lemma NotQueued(s: State, popped: Id, id: Id)
    requires Placed(s) && SchedEnabled(s, PopTask(popped)) && id in s.tokens && s.tokens[id].loc.InPool?
    ensures popped != id
  {
  }

  lemma NotOnWorker(s: State, w: nat, id: Id)
    requires Placed(s) && w in s.exec && !s.exec[w].at.Finished? && id in s.tokens && s.tokens[id].loc.InPool?
    ensures s.exec[w].id != id
  {
  }

  /** Whatever job a worker has, it can end it and come back to its loop. */
  lemma {:induction false} BecomesReady(s: State, w: nat, id: Id) returns (steps: seq<Step>)
    requires Going(s, id) && s.tokens[id].loc.InPool? && w in s.exec && s.pool.holder.None?
    ensures var t := Run(s, steps);
            && Going(t, id) && Aside(s, t, id) && t.pool.holder.None?
            && w in t.pool.workers && t.pool.workers[w].Ready?
    decreases Distance(s, w)
  {
    hide Going, Run, Apply, Placed, Linked, P.MutexInv, P.StopInv;
    GoingFacts(s, id);
    if s.exec[w].at.Finished? {
      steps := [Worker(w, Finish)];
      RunOne(s, Worker(w, Finish));
      FinishIs(s, w, id);
      StillGoing(s, Worker(w, Finish), id);
    } else {
      var st := OneStepOut(s, w, id);
      var rest := BecomesReady(Apply(s, st), w, id);
      steps := [st] + rest;
      RunAppend(s, [st], rest);
      RunOne(s, st);
    }
  }

  // ---------- A worker reaches the front of the queue ----------

  lemma FindReady(s: State, id: Id) returns (steps: seq<Step>, w: nat)
    requires Going(s, id) && s.tokens[id].loc.InPool? && s.pool.holder.None?
    ensures var t := Run(s, steps);
            && Going(t, id) && Aside(s, t, id) && t.pool.holder.None?
            && w in t.pool.workers && t.pool.workers[w].Ready?
  {
    hide Going, Run, Apply, Placed, Linked;
    GoingFacts(s, id);
    if r :| r in s.pool.workers && s.pool.workers[r].Ready? {
      steps, w := [], r;
      RunNothing(s);
    } else if r :| r in s.pool.workers && s.pool.workers[r].Waiting? {
      steps, w := [Worker(r, Spurious)], r;
      RunOne(s, Worker(r, Spurious));
      LoopStepAside(s, r, Spurious, id);
    } else {
      w :| w in s.pool.workers;
      steps := BecomesReady(s, w, id);
    }
  }

  lemma RunNothing(s: State)
    ensures Run(s, []) == s
  {
  }

  lemma LoopTwice(s: State, w: nat, id: Id)
    requires Going(s, id) && s.pool.queue != [] && s.pool.holder.None?
    requires w in s.pool.workers && s.pool.workers[w].Ready?
    ensures var t := Run(s, [Worker(w, Acquire), Worker(w, LoadStop)]);
            Going(t, id) && Aside(s, t, id) && w in t.pool.workers && t.pool.workers[w].Dequeuing?
  {
    hide Run, Apply, Placed, Linked;
    GoingFacts(s, id);
    LoopStepAside(s, w, Acquire, id);
    var t := Apply(s, Worker(w, Acquire));
    LoopStepAside(t, w, LoadStop, id);
    RunAppend(s, [Worker(w, Acquire)], [Worker(w, LoadStop)]);
    RunOne(s, Worker(w, Acquire));
    RunOne(t, Worker(w, LoadStop));
    assert [Worker(w, Acquire)] + [Worker(w, LoadStop)] == [Worker(w, Acquire), Worker(w, LoadStop)];
  }

  lemma ReachDequeuing(s: State, id: Id) returns (steps: seq<Step>, w: nat)
    requires Going(s, id) && s.tokens[id].loc.InPool?
    ensures var t := Run(s, steps);
            Going(t, id) && Aside(s, t, id) && w in t.pool.workers && t.pool.workers[w].Dequeuing?
  {
    hide Going, Run, Apply, Placed, Linked;
    GoingFacts(s, id);
    if s.pool.holder.Some? {
      w := s.pool.holder.value;
      if s.pool.workers[w].Dequeuing? {
        steps := [];
        RunNothing(s);
      } else {
        steps := [Worker(w, LoadStop)];
        RunOne(s, Worker(w, LoadStop));
        LoopStepAside(s, w, LoadStop, id);
      }
    } else {
      var first;
      first, w := FindReady(s, id);
      LoopTwice(Run(s, first), w, id);
      steps := first + [Worker(w, Acquire), Worker(w, LoadStop)];
      RunAppend(s, first, [Worker(w, Acquire), Worker(w, LoadStop)]);
    }
  }

  /** The task, its registry entries, its history and the clocks have stayed as they were. */
  predicate SameWork(s: State, t: State, id: Id) {
    && id in s.tokens && id in t.tokens && t.tokens[id] == s.tokens[id].(loc := t.tokens[id].loc) && t.now == s.now
  }

  lemma TakeIs(s: State, w: nat, id: Id)
    requires Linked(s) && s.pool.queue != [] && w in s.pool.workers && s.pool.workers[w].Dequeuing? && id in s.tokens
    ensures var t := Apply(s, Worker(w, TakeJob));
            && SameWork(s, t, id)
            && t.tokens[id].loc == (if id == s.pool.queue[0] then OnWorker(w, Taken) else s.tokens[id].loc)
            && t.pool.queue == s.pool.queue[1..] && t.pool.stopFlag == s.pool.stopFlag
            && t.pool.workers.Keys == s.pool.workers.Keys && t.pool.holder.None? && t.sched == s.sched
            && (id != s.pool.queue[0] ==> t.tokens[id] == s.tokens[id])
  {
  }

  predicate IsTaken(loc: Loc) {
    loc.OnWorker? && loc.at.Taken?
  }

  lemma TakesFront(s: State, id: Id) returns (steps: seq<Step>)
    requires Going(s, id) && s.tokens[id].loc.InPool?
    ensures var t := Run(s, steps);
            && Going(t, id) && SameWork(s, t, id) && |t.pool.queue| < |s.pool.queue|
            && (t.tokens[id].loc.InPool? || IsTaken(t.tokens[id].loc))
  {
    hide Going, Run, Apply, Placed, Linked, BusyInv, P.MutexInv, P.StopInv;
    var first, w := ReachDequeuing(s, id);
    var t := Run(s, first);
    GoingFacts(t, id);
    TakeIs(t, w, id);
    StillGoing(t, Worker(w, TakeJob), id);
    steps := first + [Worker(w, TakeJob)];
    RunAppend(s, first, [Worker(w, TakeJob)]);
    RunOne(t, Worker(w, TakeJob));
  }

  lemma {:induction false} TakenFromPool(s: State, id: Id) returns (steps: seq<Step>)
    requires Going(s, id) && s.tokens[id].loc.InPool?
    ensures var t := Run(s, steps); Going(t, id) && SameWork(s, t, id) && IsTaken(t.tokens[id].loc)
    decreases |s.pool.queue|
  {
    hide Going, Run;
    steps := TakesFront(s, id);
    var t := Run(s, steps);
    if t.tokens[id].loc.InPool? {
      var rest := TakenFromPool(t, id);
      RunAppend(s, steps, rest);
      steps := steps + rest;
    }
  }

  // ---------- From the scheduler's hand ----------

  function HolderRank(s: State): nat {
    if s.pool.holder.None? || s.pool.holder.value !in s.pool.workers then 0 else
    match s.pool.workers[s.pool.holder.value]
    case Checking => 2
    case Blocking => 1
    case Granted => 2
    case Dequeuing => 1
    case _ => 0
  }

  /** The token and the scheduler thread have stayed as they were. */
  predicate InHandStill(s: State, t: State, id: Id) {
    id in s.tokens && id in t.tokens && t.tokens[id] == s.tokens[id] && t.sched == s.sched && t.now == s.now
  }

  /** What a worker does while it holds the mutex of the pool. */
  predicate OfHolder(op: WorkerOp) {
    op.ReadStop? || op.Block? || op.LoadStop? || op.TakeJob?
  }

  /** One step of the worker that holds the mutex. */
  lemma OneStepFree(s: State, id: Id) returns (st: Step)
    requires Going(s, id) && s.tokens[id].loc.InHand? && s.pool.holder.Some?
    ensures var t := Apply(s, st);
            Going(t, id) && InHandStill(s, t, id) && HolderRank(t) < HolderRank(s)
    ensures st.Worker? && OfHolder(st.workerOp)
  {
    hide Going, Apply, Placed, Linked, BusyInv;
    GoingFacts(s, id);
    var w := s.pool.holder.value;
    match s.pool.workers[w] {
      case Checking => st := Worker(w, ReadStop); LoopStepAside(s, w, ReadStop, id);
      case Blocking => st := Worker(w, Block); LoopStepAside(s, w, Block, id);
      case Granted => st := Worker(w, LoadStop); LoopStepAside(s, w, LoadStop, id);
      case Dequeuing =>
        st := Worker(w, TakeJob);
        TakeIs(s, w, id);
        StillGoing(s, st, id);
    }
  }

  /** stop() reaches the pool only after the scheduler thread has gone. */
  lemma HolderMeansGoing(s: State, id: Id)
    requires Reachable(s) && id in s.tokens && s.tokens[id].loc.InHand? && s.pool.holder.Some?
    ensures Going(s, id)
  {
    ReachableInv(s);
    assert Located(s, id);
  }

  lemma {:induction false} FreesMutex(s: State, id: Id) returns (steps: seq<Step>)
    requires Reachable(s) && id in s.tokens && s.tokens[id].loc.InHand?
    ensures var t := Run(s, steps); Reachable(t) && InHandStill(s, t, id) && t.pool.holder.None?
    ensures Going(s, id) ==> Going(Run(s, steps), id)
    ensures NoStart(steps)
    decreases HolderRank(s)
  {
    hide Run, Apply, HolderRank, Reachable;
    if s.pool.holder.None? {
      steps := [];
      RunNothing(s);
    } else {
      HolderMeansGoing(s, id);
      var st := OneStepFree(s, id);
      var rest := FreesMutex(Apply(s, st), id);
      steps := [st] + rest;
      RunAppend(s, [st], rest);
      RunOne(s, st);
    }
  }

  lemma EnqueueIs(s: State, id: Id)
    requires Linked(s) && s.sched == Holding(id, Marked) && s.pool.holder.None? && id in s.tokens
    ensures var t := Apply(s, Sched(Enqueue));
            && SameWork(s, t, id) && t.tokens[id].loc == InPool
            && t.pool.stopFlag == s.pool.stopFlag && t.pool.workers == s.pool.workers
            && t.pool.enqueued == s.pool.enqueued + [id]
  {
  }

  lemma MarkIs(s: State, id: Id)
    requires Linked(s) && s.sched == Holding(id, Approved) && id in s.tokens
    ensures var t := Apply(s, Sched(Decide));
            && id in t.tokens && t.tokens[id] == SetStatus(s.tokens[id], Running).(loc := InHand(Marked))
            && t.pool == s.pool && t.now == s.now && t.sched == Holding(id, Marked)
  {
  }

  lemma TakenWhenMarked(s: State, id: Id) returns (steps: seq<Step>)
    requires Going(s, id) && s.tokens[id].loc == InHand(Marked)
    ensures var t := Run(s, steps); Going(t, id) && SameWork(s, t, id) && IsTaken(t.tokens[id].loc)
  {
    hide Going, Run, Apply, Placed, Linked, BusyInv, P.MutexInv, P.StopInv;
    GoingIsReachable(s, id);
    var first := FreesMutex(s, id);
    var t := Run(s, first);
    GoingFacts(t, id);
    EnqueueIs(t, id);
    StillGoing(t, Sched(Enqueue), id);
    var rest := TakenFromPool(Apply(t, Sched(Enqueue)), id);
    RunOne(t, Sched(Enqueue));
    RunAppend(t, [Sched(Enqueue)], rest);
    steps := first + ([Sched(Enqueue)] + rest);
    RunAppend(s, first, [Sched(Enqueue)] + rest);
  }

  lemma GoingIsReachable(s: State, id: Id)
    requires Going(s, id)
    ensures Reachable(s) && id in s.tokens
  {
  }

  lemma TakenWhenApproved(s: State, id: Id) returns (steps: seq<Step>)
    requires Going(s, id) && s.tokens[id].loc == InHand(Approved)
    ensures var t := Run(s, steps); Going(t, id) && TakenFrom(s, t, id)
  {
    hide Going, Run, Apply, Placed, Linked, BusyInv, P.MutexInv, P.StopInv;
    GoingFacts(s, id);
    MarkIs(s, id);
    StillGoing(s, Sched(Decide), id);
    var rest := TakenWhenMarked(Apply(s, Sched(Decide)), id);
    RunOne(s, Sched(Decide));
    steps := [Sched(Decide)] + rest;
    RunAppend(s, [Sched(Decide)], rest);
  }

  // ---------- When a task can still be started ----------

  /** A worker has the task and has not called its function; on the way from the scheduler's status test the
      task has only become RUNNING. */
  predicate TakenFrom(s: State, t: State, id: Id) {
    && id in s.tokens && id in t.tokens && IsTaken(t.tokens[id].loc) && t.now == s.now
    && var tok := if s.tokens[id].loc == InHand(Approved) then SetStatus(s.tokens[id], Running) else s.tokens[id];
       t.tokens[id] == tok.(loc := t.tokens[id].loc)
  }

  /** The token is between the status test and the call of the task function, and the pool can still hand it
      over: it runs and has a worker, or a worker is already bound to take just this job. */
  ghost predicate CanRestart(s: State, id: Id)
    requires id in s.tokens
  {
    && StartsLeft(s.tokens[id].loc) == 1
    && (|| IsTaken(s.tokens[id].loc)
        || (!s.pool.stopFlag && s.pool.workers.Keys != {})
        || (s.pool.queue != [] && s.pool.queue[0] == id && P.Committed(s.pool) == 1))
  }

  lemma TakenAtFront(s: State, id: Id) returns (steps: seq<Step>)
    requires Reachable(s) && id in s.tokens && s.pool.queue != [] && s.pool.queue[0] == id && P.Committed(s.pool) == 1
    requires !s.tokens[id].loc.InHand?
    ensures var t := Run(s, steps); Reachable(t) && TakenFrom(s, t, id)
  {
    hide Reachable, Run, Apply, Placed, Linked;
    ReachablePlaced(s);
    var w := s.pool.holder.value;
    steps := [Worker(w, TakeJob)];
    TakeIs(s, w, id);
    RunOne(s, Worker(w, TakeJob));
    StepReachable(s, Worker(w, TakeJob));
  }

  lemma ReachablePlaced(s: State)
    requires Reachable(s)
    ensures Placed(s) && Linked(s)
  {
    ReachableInv(s);
  }

  /** The job at the front is not in the scheduler's hand. */
  lemma FrontNotInHand(s: State, id: Id)
    requires Placed(s) && id in s.tokens && s.pool.queue != [] && s.pool.queue[0] == id
    ensures s.tokens[id].loc.InPool?
  {
  }

  lemma ReachesTaken(s: State, id: Id) returns (steps: seq<Step>)
    requires Reachable(s) && id in s.tokens && CanRestart(s, id)
    ensures var t := Run(s, steps); Reachable(t) && TakenFrom(s, t, id)
  {
    hide Reachable, Run, Placed, Linked, P.Committed;
    var loc := s.tokens[id].loc;
    ReachablePlaced(s);
    if IsTaken(loc) {
      steps := [];
      RunNothing(s);
    } else if s.pool.stopFlag || s.pool.workers.Keys == {} {
      FrontNotInHand(s, id);
      steps := TakenAtFront(s, id);
    } else if loc == InHand(Approved) {
      steps := TakenWhenApproved(s, id);
    } else if loc == InHand(Marked) {
      steps := TakenWhenMarked(s, id);
    } else {
      steps := TakenFromPool(s, id);
    }
  }

  ghost predicate MoreStarts(s: State, t: State, id: Id) {
    id in s.tokens && id in t.tokens && |t.tokens[id].hist.starts| > |s.tokens[id].hist.starts|
  }

  lemma TakenStarts(s: State, id: Id)
    requires Placed(s) && id in s.tokens && IsTaken(s.tokens[id].loc)
    ensures MoreStarts(s, Apply(s, Worker(s.tokens[id].loc.w, Statement(Quiet))), id)
  {
    assert Located(s, id);
  }

  lemma CanStart(s: State, id: Id)
    requires Reachable(s) && id in s.tokens && CanRestart(s, id)
    ensures exists t :: LeadsTo(s, t) && MoreStarts(s, t, id)
  {
    hide Reachable, Run, Apply, Placed, CanRestart;
    var steps := ReachesTaken(s, id);
    var t := Run(s, steps);
    var st := Worker(t.tokens[id].loc.w, Statement(Quiet));
    ReachablePlaced(t);
    TakenStarts(t, id);
    RunAppend(s, steps, [st]);
    RunOne(t, st);
    assert LeadsTo(s, Run(s, steps + [st]));
  }

  // ---------- When a task can no longer be started ----------

  /** Between the status test and the moment a worker takes it. */
  predicate Pending(loc: Loc) {
    StartsLeft(loc) == 1 && !IsTaken(loc)
  }

  lemma PendingMoves(t: Token, ev: Event, now: Clock)
    requires Happens(t, ev, now) && Pending(t.loc) && !ev.Take?
    ensures var u := AfterEvent(t, ev, now);
            SameRuns(t, u) && (Pending(u.loc) || u.loc.Discarded?)
  {
  }

  /** A worker that takes the task was bound to take it. */
  lemma TakeNeedsChance(s: State, st: Step, id: Id)
    requires Placed(s) && P.MutexInv(s.pool) && Enabled(s, st) && id in s.tokens
    requires EventOf(s, st, id).Some? && EventOf(s, st, id).value.Take?
    ensures CanRestart(s, id)
  {
  }

  lemma PendingStep(s: State, st: Step, id: Id)
    requires Inv(s) && Enabled(s, st) && id in s.tokens && Pending(s.tokens[id].loc) && !CanRestart(s, id)
    ensures id in Next(s, st).tokens && SameRuns(s.tokens[id], Next(s, st).tokens[id])
    ensures Pending(Next(s, st).tokens[id].loc) || Next(s, st).tokens[id].loc.Discarded?
  {
    hide Inv, Next, Enabled, Linked, Placed, AfterEvent, Happens, CanRestart, EventOf, P.MutexInv;
    InvPool(s);
    TokenBecomes(s, st, id);
    var ev := EventOf(s, st, id);
    if ev.Some? {
      if ev.value.Take? {
        TakeNeedsChance(s, st, id);
      }
      PendingMoves(s.tokens[id], ev.value, s.now);
    }
  }

  lemma InvPool(s: State)
    requires Inv(s)
    ensures Placed(s) && Linked(s) && P.MutexInv(s.pool)
  {
  }

  lemma NoChanceArises(s: State, st: Step)
    requires Linked(s) && P.MutexInv(s.pool) && Enabled(s, st) && (s.pool.stopFlag || s.pool.workers.Keys == {})
    ensures var p := Next(s, st).pool;
            && (p.stopFlag || p.workers.Keys == {})
            && (P.Committed(p) == 1 ==> P.Committed(s.pool) == 1 && p.queue == s.pool.queue)
  {
    hide Next, Enabled, Linked, P.Next, P.Enabled, P.Committed, P.MutexInv;
    StepIsPoolStep(s, st);
    var ps := PoolStepOf(s, st);
    if ps.Some? {
      P.CommitmentIsOld(s.pool, ps.value);
    }
  }

  /** The scheduler and the pool cannot revive a task, and what can be started no more is never started. */
  lemma StepKeepsDoomed(s: State, st: Step, id: Id)
    requires Inv(s) && Enabled(s, st) && id in s.tokens && Gone(s.tokens[id]) && !CanRestart(s, id)
    ensures id in Next(s, st).tokens && Gone(Next(s, st).tokens[id]) && !CanRestart(Next(s, st), id)
    ensures Next(s, st).tokens[id].hist.starts == s.tokens[id].hist.starts
    ensures StartsLeft(s.tokens[id].loc) == 1 ==>
              && SameRuns(s.tokens[id], Next(s, st).tokens[id])
              && (StartsLeft(Next(s, st).tokens[id].loc) == 1 || Next(s, st).tokens[id].loc.Discarded?)
  {
    hide Inv, Next, Enabled, Linked, Placed, P.MutexInv, P.Committed, Gone;
    InvPool(s);
    GoneStays(s, st, id);
    if StartsLeft(s.tokens[id].loc) == 1 {
      PendingStep(s, st, id);
      NoChanceArises(s, st);
    }
  }

  lemma GoneStays(s: State, st: Step, id: Id)
    requires Inv(s) && Enabled(s, st) && id in s.tokens && Gone(s.tokens[id])
    ensures var t := Next(s, st);
            && id in t.tokens && Gone(t.tokens[id]) && s.tokens[id].hist.starts <= t.tokens[id].hist.starts
            && |t.tokens[id].hist.starts| + StartsLeft(t.tokens[id].loc)
               <= |s.tokens[id].hist.starts| + StartsLeft(s.tokens[id].loc)
  {
    TokenIsLater(s, st, id);
  }

  lemma {:induction false} StaysDoomed(s: State, steps: seq<Step>, id: Id)
    requires Inv(s) && id in s.tokens && Gone(s.tokens[id]) && !CanRestart(s, id)
    ensures var t := Run(s, steps);
            && id in t.tokens && Gone(t.tokens[id]) && !CanRestart(t, id)
            && t.tokens[id].hist.starts == s.tokens[id].hist.starts
    decreases |steps|
  {
    hide Inv, Next, Enabled, Linked, CanRestart, Gone;
    if steps != [] {
      var t, st := Run(s, steps[..|steps| - 1]), steps[|steps| - 1];
      StaysDoomed(s, steps[..|steps| - 1], id);
      RunKeepsInv(s, steps[..|steps| - 1]);
      if Linked(t) && Enabled(t, st) {
        StepKeepsDoomed(t, st, id);
      }
    }
  }
}
