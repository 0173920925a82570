/** When exactly a stop() that is under way can still return, if no thread wakes up spuriously. */
module Stops {
  import opened Options
  import opened TaskIds
  import opened Lifecycle
  import opened Protocol
  import opened Ownership
  import opened Invariant
  import opened Restarts
  import opened Progress
  import P = PoolModel

  /** No worker wakes up spuriously. */
  predicate Undisturbed(steps: seq<Step>) {
    forall i :: 0 <= i < |steps| ==> !Disturbs(steps[i])
  }

  predicate Disturbs(st: Step) {
    st.Worker? && st.workerOp.Spurious?
  }

  /** A worker sleeps, or has read the stop flag before it was set and is about to sleep. */
  predicate Sleepy(w: P.Worker<Id>) {
    w.Waiting? || w.Blocking?
  }

  /** stop() has notified the workers, and this one will not notice. */
  predicate HungAt(s: State, w: nat) {
    && s.ctl.StoppingPool? && s.pool.stopper.AllNotified?
    && w in s.pool.workers && Sleepy(s.pool.workers[w])
  }

  ghost predicate Hung(s: State) {
    exists w :: HungAt(s, w)
  }

  // ---------- A hung stop() stays so ----------

  lemma WorkerKeepsHung(s: State, u: nat, op: WorkerOp, w: nat)
    requires Linked(s) && WorkerEnabled(s, u, op) && !op.Spurious? && HungAt(s, w)
    ensures HungAt(WorkerNext(s, u, op), w)
  {
  }

  lemma CtlKeepsHung(s: State, op: CtlOp, w: nat)
    requires CtlEnabled(s, op) && HungAt(s, w)
    ensures HungAt(CtlNext(s, op), w)
  {
  }

  lemma ClientKeepsHung(s: State, c: nat, op: ClientOp, w: nat)
    requires Linked(s) && ClientEnabled(s, c, op) && HungAt(s, w)
    ensures HungAt(ClientNext(s, c, op), w)
  {
  }

  lemma StepKeepsHung(s: State, st: Step, w: nat)
    requires Inv(s) && Enabled(s, st) && !Disturbs(st) && HungAt(s, w)
    ensures HungAt(Next(s, st), w)
  {
    hide WorkerEnabled, WorkerNext, CtlEnabled, CtlNext, ClientEnabled, ClientNext, SchedNext, HungAt;
    InvLinks(s);
    match st
    case Tick(ticks, steadyTicks) => TickKeepsHung(s, ticks, steadyTicks, w);
    case Client(c, op) => ClientKeepsHung(s, c, op, w);
    case Sched(op) => SchedIsOff(s, op, w);
    case Worker(u, op) => WorkerKeepsHung(s, u, op, w);
    case Ctl(op) => CtlKeepsHung(s, op, w);
  }

  lemma TickKeepsHung(s: State, ticks: nat, steadyTicks: nat, w: nat)
    requires Linked(s) && HungAt(s, w)
    ensures HungAt(Next(s, Tick(ticks, steadyTicks)), w)
  {
  }

  lemma SchedIsOff(s: State, op: SchedOp, w: nat)
    requires Inv(s) && HungAt(s, w)
    ensures !SchedEnabled(s, op)
  {
  }

  lemma {:induction false} StaysHung(s: State, steps: seq<Step>, w: nat)
    requires Inv(s) && HungAt(s, w) && Undisturbed(steps)
    ensures HungAt(Run(s, steps), w)
    decreases |steps|
  {
    hide Inv, Next, Enabled, Linked, HungAt;
    if steps != [] {
      var t, st := Run(s, steps[..|steps| - 1]), steps[|steps| - 1];
      StaysHung(s, steps[..|steps| - 1], w);
      RunKeepsInv(s, steps[..|steps| - 1]);
      if Linked(t) && Enabled(t, st) {
        StepKeepsHung(t, st, w);
      }
    }
  }

  // ---------- The workers leave their loops ----------

  /** stop() waits for the workers, and each of them is awake. */
  ghost predicate Winding(s: State) {
    && Reachable(s) && s.ctl.StoppingPool? && s.pool.stopper.AllNotified?
    && (forall w :: w in s.pool.workers ==> !Sleepy(s.pool.workers[w]))
  }

  /** How far worker w is from leaving its loop. */
  function WayToExit(s: State, w: nat): nat
    requires w in s.pool.workers
  {
    match s.pool.workers[w]
    case Exited => 0
    case Granted => 2
    case Checking => 3
    case Ready => 4
    case Busy(_) => if w in s.exec then 5 + Rank(s.exec[w].at) else 0
    case _ => 30
  }

  lemma WindingFacts(s: State, w: nat)
    requires Winding(s) && w in s.pool.workers
    ensures Linked(s) && BusyInv(s) && P.MutexInv(s.pool) && s.pool.stopFlag && s.sched.Off?
    ensures s.pool.workers[w].Busy? ==> w in s.exec
  {
    ReachableInv(s);
  }

  /** Only worker w has moved. */
  ghost predicate OnlyMoved(s: State, t: State, w: nat) {
    && w in s.pool.workers && w in t.pool.workers && t.pool.workers == s.pool.workers[w := t.pool.workers[w]]
    && !Sleepy(t.pool.workers[w]) && t.ctl == s.ctl && t.pool.stopper == s.pool.stopper
    && (t.pool.holder.None? || t.pool.holder == Some(w))
  }

  lemma StillWinding(s: State, st: Step, w: nat)
    requires Winding(s) && OnlyMoved(s, Apply(s, st), w)
    ensures Winding(Apply(s, st))
  {
    hide Reachable, Apply;
    StepReachable(s, st);
  }

  /** The way out of a worker that has no job. */
  function LoopOp(w: P.Worker<Id>): WorkerOp {
    match w
    case Ready => Acquire
    case Checking => ReadStop
    case _ => LoadStop
  }

  lemma LoopsDown(s: State, w: nat)
    requires Linked(s) && P.MutexInv(s.pool) && s.pool.stopFlag && w in s.pool.workers
    requires s.pool.workers[w].Ready? || s.pool.workers[w].Checking? || s.pool.workers[w].Granted?
    requires s.pool.holder.None? || s.pool.holder == Some(w)
    ensures var t := Apply(s, Worker(w, LoopOp(s.pool.workers[w])));
            OnlyMoved(s, t, w) && WayToExit(t, w) < WayToExit(s, w)
  {
    hide Linked, Apply;
    LoopStepIs(s, w, LoopOp(s.pool.workers[w]));
  }

  lemma TakesDown(s: State, w: nat)
    requires Linked(s) && P.MutexInv(s.pool) && w in s.pool.workers && s.pool.workers[w].Dequeuing?
    ensures var t := Apply(s, Worker(w, TakeJob));
            OnlyMoved(s, t, w) && WayToExit(t, w) < WayToExit(s, w)
  {
  }

  lemma FinishesDown(s: State, w: nat)
    requires Linked(s) && BusyInv(s) && w in s.exec && s.exec[w].at.Finished?
    requires s.pool.holder.None? || s.pool.holder == Some(w)
    ensures var t := Apply(s, Worker(w, Finish));
            OnlyMoved(s, t, w) && WayToExit(t, w) < WayToExit(s, w)
  {
    hide Linked, Apply, BusyInv;
    FinishMoves(s, w);
  }

  lemma FinishMoves(s: State, w: nat)
    requires Linked(s) && BusyInv(s) && w in s.exec && s.exec[w].at.Finished?
    ensures var t := Apply(s, Worker(w, Finish));
            && w in s.pool.workers && s.pool.workers[w].Busy? && t.pool.workers == s.pool.workers[w := P.Ready]
            && t.ctl == s.ctl && t.pool.stopper == s.pool.stopper && t.pool.holder == s.pool.holder
  {
  }

  lemma WorksDown(s: State, w: nat)
    requires Linked(s) && BusyInv(s) && w in s.exec && !s.exec[w].at.Finished? && QueueFree(s)
    requires s.pool.holder.None? || s.pool.holder == Some(w)
    ensures var t := Apply(s, Worker(w, Statement(WayOut(s.exec[w].at))));
            OnlyMoved(s, t, w) && WayToExit(t, w) < WayToExit(s, w)
  {
    hide Linked, Apply, NextLoc, Rank;
    var Exec(j, p) := s.exec[w];
    LinkedExec(s, w);
    WayLeadsOut(s.tokens[j], w, p, s.now);
    StatementApplies(s, w, WayOut(p));
  }

  lemma LinkedExec(s: State, w: nat)
    requires Linked(s) && w in s.exec && !s.exec[w].at.Finished?
    ensures s.exec[w].id in s.tokens
  {
  }

  lemma OneStepDown(s: State, w: nat) returns (st: Step)
    requires Winding(s) && w in s.pool.workers && !s.pool.workers[w].Exited?
    requires s.pool.holder.None? || s.pool.holder == Some(w)
    ensures Winding(Apply(s, st)) && OnlyMoved(s, Apply(s, st), w) && !Disturbs(st)
    ensures WayToExit(Apply(s, st), w) < WayToExit(s, w)
  {
    hide Reachable, Apply, Linked, BusyInv, P.MutexInv, WayToExit, OnlyMoved;
    WindingFacts(s, w);
    var at := s.pool.workers[w];
    if at.Busy? {
      if s.exec[w].at.Finished? {
        st := Worker(w, Finish);
        FinishesDown(s, w);
      } else {
        st := Worker(w, Statement(WayOut(s.exec[w].at)));
        WorksDown(s, w);
      }
    } else if at.Dequeuing? {
      st := Worker(w, TakeJob);
      TakesDown(s, w);
    } else {
      st := Worker(w, LoopOp(at));
      LoopsDown(s, w);
    }
    StillWinding(s, st, w);
  }

  lemma {:induction false} LeadsOut(s: State, w: nat) returns (steps: seq<Step>)
    requires Winding(s) && w in s.pool.workers
    requires s.pool.holder.None? || s.pool.holder == Some(w)
    ensures var t := Run(s, steps);
            && Winding(t) && t.pool.holder.None? && t.pool.workers == s.pool.workers[w := P.Exited]
    ensures Undisturbed(steps)
    decreases WayToExit(s, w)
  {
    hide Run, Apply, WayToExit, Winding;
    if s.pool.workers[w].Exited? {
      steps := [];
      RunNothing(s);
      ExitedHoldsNothing(s, w);
      assert s.pool.workers[w := P.Exited] == s.pool.workers;
    } else {
      var st := OneStepDown(s, w);
      var t := Apply(s, st);
      var rest := LeadsOut(t, w);
      steps := [st] + rest;
      RunOne(s, st);
      RunAppend(s, [st], rest);
      assert t.pool.workers[w := P.Exited] == s.pool.workers[w := P.Exited];
    }
  }

  lemma ExitedHoldsNothing(s: State, w: nat)
    requires Winding(s) && w in s.pool.workers && s.pool.workers[w].Exited?
    ensures s.pool.holder != Some(w)
  {
    WindingFacts(s, w);
  }

  ghost function Inside(s: State): set<nat> {
    set w | w in s.pool.workers && !s.pool.workers[w].Exited?
  }

  lemma HolderIsInside(s: State)
    requires Winding(s) && s.pool.holder.Some?
    ensures s.pool.holder.value in Inside(s)
  {
    ReachableInv(s);
  }

  lemma FewerInside(s: State, t: State, w: nat)
    requires w in Inside(s) && t.pool.workers == s.pool.workers[w := P.Exited]
    ensures Inside(t) < Inside(s)
  {
    assert w !in Inside(t);
  }

  lemma {:induction false} AllLeave(s: State) returns (steps: seq<Step>)
    requires Winding(s)
    ensures Winding(Run(s, steps)) && P.AllExited(Run(s, steps).pool) && Run(s, steps).pool.holder.None?
    ensures Undisturbed(steps)
    decreases Inside(s)
  {
    hide Run, Winding;
    if Inside(s) == {} {
      steps := [];
      RunNothing(s);
      if s.pool.holder.Some? {
        HolderIsInside(s);
      }
      assert forall w :: w in s.pool.workers ==> w !in Inside(s);
    } else {
      var w :| w in Inside(s);
      if s.pool.holder.Some? {
        HolderIsInside(s);
        w := s.pool.holder.value;
      }
      var first := LeadsOut(s, w);
      FewerInside(s, Run(s, first), w);
      var rest := AllLeave(Run(s, first));
      steps := first + rest;
      RunAppend(s, first, rest);
    }
  }

  // ---------- stop() returns ----------

  /** A schedule without spurious wake-ups in which stop() returns. */
  ghost predicate Returns(s: State, steps: seq<Step>) {
    Undisturbed(steps) && Run(s, steps).ctl.Idle? && Run(s, steps).pool.stopped
  }

  lemma ThenReturns(s: State, st: Step, rest: seq<Step>) returns (steps: seq<Step>)
    requires !Disturbs(st) && Returns(Apply(s, st), rest)
    ensures Returns(s, steps)
  {
    hide Run, Apply;
    steps := [st] + rest;
    RunOne(s, st);
    RunAppend(s, [st], rest);
  }

  lemma DiscardReturns(s: State) returns (steps: seq<Step>)
    requires Linked(s) && s.ctl.StoppingPool? && s.pool.stopper.AllJoined? && s.pool.holder.None?
    ensures Returns(s, steps)
  {
    steps := [Ctl(DiscardJobs)];
    RunOne(s, Ctl(DiscardJobs));
  }

  lemma JoinIs(s: State)
    requires Linked(s) && s.ctl.StoppingPool? && s.pool.stopper.AllNotified? && P.AllExited(s.pool)
    ensures Apply(s, Ctl(JoinWorkers)) == s.(pool := s.pool.(stopper := P.AllJoined))
    ensures Linked(Apply(s, Ctl(JoinWorkers)))
  {
  }

  lemma JoinReturns(s: State) returns (steps: seq<Step>)
    requires Winding(s) && P.AllExited(s.pool) && s.pool.holder.None?
    ensures Returns(s, steps)
  {
    hide Reachable, Apply, Linked, Returns, P.AllExited;
    ReachablePlaced(s);
    JoinIs(s);
    var rest := DiscardReturns(Apply(s, Ctl(JoinWorkers)));
    steps := ThenReturns(s, Ctl(JoinWorkers), rest);
  }

  lemma WindingReturns(s: State) returns (steps: seq<Step>)
    requires Winding(s)
    ensures Returns(s, steps)
  {
    hide Run, Winding, P.AllExited;
    var first := AllLeave(s);
    var rest := JoinReturns(Run(s, first));
    steps := first + rest;
    RunAppend(s, first, rest);
  }

  lemma JoinedReturns(s: State) returns (steps: seq<Step>)
    requires Reachable(s) && s.ctl.StoppingPool? && s.pool.stopper.AllJoined?
    ensures Returns(s, steps)
  {
    hide Returns;
    ReachableInv(s);
    steps := DiscardReturns(s);
  }

  lemma NotifyAllIs(s: State)
    requires Linked(s) && s.ctl.StoppingPool? && s.pool.stopper.FlagStored?
    requires forall w :: w in s.pool.workers ==> !s.pool.workers[w].Blocking?
    ensures var t := Apply(s, Ctl(NotifyAll));
            && t.ctl.StoppingPool? && t.pool.stopper.AllNotified?
            && (forall w :: w in t.pool.workers ==> !Sleepy(t.pool.workers[w]))
  {
  }

  lemma NotifyReturns(s: State) returns (steps: seq<Step>)
    requires Reachable(s) && s.ctl.StoppingPool? && s.pool.stopper.FlagStored?
    requires forall w :: w in s.pool.workers ==> !s.pool.workers[w].Blocking?
    ensures Returns(s, steps)
  {
    hide Reachable, Apply, Linked, Returns;
    ReachablePlaced(s);
    NotifyAllIs(s);
    StepReachable(s, Ctl(NotifyAll));
    var rest := WindingReturns(Apply(s, Ctl(NotifyAll)));
    steps := ThenReturns(s, Ctl(NotifyAll), rest);
  }

  lemma BlockIs(s: State, w: nat)
    requires Linked(s) && P.MutexInv(s.pool) && w in s.pool.workers && s.pool.workers[w].Blocking?
    ensures var t := Apply(s, Worker(w, Block));
            && t.ctl == s.ctl && t.pool.stopper == s.pool.stopper
            && (forall u :: u in t.pool.workers ==> !t.pool.workers[u].Blocking?)
  {
    hide Linked, Apply;
    LoopStepIs(s, w, Block);
  }

  /** A worker about to sleep does so first, and then is notified. */
  lemma FlaggedReturns(s: State) returns (steps: seq<Step>)
    requires Reachable(s) && s.ctl.StoppingPool? && s.pool.stopper.FlagStored?
    ensures Returns(s, steps)
  {
    hide Reachable, Apply, Returns, Placed, Linked, P.MutexInv;
    if w :| w in s.pool.workers && s.pool.workers[w].Blocking? {
      ReachableInv(s);
      InvPool(s);
      BlockIs(s, w);
      StepReachable(s, Worker(w, Block));
      var rest := NotifyReturns(Apply(s, Worker(w, Block)));
      steps := ThenReturns(s, Worker(w, Block), rest);
    } else {
      steps := NotifyReturns(s);
    }
  }

  lemma StoreIs(s: State)
    requires Linked(s) && s.ctl.StoppingPool? && s.pool.stopper.NotStopping?
    ensures var t := Apply(s, Ctl(StoreStop)); t.ctl.StoppingPool? && t.pool.stopper.FlagStored?
  {
  }

  /** Unless it hangs, ThreadPool::stop can return. */
  lemma PoolReturns(s: State) returns (steps: seq<Step>)
    requires Reachable(s) && s.ctl.StoppingPool? && !Hung(s)
    ensures Returns(s, steps)
  {
    hide Reachable, Apply, Returns, Linked;
    match s.pool.stopper {
      case NotStopping =>
        ReachablePlaced(s);
        StoreIs(s);
        StepReachable(s, Ctl(StoreStop));
        var rest := FlaggedReturns(Apply(s, Ctl(StoreStop)));
        steps := ThenReturns(s, Ctl(StoreStop), rest);
      case FlagStored => steps := FlaggedReturns(s);
      case AllNotified =>
        assert forall w :: w in s.pool.workers && Sleepy(s.pool.workers[w]) ==> HungAt(s, w);
        steps := WindingReturns(s);
      case AllJoined => steps := JoinedReturns(s);
    }
  }

  // ---------- The scheduler thread leaves its loop ----------

  function EndRank(sched: SchedPc): nat {
    match sched
    case Checked => 10
    case Holding(_, phase) =>
      (match phase case Popped => 9 case LookedUp => 8 case Approved => 7 case Marked => 6)
    case Notifying => 5
    case Sleeping => 4
    case LoopTop => 3
    case WaitingForWork => 2
    case _ => 0
  }

  lemma EndingFacts(s: State)
    requires Reachable(s) && s.ctl.Cleared?
    ensures Placed(s) && Linked(s) && !s.isRunning && (s.sched.Checked? ==> s.queue != multiset{})
    ensures s.sched.Notifying? ==> s.pool.notifies == 1
    ensures s.sched.Holding? ==> s.sched.id in s.tokens && s.tokens[s.sched.id].loc == InHand(s.sched.phase)
  {
    ReachableInv(s);
  }

  lemma EndsSooner(s: State, op: SchedOp)
    requires Linked(s) && SchedEnabled(s, op) && !s.isRunning
    ensures EndRank(SchedNext(s, op).sched) < EndRank(s.sched) && SchedNext(s, op).ctl == s.ctl
  {
    hide Linked, P.Next, P.Enabled;
    match op
    case PopTask(_) =>
    case Decide =>
    case _ =>
  }

  lemma EndingOp(s: State) returns (op: SchedOp)
    requires Reachable(s) && s.ctl.Cleared? && !s.sched.Off? && !s.sched.Done?
    requires s.sched.Holding? && s.sched.phase.Marked? ==> s.pool.holder.None?
    ensures SchedEnabled(s, op)
  {
    hide Reachable, Placed, Linked;
    EndingFacts(s);
    match s.sched {
      case LoopTop => op := TestRunning;
      case WaitingForWork => op := WakeForWork;
      case Checked =>
        var popped := LeastExists(s);
        op := PopTask(popped);
      case Sleeping => op := WakeForTime;
      case Holding(_, phase) => op := if phase.Marked? then Enqueue else Decide;
      case Notifying =>
        var woken := NotifyWoken(s);
        op := Notify(woken);
    }
  }

  lemma HolderCtl(s: State, w: nat, op: WorkerOp)
    requires OfHolder(op)
    ensures Apply(s, Worker(w, op)).ctl == s.ctl
  {
  }

  /** One step of the scheduler thread, or of the worker in its way. */
  lemma OneStepToEnd(s: State) returns (st: Step)
    requires Reachable(s) && s.ctl.Cleared? && !s.sched.Off? && !s.sched.Done?
    ensures var t := Apply(s, st);
            && t.ctl.Cleared? && !Disturbs(st)
            && (|| EndRank(t.sched) < EndRank(s.sched)
                || (t.sched == s.sched && HolderRank(t) < HolderRank(s)))
  {
    hide Reachable, Placed, Linked, EndRank, HolderRank, Apply, SchedEnabled, SchedNext;
    EndingFacts(s);
    if s.sched.Holding? && s.sched.phase.Marked? && s.pool.holder.Some? {
      HolderMeansGoing(s, s.sched.id);
      st := OneStepFree(s, s.sched.id);
      HolderCtl(s, st.w, st.workerOp);
    } else {
      var op := EndingOp(s);
      st := Sched(op);
      EndsSooner(s, op);
      SchedApplies(s, op);
    }
  }

  lemma {:induction false} EndsLoop(s: State) returns (steps: seq<Step>)
    requires Reachable(s) && s.ctl.Cleared?
    ensures var t := Run(s, steps); Reachable(t) && t.ctl.Cleared? && (t.sched.Off? || t.sched.Done?)
    ensures Undisturbed(steps)
    decreases EndRank(s.sched), HolderRank(s)
  {
    hide Reachable, Run, Apply, EndRank, HolderRank;
    if s.sched.Off? || s.sched.Done? {
      steps := [];
      RunNothing(s);
    } else {
      var st := OneStepToEnd(s);
      StepReachable(s, st);
      var rest := EndsLoop(Apply(s, st));
      steps := [st] + rest;
      RunOne(s, st);
      RunAppend(s, [st], rest);
    }
  }

  lemma JoinSchedulerIs(s: State)
    requires Linked(s) && s.ctl.Cleared? && (s.sched.Off? || s.sched.Done?)
    ensures Apply(s, Ctl(JoinScheduler)) == s.(sched := Off, ctl := StoppingPool)
  {
  }

  /** The pool is not being stopped before the scheduler thread has been joined. */
  lemma ClearedIsEarly(s: State)
    requires Reachable(s) && s.ctl.Cleared?
    ensures Linked(s) && s.pool.stopper.NotStopping?
  {
    ReachableInv(s);
  }

  lemma JoinedLoopReturns(s: State) returns (steps: seq<Step>)
    requires Reachable(s) && s.ctl.Cleared? && (s.sched.Off? || s.sched.Done?)
    ensures Returns(s, steps)
  {
    hide Reachable, Apply, Returns, Linked;
    ClearedIsEarly(s);
    JoinSchedulerIs(s);
    StepReachable(s, Ctl(JoinScheduler));
    var rest := PoolReturns(Apply(s, Ctl(JoinScheduler)));
    steps := ThenReturns(s, Ctl(JoinScheduler), rest);
  }

  lemma StopReturns(s: State) returns (steps: seq<Step>)
    requires Reachable(s) && !s.ctl.Idle? && !Hung(s)
    ensures Returns(s, steps)
  {
    hide Reachable, Run;
    if s.ctl.Cleared? {
      var first := EndsLoop(s);
      var rest := JoinedLoopReturns(Run(s, first));
      steps := first + rest;
      RunAppend(s, first, rest);
    } else {
      steps := PoolReturns(s);
    }
  }
}
