/** When exactly a repeatable task that has left activeTasks can still be pushed into the queue again. */
module Repushes {
  import opened TaskIds
  import opened Tasks
  import opened Lifecycle
  import opened Protocol
  import opened Ownership
  import opened Simulation
  import opened Invariant
  import opened Restarts

  /** How often a task that left activeTasks may still be pushed again. The status CANCELLED stops it only at
      the test at line 322 of src/TaskScheduler.cpp, and is overwritten by RUNNING at line 287. */
  function PushesLeft(t: Token, now: Clock): (n: nat)
    ensures n <= 1
  {
    if !t.task.config.isRepeatable then 0 else
    match t.loc
    case InHand(phase) => if phase.Approved? then 1 else if phase.Marked? then NotCancelled(t) else 0
    case InPool => NotCancelled(t)
    case OnWorker(_, p) => PushesFrom(t, p, now)
    case _ => 0
  }

  function NotCancelled(t: Token): (n: nat)
    ensures n <= 1
  {
    if t.task.status.Cancelled? then 0 else 1
  }

  function PushesFrom(t: Token, p: Point, now: Clock): (n: nat)
    ensures n <= 1
  {
    match p
    case Taken => NotCancelled(t)
    case Executing => if ExceedsTimeout(t.task.config.timeout, Elapsed(t, now)) then 0 else NotCancelled(t)
    case FinalCheck => NotCancelled(t)
    case DoneSet => 1
    case DoneCount => 1
    case DoneCallback => 1
    case DoneRecord => 1
    case Reschedule => 1
    case Reset => 1
    case Repush => 1
    case _ => 0
  }

  // ---------- The bound ----------

  lemma WorkPushes(t: Token, choice: Choice, now: Clock)
    requires Gone(t) && StatusInv(t) && OnceInv(t) && Happens(t, Work(choice), now)
    ensures var u := AfterEvent(t, Work(choice), now);
            u.hist.repushes + PushesLeft(u, now) <= t.hist.repushes + PushesLeft(t, now)
  {
  }

  lemma EventPushes(t: Token, ev: Event, now: Clock)
    requires Gone(t) && StatusInv(t) && OnceInv(t) && Happens(t, ev, now)
    ensures var u := AfterEvent(t, ev, now);
            u.hist.repushes + PushesLeft(u, now) <= t.hist.repushes + PushesLeft(t, now)
  {
    if ev.Work? {
      WorkPushes(t, ev.choice, now);
    }
  }

  /** Time only takes chances away. */
  lemma PushesLater(t: Token, now: Clock, later: Clock)
    requires now.NotAfter(later) && Past(t.hist.began, now.steady)
    ensures PushesLeft(t, later) <= PushesLeft(t, now)
  {
    TimeoutIsCoarse(t.task.config.timeout, Elapsed(t, now));
    TimeoutIsCoarse(t.task.config.timeout, Elapsed(t, later));
  }

  lemma StepPushes(s: State, st: Step, id: Id)
    requires Inv(s) && Enabled(s, st) && id in s.tokens && Gone(s.tokens[id])
    ensures var t := Next(s, st);
            && id in t.tokens
            && t.tokens[id].hist.repushes + PushesLeft(t.tokens[id], t.now)
               <= s.tokens[id].hist.repushes + PushesLeft(s.tokens[id], s.now)
  {
    hide Inv, Next, Enabled, Linked, AfterEvent, Happens, Gone, PushesLeft, TokenInv;
    InvLinks(s);
    var t := Next(s, st);
    TokenBecomes(s, st, id);
    TokenOf(s, id);
    TokenFacts(s.tokens[id], s.now);
    NewTokens(s, st);
    var ev := EventOf(s, st, id);
    if ev.Some? {
      EventPushes(s.tokens[id], ev.value, s.now);
    }
    if st.Tick? {
      PushesLater(s.tokens[id], s.now, t.now);
    }
  }

  lemma TokenOf(s: State, id: Id)
    requires Inv(s) && id in s.tokens
    ensures TokenInv(s.tokens[id], s.now)
  {
  }

  lemma TokenFacts(t: Token, now: Clock)
    requires TokenInv(t, now)
    ensures StatusInv(t) && OnceInv(t) && OutcomeInv(t) && Past(t.hist.began, now.steady)
  {
  }

  /** A further push is possible. */
  ghost predicate CanRepush(s: State, id: Id)
    requires id in s.tokens
  {
    PushesLeft(s.tokens[id], s.now) == 1 && (StartsLeft(s.tokens[id].loc) == 1 ==> CanRestart(s, id))
  }

  lemma StepKeepsUnpushed(s: State, st: Step, id: Id)
    requires Inv(s) && Enabled(s, st) && id in s.tokens && Gone(s.tokens[id]) && !CanRepush(s, id)
    ensures id in Next(s, st).tokens && Gone(Next(s, st).tokens[id]) && !CanRepush(Next(s, st), id)
    ensures Next(s, st).tokens[id].hist.repushes == s.tokens[id].hist.repushes
  {
    hide Inv, Next, Enabled, Linked, Gone, PushesFrom, NotCancelled, CanRestart, StartsLeft;
    StepPushes(s, st, id);
    GoneStays(s, st, id);
    RepushesGrow(s, st, id);
    if StartsLeft(s.tokens[id].loc) == 1 && !CanRestart(s, id) {
      StepKeepsDoomed(s, st, id);
    }
  }

  lemma RepushesGrow(s: State, st: Step, id: Id)
    requires Inv(s) && Enabled(s, st) && id in s.tokens
    ensures id in Next(s, st).tokens && Next(s, st).tokens[id].hist.repushes >= s.tokens[id].hist.repushes
  {
    hide Inv, Next, Enabled, Linked, AfterEvent, Happens;
    InvLinks(s);
    TokenBecomes(s, st, id);
    var ev := EventOf(s, st, id);
    if ev.Some? {
      EventRepushes(s.tokens[id], ev.value, s.now);
    }
  }

  lemma EventRepushes(t: Token, ev: Event, now: Clock)
    requires Happens(t, ev, now)
    ensures AfterEvent(t, ev, now).hist.repushes >= t.hist.repushes
  {
  }

  lemma {:induction false} StaysUnpushed(s: State, steps: seq<Step>, id: Id)
    requires Inv(s) && id in s.tokens && Gone(s.tokens[id]) && !CanRepush(s, id)
    ensures var t := Run(s, steps);
            && id in t.tokens && Gone(t.tokens[id]) && !CanRepush(t, id)
            && t.tokens[id].hist.repushes == s.tokens[id].hist.repushes
    decreases |steps|
  {
    hide Inv, Next, Enabled, Linked, CanRepush, Gone;
    if steps != [] {
      var t, st := Run(s, steps[..|steps| - 1]), steps[|steps| - 1];
      StaysUnpushed(s, steps[..|steps| - 1], id);
      RunKeepsInv(s, steps[..|steps| - 1]);
      if Linked(t) && Enabled(t, st) {
        StepKeepsUnpushed(t, st, id);
      }
    }
  }

  lemma {:induction false} PushBound(s: State, steps: seq<Step>, id: Id)
    requires Inv(s) && id in s.tokens && Gone(s.tokens[id])
    ensures var t := Run(s, steps);
            && id in t.tokens && Gone(t.tokens[id])
            && t.tokens[id].hist.repushes + PushesLeft(t.tokens[id], t.now)
               <= s.tokens[id].hist.repushes + PushesLeft(s.tokens[id], s.now)
    decreases |steps|
  {
    hide Inv, Next, Enabled, Linked, PushesLeft, Gone;
    if steps != [] {
      var t, st := Run(s, steps[..|steps| - 1]), steps[|steps| - 1];
      PushBound(s, steps[..|steps| - 1], id);
      RunKeepsInv(s, steps[..|steps| - 1]);
      if Linked(t) && Enabled(t, st) {
        StepPushes(t, st, id);
        GoneStays(t, st, id);
      }
    }
  }

  // ---------- The push can happen ----------

  /** Statements still to come before the push. */
  function Ahead(p: Point): nat {
    match p
    case Taken => 10
    case Executing => 9
    case FinalCheck => 8
    case DoneSet => 7
    case DoneCount => 6
    case DoneCallback => 5
    case DoneRecord => 4
    case Reschedule => 3
    case Reset => 2
    case Repush => 1
    case _ => 0
  }

  function WayBack(p: Point): Choice {
    if p.Executing? then Returned else Quiet
  }

  lemma OneStatementBack(t: Token, now: Clock)
    requires StatusInv(t) && t.loc.OnWorker? && PushesLeft(t, now) == 1 && !t.loc.at.Repush?
    ensures Happens(t, Work(WayBack(t.loc.at)), now)
    ensures var u := AfterEvent(t, Work(WayBack(t.loc.at)), now);
            && u.loc.OnWorker? && u.loc.w == t.loc.w && PushesLeft(u, now) == 1
            && Ahead(u.loc.at) < Ahead(t.loc.at) && u.hist.repushes == t.hist.repushes && u.active == t.active
  {
    TimeoutIsCoarse(t.task.config.timeout, 0);
  }

  lemma PushStatement(t: Token, now: Clock)
    requires t.loc.OnWorker? && t.loc.at.Repush?
    ensures Happens(t, Work(Quiet), now)
    ensures var u := AfterEvent(t, Work(Quiet), now);
            u.hist.repushes == t.hist.repushes + 1 && u.loc.InQueue? && u.active == t.active
  {
  }

  function StepsBack(s: State, id: Id): nat
    requires id in s.tokens && s.tokens[id].loc.OnWorker?
  {
    2 * Ahead(s.tokens[id].loc.at) + if s.sched.Checked? then 1 else 0
  }

  /** The pool and the thread of start() and stop() have stayed as they were. */
  predicate SameControl(s: State, t: State) {
    t.pool == s.pool && t.ctl == s.ctl && t.isRunning == s.isRunning
  }

  /** The task is in the queue again, as active as it was. */
  predicate BackInQueue(s: State, t: State, id: Id) {
    && id in s.tokens && id in t.tokens && t.tokens[id].loc.InQueue? && t.tokens[id].active == s.tokens[id].active
    && SameControl(s, t)
  }

  lemma WorkerStep(s: State, id: Id, choice: Choice)
    requires Placed(s) && id in s.tokens && s.tokens[id].loc.OnWorker? && Happens(s.tokens[id], Work(choice), s.now)
    requires s.tokens[id].loc.at.Repush? ==> QueueFree(s)
    ensures var t := Apply(s, Worker(s.tokens[id].loc.w, Statement(choice)));
            && id in t.tokens && t.tokens[id] == AfterEvent(s.tokens[id], Work(choice), s.now)
            && t.now == s.now && t.sched == s.sched && SameControl(s, t)
  {
    assert Located(s, id);
  }

  lemma PopAside(s: State, id: Id) returns (popped: Id)
    requires Inv(s) && id in s.tokens && s.tokens[id].loc.OnWorker? && s.sched.Checked?
    ensures var t := Apply(s, Sched(PopTask(popped)));
            && id in t.tokens && t.tokens[id] == s.tokens[id] && t.now == s.now && !t.sched.Checked?
            && SameControl(s, t)
  {
    hide Inv, SchedEnabled, Placed, Linked, Apply;
    InvPlaces(s);
    popped := LeastExists(s);
    PoppedIsQueued(s, popped, id);
    PopIs(s, popped, id);
  }

  lemma InvPlaces(s: State)
    requires Inv(s)
    ensures Placed(s) && Linked(s) && (s.sched.Checked? ==> s.queue != multiset{})
  {
  }

  lemma PoppedIsQueued(s: State, popped: Id, id: Id)
    requires Placed(s) && SchedEnabled(s, PopTask(popped)) && id in s.tokens && s.tokens[id].loc.OnWorker?
    ensures popped != id
  {
  }

  ghost predicate MorePushes(s: State, t: State, id: Id) {
    id in s.tokens && id in t.tokens && t.tokens[id].hist.repushes > s.tokens[id].hist.repushes
  }

  lemma {:induction false} PushesBack(s: State, id: Id) returns (steps: seq<Step>)
    requires Inv(s) && id in s.tokens && s.tokens[id].loc.OnWorker? && PushesLeft(s.tokens[id], s.now) == 1
    ensures MorePushes(s, Run(s, steps), id) && BackInQueue(s, Run(s, steps), id)
    decreases StepsBack(s, id)
  {
    hide Inv, Run, Apply, Placed, Linked, PushesLeft, AfterEvent, Happens, TokenInv;
    InvPlaces(s);
    TokenOf(s, id);
    TokenFacts(s.tokens[id], s.now);
    var w, p := s.tokens[id].loc.w, s.tokens[id].loc.at;
    var st;
    if p.Repush? && !s.sched.Checked? {
      st := Worker(w, Statement(Quiet));
      PushStatement(s.tokens[id], s.now);
      WorkerStep(s, id, Quiet);
      steps := [st];
      RunOne(s, st);
    } else {
      if p.Repush? {
        var popped := PopAside(s, id);
        st := Sched(PopTask(popped));
      } else {
        st := Worker(w, Statement(WayBack(p)));
        OneStatementBack(s.tokens[id], s.now);
        WorkerStep(s, id, WayBack(p));
      }
      StepKeepsInv(s, st);
      var rest := PushesBack(Apply(s, st), id);
      steps := [st] + rest;
      RunOne(s, st);
      RunAppend(s, [st], rest);
    }
  }

  lemma TakenPushes(s: State, t: State, id: Id)
    requires TakenFrom(s, t, id) && PushesLeft(s.tokens[id], s.now) == 1 && StartsLeft(s.tokens[id].loc) == 1
    ensures PushesLeft(t.tokens[id], t.now) == 1
  {
  }

  lemma OnWorkerThen(t: Token, now: Clock)
    requires PushesLeft(t, now) == 1 && StartsLeft(t.loc) == 0
    ensures t.loc.OnWorker?
  {
  }

  lemma CanPush(s: State, id: Id)
    requires Reachable(s) && id in s.tokens && CanRepush(s, id)
    ensures exists t :: LeadsTo(s, t) && MorePushes(s, t, id)
  {
    hide Reachable, Run, Inv, CanRestart, PushesLeft;
    ReachableInv(s);
    var steps;
    if StartsLeft(s.tokens[id].loc) == 1 {
      var first := ReachesTaken(s, id);
      var t := Run(s, first);
      ReachableInv(t);
      TakenPushes(s, t, id);
      var rest := PushesBack(t, id);
      steps := first + rest;
      RunAppend(s, first, rest);
    } else {
      OnWorkerThen(s.tokens[id], s.now);
      steps := PushesBack(s, id);
    }
    assert LeadsTo(s, Run(s, steps));
  }
}
