/** Every step of the system is, for each task, either nothing or one event of its life cycle. */
module Simulation {
  import opened Options
  import opened TaskIds
  import opened Tasks
  import opened Lifecycle
  import opened Protocol
  import opened Ownership

  function EventOf(s: State, st: Step, id: Id): Option<Event>
    requires Linked(s) && Enabled(s, st) && id in s.tokens
  {
    match st
    case Tick(_, _) => None
    case Client(c, op) => ClientEvent(s, c, op, id)
    case Sched(op) => SchedEvent(s, op, id)
    case Worker(w, op) => WorkerEvent(s, w, op, id)
    case Ctl(op) => if op.DiscardJobs? && id in s.pool.queue then Some(Discard) else None
  }

  function ClientEvent(s: State, c: nat, op: ClientOp, id: Id): Option<Event>
    requires ClientEnabled(s, c, op) && id in s.tokens
  {
    if op.Create? || op.BeginCancel? || s.calls[c].id != id then None else
    match op
    case InsertActive => Some(Insert)
    case PushNew => Some(Push)
    case CancelInActive => if s.tokens[id].active then Some(CancelActive) else None
    case CancelInQueue => if id in s.queue then Some(CancelQueued) else None
    case CallBack(throws) => Some(CancelCalled(throws))
    case RecordCancel => Some(RecordCancelled)
    case _ => None
  }

  function SchedEvent(s: State, op: SchedOp, id: Id): Option<Event>
    requires SchedEnabled(s, op) && id in s.tokens
  {
    match op
    case PopTask(popped) => if popped == id && s.tokens[id].task.startTime <= s.now.system then Some(Pop) else None
    case Decide => if s.sched.id == id then Some(Advance) else None
    case Enqueue => if s.sched.id == id then Some(Dispatch) else None
    case _ => None
  }

  function WorkerEvent(s: State, w: nat, op: WorkerOp, id: Id): Option<Event>
    requires WorkerEnabled(s, w, op) && id in s.tokens
  {
    match op
    case TakeJob => if s.pool.queue[0] == id then Some(Take(w)) else None
    case Statement(choice) => if s.exec[w].id == id then Some(Work(choice)) else None
    case _ => None
  }

  /** What ev makes of t; no event leaves it alone. */
  ghost predicate Becomes(t: Token, ev: Option<Event>, now: Clock, u: Token) {
    match ev
    case None => u == t
    case Some(e) => Happens(t, e, now) && u == AfterEvent(t, e, now)
  }

  lemma ScheduleIsEvent(s: State, c: nat, op: ClientOp, id: Id)
    requires Placed(s) && ClientEnabled(s, c, op) && id in s.tokens
    requires op.Create? || op.InsertActive? || op.PushNew? || op.CountScheduled? || op.ReturnId?
    requires GenerateTaskId(s.nextId) !in s.tokens
    ensures var t := ClientNext(s, c, op);
            id in t.tokens && Becomes(s.tokens[id], ClientEvent(s, c, op, id), s.now, t.tokens[id])
  {
  }

  lemma CancelIsEvent(s: State, c: nat, op: ClientOp, id: Id)
    requires Linked(s) && ClientEnabled(s, c, op) && id in s.tokens && StatusInv(s.tokens[id])
    requires op.BeginCancel? || op.CancelInActive? || op.CountCancelled? || op.CallBack? || op.RecordCancel?
    requires c in s.calls ==> CallKnows(s, s.calls[c])
    ensures var t := ClientNext(s, c, op);
            id in t.tokens && Becomes(s.tokens[id], ClientEvent(s, c, op, id), s.now, t.tokens[id])
  {
  }

  lemma DropIsEvent(s: State, c: nat, id: Id)
    requires Placed(s) && ClientEnabled(s, c, CancelInQueue) && CallKnows(s, s.calls[c]) && id in s.tokens
    ensures var t := ClientNext(s, c, CancelInQueue);
            id in t.tokens && Becomes(s.tokens[id], ClientEvent(s, c, CancelInQueue, id), s.now, t.tokens[id])
  {
  }

  lemma ClientIsEvent(s: State, c: nat, op: ClientOp, id: Id)
    requires Placed(s) && IdsInv(s) && ClientEnabled(s, c, op)
    requires id in s.tokens && StatusInv(s.tokens[id])
    ensures var t := ClientNext(s, c, op);
            id in t.tokens && Becomes(s.tokens[id], ClientEvent(s, c, op, id), s.now, t.tokens[id])
  {
    FreshId(s);
    if op.CancelInQueue? {
      DropIsEvent(s, c, id);
    } else if op.Create? || op.InsertActive? || op.PushNew? || op.CountScheduled? || op.ReturnId? {
      ScheduleIsEvent(s, c, op, id);
    } else {
      CancelIsEvent(s, c, op, id);
    }
  }

  lemma QueuedToken(s: State, id: Id)
    requires Placed(s) && id in s.queue
    ensures id in s.tokens && s.tokens[id].loc == InQueue
  {
  }

  lemma PopIsEvent(s: State, popped: Id, id: Id)
    requires Placed(s) && SchedEnabled(s, PopTask(popped)) && id in s.tokens
    ensures var t := SchedNext(s, PopTask(popped));
            id in t.tokens && Becomes(s.tokens[id], SchedEvent(s, PopTask(popped), id), s.now, t.tokens[id])
  {
    hide Placed, Linked;
    QueuedToken(s, popped);
  }

  lemma DecideIsEvent(s: State, op: SchedOp, id: Id)
    requires Placed(s) && SchedEnabled(s, op) && !op.PopTask? && id in s.tokens
    ensures var t := SchedNext(s, op);
            id in t.tokens && Becomes(s.tokens[id], SchedEvent(s, op, id), s.now, t.tokens[id])
  {
  }

  lemma TakeIsEvent(s: State, w: nat, id: Id)
    requires Placed(s) && WorkerEnabled(s, w, TakeJob) && id in s.tokens
    ensures var t := WorkerNext(s, w, TakeJob);
            id in t.tokens && Becomes(s.tokens[id], WorkerEvent(s, w, TakeJob, id), s.now, t.tokens[id])
  {
  }

  lemma StatementIsEvent(s: State, w: nat, choice: Choice, id: Id)
    requires Placed(s) && WorkerEnabled(s, w, Statement(choice)) && id in s.tokens
    ensures var t := WorkNext(s, w, choice);
            id in t.tokens && Becomes(s.tokens[id], WorkerEvent(s, w, Statement(choice), id), s.now, t.tokens[id])
  {
  }

  lemma WorkerIsEvent(s: State, w: nat, op: WorkerOp, id: Id)
    requires Placed(s) && WorkerEnabled(s, w, op) && id in s.tokens
    ensures var t := WorkerNext(s, w, op);
            id in t.tokens && Becomes(s.tokens[id], WorkerEvent(s, w, op, id), s.now, t.tokens[id])
  {
    match op
    case TakeJob => TakeIsEvent(s, w, id);
    case Statement(choice) => StatementIsEvent(s, w, choice, id);
    case _ =>
  }

  lemma CtlIsEvent(s: State, op: CtlOp, id: Id)
    requires Placed(s) && CtlEnabled(s, op) && id in s.tokens
    ensures var t := CtlNext(s, op);
            id in t.tokens && Becomes(s.tokens[id], EventOf(s, Ctl(op), id), s.now, t.tokens[id])
  {
  }

  /** The projection: one step of the system is at most one event of each existing task. */
  lemma StepIsEvent(s: State, st: Step, id: Id)
    requires Placed(s) && IdsInv(s) && Enabled(s, st) && id in s.tokens && StatusInv(s.tokens[id])
    ensures var t := Next(s, st);
            id in t.tokens && Becomes(s.tokens[id], EventOf(s, st, id), s.now, t.tokens[id])
  {
    match st
    case Tick(_, _) =>
    case Client(c, op) => ClientIsEvent(s, c, op, id);
    case Sched(op) => if op.PopTask? { PopIsEvent(s, op.id, id); } else { DecideIsEvent(s, op, id); }
    case Worker(w, op) => WorkerIsEvent(s, w, op, id);
    case Ctl(op) => CtlIsEvent(s, op, id);
  }

  /** A step that neither creates a task nor executes a worker's statement. */
  predicate Plain(st: Step) {
    !(st.Client? && st.clientOp.Create?) && !(st.Worker? && st.workerOp.Statement?)
  }

  lemma PlainEvent(s: State, st: Step, id: Id)
    requires Linked(s) && Enabled(s, st) && Plain(st) && id in s.tokens
    ensures EventOf(s, st, id).Some? ==> !EventOf(s, st, id).value.Work?
  {
  }
}
