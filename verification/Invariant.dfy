/** The invariant of the whole system, and what every run keeps. */
module Invariant {
  import opened Options
  import opened TaskIds
  import opened Tasks
  import opened Lifecycle
  import opened Protocol
  import opened Ownership
  import opened Simulation
  import P = PoolModel

  ghost predicate TokensInv(s: State) {
    forall id :: id in s.tokens ==> TokenInv(s.tokens[id], s.now)
  }

  ghost predicate Inv(s: State) {
    Placed(s) && BusyInv(s) && IdsInv(s) && CtlInv(s) && P.Inv(s.pool) && TokensInv(s)
  }

  /** Every task of s is still there in t, later in its life. */
  ghost predicate AllLater(s: State, t: State) {
    forall id :: id in s.tokens ==> id in t.tokens && Later(s.tokens[id], t.tokens[id])
  }

  lemma InitInv(numThreads: nat, now: Clock)
    ensures Inv(Init(numThreads, now))
  {
    P.InitInv<Id>(numThreads);
  }

  lemma BecomesLater(t: Token, ev: Option<Event>, now: Clock, u: Token)
    requires TokenInv(t, now) && Becomes(t, ev, now, u)
    ensures TokenInv(u, now) && Later(t, u)
  {
    if ev.Some? {
      EventKeepsInv(t, ev.value, now);
      EventIsLater(t, ev.value, now);
    }
  }

  lemma TokenBecomes(s: State, st: Step, id: Id)
    requires Inv(s) && Enabled(s, st) && id in s.tokens
    ensures id in Next(s, st).tokens && Becomes(s.tokens[id], EventOf(s, st, id), s.now, Next(s, st).tokens[id])
  {
    StepIsEvent(s, st, id);
  }

  lemma TokenIsLater(s: State, st: Step, id: Id)
    requires Placed(s) && IdsInv(s) && Enabled(s, st) && id in s.tokens && TokenInv(s.tokens[id], s.now)
    ensures id in Next(s, st).tokens
    ensures Later(s.tokens[id], Next(s, st).tokens[id]) && TokenInv(Next(s, st).tokens[id], s.now)
  {
    StepIsEvent(s, st, id);
    BecomesLater(s.tokens[id], EventOf(s, st, id), s.now, Next(s, st).tokens[id]);
  }

  lemma StepIsLater(s: State, st: Step)
    requires Inv(s) && Enabled(s, st)
    ensures AllLater(s, Next(s, st))
    ensures forall id :: id in s.tokens ==> TokenInv(Next(s, st).tokens[id], s.now)
  {
    forall id | id in s.tokens
      ensures id in Next(s, st).tokens && Later(s.tokens[id], Next(s, st).tokens[id])
      ensures TokenInv(Next(s, st).tokens[id], s.now)
    {
      TokenIsLater(s, st, id);
    }
  }

  // ---------- What the threads other than clients leave alone ----------

  predicate SameNames(s: State, t: State) {
    && t.now == s.now && t.nextId == s.nextId && t.calls == s.calls && t.returned == s.returned
    && t.tokens.Keys == s.tokens.Keys
  }

  lemma PopKeepsNames(s: State, id: Id)
    requires Linked(s) && SchedEnabled(s, PopTask(id))
    ensures SameNames(s, SchedNext(s, PopTask(id)))
  {
  }

  lemma DecideKeepsNames(s: State)
    requires Linked(s) && SchedEnabled(s, Decide)
    ensures SameNames(s, SchedNext(s, Decide))
  {
  }

  lemma SchedKeepsNames(s: State, op: SchedOp)
    requires Linked(s) && SchedEnabled(s, op)
    ensures SameNames(s, SchedNext(s, op))
  {
    match op
    case PopTask(id) => PopKeepsNames(s, id);
    case Decide => DecideKeepsNames(s);
    case _ =>
  }

  lemma WorkerKeepsNames(s: State, w: nat, op: WorkerOp)
    requires Linked(s) && WorkerEnabled(s, w, op)
    ensures SameNames(s, WorkerNext(s, w, op))
  {
  }

  lemma CtlKeepsNames(s: State, op: CtlOp)
    requires CtlEnabled(s, op)
    ensures SameNames(s, CtlNext(s, op))
  {
  }

  lemma ClientNames(s: State, c: nat, op: ClientOp)
    requires Linked(s) && ClientEnabled(s, c, op)
    ensures var t := ClientNext(s, c, op);
            && t.now == s.now
            && (op.Create? ==> t.tokens == s.tokens[GenerateTaskId(s.nextId) := NewToken(op.config, c)])
            && (!op.Create? ==> t.tokens.Keys == s.tokens.Keys && t.nextId == s.nextId)
  {
  }

  lemma StepNames(s: State, st: Step)
    requires Linked(s) && Enabled(s, st)
    ensures st.Tick? || st.Client? || SameNames(s, Next(s, st))
  {
    match st
    case Tick(_, _) =>
    case Client(_, _) =>
    case Sched(op) => SchedKeepsNames(s, op);
    case Worker(w, op) => WorkerKeepsNames(s, w, op);
    case Ctl(op) => CtlKeepsNames(s, op);
  }

  lemma NewTokens(s: State, st: Step)
    requires Linked(s) && Enabled(s, st)
    ensures var t := Next(s, st);
            && s.now.NotAfter(t.now)
            && (st.Tick? || t.now == s.now)
            && (forall id :: id in t.tokens && id !in s.tokens ==>
                  st.Client? && st.clientOp.Create? && t.tokens[id] == NewToken(st.clientOp.config, st.c))
  {
    StepNames(s, st);
    if st.Client? {
      ClientNames(s, st.c, st.clientOp);
    }
  }

  lemma StepKeepsTokens(s: State, st: Step)
    requires Inv(s) && Enabled(s, st)
    ensures TokensInv(Next(s, st))
  {
    StepIsLater(s, st);
    NewTokens(s, st);
    var t := Next(s, st);
    forall id | id in t.tokens
      ensures TokenInv(t.tokens[id], t.now)
    {
      if id in s.tokens {
        LaterInv(t.tokens[id], s.now, t.now);
      } else {
        NewTokenInv(st.clientOp.config, st.c, t.now);
      }
    }
  }

  /** Only call c moved on, and it knows what it must. */
  lemma CallKeepsIds(s: State, t: State, c: nat, call: Option<Call>)
    requires IdsInv(s) && AllLater(s, t) && t.tokens.Keys == s.tokens.Keys && t.nextId == s.nextId
    requires forall id :: id in t.returned ==> id in s.returned || HandedOver(t, id)
    requires t.calls == if call.Some? then s.calls[c := call.value] else s.calls - {c}
    requires call.Some? ==> CallKnows(t, call.value)
    ensures IdsInv(t)
  {
    forall d | d in t.calls
      ensures CallKnows(t, t.calls[d])
    {
      if d != c {
        assert CallKnows(s, s.calls[d]);
        KnowsLater(s, t, s.calls[d]);
      }
    }
    forall id | id in t.returned
      ensures HandedOver(t, id)
    {
      if id in s.returned {
        assert HandedOver(s, id) && Later(s.tokens[id], t.tokens[id]);
      }
    }
  }

  lemma KnowsLater(s: State, t: State, call: Call)
    requires AllLater(s, t) && CallKnows(s, call) && t.tokens.Keys == s.tokens.Keys
    requires call.id in s.tokens ==> IsTaskId(call.id)
    ensures CallKnows(t, call)
  {
    assert call.id in s.tokens ==> Later(s.tokens[call.id], t.tokens[call.id]);
  }

  lemma CreateKeepsIds(s: State, c: nat, config: Config)
    requires IdsInv(s) && Linked(s) && ClientEnabled(s, c, Create(config))
    ensures IdsInv(ClientNext(s, c, Create(config)))
  {
    FreshId(s);
    var t := ClientNext(s, c, Create(config));
    forall d | d in t.calls
      ensures CallKnows(t, t.calls[d])
    {
      if d != c {
        assert CallKnows(s, s.calls[d]);
      }
    }
  }

  lemma ScheduleCallKnows(s: State, c: nat, op: ClientOp)
    requires Linked(s) && ClientEnabled(s, c, op)
    requires c in s.calls ==> CallKnows(s, s.calls[c])
    requires op.BeginCancel? && op.id in s.returned ==> HandedOver(s, op.id)
    requires op.InsertActive? || op.PushNew? || op.CountScheduled? || op.ReturnId? || op.BeginCancel?
    ensures NextCall(s, c, op).Some? ==> CallKnows(ClientNext(s, c, op), NextCall(s, c, op).value)
  {
  }

  lemma CancelCallKnows(s: State, c: nat, op: ClientOp)
    requires Placed(s) && IdsInv(s) && ClientEnabled(s, c, op)
    requires forall id :: id in s.tokens ==> CancelInv(s.tokens[id])
    requires op.CancelInActive? || op.CancelInQueue? || op.CountCancelled? || op.CallBack? || op.RecordCancel?
    ensures NextCall(s, c, op).Some? ==> CallKnows(ClientNext(s, c, op), NextCall(s, c, op).value)
  {
    assert CallKnows(s, s.calls[c]);
  }

  lemma CallFacts(s: State, c: nat, op: ClientOp)
    requires IdsInv(s)
    ensures c in s.calls ==> CallKnows(s, s.calls[c])
    ensures op.BeginCancel? && op.id in s.returned ==> HandedOver(s, op.id)
  {
  }

  lemma ReturnedFacts(s: State, c: nat, op: ClientOp)
    requires Linked(s) && ClientEnabled(s, c, op) && !op.Create? && (c in s.calls ==> CallKnows(s, s.calls[c]))
    ensures forall id :: id in ClientNext(s, c, op).returned ==>
              id in s.returned || HandedOver(ClientNext(s, c, op), id)
    ensures var call := NextCall(s, c, op);
            ClientNext(s, c, op).calls == if call.Some? then s.calls[c := call.value] else s.calls - {c}
  {
  }

  lemma ClientKeepsIds(s: State, c: nat, op: ClientOp)
    requires Placed(s) && IdsInv(s) && ClientEnabled(s, c, op) && AllLater(s, ClientNext(s, c, op)) && !op.Create?
    requires forall id :: id in s.tokens ==> CancelInv(s.tokens[id])
    ensures IdsInv(ClientNext(s, c, op))
  {
    hide IdsInv, AllLater, CallKnows, ClientNext, NextCall, ClientEnabled;
    CallFacts(s, c, op);
    ReturnedFacts(s, c, op);
    ClientNames(s, c, op);
    if op.InsertActive? || op.PushNew? || op.CountScheduled? || op.ReturnId? || op.BeginCancel? {
      ScheduleCallKnows(s, c, op);
    } else {
      CancelCallKnows(s, c, op);
    }
    CallKeepsIds(s, ClientNext(s, c, op), c, NextCall(s, c, op));
  }

  lemma OthersKeepIds(s: State, t: State)
    requires IdsInv(s) && AllLater(s, t) && t.nextId == s.nextId && t.calls == s.calls && t.returned == s.returned
    requires t.tokens.Keys == s.tokens.Keys
    ensures IdsInv(t)
  {
    forall d | d in t.calls
      ensures CallKnows(t, t.calls[d])
    {
      assert CallKnows(s, s.calls[d]);
    }
  }

  /** What a step does to the pool is one step of the pool, or nothing. */
  function PoolStepOf(s: State, st: Step): Option<P.Step<Id>>
    requires Linked(s) && Enabled(s, st)
  {
    match st
    case Tick(_, _) => None
    case Client(_, _) => None
    case Sched(op) =>
      (match op
       case Enqueue => Some(P.Push(s.sched.id))
       case Notify(woken) => Some(P.Notify(woken))
       case _ => None)
    case Worker(w, op) => if op.Statement? then None else Some(PoolStep(w, op))
    case Ctl(op) =>
      (match op
       case StoreStop => Some(P.StoreStop)
       case NotifyAll => Some(P.NotifyAll)
       case JoinWorkers => Some(P.Join)
       case DiscardJobs => Some(P.Discard)
       case _ => None)
  }

  lemma StepIsPoolStep(s: State, st: Step)
    requires Linked(s) && Enabled(s, st)
    ensures match PoolStepOf(s, st)
            case None => Next(s, st).pool == s.pool
            case Some(ps) => P.Enabled(s.pool, ps) && Next(s, st).pool == P.Next(s.pool, ps)
  {
    hide P.Enabled, P.Next;
    match st
    case Tick(_, _) =>
    case Client(c, op) => ClientKeepsPool(s, c, op);
    case Sched(_) =>
    case Worker(_, _) =>
    case Ctl(_) =>
  }

  lemma ClientKeepsPool(s: State, c: nat, op: ClientOp)
    requires Linked(s) && ClientEnabled(s, c, op)
    ensures ClientNext(s, c, op).pool == s.pool
  {
  }

  lemma StepKeepsPool(s: State, st: Step)
    requires Linked(s) && Enabled(s, st) && P.Inv(s.pool)
    ensures P.Inv(Next(s, st).pool)
  {
    StepIsPoolStep(s, st);
    if PoolStepOf(s, st).Some? {
      P.StepKeepsInv(s.pool, PoolStepOf(s, st).value);
    }
  }

  lemma StepKeepsPlaced(s: State, st: Step)
    requires Placed(s) && BusyInv(s) && IdsInv(s) && CtlInv(s) && Enabled(s, st)
    ensures Placed(Next(s, st))
  {
    match st
    case Tick(_, _) => SamePlacesKeepPlaced(s, Next(s, st));
    case Client(c, op) => ClientKeepsPlaced(s, c, op);
    case Sched(op) => SchedKeepsPlaced(s, op);
    case Worker(w, op) => WorkerKeepsPlaced(s, w, op);
    case Ctl(op) => CtlKeepsPlaced(s, op);
  }

  lemma StepKeepsControl(s: State, st: Step)
    requires Placed(s) && BusyInv(s) && CtlInv(s) && Enabled(s, st)
    ensures BusyInv(Next(s, st)) && CtlInv(Next(s, st))
  {
    match st
    case Tick(_, _) =>
    case Client(c, op) => ClientKeepsBusy(s, c, op); ClientKeepsCtl(s, c, op);
    case Sched(op) => SchedKeepsBusy(s, op); SchedKeepsCtl(s, op);
    case Worker(w, op) => WorkerKeepsBusy(s, w, op); WorkerKeepsCtl(s, w, op);
    case Ctl(op) => CtlKeepsBusy(s, op); CtlKeepsCtl(s, op);
  }

  lemma CancelsFit(s: State)
    requires TokensInv(s)
    ensures forall id :: id in s.tokens ==> CancelInv(s.tokens[id])
  {
    forall id | id in s.tokens
      ensures CancelInv(s.tokens[id])
    {
      assert TokenInv(s.tokens[id], s.now);
    }
  }

  lemma StepKeepsIds(s: State, st: Step)
    requires Placed(s) && IdsInv(s) && TokensInv(s) && Enabled(s, st) && AllLater(s, Next(s, st))
    ensures IdsInv(Next(s, st))
  {
    hide TokensInv, TokenInv, CancelInv;
    CancelsFit(s);
    if st.Client? {
      if st.clientOp.Create? {
        CreateKeepsIds(s, st.c, st.clientOp.config);
      } else {
        ClientKeepsIds(s, st.c, st.clientOp);
      }
    } else {
      StepNames(s, st);
      OthersKeepIds(s, Next(s, st));
    }
  }

  lemma NextKeepsInv(s: State, st: Step)
    requires Inv(s) && Enabled(s, st)
    ensures Inv(Next(s, st)) && AllLater(s, Next(s, st))
  {
    InvLinks(s);
    hide Next, Enabled, AllLater, Placed, BusyInv, IdsInv, CtlInv, P.Inv, TokensInv;
    StepIsLater(s, st);
    StepKeepsTokens(s, st);
    StepKeepsPlaced(s, st);
    StepKeepsControl(s, st);
    StepKeepsIds(s, st);
    StepKeepsPool(s, st);
  }

  lemma InvLinks(s: State)
    requires Inv(s)
    ensures Placed(s) && Linked(s)
  {
  }

  lemma StepKeepsInv(s: State, st: Step)
    requires Inv(s)
    ensures Inv(Apply(s, st)) && AllLater(s, Apply(s, st))
  {
    InvLinks(s);
    hide Next, Enabled, AllLater, Inv;
    SameIsLater(s);
    if Enabled(s, st) {
      NextKeepsInv(s, st);
    }
  }

  lemma LaterChain(s: State, t: State, u: State)
    requires AllLater(s, t) && AllLater(t, u)
    ensures AllLater(s, u)
  {
    forall id | id in s.tokens
      ensures id in u.tokens && Later(s.tokens[id], u.tokens[id])
    {
      LaterTransitive(s.tokens[id], t.tokens[id], u.tokens[id]);
    }
  }

  lemma SameIsLater(s: State)
    ensures AllLater(s, s)
  {
  }

  lemma {:induction false} RunKeepsInv(s: State, steps: seq<Step>)
    requires Inv(s)
    ensures Inv(Run(s, steps)) && AllLater(s, Run(s, steps))
    decreases |steps|
  {
    if steps == [] {
      SameIsLater(s);
    } else {
      hide Inv, AllLater, Apply;
      var t := Run(s, steps[..|steps| - 1]);
      RunKeepsInv(s, steps[..|steps| - 1]);
      StepKeepsInv(t, steps[|steps| - 1]);
      LaterChain(s, t, Run(s, steps));
    }
  }

  /** Every state that any schedule leads to, for any number of threads, calls and tasks. */
  ghost predicate Reachable(s: State) {
    exists numThreads: nat, now: Clock, steps: seq<Step> :: s == Run(Init(numThreads, now), steps)
  }

  lemma ReachableToken(s: State, id: Id)
    requires Reachable(s) && id in s.tokens
    ensures TokenInv(s.tokens[id], s.now)
  {
    hide Reachable, TokenInv;
    ReachableInv(s);
  }

  /** Some schedule of any length leads from s to t. */
  ghost predicate LeadsTo(s: State, t: State) {
    exists steps: seq<Step> :: t == Run(s, steps)
  }

  lemma LeadsKeepsInv(s: State, t: State)
    requires Inv(s) && LeadsTo(s, t)
    ensures Inv(t) && AllLater(s, t)
  {
    hide Inv, AllLater, Run;
    var steps: seq<Step> :| t == Run(s, steps);
    RunKeepsInv(s, steps);
  }

  lemma ReachableInv(s: State)
    requires Reachable(s)
    ensures Inv(s)
  {
    var numThreads: nat, now: Clock, steps: seq<Step> :| s == Run(Init(numThreads, now), steps);
    InitInv(numThreads, now);
    RunKeepsInv(Init(numThreads, now), steps);
  }

  lemma InitReachable(numThreads: nat, now: Clock)
    ensures Reachable(Init(numThreads, now))
  {
    assert Run(Init(numThreads, now), []) == Init(numThreads, now);
  }

  lemma StepReachable(s: State, st: Step)
    requires Reachable(s)
    ensures Reachable(Apply(s, st))
  {
    var numThreads: nat, now: Clock, steps: seq<Step> :| s == Run(Init(numThreads, now), steps);
    assert (steps + [st])[..|steps|] == steps;
    assert Run(Init(numThreads, now), steps + [st]) == Apply(s, st);
  }
}
