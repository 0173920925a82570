/** activeTasks and completedTasks together account for every task, except while a cancellation is between
    its erase and its record. */
module Registry {
  import opened Options
  import opened TaskIds
  import opened Tasks
  import opened Lifecycle
  import opened Protocol
  import opened Ownership
  import opened Simulation
  import opened Invariant

  /** Some cancelTask call has removed the id from activeTasks and will record it. */
  ghost predicate CancelPending(s: State, id: Id) {
    exists c :: c in s.calls && Hit(s.calls[c]) && s.calls[c].id == id
  }

  /** The id is in neither registry, and no cancelTask callback threw for it. */
  predicate Unlisted(t: Token) {
    Gone(t) && t.record.None? && !CancelThrew(t)
  }

  ghost predicate Covered(s: State) {
    forall id :: id in s.tokens && Unlisted(s.tokens[id]) ==> CancelPending(s, id)
  }

  /** Only the search in activeTasks can leave a task unlisted. */
  lemma EventKeepsListed(t: Token, ev: Event, now: Clock)
    requires StatusInv(t) && CancelInv(t) && RecordInv(t) && Happens(t, ev, now)
    requires Unlisted(AfterEvent(t, ev, now))
    ensures ev.CancelActive? || (Unlisted(t) && ev != CancelCalled(true) && !ev.RecordCancelled?)
  {
  }

  lemma ListedBefore(s: State, st: Step, id: Id)
    requires Inv(s) && Enabled(s, st) && id in s.tokens && id in Next(s, st).tokens && Unlisted(Next(s, st).tokens[id])
    ensures EventOf(s, st, id) == Some(CancelActive) || Unlisted(s.tokens[id])
    ensures EventOf(s, st, id) != Some(CancelCalled(true)) && EventOf(s, st, id) != Some(RecordCancelled)
  {
    StepIsEvent(s, st, id);
    var ev := EventOf(s, st, id);
    if ev.Some? {
      EventKeepsListed(s.tokens[id], ev.value, s.now);
    }
  }

  lemma ClientKeepsPending(s: State, c: nat, op: ClientOp, id: Id)
    requires Linked(s) && ClientEnabled(s, c, op) && id in s.tokens
    requires ClientEvent(s, c, op, id) == Some(CancelActive) || CancelPending(s, id)
    requires ClientEvent(s, c, op, id) != Some(CancelCalled(true)) && ClientEvent(s, c, op, id) != Some(RecordCancelled)
    ensures CancelPending(ClientNext(s, c, op), id)
  {
    var t := ClientNext(s, c, op);
    if ClientEvent(s, c, op, id) == Some(CancelActive) {
      assert t.calls[c] == CancelHit(id);
    } else {
      var d :| d in s.calls && Hit(s.calls[d]) && s.calls[d].id == id;
      assert d in t.calls && Hit(t.calls[d]) && t.calls[d].id == id;
    }
  }

  lemma StepKeepsPending(s: State, st: Step, id: Id)
    requires Linked(s) && Enabled(s, st) && id in s.tokens
    requires EventOf(s, st, id) == Some(CancelActive) || CancelPending(s, id)
    requires EventOf(s, st, id) != Some(CancelCalled(true)) && EventOf(s, st, id) != Some(RecordCancelled)
    ensures CancelPending(Next(s, st), id)
  {
    match st
    case Client(c, op) => ClientKeepsPending(s, c, op, id);
    case Tick(_, _) => PendingFrame(s, Next(s, st), id);
    case _ => StepNames(s, st); PendingFrame(s, Next(s, st), id);
  }

  lemma PendingFrame(s: State, t: State, id: Id)
    requires t.calls == s.calls && CancelPending(s, id)
    ensures CancelPending(t, id)
  {
    var c :| c in s.calls && Hit(s.calls[c]) && s.calls[c].id == id;
    assert c in t.calls && Hit(t.calls[c]) && t.calls[c].id == id;
  }

  lemma StepKeepsCovered(s: State, st: Step)
    requires Inv(s) && Covered(s)
    ensures Covered(Apply(s, st))
  {
    if Enabled(s, st) {
      var t := Next(s, st);
      NewTokens(s, st);
      StepIsLater(s, st);
      forall id | id in t.tokens && Unlisted(t.tokens[id])
        ensures CancelPending(t, id)
      {
        if id in s.tokens {
          ListedBefore(s, st, id);
          StepKeepsPending(s, st, id);
        }
      }
    }
  }

  lemma {:induction false} RunKeepsCovered(s: State, steps: seq<Step>)
    requires Inv(s) && Covered(s)
    ensures Covered(Run(s, steps))
    decreases |steps|
  {
    if steps != [] {
      RunKeepsCovered(s, steps[..|steps| - 1]);
      RunKeepsInv(s, steps[..|steps| - 1]);
      StepKeepsCovered(Run(s, steps[..|steps| - 1]), steps[|steps| - 1]);
    }
  }

  lemma ReachableCovered(s: State)
    requires Reachable(s)
    ensures Inv(s) && Covered(s)
  {
    ReachableInv(s);
    var numThreads: nat, now: Clock, steps: seq<Step> :| s == Run(Init(numThreads, now), steps);
    InitInv(numThreads, now);
    RunKeepsCovered(Init(numThreads, now), steps);
  }

  // ---------- Ids ----------

  /** The ids are those of the counter values so far, from 1. */
  ghost predicate Numbered(s: State) {
    s.nextId >= 1 && forall n: nat :: GenerateTaskId(n) in s.tokens <==> 1 <= n < s.nextId
  }

  lemma CreateKeepsNumbered(s: State, c: nat, config: Config)
    requires Linked(s) && ClientEnabled(s, c, Create(config)) && Numbered(s)
    ensures Numbered(ClientNext(s, c, Create(config)))
  {
    var t := ClientNext(s, c, Create(config));
    forall n: nat
      ensures GenerateTaskId(n) in t.tokens <==> 1 <= n < t.nextId
    {
      Injective(n, s.nextId);
    }
  }

  lemma StepKeepsNumbered(s: State, st: Step)
    requires Inv(s) && Numbered(s)
    ensures Numbered(Apply(s, st))
  {
    hide Inv, Linked, ClientEnabled, ClientNext;
    InvLinks(s);
    if Enabled(s, st) {
      match st
      case Tick(_, _) =>
      case Client(c, op) =>
        if op.Create? {
          CreateKeepsNumbered(s, c, op.config);
        } else {
          ClientNames(s, c, op);
        }
      case _ => StepNames(s, st);
    }
  }

  lemma {:induction false} RunKeepsNumbered(s: State, steps: seq<Step>)
    requires Inv(s) && Numbered(s)
    ensures Numbered(Run(s, steps))
    decreases |steps|
  {
    hide Inv, Apply, Numbered;
    if steps != [] {
      RunKeepsNumbered(s, steps[..|steps| - 1]);
      RunKeepsInv(s, steps[..|steps| - 1]);
      StepKeepsNumbered(Run(s, steps[..|steps| - 1]), steps[|steps| - 1]);
    }
  }

  lemma ReachableNumbered(s: State)
    requires Reachable(s)
    ensures Numbered(s)
  {
    hide Inv, Run;
    var numThreads: nat, now: Clock, steps: seq<Step> :| s == Run(Init(numThreads, now), steps);
    InitInv(numThreads, now);
    RunKeepsNumbered(Init(numThreads, now), steps);
  }
}
