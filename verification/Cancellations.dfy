/** The successful cancelTask calls for one id: each calls the callback once, and records CANCELLED once unless
    the callback throws. */
module Cancellations {
  import opened Options
  import opened Counting
  import opened TaskIds
  import opened Tasks
  import opened Lifecycle
  import opened Protocol
  import opened Ownership
  import opened Simulation
  import opened Invariant

  /** The call has found the task and has not called the callback. */
  function Uncalled(id: Id): Call -> bool {
    (c: Call) => (c.CancelHit? || c.CancelCounted?) && c.id == id
  }

  /** The callback has returned, and the record has not been made. */
  function Unwritten(id: Id): Call -> bool {
    (c: Call) => c.CancelNotified? && c.id == id
  }

  function CancelRecords(t: Token): nat {
    multiset(t.hist.journal.records)[Cancelled]
  }

  ghost predicate CallsAddUp(s: State, id: Id)
    requires id in s.tokens
  {
    var h := s.tokens[id].hist;
    && h.activeHits + h.queueHits == h.journal.cancelCalls + Count(s.calls, Uncalled(id))
    && h.journal.cancelCalls ==
         h.journal.cancelThrows + CancelRecords(s.tokens[id]) + Count(s.calls, Unwritten(id))
  }

  /** What an event adds to the numbers of hits, of callbacks, of those that threw, and of records. */
  ghost predicate Adds(t: Token, ev: Option<Event>, u: Token) {
    var h, g := t.hist, u.hist;
    && g.activeHits + g.queueHits
       == h.activeHits + h.queueHits + Bit(ev == Some(CancelActive) || ev == Some(CancelQueued))
    && g.journal.cancelCalls == h.journal.cancelCalls + Bit(ev.Some? && ev.value.CancelCalled?)
    && g.journal.cancelThrows == h.journal.cancelThrows + Bit(ev == Some(CancelCalled(true)))
    && CancelRecords(u) == CancelRecords(t) + Bit(ev == Some(RecordCancelled))
  }

  lemma WorkAdds(t: Token, choice: Choice, now: Clock)
    requires Happens(t, Work(choice), now)
    ensures Adds(t, Some(Work(choice)), AfterEvent(t, Work(choice), now))
  {
    hide NextLoc;
  }

  lemma EventAdds(t: Token, ev: Event, now: Clock)
    requires Happens(t, ev, now)
    ensures Adds(t, Some(ev), AfterEvent(t, ev, now))
  {
    if ev.Work? {
      WorkAdds(t, ev.choice, now);
    }
  }

  /** What a step changes in the numbers of calls on their way. */
  ghost predicate Moves(s: State, t: State, id: Id, ev: Option<Event>) {
    && Count(t.calls, Uncalled(id)) + Bit(ev.Some? && ev.value.CancelCalled?)
       == Count(s.calls, Uncalled(id)) + Bit(ev == Some(CancelActive) || ev == Some(CancelQueued))
    && Count(t.calls, Unwritten(id)) + Bit(ev == Some(RecordCancelled))
       == Count(s.calls, Unwritten(id)) + Bit(ev == Some(CancelCalled(false)))
  }

  lemma OneCallMoves(s: State, c: nat, op: ClientOp, id: Id)
    requires Linked(s) && ClientEnabled(s, c, op) && id in s.tokens
    ensures var ev, next := ClientEvent(s, c, op, id), NextCall(s, c, op);
            && Bit(next.Some? && Uncalled(id)(next.value)) + Bit(ev.Some? && ev.value.CancelCalled?)
               == Bit(c in s.calls && Uncalled(id)(s.calls[c]))
                  + Bit(ev == Some(CancelActive) || ev == Some(CancelQueued))
            && Bit(next.Some? && Unwritten(id)(next.value)) + Bit(ev == Some(RecordCancelled))
               == Bit(c in s.calls && Unwritten(id)(s.calls[c])) + Bit(ev == Some(CancelCalled(false)))
  {
  }

  lemma ClientCalls(s: State, c: nat, op: ClientOp)
    requires Linked(s) && ClientEnabled(s, c, op)
    ensures var next := NextCall(s, c, op);
            && ClientNext(s, c, op).calls == (if next.Some? then s.calls[c := next.value] else s.calls - {c})
            && (next.None? ==> c in s.calls)
  {
  }

  lemma CallsMove(s: State, c: nat, op: ClientOp, id: Id)
    requires Linked(s) && ClientEnabled(s, c, op) && id in s.tokens
    ensures Moves(s, ClientNext(s, c, op), id, ClientEvent(s, c, op, id))
  {
    hide Linked, ClientEnabled, ClientNext, NextCall, ClientEvent, Uncalled, Unwritten;
    OneCallMoves(s, c, op, id);
    ClientCalls(s, c, op);
    var next := NextCall(s, c, op);
    if next.Some? {
      CountPut(s.calls, c, next.value, Uncalled(id));
      CountPut(s.calls, c, next.value, Unwritten(id));
    } else {
      CountRemove(s.calls, c, Uncalled(id));
      CountRemove(s.calls, c, Unwritten(id));
    }
  }

  lemma OtherEvents(s: State, st: Step, id: Id)
    requires Linked(s) && Enabled(s, st) && !st.Client? && id in s.tokens
    ensures var ev := EventOf(s, st, id);
            ev.Some? ==> !ev.value.CancelActive? && !ev.value.CancelQueued? && !ev.value.CancelCalled?
                         && !ev.value.RecordCancelled?
  {
  }

  lemma StepMoves(s: State, st: Step, id: Id)
    requires Linked(s) && Enabled(s, st) && id in s.tokens
    ensures Moves(s, Next(s, st), id, EventOf(s, st, id))
  {
    match st
    case Tick(_, _) =>
    case Client(c, op) => CallsMove(s, c, op, id);
    case _ => StepNames(s, st); OtherEvents(s, st, id);
  }

  lemma StepKeepsCallsAddUp(s: State, st: Step, id: Id)
    requires Inv(s) && Enabled(s, st) && id in s.tokens && CallsAddUp(s, id)
    ensures id in Next(s, st).tokens && CallsAddUp(Next(s, st), id)
  {
    hide Inv, Next, Enabled, Linked, AfterEvent, Happens, EventOf, CancelRecords;
    InvLinks(s);
    TokenBecomes(s, st, id);
    StepMoves(s, st, id);
    var ev := EventOf(s, st, id);
    if ev.Some? {
      EventAdds(s.tokens[id], ev.value, s.now);
    }
  }

  /** No call knows an id that has just been made. */
  lemma NewCallsAddUp(s: State, c: nat, config: Config, id: Id)
    requires IdsInv(s) && Linked(s) && ClientEnabled(s, c, Create(config)) && id == GenerateTaskId(s.nextId)
    ensures var t := ClientNext(s, c, Create(config)); id in t.tokens && CallsAddUp(t, id)
  {
    FreshId(s);
    var t := ClientNext(s, c, Create(config));
    forall d | d in t.calls
      ensures !Uncalled(id)(t.calls[d]) && !Unwritten(id)(t.calls[d])
    {
      if d != c {
        assert CallKnows(s, s.calls[d]);
      }
    }
    assert Where(t.calls, Uncalled(id)) == {} && Where(t.calls, Unwritten(id)) == {};
  }

  ghost predicate AllAddUp(s: State) {
    forall id :: id in s.tokens ==> CallsAddUp(s, id)
  }

  lemma NewId(s: State, st: Step, id: Id)
    requires Linked(s) && IdsInv(s) && Enabled(s, st) && id in Next(s, st).tokens && id !in s.tokens
    ensures st.Client? && st.clientOp.Create? && id == GenerateTaskId(s.nextId) && ClientEnabled(s, st.c, st.clientOp)
    ensures Next(s, st) == ClientNext(s, st.c, st.clientOp)
  {
    NewTokens(s, st);
    ClientNames(s, st.c, st.clientOp);
  }

  lemma InvCalls(s: State)
    requires Inv(s)
    ensures Linked(s) && IdsInv(s)
  {
  }

  lemma StepKeepsAllAddUp(s: State, st: Step)
    requires Inv(s) && AllAddUp(s)
    ensures AllAddUp(Apply(s, st))
  {
    hide Inv, Next, Enabled, Linked, CallsAddUp, IdsInv, ClientNext, ClientEnabled;
    InvCalls(s);
    if Enabled(s, st) {
      forall id | id in Next(s, st).tokens
        ensures CallsAddUp(Next(s, st), id)
      {
        if id in s.tokens {
          StepKeepsCallsAddUp(s, st, id);
        } else {
          NewId(s, st, id);
          NewCallsAddUp(s, st.c, st.clientOp.config, id);
        }
      }
    }
  }

  lemma {:induction false} RunKeepsAllAddUp(s: State, steps: seq<Step>)
    requires Inv(s) && AllAddUp(s)
    ensures AllAddUp(Run(s, steps))
    decreases |steps|
  {
    hide Inv, Apply, AllAddUp;
    if steps != [] {
      RunKeepsAllAddUp(s, steps[..|steps| - 1]);
      RunKeepsInv(s, steps[..|steps| - 1]);
      StepKeepsAllAddUp(Run(s, steps[..|steps| - 1]), steps[|steps| - 1]);
    }
  }

  lemma ReachableAddsUp(s: State, id: Id)
    requires Reachable(s) && id in s.tokens
    ensures CallsAddUp(s, id)
  {
    hide Inv, CallsAddUp, Run;
    var numThreads: nat, now: Clock, steps: seq<Step> :| s == Run(Init(numThreads, now), steps);
    InitInv(numThreads, now);
    RunKeepsAllAddUp(Init(numThreads, now), steps);
  }
}
