/** What becomes of tasks that no execution waits for any more. */
module Endings {
  import opened Options
  import opened TaskIds
  import opened Tasks
  import opened Lifecycle
  import opened Protocol
  import opened Simulation
  import opened Invariant

  // ---------- Pushed after its cancellation ----------

  /** Queued, popped and about to be looked up, or thrown away. */
  predicate InVain(loc: Loc) {
    loc.InQueue? || loc == InHand(Popped) || loc.Skipped? || loc.Dropped?
  }

  lemma EventInVain(t: Token, ev: Event, now: Clock)
    requires Happens(t, ev, now) && Gone(t) && InVain(t.loc)
    ensures Gone(AfterEvent(t, ev, now)) && InVain(AfterEvent(t, ev, now).loc)
  {
  }

  lemma StepInVain(s: State, st: Step, id: Id)
    requires Inv(s) && Enabled(s, st) && id in s.tokens && Gone(s.tokens[id]) && InVain(s.tokens[id].loc)
    ensures id in Next(s, st).tokens && Gone(Next(s, st).tokens[id]) && InVain(Next(s, st).tokens[id].loc)
  {
    hide Inv, Next, Enabled, Linked, EventOf, AfterEvent, Happens, Gone, InVain;
    InvLinks(s);
    TokenBecomes(s, st, id);
    var ev := EventOf(s, st, id);
    if ev.Some? {
      EventInVain(s.tokens[id], ev.value, s.now);
    }
  }

  lemma {:induction false} RunInVain(s: State, steps: seq<Step>, id: Id)
    requires Inv(s) && id in s.tokens && Gone(s.tokens[id]) && InVain(s.tokens[id].loc)
    ensures var t := Run(s, steps); id in t.tokens && Gone(t.tokens[id]) && InVain(t.tokens[id].loc)
    decreases |steps|
  {
    hide Inv, Next, Enabled, Linked, Gone, InVain;
    if steps != [] {
      var t, st := Run(s, steps[..|steps| - 1]), steps[|steps| - 1];
      RunInVain(s, steps[..|steps| - 1], id);
      RunKeepsInv(s, steps[..|steps| - 1]);
      if Linked(t) && Enabled(t, st) {
        StepInVain(t, st, id);
      }
    }
  }

  // ---------- Left behind by a callback that threw in the catch branch ----------

  /** No cancelTask call is about to search activeTasks for the id. */
  ghost predicate NoSearch(s: State, id: Id) {
    forall c :: c in s.calls ==> s.calls[c] != CancelBegun(id)
  }

  /** No client asks for the cancellation of the id. */
  predicate NoRequest(steps: seq<Step>, id: Id) {
    forall i :: 0 <= i < |steps| ==> !Requests(steps[i], id)
  }

  predicate Requests(st: Step, id: Id) {
    st.Client? && st.clientOp == BeginCancel(id)
  }

  lemma SearchEvent(s: State, st: Step, id: Id)
    requires Linked(s) && Enabled(s, st) && id in s.tokens && NoSearch(s, id)
    ensures EventOf(s, st, id) != Some(CancelActive)
  {
  }

  lemma ClientKeepsNoSearch(s: State, c: nat, op: ClientOp, id: Id)
    requires Linked(s) && ClientEnabled(s, c, op) && NoSearch(s, id) && op != BeginCancel(id)
    ensures NoSearch(ClientNext(s, c, op), id)
  {
  }

  lemma StepKeepsNoSearch(s: State, st: Step, id: Id)
    requires Linked(s) && Enabled(s, st) && NoSearch(s, id) && !Requests(st, id)
    ensures NoSearch(Next(s, st), id)
  {
    match st
    case Tick(_, _) =>
    case Client(c, op) => ClientKeepsNoSearch(s, c, op, id);
    case _ => StepNames(s, st);
  }

  lemma EscapedEvent(t: Token, ev: Event, now: Clock)
    requires Happens(t, ev, now) && t.loc.Escaped? && t.active && !ev.CancelActive?
    ensures AfterEvent(t, ev, now).loc.Escaped? && AfterEvent(t, ev, now).active
  {
  }

  lemma StepKeepsEscaped(s: State, st: Step, id: Id)
    requires Inv(s) && Enabled(s, st) && id in s.tokens && s.tokens[id].loc.Escaped? && s.tokens[id].active
    requires NoSearch(s, id) && !Requests(st, id)
    ensures id in Next(s, st).tokens && Next(s, st).tokens[id].loc.Escaped? && Next(s, st).tokens[id].active
    ensures NoSearch(Next(s, st), id)
  {
    hide Inv, Next, Enabled, Linked, EventOf, AfterEvent, Happens, NoSearch;
    InvLinks(s);
    TokenBecomes(s, st, id);
    SearchEvent(s, st, id);
    StepKeepsNoSearch(s, st, id);
    var ev := EventOf(s, st, id);
    if ev.Some? {
      EscapedEvent(s.tokens[id], ev.value, s.now);
    }
  }

  lemma {:induction false} RunKeepsEscaped(s: State, steps: seq<Step>, id: Id)
    requires Inv(s) && id in s.tokens && s.tokens[id].loc.Escaped? && s.tokens[id].active
    requires NoSearch(s, id) && NoRequest(steps, id)
    ensures var t := Run(s, steps);
            id in t.tokens && t.tokens[id].loc.Escaped? && t.tokens[id].active && NoSearch(t, id)
    decreases |steps|
  {
    hide Inv, Next, Enabled, Linked, NoSearch;
    if steps != [] {
      var t, st := Run(s, steps[..|steps| - 1]), steps[|steps| - 1];
      RunKeepsEscaped(s, steps[..|steps| - 1], id);
      RunKeepsInv(s, steps[..|steps| - 1]);
      if Linked(t) && Enabled(t, st) {
        StepKeepsEscaped(t, st, id);
      }
    }
  }

  /** The search of a cancelTask call ends it. */
  lemma SearchRemoves(s: State, c: nat)
    requires Linked(s) && c in s.calls && s.calls[c].CancelBegun?
    ensures !IsActive(Apply(s, Client(c, CancelInActive)), s.calls[c].id)
  {
  }
}
