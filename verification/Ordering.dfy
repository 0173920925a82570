/** No inversion from the ready queue to the workers. */
module Ordering {
  import opened Options
  import opened TaskIds
  import opened Tasks
  import opened Lifecycle
  import opened Protocol
  import opened Ownership
  import opened Simulation
  import opened Invariant
  import P = PoolModel

  /** t is dispatched before u: among the jobs enqueued since base, t comes before the first u. */
  ghost predicate Ahead(jobs: seq<Id>, base: nat, t: Id, u: Id) {
    exists i :: base <= i < |jobs| && jobs[i] == t && u !in jobs[base..i]
  }

  ghost predicate Undispatched(jobs: seq<Id>, base: nat, id: Id) {
    base <= |jobs| && id !in jobs[base..]
  }

  /** What the system may look like once t stood strictly before u in the ready queue, base jobs ago. */
  ghost predicate InOrder(s: State, t: Id, u: Id, base: nat) {
    && t in s.tokens && u in s.tokens && base <= |s.pool.enqueued|
    && var tl, ul := s.tokens[t].loc, s.tokens[u].loc;
       var jobs := s.pool.enqueued;
       || (tl.InQueue? && ul.InQueue? && Tasks.After(KeyOf(s.tokens[u].task), KeyOf(s.tokens[t].task))
           && Undispatched(jobs, base, t) && Undispatched(jobs, base, u))
       || (tl.InHand? && (ul.InQueue? || ul.Dropped?) && Undispatched(jobs, base, t) && Undispatched(jobs, base, u))
       || Decided(s, t, u, base)
  }

  lemma Dispatches(s: State, st: Step)
    requires Linked(s) && Enabled(s, st)
    ensures Next(s, st).pool.enqueued ==
            if st == Sched(Enqueue) then s.pool.enqueued + [s.sched.id] else s.pool.enqueued
  {
    hide Next, Enabled, Linked, P.Next, P.Enabled;
    StepIsPoolStep(s, st);
    var ps := PoolStepOf(s, st);
    if ps.Some? {
      P.OnlyPushEnqueues(s.pool, ps.value);
    }
  }

  lemma StillAhead(jobs: seq<Id>, more: seq<Id>, base: nat, t: Id, u: Id)
    requires Ahead(jobs, base, t, u) && jobs <= more
    ensures Ahead(more, base, t, u)
  {
    var i :| base <= i < |jobs| && jobs[i] == t && u !in jobs[base..i];
    assert more[base..i] == jobs[base..i];
  }

  lemma StillUndispatched(s: State, st: Step, base: nat, id: Id)
    requires Placed(s) && Enabled(s, st) && Undispatched(s.pool.enqueued, base, id)
    requires id in s.tokens && !s.tokens[id].loc.InHand?
    ensures Undispatched(Next(s, st).pool.enqueued, base, id)
  {
    Dispatches(s, st);
    if st == Sched(Enqueue) {
      assert s.sched.id != id;
      assert (s.pool.enqueued + [s.sched.id])[base..] == s.pool.enqueued[base..] + [s.sched.id];
    }
  }

  lemma PopEvent(s: State, st: Step, id: Id)
    requires Linked(s) && Enabled(s, st) && id in s.tokens && EventOf(s, st, id) == Some(Pop)
    ensures st == Sched(PopTask(id))
  {
  }

  /** A queued task stays queued with its key, is popped, or is dropped by a cancellation. */
  lemma QueuedMoves(s: State, st: Step, id: Id)
    requires Inv(s) && Enabled(s, st) && id in s.tokens && s.tokens[id].loc.InQueue?
    ensures id in Next(s, st).tokens
    ensures var tok := Next(s, st).tokens[id];
            || (tok.loc.InQueue? && KeyOf(tok.task) == KeyOf(s.tokens[id].task))
            || (tok.loc.InHand? && st == Sched(PopTask(id)))
            || tok.loc.Dropped?
  {
    hide Inv, Next, Enabled, Linked, EventOf;
    InvLinks(s);
    TokenBecomes(s, st, id);
    var ev := EventOf(s, st, id);
    if ev.Some? {
      EventKeepsQueuedKey(s.tokens[id], ev.value, s.now);
      if ev.value.Pop? {
        PopEvent(s, st, id);
      }
    }
  }

  lemma DispatchEvent(s: State, st: Step, id: Id)
    requires Placed(s) && Enabled(s, st) && id in s.tokens && s.tokens[id].loc.InHand?
    ensures EventOf(s, st, id) == Some(Dispatch) <==> st == Sched(Enqueue)
    ensures st == Sched(Enqueue) ==> s.sched.id == id
  {
    assert Located(s, id);
  }

  /** A task in the scheduler's hand stays there, is skipped, or is enqueued in the pool. */
  lemma HandMoves(s: State, st: Step, id: Id)
    requires Inv(s) && Enabled(s, st) && id in s.tokens && s.tokens[id].loc.InHand?
    ensures id in Next(s, st).tokens
    ensures var loc := Next(s, st).tokens[id].loc;
            if st == Sched(Enqueue) then loc.InPool? && s.sched.id == id else loc.InHand? || loc.Skipped?
  {
    StepIsEvent(s, st, id);
    DispatchEvent(s, st, id);
    var ev := EventOf(s, st, id);
    if ev.Some? {
      EventInHand(s.tokens[id], ev.value, s.now);
    }
  }

  /** The pop of the heap never takes u while t, strictly before it, is queued. */
  lemma PopRespectsOrder(s: State, t: Id, u: Id)
    requires Inv(s) && SchedEnabled(s, PopTask(u)) && t in s.tokens && s.tokens[t].loc.InQueue?
    ensures !Tasks.After(KeyOf(s.tokens[u].task), KeyOf(s.tokens[t].task))
  {
    assert Located(s, t);
  }

  lemma QueuedKeepsOrder(s: State, st: Step, t: Id, u: Id, base: nat)
    requires Inv(s) && Enabled(s, st) && t in s.tokens && u in s.tokens
    requires s.tokens[t].loc.InQueue? && s.tokens[u].loc.InQueue?
    requires Tasks.After(KeyOf(s.tokens[u].task), KeyOf(s.tokens[t].task))
    requires Undispatched(s.pool.enqueued, base, t) && Undispatched(s.pool.enqueued, base, u)
    ensures InOrder(Next(s, st), t, u, base)
  {
    QueuedMoves(s, st, t);
    QueuedMoves(s, st, u);
    StillUndispatched(s, st, base, t);
    StillUndispatched(s, st, base, u);
    if st == Sched(PopTask(u)) {
      PopRespectsOrder(s, t, u);
    }
  }

  /** A task that waits behind one in the scheduler's hand stays queued or is dropped. */
  lemma WaitsBehind(s: State, st: Step, t: Id, u: Id)
    requires Inv(s) && Enabled(s, st) && t in s.tokens && u in s.tokens
    requires s.tokens[t].loc.InHand? && (s.tokens[u].loc.InQueue? || s.tokens[u].loc.Dropped?)
    ensures u in Next(s, st).tokens
    ensures Next(s, st).tokens[u].loc.InQueue? || Next(s, st).tokens[u].loc.Dropped?
  {
    hide Inv, Next, Enabled, Linked, Placed, Grows, StaysGone, StaysFinal;
    InvLinks(s);
    NoPopNow(s, st, t, u);
    if s.tokens[u].loc.InQueue? {
      QueuedMoves(s, st, u);
    } else {
      TokenStays(s, st, u);
    }
  }

  lemma NoPopNow(s: State, st: Step, t: Id, u: Id)
    requires Placed(s) && Enabled(s, st) && t in s.tokens && s.tokens[t].loc.InHand?
    ensures st != Sched(PopTask(u))
  {
    assert Located(s, t);
  }

  lemma HandKeepsOrder(s: State, st: Step, t: Id, u: Id, base: nat)
    requires Inv(s) && Enabled(s, st) && t in s.tokens && u in s.tokens
    requires s.tokens[t].loc.InHand? && (s.tokens[u].loc.InQueue? || s.tokens[u].loc.Dropped?)
    requires Undispatched(s.pool.enqueued, base, t) && Undispatched(s.pool.enqueued, base, u)
    ensures InOrder(Next(s, st), t, u, base)
  {
    hide Inv, Next, Enabled, Linked, Placed;
    InvLinks(s);
    HandMoves(s, st, t);
    WaitsBehind(s, st, t, u);
    Dispatches(s, st);
    StillUndispatched(s, st, base, u);
    var jobs, more := s.pool.enqueued, Next(s, st).pool.enqueued;
    if st == Sched(Enqueue) {
      assert more[|jobs|] == t && more[base..|jobs|] == jobs[base..];
    }
  }

  /** The race is over: t was dispatched first, or one of the two will never be dispatched. */
  ghost predicate Decided(s: State, t: Id, u: Id, base: nat)
    requires t in s.tokens && u in s.tokens
  {
    || Ahead(s.pool.enqueued, base, t, u)
    || (Retired(s.tokens[t].loc) && Undispatched(s.pool.enqueued, base, t))
    || (s.tokens[u].loc.Dropped? && Undispatched(s.pool.enqueued, base, u))
  }

  lemma TokenStays(s: State, st: Step, id: Id)
    requires Inv(s) && Enabled(s, st) && id in s.tokens
    ensures id in Next(s, st).tokens && StaysRetired(s.tokens[id], Next(s, st).tokens[id])
  {
    TokenIsLater(s, st, id);
  }

  lemma DecidedForGood(s: State, st: Step, t: Id, u: Id, base: nat)
    requires Inv(s) && Enabled(s, st) && t in s.tokens && u in s.tokens && Decided(s, t, u, base)
    ensures t in Next(s, st).tokens && u in Next(s, st).tokens && Decided(Next(s, st), t, u, base)
  {
    hide Inv, Next, Enabled, Linked, Placed, Undispatched, Ahead, Grows, StaysGone, StaysFinal;
    InvLinks(s);
    TokenStays(s, st, t);
    TokenStays(s, st, u);
    Dispatches(s, st);
    if Ahead(s.pool.enqueued, base, t, u) {
      StillAhead(s.pool.enqueued, Next(s, st).pool.enqueued, base, t, u);
    } else if Retired(s.tokens[t].loc) && Undispatched(s.pool.enqueued, base, t) {
      StillUndispatched(s, st, base, t);
    } else {
      StillUndispatched(s, st, base, u);
    }
  }

  lemma StepKeepsOrder(s: State, st: Step, t: Id, u: Id, base: nat)
    requires Inv(s) && InOrder(s, t, u, base)
    ensures InOrder(Apply(s, st), t, u, base)
  {
    if Enabled(s, st) {
      if Decided(s, t, u, base) {
        DecidedForGood(s, st, t, u, base);
        Dispatches(s, st);
      } else if s.tokens[t].loc.InQueue? {
        QueuedKeepsOrder(s, st, t, u, base);
      } else {
        HandKeepsOrder(s, st, t, u, base);
      }
    }
  }

  lemma {:induction false} RunKeepsOrder(s: State, steps: seq<Step>, t: Id, u: Id, base: nat)
    requires Inv(s) && InOrder(s, t, u, base)
    ensures InOrder(Run(s, steps), t, u, base)
    decreases |steps|
  {
    if steps != [] {
      RunKeepsOrder(s, steps[..|steps| - 1], t, u, base);
      RunKeepsInv(s, steps[..|steps| - 1]);
      StepKeepsOrder(Run(s, steps[..|steps| - 1]), steps[|steps| - 1], t, u, base);
    }
  }

  /** A worker takes t before it takes u. */
  lemma AheadIsTakenFirst(jobs: seq<Id>, taken: seq<Id>, base: nat, t: Id, u: Id, j: nat)
    requires Ahead(jobs, base, t, u) && taken <= jobs && t != u
    requires base <= j < |taken| && taken[j] == u
    ensures t in taken[base..j]
  {
    var i :| base <= i < |jobs| && jobs[i] == t && u !in jobs[base..i];
    assert taken[base..j][i - base] == t;
  }

  /** Once both were dispatched, t was the first of the two. */
  lemma DispatchedInOrder(s: State, t: Id, u: Id, base: nat)
    requires InOrder(s, t, u, base) && t in s.pool.enqueued[base..] && u in s.pool.enqueued[base..]
    ensures Ahead(s.pool.enqueued, base, t, u)
  {
  }

  lemma AheadWasDispatched(jobs: seq<Id>, base: nat, t: Id, u: Id)
    requires base <= |jobs|
    ensures Ahead(jobs, base, t, u) ==> t in jobs[base..]
  {
    if i :| base <= i < |jobs| && jobs[i] == t && u !in jobs[base..i] {
      assert jobs[base..][i - base] == t;
    }
  }

  lemma QueuedInOrder(s: State, t: Id, u: Id, base: nat)
    requires Placed(s) && InOrder(s, t, u, base) && t in s.queue && t !in s.pool.enqueued[base..]
    ensures u in s.queue || s.tokens[u].loc.Dropped?
  {
    assert Located(s, u);
    AheadWasDispatched(s.pool.enqueued, base, t, u);
  }
}
