/** Single ownership: each task has one token, and the token is in one place. */
module Ownership {
  import opened TaskIds
  import opened Tasks
  import opened Lifecycle
  import opened Protocol
  import P = PoolModel

  /** The container or thread named by the history really holds the task, at the point named. */
  ghost predicate Located(s: State, id: Id)
    requires id in s.tokens
  {
    match s.tokens[id].loc
    case AtClient(c, inserted) => c in s.calls && s.calls[c] == if inserted then Inserted(id) else Created(id)
    case InQueue => id in s.queue
    case InHand(phase) => s.sched == Holding(id, phase)
    case InPool => id in s.pool.queue
    case OnWorker(w, p) => w in s.exec && s.exec[w] == Exec(id, p) && !p.Finished?
    case _ => true
  }

  ghost predicate AllLocated(s: State) {
    forall id :: id in s.tokens ==> Located(s, id)
  }

  /** Whatever holds a task is where the history says the token is, and holds it once. */
  ghost predicate Unique(s: State)
    requires Linked(s)
  {
    && (forall id :: id in s.queue ==> s.tokens[id].loc == InQueue && s.queue[id] == 1)
    && (s.sched.Holding? ==> s.tokens[s.sched.id].loc == InHand(s.sched.phase))
    && (forall i :: 0 <= i < |s.pool.queue| ==> s.tokens[s.pool.queue[i]].loc == InPool)
    && (forall i, j :: 0 <= i < j < |s.pool.queue| ==> s.pool.queue[i] != s.pool.queue[j])
    && (forall w :: w in s.exec && !s.exec[w].at.Finished? ==> s.tokens[s.exec[w].id].loc == OnWorker(w, s.exec[w].at))
    && (forall c :: c in s.calls && OwnsToken(s.calls[c]) ==>
          s.tokens[s.calls[c].id].loc == AtClient(c, s.calls[c].Inserted?))
  }

  ghost predicate Placed(s: State) {
    Linked(s) && AllLocated(s) && Unique(s)
  }

  /** A worker runs executeAndFinalizeTask exactly while the pool has handed it a job. */
  ghost predicate BusyInv(s: State) {
    && (forall w :: w in s.exec ==> w in s.pool.workers && s.pool.workers[w] == P.Busy(s.exec[w].id))
    && (forall w :: w in s.pool.workers && s.pool.workers[w].Busy? ==> w in s.exec)
  }

  /** The task exists and its scheduleTask call has pushed it. */
  ghost predicate HandedOver(s: State, id: Id) {
    id in s.tokens && !s.tokens[id].loc.AtClient?
  }

  predicate Hit(c: Call) {
    c.CancelHit? || c.CancelCounted? || c.CancelNotified?
  }

  /** What a call after the push, or a cancelTask call, knows about its id. */
  ghost predicate CallKnows(s: State, c: Call) {
    && (c.Pushed? || c.Counted? || Hit(c) ==> HandedOver(s, c.id))
    && (Hit(c) ==> s.tokens[c.id].hist.activeHits >= 1)
    && (c.CancelBegun? || c.CancelMissed? ==> HandedOver(s, c.id) || !IsTaskId(c.id))
    && (c.CancelMissed? && c.id in s.tokens ==> !s.tokens[c.id].active)
  }

  /** Task ids come from the counter; calls and callers only know ids of tasks that were handed over. */
  ghost predicate IdsInv(s: State) {
    && (forall id :: id in s.tokens ==> IsTaskId(id) && ParseTaskId(id).value < s.nextId)
    && (forall id :: id in s.returned ==> HandedOver(s, id))
    && (forall c :: c in s.calls ==> CallKnows(s, s.calls[c]))
  }

  /** The scheduler thread lives while isRunning is set, start() never replaces a live one, and pop never meets an
      empty queue. */
  ghost predicate CtlInv(s: State) {
    && (s.isRunning ==> !s.sched.Off? && !s.sched.Done?)
    && (s.ctl.Idle? && !s.isRunning ==> s.sched.Off?)
    && (s.ctl.StoppingPool? ==> s.sched.Off?)
    && (!s.ctl.Idle? ==> !s.isRunning)
    && (!s.ctl.StoppingPool? ==> s.pool.stopper.NotStopping?)
    && (s.sched.Checked? ==> s.queue != multiset{})
    && s.pool.notifies == (if s.sched.Notifying? then 1 else 0)
  }

  lemma FreshId(s: State)
    requires IdsInv(s)
    ensures GenerateTaskId(s.nextId) !in s.tokens
    ensures IsTaskId(GenerateTaskId(s.nextId)) && ParseTaskId(GenerateTaskId(s.nextId)).value == s.nextId
  {
    RoundTrip(s.nextId);
  }

  // ---------- Steps that hand no task over ----------

  /** No token is handed over between s and t. */
  ghost predicate SamePlaces(s: State, t: State) {
    && t.tokens.Keys == s.tokens.Keys
    && (forall id :: id in s.tokens ==> t.tokens[id].loc == s.tokens[id].loc)
    && t.queue == s.queue && t.pool.queue == s.pool.queue
    && (s.sched.Holding? || t.sched.Holding? ==> t.sched == s.sched)
    && (forall w :: w in s.exec && !s.exec[w].at.Finished? ==> w in t.exec && t.exec[w] == s.exec[w])
    && (forall w :: w in t.exec && !t.exec[w].at.Finished? ==> w in s.exec && t.exec[w] == s.exec[w])
    && (forall c :: c in s.calls && OwnsToken(s.calls[c]) ==> c in t.calls && t.calls[c] == s.calls[c])
    && (forall c :: c in t.calls && OwnsToken(t.calls[c]) ==> c in s.calls && t.calls[c] == s.calls[c])
  }

  lemma SameLinks(s: State, t: State)
    requires Linked(s) && SamePlaces(s, t)
    ensures Linked(t)
  {
  }

  lemma SameLocated(s: State, t: State)
    requires AllLocated(s) && SamePlaces(s, t)
    ensures AllLocated(t)
  {
    forall id | id in t.tokens
      ensures Located(t, id)
    {
      assert Located(s, id);
    }
  }

  lemma SameUnique(s: State, t: State)
    requires Linked(s) && Unique(s) && SamePlaces(s, t) && Linked(t)
    ensures Unique(t)
  {
  }

  lemma SamePlacesKeepPlaced(s: State, t: State)
    requires Placed(s) && SamePlaces(s, t)
    ensures Placed(t)
  {
    hide Linked, AllLocated, Unique, SamePlaces;
    SameLinks(s, t);
    SameLocated(s, t);
    SameUnique(s, t);
  }

  predicate ClientMoves(op: ClientOp) {
    op.Create? || op.InsertActive? || op.PushNew? || op.CancelInQueue?
  }

  /** A call that owns no token moves on or ends, and may change the data of a task. */
  lemma CallSamePlaces(s: State, t: State, c: nat)
    requires Placed(s) && (c in s.calls ==> !OwnsToken(s.calls[c]))
    requires t.queue == s.queue && t.pool == s.pool && t.sched == s.sched && t.exec == s.exec
    requires t.calls == s.calls - {c} || (c in t.calls && !OwnsToken(t.calls[c]) && t.calls == s.calls[c := t.calls[c]])
    requires t.tokens.Keys == s.tokens.Keys
    requires forall id :: id in s.tokens ==> t.tokens[id].loc == s.tokens[id].loc
    ensures SamePlaces(s, t)
  {
  }

  lemma CancelSamePlaces(s: State, c: nat)
    requires Placed(s) && ClientEnabled(s, c, CancelInActive)
    ensures SamePlaces(s, ClientNext(s, c, CancelInActive))
  {
    CallSamePlaces(s, ClientNext(s, c, CancelInActive), c);
  }

  lemma ClientSamePlaces(s: State, c: nat, op: ClientOp)
    requires Placed(s) && ClientEnabled(s, c, op) && !ClientMoves(op) && !op.CancelInActive?
    ensures SamePlaces(s, ClientNext(s, c, op))
  {
    CallSamePlaces(s, ClientNext(s, c, op), c);
  }

  lemma SchedSamePlaces(s: State, op: SchedOp)
    requires Placed(s) && SchedEnabled(s, op) && !op.PopTask? && !op.Decide? && !op.Enqueue?
    ensures SamePlaces(s, SchedNext(s, op))
  {
  }

  lemma WorkerSamePlaces(s: State, w: nat, op: WorkerOp)
    requires Placed(s) && WorkerEnabled(s, w, op) && !op.TakeJob? && !op.Statement?
    ensures SamePlaces(s, WorkerNext(s, w, op))
  {
  }

  lemma CtlSamePlaces(s: State, op: CtlOp)
    requires Placed(s) && CtlInv(s) && CtlEnabled(s, op) && !op.DiscardJobs?
    ensures SamePlaces(s, CtlNext(s, op))
  {
  }

  // ---------- Steps that hand a task over ----------

  lemma Spawned(s: State, t: State, c: nat, id: Id)
    requires Placed(s) && id !in s.tokens && c !in s.calls
    requires t.tokens.Keys == s.tokens.Keys + {id} && t.tokens[id].loc == AtClient(c, false)
    requires forall i :: i in s.tokens ==> t.tokens[i] == s.tokens[i]
    requires t.calls == s.calls[c := Created(id)]
    requires t.queue == s.queue && t.pool == s.pool && t.sched == s.sched && t.exec == s.exec
    ensures Placed(t)
  {
    forall i | i in t.tokens
      ensures Located(t, i)
    {
      assert i in s.tokens ==> Located(s, i);
    }
  }

  /** From the queue to the scheduler thread. */
  lemma HandedToScheduler(s: State, t: State, id: Id, tok: Token)
    requires Placed(s) && id in s.queue && !s.sched.Holding? && tok.loc == InHand(Popped)
    requires t.tokens == s.tokens[id := tok] && t.queue == s.queue - multiset{id} && t.sched == Holding(id, Popped)
    requires t.calls == s.calls && t.pool == s.pool && t.exec == s.exec
    ensures Placed(t)
  {
  }

  /** From the queue to nowhere. */
  lemma Removed(s: State, t: State, c: nat, id: Id, tok: Token)
    requires Placed(s) && id in s.queue && Retired(tok.loc) && c in s.calls && !OwnsToken(s.calls[c])
    requires t.tokens == s.tokens[id := tok] && t.queue == s.queue[id := 0] && t.calls == s.calls[c := CancelHit(id)]
    requires t.pool == s.pool && t.sched == s.sched && t.exec == s.exec
    ensures Placed(t)
  {
    forall i | i in t.tokens
      ensures Located(t, i)
    {
      assert i in s.tokens ==> Located(s, i);
    }
  }

  /** From the pool to worker w. */
  ghost predicate Takes(s: State, t: State, w: nat, tok: Token) {
    && s.pool.queue != [] && w !in s.exec && tok.loc == OnWorker(w, Taken)
    && t.pool.queue == s.pool.queue[1..]
    && t.tokens == s.tokens[s.pool.queue[0] := tok] && t.exec == s.exec[w := Exec(s.pool.queue[0], Taken)]
    && t.calls == s.calls && t.queue == s.queue && t.sched == s.sched
  }

  lemma TakesLinks(s: State, t: State, w: nat, tok: Token)
    requires Linked(s) && Takes(s, t, w, tok)
    ensures Linked(t)
  {
    assert forall k :: 0 <= k < |t.pool.queue| ==> t.pool.queue[k] == s.pool.queue[k + 1];
  }

  lemma TakesLocated(s: State, t: State, w: nat, tok: Token)
    requires AllLocated(s) && Takes(s, t, w, tok)
    ensures AllLocated(t)
  {
    forall i | i in t.tokens
      ensures Located(t, i)
    {
      if i != s.pool.queue[0] {
        assert Located(s, i);
        assert i in s.pool.queue ==> i in t.pool.queue;
      }
    }
  }

  lemma TakesUnique(s: State, t: State, w: nat, tok: Token)
    requires Linked(s) && Unique(s) && Takes(s, t, w, tok) && Linked(t)
    ensures Unique(t)
  {
    assert forall k :: 0 <= k < |t.pool.queue| ==> t.pool.queue[k] == s.pool.queue[k + 1];
  }

  lemma HandedToWorker(s: State, t: State, w: nat, tok: Token)
    requires Placed(s) && Takes(s, t, w, tok)
    ensures Placed(t)
  {
    hide Linked, AllLocated, Unique, Takes;
    TakesLinks(s, t, w, tok);
    TakesLocated(s, t, w, tok);
    TakesUnique(s, t, w, tok);
  }

  lemma KeptByWorker(s: State, t: State, w: nat, tok: Token)
    requires Placed(s) && w in s.exec && !s.exec[w].at.Finished?
    requires tok.loc.OnWorker? && tok.loc.w == w && !tok.loc.at.Finished?
    requires t.tokens == s.tokens[s.exec[w].id := tok] && t.exec == s.exec[w := Exec(s.exec[w].id, tok.loc.at)]
    requires t.calls == s.calls && t.queue == s.queue && t.sched == s.sched && t.pool == s.pool
    ensures Placed(t)
  {
    forall i | i in t.tokens
      ensures Located(t, i)
    {
      assert i in s.tokens ==> Located(s, i);
    }
  }

  /** From worker w back to the queue, or out of the system. */
  ghost predicate Leaves(s: State, t: State, w: nat, tok: Token) {
    && w in s.exec && !s.exec[w].at.Finished? && (Retired(tok.loc) || tok.loc.InQueue?)
    && t.tokens == s.tokens[s.exec[w].id := tok] && t.exec == s.exec[w := Exec(s.exec[w].id, Finished)]
    && t.queue == (if tok.loc.InQueue? then s.queue + multiset{s.exec[w].id} else s.queue)
    && t.calls == s.calls && t.sched == s.sched && t.pool == s.pool
  }

  lemma LeavesLinks(s: State, t: State, w: nat, tok: Token)
    requires Linked(s) && Leaves(s, t, w, tok)
    ensures Linked(t)
  {
  }

  lemma LeavesLocated(s: State, t: State, w: nat, tok: Token)
    requires AllLocated(s) && Leaves(s, t, w, tok)
    ensures AllLocated(t)
  {
    forall i | i in t.tokens
      ensures Located(t, i)
    {
      assert i in s.tokens ==> Located(s, i);
    }
  }

  lemma LeavesUnique(s: State, t: State, w: nat, tok: Token)
    requires Linked(s) && Unique(s) && Leaves(s, t, w, tok) && Linked(t)
    ensures Unique(t)
  {
  }

  lemma LeftWorker(s: State, t: State, w: nat, tok: Token)
    requires Placed(s) && Leaves(s, t, w, tok)
    ensures Placed(t)
  {
    hide Linked, AllLocated, Unique, Leaves;
    LeavesLinks(s, t, w, tok);
    LeavesLocated(s, t, w, tok);
    LeavesUnique(s, t, w, tok);
  }

  lemma CreatePlaces(s: State, c: nat, config: Config)
    requires Placed(s) && GenerateTaskId(s.nextId) !in s.tokens && ClientEnabled(s, c, Create(config))
    ensures Placed(ClientNext(s, c, Create(config)))
  {
    Spawned(s, ClientNext(s, c, Create(config)), c, GenerateTaskId(s.nextId));
  }

  /** A client goes on with the task it has. */
  lemma KeptByClient(s: State, t: State, c: nat, tok: Token)
    requires Placed(s) && c in s.calls && s.calls[c].Created? && tok.loc == AtClient(c, true)
    requires t.tokens == s.tokens[s.calls[c].id := tok] && t.calls == s.calls[c := Inserted(s.calls[c].id)]
    requires t.queue == s.queue && t.pool == s.pool && t.sched == s.sched && t.exec == s.exec
    ensures Placed(t)
  {
    forall i | i in t.tokens
      ensures Located(t, i)
    {
      assert i in s.tokens ==> Located(s, i);
    }
  }

  lemma InsertPlaces(s: State, c: nat)
    requires Placed(s) && ClientEnabled(s, c, InsertActive)
    ensures Placed(ClientNext(s, c, InsertActive))
  {
    hide AllLocated, Unique;
    KeptByClient(s, ClientNext(s, c, InsertActive), c,
      s.tokens[s.calls[c].id].(active := true, loc := AtClient(c, true)));
  }

  lemma PushPlaces(s: State, c: nat)
    requires Placed(s) && ClientEnabled(s, c, PushNew)
    ensures Placed(ClientNext(s, c, PushNew))
  {
  }

  lemma DropPlaces(s: State, c: nat)
    requires Placed(s) && ClientEnabled(s, c, CancelInQueue)
    ensures Placed(ClientNext(s, c, CancelInQueue))
  {
    var id := s.calls[c].id;
    var t := ClientNext(s, c, CancelInQueue);
    if id in s.queue {
      Removed(s, t, c, id, DropToken(s.tokens[id]));
    } else {
      CallSamePlaces(s, t, c);
      SamePlacesKeepPlaced(s, t);
    }
  }

  lemma PopPlaces(s: State, id: Id)
    requires Placed(s) && SchedEnabled(s, PopTask(id))
    ensures Placed(SchedNext(s, PopTask(id)))
  {
    var t := SchedNext(s, PopTask(id));
    if s.tokens[id].task.startTime > s.now.system {
      SamePlacesKeepPlaced(s, t);
    } else {
      HandedToScheduler(s, t, id, s.tokens[id].(loc := InHand(Popped)));
    }
  }

  lemma DecidePlaces(s: State)
    requires Placed(s) && SchedEnabled(s, Decide)
    ensures Placed(SchedNext(s, Decide))
  {
  }

  lemma EnqueuePlaces(s: State)
    requires Placed(s) && SchedEnabled(s, Enqueue)
    ensures Placed(SchedNext(s, Enqueue))
  {
    HandedToPool(s, SchedNext(s, Enqueue), s.sched.id, AdvanceToken(s.tokens[s.sched.id], Marked));
  }

  /** From the scheduler thread to the pool. */
  lemma HandedToPool(s: State, t: State, id: Id, tok: Token)
    requires Placed(s) && s.sched.Holding? && s.sched.id == id && tok.loc == InPool && t.sched == Notifying
    requires t.tokens == s.tokens[id := tok] && t.pool.queue == s.pool.queue + [id]
    requires t.calls == s.calls && t.queue == s.queue && t.exec == s.exec
    ensures Placed(t)
  {
    forall i | i in t.tokens
      ensures Located(t, i)
    {
      assert i in s.tokens ==> Located(s, i);
    }
  }

  lemma TakePlaces(s: State, w: nat)
    requires Placed(s) && BusyInv(s) && WorkerEnabled(s, w, TakeJob)
    ensures Placed(WorkerNext(s, w, TakeJob))
  {
    HandedToWorker(s, WorkerNext(s, w, TakeJob), w, s.tokens[s.pool.queue[0]].(loc := OnWorker(w, Taken)));
  }

  lemma StatementPlaces(s: State, w: nat, choice: Choice)
    requires Placed(s) && WorkerEnabled(s, w, Statement(choice))
    ensures Placed(WorkNext(s, w, choice))
  {
    var tok := WorkToken(s.tokens[s.exec[w].id], w, s.exec[w].at, choice, s.now);
    assert tok.loc.InQueue? <==> s.exec[w].at.Repush?;
    if tok.loc.OnWorker? {
      KeptByWorker(s, WorkNext(s, w, choice), w, tok);
    } else {
      LeftWorker(s, WorkNext(s, w, choice), w, tok);
    }
  }

  lemma PoolHolds(s: State, id: Id)
    requires Placed(s) && id in s.tokens
    ensures id in s.pool.queue <==> s.tokens[id].loc.InPool?
  {
    assert Located(s, id);
  }

  /** From the pool to nowhere. */
  lemma Emptied(s: State, t: State)
    requires Placed(s) && t.pool.queue == [] && t.tokens.Keys == s.tokens.Keys
    requires forall id :: id in s.tokens ==>
               t.tokens[id].loc == if s.tokens[id].loc.InPool? then Discarded else s.tokens[id].loc
    requires t.calls == s.calls && t.queue == s.queue && t.sched == s.sched && t.exec == s.exec
    ensures Placed(t)
  {
    forall id | id in t.tokens
      ensures Located(t, id)
    {
      assert Located(s, id);
    }
  }

  lemma DiscardPlaces(s: State)
    requires Placed(s) && CtlEnabled(s, DiscardJobs)
    ensures Placed(CtlNext(s, DiscardJobs))
  {
    var t := CtlNext(s, DiscardJobs);
    forall id | id in s.tokens
      ensures t.tokens[id].loc == if s.tokens[id].loc.InPool? then Discarded else s.tokens[id].loc
    {
      PoolHolds(s, id);
    }
    hide Placed;
    Emptied(s, t);
  }

  lemma ClientKeepsBusy(s: State, c: nat, op: ClientOp)
    requires Placed(s) && BusyInv(s) && ClientEnabled(s, c, op)
    ensures BusyInv(ClientNext(s, c, op))
  {
  }

  lemma ClientKeepsCtl(s: State, c: nat, op: ClientOp)
    requires Linked(s) && CtlInv(s) && ClientEnabled(s, c, op)
    ensures CtlInv(ClientNext(s, c, op))
  {
  }

  lemma SchedKeepsBusy(s: State, op: SchedOp)
    requires Placed(s) && BusyInv(s) && SchedEnabled(s, op)
    ensures BusyInv(SchedNext(s, op))
  {
    match op
    case Enqueue => PoolKeepsBusy(s, SchedNext(s, op), P.Push(s.sched.id));
    case Notify(woken) => PoolKeepsBusy(s, SchedNext(s, op), P.Notify(woken));
    case _ =>
  }

  lemma SchedKeepsCtl(s: State, op: SchedOp)
    requires Linked(s) && CtlInv(s) && SchedEnabled(s, op)
    ensures CtlInv(SchedNext(s, op))
  {
  }

  lemma WorkerKeepsBusy(s: State, w: nat, op: WorkerOp)
    requires Placed(s) && BusyInv(s) && WorkerEnabled(s, w, op)
    ensures BusyInv(WorkerNext(s, w, op))
  {
    match op
    case Statement(choice) => StatementKeepsBusy(s, w, choice);
    case TakeJob => TakeKeepsBusy(s, w);
    case Finish => FinishKeepsBusy(s, w);
    case _ => PoolKeepsBusy(s, WorkerNext(s, w, op), PoolStep(w, op));
  }

  lemma StatementKeepsBusy(s: State, w: nat, choice: Choice)
    requires Linked(s) && BusyInv(s) && WorkerEnabled(s, w, Statement(choice))
    ensures BusyInv(WorkNext(s, w, choice))
  {
  }

  lemma TakeKeepsBusy(s: State, w: nat)
    requires Linked(s) && BusyInv(s) && WorkerEnabled(s, w, TakeJob)
    ensures BusyInv(WorkerNext(s, w, TakeJob))
  {
  }

  lemma FinishKeepsBusy(s: State, w: nat)
    requires Linked(s) && BusyInv(s) && WorkerEnabled(s, w, Finish)
    ensures BusyInv(WorkerNext(s, w, Finish))
  {
  }

  /** A step of the pool that neither takes nor finishes a job. */
  lemma PoolKeepsBusy(s: State, t: State, step: P.Step<Id>)
    requires BusyInv(s) && t.exec == s.exec
    requires P.Enabled(s.pool, step) && !step.Dequeue? && !step.Finish? && t.pool == P.Next(s.pool, step)
    ensures BusyInv(t)
  {
    P.StepKeepsBusy(s.pool, step);
  }

  lemma WorkerKeepsCtl(s: State, w: nat, op: WorkerOp)
    requires Linked(s) && CtlInv(s) && WorkerEnabled(s, w, op)
    ensures CtlInv(WorkerNext(s, w, op))
  {
  }

  lemma CtlKeepsBusy(s: State, op: CtlOp)
    requires Placed(s) && BusyInv(s) && CtlEnabled(s, op)
    ensures BusyInv(CtlNext(s, op))
  {
    match op
    case StoreStop => PoolKeepsBusy(s, CtlNext(s, op), P.StoreStop);
    case NotifyAll => PoolKeepsBusy(s, CtlNext(s, op), P.NotifyAll);
    case JoinWorkers => PoolKeepsBusy(s, CtlNext(s, op), P.Join);
    case DiscardJobs => PoolKeepsBusy(s, CtlNext(s, op), P.Discard);
    case _ =>
  }

  lemma CtlKeepsCtl(s: State, op: CtlOp)
    requires Linked(s) && CtlInv(s) && CtlEnabled(s, op)
    ensures CtlInv(CtlNext(s, op))
  {
  }

  // ---------- Every step ----------

  lemma ClientKeepsPlaced(s: State, c: nat, op: ClientOp)
    requires Placed(s) && IdsInv(s) && ClientEnabled(s, c, op)
    ensures Placed(ClientNext(s, c, op))
  {
    match op
    case Create(config) => FreshId(s); CreatePlaces(s, c, config);
    case InsertActive => InsertPlaces(s, c);
    case PushNew => PushPlaces(s, c);
    case CancelInQueue => DropPlaces(s, c);
    case CancelInActive =>
      CancelSamePlaces(s, c);
      SamePlacesKeepPlaced(s, ClientNext(s, c, op));
    case _ =>
      ClientSamePlaces(s, c, op);
      SamePlacesKeepPlaced(s, ClientNext(s, c, op));
  }

  lemma SchedKeepsPlaced(s: State, op: SchedOp)
    requires Placed(s) && SchedEnabled(s, op)
    ensures Placed(SchedNext(s, op))
  {
    match op
    case PopTask(id) => PopPlaces(s, id);
    case Decide => DecidePlaces(s);
    case Enqueue => EnqueuePlaces(s);
    case _ =>
      SchedSamePlaces(s, op);
      SamePlacesKeepPlaced(s, SchedNext(s, op));
  }

  lemma WorkerKeepsPlaced(s: State, w: nat, op: WorkerOp)
    requires Placed(s) && BusyInv(s) && WorkerEnabled(s, w, op)
    ensures Placed(WorkerNext(s, w, op))
  {
    match op
    case TakeJob => TakePlaces(s, w);
    case Statement(choice) => StatementPlaces(s, w, choice);
    case _ =>
      WorkerSamePlaces(s, w, op);
      SamePlacesKeepPlaced(s, WorkerNext(s, w, op));
  }

  lemma CtlKeepsPlaced(s: State, op: CtlOp)
    requires Placed(s) && CtlInv(s) && CtlEnabled(s, op)
    ensures Placed(CtlNext(s, op))
  {
    if op.DiscardJobs? {
      DiscardPlaces(s);
    } else {
      CtlSamePlaces(s, op);
      SamePlacesKeepPlaced(s, CtlNext(s, op));
    }
  }
}
