/** The main results, each for every reachable state or every run of the system. */
module Properties {
  import opened Options
  import opened Counting
  import opened TaskIds
  import opened Tasks
  import opened Lifecycle
  import opened Protocol
  import opened Ownership
  import opened Simulation
  import opened Invariant
  import opened Accounting
  import opened Registry
  import opened Ordering
  import opened Shutdown
  import opened Totals
  import opened Restarts
  import opened Repushes
  import opened Endings
  import opened Journals
  import opened Cancellations
  import opened Progress
  import opened Stops
  import opened SoloCalls
  import P = PoolModel

  // ---------- Single ownership ----------

  datatype Place = ClientThread(c: nat) | ReadyQueue | SchedulerThread | PoolQueue(i: nat) | WorkerThread(w: nat)

  /** The place really holds the task: read off the containers and the threads, not off the history. */
  predicate HeldAt(s: State, id: Id, p: Place) {
    match p
    case ClientThread(c) => c in s.calls && OwnsToken(s.calls[c]) && s.calls[c].id == id
    case ReadyQueue => id in s.queue
    case SchedulerThread => s.sched.Holding? && s.sched.id == id
    case PoolQueue(i) => i < |s.pool.queue| && s.pool.queue[i] == id
    case WorkerThread(w) => w in s.exec && !s.exec[w].at.Finished? && s.exec[w].id == id
  }

  /** The location in the history that belongs to a place. */
  predicate Matches(loc: Loc, p: Place) {
    match p
    case ClientThread(c) => loc.AtClient? && loc.c == c
    case ReadyQueue => loc.InQueue?
    case SchedulerThread => loc.InHand?
    case PoolQueue(_) => loc.InPool?
    case WorkerThread(w) => loc.OnWorker? && loc.w == w
  }

  lemma HeldWhereLocated(s: State, id: Id, p: Place)
    requires Placed(s) && id in s.tokens && HeldAt(s, id, p)
    ensures Matches(s.tokens[id].loc, p)
  {
  }

  lemma HeldSomewhere(s: State, id: Id)
    requires Placed(s) && id in s.tokens && !Retired(s.tokens[id].loc)
    ensures exists p :: HeldAt(s, id, p)
  {
    assert Located(s, id);
    match s.tokens[id].loc
    case AtClient(c, _) => assert HeldAt(s, id, ClientThread(c));
    case InQueue => assert HeldAt(s, id, ReadyQueue);
    case InHand(_) => assert HeldAt(s, id, SchedulerThread);
    case InPool =>
      var i: nat :| i < |s.pool.queue| && s.pool.queue[i] == id;
      assert HeldAt(s, id, PoolQueue(i));
    case OnWorker(w, _) => assert HeldAt(s, id, WorkerThread(w));
    case _ => assert false;
  }

  /** No task is in two places, or twice in one. */
  lemma SingleOwnership(s: State, id: Id, p: Place, q: Place)
    requires Reachable(s) && id in s.tokens && HeldAt(s, id, p) && HeldAt(s, id, q)
    ensures p == q && s.queue[id] <= 1
  {
    ReachableInv(s);
    HeldWhereLocated(s, id, p);
    HeldWhereLocated(s, id, q);
  }

  lemma HeldOrRetired(s: State, id: Id)
    requires Placed(s) && id in s.tokens
    ensures (exists p :: HeldAt(s, id, p)) <==> !Retired(s.tokens[id].loc)
  {
    if p :| HeldAt(s, id, p) {
      HeldWhereLocated(s, id, p);
    } else if !Retired(s.tokens[id].loc) {
      HeldSomewhere(s, id);
    }
  }

  /** No task is lost: it is held somewhere, or it has reached one of its final places and stays there. */
  lemma NoTaskLost(s: State, t: State, id: Id)
    requires Reachable(s) && LeadsTo(s, t) && id in s.tokens
    ensures (exists p :: HeldAt(s, id, p)) <==> !Retired(s.tokens[id].loc)
    ensures id in t.tokens && (Retired(s.tokens[id].loc) ==> t.tokens[id].loc == s.tokens[id].loc)
  {
    ReachableInv(s);
    LeadsKeepsInv(s, t);
    HeldOrRetired(s, id);
  }

  /** A task without repetition is started at most once in any run. */
  lemma StartsAtMostOnce(s: State, id: Id)
    requires Reachable(s) && id in s.tokens && !s.tokens[id].task.config.isRepeatable
    ensures |s.tokens[id].hist.starts| <= 1
  {
    ReachableInv(s);
    assert TokenInv(s.tokens[id], s.now);
  }

  /** The loop only pops a queue that has a least task to give, and start() never replaces a live thread. */
  lemma ThreadsAreSafe(s: State)
    requires Reachable(s)
    ensures s.sched.Checked? ==> exists id :: SchedEnabled(s, PopTask(id))
    ensures CtlEnabled(s, Start) && !s.isRunning ==> s.sched.Off?
  {
    ReachableInv(s);
    if s.sched.Checked? {
      var id := LeastExists(s);
    }
  }

  /** While isRunning is set the loop of the scheduler thread goes on. */
  lemma SchedulerLives(s: State)
    requires Reachable(s) && s.isRunning
    ensures !s.sched.Off? && !s.sched.Done?
  {
    ReachableInv(s);
  }

  // ---------- Scheduling ----------

  /** scheduleTask when no other thread comes between its steps: a new id, and a task as asked for that is active,
      PENDING and queued; nothing else changes. */
  lemma ScheduleAlone(s: State, c: nat, config: Config)
    requires Reachable(s) && c !in s.calls && QueueFree(s)
    ensures var id, t := GenerateTaskId(s.nextId), Run(s, ScheduleCall(c, config));
            && id !in s.tokens && t.tokens.Keys == s.tokens.Keys + {id}
            && (forall j :: j in s.tokens ==> t.tokens[j] == s.tokens[j])
            && t.queue == s.queue + multiset{id} && t.returned == s.returned + {id} && t.calls == s.calls
            && t.stats == s.stats.(totalTasksScheduled := s.stats.totalTasksScheduled + 1)
            && t.pool == s.pool && t.sched == s.sched && t.isRunning == s.isRunning
            && var u := t.tokens[id];
               && u.active && u.loc.InQueue? && GetTaskStatus(t, id) == Pending
               && u.task.config == config && u.task.startTime == config.startTime && u.task.status == Pending
  {
    hide Reachable, Linked, Run, ScheduleCall;
    NewIdFacts(s);
    Schedules(s, c, config);
  }

  lemma NewIdFacts(s: State)
    requires Reachable(s)
    ensures Linked(s) && GenerateTaskId(s.nextId) !in s.tokens
  {
    ReachableInv(s);
    FreshId(s);
  }

  /** While no stop() is under way and the pool has a worker and runs, a task can be started, or started again, in
      some run if and only if it is still to be started, or is repeatable and will be pushed again; when it has
      left activeTasks, if and only if it is past the status test. */
  lemma StartsExactly(s: State, id: Id)
    requires Open(s) && id in s.tokens
    ensures (exists t :: LeadsTo(s, t) && MoreStarts(s, t, id)) <==> MayStart(s.tokens[id], s.now)
  {
    hide Reachable, Run, MayStart, Inv, MoreStarts;
    if MayStart(s.tokens[id], s.now) {
      var steps := MayStartStarts(s, id);
      assert LeadsTo(s, Run(s, steps));
    } else if t :| LeadsTo(s, t) && MoreStarts(s, t, id) {
      var steps: seq<Step> :| t == Run(s, steps);
      OpenInv(s);
      NeverStarts(s, steps, id);
    }
  }

  /** When all queued tasks are due, each active one of them can be started before any time passes. */
  lemma DueTasksStart(s: State, id: Id)
    requires Open(s) && id in s.queue && IsActive(s, id)
    requires forall u :: u in s.queue && u in s.tokens ==> s.tokens[u].task.startTime <= s.now.system
    ensures exists t :: LeadsTo(s, t) && t.now == s.now && MoreStarts(s, t, id)
  {
    hide Reachable, Run, MoreStarts;
    QueueIsDue(s, id);
    var steps := StartsFromQueue(s, id);
    assert LeadsTo(s, Run(s, steps));
  }

  lemma QueueIsDue(s: State, id: Id)
    requires Open(s) && id in s.queue && IsActive(s, id)
    requires forall u :: u in s.queue && u in s.tokens ==> s.tokens[u].task.startTime <= s.now.system
    ensures AllDue(s) && Queued(s, id)
  {
    hide Reachable;
    OpenLinks(s);
  }

  // ---------- Cancellation ----------

  /** A task that has left activeTasks never comes back, and the number of its starts is bounded: none at
      all, except one when the scheduler thread had already passed its status test and the worker had not
      yet called the task function. */
  lemma CancellationBound(s: State, t: State, id: Id)
    requires Reachable(s) && LeadsTo(s, t) && id in s.tokens && Gone(s.tokens[id])
    ensures id in t.tokens && Gone(t.tokens[id])
    ensures |t.tokens[id].hist.starts| <= |s.tokens[id].hist.starts| + StartsLeft(s.tokens[id].loc)
  {
    ReachableInv(s);
    LeadsKeepsInv(s, t);
  }

  /** The bound is exact: a task that has left activeTasks can be started again in some run if and only if its
      token is between the scheduler's status test and the call of the task function, and the pool can still
      hand it over. */
  lemma RestartsExactly(s: State, id: Id)
    requires Reachable(s) && id in s.tokens && Gone(s.tokens[id])
    ensures (exists t :: LeadsTo(s, t) && MoreStarts(s, t, id)) <==> CanRestart(s, id)
  {
    hide Reachable, LeadsTo, CanRestart, Inv;
    if CanRestart(s, id) {
      CanStart(s, id);
    } else if t :| LeadsTo(s, t) && MoreStarts(s, t, id) {
      NeverRestarts(s, t, id);
    }
  }

  lemma NeverRestarts(s: State, t: State, id: Id)
    requires Reachable(s) && LeadsTo(s, t) && id in s.tokens && Gone(s.tokens[id]) && !CanRestart(s, id)
    ensures !MoreStarts(s, t, id)
  {
    hide Reachable, CanRestart, Inv, Run;
    ReachableInv(s);
    var steps: seq<Step> :| t == Run(s, steps);
    StaysDoomed(s, steps, id);
  }

  /** A task that has left activeTasks is pushed again at most once, and only where PushesLeft says so. */
  lemma RepushBound(s: State, t: State, id: Id)
    requires Reachable(s) && LeadsTo(s, t) && id in s.tokens && Gone(s.tokens[id])
    ensures id in t.tokens
    ensures t.tokens[id].hist.repushes <= s.tokens[id].hist.repushes + PushesLeft(s.tokens[id], s.now)
  {
    hide Reachable, Inv, Run, PushesLeft, Gone;
    ReachableInv(s);
    var steps: seq<Step> :| t == Run(s, steps);
    PushBound(s, steps, id);
  }

  /** The bound is exact: a task that has left activeTasks can be pushed again in some run if and only if it is
      repeatable, its token has passed the scheduler's status test and not yet the push, the worker's test of
      the status cannot see CANCELLED any more, and, before it is started, the pool can still hand it over. */
  lemma RepushesExactly(s: State, id: Id)
    requires Reachable(s) && id in s.tokens && Gone(s.tokens[id])
    ensures (exists t :: LeadsTo(s, t) && MorePushes(s, t, id)) <==> CanRepush(s, id)
  {
    hide Reachable, LeadsTo, CanRepush, Inv;
    if CanRepush(s, id) {
      CanPush(s, id);
    } else if t :| LeadsTo(s, t) && MorePushes(s, t, id) {
      NeverRepushed(s, t, id);
    }
  }

  lemma NeverRepushed(s: State, t: State, id: Id)
    requires Reachable(s) && LeadsTo(s, t) && id in s.tokens && Gone(s.tokens[id]) && !CanRepush(s, id)
    ensures !MorePushes(s, t, id)
  {
    hide Reachable, CanRepush, Inv, Run;
    ReachableInv(s);
    var steps: seq<Step> :| t == Run(s, steps);
    StaysUnpushed(s, steps, id);
  }

  /** Such a push is in vain: from then on the task is queued, popped and about to be looked up, or thrown away. */
  lemma PushedInVain(s: State, t: State, id: Id)
    requires Reachable(s) && LeadsTo(s, t) && id in s.tokens && Gone(s.tokens[id]) && s.tokens[id].loc.InQueue?
    ensures id in t.tokens && InVain(t.tokens[id].loc)
    ensures t.tokens[id].hist.starts == s.tokens[id].hist.starts
  {
    hide Reachable, Inv, Run, Gone;
    ReachableInv(s);
    CancellationBound(s, t, id);
    StartsKept(s, t, id);
    var steps: seq<Step> :| t == Run(s, steps);
    RunInVain(s, steps, id);
  }

  lemma StartsKept(s: State, t: State, id: Id)
    requires Reachable(s) && LeadsTo(s, t) && id in s.tokens
    ensures id in t.tokens && s.tokens[id].hist.starts <= t.tokens[id].hist.starts
  {
    ReachableInv(s);
    LeadsKeepsInv(s, t);
  }

  /** A task whose callback threw inside the catch branch stays in activeTasks through every run in which no
      client cancels it. */
  lemma EscapedUntilCancelled(s: State, steps: seq<Step>, t: State, id: Id)
    requires Reachable(s) && t == Run(s, steps) && IsActive(s, id) && s.tokens[id].loc.Escaped?
    requires NoSearch(s, id) && NoRequest(steps, id)
    ensures IsActive(t, id) && t.tokens[id].loc.Escaped?
  {
    hide Reachable, Inv, Run, NoSearch;
    ReachableInv(s);
    RunKeepsEscaped(s, steps, id);
  }

  /** The search of cancelTask in activeTasks marks the task that it finds, wherever that is, and removes it. */
  lemma CancelMarks(s: State, c: nat, id: Id)
    requires Reachable(s) && c in s.calls && s.calls[c] == CancelBegun(id) && IsActive(s, id)
    ensures var t := Apply(s, Client(c, CancelInActive));
            && id in t.tokens && t.tokens[id].task.status == Cancelled && !t.tokens[id].active
            && t.tokens[id].loc == s.tokens[id].loc && t.tokens[id].hist.outcomes == s.tokens[id].hist.outcomes
            && t.tokens[id].hist.repushes == s.tokens[id].hist.repushes
            && c in t.calls && t.calls[c] == CancelHit(id)
  {
    hide Reachable, Linked, Apply;
    ReachablePlaced(s);
    SearchIs(s, c, id);
  }

  /** A task that is found between the store of RUNNING and the test after its execution is neither completed
      nor pushed again, in any run. */
  lemma CancelledInTime(s: State, c: nat, id: Id, t: State)
    requires Reachable(s) && c in s.calls && s.calls[c] == CancelBegun(id) && IsActive(s, id)
    requires AwaitsTest(s.tokens[id].loc) && LeadsTo(Apply(s, Client(c, CancelInActive)), t)
    ensures id in t.tokens && t.tokens[id].hist.repushes == s.tokens[id].hist.repushes
    ensures Successes(t.tokens[id]) == Successes(s.tokens[id])
  {
    hide Reachable, Inv, Run, Apply;
    var u := Apply(s, Client(c, CancelInActive));
    CancelMarks(s, c, id);
    StepReachable(s, Client(c, CancelInActive));
    ReachableInv(u);
    var steps: seq<Step> :| t == Run(u, steps);
    StaysHopeless(u, steps, id);
  }

  /** cancelTask when no other thread comes between its steps: a task that is active, or failing that one that is
      queued, is CANCELLED for every query, counted and recorded; otherwise nothing happens. */
  lemma CancelAlone(s: State, c: nat, id: Id)
    requires Reachable(s) && c !in s.calls && id in s.returned && QueueFree(s)
    ensures var t := Run(s, CancelCall(c, id));
            && t.calls == s.calls && t.pool == s.pool && t.sched == s.sched && t.exec == s.exec
            && (forall j :: j in s.tokens && j != id ==> j in t.tokens && t.tokens[j] == s.tokens[j])
            && t.queue == (if IsActive(s, id) then s.queue else s.queue[id := 0])
            && (if IsActive(s, id) || id in s.queue
                then id in t.tokens && !t.tokens[id].active && t.tokens[id].task.status == Cancelled
                     && GetTaskStatus(t, id) == Cancelled && t.stats.tasksCancelled == s.stats.tasksCancelled + 1
                else t == s)
  {
    hide Reachable, Linked, Run, CancelCall;
    ReachablePlaced(s);
    Cancels(s, c, id);
    assert id !in s.queue ==> s.queue[id := 0] == s.queue;
    if id in s.queue {
      ReachableQueue(s, id);
    }
  }

  lemma ReachableQueue(s: State, id: Id)
    requires Reachable(s) && id in s.queue
    ensures id in s.tokens
  {
    ReachableInv(s);
  }

  /** Leaving activeTasks is leaving it for good. */
  lemma LeavesActiveOnce(s: State, t: State, id: Id)
    requires Reachable(s) && LeadsTo(s, t) && IsActive(s, id)
    ensures !IsActive(t, id) ==> id in t.tokens && Gone(t.tokens[id])
  {
    ReachableInv(s);
    LeadsKeepsInv(s, t);
    assert TokenInv(s.tokens[id], s.now);
  }

  /** For any task, cancelTask succeeds at most once in each of its two searches, and in the queue only
      after a success in activeTasks. */
  lemma CancelSucceedsTwiceAtMost(s: State, id: Id)
    requires Reachable(s) && id in s.tokens
    ensures var h := s.tokens[id].hist; h.queueHits <= h.activeHits <= 1
  {
    ReachableInv(s);
    assert TokenInv(s.tokens[id], s.now);
  }

  /** tasksCancelled is at most twice the number of tasks ever cancelled. */
  lemma CancelledStatistics(s: State)
    requires Reachable(s)
    ensures s.stats.tasksCancelled <= 2 * |Where(s.tokens, HitActive)|
  {
    ReachableBalanced(s);
    forall id | id in s.tokens
      ensures HitQueued(s.tokens[id]) ==> HitActive(s.tokens[id])
    {
      assert TokenInv(s.tokens[id], s.now);
    }
    SubsetSize(Where(s.tokens, HitQueued), Where(s.tokens, HitActive));
  }

  // ---------- Status and registries ----------

  /** While a task is in activeTasks its status is a function of where its token is; getTaskStatus never
      reads CANCELLED there. */
  lemma StatusAgreesWithPosition(s: State, id: Id)
    requires Reachable(s) && IsActive(s, id)
    ensures StatusFits(s.tokens[id])
    ensures GetTaskStatus(s, id) == s.tokens[id].task.status && !GetTaskStatus(s, id).Cancelled?
  {
    hide Reachable, TokenInv;
    ReachableToken(s, id);
    ActiveStatus(s.tokens[id], s.now);
  }

  lemma ActiveStatus(t: Token, now: Clock)
    requires TokenInv(t, now) && t.active
    ensures StatusFits(t) && !t.task.status.Cancelled?
  {
  }

  /** A returned id is active, or recorded with a final status, or between the two steps of a cancelTask
      call; a callback that throws for this very task is the only other case. */
  lemma RegistryCoverage(s: State, id: Id)
    requires Reachable(s) && id in s.returned
    ensures id in s.tokens
    ensures var t := s.tokens[id];
            && (t.record.Some? ==> Terminal(t.record.value))
            && (t.active || t.record.Some? || CancelThrew(t) || CancelPending(s, id))
  {
    ReachableCovered(s);
    assert HandedOver(s, id);
    assert TokenInv(s.tokens[id], s.now);
  }

  /** After cancelTask has recorded a cancellation, a query answers CANCELLED, whatever was recorded before. */
  lemma CancelIsReported(s: State, c: nat, id: Id)
    requires Reachable(s) && c in s.calls && s.calls[c] == CancelNotified(id)
    ensures GetTaskStatus(Apply(s, Client(c, RecordCancel)), id) == Cancelled
  {
    hide Reachable, Linked, Apply;
    NotifiedIsGone(s, c, id);
    RecordIs(s, c, id);
  }

  lemma NotifiedIsGone(s: State, c: nat, id: Id)
    requires Reachable(s) && c in s.calls && s.calls[c] == CancelNotified(id)
    ensures Linked(s) && id in s.tokens && !s.tokens[id].active
  {
    ReachableInv(s);
    assert CallKnows(s, s.calls[c]);
    assert TokenInv(s.tokens[id], s.now);
  }

  /** The callback is called once for each outcome of an execution, in order, with the status that belongs to it;
      only an ignored execution is not announced, and the last outcome may still be about to be. Each success of
      cancelTask calls it once, except that calls on their way may still have to. */
  lemma CallbacksExactly(s: State, id: Id)
    requires Reachable(s) && id in s.tokens
    ensures var h, j := s.tokens[id].hist, s.tokens[id].hist.journal;
            && Announcements(h.outcomes) == Statuses(j.announced) + Unannounced(s.tokens[id].loc)
            && h.activeHits + h.queueHits == j.cancelCalls + Count(s.calls, Uncalled(id))
  {
    hide Reachable, TokenInv, Announcements, Statuses, Unannounced;
    ReachableJournal(s, id);
    ReachableAddsUp(s, id);
  }

  /** Each call of the callback that returns is recorded once: those of workers in order, those of cancelTask in
      number; and the entry of completedTasks is the last record, by whomever. */
  lemma RecordsExactly(s: State, id: Id)
    requires Reachable(s) && id in s.tokens
    ensures var j := s.tokens[id].hist.journal;
            && Heard(j.announced) == ByWorkers(j.records) + Unrecorded(s.tokens[id].loc)
            && j.cancelCalls ==
                 j.cancelThrows + multiset(j.records)[Cancelled] + Count(s.calls, Unwritten(id))
            && s.tokens[id].record == (if j.records == [] then None else Some(j.records[|j.records| - 1]))
  {
    hide Reachable, TokenInv, Heard, ByWorkers, Unrecorded;
    ReachableJournal(s, id);
    ReachableAddsUp(s, id);
  }

  /** What getTaskStatus answers about an id that scheduleTask has returned, is so or has been so; COMPLETED is
      also the answer while a cancellation is on its way, and after a callback has thrown in one. */
  lemma AnswersExplained(s: State, id: Id)
    requires Reachable(s) && id in s.returned
    ensures id in s.tokens
    ensures var t := s.tokens[id];
            match GetTaskStatus(s, id)
            case Pending => t.active && (t.loc.InQueue? || t.loc.InHand? || t.loc.OnWorker?)
            case Running => t.active && (t.loc.InHand? || t.loc.InPool? || t.loc.OnWorker? || t.loc.Discarded?)
            case Completed => Success in t.hist.outcomes || CancelThrew(t) || CancelPending(s, id)
            case Failed => Failure in t.hist.outcomes
            case TimedOut => Timeout in t.hist.outcomes
            case Cancelled => t.hist.activeHits == 1
  {
    hide Reachable, TokenInv, JournalInv, CancelPending;
    RegistryCoverage(s, id);
    ReachableJournal(s, id);
    StillAtClient(s, id);
    AnswerExplained(s.tokens[id], s.now);
  }

  lemma StillAtClient(s: State, id: Id)
    requires Reachable(s) && id in s.returned
    ensures id in s.tokens && !s.tokens[id].loc.AtClient?
  {
    ReachableInv(s);
    assert HandedOver(s, id);
  }

  lemma AnswerExplained(t: Token, now: Clock)
    requires TokenInv(t, now) && JournalInv(t) && !t.loc.AtClient?
    ensures t.record.Some? ==> Happened(t, t.record.value)
    ensures t.active ==>
              match t.task.status
              case Pending => t.loc.InQueue? || t.loc.InHand? || t.loc.OnWorker?
              case Running => t.loc.InHand? || t.loc.InPool? || t.loc.OnWorker? || t.loc.Discarded?
              case _ => Happened(t, t.task.status)
  {
    hide CancelInv, RecordInv, OnceInv, PaceInv, OutcomeInv, MeasureInv, VerdictInv, FoundInv, TimeInv, BetweenInv;
    hide AnnouncedInv, RecordedInv, InLanguage;
    if t.loc.OnWorker? {
      assert OutcomeFits(t, t.loc.at);
    }
  }

  /** An id that is not of a task is COMPLETED. */
  lemma UnknownIsCompleted(s: State, id: Id)
    requires Reachable(s) && (IsTaskId(id) ==> !(1 <= ParseTaskId(id).value < s.nextId))
    ensures GetTaskStatus(s, id) == Completed
  {
    ReachableInv(s);
    ReachableNumbered(s);
    if IsTaskId(id) {
      Canonical(id);
    }
  }

  /** The tasks scheduled so far have exactly the ids printed for the counter values from 1. */
  lemma IdsAreNumbered(s: State, id: Id)
    requires Reachable(s)
    ensures id in s.tokens <==> IsTaskId(id) && 1 <= ParseTaskId(id).value < s.nextId
  {
    ReachableInv(s);
    ReachableNumbered(s);
    if IsTaskId(id) {
      Canonical(id);
    }
  }

  /** What completedTasks records has happened; and a task that was never cancelled keeps, after its last
      execution, the status of that execution for every later query. */
  lemma RecordsAreTruthful(s: State, id: Id)
    requires Reachable(s) && id in s.tokens
    ensures var t := s.tokens[id];
            && (t.record.Some? ==> Happened(t, t.record.value))
            && (t.loc.Settled? && t.hist.activeHits == 0 ==>
                  t.hist.outcomes != []
                  && GetTaskStatus(s, id) == StatusOf(t.hist.outcomes[|t.hist.outcomes| - 1]))
  {
    ReachableInv(s);
    assert TokenInv(s.tokens[id], s.now);
  }

  // ---------- Executions ----------

  /** Executions and outcomes match one to one, and the outcomes of the executions are COMPLETED* and then at
      most one other; without repetition there is at most one. A completion callback that throws into the catch
      branch comes after a success or a time-out, and adds one failure at the end. In every case nothing runs
      after a final outcome. */
  lemma OutcomeLanguage(s: State, t: State, id: Id)
    requires Reachable(s) && LeadsTo(s, t) && id in s.tokens
    ensures var h, own := s.tokens[id].hist, OwnOutcomes(s.tokens[id]);
            && |own| + Bit(Undecided(s.tokens[id].loc) && !h.reentered) == |h.starts|
            && InLanguage(own)
            && (!s.tokens[id].task.config.isRepeatable ==> |own| <= 1)
            && (!h.reentered ==> h.outcomes == own)
            && (h.reentered ==> own != [] && (own[|own| - 1].Success? || own[|own| - 1].Timeout?)
                                && h.outcomes == if Undecided(s.tokens[id].loc) then own else own + [Failure])
    ensures id in t.tokens
    ensures Final(s.tokens[id].hist.outcomes) ==> t.tokens[id].hist.starts == s.tokens[id].hist.starts
  {
    hide Reachable, Inv, AllLater, LeadsTo, TokenInv, Later;
    ReachableInv(s);
    LeadsKeepsInv(s, t);
    ReachableToken(s, id);
    TokenLanguage(s.tokens[id], s.now);
    LaterStaysFinal(s, t, id);
  }

  lemma TokenLanguage(t: Token, now: Clock)
    requires TokenInv(t, now)
    ensures var h, own := t.hist, OwnOutcomes(t);
            && |own| + Bit(Undecided(t.loc) && !h.reentered) == |h.starts|
            && InLanguage(own)
            && (!t.task.config.isRepeatable ==> |own| <= 1)
            && (!h.reentered ==> h.outcomes == own)
            && (h.reentered ==> own != [] && (own[|own| - 1].Success? || own[|own| - 1].Timeout?)
                                && h.outcomes == if Undecided(t.loc) then own else own + [Failure])
  {
  }

  lemma LaterStaysFinal(s: State, t: State, id: Id)
    requires AllLater(s, t) && id in s.tokens
    ensures id in t.tokens && StaysFinal(s.tokens[id], t.tokens[id])
  {
    assert Later(s.tokens[id], t.tokens[id]);
  }

  /** The verdict on execution k, for every execution of every run. FAILED: the task function threw. TIMEOUT: it
      returned, a limit is set, and by the steady clock at least one second more than the limit had passed.
      Otherwise the execution is ignored as cancelled when cancelTask found the task in activeTasks between the
      store of RUNNING for this execution and the test after it, and is COMPLETED when not. */
  lemma Verdicts(s: State, id: Id, k: nat)
    requires Reachable(s) && id in s.tokens
    requires k < |s.tokens[id].hist.ends| && k < |s.tokens[id].hist.outcomes|
    ensures var h, timeout := s.tokens[id].hist, s.tokens[id].task.config.timeout;
            && k < |h.threw| && k < |h.began| && k < |h.over| && h.began[k] <= h.over[k]
            && var late := timeout > 0 && h.over[k] - h.began[k] >= (timeout + 1) * 1_000_000_000;
               && (h.outcomes[k].Failure? <==> h.threw[k])
               && (h.outcomes[k].Timeout? <==> !h.threw[k] && late)
               && (h.outcomes[k].CancelSeen? <==> !h.threw[k] && !late && FoundDuring(s.tokens[id], k))
               && (h.outcomes[k].Success? <==> !h.threw[k] && !late && !FoundDuring(s.tokens[id], k))
  {
    hide Reachable, TokenInv, JournalInv, FoundDuring;
    ReachableJournal(s, id);
    RunVerdict(s.tokens[id], s.now, k);
  }

  lemma RunVerdict(t: Token, now: Clock, k: nat)
    requires TokenInv(t, now) && JournalInv(t) && k < |t.hist.ends| && k < |t.hist.outcomes|
    ensures var h, timeout := t.hist, t.task.config.timeout;
            && k < |h.threw| && k < |h.began| && k < |h.over| && h.began[k] <= h.over[k]
            && var late := timeout > 0 && h.over[k] - h.began[k] >= (timeout + 1) * 1_000_000_000;
               && (h.outcomes[k].Failure? <==> h.threw[k])
               && (h.outcomes[k].Timeout? <==> !h.threw[k] && late)
               && (h.outcomes[k].CancelSeen? <==> !h.threw[k] && !late && FoundDuring(t, k))
               && (h.outcomes[k].Success? <==> !h.threw[k] && !late && !FoundDuring(t, k))
  {
    hide FoundDuring, StatusInv, CancelInv, RecordInv, TruthInv, OnceInv, OutcomeInv, ReentryInv;
    hide AnnouncedInv, RecordedInv, TimeInv, BetweenInv;
    assert VerdictFits(t, k) && CancelFits(t, k);
    TimeoutIsCoarse(t.task.config.timeout, Since(t.hist.began[k], t.hist.over[k]));
  }

  /** The start time of a task is the one asked for until the first rescheduling, and then one interval after the
      clock at the last one; there is one rescheduling for each further push, after the end of an execution, and
      the next execution starts no earlier than one interval after it. */
  lemma StartTimesExactly(s: State, id: Id)
    requires Reachable(s) && id in s.tokens
    ensures var t, r := s.tokens[id], s.tokens[id].hist.journal.reschedules;
            && (t.hist.starts == [] ==> t.task.startTime == t.task.config.startTime)
            && t.task.startTime == (if r == [] then t.task.config.startTime else r[|r| - 1] + t.task.config.interval)
            && |r| == t.hist.repushes + (if t.loc.OnWorker? && (t.loc.at.Reset? || t.loc.at.Repush?) then 1 else 0)
            && |r| <= |t.hist.ends|
            && (forall i :: 0 <= i < |r| ==> t.hist.ends[i] <= r[i])
            && (forall i :: 0 <= i < |r| && i + 1 < |t.hist.starts| ==>
                  r[i] + t.task.config.interval <= t.hist.starts[i + 1])
  {
    hide Reachable;
    ReachableJournal(s, id);
    TimesFit(s.tokens[id], s.now);
  }

  lemma TimesFit(t: Token, now: Clock)
    requires TokenInv(t, now) && TimeInv(t)
    ensures t.hist.starts == [] ==> t.task.startTime == t.task.config.startTime
  {
  }

  lemma {:induction false} SpacedStarts(config: Config, starts: seq<int>, ends: seq<int>, k: nat)
    requires Spaced(config, starts, ends) && k < |starts|
    ensures config.startTime + k * config.interval <= starts[k]
  {
    if k > 0 {
      SpacedStarts(config, starts, ends, k - 1);
      assert ends[..k][k - 1] == ends[k - 1];
      assert Earliest(config, ends[..k]) == ends[k - 1] + config.interval;
      assert k * config.interval == (k - 1) * config.interval + config.interval;
    }
  }

  /** The n-th start is no earlier than the first start time plus n - 1 intervals, and executions of one
      task never overlap. */
  lemma RepeatPacing(s: State, id: Id, k: nat)
    requires Reachable(s) && id in s.tokens && k < |s.tokens[id].hist.starts|
    ensures var t := s.tokens[id];
            && t.task.config.startTime + k * t.task.config.interval <= t.hist.starts[k]
            && k <= |t.hist.ends|
            && (k > 0 ==> t.hist.starts[k - 1] <= t.hist.ends[k - 1]
                          && t.hist.ends[k - 1] + t.task.config.interval <= t.hist.starts[k])
  {
    ReachableInv(s);
    var t := s.tokens[id];
    assert TokenInv(t, s.now);
    SpacedStarts(t.task.config, t.hist.starts, t.hist.ends, k);
    if k > 0 {
      assert Earliest(t.task.config, t.hist.ends[..k]) <= t.hist.starts[k];
      assert t.hist.ends[..k][k - 1] == t.hist.ends[k - 1];
    }
  }

  /** How many starts there can be up to a given time: at most (time - startTime) / interval + 1. */
  lemma StartsUpTo(s: State, id: Id, time: int)
    requires Reachable(s) && id in s.tokens && s.tokens[id].task.config.interval > 0
    ensures var t := s.tokens[id];
            var early := set k: nat | k < |t.hist.starts| && t.hist.starts[k] <= time;
            |early| > 0 ==> (|early| - 1) * t.task.config.interval <= time - t.task.config.startTime
  {
    var t := s.tokens[id];
    var early := set k: nat | k < |t.hist.starts| && t.hist.starts[k] <= time;
    if |early| > 0 {
      var k := SomeLarge(early);
      RepeatPacing(s, id, k);
      MulMonotone(|early| - 1, k, t.task.config.interval);
    }
  }

  lemma MulMonotone(a: nat, b: nat, gap: int)
    requires a <= b && gap > 0
    ensures a * gap <= b * gap
  {
  }

  /** A set of n numbers contains one that is at least n - 1. */
  lemma SomeLarge(a: set<nat>) returns (k: nat)
    requires |a| > 0
    ensures k in a && k >= |a| - 1
  {
    if forall i :: i in a ==> i < |a| - 1 {
      BelowBound(a, |a| - 1);
    }
    k :| k in a && k >= |a| - 1;
  }

  lemma {:induction false} BelowBound(a: set<nat>, bound: nat)
    requires forall k :: k in a ==> k < bound
    ensures |a| <= bound
    decreases bound
  {
    if bound > 0 {
      BelowBound(a - {bound - 1}, bound - 1);
      SubsetSize(a, (a - {bound - 1}) + {bound - 1});
    } else {
      assert a == {};
    }
  }

  // ---------- Order ----------

  /** The keys of tasks in the ready queue do not change while they are there. */
  lemma QueuedKeysAreStable(s: State, st: Step, id: Id)
    requires Reachable(s) && id in s.queue && id in Apply(s, st).queue
    ensures id in s.tokens && id in Apply(s, st).tokens
    ensures var a, b := s.tokens[id].task, Apply(s, st).tokens[id].task;
            b.config.priority == a.config.priority && b.startTime == a.startTime
  {
    ReachableInv(s);
    StepKeepsInv(s, st);
    if Enabled(s, st) {
      QueuedMoves(s, st, id);
    }
  }

  /** t and u queued together with t strictly first, by its priority or, with equal priorities, by its start time:
      as long as t has not left the queue u has not either, unless it was cancelled there; and a worker that takes u
      from that stay does so after a worker took t, unless t never gets to the pool. */
  lemma NoInversion(s: State, r: State, t: Id, u: Id)
    requires Reachable(s) && LeadsTo(s, r) && t in s.queue && u in s.queue
    requires t in s.tokens && u in s.tokens
    requires var a, b := s.tokens[t].task, s.tokens[u].task;
             || a.config.priority < b.config.priority
             || (a.config.priority == b.config.priority && a.startTime < b.startTime)
    ensures var base := |s.pool.enqueued|;
            && t in r.tokens && u in r.tokens && base <= |r.pool.enqueued|
            && (t in r.queue && t !in r.pool.enqueued[base..] ==> u in r.queue || r.tokens[u].loc.Dropped?)
            && (t in r.pool.enqueued[base..] ==>
                  forall j :: base <= j < |r.pool.dequeued| && r.pool.dequeued[j] == u ==>
                    t in r.pool.dequeued[base..j])
  {
    hide Reachable, Inv, Run, Linked, AllLater, InOrder;
    ReachableInv(s);
    QueuedTogether(s, t, u);
    var steps: seq<Step> :| r == Run(s, steps);
    RunKeepsOrder(s, steps, t, u, |s.pool.enqueued|);
    RunKeepsInv(s, steps);
    OrderLaw(r, t, u, |s.pool.enqueued|);
  }

  lemma QueuedTogether(s: State, t: Id, u: Id)
    requires Inv(s) && t in s.queue && u in s.queue && t in s.tokens && u in s.tokens
    requires Tasks.After(KeyOf(s.tokens[u].task), KeyOf(s.tokens[t].task))
    ensures InOrder(s, t, u, |s.pool.enqueued|)
  {
    QueuedToken(s, t);
    QueuedToken(s, u);
  }

  lemma OrderLaw(r: State, t: Id, u: Id, base: nat)
    requires Inv(r) && InOrder(r, t, u, base) && t != u
    ensures t in r.tokens && u in r.tokens && base <= |r.pool.enqueued|
    ensures t in r.queue && t !in r.pool.enqueued[base..] ==> u in r.queue || r.tokens[u].loc.Dropped?
    ensures t in r.pool.enqueued[base..] ==>
              forall j :: base <= j < |r.pool.dequeued| && r.pool.dequeued[j] == u ==> t in r.pool.dequeued[base..j]
  {
    if t in r.queue && t !in r.pool.enqueued[base..] {
      QueuedInOrder(r, t, u, base);
    }
    forall j | base <= j < |r.pool.dequeued| && r.pool.dequeued[j] == u && t in r.pool.enqueued[base..]
      ensures t in r.pool.dequeued[base..j]
    {
      TakenInOrder(r, t, u, base, j);
    }
  }

  lemma TakenInOrder(r: State, t: Id, u: Id, base: nat, j: nat)
    requires P.FifoInv(r.pool) && InOrder(r, t, u, base) && t != u
    requires base <= j < |r.pool.dequeued| && r.pool.dequeued[j] == u && t in r.pool.enqueued[base..]
    ensures t in r.pool.dequeued[base..j]
  {
    assert r.pool.enqueued[base..][j - base] == u;
    DispatchedInOrder(r, t, u, base);
    AheadIsTakenFirst(r.pool.enqueued, r.pool.dequeued, base, t, u, j);
  }

  // ---------- Conservation ----------

  /** Every push, every dispatch and every job taken by a worker is accounted for. A job is counted once, and
      once more exactly for the tasks whose completion callback threw into the catch branch. */
  lemma Conservation(s: State)
    requires Reachable(s)
    ensures s.log.pushes ==
              |s.queue| + Bit(s.sched.Holding?) + Count(s.tokens, IsSkipped) + Count(s.tokens, IsDropped)
              + |s.pool.enqueued|
    ensures |s.pool.enqueued| == |s.pool.dequeued| + |s.pool.discarded| + |s.pool.queue|
    ensures |s.pool.dequeued| + Count(s.tokens, Reentered) ==
              s.stats.tasksCompleted + s.stats.tasksFailed + s.stats.tasksTimeout
              + Sum(s.tokens, Occurs(CancelSeen)) + Count(s.exec, BeforeStats)
  {
    ReachableBalanced(s);
    ReachableTotalled(s);
    assert TotalIs(s, CancelSeen) && Where(s.exec, AboutToCount(CancelSeen)) == {};
  }

  /** Each counter of getStatistics is the total of what happened, minus the threads just before the
      increment. */
  lemma StatisticsAreExact(s: State)
    requires Reachable(s)
    ensures s.stats.totalTasksScheduled + Count(s.calls, Unscheduled) == |s.tokens.Keys|
    ensures s.stats.tasksCompleted + Count(s.exec, AboutToCount(Success)) == Sum(s.tokens, Occurs(Success))
    ensures s.stats.tasksFailed + Count(s.exec, AboutToCount(Failure)) == Sum(s.tokens, Occurs(Failure))
    ensures s.stats.tasksTimeout + Count(s.exec, AboutToCount(Timeout)) == Sum(s.tokens, Occurs(Timeout))
    ensures s.stats.tasksCancelled + Count(s.calls, Uncounted) ==
              Count(s.tokens, HitActive) + Count(s.tokens, HitQueued)
  {
    ReachableBalanced(s);
    ReachableTotalled(s);
    assert TotalIs(s, Success) && TotalIs(s, Failure) && TotalIs(s, Timeout);
  }

  // ---------- Shutdown ----------

  /** After isRunning is cleared, and until the next start(), at most one more task is dispatched, and none
      unless the scheduler thread already has one to go on with. */
  lemma AtMostOneMoreDispatch(s: State, steps: seq<Step>, t: State)
    requires Reachable(s) && t == Run(s, steps) && !s.isRunning && NoStart(steps)
    ensures |t.pool.enqueued| <= |s.pool.enqueued| + Bit(CanDispatch(s))
  {
    hide Reachable, Inv, Run, CanDispatch;
    ReachableInv(s);
    RunWindsDown(s, steps);
  }

  /** The bound is exact: with isRunning cleared, a further task can be dispatched before the next start() if and
      only if the scheduler thread holds a task that it will go on with, or is about to pop the queue with an
      active task among the least. */
  lemma DispatchesExactly(s: State)
    requires Reachable(s) && !s.isRunning
    ensures (exists steps: seq<Step> :: Dispatching(s, steps)) <==> CanDispatch(s)
  {
    hide Reachable, CanDispatch, Run;
    if CanDispatch(s) {
      var steps := DispatchesOne(s);
    } else if steps: seq<Step> :| Dispatching(s, steps) {
      AtMostOneMoreDispatch(s, steps, Run(s, steps));
    }
  }

  /** After the pool's stop flag is set at most one more job is taken, and none unless a worker is already bound
      to take it. */
  lemma AtMostOneMoreJob(s: State, t: State)
    requires Reachable(s) && LeadsTo(s, t) && s.pool.stopFlag
    ensures |t.pool.dequeued| <= |s.pool.dequeued| + P.Committed(s.pool)
  {
    hide Reachable, Inv, Run, P.Committed;
    ReachableInv(s);
    var steps: seq<Step> :| t == Run(s, steps);
    RunKeepsPoolBudget(s, steps);
  }

  /** The bound is exact: with the stop flag set, a further job can be taken if and only if a worker has read the
      flag before and is bound to take the front job. */
  lemma JobsExactly(s: State)
    requires Reachable(s) && s.pool.stopFlag
    ensures (exists t :: LeadsTo(s, t) && |t.pool.dequeued| > |s.pool.dequeued|) <==> P.Committed(s.pool) == 1
  {
    hide Reachable, LeadsTo, P.Committed, Inv, Placed, Linked, P.MutexInv;
    if t :| LeadsTo(s, t) && |t.pool.dequeued| > |s.pool.dequeued| {
      AtMostOneMoreJob(s, t);
    }
    if P.Committed(s.pool) == 1 {
      CommittedLeads(s);
    }
  }

  /** Once stop() has returned, no worker holds a job and no execution ever begins again, not even after a
      later start() and more scheduling. */
  lemma NothingRunsAfterStop(s: State, t: State)
    requires Reachable(s) && LeadsTo(s, t) && s.pool.stopped
    ensures t.exec == map[] && NothingStarted(s, t)
  {
    ReachableInv(s);
    var steps: seq<Step> :| t == Run(s, steps);
    RunAfterStop(s, steps);
  }

  /** While a stop() is under way it can return without a spurious wake-up of a worker, if and only if it has not yet
      notified the workers, or none of them sleeps or is about to sleep. */
  lemma StopReturnsExactly(s: State)
    requires Reachable(s) && !s.ctl.Idle?
    ensures (exists steps: seq<Step> :: Returns(s, steps)) <==> !Hung(s)
  {
    hide Reachable, Run, Inv;
    if Hung(s) {
      ReachableInv(s);
      var w :| HungAt(s, w);
      if steps: seq<Step> :| Returns(s, steps) {
        StaysHung(s, steps, w);
        assert false;
      }
    } else {
      var steps := StopReturns(s);
    }
  }
}
