/** The scheduler as the program has it: one object with its registries, its queue, its pool and its threads.
    Each method is one critical section or one atomic access of one thread, and does nothing when that thread
    is not there. Line numbers refer to src/TaskScheduler.cpp. */
module TaskSchedulers {
  import opened Options
  import opened Seqs
  import opened TaskIds
  import opened Tasks
  import opened TaskQueues
  import opened ThreadPools
  import opened Lifecycle
  import opened Protocol
  import opened Ownership
  import opened Invariant
  import P = PoolModel

  // ---------- The model's answer to one step of one thread ----------

  function ClientAfter(s: State, c: nat, op: ClientOp): State {
    if Linked(s) && ClientEnabled(s, c, op) then ClientNext(s, c, op) else s
  }

  function SchedAfter(s: State, op: SchedOp): State {
    if Linked(s) && SchedEnabled(s, op) then SchedNext(s, op) else s
  }

  function WorkerAfter(s: State, w: nat, op: WorkerOp): State {
    if Linked(s) && WorkerEnabled(s, w, op) then WorkerNext(s, w, op) else s
  }

  function CtlAfter(s: State, op: CtlOp): State {
    if Linked(s) && CtlEnabled(s, op) then CtlNext(s, op) else s
  }

  /** Worker w can execute its next statement, with this choice of the environment. */
  predicate AtPoint(s: State, w: nat, choice: Choice) {
    Linked(s) && WorkerEnabled(s, w, Statement(choice))
  }

  /** The start of the execution on worker w has been noted. */
  predicate Started(s: State, w: nat) {
    w in s.exec && s.exec[w].id in s.tokens && s.tokens[s.exec[w].id].hist.began != []
  }

  /** The statements of runTaskWithTimeout. */
  predicate InRun(p: Point) {
    || p.Taken? || p.Executing? || p.TimeoutSet? || p.TimeoutCount? || p.TimeoutCallback? || p.TimeoutRecord?
    || p.TimeoutErase?
  }

  /** The statements of finalizeCompletedTask. */
  predicate InFinalize(p: Point) {
    || p.FinalCheck? || p.DoneSet? || p.DoneCount? || p.DoneCallback? || p.DoneRecord?
    || p.Reschedule? || p.Reset? || p.Repush? || p.DoneErase?
  }

  /** The worker's next statement, or Finished when it gives the task up. */
  function PointOf(loc: Loc): Point {
    if loc.OnWorker? then loc.at else Finished
  }

  lemma StatementIs(s: State, w: nat, choice: Choice)
    requires AtPoint(s, w, choice)
    ensures w in s.exec
    ensures var Exec(id, p) := s.exec[w];
            && id in s.tokens && ChoiceFits(p, choice) && !p.Finished?
            && var t := WorkToken(s.tokens[id], w, p, choice, s.now);
               WorkNext(s, w, choice) == s.(
                 tokens := s.tokens[id := t], exec := s.exec[w := Exec(id, PointOf(t.loc))],
                 queue := if p.Repush? then s.queue + multiset{id} else s.queue,
                 stats := CountAt(s.stats, p), log := LogAt(s.log, p, choice, t.loc))
  {
  }

  // ---------- Queued tasks and their ids ----------

  ghost function Ids(ts: seq<Task>): multiset<Id> {
    multiset(Map((t: Task) => t.id, ts))
  }

  lemma IdsRearranged(a: seq<Task>, b: seq<Task>)
    requires multiset(a) == multiset(b)
    ensures Ids(a) == Ids(b)
  {
    MapRearranged((t: Task) => t.id, a, b);
  }

  lemma IdsAppend(ts: seq<Task>, t: Task)
    ensures Ids(ts + [t]) == Ids(ts) + multiset{t.id}
  {
    MapAppend((t: Task) => t.id, ts, t);
  }

  lemma IdsPushed(before: seq<Task>, t: Task, after: seq<Task>)
    requires multiset(after) == multiset(before) + multiset{t}
    ensures Ids(after) == Ids(before) + multiset{t.id}
    ensures forall u :: u in after <==> u in before || u == t
  {
    IdsRearranged(after, before + [t]);
    IdsAppend(before, t);
    forall u
      ensures u in after <==> u in before || u == t
    {
      assert u in after <==> u in multiset(after);
      assert u in before <==> u in multiset(before);
    }
  }

  lemma IdOfQueued(ts: seq<Task>, id: Id)
    ensures id in Ids(ts) <==> HasId(ts, id)
  {
    var ids := Map((t: Task) => t.id, ts);
    assert id in Ids(ts) <==> id in ids;
    if HasId(ts, id) {
      var i :| 0 <= i < |ts| && ts[i].id == id;
      assert ids[i] == id;
    }
  }

  lemma {:induction false} IdsOfOthers(ts: seq<Task>, id: Id)
    ensures Ids(Others(ts, id)) == Ids(ts)[id := 0]
  {
    if ts != [] {
      var f := (t: Task) => t.id;
      IdsOfOthers(ts[1..], id);
      assert Map(f, ts) == [ts[0].id] + Map(f, ts[1..]);
      if ts[0].id != id {
        assert Map(f, Others(ts, id)) == [ts[0].id] + Map(f, Others(ts[1..], id));
      } else {
        assert Others(ts, id) == Others(ts[1..], id);
      }
    }
  }

  lemma OthersAmong(ts: seq<Task>, id: Id, after: seq<Task>)
    requires multiset(after) == multiset(Others(ts, id))
    ensures Ids(after) == Ids(ts)[id := 0]
    ensures forall u :: u in after ==> u in ts
  {
    IdsRearranged(after, Others(ts, id));
    IdsOfOthers(ts, id);
    OthersAreIn(ts, id);
    forall u | u in after
      ensures u in ts
    {
      assert u in multiset(after);
    }
  }

  lemma {:induction false} OthersAreIn(ts: seq<Task>, id: Id)
    ensures forall u :: u in Others(ts, id) ==> u in ts
  {
    if ts != [] {
      OthersAreIn(ts[1..], id);
    }
  }

  /** What becomes of a task that has left the queue. */
  function Settle(s: State, id: Id): State
    requires id in s.tokens
  {
    if s.tokens[id].task.startTime > s.now.system then s.(queue := s.queue + multiset{id}, sched := Sleeping)
    else s.(tokens := s.tokens[id := s.tokens[id].(loc := InHand(Popped))], sched := Holding(id, Popped))
  }

  lemma PopIs(s: State, id: Id)
    requires Linked(s) && s.sched.Checked? && Least(s.tokens, s.queue, id)
    ensures SchedEnabled(s, PopTask(id))
    ensures SchedAfter(s, PopTask(id)) == Settle(s.(queue := s.queue - multiset{id}), id)
  {
    assert s.queue - multiset{id} + multiset{id} == s.queue;
  }

  lemma TakeJobIs(s: State, w: nat)
    requires Linked(s)
    ensures P.Enabled(s.pool, P.Dequeue(w)) ==> s.pool.queue != [] && s.pool.queue[0] in s.tokens
    ensures WorkerAfter(s, w, TakeJob) ==
            if !P.Enabled(s.pool, P.Dequeue(w)) then s
            else var id := s.pool.queue[0];
                 s.(tokens := s.tokens[id := s.tokens[id].(loc := OnWorker(w, Taken))],
                    pool := P.Next(s.pool, P.Dequeue(w)), exec := s.exec[w := Exec(id, Taken)])
  {
  }

  lemma PushNewIs(s: State, c: nat)
    requires Linked(s)
    ensures ClientAfter(s, c, PushNew) ==
            if !(c in s.calls && s.calls[c].Inserted? && QueueFree(s)) then s
            else var id := s.calls[c].id;
                 s.(tokens := s.tokens[id := s.tokens[id].(loc := InQueue)], queue := s.queue + multiset{id},
                    log := s.log.(pushes := s.log.pushes + 1), calls := s.calls[c := Pushed(id)])
    ensures c in s.calls && s.calls[c].Inserted? ==> s.calls[c].id in s.tokens
  {
  }

  lemma CancelInActiveIs(s: State, c: nat)
    requires Linked(s)
    ensures ClientAfter(s, c, CancelInActive) ==
            if !(c in s.calls && s.calls[c].CancelBegun?) then s
            else if !IsActive(s, s.calls[c].id) then s.(calls := s.calls[c := CancelMissed(s.calls[c].id)])
            else var id := s.calls[c].id;
                 s.(tokens := s.tokens[id := CancelToken(s.tokens[id])], calls := s.calls[c := CancelHit(id)])
  {
  }

  lemma CancelInQueueIs(s: State, c: nat)
    requires Linked(s)
    ensures ClientAfter(s, c, CancelInQueue) ==
            if !(c in s.calls && s.calls[c].CancelMissed? && QueueFree(s)) then s
            else if s.calls[c].id !in s.queue then s.(calls := s.calls - {c})
            else var id := s.calls[c].id;
                 s.(tokens := s.tokens[id := DropToken(s.tokens[id])], queue := s.queue[id := 0],
                    log := s.log.(dropped := s.log.dropped + s.queue[id]), calls := s.calls[c := CancelHit(id)])
  {
  }

  lemma RecordCancelIs(s: State, c: nat)
    requires Linked(s) && (c in s.calls && s.calls[c].CancelNotified? ==> s.calls[c].id in s.tokens)
    ensures ClientAfter(s, c, RecordCancel) ==
            if !(c in s.calls && s.calls[c].CancelNotified?) then s
            else var id := s.calls[c].id;
                 s.(tokens := s.tokens[id := RecordStatus(s.tokens[id], Cancelled)], calls := s.calls - {c})
  {
  }

  /** What the invariant of the model gives to each single step. */
  ghost predicate Safe(s: State) {
    && Linked(s)
    && GenerateTaskId(s.nextId) !in s.tokens
    && (s.sched.Checked? ==> s.queue != multiset{})
    && (forall c :: c in s.calls && s.calls[c].CancelNotified? ==> s.calls[c].id in s.tokens)
    && (forall w :: w in s.exec && s.exec[w].at.Reschedule? ==> s.exec[w].id !in s.queue)
    && (forall w :: w in s.exec && s.exec[w].at.Executing? ==> Started(s, w))
  }

  lemma ReachableIsSafe(s: State)
    requires Reachable(s)
    ensures Safe(s)
  {
    ReachableInv(s);
    FreshId(s);
    forall c | c in s.calls && s.calls[c].CancelNotified?
      ensures s.calls[c].id in s.tokens
    {
      assert CallKnows(s, s.calls[c]);
    }
    forall w | w in s.exec && s.exec[w].at.Executing?
      ensures Started(s, w)
    {
      assert TokenInv(s.tokens[s.exec[w].id], s.now);
    }
  }

  lemma NothingToPop(s: State, id: Id)
    requires !s.sched.Checked?
    ensures SchedAfter(s, PopTask(id)) == s
  {
  }

  /** The step that was done is the one asked for, except that the heap chooses which least task to pop. */
  predicate SameButPop(asked: Step, done: Step) {
    asked == done || (asked.Sched? && asked.schedOp.PopTask? && done.Sched? && done.schedOp.PopTask?)
  }

  lemma ApplyIs(s: State, st: Step)
    ensures match st
            case Tick(n, m) => Linked(s) ==> Apply(s, st) == s.(now := Clock(s.now.system + n, s.now.steady + m))
            case Client(c, op) => Apply(s, st) == ClientAfter(s, c, op)
            case Sched(op) => Apply(s, st) == SchedAfter(s, op)
            case Worker(w, op) => Apply(s, st) == WorkerAfter(s, w, op)
            case Ctl(op) => Apply(s, st) == CtlAfter(s, op)
  {
  }

  // ---------- The object ----------

  function Lookup<V>(m: map<Id, V>, id: Id): Option<V> {
    if id in m then Some(m[id]) else None
  }

  /** All that the object keeps about one task. */
  datatype Entry = Entry(
    task: Task, rec: TaskRec, active: Option<Task>, record: Option<Status>, began: Option<int>, token: Token)

  /** The token says what the task object and the registries hold; all refer to the same object. */
  ghost predicate Agree(id: Id, e: Entry) {
    && e.task.id == id && e.token.task == e.rec
    && e.active == (if e.token.active then Some(e.task) else None) && e.token.record == e.record
    && (e.token.hist.began != [] ==> e.began == Some(e.token.hist.began[|e.token.hist.began| - 1]))
  }

  class TaskScheduler {
    var now: Clock
    var nextId: nat
    var tasks: map<Id, Task>            // every task that some thread or container refers to
    var activeTasks: map<Id, Task>
    var completedTasks: map<Id, Status>
    const taskQueue: TaskQueue
    const threadPool: ThreadPool<Id>
    var stats: Statistics
    var isRunning: bool
    var sched: SchedPc
    var calls: map<nat, Call>
    var exec: map<nat, Exec>
    var began: map<Id, int>             // the local variable start of the runTaskWithTimeout call of a task
    var ctl: CtlPc
    var returned: set<Id>
    ghost var tokens: map<Id, Token>    // what each task is, with its place and its history
    ghost var log: Log

    ghost function EntryOf(id: Id): Entry
      requires id in tasks && id in tokens
      reads `tasks, `activeTasks, `completedTasks, `began, `tokens, tasks[id]
    {
      Entry(tasks[id], tasks[id].Rec(), Lookup(activeTasks, id), Lookup(completedTasks, id),
            Lookup(began, id), tokens[id])
    }

    ghost predicate AllAgree()
      reads `tasks, `activeTasks, `completedTasks, `began, `tokens, tasks.Values
    {
      && tasks.Keys == tokens.Keys && activeTasks.Keys <= tasks.Keys && completedTasks.Keys <= tasks.Keys
      && (forall id :: id in tasks ==> Agree(id, EntryOf(id)))
    }

    /** The queue refers to the same objects. */
    ghost predicate QueueShares()
      reads `tasks, taskQueue`pq
    {
      forall t :: t in taskQueue.pq ==> t.id in tasks && tasks[t.id] == t
    }

    ghost predicate Valid()
      reads `tasks, `activeTasks, `completedTasks, `began, `tokens, tasks.Values, taskQueue, taskQueue.pq`startTime
    {
      AllAgree() && QueueShares() && taskQueue.Valid()
    }

    ghost function View(): State
      reads this, taskQueue`pq, threadPool
    {
      State(now, nextId, tokens, Ids(taskQueue.pq), threadPool.View(), stats, isRunning, sched, calls, exec, ctl,
            returned, log)
    }

    constructor (numThreads: nat, now: Clock)
      ensures Valid() && View() == Init(numThreads, now)
      ensures Reachable(View()) && fresh(taskQueue) && fresh(threadPool) && tasks == map[]
    {
      this.now, nextId := now, 1;
      tasks, activeTasks, completedTasks := map[], map[], map[];
      taskQueue := new TaskQueue();
      threadPool := new ThreadPool(numThreads);
      stats, isRunning, sched, ctl := Statistics(0, 0, 0, 0, 0), false, Off, Idle;
      calls, exec, returned := map[], map[], {};
      began, tokens, log := map[], map[], Log(0, 0, 0, 0, 0);
      InitReachable(numThreads, now);
    }

    /** The clock moves on. */
    method Tick(ticks: nat, steadyTicks: nat)
      requires Valid()
      modifies `now
      ensures Valid() && View() == old(View()).(now := Clock(old(now).system + ticks, old(now).steady + steadyTicks))
    {
      now := Clock(now.system + ticks, now.steady + steadyTicks);
    }

    /** TaskScheduler::getTaskStatus. */
    method ReadStatus(id: Id) returns (status: Status)
      requires Valid()
      ensures status == GetTaskStatus(View(), id)
      ensures status == if id in activeTasks then activeTasks[id].status
                        else if id in completedTasks then completedTasks[id] else Completed
    {
      if id in activeTasks {
        assert Agree(id, EntryOf(id));
        return activeTasks[id].status;
      }
      if id in completedTasks {
        assert Agree(id, EntryOf(id));
        return completedTasks[id];
      }
      assert id in tasks ==> Agree(id, EntryOf(id));
      return Completed;
    }

    lemma TaskOf(id: Id)
      requires Valid()
      ensures id in tasks <==> id in tokens
      ensures id in tokens ==> tasks[id].id == id && tasks[id].Rec() == tokens[id].task
      ensures id in activeTasks <==> id in tokens && tokens[id].active
    {
      assert id in tasks ==> Agree(id, EntryOf(id));
    }

    // ---------- Changing one task ----------

    twostate lemma OnlyChanged(id: Id)
      requires old(AllAgree()) && id in tasks && id in tokens && Agree(id, EntryOf(id))
      requires tasks.Keys == old(tasks.Keys) + {id} && tokens.Keys == old(tokens.Keys) + {id}
      requires activeTasks.Keys <= tasks.Keys && completedTasks.Keys <= tasks.Keys
      requires forall j :: j in old(tasks) && j != id ==> EntryOf(j) == old(EntryOf(j))
      ensures AllAgree()
    {
    }

    /** What OnlyChanged needs to know before a change of one task. */
    lemma Shape(id: Id)
      requires AllAgree()
      ensures tasks.Keys == tokens.Keys && activeTasks.Keys <= tasks.Keys && completedTasks.Keys <= tasks.Keys
      ensures forall j :: j in tasks ==> tasks[j].id == j
      ensures id in tasks ==> Agree(id, EntryOf(id))
    {
      assert forall j :: j in tasks ==> Agree(j, EntryOf(j));
    }

    method AddTask(id: Id, config: Config, ghost c: nat)
      requires Valid() && id !in tokens
      modifies `tasks, `tokens
      ensures Valid() && tokens == old(tokens)[id := NewToken(config, c)]
      ensures fresh(tasks.Values - old(tasks.Values))
    {
      hide AllAgree;
      Shape(id);
      var task := new Task(id, config);
      tasks := tasks[id := task];
      tokens := tokens[id := NewToken(config, c)];
      OnlyChanged(id);
    }

    method Activate(id: Id, ghost t: Token)
      requires Valid() && id in tokens && t == tokens[id].(active := true, loc := t.loc, hist := t.hist)
      requires t.hist.began == tokens[id].hist.began
      modifies `activeTasks, `tokens
      ensures Valid() && tokens == old(tokens)[id := t]
    {
      hide TaskQueue.Valid, QueueShares, AllAgree;
      Shape(id);
      activeTasks := activeTasks[id := tasks[id]];
      tokens := tokens[id := t];
      OnlyChanged(id);
    }

    method Erase(id: Id, ghost t: Token)
      requires Valid() && id in tokens && t == tokens[id].(active := false, loc := t.loc, hist := t.hist)
      requires t.hist.began == tokens[id].hist.began
      modifies `activeTasks, `tokens
      ensures Valid() && tokens == old(tokens)[id := t]
    {
      hide TaskQueue.Valid, QueueShares, AllAgree;
      Shape(id);
      activeTasks := activeTasks - {id};
      tokens := tokens[id := t];
      OnlyChanged(id);
    }

    method Record(id: Id, status: Status, ghost t: Token)
      requires Valid() && id in tokens && t == tokens[id].(record := Some(status), loc := t.loc, hist := t.hist)
      requires t.hist.began == tokens[id].hist.began
      modifies `completedTasks, `tokens
      ensures Valid() && tokens == old(tokens)[id := t]
    {
      hide TaskQueue.Valid, QueueShares, AllAgree;
      Shape(id);
      completedTasks := completedTasks[id := status];
      tokens := tokens[id := t];
      OnlyChanged(id);
    }

    method SetStatusOf(id: Id, status: Status, ghost t: Token)
      requires Valid() && id in tokens && t == SetStatus(tokens[id], status).(loc := t.loc, hist := t.hist)
      requires t.hist.began == tokens[id].hist.began
      modifies tasks.Values`status, `tokens
      ensures Valid() && tokens == old(tokens)[id := t]
    {
      hide TaskQueue.Valid, QueueShares, AllAgree;
      Shape(id);
      tasks[id].SetStatus(status);
      tokens := tokens[id := t];
      OnlyChanged(id);
    }

    lemma NotInHeap(id: Id)
      requires QueueShares() && id in tasks && tasks[id].id == id && id !in Ids(taskQueue.pq)
      ensures tasks[id] !in taskQueue.pq
    {
      IdOfQueued(taskQueue.pq, id);
    }

    /** The one place that changes a key; the task must not be in the heap. */
    method RescheduleTask(id: Id, ghost t: Token)
      requires Valid() && id in tokens && id !in Ids(taskQueue.pq)
      requires t == tokens[id].(task := tokens[id].task.(startTime := now.system + tokens[id].task.config.interval),
                                loc := t.loc, hist := t.hist)
      requires t.hist.began == tokens[id].hist.began
      modifies tasks.Values`startTime, `tokens
      ensures Valid() && tokens == old(tokens)[id := t]
    {
      hide TaskQueue.Valid, QueueShares, AllAgree;
      Shape(id);
      NotInHeap(id);
      tasks[id].Reschedule(now.system);
      tokens := tokens[id := t];
      OnlyChanged(id);
    }

    /** Only the place or the history of a task changes. */
    ghost method Note(id: Id, t: Token)
      requires Valid() && id in tokens && t == tokens[id].(loc := t.loc, hist := t.hist)
      requires t.hist.began == tokens[id].hist.began
      modifies `tokens
      ensures Valid() && tokens == old(tokens)[id := t]
    {
      hide TaskQueue.Valid, QueueShares, AllAgree;
      Shape(id);
      tokens := tokens[id := t];
      OnlyChanged(id);
    }

    /** The search of cancelTask in activeTasks, when it succeeds: one critical section. */
    method CancelActiveTask(id: Id)
      requires Valid() && id in activeTasks
      modifies `activeTasks, tasks.Values`status, `tokens
      ensures Valid() && id in old(tokens) && tokens == old(tokens)[id := CancelToken(old(tokens)[id])]
    {
      hide TaskQueue.Valid, QueueShares, AllAgree;
      Shape(id);
      activeTasks[id].SetStatus(Cancelled);
      activeTasks := activeTasks - {id};
      tokens := tokens[id := CancelToken(tokens[id])];
      OnlyChanged(id);
    }

    // ---------- Changing the queue ----------

    method PushTask(id: Id)
      requires Valid() && id in tokens
      modifies taskQueue`pq
      ensures Valid() && Ids(taskQueue.pq) == old(Ids(taskQueue.pq)) + multiset{id}
    {
      assert Agree(id, EntryOf(id));
      taskQueue.Push(tasks[id]);
      IdsPushed(old(taskQueue.pq), tasks[id], taskQueue.pq);
    }

    lemma LeastQueued(ts: seq<Task>, task: Task)
      requires AllAgree() && task in ts && (forall t :: t in ts ==> t.id in tasks && tasks[t.id] == t)
      requires forall t :: t in ts ==> !Tasks.After(task.SortKey(), t.SortKey())
      ensures Least(tokens, Ids(ts), task.id)
    {
      assert Agree(task.id, EntryOf(task.id));
      IdOfQueued(ts, task.id);
      forall u | u in Ids(ts)
        ensures u in tokens && !Tasks.After(KeyOf(tokens[task.id].task), KeyOf(tokens[u].task))
      {
        IdOfQueued(ts, u);
        assert Agree(u, EntryOf(u));
      }
    }

    /** A least task leaves the heap. */
    method PopLeast() returns (task: Task)
      requires Valid() && !taskQueue.IsEmpty()
      modifies taskQueue`pq
      ensures Valid() && Least(tokens, old(Ids(taskQueue.pq)), task.id)
      ensures View() == old(View()).(queue := old(View().queue) - multiset{task.id})
    {
      hide TaskQueue.Valid, AllAgree;
      task := taskQueue.Pop();
      IdsPushed(taskQueue.pq, task, old(taskQueue.pq));
      LeastQueued(old(taskQueue.pq), task);
    }

    /** The queue refers to the task of an id at most as one object. */
    lemma MatchingTask(id: Id)
      requires QueueShares()
      ensures if HasId(taskQueue.pq, id) then id in tasks && Matching(taskQueue.pq, id) == {tasks[id]}
              else Matching(taskQueue.pq, id) == {}
    {
      if HasId(taskQueue.pq, id) {
        var i :| 0 <= i < |taskQueue.pq| && taskQueue.pq[i].id == id;
        assert taskQueue.pq[i] in Matching(taskQueue.pq, id);
      }
    }

    /** TaskQueue::cancelTask, seen from here: at most one object is marked. */
    method DrainQueue(id: Id) returns (found: bool)
      requires Valid()
      modifies taskQueue`pq, (if id in tasks then {tasks[id]} else {})`status
      ensures QueueShares() && taskQueue.Valid() && (found <==> id in old(Ids(taskQueue.pq)))
      ensures Ids(taskQueue.pq) == old(Ids(taskQueue.pq))[id := 0]
      ensures if found then id in tasks && tasks[id].Rec() == old(tokens[id]).task.(status := Cancelled) else AllAgree()
    {
      IdOfQueued(taskQueue.pq, id);
      MatchingTask(id);
      assert HasId(taskQueue.pq, id) ==> tasks[id] in taskQueue.pq && tasks[id].id == id;
      hide HasId, Others, TaskQueue.Valid, AllAgree;
      found := taskQueue.CancelTask(id);
      OthersAmong(old(taskQueue.pq), id, taskQueue.pq);
    }

    /** The search of cancelTask in the queue: drain, mark, rebuild. */
    method CancelQueuedTask(id: Id) returns (found: bool)
      requires Valid()
      modifies taskQueue`pq, tasks.Values`status, `tokens
      ensures Valid() && (found <==> id in old(Ids(taskQueue.pq)))
      ensures Ids(taskQueue.pq) == old(Ids(taskQueue.pq))[id := 0]
      ensures found ==> id in old(tokens) && tokens == old(tokens)[id := DropToken(old(tokens)[id])]
      ensures !found ==> tokens == old(tokens)
    {
      hide TaskQueue.Valid, QueueShares, AllAgree;
      Shape(id);
      found := DrainQueue(id);
      if found {
        tokens := tokens[id := DropToken(tokens[id])];
        OnlyChanged(id);
      }
    }

    // ---------- scheduleTask ----------

    /** Line 74: the task with its new id. */
    method CreateTask(c: nat, config: Config)
      requires Valid() && Linked(View()) && GenerateTaskId(nextId) !in tokens
      modifies `tasks, `nextId, `calls, `tokens
      ensures Valid() && View() == ClientAfter(old(View()), c, Create(config))
      ensures fresh(tasks.Values - old(tasks.Values))
    {
      hide Valid;
      if c !in calls {
        var id := GenerateTaskId(nextId);
        AddTask(id, config, c);
        nextId := nextId + 1;
        calls := calls[c := Created(id)];
      }
    }

    /** Lines 78-81. */
    method InsertIntoActive(c: nat)
      requires Valid() && Linked(View())
      modifies `activeTasks, `calls, `tokens
      ensures Valid() && View() == ClientAfter(old(View()), c, InsertActive)
    {
      hide Valid;
      if c in calls && calls[c].Created? {
        var id := calls[c].id;
        Activate(id, tokens[id].(active := true, loc := AtClient(c, true)));
        calls := calls[c := Inserted(id)];
      }
    }

    /** Lines 84-87, when no other thread has the queue mutex. */
    method PushNewTask(c: nat)
      requires Valid() && Linked(View())
      modifies taskQueue`pq, `calls, `tokens, `log
      ensures Valid() && View() == ClientAfter(old(View()), c, PushNew)
    {
      hide Valid, ClientAfter, Linked, Ids;
      PushNewIs(View(), c);
      if c in calls && calls[c].Inserted? && !sched.Checked? {
        var id := calls[c].id;
        PushTask(id);
        Note(id, tokens[id].(loc := InQueue));
        calls := calls[c := Pushed(id)];
        log := log.(pushes := log.pushes + 1);
      }
    }

    /** Lines 90-93. */
    method CountScheduledTask(c: nat)
      requires Valid() && Linked(View())
      modifies `stats, `calls
      ensures Valid() && View() == ClientAfter(old(View()), c, CountScheduled)
    {
      hide Valid;
      if c in calls && calls[c].Pushed? {
        stats := stats.(totalTasksScheduled := stats.totalTasksScheduled + 1);
        calls := calls[c := Counted(calls[c].id)];
      }
    }

    /** Line 100: the caller knows the id from now on. */
    method ReturnTaskId(c: nat)
      requires Valid() && Linked(View())
      modifies `returned, `calls
      ensures Valid() && View() == ClientAfter(old(View()), c, ReturnId)
    {
      hide Valid;
      if c in calls && calls[c].Counted? {
        returned := returned + {calls[c].id};
        calls := calls - {c};
      }
    }

    // ---------- cancelTask ----------

    method BeginCancelTask(c: nat, id: Id)
      requires Valid() && Linked(View())
      modifies `calls
      ensures Valid() && View() == ClientAfter(old(View()), c, BeginCancel(id))
    {
      hide Valid;
      if c !in calls && (id in returned || !IsTaskId(id)) {
        calls := calls[c := CancelBegun(id)];
      }
    }

    /** Lines 120-129. */
    method SearchActive(c: nat)
      requires Valid() && Linked(View())
      modifies `activeTasks, tasks.Values`status, `calls, `tokens
      ensures Valid() && View() == ClientAfter(old(View()), c, CancelInActive)
    {
      hide Valid, ClientAfter, Linked, Ids;
      CancelInActiveIs(View(), c);
      if c in calls && calls[c].CancelBegun? {
        var id := calls[c].id;
        TaskOf(id);
        if id in activeTasks {
          CancelActiveTask(id);
          calls := calls[c := CancelHit(id)];
        } else {
          calls := calls[c := CancelMissed(id)];
        }
      }
    }

    /** Lines 133-139, when no other thread has the queue mutex. */
    method SearchQueue(c: nat)
      requires Valid() && Linked(View())
      modifies taskQueue`pq, tasks.Values`status, `calls, `tokens, `log
      ensures Valid() && View() == ClientAfter(old(View()), c, CancelInQueue)
    {
      hide Valid, ClientAfter, Linked, Ids;
      CancelInQueueIs(View(), c);
      if c in calls && calls[c].CancelMissed? && !sched.Checked? {
        var id := calls[c].id;
        var found := CancelQueuedTask(id);
        if found {
          log := log.(dropped := log.dropped + old(Ids(taskQueue.pq))[id]);
          calls := calls[c := CancelHit(id)];
        } else {
          calls := calls - {c};
        }
      }
    }

    /** Line 143. */
    method CountCancelledTask(c: nat)
      requires Valid() && Linked(View())
      modifies `stats, `calls
      ensures Valid() && View() == ClientAfter(old(View()), c, CountCancelled)
    {
      hide Valid;
      if c in calls && calls[c].CancelHit? {
        stats := stats.(tasksCancelled := stats.tasksCancelled + 1);
        calls := calls[c := CancelCounted(calls[c].id)];
      }
    }

    /** Lines 579-584; an exception leaves cancelTask before the record. */
    method CancelCallBack(c: nat, throws: bool)
      requires Valid() && Linked(View())
      modifies `calls, `tokens
      ensures Valid() && View() == ClientAfter(old(View()), c, CallBack(throws))
    {
      hide Valid;
      if c in calls && calls[c].CancelCounted? {
        var id := calls[c].id;
        if id in tokens {
          Note(id, CalledToken(tokens[id], throws));
        }
        calls := if throws then calls - {c} else calls[c := CancelNotified(id)];
      }
    }

    /** Lines 586-589. */
    method RecordCancelled(c: nat)
      requires Valid() && Linked(View())
      requires c in calls && calls[c].CancelNotified? ==> calls[c].id in tokens
      modifies `completedTasks, `calls, `tokens
      ensures Valid() && View() == ClientAfter(old(View()), c, RecordCancel)
    {
      hide Valid, ClientAfter, Linked, Ids;
      RecordCancelIs(View(), c);
      if c in calls && calls[c].CancelNotified? {
        var id := calls[c].id;
        Record(id, Cancelled, RecordStatus(tokens[id], Cancelled));
        calls := calls - {c};
      }
    }

    // ---------- runSchedulerLoop ----------

    /** Line 228. */
    method TestRunningFlag()
      requires Valid() && Linked(View())
      modifies `sched
      ensures Valid() && View() == SchedAfter(old(View()), TestRunning)
    {
      hide Valid;
      if sched.LoopTop? {
        sched := if isRunning then WaitingForWork else Done;
      }
    }

    /** Lines 230-240: the wait ends, with the queue mutex taken. */
    method WakeUpForWork()
      requires Valid() && Linked(View())
      modifies `sched
      ensures Valid() && View() == SchedAfter(old(View()), WakeForWork)
    {
      hide Valid;
      EmptyQueue();
      if sched.WaitingForWork? && (!isRunning || !taskQueue.IsEmpty()) {
        sched := if isRunning then Checked else Done;
      }
    }

    lemma EmptyQueue()
      ensures taskQueue.IsEmpty() <==> Ids(taskQueue.pq) == multiset{}
    {
      if !taskQueue.IsEmpty() {
        IdOfQueued(taskQueue.pq, taskQueue.pq[0].id);
      }
    }

    /** Lines 243-263: a task that is not due goes back and the thread waits for its start time. */
    method PopNextTask() returns (ghost id: Id)
      requires Valid() && Linked(View()) && sched.Checked? && !taskQueue.IsEmpty()
      modifies taskQueue`pq, `sched, `tokens
      ensures Valid() && SchedEnabled(old(View()), PopTask(id))
      ensures View() == SchedAfter(old(View()), PopTask(id))
    {
      hide Valid, SchedAfter, Linked, SchedEnabled;
      var task := PopLeast();
      TestStartTime(task.id);
      PopIs(old(View()), task.id);
      id := task.id;
    }

    method TestStartTime(id: Id)
      requires Valid() && id in tokens
      modifies taskQueue`pq, `sched, `tokens
      ensures Valid()
      ensures View() == Settle(old(View()), id)
    {
      hide Valid;
      TaskOf(id);
      if tasks[id].startTime > now.system {
        PutBack(id);
      } else {
        KeepInHand(id);
      }
    }

    method PutBack(id: Id)
      requires Valid() && id in tokens
      modifies taskQueue`pq, `sched
      ensures Valid() && View() == old(View()).(queue := old(View().queue) + multiset{id}, sched := Sleeping)
    {
      hide Valid;
      PushTask(id);
      sched := Sleeping;
    }

    method KeepInHand(id: Id)
      requires Valid() && id in tokens
      modifies `sched, `tokens
      ensures Valid()
      ensures View() == old(View()).(tokens := old(tokens)[id := old(tokens)[id].(loc := InHand(Popped))],
                                     sched := Holding(id, Popped))
    {
      hide Valid;
      Note(id, tokens[id].(loc := InHand(Popped)));
      sched := Holding(id, Popped);
    }

    /** Lines 254-259: the timed wait ends. */
    method WakeUpForTime()
      requires Valid() && Linked(View())
      modifies `sched
      ensures Valid() && View() == SchedAfter(old(View()), WakeForTime)
    {
      hide Valid;
      if sched.Sleeping? {
        sched := if isRunning then LoopTop else Done;
      }
    }

    /** Lines 270-279: the search in activeTasks. */
    method LookUpTask()
      requires Valid() && Linked(View()) && sched.Holding? && sched.phase.Popped?
      modifies `sched, `tokens, `log
      ensures Valid() && View() == SchedAfter(old(View()), Decide)
    {
      hide Valid;
      TaskOf(sched.id);
      ContinueIf(sched.id in activeTasks, LookedUp);
    }

    /** Line 282: a cancelled task is skipped. */
    method TestCancelled()
      requires Valid() && Linked(View()) && sched.Holding? && sched.phase.LookedUp?
      modifies `sched, `tokens, `log
      ensures Valid() && View() == SchedAfter(old(View()), Decide)
    {
      hide Valid;
      TaskOf(sched.id);
      ContinueIf(tasks[sched.id].status != Cancelled, Approved);
    }

    /** Go on with the popped task, or skip it. */
    method ContinueIf(condition: bool, next: Phase)
      requires Valid() && sched.Holding? && sched.id in tokens
      modifies `sched, `tokens, `log
      ensures Valid()
      ensures View() == old(View()).(
                tokens := old(tokens)[old(sched).id :=
                  old(tokens[sched.id]).(loc := if condition then InHand(next) else Skipped)],
                sched := if condition then Holding(old(sched).id, next) else LoopTop,
                log := if condition then old(log) else old(log).(skipped := old(log).skipped + 1))
    {
      hide Valid;
      Note(sched.id, tokens[sched.id].(loc := if condition then InHand(next) else Skipped));
      if condition {
        sched := Holding(sched.id, next);
      } else {
        log := log.(skipped := log.skipped + 1);
        sched := LoopTop;
      }
    }

    /** Line 287. */
    method MarkRunning()
      requires Valid() && Linked(View()) && sched.Holding? && sched.phase.Approved?
      modifies `sched, tasks.Values`status, `tokens
      ensures Valid() && View() == SchedAfter(old(View()), Decide)
    {
      hide Valid;
      SetStatusOf(sched.id, Running, SetStatus(tokens[sched.id], Running).(loc := InHand(Marked)));
      sched := Holding(sched.id, Marked);
    }

    method DecideOnTask()
      requires Valid() && Linked(View())
      modifies `sched, tasks.Values`status, `tokens, `log
      ensures Valid() && View() == SchedAfter(old(View()), Decide)
    {
      hide Valid;
      if sched.Holding? {
        match sched.phase
        case Popped => LookUpTask();
        case LookedUp => TestCancelled();
        case Approved => MarkRunning();
        case Marked =>
      }
    }

    /** Line 289: the critical section of ThreadPool::enqueueTask. */
    method EnqueueJob()
      requires Valid() && Linked(View())
      modifies threadPool, `sched, `tokens
      ensures Valid() && View() == SchedAfter(old(View()), Enqueue)
    {
      hide Valid;
      if sched.Holding? && sched.phase.Marked? {
        var ok := threadPool.PushJob(sched.id);
        if ok {
          Note(sched.id, tokens[sched.id].(loc := InPool));
          sched := Notifying;
        }
      }
    }

    method NotifyPool(woken: Option<nat>)
      requires Valid() && Linked(View())
      modifies threadPool, `sched
      ensures Valid() && View() == SchedAfter(old(View()), Notify(woken))
    {
      hide Valid;
      if sched.Notifying? {
        var ok := threadPool.NotifyOne(woken);
        if ok {
          sched := LoopTop;
        }
      }
    }

    // ---------- executeAndFinalizeTask ----------

    /** Lines 369-374 and 510: the steady clock is read and the task function is called. */
    method BeginRun(w: nat)
      requires Valid() && AtPoint(View(), w, Quiet) && exec[w].at.Taken?
      modifies `exec, `began, `tokens
      ensures Valid() && View() == WorkNext(old(View()), w, Quiet)
    {
      hide Valid, Linked, WorkNext, WorkerEnabled, Ids;
      StatementIs(View(), w, Quiet);
      var id := exec[w].id;
      StartTimer(id, WorkToken(tokens[id], w, Taken, Quiet, now));
      exec := exec[w := Exec(id, Executing)];
    }

    method StartTimer(id: Id, ghost t: Token)
      requires Valid() && id in tokens && t == tokens[id].(loc := t.loc, hist := t.hist)
      requires t.hist.began == tokens[id].hist.began + [now.steady]
      modifies `began, `tokens
      ensures Valid() && tokens == old(tokens)[id := t]
    {
      hide TaskQueue.Valid, QueueShares, AllAgree;
      Shape(id);
      began, tokens := began[id := now.steady], tokens[id := t];
      assert Agree(id, EntryOf(id));
      hide Agree;
      OnlyChanged(id);
    }

    /** Lines 511-514: the task function returns or throws, and the steady clock is read again. */
    method EndRun(w: nat, choice: Choice)
      requires Valid() && AtPoint(View(), w, choice) && exec[w].at.Executing? && Started(View(), w)
      modifies `exec, `tokens
      ensures Valid() && View() == WorkNext(old(View()), w, choice)
    {
      hide Valid, Linked, WorkNext, WorkerEnabled, Ids;
      StatementIs(View(), w, choice);
      var id := exec[w].id;
      TaskOf(id);
      TimerOf(id);
      var elapsed := Since(began[id], now.steady);
      var next := AfterRun(tasks[id].config.timeout, choice, elapsed);
      Note(id, WorkToken(tokens[id], w, Executing, choice, now));
      exec := exec[w := Exec(id, next)];
    }

    lemma TimerOf(id: Id)
      requires Valid() && id in tokens && tokens[id].hist.began != []
      ensures id in began && began[id] == tokens[id].hist.began[|tokens[id].hist.began| - 1]
    {
      assert Agree(id, EntryOf(id));
    }

    /** Lines 328, 340, 383 or 398, and 517: one atomic store. */
    method WriteStatus(w: nat)
      requires Valid() && AtPoint(View(), w, Quiet)
      requires exec[w].at.TimeoutSet? || exec[w].at.DoneSet? || exec[w].at.Reset? || exec[w].at.FailSet?
      modifies tasks.Values`status, `exec, `tokens
      ensures Valid() && View() == WorkNext(old(View()), w, Quiet)
    {
      hide Valid, Linked, WorkNext, WorkerEnabled, Ids;
      StatementIs(View(), w, Quiet);
      var id := exec[w].id;
      var status, next;
      match exec[w].at {
        case TimeoutSet => status, next := TimedOut, TimeoutCount;
        case DoneSet => status, next := Completed, DoneCount;
        case Reset => status, next := Pending, Repush;
        case FailSet => status, next := Failed, FailCount;
      }
      SetStatusOf(id, status, WorkToken(tokens[id], w, exec[w].at, Quiet, now));
      exec := exec[w := Exec(id, next)];
    }

    /** updateStatistics, lines 543-564. */
    method UpdateStatistics(w: nat)
      requires Valid() && AtPoint(View(), w, Quiet)
      requires exec[w].at.TimeoutCount? || exec[w].at.DoneCount? || exec[w].at.FailCount?
      modifies `stats, `exec, `tokens
      ensures Valid() && View() == WorkNext(old(View()), w, Quiet)
    {
      hide Valid, Linked, WorkNext, WorkerEnabled, Ids;
      StatementIs(View(), w, Quiet);
      var id := exec[w].id;
      var next;
      match exec[w].at {
        case TimeoutCount => stats := stats.(tasksTimeout := stats.tasksTimeout + 1); next := TimeoutCallback;
        case DoneCount => stats := stats.(tasksCompleted := stats.tasksCompleted + 1); next := DoneCallback;
        case FailCount => stats := stats.(tasksFailed := stats.tasksFailed + 1); next := FailCallback;
      }
      Note(id, WorkToken(tokens[id], w, exec[w].at, Quiet, now));
      exec := exec[w := Exec(id, next)];
    }

    /** notifyTaskCompletion, lines 579-584. An exception reaches the catch branch, or from there the worker. */
    method CallBackFromWorker(w: nat, choice: Choice)
      requires Valid() && AtPoint(View(), w, choice)
      requires exec[w].at.TimeoutCallback? || exec[w].at.DoneCallback? || exec[w].at.FailCallback?
      modifies `exec, `tokens, `log
      ensures Valid() && View() == WorkNext(old(View()), w, choice)
    {
      hide Valid, Linked, WorkNext, WorkerEnabled, Ids;
      StatementIs(View(), w, choice);
      var id := exec[w].id;
      var next;
      match exec[w].at {
        case TimeoutCallback => next := if choice.Threw? then FailSet else TimeoutRecord;
        case DoneCallback => next := if choice.Threw? then FailSet else DoneRecord;
        case FailCallback => next := if choice.Threw? then Finished else FailRecord;
      }
      Note(id, WorkToken(tokens[id], w, exec[w].at, choice, now));
      log := if next.FailSet? then log.(reentered := log.reentered + 1) else log;
      exec := exec[w := Exec(id, next)];
    }

    /** notifyTaskCompletion, lines 586-589, and the branch at line 335. */
    method RecordOutcome(w: nat)
      requires Valid() && AtPoint(View(), w, Quiet)
      requires exec[w].at.TimeoutRecord? || exec[w].at.DoneRecord? || exec[w].at.FailRecord?
      modifies `completedTasks, `exec, `tokens
      ensures Valid() && View() == WorkNext(old(View()), w, Quiet)
    {
      hide Valid, Linked, WorkNext, WorkerEnabled, Ids;
      StatementIs(View(), w, Quiet);
      var id := exec[w].id;
      TaskOf(id);
      var status, next;
      match exec[w].at {
        case TimeoutRecord => status, next := TimedOut, TimeoutErase;
        case DoneRecord =>
          status, next := Completed, if tasks[id].config.isRepeatable then Point.Reschedule else DoneErase;
        case FailRecord => status, next := Failed, FailErase;
      }
      Record(id, status, WorkToken(tokens[id], w, exec[w].at, Quiet, now));
      exec := exec[w := Exec(id, next)];
    }

    /** Lines 350-351, 389-392 or 404-407, and 523-526. */
    method EraseFromActive(w: nat)
      requires Valid() && AtPoint(View(), w, Quiet)
      requires exec[w].at.TimeoutErase? || exec[w].at.DoneErase? || exec[w].at.FailErase?
      modifies `activeTasks, `exec, `tokens
      ensures Valid() && View() == WorkNext(old(View()), w, Quiet)
    {
      hide Valid, Linked, WorkNext, WorkerEnabled, Ids;
      StatementIs(View(), w, Quiet);
      var id := exec[w].id;
      Erase(id, WorkToken(tokens[id], w, exec[w].at, Quiet, now));
      exec := exec[w := Exec(id, Finished)];
    }

    /** Line 322: the result of a cancelled task is ignored. */
    method CheckCancelled(w: nat)
      requires Valid() && AtPoint(View(), w, Quiet) && exec[w].at.FinalCheck?
      modifies `exec, `tokens, `log
      ensures Valid() && View() == WorkNext(old(View()), w, Quiet)
    {
      hide Valid, Linked, WorkNext, WorkerEnabled, Ids;
      StatementIs(View(), w, Quiet);
      var id := exec[w].id;
      TaskOf(id);
      var cancelled := tasks[id].status == Cancelled;
      Note(id, WorkToken(tokens[id], w, FinalCheck, Quiet, now));
      log := if cancelled then log.(cancelledFinishes := log.cancelledFinishes + 1) else log;
      exec := exec[w := Exec(id, if cancelled then Finished else DoneSet)];
    }

    /** Line 338. */
    method RescheduleRepeatable(w: nat)
      requires Valid() && AtPoint(View(), w, Quiet) && exec[w].at.Reschedule? && exec[w].id !in Ids(taskQueue.pq)
      modifies tasks.Values`startTime, `exec, `tokens
      ensures Valid() && View() == WorkNext(old(View()), w, Quiet)
    {
      hide Valid, Linked, WorkNext, WorkerEnabled, Ids;
      StatementIs(View(), w, Quiet);
      var id := exec[w].id;
      RescheduleTask(id, WorkToken(tokens[id], w, Point.Reschedule, Quiet, now));
      exec := exec[w := Exec(id, Reset)];
    }

    /** Lines 343-344, when no other thread has the queue mutex. */
    method PushAgain(w: nat)
      requires Valid() && AtPoint(View(), w, Quiet) && exec[w].at.Repush?
      modifies taskQueue`pq, `exec, `tokens, `log
      ensures Valid() && View() == WorkNext(old(View()), w, Quiet)
    {
      hide Valid, Linked, WorkNext, WorkerEnabled, Ids;
      StatementIs(View(), w, Quiet);
      var id := exec[w].id;
      PushTask(id);
      Note(id, WorkToken(tokens[id], w, Repush, Quiet, now));
      log := log.(pushes := log.pushes + 1);
      exec := exec[w := Exec(id, Finished)];
    }

    /** runTaskWithTimeout. */
    method RunTaskWithTimeout(w: nat, choice: Choice)
      requires Valid() && AtPoint(View(), w, choice) && InRun(exec[w].at)
      requires exec[w].at.Executing? ==> Started(View(), w)
      modifies `exec, `began, `stats, `activeTasks, `completedTasks, `tokens, `log, tasks.Values`status
      ensures Valid() && View() == WorkNext(old(View()), w, choice)
    {
      hide Valid, Linked, WorkNext;
      match exec[w].at
      case Taken => BeginRun(w);
      case Executing => EndRun(w, choice);
      case TimeoutSet => WriteStatus(w);
      case TimeoutCount => UpdateStatistics(w);
      case TimeoutCallback => CallBackFromWorker(w, choice);
      case TimeoutRecord => RecordOutcome(w);
      case TimeoutErase => EraseFromActive(w);
    }

    /** finalizeCompletedTask. */
    method FinalizeCompletedTask(w: nat, choice: Choice)
      requires Valid() && AtPoint(View(), w, choice) && InFinalize(exec[w].at)
      requires exec[w].at.Reschedule? ==> exec[w].id !in Ids(taskQueue.pq)
      modifies `exec, `stats, `activeTasks, `completedTasks, `tokens, `log, taskQueue`pq, tasks.Values
      ensures Valid() && View() == WorkNext(old(View()), w, choice)
    {
      hide Valid, Linked, WorkNext;
      match exec[w].at
      case FinalCheck => CheckCancelled(w);
      case DoneSet => WriteStatus(w);
      case DoneCount => UpdateStatistics(w);
      case DoneCallback => CallBackFromWorker(w, choice);
      case DoneRecord => RecordOutcome(w);
      case Reschedule => RescheduleRepeatable(w);
      case Reset => WriteStatus(w);
      case Repush => PushAgain(w);
      case DoneErase => EraseFromActive(w);
    }

    /** The catch branches of executeAndFinalizeTask, which are the same. */
    method HandleException(w: nat, choice: Choice)
      requires Valid() && AtPoint(View(), w, choice) && !InRun(exec[w].at) && !InFinalize(exec[w].at)
      modifies `exec, `stats, `activeTasks, `completedTasks, `tokens, `log, tasks.Values`status
      ensures Valid() && View() == WorkNext(old(View()), w, choice)
    {
      hide Valid, Linked, WorkNext;
      match exec[w].at
      case FailSet => WriteStatus(w);
      case FailCount => UpdateStatistics(w);
      case FailCallback => CallBackFromWorker(w, choice);
      case FailRecord => RecordOutcome(w);
      case FailErase => EraseFromActive(w);
    }

    /** The worker executes its next statement, if the environment's choice fits it. */
    method DoStatement(w: nat, choice: Choice)
      requires Valid() && Linked(View())
      requires w in exec && exec[w].at.Reschedule? ==> exec[w].id !in Ids(taskQueue.pq)
      requires w in exec && exec[w].at.Executing? ==> Started(View(), w)
      modifies `exec, `began, `stats, `activeTasks, `completedTasks, `tokens, `log, taskQueue`pq, tasks.Values
      ensures Valid() && View() == WorkerAfter(old(View()), w, Statement(choice))
    {
      hide Valid, Linked, WorkNext;
      if && w in exec && !exec[w].at.Finished? && ChoiceFits(exec[w].at, choice)
         && (exec[w].at.Repush? ==> !sched.Checked?) {
        if InRun(exec[w].at) {
          RunTaskWithTimeout(w, choice);
        } else if InFinalize(exec[w].at) {
          FinalizeCompletedTask(w, choice);
        } else {
          HandleException(w, choice);
        }
      }
    }

    // ---------- workerLoop ----------

    /** A worker takes the front job and calls it. */
    method TakeNextJob(w: nat)
      requires Valid() && Linked(View())
      modifies threadPool, `exec, `tokens
      ensures Valid() && View() == WorkerAfter(old(View()), w, TakeJob)
    {
      hide Valid, Linked, WorkerAfter;
      TakeJobIs(View(), w);
      var ok := threadPool.Dequeue(w);
      if ok {
        var id := threadPool.workers[w].job;
        Note(id, tokens[id].(loc := OnWorker(w, Taken)));
        exec := exec[w := Exec(id, Taken)];
      }
    }

    method FinishJob(w: nat)
      requires Valid() && Linked(View())
      modifies threadPool, `exec
      ensures Valid() && View() == WorkerAfter(old(View()), w, WorkerOp.Finish)
    {
      hide Valid;
      if w in exec && exec[w].at.Finished? {
        var ok := threadPool.Finish(w);
        if ok {
          exec := exec - {w};
        }
      }
    }

    /** The steps of a worker that has no job. */
    method LoopStep(w: nat, op: WorkerOp)
      requires Valid() && Linked(View()) && !op.Statement? && !op.TakeJob? && !op.Finish?
      modifies threadPool
      ensures Valid() && View() == WorkerAfter(old(View()), w, op)
    {
      hide Valid, Linked;
      match op {
        case Acquire => var _ := threadPool.Acquire(w);
        case ReadStop => var _ := threadPool.ReadStop(w);
        case Block => var _ := threadPool.Block(w);
        case Spurious => var _ := threadPool.WakeSpuriously(w);
        case LoadStop => var _ := threadPool.LoadStop(w);
      }
    }

    // ---------- start and stop ----------

    /** start(): a second call while the scheduler runs does nothing. */
    method StartScheduler()
      requires Valid() && Linked(View())
      modifies `isRunning, `sched
      ensures Valid() && View() == CtlAfter(old(View()), Start)
    {
      hide Valid;
      if ctl.Idle? && !isRunning {
        isRunning := true;
        sched := LoopTop;
      }
    }

    /** Line 423. */
    method ClearRunningFlag()
      requires Valid() && Linked(View())
      modifies `isRunning, `ctl
      ensures Valid() && View() == CtlAfter(old(View()), ClearRunning)
    {
      hide Valid;
      if ctl.Idle? {
        isRunning := false;
        ctl := Cleared;
      }
    }

    /** Lines 427-429. */
    method JoinSchedulerThread()
      requires Valid() && Linked(View())
      modifies `sched, `ctl
      ensures Valid() && View() == CtlAfter(old(View()), JoinScheduler)
    {
      hide Valid;
      if ctl.Cleared? && (sched.Off? || sched.Done?) {
        sched := Off;
        ctl := StoppingPool;
      }
    }

    /** Line 430: ThreadPool::stop, up to the joins. */
    method StopPool(op: CtlOp)
      requires Valid() && Linked(View()) && (op.StoreStop? || op.NotifyAll? || op.JoinWorkers?)
      modifies threadPool
      ensures Valid() && View() == CtlAfter(old(View()), op)
    {
      hide Valid;
      if ctl.StoppingPool? {
        match op {
          case StoreStop => var _ := threadPool.StoreStop();
          case NotifyAll => var _ := threadPool.NotifyAll();
          case JoinWorkers => var _ := threadPool.Join();
        }
      }
    }

    /** ThreadPool::stop throws the jobs away that no worker took; stop() returns. */
    method DiscardPoolJobs()
      requires Valid() && Linked(View())
      modifies threadPool, `ctl, `tokens
      ensures Valid() && View() == CtlAfter(old(View()), DiscardJobs)
    {
      hide Valid;
      if ctl.StoppingPool? {
        var ok := threadPool.Discard();
        if ok {
          NoteDiscarded(old(threadPool.taskQueue));
          ctl := Idle;
        }
      }
    }

    ghost method NoteDiscarded(jobs: seq<Id>)
      requires Valid()
      modifies `tokens
      ensures Valid() && tokens == DiscardTokens(old(tokens), jobs)
    {
      tokens := DiscardTokens(tokens, jobs);
      forall id | id in tasks
        ensures Agree(id, EntryOf(id))
      {
        assert old(Agree(id, EntryOf(id)));
      }
    }

    // ---------- Any schedule ----------

    method DoClientOp(c: nat, op: ClientOp)
      requires Valid() && Safe(View())
      modifies this, taskQueue`pq, tasks.Values
      ensures Valid() && View() == ClientAfter(old(View()), c, op) && fresh(tasks.Values - old(tasks.Values))
    {
      hide Valid, Linked, ClientAfter;
      match op
      case Create(config) => CreateTask(c, config);
      case InsertActive => InsertIntoActive(c);
      case PushNew => PushNewTask(c);
      case CountScheduled => CountScheduledTask(c);
      case ReturnId => ReturnTaskId(c);
      case BeginCancel(id) => BeginCancelTask(c, id);
      case CancelInActive => SearchActive(c);
      case CancelInQueue => SearchQueue(c);
      case CountCancelled => CountCancelledTask(c);
      case CallBack(throws) => CancelCallBack(c, throws);
      case RecordCancel => RecordCancelled(c);
    }

    /** The heap, not the schedule, chooses the task that is popped. */
    method DoPop(asked: Id) returns (ghost done: SchedOp)
      requires Valid() && Safe(View())
      modifies taskQueue`pq, `sched, `tokens
      ensures Valid() && View() == SchedAfter(old(View()), done)
      ensures done == PopTask(asked) || (done.PopTask? && SchedEnabled(old(View()), done))
    {
      hide Valid, Linked, SchedAfter, SchedEnabled, Ids;
      if sched.Checked? {
        EmptyQueue();
        ghost var id := PopNextTask();
        done := PopTask(id);
      } else {
        NothingToPop(View(), asked);
        done := PopTask(asked);
      }
    }

    method DoSchedOp(op: SchedOp) returns (ghost done: SchedOp)
      requires Valid() && Safe(View())
      modifies this, taskQueue`pq, threadPool, tasks.Values
      ensures Valid() && tasks == old(tasks) && View() == SchedAfter(old(View()), done)
      ensures done == op || (op.PopTask? && done.PopTask? && SchedEnabled(old(View()), done))
    {
      hide Valid, Linked, SchedAfter, SchedEnabled, Ids;
      done := op;
      match op
      case TestRunning => TestRunningFlag();
      case WakeForWork => WakeUpForWork();
      case PopTask(id) => done := DoPop(id);
      case WakeForTime => WakeUpForTime();
      case Decide => DecideOnTask();
      case Enqueue => EnqueueJob();
      case Notify(woken) => NotifyPool(woken);
    }

    method DoWorkerOp(w: nat, op: WorkerOp)
      requires Valid() && Safe(View())
      modifies this, taskQueue`pq, threadPool, tasks.Values
      ensures Valid() && tasks == old(tasks) && View() == WorkerAfter(old(View()), w, op)
    {
      hide Valid, Linked, WorkerAfter;
      match op
      case Statement(choice) => DoStatement(w, choice);
      case TakeJob => TakeNextJob(w);
      case Finish => FinishJob(w);
      case _ => LoopStep(w, op);
    }

    method DoCtlOp(op: CtlOp)
      requires Valid() && Linked(View())
      modifies this, threadPool
      ensures Valid() && tasks == old(tasks) && View() == CtlAfter(old(View()), op)
    {
      hide Valid, Linked, CtlAfter;
      match op
      case Start => StartScheduler();
      case ClearRunning => ClearRunningFlag();
      case JoinScheduler => JoinSchedulerThread();
      case DiscardJobs => DiscardPoolJobs();
      case _ => StopPool(op);
    }

    /** One step of one thread. */
    method Do(st: Step) returns (ghost done: Step)
      requires Valid() && Reachable(View())
      modifies this, taskQueue`pq, threadPool, tasks.Values
      ensures Valid() && Reachable(View()) && View() == Apply(old(View()), done) && SameButPop(st, done)
      ensures fresh(tasks.Values - old(tasks.Values))
    {
      hide Valid, Linked, Reachable, ClientAfter, SchedAfter, WorkerAfter, CtlAfter, Apply;
      ReachableIsSafe(View());
      done := st;
      match st {
        case Tick(ticks, steadyTicks) => Tick(ticks, steadyTicks);
        case Client(c, op) => DoClientOp(c, op);
        case Sched(op) =>
          ghost var popped := DoSchedOp(op);
          done := Sched(popped);
        case Worker(w, op) => DoWorkerOp(w, op);
        case Ctl(op) => DoCtlOp(op);
      }
      ApplyIs(old(View()), done);
      StepReachable(old(View()), done);
    }

    /** An arbitrary interleaving of all threads. The object goes through states that the model reaches, so
        everything proved about reachable states holds of it. */
    method Run(schedule: seq<Step>) returns (ghost done: seq<Step>)
      requires Valid() && Reachable(View())
      modifies this, taskQueue`pq, threadPool, tasks.Values
      ensures Valid() && Reachable(View()) && View() == Protocol.Run(old(View()), done)
      ensures |done| == |schedule| && forall i :: 0 <= i < |schedule| ==> SameButPop(schedule[i], done[i])
    {
      hide Valid, Linked, Reachable, Apply;
      done := [];
      for i := 0 to |schedule|
        invariant Valid() && Reachable(View()) && View() == Protocol.Run(old(View()), done)
        invariant |done| == i && forall k :: 0 <= k < i ==> SameButPop(schedule[k], done[k])
        invariant fresh(tasks.Values - old(tasks.Values))
      {
        ghost var step := Do(schedule[i]);
        assert (done + [step])[..i] == done;
        done := done + [step];
      }
    }
  }
}
