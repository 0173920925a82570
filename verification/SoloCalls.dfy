/** What a scheduleTask or cancelTask call does when no other thread comes between its steps. */
module SoloCalls {
  import opened TaskIds
  import opened Tasks
  import opened Lifecycle
  import opened Protocol
  import opened Restarts

  lemma RunCons(s: State, st: Step, rest: seq<Step>)
    ensures Run(s, [st] + rest) == Run(Apply(s, st), rest)
  {
    hide Apply;
    RunAppend(s, [st], rest);
    RunOne(s, st);
  }

  // ---------- scheduleTask ----------

  function ScheduleCall(c: nat, config: Config): seq<Step> {
    [Client(c, Create(config))] + ([Client(c, InsertActive)] + PushAndReturn(c))
  }

  function PushAndReturn(c: nat): seq<Step> {
    [Client(c, PushNew)] + ([Client(c, CountScheduled)] + [Client(c, ReturnId)])
  }

  lemma CreateIs(s: State, c: nat, config: Config)
    requires Linked(s) && c !in s.calls
    ensures var id := GenerateTaskId(s.nextId);
            && Linked(Apply(s, Client(c, Create(config))))
            && Apply(s, Client(c, Create(config))) == s.(
                 nextId := s.nextId + 1, tokens := s.tokens[id := NewToken(config, c)],
                 calls := s.calls[c := Created(id)])
  {
  }

  lemma InsertIs(s: State, c: nat, id: Id)
    requires Linked(s) && c in s.calls && s.calls[c] == Created(id)
    ensures id in s.tokens && Linked(Apply(s, Client(c, InsertActive)))
    ensures Apply(s, Client(c, InsertActive)) ==
            s.(tokens := s.tokens[id := s.tokens[id].(active := true, loc := AtClient(c, true))],
               calls := s.calls[c := Inserted(id)])
  {
  }

  lemma PushIs(s: State, c: nat, id: Id)
    requires Linked(s) && c in s.calls && s.calls[c] == Inserted(id) && QueueFree(s)
    ensures id in s.tokens && Linked(Apply(s, Client(c, PushNew)))
    ensures Apply(s, Client(c, PushNew)) ==
            s.(tokens := s.tokens[id := s.tokens[id].(loc := InQueue)], calls := s.calls[c := Pushed(id)],
               queue := s.queue + multiset{id}, log := s.log.(pushes := s.log.pushes + 1))
  {
  }

  lemma CountIs(s: State, c: nat, id: Id)
    requires Linked(s) && c in s.calls && s.calls[c] == Pushed(id)
    ensures Linked(Apply(s, Client(c, CountScheduled)))
    ensures Apply(s, Client(c, CountScheduled)) ==
            s.(stats := s.stats.(totalTasksScheduled := s.stats.totalTasksScheduled + 1),
               calls := s.calls[c := Counted(id)])
  {
  }

  lemma ReturnIs(s: State, c: nat, id: Id)
    requires Linked(s) && c in s.calls && s.calls[c] == Counted(id)
    ensures Apply(s, Client(c, ReturnId)) == s.(returned := s.returned + {id}, calls := s.calls - {c})
  {
  }

  lemma CountsAndReturns(s: State, c: nat, id: Id)
    requires Linked(s) && c in s.calls && s.calls[c] == Pushed(id)
    ensures Run(s, [Client(c, CountScheduled)] + [Client(c, ReturnId)]) ==
            s.(stats := s.stats.(totalTasksScheduled := s.stats.totalTasksScheduled + 1),
               returned := s.returned + {id}, calls := s.calls - {c})
  {
    hide Linked, Apply, Run;
    var t := Apply(s, Client(c, CountScheduled));
    CountIs(s, c, id);
    ReturnIs(t, c, id);
    RunCons(s, Client(c, CountScheduled), [Client(c, ReturnId)]);
    RunOne(t, Client(c, ReturnId));
    assert t.calls - {c} == s.calls - {c};
  }

  lemma PushesAndReturns(s: State, c: nat, id: Id)
    requires Linked(s) && c in s.calls && s.calls[c] == Inserted(id) && QueueFree(s)
    ensures id in s.tokens
    ensures Run(s, PushAndReturn(c)) ==
            s.(tokens := s.tokens[id := s.tokens[id].(loc := InQueue)], queue := s.queue + multiset{id},
               stats := s.stats.(totalTasksScheduled := s.stats.totalTasksScheduled + 1),
               returned := s.returned + {id}, calls := s.calls - {c}, log := s.log.(pushes := s.log.pushes + 1))
  {
    hide Linked, Apply, Run;
    var t := Apply(s, Client(c, PushNew));
    PushIs(s, c, id);
    CountsAndReturns(t, c, id);
    RunCons(s, Client(c, PushNew), [Client(c, CountScheduled)] + [Client(c, ReturnId)]);
    assert t.calls - {c} == s.calls - {c};
  }

  lemma InsertsAndReturns(s: State, c: nat, id: Id)
    requires Linked(s) && c in s.calls && s.calls[c] == Created(id) && QueueFree(s)
    ensures id in s.tokens
    ensures Run(s, [Client(c, InsertActive)] + PushAndReturn(c)) ==
            s.(tokens := s.tokens[id := s.tokens[id].(active := true, loc := InQueue)], queue := s.queue + multiset{id},
               stats := s.stats.(totalTasksScheduled := s.stats.totalTasksScheduled + 1),
               returned := s.returned + {id}, calls := s.calls - {c}, log := s.log.(pushes := s.log.pushes + 1))
  {
    hide Linked, Apply, Run, PushAndReturn;
    var t := Apply(s, Client(c, InsertActive));
    InsertIs(s, c, id);
    PushesAndReturns(t, c, id);
    RunCons(s, Client(c, InsertActive), PushAndReturn(c));
    assert t.calls - {c} == s.calls - {c};
    assert t.tokens[id := t.tokens[id].(loc := InQueue)] ==
           s.tokens[id := s.tokens[id].(active := true, loc := InQueue)];
  }

  /** The whole call: one new task, registered, queued, counted and returned; nothing else changes. */
  lemma Schedules(s: State, c: nat, config: Config)
    requires Linked(s) && c !in s.calls && QueueFree(s)
    ensures var id := GenerateTaskId(s.nextId);
            Run(s, ScheduleCall(c, config)) == s.(
              nextId := s.nextId + 1,
              tokens := s.tokens[id := NewToken(config, c).(active := true, loc := InQueue)],
              queue := s.queue + multiset{id},
              stats := s.stats.(totalTasksScheduled := s.stats.totalTasksScheduled + 1),
              returned := s.returned + {id},
              log := s.log.(pushes := s.log.pushes + 1))
  {
    hide Linked, Apply, Run, PushAndReturn;
    var id, t := GenerateTaskId(s.nextId), Apply(s, Client(c, Create(config)));
    CreateIs(s, c, config);
    InsertsAndReturns(t, c, id);
    RunCons(s, Client(c, Create(config)), [Client(c, InsertActive)] + PushAndReturn(c));
    assert t.calls - {c} == s.calls;
    assert t.tokens[id := t.tokens[id].(active := true, loc := InQueue)] ==
           s.tokens[id := NewToken(config, c).(active := true, loc := InQueue)];
  }

  // ---------- cancelTask ----------

  /** The callback returns. */
  function CancelCall(c: nat, id: Id): seq<Step> {
    [Client(c, BeginCancel(id))] + ([Client(c, CancelInActive)] + ([Client(c, CancelInQueue)] + Confirm(c)))
  }

  function Confirm(c: nat): seq<Step> {
    [Client(c, CountCancelled)] + ([Client(c, CallBack(false))] + [Client(c, RecordCancel)])
  }

  lemma BeginIs(s: State, c: nat, id: Id)
    requires Linked(s) && c !in s.calls && (id in s.returned || !IsTaskId(id))
    ensures Apply(s, Client(c, BeginCancel(id))) == s.(calls := s.calls[c := CancelBegun(id)])
    ensures Linked(Apply(s, Client(c, BeginCancel(id))))
  {
  }

  lemma SearchIs(s: State, c: nat, id: Id)
    requires Linked(s) && c in s.calls && s.calls[c] == CancelBegun(id)
    ensures Linked(Apply(s, Client(c, CancelInActive)))
    ensures Apply(s, Client(c, CancelInActive)) ==
            if IsActive(s, id)
            then s.(tokens := s.tokens[id := CancelToken(s.tokens[id])], calls := s.calls[c := CancelHit(id)])
            else s.(calls := s.calls[c := CancelMissed(id)])
  {
  }

  lemma QueueSearchIs(s: State, c: nat, id: Id)
    requires Linked(s) && c in s.calls && s.calls[c] == CancelMissed(id) && QueueFree(s)
    ensures id in s.queue ==> id in s.tokens && Linked(Apply(s, Client(c, CancelInQueue)))
    ensures Apply(s, Client(c, CancelInQueue)) ==
            if id in s.queue
            then s.(tokens := s.tokens[id := DropToken(s.tokens[id])], queue := s.queue[id := 0],
                    log := s.log.(dropped := s.log.dropped + s.queue[id]), calls := s.calls[c := CancelHit(id)])
            else s.(calls := s.calls - {c})
  {
  }

  /** Steps of a call that is not there, or not at this point, do nothing. */
  lemma NoCall(s: State, c: nat)
    requires c !in s.calls
    ensures Run(s, Confirm(c)) == s
  {
    RunCons(s, Client(c, CountCancelled), [Client(c, CallBack(false))] + [Client(c, RecordCancel)]);
    RunCons(s, Client(c, CallBack(false)), [Client(c, RecordCancel)]);
    RunOne(s, Client(c, RecordCancel));
  }

  lemma NoSecondSearch(s: State, c: nat)
    requires c in s.calls && s.calls[c].CancelHit?
    ensures Apply(s, Client(c, CancelInQueue)) == s
  {
  }

  lemma CountCancelIs(s: State, c: nat, id: Id)
    requires Linked(s) && c in s.calls && s.calls[c] == CancelHit(id)
    ensures Linked(Apply(s, Client(c, CountCancelled)))
    ensures Apply(s, Client(c, CountCancelled)) ==
            s.(stats := s.stats.(tasksCancelled := s.stats.tasksCancelled + 1),
               calls := s.calls[c := CancelCounted(id)])
  {
  }

  lemma CallBackIs(s: State, c: nat, id: Id)
    requires Linked(s) && c in s.calls && s.calls[c] == CancelCounted(id) && id in s.tokens
    ensures Linked(Apply(s, Client(c, CallBack(false))))
    ensures Apply(s, Client(c, CallBack(false))) ==
            s.(tokens := s.tokens[id := CalledToken(s.tokens[id], false)], calls := s.calls[c := CancelNotified(id)])
  {
  }

  lemma RecordIs(s: State, c: nat, id: Id)
    requires Linked(s) && c in s.calls && s.calls[c] == CancelNotified(id) && id in s.tokens
    ensures Apply(s, Client(c, RecordCancel)) ==
            s.(tokens := s.tokens[id := RecordStatus(s.tokens[id], Cancelled)], calls := s.calls - {c})
  {
  }

  lemma Confirms(s: State, c: nat, id: Id)
    requires Linked(s) && c in s.calls && s.calls[c] == CancelHit(id) && id in s.tokens
    ensures Run(s, Confirm(c)) ==
            s.(tokens := s.tokens[id := RecordStatus(CalledToken(s.tokens[id], false), Cancelled)],
               stats := s.stats.(tasksCancelled := s.stats.tasksCancelled + 1), calls := s.calls - {c})
  {
    hide Linked, Apply, Run;
    var t := Apply(s, Client(c, CountCancelled));
    var u := Apply(t, Client(c, CallBack(false)));
    CountCancelIs(s, c, id);
    CallBackIs(t, c, id);
    RecordIs(u, c, id);
    RunCons(s, Client(c, CountCancelled), [Client(c, CallBack(false))] + [Client(c, RecordCancel)]);
    RunCons(t, Client(c, CallBack(false)), [Client(c, RecordCancel)]);
    RunOne(u, Client(c, RecordCancel));
    assert u.calls - {c} == s.calls - {c};
    assert u.tokens[id := RecordStatus(u.tokens[id], Cancelled)] ==
           s.tokens[id := RecordStatus(CalledToken(s.tokens[id], false), Cancelled)];
  }

  /** What a successful call makes of the task, when the search has made t of it. */
  function Confirmed(s: State, id: Id, t: Token): State {
    s.(tokens := s.tokens[id := RecordStatus(CalledToken(t, false), Cancelled)],
       stats := s.stats.(tasksCancelled := s.stats.tasksCancelled + 1))
  }

  /** A hit in the queue. */
  function DroppedFrom(s: State, id: Id): State
    requires id in s.tokens
  {
    Confirmed(s, id, DropToken(s.tokens[id])).(
      queue := s.queue[id := 0], log := s.log.(dropped := s.log.dropped + s.queue[id]))
  }

  /** What cancelTask does after a miss in activeTasks. */
  function AfterMiss(s: State, id: Id): State {
    if id in s.queue && id in s.tokens then DroppedFrom(s, id) else s
  }

  /** What cancelTask does. */
  function AfterCancel(s: State, id: Id): State {
    if IsActive(s, id) then Confirmed(s, id, CancelToken(s.tokens[id])) else AfterMiss(s, id)
  }

  lemma ConfirmedAside(s: State, calls: map<nat, Call>, id: Id, t: Token)
    ensures Confirmed(s.(calls := calls), id, t) == Confirmed(s, id, t).(calls := calls)
  {
  }

  lemma MissAside(s: State, calls: map<nat, Call>, id: Id)
    ensures AfterMiss(s.(calls := calls), id) == AfterMiss(s, id).(calls := calls)
  {
    hide Confirmed, DropToken;
    if id in s.queue && id in s.tokens {
      ConfirmedAside(s, calls, id, DropToken(s.tokens[id]));
    }
  }

  /** The open calls do not matter. */
  lemma CallsAside(s: State, calls: map<nat, Call>, id: Id)
    ensures AfterMiss(s.(calls := calls), id) == AfterMiss(s, id).(calls := calls)
    ensures AfterCancel(s.(calls := calls), id) == AfterCancel(s, id).(calls := calls)
  {
    hide Confirmed, AfterMiss, CancelToken;
    MissAside(s, calls, id);
    if IsActive(s, id) {
      ConfirmedAside(s, calls, id, CancelToken(s.tokens[id]));
    }
  }

  lemma DropsAndConfirms(s: State, c: nat, id: Id)
    requires Linked(s) && c in s.calls && s.calls[c] == CancelMissed(id) && QueueFree(s) && id in s.queue
    ensures id in s.tokens
    ensures Run(s, [Client(c, CancelInQueue)] + Confirm(c)) == DroppedFrom(s, id).(calls := s.calls - {c})
  {
    hide Linked, Apply, Run, Confirm, RecordStatus, CalledToken, DropToken;
    var t := Apply(s, Client(c, CancelInQueue));
    QueueSearchIs(s, c, id);
    RunCons(s, Client(c, CancelInQueue), Confirm(c));
    Confirms(t, c, id);
    assert t.calls - {c} == s.calls - {c};
    assert t.tokens[id := RecordStatus(CalledToken(t.tokens[id], false), Cancelled)] ==
           s.tokens[id := RecordStatus(CalledToken(t.tokens[id], false), Cancelled)];
  }

  lemma FromQueueSearch(s: State, c: nat, id: Id)
    requires Linked(s) && c in s.calls && s.calls[c] == CancelMissed(id) && QueueFree(s)
    ensures Run(s, [Client(c, CancelInQueue)] + Confirm(c)) == AfterMiss(s, id).(calls := s.calls - {c})
  {
    hide Linked, Apply, Run, Confirm, DroppedFrom;
    if id in s.queue {
      DropsAndConfirms(s, c, id);
    } else {
      QueueSearchIs(s, c, id);
      RunCons(s, Client(c, CancelInQueue), Confirm(c));
      NoCall(Apply(s, Client(c, CancelInQueue)), c);
    }
  }

  lemma FromHit(s: State, c: nat, id: Id)
    requires Linked(s) && c in s.calls && s.calls[c] == CancelHit(id) && id in s.tokens
    ensures Run(s, [Client(c, CancelInQueue)] + Confirm(c)) == Confirmed(s, id, s.tokens[id]).(calls := s.calls - {c})
  {
    hide Linked, Apply, Run, Confirm;
    NoSecondSearch(s, c);
    RunCons(s, Client(c, CancelInQueue), Confirm(c));
    Confirms(s, c, id);
  }

  lemma HitsAndConfirms(s: State, c: nat, id: Id)
    requires Linked(s) && c in s.calls && s.calls[c] == CancelBegun(id) && IsActive(s, id)
    ensures Run(s, [Client(c, CancelInActive)] + ([Client(c, CancelInQueue)] + Confirm(c))) ==
            AfterCancel(s, id).(calls := s.calls - {c})
  {
    hide Linked, Apply, Run, Confirm, RecordStatus, CalledToken, CancelToken;
    var t := Apply(s, Client(c, CancelInActive));
    SearchIs(s, c, id);
    RunCons(s, Client(c, CancelInActive), [Client(c, CancelInQueue)] + Confirm(c));
    assert t.calls - {c} == s.calls - {c};
    FromHit(t, c, id);
    assert Confirmed(t, id, t.tokens[id]).tokens == Confirmed(s, id, CancelToken(s.tokens[id])).tokens;
  }

  lemma FromSearch(s: State, c: nat, id: Id)
    requires Linked(s) && c in s.calls && s.calls[c] == CancelBegun(id) && QueueFree(s)
    ensures Run(s, [Client(c, CancelInActive)] + ([Client(c, CancelInQueue)] + Confirm(c))) ==
            AfterCancel(s, id).(calls := s.calls - {c})
  {
    hide Linked, Apply, Run, Confirm, AfterMiss, CancelToken, Confirmed;
    if IsActive(s, id) {
      HitsAndConfirms(s, c, id);
    } else {
      var t := Apply(s, Client(c, CancelInActive));
      SearchIs(s, c, id);
      RunCons(s, Client(c, CancelInActive), [Client(c, CancelInQueue)] + Confirm(c));
      FromQueueSearch(t, c, id);
      CallsAside(s, t.calls, id);
      assert t.calls - {c} == s.calls - {c};
    }
  }

  /** The whole call: a task that is active, or failing that one that is queued, is cancelled; otherwise nothing
      happens. */
  lemma Cancels(s: State, c: nat, id: Id)
    requires Linked(s) && c !in s.calls && (id in s.returned || !IsTaskId(id)) && QueueFree(s)
    ensures Run(s, CancelCall(c, id)) == AfterCancel(s, id)
  {
    hide Linked, Apply, Run, Confirm, AfterCancel;
    var t := Apply(s, Client(c, BeginCancel(id)));
    BeginIs(s, c, id);
    FromSearch(t, c, id);
    CallsAside(s, t.calls, id);
    RunCons(s, Client(c, BeginCancel(id)), [Client(c, CancelInActive)] + ([Client(c, CancelInQueue)] + Confirm(c)));
    assert t.calls - {c} == s.calls;
    CallsAside(s, s.calls, id);
  }
}
