/** What has been done about a task besides running it: its cancellation, the callbacks, the records in
    completedTasks, and its start times. */
module Journals {
  import opened Options
  import opened TaskIds
  import opened Tasks
  import opened Lifecycle
  import opened Protocol
  import opened Simulation
  import opened Invariant

  // ---------- What a worker's statement changes ----------

  function NewOutcome(t: Token): (r: seq<Outcome>)
    ensures |r| <= 1
  {
    if !t.loc.OnWorker? then [] else
    match t.loc.at
    case TimeoutSet => [Timeout]
    case FinalCheck => if t.task.status.Cancelled? then [CancelSeen] else []
    case DoneSet => [Success]
    case FailSet => [Failure]
    case _ => []
  }

  function NewNotice(loc: Loc, choice: Choice): (r: seq<Notice>)
    ensures |r| <= 1 && (r != [] ==> r[0].threw == choice.Threw?)
  {
    if !loc.OnWorker? then [] else
    match loc.at
    case TimeoutCallback => [Notice(TimedOut, choice.Threw?)]
    case DoneCallback => [Notice(Completed, choice.Threw?)]
    case FailCallback => [Notice(Failed, choice.Threw?)]
    case _ => []
  }

  /** x, when the worker is at the statement that appends it. */
  function When<T>(here: bool, x: T): seq<T> {
    if here then [x] else []
  }

  lemma WorkRuns(t: Token, choice: Choice, now: Clock)
    requires Happens(t, Work(choice), now)
    ensures t.loc.OnWorker?
    ensures var h, g, p := t.hist, AfterEvent(t, Work(choice), now).hist, t.loc.at;
            && g.starts == h.starts + When(p.Taken?, now.system) && g.began == h.began + When(p.Taken?, now.steady)
            && g.ends == h.ends + When(p.Executing?, now.system) && g.over == h.over + When(p.Executing?, now.steady)
            && g.threw == h.threw + When(p.Executing?, choice.Threw?)
  {
    hide NextLoc;
    if !t.loc.at.Taken? && !t.loc.at.Executing? {
      OtherKeepsTimes(t, Work(choice), now);
    }
  }

  lemma WorkOutcome(t: Token, choice: Choice, now: Clock)
    requires Happens(t, Work(choice), now)
    ensures var h, g := t.hist, AfterEvent(t, Work(choice), now).hist;
            && g.outcomes == h.outcomes + NewOutcome(t)
            && g.repushes == h.repushes + (if t.loc.at.Repush? then 1 else 0)
            && g.activeHits == h.activeHits
  {
    hide NextLoc;
  }

  lemma WorkNotes(t: Token, choice: Choice, now: Clock)
    requires Happens(t, Work(choice), now)
    ensures var j, k := t.hist.journal, AfterEvent(t, Work(choice), now).hist.journal;
            k.found == j.found && k.announced == j.announced + NewNotice(t.loc, choice)
  {
    hide NextLoc;
    match t.loc.at
    case TimeoutCallback =>
    case DoneCallback =>
    case FailCallback =>
    case _ =>
  }

  lemma WorkStores(t: Token, choice: Choice, now: Clock)
    requires Happens(t, Work(choice), now)
    ensures var u := AfterEvent(t, Work(choice), now);
            && u.hist.journal.records == t.hist.journal.records + Unrecorded(t.loc)
            && u.record == if Unrecorded(t.loc) == [] then t.record else Some(Unrecorded(t.loc)[0])
    ensures Unrecorded(t.loc) != [] ==> NewNotice(t.loc, choice) == [] && !Unrecorded(t.loc)[0].Cancelled?
  {
    hide NextLoc;
  }

  lemma WorkTask(t: Token, choice: Choice, now: Clock)
    requires Happens(t, Work(choice), now)
    ensures var r, q, p := t.task, AfterEvent(t, Work(choice), now).task, t.loc.at;
            && q.config == r.config
            && q.startTime == (if p.Reschedule? then now.system + r.config.interval else r.startTime)
            && (p.Taken? || p.Executing? || p.FinalCheck? ==> q.status == r.status)
  {
    hide NextLoc;
  }

  lemma WorkReschedules(t: Token, choice: Choice, now: Clock)
    requires Happens(t, Work(choice), now)
    ensures AfterEvent(t, Work(choice), now).hist.journal.reschedules ==
            t.hist.journal.reschedules + When(t.loc.at.Reschedule?, now.system)
  {
    hide NextLoc;
  }

  // ---------- Cancellation ----------

  /** From the store of line 287 of src/TaskScheduler.cpp to the test of line 322. */
  predicate AwaitsTest(loc: Loc) {
    || loc == InHand(Marked) || loc.InPool?
    || (loc.OnWorker? && (loc.at.Taken? || loc.at.Executing? || loc.at.FinalCheck?))
  }

  /** The execution that a token at loc is at or waits for, when there have been so many starts. */
  function Round(loc: Loc, starts: nat): int {
    if loc.OnWorker? && !loc.at.Taken? then starts - 1 else starts
  }

  /** cancelTask found the task in activeTasks while execution k awaited its test. */
  predicate FoundDuring(t: Token, k: int) {
    && t.hist.journal.found.Some?
    && var f := t.hist.journal.found.value; AwaitsTest(f.loc) && Round(f.loc, f.starts) == k
  }

  predicate CancelFits(t: Token, k: nat)
    requires k < |t.hist.outcomes| && k < |t.hist.began| && k < |t.hist.over| && k < |t.hist.threw|
  {
    t.hist.outcomes[k].CancelSeen? <==> FoundDuring(t, k) && !t.hist.threw[k] && !TookTooLong(t, k)
  }

  /** Before the next execution has begun, or when it never will. */
  predicate Handed(loc: Loc) {
    loc == InHand(Marked) || loc.InPool? || loc.Discarded? || (loc.OnWorker? && loc.at.Taken?)
  }

  ghost predicate FoundInv(t: Token) {
    && |t.hist.over| == |t.hist.threw| <= |t.hist.began|
    && (t.hist.journal.found.Some? <==> t.hist.activeHits >= 1)
    && (AwaitsTest(t.loc) ==> (t.task.status.Cancelled? <==> FoundDuring(t, Round(t.loc, |t.hist.starts|))))
    && (t.loc.OnWorker? && t.loc.at.DoneSet? ==> !FoundDuring(t, |t.hist.starts| - 1))
    && (FoundDuring(t, |t.hist.starts|) ==> Handed(t.loc))
    && (t.hist.journal.found.Some? ==> t.hist.journal.found.value.starts <= |t.hist.starts|)
    && (forall k :: 0 <= k < |t.hist.outcomes| && k < |t.hist.over| ==> CancelFits(t, k))
  }

  lemma FindingFits(t: Token, now: Clock)
    requires TokenInv(t, now) && FoundInv(t) && Happens(t, CancelActive, now)
    ensures FoundInv(AfterEvent(t, CancelActive, now))
  {
    var u := AfterEvent(t, CancelActive, now);
    forall k | 0 <= k < |u.hist.outcomes| && k < |u.hist.over|
      ensures CancelFits(u, k)
    {
      assert CancelFits(t, k) && !FoundDuring(t, k) && !FoundDuring(u, k);
    }
  }

  lemma SameFound(t: Token, u: Token, k: nat)
    requires k < |t.hist.outcomes| && k < |t.hist.began| && k < |t.hist.over| && k < |t.hist.threw|
    requires t.hist.outcomes <= u.hist.outcomes && t.hist.began <= u.hist.began && t.hist.over <= u.hist.over
    requires t.hist.threw <= u.hist.threw && t.hist.journal.found == u.hist.journal.found
    requires u.task.config == t.task.config
    ensures CancelFits(t, k) <==> CancelFits(u, k)
  {
  }

  /** Where the statement leads, as far as the test of the status is concerned. */
  lemma WorkTests(t: Token, choice: Choice, now: Clock)
    requires Happens(t, Work(choice), now)
    ensures var p, loc := t.loc.at, AfterEvent(t, Work(choice), now).loc;
            && (AwaitsTest(loc) ==> loc.OnWorker? && !loc.at.Taken? && (p.Taken? || p.Executing?))
            && (p.Taken? ==> AwaitsTest(loc)) && !Handed(loc)
            && (loc.OnWorker? && loc.at.DoneSet? ==> p.FinalCheck? && !t.task.status.Cancelled?)
  {
    hide Effect;
  }

  /** Each execution that is decided has begun and is over, but for what the catch branch adds. */
  lemma DecidedIsOver(t: Token, now: Clock)
    requires TokenInv(t, now)
    ensures var h := t.hist;
            && |h.over| == |h.threw| == |h.ends| && |h.began| == |h.starts|
            && |h.starts| == |h.ends| + (if MidRun(t.loc) then 1 else 0)
            && |h.outcomes| + (if Undecided(t.loc) then 1 else 0) == |h.starts| + (if h.reentered then 1 else 0)
            && (h.reentered ==> Failing(t.loc))
            && (t.loc.OnWorker? ==> RunFits(t, t.loc.at))
  {
  }

  lemma OldFits(t: Token, choice: Choice, now: Clock, k: nat)
    requires TokenInv(t, now) && FoundInv(t) && Happens(t, Work(choice), now)
    requires k < |t.hist.outcomes| && k < |AfterEvent(t, Work(choice), now).hist.over|
    ensures var u := AfterEvent(t, Work(choice), now);
            && k < |u.hist.outcomes| && k < |u.hist.began| && k < |u.hist.threw| && CancelFits(u, k)
  {
    hide TokenInv, Happens, AfterEvent, RunFits;
    WorkRuns(t, choice, now);
    WorkOutcome(t, choice, now);
    WorkNotes(t, choice, now);
    WorkTask(t, choice, now);
    DecidedIsOver(t, now);
    assert k < |t.hist.over| by {
      if t.loc.at.Executing? {
        assert Undecided(t.loc) && MidRun(t.loc) && !Failing(t.loc);
      }
    }
    assert CancelFits(t, k);
    SameFound(t, AfterEvent(t, Work(choice), now), k);
  }

  /** The outcome that is decided just now. */
  lemma NewFits(t: Token, choice: Choice, now: Clock)
    requires TokenInv(t, now) && FoundInv(t) && Happens(t, Work(choice), now) && NewOutcome(t) != []
    ensures var u, k := AfterEvent(t, Work(choice), now), |t.hist.outcomes|;
            k < |u.hist.over| ==> k < |u.hist.outcomes| && k < |u.hist.began| && k < |u.hist.threw| && CancelFits(u, k)
  {
    hide TokenInv, Happens, AfterEvent;
    WorkRuns(t, choice, now);
    WorkOutcome(t, choice, now);
    WorkNotes(t, choice, now);
    WorkTask(t, choice, now);
    DecidedIsOver(t, now);
  }

  lemma WorkKeepsFits(t: Token, choice: Choice, now: Clock)
    requires TokenInv(t, now) && FoundInv(t) && Happens(t, Work(choice), now)
    ensures var u := AfterEvent(t, Work(choice), now);
            && |u.hist.over| == |u.hist.threw| <= |u.hist.began|
            && (forall k :: 0 <= k < |u.hist.outcomes| && k < |u.hist.over| ==> CancelFits(u, k))
  {
    hide TokenInv, FoundInv, Happens, AfterEvent, CancelFits, RunFits, Failing;
    WorkRuns(t, choice, now);
    WorkOutcome(t, choice, now);
    DecidedIsOver(t, now);
    var u := AfterEvent(t, Work(choice), now);
    forall k | 0 <= k < |u.hist.outcomes| && k < |u.hist.over|
      ensures k < |u.hist.threw| && k < |u.hist.began| && CancelFits(u, k)
    {
      if k < |t.hist.outcomes| {
        OldFits(t, choice, now, k);
      } else {
        NewFits(t, choice, now);
      }
    }
  }

  lemma WorkKeepsFound(t: Token, choice: Choice, now: Clock)
    requires TokenInv(t, now) && FoundInv(t) && Happens(t, Work(choice), now)
    ensures FoundInv(AfterEvent(t, Work(choice), now))
  {
    hide TokenInv, Happens, AfterEvent, CancelFits, RunFits, Failing;
    WorkRuns(t, choice, now);
    WorkOutcome(t, choice, now);
    WorkNotes(t, choice, now);
    WorkTask(t, choice, now);
    WorkTests(t, choice, now);
    WorkKeepsFits(t, choice, now);
  }

  lemma OtherKeepsFound(t: Token, ev: Event, now: Clock)
    requires TokenInv(t, now) && FoundInv(t) && Happens(t, ev, now) && !ev.Work? && !ev.CancelActive?
    ensures FoundInv(AfterEvent(t, ev, now))
  {
    hide TruthInv, RecordInv, ReentryInv, OnceInv, OutcomeInv, PaceInv, VerdictInv, MeasureInv, CancelFits;
    var u := AfterEvent(t, ev, now);
    forall k | 0 <= k < |u.hist.outcomes| && k < |u.hist.over|
      ensures CancelFits(u, k)
    {
      assert CancelFits(t, k);
      SameFound(t, u, k);
    }
  }

  lemma EventKeepsFound(t: Token, ev: Event, now: Clock)
    requires TokenInv(t, now) && FoundInv(t) && Happens(t, ev, now)
    ensures FoundInv(AfterEvent(t, ev, now))
  {
    hide TokenInv, FoundInv;
    if ev.CancelActive? {
      FindingFits(t, now);
    } else if !ev.Work? {
      OtherKeepsFound(t, ev, now);
    } else {
      WorkKeepsFound(t, ev.choice, now);
    }
  }

  // ---------- Callbacks and records ----------

  /** What the outcomes of the executions are announced as; a cancelled execution is not. */
  function Announcements(o: seq<Outcome>): seq<Status> {
    if o == [] then [] else
    Announcements(o[..|o| - 1]) + if o[|o| - 1].CancelSeen? then [] else [StatusOf(o[|o| - 1])]
  }

  /** What the callback was called with. */
  function Statuses(notices: seq<Notice>): seq<Status> {
    if notices == [] then [] else Statuses(notices[..|notices| - 1]) + [notices[|notices| - 1].status]
  }

  /** The same, without the calls that threw. */
  function Heard(notices: seq<Notice>): seq<Status> {
    if notices == [] then [] else
    Heard(notices[..|notices| - 1]) + if notices[|notices| - 1].threw then [] else [notices[|notices| - 1].status]
  }

  /** The records made by workers. */
  function ByWorkers(records: seq<Status>): seq<Status> {
    if records == [] then [] else
    ByWorkers(records[..|records| - 1]) +
    if records[|records| - 1].Cancelled? then [] else [records[|records| - 1]]
  }

  lemma MoreOutcomes(o: seq<Outcome>, more: seq<Outcome>)
    requires |more| <= 1
    ensures Announcements(o + more) ==
            Announcements(o) + if more == [] || more[0].CancelSeen? then [] else [StatusOf(more[0])]
  {
    if more == [] {
      assert o + more == o;
    } else {
      assert (o + more)[..|o|] == o;
    }
  }

  lemma MoreNotices(notices: seq<Notice>, more: seq<Notice>)
    requires |more| <= 1
    ensures Statuses(notices + more) == Statuses(notices) + if more == [] then [] else [more[0].status]
    ensures Heard(notices + more) == Heard(notices) + if more == [] || more[0].threw then [] else [more[0].status]
  {
    if more == [] {
      assert notices + more == notices;
    } else {
      assert (notices + more)[..|notices|] == notices;
    }
  }

  lemma MoreRecords(records: seq<Status>, more: seq<Status>)
    requires |more| <= 1
    ensures ByWorkers(records + more) == ByWorkers(records) + if more == [] || more[0].Cancelled? then [] else more
  {
    if more == [] {
      assert records + more == records;
    } else {
      assert (records + more)[..|records|] == records;
    }
  }

  /** The outcome is decided, and the callback has not been called. */
  function Unannounced(loc: Loc): seq<Status> {
    if !loc.OnWorker? then [] else
    match loc.at
    case TimeoutCount => [TimedOut]
    case TimeoutCallback => [TimedOut]
    case DoneCount => [Completed]
    case DoneCallback => [Completed]
    case FailCount => [Failed]
    case FailCallback => [Failed]
    case _ => []
  }

  /** The callback has returned, and the record has not been made. */
  function Unrecorded(loc: Loc): (r: seq<Status>)
    ensures |r| <= 1
  {
    if !loc.OnWorker? then [] else
    match loc.at
    case TimeoutRecord => [TimedOut]
    case DoneRecord => [Completed]
    case FailRecord => [Failed]
    case _ => []
  }

  predicate AnnouncedInv(t: Token) {
    Announcements(t.hist.outcomes) == Statuses(t.hist.journal.announced) + Unannounced(t.loc)
  }

  predicate RecordedInv(t: Token) {
    var j := t.hist.journal;
    && Heard(j.announced) == ByWorkers(j.records) + Unrecorded(t.loc)
    && t.record == if j.records == [] then None else Some(j.records[|j.records| - 1])
  }

  /** Where the statement leads: what is then to be announced, and to be recorded. */
  lemma WorkOwes(t: Token, choice: Choice, now: Clock)
    requires Happens(t, Work(choice), now)
    ensures var u := AfterEvent(t, Work(choice), now);
            && Unannounced(u.loc) == (if NewOutcome(t) != [] && !NewOutcome(t)[0].CancelSeen?
                                      then [StatusOf(NewOutcome(t)[0])]
                                      else if NewNotice(t.loc, choice) != [] then [] else Unannounced(t.loc))
            && Unrecorded(u.loc) == (if NewNotice(t.loc, choice) != [] && !choice.Threw?
                                     then [NewNotice(t.loc, choice)[0].status] else [])
            && (NewOutcome(t) != [] ==> Unannounced(t.loc) == [])
            && (NewNotice(t.loc, choice) != [] ==>
                  Unannounced(t.loc) == [NewNotice(t.loc, choice)[0].status] && NewOutcome(t) == [])
  {
    hide Effect;
  }

  lemma WorkKeepsAnnounced(t: Token, choice: Choice, now: Clock)
    requires AnnouncedInv(t) && Happens(t, Work(choice), now)
    ensures AnnouncedInv(AfterEvent(t, Work(choice), now))
  {
    hide Happens, AfterEvent, Unannounced, Unrecorded, NewOutcome, NewNotice, Announcements, Statuses;
    WorkOutcome(t, choice, now);
    WorkNotes(t, choice, now);
    WorkOwes(t, choice, now);
    MoreOutcomes(t.hist.outcomes, NewOutcome(t));
    MoreNotices(t.hist.journal.announced, NewNotice(t.loc, choice));
  }

  lemma WorkKeepsRecorded(t: Token, choice: Choice, now: Clock)
    requires RecordedInv(t) && Happens(t, Work(choice), now)
    ensures RecordedInv(AfterEvent(t, Work(choice), now))
  {
    hide Happens, AfterEvent, Unannounced, Unrecorded, NewOutcome, NewNotice, Heard, ByWorkers;
    WorkNotes(t, choice, now);
    WorkOwes(t, choice, now);
    WorkStores(t, choice, now);
    MoreNotices(t.hist.journal.announced, NewNotice(t.loc, choice));
    MoreRecords(t.hist.journal.records, Unrecorded(t.loc));
  }

  lemma OtherNotes(t: Token, ev: Event, now: Clock)
    requires Happens(t, ev, now) && !ev.Work?
    ensures var u := AfterEvent(t, ev, now);
            && u.hist.outcomes == t.hist.outcomes
            && u.hist.journal.announced == t.hist.journal.announced
            && u.hist.journal.records == t.hist.journal.records + When(ev.RecordCancelled?, Cancelled)
            && u.record == (if ev.RecordCancelled? then Some(Cancelled) else t.record)
  {
  }

  lemma OtherOwes(t: Token, ev: Event, now: Clock)
    requires Happens(t, ev, now) && !ev.Work?
    ensures var u := AfterEvent(t, ev, now);
            u.loc == t.loc || (Unannounced(u.loc) == Unannounced(t.loc) && Unrecorded(u.loc) == Unrecorded(t.loc))
  {
  }

  lemma OtherKeepsNotices(t: Token, ev: Event, now: Clock)
    requires AnnouncedInv(t) && RecordedInv(t) && Happens(t, ev, now) && !ev.Work?
    ensures AnnouncedInv(AfterEvent(t, ev, now)) && RecordedInv(AfterEvent(t, ev, now))
  {
    hide Happens, AfterEvent, Unannounced, Unrecorded, Heard, ByWorkers, Announcements, Statuses;
    OtherNotes(t, ev, now);
    OtherOwes(t, ev, now);
    MoreRecords(t.hist.journal.records, When(ev.RecordCancelled?, Cancelled));
  }

  /** Around the catch branch, the last outcome is what the status says. */
  predicate CatchInv(t: Token) {
    && (t.loc.Escaped? ==> LastIs(t, Failure))
    && (t.loc.OnWorker? && t.loc.at.FailSet? && t.active ==>
          && (t.task.status.Completed? ==> LastIs(t, Success))
          && (t.task.status.TimedOut? ==> LastIs(t, Timeout)))
  }

  lemma EventKeepsCatch(t: Token, ev: Event, now: Clock)
    requires StatusInv(t) && TruthInv(t) && CatchInv(t) && Happens(t, ev, now)
    ensures CatchInv(AfterEvent(t, ev, now))
  {
    if ev.Work? {
      WorkKeepsCatch(t, ev.choice, now);
    }
  }

  lemma WorkKeepsCatch(t: Token, choice: Choice, now: Clock)
    requires StatusInv(t) && TruthInv(t) && CatchInv(t) && Happens(t, Work(choice), now)
    ensures CatchInv(AfterEvent(t, Work(choice), now))
  {
    assert OutcomeFits(t, t.loc.at);
  }

  // ---------- Start times ----------

  /** The start time is the one asked for, until Task::reschedule makes it one interval after the clock. */
  predicate TimeInv(t: Token) {
    var r := t.hist.journal.reschedules;
    && t.task.startTime == (if r == [] then t.task.config.startTime else r[|r| - 1] + t.task.config.interval)
    && |r| == t.hist.repushes + (if t.loc.OnWorker? && (t.loc.at.Reset? || t.loc.at.Repush?) then 1 else 0)
    && |r| <= |t.hist.ends|
    && (Waiting(t.loc) || MidRun(t.loc) ==> |r| == |t.hist.ends|)
    && (t.loc.OnWorker? && !Waiting(t.loc) && !MidRun(t.loc) ==> |r| + 1 == |t.hist.ends|)
  }

  ghost predicate Between(r: seq<int>, ends: seq<int>, starts: seq<int>, interval: int) {
    && |r| <= |ends|
    && (forall i :: 0 <= i < |r| ==> ends[i] <= r[i])
    && (forall i :: 0 <= i < |r| && i + 1 < |starts| ==> r[i] + interval <= starts[i + 1])
  }

  lemma OneMoreReschedule(r: seq<int>, ends: seq<int>, starts: seq<int>, interval: int, now: int)
    requires Between(r, ends, starts, interval) && |starts| == |ends| == |r| + 1 && ends[|r|] <= now
    ensures Between(r + [now], ends, starts, interval)
  {
  }

  lemma OneMoreStart(r: seq<int>, ends: seq<int>, starts: seq<int>, interval: int, now: int)
    requires Between(r, ends, starts, interval) && |starts| == |ends| == |r|
    requires r != [] ==> r[|r| - 1] + interval <= now
    ensures Between(r, ends, starts + [now], interval)
  {
  }

  lemma OneMoreEnd(r: seq<int>, ends: seq<int>, starts: seq<int>, interval: int, now: int)
    requires Between(r, ends, starts, interval)
    ensures Between(r, ends + [now], starts, interval)
  {
  }

  /** Each rescheduling comes after the end of an execution and one interval before the next start. */
  ghost predicate BetweenInv(t: Token) {
    Between(t.hist.journal.reschedules, t.hist.ends, t.hist.starts, t.task.config.interval)
  }

  /** Where the statement leads, as far as start times are concerned. */
  lemma WorkWaits(t: Token, choice: Choice, now: Clock)
    requires Happens(t, Work(choice), now)
    ensures var p, loc := t.loc.at, AfterEvent(t, Work(choice), now).loc;
            && (loc.OnWorker? && (loc.at.Reset? || loc.at.Repush?) <==> p.Reschedule? || p.Reset?)
            && (Waiting(loc) <==> Repeating(p)) && (MidRun(loc) <==> p.Taken?)
  {
    hide Effect;
  }

  lemma WorkKeepsTime(t: Token, choice: Choice, now: Clock)
    requires TimeInv(t) && Happens(t, Work(choice), now)
    ensures TimeInv(AfterEvent(t, Work(choice), now))
  {
    hide Happens, AfterEvent;
    WorkRuns(t, choice, now);
    WorkOutcome(t, choice, now);
    WorkReschedules(t, choice, now);
    WorkTask(t, choice, now);
    WorkWaits(t, choice, now);
  }

  lemma OtherKeepsTime(t: Token, ev: Event, now: Clock)
    requires TimeInv(t) && BetweenInv(t) && Happens(t, ev, now) && !ev.Work?
    ensures TimeInv(AfterEvent(t, ev, now)) && BetweenInv(AfterEvent(t, ev, now))
  {
  }

  /** What is known just before a rescheduling, and just before a start. */
  lemma TimesBefore(t: Token, now: Clock)
    requires PaceInv(t, now) && TimeInv(t) && t.loc.OnWorker?
    ensures var h, r := t.hist, t.hist.journal.reschedules;
            && (t.loc.at.Reschedule? ==> |h.starts| == |h.ends| == |r| + 1 && h.ends[|r|] <= now.system)
            && (t.loc.at.Taken? ==>
                  |h.starts| == |h.ends| == |r| && (r != [] ==> r[|r| - 1] + t.task.config.interval <= now.system))
  {
  }

  lemma WorkKeepsBetween(t: Token, choice: Choice, now: Clock)
    requires PaceInv(t, now) && TimeInv(t) && BetweenInv(t) && Happens(t, Work(choice), now)
    ensures BetweenInv(AfterEvent(t, Work(choice), now))
  {
    hide AfterEvent, Happens, Between, PaceInv, TimeInv;
    var h, r, interval := t.hist, t.hist.journal.reschedules, t.task.config.interval;
    WorkRuns(t, choice, now);
    WorkReschedules(t, choice, now);
    WorkTask(t, choice, now);
    TimesBefore(t, now);
    assert r + [] == r && h.ends + [] == h.ends && h.starts + [] == h.starts;
    if t.loc.at.Reschedule? {
      OneMoreReschedule(r, h.ends, h.starts, interval, now.system);
    } else if t.loc.at.Taken? {
      OneMoreStart(r, h.ends, h.starts, interval, now.system);
    } else if t.loc.at.Executing? {
      OneMoreEnd(r, h.ends, h.starts, interval, now.system);
    }
  }

  // ---------- Every run ----------

  ghost predicate JournalInv(t: Token) {
    FoundInv(t) && AnnouncedInv(t) && RecordedInv(t) && CatchInv(t) && TimeInv(t) && BetweenInv(t)
  }

  lemma EventKeepsJournal(t: Token, ev: Event, now: Clock)
    requires TokenInv(t, now) && JournalInv(t) && Happens(t, ev, now)
    ensures JournalInv(AfterEvent(t, ev, now))
  {
    assert PaceInv(t, now) && TruthInv(t) && StatusInv(t);
    hide TokenInv, FoundInv, AnnouncedInv, RecordedInv, CatchInv, TimeInv, BetweenInv, PaceInv, TruthInv, StatusInv;
    hide Happens, AfterEvent;
    EventKeepsFound(t, ev, now);
    EventKeepsCatch(t, ev, now);
    if ev.Work? {
      WorkKeepsAnnounced(t, ev.choice, now);
      WorkKeepsRecorded(t, ev.choice, now);
      WorkKeepsTime(t, ev.choice, now);
      WorkKeepsBetween(t, ev.choice, now);
    } else {
      OtherKeepsNotices(t, ev, now);
      OtherKeepsTime(t, ev, now);
    }
  }

  ghost predicate AllJournals(s: State) {
    forall id :: id in s.tokens ==> JournalInv(s.tokens[id])
  }

  lemma NewJournal(config: Config, c: nat)
    ensures JournalInv(NewToken(config, c))
  {
  }

  lemma TokenKeepsJournal(s: State, st: Step, id: Id)
    requires Inv(s) && Enabled(s, st) && id in s.tokens && JournalInv(s.tokens[id])
    ensures id in Next(s, st).tokens && JournalInv(Next(s, st).tokens[id])
  {
    hide Inv, Next, Enabled, Linked, JournalInv, TokenInv, AfterEvent, Happens, EventOf;
    InvLinks(s);
    TokenBecomes(s, st, id);
    InvToken(s, id);
    var ev := EventOf(s, st, id);
    if ev.Some? {
      EventKeepsJournal(s.tokens[id], ev.value, s.now);
    }
  }

  lemma InvToken(s: State, id: Id)
    requires Inv(s) && id in s.tokens
    ensures TokenInv(s.tokens[id], s.now)
  {
  }

  lemma StepKeepsJournals(s: State, st: Step)
    requires Inv(s) && AllJournals(s)
    ensures AllJournals(Apply(s, st))
  {
    hide Inv, Next, Enabled, Linked, JournalInv;
    InvLinks(s);
    if Enabled(s, st) {
      NewTokens(s, st);
      forall id | id in Next(s, st).tokens
        ensures JournalInv(Next(s, st).tokens[id])
      {
        if id in s.tokens {
          TokenKeepsJournal(s, st, id);
        } else {
          NewJournal(st.clientOp.config, st.c);
        }
      }
    }
  }

  lemma {:induction false} RunKeepsJournals(s: State, steps: seq<Step>)
    requires Inv(s) && AllJournals(s)
    ensures AllJournals(Run(s, steps))
    decreases |steps|
  {
    hide Inv, Apply, AllJournals;
    if steps != [] {
      RunKeepsJournals(s, steps[..|steps| - 1]);
      RunKeepsInv(s, steps[..|steps| - 1]);
      StepKeepsJournals(Run(s, steps[..|steps| - 1]), steps[|steps| - 1]);
    }
  }

  lemma ReachableJournal(s: State, id: Id)
    requires Reachable(s) && id in s.tokens
    ensures TokenInv(s.tokens[id], s.now) && JournalInv(s.tokens[id])
  {
    hide Inv, JournalInv, Run, TokenInv;
    ReachableToken(s, id);
    var numThreads: nat, now: Clock, steps: seq<Step> :| s == Run(Init(numThreads, now), steps);
    InitInv(numThreads, now);
    RunKeepsJournals(Init(numThreads, now), steps);
  }

  // ---------- Cancelled before the test ----------

  /** No test can lead to a completion any more. */
  predicate Hopeless(t: Token) {
    || (AwaitsTest(t.loc) && t.task.status.Cancelled?)
    || Retired(t.loc)
    || (t.loc.OnWorker? && (t.loc.at.TimeoutSet? || t.loc.at.TimeoutCount? || t.loc.at.TimeoutCallback?
                            || t.loc.at.TimeoutRecord? || t.loc.at.TimeoutErase?))
    || Failing(t.loc)
  }

  function Successes(t: Token): nat {
    multiset(t.hist.outcomes)[Success]
  }

  lemma EventKeepsHopeless(t: Token, ev: Event, now: Clock)
    requires Hopeless(t) && Happens(t, ev, now)
    ensures var u := AfterEvent(t, ev, now);
            Hopeless(u) && Successes(u) == Successes(t) && u.hist.repushes == t.hist.repushes
  {
    if ev.Work? {
      WorkKeepsHopeless(t, ev.choice, now);
    }
  }

  lemma WorkKeepsHopeless(t: Token, choice: Choice, now: Clock)
    requires Hopeless(t) && Happens(t, Work(choice), now)
    ensures var u := AfterEvent(t, Work(choice), now);
            Hopeless(u) && Successes(u) == Successes(t) && u.hist.repushes == t.hist.repushes
  {
    hide Effect;
    WorkOutcome(t, choice, now);
    WorkTask(t, choice, now);
    assert !t.loc.at.DoneSet? && !t.loc.at.Repush?;
  }

  lemma StepKeepsHopeless(s: State, st: Step, id: Id)
    requires Inv(s) && Enabled(s, st) && id in s.tokens && Hopeless(s.tokens[id])
    ensures id in Next(s, st).tokens
    ensures var t, u := s.tokens[id], Next(s, st).tokens[id];
            Hopeless(u) && Successes(u) == Successes(t) && u.hist.repushes == t.hist.repushes
  {
    hide Inv, Next, Enabled, Linked, AfterEvent, Happens, EventOf, Hopeless;
    InvLinks(s);
    TokenBecomes(s, st, id);
    var ev := EventOf(s, st, id);
    if ev.Some? {
      EventKeepsHopeless(s.tokens[id], ev.value, s.now);
    }
  }

  lemma {:induction false} StaysHopeless(s: State, steps: seq<Step>, id: Id)
    requires Inv(s) && id in s.tokens && Hopeless(s.tokens[id])
    ensures id in Run(s, steps).tokens
    ensures var t, u := s.tokens[id], Run(s, steps).tokens[id];
            Hopeless(u) && Successes(u) == Successes(t) && u.hist.repushes == t.hist.repushes
    decreases |steps|
  {
    hide Inv, Next, Enabled, Linked, Hopeless, Successes;
    if steps != [] {
      var t, st := Run(s, steps[..|steps| - 1]), steps[|steps| - 1];
      StaysHopeless(s, steps[..|steps| - 1], id);
      RunKeepsInv(s, steps[..|steps| - 1]);
      if Linked(t) && Enabled(t, st) {
        StepKeepsHopeless(t, st, id);
      }
    }
  }
}
