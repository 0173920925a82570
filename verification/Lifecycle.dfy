/** The life of one task: what each statement of the scheduler does to the task object, to its entries in
    activeTasks and completedTasks, and to its history. Threads and containers are added in Protocol. */
module Lifecycle {
  import opened Options
  import opened Tasks

  /** How far the scheduler thread is with the task it has popped: the next thing it does. */
  datatype Phase =
    | Popped     // look the id up in activeTasks
    | LookedUp   // test the status for CANCELLED
    | Approved   // set the status RUNNING
    | Marked     // enqueue the job in the pool

  /** Where a worker is in executeAndFinalizeTask: the next statement it executes. */
  datatype Point =
    | Taken | Executing
    | TimeoutSet | TimeoutCount | TimeoutCallback | TimeoutRecord | TimeoutErase
    | FinalCheck | DoneSet | DoneCount | DoneCallback | DoneRecord | Reschedule | Reset | Repush | DoneErase
    | FailSet | FailCount | FailCallback | FailRecord | FailErase
    | Finished

  /** Where the one token of a task is; the last five are final. */
  datatype Loc =
    | AtClient(c: nat, inserted: bool) | InQueue | InHand(phase: Phase) | InPool | OnWorker(w: nat, at: Point)
    | Skipped     // thrown away by the scheduler thread
    | Dropped     // removed from the queue by cancelTask
    | Discarded   // removed from the pool by stop()
    | Settled     // its last execution is over
    | Escaped     // the completion callback threw inside the catch branch

  /** How an execution ended. */
  datatype Outcome = Success | Failure | Timeout | CancelSeen

  /** A call of the completion callback by a worker. */
  datatype Notice = Notice(status: Status, threw: bool)

  /** A success of cancelTask in activeTasks: where the token was, and how often the task had been started. */
  datatype Finding = Finding(loc: Loc, starts: nat)

  /** What has been done about one task besides running it. */
  datatype Journal = Journal(
    found: Option<Finding>,
    reschedules: seq<int>,     // the system clock at each Task::reschedule
    announced: seq<Notice>,    // calls of the completion callback by workers
    cancelCalls: nat,          // calls of the completion callback by cancelTask
    cancelThrows: nat,         // how many of those threw
    records: seq<Status>)      // what was stored in completedTasks under the id, in this order

  /** History of one task. */
  datatype Hist = Hist(
    starts: seq<int>, ends: seq<int>,  // when executions began and ended, by the system clock
    began: seq<int>, over: seq<int>,   // the same by the steady clock
    threw: seq<bool>,                  // whether the task function threw
    outcomes: seq<Outcome>,
    repushes: nat,                     // how often a worker has pushed the task again
    reentered: bool,                   // a completion callback threw into the catch branch
    activeHits: nat, queueHits: nat,   // successful searches of cancelTask in activeTasks and in the queue
    journal: Journal)

  datatype Token = Token(
    task: TaskRec,
    active: bool,             // the id is a key of activeTasks
    record: Option<Status>,   // the entry of completedTasks
    loc: Loc,
    hist: Hist)

  /** What the environment decides at a worker's statement: how the task function or the callback ends. */
  datatype Choice = Quiet | Returned | Threw

  datatype Event =
    | Insert | Push | CancelActive | CancelQueued | CancelCalled(threw: bool) | RecordCancelled
    | Pop | Advance | Dispatch | Take(w: nat) | Work(choice: Choice) | Discard

  function EmptyHist(): Hist {
    Hist([], [], [], [], [], [], 0, false, 0, 0, Journal(None, [], [], 0, 0, []))
  }

  function NewToken(config: Config, c: nat): Token {
    Token(NewTask(config), false, None, AtClient(c, false), EmptyHist())
  }

  function SetStatus(t: Token, status: Status): Token {
    t.(task := t.task.(status := status))
  }

  function AddOutcome(t: Token, o: Outcome): Token {
    t.(hist := t.hist.(outcomes := t.hist.outcomes + [o]))
  }

  function WithJournal(t: Token, journal: Journal): Token {
    t.(hist := t.hist.(journal := journal))
  }

  /** completedTasks[id] = status. */
  function RecordStatus(t: Token, status: Status): Token {
    WithJournal(t.(record := Some(status)), t.hist.journal.(records := t.hist.journal.records + [status]))
  }

  /** A worker calls the completion callback. */
  function Announce(t: Token, status: Status, choice: Choice): Token {
    WithJournal(t, t.hist.journal.(announced := t.hist.journal.announced + [Notice(status, choice.Threw?)]))
  }

  // ---------- The scheduler thread: runSchedulerLoop after the pop ----------

  function AdvanceToken(t: Token, p: Phase): Token {
    match p
    case Popped => t.(loc := if t.active then InHand(LookedUp) else Skipped)
    case LookedUp => t.(loc := if t.task.status.Cancelled? then Skipped else InHand(Approved))
    case Approved => SetStatus(t, Running).(loc := InHand(Marked))
    case Marked => t.(loc := InPool)
  }

  // ---------- A worker: executeAndFinalizeTask, runTaskWithTimeout, finalizeCompletedTask ----------

  predicate ChoiceFits(p: Point, choice: Choice) {
    match p
    case Executing => !choice.Quiet?
    case TimeoutCallback => !choice.Returned?
    case DoneCallback => !choice.Returned?
    case FailCallback => !choice.Returned?
    case _ => choice.Quiet?
  }

  /** Control flow: the next statement, or the place the token goes to when the worker gives it up. */
  function NextLoc(t: Token, w: nat, p: Point, choice: Choice, now: Clock): Loc
    requires ChoiceFits(p, choice) && !p.Finished?
  {
    match p
    case Taken => OnWorker(w, Executing)
    case Executing => OnWorker(w, AfterRun(t.task.config.timeout, choice, Elapsed(t, now)))
    case TimeoutSet => OnWorker(w, TimeoutCount)
    case TimeoutCount => OnWorker(w, TimeoutCallback)
    case TimeoutCallback => OnWorker(w, if choice.Threw? then FailSet else TimeoutRecord)
    case TimeoutRecord => OnWorker(w, TimeoutErase)
    case TimeoutErase => Settled
    case FinalCheck => if t.task.status.Cancelled? then Settled else OnWorker(w, DoneSet)
    case DoneSet => OnWorker(w, DoneCount)
    case DoneCount => OnWorker(w, DoneCallback)
    case DoneCallback => OnWorker(w, if choice.Threw? then FailSet else DoneRecord)
    case DoneRecord => OnWorker(w, if t.task.config.isRepeatable then Reschedule else DoneErase)
    case Reschedule => OnWorker(w, Reset)
    case Reset => OnWorker(w, Repush)
    case Repush => InQueue
    case DoneErase => Settled
    case FailSet => OnWorker(w, FailCount)
    case FailCount => OnWorker(w, FailCallback)
    case FailCallback => if choice.Threw? then Escaped else OnWorker(w, FailRecord)
    case FailRecord => OnWorker(w, FailErase)
    case FailErase => Settled
  }

  /** How long the execution that began last has lasted. */
  function Elapsed(t: Token, now: Clock): nat {
    Since(if t.hist.began == [] then now.steady else t.hist.began[|t.hist.began| - 1], now.steady)
  }

  function Since(start: int, now: int): nat {
    if start <= now then now - start else 0
  }

  /** The task function threw, ran too long, or returned in time. */
  function AfterRun(timeout: int, choice: Choice, elapsed: nat): (p: Point)
    requires !choice.Quiet?
    ensures p.FailSet? || p.TimeoutSet? || p.FinalCheck?
  {
    if choice.Threw? then FailSet else if ExceedsTimeout(timeout, elapsed) then TimeoutSet else FinalCheck
  }

  /** Data: what the statement at p changes. */
  function Effect(t: Token, p: Point, choice: Choice, now: Clock): Token
    requires ChoiceFits(p, choice)
  {
    match p
    case Taken => t.(hist := t.hist.(starts := t.hist.starts + [now.system], began := t.hist.began + [now.steady]))
    case Executing =>
      t.(hist := t.hist.(ends := t.hist.ends + [now.system], over := t.hist.over + [now.steady],
                         threw := t.hist.threw + [choice.Threw?]))
    case TimeoutSet => AddOutcome(SetStatus(t, TimedOut), Timeout)
    case TimeoutRecord => RecordStatus(t, TimedOut)
    case FinalCheck => if t.task.status.Cancelled? then AddOutcome(t, CancelSeen) else t
    case DoneSet => AddOutcome(SetStatus(t, Completed), Success)
    case DoneRecord => RecordStatus(t, Completed)
    case Reschedule =>
      WithJournal(t.(task := t.task.(startTime := now.system + t.task.config.interval)),
           t.hist.journal.(reschedules := t.hist.journal.reschedules + [now.system]))
    case Reset => SetStatus(t, Pending)
    case Repush => t.(hist := t.hist.(repushes := t.hist.repushes + 1))
    case FailSet => AddOutcome(SetStatus(t, Failed), Failure)
    case FailRecord => RecordStatus(t, Failed)
    case TimeoutErase => t.(active := false)
    case DoneErase => t.(active := false)
    case FailErase => t.(active := false)
    case TimeoutCallback => Reenter(Announce(t, TimedOut, choice), choice)
    case DoneCallback => Reenter(Announce(t, Completed, choice), choice)
    case FailCallback => Announce(t, Failed, choice)
    case _ => t
  }

  /** The catch branch takes over from a callback that throws inside the try block. */
  function Reenter(t: Token, choice: Choice): Token {
    if choice.Threw? then t.(hist := t.hist.(reentered := true)) else t
  }

  function WorkToken(t: Token, w: nat, p: Point, choice: Choice, now: Clock): Token
    requires ChoiceFits(p, choice) && !p.Finished?
  {
    Effect(t, p, choice, now).(loc := NextLoc(t, w, p, choice, now))
  }

  // ---------- All events ----------

  function CancelToken(t: Token): Token {
    var journal := t.hist.journal.(found := Some(Finding(t.loc, |t.hist.starts|)));
    SetStatus(t, Cancelled).(
      active := false, hist := t.hist.(activeHits := t.hist.activeHits + 1, journal := journal))
  }

  function DropToken(t: Token): Token {
    SetStatus(t, Cancelled).(loc := Dropped, hist := t.hist.(queueHits := t.hist.queueHits + 1))
  }

  /** A cancelTask call has called the completion callback. */
  function CalledToken(t: Token, threw: bool): Token {
    var journal := t.hist.journal;
    WithJournal(t, journal.(cancelCalls := journal.cancelCalls + 1,
                     cancelThrows := if threw then journal.cancelThrows + 1 else journal.cancelThrows))
  }

  /** A completion callback threw in a cancelTask call. */
  predicate CancelThrew(t: Token) {
    t.hist.journal.cancelThrows > 0
  }

  predicate Happens(t: Token, ev: Event, now: Clock) {
    match ev
    case Insert => t.loc.AtClient? && !t.loc.inserted
    case Push => t.loc.AtClient? && t.loc.inserted
    case CancelActive => t.active && !Unborn(t)
    case CancelQueued => t.loc.InQueue? && !t.active
    case CancelCalled(_) => t.hist.activeHits >= 1
    case RecordCancelled => t.hist.activeHits >= 1
    case Pop => t.loc.InQueue? && t.task.startTime <= now.system
    case Advance => t.loc.InHand? && !t.loc.phase.Marked?
    case Dispatch => t.loc.InHand? && t.loc.phase.Marked?
    case Take(_) => t.loc.InPool?
    case Work(choice) => t.loc.OnWorker? && !t.loc.at.Finished? && ChoiceFits(t.loc.at, choice)
    case Discard => t.loc.InPool?
  }

  /** Before the first insertion into activeTasks. */
  predicate Unborn(t: Token) {
    t.loc.AtClient? && !t.loc.inserted
  }

  function AfterEvent(t: Token, ev: Event, now: Clock): Token
    requires Happens(t, ev, now)
  {
    match ev
    case Insert => t.(active := true, loc := AtClient(t.loc.c, true))
    case Push => t.(loc := InQueue)
    case CancelActive => CancelToken(t)
    case CancelQueued => DropToken(t)
    case CancelCalled(threw) => CalledToken(t, threw)
    case RecordCancelled => RecordStatus(t, Cancelled)
    case Pop => t.(loc := InHand(Popped))
    case Advance => AdvanceToken(t, t.loc.phase)
    case Dispatch => AdvanceToken(t, Marked)
    case Take(w) => t.(loc := OnWorker(w, Taken))
    case Work(choice) => WorkToken(t, t.loc.w, t.loc.at, choice, now)
    case Discard => t.(loc := Discarded)
  }

  // ---------- What every event keeps ----------

  /** Left activeTasks for good: the id was inserted once and is no longer there. */
  predicate Gone(t: Token) {
    !t.active && !Unborn(t)
  }

  /** The status that a task in activeTasks must have, given where its token is. */
  predicate StatusFits(t: Token) {
    match t.loc
    case AtClient(_, inserted) => inserted && t.task.status.Pending?
    case InQueue => t.task.status.Pending?
    case InHand(phase) => if phase.Marked? then t.task.status.Running? else t.task.status.Pending?
    case InPool => t.task.status.Running?
    case Discarded => t.task.status.Running?
    case OnWorker(_, p) =>
      (match p
       case Taken => t.task.status.Running?
       case Executing => t.task.status.Running?
       case TimeoutSet => t.task.status.Running?
       case FinalCheck => t.task.status.Running?
       case DoneSet => t.task.status.Running?
       case FailSet =>
         t.task.status.Running? || (t.hist.reentered && (t.task.status.TimedOut? || t.task.status.Completed?))
       case TimeoutCount => t.task.status.TimedOut?
       case TimeoutCallback => t.task.status.TimedOut?
       case TimeoutRecord => t.task.status.TimedOut?
       case TimeoutErase => t.task.status.TimedOut?
       case FailCount => t.task.status.Failed?
       case FailCallback => t.task.status.Failed?
       case FailRecord => t.task.status.Failed?
       case FailErase => t.task.status.Failed?
       case Repush => t.task.status.Pending?
       case Finished => false
       case _ => t.task.status.Completed?)
    case Escaped => t.task.status.Failed?
    case _ => false
  }

  predicate StatusInv(t: Token) {
    && (t.active ==> StatusFits(t))
    && (Unborn(t) ==> t.task.status.Pending? && !t.active)
    && (t.loc.InHand? && t.loc.phase.LookedUp? && !t.active ==> t.task.status.Cancelled?)
    && (t.loc.OnWorker? ==> !t.loc.at.Finished?)
  }

  predicate CancelInv(t: Token) {
    && t.hist.activeHits <= 1 && t.hist.queueHits <= 1
    && (t.hist.activeHits == 1 ==> Gone(t))
    && (Gone(t) ==> t.hist.activeHits == 1 || t.loc.Settled?)
    && (t.hist.queueHits == 1 <==> t.loc.Dropped?)
    && (t.loc.Dropped? ==> t.hist.activeHits == 1)
  }

  predicate Recorded(p: Point) {
    p.TimeoutErase? || p.DoneErase? || p.FailErase? || p.Reschedule? || p.Reset? || p.Repush?
  }

  predicate RecordInv(t: Token) {
    && (t.record.Some? ==> Terminal(t.record.value))
    && (t.loc.OnWorker? && Recorded(t.loc.at) ==> t.record.Some?)
    && (!t.active && t.record.None? ==> Unborn(t) || t.hist.activeHits == 1)
  }

  function StatusOf(o: Outcome): Status {
    match o
    case Success => Completed
    case Failure => Failed
    case Timeout => TimedOut
    case CancelSeen => Cancelled
  }

  /** The status tells of something that has happened to the task. */
  predicate Happened(t: Token, status: Status) {
    match status
    case Completed => Success in t.hist.outcomes
    case Failed => Failure in t.hist.outcomes
    case TimedOut => Timeout in t.hist.outcomes
    case Cancelled => t.hist.activeHits == 1
    case _ => false
  }

  /** The last outcome, as the worker's position tells it. */
  predicate OutcomeFits(t: Token, p: Point) {
    match p
    case TimeoutCount => LastIs(t, Timeout)
    case TimeoutCallback => LastIs(t, Timeout)
    case TimeoutRecord => LastIs(t, Timeout)
    case TimeoutErase => LastIs(t, Timeout)
    case DoneCount => LastIs(t, Success)
    case DoneCallback => LastIs(t, Success)
    case DoneRecord => LastIs(t, Success)
    case DoneErase => LastIs(t, Success)
    case Reschedule => LastIs(t, Success)
    case Reset => LastIs(t, Success)
    case Repush => LastIs(t, Success)
    case FailCount => LastIs(t, Failure)
    case FailCallback => LastIs(t, Failure)
    case FailRecord => LastIs(t, Failure)
    case FailErase => LastIs(t, Failure)
    case _ => true
  }

  predicate LastIs(t: Token, o: Outcome) {
    t.hist.outcomes != [] && t.hist.outcomes[|t.hist.outcomes| - 1] == o
  }

  /** completedTasks tells the truth; for a task that was never cancelled it tells the last outcome. */
  predicate TruthInv(t: Token) {
    && (t.record.Some? ==> Happened(t, t.record.value))
    && (t.loc.OnWorker? ==> OutcomeFits(t, t.loc.at))
    && (t.hist.activeHits == 0 && (t.loc.Settled? || (t.loc.OnWorker? && Recorded(t.loc.at))) ==> RecordsLast(t))
  }

  predicate RecordsLast(t: Token) {
    t.hist.outcomes != [] && t.record == Some(StatusOf(t.hist.outcomes[|t.hist.outcomes| - 1]))
  }

  /** A worker that will push the task again. */
  predicate Repeating(p: Point) {
    p.Reschedule? || p.Reset? || p.Repush?
  }

  /** The task function has not yet been called for this trip through the queue. */
  predicate BeforeStart(loc: Loc) {
    loc.AtClient? || loc.InQueue? || loc.InHand? || loc.InPool? || (loc.OnWorker? && loc.at.Taken?)
  }

  predicate OnceInv(t: Token) {
    && (t.loc.OnWorker? && Repeating(t.loc.at) ==> t.task.config.isRepeatable)
    && (!t.task.config.isRepeatable ==> |t.hist.starts| + (if BeforeStart(t.loc) then 1 else 0) <= 1)
  }

  /** The scheduler found the task due and has not started it yet. */
  predicate Due(loc: Loc) {
    loc.InHand? || loc.InPool? || (loc.OnWorker? && loc.at.Taken?)
  }

  predicate MidRun(loc: Loc) {
    loc.OnWorker? && loc.at.Executing?
  }

  /** The earliest time allowed for the next execution: the first start time, then one interval after the
      end of the execution before. */
  function Earliest(config: Config, ends: seq<int>): int {
    if ends == [] then config.startTime else ends[|ends| - 1] + config.interval
  }

  /** Execution k + 1 starts no earlier than one interval after execution k ended. */
  ghost predicate Spaced(config: Config, starts: seq<int>, ends: seq<int>) {
    && |ends| <= |starts| <= |ends| + 1
    && (forall k :: 0 <= k < |starts| ==> Earliest(config, ends[..k]) <= starts[k])
    && (forall k :: 0 <= k < |ends| ==> starts[k] <= ends[k])
  }

  predicate Past(times: seq<int>, now: int) {
    times == [] || times[|times| - 1] <= now
  }

  ghost predicate PaceInv(t: Token, now: Clock) {
    && Spaced(t.task.config, t.hist.starts, t.hist.ends)
    && |t.hist.starts| == |t.hist.ends| + (if MidRun(t.loc) then 1 else 0)
    && Past(t.hist.starts, now.system) && Past(t.hist.ends, now.system)
    && (Waiting(t.loc) ==> Earliest(t.task.config, t.hist.ends) <= t.task.startTime)
    && (Due(t.loc) ==> t.task.startTime <= now.system)
    && (t.loc.OnWorker? && !t.loc.at.Taken? ==> t.hist.starts != [])
  }

  /** The start time in the task is the one the next execution waits for. */
  predicate Waiting(loc: Loc) {
    BeforeStart(loc) || (loc.OnWorker? && (loc.at.Reset? || loc.at.Repush?))
  }

  predicate AllSuccess(o: seq<Outcome>) {
    forall i :: 0 <= i < |o| ==> o[i].Success?
  }

  /** COMPLETED* followed by at most one other outcome. */
  predicate InLanguage(o: seq<Outcome>) {
    o == [] || AllSuccess(o[..|o| - 1])
  }

  /** An outcome after which the task must never run again. */
  predicate Final(o: seq<Outcome>) {
    o != [] && !o[|o| - 1].Success?
  }

  /** The execution is under way and its outcome is not yet decided. */
  predicate Undecided(loc: Loc) {
    loc.OnWorker? &&
    (loc.at.Executing? || loc.at.TimeoutSet? || loc.at.FinalCheck? || loc.at.DoneSet? || loc.at.FailSet?)
  }

  /** The catch branch, and where it leads. */
  predicate Failing(loc: Loc) {
    || loc.Settled? || loc.Escaped?
    || (loc.OnWorker? && (loc.at.FailSet? || loc.at.FailCount? || loc.at.FailCallback? || loc.at.FailRecord?
                          || loc.at.FailErase?))
  }

  /** Where a task with a final outcome can be. */
  predicate Ending(t: Token) {
    || (Failing(t.loc) && (Undecided(t.loc) ==> t.hist.reentered))
    || (t.loc.OnWorker? && (t.loc.at.TimeoutCount? || t.loc.at.TimeoutCallback? || t.loc.at.TimeoutRecord?
                            || t.loc.at.TimeoutErase?))
  }

  /** One outcome for each execution that is decided, plus one if the catch branch was entered from a callback. */
  predicate OutcomeInv(t: Token) {
    && |t.hist.outcomes| + (if Undecided(t.loc) then 1 else 0) == |t.hist.starts| + (if t.hist.reentered then 1 else 0)
    && (t.hist.reentered ==> Failing(t.loc))
    && (!t.hist.reentered ==> InLanguage(t.hist.outcomes))
    && (Final(t.hist.outcomes) ==> Ending(t))
  }

  /** Execution k is over: the task function returned, but took too long. */
  predicate TookTooLong(t: Token, k: nat)
    requires k < |t.hist.began| && k < |t.hist.over| && k < |t.hist.threw|
  {
    !t.hist.threw[k] && ExceedsTimeout(t.task.config.timeout, Since(t.hist.began[k], t.hist.over[k]))
  }

  /** Both clocks have been read for each execution, in order. */
  ghost predicate MeasureInv(t: Token, now: Clock) {
    && |t.hist.began| == |t.hist.starts| && |t.hist.over| == |t.hist.threw| == |t.hist.ends|
    && Past(t.hist.began, now.steady) && |t.hist.over| <= |t.hist.began|
    && (forall k :: 0 <= k < |t.hist.over| ==> t.hist.began[k] <= t.hist.over[k])
  }

  /** The outcome of execution k is what its duration and the task function make it. */
  predicate VerdictFits(t: Token, k: nat)
    requires k < |t.hist.outcomes| && k < |t.hist.began| && k < |t.hist.over| && k < |t.hist.threw|
  {
    && (t.hist.outcomes[k].Failure? <==> t.hist.threw[k])
    && (t.hist.outcomes[k].Timeout? <==> TookTooLong(t, k))
    && (t.hist.outcomes[k].CancelSeen? ==> t.hist.activeHits == 1)
  }

  /** What the worker's position tells about the execution that is over and has no outcome yet. */
  predicate RunFits(t: Token, p: Point)
    requires |t.hist.over| == |t.hist.threw| <= |t.hist.began|
  {
    var k := |t.hist.over| - 1;
    match p
    case TimeoutSet => k >= 0 && TookTooLong(t, k)
    case FinalCheck => k >= 0 && !t.hist.threw[k] && !TookTooLong(t, k)
    case DoneSet => k >= 0 && !t.hist.threw[k] && !TookTooLong(t, k)
    case FailSet => !t.hist.reentered ==> k >= 0 && t.hist.threw[k]
    case _ => true
  }

  ghost predicate VerdictInv(t: Token) {
    && |t.hist.over| == |t.hist.threw| <= |t.hist.began|
    && (forall k :: 0 <= k < |t.hist.outcomes| && k < |t.hist.over| ==> VerdictFits(t, k))
    && (t.loc.OnWorker? ==> RunFits(t, t.loc.at))
  }

  /** The outcomes of the executions themselves, without the one that the catch branch adds for a callback. */
  function OwnOutcomes(t: Token): seq<Outcome> {
    if t.hist.reentered && t.hist.outcomes != [] && !Undecided(t.loc) then t.hist.outcomes[..|t.hist.outcomes| - 1]
    else t.hist.outcomes
  }

  /** A callback throws into the catch branch after a success or a time-out, and adds one failure. */
  predicate ReentryInv(t: Token) {
    t.hist.reentered ==>
      var o := OwnOutcomes(t);
      && o != [] && InLanguage(o) && (o[|o| - 1].Success? || o[|o| - 1].Timeout?)
      && (!Undecided(t.loc) ==> LastIs(t, Failure) && |t.hist.outcomes| == |o| + 1)
  }

  ghost predicate TokenInv(t: Token, now: Clock) {
    && StatusInv(t) && CancelInv(t) && RecordInv(t) && TruthInv(t) && OnceInv(t) && PaceInv(t, now)
    && OutcomeInv(t) && ReentryInv(t) && MeasureInv(t, now) && VerdictInv(t)
  }

  lemma NewTokenInv(config: Config, c: nat, now: Clock)
    ensures TokenInv(NewToken(config, c), now)
  {
  }

  lemma LaterInv(t: Token, now: Clock, later: Clock)
    requires TokenInv(t, now) && now.NotAfter(later)
    ensures TokenInv(t, later)
  {
  }

  lemma EventKeepsStatus(t: Token, ev: Event, now: Clock)
    requires StatusInv(t) && CancelInv(t) && Happens(t, ev, now)
    ensures StatusInv(AfterEvent(t, ev, now))
  {
  }

  lemma EventKeepsCancel(t: Token, ev: Event, now: Clock)
    requires StatusInv(t) && CancelInv(t) && Happens(t, ev, now)
    ensures CancelInv(AfterEvent(t, ev, now))
  {
  }

  lemma EventKeepsRecord(t: Token, ev: Event, now: Clock)
    requires StatusInv(t) && CancelInv(t) && RecordInv(t) && Happens(t, ev, now)
    ensures RecordInv(AfterEvent(t, ev, now))
  {
  }

  /** The statement at which an execution begins, or at which its outcome is decided. */
  predicate Deciding(p: Point) {
    p.Taken? || p.TimeoutSet? || p.FinalCheck? || p.DoneSet? || p.FailSet?
  }

  /** A further outcome takes nothing away from what has happened. */
  lemma StillHappened(t: Token, u: Token, status: Status, o: Outcome)
    requires Happened(t, status) && u.hist.outcomes == t.hist.outcomes + [o] && u.hist.activeHits == t.hist.activeHits
    ensures Happened(u, status) && LastIs(u, o)
  {
  }

  lemma DecisionKeepsTruth(t: Token, choice: Choice, now: Clock)
    requires StatusInv(t) && CancelInv(t) && TruthInv(t) && Happens(t, Work(choice), now) && Deciding(t.loc.at)
    ensures TruthInv(AfterEvent(t, Work(choice), now))
  {
    var u := AfterEvent(t, Work(choice), now);
    if u.hist.outcomes != t.hist.outcomes {
      var o := u.hist.outcomes[|u.hist.outcomes| - 1];
      assert LastIs(u, o);
      if t.record.Some? {
        StillHappened(t, u, t.record.value, o);
      }
    }
  }

  lemma WorkKeepsTruth(t: Token, choice: Choice, now: Clock)
    requires StatusInv(t) && TruthInv(t) && Happens(t, Work(choice), now) && !Deciding(t.loc.at)
    ensures TruthInv(AfterEvent(t, Work(choice), now))
  {
    hide Effect, NextLoc, StatusInv;
    WorkRecords(t, choice, now);
    WorkLeadsOn(t, choice, now);
  }

  /** Only the statements that record change the entry in completedTasks. */
  lemma WorkRecords(t: Token, choice: Choice, now: Clock)
    requires TruthInv(t) && Happens(t, Work(choice), now) && !Deciding(t.loc.at)
    ensures var u := AfterEvent(t, Work(choice), now);
            && u.hist.outcomes == t.hist.outcomes && u.hist.activeHits == t.hist.activeHits
            && u.record == (match t.loc.at
                            case TimeoutRecord => Some(TimedOut)
                            case DoneRecord => Some(Completed)
                            case FailRecord => Some(Failed)
                            case _ => t.record)
  {
  }

  /** After a record comes the end of the execution or the next round. */
  lemma WorkLeadsOn(t: Token, choice: Choice, now: Clock)
    requires TruthInv(t) && Happens(t, Work(choice), now) && !Deciding(t.loc.at)
    ensures var loc := AfterEvent(t, Work(choice), now).loc;
            && (loc.Settled? || (loc.OnWorker? && Recorded(loc.at)) ==>
                  Recorded(t.loc.at) || t.loc.at.TimeoutRecord? || t.loc.at.DoneRecord? || t.loc.at.FailRecord?)
            && (loc.OnWorker? ==> OutcomeFits(t, loc.at))
  {
  }

  lemma EventKeepsTruth(t: Token, ev: Event, now: Clock)
    requires StatusInv(t) && CancelInv(t) && TruthInv(t) && Happens(t, ev, now)
    ensures TruthInv(AfterEvent(t, ev, now))
  {
    if ev.Work? {
      if Deciding(t.loc.at) {
        DecisionKeepsTruth(t, ev.choice, now);
      } else {
        WorkKeepsTruth(t, ev.choice, now);
      }
    } else {
      var u := AfterEvent(t, ev, now);
      assert u.hist.outcomes == t.hist.outcomes && u.hist.activeHits >= t.hist.activeHits;
    }
  }

  lemma EventKeepsOnce(t: Token, ev: Event, now: Clock)
    requires OnceInv(t) && Happens(t, ev, now)
    ensures OnceInv(AfterEvent(t, ev, now))
  {
  }

  lemma SpacedStart(config: Config, starts: seq<int>, ends: seq<int>, now: int)
    requires Spaced(config, starts, ends) && |starts| == |ends| && Earliest(config, ends) <= now
    ensures Spaced(config, starts + [now], ends)
  {
    assert ends[..|ends|] == ends;
  }

  lemma SpacedEnd(config: Config, starts: seq<int>, ends: seq<int>, now: int)
    requires Spaced(config, starts, ends) && |starts| == |ends| + 1 && Past(starts, now)
    ensures Spaced(config, starts, ends + [now])
  {
    forall k | 0 <= k < |starts|
      ensures Earliest(config, (ends + [now])[..k]) <= starts[k]
    {
      assert (ends + [now])[..k] == ends[..k];
    }
  }

  lemma StartKeepsPace(t: Token, w: nat, now: Clock)
    requires PaceInv(t, now) && t.loc.OnWorker? && t.loc.at.Taken?
    ensures PaceInv(WorkToken(t, w, Taken, Quiet, now), now)
  {
    SpacedStart(t.task.config, t.hist.starts, t.hist.ends, now.system);
  }

  lemma EndKeepsPace(t: Token, w: nat, choice: Choice, now: Clock)
    requires PaceInv(t, now) && t.loc.OnWorker? && t.loc.at.Executing? && !choice.Quiet?
    ensures PaceInv(WorkToken(t, w, Executing, choice, now), now)
  {
    var u := WorkToken(t, w, Executing, choice, now);
    SpacedEnd(t.task.config, t.hist.starts, t.hist.ends, now.system);
    assert u.hist.starts == t.hist.starts && u.hist.ends == t.hist.ends + [now.system] && u.task == t.task;
    assert !MidRun(u.loc) && !Waiting(u.loc) && !Due(u.loc);
  }

  lemma WorkKeepsPace(t: Token, w: nat, choice: Choice, now: Clock)
    requires PaceInv(t, now) && t.loc.OnWorker? && !t.loc.at.Finished? && ChoiceFits(t.loc.at, choice)
    requires !t.loc.at.Taken? && !t.loc.at.Executing?
    ensures PaceInv(WorkToken(t, w, t.loc.at, choice, now), now)
  {
    var u := WorkToken(t, w, t.loc.at, choice, now);
    assert u.hist.starts == t.hist.starts && u.hist.ends == t.hist.ends && u.task.config == t.task.config;
    assert !MidRun(t.loc) && !MidRun(u.loc) && !Due(u.loc);
    assert Waiting(u.loc) ==> Repeating(t.loc.at);
    assert t.loc.at.Reset? || t.loc.at.Repush? ==> u.task.startTime == t.task.startTime;
  }

  lemma EventKeepsPace(t: Token, ev: Event, now: Clock)
    requires PaceInv(t, now) && Happens(t, ev, now)
    ensures PaceInv(AfterEvent(t, ev, now), now)
  {
    if ev.Work? {
      if t.loc.at.Taken? {
        StartKeepsPace(t, t.loc.w, now);
      } else if t.loc.at.Executing? {
        EndKeepsPace(t, t.loc.w, ev.choice, now);
      } else {
        WorkKeepsPace(t, t.loc.w, ev.choice, now);
      }
    }
  }

  lemma DecisionKeepsOutcome(t: Token, choice: Choice, now: Clock)
    requires StatusInv(t) && OutcomeInv(t) && Happens(t, Work(choice), now) && Deciding(t.loc.at)
    ensures OutcomeInv(AfterEvent(t, Work(choice), now))
  {
  }

  lemma WorkKeepsOutcome(t: Token, choice: Choice, now: Clock)
    requires StatusInv(t) && OutcomeInv(t) && Happens(t, Work(choice), now) && !Deciding(t.loc.at)
    ensures OutcomeInv(AfterEvent(t, Work(choice), now))
  {
    var u := AfterEvent(t, Work(choice), now);
    assert u.hist.outcomes == t.hist.outcomes && u.hist.starts == t.hist.starts;
  }

  lemma EventKeepsOutcome(t: Token, ev: Event, now: Clock)
    requires StatusInv(t) && OutcomeInv(t) && Happens(t, ev, now)
    ensures OutcomeInv(AfterEvent(t, ev, now))
  {
    if ev.Work? {
      if Deciding(t.loc.at) {
        DecisionKeepsOutcome(t, ev.choice, now);
      } else {
        WorkKeepsOutcome(t, ev.choice, now);
      }
    }
  }

  lemma ReenterKeepsReentry(t: Token, now: Clock)
    requires OutcomeInv(t) && TruthInv(t) && Happens(t, Work(Threw), now)
    requires t.loc.at.TimeoutCallback? || t.loc.at.DoneCallback?
    ensures ReentryInv(AfterEvent(t, Work(Threw), now))
  {
    assert OutcomeFits(t, t.loc.at);
  }

  lemma EventKeepsReentry(t: Token, ev: Event, now: Clock)
    requires StatusInv(t) && OutcomeInv(t) && TruthInv(t) && ReentryInv(t) && Happens(t, ev, now)
    ensures ReentryInv(AfterEvent(t, ev, now))
  {
    if ev.Work? && ev.choice.Threw? && (t.loc.at.TimeoutCallback? || t.loc.at.DoneCallback?) {
      ReenterKeepsReentry(t, now);
    } else if ev.Work? {
      WorkKeepsReentry(t, ev.choice, now);
    }
  }

  lemma WorkKeepsReentry(t: Token, choice: Choice, now: Clock)
    requires OutcomeInv(t) && ReentryInv(t) && Happens(t, Work(choice), now)
    requires choice.Threw? ==> !t.loc.at.TimeoutCallback? && !t.loc.at.DoneCallback?
    ensures ReentryInv(AfterEvent(t, Work(choice), now))
  {
    if t.hist.reentered {
      FailingKeepsReentry(t, choice, now);
    }
  }

  lemma FailingKeepsReentry(t: Token, choice: Choice, now: Clock)
    requires Failing(t.loc) && ReentryInv(t) && Happens(t, Work(choice), now)
    ensures ReentryInv(AfterEvent(t, Work(choice), now))
  {
    var u := AfterEvent(t, Work(choice), now);
    if t.loc.at.FailSet? {
      assert u.hist.outcomes == t.hist.outcomes + [Failure];
    } else {
      assert u.hist.outcomes == t.hist.outcomes && !Undecided(t.loc) && !Undecided(u.loc);
    }
  }

  lemma EventKeepsMeasure(t: Token, ev: Event, now: Clock)
    requires PaceInv(t, now) && MeasureInv(t, now) && Happens(t, ev, now)
    ensures MeasureInv(AfterEvent(t, ev, now), now)
  {
    if ev.Work? && t.loc.at.Taken? {
      StartKeepsMeasure(t, now);
    } else if ev.Work? && t.loc.at.Executing? {
      EndKeepsMeasure(t, ev.choice, now);
    } else {
      OtherKeepsTimes(t, ev, now);
    }
  }

  lemma OtherKeepsTimes(t: Token, ev: Event, now: Clock)
    requires Happens(t, ev, now) && !(ev.Work? && (t.loc.at.Taken? || t.loc.at.Executing?))
    ensures var h, g := t.hist, AfterEvent(t, ev, now).hist;
            && g.began == h.began && g.over == h.over && g.threw == h.threw && g.starts == h.starts && g.ends == h.ends
  {
    hide NextLoc;
  }

  lemma StartKeepsMeasure(t: Token, now: Clock)
    requires MeasureInv(t, now) && t.loc.OnWorker? && t.loc.at.Taken?
    ensures MeasureInv(AfterEvent(t, Work(Quiet), now), now)
  {
  }

  lemma EndKeepsMeasure(t: Token, choice: Choice, now: Clock)
    requires PaceInv(t, now) && MeasureInv(t, now) && Happens(t, Work(choice), now) && t.loc.at.Executing?
    ensures MeasureInv(AfterEvent(t, Work(choice), now), now)
  {
  }

  lemma EndKeepsVerdict(t: Token, choice: Choice, now: Clock)
    requires PaceInv(t, now) && MeasureInv(t, now) && OutcomeInv(t) && VerdictInv(t)
    requires Happens(t, Work(choice), now) && t.loc.at.Executing?
    ensures VerdictInv(AfterEvent(t, Work(choice), now))
  {
    var u := AfterEvent(t, Work(choice), now);
    assert u.hist.outcomes == t.hist.outcomes && u.hist.began == t.hist.began;
    forall k | 0 <= k < |u.hist.outcomes| && k < |u.hist.over|
      ensures VerdictFits(u, k)
    {
      assert VerdictFits(t, k);
    }
  }

  lemma DecisionKeepsVerdict(t: Token, choice: Choice, now: Clock)
    requires StatusInv(t) && CancelInv(t) && PaceInv(t, now) && MeasureInv(t, now) && OutcomeInv(t) && VerdictInv(t)
    requires Happens(t, Work(choice), now) && Deciding(t.loc.at)
    ensures VerdictInv(AfterEvent(t, Work(choice), now))
  {
    var u := AfterEvent(t, Work(choice), now);
    forall k | 0 <= k < |u.hist.outcomes| && k < |u.hist.over|
      ensures VerdictFits(u, k)
    {
      if k < |t.hist.outcomes| {
        assert VerdictFits(t, k);
      }
    }
  }

  lemma EventKeepsVerdict(t: Token, ev: Event, now: Clock)
    requires StatusInv(t) && CancelInv(t) && PaceInv(t, now) && MeasureInv(t, now) && OutcomeInv(t) && VerdictInv(t)
    requires Happens(t, ev, now)
    ensures VerdictInv(AfterEvent(t, ev, now))
  {
    if ev.Work? && t.loc.at.Executing? {
      EndKeepsVerdict(t, ev.choice, now);
    } else if ev.Work? && Deciding(t.loc.at) {
      DecisionKeepsVerdict(t, ev.choice, now);
    } else {
      OtherKeepsVerdict(t, ev, now);
    }
  }

  lemma OtherKeepsVerdict(t: Token, ev: Event, now: Clock)
    requires CancelInv(t) && VerdictInv(t) && Happens(t, ev, now)
    requires ev.Work? ==> !t.loc.at.Executing? && !Deciding(t.loc.at)
    ensures VerdictInv(AfterEvent(t, ev, now))
  {
    var u := AfterEvent(t, ev, now);
    OtherKeepsTimes(t, ev, now);
    assert u.hist.outcomes == t.hist.outcomes && u.task.config == t.task.config;
    forall k | 0 <= k < |u.hist.outcomes| && k < |u.hist.over|
      ensures VerdictFits(u, k)
    {
      assert VerdictFits(t, k);
    }
  }

  lemma EventKeepsInv(t: Token, ev: Event, now: Clock)
    requires TokenInv(t, now) && Happens(t, ev, now)
    ensures TokenInv(AfterEvent(t, ev, now), now)
  {
    EventKeepsStatus(t, ev, now);
    EventKeepsCancel(t, ev, now);
    EventKeepsRecord(t, ev, now);
    EventKeepsTruth(t, ev, now);
    EventKeepsOnce(t, ev, now);
    EventKeepsPace(t, ev, now);
    EventKeepsOutcome(t, ev, now);
    EventKeepsReentry(t, ev, now);
    EventKeepsMeasure(t, ev, now);
    EventKeepsVerdict(t, ev, now);
  }

  // ---------- How a task may change over a whole run ----------

  /** How often a task that left activeTasks may still be started. */
  function StartsLeft(loc: Loc): nat {
    if loc == InHand(Approved) || loc == InHand(Marked) || loc.InPool? || (loc.OnWorker? && loc.at.Taken?) then 1 else 0
  }

  predicate Retired(loc: Loc) {
    loc.Skipped? || loc.Dropped? || loc.Discarded? || loc.Settled? || loc.Escaped?
  }

  ghost predicate Grows(t: Token, u: Token) {
    && u.task.config == t.task.config
    && t.hist.starts <= u.hist.starts && t.hist.outcomes <= u.hist.outcomes
    && (t.hist.reentered ==> u.hist.reentered) && (CancelThrew(t) ==> CancelThrew(u))
    && (t.record.Some? ==> u.record.Some?)
    && (!Unborn(t) ==> !Unborn(u)) && (!t.loc.AtClient? ==> !u.loc.AtClient?)
    && t.hist.activeHits <= u.hist.activeHits
  }

  /** A task that left activeTasks stays out, and its starts are numbered. */
  ghost predicate StaysGone(t: Token, u: Token) {
    Gone(t) ==> Gone(u) && |u.hist.starts| + StartsLeft(u.loc) <= |t.hist.starts| + StartsLeft(t.loc)
  }

  predicate SameRuns(t: Token, u: Token) {
    u.hist.starts == t.hist.starts && u.hist.outcomes == t.hist.outcomes && u.hist.repushes == t.hist.repushes
  }

  ghost predicate StaysRetired(t: Token, u: Token) {
    Retired(t.loc) ==> u.loc == t.loc && SameRuns(t, u)
  }

  /** After a final outcome nothing runs; only the catch branch may add its own outcome. */
  ghost predicate StaysFinal(t: Token, u: Token) {
    Final(t.hist.outcomes) ==>
      && Final(u.hist.outcomes)
      && u.hist.starts == t.hist.starts
      && (u.hist.outcomes == t.hist.outcomes || u.hist.reentered)
  }

  /** A later state u of the task that was t. The relation is transitive, so it covers runs. */
  ghost predicate Later(t: Token, u: Token) {
    Grows(t, u) && StaysGone(t, u) && StaysRetired(t, u) && StaysFinal(t, u)
  }

  lemma LaterTransitive(t: Token, u: Token, v: Token)
    requires Later(t, u) && Later(u, v)
    ensures Later(t, v)
  {
  }

  lemma EventGrows(t: Token, ev: Event, now: Clock)
    requires Happens(t, ev, now)
    ensures Grows(t, AfterEvent(t, ev, now)) && StaysRetired(t, AfterEvent(t, ev, now))
  {
    if ev.Work? {
      WorkGrows(t, ev.choice, now);
    }
  }

  lemma WorkGrows(t: Token, choice: Choice, now: Clock)
    requires Happens(t, Work(choice), now)
    ensures Grows(t, AfterEvent(t, Work(choice), now)) && StaysRetired(t, AfterEvent(t, Work(choice), now))
  {
    hide NextLoc;
    WorkLeavesClient(t, choice, now);
  }

  lemma WorkLeavesClient(t: Token, choice: Choice, now: Clock)
    requires Happens(t, Work(choice), now)
    ensures !AfterEvent(t, Work(choice), now).loc.AtClient?
  {
    hide Effect;
  }

  lemma EventStaysGone(t: Token, ev: Event, now: Clock)
    requires StatusInv(t) && Happens(t, ev, now)
    ensures StaysGone(t, AfterEvent(t, ev, now))
  {
  }

  lemma EventStaysFinal(t: Token, ev: Event, now: Clock)
    requires StatusInv(t) && OutcomeInv(t) && Happens(t, ev, now)
    ensures StaysFinal(t, AfterEvent(t, ev, now))
  {
  }

  lemma EventIsLater(t: Token, ev: Event, now: Clock)
    requires TokenInv(t, now) && Happens(t, ev, now)
    ensures Later(t, AfterEvent(t, ev, now))
  {
    EventGrows(t, ev, now);
    EventStaysGone(t, ev, now);
    EventStaysFinal(t, ev, now);
  }

  /** From the scheduler's hand a task only moves on in the loop, is skipped, or is dispatched. */
  lemma EventInHand(t: Token, ev: Event, now: Clock)
    requires t.loc.InHand? && Happens(t, ev, now)
    ensures var u := AfterEvent(t, ev, now);
            if ev.Dispatch? then u.loc.InPool? else u.loc.InHand? || u.loc.Skipped?
  {
  }

  lemma EventKeepsHits(t: Token, ev: Event, now: Clock)
    requires Happens(t, ev, now) && !ev.CancelActive? && !ev.CancelQueued?
    ensures AfterEvent(t, ev, now).hist.activeHits == t.hist.activeHits
    ensures AfterEvent(t, ev, now).hist.queueHits == t.hist.queueHits
  {
  }

  lemma EventKeepsReentered(t: Token, ev: Event, now: Clock)
    requires Happens(t, ev, now) && !ev.Work?
    ensures AfterEvent(t, ev, now).hist.reentered == t.hist.reentered
  {
  }

  /** No event changes the key of a task whose token is in the ready queue. */
  lemma EventKeepsQueuedKey(t: Token, ev: Event, now: Clock)
    requires t.loc.InQueue? && Happens(t, ev, now)
    ensures KeyOf(AfterEvent(t, ev, now).task) == KeyOf(t.task)
  {
  }
}
