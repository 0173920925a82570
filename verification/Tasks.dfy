/** Tasks: the ordering of Task::operator>, the time-out test, and the mutable Task object. */
module Tasks {
  import opened TaskIds

  datatype Status = Pending | Running | Completed | Failed | Cancelled | TimedOut

  /** The statuses that completedTasks may hold. */
  predicate Terminal(s: Status) {
    !s.Pending? && !s.Running?
  }

  /** What the ready queue compares: lower priority first, then earlier start time. */
  datatype Key = Key(priority: int, startTime: int)

  /** Task::operator>: a is dispatched after b. */
  predicate After(a: Key, b: Key) {
    if a.priority != b.priority then a.priority > b.priority else a.startTime > b.startTime
  }

  /** Readings of the two clocks of the program, in ticks: system_clock for start times, steady_clock for
      durations. Neither goes back, and they need not advance together. */
  datatype Clock = Clock(system: int, steady: int) {
    predicate NotAfter(later: Clock) {
      system <= later.system && steady <= later.steady
    }
  }

  /** Durations are compared in whole seconds, truncated. */
  const TICKS_PER_SECOND: nat := 1_000_000_000

  function WholeSeconds(ticks: nat): nat {
    ticks / TICKS_PER_SECOND
  }

  /** The test of runTaskWithTimeout: a limit of zero or less means no limit. */
  predicate ExceedsTimeout(timeout: int, elapsed: nat) {
    timeout > 0 && WholeSeconds(elapsed) > timeout
  }

  /** The arguments of scheduleTask other than the function itself. interval is repeatEvery in ticks. */
  datatype Config = Config(startTime: int, priority: int, isRepeatable: bool, interval: int, timeout: int)

  /** What a Task object holds at one moment. */
  datatype TaskRec = TaskRec(config: Config, startTime: int, status: Status)

  function KeyOf(t: TaskRec): Key {
    Key(t.config.priority, t.startTime)
  }

  function NewTask(config: Config): TaskRec {
    TaskRec(config, config.startTime, Pending)
  }

  /** A shared task object: only its start time and status change after construction. */
  class Task {
    const id: Id
    const config: Config
    var startTime: int
    var status: Status

    constructor (id: Id, config: Config)
      ensures this.id == id && Rec() == NewTask(config)
      ensures this.config == config && startTime == config.startTime && status == Pending
    {
      this.id := id;
      this.config := config;
      startTime := config.startTime;
      status := Pending;
    }

    function SortKey(): Key
      reads this`startTime
    {
      Key(config.priority, startTime)
    }

    function Rec(): TaskRec
      reads this
    {
      TaskRec(config, startTime, status)
    }

    method SetStatus(s: Status)
      modifies this`status
      ensures Rec() == old(Rec()).(status := s)
    {
      status := s;
    }

    /** Task::reschedule(): the next start is one interval after the current time. */
    method Reschedule(now: int)
      modifies this`startTime
      ensures Rec() == old(Rec()).(startTime := now + config.interval)
    {
      startTime := now + config.interval;
    }
  }

  /** The documentation says a task over its limit times out; the code allows one more whole second. */
  lemma TimeoutIsCoarse(timeout: int, elapsed: nat)
    ensures ExceedsTimeout(timeout, elapsed) <==> timeout > 0 && elapsed >= (timeout + 1) * TICKS_PER_SECOND
  {
  }

  lemma OverLimitNotReported(timeout: int)
    requires timeout > 0
    ensures exists elapsed: nat :: elapsed > timeout * TICKS_PER_SECOND && !ExceedsTimeout(timeout, elapsed)
  {
    var elapsed: nat := timeout * TICKS_PER_SECOND + 1;
    TimeoutIsCoarse(timeout, elapsed);
  }
}
