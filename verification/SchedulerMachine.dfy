/**
 * Every interleaving of the scheduler: any caller may run any script at any time, a single watchdog
 * goroutine advances one Redis round trip at a time, and the clock ticks in whole seconds.
 * A step that is not possible leaves the machine unchanged, so every sequence of steps is a run.
 */
module SchedulerMachine {
  import opened Keys
  import opened TaskStore
  import opened History

  /** Where the watchdog goroutine is inside one scan. */
  datatype Watchdog =
    | Idle
    | Scanning(limit: nat, ids: seq<string>)         // LINDEX |ids| comes next
    | Checking(ids: seq<string>)                     // TTL + HGET of ids[0] comes next
    | Dropping(trace: string, ids: seq<string>)      // LREM 1 trace comes next
    | Reclaiming(trace: string, ids: seq<string>)    // the reclaim script comes next

  datatype Machine = Machine(store: Store, log: seq<Event>, dog: Watchdog, lastPass: int)

  const Start := Machine(EmptyStore, [], Idle, 0)

  datatype Step =
    | DoPublish(trace: string, slot: Slot, galleryKey: string, force: bool)
    | DoFetch(trace: string, node: string)
    | DoComplete(trace: string, node: string, url: string)
    | DoFail(trace: string, node: string, mode: FailMode)
    | DoUpdateCost(trace: string, freeTier: bool, estimatedGP: int)
    | DoWatchdog          // one round trip of the watchdog
    | DoPass              // a whole scan with nothing in between
    | DoTick

  ghost predicate Born(m: Machine, t: string) {
    t in Replay(m.log).traces
  }

  /** The uuid of a new task was never used before. */
  ghost predicate FreshTrace(m: Machine, t: string) {
    !Born(m, t)
  }

  function PublishStep(c: Config, m: Machine, trace: string, slot: Slot, galleryKey: string, force: bool): Machine {
    m.(store := Publish(c, m.store, trace, slot, galleryKey, force),
       log := if PublishReplyFor(m.store, trace, slot, force).Created?
              then m.log + [TaskCreated(trace, slot)] else m.log)
  }

  function FetchStep(c: Config, m: Machine, t: string, node: string): Machine {
    m.(store := Fetch(c, m.store, t, node),
       log := if StatusIs(m.store, t, Pending) then m.log + [TaskFetched(t, node)] else m.log)
  }

  function CompleteStep(c: Config, m: Machine, t: string, node: string, url: string): Machine {
    m.(store := Complete(c, m.store, t, node, url),
       log := if CompleteReplyFor(m.store, t, node) == CompleteOk
              then m.log + [TaskCompleted(t, node, url, m.store.now)] else m.log)
  }

  function FailStep(m: Machine, t: string, node: string, mode: FailMode): Machine {
    m.(store := Finalize(m.store, t, node, mode),
       log := if FailReplyFor(m.store, t, node) == FailOk then m.log + [TaskFailed(t, node, mode)] else m.log)
  }

  function ReclaimStep(c: Config, m: Machine, t: string): Machine {
    m.(store := Reclaim(c, m.store, t),
       log := if StatusIs(m.store, t, Processing) then m.log + [TaskReclaimed(t)] else m.log)
  }

  function Min(a: nat, b: nat): nat {
    if a < b then a else b
  }

  /** One round trip of reclaimExpiredTasks. */
  function WatchdogStep(c: Config, m: Machine): Machine {
    match m.dog
    case Idle =>
      if m.store.queue == [] then m
      else m.(dog := Scanning(Min(|m.store.queue|, SCAN_LIMIT), []))
    case Scanning(limit, ids) =>
      if |ids| < limit && |ids| < |m.store.queue| then m.(dog := Scanning(limit, ids + [m.store.queue[|ids|]]))
      else m.(dog := Checking(ids))
    case Checking(ids) =>
      if ids == [] then m.(dog := Idle)
      else if !HasStatus(m.store, ids[0]) then m.(dog := Dropping(ids[0], ids[1..]))
      else if Expiring(c, m.store, ids[0]) then m.(dog := Reclaiming(ids[0], ids[1..]))
      else m.(dog := Checking(ids[1..]))
    case Dropping(t, ids) =>
      m.(store := m.store.(queue := RemoveFirst(m.store.queue, t)), dog := Checking(ids))
    case Reclaiming(t, ids) =>
      ReclaimStep(c, m, t).(dog := Checking(ids))
  }

  /** Round trips left before the watchdog is idle again, at most. */
  function Remaining(dog: Watchdog): nat {
    match dog
    case Idle => 0
    case Scanning(limit, ids) => 2 * |ids| + 3 * (if |ids| < limit then limit - |ids| else 0) + 2
    case Checking(ids) => 2 * |ids| + 1
    case Dropping(_, ids) => 2 * |ids| + 2
    case Reclaiming(_, ids) => 2 * |ids| + 2
  }

  function RunToIdle(c: Config, m: Machine): Machine
    decreases Remaining(m.dog)
  {
    if m.dog.Idle? then m else RunToIdle(c, WatchdogStep(c, m))
  }

  /** A scan that nothing interrupts: the same round trips, back to back. */
  function PassStep(c: Config, m: Machine): Machine {
    if !m.dog.Idle? then m
    else RunToIdle(c, WatchdogStep(c, m)).(lastPass := m.store.now)
  }

  ghost function Next(c: Config, m: Machine, s: Step): Machine {
    match s
    case DoPublish(t, slot, gk, force) => if FreshTrace(m, t) then PublishStep(c, m, t, slot, gk, force) else m
    case DoFetch(t, node) => FetchStep(c, m, t, node)
    case DoComplete(t, node, url) => CompleteStep(c, m, t, node, url)
    case DoFail(t, node, mode) => FailStep(m, t, node, mode)
    case DoUpdateCost(t, free, gp) => if Born(m, t) then m.(store := UpdateCost(m.store, t, free, gp)) else m
    case DoWatchdog => WatchdogStep(c, m)
    case DoPass => PassStep(c, m)
    case DoTick => m.(store := Tick(m.store))
  }

  /** A finite behaviour: the states passed through and the steps between them. */
  datatype Run = Run(states: seq<Machine>, steps: seq<Step>) {
    function Last(): Machine
      requires states != []
    {
      states[|states| - 1]
    }
  }

  ghost predicate StepAt(c: Config, r: Run, i: nat)
    requires i < |r.steps| && |r.states| == |r.steps| + 1
  {
    r.states[i + 1] == Next(c, r.states[i], r.steps[i])
  }

  ghost predicate IsRun(c: Config, r: Run) {
    && |r.states| == |r.steps| + 1
    && r.states[0] == Start
    && forall i :: 0 <= i < |r.steps| ==> StepAt(c, r, i)
  }

  const NoSteps := Run([Start], [])

  ghost function Extend(c: Config, r: Run, s: Step): Run
    requires r.states != []
  {
    Run(r.states + [Next(c, r.Last(), s)], r.steps + [s])
  }

  lemma ExtendIsRun(c: Config, r: Run, s: Step)
    requires IsRun(c, r)
    ensures IsRun(c, Extend(c, r, s)) && Extend(c, r, s).Last() == Next(c, r.Last(), s)
  {
    var x := Extend(c, r, s);
    forall i | 0 <= i < |x.steps| ensures StepAt(c, x, i) {
      if i < |r.steps| { assert StepAt(c, r, i); }
    }
  }
}
