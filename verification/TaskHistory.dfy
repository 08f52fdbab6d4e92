/**
 * The task hashes told from the log alone. What a trace's hash says, and whether there is one, follows from
 * the latest event of that trace and the second it happened in; so does what each script replies.
 */
module TaskHistory {
  import opened Keys
  import opened TaskStore
  import opened History
  import opened SchedulerMachine
  import opened LeaseSafety
  import opened SchedulerTheorems

  /** The latest event of a trace. */
  function LastOf(log: seq<Event>, t: string): Option<Event> {
    if log == [] then None
    else if log[|log| - 1].trace == t then Some(log[|log| - 1])
    else LastOf(log[..|log| - 1], t)
  }

  lemma LastOfAppend(log: seq<Event>, e: Event, t: string)
    ensures LastOf(log + [e], t) == if e.trace == t then Some(e) else LastOf(log, t)
  {
    assert (log + [e])[..|log|] == log;
  }

  /** Has the trace had an event since? */
  ghost predicate HasNews(log: seq<Event>, log': seq<Event>, t: string) {
    exists j :: |log| <= j < |log'| && log'[j].trace == t
  }

  /** The second of the trace's latest event. */
  ghost function LastAt(r: Run, n: nat, t: string): int
    requires n < |r.states|
  {
    if n == 0 then 0
    else if HasNews(r.states[n - 1].log, r.states[n].log, t) then r.states[n - 1].store.now
    else LastAt(r, n - 1, t)
  }

  /** How long the hash lives after an event: three leases to be claimed, one to be worked on, 300 s to be read. */
  function LifeAfter(c: Config, e: Event): int {
    match e
    case TaskCreated(_, _) => 3 * c.lease
    case TaskReclaimed(_) => 3 * c.lease
    case TaskFetched(_, _) => c.lease
    case TaskCompleted(_, _, _, _) => 300
    case TaskFailed(_, _, mode) => if mode == FailMode.Reject then 0 else 300
  }

  function StatusAfter(e: Event): Status {
    match e
    case TaskCreated(_, _) => Pending
    case TaskReclaimed(_) => Pending
    case TaskFetched(_, _) => Processing
    case TaskCompleted(_, _, _, _) => Completed
    case TaskFailed(_, _, _) => Failed
  }

  /** Who works on the task after an event, or did when it was completed. */
  predicate NodeFits(e: Event, node: string) {
    match e
    case TaskCreated(_, _) => node == ""
    case TaskReclaimed(_) => node == ""
    case TaskFetched(_, n) => node == n
    case TaskCompleted(_, n, _, _) => node == n
    case TaskFailed(_, _, _) => true
  }

  /** The hash is there while its time lasts, and says what the event made of it; a rejected task has no time at all. */
  predicate Follows(c: Config, s: Store, t: string, last: Option<Event>, at: int) {
    match last
    case None => t !in s.tasks
    case Some(e) =>
      && at <= s.now
      && (HasStatus(s, t) <==> s.now < at + LifeAfter(c, e))
      && (HasStatus(s, t) ==>
            && s.tasks[t].status == StatusAfter(e) && s.tasks[t].expiresAt == at + LifeAfter(c, e)
            && NodeFits(e, s.tasks[t].node))
  }

  ghost predicate FollowsFrom(c: Config, m: Machine, m': Machine, t: string, at: int) {
    Follows(c, m'.store, t, LastOf(m'.log, t), if HasNews(m.log, m'.log, t) then m.store.now else at)
  }

  // ---- one script at a time ----

  /** One event more: it is news for its own trace, and for no other. */
  lemma OneEvent(c: Config, m: Machine, m': Machine, e: Event, t: string, at: int)
    requires m'.log == m.log + [e]
    requires Follows(c, m'.store, t, if e.trace == t then Some(e) else LastOf(m.log, t),
                     if e.trace == t then m.store.now else at)
    ensures FollowsFrom(c, m, m', t, at)
  {
    LastOfAppend(m.log, e, t);
    if e.trace == t { assert m'.log[|m.log|].trace == t; }
  }

  lemma NoEvent(c: Config, m: Machine, m': Machine, t: string, at: int)
    requires m'.log == m.log && Follows(c, m'.store, t, LastOf(m.log, t), at)
    ensures FollowsFrom(c, m, m', t, at)
  {
  }

  lemma PublishFollows(c: Config, m: Machine, u: string, k: Slot, gk: string, force: bool, t: string, at: int)
    requires Follows(c, m.store, t, LastOf(m.log, t), at)
    ensures FollowsFrom(c, m, PublishStep(c, m, u, k, gk, force), t, at)
  {
    var m' := PublishStep(c, m, u, k, gk, force);
    if m'.log == m.log { NoEvent(c, m, m', t, at); } else { OneEvent(c, m, m', TaskCreated(u, k), t, at); }
  }

  lemma FetchFollows(c: Config, m: Machine, u: string, node: string, t: string, at: int)
    requires Follows(c, m.store, t, LastOf(m.log, t), at)
    ensures FollowsFrom(c, m, FetchStep(c, m, u, node), t, at)
  {
    var m' := FetchStep(c, m, u, node);
    if m'.log == m.log { NoEvent(c, m, m', t, at); } else { OneEvent(c, m, m', TaskFetched(u, node), t, at); }
  }

  lemma CompleteFollows(c: Config, m: Machine, u: string, node: string, url: string, t: string, at: int)
    requires Follows(c, m.store, t, LastOf(m.log, t), at)
    ensures FollowsFrom(c, m, CompleteStep(c, m, u, node, url), t, at)
  {
    var m' := CompleteStep(c, m, u, node, url);
    if m'.log == m.log { NoEvent(c, m, m', t, at); }
    else { OneEvent(c, m, m', TaskCompleted(u, node, url, m.store.now), t, at); }
  }

  lemma FailFollows(c: Config, m: Machine, u: string, node: string, mode: FailMode, t: string, at: int)
    requires Follows(c, m.store, t, LastOf(m.log, t), at)
    ensures FollowsFrom(c, m, FailStep(m, u, node, mode), t, at)
  {
    var m' := FailStep(m, u, node, mode);
    if m'.log == m.log { NoEvent(c, m, m', t, at); } else { OneEvent(c, m, m', TaskFailed(u, node, mode), t, at); }
  }

  lemma ReclaimFollows(c: Config, m: Machine, u: string, t: string, at: int)
    requires Follows(c, m.store, t, LastOf(m.log, t), at)
    ensures FollowsFrom(c, m, ReclaimStep(c, m, u), t, at)
  {
    var m' := ReclaimStep(c, m, u);
    if m'.log == m.log { NoEvent(c, m, m', t, at); } else { OneEvent(c, m, m', TaskReclaimed(u), t, at); }
  }

  lemma CostFollows(c: Config, m: Machine, u: string, free: bool, gp: int, t: string, at: int)
    requires Follows(c, m.store, t, LastOf(m.log, t), at) && (u == t ==> LastOf(m.log, t).Some?)
    ensures FollowsFrom(c, m, m.(store := UpdateCost(m.store, u, free, gp)), t, at)
  {
    NoEvent(c, m, m.(store := UpdateCost(m.store, u, free, gp)), t, at);
  }

  lemma TickFollows(c: Config, m: Machine, t: string, at: int)
    requires Follows(c, m.store, t, LastOf(m.log, t), at)
    ensures FollowsFrom(c, m, m.(store := Tick(m.store)), t, at)
  {
    NoEvent(c, m, m.(store := Tick(m.store)), t, at);
  }

  lemma WatchdogFollows(c: Config, m: Machine, t: string, at: int)
    requires Follows(c, m.store, t, LastOf(m.log, t), at)
    ensures FollowsFrom(c, m, WatchdogStep(c, m), t, at) && WatchdogStep(c, m).store.now == m.store.now
  {
    if m.dog.Reclaiming? {
      ReclaimFollows(c, m, m.dog.trace, t, at);
    } else {
      NoEvent(c, m, WatchdogStep(c, m), t, at);
    }
  }

  /** News in either of two stretches is news in both together. */
  lemma NewsAdds(a: seq<Event>, b: seq<Event>, d: seq<Event>, t: string)
    requires a <= b <= d
    ensures HasNews(a, d, t) <==> HasNews(a, b, t) || HasNews(b, d, t)
  {
    if j :| |a| <= j < |b| && b[j].trace == t { assert d[j].trace == t; }
    if j :| |a| <= j < |d| && d[j].trace == t {
      if j < |b| { assert b[j].trace == t; }
    }
  }

  lemma {:induction false} RunToIdleFollows(c: Config, m: Machine, t: string, at: int)
    requires Follows(c, m.store, t, LastOf(m.log, t), at)
    ensures FollowsFrom(c, m, RunToIdle(c, m), t, at) && RunToIdle(c, m).store.now == m.store.now
    decreases Remaining(m.dog)
  {
    if m.dog.Idle? {
      NoEvent(c, m, m, t, at);
    } else {
      var m1 := WatchdogStep(c, m);
      WatchdogFollows(c, m, t, at);
      WatchdogProgress(c, m);
      RunToIdleFollows(c, m1, t, if HasNews(m.log, m1.log, t) then m.store.now else at);
      NextGrowsLog(c, m, DoWatchdog);
      RunToIdleGrowsLog(c, m1);
      NewsAdds(m.log, m1.log, RunToIdle(c, m1).log, t);
    }
  }

  lemma PassFollows(c: Config, m: Machine, t: string, at: int)
    requires Follows(c, m.store, t, LastOf(m.log, t), at)
    ensures FollowsFrom(c, m, PassStep(c, m), t, at)
  {
    if m.dog.Idle? && m.store.queue != [] {
      assert WatchdogStep(c, m) == m.(dog := WatchdogStep(c, m).dog);
      RunToIdleFollows(c, WatchdogStep(c, m), t, at);
    } else {
      NoEvent(c, m, PassStep(c, m), t, at);
    }
  }

  lemma {:induction false} BornHasEvents(log: seq<Event>, t: string)
    requires t in Replay(log).traces
    ensures LastOf(log, t).Some?
  {
    var n := |log| - 1;
    if log[n].trace != t { BornHasEvents(log[..n], t); }
  }

  lemma NextFollows(c: Config, m: Machine, s: Step, t: string, at: int)
    requires Follows(c, m.store, t, LastOf(m.log, t), at)
    ensures FollowsFrom(c, m, Next(c, m, s), t, at)
  {
    match s
    case DoPublish(u, k, gk, force) =>
      if FreshTrace(m, u) { PublishFollows(c, m, u, k, gk, force, t, at); } else { NoEvent(c, m, m, t, at); }
    case DoFetch(u, node) => FetchFollows(c, m, u, node, t, at);
    case DoComplete(u, node, url) => CompleteFollows(c, m, u, node, url, t, at);
    case DoFail(u, node, mode) => FailFollows(c, m, u, node, mode, t, at);
    case DoUpdateCost(u, free, gp) =>
      if Born(m, u) {
        BornHasEvents(m.log, u);
        CostFollows(c, m, u, free, gp, t, at);
      } else {
        NoEvent(c, m, m, t, at);
      }
    case DoWatchdog => WatchdogFollows(c, m, t, at);
    case DoPass => PassFollows(c, m, t, at);
    case DoTick => TickFollows(c, m, t, at);
  }

  // ---- every run ----

  ghost predicate FollowsAt(c: Config, r: Run, n: nat, t: string)
    requires n < |r.states|
  {
    Follows(c, r.states[n].store, t, LastOf(r.states[n].log, t), LastAt(r, n, t))
  }

  /**
   * In every state of every run, and for every trace: there is a hash with a status iff the time that its
   * latest event gave it is not over, and then its status, its deadline and its node are those of that event.
   */
  lemma {:induction false} StatusFollowsHistory(c: Config, r: Run, n: nat, t: string)
    requires IsRun(c, r) && n < |r.states|
    ensures FollowsAt(c, r, n, t)
    decreases n
  {
    if n > 0 {
      StatusFollowsHistory(c, r, n - 1, t);
      assert StepAt(c, r, n - 1);
      NextFollows(c, r.states[n - 1], r.steps[n - 1], t, LastAt(r, n - 1, t));
    }
  }

  // ---- what the scripts reply ----

  /** The trace waits to be claimed. */
  ghost predicate Claimable(c: Config, r: Run, n: nat, t: string)
    requires n < |r.states|
  {
    var e := LastOf(r.states[n].log, t);
    && e.Some? && (e.value.TaskCreated? || e.value.TaskReclaimed?)
    && r.states[n].store.now < LastAt(r, n, t) + 3 * c.lease
  }

  /** The node has claimed the trace, and its lease has not run out. */
  ghost predicate HoldsLease(c: Config, r: Run, n: nat, t: string, node: string)
    requires n < |r.states|
  {
    LastOf(r.states[n].log, t) == Some(TaskFetched(t, node)) && r.states[n].store.now < LastAt(r, n, t) + c.lease
  }

  lemma LastOfIsIts(log: seq<Event>, t: string)
    ensures LastOf(log, t).Some? ==> LastOf(log, t).value.trace == t && LastOf(log, t).value in log
  {
  }

  lemma StatusIsHistory(c: Config, r: Run, n: nat, t: string)
    requires IsRun(c, r) && n < |r.states|
    ensures StatusIs(r.states[n].store, t, Pending) <==> Claimable(c, r, n, t)
    ensures forall node ::
      StatusIs(r.states[n].store, t, Processing) && r.states[n].store.tasks[t].node == node
      <==> HoldsLease(c, r, n, t, node)
  {
    StatusFollowsHistory(c, r, n, t);
    LastOfIsIts(r.states[n].log, t);
  }

  /** A script went through: it is logged, and nothing else is. */
  ghost predicate Logs(c: Config, m: Machine, s: Step, e: Event) {
    Next(c, m, s).log == m.log + [e]
  }

  /** A fetch goes through iff the task can be claimed; if not it changes nothing. */
  lemma FetchesIff(c: Config, r: Run, n: nat, t: string, node: string)
    requires IsRun(c, r) && n < |r.states|
    ensures var m, s := r.states[n], DoFetch(t, node);
      if Claimable(c, r, n, t) then Logs(c, m, s, TaskFetched(t, node)) else Next(c, m, s) == m
  {
    StatusIsHistory(c, r, n, t);
  }

  /** A completion goes through iff its node holds the lease; if not it changes nothing. */
  lemma CompletesIff(c: Config, r: Run, n: nat, t: string, node: string, url: string)
    requires IsRun(c, r) && n < |r.states|
    ensures var m, s := r.states[n], DoComplete(t, node, url);
      if HoldsLease(c, r, n, t, node) then Logs(c, m, s, TaskCompleted(t, node, url, m.store.now))
      else Next(c, m, s) == m
  {
    StatusIsHistory(c, r, n, t);
  }

  /** A failure or rejection goes through iff the task can be claimed, or its (named) sender holds the lease. */
  lemma FailsIff(c: Config, r: Run, n: nat, t: string, node: string, mode: FailMode)
    requires IsRun(c, r) && n < |r.states|
    ensures var m, s := r.states[n], DoFail(t, node, mode);
      if Claimable(c, r, n, t) || (node != "" && HoldsLease(c, r, n, t, node))
      then Logs(c, m, s, TaskFailed(t, node, mode))
      else Next(c, m, s) == m
  {
    StatusIsHistory(c, r, n, t);
  }

  /** Some node has claimed the trace, and its lease has not run out. */
  ghost predicate Leased(c: Config, r: Run, n: nat, t: string)
    requires n < |r.states|
  {
    var e := LastOf(r.states[n].log, t);
    e.Some? && e.value.TaskFetched? && HoldsLease(c, r, n, t, e.value.node)
  }

  /** The trace is over, and its hash is still there to be read. */
  ghost predicate OverAndReadable(c: Config, r: Run, n: nat, t: string)
    requires n < |r.states|
  {
    var e := LastOf(r.states[n].log, t);
    && e.Some? && IsFinal(e.value) && !(e.value.TaskFailed? && e.value.mode == FailMode.Reject)
    && r.states[n].store.now < LastAt(r, n, t) + 300
  }

  /** Why a script is refused: each refusal tells where the trace stands. */
  lemma RefusalsTell(c: Config, r: Run, n: nat, t: string, node: string)
    requires IsRun(c, r) && n < |r.states|
    ensures var s := r.states[n].store; var other := Leased(c, r, n, t) && !HoldsLease(c, r, n, t, node);
      && (CompleteReplyFor(s, t, node) == CompleteMismatch <==> other)
      && (CompleteReplyFor(s, t, node) == CompleteInvalid <==> !Leased(c, r, n, t))
      && (FailReplyFor(s, t, node) == FailMismatch <==> other && node != "")
      && (FailReplyFor(s, t, node) == FailNeedNode <==> Leased(c, r, n, t) && node == "")
      && (FailReplyFor(s, t, node) == FailInvalid <==> OverAndReadable(c, r, n, t))
      && (FailReplyFor(s, t, node) == FailGone
          <==> !Claimable(c, r, n, t) && !Leased(c, r, n, t) && !OverAndReadable(c, r, n, t))
  {
    StatusIsHistory(c, r, n, t);
    StatusFollowsHistory(c, r, n, t);
    LastOfIsIts(r.states[n].log, t);
  }

  /**
   * The watchdog sets out to reclaim an entry iff it is leased with less than half the lease left, and to drop
   * it iff it neither waits, nor is leased, nor is over and readable; the reclaim goes through iff it is leased.
   */
  lemma WatchdogActsIff(c: Config, r: Run, n: nat, t: string, ids: seq<string>)
    requires IsRun(c, r) && n < |r.states|
    ensures var m := r.states[n];
      var dead := !Claimable(c, r, n, t) && !Leased(c, r, n, t) && !OverAndReadable(c, r, n, t);
      && (m.dog == Checking([t] + ids) ==>
            && (WatchdogStep(c, m).dog == Dropping(t, ids) <==> dead)
            && (WatchdogStep(c, m).dog == Reclaiming(t, ids)
                <==> Leased(c, r, n, t) && LastAt(r, n, t) + c.lease - m.store.now < c.lease / 2))
      && (m.dog == Reclaiming(t, ids) ==>
            if Leased(c, r, n, t) then Logs(c, m, DoWatchdog, TaskReclaimed(t))
            else Next(c, m, DoWatchdog) == m.(dog := Checking(ids)))
  {
    RefusalsTell(c, r, n, t, "");
    StatusIsHistory(c, r, n, t);
    StatusFollowsHistory(c, r, n, t);
    assert ([t] + ids)[0] == t && ([t] + ids)[1..] == ids;
  }

  ghost predicate Rejected(log: seq<Event>, t: string) {
    exists j :: 0 <= j < |log| && log[j].TaskFailed? && log[j].trace == t && log[j].mode == FailMode.Reject
  }

  ghost predicate FailedInEarnest(log: seq<Event>, t: string) {
    exists j :: 0 <= j < |log| && log[j].TaskFailed? && log[j].trace == t && log[j].mode == FailMode.Fail
  }

  lemma {:induction false} LastIsAt(log: seq<Event>, j: nat, t: string)
    requires j < |log| && log[j].trace == t && forall k :: j < k < |log| ==> log[k].trace != t
    ensures LastOf(log, t) == Some(log[j])
  {
    if j < |log| - 1 { LastIsAt(log[..|log| - 1], j, t); }
  }

  lemma RejectionIsLast(log: seq<Event>, t: string)
    requires Lawful(log) && Rejected(log, t)
    ensures LastOf(log, t).Some? && LastOf(log, t).value.TaskFailed? && LastOf(log, t).value.mode == FailMode.Reject
  {
    var j :| 0 <= j < |log| && log[j].TaskFailed? && log[j].trace == t && log[j].mode == FailMode.Reject;
    forall k | j < k < |log| ensures log[k].trace != t { NothingFollowsFinal(log, j, k); }
    LastIsAt(log, j, t);
  }

  /**
   * Failures and rejections are told apart for good. A hash says FAILED only if a runtime failure of its
   * trace is on the log; once a rejection is, the trace has no status in this and any later state, whatever
   * UpdateTaskCost leaves under its key, and finalising it again finds it gone.
   */
  lemma RejectedIsGone(c: Config, r: Run, n: nat, t: string, node: string)
    requires IsRun(c, r) && n < |r.states|
    ensures StatusIs(r.Last().store, t, Failed) ==> FailedInEarnest(r.Last().log, t)
    ensures Rejected(r.states[n].log, t) ==>
              !HasStatus(r.Last().store, t) && FailReplyFor(r.Last().store, t, node) == FailGone
  {
    var m := r.Last();
    RunsAreSafe(c, r, |r.steps|);
    StatusFollowsHistory(c, r, |r.steps|, t);
    LastOfIsIts(m.log, t);
    if StatusIs(m.store, t, Failed) {
      var e := LastOf(m.log, t).value;
      var j :| 0 <= j < |m.log| && m.log[j] == e;
    }
    if Rejected(r.states[n].log, t) {
      var j :| 0 <= j < |r.states[n].log| && r.states[n].log[j].TaskFailed? && r.states[n].log[j].trace == t
               && r.states[n].log[j].mode == FailMode.Reject;
      LogGrows(c, r, n, |r.steps|);
      assert m.log[j] == r.states[n].log[j];
      RejectionIsLast(m.log, t);
    }
  }
}
