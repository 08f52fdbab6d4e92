/**
 * A report that comes after its sender's lease was reclaimed. The task waits again, so CompleteTask is
 * refused; the fall-back to FailTask then succeeds, since a waiting task may be failed by anyone, and a
 * gallery that was fetched in full ends as a failure.
 */
module GalleryRaces {
  import opened Keys
  import opened TaskStore
  import opened History
  import opened GalleryMachine
  import Sched = SchedulerMachine
  import Results = ResultWaiter

  const Rid := "a"
  const Node := "n"

  /** A success with a URL. */
  function Success(url: string): TaskResult {
    Results.TaskResult.TaskResult(true, url, 0)
  }

  function ReportSteps(hid: nat, t: string, node: string, result: TaskResult): seq<Step> {
    [Report(hid, t, node, result), HandlerComplete(hid), HandlerFail(hid)]
  }

  lemma OneStep(c: Config, r: Run, s: Step) returns (r': Run)
    requires IsRun(c, r)
    ensures IsRun(c, r') && r'.steps == r.steps + [s] && r'.Last() == Next(c, r.Last(), s)
  {
    ExtendIsRun(c, r, s);
    r' := Extend(c, r, s);
  }

  /** In any run a waiting task is failed by any report on it, a success of whatever node included. */
  lemma SuccessFailsWaitingTask(c: Config, r: Run, hid: nat, t: string, node: string, url: string) returns (r': Run)
    requires IsRun(c, r) && hid !in r.Last().handlers && url != ""
    requires StatusIs(r.Last().sched.store, t, Pending)
    ensures IsRun(c, r') && r'.steps == r.steps + ReportSteps(hid, t, node, Success(url))
    ensures StatusIs(r'.Last().sched.store, t, Failed)
    ensures r'.Last().sched.log == r.Last().sched.log + [TaskFailed(t, node, FailMode.Fail)]
  {
    var result := Success(url);
    r' := OneStep(c, r, Report(hid, t, node, result));
    assert r'.Last().handlers[hid] == Completing(t, node, result);
    r' := OneStep(c, r', HandlerComplete(hid));
    assert r'.Last().handlers[hid] == Failing(t, node, result.(success := false));
    assert r'.Last().sched == r.Last().sched;
    r' := OneStep(c, r', HandlerFail(hid));
  }

  // ---- a run that gets there ----

  /** Redis moves on by itself. */
  lemma SystemStep(c: Config, r: Run, s: Sched.Step) returns (r': Run)
    requires IsRun(c, r) && (s.DoTick? || s.DoWatchdog?)
    ensures IsRun(c, r') && r'.Last() == r.Last().(sched := Sched.Next(c, r.Last().sched, s))
  {
    r' := OneStep(c, r, System(s));
  }

  const Home := Slot("u", "g")

  function Leased(status: Status, node: string, at: int): Task {
    Task(status, node, Home, "k", false, false, 0, at)
  }

  /** One task, leased at time zero. */
  function OneLeased(c: Config, now: int): Store {
    Store(now, map[Rid := Leased(Processing, Node, c.lease)], map[Home := Sentinel(Rid, c.lease)], map[], [Rid])
  }

  /** The node has held its lease for this many seconds. */
  ghost predicate LeasedFor(c: Config, r: Run, k: nat) {
    && IsRun(c, r) && r.Last().handlers == map[] && r.Last().sched.dog.Idle?
    && r.Last().sched.store == OneLeased(c, k)
    && r.Last().sched.log == [TaskCreated(Rid, Home), TaskFetched(Rid, Node)]
  }

  lemma PublishedOne(c: Config) returns (r: Run)
    ensures IsRun(c, r) && r.Last().handlers == map[]
    ensures r.Last().sched == Sched.PublishStep(c, Sched.Start, Rid, Home, "k", false)
  {
    r := OneStep(c, NoSteps, Arrive(Rid, "u", "g", "k", false));
    assert r.Last().requests[Rid].pc == Publishing && r.Last().sched == Start.sched;
    assert PublishReplyFor(r.Last().sched.store, Rid, Home, false) == Created(Rid);
    r := OneStep(c, r, Act(Rid, Publish));
  }

  lemma LeasedAtStart(c: Config) returns (r: Run)
    ensures LeasedFor(c, r, 0)
  {
    r := PublishedOne(c);
    assert r.Last().sched.log == [TaskCreated(Rid, Home)];
    assert r.Last().sched.store.tasks == map[Rid := Leased(Pending, "", 3 * c.lease)];
    r := OneStep(c, r, NodeFetch(Rid, Node));
    assert r.Last().sched.store == OneLeased(c, 0);
  }

  lemma LeaseTicks(c: Config, k: nat)
    requires k + 1 < c.lease
    ensures Tick(OneLeased(c, k)) == OneLeased(c, k + 1)
  {
    var s, l := OneLeased(c, k + 1), Tick(OneLeased(c, k));
    assert l.tasks == s.tasks && l.sentinels == s.sentinels && l.cache == s.cache;
  }

  lemma OneSecondMore(c: Config, r: Run, k: nat) returns (r': Run)
    requires LeasedFor(c, r, k) && k + 1 < c.lease
    ensures LeasedFor(c, r', k + 1)
  {
    LeaseTicks(c, k);
    r' := SystemStep(c, r, Sched.DoTick);
  }

  lemma {:induction false} LeaseRunsDown(c: Config, k: nat) returns (r: Run)
    requires k < c.lease
    ensures LeasedFor(c, r, k)
  {
    if k == 0 {
      r := LeasedAtStart(c);
    } else {
      r := LeaseRunsDown(c, k - 1);
      r := OneSecondMore(c, r, k - 1);
    }
  }

  /** The watchdog reads the one entry, finds its lease low, and reclaims it. */
  lemma LoneTaskReclaimed(c: Config, r: Run) returns (r': Run)
    requires IsRun(c, r) && r.Last().sched.dog.Idle? && r.Last().sched.store.queue == [Rid]
    requires Expiring(c, r.Last().sched.store, Rid)
    ensures IsRun(c, r') && r'.Last().handlers == r.Last().handlers
    ensures r'.Last().sched.store == Reclaim(c, r.Last().sched.store, Rid)
    ensures r'.Last().sched.log == r.Last().sched.log + [TaskReclaimed(Rid)]
  {
    var m := r.Last().sched;
    r' := SystemStep(c, r, Sched.DoWatchdog);
    assert r'.Last().sched == m.(dog := Sched.Scanning(1, []));
    r' := SystemStep(c, r', Sched.DoWatchdog);
    assert [] + [Rid] == [Rid] && [Rid][1..] == [];
    assert r'.Last().sched == m.(dog := Sched.Scanning(1, [Rid]));
    r' := SystemStep(c, r', Sched.DoWatchdog);
    assert r'.Last().sched == m.(dog := Sched.Checking([Rid]));
    r' := SystemStep(c, r', Sched.DoWatchdog);
    assert r'.Last().sched == m.(dog := Sched.Reclaiming(Rid, []));
    r' := SystemStep(c, r', Sched.DoWatchdog);
  }

  lemma ReclaimedFromItsHolder(c: Config) returns (r: Run)
    requires 4 <= c.lease
    ensures IsRun(c, r) && r.Last().handlers == map[] && StatusIs(r.Last().sched.store, Rid, Pending)
    ensures r.Last().sched.log == [TaskCreated(Rid, Home), TaskFetched(Rid, Node), TaskReclaimed(Rid)]
  {
    r := LeaseRunsDown(c, c.lease - c.lease / 2 + 1);
    r := LoneTaskReclaimed(c, r);
  }

  /**
   * For every lease of four seconds or more there is a run in which a node fetches a task, is late, and then
   * reports success with a URL; the report fails the task, and nothing is ever completed.
   */
  lemma LateSuccessFailsItsTask(c: Config, url: string) returns (r: Run)
    requires 4 <= c.lease && url != ""
    ensures IsRun(c, r) && StatusIs(r.Last().sched.store, Rid, Failed)
    ensures |r.steps| >= 3 && r.steps[|r.steps| - 3..] == ReportSteps(0, Rid, Node, Success(url))
    ensures r.Last().sched.log == [TaskCreated(Rid, Home), TaskFetched(Rid, Node), TaskReclaimed(Rid),
                                   TaskFailed(Rid, Node, FailMode.Fail)]
  {
    var before := ReclaimedFromItsHolder(c);
    r := SuccessFailsWaitingTask(c, before, 0, Rid, Node, url);
  }
}
