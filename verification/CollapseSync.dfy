/**
 * What an existing sentinel promises. The script's comment argues: a sentinel never outlives its task's
 * hash, so while it exists the task is alive. That is kept by every step but one, and broken by that one
 * every time: claiming a task whose slot's sentinel names another task that expires before the new lease.
 */
module CollapseSync {
  import opened Keys
  import opened TaskStore
  import opened SchedulerMachine
  import opened LeaseSafety
  import Limits = CollapseLimits

  /** The sentinel names a live task of its slot and expires no later than that task's hash. */
  ghost predicate SyncedAt(s: Store, k: Slot)
    requires k in s.sentinels
  {
    var t := s.sentinels[k].trace;
    Live(s, t) && s.tasks[t].slot == k && s.sentinels[k].expiresAt <= s.tasks[t].expiresAt
  }

  ghost predicate Synced(s: Store) {
    forall k :: k in s.sentinels ==> SyncedAt(s, k)
  }

  /** Claiming t would renew a sentinel past the deadline of the other task that it names. */
  predicate RenewsPast(c: Config, s: Store, t: string) {
    StatusIs(s, t, Pending)
    && var k := s.tasks[t].slot;
    k in s.sentinels && s.sentinels[k].trace != t
    && s.sentinels[k].trace in s.tasks && s.tasks[s.sentinels[k].trace].Task?
    && s.tasks[s.sentinels[k].trace].expiresAt < s.now + c.lease
  }

  predicate LateFetch(c: Config, s: Store, step: Step) {
    step.DoFetch? && RenewsPast(c, s, step.trace)
  }

  // ---- one script at a time ----

  lemma PublishKeepsSynced(c: Config, s: Store, t: string, k: Slot, gk: string, force: bool)
    requires Synced(s) && t !in s.tasks
    ensures Synced(Publish(c, s, t, k, gk, force))
  {
    var s' := Publish(c, s, t, k, gk, force);
    forall j | j in s'.sentinels ensures SyncedAt(s', j) {
      assert j in s.sentinels ==> SyncedAt(s, j);
    }
  }

  lemma FetchSyncedIff(c: Config, s: Store, t: string, node: string)
    requires Synced(s)
    ensures Synced(Fetch(c, s, t, node)) <==> !RenewsPast(c, s, t)
  {
    var s' := Fetch(c, s, t, node);
    if RenewsPast(c, s, t) {
      var k := s.tasks[t].slot;
      assert k in s'.sentinels && !SyncedAt(s', k);
    } else {
      forall j | j in s'.sentinels ensures SyncedAt(s', j) {
        assert SyncedAt(s, j);
      }
    }
  }

  lemma CompleteKeepsSynced(c: Config, s: Store, t: string, node: string, url: string)
    requires Synced(s)
    ensures Synced(Complete(c, s, t, node, url))
  {
    var s' := Complete(c, s, t, node, url);
    forall j | j in s'.sentinels ensures SyncedAt(s', j) {
      assert SyncedAt(s, j);
    }
  }

  lemma FinalizeKeepsSynced(s: Store, t: string, node: string, mode: FailMode)
    requires Synced(s)
    ensures Synced(Finalize(s, t, node, mode))
  {
    var s' := Finalize(s, t, node, mode);
    forall j | j in s'.sentinels ensures SyncedAt(s', j) {
      assert SyncedAt(s, j);
    }
  }

  lemma ReclaimKeepsSynced(c: Config, s: Store, t: string)
    requires Synced(s)
    ensures Synced(Reclaim(c, s, t))
  {
    var s' := Reclaim(c, s, t);
    forall j | j in s'.sentinels ensures SyncedAt(s', j) {
      assert j in s.sentinels ==> SyncedAt(s, j);
    }
  }

  lemma UpdateCostKeepsSynced(s: Store, t: string, free: bool, gp: int)
    requires Synced(s)
    ensures Synced(UpdateCost(s, t, free, gp))
  {
    var s' := UpdateCost(s, t, free, gp);
    forall j | j in s'.sentinels ensures SyncedAt(s', j) {
      assert SyncedAt(s, j);
    }
  }

  lemma TickKeepsSynced(s: Store)
    requires Synced(s)
    ensures Synced(Tick(s))
  {
    var s' := Tick(s);
    forall j | j in s'.sentinels ensures SyncedAt(s', j) {
      assert SyncedAt(s, j);
    }
  }

  lemma WatchdogKeepsSynced(c: Config, m: Machine)
    requires Synced(m.store)
    ensures Synced(WatchdogStep(c, m).store)
  {
    if m.dog.Reclaiming? {
      ReclaimKeepsSynced(c, m.store, m.dog.trace);
    } else {
      var s, s' := m.store, WatchdogStep(c, m).store;
      forall j | j in s'.sentinels ensures SyncedAt(s', j) {
        assert SyncedAt(s, j);
      }
    }
  }

  lemma {:induction false} RunToIdleKeepsSynced(c: Config, m: Machine)
    requires Synced(m.store)
    ensures Synced(RunToIdle(c, m).store)
    decreases Remaining(m.dog)
  {
    if !m.dog.Idle? {
      WatchdogKeepsSynced(c, m);
      WatchdogProgress(c, m);
      RunToIdleKeepsSynced(c, WatchdogStep(c, m));
    }
  }

  // ---- every step, every run ----

  /** From a synced store, a step leads to a synced store iff it is not a late fetch. */
  lemma NextSyncedIff(c: Config, m: Machine, step: Step)
    requires Safe(c, m) && Synced(m.store)
    ensures Synced(Next(c, m, step).store) <==> !LateFetch(c, m.store, step)
  {
    match step
    case DoPublish(t, k, gk, force) => if FreshTrace(m, t) { PublishKeepsSynced(c, m.store, t, k, gk, force); }
    case DoFetch(t, node) => FetchSyncedIff(c, m.store, t, node);
    case DoComplete(t, node, url) => CompleteKeepsSynced(c, m.store, t, node, url);
    case DoFail(t, node, mode) => FinalizeKeepsSynced(m.store, t, node, mode);
    case DoUpdateCost(t, free, gp) => UpdateCostKeepsSynced(m.store, t, free, gp);
    case DoWatchdog => WatchdogKeepsSynced(c, m);
    case DoPass =>
      WatchdogKeepsSynced(c, m);
      RunToIdleKeepsSynced(c, WatchdogStep(c, m));
    case DoTick => TickKeepsSynced(m.store);
  }

  ghost predicate OnTime(c: Config, r: Run, i: nat)
    requires i < |r.steps| && |r.states| == |r.steps| + 1
  {
    !LateFetch(c, r.states[i].store, r.steps[i])
  }

  ghost predicate NoLateFetch(c: Config, r: Run)
    requires |r.states| == |r.steps| + 1
  {
    forall i :: 0 <= i < |r.steps| ==> OnTime(c, r, i)
  }

  ghost predicate AlwaysSynced(r: Run) {
    forall n :: 0 <= n < |r.states| ==> Synced(r.states[n].store)
  }

  lemma StepSyncedIff(c: Config, r: Run, i: nat)
    requires IsRun(c, r) && i < |r.steps| && Synced(r.states[i].store)
    ensures Synced(r.states[i + 1].store) <==> OnTime(c, r, i)
  {
    RunsAreSafe(c, r, i);
    assert StepAt(c, r, i);
    NextSyncedIff(c, r.states[i], r.steps[i]);
  }

  lemma {:induction false} OnTimeRunsAreSynced(c: Config, r: Run, n: nat)
    requires IsRun(c, r) && NoLateFetch(c, r) && n < |r.states|
    ensures Synced(r.states[n].store)
  {
    if n > 0 {
      OnTimeRunsAreSynced(c, r, n - 1);
      StepSyncedIff(c, r, n - 1);
      assert OnTime(c, r, n - 1);
    }
  }

  /** The comment's claim, over any run, at any moment: it holds iff no fetch ever comes late. */
  lemma SyncedIffNoLateFetch(c: Config, r: Run)
    requires IsRun(c, r)
    ensures AlwaysSynced(r) <==> NoLateFetch(c, r)
  {
    if NoLateFetch(c, r) {
      forall n | 0 <= n < |r.states| ensures Synced(r.states[n].store) { OnTimeRunsAreSynced(c, r, n); }
    }
    if AlwaysSynced(r) {
      forall i | 0 <= i < |r.steps| ensures OnTime(c, r, i) {
        assert Synced(r.states[i].store) && Synced(r.states[i + 1].store);
        StepSyncedIff(c, r, i);
      }
    }
  }

  /** So without late fetches a COLLAPSED reply always names a live task of the requested slot. */
  lemma CollapsesNameLiveTasks(c: Config, r: Run, k: Slot, newTrace: string, force: bool)
    requires IsRun(c, r) && NoLateFetch(c, r)
    ensures var s := r.Last().store; var reply := PublishReplyFor(s, newTrace, k, force);
      reply.Collapsed? ==> Live(s, reply.trace) && s.tasks[reply.trace].slot == k
  {
    OnTimeRunsAreSynced(c, r, |r.steps|);
    var s := r.Last().store;
    assert k in s.sentinels ==> SyncedAt(s, k);
  }

  // ---- being synced is what survives the passage of time ----

  ghost predicate AliveAt(s: Store, k: Slot)
    requires k in s.sentinels
  {
    Live(s, s.sentinels[k].trace) && s.tasks[s.sentinels[k].trace].slot == k
  }

  ghost predicate Alive(s: Store) {
    forall k :: k in s.sentinels ==> AliveAt(s, k)
  }

  ghost predicate AliveLater(s: Store, n: nat) {
    Alive(Limits.Later(s, n))
  }

  /**
   * With nothing but time passing, every sentinel goes on naming a live task of its slot iff the store is
   * synced: the deadlines are not only enough for the comment's conclusion, they are needed for it.
   */
  lemma AliveThroughTimeIff(c: Config, m: Machine)
    requires Safe(c, m) && Alive(m.store)
    ensures (forall n: nat :: AliveLater(m.store, n)) <==> Synced(m.store)
  {
    var s := m.store;
    if Synced(s) {
      forall n: nat ensures AliveLater(s, n) { SyncedStaysAlive(s, n); }
    } else {
      var k :| k in s.sentinels && !SyncedAt(s, k);
      assert AliveAt(s, k);
      var n: nat := s.tasks[s.sentinels[k].trace].expiresAt - s.now;
      assert k in Limits.Later(s, n).sentinels && !AliveAt(Limits.Later(s, n), k);
      assert !AliveLater(s, n);
    }
  }

  lemma SyncedStaysAlive(s: Store, n: nat)
    requires Synced(s)
    ensures AliveLater(s, n)
  {
    var l := Limits.Later(s, n);
    forall k | k in l.sentinels ensures AliveAt(l, k) {
      assert SyncedAt(s, k);
    }
  }
}
