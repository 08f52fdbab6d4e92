/**
 * Request collapsing. The sentinel of a slot and the live task of that slot correspond one to one,
 * in every state of a run, exactly when no task is left PENDING for two whole leases.
 */
module CollapseSafety {
  import opened Keys
  import opened TaskStore
  import opened History
  import opened SchedulerMachine
  import opened LeaseSafety

  /** A PENDING task's deadline is three leases after it was published or reclaimed. */
  function WaitingSince(c: Config, task: Task): int
    requires task.Task?
  {
    task.expiresAt - 3 * c.lease
  }

  /** No task has been PENDING for two leases since it was last published or reclaimed. */
  ghost predicate Prompt(c: Config, s: Store) {
    forall t :: StatusIs(s, t, Pending) ==> s.now < WaitingSince(c, s.tasks[t]) + 2 * c.lease
  }

  function SentinelFor(c: Config, t: string, task: Task): Sentinel
    requires task.Task?
  {
    Sentinel(t, if task.status == Processing then task.expiresAt else task.expiresAt - c.lease)
  }

  ghost predicate EveryLiveTaskGuarded(c: Config, s: Store) {
    forall t :: Live(s, t) ==>
      var slot := s.tasks[t].slot;
      slot in s.sentinels && s.sentinels[slot] == SentinelFor(c, t, s.tasks[t])
  }

  ghost predicate EverySentinelAlive(s: Store) {
    forall k :: k in s.sentinels ==> Live(s, s.sentinels[k].trace) && s.tasks[s.sentinels[k].trace].slot == k
  }

  /** Sentinels and live tasks are in bijection through the slot, deadlines included. */
  ghost predicate OneToOne(c: Config, s: Store) {
    EveryLiveTaskGuarded(c, s) && EverySentinelAlive(s)
  }

  lemma ScriptsKeepOneToOne(c: Config, m: Machine, s: Step)
    requires Safe(c, m) && OneToOne(c, m.store)
    requires s.DoPublish? || s.DoFetch? || s.DoComplete? || s.DoFail? || s.DoUpdateCost?
    ensures OneToOne(c, Next(c, m, s).store)
  {
    match s
    case DoPublish(t, k, gk, force) => if FreshTrace(m, t) { PublishKeepsOneToOne(c, m.store, t, k, gk, force); }
    case DoFetch(t, node) => FetchKeepsOneToOne(c, m.store, t, node);
    case DoComplete(t, node, url) => CompleteKeepsOneToOne(c, m.store, t, node, url);
    case DoFail(t, node, mode) => FailKeepsOneToOne(c, m.store, t, node, mode);
    case DoUpdateCost(t, free, gp) => UpdateCostKeepsOneToOne(c, m.store, t, free, gp);
  }

  lemma UpdateCostKeepsOneToOne(c: Config, s: Store, t: string, free: bool, gp: int)
    requires OneToOne(c, s)
    ensures OneToOne(c, UpdateCost(s, t, free, gp))
  {
  }

  lemma PublishKeepsOneToOne(c: Config, s: Store, t: string, k: Slot, gk: string, force: bool)
    requires OneToOne(c, s) && t !in s.tasks
    ensures OneToOne(c, Publish(c, s, t, k, gk, force))
  {
  }

  lemma FetchKeepsOneToOne(c: Config, s: Store, t: string, node: string)
    requires OneToOne(c, s)
    ensures OneToOne(c, Fetch(c, s, t, node))
  {
  }

  lemma CompleteKeepsOneToOne(c: Config, s: Store, t: string, node: string, url: string)
    requires OneToOne(c, s)
    ensures OneToOne(c, Complete(c, s, t, node, url))
  {
  }

  lemma FailKeepsOneToOne(c: Config, s: Store, t: string, node: string, mode: FailMode)
    requires OneToOne(c, s)
    ensures OneToOne(c, Finalize(s, t, node, mode))
  {
  }

  lemma ReclaimKeepsOneToOne(c: Config, s: Store, t: string)
    requires OneToOne(c, s)
    ensures OneToOne(c, Reclaim(c, s, t))
  {
  }

  lemma {:induction false} RunToIdleKeepsOneToOne(c: Config, m: Machine)
    requires OneToOne(c, m.store)
    ensures OneToOne(c, RunToIdle(c, m).store)
    decreases Remaining(m.dog)
  {
    if !m.dog.Idle? {
      WatchdogProgress(c, m);
      WatchdogKeepsOneToOne(c, m);
      RunToIdleKeepsOneToOne(c, WatchdogStep(c, m));
    }
  }

  lemma WatchdogKeepsOneToOne(c: Config, m: Machine)
    requires OneToOne(c, m.store)
    ensures OneToOne(c, WatchdogStep(c, m).store)
  {
    if m.dog.Reclaiming? { ReclaimKeepsOneToOne(c, m.store, m.dog.trace); }
  }

  lemma TickKeepsOneToOne(c: Config, s: Store)
    requires OneToOne(c, s) && Prompt(c, s) && Prompt(c, Tick(s))
    ensures OneToOne(c, Tick(s))
  {
    var s' := Tick(s);
    forall t | Live(s', t)
      ensures s'.tasks[t].slot in s'.sentinels && s'.sentinels[s'.tasks[t].slot] == SentinelFor(c, t, s'.tasks[t])
    {
      assert Live(s, t) && s.sentinels[s.tasks[t].slot] == SentinelFor(c, t, s.tasks[t]);
    }
    forall k | k in s'.sentinels ensures Live(s', s'.sentinels[k].trace) && s'.tasks[s'.sentinels[k].trace].slot == k {
      var t := s.sentinels[k].trace;
      assert Live(s, t) && s.tasks[t].slot == k;
      assert s.sentinels[k] == SentinelFor(c, t, s.tasks[t]);
    }
  }

  lemma NextKeepsOneToOne(c: Config, m: Machine, s: Step)
    requires Safe(c, m) && OneToOne(c, m.store)
    requires s == DoTick ==> Prompt(c, m.store) && Prompt(c, Next(c, m, s).store)
    ensures OneToOne(c, Next(c, m, s).store)
  {
    match s
    case DoWatchdog => WatchdogKeepsOneToOne(c, m);
    case DoPass =>
      if m.dog.Idle? {
        WatchdogKeepsOneToOne(c, m);
        RunToIdleKeepsOneToOne(c, WatchdogStep(c, m));
      }
    case DoTick => TickKeepsOneToOne(c, m.store);
    case _ => ScriptsKeepOneToOne(c, m, s);
  }

  ghost predicate AlwaysPrompt(c: Config, r: Run) {
    forall i :: 0 <= i < |r.states| ==> Prompt(c, r.states[i].store)
  }

  ghost predicate AlwaysOneToOne(c: Config, r: Run) {
    forall i :: 0 <= i < |r.states| ==> OneToOne(c, r.states[i].store)
  }

  lemma {:induction false} PromptRunsAreOneToOne(c: Config, r: Run, n: nat)
    requires IsRun(c, r) && AlwaysPrompt(c, r) && n < |r.states|
    ensures OneToOne(c, r.states[n].store)
  {
    if n > 0 {
      PromptRunsAreOneToOne(c, r, n - 1);
      RunsAreSafe(c, r, n - 1);
      assert StepAt(c, r, n - 1);
      NextKeepsOneToOne(c, r.states[n - 1], r.steps[n - 1]);
    }
  }

  /** A guarded PENDING task has an unexpired sentinel, which is only possible within two leases. */
  lemma GuardedIsPrompt(c: Config, s: Store, h: Summary)
    requires EveryLiveTaskGuarded(c, s) && SentinelsAgree(s, h)
    ensures Prompt(c, s)
  {
    forall t | StatusIs(s, t, Pending) ensures s.now < WaitingSince(c, s.tasks[t]) + 2 * c.lease {
      assert s.sentinels[s.tasks[t].slot] == SentinelFor(c, t, s.tasks[t]);
    }
  }

  /**
   * The exact condition for collapsing to be sound: over any run, sentinels and live tasks stay in
   * bijection at every moment if and only if no task is ever left PENDING for two leases.
   */
  lemma OneToOneIffPrompt(c: Config, r: Run)
    requires IsRun(c, r)
    ensures AlwaysOneToOne(c, r) <==> AlwaysPrompt(c, r)
  {
    if AlwaysPrompt(c, r) {
      forall i | 0 <= i < |r.states| ensures OneToOne(c, r.states[i].store) {
        PromptRunsAreOneToOne(c, r, i);
      }
    }
    if AlwaysOneToOne(c, r) {
      forall i | 0 <= i < |r.states| ensures Prompt(c, r.states[i].store) {
        RunsAreSafe(c, r, i);
        GuardedIsPrompt(c, r.states[i].store, Replay(r.states[i].log));
      }
    }
  }

  /** On prompt runs: one live task per slot, and a COLLAPSED reply always names a live task of that slot. */
  lemma PromptRunsCollapseSoundly(c: Config, r: Run, k: Slot, newTrace: string, force: bool)
    requires IsRun(c, r) && AlwaysPrompt(c, r)
    ensures var s := r.Last().store;
      && (forall t, u :: Live(s, t) && Live(s, u) && s.tasks[t].slot == s.tasks[u].slot ==> t == u)
      && (var reply := PublishReplyFor(s, newTrace, k, force);
          && (reply.Collapsed? ==> Live(s, reply.trace) && s.tasks[reply.trace].slot == k)
          && (reply.Created? ==> forall t :: Live(s, t) ==> s.tasks[t].slot != k))
  {
    PromptRunsAreOneToOne(c, r, |r.states| - 1);
    var s := r.Last().store;
    forall t, u | Live(s, t) && Live(s, u) && s.tasks[t].slot == s.tasks[u].slot ensures t == u {
      assert s.sentinels[s.tasks[t].slot] == SentinelFor(c, t, s.tasks[t]);
    }
  }
}
