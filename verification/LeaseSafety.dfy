/**
 * What every interleaving keeps, with no assumption on timing: the store agrees with the log, the log
 * obeys the lease automaton, the cache holds exactly the latest completion, and each queue entry is accounted for.
 */
module LeaseSafety {
  import opened Keys
  import opened TaskStore
  import opened History
  import opened SchedulerMachine

  /** The phase the log must show for a stored task. */
  ghost predicate Agrees(task: Task, info: TraceInfo) {
    task.Task? ==>
      && task.slot == info.slot
      && match task.status
         case Pending => info.phase == Waiting
         case Processing => info.phase == Leased(task.node)
         case Completed => info.phase.Done? && info.phase.url.Some?
         case Failed => info.phase == Done(None)
  }

  ghost predicate TasksAgree(s: Store, h: Summary) {
    forall t :: t in s.tasks ==> t in h.traces && Agrees(s.tasks[t], h.traces[t]) && TaskLasts(s.tasks[t], s.now)
  }

  ghost predicate SentinelsAgree(s: Store, h: Summary) {
    forall k :: k in s.sentinels ==>
      && s.now < s.sentinels[k].expiresAt
      && s.sentinels[k].trace in h.traces
      && h.traces[s.sentinels[k].trace].slot == k
  }

  /** GET on a cache key: the latest completion of the slot while it is younger than the cache lifetime. */
  ghost function CacheFromHistory(c: Config, h: Summary, now: int, k: Slot): Option<CacheEntry> {
    if k in h.latest && now < h.latest[k].at + c.cacheTTL
    then Some(CacheEntry(h.latest[k].url, h.latest[k].at + c.cacheTTL)) else None
  }

  function CacheLookup(s: Store, k: Slot): Option<CacheEntry> {
    if k in s.cache then Some(s.cache[k]) else None
  }

  ghost predicate CacheAgrees(c: Config, s: Store, h: Summary) {
    forall k :: CacheLookup(s, k) == CacheFromHistory(c, h, s.now, k)
  }

  /** How often a trace sits in the pending queue. */
  ghost predicate QueueAgrees(s: Store, h: Summary) {
    && (forall t :: multiset(s.queue)[t] > 0 ==> t in h.traces)
    && (forall t :: t in h.traces ==>
          && (Live(s, t) ==> multiset(s.queue)[t] == 1 + h.traces[t].reclaims)
          && (h.traces[t].phase.Done? ==> multiset(s.queue)[t] == 0))
  }

  ghost predicate WatchdogAgrees(dog: Watchdog, s: Store, h: Summary) {
    && (!dog.Idle? ==> forall t :: t in dog.ids ==> t in h.traces)
    && (dog.Dropping? ==> dog.trace in h.traces && !HasStatus(s, dog.trace))
  }

  ghost predicate Safe(c: Config, m: Machine) {
    var h := Replay(m.log);
    && Lawful(m.log)
    && StoreAgrees(c, m.store, h)
    && WatchdogAgrees(m.dog, m.store, h)
    && 0 <= m.lastPass <= m.store.now
  }

  lemma StartIsSafe(c: Config)
    ensures Safe(c, Start)
  {
  }

  // ---- frames: how each part of the agreement survives a change to one trace or one slot ----

  lemma OneTaskChanged(s: Store, h: Summary, s': Store, h': Summary, t: string, task: Task, info: TraceInfo)
    requires TasksAgree(s, h) && s'.now == s.now
    requires s'.tasks == s.tasks[t := task] && h'.traces == h.traces[t := info]
    requires Agrees(task, info) && TaskLasts(task, s.now)
    ensures TasksAgree(s', h')
  {
  }

  lemma OneTaskGone(s: Store, h: Summary, s': Store, h': Summary, t: string, info: TraceInfo)
    requires TasksAgree(s, h) && s'.now == s.now
    requires s'.tasks == s.tasks - {t} && h'.traces == h.traces[t := info]
    ensures TasksAgree(s', h')
  {
  }

  lemma OneSentinelSet(s: Store, h: Summary, s': Store, h': Summary, t: string, info: TraceInfo, sentinel: Sentinel)
    requires SentinelsAgree(s, h) && s'.now == s.now && s.now < sentinel.expiresAt
    requires s'.sentinels == s.sentinels[info.slot := sentinel]
    requires h'.traces == h.traces[t := info] && (t in h.traces ==> h.traces[t].slot == info.slot)
    requires sentinel.trace == t || (info.slot in s.sentinels && sentinel.trace == s.sentinels[info.slot].trace)
    ensures SentinelsAgree(s', h')
  {
  }

  lemma OneSentinelGone(s: Store, h: Summary, s': Store, h': Summary, t: string, info: TraceInfo, k: Slot)
    requires SentinelsAgree(s, h) && s'.now == s.now
    requires s'.sentinels == s.sentinels - {k}
    requires h'.traces == h.traces[t := info] && t in h.traces && h.traces[t].slot == info.slot
    ensures SentinelsAgree(s', h')
  {
  }

  lemma SentinelsUntouched(s: Store, h: Summary, s': Store, h': Summary, t: string, info: TraceInfo)
    requires SentinelsAgree(s, h) && s'.now == s.now && s'.sentinels == s.sentinels
    requires h'.traces == h.traces[t := info] && (t in h.traces ==> h.traces[t].slot == info.slot)
    ensures SentinelsAgree(s', h')
  {
  }

  lemma CacheUntouched(c: Config, s: Store, h: Summary, s': Store, h': Summary)
    requires CacheAgrees(c, s, h)
    requires s'.cache == s.cache && s'.now == s.now && h'.latest == h.latest
    ensures CacheAgrees(c, s', h')
  {
    forall k ensures CacheLookup(s', k) == CacheFromHistory(c, h', s'.now, k) {
      assert CacheLookup(s, k) == CacheFromHistory(c, h, s.now, k);
    }
  }

  lemma CacheWritten(c: Config, s: Store, h: Summary, s': Store, h': Summary, k: Slot, url: string)
    requires CacheAgrees(c, s, h)
    requires s'.cache == s.cache[k := CacheEntry(url, s.now + c.cacheTTL)] && s'.now == s.now
    requires h'.latest == h.latest[k := Completion(url, s.now)]
    ensures CacheAgrees(c, s', h')
  {
    forall j ensures CacheLookup(s', j) == CacheFromHistory(c, h', s'.now, j) {
      assert CacheLookup(s, j) == CacheFromHistory(c, h, s.now, j);
    }
  }

  /** The queue after n more (or all fewer) entries of t, when only t's liveness changed. */
  lemma QueueChanged(s: Store, h: Summary, s': Store, h': Summary, t: string, info: TraceInfo, n: nat)
    requires QueueAgrees(s, h)
    requires h'.traces == h.traces[t := info] && multiset(s'.queue) == multiset(s.queue)[t := n]
    requires forall u :: u != t ==> (Live(s', u) ==> Live(s, u))
    requires Live(s', t) ==> n == 1 + info.reclaims
    requires info.phase.Done? ==> n == 0
    ensures QueueAgrees(s', h')
  {
  }

  // ---- the scripts ----

  ghost predicate StoreAgrees(c: Config, s: Store, h: Summary) {
    TasksAgree(s, h) && SentinelsAgree(s, h) && CacheAgrees(c, s, h) && QueueAgrees(s, h)
  }

  lemma PublishTasksAgree(c: Config, s: Store, h: Summary, t: string, k: Slot, gk: string, force: bool)
    requires TasksAgree(s, h) && SentinelsAgree(s, h) && t !in h.traces && PublishReplyFor(s, t, k, force).Created?
    ensures var s', h' := Publish(c, s, t, k, gk, force), Record(h, TaskCreated(t, k));
      TasksAgree(s', h') && SentinelsAgree(s', h')
  {
    var s', h' := Publish(c, s, t, k, gk, force), Record(h, TaskCreated(t, k));
    var info := TraceInfo(k, Waiting, 0, 0);
    OneTaskChanged(s, h, s', h', t, s'.tasks[t], info);
    OneSentinelSet(s, h, s', h', t, info, s'.sentinels[k]);
  }

  lemma PublishQueueAgrees(c: Config, s: Store, h: Summary, t: string, k: Slot, gk: string, force: bool)
    requires QueueAgrees(s, h) && t !in h.traces && PublishReplyFor(s, t, k, force).Created?
    ensures QueueAgrees(Publish(c, s, t, k, gk, force), Record(h, TaskCreated(t, k)))
  {
    var s', h' := Publish(c, s, t, k, gk, force), Record(h, TaskCreated(t, k));
    assert multiset(s'.queue) == multiset(s.queue)[t := 1];
    QueueChanged(s, h, s', h', t, TraceInfo(k, Waiting, 0, 0), 1);
  }

  lemma PublishAgrees(c: Config, s: Store, h: Summary, t: string, k: Slot, gk: string, force: bool)
    requires StoreAgrees(c, s, h) && t !in h.traces && PublishReplyFor(s, t, k, force).Created?
    ensures StoreAgrees(c, Publish(c, s, t, k, gk, force), Record(h, TaskCreated(t, k)))
  {
    PublishTasksAgree(c, s, h, t, k, gk, force);
    PublishQueueAgrees(c, s, h, t, k, gk, force);
    CacheUntouched(c, s, h, Publish(c, s, t, k, gk, force), Record(h, TaskCreated(t, k)));
  }

  lemma FetchAgrees(c: Config, s: Store, h: Summary, t: string, node: string)
    requires StoreAgrees(c, s, h) && StatusIs(s, t, Pending)
    ensures StoreAgrees(c, Fetch(c, s, t, node), Record(h, TaskFetched(t, node)))
  {
    var s', h' := Fetch(c, s, t, node), Record(h, TaskFetched(t, node));
    var info := h'.traces[t];
    OneTaskChanged(s, h, s', h', t, s'.tasks[t], info);
    if info.slot in s.sentinels {
      OneSentinelSet(s, h, s', h', t, info, s'.sentinels[info.slot]);
    } else {
      SentinelsUntouched(s, h, s', h', t, info);
    }
    CacheUntouched(c, s, h, s', h');
    QueueChanged(s, h, s', h', t, info, multiset(s.queue)[t]);
  }

  lemma CompleteTasksAgree(c: Config, s: Store, h: Summary, t: string, node: string, url: string)
    requires TasksAgree(s, h) && SentinelsAgree(s, h) && CompleteReplyFor(s, t, node) == CompleteOk
    ensures var s', h' := Complete(c, s, t, node, url), Record(h, TaskCompleted(t, node, url, s.now));
      TasksAgree(s', h') && SentinelsAgree(s', h')
  {
    var s', h' := Complete(c, s, t, node, url), Record(h, TaskCompleted(t, node, url, s.now));
    var info := h.traces[t].(phase := Done(Some(url)));
    OneTaskChanged(s, h, s', h', t, s'.tasks[t], info);
    OneSentinelGone(s, h, s', h', t, info, h.traces[t].slot);
  }

  lemma CompleteCacheAgrees(c: Config, s: Store, h: Summary, t: string, node: string, url: string)
    requires TasksAgree(s, h) && CacheAgrees(c, s, h) && CompleteReplyFor(s, t, node) == CompleteOk
    ensures CacheAgrees(c, Complete(c, s, t, node, url), Record(h, TaskCompleted(t, node, url, s.now)))
  {
    var s', h' := Complete(c, s, t, node, url), Record(h, TaskCompleted(t, node, url, s.now));
    CacheWritten(c, s, h, s', h', h.traces[t].slot, url);
  }

  lemma CompleteQueueAgrees(c: Config, s: Store, h: Summary, t: string, node: string, url: string)
    requires TasksAgree(s, h) && QueueAgrees(s, h) && CompleteReplyFor(s, t, node) == CompleteOk
    ensures QueueAgrees(Complete(c, s, t, node, url), Record(h, TaskCompleted(t, node, url, s.now)))
  {
    var s', h' := Complete(c, s, t, node, url), Record(h, TaskCompleted(t, node, url, s.now));
    QueueChanged(s, h, s', h', t, h.traces[t].(phase := Done(Some(url))), 0);
  }

  lemma CompleteAgrees(c: Config, s: Store, h: Summary, t: string, node: string, url: string)
    requires StoreAgrees(c, s, h) && CompleteReplyFor(s, t, node) == CompleteOk
    ensures StoreAgrees(c, Complete(c, s, t, node, url), Record(h, TaskCompleted(t, node, url, s.now)))
  {
    CompleteTasksAgree(c, s, h, t, node, url);
    CompleteCacheAgrees(c, s, h, t, node, url);
    CompleteQueueAgrees(c, s, h, t, node, url);
  }

  lemma FailAgrees(c: Config, s: Store, h: Summary, t: string, node: string, mode: FailMode)
    requires StoreAgrees(c, s, h) && FailReplyFor(s, t, node) == FailOk
    ensures StoreAgrees(c, Finalize(s, t, node, mode), Record(h, TaskFailed(t, node, mode)))
  {
    var s', h' := Finalize(s, t, node, mode), Record(h, TaskFailed(t, node, mode));
    var info := h'.traces[t];
    if mode == Reject {
      OneTaskGone(s, h, s', h', t, info);
    } else {
      OneTaskChanged(s, h, s', h', t, s'.tasks[t], info);
    }
    OneSentinelGone(s, h, s', h', t, info, info.slot);
    CacheUntouched(c, s, h, s', h');
    QueueChanged(s, h, s', h', t, info, 0);
  }

  lemma ReclaimAgrees(c: Config, s: Store, h: Summary, t: string)
    requires StoreAgrees(c, s, h) && StatusIs(s, t, Processing)
    ensures StoreAgrees(c, Reclaim(c, s, t), Record(h, TaskReclaimed(t)))
  {
    var s', h' := Reclaim(c, s, t), Record(h, TaskReclaimed(t));
    var info := h'.traces[t];
    OneTaskChanged(s, h, s', h', t, s'.tasks[t], info);
    OneSentinelSet(s, h, s', h', t, info, s'.sentinels[info.slot]);
    CacheUntouched(c, s, h, s', h');
    assert multiset(s'.queue) == multiset(s.queue)[t := multiset(s.queue)[t] + 1];
    QueueChanged(s, h, s', h', t, info, multiset(s.queue)[t] + 1);
  }

  lemma UpdateCostAgrees(c: Config, s: Store, h: Summary, t: string, free: bool, gp: int)
    requires StoreAgrees(c, s, h) && t in h.traces
    ensures StoreAgrees(c, UpdateCost(s, t, free, gp), h)
  {
    var s' := UpdateCost(s, t, free, gp);
    OneTaskChanged(s, h, s', h, t, s'.tasks[t], h.traces[t]);
    CacheUntouched(c, s, h, s', h);
  }

  lemma TickAgrees(c: Config, s: Store, h: Summary)
    requires StoreAgrees(c, s, h)
    ensures StoreAgrees(c, Tick(s), h)
  {
    var s' := Tick(s);
    forall k ensures CacheLookup(s', k) == CacheFromHistory(c, h, s'.now, k) {
      assert CacheLookup(s, k) == CacheFromHistory(c, h, s.now, k);
    }
  }

  // ---- the machine ----

  /** A watchdog that remembers a status-less trace stays right: a born trace never regains a status. */
  ghost predicate NoStatusRegained(s: Store, s': Store, h: Summary) {
    forall t :: t in h.traces && !HasStatus(s, t) ==> !HasStatus(s', t)
  }

  /** One more logged event, once the store is known to agree with it. */
  lemma EventKeepsSafe(c: Config, m: Machine, m': Machine, e: Event)
    requires Safe(c, m) && m' == m.(store := m'.store, log := m.log + [e])
    requires Allowed(Replay(m.log), e) && m'.store.now == m.store.now
    requires StoreAgrees(c, m'.store, Record(Replay(m.log), e))
    requires NoStatusRegained(m.store, m'.store, Replay(m.log))
    ensures Safe(c, m')
  {
    ReplayAppend(m.log, e);
    LawfulAppend(m.log, e);
    assert forall t :: t in Replay(m.log).traces ==> t in Replay(m'.log).traces;
  }

  lemma ReclaimKeepsSafe(c: Config, m: Machine, t: string)
    requires Safe(c, m)
    ensures Safe(c, ReclaimStep(c, m, t))
  {
    if StatusIs(m.store, t, Processing) {
      ReclaimAgrees(c, m.store, Replay(m.log), t);
      EventKeepsSafe(c, m, ReclaimStep(c, m, t), TaskReclaimed(t));
    }
  }

  lemma PublishKeepsSafe(c: Config, m: Machine, t: string, k: Slot, gk: string, force: bool)
    requires Safe(c, m) && FreshTrace(m, t)
    ensures Safe(c, PublishStep(c, m, t, k, gk, force))
  {
    if PublishReplyFor(m.store, t, k, force).Created? {
      PublishAgrees(c, m.store, Replay(m.log), t, k, gk, force);
      EventKeepsSafe(c, m, PublishStep(c, m, t, k, gk, force), TaskCreated(t, k));
    }
  }

  lemma FetchKeepsSafe(c: Config, m: Machine, t: string, node: string)
    requires Safe(c, m)
    ensures Safe(c, FetchStep(c, m, t, node))
  {
    if StatusIs(m.store, t, Pending) {
      FetchAgrees(c, m.store, Replay(m.log), t, node);
      EventKeepsSafe(c, m, FetchStep(c, m, t, node), TaskFetched(t, node));
    }
  }

  lemma CompleteKeepsSafe(c: Config, m: Machine, t: string, node: string, url: string)
    requires Safe(c, m)
    ensures Safe(c, CompleteStep(c, m, t, node, url))
  {
    if CompleteReplyFor(m.store, t, node) == CompleteOk {
      CompleteAgrees(c, m.store, Replay(m.log), t, node, url);
      EventKeepsSafe(c, m, CompleteStep(c, m, t, node, url), TaskCompleted(t, node, url, m.store.now));
    }
  }

  lemma FailKeepsSafe(c: Config, m: Machine, t: string, node: string, mode: FailMode)
    requires Safe(c, m)
    ensures Safe(c, FailStep(m, t, node, mode))
  {
    if FailReplyFor(m.store, t, node) == FailOk {
      FailAgrees(c, m.store, Replay(m.log), t, node, mode);
      EventKeepsSafe(c, m, FailStep(m, t, node, mode), TaskFailed(t, node, mode));
    }
  }

  lemma ScanKeepsSafe(c: Config, m: Machine)
    requires Safe(c, m) && (m.dog.Idle? || m.dog.Scanning? || m.dog.Checking?)
    ensures Safe(c, WatchdogStep(c, m))
  {
    ScanAgrees(c, m, Replay(m.log));
  }

  lemma ScanAgrees(c: Config, m: Machine, h: Summary)
    requires QueueAgrees(m.store, h) && WatchdogAgrees(m.dog, m.store, h)
    requires m.dog.Idle? || m.dog.Scanning? || m.dog.Checking?
    ensures WatchdogStep(c, m) == m.(dog := WatchdogStep(c, m).dog)
    ensures WatchdogAgrees(WatchdogStep(c, m).dog, m.store, h)
  {
    if m.dog.Scanning? && |m.dog.ids| < |m.store.queue| {
      assert m.store.queue[|m.dog.ids|] in multiset(m.store.queue);
    }
  }

  lemma DropKeepsSafe(c: Config, m: Machine)
    requires Safe(c, m) && m.dog.Dropping?
    ensures Safe(c, WatchdogStep(c, m))
  {
    CacheUntouched(c, m.store, Replay(m.log), WatchdogStep(c, m).store, Replay(m.log));
  }

  lemma WatchdogKeepsSafe(c: Config, m: Machine)
    requires Safe(c, m)
    ensures Safe(c, WatchdogStep(c, m))
  {
    if m.dog.Dropping? {
      DropKeepsSafe(c, m);
    } else if m.dog.Reclaiming? {
      ReclaimKeepsSafe(c, m.(dog := Checking(m.dog.ids)), m.dog.trace);
    } else {
      ScanKeepsSafe(c, m);
    }
  }

  lemma WatchdogProgress(c: Config, m: Machine)
    requires !m.dog.Idle?
    ensures Remaining(WatchdogStep(c, m).dog) < Remaining(m.dog)
    ensures WatchdogStep(c, m).store.now == m.store.now
  {
  }

  lemma {:induction false} RunToIdleKeepsSafe(c: Config, m: Machine)
    requires Safe(c, m)
    ensures Safe(c, RunToIdle(c, m)) && RunToIdle(c, m).dog == Idle && RunToIdle(c, m).store.now == m.store.now
    decreases Remaining(m.dog)
  {
    if !m.dog.Idle? {
      WatchdogKeepsSafe(c, m);
      WatchdogProgress(c, m);
      RunToIdleKeepsSafe(c, WatchdogStep(c, m));
    }
  }

  lemma NextKeepsSafe(c: Config, m: Machine, s: Step)
    requires Safe(c, m)
    ensures Safe(c, Next(c, m, s))
  {
    match s
    case DoPublish(t, k, gk, force) => if FreshTrace(m, t) { PublishKeepsSafe(c, m, t, k, gk, force); }
    case DoFetch(t, node) => FetchKeepsSafe(c, m, t, node);
    case DoComplete(t, node, url) => CompleteKeepsSafe(c, m, t, node, url);
    case DoFail(t, node, mode) => FailKeepsSafe(c, m, t, node, mode);
    case DoUpdateCost(t, free, gp) => if Born(m, t) { UpdateCostAgrees(c, m.store, Replay(m.log), t, free, gp); }
    case DoWatchdog => WatchdogKeepsSafe(c, m);
    case DoPass => PassKeepsSafe(c, m);
    case DoTick => TickAgrees(c, m.store, Replay(m.log));
  }

  lemma PassKeepsSafe(c: Config, m: Machine)
    requires Safe(c, m)
    ensures Safe(c, PassStep(c, m))
  {
    if m.dog.Idle? {
      WatchdogKeepsSafe(c, m);
      RunToIdleKeepsSafe(c, WatchdogStep(c, m));
    }
  }

  lemma StepKeepsSafe(c: Config, r: Run, n: nat)
    requires IsRun(c, r) && 0 < n < |r.states| && Safe(c, r.states[n - 1])
    ensures Safe(c, r.states[n])
  {
    assert StepAt(c, r, n - 1);
    NextKeepsSafe(c, r.states[n - 1], r.steps[n - 1]);
  }

  /** Every state of every run is safe. */
  lemma {:induction false} RunsAreSafe(c: Config, r: Run, n: nat)
    requires IsRun(c, r) && n < |r.states|
    ensures Safe(c, r.states[n])
  {
    if n == 0 {
      StartIsSafe(c);
    } else {
      RunsAreSafe(c, r, n - 1);
      StepKeepsSafe(c, r, n);
    }
  }
}
