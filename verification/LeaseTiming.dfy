/**
 * The watchdog's timing. A PROCESSING task hash is never lost to expiry when uninterrupted scans come
 * at most P seconds apart and see the whole queue, exactly when P is below half the lease.
 */
module LeaseTiming {
  import opened Keys
  import opened TaskStore
  import opened History
  import opened SchedulerMachine
  import opened LeaseSafety
  import opened WatchdogPass

  ghost predicate RecentlyScanned(m: Machine, p: int) {
    m.store.now - m.lastPass <= p
  }

  ghost predicate ScanSeesAll(m: Machine, s: Step) {
    s == DoPass ==> |m.store.queue| <= SCAN_LIMIT
  }

  /** Scans are at most p seconds apart, and no scan finds more entries than it reads. */
  ghost predicate Timely(r: Run, p: int)
    requires |r.states| == |r.steps| + 1
  {
    && (forall i :: 0 <= i < |r.states| ==> RecentlyScanned(r.states[i], p))
    && (forall i :: 0 <= i < |r.steps| ==> ScanSeesAll(r.states[i], r.steps[i]))
  }

  /** No second passes in which a task expires while PROCESSING. */
  ghost predicate NeverLost(r: Run)
    requires |r.states| == |r.steps| + 1
  {
    forall i, t :: 0 <= i < |r.steps| && r.steps[i] == DoTick && StatusIs(r.states[i].store, t, Processing)
                   ==> StatusIs(r.states[i + 1].store, t, Processing)
  }

  /** Since the last scan, every PROCESSING task has had at least half a lease. */
  ghost predicate HalfLeaseSinceScan(c: Config, m: Machine) {
    forall t :: StatusIs(m.store, t, Processing) ==> m.lastPass + c.lease / 2 <= m.store.tasks[t].expiresAt
  }

  lemma PassRestoresHalfLease(c: Config, m: Machine)
    requires Safe(c, m) && m.dog.Idle? && |m.store.queue| <= SCAN_LIMIT
    ensures HalfLeaseSinceScan(c, PassStep(c, m))
  {
    var m' := PassStep(c, m);
    PassKeepsSafe(c, m);
    PassComputesScan(c, m);
    assert m.store.queue[..ScanLength(m.store)] == m.store.queue;
    forall t | StatusIs(m'.store, t, Processing) ensures m'.lastPass + c.lease / 2 <= m'.store.tasks[t].expiresAt {
      ScanOnlyReclaims(c, m.store, t);
      assert Live(m.store, t) && multiset(m.store.queue)[t] >= 1;
      ScannedTasksHaveHalfALease(c, m.store, t);
    }
  }

  lemma ScanOnlyReclaims(c: Config, s: Store, t: string)
    requires StatusIs(ScanResult(c, s), t, Processing)
    ensures StatusIs(s, t, Processing)
  {
    ScanPrefixEnds(c, s);
    var ids := s.queue[..ScanLength(s)];
    OverdueIsExpiring(c, s, ids);
    ReclaimEachEffect(c, s.(queue := Kept(s, ids) + s.queue[ScanLength(s)..]), Overdue(c, s, ids));
  }

  /** No task became PROCESSING, and those that were have kept their deadline. */
  ghost predicate NoNewLease(s: Store, s': Store) {
    forall t | StatusIs(s', t, Processing) ::
      StatusIs(s, t, Processing) && s'.tasks[t].expiresAt == s.tasks[t].expiresAt
  }

  lemma PublishLeasesNothing(c: Config, s: Store, t: string, k: Slot, gk: string, force: bool)
    ensures NoNewLease(s, Publish(c, s, t, k, gk, force))
  {
  }

  lemma CompleteLeasesNothing(c: Config, s: Store, t: string, node: string, url: string)
    ensures NoNewLease(s, Complete(c, s, t, node, url))
  {
  }

  lemma FinalizeLeasesNothing(s: Store, t: string, node: string, mode: FailMode)
    ensures NoNewLease(s, Finalize(s, t, node, mode))
  {
  }

  lemma ScriptsLeaseNothing(c: Config, m: Machine, s: Step)
    requires !s.DoFetch? && !s.DoPass? && !s.DoWatchdog?
    ensures NoNewLease(m.store, Next(c, m, s).store) && Next(c, m, s).lastPass == m.lastPass
  {
    match s
    case DoPublish(t, k, gk, force) => PublishLeasesNothing(c, m.store, t, k, gk, force);
    case DoComplete(t, node, url) => CompleteLeasesNothing(c, m.store, t, node, url);
    case DoFail(t, node, mode) => FinalizeLeasesNothing(m.store, t, node, mode);
    case _ =>
  }

  lemma WatchdogLeasesNothing(c: Config, m: Machine)
    ensures NoNewLease(m.store, WatchdogStep(c, m).store) && WatchdogStep(c, m).lastPass == m.lastPass
  {
  }

  lemma FetchLeasesWhole(c: Config, m: Machine, t: string, node: string)
    requires m.lastPass <= m.store.now && HalfLeaseSinceScan(c, m)
    ensures HalfLeaseSinceScan(c, FetchStep(c, m, t, node))
  {
  }

  lemma OtherStepsKeepHalfLease(c: Config, m: Machine, s: Step)
    requires m.lastPass <= m.store.now && HalfLeaseSinceScan(c, m) && s != DoPass
    ensures HalfLeaseSinceScan(c, Next(c, m, s))
  {
    if s.DoFetch? {
      FetchLeasesWhole(c, m, s.trace, s.node);
    } else if s.DoWatchdog? {
      WatchdogLeasesNothing(c, m);
    } else {
      ScriptsLeaseNothing(c, m, s);
    }
  }

  lemma NextKeepsHalfLease(c: Config, m: Machine, s: Step)
    requires Safe(c, m) && HalfLeaseSinceScan(c, m) && ScanSeesAll(m, s)
    ensures HalfLeaseSinceScan(c, Next(c, m, s))
  {
    if s != DoPass {
      OtherStepsKeepHalfLease(c, m, s);
    } else if m.dog.Idle? {
      PassRestoresHalfLease(c, m);
    }
  }

  lemma StepKeepsHalfLease(c: Config, r: Run, p: int, n: nat)
    requires IsRun(c, r) && Timely(r, p) && 0 < n < |r.states| && HalfLeaseSinceScan(c, r.states[n - 1])
    ensures HalfLeaseSinceScan(c, r.states[n])
  {
    RunsAreSafe(c, r, n - 1);
    assert StepAt(c, r, n - 1);
    NextKeepsHalfLease(c, r.states[n - 1], r.steps[n - 1]);
  }

  lemma {:induction false} TimelyRunsKeepHalfLease(c: Config, r: Run, p: int, n: nat)
    requires IsRun(c, r) && Timely(r, p) && n < |r.states|
    ensures HalfLeaseSinceScan(c, r.states[n])
  {
    if n > 0 {
      TimelyRunsKeepHalfLease(c, r, p, n - 1);
      StepKeepsHalfLease(c, r, p, n);
    }
  }

  lemma TimelyScansLoseNothing(c: Config, r: Run, p: int)
    requires IsRun(c, r) && Timely(r, p) && p < c.lease / 2
    ensures NeverLost(r)
  {
    forall i, t | 0 <= i < |r.steps| && r.steps[i] == DoTick && StatusIs(r.states[i].store, t, Processing)
      ensures StatusIs(r.states[i + 1].store, t, Processing)
    {
      TimelyRunsKeepHalfLease(c, r, p, i);
      assert StepAt(c, r, i) && RecentlyScanned(r.states[i + 1], p);
    }
  }

  // ---- the bound is tight ----

  const Trace := "t"
  const Home := Slot("u", "g")

  /** One task, fetched at time zero, j seconds later; the last scan was at time q. */
  function OneLease(c: Config, j: int, q: int): Machine {
    Machine(Store(j,
                  map[Trace := Task(Processing, "n", Home, "k", false, false, 0, c.lease)],
                  map[Home := Sentinel(Trace, c.lease)], map[], [Trace]),
            [TaskCreated(Trace, Home), TaskFetched(Trace, "n")], Idle, q)
  }

  lemma LeaseTicks(c: Config, j: int, q: int)
    requires 0 <= j && j + 1 < c.lease
    ensures Next(c, OneLease(c, j, q), DoTick) == OneLease(c, j + 1, q)
  {
    var m, m' := OneLease(c, j, q), OneLease(c, j + 1, q);
    assert Tick(m.store).tasks == m'.store.tasks;
    assert Tick(m.store).sentinels == m'.store.sentinels;
    assert Tick(m.store).cache == m'.store.cache;
  }

  lemma LeaseScanned(c: Config, j: int, q: int)
    requires 0 <= j <= c.lease - c.lease / 2
    ensures Next(c, OneLease(c, j, q), DoPass) == OneLease(c, j, j)
  {
    var m := OneLease(c, j, q);
    LoneEntryRead(c, m);
    assert !Expiring(c, m.store, Trace);
    LoneEntryKept(c, m);
  }

  /** Three round trips read the one entry. */
  lemma LoneEntryRead(c: Config, m: Machine)
    requires m.dog.Idle? && m.store.queue == [Trace]
    ensures WatchdogStep(c, m) == m.(dog := Scanning(1, []))
    ensures RunToIdle(c, WatchdogStep(c, m)) == RunToIdle(c, m.(dog := Checking([Trace])))
  {
    var m1 := m.(dog := Scanning(1, []));
    var m2 := m.(dog := Scanning(1, [Trace]));
    assert [] + [Trace] == [Trace];
    assert WatchdogStep(c, m1) == m2 && WatchdogStep(c, m2) == m.(dog := Checking([Trace]));
    assert RunToIdle(c, m1) == RunToIdle(c, m2);
  }

  /** Two more check it and find nothing to do. */
  lemma LoneEntryKept(c: Config, m: Machine)
    requires m.dog.Idle? && HasStatus(m.store, Trace) && !Expiring(c, m.store, Trace)
    ensures RunToIdle(c, m.(dog := Checking([Trace]))) == m
  {
    var m3, m4 := m.(dog := Checking([Trace])), m.(dog := Checking([]));
    assert [Trace][1..] == [];
    assert WatchdogStep(c, m3) == m4 && WatchdogStep(c, m4) == m;
    assert RunToIdle(c, m4) == RunToIdle(c, m) == m;
  }

  lemma ExtendTimely(c: Config, r: Run, s: Step, p: int)
    requires IsRun(c, r) && Timely(r, p)
    requires RecentlyScanned(Next(c, r.Last(), s), p) && ScanSeesAll(r.Last(), s)
    ensures IsRun(c, Extend(c, r, s)) && Timely(Extend(c, r, s), p)
    ensures Extend(c, r, s).Last() == Next(c, r.Last(), s)
  {
    ExtendIsRun(c, r, s);
  }

  lemma FetchedAtStart(c: Config, p: int) returns (r: Run)
    requires 1 <= p
    ensures IsRun(c, r) && Timely(r, p) && r.Last() == OneLease(c, 0, 0)
  {
    var publish, fetch := DoPublish(Trace, Home, "k", false), DoFetch(Trace, "n");
    ExtendTimely(c, NoSteps, publish, p);
    r := Extend(c, NoSteps, publish);
    assert Replay(r.Last().log[..0]) == Nothing;
    ExtendTimely(c, r, fetch, p);
    r := Extend(c, r, fetch);
  }

  /** A timely run in which the task was fetched, n seconds have passed, and the watchdog scanned each second. */
  lemma {:induction false} ScannedEachSecond(c: Config, n: nat, p: int) returns (r: Run)
    requires 1 <= p && n <= c.lease - c.lease / 2 && n < c.lease
    ensures IsRun(c, r) && Timely(r, p) && r.Last() == OneLease(c, n, n)
  {
    if n == 0 {
      r := FetchedAtStart(c, p);
    } else {
      r := ScannedEachSecond(c, n - 1, p);
      LeaseTicks(c, n - 1, n - 1);
      ExtendTimely(c, r, DoTick, p);
      r := Extend(c, r, DoTick);
      LeaseScanned(c, n, n - 1);
      ExtendTimely(c, r, DoPass, p);
      r := Extend(c, r, DoPass);
    }
  }

  lemma {:induction false} ThenUnwatched(c: Config, n: nat, k: nat, p: int) returns (r: Run)
    requires 1 <= p && n <= c.lease - c.lease / 2 && n + k < c.lease && k <= p
    ensures IsRun(c, r) && Timely(r, p) && r.Last() == OneLease(c, n + k, n)
  {
    if k == 0 {
      r := ScannedEachSecond(c, n, p);
    } else {
      r := ThenUnwatched(c, n, k - 1, p);
      LeaseTicks(c, n + k - 1, n);
      ExtendTimely(c, r, DoTick, p);
      r := Extend(c, r, DoTick);
    }
  }

  /** With a longer gap there is a timely run that loses a task its node is still working on. */
  lemma SlowScansLoseALease(c: Config, p: int) returns (r: Run)
    requires 1 <= p && c.lease / 2 <= p
    ensures IsRun(c, r) && Timely(r, p) && !NeverLost(r)
  {
    var n: nat := if c.lease == 1 then 0 else c.lease - c.lease / 2;
    var before := ThenUnwatched(c, n, c.lease - n - 1, p);
    ExtendTimely(c, before, DoTick, p);
    r := Extend(c, before, DoTick);
    var i := |before.steps|;
    assert r.steps[i] == DoTick && StatusIs(r.states[i].store, Trace, Processing);
    assert !StatusIs(r.states[i + 1].store, Trace, Processing);
  }

  /** The exact timing condition, for every gap of at least a second. */
  lemma NothingLostIff(c: Config, p: int)
    requires 1 <= p
    ensures (forall r :: IsRun(c, r) && Timely(r, p) ==> NeverLost(r)) <==> p < c.lease / 2
  {
    if p < c.lease / 2 {
      forall r | IsRun(c, r) && Timely(r, p) ensures NeverLost(r) {
        TimelyScansLoseNothing(c, r, p);
      }
    } else {
      var r := SlowScansLoseALease(c, p);
    }
  }
}
