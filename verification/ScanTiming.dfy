/**
 * The watchdog's timing when everything else runs in between its round trips: if the last finished scan of
 * the whole queue that missed no trace began recently enough, no PROCESSING task has ever expired.
 */
module ScanTiming {
  import opened TaskStore
  import opened SchedulerMachine
  import opened LeaseSafety
  import opened LeaseTiming
  import opened ScanReading
  import Lists = QueueLists

  // ---- half a lease since the last good scan ----

  /** Every PROCESSING task expires no earlier than half a lease after this time. */
  ghost predicate HalfLeaseFrom(c: Config, s: Store, at: int) {
    forall t :: StatusIs(s, t, Processing) ==> at + c.lease / 2 <= s.tasks[t].expiresAt
  }

  /** The current scan has still to deal with this trace. */
  predicate InHand(dog: Watchdog, k: Scan, t: string) {
    match dog
    case Idle => false
    case Scanning(_, _) => t in k.left
    case Checking(ids) => t in ids
    case Dropping(_, ids) => t in ids
    case Reclaiming(u, ids) => t == u || t in ids
  }

  ghost predicate HalfLeaseOrInHand(c: Config, m: Machine, k: Scan) {
    forall t | StatusIs(m.store, t, Processing) ::
      k.began + c.lease / 2 <= m.store.tasks[t].expiresAt || InHand(m.dog, k, t)
  }

  /** The scan under way may still turn out to miss nothing. */
  predicate Promising(m: Machine, k: Scan) {
    !m.dog.Idle? && k.all && (m.dog.Scanning? || MissesNone(k))
  }

  ghost predicate Scanned(c: Config, m: Machine, k: Scan) {
    && Reading(m, k) && k.last <= m.store.now && k.began <= m.store.now
    && HalfLeaseFrom(c, m.store, k.last)
    && (Promising(m, k) ==> HalfLeaseOrInHand(c, m, k))
  }

  lemma LeasesKept(c: Config, s: Store, s': Store, at: int)
    requires HalfLeaseFrom(c, s, at) && NoNewLease(s, s')
    ensures HalfLeaseFrom(c, s', at)
  {
  }

  lemma RemovedIsOver(c: Config, m: Machine, step: Step)
    requires RemovedBy(m, step).Some?
    ensures !StatusIs(Next(c, m, step).store, RemovedBy(m, step).value, Processing)
  {
  }

  lemma RemovalKeepsHand(c: Config, m: Machine, step: Step, k: Scan)
    requires HalfLeaseOrInHand(c, m, k) && RemovedBy(m, step).Some?
    ensures HalfLeaseOrInHand(c, Next(c, m, step), Watched(m, step, k))
  {
    var t := RemovedBy(m, step).value;
    RemovedIsOver(c, m, step);
    ScriptsLeaseNothing(c, m, step);
    ScriptsLeaveDog(c, m, step);
    Lists.RemoveAllMembers(k.left, t);
  }

  lemma OtherScriptKeepsHand(c: Config, m: Machine, step: Step, k: Scan)
    requires HalfLeaseOrInHand(c, m, k) && !step.DoWatchdog? && !step.DoPass? && !step.DoFetch?
    ensures HalfLeaseOrInHand(c, Next(c, m, step), k)
  {
    ScriptsLeaseNothing(c, m, step);
    ScriptsLeaveDog(c, m, step);
  }

  lemma ScriptKeepsScanned(c: Config, m: Machine, step: Step, k: Scan)
    requires Safe(c, m) && Scanned(c, m, k) && !step.DoWatchdog? && !step.DoPass? && !step.DoFetch?
    ensures Scanned(c, Next(c, m, step), Watched(m, step, k))
  {
    NextKeepsReading(c, m, step, k);
    ScriptsLeaseNothing(c, m, step);
    ScriptsLeaveDog(c, m, step);
    LeasesKept(c, m.store, Next(c, m, step).store, k.last);
    if Promising(m, k) {
      if RemovedBy(m, step).Some? { RemovalKeepsHand(c, m, step, k); }
      else { OtherScriptKeepsHand(c, m, step, k); }
    }
  }

  lemma FetchKeepsScanned(c: Config, m: Machine, t: string, node: string, k: Scan)
    requires Safe(c, m) && Scanned(c, m, k)
    ensures Scanned(c, FetchStep(c, m, t, node), k)
  {
    NextKeepsReading(c, m, DoFetch(t, node), k);
  }

  lemma BeginKeepsScanned(c: Config, m: Machine, k: Scan)
    requires Safe(c, m) && Scanned(c, m, k) && m.dog.Idle?
    ensures Scanned(c, WatchdogStep(c, m), Watched(m, DoWatchdog, k))
  {
    WatchdogKeepsReading(c, m, k);
    var k' := BeginScan(m, k);
    forall t | StatusIs(m.store, t, Processing) ensures t in m.store.queue {
      assert Live(m.store, t) && multiset(m.store.queue)[t] >= 1;
    }
    if m.store.queue != [] && k'.all {
      assert m.store.queue[..|m.store.queue|] == m.store.queue;
    }
  }

  lemma CheckKeepsHand(c: Config, m: Machine, k: Scan)
    requires k.began <= m.store.now && HalfLeaseOrInHand(c, m, k) && m.dog.Checking?
    requires forall t :: t in m.store.tasks ==> TaskLasts(m.store.tasks[t], m.store.now)
    ensures WatchdogStep(c, m).store == m.store
    ensures HalfLeaseOrInHand(c, WatchdogStep(c, m), k)
  {
    var ids := m.dog.ids;
    if ids != [] {
      assert ids == [ids[0]] + ids[1..];
    }
  }

  lemma ReadKeepsHand(c: Config, m: Machine, k: Scan)
    requires Reading(m, k) && k.all && HalfLeaseOrInHand(c, m, k) && m.dog.Scanning?
    ensures WatchdogStep(c, m).store == m.store
    ensures Promising(WatchdogStep(c, m), k) ==> HalfLeaseOrInHand(c, WatchdogStep(c, m), k)
  {
    if ScanEnds(m) && MissesNone(k) {
      EndCounts(m, k);
      forall x | x in k.left ensures x in m.dog.ids {
        assert multiset(m.dog.ids)[x] > 0;
      }
    }
  }

  lemma ActKeepsHand(c: Config, m: Machine, k: Scan)
    requires HalfLeaseOrInHand(c, m, k) && (m.dog.Dropping? || m.dog.Reclaiming?)
    requires m.dog.Dropping? ==> !HasStatus(m.store, m.dog.trace)
    ensures HalfLeaseOrInHand(c, WatchdogStep(c, m), k)
  {
    WatchdogLeasesNothing(c, m);
  }

  lemma WatchdogKeepsHand(c: Config, m: Machine, k: Scan)
    requires Safe(c, m) && Reading(m, k) && k.began <= m.store.now
    requires Promising(m, k) && HalfLeaseOrInHand(c, m, k)
    ensures Promising(WatchdogStep(c, m), k) ==> HalfLeaseOrInHand(c, WatchdogStep(c, m), k)
    ensures m.dog.Checking? && m.dog.ids == [] ==> HalfLeaseFrom(c, m.store, k.began)
  {
    if m.dog.Checking? {
      CheckKeepsHand(c, m, k);
    } else if m.dog.Scanning? {
      ReadKeepsHand(c, m, k);
    } else {
      ActKeepsHand(c, m, k);
    }
  }

  lemma WatchdogKeepsScanned(c: Config, m: Machine, k: Scan)
    requires Safe(c, m) && Scanned(c, m, k)
    ensures Scanned(c, WatchdogStep(c, m), Watched(m, DoWatchdog, k))
  {
    if m.dog.Idle? {
      BeginKeepsScanned(c, m, k);
    } else {
      WatchdogKeepsReading(c, m, k);
      WatchdogLeasesNothing(c, m);
      WatchdogProgress(c, m);
      LeasesKept(c, m.store, WatchdogStep(c, m).store, k.last);
      if Promising(m, k) { WatchdogKeepsHand(c, m, k); }
    }
  }

  lemma {:induction false} RunToIdleLeasesNothing(c: Config, m: Machine)
    ensures NoNewLease(m.store, RunToIdle(c, m).store) && RunToIdle(c, m).store.now == m.store.now
    decreases Remaining(m.dog)
  {
    if !m.dog.Idle? {
      WatchdogLeasesNothing(c, m);
      WatchdogProgress(c, m);
      RunToIdleLeasesNothing(c, WatchdogStep(c, m));
    }
  }

  lemma PassKeepsScanned(c: Config, m: Machine, k: Scan)
    requires Safe(c, m) && Scanned(c, m, k) && m.dog.Idle?
    ensures Scanned(c, PassStep(c, m), Watched(m, DoPass, k))
  {
    NextKeepsReading(c, m, DoPass, k);
    WatchdogLeasesNothing(c, m);
    RunToIdleLeasesNothing(c, WatchdogStep(c, m));
    RunToIdleEndsIdle(c, WatchdogStep(c, m));
    LeasesKept(c, m.store, PassStep(c, m).store, k.last);
    if |m.store.queue| <= SCAN_LIMIT { PassRestoresHalfLease(c, m); }
  }

  lemma NextKeepsScanned(c: Config, m: Machine, step: Step, k: Scan)
    requires Safe(c, m) && Scanned(c, m, k)
    ensures Scanned(c, Next(c, m, step), Watched(m, step, k))
  {
    if step.DoWatchdog? {
      WatchdogKeepsScanned(c, m, k);
    } else if step.DoPass? {
      if m.dog.Idle? { PassKeepsScanned(c, m, k); }
    } else if step.DoFetch? {
      FetchKeepsScanned(c, m, step.trace, step.node, k);
    } else {
      ScriptKeepsScanned(c, m, step, k);
    }
  }

  ghost predicate ScannedAt(c: Config, r: Run, n: nat)
    requires n < |r.states| == |r.steps| + 1
  {
    forall k {:trigger Scanned(c, r.states[n], k)} :: k == ScanAt(r, n) ==> Scanned(c, r.states[n], k)
  }

  lemma StepKeepsScanned(c: Config, r: Run, n: nat, k: Scan)
    requires IsRun(c, r) && 0 < n < |r.states| && Scanned(c, r.states[n - 1], k)
    ensures Scanned(c, r.states[n], Watched(r.states[n - 1], r.steps[n - 1], k))
  {
    RunsAreSafe(c, r, n - 1);
    assert StepAt(c, r, n - 1);
    NextKeepsScanned(c, r.states[n - 1], r.steps[n - 1], k);
  }

  lemma {:induction false} RunsAreScanned(c: Config, r: Run, n: nat)
    requires IsRun(c, r) && n < |r.states|
    ensures ScannedAt(c, r, n)
    decreases n
  {
    if n == 0 {
      StartIsUnscanned(c, r);
    } else {
      RunsAreScanned(c, r, n - 1);
      assert Scanned(c, r.states[n - 1], ScanAt(r, n - 1));
      StepKeepsScanned(c, r, n, ScanAt(r, n - 1));
    }
  }

  // ---- the timing condition ----

  ghost predicate CoveredAt(r: Run, n: nat, p: int)
    requires n < |r.states| == |r.steps| + 1
  {
    r.states[n].store.now - ScanAt(r, n).last <= p
  }

  /** At every moment, the last scan of a whole queue that missed nothing began at most p seconds ago. */
  ghost predicate Covered(r: Run, p: int) {
    |r.states| == |r.steps| + 1 && forall n :: 0 <= n < |r.states| ==> CoveredAt(r, n, p)
  }

  /** No task that a node is working on expires, whatever runs between the watchdog's round trips. */
  lemma CoveredScansLoseNothing(c: Config, r: Run, p: int)
    requires IsRun(c, r) && Covered(r, p) && p < c.lease / 2
    ensures NeverLost(r)
  {
    forall i, t | 0 <= i < |r.steps| && r.steps[i] == DoTick && StatusIs(r.states[i].store, t, Processing)
      ensures StatusIs(r.states[i + 1].store, t, Processing)
    {
      RunsAreScanned(c, r, i);
      assert Scanned(c, r.states[i], ScanAt(r, i));
      assert StepAt(c, r, i) && CoveredAt(r, i + 1, p);
      assert ScanAt(r, i + 1) == Watched(r.states[i], DoTick, ScanAt(r, i)) == ScanAt(r, i);
    }
  }

  predicate PassInScan(m: Machine, k: Scan) {
    m.lastPass <= k.last && (!m.dog.Idle? ==> m.lastPass <= k.began)
  }

  ghost predicate PassCounts(r: Run, n: nat)
    requires n < |r.states| == |r.steps| + 1
  {
    forall k {:trigger PassInScan(r.states[n], k)} :: k == ScanAt(r, n) ==> PassInScan(r.states[n], k)
  }

  lemma WatchdogPassCounts(c: Config, m: Machine, k: Scan)
    requires m.lastPass <= m.store.now && PassInScan(m, k)
    ensures PassInScan(WatchdogStep(c, m), Watched(m, DoWatchdog, k))
  {
  }

  lemma PassPassCounts(c: Config, m: Machine, k: Scan)
    requires ScanSeesAll(m, DoPass) && PassInScan(m, k)
    ensures PassInScan(PassStep(c, m), Watched(m, DoPass, k))
  {
    RunToIdleEndsIdle(c, WatchdogStep(c, m));
  }

  lemma ScriptPassCounts(c: Config, m: Machine, step: Step, k: Scan)
    requires PassInScan(m, k) && !step.DoWatchdog? && !step.DoPass?
    ensures PassInScan(Next(c, m, step), Watched(m, step, k))
  {
    ScriptsLeaveDog(c, m, step);
    assert Next(c, m, step).lastPass == m.lastPass;
  }

  lemma StepPassCounts(c: Config, r: Run, n: nat, k: Scan)
    requires IsRun(c, r) && 0 < n < |r.states|
    requires ScanSeesAll(r.states[n - 1], r.steps[n - 1]) && PassInScan(r.states[n - 1], k)
    ensures PassInScan(r.states[n], Watched(r.states[n - 1], r.steps[n - 1], k))
  {
    var m, step := r.states[n - 1], r.steps[n - 1];
    assert StepAt(c, r, n - 1);
    if step.DoWatchdog? {
      RunsAreSafe(c, r, n - 1);
      WatchdogPassCounts(c, m, k);
    } else if step.DoPass? {
      PassPassCounts(c, m, k);
    } else {
      ScriptPassCounts(c, m, step, k);
    }
  }

  lemma {:induction false} PassesCount(c: Config, r: Run, p: int, n: nat)
    requires IsRun(c, r) && Timely(r, p) && n < |r.states|
    ensures PassCounts(r, n)
    decreases n
  {
    if n == 0 {
      StartIsUnscanned(c, r);
    } else {
      PassesCount(c, r, p, n - 1);
      assert PassInScan(r.states[n - 1], ScanAt(r, n - 1));
      StepPassCounts(c, r, n, ScanAt(r, n - 1));
    }
  }

  /** Uninterrupted scans miss nothing: the result for them is a special case. */
  lemma TimelyIsCovered(c: Config, r: Run, p: int)
    requires IsRun(c, r) && Timely(r, p)
    ensures Covered(r, p)
  {
    forall n | 0 <= n < |r.states| ensures CoveredAt(r, n, p) {
      PassesCount(c, r, p, n);
      assert RecentlyScanned(r.states[n], p) && PassInScan(r.states[n], ScanAt(r, n));
    }
  }

  /** The exact timing condition, over all interleavings. */
  lemma NothingLostIffCovered(c: Config, p: int)
    requires 1 <= p
    ensures (forall r :: IsRun(c, r) && Covered(r, p) ==> NeverLost(r)) <==> p < c.lease / 2
  {
    if p < c.lease / 2 {
      forall r | IsRun(c, r) && Covered(r, p) ensures NeverLost(r) {
        CoveredScansLoseNothing(c, r, p);
      }
    } else {
      var r := SlowScansLoseALease(c, p);
      TimelyIsCovered(c, r, p);
    }
  }
}
