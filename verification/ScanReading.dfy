/**
 * The watchdog's scans when everything else runs in between its round trips. A completion or failure that
 * goes through takes a trace out of the queue and moves later entries down, some of them perhaps under the
 * index the scan has reached. Those, and only those, the scan misses; and if a scan of the whole queue
 * misses no trace, every PROCESSING task has half a lease left, counted from the scan's LLEN.
 */
module ScanReading {
  import opened TaskStore
  import opened History
  import opened SchedulerMachine
  import opened LeaseSafety
  import Lists = QueueLists

  /**
   * The history of the current scan: when its LLEN was; what it then found in reach, and what is left of that
   * after completions and failures; the entries that slid under its index; whether anything it had read was
   * removed; whether anything found was removed too early; whether the whole queue was in reach; and when
   * the last scan that missed nothing began.
   */
  datatype Scan = Scan(began: int, found: seq<string>, left: seq<string>, slid: multiset<string>,
                       clean: bool, intact: bool, all: bool, last: int)

  /** Completions and failures that go through are what takes entries out of the queue under a scan. */
  function RemovedBy(m: Machine, step: Step): Option<string> {
    match step
    case DoComplete(t, node, _) => if CompleteReplyFor(m.store, t, node) == CompleteOk then Some(t) else None
    case DoFail(t, node, _) => if FailReplyFor(m.store, t, node) == FailOk then Some(t) else None
    case _ => None
  }

  function BeginScan(m: Machine, k: Scan): Scan {
    if m.store.queue == [] then k.(last := m.store.now)
    else
      var limit := Min(|m.store.queue|, SCAN_LIMIT);
      var found := m.store.queue[..limit];
      Scan(m.store.now, found, found, multiset{}, true, true, limit == |m.store.queue|, k.last)
  }

  /** A trace leaves the queue while the scan is at index |ids|. */
  function Removal(q: seq<string>, ids: seq<string>, t: string, k: Scan): Scan {
    k.(left := RemoveAll(k.left, t),
       slid := k.slid + Lists.Slides(q, |ids|, t),
       clean := k.clean && t !in ids,
       intact := k.intact && !(t in k.found && |ids| < |k.found|))
  }

  /** Every trace that is left was read at least once. */
  predicate MissesNone(k: Scan) {
    k.all && forall x :: x in k.left ==> k.slid[x] < multiset(k.left)[x]
  }

  ghost function Watched(m: Machine, step: Step, k: Scan): Scan {
    if step.DoWatchdog? then
      if m.dog.Idle? then BeginScan(m, k)
      else if m.dog.Checking? && m.dog.ids == [] && MissesNone(k) then k.(last := k.began)
      else k
    else if step.DoPass? then
      if m.dog.Idle? && |m.store.queue| <= SCAN_LIMIT then k.(last := m.store.now) else k
    else if m.dog.Scanning? && RemovedBy(m, step).Some? then
      Removal(m.store.queue, m.dog.ids, RemovedBy(m, step).value, k)
    else k
  }

  function Unscanned(now: int): Scan {
    Scan(now, [], [], multiset{}, false, false, false, now)
  }

  ghost function ScanAt(r: Run, n: nat): Scan
    requires n < |r.states| == |r.steps| + 1
  {
    if n == 0 then Unscanned(r.states[0].store.now) else Watched(r.states[n - 1], r.steps[n - 1], ScanAt(r, n - 1))
  }

  // ---- what a scan reads ----

  /** What is left stands at the head of the queue; what was read is where it was found unless that moved. */
  predicate Tracks(q: seq<string>, ids: seq<string>, k: Scan) {
    && |ids| <= |k.found| && |k.left| <= |k.found| && k.left <= q
    && (k.clean ==> ids <= q)
    && (k.intact ==> ids == k.found[..|ids|] && (|ids| < |k.found| ==> k.left == k.found))
  }

  /** Of this trace, whatever is under the index was read or slid there. */
  predicate ReadOrSlid(q: seq<string>, ids: seq<string>, k: Scan, x: string) {
    multiset(Lists.Below(q, |ids|))[x] == multiset(ids)[x] + k.slid[x]
  }

  /** When the scan found the whole queue: what came later is new, and whatever is under the index was read or slid. */
  ghost predicate Counts(q: seq<string>, ids: seq<string>, k: Scan) {
    && (forall x :: x in k.left ==> x in k.found)
    && (forall j :: |k.left| <= j < |q| ==> q[j] !in k.found)
    && (forall x {:trigger ReadOrSlid(q, ids, k, x)} :: x in k.left ==> ReadOrSlid(q, ids, k, x))
    && (!k.intact ==> |k.left| < |k.found| && (|ids| == |k.found| ==> ids != k.found))
  }

  ghost predicate Reading(m: Machine, k: Scan) {
    m.dog.Scanning? ==>
      && m.dog.limit == |k.found| && Tracks(m.store.queue, m.dog.ids, k)
      && (forall x :: x in k.found ==> Born(m, x))
      && (k.all ==> Counts(m.store.queue, m.dog.ids, k))
  }

  /** Whatever is queued was once published. */
  ghost predicate QueueBorn(m: Machine) {
    forall x :: x in m.store.queue ==> Born(m, x)
  }

  lemma SafeQueueIsBorn(c: Config, m: Machine)
    requires Safe(c, m)
    ensures QueueBorn(m)
  {
    forall x | x in m.store.queue ensures Born(m, x) {
      assert multiset(m.store.queue)[x] > 0;
    }
  }

  lemma BeginReads(c: Config, m: Machine, k: Scan)
    requires QueueBorn(m) && m.dog.Idle?
    ensures Reading(WatchdogStep(c, m), BeginScan(m, k))
  {
    if m.store.queue != [] {
      var k' := BeginScan(m, k);
      forall x | x in k'.found ensures Born(m, x) {
        assert x in m.store.queue;
      }
      assert k'.found[..0] == [];
    }
  }

  lemma IndexTracks(q: seq<string>, ids: seq<string>, k: Scan)
    requires Tracks(q, ids, k) && |ids| < |k.found| && |ids| < |q|
    ensures Tracks(q, ids + [q[|ids|]], k)
  {
    var i := |ids|;
    if k.intact {
      assert q[i] == k.left[i] && k.found[..i] + [k.found[i]] == k.found[..i + 1];
    }
  }

  lemma IndexCounts(q: seq<string>, ids: seq<string>, k: Scan)
    requires Tracks(q, ids, k) && Counts(q, ids, k) && |ids| < |k.found| && |ids| < |q|
    ensures Counts(q, ids + [q[|ids|]], k)
  {
    var i := |ids|;
    assert Lists.Below(q, i + 1) == Lists.Below(q, i) + [q[i]];
    forall x | x in k.left ensures ReadOrSlid(q, ids + [q[i]], k, x) {
      assert ReadOrSlid(q, ids, k, x);
    }
    if !k.intact && i + 1 == |k.found| {
      assert q[i] !in k.found && (ids + [q[i]])[i] == q[i];
    }
  }

  lemma RemovalTracks(q: seq<string>, ids: seq<string>, t: string, k: Scan)
    requires Tracks(q, ids, k)
    ensures Tracks(RemoveAll(q, t), ids, Removal(q, ids, t, k))
  {
    Lists.RemoveAllKeepsPrefix(q, k.left, t);
    if k.clean && t !in ids {
      Lists.RemoveAllKeepsPrefix(q, ids, t);
      Lists.RemoveAllAbsent(ids, t);
    }
    if k.intact && t !in k.found && |ids| < |k.found| { Lists.RemoveAllAbsent(k.left, t); }
  }

  lemma RemovalLeavesNew(q: seq<string>, ids: seq<string>, t: string, k: Scan)
    requires Tracks(q, ids, k) && Counts(q, ids, k)
    ensures var q', left' := RemoveAll(q, t), RemoveAll(k.left, t);
      && |left'| <= |q'| && (forall j :: |left'| <= j < |q'| ==> q'[j] !in k.found)
  {
    var left', rest := RemoveAll(k.left, t), q[|k.left|..];
    Lists.RemoveAllSplits(q, k.left, t);
    Lists.RemoveAllMembers(rest, t);
    forall x | x in rest ensures x !in k.found {
      var j :| 0 <= j < |rest| && rest[j] == x;
      assert q[|k.left| + j] == x;
    }
    forall j | |left'| <= j < |RemoveAll(q, t)| ensures RemoveAll(q, t)[j] !in k.found {
      assert RemoveAll(q, t)[j] in RemoveAll(rest, t);
    }
  }

  lemma RemovalCounts(q: seq<string>, ids: seq<string>, t: string, k: Scan)
    requires Tracks(q, ids, k) && Counts(q, ids, k)
    ensures Counts(RemoveAll(q, t), ids, Removal(q, ids, t, k))
  {
    var q', k' := RemoveAll(q, t), Removal(q, ids, t, k);
    RemovalLeavesNew(q, ids, t, k);
    Lists.RemoveAllMembers(k.left, t);
    forall x | x in k'.left ensures ReadOrSlid(q', ids, k', x) {
      assert ReadOrSlid(q, ids, k, x);
      Lists.SlidesCount(q, |ids|, t, x);
    }
    RemovalShrinks(q, ids, t, k);
  }

  lemma RemovalShrinks(q: seq<string>, ids: seq<string>, t: string, k: Scan)
    requires Tracks(q, ids, k) && Counts(q, ids, k)
    ensures var k' := Removal(q, ids, t, k);
      !k'.intact ==> |k'.left| < |k.found| && (|ids| == |k.found| ==> ids != k.found)
  {
    if k.intact && t in k.left {
      Lists.RemoveAllShrinks(k.left, t);
    } else {
      Lists.RemoveAllKeepsPrefix(q, k.left, t);
    }
  }

  lemma AppendTracks(q: seq<string>, ids: seq<string>, t: string, k: Scan)
    requires Tracks(q, ids, k) && t !in k.found
    ensures Tracks(q + [t], ids, k)
    ensures k.all && Counts(q, ids, k) ==> Counts(q + [t], ids, k)
  {
    if k.all && Counts(q, ids, k) {
      Lists.BelowAppend(q, |ids|, t);
      forall x | x in k.left ensures ReadOrSlid(q + [t], ids, k, x) {
        assert ReadOrSlid(q, ids, k, x);
      }
    }
  }

  // ---- every step ----

  ghost predicate BornStay(m: Machine, m': Machine) {
    forall x :: Born(m, x) ==> Born(m', x)
  }

  lemma LoggedBornStay(m: Machine, m': Machine, e: Event)
    requires m'.log == m.log || m'.log == m.log + [e]
    ensures BornStay(m, m')
  {
    ReplayAppend(m.log, e);
  }

  lemma ScriptsKeepBorn(c: Config, m: Machine, step: Step)
    requires !step.DoWatchdog? && !step.DoPass?
    ensures BornStay(m, Next(c, m, step))
  {
    var m' := Next(c, m, step);
    LoggedBornStay(m, m', if m'.log == m.log then TaskReclaimed("") else m'.log[|m.log|]);
  }

  lemma ScriptsLeaveDog(c: Config, m: Machine, step: Step)
    requires !step.DoWatchdog? && !step.DoPass?
    ensures Next(c, m, step).dog == m.dog
  {
  }

  /** A script takes one trace out of the queue, or puts a new one at its end, or leaves it alone. */
  lemma ScriptsOnQueue(c: Config, m: Machine, step: Step)
    requires !step.DoWatchdog? && !step.DoPass?
    ensures var q, q' := m.store.queue, Next(c, m, step).store.queue;
      if RemovedBy(m, step).Some? then q' == RemoveAll(q, RemovedBy(m, step).value)
      else q' == q || (step.DoPublish? && FreshTrace(m, step.trace) && q' == q + [step.trace])
  {
  }

  lemma RemovalKeepsReading(c: Config, m: Machine, step: Step, k: Scan)
    requires Reading(m, k) && m.dog.Scanning? && RemovedBy(m, step).Some?
    ensures Reading(Next(c, m, step), Watched(m, step, k))
  {
    ScriptsOnQueue(c, m, step);
    ScriptsLeaveDog(c, m, step);
    ScriptsKeepBorn(c, m, step);
    RemovalTracks(m.store.queue, m.dog.ids, RemovedBy(m, step).value, k);
    if k.all { RemovalCounts(m.store.queue, m.dog.ids, RemovedBy(m, step).value, k); }
  }

  lemma ScriptKeepsReading(c: Config, m: Machine, step: Step, k: Scan)
    requires Reading(m, k) && !step.DoWatchdog? && !step.DoPass? && RemovedBy(m, step).None?
    ensures Reading(Next(c, m, step), k)
  {
    ScriptsOnQueue(c, m, step);
    ScriptsLeaveDog(c, m, step);
    ScriptsKeepBorn(c, m, step);
    if m.dog.Scanning? && step.DoPublish? && FreshTrace(m, step.trace) {
      AppendTracks(m.store.queue, m.dog.ids, step.trace, k);
    }
  }

  lemma IndexKeepsReading(c: Config, m: Machine, k: Scan)
    requires Reading(m, k) && m.dog.Scanning?
    ensures Reading(WatchdogStep(c, m), k)
  {
    if |m.dog.ids| < m.dog.limit && |m.dog.ids| < |m.store.queue| {
      IndexTracks(m.store.queue, m.dog.ids, k);
      if k.all { IndexCounts(m.store.queue, m.dog.ids, k); }
    }
  }

  lemma WatchdogKeepsReading(c: Config, m: Machine, k: Scan)
    requires QueueBorn(m) && Reading(m, k)
    ensures Reading(WatchdogStep(c, m), Watched(m, DoWatchdog, k))
  {
    if m.dog.Idle? {
      BeginReads(c, m, k);
    } else if m.dog.Scanning? {
      IndexKeepsReading(c, m, k);
    }
  }

  lemma {:induction false} RunToIdleEndsIdle(c: Config, m: Machine)
    ensures RunToIdle(c, m).dog.Idle?
    decreases Remaining(m.dog)
  {
    if !m.dog.Idle? {
      WatchdogProgress(c, m);
      RunToIdleEndsIdle(c, WatchdogStep(c, m));
    }
  }

  lemma NextKeepsReading(c: Config, m: Machine, step: Step, k: Scan)
    requires QueueBorn(m) && Reading(m, k)
    ensures Reading(Next(c, m, step), Watched(m, step, k))
  {
    if step.DoWatchdog? {
      WatchdogKeepsReading(c, m, k);
    } else if step.DoPass? {
      if m.dog.Idle? { RunToIdleEndsIdle(c, WatchdogStep(c, m)); }
    } else if RemovedBy(m, step).None? {
      ScriptKeepsReading(c, m, step, k);
    } else if m.dog.Scanning? {
      RemovalKeepsReading(c, m, step, k);
    } else {
      ScriptsLeaveDog(c, m, step);
    }
  }

  lemma RunQueueIsBorn(c: Config, r: Run, n: nat)
    requires IsRun(c, r) && n < |r.states|
    ensures QueueBorn(r.states[n])
  {
    RunsAreSafe(c, r, n);
    SafeQueueIsBorn(c, r.states[n]);
  }

  lemma StepKeepsReading(c: Config, r: Run, n: nat)
    requires IsRun(c, r) && 0 < n < |r.states| && ReadingAt(r, n - 1)
    ensures ReadingAt(r, n)
  {
    RunQueueIsBorn(c, r, n - 1);
    assert StepAt(c, r, n - 1);
    NextKeepsReading(c, r.states[n - 1], r.steps[n - 1], ScanAt(r, n - 1));
  }

  ghost predicate ReadingAt(r: Run, n: nat)
    requires n < |r.states| == |r.steps| + 1
  {
    forall k {:trigger Reading(r.states[n], k)} :: k == ScanAt(r, n) ==> Reading(r.states[n], k)
  }

  /** Before the first step the watchdog is idle, and no scan was made. */
  lemma StartIsUnscanned(c: Config, r: Run)
    requires IsRun(c, r)
    ensures ScanAt(r, 0) == Unscanned(r.states[0].store.now) && r.states[0].dog == Idle && ReadingAt(r, 0)
  {
  }

  lemma {:induction false} RunsAreReading(c: Config, r: Run, n: nat)
    requires IsRun(c, r) && n < |r.states|
    ensures ReadingAt(r, n)
    decreases n
  {
    if n == 0 {
      StartIsUnscanned(c, r);
    } else {
      RunsAreReading(c, r, n - 1);
      StepKeepsReading(c, r, n);
    }
  }

  // ---- what a scan goes on to check ----

  /** The last LINDEX of a scan has been answered: it goes on to check what it has read. */
  predicate ScanEnds(m: Machine) {
    m.dog.Scanning? && (m.dog.limit <= |m.dog.ids| || |m.store.queue| <= |m.dog.ids|)
  }

  /** While nothing it has read is removed, a scan reads all that is left of what it found, in place. */
  lemma EndIsComplete(m: Machine, k: Scan)
    requires Reading(m, k) && ScanEnds(m)
    ensures k.clean ==> k.left <= m.dog.ids
    ensures k.intact ==> m.dog.ids == k.found
    ensures k.all && m.dog.ids == k.found ==> k.intact
  {
    assert k.intact && |m.dog.ids| == |k.found| ==> k.found[..|k.found|] == k.found;
  }

  /** At the end of a scan that found the whole queue, what is left was read or slid. */
  lemma EndCounts(m: Machine, k: Scan)
    requires Reading(m, k) && ScanEnds(m) && k.all
    ensures forall x :: x in k.left ==> multiset(k.left)[x] == multiset(m.dog.ids)[x] + k.slid[x]
  {
    var q, ids := m.store.queue, m.dog.ids;
    forall x | x in k.left ensures multiset(k.left)[x] == multiset(ids)[x] + k.slid[x] {
      assert ReadOrSlid(q, ids, k, x);
      LeftIsUnderIndex(q, |ids|, k, x);
    }
  }

  lemma LeftIsUnderIndex(q: seq<string>, i: nat, k: Scan, x: string)
    requires k.left <= q && (|k.left| <= i || |q| <= i) && x in k.found
    requires forall j :: |k.left| <= j < |q| ==> q[j] !in k.found
    ensures multiset(Lists.Below(q, i))[x] == multiset(k.left)[x]
  {
    var under := Lists.Below(q, i);
    var rest := under[|k.left|..];
    assert under == k.left + rest;
    forall j | 0 <= j < |rest| ensures rest[j] != x {
      assert rest[j] == q[|k.left| + j];
    }
  }

  ghost predicate EndsAt(c: Config, r: Run, n: nat) {
    IsRun(c, r) && n < |r.steps| && r.steps[n] == DoWatchdog && ScanEnds(r.states[n])
  }

  lemma EndChecks(c: Config, r: Run, n: nat)
    requires EndsAt(c, r, n)
    ensures r.states[n + 1].dog == Checking(r.states[n].dog.ids) && Reading(r.states[n], ScanAt(r, n))
  {
    RunsAreReading(c, r, n);
    assert StepAt(c, r, n);
  }

  /**
   * In any interleaving, a scan under which no trace it had already read was completed or failed goes on to
   * check all that is left of what it found at its LLEN, in place; what follows that was published since.
   */
  lemma CleanScanCollects(c: Config, r: Run, n: nat)
    requires EndsAt(c, r, n) && ScanAt(r, n).clean
    ensures r.states[n + 1].dog.Checking? && ScanAt(r, n).left <= r.states[n + 1].dog.ids
  {
    EndChecks(c, r, n);
    EndIsComplete(r.states[n], ScanAt(r, n));
  }

  /**
   * A scan that found the whole queue goes on to check exactly what it found iff nothing of it was completed
   * or failed while an entry was still unread. (The first half holds of a scan that found only part, too.)
   */
  lemma ScanCollectsIff(c: Config, r: Run, n: nat)
    requires EndsAt(c, r, n)
    ensures ScanAt(r, n).intact ==> r.states[n + 1].dog == Checking(ScanAt(r, n).found)
    ensures ScanAt(r, n).all ==> (r.states[n + 1].dog == Checking(ScanAt(r, n).found) <==> ScanAt(r, n).intact)
  {
    EndChecks(c, r, n);
    EndIsComplete(r.states[n], ScanAt(r, n));
  }

  /**
   * What a scan that found the whole queue misses: of every trace that is still queued it checks as many
   * entries as there were, less those that slid under its index. So it misses a trace iff they all slid.
   */
  lemma ScanMissesIff(c: Config, r: Run, n: nat, x: string)
    requires EndsAt(c, r, n) && ScanAt(r, n).all && x in ScanAt(r, n).left
    ensures var k, ids := ScanAt(r, n), r.states[n].dog.ids;
      && r.states[n + 1].dog == Checking(ids)
      && multiset(k.left)[x] == multiset(ids)[x] + k.slid[x]
      && (x !in ids <==> k.slid[x] == multiset(k.left)[x])
  {
    EndChecks(c, r, n);
    EndCounts(r.states[n], ScanAt(r, n));
    assert x in r.states[n].dog.ids <==> x in multiset(r.states[n].dog.ids);
  }

  /** So a clean scan of the whole queue misses no trace. */
  lemma CleanMissesNone(c: Config, r: Run, n: nat)
    requires EndsAt(c, r, n) && ScanAt(r, n).all && ScanAt(r, n).clean
    ensures MissesNone(ScanAt(r, n))
  {
    CleanScanCollects(c, r, n);
    var k, ids := ScanAt(r, n), r.states[n].dog.ids;
    EndChecks(c, r, n);
    forall x | x in k.left ensures k.slid[x] < multiset(k.left)[x] {
      ScanMissesIff(c, r, n, x);
      assert x in ids;
    }
  }
}
