/** What one uninterrupted watchdog scan computes, despite duplicates and head-first removal. */
module WatchdogPass {
  import opened TaskStore
  import opened SchedulerMachine

  function ScanLength(s: Store): (n: nat)
    ensures n <= |s.queue| && n <= SCAN_LIMIT
  {
    Min(|s.queue|, SCAN_LIMIT)
  }

  /** The entries whose trace has a status, in order. */
  function Kept(s: Store, ids: seq<string>): seq<string> {
    if ids == [] then []
    else Kept(s, ids[..|ids| - 1]) + if HasStatus(s, ids[|ids| - 1]) then [ids[|ids| - 1]] else []
  }

  /** The expiring traces, each once, in order of first occurrence. */
  function Overdue(c: Config, s: Store, ids: seq<string>): seq<string> {
    if ids == [] then []
    else
      var rest, t := Overdue(c, s, ids[..|ids| - 1]), ids[|ids| - 1];
      if Expiring(c, s, t) && t !in rest then rest + [t] else rest
  }

  function ReclaimEach(c: Config, s: Store, ts: seq<string>): Store {
    if ts == [] then s else Reclaim(c, ReclaimEach(c, s, ts[..|ts| - 1]), ts[|ts| - 1])
  }

  /** The scan as a function: status-less entries leave the scanned prefix, then each overdue task is reclaimed once. */
  function ScanResult(c: Config, s: Store): Store {
    var n := ScanLength(s);
    ReclaimEach(c, s.(queue := Kept(s, s.queue[..n]) + s.queue[n..]), Overdue(c, s, s.queue[..n]))
  }

  /** The queue after a scan, said directly. */
  function ScannedQueue(c: Config, s: Store): seq<string> {
    var n := ScanLength(s);
    Kept(s, s.queue[..n]) + s.queue[n..] + Overdue(c, s, s.queue[..n])
  }

  // ---- facts about the three folds ----

  lemma {:induction false} KeptHasStatus(s: Store, ids: seq<string>)
    ensures forall t :: t in Kept(s, ids) ==> HasStatus(s, t)
  {
    if ids != [] { KeptHasStatus(s, ids[..|ids| - 1]); }
  }

  lemma {:induction false} OverdueIsExpiring(c: Config, s: Store, ids: seq<string>)
    ensures forall t :: t in Overdue(c, s, ids) <==> t in ids && Expiring(c, s, t)
    ensures forall i, j :: 0 <= i < j < |Overdue(c, s, ids)| ==> Overdue(c, s, ids)[i] != Overdue(c, s, ids)[j]
  {
    if ids != [] {
      OverdueIsExpiring(c, s, ids[..|ids| - 1]);
      assert ids == ids[..|ids| - 1] + [ids[|ids| - 1]];
    }
  }

  ghost predicate Distinct(ts: seq<string>) {
    forall i, j :: 0 <= i < j < |ts| ==> ts[i] != ts[j]
  }

  ghost predicate AllProcessing(s: Store, ts: seq<string>) {
    forall t :: t in ts ==> StatusIs(s, t, Processing)
  }

  function BackToPending(c: Config, now: int, task: Task): Task
    requires task.Task?
  {
    task.(status := Pending, node := "", expiresAt := now + 3 * c.lease)
  }

  /** Reclaiming distinct PROCESSING traces rewrites exactly those tasks and appends exactly those entries. */
  lemma {:induction false} ReclaimEachEffect(c: Config, s: Store, ts: seq<string>)
    requires AllProcessing(s, ts) && Distinct(ts)
    ensures var r := ReclaimEach(c, s, ts);
      && r.now == s.now && r.cache == s.cache && r.queue == s.queue + ts && r.tasks.Keys == s.tasks.Keys
      && (forall t | t in s.tasks ::
            r.tasks[t] == if t in ts then BackToPending(c, s.now, s.tasks[t]) else s.tasks[t])
  {
    if ts == [] {
      assert s.queue + ts == s.queue;
    } else {
      var n := |ts| - 1;
      var u := ts[n];
      assert ts == ts[..n] + [u];
      ReclaimEachEffect(c, s, ts[..n]);
      assert u in ts && u !in ts[..n];
      assert s.queue + ts == s.queue + ts[..n] + [u];
    }
  }

  /** Changing the queue beforehand only changes the queue afterwards. */
  lemma {:induction false} QueueFollows(c: Config, s: Store, ts: seq<string>, q: seq<string>)
    requires AllProcessing(s, ts) && Distinct(ts)
    ensures ReclaimEach(c, s.(queue := q), ts) == ReclaimEach(c, s, ts).(queue := q + ts)
  {
    if ts == [] {
      assert q + ts == q;
    } else {
      var n := |ts| - 1;
      assert ts == ts[..n] + [ts[n]];
      QueueFollows(c, s, ts[..n], q);
      ReclaimEachEffect(c, s, ts[..n]);
      assert ts[n] in ts && ts[n] !in ts[..n];
      assert q + ts == q + ts[..n] + [ts[n]];
    }
  }

  // ---- the scan, entry by entry ----

  /** The store after the first i scanned entries are dealt with. */
  function ScanPrefix(c: Config, s: Store, i: nat): Store
    requires i <= |s.queue|
  {
    ReclaimEach(c, s.(queue := Kept(s, s.queue[..i]) + s.queue[i..]), Overdue(c, s, s.queue[..i]))
  }

  /** One entry as the watchdog treats it: drop it, reclaim it, or leave it. */
  function ScanEntry(c: Config, s: Store, t: string): Store {
    if !HasStatus(s, t) then s.(queue := RemoveFirst(s.queue, t))
    else if Expiring(c, s, t) then Reclaim(c, s, t)
    else s
  }

  lemma ScanPrefixEffect(c: Config, s: Store, i: nat)
    requires i <= |s.queue|
    ensures var r, ts := ScanPrefix(c, s, i), Overdue(c, s, s.queue[..i]);
      && r.now == s.now
      && r.queue == Kept(s, s.queue[..i]) + s.queue[i..] + ts
      && (forall t :: HasStatus(r, t) == HasStatus(s, t))
      && (forall t :: Expiring(c, r, t) <==> Expiring(c, s, t) && t !in ts)
      && (forall t :: t in ts ==> StatusIs(r, t, Pending))
  {
    OverdueIsExpiring(c, s, s.queue[..i]);
    ReclaimEachEffect(c, s.(queue := Kept(s, s.queue[..i]) + s.queue[i..]), Overdue(c, s, s.queue[..i]));
  }

  lemma ScanPrefixStep(c: Config, s: Store, i: nat)
    requires i < |s.queue|
    ensures ScanPrefix(c, s, i + 1) == ScanEntry(c, ScanPrefix(c, s, i), s.queue[i])
  {
    var t := s.queue[i];
    assert s.queue[..i + 1] == s.queue[..i] + [t] && s.queue[..i + 1][..i] == s.queue[..i];
    ScanPrefixEffect(c, s, i);
    if !HasStatus(s, t) {
      DroppedStep(c, s, i);
    } else {
      assert s.queue[i..] == [t] + s.queue[i + 1..];
      assert Kept(s, s.queue[..i + 1]) + s.queue[i + 1..] == Kept(s, s.queue[..i]) + s.queue[i..];
      var ts := Overdue(c, s, s.queue[..i]);
      if Expiring(c, s, t) && t !in ts {
        assert (ts + [t])[..|ts|] == ts;
      }
    }
  }

  lemma DroppedQueue(q: seq<string>, t: string, rest: seq<string>, ts: seq<string>)
    requires t !in q
    ensures RemoveFirst(q + ([t] + rest) + ts, t) == q + rest + ts
  {
    assert q + ([t] + rest) + ts == q + ([t] + (rest + ts));
    RemoveFirstAfter(q, t, rest + ts);
    assert q + (rest + ts) == q + rest + ts;
  }

  lemma DroppedStep(c: Config, s: Store, i: nat)
    requires i < |s.queue| && !HasStatus(s, s.queue[i])
    ensures ScanPrefix(c, s, i + 1) ==
            ScanPrefix(c, s, i).(queue := RemoveFirst(ScanPrefix(c, s, i).queue, s.queue[i]))
  {
    var t, ids := s.queue[i], s.queue[..i];
    var q, ts, rest := Kept(s, ids), Overdue(c, s, ids), s.queue[i + 1..];
    assert s.queue[..i + 1] == ids + [t] && (ids + [t])[..i] == ids;
    assert Kept(s, ids + [t]) == q;
    KeptHasStatus(s, ids);
    OverdueIsExpiring(c, s, ids);
    ScanPrefixEffect(c, s, i);
    assert s.queue[i..] == [t] + rest;
    DroppedQueue(q, t, rest, ts);
    QueueFollows(c, s, ts, q + s.queue[i..]);
    QueueFollows(c, s, ts, q + rest);
  }

  // ---- the watchdog goroutine, uninterrupted, computes the scan ----

  lemma {:induction false} ChecksComputeScan(c: Config, m: Machine, s: Store, i: nat)
    requires i <= ScanLength(s)
    requires m.dog == Checking(s.queue[i..ScanLength(s)]) && m.store == ScanPrefix(c, s, i)
    ensures RunToIdle(c, m).store == ScanPrefix(c, s, ScanLength(s)) && RunToIdle(c, m).dog == Idle
    decreases ScanLength(s) - i
  {
    var n := ScanLength(s);
    if i < n {
      var t, ids := s.queue[i], s.queue[i..n];
      assert ids[0] == t && ids[1..] == s.queue[i + 1..n];
      ScanPrefixStep(c, s, i);
      var m' := WatchdogStep(c, m);
      if m'.dog.Checking? {
        ChecksComputeScan(c, m', s, i + 1);
      } else {
        ChecksComputeScan(c, WatchdogStep(c, m'), s, i + 1);
      }
    }
  }

  lemma {:induction false} ReadsCollectPrefix(c: Config, m: Machine, n: nat)
    requires m.dog.Scanning? && m.dog.limit == n <= |m.store.queue| && |m.dog.ids| <= n
    requires m.dog.ids == m.store.queue[..|m.dog.ids|]
    ensures RunToIdle(c, m) == RunToIdle(c, m.(dog := Checking(m.store.queue[..n])))
    decreases n - |m.dog.ids|
  {
    var i := |m.dog.ids|;
    if i < n {
      assert m.store.queue[..i + 1] == m.store.queue[..i] + [m.store.queue[i]];
      ReadsCollectPrefix(c, WatchdogStep(c, m), n);
    } else {
      assert m.dog.ids == m.store.queue[..n];
    }
  }

  lemma ScanPrefixEnds(c: Config, s: Store)
    ensures ScanPrefix(c, s, 0) == s
    ensures ScanPrefix(c, s, ScanLength(s)) == ScanResult(c, s)
    ensures s.queue == [] ==> ScanResult(c, s) == s
  {
    assert s.queue[..0] == [];
    assert [] + s.queue[0..] == s.queue;
  }

  /** An uninterrupted pass over the Redis round trips is the scan function. */
  lemma PassComputesScan(c: Config, m: Machine)
    requires m.dog.Idle?
    ensures PassStep(c, m).store == ScanResult(c, m.store)
    ensures ScanResult(c, m.store).queue == ScannedQueue(c, m.store)
  {
    var s := m.store;
    ScanPrefixEnds(c, s);
    ScanPrefixEffect(c, s, ScanLength(s));
    if s.queue != [] {
      ReadsCollectPrefix(c, WatchdogStep(c, m), ScanLength(s));
      assert s.queue[0..ScanLength(s)] == s.queue[..ScanLength(s)];
      ChecksComputeScan(c, m.(dog := Checking(s.queue[..ScanLength(s)])), s, 0);
    }
  }

  lemma ScannedTask(c: Config, s: Store, t: string)
    requires t in ScanResult(c, s).tasks
    ensures t in s.tasks
    ensures var overdue := t in Overdue(c, s, s.queue[..ScanLength(s)]);
      ScanResult(c, s).tasks[t] ==
      if overdue && s.tasks[t].Task? then BackToPending(c, s.now, s.tasks[t]) else s.tasks[t]
  {
    var n := ScanLength(s);
    ScanPrefixEnds(c, s);
    OverdueIsExpiring(c, s, s.queue[..n]);
    ReclaimEachEffect(c, s.(queue := Kept(s, s.queue[..n]) + s.queue[n..]), Overdue(c, s, s.queue[..n]));
  }

  /** After a pass no scanned PROCESSING task has less than half a lease left, unless it had already run out. */
  lemma ScannedTasksHaveHalfALease(c: Config, s: Store, t: string)
    requires t in s.queue[..ScanLength(s)] && StatusIs(ScanResult(c, s), t, Processing)
    requires forall u :: u in s.tasks ==> TaskLasts(s.tasks[u], s.now)
    ensures StatusIs(s, t, Processing) && ScanResult(c, s).tasks[t] == s.tasks[t]
    ensures c.lease / 2 <= s.tasks[t].expiresAt - s.now
  {
    ScannedTask(c, s, t);
    OverdueIsExpiring(c, s, s.queue[..ScanLength(s)]);
  }

  // ---- the same trace by trace ----

  /** PROCESSING, with time left, but less than half the lease. */
  predicate RunsLow(c: Config, s: Store, t: string) {
    && t in s.tasks && s.tasks[t].Task? && s.tasks[t].status == Processing
    && s.now < s.tasks[t].expiresAt && s.tasks[t].expiresAt - s.now < c.lease / 2
  }

  lemma {:induction false} KeptCounts(s: Store, ids: seq<string>, t: string)
    ensures multiset(Kept(s, ids))[t] == if HasStatus(s, t) then multiset(ids)[t] else 0
  {
    if ids != [] {
      KeptCounts(s, ids[..|ids| - 1], t);
      assert ids == ids[..|ids| - 1] + [ids[|ids| - 1]];
    }
  }

  lemma {:induction false} DistinctCounts(ts: seq<string>, t: string)
    requires Distinct(ts)
    ensures multiset(ts)[t] == if t in ts then 1 else 0
  {
    if ts != [] {
      var n := |ts| - 1;
      DistinctCounts(ts[..n], t);
      assert ts == ts[..n] + [ts[n]];
    }
  }

  /**
   * What one uninterrupted pass does to each trace, whatever the queue holds: of the first hundred entries it
   * drops those of a trace without status, and it reclaims, and queues once more, each trace whose lease runs low.
   */
  lemma PassByTrace(c: Config, m: Machine, t: string)
    requires m.dog.Idle?
    ensures var s, s' := m.store, PassStep(c, m).store; var q := s.queue;
      var front := if |q| < 100 then q else q[..100];
      var low := t in front && RunsLow(c, s, t);
      && multiset(s'.queue)[t] + (if HasStatus(s, t) then 0 else multiset(front)[t]) ==
         multiset(q)[t] + (if low then 1 else 0)
      && (t in s'.tasks <==> t in s.tasks)
      && (t in s.tasks ==> s'.tasks[t] == if low then BackToPending(c, s.now, s.tasks[t]) else s.tasks[t])
  {
    var s := m.store;
    var n := ScanLength(s);
    var front, rest, ts := s.queue[..n], s.queue[n..], Overdue(c, s, s.queue[..n]);
    PassComputesScan(c, m);
    OverdueIsExpiring(c, s, front);
    KeptCounts(s, front, t);
    DistinctCounts(ts, t);
    PassCountsAdd(s.queue, Kept(s, front), rest, ts, n, t);
    ReclaimEachEffect(c, s.(queue := Kept(s, front) + rest), ts);
  }

  lemma PassCountsAdd(q: seq<string>, kept: seq<string>, rest: seq<string>, ts: seq<string>, n: nat, t: string)
    requires n <= |q| && rest == q[n..]
    ensures multiset(kept + rest + ts)[t] + multiset(q[..n])[t] ==
            multiset(kept)[t] + multiset(q)[t] + multiset(ts)[t]
  {
    assert q == q[..n] + rest;
  }
}
