/** The scheduler's guarantees over every run, stated on the event log and the store alone. */
module SchedulerTheorems {
  import opened Keys
  import opened TaskStore
  import opened History
  import opened SchedulerMachine
  import opened LeaseSafety

  /** Logs only grow: an earlier state's log is a prefix of a later one's. */
  lemma {:induction false} LogGrows(c: Config, r: Run, i: nat, j: nat)
    requires IsRun(c, r) && i <= j < |r.states|
    ensures r.states[i].log <= r.states[j].log
    decreases j
  {
    if i < j {
      LogGrows(c, r, i, j - 1);
      assert StepAt(c, r, j - 1);
      NextGrowsLog(c, r.states[j - 1], r.steps[j - 1]);
    }
  }

  lemma NextGrowsLog(c: Config, m: Machine, s: Step)
    ensures m.log <= Next(c, m, s).log
  {
    match s
    case DoPass => if m.dog.Idle? { RunToIdleGrowsLog(c, WatchdogStep(c, m)); }
    case _ =>
  }

  lemma {:induction false} RunToIdleGrowsLog(c: Config, m: Machine)
    ensures m.log <= RunToIdle(c, m).log
    decreases Remaining(m.dog)
  {
    if !m.dog.Idle? {
      WatchdogProgress(c, m);
      RunToIdleGrowsLog(c, WatchdogStep(c, m));
    }
  }

  /** Fetches outnumber reclaims by at most one, and two fetches always have a reclaim between them. */
  lemma LeasesAreExclusive(c: Config, r: Run, t: string)
    requires IsRun(c, r)
    ensures var log := r.Last().log;
      && FetchCount(log, t) <= 1 + ReclaimCount(log, t)
      && (forall i, j | 0 <= i < j < |log| && log[i].TaskFetched? && log[j].TaskFetched?
                        && log[i].trace == t == log[j].trace
            :: exists k :: i < k < j && log[k] == TaskReclaimed(t))
  {
    RunsAreSafe(c, r, |r.steps|);
    var log := r.Last().log;
    FetchesWithinReclaims(log, t);
    forall i, j | 0 <= i < j < |log| && log[i].TaskFetched? && log[j].TaskFetched? && log[i].trace == t == log[j].trace
      ensures exists k :: i < k < j && log[k] == TaskReclaimed(t)
    {
      ReclaimBetweenFetches(log, i, j);
    }
  }

  /** An accepted completion is the lease holder's: its node made the latest fetch, with no reclaim since. */
  lemma OnlyTheHolderCompletes(c: Config, r: Run, j: nat)
    requires IsRun(c, r) && j < |r.Last().log| && r.Last().log[j].TaskCompleted?
    ensures var log := r.Last().log;
      exists i :: 0 <= i < j && log[i] == TaskFetched(log[j].trace, log[j].node)
                  && forall k :: i < k < j ==> log[k].trace != log[j].trace
  {
    RunsAreSafe(c, r, |r.steps|);
    var i := CompletionFollowsItsFetch(r.Last().log, j);
  }

  ghost predicate Finalised(log: seq<Event>, t: string) {
    exists i :: 0 <= i < |log| && log[i].trace == t && IsFinal(log[i])
  }

  lemma FinalisedIsDone(log: seq<Event>, t: string)
    requires Lawful(log) && Finalised(log, t)
    ensures t in Replay(log).traces && Replay(log).traces[t].phase.Done?
  {
    var i :| 0 <= i < |log| && log[i].trace == t && IsFinal(log[i]);
    FinalEventEnds(Replay(log[..i]), log[i]);
    ReplayNext(log, i);
    assert log[..|log|] == log;
    TracePersists(log, t, i + 1, |log|);
  }

  lemma FinalEventEnds(h: Summary, e: Event)
    requires Allowed(h, e) && IsFinal(e)
    ensures e.trace in Record(h, e).traces && Record(h, e).traces[e.trace].phase.Done?
  {
  }

  lemma FinalisedOnce(log: seq<Event>, i: nat, j: nat)
    requires Lawful(log) && i < |log| && j < |log|
    requires IsFinal(log[i]) && IsFinal(log[j]) && log[i].trace == log[j].trace
    ensures i == j
  {
    if i < j {
      NothingFollowsFinal(log, i, j);
    } else if j < i {
      NothingFollowsFinal(log, j, i);
    }
  }

  /**
   * Finality: a trace is completed, failed or rejected at most once, and from then on it is never live or
   * queued again, so no script can fetch, complete, fail or reclaim it, whatever UpdateTaskCost recreates.
   */
  lemma FinalisedForGood(c: Config, r: Run, n: nat, t: string)
    requires IsRun(c, r) && n < |r.states| && Finalised(r.states[n].log, t)
    ensures var m := r.Last();
      && !Live(m.store, t) && t !in m.store.queue
      && forall i, j | 0 <= i < |m.log| && 0 <= j < |m.log| && IsFinal(m.log[i]) && IsFinal(m.log[j])
           :: m.log[i].trace == m.log[j].trace ==> i == j
  {
    RunsAreSafe(c, r, |r.steps|);
    LogGrows(c, r, n, |r.steps|);
    var early, m := r.states[n].log, r.Last();
    var e :| 0 <= e < |early| && early[e].trace == t && IsFinal(early[e]);
    assert m.log[e] == early[e];
    FinalisedIsDone(m.log, t);
    assert multiset(m.store.queue)[t] == 0;
    forall i, j | 0 <= i < |m.log| && 0 <= j < |m.log| && IsFinal(m.log[i]) && IsFinal(m.log[j])
                  && m.log[i].trace == m.log[j].trace
      ensures i == j
    {
      FinalisedOnce(m.log, i, j);
    }
  }

  /** A live trace is queued once for its publication and once more for each reclaim. */
  lemma QueueMultiplicity(c: Config, r: Run, t: string)
    requires IsRun(c, r) && Live(r.Last().store, t)
    ensures multiset(r.Last().store.queue)[t] == 1 + ReclaimCount(r.Last().log, t)
  {
    RunsAreSafe(c, r, |r.steps|);
    FetchesWithinReclaims(r.Last().log, t);
  }

  // ---- the cache against history ----

  ghost predicate CreatedFor(log: seq<Event>, t: string, k: Slot) {
    exists j :: 0 <= j < |log| && log[j] == TaskCreated(t, k)
  }

  ghost predicate CompletionFor(log: seq<Event>, i: int, k: Slot) {
    0 <= i < |log| && log[i].TaskCompleted? && CreatedFor(log, log[i].trace, k)
  }

  ghost predicate LatestFor(log: seq<Event>, i: int, k: Slot) {
    CompletionFor(log, i, k) && forall j :: i < j < |log| ==> !CompletionFor(log, j, k)
  }

  lemma CreatedForItsSlot(log: seq<Event>, t: string, k: Slot)
    requires Lawful(log)
    ensures CreatedFor(log, t, k) <==> t in Replay(log).traces && Replay(log).traces[t].slot == k
  {
    if CreatedFor(log, t, k) {
      var j :| 0 <= j < |log| && log[j] == TaskCreated(t, k);
      assert log[..|log|] == log;
      SlotOfCreated(log, j, |log|);
    } else if t in Replay(log).traces {
      var i := CreatedSomewhere(log, t);
    }
  }

  lemma CompletedTraceIsBorn(log: seq<Event>, i: nat)
    requires Lawful(log) && i < |log| && log[i].TaskCompleted?
    ensures log[i].trace in Replay(log[..i]).traces && log[i].trace in Replay(log).traces
    ensures Replay(log[..i]).traces[log[i].trace].slot == Replay(log).traces[log[i].trace].slot
  {
    assert Allowed(Replay(log[..i]), log[i]);
    assert log[..|log|] == log;
    TracePersists(log, log[i].trace, i, |log|);
  }

  /** Completions seen from a shorter log are the same completions. */
  lemma CompletionForPrefix(log: seq<Event>, n: nat, i: nat, k: Slot)
    requires Lawful(log) && i < n <= |log|
    ensures CompletionFor(log, i, k) <==> CompletionFor(log[..n], i, k)
  {
    if log[i].TaskCompleted? {
      LawfulPrefix(log, n);
      CompletedTraceIsBorn(log, i);
      CompletedTraceIsBorn(log[..n], i);
      assert log[..n][..i] == log[..i];
      CreatedForItsSlot(log, log[i].trace, k);
      CreatedForItsSlot(log[..n], log[i].trace, k);
    }
  }

  /** o is the latest completion of the slot in this log. */
  ghost predicate Describes(log: seq<Event>, k: Slot, o: Option<Completion>) {
    && (o.None? ==> forall i :: !CompletionFor(log, i, k))
    && (o.Some? ==> exists i :: LatestFor(log, i, k) && o.value == Completion(log[i].url, log[i].at))
  }

  ghost function LatestEntry(log: seq<Event>, k: Slot): Option<Completion> {
    if k in Replay(log).latest then Some(Replay(log).latest[k]) else None
  }

  lemma LatestByLastEvent(log: seq<Event>, n: nat, k: Slot)
    requires Lawful(log) && n == |log| - 1
    ensures LatestEntry(log, k) == if CompletionFor(log, n, k) then Some(Completion(log[n].url, log[n].at))
                                   else LatestEntry(log[..n], k)
  {
    if log[n].TaskCompleted? {
      CreatedForItsSlot(log, log[n].trace, k);
      CompletedTraceIsBorn(log, n);
    }
  }

  lemma LatestAfter(log: seq<Event>, n: nat, k: Slot, o: Option<Completion>, o': Option<Completion>)
    requires n == |log| - 1 && Describes(log[..n], k, o)
    requires forall i :: 0 <= i < n ==> (CompletionFor(log, i, k) <==> CompletionFor(log[..n], i, k))
    requires CompletionFor(log, n, k) ==> o' == Some(Completion(log[n].url, log[n].at))
    requires !CompletionFor(log, n, k) ==> o' == o
    ensures Describes(log, k, o')
  {
    if CompletionFor(log, n, k) {
      assert LatestFor(log, n, k);
    } else if o.Some? {
      var i :| LatestFor(log[..n], i, k) && o.value == Completion(log[..n][i].url, log[..n][i].at);
      assert LatestFor(log, i, k);
    }
  }

  lemma {:induction false} LatestIsLatest(log: seq<Event>, k: Slot)
    requires Lawful(log)
    ensures Describes(log, k, LatestEntry(log, k))
  {
    if log != [] {
      var n := |log| - 1;
      LawfulPrefix(log, n);
      LatestIsLatest(log[..n], k);
      forall i | 0 <= i < n ensures CompletionFor(log, i, k) <==> CompletionFor(log[..n], i, k) {
        CompletionForPrefix(log, n, i, k);
      }
      LatestByLastEvent(log, n, k);
      LatestAfter(log, n, k, LatestEntry(log[..n], k), LatestEntry(log, k));
    }
  }

  lemma LatestIsUnique(log: seq<Event>, i: int, j: int, k: Slot)
    requires LatestFor(log, i, k) && LatestFor(log, j, k)
    ensures i == j
  {
  }

  /**
   * At any moment the cache of a slot is the URL of the latest completion of a task published for that
   * slot, if it is younger than the cache lifetime, and empty otherwise.
   */
  lemma CacheIsLatestCompletion(c: Config, r: Run, k: Slot)
    requires IsRun(c, r)
    ensures var m := r.Last();
      && (k in m.store.cache ==>
            exists i :: LatestFor(m.log, i, k) && m.log[i].url == m.store.cache[k].url
                        && m.store.now < m.log[i].at + c.cacheTTL)
      && (k !in m.store.cache ==>
            forall i :: LatestFor(m.log, i, k) ==> m.log[i].at + c.cacheTTL <= m.store.now)
  {
    RunsAreSafe(c, r, |r.steps|);
    var m := r.Last();
    LatestIsLatest(m.log, k);
    assert CacheLookup(m.store, k) == CacheFromHistory(c, Replay(m.log), m.store.now, k);
    if k !in m.store.cache {
      forall i | LatestFor(m.log, i, k) ensures m.log[i].at + c.cacheTTL <= m.store.now {
        assert CompletionFor(m.log, i, k);
        var j :| LatestFor(m.log, j, k) && Replay(m.log).latest[k] == Completion(m.log[j].url, m.log[j].at);
        LatestIsUnique(m.log, i, j, k);
      }
    }
  }
}
