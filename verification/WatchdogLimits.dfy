/**
 * Why a scan can miss an expiring task when it is interrupted. The watchdog reads the queue by index, one round
 * trip at a time; an entry removed ahead of its index shifts the rest down, and the scan never sees one.
 */
module WatchdogLimits {
  import opened Keys
  import opened TaskStore
  import opened History
  import opened SchedulerMachine
  import Limits = CollapseLimits

  const First := "a"
  const Second := "b"

  function Leased(slot: Slot, at: int): Task {
    Task(Processing, "n", slot, "k", false, false, 0, at)
  }

  const HomeA := Slot("u", "g")
  const HomeB := Slot("u", "h")

  /** Two tasks, fetched at time zero. */
  function TwoLeases(c: Config, now: int): Store {
    Store(now, map[First := Leased(HomeA, c.lease), Second := Leased(HomeB, c.lease)],
          map[HomeA := Sentinel(First, c.lease), HomeB := Sentinel(Second, c.lease)], map[], [First, Second])
  }

  lemma OnePublished(c: Config) returns (r: Run)
    ensures IsRun(c, r) && FreshTrace(r.Last(), Second)
    ensures r.Last().dog == Idle && r.Last().store == Publish(c, EmptyStore, First, HomeA, "k", false)
  {
    var p := DoPublish(First, HomeA, "k", false);
    ExtendIsRun(c, NoSteps, p);
    r := Extend(c, NoSteps, p);
    assert r.Last().log == [] + [TaskCreated(First, HomeA)];
    ReplayAppend([], TaskCreated(First, HomeA));
  }

  lemma BothPublished(c: Config) returns (r: Run)
    ensures IsRun(c, r) && r.Last().dog == Idle
    ensures r.Last().store == Publish(c, Publish(c, EmptyStore, First, HomeA, "k", false), Second, HomeB, "k", false)
  {
    r := OnePublished(c);
    var p := DoPublish(Second, HomeB, "k", false);
    ExtendIsRun(c, r, p);
    r := Extend(c, r, p);
  }

  lemma BothFetched(c: Config) returns (r: Run)
    ensures IsRun(c, r) && r.Last().store == TwoLeases(c, 0) && r.Last().dog == Idle
  {
    r := BothPublished(c);
    r := Limits.Fetched(c, r, First, "n");
    r := Limits.Fetched(c, r, Second, "n");
    StoreOfBoth(c);
  }

  lemma StoreOfBoth(c: Config)
    ensures var s := Publish(c, Publish(c, EmptyStore, First, HomeA, "k", false), Second, HomeB, "k", false);
      Fetch(c, Fetch(c, s, First, "n"), Second, "n") == TwoLeases(c, 0)
  {
  }

  lemma TwoLeasesLater(c: Config, k: nat)
    requires k < c.lease
    ensures Limits.Later(TwoLeases(c, 0), k) == TwoLeases(c, k)
  {
    var s, l := TwoLeases(c, k), Limits.Later(TwoLeases(c, 0), k);
    assert l.tasks == s.tasks && l.sentinels == s.sentinels && l.cache == s.cache;
  }

  /** Both leases run low at the same second. */
  lemma BothRunLow(c: Config) returns (r: Run)
    requires 4 <= c.lease
    ensures IsRun(c, r) && r.Last().dog == Idle && r.Last().store == TwoLeases(c, c.lease - c.lease / 2 + 1)
    ensures Expiring(c, r.Last().store, First) && Expiring(c, r.Last().store, Second)
  {
    r := BothFetched(c);
    TwoLeasesLater(c, 0);
    TwoLeasesLater(c, c.lease - c.lease / 2 + 1);
    r := Limits.Waiting(c, r, c.lease - c.lease / 2 + 1);
  }

  // ---- the race ----

  const Race := [DoWatchdog, DoWatchdog, DoComplete(First, "n", "x"), DoWatchdog, DoWatchdog, DoWatchdog]

  ghost function Play(c: Config, m: Machine, steps: seq<Step>): Machine {
    if steps == [] then m else Next(c, Play(c, m, steps[..|steps| - 1]), steps[|steps| - 1])
  }

  lemma PlayMore(c: Config, m: Machine, steps: seq<Step>, s: Step)
    ensures Play(c, m, steps + [s]) == Next(c, Play(c, m, steps), s)
  {
    assert (steps + [s])[..|steps|] == steps;
  }

  /** The watchdog has read the first id of two. */
  lemma FirstRead(c: Config, m: Machine)
    requires m.dog.Idle? && m.store.queue == [First, Second]
    ensures Next(c, Next(c, m, DoWatchdog), DoWatchdog) == m.(dog := Scanning(2, [First]))
  {
    assert Next(c, m, DoWatchdog) == m.(dog := Scanning(2, []));
    assert [] + [First] == [First];
  }

  /** Then the first task completes: the second moves to index 0, and index 1 is past the end. */
  lemma SecondSlipsPast(c: Config, m: Machine)
    requires m.dog == Scanning(2, [First]) && m.store.queue == [Second]
    requires StatusIs(m.store, First, Completed)
    ensures Next(c, Next(c, Next(c, m, DoWatchdog), DoWatchdog), DoWatchdog) == m.(dog := Idle)
  {
    assert Next(c, m, DoWatchdog) == m.(dog := Checking([First]));
    assert [First][1..] == [];
    assert Next(c, m.(dog := Checking([First])), DoWatchdog) == m.(dog := Checking([]));
  }

  /** The completion in between: it takes the first entry away and leaves the second task as it was. */
  lemma FirstCompletes(c: Config, m: Machine)
    requires m.store.queue == [First, Second] && CompleteReplyFor(m.store, First, "n") == CompleteOk
    requires Expiring(c, m.store, Second)
    ensures var m' := Next(c, m, DoComplete(First, "n", "x"));
      && m'.store.queue == [Second] && m'.dog == m.dog && StatusIs(m'.store, First, Completed)
      && Expiring(c, m'.store, Second) && m'.log == m.log + [TaskCompleted(First, "n", "x", m.store.now)]
  {
    assert First[0] != Second[0];
    assert [First, Second][1..] == [Second] && [Second][1..] == [];
    assert RemoveAll([Second], First) == [Second];
    assert RemoveAll([First, Second], First) == [Second];
  }

  lemma PlayThree(c: Config, m: Machine, s: Step, t: Step, u: Step)
    ensures Play(c, m, [s, t, u]) == Next(c, Next(c, Next(c, m, s), t), u)
  {
    PlayMore(c, m, [], s);
    PlayMore(c, m, [s], t);
    PlayMore(c, m, [s, t], u);
    assert [] + [s] == [s] && [s] + [t] == [s, t] && [s, t] + [u] == [s, t, u];
  }

  lemma LastApart(a: seq<Step>, b: seq<Step>)
    requires b != []
    ensures a + b == (a + b[..|b| - 1]) + [b[|b| - 1]]
  {
  }

  lemma {:induction false} PlayBoth(c: Config, m: Machine, a: seq<Step>, b: seq<Step>)
    ensures Play(c, m, a + b) == Play(c, Play(c, m, a), b)
  {
    if b == [] {
      assert a + b == a;
    } else {
      var n := |b| - 1;
      PlayBoth(c, m, a, b[..n]);
      LastApart(a, b);
      PlayMore(c, m, a + b[..n], b[n]);
    }
  }

  lemma RaceBegins(c: Config, m: Machine)
    requires m.dog.Idle? && m.store.queue == [First, Second] && CompleteReplyFor(m.store, First, "n") == CompleteOk
    requires Expiring(c, m.store, Second)
    ensures var m' := Play(c, m, Race[..3]);
      && m'.store.queue == [Second] && m'.dog == Scanning(2, [First]) && StatusIs(m'.store, First, Completed)
      && Expiring(c, m'.store, Second) && m'.log == m.log + [TaskCompleted(First, "n", "x", m.store.now)]
  {
    assert Race[..3] == [DoWatchdog, DoWatchdog, DoComplete(First, "n", "x")];
    PlayThree(c, m, DoWatchdog, DoWatchdog, DoComplete(First, "n", "x"));
    FirstRead(c, m);
    FirstCompletes(c, m.(dog := Scanning(2, [First])));
  }

  lemma RaceEnds(c: Config, m: Machine)
    requires m.dog.Idle? && m.store.queue == [First, Second] && CompleteReplyFor(m.store, First, "n") == CompleteOk
    requires Expiring(c, m.store, Second)
    ensures var m' := Play(c, m, Race);
      && m'.dog.Idle? && m'.store.queue == [Second] && Expiring(c, m'.store, Second)
      && m'.log == m.log + [TaskCompleted(First, "n", "x", m.store.now)]
  {
    RaceBegins(c, m);
    assert Race == Race[..3] + [DoWatchdog, DoWatchdog, DoWatchdog];
    PlayBoth(c, m, Race[..3], [DoWatchdog, DoWatchdog, DoWatchdog]);
    PlayThree(c, Play(c, m, Race[..3]), DoWatchdog, DoWatchdog, DoWatchdog);
    SecondSlipsPast(c, Play(c, m, Race[..3]));
  }

  lemma {:induction false} Played(c: Config, r: Run, steps: seq<Step>) returns (r': Run)
    requires IsRun(c, r)
    ensures IsRun(c, r') && r'.steps == r.steps + steps && r'.states[..|r.states|] == r.states
    ensures r'.Last() == Play(c, r.Last(), steps)
  {
    if steps == [] {
      r' := r;
    } else {
      var n := |steps| - 1;
      var before := Played(c, r, steps[..n]);
      ExtendIsRun(c, before, steps[n]);
      r' := Extend(c, before, steps[n]);
      assert steps == steps[..n] + [steps[n]];
    }
  }

  /**
   * For every lease of four seconds or more there is a run with a whole scan, idle to idle, over a queue of
   * two that never reclaims the second task, although its lease was running low all the while: a completion
   * between the two reads moved it past the index.
   */
  lemma InterruptedScanMisses(c: Config) returns (r: Run, i: nat)
    requires 4 <= c.lease
    ensures IsRun(c, r) && i < |r.steps| && r.steps[i..] == Race
    ensures r.states[i].dog == Idle && r.states[i].store.queue == [First, Second]
    ensures Expiring(c, r.states[i].store, Second)
    ensures r.Last().dog == Idle && Expiring(c, r.Last().store, Second) && r.Last().store.queue == [Second]
    ensures forall k :: |r.states[i].log| <= k < |r.Last().log| ==> !r.Last().log[k].TaskReclaimed?
  {
    var before := BothRunLow(c);
    i := |before.steps|;
    RaceEnds(c, before.Last());
    r := Played(c, before, Race);
    assert r.states[i] == r.states[..|before.states|][i];
  }
}
