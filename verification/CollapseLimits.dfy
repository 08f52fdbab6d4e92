/**
 * Why collapsing needs promptness: for every lease of two seconds or more there is a run in which
 * a request is collapsed into a task that no longer exists.
 */
module CollapseLimits {
  import opened Keys
  import opened TaskStore
  import opened History
  import opened SchedulerMachine

  const Old := "old"
  const New := "new"
  const Spot := Slot("u", "g")

  /** The store k seconds on: what is left is what outlives them. */
  function Later(s: Store, k: nat): Store {
    var now := s.now + k;
    Store(now,
          map t | t in s.tasks && TaskLasts(s.tasks[t], now) :: s.tasks[t],
          map j | j in s.sentinels && now < s.sentinels[j].expiresAt :: s.sentinels[j],
          map j | j in s.cache && now < s.cache[j].expiresAt :: s.cache[j],
          s.queue)
  }

  lemma TickOfLater(s: Store, k: nat)
    ensures Tick(Later(s, k)) == Later(s, k + 1)
  {
    assert Tick(Later(s, k)).tasks == Later(s, k + 1).tasks;
    assert Tick(Later(s, k)).sentinels == Later(s, k + 1).sentinels;
    assert Tick(Later(s, k)).cache == Later(s, k + 1).cache;
  }

  lemma Ticked(c: Config, r: Run) returns (r': Run)
    requires IsRun(c, r)
    ensures IsRun(c, r') && r'.Last() == r.Last().(store := Tick(r.Last().store))
  {
    ExtendIsRun(c, r, DoTick);
    r' := Extend(c, r, DoTick);
  }

  lemma Fetched(c: Config, r: Run, t: string, node: string) returns (r': Run)
    requires IsRun(c, r)
    ensures IsRun(c, r') && r'.Last().store == Fetch(c, r.Last().store, t, node) && r'.Last().dog == r.Last().dog
  {
    ExtendIsRun(c, r, DoFetch(t, node));
    r' := Extend(c, r, DoFetch(t, node));
  }

  lemma OneSecondMore(c: Config, m: Machine, r: Run, k: nat) returns (r': Run)
    requires IsRun(c, r) && r.Last() == m.(store := Later(m.store, k))
    ensures IsRun(c, r') && r'.Last() == m.(store := Later(m.store, k + 1))
  {
    TickOfLater(m.store, k);
    r' := Ticked(c, r);
  }

  lemma Waiting(c: Config, r: Run, k: nat) returns (r': Run)
    requires IsRun(c, r) && Later(r.Last().store, 0) == r.Last().store
    ensures IsRun(c, r') && r'.Last() == r.Last().(store := Later(r.Last().store, k))
  {
    var m := r.Last();
    r' := r;
    for i := 0 to k
      invariant IsRun(c, r') && r'.Last() == m.(store := Later(m.store, i))
    {
      r' := OneSecondMore(c, m, r', i);
    }
  }

  function FreshTask(at: int): Task {
    Task(Pending, "", Spot, "k", false, false, 0, at)
  }

  function HeldTask(at: int): Task {
    Task(Processing, "n", Spot, "k", false, false, 0, at)
  }

  /** Two leases after publication the sentinel is gone while its task still waits. */
  lemma OldTaskUnguarded(c: Config) returns (r: Run)
    ensures IsRun(c, r)
    ensures r.Last() == Machine(Store(2 * c.lease, map[Old := FreshTask(3 * c.lease)], map[], map[], [Old]),
                                [TaskCreated(Old, Spot)], Idle, 0)
  {
    var publish := DoPublish(Old, Spot, "k", false);
    ExtendIsRun(c, NoSteps, publish);
    r := Extend(c, NoSteps, publish);
    var s := r.Last().store;
    assert s == Store(0, map[Old := FreshTask(3 * c.lease)], map[Spot := Sentinel(Old, 2 * c.lease)], map[], [Old]);
    assert Later(s, 0).tasks == s.tasks && Later(s, 0).sentinels == s.sentinels && Later(s, 0).cache == s.cache;
    r := Waiting(c, r, 2 * c.lease);
    assert Later(s, 2 * c.lease).tasks == s.tasks;
    assert Later(s, 2 * c.lease).sentinels == map[];
    assert Later(s, 2 * c.lease).cache == map[];
  }

  /** So a second task of the slot is created and claimed. */
  lemma TwoLiveTasks(c: Config) returns (r: Run)
    ensures IsRun(c, r)
    ensures r.Last().store == Store(2 * c.lease, map[Old := FreshTask(3 * c.lease), New := HeldTask(3 * c.lease)],
                                    map[Spot := Sentinel(New, 3 * c.lease)], map[], [Old, New])
  {
    r := OldTaskUnguarded(c);
    var publish, fetch := DoPublish(New, Spot, "k", false), DoFetch(New, "n");
    var m := r.Last();
    assert m.log[..0] == [] && Replay(m.log).traces == map[Old := TraceInfo(Spot, Phase.Waiting, 0, 0)];
    ExtendIsRun(c, r, publish);
    r := Extend(c, r, publish);
    ExtendIsRun(c, r, fetch);
    r := Extend(c, r, fetch);
  }

  lemma LaterKeeps(c: Config, s: Store, s1: Store)
    requires s.tasks == map[Old := FreshTask(3 * c.lease), New := HeldTask(3 * c.lease)]
    requires s.sentinels == map[Spot := Sentinel(New, 3 * c.lease)] && s.cache == map[] && s.now == 2 * c.lease
    requires s1 == s.(now := 3 * c.lease - 1)
    ensures Later(s, 0) == s && Later(s, c.lease - 1) == s1
  {
    assert Later(s, 0).tasks == s.tasks && Later(s, 0).sentinels == s.sentinels && Later(s, 0).cache == s.cache;
    var l := Later(s, c.lease - 1);
    assert l.tasks == s.tasks && l.sentinels == s.sentinels && l.cache == map[];
  }

  lemma LateFetchRenews(c: Config, s: Store)
    requires 2 <= c.lease && s.now == 3 * c.lease - 1
    requires s.tasks == map[Old := FreshTask(3 * c.lease), New := HeldTask(3 * c.lease)]
    requires s.sentinels == map[Spot := Sentinel(New, 3 * c.lease)] && s.cache == map[]
    ensures var s' := Tick(Fetch(c, s, Old, "n"));
      s'.cache == map[] && Spot in s'.sentinels && s'.sentinels[Spot].trace == New && New !in s'.tasks
  {
  }

  /** Claiming the old task late renews the sentinel that names the new one, which then expires first. */
  lemma CollapseCanNameADeadTask(c: Config, newTrace: string) returns (r: Run)
    requires 2 <= c.lease
    ensures IsRun(c, r)
    ensures PublishReplyFor(r.Last().store, newTrace, Spot, false) == Collapsed(New) && New !in r.Last().store.tasks
  {
    r := TwoLiveTasks(c);
    var s, s1 := r.Last().store, r.Last().store.(now := 3 * c.lease - 1);
    LaterKeeps(c, s, s1);
    r := Waiting(c, r, c.lease - 1);
    r := Fetched(c, r, Old, "n");
    r := Ticked(c, r);
    LateFetchRenews(c, s1);
  }
}
