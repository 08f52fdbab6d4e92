/**
 * When publishing answers from the cache, told from the log and the requests. A request is answered at once
 * iff it does not force a new task and the latest completion of its slot is younger than the cache lifetime;
 * such a request starts nothing and pays nothing.
 */
module GalleryCache {
  import opened Keys
  import opened TaskStore
  import opened History
  import opened Ledger
  import opened SchedulerTheorems
  import opened GalleryMachine
  import opened GalleryMoney
  import opened GalleryAccounts
  import Theorems = GalleryTheorems
  import Sched = SchedulerMachine

  /** The latest completion of the slot is this index of the log, and is younger than the cache lifetime. */
  ghost predicate FreshAt(c: Config, w: World, k: Slot, i: int) {
    LatestFor(w.sched.log, i, k) && w.sched.store.now < w.sched.log[i].at + c.cacheTTL
  }

  ghost predicate Fresh(c: Config, w: World, k: Slot, url: string) {
    exists i :: FreshAt(c, w, k, i) && w.sched.log[i].url == url
  }

  /** GET on the slot's cache key answers with the latest completion while it is fresh. */
  lemma CacheIsFresh(c: Config, r: Run, k: Slot)
    requires IsRun(c, r)
    ensures var w := r.Last();
      forall url :: k in w.sched.store.cache && w.sched.store.cache[k].url == url <==> Fresh(c, w, k, url)
  {
    var w := r.Last();
    var p := Theorems.ServerRunIsSchedulerRun(c, r, |r.steps|);
    CacheIsLatestCompletion(c, p, k);
    forall url ensures k in w.sched.store.cache && w.sched.store.cache[k].url == url <==> Fresh(c, w, k, url) {
      if k in w.sched.store.cache {
        var i :| LatestFor(w.sched.log, i, k) && w.sched.log[i].url == w.sched.store.cache[k].url
                 && w.sched.store.now < w.sched.log[i].at + c.cacheTTL;
        assert FreshAt(c, w, k, i);
        if j :| FreshAt(c, w, k, j) && w.sched.log[j].url == url { LatestIsUnique(w.sched.log, i, j, k); }
      }
    }
  }

  /** What publishing makes of a request that is not answered at once: it creates iff the slot has no sentinel. */
  ghost predicate Published(w: World, w': World, rid: string)
    requires rid in w.requests
  {
    var q, s := w.requests[rid], w.sched.store;
    && rid in w'.requests && w'.requests[rid].pc == Registering
    && if SlotOf(q) !in s.sentinels
       then w'.requests[rid] == q.(pc := Registering, trace := rid, created := true)
            && w'.sched.log == w.sched.log + [TaskCreated(rid, SlotOf(q))]
       else w'.requests[rid] == q.(pc := Registering, trace := s.sentinels[SlotOf(q)].trace) && w'.sched == w.sched
  }

  /**
   * In every run, a request that publishes is answered at once with a URL iff it does not force and that is
   * the fresh URL of its slot, and then nothing changes in Redis; otherwise it creates or collapses.
   */
  lemma PublishHitsIff(c: Config, r: Run, rid: string)
    requires IsRun(c, r) && Enabled(r.Last(), rid, Publish)
    ensures var w, w' := r.Last(), Next(c, r.Last(), Act(rid, Publish)); var q := w.requests[rid];
      && rid in w'.requests
      && (forall url :: w'.requests[rid].pc == Hit(url) <==> !q.force && Fresh(c, w, SlotOf(q), url))
      && (if w'.requests[rid].pc.Hit? then w'.sched == w.sched else Published(w, w', rid))
  {
    CacheIsFresh(c, r, SlotOf(r.Last().requests[rid]));
    PublisherIsFresh(c, r, rid);
    PublishStepIs(c, r.Last(), rid);
  }

  lemma PublisherIsFresh(c: Config, r: Run, rid: string)
    requires IsRun(c, r) && Enabled(r.Last(), rid, Publish)
    ensures Sched.FreshTrace(r.Last().sched, rid) && !r.Last().requests[rid].created
  {
    RunsAreRight(c, r, |r.steps|);
    RightSees(c, r.Last(), rid);
  }

  /** One publish, told by the cache and the sentinels. */
  lemma PublishStepIs(c: Config, w: World, rid: string)
    requires Enabled(w, rid, Publish) && Sched.FreshTrace(w.sched, rid) && !w.requests[rid].created
    ensures var w', q := Next(c, w, Act(rid, Publish)), w.requests[rid]; var k := SlotOf(q);
      && rid in w'.requests
      && (w'.requests[rid].pc.Hit? <==> !q.force && k in w.sched.store.cache)
      && if w'.requests[rid].pc.Hit? then w'.requests[rid].pc.url == w.sched.store.cache[k].url && w'.sched == w.sched
         else Published(w, w', rid)
  {
    AdvanceParts(w, rid, Publish);
  }

  // ---- forced requests ----

  ghost predicate NoForcedHit(w: World) {
    forall rid :: rid in w.requests && w.requests[rid].force ==> !w.requests[rid].pc.Hit?
  }

  lemma NextKeepsNoForcedHit(c: Config, w: World, s: Step)
    requires NoForcedHit(w)
    ensures NoForcedHit(Next(c, w, s))
  {
    if s.Act? {
      if Enabled(w, s.rid, s.move) { MoveKeepsNoForcedHit(w, s.rid, s.move); }
    } else {
      forall rid | rid in Next(c, w, s).requests && Next(c, w, s).requests[rid].force
        ensures !Next(c, w, s).requests[rid].pc.Hit?
      {
        OthersLeaveRequest(w, s, rid);
      }
    }
  }

  lemma MoveKeepsNoForcedHit(w: World, rid: string, move: Move)
    requires NoForcedHit(w) && Enabled(w, rid, move)
    ensures NoForcedHit(Advance(w, rid, move))
  {
    AdvanceParts(w, rid, move);
  }

  /** A forced request is never answered from the cache. */
  lemma {:induction false} ForcedIsNeverHit(c: Config, r: Run, n: nat)
    requires IsRun(c, r) && n < |r.states|
    ensures NoForcedHit(r.states[n])
  {
    if n > 0 {
      ForcedIsNeverHit(c, r, n - 1);
      assert StepAt(c, r, n - 1);
      NextKeepsNoForcedHit(c, r.states[n - 1], r.steps[n - 1]);
    }
  }

  // ---- what a hit costs ----

  /** A request that did not create its task, hit or collapsed, leaves no line in the ledger. */
  lemma OnlyCreatorsPay(c: Config, r: Run, rid: string)
    requires IsRun(c, r) && rid in r.Last().requests
    ensures !r.Last().requests[rid].created ==> LinesOf(r.Last().books.txs, rid) == []
    ensures r.Last().requests[rid].pc.Hit? ==> !r.Last().requests[rid].created
  {
    RunsAreRight(c, r, |r.steps|);
    RightSees(c, r.Last(), rid);
    RunsKeepLines(c, r, |r.steps|, rid);
  }

  ghost predicate HitWith(w: World, rid: string, url: string) {
    rid in w.requests && w.requests[rid].pc == Hit(url)
  }

  lemma NextKeepsHit(c: Config, w: World, s: Step, rid: string, url: string)
    requires HitWith(w, rid, url)
    ensures HitWith(Next(c, w, s), rid, url)
  {
    if s.Act? {
      if Enabled(w, s.rid, s.move) { AdvanceParts(w, s.rid, s.move); }
    } else {
      OthersLeaveRequest(w, s, rid);
    }
  }

  lemma {:induction false} HitStays(c: Config, r: Run, n: nat, k: nat, rid: string, url: string)
    requires IsRun(c, r) && n <= k < |r.states| && HitWith(r.states[n], rid, url)
    ensures HitWith(r.states[k], rid, url)
  {
    if n < k {
      HitStays(c, r, n, k - 1, rid, url);
      assert StepAt(c, r, k - 1);
      NextKeepsHit(c, r.states[k - 1], r.steps[k - 1], rid, url);
    }
  }

  /** The first n steps of a run. */
  function Before(r: Run, n: nat): Run
    requires n <= |r.steps| && |r.states| == |r.steps| + 1
  {
    Run(r.states[..n + 1], r.steps[..n])
  }

  lemma BeforeIsRun(c: Config, r: Run, n: nat)
    requires IsRun(c, r) && n <= |r.steps|
    ensures IsRun(c, Before(r, n)) && Before(r, n).Last() == r.states[n]
  {
    var b := Before(r, n);
    forall i | 0 <= i < |b.steps| ensures StepAt(c, b, i) { assert StepAt(c, r, i); }
  }

  /**
   * A repeat is free: a request that publishes unforced while its slot's latest completion is fresh is
   * answered with that completion's URL for good, and never has a line in the ledger.
   */
  lemma FreshRepeatIsFree(c: Config, r: Run, i: nat, rid: string, url: string)
    requires IsRun(c, r) && i < |r.steps| && r.steps[i] == Act(rid, Publish) && Enabled(r.states[i], rid, Publish)
    requires !r.states[i].requests[rid].force && Fresh(c, r.states[i], SlotOf(r.states[i].requests[rid]), url)
    ensures HitWith(r.Last(), rid, url) && LinesOf(r.Last().books.txs, rid) == []
  {
    BeforeIsRun(c, r, i);
    assert StepAt(c, r, i);
    PublishHitsIff(c, Before(r, i), rid);
    HitStays(c, r, i + 1, |r.steps|, rid, url);
    OnlyCreatorsPay(c, r, rid);
  }
}
