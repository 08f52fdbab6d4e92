/**
 * What a node that claims a task is told. A task's hash carries the gallery, the key and the force flag of
 * the request that created it, and the cost that this request resolved, froze and announced.
 */
module GalleryOffers {
  import opened Keys
  import opened TaskStore
  import opened GalleryMachine
  import opened GalleryTruth
  import opened GalleryMoney
  import Sched = SchedulerMachine
  import Lease = LeaseSafety

  datatype Offer = Offer(free: bool, gp: int)

  /** A hash starts out as a paid task of no cost. */
  const Unpriced := Offer(false, 0)

  /** Does this step put the cost of its request into the hash? */
  predicate Prices(w: World, s: Step, t: string) {
    s.Act? && s.rid == t && Enabled(w, t, s.move) && s.move.Cost? && s.move.ok
  }

  /** The cost last put into the hash of a trace. */
  ghost function Told(r: Run, n: nat, t: string): Offer
    requires n < |r.states| == |r.steps| + 1
  {
    if n == 0 then Unpriced else ToldNext(r.states[n - 1], r.steps[n - 1], t, Told(r, n - 1, t))
  }

  function ToldNext(w: World, s: Step, t: string, o: Offer): Offer {
    if Prices(w, s, t) then Offer(s.move.freeTier, w.requests[t].estimatedGP) else o
  }

  /** The hash says what it was told, and a hash with a status is its creator's own. */
  predicate HashTells(s: Store, requests: map<string, Request>, t: string, o: Offer) {
    && (t in s.tasks ==> s.tasks[t].freeTier == o.free && s.tasks[t].estimatedGP == o.gp)
    && (HasStatus(s, t) ==>
          && t in requests && requests[t].created && s.tasks[t].slot == SlotOf(requests[t])
          && s.tasks[t].galleryKey == requests[t].galleryKey && s.tasks[t].force == requests[t].force)
  }

  /** Setup has not come to record the cost, or has failed before it could. */
  predicate BeforeCost(pc: Pc) {
    match pc
    case Publishing => true
    case Unpublished => true
    case Hit(_) => true
    case Registering => true
    case Resolving => true
    case Freezing => true
    case Costing => true
    case Rejecting(e) => !e.NoNodes?
    case Notifying(e) => !e.NoNodes?
    case Repaying(e) => !e.NoNodes?
    case _ => false
  }

  /** The task is about to be announced, or has been, and its creator waits. */
  predicate Offered(r: Request) {
    r.pc.Announcing? || (r.created && r.pc.Awaiting?)
  }

  /** What was told is the request's own estimate, told when its setup says so and not before. */
  predicate ToldFits(requests: map<string, Request>, t: string, o: Offer) {
    if t !in requests then o == Unpriced
    else
      var r := requests[t];
      && (BeforeCost(r.pc) ==> o == Unpriced)
      && (o == Unpriced || o.gp == r.estimatedGP)
      && (Offered(r) ==> o.gp == r.estimatedGP)
  }

  predicate OfferTrue(w: World, t: string, o: Offer) {
    HashTells(w.sched.store, w.requests, t, o) && ToldFits(w.requests, t, o)
  }

  // ---- scripts that leave the offer alone ----

  predicate SameOffer(s: Store, s': Store, t: string) {
    && (t in s'.tasks ==>
          t in s.tasks && s'.tasks[t].freeTier == s.tasks[t].freeTier
          && s'.tasks[t].estimatedGP == s.tasks[t].estimatedGP)
    && (HasStatus(s', t) ==>
          HasStatus(s, t) && s'.tasks[t].slot == s.tasks[t].slot && s'.tasks[t].galleryKey == s.tasks[t].galleryKey
          && s'.tasks[t].force == s.tasks[t].force)
  }

  lemma WatchdogKeepsOffer(c: Config, m: Sched.Machine, t: string)
    ensures SameOffer(m.store, Sched.WatchdogStep(c, m).store, t)
  {
  }

  lemma {:induction false} RunToIdleKeepsOffer(c: Config, m: Sched.Machine, t: string)
    ensures SameOffer(m.store, Sched.RunToIdle(c, m).store, t)
    decreases Sched.Remaining(m.dog)
  {
    if !m.dog.Idle? {
      WatchdogKeepsOffer(c, m, t);
      Lease.WatchdogProgress(c, m);
      RunToIdleKeepsOffer(c, Sched.WatchdogStep(c, m), t);
    }
  }

  lemma CallKeepsOffer(c: Config, m: Sched.Machine, s: Sched.Step, t: string)
    requires s.DoFetch? || s.DoComplete? || s.DoFail? || s.DoTick?
    ensures SameOffer(m.store, Sched.Next(c, m, s).store, t)
  {
    match s
    case DoFetch(u, node) => FetchKeepsOffer(c, m.store, u, node, t);
    case DoComplete(u, node, url) => CompleteKeepsOffer(c, m.store, u, node, url, t);
    case DoFail(u, node, mode) => FinalizeKeepsOffer(m.store, u, node, mode, t);
    case DoTick => TickKeepsOffer(m.store, t);
  }

  lemma FetchKeepsOffer(c: Config, s: Store, u: string, node: string, t: string)
    ensures SameOffer(s, Fetch(c, s, u, node), t)
  {
  }

  lemma CompleteKeepsOffer(c: Config, s: Store, u: string, node: string, url: string, t: string)
    ensures SameOffer(s, Complete(c, s, u, node, url), t)
  {
  }

  lemma FinalizeKeepsOffer(s: Store, u: string, node: string, mode: FailMode, t: string)
    ensures SameOffer(s, Finalize(s, u, node, mode), t)
  {
  }

  lemma TickKeepsOffer(s: Store, t: string)
    ensures SameOffer(s, Tick(s), t)
  {
  }

  lemma ScriptKeepsOffer(c: Config, m: Sched.Machine, s: Sched.Step, t: string)
    requires !s.DoPublish? && !s.DoUpdateCost?
    ensures SameOffer(m.store, Sched.Next(c, m, s).store, t)
  {
    if !s.DoWatchdog? && !s.DoPass? { CallKeepsOffer(c, m, s, t); }
    if s.DoWatchdog? {
      WatchdogKeepsOffer(c, m, t);
    } else if s.DoPass? {
      if m.dog.Idle? {
        WatchdogKeepsOffer(c, m, t);
        RunToIdleKeepsOffer(c, Sched.WatchdogStep(c, m), t);
      }
    }
  }

  // ---- one request ----

  predicate SameCreator(before: map<string, Request>, after: map<string, Request>, t: string) {
    t in before ==>
      && t in after && (before[t].created ==> after[t].created) && SlotOf(after[t]) == SlotOf(before[t])
      && after[t].galleryKey == before[t].galleryKey && after[t].force == before[t].force
  }

  lemma MovedIsSame(w: World, t: string, move: Move)
    requires Enabled(w, t, move)
    ensures var r, r' := w.requests[t], Moved(w, t, move);
      SlotOf(r') == SlotOf(r) && r'.galleryKey == r.galleryKey && r'.force == r.force
  {
  }

  lemma StepKeepsCreator(w: World, s: Step, t: string)
    ensures SameCreator(w.requests, Locally(w, s).requests, t)
  {
    if s.Act? && s.rid == t {
      if Enabled(w, t, s.move) {
        AdvanceParts(w, t, s.move);
        MovedIsSame(w, t, s.move);
      }
    } else {
      OthersLeaveRequest(w, s, t);
    }
  }

  /** Where setup is, and the estimate, after a move that prices nothing. */
  lemma MovedFits(w: World, t: string, move: Move, o: Offer)
    requires Enabled(w, t, move) && ToldFits(w.requests, t, o) && !(move.Cost? && move.ok)
    ensures ToldFits(w.requests[t := Moved(w, t, move)], t, o)
  {
  }

  lemma PricedFits(w: World, t: string, move: Move)
    requires Enabled(w, t, move) && move.Cost? && move.ok
    ensures ToldFits(w.requests[t := Moved(w, t, move)], t, Offer(move.freeTier, w.requests[t].estimatedGP))
  {
  }

  lemma StepFits(w: World, s: Step, t: string, o: Offer)
    requires ToldFits(w.requests, t, o)
    ensures ToldFits(Locally(w, s).requests, t, ToldNext(w, s, t, o))
  {
    if s.Act? && s.rid == t {
      if Enabled(w, t, s.move) {
        AdvanceParts(w, t, s.move);
        if s.move.Cost? && s.move.ok { PricedFits(w, t, s.move); } else { MovedFits(w, t, s.move, o); }
      }
    } else {
      OthersLeaveRequest(w, s, t);
    }
  }

  // ---- one hash ----

  lemma TellsOn(s: Store, s': Store, before: map<string, Request>, after: map<string, Request>, t: string, o: Offer)
    requires HashTells(s, before, t, o) && SameOffer(s, s', t) && SameCreator(before, after, t)
    ensures HashTells(s', after, t, o)
  {
  }

  /** The script that a request's move runs, and on which trace. */
  lemma ScriptIsOwn(c: Config, w: World, rid: string, move: Move)
    requires Right(c, w) && Enabled(w, rid, move)
    ensures var script := ScriptOfMove(w, rid, move); var r := w.requests[rid];
      && (script.Some? && script.value.DoPublish? ==>
            r.pc.Publishing? && Moved(w, rid, move).created
            && script.value == Sched.DoPublish(rid, SlotOf(r), r.galleryKey, r.force))
      && (script.Some? && script.value.DoUpdateCost? <==> move.Cost? && move.ok)
      && (move.Cost? && move.ok ==> script.value == Sched.DoUpdateCost(rid, move.freeTier, r.estimatedGP))
  {
    RightSees(c, w, rid);
  }

  lemma PublishTells(c: Config, m: Sched.Machine, before: map<string, Request>, after: map<string, Request>,
                     u: string, k: Slot, gk: string, force: bool, t: string, o: Offer)
    requires HashTells(m.store, before, t, o) && SameCreator(before, after, t)
    requires u == t ==> o == Unpriced && t in after && after[t].created
                        && SlotOf(after[t]) == k && after[t].galleryKey == gk && after[t].force == force
    ensures HashTells(Sched.Next(c, m, Sched.DoPublish(u, k, gk, force)).store, after, t, o)
  {
  }

  lemma CostTells(c: Config, m: Sched.Machine, before: map<string, Request>, after: map<string, Request>,
                  u: string, free: bool, gp: int, t: string, o: Offer)
    requires HashTells(m.store, before, t, o) && SameCreator(before, after, t) && (u == t ==> Sched.Born(m, t))
    ensures HashTells(Sched.Next(c, m, Sched.DoUpdateCost(u, free, gp)).store, after, t,
                      if u == t then Offer(free, gp) else o)
  {
  }

  /** A request that records a cost has published its trace. */
  lemma CostingIsBorn(c: Config, w: World, rid: string)
    requires Right(c, w) && rid in w.requests && w.requests[rid].pc.Costing?
    ensures Sched.Born(w.sched, rid)
  {
    RightSees(c, w, rid);
  }

  /** What a script may do to the hash of t, and to what it tells. */
  ghost predicate Bearable(m: Sched.Machine, after: map<string, Request>, script: Option<Sched.Step>, t: string,
                           o: Offer, o': Offer) {
    if script.None? then o' == o
    else match script.value
      case DoPublish(u, k, gk, force) =>
        && o' == o
        && (u == t ==> o == Unpriced && t in after && after[t].created
                       && SlotOf(after[t]) == k && after[t].galleryKey == gk && after[t].force == force)
      case DoUpdateCost(u, free, gp) => if u == t then Sched.Born(m, t) && o' == Offer(free, gp) else o' == o
      case _ => o' == o
  }

  lemma ScriptTells(c: Config, m: Sched.Machine, before: map<string, Request>, after: map<string, Request>,
                    script: Option<Sched.Step>, t: string, o: Offer, o': Offer)
    requires HashTells(m.store, before, t, o) && SameCreator(before, after, t)
    requires Bearable(m, after, script, t, o, o')
    ensures HashTells(SchedAfter(c, m, script).store, after, t, o')
  {
    if script.None? {
      TellsOn(m.store, m.store, before, after, t, o);
    } else {
      match script.value
      case DoPublish(u, k, gk, force) => PublishTells(c, m, before, after, u, k, gk, force, t, o);
      case DoUpdateCost(u, free, gp) => CostTells(c, m, before, after, u, free, gp, t, o);
      case _ =>
        ScriptKeepsOffer(c, m, script.value, t);
        TellsOn(m.store, Sched.Next(c, m, script.value).store, before, after, t, o);
    }
  }

  lemma MoveIsBearable(c: Config, w: World, rid: string, move: Move, t: string, o: Offer)
    requires Right(c, w) && ToldFits(w.requests, t, o) && Enabled(w, rid, move)
    ensures Bearable(w.sched, w.requests[rid := Moved(w, rid, move)], ScriptOfMove(w, rid, move), t,
                     o, ToldNext(w, Act(rid, move), t, o))
  {
    ScriptIsOwn(c, w, rid, move);
    MovedIsSame(w, rid, move);
    if move.Cost? { CostingIsBorn(c, w, rid); }
  }

  lemma ActTells(c: Config, w: World, rid: string, move: Move, t: string, o: Offer)
    requires Right(c, w) && OfferTrue(w, t, o) && Enabled(w, rid, move)
    ensures HashTells(SchedAfter(c, w.sched, ScriptOfMove(w, rid, move)).store, Advance(w, rid, move).requests, t,
                      ToldNext(w, Act(rid, move), t, o))
  {
    StepKeepsCreator(w, Act(rid, move), t);
    AdvanceParts(w, rid, move);
    MoveIsBearable(c, w, rid, move, t, o);
    ScriptTells(c, w.sched, w.requests, Advance(w, rid, move).requests, ScriptOfMove(w, rid, move), t,
                o, ToldNext(w, Act(rid, move), t, o));
  }

  lemma OtherTells(c: Config, w: World, s: Step, t: string, o: Offer)
    requires OfferTrue(w, t, o) && (s.Act? ==> !Enabled(w, s.rid, s.move))
    ensures HashTells(Next(c, w, s).sched.store, Locally(w, s).requests, t, o)
  {
    StepKeepsCreator(w, s, t);
    var script := ScriptOf(w, s);
    if script.Some? { ScriptKeepsOffer(c, w.sched, script.value, t); }
    TellsOn(w.sched.store, Next(c, w, s).sched.store, w.requests, Locally(w, s).requests, t, o);
  }

  lemma NextKeepsOffer(c: Config, w: World, s: Step, t: string, o: Offer)
    requires Right(c, w) && OfferTrue(w, t, o)
    ensures OfferTrue(Next(c, w, s), t, ToldNext(w, s, t, o))
  {
    StepFits(w, s, t, o);
    if s.Act? && Enabled(w, s.rid, s.move) { ActTells(c, w, s.rid, s.move, t, o); } else { OtherTells(c, w, s, t, o); }
  }

  // ---- every run ----

  ghost predicate OfferAt(r: Run, n: nat, t: string)
    requires n < |r.states| == |r.steps| + 1
  {
    forall o {:trigger OfferTrue(r.states[n], t, o)} :: o == Told(r, n, t) ==> OfferTrue(r.states[n], t, o)
  }

  /**
   * In every state of every run, a hash tells the cost that the creator of its trace recorded, which is its
   * own estimate, recorded before it announced the task; and while it has a status it tells the creator's
   * user, gallery, key and force flag.
   */
  lemma {:induction false} OffersAreTrue(c: Config, r: Run, n: nat, t: string)
    requires IsRun(c, r) && n < |r.states|
    ensures OfferAt(r, n, t)
    decreases n
  {
    if n > 0 {
      OffersAreTrue(c, r, n - 1, t);
      OfferStep(c, r, n, t, Told(r, n - 1, t));
    }
  }

  lemma OfferStep(c: Config, r: Run, n: nat, t: string, o: Offer)
    requires IsRun(c, r) && 0 < n < |r.states| && OfferTrue(r.states[n - 1], t, o)
    ensures OfferTrue(r.states[n], t, ToldNext(r.states[n - 1], r.steps[n - 1], t, o))
  {
    RunsAreRight(c, r, n - 1);
    assert StepAt(c, r, n - 1);
    NextKeepsOffer(c, r.states[n - 1], r.steps[n - 1], t, o);
  }

  /** So the gallery a claim is answered with, and the cost announced for it, are those of the creator. */
  lemma ClaimsGetTheCreatorsGallery(c: Config, r: Run, t: string)
    requires IsRun(c, r) && HasStatus(r.Last().sched.store, t)
    ensures var w := r.Last(); var task := w.sched.store.tasks[t];
      && t in w.requests && w.requests[t].created
      && task.slot == Slot(w.requests[t].user, w.requests[t].gallery)
      && task.galleryKey == w.requests[t].galleryKey && task.force == w.requests[t].force
      && (Offered(w.requests[t]) ==> task.estimatedGP == w.requests[t].estimatedGP)
      && (task.estimatedGP == 0 || task.estimatedGP == w.requests[t].estimatedGP)
  {
    OffersAreTrue(c, r, |r.steps|, t);
    assert OfferTrue(r.Last(), t, Told(r, |r.steps|, t));
  }
}
