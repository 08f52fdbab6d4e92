/**
 * No lost wake-up. Nodes learn of a trace only from its announcement, and the creator registers before it
 * announces; so the first Notify of a trace reaches its creator, unless the creator has already left, and
 * what the creator then acts on is that first result and no other.
 */
module GalleryWakeup {
  import opened TaskStore
  import opened GalleryMachine
  import opened GalleryWaiters
  import opened GalleryTruth

  /** The request published this trace itself, and its channel exists. */
  predicate Creator(w: World, t: string) {
    t in w.requests && w.requests[t].created && w.requests[t].trace == t && Registered(w.requests[t])
  }

  ghost predicate ResultIsFirst(w: World, t: string, result: TaskResult) {
    t in w.notified && result == w.notified[t]
  }

  /** The creator of t, once its trace was notified, waits no longer, and only the first result reaches it. */
  ghost predicate CreatorAwake(w: World, t: string)
    requires t in w.requests
  {
    var r := w.requests[t];
    && (t in w.notified ==> !WaitingFor(w, t, t))
    && (r.inbox.Some? ==> ResultIsFirst(w, t, r.inbox.value))
    && (r.pc.Settling? ==> ResultIsFirst(w, t, r.pc.result) && r.pc.result.success)
    && (Ended(r.pc) && r.pc.reply.DoneReply? ==>
          t in w.notified && w.notified[t].success && w.notified[t].url == r.pc.reply.url)
    && (forall did :: CarriedBy(w, t, did) ==> ResultIsFirst(w, t, w.deliveries[did].result))
  }

  ghost predicate Announced(w: World) {
    && (forall t :: t in w.announced ==> Creator(w, t))
    && (forall t :: t in w.notified ==> Creator(w, t))
    && (forall hid :: hid in w.handlers ==> w.handlers[hid].trace in w.announced)
  }

  ghost predicate Awake(w: World) {
    && Announced(w)
    && forall t :: t in w.requests && w.requests[t].created ==> w.requests[t].trace == t && CreatorAwake(w, t)
  }

  /** Before the first Notify of its trace a request is found iff it has registered and not left. */
  lemma FirstNotifyFinds(w: World, rid: string, t: string)
    requires Wired(w) && rid in w.requests && w.requests[rid].trace == t && t !in w.notified
    ensures WaitingFor(w, rid, t) <==> Registered(w.requests[rid]) && !w.requests[rid].pc.Gone?
  {
    assert ChannelWired(w, rid);
    assert forall did :: CarriedBy(w, rid, did) ==> CargoWired(w, rid, did);
    assert WaitingFor(w, rid, t) ==> WaiterWired(w, rid, t);
  }

  // ---- steps that touch no wire of a creator ----

  lemma NothingWoken(w: World, w': World)
    requires Awake(w) && SameWires(w, w') && w'.requests == w.requests && w'.announced == w.announced
    requires forall hid :: hid in w'.handlers ==> w'.handlers[hid].trace in w.announced
    ensures Awake(w')
  {
    forall t | t in w'.requests && w'.requests[t].created ensures CreatorAwake(w', t) {
      assert CreatorAwake(w, t);
      forall did | CarriedBy(w', t, did) ensures ResultIsFirst(w', t, w'.deliveries[did].result) {
        assert CarriedBy(w, t, did);
      }
    }
  }

  /** A request moves on; if it is a creator it may only pass on the result it received. */
  ghost predicate PassesOn(w: World, rid: string, r': Request) {
    && (rid in w.requests && w.requests[rid].created ==> r'.created && r'.trace == w.requests[rid].trace)
    && (rid in w.requests && Registered(w.requests[rid]) ==> Registered(r'))
    && (rid in w.requests && w.requests[rid].created ==>
          var r := w.requests[rid];
          && (r'.inbox.Some? ==> r'.inbox == r.inbox)
          && (r'.pc.Settling? ==> r.inbox == Some(r'.pc.result) && r'.pc.result.success)
          && (Ended(r'.pc) && r'.pc.reply.DoneReply? ==>
                || (Ended(r.pc) && r'.pc.reply == r.pc.reply)
                || (r.pc.Settling? && r'.pc.reply.url == r.pc.result.url)))
    && (r'.created && !(rid in w.requests && w.requests[rid].created) ==>
          r'.trace == rid && r'.inbox.None? && r'.pc.Registering? && rid in w.requests && !Registered(w.requests[rid]))
  }

  lemma OneRequestWoken(w: World, w': World, rid: string, r': Request)
    requires Awake(w) && Wired(w) && w'.requests == w.requests[rid := r']
    requires w'.deliveries == w.deliveries && w'.notified == w.notified
    requires forall t :: t in w.notified ==> !WaitingFor(w', t, t)
    requires w'.handlers == w.handlers && w'.announced == w.announced && PassesOn(w, rid, r')
    ensures Awake(w')
  {
    forall t | t in w'.requests && w'.requests[t].created ensures w'.requests[t].trace == t && CreatorAwake(w', t) {
      if t in w.requests && w.requests[t].created {
        assert CreatorAwake(w, t);
      } else {
        assert !WaitingFor(w, t, t) by { assert WaitingFor(w, t, t) ==> WaiterWired(w, t, t); }
        assert forall did :: CarriedBy(w, t, did) ==> CargoWired(w, t, did);
      }
      forall did | CarriedBy(w', t, did) ensures ResultIsFirst(w', t, w'.deliveries[did].result) {
        assert CarriedBy(w, t, did);
      }
    }
  }

  lemma MovePassesOn(w: World, rid: string, move: Move)
    requires Enabled(w, rid, move) && IdentityTrue(w.sched.log, rid, w.requests[rid])
    ensures PassesOn(w, rid, Moved(w, rid, move))
  {
  }

  lemma NotifiedIsServed(w: World, t: string)
    requires Awake(w) && t in w.notified
    ensures Creator(w, t) && !WaitingFor(w, t, t)
  {
    assert Creator(w, t) && CreatorAwake(w, t);
  }

  /** Nobody starts to wait for a notified trace of its own. */
  lemma NoLateWaiter(w: World, rid: string, move: Move, t: string)
    requires Awake(w) && Enabled(w, rid, move) && !move.NotifyRejected? && t in w.notified
    ensures !WaitingFor(Advance(w, rid, move), t, t)
  {
    NotifiedIsServed(w, t);
    if move.Unregister? {
      assert WaitersOf(Advance(w, rid, move).waiters, t) == WaitersOf(Left(w.waiters, w.requests[rid].trace, rid), t);
      WaitersOfLeft(w.waiters, w.requests[rid].trace, rid, t);
      if t == w.requests[rid].trace { RemovedKeepsOthers(WaitersOf(w.waiters, t), rid, t); }
    }
  }

  lemma RemovedKeepsOthers(chs: seq<string>, rid: string, r: string)
    requires r !in chs
    ensures r !in RemoveFirst(chs, rid)
  {
    assert multiset(chs)[r] == 0;
    assert multiset(RemoveFirst(chs, rid))[r] == 0;
  }

  lemma NotifiedCreator(w: World, w': World, t0: string, result: TaskResult, did0: nat, t: string)
    requires Awake(w) && Wired(w) && did0 !in w.deliveries && w' == Notify(w, t0, result, did0)
    requires t in w.requests && w.requests[t].created
    ensures CreatorAwake(w', t)
  {
    assert CreatorAwake(w, t);
    forall did | CarriedBy(w', t, did) ensures ResultIsFirst(w', t, w'.deliveries[did].result) {
      if did == did0 {
        assert WaitingFor(w, t, t0) && WaiterWired(w, t, t0);
      } else {
        assert CarriedBy(w, t, did);
      }
    }
  }

  /** Taking the waiters of t: at the first Notify that includes a present creator, later it cannot. */
  lemma NotifyWakes(w: World, t0: string, result: TaskResult, did0: nat)
    requires Awake(w) && Wired(w) && did0 !in w.deliveries && Creator(w, t0)
    ensures Awake(Notify(w, t0, result, did0))
  {
    var w' := Notify(w, t0, result, did0);
    forall t | t in w'.requests && w'.requests[t].created ensures w'.requests[t].trace == t && CreatorAwake(w', t) {
      NotifiedCreator(w, w', t0, result, did0, t);
    }
  }

  lemma DeliveredOnly(w: World, did: nat, t: string, e: nat)
    requires did in w.deliveries && CarriedBy(DeliverStep(w, did), t, e)
    ensures CarriedBy(w, t, e) && DeliverStep(w, did).deliveries[e].result == w.deliveries[e].result
  {
  }

  lemma CargoOfCreator(w: World, w': World, did: nat, t: string)
    requires did in w.deliveries && w' == DeliverStep(w, did) && t in w.requests && CreatorAwake(w, t)
    ensures forall e :: CarriedBy(w', t, e) ==> ResultIsFirst(w', t, w'.deliveries[e].result)
  {
    forall e | CarriedBy(w', t, e) ensures ResultIsFirst(w', t, w'.deliveries[e].result) {
      DeliveredOnly(w, did, t, e);
    }
  }

  lemma ServedCreator(w: World, w': World, did: nat, t: string)
    requires Awake(w) && did in w.deliveries && w' == DeliverStep(w, did) && t in w.requests && w.requests[t].created
    requires w.deliveries[did].chs != [] ==> NextIsFree(w, w.deliveries[did])
    ensures t in w'.requests && w'.requests[t].trace == t && CreatorAwake(w', t)
  {
    var d := w.deliveries[did];
    assert CreatorAwake(w, t);
    assert d.chs != [] && d.chs[0] == t ==> CarriedBy(w, t, did);
    CargoOfCreator(w, w', did, t);
  }

  predicate NextIsFree(w: World, d: Delivery)
    requires d.chs != []
  {
    d.chs[0] in w.requests && w.requests[d.chs[0]].inbox.None?
  }

  lemma DeliverKeepsRest(w: World, w': World, did: nat)
    requires did in w.deliveries && w' == DeliverStep(w, did)
    requires w.deliveries[did].chs != [] ==> NextIsFree(w, w.deliveries[did])
    ensures w'.requests.Keys == w.requests.Keys
    ensures forall t :: t in w.requests ==>
      w'.requests[t] == w.requests[t].(inbox := w'.requests[t].inbox, heard := w'.requests[t].heard)
    ensures w'.announced == w.announced && w'.notified == w.notified && w'.handlers == w.handlers
  {
  }

  lemma DeliverAnnounced(w: World, w': World, did: nat)
    requires Awake(w) && did in w.deliveries && w' == DeliverStep(w, did)
    requires w.deliveries[did].chs != [] ==> NextIsFree(w, w.deliveries[did])
    ensures Announced(w')
  {
    DeliverKeepsRest(w, w', did);
    forall t | Creator(w, t) ensures Creator(w', t) {
    }
  }

  lemma DeliverWakes(w: World, did: nat)
    requires Awake(w) && Wired(w) && did in w.deliveries
    ensures Awake(DeliverStep(w, did))
  {
    var w' := DeliverStep(w, did);
    if w.deliveries[did].chs != [] { NextChannelIsFree(w, did); }
    DeliverAnnounced(w, w', did);
    forall t | t in w'.requests && w'.requests[t].created ensures w'.requests[t].trace == t && CreatorAwake(w', t) {
      DeliverKeepsRest(w, w', did);
      ServedCreator(w, w', did, t);
    }
  }

  lemma RejectedWakes(w: World, rid: string, did: nat)
    requires Awake(w) && Wired(w) && Enabled(w, rid, NotifyRejected(did)) && w.requests[rid].created
    ensures Awake(Advance(w, rid, NotifyRejected(did)))
  {
    var r' := Moved(w, rid, NotifyRejected(did));
    var w1 := w.(requests := w.requests[rid := r']);
    forall t | t in w.notified ensures !WaitingFor(w1, t, t) { NotifiedIsServed(w, t); }
    OneRequestWoken(w, w1, rid, r');
    RequestMoved(w, w1, rid, r');
    NotifyWakes(w1, w.requests[rid].trace, Failure, did);
  }

  lemma AnnouncedWakes(w: World, w': World, t: string)
    requires Awake(w) && Creator(w, t) && w' == w.(announced := w.announced + {t})
    ensures Awake(w')
  {
  }

  // ---- every step, as long as nodes report only what was announced ----

  lemma MoveKeepsHandlers(w: World, rid: string, move: Move)
    requires Enabled(w, rid, move)
    ensures Advance(w, rid, move).handlers == w.handlers
  {
  }

  lemma MoveDelivers(w: World, rid: string, move: Move)
    requires Enabled(w, rid, move) && !move.NotifyRejected?
    ensures Advance(w, rid, move).deliveries == w.deliveries
  {
  }

  lemma MoveNotifies(w: World, rid: string, move: Move)
    requires Enabled(w, rid, move) && !move.NotifyRejected?
    ensures Advance(w, rid, move).notified == w.notified
  {
  }

  lemma MoveAnnounces(w: World, rid: string, move: Move)
    requires Enabled(w, rid, move)
    ensures Advance(w, rid, move).announced ==
            if move.Announce? && move.sent then w.announced + {w.requests[rid].trace} else w.announced
  {
  }

  /** Moves other than NotifyRejected, with the announcement itself set aside. */
  lemma MoveWakes(w: World, rid: string, move: Move, w1: World)
    requires Awake(w) && Wired(w) && Enabled(w, rid, move) && !move.NotifyRejected?
    requires IdentityTrue(w.sched.log, rid, w.requests[rid])
    requires w1 == Advance(w, rid, move).(announced := w.announced)
    ensures Awake(w1)
  {
    MovePassesOn(w, rid, move);
    AdvanceParts(w, rid, move);
    MoveKeepsHandlers(w, rid, move);
    MoveDelivers(w, rid, move);
    MoveNotifies(w, rid, move);
    forall t | t in w.notified ensures !WaitingFor(w1, t, t) { NoLateWaiter(w, rid, move, t); }
    OneRequestWoken(w, w1, rid, Moved(w, rid, move));
  }

  lemma AdvanceKeepsAwake(w: World, rid: string, move: Move)
    requires Awake(w) && Wired(w) && Enabled(w, rid, move) && IdentityTrue(w.sched.log, rid, w.requests[rid])
    ensures Awake(Advance(w, rid, move))
  {
    if move.NotifyRejected? {
      RejectedWakes(w, rid, move.did);
    } else {
      var w' := Advance(w, rid, move);
      AdvanceParts(w, rid, move);
      MoveAnnounces(w, rid, move);
      MoveWakes(w, rid, move, w'.(announced := w.announced));
      if move.Announce? && move.sent { AnnouncedWakes(w'.(announced := w.announced), w', rid); }
    }
  }

  /** A node reports only traces it has seen announced. */
  predicate ReportsAnnounced(w: World, s: Step) {
    s.Report? ==> s.trace in w.announced
  }

  lemma HandlerNotifyWakes(w: World, hid: nat, did: nat)
    requires Awake(w) && Wired(w) && hid in w.handlers && w.handlers[hid].Reporting? && did !in w.deliveries
    ensures Awake(Locally(w, HandlerNotify(hid, did)))
  {
    var w1 := w.(handlers := w.handlers - {hid});
    NothingWoken(w, w1);
    NothingMoved(w, w1);
    NotifyWakes(w1, w.handlers[hid].trace, w.handlers[hid].result, did);
  }

  lemma ArrivalWakes(w: World, s: Step)
    requires Awake(w) && Wired(w) && s.Arrive?
    ensures Awake(Locally(w, s))
  {
    if MayArrive(w, s.rid) {
      forall t | t in w.notified ensures !WaitingFor(w, t, t) { NotifiedIsServed(w, t); }
      OneRequestWoken(w, Locally(w, s), s.rid, Locally(w, s).requests[s.rid]);
    }
  }

  lemma HandlersKeepTheirTrace(w: World, s: Step)
    requires Announced(w) && ReportsAnnounced(w, s)
    requires !s.Arrive? && !s.Act? && !s.Deliver? && !s.HandlerNotify?
    ensures Locally(w, s).announced == w.announced
    ensures forall hid :: hid in Locally(w, s).handlers ==> Locally(w, s).handlers[hid].trace in w.announced
  {
  }

  lemma LocallyAwake(w: World, s: Step)
    requires Awake(w) && Wired(w) && ReportsAnnounced(w, s)
    requires s.Act? && s.rid in w.requests ==> IdentityTrue(w.sched.log, s.rid, w.requests[s.rid])
    ensures Awake(Locally(w, s))
  {
    if s.Arrive? {
      ArrivalWakes(w, s);
    } else if s.Act? {
      if Enabled(w, s.rid, s.move) { AdvanceKeepsAwake(w, s.rid, s.move); }
    } else if s.Deliver? {
      if s.did in w.deliveries { DeliverWakes(w, s.did); }
    } else if s.HandlerNotify? {
      if s.hid in w.handlers && w.handlers[s.hid].Reporting? && s.did !in w.deliveries {
        HandlerNotifyWakes(w, s.hid, s.did);
      }
    } else {
      HandlersKeepTheirTrace(w, s);
      HandlersLeaveWires(w, s);
      NothingWoken(w, Locally(w, s));
    }
  }

  lemma NextKeepsAwake(c: Config, w: World, s: Step)
    requires Sound(c, w) && Awake(w) && ReportsAnnounced(w, s)
    ensures Awake(Next(c, w, s))
  {
    assert s.Act? && s.rid in w.requests ==> RequestTrue(w.sched.log, s.rid, w.requests[s.rid]);
    LocallyAwake(w, s);
    NothingWoken(Locally(w, s), Next(c, w, s));
  }

  ghost predicate ReportAt(r: Run, i: nat)
    requires i < |r.steps| && |r.states| == |r.steps| + 1
  {
    ReportsAnnounced(r.states[i], r.steps[i])
  }

  ghost predicate HonestReports(r: Run) {
    |r.states| == |r.steps| + 1 && forall i :: 0 <= i < |r.steps| ==> ReportAt(r, i)
  }

  ghost predicate SoundAndAwake(c: Config, w: World) {
    Sound(c, w) && Awake(w)
  }

  lemma {:induction false} HonestRunsAreAwake(c: Config, r: Run, n: nat)
    requires IsRun(c, r) && HonestReports(r) && n < |r.states|
    ensures SoundAndAwake(c, r.states[n])
  {
    if n == 0 {
      StartIsSound(c);
    } else {
      HonestRunsAreAwake(c, r, n - 1);
      assert StepAt(c, r, n - 1) && ReportAt(r, n - 1);
      NextKeepsSound(c, r.states[n - 1], r.steps[n - 1]);
      NextKeepsAwake(c, r.states[n - 1], r.steps[n - 1]);
    }
  }
}
