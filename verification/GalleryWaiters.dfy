/**
 * Where each request's channel is: registered under its own trace, in exactly one delivery, or served.
 * No channel is ever sent to twice, so the default branch of Notify's select is dead code, and a request
 * that still waits unserved can always be reached.
 */
module GalleryWaiters {
  import opened TaskStore
  import opened GalleryMachine

  /** Past Register: the request's channel exists and its deferred Unregister is pending or done. */
  predicate Registered(r: Request) {
    !r.pc.Publishing? && !r.pc.Unpublished? && !r.pc.Hit? && !r.pc.Registering?
  }

  predicate Unserved(requests: map<string, Request>, rid: string, t: string) {
    rid in requests && Registered(requests[rid]) && requests[rid].trace == t && requests[rid].heard == 0
  }

  ghost predicate WaitingFor(w: World, rid: string, t: string) {
    rid in WaitersOf(w.waiters, t)
  }

  ghost predicate CarriedBy(w: World, rid: string, did: nat) {
    did in w.deliveries && rid in w.deliveries[did].chs
  }

  ghost predicate WaiterWired(w: World, rid: string, t: string) {
    && Unserved(w.requests, rid, t) && !w.requests[rid].pc.Gone?
    && multiset(WaitersOf(w.waiters, t))[rid] == 1
    && forall did :: !CarriedBy(w, rid, did)
  }

  ghost predicate CargoWired(w: World, rid: string, did: nat)
    requires did in w.deliveries
  {
    && Unserved(w.requests, rid, w.deliveries[did].trace)
    && multiset(w.deliveries[did].chs)[rid] == 1
    && forall other :: CarriedBy(w, rid, other) ==> other == did
  }

  ghost predicate ChannelWired(w: World, rid: string)
    requires rid in w.requests
  {
    var r := w.requests[rid];
    && r.heard <= 1
    && (r.inbox.Some? ==> r.heard == 1)
    && (r.heard == 1 ==> Registered(r) && r.trace in w.notified)
    && (Registered(r) && !r.pc.Gone? && r.heard == 0 ==>
          WaitingFor(w, rid, r.trace) || exists did :: CarriedBy(w, rid, did))
  }

  ghost predicate Wired(w: World) {
    && (forall rid, t :: WaitingFor(w, rid, t) ==> WaiterWired(w, rid, t))
    && (forall rid, did :: CarriedBy(w, rid, did) ==> CargoWired(w, rid, did))
    && (forall rid :: rid in w.requests ==> ChannelWired(w, rid))
    && (forall did :: did in w.deliveries ==> w.deliveries[did].trace in w.notified)
    && w.drops == 0
  }

  // ---- steps that leave every channel where it is ----

  ghost predicate SameWires(w: World, w': World) {
    w'.waiters == w.waiters && w'.deliveries == w.deliveries && w'.notified == w.notified && w'.drops == w.drops
  }

  lemma NothingMoved(w: World, w': World)
    requires Wired(w) && SameWires(w, w') && w'.requests == w.requests
    ensures Wired(w')
  {
    forall rid, t | WaitingFor(w', rid, t) ensures WaiterWired(w', rid, t) {
      assert WaitingFor(w, rid, t);
      forall did ensures !CarriedBy(w', rid, did) { assert !CarriedBy(w, rid, did); }
    }
    forall rid, did | CarriedBy(w', rid, did) ensures CargoWired(w', rid, did) {
      assert CarriedBy(w, rid, did);
      forall other | CarriedBy(w', rid, other) ensures other == did { assert CarriedBy(w, rid, other); }
    }
    forall rid | rid in w'.requests ensures ChannelWired(w', rid) {
      assert ChannelWired(w, rid);
      if did :| CarriedBy(w, rid, did) { assert CarriedBy(w', rid, did); }
    }
  }

  /** A request moves on without touching its channel, except perhaps to receive from it. */
  ghost predicate ChannelKept(w: World, rid: string, r': Request) {
    if rid in w.requests && Registered(w.requests[rid])
    then
      var r := w.requests[rid];
      && !r.pc.Gone? && Registered(r') && !r'.pc.Gone? && r'.trace == r.trace && r'.heard == r.heard
      && (r'.inbox == r.inbox || r'.inbox == None)
    else !Registered(r') && r'.heard == 0 && r'.inbox == None
  }

  lemma RequestMoved(w: World, w': World, rid: string, r': Request)
    requires Wired(w) && SameWires(w, w') && w'.requests == w.requests[rid := r'] && ChannelKept(w, rid, r')
    ensures Wired(w')
  {
    forall r, t | WaitingFor(w', r, t) ensures WaiterWired(w', r, t) {
      assert WaitingFor(w, r, t);
      forall did ensures !CarriedBy(w', r, did) { assert !CarriedBy(w, r, did); }
    }
    forall r, did | CarriedBy(w', r, did) ensures CargoWired(w', r, did) {
      assert CarriedBy(w, r, did);
      forall other | CarriedBy(w', r, other) ensures other == did { assert CarriedBy(w, r, other); }
    }
    forall r | r in w'.requests ensures ChannelWired(w', r) {
      if r in w.requests {
        assert ChannelWired(w, r);
        if did :| CarriedBy(w, r, did) { assert CarriedBy(w', r, did); }
      }
    }
  }

  lemma RegisterWires(w: World, rid: string)
    requires Wired(w) && Enabled(w, rid, Register)
    ensures Wired(Advance(w, rid, Register))
  {
    var w', t0 := Advance(w, rid, Register), w.requests[rid].trace;
    assert !WaitingFor(w, rid, t0);
    forall r, t | WaitingFor(w', r, t) ensures WaiterWired(w', r, t) {
      assert r != rid || t != t0 ==> WaitingFor(w, r, t);
      forall did ensures !CarriedBy(w', r, did) { assert CarriedBy(w', r, did) ==> CarriedBy(w, r, did); }
    }
    forall r, did | CarriedBy(w', r, did) ensures CargoWired(w', r, did) {
      assert CarriedBy(w, r, did);
      forall other | CarriedBy(w', r, other) ensures other == did { assert CarriedBy(w, r, other); }
    }
    forall r | r in w'.requests ensures ChannelWired(w', r) {
      assert ChannelWired(w, r);
      assert WaitingFor(w', rid, t0);
      assert WaitingFor(w, r, w.requests[r].trace) ==> WaitingFor(w', r, w.requests[r].trace);
      if did :| CarriedBy(w, r, did) { assert CarriedBy(w', r, did); }
    }
  }

  lemma RemovedOnce(chs: seq<string>, rid: string)
    requires multiset(chs)[rid] <= 1
    ensures rid !in RemoveFirst(chs, rid)
    ensures forall r :: r != rid ==> multiset(RemoveFirst(chs, rid))[r] == multiset(chs)[r]
    ensures forall r :: r != rid ==> (r in RemoveFirst(chs, rid) <==> r in chs)
  {
    var rest := RemoveFirst(chs, rid);
    assert multiset(rest)[rid] == 0;
    forall r | r != rid ensures r in rest <==> r in chs {
      assert multiset(rest)[r] == multiset(chs)[r];
    }
  }

  lemma WaitersOfLeft(waiters: map<string, seq<string>>, t0: string, rid: string, t: string)
    ensures WaitersOf(Left(waiters, t0, rid), t) ==
            if t == t0 then RemoveFirst(WaitersOf(waiters, t0), rid) else WaitersOf(waiters, t)
  {
  }

  /** Everyone but the leaver waits as before. */
  lemma LeftExactly(waiters: map<string, seq<string>>, t0: string, rid: string, t: string, r: string)
    requires multiset(WaitersOf(waiters, t0))[rid] <= 1
    ensures var before, after := WaitersOf(waiters, t), WaitersOf(Left(waiters, t0, rid), t);
      && (r in after <==> r in before && !(r == rid && t == t0))
      && (r != rid ==> multiset(after)[r] == multiset(before)[r])
  {
    WaitersOfLeft(waiters, t0, rid, t);
    if t == t0 { RemovedOnce(WaitersOf(waiters, t0), rid); }
  }

  lemma LeftFor(w: World, w': World, rid: string, t0: string, r: string, t: string)
    requires multiset(WaitersOf(w.waiters, t0))[rid] <= 1 && w'.waiters == Left(w.waiters, t0, rid)
    requires WaitingFor(w, rid, t) ==> t == t0
    requires WaitingFor(w, r, t) ==> multiset(WaitersOf(w.waiters, t))[r] == 1
    ensures WaitingFor(w', r, t) <==> WaitingFor(w, r, t) && r != rid
    ensures WaitingFor(w', r, t) ==> multiset(WaitersOf(w'.waiters, t))[r] == 1
  {
    LeftExactly(w.waiters, t0, rid, t, r);
  }

  lemma LeaverRemoved(w: World, w': World, rid: string, t0: string)
    requires Wired(w) && w'.waiters == Left(w.waiters, t0, rid)
    requires forall t :: WaitingFor(w, rid, t) ==> t == t0
    ensures forall r, t :: WaitingFor(w', r, t) <==> WaitingFor(w, r, t) && r != rid
    ensures forall r, t :: WaitingFor(w', r, t) ==> multiset(WaitersOf(w'.waiters, t))[r] == 1
  {
    assert multiset(WaitersOf(w.waiters, t0))[rid] <= 1 by {
      assert rid in WaitersOf(w.waiters, t0) ==> WaitingFor(w, rid, t0);
    }
    forall r, t ensures WaitingFor(w', r, t) <==> WaitingFor(w, r, t) && r != rid
                ensures WaitingFor(w', r, t) ==> multiset(WaitersOf(w'.waiters, t))[r] == 1 {
      assert WaitingFor(w, rid, t) ==> t == t0;
      assert WaitingFor(w, r, t) ==> multiset(WaitersOf(w.waiters, t))[r] == 1 by {
        if WaitingFor(w, r, t) { assert WaiterWired(w, r, t); }
      }
      LeftFor(w, w', rid, t0, r, t);
    }
  }

  lemma CargoStays(w: World, w': World)
    requires Wired(w) && w'.deliveries == w.deliveries
    requires forall rid, t :: Unserved(w.requests, rid, t) ==> Unserved(w'.requests, rid, t)
    ensures forall rid, did :: CarriedBy(w', rid, did) ==> CargoWired(w', rid, did)
  {
    forall rid, did | CarriedBy(w', rid, did) ensures CargoWired(w', rid, did) {
      assert CarriedBy(w, rid, did) && CargoWired(w, rid, did);
      forall other | CarriedBy(w', rid, other) ensures other == did { assert CarriedBy(w, rid, other); }
    }
  }

  lemma LeaverWires(w: World, w': World, rid: string, r': Request)
    requires Wired(w) && rid in w.requests && w.requests[rid].pc.Leaving? && r'.pc.Gone?
    requires r' == w.requests[rid].(pc := r'.pc)
    requires w'.requests == w.requests[rid := r']
    requires forall r, t :: WaitingFor(w', r, t) <==> WaitingFor(w, r, t) && r != rid
    requires forall r, t :: WaitingFor(w', r, t) ==> multiset(WaitersOf(w'.waiters, t))[r] == 1
    requires w'.deliveries == w.deliveries && w'.notified == w.notified && w'.drops == w.drops
    ensures Wired(w')
  {
    CargoStays(w, w');
    forall r, t | WaitingFor(w', r, t) ensures WaiterWired(w', r, t) {
      assert WaiterWired(w, r, t);
      forall did ensures !CarriedBy(w', r, did) { assert !CarriedBy(w, r, did); }
    }
    forall r | r in w'.requests ensures ChannelWired(w', r) {
      assert ChannelWired(w, r);
      if did :| CarriedBy(w, r, did) { assert CarriedBy(w', r, did); }
    }
  }

  lemma UnregisterWires(w: World, rid: string)
    requires Wired(w) && Enabled(w, rid, Unregister)
    ensures Wired(Advance(w, rid, Unregister))
  {
    var w' := Advance(w, rid, Unregister);
    assert forall t :: WaitingFor(w, rid, t) ==> WaiterWired(w, rid, t);
    LeaverRemoved(w, w', rid, w.requests[rid].trace);
    LeaverWires(w, w', rid, Moved(w, rid, Unregister));
  }

  /** Taking the slice moves every waiter of the trace into the new delivery at once. */
  lemma NotifyWires(w: World, t0: string, result: TaskResult, did0: nat)
    requires Wired(w) && did0 !in w.deliveries
    ensures Wired(Notify(w, t0, result, did0))
  {
    var w' := Notify(w, t0, result, did0);
    forall r, t | WaitingFor(w', r, t) ensures WaiterWired(w', r, t) {
      assert WaitingFor(w, r, t) && t != t0;
      forall did ensures !CarriedBy(w', r, did) {
        assert !CarriedBy(w, r, did);
        assert WaitingFor(w, r, t0) ==> WaiterWired(w, r, t0);
      }
    }
    forall r, did | CarriedBy(w', r, did) ensures CargoWired(w', r, did) {
      assert if did == did0 then WaitingFor(w, r, t0) else CarriedBy(w, r, did);
      forall other | CarriedBy(w', r, other) ensures other == did {
        assert if other == did0 then WaitingFor(w, r, t0) else CarriedBy(w, r, other);
      }
    }
    forall r | r in w'.requests ensures ChannelWired(w', r) {
      assert ChannelWired(w, r);
      assert WaitingFor(w, r, t0) ==> CarriedBy(w', r, did0);
      if did :| CarriedBy(w, r, did) { assert CarriedBy(w', r, did); }
    }
  }

  /** The channel about to be sent to is empty: it was never sent to before. */
  lemma NextChannelIsFree(w: World, did: nat)
    requires Wired(w) && did in w.deliveries && w.deliveries[did].chs != []
    ensures var rid := w.deliveries[did].chs[0];
      rid in w.requests && w.requests[rid].inbox.None? && w.requests[rid].heard == 0
  {
    var rid := w.deliveries[did].chs[0];
    assert CarriedBy(w, rid, did);
    assert ChannelWired(w, rid);
  }

  lemma HeadIsTaken(chs: seq<string>, r: string)
    requires chs != [] && (r in chs ==> multiset(chs)[r] == 1)
    ensures r in chs[1..] <==> r in chs && r != chs[0]
    ensures r != chs[0] ==> multiset(chs[1..])[r] == multiset(chs)[r]
  {
    assert chs == [chs[0]] + chs[1..];
    assert multiset(chs) == multiset{chs[0]} + multiset(chs[1..]);
    assert r in chs[1..] <==> r in multiset(chs[1..]);
  }

  lemma DeliverWires(w: World, did0: nat)
    requires Wired(w) && did0 in w.deliveries && w.deliveries[did0].chs != []
    ensures Wired(DeliverStep(w, did0))
  {
    NextChannelIsFree(w, did0);
    var w', d := DeliverStep(w, did0), w.deliveries[did0];
    var served := d.chs[0];
    assert CarriedBy(w, served, did0);
    forall r ensures r in d.chs[1..] <==> r in d.chs && r != served {
      assert r in d.chs ==> CarriedBy(w, r, did0);
      HeadIsTaken(d.chs, r);
    }
    forall r, did ensures CarriedBy(w', r, did) <==> CarriedBy(w, r, did) && r != served {
      assert CarriedBy(w, served, did) ==> did == did0;
    }
    forall r, t | WaitingFor(w', r, t) ensures WaiterWired(w', r, t) {
      assert WaitingFor(w, r, t) && WaiterWired(w, r, t);
      assert r != served;
    }
    forall r, did | CarriedBy(w', r, did) ensures CargoWired(w', r, did) {
      assert CarriedBy(w, r, did);
      if did == did0 { HeadIsTaken(d.chs, r); }
    }
    forall r | r in w'.requests ensures ChannelWired(w', r) {
      assert ChannelWired(w, r);
      if did :| CarriedBy(w, r, did) { assert r != served ==> CarriedBy(w', r, did); }
    }
  }

  lemma DeliveryEnds(w: World, did0: nat)
    requires Wired(w) && did0 in w.deliveries && w.deliveries[did0].chs == []
    ensures Wired(DeliverStep(w, did0))
  {
    var w' := DeliverStep(w, did0);
    forall r, did ensures CarriedBy(w', r, did) <==> CarriedBy(w, r, did) {
    }
    forall r, t | WaitingFor(w', r, t) ensures WaiterWired(w', r, t) {
      assert WaitingFor(w, r, t);
    }
    forall r, did | CarriedBy(w', r, did) ensures CargoWired(w', r, did) {
      assert CarriedBy(w, r, did);
    }
    forall r | r in w'.requests ensures ChannelWired(w', r) {
      assert ChannelWired(w, r);
      if did :| CarriedBy(w, r, did) { assert CarriedBy(w', r, did); }
    }
  }

  // ---- every step ----

  /** Moves other than these leave all wiring alone. */
  predicate Rewires(move: Move) {
    move.Register? || move.NotifyRejected? || move.Unregister?
  }

  lemma MoveKeepsChannel(w: World, rid: string, move: Move)
    requires Enabled(w, rid, move) && ChannelWired(w, rid) && !Rewires(move)
    ensures ChannelKept(w, rid, Moved(w, rid, move))
  {
  }

  lemma MoveKeepsWires(w: World, rid: string, move: Move)
    requires Enabled(w, rid, move) && !Rewires(move)
    ensures SameWires(w, Advance(w, rid, move))
    ensures Advance(w, rid, move).requests == w.requests[rid := Moved(w, rid, move)]
  {
  }

  lemma AdvanceKeepsWired(w: World, rid: string, move: Move)
    requires Wired(w) && Enabled(w, rid, move)
    ensures Wired(Advance(w, rid, move))
  {
    var w' := Advance(w, rid, move);
    if move.Register? {
      RegisterWires(w, rid);
    } else if move.Unregister? {
      UnregisterWires(w, rid);
    } else if move.NotifyRejected? {
      NotifyRejectedWires(w, rid, move.did);
    } else {
      assert ChannelWired(w, rid);
      MoveKeepsChannel(w, rid, move);
      MoveKeepsWires(w, rid, move);
      RequestMoved(w, w', rid, Moved(w, rid, move));
    }
  }

  lemma NotifyRejectedWires(w: World, rid: string, did: nat)
    requires Wired(w) && Enabled(w, rid, NotifyRejected(did))
    ensures Wired(Advance(w, rid, NotifyRejected(did)))
  {
    var w1 := w.(requests := w.requests[rid := Moved(w, rid, NotifyRejected(did))]);
    RequestMoved(w, w1, rid, w1.requests[rid]);
    NotifyWires(w1, w.requests[rid].trace, Failure, did);
  }

  lemma HandlerNotifyWires(w: World, hid: nat, did: nat)
    requires Wired(w) && hid in w.handlers && w.handlers[hid].Reporting? && did !in w.deliveries
    ensures Wired(Locally(w, HandlerNotify(hid, did)))
  {
    var w1 := w.(handlers := w.handlers - {hid});
    NothingMoved(w, w1);
    NotifyWires(w1, w.handlers[hid].trace, w.handlers[hid].result, did);
  }

  lemma HandlersLeaveWires(w: World, s: Step)
    requires !s.Act? && !s.Deliver? && !s.HandlerNotify? && !s.Arrive?
    ensures SameWires(w, Locally(w, s)) && Locally(w, s).requests == w.requests
  {
  }

  lemma LocallyKeepsWired(w: World, s: Step)
    requires Wired(w)
    ensures Wired(Locally(w, s))
  {
    match s
    case Arrive(rid, _, _, _, _) =>
      if MayArrive(w, rid) { RequestMoved(w, Locally(w, s), rid, Locally(w, s).requests[rid]); }
    case Act(rid, move) => if Enabled(w, rid, move) { AdvanceKeepsWired(w, rid, move); }
    case Deliver(did) =>
      if did in w.deliveries {
        if w.deliveries[did].chs == [] { DeliveryEnds(w, did); } else { DeliverWires(w, did); }
      }
    case HandlerNotify(hid, did) =>
      if hid in w.handlers && w.handlers[hid].Reporting? && did !in w.deliveries { HandlerNotifyWires(w, hid, did); }
    case _ =>
      HandlersLeaveWires(w, s);
      NothingMoved(w, Locally(w, s));
  }

  lemma NextKeepsWired(c: Config, w: World, s: Step)
    requires Wired(w)
    ensures Wired(Next(c, w, s))
  {
    LocallyKeepsWired(w, s);
    NothingMoved(Locally(w, s), Next(c, w, s));
  }

  lemma StartIsWired()
    ensures Wired(Start)
  {
    assert forall rid, t :: !WaitingFor(Start, rid, t);
    assert forall rid, did :: !CarriedBy(Start, rid, did);
  }
}
