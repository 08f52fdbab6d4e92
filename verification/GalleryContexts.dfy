/**
 * One context serves a request from its arrival to its last release. Once it has ended, no call made on it
 * takes effect, neither the transactions nor the scripts; so a request whose context ends while its estimate
 * is frozen can neither charge nor refund it. The handler's context ends a fixed time after the arrival,
 * before the timer that ends the wait can fire.
 */
module GalleryContexts {
  import opened TaskStore
  import opened History
  import opened Ledger
  import opened GalleryMachine
  import opened GalleryTruth
  import opened GalleryMoney
  import opened GalleryBooks
  import opened GalleryReleases
  import Sched = SchedulerMachine
  import Lease = LeaseSafety

  /**
   * The outcome of a move over a working Redis and database: a call takes effect iff the context has not
   * ended (done), and the select sees ctx.Done only if it has. The rest of a goroutine's moves make no call on it.
   */
  predicate Heeds(move: Move, done: bool) {
    match move
    case Publish => !done
    case PublishFails => done
    case Resolve(quota) => quota.Some? ==> !done
    case FreezeEstimate(answered) => answered == !done
    case Cost(_, ok) => ok == !done
    case Reject(answered) => answered == !done
    case Repay(ok) => ok == !done
    case Settle(ok) => ok == !done
    case RefundEstimate(ok) => ok == !done
    case Cancel => done
    case _ => true
  }

  predicate HeedsAt(r: Run, ended: seq<set<string>>, i: nat)
    requires i < |r.steps| && |ended| == |r.steps| + 1
  {
    ended[i] <= ended[i + 1] && (r.steps[i].Act? ==> Heeds(r.steps[i].move, r.steps[i].rid in ended[i]))
  }

  /** In each state, the requests whose context has ended; a context that has ended stays so. */
  ghost predicate Contexts(r: Run, ended: seq<set<string>>) {
    |ended| == |r.steps| + 1 == |r.states| && forall i :: 0 <= i < |r.steps| ==> HeedsAt(r, ended, i)
  }

  // ---- a context that ends while GP is frozen ----

  ghost predicate FrozenUnder(w: World, rid: string) {
    rid in w.requests && !Ended(w.requests[rid].pc) && HeldIn(Holds(w.books.txs), rid)
  }

  /** The context has ended while the request, not over yet, has its estimate frozen. */
  ghost predicate Doomed(r: Run, ended: seq<set<string>>, n: nat, rid: string)
    requires n < |r.states| == |ended|
  {
    rid in ended[n] && FrozenUnder(r.states[n], rid)
  }

  lemma DoomedMovePaysNothing(w: World, rid: string, move: Move)
    requires Enabled(w, rid, move) && Heeds(move, true)
    ensures Paid(w, rid, move) == w.books
  {
  }

  ghost predicate StaysFrozen(w: World, s: Step, rid: string) {
    FrozenUnder(Locally(w, s), rid) || Stuck(Locally(w, s), rid)
  }

  lemma OwnStepStaysFrozen(w: World, rid: string, move: Move)
    requires FrozenUnder(w, rid) && Heeds(move, true)
    ensures StaysFrozen(w, Act(rid, move), rid)
  {
    if Enabled(w, rid, move) {
      DoomedMovePaysNothing(w, rid, move);
      AdvanceParts(w, rid, move);
    }
  }

  lemma ForeignStepStaysFrozen(log: seq<Event>, w: World, other: string, move: Move, rid: string)
    requires FrozenUnder(w, rid) && ReadyToPay(log, w, other, move) && other != rid
    ensures StaysFrozen(w, Act(other, move), rid)
  {
    EveryMoveAccounted(log, w, other, move);
    AdvanceParts(w, other, move);
  }

  lemma DeliveryStaysFrozen(w: World, did: nat, rid: string)
    requires FrozenUnder(w, rid)
    ensures StaysFrozen(w, Deliver(did), rid)
  {
  }

  lemma DepositStaysFrozen(w: World, u: string, amount: int, rid: string)
    requires FrozenUnder(w, rid) && Funded(w.books)
    ensures StaysFrozen(w, MakeDeposit(u, amount), rid)
  {
    DepositHolds(w.books, u, amount);
  }

  lemma OtherStepStaysFrozen(w: World, s: Step, rid: string)
    requires FrozenUnder(w, rid) && !s.Act? && !s.Deliver? && !s.MakeDeposit?
    ensures StaysFrozen(w, s, rid)
  {
  }

  lemma ActStaysFrozen(c: Config, w: World, actor: string, move: Move, rid: string)
    requires Right(c, w) && FrozenUnder(w, rid) && Enabled(w, actor, move)
    requires actor == rid ==> Heeds(move, true)
    ensures StaysFrozen(w, Act(actor, move), rid)
  {
    if actor == rid {
      OwnStepStaysFrozen(w, rid, move);
    } else {
      MoverIsReady(c, w, actor, move);
      ForeignStepStaysFrozen(w.sched.log, w, actor, move, rid);
    }
  }

  lemma StepStaysFrozen(c: Config, w: World, s: Step, rid: string)
    requires Right(c, w) && FrozenUnder(w, rid)
    requires s.Act? && s.rid == rid ==> Heeds(s.move, true)
    ensures StaysFrozen(w, s, rid)
  {
    if s.Act? {
      if Enabled(w, s.rid, s.move) { ActStaysFrozen(c, w, s.rid, s.move, rid); }
    } else if s.Deliver? {
      DeliveryStaysFrozen(w, s.did, rid);
    } else if s.MakeDeposit? {
      DepositStaysFrozen(w, s.user, s.amount, rid);
    } else {
      OtherStepStaysFrozen(w, s, rid);
    }
  }

  lemma NextStaysFrozen(c: Config, w: World, s: Step, rid: string, w': World)
    requires Right(c, w) && FrozenUnder(w, rid) && w' == Next(c, w, s)
    requires s.Act? && s.rid == rid ==> Heeds(s.move, true)
    ensures FrozenUnder(w', rid) || Stuck(w', rid)
  {
    StepStaysFrozen(c, w, s, rid);
  }

  lemma DoomedStep(c: Config, r: Run, ended: seq<set<string>>, n: nat, rid: string)
    requires IsRun(c, r) && Contexts(r, ended) && n < |r.steps| && Doomed(r, ended, n, rid)
    ensures Doomed(r, ended, n + 1, rid) || Stuck(r.states[n + 1], rid)
  {
    RunsAreRight(c, r, n);
    assert StepAt(c, r, n) && HeedsAt(r, ended, n);
    NextStaysFrozen(c, r.states[n], r.steps[n], rid, r.states[n + 1]);
  }

  lemma {:induction false} DoomedStrands(c: Config, r: Run, ended: seq<set<string>>, n: nat, k: nat, rid: string)
    requires IsRun(c, r) && Contexts(r, ended) && n <= k < |r.states| && Doomed(r, ended, n, rid)
    ensures Doomed(r, ended, k, rid) || Stuck(r.states[k], rid)
  {
    if n < k {
      DoomedStrands(c, r, ended, n, k - 1, rid);
      if Stuck(r.states[k - 1], rid) { StuckStep(c, r, k, rid); } else { DoomedStep(c, r, ended, k - 1, rid); }
    }
  }

  lemma FailureIsFrozen(log: seq<Event>, w: World, rid: string, move: Move)
    requires rid in w.requests && RequestTrue(log, rid, w.requests[rid])
    requires AccountedFor(Holds(w.books.txs), rid, w.requests[rid]) && FailedMove(w.requests[rid], move)
    ensures FrozenUnder(w, rid)
  {
  }

  /** A release that is refused was made on a context that had ended, with the estimate frozen. */
  lemma FailureIsDoomed(c: Config, r: Run, ended: seq<set<string>>, i: nat, rid: string)
    requires IsRun(c, r) && Contexts(r, ended) && i < |r.steps| && FailedAt(r, i, rid)
    ensures Doomed(r, ended, i, rid)
  {
    RunsAreRight(c, r, i);
    RightSees(c, r.states[i], rid);
    assert HeedsAt(r, ended, i);
    FailureIsFrozen(r.states[i].sched.log, r.states[i], rid, r.steps[i].move);
  }

  /**
   * Where calls fail only because their context has ended: the GP of a request that is over stays frozen for
   * good iff its context ended while that GP was frozen, be it during the setup, while it waited, or after
   * a result was received.
   */
  lemma StrandedIff(c: Config, r: Run, ended: seq<set<string>>, rid: string)
    requires IsRun(c, r) && Contexts(r, ended)
    requires rid in r.Last().requests && Ended(r.Last().requests[rid].pc)
    ensures Stuck(r.Last(), rid) <==> exists n :: 0 <= n < |r.states| && Doomed(r, ended, n, rid)
  {
    if Stuck(r.Last(), rid) {
      FrozenForeverIff(c, r, rid);
      var i :| 0 <= i < |r.steps| && FailedAt(r, i, rid);
      FailureIsDoomed(c, r, ended, i, rid);
    }
    if n :| 0 <= n < |r.states| && Doomed(r, ended, n, rid) {
      DoomedStrands(c, r, ended, n, |r.steps|, rid);
    }
  }

  /** So a creator that stops waiting when its context has ended, whatever made it stop, strands its GP. */
  lemma GivingUpStrands(c: Config, r: Run, ended: seq<set<string>>, n: nat, rid: string)
    requires IsRun(c, r) && Contexts(r, ended) && n < |r.states| && rid in ended[n]
    requires rid in r.states[n].requests && r.states[n].requests[rid].pc.Awaiting? && r.states[n].requests[rid].created
    requires rid in r.Last().requests && Ended(r.Last().requests[rid].pc)
    ensures Stuck(r.Last(), rid)
  {
    RunsAreRight(c, r, n);
    RightSees(c, r.states[n], rid);
    assert Doomed(r, ended, n, rid);
    StrandedIff(c, r, ended, rid);
  }

  // ---- ended contexts and the books ----

  /** Where FreezeGP failed for another reason than want of balance, the context has ended. */
  ghost predicate FailuresEnded(w: World, done: set<string>) {
    forall rid :: rid in w.requests && FailedWith(w.requests[rid].pc, FreezeFailed) ==> rid in done
  }

  lemma MoveKeepsFailuresEnded(w: World, rid: string, move: Move, done: set<string>)
    requires FailuresEnded(w, done) && Enabled(w, rid, move) && Heeds(move, rid in done)
    ensures FailuresEnded(Advance(w, rid, move), done)
  {
    AdvanceParts(w, rid, move);
    MovedFailsEnded(w, rid, move, done);
  }

  lemma MovedFailsEnded(w: World, rid: string, move: Move, done: set<string>)
    requires Enabled(w, rid, move) && Heeds(move, rid in done)
    requires FailedWith(w.requests[rid].pc, FreezeFailed) ==> rid in done
    ensures FailedWith(Moved(w, rid, move).pc, FreezeFailed) ==> rid in done
  {
  }

  lemma OthersKeepFailuresEnded(w: World, s: Step, done: set<string>)
    requires FailuresEnded(w, done) && !s.Act?
    ensures FailuresEnded(Locally(w, s), done)
  {
    if s.Deliver? {
      DeliverKeepsFailuresEnded(w, s.did, done);
    }
  }

  lemma DeliverKeepsFailuresEnded(w: World, did: nat, done: set<string>)
    requires FailuresEnded(w, done)
    ensures FailuresEnded(Locally(w, Deliver(did)), done)
  {
  }

  lemma NextKeepsFailuresEnded(c: Config, w: World, s: Step, done: set<string>)
    requires FailuresEnded(w, done) && (s.Act? ==> Heeds(s.move, s.rid in done))
    ensures FailuresEnded(Next(c, w, s), done)
  {
    if !s.Act? { OthersKeepFailuresEnded(w, s, done); }
    else if Enabled(w, s.rid, s.move) { MoveKeepsFailuresEnded(w, s.rid, s.move, done); }
  }

  lemma {:induction false} RunsKeepFailuresEnded(c: Config, r: Run, ended: seq<set<string>>, n: nat)
    requires IsRun(c, r) && Contexts(r, ended) && n < |r.states|
    ensures FailuresEnded(r.states[n], ended[n])
  {
    if n > 0 {
      RunsKeepFailuresEnded(c, r, ended, n - 1);
      assert StepAt(c, r, n - 1) && HeedsAt(r, ended, n - 1);
      NextKeepsFailuresEnded(c, r.states[n - 1], r.steps[n - 1], ended[n - 1]);
    }
  }

  /** The mistaken guard is harmless there: the context that failed the freeze fails its refund too. */
  lemma ContextsFundRefunds(c: Config, r: Run, ended: seq<set<string>>)
    requires IsRun(c, r) && Contexts(r, ended)
    ensures RefundsFunded(r) && AlwaysBalanced(r)
  {
    NoneUnfunded(c, r, ended);
    BalancedIffFunded(c, r);
  }

  lemma NoneUnfunded(c: Config, r: Run, ended: seq<set<string>>)
    requires IsRun(c, r) && Contexts(r, ended)
    ensures RefundsFunded(r)
  {
    forall i | 0 <= i < |r.steps| ensures FundedAt(r, i) {
      RunsKeepFailuresEnded(c, r, ended, i);
      assert HeedsAt(r, ended, i);
    }
  }

  // ---- the handler's deadline ----

  function Now(w: World): int {
    w.sched.store.now
  }

  ghost function ArrivedAt(r: Run, n: nat, rid: string): int
    requires n < |r.states|
  {
    if n == 0 || rid !in r.states[n - 1].requests then Now(r.states[n]) else ArrivedAt(r, n - 1, rid)
  }

  predicate Waits(w: World, rid: string) {
    rid in w.requests && w.requests[rid].pc.Awaiting?
  }

  /** When the request came to its select, where it starts the timer. */
  ghost function WaitingSince(r: Run, n: nat, rid: string): int
    requires n < |r.states|
  {
    if n == 0 || !Waits(r.states[n - 1], rid) then Now(r.states[n]) else WaitingSince(r, n - 1, rid)
  }

  ghost predicate Expired(r: Run, n: nat, rid: string, timeout: nat)
    requires n < |r.states|
  {
    rid in r.states[n].requests && ArrivedAt(r, n, rid) + timeout <= Now(r.states[n])
  }

  /** The handler gives each request a context of its own that ends this long after the arrival. */
  ghost predicate Deadlines(r: Run, ended: seq<set<string>>, timeout: nat) {
    |ended| == |r.states| && forall n, rid :: 0 <= n < |r.states| ==> (rid in ended[n] <==> Expired(r, n, rid, timeout))
  }

  ghost predicate TimerRuns(r: Run, i: nat, timeout: nat)
    requires i < |r.steps| && |r.states| == |r.steps| + 1
  {
    var s := r.steps[i];
    s.Act? && s.move.Timeout? && Enabled(r.states[i], s.rid, s.move) ==>
      WaitingSince(r, i, s.rid) + timeout <= Now(r.states[i])
  }

  /** ParseGallery as the handler calls it: the context and the timer last equally long, but the timer starts later. */
  ghost predicate Handled(c: Config, r: Run, ended: seq<set<string>>, timeout: nat) {
    && IsRun(c, r) && Contexts(r, ended) && Deadlines(r, ended, timeout)
    && forall i :: 0 <= i < |r.steps| ==> TimerRuns(r, i, timeout)
  }

  lemma {:induction false} RunToIdleTakesNoTime(c: Config, m: Sched.Machine)
    ensures Sched.RunToIdle(c, m).store.now == m.store.now
    decreases Sched.Remaining(m.dog)
  {
    if !m.dog.Idle? {
      Lease.WatchdogProgress(c, m);
      RunToIdleTakesNoTime(c, Sched.WatchdogStep(c, m));
    }
  }

  lemma TimeGoesOn(c: Config, w: World, s: Step)
    ensures Now(w) <= Now(Next(c, w, s))
  {
    var script := ScriptOf(w, s);
    if script.Some? && script.value.DoPass? && w.sched.dog.Idle? {
      RunToIdleTakesNoTime(c, Sched.WatchdogStep(c, w.sched));
    }
  }

  lemma {:induction false} ArrivesBeforeItWaits(c: Config, r: Run, n: nat, rid: string)
    requires IsRun(c, r) && n < |r.states| && Waits(r.states[n], rid)
    ensures ArrivedAt(r, n, rid) <= WaitingSince(r, n, rid) <= Now(r.states[n])
  {
    if n > 0 {
      assert StepAt(c, r, n - 1);
      TimeGoesOn(c, r.states[n - 1], r.steps[n - 1]);
      ArrivedBefore(c, r, n, rid);
      if Waits(r.states[n - 1], rid) { ArrivesBeforeItWaits(c, r, n - 1, rid); }
    }
  }

  lemma {:induction false} ArrivedBefore(c: Config, r: Run, n: nat, rid: string)
    requires IsRun(c, r) && n < |r.states|
    ensures ArrivedAt(r, n, rid) <= Now(r.states[n])
  {
    if n > 0 {
      assert StepAt(c, r, n - 1);
      TimeGoesOn(c, r.states[n - 1], r.steps[n - 1]);
      ArrivedBefore(c, r, n - 1, rid);
    }
  }

  /** Whenever the timer fires, the context has already ended. */
  lemma TimerFindsContextEnded(c: Config, r: Run, ended: seq<set<string>>, timeout: nat, i: nat)
    requires Handled(c, r, ended, timeout) && i < |r.steps|
    requires r.steps[i].Act? && r.steps[i].move.Timeout? && Enabled(r.states[i], r.steps[i].rid, r.steps[i].move)
    ensures r.steps[i].rid in ended[i]
  {
    var rid := r.steps[i].rid;
    assert TimerRuns(r, i, timeout);
    ArrivesBeforeItWaits(c, r, i, rid);
    assert Expired(r, i, rid, timeout);
  }

  /**
   * Called by the handler, a request strands its GP iff that was still frozen when its time was up: so does
   * every creator that no result reaches in time, whichever way it then leaves its select.
   */
  lemma LateCreatorsStrandIff(c: Config, r: Run, ended: seq<set<string>>, timeout: nat, rid: string)
    requires Handled(c, r, ended, timeout)
    requires rid in r.Last().requests && Ended(r.Last().requests[rid].pc)
    ensures Stuck(r.Last(), rid)
            <==> exists n :: 0 <= n < |r.states| && Expired(r, n, rid, timeout) && FrozenUnder(r.states[n], rid)
  {
    StrandedIff(c, r, ended, rid);
    if n :| 0 <= n < |r.states| && Doomed(r, ended, n, rid) {
      assert Expired(r, n, rid, timeout);
    }
    if n :| 0 <= n < |r.states| && Expired(r, n, rid, timeout) && FrozenUnder(r.states[n], rid) {
      assert Doomed(r, ended, n, rid);
    }
  }

  /** The refund "for timeout" never commits, nor does the one "on cancellation". */
  lemma UnansweredCreatorsStrand(c: Config, r: Run, ended: seq<set<string>>, timeout: nat, i: nat, rid: string)
    requires Handled(c, r, ended, timeout) && i < |r.steps|
    requires r.steps[i] == Act(rid, Timeout) || r.steps[i] == Act(rid, Cancel)
    requires Enabled(r.states[i], rid, r.steps[i].move) && r.states[i].requests[rid].created
    requires rid in r.Last().requests && Ended(r.Last().requests[rid].pc)
    ensures Stuck(r.Last(), rid)
  {
    assert HeedsAt(r, ended, i);
    if r.steps[i].move.Timeout? { TimerFindsContextEnded(c, r, ended, timeout, i); }
    GivingUpStrands(c, r, ended, i, rid);
  }
}
