/**
 * No GP is forgotten. A request that is over leaves its estimate frozen exactly when the database refused
 * the one release it tried; every other way out of ParseGallery charges or refunds what was frozen.
 */
module GalleryReleases {
  import opened TaskStore
  import opened History
  import opened Ledger
  import opened GalleryMachine
  import opened GalleryTruth
  import opened GalleryMoney

  /** The request is over and its estimate is still frozen. */
  ghost predicate Stuck(w: World, rid: string) {
    rid in w.requests && Ended(w.requests[rid].pc) && HeldIn(Holds(w.books.txs), rid)
  }

  predicate HeldIn(h: map<string, Hold>, t: string) {
    t in h && h[t].Held?
  }

  /** A settlement or refund that was due and did not commit. */
  predicate FailedMove(r: Request, move: Move) {
    match move
    case Settle(ok) => r.pc.Settling? && !ok
    case RefundEstimate(ok) => r.pc.Refunding? && !ok
    case Repay(ok) => r.pc.Repaying? && FailedFrozen(r.pc.error) && !ok
    case _ => false
  }

  predicate FailedStep(w: World, s: Step, rid: string) {
    s.Act? && s.rid == rid && rid in w.requests && FailedMove(w.requests[rid], s.move)
  }

  // ---- the request's own moves ----

  ghost predicate OwnMoveTracks(w: World, rid: string, move: Move)
    requires Enabled(w, rid, move)
  {
    var r, r' := w.requests[rid], Moved(w, rid, move);
    Ended(r'.pc) && HeldIn(Holds(Paid(w, rid, move).txs), rid)
    <==> (Ended(r.pc) && HeldIn(Holds(w.books.txs), rid)) || FailedMove(r, move)
  }

  lemma SettleTracks(log: seq<Event>, w: World, rid: string, ok: bool)
    requires ReadyToPay(log, w, rid, Move.Settle(ok))
    ensures OwnMoveTracks(w, rid, Move.Settle(ok))
  {
    HolderHasAccount(w.books, rid);
    SettleHolds(w.books, w.requests[rid].user, rid, w.requests[rid].estimatedGP);
  }

  lemma RefundTracks(log: seq<Event>, w: World, rid: string, ok: bool)
    requires ReadyToPay(log, w, rid, RefundEstimate(ok))
    ensures OwnMoveTracks(w, rid, RefundEstimate(ok))
  {
    HolderHasAccount(w.books, rid);
    RefundHolds(w.books, w.requests[rid].user, rid, w.requests[rid].estimatedGP);
  }

  lemma RepayTracks(log: seq<Event>, w: World, rid: string, ok: bool)
    requires ReadyToPay(log, w, rid, Repay(ok))
    ensures OwnMoveTracks(w, rid, Repay(ok))
  {
    var r := w.requests[rid];
    RefundGuardIsExact(log, Holds(w.books.txs), rid, r);
    if FailedFrozen(r.pc.error) { HolderHasAccount(w.books, rid); }
    RefundHolds(w.books, r.user, rid, r.estimatedGP);
  }

  lemma FreezeTracks(w: World, rid: string, answered: bool)
    requires Enabled(w, rid, FreezeEstimate(answered))
    ensures OwnMoveTracks(w, rid, FreezeEstimate(answered))
  {
  }

  lemma OtherMovesTrack(log: seq<Event>, w: World, rid: string, move: Move)
    requires Enabled(w, rid, move) && !Pays(move)
    requires IdentityTrue(log, rid, w.requests[rid]) && AccountedFor(Holds(w.books.txs), rid, w.requests[rid])
    ensures OwnMoveTracks(w, rid, move)
  {
    OtherMovesPayNothing(w, rid, move);
  }

  lemma EveryMoveTracks(log: seq<Event>, w: World, rid: string, move: Move)
    requires ReadyToPay(log, w, rid, move)
    ensures OwnMoveTracks(w, rid, move)
  {
    match move
    case FreezeEstimate(answered) => FreezeTracks(w, rid, answered);
    case Settle(ok) => SettleTracks(log, w, rid, ok);
    case RefundEstimate(ok) => RefundTracks(log, w, rid, ok);
    case Repay(ok) => RepayTracks(log, w, rid, ok);
    case _ => OtherMovesTrack(log, w, rid, move);
  }

  // ---- every step, seen from one request ----

  ghost predicate Tracks(w: World, s: Step, rid: string) {
    Stuck(Locally(w, s), rid) <==> Stuck(w, rid) || FailedStep(w, s, rid)
  }

  lemma OwnStepTracks(log: seq<Event>, w: World, rid: string, move: Move)
    requires ReadyToPay(log, w, rid, move)
    ensures Tracks(w, Act(rid, move), rid)
  {
    EveryMoveTracks(log, w, rid, move);
    AdvanceParts(w, rid, move);
  }

  lemma ForeignStepTracks(log: seq<Event>, w: World, other: string, move: Move, rid: string)
    requires ReadyToPay(log, w, other, move) && other != rid
    ensures Tracks(w, Act(other, move), rid)
  {
    EveryMoveAccounted(log, w, other, move);
    AdvanceParts(w, other, move);
    assert HeldIn(Holds(Paid(w, other, move).txs), rid) <==> HeldIn(Holds(w.books.txs), rid);
  }

  lemma DepositTracks(w: World, u: string, amount: int, rid: string)
    ensures Tracks(w, MakeDeposit(u, amount), rid)
  {
    var b' := AfterDeposit(w.books, u, amount);
    HoldsAppend(w.books.txs, b'.txs[|w.books.txs|]);
  }

  lemma DeliverTracks(w: World, did: nat, rid: string)
    ensures Tracks(w, Deliver(did), rid)
  {
  }

  lemma ServerStepTracks(w: World, s: Step, rid: string)
    requires !s.Act? && !s.MakeDeposit? && !s.Deliver?
    ensures Tracks(w, s, rid)
  {
  }

  lemma StepTracks(c: Config, w: World, s: Step, rid: string)
    requires Right(c, w)
    ensures Tracks(w, s, rid)
  {
    if s.Act? {
      if Enabled(w, s.rid, s.move) {
        MoverIsReady(c, w, s.rid, s.move);
        if s.rid == rid { OwnStepTracks(w.sched.log, w, rid, s.move); }
        else { ForeignStepTracks(w.sched.log, w, s.rid, s.move, rid); }
      }
    } else if s.MakeDeposit? {
      DepositTracks(w, s.user, s.amount, rid);
    } else if s.Deliver? {
      DeliverTracks(w, s.did, rid);
    } else {
      ServerStepTracks(w, s, rid);
    }
  }

  lemma NextTracks(c: Config, w: World, s: Step, rid: string, w': World)
    requires Right(c, w) && w' == Next(c, w, s)
    ensures Stuck(w', rid) <==> Stuck(w, rid) || FailedStep(w, s, rid)
  {
    StepTracks(c, w, s, rid);
  }

  ghost predicate FailedAt(r: Run, i: nat, rid: string)
    requires i < |r.steps| && |r.states| == |r.steps| + 1
  {
    FailedStep(r.states[i], r.steps[i], rid)
  }

  ghost predicate FailedBefore(r: Run, n: nat, rid: string)
    requires n <= |r.steps| && |r.states| == |r.steps| + 1
  {
    exists i :: 0 <= i < n && FailedAt(r, i, rid)
  }

  lemma StuckStep(c: Config, r: Run, n: nat, rid: string)
    requires IsRun(c, r) && 0 < n < |r.states|
    ensures Stuck(r.states[n], rid) <==> Stuck(r.states[n - 1], rid) || FailedAt(r, n - 1, rid)
  {
    RunsAreRight(c, r, n - 1);
    assert StepAt(c, r, n - 1);
    NextTracks(c, r.states[n - 1], r.steps[n - 1], rid, r.states[n]);
  }

  lemma {:induction false} StuckIffFailed(c: Config, r: Run, n: nat, rid: string)
    requires IsRun(c, r) && n < |r.states|
    ensures Stuck(r.states[n], rid) <==> FailedBefore(r, n, rid)
  {
    if n > 0 {
      StuckIffFailed(c, r, n - 1, rid);
      StuckStep(c, r, n, rid);
      LastFailure(r, n, rid);
    }
  }

  lemma LastFailure(r: Run, n: nat, rid: string)
    requires 0 < n <= |r.steps| && |r.states| == |r.steps| + 1
    ensures FailedBefore(r, n, rid) <==> FailedBefore(r, n - 1, rid) || FailedAt(r, n - 1, rid)
  {
    if i :| 0 <= i < n && FailedAt(r, i, rid) {
      assert i == n - 1 || FailedBefore(r, n - 1, rid);
    }
  }

  /**
   * In every run a request that is over has its estimate still frozen iff a release of its own was due and
   * the database refused it. So every freeze whose release commits is charged or refunded, exactly once.
   */
  lemma FrozenForeverIff(c: Config, r: Run, rid: string)
    requires IsRun(c, r)
    ensures Stuck(r.Last(), rid) <==> exists i :: 0 <= i < |r.steps| && FailedAt(r, i, rid)
  {
    StuckIffFailed(c, r, |r.steps|, rid);
  }
}
