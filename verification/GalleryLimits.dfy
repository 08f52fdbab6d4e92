/**
 * Runs on which the server falls short: a report on a trace that was never announced is missed by its creator,
 * a refund of a freeze that failed upsets the books, and GP stays frozen when a context ends too early.
 */
module GalleryLimits {
  import opened TaskStore
  import opened Ledger
  import opened GalleryMachine
  import opened GalleryWaiters
  import opened GalleryReleases
  import opened GalleryContexts
  import Theorems = GalleryTheorems
  import Results = ResultWaiter

  const Rid := "a"
  const Guess := Results.TaskResult.TaskResult(false, "", 0)

  /** Published and not yet registered. */
  function Unregistered(): Request {
    Request("u", "g", "k", false, Registering, Rid, true, 0, None, 0)
  }

  lemma PublishedAlone(c: Config) returns (r: Run)
    ensures IsRun(c, r)
    ensures var w := r.Last();
      w.requests == map[Rid := Unregistered()] && w.waiters == map[] && w.handlers == map[]
      && w.deliveries == map[] && w.notified == map[] && w.books == EmptyBooks
  {
    var arrive := Arrive(Rid, "u", "g", "k", false);
    ExtendIsRun(c, NoSteps, arrive);
    r := Extend(c, NoSteps, arrive);
    var w := r.Last();
    assert w.requests[Rid].pc == Publishing && w.sched == Start.sched;
    assert PublishReplyFor(w.sched.store, Rid, SlotOf(w.requests[Rid]), false) == Created(Rid);
    var publish := Act(Rid, Publish);
    ExtendIsRun(c, r, publish);
    r := Extend(c, r, publish);
  }

  /** The report is handled to the end while nobody is registered. */
  lemma ReportedTooEarly(c: Config) returns (r: Run)
    ensures IsRun(c, r)
    ensures var w := r.Last();
      w.requests == map[Rid := Unregistered()] && w.waiters == map[]
      && w.deliveries == map[0 := Delivery(Rid, [], Guess)]
      && w.notified == map[Rid := Guess]
  {
    r := PublishedAlone(c);
    var report, fail, notify := Report(0, Rid, "n", Guess), HandlerFail(0), HandlerNotify(0, 0);
    ExtendIsRun(c, r, report);
    r := Extend(c, r, report);
    assert r.Last().handlers == map[0 := Failing(Rid, "n", Guess)];
    ExtendIsRun(c, r, fail);
    r := Extend(c, r, fail);
    assert r.Last().handlers == map[0 := Reporting(Rid, Guess)];
    ExtendIsRun(c, r, notify);
    r := Extend(c, r, notify);
  }

  /** The creator registers after its trace was notified: it waits, unserved, and no delivery is on its way. */
  lemma UnannouncedReportIsMissed(c: Config) returns (r: Run)
    ensures IsRun(c, r)
    ensures var w := r.Last();
      && Rid in w.requests && w.requests[Rid].created && w.requests[Rid].heard == 0
      && Rid in w.notified && WaitingFor(w, Rid, Rid) && forall did :: !CarriedBy(w, Rid, did)
  {
    r := ReportedTooEarly(c);
    var register := Act(Rid, Register);
    ExtendIsRun(c, r, register);
    r := Extend(c, r, register);
  }

  // ---- a freeze that fails, and is refunded ----

  /** One move more, when it can be made. */
  lemma OneMove(c: Config, r: Run, rid: string, move: Move) returns (r': Run)
    requires IsRun(c, r) && Enabled(r.Last(), rid, move)
    ensures IsRun(c, r') && r'.steps == r.steps + [Act(rid, move)]
    ensures rid in r'.Last().requests && r'.Last().requests[rid] == Moved(r.Last(), rid, move)
    ensures r'.Last().books == Paid(r.Last(), rid, move)
    ensures !move.NotifyRejected? ==> r'.Last().deliveries == r.Last().deliveries
  {
    ExtendIsRun(c, r, Act(rid, move));
    r' := Extend(c, r, Act(rid, move));
    AdvanceParts(r.Last(), rid, move);
  }

  lemma CreatorIsAccountedFor(c: Config, r: Run, rid: string)
    requires IsRun(c, r) && rid in r.Last().requests
    ensures var q, h := r.Last().requests[rid], Holds(r.Last().books.txs);
      && (q.pc.Freezing? ==> q.trace == rid && rid !in h && 1 <= q.estimatedGP)
      && (q.pc.Awaiting? && q.created ==> 1 <= q.estimatedGP)
  {
    Theorems.RunSeen(c, r, rid);
  }

  /**
   * Any run in which a request is about to freeze goes on, if the database answers the refund but not the
   * freeze, to the refund of an estimate that was never frozen; Ledger.UnfundedRefund says what that does.
   */
  lemma FailedFreezeIsRefunded(c: Config, r: Run, rid: string, did: nat) returns (r': Run)
    requires IsRun(c, r) && rid in r.Last().requests && r.Last().requests[rid].pc.Freezing?
    requires did !in r.Last().deliveries
    ensures IsRun(c, r') && r.steps <= r'.steps
    ensures var b, q := r.Last().books, r.Last().requests[rid];
      rid !in Holds(b.txs) && 1 <= q.estimatedGP && r'.Last().books == AfterRefund(b, q.user, rid, q.estimatedGP)
  {
    CreatorIsAccountedFor(c, r, rid);
    r' := OneMove(c, r, rid, FreezeEstimate(false));
    r' := OneMove(c, r', rid, Move.Reject(true));
    r' := OneMove(c, r', rid, NotifyRejected(did));
    r' := OneMove(c, r', rid, Repay(true));
  }

  lemma AboutToFreeze(c: Config) returns (r: Run)
    ensures IsRun(c, r)
    ensures var w := r.Last();
      && Rid in w.requests && w.requests[Rid].pc.Freezing? && w.requests[Rid].user == "u"
      && w.deliveries == map[] && w.books == AfterDeposit(EmptyBooks, "u", 1)
  {
    r := PublishedAlone(c);
    ExtendIsRun(c, r, MakeDeposit("u", 1));
    r := Extend(c, r, MakeDeposit("u", 1));
    r := OneMove(c, r, Rid, Register);
    r := OneMove(c, r, Rid, Resolve(Some(1)));
  }

  /** So there are runs on which the books do not add up. */
  lemma BooksComeApart(c: Config) returns (r: Run)
    ensures IsRun(c, r) && !Balanced(r.Last().books)
  {
    var r0 := AboutToFreeze(c);
    r := FailedFreezeIsRefunded(c, r0, Rid, 0);
    var q, b := r0.Last().requests[Rid], r0.Last().books;
    EmptyIsBalanced();
    DepositKeepsBalanced(EmptyBooks, "u", 1);
    assert AccountAgrees(b, "u");
    UnfundedRefund(b, "u", Rid, q.estimatedGP);
  }

  // ---- a context that ends while GP is frozen ----

  /** The context of one more request ends now. */
  function EndNow(ended: seq<set<string>>, rid: string): seq<set<string>>
    requires ended != []
  {
    ended[..|ended| - 1] + [ended[|ended| - 1] + {rid}]
  }

  lemma ContextEnds(r: Run, ended: seq<set<string>>, rid: string)
    requires Contexts(r, ended)
    ensures Contexts(r, EndNow(ended, rid))
  {
    forall i | 0 <= i < |r.steps| ensures HeedsAt(r, EndNow(ended, rid), i) {
      assert HeedsAt(r, ended, i);
    }
  }

  /** One move more under the same contexts. */
  lemma MoveUnder(c: Config, r: Run, ended: seq<set<string>>, rid: string, move: Move)
    returns (r': Run, ended': seq<set<string>>)
    requires IsRun(c, r) && Contexts(r, ended) && Enabled(r.Last(), rid, move)
    requires rid in ended[|r.steps|] && Heeds(move, true)
    ensures IsRun(c, r') && Contexts(r', ended') && r'.steps == r.steps + [Act(rid, move)]
    ensures r.states <= r'.states && rid in ended'[|r'.steps|] && ended' == ended + [ended[|r.steps|]]
    ensures rid in r'.Last().requests && r'.Last().requests[rid] == Moved(r.Last(), rid, move)
    ensures !move.NotifyRejected? ==> r'.Last().deliveries == r.Last().deliveries
  {
    ExtendIsRun(c, r, Act(rid, move));
    r' := Extend(c, r, Act(rid, move));
    ended' := ended + [ended[|r.steps|]];
    AdvanceParts(r.Last(), rid, move);
    forall i | 0 <= i < |r'.steps| ensures HeedsAt(r', ended', i) {
      if i < |r.steps| { assert HeedsAt(r, ended, i); }
    }
  }

  ghost predicate AtSelect(w: World, rid: string) {
    rid in w.requests && w.requests[rid].pc.Awaiting? && w.requests[rid].created
  }

  /** In any run, a creator that is waiting has only to be cancelled to lose its GP. */
  lemma CancellingStrands(c: Config, r: Run, ended: seq<set<string>>, rid: string)
    returns (r': Run, ended': seq<set<string>>)
    requires IsRun(c, r) && Contexts(r, ended) && AtSelect(r.Last(), rid)
    ensures IsRun(c, r') && Contexts(r', ended') && r.steps <= r'.steps && Stuck(r'.Last(), rid)
  {
    CreatorIsAccountedFor(c, r, rid);
    ContextEnds(r, ended, rid);
    ended' := EndNow(ended, rid);
    r', ended' := MoveUnder(c, r, ended', rid, Cancel);
    r', ended' := MoveUnder(c, r', ended', rid, RefundEstimate(false));
    GivingUpStrands(c, r', ended', |r.steps|, rid);
  }

  /** And so has a request that has just frozen its estimate, before it could announce the task. */
  lemma SetupCutShortStrands(c: Config, r: Run, ended: seq<set<string>>, rid: string, did: nat)
    returns (r': Run, ended': seq<set<string>>)
    requires IsRun(c, r) && Contexts(r, ended) && did !in r.Last().deliveries
    requires rid in r.Last().requests && r.Last().requests[rid].pc.Costing?
    ensures IsRun(c, r') && Contexts(r', ended') && r.steps <= r'.steps && Stuck(r'.Last(), rid)
    ensures r'.Last().requests[rid].pc == Leaving(ErrorReply)
  {
    ContextEnds(r, ended, rid);
    ended' := EndNow(ended, rid);
    r', ended' := MoveUnder(c, r, ended', rid, Cost(false, false));
    r', ended' := MoveUnder(c, r', ended', rid, Move.Reject(false));
    r', ended' := MoveUnder(c, r', ended', rid, NotifyRejected(did));
    r' := RepayRefused(c, r', ended', rid);
    ended' := ended' + [ended'[|ended'| - 1]];
  }

  lemma RepayRefused(c: Config, r: Run, ended: seq<set<string>>, rid: string) returns (r': Run)
    requires IsRun(c, r) && Contexts(r, ended) && rid in ended[|r.steps|]
    requires rid in r.Last().requests && r.Last().requests[rid].pc == Repaying(CostFailed)
    ensures IsRun(c, r') && Contexts(r', ended + [ended[|r.steps|]]) && r'.steps == r.steps + [Act(rid, Repay(false))]
    ensures Stuck(r'.Last(), rid) && r'.Last().requests[rid].pc == Leaving(ErrorReply)
  {
    var ended': seq<set<string>>;
    r', ended' := MoveUnder(c, r, ended, rid, Repay(false));
    assert FailedAt(r', |r.steps|, rid);
    FrozenForeverIff(c, r', rid);
  }
}
