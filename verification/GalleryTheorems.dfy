/** The server's guarantees over every run of every number of requests, nodes, deliveries and ticks. */
module GalleryTheorems {
  import opened Keys
  import opened TaskStore
  import opened History
  import opened Ledger
  import opened SchedulerTheorems
  import opened GalleryMachine
  import opened GalleryWaiters
  import opened GalleryTruth
  import opened GalleryMoney
  import opened GalleryAccounts
  import opened GalleryWakeup
  import Sched = SchedulerMachine

  /** Redis sees a scheduler run: every scheduler theorem holds of the server's log and store. */
  lemma {:induction false} ServerRunIsSchedulerRun(c: Config, r: Run, n: nat) returns (p: Sched.Run)
    requires IsRun(c, r) && n < |r.states|
    ensures Sched.IsRun(c, p) && p.Last() == r.states[n].sched
  {
    if n == 0 {
      p := Sched.NoSteps;
    } else {
      p := ServerRunIsSchedulerRun(c, r, n - 1);
      assert StepAt(c, r, n - 1);
      var script := ScriptOf(r.states[n - 1], r.steps[n - 1]);
      if script.Some? {
        Sched.ExtendIsRun(c, p, script.value);
        p := Sched.Extend(c, p, script.value);
      }
    }
  }

  /** The archive URL a request answers with, if it does. */
  function AnsweredURL(r: Request): Option<string> {
    match r.pc
    case Hit(url) => Some(url)
    case Gone(reply) => if reply.DoneReply? then Some(reply.url) else None
    case _ => None
  }

  /**
   * Isolation: whatever URL a request answers with, from the cache, its own task or one it collapsed into,
   * was submitted in an accepted completion of a task published for the same user and gallery.
   */
  lemma AnswersStayWithTheirUser(c: Config, r: Run, rid: string)
    requires IsRun(c, r) && rid in r.Last().requests && AnsweredURL(r.Last().requests[rid]).Some?
    ensures var w := r.Last(); var q := w.requests[rid]; var log := w.sched.log;
      exists i, j :: 0 <= i < |log| && 0 <= j < |log|
        && log[i].TaskCompleted? && log[i].url == AnsweredURL(q).value
        && log[j] == TaskCreated(log[i].trace, Slot(q.user, q.gallery))
  {
    RunSeen(c, r, rid);
    var w := r.Last();
    var q, log := w.requests[rid], w.sched.log;
    if q.pc.Gone? { CompletedIsEarned(log, q.trace, SlotOf(q), q.pc.reply.url); }
    var i :| CompletionFor(log, i, SlotOf(q)) && log[i].url == AnsweredURL(q).value;
    var j :| 0 <= j < |log| && log[j] == TaskCreated(log[i].trace, SlotOf(q));
  }

  /** What every run keeps, as seen from one trace. */
  ghost predicate Seen(w: World, t: string) {
    var log, h := w.sched.log, Holds(w.books.txs);
    && Lawful(log)
    && (t in w.requests ==> RequestTrue(log, t, w.requests[t]) && AccountedFor(h, t, w.requests[t]))
    && (t in h ==> HoldOwned(log, w.requests, t, h[t]))
  }

  lemma RunSeen(c: Config, r: Run, t: string)
    requires IsRun(c, r)
    ensures Seen(r.Last(), t)
  {
    RunsAreRight(c, r, |r.steps|);
  }

  /** The lines a request leaves in the ledger when it is charged. */
  function ChargeLines(u: string, gp: int): seq<Line> {
    [Line(u, Freeze, -gp), Line(u, Unfreeze, gp), Line(u, Deduct, -gp)]
  }

  function RefundLines(u: string, gp: int): seq<Line> {
    [Line(u, Freeze, -gp), Line(u, Refund, gp)]
  }

  ghost predicate CompletionLogged(log: seq<Event>, t: string, url: string) {
    exists i :: 0 <= i < |log| && log[i].TaskCompleted? && log[i].trace == t && log[i].url == url
  }

  ghost predicate ReleasedOnce(w: World, t: string, q: Request) {
    var lines := LinesOf(w.books.txs, t);
    && q.created && q.estimatedGP >= 1
    && (lines == [Line(q.user, Freeze, -q.estimatedGP)]
        || lines == RefundLines(q.user, q.estimatedGP)
        || lines == ChargeLines(q.user, q.estimatedGP))
    && (lines == ChargeLines(q.user, q.estimatedGP) ==>
          && Ended(q.pc) && q.pc.reply.DoneReply? && q.pc.reply.gpCost == q.estimatedGP
          && CompletionLogged(w.sched.log, t, q.pc.reply.url))
  }

  /** The one line of a trace whose freeze failed and was refunded all the same. */
  ghost predicate RefundedUnfrozen(w: World, t: string, q: Request) {
    q.created && Ended(q.pc) && LinesOf(w.books.txs, t) == [Line(q.user, Refund, q.estimatedGP)]
  }

  lemma TraceReleasedOnce(w: World, t: string, lone: bool)
    requires Seen(w, t) && LinesFit(w.books.txs, t, lone) && LinesOf(w.books.txs, t) != []
    ensures t in w.requests
    ensures if lone then RefundedUnfrozen(w, t, w.requests[t]) else ReleasedOnce(w, t, w.requests[t])
  {
    var h := Holds(w.books.txs);
    assert h[t].user == w.requests[t].user && h[t].amount == w.requests[t].estimatedGP;
    if h[t].Charged? { var i := CompletedAsEvent(w.sched.log, t, w.requests[t].pc.reply.url); }
  }

  /**
   * All a trace ever puts in the ledger is a freeze, followed by at most one release: a charge or a refund
   * of exactly the frozen amount, to the user of the request that created it. A charge further means that
   * the task's completion was accepted, and that its URL is what the creator answers with. The one exception
   * is a trace whose own failed freeze was refunded: that refund is then its only line.
   */
  lemma OneReleasePerTrace(c: Config, r: Run, t: string)
    requires IsRun(c, r)
    ensures var w := r.Last();
      if UnfundedWithin(r, |r.steps|, t) then t in w.requests && RefundedUnfrozen(w, t, w.requests[t])
      else LinesOf(w.books.txs, t) == [] || (t in w.requests && ReleasedOnce(w, t, w.requests[t]))
  {
    RunSeen(c, r, t);
    RunsKeepLines(c, r, |r.steps|, t);
    if LinesOf(r.Last().books.txs, t) != [] {
      TraceReleasedOnce(r.Last(), t, UnfundedWithin(r, |r.steps|, t));
    }
  }

  /** The user's account replays from the ledger, and what is frozen is what is held, and covered. */
  ghost predicate AddsUp(b: Books, u: string) {
    && AccountOf(b, u).frozen == Outstanding(Holds(b.txs), u)
    && 0 <= AccountOf(b, u).frozen <= AccountOf(b, u).balance
    && Available(b, u) == SumAll(b.txs, u)
  }

  /**
   * Every balance, and every balance_after, is in every run the sum of deposits and deductions; what is
   * frozen and what is available adds up too if no refund of a failed freeze of this very user's commits.
   */
  lemma AccountsAddUp(c: Config, r: Run, u: string)
    requires IsRun(c, r)
    ensures var b := r.Last().books;
      && AccountOf(b, u).balance == SumCash(b.txs, u)
      && (forall j :: 0 <= j < |b.txs| ==> b.txs[j].balanceAfter == SumCash(b.txs[..j + 1], b.txs[j].user))
      && (RefundsFundedFor(r, u) ==> AddsUp(b, u))
  {
    RunsKeepCash(c, r, |r.steps|);
    var b := r.Last().books;
    forall j | 0 <= j < |b.txs| ensures b.txs[j].balanceAfter == SumCash(b.txs[..j + 1], b.txs[j].user) {
      BalanceAfterAt(b.txs, j);
    }
    if RefundsFundedFor(r, u) { FundedAccountsAgree(c, r, |r.steps|, u); }
  }

  /** A request that is about to release what it froze. */
  predicate Releases(q: Request) {
    q.pc.Settling? || q.pc.Refunding? || (q.pc.Repaying? && RefundDue(q) && q.pc.error != FreezeFailed)
  }

  /** The whole estimate is held for the request's own trace, and a settlement follows an accepted completion. */
  ghost predicate HeldForIt(w: World, rid: string, q: Request) {
    && q.created && q.trace == rid && 1 <= q.estimatedGP && q.user in w.books.accounts
    && rid in Holds(w.books.txs) && Holds(w.books.txs)[rid] == Held(q.user, q.estimatedGP)
    && (q.pc.Settling? ==> CompletedAs(w.sched.log, rid, q.pc.result.url))
  }

  lemma ReleaseIsHeld(c: Config, w: World, rid: string)
    requires Right(c, w) && rid in w.requests && Releases(w.requests[rid])
    ensures HeldForIt(w, rid, w.requests[rid])
  {
    var q := w.requests[rid];
    assert RequestTrue(w.sched.log, rid, q) && AccountedFor(Holds(w.books.txs), rid, q);
    if q.pc.Repaying? { RefundGuardIsExact(w.sched.log, Holds(w.books.txs), rid, q); }
    HolderHasAccount(w.books, rid);
  }

  /**
   * Whenever a request settles or refunds, its whole estimate is still held for that very trace, and it
   * settles only a task whose completion was accepted. If no refund of a failed freeze of its user's has
   * committed, the estimate is also covered by what is frozen, so neither "reset to 0" can be reached.
   */
  lemma ReleasesAreCovered(c: Config, r: Run, rid: string)
    requires IsRun(c, r) && rid in r.Last().requests && Releases(r.Last().requests[rid])
    ensures var w := r.Last(); var q := w.requests[rid];
      && HeldForIt(w, rid, q)
      && (RefundsFundedFor(r, q.user) ==> q.estimatedGP <= w.books.accounts[q.user].frozen)
  {
    var w := r.Last();
    RunsAreRight(c, r, |r.steps|);
    ReleaseIsHeld(c, w, rid);
    var q := w.requests[rid];
    if RefundsFundedFor(r, q.user) {
      FundedAccountsAgree(c, r, |r.steps|, q.user);
      AccountedIsSized(w.sched.log, w);
      HeldIsCovered(w.books, q.user, rid, q.estimatedGP);
    }
  }

  /**
   * After a failed setup, the guard on the error and the estimate is right about whether anything is frozen
   * exactly when the failure was not FreezeGP's own for another reason than want of balance.
   */
  lemma SetupRefundsIffFrozen(c: Config, r: Run, rid: string)
    requires IsRun(c, r) && rid in r.Last().requests && r.Last().requests[rid].pc.Repaying?
    ensures var w := r.Last(); var q := w.requests[rid]; var h := Holds(w.books.txs);
      (RefundDue(q) <==> rid in h && h[rid] == Held(q.user, q.estimatedGP)) <==> q.pc.error != FreezeFailed
  {
    RunSeen(c, r, rid);
    var w := r.Last();
    RefundGuardIsExact(w.sched.log, Holds(w.books.txs), rid, w.requests[rid]);
  }

  /**
   * In every run each channel is sent to at most once and no send is ever dropped; a registered request
   * that has heard nothing and has not left is either waiting under its trace or in exactly one delivery.
   */
  lemma EveryWaiterIsReachable(c: Config, r: Run, rid: string)
    requires IsRun(c, r) && rid in r.Last().requests
    ensures var w := r.Last(); var q := w.requests[rid];
      && w.drops == 0 && q.heard <= 1
      && (Registered(q) && !q.pc.Gone? && q.heard == 0 ==>
            WaitingFor(w, rid, q.trace) != exists did :: CarriedBy(w, rid, did))
      && (forall d, e :: CarriedBy(w, rid, d) && CarriedBy(w, rid, e) ==> d == e)
  {
    RunsAreRight(c, r, |r.steps|);
    var w := r.Last();
    assert ChannelWired(w, rid);
    assert WaitingFor(w, rid, w.requests[rid].trace) ==> WaiterWired(w, rid, w.requests[rid].trace);
    forall d, e | CarriedBy(w, rid, d) && CarriedBy(w, rid, e) ensures d == e { assert CargoWired(w, rid, d); }
  }

  /**
   * In any run, exactly when the first Notify of a trace finds a request attached to it: the request must
   * have registered and not yet left. A Notify that comes before Register is lost to it.
   */
  lemma FirstNotifyFindsIff(c: Config, r: Run, rid: string)
    requires IsRun(c, r) && rid in r.Last().requests && r.Last().requests[rid].trace !in r.Last().notified
    ensures var w := r.Last(); var q := w.requests[rid];
      WaitingFor(w, rid, q.trace) <==> Registered(q) && !q.pc.Gone?
  {
    RunsAreRight(c, r, |r.steps|);
    FirstNotifyFinds(r.Last(), rid, r.Last().requests[rid].trace);
  }

  /** The creator of a notified trace has been sent the first result, or is about to be, or has left. */
  ghost predicate HearsFirst(w: World, t: string, q: Request)
    requires t in w.notified
  {
    && (q.pc.Gone? || q.heard == 1 || exists did :: CarriedBy(w, t, did) && w.deliveries[did].result == w.notified[t])
    && (q.inbox.Some? ==> q.inbox.value == w.notified[t])
    && (AnsweredURL(q).Some? ==> w.notified[t].success && AnsweredURL(q).value == w.notified[t].url)
  }

  lemma AwakeCreatorHears(w: World, t: string)
    requires Creator(w, t) && CreatorAwake(w, t) && ChannelWired(w, t) && t in w.notified
    ensures HearsFirst(w, t, w.requests[t])
  {
    if !w.requests[t].pc.Gone? && w.requests[t].heard == 0 {
      var did :| CarriedBy(w, t, did);
    }
  }

  /**
   * No lost wake-up: if nodes report only what was announced, then once a trace has been notified its
   * creator has been sent to, or is about to be, or has left; and a creator that answers with a URL
   * answers with the first result reported for its trace.
   */
  lemma CreatorHearsTheFirstResult(c: Config, r: Run, t: string)
    requires IsRun(c, r) && HonestReports(r)
    requires t in r.Last().notified
    ensures var w := r.Last();
      t in w.requests && w.requests[t].created && HearsFirst(w, t, w.requests[t])
  {
    HonestRunsAreAwake(c, r, |r.steps|);
    var w := r.Last();
    assert Creator(w, t) && CreatorAwake(w, t) && ChannelWired(w, t);
    AwakeCreatorHears(w, t);
  }
}
