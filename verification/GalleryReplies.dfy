/**
 * What a request answers and why, told from the run. The reply of a request that is over is what its one
 * deciding event makes of it, whether it is charged follows from that reply, what waiters hear is what the
 * node reported as far as Redis accepted it, and nobody waits for a task that was not paid for and announced.
 */
module GalleryReplies {
  import opened TaskStore
  import opened History
  import opened Ledger
  import opened GalleryMachine
  import opened GalleryTruth
  import opened GalleryMoney
  import opened GalleryBooks
  import opened GalleryAccounts
  import opened GalleryReleases
  import Theorems = GalleryTheorems
  import Wakeup = GalleryWakeup

  // ---- the deciding event ----

  /** What a result decides: the URL, at the estimate for the creator and for nothing else, or an error. */
  function Verdict(q: Request, x: TaskResult): Reply {
    if !x.success then ErrorReply else DoneReply(if q.created then q.estimatedGP else 0, x.url)
  }

  /** The move that decides a request's reply: giving up its setup, its result, its timer, or its context. */
  function Decision(q: Request, move: Move): Option<Reply> {
    match move
    case Reject(_) => Some(ErrorReply)
    case Receive => if q.inbox.Some? then Some(Verdict(q, q.inbox.value)) else None
    case Timeout => Some(ErrorReply)
    case Cancel => Some(CancelReply)
    case _ => None
  }

  function DecidedNext(w: World, s: Step, rid: string, d: Option<Reply>): Option<Reply> {
    if s.Act? && s.rid == rid && Enabled(w, rid, s.move) && Decision(w.requests[rid], s.move).Some?
    then Decision(w.requests[rid], s.move) else d
  }

  ghost function Decided(r: Run, n: nat, rid: string): Option<Reply>
    requires n < |r.states| == |r.steps| + 1
  {
    if n == 0 then None else DecidedNext(r.states[n - 1], r.steps[n - 1], rid, Decided(r, n - 1, rid))
  }

  /** From the deciding event on, a request is on its way to that very reply. */
  predicate OnItsWay(r: Request, d: Option<Reply>) {
    match r.pc
    case Notifying(_) => d == Some(ErrorReply)
    case Repaying(_) => d == Some(ErrorReply)
    case Settling(x) => r.created && d == Some(DoneReply(r.estimatedGP, x.url))
    case Refunding(reply) => d == Some(reply)
    case Leaving(reply) => d == Some(reply)
    case Gone(reply) => d == Some(reply)
    case _ => d == None
  }

  predicate WayTrue(w: World, rid: string, d: Option<Reply>) {
    if rid in w.requests then OnItsWay(w.requests[rid], d) else d == None
  }

  lemma MovedOnItsWay(w: World, rid: string, move: Move, d: Option<Reply>)
    requires Enabled(w, rid, move) && OnItsWay(w.requests[rid], d)
    ensures OnItsWay(Moved(w, rid, move), DecidedNext(w, Act(rid, move), rid, d))
  {
  }

  lemma NextOnItsWay(c: Config, w: World, s: Step, rid: string, d: Option<Reply>)
    requires WayTrue(w, rid, d)
    ensures WayTrue(Next(c, w, s), rid, DecidedNext(w, s, rid, d))
  {
    if s.Act? && s.rid == rid {
      if Enabled(w, rid, s.move) {
        AdvanceParts(w, rid, s.move);
        MovedOnItsWay(w, rid, s.move, d);
      }
    } else {
      OthersLeaveRequest(w, s, rid);
    }
  }

  ghost predicate WayAt(r: Run, n: nat, rid: string)
    requires n < |r.states| == |r.steps| + 1
  {
    forall d {:trigger WayTrue(r.states[n], rid, d)} :: d == Decided(r, n, rid) ==> WayTrue(r.states[n], rid, d)
  }

  lemma {:induction false} RepliesAreDecided(c: Config, r: Run, n: nat, rid: string)
    requires IsRun(c, r) && n < |r.states|
    ensures WayAt(r, n, rid)
    decreases n
  {
    if n > 0 {
      RepliesAreDecided(c, r, n - 1, rid);
      assert WayTrue(r.states[n - 1], rid, Decided(r, n - 1, rid));
      assert StepAt(c, r, n - 1);
      NextOnItsWay(c, r.states[n - 1], r.steps[n - 1], rid, Decided(r, n - 1, rid));
    }
  }

  /**
   * In every run the reply of a request that is over is the one its deciding event made: the URL of the result
   * it received if that was a success, at the estimate if it created the task and free if not; an error if its
   * setup failed, its result was a failure or its timer fired; the end of its context if that was what it saw.
   */
  lemma ReplyFollows(c: Config, r: Run, rid: string)
    requires IsRun(c, r) && rid in r.Last().requests && Ended(r.Last().requests[rid].pc)
    ensures Decided(r, |r.steps|, rid) == Some(r.Last().requests[rid].pc.reply)
  {
    RepliesAreDecided(c, r, |r.steps|, rid);
    assert WayTrue(r.Last(), rid, Decided(r, |r.steps|, rid));
  }

  // ---- who is charged ----

  /** A repaid request is over and answers with no URL; a creator that answers with one had frozen its estimate. */
  predicate ChargeFits(h: map<string, Hold>, requests: map<string, Request>, rid: string) {
    && (rid in h && h[rid].Repaid? ==>
          rid in requests && Ended(requests[rid].pc) && !requests[rid].pc.reply.DoneReply?)
    && (rid in requests && requests[rid].created && Ended(requests[rid].pc) && requests[rid].pc.reply.DoneReply? ==>
          rid in h)
  }

  /** A release, or its failure, fits the reply it goes with. */
  lemma ReleaseFitsReply(log: seq<Event>, w: World, rid: string, move: Move, h: map<string, Hold>, x: Hold)
    requires Enabled(w, rid, move) && (move.Settle? || move.RefundEstimate? || move.Repay?)
    requires IdentityTrue(log, rid, w.requests[rid]) && AccountedFor(h, rid, w.requests[rid])
    requires x.Repaid? <==> !move.Settle?
    ensures ChargeFits(h, w.requests[rid := Moved(w, rid, move)], rid)
    ensures ChargeFits(h[rid := x], w.requests[rid := Moved(w, rid, move)], rid)
  {
  }

  lemma OtherMoveFits(log: seq<Event>, w: World, rid: string, move: Move, h: map<string, Hold>, held: Hold)
    requires Enabled(w, rid, move) && !move.Settle? && !move.RefundEstimate? && !move.Repay? && held.Held?
    requires IdentityTrue(log, rid, w.requests[rid]) && AccountedFor(h, rid, w.requests[rid])
    requires ChargeFits(h, w.requests, rid)
    ensures ChargeFits(h, w.requests[rid := Moved(w, rid, move)], rid)
    ensures move.FreezeEstimate? ==> ChargeFits(h[rid := held], w.requests[rid := Moved(w, rid, move)], rid)
  {
  }

  lemma SettleFits(log: seq<Event>, w: World, rid: string, ok: bool)
    requires ReadyToPay(log, w, rid, Move.Settle(ok)) && ChargeFits(Holds(w.books.txs), w.requests, rid)
    ensures ChargeFits(Holds(Paid(w, rid, Move.Settle(ok)).txs), w.requests[rid := Moved(w, rid, Move.Settle(ok))], rid)
  {
    var r := w.requests[rid];
    SettleHolds(w.books, r.user, r.trace, r.estimatedGP);
    ReleaseFitsReply(log, w, rid, Move.Settle(ok), Holds(w.books.txs), Charged(r.user, r.estimatedGP));
  }

  lemma RefundFits(log: seq<Event>, w: World, rid: string, ok: bool)
    requires ReadyToPay(log, w, rid, RefundEstimate(ok)) && ChargeFits(Holds(w.books.txs), w.requests, rid)
    ensures ChargeFits(Holds(Paid(w, rid, RefundEstimate(ok)).txs),
                       w.requests[rid := Moved(w, rid, RefundEstimate(ok))], rid)
  {
    var r := w.requests[rid];
    RefundHolds(w.books, r.user, r.trace, r.estimatedGP);
    ReleaseFitsReply(log, w, rid, RefundEstimate(ok), Holds(w.books.txs), Repaid(r.user, r.estimatedGP));
  }

  lemma RepayFits(log: seq<Event>, w: World, rid: string, ok: bool)
    requires ReadyToPay(log, w, rid, Repay(ok)) && ChargeFits(Holds(w.books.txs), w.requests, rid)
    ensures ChargeFits(Holds(Paid(w, rid, Repay(ok)).txs), w.requests[rid := Moved(w, rid, Repay(ok))], rid)
  {
    var r := w.requests[rid];
    RefundHolds(w.books, r.user, r.trace, r.estimatedGP);
    ReleaseFitsReply(log, w, rid, Repay(ok), Holds(w.books.txs), Repaid(r.user, r.estimatedGP));
  }

  lemma FreezeFits(log: seq<Event>, w: World, rid: string, ok: bool)
    requires ReadyToPay(log, w, rid, FreezeEstimate(ok)) && ChargeFits(Holds(w.books.txs), w.requests, rid)
    ensures ChargeFits(Holds(Paid(w, rid, FreezeEstimate(ok)).txs),
                       w.requests[rid := Moved(w, rid, FreezeEstimate(ok))], rid)
  {
    var r := w.requests[rid];
    FreezeHolds(w.books, r.user, r.trace, r.estimatedGP);
    OtherMoveFits(log, w, rid, FreezeEstimate(ok), Holds(w.books.txs), Held(r.user, r.estimatedGP));
  }

  lemma OwnMoveFits(log: seq<Event>, w: World, rid: string, move: Move)
    requires ReadyToPay(log, w, rid, move) && ChargeFits(Holds(w.books.txs), w.requests, rid)
    ensures ChargeFits(Holds(Paid(w, rid, move).txs), w.requests[rid := Moved(w, rid, move)], rid)
  {
    match move
    case Settle(ok) => SettleFits(log, w, rid, ok);
    case RefundEstimate(ok) => RefundFits(log, w, rid, ok);
    case Repay(ok) => RepayFits(log, w, rid, ok);
    case FreezeEstimate(ok) => FreezeFits(log, w, rid, ok);
    case _ =>
      OtherMovesPayNothing(w, rid, move);
      OtherMoveFits(log, w, rid, move, Holds(w.books.txs), Held("", 0));
  }

  lemma OwnActFits(c: Config, w: World, rid: string, move: Move)
    requires Right(c, w) && ChargeFits(Holds(w.books.txs), w.requests, rid) && Enabled(w, rid, move)
    ensures var w' := Locally(w, Act(rid, move)); ChargeFits(Holds(w'.books.txs), w'.requests, rid)
  {
    MoverIsReady(c, w, rid, move);
    AdvanceParts(w, rid, move);
    OwnMoveFits(w.sched.log, w, rid, move);
  }

  lemma ForeignActFits(c: Config, w: World, actor: string, move: Move, rid: string)
    requires Right(c, w) && ChargeFits(Holds(w.books.txs), w.requests, rid) && Enabled(w, actor, move) && actor != rid
    ensures var w' := Locally(w, Act(actor, move)); ChargeFits(Holds(w'.books.txs), w'.requests, rid)
  {
    MoverIsReady(c, w, actor, move);
    EveryMoveAccounted(w.sched.log, w, actor, move);
    SameFit(Holds(w.books.txs), Holds(Paid(w, actor, move).txs), w.requests, Moved(w, actor, move), actor, rid);
    AdvanceParts(w, actor, move);
  }

  lemma SameFit(h: map<string, Hold>, h': map<string, Hold>, requests: map<string, Request>, r: Request,
                actor: string, rid: string)
    requires ChargeFits(h, requests, rid) && OnlyTrace(h, h', actor) && actor != rid
    ensures ChargeFits(h', requests[actor := r], rid)
  {
  }

  lemma OtherStepFits(w: World, s: Step, rid: string)
    requires Funded(w.books) && ChargeFits(Holds(w.books.txs), w.requests, rid)
    requires s.Act? ==> !Enabled(w, s.rid, s.move)
    ensures var w' := Locally(w, s); ChargeFits(Holds(w'.books.txs), w'.requests, rid)
  {
    BooksAfter(w, s);
    if !s.Act? {
      OthersLeaveRequest(w, s, rid);
      if s.MakeDeposit? { DepositHolds(w.books, s.user, s.amount); }
    }
  }

  lemma NextFits(c: Config, w: World, s: Step, rid: string, w': World)
    requires Right(c, w) && Fits(w, rid) && w' == Next(c, w, s)
    ensures Fits(w', rid)
  {
    assert w'.books == Locally(w, s).books && w'.requests == Locally(w, s).requests;
    if !s.Act? || !Enabled(w, s.rid, s.move) { OtherStepFits(w, s, rid); }
    else if s.rid == rid { OwnActFits(c, w, rid, s.move); }
    else { ForeignActFits(c, w, s.rid, s.move, rid); }
  }

  ghost predicate Fits(w: World, rid: string) {
    ChargeFits(Holds(w.books.txs), w.requests, rid)
  }

  lemma {:induction false} ChargesFit(c: Config, r: Run, n: nat, rid: string)
    requires IsRun(c, r) && n < |r.states|
    ensures Fits(r.states[n], rid)
    decreases n
  {
    if n > 0 {
      ChargesFit(c, r, n - 1, rid);
      ChargeFitsNext(c, r, n, rid);
    }
  }

  lemma ChargeFitsNext(c: Config, r: Run, n: nat, rid: string)
    requires IsRun(c, r) && 0 < n < |r.states|
    requires Fits(r.states[n - 1], rid)
    ensures Fits(r.states[n], rid)
  {
    RunsAreRight(c, r, n - 1);
    assert StepAt(c, r, n - 1);
    NextFits(c, r.states[n - 1], r.steps[n - 1], rid, r.states[n]);
  }

  /**
   * In every run, of a creator that is over and whose GP is not left frozen: it was charged its estimate iff
   * it answers with a URL. (It has no charge if it answers otherwise, and no refund if it answers so.)
   */
  lemma ChargedIffServed(c: Config, r: Run, rid: string)
    requires IsRun(c, r) && rid in r.Last().requests && r.Last().requests[rid].created
    requires Ended(r.Last().requests[rid].pc) && !Stuck(r.Last(), rid)
    ensures var w := r.Last(); var q := w.requests[rid];
      LinesOf(w.books.txs, rid) == Theorems.ChargeLines(q.user, q.estimatedGP) <==> q.pc.reply.DoneReply?
  {
    var w := r.Last();
    var h := Holds(w.books.txs);
    RunsAreRight(c, r, |r.steps|);
    RightSees(c, w, rid);
    RunsKeepLines(c, r, |r.steps|, rid);
    ChargesFit(c, r, |r.steps|, rid);
  }

  // ---- what handlers pass on ----

  /** What a node reported, and whether the completion it asked for went through. */
  datatype Filing = Filing(trace: string, node: string, result: TaskResult, accepted: bool)

  function FiledNext(w: World, s: Step, hid: nat, f: Option<Filing>, logged: bool): Option<Filing> {
    if s.Report? && s.hid == hid && hid !in w.handlers then Some(Filing(s.trace, s.node, s.result, false))
    else if s.HandlerComplete? && s.hid == hid && f.Some? && logged then Some(f.value.(accepted := true))
    else f
  }

  /** The latest report under this handler, accepted when its completion put an entry on the log. */
  ghost function Filed(r: Run, n: nat, hid: nat): Option<Filing>
    requires n < |r.states| == |r.steps| + 1
  {
    if n == 0 then None
    else FiledNext(r.states[n - 1], r.steps[n - 1], hid, Filed(r, n - 1, hid),
                   r.states[n].sched.log != r.states[n - 1].sched.log)
  }

  /** A report that can complete a task. */
  predicate Usable(x: TaskResult) {
    x.success && x.url != ""
  }

  /** Handlers carry what was filed; what they pass on is a success iff the completion was accepted. */
  predicate Carries(h: Handler, f: Option<Filing>) {
    && f.Some? && h.trace == f.value.trace
    && match h
       case Completing(_, node, x) => node == f.value.node && x == f.value.result && Usable(x) && !f.value.accepted
       case Failing(_, node, x) =>
         node == f.value.node && x == f.value.result.(success := false) && !f.value.accepted
       case Reporting(_, x) => x == f.value.result.(success := f.value.accepted)
  }

  predicate HandlerCarries(w: World, hid: nat, f: Option<Filing>) {
    hid in w.handlers ==> Carries(w.handlers[hid], f)
  }

  lemma OthersLeaveHandlers(w: World, s: Step)
    requires !s.Report? && !s.HandlerComplete? && !s.HandlerFail? && !s.HandlerNotify?
    ensures Locally(w, s).handlers == w.handlers
  {
    if s.Act? {
      if Enabled(w, s.rid, s.move) { Wakeup.MoveKeepsHandlers(w, s.rid, s.move); }
    } else if s.Deliver? {
      DeliveryLeavesHandlers(w, s.did);
    }
  }

  lemma DeliveryLeavesHandlers(w: World, did: nat)
    ensures Locally(w, Deliver(did)).handlers == w.handlers
  {
  }

  /** The completion of a handler is logged iff the reply is OK. */
  lemma CompletionLogs(c: Config, w: World, hid: nat)
    requires hid in w.handlers && w.handlers[hid].Completing?
    ensures var h := w.handlers[hid];
      Next(c, w, HandlerComplete(hid)).sched.log != w.sched.log
      <==> CompleteReplyFor(w.sched.store, h.trace, h.node) == CompleteOk
  {
  }

  lemma ReportCarries(w: World, s: Step, hid: nat, f: Option<Filing>)
    requires HandlerCarries(w, hid, f) && s.Report?
    ensures HandlerCarries(Locally(w, s), hid, FiledNext(w, s, hid, f, false))
  {
  }

  predicate Completes(w: World, h: Handler)
    requires h.Completing?
  {
    CompleteReplyFor(w.sched.store, h.trace, h.node) == CompleteOk
  }

  lemma CompleteCarries(w: World, s: Step, hid: nat, f: Option<Filing>)
    requires HandlerCarries(w, hid, f) && s.HandlerComplete?
    ensures s.hid in w.handlers && w.handlers[s.hid].Completing? ==>
              HandlerCarries(Locally(w, s), hid, FiledNext(w, s, hid, f, Completes(w, w.handlers[s.hid])))
    ensures !(s.hid in w.handlers && w.handlers[s.hid].Completing?) ==> Locally(w, s) == w
  {
  }

  lemma FinishCarries(w: World, s: Step, hid: nat, f: Option<Filing>)
    requires HandlerCarries(w, hid, f) && (s.HandlerFail? || s.HandlerNotify?)
    ensures HandlerCarries(Locally(w, s), hid, f)
  {
  }

  lemma HandlerStepCarries(c: Config, w: World, s: Step, hid: nat, f: Option<Filing>)
    requires HandlerCarries(w, hid, f) && (s.Report? || s.HandlerComplete? || s.HandlerFail? || s.HandlerNotify?)
    ensures var w' := Next(c, w, s);
      HandlerCarries(w', hid, FiledNext(w, s, hid, f, w'.sched.log != w.sched.log))
  {
    if s.HandlerComplete? {
      if s.hid in w.handlers && w.handlers[s.hid].Completing? {
        CompletionLogs(c, w, s.hid);
        CompleteCarries(w, s, hid, f);
      }
    } else if s.Report? {
      ReportCarries(w, s, hid, f);
    } else {
      FinishCarries(w, s, hid, f);
    }
  }

  lemma NextCarries(c: Config, w: World, s: Step, hid: nat, f: Option<Filing>, w': World)
    requires HandlerCarries(w, hid, f) && w' == Next(c, w, s)
    ensures HandlerCarries(w', hid, FiledNext(w, s, hid, f, w'.sched.log != w.sched.log))
  {
    if s.Report? || s.HandlerComplete? || s.HandlerFail? || s.HandlerNotify? {
      HandlerStepCarries(c, w, s, hid, f);
    } else {
      OthersLeaveHandlers(w, s);
    }
  }

  ghost predicate CarriesAt(r: Run, n: nat, hid: nat)
    requires n < |r.states| == |r.steps| + 1
  {
    forall f {:trigger HandlerCarries(r.states[n], hid, f)} ::
      f == Filed(r, n, hid) ==> HandlerCarries(r.states[n], hid, f)
  }

  lemma {:induction false} HandlersCarryReports(c: Config, r: Run, n: nat, hid: nat)
    requires IsRun(c, r) && n < |r.states|
    ensures CarriesAt(r, n, hid)
    decreases n
  {
    if n > 0 {
      HandlersCarryReports(c, r, n - 1, hid);
      assert HandlerCarries(r.states[n - 1], hid, Filed(r, n - 1, hid));
      assert StepAt(c, r, n - 1);
      NextCarries(c, r.states[n - 1], r.steps[n - 1], hid, Filed(r, n - 1, hid), r.states[n]);
    }
  }

  /**
   * In every run, what a handler sends to the waiters of its trace is the report it was given, URL and all,
   * marked a success iff the completion it asked for was accepted; and it sends it to all who then wait.
   */
  lemma WaitersAreToldTheReport(c: Config, r: Run, hid: nat, did: nat)
    requires IsRun(c, r) && hid in r.Last().handlers && r.Last().handlers[hid].Reporting? && did !in r.Last().deliveries
    ensures var w, w' := r.Last(), Next(c, r.Last(), HandlerNotify(hid, did)); var f := Filed(r, |r.steps|, hid);
      && f.Some? && did in w'.deliveries
      && w'.deliveries[did] == Delivery(f.value.trace, WaitersOf(w.waiters, f.value.trace),
                                        f.value.result.(success := f.value.accepted))
  {
    HandlersCarryReports(c, r, |r.steps|, hid);
    assert HandlerCarries(r.Last(), hid, Filed(r, |r.steps|, hid));
  }

  // ---- what reaches a request ----

  /** This step of a delivery puts its result into the channel of the request. */
  predicate Hands(w: World, s: Step, rid: string) {
    && s.Deliver? && s.did in w.deliveries && w.deliveries[s.did].chs != [] && w.deliveries[s.did].chs[0] == rid
    && rid in w.requests && w.requests[rid].inbox.None?
  }

  function HandedNext(w: World, s: Step, rid: string, x: Option<TaskResult>): Option<TaskResult> {
    if Hands(w, s, rid) then Some(w.deliveries[s.did].result) else x
  }

  ghost function Handed(r: Run, n: nat, rid: string): Option<TaskResult>
    requires n < |r.states| == |r.steps| + 1
  {
    if n == 0 then None else HandedNext(r.states[n - 1], r.steps[n - 1], rid, Handed(r, n - 1, rid))
  }

  predicate InboxFits(w: World, rid: string, x: Option<TaskResult>) {
    rid in w.requests && w.requests[rid].inbox.Some? ==> w.requests[rid].inbox == x
  }

  lemma MovesFillNothing(w: World, rid: string, move: Move)
    requires Enabled(w, rid, move)
    ensures Moved(w, rid, move).inbox == if move.Receive? then None else w.requests[rid].inbox
  {
  }

  lemma DeliveryFills(w: World, did: nat, rid: string)
    requires rid in w.requests
    ensures var w' := Locally(w, Deliver(did));
      && rid in w'.requests
      && w'.requests[rid].inbox ==
         if Hands(w, Deliver(did), rid) then Some(w.deliveries[did].result) else w.requests[rid].inbox
  {
  }

  lemma OthersFillNothing(w: World, s: Step, rid: string)
    requires !s.Deliver? && (s.Act? ==> s.rid != rid) && rid in Locally(w, s).requests
    ensures Locally(w, s).requests[rid].inbox == if rid in w.requests then w.requests[rid].inbox else None
  {
    if s.Act? && Enabled(w, s.rid, s.move) { AdvanceParts(w, s.rid, s.move); }
  }

  lemma NextInboxFits(c: Config, w: World, s: Step, rid: string, x: Option<TaskResult>)
    requires InboxFits(w, rid, x)
    ensures InboxFits(Next(c, w, s), rid, HandedNext(w, s, rid, x))
  {
    if s.Act? && s.rid == rid {
      if Enabled(w, rid, s.move) {
        AdvanceParts(w, rid, s.move);
        MovesFillNothing(w, rid, s.move);
      }
    } else if s.Deliver? {
      OthersLeaveRequest(w, s, rid);
      if rid in w.requests { DeliveryFills(w, s.did, rid); }
    } else if rid in Locally(w, s).requests {
      OthersFillNothing(w, s, rid);
    }
  }

  /** In every run a channel holds the result of the delivery that last reached it; a request decides on no other. */
  lemma {:induction false} InboxesHoldDeliveries(c: Config, r: Run, n: nat, rid: string)
    requires IsRun(c, r) && n < |r.states|
    ensures InboxFits(r.states[n], rid, Handed(r, n, rid))
    decreases n
  {
    if n > 0 {
      InboxesHoldDeliveries(c, r, n - 1, rid);
      assert StepAt(c, r, n - 1);
      NextInboxFits(c, r.states[n - 1], r.steps[n - 1], rid, Handed(r, n - 1, rid));
    }
  }

  // ---- nobody waits in vain ----

  /** A creator at its select has announced its task; what is announced was paid for by its creator. */
  predicate AnnouncedFirst(w: World, rid: string) {
    && (rid in w.requests && w.requests[rid].created && w.requests[rid].pc.Awaiting? ==> rid in w.announced)
    && (rid in w.announced ==> rid in Holds(w.books.txs))
  }

  lemma AnnouncedAfter(w: World, actor: string, move: Move)
    requires Enabled(w, actor, move)
    ensures Advance(w, actor, move).announced ==
            if move == Announce(true) then w.announced + {w.requests[actor].trace} else w.announced
  {
  }

  /** Only announcing brings a creator to its select. */
  lemma OnlyAnnouncingWaits(w: World, actor: string, move: Move)
    requires Enabled(w, actor, move)
    ensures Moved(w, actor, move).created && Moved(w, actor, move).pc.Awaiting? ==> move == Announce(true)
  {
  }

  lemma AnnouncerHolds(log: seq<Event>, w: World, actor: string)
    requires actor in w.requests && w.requests[actor].pc.Announcing?
    requires IdentityTrue(log, actor, w.requests[actor]) && AccountedFor(Holds(w.books.txs), actor, w.requests[actor])
    ensures w.requests[actor].trace == actor && actor in Holds(w.books.txs)
  {
  }

  lemma ActAnnounces(c: Config, w: World, actor: string, move: Move, rid: string)
    requires Right(c, w) && AnnouncedFirst(w, rid) && Enabled(w, actor, move)
    ensures AnnouncedFirst(Advance(w, actor, move), rid)
  {
    RightSees(c, w, actor);
    if move.Announce? { AnnouncerHolds(w.sched.log, w, actor); }
    AnnouncedParts(w, actor, move, rid);
    HoldsStay(w, actor, move, rid);
  }

  lemma AnnouncedParts(w: World, actor: string, move: Move, rid: string)
    requires Enabled(w, actor, move) && AnnouncedFirst(w, rid)
    requires move.Announce? ==> w.requests[actor].trace == actor
    ensures var w' := Advance(w, actor, move);
      && w'.books == Paid(w, actor, move)
      && (rid in w'.requests && w'.requests[rid].created && w'.requests[rid].pc.Awaiting? ==> rid in w'.announced)
      && (rid in w'.announced ==> rid in w.announced || (rid == actor && move.Announce?))
  {
    AnnouncedAfter(w, actor, move);
    OnlyAnnouncingWaits(w, actor, move);
    AdvanceParts(w, actor, move);
  }

  /** No move takes a hold away. */
  lemma HoldsStay(w: World, actor: string, move: Move, rid: string)
    requires Enabled(w, actor, move) && Funded(w.books)
    ensures rid in Holds(w.books.txs) ==> rid in Holds(Paid(w, actor, move).txs)
  {
    var r := w.requests[actor];
    match move
    case FreezeEstimate(_) => FreezeHolds(w.books, r.user, r.trace, r.estimatedGP);
    case Settle(_) => SettleHolds(w.books, r.user, r.trace, r.estimatedGP);
    case RefundEstimate(_) => RefundHolds(w.books, r.user, r.trace, r.estimatedGP);
    case Repay(_) => RefundHolds(w.books, r.user, r.trace, r.estimatedGP);
    case _ => OtherMovesPayNothing(w, actor, move);
  }

  lemma OtherStepAnnounces(w: World, s: Step, rid: string)
    requires Funded(w.books) && AnnouncedFirst(w, rid) && (s.Act? ==> !Enabled(w, s.rid, s.move))
    ensures AnnouncedFirst(Locally(w, s), rid)
  {
    BooksAfter(w, s);
    if !s.Act? {
      OthersLeaveRequest(w, s, rid);
      if s.MakeDeposit? { DepositHolds(w.books, s.user, s.amount); }
    }
  }

  lemma {:induction false} CreatorsWaitForAnnounced(c: Config, r: Run, n: nat, rid: string)
    requires IsRun(c, r) && n < |r.states|
    ensures AnnouncedFirst(r.states[n], rid)
    decreases n
  {
    if n > 0 {
      CreatorsWaitForAnnounced(c, r, n - 1, rid);
      AnnouncedNext(c, r, n, rid);
    }
  }

  lemma AnnouncedNext(c: Config, r: Run, n: nat, rid: string)
    requires IsRun(c, r) && 0 < n < |r.states| && AnnouncedFirst(r.states[n - 1], rid)
    ensures AnnouncedFirst(r.states[n], rid)
  {
    var w, s := r.states[n - 1], r.steps[n - 1];
    RunsAreRight(c, r, n - 1);
    assert StepAt(c, r, n - 1);
    assert AnnouncedFirst(Locally(w, s), rid) by {
      if s.Act? && Enabled(w, s.rid, s.move) { ActAnnounces(c, w, s.rid, s.move, rid); }
      else { OtherStepAnnounces(w, s, rid); }
    }
  }
}
