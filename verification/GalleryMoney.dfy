/**
 * Who is charged what. A request's place in ParseGallery fixes its trace's state in the ledger, so the
 * amount frozen is charged or refunded at most once, by the request that froze it, and charged only for
 * an accepted completion. The books stay balanced exactly until a refund commits for a freeze that failed.
 */
module GalleryMoney {
  import opened TaskStore
  import opened History
  import opened Ledger
  import opened GalleryMachine
  import opened GalleryTruth

  /** A failed setup that left GP frozen. */
  predicate FailedFrozen(e: SetupError) {
    e.CostFailed? || e.NoNodes?
  }

  predicate NothingFrozen(pc: Pc) {
    match pc
    case Registering => true
    case Resolving => true
    case Freezing => true
    case Rejecting(e) => !FailedFrozen(e)
    case Notifying(e) => !FailedFrozen(e)
    case Repaying(e) => !FailedFrozen(e)
    case _ => false
  }

  predicate FailedWith(pc: Pc, e: SetupError) {
    (pc.Rejecting? || pc.Notifying? || pc.Repaying?) && pc.error == e
  }

  /** What the ledger holds for a request, told from where the request is. */
  ghost predicate AccountedFor(h: map<string, Hold>, rid: string, r: Request) {
    if !r.created then rid !in h && r.estimatedGP == 0
    else
      && 0 <= r.estimatedGP
      && (NothingFrozen(r.pc) ==> rid !in h)
      && (r.pc.Freezing? || FailedWith(r.pc, FreezeFailed) ==> 1 <= r.estimatedGP)
      && (FailedWith(r.pc, Unresolved) || r.pc.Registering? || r.pc.Resolving? ==> r.estimatedGP == 0)
      && (!NothingFrozen(r.pc) && !Ended(r.pc) ==>
            rid in h && h[rid] == Held(r.user, r.estimatedGP) && 1 <= r.estimatedGP)
      && (rid in h ==> HoldFits(h[rid], r))
      && (rid in h && h[rid].Charged? ==> r.pc.reply.DoneReply? && r.pc.reply.gpCost == r.estimatedGP)
  }

  predicate HoldFits(hold: Hold, r: Request) {
    hold.user == r.user && hold.amount == r.estimatedGP && 1 <= r.estimatedGP && !hold.Unfrozen?
  }

  /** The task's completion was accepted. */
  ghost predicate Delivered(log: seq<Event>, t: string) {
    t in Replay(log).traces && Replay(log).traces[t].phase.Done? && Replay(log).traces[t].phase.url.Some?
  }

  ghost predicate HoldOwned(log: seq<Event>, requests: map<string, Request>, t: string, hold: Hold) {
    t in requests && requests[t].created && (hold.Charged? ==> Delivered(log, t))
  }

  /** Each trace's hold fits its request's place; whether the accounts add up as well is a separate matter. */
  ghost predicate Accounted(log: seq<Event>, w: World) {
    var h := Holds(w.books.txs);
    && Funded(w.books)
    && (forall rid :: rid in w.requests ==> AccountedFor(h, rid, w.requests[rid]))
    && (forall t :: t in h ==> HoldOwned(log, w.requests, t, h[t]))
  }

  // ---- one move of one request ----

  /** The ledger changed for this trace at most. */
  ghost predicate OnlyTrace(h: map<string, Hold>, h': map<string, Hold>, t: string) {
    forall u :: u != t ==> (u in h' <==> u in h) && (u in h ==> h'[u] == h[u])
  }

  ghost predicate MoveAccounted(w: World, rid: string, move: Move)
    requires Enabled(w, rid, move)
  {
    var b' := Paid(w, rid, move);
    && Funded(b')
    && OnlyTrace(Holds(w.books.txs), Holds(b'.txs), rid)
    && AccountedFor(Holds(b'.txs), rid, Moved(w, rid, move))
    && (NewlyCharged(Holds(w.books.txs), Holds(b'.txs), rid) ==> move.Settle?)
  }

  ghost predicate NewlyCharged(h: map<string, Hold>, h': map<string, Hold>, t: string) {
    t in h' && h'[t].Charged? && !(t in h && h[t].Charged?)
  }

  /** What the money argument needs to know about the mover. */
  ghost predicate ReadyToPay(log: seq<Event>, w: World, rid: string, move: Move) {
    && Enabled(w, rid, move) && Funded(w.books)
    && IdentityTrue(log, rid, w.requests[rid])
    && AccountedFor(Holds(w.books.txs), rid, w.requests[rid])
  }

  /** The holder of a hold has an account, so its release is not lost for want of a row. */
  lemma HolderHasAccount(b: Books, t: string)
    requires Funded(b) && t in Holds(b.txs)
    ensures Holds(b.txs)[t].user in b.accounts
  {
    HolderIsPosted(b.txs, t);
  }

  lemma FrozenAccounted(log: seq<Event>, w: World, rid: string, answered: bool, h: map<string, Hold>)
    requires Enabled(w, rid, FreezeEstimate(answered))
    requires IdentityTrue(log, rid, w.requests[rid]) && AccountedFor(h, rid, w.requests[rid])
    ensures var r := w.requests[rid]; var held := h[rid := Held(r.user, r.estimatedGP)];
      AccountedFor(if answered && CanFreeze(w.books, r.user, r.estimatedGP) then held else h,
                   rid, Moved(w, rid, FreezeEstimate(answered)))
  {
  }

  lemma FreezeAccounted(log: seq<Event>, w: World, rid: string, answered: bool)
    requires ReadyToPay(log, w, rid, FreezeEstimate(answered))
    ensures MoveAccounted(w, rid, FreezeEstimate(answered))
  {
    var r, h := w.requests[rid], Holds(w.books.txs);
    FreezeHolds(w.books, r.user, rid, r.estimatedGP);
    FrozenAccounted(log, w, rid, answered, h);
  }

  /** A release, whether it goes through or not, leaves the trace in a state that fits the answer. */
  lemma ReleaseFits(log: seq<Event>, w: World, rid: string, move: Move, h: map<string, Hold>)
    requires Enabled(w, rid, move) && (move.Settle? || move.RefundEstimate?)
    requires IdentityTrue(log, rid, w.requests[rid]) && AccountedFor(h, rid, w.requests[rid])
    ensures var r, r' := w.requests[rid], Moved(w, rid, move);
      var released := if move.Settle? then Charged(r.user, r.estimatedGP) else Repaid(r.user, r.estimatedGP);
      AccountedFor(h, rid, r') && AccountedFor(h[rid := released], rid, r')
  {
  }

  lemma SettleAccounted(log: seq<Event>, w: World, rid: string, ok: bool)
    requires ReadyToPay(log, w, rid, Move.Settle(ok))
    ensures MoveAccounted(w, rid, Move.Settle(ok))
  {
    ReleaseFits(log, w, rid, Move.Settle(ok), Holds(w.books.txs));
    SettleHolds(w.books, w.requests[rid].user, rid, w.requests[rid].estimatedGP);
  }

  lemma RefundAccounted(log: seq<Event>, w: World, rid: string, ok: bool)
    requires ReadyToPay(log, w, rid, RefundEstimate(ok))
    ensures MoveAccounted(w, rid, RefundEstimate(ok))
  {
    ReleaseFits(log, w, rid, RefundEstimate(ok), Holds(w.books.txs));
    RefundHolds(w.books, w.requests[rid].user, rid, w.requests[rid].estimatedGP);
  }

  /**
   * The guard "an estimate, and not for want of balance" is right about whether the amount is frozen exactly
   * when the setup did not fail in FreezeGP for another reason.
   */
  lemma RefundGuardIsExact(log: seq<Event>, h: map<string, Hold>, rid: string, r: Request)
    requires IdentityTrue(log, rid, r) && AccountedFor(h, rid, r) && r.pc.Repaying?
    ensures (RefundDue(r) <==> rid in h && h[rid] == Held(r.user, r.estimatedGP)) <==> r.pc.error != FreezeFailed
  {
  }

  lemma RepaymentFits(log: seq<Event>, w: World, rid: string, ok: bool, h: map<string, Hold>)
    requires Enabled(w, rid, Repay(ok))
    requires IdentityTrue(log, rid, w.requests[rid]) && AccountedFor(h, rid, w.requests[rid])
    ensures var r, r' := w.requests[rid], Moved(w, rid, Repay(ok));
      && AccountedFor(h, rid, r')
      && (RefundDue(r) ==> AccountedFor(h[rid := Repaid(r.user, r.estimatedGP)], rid, r'))
  {
  }

  lemma RepayAccounted(log: seq<Event>, w: World, rid: string, ok: bool)
    requires ReadyToPay(log, w, rid, Repay(ok))
    ensures MoveAccounted(w, rid, Repay(ok))
  {
    RepaymentFits(log, w, rid, ok, Holds(w.books.txs));
    RefundHolds(w.books, w.requests[rid].user, rid, w.requests[rid].estimatedGP);
  }

  predicate Pays(move: Move) {
    move.FreezeEstimate? || move.Settle? || move.RefundEstimate? || move.Repay?
  }

  lemma OtherMovesPayNothing(w: World, rid: string, move: Move)
    requires Enabled(w, rid, move) && !Pays(move)
    ensures Paid(w, rid, move) == w.books
  {
  }

  lemma OtherMovesStayAccounted(log: seq<Event>, w: World, rid: string, move: Move, h: map<string, Hold>)
    requires Enabled(w, rid, move) && !Pays(move)
    requires IdentityTrue(log, rid, w.requests[rid]) && AccountedFor(h, rid, w.requests[rid])
    ensures AccountedFor(h, rid, Moved(w, rid, move))
  {
  }

  lemma OtherMoveAccounted(log: seq<Event>, w: World, rid: string, move: Move)
    requires ReadyToPay(log, w, rid, move) && !Pays(move)
    ensures MoveAccounted(w, rid, move)
  {
    OtherMovesPayNothing(w, rid, move);
    OtherMovesStayAccounted(log, w, rid, move, Holds(w.books.txs));
  }

  lemma EveryMoveAccounted(log: seq<Event>, w: World, rid: string, move: Move)
    requires ReadyToPay(log, w, rid, move)
    ensures MoveAccounted(w, rid, move)
  {
    match move
    case FreezeEstimate(answered) => FreezeAccounted(log, w, rid, answered);
    case Settle(ok) => SettleAccounted(log, w, rid, ok);
    case RefundEstimate(ok) => RefundAccounted(log, w, rid, ok);
    case Repay(ok) => RepayAccounted(log, w, rid, ok);
    case _ => OtherMoveAccounted(log, w, rid, move);
  }

  // ---- every step ----

  lemma AccountedLater(log: seq<Event>, log': seq<Event>, w: World)
    requires log <= log' && Lawful(log') && Accounted(log, w)
    ensures Accounted(log', w)
  {
    var h := Holds(w.books.txs);
    forall t | t in h ensures HoldOwned(log', w.requests, t, h[t]) {
      assert HoldOwned(log, w.requests, t, h[t]);
      if h[t].Charged? { KnownLater(log, log', t); }
    }
  }

  lemma OneRequestAccounted(log: seq<Event>, w: World, w': World, rid: string, r: Request, b: Books)
    requires Accounted(log, w) && w'.requests == w.requests[rid := r] && w'.books == b
    requires Funded(b) && OnlyTrace(Holds(w.books.txs), Holds(b.txs), rid) && AccountedFor(Holds(b.txs), rid, r)
    requires NewlyCharged(Holds(w.books.txs), Holds(b.txs), rid) ==> Delivered(log, rid)
    requires rid in w.requests && w.requests[rid].created ==> r.created
    ensures Accounted(log, w')
  {
    var h, h' := Holds(w.books.txs), Holds(b.txs);
    forall q | q in w'.requests ensures AccountedFor(h', q, w'.requests[q]) {
      assert q != rid ==> AccountedFor(h, q, w.requests[q]);
    }
    forall t | t in h' ensures HoldOwned(log, w'.requests, t, h'[t]) {
      assert t in h ==> HoldOwned(log, w.requests, t, h[t]);
    }
  }

  lemma AdvanceAccounted(log: seq<Event>, w: World, rid: string, move: Move)
    requires Accounted(log, w) && Enabled(w, rid, move) && RequestTrue(log, rid, w.requests[rid])
    ensures Accounted(log, Advance(w, rid, move))
  {
    assert AccountedFor(Holds(w.books.txs), rid, w.requests[rid]);
    EveryMoveAccounted(log, w, rid, move);
    AdvanceParts(w, rid, move);
    OneRequestAccounted(log, w, Advance(w, rid, move), rid, Moved(w, rid, move), Paid(w, rid, move));
  }

  lemma DeliverAccounted(log: seq<Event>, w: World, did: nat)
    requires Accounted(log, w) && did in w.deliveries
    ensures Accounted(log, DeliverStep(w, did))
  {
    var w', d := DeliverStep(w, did), w.deliveries[did];
    if d.chs != [] && d.chs[0] in w.requests {
      var r := w.requests[d.chs[0]];
      assert AccountedFor(Holds(w.books.txs), d.chs[0], r);
      if r.inbox.None? {
        OneRequestAccounted(log, w, w', d.chs[0], r.(inbox := Some(d.result), heard := r.heard + 1), w.books);
      }
    }
  }

  lemma ArrivalAccounted(log: seq<Event>, w: World, s: Step)
    requires Accounted(log, w) && s.Arrive?
    ensures Accounted(log, Locally(w, s))
  {
    if MayArrive(w, s.rid) {
      assert s.rid in Holds(w.books.txs) ==> HoldOwned(log, w.requests, s.rid, Holds(w.books.txs)[s.rid]);
      OneRequestAccounted(log, w, Locally(w, s), s.rid, Locally(w, s).requests[s.rid], w.books);
    }
  }

  lemma DepositAccounted(log: seq<Event>, w: World, u: string, amount: int)
    requires Accounted(log, w)
    ensures Accounted(log, w.(books := AfterDeposit(w.books, u, amount)))
  {
    DepositHolds(w.books, u, amount);
  }

  lemma HandlersPayNothing(w: World, s: Step)
    requires !s.Arrive? && !s.Act? && !s.Deliver? && !s.MakeDeposit?
    ensures Locally(w, s).books == w.books && Locally(w, s).requests == w.requests
  {
  }

  lemma LocallyAccounted(log: seq<Event>, w: World, s: Step)
    requires Accounted(log, w)
    requires s.Act? && s.rid in w.requests ==> RequestTrue(log, s.rid, w.requests[s.rid])
    ensures Accounted(log, Locally(w, s))
  {
    if s.Arrive? {
      ArrivalAccounted(log, w, s);
    } else if s.Act? {
      if Enabled(w, s.rid, s.move) { AdvanceAccounted(log, w, s.rid, s.move); }
    } else if s.Deliver? {
      if s.did in w.deliveries { DeliverAccounted(log, w, s.did); }
    } else if s.MakeDeposit? {
      if 0 <= s.amount { DepositAccounted(log, w, s.user, s.amount); }
    } else {
      HandlersPayNothing(w, s);
    }
  }

  lemma NextKeepsAccounted(c: Config, w: World, s: Step)
    requires Sound(c, w) && Accounted(w.sched.log, w)
    ensures Accounted(Next(c, w, s).sched.log, Next(c, w, s))
  {
    SchedStaysSafe(c, w, s);
    var m' := Next(c, w, s).sched;
    LocallyAccounted(w.sched.log, w, s);
    AccountedLater(w.sched.log, m'.log, Locally(w, s));
  }

  /** Everything the server's runs keep. */
  ghost predicate Right(c: Config, w: World) {
    Sound(c, w) && Accounted(w.sched.log, w)
  }

  lemma RightSees(c: Config, w: World, rid: string)
    requires Right(c, w) && rid in w.requests
    ensures RequestTrue(w.sched.log, rid, w.requests[rid])
    ensures AccountedFor(Holds(w.books.txs), rid, w.requests[rid])
  {
  }

  lemma MoverIsReady(c: Config, w: World, rid: string, move: Move)
    requires Right(c, w) && Enabled(w, rid, move)
    ensures ReadyToPay(w.sched.log, w, rid, move)
  {
    RightSees(c, w, rid);
  }

  lemma NextKeepsRight(c: Config, w: World, s: Step)
    requires Right(c, w)
    ensures Right(c, Next(c, w, s))
  {
    NextKeepsSound(c, w, s);
    NextKeepsAccounted(c, w, s);
  }

  lemma StartIsRight(c: Config)
    ensures Right(c, Start)
  {
    StartIsSound(c);
    assert Holds([]) == map[];
  }

  lemma StepKeepsRight(c: Config, r: Run, n: nat)
    requires IsRun(c, r) && 0 < n < |r.states| && Right(c, r.states[n - 1])
    ensures Right(c, r.states[n])
  {
    assert StepAt(c, r, n - 1);
    NextKeepsRight(c, r.states[n - 1], r.steps[n - 1]);
  }

  lemma {:induction false} RunsAreRight(c: Config, r: Run, n: nat)
    requires IsRun(c, r) && n < |r.states|
    ensures Right(c, r.states[n])
  {
    if n == 0 {
      StartIsRight(c);
    } else {
      RunsAreRight(c, r, n - 1);
      StepKeepsRight(c, r, n);
    }
  }
}
