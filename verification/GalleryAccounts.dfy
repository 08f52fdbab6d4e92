/**
 * The books account by account and trace by trace. Balances always add up; a user's frozen and available GP
 * do exactly until a refund of that user's own failed freeze commits, whatever befalls other users; and a
 * trace has the ledger lines of one freeze and at most one release unless it is the trace of such a refund.
 */
module GalleryAccounts {
  import opened TaskStore
  import opened History
  import opened Ledger
  import opened GalleryMachine
  import opened GalleryMoney
  import opened GalleryBooks

  // ---- one move ----

  lemma MoveKeepsCash(w: World, rid: string, move: Move)
    requires Enabled(w, rid, move) && CashAgrees(w.books)
    ensures CashAgrees(Paid(w, rid, move))
  {
    var r := w.requests[rid];
    match move
    case FreezeEstimate(_) => FreezeKeepsCash(w.books, r.user, r.trace, r.estimatedGP);
    case Settle(_) => SettleKeepsCash(w.books, r.user, r.trace, r.estimatedGP);
    case RefundEstimate(_) => RefundKeepsCash(w.books, r.user, r.trace, r.estimatedGP);
    case Repay(_) => RefundKeepsCash(w.books, r.user, r.trace, r.estimatedGP);
    case _ => OtherMovesPayNothing(w, rid, move);
  }

  /** What each paying move finds in the ledger under its trace. */
  ghost predicate Standing(w: World, rid: string, move: Move)
    requires Enabled(w, rid, move)
  {
    var r, h := w.requests[rid], Holds(w.books.txs);
    match move
    case FreezeEstimate(_) => r.trace == rid && rid !in h && 0 <= r.estimatedGP
    case Settle(_) => HeldBy(w.books, h, rid, r)
    case RefundEstimate(_) => HeldBy(w.books, h, rid, r)
    case Repay(_) =>
      if UnfundedMove(w.books, r, Repay(true)) then r.trace == rid && rid !in h && 1 <= r.estimatedGP
      else RefundDue(r) && r.user in w.books.accounts ==> HeldBy(w.books, h, rid, r)
    case _ => true
  }

  ghost predicate HeldBy(b: Books, h: map<string, Hold>, rid: string, r: Request) {
    r.trace == rid && rid in h && h[rid] == Held(r.user, r.estimatedGP) && r.user in b.accounts
  }

  lemma MoverStands(log: seq<Event>, w: World, rid: string, move: Move)
    requires ReadyToPay(log, w, rid, move)
    ensures Standing(w, rid, move)
  {
    var h := Holds(w.books.txs);
    if rid in h { HolderHasAccount(w.books, rid); }
    if move.Repay? { RefundGuardIsExact(log, h, rid, w.requests[rid]); }
  }

  /** Is this the commit of a refund of the user's own failed freeze? */
  predicate UnfundedFor(w: World, s: Step, u: string) {
    Unfunded(w, s) && w.requests[s.rid].user == u
  }

  lemma RepayFollowsAccount(w: World, rid: string, ok: bool, u: string)
    requires Enabled(w, rid, Repay(ok)) && Standing(w, rid, Repay(ok))
    requires AccountAgrees(w.books, u) && Sized(Holds(w.books.txs))
    ensures AccountAgrees(Paid(w, rid, Repay(ok)), u)
            <==> !(UnfundedMove(w.books, w.requests[rid], Repay(ok)) && w.requests[rid].user == u)
  {
    var r := w.requests[rid];
    if ok && RefundDue(r) && r.user in w.books.accounts {
      if r.pc.error != FreezeFailed { RefundKeepsAccount(w.books, r.user, rid, r.estimatedGP, u); }
      else if r.user == u { UnfundedRefund(w.books, u, rid, r.estimatedGP); }
      else { UnfundedRefundSparesOthers(w.books, r.user, rid, r.estimatedGP, u); }
    }
  }

  lemma MoveFollowsAccount(w: World, rid: string, move: Move, u: string)
    requires Enabled(w, rid, move) && Standing(w, rid, move)
    requires AccountAgrees(w.books, u) && Sized(Holds(w.books.txs))
    ensures AccountAgrees(Paid(w, rid, move), u)
            <==> !(UnfundedMove(w.books, w.requests[rid], move) && w.requests[rid].user == u)
  {
    var r := w.requests[rid];
    match move
    case FreezeEstimate(_) => FreezeKeepsAccount(w.books, r.user, rid, r.estimatedGP, u);
    case Settle(_) => SettleKeepsAccount(w.books, r.user, rid, r.estimatedGP, u);
    case RefundEstimate(_) => RefundKeepsAccount(w.books, r.user, rid, r.estimatedGP, u);
    case Repay(ok) => RepayFollowsAccount(w, rid, ok, u);
    case _ => OtherMovesPayNothing(w, rid, move);
  }

  lemma RepayKeepsLines(w: World, rid: string, ok: bool, t: string, lone: bool)
    requires Enabled(w, rid, Repay(ok)) && Standing(w, rid, Repay(ok)) && LinesFit(w.books.txs, t, lone)
    ensures LinesFit(Paid(w, rid, Repay(ok)).txs, t,
                     lone || (UnfundedMove(w.books, w.requests[rid], Repay(ok)) && rid == t))
  {
    var r := w.requests[rid];
    if ok && RefundDue(r) && r.user in w.books.accounts {
      if r.pc.error != FreezeFailed { RefundKeepsLines(w.books, r.user, rid, r.estimatedGP, t, lone); }
      else { UnfundedRefundIsLone(w.books, r.user, rid, r.estimatedGP, t, lone); }
    }
  }

  lemma MoveKeepsLines(w: World, rid: string, move: Move, t: string, lone: bool)
    requires Enabled(w, rid, move) && Standing(w, rid, move) && LinesFit(w.books.txs, t, lone)
    ensures LinesFit(Paid(w, rid, move).txs, t, lone || (UnfundedMove(w.books, w.requests[rid], move) && rid == t))
  {
    var r := w.requests[rid];
    match move
    case FreezeEstimate(_) => FreezeKeepsLines(w.books, r.user, rid, r.estimatedGP, t, lone);
    case Settle(_) => SettleKeepsLines(w.books, r.user, rid, r.estimatedGP, t, lone);
    case RefundEstimate(_) => RefundKeepsLines(w.books, r.user, rid, r.estimatedGP, t, lone);
    case Repay(ok) => RepayKeepsLines(w, rid, ok, t, lone);
    case _ => OtherMovesPayNothing(w, rid, move);
  }

  // ---- every step ----

  lemma AccountedIsSized(log: seq<Event>, w: World)
    requires Accounted(log, w)
    ensures Sized(Holds(w.books.txs))
  {
    var h := Holds(w.books.txs);
    forall t | t in h ensures 0 <= h[t].amount {
      assert HoldOwned(log, w.requests, t, h[t]) && AccountedFor(h, t, w.requests[t]);
    }
  }

  /** The books after a step: a move's, a deposit's, or the same. */
  lemma BooksAfter(w: World, s: Step)
    ensures Locally(w, s).books ==
            if s.Act? && Enabled(w, s.rid, s.move) then Paid(w, s.rid, s.move)
            else if s.MakeDeposit? && 0 <= s.amount then AfterDeposit(w.books, s.user, s.amount)
            else w.books
  {
    if s.Act? {
      if Enabled(w, s.rid, s.move) { AdvanceParts(w, s.rid, s.move); }
    } else if !s.MakeDeposit? {
      OthersLeaveBooks(w, s);
    }
  }

  lemma NextKeepsCash(c: Config, w: World, s: Step, w': World)
    requires CashAgrees(w.books) && w' == Next(c, w, s)
    ensures CashAgrees(w'.books)
  {
    BooksAfter(w, s);
    if s.Act? && Enabled(w, s.rid, s.move) { MoveKeepsCash(w, s.rid, s.move); }
    else if s.MakeDeposit? { DepositKeepsCash(w.books, s.user, s.amount); }
  }

  lemma ActorFollowsAccount(c: Config, w: World, rid: string, move: Move, u: string)
    requires Right(c, w) && Enabled(w, rid, move) && AccountAgrees(w.books, u)
    ensures AccountAgrees(Paid(w, rid, move), u)
            <==> !(UnfundedMove(w.books, w.requests[rid], move) && w.requests[rid].user == u)
  {
    AccountedIsSized(w.sched.log, w);
    MoverIsReady(c, w, rid, move);
    MoverStands(w.sched.log, w, rid, move);
    MoveFollowsAccount(w, rid, move, u);
  }

  /** What can be refunded though it was not frozen is a move that can be made. */
  lemma UnfundedActs(w: World, rid: string, move: Move)
    requires Unfunded(w, Act(rid, move))
    ensures Enabled(w, rid, move)
  {
  }

  lemma ActFollowsAccount(c: Config, w: World, rid: string, move: Move, u: string)
    requires Right(c, w) && AccountAgrees(w.books, u)
    ensures AccountAgrees(Locally(w, Act(rid, move)).books, u) <==> !UnfundedFor(w, Act(rid, move), u)
  {
    if Enabled(w, rid, move) {
      ActorFollowsAccount(c, w, rid, move, u);
      AdvanceParts(w, rid, move);
    } else if Unfunded(w, Act(rid, move)) {
      UnfundedActs(w, rid, move);
    }
  }

  lemma DepositFollowsAccount(w: World, user: string, amount: int, u: string)
    requires AccountAgrees(w.books, u)
    ensures AccountAgrees(Locally(w, MakeDeposit(user, amount)).books, u)
  {
    if 0 <= amount { DepositKeepsAccount(w.books, user, amount, u); }
  }

  /** From an account that agrees with the ledger: it goes on agreeing iff the step is no unfunded refund of its own. */
  lemma NextFollowsAccount(c: Config, w: World, s: Step, u: string, w': World)
    requires Right(c, w) && AccountAgrees(w.books, u) && w' == Next(c, w, s)
    ensures AccountAgrees(w'.books, u) <==> !UnfundedFor(w, s, u)
  {
    assert w'.books == Locally(w, s).books;
    if s.Act? {
      ActFollowsAccount(c, w, s.rid, s.move, u);
    } else if s.MakeDeposit? {
      DepositFollowsAccount(w, s.user, s.amount, u);
    } else {
      OthersLeaveBooks(w, s);
    }
  }

  lemma ActorKeepsLines(c: Config, w: World, rid: string, move: Move, t: string, lone: bool)
    requires Right(c, w) && Enabled(w, rid, move) && LinesFit(w.books.txs, t, lone)
    ensures LinesFit(Paid(w, rid, move).txs, t, lone || (UnfundedMove(w.books, w.requests[rid], move) && rid == t))
  {
    MoverIsReady(c, w, rid, move);
    MoverStands(w.sched.log, w, rid, move);
    MoveKeepsLines(w, rid, move, t, lone);
  }

  lemma ActKeepsLines(c: Config, w: World, rid: string, move: Move, t: string, lone: bool)
    requires Right(c, w) && LinesFit(w.books.txs, t, lone)
    ensures LinesFit(Locally(w, Act(rid, move)).books.txs, t, lone || (Unfunded(w, Act(rid, move)) && rid == t))
  {
    if Enabled(w, rid, move) {
      ActorKeepsLines(c, w, rid, move, t, lone);
      AdvanceParts(w, rid, move);
    } else if Unfunded(w, Act(rid, move)) {
      UnfundedActs(w, rid, move);
    }
  }

  lemma DepositStepKeepsLines(w: World, user: string, amount: int, t: string, lone: bool)
    requires LinesFit(w.books.txs, t, lone)
    ensures LinesFit(Locally(w, MakeDeposit(user, amount)).books.txs, t, lone)
  {
    if 0 <= amount { DepositKeepsLines(w.books, user, amount, t, lone); }
  }

  lemma NextKeepsLines(c: Config, w: World, s: Step, t: string, lone: bool, w': World)
    requires Right(c, w) && LinesFit(w.books.txs, t, lone) && w' == Next(c, w, s)
    ensures LinesFit(w'.books.txs, t, lone || (Unfunded(w, s) && s.rid == t))
  {
    assert w'.books == Locally(w, s).books;
    if s.Act? {
      ActKeepsLines(c, w, s.rid, s.move, t, lone);
    } else if s.MakeDeposit? {
      DepositStepKeepsLines(w, s.user, s.amount, t, lone);
    } else {
      OthersLeaveBooks(w, s);
    }
  }

  // ---- every run ----

  /** Balances and balance_after add up in every run. */
  lemma {:induction false} RunsKeepCash(c: Config, r: Run, n: nat)
    requires IsRun(c, r) && n < |r.states|
    ensures CashAgrees(r.states[n].books)
  {
    if n > 0 {
      RunsKeepCash(c, r, n - 1);
      assert StepAt(c, r, n - 1);
      NextKeepsCash(c, r.states[n - 1], r.steps[n - 1], r.states[n]);
    }
  }

  ghost predicate FundedAtFor(r: Run, i: nat, u: string)
    requires i < |r.steps| && |r.states| == |r.steps| + 1
  {
    !UnfundedFor(r.states[i], r.steps[i], u)
  }

  /** No refund of a failed freeze of this user's ever commits. */
  ghost predicate RefundsFundedFor(r: Run, u: string) {
    |r.states| == |r.steps| + 1 && forall i :: 0 <= i < |r.steps| ==> FundedAtFor(r, i, u)
  }

  lemma RunStepFollowsAccount(c: Config, r: Run, i: nat, u: string)
    requires IsRun(c, r) && i < |r.steps| && AccountAgrees(r.states[i].books, u)
    ensures AccountAgrees(r.states[i + 1].books, u) <==> FundedAtFor(r, i, u)
  {
    RunsAreRight(c, r, i);
    assert StepAt(c, r, i);
    NextFollowsAccount(c, r.states[i], r.steps[i], u, r.states[i + 1]);
  }

  lemma {:induction false} FundedAccountsAgree(c: Config, r: Run, n: nat, u: string)
    requires IsRun(c, r) && RefundsFundedFor(r, u) && n < |r.states|
    ensures AccountAgrees(r.states[n].books, u)
  {
    if n == 0 {
      EmptyIsBalanced();
      assert AccountAgrees(r.states[0].books, u);
    } else {
      FundedAccountsAgree(c, r, n - 1, u);
      RunStepFollowsAccount(c, r, n - 1, u);
      assert FundedAtFor(r, n - 1, u);
    }
  }

  ghost predicate AlwaysAgrees(r: Run, u: string) {
    forall n :: 0 <= n < |r.states| ==> AccountAgrees(r.states[n].books, u)
  }

  /** Over any run a user's account agrees with the ledger iff no refund of that user's own failed freezes commits. */
  lemma AccountAgreesIffFunded(c: Config, r: Run, u: string)
    requires IsRun(c, r)
    ensures AlwaysAgrees(r, u) <==> RefundsFundedFor(r, u)
  {
    if RefundsFundedFor(r, u) {
      forall n | 0 <= n < |r.states| ensures AccountAgrees(r.states[n].books, u) { FundedAccountsAgree(c, r, n, u); }
    }
    if AlwaysAgrees(r, u) {
      forall i | 0 <= i < |r.steps| ensures FundedAtFor(r, i, u) {
        assert AccountAgrees(r.states[i].books, u) && AccountAgrees(r.states[i + 1].books, u);
        RunStepFollowsAccount(c, r, i, u);
      }
    }
  }

  ghost predicate UnfundedAt(r: Run, i: nat, t: string)
    requires i < |r.steps| && |r.states| == |r.steps| + 1
  {
    Unfunded(r.states[i], r.steps[i]) && r.steps[i].rid == t
  }

  /** Within n steps, the refund of this trace's own failed freeze committed. */
  ghost predicate UnfundedWithin(r: Run, n: nat, t: string)
    requires n <= |r.steps| && |r.states| == |r.steps| + 1
  {
    exists i :: 0 <= i < n && UnfundedAt(r, i, t)
  }

  lemma UnfundedWithinNext(r: Run, n: nat, t: string)
    requires 0 < n <= |r.steps| && |r.states| == |r.steps| + 1
    ensures UnfundedWithin(r, n, t) <==> UnfundedWithin(r, n - 1, t) || UnfundedAt(r, n - 1, t)
  {
    if i :| 0 <= i < n && UnfundedAt(r, i, t) {
      assert i == n - 1 || UnfundedWithin(r, n - 1, t);
    }
  }

  lemma RunStepKeepsLines(c: Config, r: Run, n: nat, t: string, lone: bool)
    requires IsRun(c, r) && 0 < n < |r.states| && LinesFit(r.states[n - 1].books.txs, t, lone)
    ensures LinesFit(r.states[n].books.txs, t, lone || UnfundedAt(r, n - 1, t))
  {
    RunsAreRight(c, r, n - 1);
    assert StepAt(c, r, n - 1);
    NextKeepsLines(c, r.states[n - 1], r.steps[n - 1], t, lone, r.states[n]);
  }

  /** In every run a trace's lines are those of its hold, or the lone refund of its own failed freeze. */
  lemma {:induction false} RunsKeepLines(c: Config, r: Run, n: nat, t: string)
    requires IsRun(c, r) && n < |r.states|
    ensures LinesFit(r.states[n].books.txs, t, UnfundedWithin(r, n, t))
  {
    if n > 0 {
      RunsKeepLines(c, r, n - 1, t);
      UnfundedWithinNext(r, n, t);
      RunStepKeepsLines(c, r, n, t, UnfundedWithin(r, n - 1, t));
    }
  }
}
