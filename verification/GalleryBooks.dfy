/**
 * When the accounts add up. Each step keeps the books balanced, with one exception that the code's own guard
 * lets through: a setup that failed in FreezeGP for another reason than want of balance, and whose refund,
 * of an amount never frozen, then commits.
 */
module GalleryBooks {
  import opened TaskStore
  import opened History
  import opened Ledger
  import opened GalleryMachine
  import opened GalleryMoney

  /** This step commits the refund of a freeze that failed. */
  predicate UnfundedMove(b: Books, r: Request, move: Move) {
    move == Repay(true) && r.pc == Repaying(FreezeFailed) && RefundDue(r) && r.user in b.accounts
  }

  predicate Unfunded(w: World, s: Step) {
    s.Act? && s.rid in w.requests && UnfundedMove(w.books, w.requests[s.rid], s.move)
  }

  // ---- one move ----

  ghost predicate BooksFollow(w: World, rid: string, move: Move)
    requires Enabled(w, rid, move)
  {
    Balanced(Paid(w, rid, move)) <==> !UnfundedMove(w.books, w.requests[rid], move)
  }

  lemma FreezeFollows(log: seq<Event>, w: World, rid: string, answered: bool)
    requires ReadyToPay(log, w, rid, FreezeEstimate(answered)) && Balanced(w.books)
    ensures BooksFollow(w, rid, FreezeEstimate(answered))
  {
    FreezeKeepsBalanced(w.books, w.requests[rid].user, rid, w.requests[rid].estimatedGP);
  }

  lemma SettleFollows(log: seq<Event>, w: World, rid: string, ok: bool)
    requires ReadyToPay(log, w, rid, Move.Settle(ok)) && Balanced(w.books)
    ensures BooksFollow(w, rid, Move.Settle(ok))
  {
    SettleKeepsBalanced(w.books, w.requests[rid].user, rid, w.requests[rid].estimatedGP);
  }

  lemma RefundFollows(log: seq<Event>, w: World, rid: string, ok: bool)
    requires ReadyToPay(log, w, rid, RefundEstimate(ok)) && Balanced(w.books)
    ensures BooksFollow(w, rid, RefundEstimate(ok))
  {
    RefundKeepsBalanced(w.books, w.requests[rid].user, rid, w.requests[rid].estimatedGP);
  }

  lemma RepayFollows(log: seq<Event>, w: World, rid: string, ok: bool)
    requires ReadyToPay(log, w, rid, Repay(ok)) && Balanced(w.books)
    ensures BooksFollow(w, rid, Repay(ok))
  {
    var r := w.requests[rid];
    RefundGuardIsExact(log, Holds(w.books.txs), rid, r);
    if UnfundedMove(w.books, r, Repay(ok)) {
      assert AccountAgrees(w.books, r.user);
      UnfundedRefund(w.books, r.user, rid, r.estimatedGP);
    } else if RefundDue(r) && r.pc.error != FreezeFailed {
      RefundKeepsBalanced(w.books, r.user, rid, r.estimatedGP);
    }
  }

  lemma MoveFollows(log: seq<Event>, w: World, rid: string, move: Move)
    requires ReadyToPay(log, w, rid, move) && Balanced(w.books)
    ensures BooksFollow(w, rid, move)
  {
    match move
    case FreezeEstimate(answered) => FreezeFollows(log, w, rid, answered);
    case Settle(ok) => SettleFollows(log, w, rid, ok);
    case RefundEstimate(ok) => RefundFollows(log, w, rid, ok);
    case Repay(ok) => RepayFollows(log, w, rid, ok);
    case _ => OtherMovesPayNothing(w, rid, move);
  }

  // ---- every step, every run ----

  lemma DepositFollows(w: World, u: string, amount: int)
    requires Balanced(w.books)
    ensures Balanced(Locally(w, MakeDeposit(u, amount)).books)
  {
    assert AccountAgrees(w.books, u);
    DepositKeepsBalanced(w.books, u, amount);
  }

  lemma OthersLeaveBooks(w: World, s: Step)
    requires !s.Act? && !s.MakeDeposit?
    ensures Locally(w, s).books == w.books
  {
  }

  lemma ActFollows(log: seq<Event>, w: World, rid: string, move: Move)
    requires ReadyToPay(log, w, rid, move) && Balanced(w.books)
    ensures Balanced(Locally(w, Act(rid, move)).books) <==> !Unfunded(w, Act(rid, move))
  {
    MoveFollows(log, w, rid, move);
    AdvanceParts(w, rid, move);
  }

  /** From balanced books, a step leads to balanced books iff it is not an unfunded refund. */
  lemma StepFollows(c: Config, w: World, s: Step)
    requires Right(c, w) && Balanced(w.books)
    ensures Balanced(Locally(w, s).books) <==> !Unfunded(w, s)
  {
    if s.Act? {
      if Enabled(w, s.rid, s.move) {
        MoverIsReady(c, w, s.rid, s.move);
        ActFollows(w.sched.log, w, s.rid, s.move);
      }
    } else if s.MakeDeposit? {
      DepositFollows(w, s.user, s.amount);
    } else {
      OthersLeaveBooks(w, s);
    }
  }

  lemma NextFollows(c: Config, w: World, s: Step, w': World)
    requires Right(c, w) && Balanced(w.books) && w' == Next(c, w, s)
    ensures Balanced(w'.books) <==> !Unfunded(w, s)
  {
    StepFollows(c, w, s);
  }

  ghost predicate FundedAt(r: Run, i: nat)
    requires i < |r.steps| && |r.states| == |r.steps| + 1
  {
    !Unfunded(r.states[i], r.steps[i])
  }

  /** No refund of a failed freeze ever commits. */
  ghost predicate RefundsFunded(r: Run) {
    |r.states| == |r.steps| + 1 && forall i :: 0 <= i < |r.steps| ==> FundedAt(r, i)
  }

  lemma {:induction false} FundedRunsBalance(c: Config, r: Run, n: nat)
    requires IsRun(c, r) && RefundsFunded(r) && n < |r.states|
    ensures Balanced(r.states[n].books)
  {
    if n == 0 {
      EmptyIsBalanced();
    } else {
      FundedRunsBalance(c, r, n - 1);
      RunStepFollows(c, r, n - 1);
      assert FundedAt(r, n - 1);
    }
  }

  lemma RunStepFollows(c: Config, r: Run, i: nat)
    requires IsRun(c, r) && i < |r.steps| && Balanced(r.states[i].books)
    ensures Balanced(r.states[i + 1].books) <==> FundedAt(r, i)
  {
    RunsAreRight(c, r, i);
    assert StepAt(c, r, i);
    NextFollows(c, r.states[i], r.steps[i], r.states[i + 1]);
  }

  ghost predicate AlwaysBalanced(r: Run) {
    forall n :: 0 <= n < |r.states| ==> Balanced(r.states[n].books)
  }

  /** Over any run the books stay balanced iff no refund of a failed freeze commits. */
  lemma BalancedIffFunded(c: Config, r: Run)
    requires IsRun(c, r)
    ensures AlwaysBalanced(r) <==> RefundsFunded(r)
  {
    if RefundsFunded(r) {
      forall n | 0 <= n < |r.states| ensures Balanced(r.states[n].books) { FundedRunsBalance(c, r, n); }
    }
    if AlwaysBalanced(r) {
      forall i | 0 <= i < |r.steps| ensures FundedAt(r, i) {
        assert Balanced(r.states[i].books) && Balanced(r.states[i + 1].books);
        RunStepFollows(c, r, i);
      }
    }
  }
}
