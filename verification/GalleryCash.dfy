/**
 * Where every GP comes from and goes to, counted from what was done to the server and not from its books:
 * a balance is what was deposited less the estimates that were settled, what can be spent is that less what
 * was frozen and not given back, and a freeze is accepted iff it asks for no more than that.
 */
module GalleryCash {
  import opened TaskStore
  import opened Ledger
  import opened GalleryMachine
  import opened GalleryMoney
  import opened GalleryBooks
  import opened GalleryAccounts

  /** What a move adds to its user's balance: a settlement that commits takes the estimate. */
  function CashOfMove(r: Request, move: Move): int {
    if move == Move.Settle(true) then -r.estimatedGP else 0
  }

  function CashOf(w: World, s: Step, u: string): int {
    match s
    case MakeDeposit(v, amount) => if v == u && 0 <= amount then amount else 0
    case Act(rid, move) =>
      if Enabled(w, rid, move) && w.requests[rid].user == u then CashOfMove(w.requests[rid], move) else 0
    case _ => 0
  }

  /** All that was deposited to a user, less all that was settled. */
  ghost function Earned(r: Run, n: nat, u: string): int
    requires n < |r.states| == |r.steps| + 1
  {
    if n == 0 then 0 else Earned(r, n - 1, u) + CashOf(r.states[n - 1], r.steps[n - 1], u)
  }

  /** A freeze is accepted: the request goes on to record its cost. */
  predicate Accepts(w: World, rid: string, move: Move) {
    Enabled(w, rid, move) && move.FreezeEstimate? && Moved(w, rid, move).pc.Costing?
  }

  /** A refund that commits: after a failure, a timeout, a cancellation or, where the guard says so, a failed setup. */
  predicate GivesBack(b: Books, r: Request, move: Move) {
    match move
    case RefundEstimate(ok) => ok
    case Repay(ok) => ok && r.pc.Repaying? && RefundDue(r) && r.user in b.accounts
    case _ => false
  }

  /** What a move adds to what its user can spend; a settlement only takes what was frozen before. */
  function SpendableOf(w: World, s: Step, u: string): int {
    match s
    case MakeDeposit(v, amount) => if v == u && 0 <= amount then amount else 0
    case Act(rid, move) =>
      if !Enabled(w, rid, move) || w.requests[rid].user != u then 0
      else if Accepts(w, rid, move) then -w.requests[rid].estimatedGP
      else if GivesBack(w.books, w.requests[rid], move) then w.requests[rid].estimatedGP
      else 0
    case _ => 0
  }

  ghost function Spendable(r: Run, n: nat, u: string): int
    requires n < |r.states| == |r.steps| + 1
  {
    if n == 0 then 0 else Spendable(r, n - 1, u) + SpendableOf(r.states[n - 1], r.steps[n - 1], u)
  }

  // ---- one move ----

  ghost predicate Counts(b: Books, b': Books, u: string, cash: int, spendable: int) {
    && AccountOf(b', u).balance == AccountOf(b, u).balance + cash
    && SumAll(b'.txs, u) == SumAll(b.txs, u) + spendable
  }

  lemma RefundCounts(b: Books, v: string, t: string, amount: int, u: string)
    ensures Counts(b, AfterRefund(b, v, t, amount), u, 0, if v == u && v in b.accounts then amount else 0)
  {
    if v in b.accounts {
      var acc := Thawed(b.accounts[v], amount);
      PostSeen(b, v, acc, Transaction(v, Refund, amount, acc.balance, Some(t)), u);
    }
  }

  lemma FreezeCounts(b: Books, v: string, t: string, amount: int, u: string)
    ensures Counts(b, AfterFreeze(b, v, t, amount), u, 0, if v == u && CanFreeze(b, v, amount) then -amount else 0)
  {
    if CanFreeze(b, v, amount) {
      var b' := AfterFreeze(b, v, t, amount);
      var acc, x := b'.accounts[v], b'.txs[|b.txs|];
      assert b' == Post(b, v, acc, [x]);
      PostSeen(b, v, acc, x, u);
    }
  }

  lemma DepositCounts(b: Books, v: string, amount: int, u: string)
    ensures Counts(b, AfterDeposit(b, v, amount), u, if v == u then amount else 0, if v == u then amount else 0)
  {
    var b' := AfterDeposit(b, v, amount);
    var acc, x := b'.accounts[v], b'.txs[|b.txs|];
    assert b' == Post(b, v, acc, [x]);
    PostSeen(b, v, acc, x, u);
  }

  lemma MoveCounts(w: World, rid: string, move: Move, u: string)
    requires Enabled(w, rid, move) && Standing(w, rid, move)
    ensures Counts(w.books, Paid(w, rid, move), u,
                   CashOf(w, Act(rid, move), u), SpendableOf(w, Act(rid, move), u))
  {
    var r := w.requests[rid];
    match move
    case FreezeEstimate(_) => FreezeCounts(w.books, r.user, r.trace, r.estimatedGP, u);
    case Settle(_) => SettleSeen(w.books, r.user, r.trace, r.estimatedGP, u);
    case RefundEstimate(_) => RefundCounts(w.books, r.user, r.trace, r.estimatedGP, u);
    case Repay(_) => RefundCounts(w.books, r.user, r.trace, r.estimatedGP, u);
    case _ => OtherMovesPayNothing(w, rid, move);
  }

  // ---- every step, every run ----

  lemma ActCounts(c: Config, w: World, rid: string, move: Move, u: string)
    requires Right(c, w) && Enabled(w, rid, move)
    ensures Counts(w.books, Locally(w, Act(rid, move)).books, u,
                   CashOf(w, Act(rid, move), u), SpendableOf(w, Act(rid, move), u))
  {
    MoverIsReady(c, w, rid, move);
    MoverStands(w.sched.log, w, rid, move);
    MoveCounts(w, rid, move, u);
    AdvanceParts(w, rid, move);
  }

  lemma OtherStepCounts(w: World, s: Step, u: string)
    requires !s.Act?
    ensures Counts(w.books, Locally(w, s).books, u, CashOf(w, s, u), SpendableOf(w, s, u))
  {
    if s.MakeDeposit? { DepositCounts(w.books, s.user, s.amount, u); } else { OthersLeaveBooks(w, s); }
  }

  lemma NextCounts(c: Config, w: World, s: Step, u: string, w': World)
    requires Right(c, w) && w' == Next(c, w, s)
    ensures Counts(w.books, w'.books, u, CashOf(w, s, u), SpendableOf(w, s, u))
  {
    assert w'.books == Locally(w, s).books;
    if s.Act? {
      if Enabled(w, s.rid, s.move) { ActCounts(c, w, s.rid, s.move, u); }
    } else {
      OtherStepCounts(w, s, u);
    }
  }

  ghost predicate Counted(r: Run, n: nat, u: string)
    requires n < |r.states| == |r.steps| + 1
  {
    && AccountOf(r.states[n].books, u).balance == Earned(r, n, u)
    && SumAll(r.states[n].books.txs, u) == Spendable(r, n, u)
  }

  lemma CountedStep(c: Config, r: Run, n: nat, u: string)
    requires IsRun(c, r) && 0 < n < |r.states| && Counted(r, n - 1, u)
    ensures Counted(r, n, u)
  {
    RunStepCounts(c, r, n - 1, u);
  }

  lemma RunStepCounts(c: Config, r: Run, i: nat, u: string)
    requires IsRun(c, r) && i < |r.steps|
    ensures Counts(r.states[i].books, r.states[i + 1].books, u,
                   CashOf(r.states[i], r.steps[i], u), SpendableOf(r.states[i], r.steps[i], u))
  {
    RunsAreRight(c, r, i);
    assert StepAt(c, r, i);
    NextCounts(c, r.states[i], r.steps[i], u, r.states[i + 1]);
  }

  /**
   * In every state of every run a user's balance is the sum of that user's deposits less the estimates of that
   * user's requests whose settlement committed, and the amounts in the user's ledger add up to that less the
   * estimates that were frozen, plus those given back.
   */
  lemma {:induction false} BooksFollowSteps(c: Config, r: Run, n: nat, u: string)
    requires IsRun(c, r) && n < |r.states|
    ensures Counted(r, n, u)
    decreases n
  {
    if n > 0 {
      BooksFollowSteps(c, r, n - 1, u);
      CountedStep(c, r, n, u);
    }
  }

  // ---- which freezes are accepted ----

  /**
   * In every run, a freeze that the database answers is accepted iff the estimate is at most what its user can
   * spend, counted from the deposits, freezes, refunds and settlements so far; if not, the request is told so.
   */
  lemma FreezesIffSpendable(c: Config, r: Run, rid: string)
    requires IsRun(c, r) && Enabled(r.Last(), rid, FreezeEstimate(true))
    requires RefundsFundedFor(r, r.Last().requests[rid].user)
    ensures var w := r.Last(); var q := w.requests[rid];
      var q' := Next(c, w, Act(rid, FreezeEstimate(true))).requests[rid];
      && (q'.pc == Costing <==> q.estimatedGP <= Spendable(r, |r.steps|, q.user))
      && (q'.pc == Rejecting(Insufficient) <==> q.estimatedGP > Spendable(r, |r.steps|, q.user))
  {
    var w := r.Last();
    var q := w.requests[rid];
    BooksFollowSteps(c, r, |r.steps|, q.user);
    FundedAccountsAgree(c, r, |r.steps|, q.user);
    FreezesIffAffordable(w.books, q.user, q.trace, q.estimatedGP);
    AdvanceParts(w, rid, FreezeEstimate(true));
  }
}
