/** The GP ledger: accounts, the immutable transaction list, and what each balance operation does to both. */
module Ledger {
  import opened TaskStore

  datatype Account = Account(balance: int, frozen: int)

  datatype Kind = Deposit | Deduct | Refund | Freeze | Unfreeze

  datatype Transaction = Transaction(user: string, kind: Kind, amount: int, balanceAfter: int, trace: Option<string>)

  datatype Books = Books(accounts: map<string, Account>, txs: seq<Transaction>)

  const EmptyBooks := Books(map[], [])

  function AccountOf(b: Books, u: string): Account {
    if u in b.accounts then b.accounts[u] else Account(0, 0)
  }

  /** Usable GP: balance minus frozen. */
  function Available(b: Books, u: string): int {
    AccountOf(b, u).balance - AccountOf(b, u).frozen
  }

  function Post(b: Books, u: string, acc: Account, txs: seq<Transaction>): Books {
    Books(b.accounts[u := acc], b.txs + txs)
  }

  function AfterDeposit(b: Books, u: string, amount: int): Books {
    var acc := AccountOf(b, u);
    var acc' := acc.(balance := acc.balance + amount);
    Post(b, u, acc', [Transaction(u, Deposit, amount, acc'.balance, None)])
  }

  predicate CanFreeze(b: Books, u: string, amount: int) {
    amount <= Available(b, u)
  }

  function AfterFreeze(b: Books, u: string, t: string, amount: int): Books {
    if !CanFreeze(b, u, amount) then b
    else
      var acc := AccountOf(b, u);
      Post(b, u, acc.(frozen := acc.frozen + amount), [Transaction(u, Freeze, -amount, acc.balance, Some(t))])
  }

  /** Unfreezing never goes below zero: the code resets to 0 and logs a warning. */
  function Thawed(acc: Account, amount: int): Account {
    acc.(frozen := if acc.frozen - amount < 0 then 0 else acc.frozen - amount)
  }

  function AfterSettle(b: Books, u: string, t: string, amount: int): Books {
    if u !in b.accounts then b
    else
      var acc := Thawed(b.accounts[u], amount);
      var acc' := acc.(balance := acc.balance - amount);
      Post(b, u, acc', [Transaction(u, Unfreeze, amount, acc.balance, Some(t)),
                        Transaction(u, Deduct, -amount, acc'.balance, Some(t))])
  }

  function AfterRefund(b: Books, u: string, t: string, amount: int): Books {
    if u !in b.accounts then b
    else
      var acc := Thawed(b.accounts[u], amount);
      Post(b, u, acc, [Transaction(u, Refund, amount, acc.balance, Some(t))])
  }

  // ---- what the transaction list says about each trace ----

  datatype Hold =
    | Held(user: string, amount: int)
    | Unfrozen(user: string, amount: int)
    | Charged(user: string, amount: int)
    | Repaid(user: string, amount: int)

  function Note(h: map<string, Hold>, x: Transaction): map<string, Hold> {
    if x.trace.None? then h
    else match x.kind
      case Freeze => h[x.trace.value := Held(x.user, -x.amount)]
      case Unfreeze => h[x.trace.value := Unfrozen(x.user, x.amount)]
      case Deduct => h[x.trace.value := Charged(x.user, -x.amount)]
      case Refund => h[x.trace.value := Repaid(x.user, x.amount)]
      case Deposit => h
  }

  function Holds(txs: seq<Transaction>): map<string, Hold> {
    if txs == [] then map[] else Note(Holds(txs[..|txs| - 1]), txs[|txs| - 1])
  }

  /** One trace in the ledger: freeze, then either unfreeze and deduct, or refund; same user, same amount. */
  ghost predicate InOrder(h: map<string, Hold>, x: Transaction) {
    match x.kind
    case Deposit => x.trace == None
    case Freeze => x.trace.Some? && x.trace.value !in h && x.amount <= 0
    case Unfreeze => x.trace.Some? && x.trace.value in h && h[x.trace.value] == Held(x.user, x.amount)
    case Refund => x.trace.Some? && x.trace.value in h && h[x.trace.value] == Held(x.user, x.amount)
    case Deduct => x.trace.Some? && x.trace.value in h && h[x.trace.value] == Unfrozen(x.user, -x.amount)
  }

  ghost predicate Orderly(txs: seq<Transaction>) {
    txs == [] || (Orderly(txs[..|txs| - 1]) && InOrder(Holds(txs[..|txs| - 1]), txs[|txs| - 1]))
  }

  lemma HoldsAppend(txs: seq<Transaction>, x: Transaction)
    ensures Holds(txs + [x]) == Note(Holds(txs), x)
  {
    assert (txs + [x])[..|txs|] == txs;
  }

  lemma OrderlyAppend(txs: seq<Transaction>, x: Transaction)
    requires Orderly(txs) && InOrder(Holds(txs), x)
    ensures Orderly(txs + [x])
  {
    assert (txs + [x])[..|txs|] == txs;
  }

  // ---- sums ----

  /** Every amount of the user's: what is left to spend. */
  function SumAll(txs: seq<Transaction>, u: string): int {
    if txs == [] then 0
    else SumAll(txs[..|txs| - 1], u) + if txs[|txs| - 1].user == u then txs[|txs| - 1].amount else 0
  }

  /** Deposits and deductions only: what is owned. */
  function SumCash(txs: seq<Transaction>, u: string): int {
    if txs == [] then 0
    else
      var x := txs[|txs| - 1];
      SumCash(txs[..|txs| - 1], u) + if x.user == u && (x.kind == Deposit || x.kind == Deduct) then x.amount else 0
  }

  function HeldFor(h: map<string, Hold>, u: string, t: string): int {
    if t in h && h[t].Held? && h[t].user == u then h[t].amount else 0
  }

  ghost function SumHeld(h: map<string, Hold>, u: string, ts: set<string>): int {
    if ts == {} then 0 else var t :| t in ts; HeldFor(h, u, t) + SumHeld(h, u, ts - {t})
  }

  /** The amounts of the user's traces that are frozen and not yet released. */
  ghost function Outstanding(h: map<string, Hold>, u: string): int {
    SumHeld(h, u, h.Keys)
  }

  lemma {:induction false} SumHeldPick(h: map<string, Hold>, u: string, ts: set<string>, t: string)
    requires t in ts
    ensures SumHeld(h, u, ts) == HeldFor(h, u, t) + SumHeld(h, u, ts - {t})
    decreases ts
  {
    var p :| p in ts && SumHeld(h, u, ts) == HeldFor(h, u, p) + SumHeld(h, u, ts - {p});
    if p != t {
      SumHeldPick(h, u, ts - {p}, t);
      SumHeldPick(h, u, ts - {t}, p);
      assert ts - {p} - {t} == ts - {t} - {p};
    }
  }

  lemma {:induction false} SumHeldSame(h: map<string, Hold>, h': map<string, Hold>, u: string, ts: set<string>)
    requires forall t :: t in ts ==> HeldFor(h, u, t) == HeldFor(h', u, t)
    ensures SumHeld(h, u, ts) == SumHeld(h', u, ts)
    decreases ts
  {
    if ts != {} {
      var t :| t in ts && SumHeld(h, u, ts) == HeldFor(h, u, t) + SumHeld(h, u, ts - {t});
      SumHeldPick(h', u, ts, t);
      SumHeldSame(h, h', u, ts - {t});
    }
  }

  lemma OutstandingAfter(h: map<string, Hold>, u: string, t: string, x: Hold)
    ensures Outstanding(h[t := x], u) == Outstanding(h, u) - HeldFor(h, u, t) + HeldFor(h[t := x], u, t)
  {
    var h' := h[t := x];
    SumHeldPick(h', u, h'.Keys, t);
    SumHeldSame(h, h', u, h'.Keys - {t});
    if t in h {
      SumHeldPick(h, u, h.Keys, t);
      assert h'.Keys - {t} == h.Keys - {t};
    } else {
      assert h'.Keys - {t} == h.Keys;
    }
  }

  lemma {:induction false} OutstandingNonNegative(h: map<string, Hold>, u: string, ts: set<string>)
    requires forall t :: 0 <= HeldFor(h, u, t)
    ensures 0 <= SumHeld(h, u, ts)
    decreases ts
  {
    if ts != {} {
      var t :| t in ts && SumHeld(h, u, ts) == HeldFor(h, u, t) + SumHeld(h, u, ts - {t});
      OutstandingNonNegative(h, u, ts - {t});
    }
  }

  // ---- the ledger invariant ----

  /** Frozen is the sum of the amounts frozen and not yet released, and is covered by the balance. */
  ghost predicate FrozenAgrees(b: Books, u: string) {
    && AccountOf(b, u).frozen == Outstanding(Holds(b.txs), u)
    && 0 <= AccountOf(b, u).frozen <= AccountOf(b, u).balance
  }

  /** Available and balance are what replaying the ledger gives. */
  ghost predicate ReplayAgrees(b: Books, u: string) {
    && Available(b, u) == SumAll(b.txs, u)
    && AccountOf(b, u).balance == SumCash(b.txs, u)
  }

  ghost predicate AccountAgrees(b: Books, u: string) {
    FrozenAgrees(b, u) && ReplayAgrees(b, u)
  }

  /** The last entry's balance_after is the running sum, and so on down the list. */
  ghost predicate BalanceAfterAgrees(txs: seq<Transaction>) {
    txs == []
    || (BalanceAfterAgrees(txs[..|txs| - 1]) && txs[|txs| - 1].balanceAfter == SumCash(txs, txs[|txs| - 1].user))
  }

  lemma {:induction false} BalanceAfterAt(txs: seq<Transaction>, j: nat)
    requires BalanceAfterAgrees(txs) && j < |txs|
    ensures txs[j].balanceAfter == SumCash(txs[..j + 1], txs[j].user)
  {
    if j == |txs| - 1 {
      assert txs[..j + 1] == txs;
    } else {
      BalanceAfterAt(txs[..|txs| - 1], j);
      assert txs[..|txs| - 1][..j + 1] == txs[..j + 1];
    }
  }

  function Posted(txs: seq<Transaction>): set<string> {
    if txs == [] then {} else Posted(txs[..|txs| - 1]) + {txs[|txs| - 1].user}
  }

  /** Every hold is of a non-negative amount and belongs to a user with entries. */
  lemma {:induction false} HoldIsPosted(txs: seq<Transaction>, t: string)
    requires Orderly(txs) && t in Holds(txs)
    ensures Holds(txs)[t].user in Posted(txs) && 0 <= Holds(txs)[t].amount
  {
    var n := |txs| - 1;
    if t in Holds(txs[..n]) { HoldIsPosted(txs[..n], t); }
  }

  ghost predicate Balanced(b: Books) {
    && Orderly(b.txs)
    && BalanceAfterAgrees(b.txs)
    && Posted(b.txs) <= b.accounts.Keys
    && forall u :: AccountAgrees(b, u)
  }

  lemma SumsAppend(txs: seq<Transaction>, x: Transaction, u: string)
    ensures SumAll(txs + [x], u) == SumAll(txs, u) + if x.user == u then x.amount else 0
    ensures SumCash(txs + [x], u) ==
            SumCash(txs, u) + if x.user == u && (x.kind == Deposit || x.kind == Deduct) then x.amount else 0
  {
    assert (txs + [x])[..|txs|] == txs;
  }

  lemma BalanceAfterAppend(txs: seq<Transaction>, x: Transaction)
    requires BalanceAfterAgrees(txs) && x.balanceAfter == SumCash(txs + [x], x.user)
    ensures BalanceAfterAgrees(txs + [x])
  {
    assert (txs + [x])[..|txs|] == txs;
  }

  lemma EmptyIsBalanced()
    ensures Balanced(EmptyBooks)
  {
    assert Holds([]) == map[];
  }

  /** One transaction posted in order, with the account moved to match it. */
  lemma PostKeepsBooks(b: Books, u: string, acc: Account, x: Transaction)
    requires Orderly(b.txs) && BalanceAfterAgrees(b.txs) && InOrder(Holds(b.txs), x) && x.user == u
    requires x.balanceAfter == SumCash(b.txs, u) + (if x.kind == Deposit || x.kind == Deduct then x.amount else 0)
    ensures var b' := Post(b, u, acc, [x]);
      && Orderly(b'.txs) && BalanceAfterAgrees(b'.txs)
      && Holds(b'.txs) == Note(Holds(b.txs), x)
      && (forall v :: v != u ==> SumAll(b'.txs, v) == SumAll(b.txs, v) && SumCash(b'.txs, v) == SumCash(b.txs, v))
      && SumAll(b'.txs, u) == SumAll(b.txs, u) + x.amount
      && SumCash(b'.txs, u) == x.balanceAfter
      && Posted(b'.txs) == Posted(b.txs) + {u}
  {
    assert (b.txs + [x])[..|b.txs|] == b.txs;
    HoldsAppend(b.txs, x);
    OrderlyAppend(b.txs, x);
    forall v
      ensures v != u ==> SumAll(b.txs + [x], v) == SumAll(b.txs, v) && SumCash(b.txs + [x], v) == SumCash(b.txs, v)
    {
      SumsAppend(b.txs, x, v);
    }
    SumsAppend(b.txs, x, u);
    BalanceAfterAppend(b.txs, x);
  }

  /** A deposit, of any sign, keeps the books balanced exactly when it leaves the frozen amount covered. */
  lemma {:induction false} DepositKeepsBalanced(b: Books, u: string, amount: int)
    requires Balanced(b)
    ensures Balanced(AfterDeposit(b, u, amount)) <==> 0 <= Available(b, u) + amount
  {
    assert AccountAgrees(b, u);
    var acc := AccountOf(b, u).(balance := AccountOf(b, u).balance + amount);
    var b' := AfterDeposit(b, u, amount);
    PostKeepsBooks(b, u, acc, Transaction(u, Deposit, amount, acc.balance, None));
    if 0 <= Available(b, u) + amount {
      forall v ensures AccountAgrees(b', v) {
        assert AccountAgrees(b, v);
      }
    } else {
      assert !FrozenAgrees(b', u) && !AccountAgrees(b', u);
    }
  }

  /** One trace's hold changes hands, and the owner's account with it. */
  lemma HoldMoved(b: Books, b': Books, t: string, x: Hold, v: string)
    requires AccountAgrees(b, v) && Holds(b'.txs) == Holds(b.txs)[t := x]
    requires AccountOf(b', v).frozen ==
             AccountOf(b, v).frozen - HeldFor(Holds(b.txs), v, t) + HeldFor(Holds(b'.txs), v, t)
    requires 0 <= AccountOf(b', v).frozen <= AccountOf(b', v).balance && ReplayAgrees(b', v)
    ensures AccountAgrees(b', v)
  {
    OutstandingAfter(Holds(b.txs), v, t, x);
  }

  // ---- one account at a time, whatever the others look like ----

  /** One transaction posted for u, as seen from v. */
  lemma PostSeen(b: Books, u: string, acc: Account, x: Transaction, v: string)
    requires x.user == u
    ensures var b' := Post(b, u, acc, [x]);
      && Holds(b'.txs) == Note(Holds(b.txs), x)
      && AccountOf(b', v) == (if v == u then acc else AccountOf(b, v))
      && SumAll(b'.txs, v) == SumAll(b.txs, v) + (if v == u then x.amount else 0)
      && SumCash(b'.txs, v) ==
         SumCash(b.txs, v) + (if v == u && (x.kind == Deposit || x.kind == Deduct) then x.amount else 0)
  {
    HoldsAppend(b.txs, x);
    SumsAppend(b.txs, x, v);
  }

  lemma DepositPosted(b: Books, u: string, acc: Account, x: Transaction, v: string)
    requires AccountAgrees(b, v) && x.user == u && x.kind == Deposit && x.trace == None && 0 <= x.amount
    requires acc == AccountOf(b, u).(balance := AccountOf(b, u).balance + x.amount)
    ensures AccountAgrees(Post(b, u, acc, [x]), v)
  {
    PostSeen(b, u, acc, x, v);
  }

  lemma DepositKeepsAccount(b: Books, u: string, amount: int, v: string)
    requires AccountAgrees(b, v) && 0 <= amount
    ensures AccountAgrees(AfterDeposit(b, u, amount), v)
  {
    var b' := AfterDeposit(b, u, amount);
    var acc, x := b'.accounts[u], b'.txs[|b.txs|];
    assert b' == Post(b, u, acc, [x]);
    DepositPosted(b, u, acc, x, v);
  }

  lemma FreezeKeepsAccount(b: Books, u: string, t: string, amount: int, v: string)
    requires AccountAgrees(b, v) && 0 <= amount && t !in Holds(b.txs)
    ensures AccountAgrees(AfterFreeze(b, u, t, amount), v)
  {
    if CanFreeze(b, u, amount) {
      var acc := AccountOf(b, u).(frozen := AccountOf(b, u).frozen + amount);
      PostSeen(b, u, acc, Transaction(u, Freeze, -amount, acc.balance, Some(t)), v);
      HoldMoved(b, AfterFreeze(b, u, t, amount), t, Held(u, amount), v);
    }
  }

  /** The holds are of non-negative amounts. */
  ghost predicate Sized(h: map<string, Hold>) {
    forall t :: t in h ==> 0 <= h[t].amount
  }

  /** A held amount is covered by what its user has frozen. */
  lemma HeldIsCovered(b: Books, u: string, t: string, amount: int)
    requires FrozenAgrees(b, u) && Sized(Holds(b.txs))
    requires t in Holds(b.txs) && Holds(b.txs)[t] == Held(u, amount)
    ensures 0 <= amount <= AccountOf(b, u).frozen
  {
    var h := Holds(b.txs);
    SumHeldPick(h, u, h.Keys, t);
    OutstandingNonNegative(h, u, h.Keys - {t});
  }

  lemma RefundKeepsAccount(b: Books, u: string, t: string, amount: int, v: string)
    requires AccountAgrees(b, v) && Sized(Holds(b.txs)) && u in b.accounts
    requires t in Holds(b.txs) && Holds(b.txs)[t] == Held(u, amount)
    ensures AccountAgrees(AfterRefund(b, u, t, amount), v)
  {
    if v == u { HeldIsCovered(b, u, t, amount); }
    var acc := Thawed(b.accounts[u], amount);
    PostSeen(b, u, acc, Transaction(u, Refund, amount, acc.balance, Some(t)), v);
    HoldMoved(b, AfterRefund(b, u, t, amount), t, Repaid(u, amount), v);
  }

  /** A settlement's two transactions, as seen from v. */
  lemma SettleSeen(b: Books, u: string, t: string, amount: int, v: string)
    requires u in b.accounts
    ensures var b' := AfterSettle(b, u, t, amount); var charge := if v == u then amount else 0;
      && Holds(b'.txs) == Holds(b.txs)[t := Charged(u, amount)]
      && AccountOf(b', v).balance == AccountOf(b, v).balance - charge
      && AccountOf(b', v).frozen == (if v == u then Thawed(b.accounts[u], amount) else AccountOf(b, v)).frozen
      && SumAll(b'.txs, v) == SumAll(b.txs, v) && SumCash(b'.txs, v) == SumCash(b.txs, v) - charge
  {
    var acc := Thawed(b.accounts[u], amount);
    var acc' := acc.(balance := acc.balance - amount);
    var x := Transaction(u, Unfreeze, amount, acc.balance, Some(t));
    var y := Transaction(u, Deduct, -amount, acc'.balance, Some(t));
    var b1 := Post(b, u, acc, [x]);
    PostSeen(b, u, acc, x, v);
    PostSeen(b1, u, acc', y, v);
    assert AfterSettle(b, u, t, amount) == Post(b1, u, acc', [y]);
  }

  lemma SettleKeepsAccount(b: Books, u: string, t: string, amount: int, v: string)
    requires AccountAgrees(b, v) && Sized(Holds(b.txs)) && u in b.accounts
    requires t in Holds(b.txs) && Holds(b.txs)[t] == Held(u, amount)
    ensures AccountAgrees(AfterSettle(b, u, t, amount), v)
  {
    if v == u { HeldIsCovered(b, u, t, amount); }
    SettleSeen(b, u, t, amount, v);
    HoldMoved(b, AfterSettle(b, u, t, amount), t, Charged(u, amount), v);
  }

  // ---- balances and balance_after, whatever is frozen ----

  /** Every balance is what its deposits and deductions give, and so is every balance_after. */
  ghost predicate CashAgrees(b: Books) {
    BalanceAfterAgrees(b.txs) && forall u :: AccountOf(b, u).balance == SumCash(b.txs, u)
  }

  lemma PostKeepsCash(b: Books, u: string, acc: Account, x: Transaction)
    requires CashAgrees(b) && x.user == u && x.balanceAfter == acc.balance
    requires acc.balance ==
             AccountOf(b, u).balance + if x.kind == Deposit || x.kind == Deduct then x.amount else 0
    ensures CashAgrees(Post(b, u, acc, [x]))
  {
    var b' := Post(b, u, acc, [x]);
    forall v ensures AccountOf(b', v).balance == SumCash(b'.txs, v) { PostSeen(b, u, acc, x, v); }
    BalanceAfterAppend(b.txs, x);
  }

  lemma DepositKeepsCash(b: Books, u: string, amount: int)
    requires CashAgrees(b)
    ensures CashAgrees(AfterDeposit(b, u, amount))
  {
    var acc := AccountOf(b, u).(balance := AccountOf(b, u).balance + amount);
    PostKeepsCash(b, u, acc, Transaction(u, Deposit, amount, acc.balance, None));
  }

  lemma FreezeKeepsCash(b: Books, u: string, t: string, amount: int)
    requires CashAgrees(b)
    ensures CashAgrees(AfterFreeze(b, u, t, amount))
  {
    var acc := AccountOf(b, u).(frozen := AccountOf(b, u).frozen + amount);
    PostKeepsCash(b, u, acc, Transaction(u, Freeze, -amount, acc.balance, Some(t)));
  }

  lemma RefundKeepsCash(b: Books, u: string, t: string, amount: int)
    requires CashAgrees(b)
    ensures CashAgrees(AfterRefund(b, u, t, amount))
  {
    if u in b.accounts {
      var acc := Thawed(b.accounts[u], amount);
      PostKeepsCash(b, u, acc, Transaction(u, Refund, amount, acc.balance, Some(t)));
    }
  }

  lemma SettleKeepsCash(b: Books, u: string, t: string, amount: int)
    requires CashAgrees(b)
    ensures CashAgrees(AfterSettle(b, u, t, amount))
  {
    if u in b.accounts {
      var acc := Thawed(b.accounts[u], amount);
      var acc' := acc.(balance := acc.balance - amount);
      var x := Transaction(u, Unfreeze, amount, acc.balance, Some(t));
      var y := Transaction(u, Deduct, -amount, acc'.balance, Some(t));
      PostKeepsCash(b, u, acc, x);
      PostKeepsCash(Post(b, u, acc, [x]), u, acc', y);
      assert AfterSettle(b, u, t, amount) == Post(Post(b, u, acc, [x]), u, acc', [y]);
    }
  }

  // ---- what one operation does, against the ledger ----

  /** An account that agrees with the ledger freezes an amount iff the user's ledger adds up to it or more. */
  lemma FreezesIffAffordable(b: Books, u: string, t: string, amount: int)
    requires AccountAgrees(b, u)
    ensures var b' := AfterFreeze(b, u, t, amount);
      && (CanFreeze(b, u, amount) <==> amount <= SumAll(b.txs, u))
      && if amount <= SumAll(b.txs, u)
         then Available(b', u) == SumAll(b.txs, u) - amount && AccountOf(b', u).balance == AccountOf(b, u).balance
              && b'.txs == b.txs + [Transaction(u, Freeze, -amount, AccountOf(b, u).balance, Some(t))]
         else b' == b
  {
  }

  /** A deposit adds its amount to the balance and to what can be spent, in one line, and touches nobody else. */
  lemma DepositAddsItsAmount(b: Books, u: string, amount: int)
    ensures var b' := AfterDeposit(b, u, amount);
      && AccountOf(b', u).balance == AccountOf(b, u).balance + amount
      && Available(b', u) == Available(b, u) + amount
      && b'.txs == b.txs + [Transaction(u, Deposit, amount, AccountOf(b, u).balance + amount, None)]
      && forall v :: v != u ==> AccountOf(b', v) == AccountOf(b, v)
  {
  }

  // ---- all accounts together ----

  lemma FreezeKeepsAccounts(b: Books, u: string, t: string, amount: int)
    requires Balanced(b) && 0 <= amount && t !in Holds(b.txs)
    ensures forall v :: AccountAgrees(AfterFreeze(b, u, t, amount), v)
  {
    forall v ensures AccountAgrees(AfterFreeze(b, u, t, amount), v) {
      assert AccountAgrees(b, v);
      FreezeKeepsAccount(b, u, t, amount, v);
    }
  }

  lemma {:induction false} FreezeKeepsBalanced(b: Books, u: string, t: string, amount: int)
    requires Balanced(b) && 0 <= amount && t !in Holds(b.txs)
    ensures Balanced(AfterFreeze(b, u, t, amount))
    ensures CanFreeze(b, u, amount) ==> Holds(AfterFreeze(b, u, t, amount).txs) == Holds(b.txs)[t := Held(u, amount)]
  {
    if CanFreeze(b, u, amount) {
      assert AccountAgrees(b, u);
      FreezePosts(b, u, t, amount);
      FreezeKeepsAccounts(b, u, t, amount);
    }
  }

  lemma FreezePosts(b: Books, u: string, t: string, amount: int)
    requires Balanced(b) && 0 <= amount && t !in Holds(b.txs) && CanFreeze(b, u, amount)
    ensures var b' := AfterFreeze(b, u, t, amount);
      && Orderly(b'.txs) && BalanceAfterAgrees(b'.txs) && Posted(b'.txs) <= b'.accounts.Keys
      && Holds(b'.txs) == Holds(b.txs)[t := Held(u, amount)]
  {
    assert AccountAgrees(b, u);
    var b' := AfterFreeze(b, u, t, amount);
    var acc, x := b'.accounts[u], b'.txs[|b.txs|];
    assert b' == Post(b, u, acc, [x]);
    PostKeepsBooks(b, u, acc, x);
  }

  // ---- what the operations do to the holds, balanced or not ----

  /** Whoever has entries has an account. */
  ghost predicate Funded(b: Books) {
    Posted(b.txs) <= b.accounts.Keys
  }

  lemma {:induction false} HolderIsPosted(txs: seq<Transaction>, t: string)
    requires t in Holds(txs)
    ensures Holds(txs)[t].user in Posted(txs)
  {
    var n := |txs| - 1;
    if t in Holds(txs[..n]) { HolderIsPosted(txs[..n], t); }
  }

  lemma PostHolds(b: Books, u: string, acc: Account, x: Transaction)
    requires Funded(b) && x.user == u
    ensures Funded(Post(b, u, acc, [x])) && Holds(Post(b, u, acc, [x]).txs) == Note(Holds(b.txs), x)
  {
    HoldsAppend(b.txs, x);
    assert (b.txs + [x])[..|b.txs|] == b.txs;
  }

  lemma FreezeHolds(b: Books, u: string, t: string, amount: int)
    requires Funded(b)
    ensures Funded(AfterFreeze(b, u, t, amount))
    ensures Holds(AfterFreeze(b, u, t, amount).txs) ==
            if CanFreeze(b, u, amount) then Holds(b.txs)[t := Held(u, amount)] else Holds(b.txs)
  {
    var acc := AccountOf(b, u);
    PostHolds(b, u, acc.(frozen := acc.frozen + amount), Transaction(u, Freeze, -amount, acc.balance, Some(t)));
  }

  lemma RefundHolds(b: Books, u: string, t: string, amount: int)
    requires Funded(b)
    ensures Funded(AfterRefund(b, u, t, amount))
    ensures Holds(AfterRefund(b, u, t, amount).txs) ==
            if u in b.accounts then Holds(b.txs)[t := Repaid(u, amount)] else Holds(b.txs)
  {
    if u in b.accounts {
      var acc := Thawed(b.accounts[u], amount);
      PostHolds(b, u, acc, Transaction(u, Refund, amount, acc.balance, Some(t)));
    }
  }

  lemma SettleHolds(b: Books, u: string, t: string, amount: int)
    requires Funded(b)
    ensures Funded(AfterSettle(b, u, t, amount))
    ensures Holds(AfterSettle(b, u, t, amount).txs) ==
            if u in b.accounts then Holds(b.txs)[t := Charged(u, amount)] else Holds(b.txs)
  {
    if u in b.accounts {
      var acc := Thawed(b.accounts[u], amount);
      var acc' := acc.(balance := acc.balance - amount);
      var x := Transaction(u, Unfreeze, amount, acc.balance, Some(t));
      var y := Transaction(u, Deduct, -amount, acc'.balance, Some(t));
      var b1 := Post(b, u, acc, [x]);
      PostHolds(b, u, acc, x);
      PostHolds(b1, u, acc', y);
      assert AfterSettle(b, u, t, amount) == Post(b1, u, acc', [y]);
    }
  }

  lemma DepositHolds(b: Books, u: string, amount: int)
    requires Funded(b)
    ensures Funded(AfterDeposit(b, u, amount)) && Holds(AfterDeposit(b, u, amount).txs) == Holds(b.txs)
  {
    var acc := AccountOf(b, u);
    PostHolds(b, u, acc.(balance := acc.balance + amount), Transaction(u, Deposit, amount, acc.balance + amount, None));
  }

  // ---- a refund of what was never frozen ----

  function Min(x: int, y: int): int {
    if x < y then x else y
  }

  /**
   * Refunding an amount that no freeze of this trace holds gives the user that much more to spend, as far as
   * other traces of theirs have GP frozen: their holds stay in the ledger, uncovered. Their account no longer
   * agrees with the ledger, and what is available no longer replays from it once the clamp at 0 is reached.
   */
  lemma UnfundedRefund(b: Books, u: string, t: string, amount: int)
    requires AccountAgrees(b, u) && t !in Holds(b.txs) && u in b.accounts && 1 <= amount
    ensures var b' := AfterRefund(b, u, t, amount); var early := Min(amount, AccountOf(b, u).frozen);
      && AccountOf(b', u).balance == AccountOf(b, u).balance
      && Available(b', u) == Available(b, u) + early
      && Outstanding(Holds(b'.txs), u) == AccountOf(b', u).frozen + early
      && (Available(b', u) == SumAll(b'.txs, u) <==> amount <= AccountOf(b, u).frozen)
      && !AccountAgrees(b', u) && !Orderly(b'.txs)
  {
    var acc := Thawed(b.accounts[u], amount);
    var x := Transaction(u, Refund, amount, acc.balance, Some(t));
    PostSeen(b, u, acc, x, u);
    OutstandingAfter(Holds(b.txs), u, t, Repaid(u, amount));
    assert (b.txs + [x])[..|b.txs|] == b.txs;
  }

  /** Such a refund touches nobody else. */
  lemma UnfundedRefundSparesOthers(b: Books, u: string, t: string, amount: int, v: string)
    requires AccountAgrees(b, v) && t !in Holds(b.txs) && v != u
    ensures AccountAgrees(AfterRefund(b, u, t, amount), v)
  {
    if u in b.accounts {
      var acc := Thawed(b.accounts[u], amount);
      PostSeen(b, u, acc, Transaction(u, Refund, amount, acc.balance, Some(t)), v);
      HoldMoved(b, AfterRefund(b, u, t, amount), t, Repaid(u, amount), v);
    }
  }

  /** A held amount is covered by the frozen total, so the reset to 0 is unreachable. */
  lemma HoldIsCovered(b: Books, u: string, t: string, amount: int)
    requires Balanced(b) && t in Holds(b.txs) && Holds(b.txs)[t] == Held(u, amount)
    ensures u in b.accounts && 0 <= amount <= b.accounts[u].frozen
    ensures Thawed(b.accounts[u], amount).frozen == b.accounts[u].frozen - amount
  {
    assert AccountAgrees(b, u);
    HoldIsPosted(b.txs, t);
    OrderlyIsSized(b.txs);
    HeldIsCovered(b, u, t, amount);
  }

  lemma OrderlyIsSized(txs: seq<Transaction>)
    requires Orderly(txs)
    ensures Sized(Holds(txs))
  {
    forall t | t in Holds(txs) ensures 0 <= Holds(txs)[t].amount { HoldIsPosted(txs, t); }
  }

  lemma {:induction false} RefundKeepsBalanced(b: Books, u: string, t: string, amount: int)
    requires Balanced(b) && t in Holds(b.txs) && Holds(b.txs)[t] == Held(u, amount)
    ensures Balanced(AfterRefund(b, u, t, amount))
    ensures Holds(AfterRefund(b, u, t, amount).txs) == Holds(b.txs)[t := Repaid(u, amount)]
  {
    HoldIsCovered(b, u, t, amount);
    assert AccountAgrees(b, u);
    var acc := Thawed(b.accounts[u], amount);
    var b' := AfterRefund(b, u, t, amount);
    PostKeepsBooks(b, u, acc, Transaction(u, Refund, amount, acc.balance, Some(t)));
    OrderlyIsSized(b.txs);
    forall v ensures AccountAgrees(b', v) {
      assert AccountAgrees(b, v);
      RefundKeepsAccount(b, u, t, amount, v);
    }
  }

  lemma {:induction false} SettleKeepsBalanced(b: Books, u: string, t: string, amount: int)
    requires Balanced(b) && t in Holds(b.txs) && Holds(b.txs)[t] == Held(u, amount)
    ensures Balanced(AfterSettle(b, u, t, amount))
    ensures Holds(AfterSettle(b, u, t, amount).txs) == Holds(b.txs)[t := Charged(u, amount)]
  {
    HoldIsCovered(b, u, t, amount);
    assert AccountAgrees(b, u);
    var acc := Thawed(b.accounts[u], amount);
    var acc' := acc.(balance := acc.balance - amount);
    var x := Transaction(u, Unfreeze, amount, acc.balance, Some(t));
    var y := Transaction(u, Deduct, -amount, acc'.balance, Some(t));
    var b1 := Post(b, u, acc, [x]);
    PostKeepsBooks(b, u, acc, x);
    PostKeepsBooks(b1, u, acc', y);
    var b' := AfterSettle(b, u, t, amount);
    assert b'.txs == b1.txs + [y];
    assert b' == Post(b1, u, acc', [y]);
    assert Holds(b'.txs) == Holds(b.txs)[t := Charged(u, amount)];
    OrderlyIsSized(b.txs);
    forall v ensures AccountAgrees(b', v) {
      assert AccountAgrees(b, v);
      SettleKeepsAccount(b, u, t, amount, v);
    }
  }

  // ---- reading an orderly ledger trace by trace ----

  datatype Line = Line(user: string, kind: Kind, amount: int)

  function LinesOf(txs: seq<Transaction>, t: string): seq<Line> {
    if txs == [] then []
    else
      var x := txs[|txs| - 1];
      LinesOf(txs[..|txs| - 1], t) + if x.trace == Some(t) then [Line(x.user, x.kind, x.amount)] else []
  }

  function LinesFor(h: map<string, Hold>, t: string): seq<Line> {
    if t !in h then []
    else match h[t]
      case Held(u, a) => [Line(u, Freeze, -a)]
      case Unfrozen(u, a) => [Line(u, Freeze, -a), Line(u, Unfreeze, a)]
      case Charged(u, a) => [Line(u, Freeze, -a), Line(u, Unfreeze, a), Line(u, Deduct, -a)]
      case Repaid(u, a) => [Line(u, Freeze, -a), Line(u, Refund, a)]
  }

  /** In an orderly ledger a trace's lines are those of its hold: never charged twice, nor charged and repaid. */
  lemma {:induction false} OrderlyLines(txs: seq<Transaction>, t: string)
    requires Orderly(txs)
    ensures LinesOf(txs, t) == LinesFor(Holds(txs), t)
  {
    if txs != [] {
      var n := |txs| - 1;
      OrderlyLines(txs[..n], t);
    }
  }

  // ---- reading any ledger trace by trace ----

  /** A trace's lines are those of its hold, or the lone refund of something it never froze. */
  predicate LinesFit(txs: seq<Transaction>, t: string, lone: bool) {
    var h := Holds(txs);
    if lone then t in h && h[t].Repaid? && LinesOf(txs, t) == [Line(h[t].user, Refund, h[t].amount)]
    else LinesOf(txs, t) == LinesFor(h, t)
  }

  lemma LinesAppend(txs: seq<Transaction>, x: Transaction, t: string)
    ensures Holds(txs + [x]) == Note(Holds(txs), x)
    ensures LinesOf(txs + [x], t) ==
            LinesOf(txs, t) + if x.trace == Some(t) then [Line(x.user, x.kind, x.amount)] else []
  {
    assert (txs + [x])[..|txs|] == txs;
  }

  lemma DepositKeepsLines(b: Books, u: string, amount: int, s: string, lone: bool)
    requires LinesFit(b.txs, s, lone)
    ensures LinesFit(AfterDeposit(b, u, amount).txs, s, lone)
  {
    LinesAppend(b.txs, Transaction(u, Deposit, amount, AccountOf(b, u).balance + amount, None), s);
  }

  lemma FreezeKeepsLines(b: Books, u: string, t: string, amount: int, s: string, lone: bool)
    requires LinesFit(b.txs, s, lone) && t !in Holds(b.txs)
    ensures LinesFit(AfterFreeze(b, u, t, amount).txs, s, lone)
  {
    LinesAppend(b.txs, Transaction(u, Freeze, -amount, AccountOf(b, u).balance, Some(t)), s);
  }

  lemma RefundKeepsLines(b: Books, u: string, t: string, amount: int, s: string, lone: bool)
    requires LinesFit(b.txs, s, lone) && t in Holds(b.txs) && Holds(b.txs)[t] == Held(u, amount)
    ensures LinesFit(AfterRefund(b, u, t, amount).txs, s, lone)
  {
    LinesAppend(b.txs, Transaction(u, Refund, amount, AccountOf(b, u).balance, Some(t)), s);
  }

  lemma UnfundedRefundIsLone(b: Books, u: string, t: string, amount: int, s: string, lone: bool)
    requires LinesFit(b.txs, s, lone) && t !in Holds(b.txs) && u in b.accounts
    ensures LinesFit(AfterRefund(b, u, t, amount).txs, s, lone || s == t)
  {
    LinesAppend(b.txs, Transaction(u, Refund, amount, AccountOf(b, u).balance, Some(t)), s);
  }

  lemma SettleKeepsLines(b: Books, u: string, t: string, amount: int, s: string, lone: bool)
    requires LinesFit(b.txs, s, lone) && t in Holds(b.txs) && Holds(b.txs)[t] == Held(u, amount)
    ensures LinesFit(AfterSettle(b, u, t, amount).txs, s, lone)
  {
    if u in b.accounts {
      var acc := b.accounts[u];
      var x := Transaction(u, Unfreeze, amount, acc.balance, Some(t));
      var y := Transaction(u, Deduct, -amount, acc.balance - amount, Some(t));
      LinesAppend(b.txs, x, s);
      LinesAppend(b.txs + [x], y, s);
      assert AfterSettle(b, u, t, amount).txs == b.txs + [x] + [y];
      SettledLines(b.txs, AfterSettle(b, u, t, amount).txs, u, t, amount, s, lone);
    }
  }

  lemma SettledLines(txs: seq<Transaction>, txs': seq<Transaction>, u: string, t: string, amount: int, s: string,
                     lone: bool)
    requires LinesFit(txs, s, lone) && t in Holds(txs) && Holds(txs)[t] == Held(u, amount)
    requires Holds(txs') == Holds(txs)[t := Charged(u, amount)]
    requires LinesOf(txs', s) == LinesOf(txs, s) + if s == t then [Line(u, Unfreeze, amount), Line(u, Deduct, -amount)]
                                                   else []
    ensures LinesFit(txs', s, lone)
  {
  }
}
