/** balance/service.go: each operation runs in one database transaction, updating the account row in place. */
module BalanceService {
  import opened TaskStore
  import opened Ledger

  datatype FreezeReply = FreezeDone | InsufficientBalance | FreezeError

  class Service {
    var accounts: map<string, Account>
    var ledger: seq<Transaction>

    function State(): Books
      reads this
    {
      Books(accounts, ledger)
    }

    constructor ()
      ensures State() == EmptyBooks
    {
      accounts, ledger := map[], [];
    }

    /** Reads the row, or starts one at zero. */
    method GetOrCreateAccount(userID: string) returns (acc: Account)
      ensures acc == AccountOf(State(), userID)
    {
      if userID in accounts { return accounts[userID]; }
      acc := Account(0, 0);
    }

    method Save(userID: string, acc: Account)
      modifies this`accounts
      ensures accounts == old(accounts)[userID := acc]
    {
      accounts := accounts[userID := acc];
    }

    method Record(txn: Transaction)
      modifies this`ledger
      ensures ledger == old(ledger) + [txn]
    {
      ledger := ledger + [txn];
    }

    method Deposit(userID: string, amount: int)
      modifies this
      ensures State() == AfterDeposit(old(State()), userID, amount)
      ensures AccountOf(State(), userID) ==
              AccountOf(old(State()), userID).(balance := AccountOf(old(State()), userID).balance + amount)
      ensures ledger ==
              old(ledger) + [Transaction(userID, Kind.Deposit, amount, AccountOf(State(), userID).balance, None)]
      ensures forall u :: u != userID ==> AccountOf(State(), u) == AccountOf(old(State()), u)
    {
      var acc := GetOrCreateAccount(userID);
      acc := acc.(balance := acc.balance + amount);
      Save(userID, acc);
      Record(Transaction(userID, Kind.Deposit, amount, acc.balance, None));
    }

    /** Anything but a freeze rolls the transaction back; commits says whether the database serves it. */
    method FreezeGP(userID: string, traceID: string, amount: int, commits: bool) returns (reply: FreezeReply)
      modifies this
      ensures reply == if !commits then FreezeError
                       else if CanFreeze(old(State()), userID, amount) then FreezeDone else InsufficientBalance
      ensures State() == if commits then AfterFreeze(old(State()), userID, traceID, amount) else old(State())
      ensures AccountAgrees(old(State()), userID) && commits ==>
                (reply == FreezeDone <==> amount <= SumAll(old(ledger), userID))
      ensures reply == FreezeDone ==>
                && AccountOf(State(), userID) ==
                   AccountOf(old(State()), userID).(frozen := AccountOf(old(State()), userID).frozen + amount)
                && ledger == old(ledger) + [Transaction(userID, Freeze, -amount, AccountOf(State(), userID).balance,
                                                        Some(traceID))]
      ensures reply != FreezeDone ==> State() == old(State())
    {
      if !commits { return FreezeError; }
      var acc := GetOrCreateAccount(userID);
      if acc.balance - acc.frozen < amount { return InsufficientBalance; }
      acc := acc.(frozen := acc.frozen + amount);
      Save(userID, acc);
      Record(Transaction(userID, Freeze, -amount, acc.balance, Some(traceID)));
      reply := FreezeDone;
    }

    /** Charges the frozen amount, whatever the node reports it used; commits says whether the database accepts it. */
    method SettleTask(userID: string, traceID: string, frozenAmount: int, actualGP: int, commits: bool)
      returns (ok: bool)
      modifies this
      ensures ok == (commits && userID in old(accounts))
      ensures State() == if commits then AfterSettle(old(State()), userID, traceID, frozenAmount) else old(State())
      ensures ok ==> AccountOf(State(), userID).balance == AccountOf(old(State()), userID).balance - frozenAmount
      ensures ok && frozenAmount <= AccountOf(old(State()), userID).frozen ==>
                Available(State(), userID) == Available(old(State()), userID)
    {
      if !commits || userID !in accounts { return false; }
      var acc := accounts[userID];
      acc := acc.(frozen := acc.frozen - frozenAmount);
      if acc.frozen < 0 { acc := acc.(frozen := 0); }
      Record(Transaction(userID, Unfreeze, frozenAmount, acc.balance, Some(traceID)));
      acc := acc.(balance := acc.balance - frozenAmount);
      Record(Transaction(userID, Deduct, -frozenAmount, acc.balance, Some(traceID)));
      Save(userID, acc);
      ok := true;
    }

    method RefundTask(userID: string, traceID: string, frozenAmount: int, commits: bool) returns (ok: bool)
      modifies this
      ensures ok == (commits && userID in old(accounts))
      ensures State() == if commits then AfterRefund(old(State()), userID, traceID, frozenAmount) else old(State())
      ensures ok ==> AccountOf(State(), userID).balance == AccountOf(old(State()), userID).balance
      ensures ok && frozenAmount <= AccountOf(old(State()), userID).frozen ==>
                Available(State(), userID) == Available(old(State()), userID) + frozenAmount
    {
      if !commits || userID !in accounts { return false; }
      var acc := accounts[userID];
      acc := acc.(frozen := acc.frozen - frozenAmount);
      if acc.frozen < 0 { acc := acc.(frozen := 0); }
      Save(userID, acc);
      Record(Transaction(userID, Refund, frozenAmount, acc.balance, Some(traceID)));
      ok := true;
    }
  }
}
