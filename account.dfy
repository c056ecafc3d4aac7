/**
 * A bank account (src/Account.cpp): identity fixed at creation and a balance that deposit,
 * withdraw and transfer update in place. Balances are whole KRW; a deposit takes any amount,
 * so the balance is an `int`, and only the debits promise to keep it non-negative.
 */
module Accounts {

  class Account {
    const bankName: string
    const userName: string
    const accountNumber: string
    const pin: string
    var balance: int

    /** A new account starts with an empty balance. */
    constructor (bank: string, user: string, number: string, pin: string)
      ensures bankName == bank && userName == user && accountNumber == number && this.pin == pin
      ensures balance == 0
    {
      bankName := bank;
      userName := user;
      accountNumber := number;
      this.pin := pin;
      balance := 0;
    }

    /** Credits the account; there is no failure case. */
    method Deposit(amount: int) returns (ok: bool)
      modifies this
      ensures ok
      ensures balance == old(balance) + amount
    {
      balance := balance + amount;
      ok := true;
    }

    /**
     * Debits the account when the amount does not exceed the balance (the whole balance may be
     * taken); otherwise nothing changes. A successful debit of a non-negative balance leaves it non-negative.
     */
    method Withdraw(amount: int) returns (ok: bool)
      modifies this
      ensures ok <==> amount <= old(balance)
      ensures balance == if ok then old(balance) - amount else old(balance)
      ensures ok ==> balance >= 0
    {
      if amount > balance {
        return false;
      }
      balance := balance - amount;
      ok := true;
    }

    /**
     * Debits the account under the same rule as Withdraw. The destination number is not used:
     * nothing is credited anywhere.
     */
    method Transfer(toAccount: string, amount: int) returns (ok: bool)
      modifies this
      ensures ok <==> amount <= old(balance)
      ensures balance == if ok then old(balance) - amount else old(balance)
      ensures ok ==> balance >= 0
    {
      if amount > balance {
        return false;
      }
      balance := balance - amount;
      ok := true;
    }

    function GetBalance(): (b: int)
      reads this
      ensures b == balance
    {
      balance
    }
  }
}
