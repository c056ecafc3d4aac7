/**
 * A customer session (src/Session.cpp and the members src/ATM.cpp calls on it): the card and
 * account it serves, its transaction history, an active flag with the text of the error that
 * ended it, and the withdrawal and check-deposit counters.
 */
module Sessions {

  import opened Constants
  import opened Accounts
  import opened Transactions

  class Session {
    const card: string
    const account: Account?
    var transactions: seq<Transaction>
    var active: bool
    var lastError: string
    var withdrawalCount: nat
    var checkDepositCount: nat

    /** The counters stay within their per-session caps. */
    ghost predicate Valid()
      reads this
    {
      withdrawalCount <= MAX_WITHDRAWALS_PER_SESSION && checkDepositCount <= MAX_CHECK_INSERT
    }

    /** A new session is active, has no history and can withdraw. */
    constructor (card: string, account: Account?)
      ensures this.card == card && this.account == account
      ensures transactions == [] && active && lastError == ""
      ensures withdrawalCount == 0 && checkDepositCount == 0
      ensures Valid() && CanWithdraw() && CanDepositCheck()
    {
      this.card := card;
      this.account := account;
      transactions := [];
      active := true;
      lastError := "";
      withdrawalCount := 0;
      checkDepositCount := 0;
    }

    /** Fewer than three withdrawals so far. */
    predicate CanWithdraw(): (r: bool)
      reads this
      ensures r ==> withdrawalCount + 1 <= MAX_WITHDRAWALS_PER_SESSION
      ensures Valid() && !r ==> withdrawalCount == MAX_WITHDRAWALS_PER_SESSION
    {
      withdrawalCount < MAX_WITHDRAWALS_PER_SESSION
    }

    /** Fewer than fifty check deposits so far. */
    predicate CanDepositCheck()
      reads this
    {
      checkDepositCount < MAX_CHECK_INSERT
    }

    /** Appends a record numbered by its position in the history; there is no failure case. */
    method AddTransaction(kind: TransactionType, amount: int, fee: int, details: string) returns (ok: bool)
      modifies this`transactions
      ensures ok
      ensures transactions == old(transactions) + [Transaction(|old(transactions)|, card, kind, amount, fee, details)]
    {
      transactions := transactions + [Transaction(|transactions|, card, kind, amount, fee, details)];
      ok := true;
    }

    /** Counts one withdrawal; a caller that first checked CanWithdraw keeps the count within its cap. */
    method IncrementWithdrawalCount()
      modifies this`withdrawalCount
      ensures withdrawalCount == old(withdrawalCount) + 1
      ensures old(Valid() && CanWithdraw()) ==> Valid()
    {
      withdrawalCount := withdrawalCount + 1;
    }

    /** Counts one check deposit; a caller that first checked CanDepositCheck keeps the count within its cap. */
    method IncrementCheckDeposit()
      modifies this`checkDepositCount
      ensures checkDepositCount == old(checkDepositCount) + 1
      ensures old(Valid() && CanDepositCheck()) ==> Valid()
    {
      checkDepositCount := checkDepositCount + 1;
    }

    /** Ends the session normally. */
    method EndSession()
      modifies this`active
      ensures !active
    {
      active := false;
    }

    /** Ends the session and records why. */
    method EndSessionWithError(message: string)
      modifies this`active, this`lastError
      ensures !active && lastError == message
    {
      active := false;
      lastError := message;
    }
  }
}
