/**
 * A bank (src/Bank.cpp): an index from account number to account and an index from owner name
 * to the owner's account numbers, in creation order. Lookups never change either index.
 */
module Banks {

  import opened Accounts

  /** A PIN is exactly four decimal digits. */
  predicate IsValidPin(pin: string)
  {
    |pin| == 4 && forall i :: 0 <= i < |pin| ==> '0' <= pin[i] <= '9'
  }

  class Bank {
    const name: string
    var accounts: map<string, Account>
    var userAccounts: map<string, seq<string>>

    constructor (bankName: string)
      ensures name == bankName && accounts == map[] && userAccounts == map[]
    {
      name := bankName;
      accounts := map[];
      userAccounts := map[];
    }

    /** The account with this number, or null when the bank holds none. */
    function GetAccount(accountNumber: string): (r: Account?)
      reads this
      ensures r != null <==> accountNumber in accounts
      ensures r != null ==> r == accounts[accountNumber]
    {
      if accountNumber in accounts then accounts[accountNumber] else null
    }

    /** True exactly when the account exists and its stored PIN is the given one. */
    function VerifyPin(accountNumber: string, pin: string): (r: bool)
      reads this
      ensures r <==> GetAccount(accountNumber) != null && GetAccount(accountNumber).pin == pin
    {
      accountNumber in accounts && accounts[accountNumber].pin == pin
    }

    /** The owner's account numbers in creation order; empty for an unknown owner. */
    function GetUserAccounts(userName: string): (r: seq<string>)
      reads this
      ensures userName !in userAccounts ==> r == []
      ensures userName in userAccounts ==> r == userAccounts[userName]
    {
      if userName in userAccounts then userAccounts[userName] else []
    }

    /**
     * Opens an account with balance 0. A PIN that is not four digits is refused and nothing
     * changes. Otherwise the new account is stored under its number, replacing any account
     * already stored there, and the number is appended to the owner's list.
     */
    method CreateAccount(userName: string, accountNumber: string, pin: string) returns (ok: bool)
      modifies this
      ensures ok <==> IsValidPin(pin)
      ensures !ok ==> accounts == old(accounts) && userAccounts == old(userAccounts)
      ensures ok ==> accountNumber in accounts && fresh(accounts[accountNumber])
      ensures ok ==> accounts == old(accounts)[accountNumber := accounts[accountNumber]]
      ensures ok ==> var a := accounts[accountNumber];
        a.balance == 0 && a.bankName == name && a.userName == userName && a.accountNumber == accountNumber
      ensures ok ==> VerifyPin(accountNumber, pin)
      ensures ok ==> userAccounts == old(userAccounts)[userName := old(GetUserAccounts(userName)) + [accountNumber]]
    {
      if |pin| != 4 || exists i :: 0 <= i < |pin| && !('0' <= pin[i] <= '9') {
        return false;
      }
      var account := new Account(name, userName, accountNumber, pin);
      accounts := accounts[accountNumber := account];
      userAccounts := userAccounts[userName := GetUserAccounts(userName) + [accountNumber]];
      ok := true;
    }
  }

  /**
   * The position of the first bank in `banks` that holds the account number, or |banks| when
   * none does: the search order of every "first match wins" loop over a list of banks.
   */
  function FirstHolder(banks: seq<Bank>, accountNumber: string): (i: nat)
    reads banks
    ensures i <= |banks|
    ensures i < |banks| ==> accountNumber in banks[i].accounts
    ensures forall j :: 0 <= j < i ==> accountNumber !in banks[j].accounts
  {
    if banks == [] then 0
    else if accountNumber in banks[0].accounts then 0
    else 1 + FirstHolder(banks[1..], accountNumber)
  }
}
