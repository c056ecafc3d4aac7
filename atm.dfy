/**
 * The terminal (include/ATM.hpp, src/ATM.cpp): its primary and connected banks, its cash
 * inventory and the current session, and the deposit, withdrawal and transfer operations that
 * route an account number to a bank, charge the fee table and move bills and balances.
 */
module Atm {

  import opened Constants
  import opened Wrappers
  import opened Inventory
  import opened Accounts
  import opened Banks
  import opened Transactions
  import opened Sessions

  const MAX_PIN_ATTEMPTS: int := 3

  /** The localized-message keys recorded in session history and as the session's error text. */
  const CASH_DEPOSIT_TYPE: string := "CASH_DEPOSIT_TYPE"
  const CHECK_DEPOSIT_TYPE: string := "CHECK_DEPOSIT_TYPE"
  const WITHDRAWAL_TYPE: string := "WITHDRAWAL_TYPE"
  const MAX_PIN_EXCEEDED: string := "MAX_PIN_EXCEEDED"

  /** Where an account number was found: the bank, the account, and whether that bank is the primary one. */
  datatype Routed = NotFound | Found(bank: Bank, account: Account, isPrimary: bool)

  /** The message an engine operation ends with (the key the terminal displays). */
  datatype Outcome =
    | Success
    | AccountNotFound
    | InvalidAccount
    | InvalidAmount
    | InsufficientCash
    | InsufficientFunds
    | InvalidOperation
    | MaxDepositExceeded
    | MaxCheckDepositExceeded

  // ---------------------------------------------------------------- fees

  /**
   * The fee table. Deposits and withdrawals cost 1000 at the primary bank and 2000 elsewhere;
   * an account transfer costs 2000 plus 1000 for each of its two banks that is not the primary
   * one; a cash transfer always costs 1000.
   */
  function Fee(kind: TransactionType, sourcePrimary: bool, destPrimary: bool): (fee: int)
    ensures kind == TransactionType.Deposit || kind == Withdrawal ==> fee == if sourcePrimary then 1000 else 2000
    ensures kind == TransferAccount ==>
      fee == 2000 + (if sourcePrimary then 0 else 1000) + (if destPrimary then 0 else 1000)
    ensures kind == TransferCash ==> fee == 1000
    ensures fee > 0
  {
    match kind
    case Deposit => if sourcePrimary then DEPOSIT_PRIMARY else DEPOSIT_NON_PRIMARY
    case Withdrawal => if sourcePrimary then WITHDRAWAL_PRIMARY else WITHDRAWAL_NON_PRIMARY
    case TransferAccount =>
      if sourcePrimary && destPrimary then TRANSFER_PRIMARY
      else if !sourcePrimary && !destPrimary then TRANSFER_NON_PRIMARY
      else TRANSFER_MIXED
    case TransferCash => TRANSFER_CASH
  }

  /** Transfers between primary-bank accounts are cheapest and those between two other banks dearest. */
  lemma TransferFeesOrdered()
    ensures Fee(TransferAccount, true, true) < Fee(TransferAccount, true, false) < Fee(TransferAccount, false, false)
    ensures Fee(TransferAccount, true, false) == Fee(TransferAccount, false, true)
    ensures forall p, q :: Fee(TransferCash, p, q) == TRANSFER_CASH
  {
  }

  /** A check is accepted from the minimum check amount upward. */
  predicate IsValidCheck(amount: int)
  {
    amount >= MIN_CHECK_AMOUNT
  }

  lemma CheckBoundary()
    ensures IsValidCheck(100000) && !IsValidCheck(99999)
  {
  }

  /** The administrator card; it has the twelve characters every card must have. */
  function IsAdminCard(card: string): (r: bool)
    ensures r ==> |card| == 12
  {
    card == ADMIN_CARD
  }

  /**
   * The inventory after updateCashInventory(amount): a positive amount changes nothing; otherwise
   * -amount is taken out greedily. Keys are kept and no count grows.
   */
  function UpdatedInventory(inv: Cash, amount: int): (r: Cash)
    ensures amount > 0 ==> r == inv
    ensures r.Keys == inv.Keys
    ensures forall d :: Count(r, d) <= Count(inv, d)
  {
    if amount > 0 then inv
    else
      DispenseOverKeepsKeys(inv, GREEDY_ORDER, -amount);
      DispenseOverNeverAdds(inv, GREEDY_ORDER, -amount);
      Dispense(inv, -amount)
  }

  /**
   * The verdict of a withdrawal at a routed account, checks in order: the inventory's total
   * value, then the balance against amount + fee, then the existence of a breakdown.
   */
  function WithdrawalOutcome(inv: Cash, balance: int, amount: int, fee: int): (o: Outcome)
    ensures o == Success <==> Value(inv) >= amount && balance >= amount + fee && Breakdown(inv, amount) != map[]
    ensures o == InsufficientCash <==> Value(inv) < amount
    ensures o == InsufficientFunds <==> Value(inv) >= amount && balance < amount + fee
    ensures o == Success || o == InsufficientCash || o == InsufficientFunds || o == InvalidOperation
  {
    if Value(inv) < amount then InsufficientCash
    else if balance < amount + fee then InsufficientFunds
    else if Breakdown(inv, amount) == map[] then InvalidOperation
    else Success
  }

  /** The details text of a transfer record: the destination, and for an account transfer the source too. */
  function TransferDetails(from: string, to: string, isCash: bool): string
  {
    if isCash then "TO " + to else "FROM " + from + " TO " + to
  }

  // ---------------------------------------------------------------- account transfer arithmetic

  /** The balances of a transfer's source and destination accounts. */
  datatype Balances = Balances(source: int, destination: int)

  /**
   * The account branch of transfer between two distinct accounts, as written: any amount the
   * source can cover together with the fee is moved, whatever its sign.
   */
  function AccountTransferAsWritten(b: Balances, amount: int, fee: int): (r: Option<Balances>)
    ensures r.Some? <==> b.source >= amount + fee
    ensures r.Some? ==> r.value.source + r.value.destination == b.source + b.destination - fee
    ensures r.Some? ==> r.value.destination - b.destination == amount
  {
    if b.source < amount + fee then None
    else Some(Balances(b.source - (amount + fee), b.destination + amount))
  }

  /**
   * The debit-then-credit sequence with its rollback: the source is debited amount + fee, then the
   * destination is credited; if the credit fails the debit is put back. `creditSucceeds` is the
   * destination's answer.
   */
  function DebitThenCredit(b: Balances, amount: int, fee: int, creditSucceeds: bool): (r: (bool, Balances))
    ensures r.0 <==> creditSucceeds && b.source >= amount + fee
    ensures !r.0 ==> r.1 == b
    ensures !creditSucceeds ==> !r.0 && r.1 == b
    ensures r.0 ==> r.1 == Balances(b.source - (amount + fee), b.destination + amount)
  {
    if b.source < amount + fee then (false, b)
    else
      var debited := b.source - (amount + fee);
      if creditSucceeds then (true, Balances(debited, b.destination + amount))
      else (false, Balances(debited + (amount + fee), b.destination))
  }

  /** Since a credit never fails, the rollback path is never taken and the sequence is the plain transfer. */
  lemma DebitThenCreditIsTransfer(b: Balances, amount: int, fee: int)
    ensures var (ok, after) := DebitThenCredit(b, amount, fee, true);
      (ok <==> AccountTransferAsWritten(b, amount, fee).Some?) &&
      (ok ==> after == AccountTransferAsWritten(b, amount, fee).value)
  {
  }

  /** A negative amount passes: the source gains money and the destination is driven below zero. */
  lemma NegativeAccountTransfer()
    ensures AccountTransferAsWritten(Balances(0, 0), -5000, 2000) == Some(Balances(3000, -5000))
  {
  }

  /** The account transfer with the amount check the cash branch already has: a non-positive amount is refused. */
  function AccountTransfer(b: Balances, amount: int, fee: int): (r: Option<Balances>)
    requires fee >= 0
    ensures r.Some? <==> amount > 0 && b.source >= amount + fee
    ensures r.Some? ==> r.value.source < b.source - fee && r.value.destination > b.destination
    ensures r.Some? ==> r.value.source + r.value.destination == b.source + b.destination - fee
    ensures r.Some? && b.source >= 0 ==> r.value.source >= 0
  {
    if amount <= 0 then None else AccountTransferAsWritten(b, amount, fee)
  }

  // ---------------------------------------------------------------- the terminal

  class ATM {
    const serialNumber: string
    const bankType: BankType
    const languageSupport: LanguageSupport
    const primaryBank: Bank
    var connectedBanks: seq<Bank>
    var cashInventory: Cash
    var currentSession: Session?

    /** All four denominations are stocked, and the primary bank is never listed among the connected ones. */
    ghost predicate Valid()
      reads this`cashInventory, this`connectedBanks
    {
      IsInventory(cashInventory) && primaryBank !in connectedBanks
    }

    /**
     * A terminal with no connected banks, no session and the given opening stock (the
     * initializer asks for a count of every denomination and adds them right after construction).
     */
    constructor (serial: string, kind: BankType, language: LanguageSupport, primary: Bank, stock: Cash)
      requires IsInventory(stock)
      ensures serialNumber == serial && bankType == kind && languageSupport == language && primaryBank == primary
      ensures connectedBanks == [] && cashInventory == stock && currentSession == null
      ensures Valid()
    {
      serialNumber := serial;
      bankType := kind;
      languageSupport := language;
      primaryBank := primary;
      connectedBanks := [];
      cashInventory := stock;
      currentSession := null;
    }

    /** The current session as a frame: empty when there is none. */
    function SessionFrame(): set<Session>
      reads this`currentSession
    {
      if currentSession == null then {} else {currentSession}
    }

    /**
     * Routing: the primary bank first; the connected banks, in order, only on a multi-bank
     * terminal; the first bank holding the number wins.
     */
    function Route(n: string): (r: Routed)
      reads this`connectedBanks, primaryBank, connectedBanks
      ensures r.Found? ==> n in r.bank.accounts && r.account == r.bank.accounts[n]
      ensures (r.Found? && r.isPrimary) <==> n in primaryBank.accounts
      ensures r.Found? && r.isPrimary ==> r.bank == primaryBank
    {
      if n in primaryBank.accounts then Found(primaryBank, primaryBank.accounts[n], true)
      else if bankType == MultiBank && FirstHolder(connectedBanks, n) < |connectedBanks| then
        var b := connectedBanks[FirstHolder(connectedBanks, n)];
        Found(b, b.accounts[n], false)
      else NotFound
    }

    /**
     * Routing searches the primary bank first and the connected banks only on a multi-bank
     * terminal, in their listed order; the first bank holding the number wins, and nothing is
     * found only when no searched bank holds the number.
     */
    lemma RouteSearchOrder(n: string)
      ensures Route(n).Found? && !Route(n).isPrimary ==>
        && bankType == MultiBank
        && exists i :: 0 <= i < |connectedBanks| && connectedBanks[i] == Route(n).bank &&
             forall j :: 0 <= j < i ==> n !in connectedBanks[j].accounts
      ensures Route(n).NotFound? <==>
        n !in primaryBank.accounts && (bankType != MultiBank || forall i :: 0 <= i < |connectedBanks| ==> n !in connectedBanks[i].accounts)
    {
    }

    /** The account an operation on n may change: the routed one, if any. */
    function Touched(n: string): set<Account>
      reads this`connectedBanks, primaryBank, connectedBanks
    {
      if Route(n).Found? then {Route(n).account} else {}
    }

    /** The bank-search loop each operation starts with. */
    method FindAccount(n: string) returns (r: Routed)
      ensures r == Route(n)
    {
      if n in primaryBank.accounts {
        return Found(primaryBank, primaryBank.GetAccount(n), true);
      }
      r := NotFound;
      if bankType == MultiBank {
        var i := 0;
        while i < |connectedBanks| && r.NotFound?
          invariant 0 <= i <= |connectedBanks|
          invariant r.NotFound? ==> forall j :: 0 <= j < i ==> n !in connectedBanks[j].accounts
          invariant r.Found? ==>
            && 0 < i && FirstHolder(connectedBanks, n) == i - 1
            && r == Found(connectedBanks[i - 1], connectedBanks[i - 1].accounts[n], false)
        {
          var account := connectedBanks[i].GetAccount(n);
          if account != null {
            r := Found(connectedBanks[i], account, false);
          }
          i := i + 1;
        }
      }
    }

    /** Connects another bank; the primary bank is never added to the list. */
    method AddConnectedBank(bank: Bank)
      requires Valid()
      modifies this`connectedBanks
      ensures connectedBanks == if bank == primaryBank then old(connectedBanks) else old(connectedBanks) + [bank]
      ensures Valid()
    {
      if bank != primaryBank {
        connectedBanks := connectedBanks + [bank];
      }
    }

    method StartSession(card: string, account: Account?)
      modifies this`currentSession
      ensures currentSession != null && fresh(currentSession)
      ensures currentSession.card == card && currentSession.account == account
      ensures currentSession.transactions == [] && currentSession.active
      ensures currentSession.withdrawalCount == 0 && currentSession.checkDepositCount == 0
    {
      currentSession := new Session(card, account);
    }

    /** Ends the current session, if any, and forgets it. */
    method EndCurrentSession()
      modifies this`currentSession, SessionFrame()`active
      ensures currentSession == null
      ensures old(currentSession) != null ==> !old(currentSession).active
    {
      if currentSession != null {
        currentSession.EndSession();
        currentSession := null;
      }
    }

    predicate HasActiveSession()
      reads this`currentSession, SessionFrame()
    {
      currentSession != null && currentSession.active
    }

    // ------------------------------------------------------------ cash inventory

    /** Adds every bill of a cash input to the inventory; there is no failure case. */
    method AddCash(cash: Cash) returns (ok: bool)
      requires Valid() && IsCashInput(cash)
      modifies this`cashInventory
      ensures ok
      ensures cashInventory == AddCounts(old(cashInventory), cash)
      ensures Valid()
    {
      ghost var inv0 := cashInventory;
      for i := 0 to |DENOMINATIONS|
        invariant AddOver(cashInventory, cash, DENOMINATIONS[i..]) == AddOver(inv0, cash, DENOMINATIONS)
      {
        var d := DENOMINATIONS[i];
        assert DENOMINATIONS[i..][1..] == DENOMINATIONS[i + 1..];
        if d in cash {
          cashInventory := cashInventory[d := Count(cashInventory, d) + cash[d]];
        }
      }
      AddOverIsAddCounts(inv0, cash);
      AddCountsValue(inv0, cash);
      ok := true;
    }

    /** True exactly when the inventory's total value covers the amount. */
    method HasSufficientCash(amount: int) returns (sufficient: bool)
      requires Valid()
      ensures sufficient <==> Value(cashInventory) >= amount
    {
      var total := Total(cashInventory);
      sufficient := total >= amount;
    }

    /**
     * The greedy breakdown of the amount, largest denomination first, without touching the
     * inventory: empty when the stock cannot make the amount exactly, otherwise bills of valid
     * denominations, never more than stocked, worth exactly the amount.
     */
    method GetCashBreakdown(amount: int) returns (breakdown: Cash)
      requires Valid()
      ensures breakdown == Breakdown(cashInventory, amount)
      ensures breakdown != map[] ==> Value(breakdown) == amount && amount > 0
      ensures forall d :: d in breakdown ==> d in DENOMINATION_SET && 0 < breakdown[d] <= Count(cashInventory, d)
    {
      var remaining := amount;
      breakdown := map[];
      for i := 0 to |GREEDY_ORDER|
        invariant AllPositive(GREEDY_ORDER[i..])
        invariant AllocateOver(cashInventory, GREEDY_ORDER[i..], Allocation(remaining, breakdown)) == GreedyAllocation(cashInventory, amount)
      {
        var d := GREEDY_ORDER[i];
        assert GREEDY_ORDER[i..][1..] == GREEDY_ORDER[i + 1..];
        if remaining >= d {
          var needed := remaining / d;
          var available := cashInventory[d];
          var use := Min(needed, available);
          if use > 0 {
            breakdown := breakdown[d := use];
            remaining := remaining - d * use;
          }
        }
      }
      if remaining > 0 {
        breakdown := map[];
      }
      BreakdownSound(cashInventory, amount);
    }

    /**
     * A positive amount changes nothing; otherwise -amount is taken out of the inventory greedily,
     * largest denomination first, never taking more bills than are stocked.
     */
    method UpdateCashInventory(amount: int)
      requires Valid()
      modifies this`cashInventory
      ensures cashInventory == UpdatedInventory(old(cashInventory), amount)
      ensures Valid()
    {
      if amount > 0 {
        return;
      }
      ghost var inv0 := cashInventory;
      var remaining := -amount;
      for i := 0 to |GREEDY_ORDER|
        invariant AllPositive(GREEDY_ORDER[i..])
        invariant cashInventory.Keys == inv0.Keys
        invariant DispenseOver(cashInventory, GREEDY_ORDER[i..], remaining) == Dispense(inv0, -amount)
      {
        var d := GREEDY_ORDER[i];
        assert GREEDY_ORDER[i..][1..] == GREEDY_ORDER[i + 1..];
        if remaining >= d && cashInventory[d] > 0 {
          var numBills := Min(remaining / d, cashInventory[d]);
          cashInventory := cashInventory[d := cashInventory[d] - numBills];
          remaining := remaining - numBills * d;
        }
      }
    }

    // ------------------------------------------------------------ PIN check

    /**
     * Checks a PIN against the routed account. An unroutable number is refused without counting
     * an attempt; a wrong PIN counts exactly one attempt, and the attempt that reaches the limit
     * ends the current session, if there is one, with an error.
     */
    method ValidatePin(n: string, pin: string, attempts: int) returns (ok: bool, attemptsAfter: int)
      modifies SessionFrame()`active, SessionFrame()`lastError
      ensures old(Route(n)).NotFound? ==> !ok && attemptsAfter == attempts
      ensures old(Route(n)).Found? ==> (ok <==> old(Route(n)).account.pin == pin)
      ensures ok ==> attemptsAfter == attempts
      ensures old(Route(n)).Found? && !ok ==> attemptsAfter == attempts + 1
      ensures currentSession != null ==>
        if old(Route(n)).Found? && !ok && attemptsAfter >= MAX_PIN_ATTEMPTS
        then !currentSession.active && currentSession.lastError == MAX_PIN_EXCEEDED
        else currentSession.active == old(currentSession.active) && currentSession.lastError == old(currentSession.lastError)
    {
      attemptsAfter := attempts;
      var r := FindAccount(n);
      if r.NotFound? {
        return false, attemptsAfter;
      }
      if !r.bank.VerifyPin(n, pin) {
        attemptsAfter := attemptsAfter + 1;
        if attemptsAfter >= MAX_PIN_ATTEMPTS {
          if currentSession != null {
            currentSession.EndSessionWithError(MAX_PIN_EXCEEDED);
          }
          return false, attemptsAfter;
        }
        return false, attemptsAfter;
      }
      ok := true;
    }

    // ------------------------------------------------------------ deposits

    /**
     * A cash deposit with its bills and fee bills: more than fifty bills are refused first, then
     * an unroutable number; otherwise both bundles join the inventory and the amount is credited.
     * Nothing changes on failure.
     */
    method ProcessCashDeposit(n: string, amount: int, cashInput: Cash, feeInput: Cash)
      returns (ok: bool, outcome: Outcome, deposited: int)
      requires Valid() && IsCashInput(cashInput) && IsCashInput(feeInput)
      modifies this`cashInventory, Touched(n)
      ensures Valid()
      ensures ok <==> BillCount(cashInput) <= MAX_CASH_INSERT && old(Route(n)).Found?
      ensures BillCount(cashInput) > MAX_CASH_INSERT ==> outcome == MaxDepositExceeded
      ensures BillCount(cashInput) <= MAX_CASH_INSERT && old(Route(n)).NotFound? ==> outcome == AccountNotFound
      ensures !ok ==> cashInventory == old(cashInventory) && deposited == 0
      ensures !ok && old(Route(n)).Found? ==> old(Route(n)).account.balance == old(Route(n).account.balance)
      ensures ok ==> outcome == Success && deposited == amount
      ensures ok ==> cashInventory == AddCounts(AddCounts(old(cashInventory), cashInput), feeInput)
      ensures ok ==> old(Route(n)).account.balance == old(Route(n).account.balance) + amount
    {
      var totalBills := TotalBills(cashInput);
      if totalBills > MAX_CASH_INSERT {
        return false, MaxDepositExceeded, 0;
      }
      var r := FindAccount(n);
      if r.NotFound? {
        return false, AccountNotFound, 0;
      }
      var _ := AddCash(cashInput);
      var _ := AddCash(feeInput);
      deposited := amount;
      ok := r.account.Deposit(deposited);
      outcome := Success;
    }

    /**
     * A check deposit: refused once the session has taken fifty checks, then for an unroutable
     * number; otherwise the fee bills join the inventory, the amount is credited and the
     * session's check count rises by one. Nothing changes on failure.
     */
    method ProcessCheckDeposit(n: string, amount: int, feeInput: Cash)
      returns (ok: bool, outcome: Outcome, deposited: int)
      requires Valid() && IsCashInput(feeInput) && currentSession != null
      modifies this`cashInventory, Touched(n), currentSession`checkDepositCount
      ensures Valid()
      ensures ok <==> old(currentSession.CanDepositCheck()) && old(Route(n)).Found?
      ensures !old(currentSession.CanDepositCheck()) ==> outcome == MaxCheckDepositExceeded
      ensures old(currentSession.CanDepositCheck()) && old(Route(n)).NotFound? ==> outcome == AccountNotFound
      ensures !ok ==> cashInventory == old(cashInventory) && deposited == 0
      ensures !ok ==> currentSession.checkDepositCount == old(currentSession.checkDepositCount)
      ensures !ok && old(Route(n)).Found? ==> old(Route(n)).account.balance == old(Route(n).account.balance)
      ensures ok ==> outcome == Success && deposited == amount
      ensures ok ==> cashInventory == AddCounts(old(cashInventory), feeInput)
      ensures ok ==> old(Route(n)).account.balance == old(Route(n).account.balance) + amount
      ensures ok ==> currentSession.checkDepositCount == old(currentSession.checkDepositCount) + 1
      ensures old(currentSession.Valid()) ==> currentSession.Valid()
    {
      if !currentSession.CanDepositCheck() {
        return false, MaxCheckDepositExceeded, 0;
      }
      var r := FindAccount(n);
      if r.NotFound? {
        return false, AccountNotFound, 0;
      }
      var _ := AddCash(feeInput);
      deposited := amount;
      ok := r.account.Deposit(deposited);
      currentSession.IncrementCheckDeposit();
      outcome := Success;
    }

    /**
     * The deposit the console uses: refused for an unroutable number; otherwise the fee of the
     * routed bank is reported (not charged), a cash deposit replays updateCashInventory(amount),
     * the amount is credited and, in a session, the deposit is recorded.
     */
    method Deposit(n: string, amount: int, isCash: bool)
      returns (ok: bool, outcome: Outcome, deposited: int, fee: int)
      requires Valid()
      modifies this`cashInventory, Touched(n), SessionFrame()`transactions
      ensures Valid()
      ensures ok <==> old(Route(n)).Found?
      ensures !ok ==> outcome == AccountNotFound && deposited == 0 && fee == 0 && cashInventory == old(cashInventory)
      ensures ok ==> outcome == Success && deposited == amount && fee == Fee(TransactionType.Deposit, old(Route(n)).isPrimary, false)
      ensures ok ==> old(Route(n)).account.balance == old(Route(n).account.balance) + amount
      ensures ok && isCash ==> cashInventory == UpdatedInventory(old(cashInventory), amount)
      ensures ok && !isCash ==> cashInventory == old(cashInventory)
      ensures currentSession != null && !ok ==> currentSession.transactions == old(currentSession.transactions)
      ensures currentSession != null && ok ==>
        currentSession.transactions == old(currentSession.transactions) +
          [Transaction(|old(currentSession.transactions)|, currentSession.card, TransactionType.Deposit, amount, fee,
                       if isCash then CASH_DEPOSIT_TYPE else CHECK_DEPOSIT_TYPE)]
    {
      var r := FindAccount(n);
      if r.NotFound? {
        return false, AccountNotFound, 0, 0;
      }
      fee := if r.isPrimary then DEPOSIT_PRIMARY else DEPOSIT_NON_PRIMARY;
      if isCash {
        UpdateCashInventory(amount);
      }
      assert Route(n) == r;
      deposited := amount;
      ok := r.account.Deposit(deposited);
      assert Route(n) == r;
      if currentSession != null {
        var _ := currentSession.AddTransaction(TransactionType.Deposit, deposited, fee,
                                               if isCash then CASH_DEPOSIT_TYPE else CHECK_DEPOSIT_TYPE);
      }
      outcome := Success;
    }

    // ------------------------------------------------------------ withdrawal

    /**
     * A withdrawal. The checks run in this order, each ending the operation with nothing changed:
     * an unroutable number; the inventory's total value below the amount; a balance below the
     * amount plus the routed bank's fee; no greedy breakdown of the amount. On success the account
     * pays amount + fee, the inventory gives up exactly the returned bills, and the session records
     * the withdrawal and counts it.
     */
    method Withdraw(n: string, amount: int)
      returns (ok: bool, outcome: Outcome, withdrawn: int, fee: int, bills: Cash)
      requires Valid()
      modifies this`cashInventory, Touched(n), SessionFrame()`transactions, SessionFrame()`withdrawalCount
      ensures Valid()
      ensures old(Route(n)).NotFound? ==> outcome == AccountNotFound
      ensures old(Route(n)).Found? ==>
        && fee == Fee(Withdrawal, old(Route(n)).isPrimary, false)
        && withdrawn == amount
        && outcome == WithdrawalOutcome(old(cashInventory), old(Route(n).account.balance), amount, fee)
      ensures ok <==> outcome == Success
      ensures !ok ==> cashInventory == old(cashInventory) && bills == map[]
      ensures !ok && old(Route(n)).Found? ==> old(Route(n)).account.balance == old(Route(n).account.balance)
      ensures ok ==> bills == Breakdown(old(cashInventory), amount) && bills != map[] && Value(bills) == amount
      ensures ok ==> Covers(old(cashInventory), bills) && cashInventory == Subtract(old(cashInventory), bills)
      ensures ok ==> old(Route(n)).account.balance == old(Route(n).account.balance) - (amount + fee) >= 0
      ensures currentSession != null && !ok ==>
        currentSession.transactions == old(currentSession.transactions) &&
        currentSession.withdrawalCount == old(currentSession.withdrawalCount)
      ensures currentSession != null && ok ==>
        && currentSession.transactions == old(currentSession.transactions) +
             [Transaction(|old(currentSession.transactions)|, currentSession.card, Withdrawal, amount, fee, WITHDRAWAL_TYPE)]
        && currentSession.withdrawalCount == old(currentSession.withdrawalCount) + 1
    {
      bills := map[];
      var r := FindAccount(n);
      if r.NotFound? {
        return false, AccountNotFound, 0, 0, bills;
      }
      fee := if r.isPrimary then WITHDRAWAL_PRIMARY else WITHDRAWAL_NON_PRIMARY;
      withdrawn := amount;
      var sufficient := HasSufficientCash(amount);
      if !sufficient {
        return false, InsufficientCash, withdrawn, fee, bills;
      }
      if r.account.GetBalance() < amount + fee {
        return false, InsufficientFunds, withdrawn, fee, bills;
      }
      bills := GetCashBreakdown(amount);
      if bills == map[] {
        return false, InvalidOperation, withdrawn, fee, bills;
      }
      DispenseRemovesBreakdown(cashInventory, amount);
      // The balance check above guarantees that this debit succeeds.
      ok := r.account.Withdraw(amount + fee);
      UpdateCashInventory(-amount);
      if currentSession != null {
        var _ := currentSession.AddTransaction(Withdrawal, amount, fee, WITHDRAWAL_TYPE);
        currentSession.IncrementWithdrawalCount();
      }
      outcome := Success;
    }

    // ------------------------------------------------------------ transfer

    /**
     * A transfer to the account numbered `to`. An unroutable destination is refused first. A cash
     * transfer costs 1000, refuses a non-positive amount, leaves the inventory as it is (the
     * console adds the inserted bills afterwards), records the transfer and credits the
     * destination. An account transfer refuses an unroutable source, charges the fee of the two
     * routed banks, refuses a source balance below amount + fee, and otherwise debits the source
     * amount + fee, credits the destination the amount and records the transfer. The amount of an
     * account transfer is not checked. Nothing changes on failure.
     */
    method Transfer(from: string, to: string, amount: int, isCash: bool)
      returns (ok: bool, outcome: Outcome, transferred: int, fee: int)
      requires Valid()
      modifies Touched(from), Touched(to), SessionFrame()`transactions
      ensures Valid()
      ensures old(Route(to)).NotFound? ==> !ok && outcome == InvalidAccount
      ensures isCash && old(Route(to)).Found? ==>
        && fee == Fee(TransferCash, false, false) && transferred == amount
        && (ok <==> amount > 0)
        && (!ok ==> outcome == InvalidAmount)
        && (ok ==> old(Route(to)).account.balance == old(Route(to).account.balance) + amount)
      ensures !isCash && old(Route(to)).Found? && old(Route(from)).NotFound? ==> !ok && outcome == InvalidAccount
      ensures !isCash && old(Route(to)).Found? && old(Route(from)).Found? ==>
        var src := old(Route(from));
        var dst := old(Route(to));
        && fee == Fee(TransferAccount, src.isPrimary, dst.isPrimary) && transferred == amount
        && (ok <==> old(src.account.balance) >= amount + fee)
        && (!ok ==> outcome == InsufficientFunds)
        && (ok && src.account != dst.account ==>
              Some(Balances(src.account.balance, dst.account.balance)) ==
              AccountTransferAsWritten(Balances(old(src.account.balance), old(dst.account.balance)), amount, fee))
        && (ok && src.account == dst.account ==> src.account.balance == old(src.account.balance) - fee)
      ensures ok ==> outcome == Success
      ensures isCash && old(Route(from)).Found? && old(Route(to)).Found? && old(Route(from)).account != old(Route(to)).account ==>
        old(Route(from)).account.balance == old(Route(from).account.balance)
      ensures !ok && old(Route(to)).Found? ==> old(Route(to)).account.balance == old(Route(to).account.balance)
      ensures !ok && old(Route(from)).Found? ==> old(Route(from)).account.balance == old(Route(from).account.balance)
      ensures currentSession != null && !ok ==> currentSession.transactions == old(currentSession.transactions)
      ensures currentSession != null && ok ==>
        currentSession.transactions == old(currentSession.transactions) +
          [Transaction(|old(currentSession.transactions)|, currentSession.card, if isCash then TransferCash else TransferAccount,
                       amount, fee, TransferDetails(from, to, isCash))]
    {
      var dst := FindAccount(to);
      if dst.NotFound? {
        return false, InvalidAccount, 0, 0;
      }
      assert Touched(to) == {dst.account};
      if isCash {
        ok, outcome, transferred, fee := CashTransferTo(dst, from, to, amount);
        assert dst == old(Route(to));
        return;
      }
      var src := FindAccount(from);
      if src.NotFound? {
        return false, InvalidAccount, 0, 0;
      }
      assert Touched(from) == {src.account};
      ok, outcome, transferred, fee := AccountTransferBetween(src, dst, from, to, amount);
      assert dst == old(Route(to)) && src == old(Route(from));
    }

    /**
     * The cash branch of transfer, after the destination is routed: a non-positive amount is
     * refused; otherwise the transfer is recorded and the destination credited. The inventory is
     * left as it is: updateCashInventory with a positive amount changes nothing, and the console
     * adds the inserted bills afterwards.
     */
    method CashTransferTo(dst: Routed, from: string, to: string, amount: int)
      returns (ok: bool, outcome: Outcome, transferred: int, fee: int)
      requires dst.Found?
      modifies dst.account, SessionFrame()`transactions
      ensures fee == TRANSFER_CASH && transferred == amount
      ensures ok <==> amount > 0
      ensures outcome == if ok then Success else InvalidAmount
      ensures dst.account.balance == old(dst.account.balance) + (if ok then amount else 0)
      ensures currentSession != null ==>
        currentSession.transactions == old(currentSession.transactions) +
          (if ok then [Transaction(|old(currentSession.transactions)|, currentSession.card, TransferCash, amount, fee,
                                   TransferDetails(from, to, true))]
           else [])
    {
      fee := TRANSFER_CASH;
      transferred := amount;
      if transferred <= 0 {
        return false, InvalidAmount, transferred, fee;
      }
      if currentSession != null {
        var _ := currentSession.AddTransaction(TransferCash, transferred, fee, TransferDetails(from, to, true));
      }
      ok := dst.account.Deposit(transferred);
      outcome := Success;
    }

    /**
     * The account branch of transfer, after both accounts are routed: the fee of the two banks;
     * a source balance below amount + fee is refused; otherwise the source pays amount + fee, the
     * destination receives the amount and the transfer is recorded. When both numbers route to
     * the same account it pays only the fee.
     */
    method AccountTransferBetween(src: Routed, dst: Routed, from: string, to: string, amount: int)
      returns (ok: bool, outcome: Outcome, transferred: int, fee: int)
      requires src.Found? && dst.Found?
      modifies src.account, dst.account, SessionFrame()`transactions
      ensures fee == Fee(TransferAccount, src.isPrimary, dst.isPrimary) && transferred == amount
      ensures ok <==> old(src.account.balance) >= amount + fee
      ensures outcome == if ok then Success else InsufficientFunds
      ensures !ok ==> src.account.balance == old(src.account.balance) && dst.account.balance == old(dst.account.balance)
      ensures ok && src.account != dst.account ==>
        Some(Balances(src.account.balance, dst.account.balance)) ==
        AccountTransferAsWritten(Balances(old(src.account.balance), old(dst.account.balance)), amount, fee)
      ensures ok && src.account == dst.account ==> src.account.balance == old(src.account.balance) - fee
      ensures currentSession != null ==>
        currentSession.transactions == old(currentSession.transactions) +
          (if ok then [Transaction(|old(currentSession.transactions)|, currentSession.card, TransferAccount, amount, fee,
                                   TransferDetails(from, to, false))]
           else [])
    {
      if src.isPrimary && dst.isPrimary {
        fee := TRANSFER_PRIMARY;
      } else if !src.isPrimary && !dst.isPrimary {
        fee := TRANSFER_NON_PRIMARY;
      } else {
        fee := TRANSFER_MIXED;
      }
      transferred := amount;
      if src.account.GetBalance() < amount + fee {
        return false, InsufficientFunds, transferred, fee;
      }
      // After the balance check the debit succeeds, and a credit never fails, so the rollback
      // that would re-credit the source is never reached (see DebitThenCredit).
      var debited := src.account.Withdraw(amount + fee);
      var credited := dst.account.Deposit(amount);
      if currentSession != null {
        var _ := currentSession.AddTransaction(TransferAccount, transferred, fee, TransferDetails(from, to, false));
      }
      ok := debited && credited;
      outcome := Success;
    }

    /** On a single-bank terminal only cards of the primary bank are accepted. */
    function IsValidCard(card: string, issuingBank: Bank): (r: bool)
      ensures r <==> (bankType == SingleBank ==> issuingBank == primaryBank)
    {
      if bankType == SingleBank then issuingBank == primaryBank else true
    }

    /** The fee table applied to two banks, by whether each is this terminal's primary bank. */
    function GetTransactionFee(sourceBank: Bank, destBank: Bank, kind: TransactionType): (fee: int)
      ensures fee == Fee(kind, sourceBank == primaryBank, destBank == primaryBank)
      ensures kind != TransferCash && sourceBank == primaryBank && destBank == primaryBank ==>
        fee == Fee(kind, true, true) <= Fee(kind, false, false)
    {
      Fee(kind, sourceBank == primaryBank, destBank == primaryBank)
    }
  }
}
