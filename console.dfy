/**
 * The decisions the console driver (src/main.cpp) takes around the terminal's operations: the
 * card and PIN checks, the fee tender and its change, the withdrawal bounds, and the order in
 * which an account is credited, a fee collected and bills added to the inventory. Every console
 * read is a parameter: a cash input is a map from denomination to count, a typed line a string,
 * and the PINs typed in turn a sequence.
 */
module Console {

  import opened Constants
  import opened Wrappers
  import opened Inventory
  import opened Accounts
  import opened Banks
  import opened Atm

  // ---------------------------------------------------------------- fee tender

  /** What the console makes of a fee tender: too little, change refused, or paid (with the change owed). */
  datatype Tender = Short | Declined(change: int) | Paid(change: int)

  /**
   * A tender below the fee is refused. A tender above it owes change, and the operation goes on
   * only when the customer answers "y" or "Y". An exact tender is paid without a question.
   */
  function TenderDecision(total: int, fee: int, response: string): (t: Tender)
    ensures t.Short? <==> total < fee
    ensures t.Paid? <==> total == fee || (total > fee && (response == "y" || response == "Y"))
    ensures !t.Short? ==> t.change == total - fee && t.change >= 0
  {
    if total < fee then Short
    else if total > fee && response != "y" && response != "Y" then Declined(total - fee)
    else Paid(total - fee)
  }

  /**
   * The fee collection of the deposit paths: the tendered bills are summed and judged, and a paid
   * tender joins the inventory whole. The change is announced but no bills are given back, so
   * the inventory gains the full tender.
   */
  method TakeFee(atm: ATM, fee: int, feeInput: Cash, response: string) returns (paid: bool, total: int)
    requires atm.Valid() && IsCashInput(feeInput)
    modifies atm`cashInventory
    ensures atm.Valid()
    ensures total == Value(feeInput)
    ensures paid <==> TenderDecision(total, fee, response).Paid?
    ensures paid ==> atm.cashInventory == AddCounts(old(atm.cashInventory), feeInput)
    ensures paid ==> Value(atm.cashInventory) == Value(old(atm.cashInventory)) + total
    ensures !paid ==> atm.cashInventory == old(atm.cashInventory)
  {
    total := Total(feeInput);
    if total < fee {
      return false, total;
    }
    if total > fee && response != "y" && response != "Y" {
      return false, total;
    }
    AddCountsValue(atm.cashInventory, feeInput);
    paid := atm.AddCash(feeInput);
  }

  /**
   * The deposit fee: 1000 at the terminal's own bank and 2000 otherwise, collected as above. The
   * reported total is the fee when paid and the tendered sum when not.
   */
  method HandleDepositFee(atm: ATM, isPrimaryBank: bool, feeInput: Cash, response: string)
    returns (ok: bool, totalFeeInput: int)
    requires atm.Valid() && IsCashInput(feeInput)
    modifies atm`cashInventory
    ensures atm.Valid()
    ensures ok <==> TenderDecision(Value(feeInput), Fee(TransactionType.Deposit, isPrimaryBank, false), response).Paid?
    ensures totalFeeInput == if ok then Fee(TransactionType.Deposit, isPrimaryBank, false) else Value(feeInput)
    ensures ok ==> atm.cashInventory == AddCounts(old(atm.cashInventory), feeInput)
    ensures !ok ==> atm.cashInventory == old(atm.cashInventory)
  {
    var fee := if isPrimaryBank then DEPOSIT_PRIMARY else DEPOSIT_NON_PRIMARY;
    var total;
    ok, total := TakeFee(atm, fee, feeInput, response);
    totalFeeInput := if ok then fee else total;
  }

  // ---------------------------------------------------------------- card and PIN

  /** The verdict on an inserted card. */
  datatype CardCheck = WrongLength | AdminCard | UnknownCard | OtherBank(bank: Bank) | CardAccepted(bank: Bank, account: Account)

  /**
   * One pass of the card loop: a card must have twelve characters; the administrator card is
   * recognised before any search; otherwise the first bank in the global list that holds the
   * number issues the card, and a single-bank terminal accepts only cards of its primary bank.
   */
  method CheckCard(atm: ATM, banks: seq<Bank>, card: string) returns (c: CardCheck)
    ensures |card| != 12 ==> c == WrongLength
    ensures |card| == 12 && IsAdminCard(card) ==> c == AdminCard
    ensures |card| == 12 && !IsAdminCard(card) ==>
      (c == UnknownCard <==> FirstHolder(banks, card) == |banks|)
    ensures c.OtherBank? || c.CardAccepted? ==>
      && |card| == 12 && !IsAdminCard(card)
      && FirstHolder(banks, card) < |banks| && c.bank == banks[FirstHolder(banks, card)]
    ensures c.OtherBank? ==> !atm.IsValidCard(card, c.bank)
    ensures c.CardAccepted? ==> atm.IsValidCard(card, c.bank) && card in c.bank.accounts && c.account == c.bank.accounts[card]
    ensures |card| == 12 && !IsAdminCard(card) && FirstHolder(banks, card) < |banks| ==>
      if atm.IsValidCard(card, banks[FirstHolder(banks, card)]) then c.CardAccepted? else c.OtherBank?
  {
    if |card| != 12 {
      return WrongLength;
    }
    if IsAdminCard(card) {
      return AdminCard;
    }
    var i := 0;
    while i < |banks| && banks[i].GetAccount(card) == null
      invariant 0 <= i <= |banks|
      invariant forall j :: 0 <= j < i ==> card !in banks[j].accounts
    {
      i := i + 1;
    }
    if i == |banks| {
      return UnknownCard;
    }
    var bank := banks[i];
    if atm.bankType == SingleBank && bank != atm.primaryBank {
      return OtherBank(bank);
    }
    c := CardAccepted(bank, bank.GetAccount(card));
  }

  /** Each of the first `count` PINs typed had the wrong length or differs from the account's PIN. */
  predicate RejectedWrong(pins: seq<string>, count: int, pin: string)
  {
    forall k :: 0 <= k < count && k < |pins| ==> |pins[k]| != 4 || pins[k] != pin
  }

  /** Every PIN typed has the four characters the console asks for. */
  predicate AllFourLong(pins: seq<string>)
  {
    forall i :: 0 <= i < |pins| ==> |pins[i]| == 4
  }

  /**
   * The PIN loop as written: a PIN of the wrong length counts as an attempt without asking the
   * terminal; any other PIN goes to validatePin, which counts a wrong PIN but not a number it
   * cannot route. The loop stops on a valid PIN, at three attempts, or when the typed PINs run
   * out. For a card the terminal cannot route, four-character PINs are never counted, so only
   * the end of the input stops the loop.
   */
  method PinEntryAsWritten(atm: ATM, card: string, pins: seq<string>) returns (valid: bool, attempts: int, used: nat)
    modifies atm.SessionFrame()`active, atm.SessionFrame()`lastError
    ensures used <= |pins| && 0 <= attempts <= MAX_PIN_ATTEMPTS
    ensures valid ==> 1 <= used && old(atm.Route(card)).Found? && pins[used - 1] == old(atm.Route(card)).account.pin
    ensures !valid && used < |pins| ==> attempts == MAX_PIN_ATTEMPTS
    ensures old(atm.Route(card)).NotFound? && AllFourLong(pins) ==> !valid && attempts == 0 && used == |pins|
    ensures old(atm.Route(card)).Found? ==> attempts == (if valid then used - 1 else used) && used <= MAX_PIN_ATTEMPTS
    ensures old(atm.Route(card)).Found? ==> RejectedWrong(pins, if valid then used - 1 else used, old(atm.Route(card)).account.pin)
    ensures old(atm.Route(card)).Found? && |pins| >= 1 && pins[0] == old(atm.Route(card)).account.pin && |pins[0]| == 4 ==>
      valid && used == 1
  {
    valid, attempts, used := false, 0, 0;
    while !valid && attempts < MAX_PIN_ATTEMPTS && used < |pins|
      invariant used <= |pins| && 0 <= attempts <= MAX_PIN_ATTEMPTS
      invariant atm.Route(card) == old(atm.Route(card))
      invariant valid ==> 1 <= used && atm.Route(card).Found? && pins[used - 1] == atm.Route(card).account.pin
      invariant atm.Route(card).NotFound? && AllFourLong(pins) ==> !valid && attempts == 0
      invariant atm.Route(card).Found? ==> attempts == (if valid then used - 1 else used)
      invariant atm.Route(card).Found? && valid ==> attempts < MAX_PIN_ATTEMPTS
      invariant atm.Route(card).Found? ==> RejectedWrong(pins, if valid then used - 1 else used, atm.Route(card).account.pin)
      invariant atm.Route(card).Found? && used >= 1 && pins[0] == atm.Route(card).account.pin && |pins[0]| == 4 ==>
        valid && used == 1
      decreases |pins| - used
    {
      var pin := pins[used];
      used := used + 1;
      if |pin| != 4 {
        attempts := attempts + 1;
      } else {
        valid, attempts := atm.ValidatePin(card, pin, attempts);
      }
    }
  }

  /**
   * The PIN loop with every rejected PIN counted, whether it had the wrong length, was wrong,
   * or belongs to a card the terminal cannot route: it stops after at most three PINs.
   */
  method PinEntry(atm: ATM, card: string, pins: seq<string>) returns (valid: bool, attempts: int, used: nat)
    modifies atm.SessionFrame()`active, atm.SessionFrame()`lastError
    ensures used <= |pins| && used <= MAX_PIN_ATTEMPTS
    ensures valid ==> 1 <= used && old(atm.Route(card)).Found? && pins[used - 1] == old(atm.Route(card)).account.pin
    ensures valid ==> attempts == used - 1
    ensures !valid ==> attempts == used
    ensures !valid && used < |pins| ==> attempts == MAX_PIN_ATTEMPTS
    ensures old(atm.Route(card)).Found? ==> RejectedWrong(pins, if valid then used - 1 else used, old(atm.Route(card)).account.pin)
    ensures old(atm.Route(card)).Found? && |pins| >= 1 && pins[0] == old(atm.Route(card)).account.pin && |pins[0]| == 4 ==>
      valid && used == 1
  {
    valid, attempts, used := false, 0, 0;
    while !valid && attempts < MAX_PIN_ATTEMPTS && used < |pins|
      invariant used <= |pins|
      invariant atm.Route(card).Found? ==> RejectedWrong(pins, if valid then used - 1 else used, atm.Route(card).account.pin)
      invariant atm.Route(card).Found? && used >= 1 && pins[0] == atm.Route(card).account.pin && |pins[0]| == 4 ==>
        valid && used == 1
      invariant atm.Route(card) == old(atm.Route(card))
      invariant valid ==> 1 <= used && atm.Route(card).Found? && pins[used - 1] == atm.Route(card).account.pin
      invariant attempts == if valid then used - 1 else used
      invariant if valid then attempts < MAX_PIN_ATTEMPTS else attempts <= MAX_PIN_ATTEMPTS
      decreases |pins| - used
    {
      var pin := pins[used];
      used := used + 1;
      if |pin| != 4 {
        attempts := attempts + 1;
      } else {
        var after;
        valid, after := atm.ValidatePin(card, pin, attempts);
        attempts := if valid then attempts else attempts + 1;
      }
    }
  }

  // ---------------------------------------------------------------- deposits

  /**
   * A cash deposit from the menu. The inserted bills are summed and a non-positive sum is refused.
   * The terminal credits the account first; then the deposit fee is collected. If the fee is not
   * paid the credit is taken back with a withdrawal, which a negative balance refuses; the
   * terminal's record of the deposit stays. Only after the fee is paid do the deposited bills join
   * the inventory. The account the card search found is the one the terminal routes the card to.
   */
  method CashDeposit(atm: ATM, card: string, userAccount: Account, isPrimaryBank: bool,
                     cashInput: Cash, feeInput: Cash, response: string) returns (ok: bool)
    requires atm.Valid() && IsCashInput(cashInput) && IsCashInput(feeInput)
    requires atm.Route(card).Found? ==> atm.Route(card).account == userAccount
    modifies atm`cashInventory, atm.Touched(card), atm.SessionFrame()`transactions
    ensures atm.Valid()
    ensures ok <==> Value(cashInput) > 0 && old(atm.Route(card)).Found? &&
                    TenderDecision(Value(feeInput), Fee(TransactionType.Deposit, isPrimaryBank, false), response).Paid?
    ensures ok ==> atm.cashInventory == AddCounts(AddCounts(old(atm.cashInventory), feeInput), cashInput)
    ensures !ok ==> atm.cashInventory == old(atm.cashInventory)
    ensures ok ==> userAccount.balance == old(userAccount.balance) + Value(cashInput)
    ensures !ok && old(userAccount.balance) >= 0 ==> userAccount.balance == old(userAccount.balance)
    ensures !ok && old(userAccount.balance) < 0 && Value(cashInput) > 0 && old(atm.Route(card)).Found? ==>
      userAccount.balance == old(userAccount.balance) + Value(cashInput)
    ensures atm.currentSession != null ==>
      |atm.currentSession.transactions| ==
      |old(atm.currentSession.transactions)| + (if Value(cashInput) > 0 && old(atm.Route(card)).Found? then 1 else 0)
  {
    var depositAmount := Total(cashInput);
    if depositAmount <= 0 {
      return false;
    }
    var deposited, _, _, _ := atm.Deposit(card, depositAmount, true);
    if !deposited {
      return false;
    }
    var paid, _ := HandleDepositFee(atm, isPrimaryBank, feeInput, response);
    if !paid {
      var _ := userAccount.Withdraw(depositAmount);
      return false;
    }
    ok := atm.AddCash(cashInput);
  }

  /**
   * A check deposit from the menu, as written. A check below the minimum is refused before the
   * terminal is asked. The terminal credits the account; then the fee is tendered. When the fee
   * is short or the change is refused the menu simply moves on: the account keeps the credit and
   * no fee is collected.
   */
  method CheckDepositAsWritten(atm: ATM, card: string, checkAmount: int, feeInput: Cash, response: string)
    returns (ok: bool)
    requires atm.Valid() && IsCashInput(feeInput)
    modifies atm`cashInventory, atm.Touched(card), atm.SessionFrame()`transactions
    ensures atm.Valid()
    ensures ok <==>
      && IsValidCheck(checkAmount) && old(atm.Route(card)).Found?
      && TenderDecision(Value(feeInput), Fee(TransactionType.Deposit, old(atm.Route(card)).isPrimary, false), response).Paid?
    ensures ok ==> atm.cashInventory == AddCounts(old(atm.cashInventory), feeInput)
    ensures !ok ==> atm.cashInventory == old(atm.cashInventory)
    ensures old(atm.Route(card)).Found? ==>
      old(atm.Route(card)).account.balance ==
        old(atm.Route(card).account.balance) + if IsValidCheck(checkAmount) then checkAmount else 0
  {
    if checkAmount < MIN_CHECK_AMOUNT {
      return false;
    }
    var deposited, _, _, fee := atm.Deposit(card, checkAmount, false);
    if !deposited {
      return false;
    }
    var paid, _ := TakeFee(atm, fee, feeInput, response);
    ok := paid;
  }

  /**
   * A check deposit with the reversal the cash path already has: when the fee is not paid the
   * credit is taken back, so an unpaid check deposit leaves a non-negative balance as it was.
   */
  method CheckDeposit(atm: ATM, card: string, userAccount: Account, checkAmount: int, feeInput: Cash, response: string)
    returns (ok: bool)
    requires atm.Valid() && IsCashInput(feeInput)
    requires atm.Route(card).Found? ==> atm.Route(card).account == userAccount
    modifies atm`cashInventory, atm.Touched(card), atm.SessionFrame()`transactions
    ensures atm.Valid()
    ensures ok <==>
      && IsValidCheck(checkAmount) && old(atm.Route(card)).Found?
      && TenderDecision(Value(feeInput), Fee(TransactionType.Deposit, old(atm.Route(card)).isPrimary, false), response).Paid?
    ensures ok ==> atm.cashInventory == AddCounts(old(atm.cashInventory), feeInput)
    ensures !ok ==> atm.cashInventory == old(atm.cashInventory)
    ensures ok ==> userAccount.balance == old(userAccount.balance) + checkAmount
    ensures !ok && old(userAccount.balance) >= 0 ==> userAccount.balance == old(userAccount.balance)
  {
    if checkAmount < MIN_CHECK_AMOUNT {
      return false;
    }
    var deposited, _, _, fee := atm.Deposit(card, checkAmount, false);
    if !deposited {
      return false;
    }
    var paid, _ := TakeFee(atm, fee, feeInput, response);
    if !paid {
      var _ := userAccount.Withdraw(checkAmount);
      return false;
    }
    ok := true;
  }

  /** An empty fee tender is short of any deposit fee, so a check deposit with no fee bills is credited for free. */
  lemma EmptyTenderIsShort(isPrimaryBank: bool)
    ensures TenderDecision(Value(map[]), Fee(TransactionType.Deposit, isPrimaryBank, false), "y").Short?
  {
    ValueClosedForm(map[]);
  }

  // ---------------------------------------------------------------- withdrawal

  /** The amount bounds of the withdrawal prompt. */
  predicate WithdrawalAmountAllowed(amount: int)
  {
    0 < amount <= MAX_WITHDRAWAL_PER_TRANSACTION
  }

  /**
   * A withdrawal from the menu: refused before the amount is read once the session has made its
   * three withdrawals, then refused for an amount outside 1..500000; otherwise the terminal's
   * withdrawal runs. The session's count therefore never passes its cap.
   */
  method WithdrawRequest(atm: ATM, card: string, amount: int) returns (ok: bool, bills: Cash)
    requires atm.Valid() && atm.currentSession != null && atm.currentSession.Valid()
    modifies atm`cashInventory, atm.Touched(card), atm.SessionFrame()`transactions, atm.SessionFrame()`withdrawalCount
    ensures atm.Valid() && atm.currentSession.Valid()
    ensures !old(atm.currentSession.CanWithdraw()) || !WithdrawalAmountAllowed(amount) ==>
      !ok && atm.cashInventory == old(atm.cashInventory) &&
      atm.currentSession.withdrawalCount == old(atm.currentSession.withdrawalCount)
    ensures ok ==> old(atm.Route(card)).Found? && bills == Breakdown(old(atm.cashInventory), amount) && Value(bills) == amount
    ensures ok ==> Covers(old(atm.cashInventory), bills) && atm.cashInventory == Subtract(old(atm.cashInventory), bills)
    ensures ok ==> atm.currentSession.withdrawalCount == old(atm.currentSession.withdrawalCount) + 1 <= MAX_WITHDRAWALS_PER_SESSION
    ensures !ok && old(atm.Route(card)).Found? ==> old(atm.Route(card)).account.balance == old(atm.Route(card).account.balance)
    ensures !ok ==> atm.cashInventory == old(atm.cashInventory)
    ensures old(atm.currentSession.CanWithdraw()) && WithdrawalAmountAllowed(amount) ==>
      (ok <==> (old(atm.Route(card)).Found? &&
                WithdrawalOutcome(old(atm.cashInventory), old(atm.Route(card).account.balance), amount,
                                  Fee(Withdrawal, old(atm.Route(card)).isPrimary, false)) == Success))
    ensures ok ==>
      old(atm.Route(card)).account.balance ==
      old(atm.Route(card).account.balance) - (amount + Fee(Withdrawal, old(atm.Route(card)).isPrimary, false))
  {
    if !atm.currentSession.CanWithdraw() {
      return false, map[];
    }
    if amount <= 0 || amount > MAX_WITHDRAWAL_PER_TRANSACTION {
      return false, map[];
    }
    var outcome, withdrawn, fee;
    ok, outcome, withdrawn, fee, bills := atm.Withdraw(card, amount);
  }

  // ---------------------------------------------------------------- transfers

  /**
   * A cash transfer from the menu. The amount is the sum of the inserted bills, and the fee of
   * 1000 is tendered before the terminal is asked. Only when the terminal's transfer succeeds do
   * the inserted bills and then the fee bills join the inventory.
   */
  method CashTransferRequest(atm: ATM, card: string, dest: string, cashInput: Cash, feeInput: Cash, response: string)
    returns (ok: bool)
    requires atm.Valid() && IsCashInput(cashInput) && IsCashInput(feeInput)
    modifies atm`cashInventory, atm.Touched(card), atm.Touched(dest), atm.SessionFrame()`transactions
    ensures atm.Valid()
    ensures ok <==> TenderDecision(Value(feeInput), TRANSFER_CASH, response).Paid? &&
                    old(atm.Route(dest)).Found? && Value(cashInput) > 0
    ensures ok ==> atm.cashInventory == AddCounts(AddCounts(old(atm.cashInventory), cashInput), feeInput)
    ensures !ok ==> atm.cashInventory == old(atm.cashInventory)
    ensures ok ==> old(atm.Route(dest)).account.balance == old(atm.Route(dest).account.balance) + Value(cashInput)
    ensures !ok && old(atm.Route(dest)).Found? ==> old(atm.Route(dest)).account.balance == old(atm.Route(dest).account.balance)
    ensures old(atm.Route(card)).Found? && old(atm.Route(dest)).Found? && old(atm.Route(card)).account != old(atm.Route(dest)).account ==>
      old(atm.Route(card)).account.balance == old(atm.Route(card).account.balance)
  {
    var transferAmount := Total(cashInput);
    var fee := TRANSFER_CASH;
    var totalFeeInput := Total(feeInput);
    if totalFeeInput < fee {
      return false;
    }
    if totalFeeInput > fee && response != "y" && response != "Y" {
      return false;
    }
    ghost var inv0 := atm.cashInventory;
    var transferred, _, _, _ := atm.Transfer(card, dest, transferAmount, true);
    assert atm.cashInventory == inv0;
    if !transferred {
      return false;
    }
    ok := AcceptTransferBills(atm, cashInput, feeInput);
  }

  /** After a successful cash transfer the inserted bills, then the fee bills, join the inventory. */
  method AcceptTransferBills(atm: ATM, cashInput: Cash, feeInput: Cash) returns (ok: bool)
    requires atm.Valid() && IsCashInput(cashInput) && IsCashInput(feeInput)
    modifies atm`cashInventory
    ensures atm.Valid() && ok
    ensures atm.cashInventory == AddCounts(AddCounts(old(atm.cashInventory), cashInput), feeInput)
  {
    var _ := atm.AddCash(cashInput);
    ok := atm.AddCash(feeInput);
  }

  /**
   * An account transfer from the menu, with the amount check the cash branch already has: a
   * non-positive amount is refused before the terminal is asked. What the terminal then does to
   * two distinct accounts is the corrected account transfer.
   */
  method AccountTransferRequest(atm: ATM, card: string, dest: string, amount: int) returns (ok: bool)
    requires atm.Valid()
    modifies atm.Touched(card), atm.Touched(dest), atm.SessionFrame()`transactions
    ensures atm.Valid()
    ensures ok ==> amount > 0 && old(atm.Route(card)).Found? && old(atm.Route(dest)).Found?
    ensures var src := old(atm.Route(card));
      var dst := old(atm.Route(dest));
      src.Found? && dst.Found? && src.account != dst.account ==>
        var fee := Fee(TransferAccount, src.isPrimary, dst.isPrimary);
        var before := Balances(old(src.account.balance), old(dst.account.balance));
        && (ok <==> AccountTransfer(before, amount, fee).Some?)
        && (ok ==> AccountTransfer(before, amount, fee) == Some(Balances(src.account.balance, dst.account.balance)))
    ensures !ok && old(atm.Route(card)).Found? ==> old(atm.Route(card)).account.balance == old(atm.Route(card).account.balance)
    ensures !ok && old(atm.Route(dest)).Found? ==> old(atm.Route(dest)).account.balance == old(atm.Route(dest).account.balance)
  {
    if amount <= 0 {
      return false;
    }
    var outcome, transferred, fee;
    ok, outcome, transferred, fee := atm.Transfer(card, dest, amount, false);
  }
}
