/**
 * The constants table of the ATM system (include/Constants.hpp): the bank-relationship,
 * language and transaction-type enumerations, the fee schedule, the denominations and the limits.
 * All amounts are whole KRW.
 */
module Constants {

  /** The reserved administrator card. */
  const ADMIN_CARD: string := "999999999999"

  datatype BankType = SingleBank | MultiBank

  datatype LanguageSupport = Unilingual | Bilingual

  datatype TransactionType = Deposit | Withdrawal | TransferCash | TransferAccount

  // Fee schedule (struct TransactionFees)
  const DEPOSIT_PRIMARY: int := 1000
  const DEPOSIT_NON_PRIMARY: int := 2000
  const WITHDRAWAL_PRIMARY: int := 1000
  const WITHDRAWAL_NON_PRIMARY: int := 2000
  const TRANSFER_PRIMARY: int := 2000
  const TRANSFER_MIXED: int := 3000
  const TRANSFER_NON_PRIMARY: int := 4000
  const TRANSFER_CASH: int := 1000

  /** The keys of VALID_DENOMINATIONS, in the ascending order in which a std::map visits them. */
  const DENOMINATIONS: seq<int> := [1000, 5000, 10000, 50000]

  /** The same denominations largest first: the order of every greedy allocation in the engine. */
  const GREEDY_ORDER: seq<int> := [50000, 10000, 5000, 1000]

  const DENOMINATION_SET: set<int> := {1000, 5000, 10000, 50000}

  const MIN_CHECK_AMOUNT: int := 100000
  const MAX_CASH_INSERT: int := 50
  const MAX_CHECK_INSERT: int := 50
  const MAX_WITHDRAWAL_PER_TRANSACTION: int := 500000
  const MAX_WITHDRAWALS_PER_SESSION: int := 3

  /** The two orders list exactly the valid denominations, each once, and are each other's reverse. */
  lemma DenominationOrders()
    ensures forall i :: 0 <= i < |GREEDY_ORDER| ==> GREEDY_ORDER[i] == DENOMINATIONS[|DENOMINATIONS| - 1 - i]
    ensures forall d :: d in DENOMINATION_SET <==> d in DENOMINATIONS
    ensures forall d :: d in DENOMINATION_SET <==> d in GREEDY_ORDER
    ensures forall i, j :: 0 <= i < j < |GREEDY_ORDER| ==> GREEDY_ORDER[i] > GREEDY_ORDER[j]
  {
  }
}
