# ATM transaction engine — a Dafny model

This project models the transaction engine of a console ATM system written in C++. Each
terminal has a primary bank and an ordered list of connected banks. It keeps a cash inventory
counted in bills of 1000, 5000, 10000 and 50000 KRW and serves one customer session at a time.

- **Routing.** An account number is searched for in the primary bank first. The connected banks
  are searched, in order, only on a multi-bank terminal, and the first bank holding the number
  wins.
- **Fees.** A fixed table gives the fee from the transaction type and from whether each bank
  involved is the primary one.
- **Cash.** Deposits add bills to the inventory. Withdrawals take bills out largest-first by a
  greedy rule, and that rule can fail even when the inventory holds enough value in total.
- **Console driver.** It checks the card and the PIN, collects fees as cash (with change),
  bounds withdrawals, and decides the order of credit, fee and inventory update.

The model is split by source file.

- `constants.dfy` (`Constants`) holds the constants table.
- `account.dfy` (`Accounts`) has the `Account` class, which updates its balance in place.
- `bank.dfy` (`Banks`) has the `Bank` class with its number index and owner index, plus the
  "first bank that holds the number" search.
- `transaction.dfy` (`Transactions`) has the immutable transaction record.
- `session.dfy` (`Sessions`) has the `Session` class with its counters.
- `inventory.dfy` (`Inventory`) holds the pure cash arithmetic of the terminal:
  - value and bill counts;
  - adding bills;
  - the greedy breakdown;
  - the greedy removal.
- `atm.dfy` (`Atm`) has the `ATM` class and the fee table.
- `currency.dfy` (`CurrencyFormat`) models the console's currency display.
- `console.dfy` (`Console`) models the console's card, PIN, fee and menu decisions.

Imperative code is modelled imperatively:
- an account balance, a bank's indexes, a session's counters and the terminal's inventory are
  class fields that methods update;
- the source's loops (bank search, inventory folds, greedy breakdown, comma insertion, PIN entry)
  are `while`/`for` loops;
- each such method is proved against a pure function of `Inventory` or `CurrencyFormat`, and the
  lemmas beside that function state its properties.

Balances and amounts are whole KRW, as `int`.

The terminal's getters (serial number, bank type, language mode, primary bank) are the
constant fields of `Atm.ATM`. `Accounts.Account.GetBalance` reads the balance and changes nothing.

## Model

| member | source | states |
|---|---|---|
| Constants.DenominationOrders | include/Constants.hpp:49-53 | The valid denominations are exactly 1000, 5000, 10000 and 50000. The greedy order is the map's ascending order reversed, and it is strictly decreasing. |
| Transactions.ConstructorDefaults | include/Transaction.hpp:22-32 | A record built without fee or details has fee 0 and empty details. Every field returns the value it was built with. |
| Accounts.Account.constructor | src/Account.cpp:7-10 | A new account has balance 0 and the given bank, owner, number and PIN. |
| Accounts.Account.Deposit | src/Account.cpp:12-16 | Always succeeds, and the balance rises by exactly the amount. |
| Accounts.Account.GetBalance | src/Account.cpp:38-41 | Reads the stored balance without changing anything. |
| Accounts.Account.Withdraw | src/Account.cpp:18-26 | Succeeds exactly when the amount is at most the balance, so the whole balance may be taken. On success the balance drops by the amount and stays non-negative. On failure nothing changes. |
| Accounts.Account.Transfer | src/Account.cpp:28-36 | The same rule as a withdrawal. Only the source is debited, and nothing is credited anywhere. |
| Banks.Bank.constructor | src/Bank.cpp:7 | A new bank has its name and two empty indexes. |
| Banks.Bank.CreateAccount | src/Bank.cpp:9-24 | A PIN that is not exactly four digits is refused and both indexes stay unchanged. Otherwise a fresh account with balance 0 is stored under its number, replacing any earlier one. The number is appended to the end of the owner's list, and the PIN then verifies. |
| Banks.Bank.VerifyPin | src/Bank.cpp:26-34 | True exactly when the account exists and its PIN is the given one. An unknown number gives false. |
| Banks.Bank.GetAccount | src/Bank.cpp:36-40 | Returns the stored account, or null exactly when the number is unknown. |
| Banks.Bank.GetUserAccounts | src/Bank.cpp:42-46 | Returns the owner's list, or the empty list for an unknown owner. |
| Banks.FirstHolder | src/ATM.cpp:322-333 | Gives the position of the first bank holding the number, or the list length. No earlier bank holds it. |
| Sessions.Session.constructor | src/Session.cpp:5-6 | A new session stores its card and account, has zero counters, is active and can withdraw. |
| Sessions.Session.AddTransaction | src/Session.cpp:8 | Always reports success. The record is appended to the session history, numbered by its position. |
| Sessions.Session.CanWithdraw | src/Session.cpp:10 | Permits a withdrawal only while one more stays within the cap of 3. When it refuses, a valid session has made exactly 3 withdrawals. |
| Sessions.Session.IncrementWithdrawalCount | src/ATM.cpp:427 | The count rises by one. A caller that checked `canWithdraw` first keeps the count within the cap of 3. |
| Sessions.Session.IncrementCheckDeposit | src/ATM.cpp:270-308 | The check count rises by one. A caller that checked `canDepositCheck` first keeps it within the cap of 50. |
| Sessions.Session.EndSession | src/ATM.cpp:137-144 | The session that `endCurrentSession` ends is no longer active. |
| Sessions.Session.EndSessionWithError | src/ATM.cpp:194-197 | The session is no longer active, and the error text is recorded. |
| Inventory.ValueClosedForm | src/ATM.cpp:569-577 | The value of a cash map is the sum over the denominations of denomination × count. |
| Inventory.Total | src/ATM.cpp:569-577 | The summing loop computes that value. |
| Inventory.TotalBills | src/ATM.cpp:216-221 | The bill-counting loop computes the total number of bills, which is non-negative. |
| Inventory.AddCountsValue | src/ATM.cpp:560-567 | Adding bills adds their value, and it keeps all four denominations as keys. No count is ever lowered. |
| Inventory.AddOverCounts | src/ATM.cpp:562-565 | After the per-denomination loop, a key is present exactly when it was in the inventory or in the cash. Each count is the sum of the two. |
| Inventory.AddOverIsAddCounts | src/ATM.cpp:560-567 | The loop over the bills equals pointwise addition of counts. |
| Inventory.AddOverCoveringIsAddCounts | src/ATM.cpp:560-567 | Adding over any list of distinct denominations that covers every bill kind equals pointwise addition of counts. |
| Inventory.AllocateOverKeeps | src/ATM.cpp:586-601 | Each greedy step uses at most the available bills. The allocated value plus the remainder stays the amount. |
| Inventory.BreakdownSound | src/ATM.cpp:579-607 | The breakdown uses only valid denominations, and at most the bills available of each. It is either empty or sums exactly to the amount. |
| Inventory.BreakdownNeedsSufficientCash | src/ATM.cpp:569-607 | A non-empty breakdown of a positive amount implies that the total-value check passes. |
| Inventory.SufficientButInfeasible | src/ATM.cpp:569-607 | A stock of 50000 bills alone is enough in value for 30000, yet its breakdown is empty. |
| Inventory.ThirtyThousandFromFullInventory | src/ATM.cpp:579-607 | With ten bills of each denomination in stock, 30000 breaks down into three 10000 bills. |
| Inventory.DispenseTracksAllocation | src/ATM.cpp:651-670 | The removal loop takes the same number of bills of each denomination as the breakdown loop allocates. |
| Inventory.DispenseRemovesBreakdown | src/ATM.cpp:651-670 | Removing `amount` greedily takes exactly the bills of the breakdown. |
| Inventory.DispenseOverKeepsKeys | src/ATM.cpp:653-669 | The removal keeps the inventory's keys. |
| Inventory.DispenseOverNeverAdds | src/ATM.cpp:653-669 | The removal never raises a count. |
| Atm.Fee | src/ATM.cpp:618-649 | Deposit or withdrawal costs 1000 at the primary bank and 2000 elsewhere. An account transfer costs 2000 between primary accounts, 4000 between non-primary ones and 3000 when mixed. A cash transfer costs 1000 whatever the banks. |
| Atm.TransferFeesOrdered | include/Constants.hpp:41-46 | Transfer fees are ordered primary < mixed < non-primary. The cash-transfer fee is 1000 for every pair of banks. |
| Atm.CheckBoundary | include/ATM.hpp:23-26 | A check of 100000 is valid and one of 99999 is not. |
| Atm.IsAdminCard | src/ATM.cpp:108-111 | The administrator card has the twelve characters every card has. |
| Atm.UpdatedInventory | src/ATM.cpp:651-670 | A positive amount changes nothing. Otherwise the keys are kept and no count grows. |
| Atm.WithdrawalOutcome | src/ATM.cpp:397-414 | Success exactly when there is enough total value, enough balance for amount + fee, and a non-empty breakdown. Insufficient cash exactly when the total value is short, and insufficient funds exactly when the value suffices but the balance does not. The verdict is one of the four listed outcomes. |
| Atm.AccountTransferAsWritten | src/ATM.cpp:525-552 | Proceeds exactly when the source covers amount + fee. The money in the two accounts drops by the fee, and the destination gains the amount. |
| Atm.DebitThenCredit | src/ATM.cpp:533-552 | The sequence completes exactly when the credit succeeds and the source covers amount + fee. A failed credit rolls the debit back: the result reports failure with both balances as they were, as does a refused debit. A completed one moves amount + fee out and the amount in. |
| Atm.DebitThenCreditIsTransfer | src/ATM.cpp:533-552 | Because a credit never fails, debit-then-credit is the plain transfer. |
| Atm.NegativeAccountTransfer | src/ATM.cpp:525-552 | An amount of −5000 passes and drives the destination below zero. |
| Atm.AccountTransfer | src/ATM.cpp:525-552 | The corrected transfer proceeds exactly when amount > 0 and the source covers amount + fee. The source then loses more than the fee and the destination gains. The total drops by the fee, and a non-negative source stays non-negative. |
| Atm.ATM.constructor | src/ATM.cpp:20-27 | A new terminal has no connected banks, no session and all four denominations stocked. |
| Atm.ATM.Route | src/ATM.cpp:319-333 | A primary hit is reported as primary. A found account is the one its bank stores under the number. |
| Atm.ATM.RouteSearchOrder | src/ATM.cpp:370-384 | A non-primary hit happens only on a multi-bank terminal, at the first connected bank holding the number. Nothing is found exactly when no searched bank holds it. |
| Atm.ATM.FindAccount | src/ATM.cpp:319-333 | The bank-search loop computes the routing. |
| Atm.ATM.AddConnectedBank | src/ATM.cpp:146-152 | Appends the bank unless it is the primary bank, which is never listed. |
| Atm.ATM.StartSession | src/ATM.cpp:132-135 | A fresh active session for the card, with no history and zero counters. |
| Atm.ATM.EndCurrentSession | src/ATM.cpp:137-144 | Ends the current session, if any, and forgets it. |
| Atm.ATM.AddCash | src/ATM.cpp:560-567 | Always succeeds. The inventory becomes the pointwise sum and keeps all four denominations. |
| Atm.ATM.HasSufficientCash | src/ATM.cpp:569-577 | True exactly when the inventory's total value covers the amount. |
| Atm.ATM.GetCashBreakdown | src/ATM.cpp:579-607 | Returns the greedy breakdown, which is sound as above, and leaves the inventory untouched. |
| Atm.ATM.UpdateCashInventory | src/ATM.cpp:651-670 | A positive amount is a no-op. Otherwise the greedy removal runs, and all four denominations stay stocked. |
| Atm.ATM.ValidatePin | src/ATM.cpp:159-209 | An unroutable number fails without counting an attempt. A wrong PIN counts exactly one attempt, and a right PIN none. Reaching three attempts ends any current session with the error text. |
| Atm.ATM.ProcessCashDeposit | src/ATM.cpp:211-264 | More than 50 bills are refused first, then an unroutable number, with nothing changed. Otherwise both bundles join the inventory and the amount is credited. |
| Atm.ATM.ProcessCheckDeposit | src/ATM.cpp:266-315 | A session at 50 check deposits is refused first, then an unroutable number. Otherwise the fee bills join the inventory, the amount is credited, and the check count rises by one. |
| Atm.ATM.Deposit | src/ATM.cpp:317-365 | An unroutable number is refused with nothing changed. Otherwise the routed account is credited, the routed bank's fee is reported, and the session records the deposit. For cash the inventory is as the update rule leaves it. |
| Atm.ATM.Withdraw | src/ATM.cpp:367-432 | The checks run in order: unroutable, short total cash, short balance, no breakdown. Each leaves balance and inventory unchanged. On success the balance drops by amount + fee and stays non-negative. The inventory loses exactly the returned breakdown, and the session records the withdrawal and counts it. |
| Atm.ATM.Transfer | src/ATM.cpp:434-554 | An unroutable destination is refused. A cash transfer costs 1000, refuses a non-positive amount and credits the destination. An account transfer charges the fee table, refuses a balance below amount + fee, and moves balances as the as-written transfer does. A cash transfer never changes a source account distinct from the destination. Failures change no balance, and success is recorded. |
| Atm.ATM.CashTransferTo | src/ATM.cpp:461-486 | The cash branch: fee 1000, success exactly for a positive amount, the destination credited by it, and the transfer recorded. |
| Atm.ATM.AccountTransferBetween | src/ATM.cpp:511-552 | The account branch: fee from the table, success exactly when the source covers amount + fee. Two distinct accounts move as the as-written transfer; a self-transfer costs only the fee. Nothing changes on failure. |
| Atm.ATM.IsValidCard | src/ATM.cpp:609-616 | A single-bank terminal accepts only its primary bank's cards, and a multi-bank terminal accepts any. |
| Atm.ATM.GetTransactionFee | src/ATM.cpp:618-649 | The fee table, keyed by whether each bank is the terminal's primary one. |
| CurrencyFormat.Decimal | src/main.cpp:14 | The decimal text of a non-negative number is made of digits, with no leading zero. |
| CurrencyFormat.DecimalRoundTrip | src/main.cpp:14 | Reading the decimal text back gives the number. |
| CurrencyFormat.IntText | src/main.cpp:14 | The text of an int is its decimal text, with a minus sign in front when negative. |
| CurrencyFormat.GroupedRoundTrip | src/main.cpp:15-20 | Deleting the commas undoes the grouping. |
| CurrencyFormat.GroupedCommas | src/main.cpp:15-20 | Grouping n characters inserts (n − 1) / 3 commas, and there is a comma exactly when n > 3. |
| CurrencyFormat.FormatCurrency | src/main.cpp:12-22 | The comma-inserting loop produces "KRW " followed by the grouped decimal text. |
| CurrencyFormat.FormatRoundTrip | src/main.cpp:12-22 | Deleting the commas from the display gives back the decimal text. There is a comma exactly when that text is longer than three characters. |
| CurrencyFormat.NegativeSixDigits | src/main.cpp:14-21 | −123456 is displayed with a comma right after the minus sign. |
| CurrencyFormat.FormatSigned | src/main.cpp:12-22 | The corrected display starts with "KRW ", and deleting its commas gives back the decimal text of the amount. |
| CurrencyFormat.SignedDisplayStartsWithDigit | src/main.cpp:12-22 | In the corrected display a digit always follows "KRW " or, for a negative amount, the minus sign. |
| Console.TenderDecision | src/main.cpp:190-219 | A tender below the fee is short. One above it is paid only on "y" or "Y"; an exact one is paid at once. The change is the tender minus the fee. |
| Console.TakeFee | src/main.cpp:185-223 | The tender is summed and judged. A paid tender joins the inventory whole, change included, and the inventory value grows by the whole tender. An unpaid tender changes nothing. |
| Console.HandleDepositFee | src/main.cpp:177-224 | Charges the deposit fee of the card's bank. Success means the tender is paid; the inventory then gains the tendered bills, and the reported total is the fee. |
| Console.CheckCard | src/main.cpp:362-417 | The checks run in order: twelve characters, then the administrator card, then the first holder in the global bank list. A single-bank terminal accepts only its primary bank's cards. An accepted card is valid for the terminal, and a twelve-character, non-administrator card held by some bank is accepted exactly when the terminal takes cards of its first holder, and otherwise refused as another bank's card. |
| Console.PinEntryAsWritten | src/main.cpp:425-452 | At most three attempts, and a valid PIN is the routed account's. For a card the terminal routes, every rejected PIN counts, had the wrong length or differs from the account's PIN, and at most three are read; a correct first PIN is accepted at once. For a card the terminal cannot route, four-character PINs are never counted, so the loop reads every PIN it is given. |
| Console.PinEntry | src/main.cpp:425-452 | With every rejected PIN counted, the loop ends after at most three PINs. For a card the terminal routes, every rejected PIN had the wrong length or differs from the account's PIN, and a correct first PIN is accepted at once. |
| Console.CashDeposit | src/main.cpp:494-530 | Succeeds exactly for a positive sum, a routable card and a paid fee. Only then do the bills join the inventory, after the fee bills. An unpaid fee takes the credit back from a non-negative balance. The terminal's record of the deposit stays in the session whenever the terminal credited the account. |
| Console.CheckDepositAsWritten | src/main.cpp:533-605 | A check below 100000 is refused. A routable card's account is credited whether or not the fee is then paid. |
| Console.CheckDeposit | src/main.cpp:533-605 | The corrected check deposit credits only when the fee is paid. Otherwise a non-negative balance is left as it was. |
| Console.EmptyTenderIsShort | src/main.cpp:576-580 | No fee bills are short of any deposit fee. |
| Console.WithdrawRequest | src/main.cpp:610-649 | Refused with nothing changed once three withdrawals are made, or for an amount outside 1..500000. Within those bounds it succeeds exactly when the card routes and the terminal's withdrawal verdict is success. A refusal by the terminal leaves the inventory and the balance as they were. On success the account pays the amount plus the routed bank's withdrawal fee, the inventory loses the breakdown of the amount, and the count rises by one without passing 3. |
| Console.CashTransferRequest | src/main.cpp:665-726 | Succeeds exactly for a paid fee of 1000, a routable destination and a positive sum. Only then are the destination credited and the bills, then the fee bills, added to the inventory. The card's own account, when distinct from the destination, is never debited. |
| Console.AcceptTransferBills | src/main.cpp:718-719 | After a successful cash transfer the inventory gains the inserted bills, then the fee bills, and stays a valid inventory. |
| Console.AccountTransferRequest | src/main.cpp:727-751 | A non-positive amount is refused before the terminal is asked. Between two distinct accounts the balances move as the corrected account transfer. |

## Left out

- Console and window I/O, the localized message table, the administrator menu, transaction-history
  printing and export, the session summary and snapshot reports: these are display and file output.
- Timestamps and session duration: wall-clock values. Transaction identifiers are the record's
  position in its session's history, because their generator is not among the modelled sources.
- The interactive system initializer. Only its effect is kept: a terminal starts with a count
  for every denomination (`Atm.ATM.constructor` takes that stock).
- Amounts are `double` in part of the source and always hold whole KRW. They are modelled as
  unbounded `int`, so there is no 32-bit overflow in sums of bills.
- Output parameters the source leaves unset on early failure are 0 or empty in the model.
- Sessions.Session.AddTransaction: `src/Session.cpp:8` stores nothing. The terminal calls a
  four-argument overload that the modelled sources do not define, and the model appends the
  record to the session so that what each operation records can be stated.
- Atm.ATM.EndCurrentSession: the reason text passed to the session is not kept.
- Sessions.Session.EndSession, Sessions.Session.EndSessionWithError, Sessions.Session.CanDepositCheck,
  Sessions.Session.IncrementCheckDeposit, Sessions.Session.IncrementWithdrawalCount and
  Atm.ATM.HasActiveSession: the modelled headers declare none of these (`include/Session.hpp:12-26`
  has only an empty `endSession()`, defined at `src/Session.cpp:9`). Yet the terminal calls
  `endSession(reason)` (`src/ATM.cpp:141`), `endSessionWithError` (`src/ATM.cpp:196`),
  `canDepositCheck` and `incrementCheckDeposit` (`src/ATM.cpp:270`, `:308`) and
  `incrementWithdrawalCount` (`src/ATM.cpp:427`), and the console calls `hasActiveSession`
  (`src/main.cpp:634`). The revision defining them is not part of this model. The fields `active`,
  `lastError` and `checkDepositCount` are the model's guess at what they keep; the withdrawal
  count rising by one is the evident meaning of the call. The per-session check cap is a guess too: it reuses `MAX_CHECK_INSERT`
  (`include/Constants.hpp:57`), which the constants name as a per-insert limit.
- Atm.ATM.ProcessCheckDeposit requires a current session. `src/ATM.cpp:270` dereferences the
  session without checking it, so the source has no defined behaviour without one.
- Strings are sequences of characters. The source's length checks on the card number and the PIN
  (`src/main.cpp:366`, `:432`) count the bytes of a `std::string`, so Console.CheckCard,
  Console.PinEntryAsWritten and Console.PinEntry agree with the source on ASCII input only: a
  non-ASCII PIN of four bytes reaches `validatePin` in the source but counts as a wrong-length
  attempt in the model.
- Atm.ATM.AddCash requires a cash input whose keys are valid denominations. The console's cash
  reader, which produces such maps, is not part of this model.
- Console.CashDeposit and Console.CheckDeposit take the account found by the console's card search
  to be the account the terminal routes the card to. The two searches differ only for a card
  whose number is held by more than one bank.
- Console.CashTransferRequest: the source sums the inserted bills into an uninitialized variable.
  The model takes the amount to be the sum of the bills.
- The card loop and the PIN loop repeat on fresh console input. The model covers one card check,
  and the PIN loop stops when the PINs given to it run out. Retaining the card ends the program,
  which the model represents as the loop stopping at three attempts.
- `ProcessCashDeposit`'s 50-bill limit and `ProcessCheckDeposit`'s counter are modelled, but the
  console never calls either operation, so no console flow reaches them.
- The account-transfer rollback (re-crediting the source when the credit fails) cannot happen,
  because a credit never fails. It is modelled in `Atm.DebitThenCredit` and not in the method.

## Findings

| source | as written | input that shows it | evidently intended | confidence | as-written member | corrected member |
|---|---|---|---|---|---|---|
| src/main.cpp:561-595 | After `ATM::deposit` credits a check, a fee tender that is short or whose change is refused just returns to the menu. The credit is not taken back. | A 100000 check at a routable account with an empty fee tender: the balance rises by 100000 and no fee is collected. | Take the credit back when the fee is not paid, as the cash path does at src/main.cpp:515-520. | medium, not executed | Console.CheckDepositAsWritten | Console.CheckDeposit |
| src/ATM.cpp:525-552 | The account branch of transfer never checks the sign of the amount, and the console passes any integer it reads (src/main.cpp:729-742). | Source and destination at balance 0, amount −5000, fee 2000: the source ends at 3000 and the destination at −5000. | Refuse a non-positive amount, as the cash branch does at src/ATM.cpp:466-470. | high, not executed | Atm.NegativeAccountTransfer | Console.AccountTransferRequest |
| src/main.cpp:14-21 | Commas are inserted by position in `to_string(amount)`, so the minus sign counts as a digit. | −123456 displays as "KRW -,123,456". | Group the digits only, giving "KRW -123,456". | medium, not executed | CurrencyFormat.NegativeSixDigits | CurrencyFormat.FormatSigned |
| src/main.cpp:432-447 | A four-character PIN is counted only by `validatePin`, which returns without counting when the card's number is not routable (src/ATM.cpp:182-185). | A multi-bank terminal whose primary and connected banks do not hold the card, with the card issued by another bank in the global list: the card check accepts it, and every PIN is rejected without being counted. The input needs a global bank that neither the primary bank nor any connected bank is. The shipped initializer (src/SystemInitializer.cpp:159-167) connects every other bank to a multi-bank terminal, so its set-up never produces this input; the finding is about the code as written. | Count every rejected PIN, so the card is retained after three. | medium, not executed | Console.PinEntryAsWritten | Console.PinEntry |
