# Apex order pipeline in Dafny

This project models the core of Apex, a Spring trading back end, and proves
properties of the model. The core is the path an order takes through the
system:

- **State machine** (`state_machine.dfy`). `OrderStateMachine` holds the
  table of allowed status changes: PENDING_VALIDATION → VALIDATED or
  REJECTED, and VALIDATED → FILLED or REJECTED. Its `transition` method is the
  only place the core changes an order's status, and every successful change
  appends one audit row.
- **Wallet** (`wallet.dfy`). `WalletService.adjustBalance` is a checked
  read-modify-write on a user's balance. Each change appends one entry to the
  append-only transaction ledger.
- **Risk gate** (`risk_management.dfy`). `RiskManagementService.validateOrder`
  applies a notional ceiling of 5000.00 and a duplicate-pending-order guard.
- **Trade guard** (`risk_guard.dfy`). `RiskGuard.validateTrade` checks the
  balance, a 100.00 reserve and a cap of 50 trades a day.
- **Execution** (`order_execution.dfy`). `OrderExecutionService.executeOrder`
  runs these steps:
  1. the idempotency lookup;
  2. creation of the order as PENDING_VALIDATION;
  3. the price fetch;
  4. the risk gate;
  5. VALIDATED;
  6. the BUY debit;
  7. FILLED;
  8. the SELL credit.

  Its catch blocks turn failures into REJECTED.
- **Portfolio** (`portfolio.dfy`). `PortfolioService` updates the holdings
  table and the users' cash after a trade. It merges positions at a HALF_UP
  weighted average price and values a portfolio at current prices.

Each service that updates state in place is a `class`:

- an `Order` entity whose fields are set step by step;
- an audit trail owned by the state machine;
- the wallet table and ledger;
- the order table;
- the holdings table.

Every method of these classes is proved equal to a function over values. The
function for execution works on a `Store` value (orders, audit, balances,
ledger). The properties are lemmas about those functions:

- the full decision table of one call;
- idempotent retries;
- money moves exactly when an order fills;
- balance conservation over any sequence of calls;
- no double spend across repeated BUYs;
- a trade at the quoted price leaves every user's portfolio value unchanged.

Money is an integer number of cents. Prices have scale 2 in the source, and
every amount the core computes is a product of a cent price and a whole
quantity. The one division is the average price, which is rounded to the cent
with HALF_UP; it is modelled as an integer division rounded half away from
zero.

Two behaviours of the code are modelled as they are. The first one hides the
second: as written, no new order with a price gets past the risk gate, so the
SELL escape can only be reached once the first is corrected.

- **The risk gate rejects every new order.** executeOrder saves the new order
  as PENDING_VALIDATION before it runs the risk check. The duplicate guard
  then finds that same row, so every new order with a price is REJECTED.
  - `OrderExecution.Executed` is executeOrder as written.
  - `OrderExecution.ExecutedIntended` is the corrected version, whose guard
    sees only the orders that existed before the call.
  - These lemmas take an `intended` flag and are proved for both versions:
    `ExecutionPaths`, `PassedPath`, `RetryWithSameKey`,
    `RejectedBeforeFundsMove`, `BuyWithoutFundsIsRejected`,
    `SellCreditFailureEscapes`, `OutcomeIsFinal`,
    `FundsMoveExactlyWhenFilled`, `ExecutionKeepsWalletInvariants` and
    `SessionKeepsWalletInvariants`.
  - `NewOrderIsAlwaysRejected` and `ScenarioAAsWritten` are stated for the
    code as written only.
  - With `intended == false`, `PassedPath`, `BuyWithoutFundsIsRejected` and
    `SellCreditFailureEscapes` hold vacuously. Their premise is that the risk
    gate passed, and `NewOrderIsAlwaysRejected` shows it never does as
    written.
  - `IntendedBuyFills`, `ScenariosIntended`, `IntendedBuyStep`,
    `BuyRunDebits`, `BuyRunOutcomes` and `NoDoubleSpend` are stated for the
    corrected version only.
  - This is listed under Findings.
- **A failed SELL credit escapes.** The credit fails after the order is
  already FILLED. The catch block then asks for FILLED → REJECTED, which the
  state machine refuses, so the call ends in
  InvalidOrderStateTransition(FILLED, REJECTED) rather than a REJECTED order.
  This path is reachable only with the corrected guard.

## Model

| member | source | states |
|---|---|---|
| StateMachine.AllowedTargets | src/main/java/com/example/Apex/execution/OrderStateMachine.java:45-52 | exactly four transitions are allowed: PENDING_VALIDATION→{VALIDATED, REJECTED} and VALIDATED→{FILLED, REJECTED}; a status with no table entry allows nothing |
| StateMachine.TableShape | src/main/java/com/example/Apex/execution/OrderStateMachine.java:45-52 | FILLED, REJECTED and CANCELLED have no outgoing transition; nothing enters PENDING_VALIDATION or CANCELLED; no self-loops; an allowed target is VALIDATED or terminal |
| StateMachine.Transitioned | src/main/java/com/example/Apex/execution/OrderStateMachine.java:62-86 | succeeds iff the pair is in the table; a refusal is InvalidOrderStateTransition(current, target) and writes nothing; success sets only the status and appends exactly one audit row (id, old, new) |
| StateMachine.RunLength | src/main/java/com/example/Apex/execution/OrderStateMachine.java:45-52 | any chain of allowed transitions from a status makes at most 2 steps from PENDING_VALIDATION, 1 from VALIDATED and 0 from a terminal status |
| StateMachine.RunFromPending | src/main/java/com/example/Apex/execution/OrderStateMachine.java:45-52 | a lifecycle starting at PENDING_VALIDATION has at most two transitions, and a two-step one ends in FILLED or REJECTED |
| StateMachine.OrderStateMachine.Transition | src/main/java/com/example/Apex/execution/OrderStateMachine.java:62-86 | the in-place transition: refused iff not in the table, with the order's status and the audit trail unchanged; otherwise status becomes the target and one audit row is appended; no other order field changes |
| Domain.Order.constructor | src/main/java/com/example/Apex/service/OrderExecutionService.java:45-52 | a new order carries the request fields, no price, no execution price, no reason and status PENDING_VALIDATION |
| Wallet.Adjusted | src/main/java/com/example/Apex/service/WalletService.java:24-52 | fails with WalletNotFound iff the user has no wallet, and with InsufficientFunds iff the amount is negative and would take the balance below zero; succeeds iff the wallet exists and covers the amount; on success it appends one ledger entry (user, amount, type), moves that user's balance by the amount and leaves every other wallet as it was |
| Wallet.AdjustedKeepsLedgerBacked | src/main/java/com/example/Apex/service/WalletService.java:39-49 | a successful adjustment keeps every balance equal to its opening balance plus the sum of its ledger entries |
| Wallet.AdjustedKeepsNonNegative | src/main/java/com/example/Apex/service/WalletService.java:31-37 | no adjustment takes a non-negative balance below zero |
| Wallet.ReplayInvariant | src/main/java/com/example/Apex/service/WalletService.java:24-52 | over any sequence of adjustBalance calls, the balances stay opening balance plus ledger sum, non-negative balances stay non-negative, and the ledger is only appended to |
| Wallet.WalletService.AdjustBalance | src/main/java/com/example/Apex/service/WalletService.java:24-52 | the method writes exactly what Adjusted gives, writes nothing on failure, and keeps the ledger-backed invariant |
| RiskManagement.HasPendingOrder | src/main/java/com/example/Apex/service/RiskManagementService.java:44 | the scan of the order table from the newest row answers true iff some row of the user for the symbol is PENDING_VALIDATION |
| RiskManagement.ValidateOrder | src/main/java/com/example/Apex/service/RiskManagementService.java:18-51 | passes iff price × quantity ≤ 500000 cents and the table holds no PENDING_VALIDATION order for the user and symbol; the ceiling rule wins when both fail; each rejection iff its own condition |
| RiskManagement.OtherOrdersDoNotBlock | src/main/java/com/example/Apex/service/RiskManagementService.java:44-48 | adding an order of another user, another symbol or another status to the table never changes the verdict |
| RiskGuard.ValidateTrade | src/main/java/com/example/Apex/risk/RiskGuard.java:34-62 | InsufficientBalance iff balance < trade value; the minimum-balance violation iff the trade is covered but leaves less than 100.00; the daily-limit violation iff the reserve holds and the day's count is ≥ 50 |
| RiskGuard.PassesIff | src/main/java/com/example/Apex/risk/RiskGuard.java:38-59 | a trade passes iff balance − value ≥ 100.00 and fewer than 50 trades were made today (the sufficiency check only chooses the error) |
| OrderExecution.FindByKey | src/main/java/com/example/Apex/service/OrderExecutionService.java:37-42 | finds nothing iff no stored order has the key; what it finds is a stored order carrying the key |
| OrderExecution.AfterCatch | src/main/java/com/example/Apex/service/OrderExecutionService.java:82-96 | the catch blocks: return the order REJECTED with the reason iff REJECTED is reachable from its status, appending one audit row and saving the row; from FILLED the refusal escapes and nothing is written; no money moves |
| OrderExecution.AfterFill | src/main/java/com/example/Apex/service/OrderExecutionService.java:72-80 | filling writes only this order's row, appends to the audit trail and moves money by at most one ledger entry; the saved row is the returned order, or the old row when the call escapes |
| OrderExecution.AfterProcess | src/main/java/com/example/Apex/service/OrderExecutionService.java:55-94 | the try block keeps the same frame: one order row, audit and ledger only appended, the wallets moved by exactly the one ledger entry if any; the saved row is the returned order |
| OrderExecution.Executed | src/main/java/com/example/Apex/service/OrderExecutionService.java:35-97 | a stored key returns the stored order and writes nothing; otherwise the new order is appended under the next id and only that row, the audit trail and at most one wallet adjustment change |
| OrderExecution.ExecutedIntended | src/main/java/com/example/Apex/service/OrderExecutionService.java:35-97 | the same frame for executeOrder with the duplicate guard over the orders that existed before the call |
| OrderExecution.OrderExecutionService.ExecuteOrder | src/main/java/com/example/Apex/service/OrderExecutionService.java:35-97 | the method on the mutable Order, the order table, the state machine and the wallet service has exactly the effect Executed gives and keeps ids equal to table positions |
| OrderExecution.OrderExecutionService.ProcessOrder | src/main/java/com/example/Apex/service/OrderExecutionService.java:55-94 | the try block run in place has exactly the effect AfterProcess gives |
| OrderExecution.OrderExecutionService.FillOrder | src/main/java/com/example/Apex/service/OrderExecutionService.java:72-80 | steps 7 and 8 run in place have exactly the effect AfterFill gives |
| OrderExecution.OrderExecutionService.HandleFailure | src/main/java/com/example/Apex/service/OrderExecutionService.java:82-96 | a catch block run in place has exactly the effect AfterCatch gives |
| ExecutionProperties.ExecutionPaths | src/main/java/com/example/Apex/service/OrderExecutionService.java:35-97 | the decision table for a new key: no price → REJECTED(no market data); risk failure → REJECTED(reason); else the wallet adjustment decides FILLED (one ledger entry), REJECTED from VALIDATED (BUY debit failed), or the escape (SELL credit failed), with the exact order row and audit rows of each path |
| ExecutionProperties.PassedPath | src/main/java/com/example/Apex/service/OrderExecutionService.java:63-93 | after the risk gate passes, the outcome is FILLED, REJECTED from VALIDATED or the escape, with the exact orders, audit rows, wallets and ledger of each |
| ExecutionProperties.RetryWithSameKey | src/main/java/com/example/Apex/service/OrderExecutionService.java:37-42 | a retry with the same key, whatever its other arguments, returns the order the first call saved and writes nothing; it equals the first answer whenever that returned |
| ExecutionProperties.RejectedBeforeFundsMove | src/main/java/com/example/Apex/service/OrderExecutionService.java:55-61 | a missing price or a risk rejection gives REJECTED with a non-wallet reason, no wallet or ledger change and the single audit row PENDING_VALIDATION→REJECTED |
| ExecutionProperties.NewOrderIsAlwaysRejected | src/main/java/com/example/Apex/service/OrderExecutionService.java:44-61 | as written, every new order is REJECTED and moves no money; with a price the reason is the ceiling rule or ActiveOrderExists for its own symbol |
| ExecutionProperties.BuyWithoutFundsIsRejected | src/main/java/com/example/Apex/service/OrderExecutionService.java:66-70 | a BUY past the risk gate without a wallet or without funds for the notional ends REJECTED with the wallet's error, audit PENDING_VALIDATION→VALIDATED→REJECTED, and no money moved |
| ExecutionProperties.SellCreditFailureEscapes | src/main/java/com/example/Apex/service/OrderExecutionService.java:77-93 | a SELL whose credit fails ends in InvalidOrderStateTransition(FILLED, REJECTED), with the saved row still PENDING_VALIDATION, both audit rows kept and no money moved |
| ExecutionProperties.OutcomeIsFinal | src/main/java/com/example/Apex/service/OrderExecutionService.java:35-97 | a new order that comes back is FILLED or REJECTED; the only call that does not come back is a SELL ending in InvalidOrderStateTransition(FILLED, REJECTED) |
| ExecutionProperties.FundsMoveExactlyWhenFilled | src/main/java/com/example/Apex/service/OrderExecutionService.java:63-80 | the ledger changes iff the call returns a FILLED order; then the execution price is the fetched price, the audit rows are PENDING_VALIDATION→VALIDATED→FILLED and the ledger and balance move by the signed notional once |
| ExecutionProperties.IntendedBuyFills | src/main/java/com/example/Apex/service/OrderExecutionService.java:60-75 | with the corrected guard, a covered BUY within the ceiling and with no pending order for the symbol is FILLED and debits exactly the notional |
| ExecutionProperties.ExecutionKeepsWalletInvariants | src/main/java/com/example/Apex/service/OrderExecutionService.java:66-80 | one call keeps balances equal to opening balance plus ledger sum, keeps them non-negative and only appends to the ledger |
| ExecutionProperties.SessionKeepsWalletInvariants | src/main/java/com/example/Apex/service/OrderExecutionService.java:35-97 | balance conservation over any sequence of executeOrder calls, as written or corrected |
| ExecutionProperties.ScenariosIntended | src/main/java/com/example/Apex/service/OrderExecutionService.java:66-75 | BUY 10 @ 50.00 from 1000.00 fills and leaves 500.00 with one TRADE_BUY entry of −500.00; a following BUY 15 is REJECTED for insufficient funds and the balance stays 500.00 |
| ExecutionProperties.ScenarioAAsWritten | src/main/java/com/example/Apex/service/OrderExecutionService.java:53-61 | as written, the same BUY 10 @ 50.00 is REJECTED with ActiveOrderExists("BTC") and the balance stays 1000.00 |
| ExecutionProperties.IntendedBuyStep | src/main/java/com/example/Apex/service/OrderExecutionService.java:60-75 | one corrected BUY within the ceiling fills iff the balance covers the notional, debits it exactly then, is otherwise REJECTED for insufficient funds, and leaves no pending order for the symbol |
| ExecutionProperties.BuyRunDebits | src/main/java/com/example/Apex/service/OrderExecutionService.java:66-75 | after a run of corrected BUYs the balance is the opening balance minus the notional once per FILLED order |
| ExecutionProperties.BuyRunOutcomes | src/main/java/com/example/Apex/service/OrderExecutionService.java:66-75 | every corrected BUY of a run is either FILLED or REJECTED for insufficient funds |
| ExecutionProperties.NoDoubleSpend | src/main/java/com/example/Apex/service/OrderExecutionService.java:66-75 | of n BUYs of notional v against balance B (corrected guard), exactly min(n, B / v) fill, the balance ends at B − v × that number, and every other one is REJECTED for insufficient funds |
| Portfolio.RoundHalfUp | src/main/java/com/example/Apex/portfolio/PortfolioService.java:69-70 | the result is within half a unit of n / d, and on a tie it is the one farther from zero (HALF_UP) |
| Portfolio.AverageWithinRange | src/main/java/com/example/Apex/portfolio/PortfolioService.java:64-70 | the merged average price lies between the old average and the order price |
| Portfolio.HoldingOf | src/main/java/com/example/Apex/portfolio/PortfolioService.java:59-60 | findByUserIdAndSymbol finds nothing iff no row has the key, and what it finds is a row with that key |
| Portfolio.UpdateKeepsOthers | src/main/java/com/example/Apex/portfolio/PortfolioService.java:72-74 | saving a changed row under its key keeps the unique constraint, the key then finds the new row, and every other key's lookup is unchanged |
| Portfolio.AppendKeepsOthers | src/main/java/com/example/Apex/portfolio/PortfolioService.java:76-82 | inserting a row under a new key keeps the unique constraint, finds it, and leaves every other key's lookup unchanged |
| Portfolio.RemoveKeepsOthers | src/main/java/com/example/Apex/portfolio/PortfolioService.java:96-97 | deleting a row keeps the unique constraint, its key then finds nothing, and every other key's lookup is unchanged |
| Portfolio.Bought | src/main/java/com/example/Apex/portfolio/PortfolioService.java:58-84 | fails with DivisionByZero iff an existing position's merged quantity is 0; otherwise the key finds the merged row (quantities summed, HALF_UP weighted average) or a new row at the order price, and no other key changes |
| Portfolio.Sold | src/main/java/com/example/Apex/portfolio/PortfolioService.java:86-102 | NoHolding iff the user holds no row for the symbol; ExceedsHeld iff fewer are held than sold; succeeds iff a row is held with at least the quantity sold; then the row disappears when all is sold, else only its quantity drops; no other key changes |
| Portfolio.Traded | src/main/java/com/example/Apex/portfolio/PortfolioService.java:38-56 | UserNotFound iff no such user, MissingPrice iff the order has no price; otherwise the holdings are what Bought/Sold give (their error if they fail) and the cash drops (BUY) or rises (SELL) by price × quantity, with no non-negativity check |
| Portfolio.HoldingsOfCounts | src/main/java/com/example/Apex/portfolio/PortfolioService.java:111 | findByUserId returns each of the user's rows exactly as often as the table holds it, and no row of another user |
| Portfolio.HoldingsValue | src/main/java/com/example/Apex/portfolio/PortfolioService.java:114-119 | the sum of current price × quantity over the rows, folded from the first row, is never negative when no quantity or price is |
| Portfolio.TableWorthIsUserValue | src/main/java/com/example/Apex/portfolio/PortfolioService.java:111-119 | filtering the table by user and then folding price × quantity gives the same value as summing each row's worth over the whole table, with other users' rows worth nothing |
| Portfolio.SummaryOf | src/main/java/com/example/Apex/portfolio/PortfolioService.java:107-129 | UserNotFound iff no such user; otherwise cash is the balance, the holdings hold each of the user's rows exactly as often as the table does and no other row, and the total is cash plus the sum over the whole table of current price × quantity of the user's rows |
| Portfolio.BoughtValue | src/main/java/com/example/Apex/portfolio/PortfolioService.java:58-84 | after a BUY the buyer's holdings value rises by current price × quantity and every other user's is unchanged, whatever the new average price |
| Portfolio.SoldValue | src/main/java/com/example/Apex/portfolio/PortfolioService.java:86-102 | after a SELL the seller's holdings value drops by current price × quantity, deleted row or not, and every other user's is unchanged |
| Portfolio.TradeAtQuoteKeepsTotalValue | src/main/java/com/example/Apex/portfolio/PortfolioService.java:38-56 | an update at the price the valuation uses leaves every user's total portfolio value unchanged |
| Portfolio.PortfolioService.UpdatePortfolio | src/main/java/com/example/Apex/portfolio/PortfolioService.java:38-56 | the method writes exactly what Traded gives and nothing on failure, keeping the unique constraint |
| Portfolio.PortfolioService.HandleBuy | src/main/java/com/example/Apex/portfolio/PortfolioService.java:58-84 | the in-place merge or insert has exactly the effect Bought gives |
| Portfolio.PortfolioService.HandleSell | src/main/java/com/example/Apex/portfolio/PortfolioService.java:86-102 | the in-place reduce or delete has exactly the effect Sold gives |
| Portfolio.PortfolioService.Summary | src/main/java/com/example/Apex/portfolio/PortfolioService.java:107-129 | fails iff the user is unknown; otherwise cash is the balance and the total is cash plus the user's holdings value |

## Left out

- Logging, timestamps (`filledAt`, audit and ledger times) and exception message texts. Rejection reasons are a datatype instead of strings.
- Concurrency: the pessimistic wallet lock and simultaneous requests.
- Spring transaction semantics. Each call is modelled by its method body alone. The rollback of an escaping exception is not modelled. Neither is the rollback-only mark that an exception thrown through the wallet's own `@Transactional` proxy leaves on the enclosing transaction.
- ExecutionProperties.BuyWithoutFundsIsRejected, ExecutionProperties.ScenariosIntended, ExecutionProperties.NoDoubleSpend: a failed BUY debit is modelled as the saved REJECTED order that the catch at OrderExecutionService.java:88-94 and the save at line 96 return. In the program, `adjustBalance` (WalletService.java:23) throws a RuntimeException through its transactional proxy, which marks the transaction of `executeOrder` (line 34) rollback-only. The catch returns normally, but the commit then throws UnexpectedRollbackException and nothing of the call is saved. So the REJECTED order of scenario B (a BUY of 15 @ 50.00 right after a filled BUY of 10 @ 50.00 from 1000.00) and the REJECTED orders of the no-double-spend run are not stored by the program.
- ExecutionProperties.SellCreditFailureEscapes, ExecutionProperties.RetryWithSameKey: an order row is written only where `executeOrder` calls `save` (OrderExecutionService.java:53 and :96), as a snapshot of the order at that moment. An escaping SELL therefore leaves its line-53 PENDING_VALIDATION row, its two audit rows and an untouched wallet. In the program the row is a managed entity that is FILLED by then, and the `@Transactional` call (line 34) is rolled back, since InvalidOrderStateTransitionException is a RuntimeException. Under the corrected guard the model has two consequences the program does not. The leftover row makes the user's next order for that symbol REJECTED with ActiveOrderExists. A retry with the same key returns that PENDING_VALIDATION row.
- `MarketDataService.getLatestPrice` and `brokerClient.getPrice` are I/O. The first is a map of quoted prices, where a missing symbol is the "no market data" failure. The second is a total function argument to the valuation.
- RiskGuard: the day boundary and the order-count query (`countOrdersByUserIdSince`) become the parameter `todayTradeCount`. The user's balance is a parameter.
- Prices with more than two decimals. Money is whole cents.
- Portfolio.Bought: does not model 32-bit wrap-around of `holding.getQuantity() + order.getQuantity()` (line 68). Quantities are unbounded integers.
- Portfolio.Sold: does not model 32-bit wrap-around of the quantity subtraction (line 91).
- Portfolio.Traded: the users' cash balances are a separate map from the wallets of the execution path, as `User.balance` and `Wallet.balance` are separate in the source.
- User.java, Wallet.java and TransactionType.java are not part of this model. Only the TRADE_BUY and TRADE_SELL transaction types are used.
- The strategies, the backtester, the WebSocket market feed, the controllers and TradeOrchestrationService are outside the core.
- `ExecutionService` (src/main/java/com/example/Apex/execution/ExecutionService.java) is outside the core. It sets an order's status to FILLED (line 45) or REJECTED (line 58) directly with `setStatus`, bypassing the state machine's table and writing no audit row. The `@PrePersist` hook of src/main/java/com/example/Apex/model/Order.java (lines 66-71) sets PENDING_VALIDATION on an order saved without a status. The model sets the status only in `StateMachine.OrderStateMachine.Transition` and in the `Domain.Order` constructor, so neither path is modelled.
- Null request fields (a null quantity, symbol or side) are not modelled. The one null that is modelled is a missing order price in `updatePortfolio`.

## Findings

| source | as written | input that shows it | evidently intended | confidence | as-written member | corrected member |
|---|---|---|---|---|---|---|
| src/main/java/com/example/Apex/service/OrderExecutionService.java:53 | the new order is saved as PENDING_VALIDATION before `validateOrder`, whose duplicate guard (RiskManagementService.java:44) then finds that same row, so every new priced order within the ceiling is REJECTED with "Active order already exists" (above it the ceiling rule rejects first) and none ever fills | user 1 with 1000.00, BTC at 50.00, BUY 10 with a fresh key: REJECTED, balance unchanged (ExecutionProperties.ScenarioAAsWritten) | the guard should look only at other orders; a covered BUY within the ceiling is then FILLED (ExecutionProperties.IntendedBuyFills, ScenariosIntended, NoDoubleSpend) | not executed | ExecutionProperties.NewOrderIsAlwaysRejected | OrderExecution.ExecutedIntended |
