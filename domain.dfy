/**
 * The entities and enumerations of the trading backend: orders, their audit
 * rows, wallet ledger entries, holdings, and the failures that the execution
 * pipeline records as a rejection reason.
 *
 * Money is exact: every amount is an integer number of cents (hundredths of
 * the currency unit), the scale at which prices and averages are stored.
 */
module Domain {

  datatype Option<+T> = None | Some(value: T)

  /** Pass, or the failure a Java method would have thrown. */
  datatype Outcome<+E> = Pass | Fail(error: E)

  datatype Result<+T, +E> = Ok(value: T) | Err(error: E)

  type UserId = int
  type Symbol = string
  /** An amount of money in cents. */
  type Money = int

  datatype OrderStatus = PendingValidation | Validated | Filled | Rejected | Cancelled

  datatype Side = Buy | Sell

  datatype TransactionType = TradeBuy | TradeSell

  /** InvalidOrderStateTransitionException(from, to). */
  datatype TransitionError = InvalidOrderStateTransition(from: OrderStatus, to: OrderStatus)

  /** The two reasons RiskManagementService.RiskException is thrown for. */
  datatype RiskRejection =
    | OrderValueExceedsLimit(orderValue: Money)
    | ActiveOrderExists(symbol: Symbol)

  /** The two RuntimeExceptions WalletService.adjustBalance throws. */
  datatype WalletError =
    | WalletNotFound(userId: UserId)
    | InsufficientFunds(userId: UserId)

  /** What the orchestrator's catch blocks record as the order's rejection reason. */
  datatype Failure =
    | RiskFailure(risk: RiskRejection)
    | NoMarketData(symbol: Symbol)
    | WalletFailure(wallet: WalletError)

  /** A row of the orders table: the persisted state of an Order. */
  datatype OrderRecord = OrderRecord(
    id: nat,
    userId: UserId,
    symbol: Symbol,
    side: Side,
    quantity: int,
    price: Option<Money>,
    executionPrice: Option<Money>,
    status: OrderStatus,
    rejectionReason: Option<Failure>,
    idempotencyKey: string)

  /** One row of the append-only order audit trail. */
  datatype OrderAuditLog = OrderAuditLog(orderId: nat, oldStatus: OrderStatus, newStatus: OrderStatus)

  /** One row of the append-only transaction ledger. */
  datatype LedgerEntry = LedgerEntry(userId: UserId, amount: Money, kind: TransactionType)

  /** A user's position in one symbol; (userId, symbol) is unique in the holdings table. */
  datatype Holding = Holding(userId: UserId, symbol: Symbol, quantity: int, averagePrice: Money)

  /**
   * The order entity while one execution call owns it. Identity and request
   * fields never change; the pipeline sets price, executionPrice and
   * rejectionReason, and only the state machine sets status.
   */
  class Order {
    const id: nat
    const userId: UserId
    const symbol: Symbol
    const side: Side
    const quantity: int
    const idempotencyKey: string
    var price: Option<Money>
    var executionPrice: Option<Money>
    var status: OrderStatus
    var rejectionReason: Option<Failure>

    /** Order.builder()...status(PENDING_VALIDATION).build(), saved under `id`. */
    constructor (id: nat, userId: UserId, symbol: Symbol, side: Side, quantity: int, idempotencyKey: string)
      ensures Record() == OrderRecord(id, userId, symbol, side, quantity, None, None,
                                      PendingValidation, None, idempotencyKey)
    {
      this.id := id;
      this.userId := userId;
      this.symbol := symbol;
      this.side := side;
      this.quantity := quantity;
      this.idempotencyKey := idempotencyKey;
      price := None;
      executionPrice := None;
      status := PendingValidation;
      rejectionReason := None;
    }

    /** The row that saving this order writes. */
    function Record(): OrderRecord
      reads this
    {
      OrderRecord(id, userId, symbol, side, quantity, price, executionPrice,
                  status, rejectionReason, idempotencyKey)
    }
  }
}
