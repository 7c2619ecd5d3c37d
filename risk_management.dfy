/**
 * RiskManagementService.validateOrder: the pre-trade gate of the execution
 * pipeline. It only reads: the order table it queries is a parameter.
 */
module RiskManagement {
  import opened Domain

  /** MAX_ORDER_VALUE, 5000 currency units, in cents. */
  const MaxOrderValue: Money := 500000

  /**
   * existsByUserIdAndSymbolAndStatus(userId, symbol, PENDING_VALIDATION)
   * over the order table `orders`, scanned from the newest row: true
   * exactly when some row of the user for the symbol is PENDING_VALIDATION.
   */
  function HasPendingOrder(orders: seq<OrderRecord>, userId: UserId, symbol: Symbol): (r: bool)
    ensures r <==> exists i :: 0 <= i < |orders| && orders[i].userId == userId && orders[i].symbol == symbol
                                                 && orders[i].status == PendingValidation
    decreases |orders|
  {
    if orders == [] then false
    else
      var older := orders[..|orders| - 1];
      var newest := orders[|orders| - 1];
      assert forall i :: 0 <= i < |older| ==> older[i] == orders[i];
      (newest.userId == userId && newest.symbol == symbol && newest.status == PendingValidation)
      || HasPendingOrder(older, userId, symbol)
  }

  /**
   * Rule 1, the notional ceiling, then rule 2, the duplicate-pending-order
   * guard; the first rule that fails gives the RiskException.
   */
  function ValidateOrder(userId: UserId, symbol: Symbol, quantity: int, price: Money,
                         orders: seq<OrderRecord>): (r: Outcome<RiskRejection>)
    ensures r.Pass? <==> price * quantity <= MaxOrderValue && !HasPendingOrder(orders, userId, symbol)
    ensures r == Fail(OrderValueExceedsLimit(price * quantity)) <==> price * quantity > MaxOrderValue
    ensures r == Fail(ActiveOrderExists(symbol)) <==>
              price * quantity <= MaxOrderValue && HasPendingOrder(orders, userId, symbol)
  {
    var orderValue := price * quantity;
    if orderValue > MaxOrderValue then Fail(OrderValueExceedsLimit(orderValue))
    else if HasPendingOrder(orders, userId, symbol) then Fail(ActiveOrderExists(symbol))
    else Pass
  }

  /**
   * Only orders of the same user and symbol that are still
   * PENDING_VALIDATION can block: adding any other row to the table does
   * not change the verdict.
   */
  lemma {:induction false} OtherOrdersDoNotBlock(userId: UserId, symbol: Symbol, quantity: int, price: Money,
                                                 orders: seq<OrderRecord>, other: OrderRecord)
    requires other.userId != userId || other.symbol != symbol || other.status != PendingValidation
    ensures ValidateOrder(userId, symbol, quantity, price, orders + [other])
            == ValidateOrder(userId, symbol, quantity, price, orders)
  {
    var extended := orders + [other];
    if HasPendingOrder(extended, userId, symbol) {
      var i :| 0 <= i < |extended| && extended[i].userId == userId && extended[i].symbol == symbol
                                   && extended[i].status == PendingValidation;
      assert i < |orders| && orders[i] == extended[i];
    }
    if HasPendingOrder(orders, userId, symbol) {
      var i :| 0 <= i < |orders| && orders[i].userId == userId && orders[i].symbol == symbol
                                 && orders[i].status == PendingValidation;
      assert extended[i] == orders[i];
    }
  }
}
