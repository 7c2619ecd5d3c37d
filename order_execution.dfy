/**
 * OrderExecutionService.executeOrder: idempotency lookup, creation as
 * PENDING_VALIDATION, price, risk gate, VALIDATED, BUY debit, FILLED, SELL
 * credit, and conversion of failures into REJECTED.
 *
 * The functions below give the effect of one call on the stores it touches
 * (orders, audit trail, wallets, ledger); the class runs the same steps on
 * the mutable Order entity and is proved to have exactly that effect.
 */
module OrderExecution {
  import opened Domain
  import SM = StateMachine
  import W = Wallet
  import Risk = RiskManagement

  /** The persistent state one execution reads and writes. */
  datatype Store = Store(orders: seq<OrderRecord>, audit: seq<OrderAuditLog>,
                         balances: map<UserId, Money>, ledger: seq<LedgerEntry>)

  /**
   * How a call ends: it returns an order, or the catch block's own
   * transition throws InvalidOrderStateTransition out of the method.
   */
  datatype Execution = Returned(order: OrderRecord) | Escaped(error: TransitionError)

  datatype Step = Step(store: Store, result: Execution)

  /** findByIdempotencyKey: the first row carrying `key`, if any. */
  function FindByKey(orders: seq<OrderRecord>, key: string): (r: Option<OrderRecord>)
    ensures r.None? <==> forall i :: 0 <= i < |orders| ==> orders[i].idempotencyKey != key
    ensures r.Some? ==> exists i :: 0 <= i < |orders| && orders[i] == r.value
    ensures r.Some? ==> r.value.idempotencyKey == key
  {
    if orders == [] then None
    else if orders[0].idempotencyKey == key then Some(orders[0])
    else
      var rest := FindByKey(orders[1..], key);
      assert forall i :: 1 <= i < |orders| ==> orders[i] == orders[1..][i - 1];
      rest
  }

  /** Row `i` of the order table has id `i`, as the identity column assigns it. */
  ghost predicate IdsAreIndices(orders: seq<OrderRecord>)
  {
    forall i :: 0 <= i < |orders| ==> orders[i].id == i
  }

  /** `b` is a later state of order `a`: same identity and request fields. */
  predicate SameOrder(a: OrderRecord, b: OrderRecord)
  {
    && a.id == b.id && a.userId == b.userId && a.symbol == b.symbol && a.side == b.side
    && a.quantity == b.quantity && a.idempotencyKey == b.idempotencyKey
  }

  /**
   * The writes of one execution step to the stores: only row `id` of the
   * order table changes, and only to a later state of the same order; the
   * audit trail and the ledger are only appended to; the ledger gains at most
   * one entry, and the wallets change by exactly that entry.
   */
  ghost predicate Writes(before: Store, after: Store, id: nat)
  {
    && |after.orders| == |before.orders|
    && (forall i :: 0 <= i < |before.orders| && i != id ==> after.orders[i] == before.orders[i])
    && (id < |before.orders| ==> SameOrder(before.orders[id], after.orders[id]))
    && |after.audit| >= |before.audit| && after.audit[..|before.audit|] == before.audit
    && (|| (after.ledger == before.ledger && after.balances == before.balances)
        || (exists e: LedgerEntry ::
              && after.ledger == before.ledger + [e]
              && W.Adjusted(before.balances, before.ledger, e.userId, e.amount, e.kind)
                 == Ok((after.balances, after.ledger))))
  }

  /**
   * The catch blocks (lines 82-93): record the reason, then ask the state
   * machine for REJECTED and save. From FILLED that transition is refused
   * and its exception leaves the method, so nothing is saved.
   */
  function AfterCatch(st: Store, o: OrderRecord, reason: Failure): (s: Step)
    requires o.id < |st.orders| && SameOrder(st.orders[o.id], o)
    ensures Writes(st, s.store, o.id)
    ensures s.store.balances == st.balances && s.store.ledger == st.ledger
    ensures s.result.Returned? <==> SM.CanTransition(o.status, Rejected)
    ensures s.result.Returned? ==>
              && s.result.order == o.(rejectionReason := Some(reason), status := Rejected)
              && s.store.orders[o.id] == s.result.order
              && s.store.audit == st.audit + [OrderAuditLog(o.id, o.status, Rejected)]
    ensures s.result.Escaped? ==>
              s.result.error == InvalidOrderStateTransition(o.status, Rejected) && s.store == st
  {
    var noted := o.(rejectionReason := Some(reason));
    match SM.Transitioned(noted, Rejected, st.audit)
    case Ok(res) => Step(st.(orders := st.orders[o.id := res.0], audit := res.1), Returned(res.0))
    case Err(e) => Step(st, Escaped(e))
  }

  /**
   * Step 7 and 8 (lines 73-80): set the execution price, VALIDATED -> FILLED,
   * then for a SELL credit `total`; a failed credit goes to the catch with
   * the order already FILLED.
   */
  function AfterFill(st: Store, o: OrderRecord, price: Money, total: Money): (s: Step)
    requires o.id < |st.orders| && SameOrder(st.orders[o.id], o) && o.status == Validated
    ensures Writes(st, s.store, o.id)
    ensures s.result.Returned? ==> s.store.orders[o.id] == s.result.order
    ensures s.result.Escaped? ==> s.store.orders[o.id] == st.orders[o.id]
  {
    var (filled, audit) := SM.Transitioned(o.(executionPrice := Some(price)), Filled, st.audit).value;
    var st1 := st.(audit := audit);
    if o.side == Sell then
      match W.Adjusted(st1.balances, st1.ledger, o.userId, total, TradeSell)
      case Ok(w) =>
        Step(st1.(orders := st1.orders[o.id := filled], balances := w.0, ledger := w.1), Returned(filled))
      case Err(e) => AfterCatch(st1, filled, WalletFailure(e))
    else
      Step(st1.(orders := st1.orders[o.id := filled]), Returned(filled))
  }

  /**
   * Steps 3 to 8 for the order `o` already saved as PENDING_VALIDATION;
   * `riskView` is the order table the risk query runs against.
   */
  function AfterProcess(st: Store, prices: map<Symbol, Money>, o: OrderRecord,
                        riskView: seq<OrderRecord>): (s: Step)
    requires o.id < |st.orders| && SameOrder(st.orders[o.id], o) && o.status == PendingValidation
    ensures Writes(st, s.store, o.id)
    ensures s.result.Returned? ==> s.store.orders[o.id] == s.result.order
    ensures s.result.Escaped? ==> s.store.orders[o.id] == st.orders[o.id]
  {
    if o.symbol !in prices then AfterCatch(st, o, NoMarketData(o.symbol))
    else
      var p := prices[o.symbol];
      var priced := o.(price := Some(p));
      match Risk.ValidateOrder(o.userId, o.symbol, o.quantity, p, riskView)
      case Fail(e) => AfterCatch(st, priced, RiskFailure(e))
      case Pass =>
        var (validated, audit) := SM.Transitioned(priced, Validated, st.audit).value;
        var st1 := st.(audit := audit);
        var total := p * o.quantity;
        if o.side == Buy then
          match W.Adjusted(st1.balances, st1.ledger, o.userId, -total, TradeBuy)
          case Ok(w) => AfterFill(st1.(balances := w.0, ledger := w.1), validated, p, total)
          case Err(e) => AfterCatch(st1, validated, WalletFailure(e))
        else
          AfterFill(st1, validated, p, total)
  }

  /** Line 45-53: the row of the new order, PENDING_VALIDATION, under the next id. */
  function NewOrder(orders: seq<OrderRecord>, userId: UserId, symbol: Symbol, side: Side,
                    quantity: int, key: string): OrderRecord
  {
    OrderRecord(|orders|, userId, symbol, side, quantity, None, None, PendingValidation, None, key)
  }

  /** The stores once the new order's row is saved (line 53). */
  function Admitted(st: Store, userId: UserId, symbol: Symbol, side: Side, quantity: int, key: string): Store
  {
    st.(orders := st.orders + [NewOrder(st.orders, userId, symbol, side, quantity, key)])
  }

  /**
   * executeOrder as written: the risk query runs against the order table
   * that already holds the new PENDING_VALIDATION row.
   */
  function Executed(st: Store, prices: map<Symbol, Money>, userId: UserId, symbol: Symbol,
                    side: Side, quantity: int, key: string): (s: Step)
    ensures FindByKey(st.orders, key).Some? ==> s == Step(st, Returned(FindByKey(st.orders, key).value))
    ensures FindByKey(st.orders, key).None? ==>
              Writes(Admitted(st, userId, symbol, side, quantity, key), s.store, |st.orders|)
  {
    match FindByKey(st.orders, key)
    case Some(existing) => Step(st, Returned(existing))
    case None =>
      var st1 := Admitted(st, userId, symbol, side, quantity, key);
      AfterProcess(st1, prices, st1.orders[|st.orders|], st1.orders)
  }

  /**
   * executeOrder as evidently intended: the duplicate-order guard looks only
   * at the orders that existed before this call.
   */
  function ExecutedIntended(st: Store, prices: map<Symbol, Money>, userId: UserId, symbol: Symbol,
                            side: Side, quantity: int, key: string): (s: Step)
    ensures FindByKey(st.orders, key).Some? ==> s == Step(st, Returned(FindByKey(st.orders, key).value))
    ensures FindByKey(st.orders, key).None? ==>
              Writes(Admitted(st, userId, symbol, side, quantity, key), s.store, |st.orders|)
  {
    match FindByKey(st.orders, key)
    case Some(existing) => Step(st, Returned(existing))
    case None =>
      var st1 := Admitted(st, userId, symbol, side, quantity, key);
      AfterProcess(st1, prices, st1.orders[|st.orders|], st.orders)
  }

  /**
   * OrderExecutionService with its collaborators: the order table, the
   * state machine (owner of the audit trail), the wallet service, and the
   * latest quoted price per symbol (a symbol without data is absent).
   */
  class OrderExecutionService {
    var orders: seq<OrderRecord>
    const stateMachine: SM.OrderStateMachine
    const walletService: W.WalletService
    const latestPrice: map<Symbol, Money>

    ghost predicate Valid()
      reads this, walletService
    {
      IdsAreIndices(orders) && walletService.Valid()
    }

    function Snapshot(): Store
      reads this, stateMachine, walletService
    {
      Store(orders, stateMachine.auditLog, walletService.balances, walletService.ledger)
    }

    constructor (walletService: W.WalletService, latestPrice: map<Symbol, Money>)
      requires walletService.Valid()
      ensures Valid() && fresh(stateMachine)
      ensures this.walletService == walletService && this.latestPrice == latestPrice
      ensures Snapshot() == Store([], [], walletService.balances, walletService.ledger)
    {
      orders := [];
      stateMachine := new SM.OrderStateMachine();
      this.walletService := walletService;
      this.latestPrice := latestPrice;
    }

    /**
     * executeOrder(userId, symbol, side, quantity, idempotencyKey), with the
     * effect Executed gives.
     */
    method ExecuteOrder(userId: UserId, symbol: Symbol, side: Side, quantity: int, key: string)
      returns (r: Execution)
      requires Valid()
      modifies this, stateMachine, walletService
      ensures Valid()
      ensures Step(Snapshot(), r) == Executed(old(Snapshot()), latestPrice, userId, symbol, side, quantity, key)
    {
      var existing := FindByKey(orders, key);
      if existing.Some? {
        return Returned(existing.value);
      }
      var order := new Order(|orders|, userId, symbol, side, quantity, key);
      orders := orders + [order.Record()];
      r := ProcessOrder(order);
    }

    /** The try block (lines 55-80) for an order already saved as PENDING_VALIDATION. */
    method ProcessOrder(order: Order) returns (r: Execution)
      requires Valid() && order.id < |orders| && SameOrder(orders[order.id], order.Record())
      requires order.status == PendingValidation
      modifies this, stateMachine, walletService, order
      ensures Valid()
      ensures Step(Snapshot(), r) == AfterProcess(old(Snapshot()), latestPrice, old(order.Record()), old(orders))
    {
      if order.symbol !in latestPrice {
        r := HandleFailure(order, NoMarketData(order.symbol));
        return;
      }
      var marketPrice := latestPrice[order.symbol];
      order.price := Some(marketPrice);
      var risk := Risk.ValidateOrder(order.userId, order.symbol, order.quantity, marketPrice, orders);
      if risk.Fail? {
        r := HandleFailure(order, RiskFailure(risk.error));
        return;
      }
      var _ := stateMachine.Transition(order, Validated);
      var totalAmount := marketPrice * order.quantity;
      if order.side == Buy {
        var debit := walletService.AdjustBalance(order.userId, -totalAmount, TradeBuy);
        if debit.Fail? {
          r := HandleFailure(order, WalletFailure(debit.error));
          return;
        }
      }
      r := FillOrder(order, marketPrice, totalAmount);
    }

    /** Lines 73-80: execution price, VALIDATED -> FILLED, SELL credit. */
    method FillOrder(order: Order, marketPrice: Money, totalAmount: Money) returns (r: Execution)
      requires Valid() && order.id < |orders| && SameOrder(orders[order.id], order.Record())
      requires order.status == Validated
      modifies this, stateMachine, walletService, order
      ensures Valid()
      ensures Step(Snapshot(), r) == AfterFill(old(Snapshot()), old(order.Record()), marketPrice, totalAmount)
    {
      order.executionPrice := Some(marketPrice);
      var _ := stateMachine.Transition(order, Filled);
      if order.side == Sell {
        var credit := walletService.AdjustBalance(order.userId, totalAmount, TradeSell);
        if credit.Fail? {
          r := HandleFailure(order, WalletFailure(credit.error));
          return;
        }
      }
      orders := orders[order.id := order.Record()];
      r := Returned(order.Record());
    }

    /** A catch block (lines 82-93): record the reason, transition to REJECTED, save. */
    method HandleFailure(order: Order, reason: Failure) returns (r: Execution)
      requires Valid() && order.id < |orders| && SameOrder(orders[order.id], order.Record())
      modifies this, stateMachine, order
      ensures Valid()
      ensures Step(Snapshot(), r) == AfterCatch(old(Snapshot()), old(order.Record()), reason)
    {
      order.rejectionReason := Some(reason);
      var t := stateMachine.Transition(order, Rejected);
      if t.Fail? {
        return Escaped(t.error);
      }
      orders := orders[order.id := order.Record()];
      r := Returned(order.Record());
    }
  }
}
