/**
 * What executeOrder promises, stated over the store-level model: the full
 * decision table of one call, idempotent replay, the wallet invariants, that
 * money moves exactly when an order fills, and two example runs.
 *
 * The lemmas about one call or a session take `intended`: false for
 * executeOrder as written (the duplicate-order guard sees the order just
 * saved), true for the corrected guard that sees only the orders that
 * existed before the call. NewOrderIsAlwaysRejected and ScenarioAAsWritten
 * are about the code as written only; IntendedBuyFills, ScenariosIntended
 * and the no-double-spend group from IntendedBuyStep to NoDoubleSpend are
 * about the corrected guard only.
 */
module ExecutionProperties {
  import opened Domain
  import opened Arithmetic
  import W = Wallet
  import Risk = RiskManagement
  import opened OrderExecution

  /** One executeOrder call, as written or with the corrected duplicate guard. */
  function Run(intended: bool, st: Store, prices: map<Symbol, Money>, userId: UserId, symbol: Symbol,
               side: Side, quantity: int, key: string): Step
  {
    if intended then ExecutedIntended(st, prices, userId, symbol, side, quantity, key)
    else Executed(st, prices, userId, symbol, side, quantity, key)
  }

  /** The order table the duplicate guard queries for a new order. */
  function RiskView(intended: bool, st: Store, userId: UserId, symbol: Symbol, side: Side,
                    quantity: int, key: string): seq<OrderRecord>
  {
    if intended then st.orders else Admitted(st, userId, symbol, side, quantity, key).orders
  }

  /** The signed ledger amount of a fill: a BUY debits the notional, a SELL credits it. */
  function SignedNotional(side: Side, price: Money, quantity: int): Money
  {
    if side == Buy then -(price * quantity) else price * quantity
  }

  function KindOf(side: Side): TransactionType
  {
    if side == Buy then TradeBuy else TradeSell
  }

  /** The paths of ExecutionPaths after the risk check passes. */
  lemma PassedPath(intended: bool, st: Store, prices: map<Symbol, Money>,
                   userId: UserId, symbol: Symbol, side: Side, quantity: int, key: string)
    requires FindByKey(st.orders, key).None? && symbol in prices
    requires Risk.ValidateOrder(userId, symbol, quantity, prices[symbol],
                                RiskView(intended, st, userId, symbol, side, quantity, key)).Pass?
    ensures var s := Run(intended, st, prices, userId, symbol, side, quantity, key);
            var o := NewOrder(st.orders, userId, symbol, side, quantity, key);
            var n := |st.orders|;
            var p := prices[symbol];
            match W.Adjusted(st.balances, st.ledger, userId, SignedNotional(side, p, quantity), KindOf(side))
            case Ok(w) =>
              var filled := o.(price := Some(p), executionPrice := Some(p), status := Filled);
              s == Step(Store(st.orders + [filled],
                              st.audit + [OrderAuditLog(n, PendingValidation, Validated),
                                          OrderAuditLog(n, Validated, Filled)],
                              w.0, w.1),
                        Returned(filled))
            case Err(e) =>
              if side == Buy then
                var rejected := o.(price := Some(p), status := Rejected, rejectionReason := Some(WalletFailure(e)));
                s == Step(Store(st.orders + [rejected],
                                st.audit + [OrderAuditLog(n, PendingValidation, Validated),
                                            OrderAuditLog(n, Validated, Rejected)],
                                st.balances, st.ledger),
                          Returned(rejected))
              else
                s == Step(Store(st.orders + [o],
                                st.audit + [OrderAuditLog(n, PendingValidation, Validated),
                                            OrderAuditLog(n, Validated, Filled)],
                                st.balances, st.ledger),
                          Escaped(InvalidOrderStateTransition(Filled, Rejected)))
  {
    var n := |st.orders|;
    var st1 := Admitted(st, userId, symbol, side, quantity, key);
    var o := NewOrder(st.orders, userId, symbol, side, quantity, key);
    var view := RiskView(intended, st, userId, symbol, side, quantity, key);
    assert st1.orders[n] == o;
    assert Run(intended, st, prices, userId, symbol, side, quantity, key) == AfterProcess(st1, prices, o, view);
    var p := prices[symbol];
    assert Risk.ValidateOrder(userId, symbol, quantity, p, view) == Pass;
    var priced := o.(price := Some(p));
    var validated := priced.(status := Validated);
    var audit1 := st.audit + [OrderAuditLog(n, PendingValidation, Validated)];
    var filled := validated.(executionPrice := Some(p), status := Filled);
    var audit2 := audit1 + [OrderAuditLog(n, Validated, Filled)];
    assert audit2 == st.audit + [OrderAuditLog(n, PendingValidation, Validated), OrderAuditLog(n, Validated, Filled)];
    assert st1.orders[n := filled] == st.orders + [filled];
    if side == Buy {
      var rejected := validated.(rejectionReason := Some(WalletFailure(InsufficientFunds(userId))), status := Rejected);
      assert st1.orders[n := rejected] == st.orders + [rejected];
      var audit3 := audit1 + [OrderAuditLog(n, Validated, Rejected)];
      assert audit3 == st.audit + [OrderAuditLog(n, PendingValidation, Validated), OrderAuditLog(n, Validated, Rejected)];
      var rejected' := validated.(rejectionReason := Some(WalletFailure(WalletNotFound(userId))), status := Rejected);
      assert st1.orders[n := rejected'] == st.orders + [rejected'];
    }
  }

  /**
   * The decision table of executeOrder for a key not seen before: no market
   * data or a risk rejection gives REJECTED with nothing debited; otherwise
   * the order is VALIDATED and the wallet adjustment decides. A successful
   * debit or credit gives FILLED with one ledger entry; a failed BUY debit
   * gives REJECTED from VALIDATED; a failed SELL credit happens after FILLED,
   * so the catch's FILLED -> REJECTED is refused and escapes, leaving the
   * saved row PENDING_VALIDATION.
   */
  lemma {:induction false} ExecutionPaths(intended: bool, st: Store, prices: map<Symbol, Money>,
                                          userId: UserId, symbol: Symbol, side: Side, quantity: int,
                                          key: string)
    requires FindByKey(st.orders, key).None?
    ensures var s := Run(intended, st, prices, userId, symbol, side, quantity, key);
            var o := NewOrder(st.orders, userId, symbol, side, quantity, key);
            var n := |st.orders|;
            symbol !in prices ==>
              var rejected := o.(status := Rejected, rejectionReason := Some(NoMarketData(symbol)));
              s == Step(Store(st.orders + [rejected], st.audit + [OrderAuditLog(n, PendingValidation, Rejected)],
                              st.balances, st.ledger),
                        Returned(rejected))
    ensures var s := Run(intended, st, prices, userId, symbol, side, quantity, key);
            var o := NewOrder(st.orders, userId, symbol, side, quantity, key);
            var n := |st.orders|;
            var view := RiskView(intended, st, userId, symbol, side, quantity, key);
            symbol in prices && Risk.ValidateOrder(userId, symbol, quantity, prices[symbol], view).Fail? ==>
              var reason := RiskFailure(Risk.ValidateOrder(userId, symbol, quantity, prices[symbol], view).error);
              var rejected := o.(price := Some(prices[symbol]), status := Rejected, rejectionReason := Some(reason));
              s == Step(Store(st.orders + [rejected], st.audit + [OrderAuditLog(n, PendingValidation, Rejected)],
                              st.balances, st.ledger),
                        Returned(rejected))
    ensures var s := Run(intended, st, prices, userId, symbol, side, quantity, key);
            var o := NewOrder(st.orders, userId, symbol, side, quantity, key);
            var n := |st.orders|;
            var view := RiskView(intended, st, userId, symbol, side, quantity, key);
            symbol in prices && Risk.ValidateOrder(userId, symbol, quantity, prices[symbol], view).Pass? ==>
              var p := prices[symbol];
              match W.Adjusted(st.balances, st.ledger, userId, SignedNotional(side, p, quantity), KindOf(side))
              case Ok(w) =>
                var filled := o.(price := Some(p), executionPrice := Some(p), status := Filled);
                s == Step(Store(st.orders + [filled],
                                st.audit + [OrderAuditLog(n, PendingValidation, Validated),
                                            OrderAuditLog(n, Validated, Filled)],
                                w.0, w.1),
                          Returned(filled))
              case Err(e) =>
                if side == Buy then
                  var rejected := o.(price := Some(p), status := Rejected, rejectionReason := Some(WalletFailure(e)));
                  s == Step(Store(st.orders + [rejected],
                                  st.audit + [OrderAuditLog(n, PendingValidation, Validated),
                                              OrderAuditLog(n, Validated, Rejected)],
                                  st.balances, st.ledger),
                            Returned(rejected))
                else
                  s == Step(Store(st.orders + [o],
                                  st.audit + [OrderAuditLog(n, PendingValidation, Validated),
                                              OrderAuditLog(n, Validated, Filled)],
                                  st.balances, st.ledger),
                            Escaped(InvalidOrderStateTransition(Filled, Rejected)))
  {
    var n := |st.orders|;
    var st1 := Admitted(st, userId, symbol, side, quantity, key);
    var o := NewOrder(st.orders, userId, symbol, side, quantity, key);
    var view := RiskView(intended, st, userId, symbol, side, quantity, key);
    assert st1.orders[n] == o;
    assert Run(intended, st, prices, userId, symbol, side, quantity, key) == AfterProcess(st1, prices, o, view);
    if symbol in prices {
      var p := prices[symbol];
      var priced := o.(price := Some(p));
      if Risk.ValidateOrder(userId, symbol, quantity, p, view).Pass? {
        PassedPath(intended, st, prices, userId, symbol, side, quantity, key);
      } else {
        var rejected := priced.(rejectionReason := Some(RiskFailure(Risk.ValidateOrder(userId, symbol, quantity, p, view).error)),
                                status := Rejected);
        assert st1.orders[n := rejected] == st.orders + [rejected];
      }
    } else {
      var rejected := o.(rejectionReason := Some(NoMarketData(symbol)), status := Rejected);
      assert st1.orders[n := rejected] == st.orders + [rejected];
    }
  }

  /**
   * A call with a key already stored returns the stored order and writes
   * nothing; so a retry of a new request with the same key, whatever its
   * other arguments, returns the order the first call saved and changes no
   * store, and equals the first call's answer whenever that one returned.
   */
  lemma {:induction false} RetryWithSameKey(intended: bool, st: Store, prices: map<Symbol, Money>,
                                            userId: UserId, symbol: Symbol, side: Side, quantity: int, key: string,
                                            userId2: UserId, symbol2: Symbol, side2: Side, quantity2: int)
    requires FindByKey(st.orders, key).None?
    ensures var first := Run(intended, st, prices, userId, symbol, side, quantity, key);
            var second := Run(intended, first.store, prices, userId2, symbol2, side2, quantity2, key);
            && |first.store.orders| == |st.orders| + 1
            && second.store == first.store
            && second.result == Returned(first.store.orders[|st.orders|])
            && (first.result.Returned? ==> second.result == first.result)
  {
    var n := |st.orders|;
    var first := Run(intended, st, prices, userId, symbol, side, quantity, key);
    var orders := first.store.orders;
    var st1 := Admitted(st, userId, symbol, side, quantity, key);
    assert st1.orders[n] == NewOrder(st.orders, userId, symbol, side, quantity, key);
    assert Writes(st1, first.store, n);
    assert orders[n].idempotencyKey == key;
    var found := FindByKey(orders, key);
    assert found.Some?;
    var i :| 0 <= i < |orders| && orders[i] == found.value;
    assert found.value == orders[n];
    if first.result.Returned? {
      assert first == AfterProcess(st1, prices, st1.orders[n], RiskView(intended, st, userId, symbol, side, quantity, key));
    }
  }

  /**
   * A missing price or a risk rejection ends the call REJECTED with the
   * reason recorded and before any money moves: wallets and ledger are
   * unchanged and the order's one audit row is PENDING_VALIDATION -> REJECTED.
   */
  lemma RejectedBeforeFundsMove(intended: bool, st: Store, prices: map<Symbol, Money>,
                                userId: UserId, symbol: Symbol, side: Side, quantity: int, key: string)
    requires FindByKey(st.orders, key).None?
    requires symbol !in prices
             || Risk.ValidateOrder(userId, symbol, quantity, prices[symbol],
                                   RiskView(intended, st, userId, symbol, side, quantity, key)).Fail?
    ensures var s := Run(intended, st, prices, userId, symbol, side, quantity, key);
            && s.result.Returned? && s.result.order.status == Rejected
            && s.result.order.rejectionReason.Some?
            && !s.result.order.rejectionReason.value.WalletFailure?
            && s.store.balances == st.balances && s.store.ledger == st.ledger
            && s.store.audit == st.audit + [OrderAuditLog(|st.orders|, PendingValidation, Rejected)]
  {
    ExecutionPaths(intended, st, prices, userId, symbol, side, quantity, key);
  }

  /**
   * As written, every new order whose symbol has a price is REJECTED by the
   * duplicate-order guard (or, above the ceiling, by the fat-finger rule):
   * the guard finds the order's own PENDING_VALIDATION row. No new order is
   * ever FILLED and no money ever moves.
   */
  lemma NewOrderIsAlwaysRejected(st: Store, prices: map<Symbol, Money>, userId: UserId, symbol: Symbol,
                                 side: Side, quantity: int, key: string)
    requires FindByKey(st.orders, key).None?
    ensures var s := Executed(st, prices, userId, symbol, side, quantity, key);
            && s.result.Returned? && s.result.order.status == Rejected
            && s.store.balances == st.balances && s.store.ledger == st.ledger
            && (symbol in prices ==>
                  s.result.order.rejectionReason == Some(RiskFailure(
                    if prices[symbol] * quantity > Risk.MaxOrderValue
                    then OrderValueExceedsLimit(prices[symbol] * quantity)
                    else ActiveOrderExists(symbol))))
  {
    var view := RiskView(false, st, userId, symbol, side, quantity, key);
    var n := |st.orders|;
    assert view[n].userId == userId && view[n].symbol == symbol && view[n].status == PendingValidation;
    assert Risk.HasPendingOrder(view, userId, symbol);
    ExecutionPaths(false, st, prices, userId, symbol, side, quantity, key);
  }

  /**
   * A BUY that passes the risk gate but whose wallet is missing or cannot
   * cover the notional goes VALIDATED -> REJECTED with the wallet's error,
   * and the balance and ledger stay as they were.
   */
  lemma BuyWithoutFundsIsRejected(intended: bool, st: Store, prices: map<Symbol, Money>,
                                  userId: UserId, symbol: Symbol, quantity: int, key: string)
    requires FindByKey(st.orders, key).None? && symbol in prices
    requires Risk.ValidateOrder(userId, symbol, quantity, prices[symbol],
                                RiskView(intended, st, userId, symbol, Buy, quantity, key)).Pass?
    requires userId !in st.balances
             || (prices[symbol] * quantity > 0 && st.balances[userId] < prices[symbol] * quantity)
    ensures var s := Run(intended, st, prices, userId, symbol, Buy, quantity, key);
            && s.result.Returned? && s.result.order.status == Rejected
            && s.result.order.rejectionReason
               == Some(WalletFailure(if userId in st.balances then InsufficientFunds(userId) else WalletNotFound(userId)))
            && s.store.balances == st.balances && s.store.ledger == st.ledger
            && s.store.audit == st.audit + [OrderAuditLog(|st.orders|, PendingValidation, Validated),
                                            OrderAuditLog(|st.orders|, Validated, Rejected)]
  {
    ExecutionPaths(intended, st, prices, userId, symbol, Buy, quantity, key);
  }

  /**
   * A SELL whose credit fails (no wallet) fails after the order is FILLED:
   * the catch's FILLED -> REJECTED is refused and the call ends in
   * InvalidOrderStateTransition(FILLED, REJECTED). Both audit rows are kept,
   * no money moves, and the saved row is still the PENDING_VALIDATION one.
   */
  lemma SellCreditFailureEscapes(intended: bool, st: Store, prices: map<Symbol, Money>,
                                 userId: UserId, symbol: Symbol, quantity: int, key: string)
    requires FindByKey(st.orders, key).None? && symbol in prices
    requires Risk.ValidateOrder(userId, symbol, quantity, prices[symbol],
                                RiskView(intended, st, userId, symbol, Sell, quantity, key)).Pass?
    requires userId !in st.balances
    ensures var s := Run(intended, st, prices, userId, symbol, Sell, quantity, key);
            && s.result == Escaped(InvalidOrderStateTransition(Filled, Rejected))
            && s.store.orders == st.orders + [NewOrder(st.orders, userId, symbol, Sell, quantity, key)]
            && s.store.balances == st.balances && s.store.ledger == st.ledger
            && s.store.audit == st.audit + [OrderAuditLog(|st.orders|, PendingValidation, Validated),
                                            OrderAuditLog(|st.orders|, Validated, Filled)]
  {
    ExecutionPaths(intended, st, prices, userId, symbol, Sell, quantity, key);
  }

  /**
   * A new order that comes back is FILLED or REJECTED, never PENDING or
   * VALIDATED; the only call that does not come back is a SELL whose
   * credit failed, ending in InvalidOrderStateTransition(FILLED, REJECTED).
   */
  lemma OutcomeIsFinal(intended: bool, st: Store, prices: map<Symbol, Money>,
                       userId: UserId, symbol: Symbol, side: Side, quantity: int, key: string)
    requires FindByKey(st.orders, key).None?
    ensures var s := Run(intended, st, prices, userId, symbol, side, quantity, key);
            && (s.result.Returned? ==> s.result.order.status == Filled || s.result.order.status == Rejected)
            && (s.result.Escaped? ==>
                  side == Sell && s.result.error == InvalidOrderStateTransition(Filled, Rejected))
  {
    ExecutionPaths(intended, st, prices, userId, symbol, side, quantity, key);
  }

  /**
   * Money moves exactly when the call returns a FILLED order: then the
   * order carries the fetched price as its execution price, its audit rows
   * are PENDING_VALIDATION -> VALIDATED -> FILLED, and the ledger gains the
   * one entry of the signed notional that the balance moves by. No other
   * outcome touches the wallets, so a debit is never followed by a refund.
   */
  lemma FundsMoveExactlyWhenFilled(intended: bool, st: Store, prices: map<Symbol, Money>,
                                   userId: UserId, symbol: Symbol, side: Side, quantity: int, key: string)
    requires FindByKey(st.orders, key).None?
    ensures var s := Run(intended, st, prices, userId, symbol, side, quantity, key);
            (s.store.ledger != st.ledger) <==> (s.result.Returned? && s.result.order.status == Filled)
    ensures var s := Run(intended, st, prices, userId, symbol, side, quantity, key);
            s.store.ledger == st.ledger ==> s.store.balances == st.balances
    ensures var s := Run(intended, st, prices, userId, symbol, side, quantity, key);
            var n := |st.orders|;
            s.result.Returned? && s.result.order.status == Filled ==>
              && symbol in prices
              && s.result.order.executionPrice == s.result.order.price == Some(prices[symbol])
              && s.store.orders == st.orders + [s.result.order]
              && s.store.audit == st.audit + [OrderAuditLog(n, PendingValidation, Validated),
                                              OrderAuditLog(n, Validated, Filled)]
              && userId in st.balances
              && var amount := SignedNotional(side, prices[symbol], quantity);
                 && s.store.ledger == st.ledger + [LedgerEntry(userId, amount, KindOf(side))]
                 && s.store.balances == st.balances[userId := st.balances[userId] + amount]
  {
    ExecutionPaths(intended, st, prices, userId, symbol, side, quantity, key);
    var s := Run(intended, st, prices, userId, symbol, side, quantity, key);
    if symbol in prices {
      var amount := SignedNotional(side, prices[symbol], quantity);
      var r := W.Adjusted(st.balances, st.ledger, userId, amount, KindOf(side));
      if r.Ok? {
        assert r.value.0 == st.balances[userId := st.balances[userId] + amount];
      }
    }
  }

  /**
   * With the corrected guard, a BUY within the notional ceiling, with no
   * other pending order for the symbol and a wallet that covers it, is
   * FILLED and debits exactly the notional.
   */
  lemma IntendedBuyFills(st: Store, prices: map<Symbol, Money>, userId: UserId, symbol: Symbol,
                         quantity: int, key: string)
    requires FindByKey(st.orders, key).None? && symbol in prices
    requires prices[symbol] * quantity <= Risk.MaxOrderValue
    requires !Risk.HasPendingOrder(st.orders, userId, symbol)
    requires userId in st.balances && st.balances[userId] >= prices[symbol] * quantity
    ensures var s := ExecutedIntended(st, prices, userId, symbol, Buy, quantity, key);
            && s.result.Returned? && s.result.order.status == Filled
            && s.store.balances[userId] == st.balances[userId] - prices[symbol] * quantity
            && s.store.orders == st.orders + [s.result.order]
  {
    ExecutionPaths(true, st, prices, userId, symbol, Buy, quantity, key);
  }

  /** One executeOrder request. */
  datatype Request = Request(userId: UserId, symbol: Symbol, side: Side, quantity: int, key: string)

  /** The stores after the requests are executed one after another. */
  function Session(intended: bool, st: Store, prices: map<Symbol, Money>, requests: seq<Request>): Store
    decreases |requests|
  {
    if requests == [] then st
    else
      var q := requests[0];
      Session(intended, Run(intended, st, prices, q.userId, q.symbol, q.side, q.quantity, q.key).store,
              prices, requests[1..])
  }

  /**
   * One call keeps every balance equal to its opening balance plus the sum
   * of its ledger entries, and keeps non-negative balances non-negative.
   */
  lemma ExecutionKeepsWalletInvariants(intended: bool, st: Store, prices: map<Symbol, Money>,
                                       request: Request, opening: map<UserId, Money>)
    requires W.LedgerBacked(opening, st.balances, st.ledger)
    requires forall u :: u in st.balances ==> st.balances[u] >= 0
    ensures var s := Run(intended, st, prices, request.userId, request.symbol, request.side,
                         request.quantity, request.key);
            && W.LedgerBacked(opening, s.store.balances, s.store.ledger)
            && (forall u :: u in s.store.balances ==> s.store.balances[u] >= 0)
            && |s.store.ledger| >= |st.ledger| && s.store.ledger[..|st.ledger|] == st.ledger
  {
    var s := Run(intended, st, prices, request.userId, request.symbol, request.side, request.quantity, request.key);
    if FindByKey(st.orders, request.key).None? {
      var st1 := Admitted(st, request.userId, request.symbol, request.side, request.quantity, request.key);
      assert Writes(st1, s.store, |st.orders|);
      if s.store.ledger != st.ledger {
        var e :| && s.store.ledger == st.ledger + [e]
                 && W.Adjusted(st.balances, st.ledger, e.userId, e.amount, e.kind) == Ok((s.store.balances, s.store.ledger));
        W.AdjustedKeepsLedgerBacked(opening, st.balances, st.ledger, e.userId, e.amount, e.kind);
        forall u | u in s.store.balances
          ensures s.store.balances[u] >= 0
        {
          W.AdjustedKeepsNonNegative(st.balances, st.ledger, e.userId, e.amount, e.kind, u);
        }
      }
    }
  }

  /**
   * Balance conservation over any sequence of executions: every balance is
   * its opening balance plus the sum of its ledger entries, no balance that
   * started non-negative goes negative, and the ledger is only appended to.
   */
  lemma {:induction false} SessionKeepsWalletInvariants(intended: bool, st: Store, prices: map<Symbol, Money>,
                                                        requests: seq<Request>, opening: map<UserId, Money>)
    requires W.LedgerBacked(opening, st.balances, st.ledger)
    requires forall u :: u in st.balances ==> st.balances[u] >= 0
    ensures var final := Session(intended, st, prices, requests);
            && W.LedgerBacked(opening, final.balances, final.ledger)
            && (forall u :: u in final.balances ==> final.balances[u] >= 0)
            && |final.ledger| >= |st.ledger| && final.ledger[..|st.ledger|] == st.ledger
    decreases |requests|
  {
    if requests != [] {
      var q := requests[0];
      var next := Run(intended, st, prices, q.userId, q.symbol, q.side, q.quantity, q.key).store;
      ExecutionKeepsWalletInvariants(intended, st, prices, q, opening);
      SessionKeepsWalletInvariants(intended, next, prices, requests[1..], opening);
      var final := Session(intended, next, prices, requests[1..]);
      assert final.ledger[..|next.ledger|][..|st.ledger|] == st.ledger;
    }
  }

  /**
   * The store of the example runs: user 1 holds 1000.00, nothing else
   * exists. Scenario A is a BUY of 10 BTC at 50.00 against it; scenario B is
   * a BUY of 15 BTC at 50.00 right after A.
   */
  function ScenarioStore(): Store
  {
    Store([], [], map[1 := 100000], [])
  }

  /**
   * Scenario A with the corrected guard: BUY 10 @ 50.00 from a balance of
   * 1000.00 is FILLED, leaves 500.00 and writes one TRADE_BUY entry of
   * -500.00. Scenario B: an immediate BUY of 15 @ 50.00 is REJECTED for
   * insufficient funds and the balance stays 500.00.
   */
  lemma ScenariosIntended()
    ensures var prices := map["BTC" := 5000];
            var a := ExecutedIntended(ScenarioStore(), prices, 1, "BTC", Buy, 10, "a");
            var b := ExecutedIntended(a.store, prices, 1, "BTC", Buy, 15, "b");
            && a.result.Returned? && a.result.order.status == Filled
            && a.store.balances[1] == 50000
            && a.store.ledger == [LedgerEntry(1, -50000, TradeBuy)]
            && b.result.Returned? && b.result.order.status == Rejected
            && b.result.order.rejectionReason == Some(WalletFailure(InsufficientFunds(1)))
            && b.store.balances[1] == 50000 && b.store.ledger == a.store.ledger
  {
    var prices := map["BTC" := 5000];
    var st := ScenarioStore();
    ExecutionPaths(true, st, prices, 1, "BTC", Buy, 10, "a");
    var a := ExecutedIntended(st, prices, 1, "BTC", Buy, 10, "a");
    assert a.store.orders[0].idempotencyKey == "a" && a.store.orders[0].status == Filled;
    assert FindByKey(a.store.orders, "b").None?;
    assert !Risk.HasPendingOrder(a.store.orders, 1, "BTC");
    ExecutionPaths(true, a.store, prices, 1, "BTC", Buy, 15, "b");
  }

  /** Scenario A as written: the same BUY is REJECTED by the duplicate guard and debits nothing. */
  lemma ScenarioAAsWritten()
    ensures var s := Executed(ScenarioStore(), map["BTC" := 5000], 1, "BTC", Buy, 10, "a");
            && s.result.Returned? && s.result.order.status == Rejected
            && s.result.order.rejectionReason == Some(RiskFailure(ActiveOrderExists("BTC")))
            && s.store.balances[1] == 100000 && s.store.ledger == []
  {
    NewOrderIsAlwaysRejected(ScenarioStore(), map["BTC" := 5000], 1, "BTC", Buy, 10, "a");
  }

  function Min(a: int, b: int): int
  {
    if a <= b then a else b
  }

  /** An execution that returned a FILLED order. */
  predicate FilledOrder(r: Execution)
  {
    r.Returned? && r.order.status == Filled
  }

  /** An execution that returned an order REJECTED because the wallet could not cover it. */
  predicate UnfundedOrder(r: Execution, userId: UserId)
  {
    r.Returned? && r.order.status == Rejected
    && r.order.rejectionReason == Some(WalletFailure(InsufficientFunds(userId)))
  }

  /**
   * BUY requests of `quantity` for one user and symbol under the keys
   * `keys`, executed in turn with the corrected guard: the final store, how
   * many of them were FILLED and how many were REJECTED for insufficient
   * funds.
   */
  function BuyRun(st: Store, prices: map<Symbol, Money>, userId: UserId, symbol: Symbol, quantity: int,
                  keys: seq<string>): (Store, nat, nat)
    decreases |keys|
  {
    if keys == [] then (st, 0, 0)
    else
      var s := ExecutedIntended(st, prices, userId, symbol, Buy, quantity, keys[0]);
      var rest := BuyRun(s.store, prices, userId, symbol, quantity, keys[1..]);
      (rest.0, rest.1 + (if FilledOrder(s.result) then 1 else 0),
       rest.2 + (if UnfundedOrder(s.result, userId) then 1 else 0))
  }

  /**
   * One BUY of notional v > 0 within the ceiling, with the corrected guard
   * and no pending order for the symbol: FILLED with v debited when the
   * balance covers v, REJECTED for insufficient funds with nothing debited
   * otherwise; either way
   * the order is appended under its key and is no longer pending.
   */
  lemma IntendedBuyStep(st: Store, prices: map<Symbol, Money>, userId: UserId, symbol: Symbol,
                        quantity: int, key: string)
    requires FindByKey(st.orders, key).None?
    requires symbol in prices && 0 < prices[symbol] * quantity <= Risk.MaxOrderValue
    requires userId in st.balances && !Risk.HasPendingOrder(st.orders, userId, symbol)
    ensures var s := ExecutedIntended(st, prices, userId, symbol, Buy, quantity, key);
            var v := prices[symbol] * quantity;
            && s.result.Returned?
            && s.store.orders == st.orders + [s.result.order]
            && s.result.order.idempotencyKey == key
            && s.result.order.userId == userId && s.result.order.symbol == symbol
            && (s.result.order.status == Filled <==> st.balances[userId] >= v)
            && (s.result.order.status != Filled ==> UnfundedOrder(s.result, userId))
            && !Risk.HasPendingOrder(s.store.orders, userId, symbol)
            && (forall k :: k != key && FindByKey(st.orders, k).None? ==> FindByKey(s.store.orders, k).None?)
            && userId in s.store.balances
            && s.store.balances[userId] == if st.balances[userId] >= v then st.balances[userId] - v else st.balances[userId]
  {
    ExecutionPaths(true, st, prices, userId, symbol, Buy, quantity, key);
    var s := ExecutedIntended(st, prices, userId, symbol, Buy, quantity, key);
    assert s.store.orders == st.orders + [s.result.order];
    assert !Risk.HasPendingOrder(s.store.orders, userId, symbol) by {
      forall i | 0 <= i < |s.store.orders|
        ensures !(s.store.orders[i].userId == userId && s.store.orders[i].symbol == symbol
                  && s.store.orders[i].status == PendingValidation)
      {
        if i < |st.orders| {
          assert s.store.orders[i] == st.orders[i];
        }
      }
    }
  }

  lemma BuyRunStep(st: Store, prices: map<Symbol, Money>, userId: UserId, symbol: Symbol, quantity: int,
                   keys: seq<string>)
    requires keys != []
    ensures var s := ExecutedIntended(st, prices, userId, symbol, Buy, quantity, keys[0]);
            var rest := BuyRun(s.store, prices, userId, symbol, quantity, keys[1..]);
            BuyRun(st, prices, userId, symbol, quantity, keys)
            == (rest.0, rest.1 + (if FilledOrder(s.result) then 1 else 0),
                rest.2 + (if UnfundedOrder(s.result, userId) then 1 else 0))
  {
  }

  /** The count arithmetic of one step of NoDoubleSpend. */
  lemma CountStep(b: int, v: int, n: int, c: int)
    requires v > 0 && b >= 0 && n >= 1
    requires c == Min(n - 1, (if b >= v then b - v else b) / v)
    ensures c + (if b >= v then 1 else 0) == Min(n, b / v)
  {
    if b >= v {
      DivUnique(b - v, v, b / v - 1, b % v);
    } else {
      DivUnique(b, v, 0, b);
    }
  }

  /** The keys are pairwise distinct and none is in the order table yet. */
  ghost predicate FreshKeys(orders: seq<OrderRecord>, keys: seq<string>)
  {
    && (forall i, j :: 0 <= i < j < |keys| ==> keys[i] != keys[j])
    && (forall i :: 0 <= i < |keys| ==> FindByKey(orders, keys[i]).None?)
  }

  lemma FreshKeysStep(before: seq<OrderRecord>, after: seq<OrderRecord>, keys: seq<string>)
    requires keys != [] && FreshKeys(before, keys)
    requires forall k :: k != keys[0] && FindByKey(before, k).None? ==> FindByKey(after, k).None?
    ensures FreshKeys(after, keys[1..])
  {
    forall i | 0 <= i < |keys| - 1
      ensures FindByKey(after, keys[1..][i]).None?
    {
      assert keys[1..][i] == keys[i + 1] && keys[0] != keys[i + 1];
    }
  }

  lemma DebitStep(b: int, next: int, v: int, c: int, filled: bool, final: int, total: int)
    requires next == if filled then b - v else b
    requires final == next - c * v && total == c + if filled then 1 else 0
    ensures final == b - total * v
  {
    assert (c + 1) * v == c * v + v;
  }

  /** Each FILLED BUY of the run debits the notional once; nothing else moves the balance. */
  lemma {:induction false} BuyRunDebits(st: Store, prices: map<Symbol, Money>, userId: UserId, symbol: Symbol,
                                        quantity: int, keys: seq<string>)
    requires symbol in prices && 0 < prices[symbol] * quantity <= Risk.MaxOrderValue
    requires userId in st.balances && st.balances[userId] >= 0
    requires !Risk.HasPendingOrder(st.orders, userId, symbol)
    requires FreshKeys(st.orders, keys)
    ensures var run := BuyRun(st, prices, userId, symbol, quantity, keys);
            && userId in run.0.balances
            && run.0.balances[userId] == st.balances[userId] - run.1 * (prices[symbol] * quantity)
    decreases |keys|
  {
    if keys != [] {
      var v := prices[symbol] * quantity;
      var s := ExecutedIntended(st, prices, userId, symbol, Buy, quantity, keys[0]);
      var rest := BuyRun(s.store, prices, userId, symbol, quantity, keys[1..]);
      IntendedBuyStep(st, prices, userId, symbol, quantity, keys[0]);
      FreshKeysStep(st.orders, s.store.orders, keys);
      BuyRunDebits(s.store, prices, userId, symbol, quantity, keys[1..]);
      BuyRunStep(st, prices, userId, symbol, quantity, keys);
      var filledHere := FilledOrder(s.result);
      var run := BuyRun(st, prices, userId, symbol, quantity, keys);
      DebitStep(st.balances[userId], s.store.balances[userId], v, rest.1, filledHere, run.0.balances[userId], run.1);
    }
  }

  /** Every BUY of the run is either FILLED or REJECTED for insufficient funds. */
  lemma {:induction false} BuyRunOutcomes(st: Store, prices: map<Symbol, Money>, userId: UserId, symbol: Symbol,
                                          quantity: int, keys: seq<string>)
    requires symbol in prices && 0 < prices[symbol] * quantity <= Risk.MaxOrderValue
    requires userId in st.balances
    requires !Risk.HasPendingOrder(st.orders, userId, symbol)
    requires FreshKeys(st.orders, keys)
    ensures var run := BuyRun(st, prices, userId, symbol, quantity, keys);
            run.1 + run.2 == |keys|
    decreases |keys|
  {
    if keys != [] {
      var s := ExecutedIntended(st, prices, userId, symbol, Buy, quantity, keys[0]);
      IntendedBuyStep(st, prices, userId, symbol, quantity, keys[0]);
      FreshKeysStep(st.orders, s.store.orders, keys);
      BuyRunOutcomes(s.store, prices, userId, symbol, quantity, keys[1..]);
      BuyRunStep(st, prices, userId, symbol, quantity, keys);
    }
  }

  /**
   * No double-spend: of n BUYs with notional v against a balance B, with
   * the corrected guard, exactly min(n, B / v) are FILLED and the balance
   * ends at B minus v for each of them; every other one is REJECTED for
   * insufficient funds.
   */
  lemma {:induction false} NoDoubleSpend(st: Store, prices: map<Symbol, Money>, userId: UserId, symbol: Symbol,
                                         quantity: int, keys: seq<string>)
    requires symbol in prices && 0 < prices[symbol] * quantity <= Risk.MaxOrderValue
    requires userId in st.balances && st.balances[userId] >= 0
    requires !Risk.HasPendingOrder(st.orders, userId, symbol)
    requires FreshKeys(st.orders, keys)
    ensures var run := BuyRun(st, prices, userId, symbol, quantity, keys);
            var v := prices[symbol] * quantity;
            && run.1 == Min(|keys|, st.balances[userId] / v)
            && userId in run.0.balances
            && run.0.balances[userId] == st.balances[userId] - run.1 * v
            && run.2 == |keys| - run.1
    decreases |keys|
  {
    if keys != [] {
      var v := prices[symbol] * quantity;
      var b := st.balances[userId];
      var s := ExecutedIntended(st, prices, userId, symbol, Buy, quantity, keys[0]);
      var rest := BuyRun(s.store, prices, userId, symbol, quantity, keys[1..]);
      var filledHere := FilledOrder(s.result);
      assert (filledHere <==> b >= v) && userId in s.store.balances
             && s.store.balances[userId] == (if b >= v then b - v else b)
             && rest.1 == Min(|keys| - 1, s.store.balances[userId] / v) by {
        IntendedBuyStep(st, prices, userId, symbol, quantity, keys[0]);
        FreshKeysStep(st.orders, s.store.orders, keys);
        NoDoubleSpend(s.store, prices, userId, symbol, quantity, keys[1..]);
      }
      BuyRunStep(st, prices, userId, symbol, quantity, keys);
      CountStep(b, v, |keys|, rest.1);
    }
    BuyRunDebits(st, prices, userId, symbol, quantity, keys);
    BuyRunOutcomes(st, prices, userId, symbol, quantity, keys);
  }
}
