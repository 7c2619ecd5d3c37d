/**
 * RiskGuard.validateTrade: balance, minimum-reserve and daily-count checks,
 * in that order. The user's balance and the day's order count (the
 * repository query) are parameters; nothing is written.
 */
module RiskGuard {
  import opened Domain

  /** MIN_BALANCE, 100.00, in cents. */
  const MinBalance: Money := 10000

  /** MAX_DAILY_TRADES. */
  const MaxDailyTrades: int := 50

  /** The rules RiskViolationException reports. */
  datatype Violation = MinimumBalance | DailyTradeLimit(todayTradeCount: int)

  /** InsufficientBalanceException, or RiskViolationException for a rule. */
  datatype GuardError =
    | InsufficientBalance(required: Money, available: Money)
    | RiskViolation(rule: Violation)

  /**
   * validateTrade(user, tradeValue, quantity) with the user's balance and
   * today's order count as inputs; `quantity` is only logged by the source.
   */
  function ValidateTrade(balance: Money, tradeValue: Money, quantity: int, todayTradeCount: int)
    : (r: Outcome<GuardError>)
    ensures r == Fail(InsufficientBalance(tradeValue, balance)) <==> balance < tradeValue
    ensures r == Fail(RiskViolation(MinimumBalance)) <==>
              tradeValue <= balance && balance - tradeValue < MinBalance
    ensures r == Fail(RiskViolation(DailyTradeLimit(todayTradeCount))) <==>
              balance - tradeValue >= MinBalance && todayTradeCount >= MaxDailyTrades
    ensures r.Pass? ==> balance - tradeValue >= MinBalance && todayTradeCount <= MaxDailyTrades - 1
  {
    if balance < tradeValue then
      Fail(InsufficientBalance(tradeValue, balance))
    else
      var balanceAfterTrade := balance - tradeValue;
      if balanceAfterTrade < MinBalance then Fail(RiskViolation(MinimumBalance))
      else if todayTradeCount >= MaxDailyTrades then Fail(RiskViolation(DailyTradeLimit(todayTradeCount)))
      else Pass
  }

  /**
   * The trade passes exactly when the reserve survives it and the day's cap
   * is not reached: the sufficient-balance check is implied by the reserve
   * check and only decides which error is reported.
   */
  lemma PassesIff(balance: Money, tradeValue: Money, quantity: int, todayTradeCount: int)
    ensures ValidateTrade(balance, tradeValue, quantity, todayTradeCount).Pass?
            <==> balance - tradeValue >= MinBalance && todayTradeCount < MaxDailyTrades
  {
  }
}
