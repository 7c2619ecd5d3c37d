/**
 * PortfolioService: the holdings table ((userId, symbol) -> quantity and
 * average price), the users' cash balances, the post-trade update and the
 * portfolio valuation.
 */
module Portfolio {
  import opened Domain
  import opened Arithmetic

  /** The RuntimeExceptions updatePortfolio can end in, plus the two the JDK throws. */
  datatype PortfolioError =
    | UserNotFound(userId: UserId)
    | MissingPrice                // order.getPrice() is null (line 44)
    | DivisionByZero              // BigDecimal.divide by a zero quantity (line 69)
    | NoHolding(symbol: Symbol)
    | ExceedsHeld

  /** PortfolioSummary: cash, cash plus market value of the holdings, and the holdings. */
  datatype PortfolioSummary = PortfolioSummary(userId: UserId, cashBalance: Money, totalValue: Money,
                                               holdings: seq<Holding>)

  function Abs(x: int): int
  {
    if x < 0 then -x else x
  }

  /** For a >= 0, b > 0: (2a + b) / 2b is a / b rounded half up. */
  lemma HalfUpMagnitude(a: int, b: int)
    requires a >= 0 && b > 0
    ensures var q := (2 * a + b) / (2 * b);
            q >= 0 && -b < 2 * (q * b - a) <= b
  {
    var m := 2 * a + b;
    var q := m / (2 * b);
    assert m == (2 * b) * q + m % (2 * b);
  }

  /**
   * n / d rounded to an integer with RoundingMode.HALF_UP: the nearest
   * integer, and on a tie the one farther from zero.
   */
  function RoundHalfUp(n: int, d: int): (r: int)
    requires d != 0
    ensures -Abs(d) <= 2 * (r * d - n) <= Abs(d)
    ensures 2 * Abs(r * d - n) == Abs(d) ==> Abs(r * d) > Abs(n)
    decreases if d < 0 then 1 else 0
  {
    if d < 0 then
      var r := RoundHalfUp(-n, -d);
      NegatedFactor(r, d);
      r
    else if n >= 0 then
      HalfUpMagnitude(n, d);
      (2 * n + d) / (2 * d)
    else
      HalfUpMagnitude(-n, d);
      var q := (2 * -n + d) / (2 * d);
      NegatedFactor(q, d);
      -q
  }

  /** A quotient rounded half up stays within any integer bounds of the exact one. */
  lemma RoundedWithin(n: int, d: int, lo: int, hi: int)
    requires d > 0 && lo * d <= n <= hi * d
    ensures lo <= RoundHalfUp(n, d) <= hi
  {
    var r := RoundHalfUp(n, d);
    assert r * d < (hi + 1) * d by {
      assert (hi + 1) * d == hi * d + d;
    }
    MulCancel(r, hi + 1, d);
    assert (lo - 1) * d < r * d by {
      assert (lo - 1) * d == lo * d - d;
    }
    MulCancel(lo - 1, r, d);
  }

  /** Two values within [lo, hi], weighted by positive quantities, stay within the weighted bounds. */
  lemma WeightedBounds(lo: int, hi: int, a: int, qa: int, b: int, qb: int)
    requires lo <= a <= hi && lo <= b <= hi && qa > 0 && qb > 0
    ensures lo * (qa + qb) <= a * qa + b * qb <= hi * (qa + qb)
  {
    MulMonotone(lo, a, qa);
    MulMonotone(a, hi, qa);
    MulMonotone(lo, b, qb);
    MulMonotone(b, hi, qb);
    assert lo * (qa + qb) == lo * qa + lo * qb;
    assert hi * (qa + qb) == hi * qa + hi * qb;
  }

  /** A weighted average of two prices, rounded half up, lies between them. */
  lemma AverageWithinRange(avg: Money, heldQuantity: int, price: Money, quantity: int)
    requires heldQuantity > 0 && quantity > 0
    ensures var r := RoundHalfUp(avg * heldQuantity + price * quantity, heldQuantity + quantity);
            (if avg <= price then avg else price) <= r <= (if avg <= price then price else avg)
  {
    var lo := if avg <= price then avg else price;
    var hi := if avg <= price then price else avg;
    WeightedBounds(lo, hi, avg, heldQuantity, price, quantity);
    RoundedWithin(avg * heldQuantity + price * quantity, heldQuantity + quantity, lo, hi);
  }

  predicate Keyed(h: Holding, userId: UserId, symbol: Symbol)
  {
    h.userId == userId && h.symbol == symbol
  }

  /** The unique constraint on (user_id, symbol) of the holdings table. */
  ghost predicate UniqueKeys(hs: seq<Holding>)
  {
    forall i, j :: 0 <= i < j < |hs| ==> hs[i].userId != hs[j].userId || hs[i].symbol != hs[j].symbol
  }

  /** The position of the row keyed (userId, symbol), or -1 when there is none. */
  function IndexOf(hs: seq<Holding>, userId: UserId, symbol: Symbol): (i: int)
    ensures -1 <= i < |hs|
    ensures i == -1 <==> forall k :: 0 <= k < |hs| ==> !Keyed(hs[k], userId, symbol)
    ensures i >= 0 ==> Keyed(hs[i], userId, symbol)
  {
    if hs == [] then -1
    else if Keyed(hs[|hs| - 1], userId, symbol) then |hs| - 1
    else
      var i := IndexOf(hs[..|hs| - 1], userId, symbol);
      assert forall k :: 0 <= k < |hs| - 1 ==> hs[k] == hs[..|hs| - 1][k];
      i
  }

  /** findByUserIdAndSymbol(userId, symbol). */
  function HoldingOf(hs: seq<Holding>, userId: UserId, symbol: Symbol): (r: Option<Holding>)
    ensures r.None? <==> forall k :: 0 <= k < |hs| ==> !Keyed(hs[k], userId, symbol)
    ensures r.Some? ==> r.value in hs && Keyed(r.value, userId, symbol)
  {
    var i := IndexOf(hs, userId, symbol);
    if i < 0 then None else Some(hs[i])
  }

  /** Under the unique constraint, the lookup by a row's key finds that row. */
  lemma HoldingOfAt(hs: seq<Holding>, k: int)
    requires UniqueKeys(hs) && 0 <= k < |hs|
    ensures HoldingOf(hs, hs[k].userId, hs[k].symbol) == Some(hs[k])
  {
    var i := IndexOf(hs, hs[k].userId, hs[k].symbol);
    assert i >= 0;
  }

  /** Saving a changed row under the same key: that key finds it, every other key is unaffected. */
  lemma UpdateKeepsOthers(hs: seq<Holding>, i: int, h: Holding)
    requires UniqueKeys(hs) && 0 <= i < |hs| && Keyed(h, hs[i].userId, hs[i].symbol)
    ensures UniqueKeys(hs[i := h])
    ensures HoldingOf(hs[i := h], h.userId, h.symbol) == Some(h)
    ensures forall u, s :: !Keyed(h, u, s) ==> HoldingOf(hs[i := h], u, s) == HoldingOf(hs, u, s)
  {
    var next := hs[i := h];
    HoldingOfAt(next, i);
    forall u, s | !Keyed(h, u, s)
      ensures HoldingOf(next, u, s) == HoldingOf(hs, u, s)
    {
      var j := IndexOf(next, u, s);
      if j >= 0 {
        HoldingOfAt(next, j);
        HoldingOfAt(hs, j);
      } else {
        assert forall k :: 0 <= k < |hs| ==> !Keyed(hs[k], u, s) by {
          forall k | 0 <= k < |hs|
            ensures !Keyed(hs[k], u, s)
          {
            if k != i {
              assert hs[k] == next[k];
            }
          }
        }
      }
    }
  }

  /** Inserting a row under a new key: that key finds it, every other key is unaffected. */
  lemma AppendKeepsOthers(hs: seq<Holding>, h: Holding)
    requires UniqueKeys(hs) && HoldingOf(hs, h.userId, h.symbol).None?
    ensures UniqueKeys(hs + [h])
    ensures HoldingOf(hs + [h], h.userId, h.symbol) == Some(h)
    ensures forall u, s :: !Keyed(h, u, s) ==> HoldingOf(hs + [h], u, s) == HoldingOf(hs, u, s)
  {
    var next := hs + [h];
    assert UniqueKeys(next) by {
      forall i, j | 0 <= i < j < |next|
        ensures next[i].userId != next[j].userId || next[i].symbol != next[j].symbol
      {
        if j == |hs| {
          assert !Keyed(hs[i], h.userId, h.symbol);
        }
      }
    }
    HoldingOfAt(next, |hs|);
    forall u, s | !Keyed(h, u, s)
      ensures HoldingOf(next, u, s) == HoldingOf(hs, u, s)
    {
      var j := IndexOf(next, u, s);
      if j >= 0 {
        HoldingOfAt(next, j);
        HoldingOfAt(hs, j);
      } else {
        assert forall k :: 0 <= k < |hs| ==> !Keyed(hs[k], u, s) by {
          forall k | 0 <= k < |hs|
            ensures !Keyed(hs[k], u, s)
          {
            assert hs[k] == next[k];
          }
        }
      }
    }
  }

  /** Deleting a row keeps the unique constraint. */
  lemma RemoveKeepsUnique(hs: seq<Holding>, i: int)
    requires UniqueKeys(hs) && 0 <= i < |hs|
    ensures UniqueKeys(hs[..i] + hs[i + 1..])
  {
    var next := hs[..i] + hs[i + 1..];
    assert forall k :: 0 <= k < |next| ==> next[k] == hs[if k < i then k else k + 1];
    forall a, b | 0 <= a < b < |next|
      ensures next[a].userId != next[b].userId || next[a].symbol != next[b].symbol
    {
      var a', b' := if a < i then a else a + 1, if b < i then b else b + 1;
      assert a' < b' && next[a] == hs[a'] && next[b] == hs[b'];
    }
  }

  /** Deleting a row from a table under the unique constraint: its key finds nothing. */
  lemma RemoveForgetsKey(hs: seq<Holding>, i: int)
    requires UniqueKeys(hs) && 0 <= i < |hs|
    ensures HoldingOf(hs[..i] + hs[i + 1..], hs[i].userId, hs[i].symbol).None?
  {
    var next := hs[..i] + hs[i + 1..];
    assert forall k :: 0 <= k < |next| ==> next[k] == hs[if k < i then k else k + 1];
    forall k | 0 <= k < |next|
      ensures !Keyed(next[k], hs[i].userId, hs[i].symbol)
    {
      var k' := if k < i then k else k + 1;
      assert next[k] == hs[k'] && k' != i;
      if k' < i {
        assert hs[k'].userId != hs[i].userId || hs[k'].symbol != hs[i].symbol;
      } else {
        assert hs[i].userId != hs[k'].userId || hs[i].symbol != hs[k'].symbol;
      }
    }
  }

  /** Deleting the row at `i`: its key finds nothing, every other key is unaffected. */
  lemma RemoveKeepsOthers(hs: seq<Holding>, i: int)
    requires UniqueKeys(hs) && 0 <= i < |hs|
    ensures UniqueKeys(hs[..i] + hs[i + 1..])
    ensures HoldingOf(hs[..i] + hs[i + 1..], hs[i].userId, hs[i].symbol).None?
    ensures forall u, s :: !Keyed(hs[i], u, s) ==> HoldingOf(hs[..i] + hs[i + 1..], u, s) == HoldingOf(hs, u, s)
  {
    var next := hs[..i] + hs[i + 1..];
    RemoveKeepsUnique(hs, i);
    RemoveForgetsKey(hs, i);
    forall u, s | !Keyed(hs[i], u, s)
      ensures HoldingOf(next, u, s) == HoldingOf(hs, u, s)
    {
      RemoveKeepsKey(hs, i, u, s);
    }
  }

  /** Deleting a row from a table under the unique constraint leaves the lookup of any other key as it was. */
  lemma RemoveKeepsKey(hs: seq<Holding>, i: int, u: UserId, s: Symbol)
    requires UniqueKeys(hs) && 0 <= i < |hs| && !Keyed(hs[i], u, s)
    ensures HoldingOf(hs[..i] + hs[i + 1..], u, s) == HoldingOf(hs, u, s)
  {
    var next := hs[..i] + hs[i + 1..];
    RemoveKeepsUnique(hs, i);
    var j := IndexOf(next, u, s);
    if j >= 0 {
      var j' := if j < i then j else j + 1;
      assert next[j] == hs[j'];
      HoldingOfAt(next, j);
      HoldingOfAt(hs, j');
    } else {
      forall k | 0 <= k < |hs|
        ensures !Keyed(hs[k], u, s)
      {
        if k < i {
          assert hs[k] == next[k];
        } else if k > i {
          assert hs[k] == next[k - 1];
        }
      }
    }
  }

  /**
   * handleBuy on the holdings table: merge into the existing row (quantity
   * summed, average price the quantity-weighted mean rounded HALF_UP to the
   * cent) or insert a row at the order price. A merged quantity of zero makes
   * the division throw and nothing is written.
   */
  function Bought(hs: seq<Holding>, userId: UserId, symbol: Symbol, quantity: int, price: Money)
    : (r: Result<seq<Holding>, PortfolioError>)
    requires UniqueKeys(hs)
    ensures r.Err? <==> HoldingOf(hs, userId, symbol).Some?
                        && HoldingOf(hs, userId, symbol).value.quantity + quantity == 0
    ensures r.Err? ==> r.error == DivisionByZero
    ensures r.Ok? ==> UniqueKeys(r.value)
    ensures r.Ok? ==> (HoldingOf(r.value, userId, symbol) ==
              Some(match HoldingOf(hs, userId, symbol)
                   case None => Holding(userId, symbol, quantity, price)
                   case Some(h) =>
                     Holding(userId, symbol, h.quantity + quantity,
                             RoundHalfUp(h.averagePrice * h.quantity + price * quantity, h.quantity + quantity))))
    ensures r.Ok? ==> forall u, s :: !(u == userId && s == symbol) ==> HoldingOf(r.value, u, s) == HoldingOf(hs, u, s)
  {
    var i := IndexOf(hs, userId, symbol);
    if i >= 0 then
      var h := hs[i];
      var totalCost := h.averagePrice * h.quantity + price * quantity;
      var newQuantity := h.quantity + quantity;
      if newQuantity == 0 then Err(DivisionByZero)
      else
        var merged := h.(quantity := newQuantity, averagePrice := RoundHalfUp(totalCost, newQuantity));
        UpdateKeepsOthers(hs, i, merged);
        Ok(hs[i := merged])
    else
      var added := Holding(userId, symbol, quantity, price);
      AppendKeepsOthers(hs, added);
      Ok(hs + [added])
  }

  /**
   * handleSell on the holdings table: no row or too few held throws and
   * writes nothing; selling everything deletes the row; otherwise the
   * quantity drops and the average price stays.
   */
  function Sold(hs: seq<Holding>, userId: UserId, symbol: Symbol, quantity: int)
    : (r: Result<seq<Holding>, PortfolioError>)
    requires UniqueKeys(hs)
    ensures r == Err(NoHolding(symbol)) <==> HoldingOf(hs, userId, symbol).None?
    ensures r == Err(ExceedsHeld) <==> HoldingOf(hs, userId, symbol).Some?
                                       && HoldingOf(hs, userId, symbol).value.quantity < quantity
    ensures r.Ok? <==> HoldingOf(hs, userId, symbol).Some? && HoldingOf(hs, userId, symbol).value.quantity >= quantity
    ensures r.Ok? ==> UniqueKeys(r.value)
    ensures r.Ok? ==> var h := HoldingOf(hs, userId, symbol).value;
                      HoldingOf(r.value, userId, symbol) ==
                        if h.quantity == quantity then None else Some(h.(quantity := h.quantity - quantity))
    ensures r.Ok? ==> forall u, s :: !(u == userId && s == symbol) ==> HoldingOf(r.value, u, s) == HoldingOf(hs, u, s)
  {
    var i := IndexOf(hs, userId, symbol);
    if i < 0 then Err(NoHolding(symbol))
    else
      var newQuantity := hs[i].quantity - quantity;
      if newQuantity < 0 then Err(ExceedsHeld)
      else if newQuantity == 0 then
        RemoveKeepsOthers(hs, i);
        Ok(hs[..i] + hs[i + 1..])
      else
        UpdateKeepsOthers(hs, i, hs[i].(quantity := newQuantity));
        Ok(hs[i := hs[i].(quantity := newQuantity)])
  }

  /**
   * updatePortfolio(order) on the holdings table and the users' balances:
   * the user must exist and the order must carry a price; a BUY then merges
   * the position and subtracts price x quantity from the balance, a SELL
   * reduces it and adds price x quantity. The balance is not checked against
   * zero. Any failure writes nothing.
   */
  function Traded(hs: seq<Holding>, balances: map<UserId, Money>, order: OrderRecord)
    : (r: Result<(seq<Holding>, map<UserId, Money>), PortfolioError>)
    requires UniqueKeys(hs)
    ensures r == Err(UserNotFound(order.userId)) <==> order.userId !in balances
    ensures r == Err(MissingPrice) <==> order.userId in balances && order.price.None?
    ensures r.Ok? ==> UniqueKeys(r.value.0)
    ensures r.Ok? ==> order.price.Some? && r.value.1 == balances[order.userId :=
              if order.side == Buy then balances[order.userId] - order.price.value * order.quantity
              else balances[order.userId] + order.price.value * order.quantity]
    ensures order.userId in balances && order.price.Some? ==>
              match (if order.side == Buy then Bought(hs, order.userId, order.symbol, order.quantity, order.price.value)
                     else Sold(hs, order.userId, order.symbol, order.quantity))
              case Ok(next) => r.Ok? && r.value.0 == next
              case Err(e) => r == Err(e)
  {
    if order.userId !in balances then Err(UserNotFound(order.userId))
    else if order.price.None? then Err(MissingPrice)
    else
      var tradeValue := order.price.value * order.quantity;
      var balance := balances[order.userId];
      if order.side == Buy then
        match Bought(hs, order.userId, order.symbol, order.quantity, order.price.value)
        case Ok(next) => Ok((next, balances[order.userId := balance - tradeValue]))
        case Err(e) => Err(e)
      else
        match Sold(hs, order.userId, order.symbol, order.quantity)
        case Ok(next) => Ok((next, balances[order.userId := balance + tradeValue]))
        case Err(e) => Err(e)
  }

  /** findByUserId(userId): the user's rows, in table order. */
  function HoldingsOf(hs: seq<Holding>, userId: UserId): (r: seq<Holding>)
    ensures forall h :: h in r <==> h in hs && h.userId == userId
  {
    if hs == [] then []
    else
      var last := hs[|hs| - 1];
      assert hs == hs[..|hs| - 1] + [last];
      HoldingsOf(hs[..|hs| - 1], userId) + (if last.userId == userId then [last] else [])
  }

  /** findByUserId returns each of the user's rows exactly as often as the table holds it, and nothing else. */
  lemma {:induction false} HoldingsOfCounts(hs: seq<Holding>, userId: UserId)
    ensures forall h :: multiset(HoldingsOf(hs, userId))[h] == if h.userId == userId then multiset(hs)[h] else 0
    decreases |hs|
  {
    if hs != [] {
      var init := hs[..|hs| - 1];
      var last := hs[|hs| - 1];
      assert hs == init + [last];
      HoldingsOfCounts(init, userId);
    }
  }

  /** What one row adds to the market value of `userId`'s holdings. */
  function Worth(h: Holding, userId: UserId, priceOf: Symbol -> Money): Money
  {
    if h.userId == userId then priceOf(h.symbol) * h.quantity else 0
  }

  /**
   * The map/reduce of lines 114-119: Σ price(symbol) x quantity, folded from
   * the first row; never negative when no row has a negative quantity or
   * price.
   */
  function HoldingsValue(hs: seq<Holding>, priceOf: Symbol -> Money): (r: Money)
    ensures (forall k :: 0 <= k < |hs| ==> 0 <= hs[k].quantity && 0 <= priceOf(hs[k].symbol)) ==> 0 <= r
  {
    if hs == [] then 0
    else
      var last := hs[|hs| - 1];
      assert forall k :: 0 <= k < |hs| - 1 ==> hs[..|hs| - 1][k] == hs[k];
      HoldingsValue(hs[..|hs| - 1], priceOf) + priceOf(last.symbol) * last.quantity
  }

  lemma {:induction false} HoldingsOfConcat(a: seq<Holding>, b: seq<Holding>, userId: UserId)
    ensures HoldingsOf(a + b, userId) == HoldingsOf(a, userId) + HoldingsOf(b, userId)
    decreases |b|
  {
    if b != [] {
      var last := b[|b| - 1];
      assert (a + b)[..|a + b| - 1] == a + b[..|b| - 1];
      HoldingsOfConcat(a, b[..|b| - 1], userId);
    } else {
      assert a + b == a;
    }
  }

  lemma {:induction false} HoldingsValueConcat(a: seq<Holding>, b: seq<Holding>, priceOf: Symbol -> Money)
    ensures HoldingsValue(a + b, priceOf) == HoldingsValue(a, priceOf) + HoldingsValue(b, priceOf)
    decreases |b|
  {
    if b != [] {
      assert (a + b)[..|a + b| - 1] == a + b[..|b| - 1];
      HoldingsValueConcat(a, b[..|b| - 1], priceOf);
    } else {
      assert a + b == a;
    }
  }

  /** The market value of `userId`'s holdings within `hs`. */
  function UserValue(hs: seq<Holding>, userId: UserId, priceOf: Symbol -> Money): Money
  {
    HoldingsValue(HoldingsOf(hs, userId), priceOf)
  }

  /**
   * The user's market value read straight off the table: Σ Worth over every
   * row, the other users' rows adding nothing.
   */
  function TableWorth(hs: seq<Holding>, userId: UserId, priceOf: Symbol -> Money): Money
  {
    if hs == [] then 0 else TableWorth(hs[..|hs| - 1], userId, priceOf) + Worth(hs[|hs| - 1], userId, priceOf)
  }

  /** Filtering the table by user and then summing gives the same value as TableWorth. */
  lemma {:induction false} TableWorthIsUserValue(hs: seq<Holding>, userId: UserId, priceOf: Symbol -> Money)
    ensures TableWorth(hs, userId, priceOf) == UserValue(hs, userId, priceOf)
    decreases |hs|
  {
    if hs == [] {
      assert HoldingsOf(hs, userId) == [];
    } else {
      var init := hs[..|hs| - 1];
      var last := hs[|hs| - 1];
      assert hs == init + [last];
      TableWorthIsUserValue(init, userId, priceOf);
      UserValueConcat(init, [last], userId, priceOf);
      UserValueSingle(last, userId, priceOf);
    }
  }

  /** A user's holdings value is additive over any split of the table. */
  lemma UserValueConcat(a: seq<Holding>, b: seq<Holding>, userId: UserId, priceOf: Symbol -> Money)
    ensures UserValue(a + b, userId, priceOf) == UserValue(a, userId, priceOf) + UserValue(b, userId, priceOf)
  {
    HoldingsOfConcat(a, b, userId);
    HoldingsValueConcat(HoldingsOf(a, userId), HoldingsOf(b, userId), priceOf);
  }

  lemma UserValueSingle(h: Holding, userId: UserId, priceOf: Symbol -> Money)
    ensures UserValue([h], userId, priceOf) == Worth(h, userId, priceOf)
  {
    assert [h][..0] == [];
    assert HoldingsValue([h], priceOf) == priceOf(h.symbol) * h.quantity;
    if h.userId == userId {
      assert HoldingsOf([h], userId) == [h];
    } else {
      assert HoldingsOf([h], userId) == [];
    }
  }

  /** Replacing row `i` by `h` moves the value by the difference of their worths. */
  lemma UserValueUpdate(hs: seq<Holding>, i: int, h: Holding, userId: UserId, priceOf: Symbol -> Money)
    requires 0 <= i < |hs|
    ensures UserValue(hs[i := h], userId, priceOf)
            == UserValue(hs, userId, priceOf) - Worth(hs[i], userId, priceOf) + Worth(h, userId, priceOf)
  {
    assert hs == hs[..i] + [hs[i]] + hs[i + 1..];
    assert hs[i := h] == hs[..i] + [h] + hs[i + 1..];
    UserValueConcat(hs[..i] + [hs[i]], hs[i + 1..], userId, priceOf);
    UserValueConcat(hs[..i], [hs[i]], userId, priceOf);
    UserValueConcat(hs[..i] + [h], hs[i + 1..], userId, priceOf);
    UserValueConcat(hs[..i], [h], userId, priceOf);
    UserValueSingle(hs[i], userId, priceOf);
    UserValueSingle(h, userId, priceOf);
  }

  /** Deleting row `i` removes its worth. */
  lemma UserValueRemove(hs: seq<Holding>, i: int, userId: UserId, priceOf: Symbol -> Money)
    requires 0 <= i < |hs|
    ensures UserValue(hs[..i] + hs[i + 1..], userId, priceOf)
            == UserValue(hs, userId, priceOf) - Worth(hs[i], userId, priceOf)
  {
    assert hs == hs[..i] + [hs[i]] + hs[i + 1..];
    UserValueConcat(hs[..i] + [hs[i]], hs[i + 1..], userId, priceOf);
    UserValueConcat(hs[..i], [hs[i]], userId, priceOf);
    UserValueConcat(hs[..i], hs[i + 1..], userId, priceOf);
    UserValueSingle(hs[i], userId, priceOf);
  }

  /** Inserting `h` adds its worth. */
  lemma UserValueAppend(hs: seq<Holding>, h: Holding, userId: UserId, priceOf: Symbol -> Money)
    ensures UserValue(hs + [h], userId, priceOf) == UserValue(hs, userId, priceOf) + Worth(h, userId, priceOf)
  {
    UserValueConcat(hs, [h], userId, priceOf);
    UserValueSingle(h, userId, priceOf);
  }

  /** getPortfolioSummary(userId), with brokerClient.getPrice as `priceOf`. */
  function SummaryOf(hs: seq<Holding>, balances: map<UserId, Money>, userId: UserId, priceOf: Symbol -> Money)
    : (r: Result<PortfolioSummary, PortfolioError>)
    ensures r.Err? <==> userId !in balances
    ensures r.Err? ==> r.error == UserNotFound(userId)
    ensures r.Ok? ==> r.value.userId == userId && r.value.cashBalance == balances[userId]
    ensures r.Ok? ==> forall h :: h in r.value.holdings <==> h in hs && h.userId == userId
    ensures r.Ok? ==> forall h :: multiset(r.value.holdings)[h] == if h.userId == userId then multiset(hs)[h] else 0
    ensures r.Ok? ==> r.value.totalValue == balances[userId] + HoldingsValue(r.value.holdings, priceOf)
    ensures r.Ok? ==> r.value.totalValue == balances[userId] + TableWorth(hs, userId, priceOf)
  {
    if userId !in balances then Err(UserNotFound(userId))
    else
      TableWorthIsUserValue(hs, userId, priceOf);
      HoldingsOfCounts(hs, userId);
      var holdings := HoldingsOf(hs, userId);
      var holdingsValue := HoldingsValue(holdings, priceOf);
      Ok(PortfolioSummary(userId, balances[userId], balances[userId] + holdingsValue, holdings))
  }

  /** Changing a row's quantity by `k` changes its worth by price x k. */
  lemma WorthShift(h: Holding, k: int, userId: UserId, priceOf: Symbol -> Money)
    ensures Worth(h.(quantity := h.quantity + k), userId, priceOf)
            == Worth(h, userId, priceOf) + (if h.userId == userId then priceOf(h.symbol) * k else 0)
  {
    if h.userId == userId {
      var p := priceOf(h.symbol);
      assert p * (h.quantity + k) == p * h.quantity + p * k;
    }
  }

  /** Replacing row `i` by one holding `quantity` more of the same position: the row owner's value gains price x quantity. */
  lemma UserValueGrow(hs: seq<Holding>, i: int, merged: Holding, quantity: int, u: UserId,
                      priceOf: Symbol -> Money)
    requires 0 <= i < |hs|
    requires merged.userId == hs[i].userId && merged.symbol == hs[i].symbol
    requires merged.quantity == hs[i].quantity + quantity
    ensures UserValue(hs[i := merged], u, priceOf)
            == UserValue(hs, u, priceOf) + (if hs[i].userId == u then priceOf(hs[i].symbol) * quantity else 0)
  {
    var h := hs[i];
    UserValueUpdate(hs, i, merged, u, priceOf);
    WorthShift(h, quantity, u, priceOf);
    assert Worth(merged, u, priceOf) == Worth(h.(quantity := h.quantity + quantity), u, priceOf);
  }

  /** Taking `quantity` from row `i`, deleting it when nothing is left: the row owner's value loses price x quantity. */
  lemma UserValueShrink(hs: seq<Holding>, i: int, quantity: int, u: UserId, priceOf: Symbol -> Money)
    requires 0 <= i < |hs|
    ensures UserValue(if hs[i].quantity - quantity == 0 then hs[..i] + hs[i + 1..]
                      else hs[i := hs[i].(quantity := hs[i].quantity - quantity)], u, priceOf)
            == UserValue(hs, u, priceOf) - (if hs[i].userId == u then priceOf(hs[i].symbol) * quantity else 0)
  {
    if hs[i].quantity - quantity == 0 {
      UserValueRemove(hs, i, u, priceOf);
    } else {
      UserValueReduce(hs, i, quantity, u, priceOf);
    }
  }

  /** Taking `quantity` from row `i` and keeping the row: the row owner's value loses price x quantity. */
  lemma UserValueReduce(hs: seq<Holding>, i: int, quantity: int, u: UserId, priceOf: Symbol -> Money)
    requires 0 <= i < |hs|
    ensures UserValue(hs[i := hs[i].(quantity := hs[i].quantity - quantity)], u, priceOf)
            == UserValue(hs, u, priceOf) - (if hs[i].userId == u then priceOf(hs[i].symbol) * quantity else 0)
  {
    UserValueGrow(hs, i, hs[i].(quantity := hs[i].quantity - quantity), -quantity, u, priceOf);
    NegatedFactor(priceOf(hs[i].symbol), quantity);
  }

  /**
   * The holdings value of every user after a BUY: `userId` gains
   * price(symbol) x quantity, everyone else is unchanged.
   */
  lemma BoughtValue(hs: seq<Holding>, userId: UserId, symbol: Symbol, quantity: int, price: Money,
                    u: UserId, priceOf: Symbol -> Money)
    requires UniqueKeys(hs) && Bought(hs, userId, symbol, quantity, price).Ok?
    ensures UserValue(Bought(hs, userId, symbol, quantity, price).value, u, priceOf)
            == UserValue(hs, u, priceOf) + (if u == userId then priceOf(symbol) * quantity else 0)
  {
    var i := IndexOf(hs, userId, symbol);
    if i >= 0 {
      var next := Bought(hs, userId, symbol, quantity, price).value;
      BoughtMerges(hs, userId, symbol, quantity, price);
      assert next == hs[i := next[i]];
      UserValueGrow(hs, i, next[i], quantity, u, priceOf);
    } else {
      UserValueAppend(hs, Holding(userId, symbol, quantity, price), u, priceOf);
    }
  }

  /** The row a BUY into an existing position writes, spelled out for the valuation lemmas. */
  lemma BoughtMerges(hs: seq<Holding>, userId: UserId, symbol: Symbol, quantity: int, price: Money)
    requires UniqueKeys(hs) && Bought(hs, userId, symbol, quantity, price).Ok?
    requires IndexOf(hs, userId, symbol) >= 0
    ensures var i := IndexOf(hs, userId, symbol);
            var h := hs[i];
            Bought(hs, userId, symbol, quantity, price).value
            == hs[i := h.(quantity := h.quantity + quantity,
                          averagePrice := RoundHalfUp(h.averagePrice * h.quantity + price * quantity, h.quantity + quantity))]
  {
  }

  /**
   * The holdings value of every user after a SELL: `userId` loses
   * price(symbol) x quantity, everyone else is unchanged.
   */
  lemma SoldValue(hs: seq<Holding>, userId: UserId, symbol: Symbol, quantity: int,
                  u: UserId, priceOf: Symbol -> Money)
    requires UniqueKeys(hs) && Sold(hs, userId, symbol, quantity).Ok?
    ensures UserValue(Sold(hs, userId, symbol, quantity).value, u, priceOf)
            == UserValue(hs, u, priceOf) - (if u == userId then priceOf(symbol) * quantity else 0)
  {
    var i := IndexOf(hs, userId, symbol);
    assert Sold(hs, userId, symbol, quantity).value
           == if hs[i].quantity - quantity == 0 then hs[..i] + hs[i + 1..]
              else hs[i := hs[i].(quantity := hs[i].quantity - quantity)];
    UserValueShrink(hs, i, quantity, u, priceOf);
  }

  /**
   * A trade at the price the valuation uses moves value between cash and
   * holdings only: the trader's total portfolio value is the same before
   * and after, and so is every other user's.
   */
  lemma {:induction false} TradeAtQuoteKeepsTotalValue(hs: seq<Holding>, balances: map<UserId, Money>,
                                                       order: OrderRecord, u: UserId, priceOf: Symbol -> Money)
    requires UniqueKeys(hs) && Traded(hs, balances, order).Ok?
    requires order.price == Some(priceOf(order.symbol))
    requires u in balances
    ensures var next := Traded(hs, balances, order).value;
            SummaryOf(next.0, next.1, u, priceOf).value.totalValue
            == SummaryOf(hs, balances, u, priceOf).value.totalValue
  {
    if order.side == Buy {
      BoughtValue(hs, order.userId, order.symbol, order.quantity, order.price.value, u, priceOf);
    } else {
      SoldValue(hs, order.userId, order.symbol, order.quantity, u, priceOf);
    }
  }

  /**
   * PortfolioService over the holdings table and the users' balances.
   * brokerClient.getPrice is the function passed to Summary.
   */
  class PortfolioService {
    var holdings: seq<Holding>
    var balances: map<UserId, Money>

    ghost predicate Valid()
      reads this
    {
      UniqueKeys(holdings)
    }

    constructor (balances: map<UserId, Money>)
      ensures Valid() && holdings == [] && this.balances == balances
    {
      holdings := [];
      this.balances := balances;
    }

    /** updatePortfolio(order): the effect Traded gives, or nothing on failure. */
    method UpdatePortfolio(order: OrderRecord) returns (r: Outcome<PortfolioError>)
      requires Valid()
      modifies this
      ensures Valid()
      ensures match Traded(old(holdings), old(balances), order)
              case Ok(next) => r.Pass? && holdings == next.0 && balances == next.1
              case Err(e) => r == Fail(e) && holdings == old(holdings) && balances == old(balances)
    {
      if order.userId !in balances {
        return Fail(UserNotFound(order.userId));
      }
      if order.price.None? {
        return Fail(MissingPrice);
      }
      var tradeValue := order.price.value * order.quantity;
      if order.side == Buy {
        r := HandleBuy(order.userId, order);
        if r.Fail? {
          return;
        }
        balances := balances[order.userId := balances[order.userId] - tradeValue];
      } else {
        r := HandleSell(order.userId, order);
        if r.Fail? {
          return;
        }
        balances := balances[order.userId := balances[order.userId] + tradeValue];
      }
    }

    /** handleBuy(user, order): merge into or insert the user's row for the symbol. */
    method HandleBuy(userId: UserId, order: OrderRecord) returns (r: Outcome<PortfolioError>)
      requires Valid() && order.price.Some?
      modifies this`holdings
      ensures Valid()
      ensures match Bought(old(holdings), userId, order.symbol, order.quantity, order.price.value)
              case Ok(next) => r.Pass? && holdings == next
              case Err(e) => r == Fail(e) && holdings == old(holdings)
    {
      var price := order.price.value;
      var i := IndexOf(holdings, userId, order.symbol);
      if i >= 0 {
        var holding := holdings[i];
        var totalCost := holding.averagePrice * holding.quantity + price * order.quantity;
        var newQuantity := holding.quantity + order.quantity;
        if newQuantity == 0 {
          return Fail(DivisionByZero);
        }
        var newAvgPrice := RoundHalfUp(totalCost, newQuantity);
        holdings := holdings[i := holding.(quantity := newQuantity, averagePrice := newAvgPrice)];
      } else {
        holdings := holdings + [Holding(userId, order.symbol, order.quantity, price)];
      }
      r := Pass;
    }

    /** handleSell(user, order): reduce or delete the user's row for the symbol. */
    method HandleSell(userId: UserId, order: OrderRecord) returns (r: Outcome<PortfolioError>)
      requires Valid()
      modifies this`holdings
      ensures Valid()
      ensures match Sold(old(holdings), userId, order.symbol, order.quantity)
              case Ok(next) => r.Pass? && holdings == next
              case Err(e) => r == Fail(e) && holdings == old(holdings)
    {
      var i := IndexOf(holdings, userId, order.symbol);
      if i < 0 {
        return Fail(NoHolding(order.symbol));
      }
      var newQuantity := holdings[i].quantity - order.quantity;
      if newQuantity < 0 {
        return Fail(ExceedsHeld);
      }
      if newQuantity == 0 {
        holdings := holdings[..i] + holdings[i + 1..];
      } else {
        holdings := holdings[i := holdings[i].(quantity := newQuantity)];
      }
      assert Sold(old(holdings), userId, order.symbol, order.quantity) == Ok(holdings);
      r := Pass;
    }

    /** getPortfolioSummary(userId). */
    function Summary(userId: UserId, priceOf: Symbol -> Money): (r: Result<PortfolioSummary, PortfolioError>)
      reads this
      ensures r.Err? <==> userId !in balances
      ensures r.Ok? ==> r.value.cashBalance == balances[userId]
                        && r.value.totalValue == balances[userId] + UserValue(holdings, userId, priceOf)
    {
      SummaryOf(holdings, balances, userId, priceOf)
    }
  }
}
