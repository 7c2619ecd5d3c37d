/**
 * The wallet ledger: one balance per user and an append-only transaction
 * ledger, changed only by adjustBalance, a checked read-modify-write.
 */
module Wallet {
  import opened Domain

  /** The sum of the amounts of `userId`'s entries in `entries`. */
  function SumFor(entries: seq<LedgerEntry>, userId: UserId): Money
  {
    if entries == [] then 0
    else (if entries[0].userId == userId then entries[0].amount else 0) + SumFor(entries[1..], userId)
  }

  lemma {:induction false} SumForAppend(entries: seq<LedgerEntry>, e: LedgerEntry, userId: UserId)
    ensures SumFor(entries + [e], userId)
            == SumFor(entries, userId) + (if e.userId == userId then e.amount else 0)
  {
    if entries != [] {
      assert (entries + [e])[1..] == entries[1..] + [e];
      SumForAppend(entries[1..], e, userId);
    }
  }

  /**
   * The funds check: only a negative amount can be refused, and only when it
   * would take the balance below zero.
   */
  predicate FundsAvailable(balance: Money, amount: Money)
  {
    !(amount < 0 && balance + amount < 0)
  }

  /**
   * adjustBalance on the wallet table and the ledger: a missing wallet or a
   * debit past zero fails and writes nothing; otherwise one entry
   * (userId, amount, kind) is appended and that user's balance moves by
   * `amount`, every other wallet staying as it was.
   */
  function Adjusted(balances: map<UserId, Money>, ledger: seq<LedgerEntry>,
                    userId: UserId, amount: Money, kind: TransactionType)
    : (r: Result<(map<UserId, Money>, seq<LedgerEntry>), WalletError>)
    ensures r == Err(WalletNotFound(userId)) <==> userId !in balances
    ensures r == Err(InsufficientFunds(userId)) <==>
              userId in balances && amount < 0 && balances[userId] + amount < 0
    ensures r.Ok? <==> userId in balances && FundsAvailable(balances[userId], amount)
    ensures r.Ok? ==> r.value.1 == ledger + [LedgerEntry(userId, amount, kind)]
    ensures r.Ok? ==> r.value.0.Keys == balances.Keys
    ensures r.Ok? ==> r.value.0[userId] == balances[userId] + amount
    ensures r.Ok? ==> forall u :: u in balances && u != userId ==> r.value.0[u] == balances[u]
  {
    if userId !in balances then Err(WalletNotFound(userId))
    else if !FundsAvailable(balances[userId], amount) then Err(InsufficientFunds(userId))
    else Ok((balances[userId := balances[userId] + amount], ledger + [LedgerEntry(userId, amount, kind)]))
  }

  /** Every wallet's balance is its opening balance plus the sum of its ledger entries. */
  ghost predicate LedgerBacked(opening: map<UserId, Money>, balances: map<UserId, Money>,
                               ledger: seq<LedgerEntry>)
  {
    && balances.Keys == opening.Keys
    && forall u :: u in balances ==> balances[u] == opening[u] + SumFor(ledger, u)
  }

  /** A successful adjustment keeps every balance equal to opening + Σ ledger. */
  lemma AdjustedKeepsLedgerBacked(opening: map<UserId, Money>, balances: map<UserId, Money>,
                                  ledger: seq<LedgerEntry>, userId: UserId, amount: Money,
                                  kind: TransactionType)
    requires LedgerBacked(opening, balances, ledger)
    ensures var r := Adjusted(balances, ledger, userId, amount, kind);
            r.Ok? ==> LedgerBacked(opening, r.value.0, r.value.1)
  {
    var r := Adjusted(balances, ledger, userId, amount, kind);
    if r.Ok? {
      forall u | u in r.value.0
        ensures r.value.0[u] == opening[u] + SumFor(r.value.1, u)
      {
        SumForAppend(ledger, LedgerEntry(userId, amount, kind), u);
      }
    }
  }

  /** No adjustment takes a non-negative balance below zero, successful or not. */
  lemma AdjustedKeepsNonNegative(balances: map<UserId, Money>, ledger: seq<LedgerEntry>,
                                 userId: UserId, amount: Money, kind: TransactionType, u: UserId)
    requires u in balances && balances[u] >= 0
    ensures var r := Adjusted(balances, ledger, userId, amount, kind);
            r.Ok? ==> r.value.0[u] >= 0
  {
  }

  /** One adjustBalance call: user, signed amount, transaction type. */
  datatype Adjustment = Adjustment(userId: UserId, amount: Money, kind: TransactionType)

  /**
   * The wallets and ledger after running `calls` one after another; a call
   * that fails leaves both as they were.
   */
  function Replay(balances: map<UserId, Money>, ledger: seq<LedgerEntry>, calls: seq<Adjustment>)
    : (map<UserId, Money>, seq<LedgerEntry>)
    decreases |calls|
  {
    if calls == [] then (balances, ledger)
    else
      var c := calls[0];
      match Adjusted(balances, ledger, c.userId, c.amount, c.kind)
      case Ok(next) => Replay(next.0, next.1, calls[1..])
      case Err(_) => Replay(balances, ledger, calls[1..])
  }

  /**
   * Across any sequence of calls, every balance stays opening + Σ ledger,
   * the ledger only grows, and balances that start non-negative stay so.
   */
  lemma {:induction false} ReplayInvariant(opening: map<UserId, Money>, balances: map<UserId, Money>,
                                           ledger: seq<LedgerEntry>, calls: seq<Adjustment>)
    requires LedgerBacked(opening, balances, ledger)
    requires forall u :: u in balances ==> balances[u] >= 0
    ensures var (b, l) := Replay(balances, ledger, calls);
            && LedgerBacked(opening, b, l)
            && (forall u :: u in b ==> b[u] >= 0)
            && |l| >= |ledger| && l[..|ledger|] == ledger
    decreases |calls|
  {
    if calls != [] {
      var c := calls[0];
      var r := Adjusted(balances, ledger, c.userId, c.amount, c.kind);
      if r.Ok? {
        AdjustedKeepsLedgerBacked(opening, balances, ledger, c.userId, c.amount, c.kind);
        ReplayInvariant(opening, r.value.0, r.value.1, calls[1..]);
        var (b, l) := Replay(r.value.0, r.value.1, calls[1..]);
        assert l[..|r.value.1|][..|ledger|] == ledger;
      } else {
        ReplayInvariant(opening, balances, ledger, calls[1..]);
      }
    }
  }

  /** WalletService: the wallet table (userId -> balance) and the ledger. */
  class WalletService {
    var balances: map<UserId, Money>
    var ledger: seq<LedgerEntry>
    /** The balances before the first ledger entry. */
    ghost const opening: map<UserId, Money>

    ghost predicate Valid()
      reads this
    {
      LedgerBacked(opening, balances, ledger)
    }

    constructor (wallets: map<UserId, Money>)
      ensures Valid() && balances == wallets && ledger == []
    {
      balances := wallets;
      ledger := [];
      opening := wallets;
    }

    /**
     * adjustBalance(userId, amount, type): fail without writing when the
     * wallet is missing or a debit would go below zero; otherwise append one
     * ledger entry and move the balance by `amount`.
     */
    method AdjustBalance(userId: UserId, amount: Money, kind: TransactionType) returns (r: Outcome<WalletError>)
      requires Valid()
      modifies this`balances, this`ledger
      ensures Valid()
      ensures match Adjusted(old(balances), old(ledger), userId, amount, kind)
              case Ok(next) => r.Pass? && balances == next.0 && ledger == next.1
              case Err(e) => r == Fail(e) && balances == old(balances) && ledger == old(ledger)
    {
      AdjustedKeepsLedgerBacked(opening, balances, ledger, userId, amount, kind);
      if userId !in balances {
        return Fail(WalletNotFound(userId));
      }
      var balance := balances[userId];
      if amount < 0 {
        var newBalance := balance + amount;
        if newBalance < 0 {
          return Fail(InsufficientFunds(userId));
        }
      }
      ledger := ledger + [LedgerEntry(userId, amount, kind)];
      balances := balances[userId := balance + amount];
      r := Pass;
    }
  }
}
