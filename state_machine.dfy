/**
 * The order lifecycle: a fixed table of allowed status changes and the one
 * entry point that applies a change and writes its audit row.
 */
module StateMachine {
  import opened Domain

  /**
   * The allowed-transitions table, kept as data. FILLED, REJECTED and
   * CANCELLED have no entry.
   */
  const AllowedTransitions: map<OrderStatus, set<OrderStatus>> :=
    map[PendingValidation := {Validated, Rejected},
        Validated := {Filled, Rejected}]

  /**
   * The targets allowed from `from`: the table entry, or the empty set for a
   * status without one. Exactly four (from, to) pairs are allowed.
   */
  function AllowedTargets(from: OrderStatus): (targets: set<OrderStatus>)
    ensures forall to :: to in targets <==>
              || (from == PendingValidation && (to == Validated || to == Rejected))
              || (from == Validated && (to == Filled || to == Rejected))
  {
    if from in AllowedTransitions then AllowedTransitions[from] else {}
  }

  predicate CanTransition(from: OrderStatus, to: OrderStatus)
  {
    to in AllowedTargets(from)
  }

  predicate IsTerminal(s: OrderStatus)
  {
    s == Filled || s == Rejected || s == Cancelled
  }

  /**
   * The table's shape: terminal statuses have no outgoing transition, nothing
   * enters PENDING_VALIDATION or CANCELLED, and no status loops to itself.
   */
  lemma TableShape(from: OrderStatus, to: OrderStatus)
    ensures IsTerminal(from) ==> !CanTransition(from, to)
    ensures to == PendingValidation || to == Cancelled ==> !CanTransition(from, to)
    ensures !CanTransition(from, from)
    ensures CanTransition(from, to) ==> !IsTerminal(from) && (IsTerminal(to) || to == Validated)
  {
  }

  /**
   * The effect of transition(order, target) on the order row and the audit
   * trail: a refused change leaves both alone, an allowed one sets the
   * status to exactly the target and appends exactly one audit row.
   */
  function Transitioned(o: OrderRecord, target: OrderStatus, audit: seq<OrderAuditLog>)
    : (r: Result<(OrderRecord, seq<OrderAuditLog>), TransitionError>)
    ensures r.Ok? <==> CanTransition(o.status, target)
    ensures r.Err? ==> r.error == InvalidOrderStateTransition(o.status, target)
    ensures r.Ok? ==> r.value.0 == o.(status := target)
    ensures r.Ok? ==> r.value.1 == audit + [OrderAuditLog(o.id, o.status, target)]
  {
    if target !in AllowedTargets(o.status) then
      Err(InvalidOrderStateTransition(o.status, target))
    else
      Ok((o.(status := target), audit + [OrderAuditLog(o.id, o.status, target)]))
  }

  /** A sequence of statuses in which each step is an allowed transition. */
  ghost predicate IsRun(path: seq<OrderStatus>)
  {
    |path| <= 1 || (CanTransition(path[0], path[1]) && IsRun(path[1..]))
  }

  /** The most transitions any run starting at `s` can make. */
  function StepsLeft(s: OrderStatus): nat
  {
    match s
    case PendingValidation => 2
    case Validated => 1
    case _ => 0
  }

  /** A run makes at most StepsLeft(start) transitions. */
  lemma {:induction false} RunLength(path: seq<OrderStatus>)
    requires |path| >= 1 && IsRun(path)
    ensures |path| <= StepsLeft(path[0]) + 1
  {
    if |path| >= 2 && !IsTerminal(path[0]) {
      RunLength(path[1..]);
    }
  }

  /**
   * Any run of successful transitions from PENDING_VALIDATION makes at most
   * two steps, and a run of two steps ends in FILLED or REJECTED.
   */
  lemma {:induction false} RunFromPending(path: seq<OrderStatus>)
    requires |path| >= 1 && path[0] == PendingValidation && IsRun(path)
    ensures |path| <= 3
    ensures |path| == 3 ==> path[2] == Filled || path[2] == Rejected
  {
    RunLength(path);
    if |path| == 3 {
      assert IsRun(path[1..]);
    }
  }

  /** Owner of the audit trail; its Transition is the only mutator of Order.status. */
  class OrderStateMachine {
    var auditLog: seq<OrderAuditLog>

    constructor ()
      ensures auditLog == []
    {
      auditLog := [];
    }

    /**
     * transition(order, target): refuse with InvalidOrderStateTransition and
     * change nothing, or set the status and append one audit row. No other
     * field of the order changes.
     */
    method Transition(order: Order, target: OrderStatus) returns (r: Outcome<TransitionError>)
      modifies this`auditLog, order`status
      ensures r.Pass? <==> CanTransition(old(order.status), target)
      ensures r.Fail? ==> r.error == InvalidOrderStateTransition(old(order.status), target)
      ensures r.Fail? ==> order.status == old(order.status) && auditLog == old(auditLog)
      ensures r.Pass? ==> order.status == target
      ensures r.Pass? ==> auditLog == old(auditLog) + [OrderAuditLog(order.id, old(order.status), target)]
      ensures match Transitioned(old(order.Record()), target, old(auditLog))
              case Ok(res) => r.Pass? && order.Record() == res.0 && auditLog == res.1
              case Err(e) => r == Fail(e) && order.Record() == old(order.Record())
    {
      var current := order.status;
      var allowed := AllowedTargets(current);
      if target !in allowed {
        return Fail(InvalidOrderStateTransition(current, target));
      }
      order.status := target;
      auditLog := auditLog + [OrderAuditLog(order.id, current, target)];
      r := Pass;
    }
  }
}
