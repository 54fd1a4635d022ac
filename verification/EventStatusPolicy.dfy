/** The specification of an event's cached status: a fold over the statuses of
    its deliveries. */
module EventStatusPolicy {
  import opened Domain

  function CalculateEventStatus(statuses: seq<DeliveryStatus>): EventStatus {
    var unfinished := exists s :: s in statuses && s in {PENDING, PROCESSING, FAILED};
    if unfinished then
      EVENT_PROCESSING
    else
      var hasTerminalFailure := exists s :: s in statuses && s in {DLQ, CANCELLED};
      if hasTerminalFailure then EVENT_FAILED else EVENT_DONE
  }

  /** The same fold on the set of statuses that occur. */
  function StatusOf(statuses: set<DeliveryStatus>): EventStatus {
    if PENDING in statuses || PROCESSING in statuses || FAILED in statuses then EVENT_PROCESSING
    else if DLQ in statuses || CANCELLED in statuses then EVENT_FAILED
    else EVENT_DONE
  }

  /** Only which statuses occur matters, not their order or number, so the
      unordered query result the repository folds over determines the status. */
  lemma OrderIsIrrelevant(statuses: seq<DeliveryStatus>)
    ensures CalculateEventStatus(statuses) == StatusOf(set s | s in statuses)
  {
    var ss := set s | s in statuses;
    assert forall s :: s in ss <==> s in statuses;
    if PENDING in ss || PROCESSING in ss || FAILED in ss {
      assert exists s :: s in statuses && s in {PENDING, PROCESSING, FAILED};
    } else if DLQ in ss || CANCELLED in ss {
      assert exists s :: s in statuses && s in {DLQ, CANCELLED};
    }
  }
}
