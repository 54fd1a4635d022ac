/** Each database transaction of the protocol as a function on the tables.  A
    transaction whose row is missing throws and is rolled back: its function
    then returns the tables unchanged. */
module Transactions {
  import opened Domain
  import EventStatusPolicy
  import Retry

  /** Updates an event row; foreign keys guarantee that it exists. */
  function SetEventStatus(db: Tables, event: Id, status: EventStatus, now: int): Tables {
    if event in db.events then
      db.(events := db.events[event := db.events[event].(status := status, updatedAt := now)])
    else
      db
  }

  function DeliveryStatuses(db: Tables, event: Id): set<DeliveryStatus> {
    set d | d in db.deliveries && db.deliveries[d].event == event :: db.deliveries[d].status
  }

  function RefreshEventStatus(db: Tables, event: Id, now: int): Tables {
    SetEventStatus(db, event, EventStatusPolicy.StatusOf(DeliveryStatuses(db, event)), now)
  }

  /** The status that an event's deliveries call for: being processed while one of them is
      unfinished, done if all succeeded, failed if all are finished and one did not
      succeed. */
  ghost predicate StatusFits(db: Tables, e: Id, status: EventStatus) {
    && (status == EVENT_PROCESSING <==>
          exists d :: IsOf(db, d, e) && db.deliveries[d].status in {PENDING, PROCESSING, FAILED})
    && (status == EVENT_DONE <==> forall d :: IsOf(db, d, e) ==> db.deliveries[d].status == SUCCESS)
    && (status == EVENT_FAILED <==>
          && (forall d :: IsOf(db, d, e) ==> db.deliveries[d].status in {SUCCESS, DLQ, CANCELLED})
          && exists d :: IsOf(db, d, e) && db.deliveries[d].status in {DLQ, CANCELLED})
  }

  predicate IsOf(db: Tables, d: Id, e: Id) {
    d in db.deliveries && db.deliveries[d].event == e
  }

  /** The policy gives that status, and no other fits. */
  lemma PolicyFits(db: Tables, e: Id, status: EventStatus)
    ensures StatusFits(db, e, status) && status in {EVENT_PROCESSING, EVENT_DONE, EVENT_FAILED} <==>
      status == EventStatusPolicy.StatusOf(DeliveryStatuses(db, e))
  {
    var statuses := DeliveryStatuses(db, e);
    forall d | IsOf(db, d, e) ensures db.deliveries[d].status in statuses {
    }
    forall s | s in statuses ensures exists d :: IsOf(db, d, e) && db.deliveries[d].status == s {
      var d :| d in db.deliveries && db.deliveries[d].event == e && db.deliveries[d].status == s;
      assert IsOf(db, d, e);
    }
    hide DeliveryStatuses, IsOf;
  }

  function SetDelivery(db: Tables, id: Id, row: Delivery): Tables {
    db.(deliveries := db.deliveries[id := row])
  }

  function AddTicket(db: Tables, id: Id, ticket: Ticket): Tables {
    db.(outbox := db.outbox[id := ticket])
  }

  function NewTicket(delivery: Id, attemptNumber: nat, availableAt: int, now: int): Ticket {
    Ticket(delivery, attemptNumber, availableAt, None, 0, now)
  }

  /** The guard of the conditional update that every send must win. */
  predicate CanClaim(db: Tables, id: Id, expected: nat) {
    && id in db.deliveries
    && db.deliveries[id].attempts == expected - 1
    && db.deliveries[id].status.Claimable()
  }

  function ClaimForProcessing(db: Tables, id: Id, expected: nat, now: int): Tables {
    if CanClaim(db, id, expected) then
      var row := db.deliveries[id];
      SetEventStatus(
        SetDelivery(db, id, row.(status := PROCESSING, attempts := row.attempts + 1, lastAttemptAt := Some(now),
          nextAttemptAt := None)),
        row.event, EVENT_PROCESSING, now)
    else
      db
  }

  /** markSuccess, markDeadLetter and markCancelled: an unconditional move to a
      terminal status, followed by a refresh of the event. */
  function MarkTerminal(db: Tables, id: Id, status: DeliveryStatus, now: int): Tables {
    if id in db.deliveries then
      var row := db.deliveries[id];
      RefreshEventStatus(SetDelivery(db, id, row.(status := status, nextAttemptAt := None)), row.event, now)
    else
      db
  }

  function MarkFailedAndSchedule(db: Tables, id: Id, nextAt: int, nextNumber: nat, ticket: Id, now: int): Tables {
    if id in db.deliveries then
      AddTicket(
        SetDelivery(db, id, db.deliveries[id].(status := FAILED, nextAttemptAt := Some(nextAt))),
        ticket, NewTicket(id, nextNumber, nextAt, now))
    else
      db
  }

  /** The write of an attempt's outcome. */
  function Settled(db: Tables, id: Id, attempt: nat, decision: Retry.Decision, ticket: Id, now: int): Tables {
    match decision
    case Succeed => MarkTerminal(db, id, SUCCESS, now)
    case GiveUp => MarkTerminal(db, id, DLQ, now)
    case RetryAt(at) => MarkFailedAndSchedule(db, id, at, attempt + 1, ticket, now)
  }

  function MarkRateLimitedAndSchedule(db: Tables, id: Id, nextAt: int, number: nat, ticket: Id, now: int): Tables {
    if id in db.deliveries then
      AddTicket(
        SetDelivery(db, id, db.deliveries[id].(status := PENDING, nextAttemptAt := Some(nextAt))),
        ticket, NewTicket(id, number, nextAt, now))
    else
      db
  }

  /** The guard of stale recovery's conditional update.  The attempt number is
      not part of it. */
  predicate IsStale(db: Tables, id: Id, cutoff: int) {
    && id in db.deliveries
    && db.deliveries[id].status.PROCESSING?
    && db.deliveries[id].lastAttemptAt.Some?
    && db.deliveries[id].lastAttemptAt.value < cutoff
  }

  function RecoverStale(db: Tables, id: Id, attemptsRead: nat, cutoff: int, ticket: Id, now: int): Tables {
    if IsStale(db, id, cutoff) then
      AddTicket(
        SetDelivery(db, id, db.deliveries[id].(status := FAILED, nextAttemptAt := Some(now))),
        ticket, NewTicket(id, attemptsRead + 1, now, now))
    else
      db
  }

  function ResetForReplay(db: Tables, id: Id, ticket: Id, now: int): Tables {
    if id in db.deliveries then
      var row := db.deliveries[id];
      AddTicket(
        SetEventStatus(
          SetDelivery(db, id, row.(status := PENDING, attempts := 0, lastAttemptAt := None,
            nextAttemptAt := Some(now))),
          row.event, EVENT_PROCESSING, now),
        ticket, NewTicket(id, 1, now, now))
    else
      db
  }

  function MarkPublished(db: Tables, ticket: Id, now: int): Tables {
    if ticket in db.outbox then
      db.(outbox := db.outbox[ticket := db.outbox[ticket].(publishedAt := Some(now))])
    else
      db
  }

  function RecordPublishFailure(db: Tables, ticket: Id): Tables {
    if ticket in db.outbox then
      db.(outbox := db.outbox[ticket := db.outbox[ticket].(publishes := db.outbox[ticket].publishes + 1)])
    else
      db
  }

  /** Stranded recovery: the row becomes publishable again under a new counter. */
  function Reopen(db: Tables, ticket: Id): Tables {
    if ticket in db.outbox then
      db.(outbox := db.outbox[ticket := db.outbox[ticket].(publishedAt := None,
        publishes := db.outbox[ticket].publishes + 1)])
    else
      db
  }

  /** An outbox row that the clean-up deletes. */
  predicate Outdated(row: Ticket, now: int) {
    row.publishedAt.Some? && row.publishedAt.value < now - 7 * DAY_MS
  }

  function CleanupPublished(db: Tables, now: int): Tables {
    db.(outbox := map t | t in db.outbox && !Outdated(db.outbox[t], now) :: db.outbox[t])
  }

  /** An event row that retention deletes, if it is switched on. */
  predicate Expired(db: Tables, event: Id, days: nat, now: int) {
    && event in db.events
    && db.events[event].status in {EVENT_DONE, EVENT_FAILED}
    && db.events[event].updatedAt < now - days * DAY_MS
  }

  /** Retention deletes expired events; deliveries and outbox rows cascade. */
  function CleanupOldEvents(db: Tables, days: nat, now: int): Tables {
    if days == 0 then db
    else
      var kept := map d | d in db.deliveries && !Expired(db, db.deliveries[d].event, days, now) :: db.deliveries[d];
      Tables(
        map e | e in db.events && !Expired(db, e, days, now) :: db.events[e],
        kept,
        map t | t in db.outbox && db.outbox[t].delivery in kept :: db.outbox[t])
  }
}
