/** The repositories as the program has them: methods that update rows one after
    the other.  Each is proved against the function of `Transactions` that the
    protocol takes as one step.  New row ids, and clock readings, are parameters. */
module Repositories {
  import opened Domain
  import T = Transactions
  import EventStatusPolicy

  class Database {
    var tenants: map<Id, Tenant>
    var endpoints: map<Id, Endpoint>
    var events: map<Id, Event>
    var deliveries: map<Id, Delivery>
    var outbox: map<Id, Ticket>

    constructor (tenants: map<Id, Tenant>, endpoints: map<Id, Endpoint>)
      ensures this.tenants == tenants && this.endpoints == endpoints
      ensures Contents() == Tables(map[], map[], map[])
    {
      this.tenants, this.endpoints := tenants, endpoints;
      events, deliveries, outbox := map[], map[], map[];
    }

    function Contents(): Tables
      reads this
    {
      Tables(events, deliveries, outbox)
    }

    /** The statuses of an event's deliveries, in the order the query returns them. */
    method FindStatuses(eventId: Id) returns (statuses: seq<DeliveryStatus>)
      ensures (set s | s in statuses) == T.DeliveryStatuses(Contents(), eventId)
    {
      statuses := [];
      var rest, seen := deliveries.Keys, {};
      while rest != {}
        invariant rest + seen == deliveries.Keys && rest !! seen
        invariant forall s :: s in statuses <==>
          exists d :: d in seen && deliveries[d].event == eventId && deliveries[d].status == s
        decreases |rest|
      {
        var d :| d in rest;
        if deliveries[d].event == eventId {
          statuses := statuses + [deliveries[d].status];
        }
        rest, seen := rest - {d}, seen + {d};
      }
    }

    method UpdateEventStatus(id: Id, status: EventStatus, now: int)
      modifies this`events
      ensures Contents() == T.SetEventStatus(old(Contents()), id, status, now)
    {
      if id in events {
        events := events[id := events[id].(status := status, updatedAt := now)];
      }
    }

    method CreateTicket(id: Id, deliveryId: Id, attemptNumber: nat, availableAt: int, now: int)
      modifies this`outbox
      ensures Contents() == T.AddTicket(old(Contents()), id, T.NewTicket(deliveryId, attemptNumber, availableAt, now))
    {
      outbox := outbox[id := Ticket(deliveryId, attemptNumber, availableAt, None, 0, now)];
    }
  }

  class DispatchDeliveriesRepository {
    const prisma: Database

    constructor (prisma: Database)
      ensures this.prisma == prisma
    {
      this.prisma := prisma;
    }

    method FindById(id: Id) returns (delivery: Option<Delivery>)
      ensures delivery == if id in prisma.deliveries then Some(prisma.deliveries[id]) else None
    {
      delivery := if id in prisma.deliveries then Some(prisma.deliveries[id]) else None;
    }

    method ClaimForProcessing(id: Id, expectedAttempt: nat, now: int) returns (claimed: Option<Delivery>)
      modifies prisma`events, prisma`deliveries
      ensures prisma.Contents() == T.ClaimForProcessing(old(prisma.Contents()), id, expectedAttempt, now)
      ensures claimed.Some? <==> T.CanClaim(old(prisma.Contents()), id, expectedAttempt)
      ensures claimed.Some? ==> id in prisma.deliveries && claimed.value == prisma.deliveries[id]
    {
      var count := 0;
      if id in prisma.deliveries {
        var row := prisma.deliveries[id];
        if row.attempts == expectedAttempt - 1 && row.status in {PENDING, FAILED} {
          prisma.deliveries := prisma.deliveries[id :=
            row.(status := PROCESSING, attempts := row.attempts + 1, lastAttemptAt := Some(now),
              nextAttemptAt := None)];
          count := 1;
        }
      }
      if count == 0 {
        return None;
      }
      var delivery := prisma.deliveries[id];
      prisma.UpdateEventStatus(delivery.event, EVENT_PROCESSING, now);
      return Some(delivery);
    }

    /** The statuses come in any order, but only which of them occur matters. */
    method RefreshEventStatus(eventId: Id, now: int)
      modifies prisma`events
      ensures prisma.Contents() == T.RefreshEventStatus(old(prisma.Contents()), eventId, now)
      ensures eventId in old(prisma.events) ==>
        && eventId in prisma.events && T.StatusFits(prisma.Contents(), eventId, prisma.events[eventId].status)
        && prisma.events == old(prisma.events)[eventId := old(prisma.events)[eventId].(
             status := prisma.events[eventId].status, updatedAt := now)]
      ensures eventId !in old(prisma.events) ==> prisma.events == old(prisma.events)
    {
      var statuses := prisma.FindStatuses(eventId);
      EventStatusPolicy.OrderIsIrrelevant(statuses);
      var status := EventStatusPolicy.CalculateEventStatus(statuses);
      prisma.UpdateEventStatus(eventId, status, now);
      T.PolicyFits(prisma.Contents(), eventId, status);
    }

    /** The update of a missing row throws: `found` is false. */
    method MarkTerminal(id: Id, status: DeliveryStatus, now: int) returns (found: bool)
      modifies prisma`events, prisma`deliveries
      ensures prisma.Contents() == T.MarkTerminal(old(prisma.Contents()), id, status, now)
      ensures found == (id in old(prisma.deliveries))
    {
      if id !in prisma.deliveries {
        return false;
      }
      var delivery := prisma.deliveries[id].(status := status, nextAttemptAt := None);
      prisma.deliveries := prisma.deliveries[id := delivery];
      RefreshEventStatus(delivery.event, now);
      return true;
    }

    method MarkSuccess(id: Id, now: int) returns (found: bool)
      modifies prisma`events, prisma`deliveries
      ensures prisma.Contents() == T.MarkTerminal(old(prisma.Contents()), id, SUCCESS, now)
      ensures found == (id in old(prisma.deliveries))
    {
      found := MarkTerminal(id, SUCCESS, now);
    }

    method MarkDeadLetter(id: Id, now: int) returns (found: bool)
      modifies prisma`events, prisma`deliveries
      ensures prisma.Contents() == T.MarkTerminal(old(prisma.Contents()), id, DLQ, now)
      ensures found == (id in old(prisma.deliveries))
    {
      found := MarkTerminal(id, DLQ, now);
    }

    method MarkCancelled(id: Id, now: int) returns (found: bool)
      modifies prisma`events, prisma`deliveries
      ensures prisma.Contents() == T.MarkTerminal(old(prisma.Contents()), id, CANCELLED, now)
      ensures found == (id in old(prisma.deliveries))
    {
      found := MarkTerminal(id, CANCELLED, now);
    }

    method MarkFailedAndSchedule(id: Id, nextAttemptAt: int, nextAttemptNumber: nat, ticket: Id, now: int)
        returns (found: bool)
      modifies prisma`deliveries, prisma`outbox
      ensures prisma.Contents() == T.MarkFailedAndSchedule(old(prisma.Contents()), id, nextAttemptAt,
        nextAttemptNumber, ticket, now)
      ensures found == (id in old(prisma.deliveries))
    {
      if id !in prisma.deliveries {
        return false;
      }
      prisma.deliveries := prisma.deliveries[id := prisma.deliveries[id].(status := FAILED,
        nextAttemptAt := Some(nextAttemptAt))];
      prisma.CreateTicket(ticket, id, nextAttemptNumber, nextAttemptAt, now);
      return true;
    }

    method MarkRateLimitedAndSchedule(id: Id, nextAttemptAt: int, attemptNumber: nat, ticket: Id, now: int)
        returns (found: bool)
      modifies prisma`deliveries, prisma`outbox
      ensures prisma.Contents() == T.MarkRateLimitedAndSchedule(old(prisma.Contents()), id, nextAttemptAt,
        attemptNumber, ticket, now)
      ensures found == (id in old(prisma.deliveries))
    {
      if id !in prisma.deliveries {
        return false;
      }
      prisma.deliveries := prisma.deliveries[id := prisma.deliveries[id].(status := PENDING,
        nextAttemptAt := Some(nextAttemptAt))];
      prisma.CreateTicket(ticket, id, attemptNumber, nextAttemptAt, now);
      return true;
    }
  }

  class DeliveriesRepository {
    const prisma: Database

    constructor (prisma: Database)
      ensures this.prisma == prisma
    {
      this.prisma := prisma;
    }

    /** The tenant of a delivery is its event's. */
    function TenantOf(id: Id): (tenant: Option<Id>)
      reads prisma
    {
      if id in prisma.deliveries && prisma.deliveries[id].event in prisma.events
      then Some(prisma.events[prisma.deliveries[id].event].tenant) else None
    }

    method FindById(id: Id, tenantId: Id) returns (delivery: Option<Delivery>)
      ensures delivery ==
        if id in prisma.deliveries && prisma.deliveries[id].event in prisma.events
          && prisma.events[prisma.deliveries[id].event].tenant == tenantId
        then Some(prisma.deliveries[id]) else None
    {
      delivery := if TenantOf(id) == Some(tenantId) then Some(prisma.deliveries[id]) else None;
    }

    method ResetForReplay(id: Id, ticket: Id, now: int) returns (updated: Option<Delivery>)
      modifies prisma`events, prisma`deliveries, prisma`outbox
      ensures prisma.Contents() == T.ResetForReplay(old(prisma.Contents()), id, ticket, now)
      ensures updated == if id in prisma.deliveries then Some(prisma.deliveries[id]) else None
    {
      if id !in prisma.deliveries {
        return None;
      }
      var row := prisma.deliveries[id].(status := PENDING, attempts := 0, lastAttemptAt := None,
        nextAttemptAt := Some(now));
      prisma.deliveries := prisma.deliveries[id := row];
      prisma.UpdateEventStatus(row.event, EVENT_PROCESSING, now);
      prisma.CreateTicket(ticket, id, 1, now, now);
      return Some(row);
    }
  }

  /** The events of all other tenants are unchanged, and so are their deliveries and the
      orders of these. */
  ghost predicate OthersStay(db: Tables, db': Tables, tenant: Id) {
    && (forall e :: e in db.events && db.events[e].tenant != tenant ==>
          e in db'.events && db'.events[e] == db.events[e])
    && (forall d :: OfAnother(db, d, tenant) ==> d in db'.deliveries && db'.deliveries[d] == db.deliveries[d])
    && (forall t :: t in db.outbox && OfAnother(db, db.outbox[t].delivery, tenant) ==>
          t in db'.outbox && db'.outbox[t] == db.outbox[t])
    && (forall t :: t in db'.outbox && OfAnother(db, db'.outbox[t].delivery, tenant) ==> t in db.outbox)
  }

  predicate OfAnother(db: Tables, d: Id, tenant: Id) {
    && d in db.deliveries && db.deliveries[d].event in db.events
    && db.events[db.deliveries[d].event].tenant != tenant
  }

  datatype ReplayResult = NotFound | AlreadySuccessful(row: Delivery) | Replayed(row: Delivery)

  class ReplayDelivery {
    const repository: DeliveriesRepository

    constructor (repository: DeliveriesRepository)
      ensures this.repository == repository
    {
      this.repository := repository;
    }

    /** A replay touches nothing unless the delivery belongs to the tenant and did
        not succeed; then the row starts again and a first order is created.  Whatever
        the answer, events, deliveries and orders of other tenants stay as they were. */
    method Execute(id: Id, tenantId: Id, ticket: Id, now: int) returns (result: ReplayResult)
      modifies repository.prisma
      ensures repository.prisma.tenants == old(repository.prisma.tenants)
        && repository.prisma.endpoints == old(repository.prisma.endpoints)
      ensures result.NotFound? <==>
        || id !in old(repository.prisma.deliveries)
        || old(repository.prisma.deliveries)[id].event !in old(repository.prisma.events)
        || old(repository.prisma.events)[old(repository.prisma.deliveries)[id].event].tenant != tenantId
      ensures result.AlreadySuccessful? <==>
        !result.NotFound? && old(repository.prisma.deliveries)[id].status == SUCCESS
      ensures !result.Replayed? ==> repository.prisma.Contents() == old(repository.prisma.Contents())
      ensures result.Replayed? ==>
        && repository.prisma.Contents() == T.ResetForReplay(old(repository.prisma.Contents()), id, ticket, now)
        && result.row.status.PENDING? && result.row.attempts == 0
        && ticket in repository.prisma.outbox && repository.prisma.outbox[ticket] == Ticket(id, 1, now, None, 0, now)
      ensures ticket !in old(repository.prisma.outbox) ==>
        OthersStay(old(repository.prisma.Contents()), repository.prisma.Contents(), tenantId)
    {
      var delivery := repository.FindById(id, tenantId);
      if delivery.None? {
        return NotFound;
      }
      if delivery.value.status == SUCCESS {
        return AlreadySuccessful(delivery.value);
      }
      var updated := repository.ResetForReplay(id, ticket, now);
      return Replayed(updated.value);
    }
  }
}
