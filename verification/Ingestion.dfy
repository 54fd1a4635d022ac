/** Accepting events: one event per tenant and idempotency key, and one delivery
    with one first order for each endpoint subscribed to its type. */
module Ingestion {
  import opened Domain
  import T = Transactions
  import P = Protocol
  import opened Repositories
  import opened Publishing

  /** A request, with the ids that its rows will get if it is accepted. */
  datatype Request = Request(
    tenant: Id,
    key: string,
    eventType: string,
    event: Id,
    deliveryIds: seq<Id>,
    ticketIds: seq<Id>,
    now: int)

  datatype CreateResult = TenantNotFound | UniqueViolation | Created(event: Id, deliveryIds: seq<Id>)

  datatype IngestResult = Accepted(event: Id, deliveriesCreated: nat) | AlreadyAccepted(key: string) | NoTenant

  // ---------------------------------------------------------------- effect on the tables

  predicate Subscribed(endpoint: Endpoint, eventType: string) {
    eventType in endpoint.eventTypes || "*" in endpoint.eventTypes
  }

  function Subscribers(endpoints: map<Id, Endpoint>, tenant: Id, eventType: string): set<Id> {
    set e | e in endpoints && endpoints[e].tenant == tenant && endpoints[e].isActive
      && Subscribed(endpoints[e], eventType)
  }

  /** The endpoints as the query lists them: each once, in any order. */
  ghost predicate IsListing(listed: seq<Id>, endpoints: map<Id, Endpoint>, tenant: Id, eventType: string) {
    P.Distinct(listed) && (set e | e in listed) == Subscribers(endpoints, tenant, eventType)
  }

  predicate HasKey(events: map<Id, Event>, tenant: Id, key: string) {
    exists e :: e in events && events[e].tenant == tenant && events[e].key == key
  }

  predicate EnoughIds(r: Request, n: nat) {
    n <= |r.deliveryIds| && n <= |r.ticketIds|
  }

  /** New ids are random: distinct, and not in any table. */
  predicate FreshIds(db: Tables, r: Request) {
    && r.event !in db.events
    && P.Distinct(r.deliveryIds) && P.Distinct(r.ticketIds)
    && (forall d :: d in r.deliveryIds ==> d !in db.deliveries)
    && (forall t :: t in r.ticketIds ==> t !in db.outbox)
  }

  function WithDeliveries(rows: map<Id, Delivery>, event: Id, ids: seq<Id>, listed: seq<Id>): map<Id, Delivery>
    requires |listed| <= |ids|
  {
    if listed == [] then rows
    else
      var n := |listed| - 1;
      WithDeliveries(rows, event, ids, listed[..n])[ids[n] := P.NewDelivery(event, listed[n])]
  }

  function WithTickets(rows: map<Id, Ticket>, ids: seq<Id>, deliveryIds: seq<Id>, n: nat, now: int): map<Id, Ticket>
    requires n <= |ids| && n <= |deliveryIds|
  {
    if n == 0 then rows
    else WithTickets(rows, ids, deliveryIds, n - 1, now)[ids[n - 1] := T.NewTicket(deliveryIds[n - 1], 1, now, now)]
  }

  function EventRow(r: Request, listed: seq<Id>): Event {
    Event(r.tenant, r.key, r.eventType, if |listed| == 0 then NO_SUBSCRIBERS else EVENT_PENDING, r.now)
  }

  function Accept(db: Tables, r: Request, listed: seq<Id>): Tables
    requires EnoughIds(r, |listed|)
  {
    Tables(
      db.events[r.event := EventRow(r, listed)],
      WithDeliveries(db.deliveries, r.event, r.deliveryIds, listed),
      WithTickets(db.outbox, r.ticketIds, r.deliveryIds, |listed|, r.now))
  }

  // ---------------------------------------------------------------- the repository

  class EventsRepository {
    const prisma: Database

    constructor (prisma: Database)
      ensures this.prisma == prisma
    {
      this.prisma := prisma;
    }

    /** The active endpoints of the tenant that are subscribed to the type or to
        everything, each once. */
    method FindSubscribers(tenantId: Id, eventType: string) returns (listed: seq<Id>)
      ensures IsListing(listed, prisma.endpoints, tenantId, eventType)
      ensures forall i, j :: 0 <= i < j < |listed| ==> listed[i] != listed[j]
      ensures forall e :: e in listed <==>
        && e in prisma.endpoints && prisma.endpoints[e].tenant == tenantId && prisma.endpoints[e].isActive
        && (eventType in prisma.endpoints[e].eventTypes || "*" in prisma.endpoints[e].eventTypes)
    {
      listed := [];
      var rest, seen := prisma.endpoints.Keys, {};
      while rest != {}
        invariant rest + seen == prisma.endpoints.Keys && rest !! seen
        invariant P.Distinct(listed)
        invariant forall e :: e in listed <==> e in seen && e in Subscribers(prisma.endpoints, tenantId, eventType)
        decreases |rest|
      {
        var e :| e in rest;
        var endpoint := prisma.endpoints[e];
        if endpoint.tenant == tenantId && endpoint.isActive
            && (eventType in endpoint.eventTypes || "*" in endpoint.eventTypes) {
          listed := listed + [e];
        }
        rest, seen := rest - {e}, seen + {e};
      }
    }

    /** Accepts a request of a known tenant whose key is new, and then creates one
        delivery and one order for each listed endpoint; otherwise nothing changes. */
    method CreateForTenant(r: Request) returns (result: CreateResult, listed: seq<Id>)
      requires EnoughIds(r, |prisma.endpoints|)
      modifies prisma`events, prisma`deliveries, prisma`outbox
      ensures result.TenantNotFound? <==> r.tenant !in prisma.tenants
      ensures result.UniqueViolation? <==>
        && r.tenant in prisma.tenants
        && exists e :: e in old(prisma.events)
             && old(prisma.events)[e].tenant == r.tenant && old(prisma.events)[e].key == r.key
      ensures !result.Created? ==> prisma.Contents() == old(prisma.Contents())
      ensures result.Created? ==>
        && IsListing(listed, prisma.endpoints, r.tenant, r.eventType) && EnoughIds(r, |listed|)
        && result == Created(r.event, r.deliveryIds[..|listed|])
        && prisma.Contents() == Accept(old(prisma.Contents()), r, listed)
    {
      listed := [];
      if r.tenant !in prisma.tenants {
        return TenantNotFound, listed;
      }
      listed := FindSubscribers(r.tenant, r.eventType);
      ListingFits(listed, prisma.endpoints, r.tenant, r.eventType);
      hide IsListing, Subscribers, FreshIds;
      if exists e :: e in prisma.events && prisma.events[e].tenant == r.tenant && prisma.events[e].key == r.key {
        return UniqueViolation, listed;
      }
      var status := if |listed| == 0 then NO_SUBSCRIBERS else EVENT_PENDING;
      prisma.events := prisma.events[r.event := Event(r.tenant, r.key, r.eventType, status, r.now)];
      for i := 0 to |listed|
        invariant prisma.events == old(prisma.events)[r.event := EventRow(r, listed)]
          && prisma.outbox == old(prisma.outbox)
        invariant prisma.deliveries == WithDeliveries(old(prisma.deliveries), r.event, r.deliveryIds, listed[..i])
      {
        assert listed[..i + 1][..i] == listed[..i];
        prisma.deliveries := prisma.deliveries[r.deliveryIds[i] := Delivery(r.event, listed[i], PENDING, 0, None,
          None)];
      }
      assert listed[..|listed|] == listed;
      for i := 0 to |listed|
        invariant prisma.events == old(prisma.events)[r.event := EventRow(r, listed)]
        invariant prisma.deliveries == WithDeliveries(old(prisma.deliveries), r.event, r.deliveryIds, listed)
        invariant prisma.outbox == WithTickets(old(prisma.outbox), r.ticketIds, r.deliveryIds, i, r.now)
      {
        prisma.CreateTicket(r.ticketIds[i], r.deliveryIds[i], 1, r.now, r.now);
      }
      return Created(r.event, r.deliveryIds[..|listed|]), listed;
    }
  }

  lemma ListingFits(listed: seq<Id>, endpoints: map<Id, Endpoint>, tenant: Id, eventType: string)
    requires IsListing(listed, endpoints, tenant, eventType)
    ensures |listed| <= |endpoints|
  {
    SetOfDistinct(listed);
    Smaller(Subscribers(endpoints, tenant, eventType), endpoints.Keys);
    assert |endpoints.Keys| == |endpoints|;
  }

  // ---------------------------------------------------------------- the use case

  class IngestEvent {
    const repository: EventsRepository
    const deliveryQueue: DeliveryOutboxPublisher

    constructor (repository: EventsRepository, deliveryQueue: DeliveryOutboxPublisher)
      ensures this.repository == repository && this.deliveryQueue == deliveryQueue
    {
      this.repository, this.deliveryQueue := repository, deliveryQueue;
    }

    /** The answer depends on the request and the tables alone: the rows are created
        first (`created`), and a failure of the publication that follows (`thrown`) is
        tolerated.  Without an accepted event nothing is published. */
    method Execute(r: Request, call: Call)
        returns (result: IngestResult, listed: seq<Id>, thrown: bool, ghost created: Tables)
      requires EnoughIds(r, |repository.prisma.endpoints|) && |call.tickets| >= 100
      requires deliveryQueue.prisma == repository.prisma
      requires deliveryQueue.maintenance.prisma == repository.prisma
        && deliveryQueue.maintenance.deliveryQueue == deliveryQueue.deliveryQueue
      modifies deliveryQueue, deliveryQueue.deliveryQueue, repository.prisma`events, repository.prisma`deliveries,
        repository.prisma`outbox
      ensures result.NoTenant? <==> r.tenant !in old(repository.prisma.tenants)
      ensures result.AlreadyAccepted? <==>
        && r.tenant in old(repository.prisma.tenants)
        && exists e :: e in old(repository.prisma.events)
             && old(repository.prisma.events)[e].tenant == r.tenant && old(repository.prisma.events)[e].key == r.key
      ensures !result.Accepted? ==>
        && repository.prisma.Contents() == old(repository.prisma.Contents())
        && deliveryQueue.deliveryQueue.jobs == old(deliveryQueue.deliveryQueue.jobs)
             && deliveryQueue.publishing == old(deliveryQueue.publishing)
      ensures result.Accepted? ==>
        && IsListing(listed, repository.prisma.endpoints, r.tenant, r.eventType) && EnoughIds(r, |listed|)
        && result == Accepted(r.event, |listed|)
        && created == Accept(old(repository.prisma.Contents()), r, listed)
        && deliveryQueue.publishing == old(deliveryQueue.publishing)
      ensures result.Accepted? && old(deliveryQueue.publishing) ==>
        && repository.prisma.Contents() == created
             && deliveryQueue.deliveryQueue.jobs == old(deliveryQueue.deliveryQueue.jobs)
      ensures result.Accepted? && !old(deliveryQueue.publishing) ==>
        exists failed, before, ids ::
          Called(deliveryQueue.maintenance.config, old(deliveryQueue.lastMaintenanceAt), created,
                 old(deliveryQueue.deliveryQueue.jobs), call, failed, before, ids, thrown,
                 deliveryQueue.lastMaintenanceAt, repository.prisma.Contents(), deliveryQueue.deliveryQueue.jobs)
      ensures thrown ==> result.Accepted? && (call.fault.Some? || call.stop.Some?)
    {
      var outcome;
      thrown := false;
      outcome, listed := repository.CreateForTenant(r);
      created := repository.prisma.Contents();
      match outcome
      case UniqueViolation => return AlreadyAccepted(r.key), listed, false, created;
      case TenantNotFound => return NoTenant, listed, false, created;
      case Created(event, deliveryIds) =>
        var ids;
        ghost var failed, before;
        ids, thrown, failed, before := deliveryQueue.PublishPending(call);
        return Accepted(event, |deliveryIds|), listed, thrown, created;
    }
  }

  // ---------------------------------------------------------------- one accepted request

  predicate Among(x: Id, ids: seq<Id>, n: nat) {
    exists k :: 0 <= k < n && k < |ids| && ids[k] == x
  }

  predicate DeliveryAt(rows: map<Id, Delivery>, event: Id, ids: seq<Id>, listed: seq<Id>, k: nat)
    requires k < |ids| && k < |listed|
  {
    ids[k] in rows && rows[ids[k]] == Delivery(event, listed[k], PENDING, 0, None, None)
  }

  predicate OrderAt(rows: map<Id, Ticket>, ids: seq<Id>, deliveryIds: seq<Id>, now: int, k: nat)
    requires k < |ids| && k < |deliveryIds|
  {
    ids[k] in rows && rows[ids[k]] == Ticket(deliveryIds[k], 1, now, None, 0, now)
  }

  /** Exactly one delivery of the event for each listed endpoint. */
  ghost predicate DeliveriesExact(db: Tables, r: Request, listed: seq<Id>) {
    && |listed| <= |r.deliveryIds|
    && (forall d :: d in db.deliveries && db.deliveries[d].event == r.event ==> Among(d, r.deliveryIds, |listed|))
    && (forall k :: 0 <= k < |listed| ==> DeliveryAt(db.deliveries, r.event, r.deliveryIds, listed, k))
  }

  /** Exactly one order for each of these deliveries, for attempt 1 and due at once. */
  ghost predicate OrdersExact(db: Tables, r: Request, listed: seq<Id>) {
    && EnoughIds(r, |listed|)
    && (forall t :: t in db.outbox && Among(db.outbox[t].delivery, r.deliveryIds, |listed|) ==>
         Among(t, r.ticketIds, |listed|))
    && (forall k :: 0 <= k < |listed| ==> OrderAt(db.outbox, r.ticketIds, r.deliveryIds, r.now, k))
  }

  ghost predicate FanIsExact(db: Tables, r: Request, listed: seq<Id>) {
    && r.event in db.events
    && db.events[r.event]
         == Event(r.tenant, r.key, r.eventType, if listed == [] then NO_SUBSCRIBERS else EVENT_PENDING, r.now)
    && DeliveriesExact(db, r, listed)
    && OrdersExact(db, r, listed)
  }

  ghost predicate KeysUnique(events: map<Id, Event>) {
    forall e, f :: (e in events && f in events && events[e].tenant == events[f].tenant
      && events[e].key == events[f].key) ==> e == f
  }

  /** Foreign keys, and the unique index on tenant and idempotency key. */
  ghost predicate Linked(db: Tables) {
    && (forall d :: d in db.deliveries ==> db.deliveries[d].event in db.events)
    && (forall t :: t in db.outbox ==> db.outbox[t].delivery in db.deliveries)
    && KeysUnique(db.events)
  }

  ghost predicate AddsDeliveries(rows: map<Id, Delivery>, after: map<Id, Delivery>, event: Id, ids: seq<Id>,
      listed: seq<Id>)
    requires |listed| <= |ids|
  {
    && (forall d :: d in after ==> d in rows || Among(d, ids, |listed|))
    && (forall d :: d in rows ==> d in after && after[d] == rows[d])
    && (forall d :: Among(d, ids, |listed|) ==> d !in rows)
    && (forall k :: 0 <= k < |listed| ==> DeliveryAt(after, event, ids, listed, k))
  }

  ghost predicate AddsTickets(rows: map<Id, Ticket>, after: map<Id, Ticket>, ids: seq<Id>, deliveryIds: seq<Id>,
      n: nat, now: int)
    requires n <= |ids| && n <= |deliveryIds|
  {
    && (forall t :: t in after ==> t in rows || Among(t, ids, n))
    && (forall t :: t in rows ==> t in after && after[t] == rows[t])
    && (forall t :: Among(t, ids, n) ==> t !in rows)
    && (forall k :: 0 <= k < n ==> OrderAt(after, ids, deliveryIds, now, k))
  }

  lemma AmongGrows(ids: seq<Id>, n: nat)
    requires n < |ids|
    ensures forall x :: Among(x, ids, n + 1) <==> Among(x, ids, n) || x == ids[n]
    ensures P.Distinct(ids) ==> !Among(ids[n], ids, n)
  {
    assert Among(ids[n], ids, n + 1);
  }

  lemma AddDelivery(rows: map<Id, Delivery>, mid: map<Id, Delivery>, event: Id, ids: seq<Id>, listed: seq<Id>)
    requires 0 < |listed| <= |ids| && P.Distinct(ids) && ids[|listed| - 1] !in rows
    requires AddsDeliveries(rows, mid, event, ids, listed[..|listed| - 1])
    ensures var n := |listed| - 1;
      AddsDeliveries(rows, mid[ids[n] := P.NewDelivery(event, listed[n])], event, ids, listed)
  {
    var n := |listed| - 1;
    var after := mid[ids[n] := P.NewDelivery(event, listed[n])];
    AmongGrows(ids, n);
    hide Among;
    forall k | 0 <= k < |listed| ensures DeliveryAt(after, event, ids, listed, k) {
      if k < n {
        assert DeliveryAt(mid, event, ids, listed[..n], k);
      }
    }
  }

  lemma {:induction false} DeliveriesAfter(rows: map<Id, Delivery>, event: Id, ids: seq<Id>, listed: seq<Id>)
    requires |listed| <= |ids| && P.Distinct(ids) && forall d :: d in ids ==> d !in rows
    ensures AddsDeliveries(rows, WithDeliveries(rows, event, ids, listed), event, ids, listed)
  {
    if listed != [] {
      var n := |listed| - 1;
      hide AddsDeliveries, P.Distinct;
      DeliveriesAfter(rows, event, ids, listed[..n]);
      assert ids[n] in ids;
      AddDelivery(rows, WithDeliveries(rows, event, ids, listed[..n]), event, ids, listed);
    }
  }

  lemma AddOrder(rows: map<Id, Ticket>, mid: map<Id, Ticket>, ids: seq<Id>, deliveryIds: seq<Id>, n: nat, now: int)
    requires n < |ids| && n < |deliveryIds| && P.Distinct(ids) && ids[n] !in rows
    requires AddsTickets(rows, mid, ids, deliveryIds, n, now)
    ensures AddsTickets(rows, mid[ids[n] := T.NewTicket(deliveryIds[n], 1, now, now)], ids, deliveryIds, n + 1, now)
  {
    var after := mid[ids[n] := T.NewTicket(deliveryIds[n], 1, now, now)];
    AmongGrows(ids, n);
    hide Among;
    forall k | 0 <= k < n + 1 ensures OrderAt(after, ids, deliveryIds, now, k) {
      if k < n {
        assert OrderAt(mid, ids, deliveryIds, now, k);
      }
    }
  }

  lemma {:induction false} TicketsAfter(rows: map<Id, Ticket>, ids: seq<Id>, deliveryIds: seq<Id>, n: nat, now: int)
    requires n <= |ids| && n <= |deliveryIds| && P.Distinct(ids) && forall t :: t in ids ==> t !in rows
    ensures AddsTickets(rows, WithTickets(rows, ids, deliveryIds, n, now), ids, deliveryIds, n, now)
  {
    if n > 0 {
      hide AddsTickets, P.Distinct;
      TicketsAfter(rows, ids, deliveryIds, n - 1, now);
      assert ids[n - 1] in ids;
      AddOrder(rows, WithTickets(rows, ids, deliveryIds, n - 1, now), ids, deliveryIds, n - 1, now);
    }
  }

  /** What accepting a request adds to the tables. */
  ghost predicate Adds(db: Tables, after: Tables, r: Request, listed: seq<Id>)
    requires EnoughIds(r, |listed|)
  {
    && r.event !in db.events
    && after.events == db.events[r.event := EventRow(r, listed)]
    && AddsDeliveries(db.deliveries, after.deliveries, r.event, r.deliveryIds, listed)
    && AddsTickets(db.outbox, after.outbox, r.ticketIds, r.deliveryIds, |listed|, r.now)
  }

  lemma AcceptAdds(db: Tables, r: Request, listed: seq<Id>)
    requires FreshIds(db, r) && EnoughIds(r, |listed|)
    ensures Adds(db, Accept(db, r, listed), r, listed)
  {
    DeliveriesAfter(db.deliveries, r.event, r.deliveryIds, listed);
    TicketsAfter(db.outbox, r.ticketIds, r.deliveryIds, |listed|, r.now);
    hide WithDeliveries, WithTickets, AddsDeliveries, AddsTickets;
  }

  /** New rows belong to the new event, and to the new deliveries. */
  lemma NewRowsOf(db: Tables, after: Tables, r: Request, listed: seq<Id>)
    requires EnoughIds(r, |listed|) && Adds(db, after, r, listed)
    ensures forall d :: Among(d, r.deliveryIds, |listed|) ==>
      d in after.deliveries && d !in db.deliveries && after.deliveries[d].event == r.event
    ensures forall t :: Among(t, r.ticketIds, |listed|) ==>
      t in after.outbox && t !in db.outbox && Among(after.outbox[t].delivery, r.deliveryIds, |listed|)
  {
    var n := |listed|;
    forall d | Among(d, r.deliveryIds, n) ensures d in after.deliveries && after.deliveries[d].event == r.event {
      var k :| 0 <= k < n && r.deliveryIds[k] == d;
      assert DeliveryAt(after.deliveries, r.event, r.deliveryIds, listed, k);
    }
    forall t | Among(t, r.ticketIds, n) ensures t in after.outbox && Among(after.outbox[t].delivery, r.deliveryIds, n) {
      var k :| 0 <= k < n && r.ticketIds[k] == t;
      assert OrderAt(after.outbox, r.ticketIds, r.deliveryIds, r.now, k);
      assert Among(r.deliveryIds[k], r.deliveryIds, n);
    }
  }

  lemma AddsFan(db: Tables, after: Tables, r: Request, listed: seq<Id>)
    requires Linked(db) && EnoughIds(r, |listed|) && Adds(db, after, r, listed)
    ensures FanIsExact(after, r, listed)
  {
    NewRowsOf(db, after, r, listed);
    hide Among, KeysUnique, DeliveryAt, OrderAt;
  }

  lemma AddsLinked(db: Tables, after: Tables, r: Request, listed: seq<Id>)
    requires Linked(db) && EnoughIds(r, |listed|) && Adds(db, after, r, listed) && !HasKey(db.events, r.tenant, r.key)
    ensures Linked(after)
  {
    NewRowsOf(db, after, r, listed);
    hide Among, DeliveryAt, OrderAt;
  }

  /** A later accepted request leaves the fan-out of an earlier one alone. */
  lemma AddsKeepFan(db: Tables, after: Tables, r: Request, listed: seq<Id>, first: Request, firstListed: seq<Id>)
    requires Linked(db) && EnoughIds(r, |listed|) && Adds(db, after, r, listed) && FanIsExact(db, first, firstListed)
    ensures FanIsExact(after, first, firstListed)
  {
    NewRowsOf(db, after, r, listed);
    OldIds(db, first, firstListed);
    SameAt(db, after, first, firstListed);
    hide Among, KeysUnique, DeliveryAt, OrderAt;
  }

  lemma OldIds(db: Tables, r: Request, listed: seq<Id>)
    requires DeliveriesExact(db, r, listed)
    ensures forall d :: Among(d, r.deliveryIds, |listed|) ==> d in db.deliveries
  {
    forall d | Among(d, r.deliveryIds, |listed|) ensures d in db.deliveries {
      var k :| 0 <= k < |listed| && r.deliveryIds[k] == d;
      assert DeliveryAt(db.deliveries, r.event, r.deliveryIds, listed, k);
    }
  }

  lemma SameAt(db: Tables, after: Tables, r: Request, listed: seq<Id>)
    requires EnoughIds(r, |listed|)
    requires forall d :: d in db.deliveries ==> d in after.deliveries && after.deliveries[d] == db.deliveries[d]
    requires forall t :: t in db.outbox ==> t in after.outbox && after.outbox[t] == db.outbox[t]
    ensures forall k :: 0 <= k < |listed| && DeliveryAt(db.deliveries, r.event, r.deliveryIds, listed, k) ==>
      DeliveryAt(after.deliveries, r.event, r.deliveryIds, listed, k)
    ensures forall k :: 0 <= k < |listed| && OrderAt(db.outbox, r.ticketIds, r.deliveryIds, r.now, k) ==>
      OrderAt(after.outbox, r.ticketIds, r.deliveryIds, r.now, k)
  {
  }

  // ---------------------------------------------------------------- sequences of requests

  /** A request with the tenants and endpoints of its time, and the listing that its
      query returned. */
  datatype Arrival = Arrival(r: Request, tenants: set<Id>, endpoints: map<Id, Endpoint>, listed: seq<Id>)

  predicate IsAccepted(db: Tables, a: Arrival) {
    a.r.tenant in a.tenants && !HasKey(db.events, a.r.tenant, a.r.key)
  }

  function Handle(db: Tables, a: Arrival): Tables
    requires EnoughIds(a.r, |a.listed|)
  {
    if IsAccepted(db, a) then Accept(db, a.r, a.listed) else db
  }

  predicate AllEnough(arrivals: seq<Arrival>) {
    forall i :: 0 <= i < |arrivals| ==> EnoughIds(arrivals[i].r, |arrivals[i].listed|)
  }

  function TablesAfter(arrivals: seq<Arrival>): Tables
    requires AllEnough(arrivals)
  {
    if arrivals == [] then Tables(map[], map[], map[])
    else Handle(TablesAfter(arrivals[..|arrivals| - 1]), arrivals[|arrivals| - 1])
  }

  /** Every request got fresh ids, and its query listed the subscribers of its time. */
  ghost predicate Proper(arrivals: seq<Arrival>) {
    && AllEnough(arrivals)
    && forall i :: 0 <= i < |arrivals| ==>
         && FreshIds(TablesAfter(arrivals[..i]), arrivals[i].r)
         && IsListing(arrivals[i].listed, arrivals[i].endpoints, arrivals[i].r.tenant, arrivals[i].r.eventType)
  }

  ghost predicate AcceptedAt(arrivals: seq<Arrival>, i: nat)
    requires AllEnough(arrivals) && i < |arrivals|
  {
    IsAccepted(TablesAfter(arrivals[..i]), arrivals[i])
  }

  lemma ProperPrefix(arrivals: seq<Arrival>, n: nat)
    requires Proper(arrivals) && n <= |arrivals|
    ensures Proper(arrivals[..n])
  {
    forall i | 0 <= i < n
      ensures FreshIds(TablesAfter(arrivals[..n][..i]), arrivals[..n][i].r)
      ensures IsListing(arrivals[..n][i].listed, arrivals[..n][i].endpoints, arrivals[..n][i].r.tenant,
        arrivals[..n][i].r.eventType)
    {
      assert arrivals[..n][..i] == arrivals[..i];
    }
  }

  lemma {:induction false} AlwaysLinked(arrivals: seq<Arrival>)
    requires Proper(arrivals)
    ensures Linked(TablesAfter(arrivals))
  {
    if arrivals != [] {
      var n := |arrivals| - 1;
      ProperPrefix(arrivals, n);
      AlwaysLinked(arrivals[..n]);
      if AcceptedAt(arrivals, n) {
        var db, a := TablesAfter(arrivals[..n]), arrivals[n];
        AcceptAdds(db, a.r, a.listed);
        AddsLinked(db, Accept(db, a.r, a.listed), a.r, a.listed);
      }
    }
  }

  ghost predicate KeyAt(arrivals: seq<Arrival>, i: nat, tenant: Id, key: string)
    requires AllEnough(arrivals) && i < |arrivals|
  {
    AcceptedAt(arrivals, i) && arrivals[i].r.tenant == tenant && arrivals[i].r.key == key
  }

  /** Some accepted request had this tenant and key. */
  ghost predicate KeyAccepted(arrivals: seq<Arrival>, tenant: Id, key: string)
    requires AllEnough(arrivals)
  {
    exists i :: 0 <= i < |arrivals| && KeyAt(arrivals, i, tenant, key)
  }

  lemma SamePrefix(arrivals: seq<Arrival>, n: nat, i: nat)
    requires AllEnough(arrivals) && i < n <= |arrivals|
    ensures AllEnough(arrivals[..n]) && AcceptedAt(arrivals[..n], i) == AcceptedAt(arrivals, i)
      && arrivals[..n][i] == arrivals[i]
    ensures forall tenant, key :: KeyAt(arrivals[..n], i, tenant, key) == KeyAt(arrivals, i, tenant, key)
  {
    assert arrivals[..n][..i] == arrivals[..i];
  }

  lemma KeyAcceptedGrows(arrivals: seq<Arrival>, tenant: Id, key: string)
    requires AllEnough(arrivals) && |arrivals| > 0
    ensures var n := |arrivals| - 1;
      && AllEnough(arrivals[..n])
      && (KeyAccepted(arrivals, tenant, key) <==>
           KeyAccepted(arrivals[..n], tenant, key) || KeyAt(arrivals, n, tenant, key))
  {
    var n := |arrivals| - 1;
    forall i | 0 <= i < n ensures KeyAt(arrivals[..n], i, tenant, key) == KeyAt(arrivals, i, tenant, key) {
      SamePrefix(arrivals, n, i);
    }
    hide KeyAt;
    if KeyAccepted(arrivals[..n], tenant, key) {
      var i :| 0 <= i < n && KeyAt(arrivals[..n], i, tenant, key);
      assert KeyAt(arrivals, i, tenant, key);
    }
    if i :| 0 <= i < n && KeyAt(arrivals, i, tenant, key) {
      assert KeyAt(arrivals[..n], i, tenant, key);
    }
  }

  lemma KeyAdded(events: map<Id, Event>, id: Id, row: Event, tenant: Id, key: string)
    requires id !in events
    ensures HasKey(events[id := row], tenant, key) <==>
      HasKey(events, tenant, key) || (row.tenant == tenant && row.key == key)
  {
    var after := events[id := row];
    if e :| e in events && events[e].tenant == tenant && events[e].key == key {
      assert e in after && after[e] == events[e];
    }
    if row.tenant == tenant && row.key == key {
      assert id in after && after[id] == row;
    }
  }

  /** The keys taken are those of the accepted requests. */
  lemma {:induction false} KeysAreAccepted(arrivals: seq<Arrival>, tenant: Id, key: string)
    requires Proper(arrivals)
    ensures HasKey(TablesAfter(arrivals).events, tenant, key) <==> KeyAccepted(arrivals, tenant, key)
  {
    if arrivals != [] {
      var n := |arrivals| - 1;
      var db, a := TablesAfter(arrivals[..n]), arrivals[n];
      ProperPrefix(arrivals, n);
      KeysAreAccepted(arrivals[..n], tenant, key);
      KeyAcceptedGrows(arrivals, tenant, key);
      KeyAdded(db.events, a.r.event, EventRow(a.r, a.listed), tenant, key);
      hide IsListing, WithDeliveries, WithTickets, KeyAccepted, HasKey;
    }
  }

  /** Ingest is idempotent with exact fan-out, over any sequence of requests while
      subscriptions come and go: a request of a known tenant is accepted exactly when
      no earlier one with its tenant and key was; every other request changes nothing;
      and every accepted request has exactly one event, and in the end still exactly
      one delivery with one first order for each endpoint that was active and
      subscribed to its type or to everything. */
  lemma {:induction false} IngestIsIdempotent(arrivals: seq<Arrival>, i: nat)
    requires Proper(arrivals) && i < |arrivals|
    ensures var a := arrivals[i];
      && (AcceptedAt(arrivals, i) <==>
            a.r.tenant in a.tenants && forall j :: 0 <= j < i ==> !KeyAt(arrivals, j, a.r.tenant, a.r.key))
      && (!AcceptedAt(arrivals, i) ==> TablesAfter(arrivals[..i + 1]) == TablesAfter(arrivals[..i]))
      && (AcceptedAt(arrivals, i) ==> FanIsExact(TablesAfter(arrivals), a.r, a.listed))
  {
    ProperPrefix(arrivals, i);
    KeysAreAccepted(arrivals[..i], arrivals[i].r.tenant, arrivals[i].r.key);
    forall j | 0 <= j < i ensures KeyAt(arrivals[..i], j, arrivals[i].r.tenant, arrivals[i].r.key)
      == KeyAt(arrivals, j, arrivals[i].r.tenant, arrivals[i].r.key) {
      SamePrefix(arrivals, i, j);
    }
    assert arrivals[..i + 1][..i] == arrivals[..i];
    if AcceptedAt(arrivals, i) {
      FanStays(arrivals, i, |arrivals|);
      assert arrivals[..|arrivals|] == arrivals;
    }
  }

  lemma {:induction false} FanStays(arrivals: seq<Arrival>, i: nat, n: nat)
    requires Proper(arrivals) && i < n <= |arrivals| && AllEnough(arrivals) && AcceptedAt(arrivals, i)
    ensures AllEnough(arrivals[..n]) && FanIsExact(TablesAfter(arrivals[..n]), arrivals[i].r, arrivals[i].listed)
  {
    hide *;
    var last := n - 1;
    StepFacts(arrivals, last);
    var db, a := TablesAfter(arrivals[..last]), arrivals[last];
    if AcceptedAt(arrivals, last) {
      AcceptAdds(db, a.r, a.listed);
    }
    if last == i {
      AddsFan(db, Accept(db, a.r, a.listed), a.r, a.listed);
    } else {
      FanStays(arrivals, i, last);
      if AcceptedAt(arrivals, last) {
        AddsKeepFan(db, Accept(db, a.r, a.listed), a.r, a.listed, arrivals[i].r, arrivals[i].listed);
      }
    }
  }

  lemma StepFacts(arrivals: seq<Arrival>, i: nat)
    requires Proper(arrivals) && i < |arrivals|
    ensures AllEnough(arrivals) && AllEnough(arrivals[..i]) && AllEnough(arrivals[..i + 1])
    ensures var db, a := TablesAfter(arrivals[..i]), arrivals[i];
      && Linked(db) && FreshIds(db, a.r) && EnoughIds(a.r, |a.listed|)
      && TablesAfter(arrivals[..i + 1]) == if AcceptedAt(arrivals, i) then Accept(db, a.r, a.listed) else db
  {
    ProperPrefix(arrivals, i);
    AlwaysLinked(arrivals[..i]);
    assert arrivals[..i + 1][..i] == arrivals[..i];
    hide Linked, FreshIds, IsListing, Accept, IsAccepted;
  }

  /** What an exact fan-out means for an endpoint: it has a delivery of the event if
      and only if it was active and subscribed ... */
  lemma OnlySubscribers(db: Tables, a: Arrival, e: Id)
    requires FanIsExact(db, a.r, a.listed) && IsListing(a.listed, a.endpoints, a.r.tenant, a.r.eventType)
    ensures (exists d :: d in db.deliveries && db.deliveries[d].event == a.r.event && db.deliveries[d].endpoint == e)
      <==>
      (&& e in a.endpoints && a.endpoints[e].tenant == a.r.tenant && a.endpoints[e].isActive
       && (a.r.eventType in a.endpoints[e].eventTypes || "*" in a.endpoints[e].eventTypes))
  {
    assert e in Subscribers(a.endpoints, a.r.tenant, a.r.eventType) <==> e in a.listed;
    hide Subscribers, OrdersExact;
    if k :| 0 <= k < |a.listed| && a.listed[k] == e {
      assert DeliveryAt(db.deliveries, a.r.event, a.r.deliveryIds, a.listed, k);
    }
    if d :| d in db.deliveries && db.deliveries[d].event == a.r.event && db.deliveries[d].endpoint == e {
      var k :| 0 <= k < |a.listed| && a.r.deliveryIds[k] == d;
      assert DeliveryAt(db.deliveries, a.r.event, a.r.deliveryIds, a.listed, k);
    }
  }

  /** ... and never two of them, even if subscribed to both the type and everything,
      and each of these deliveries has one order. */
  lemma OncePerSubscriber(db: Tables, a: Arrival, c: Id, d: Id)
    requires FanIsExact(db, a.r, a.listed) && P.Distinct(a.listed) && P.Distinct(a.r.deliveryIds)
      && P.Distinct(a.r.ticketIds)
    requires c in db.deliveries && d in db.deliveries && db.deliveries[c].event == a.r.event
      && db.deliveries[d].event == a.r.event
    ensures db.deliveries[c].endpoint == db.deliveries[d].endpoint ==> c == d
    ensures exists t :: t in db.outbox && db.outbox[t].delivery == d
    ensures forall t, u ::
      (t in db.outbox && u in db.outbox && db.outbox[t].delivery == d && db.outbox[u].delivery == d) ==> t == u
  {
    var ids, tickets, n := a.r.deliveryIds, a.r.ticketIds, |a.listed|;
    assert Among(c, ids, n) && Among(d, ids, n);
    var j :| 0 <= j < n && ids[j] == c;
    var k :| 0 <= k < n && ids[k] == d;
    assert DeliveryAt(db.deliveries, a.r.event, ids, a.listed, j)
      && DeliveryAt(db.deliveries, a.r.event, ids, a.listed, k);
    assert OrderAt(db.outbox, tickets, ids, a.r.now, k);
    forall t | t in db.outbox && db.outbox[t].delivery == d ensures t == tickets[k] {
      assert Among(t, tickets, n);
      var i :| 0 <= i < n && tickets[i] == t;
      assert OrderAt(db.outbox, tickets, ids, a.r.now, i);
    }
  }
}
