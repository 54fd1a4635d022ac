/** The rows of the four tables the delivery protocol works on, as declared in
    prisma/schema.prisma, and the job records of the queue.  Response codes and
    response snippets are omitted: no step ever reads them back. */
module Domain {

  /** Row identifiers: uuids in the source, any strings here. */
  type Id = string

  datatype Option<+T> = None | Some(value: T)

  datatype DeliveryStatus = PENDING | PROCESSING | SUCCESS | FAILED | DLQ | CANCELLED {
    /** The statuses after which the worker skips a job. */
    predicate Terminal() {
      this in {SUCCESS, DLQ, CANCELLED}
    }

    /** The statuses a claim may start from. */
    predicate Claimable() {
      this in {PENDING, FAILED}
    }
  }

  datatype EventStatus = EVENT_PENDING | EVENT_PROCESSING | EVENT_DONE | EVENT_FAILED | NO_SUBSCRIBERS

  datatype Event = Event(tenant: Id, key: string, eventType: string, status: EventStatus, updatedAt: int)

  datatype Delivery = Delivery(
    event: Id,
    endpoint: Id,
    status: DeliveryStatus,
    attempts: nat,
    lastAttemptAt: Option<int>,
    nextAttemptAt: Option<int>)

  /** An outbox row: the order to run attempt `attemptNumber` of a delivery, not
      before `availableAt`.  `publishes` is the publish counter, the column the
      schema calls `attempts`. */
  datatype Ticket = Ticket(
    delivery: Id,
    attemptNumber: nat,
    availableAt: int,
    publishedAt: Option<int>,
    publishes: nat,
    createdAt: int)

  datatype Tenant = Tenant(rateLimit: Option<nat>)

  datatype Endpoint = Endpoint(tenant: Id, isActive: bool, rateLimit: Option<nat>, eventTypes: set<string>)

  datatype Tables = Tables(
    events: map<Id, Event>,
    deliveries: map<Id, Delivery>,
    outbox: map<Id, Ticket>)

  /** The payload a queue job carries, with the outbox row and publish counter
      its id was made from. */
  datatype Job = Job(outbox: Id, counter: nat, delivery: Id, expected: nat)

  /** WAITING covers every state in which the queue may still hand the job to a
      worker; COMPLETED and FAILED_JOB are the two finished states. */
  datatype JobState = WAITING | COMPLETED | FAILED_JOB

  datatype QueueEntry = QueueEntry(job: Job, state: JobState)

  /** Bounds fixed by the configuration service; all are positive there. */
  datatype Config = Config(
    maxAttempts: nat,
    baseDelay: nat,
    maxDelay: nat,
    multiplier: real,
    staleAge: nat,
    retentionDays: nat)
  {
    predicate Valid() {
      && 1 <= maxAttempts
      && 1 <= baseDelay <= maxDelay
      && 0.0 < multiplier
      && 1 <= staleAge
    }
  }

  const DAY_MS: int := 24 * 60 * 60 * 1000
}
