/** One worker processing one job from start to end: the checks before the claim,
    the claim, the call and its outcome.  The methods follow the program; their
    effect is a function on the tables, and that function is a run of the
    protocol's steps. */
module Processing {
  import opened Domain
  import T = Transactions
  import Retry
  import RL = RateLimiter
  import opened Repositories
  import P = Protocol
  import A = Admission

  /** What the worker meets on its way: the clock at each of its steps, how long
      the rate limiter's scripts took to start, the endpoint's reply, whether
      recording an accepted one fails, the random draw of the jitter, and the id of a
      new outbox row. */
  datatype Circumstances = Circumstances(
    cancelledAt: int,
    tenantCheckAt: int, tenantLag: nat,
    endpointCheckAt: int, endpointLag: nat,
    deferredAt: int,
    claimedAt: int,
    reply: Retry.Reply, writeFails: bool, repliedAt: int, draw: real,
    ticket: Id)

  // ---------------------------------------------------------------- effect on the tables

  /** How far the worker gets. */
  datatype Passage = Skips | Cancels | Defers(delay: int) | Executes

  function TenantLimit(tenant: Tenant): nat {
    match tenant.rateLimit
    case Some(limit) => limit
    case None => A.DEFAULT_TENANT_LIMIT
  }

  /** The reply the executor decides from: success is recorded inside the `try` of the
      send, so an accepted reply that cannot be recorded counts as a status 500. */
  function Seen(w: Circumstances): Retry.Reply {
    if w.reply.Accepted? && w.writeFails then Retry.Refused(500, None) else w.reply
  }

  function Executed(c: Config, db: Tables, id: Id, expected: nat, w: Circumstances): Tables {
    if T.CanClaim(db, id, expected) then
      var attempt := db.deliveries[id].attempts + 1;
      T.Settled(T.ClaimForProcessing(db, id, expected, w.claimedAt), id, attempt,
              Retry.Decide(c, attempt, Seen(w), w.repliedAt, w.draw), w.ticket, w.repliedAt)
    else
      db
  }

  function Processed(c: Config, db: Tables, passage: Passage, id: Id, expected: nat, w: Circumstances): Tables {
    match passage
    case Skips => db
    case Cancels => T.MarkTerminal(db, id, CANCELLED, w.cancelledAt)
    case Defers(delay) => T.MarkRateLimitedAndSchedule(db, id, w.deferredAt + delay, expected, w.ticket, w.deferredAt)
    case Executes => Executed(c, db, id, expected, w)
  }

  function EntryIn(hashes: map<string, RL.Entry>, key: string): Option<RL.Entry> {
    if key in hashes then Some(hashes[key]) else None
  }

  /** The tenant's bucket is asked first, the endpoint's only if that one allows and
      the endpoint has a limit. */
  function Checked(hashes: map<string, RL.Entry>, tenantId: Id, tenant: Tenant, endpointId: Id, endpoint: Endpoint,
      w: Circumstances)
    : (Passage, map<string, RL.Entry>)
    requires TenantLimit(tenant) >= 1
  {
    var key := A.TenantKey(tenantId);
    var (answer, entry) := RL.CheckEntry(RL.TTL, EntryIn(hashes, key),
      RL.Call(TenantLimit(tenant), w.tenantCheckAt, w.tenantLag));
    var hashes := hashes[key := entry];
    if !answer.allowed then (Defers(answer.delay), hashes)
    else if endpoint.rateLimit.None? || endpoint.rateLimit.value == 0 then (Executes, hashes)
    else
      var key := A.EndpointKey(endpointId);
      var (answer, entry) := RL.CheckEntry(RL.TTL, EntryIn(hashes, key),
        RL.Call(endpoint.rateLimit.value, w.endpointCheckAt, w.endpointLag));
      (if answer.allowed then Executes else Defers(answer.delay), hashes[key := entry])
  }

  // ---------------------------------------------------------------- what the executor writes

  /** The executor in full, apart from the functions that compute it.  The job is for the
      row's next attempt and the row is PENDING or FAILED, or nothing happens; otherwise
      the attempt is counted and dated, and the reply decides: SUCCESS, DLQ, or FAILED
      with the time of the next attempt, for which one order is created, due at that
      time. */
  lemma ExecutionIsExact(c: Config, delays: seq<real>, db: Tables, id: Id, expected: nat, w: Circumstances)
    requires c.Valid() && Retry.AreNominal(c, delays) && expected <= |delays| && 0.0 <= w.draw < 1.0
    ensures var after := Executed(c, db, id, expected, w);
      if id in db.deliveries && db.deliveries[id].attempts + 1 == expected
          && (db.deliveries[id].status == PENDING || db.deliveries[id].status == FAILED)
      then
        var status := if w.reply.Accepted? then 500 else w.reply.status;
        && id in after.deliveries
        && after.deliveries == db.deliveries[id := db.deliveries[id].(attempts := expected,
             lastAttemptAt := Some(w.claimedAt), status := after.deliveries[id].status,
             nextAttemptAt := after.deliveries[id].nextAttemptAt)]
        && var row := after.deliveries[id];
        if w.reply.Accepted? && !w.writeFails then
          row.status == SUCCESS && row.nextAttemptAt == None && after.outbox == db.outbox
        else if expected < c.maxAttempts
            && (status >= 500 || status == 408 || status == 409 || status == 425 || status == 429) then
          && row.status == FAILED && row.nextAttemptAt.Some?
          && Retry.IsRetryTime(c, delays, expected, status, if w.reply.Accepted? then None else w.reply.header,
               w.repliedAt, w.draw, row.nextAttemptAt.value)
          && after.outbox
               == db.outbox[w.ticket := Ticket(id, expected + 1, row.nextAttemptAt.value, None, 0, w.repliedAt)]
        else
          row.status == DLQ && row.nextAttemptAt == None && after.outbox == db.outbox
      else after == db
  {
    if T.CanClaim(db, id, expected) {
      Retry.DecisionIsExact(c, delays, expected, Seen(w), w.repliedAt, w.draw);
    }
    hide Retry.Decide, Retry.IsRetryTime, Retry.AreNominal;
  }

  // ---------------------------------------------------------------- what a deferral writes

  /** A deferral dates the row and one new order for the same attempt with the delay that
      the refusing bucket asked for, and changes nothing else. */
  lemma DeferralIsDated(c: Config, db: Tables, id: Id, expected: nat, delay: int, w: Circumstances)
    requires id in db.deliveries
    ensures var after, at := Processed(c, db, Defers(delay), id, expected, w), w.deferredAt + delay;
      && after.events == db.events
      && after.deliveries == db.deliveries[id := db.deliveries[id].(status := PENDING, nextAttemptAt := Some(at))]
      && after.outbox == db.outbox[w.ticket := Ticket(id, expected, at, None, 0, w.deferredAt)]
  {
  }

  // ---------------------------------------------------------------- the checks are a run

  /** The limits are those of the rows. */
  predicate Configured(l: A.Limits, tenantId: Id, tenant: Tenant, endpointId: Id, endpoint: Endpoint) {
    && tenant.rateLimit == (if tenantId in l.tenants then Some(l.tenants[tenantId]) else None)
    && endpoint.rateLimit == (if endpointId in l.endpoints then Some(l.endpoints[endpointId]) else None)
  }

  /** The worker's scripts start within a second of their readings, after one another. */
  predicate ChecksInTime(s: A.State, w: Circumstances) {
    && s.at <= w.tenantCheckAt + w.tenantLag <= w.endpointCheckAt + w.endpointLag
    && w.tenantLag <= 1000 && w.endpointLag <= 1000
  }

  ghost predicate IsStretchOfRun(l: A.Limits, states: seq<A.State>, steps: seq<A.Step>) {
    && l.Valid() && |states| == |steps| + 1
    && forall i :: 0 <= i < |steps| ==>
         A.Enabled(l, states[i], steps[i]) && states[i + 1] == A.Next(l, states[i], steps[i])
  }

  /** The answer of a bucket at a check. */
  function AnswerOf(hashes: map<string, RL.Entry>, key: string, limit: nat, now: int, lag: nat): RL.Answer
    requires limit >= 1
  {
    RL.CheckEntry(RL.TTL, EntryIn(hashes, key), RL.Call(limit, now, lag)).0
  }

  /** The checks in front of the executor are a run of the buckets' steps: the tenant's
      bucket, with limit 10 if it has none of its own, and then the endpoint's, exactly if
      the tenant's admits and the endpoint has a limit other than 0.  The store is the
      same afterwards; the job is executed exactly if every bucket asked admits it, and is
      deferred by the delay of the one that refuses. */
  lemma ChecksAreARun(l: A.Limits, s: A.State, worker: nat, tenantId: Id, tenant: Tenant, endpointId: Id,
      endpoint: Endpoint, w: Circumstances)
      returns (states: seq<A.State>, steps: seq<A.Step>)
    requires l.Valid() && Configured(l, tenantId, tenant, endpointId, endpoint) && TenantLimit(tenant) >= 1
    requires worker !in s.holding && ChecksInTime(s, w)
    ensures IsStretchOfRun(l, states, steps) && |steps| >= 1 && states[0] == s
    ensures var (passage, hashes) := Checked(s.store, tenantId, tenant, endpointId, endpoint, w);
      var job, end := A.Job(tenantId, endpointId), states[|steps|];
      var first := AnswerOf(s.store, "rate-limit:tenant:" + tenantId,
        if tenant.rateLimit.Some? then tenant.rateLimit.value else 10, w.tenantCheckAt, w.tenantLag);
      && end.store == hashes && end.holding == s.holding
      && |end.executions| == |s.executions| + (if passage.Executes? then 1 else 0)
      && if first.allowed && endpoint.rateLimit.Some? && endpoint.rateLimit.value != 0 then
           var second := AnswerOf(states[1].store, "rate-limit:endpoint:" + endpointId, endpoint.rateLimit.value,
             w.endpointCheckAt, w.endpointLag);
           && steps == [A.CheckTenant(worker, job, w.tenantCheckAt, w.tenantLag),
                        A.CheckEndpoint(worker, w.endpointCheckAt, w.endpointLag)]
           && passage == if second.allowed then Executes else Defers(second.delay)
         else
           && steps == [A.CheckTenant(worker, job, w.tenantCheckAt, w.tenantLag)]
           && passage == if first.allowed then Executes else Defers(first.delay)
  {
    var s1 := TenantStep(l, s, worker, tenantId, tenant, endpointId, endpoint, w);
    KeysAre(tenantId, endpointId);
    var job := A.Job(tenantId, endpointId);
    var first := A.CheckTenant(worker, job, w.tenantCheckAt, w.tenantLag);
    hide A.Next, A.Enabled, RL.CheckEntry, A.TenantKey, A.EndpointKey;
    if worker in s1.holding {
      var s2 := EndpointStep(l, s1, worker, w);
      states, steps := [s, s1, s2], [first, A.CheckEndpoint(worker, w.endpointCheckAt, w.endpointLag)];
      assert s2.holding == s.holding;
    } else {
      states, steps := [s, s1], [first];
    }
  }

  lemma TenantStep(l: A.Limits, s: A.State, worker: nat, tenantId: Id, tenant: Tenant, endpointId: Id,
      endpoint: Endpoint, w: Circumstances) returns (s': A.State)
    requires l.Valid() && Configured(l, tenantId, tenant, endpointId, endpoint) && worker !in s.holding
      && ChecksInTime(s, w)
    ensures var step := A.CheckTenant(worker, A.Job(tenantId, endpointId), w.tenantCheckAt, w.tenantLag);
      A.Enabled(l, s, step) && s' == A.Next(l, s, step)
    ensures var key, limited := A.TenantKey(tenantId), endpoint.rateLimit.Some? && endpoint.rateLimit.value != 0;
      var (answer, entry) := RL.CheckEntry(RL.TTL, EntryIn(s.store, key), RL.Call(
        if tenant.rateLimit.Some? then tenant.rateLimit.value else 10, w.tenantCheckAt, w.tenantLag));
      && s'.store == s.store[key := entry] && s'.at == w.tenantCheckAt + w.tenantLag
      && |s'.executions| == |s.executions| + (if answer.allowed && !limited then 1 else 0)
      && (if answer.allowed && limited
          then s'.holding.Keys == s.holding.Keys + {worker} && s'.holding - {worker} == s.holding
            && s'.holding[worker].job == A.Job(tenantId, endpointId) && l.Limited(endpointId)
            && l.endpoints[endpointId] == endpoint.rateLimit.value
          else s'.holding == s.holding)
  {
    hide RL.CheckEntry, A.TenantKey;
    s' := A.Next(l, s, A.CheckTenant(worker, A.Job(tenantId, endpointId), w.tenantCheckAt, w.tenantLag));
  }

  lemma EndpointStep(l: A.Limits, s: A.State, worker: nat, w: Circumstances) returns (s': A.State)
    requires l.Valid() && worker in s.holding && l.Limited(s.holding[worker].job.endpoint) && ChecksInTime(s, w)
    ensures var step := A.CheckEndpoint(worker, w.endpointCheckAt, w.endpointLag);
      A.Enabled(l, s, step) && s' == A.Next(l, s, step)
    ensures var e := s.holding[worker].job.endpoint;
      var key := A.EndpointKey(e);
      var (answer, entry) := RL.CheckEntry(RL.TTL, EntryIn(s.store, key),
        RL.Call(l.endpoints[e], w.endpointCheckAt, w.endpointLag));
      && s'.store == s.store[key := entry] && s'.holding == s.holding - {worker}
      && |s'.executions| == |s.executions| + (if answer.allowed then 1 else 0)
  {
    hide RL.CheckEntry, A.EndpointKey;
    s' := A.Next(l, s, A.CheckEndpoint(worker, w.endpointCheckAt, w.endpointLag));
  }

  lemma KeysAre(tenantId: Id, endpointId: Id)
    ensures A.TenantKey(tenantId) == "rate-limit:tenant:" + tenantId
    ensures A.EndpointKey(endpointId) == "rate-limit:endpoint:" + endpointId
  {
    assert "rate-limit:" + ("tenant:" + tenantId) == "rate-limit:tenant:" + tenantId;
    assert "rate-limit:" + ("endpoint:" + endpointId) == "rate-limit:endpoint:" + endpointId;
  }

  // ---------------------------------------------------------------- the executor

  class DeliveryExecutor {
    const repository: DispatchDeliveriesRepository
    const config: Config

    constructor (repository: DispatchDeliveriesRepository, config: Config)
      ensures this.repository == repository && this.config == config
    {
      this.repository, this.config := repository, config;
    }

    method Execute(id: Id, expectedAttempt: nat, w: Circumstances)
      modifies repository.prisma`events, repository.prisma`deliveries, repository.prisma`outbox
      ensures repository.prisma.Contents()
        == Executed(config, old(repository.prisma.Contents()), id, expectedAttempt, w)
    {
      var claimed := repository.ClaimForProcessing(id, expectedAttempt, w.claimedAt);
      if claimed.None? {
        return;
      }
      var attempts := claimed.value.attempts;
      if w.reply.Accepted? && !w.writeFails {
        var _ := repository.MarkSuccess(id, w.repliedAt);
      } else {
        var status := if w.reply.Accepted? then 500 else w.reply.status;
        if attempts >= config.maxAttempts || !Retry.IsRetryable(status) {
          var _ := repository.MarkDeadLetter(id, w.repliedAt);
        } else {
          var delay := Retry.BackoffDelay(config, attempts, w.draw);
          if status == 429 {
            var asked := Retry.RetryAfterDelay(w.reply.header, w.repliedAt, config.maxDelay);
            if asked.Some? {
              delay := asked.value;
            }
          }
          var nextAttemptAt := w.repliedAt + delay.Floor;
          var _ := repository.MarkFailedAndSchedule(id, nextAttemptAt, attempts + 1, w.ticket, w.repliedAt);
        }
      }
    }
  }

  // ---------------------------------------------------------------- the use case

  class ProcessDelivery {
    const repository: DispatchDeliveriesRepository
    const rateLimiter: RL.RedisRateLimiter
    const executor: DeliveryExecutor

    constructor (repository: DispatchDeliveriesRepository, rateLimiter: RL.RedisRateLimiter, executor: DeliveryExecutor)
      requires executor.repository == repository
      ensures this.repository == repository && this.rateLimiter == rateLimiter && this.executor == executor
    {
      this.repository, this.rateLimiter, this.executor := repository, rateLimiter, executor;
    }

    /** The foreign keys of the delivery's row, and positive tenant limits. */
    predicate RowComplete(id: Id)
      reads repository.prisma
    {
      var db := repository.prisma;
      id in db.deliveries ==>
        && db.deliveries[id].endpoint in db.endpoints
        && db.deliveries[id].event in db.events
        && db.events[db.deliveries[id].event].tenant in db.tenants
        && TenantLimit(db.tenants[db.events[db.deliveries[id].event].tenant]) >= 1
    }

    function Outcome(id: Id, w: Circumstances): (Passage, map<string, RL.Entry>)
      requires RowComplete(id)
      reads repository.prisma, rateLimiter
    {
      var db := repository.prisma;
      if id !in db.deliveries || db.deliveries[id].status.Terminal() then (Skips, rateLimiter.hashes)
      else
        var endpointId, tenantId := db.deliveries[id].endpoint, db.events[db.deliveries[id].event].tenant;
        if !db.endpoints[endpointId].isActive then (Cancels, rateLimiter.hashes)
        else Checked(rateLimiter.hashes, tenantId, db.tenants[tenantId], endpointId, db.endpoints[endpointId], w)
    }

    method Execute(id: Id, expectedAttempt: nat, w: Circumstances)
      requires executor.repository == repository && RowComplete(id)
      modifies repository.prisma`events, repository.prisma`deliveries, repository.prisma`outbox, rateLimiter
      ensures var (passage, hashes) := old(Outcome(id, w));
        && repository.prisma.Contents()
             == Processed(executor.config, old(repository.prisma.Contents()), passage, id, expectedAttempt, w)
        && rateLimiter.hashes == hashes
    {
      hide RL.CheckEntry, Executed, T.MarkTerminal, T.MarkRateLimitedAndSchedule;
      var delivery := repository.FindById(id);
      if delivery.None? {
        return;
      }
      if delivery.value.status in {SUCCESS, DLQ, CANCELLED} {
        return;
      }
      var endpoint := repository.prisma.endpoints[delivery.value.endpoint];
      if !endpoint.isActive {
        var _ := repository.MarkCancelled(id, w.cancelledAt);
        return;
      }
      var tenantId := repository.prisma.events[delivery.value.event].tenant;
      var rateLimit := TenantLimit(repository.prisma.tenants[tenantId]);
      var tenantExceeded, tenantDelay, _ := rateLimiter.CheckRateLimit("tenant:" + tenantId,
        RL.Call(rateLimit, w.tenantCheckAt, w.tenantLag));
      var endpointExceeded, endpointDelay := false, 0;
      if !tenantExceeded && endpoint.rateLimit.Some? && endpoint.rateLimit.value != 0 {
        var count;
        endpointExceeded, endpointDelay, count := rateLimiter.CheckRateLimit(
          "endpoint:" + delivery.value.endpoint, RL.Call(endpoint.rateLimit.value, w.endpointCheckAt, w.endpointLag));
      }
      var exceeded := tenantExceeded || endpointExceeded;
      var delayMs := if tenantDelay > endpointDelay then tenantDelay else endpointDelay;
      if exceeded {
        var _ := repository.MarkRateLimitedAndSchedule(id, w.deferredAt + delayMs, expectedAttempt, w.ticket,
          w.deferredAt);
        return;
      }
      executor.Execute(id, expectedAttempt, w);
    }
  }

  /** How far a worker gets, in full: nothing happens to a missing or finished delivery;
      one whose endpoint is inactive is cancelled; otherwise the buckets are asked. */
  lemma PassageIs(p: ProcessDelivery, id: Id, w: Circumstances)
    requires p.RowComplete(id)
    ensures var db, hashes, outcome := p.repository.prisma, p.rateLimiter.hashes, p.Outcome(id, w);
      if id !in db.deliveries || db.deliveries[id].status in {SUCCESS, DLQ, CANCELLED} then outcome == (Skips, hashes)
      else
        var endpointId, tenantId := db.deliveries[id].endpoint, db.events[db.deliveries[id].event].tenant;
        if !db.endpoints[endpointId].isActive then outcome == (Cancels, hashes)
        else outcome == Checked(hashes, tenantId, db.tenants[tenantId], endpointId, db.endpoints[endpointId], w)
  {
    hide Checked;
  }
}
