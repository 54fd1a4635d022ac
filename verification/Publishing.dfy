/** The outbox publisher and the maintenance loops as the program has them.  Clock
    readings, new row ids, and the place where the queue or the database fails are
    parameters. */
module Publishing {
  import opened Domain
  import T = Transactions
  import opened JobIds
  import P = Protocol
  import opened Repositories

  // ---------------------------------------------------------------- effect on the tables

  /** The outbox with some rows marked published, each at its own reading of the
      clock. */
  function Marked(outbox: map<Id, Ticket>, ids: seq<Id>, at: Id -> int): map<Id, Ticket> {
    map t | t in outbox :: if t in ids then outbox[t].(publishedAt := Some(at(t))) else outbox[t]
  }

  /** The queue after adding jobs; an id it holds already is ignored. */
  function WithJobs(queue: map<string, QueueEntry>, jobs: seq<Job>): map<string, QueueEntry> {
    if jobs == [] then queue
    else
      var before, job := WithJobs(queue, jobs[..|jobs| - 1]), jobs[|jobs| - 1];
      if P.KeyOf(job) in before then before else before[P.KeyOf(job) := QueueEntry(job, WAITING)]
  }

  /** Row `k` is where the call failed, if it did. */
  function AfterFault(outbox: map<Id, Ticket>, ids: seq<Id>, k: nat): map<Id, Ticket> {
    if k < |ids| && ids[k] in outbox
    then outbox[ids[k] := outbox[ids[k]].(publishes := outbox[ids[k]].publishes + 1)]
    else outbox
  }

  /** Stale recovery of the rows found, one transaction each. */
  function RecoverAll(db: Tables, found: seq<(Id, nat)>, cutoff: int, tickets: seq<Id>, now: int): Tables
    requires |found| <= |tickets|
  {
    if found == [] then db
    else
      var n := |found| - 1;
      T.RecoverStale(RecoverAll(db, found[..n], cutoff, tickets, now), found[n].0, found[n].1, cutoff, tickets[n], now)
  }

  /** Stranded recovery of the rows found: those without a live job are reopened. */
  function ReopenAll(db: Tables, queue: map<string, QueueEntry>, rows: seq<(Id, nat)>): Tables {
    if rows == [] then db
    else
      var before, (t, counter) := ReopenAll(db, queue, rows[..|rows| - 1]), rows[|rows| - 1];
      if P.HasNoLiveJob(queue, t, counter) then T.Reopen(before, t) else before
  }

  lemma ReopenUnfold(db: Tables, queue: map<string, QueueEntry>, rows: seq<(Id, nat)>, i: nat)
    requires i < |rows|
    ensures var before, (t, counter) := ReopenAll(db, queue, rows[..i]), rows[i];
      ReopenAll(db, queue, rows[..i + 1]) == if P.HasNoLiveJob(queue, t, counter) then T.Reopen(before, t) else before
  {
    assert rows[..i + 1][..i] == rows[..i];
    hide P.HasNoLiveJob;
  }

  lemma NothingReopened(db: Tables, queue: map<string, QueueEntry>, rows: seq<(Id, nat)>)
    ensures ReopenAll(db, queue, rows[..0]) == db
  {
  }

  lemma CascadeIs(db: Tables, days: nat, now: int, gone: set<Id>)
    requires days > 0
    requires forall e :: e in gone <==> T.Expired(db, e, days, now)
    ensures var after := T.CleanupOldEvents(db, days, now);
      && after.events == (map e | e in db.events && e !in gone :: db.events[e])
      && after.deliveries == (map d | d in db.deliveries && db.deliveries[d].event !in gone :: db.deliveries[d])
      && after.outbox == (map t | t in db.outbox && db.outbox[t].delivery in after.deliveries :: db.outbox[t])
  {
  }

  // ---------------------------------------------------------------- where maintenance fails

  /** The phase in which a round of maintenance fails.  In a recovery the calls are
      numbered: 0 is the query and k + 1 is what is done for row k. */
  datatype Stop = AtCleanup | AtRetention | AtStale(call: nat) | AtStranded(call: nat)

  function InStale(stop: Option<Stop>): Option<nat> {
    if stop.Some? && stop.value.AtStale? then Some(stop.value.call) else None
  }

  function InStranded(stop: Option<Stop>): Option<nat> {
    if stop.Some? && stop.value.AtStranded? then Some(stop.value.call) else None
  }

  /** Does a recovery with `n` rows get as far as the call that fails? */
  predicate Fails(stop: Option<nat>, n: nat) {
    stop.Some? && stop.value <= n
  }

  /** The rows it handles. */
  function Handled(stop: Option<nat>, n: nat): (k: nat)
    ensures k <= n
  {
    if !Fails(stop, n) then n else if stop.value == 0 then 0 else stop.value - 1
  }

  lemma StopsAt(stop: Option<nat>, n: nat)
    ensures stop == Some(0) ==> Fails(stop, n) && Handled(stop, n) == 0
    ensures stop.Some? && 0 < stop.value <= n ==> Fails(stop, n) && Handled(stop, n) == stop.value - 1
    ensures (stop.Some? ==> n < stop.value) ==> !Fails(stop, n) && Handled(stop, n) == n
  {
  }

  // ---------------------------------------------------------------- the queue

  class DeliveryQueue {
    var jobs: map<string, QueueEntry>

    constructor ()
      ensures jobs == map[]
    {
      jobs := map[];
    }

    method Add(jobId: string, job: Job)
      modifies this
      ensures jobs == if jobId in old(jobs) then old(jobs) else old(jobs)[jobId := QueueEntry(job, WAITING)]
    {
      if jobId !in jobs {
        jobs := jobs[jobId := QueueEntry(job, WAITING)];
      }
    }

    method GetJob(jobId: string) returns (entry: Option<QueueEntry>)
      ensures entry == if jobId in jobs then Some(jobs[jobId]) else None
    {
      entry := if jobId in jobs then Some(jobs[jobId]) else None;
    }
  }

  // ---------------------------------------------------------------- maintenance

  class DeliveryMaintenance {
    const deliveryQueue: DeliveryQueue
    const prisma: Database
    const config: Config

    constructor (deliveryQueue: DeliveryQueue, prisma: Database, config: Config)
      ensures this.deliveryQueue == deliveryQueue && this.prisma == prisma && this.config == config
    {
      this.deliveryQueue, this.prisma, this.config := deliveryQueue, prisma, config;
    }

    method CleanupPublishedOutboxRows(now: int)
      modifies prisma`outbox
      ensures prisma.Contents() == T.CleanupPublished(old(prisma.Contents()), now)
    {
      var limit := now - 7 * 24 * 60 * 60 * 1000;
      prisma.outbox := map t | t in prisma.outbox
                               && !(prisma.outbox[t].publishedAt.Some?
                                    && prisma.outbox[t].publishedAt.value < limit) :: prisma.outbox[t];
    }

    /** Deleting an event deletes its deliveries and their outbox rows. */
    method CleanupOldEvents(now: int)
      modifies prisma`events, prisma`deliveries, prisma`outbox
      ensures prisma.Contents() == T.CleanupOldEvents(old(prisma.Contents()), config.retentionDays, now)
    {
      if config.retentionDays <= 0 {
        return;
      }
      ghost var before := prisma.Contents();
      var limit := now - config.retentionDays * 24 * 60 * 60 * 1000;
      var gone := set e | e in prisma.events && prisma.events[e].status in {EVENT_DONE, EVENT_FAILED}
        && prisma.events[e].updatedAt < limit;
      prisma.events := map e | e in prisma.events && e !in gone :: prisma.events[e];
      prisma.deliveries := map d | d in prisma.deliveries && prisma.deliveries[d].event !in gone ::
        prisma.deliveries[d];
      prisma.outbox := map t | t in prisma.outbox && prisma.outbox[t].delivery in prisma.deliveries :: prisma.outbox[t];
      CascadeIs(before, config.retentionDays, now, gone);
      hide T.CleanupOldEvents, T.Expired;
    }

    method FindStale(cutoff: int) returns (found: seq<(Id, nat)>)
      ensures P.StaleRows(prisma.Contents(), cutoff, found)
    {
      found := [];
      var rest := set d | d in prisma.deliveries && T.IsStale(prisma.Contents(), d, cutoff);
      while rest != {} && |found| < 100
        invariant P.DistinctRows(found) && |found| <= 100
        invariant forall i :: 0 <= i < |found| ==>
          T.IsStale(prisma.Contents(), found[i].0, cutoff) && found[i].1 == prisma.deliveries[found[i].0].attempts
          && found[i].0 !in rest
        invariant forall d :: T.IsStale(prisma.Contents(), d, cutoff) ==> d in rest || P.IsFound(found, d)
        invariant forall d :: d in rest ==> d in prisma.deliveries && T.IsStale(prisma.Contents(), d, cutoff)
        decreases |rest|
      {
        var d :| d in rest;
        ghost var before := found;
        found, rest := found + [(d, prisma.deliveries[d].attempts)], rest - {d};
        assert found[|before|].0 == d;
        assert forall i :: 0 <= i < |before| ==> found[i] == before[i];
      }
    }

    /** One transaction of stale recovery. */
    method RecoverStale(id: Id, attempts: nat, cutoff: int, ticket: Id, now: int)
      modifies prisma`deliveries, prisma`outbox
      ensures prisma.Contents() == T.RecoverStale(old(prisma.Contents()), id, attempts, cutoff, ticket, now)
    {
      var count := 0;
      if id in prisma.deliveries {
        var row := prisma.deliveries[id];
        if row.status == PROCESSING && row.lastAttemptAt.Some? && row.lastAttemptAt.value < cutoff {
          prisma.deliveries := prisma.deliveries[id := row.(status := FAILED, nextAttemptAt := Some(now))];
          count := 1;
        }
      }
      if count != 0 {
        prisma.CreateTicket(ticket, id, attempts + 1, now, now);
      }
    }

    method RecoverStaleDeliveries(tickets: seq<Id>, now: int, stop: Option<nat>)
        returns (stale: seq<(Id, nat)>, thrown: bool)
      requires |tickets| >= 100
      modifies prisma`deliveries, prisma`outbox
      ensures P.StaleRows(old(prisma.Contents()), now - config.staleAge, stale)
      ensures thrown == Fails(stop, |stale|)
      ensures prisma.Contents()
        == RecoverAll(old(prisma.Contents()), stale[..Handled(stop, |stale|)], now - config.staleAge, tickets, now)
    {
      var cutoff := now - config.staleAge;
      stale := FindStale(cutoff);
      if stop == Some(0) {
        return stale, true;
      }
      hide P.StaleRows, T.RecoverStale;
      for i := 0 to |stale|
        invariant |stale| <= 100 && (stop.Some? ==> i < stop.value)
        invariant prisma.Contents() == RecoverAll(old(prisma.Contents()), stale[..i], cutoff, tickets, now)
      {
        if stop == Some(i + 1) {
          return stale, true;
        }
        assert stale[..i + 1][..i] == stale[..i];
        RecoverStale(stale[i].0, stale[i].1, cutoff, tickets[i], now);
      }
      return stale, false;
    }

    method FindStranded() returns (rows: seq<(Id, nat)>)
      ensures P.StrandedRows(prisma.Contents(), rows)
    {
      rows := [];
      var rest := set t | t in prisma.outbox && P.IsPublishedPending(prisma.Contents(), t, prisma.outbox[t].publishes);
      while rest != {} && |rows| < 100
        invariant P.DistinctRows(rows) && |rows| <= 100
        invariant forall i :: 0 <= i < |rows| ==>
          P.IsPublishedPending(prisma.Contents(), rows[i].0, rows[i].1) && rows[i].0 !in rest
        invariant forall t, n: nat :: P.IsPublishedPending(prisma.Contents(), t, n) ==> t in rest || (t, n) in rows
        invariant forall t :: t in rest ==>
          t in prisma.outbox && P.IsPublishedPending(prisma.Contents(), t, prisma.outbox[t].publishes)
        decreases |rest|
      {
        var t :| t in rest;
        ghost var before := rows;
        rows, rest := rows + [(t, prisma.outbox[t].publishes)], rest - {t};
        assert forall i :: 0 <= i < |before| ==> rows[i] == before[i];
        assert forall x :: x in before ==> x in rows;
      }
    }

    /** The body of the loop below. */
    method RecoverStranded(id: Id, attempts: nat)
      modifies prisma`outbox
      ensures prisma.Contents()
        == if P.HasNoLiveJob(deliveryQueue.jobs, id, attempts) then T.Reopen(old(prisma.Contents()), id)
          else old(prisma.Contents())
    {
      var currentJob := deliveryQueue.GetJob(JobId(id, attempts));
      var legacyJob := deliveryQueue.GetJob(LegacyJobId(id));
      var job := if currentJob.Some? then currentJob else legacyJob;
      var state := if job.Some? then Some(job.value.state) else None;
      if state != Some(FAILED_JOB) && state != None {
        return;
      }
      if id in prisma.outbox {
        prisma.outbox := prisma.outbox[id := prisma.outbox[id].(publishedAt := None,
          publishes := prisma.outbox[id].publishes + 1)];
      }
    }

    method RecoverStrandedPublishedOutbox(stop: Option<nat>) returns (published: seq<(Id, nat)>, thrown: bool)
      modifies prisma`outbox
      ensures P.StrandedRows(old(prisma.Contents()), published)
      ensures thrown == Fails(stop, |published|)
      ensures prisma.Contents()
        == ReopenAll(old(prisma.Contents()), deliveryQueue.jobs, published[..Handled(stop, |published|)])
    {
      hide *;
      published := FindStranded();
      StopsAt(stop, |published|);
      NothingReopened(prisma.Contents(), deliveryQueue.jobs, published);
      if stop == Some(0) {
        return published, true;
      }
      for i := 0 to |published|
        invariant stop.Some? ==> i < stop.value
        invariant prisma.Contents() == ReopenAll(old(prisma.Contents()), deliveryQueue.jobs, published[..i])
      {
        if stop == Some(i + 1) {
          return published, true;
        }
        ReopenUnfold(old(prisma.Contents()), deliveryQueue.jobs, published, i);
        RecoverStranded(published[i].0, published[i].1);
      }
      assert published[..|published|] == published;
      return published, false;
    }

    /** The phases run in order; an error in one ends the round with what was done
        before it. */
    method RecoverAndCleanup(tickets: seq<Id>, now: int, stop: Option<Stop>)
        returns (thrown: bool, ghost stale: seq<(Id, nat)>, ghost published: seq<(Id, nat)>)
      requires |tickets| >= 100
      modifies prisma`events, prisma`deliveries, prisma`outbox
      ensures Maintained(config, old(prisma.Contents()), deliveryQueue.jobs, stale, published, tickets, now, stop,
                         thrown, prisma.Contents())
    {
      stale, published := [], [];
      if stop == Some(AtCleanup) {
        return true, stale, published;
      }
      CleanupPublishedOutboxRows(now);
      if stop == Some(AtRetention) {
        return true, stale, published;
      }
      CleanupOldEvents(now);
      var found, rows;
      found, thrown := RecoverStaleDeliveries(tickets, now, InStale(stop));
      stale := found;
      if thrown {
        return;
      }
      rows, thrown := RecoverStrandedPublishedOutbox(InStranded(stop));
      published := rows;
    }
  }

  /** One round of maintenance: two cleanups, then both recoveries. */
  ghost predicate Maintained(c: Config, db: Tables, queue: map<string, QueueEntry>, stale: seq<(Id, nat)>,
                             published: seq<(Id, nat)>, tickets: seq<Id>, now: int, stop: Option<Stop>, thrown: bool,
                             db': Tables)
    requires |tickets| >= 100
  {
    if stop == Some(AtCleanup) then thrown && db' == db
    else if stop == Some(AtRetention) then thrown && db' == T.CleanupPublished(db, now)
    else
      var cleaned, cutoff := T.CleanupOldEvents(T.CleanupPublished(db, now), c.retentionDays, now), now - c.staleAge;
      && P.StaleRows(cleaned, cutoff, stale)
      && var recovered := RecoverAll(cleaned, stale[..Handled(InStale(stop), |stale|)], cutoff, tickets, now);
      if Fails(InStale(stop), |stale|) then thrown && db' == recovered
      else
        && P.StrandedRows(recovered, published)
        && thrown == Fails(InStranded(stop), |published|)
        && db' == ReopenAll(recovered, queue, published[..Handled(InStranded(stop), |published|)])
  }

  // ---------------------------------------------------------------- what maintenance achieves

  /** Exactly the rows found are FAILED and due now; the others are as they were. */
  ghost predicate RowsRecovered(db: Tables, after: Tables, found: seq<(Id, nat)>, now: int) {
    && after.events == db.events
    && after.deliveries.Keys == db.deliveries.Keys
    && forall d :: d in db.deliveries ==>
         after.deliveries[d] == if P.IsFound(found, d)
           then db.deliveries[d].(status := FAILED, nextAttemptAt := Some(now)) else db.deliveries[d]
  }

  /** Exactly one order, for the next attempt, was created for each row found. */
  ghost predicate OrdersCreated(db: Tables, after: Tables, found: seq<(Id, nat)>, tickets: seq<Id>, now: int)
    requires |found| <= |tickets|
  {
    && (forall t :: t in after.outbox <==> t in db.outbox || t in tickets[..|found|])
    && (forall t :: t in db.outbox ==> after.outbox[t] == db.outbox[t])
    && (forall i :: 0 <= i < |found| ==>
         tickets[i] in tickets[..|found|]
         && after.outbox[tickets[i]] == T.NewTicket(found[i].0, found[i].1 + 1, now, now))
  }

  lemma StaleOne(db: Tables, d: Id, attempts: nat, cutoff: int, ticket: Id, now: int)
    requires T.IsStale(db, d, cutoff) && d in db.deliveries
    ensures T.RecoverStale(db, d, attempts, cutoff, ticket, now) == Tables(
      db.events,
      db.deliveries[d := db.deliveries[d].(status := FAILED, nextAttemptAt := Some(now))],
      db.outbox[ticket := T.NewTicket(d, attempts + 1, now, now)])
  {
  }

  lemma StillStale(db: Tables, before: Tables, found: seq<(Id, nat)>, now: int, d: Id, cutoff: int)
    requires RowsRecovered(db, before, found, now) && T.IsStale(db, d, cutoff) && !P.IsFound(found, d)
    ensures T.IsStale(before, d, cutoff)
  {
  }

  lemma LastIsNew(found: seq<(Id, nat)>)
    requires P.DistinctRows(found) && |found| > 0
    ensures P.DistinctRows(found[..|found| - 1]) && !P.IsFound(found[..|found| - 1], found[|found| - 1].0)
    ensures forall d :: P.IsFound(found, d) <==> P.IsFound(found[..|found| - 1], d) || d == found[|found| - 1].0
  {
    var n := |found| - 1;
    forall d ensures P.IsFound(found, d) <==> P.IsFound(found[..n], d) || d == found[n].0 {
      if i :| 0 <= i < |found| && found[i].0 == d {
        assert i < n ==> found[..n][i].0 == d;
      }
    }
  }

  lemma OrdersGrow(db: Tables, before: Tables, after: Tables, found: seq<(Id, nat)>, tickets: seq<Id>, now: int)
    requires 0 < |found| <= |tickets| && P.Distinct(tickets) && forall i :: 0 <= i < |tickets| ==>
      tickets[i] !in db.outbox
    requires var n := |found| - 1;
      && OrdersCreated(db, before, found[..n], tickets, now)
      && after.outbox == before.outbox[tickets[n] := T.NewTicket(found[n].0, found[n].1 + 1, now, now)]
    ensures OrdersCreated(db, after, found, tickets, now)
  {
    var n := |found| - 1;
    assert tickets[..|found|] == tickets[..n] + [tickets[n]];
    forall i | 0 <= i < n ensures after.outbox[tickets[i]] == T.NewTicket(found[i].0, found[i].1 + 1, now, now) {
      assert tickets[i] != tickets[n] && found[..n][i] == found[i];
    }
  }

  predicate FoundFit(db: Tables, found: seq<(Id, nat)>, cutoff: int) {
    forall i :: 0 <= i < |found| ==>
      T.IsStale(db, found[i].0, cutoff) && found[i].1 == db.deliveries[found[i].0].attempts
  }

  lemma FoundFitLast(db: Tables, found: seq<(Id, nat)>, cutoff: int)
    requires FoundFit(db, found, cutoff) && |found| > 0
    ensures FoundFit(db, found[..|found| - 1], cutoff) && T.IsStale(db, found[|found| - 1].0, cutoff)
  {
    hide T.IsStale;
  }

  lemma RowsGrow(db: Tables, before: Tables, after: Tables, found: seq<(Id, nat)>, found': seq<(Id, nat)>, d: Id,
      now: int)
    requires RowsRecovered(db, before, found, now) && d in db.deliveries && !P.IsFound(found, d)
    requires forall u :: P.IsFound(found', u) <==> P.IsFound(found, u) || u == d
    requires after.events == before.events
    requires d in before.deliveries
    requires after.deliveries == before.deliveries[d := before.deliveries[d].(status := FAILED,
      nextAttemptAt := Some(now))]
    ensures RowsRecovered(db, after, found', now)
  {
    hide P.IsFound;
  }

  lemma StaleKnown(db: Tables, d: Id, cutoff: int)
    requires T.IsStale(db, d, cutoff)
    ensures d in db.deliveries
  {
  }

  lemma RecoverUnfold(db: Tables, found: seq<(Id, nat)>, cutoff: int, tickets: seq<Id>, now: int)
    requires |found| <= |tickets|
    ensures found == [] ==> RecoverAll(db, found, cutoff, tickets, now) == db
    ensures found != [] ==> var n := |found| - 1;
      RecoverAll(db, found, cutoff, tickets, now)
        == T.RecoverStale(RecoverAll(db, found[..n], cutoff, tickets, now), found[n].0, found[n].1, cutoff,
          tickets[n], now)
  {
  }

  lemma NothingFound(db: Tables, tickets: seq<Id>, now: int)
    ensures RowsRecovered(db, db, [], now) && OrdersCreated(db, db, [], tickets, now)
  {
  }

  /** Stale recovery turns exactly the rows found from PROCESSING to FAILED, and
      creates one order for the next attempt of each. */
  lemma {:induction false} RecoverAllResult(db: Tables, found: seq<(Id, nat)>, cutoff: int, tickets: seq<Id>, now: int)
    requires P.DistinctRows(found) && |found| <= |tickets| && FoundFit(db, found, cutoff)
    requires P.Distinct(tickets) && forall i :: 0 <= i < |tickets| ==> tickets[i] !in db.outbox
    ensures var after := RecoverAll(db, found, cutoff, tickets, now);
      RowsRecovered(db, after, found, now) && OrdersCreated(db, after, found, tickets, now)
  {
    hide *;
    RecoverUnfold(db, found, cutoff, tickets, now);
    if found == [] {
      NothingFound(db, tickets, now);
    } else {
      var n := |found| - 1;
      LastIsNew(found);
      FoundFitLast(db, found, cutoff);
      RecoverAllResult(db, found[..n], cutoff, tickets, now);
      var before, after := RecoverAll(db, found[..n], cutoff, tickets, now),
        RecoverAll(db, found, cutoff, tickets, now);
      StillStale(db, before, found[..n], now, found[n].0, cutoff);
      StaleKnown(db, found[n].0, cutoff);
      StaleKnown(before, found[n].0, cutoff);
      StaleOne(before, found[n].0, found[n].1, cutoff, tickets[n], now);
      RowsGrow(db, before, after, found[..n], found, found[n].0, now);
      OrdersGrow(db, before, after, found, tickets, now);
    }
  }

  /** With fewer than 100 stale rows, nothing stale is left. */
  lemma NoneLeftStale(db: Tables, found: seq<(Id, nat)>, cutoff: int, tickets: seq<Id>, now: int)
    requires P.StaleRows(db, cutoff, found) && |found| < 100 <= |tickets|
    requires P.Distinct(tickets) && forall i :: 0 <= i < |tickets| ==> tickets[i] !in db.outbox
    ensures forall d :: !T.IsStale(RecoverAll(db, found, cutoff, tickets, now), d, cutoff)
  {
    assert FoundFit(db, found, cutoff);
    RecoverAllResult(db, found, cutoff, tickets, now);
    hide RecoverAll, OrdersCreated, P.IsFound, P.DistinctRows;
  }

  /** Stranded recovery reopens exactly the rows found whose job is missing or has
      failed, each under the next counter. */
  function Reopened(outbox: map<Id, Ticket>, queue: map<string, QueueEntry>, rows: seq<(Id, nat)>): map<Id, Ticket> {
    map t | t in outbox ::
      if P.IsFound(rows, t) && P.HasNoLiveJob(queue, t, outbox[t].publishes)
      then outbox[t].(publishedAt := None, publishes := outbox[t].publishes + 1) else outbox[t]
  }

  lemma {:induction false} ReopenAllResult(db: Tables, queue: map<string, QueueEntry>, rows: seq<(Id, nat)>)
    requires P.DistinctRows(rows) && forall i :: 0 <= i < |rows| ==> P.IsPublishedPending(db, rows[i].0, rows[i].1)
    ensures ReopenAll(db, queue, rows) == Tables(db.events, db.deliveries, Reopened(db.outbox, queue, rows))
  {
    hide P.HasNoLiveJob;
    if rows == [] {
      assert Reopened(db.outbox, queue, rows) == db.outbox;
    } else {
      var n := |rows| - 1;
      var (t, counter) := rows[n];
      ReopenAllResult(db, queue, rows[..n]);
      LastIsNew(rows);
      ReopenOne(db, queue, rows[..n], rows, t, counter);
    }
  }

  lemma ReopenOne(db: Tables, queue: map<string, QueueEntry>, rows: seq<(Id, nat)>, rows': seq<(Id, nat)>, t: Id,
      counter: nat)
    requires P.IsPublishedPending(db, t, counter) && !P.IsFound(rows, t) && forall u :: P.IsFound(rows', u) <==>
      P.IsFound(rows, u) || u == t
    ensures var before := Tables(db.events, db.deliveries, Reopened(db.outbox, queue, rows));
      Tables(db.events, db.deliveries, Reopened(db.outbox, queue, rows'))
        == if P.HasNoLiveJob(queue, t, counter) then T.Reopen(before, t) else before
  {
    hide P.HasNoLiveJob, P.IsFound;
    var before := Tables(db.events, db.deliveries, Reopened(db.outbox, queue, rows));
    assert before.outbox[t] == db.outbox[t];
    if P.HasNoLiveJob(queue, t, counter) {
      assert Reopened(db.outbox, queue, rows') == T.Reopen(before, t).outbox;
    } else {
      assert Reopened(db.outbox, queue, rows') == before.outbox;
    }
  }

  /** With fewer than 100 published rows of PENDING deliveries, nothing is left
      stranded. */
  lemma NoneLeftStranded(db: Tables, queue: map<string, QueueEntry>, rows: seq<(Id, nat)>, t: Id, counter: nat)
    requires P.StrandedRows(db, rows) && |rows| < 100
    requires P.IsPublishedPending(ReopenAll(db, queue, rows), t, counter)
    ensures !P.HasNoLiveJob(queue, t, counter)
  {
    ReopenAllResult(db, queue, rows);
    hide ReopenAll, P.HasNoLiveJob;
    assert P.IsPublishedPending(db, t, db.outbox[t].publishes);
    var i :| 0 <= i < |rows| && rows[i] == (t, db.outbox[t].publishes);
    assert P.IsFound(rows, t);
  }

  // ---------------------------------------------------------------- the publisher

  /** Where a call fails: at which of its rows, and whether that row's job had
      already been added. */
  datatype Fault = Fault(row: nat, added: bool)

  /** The rows of `ids` that one call marks, and the jobs it adds. */
  function MarkedRows(ids: seq<Id>, fault: Option<Fault>): (k: nat)
    ensures k <= |ids|
  {
    if fault.Some? && fault.value.row < |ids| then fault.value.row else |ids|
  }

  function AddedJobs(ids: seq<Id>, fault: Option<Fault>): (n: nat)
    ensures n <= |ids|
  {
    if fault.Some? && fault.value.row < |ids| && fault.value.added then fault.value.row + 1 else MarkedRows(ids, fault)
  }

  /** The clock as one call reads it: for the check whether maintenance is due, during
      maintenance, after it, in the query, and when each row is marked. */
  datatype Readings = Readings(checkedAt: int, maintainedAt: int, recordedAt: int, queriedAt: int, markedAt: Id -> int)

  /** What a call meets: the clock, ids for new rows, and where it fails. */
  datatype Call = Call(clock: Readings, tickets: seq<Id>, stop: Option<Stop>, fault: Option<Fault>)

  predicate MaintenanceDue(lastMaintenanceAt: int, clock: Readings) {
    clock.checkedAt - lastMaintenanceAt >= 60_000
  }

  /** The tables a call publishes from, or, if maintenance `failed`, stops with: after
      maintenance, if a minute has passed since the last one. */
  ghost predicate StartsFrom(c: Config, lastMaintenanceAt: int, db: Tables, queue: map<string, QueueEntry>, call: Call,
                             failed: bool, before: Tables)
    requires |call.tickets| >= 100
  {
    if MaintenanceDue(lastMaintenanceAt, call.clock)
    then
      exists stale, published ::
        Maintained(c, db, queue, stale, published, call.tickets, call.clock.maintainedAt, call.stop, failed, before)
    else !failed && before == db
  }

  /** An exact prefix of the rows the query returned is added and marked; if the call
      fails at row k, row k stays unpublished under the next counter. */
  ghost predicate Published(before: Tables, queue: map<string, QueueEntry>, ids: seq<Id>, call: Call, thrown: bool,
                            after: Tables, queue': map<string, QueueEntry>)
  {
    && P.OldestDue(before.outbox, call.clock.queriedAt, ids)
    && after.events == before.events && after.deliveries == before.deliveries
    && var k := MarkedRows(ids, call.fault);
    && thrown == (k < |ids|)
    && after.outbox == AfterFault(Marked(before.outbox, ids[..k], call.clock.markedAt), ids, k)
    && queue' == WithJobs(queue, P.Copies(before.outbox, ids)[..AddedJobs(ids, call.fault)])
  }

  /** Failed maintenance ends the call: nothing is published, and the time of the last
      maintenance is not moved, so the next call tries again. */
  ghost predicate Called(c: Config, last: int, db: Tables, queue: map<string, QueueEntry>, call: Call, failed: bool,
                         before: Tables, ids: seq<Id>, thrown: bool, last': int, after: Tables,
                         queue': map<string, QueueEntry>)
    requires |call.tickets| >= 100
  {
    && StartsFrom(c, last, db, queue, call, failed, before)
    && last' == (if MaintenanceDue(last, call.clock) && !failed then call.clock.recordedAt else last)
    && if failed then thrown && ids == [] && after == before && queue' == queue
       else Published(before, queue, ids, call, thrown, after, queue')
  }

  lemma SameRow(outbox: map<Id, Ticket>, before: map<Id, Ticket>, t: Id)
    requires t in outbox && t in before && outbox[t] == before[t]
    ensures P.RowOf(outbox, t) == P.RowOf(before, t) && P.RowOf(outbox, t).outbox == t
  {
  }

  lemma FaultAt(outbox: map<Id, Ticket>, ids: seq<Id>, k: nat)
    requires k < |ids| && ids[k] in outbox
    ensures AfterFault(outbox, ids, k) == outbox[ids[k] := outbox[ids[k]].(publishes := outbox[ids[k]].publishes + 1)]
  {
  }

  lemma NoFault(outbox: map<Id, Ticket>, ids: seq<Id>)
    ensures AfterFault(outbox, ids, |ids|) == outbox
  {
  }

  lemma NoneMarked(outbox: map<Id, Ticket>, ids: seq<Id>, at: Id -> int)
    ensures Marked(outbox, ids[..0], at) == outbox
  {
  }

  lemma NoJobs(queue: map<string, QueueEntry>, jobs: seq<Job>)
    ensures WithJobs(queue, jobs[..0]) == queue
  {
  }

  /** The next row is as it was, and marking it extends the marked prefix. */
  lemma MarkedNext(outbox: map<Id, Ticket>, ids: seq<Id>, i: nat, at: Id -> int)
    requires P.Distinct(ids) && i < |ids| && ids[i] in outbox
    ensures var marked := Marked(outbox, ids[..i], at);
      && ids[i] in marked && marked[ids[i]] == outbox[ids[i]]
      && Marked(outbox, ids[..i + 1], at) == marked[ids[i] := outbox[ids[i]].(publishedAt := Some(at(ids[i])))]
  {
    assert ids[..i + 1] == ids[..i] + [ids[i]];
    assert ids[i] !in ids[..i];
  }

  lemma CopyAt(outbox: map<Id, Ticket>, ids: seq<Id>, i: nat)
    requires i < |ids| && forall k :: 0 <= k < |ids| ==> ids[k] in outbox
    ensures |P.Copies(outbox, ids)| == |ids| && P.Copies(outbox, ids)[i] == P.RowOf(outbox, ids[i])
  {
  }

  lemma AddedNext(queue: map<string, QueueEntry>, jobs: seq<Job>, i: nat)
    requires i < |jobs|
    ensures var before, key := WithJobs(queue, jobs[..i]), JobId(jobs[i].outbox, jobs[i].counter);
      WithJobs(queue, jobs[..i + 1]) == if key in before then before else before[key := QueueEntry(jobs[i], WAITING)]
  {
    assert jobs[..i + 1][..i] == jobs[..i];
  }

  /** Row `i` after the rows before it: it and its job are as they were read, and what
      adding and marking it, or failing at it, comes to. */
  lemma NextRow(outbox: map<Id, Ticket>, queue: map<string, QueueEntry>, ids: seq<Id>, at: Id -> int, i: nat)
    requires P.Distinct(ids) && i < |ids| && forall k :: 0 <= k < |ids| ==> ids[k] in outbox
    ensures var marked, jobs, id := Marked(outbox, ids[..i], at), P.Copies(outbox, ids), ids[i];
      && |jobs| == |ids| && id in marked
      && var job := P.RowOf(marked, id);
      && job.outbox == id
      && Marked(outbox, ids[..i + 1], at) == marked[id := marked[id].(publishedAt := Some(at(id)))]
      && AfterFault(marked, ids, i) == marked[id := marked[id].(publishes := marked[id].publishes + 1)]
      && var before, key := WithJobs(queue, jobs[..i]), JobId(job.outbox, job.counter);
      && WithJobs(queue, jobs[..i + 1]) == if key in before then before else before[key := QueueEntry(job, WAITING)]
  {
    var marked := Marked(outbox, ids[..i], at);
    hide *;
    MarkedNext(outbox, ids, i, at);
    CopyAt(outbox, ids, i);
    AddedNext(queue, P.Copies(outbox, ids), i);
    SameRow(marked, outbox, ids[i]);
    FaultAt(marked, ids, i);
  }

  class DeliveryOutboxPublisher {
    var publishing: bool
    var lastMaintenanceAt: int
    const deliveryQueue: DeliveryQueue
    const prisma: Database
    const maintenance: DeliveryMaintenance

    constructor (deliveryQueue: DeliveryQueue, prisma: Database, maintenance: DeliveryMaintenance)
      ensures !publishing && lastMaintenanceAt == 0
      ensures this.deliveryQueue == deliveryQueue && this.prisma == prisma && this.maintenance == maintenance
    {
      publishing, lastMaintenanceAt := false, 0;
      this.deliveryQueue, this.prisma, this.maintenance := deliveryQueue, prisma, maintenance;
    }

    /** The query: the oldest due rows, at most 100. */
    method FindDue(now: int) returns (ids: seq<Id>)
      ensures P.OldestDue(prisma.outbox, now, ids)
    {
      ids := [];
      var rest := set t | t in prisma.outbox && P.Due(prisma.outbox, now, t);
      while rest != {} && |ids| < 100
        invariant P.Distinct(ids) && |ids| <= 100
        invariant forall t :: t in rest ==> P.Due(prisma.outbox, now, t) && t !in ids
        invariant forall i :: 0 <= i < |ids| ==> P.Due(prisma.outbox, now, ids[i])
        invariant forall t :: P.Due(prisma.outbox, now, t) ==> t in rest || t in ids
        invariant forall i, j :: 0 <= i < j < |ids| ==>
          prisma.outbox[ids[i]].createdAt <= prisma.outbox[ids[j]].createdAt
        invariant forall t, i :: t in rest && 0 <= i < |ids| ==>
          prisma.outbox[ids[i]].createdAt <= prisma.outbox[t].createdAt
        decreases |rest|
      {
        var oldest := FindOldest(rest);
        ids, rest := ids + [oldest], rest - {oldest};
      }
    }

    method FindOldest(rows: set<Id>) returns (oldest: Id)
      requires rows != {} && forall t :: t in rows ==> t in prisma.outbox
      ensures oldest in rows && forall t :: t in rows ==> prisma.outbox[oldest].createdAt <= prisma.outbox[t].createdAt
    {
      oldest :| oldest in rows;
      var rest := rows - {oldest};
      while rest != {}
        invariant oldest in rows && rest <= rows
        invariant forall t :: t in rows ==> t in rest || prisma.outbox[oldest].createdAt <= prisma.outbox[t].createdAt
        decreases |rest|
      {
        var t :| t in rest;
        if prisma.outbox[t].createdAt < prisma.outbox[oldest].createdAt {
          oldest := t;
        }
        rest := rest - {t};
      }
    }

    /** One publication: a busy publisher does nothing.  Otherwise, after maintenance
        if a minute has passed since the last, the rows returned by the query are
        added to the queue and marked, oldest first.  If the call fails at row k,
        exactly the rows before k are marked, row k's counter is one higher and it
        stays unpublished, later rows are untouched, and the error is passed on, as is
        one of maintenance.  The guard flag is cleared either way. */
    method PublishPending(call: Call) returns (ids: seq<Id>, thrown: bool, ghost failed: bool, ghost before: Tables)
      requires maintenance.prisma == prisma && maintenance.deliveryQueue == deliveryQueue && |call.tickets| >= 100
      modifies this, deliveryQueue, prisma`events, prisma`deliveries, prisma`outbox
      ensures old(publishing) ==>
        && publishing && !thrown && ids == [] && lastMaintenanceAt == old(lastMaintenanceAt)
        && prisma.Contents() == old(prisma.Contents()) && deliveryQueue.jobs == old(deliveryQueue.jobs)
      ensures !old(publishing) ==>
        && !publishing
        && Called(maintenance.config, old(lastMaintenanceAt), old(prisma.Contents()), old(deliveryQueue.jobs), call,
                  failed, before, ids, thrown, lastMaintenanceAt, prisma.Contents(), deliveryQueue.jobs)
    {
      ids, thrown, failed, before := [], false, false, prisma.Contents();
      if publishing {
        return;
      }
      publishing := true;
      if call.clock.checkedAt - lastMaintenanceAt >= 60_000 {
        ghost var stale, published;
        thrown, stale, published := maintenance.RecoverAndCleanup(call.tickets, call.clock.maintainedAt, call.stop);
        failed, before := thrown, prisma.Contents();
        assert Maintained(maintenance.config, old(prisma.Contents()), old(deliveryQueue.jobs), stale, published,
                          call.tickets, call.clock.maintainedAt, call.stop, failed, before);
        if thrown {
          publishing := false;
          return;
        }
        lastMaintenanceAt := call.clock.recordedAt;
      }
      ids := FindDue(call.clock.queriedAt);
      thrown := PublishRows(ids, call.clock.markedAt, call.fault, before.outbox);
      publishing := false;
    }

    /** The body of the loop: adds a row's job and marks the row; `failure` says that
        this fails, and whether after the job was added. */
    method PublishRow(outbox: Job, now: int, failure: Option<bool>)
      requires outbox.outbox in prisma.outbox
      modifies deliveryQueue, prisma`outbox
      ensures var id, row := outbox.outbox, old(prisma.outbox)[outbox.outbox];
        prisma.outbox == old(prisma.outbox)[id :=
          if failure.Some? then row.(publishes := row.publishes + 1) else row.(publishedAt := Some(now))]
      ensures var key, jobs := JobId(outbox.outbox, outbox.counter), old(deliveryQueue.jobs);
        deliveryQueue.jobs
          == if failure == Some(false) || key in jobs then jobs else jobs[key := QueueEntry(outbox, WAITING)]
    {
      hide *;
      var id := outbox.outbox;
      if failure != Some(false) {
        deliveryQueue.Add(JobId(outbox.outbox, outbox.counter), outbox);
      }
      if failure.None? {
        prisma.outbox := prisma.outbox[id := prisma.outbox[id].(publishedAt := Some(now))];
      } else {
        prisma.outbox := prisma.outbox[id := prisma.outbox[id].(publishes := prisma.outbox[id].publishes + 1)];
      }
    }

    method PublishRows(ids: seq<Id>, at: Id -> int, fault: Option<Fault>, ghost before: map<Id, Ticket>)
        returns (thrown: bool)
      requires P.Distinct(ids) && before == prisma.outbox && forall i :: 0 <= i < |ids| ==> ids[i] in before
      modifies deliveryQueue, prisma`outbox
      ensures var k := MarkedRows(ids, fault);
        && thrown == (k < |ids|)
        && prisma.outbox == AfterFault(Marked(before, ids[..k], at), ids, k)
        && deliveryQueue.jobs == WithJobs(old(deliveryQueue.jobs), P.Copies(before, ids)[..AddedJobs(ids, fault)])
    {
      ghost var jobs := P.Copies(before, ids);
      hide *;
      NoneMarked(before, ids, at);
      NoJobs(deliveryQueue.jobs, jobs);
      for i := 0 to |ids|
        invariant fault.Some? ==> i <= fault.value.row
        invariant prisma.outbox == Marked(before, ids[..i], at)
        invariant deliveryQueue.jobs == WithJobs(old(deliveryQueue.jobs), jobs[..i])
      {
        var id := ids[i];
        NextRow(before, old(deliveryQueue.jobs), ids, at, i);
        var outbox := P.RowOf(prisma.outbox, id);
        if fault.Some? && fault.value.row == i {
          PublishRow(outbox, at(id), Some(fault.value.added));
          return true;
        }
        PublishRow(outbox, at(id), None);
      }
      NoFault(prisma.outbox, ids);
      assert ids[..|ids|] == ids;
      thrown := false;
    }
  }

  // ---------------------------------------------------------------- draining

  function DueRows(outbox: map<Id, Ticket>, now: int): set<Id> {
    set t | t in outbox && P.Due(outbox, now, t)
  }

  /** A call that publishes all it finds. */
  ghost predicate Round(outbox: map<Id, Ticket>, now: int, outbox': map<Id, Ticket>) {
    exists ids, at :: P.OldestDue(outbox, now, ids) && outbox' == Marked(outbox, ids, at)
  }

  /** A call that does not throw and finds maintenance not due is such a round; after
      maintenance it is one on the tables maintenance left. */
  lemma CallIsARound(c: Config, last: int, db: Tables, queue: map<string, QueueEntry>, call: Call, failed: bool,
                     before: Tables, ids: seq<Id>, last': int, after: Tables, queue': map<string, QueueEntry>)
    requires |call.tickets| >= 100 && Called(c, last, db, queue, call, failed, before, ids, false, last', after, queue')
    ensures Round(before.outbox, call.clock.queriedAt, after.outbox)
    ensures !MaintenanceDue(last, call.clock) ==> before == db
  {
    hide Marked, P.OldestDue, Maintained, WithJobs, P.Copies;
    assert ids[..|ids|] == ids;
    assert after.outbox == Marked(before.outbox, ids, call.clock.markedAt);
  }

  lemma SetOfDistinct(ids: seq<Id>)
    requires P.Distinct(ids)
    ensures |set t | t in ids| == |ids|
  {
    if ids != [] {
      var last := |ids| - 1;
      SetOfDistinct(ids[..last]);
      assert (set t | t in ids) == (set t | t in ids[..last]) + {ids[last]};
    }
  }

  lemma Smaller<X>(a: set<X>, b: set<X>)
    requires a <= b
    ensures |a| <= |b|
  {
    if x :| x in a {
      Smaller(a - {x}, b - {x});
    }
  }

  /** A call publishes 100 due rows, or all of them, and no published row is newer
      than one that stays. */
  lemma RoundDrains(outbox: map<Id, Ticket>, now: int, outbox': map<Id, Ticket>)
    requires Round(outbox, now, outbox')
    ensures DueRows(outbox', now) <= DueRows(outbox, now)
    ensures |DueRows(outbox', now)| == if |DueRows(outbox, now)| <= 100 then 0 else |DueRows(outbox, now)| - 100
    ensures outbox'.Keys == outbox.Keys
    ensures forall t, u :: t in DueRows(outbox, now) - DueRows(outbox', now) && u in DueRows(outbox', now) ==>
      outbox[t].createdAt <= outbox[u].createdAt
  {
    var ids, at :| P.OldestDue(outbox, now, ids) && outbox' == Marked(outbox, ids, at);
    var published := set t | t in ids;
    SetOfDistinct(ids);
    LeftOver(outbox, ids, now, at);
    if |ids| < 100 {
      assert DueRows(outbox', now) == {} by { hide Marked; }
    }
    hide Marked, P.Due;
  }

  lemma LeftOver(outbox: map<Id, Ticket>, ids: seq<Id>, now: int, at: Id -> int)
    requires P.OldestDue(outbox, now, ids)
    ensures var published := set t | t in ids;
      && published <= DueRows(outbox, now)
      && DueRows(Marked(outbox, ids, at), now) == DueRows(outbox, now) - published
  {
  }

  /** No unpublished row becomes due after `from` and by `until`. */
  ghost predicate NoneBecomesDue(outbox: map<Id, Ticket>, from: int, until: int) {
    from <= until && forall t :: P.Due(outbox, until, t) ==> P.Due(outbox, from, t)
  }

  lemma SameDue(outbox: map<Id, Ticket>, from: int, until: int)
    requires NoneBecomesDue(outbox, from, until)
    ensures DueRows(outbox, until) == DueRows(outbox, from)
  {
  }

  lemma StillNoneBecomesDue(outbox: map<Id, Ticket>, now: int, outbox': map<Id, Ticket>, from: int, until: int)
    requires Round(outbox, now, outbox') && NoneBecomesDue(outbox, from, until)
    ensures NoneBecomesDue(outbox', from, until)
  {
    var ids, at :| P.OldestDue(outbox, now, ids) && outbox' == Marked(outbox, ids, at);
    hide P.OldestDue;
    forall t | P.Due(outbox', until, t) ensures P.Due(outbox', from, t) {
      assert P.Due(outbox, until, t);
    }
  }

  /** Each call reads the clock for itself: `clock[k]` is the reading of call k. */
  ghost predicate Rounds(tables: seq<map<Id, Ticket>>, clock: seq<int>) {
    |tables| == |clock| + 1 && forall k :: 0 <= k < |clock| ==> Round(tables[k], clock[k], tables[k + 1])
  }

  /** Without failures and new rows, and while no further row becomes due, N due rows
      are all published after exactly ceil(N / 100) calls, and after no fewer. */
  lemma {:induction false} DrainsExactly(tables: seq<map<Id, Ticket>>, clock: seq<int>, from: int, i: nat)
    requires Rounds(tables, clock) && i <= |clock|
    requires forall k :: 0 <= k < |clock| ==> NoneBecomesDue(tables[0], from, clock[k])
    ensures var n := |DueRows(tables[0], from)|;
      && |DueRows(tables[i], from)| == (if n <= 100 * i then 0 else n - 100 * i)
      && (DueRows(tables[i], from) == {} <==> i >= (n + 99) / 100)
    ensures forall k :: 0 <= k < |clock| ==> NoneBecomesDue(tables[i], from, clock[k])
  {
    hide Round, NoneBecomesDue;
    if i > 0 {
      var last := i - 1;
      DrainsExactly(tables, clock, from, last);
      SameDue(tables[last], from, clock[last]);
      StillNoneBecomesDue(tables[last], clock[last], tables[i], from, clock[last]);
      SameDue(tables[i], from, clock[last]);
      RoundDrains(tables[last], clock[last], tables[i]);
      forall k | 0 <= k < |clock| ensures NoneBecomesDue(tables[i], from, clock[k]) {
        StillNoneBecomesDue(tables[last], clock[last], tables[i], from, clock[k]);
      }
    }
  }
}
