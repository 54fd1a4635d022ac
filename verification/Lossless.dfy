/** No delivery is lost: with one live worker per delivery (X), no stale
    rate-limit rejections (Y), and jobs lost only where stranded recovery finds
    their rows (the weaker form of Q), every delivery that is waiting for its next
    attempt has an order that reaches a worker, or that stranded recovery takes up;
    with no job lost at all (Q), it always has the former. */
module Lossless {
  import opened Domain
  import opened Transactions
  import opened JobIds
  import opened Protocol
  import opened Effects
  import opened Structure
  import Attempts
  import Orderly
  import Retry

  // ---------------------------------------------------------------- invariant

  predicate IsWaiting(s: State, jobId: string) {
    jobId in s.queue && s.queue[jobId].state.WAITING?
  }

  predicate IsOpen(s: State, t: Id) {
    t in s.db.outbox && s.db.outbox[t].publishedAt.None?
  }

  ghost predicate NobodyLeaves(s: State, t: Id) {
    forall w :: w in s.workers && s.workers[w].Leaving? ==> s.workers[w].job.outbox != t
  }

  /** Row `t` exists, and its current job is missing or has failed. */
  predicate KeyDead(s: State, t: Id) {
    && t in s.db.outbox
    && var current := JobId(t, s.db.outbox[t].publishes);
       current in s.queue ==> s.queue[current].state.FAILED_JOB?
  }

  /** Row `t` has a waiting job, or no publisher has touched it yet, or, unless
      `strict`, its delivery is PENDING and stranded recovery will look at it. */
  ghost predicate Alive(s: State, t: Id, status: DeliveryStatus, strict: bool) {
    || HasJob(s, t)
    || (IsOpen(s, t) && !WasAdded(s, t))
    || (!strict && status.PENDING? && KeyDead(s, t))
  }

  /** Row `t` orders attempt `number` of `d`, it is alive, and no worker is done with
      it. */
  ghost predicate Pending(s: State, d: Id, number: nat, t: Id, status: DeliveryStatus, strict: bool) {
    && t in s.h.issued
    && s.h.issued[t].delivery == d
    && s.h.issued[t].number == number
    && Alive(s, t, status, strict)
    && NobodyLeaves(s, t)
  }

  /** The order created last for a waiting delivery is pending. */
  ghost predicate Kept(s: State, d: Id, strict: bool) {
    && d in s.db.deliveries
    && var row := s.db.deliveries[d];
       row.status.Claimable() ==> Pending(s, d, row.attempts + 1, RecordOf(s.h, d).current, row.status, strict)
  }

  ghost predicate NothingLost(s: State, strict: bool) {
    forall d :: d in s.db.deliveries ==> Kept(s, d, strict)
  }

  ghost predicate Safe(c: Config, s: State, strict: bool) {
    Attempts.Counted(c, s) && Orderly.InOrder(s) && NothingLost(s, strict)
  }

  // ---------------------------------------------------------------- effects

  /** The order an effect creates is for the next attempt. */
  ghost predicate NextNumber(s: State, e: Effect) {
    e.Issues() && e.d in s.db.deliveries ==> e.Number() == RowAfter(s.db.deliveries[e.d], e, s.now).attempts + 1
  }

  /** The job is not the current order of a waiting delivery, other than the one
      that `e` writes. */
  ghost predicate Harmless(s: State, job: Job, e: Effect) {
    forall d :: d in s.db.deliveries && s.db.deliveries[d].status.Claimable() && !(e.Writes() && e.d == d) ==>
      job.outbox != RecordOf(s.h, d).current
  }

  /** Waiting jobs go on waiting, and failed ones do not change. */
  ghost predicate QueueStays(s: State, s': State) {
    && QueueShrinks(s, s')
    && (forall k :: IsWaiting(s, k) ==> IsWaiting(s', k))
    && (forall k :: k in s'.queue && s.queue[k].state.FAILED_JOB? ==> s'.queue[k].state.FAILED_JOB?)
  }

  /** The row of a waiting delivery's current order goes only if its job waits. */
  ghost predicate RowsStay(s: State, s': State) {
    forall d, t :: WaitsFor(s, d, t) && d in s'.db.deliveries && t in s.db.outbox && t !in s'.db.outbox ==> HasJob(s, t)
  }

  /** A step that loses nothing outside the row it writes: jobs and rows stay, and
      workers only finish with harmless jobs. */
  ghost predicate Careful(s: State, s': State, e: Effect) {
    && s'.h.added == s.h.added
    && QueueStays(s, s')
    && RowsStay(s, s')
    && (forall w :: w in s'.workers ==> JobOk(s, s'.workers[w].job))
    && (forall w :: w in s'.workers && s'.workers[w].Leaving? ==>
          (w in s.workers && s.workers[w] == s'.workers[w]) || Harmless(s, s'.workers[w].job, e))
    && (e.Remark? && e.ticket.publishedAt.Some? ==> WasAdded(s, e.t))
    && NextNumber(s, e)
  }

  /** A newly created order is pending: nobody has heard of it. */
  lemma NewOrderPending(s: State, s': State, e: Effect, d: Id, number: nat, t: Id, status: DeliveryStatus, strict: bool)
    requires AddedOk(s) && Careful(s, s', e)
    requires t !in s.h.issued && t in s'.h.issued && s'.h.issued[t].delivery == d && s'.h.issued[t].number == number
    requires IsOpen(s', t)
    ensures Pending(s', d, number, t, status, strict)
  {
    forall w | w in s'.workers ensures s'.workers[w].job.outbox != t {
      assert JobOk(s, s'.workers[w].job);
    }
  }

  lemma OpenKept(s: State, s': State, e: Effect, t: Id)
    requires RowsOk(s) && AddedOk(s) && Fits(s, s', e)
    requires IsOpen(s, t) && s.db.outbox[t].delivery in s'.db.deliveries
    requires e.Remark? && e.ticket.publishedAt.Some? ==> WasAdded(s, e.t)
    ensures IsOpen(s', t) || WasAdded(s, t)
  {
    hide RowAfter, RecordAfter, NewDelivery;
  }

  lemma JobStays(s: State, s': State, t: Id)
    requires QueueStays(s, s') && HasJob(s, t)
    ensures HasJob(s', t)
  {
    var k :| IsJobOf(s, k, t);
    assert IsWaiting(s, k);
    assert IsJobOf(s', k, t);
  }

  /** A row that stays is the same up to its publication columns. */
  lemma RowKept(s: State, s': State, t: Id)
    requires RowsOk(s) && Grows(s, s') && t in s.db.outbox && t in s'.db.outbox
    ensures s.db.outbox[t].publishes <= s'.db.outbox[t].publishes
  {
  }

  /** A dead job stays dead: a new counter has never been used. */
  lemma DeadStays(s: State, s': State, t: Id)
    requires Structured(s) && Grows(s, s') && QueueStays(s, s') && KeyDead(s, t) && t in s'.db.outbox
    ensures KeyDead(s', t)
  {
    RowKept(s, s', t);
    var n := s'.db.outbox[t].publishes;
    if JobId(t, n) in s'.queue && s.db.outbox[t].publishes < n {
      CounterUnused(s, t, n);
    }
  }

  lemma CounterUnused(s: State, t: Id, n: nat)
    requires Structured(s) && t in s.db.outbox && s.db.outbox[t].publishes < n
    ensures JobId(t, n) !in s.queue
  {
    if JobId(t, n) in s.queue {
      var job := s.queue[JobId(t, n)].job;
      assert JobOk(s, job);
      JobIdInjective(t, n, job.outbox, job.counter);
    }
  }

  lemma AliveStays(s: State, s': State, e: Effect, d: Id, t: Id, status: DeliveryStatus, strict: bool)
    requires Structured(s) && Fits(s, s', e) && Grows(s, s') && Careful(s, s', e)
    requires WaitsFor(s, d, t) && d in s'.db.deliveries && t in s.h.issued && s.h.issued[t].delivery == d
    requires Alive(s, t, status, strict)
    ensures Alive(s', t, status, strict)
  {
    if HasJob(s, t) {
      JobStays(s, s', t);
    } else if IsOpen(s, t) && !WasAdded(s, t) {
      OpenKept(s, s', e, t);
      hide Fits, Structured;
    } else {
      hide Fits;
      DeadStays(s, s', t);
    }
  }

  lemma OldOrderPending(s: State, s': State, e: Effect, d: Id, number: nat, t: Id, status: DeliveryStatus, strict: bool)
    requires Structured(s) && Fits(s, s', e) && Grows(s, s') && Careful(s, s', e)
    requires WaitsFor(s, d, t) && Pending(s, d, number, t, status, strict) && d in s'.db.deliveries
    requires forall w :: w in s'.workers && s'.workers[w].Leaving? && Harmless(s, s'.workers[w].job, e) ==>
      s'.workers[w].job.outbox != t
    ensures Pending(s', d, number, t, status, strict)
  {
    hide Fits, Structured, Alive;
    AliveStays(s, s', e, d, t, status, strict);
  }

  lemma DeliveryKept(s: State, s': State, e: Effect, d: Id, strict: bool)
    requires Structured(s) && NothingLost(s, strict) && Fits(s, s', e) && Grows(s, s') && Careful(s, s', e)
    requires d in s'.db.deliveries && !(e.Writes() && e.d == d) && !(e.Accept? && d in e.fan)
    ensures Kept(s', d, strict)
  {
    SameDelivery(s, s', e, d);
    assert Kept(s, d, strict);
    hide Fits, Alive;
    if s.db.deliveries[d].status.Claimable() {
      OldOrderPending(s, s', e, d, s.db.deliveries[d].attempts + 1, RecordOf(s.h, d).current,
        s.db.deliveries[d].status, strict);
    }
  }

  lemma WrittenKept(s: State, s': State, e: Effect, strict: bool)
    requires Structured(s) && e.Writes() && Written(s, s', e) && Careful(s, s', e)
    requires e.Terminate? ==> e.status.Terminal()
    ensures Kept(s', e.d, strict)
  {
    assert s'.db.deliveries[e.d] == RowAfter(s.db.deliveries[e.d], e, s.now);
    if e.Issues() {
      NewOrderPending(s, s', e, e.d, e.Number(), e.t, s'.db.deliveries[e.d].status, strict);
    }
    hide Alive;
  }

  lemma AcceptedKept(s: State, s': State, e: Effect, d: Id, strict: bool)
    requires Structured(s) && e.Accept? && Accepted(s, s', e) && Careful(s, s', e) && d in e.fan
    ensures Kept(s', d, strict)
  {
    NewOrderPending(s, s', e, d, 1, e.first[d], PENDING, strict);
    hide Alive;
  }

  lemma EffectKeepsOrders(s: State, s': State, e: Effect, strict: bool)
    requires Structured(s) && NothingLost(s, strict) && Fits(s, s', e) && Careful(s, s', e)
    requires e.Terminate? ==> e.status.Terminal()
    ensures NothingLost(s', strict)
  {
    EffectKeeps(s, s', e);
    hide Structured, Careful, Kept, Written, Accepted;
    forall d | d in s'.db.deliveries ensures Kept(s', d, strict) {
      if e.Writes() && e.d == d {
        WrittenKept(s, s', e, strict);
      } else if e.Accept? && d in e.fan {
        AcceptedKept(s, s', e, d, strict);
      } else {
        DeliveryKept(s, s', e, d, strict);
      }
    }
  }

  // ---------------------------------------------------------------- workers

  /** A worker that is done with the current order of a waiting delivery has
      written that delivery. */
  lemma DoneIsHarmless(s: State, job: Job, e: Effect, strict: bool)
    requires NothingLost(s, strict) && JobOk(s, job)
    requires
      || (e.Writes() && e.d == job.delivery)
      || job.delivery !in s.db.deliveries
      || !CanClaim(s.db, job.delivery, job.expected)
    ensures Harmless(s, job, e)
  {
    forall d | d in s.db.deliveries && s.db.deliveries[d].status.Claimable() && !(e.Writes() && e.d == d)
      ensures job.outbox != RecordOf(s.h, d).current
    {
      assert Kept(s, d, strict);
    }
  }

  /** Why the job of a worker that leaves is done. */
  lemma LeavingJob(c: Config, s: State, w: nat, step: WorkerStep)
    requires WorkerEnabled(s, w, step)
    ensures var s', e := WorkerNext(c, s, w, step), WorkerEffect(c, s, w, step);
      && (forall v :: v in s'.workers && v != w ==> v in s.workers && s'.workers[v] == s.workers[v])
      && (w in s'.workers && s'.workers[w].Leaving? ==>
            var job := s'.workers[w].job;
            || (e.Writes() && e.d == job.delivery)
            || job.delivery !in s.db.deliveries
            || !CanClaim(s.db, job.delivery, job.expected))
      && !e.Remark?
      && (e.Terminate? ==> e.status.Terminal())
  {
    hide Retry.Decide, MarkTerminal, MarkFailedAndSchedule, MarkRateLimitedAndSchedule, ClaimForProcessing, RecordOf,
      Settle;
    match step
    case Respond(reply, draw, ticket) =>
      var job, attempt := s.workers[w].job, s.workers[w].attempt;
      SettleFrame(s.(workers := s.workers[w := Leaving(job)]), job.delivery, attempt,
        Retry.Decide(c, attempt, reply, s.now, draw), ticket);
    case _ =>
  }

  lemma WorkerNumbers(c: Config, s: State, w: nat, step: WorkerStep)
    requires Orderly.LiveRowsOk(s) && WorkerEnabled(s, w, step) && NoStaleReject(s, Work(w, step))
    ensures NextNumber(s, WorkerEffect(c, s, w, step))
  {
    hide Retry.Decide;
    match step
    case Respond(_, _, _) => assert Orderly.KnowsRow(s, s.workers[w]);
    case Reject(_, _) => assert Orderly.KnowsRow(s, s.workers[w]);
    case _ =>
  }

  /** Only retention and the clean-up remove outbox rows. */
  lemma NoRowGoes(s: State, s': State, e: Effect)
    requires Fits(s, s', e) && !e.Prune?
    ensures RowsStay(s, s')
  {
  }

  lemma WorkerRowsStay(c: Config, s: State, w: nat, step: WorkerStep)
    requires Structured(s) && WorkerEnabled(s, w, step) && !step.Report?
    requires Fits(s, WorkerNext(c, s, w, step), WorkerEffect(c, s, w, step))
    ensures RowsStay(s, WorkerNext(c, s, w, step)) && WorkerNext(c, s, w, step).queue == s.queue
  {
    hide *;
    WorkerQueue(c, s, w, step);
    NoRowGoes(s, WorkerNext(c, s, w, step), WorkerEffect(c, s, w, step));
  }

  lemma WorkerQueue(c: Config, s: State, w: nat, step: WorkerStep)
    requires WorkerEnabled(s, w, step) && !step.Report?
    ensures WorkerNext(c, s, w, step).queue == s.queue && !WorkerEffect(c, s, w, step).Prune?
  {
    hide Retry.Decide, MarkTerminal, MarkFailedAndSchedule, MarkRateLimitedAndSchedule, ClaimForProcessing, CanClaim,
      RecordOf, Settle;
    match step
    case Respond(reply, draw, ticket) =>
      var job, attempt := s.workers[w].job, s.workers[w].attempt;
      SettleFrame(s.(workers := s.workers[w := Leaving(job)]), job.delivery, attempt,
        Retry.Decide(c, attempt, reply, s.now, draw), ticket);
    case _ =>
  }

  lemma WorkerSafe(c: Config, s: State, w: nat, step: WorkerStep, strict: bool)
    requires Structured(s) && Orderly.LiveRowsOk(s) && NothingLost(s, strict)
    requires WorkerEnabled(s, w, step) && !step.Report? && NoStaleReject(s, Work(w, step))
    ensures NothingLost(WorkerNext(c, s, w, step), strict)
  {
    var s', e := WorkerNext(c, s, w, step), WorkerEffect(c, s, w, step);
    hide *;
    StructuredRows(s);
    RowsKnown(s);
    WorkersKnown(s);
    WorkerFits(c, s, w, step);
    WorkerFrame(c, s, w, step);
    WorkerJob(c, s, w, step);
    LeavingJob(c, s, w, step);
    WorkerNumbers(c, s, w, step);
    WorkerRowsStay(c, s, w, step);
    forall v | v in s'.workers
      ensures JobOk(s, s'.workers[v].job)
      ensures s'.workers[v].Leaving? ==>
        (v in s.workers && s.workers[v] == s'.workers[v]) || Harmless(s, s'.workers[v].job, e)
    {
      if v == w && s'.workers[w].Leaving? {
        DoneIsHarmless(s, s'.workers[w].job, e, strict);
      }
    }
    SameQueueStays(s, s');
    EffectKeepsOrders(s, s', e, strict);
  }

  /** Reporting a job finishes no current order: nobody leaves with one. */
  lemma ReportSafe(s: State, w: nat, state: JobState, strict: bool)
    requires Structured(s) && NothingLost(s, strict) && WorkerEnabled(s, w, Report(state))
    ensures NothingLost(DoReport(s, w, state), strict)
  {
    var s', key := DoReport(s, w, state), KeyOf(s.workers[w].job);
    forall d | d in s'.db.deliveries ensures Kept(s', d, strict) {
      assert Kept(s, d, strict);
      if s.db.deliveries[d].status.Claimable() {
        var t := RecordOf(s.h, d).current;
        ReportElsewhere(s, s', key, s.workers[w].job, t);
        SameAlive(s, s', t, s.db.deliveries[d].status, strict);
        hide Structured, DoReport, Alive;
        assert NobodyLeaves(s', t);
      }
    }
  }

  /** The jobs of row `t` are not touched. */
  ghost predicate SameJobs(s: State, s': State, t: Id) {
    && (forall k :: IsJobOf(s, k, t) ==> IsJobOf(s', k, t))
    && (forall n: nat :: JobId(t, n) in s'.queue ==>
         JobId(t, n) in s.queue && s'.queue[JobId(t, n)] == s.queue[JobId(t, n)])
  }

  lemma ReportElsewhere(s: State, s': State, key: string, job: Job, t: Id)
    requires QueueOk(s) && key == KeyOf(job) && job.outbox != t
    requires forall k :: k != key ==> (k in s'.queue <==> k in s.queue) && (k in s.queue ==> s'.queue[k] == s.queue[k])
    ensures SameJobs(s, s', t)
  {
    forall k | IsJobOf(s, k, t) ensures k != key {
      if k == key {
        JobIdInjective(s.queue[k].job.outbox, s.queue[k].job.counter, job.outbox, job.counter);
      }
    }
    forall n: nat | JobId(t, n) in s'.queue ensures JobId(t, n) != key {
      if JobId(t, n) == key {
        JobIdInjective(t, n, job.outbox, job.counter);
      }
    }
  }

  lemma SameAlive(s: State, s': State, t: Id, status: DeliveryStatus, strict: bool)
    requires SameJobs(s, s', t) && s'.db.outbox == s.db.outbox && s'.h.added == s.h.added
    requires Alive(s, t, status, strict)
    ensures Alive(s', t, status, strict)
  {
    if k :| IsJobOf(s, k, t) {
      assert IsJobOf(s', k, t);
    }
  }

  // ---------------------------------------------------------------- the other processes

  lemma AddJobSafe(s: State, p: nat, strict: bool)
    requires Structured(s) && NothingLost(s, strict) && PublisherEnabled(s, p, AddJob)
    ensures NothingLost(DoAddJob(s, p), strict)
  {
    var s', row := DoAddJob(s, p), s.publishers[p].rows[0];
    forall d | d in s'.db.deliveries ensures Kept(s', d, strict) {
      assert Kept(s, d, strict);
      if s.db.deliveries[d].status.Claimable() {
        AddJobAlive(s, s', row, RecordOf(s.h, d).current, s.db.deliveries[d].status, strict);
        hide Structured, DoAddJob, Alive;
      }
    }
  }

  /** Adding a job of another row changes nothing, and adding the row's own wakes it. */
  lemma AddJobAlive(s: State, s': State, row: Job, t: Id, status: DeliveryStatus, strict: bool)
    requires QueueOk(s) && Alive(s, t, status, strict)
    requires s'.queue == if KeyOf(row) in s.queue then s.queue else s.queue[KeyOf(row) := QueueEntry(row, WAITING)]
    requires s'.db == s.db && s'.h.added == s.h.added + {(row.outbox, row.counter)}
    ensures Alive(s', t, status, strict)
  {
    if k :| IsJobOf(s, k, t) {
      assert IsJobOf(s', k, t);
    } else if row.outbox == t && KeyOf(row) !in s.queue {
      assert IsJobOf(s', KeyOf(row), t);
    } else if IsOpen(s, t) && !WasAdded(s, t) {
      if row.outbox == t {
        var job := s.queue[KeyOf(row)].job;
        assert JobOk(s, job);
        JobIdInjective(row.outbox, row.counter, job.outbox, job.counter);
      }
    } else if JobId(t, s.db.outbox[t].publishes) == KeyOf(row) {
      JobIdInjective(t, s.db.outbox[t].publishes, row.outbox, row.counter);
    }
  }

  /** Steps that leave the workers alone and add no job. */
  lemma OtherSafe(s: State, s': State, e: Effect, strict: bool)
    requires Structured(s) && NothingLost(s, strict) && Fits(s, s', e)
    requires s'.workers == s.workers && s'.h.added == s.h.added && QueueStays(s, s') && RowsStay(s, s')
    requires e.Remark? && e.ticket.publishedAt.Some? ==> WasAdded(s, e.t)
    requires !e.Terminate? && NextNumber(s, e)
    ensures NothingLost(s', strict)
  {
    hide Fits, NothingLost, NextNumber, QueueStays, RowsStay;
    EffectKeepsOrders(s, s', e, strict);
  }

  lemma PublisherSafe(s: State, p: nat, step: PublisherStep, strict: bool)
    requires Structured(s) && NothingLost(s, strict) && PublisherEnabled(s, p, step)
    ensures NothingLost(PublisherNext(s, p, step), strict)
  {
    if step.AddJob? {
      AddJobSafe(s, p, strict);
    } else {
      hide *;
      PublisherFits(s, p, step);
      PublisherFrame(s, p, step);
      PublisherMarks(s, p, step);
      NoRowGoes(s, PublisherNext(s, p, step), PublisherEffect(s, p, step));
      SameQueueStays(s, PublisherNext(s, p, step));
      OtherSafe(s, PublisherNext(s, p, step), PublisherEffect(s, p, step), strict);
    }
  }

  lemma PublisherMarks(s: State, p: nat, step: PublisherStep)
    requires Structured(s) && PublisherEnabled(s, p, step)
    ensures var e := PublisherEffect(s, p, step);
      && !e.Terminate? && !e.Prune? && NextNumber(s, e)
      && (e.Remark? && e.ticket.publishedAt.Some? ==> WasAdded(s, e.t))
  {
    if step.MarkRow? {
      assert BatchOk(s, s.publishers[p]);
      assert WasAdded(s, s.publishers[p].rows[0].outbox);
    } else if step.FailRow? {
      assert CopyOk(s, s.publishers[p].rows[0]);
    }
  }

  lemma SameQueueStays(s: State, s': State)
    requires s'.queue == s.queue
    ensures QueueStays(s, s')
  {
  }

  lemma SweepSafe(c: Config, s: State, m: nat, step: SweepStep, strict: bool)
    requires Structured(s) && Attempts.SweepsOk(s) && NothingLost(s, strict) && SweepEnabled(c, s, m, step)
    ensures NothingLost(SweepNext(c, s, m, step), strict)
  {
    hide *;
    StructuredRows(s);
    RowsKnown(s);
    SweepFits(c, s, m, step);
    SweepFrame(c, s, m, step);
    SweepNumber(c, s, m, step);
    SweepMarks(c, s, m, step);
    NoRowGoes(s, SweepNext(c, s, m, step), SweepEffect(c, s, m, step));
    SameQueueStays(s, SweepNext(c, s, m, step));
    OtherSafe(s, SweepNext(c, s, m, step), SweepEffect(c, s, m, step), strict);
  }

  lemma SweepMarks(c: Config, s: State, m: nat, step: SweepStep)
    requires SweepEnabled(c, s, m, step)
    ensures var e := SweepEffect(c, s, m, step);
      !e.Terminate? && (e.Remark? ==> e.ticket.publishedAt.None?)
  {
  }

  lemma SweepNumber(c: Config, s: State, m: nat, step: SweepStep)
    requires Attempts.SweepsOk(s) && SweepEnabled(c, s, m, step)
    ensures NextNumber(s, SweepEffect(c, s, m, step)) && !SweepEffect(c, s, m, step).Prune?
  {
    if step.RecoverOne? {
      assert Attempts.FoundOk(s, s.sweeps[m].cutoff, s.sweeps[m].found[0]);
    }
  }

  lemma ReplaySafe(s: State, r: nat, step: ReplayStep, strict: bool)
    requires Structured(s) && NothingLost(s, strict) && ReplayEnabled(s, r, step)
    ensures NothingLost(ReplayNext(s, r, step), strict)
  {
    hide *;
    StructuredRows(s);
    RowsKnown(s);
    ReplayFits(s, r, step);
    ReplayFrame(s, r, step);
    ReplayNumber(s, r, step);
    NoRowGoes(s, ReplayNext(s, r, step), ReplayEffect(s, r, step));
    SameQueueStays(s, ReplayNext(s, r, step));
    OtherSafe(s, ReplayNext(s, r, step), ReplayEffect(s, r, step), strict);
  }

  lemma ReplayNumber(s: State, r: nat, step: ReplayStep)
    requires ReplayEnabled(s, r, step)
    ensures var e := ReplayEffect(s, r, step);
      !e.Prune? && !e.Terminate? && !e.Remark? && NextNumber(s, e)
  {
    hide Fresh;
  }

  lemma QueueSafe(s: State, k: string, step: QueueStep, strict: bool)
    requires Structured(s) && NothingLost(s, strict) && QueueEnabled(s, k, step) && KeepsJobs(s, Queue(k, step), strict)
    ensures NothingLost(QueueNext(s, k, step), strict)
  {
    var s' := QueueNext(s, k, step);
    QueueFrame(s, k, step);
    forall d | d in s'.db.deliveries ensures Kept(s', d, strict) {
      assert Kept(s, d, strict);
      if s.db.deliveries[d].status.Claimable() {
        QueueAlive(s, k, step, d, RecordOf(s.h, d).current, strict);
        hide Structured, QueueNext, Alive;
      }
    }
  }

  /** A step of the queue on a finished job, on the job of another row, or one that
      `NoFatalLoss` allows. */
  lemma QueueAlive(s: State, k: string, step: QueueStep, d: Id, t: Id, strict: bool)
    requires QueueOk(s) && QueueEnabled(s, k, step) && KeepsJobs(s, Queue(k, step), strict)
    requires WaitsFor(s, d, t) && Alive(s, t, s.db.deliveries[d].status, strict)
    requires IsOpen(s, t) && !WasAdded(s, t) ==> k !in s.queue || s.queue[k].job.outbox != t || WasAdded(s, t)
    ensures Alive(QueueNext(s, k, step), t, s.db.deliveries[d].status, strict)
  {
    var s' := QueueNext(s, k, step);
    if s.queue[k].state.WAITING? && s.queue[k].job.outbox == t {
      if j :| j != k && IsJobOf(s, j, t) {
        assert IsJobOf(s', j, t);
      }
    } else {
      if j :| IsJobOf(s, j, t) {
        assert IsJobOf(s', j, t);
      }
      if t in s.db.outbox && JobId(t, s.db.outbox[t].publishes) == k {
        var job := s.queue[k].job;
        JobIdInjective(t, s.db.outbox[t].publishes, job.outbox, job.counter);
      }
    }
  }

  lemma PlainSafe(c: Config, s: State, a: Action, strict: bool)
    requires Structured(s) && NothingLost(s, strict) && Enabled(c, s, a) && KeepsJobs(s, a, strict)
    requires !a.Publisher? && !a.Work? && !a.Maintain? && !a.Replay? && !a.Queue?
    ensures NothingLost(Next(c, s, a), strict)
  {
    hide *;
    RowsStep(c, s, a);
    PlainFrame(c, s, a);
    PlainWrites(c, s, a);
    PlainRowsStay(c, s, a, strict);
    PlainQueueStays(s, Next(c, s, a));
    OtherSafe(s, Next(c, s, a), EffectOf(c, s, a), strict);
  }

  lemma PlainQueueStays(s: State, s': State)
    requires s'.queue == s.queue
    ensures QueueStays(s, s')
  {
  }

  lemma PlainWrites(c: Config, s: State, a: Action)
    requires Enabled(c, s, a) && !a.Publisher? && !a.Work? && !a.Maintain? && !a.Replay? && !a.Queue?
    ensures var e := EffectOf(c, s, a);
      !e.Remark? && !e.Terminate? && NextNumber(s, e)
  {
  }

  lemma PlainRowsStay(c: Config, s: State, a: Action, strict: bool)
    requires Structured(s) && NothingLost(s, strict) && Enabled(c, s, a) && KeepsJobs(s, a, strict)
    requires !a.Publisher? && !a.Work? && !a.Maintain? && !a.Replay? && !a.Queue?
    requires Fits(s, Next(c, s, a), EffectOf(c, s, a))
    ensures RowsStay(s, Next(c, s, a))
  {
    if a.CleanOutbox? {
      CleanRowsStay(s, strict);
    } else if a.CleanEvents? {
      CurrentRows(s, strict);
      EventsRowsStay(s, c.retentionDays);
    } else {
      NotPruned(c, s, a);
      hide Fits, Next, EffectOf, Enabled;
      NoRowGoes(s, Next(c, s, a), EffectOf(c, s, a));
    }
  }

  lemma NotPruned(c: Config, s: State, a: Action)
    requires Enabled(c, s, a) && !a.CleanOutbox? && !a.CleanEvents?
    ensures !EffectOf(c, s, a).Prune?
  {
    hide Retry.Decide;
  }

  /** The current order of a waiting delivery is its own. */
  lemma CurrentRows(s: State, strict: bool)
    requires RowsOk(s) && NothingLost(s, strict)
    ensures forall d, t :: WaitsFor(s, d, t) && t in s.db.outbox ==> s.db.outbox[t].delivery == d
  {
    forall d, t | WaitsFor(s, d, t) && t in s.db.outbox ensures s.db.outbox[t].delivery == d {
      assert Kept(s, d, strict);
    }
  }

  /** The clean-up deletes published rows, whose jobs wait unless they are stranded. */
  lemma CleanRowsStay(s: State, strict: bool)
    requires Structured(s) && NothingLost(s, strict) && KeepsJobs(s, CleanOutbox, strict)
    ensures RowsStay(s, s.(db := CleanupPublished(s.db, s.now)))
  {
    var s' := s.(db := CleanupPublished(s.db, s.now));
    forall d, t | WaitsFor(s, d, t) && t in s.db.outbox && t !in s'.db.outbox ensures HasJob(s, t) {
      assert Kept(s, d, strict);
    }
  }

  lemma EventsRowsStay(s: State, days: nat)
    requires RowsOk(s) && forall d, t :: WaitsFor(s, d, t) && t in s.db.outbox ==> s.db.outbox[t].delivery == d
    ensures RowsStay(s, s.(db := CleanupOldEvents(s.db, days, s.now)))
  {
  }

  lemma LossStep(c: Config, s: State, a: Action, strict: bool)
    requires Safe(c, s, strict) && Enabled(c, s, a) && NoStaleReject(s, a) && KeepsJobs(s, a, strict)
    ensures NothingLost(Next(c, s, a), strict)
  {
    hide NothingLost, Structured, NoStaleReject, KeepsJobs, PublisherEnabled, WorkerEnabled, SweepEnabled,
      ReplayEnabled, QueueEnabled;
    match a
    case Publisher(p, step) => PublisherSafe(s, p, step, strict);
    case Work(w, step) =>
      if step.Report? {
        ReportSafe(s, w, step.state, strict);
      } else {
        WorkerSafe(c, s, w, step, strict);
      }
    case Maintain(m, step) => SweepSafe(c, s, m, step, strict);
    case Replay(r, step) => ReplaySafe(s, r, step, strict);
    case Queue(k, step) => QueueSafe(s, k, step, strict);
    case _ => PlainSafe(c, s, a, strict);
  }

  lemma SafeStep(c: Config, s: State, a: Action, strict: bool)
    requires c.Valid() && Safe(c, s, strict) && Enabled(c, s, a)
    requires OneWorker(s, a) && NoStaleReject(s, a) && KeepsJobs(s, a, strict)
    ensures Safe(c, Next(c, s, a), strict)
  {
    Attempts.CountStep(c, s, a);
    Orderly.OrderStep(c, s, a);
    LossStep(c, s, a, strict);
    hide *;
    SafeParts(c, Next(c, s, a), strict);
  }

  lemma SafeParts(c: Config, s: State, strict: bool)
    requires Attempts.Counted(c, s) && Orderly.InOrder(s) && NothingLost(s, strict)
    ensures Safe(c, s, strict)
  {
  }

  lemma {:induction false} RunSafe(c: Config, states: seq<State>, actions: seq<Action>, strict: bool, i: nat)
    requires c.Valid() && LosslessRun(c, states, actions, strict) && i < |states|
    ensures Safe(c, states[i], strict)
  {
    if i > 0 {
      RunSafe(c, states, actions, strict, i - 1);
      SafeStep(c, states[i - 1], actions[i - 1], strict);
    }
  }

  /** Q in full is more than is needed: a published row that a delivery waits for has a
      job, so the clean-up may delete it. */
  lemma StrictStep(c: Config, s: State, a: Action)
    requires Safe(c, s, true) && KeepsJobs(s, a, true)
    ensures KeepsJobs(s, a, false)
  {
    if a.CleanOutbox? {
      forall d, t | WaitsFor(s, d, t) && t in s.db.outbox && Outdated(s.db.outbox[t], s.now) ensures HasJob(s, t) {
        assert Kept(s, d, true);
      }
    }
    hide Attempts.Counted, Orderly.InOrder, HasJob;
  }

  lemma StrictIsLossless(c: Config, states: seq<State>, actions: seq<Action>)
    requires c.Valid() && LosslessRun(c, states, actions, true)
    ensures LosslessRun(c, states, actions, false)
  {
    hide Safe, KeepsJobs, NoStaleReject, OrderlyRun;
    OrderlyLength(c, states, actions);
    forall i | 0 <= i < |actions| ensures KeepsJobs(states[i], actions[i], false) {
      RunSafe(c, states, actions, true, i);
      StrictStep(c, states[i], actions[i]);
    }
  }

  lemma OrderlyLength(c: Config, states: seq<State>, actions: seq<Action>)
    requires OrderlyRun(c, states, actions)
    ensures |states| == |actions| + 1
  {
    hide Enabled, Next, OneWorker, Init;
  }

  // ---------------------------------------------------------------- the theorem

  /** An order for attempt `number` of `d` will reach a worker: an outbox row that
      is still to be published, under a job id no finished job holds, or a queue
      job that is still waiting. */
  ghost predicate Backed(s: State, d: Id, number: nat) {
    || (exists t :: OpenOrder(s, d, number, t))
    || (exists k :: IsJobFor(s, k, d, number))
  }

  predicate IsJobFor(s: State, k: string, d: Id, number: nat) {
    IsWaiting(s, k) && IsFor(s.queue[k].job, d, number)
  }

  predicate OpenOrder(s: State, d: Id, number: nat, t: Id) {
    && IsOpen(s, t)
    && s.db.outbox[t].delivery == d
    && s.db.outbox[t].attemptNumber == number
    && (JobId(t, s.db.outbox[t].publishes) in s.queue ==> s.queue[JobId(t, s.db.outbox[t].publishes)].state.WAITING?)
  }

  /** An order for attempt `number` of the PENDING delivery `d` whose job is missing
      or has failed. */
  predicate Recoverable(s: State, d: Id, number: nat, t: Id) {
    && d in s.db.deliveries && s.db.deliveries[d].status.PENDING?
    && KeyDead(s, t) && s.db.outbox[t].delivery == d && s.db.outbox[t].attemptNumber == number
  }

  ghost predicate IsRecoverable(s: State, d: Id, number: nat) {
    exists t :: Recoverable(s, d, number, t)
  }

  lemma PendingIsBacked(s: State, d: Id, number: nat, t: Id, strict: bool)
    requires Structured(s) && d in s.db.deliveries && Pending(s, d, number, t, s.db.deliveries[d].status, strict)
    ensures Backed(s, d, number) || (!strict && Recoverable(s, d, number, t))
  {
    if k :| IsJobOf(s, k, t) {
      assert JobOk(s, s.queue[k].job);
      assert IsJobFor(s, k, d, number);
    } else if IsOpen(s, t) && !WasAdded(s, t) {
      var key := JobId(t, s.db.outbox[t].publishes);
      if key in s.queue {
        var job := s.queue[key].job;
        assert JobOk(s, job);
        JobIdInjective(t, s.db.outbox[t].publishes, job.outbox, job.counter);
      }
      assert OpenOrder(s, d, number, t);
    }
  }

  /** No delivery is lost: in every reachable state a delivery waiting for its next
      attempt is backed by an order for exactly that attempt, or, with the weaker form
      of Q, it is PENDING with such an order left for stranded
      recovery; and a delivery in progress carries the date that makes it
      recoverable. */
  lemma NoDeliveryIsLost(c: Config, states: seq<State>, actions: seq<Action>, strict: bool, i: nat, d: Id)
    requires c.Valid() && LosslessRun(c, states, actions, strict) && i < |states| && d in states[i].db.deliveries
    ensures var row := states[i].db.deliveries[d];
      && (row.status.Claimable() ==>
            Backed(states[i], d, row.attempts + 1) || (!strict && IsRecoverable(states[i], d, row.attempts + 1)))
      && (row.status.PROCESSING? ==> row.lastAttemptAt.Some?)
  {
    hide *;
    RunSafe(c, states, actions, strict, i);
    SafeIsBacked(c, states[i], d, strict);
  }

  lemma SafeIsBacked(c: Config, s: State, d: Id, strict: bool)
    requires Safe(c, s, strict) && d in s.db.deliveries
    ensures var row := s.db.deliveries[d];
      && (row.status.Claimable() ==>
            || Backed(s, d, row.attempts + 1)
            || (!strict && IsRecoverable(s, d, row.attempts + 1)))
      && (row.status.PROCESSING? ==> row.lastAttemptAt.Some?)
  {
    assert Kept(s, d, strict);
    assert Attempts.RowOk(s.db.deliveries[d], RecordOf(s.h, d));
    if s.db.deliveries[d].status.Claimable() {
      PendingIsBacked(s, d, s.db.deliveries[d].attempts + 1, RecordOf(s.h, d).current, strict);
    }
  }
}
