/** What every step of the full interleaving keeps about rows, queue jobs and
    the processes that hold copies of them. */
module Structure {
  import opened Domain
  import opened Transactions
  import opened JobIds
  import opened Protocol
  import opened Effects
  import Retry

  // ---------------------------------------------------------------- invariant

  /** Outbox rows agree with the order recorded when they were created, and
      foreign keys hold. */
  ghost predicate RowsOk(s: State) {
    && (forall t :: t in s.db.outbox ==>
          && t in s.h.issued
          && s.h.issued[t] == Order(s.db.outbox[t].delivery, s.db.outbox[t].attemptNumber, s.db.outbox[t].availableAt)
          && s.db.outbox[t].delivery in s.db.deliveries)
    && (forall t :: t in s.h.issued ==> s.h.issued[t].delivery in s.h.records)
    && (forall d :: d in s.db.deliveries ==> d in s.h.records && s.db.deliveries[d].event in s.db.events)
    && (forall e :: e in s.db.events ==> e in s.h.eventIds)
  }

  /** A copy of an outbox row, wherever it is held: it carries the row's payload,
      was taken when the row was due, and its counter is not ahead of the row. */
  ghost predicate CopyOk(s: State, job: Job) {
    && job.outbox in s.h.issued
    && s.h.issued[job.outbox].delivery == job.delivery
    && s.h.issued[job.outbox].number == job.expected
    && s.h.issued[job.outbox].availableAt <= s.now
    && (job.outbox in s.db.outbox ==> job.counter <= s.db.outbox[job.outbox].publishes)
  }

  ghost predicate JobOk(s: State, job: Job) {
    CopyOk(s, job) && (job.outbox, job.counter) in s.h.added
  }

  ghost predicate QueueOk(s: State) {
    forall k :: k in s.queue ==> k == KeyOf(s.queue[k].job) && JobOk(s, s.queue[k].job)
  }

  ghost predicate WorkersOk(s: State) {
    forall w :: w in s.workers ==> JobOk(s, s.workers[w].job)
  }

  ghost predicate BatchOk(s: State, b: Batch) {
    && |b.rows| > 0
    && (forall i :: 0 <= i < |b.rows| ==> CopyOk(s, b.rows[i]))
    && (b.added ==> JobOk(s, b.rows[0]))
  }

  ghost predicate PublishersOk(s: State) {
    forall p :: p in s.publishers ==> BatchOk(s, s.publishers[p])
  }

  /** Every job id ever used for a row is behind the row's counter, and only rows
      that were added are marked published. */
  ghost predicate AddedOk(s: State) {
    && (forall t, n :: (t, n) in s.h.added ==> t in s.h.issued && (t in s.db.outbox ==> n <= s.db.outbox[t].publishes))
    && (forall t :: t in s.db.outbox && s.db.outbox[t].publishedAt.Some? ==> WasAdded(s, t))
  }

  ghost predicate WasAdded(s: State, t: Id) {
    exists n :: (t, n) in s.h.added
  }

  ghost predicate Structured(s: State) {
    RowsOk(s) && QueueOk(s) && WorkersOk(s) && PublishersOk(s) && AddedOk(s)
  }

  lemma StructuredRows(s: State)
    requires Structured(s)
    ensures RowsOk(s)
  {
    hide RowsOk, QueueOk, WorkersOk, PublishersOk, AddedOk;
  }

  lemma RowsKnown(s: State)
    requires RowsOk(s)
    ensures forall d :: d in s.db.deliveries ==> d in s.h.records
  {
  }

  lemma WorkersKnown(s: State)
    requires Structured(s)
    ensures forall w :: w in s.workers ==> s.workers[w].job.delivery in s.h.records
  {
    forall w | w in s.workers ensures s.workers[w].job.delivery in s.h.records {
      assert JobOk(s, s.workers[w].job);
    }
  }

  // ---------------------------------------------------------------- growth

  /** What never shrinks: the clock, the history, and the publish counter of
      every row that still exists. */
  ghost predicate Grows(s: State, s': State) {
    && s.now <= s'.now
    && (forall t :: t in s.h.issued ==> t in s'.h.issued && s'.h.issued[t] == s.h.issued[t])
    && s.h.added <= s'.h.added
    && s.h.records.Keys <= s'.h.records.Keys
    && (forall t :: t in s'.db.outbox ==>
          if t in s.db.outbox then SameOrder(s.db.outbox[t], s'.db.outbox[t]) else t !in s.h.issued)
  }

  lemma CopyKept(s: State, s': State, job: Job)
    requires Grows(s, s') && CopyOk(s, job)
    ensures CopyOk(s', job)
    ensures JobOk(s, job) ==> JobOk(s', job)
  {
  }

  lemma IssuedGrows(s: State, s': State, e: Effect)
    requires e.Issues() && RowsOk(s) && Written(s, s', e)
    ensures Grows(s, s')
  {
    hide RowAfter, RecordAfter;
  }

  lemma IssuedKeeps(s: State, s': State, e: Effect)
    requires e.Issues() && RowsOk(s) && Written(s, s', e)
    ensures RowsOk(s')
  {
    SameEvent(s.db.deliveries[e.d], e, s.now);
    hide RowAfter, RecordAfter;
  }

  lemma SameEvent(row: Delivery, e: Effect, now: int)
    requires e.Writes()
    ensures RowAfter(row, e, now).event == row.event
  {
  }

  lemma WrittenKeeps(s: State, s': State, e: Effect)
    requires e.Writes() && RowsOk(s) && Written(s, s', e)
    ensures Grows(s, s') && RowsOk(s')
  {
    var row := RowAfter(s.db.deliveries[e.d], e, s.now);
    assert row.event == s.db.deliveries[e.d].event;
    hide RowAfter, RecordAfter;
    if e.Issues() {
      IssuedGrows(s, s', e);
      IssuedKeeps(s, s', e);
    } else {
      assert s'.db.outbox == s.db.outbox;
    }
  }

  lemma AcceptedGrows(s: State, s': State, e: Effect)
    requires e.Accept? && RowsOk(s) && Accepted(s, s', e)
    ensures Grows(s, s')
  {
    hide RowAfter, RecordAfter, NewDelivery;
  }

  lemma AcceptedKeeps(s: State, s': State, e: Effect)
    requires e.Accept? && RowsOk(s) && Accepted(s, s', e)
    ensures RowsOk(s')
  {
  }

  lemma EffectKeeps(s: State, s': State, e: Effect)
    requires RowsOk(s) && Fits(s, s', e)
    ensures Grows(s, s') && RowsOk(s')
  {
    match e
    case Nothing =>
    case Remark(_, _) =>
    case Prune =>
    case Accept(_, _, _, _, _) =>
      AcceptedGrows(s, s', e);
      AcceptedKeeps(s, s', e);
    case _ =>
      WrittenKeeps(s, s', e);
  }

  lemma RowsStep(c: Config, s: State, a: Action)
    requires Structured(s) && Enabled(c, s, a)
    ensures Fits(s, Next(c, s, a), EffectOf(c, s, a))
    ensures Grows(s, Next(c, s, a)) && RowsOk(Next(c, s, a))
  {
    hide Next, EffectOf, Enabled, Fits;
    HasEffect(c, s, a);
    EffectKeeps(s, Next(c, s, a), EffectOf(c, s, a));
  }

  // ---------------------------------------------------------------- copies

  lemma PublisherFrame(s: State, p: nat, step: PublisherStep)
    requires PublisherEnabled(s, p, step)
    ensures var s' := PublisherNext(s, p, step);
      && s'.workers == s.workers && s'.sweeps == s.sweeps && s'.replays == s.replays && s'.active == s.active
      && (!step.AddJob? ==> s'.queue == s.queue && s'.h == s.h)
  {
    hide MarkPublished, RecordPublishFailure, OldestDue, Copies;
  }

  lemma SettleFrame(s: State, d: Id, attempt: nat, decision: Retry.Decision, ticket: Id)
    ensures var s' := Settle(s, d, attempt, decision, ticket);
      s' == s.(db := s'.db, h := s'.h) && s'.h.added == s.h.added && s'.h.eventIds == s.h.eventIds
  {
    hide MarkTerminal, MarkFailedAndSchedule, RecordOf;
  }

  lemma WorkerFrame(c: Config, s: State, w: nat, step: WorkerStep)
    requires WorkerEnabled(s, w, step)
    ensures var s' := WorkerNext(c, s, w, step);
      && s'.publishers == s.publishers && s'.sweeps == s.sweeps && s'.replays == s.replays && s'.active == s.active
      && s'.now == s.now && s'.h.added == s.h.added
      && (!step.Report? ==> s'.queue == s.queue)
  {
    hide Retry.Decide, MarkTerminal, MarkFailedAndSchedule, MarkRateLimitedAndSchedule, ClaimForProcessing, CanClaim,
      RecordOf, Settle;
    match step
    case Respond(reply, draw, ticket) =>
      var job, attempt := s.workers[w].job, s.workers[w].attempt;
      SettleFrame(s.(workers := s.workers[w := Leaving(job)]), job.delivery, attempt,
        Retry.Decide(c, attempt, reply, s.now, draw), ticket);
    case _ =>
  }

  lemma RecoverFrame(s: State, m: nat, ticket: Id)
    requires m in s.sweeps && s.sweeps[m].Stale? && |s.sweeps[m].found| > 0
    ensures var s' := DoRecoverOne(s, m, ticket);
      && s' == s.(db := s'.db, h := s'.h, sweeps := s.sweeps[m := Stale(s.sweeps[m].cutoff, s.sweeps[m].found[1..])])
      && s'.h.added == s.h.added
  {
    hide RecoverStale, IsStale, RecordOf;
  }

  lemma SweepFrame(c: Config, s: State, m: nat, step: SweepStep)
    requires SweepEnabled(c, s, m, step)
    ensures var s' := SweepNext(c, s, m, step);
      && s'.publishers == s.publishers && s'.workers == s.workers && s'.replays == s.replays && s'.active == s.active
      && s'.queue == s.queue && s'.now == s.now && s'.h.added == s.h.added
  {
    hide DoRecoverOne, Reopen, IsStale, HasNoLiveJob;
    match step
    case RecoverOne(ticket) => RecoverFrame(s, m, ticket);
    case _ =>
  }

  lemma ReplayFrame(s: State, r: nat, step: ReplayStep)
    requires ReplayEnabled(s, r, step)
    ensures var s' := ReplayNext(s, r, step);
      && s'.publishers == s.publishers && s'.workers == s.workers && s'.sweeps == s.sweeps && s'.active == s.active
      && s'.queue == s.queue && s'.now == s.now && s'.h.added == s.h.added
  {
    hide ResetForReplay, RecordOf, Fresh;
  }

  // ---------------------------------------------------------------- copies are kept

  /** No job is new, and no finished job waits again. */
  ghost predicate QueueShrinks(s: State, s': State) {
    forall k :: k in s'.queue ==>
      && k in s.queue && s'.queue[k].job == s.queue[k].job
      && (s'.queue[k].state.WAITING? ==> s.queue[k].state.WAITING?)
  }

  ghost predicate WorkersShrink(s: State, s': State) {
    forall w :: w in s'.workers ==> w in s.workers && s'.workers[w].job == s.workers[w].job
  }

  lemma QueueKept(s: State, s': State)
    requires QueueOk(s) && Grows(s, s') && QueueShrinks(s, s')
    ensures QueueOk(s')
  {
    forall k | k in s'.queue ensures k == KeyOf(s'.queue[k].job) && JobOk(s', s'.queue[k].job) {
      CopyKept(s, s', s.queue[k].job);
    }
  }

  lemma WorkersKept(s: State, s': State)
    requires WorkersOk(s) && Grows(s, s') && WorkersShrink(s, s')
    ensures WorkersOk(s')
  {
    forall w | w in s'.workers ensures JobOk(s', s'.workers[w].job) {
      CopyKept(s, s', s.workers[w].job);
    }
  }

  lemma BatchKept(s: State, s': State, b: Batch)
    requires BatchOk(s, b) && Grows(s, s')
    ensures BatchOk(s', b)
  {
    forall i | 0 <= i < |b.rows| ensures CopyOk(s', b.rows[i]) {
      CopyKept(s, s', b.rows[i]);
    }
    CopyKept(s, s', b.rows[0]);
  }

  lemma PublishersKept(s: State, s': State)
    requires PublishersOk(s) && Grows(s, s')
    requires forall p :: p in s'.publishers ==> p in s.publishers && s'.publishers[p] == s.publishers[p]
    ensures PublishersOk(s')
  {
    forall p | p in s'.publishers ensures BatchOk(s', s'.publishers[p]) {
      BatchKept(s, s', s.publishers[p]);
    }
  }

  lemma AddedKept(s: State, s': State)
    requires AddedOk(s) && Grows(s, s') && s'.h.added == s.h.added
    requires forall t :: t in s'.db.outbox && s'.db.outbox[t].publishedAt.Some? ==> WasAdded(s, t)
    ensures AddedOk(s')
  {
    forall t | t in s'.db.outbox && s'.db.outbox[t].publishedAt.Some? ensures WasAdded(s', t) {
      var n :| (t, n) in s.h.added;
      assert (t, n) in s'.h.added;
    }
  }

  /** New rows are unpublished, so only a remarked row can become published. */
  lemma EffectPublishes(s: State, s': State, e: Effect)
    requires Fits(s, s', e)
    ensures forall t :: t in s'.db.outbox && s'.db.outbox[t].publishedAt.Some? ==>
      || (t in s.db.outbox && s.db.outbox[t].publishedAt.Some?)
      || (e.Remark? && t == e.t && e.ticket.publishedAt.Some?)
  {
  }

  lemma PublisherKeeps(s: State, p: nat, step: PublisherStep)
    requires Structured(s) && PublisherEnabled(s, p, step)
    ensures Structured(PublisherNext(s, p, step))
  {
    var s' := PublisherNext(s, p, step);
    PublisherFits(s, p, step);
    PublisherFrame(s, p, step);
    var e := PublisherEffect(s, p, step);
    EffectKeeps(s, s', e);
    WorkersKept(s, s');
    if step.AddJob? {
      AddJobKeeps(s, p);
    } else {
      QueueKept(s, s');
      BatchesKept(s, p, step);
      EffectPublishes(s, s', e);
      if step.MarkRow? {
        var row := s.publishers[p].rows[0];
        assert (row.outbox, row.counter) in s.h.added by {
          assert BatchOk(s, s.publishers[p]);
        }
        assert WasAdded(s, row.outbox);
      }
      AddedKept(s, s');
    }
  }

  lemma FetchedOk(s: State, ids: seq<Id>)
    requires RowsOk(s) && |ids| > 0 && forall i :: 0 <= i < |ids| ==>
      ids[i] in s.db.outbox && Due(s.db.outbox, s.now, ids[i])
    ensures BatchOk(s, Batch(Copies(s.db.outbox, ids), false))
  {
  }

  /** Where the batches of the new state come from. */
  lemma BatchesAfter(s: State, p: nat, step: PublisherStep)
    requires PublisherEnabled(s, p, step) && !step.AddJob?
    ensures var s' := PublisherNext(s, p, step);
      && (forall q :: q in s'.publishers && q != p ==> q in s.publishers && s'.publishers[q] == s.publishers[q])
      && (p in s'.publishers ==>
            || (step.Fetch? && s'.publishers[p] == Batch(Copies(s.db.outbox, step.ids), false))
            || (step.MarkRow? && |s.publishers[p].rows| > 1
                 && s'.publishers[p] == Batch(s.publishers[p].rows[1..], false)))
  {
    hide MarkPublished, RecordPublishFailure, Copies;
  }

  lemma BatchesKept(s: State, p: nat, step: PublisherStep)
    requires Structured(s) && PublisherEnabled(s, p, step) && !step.AddJob?
    requires Grows(s, PublisherNext(s, p, step))
    ensures PublishersOk(PublisherNext(s, p, step))
  {
    var s' := PublisherNext(s, p, step);
    BatchesAfter(s, p, step);
    if step.Fetch? {
      FetchedOk(s, step.ids);
      BatchKept(s, s', Batch(Copies(s.db.outbox, step.ids), false));
    } else if p in s'.publishers {
      assert PublisherEnabled(s, p, MarkRow);
      BatchKept(s, s', s.publishers[p]);
      assert BatchOk(s', s'.publishers[p]);
    }
    hide *;
    forall q | q in s'.publishers ensures BatchOk(s', s'.publishers[q]) {
      if q != p {
        OtherBatchKept(s, s', q);
      }
    }
    AllBatches(s');
  }

  lemma OtherBatchKept(s: State, s': State, q: nat)
    requires PublishersOk(s) && Grows(s, s')
    requires q in s.publishers
    ensures BatchOk(s', s.publishers[q])
  {
    BatchKept(s, s', s.publishers[q]);
  }

  lemma AllBatches(s: State)
    requires forall p :: p in s.publishers ==> BatchOk(s, s.publishers[p])
    ensures PublishersOk(s)
  {
  }

  lemma AddJobKeeps(s: State, p: nat)
    requires Structured(s) && PublisherEnabled(s, p, AddJob)
    requires Grows(s, DoAddJob(s, p))
    ensures QueueOk(DoAddJob(s, p)) && PublishersOk(DoAddJob(s, p)) && AddedOk(DoAddJob(s, p))
  {
    var s', row := DoAddJob(s, p), s.publishers[p].rows[0];
    assert BatchOk(s, s.publishers[p]);
    forall k | k in s'.queue ensures k == KeyOf(s'.queue[k].job) && JobOk(s', s'.queue[k].job) {
      if k in s.queue {
        CopyKept(s, s', s.queue[k].job);
      } else {
        CopyKept(s, s', row);
      }
    }
    forall q | q in s'.publishers ensures BatchOk(s', s'.publishers[q]) {
      BatchKept(s, s', s.publishers[q]);
    }
    assert s'.db == s.db;
    forall t | t in s'.db.outbox && s'.db.outbox[t].publishedAt.Some? ensures WasAdded(s', t) {
      assert WasAdded(s, t);
      var n :| (t, n) in s.h.added;
      assert (t, n) in s'.h.added;
    }
  }

  lemma WorkerKeeps(c: Config, s: State, w: nat, step: WorkerStep)
    requires Structured(s) && WorkerEnabled(s, w, step)
    ensures Structured(WorkerNext(c, s, w, step))
  {
    var s', e := WorkerNext(c, s, w, step), WorkerEffect(c, s, w, step);
    WorkerFits(c, s, w, step);
    WorkerFrame(c, s, w, step);
    EffectKeeps(s, s', e);
    EffectPublishes(s, s', e);
    WorkerJob(c, s, w, step);
    assert e.Remark? ==> false;
    hide WorkerNext, WorkerEffect, Fits, Grows, RowsOk;
    PublishersKept(s, s');
    AddedKept(s, s');
    QueueKept(s, s');
    forall v | v in s'.workers ensures JobOk(s', s'.workers[v].job) {
      if v in s.workers && s'.workers[v].job == s.workers[v].job {
        CopyKept(s, s', s.workers[v].job);
      } else {
        CopyKept(s, s', s.queue[step.jobId].job);
      }
    }
  }

  /** A worker keeps its job until it leaves, and a new one takes a queued job. */
  lemma WorkerJob(c: Config, s: State, w: nat, step: WorkerStep)
    requires WorkerEnabled(s, w, step)
    ensures var s' := WorkerNext(c, s, w, step);
      && (forall v :: v in s'.workers ==>
            || (v in s.workers && s'.workers[v].job == s.workers[v].job)
            || (v == w && step.Take? && s'.workers[v].job == s.queue[step.jobId].job))
      && QueueShrinks(s, s')
      && !WorkerEffect(c, s, w, step).Remark?
  {
    hide Retry.Decide, MarkTerminal, MarkFailedAndSchedule, MarkRateLimitedAndSchedule, ClaimForProcessing, CanClaim,
      RecordOf, Settle;
    match step
    case Respond(reply, draw, ticket) =>
      var job, attempt := s.workers[w].job, s.workers[w].attempt;
      SettleFrame(s.(workers := s.workers[w := Leaving(job)]), job.delivery, attempt,
        Retry.Decide(c, attempt, reply, s.now, draw), ticket);
    case _ =>
  }

  lemma SweepKeeps(c: Config, s: State, m: nat, step: SweepStep)
    requires Structured(s) && SweepEnabled(c, s, m, step)
    ensures Structured(SweepNext(c, s, m, step))
  {
    var s', e := SweepNext(c, s, m, step), SweepEffect(c, s, m, step);
    SweepFits(c, s, m, step);
    SweepFrame(c, s, m, step);
    assert !(e.Remark? && e.ticket.publishedAt.Some?);
    hide SweepNext, SweepEffect;
    SharedKeeps(s, s', e);
  }

  lemma ReplayKeeps(s: State, r: nat, step: ReplayStep)
    requires Structured(s) && ReplayEnabled(s, r, step)
    ensures Structured(ReplayNext(s, r, step))
  {
    var s', e := ReplayNext(s, r, step), ReplayEffect(s, r, step);
    ReplayFits(s, r, step);
    ReplayFrame(s, r, step);
    assert !e.Remark?;
    hide ReplayNext, ReplayEffect;
    SharedKeeps(s, s', e);
  }

  /** Steps that change neither the copies nor the publication of a row. */
  lemma SharedKeeps(s: State, s': State, e: Effect)
    requires Structured(s) && Fits(s, s', e)
    requires !(e.Remark? && e.ticket.publishedAt.Some?)
    requires QueueShrinks(s, s') && s'.workers == s.workers && s'.publishers == s.publishers && s'.h.added == s.h.added
    ensures Structured(s')
  {
    EffectKeeps(s, s', e);
    EffectPublishes(s, s', e);
    hide Fits;
    PublishersKept(s, s');
    WorkersKept(s, s');
    QueueKept(s, s');
    AddedKept(s, s');
  }

  /** Every step keeps the structure. */
  lemma StructureStep(c: Config, s: State, a: Action)
    requires Structured(s) && Enabled(c, s, a)
    ensures Structured(Next(c, s, a))
  {
    hide *;
    StepIs(c, s, a);
    match a
    case Publisher(p, step) => PublisherKeeps(s, p, step);
    case Work(w, step) => WorkerKeeps(c, s, w, step);
    case Maintain(m, step) => SweepKeeps(c, s, m, step);
    case Replay(r, step) => ReplayKeeps(s, r, step);
    case Queue(jobId, step) =>
      QueueFrame(s, jobId, step);
      QueueIsNothing(s, QueueNext(s, jobId, step));
      SharedKeeps(s, QueueNext(s, jobId, step), Nothing);
    case _ =>
      StructuredRows(s);
      RowsKnown(s);
      WorkersKnown(s);
      HasEffect(c, s, a);
      PlainFrame(c, s, a);
      SameQueue(s, Next(c, s, a));
      SharedKeeps(s, Next(c, s, a), EffectOf(c, s, a));
  }

  /** A step of a process is that process's step. */
  lemma StepIs(c: Config, s: State, a: Action)
    requires Enabled(c, s, a)
    ensures a.Publisher? ==>
      PublisherEnabled(s, a.p, a.publishing) && Next(c, s, a) == PublisherNext(s, a.p, a.publishing)
    ensures a.Work? ==> WorkerEnabled(s, a.w, a.working) && Next(c, s, a) == WorkerNext(c, s, a.w, a.working)
    ensures a.Maintain? ==> SweepEnabled(c, s, a.m, a.sweeping) && Next(c, s, a) == SweepNext(c, s, a.m, a.sweeping)
    ensures a.Replay? ==> ReplayEnabled(s, a.r, a.replaying) && Next(c, s, a) == ReplayNext(s, a.r, a.replaying)
    ensures a.Queue? ==> QueueEnabled(s, a.jobId, a.queueing) && Next(c, s, a) == QueueNext(s, a.jobId, a.queueing)
  {
    hide PublisherEnabled, PublisherNext, WorkerEnabled, WorkerNext, SweepEnabled, SweepNext, ReplayEnabled,
      ReplayNext, QueueEnabled,
         QueueNext;
  }

  lemma QueueIsNothing(s: State, s': State)
    requires s' == s.(queue := s'.queue) && Untouched(s, s')
    ensures Fits(s, s', Nothing) && s'.workers == s.workers && s'.publishers == s.publishers && s'.h.added == s.h.added
  {
  }

  lemma SameQueue(s: State, s': State)
    requires s'.queue == s.queue
    ensures QueueShrinks(s, s')
  {
  }

  lemma QueueFrame(s: State, jobId: string, step: QueueStep)
    requires QueueEnabled(s, jobId, step)
    ensures var s' := QueueNext(s, jobId, step);
      QueueShrinks(s, s') && s' == s.(queue := s'.queue) && Untouched(s, s')
  {
  }

  lemma PlainFrame(c: Config, s: State, a: Action)
    requires Enabled(c, s, a) && !a.Publisher? && !a.Work? && !a.Maintain? && !a.Replay? && !a.Queue?
    ensures var s' := Next(c, s, a);
      && s'.queue == s.queue && s'.workers == s.workers && s'.publishers == s.publishers && s'.sweeps == s.sweeps
      && s'.replays == s.replays && s'.h.added == s.h.added
      && !EffectOf(c, s, a).Remark?
  {
    hide Enabled, CanIngest, CleanupPublished, CleanupOldEvents, NewDeliveries, FirstTickets, FirstOrders, FirstRecords;
  }
}
