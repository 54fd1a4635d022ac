/** What a loss is: when a rate-limit deferral leaves nothing to order a delivery's next
    attempt, and why nothing but a replay brings back a delivery without orders, or a
    failed one whose orders are all spent. */
module Losses {
  import opened Domain
  import opened Transactions
  import opened JobIds
  import opened Protocol
  import opened Effects
  import opened Structure
  import Attempts
  import Orderly
  import Lossless
  import Retry

  // ---------------------------------------------------------------- unreachable deliveries

  ghost predicate InOutbox(s: State, d: Id, number: nat) {
    exists t :: t in s.db.outbox && s.db.outbox[t].delivery == d && s.db.outbox[t].attemptNumber == number
  }

  /** Only an unpublished row can be fetched. */
  ghost predicate InOpenRow(s: State, d: Id, number: nat) {
    exists t :: IsOpenRow(s, t, d, number)
  }

  predicate IsOpenRow(s: State, t: Id, d: Id, number: nat) {
    Lossless.IsOpen(s, t) && s.db.outbox[t].delivery == d && s.db.outbox[t].attemptNumber == number
  }

  /** Only a waiting job can be taken. */
  ghost predicate InQueue(s: State, d: Id, number: nat) {
    exists k :: Lossless.IsJobFor(s, k, d, number)
  }

  ghost predicate InBatch(s: State, d: Id, number: nat) {
    exists p, i :: p in s.publishers && 0 <= i < |s.publishers[p].rows| && IsFor(s.publishers[p].rows[i], d, number)
  }

  ghost predicate InHands(s: State, d: Id, number: nat) {
    exists w :: w in s.workers && s.workers[w].Checked? && IsFor(s.workers[w].job, d, number)
  }

  /** Some outbox row, waiting job, fetched row or checked job still orders attempt
      `number` of `d`. */
  ghost predicate HasOrder(s: State, d: Id, number: nat) {
    InOutbox(s, d, number) || InQueue(s, d, number) || InBatch(s, d, number) || InHands(s, d, number)
  }

  ghost predicate NobodySends(s: State, d: Id) {
    forall w :: w in s.workers && s.workers[w].Sending? ==> s.workers[w].job.delivery != d
  }

  /** The delivery waits for attempt number `attempts + 1`, which nothing orders. */
  ghost predicate Unreachable(s: State, d: Id) {
    && d in s.db.deliveries
    && s.db.deliveries[d].status in {PENDING, FAILED, CANCELLED}
    && NobodySends(s, d)
    && !HasOrder(s, d, s.db.deliveries[d].attempts + 1)
  }

  predicate Replays(s: State, a: Action, d: Id) {
    a.Replay? && a.replaying.ResetRow? && a.r in s.replays && s.replays[a.r] == d
  }

  /** An effect that may touch an unreachable delivery without reaching it. */
  ghost predicate Futile(s: State, e: Effect, d: Id)
    requires d in s.db.deliveries
  {
    e.Writes() && e.d == d ==>
      || (e.Terminate? && e.status.CANCELLED?)
      || (e.Defer? && e.number != s.db.deliveries[d].attempts + 1)
  }

  lemma RowsFutile(s: State, s': State, e: Effect, d: Id)
    requires Structured(s) && Fits(s, s', e) && Grows(s, s') && d in s.db.deliveries && Futile(s, e, d)
    ensures InOutbox(s', d, s.db.deliveries[d].attempts + 1) ==> InOutbox(s, d, s.db.deliveries[d].attempts + 1)
  {
    var n := s.db.deliveries[d].attempts + 1;
    if t :| t in s'.db.outbox && s'.db.outbox[t].delivery == d && s'.db.outbox[t].attemptNumber == n {
      if t !in s.db.outbox {
        NewRow(s, s', e, t);
      }
    }
  }

  /** Where a new outbox row comes from. */
  lemma NewRow(s: State, s': State, e: Effect, t: Id)
    requires Fits(s, s', e) && t in s'.db.outbox && t !in s.db.outbox
    ensures (e.Issues() && s'.db.outbox[t].delivery == e.d && s'.db.outbox[t].attemptNumber == e.Number())
         || (e.Accept? && s'.db.outbox[t].delivery in e.fan && s'.db.outbox[t].delivery !in s.db.deliveries)
  {
  }

  lemma StatusFutile(s: State, s': State, e: Effect, d: Id)
    requires Structured(s) && Fits(s, s', e) && Unreachable(s, d) && d in s'.db.deliveries && Futile(s, e, d)
    ensures s'.db.deliveries[d].status in {PENDING, FAILED, CANCELLED}
      && s'.db.deliveries[d].attempts == s.db.deliveries[d].attempts
  {
    if e.Writes() && e.d == d {
      assert s'.db.deliveries[d] == RowAfter(s.db.deliveries[d], e, s.now);
    } else {
      assert !(e.Accept? && d in e.fan);
      SameDelivery(s, s', e, d);
    }
  }

  /** Copies of an order for `n` come from each other: jobs from batches, batches from
      unpublished rows, and what workers hold from waiting jobs. */
  ghost predicate NoNewCopies(s: State, s': State, d: Id, n: nat) {
    && (InQueue(s', d, n) ==> InQueue(s, d, n) || InBatch(s, d, n))
    && (InBatch(s', d, n) ==> InBatch(s, d, n) || InOpenRow(s, d, n))
    && (InHands(s', d, n) ==> InHands(s, d, n) || InQueue(s, d, n))
  }

  lemma OpenRowIsRow(s: State, d: Id, n: nat)
    ensures InOpenRow(s, d, n) ==> InOutbox(s, d, n)
  {
  }

  lemma FutileStep(s: State, s': State, e: Effect, d: Id)
    requires Structured(s) && Fits(s, s', e) && Unreachable(s, d) && d in s'.db.deliveries && Futile(s, e, d)
    requires NoNewCopies(s, s', d, s.db.deliveries[d].attempts + 1) && NobodySends(s', d)
    ensures Unreachable(s', d)
  {
    hide *;
    UnreachableRow(s, d);
    StructuredRows(s);
    EffectKeeps(s, s', e);
    RowsFutile(s, s', e, d);
    StatusFutile(s, s', e, d);
    OpenRowIsRow(s, d, s.db.deliveries[d].attempts + 1);
    StillUnreachable(s, s', d);
  }

  lemma UnreachableRow(s: State, d: Id)
    requires Unreachable(s, d)
    ensures d in s.db.deliveries
  {
  }

  lemma StillUnreachable(s: State, s': State, d: Id)
    requires Unreachable(s, d) && d in s'.db.deliveries && NobodySends(s', d)
    requires s'.db.deliveries[d].status in {PENDING, FAILED, CANCELLED}
      && s'.db.deliveries[d].attempts == s.db.deliveries[d].attempts
    requires var n := s.db.deliveries[d].attempts + 1;
      && NoNewCopies(s, s', d, n) && (InOpenRow(s, d, n) ==> InOutbox(s, d, n))
      && (InOutbox(s', d, n) ==> InOutbox(s, d, n))
    ensures Unreachable(s', d)
  {
    hide InOutbox, InOpenRow, InQueue, InBatch, InHands, NobodySends;
  }

  lemma WaitingKept(s: State, s': State, d: Id, n: nat)
    requires QueueShrinks(s, s')
    ensures InQueue(s', d, n) ==> InQueue(s, d, n)
  {
    if k :| Lossless.IsJobFor(s', k, d, n) {
      assert Lossless.IsJobFor(s, k, d, n);
    }
  }

  lemma WorkerCopies(c: Config, s: State, w: nat, step: WorkerStep, d: Id, n: nat)
    requires WorkerEnabled(s, w, step)
    ensures NoNewCopies(s, WorkerNext(c, s, w, step), d, n)
  {
    var s' := WorkerNext(c, s, w, step);
    WorkerFrame(c, s, w, step);
    WorkerJob(c, s, w, step);
    CheckedFrom(c, s, w, step);
    WaitingKept(s, s', d, n);
    hide WorkerNext, WorkerEnabled;
    if v :| v in s'.workers && s'.workers[v].Checked? && IsFor(s'.workers[v].job, d, n) {
      if v !in s.workers || s'.workers[v] != s.workers[v] {
        assert Lossless.IsJobFor(s, step.jobId, d, n);
      }
    }
  }

  lemma CheckedFrom(c: Config, s: State, w: nat, step: WorkerStep)
    requires WorkerEnabled(s, w, step)
    ensures var s' := WorkerNext(c, s, w, step);
      forall v :: v in s'.workers && s'.workers[v].Checked? ==>
        || (v in s.workers && s'.workers[v] == s.workers[v])
        || (step.Take? && step.jobId in s.queue && s.queue[step.jobId].state.WAITING?
             && s'.workers[v].job == s.queue[step.jobId].job)
  {
    hide Retry.Decide, MarkTerminal, MarkFailedAndSchedule, MarkRateLimitedAndSchedule, ClaimForProcessing, CanClaim,
      RecordOf, Settle;
    match step
    case Respond(reply, draw, ticket) =>
      var job, attempt := s.workers[w].job, s.workers[w].attempt;
      SettleFrame(s.(workers := s.workers[w := Leaving(job)]), job.delivery, attempt,
        Retry.Decide(c, attempt, reply, s.now, draw), ticket);
    case _ =>
  }

  /** No worker can claim, or settle, an unreachable delivery. */
  lemma WorkerFutile(c: Config, s: State, w: nat, step: WorkerStep, d: Id)
    requires WorkerEnabled(s, w, step) && Unreachable(s, d)
    ensures Futile(s, WorkerEffect(c, s, w, step), d) && NobodySends(WorkerNext(c, s, w, step), d)
  {
    assert step.Claim? ==> !IsFor(s.workers[w].job, d, s.db.deliveries[d].attempts + 1);
    assert step.Reject? ==> !IsFor(s.workers[w].job, d, s.db.deliveries[d].attempts + 1);
    hide HasOrder, InHands;
    hide Retry.Decide, MarkTerminal, MarkFailedAndSchedule, MarkRateLimitedAndSchedule, ClaimForProcessing, RecordOf,
      Settle;
    match step
    case Respond(reply, draw, ticket) =>
      var job, attempt := s.workers[w].job, s.workers[w].attempt;
      SettleFrame(s.(workers := s.workers[w := Leaving(job)]), job.delivery, attempt,
        Retry.Decide(c, attempt, reply, s.now, draw), ticket);
    case _ =>
  }

  lemma WorkerStuck(c: Config, s: State, w: nat, step: WorkerStep, d: Id)
    requires Structured(s) && WorkerEnabled(s, w, step) && Unreachable(s, d)
    requires d in WorkerNext(c, s, w, step).db.deliveries
    ensures Unreachable(WorkerNext(c, s, w, step), d)
  {
    WorkersKnown(s);
    WorkerFits(c, s, w, step);
    WorkerFutile(c, s, w, step, d);
    WorkerCopies(c, s, w, step, d, s.db.deliveries[d].attempts + 1);
    hide WorkerNext, WorkerEffect, WorkerEnabled, Structured, Fits, Futile, NobodySends, NoNewCopies, HasOrder;
    FutileStep(s, WorkerNext(c, s, w, step), WorkerEffect(c, s, w, step), d);
  }

  lemma PublisherStuck(s: State, p: nat, step: PublisherStep, d: Id)
    requires Structured(s) && PublisherEnabled(s, p, step) && Unreachable(s, d)
    requires d in PublisherNext(s, p, step).db.deliveries
    ensures Unreachable(PublisherNext(s, p, step), d)
  {
    PublisherFits(s, p, step);
    PublisherFrame(s, p, step);
    PublisherCopies(s, p, step, d, s.db.deliveries[d].attempts + 1);
    assert !PublisherEffect(s, p, step).Writes();
    hide PublisherNext, PublisherEffect, PublisherEnabled, Structured, Fits, NoNewCopies, HasOrder;
    FutileStep(s, PublisherNext(s, p, step), PublisherEffect(s, p, step), d);
  }

  lemma PublisherCopies(s: State, p: nat, step: PublisherStep, d: Id, n: nat)
    requires PublisherEnabled(s, p, step)
    ensures NoNewCopies(s, PublisherNext(s, p, step), d, n)
  {
    var s' := PublisherNext(s, p, step);
    PublisherFrame(s, p, step);
    if step.AddJob? {
      AddCopies(s, p, d, n);
    } else {
      BatchesAfter(s, p, step);
      if step.Fetch? {
        FetchCopies(s, step.ids, d, n);
      }
      WaitingKept(s, s', d, n);
      hide PublisherNext;
      if InBatch(s', d, n) {
        var q, i :| q in s'.publishers && 0 <= i < |s'.publishers[q].rows| && IsFor(s'.publishers[q].rows[i], d, n);
        if q == p && step.MarkRow? {
          assert s'.publishers[q].rows[i] == s.publishers[q].rows[i + 1];
          assert InBatch(s, d, n);
        } else if q != p {
          assert InBatch(s, d, n);
        }
      }
    }
  }

  lemma AddCopies(s: State, p: nat, d: Id, n: nat)
    requires PublisherEnabled(s, p, AddJob)
    ensures NoNewCopies(s, DoAddJob(s, p), d, n)
  {
    var s' := DoAddJob(s, p);
    if k :| Lossless.IsJobFor(s', k, d, n) {
      if k in s.queue {
        assert Lossless.IsJobFor(s, k, d, n);
      } else {
        assert IsFor(s.publishers[p].rows[0], d, n);
        assert InBatch(s, d, n);
      }
    }
    if q, i :| q in s'.publishers && 0 <= i < |s'.publishers[q].rows| && IsFor(s'.publishers[q].rows[i], d, n) {
      assert s'.publishers[q].rows == s.publishers[q].rows;
      assert InBatch(s, d, n);
    }
    assert InHands(s', d, n) ==> InHands(s, d, n);
  }

  lemma FetchCopies(s: State, ids: seq<Id>, d: Id, n: nat)
    requires forall i :: 0 <= i < |ids| ==> ids[i] in s.db.outbox && Due(s.db.outbox, s.now, ids[i])
    ensures forall i :: 0 <= i < |ids| && IsFor(Copies(s.db.outbox, ids)[i], d, n) ==> InOpenRow(s, d, n)
  {
    forall i | 0 <= i < |ids| && IsFor(Copies(s.db.outbox, ids)[i], d, n) ensures InOpenRow(s, d, n) {
      assert IsOpenRow(s, ids[i], d, n);
    }
  }

  /** Steps of the other processes keep every copy where it is. */
  lemma SameCopies(s: State, s': State, d: Id, n: nat)
    requires QueueShrinks(s, s') && s'.publishers == s.publishers && s'.workers == s.workers
    ensures NoNewCopies(s, s', d, n) && (NobodySends(s, d) ==> NobodySends(s', d))
  {
    WaitingKept(s, s', d, n);
  }

  lemma OtherStuck(c: Config, s: State, a: Action, d: Id)
    requires Structured(s) && Enabled(c, s, a) && Unreachable(s, d) && !a.Work? && !a.Publisher? && !Replays(s, a, d)
    requires d in Next(c, s, a).db.deliveries
    ensures Unreachable(Next(c, s, a), d)
  {
    var s', e := Next(c, s, a), EffectOf(c, s, a);
    RowsStep(c, s, a);
    OtherCopies(c, s, a, d);
    SameCopies(s, s', d, s.db.deliveries[d].attempts + 1);
    hide Next, EffectOf, Enabled, Structured, Fits, NoNewCopies, HasOrder, Futile;
    FutileStep(s, s', e, d);
  }

  lemma OtherCopies(c: Config, s: State, a: Action, d: Id)
    requires Enabled(c, s, a) && Unreachable(s, d) && !a.Work? && !a.Publisher? && !Replays(s, a, d)
    ensures var s' := Next(c, s, a);
      QueueShrinks(s, s') && s'.publishers == s.publishers && s'.workers == s.workers
    ensures Futile(s, EffectOf(c, s, a), d)
  {
    OtherFutile(c, s, a, d);
    hide HasOrder, NobodySends, Futile, EffectOf, Unreachable, Replays;
    match a
    case Maintain(m, step) => SweepFrame(c, s, m, step); hide SweepNext;
    case Replay(r, step) => ReplayFrame(s, r, step); hide ReplayNext;
    case Queue(jobId, step) => QueueFrame(s, jobId, step);
    case _ => PlainFrame(c, s, a);
  }

  lemma OtherFutile(c: Config, s: State, a: Action, d: Id)
    requires Enabled(c, s, a) && Unreachable(s, d) && !a.Work? && !a.Publisher? && !Replays(s, a, d)
    ensures Futile(s, EffectOf(c, s, a), d)
  {
    hide HasOrder, NobodySends;
  }

  /** Without a replay no step of any process brings an unreachable delivery back. */
  lemma {:induction false} UnreachableForever(c: Config, s: State, a: Action, d: Id)
    requires Structured(s) && Enabled(c, s, a) && Unreachable(s, d) && !Replays(s, a, d)
    ensures Structured(Next(c, s, a))
    ensures d in Next(c, s, a).db.deliveries ==> Unreachable(Next(c, s, a), d)
  {
    StructureStep(c, s, a);
    if d in Next(c, s, a).db.deliveries {
      hide Structured, Unreachable;
      match a
      case Publisher(p, step) => PublisherStuck(s, p, step, d);
      case Work(w, step) => WorkerStuck(c, s, w, step, d);
      case _ => OtherStuck(c, s, a, d);
    }
  }

  lemma {:induction false} RunStructured(c: Config, states: seq<State>, actions: seq<Action>, i: nat)
    requires Run(c, states, actions) && i < |states|
    ensures Structured(states[i])
  {
    hide Next, Enabled;
    if i > 0 {
      RunStructured(c, states, actions, i - 1);
      StructureStep(c, states[i - 1], actions[i - 1]);
    }
  }

  /** In any run, a delivery that has become unreachable stays so until it is
      replayed or removed; it is never sent again and never succeeds. */
  lemma {:induction false} LostForGood(c: Config, states: seq<State>, actions: seq<Action>, i: nat, j: nat, d: Id)
    requires Run(c, states, actions) && i <= j < |states| && Unreachable(states[i], d)
    requires forall k :: i <= k < j ==> !Replays(states[k], actions[k], d)
    requires forall k :: i <= k <= j ==> d in states[k].db.deliveries
    ensures Unreachable(states[j], d)
    decreases j
  {
    hide Next, Enabled, Unreachable, Structured, Init, Replays;
    if i < j {
      LostForGood(c, states, actions, i, j - 1, d);
      RunStructured(c, states, actions, j - 1);
      UnreachableForever(c, states[j - 1], actions[j - 1], d);
    }
  }

  // ---------------------------------------------------------------- assumption Y

  /** What a deferral does to the delivery and its orders. */
  lemma RejectRows(s: State, w: nat, delay: nat, ticket: Id)
    requires WorkerEnabled(s, w, Reject(delay, ticket)) && s.workers[w].job.delivery in s.db.deliveries
    ensures var job, s' := s.workers[w].job, DoReject(s, w, delay, ticket);
      && s'.db.outbox == s.db.outbox[ticket := NewTicket(job.delivery, job.expected, s.now + delay, s.now)]
      && job.delivery in s'.db.deliveries && s'.db.deliveries[job.delivery].status == PENDING
      && s'.db.deliveries[job.delivery].attempts == s.db.deliveries[job.delivery].attempts
      && s'.queue == s.queue && s'.publishers == s.publishers && s'.workers == s.workers[w := Leaving(job)]
  {
  }

  /** A rate-limit deferral leaves its delivery without a live order exactly when the
      job was not for the next attempt and nothing live ordered that before.  In a
      state reached in good order this takes a delivery in progress. */
  lemma RejectLosesExactly(c: Config, s: State, w: nat, delay: nat, ticket: Id)
    requires Lossless.Safe(c, s, true) && WorkerEnabled(s, w, Reject(delay, ticket))
      && s.workers[w].job.delivery in s.db.deliveries
    ensures var job, s' := s.workers[w].job, DoReject(s, w, delay, ticket);
      var row := s.db.deliveries[job.delivery];
      && (Lossless.Backed(s', job.delivery, row.attempts + 1) <==>
            job.expected == row.attempts + 1 || Lossless.Backed(s, job.delivery, row.attempts + 1))
      && (!Lossless.Backed(s', job.delivery, row.attempts + 1) ==> row.status.PROCESSING?)
  {
    hide *;
    HolderFacts(c, s, w, delay, ticket);
    RejectRows(s, w, delay, ticket);
    var job, s' := s.workers[w].job, DoReject(s, w, delay, ticket);
    var d, n := job.delivery, s.db.deliveries[job.delivery].attempts + 1;
    NewKeyFree(s, ticket);
    Lossless.SafeIsBacked(c, s, d, true);
    RejectBacks(s, s', d, n, ticket, job.expected, s.now + delay);
  }

  lemma HolderFacts(c: Config, s: State, w: nat, delay: nat, ticket: Id)
    requires Lossless.Safe(c, s, true) && WorkerEnabled(s, w, Reject(delay, ticket))
      && s.workers[w].job.delivery in s.db.deliveries
    ensures w in s.workers && Structured(s) && Fresh(s, ticket) && ticket !in s.db.outbox
    ensures var status := s.db.deliveries[s.workers[w].job.delivery].status;
      status.Claimable() || status.PROCESSING?
  {
    hide Attempts.Counted, Lossless.NothingLost, RowsOk, QueueOk, WorkersOk, PublishersOk, AddedOk,
      Orderly.Exclusive, Orderly.EventsOk;
    assert Orderly.KnowsRow(s, s.workers[w]);
  }

  /** No queue job is held under an id of an outbox row that does not exist yet. */
  lemma NewKeyFree(s: State, ticket: Id)
    requires Structured(s) && Fresh(s, ticket)
    ensures forall n: nat :: JobId(ticket, n) !in s.queue
  {
    forall n: nat ensures JobId(ticket, n) !in s.queue {
      if JobId(ticket, n) in s.queue {
        var job := s.queue[JobId(ticket, n)].job;
        assert JobOk(s, job);
        JobIdInjective(ticket, n, job.outbox, job.counter);
      }
    }
  }

  /** A new open row backs exactly its own attempt. */
  lemma RejectBacks(s: State, s': State, d: Id, n: nat, ticket: Id, number: nat, at: int)
    requires ticket !in s.db.outbox && s'.db.outbox == s.db.outbox[ticket := NewTicket(d, number, at, s.now)]
    requires s'.queue == s.queue && forall n: nat :: JobId(ticket, n) !in s.queue
    ensures Lossless.Backed(s', d, n) <==> number == n || Lossless.Backed(s, d, n)
  {
    assert JobId(ticket, 0) !in s.queue;
    hide JobId;
    assert Lossless.OpenOrder(s', d, n, ticket) <==> number == n;
    assert forall t :: t != ticket ==> (Lossless.OpenOrder(s', d, n, t) <==> Lossless.OpenOrder(s, d, n, t));
    assert forall k :: Lossless.IsJobFor(s', k, d, n) <==> Lossless.IsJobFor(s, k, d, n);
  }

  /** Something other than worker `w` orders attempt `number` of `d`. */
  ghost predicate OrderedElsewhere(s: State, w: nat, d: Id, number: nat) {
    || InOutbox(s, d, number) || InQueue(s, d, number) || InBatch(s, d, number)
    || exists v :: v in s.workers && v != w && s.workers[v].Checked? && IsFor(s.workers[v].job, d, number)
  }

  /** In the full interleaving, it leaves the delivery unreachable exactly when the
      job was not for the next attempt, and no row, waiting job, fetched row or other
      worker orders that. */
  lemma RejectStrandsExactly(c: Config, s: State, w: nat, delay: nat, ticket: Id)
    requires WorkerEnabled(s, w, Reject(delay, ticket))
    requires s.workers[w].job.delivery in s.db.deliveries && NobodySends(s, s.workers[w].job.delivery)
    ensures var job, s' := s.workers[w].job, DoReject(s, w, delay, ticket);
      var n := s.db.deliveries[job.delivery].attempts + 1;
      Unreachable(s', job.delivery) <==> job.expected != n && !OrderedElsewhere(s, w, job.delivery, n)
  {
    var job, s' := s.workers[w].job, DoReject(s, w, delay, ticket);
    var d, n := job.delivery, s.db.deliveries[job.delivery].attempts + 1;
    RejectRows(s, w, delay, ticket);
    hide DoReject;
    assert NobodySends(s', d);
    assert forall k :: Lossless.IsJobFor(s', k, d, n) <==> Lossless.IsJobFor(s, k, d, n);
    assert forall v :: v in s'.workers && s'.workers[v].Checked? <==> v in s.workers && v != w && s.workers[v].Checked?;
    RejectOutbox(s, s', d, n, ticket, job.expected, s.now + delay);
    assert InBatch(s', d, n) <==> InBatch(s, d, n);
  }

  lemma RejectOutbox(s: State, s': State, d: Id, n: nat, ticket: Id, number: nat, at: int)
    requires ticket !in s.db.outbox && s'.db.outbox == s.db.outbox[ticket := NewTicket(d, number, at, s.now)]
    ensures InOutbox(s', d, n) <==> number == n || InOutbox(s, d, n)
  {
    if t :| t in s.db.outbox && s.db.outbox[t].delivery == d && s.db.outbox[t].attemptNumber == n {
      assert s'.db.outbox[t] == s.db.outbox[t];
    }
    assert s'.db.outbox[ticket].delivery == d && s'.db.outbox[ticket].attemptNumber == number;
  }
}
