/** The sequential code is a run of the protocol: what one call does to the tables
    is what some of the protocol's steps do, one after the other. */
module Refinement {
  import opened Domain
  import opened Transactions
  import opened Protocol
  import opened Paths
  import opened Processing
  import opened Publishing
  import opened Ingestion
  import Retry
  import RL = RateLimiter

  // ---------------------------------------------------------------- steps of one process

  /** Every step is the clock's or the worker's own. */
  predicate OnlyWorker(actions: seq<Action>, w: nat) {
    forall i :: 0 <= i < |actions| ==> actions[i].Tick? || (actions[i].Work? && actions[i].w == w)
  }

  lemma WorkerGrows(actions: seq<Action>, a: Action, w: nat)
    requires OnlyWorker(actions, w) && (a.Tick? || (a.Work? && a.w == w))
    ensures OnlyWorker(actions + [a], w)
  {
  }

  /** One more step of worker `w`, after the clock has moved to `t`. */
  lemma WorkAt(c: Config, states: seq<State>, actions: seq<Action>, w: nat, t: int, step: WorkerStep)
      returns (states': seq<State>, actions': seq<Action>)
    requires |states| > 0 && Path(c, states, actions) && OnlyWorker(actions, w) && Last(states).now <= t
    requires WorkerEnabled(Last(states).(now := t), w, step)
    ensures |states'| > 0 && Path(c, states', actions') && OnlyWorker(actions', w) && states'[0] == states[0]
    ensures Last(states') == WorkerNext(c, Last(states).(now := t), w, step)
  {
    var tick, work := Tick(t - Last(states).now), Work(w, step);
    var mid := Last(states).(now := t);
    var end := WorkerNext(c, mid, w, step);
    TickTo(c, Last(states), t);
    WorkIs(c, mid, w, step);
    hide *;
    PathGrows(c, states, actions, tick, mid);
    WorkerGrows(actions, tick, w);
    states', actions' := states + [mid], actions + [tick];
    PathGrows(c, states', actions', work, end);
    WorkerGrows(actions', work, w);
    states', actions' := states' + [end], actions' + [work];
  }

  lemma TickTo(c: Config, s: State, t: int)
    requires s.now <= t
    ensures Enabled(c, s, Tick(t - s.now)) && Next(c, s, Tick(t - s.now)) == s.(now := t)
  {
  }

  // ---------------------------------------------------------------- processing a job

  /** The passage of a worker that reads the delivery in state `s`. */
  predicate Fitting(s: State, d: Id, passage: Passage) {
    && (passage.Skips? <==> d !in s.db.deliveries || s.db.deliveries[d].status.Terminal())
    && (!passage.Skips? ==> (passage.Cancels? <==> !IsActive(s, s.db.deliveries[d].endpoint)))
    && (passage.Defers? ==> passage.delay >= 0)
  }

  /** The passage of the program's worker is that of the protocol's, if both see the same
      row and endpoint. */
  lemma PassageFits(p: ProcessDelivery, s: State, d: Id, w: Circumstances)
    requires p.RowComplete(d) && p.repository.prisma.Contents() == s.db
    requires d in s.db.deliveries ==>
      var endpoint := s.db.deliveries[d].endpoint;
      IsActive(s, endpoint) == p.repository.prisma.endpoints[endpoint].isActive
    ensures Fitting(s, d, p.Outcome(d, w).0)
  {
    PassageIs(p, d, w);
    if d in s.db.deliveries && p.Outcome(d, w).0.Defers? {
      var prisma := p.repository.prisma;
      var endpointId, tenantId := s.db.deliveries[d].endpoint, prisma.events[s.db.deliveries[d].event].tenant;
      DelaysAreWaits(p.rateLimiter.hashes, tenantId, prisma.tenants[tenantId], endpointId,
        prisma.endpoints[endpointId], w);
    }
    hide Processing.Checked;
  }

  lemma DelaysAreWaits(hashes: map<string, RL.Entry>, tenantId: Id, tenant: Tenant, endpointId: Id,
      endpoint: Endpoint, w: Circumstances)
    requires TenantLimit(tenant) >= 1
    ensures var passage := Processing.Checked(hashes, tenantId, tenant, endpointId, endpoint, w).0;
      !passage.Skips? && !passage.Cancels? && (passage.Defers? ==> passage.delay >= 0)
  {
    NoNegativeDelay();
    hide RL.Check, RL.Lookup;
  }

  lemma NoNegativeDelay()
    ensures forall b, limit: nat, now | limit >= 1 :: RL.Check(b, limit, now).0.delay >= 0
  {
    forall b, limit: nat, now | limit >= 1 ensures RL.Check(b, limit, now).0.delay >= 0 {
      RL.CheckIs(b, limit, now);
    }
  }

  predicate InTime(s: State, w: Circumstances) {
    s.now <= w.cancelledAt && s.now <= w.deferredAt && s.now <= w.claimedAt <= w.repliedAt
  }

  lemma TakeNext(c: Config, s: State, worker: nat, jobId: string, passage: Passage)
    requires worker !in s.workers && jobId in s.queue && s.queue[jobId].state.WAITING?
    requires Fitting(s, s.queue[jobId].job.delivery, passage)
    ensures var s' := DoTake(s, worker, jobId);
      && WorkerEnabled(s.(now := s.now), worker, Take(jobId))
           && WorkerNext(c, s.(now := s.now), worker, Take(jobId)) == s'
      && s'.now == s.now && s'.db == s.db && s'.h == s.h
      && s'.workers == s.workers[worker := if passage.Skips? then Leaving(s.queue[jobId].job)
           else Checked(s.queue[jobId].job, !passage.Cancels?)]
  {
  }

  lemma TakeKeepsFresh(s: State, worker: nat, jobId: string, ticket: Id)
    requires jobId in s.queue && Fresh(s, ticket)
    ensures Fresh(DoTake(s, worker, jobId), ticket)
  {
  }

  lemma CancelNext(c: Config, s: State, worker: nat, t: int, job: Job)
    requires worker in s.workers && s.workers[worker] == Checked(job, false)
    ensures var s' := DoCancel(s.(now := t), worker);
      && WorkerEnabled(s.(now := t), worker, Cancel) && WorkerNext(c, s.(now := t), worker, Cancel) == s'
      && s'.db == MarkTerminal(s.db, job.delivery, CANCELLED, t)
      && s'.workers == s.workers[worker := Leaving(job)]
  {
    hide MarkTerminal;
  }

  lemma RejectNext(c: Config, s: State, worker: nat, t: int, delay: nat, ticket: Id, job: Job)
    requires worker in s.workers && s.workers[worker] == Checked(job, true) && Fresh(s, ticket)
    ensures var s' := DoReject(s.(now := t), worker, delay, ticket);
      && WorkerEnabled(s.(now := t), worker, Reject(delay, ticket))
           && WorkerNext(c, s.(now := t), worker, Reject(delay, ticket)) == s'
      && s'.db == MarkRateLimitedAndSchedule(s.db, job.delivery, t + delay, job.expected, ticket, t)
      && s'.workers == s.workers[worker := Leaving(job)]
  {
    hide MarkRateLimitedAndSchedule;
  }

  lemma ClaimNext(c: Config, s: State, worker: nat, t: int, job: Job)
    requires worker in s.workers && s.workers[worker] == Checked(job, true)
    ensures var s', d := DoClaim(s.(now := t), worker), job.delivery;
      && WorkerEnabled(s.(now := t), worker, Claim) && WorkerNext(c, s.(now := t), worker, Claim) == s'
      && s'.now == t && s'.h.issued == s.h.issued
      && (CanClaim(s.db, d, job.expected) ==>
            && s'.db == ClaimForProcessing(s.db, d, job.expected, t)
            && s'.workers == s.workers[worker := Sending(job, s.db.deliveries[d].attempts + 1,
                 |RecordOf(s.h, d).sends|)])
      && (!CanClaim(s.db, d, job.expected) ==> s'.db == s.db && s'.workers == s.workers[worker := Leaving(job)])
  {
    hide CanClaim, ClaimForProcessing;
  }

  lemma ClaimKeepsFresh(s: State, worker: nat, t: int, ticket: Id)
    requires worker in s.workers && Fresh(s, ticket)
    ensures Fresh(DoClaim(s.(now := t), worker), ticket)
  {
  }

  lemma RespondNext(c: Config, s: State, worker: nat, attempt: nat, index: nat, w: Circumstances, job: Job)
    requires worker in s.workers && s.workers[worker] == Sending(job, attempt, index) && attempt >= 1
    requires Fresh(s, w.ticket) && Retry.IsDraw(w.draw)
    ensures var s', step := DoRespond(c, s.(now := w.repliedAt), worker, Seen(w), w.draw, w.ticket),
      Respond(Seen(w), w.draw, w.ticket);
      && WorkerEnabled(s.(now := w.repliedAt), worker, step)
           && WorkerNext(c, s.(now := w.repliedAt), worker, step) == s'
      && s'.db == Settled(s.db, job.delivery, attempt, Retry.Decide(c, attempt, Seen(w), w.repliedAt, w.draw),
           w.ticket, w.repliedAt)
      && s'.workers == s.workers[worker := Leaving(job)]
  {
    hide MarkTerminal, Retry.Decide;
  }

  /** Processing a job is a run: taking it, then one of cancelling, deferring, or
      claiming and, if the claim is won, responding. */
  lemma ProcessingIsARun(c: Config, s: State, worker: nat, jobId: string, passage: Passage, w: Circumstances)
      returns (states: seq<State>, actions: seq<Action>)
    requires worker !in s.workers && jobId in s.queue && s.queue[jobId].state.WAITING?
    requires Fitting(s, s.queue[jobId].job.delivery, passage) && InTime(s, w) && Fresh(s, w.ticket)
      && Retry.IsDraw(w.draw)
    ensures Path(c, states, actions) && states[0] == s && OnlyWorker(actions, worker)
    ensures var job := s.queue[jobId].job;
      && Last(states).db == Processed(c, s.db, passage, job.delivery, job.expected, w)
      && Last(states).workers == s.workers[worker := Leaving(job)]
  {
    var job, taken := s.queue[jobId].job, DoTake(s, worker, jobId);
    TakeKeepsFresh(s, worker, jobId, w.ticket);
    hide WorkerEnabled, WorkerNext, DoTake, DoCancel, DoReject, DoClaim, DoRespond, Seen, Executed, Settled,
      MarkTerminal, MarkRateLimitedAndSchedule, Path, OnlyWorker, Fresh;
    TakeNext(c, s, worker, jobId, passage);
    StartPath(c, s);
    states, actions := WorkAt(c, [s], [], worker, s.now, Take(jobId));
    match passage
    case Skips =>
    case Cancels =>
      CancelNext(c, taken, worker, w.cancelledAt, job);
      states, actions := WorkAt(c, states, actions, worker, w.cancelledAt, Cancel);
    case Defers(delay) =>
      RejectNext(c, taken, worker, w.deferredAt, delay, w.ticket, job);
      states, actions := WorkAt(c, states, actions, worker, w.deferredAt, Reject(delay, w.ticket));
    case Executes =>
      states, actions := ExecutingIsARun(c, states, actions, worker, w, job);
  }

  lemma ExecutingIsARun(c: Config, before: seq<State>, done: seq<Action>, worker: nat, w: Circumstances, job: Job)
      returns (states: seq<State>, actions: seq<Action>)
    requires Path(c, before, done) && OnlyWorker(done, worker) && Last(before).now <= w.claimedAt <= w.repliedAt
    requires worker in Last(before).workers && Last(before).workers[worker] == Checked(job, true)
    requires Fresh(Last(before), w.ticket) && Retry.IsDraw(w.draw)
    ensures Path(c, states, actions) && states[0] == before[0] && OnlyWorker(actions, worker)
    ensures Last(states).db == Executed(c, Last(before).db, job.delivery, job.expected, w)
    ensures Last(states).workers == Last(before).workers[worker := Leaving(job)]
  {
    var s, d := Last(before), job.delivery;
    hide *;
    ExecutedIs(c, s.db, d, job.expected, w);
    states, actions := ClaimingIsARun(c, before, done, worker, w, job);
    if CanClaim(s.db, d, job.expected) {
      states, actions := RespondingIsARun(c, states, actions, worker, w, job, s.db.deliveries[d].attempts + 1,
        |RecordOf(s.h, d).sends|);
    }
  }

  lemma ClaimingIsARun(c: Config, before: seq<State>, done: seq<Action>, worker: nat, w: Circumstances, job: Job)
      returns (states: seq<State>, actions: seq<Action>)
    requires |before| > 0 && Path(c, before, done) && OnlyWorker(done, worker) && Last(before).now <= w.claimedAt
    requires worker in Last(before).workers && Last(before).workers[worker] == Checked(job, true)
      && Fresh(Last(before), w.ticket)
    ensures |states| > 0 && Path(c, states, actions) && states[0] == before[0] && OnlyWorker(actions, worker)
    ensures Last(states).now == w.claimedAt && Fresh(Last(states), w.ticket)
    ensures var s, s', d := Last(before), Last(states), job.delivery;
      && (CanClaim(s.db, d, job.expected) ==>
            && s'.db == ClaimForProcessing(s.db, d, job.expected, w.claimedAt)
            && d in s.db.deliveries
            && s'.workers == s.workers[worker := Sending(job, s.db.deliveries[d].attempts + 1,
                 |RecordOf(s.h, d).sends|)])
      && (!CanClaim(s.db, d, job.expected) ==> s'.db == s.db && s'.workers == s.workers[worker := Leaving(job)])
  {
    hide *;
    ClaimKeepsFresh(Last(before), worker, w.claimedAt, w.ticket);
    ClaimNext(c, Last(before), worker, w.claimedAt, job);
    ClaimableIsThere(Last(before).db, job.delivery, job.expected);
    states, actions := WorkAt(c, before, done, worker, w.claimedAt, Claim);
  }

  lemma ClaimableIsThere(db: Tables, d: Id, expected: nat)
    ensures CanClaim(db, d, expected) ==> d in db.deliveries
  {
  }

  lemma ExecutedIs(c: Config, db: Tables, d: Id, expected: nat, w: Circumstances)
    ensures CanClaim(db, d, expected) ==> d in db.deliveries && var attempt := db.deliveries[d].attempts + 1;
      Executed(c, db, d, expected, w) == Settled(ClaimForProcessing(db, d, expected, w.claimedAt), d, attempt,
        Retry.Decide(c, attempt, Seen(w), w.repliedAt, w.draw), w.ticket, w.repliedAt)
    ensures !CanClaim(db, d, expected) ==> Executed(c, db, d, expected, w) == db
  {
    hide Settled, Retry.Decide, ClaimForProcessing;
  }

  lemma RespondingIsARun(c: Config, before: seq<State>, done: seq<Action>, worker: nat, w: Circumstances, job: Job,
      attempt: nat, index: nat)
      returns (states: seq<State>, actions: seq<Action>)
    requires Path(c, before, done) && OnlyWorker(done, worker) && |before| > 0 && Last(before).now <= w.repliedAt
    requires worker in Last(before).workers && Last(before).workers[worker] == Sending(job, attempt, index)
      && attempt >= 1
    requires Fresh(Last(before), w.ticket) && Retry.IsDraw(w.draw)
    ensures |states| > 0 && Path(c, states, actions) && states[0] == before[0] && OnlyWorker(actions, worker)
    ensures Last(states).db
      == Settled(Last(before).db, job.delivery, attempt, Retry.Decide(c, attempt, Seen(w), w.repliedAt, w.draw),
        w.ticket, w.repliedAt)
    ensures Last(states).workers == Last(before).workers[worker := Leaving(job)]
  {
    hide *;
    RespondNext(c, Last(before), worker, attempt, index, w, job);
    states, actions := WorkAt(c, before, done, worker, w.repliedAt, Respond(Seen(w), w.draw, w.ticket));
  }

  // ---------------------------------------------------------------- publishing a batch

  /** Every step is the clock's or the publisher's own. */
  predicate OnlyPublisher(actions: seq<Action>, p: nat) {
    forall i :: 0 <= i < |actions| ==> actions[i].Tick? || (actions[i].Publisher? && actions[i].p == p)
  }

  lemma PublisherGrows(actions: seq<Action>, a: Action, p: nat)
    requires OnlyPublisher(actions, p) && (a.Tick? || (a.Publisher? && a.p == p))
    ensures OnlyPublisher(actions + [a], p)
  {
  }

  /** One more step of publisher `p`, after the clock has moved to `t`. */
  lemma PublishAt(c: Config, states: seq<State>, actions: seq<Action>, p: nat, t: int, step: PublisherStep)
      returns (states': seq<State>, actions': seq<Action>)
    requires |states| > 0 && Path(c, states, actions) && OnlyPublisher(actions, p) && Last(states).now <= t
    requires PublisherEnabled(Last(states).(now := t), p, step)
    ensures |states'| > 0 && Path(c, states', actions') && OnlyPublisher(actions', p) && states'[0] == states[0]
    ensures Last(states') == PublisherNext(Last(states).(now := t), p, step)
  {
    var tick, a := Tick(t - Last(states).now), Publisher(p, step);
    var mid := Last(states).(now := t);
    var end := PublisherNext(mid, p, step);
    TickTo(c, Last(states), t);
    PublisherIs(c, mid, p, step);
    hide *;
    PathGrows(c, states, actions, tick, mid);
    PublisherGrows(actions, tick, p);
    states', actions' := states + [mid], actions + [tick];
    PathGrows(c, states', actions', a, end);
    PublisherGrows(actions', a, p);
    states', actions' := states' + [end], actions' + [a];
  }

  lemma SameClock(s: State)
    ensures s.(now := s.now) == s
  {
  }

  /** The clock when the first `i` rows are marked. */
  function ReadingAt(now: int, ids: seq<Id>, at: Id -> int, i: nat): int
    requires i <= |ids|
  {
    if i == 0 then now else at(ids[i - 1])
  }

  /** The rows are marked one after the other. */
  predicate MarkedInOrder(now: int, ids: seq<Id>, at: Id -> int) {
    forall i :: 0 <= i < |ids| ==> ReadingAt(now, ids, at, i) <= at(ids[i])
  }

  lemma NextReading(now: int, ids: seq<Id>, at: Id -> int, i: nat)
    requires MarkedInOrder(now, ids, at) && i < |ids|
    ensures ReadingAt(now, ids, at, i) <= at(ids[i]) == ReadingAt(now, ids, at, i + 1)
  {
  }

  /** Publisher `p` has added and marked the first `i` rows since state `s`. */
  ghost predicate Halfway(s: State, s': State, p: nat, ids: seq<Id>, at: Id -> int, i: nat)
    requires forall k :: 0 <= k < |ids| ==> ids[k] in s.db.outbox
    requires i <= |ids|
  {
    var jobs := Copies(s.db.outbox, ids);
    && s'.now == ReadingAt(s.now, ids, at, i)
    && s'.db == s.db.(outbox := Marked(s.db.outbox, ids[..i], at))
    && s'.queue == WithJobs(s.queue, jobs[..i])
    && (if i < |ids| then p in s'.publishers && s'.publishers[p] == Batch(jobs[i..], false) else p !in s'.publishers)
  }

  lemma FetchNext(s: State, p: nat, ids: seq<Id>, at: Id -> int)
    requires p !in s.publishers && |ids| > 0 && OldestDue(s.db.outbox, s.now, ids)
    ensures PublisherEnabled(s, p, Fetch(ids)) && Halfway(s, PublisherNext(s, p, Fetch(ids)), p, ids, at, 0)
  {
    NoneMarked(s.db.outbox, ids, at);
    NoJobs(s.queue, Copies(s.db.outbox, ids));
    assert Copies(s.db.outbox, ids)[0..] == Copies(s.db.outbox, ids);
    hide Marked, WithJobs, OldestDue;
  }

  /** The rest of the batch starts with the row that comes next. */
  lemma BatchAt(outbox: map<Id, Ticket>, ids: seq<Id>, i: nat)
    requires i < |ids| && forall k :: 0 <= k < |ids| ==> ids[k] in outbox
    ensures var jobs := Copies(outbox, ids);
      && |jobs| == |ids| && jobs[i..][0] == jobs[i] && jobs[i].outbox == ids[i] && jobs[i] == RowOf(outbox, ids[i])
      && jobs[i..][1..] == jobs[i + 1..] && (jobs[i + 1..] == [] <==> i + 1 == |ids|)
  {
  }

  lemma AddNext(s: State, s': State, p: nat, ids: seq<Id>, at: Id -> int, i: nat)
    requires forall k :: 0 <= k < |ids| ==> ids[k] in s.db.outbox
    requires i < |ids| && Halfway(s, s', p, ids, at, i)
    ensures var jobs := Copies(s.db.outbox, ids);
      && PublisherEnabled(s', p, AddJob) && |jobs| == |ids|
      && var after := PublisherNext(s', p, AddJob);
      && after.now == s'.now && after.db == s'.db && after.queue == WithJobs(s.queue, jobs[..i + 1])
      && p in after.publishers && after.publishers[p] == Batch(jobs[i..], true)
  {
    BatchAt(s.db.outbox, ids, i);
    AddedNext(s.queue, Copies(s.db.outbox, ids), i);
    hide Marked, WithJobs, Copies;
  }

  lemma MarkNext(s: State, s': State, p: nat, ids: seq<Id>, at: Id -> int, i: nat)
    requires forall k :: 0 <= k < |ids| ==> ids[k] in s.db.outbox
    requires i < |ids| && Distinct(ids)
    requires var jobs := Copies(s.db.outbox, ids);
      && s'.db == s.db.(outbox := Marked(s.db.outbox, ids[..i], at))
      && |jobs| == |ids| && s'.queue == WithJobs(s.queue, jobs[..i + 1])
      && p in s'.publishers && s'.publishers[p] == Batch(jobs[i..], true)
    ensures var marking := s'.(now := at(ids[i]));
      PublisherEnabled(marking, p, MarkRow) && Halfway(s, PublisherNext(marking, p, MarkRow), p, ids, at, i + 1)
  {
    BatchAt(s.db.outbox, ids, i);
    MarkedNext(s.db.outbox, ids, i, at);
    hide Marked, WithJobs, Copies;
  }

  lemma {:induction false} PrefixIsARun(c: Config, s: State, p: nat, ids: seq<Id>, at: Id -> int, i: nat)
      returns (states: seq<State>, actions: seq<Action>)
    requires p !in s.publishers && |ids| > 0 && OldestDue(s.db.outbox, s.now, ids) && MarkedInOrder(s.now, ids, at)
      && i <= |ids|
    ensures |states| > 0 && Path(c, states, actions) && states[0] == s && OnlyPublisher(actions, p)
    ensures forall k :: 0 <= k < |ids| ==> ids[k] in s.db.outbox
    ensures Halfway(s, Last(states), p, ids, at, i)
  {
    hide *;
    DueRowsExist(s.db.outbox, s.now, ids);
    if i == 0 {
      FetchNext(s, p, ids, at);
      StartPath(c, s);
      SameClock(s);
      NoSteps(p);
      states, actions := PublishAt(c, [s], [], p, s.now, Fetch(ids));
    } else {
      states, actions := PrefixIsARun(c, s, p, ids, at, i - 1);
      states, actions := OneMoreRow(c, s, states, actions, p, ids, at, i - 1);
    }
  }

  lemma DueRowsExist(outbox: map<Id, Ticket>, now: int, ids: seq<Id>)
    requires OldestDue(outbox, now, ids)
    ensures Distinct(ids) && forall k :: 0 <= k < |ids| ==> ids[k] in outbox
  {
  }

  /** Adding the next row's job and marking the row. */
  lemma OneMoreRow(c: Config, s: State, before: seq<State>, done: seq<Action>, p: nat, ids: seq<Id>, at: Id -> int,
      i: nat)
      returns (states: seq<State>, actions: seq<Action>)
    requires |before| > 0 && Path(c, before, done) && OnlyPublisher(done, p) && i < |ids|
    requires Distinct(ids) && forall k :: 0 <= k < |ids| ==> ids[k] in s.db.outbox
    requires MarkedInOrder(s.now, ids, at) && Halfway(s, Last(before), p, ids, at, i)
    ensures |states| > 0 && Path(c, states, actions) && states[0] == before[0] && OnlyPublisher(actions, p)
    ensures Halfway(s, Last(states), p, ids, at, i + 1)
  {
    hide *;
    HalfwayParts(s, Last(before), p, ids, at, i);
    NextReading(s.now, ids, at, i);
    AddNext(s, Last(before), p, ids, at, i);
    SameClock(Last(before));
    states, actions := PublishAt(c, before, done, p, Last(before).now, AddJob);
    MarkNext(s, Last(states), p, ids, at, i);
    states, actions := PublishAt(c, states, actions, p, at(ids[i]), MarkRow);
  }

  lemma NoSteps(p: nat)
    ensures OnlyPublisher([], p)
  {
  }

  lemma HalfwayParts(s: State, s': State, p: nat, ids: seq<Id>, at: Id -> int, i: nat)
    requires forall k :: 0 <= k < |ids| ==> ids[k] in s.db.outbox
    requires i < |ids| && Halfway(s, s', p, ids, at, i)
    ensures s'.now == ReadingAt(s.now, ids, at, i) && s'.db == s.db.(outbox := Marked(s.db.outbox, ids[..i], at))
  {
  }

  lemma FailNext(s: State, p: nat)
    requires p in s.publishers && |s.publishers[p].rows| > 0
    ensures PublisherEnabled(s, p, FailRow)
    ensures var after := PublisherNext(s, p, FailRow);
      && after.db == RecordPublishFailure(s.db, s.publishers[p].rows[0].outbox) && after.queue == s.queue
           && p !in after.publishers
  {
  }

  lemma FailureIs(db: Tables, outbox: map<Id, Ticket>, ids: seq<Id>, k: nat)
    requires k < |ids| && db.outbox == outbox
    ensures RecordPublishFailure(db, ids[k]) == db.(outbox := AfterFault(outbox, ids, k))
  {
  }

  /** The call has ended with `k` rows marked and `n` jobs added; row `k`, if there is
      one, is where it failed. */
  ghost predicate Ended(s: State, s': State, p: nat, ids: seq<Id>, at: Id -> int, k: nat, n: nat) {
    && (forall i :: 0 <= i < |ids| ==> ids[i] in s.db.outbox)
    && k <= |ids| && n <= |Copies(s.db.outbox, ids)|
    && s'.db == s.db.(outbox := AfterFault(Marked(s.db.outbox, ids[..k], at), ids, k))
    && s'.queue == WithJobs(s.queue, Copies(s.db.outbox, ids)[..n])
    && p !in s'.publishers
  }

  /** One call of the publisher is a run of its protocol steps, whether it gets
      through its rows or fails at one of them, before or after adding its job. */
  lemma PublishingIsARun(c: Config, s: State, p: nat, ids: seq<Id>, call: Call)
      returns (states: seq<State>, actions: seq<Action>)
    requires p !in s.publishers && |ids| > 0 && OldestDue(s.db.outbox, s.now, ids)
    requires call.clock.queriedAt == s.now && MarkedInOrder(s.now, ids, call.clock.markedAt)
    ensures |states| > 0 && Path(c, states, actions) && states[0] == s && OnlyPublisher(actions, p)
    ensures Published(s.db, s.queue, ids, call, MarkedRows(ids, call.fault) < |ids|, Last(states).db,
      Last(states).queue)
    ensures p !in Last(states).publishers
  {
    var at, fault := call.clock.markedAt, call.fault;
    hide Path, OnlyPublisher, Ended, Halfway, MarkedInOrder, OldestDue, Published;
    states, actions := PrefixIsARun(c, s, p, ids, at, MarkedRows(ids, fault));
    if fault.Some? && fault.value.row < |ids| {
      states, actions := FailureIsARun(c, s, states, actions, p, ids, at, fault.value);
    } else {
      WholeBatch(s, Last(states), p, ids, at);
    }
    EndedIsPublished(s, Last(states), p, ids, call);
  }

  lemma EndedIsPublished(s: State, s': State, p: nat, ids: seq<Id>, call: Call)
    requires OldestDue(s.db.outbox, call.clock.queriedAt, ids)
    requires Ended(s, s', p, ids, call.clock.markedAt, MarkedRows(ids, call.fault), AddedJobs(ids, call.fault))
    ensures Published(s.db, s.queue, ids, call, MarkedRows(ids, call.fault) < |ids|, s'.db, s'.queue)
      && p !in s'.publishers
  {
    hide AfterFault, Marked, WithJobs, OldestDue, Copies;
  }

  lemma WholeBatch(s: State, s': State, p: nat, ids: seq<Id>, at: Id -> int)
    requires forall k :: 0 <= k < |ids| ==> ids[k] in s.db.outbox
    requires Halfway(s, s', p, ids, at, |ids|)
    ensures Ended(s, s', p, ids, at, |ids|, |ids|)
  {
    hide Marked, WithJobs;
  }

  lemma FailureIsARun(c: Config, s: State, before: seq<State>, done: seq<Action>, p: nat, ids: seq<Id>,
      at: Id -> int, fault: Fault)
      returns (states: seq<State>, actions: seq<Action>)
    requires |before| > 0 && Path(c, before, done) && OnlyPublisher(done, p) && fault.row < |ids|
    requires forall k :: 0 <= k < |ids| ==> ids[k] in s.db.outbox
    requires Halfway(s, Last(before), p, ids, at, fault.row)
    ensures |states| > 0 && Path(c, states, actions) && states[0] == before[0] && OnlyPublisher(actions, p)
    ensures Ended(s, Last(states), p, ids, at, fault.row, if fault.added then fault.row + 1 else fault.row)
  {
    var k := fault.row;
    states, actions := before, done;
    hide PublisherEnabled, PublisherNext, Path, OnlyPublisher, AfterFault, Marked, WithJobs, Copies;
    BatchAt(s.db.outbox, ids, k);
    if fault.added {
      AddNext(s, Last(states), p, ids, at, k);
      SameClock(Last(states));
      states, actions := PublishAt(c, states, actions, p, Last(states).now, AddJob);
    }
    SameClock(Last(states));
    FailNext(Last(states), p);
    FailureIs(Last(states).db, Marked(s.db.outbox, ids[..k], at), ids, k);
    states, actions := PublishAt(c, states, actions, p, Last(states).now, FailRow);
  }

  // ---------------------------------------------------------------- maintenance

  predicate OnlySweep(actions: seq<Action>, m: nat) {
    forall i :: 0 <= i < |actions| ==> actions[i].Maintain? && actions[i].m == m
  }

  lemma NoSweepSteps(m: nat)
    ensures OnlySweep([], m)
  {
  }

  /** One more step of maintenance loop `m`. */
  lemma SweepAt(c: Config, states: seq<State>, actions: seq<Action>, m: nat, step: SweepStep)
      returns (states': seq<State>, actions': seq<Action>)
    requires |states| > 0 && Path(c, states, actions) && OnlySweep(actions, m) && SweepEnabled(c, Last(states), m, step)
    ensures |states'| > 0 && Path(c, states', actions') && OnlySweep(actions', m) && states'[0] == states[0]
    ensures Last(states') == SweepNext(c, Last(states), m, step)
  {
    var a, next := Maintain(m, step), SweepNext(c, Last(states), m, step);
    SweepIs(c, Last(states), m, step);
    hide SweepEnabled, SweepNext, Enabled, Next;
    PathGrows(c, states, actions, a, next);
    states', actions' := states + [next], actions + [a];
  }

  ghost predicate AllFresh(s: State, tickets: seq<Id>, i: nat) {
    Distinct(tickets) && forall k :: i <= k < |tickets| ==> Fresh(s, tickets[k])
  }

  /** Loop `m` has recovered the first `i` of the rows found in state `s`. */
  ghost predicate RecoveredSome(c: Config, s: State, s': State, m: nat, found: seq<(Id, nat)>, tickets: seq<Id>, i: nat)
    requires i <= |found| <= |tickets|
  {
    && s'.now == s.now
    && s'.db == RecoverAll(s.db, found[..i], s.now - c.staleAge, tickets, s.now)
    && m in s'.sweeps && s'.sweeps[m] == Stale(s.now - c.staleAge, found[i..])
    && AllFresh(s', tickets, i)
  }

  lemma ScanNext(c: Config, s: State, m: nat, found: seq<(Id, nat)>, tickets: seq<Id>)
    requires m !in s.sweeps && StaleRows(s.db, s.now - c.staleAge, found) && |found| <= |tickets|
      && AllFresh(s, tickets, 0)
    ensures SweepEnabled(c, s, m, ScanStale(s.now - c.staleAge, found))
      && RecoveredSome(c, s, SweepNext(c, s, m, ScanStale(s.now - c.staleAge, found)), m, found, tickets, 0)
  {
    assert found[0..] == found;
    RecoverUnfold(s.db, found[..0], s.now - c.staleAge, tickets, s.now);
  }

  lemma RecoverNext(c: Config, s: State, s': State, m: nat, found: seq<(Id, nat)>, tickets: seq<Id>, i: nat)
    requires i < |found| <= |tickets| && RecoveredSome(c, s, s', m, found, tickets, i)
    ensures var step := RecoverOne(tickets[i]);
      SweepEnabled(c, s', m, step) && RecoveredSome(c, s, SweepNext(c, s', m, step), m, found, tickets, i + 1)
  {
    var after := DoRecoverOne(s', m, tickets[i]);
    assert found[..i + 1][..i] == found[..i] && found[i..][0] == found[i] && found[i..][1..] == found[i + 1..];
    RecoverUnfold(s.db, found[..i + 1], s.now - c.staleAge, tickets, s.now);
    assert Fresh(s', tickets[i]);
    RecoverOneIs(s', m, tickets[i]);
    hide RecoverAll, DoRecoverOne, RecoverStale;
    forall k | i + 1 <= k < |tickets| ensures Fresh(after, tickets[k]) {
      assert Fresh(s', tickets[k]) && tickets[k] != tickets[i];
    }
  }

  lemma RecoverOneIs(s: State, m: nat, ticket: Id)
    requires m in s.sweeps && s.sweeps[m].Stale? && |s.sweeps[m].found| > 0
    ensures var after, (d, attemptsRead) := DoRecoverOne(s, m, ticket), s.sweeps[m].found[0];
      && after.now == s.now
      && after.db == RecoverStale(s.db, d, attemptsRead, s.sweeps[m].cutoff, ticket, s.now)
      && after.sweeps == s.sweeps[m := Stale(s.sweeps[m].cutoff, s.sweeps[m].found[1..])]
    ensures forall t :: Fresh(s, t) && t != ticket ==> Fresh(DoRecoverOne(s, m, ticket), t)
  {
  }

  /** Stale recovery of the rows found is a run of one maintenance loop. */
  lemma {:induction false} RecoveryIsARun(c: Config, s: State, m: nat, found: seq<(Id, nat)>, tickets: seq<Id>, i: nat)
      returns (states: seq<State>, actions: seq<Action>)
    requires m !in s.sweeps && StaleRows(s.db, s.now - c.staleAge, found) && i <= |found| <= |tickets|
      && AllFresh(s, tickets, 0)
    ensures |states| > 0 && Path(c, states, actions) && states[0] == s && OnlySweep(actions, m)
    ensures RecoveredSome(c, s, Last(states), m, found, tickets, i)
  {
    hide *;
    if i == 0 {
      ScanNext(c, s, m, found, tickets);
      StartPath(c, s);
      NoSweepSteps(m);
      states, actions := SweepAt(c, [s], [], m, ScanStale(s.now - c.staleAge, found));
    } else {
      states, actions := RecoveryIsARun(c, s, m, found, tickets, i - 1);
      RecoverNext(c, s, Last(states), m, found, tickets, i - 1);
      states, actions := SweepAt(c, states, actions, m, RecoverOne(tickets[i - 1]));
    }
  }

  /** Loop `m` has looked at the first `i` of the published rows found in state `s`. */
  ghost predicate ReopenedSome(s: State, s': State, m: nat, rows: seq<(Id, nat)>, i: nat)
    requires i <= |rows|
  {
    && s'.now == s.now && s'.queue == s.queue
    && s'.db == ReopenAll(s.db, s.queue, rows[..i])
    && m in s'.sweeps && s'.sweeps[m] == Stranded(rows[i..], false)
  }

  lemma ScanStrandedNext(c: Config, s: State, m: nat, rows: seq<(Id, nat)>)
    requires m !in s.sweeps && StrandedRows(s.db, rows)
    ensures SweepEnabled(c, s, m, ScanStranded(rows))
      && ReopenedSome(s, SweepNext(c, s, m, ScanStranded(rows)), m, rows, 0)
  {
    assert rows[0..] == rows;
    hide IsPublishedPending;
  }

  lemma RowStays(db: Tables, queue: map<string, QueueEntry>, rows: seq<(Id, nat)>, i: nat)
    requires StrandedRows(db, rows) && i < |rows|
    ensures rows[i].0 in ReopenAll(db, queue, rows[..i]).outbox
  {
    assert IsPublishedPending(db, rows[i].0, rows[i].1);
    ReopenAllResult(db, queue, rows[..i]);
    hide ReopenAll, HasNoLiveJob, IsFound;
  }

  lemma InspectNext(c: Config, s: State, m: nat, rows: seq<(Id, nat)>)
    requires m in s.sweeps && s.sweeps[m] == Stranded(rows, false) && |rows| > 0
    ensures SweepEnabled(c, s, m, InspectOne)
    ensures SweepNext(c, s, m, InspectOne) == s.(sweeps := s.sweeps[m :=
      if HasNoLiveJob(s.queue, rows[0].0, rows[0].1) then Stranded(rows, true) else Stranded(rows[1..], false)])
  {
    hide HasNoLiveJob;
  }

  lemma ReopenNext(c: Config, s: State, m: nat, rows: seq<(Id, nat)>)
    requires m in s.sweeps && s.sweeps[m] == Stranded(rows, true) && |rows| > 0 && rows[0].0 in s.db.outbox
    ensures SweepEnabled(c, s, m, ReopenOne)
    ensures SweepNext(c, s, m, ReopenOne)
      == s.(db := Reopen(s.db, rows[0].0), sweeps := s.sweeps[m := Stranded(rows[1..], false)])
  {
    hide Reopen;
  }

  lemma SuffixOf(rows: seq<(Id, nat)>, i: nat)
    requires i < |rows|
    ensures |rows[i..]| > 0 && rows[i..][0] == rows[i] && rows[i..][1..] == rows[i + 1..]
  {
  }

  /** Stranded recovery of the rows found is a run of one maintenance loop. */
  lemma {:induction false} ReopeningIsARun(c: Config, s: State, m: nat, rows: seq<(Id, nat)>, i: nat)
      returns (states: seq<State>, actions: seq<Action>)
    requires m !in s.sweeps && StrandedRows(s.db, rows) && i <= |rows|
    ensures |states| > 0 && Path(c, states, actions) && states[0] == s && OnlySweep(actions, m)
    ensures ReopenedSome(s, Last(states), m, rows, i)
  {
    hide Path, OnlySweep, SweepEnabled, SweepNext, StrandedRows, ReopenAll, HasNoLiveJob, Reopen;
    if i == 0 {
      ScanStrandedNext(c, s, m, rows);
      StartPath(c, s);
      NoSweepSteps(m);
      states, actions := SweepAt(c, [s], [], m, ScanStranded(rows));
    } else {
      var k := i - 1;
      states, actions := ReopeningIsARun(c, s, m, rows, k);
      SuffixOf(rows, k);
      ReopenUnfold(s.db, s.queue, rows, k);
      RowStays(s.db, s.queue, rows, k);
      InspectNext(c, Last(states), m, rows[k..]);
      states, actions := SweepAt(c, states, actions, m, InspectOne);
      if HasNoLiveJob(s.queue, rows[k].0, rows[k].1) {
        ReopenNext(c, Last(states), m, rows[k..]);
        states, actions := SweepAt(c, states, actions, m, ReopenOne);
      }
    }
  }

  // ---------------------------------------------------------------- accepting an event

  function PairUp(keys: seq<Id>, values: seq<Id>, n: nat): map<Id, Id>
    requires n <= |keys| && n <= |values|
  {
    if n == 0 then map[] else PairUp(keys, values, n - 1)[keys[n - 1] := values[n - 1]]
  }

  predicate PairAt(pairs: map<Id, Id>, keys: seq<Id>, values: seq<Id>, k: nat)
    requires k < |keys| && k < |values|
  {
    keys[k] in pairs && pairs[keys[k]] == values[k]
  }

  lemma {:induction false} PairUpKeys(keys: seq<Id>, values: seq<Id>, n: nat)
    requires n <= |keys| && n <= |values| && Distinct(keys)
    ensures forall x :: x in PairUp(keys, values, n) <==> Among(x, keys, n)
    ensures forall k :: 0 <= k < n ==> PairAt(PairUp(keys, values, n), keys, values, k)
  {
    if n > 0 {
      PairUpKeys(keys, values, n - 1);
      AmongGrows(keys, n - 1);
      hide Among;
      forall k | 0 <= k < n ensures PairAt(PairUp(keys, values, n), keys, values, k) {
        if k < n - 1 {
          assert PairAt(PairUp(keys, values, n - 1), keys, values, k);
        }
      }
    }
  }

  lemma {:induction false} DeliveriesAgree(rows: map<Id, Delivery>, event: Id, ids: seq<Id>, listed: seq<Id>)
    requires |listed| <= |ids|
    ensures WithDeliveries(rows, event, ids, listed) == rows + NewDeliveries(event, PairUp(ids, listed, |listed|))
  {
    var n := |listed| - 1;
    if n < 0 {
      assert NewDeliveries(event, PairUp(ids, listed, |listed|)) == map[];
    } else {
      DeliveriesAgree(rows, event, ids, listed[..n]);
      SamePairs(ids, listed, n);
      FanGrows(event, PairUp(ids, listed, n), ids[n], listed[n]);
      hide NewDeliveries;
    }
  }

  lemma FanGrows(event: Id, fan: map<Id, Id>, d: Id, endpoint: Id)
    ensures NewDeliveries(event, fan[d := endpoint]) == NewDeliveries(event, fan)[d := NewDelivery(event, endpoint)]
  {
  }

  lemma {:induction false} SamePairs(ids: seq<Id>, listed: seq<Id>, n: nat)
    requires n <= |listed| && n <= |ids|
    ensures PairUp(ids, listed[..n], n) == PairUp(ids, listed, n)
    decreases n
  {
    if n > 0 {
      SamePairs(ids, listed, n - 1);
      SamePairs(ids, listed[..n], n - 1);
      assert listed[..n][..n - 1] == listed[..n - 1];
    }
  }

  lemma {:induction false} TicketsAgree(rows: map<Id, Ticket>, ids: seq<Id>, deliveryIds: seq<Id>, n: nat, now: int)
    requires n <= |ids| && n <= |deliveryIds|
    ensures WithTickets(rows, ids, deliveryIds, n, now) == rows + FirstTickets(PairUp(ids, deliveryIds, n), now)
  {
    if n == 0 {
      assert FirstTickets(PairUp(ids, deliveryIds, n), now) == map[];
    } else {
      TicketsAgree(rows, ids, deliveryIds, n - 1, now);
      assert FirstTickets(PairUp(ids, deliveryIds, n), now)
        == FirstTickets(PairUp(ids, deliveryIds, n - 1), now)[ids[n - 1] := NewTicket(deliveryIds[n - 1], 1, now, now)];
    }
  }

  /** The ids are new to the whole history. */
  predicate NeverUsed(s: State, r: Request) {
    && FreshIds(s.db, r)
    && r.event !in s.h.eventIds
    && (forall d :: d in r.deliveryIds ==> d !in s.h.records)
    && (forall t :: t in r.ticketIds ==> t !in s.h.issued)
  }

  function IngestAction(r: Request, n: nat, listed: seq<Id>): Action
    requires n <= |listed| && EnoughIds(r, n)
  {
    Ingest(r.event, r.tenant, r.key, r.eventType, PairUp(r.deliveryIds, listed, n),
      PairUp(r.deliveryIds, r.ticketIds, n), PairUp(r.ticketIds, r.deliveryIds, n))
  }

  /** Accepting a request is one step of the protocol. */
  lemma IngestIsAStep(c: Config, s: State, r: Request, listed: seq<Id>)
    requires EnoughIds(r, |listed|) && NeverUsed(s, r) && !HasKey(s.db.events, r.tenant, r.key) && r.now == s.now
    ensures var a := IngestAction(r, |listed|, listed);
      Enabled(c, s, a) && Next(c, s, a).db == Accept(s.db, r, listed)
  {
    var n := |listed|;
    var fan, first, owner := PairUp(r.deliveryIds, listed, n), PairUp(r.deliveryIds, r.ticketIds, n),
      PairUp(r.ticketIds, r.deliveryIds, n);
    PairsFit(s, r, listed);
    DeliveriesAgree(s.db.deliveries, r.event, r.deliveryIds, listed);
    TicketsAgree(s.db.outbox, r.ticketIds, r.deliveryIds, n, s.now);
    NoPairs(r.deliveryIds, listed);
    hide CanIngest, WithDeliveries, WithTickets, NewDeliveries, FirstTickets, FirstOrders, FirstRecords, PairUp;
  }

  lemma NoPairs(ids: seq<Id>, listed: seq<Id>)
    requires |listed| <= |ids|
    ensures PairUp(ids, listed, |listed|) == map[] <==> |listed| == 0
  {
    if |listed| > 0 {
      assert ids[|listed| - 1] in PairUp(ids, listed, |listed|);
    }
  }

  lemma PairsFit(s: State, r: Request, listed: seq<Id>)
    requires EnoughIds(r, |listed|) && NeverUsed(s, r) && !HasKey(s.db.events, r.tenant, r.key)
    ensures CanIngest(s, r.event, r.tenant, r.key, PairUp(r.deliveryIds, listed, |listed|),
                      PairUp(r.deliveryIds, r.ticketIds, |listed|), PairUp(r.ticketIds, r.deliveryIds, |listed|))
  {
    var n := |listed|;
    assert FreshIds(s.db, r);
    hide *;
    DistinctIds(s.db, r);
    PairUpKeys(r.deliveryIds, listed, n);
    PairUpKeys(r.deliveryIds, r.ticketIds, n);
    PairUpKeys(r.ticketIds, r.deliveryIds, n);
    Inverse(r.deliveryIds, r.ticketIds, n);
    Inverse(r.ticketIds, r.deliveryIds, n);
    AmongIn(r.deliveryIds, n);
    AmongIn(r.ticketIds, n);
    IngestAllowed(s, r, PairUp(r.deliveryIds, listed, n), PairUp(r.deliveryIds, r.ticketIds, n),
      PairUp(r.ticketIds, r.deliveryIds, n));
  }

  lemma IngestAllowed(s: State, r: Request, fan: map<Id, Id>, first: map<Id, Id>, owner: map<Id, Id>)
    requires NeverUsed(s, r) && !HasKey(s.db.events, r.tenant, r.key)
    requires first.Keys == fan.Keys && forall d :: d in fan ==> d in r.deliveryIds
    requires forall t :: t in owner ==> t in r.ticketIds
    requires InverseOf(first, owner) && InverseOf(owner, first)
    ensures CanIngest(s, r.event, r.tenant, r.key, fan, first, owner)
  {
  }

  lemma AmongIn(ids: seq<Id>, n: nat)
    ensures forall x :: Among(x, ids, n) ==> x in ids
  {
  }

  predicate InverseOf(there: map<Id, Id>, back: map<Id, Id>) {
    forall x :: x in there ==> there[x] in back && back[there[x]] == x
  }

  lemma DistinctIds(db: Tables, r: Request)
    requires FreshIds(db, r)
    ensures Distinct(r.deliveryIds) && Distinct(r.ticketIds)
  {
  }

  lemma Inverse(keys: seq<Id>, values: seq<Id>, n: nat)
    requires n <= |keys| && n <= |values| && Distinct(keys) && Distinct(values)
    ensures InverseOf(PairUp(keys, values, n), PairUp(values, keys, n))
  {
    var there, back := PairUp(keys, values, n), PairUp(values, keys, n);
    PairUpKeys(keys, values, n);
    PairUpKeys(values, keys, n);
    hide PairUp;
    forall x | x in there ensures there[x] in back && back[there[x]] == x {
      var k :| 0 <= k < n && keys[k] == x;
      assert PairAt(there, keys, values, k) && PairAt(back, values, keys, k);
    }
  }
}
