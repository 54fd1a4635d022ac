/** No dead ends: from every state reachable under X, Y and the weaker form of Q, an
    unfinished delivery to an active endpoint can still succeed, by ticks, both
    recoveries, publication, claims and an accepting receiver alone, unless a worker is
    about to cancel it. */
module Progress {
  import opened Domain
  import opened Transactions
  import opened JobIds
  import opened Protocol
  import opened Effects
  import opened Structure
  import Attempts
  import Orderly
  import opened Lossless
  import opened Paths
  import opened Rescue
  import Retry

  // ---------------------------------------------------------------- schedules

  /** The steps a schedule may use: no replay, no operator, no crash, no lost job and
      no failed publication. */
  predicate Helpful(a: Action) {
    match a
    case Tick(_) => true
    case Publisher(_, step) => step.Fetch? || step.AddJob? || step.MarkRow?
    case Work(_, step) => step.Take? || step.Claim? || (step.Respond? && step.reply.Accepted?)
    case Maintain(_, step) =>
      step.ScanStale? || step.RecoverOne? || step.ScanStranded? || step.InspectOne? || step.ReopenOne?
    case _ => false
  }

  ghost predicate GoodStep(c: Config, s: State, a: Action) {
    Enabled(c, s, a) && OneWorker(s, a) && NoStaleReject(s, a) && KeepsJobs(s, a, false) && Helpful(a)
  }

  ghost predicate Schedule(c: Config, states: seq<State>, actions: seq<Action>) {
    && |states| == |actions| + 1
    && forall i :: 0 <= i < |actions| ==>
         GoodStep(c, states[i], actions[i]) && states[i + 1] == Next(c, states[i], actions[i])
  }

  predicate Delivered(s: State, d: Id) {
    d in s.db.deliveries && s.db.deliveries[d].status.SUCCESS?
  }

  ghost predicate CanSucceed(c: Config, s: State, d: Id) {
    exists states, actions :: Schedule(c, states, actions) && states[0] == s && Delivered(states[|actions|], d)
  }

  lemma Arrived(c: Config, s: State, d: Id)
    requires Delivered(s, d)
    ensures CanSucceed(c, s, d)
  {
    var states, actions: seq<Action> := [s], [];
    assert Schedule(c, states, actions);
  }

  lemma StepBack(c: Config, s: State, a: Action, d: Id)
    requires GoodStep(c, s, a) && CanSucceed(c, Next(c, s, a), d)
    ensures CanSucceed(c, s, d)
  {
    hide Enabled, OneWorker, NoStaleReject, KeepsJobs, Helpful, Next, Delivered;
    var states, actions :| Schedule(c, states, actions) && states[0] == Next(c, s, a)
      && Delivered(states[|actions|], d);
    var states', actions' := [s] + states, [a] + actions;
    forall i | 0 <= i < |actions'| ensures GoodStep(c, states'[i], actions'[i])
      && states'[i + 1] == Next(c, states'[i], actions'[i]) {
      if i > 0 {
        assert actions'[i] == actions[i - 1] && states'[i] == states[i - 1] && states'[i + 1] == states[i];
      }
    }
    assert Schedule(c, states', actions');
    assert states'[|actions'|] == states[|actions|];
  }

  lemma GoodKeepsSafe(c: Config, s: State, a: Action)
    requires c.Valid() && Safe(c, s, false) && GoodStep(c, s, a)
    ensures Safe(c, Next(c, s, a), false)
  {
    hide *;
    GoodParts(c, s, a);
    SafeStep(c, s, a, false);
  }

  lemma GoodParts(c: Config, s: State, a: Action)
    requires GoodStep(c, s, a)
    ensures Enabled(c, s, a) && OneWorker(s, a) && NoStaleReject(s, a) && KeepsJobs(s, a, false)
  {
    hide Enabled, OneWorker, NoStaleReject, KeepsJobs;
  }

  /** Publication and stranded recovery are good steps. */
  lemma RescueIsGood(c: Config, s: State, a: Action, p: nat, m: nat)
    requires Enabled(c, s, a) && (Publishes(a, p) || Reopens(a, m))
    ensures GoodStep(c, s, a)
  {
    hide Enabled;
  }

  ghost predicate AllRescue(actions: seq<Action>, p: nat, m: nat) {
    forall i :: 0 <= i < |actions| ==> Publishes(actions[i], p) || Reopens(actions[i], m)
  }

  lemma {:induction false} PathBack(c: Config, states: seq<State>, actions: seq<Action>, p: nat, m: nat, d: Id, i: nat)
    requires Path(c, states, actions) && AllRescue(actions, p, m) && i < |states| && CanSucceed(c, Last(states), d)
    ensures CanSucceed(c, states[i], d)
    decreases |states| - i
  {
    hide Enabled, Next, CanSucceed, Publishes, Reopens, GoodStep;
    if i < |states| - 1 {
      PathBack(c, states, actions, p, m, d, i + 1);
      RescueIsGood(c, states[i], actions[i], p, m);
      StepBack(c, states[i], actions[i], d);
    }
  }

  lemma {:induction false} PathSafe(c: Config, states: seq<State>, actions: seq<Action>, p: nat, m: nat, i: nat)
    requires c.Valid() && Path(c, states, actions) && AllRescue(actions, p, m) && i < |states|
      && Safe(c, states[0], false)
    ensures Safe(c, states[i], false)
  {
    hide Enabled, Next, Safe, Publishes, Reopens, GoodStep;
    if i > 0 {
      PathSafe(c, states, actions, p, m, i - 1);
      RescueIsGood(c, states[i - 1], actions[i - 1], p, m);
      GoodKeepsSafe(c, states[i - 1], actions[i - 1]);
    }
  }

  // ---------------------------------------------------------------- claim and respond

  ghost predicate EndpointIsActive(s: State, d: Id) {
    d in s.db.deliveries && IsActive(s, s.db.deliveries[d].endpoint)
  }

  /** Delivery `d` is due for its next attempt and no worker is on it. */
  ghost predicate Idle(s: State, d: Id) {
    d in s.db.deliveries && s.db.deliveries[d].status.Claimable() && EndpointIsActive(s, d) && !LiveOn(s, d)
  }

  lemma SendingRow(c: Config, s: State, w: nat)
    requires Attempts.Counted(c, s) && Orderly.LiveRowsOk(s) && w in s.workers && s.workers[w].Sending?
    ensures s.workers[w].attempt >= 1 && s.workers[w].job.delivery in s.db.deliveries
  {
    var d, r := s.workers[w].job.delivery, RecordOf(s.h, s.workers[w].job.delivery);
    assert Orderly.KnowsRow(s, s.workers[w]);
    assert Attempts.SenderOk(w, s.workers[w].attempt, s.workers[w].index, r);
    assert Attempts.Chained(r) by {
      assert d in s.h.records && Attempts.RecordOk(c, r);
    }
    hide *;
    SenderCounts(w, s.workers[w].attempt, s.workers[w].index, r);
  }

  lemma SenderCounts(w: nat, attempt: nat, index: nat, r: Record)
    requires Attempts.SenderOk(w, attempt, index, r) && Attempts.Chained(r)
    ensures attempt >= 1
  {
    assert Attempts.Numbered(r.sends, index);
  }

  lemma RespondStep(c: Config, s: State, w: nat, ticket: Id)
    requires w in s.workers && s.workers[w].Sending? && s.workers[w].attempt >= 1 && Fresh(s, ticket)
    requires s.workers[w].job.delivery in s.db.deliveries
    ensures var a := Work(w, Respond(Retry.Accepted, 0.0, ticket));
      GoodStep(c, s, a) && Next(c, s, a).db == MarkTerminal(s.db, s.workers[w].job.delivery, SUCCESS, s.now)
  {
    hide MarkTerminal, Fresh;
  }

  /** A sending worker whose receiver accepts delivers. */
  lemma RespondArrives(c: Config, s: State, w: nat)
    requires Safe(c, s, false) && w in s.workers && s.workers[w].Sending?
    ensures CanSucceed(c, s, s.workers[w].job.delivery)
  {
    SendingRow(c, s, w);
    hide *;
    var ticket := FreshTicket(s);
    var d, a := s.workers[w].job.delivery, Work(w, Respond(Retry.Accepted, 0.0, ticket));
    RespondStep(c, s, w, ticket);
    TerminalArrives(c, Next(c, s, a), s.db, d, s.now);
    StepBack(c, s, a, d);
  }

  lemma TerminalArrives(c: Config, s: State, db: Tables, d: Id, now: int)
    requires d in db.deliveries && s.db == MarkTerminal(db, d, SUCCESS, now)
    ensures CanSucceed(c, s, d)
  {
    MarkTerminalFrame(db, d, SUCCESS, now);
    Arrived(c, s, d);
  }

  lemma ClaimStep(c: Config, s: State, w: nat)
    requires w in s.workers && s.workers[w].Checked? && s.workers[w].active
    ensures GoodStep(c, s, Work(w, Claim)) && Next(c, s, Work(w, Claim)) == DoClaim(s, w)
  {
    hide DoClaim;
  }

  lemma ClaimWon(s: State, w: nat)
    requires w in s.workers && CanClaim(s.db, s.workers[w].job.delivery, s.workers[w].job.expected)
    ensures var s' := DoClaim(s, w);
      w in s'.workers && s'.workers[w].Sending? && s'.workers[w].job == s.workers[w].job
  {
    hide ClaimForProcessing;
  }

  /** A worker whose claim will be won delivers. */
  lemma ClaimArrives(c: Config, s: State, w: nat)
    requires c.Valid() && Safe(c, s, false) && w in s.workers && s.workers[w].Checked? && s.workers[w].active
    requires CanClaim(s.db, s.workers[w].job.delivery, s.workers[w].job.expected)
    ensures CanSucceed(c, s, s.workers[w].job.delivery)
  {
    hide *;
    ClaimStep(c, s, w);
    GoodKeepsSafe(c, s, Work(w, Claim));
    ClaimWon(s, w);
    RespondArrives(c, DoClaim(s, w), w);
    StepBack(c, s, Work(w, Claim), s.workers[w].job.delivery);
  }

  lemma InQueue(s: State, k: string)
    requires IsWaiting(s, k)
    ensures k in s.queue
  {
  }

  lemma ClaimableRow(s: State, d: Id)
    requires d in s.db.deliveries && Idle(s, d)
    ensures CanClaim(s.db, d, s.db.deliveries[d].attempts + 1)
  {
  }

  lemma TakeStep(c: Config, s: State, w: nat, d: Id, k: string)
    requires Idle(s, d)
    requires w !in s.workers && IsWaiting(s, k) && s.queue[k].job.delivery == d
    ensures GoodStep(c, s, Work(w, Take(k)))
    ensures Next(c, s, Work(w, Take(k))) == s.(workers := s.workers[w := Checked(s.queue[k].job, true)])
  {
  }

  /** A waiting job for the next attempt delivers. */
  lemma JobArrives(c: Config, s: State, d: Id, k: string)
    requires c.Valid() && Safe(c, s, false) && d in s.db.deliveries && Idle(s, d)
    requires IsWaiting(s, k) && s.queue[k].job.delivery == d
      && s.queue[k].job.expected == s.db.deliveries[d].attempts + 1
    ensures CanSucceed(c, s, d)
  {
    hide *;
    ClaimableRow(s, d);
    InQueue(s, k);
    var w := FreshSlot(s.workers);
    var s' := s.(workers := s.workers[w := Checked(s.queue[k].job, true)]);
    TakeStep(c, s, w, d, k);
    GoodKeepsSafe(c, s, Work(w, Take(k)));
    ClaimArrives(c, s', w);
    StepBack(c, s, Work(w, Take(k)), d);
  }

  // ---------------------------------------------------------------- orders

  /** Deliveries, workers and history are the same. */
  predicate SameWork(s: State, s': State) {
    && s'.db.deliveries == s.db.deliveries && s'.workers == s.workers && s'.active == s.active
    && s'.h.records == s.h.records && s'.h.issued == s.h.issued
  }

  lemma IdleSame(s: State, s': State, d: Id)
    requires SameWork(s, s') && Idle(s, d)
    ensures Idle(s', d) && RecordOf(s'.h, d) == RecordOf(s.h, d)
    ensures PlainIds(s) ==> PlainIds(s')
  {
    assert LiveOn(s', d) ==> LiveOn(s, d);
  }

  lemma PublishedSameWork(s: State, s': State)
    requires OnlyPublished(s, s')
    ensures SameWork(s, s')
  {
  }

  /** Row `t` is the current order of the waiting delivery `d`. */
  ghost predicate IsCurrent(s: State, d: Id, t: Id) {
    && Idle(s, d) && PlainIds(s)
    && t == RecordOf(s.h, d).current && t in s.h.issued
    && s.h.issued[t].delivery == d && s.h.issued[t].number == s.db.deliveries[d].attempts + 1
  }

  lemma CurrentSame(s: State, s': State, d: Id, t: Id)
    requires SameWork(s, s') && IsCurrent(s, d, t)
    ensures IsCurrent(s', d, t)
  {
    IdleSame(s, s', d);
    hide Idle, PlainIds;
  }

  /** A waiting job of the current order delivers. */
  lemma OwnJobArrives(c: Config, s: State, d: Id, t: Id, k: string)
    requires c.Valid() && Safe(c, s, false) && IsCurrent(s, d, t) && IsJobOf(s, k, t)
    ensures CanSucceed(c, s, d)
  {
    assert JobOk(s, s.queue[k].job);
    hide Safe, CanSucceed, PlainIds;
    JobArrives(c, s, d, k);
  }

  lemma TickStep(c: Config, s: State, ms: nat)
    ensures GoodStep(c, s, Tick(ms)) && Next(c, s, Tick(ms)) == s.(now := s.now + ms)
  {
  }

  /** The current order is unpublished, and its current job id is free. */
  predicate IsAddable(s: State, t: Id) {
    IsOpen(s, t) && JobId(t, s.db.outbox[t].publishes) !in s.queue
  }

  /** A publisher that gets as far as row `t` has added a job under its current id. */
  lemma AddedNow(s: State, s': State, t: Id)
    requires IsAddable(s, t) && OnlyPublished(s, s') && IsPublished(s', t) && QueueOk(s')
    ensures t in s'.db.outbox && IsJobOf(s', JobId(t, s'.db.outbox[t].publishes), t)
  {
    var key := JobId(t, s'.db.outbox[t].publishes);
    var job := s'.queue[key].job;
    assert JobOk(s', job);
    JobIdInjective(t, s'.db.outbox[t].publishes, job.outbox, job.counter);
  }

  /** A due order with a free id is published, added, taken and delivered. */
  lemma DueArrives(c: Config, s: State, d: Id, t: Id)
    requires c.Valid() && Safe(c, s, false) && IsCurrent(s, d, t) && IsAddable(s, t) && Due(s.db.outbox, s.now, t)
    ensures CanSucceed(c, s, d)
  {
    hide *;
    var p := FreshSlot(s.publishers);
    RestingIsTidy(s, p);
    var states, actions := DueIsPublished(c, s, t, p);
    PublishIsRescue(actions, p);
    PathSafe(c, states, actions, p, 0, |states| - 1);
    var s' := Last(states);
    LastIs(states);
    SafeQueue(c, s');
    PublishedSameWork(s, s');
    CurrentSame(s, s', d, t);
    AddedNow(s, s', t);
    OwnJobArrives(c, s', d, t, JobId(t, s'.db.outbox[t].publishes));
    PathBack(c, states, actions, p, 0, d, 0);
  }

  lemma RestingIsTidy(s: State, p: nat)
    requires p !in s.publishers
    ensures Tidy(s, p)
  {
  }

  lemma PublishIsRescue(actions: seq<Action>, p: nat)
    requires AllPublish(actions, p)
    ensures forall m :: AllRescue(actions, p, m)
  {
  }

  lemma SafeQueue(c: Config, s: State)
    requires Safe(c, s, false)
    ensures QueueOk(s) && Structured(s)
  {
  }

  /** The same for an order that is due later. */
  lemma AddableArrives(c: Config, s: State, d: Id, t: Id)
    requires c.Valid() && Safe(c, s, false) && IsCurrent(s, d, t) && IsAddable(s, t)
    ensures CanSucceed(c, s, d)
  {
    hide *;
    var ms := Wait(s, t);
    var s' := s.(now := s.now + ms);
    TickStep(c, s, ms);
    GoodKeepsSafe(c, s, Tick(ms));
    CurrentLater(s, ms, d, t);
    DueArrives(c, s', d, t);
    StepBack(c, s, Tick(ms), d);
  }

  lemma Wait(s: State, t: Id) returns (ms: nat)
    requires IsAddable(s, t)
    ensures var s' := s.(now := s.now + ms); Due(s'.db.outbox, s'.now, t) && IsAddable(s', t)
  {
    ms := if s.now < s.db.outbox[t].availableAt then s.db.outbox[t].availableAt - s.now else 0;
    hide JobId;
  }

  lemma CurrentLater(s: State, ms: nat, d: Id, t: Id)
    requires IsCurrent(s, d, t)
    ensures IsCurrent(s.(now := s.now + ms), d, t)
  {
    CurrentSame(s, s.(now := s.now + ms), d, t);
  }

  /** A published order of a PENDING delivery without a live job is reopened first. */
  lemma StrandedArrives(c: Config, s: State, d: Id, t: Id)
    requires c.Valid() && Safe(c, s, false) && IsCurrent(s, d, t)
    requires IsFindable(s, d, s.db.deliveries[d].attempts + 1, t) && s.db.outbox[t].publishedAt.Some?
    ensures CanSucceed(c, s, d)
  {
    var n := s.db.deliveries[d].attempts + 1;
    hide *;
    FindableIsListed(s, d, n, t);
    var m := FreshSlot(s.sweeps);
    FindableParts(s, d, n, t);
    var states, actions, _ := StrandedIsReopened(c, s, t, m);
    ReopenIsRescue(actions, m);
    PathSafe(c, states, actions, 0, m, |states| - 1);
    LastIs(states);
    var s' := Last(states);
    SafeQueue(c, s);
    ReopenedAddable(s, s', t);
    CurrentSame(s, s', d, t);
    AddableArrives(c, s', d, t);
    PathBack(c, states, actions, 0, m, d, 0);
  }

  lemma FindableParts(s: State, d: Id, n: nat, t: Id)
    requires IsFindable(s, d, n, t)
    ensures t in s.db.outbox && HasNoLiveJob(s.queue, t, s.db.outbox[t].publishes)
  {
  }

  lemma FindableIsListed(s: State, d: Id, n: nat, t: Id)
    requires IsFindable(s, d, n, t) && s.db.outbox[t].publishedAt.Some?
    ensures IsPublishedPending(s.db, t, s.db.outbox[t].publishes)
  {
    hide HasNoLiveJob;
  }

  lemma ReopenIsRescue(actions: seq<Action>, m: nat)
    requires forall i :: 0 <= i < |actions| ==> Reopens(actions[i], m)
    ensures forall p :: AllRescue(actions, p, m)
  {
  }

  lemma ReopenedAddable(s: State, s': State, t: Id)
    requires Structured(s) && t in s.db.outbox
    requires s' == s.(db := Reopen(s.db, t), sweeps := s'.sweeps)
    ensures IsAddable(s', t) && SameWork(s, s')
  {
    CounterUnused(s, t, s.db.outbox[t].publishes + 1);
    hide JobId;
  }

  /** An unpublished order whose job has failed is published first. */
  lemma FailedArrives(c: Config, s: State, d: Id, t: Id)
    requires c.Valid() && Safe(c, s, false) && IsCurrent(s, d, t)
    requires IsFindable(s, d, s.db.deliveries[d].attempts + 1, t) && IsOpen(s, t) && !IsAddable(s, t)
    ensures CanSucceed(c, s, d)
  {
    hide *;
    HasFailedJob(s, t);
    CurrentRow(s, d, t);
    var n := s.db.deliveries[d].attempts + 1;
    SafeQueue(c, s);
    JobShowsDue(s, t);
    var p := FreshSlot(s.publishers);
    RestingIsTidy(s, p);
    var states, actions := DueIsPublished(c, s, t, p);
    PublishIsRescue(actions, p);
    PathSafe(c, states, actions, p, 0, |states| - 1);
    LastIs(states);
    var s' := Last(states);
    PublishedSameWork(s, s');
    CurrentSame(s, s', d, t);
    StillFindable(s, s', d, n, t);
    PublishedRow(s, s', d, t);
    StrandedArrives(c, s', d, t);
    PathBack(c, states, actions, p, 0, d, 0);
  }

  lemma HasFailedJob(s: State, t: Id)
    requires IsOpen(s, t) && !IsAddable(s, t)
    ensures t in s.db.outbox && JobId(t, s.db.outbox[t].publishes) in s.queue
  {
    hide JobId;
  }

  lemma CurrentRow(s: State, d: Id, t: Id)
    requires IsCurrent(s, d, t)
    ensures d in s.db.deliveries
  {
  }

  lemma PublishedRow(s: State, s': State, d: Id, t: Id)
    requires SameWork(s, s') && IsPublished(s', t) && IsCurrent(s, d, t)
    ensures t in s'.db.outbox && s'.db.outbox[t].publishedAt.Some?
    ensures d in s.db.deliveries && d in s'.db.deliveries && s'.db.deliveries[d] == s.db.deliveries[d]
  {
  }

  /** The current order of an idle delivery, and what keeps it alive. */
  lemma CurrentOrder(c: Config, s: State, d: Id) returns (t: Id)
    requires Safe(c, s, false) && Idle(s, d) && PlainIds(s)
    ensures IsCurrent(s, d, t)
    ensures HasJob(s, t) || IsAddable(s, t) || IsFindable(s, d, s.db.deliveries[d].attempts + 1, t)
  {
    hide *;
    t := RecordOf(s.h, d).current;
    SafeQueue(c, s);
    KeptOrder(c, s, d, t);
    if !HasJob(s, t) {
      if IsOpen(s, t) && !WasAdded(s, t) {
        NeverAdded(s, t);
      } else {
        RecoverableIsFindable(s, d, s.db.deliveries[d].attempts + 1, t);
      }
    }
  }

  lemma KeptOrder(c: Config, s: State, d: Id, t: Id)
    requires Safe(c, s, false) && Idle(s, d) && PlainIds(s) && t == RecordOf(s.h, d).current
    ensures IsCurrent(s, d, t) && d in s.db.deliveries
    ensures HasJob(s, t) || (IsOpen(s, t) && !WasAdded(s, t)) || Recoverable(s, d, s.db.deliveries[d].attempts + 1, t)
  {
    hide Safe, Structured, PlainIds, QueueOk, JobId, WasAdded, HasJob, LiveOn, EndpointIsActive, NobodyLeaves;
    SafeQueue(c, s);
    KeptBySafe(c, s, d);
    if t in s.h.issued {
      RowOfOrder(s, t);
    }
  }

  lemma KeptBySafe(c: Config, s: State, d: Id)
    requires Safe(c, s, false) && d in s.db.deliveries
    ensures Kept(s, d, false)
  {
    hide Kept, Attempts.Counted, Orderly.InOrder;
  }

  lemma NeverAdded(s: State, t: Id)
    requires QueueOk(s) && IsOpen(s, t) && !WasAdded(s, t)
    ensures IsAddable(s, t)
  {
    var key := JobId(t, s.db.outbox[t].publishes);
    if key in s.queue {
      var job := s.queue[key].job;
      assert JobOk(s, job);
      JobIdInjective(t, s.db.outbox[t].publishes, job.outbox, job.counter);
    }
  }

  lemma RowOfOrder(s: State, t: Id)
    requires Structured(s) && t in s.h.issued
    ensures t in s.db.outbox ==>
      s.db.outbox[t].delivery == s.h.issued[t].delivery && s.db.outbox[t].attemptNumber == s.h.issued[t].number
  {
  }

  /** A delivery waiting for its next attempt, with nobody on it, can succeed. */
  lemma IdleArrives(c: Config, s: State, d: Id)
    requires c.Valid() && Safe(c, s, false) && Idle(s, d) && PlainIds(s)
    ensures CanSucceed(c, s, d)
  {
    var t := CurrentOrder(c, s, d);
    hide Safe, CanSucceed, IsCurrent, Idle, PlainIds, IsFindable;
    if k :| IsJobOf(s, k, t) {
      OwnJobArrives(c, s, d, t, k);
    } else if IsAddable(s, t) {
      AddableArrives(c, s, d, t);
    } else {
      FindableRow(s, d, t);
      if IsOpen(s, t) {
        FailedArrives(c, s, d, t);
      } else {
        StrandedArrives(c, s, d, t);
      }
    }
  }

  lemma FindableRow(s: State, d: Id, t: Id)
    requires d in s.db.deliveries && IsFindable(s, d, s.db.deliveries[d].attempts + 1, t)
    ensures t in s.db.outbox && (IsOpen(s, t) || s.db.outbox[t].publishedAt.Some?)
  {
  }

  // ---------------------------------------------------------------- stale recovery

  /** A delivery in progress with nobody on it: its worker has crashed. */
  ghost predicate Abandoned(s: State, d: Id) {
    && EndpointIsActive(s, d) && !LiveOn(s, d)
    && s.db.deliveries[d].status.PROCESSING? && s.db.deliveries[d].lastAttemptAt.Some?
  }

  ghost predicate StaleNow(c: Config, s: State, d: Id) {
    Abandoned(s, d) && IsStale(s.db, d, s.now - c.staleAge)
  }

  lemma StaleLater(c: Config, s: State, d: Id) returns (ms: nat)
    requires Abandoned(s, d)
    ensures StaleNow(c, s.(now := s.now + ms), d)
  {
    var last := s.db.deliveries[d].lastAttemptAt.value;
    ms := if s.now <= last + c.staleAge then last + c.staleAge + 1 - s.now else 0;
    var s' := s.(now := s.now + ms);
    assert LiveOn(s', d) ==> LiveOn(s, d);
  }

  lemma AbandonedArrives(c: Config, s: State, d: Id)
    requires c.Valid() && Safe(c, s, false) && Abandoned(s, d) && PlainIds(s)
    ensures CanSucceed(c, s, d)
  {
    hide *;
    var ms := StaleLater(c, s, d);
    TickStep(c, s, ms);
    GoodKeepsSafe(c, s, Tick(ms));
    PlainSame(s, s.(now := s.now + ms));
    StaleArrives(c, s.(now := s.now + ms), d);
    StepBack(c, s, Tick(ms), d);
  }

  lemma ScanStep(c: Config, s: State, m: nat, d: Id, found: seq<(Id, nat)>)
    requires StaleNow(c, s, d) && m !in s.sweeps && StaleRows(s.db, s.now - c.staleAge, found)
    ensures var a, s' := Maintain(m, ScanStale(s.now - c.staleAge, found)),
                         s.(sweeps := s.sweeps[m := Stale(s.now - c.staleAge, found)]);
      && GoodStep(c, s, a) && Next(c, s, a) == s'
      && Abandoned(s', d) && IsStale(s'.db, d, s.now - c.staleAge)
  {
    var s' := s.(sweeps := s.sweeps[m := Stale(s.now - c.staleAge, found)]);
    assert LiveOn(s', d) ==> LiveOn(s, d);
    hide StaleRows;
  }

  lemma RecoverStep(c: Config, s: State, m: nat, d: Id, cutoff: int, found: seq<(Id, nat)>, ticket: Id)
    requires d in s.db.deliveries && |found| > 0 && found[0] == (d, s.db.deliveries[d].attempts)
    requires m in s.sweeps && s.sweeps[m] == Stale(cutoff, found) && Fresh(s, ticket)
    requires Abandoned(s, d) && IsStale(s.db, d, cutoff)
    ensures var a := Maintain(m, RecoverOne(ticket));
      GoodStep(c, s, a) && Idle(Next(c, s, a), d)
  {
    var s' := DoRecoverOne(s, m, ticket);
    assert s'.workers == s.workers && s'.active == s.active;
    assert LiveOn(s', d) ==> LiveOn(s, d);
    assert s'.db.deliveries[d] == s.db.deliveries[d].(status := FAILED, nextAttemptAt := Some(s.now));
  }

  lemma StaleExists(c: Config, s: State, d: Id)
    requires StaleNow(c, s, d)
    ensures d in s.db.deliveries && IsStale(s.db, d, s.now - c.staleAge)
  {
  }

  lemma PlainSame(s: State, s': State)
    requires PlainIds(s) && s'.h.issued == s.h.issued
    ensures PlainIds(s')
  {
  }

  lemma PlainGrows(c: Config, s: State, m: nat, ticket: Id)
    requires PlainIds(s) && IsPlain(s, ticket) && m in s.sweeps && s.sweeps[m].Stale? && |s.sweeps[m].found| > 0
    ensures PlainIds(DoRecoverOne(s, m, ticket))
  {
    var s' := DoRecoverOne(s, m, ticket);
    assert forall t :: t in s'.h.issued ==> t in s.h.issued || t == ticket;
    hide DoRecoverOne, Decimal;
    forall t, u, n: nat | t in s'.h.issued && u in s'.h.issued ensures t != u + "-" + Decimal(n) {
      if t == ticket && u == ticket {
        assert |u + "-" + Decimal(n)| > |u|;
      }
    }
  }

  lemma RecoverIs(c: Config, s: State, m: nat, ticket: Id)
    requires m in s.sweeps && s.sweeps[m].Stale? && |s.sweeps[m].found| > 0 && Fresh(s, ticket)
    ensures Enabled(c, s, Maintain(m, RecoverOne(ticket)))
      && Next(c, s, Maintain(m, RecoverOne(ticket))) == DoRecoverOne(s, m, ticket)
  {
    hide DoRecoverOne;
  }

  lemma StaleArrives(c: Config, s: State, d: Id)
    requires c.Valid() && Safe(c, s, false) && StaleNow(c, s, d) && PlainIds(s)
    ensures CanSucceed(c, s, d)
  {
    hide *;
    StaleExists(c, s, d);
    var m := FreshSlot(s.sweeps);
    var cutoff := s.now - c.staleAge;
    var rest := StaleListing(s.db, cutoff, d);
    var found := [(d, s.db.deliveries[d].attempts)] + rest;
    var scan := Maintain(m, ScanStale(cutoff, found));
    var s1 := s.(sweeps := s.sweeps[m := Stale(cutoff, found)]);
    ScanStep(c, s, m, d, found);
    GoodKeepsSafe(c, s, scan);
    var ticket := FreshTicket(s1);
    var recover := Maintain(m, RecoverOne(ticket));
    RecoverStep(c, s1, m, d, cutoff, found, ticket);
    RecoverIs(c, s1, m, ticket);
    GoodKeepsSafe(c, s1, recover);
    PlainSame(s, s1);
    PlainGrows(c, s1, m, ticket);
    IdleArrives(c, Next(c, s1, recover), d);
    StepBack(c, s1, recover, d);
    StepBack(c, s, scan, d);
  }

  // ---------------------------------------------------------------- live workers

  lemma ClaimLost(s: State, w: nat)
    requires w in s.workers && !CanClaim(s.db, s.workers[w].job.delivery, s.workers[w].job.expected)
    ensures DoClaim(s, w) == s.(workers := s.workers[w := Leaving(s.workers[w].job)])
  {
  }

  /** The delivery is unfinished, nobody is on it, and its endpoint is active. */
  ghost predicate Left(s: State, d: Id) {
    d in s.db.deliveries && !s.db.deliveries[d].status.Terminal() && EndpointIsActive(s, d) && !LiveOn(s, d)
  }

  /** The only live worker of a delivery is gone. */
  lemma NobodyLeft(c: Config, s: State, s': State, w: nat, d: Id)
    requires Safe(c, s, false) && EndpointIsActive(s, d)
    requires w in s.workers && s.workers[w].Checked? && s.workers[w].job.delivery == d
    requires s'.db == s.db && s'.active == s.active
    requires forall v :: v in s'.workers && v != w ==> v in s.workers && s'.workers[v] == s.workers[v]
    requires w in s'.workers ==> !s'.workers[w].Live()
    ensures Left(s', d)
  {
    assert Orderly.KnowsRow(s, s.workers[w]);
    hide Attempts.Counted, NothingLost, Structured, Orderly.LiveRowsOk, Orderly.EventsOk;
  }

  /** A worker that has checked the row of an unfinished delivery and saw an active
      endpoint either wins its claim or leaves, and the delivery goes on without it. */
  lemma CheckedArrives(c: Config, s: State, w: nat, d: Id)
    requires c.Valid() && Safe(c, s, false) && EndpointIsActive(s, d) && PlainIds(s)
    requires w in s.workers && s.workers[w].Checked? && s.workers[w].active && s.workers[w].job.delivery == d
    ensures CanSucceed(c, s, d)
  {
    hide *;
    if CanClaim(s.db, d, s.workers[w].job.expected) {
      ClaimArrives(c, s, w);
    } else {
      var s' := s.(workers := s.workers[w := Leaving(s.workers[w].job)]);
      ClaimStep(c, s, w);
      ClaimLost(s, w);
      LeavingIsDead(s.workers[w].job);
      NobodyLeft(c, s, s', w, d);
      GoodKeepsSafe(c, s, Work(w, Claim));
      PlainSame(s, s');
      LeftArrives(c, s', d);
      StepBack(c, s, Work(w, Claim), d);
    }
  }

  lemma LeavingIsDead(job: Job)
    ensures !Leaving(job).Live()
  {
  }

  /** An unfinished delivery with nobody on it can succeed. */
  lemma LeftArrives(c: Config, s: State, d: Id)
    requires c.Valid() && Safe(c, s, false) && Left(s, d) && PlainIds(s)
    ensures CanSucceed(c, s, d)
  {
    hide Safe, CanSucceed, EndpointIsActive, LiveOn, PlainIds;
    if s.db.deliveries[d].status.Claimable() {
      IdleArrives(c, s, d);
    } else {
      SafeIsBacked(c, s, d, false);
      AbandonedArrives(c, s, d);
    }
  }

  // ---------------------------------------------------------------- workers about to cancel

  /** Worker `w` has read the endpoint of `d` as inactive: it can only cancel. */
  predicate Holds(s: State, w: nat, d: Id) {
    w in s.workers && s.workers[w].Checked? && !s.workers[w].active && s.workers[w].job.delivery == d
  }

  ghost predicate IsHeld(s: State, d: Id) {
    exists w :: Holds(s, w, d)
  }

  /** No good step writes a delivery that worker `w` holds, or takes it from `w`. */
  lemma HeldEffect(c: Config, s: State, a: Action, w: nat, d: Id)
    requires Orderly.Exclusive(s) && GoodStep(c, s, a) && Holds(s, w, d)
    ensures var e := EffectOf(c, s, a); !e.Prune? && !e.Accept? && (e.Writes() ==> e.d != d)
  {
    assert s.workers[w].Live() && LiveOn(s, d);
    hide Retry.Decide, Fresh, CanClaim, IsStale, Orderly.Exclusive;
    match a
    case Work(v, step) =>
      if v in s.workers && s.workers[v].Live() && s.workers[v].job.delivery == d {
        Alone(s, v, w);
      }
    case _ =>
  }

  lemma Alone(s: State, v: nat, w: nat)
    requires Orderly.Exclusive(s) && v in s.workers && w in s.workers && s.workers[v].Live() && s.workers[w].Live()
    requires s.workers[v].job.delivery == s.workers[w].job.delivery
    ensures v == w
  {
  }

  lemma HeldSlot(c: Config, s: State, a: Action, w: nat, d: Id)
    requires GoodStep(c, s, a) && Holds(s, w, d)
    ensures w in Next(c, s, a).workers && Next(c, s, a).workers[w] == s.workers[w]
  {
    hide OneWorker, NoStaleReject, KeepsJobs;
    match a
    case Work(v, step) => HelpfulSlot(c, s, v, step, w); hide WorkerNext, WorkerEnabled;
    case Publisher(p, step) => PublisherFrame(s, p, step); hide PublisherNext;
    case Maintain(m, step) => SweepFrame(c, s, m, step); hide SweepNext;
    case _ =>
  }

  lemma HelpfulSlot(c: Config, s: State, v: nat, step: WorkerStep, w: nat)
    requires WorkerEnabled(s, v, step) && (step.Take? || step.Claim? || step.Respond?)
    requires w in s.workers && s.workers[w].Checked? && !s.workers[w].active
    ensures var s' := WorkerNext(c, s, v, step); w in s'.workers && s'.workers[w] == s.workers[w]
  {
    hide Retry.Decide, MarkTerminal, MarkFailedAndSchedule, ClaimForProcessing, CanClaim, RecordOf, Settle;
    match step
    case Respond(reply, draw, ticket) =>
      var job, attempt := s.workers[v].job, s.workers[v].attempt;
      SettleFrame(s.(workers := s.workers[v := Leaving(job)]), job.delivery, attempt,
        Retry.Decide(c, attempt, reply, s.now, draw), ticket);
    case _ =>
  }

  lemma HeldStep(c: Config, s: State, a: Action, w: nat, d: Id)
    requires Orderly.InOrder(s) && GoodStep(c, s, a) && Holds(s, w, d) && d in s.db.deliveries
    ensures var s' := Next(c, s, a);
      Orderly.InOrder(s') && Holds(s', w, d) && d in s'.db.deliveries && s'.db.deliveries[d] == s.db.deliveries[d]
  {
    hide *;
    OrderParts(s);
    GoodParts(c, s, a);
    Orderly.OrderStep(c, s, a);
    RowsStep(c, s, a);
    HeldEffect(c, s, a, w, d);
    HeldSlot(c, s, a, w, d);
    StillHolds(s, Next(c, s, a), w, d);
    UnwrittenRow(s, Next(c, s, a), EffectOf(c, s, a), d);
  }

  lemma OrderParts(s: State)
    requires Orderly.InOrder(s)
    ensures Structured(s) && Orderly.Exclusive(s)
  {
  }

  lemma StillHolds(s: State, s': State, w: nat, d: Id)
    requires Holds(s, w, d) && w in s'.workers && s'.workers[w] == s.workers[w]
    ensures Holds(s', w, d)
  {
  }

  lemma UnwrittenRow(s: State, s': State, e: Effect, d: Id)
    requires Fits(s, s', e) && d in s.db.deliveries && !e.Prune? && !e.Accept? && (e.Writes() ==> e.d != d)
    ensures d in s'.db.deliveries && s'.db.deliveries[d] == s.db.deliveries[d]
  {
    StillThere(s, s', e, d);
    SameDelivery(s, s', e, d);
    hide Fits;
  }

  lemma {:induction false} HeldForGood(c: Config, states: seq<State>, actions: seq<Action>, w: nat, d: Id, i: nat)
    requires Schedule(c, states, actions) && i < |states|
    requires Orderly.InOrder(states[0]) && Holds(states[0], w, d) && d in states[0].db.deliveries
    ensures Orderly.InOrder(states[i]) && Holds(states[i], w, d)
    ensures d in states[i].db.deliveries && states[i].db.deliveries[d] == states[0].db.deliveries[d]
  {
    hide GoodStep, Next, Orderly.InOrder, Holds;
    if i > 0 {
      HeldForGood(c, states, actions, w, d, i - 1);
      HeldStep(c, states[i - 1], actions[i - 1], w, d);
    }
  }

  lemma HeldIsStuck(c: Config, s: State, d: Id)
    requires Orderly.InOrder(s) && IsHeld(s, d) && d in s.db.deliveries && !s.db.deliveries[d].status.Terminal()
    ensures !CanSucceed(c, s, d)
  {
    if CanSucceed(c, s, d) {
      var w :| Holds(s, w, d);
      var states, actions :| Schedule(c, states, actions) && states[0] == s && Delivered(states[|actions|], d);
      hide GoodStep, Next, Orderly.InOrder, Holds;
      HeldForGood(c, states, actions, w, d, |actions|);
    }
  }

  // ---------------------------------------------------------------- the theorem

  /** No dead ends: from every reachable state, an unfinished delivery to an active
      endpoint has a finite schedule that ends with it in SUCCESS if and only if no
      worker is about to cancel it, having read the endpoint as inactive. */
  lemma NoDeadEnds(c: Config, states: seq<State>, actions: seq<Action>, i: nat, d: Id)
    requires c.Valid() && LosslessRun(c, states, actions, false) && i < |states| && PlainIds(states[i])
    requires d in states[i].db.deliveries && !states[i].db.deliveries[d].status.Terminal()
    requires IsActive(states[i], states[i].db.deliveries[d].endpoint)
    ensures CanSucceed(c, states[i], d) <==> !IsHeld(states[i], d)
  {
    assert EndpointIsActive(states[i], d);
    hide Run, LosslessRun, OrderlyRun, CanSucceed, EndpointIsActive, PlainIds;
    RunSafe(c, states, actions, false, i);
    if IsHeld(states[i], d) {
      HeldIsStuck(c, states[i], d);
    } else {
      AnyArrives(c, states[i], d);
    }
  }

  lemma AnyArrives(c: Config, s: State, d: Id)
    requires c.Valid() && Safe(c, s, false) && EndpointIsActive(s, d) && PlainIds(s) && !IsHeld(s, d)
    requires d in s.db.deliveries && !s.db.deliveries[d].status.Terminal()
    ensures CanSucceed(c, s, d)
  {
    hide Safe, CanSucceed, EndpointIsActive, PlainIds;
    if w :| w in s.workers && s.workers[w].Live() && s.workers[w].job.delivery == d {
      if s.workers[w].Sending? {
        RespondArrives(c, s, w);
      } else {
        assert !Holds(s, w, d);
        CheckedArrives(c, s, w, d);
      }
    } else {
      assert Left(s, d);
      LeftArrives(c, s, d);
    }
  }
}
