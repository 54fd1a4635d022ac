/** When an attempt can be claimed before the time chosen for it, in whatever replay epoch
    of its delivery. */
module Backoff {
  import opened Domain
  import opened Transactions
  import opened JobIds
  import opened Protocol
  import opened Effects
  import opened Structure
  import opened Paths
  import opened Lossless
  import opened Rescue
  import opened Loops
  import opened Survival
  import Guarantees
  import Losses
  import Spent
  import Retry

  // ---------------------------------------------------------------- early claims

  /** A step that Y allows and that neither replays the delivery nor orders attempt `n` of
      it anew before `at`. */
  ghost predicate Leaves(c: Config, s: State, a: Action, d: Id, n: nat, at: int)
    requires Enabled(c, s, a)
  {
    NoStaleReject(s, a) && !Losses.Replays(s, a, d) && !Guarantees.OrdersAnew(c, s, a, d, n, at)
  }

  /** Such a step, taken before `at`, while outbox ids are like uuids. */
  ghost predicate IsQuietStep(c: Config, s: State, a: Action, d: Id, n: nat, at: int) {
    s.now < at && PlainIds(s) && Enabled(c, s, a) && Leaves(c, s, a, d, n, at)
  }

  ghost predicate IsQuiet(c: Config, states: seq<State>, actions: seq<Action>, d: Id, n: nat, at: int) {
    && Path(c, states, actions)
    && forall k :: 0 <= k < |actions| ==> IsQuietStep(c, states[k], actions[k], d, n, at)
  }

  ghost predicate IsEarlyClaim(c: Config, s: State, a: Action, d: Id, n: nat, at: int) {
    s.now < at && PlainIds(s) && Enabled(c, s, a) && Guarantees.Claims(c, s, a, d, n)
  }

  /** Some such path leads to a claim of attempt `n` before `at`. */
  ghost predicate CanComeEarly(c: Config, s: State, d: Id, n: nat, at: int) {
    exists states, actions, a :: |states| > 0 && IsQuiet(c, states, actions, d, n, at) && states[0] == s
      && IsEarlyClaim(c, Last(states), a, d, n, at)
  }

  // ---------------------------------------------------------------- live early orders

  predicate IsEarlyRow(s: State, d: Id, n: nat, at: int, t: Id) {
    IsOrderRow(s, d, n, t) && s.db.outbox[t].availableAt < at
  }

  ghost predicate EarlyRowOpen(s: State, d: Id, n: nat, at: int) {
    exists t :: IsEarlyRow(s, d, n, at, t) && IsOpen(s, t)
  }

  /** A publisher has still to add a copy for the attempt, and gets there. */
  ghost predicate CopyAhead(s: State, d: Id, n: nat) {
    exists p, i: nat :: HasToAdd(s, p, i, d, n) && RowsBefore(s, p, i)
  }

  /** A loop has listed an early row, and may get to it. */
  ghost predicate EarlyRowListed(s: State, d: Id, n: nat, at: int) {
    exists m, i: nat, t :: Lists(s, m, i, t) && IsEarlyRow(s, d, n, at, t) && !Barred(s, m, i)
  }

  /** A loop has listed an early row and gets there; its job, if it has one, may be lost
      until then. */
  ghost predicate EarlyRowAhead(s: State, d: Id, n: nat, at: int) {
    exists m, i: nat, t :: Lists(s, m, i, t) && IsEarlyRow(s, d, n, at, t) && ClearWay(s, m, i)
  }

  /** A loop has listed an early row behind an entry whose row was deleted, and which it
      would not skip now, but which somebody still holds a job of. */
  ghost predicate EarlyRowBehind(s: State, d: Id, n: nat, at: int) {
    exists m, i: nat, t ::
      Lists(s, m, i, t) && IsEarlyRow(s, d, n, at, t) && !ClearWay(s, m, i) && !Barred(s, m, i)
  }

  /** A live early order of attempt `n`: a waiting job, a checked worker that saw an active
      endpoint, a copy that a publisher gets to, an unpublished row that falls due before
      `at`, or a listed one that a loop gets to. */
  ghost predicate LiveEarly(s: State, d: Id, n: nat, at: int) {
    || Losses.InQueue(s, d, n) || InHand(s, d, n) || CopyAhead(s, d, n)
    || EarlyRowOpen(s, d, n, at) || EarlyRowAhead(s, d, n, at)
  }

  lemma ListedEitherWay(s: State, d: Id, n: nat, at: int)
    ensures EarlyRowListed(s, d, n, at) <==> EarlyRowAhead(s, d, n, at) || EarlyRowBehind(s, d, n, at)
  {
    hide Lists, IsEarlyRow, ClearWay, Barred;
    forall m, i: nat | ClearWay(s, m, i) ensures !Barred(s, m, i) {
      if Barred(s, m, i) {
        BarredIsNotClear(s, m, i);
      }
    }
  }

  // ---------------------------------------------------------------- calm deliveries

  /** Nothing orders attempt `n` before `at`, or it is too late for a claim of it. */
  ghost predicate IsCalm(s: State, d: Id, n: nat, at: int)
    requires d in s.db.deliveries
  {
    && !s.db.deliveries[d].status.PENDING? && !s.db.deliveries[d].status.PROCESSING?
    && s.db.deliveries[d].attempts + 1 == n
    && !Losses.InQueue(s, d, n) && !InHand(s, d, n) && !CopyAhead(s, d, n)
    && !EarlyRowOpen(s, d, n, at) && !EarlyRowListed(s, d, n, at)
  }

  /** A delivery that was removed does not come back. */
  ghost predicate Calm(s: State, d: Id, n: nat, at: int) {
    && d in s.h.records
    && (d in s.db.deliveries ==> s.db.deliveries[d].attempts >= n || IsCalm(s, d, n, at))
  }

  /** An effect that leaves a calm delivery without orders: it ends the delivery or
      schedules a late retry, and makes no early row unpublished. */
  ghost predicate IsMild(s: State, e: Effect, d: Id, n: nat, at: int) {
    && (e.Writes() && e.d == d ==>
          || (e.Terminate? && e.status.Terminal())
          || (e.Reschedule? && (e.attempt + 1 == n ==> e.at >= at)))
    && (e.Remark? && IsEarlyRow(s, d, n, at, e.t) && s.db.outbox[e.t].publishedAt.Some? ==>
          e.ticket.publishedAt.Some?)
  }

  lemma RowAfterMild(s: State, s': State, e: Effect, d: Id, n: nat, at: int)
    requires Fits(s, s', e) && IsMild(s, e, d, n, at) && d in s.h.records && d in s'.db.deliveries
    requires d in s.db.deliveries ==>
      !s.db.deliveries[d].status.PENDING? && !s.db.deliveries[d].status.PROCESSING?
    ensures d in s.db.deliveries && s'.db.deliveries[d].attempts == s.db.deliveries[d].attempts
    ensures !s'.db.deliveries[d].status.PENDING? && !s'.db.deliveries[d].status.PROCESSING?
  {
    if e.Writes() && e.d == d {
      assert s'.db.deliveries[d] == RowAfter(s.db.deliveries[d], e, s.now);
    } else {
      assert !(e.Accept? && d in e.fan);
      SameDelivery(s, s', e, d);
    }
  }

  /** A row that was there has the same order; a new one is late. */
  lemma EarlyRowBefore(s: State, s': State, e: Effect, d: Id, n: nat, at: int, t: Id)
    requires Fits(s, s', e) && IsMild(s, e, d, n, at) && d in s.h.records && IsEarlyRow(s', d, n, at, t)
    ensures IsEarlyRow(s, d, n, at, t)
    ensures IsOpen(s', t) ==> IsOpen(s, t)
  {
    hide RecordAfter, RowAfter, EventsAfter;
  }

  lemma EarlyRowsBefore(s: State, s': State, e: Effect, d: Id, n: nat, at: int)
    requires Fits(s, s', e) && IsMild(s, e, d, n, at) && d in s.h.records
    ensures EarlyRowOpen(s', d, n, at) ==> EarlyRowOpen(s, d, n, at)
    ensures forall t :: IsEarlyRow(s', d, n, at, t) ==> IsEarlyRow(s, d, n, at, t)
  {
    hide Fits, IsMild, IsEarlyRow, IsOpen;
    forall t | IsEarlyRow(s', d, n, at, t)
      ensures IsEarlyRow(s, d, n, at, t) && (IsOpen(s', t) ==> IsOpen(s, t))
    {
      EarlyRowBefore(s, s', e, d, n, at, t);
    }
  }

  /** Orders in hand come from each other: jobs from copies, what workers hold from jobs,
      and copies from unpublished rows. */
  ghost predicate NoneNew(s: State, s': State, d: Id, n: nat, at: int) {
    && (Losses.InQueue(s', d, n) ==> Losses.InQueue(s, d, n) || CopyAhead(s, d, n))
    && (InHand(s', d, n) ==> InHand(s, d, n) || Losses.InQueue(s, d, n))
    && (CopyAhead(s', d, n) ==> CopyAhead(s, d, n) || EarlyRowOpen(s, d, n, at))
  }

  /** And the lists of loops from the rows of PENDING deliveries. */
  ghost predicate NoneListed(s: State, s': State, d: Id, n: nat, at: int) {
    forall m, i: nat, t :: Lists(s', m, i, t) && IsEarlyRow(s, d, n, at, t) && !Barred(s', m, i) ==>
      EarlyRowListed(s, d, n, at)
  }

  lemma CalmAfter(s: State, s': State, e: Effect, d: Id, n: nat, at: int)
    requires Fits(s, s', e) && IsMild(s, e, d, n, at) && d in s.h.records
    requires NoneNew(s, s', d, n, at) && NoneListed(s, s', d, n, at)
    requires d in s.db.deliveries && IsCalm(s, d, n, at) && d in s'.db.deliveries
    ensures IsCalm(s', d, n, at)
  {
    hide *;
    CalmParts(s, d, n, at);
    RowAfterMild(s, s', e, d, n, at);
    EarlyRowsBefore(s, s', e, d, n, at);
    StillCalm(s, s', d, n, at);
  }

  lemma CalmParts(s: State, d: Id, n: nat, at: int)
    requires d in s.db.deliveries && IsCalm(s, d, n, at)
    ensures !s.db.deliveries[d].status.PENDING? && !s.db.deliveries[d].status.PROCESSING?
    ensures s.db.deliveries[d].attempts + 1 == n && !InHand(s, d, n) && !EarlyRowListed(s, d, n, at)
  {
  }

  lemma StillCalm(s: State, s': State, d: Id, n: nat, at: int)
    requires d in s.db.deliveries && IsCalm(s, d, n, at) && d in s'.db.deliveries
    requires NoneNew(s, s', d, n, at) && NoneListed(s, s', d, n, at)
    requires !s'.db.deliveries[d].status.PENDING? && !s'.db.deliveries[d].status.PROCESSING?
      && s'.db.deliveries[d].attempts == s.db.deliveries[d].attempts
    requires EarlyRowOpen(s', d, n, at) ==> EarlyRowOpen(s, d, n, at)
    requires forall t :: IsEarlyRow(s', d, n, at, t) ==> IsEarlyRow(s, d, n, at, t)
    ensures IsCalm(s', d, n, at)
  {
    hide Losses.InQueue, InHand, CopyAhead, EarlyRowOpen, Lists, IsEarlyRow, Barred;
  }

  // ---------------------------------------------------------------- mild effects

  lemma WorkerMild(c: Config, s: State, w: nat, step: WorkerStep, d: Id, n: nat, at: int)
    requires Enabled(c, s, Work(w, step)) && Leaves(c, s, Work(w, step), d, n, at)
    requires d in s.db.deliveries && IsCalm(s, d, n, at)
    ensures IsMild(s, EffectOf(c, s, Work(w, step)), d, n, at)
  {
    CalmParts(s, d, n, at);
    assert !IsInHand(s, w, d, n);
    hide IsCalm, InHand, EarlyRowListed, Retry.Decide, IsEarlyRow;
  }

  lemma OtherMild(c: Config, s: State, a: Action, d: Id, n: nat, at: int)
    requires Enabled(c, s, a) && !a.Work? && !Losses.Replays(s, a, d)
    requires d in s.db.deliveries && IsCalm(s, d, n, at)
    ensures IsMild(s, EffectOf(c, s, a), d, n, at)
  {
    CalmParts(s, d, n, at);
    if a.Maintain? && a.sweeping.ReopenOne? {
      assert Lists(s, a.m, 0, s.sweeps[a.m].published[0].0);
      assert !IsEarlyRow(s, d, n, at, s.sweeps[a.m].published[0].0);
    }
    hide IsCalm, InHand, EarlyRowListed, CanIngest, IsEarlyRow, OldestDue, StaleRows, StrandedRows;
  }

  // ---------------------------------------------------------------- every process

  /** Rows that come into being have new ids, so copies do not become reachable. */
  lemma CopiesStay(s: State, s': State, d: Id, n: nat)
    requires PublishersOk(s) && Grows(s, s') && s'.publishers == s.publishers
    ensures CopyAhead(s', d, n) ==> CopyAhead(s, d, n)
  {
    if p, i: nat :| HasToAdd(s', p, i, d, n) && RowsBefore(s', p, i) {
      var rows := s.publishers[p].rows;
      assert BatchOk(s, s.publishers[p]);
      forall j | 0 <= j < i ensures rows[j].outbox in s.db.outbox {
        assert CopyOk(s, rows[j]);
      }
      assert HasToAdd(s, p, i, d, n) && RowsBefore(s, p, i);
    }
  }

  lemma WorkerNew(c: Config, s: State, w: nat, step: WorkerStep, d: Id, n: nat, at: int)
    requires Structured(s) && WorkerEnabled(s, w, step) && Grows(s, WorkerNext(c, s, w, step))
    ensures NoneNew(s, WorkerNext(c, s, w, step), d, n, at)
  {
    var s' := WorkerNext(c, s, w, step);
    hide *;
    WorkerFrame(c, s, w, step);
    WorkerJob(c, s, w, step);
    Losses.WaitingKept(s, s', d, n);
    HandsFrom(c, s, w, step, d, n);
    StructuredPublishers(s);
    CopiesStay(s, s', d, n);
    NewIs(s, s', d, n, at);
  }

  lemma StructuredPublishers(s: State)
    requires Structured(s)
    ensures PublishersOk(s)
  {
    hide RowsOk, QueueOk, WorkersOk, PublishersOk, AddedOk;
  }

  lemma NewIs(s: State, s': State, d: Id, n: nat, at: int)
    requires Losses.InQueue(s', d, n) ==> Losses.InQueue(s, d, n) || CopyAhead(s, d, n)
    requires InHand(s', d, n) ==> InHand(s, d, n) || Losses.InQueue(s, d, n)
    requires CopyAhead(s', d, n) ==> CopyAhead(s, d, n) || EarlyRowOpen(s, d, n, at)
    ensures NoneNew(s, s', d, n, at)
  {
  }

  lemma HandsFrom(c: Config, s: State, w: nat, step: WorkerStep, d: Id, n: nat)
    requires WorkerEnabled(s, w, step)
    ensures InHand(WorkerNext(c, s, w, step), d, n) ==> InHand(s, d, n) || Losses.InQueue(s, d, n)
  {
    var s' := WorkerNext(c, s, w, step);
    Losses.CheckedFrom(c, s, w, step);
    hide WorkerNext, WorkerEnabled;
    if v :| IsInHand(s', v, d, n) {
      if v in s.workers && s'.workers[v] == s.workers[v] {
        assert IsInHand(s, v, d, n);
      } else {
        assert IsJobFor(s, step.jobId, d, n);
      }
    }
  }

  lemma PublisherNew(s: State, p: nat, step: PublisherStep, d: Id, n: nat, at: int)
    requires PublisherEnabled(s, p, step) && s.now < at
    ensures NoneNew(s, PublisherNext(s, p, step), d, n, at)
  {
    var s' := PublisherNext(s, p, step);
    hide *;
    PublisherFrame(s, p, step);
    JobsFrom(s, p, step, d, n);
    SameHands(s, s', d, n);
    CopiesFrom(s, p, step, d, n, at);
    NewIs(s, s', d, n, at);
  }

  lemma JobsFrom(s: State, p: nat, step: PublisherStep, d: Id, n: nat)
    requires PublisherEnabled(s, p, step)
    ensures Losses.InQueue(PublisherNext(s, p, step), d, n) ==> Losses.InQueue(s, d, n) || CopyAhead(s, d, n)
  {
    var s' := PublisherNext(s, p, step);
    PublisherFrame(s, p, step);
    hide OldestDue, JobId;
    if k :| IsJobFor(s', k, d, n) {
      if k in s.queue {
        assert IsJobFor(s, k, d, n);
      } else {
        assert HasToAdd(s, p, 0, d, n) && RowsBefore(s, p, 0);
      }
    }
  }

  lemma CopiesFrom(s: State, p: nat, step: PublisherStep, d: Id, n: nat, at: int)
    requires PublisherEnabled(s, p, step) && s.now < at
    ensures CopyAhead(PublisherNext(s, p, step), d, n) ==> CopyAhead(s, d, n) || EarlyRowOpen(s, d, n, at)
  {
    var s' := PublisherNext(s, p, step);
    RowsStayThere(s, p, step);
    if step.Fetch? {
      FetchedEarly(s, step.ids, d, n, at);
    }
    BatchFrom(s, p, step);
    hide PublisherNext, PublisherEnabled, OldestDue, Copies, EarlyRowOpen;
    if q, i: nat :| HasToAdd(s', q, i, d, n) && RowsBefore(s', q, i) {
      if q != p || step.AddJob? {
        assert HasToAdd(s, q, i, d, n) && RowsBefore(s, q, i);
      } else if step.MarkRow? {
        CopyBefore(s, s', p, i, d, n);
      }
    }
  }

  lemma CopyBefore(s: State, s': State, p: nat, i: nat, d: Id, n: nat)
    requires p in s.publishers && p in s'.publishers && |s.publishers[p].rows| > 0
    requires s'.publishers[p] == Batch(s.publishers[p].rows[1..], false) && s'.db.outbox.Keys == s.db.outbox.Keys
    requires s.publishers[p].rows[0].outbox in s.db.outbox
    requires HasToAdd(s', p, i, d, n) && RowsBefore(s', p, i)
    ensures CopyAhead(s, d, n)
  {
    var rows, rows' := s.publishers[p].rows, s'.publishers[p].rows;
    assert rows'[i] == rows[i + 1];
    assert forall j :: 0 < j < i + 1 ==> rows[j] == rows'[j - 1];
    assert HasToAdd(s, p, i + 1, d, n) && RowsBefore(s, p, i + 1);
  }

  lemma FetchedEarly(s: State, ids: seq<Id>, d: Id, n: nat, at: int)
    requires s.now < at && OldestDue(s.db.outbox, s.now, ids)
    ensures forall i :: 0 <= i < |ids| && IsFor(Copies(s.db.outbox, ids)[i], d, n) ==> EarlyRowOpen(s, d, n, at)
  {
    forall i | 0 <= i < |ids| && IsFor(Copies(s.db.outbox, ids)[i], d, n) ensures EarlyRowOpen(s, d, n, at) {
      assert IsEarlyRow(s, d, n, at, ids[i]) && IsOpen(s, ids[i]);
    }
  }

  /** Where the batches of the new state come from. */
  lemma BatchFrom(s: State, p: nat, step: PublisherStep)
    requires PublisherEnabled(s, p, step)
    ensures var s' := PublisherNext(s, p, step);
      && (forall q :: q in s'.publishers && q != p ==> q in s.publishers && s'.publishers[q] == s.publishers[q])
      && (p in s'.publishers ==>
            || (step.Fetch? && s'.publishers[p] == Batch(Copies(s.db.outbox, step.ids), false))
            || (step.AddJob? && p in s.publishers && s'.publishers[p] == s.publishers[p].(added := true))
            || (step.MarkRow? && p in s.publishers && |s.publishers[p].rows| > 1
                && s.publishers[p].rows[0].outbox in s.db.outbox
                && s'.publishers[p] == Batch(s.publishers[p].rows[1..], false)))
  {
    if step.AddJob? {
      hide JobId;
    } else {
      BatchesAfter(s, p, step);
      if step.MarkRow? {
        BatchAfter(s, p, step);
      }
      hide PublisherNext;
    }
  }

  lemma SweepNew(c: Config, s: State, m: nat, step: SweepStep, d: Id, n: nat, at: int)
    requires Structured(s) && SweepEnabled(c, s, m, step) && Grows(s, SweepNext(c, s, m, step))
    ensures NoneNew(s, SweepNext(c, s, m, step), d, n, at)
  {
    var s' := SweepNext(c, s, m, step);
    hide *;
    SweepFrame(c, s, m, step);
    SameQueue(s, s');
    Losses.WaitingKept(s, s', d, n);
    SameHands(s, s', d, n);
    StructuredPublishers(s);
    CopiesStay(s, s', d, n);
    NewIs(s, s', d, n, at);
  }

  /** A loop lists no further row of a delivery that is not PENDING. */
  lemma StepLists(c: Config, s: State, a: Action, d: Id, n: nat, at: int)
    requires Structured(s) && Enabled(c, s, a) && PlainIds(Next(c, s, a))
    requires d in s.db.deliveries && !s.db.deliveries[d].status.PENDING?
    ensures NoneListed(s, Next(c, s, a), d, n, at)
  {
    var s' := Next(c, s, a);
    hide Enabled, Next, Structured, PlainIds, Lists, Barred, SweepNext, SweepEnabled;
    forall m, i: nat, t | Lists(s', m, i, t) && IsEarlyRow(s, d, n, at, t) && !Barred(s', m, i)
      ensures EarlyRowListed(s, d, n, at)
    {
      if a.Maintain? && a.m == m && a.sweeping.ScanStranded? {
        ScanLists(c, s, a, i, t, d, n);
      } else {
        var j := ListAfter(c, s, a, m, i, t);
      }
    }
  }

  lemma ScanLists(c: Config, s: State, a: Action, i: nat, t: Id, d: Id, n: nat)
    requires Enabled(c, s, a) && a.Maintain? && a.sweeping.ScanStranded? && Lists(Next(c, s, a), a.m, i, t)
    requires d in s.db.deliveries && !s.db.deliveries[d].status.PENDING?
    ensures !IsOrderRow(s, d, n, t)
  {
    Spent.PendingRows(s, a.sweeping.published, d, n);
  }

  lemma OtherNew(c: Config, s: State, a: Action, d: Id, n: nat, at: int)
    requires Structured(s) && Enabled(c, s, a) && !a.Work? && !a.Publisher? && !a.Maintain? && Grows(s, Next(c, s, a))
    ensures NoneNew(s, Next(c, s, a), d, n, at)
  {
    var s' := Next(c, s, a);
    hide *;
    Spent.OtherFrameOf(c, s, a);
    Losses.WaitingKept(s, s', d, n);
    SameHands(s, s', d, n);
    StructuredPublishers(s);
    CopiesStay(s, s', d, n);
    NewIs(s, s', d, n, at);
  }

  lemma StepNew(c: Config, s: State, a: Action, d: Id, n: nat, at: int)
    requires Structured(s) && Enabled(c, s, a) && s.now < at
    ensures NoneNew(s, Next(c, s, a), d, n, at)
  {
    hide *;
    RowsStep(c, s, a);
    StepIs(c, s, a);
    match a
    case Publisher(p, step) => PublisherNew(s, p, step, d, n, at);
    case Work(w, step) => WorkerNew(c, s, w, step, d, n, at);
    case Maintain(m, step) => SweepNew(c, s, m, step, d, n, at);
    case _ => OtherNew(c, s, a, d, n, at);
  }

  // ---------------------------------------------------------------- the calm lasts

  /** Without a replay, attempts do not decrease. */
  lemma AttemptsGrow(c: Config, s: State, a: Action, d: Id)
    requires Structured(s) && Enabled(c, s, a) && !Losses.Replays(s, a, d) && d in s.h.records
    requires d in Next(c, s, a).db.deliveries
    ensures d in s.db.deliveries && s.db.deliveries[d].attempts <= Next(c, s, a).db.deliveries[d].attempts
  {
    var s', e := Next(c, s, a), EffectOf(c, s, a);
    NotRestarted(c, s, a, d);
    hide *;
    RowsStep(c, s, a);
    AttemptsAfter(s, s', e, d);
  }

  lemma NotRestarted(c: Config, s: State, a: Action, d: Id)
    requires Enabled(c, s, a) && !Losses.Replays(s, a, d)
    ensures var e := EffectOf(c, s, a);
      !(e.Restart? && e.d == d)
  {
    hide Retry.Decide, CanIngest, OldestDue, StaleRows, StrandedRows;
  }

  lemma AttemptsAfter(s: State, s': State, e: Effect, d: Id)
    requires Fits(s, s', e) && !(e.Restart? && e.d == d) && d in s.h.records && d in s'.db.deliveries
    ensures d in s.db.deliveries && s.db.deliveries[d].attempts <= s'.db.deliveries[d].attempts
  {
    if e.Writes() && e.d == d {
      assert s'.db.deliveries[d] == RowAfter(s.db.deliveries[d], e, s.now);
    } else {
      assert !(e.Accept? && d in e.fan);
      SameDelivery(s, s', e, d);
    }
  }

  lemma CalmStep(c: Config, s: State, a: Action, d: Id, n: nat, at: int)
    requires Structured(s) && Enabled(c, s, a) && PlainIds(Next(c, s, a))
    requires s.now < at && Leaves(c, s, a, d, n, at) && Calm(s, d, n, at)
    ensures Structured(Next(c, s, a)) && Calm(Next(c, s, a), d, n, at)
  {
    var s' := Next(c, s, a);
    assert !Losses.Replays(s, a, d);
    hide *;
    StructureStep(c, s, a);
    RowsStep(c, s, a);
    CalmIs(s, d, n, at);
    CalmIs(s', d, n, at);
    StillKnown(s, s', d);
    if d in s'.db.deliveries {
      AttemptsGrow(c, s, a, d);
      if s.db.deliveries[d].attempts < n {
        if a.Work? {
          WorkerMild(c, s, a.w, a.working, d, n, at);
        } else {
          OtherMild(c, s, a, d, n, at);
        }
        CalmParts(s, d, n, at);
        StepNew(c, s, a, d, n, at);
        StepLists(c, s, a, d, n, at);
        CalmAfter(s, s', EffectOf(c, s, a), d, n, at);
      }
    }
  }

  lemma CalmIs(s: State, d: Id, n: nat, at: int)
    ensures Calm(s, d, n, at) <==>
      d in s.h.records && (d in s.db.deliveries ==> s.db.deliveries[d].attempts >= n || IsCalm(s, d, n, at))
  {
  }

  lemma StillKnown(s: State, s': State, d: Id)
    requires Grows(s, s')
    ensures d in s.h.records ==> d in s'.h.records
  {
  }

  /** No step claims the attempt of a calm delivery. */
  lemma CalmIsUnclaimed(c: Config, s: State, a: Action, d: Id, n: nat, at: int)
    requires Enabled(c, s, a) && Calm(s, d, n, at)
    ensures !Guarantees.Claims(c, s, a, d, n)
  {
    hide IsCalm, Retry.Decide, CanIngest, OldestDue, StaleRows, StrandedRows;
    if Guarantees.Claims(c, s, a, d, n) {
      assert IsInHand(s, a.w, d, n);
      CalmParts(s, d, n, at);
    }
  }

  lemma {:induction false} PathCalm(c: Config, states: seq<State>, actions: seq<Action>, d: Id, n: nat, at: int,
      i: nat)
    requires |states| > 0 && IsQuiet(c, states, actions, d, n, at) && PlainIds(Last(states)) && i < |states|
    requires Structured(states[0]) && Calm(states[0], d, n, at)
    ensures Structured(states[i]) && Calm(states[i], d, n, at)
  {
    hide Enabled, Next, Calm, Leaves, Structured, PlainIds;
    if i > 0 {
      PathCalm(c, states, actions, d, n, at, i - 1);
      assert IsQuietStep(c, states[i - 1], actions[i - 1], d, n, at);
      assert i < |actions| ==> IsQuietStep(c, states[i], actions[i], d, n, at);
      CalmStep(c, states[i - 1], actions[i - 1], d, n, at);
    }
  }

  lemma CalmStays(c: Config, s: State, d: Id, n: nat, at: int)
    requires Structured(s) && Calm(s, d, n, at)
    ensures !CanComeEarly(c, s, d, n, at)
  {
    hide Enabled, Next, Calm, Structured, IsQuiet, Guarantees.Claims, PlainIds;
    forall states, actions, a | |states| > 0 && IsQuiet(c, states, actions, d, n, at) && states[0] == s
      ensures !IsEarlyClaim(c, Last(states), a, d, n, at)
    {
      if IsEarlyClaim(c, Last(states), a, d, n, at) {
        PathCalm(c, states, actions, d, n, at, |states| - 1);
        CalmIsUnclaimed(c, Last(states), a, d, n, at);
      }
    }
  }

  // ---------------------------------------------------------------- simple steps

  /** A step that writes no delivery and creates no row. */
  predicate IsSimple(a: Action) {
    match a
    case Tick(_) => true
    case SetEndpoint(_, _) => true
    case Publisher(p, _) => Publishes(a, p)
    case Work(_, step) => step.Take?
    case Maintain(m, _) => Reopens(a, m)
    case Queue(_, _) => true
    case _ => false
  }

  /** Attempt `n` is the next one of a FAILED delivery. */
  ghost predicate IsNext(s: State, d: Id, n: nat) {
    && Structured(s) && PlainIds(s)
    && d in s.db.deliveries && s.db.deliveries[d].status == FAILED && s.db.deliveries[d].attempts + 1 == n
  }

  lemma SimpleEffect(c: Config, s: State, a: Action)
    requires Enabled(c, s, a) && IsSimple(a)
    ensures EffectOf(c, s, a).Nothing? || EffectOf(c, s, a).Remark?
  {
    hide Enabled, OldestDue, StaleRows, StrandedRows;
  }

  lemma SimpleLeaves(c: Config, s: State, a: Action, d: Id, n: nat, at: int)
    requires Enabled(c, s, a) && IsSimple(a)
    ensures Leaves(c, s, a, d, n, at)
  {
    SimpleEffect(c, s, a);
    hide Enabled, EffectOf;
  }

  lemma SimpleNext(c: Config, s: State, a: Action, d: Id, n: nat)
    requires Enabled(c, s, a) && IsSimple(a) && IsNext(s, d, n)
    ensures IsNext(Next(c, s, a), d, n) && s.now <= Next(c, s, a).now
  {
    hide Enabled, Next, EffectOf, Structured, IsSimple, PlainIds;
    StructureStep(c, s, a);
    RowsStep(c, s, a);
    SimpleEffect(c, s, a);
    RemarkKeeps(s, Next(c, s, a), EffectOf(c, s, a));
    SamePlainIds(s, Next(c, s, a));
  }

  /** What can come early after a simple step can come early before it. */
  lemma Before(c: Config, s: State, a: Action, d: Id, n: nat, at: int)
    requires Enabled(c, s, a) && IsSimple(a) && IsNext(s, d, n) && CanComeEarly(c, Next(c, s, a), d, n, at)
    ensures CanComeEarly(c, s, d, n, at)
  {
    hide Enabled, Next, IsNext, IsSimple, IsQuiet, IsEarlyClaim, IsQuietStep;
    EarlyStart(c, Next(c, s, a), d, n, at);
    SimpleIsQuiet(c, s, a, d, n, at);
    var states, actions, claim :| |states| > 0 && IsQuiet(c, states, actions, d, n, at) && states[0] == Next(c, s, a)
      && IsEarlyClaim(c, Last(states), claim, d, n, at);
    QuietLonger(c, s, a, states, actions, d, n, at);
  }

  lemma SimpleIsQuiet(c: Config, s: State, a: Action, d: Id, n: nat, at: int)
    requires Enabled(c, s, a) && IsSimple(a) && IsNext(s, d, n) && Next(c, s, a).now < at
    ensures IsQuietStep(c, s, a, d, n, at)
  {
    hide Enabled, Next, IsSimple, Leaves, Structured, PlainIds;
    SimpleNext(c, s, a, d, n);
    SimpleLeaves(c, s, a, d, n, at);
  }

  lemma QuietLonger(c: Config, s: State, a: Action, states: seq<State>, actions: seq<Action>, d: Id, n: nat, at: int)
    requires |states| > 0 && IsQuiet(c, states, actions, d, n, at) && IsQuietStep(c, s, a, d, n, at)
    requires Enabled(c, s, a) && states[0] == Next(c, s, a)
    ensures IsQuiet(c, [s] + states, [a] + actions, d, n, at)
    ensures Last([s] + states) == Last(states) && ([s] + states)[0] == s
  {
    hide Enabled, Next, IsQuietStep, Path;
    Prepend(c, s, a, states, actions);
    LengthOf(c, states, actions);
    var states', actions' := [s] + states, [a] + actions;
    forall k | 0 <= k < |actions'| ensures IsQuietStep(c, states'[k], actions'[k], d, n, at) {
      if k > 0 {
        assert states'[k] == states[k - 1] && actions'[k] == actions[k - 1];
      }
    }
  }

  /** The clock of a path to an early claim starts before `at`. */
  lemma EarlyStart(c: Config, s: State, d: Id, n: nat, at: int)
    requires CanComeEarly(c, s, d, n, at)
    ensures s.now < at
  {
    hide Path, Enabled, Guarantees.Claims, Leaves, PlainIds;
    var states, actions, a :| |states| > 0 && IsQuiet(c, states, actions, d, n, at) && states[0] == s
      && IsEarlyClaim(c, Last(states), a, d, n, at);
    LengthOf(c, states, actions);
    assert |actions| > 0 ==> IsQuietStep(c, states[0], actions[0], d, n, at);
  }

  lemma LengthOf(c: Config, states: seq<State>, actions: seq<Action>)
    requires Path(c, states, actions)
    ensures |states| == |actions| + 1
  {
  }

  lemma {:induction false} BeforePath(c: Config, states: seq<State>, actions: seq<Action>, d: Id, n: nat, at: int)
    requires |states| > 0 && Path(c, states, actions) && IsNext(states[0], d, n)
    requires forall k :: 0 <= k < |actions| ==> IsSimple(actions[k])
    requires CanComeEarly(c, Last(states), d, n, at)
    ensures CanComeEarly(c, states[0], d, n, at)
    decreases |actions|
  {
    hide Enabled, Next, CanComeEarly, IsNext, IsSimple;
    if |actions| > 0 {
      SimpleNext(c, states[0], actions[0], d, n);
      assert Path(c, states[1..], actions[1..]) && Last(states[1..]) == Last(states);
      BeforePath(c, states[1..], actions[1..], d, n, at);
      Before(c, states[0], actions[0], d, n, at);
    }
  }

  lemma PublishersAreSimple(actions: seq<Action>, p: nat)
    requires AllPublish(actions, p)
    ensures forall k :: 0 <= k < |actions| ==> IsSimple(actions[k])
  {
  }

  lemma LoopsAreSimple(actions: seq<Action>, m: nat)
    requires AllReopen(actions, m)
    ensures forall k :: 0 <= k < |actions| ==> IsSimple(actions[k])
  {
  }

  // ---------------------------------------------------------------- every live order comes early

  lemma HandComesEarly(c: Config, s: State, w: nat, d: Id, n: nat, at: int)
    requires IsNext(s, d, n) && s.now < at && IsInHand(s, w, d, n)
    ensures CanComeEarly(c, s, d, n, at)
  {
    var claim := Work(w, Claim);
    assert WorkerEnabled(s, w, Claim) && Guarantees.Claims(c, s, claim, d, n);
    StartPath(c, s);
    hide Enabled, Next, Structured, Guarantees.Claims, Leaves;
    assert IsQuiet(c, [s], [], d, n, at) && IsEarlyClaim(c, s, claim, d, n, at);
  }

  /** A job that waits is taken, with its endpoint switched on, by a worker at rest. */
  lemma JobComesEarly(c: Config, s: State, k: string, d: Id, n: nat, at: int)
    requires IsNext(s, d, n) && s.now < at && IsJobFor(s, k, d, n)
    ensures CanComeEarly(c, s, d, n, at)
  {
    var w := FreshSlot(s.workers);
    var on := SetEndpoint(s.db.deliveries[d].endpoint, true);
    var s1 := Next(c, s, on);
    assert Enabled(c, s, on) && IsSimple(on) && s1 == s.(active := s1.active)
      && IsActive(s1, s.db.deliveries[d].endpoint);
    hide Enabled, Next, IsSimple, Structured, PlainIds, CanComeEarly;
    SimpleNext(c, s, on, d, n);
    TakenComesEarly(c, s1, w, k, d, n, at);
    Before(c, s, on, d, n, at);
  }

  lemma TakenComesEarly(c: Config, s: State, w: nat, k: string, d: Id, n: nat, at: int)
    requires IsNext(s, d, n) && s.now < at && IsJobFor(s, k, d, n) && w !in s.workers
    requires IsActive(s, s.db.deliveries[d].endpoint)
    ensures CanComeEarly(c, s, d, n, at)
  {
    var s' := WorkerNext(c, s, w, Take(k));
    assert WorkerEnabled(s, w, Take(k)) && IsInHand(s', w, d, n) && s'.now == s.now;
    assert IsSimple(Work(w, Take(k)));
    hide *;
    WorkIs(c, s, w, Take(k));
    SimpleNext(c, s, Work(w, Take(k)), d, n);
    HandComesEarly(c, s', w, d, n, at);
    Before(c, s, Work(w, Take(k)), d, n, at);
  }

  /** The queue forgets job `k`, if it has it. */
  function Without(s: State, k: string): State {
    if k in s.queue then s.(queue := s.queue - {k}) else s
  }

  lemma DropIs(c: Config, s: State, k: string)
    requires k in s.queue
    ensures Enabled(c, s, Queue(k, DropJob)) && Next(c, s, Queue(k, DropJob)) == Without(s, k)
    ensures IsSimple(Queue(k, DropJob))
  {
  }

  lemma WithoutIsNext(c: Config, s: State, k: string, d: Id, n: nat)
    requires IsNext(s, d, n)
    ensures IsNext(Without(s, k), d, n) && k !in Without(s, k).queue
    ensures forall j :: j in Without(s, k).queue ==> j in s.queue && Without(s, k).queue[j] == s.queue[j]
    ensures Without(s, k) == s.(queue := Without(s, k).queue)
  {
    if k in s.queue {
      hide IsNext, Enabled, Next, IsSimple;
      DropIs(c, s, k);
      SimpleNext(c, s, Queue(k, DropJob), d, n);
    }
  }

  lemma WithoutComesEarly(c: Config, s: State, k: string, d: Id, n: nat, at: int)
    requires IsNext(s, d, n) && CanComeEarly(c, Without(s, k), d, n, at)
    ensures CanComeEarly(c, s, d, n, at)
  {
    if k in s.queue {
      hide IsNext, CanComeEarly, Enabled, Next, IsSimple;
      DropIs(c, s, k);
      Before(c, s, Queue(k, DropJob), d, n, at);
    }
  }

  /** The publisher adds the copy, after the queue has forgotten any job under its id. */
  lemma HeadCopyComesEarly(c: Config, s: State, p: nat, d: Id, n: nat, at: int)
    requires IsNext(s, d, n) && s.now < at && HasToAdd(s, p, 0, d, n)
    ensures CanComeEarly(c, s, d, n, at)
  {
    var k := KeyOf(s.publishers[p].rows[0]);
    WithoutIsNext(c, s, k, d, n);
    hide IsNext, KeyOf, Without, CanComeEarly;
    FreeCopyComesEarly(c, Without(s, k), p, d, n, at);
    WithoutComesEarly(c, s, k, d, n, at);
  }

  lemma FreeCopyComesEarly(c: Config, s: State, p: nat, d: Id, n: nat, at: int)
    requires IsNext(s, d, n) && s.now < at && HasToAdd(s, p, 0, d, n)
      && KeyOf(s.publishers[p].rows[0]) !in s.queue
    ensures CanComeEarly(c, s, d, n, at)
  {
    var s', k := PublisherNext(s, p, AddJob), KeyOf(s.publishers[p].rows[0]);
    AddNext(s, p);
    assert IsJobFor(s', k, d, n);
    hide *;
    PublisherIs(c, s, p, AddJob);
    AddOrMark(p, AddJob);
    SimpleNext(c, s, Publisher(p, AddJob), d, n);
    SameTime(s, p);
    JobComesEarly(c, s', k, d, n, at);
    Before(c, s, Publisher(p, AddJob), d, n, at);
  }

  lemma SameTime(s: State, p: nat)
    requires PublisherEnabled(s, p, AddJob)
    ensures PublisherNext(s, p, AddJob).now == s.now
  {
    hide KeyOf;
  }

  /** A publisher gets to its copy. */
  lemma {:induction false} CopyComesEarly(c: Config, s: State, p: nat, i: nat, d: Id, n: nat, at: int)
    requires IsNext(s, d, n) && s.now < at && HasToAdd(s, p, i, d, n) && RowsBefore(s, p, i)
    ensures CanComeEarly(c, s, d, n, at)
    decreases i, if s.publishers[p].added then 0 else 1
  {
    if i == 0 {
      HeadCopyComesEarly(c, s, p, d, n, at);
    } else {
      var step := if s.publishers[p].added then MarkRow else AddJob;
      CopyIsCloser(s, p, step, i, d, n);
      var s' := PublisherNext(s, p, step);
      hide *;
      PublisherIs(c, s, p, step);
      AddOrMark(p, step);
      SimpleNext(c, s, Publisher(p, step), d, n);
      CopyComesEarly(c, s', p, if step.MarkRow? then i - 1 else i, d, n, at);
      Before(c, s, Publisher(p, step), d, n, at);
    }
  }

  lemma AddOrMark(p: nat, step: PublisherStep)
    requires step.AddJob? || step.MarkRow?
    ensures IsSimple(Publisher(p, step))
  {
  }

  lemma CopyIsCloser(s: State, p: nat, step: PublisherStep, i: nat, d: Id, n: nat)
    requires i > 0 && HasToAdd(s, p, i, d, n) && RowsBefore(s, p, i)
    requires step == if s.publishers[p].added then MarkRow else AddJob
    ensures PublisherEnabled(s, p, step)
    ensures var s', j := PublisherNext(s, p, step), if step.MarkRow? then i - 1 else i;
      HasToAdd(s', p, j, d, n) && RowsBefore(s', p, j) && s'.now == s.now && (step.AddJob? ==> s'.publishers[p].added)
  {
    var rows := s.publishers[p].rows;
    if step.MarkRow? {
      MarkIs(s, p);
      assert rows[1..][i - 1] == rows[i];
      assert forall j :: 0 <= j < i - 1 ==> rows[1..][j] == rows[j + 1];
    } else {
      AddNext(s, p);
      hide KeyOf;
      SameTime(s, p);
    }
    hide PublisherNext, PublisherEnabled;
  }

  /** A job under an id of row `t` is a job for the row's attempt. */
  lemma OwnJob(s: State, t: Id, counter: nat, d: Id, n: nat)
    requires Structured(s) && IsOrderRow(s, d, n, t) && JobId(t, counter) in s.queue
    ensures IsFor(s.queue[JobId(t, counter)].job, d, n)
  {
    var job := s.queue[JobId(t, counter)].job;
    assert JobOk(s, job);
    JobIdInjective(t, counter, job.outbox, job.counter);
  }

  /** A due row is published under an id that the queue has forgotten. */
  lemma DueComesEarly(c: Config, s: State, t: Id, d: Id, n: nat, at: int)
    requires IsNext(s, d, n) && s.now < at && IsOrderRow(s, d, n, t) && Due(s.db.outbox, s.now, t)
    ensures CanComeEarly(c, s, d, n, at)
  {
    var k := JobId(t, s.db.outbox[t].publishes);
    var s1 := Without(s, k);
    WithoutIsNext(c, s, k, d, n);
    var p := FreshSlot(s1.publishers);
    hide IsNext, JobId, Without, CanComeEarly, Path, Publishes;
    var states, actions := DueIsPublished(c, s1, t, p);
    var s2 := Last(states);
    assert JobId(t, s2.db.outbox[t].publishes) == k && IsWaiting(s2, k) && IsOrderRow(s2, d, n, t) && s2.now == s.now;
    hide *;
    PublishersAreSimple(actions, p);
    PathIsNext(c, states, actions, d, n);
    PublishedJob(s2, t, k, d, n);
    JobComesEarly(c, s2, k, d, n, at);
    BeforePath(c, states, actions, d, n, at);
    WithoutComesEarly(c, s, k, d, n, at);
  }

  lemma PublishedJob(s: State, t: Id, k: string, d: Id, n: nat)
    requires IsNext(s, d, n) && IsOrderRow(s, d, n, t) && IsWaiting(s, k)
    requires k == JobId(t, s.db.outbox[t].publishes)
    ensures IsJobFor(s, k, d, n)
  {
    OwnJob(s, t, s.db.outbox[t].publishes, d, n);
    hide JobId, Structured;
  }

  lemma {:induction false} PathIsNext(c: Config, states: seq<State>, actions: seq<Action>, d: Id, n: nat)
    requires |states| > 0 && Path(c, states, actions) && IsNext(states[0], d, n)
    requires forall k :: 0 <= k < |actions| ==> IsSimple(actions[k])
    ensures IsNext(Last(states), d, n)
    decreases |actions|
  {
    hide Enabled, Next, IsNext, IsSimple;
    if |actions| > 0 {
      SimpleNext(c, states[0], actions[0], d, n);
      assert Path(c, states[1..], actions[1..]) && Last(states[1..]) == Last(states);
      PathIsNext(c, states[1..], actions[1..], d, n);
    }
  }

  lemma TickIs(c: Config, s: State, ms: nat)
    ensures Enabled(c, s, Tick(ms)) && IsSimple(Tick(ms)) && Next(c, s, Tick(ms)) == s.(now := s.now + ms)
  {
  }

  /** An unpublished row falls due in time. */
  lemma OpenComesEarly(c: Config, s: State, t: Id, d: Id, n: nat, at: int)
    requires IsNext(s, d, n) && s.now < at && IsEarlyRow(s, d, n, at, t) && IsOpen(s, t)
    ensures CanComeEarly(c, s, d, n, at)
  {
    var wait := if s.db.outbox[t].availableAt > s.now then s.db.outbox[t].availableAt - s.now else 0;
    var s' := Next(c, s, Tick(wait));
    TickIs(c, s, wait);
    assert IsOrderRow(s', d, n, t) && Due(s'.db.outbox, s'.now, t) && s'.now < at;
    hide *;
    SimpleNext(c, s, Tick(wait), d, n);
    DueComesEarly(c, s', t, d, n, at);
    Before(c, s, Tick(wait), d, n, at);
  }

  /** The loop reopens the row, after the queue has forgotten its jobs. */
  lemma HeadComesEarly(c: Config, s: State, m: nat, t: Id, d: Id, n: nat, at: int)
    requires IsNext(s, d, n) && s.now < at && IsEarlyRow(s, d, n, at, t) && Lists(s, m, 0, t)
    ensures CanComeEarly(c, s, d, n, at)
  {
    var k, legacy := JobId(t, s.sweeps[m].published[0].1), LegacyJobId(t);
    var s1 := Without(s, k);
    var s2 := Without(s1, legacy);
    WithoutIsNext(c, s, k, d, n);
    WithoutIsNext(c, s1, legacy, d, n);
    assert HasNoLiveJob(s2.queue, t, s2.sweeps[m].published[0].1);
    assert IsOrderRow(s2, d, n, t) && Lists(s2, m, 0, t) && s2.now == s.now && s2.db == s.db;
    hide *;
    NextParts(s2, d, n);
    EarlyParts(s, d, n, at, t);
    var states, actions := HeadIsReopened(c, s2, m, d, n, t);
    LoopsAreSimple(actions, m);
    PathIsNext(c, states, actions, d, n);
    ReopenedEarly(s, Last(states), t, d, n, at);
    LoopsWait(c, states, actions, m);
    OpenComesEarly(c, Last(states), t, d, n, at);
    BeforePath(c, states, actions, d, n, at);
    WithoutComesEarly(c, s1, legacy, d, n, at);
    WithoutComesEarly(c, s, k, d, n, at);
  }

  lemma NextParts(s: State, d: Id, n: nat)
    requires IsNext(s, d, n)
    ensures Structured(s)
  {
  }

  lemma EarlyParts(s: State, d: Id, n: nat, at: int, t: Id)
    requires IsEarlyRow(s, d, n, at, t)
    ensures t in s.db.outbox
  {
  }

  lemma ReopenedEarly(s: State, s': State, t: Id, d: Id, n: nat, at: int)
    requires IsEarlyRow(s, d, n, at, t) && s'.db == Reopen(s.db, t)
    ensures IsEarlyRow(s', d, n, at, t) && IsOpen(s', t)
  {
  }

  lemma {:induction false} LoopsWait(c: Config, states: seq<State>, actions: seq<Action>, m: nat)
    requires |states| > 0 && Path(c, states, actions) && AllReopen(actions, m)
    ensures Last(states).now == states[0].now
    decreases |actions|
  {
    hide Enabled, Next, Reopens;
    if |actions| > 0 {
      LoopStepWaits(c, states[0], actions[0], m);
      assert Path(c, states[1..], actions[1..]) && Last(states[1..]) == Last(states);
      LoopsWait(c, states[1..], actions[1..], m);
    }
  }

  lemma LoopStepWaits(c: Config, s: State, a: Action, m: nat)
    requires Enabled(c, s, a) && Reopens(a, m)
    ensures Next(c, s, a).now == s.now
  {
    hide Enabled, Next, SweepEnabled, SweepNext;
    StepIs(c, s, a);
    SweepFrame(c, s, m, a.sweeping);
  }

  lemma ListedComesEarly(c: Config, s: State, m: nat, i: nat, t: Id, d: Id, n: nat, at: int)
    requires IsNext(s, d, n) && s.now < at && IsEarlyRow(s, d, n, at, t) && Lists(s, m, i, t) && ClearWay(s, m, i)
    ensures CanComeEarly(c, s, d, n, at)
  {
    hide IsNext, CanComeEarly, Path, Reopens, Lists, ClearWay, IsSimple;
    var states, actions := LoopGetsThere(c, s, m, i, t);
    var s' := Last(states);
    assert IsEarlyRow(s', d, n, at, t) && s'.now == s.now;
    LoopsAreSimple(actions, m);
    PathIsNext(c, states, actions, d, n);
    HeadComesEarly(c, s', m, t, d, n, at);
    BeforePath(c, states, actions, d, n, at);
  }

  lemma LiveComesEarly(c: Config, s: State, d: Id, n: nat, at: int)
    requires IsNext(s, d, n) && s.now < at && LiveEarly(s, d, n, at)
    ensures CanComeEarly(c, s, d, n, at)
  {
    hide IsNext, CanComeEarly, IsJobFor, IsInHand, HasToAdd, RowsBefore, IsEarlyRow, IsOpen, Lists, ClearWay;
    if k :| IsJobFor(s, k, d, n) {
      JobComesEarly(c, s, k, d, n, at);
    } else if w :| IsInHand(s, w, d, n) {
      HandComesEarly(c, s, w, d, n, at);
    } else if p, i: nat :| HasToAdd(s, p, i, d, n) && RowsBefore(s, p, i) {
      CopyComesEarly(c, s, p, i, d, n, at);
    } else if t :| IsEarlyRow(s, d, n, at, t) && IsOpen(s, t) {
      OpenComesEarly(c, s, t, d, n, at);
    } else if m, i: nat, t :| Lists(s, m, i, t) && IsEarlyRow(s, d, n, at, t) && ClearWay(s, m, i) {
      ListedComesEarly(c, s, m, i, t, d, n, at);
    }
  }

  // ---------------------------------------------------------------- exactly

  /** When the next attempt of a FAILED delivery can be claimed before `at`, in the full
      interleaving: by steps that Y allows, and without a replay or a new order of the
      attempt before `at`, if and only if there is a live early order of it now.  Not
      decided is only an early row behind a deleted one in a loop's list, a job of which
      somebody still holds: without that job the loop gives up its list. */
  lemma ComesEarlyExactly(c: Config, s: State, d: Id, n: nat, at: int)
    requires IsNext(s, d, n) && s.now < at
    ensures LiveEarly(s, d, n, at) ==> CanComeEarly(c, s, d, n, at)
    ensures CanComeEarly(c, s, d, n, at) ==> LiveEarly(s, d, n, at) || EarlyRowBehind(s, d, n, at)
  {
    hide *;
    if LiveEarly(s, d, n, at) {
      LiveComesEarly(c, s, d, n, at);
    } else if !EarlyRowBehind(s, d, n, at) {
      NotLive(s, d, n, at);
      NextParts(s, d, n);
      CalmStays(c, s, d, n, at);
    }
  }

  lemma NotLive(s: State, d: Id, n: nat, at: int)
    requires IsNext(s, d, n) && !LiveEarly(s, d, n, at) && !EarlyRowBehind(s, d, n, at)
    ensures Calm(s, d, n, at)
  {
    ListedEitherWay(s, d, n, at);
    hide Losses.InQueue, InHand, CopyAhead, EarlyRowOpen, EarlyRowListed, EarlyRowAhead, EarlyRowBehind;
  }

  // ---------------------------------------------------------------- in a run

  /** The time for attempt `n` is chosen when the attempt before it fails. */
  lemma AfterFailure(c: Config, s: State, a: Action, d: Id, n: nat, at: int, t: Id)
    requires Structured(s) && Enabled(c, s, a) && n > 0 && EffectOf(c, s, a) == Reschedule(d, n - 1, at, t)
    ensures d in s.db.deliveries && d in Next(c, s, a).db.deliveries
    ensures var row := Next(c, s, a).db.deliveries[d];
      row.status == FAILED && row.attempts == s.db.deliveries[d].attempts
    ensures Structured(Next(c, s, a)) && d in Next(c, s, a).h.records
  {
    hide *;
    StructureStep(c, s, a);
    RowsStep(c, s, a);
    RescheduledRow(s, Next(c, s, a), EffectOf(c, s, a));
  }

  lemma RescheduledRow(s: State, s': State, e: Effect)
    requires Fits(s, s', e) && e.Reschedule?
    ensures e.d in s.db.deliveries && e.d in s'.db.deliveries && e.d in s'.h.records
    ensures s'.db.deliveries[e.d].status == FAILED
      && s'.db.deliveries[e.d].attempts == s.db.deliveries[e.d].attempts
  {
    hide RecordAfter, EventsAfter;
  }

  /** Backoff in every replay epoch, exactly: when step `i` of a run chooses time `at` for
      attempt `n`, which no claim has overtaken, then the attempt can be claimed before
      `at`, by steps that Y allows and that neither replay the delivery nor order the
      attempt anew before `at`, if and only if it is the next one, `at` is still to come,
      and the step leaves a live early order of it. */
  lemma BackoffBreaksExactly(c: Config, states: seq<State>, actions: seq<Action>, i: nat, d: Id, n: nat, at: int, t: Id)
    requires Run(c, states, actions) && i < |actions| && n > 0 && PlainIds(states[i + 1])
    requires EffectOf(c, states[i], actions[i]) == Reschedule(d, n - 1, at, t)
    requires d in states[i].db.deliveries && states[i].db.deliveries[d].attempts >= n - 1
    ensures var s := states[i + 1];
      && d in s.db.deliveries
      && (s.db.deliveries[d].attempts + 1 == n && s.now < at && LiveEarly(s, d, n, at) ==>
            CanComeEarly(c, s, d, n, at))
      && (CanComeEarly(c, s, d, n, at) ==>
            && s.db.deliveries[d].attempts + 1 == n && s.now < at
            && (LiveEarly(s, d, n, at) || EarlyRowBehind(s, d, n, at)))
  {
    Losses.RunStructured(c, states, actions, i);
    var s := states[i + 1];
    assert Enabled(c, states[i], actions[i]) && s == Next(c, states[i], actions[i]);
    hide *;
    AfterFailure(c, states[i], actions[i], d, n, at, t);
    if CanComeEarly(c, s, d, n, at) {
      EarlyStart(c, s, d, n, at);
    }
    if s.db.deliveries[d].attempts + 1 > n {
      Overtaken(s, d, n, at);
      CalmStays(c, s, d, n, at);
    } else if s.now < at {
      NextIs(s, d, n);
      ComesEarlyExactly(c, s, d, n, at);
    }
  }

  lemma Overtaken(s: State, d: Id, n: nat, at: int)
    requires d in s.h.records && d in s.db.deliveries && s.db.deliveries[d].attempts >= n
    ensures Calm(s, d, n, at)
  {
    hide IsCalm;
  }

  lemma NextIs(s: State, d: Id, n: nat)
    requires Structured(s) && PlainIds(s) && d in s.db.deliveries && s.db.deliveries[d].status == FAILED
      && s.db.deliveries[d].attempts + 1 == n
    ensures IsNext(s, d, n)
  {
  }

  /** The clock only goes on in a run, and orders are only added. */
  lemma {:induction false} EarlierInRun(c: Config, states: seq<State>, actions: seq<Action>, i: nat, j: nat)
    requires Run(c, states, actions) && i <= j < |states|
    ensures states[i].now <= states[j].now && (PlainIds(states[j]) ==> PlainIds(states[i]))
    decreases j
  {
    hide Enabled, Next, Structured, Init, PlainIds;
    if i < j {
      EarlierInRun(c, states, actions, i, j - 1);
      Losses.RunStructured(c, states, actions, j - 1);
      EarlierByStep(c, states[j - 1], actions[j - 1]);
    }
  }

  lemma EarlierByStep(c: Config, s: State, a: Action)
    requires Structured(s) && Enabled(c, s, a)
    ensures s.now <= Next(c, s, a).now && (PlainIds(Next(c, s, a)) ==> PlainIds(s))
  {
    hide *;
    RowsStep(c, s, a);
    PlainBefore(s, Next(c, s, a));
  }

  lemma PlainBefore(s: State, s': State)
    requires Grows(s, s')
    ensures s.now <= s'.now && (PlainIds(s') ==> PlainIds(s))
  {
    hide Decimal;
  }

  /** A stretch of a run, up to a claim before `at`, is a path to it. */
  lemma StretchIsQuiet(c: Config, states: seq<State>, actions: seq<Action>, i: nat, j: nat, d: Id, n: nat, at: int)
    requires Run(c, states, actions) && i < j < |actions| && IsEarlyClaim(c, states[j], actions[j], d, n, at)
    requires forall k :: i < k < j ==> Leaves(c, states[k], actions[k], d, n, at)
    ensures CanComeEarly(c, states[i + 1], d, n, at) && PlainIds(states[i + 1])
  {
    hide Enabled, Next, Leaves, Init, Guarantees.Claims, PlainIds;
    var stretch, steps := states[i + 1..j + 1], actions[i + 1..j];
    forall k | 0 <= k < |steps|
      ensures Enabled(c, stretch[k], steps[k]) && stretch[k + 1] == Next(c, stretch[k], steps[k])
      ensures IsQuietStep(c, stretch[k], steps[k], d, n, at)
    {
      assert stretch[k] == states[i + 1 + k] && steps[k] == actions[i + 1 + k] && stretch[k + 1] == states[i + 2 + k];
      EarlierInRun(c, states, actions, i + 1 + k, j);
    }
    EarlierInRun(c, states, actions, i + 1, j);
    assert IsQuiet(c, stretch, steps, d, n, at) && Last(stretch) == states[j];
  }

  /** So whatever run follows, a claim that does come early was left a live early order
      when its time was chosen. */
  lemma EarlyClaimsWereLive(c: Config, states: seq<State>, actions: seq<Action>, i: nat, j: nat, d: Id, n: nat,
      at: int, t: Id)
    requires Run(c, states, actions) && i < j < |actions| && n > 0
    requires EffectOf(c, states[i], actions[i]) == Reschedule(d, n - 1, at, t)
    requires d in states[i].db.deliveries && states[i].db.deliveries[d].attempts >= n - 1
    requires forall k :: i < k < j ==> Leaves(c, states[k], actions[k], d, n, at)
    requires IsEarlyClaim(c, states[j], actions[j], d, n, at)
    ensures LiveEarly(states[i + 1], d, n, at) || EarlyRowBehind(states[i + 1], d, n, at)
  {
    hide Enabled, Next, Leaves, Init, IsEarlyClaim, CanComeEarly, LiveEarly, EarlyRowBehind, EffectOf, PlainIds;
    StretchIsQuiet(c, states, actions, i, j, d, n, at);
    BackoffBreaksExactly(c, states, actions, i, d, n, at, t);
  }
}
