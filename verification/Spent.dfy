/** A delivery that did not succeed and whose orders are all spent: however long the
    system runs, only a replay brings it back, as long as the rate limiter defers no
    stale job. */
module Spent {
  import opened Domain
  import opened Transactions
  import opened Protocol
  import opened Effects
  import opened Structure
  import opened Losses
  import opened Lossless
  import opened Rescue
  import Loops
  import Survival
  import Retry

  // ---------------------------------------------------------------- spent orders

  /** Some loop has listed a row of the attempt. */
  ghost predicate OnList(s: State, d: Id, n: nat) {
    exists m, i: nat, t :: Loops.Lists(s, m, i, t) && IsOrderRow(s, d, n, t)
  }

  /** The delivery is FAILED or CANCELLED and nobody is sending it; every row that orders
      its next attempt is published, and no waiting job, fetched copy, checked job or
      loop's list holds that attempt. */
  ghost predicate IsSpent(s: State, d: Id) {
    && d in s.db.deliveries && s.db.deliveries[d].status in {FAILED, CANCELLED} && NobodySends(s, d)
    && var n := s.db.deliveries[d].attempts + 1;
    && !InOpenRow(s, d, n) && !InQueue(s, d, n) && !InBatch(s, d, n) && !InHands(s, d, n) && !OnList(s, d, n)
  }

  /** What a step may do to the rows of a spent delivery: cancel it, or leave it, and
      change published rows, but not make one unpublished. */
  ghost predicate Spares(s: State, e: Effect, d: Id)
    requires d in s.db.deliveries
  {
    && (e.Writes() && e.d == d ==> e.Terminate? && e.status.CANCELLED?)
    && (e.Remark? && IsOrderRow(s, d, s.db.deliveries[d].attempts + 1, e.t) && s.db.outbox[e.t].publishedAt.Some? ==>
          e.ticket.publishedAt.Some?)
  }

  lemma RowAfterStep(s: State, s': State, e: Effect, d: Id)
    requires Structured(s) && Fits(s, s', e) && IsSpent(s, d) && Spares(s, e, d) && d in s'.db.deliveries
    ensures s'.db.deliveries[d].status in {FAILED, CANCELLED}
      && s'.db.deliveries[d].attempts == s.db.deliveries[d].attempts
  {
    if e.Writes() && e.d == d {
      assert s'.db.deliveries[d] == RowAfter(s.db.deliveries[d], e, s.now);
    } else {
      assert !(e.Accept? && d in e.fan);
      SameDelivery(s, s', e, d);
    }
  }

  /** No row of the attempt is new, and none becomes unpublished. */
  lemma OrdersAfterStep(s: State, s': State, e: Effect, d: Id)
    requires Structured(s) && Fits(s, s', e) && Grows(s, s') && d in s.db.deliveries && Spares(s, e, d)
    ensures var n := s.db.deliveries[d].attempts + 1;
      && (forall t :: IsOrderRow(s', d, n, t) ==> IsOrderRow(s, d, n, t))
      && (InOpenRow(s', d, n) ==> InOpenRow(s, d, n))
  {
    var n := s.db.deliveries[d].attempts + 1;
    forall t | IsOrderRow(s', d, n, t)
      ensures IsOrderRow(s, d, n, t) && (s.db.outbox[t].publishedAt.Some? ==> s'.db.outbox[t].publishedAt.Some?)
    {
      if t !in s.db.outbox {
        NewRow(s, s', e, t);
      } else {
        OldRow(s, s', e, t);
      }
    }
    hide Fits, Structured, Spares, Grows;
    if t :| IsOpenRow(s', t, d, n) {
      assert IsOrderRow(s', d, n, t) && IsOpenRow(s, t, d, n);
    }
  }

  lemma OldRow(s: State, s': State, e: Effect, t: Id)
    requires Fits(s, s', e) && t in s.db.outbox && t in s'.db.outbox
    ensures s'.db.outbox[t].delivery == s.db.outbox[t].delivery
      && s'.db.outbox[t].attemptNumber == s.db.outbox[t].attemptNumber
    ensures s'.db.outbox[t].publishedAt != s.db.outbox[t].publishedAt ==>
      e.Remark? && e.t == t && s'.db.outbox[t] == e.ticket
  {
    hide RowAfter, RecordAfter;
  }

  lemma SpentStep(s: State, s': State, e: Effect, d: Id)
    requires Structured(s) && Fits(s, s', e) && IsSpent(s, d) && Spares(s, e, d) && d in s'.db.deliveries
    requires NoNewCopies(s, s', d, s.db.deliveries[d].attempts + 1) && NobodySends(s', d)
    requires var n := s.db.deliveries[d].attempts + 1;
      forall m, i: nat, t :: Loops.Lists(s', m, i, t) && IsOrderRow(s, d, n, t) ==> OnList(s, d, n)
    ensures IsSpent(s', d)
  {
    hide *;
    SpentParts(s, d);
    StructuredRows(s);
    EffectKeeps(s, s', e);
    RowAfterStep(s, s', e, d);
    OrdersAfterStep(s, s', e, d);
    ListAfterStep(s, s', d, s.db.deliveries[d].attempts + 1);
    StillSpent(s, s', d);
  }

  lemma StillSpent(s: State, s': State, d: Id)
    requires IsSpent(s, d) && d in s'.db.deliveries && NobodySends(s', d)
    requires s'.db.deliveries[d].status in {FAILED, CANCELLED}
      && s'.db.deliveries[d].attempts == s.db.deliveries[d].attempts
    requires var n := s.db.deliveries[d].attempts + 1;
      NoNewCopies(s, s', d, n) && (InOpenRow(s', d, n) ==> InOpenRow(s, d, n)) && (OnList(s', d, n) ==> OnList(s, d, n))
    ensures IsSpent(s', d)
  {
    hide InOpenRow, InQueue, InBatch, InHands, OnList, NobodySends;
  }

  lemma ListAfterStep(s: State, s': State, d: Id, n: nat)
    requires forall t :: IsOrderRow(s', d, n, t) ==> IsOrderRow(s, d, n, t)
    requires forall m, i: nat, t :: Loops.Lists(s', m, i, t) && IsOrderRow(s, d, n, t) ==> OnList(s, d, n)
    ensures OnList(s', d, n) ==> OnList(s, d, n)
  {
    hide IsOrderRow, Loops.Lists;
  }

  // ---------------------------------------------------------------- every process

  lemma WorkerSpares(c: Config, s: State, w: nat, step: WorkerStep, d: Id)
    requires WorkerEnabled(s, w, step) && IsSpent(s, d) && NoStaleReject(s, Work(w, step))
    ensures Spares(s, WorkerEffect(c, s, w, step), d) && NobodySends(WorkerNext(c, s, w, step), d)
  {
    assert step.Claim? ==> !IsFor(s.workers[w].job, d, s.db.deliveries[d].attempts + 1);
    assert step.Reject? ==> !IsFor(s.workers[w].job, d, s.db.deliveries[d].attempts + 1);
    hide InHands, InQueue, InBatch, InOpenRow, OnList;
    hide Retry.Decide, MarkTerminal, MarkFailedAndSchedule, MarkRateLimitedAndSchedule, ClaimForProcessing, RecordOf,
      Settle;
    match step
    case Respond(reply, draw, ticket) =>
      var job, attempt := s.workers[w].job, s.workers[w].attempt;
      SettleFrame(s.(workers := s.workers[w := Leaving(job)]), job.delivery, attempt,
        Retry.Decide(c, attempt, reply, s.now, draw), ticket);
    case _ =>
  }

  lemma SameLists(s: State, s': State, d: Id, n: nat)
    requires s'.sweeps == s.sweeps
    ensures forall m, i: nat, t :: Loops.Lists(s', m, i, t) && IsOrderRow(s, d, n, t) ==> OnList(s, d, n)
  {
    assert forall m, i: nat, t :: Loops.Lists(s', m, i, t) ==> Loops.Lists(s, m, i, t);
    hide IsOrderRow, Loops.Lists;
  }

  lemma WorkerSpent(c: Config, s: State, w: nat, step: WorkerStep, d: Id)
    requires Structured(s) && WorkerEnabled(s, w, step) && IsSpent(s, d) && NoStaleReject(s, Work(w, step))
    requires d in WorkerNext(c, s, w, step).db.deliveries
    ensures IsSpent(WorkerNext(c, s, w, step), d)
  {
    hide *;
    SpentParts(s, d);
    StructuredRows(s);
    RowsKnown(s);
    WorkersKnown(s);
    WorkerFits(c, s, w, step);
    WorkerFrame(c, s, w, step);
    WorkerSpares(c, s, w, step, d);
    WorkerCopies(c, s, w, step, d, s.db.deliveries[d].attempts + 1);
    SameLists(s, WorkerNext(c, s, w, step), d, s.db.deliveries[d].attempts + 1);
    SpentStep(s, WorkerNext(c, s, w, step), WorkerEffect(c, s, w, step), d);
  }

  lemma SpentParts(s: State, d: Id)
    requires IsSpent(s, d)
    ensures d in s.db.deliveries && NobodySends(s, d) && !s.db.deliveries[d].status.PENDING?
    ensures var n := s.db.deliveries[d].attempts + 1;
      !InOpenRow(s, d, n) && !InQueue(s, d, n) && !OnList(s, d, n)
  {
  }

  lemma PublisherSpares(s: State, p: nat, step: PublisherStep, d: Id)
    requires PublisherEnabled(s, p, step) && d in s.db.deliveries
    ensures Spares(s, PublisherEffect(s, p, step), d)
  {
    hide OldestDue;
  }

  lemma PublisherSpent(s: State, p: nat, step: PublisherStep, d: Id)
    requires Structured(s) && PublisherEnabled(s, p, step) && IsSpent(s, d)
    requires d in PublisherNext(s, p, step).db.deliveries
    ensures IsSpent(PublisherNext(s, p, step), d)
  {
    hide *;
    SpentParts(s, d);
    PublisherFits(s, p, step);
    PublisherFrame(s, p, step);
    PublisherSpares(s, p, step, d);
    PublisherCopies(s, p, step, d, s.db.deliveries[d].attempts + 1);
    SameSenders(s, PublisherNext(s, p, step), d);
    SameLists(s, PublisherNext(s, p, step), d, s.db.deliveries[d].attempts + 1);
    SpentStep(s, PublisherNext(s, p, step), PublisherEffect(s, p, step), d);
  }

  lemma SameSenders(s: State, s': State, d: Id)
    requires s'.workers == s.workers
    ensures NobodySends(s', d) <==> NobodySends(s, d)
  {
  }

  lemma SweepSpares(c: Config, s: State, m: nat, step: SweepStep, d: Id)
    requires SweepEnabled(c, s, m, step) && IsSpent(s, d)
    ensures Spares(s, SweepEffect(c, s, m, step), d)
  {
    if step.ReopenOne? {
      var t := s.sweeps[m].published[0].0;
      assert Loops.Lists(s, m, 0, t);
      assert !IsOrderRow(s, d, s.db.deliveries[d].attempts + 1, t);
    }
    hide InHands, InQueue, InBatch, InOpenRow, OnList, StaleRows, StrandedRows, NobodySends;
  }

  /** A loop lists no further row of a delivery that is not PENDING. */
  lemma SweepLists(c: Config, s: State, m: nat, step: SweepStep, d: Id, n: nat)
    requires SweepEnabled(c, s, m, step) && d in s.db.deliveries && !s.db.deliveries[d].status.PENDING?
    ensures forall l, i: nat, t :: Loops.Lists(SweepNext(c, s, m, step), l, i, t) && IsOrderRow(s, d, n, t) ==>
      OnList(s, d, n)
  {
    var s' := SweepNext(c, s, m, step);
    forall l, i: nat, t | Loops.Lists(s', l, i, t) && IsOrderRow(s, d, n, t) ensures OnList(s, d, n) {
      if l != m {
        Loops.OtherLoopStays(c, s, m, step, l);
        assert Loops.Lists(s, l, i, t);
      } else if step.ScanStranded? {
        PendingRows(s, step.published, d, n);
      } else {
        var j := Loops.ListBefore(c, s, m, step, i, t);
        assert Loops.Lists(s, m, j, t);
      }
    }
  }

  lemma PendingRows(s: State, rows: seq<(Id, nat)>, d: Id, n: nat)
    requires StrandedRows(s.db, rows) && d in s.db.deliveries && !s.db.deliveries[d].status.PENDING?
    ensures forall i :: 0 <= i < |rows| ==> !IsOrderRow(s, d, n, rows[i].0)
  {
    forall i | 0 <= i < |rows| ensures !IsOrderRow(s, d, n, rows[i].0) {
      assert IsPublishedPending(s.db, rows[i].0, rows[i].1);
    }
  }

  lemma SweepSpent(c: Config, s: State, m: nat, step: SweepStep, d: Id)
    requires Structured(s) && SweepEnabled(c, s, m, step) && IsSpent(s, d)
    requires d in SweepNext(c, s, m, step).db.deliveries
    ensures IsSpent(SweepNext(c, s, m, step), d)
  {
    hide *;
    SpentParts(s, d);
    StructuredRows(s);
    RowsKnown(s);
    SweepFits(c, s, m, step);
    SweepFrame(c, s, m, step);
    SweepSpares(c, s, m, step, d);
    SameQueue(s, SweepNext(c, s, m, step));
    SameCopies(s, SweepNext(c, s, m, step), d, s.db.deliveries[d].attempts + 1);
    SweepLists(c, s, m, step, d, s.db.deliveries[d].attempts + 1);
    SpentStep(s, SweepNext(c, s, m, step), SweepEffect(c, s, m, step), d);
  }

  lemma OtherSpares(c: Config, s: State, a: Action, d: Id)
    requires Enabled(c, s, a) && d in s.db.deliveries && !a.Work? && !a.Publisher? && !a.Maintain? && !Replays(s, a, d)
    ensures Spares(s, EffectOf(c, s, a), d)
  {
    hide CanIngest, Next;
  }

  lemma OtherSpent(c: Config, s: State, a: Action, d: Id)
    requires Structured(s) && Enabled(c, s, a) && IsSpent(s, d) && !a.Work? && !a.Publisher? && !a.Maintain?
    requires !Replays(s, a, d) && d in Next(c, s, a).db.deliveries
    ensures IsSpent(Next(c, s, a), d)
  {
    var s', e := Next(c, s, a), EffectOf(c, s, a);
    hide *;
    SpentParts(s, d);
    RowsStep(c, s, a);
    OtherSpares(c, s, a, d);
    OtherFrameOf(c, s, a);
    SameCopies(s, s', d, s.db.deliveries[d].attempts + 1);
    SameLists(s, s', d, s.db.deliveries[d].attempts + 1);
    SpentStep(s, s', e, d);
  }

  lemma OtherFrameOf(c: Config, s: State, a: Action)
    requires Enabled(c, s, a) && !a.Work? && !a.Publisher? && !a.Maintain?
    ensures var s' := Next(c, s, a);
      QueueShrinks(s, s') && s'.publishers == s.publishers && s'.workers == s.workers && s'.sweeps == s.sweeps
  {
    hide *;
    StepIs(c, s, a);
    if a.Replay? {
      ReplayFrame(s, a.r, a.replaying);
      SameQueue(s, Next(c, s, a));
    } else if a.Queue? {
      QueueFrame(s, a.jobId, a.queueing);
    } else {
      PlainFrame(c, s, a);
      SameQueue(s, Next(c, s, a));
    }
  }

  // ---------------------------------------------------------------- for good

  /** A lost job spends the orders of a FAILED delivery that nobody is sending if and only
      if no other job waits for the attempt, none of its rows is unpublished, and no
      publisher, worker or loop holds it. */
  lemma LostJobSpendsExactly(s: State, k: string, step: QueueStep, d: Id)
    requires QueueEnabled(s, k, step) && IsWaiting(s, k)
    requires d in s.db.deliveries && s.db.deliveries[d].status == FAILED && NobodySends(s, d)
    ensures var n := s.db.deliveries[d].attempts + 1;
      IsSpent(QueueNext(s, k, step), d) <==>
        && !Survival.OtherJob(s, k, d, n) && !InOpenRow(s, d, n)
        && !InBatch(s, d, n) && !InHands(s, d, n) && !OnList(s, d, n)
  {
    var s', n := QueueNext(s, k, step), s.db.deliveries[d].attempts + 1;
    Survival.QueueAfter(s, k, step);
    hide QueueNext;
    SameSenders(s, s', d);
    assert forall j :: IsJobFor(s', j, d, n) <==> j != k && IsJobFor(s, j, d, n);
    assert forall t :: IsOpenRow(s', t, d, n) <==> IsOpenRow(s, t, d, n);
    assert forall m, i: nat, t :: Loops.Lists(s', m, i, t) <==> Loops.Lists(s, m, i, t);
    assert forall t :: IsOrderRow(s', d, n, t) <==> IsOrderRow(s, d, n, t);
    SameHolders(s, s', d, n);
    hide IsOpenRow, IsJobFor, IsOrderRow, Loops.Lists, InBatch, InHands, NobodySends, Survival.IsAfter;
  }

  lemma SameHolders(s: State, s': State, d: Id, n: nat)
    requires s'.publishers == s.publishers && s'.workers == s.workers
    ensures (InBatch(s', d, n) <==> InBatch(s, d, n)) && (InHands(s', d, n) <==> InHands(s, d, n))
  {
  }

  /** No step that Y allows, of any process, brings a spent delivery back, except its
      replay. */
  lemma SpentForever(c: Config, s: State, a: Action, d: Id)
    requires Structured(s) && Enabled(c, s, a) && IsSpent(s, d) && NoStaleReject(s, a) && !Replays(s, a, d)
    ensures Structured(Next(c, s, a))
    ensures d in Next(c, s, a).db.deliveries ==> IsSpent(Next(c, s, a), d)
  {
    StructureStep(c, s, a);
    StepIs(c, s, a);
    if d in Next(c, s, a).db.deliveries {
      hide Structured, IsSpent, Enabled, Next, NoStaleReject, Replays;
      match a
      case Publisher(p, step) => PublisherSpent(s, p, step, d);
      case Work(w, step) => WorkerSpent(c, s, w, step, d);
      case Maintain(m, step) => SweepSpent(c, s, m, step, d);
      case _ => OtherSpent(c, s, a, d);
    }
  }

  /** Nothing backs a spent delivery, and publishers and loops do not change that. */
  lemma SpentIsLost(c: Config, s: State, d: Id)
    requires Structured(s) && IsSpent(s, d)
    ensures var n := s.db.deliveries[d].attempts + 1;
      !Backed(s, d, n) && !Survival.CanGoOn(c, s, d, n)
  {
    hide *;
    SpentParts(s, d);
    var n := s.db.deliveries[d].attempts + 1;
    SpentNotBacked(s, d, n);
    SpentNotHeld(s, d, n);
    Survival.PartsOut(s, d, n);
    Survival.OutIs(s, d, n);
    Survival.GoesOnExactly(c, s, d, n);
  }

  lemma SpentNotBacked(s: State, d: Id, n: nat)
    requires !InOpenRow(s, d, n) && !InQueue(s, d, n)
    ensures !Backed(s, d, n)
  {
    forall t ensures !OpenOrder(s, d, n, t) {
      assert !IsOpenRow(s, t, d, n);
    }
    assert forall k :: !IsJobFor(s, k, d, n);
  }

  lemma SpentNotHeld(s: State, d: Id, n: nat)
    requires IsSpent(s, d) && n == s.db.deliveries[d].attempts + 1
    ensures !AnyFindable(s, d, n) && !Survival.InHand(s, d, n) && !Survival.ToBeAdded(s, d, n)
      && !Survival.RowToReopen(s, d, n)
  {
    forall w ensures !Survival.IsInHand(s, w, d, n) {
    }
    forall p, i: nat ensures !Survival.HasToAdd(s, p, i, d, n) {
    }
    forall t ensures !(IsOrderRow(s, d, n, t) && Survival.ToBeReopened(s, t)) {
      if m, i: nat :| Survival.IsDead(s, m, i, t) {
        assert Loops.Lists(s, m, i, t);
      }
    }
  }

  /** In any run under Y, a spent delivery stays so until it is replayed or removed. */
  lemma {:induction false} SpentForGood(c: Config, states: seq<State>, actions: seq<Action>, i: nat, j: nat, d: Id)
    requires Run(c, states, actions) && i <= j < |states| && IsSpent(states[i], d)
    requires forall k :: i <= k < j ==> NoStaleReject(states[k], actions[k]) && !Replays(states[k], actions[k], d)
    requires forall k :: i <= k <= j ==> d in states[k].db.deliveries
    ensures IsSpent(states[j], d)
    ensures var n := states[j].db.deliveries[d].attempts + 1;
      !Backed(states[j], d, n) && !Survival.CanGoOn(c, states[j], d, n)
    decreases j
  {
    hide Next, Enabled, IsSpent, Structured, Init, Replays, NoStaleReject, Survival.CanGoOn, Backed;
    RunStructured(c, states, actions, j);
    if i < j {
      SpentForGood(c, states, actions, i, j - 1, d);
      RunStructured(c, states, actions, j - 1);
      SpentForever(c, states[j - 1], actions[j - 1], d);
    }
    SpentIsLost(c, states[j], d);
  }
}
