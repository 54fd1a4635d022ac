/** What holds when a delivery has at most one live worker (assumption X): live
    workers know their rows, terminal rows stay terminal, and the cached status
    of an event agrees with its deliveries. */
module Orderly {
  import opened Domain
  import opened Transactions
  import EventStatusPolicy
  import opened Protocol
  import opened Effects
  import opened Structure
  import Retry

  // ---------------------------------------------------------------- invariant

  predicate KnowsRow(s: State, worker: Worker) {
    var d := worker.job.delivery;
    match worker
    case Checked(_, _) => d in s.db.deliveries && !s.db.deliveries[d].status.Terminal()
    case Sending(_, attempt, _) =>
      d in s.db.deliveries && s.db.deliveries[d].status.PROCESSING? && s.db.deliveries[d].attempts == attempt
    case Leaving(_) => true
  }

  ghost predicate LiveRowsOk(s: State) {
    forall w :: w in s.workers ==> KnowsRow(s, s.workers[w])
  }

  ghost predicate Exclusive(s: State) {
    forall v, w :: (v in s.workers && w in s.workers && s.workers[v].Live() && s.workers[w].Live()
                    && s.workers[v].job.delivery == s.workers[w].job.delivery) ==> v == w
  }

  /** The cached status of event `e` is what its deliveries say. */
  ghost predicate Agrees(db: Tables, e: Id)
    requires e in db.events
  {
    var statuses := DeliveryStatuses(db, e);
    match db.events[e].status
    case NO_SUBSCRIBERS => statuses == {}
    case EVENT_PENDING => statuses != {} && forall d :: d in db.deliveries && db.deliveries[d].event == e ==>
      Untried(db.deliveries[d])
    case status => statuses != {} && status == EventStatusPolicy.StatusOf(statuses)
  }

  predicate Untried(row: Delivery) {
    row.status.PENDING? && row.attempts == 0
  }

  ghost predicate EventsOk(db: Tables) {
    forall e :: e in db.events ==> Agrees(db, e)
  }

  ghost predicate InOrder(s: State) {
    Structured(s) && LiveRowsOk(s) && Exclusive(s) && EventsOk(s.db)
  }

  // ---------------------------------------------------------------- events

  /** The rows an effect may find, when live workers know their rows. */
  ghost predicate Tame(s: State, e: Effect) {
    match e
    case Terminate(_, status) => status.Terminal()
    case Defer(d, _, _, _) => d in s.db.deliveries && !s.db.deliveries[d].status.Terminal()
    case Reschedule(d, _, _, _) => d in s.db.deliveries && s.db.deliveries[d].status.PROCESSING?
    case Revive(d, _, _) => d in s.db.deliveries && s.db.deliveries[d].status.PROCESSING?
    case _ => true
  }

  lemma StatusIn(db: Tables, d: Id)
    requires d in db.deliveries
    ensures db.deliveries[d].status in DeliveryStatuses(db, db.deliveries[d].event)
  {
  }

  lemma Unfinished(statuses: set<DeliveryStatus>, status: DeliveryStatus)
    requires status in statuses && !status.Terminal()
    ensures EventStatusPolicy.StatusOf(statuses) == EVENT_PROCESSING
  {
  }

  /** Writing a delivery does not change what the deliveries of other events say. */
  lemma OtherStatuses(db: Tables, db': Tables, d: Id, e: Id)
    requires d in db.deliveries && db.deliveries[d].event != e
    requires d in db'.deliveries && db'.deliveries == db.deliveries[d := db'.deliveries[d]]
    requires db'.deliveries[d].event == db.deliveries[d].event
    ensures DeliveryStatuses(db', e) == DeliveryStatuses(db, e)
  {
    forall x | x in DeliveryStatuses(db, e) ensures x in DeliveryStatuses(db', e) {
      var k :| k in db.deliveries && db.deliveries[k].event == e && db.deliveries[k].status == x;
      assert db'.deliveries[k] == db.deliveries[k];
    }
    forall x | x in DeliveryStatuses(db', e) ensures x in DeliveryStatuses(db, e) {
      var k :| k in db'.deliveries && db'.deliveries[k].event == e && db'.deliveries[k].status == x;
      assert k != d;
      assert db'.deliveries[k] == db.deliveries[k];
    }
  }

  lemma OtherAgrees(s: State, s': State, e: Effect, ev: Id)
    requires RowsOk(s) && EventsOk(s.db) && e.Writes() && Written(s, s', e)
    requires ev in s.db.events && ev in s'.db.events && ev != s.db.deliveries[e.d].event
    ensures Agrees(s'.db, ev)
  {
    var d := e.d;
    hide *;
    OtherRows(s, s', e, ev);
    OtherStatuses(s.db, s'.db, d, ev);
    SameAgreement(s.db, s'.db, ev);
  }

  lemma OtherRows(s: State, s': State, e: Effect, ev: Id)
    requires RowsOk(s) && EventsOk(s.db) && e.Writes() && Written(s, s', e)
    requires ev in s.db.events && ev in s'.db.events && ev != s.db.deliveries[e.d].event
    ensures e.d in s.db.deliveries && e.d in s'.db.deliveries
      && s'.db.deliveries == s.db.deliveries[e.d := s'.db.deliveries[e.d]]
    ensures s'.db.deliveries[e.d].event == s.db.deliveries[e.d].event
    ensures s'.db.events[ev] == s.db.events[ev] && Agrees(s.db, ev)
    ensures forall d :: d in s'.db.deliveries && s'.db.deliveries[d].event == ev ==>
      d in s.db.deliveries && s'.db.deliveries[d] == s.db.deliveries[d]
  {
    SameEvent(s.db.deliveries[e.d], e, s.now);
    hide RecordAfter, DeliveryStatuses, RowAfter, Agrees;
  }

  lemma SameAgreement(db: Tables, db': Tables, ev: Id)
    requires ev in db.events && ev in db'.events && db'.events[ev] == db.events[ev] && Agrees(db, ev)
    requires DeliveryStatuses(db', ev) == DeliveryStatuses(db, ev)
    requires forall d :: d in db'.deliveries && db'.deliveries[d].event == ev ==>
      d in db.deliveries && db'.deliveries[d] == db.deliveries[d]
    ensures Agrees(db', ev)
  {
    hide DeliveryStatuses, EventStatusPolicy.StatusOf;
  }

  /** The written delivery's own event: recomputed, set to processing because the
      delivery is unfinished, or left alone while it stays unfinished. */
  lemma OwnAgrees(s: State, s': State, e: Effect)
    requires RowsOk(s) && EventsOk(s.db) && e.Writes() && Written(s, s', e) && Tame(s, e)
    ensures s.db.deliveries[e.d].event in s'.db.events && Agrees(s'.db, s.db.deliveries[e.d].event)
  {
    var row := s.db.deliveries[e.d];
    var ev := row.event;
    assert Agrees(s.db, ev);
    StatusIn(s.db, e.d);
    assert s'.db.deliveries[e.d] == RowAfter(row, e, s.now);
    StatusIn(s'.db, e.d);
    if e.Terminate? {
      RefreshAgrees(s, s', e);
    } else if e.Begin? || e.Restart? {
      assert s'.db.events[ev].status == EVENT_PROCESSING;
    } else {
      StillUnfinished(s, s', e);
    }
  }

  lemma StillUnfinished(s: State, s': State, e: Effect)
    requires e.Defer? || e.Reschedule? || e.Revive?
    requires RowsOk(s) && EventsOk(s.db) && Written(s, s', e) && Tame(s, e)
    ensures s.db.deliveries[e.d].event in s'.db.events && Agrees(s'.db, s.db.deliveries[e.d].event)
  {
    var row, ev := s.db.deliveries[e.d], s.db.deliveries[e.d].event;
    hide *;
    UnfinishedRow(s, s', e);
    StatusIn(s.db, e.d);
    StatusIn(s'.db, e.d);
    Unfinished(DeliveryStatuses(s.db, ev), row.status);
    Unfinished(DeliveryStatuses(s'.db, ev), s'.db.deliveries[e.d].status);
    AgreesStill(s.db, s'.db, e.d, ev);
  }

  lemma UnfinishedRow(s: State, s': State, e: Effect)
    requires e.Defer? || e.Reschedule? || e.Revive?
    requires RowsOk(s) && EventsOk(s.db) && Written(s, s', e) && Tame(s, e)
    ensures e.d in s.db.deliveries && s.db.deliveries[e.d].event in s.db.events
      && Agrees(s.db, s.db.deliveries[e.d].event)
    ensures s'.db.events == s.db.events
      && s'.db.deliveries == s.db.deliveries[e.d := RowAfter(s.db.deliveries[e.d], e, s.now)]
    ensures var row, row' := s.db.deliveries[e.d], s'.db.deliveries[e.d];
      && row'.event == row.event && !row.status.Terminal() && !row'.status.Terminal()
      && (Untried(row) ==> Untried(row'))
  {
    hide RecordAfter, DeliveryStatuses, EventStatusPolicy.StatusOf;
  }

  lemma AgreesStill(db: Tables, db': Tables, d: Id, ev: Id)
    requires ev in db.events && db'.events == db.events && Agrees(db, ev)
    requires d in db.deliveries && db.deliveries[d].event == ev && d in db'.deliveries
      && db'.deliveries == db.deliveries[d := db'.deliveries[d]]
    requires db'.deliveries[d].event == ev && (Untried(db.deliveries[d]) ==> Untried(db'.deliveries[d]))
    requires db.deliveries[d].status in DeliveryStatuses(db, ev)
      && db'.deliveries[d].status in DeliveryStatuses(db', ev)
    requires EventStatusPolicy.StatusOf(DeliveryStatuses(db, ev)) == EVENT_PROCESSING
      == EventStatusPolicy.StatusOf(DeliveryStatuses(db', ev))
    ensures Agrees(db', ev)
  {
    hide DeliveryStatuses, EventStatusPolicy.StatusOf;
  }

  lemma RefreshAgrees(s: State, s': State, e: Effect)
    requires RowsOk(s) && e.Terminate? && Written(s, s', e)
    ensures s.db.deliveries[e.d].event in s'.db.events && Agrees(s'.db, s.db.deliveries[e.d].event)
  {
    var ev := s.db.deliveries[e.d].event;
    var rows := SetDelivery(s.db, e.d, RowAfter(s.db.deliveries[e.d], e, s.now));
    assert DeliveryStatuses(rows, ev) == DeliveryStatuses(s'.db, ev) by {
      assert rows.deliveries == s'.db.deliveries;
    }
    StatusIn(s'.db, e.d);
    assert s'.db.events[ev].status == EventStatusPolicy.StatusOf(DeliveryStatuses(s'.db, ev));
  }

  lemma WrittenEvents(s: State, s': State, e: Effect)
    requires RowsOk(s) && EventsOk(s.db) && e.Writes() && Written(s, s', e) && Tame(s, e)
    ensures EventsOk(s'.db)
  {
    OwnAgrees(s, s', e);
    assert s'.db.events.Keys == s.db.events.Keys;
    hide RowsOk, Agrees, Tame;
    forall ev | ev in s'.db.events ensures Agrees(s'.db, ev) {
      if ev != s.db.deliveries[e.d].event {
        OtherAgrees(s, s', e, ev);
      }
    }
  }

  lemma AcceptedEvents(s: State, s': State, e: Effect)
    requires RowsOk(s) && EventsOk(s.db) && e.Accept? && Accepted(s, s', e)
    requires e.eventRow.status == if e.fan == map[] then NO_SUBSCRIBERS else EVENT_PENDING
    ensures EventsOk(s'.db)
  {
    forall ev | ev in s'.db.events ensures Agrees(s'.db, ev) {
      if ev == e.event {
        forall d | d in s'.db.deliveries && s'.db.deliveries[d].event == ev
          ensures d in e.fan && Untried(s'.db.deliveries[d]) {
        }
        if e.fan != map[] {
          var d :| d in e.fan;
          assert d in s'.db.deliveries;
          StatusIn(s'.db, d);
        }
      } else {
        assert Agrees(s.db, ev);
        forall d | d in s'.db.deliveries && s'.db.deliveries[d].event == ev
          ensures d in s.db.deliveries && s'.db.deliveries[d] == s.db.deliveries[d] {
        }
        SameStatuses(s.db, s'.db, ev);
      }
    }
  }

  lemma SameStatuses(db: Tables, db': Tables, ev: Id)
    requires forall d :: d in db.deliveries && db.deliveries[d].event == ev ==>
      d in db'.deliveries && db'.deliveries[d] == db.deliveries[d]
    requires forall d :: d in db'.deliveries && db'.deliveries[d].event == ev ==>
      d in db.deliveries && db'.deliveries[d] == db.deliveries[d]
    ensures DeliveryStatuses(db', ev) == DeliveryStatuses(db, ev)
  {
  }

  lemma PrunedEvents(s: State, s': State)
    requires RowsOk(s) && EventsOk(s.db) && Pruned(s, s')
    ensures EventsOk(s'.db)
  {
    forall ev | ev in s'.db.events ensures Agrees(s'.db, ev) {
      assert Agrees(s.db, ev);
      SameStatuses(s.db, s'.db, ev);
    }
  }

  lemma EffectEvents(s: State, s': State, e: Effect)
    requires RowsOk(s) && EventsOk(s.db) && Fits(s, s', e) && Tame(s, e)
    requires e.Accept? ==> e.eventRow.status == if e.fan == map[] then NO_SUBSCRIBERS else EVENT_PENDING
    ensures EventsOk(s'.db)
  {
    hide RowsOk, Tame, Written, Accepted, Pruned, Agrees;
    match e
    case Nothing =>
    case Remark(t, ticket) =>
      forall ev | ev in s'.db.events ensures Agrees(s'.db, ev) {
        assert Agrees(s.db, ev);
        RemarkAgrees(s, s', t, ticket, ev);
      }
    case Prune => PrunedEvents(s, s');
    case Accept(_, _, _, _, _) => AcceptedEvents(s, s', e);
    case _ => WrittenEvents(s, s', e);
  }

  lemma RemarkAgrees(s: State, s': State, t: Id, ticket: Ticket, ev: Id)
    requires Remarked(s, s', t, ticket) && ev in s.db.events && Agrees(s.db, ev)
    ensures ev in s'.db.events && Agrees(s'.db, ev)
  {
    SameStatuses(s.db, s'.db, ev);
  }

  // ---------------------------------------------------------------- live workers

  /** Retention never deletes the row of a live worker. */
  lemma LiveRowStays(s: State, s': State, d: Id)
    requires RowsOk(s) && EventsOk(s.db) && Pruned(s, s')
    requires d in s.db.deliveries && !s.db.deliveries[d].status.Terminal()
    ensures d in s'.db.deliveries && s'.db.deliveries[d] == s.db.deliveries[d]
  {
    var ev := s.db.deliveries[d].event;
    StatusIn(s.db, d);
    assert Agrees(s.db, ev);
    Unfinished(DeliveryStatuses(s.db, ev), s.db.deliveries[d].status);
    hide DeliveryStatuses;
  }

  /** A row under a live worker is touched by no one else. */
  lemma RowKept(s: State, s': State, e: Effect, worker: Worker)
    requires RowsOk(s) && EventsOk(s.db) && Fits(s, s', e) && worker.Live() && KnowsRow(s, worker)
    requires worker.job.delivery in s.h.records
    requires e.Writes() ==> e.d != worker.job.delivery
    ensures KnowsRow(s', worker)
  {
    var d := worker.job.delivery;
    if e.Prune? {
      LiveRowStays(s, s', d);
    } else {
      StillThere(s, s', e, d);
      NotAccepted(s, s', e, d);
      SameDelivery(s, s', e, d);
    }
    hide EventsOk, RowsOk, Fits;
  }

  lemma NotAccepted(s: State, s': State, e: Effect, d: Id)
    requires Fits(s, s', e) && d in s.h.records
    ensures !(e.Accept? && d in e.fan)
  {
  }

  // ---------------------------------------------------------------- every step

  /** What a worker's step does to its own slot, and which row it may write. */
  ghost predicate SlotFits(c: Config, s: State, w: nat, step: WorkerStep)
    requires WorkerEnabled(s, w, step)
  {
    var s', e := WorkerNext(c, s, w, step), WorkerEffect(c, s, w, step);
    && (forall v :: v in s'.workers && v != w ==> v in s.workers && s'.workers[v] == s.workers[v])
    && (e.Writes() ==> w in s.workers && s.workers[w].Live() && e.d == s.workers[w].job.delivery)
    && Tame(s, e) && !e.Accept? && !e.Prune? && !e.Restart?
    && (w in s'.workers && s'.workers[w].Live() ==>
          || (step.Take? && s'.workers[w].job == s.queue[step.jobId].job && s'.workers[w].Checked?
              && KnowsRow(s, s'.workers[w]) && e.Nothing?)
          || (step.Claim? && e == Begin(s.workers[w].job.delivery, w) && e.d in s.db.deliveries
              && s'.workers[w] == Sending(s.workers[w].job, s.db.deliveries[e.d].attempts + 1, s'.workers[w].index)))
  }

  lemma RespondSlot(c: Config, s: State, w: nat, step: WorkerStep)
    requires LiveRowsOk(s) && WorkerEnabled(s, w, step) && step.Respond?
    ensures SlotFits(c, s, w, step)
  {
    hide Retry.Decide, Settle;
    var job, attempt := s.workers[w].job, s.workers[w].attempt;
    assert KnowsRow(s, s.workers[w]);
    SettleFrame(s.(workers := s.workers[w := Leaving(job)]), job.delivery, attempt,
                Retry.Decide(c, attempt, step.reply, s.now, step.draw), step.ticket);
  }

  lemma RejectSlot(c: Config, s: State, w: nat, step: WorkerStep)
    requires LiveRowsOk(s) && WorkerEnabled(s, w, step) && step.Reject?
    ensures SlotFits(c, s, w, step)
  {
    hide MarkRateLimitedAndSchedule, RecordOf;
    assert KnowsRow(s, s.workers[w]);
  }

  lemma OtherSlot(c: Config, s: State, w: nat, step: WorkerStep)
    requires LiveRowsOk(s) && WorkerEnabled(s, w, step) && !step.Respond? && !step.Reject?
    ensures SlotFits(c, s, w, step)
  {
    hide MarkTerminal, ClaimForProcessing, RecordOf;
  }

  lemma WorkerSlot(c: Config, s: State, w: nat, step: WorkerStep)
    requires LiveRowsOk(s) && WorkerEnabled(s, w, step)
    ensures SlotFits(c, s, w, step)
  {
    hide *;
    match step
    case Respond(_, _, _) => RespondSlot(c, s, w, step);
    case Reject(_, _) => RejectSlot(c, s, w, step);
    case _ => OtherSlot(c, s, w, step);
  }

  lemma WorkerOrder(c: Config, s: State, w: nat, step: WorkerStep)
    requires InOrder(s) && WorkerEnabled(s, w, step) && OneWorker(s, Work(w, step))
    ensures InOrder(WorkerNext(c, s, w, step))
  {
    hide WorkerNext, WorkerEffect, WorkerEnabled, OneWorker, RowsOk, QueueOk, WorkersOk, PublishersOk, AddedOk, Fits;
    hide Exclusive, LiveRowsOk, EventsOk, Tame;
    WorkersKnown(s);
    WorkerKeeps(c, s, w, step);
    WorkerFits(c, s, w, step);
    WorkerSlot(c, s, w, step);
    WorkerExclusive(c, s, w, step);
    EffectEvents(s, WorkerNext(c, s, w, step), WorkerEffect(c, s, w, step));
    WorkerRows(c, s, w, step);
  }

  lemma WorkerRows(c: Config, s: State, w: nat, step: WorkerStep)
    requires InOrder(s) && WorkerEnabled(s, w, step)
    requires Fits(s, WorkerNext(c, s, w, step), WorkerEffect(c, s, w, step))
    ensures LiveRowsOk(WorkerNext(c, s, w, step))
  {
    var s', e := WorkerNext(c, s, w, step), WorkerEffect(c, s, w, step);
    assert Structured(s) && RowsOk(s) && LiveRowsOk(s) && EventsOk(s.db) && Exclusive(s);
    hide *;
    WorkersKnown(s);
    WorkerSlot(c, s, w, step);
    forall v | v in s'.workers ensures KnowsRow(s', s'.workers[v]) {
      if !s'.workers[v].Live() {
        LeavingKnows(s', s'.workers[v]);
      } else if v != w {
        RowAt(s, v);
        OthersRow(s, v, w);
        RowKept(s, s', e, s.workers[v]);
      } else if step.Take? {
        SameKnowledge(s, s', s'.workers[w]);
      } else {
        BeginRow(s, s', e);
        BeginKnows(s, s', e, s'.workers[w]);
      }
    }
    AllKnow(s');
  }

  lemma LeavingKnows(s: State, worker: Worker)
    requires !worker.Live()
    ensures KnowsRow(s, worker)
  {
  }

  lemma RowAt(s: State, v: nat)
    requires LiveRowsOk(s) && v in s.workers
    ensures KnowsRow(s, s.workers[v])
  {
    hide KnowsRow;
  }

  lemma OthersRow(s: State, v: nat, w: nat)
    requires Exclusive(s) && v in s.workers && s.workers[v].Live() && v != w
    ensures w in s.workers && s.workers[w].Live() ==> s.workers[v].job.delivery != s.workers[w].job.delivery
  {
  }

  lemma SameKnowledge(s: State, s': State, worker: Worker)
    requires Fits(s, s', Nothing) && KnowsRow(s, worker)
    ensures KnowsRow(s', worker)
  {
  }

  lemma BeginRow(s: State, s': State, e: Effect)
    requires Fits(s, s', e) && e.Begin?
    ensures e.d in s.db.deliveries
  {
    hide RecordAfter, RowAfter;
  }

  lemma BeginKnows(s: State, s': State, e: Effect, worker: Worker)
    requires Fits(s, s', e) && e.Begin? && worker.Sending? && worker.job.delivery == e.d
    requires e.d in s.db.deliveries && worker.attempt == s.db.deliveries[e.d].attempts + 1
    ensures KnowsRow(s', worker)
  {
    hide RecordAfter;
  }

  lemma AllKnow(s: State)
    requires forall v :: v in s.workers ==> KnowsRow(s, s.workers[v])
    ensures LiveRowsOk(s)
  {
    hide KnowsRow;
  }

  lemma WorkerExclusive(c: Config, s: State, w: nat, step: WorkerStep)
    requires Exclusive(s) && LiveRowsOk(s) && WorkerEnabled(s, w, step) && OneWorker(s, Work(w, step))
    ensures Exclusive(WorkerNext(c, s, w, step))
  {
    WorkerSlot(c, s, w, step);
    assert step.Take? ==> !LiveOn(s, s.queue[step.jobId].job.delivery);
    assert !step.Take? ==> w in s.workers;
    assert step.Claim? ==> s.workers[w].Live();
    hide WorkerNext, WorkerEffect, WorkerEnabled, KnowsRow, Tame;
  }

  /** Steps that leave the workers alone and write no row under a live one. */
  lemma OtherOrder(s: State, s': State, e: Effect)
    requires InOrder(s) && Structured(s') && Fits(s, s', e) && Tame(s, e) && s'.workers == s.workers
    requires e.Accept? ==> e.eventRow.status == if e.fan == map[] then NO_SUBSCRIBERS else EVENT_PENDING
    requires e.Writes() ==> !LiveOn(s, e.d)
    ensures InOrder(s')
  {
    WorkersKnown(s);
    EffectEvents(s, s', e);
    hide Fits, EventsOk;
    forall v | v in s'.workers ensures KnowsRow(s', s'.workers[v]) {
      if s.workers[v].Live() {
        assert KnowsRow(s, s.workers[v]);
        RowKept(s, s', e, s.workers[v]);
      }
    }
  }

  lemma SweepOrder(c: Config, s: State, m: nat, step: SweepStep)
    requires InOrder(s) && SweepEnabled(c, s, m, step) && OneWorker(s, Maintain(m, step))
    ensures InOrder(SweepNext(c, s, m, step))
  {
    assert Structured(s);
    hide *;
    SweepKeeps(c, s, m, step);
    SweepFits(c, s, m, step);
    SweepFrame(c, s, m, step);
    SweepFacts(c, s, m, step);
    OtherOrder(s, SweepNext(c, s, m, step), SweepEffect(c, s, m, step));
  }

  lemma SweepFacts(c: Config, s: State, m: nat, step: SweepStep)
    requires SweepEnabled(c, s, m, step) && OneWorker(s, Maintain(m, step))
    ensures var e := SweepEffect(c, s, m, step);
      Tame(s, e) && !e.Accept? && (e.Writes() ==> !LiveOn(s, e.d))
  {
    hide LiveOn, Fresh;
  }

  lemma ReplayOrder(s: State, r: nat, step: ReplayStep)
    requires InOrder(s) && ReplayEnabled(s, r, step) && OneWorker(s, Replay(r, step))
    ensures InOrder(ReplayNext(s, r, step))
  {
    assert RowsOk(s) && Structured(s);
    hide *;
    RowsKnown(s);
    ReplayKeeps(s, r, step);
    ReplayFits(s, r, step);
    ReplayFrame(s, r, step);
    ReplayFacts(s, r, step);
    OtherOrder(s, ReplayNext(s, r, step), ReplayEffect(s, r, step));
  }

  lemma ReplayFacts(s: State, r: nat, step: ReplayStep)
    requires ReplayEnabled(s, r, step) && OneWorker(s, Replay(r, step))
    ensures var e := ReplayEffect(s, r, step);
      Tame(s, e) && !e.Accept? && (e.Writes() ==> !LiveOn(s, e.d))
  {
    hide LiveOn, Fresh;
  }

  lemma PlainFacts(c: Config, s: State, a: Action)
    requires Enabled(c, s, a) && !a.Work? && !a.Maintain? && !a.Replay?
    ensures var s', e := Next(c, s, a), EffectOf(c, s, a);
      && s'.workers == s.workers && !e.Writes()
      && (e.Accept? ==> e.eventRow.status == if e.fan == map[] then NO_SUBSCRIBERS else EVENT_PENDING)
  {
    hide *;
    StepIs(c, s, a);
    PlainEffect(c, s, a);
    if a.Publisher? {
      PublisherFrame(s, a.p, a.publishing);
    } else if a.Queue? {
      QueueFrame(s, a.jobId, a.queueing);
    } else {
      PlainFrame(c, s, a);
    }
  }

  lemma PlainEffect(c: Config, s: State, a: Action)
    requires Enabled(c, s, a) && !a.Work? && !a.Maintain? && !a.Replay?
    ensures var e := EffectOf(c, s, a);
      !e.Writes() && (e.Accept? ==> e.eventRow.status == if e.fan == map[] then NO_SUBSCRIBERS else EVENT_PENDING)
  {
    hide Next, CanIngest, OldestDue;
  }

  lemma PlainOrder(c: Config, s: State, a: Action)
    requires InOrder(s) && Enabled(c, s, a) && !a.Work? && !a.Maintain? && !a.Replay?
    ensures InOrder(Next(c, s, a))
  {
    hide Next, EffectOf, Enabled, Fits, RowsOk, QueueOk, WorkersOk, PublishersOk, AddedOk, LiveRowsOk, Exclusive,
      EventsOk;
    StructureStep(c, s, a);
    RowsStep(c, s, a);
    PlainFacts(c, s, a);
    OtherOrder(s, Next(c, s, a), EffectOf(c, s, a));
  }

  lemma OrderStep(c: Config, s: State, a: Action)
    requires InOrder(s) && Enabled(c, s, a) && OneWorker(s, a)
    ensures InOrder(Next(c, s, a))
  {
    hide InOrder, OneWorker, PublisherEnabled, WorkerEnabled, SweepEnabled, ReplayEnabled;
    match a
    case Work(w, step) => WorkerOrder(c, s, w, step);
    case Maintain(m, step) => SweepOrder(c, s, m, step);
    case Replay(r, step) => ReplayOrder(s, r, step);
    case _ => PlainOrder(c, s, a);
  }

  lemma {:induction false} RunInOrder(c: Config, states: seq<State>, actions: seq<Action>, i: nat)
    requires OrderlyRun(c, states, actions) && i < |states|
    ensures InOrder(states[i])
  {
    if i > 0 {
      RunInOrder(c, states, actions, i - 1);
      OrderStep(c, states[i - 1], actions[i - 1]);
    }
  }
}
