/** The guarantees under assumption X, for every run with at most one live worker
    per delivery: cached event statuses, retention, and terminal rows.  Where a
    guarantee fails without X, the exact steps that break it. */
module Agreement {
  import opened Domain
  import opened Transactions
  import EventStatusPolicy
  import opened Protocol
  import opened Effects
  import opened Structure
  import opened Orderly
  import Retry

  // ---------------------------------------------------------------- cached status

  /** In every reachable state an event's cached status agrees with the fold over
      its deliveries, although retries, rate limiting and recovery never refresh
      it: NO_SUBSCRIBERS exactly without deliveries, PENDING only while nothing
      was tried, and otherwise the computed status, in whatever order the
      statuses are listed: processed while a delivery is unfinished, done if all
      succeeded, failed if all are finished and one did not succeed. */
  lemma CachedStatusAgrees(c: Config, states: seq<State>, actions: seq<Action>, i: nat, e: Id,
      statuses: seq<DeliveryStatus>)
    requires OrderlyRun(c, states, actions) && i < |states| && e in states[i].db.events
    requires (set s | s in statuses) == DeliveryStatuses(states[i].db, e)
    ensures var db, status := states[i].db, states[i].db.events[e].status;
      && (status.NO_SUBSCRIBERS? <==> forall d :: d in db.deliveries ==> db.deliveries[d].event != e)
      && (status.EVENT_PENDING? ==> forall d :: d in db.deliveries && db.deliveries[d].event == e ==>
           Untried(db.deliveries[d]))
      && (!status.NO_SUBSCRIBERS? && !status.EVENT_PENDING? ==>
           status == EventStatusPolicy.CalculateEventStatus(statuses) && StatusFits(db, e, status))
  {
    RunInOrder(c, states, actions, i);
    EventStatusPolicy.OrderIsIrrelevant(statuses);
    var db := states[i].db;
    assert Agrees(db, e);
    if d :| d in db.deliveries && db.deliveries[d].event == e {
      StatusIn(db, d);
    }
    PolicyFits(db, e, db.events[e].status);
  }

  // ---------------------------------------------------------------- retention

  /** Whatever step removes a delivery, retention included, the delivery had
      reached a terminal status. */
  lemma OnlyFinishedRowsGo(c: Config, states: seq<State>, actions: seq<Action>, i: nat, d: Id)
    requires OrderlyRun(c, states, actions) && i < |actions|
    requires d in states[i].db.deliveries && d !in states[i + 1].db.deliveries
    ensures states[i].db.deliveries[d].status.Terminal()
  {
    RunInOrder(c, states, actions, i);
    RowsStep(c, states[i], actions[i]);
    RowGone(states[i], Next(c, states[i], actions[i]), EffectOf(c, states[i], actions[i]), d);
    hide Next, EffectOf, Enabled;
  }

  lemma RowGone(s: State, s': State, e: Effect, d: Id)
    requires InOrder(s) && Fits(s, s', e)
    requires d in s.db.deliveries && d !in s'.db.deliveries
    ensures s.db.deliveries[d].status.Terminal()
  {
    if e.Prune? && !s.db.deliveries[d].status.Terminal() {
      LiveRowStays(s, s', d);
    }
  }

  // ---------------------------------------------------------------- terminal rows

  /** A terminal row is never written again, whatever duplicate or stale jobs are
      processed, except by a replay of a delivery that did not succeed. */
  lemma TerminalRowsStay(c: Config, states: seq<State>, actions: seq<Action>, i: nat, d: Id)
    requires OrderlyRun(c, states, actions) && i < |actions|
    requires d in states[i].db.deliveries && d in states[i + 1].db.deliveries
    requires states[i].db.deliveries[d].status.Terminal()
    ensures var row, row', a := states[i].db.deliveries[d], states[i + 1].db.deliveries[d], actions[i];
      || row' == row
      || (a.Replay? && a.replaying.ResetRow? && states[i].replays[a.r] == d && !row.status.SUCCESS?
          && row'.status.PENDING? && row'.attempts == 0)
  {
    var s, a := states[i], actions[i];
    RunInOrder(c, states, actions, i);
    RowsStep(c, s, a);
    WrittenBy(c, s, a);
    RowWritten(s, Next(c, s, a), EffectOf(c, s, a), d);
    hide Next, EffectOf, Enabled;
  }

  /** Which effects an orderly step can have on which rows. */
  lemma WrittenBy(c: Config, s: State, a: Action)
    requires InOrder(s) && Enabled(c, s, a) && OneWorker(s, a)
    ensures var e := EffectOf(c, s, a);
      e.Writes() && e.d in s.db.deliveries && s.db.deliveries[e.d].status.Terminal() ==>
        && e.Restart? && a.Replay? && a.replaying.ResetRow? && e.d == s.replays[a.r]
        && !s.db.deliveries[e.d].status.SUCCESS?
  {
    hide InOrder;
    match a
    case Work(w, step) => WorkerWrites(c, s, w, step);
    case Maintain(m, step) =>
    case Replay(r, step) =>
    case _ => hide OneWorker;
  }

  lemma WorkerWrites(c: Config, s: State, w: nat, step: WorkerStep)
    requires InOrder(s) && WorkerEnabled(s, w, step)
    ensures var e := WorkerEffect(c, s, w, step);
      e.Writes() && e.d in s.db.deliveries ==> !s.db.deliveries[e.d].status.Terminal()
  {
    WorkerSlot(c, s, w, step);
    assert w in s.workers ==> KnowsRow(s, s.workers[w]);
    hide WorkerEffect, WorkerNext, Structured, Exclusive, EventsOk;
  }

  lemma RowWritten(s: State, s': State, e: Effect, d: Id)
    requires Structured(s) && Fits(s, s', e) && d in s.db.deliveries && d in s'.db.deliveries
    ensures s'.db.deliveries[d]
      == if e.Writes() && e.d == d then RowAfter(s.db.deliveries[d], e, s.now) else s.db.deliveries[d]
  {
  }

  /** A delivery id is never reused. */
  lemma RowsAreNotReborn(c: Config, s: State, a: Action, d: Id)
    requires InOrder(s) && Enabled(c, s, a) && d in s.h.records && d !in s.db.deliveries
    ensures d !in Next(c, s, a).db.deliveries && d in Next(c, s, a).h.records
  {
    RowsStep(c, s, a);
    NotReborn(s, Next(c, s, a), EffectOf(c, s, a), d);
    hide Next, EffectOf, Enabled;
  }

  lemma NotReborn(s: State, s': State, e: Effect, d: Id)
    requires Fits(s, s', e) && Grows(s, s') && d in s.h.records && d !in s.db.deliveries
    ensures d !in s'.db.deliveries && d in s'.h.records
  {
  }

  lemma {:induction false} GoneStaysGone(c: Config, states: seq<State>, actions: seq<Action>, i: nat, j: nat, d: Id)
    requires OrderlyRun(c, states, actions) && i <= j < |states|
    requires d in states[i].h.records && d !in states[i].db.deliveries
    ensures d in states[j].h.records && d !in states[j].db.deliveries
    decreases j
  {
    hide Next, Enabled, OneWorker, InOrder, Init;
    if i < j {
      GoneStaysGone(c, states, actions, i, j - 1, d);
      RunInOrder(c, states, actions, j - 1);
      RowsAreNotReborn(c, states[j - 1], actions[j - 1], d);
    }
  }

  /** A delivered webhook stays delivered: once SUCCESS, the row never changes
      again for as long as it exists. */
  lemma {:induction false} SuccessIsFinal(c: Config, states: seq<State>, actions: seq<Action>, i: nat, j: nat, d: Id)
    requires OrderlyRun(c, states, actions) && i <= j < |states|
    requires d in states[i].db.deliveries && states[i].db.deliveries[d].status.SUCCESS?
    requires d in states[j].db.deliveries
    ensures states[j].db.deliveries[d] == states[i].db.deliveries[d]
    decreases j
  {
    hide Next, Enabled, OneWorker, InOrder, Init;
    if i < j {
      RunInOrder(c, states, actions, j - 1);
      KnownForever(c, states, actions, i, j - 1, d);
      if d !in states[j - 1].db.deliveries {
        GoneStaysGone(c, states, actions, j - 1, j, d);
      } else {
        SuccessIsFinal(c, states, actions, i, j - 1, d);
        TerminalRowsStay(c, states, actions, j - 1, d);
      }
    }
  }

  lemma {:induction false} KnownForever(c: Config, states: seq<State>, actions: seq<Action>, i: nat, j: nat, d: Id)
    requires OrderlyRun(c, states, actions) && i <= j < |states| && d in states[i].db.deliveries
    ensures d in states[j].h.records
    decreases j
  {
    RunInOrder(c, states, actions, i);
    hide Next, Enabled, OneWorker, Init;
    if i < j {
      KnownForever(c, states, actions, i, j - 1, d);
      RunInOrder(c, states, actions, j - 1);
      RowsStep(c, states[j - 1], actions[j - 1]);
    }
  }

  // ---------------------------------------------------------------- without assumption X

  /** The step writes delivery `d` without looking at its status: a rate-limited
      worker puts it back, a sender schedules its retry, or a replay resets it. */
  predicate WritesBlindly(c: Config, s: State, a: Action, d: Id) {
    match a
    case Work(w, Reject(_, _)) => w in s.workers && s.workers[w].job.delivery == d
    case Work(w, Respond(reply, draw, _)) =>
      && w in s.workers && s.workers[w].Sending? && s.workers[w].job.delivery == d && s.workers[w].attempt >= 1
      && Retry.Decide(c, s.workers[w].attempt, reply, s.now, draw).RetryAt?
    case Replay(r, ResetRow(_)) => r in s.replays && s.replays[r] == d
    case _ => false
  }

  /** In the full interleaving a terminal row becomes unfinished exactly by those
      three steps. */
  lemma LeavesTerminalExactly(c: Config, s: State, a: Action, d: Id)
    requires Structured(s) && Enabled(c, s, a)
    requires d in s.db.deliveries && s.db.deliveries[d].status.Terminal()
    ensures (d in Next(c, s, a).db.deliveries && !Next(c, s, a).db.deliveries[d].status.Terminal()) <==>
      WritesBlindly(c, s, a, d)
  {
    hide *;
    RowsStep(c, s, a);
    BlindEffects(c, s, a, d);
    LeftTerminal(s, Next(c, s, a), EffectOf(c, s, a), d);
  }

  lemma LeftTerminal(s: State, s': State, e: Effect, d: Id)
    requires Structured(s) && Fits(s, s', e) && d in s.db.deliveries && s.db.deliveries[d].status.Terminal()
    requires e.Writes() && e.d == d ==> !e.Begin? && !e.Revive? && (e.Terminate? ==> e.status.Terminal())
    ensures (d in s'.db.deliveries && !s'.db.deliveries[d].status.Terminal())
      <==> e.Writes() && e.d == d && (e.Defer? || e.Reschedule? || e.Restart?)
  {
    if d in s'.db.deliveries {
      RowWritten(s, s', e, d);
    }
  }

  lemma BlindEffects(c: Config, s: State, a: Action, d: Id)
    requires Enabled(c, s, a) && d in s.db.deliveries && s.db.deliveries[d].status.Terminal()
    ensures var e := EffectOf(c, s, a);
      && (WritesBlindly(c, s, a, d) <==> e.Writes() && e.d == d && (e.Defer? || e.Reschedule? || e.Restart?))
      && (e.Writes() && e.d == d ==> !e.Begin? && !e.Revive? && (e.Terminate? ==> e.status.Terminal()))
  {
    hide Retry.Decide;
  }

  /** The step puts a delivery back, or schedules its retry, although its event is
      not being processed any more. */
  predicate Outdates(c: Config, s: State, a: Action) {
    match a
    case Work(w, Reject(_, _)) => w in s.workers && EventIs(s.db, s.workers[w].job.delivery, {EVENT_DONE, EVENT_FAILED})
    case Work(w, Respond(reply, draw, _)) =>
      && w in s.workers && s.workers[w].Sending? && s.workers[w].attempt >= 1
      && Retry.Decide(c, s.workers[w].attempt, reply, s.now, draw).RetryAt?
      && EventIs(s.db, s.workers[w].job.delivery, {EVENT_PENDING, EVENT_DONE, EVENT_FAILED})
    case _ => false
  }

  predicate EventIs(db: Tables, d: Id, statuses: set<EventStatus>) {
    && d in db.deliveries
    && db.deliveries[d].event in db.events
    && db.events[db.deliveries[d].event].status in statuses
  }

  /** In the full interleaving the cached statuses stop agreeing with the deliveries
      exactly at a step that reopens a delivery under a settled event. */
  lemma AgreementBreaksExactly(c: Config, s: State, a: Action)
    requires Structured(s) && EventsOk(s.db) && Enabled(c, s, a)
    ensures EventsOk(Next(c, s, a).db) <==> !Outdates(c, s, a)
  {
    var s', e := Next(c, s, a), EffectOf(c, s, a);
    RowsStep(c, s, a);
    SettledEffects(c, s, a);
    hide Next, EffectOf, Enabled, Outdates, Structured, EventsOk, Fits, Tame;
    if e.Defer? || e.Reschedule? {
      PutBack(s, s', e);
    } else {
      EffectEvents(s, s', e);
    }
  }

  lemma SettledEffects(c: Config, s: State, a: Action)
    requires Structured(s) && Enabled(c, s, a)
    ensures var e := EffectOf(c, s, a);
      && RowsOk(s)
      && (e.Defer? ==>
            && e.d in s.db.deliveries
            && (Outdates(c, s, a) <==> EventIs(s.db, e.d, {EVENT_DONE, EVENT_FAILED})))
      && (e.Reschedule? ==>
            && e.d in s.db.deliveries
            && (Outdates(c, s, a) <==> EventIs(s.db, e.d, {EVENT_PENDING, EVENT_DONE, EVENT_FAILED})))
      && (!e.Defer? && !e.Reschedule? ==> !Outdates(c, s, a) && Tame(s, e))
      && (e.Accept? ==> e.eventRow.status == if e.fan == map[] then NO_SUBSCRIBERS else EVENT_PENDING)
  {
    hide Retry.Decide;
  }

  /** A delivery put back to PENDING or FAILED agrees with its event if that is being
      processed, or if it was and is untried. */
  lemma PutBack(s: State, s': State, e: Effect)
    requires RowsOk(s) && EventsOk(s.db) && Fits(s, s', e) && (e.Defer? || e.Reschedule?) && e.d in s.db.deliveries
    ensures EventsOk(s'.db) <==>
      !EventIs(s.db, e.d, if e.Defer? then {EVENT_DONE, EVENT_FAILED} else {EVENT_PENDING, EVENT_DONE, EVENT_FAILED})
  {
    var ev := s.db.deliveries[e.d].event;
    PutBackRow(s, s', e);
    PutBackOwn(s, s', e);
    hide Agrees, RowsOk, Fits;
    forall other | other in s'.db.events && other != ev ensures Agrees(s'.db, other) {
      PutBackOther(s, s', e, other);
    }
  }

  lemma PutBackRow(s: State, s': State, e: Effect)
    requires RowsOk(s) && Fits(s, s', e) && (e.Defer? || e.Reschedule?) && e.d in s.db.deliveries
    ensures s'.db.events == s.db.events && s.db.deliveries[e.d].event in s.db.events && e.d in s'.db.deliveries
    ensures var row, row' := s.db.deliveries[e.d], s'.db.deliveries[e.d];
      && s'.db.deliveries == s.db.deliveries[e.d := row']
      && row'.event == row.event && row'.attempts == row.attempts && row'.status == if e.Defer? then PENDING else FAILED
  {
  }

  lemma PutBackOther(s: State, s': State, e: Effect, other: Id)
    requires RowsOk(s) && EventsOk(s.db) && Fits(s, s', e) && (e.Defer? || e.Reschedule?) && e.d in s.db.deliveries
    requires other in s.db.events && other in s'.db.events && other != s.db.deliveries[e.d].event
    ensures Agrees(s'.db, other)
  {
    OtherAgrees(s, s', e, other);
  }

  lemma PutBackOwn(s: State, s': State, e: Effect)
    requires EventsOk(s.db) && (e.Defer? || e.Reschedule?)
    requires e.d in s.db.deliveries && e.d in s'.db.deliveries && s.db.deliveries[e.d].event in s.db.events
      && s'.db.events == s.db.events
    requires var row, row' := s.db.deliveries[e.d], s'.db.deliveries[e.d];
      && s'.db.deliveries == s.db.deliveries[e.d := row']
      && row'.event == row.event && row'.attempts == row.attempts && row'.status == if e.Defer? then PENDING else FAILED
    ensures Agrees(s'.db, s.db.deliveries[e.d].event) <==>
      s.db.events[s.db.deliveries[e.d].event].status !in if e.Defer? then {EVENT_DONE, EVENT_FAILED}
        else {EVENT_PENDING, EVENT_DONE, EVENT_FAILED}
  {
    var ev := s.db.deliveries[e.d].event;
    assert Agrees(s.db, ev);
    StatusIn(s.db, e.d);
    StatusIn(s'.db, e.d);
    Unfinished(DeliveryStatuses(s'.db, ev), s'.db.deliveries[e.d].status);
    hide DeliveryStatuses;
  }
}
