/** What an action does to rows and history, once its conditions are resolved.
    Every action has one of these effects, so what the effects keep, every action
    keeps. */
module Effects {
  import opened Domain
  import opened Transactions
  import opened Protocol
  import Retry

  /** No row changes, and of the history at most the jobs added. */
  ghost predicate Untouched(s: State, s': State) {
    && s'.db == s.db
    && s'.h == s.h.(added := s'.h.added)
    && s.h.added <= s'.h.added
    && s.now <= s'.now
  }

  /** Only the publication columns of outbox row `t` change. */
  ghost predicate Remarked(s: State, s': State, t: Id, ticket: Ticket) {
    && t in s.db.outbox
    && SameOrder(s.db.outbox[t], ticket)
    && s'.db == s.db.(outbox := s.db.outbox[t := ticket])
    && s'.h == s.h
    && s'.now == s.now
  }

  predicate SameOrder(old_: Ticket, new_: Ticket) {
    && new_ == old_.(publishedAt := new_.publishedAt, publishes := new_.publishes)
    && old_.publishes <= new_.publishes
  }

  /** Rows disappear and nothing else changes. */
  ghost predicate Pruned(s: State, s': State) {
    && Submap(s'.db.events, s.db.events)
    && Submap(s'.db.deliveries, s.db.deliveries)
    && Submap(s'.db.outbox, s.db.outbox)
    && (forall d :: d in s'.db.deliveries && s.db.deliveries[d].event in s.db.events ==>
         s.db.deliveries[d].event in s'.db.events)
    && (forall d :: d in s.db.deliveries && s.db.deliveries[d].event in s'.db.events ==> d in s'.db.deliveries)
    && (forall t :: t in s.db.outbox && t !in s'.db.outbox ==>
          s.db.outbox[t].publishedAt.Some? || s.db.outbox[t].delivery !in s'.db.deliveries)
    && (forall e :: e in s.db.events && e !in s'.db.events ==> s.db.events[e].status in {EVENT_DONE, EVENT_FAILED})
    && (forall t :: t in s'.db.outbox && s.db.outbox[t].delivery in s.db.deliveries ==>
         s.db.outbox[t].delivery in s'.db.deliveries)
    && s'.h == s.h
    && s'.now == s.now
  }

  ghost predicate Submap<K, V>(m: map<K, V>, n: map<K, V>) {
    forall k :: k in m ==> k in n && m[k] == n[k]
  }

  datatype Effect =
    | Nothing
    | Remark(t: Id, ticket: Ticket)
    | Prune
    | Accept(event: Id, eventRow: Event, fan: map<Id, Id>, first: map<Id, Id>, owner: map<Id, Id>)
    | Terminate(d: Id, status: DeliveryStatus)
    | Begin(d: Id, w: nat)
    | Defer(d: Id, number: nat, at: int, t: Id)
    | Reschedule(d: Id, attempt: nat, at: int, t: Id)
    | Revive(d: Id, attemptsRead: nat, t: Id)
    | Restart(d: Id, t: Id)
  {
    /** The effects that write one delivery row ... */
    predicate Writes() { Terminate? || Begin? || Issues() }

    /** ... and, among them, those that also create an outbox row. */
    predicate Issues() { Defer? || Reschedule? || Revive? || Restart? }

    function Number(): nat
      requires Issues()
    {
      match this
      case Defer(_, number, _, _) => number
      case Reschedule(_, attempt, _, _) => attempt + 1
      case Revive(_, attemptsRead, _) => attemptsRead + 1
      case Restart(_, _) => 1
    }

    function AvailableAt(now: int): int
      requires Issues()
    {
      if Defer? || Reschedule? then at else now
    }
  }

  function RowAfter(row: Delivery, e: Effect, now: int): Delivery
    requires e.Writes()
  {
    match e
    case Terminate(_, status) => row.(status := status, nextAttemptAt := None)
    case Begin(_, _) => row.(status := PROCESSING, attempts := row.attempts + 1, lastAttemptAt := Some(now),
      nextAttemptAt := None)
    case Defer(_, _, at, _) => row.(status := PENDING, nextAttemptAt := Some(at))
    case Reschedule(_, _, at, _) => row.(status := FAILED, nextAttemptAt := Some(at))
    case Revive(_, _, _) => row.(status := FAILED, nextAttemptAt := Some(now))
    case Restart(_, _) => row.(status := PENDING, attempts := 0, lastAttemptAt := None, nextAttemptAt := Some(now))
  }

  function RecordAfter(r: Record, row: Delivery, e: Effect, now: int): Record
    requires e.Writes()
  {
    match e
    case Terminate(_, _) => r
    case Begin(_, w) => r.(sends := r.sends + [Send(r.epoch, row.attempts + 1, w, now)])
    case Defer(_, _, _, t) => r.(current := t)
    case Reschedule(_, attempt, at, t) => r.(notBefore := r.notBefore[attempt + 1 := at], current := t)
    case Revive(_, _, t) => r.(recoveries := r.recoveries + [|r.sends|], current := t)
    case Restart(_, t) => r.(epoch := r.epoch + 1, current := t)
  }

  /** The event table after a delivery's row was written: claims and replays set
      the event's status, outcomes recompute it, and the rest leave it alone. */
  ghost function EventsAfter(db: Tables, e: Effect, now: int): map<Id, Event>
    requires e.Writes() && e.d in db.deliveries
  {
    var event := db.deliveries[e.d].event;
    match e
    case Terminate(_, _) => RefreshEventStatus(SetDelivery(db, e.d, RowAfter(db.deliveries[e.d], e, now)), event,
      now).events
    case Begin(_, _) => SetEventStatus(db, event, EVENT_PROCESSING, now).events
    case Restart(_, _) => SetEventStatus(db, event, EVENT_PROCESSING, now).events
    case _ => db.events
  }

  /** Delivery `e.d` is written; its event's status and date may be. */
  ghost predicate Written(s: State, s': State, e: Effect)
    requires e.Writes()
  {
    && e.d in s.db.deliveries && e.d in s.h.records
    && s'.db.deliveries == s.db.deliveries[e.d := RowAfter(s.db.deliveries[e.d], e, s.now)]
    && s'.db.events == EventsAfter(s.db, e, s.now)
    && s'.db.events.Keys == s.db.events.Keys
    && s'.h.records == s.h.records[e.d := RecordAfter(s.h.records[e.d], s.db.deliveries[e.d], e, s.now)]
    && s'.h.added == s.h.added && s'.h.eventIds == s.h.eventIds
    && s'.now == s.now
    && if e.Issues() then
         && Fresh(s, e.t)
         && s'.db.outbox == s.db.outbox[e.t := NewTicket(e.d, e.Number(), e.AvailableAt(s.now), s.now)]
         && s'.h.issued == s.h.issued[e.t := Order(e.d, e.Number(), e.AvailableAt(s.now))]
       else
         s'.db.outbox == s.db.outbox && s'.h.issued == s.h.issued
  }

  /** An accepted event with a pending delivery and a first order for each
      endpoint in `fan`; every old row and record is kept. */
  ghost predicate Accepted(s: State, s': State, e: Effect)
    requires e.Accept?
  {
    && s'.now == s.now
    && s'.h.added == s.h.added
    && e.event !in s.db.events && e.event !in s.h.eventIds
    && s'.db.events == s.db.events[e.event := e.eventRow]
    && s'.h.eventIds == s.h.eventIds + {e.event}
    && FreshFan(s, e)
    && Extends(s.db.deliveries, s'.db.deliveries, e.fan.Keys)
    && Extends(s.db.outbox, s'.db.outbox, e.owner.Keys)
    && Extends(s.h.issued, s'.h.issued, e.owner.Keys)
    && Extends(s.h.records, s'.h.records, e.fan.Keys)
    && (forall d :: d in e.fan ==> s'.db.deliveries[d] == NewDelivery(e.event, e.fan[d]))
    && (forall d :: d in e.fan ==> s'.h.records[d] == Record(0, [], [], map[], e.first[d]))
    && (forall t :: t in e.owner ==> s'.db.outbox[t] == NewTicket(e.owner[t], 1, s.now, s.now))
    && (forall t :: t in e.owner ==> s'.h.issued[t] == Order(e.owner[t], 1, s.now))
  }

  /** The ids are new, and `first` and `owner` pair deliveries with outbox rows. */
  ghost predicate FreshFan(s: State, e: Effect)
    requires e.Accept?
  {
    && e.first.Keys == e.fan.Keys
    && e.fan.Keys !! s.h.records.Keys && e.fan.Keys !! s.db.deliveries.Keys
    && e.owner.Keys !! s.h.issued.Keys && e.owner.Keys !! s.db.outbox.Keys
    && (forall d :: d in e.first ==> e.first[d] in e.owner && e.owner[e.first[d]] == d)
    && (forall t :: t in e.owner ==> e.owner[t] in e.first && e.first[e.owner[t]] == t)
  }

  /** `m'` is `m` with values for the keys `ks` added. */
  ghost predicate Extends<K, V>(m: map<K, V>, m': map<K, V>, ks: set<K>) {
    && m'.Keys == m.Keys + ks
    && forall k :: k in m && k !in ks ==> m'[k] == m[k]
  }

  ghost predicate Fits(s: State, s': State, e: Effect) {
    match e
    case Nothing => Untouched(s, s')
    case Remark(t, ticket) => Remarked(s, s', t, ticket)
    case Prune => Pruned(s, s')
    case Accept(_, _, _, _, _) => Accepted(s, s', e)
    case _ => Written(s, s', e)
  }

  ghost function PublisherEffect(s: State, p: nat, step: PublisherStep): Effect
    requires PublisherEnabled(s, p, step)
  {
    match step
    case MarkRow =>
      var t := s.publishers[p].rows[0].outbox;
      if t in s.db.outbox then Remark(t, s.db.outbox[t].(publishedAt := Some(s.now))) else Nothing
    case FailRow =>
      var t := s.publishers[p].rows[0].outbox;
      if t in s.db.outbox then Remark(t, s.db.outbox[t].(publishes := s.db.outbox[t].publishes + 1)) else Nothing
    case _ => Nothing
  }

  function WorkerEffect(c: Config, s: State, w: nat, step: WorkerStep): Effect
    requires WorkerEnabled(s, w, step)
  {
    match step
    case Cancel =>
      var d := s.workers[w].job.delivery;
      if d in s.db.deliveries then Terminate(d, CANCELLED) else Nothing
    case Reject(delay, ticket) =>
      var job := s.workers[w].job;
      if job.delivery in s.db.deliveries then Defer(job.delivery, job.expected, s.now + delay, ticket) else Nothing
    case Claim =>
      var job := s.workers[w].job;
      if CanClaim(s.db, job.delivery, job.expected) then Begin(job.delivery, w) else Nothing
    case Respond(reply, draw, ticket) =>
      var d, attempt := s.workers[w].job.delivery, s.workers[w].attempt;
      SettleEffect(s, d, attempt, Retry.Decide(c, attempt, reply, s.now, draw), ticket)
    case _ => Nothing
  }

  ghost function SweepEffect(c: Config, s: State, m: nat, step: SweepStep): Effect
    requires SweepEnabled(c, s, m, step)
  {
    match step
    case ReopenOne =>
      var t := s.sweeps[m].published[0].0;
      if t in s.db.outbox
      then Remark(t, s.db.outbox[t].(publishedAt := None, publishes := s.db.outbox[t].publishes + 1))
      else Nothing
    case RecoverOne(ticket) =>
      var (d, attemptsRead) := s.sweeps[m].found[0];
      if IsStale(s.db, d, s.sweeps[m].cutoff) then Revive(d, attemptsRead, ticket) else Nothing
    case _ => Nothing
  }

  function ReplayEffect(s: State, r: nat, step: ReplayStep): Effect
    requires ReplayEnabled(s, r, step)
  {
    match step
    case ResetRow(ticket) => if s.replays[r] in s.db.deliveries then Restart(s.replays[r], ticket) else Nothing
    case _ => Nothing
  }

  /** The effect of an action in a state. */
  ghost function EffectOf(c: Config, s: State, a: Action): Effect
    requires Enabled(c, s, a)
  {
    match a
    case Ingest(event, tenant, key, eventType, fan, first, owner) =>
      Accept(event, Event(tenant, key, eventType, if fan == map[] then NO_SUBSCRIBERS else EVENT_PENDING, s.now),
        fan, first, owner)
    case Publisher(p, step) => PublisherEffect(s, p, step)
    case Work(w, step) => WorkerEffect(c, s, w, step)
    case Maintain(m, step) => SweepEffect(c, s, m, step)
    case CleanOutbox => Prune
    case CleanEvents => Prune
    case Replay(r, step) => ReplayEffect(s, r, step)
    case _ => Nothing
  }

  function SettleEffect(s: State, d: Id, attempt: nat, decision: Retry.Decision, ticket: Id): Effect {
    if d !in s.db.deliveries then Nothing
    else
      match decision
      case Succeed => Terminate(d, SUCCESS)
      case GiveUp => Terminate(d, DLQ)
      case RetryAt(at) => Reschedule(d, attempt, at, ticket)
  }

  // ---------------------------------------------------------------- every action has its effect

  lemma MarkTerminalFrame(db: Tables, id: Id, status: DeliveryStatus, now: int)
    requires id in db.deliveries
    ensures var db' := MarkTerminal(db, id, status, now);
      && db'.deliveries == db.deliveries[id := db.deliveries[id].(status := status, nextAttemptAt := None)]
      && db'.outbox == db.outbox
      && db'.events == RefreshEventStatus(SetDelivery(db, id,
           db.deliveries[id].(status := status, nextAttemptAt := None)),
                                          db.deliveries[id].event, now).events
      && db'.events.Keys == db.events.Keys
  {
  }

  lemma IngestFits(c: Config, s: State, a: Action)
    requires a.Ingest? && Enabled(c, s, a)
    ensures Fits(s, Next(c, s, a), EffectOf(c, s, a))
  {
    hide DoIngest, CanIngest, Accepted;
    var row := Event(a.tenant, a.key, a.eventType, if a.fan == map[] then NO_SUBSCRIBERS else EVENT_PENDING, s.now);
    AcceptFits(s, a.event, a.tenant, a.key, a.eventType, row, a.fan, a.first, a.owner);
  }

  lemma AcceptFits(s: State, event: Id, tenant: Id, key: string, eventType: string, row: Event,
                   fan: map<Id, Id>, first: map<Id, Id>, owner: map<Id, Id>)
    requires CanIngest(s, event, tenant, key, fan, first, owner)
    requires row == Event(tenant, key, eventType, if fan == map[] then NO_SUBSCRIBERS else EVENT_PENDING, s.now)
    ensures Accepted(s, DoIngest(s, event, tenant, key, eventType, fan, first, owner),
      Accept(event, row, fan, first, owner))
  {
    hide NewDeliveries, FirstTickets, FirstOrders, FirstRecords, FreshFan, Extends;
    FanIsFresh(s, event, tenant, key, row, fan, first, owner);
    FirstRows(event, fan, first, owner, s.now);
    hide CanIngest;
    UnionExtends(s.db.deliveries, NewDeliveries(event, fan));
    UnionExtends(s.db.outbox, FirstTickets(owner, s.now));
    UnionExtends(s.h.issued, FirstOrders(owner, s.now));
    UnionExtends(s.h.records, FirstRecords(first));
  }

  lemma FanIsFresh(s: State, event: Id, tenant: Id, key: string, row: Event, fan: map<Id, Id>, first: map<Id, Id>,
      owner: map<Id, Id>)
    requires CanIngest(s, event, tenant, key, fan, first, owner)
    ensures FreshFan(s, Accept(event, row, fan, first, owner))
    ensures event !in s.db.events && event !in s.h.eventIds
  {
  }

  lemma FirstRows(event: Id, fan: map<Id, Id>, first: map<Id, Id>, owner: map<Id, Id>, now: int)
    ensures NewDeliveries(event, fan).Keys == fan.Keys && FirstTickets(owner, now).Keys == owner.Keys
    ensures FirstOrders(owner, now).Keys == owner.Keys && FirstRecords(first).Keys == first.Keys
    ensures forall d :: d in fan ==> NewDeliveries(event, fan)[d] == NewDelivery(event, fan[d])
    ensures forall t :: t in owner ==> FirstTickets(owner, now)[t] == NewTicket(owner[t], 1, now, now)
    ensures forall t :: t in owner ==> FirstOrders(owner, now)[t] == Order(owner[t], 1, now)
    ensures forall d :: d in first ==> FirstRecords(first)[d] == Record(0, [], [], map[], first[d])
  {
  }

  lemma UnionExtends<K, V>(m: map<K, V>, n: map<K, V>)
    ensures Extends(m, m + n, n.Keys)
    ensures forall k :: k in n ==> (m + n)[k] == n[k]
  {
  }

  lemma CancelWrites(s: State, w: nat)
    requires w in s.workers && s.workers[w].job.delivery in s.h.records
    ensures var d := s.workers[w].job.delivery;
      Fits(s, DoCancel(s, w), if d in s.db.deliveries then Terminate(d, CANCELLED) else Nothing)
  {
  }

  lemma RejectWrites(s: State, w: nat, delay: nat, ticket: Id)
    requires w in s.workers && s.workers[w].job.delivery in s.h.records && Fresh(s, ticket)
    ensures var job := s.workers[w].job;
      Fits(s, DoReject(s, w, delay, ticket),
           if job.delivery in s.db.deliveries
           then Defer(job.delivery, job.expected, s.now + delay, ticket) else Nothing)
  {
  }

  lemma ClaimWrites(s: State, w: nat)
    requires w in s.workers && s.workers[w].job.delivery in s.h.records
    ensures var job := s.workers[w].job;
      Fits(s, DoClaim(s, w), if CanClaim(s.db, job.delivery, job.expected) then Begin(job.delivery, w) else Nothing)
  {
  }

  lemma RecoverWrites(s: State, m: nat, ticket: Id)
    requires m in s.sweeps && s.sweeps[m].Stale? && |s.sweeps[m].found| > 0 && Fresh(s, ticket)
    requires forall d :: d in s.db.deliveries ==> d in s.h.records
    ensures var (d, attemptsRead) := s.sweeps[m].found[0];
      Fits(s, DoRecoverOne(s, m, ticket),
           if IsStale(s.db, d, s.sweeps[m].cutoff) then Revive(d, attemptsRead, ticket) else Nothing)
  {
  }

  lemma ReplayWrites(s: State, r: nat, ticket: Id)
    requires r in s.replays && Fresh(s, ticket)
    requires forall d :: d in s.db.deliveries ==> d in s.h.records
    ensures Fits(s, DoReplay(s, r, ticket),
                 if s.replays[r] in s.db.deliveries then Restart(s.replays[r], ticket) else Nothing)
  {
  }

  lemma SettleFits(s: State, d: Id, attempt: nat, decision: Retry.Decision, ticket: Id)
    requires Fresh(s, ticket) && d in s.h.records
    ensures var s' := Settle(s, d, attempt, decision, ticket);
      Fits(s, s', SettleEffect(s, d, attempt, decision, ticket)) && s' == s.(db := s'.db, h := s'.h)
  {
    if d in s.db.deliveries {
      MarkTerminalFrame(s.db, d, SUCCESS, s.now);
      MarkTerminalFrame(s.db, d, DLQ, s.now);
      hide MarkTerminal;
    }
  }

  lemma FitsSameRows(s: State, t: State, s': State, e: Effect)
    requires t == s.(workers := t.workers) && Fits(t, s', e)
    ensures Fits(s, s', e)
  {
  }

  lemma RespondWrites(c: Config, s: State, w: nat, step: WorkerStep)
    requires step.Respond? && WorkerEnabled(s, w, step) && s.workers[w].job.delivery in s.h.records
    ensures Fits(s, WorkerNext(c, s, w, step), WorkerEffect(c, s, w, step))
  {
    var job, attempt := s.workers[w].job, s.workers[w].attempt;
    var mid := s.(workers := s.workers[w := Leaving(job)]);
    var decision := Retry.Decide(c, attempt, step.reply, s.now, step.draw);
    hide Settle, Retry.Decide, Fits;
    assert WorkerNext(c, s, w, step) == Settle(mid, job.delivery, attempt, decision, step.ticket);
    assert WorkerEffect(c, s, w, step) == SettleEffect(mid, job.delivery, attempt, decision, step.ticket);
    SettleFits(mid, job.delivery, attempt, decision, step.ticket);
    FitsSameRows(s, mid, WorkerNext(c, s, w, step), WorkerEffect(c, s, w, step));
  }

  lemma PublisherFits(s: State, p: nat, step: PublisherStep)
    requires PublisherEnabled(s, p, step)
    ensures Fits(s, PublisherNext(s, p, step), PublisherEffect(s, p, step))
  {
  }

  lemma WorkerFits(c: Config, s: State, w: nat, step: WorkerStep)
    requires WorkerEnabled(s, w, step)
    requires forall w :: w in s.workers ==> s.workers[w].job.delivery in s.h.records
    ensures Fits(s, WorkerNext(c, s, w, step), WorkerEffect(c, s, w, step))
  {
    hide DoCancel, DoReject, DoClaim, DoRespond, Retry.Decide;
    match step
    case Cancel => CancelWrites(s, w);
    case Reject(delay, ticket) => RejectWrites(s, w, delay, ticket);
    case Claim => ClaimWrites(s, w);
    case Respond(_, _, _) => RespondWrites(c, s, w, step);
    case _ =>
  }

  lemma SweepFits(c: Config, s: State, m: nat, step: SweepStep)
    requires SweepEnabled(c, s, m, step)
    requires forall d :: d in s.db.deliveries ==> d in s.h.records
    ensures Fits(s, SweepNext(c, s, m, step), SweepEffect(c, s, m, step))
  {
    match step
    case RecoverOne(ticket) =>
      RecoverWrites(s, m, ticket);
      hide DoRecoverOne;
    case _ =>
  }

  lemma ReplayFits(s: State, r: nat, step: ReplayStep)
    requires ReplayEnabled(s, r, step)
    requires forall d :: d in s.db.deliveries ==> d in s.h.records
    ensures Fits(s, ReplayNext(s, r, step), ReplayEffect(s, r, step))
  {
    match step
    case ResetRow(ticket) =>
      ReplayWrites(s, r, ticket);
      hide DoReplay;
    case _ =>
  }

  /** The effect of an action is what it does. */
  lemma HasEffect(c: Config, s: State, a: Action)
    requires Enabled(c, s, a)
    requires forall d :: d in s.db.deliveries ==> d in s.h.records
    requires forall w :: w in s.workers ==> s.workers[w].job.delivery in s.h.records
    ensures Fits(s, Next(c, s, a), EffectOf(c, s, a))
  {
    match a
    case Ingest(_, _, _, _, _, _, _) => IngestFits(c, s, a);
    case Publisher(p, step) => PublisherFits(s, p, step);
    case Work(w, step) => WorkerFits(c, s, w, step);
    case Maintain(m, step) => SweepFits(c, s, m, step);
    case Replay(r, step) => ReplayFits(s, r, step);
    case _ =>
  }

  /** A delivery that an effect neither writes nor creates. */
  lemma SameDelivery(s: State, s': State, e: Effect, d: Id)
    requires Fits(s, s', e) && d in s'.db.deliveries && !(e.Writes() && e.d == d) && !(e.Accept? && d in e.fan)
    ensures d in s.db.deliveries && s'.db.deliveries[d] == s.db.deliveries[d]
    ensures d in s.h.records ==> RecordOf(s'.h, d) == RecordOf(s.h, d)
  {
    hide RowAfter, RecordAfter, EventsAfter;
  }

  /** Only retention removes a row. */
  lemma StillThere(s: State, s': State, e: Effect, d: Id)
    requires Fits(s, s', e) && d in s.db.deliveries && !e.Prune?
    ensures d in s'.db.deliveries
  {
    hide RowAfter, RecordAfter, EventsAfter;
  }
}
