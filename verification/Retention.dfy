/** What the clean-ups delete, and when: each in the full interleaving, with its time
    written out. */
module Retention {
  import opened Domain
  import opened Transactions
  import opened Protocol
  import opened Effects
  import opened Structure
  import Losses

  // ---------------------------------------------------------------- what goes

  /** The clean-up deletes exactly the rows published more than seven days ago. */
  lemma CleanupDeletesExactly(c: Config, s: State)
    ensures Enabled(c, s, CleanOutbox)
    ensures var s' := Next(c, s, CleanOutbox);
      && s' == s.(db := s.db.(outbox := s'.db.outbox))
      && (forall t :: t in s'.db.outbox <==>
            t in s.db.outbox
            && !(s.db.outbox[t].publishedAt.Some? && s.db.outbox[t].publishedAt.value + 604800000 < s.now))
      && (forall t :: t in s'.db.outbox ==> s'.db.outbox[t] == s.db.outbox[t])
  {
  }

  /** Retention deletes exactly the DONE and FAILED events last written more than
      `retentionDays` days ago, with their deliveries and the rows of these, and nothing
      if it is switched off. */
  lemma RetentionDeletesExactly(c: Config, s: State)
    requires RowsOk(s)
    ensures Enabled(c, s, CleanEvents)
    ensures var s' := Next(c, s, CleanEvents);
      && s' == s.(db := s'.db)
      && (forall e :: e in s'.db.events <==>
            && e in s.db.events
            && !(c.retentionDays > 0 && (s.db.events[e].status == EVENT_DONE || s.db.events[e].status == EVENT_FAILED)
                 && s.db.events[e].updatedAt + c.retentionDays * 86400000 < s.now))
      && (forall d :: d in s'.db.deliveries <==> d in s.db.deliveries && s.db.deliveries[d].event in s'.db.events)
      && (forall t :: t in s'.db.outbox <==> t in s.db.outbox && s.db.outbox[t].delivery in s'.db.deliveries)
      && (forall e :: e in s'.db.events ==> s'.db.events[e] == s.db.events[e])
      && (forall d :: d in s'.db.deliveries ==> s'.db.deliveries[d] == s.db.deliveries[d])
      && (forall t :: t in s'.db.outbox ==> s'.db.outbox[t] == s.db.outbox[t])
  {
  }

  // ---------------------------------------------------------------- how long an event stays

  /** The step claims, ends or replays a delivery of event `e`. */
  ghost predicate WorksOn(c: Config, s: State, a: Action, e: Id)
    requires Enabled(c, s, a)
  {
    var effect := EffectOf(c, s, a);
    && (effect.Begin? || effect.Terminate? || effect.Restart?)
    && effect.d in s.db.deliveries && s.db.deliveries[effect.d].event == e
  }

  /** Such a step dates the event; others leave its row alone, or remove it. */
  lemma EventIsDated(c: Config, s: State, a: Action, e: Id)
    requires Structured(s) && Enabled(c, s, a) && e in s.h.eventIds
    ensures var s' := Next(c, s, a);
      && e in s'.h.eventIds && s.now <= s'.now
      && (e in s'.db.events ==>
            && e in s.db.events
            && (if WorksOn(c, s, a, e) then s'.db.events[e].updatedAt == s.now else s'.db.events[e] == s.db.events[e]))
      && (WorksOn(c, s, a, e) ==> e in s'.db.events)
  {
    var s', effect := Next(c, s, a), EffectOf(c, s, a);
    hide *;
    StructuredRows(s);
    RowsStep(c, s, a);
    WorksIs(c, s, a, e);
    DatedBy(s, s', effect, e);
  }

  lemma WorksIs(c: Config, s: State, a: Action, e: Id)
    requires Enabled(c, s, a)
    ensures var effect := EffectOf(c, s, a);
      WorksOn(c, s, a, e) <==>
        && (effect.Begin? || effect.Terminate? || effect.Restart?)
        && effect.d in s.db.deliveries && s.db.deliveries[effect.d].event == e
  {
  }

  lemma DatedBy(s: State, s': State, effect: Effect, e: Id)
    requires RowsOk(s) && Fits(s, s', effect) && e in s.h.eventIds
    ensures e in s'.h.eventIds
    ensures var works := (effect.Begin? || effect.Terminate? || effect.Restart?) && effect.d in s.db.deliveries
        && s.db.deliveries[effect.d].event == e;
      && (e in s'.db.events ==>
            && e in s.db.events
            && (if works then s'.db.events[e].updatedAt == s.now else s'.db.events[e] == s.db.events[e]))
      && (works ==> e in s'.db.events)
  {
    hide RecordAfter, DeliveryStatuses;
  }

  /** The event's date is never before the last such step. */
  lemma {:induction false} DateGrows(c: Config, states: seq<State>, actions: seq<Action>, i: nat, j: nat, e: Id)
    requires Run(c, states, actions) && i < j < |states| && WorksOn(c, states[i], actions[i], e)
    ensures e in states[j].h.eventIds && states[i].now <= states[j].now
    ensures e in states[j].db.events ==> states[j].db.events[e].updatedAt >= states[i].now
    decreases j
  {
    hide Enabled, Next, Structured, Init, EffectOf;
    Losses.RunStructured(c, states, actions, j - 1);
    if i < j - 1 {
      DateGrows(c, states, actions, i, j - 1, e);
    } else {
      EventIsKnown(c, states[i], actions[i], e);
    }
    EventIsDated(c, states[j - 1], actions[j - 1], e);
  }

  lemma EventIsKnown(c: Config, s: State, a: Action, e: Id)
    requires Structured(s) && Enabled(c, s, a) && WorksOn(c, s, a, e)
    ensures e in s.h.eventIds
  {
    WorksIs(c, s, a, e);
    hide WorksOn, EffectOf, Enabled, QueueOk, WorkersOk, PublishersOk, AddedOk;
  }

  /** Over runs: after a delivery of an event was claimed, ended or replayed, the event is
      deleted only by retention, while it is DONE or FAILED, and more than `retentionDays`
      days later. */
  lemma RecentEventsStay(c: Config, states: seq<State>, actions: seq<Action>, i: nat, j: nat, e: Id)
    requires Run(c, states, actions) && i < j < |actions| && WorksOn(c, states[i], actions[i], e)
    requires e in states[j].db.events && e !in states[j + 1].db.events
    ensures actions[j].CleanEvents? && c.retentionDays > 0
    ensures states[j].db.events[e].status == EVENT_DONE || states[j].db.events[e].status == EVENT_FAILED
    ensures states[j].now - states[i].now > c.retentionDays * 86400000
  {
    assert Enabled(c, states[j], actions[j]) && states[j + 1] == Next(c, states[j], actions[j]);
    hide Enabled, Next, Structured, Init, EffectOf;
    Losses.RunStructured(c, states, actions, j);
    DateGrows(c, states, actions, i, j, e);
    OnlyRetention(c, states[j], actions[j], e);
  }

  lemma OnlyRetention(c: Config, s: State, a: Action, e: Id)
    requires Structured(s) && Enabled(c, s, a) && e in s.db.events && e !in Next(c, s, a).db.events
    ensures a.CleanEvents? && c.retentionDays > 0
    ensures s.db.events[e].status == EVENT_DONE || s.db.events[e].status == EVENT_FAILED
    ensures s.db.events[e].updatedAt + c.retentionDays * 86400000 < s.now
  {
    if a.CleanEvents? {
      RetentionDeletesExactly(c, s);
      hide Next, Enabled;
    } else {
      var s', effect := Next(c, s, a), EffectOf(c, s, a);
      OthersKeep(c, s, a);
      hide *;
      RowsStep(c, s, a);
      EventKept(s, s', effect, e);
    }
  }

  lemma OthersKeep(c: Config, s: State, a: Action)
    requires Enabled(c, s, a) && !a.CleanEvents?
    ensures EffectOf(c, s, a).Prune? ==> a.CleanOutbox? && Next(c, s, a).db.events == s.db.events
  {
    hide Enabled;
  }

  lemma EventKept(s: State, s': State, effect: Effect, e: Id)
    requires Fits(s, s', effect) && e in s.db.events && e !in s'.db.events
    ensures effect.Prune?
  {
    hide RecordAfter, RowAfter, EventsAfter;
  }
}
