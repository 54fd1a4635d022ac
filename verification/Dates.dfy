/** What the dates in the tables say, in every run of the full interleaving. */
module Dates {
  import opened Domain
  import opened Transactions
  import opened Protocol
  import opened Effects
  import opened Structure
  import Losses

  /** A delivery's dates: it has a date for its next attempt only while it waits for one,
      and always after a failure, and then its current order is due at that date; the
      date of its last attempt is that of its last claim, and it has one exactly once an
      attempt was made since the last replay. */
  ghost predicate RowDated(s: State, d: Id, row: Delivery, r: Record) {
    && (row.status in {PROCESSING, SUCCESS, DLQ, CANCELLED} ==> row.nextAttemptAt == None)
    && (row.status == FAILED ==> row.nextAttemptAt.Some?)
    && (row.nextAttemptAt.Some? ==>
          r.current in s.h.issued && s.h.issued[r.current].delivery == d
          && s.h.issued[r.current].availableAt == row.nextAttemptAt.value)
    && (row.attempts == 0 <==> row.lastAttemptAt == None)
    && (row.attempts > 0 ==> |r.sends| > 0 && row.lastAttemptAt == Some(r.sends[|r.sends| - 1].at))
  }

  ghost predicate RowsDated(s: State) {
    forall d :: d in s.db.deliveries ==> d in s.h.records && RowDated(s, d, s.db.deliveries[d], s.h.records[d])
  }

  lemma DatedAfter(s: State, s': State, e: Effect, d: Id)
    requires RowsOk(s) && RowsDated(s) && Fits(s, s', e) && Grows(s, s') && d in s'.db.deliveries
    requires e.Terminate? ==> e.status.Terminal()
    ensures d in s'.h.records && RowDated(s', d, s'.db.deliveries[d], s'.h.records[d])
  {
    hide RowsOk, RowsDated, Fits, Grows, RowDated, Written, Accepted;
    if e.Writes() && e.d == d {
      FitsWritten(s, s', e);
      WrittenDated(s, s', e);
    } else if e.Accept? && d in e.fan {
      AcceptedDated(s, s', e, d);
    } else {
      SameDelivery(s, s', e, d);
      WasDated(s, d);
      RecordStays(s, s', e, d);
      StillDated(s, s', d);
    }
  }

  lemma FitsWritten(s: State, s': State, e: Effect)
    requires Fits(s, s', e) && e.Writes()
    ensures Written(s, s', e)
  {
    hide Written;
  }

  lemma WasDated(s: State, d: Id)
    requires RowsDated(s) && d in s.db.deliveries
    ensures d in s.h.records && RowDated(s, d, s.db.deliveries[d], s.h.records[d])
  {
    hide RowDated;
  }

  lemma StillDated(s: State, s': State, d: Id)
    requires Grows(s, s') && d in s.db.deliveries && d in s.h.records
    requires d in s'.db.deliveries && s'.db.deliveries[d] == s.db.deliveries[d]
    requires d in s'.h.records && s'.h.records[d] == s.h.records[d]
    requires RowDated(s, d, s.db.deliveries[d], s.h.records[d])
    ensures RowDated(s', d, s'.db.deliveries[d], s'.h.records[d])
  {
  }

  lemma AcceptedDated(s: State, s': State, e: Effect, d: Id)
    requires Fits(s, s', e) && e.Accept? && d in e.fan && d in s'.db.deliveries
    ensures d in s'.h.records && RowDated(s', d, s'.db.deliveries[d], s'.h.records[d])
  {
  }

  lemma RecordStays(s: State, s': State, e: Effect, d: Id)
    requires Fits(s, s', e) && d in s.h.records && !(e.Writes() && e.d == d) && !(e.Accept? && d in e.fan)
    ensures d in s'.h.records && s'.h.records[d] == s.h.records[d]
  {
    hide RowAfter, RecordAfter, EventsAfter;
  }

  lemma WrittenDated(s: State, s': State, e: Effect)
    requires RowsDated(s) && e.Writes() && Written(s, s', e) && (e.Terminate? ==> e.status.Terminal())
    ensures e.d in s'.db.deliveries && e.d in s'.h.records
    ensures RowDated(s', e.d, s'.db.deliveries[e.d], s'.h.records[e.d])
  {
    assert RowDated(s, e.d, s.db.deliveries[e.d], s.h.records[e.d]);
    hide EventsAfter, Fresh;
  }

  lemma DatedStep(c: Config, s: State, a: Action)
    requires Structured(s) && RowsDated(s) && Enabled(c, s, a)
    ensures Structured(Next(c, s, a)) && RowsDated(Next(c, s, a))
  {
    var s', e := Next(c, s, a), EffectOf(c, s, a);
    EndsAreTerminal(c, s, a);
    hide *;
    StructuredRows(s);
    StructureStep(c, s, a);
    RowsStep(c, s, a);
    forall d | d in s'.db.deliveries
      ensures d in s'.h.records && RowDated(s', d, s'.db.deliveries[d], s'.h.records[d])
    {
      DatedAfter(s, s', e, d);
    }
    AllDated(s');
  }

  lemma AllDated(s: State)
    requires forall d :: d in s.db.deliveries ==> d in s.h.records && RowDated(s, d, s.db.deliveries[d], s.h.records[d])
    ensures RowsDated(s)
  {
    hide RowDated;
  }

  lemma EndsAreTerminal(c: Config, s: State, a: Action)
    requires Enabled(c, s, a)
    ensures EffectOf(c, s, a).Terminate? ==> EffectOf(c, s, a).status.Terminal()
  {
    hide CanIngest, OldestDue, StaleRows, StrandedRows;
  }

  /** In every run the dates of every delivery are in order. */
  lemma {:induction false} DeliveriesAreDated(c: Config, states: seq<State>, actions: seq<Action>, i: nat)
    requires Run(c, states, actions) && i < |states|
    ensures forall d :: d in states[i].db.deliveries ==>
      && d in states[i].h.records
      && RowDated(states[i], d, states[i].db.deliveries[d], states[i].h.records[d])
  {
    hide Next, Enabled, Structured, RowDated;
    if i > 0 {
      DeliveriesAreDated(c, states, actions, i - 1);
      Losses.RunStructured(c, states, actions, i - 1);
      DatedStep(c, states[i - 1], actions[i - 1]);
    }
  }

  /** The publication date changes only to `now` or to none, the counter by one. */
  predicate IsRemarked(before: Ticket, row: Ticket, now: int) {
    && row == before.(publishedAt := row.publishedAt, publishes := row.publishes)
    && (row.publishedAt == before.publishedAt || row.publishedAt == None || row.publishedAt == Some(now))
    && (row.publishes == before.publishes || row.publishes == before.publishes + 1)
  }

  /** An outbox row is created unpublished, with its counter at 0, and dated; after that a
      step changes at most its publication date and its counter. */
  lemma OrdersAreDated(c: Config, s: State, a: Action, t: Id)
    requires Structured(s) && Enabled(c, s, a) && t in Next(c, s, a).db.outbox
    ensures var row := Next(c, s, a).db.outbox[t];
      if t in s.db.outbox then IsRemarked(s.db.outbox[t], row, s.now)
      else row.createdAt == s.now && row.publishedAt == None && row.publishes == 0
  {
    var s', e := Next(c, s, a), EffectOf(c, s, a);
    hide *;
    RowsStep(c, s, a);
    RemarkIs(c, s, a);
    OrderDated(s, s', e, t);
  }

  /** What a step does to a row whose publication it changes. */
  predicate IsProper(s: State, e: Effect) {
    e.Remark? && e.t in s.db.outbox ==> IsRemarked(s.db.outbox[e.t], e.ticket, s.now)
  }

  lemma RemarkIs(c: Config, s: State, a: Action)
    requires Enabled(c, s, a)
    ensures IsProper(s, EffectOf(c, s, a))
  {
    hide CanIngest, OldestDue, StaleRows, StrandedRows;
  }

  lemma OrderDated(s: State, s': State, e: Effect, t: Id)
    requires Fits(s, s', e) && IsProper(s, e) && t in s'.db.outbox
    ensures var row := s'.db.outbox[t];
      if t in s.db.outbox then IsRemarked(s.db.outbox[t], row, s.now)
      else row.createdAt == s.now && row.publishedAt == None && row.publishes == 0
  {
    hide RowAfter, RecordAfter, EventsAfter;
  }
}
