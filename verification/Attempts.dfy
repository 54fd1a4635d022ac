/** What the full interleaving guarantees about attempts: how claims are
    numbered, how far they can go, when they may happen, and what stale recovery
    knows when it writes. */
module Attempts {
  import opened Domain
  import opened Transactions
  import opened Protocol
  import opened Effects
  import opened Structure
  import Retry

  // ---------------------------------------------------------------- one delivery

  /** The number of the last claim since the last replay, 0 if there was none. */
  function Attempted(r: Record): nat {
    if r.sends != [] && r.sends[|r.sends| - 1].epoch == r.epoch then r.sends[|r.sends| - 1].attempt else 0
  }

  /** Claim `i` is numbered one more than the claim before it in its epoch, from 1. */
  predicate Numbered(sends: seq<Send>, i: nat)
    requires i < |sends|
  {
    && (i > 0 ==> sends[i - 1].epoch <= sends[i].epoch)
    && sends[i].attempt == 1 + (if i > 0 && sends[i - 1].epoch == sends[i].epoch then sends[i - 1].attempt else 0)
  }

  /** The claims of each epoch are numbered in order, and epochs do not go back. */
  ghost predicate Chained(r: Record) {
    && (forall i :: 0 <= i < |r.sends| ==> r.sends[i].epoch <= r.epoch)
    && (forall i {:trigger Numbered(r.sends, i)} :: 0 <= i < |r.sends| ==> Numbered(r.sends, i))
    && (forall i :: 0 <= i < |r.sends| && r.sends[i].epoch == 0 ==> r.sends[i].attempt == i + 1)
  }

  /** Each stale recovery ended the PROCESSING period of a different claim. */
  ghost predicate OncePerPeriod(r: Record) {
    && (forall i :: 0 <= i < |r.recoveries| ==> 1 <= r.recoveries[i] <= |r.sends|)
    && (forall i, j :: 0 <= i < j < |r.recoveries| ==> r.recoveries[i] < r.recoveries[j])
  }

  /** No replay and no stale recovery so far. */
  predicate Undisturbed(r: Record) {
    r.epoch == 0 && r.recoveries == []
  }

  function Limit(c: Config, r: Record): nat {
    c.maxAttempts + |r.recoveries|
  }

  /** Every retry is claimed no earlier than the time chosen when the attempt
      before it failed. */
  ghost predicate Patient(r: Record) {
    && (forall m :: m in r.notBefore ==> 2 <= m <= |r.sends| + 1)
    && (forall i :: 0 <= i < |r.sends| && r.sends[i].attempt >= 2 ==>
          r.sends[i].attempt in r.notBefore && r.sends[i].at >= r.notBefore[r.sends[i].attempt])
  }

  ghost predicate RecordOk(c: Config, r: Record) {
    && Chained(r)
    && OncePerPeriod(r)
    && (forall i :: 0 <= i < |r.sends| ==> r.sends[i].attempt <= Limit(c, r))
    && (Undisturbed(r) ==> Patient(r))
  }

  /** The row agrees with the record; a PROCESSING row has its claim date and a
      claim that no recovery has ended. */
  ghost predicate RowOk(row: Delivery, r: Record) {
    && row.attempts == Attempted(r)
    && (row.status.PROCESSING? ==>
          && row.lastAttemptAt.Some?
          && r.sends != []
          && (forall i :: 0 <= i < |r.recoveries| ==> r.recoveries[i] < |r.sends|))
  }

  ghost predicate WasClaimed(r: Record, attempt: nat) {
    exists i :: 0 <= i < |r.sends| && r.sends[i].attempt == attempt
  }

  /** An order for attempt k > 1 exists only after attempt k-1 was claimed, stays
      within the limit, and (undisturbed) is not available before its time. */
  ghost predicate OrderOk(c: Config, o: Order, r: Record) {
    && 1 <= o.number <= Limit(c, r)
    && (o.number > 1 ==> WasClaimed(r, o.number - 1))
    && (Undisturbed(r) && o.number > 1 ==> o.number in r.notBefore && o.availableAt >= r.notBefore[o.number])
  }

  /** A sending worker owns its claim and has not decided its outcome. */
  ghost predicate SenderOk(w: nat, attempt: nat, index: nat, r: Record) {
    && index < |r.sends|
    && r.sends[index].worker == w
    && r.sends[index].attempt == attempt
    && (Undisturbed(r) ==> attempt + 1 !in r.notBefore)
  }

  // ---------------------------------------------------------------- whole state

  ghost predicate RecordsOk(c: Config, s: State) {
    && (forall d :: d in s.h.records ==> RecordOk(c, s.h.records[d]))
    && (forall d :: d in s.db.deliveries ==> RowOk(s.db.deliveries[d], RecordOf(s.h, d)))
    && (forall t :: t in s.h.issued ==> OrderOk(c, s.h.issued[t], RecordOf(s.h, s.h.issued[t].delivery)))
  }

  ghost predicate SendersOk(s: State) {
    forall w :: w in s.workers && s.workers[w].Sending? ==>
      SenderOk(w, s.workers[w].attempt, s.workers[w].index, RecordOf(s.h, s.workers[w].job.delivery))
  }

  /** Whenever the guarded update of stale recovery would succeed, the attempts
      read earlier are still the row's. */
  ghost predicate FoundOk(s: State, cutoff: int, found: (Id, nat)) {
    IsStale(s.db, found.0, cutoff) ==> s.db.deliveries[found.0].attempts == found.1
  }

  ghost predicate SweepsOk(s: State) {
    forall m :: m in s.sweeps && s.sweeps[m].Stale? ==>
      && s.sweeps[m].cutoff < s.now
      && forall i :: 0 <= i < |s.sweeps[m].found| ==> FoundOk(s, s.sweeps[m].cutoff, s.sweeps[m].found[i])
  }

  ghost predicate Counted(c: Config, s: State) {
    Structured(s) && RecordsOk(c, s) && SendersOk(s) && SweepsOk(s)
  }

  // ---------------------------------------------------------------- lawful effects

  /** Some order for attempt `number` of `d` is available. */
  ghost predicate Ordered(s: State, d: Id, number: nat) {
    exists t :: t in s.h.issued && IsOrder(s.h.issued[t], d, number, s.now)
  }

  predicate IsOrder(o: Order, d: Id, number: nat, now: int) {
    o.delivery == d && o.number == number && o.availableAt <= now
  }

  ghost predicate IsSending(s: State, w: nat, d: Id, attempt: nat) {
    w in s.workers && s.workers[w].Sending? && s.workers[w].job.delivery == d && s.workers[w].attempt == attempt
  }

  /** Why each effect was allowed to happen. */
  ghost predicate Lawful(c: Config, s: State, e: Effect) {
    match e
    case Terminate(_, status) => status.Terminal()
    case Begin(d, _) => d in s.db.deliveries && Ordered(s, d, s.db.deliveries[d].attempts + 1)
    case Defer(d, number, at, _) => s.now <= at && Ordered(s, d, number)
    case Reschedule(d, attempt, at, _) => attempt < c.maxAttempts && exists w :: IsSending(s, w, d, attempt)
    case Revive(d, attemptsRead, _) => d in s.db.deliveries && s.db.deliveries[d].status.PROCESSING?
      && s.db.deliveries[d].attempts == attemptsRead
    case _ => true
  }

  // ---------------------------------------------------------------- one delivery, one effect

  /** An order for the next attempt bounds that attempt and its time. */
  lemma BeginRecord(c: Config, row: Delivery, r: Record, e: Effect, now: int, o: Order)
    requires e.Begin? && RecordOk(c, r) && RowOk(row, r)
    requires OrderOk(c, o, r) && IsOrder(o, e.d, row.attempts + 1, now)
    ensures RecordOk(c, RecordAfter(r, row, e, now)) && RowOk(RowAfter(row, e, now), RecordAfter(r, row, e, now))
  {
    BeginChain(row, r, e, now);
    var r' := RecordAfter(r, row, e, now);
    assert r'.sends == r.sends + [Send(r.epoch, row.attempts + 1, e.w, now)];
    hide Chained, RecordAfter;
  }

  lemma BeginChain(row: Delivery, r: Record, e: Effect, now: int)
    requires e.Begin? && Chained(r) && row.attempts == Attempted(r)
    ensures Chained(RecordAfter(r, row, e, now)) && Attempted(RecordAfter(r, row, e, now)) == row.attempts + 1
  {
    var r', n := RecordAfter(r, row, e, now), |r.sends|;
    assert r'.sends == r.sends + [Send(r.epoch, row.attempts + 1, e.w, now)];
    forall i | 0 <= i < |r'.sends| ensures Numbered(r'.sends, i) {
      if i < n {
        assert Numbered(r.sends, i);
      }
    }
  }

  lemma RecordStep(c: Config, row: Delivery, r: Record, e: Effect, now: int)
    requires e.Writes() && !e.Begin? && RecordOk(c, r) && RowOk(row, r)
    requires e.Terminate? ==> !e.status.PROCESSING?
    requires e.Reschedule? ==> exists w: nat, index: nat :: SenderOk(w, e.attempt, index, r)
    requires e.Revive? ==> row.status.PROCESSING?
    ensures RecordOk(c, RecordAfter(r, row, e, now)) && RowOk(RowAfter(row, e, now), RecordAfter(r, row, e, now))
  {
    SameSends(c, row, r, e, now);
    if e.Reschedule? && Undisturbed(r) {
      var w: nat, index: nat :| SenderOk(w, e.attempt, index, r);
      assert e.attempt == index + 1;
    }
  }

  lemma SameSends(c: Config, row: Delivery, r: Record, e: Effect, now: int)
    requires e.Writes() && !e.Begin? && RecordOk(c, r)
    requires e.Revive? ==> r.sends != [] && forall i :: 0 <= i < |r.recoveries| ==> r.recoveries[i] < |r.sends|
    ensures var r' := RecordAfter(r, row, e, now);
      && r'.sends == r.sends && Chained(r') && OncePerPeriod(r')
      && (forall i :: 0 <= i < |r'.sends| ==> r'.sends[i].attempt <= Limit(c, r'))
  {
    var r' := RecordAfter(r, row, e, now);
    assert r'.sends == r.sends && r.epoch <= r'.epoch;
    assert OncePerPeriod(r');
    hide RecordAfter, OncePerPeriod;
    assert Chained(r');
  }

  /** The record an effect leaves behind keeps what orders say. */
  lemma OrderStep(c: Config, o: Order, row: Delivery, r: Record, e: Effect, now: int)
    requires e.Writes() && OrderOk(c, o, r)
    requires e.Reschedule? && Undisturbed(r) ==> e.attempt + 1 !in r.notBefore
    ensures OrderOk(c, o, RecordAfter(r, row, e, now))
  {
    var r' := RecordAfter(r, row, e, now);
    assert r.sends <= r'.sends;
    if o.number > 1 {
      var i :| 0 <= i < |r.sends| && r.sends[i].attempt == o.number - 1;
      assert r'.sends[i] == r.sends[i];
    }
  }

  /** Two senders of an undisturbed delivery are at different attempts. */
  lemma SenderStep(c: Config, w: nat, attempt: nat, index: nat, row: Delivery, r: Record, e: Effect, now: int)
    requires e.Writes() && RecordOk(c, r) && SenderOk(w, attempt, index, r)
    requires e.Reschedule? ==> exists v: nat, j: nat :: v != w && SenderOk(v, e.attempt, j, r)
    ensures SenderOk(w, attempt, index, RecordAfter(r, row, e, now))
  {
    var r' := RecordAfter(r, row, e, now);
    assert r'.sends[index] == r.sends[index];
    if e.Reschedule? && Undisturbed(r) {
      var v: nat, j: nat :| v != w && SenderOk(v, e.attempt, j, r);
      assert attempt == index + 1 && e.attempt == j + 1;
    }
  }

  // ---------------------------------------------------------------- all deliveries

  lemma NewOrderOk(c: Config, row: Delivery, r: Record, e: Effect, now: int)
    requires c.Valid() && e.Issues() && RecordOk(c, r) && RowOk(row, r)
    requires e.Defer? ==> exists o :: OrderOk(c, o, r) && IsOrder(o, e.d, e.number, now) && now <= e.at
    requires e.Reschedule? ==> e.attempt < c.maxAttempts && exists w: nat, index: nat ::
      SenderOk(w, e.attempt, index, r)
    requires e.Revive? ==> row.status.PROCESSING? && row.attempts == e.attemptsRead
    ensures OrderOk(c, Order(e.d, e.Number(), e.AvailableAt(now)), RecordAfter(r, row, e, now))
  {
    var r' := RecordAfter(r, row, e, now);
    assert r'.sends == r.sends;
    match e
    case Defer(_, number, _, _) =>
      var o :| OrderOk(c, o, r) && IsOrder(o, e.d, number, now);
      if number > 1 {
        var i :| 0 <= i < |r.sends| && r.sends[i].attempt == number - 1;
        assert r'.sends[i] == r.sends[i];
      }
    case Reschedule(_, attempt, _, _) =>
      var w: nat, index: nat :| SenderOk(w, attempt, index, r);
      assert r'.sends[index].attempt == attempt;
    case Revive(_, attemptsRead, _) =>
      var n := |r.sends|;
      if attemptsRead > 0 {
        assert r'.sends[n - 1].attempt == attemptsRead;
      }
    case Restart(_, _) =>
  }

  /** The facts of one record, order and sender. */
  lemma RecordAt(c: Config, s: State, d: Id)
    requires RecordsOk(c, s) && d in s.h.records
    ensures RecordOk(c, s.h.records[d]) && RecordOf(s.h, d) == s.h.records[d]
    ensures d in s.db.deliveries ==> RowOk(s.db.deliveries[d], s.h.records[d])
  {
    hide RecordOk, RowOk, OrderOk;
  }

  lemma OrderAt(c: Config, s: State, t: Id)
    requires RecordsOk(c, s) && t in s.h.issued
    ensures OrderOk(c, s.h.issued[t], RecordOf(s.h, s.h.issued[t].delivery))
  {
    hide RecordOk, RowOk, OrderOk;
  }

  lemma SenderAt(s: State, w: nat, d: Id, attempt: nat)
    requires SendersOk(s) && IsSending(s, w, d, attempt)
    ensures SenderOk(w, attempt, s.workers[w].index, RecordOf(s.h, d))
  {
    hide SenderOk;
  }

  lemma BeginsUnder(c: Config, s: State, e: Effect) returns (t: Id)
    requires e.Begin? && Lawful(c, s, e) && e.d in s.db.deliveries
    ensures t in s.h.issued && IsOrder(s.h.issued[t], e.d, s.db.deliveries[e.d].attempts + 1, s.now)
      && s.h.issued[t].delivery == e.d
  {
    t :| t in s.h.issued && IsOrder(s.h.issued[t], e.d, s.db.deliveries[e.d].attempts + 1, s.now);
  }

  lemma SentBy(c: Config, s: State, e: Effect) returns (w: nat)
    requires e.Reschedule? && Lawful(c, s, e)
    ensures IsSending(s, w, e.d, e.attempt)
  {
    w :| IsSending(s, w, e.d, e.attempt);
  }

  lemma LawfulRow(c: Config, s: State, e: Effect)
    requires Lawful(c, s, e)
    ensures e.Terminate? ==> !e.status.PROCESSING?
    ensures e.Revive? ==> e.d in s.db.deliveries && s.db.deliveries[e.d].status.PROCESSING?
  {
  }

  /** The written delivery keeps its record and row in order. */
  lemma TargetOk(c: Config, s: State, e: Effect)
    requires e.Writes() && RecordsOk(c, s) && SendersOk(s) && Lawful(c, s, e)
    requires e.d in s.db.deliveries && e.d in s.h.records
    ensures var row, r := s.db.deliveries[e.d], s.h.records[e.d];
      RecordOk(c, RecordAfter(r, row, e, s.now)) && RowOk(RowAfter(row, e, s.now), RecordAfter(r, row, e, s.now))
  {
    var row, r := s.db.deliveries[e.d], s.h.records[e.d];
    hide *;
    RecordAt(c, s, e.d);
    if e.Begin? {
      var t := BeginsUnder(c, s, e);
      OrderAt(c, s, t);
      BeginRecord(c, row, r, e, s.now, s.h.issued[t]);
    } else {
      LawfulRow(c, s, e);
      if e.Reschedule? {
        var w := SentBy(c, s, e);
        SenderAt(s, w, e.d, e.attempt);
      }
      RecordStep(c, row, r, e, s.now);
    }
  }

  lemma TicketOk(c: Config, s: State, e: Effect)
    requires c.Valid() && e.Issues() && RecordsOk(c, s) && SendersOk(s) && Lawful(c, s, e)
    requires e.d in s.db.deliveries && e.d in s.h.records
    ensures OrderOk(c, Order(e.d, e.Number(), e.AvailableAt(s.now)),
      RecordAfter(s.h.records[e.d], s.db.deliveries[e.d], e, s.now))
  {
    var row, r := s.db.deliveries[e.d], s.h.records[e.d];
    assert RecordOk(c, r) && RowOk(row, r);
    if e.Defer? {
      var t :| t in s.h.issued && IsOrder(s.h.issued[t], e.d, e.number, s.now);
      assert OrderOk(c, s.h.issued[t], r);
    } else if e.Reschedule? {
      var w :| IsSending(s, w, e.d, e.attempt);
      assert SenderOk(w, e.attempt, s.workers[w].index, r);
    }
    NewOrderOk(c, row, r, e, s.now);
  }

  lemma OldTicketOk(c: Config, s: State, e: Effect, t: Id)
    requires e.Writes() && RecordsOk(c, s) && SendersOk(s) && Lawful(c, s, e)
    requires e.d in s.db.deliveries && e.d in s.h.records
    requires t in s.h.issued && s.h.issued[t].delivery == e.d
    ensures OrderOk(c, s.h.issued[t], RecordAfter(s.h.records[e.d], s.db.deliveries[e.d], e, s.now))
  {
    var row, r := s.db.deliveries[e.d], s.h.records[e.d];
    if e.Reschedule? {
      var w :| IsSending(s, w, e.d, e.attempt);
      assert SenderOk(w, e.attempt, s.workers[w].index, r);
    }
    OrderStep(c, s.h.issued[t], row, r, e, s.now);
  }

  /** A written state, row by row. */
  lemma Pointwise(s: State, s': State, e: Effect)
    requires e.Writes() && Written(s, s', e)
    ensures e.d in s.db.deliveries && e.d in s.h.records
    ensures s'.h.records.Keys == s.h.records.Keys && s'.db.deliveries.Keys == s.db.deliveries.Keys
    ensures forall d :: d != e.d ==> RecordOf(s'.h, d) == RecordOf(s.h, d)
    ensures forall d :: d in s.db.deliveries && d != e.d ==> s'.db.deliveries[d] == s.db.deliveries[d]
    ensures RecordOf(s'.h, e.d) == RecordAfter(s.h.records[e.d], s.db.deliveries[e.d], e, s.now)
    ensures s'.db.deliveries[e.d] == RowAfter(s.db.deliveries[e.d], e, s.now)
    ensures forall t :: t in s'.h.issued ==>
      || (t in s.h.issued && s'.h.issued[t] == s.h.issued[t])
      || (e.Issues() && t == e.t && s'.h.issued[t] == Order(e.d, e.Number(), e.AvailableAt(s.now)))
  {
    hide RowAfter, RecordAfter;
  }

  lemma WrittenOrders(c: Config, s: State, s': State, e: Effect)
    requires c.Valid() && e.Writes() && RowsOk(s) && RecordsOk(c, s) && SendersOk(s) && Lawful(c, s, e)
      && Written(s, s', e)
    ensures forall t :: t in s'.h.issued ==> OrderOk(c, s'.h.issued[t], RecordOf(s'.h, s'.h.issued[t].delivery))
  {
    Pointwise(s, s', e);
    if e.Issues() {
      TicketOk(c, s, e);
    }
    hide RowAfter, RecordAfter, RecordOk, RowOk, OrderOk, Lawful, SendersOk, RowsOk, Written, RecordOf;
    forall t | t in s'.h.issued ensures OrderOk(c, s'.h.issued[t], RecordOf(s'.h, s'.h.issued[t].delivery)) {
      if t in s.h.issued && s'.h.issued[t] == s.h.issued[t] {
        if s.h.issued[t].delivery == e.d {
          OldTicketOk(c, s, e, t);
        } else {
          assert OrderOk(c, s.h.issued[t], RecordOf(s.h, s.h.issued[t].delivery));
        }
      }
    }
  }

  lemma WrittenRecords(c: Config, s: State, s': State, e: Effect)
    requires c.Valid() && e.Writes() && RowsOk(s) && RecordsOk(c, s) && SendersOk(s) && Lawful(c, s, e)
      && Written(s, s', e)
    ensures RecordsOk(c, s')
  {
    hide *;
    Pointwise(s, s', e);
    TargetOk(c, s, e);
    WrittenOrders(c, s, s', e);
    RowsKnown(s);
    forall d | d in s'.h.records
      ensures RecordOk(c, s'.h.records[d]) && (d in s'.db.deliveries ==> RowOk(s'.db.deliveries[d], RecordOf(s'.h, d)))
    {
      KnownRecord(s'.h, d);
      KnownRecord(s.h, d);
      RecordAt(c, s, d);
    }
    AllRecords(c, s');
  }

  lemma KnownRecord(h: History, d: Id)
    requires d in h.records
    ensures RecordOf(h, d) == h.records[d]
  {
  }

  lemma AllRecords(c: Config, s: State)
    requires forall d :: d in s.db.deliveries ==> d in s.h.records
    requires forall d :: d in s.h.records ==>
      RecordOk(c, s.h.records[d]) && (d in s.db.deliveries ==> RowOk(s.db.deliveries[d], RecordOf(s.h, d)))
    requires forall t :: t in s.h.issued ==> OrderOk(c, s.h.issued[t], RecordOf(s.h, s.h.issued[t].delivery))
    ensures RecordsOk(c, s)
  {
    hide RecordOk, RowOk, OrderOk, RecordOf;
  }

  lemma SameRecords(c: Config, s: State, s': State)
    requires RecordsOk(c, s) && s'.h.issued == s.h.issued && s'.h.records == s.h.records
    requires Submap(s'.db.deliveries, s.db.deliveries)
    ensures RecordsOk(c, s')
  {
    hide RecordOk, RowOk, OrderOk;
    forall d | d in s'.db.deliveries ensures RowOk(s'.db.deliveries[d], RecordOf(s'.h, d)) {
      assert RowOk(s.db.deliveries[d], RecordOf(s.h, d));
    }
  }

  lemma AcceptedRecords(c: Config, s: State, s': State, e: Effect)
    requires c.Valid() && e.Accept? && RowsOk(s) && RecordsOk(c, s) && Accepted(s, s', e)
    ensures RecordsOk(c, s')
  {
    forall d | d in s'.h.records ensures RecordOk(c, s'.h.records[d]) {
      assert d in e.fan ==> s'.h.records[d] == Record(0, [], [], map[], e.first[d]);
    }
    forall t | t in s'.h.issued ensures OrderOk(c, s'.h.issued[t], RecordOf(s'.h, s'.h.issued[t].delivery)) {
      if t in e.owner {
        assert s'.h.issued[t] == Order(e.owner[t], 1, s.now);
      } else {
        assert s.h.issued[t].delivery in s.h.records;
        assert OrderOk(c, s.h.issued[t], RecordOf(s.h, s.h.issued[t].delivery));
      }
    }
    forall d | d in s'.db.deliveries ensures RowOk(s'.db.deliveries[d], RecordOf(s'.h, d)) {
      if d in e.fan {
        assert s'.db.deliveries[d] == NewDelivery(e.event, e.fan[d]);
      } else {
        assert d in s.h.records;
      }
    }
  }

  lemma EffectRecords(c: Config, s: State, s': State, e: Effect)
    requires c.Valid() && RowsOk(s) && RecordsOk(c, s) && SendersOk(s) && Lawful(c, s, e) && Fits(s, s', e)
    ensures RecordsOk(c, s')
  {
    hide RecordsOk, RowsOk, SendersOk, Lawful, Written, Accepted;
    if e.Accept? {
      AcceptedRecords(c, s, s', e);
    } else if e.Writes() {
      WrittenRecords(c, s, s', e);
    } else {
      SameRecords(c, s, s');
    }
  }

  // ---------------------------------------------------------------- senders and sweeps

  lemma SenderKept(c: Config, s: State, s': State, e: Effect, w: nat)
    requires RowsOk(s) && RecordsOk(c, s) && SendersOk(s) && Fits(s, s', e)
    requires w in s.workers && s.workers[w].Sending? && s.workers[w].job.delivery in s.h.records
    requires e.Reschedule? ==> exists v :: v != w && IsSending(s, v, e.d, e.attempt)
    ensures SenderOk(w, s.workers[w].attempt, s.workers[w].index, RecordOf(s'.h, s.workers[w].job.delivery))
  {
    var d, attempt := s.workers[w].job.delivery, s.workers[w].attempt;
    hide *;
    RecordAt(c, s, d);
    SenderAt(s, w, d, attempt) by { SendingIs(s, w); }
    if e.Writes() {
      WritesAreWritten(s, s', e);
      Pointwise(s, s', e);
      if e.d == d {
        if e.Reschedule? {
          var v :| v != w && IsSending(s, v, e.d, e.attempt);
          SenderAt(s, v, e.d, e.attempt);
        }
        SenderStep(c, w, attempt, s.workers[w].index, s.db.deliveries[d], s.h.records[d], e, s.now);
      }
    } else {
      SameRecord(s, s', e, d);
    }
  }

  lemma SendingIs(s: State, w: nat)
    requires w in s.workers && s.workers[w].Sending?
    ensures IsSending(s, w, s.workers[w].job.delivery, s.workers[w].attempt)
  {
  }

  lemma WritesAreWritten(s: State, s': State, e: Effect)
    requires Fits(s, s', e) && e.Writes()
    ensures Written(s, s', e)
  {
    hide Written;
  }

  lemma SameRecord(s: State, s': State, e: Effect, d: Id)
    requires Fits(s, s', e) && !e.Writes() && d in s.h.records
    ensures RecordOf(s'.h, d) == RecordOf(s.h, d)
  {
    hide Written;
  }

  /** A written row is never stale for an earlier cutoff. */
  lemma FoundKept(s: State, s': State, e: Effect, cutoff: int, found: (Id, nat))
    requires RowsOk(s) && cutoff < s.now && FoundOk(s, cutoff, found) && Fits(s, s', e)
    requires e.Terminate? ==> e.status.Terminal()
    ensures FoundOk(s', cutoff, found)
  {
  }

  lemma SweepsKept(s: State, s': State, e: Effect)
    requires RowsOk(s) && SweepsOk(s) && Fits(s, s', e) && s.now <= s'.now
    requires e.Terminate? ==> e.status.Terminal()
    requires forall m :: m in s'.sweeps && s'.sweeps[m].Stale? ==>
      m in s.sweeps && s.sweeps[m].Stale? && s'.sweeps[m].cutoff == s.sweeps[m].cutoff
      && forall i :: 0 <= i < |s'.sweeps[m].found| ==> s'.sweeps[m].found[i] in s.sweeps[m].found
    ensures SweepsOk(s')
  {
    hide Fits;
    forall m, i | m in s'.sweeps && s'.sweeps[m].Stale? && 0 <= i < |s'.sweeps[m].found|
      ensures FoundOk(s', s'.sweeps[m].cutoff, s'.sweeps[m].found[i])
    {
      FoundKept(s, s', e, s.sweeps[m].cutoff, s'.sweeps[m].found[i]);
    }
  }

  // ---------------------------------------------------------------- every step

  /** A job in a worker's hands orders its attempt. */
  lemma JobIsOrdered(s: State, job: Job)
    requires JobOk(s, job)
    ensures Ordered(s, job.delivery, job.expected)
  {
    assert IsOrder(s.h.issued[job.outbox], job.delivery, job.expected, s.now);
  }

  lemma WorkerLawful(c: Config, s: State, w: nat, step: WorkerStep)
    requires c.Valid() && Counted(c, s) && WorkerEnabled(s, w, step)
    ensures Lawful(c, s, WorkerEffect(c, s, w, step))
  {
    hide RecordsOk, SendersOk, SweepsOk, RowsOk, QueueOk, PublishersOk, AddedOk, Retry.Decide;
    match step
    case Reject(_, _) => JobIsOrdered(s, s.workers[w].job);
    case Claim => JobIsOrdered(s, s.workers[w].job);
    case Respond(reply, draw, _) =>
      Retry.DecisionBounds(c, s.workers[w].attempt, reply, s.now, draw);
      assert IsSending(s, w, s.workers[w].job.delivery, s.workers[w].attempt);
    case _ =>
  }

  lemma SweepLawful(c: Config, s: State, m: nat, step: SweepStep)
    requires Counted(c, s) && SweepEnabled(c, s, m, step)
    ensures Lawful(c, s, SweepEffect(c, s, m, step))
  {
    hide RecordsOk, SendersOk, Structured;
    if step.RecoverOne? {
      assert FoundOk(s, s.sweeps[m].cutoff, s.sweeps[m].found[0]);
    }
  }

  /** What a worker's step leaves of its own claim. */
  lemma WorkerSends(c: Config, s: State, w: nat, step: WorkerStep)
    requires WorkerEnabled(s, w, step)
    ensures var s', e := WorkerNext(c, s, w, step), WorkerEffect(c, s, w, step);
      && (forall v :: v in s'.workers && v != w ==> v in s.workers && s'.workers[v] == s.workers[v])
      && (w in s'.workers && s'.workers[w].Sending? ==>
            && step.Claim? && e == Begin(s.workers[w].job.delivery, w)
            && s'.workers[w] == Sending(s.workers[w].job, s.db.deliveries[e.d].attempts + 1,
                 |RecordOf(s.h, e.d).sends|))
      && (e.Reschedule? ==> IsSending(s, w, e.d, e.attempt))
      && (e.Terminate? ==> e.status.Terminal())
  {
    hide Retry.Decide, MarkTerminal, MarkFailedAndSchedule, MarkRateLimitedAndSchedule, ClaimForProcessing, RecordOf,
      Settle;
    match step
    case Respond(reply, draw, ticket) =>
      var job, attempt := s.workers[w].job, s.workers[w].attempt;
      SettleFrame(s.(workers := s.workers[w := Leaving(job)]), job.delivery, attempt,
        Retry.Decide(c, attempt, reply, s.now, draw), ticket);
    case _ =>
  }

  lemma NewSenderOk(c: Config, s: State, s': State, e: Effect)
    requires e.Begin? && RecordsOk(c, s) && Written(s, s', e)
    ensures SenderOk(e.w, s.db.deliveries[e.d].attempts + 1, |s.h.records[e.d].sends|, RecordOf(s'.h, e.d))
  {
    var r := s.h.records[e.d];
    assert RecordOk(c, r) && RowOk(s.db.deliveries[e.d], r);
    if Undisturbed(r) && r.sends != [] {
      assert r.sends[|r.sends| - 1].attempt == |r.sends|;
    }
  }

  lemma WorkerSendersKept(c: Config, s: State, w: nat, step: WorkerStep)
    requires Counted(c, s) && WorkerEnabled(s, w, step)
    requires Fits(s, WorkerNext(c, s, w, step), WorkerEffect(c, s, w, step))
    ensures SendersOk(WorkerNext(c, s, w, step))
  {
    var s', e := WorkerNext(c, s, w, step), WorkerEffect(c, s, w, step);
    hide *;
    CountedParts(c, s);
    WorkerSends(c, s, w, step);
    WorkersKnown(s);
    forall v | v in s'.workers && s'.workers[v].Sending?
      ensures SenderOk(v, s'.workers[v].attempt, s'.workers[v].index, RecordOf(s'.h, s'.workers[v].job.delivery))
    {
      if v == w {
        WritesAreWritten(s, s', e);
        KnownRecord(s.h, e.d);
        NewSenderOk(c, s, s', e);
      } else {
        SenderKept(c, s, s', e, v);
      }
    }
    AllSenders(s');
  }

  lemma CountedParts(c: Config, s: State)
    requires Counted(c, s)
    ensures Structured(s) && RowsOk(s) && RecordsOk(c, s) && SendersOk(s) && SweepsOk(s)
  {
    hide RowsOk, RecordsOk, SendersOk, SweepsOk, QueueOk, WorkersOk, PublishersOk, AddedOk;
  }

  lemma AllSenders(s: State)
    requires forall w :: w in s.workers && s.workers[w].Sending? ==>
      SenderOk(w, s.workers[w].attempt, s.workers[w].index, RecordOf(s.h, s.workers[w].job.delivery))
    ensures SendersOk(s)
  {
    hide SenderOk;
  }

  lemma WorkerCounts(c: Config, s: State, w: nat, step: WorkerStep)
    requires c.Valid() && Counted(c, s) && WorkerEnabled(s, w, step)
    ensures Counted(c, WorkerNext(c, s, w, step))
  {
    var s', e := WorkerNext(c, s, w, step), WorkerEffect(c, s, w, step);
    WorkerKeeps(c, s, w, step);
    WorkersKnown(s);
    WorkerFits(c, s, w, step);
    WorkerFrame(c, s, w, step);
    WorkerLawful(c, s, w, step);
    WorkerSends(c, s, w, step);
    WorkerSendersKept(c, s, w, step);
    hide WorkerNext, WorkerEffect, WorkerEnabled, Fits, RecordsOk, SendersOk, Lawful, RowsOk, QueueOk, PublishersOk,
      AddedOk, WorkersOk, SweepsOk;
    EffectRecords(c, s, s', e);
    SweepsKept(s, s', e);
  }

  /** Steps that leave the workers alone. */
  lemma OthersCount(c: Config, s: State, s': State, e: Effect)
    requires c.Valid() && Counted(c, s) && Structured(s') && Fits(s, s', e) && Lawful(c, s, e)
    requires s'.workers == s.workers && !e.Reschedule?
    ensures RecordsOk(c, s') && SendersOk(s')
  {
    EffectRecords(c, s, s', e);
    WorkersKnown(s);
    hide RecordsOk, SenderOk, Fits, RowsOk, Lawful, Structured;
    forall v | v in s'.workers && s'.workers[v].Sending?
      ensures SenderOk(v, s'.workers[v].attempt, s'.workers[v].index, RecordOf(s'.h, s'.workers[v].job.delivery))
    {
      SenderKept(c, s, s', e, v);
    }
  }

  lemma SweepCounts(c: Config, s: State, m: nat, step: SweepStep)
    requires c.Valid() && Counted(c, s) && SweepEnabled(c, s, m, step)
    ensures Counted(c, SweepNext(c, s, m, step))
  {
    var s', e := SweepNext(c, s, m, step), SweepEffect(c, s, m, step);
    SweepKeeps(c, s, m, step);
    SweepFits(c, s, m, step);
    SweepFrame(c, s, m, step);
    SweepLawful(c, s, m, step);
    assert !e.Reschedule? && !e.Terminate?;
    OthersCount(c, s, s', e);
    SweepsAfter(c, s, m, step);
  }

  lemma SweepsAfter(c: Config, s: State, m: nat, step: SweepStep)
    requires c.Valid() && Counted(c, s) && SweepEnabled(c, s, m, step)
    requires Fits(s, SweepNext(c, s, m, step), SweepEffect(c, s, m, step))
    ensures SweepsOk(SweepNext(c, s, m, step))
  {
    var s', e := SweepNext(c, s, m, step), SweepEffect(c, s, m, step);
    SweepFrame(c, s, m, step);
    if step.ScanStale? {
      assert s' == DoScanStale(s, m, step.cutoff, step.found);
      hide SweepNext, Fits, Structured, RecordsOk, SendersOk;
      forall k, i | k in s'.sweeps && s'.sweeps[k].Stale? && 0 <= i < |s'.sweeps[k].found|
        ensures FoundOk(s', s'.sweeps[k].cutoff, s'.sweeps[k].found[i])
      {
        if k != m {
          assert FoundOk(s, s.sweeps[k].cutoff, s.sweeps[k].found[i]);
        }
      }
    } else {
      SweepsDrop(c, s, m, step);
      SweepsKept(s, s', e);
    }
  }

  lemma SweepsDrop(c: Config, s: State, m: nat, step: SweepStep)
    requires SweepEnabled(c, s, m, step) && !step.ScanStale?
    ensures var s' := SweepNext(c, s, m, step);
      forall k :: k in s'.sweeps && s'.sweeps[k].Stale? ==>
        && k in s.sweeps && s.sweeps[k].Stale? && s'.sweeps[k].cutoff == s.sweeps[k].cutoff
        && forall i :: 0 <= i < |s'.sweeps[k].found| ==> s'.sweeps[k].found[i] in s.sweeps[k].found
    ensures !SweepEffect(c, s, m, step).Terminate?
  {
    hide DoRecoverOne, Reopen, IsStale, HasNoLiveJob;
    match step
    case RecoverOne(ticket) => RecoverFrame(s, m, ticket);
    case _ =>
  }

  /** Every step keeps the counts. */
  lemma CountStep(c: Config, s: State, a: Action)
    requires c.Valid() && Counted(c, s) && Enabled(c, s, a)
    ensures Counted(c, Next(c, s, a))
  {
    match a
    case Work(w, step) => WorkerCounts(c, s, w, step);
    case Maintain(m, step) => SweepCounts(c, s, m, step);
    case _ => OtherCounts(c, s, a);
  }

  lemma OtherCounts(c: Config, s: State, a: Action)
    requires c.Valid() && Counted(c, s) && Enabled(c, s, a) && !a.Work? && !a.Maintain?
    ensures Counted(c, Next(c, s, a))
  {
    StructureStep(c, s, a);
    RowsStep(c, s, a);
    OtherFrame(c, s, a);
    hide Next, EffectOf, Enabled, Fits, RecordsOk, SendersOk, SweepsOk, QueueOk, WorkersOk, PublishersOk, AddedOk,
      RowsOk;
    OthersCount(c, s, Next(c, s, a), EffectOf(c, s, a));
    SweepsKept(s, Next(c, s, a), EffectOf(c, s, a));
  }

  lemma OtherFrame(c: Config, s: State, a: Action)
    requires Enabled(c, s, a) && !a.Work? && !a.Maintain?
    ensures var s' := Next(c, s, a);
      s'.workers == s.workers && s'.sweeps == s.sweeps
    ensures var e := EffectOf(c, s, a);
      !e.Reschedule? && !e.Terminate? && Lawful(c, s, e)
  {
    match a
    case Publisher(p, step) => PublisherFrame(s, p, step); hide PublisherNext;
    case Replay(r, step) => ReplayFrame(s, r, step); hide ReplayNext;
    case Queue(_, _) =>
    case _ => PlainFrame(c, s, a); hide Next;
  }
}
