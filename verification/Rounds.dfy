/** The calls of one publisher over time: when they do maintenance, and what it achieves. */
module Rounds {
  import opened Domain
  import T = Transactions
  import P = Protocol
  import opened Publishing

  // ---------------------------------------------------------------- when maintenance runs

  /** A call that reads the clock at least a minute after the last maintenance does a round
      of it and, unless that fails, moves its date; an earlier call does not, and leaves
      tables and date for publication as they are. */
  lemma MaintenanceIsTimed(c: Config, last: int, db: Tables, queue: map<string, QueueEntry>, call: Call, failed: bool,
                           before: Tables, ids: seq<Id>, thrown: bool, last': int, after: Tables,
                           queue': map<string, QueueEntry>)
    requires |call.tickets| >= 100
    requires Called(c, last, db, queue, call, failed, before, ids, thrown, last', after, queue')
    ensures call.clock.checkedAt - last >= 60000 ==>
      && last' == (if failed then last else call.clock.recordedAt)
      && exists stale, published ::
           Maintained(c, db, queue, stale, published, call.tickets, call.clock.maintainedAt, call.stop, failed, before)
    ensures call.clock.checkedAt - last < 60000 ==> !failed && before == db && last' == last
  {
    hide Maintained, Published;
  }

  /** A call that was not refused as busy: what it met and what it left. */
  datatype Turn = Turn(call: Call, last: int, db: Tables, queue: map<string, QueueEntry>, failed: bool, before: Tables,
    ids: seq<Id>, thrown: bool, last': int, after: Tables, queue': map<string, QueueEntry>)

  /** The calls of one publisher, one after the other; between them others may change the
      tables and the queue. */
  ghost predicate Turns(c: Config, turns: seq<Turn>) {
    && (forall i :: 0 <= i < |turns| ==> IsTurn(c, turns[i]))
    && (|turns| > 0 ==> turns[0].last == 0)
    && (forall i :: 0 < i < |turns| ==> turns[i].last == turns[i - 1].last')
  }

  ghost predicate IsTurn(c: Config, t: Turn) {
    && |t.call.tickets| >= 100
    && Called(c, t.last, t.db, t.queue, t.call, t.failed, t.before, t.ids, t.thrown, t.last', t.after, t.queue')
  }

  /** The call did maintenance, and that did not fail. */
  predicate Maintains(t: Turn) {
    t.call.clock.checkedAt - t.last >= 60000 && !t.failed
  }

  /** The call reads the clock at least a minute after all maintenance done before, and
      after time 0. */
  predicate IsMinuteLater(turns: seq<Turn>, k: nat)
    requires k < |turns|
  {
    && turns[k].call.clock.checkedAt >= 60000
    && forall j :: 0 <= j < k && Maintains(turns[j]) ==>
         turns[k].call.clock.checkedAt - turns[j].call.clock.recordedAt >= 60000
  }

  /** The date is that of an earlier call, or 0. */
  lemma {:induction false} LastOf(c: Config, turns: seq<Turn>, k: nat)
    requires Turns(c, turns) && k < |turns|
    ensures turns[k].last == 0
      || exists j :: 0 <= j < k && Maintains(turns[j]) && turns[k].last == turns[j].call.clock.recordedAt
  {
    hide Maintained, Published;
    if k > 0 {
      LastOf(c, turns, k - 1);
      assert IsTurn(c, turns[k - 1]);
    }
  }

  /** Delivery `d` has been PROCESSING for longer than the stale age. */
  predicate IsOverdue(c: Config, db: Tables, d: Id, now: int) {
    && d in db.deliveries && db.deliveries[d].status == PROCESSING
    && db.deliveries[d].lastAttemptAt.Some? && db.deliveries[d].lastAttemptAt.value + c.staleAge < now
  }

  /** The event of `d` is finished and older than retention allows. */
  predicate IsRetired(c: Config, db: Tables, d: Id, now: int)
    requires d in db.deliveries
  {
    var e := db.deliveries[d].event;
    && c.retentionDays > 0 && e in db.events && db.events[e].status in {EVENT_DONE, EVENT_FAILED}
    && db.events[e].updatedAt + c.retentionDays * 86400000 < now
  }

  /** The next attempt of `d` is ordered. */
  ghost predicate IsOrdered(outbox: map<Id, Ticket>, d: Id, n: nat, at: int) {
    exists t :: IsOrder(outbox, t, d, n, at)
  }

  predicate IsOrder(outbox: map<Id, Ticket>, t: Id, d: Id, n: nat, at: int) {
    t in outbox && outbox[t].delivery == d && outbox[t].attemptNumber == n && outbox[t].availableAt == at
  }

  /** The ids for new rows are new. */
  predicate HasNewIds(t: Turn) {
    P.Distinct(t.call.tickets) && forall i :: 0 <= i < |t.call.tickets| ==> t.call.tickets[i] !in t.db.outbox
  }

  /** Over any sequence of calls: one that comes a minute after all earlier maintenance,
      and whose own does not fail, turns every stale delivery to FAILED, due at once, and
      orders its next attempt, if fewer than 100 are stale; only one whose event retention
      deletes is gone instead. */
  lemma StaleIsRecovered(c: Config, turns: seq<Turn>, k: nat, d: Id)
    requires Turns(c, turns) && k < |turns| && IsMinuteLater(turns, k) && !turns[k].failed && HasNewIds(turns[k])
    requires var t, now := turns[k], turns[k].call.clock.maintainedAt;
      IsOverdue(c, t.db, d, now) && |set x | x in t.db.deliveries && IsOverdue(c, t.db, x, now)| < 100
    ensures var t, now := turns[k], turns[k].call.clock.maintainedAt;
      if d in t.after.deliveries then
        && t.after.deliveries[d] == t.db.deliveries[d].(status := FAILED, nextAttemptAt := Some(now))
        && IsOrdered(t.after.outbox, d, t.db.deliveries[d].attempts + 1, now)
      else IsRetired(c, t.db, d, now)
  {
    hide *;
    var t := turns[k];
    TurnOf(c, turns, k);
    IsDue(c, turns, k);
    TurnIs(c, t);
    MaintenanceIsTimed(c, t.last, t.db, t.queue, t.call, t.failed, t.before, t.ids, t.thrown, t.last', t.after,
      t.queue');
    var stale, published :| Maintained(c, t.db, t.queue, stale, published, t.call.tickets, t.call.clock.maintainedAt,
      t.call.stop, t.failed, t.before);
    RoundRecovers(c, t, stale, published, d);
    PublishedKeeps(t, d, t.db.deliveries[d].attempts + 1, t.call.clock.maintainedAt);
  }

  lemma TurnOf(c: Config, turns: seq<Turn>, k: nat)
    requires Turns(c, turns) && k < |turns|
    ensures IsTurn(c, turns[k])
  {
    hide IsTurn;
  }

  lemma IsDue(c: Config, turns: seq<Turn>, k: nat)
    requires Turns(c, turns) && k < |turns| && IsMinuteLater(turns, k)
    ensures turns[k].call.clock.checkedAt - turns[k].last >= 60000
  {
    hide Turns;
    LastOf(c, turns, k);
  }

  lemma TurnIs(c: Config, t: Turn)
    requires IsTurn(c, t)
    ensures |t.call.tickets| >= 100
    ensures Called(c, t.last, t.db, t.queue, t.call, t.failed, t.before, t.ids, t.thrown, t.last', t.after, t.queue')
    ensures !t.failed ==> Published(t.before, t.queue, t.ids, t.call, t.thrown, t.after, t.queue')
  {
    hide StartsFrom, Published;
  }

  /** Publication changes neither deliveries nor what rows order. */
  lemma PublishedKeeps(t: Turn, d: Id, n: nat, at: int)
    requires Published(t.before, t.queue, t.ids, t.call, t.thrown, t.after, t.queue')
    ensures t.after.deliveries == t.before.deliveries
    ensures IsOrdered(t.before.outbox, d, n, at) ==> IsOrdered(t.after.outbox, d, n, at)
  {
    if x :| IsOrder(t.before.outbox, x, d, n, at) {
      assert IsOrder(t.after.outbox, x, d, n, at);
    }
  }

  /** Neither clean-up touches the rows that it keeps. */
  lemma CleanedIs(c: Config, db: Tables, now: int, d: Id)
    ensures var cleaned := T.CleanupOldEvents(T.CleanupPublished(db, now), c.retentionDays, now);
      && (forall x :: x in cleaned.deliveries ==> x in db.deliveries && cleaned.deliveries[x] == db.deliveries[x])
      && (forall x :: x in cleaned.outbox ==> x in db.outbox)
      && (d in db.deliveries && d !in cleaned.deliveries ==> IsRetired(c, db, d, now))
      && (forall x :: T.IsStale(cleaned, x, now - c.staleAge) <==> x in cleaned.deliveries && IsOverdue(c, db, x, now))
  {
  }

  lemma FewerFound(c: Config, db: Tables, cleaned: Tables, stale: seq<(Id, nat)>, now: int)
    requires P.StaleRows(cleaned, now - c.staleAge, stale)
    requires forall x :: T.IsStale(cleaned, x, now - c.staleAge) ==> x in db.deliveries && IsOverdue(c, db, x, now)
    requires |set x | x in db.deliveries && IsOverdue(c, db, x, now)| < 100
    ensures |stale| < 100
  {
    var ids := seq(|stale|, i requires 0 <= i < |stale| => stale[i].0);
    SetOfDistinct(ids);
    Smaller(set x | x in ids, set x | x in db.deliveries && IsOverdue(c, db, x, now));
  }

  lemma RoundRecovers(c: Config, t: Turn, stale: seq<(Id, nat)>, published: seq<(Id, nat)>, d: Id)
    requires |t.call.tickets| >= 100 && !t.failed && HasNewIds(t)
    requires Maintained(c, t.db, t.queue, stale, published, t.call.tickets, t.call.clock.maintainedAt, t.call.stop,
      t.failed, t.before)
    requires var now := t.call.clock.maintainedAt;
      IsOverdue(c, t.db, d, now) && |set x | x in t.db.deliveries && IsOverdue(c, t.db, x, now)| < 100
    ensures var now := t.call.clock.maintainedAt;
      && d in t.db.deliveries
      && if d in t.before.deliveries then
           && t.before.deliveries[d] == t.db.deliveries[d].(status := FAILED, nextAttemptAt := Some(now))
           && IsOrdered(t.before.outbox, d, t.db.deliveries[d].attempts + 1, now)
         else IsRetired(c, t.db, d, now)
  {
    var now := t.call.clock.maintainedAt;
    var cleaned := T.CleanupOldEvents(T.CleanupPublished(t.db, now), c.retentionDays, now);
    hide *;
    CleanedIs(c, t.db, now, d);
    CompleteRound(c, t, stale, published, cleaned);
    OverdueIsThere(c, t.db, d, now);
    NewInCleaned(t, cleaned);
    StaleIsOverdue(c, t.db, cleaned, now);
    FewerFound(c, t.db, cleaned, stale, now);
    var recovered := RecoverAll(cleaned, stale, now - c.staleAge, t.call.tickets, now);
    RoundIs(cleaned, recovered, t.before, t.queue, stale, published, t.call.tickets, now - c.staleAge, now);
    SameKeys(cleaned, recovered, stale, now);
    if d in cleaned.deliveries {
      AllRecovered(cleaned, recovered, t.before, t.queue, stale, published, t.call.tickets, now - c.staleAge, now, d);
    }
  }

  lemma StaleIsOverdue(c: Config, db: Tables, cleaned: Tables, now: int)
    requires forall x :: T.IsStale(cleaned, x, now - c.staleAge) <==>
      x in cleaned.deliveries && IsOverdue(c, db, x, now)
    ensures forall x :: T.IsStale(cleaned, x, now - c.staleAge) ==> x in db.deliveries && IsOverdue(c, db, x, now)
  {
    forall x | T.IsStale(cleaned, x, now - c.staleAge) ensures x in db.deliveries && IsOverdue(c, db, x, now) {
    }
    hide T.IsStale;
  }

  lemma OverdueIsThere(c: Config, db: Tables, d: Id, now: int)
    requires IsOverdue(c, db, d, now)
    ensures d in db.deliveries
  {
  }

  lemma NewInCleaned(t: Turn, cleaned: Tables)
    requires HasNewIds(t) && forall x :: x in cleaned.outbox ==> x in t.db.outbox
    ensures P.Distinct(t.call.tickets)
      && forall i :: 0 <= i < |t.call.tickets| ==> t.call.tickets[i] !in cleaned.outbox
  {
  }

  /** Both recoveries leave each stale row FAILED and ordered. */
  lemma AllRecovered(db: Tables, recovered: Tables, after: Tables, queue: map<string, QueueEntry>,
      stale: seq<(Id, nat)>, published: seq<(Id, nat)>, tickets: seq<Id>, cutoff: int, now: int, d: Id)
    requires P.StaleRows(db, cutoff, stale) && |stale| < 100 && |stale| <= |tickets| && T.IsStale(db, d, cutoff)
    requires RowsRecovered(db, recovered, stale, now) && OrdersCreated(db, recovered, stale, tickets, now)
    requires P.StrandedRows(recovered, published)
    requires after == Tables(recovered.events, recovered.deliveries, Reopened(recovered.outbox, queue, published))
    ensures d in db.deliveries && d in after.deliveries
      && after.deliveries[d] == db.deliveries[d].(status := FAILED, nextAttemptAt := Some(now))
      && IsOrdered(after.outbox, d, db.deliveries[d].attempts + 1, now)
  {
    hide *;
    var i := FoundAt(db, cutoff, stale, d);
    RowIs(db, recovered, stale, now, d, i);
    OrderStays(db, recovered, after, queue, stale, published, tickets, now, i);
  }

  /** What both recoveries come to. */
  lemma RoundIs(db: Tables, recovered: Tables, after: Tables, queue: map<string, QueueEntry>,
      stale: seq<(Id, nat)>, published: seq<(Id, nat)>, tickets: seq<Id>, cutoff: int, now: int)
    requires P.StaleRows(db, cutoff, stale) && |stale| <= |tickets|
    requires P.Distinct(tickets) && forall i :: 0 <= i < |tickets| ==> tickets[i] !in db.outbox
    requires recovered == RecoverAll(db, stale, cutoff, tickets, now)
    requires P.StrandedRows(recovered, published) && after == ReopenAll(recovered, queue, published)
    ensures RowsRecovered(db, recovered, stale, now) && OrdersCreated(db, recovered, stale, tickets, now)
    ensures after == Tables(recovered.events, recovered.deliveries, Reopened(recovered.outbox, queue, published))
  {
    hide RecoverAll, ReopenAll, Reopened, P.IsPublishedPending, RowsRecovered, OrdersCreated, T.IsStale;
    RecoverAllResult(db, stale, cutoff, tickets, now);
    ReopenAllResult(recovered, queue, published);
  }

  lemma SameKeys(db: Tables, recovered: Tables, stale: seq<(Id, nat)>, now: int)
    requires RowsRecovered(db, recovered, stale, now)
    ensures recovered.deliveries.Keys == db.deliveries.Keys
  {
  }

  lemma FoundAt(db: Tables, cutoff: int, stale: seq<(Id, nat)>, d: Id) returns (i: nat)
    requires P.StaleRows(db, cutoff, stale) && |stale| < 100 && T.IsStale(db, d, cutoff)
    ensures d in db.deliveries && i < |stale| && stale[i] == (d, db.deliveries[d].attempts)
  {
    assert P.IsFound(stale, d);
    i :| 0 <= i < |stale| && stale[i].0 == d;
  }

  lemma RowIs(db: Tables, recovered: Tables, stale: seq<(Id, nat)>, now: int, d: Id, i: nat)
    requires RowsRecovered(db, recovered, stale, now) && i < |stale| && stale[i].0 == d && d in db.deliveries
    ensures d in recovered.deliveries
      && recovered.deliveries[d] == db.deliveries[d].(status := FAILED, nextAttemptAt := Some(now))
  {
    assert P.IsFound(stale, d);
  }

  /** Rows published more than seven days before go first: such a row is not reopened,
      even if its job is missing. */
  lemma CleanupComesFirst(c: Config, t: Turn, stale: seq<(Id, nat)>, published: seq<(Id, nat)>, x: Id)
    requires |t.call.tickets| >= 100 && !t.failed && HasNewIds(t)
    requires Maintained(c, t.db, t.queue, stale, published, t.call.tickets, t.call.clock.maintainedAt, t.call.stop,
      t.failed, t.before)
    requires x in t.db.outbox && t.db.outbox[x].publishedAt.Some?
      && t.db.outbox[x].publishedAt.value + 604800000 < t.call.clock.maintainedAt
    ensures x !in t.before.outbox
  {
    var now := t.call.clock.maintainedAt;
    var cleaned := T.CleanupOldEvents(T.CleanupPublished(t.db, now), c.retentionDays, now);
    hide *;
    OutdatedIsCleaned(c, t.db, now, x);
    CleanedIs(c, t.db, now, "");
    CompleteRound(c, t, stale, published, cleaned);
    NewInCleaned(t, cleaned);
    var recovered := RecoverAll(cleaned, stale, now - c.staleAge, t.call.tickets, now);
    RoundIs(cleaned, recovered, t.before, t.queue, stale, published, t.call.tickets, now - c.staleAge, now);
    NoneReappears(cleaned, recovered, t, stale, published, x, now);
  }

  lemma OutdatedIsCleaned(c: Config, db: Tables, now: int, x: Id)
    requires x in db.outbox && db.outbox[x].publishedAt.Some? && db.outbox[x].publishedAt.value + 604800000 < now
    ensures x !in T.CleanupOldEvents(T.CleanupPublished(db, now), c.retentionDays, now).outbox
  {
  }

  lemma NoneReappears(cleaned: Tables, recovered: Tables, t: Turn, stale: seq<(Id, nat)>, published: seq<(Id, nat)>,
      x: Id, now: int)
    requires |stale| <= |t.call.tickets| && OrdersCreated(cleaned, recovered, stale, t.call.tickets, now)
    requires t.before == Tables(recovered.events, recovered.deliveries, Reopened(recovered.outbox, t.queue, published))
    requires x !in cleaned.outbox && x in t.db.outbox && HasNewIds(t)
    ensures x !in t.before.outbox
  {
    assert x !in t.call.tickets;
    hide P.HasNoLiveJob, P.IsFound;
  }

  /** A round that does not fail goes through all four phases. */
  lemma CompleteRound(c: Config, t: Turn, stale: seq<(Id, nat)>, published: seq<(Id, nat)>, cleaned: Tables)
    requires |t.call.tickets| >= 100 && !t.failed
    requires cleaned == T.CleanupOldEvents(T.CleanupPublished(t.db, t.call.clock.maintainedAt), c.retentionDays,
      t.call.clock.maintainedAt)
    requires Maintained(c, t.db, t.queue, stale, published, t.call.tickets, t.call.clock.maintainedAt, t.call.stop,
      t.failed, t.before)
    ensures var now := t.call.clock.maintainedAt;
      && P.StaleRows(cleaned, now - c.staleAge, stale) && |stale| <= |t.call.tickets|
      && var recovered := RecoverAll(cleaned, stale, now - c.staleAge, t.call.tickets, now);
      && P.StrandedRows(recovered, published) && t.before == ReopenAll(recovered, t.queue, published)
  {
    hide T.CleanupOldEvents, T.CleanupPublished, RecoverAll, ReopenAll;
    assert stale[..|stale|] == stale && published[..|published|] == published;
  }

  /** A new order is not published, so stranded recovery leaves it. */
  lemma OrderStays(db: Tables, recovered: Tables, after: Tables, queue: map<string, QueueEntry>,
      stale: seq<(Id, nat)>, published: seq<(Id, nat)>, tickets: seq<Id>, now: int, i: nat)
    requires i < |stale| <= |tickets| && OrdersCreated(db, recovered, stale, tickets, now)
    requires P.StrandedRows(recovered, published)
    requires after == Tables(recovered.events, recovered.deliveries, Reopened(recovered.outbox, queue, published))
    ensures IsOrdered(after.outbox, stale[i].0, stale[i].1 + 1, now)
  {
    var x := tickets[i];
    assert recovered.outbox[x] == Ticket(stale[i].0, stale[i].1 + 1, now, None, 0, now);
    forall j | 0 <= j < |published| ensures published[j].0 != x {
      assert P.IsPublishedPending(recovered, published[j].0, published[j].1);
    }
    hide P.HasNoLiveJob;
    assert IsOrder(after.outbox, x, stale[i].0, stale[i].1 + 1, now);
  }
}
