/** The guarantees of the full interleaving, for every run of any number of
    workers, publishers, maintenance loops and replays, with duplicate and late
    jobs, crashes and lost jobs. */
module Guarantees {
  import opened Domain
  import opened Transactions
  import opened JobIds
  import opened Protocol
  import opened Effects
  import opened Structure
  import opened Attempts
  import Retry

  lemma {:induction false} RunCounted(c: Config, states: seq<State>, actions: seq<Action>, i: nat)
    requires c.Valid() && Run(c, states, actions) && i < |states|
    ensures Counted(c, states[i])
  {
    if i > 0 {
      RunCounted(c, states, actions, i - 1);
      CountStep(c, states[i - 1], actions[i - 1]);
    }
  }

  // ---------------------------------------------------------------- one send per attempt number

  /** The attempt numbers claimed in one replay epoch, in the order of the claims. */
  function ClaimsOf(sends: seq<Send>, epoch: nat): seq<nat> {
    if sends == [] then []
    else
      var last := sends[|sends| - 1];
      ClaimsOf(sends[..|sends| - 1], epoch) + if last.epoch == epoch then [last.attempt] else []
  }

  function UpTo(n: nat): seq<nat> {
    if n == 0 then [] else UpTo(n - 1) + [n]
  }

  lemma {:induction false} ClaimsCount(r: Record, n: nat, epoch: nat)
    requires Chained(r) && n <= |r.sends|
    ensures var claims := ClaimsOf(r.sends[..n], epoch);
      claims == UpTo(|claims|)
    ensures n > 0 && r.sends[n - 1].epoch == epoch ==> |ClaimsOf(r.sends[..n], epoch)| == r.sends[n - 1].attempt
    ensures n == 0 || r.sends[n - 1].epoch < epoch ==> ClaimsOf(r.sends[..n], epoch) == []
  {
    if n > 0 {
      ClaimsCount(r, n - 1, epoch);
      assert r.sends[..n][..n - 1] == r.sends[..n - 1];
      assert Numbered(r.sends, n - 1);
    }
  }

  /** Between replays the claims of a delivery are exactly 1, 2, ..., attempts, in
      that order, whatever duplicate jobs are processed. */
  lemma ClaimsAreConsecutive(c: Config, states: seq<State>, actions: seq<Action>, i: nat, d: Id, epoch: nat)
    requires c.Valid() && Run(c, states, actions) && i < |states| && d in states[i].h.records
    ensures var r := states[i].h.records[d];
      var claims := ClaimsOf(r.sends, epoch);
      && claims == UpTo(|claims|)
      && (epoch == r.epoch && d in states[i].db.deliveries ==> |claims| == states[i].db.deliveries[d].attempts)
  {
    RunCounted(c, states, actions, i);
    var r := states[i].h.records[d];
    assert RecordOk(c, r);
    ClaimsCount(r, |r.sends|, epoch);
    assert r.sends[..|r.sends|] == r.sends;
    if d in states[i].db.deliveries {
      assert RowOk(states[i].db.deliveries[d], RecordOf(states[i].h, d));
    }
  }

  /** No attempt number is claimed twice in an epoch, so each has one worker. */
  lemma OneWorkerPerAttempt(c: Config, states: seq<State>, actions: seq<Action>, k: nat, d: Id, i: nat, j: nat)
    requires c.Valid() && Run(c, states, actions) && k < |states| && d in states[k].h.records
    requires i < j < |states[k].h.records[d].sends|
    ensures var sends := states[k].h.records[d].sends;
      sends[i].epoch != sends[j].epoch || sends[i].attempt < sends[j].attempt
  {
    RunCounted(c, states, actions, k);
    assert RecordOk(c, states[k].h.records[d]);
    AttemptsRise(states[k].h.records[d], i, j);
  }

  lemma {:induction false} AttemptsRise(r: Record, i: nat, j: nat)
    requires Chained(r) && i < j < |r.sends|
    ensures r.sends[i].epoch <= r.sends[j].epoch
    ensures r.sends[i].epoch == r.sends[j].epoch ==> r.sends[i].attempt < r.sends[j].attempt
  {
    assert Numbered(r.sends, j);
    if i < j - 1 {
      AttemptsRise(r, i, j - 1);
    }
  }

  /** An outbox row for attempt k > 1 exists only if attempt k-1 was claimed. */
  lemma RetriesFollowClaims(c: Config, states: seq<State>, actions: seq<Action>, i: nat, t: Id)
    requires c.Valid() && Run(c, states, actions) && i < |states| && t in states[i].db.outbox
    ensures var row := states[i].db.outbox[t];
      row.attemptNumber > 1 ==> WasClaimed(RecordOf(states[i].h, row.delivery), row.attemptNumber - 1)
  {
    RunCounted(c, states, actions, i);
    assert OrderOk(c, states[i].h.issued[t], RecordOf(states[i].h, states[i].h.issued[t].delivery));
  }

  // ---------------------------------------------------------------- attempt bound

  /** Attempts, tickets and the sends of every epoch stay within maxAttempts plus
      the stale recoveries of the delivery. */
  lemma AttemptBound(c: Config, states: seq<State>, actions: seq<Action>, i: nat, d: Id)
    requires c.Valid() && Run(c, states, actions) && i < |states| && d in states[i].db.deliveries
    ensures var s, r := states[i], RecordOf(states[i].h, d);
      && d in s.h.records
      && s.db.deliveries[d].attempts <= c.maxAttempts + |r.recoveries|
      && (forall t :: t in s.db.outbox && s.db.outbox[t].delivery == d ==>
            1 <= s.db.outbox[t].attemptNumber <= c.maxAttempts + |r.recoveries|)
      && (forall epoch :: |ClaimsOf(r.sends, epoch)| <= c.maxAttempts + |r.recoveries|)
  {
    RunCounted(c, states, actions, i);
    var s, r := states[i], RecordOf(states[i].h, d);
    assert RecordOk(c, r) && RowOk(s.db.deliveries[d], RecordOf(s.h, d));
    forall t | t in s.db.outbox && s.db.outbox[t].delivery == d
      ensures 1 <= s.db.outbox[t].attemptNumber <= c.maxAttempts + |r.recoveries|
    {
      assert OrderOk(c, s.h.issued[t], RecordOf(s.h, s.h.issued[t].delivery));
    }
    forall epoch ensures |ClaimsOf(r.sends, epoch)| <= c.maxAttempts + |r.recoveries| {
      ClaimsWithin(c, r, |r.sends|, epoch);
      assert r.sends[..|r.sends|] == r.sends;
    }
  }

  lemma {:induction false} ClaimsWithin(c: Config, r: Record, n: nat, epoch: nat)
    requires RecordOk(c, r) && n <= |r.sends|
    ensures |ClaimsOf(r.sends[..n], epoch)| <= Limit(c, r)
  {
    if n > 0 {
      ClaimsWithin(c, r, n - 1, epoch);
      ClaimsCount(r, n, epoch);
      assert r.sends[..n][..n - 1] == r.sends[..n - 1];
    }
  }

  /** The step orders an attempt beyond maxAttempts: it recovers a delivery that was
      stale at its last attempt, or defers a job that was already beyond. */
  predicate OrdersBeyond(c: Config, s: State, a: Action) {
    match a
    case Maintain(m, RecoverOne(_)) =>
      && m in s.sweeps && s.sweeps[m].Stale? && |s.sweeps[m].found| > 0
      && IsStale(s.db, s.sweeps[m].found[0].0, s.sweeps[m].cutoff)
      && s.db.deliveries[s.sweeps[m].found[0].0].attempts >= c.maxAttempts
    case Work(w, Reject(_, _)) =>
      w in s.workers && s.workers[w].job.delivery in s.db.deliveries && s.workers[w].job.expected > c.maxAttempts
    case _ => false
  }

  predicate IsNewBeyond(c: Config, s: State, s': State, t: Id) {
    t in s'.db.outbox && t !in s.db.outbox && s'.db.outbox[t].attemptNumber > c.maxAttempts
  }

  ghost predicate AnyNewBeyond(c: Config, s: State, s': State) {
    exists t :: IsNewBeyond(c, s, s', t)
  }

  /** Exactly these two steps order an attempt beyond maxAttempts, in the full
      interleaving: failed attempts, replays and first orders never do. */
  lemma OvershootsExactly(c: Config, s: State, a: Action)
    requires c.Valid() && Counted(c, s) && Enabled(c, s, a)
    ensures AnyNewBeyond(c, s, Next(c, s, a)) <==> OrdersBeyond(c, s, a)
  {
    hide *;
    CountedIsStructured(c, s);
    RowsStep(c, s, a);
    EffectIsLawful(c, s, a);
    BeyondEffect(c, s, a);
    NumbersBeyond(c, s, Next(c, s, a), EffectOf(c, s, a));
  }

  lemma CountedIsStructured(c: Config, s: State)
    requires Counted(c, s)
    ensures Structured(s)
  {
  }

  lemma BeyondEffect(c: Config, s: State, a: Action)
    requires Counted(c, s) && Enabled(c, s, a)
    ensures var e := EffectOf(c, s, a);
      OrdersBeyond(c, s, a) <==> (e.Revive? || e.Defer?) && e.Number() > c.maxAttempts
  {
    hide Retry.Decide, RecordsOk, SendersOk, Structured;
    match a
    case Maintain(m, RecoverOne(_)) => assert FoundOk(s, s.sweeps[m].cutoff, s.sweeps[m].found[0]);
    case _ =>
  }

  lemma NumbersBeyond(c: Config, s: State, s': State, e: Effect)
    requires c.Valid() && Fits(s, s', e) && Lawful(c, s, e)
    ensures AnyNewBeyond(c, s, s') <==> (e.Revive? || e.Defer?) && e.Number() > c.maxAttempts
  {
    hide RowAfter, RecordAfter, EventsAfter, Ordered, IsSending;
    if e.Issues() {
      IssuedRow(s, s', e);
      hide Fits;
      assert e.Number() > c.maxAttempts ==> IsNewBeyond(c, s, s', e.t);
    }
  }

  lemma IssuedRow(s: State, s': State, e: Effect)
    requires Fits(s, s', e) && e.Issues()
    ensures e.t !in s.db.outbox && s'.db.outbox
      == s.db.outbox[e.t := NewTicket(e.d, e.Number(), e.AvailableAt(s.now), s.now)]
  {
  }

  // ---------------------------------------------------------------- backoff

  /** For a delivery with no replay and no stale recovery, attempt k+1 is never
      claimed before the time chosen when attempt k failed. */
  lemma BackoffIsRespected(c: Config, states: seq<State>, actions: seq<Action>, i: nat, d: Id, k: nat)
    requires c.Valid() && Run(c, states, actions) && i < |states| && d in states[i].h.records
    requires Undisturbed(states[i].h.records[d])
    requires k < |states[i].h.records[d].sends|
    ensures var r := states[i].h.records[d];
      && r.sends[k].attempt == k + 1
      && (k > 0 ==> k + 1 in r.notBefore && r.sends[k].at >= r.notBefore[k + 1])
  {
    RunCounted(c, states, actions, i);
    assert RecordOk(c, states[i].h.records[d]);
  }

  /** The chosen time is recorded when the attempt fails and, as long as the
      delivery is undisturbed, is never replaced. */
  lemma ChosenTimeStands(c: Config, states: seq<State>, actions: seq<Action>, i: nat, d: Id)
    requires c.Valid() && Run(c, states, actions) && i < |actions| && d in states[i].h.records
    requires d in states[i + 1].h.records && Undisturbed(states[i].h.records[d])
    ensures var before, after := states[i].h.records[d].notBefore, states[i + 1].h.records[d].notBefore;
      forall m :: m in before ==> m in after && after[m] == before[m]
  {
    RunCounted(c, states, actions, i);
    var s, a := states[i], actions[i];
    RowsStep(c, s, a);
    EffectIsLawful(c, s, a);
    TimeStands(c, s, Next(c, s, a), EffectOf(c, s, a), d);
    hide Next, EffectOf, Enabled;
  }

  lemma TimeStands(c: Config, s: State, s': State, e: Effect, d: Id)
    requires Counted(c, s) && Fits(s, s', e) && Lawful(c, s, e)
    requires d in s.h.records && d in s'.h.records && Undisturbed(s.h.records[d])
    ensures forall m :: m in s.h.records[d].notBefore ==>
      m in s'.h.records[d].notBefore && s'.h.records[d].notBefore[m] == s.h.records[d].notBefore[m]
  {
    hide Attempts.Counted, Lawful, Fits, RecordAfter, Undisturbed;
    RecordChange(s, s', e, d);
    if e.Writes() && e.d == d && d in s.db.deliveries {
      if e.Reschedule? {
        KnownRecord(s.h, d);
        TimeIsUnset(c, s, e);
      }
      TimesKept(s.h.records[d], s.db.deliveries[d], e, s.now);
    }
  }

  lemma TimesKept(r: Record, row: Delivery, e: Effect, now: int)
    requires e.Writes() && (e.Reschedule? ==> e.attempt + 1 !in r.notBefore)
    ensures var after := RecordAfter(r, row, e, now).notBefore;
      forall m :: m in r.notBefore ==> m in after && after[m] == r.notBefore[m]
  {
  }

  lemma TimeIsUnset(c: Config, s: State, e: Effect)
    requires Counted(c, s) && Lawful(c, s, e) && e.Reschedule? && Undisturbed(RecordOf(s.h, e.d))
    ensures e.attempt + 1 !in RecordOf(s.h, e.d).notBefore
  {
    hide *;
    CountedParts(c, s);
    var w := SentBy(c, s, e);
    SenderAt(s, w, e.d, e.attempt);
    UnsetFor(w, e.attempt, s.workers[w].index, RecordOf(s.h, e.d));
  }

  lemma UnsetFor(w: nat, attempt: nat, index: nat, r: Record)
    requires SenderOk(w, attempt, index, r) && Undisturbed(r)
    ensures attempt + 1 !in r.notBefore
  {
  }

  lemma EffectIsLawful(c: Config, s: State, a: Action)
    requires c.Valid() && Counted(c, s) && Enabled(c, s, a)
    ensures Lawful(c, s, EffectOf(c, s, a))
  {
    match a
    case Work(w, step) => WorkerLawful(c, s, w, step);
    case Maintain(m, step) => SweepLawful(c, s, m, step);
    case _ => OtherFrame(c, s, a);
  }

  lemma RecordChange(s: State, s': State, e: Effect, d: Id)
    requires Fits(s, s', e) && d in s.h.records && d in s'.h.records
    ensures s'.h.records[d] ==
      if e.Writes() && e.d == d && d in s.db.deliveries then RecordAfter(s.h.records[d], s.db.deliveries[d], e, s.now)
      else s.h.records[d]
  {
  }

  // ---------------------------------------------------------------- backoff after a replay

  /** Row `t` orders attempt `n` of `d` before time `at`. */
  predicate IsEarly(s: State, t: Id, d: Id, n: nat, at: int) {
    t in s.h.issued && s.h.issued[t].delivery == d && s.h.issued[t].number == n && s.h.issued[t].availableAt < at
  }

  ghost predicate HasEarly(s: State, d: Id, n: nat, at: int) {
    exists t :: IsEarly(s, t, d, n, at)
  }

  /** The step orders attempt `n` of `d` anew and before `at`: a replay, a stale recovery
      or a failed attempt, but not the deferral of a job. */
  ghost predicate OrdersAnew(c: Config, s: State, a: Action, d: Id, n: nat, at: int)
    requires Enabled(c, s, a)
  {
    var e := EffectOf(c, s, a);
    e.Issues() && !e.Defer? && e.d == d && e.Number() == n && e.AvailableAt(s.now) < at
  }

  /** Deferring a job does not bring its attempt forward. */
  lemma DeferralIsLate(c: Config, s: State, e: Effect, at: int)
    requires e.Defer? && Lawful(c, s, e) && e.at < at
    ensures HasEarly(s, e.d, e.number, at)
  {
    var t :| t in s.h.issued && IsOrder(s.h.issued[t], e.d, e.number, s.now);
    assert IsEarly(s, t, e.d, e.number, at);
  }

  lemma EarlyStep(c: Config, s: State, a: Action, d: Id, n: nat, at: int)
    requires c.Valid() && Counted(c, s) && Enabled(c, s, a) && d in s.h.records && !OrdersAnew(c, s, a, d, n, at)
    ensures HasEarly(Next(c, s, a), d, n, at) <==> HasEarly(s, d, n, at)
    ensures d in Next(c, s, a).h.records
  {
    var s', e := Next(c, s, a), EffectOf(c, s, a);
    hide *;
    CountedIsStructured(c, s);
    RowsStep(c, s, a);
    EffectIsLawful(c, s, a);
    StillIssued(s, s', d, n, at);
    if HasEarly(s', d, n, at) {
      var t := SomeEarly(s', d, n, at);
      IssuedSince(s, s', e, t, d, n, at);
      if e.Defer? && !IsEarly(s, t, d, n, at) {
        DeferralIsLate(c, s, e, at);
      }
      NotAnew(c, s, a, d, n, at);
      EarlyIs(s, t, d, n, at);
    }
  }

  lemma StillIssued(s: State, s': State, d: Id, n: nat, at: int)
    requires Grows(s, s')
    ensures HasEarly(s, d, n, at) ==> HasEarly(s', d, n, at)
    ensures d in s.h.records ==> d in s'.h.records
  {
    if t :| IsEarly(s, t, d, n, at) {
      assert IsEarly(s', t, d, n, at);
    }
  }

  lemma SomeEarly(s: State, d: Id, n: nat, at: int) returns (t: Id)
    requires HasEarly(s, d, n, at)
    ensures IsEarly(s, t, d, n, at)
  {
    t :| IsEarly(s, t, d, n, at);
  }

  lemma EarlyIs(s: State, t: Id, d: Id, n: nat, at: int)
    ensures IsEarly(s, t, d, n, at) ==> HasEarly(s, d, n, at)
  {
  }

  lemma NotAnew(c: Config, s: State, a: Action, d: Id, n: nat, at: int)
    requires Enabled(c, s, a) && !OrdersAnew(c, s, a, d, n, at)
    ensures var e := EffectOf(c, s, a);
      !(e.Issues() && !e.Defer? && e.d == d && e.Number() == n && e.AvailableAt(s.now) < at)
  {
  }

  /** Where an early order of a known delivery comes from. */
  lemma IssuedSince(s: State, s': State, e: Effect, t: Id, d: Id, n: nat, at: int)
    requires Fits(s, s', e) && d in s.h.records && IsEarly(s', t, d, n, at)
    ensures IsEarly(s, t, d, n, at) || (e.Issues() && e.d == d && e.Number() == n && e.AvailableAt(s.now) < at)
    ensures e.Defer? && !IsEarly(s, t, d, n, at) ==> e.number == n && e.at < at
  {
    hide RowAfter, RecordAfter, EventsAfter;
  }

  lemma {:induction false} EarlyOrdersAreOld(c: Config, states: seq<State>, actions: seq<Action>, i: nat, j: nat,
      d: Id, n: nat, at: int)
    requires c.Valid() && Run(c, states, actions) && i <= j < |states| && d in states[i].h.records
    requires forall k :: i <= k < j ==> !OrdersAnew(c, states[k], actions[k], d, n, at)
    ensures HasEarly(states[j], d, n, at) <==> HasEarly(states[i], d, n, at)
    ensures d in states[j].h.records
    decreases j
  {
    hide Enabled, Next, OrdersAnew, HasEarly, Counted, Init;
    if i < j {
      EarlyOrdersAreOld(c, states, actions, i, j - 1, d, n, at);
      RunCounted(c, states, actions, j - 1);
      EarlyStep(c, states[j - 1], actions[j - 1], d, n, at);
    }
  }

  /** The step claims attempt `n` of `d`. */
  ghost predicate Claims(c: Config, s: State, a: Action, d: Id, n: nat)
    requires Enabled(c, s, a)
  {
    var e := EffectOf(c, s, a);
    e.Begin? && e.d == d && d in s.db.deliveries && s.db.deliveries[d].attempts + 1 == n
  }

  lemma ClaimHasOrder(c: Config, s: State, a: Action, d: Id, n: nat, at: int)
    requires c.Valid() && Counted(c, s) && Enabled(c, s, a) && Claims(c, s, a, d, n) && s.now < at
    ensures HasEarly(s, d, n, at)
  {
    hide *;
    EffectIsLawful(c, s, a);
    ClaimIs(c, s, a, d, n);
    var t := BeginsUnder(c, s, EffectOf(c, s, a));
    OrderIsEarly(s, t, d, n, at);
  }

  lemma ClaimIs(c: Config, s: State, a: Action, d: Id, n: nat)
    requires Enabled(c, s, a) && Claims(c, s, a, d, n)
    ensures var e := EffectOf(c, s, a);
      e.Begin? && e.d == d && d in s.db.deliveries && s.db.deliveries[d].attempts + 1 == n
  {
    hide EffectOf, Enabled;
  }

  lemma OrderIsEarly(s: State, t: Id, d: Id, n: nat, at: int)
    requires t in s.h.issued && IsOrder(s.h.issued[t], d, n, s.now) && s.now < at
    ensures HasEarly(s, d, n, at)
  {
    assert IsEarly(s, t, d, n, at);
  }

  /** Backoff in every replay epoch, whatever is deferred: when time `at` is chosen for
      attempt `n` at step `i`, then as long as nothing orders that attempt anew, it is
      claimed before `at` only if an order of it for an earlier time was created before
      step `i`.  Such an order is necessary, not sufficient: it may be used up. */
  lemma EarlyClaimNeedsOldOrder(c: Config, states: seq<State>, actions: seq<Action>, i: nat, j: nat, d: Id, n: nat,
      at: int, t: Id)
    requires c.Valid() && Run(c, states, actions) && i < j < |states| && n > 0
    requires EffectOf(c, states[i], actions[i]) == Reschedule(d, n - 1, at, t)
    requires forall k :: i < k < j ==> !OrdersAnew(c, states[k], actions[k], d, n, at)
    ensures HasEarly(states[j], d, n, at) <==> HasEarly(states[i], d, n, at)
    ensures j < |actions| && Claims(c, states[j], actions[j], d, n) && states[j].now < at ==>
      HasEarly(states[i], d, n, at)
  {
    RunCounted(c, states, actions, i);
    RunCounted(c, states, actions, j);
    FailedIsKnown(c, states[i], actions[i], d);
    assert !OrdersAnew(c, states[i], actions[i], d, n, at);
    hide Enabled, Next, OrdersAnew, HasEarly, Counted, Init, EffectOf, Claims;
    EarlyOrdersAreOld(c, states, actions, i, j, d, n, at);
    if j < |actions| && Claims(c, states[j], actions[j], d, n) && states[j].now < at {
      ClaimHasOrder(c, states[j], actions[j], d, n, at);
    }
  }

  lemma FailedIsKnown(c: Config, s: State, a: Action, d: Id)
    requires Counted(c, s) && Enabled(c, s, a) && EffectOf(c, s, a).Reschedule? && EffectOf(c, s, a).d == d
    ensures d in s.h.records
  {
    var s', e := Next(c, s, a), EffectOf(c, s, a);
    hide *;
    CountedIsStructured(c, s);
    RowsStep(c, s, a);
    WrittenIsKnown(s, s', e);
  }

  lemma WrittenIsKnown(s: State, s': State, e: Effect)
    requires Fits(s, s', e) && e.Reschedule?
    ensures e.d in s.h.records
  {
    hide RowAfter, RecordAfter, EventsAfter;
  }

  /** And it was created before the replay that began the epoch, unless the attempt was
      ordered anew since. */
  lemma EarlyClaimNeedsOldEpoch(c: Config, states: seq<State>, actions: seq<Action>, replay: nat, i: nat, j: nat,
      d: Id, n: nat, at: int, t: Id)
    requires c.Valid() && Run(c, states, actions) && replay < i < j < |states| && n > 1 && d in states[replay].h.records
    requires EffectOf(c, states[replay], actions[replay]).Restart?
      && EffectOf(c, states[replay], actions[replay]).d == d
    requires EffectOf(c, states[i], actions[i]) == Reschedule(d, n - 1, at, t)
    requires forall k :: replay < k < j && k != i ==> !OrdersAnew(c, states[k], actions[k], d, n, at)
    ensures HasEarly(states[j], d, n, at) <==> HasEarly(states[replay], d, n, at)
    ensures j < |actions| && Claims(c, states[j], actions[j], d, n) && states[j].now < at ==>
      HasEarly(states[replay], d, n, at)
  {
    assert !OrdersAnew(c, states[replay], actions[replay], d, n, at);
    hide Enabled, Next, OrdersAnew, HasEarly, Counted, Init, EffectOf, Claims;
    EarlyOrdersAreOld(c, states, actions, replay, i, d, n, at);
    EarlyClaimNeedsOldOrder(c, states, actions, i, j, d, n, at, t);
  }

  // ---------------------------------------------------------------- stale recovery

  /** Whenever stale recovery's guarded update succeeds, the attempts it read in
      an earlier step are still the row's, so its ticket orders the next attempt;
      and no recovery had yet ended the current PROCESSING period. */
  lemma StaleReadIsSafe(c: Config, states: seq<State>, actions: seq<Action>, i: nat)
    requires c.Valid() && Run(c, states, actions) && i < |actions|
    requires actions[i].Maintain? && actions[i].sweeping.RecoverOne?
    ensures var s, s', m := states[i], states[i + 1], actions[i].m;
      var (d, attemptsRead), ticket := s.sweeps[m].found[0], actions[i].sweeping.ticket;
      IsStale(s.db, d, s.sweeps[m].cutoff) ==>
        && d in s.h.records
        && attemptsRead == s.db.deliveries[d].attempts
        && s'.db.deliveries == s.db.deliveries[d := s.db.deliveries[d].(status := FAILED, nextAttemptAt := Some(s.now))]
        && s'.db.outbox == s.db.outbox[ticket := NewTicket(d, s.db.deliveries[d].attempts + 1, s.now, s.now)]
        && |s.h.records[d].sends| !in s.h.records[d].recoveries
  {
    RunCounted(c, states, actions, i);
    RecoveryIsExact(c, states[i], actions[i].m, actions[i].sweeping);
  }

  lemma RecoveryIsExact(c: Config, s: State, m: nat, step: SweepStep)
    requires Counted(c, s) && SweepEnabled(c, s, m, step) && step.RecoverOne?
    ensures var s' := SweepNext(c, s, m, step);
      var (d, attemptsRead) := s.sweeps[m].found[0];
      IsStale(s.db, d, s.sweeps[m].cutoff) ==>
        && d in s.h.records
        && attemptsRead == s.db.deliveries[d].attempts
        && s'.db.deliveries == s.db.deliveries[d := s.db.deliveries[d].(status := FAILED, nextAttemptAt := Some(s.now))]
        && s'.db.outbox == s.db.outbox[step.ticket := NewTicket(d, s.db.deliveries[d].attempts + 1, s.now, s.now)]
        && |s.h.records[d].sends| !in s.h.records[d].recoveries
  {
    var found, cutoff := s.sweeps[m].found[0], s.sweeps[m].cutoff;
    assert FoundOk(s, cutoff, found);
    if IsStale(s.db, found.0, cutoff) {
      assert RowOk(s.db.deliveries[found.0], RecordOf(s.h, found.0));
    }
    hide Counted;
  }

  /** However many maintenance loops run, they create at most one recovery ticket
      for each PROCESSING period: the recoveries of a delivery end the periods of
      different claims, in order. */
  lemma OneRecoveryPerPeriod(c: Config, states: seq<State>, actions: seq<Action>, i: nat, d: Id)
    requires c.Valid() && Run(c, states, actions) && i < |states| && d in states[i].h.records
    ensures var r := states[i].h.records[d];
      && OncePerPeriod(r)
      && (d in states[i].db.deliveries && states[i].db.deliveries[d].status.PROCESSING? ==>
            |r.sends| >= 1 && |r.sends| !in r.recoveries)
  {
    RunCounted(c, states, actions, i);
    assert RecordOk(c, states[i].h.records[d]);
    if d in states[i].db.deliveries {
      assert RowOk(states[i].db.deliveries[d], RecordOf(states[i].h, d));
    }
  }

  // ---------------------------------------------------------------- re-publication

  /** A recorded publish failure or a stranded recovery moves the row to a counter
      whose job id was never used for any row. */
  lemma NewCounterIsUnused(c: Config, states: seq<State>, actions: seq<Action>, i: nat, t: Id)
    requires c.Valid() && Run(c, states, actions) && i < |actions|
    requires t in states[i].db.outbox && t in states[i + 1].db.outbox
    requires states[i].db.outbox[t].publishes != states[i + 1].db.outbox[t].publishes
    ensures var n := states[i + 1].db.outbox[t].publishes;
      && n == states[i].db.outbox[t].publishes + 1
      && (t, n) !in states[i + 1].h.added
      && JobId(t, n) !in states[i + 1].queue
      && (forall u, k :: (u, k) in states[i + 1].h.added ==> JobId(u, k) != JobId(t, n))
  {
    var s, s', a := states[i], states[i + 1], actions[i];
    RunCounted(c, states, actions, i);
    RunCounted(c, states, actions, i + 1);
    RowsStep(c, s, a);
    RemarkCounts(c, s, a);
    hide Next, EffectOf, Enabled, Run;
    CounterChange(s, s', EffectOf(c, s, a), t);
    UnusedPair(s', t, s'.db.outbox[t].publishes);
  }

  lemma CounterChange(s: State, s': State, e: Effect, t: Id)
    requires RowsOk(s) && AddedOk(s) && Fits(s, s', e)
    requires e.Remark? && e.t in s.db.outbox ==> e.ticket.publishes <= s.db.outbox[e.t].publishes + 1
    requires t in s.db.outbox && t in s'.db.outbox && s.db.outbox[t].publishes != s'.db.outbox[t].publishes
    ensures s'.db.outbox[t].publishes == s.db.outbox[t].publishes + 1
    ensures (t, s'.db.outbox[t].publishes) !in s'.h.added
  {
    assert e.Remark? && e.t == t;
  }

  lemma UnusedPair(s: State, t: Id, n: nat)
    requires QueueOk(s) && (t, n) !in s.h.added
    ensures JobId(t, n) !in s.queue
    ensures forall u, k :: (u, k) in s.h.added ==> JobId(u, k) != JobId(t, n)
  {
    if JobId(t, n) in s.queue {
      var job := s.queue[JobId(t, n)].job;
      assert JobOk(s, job);
      JobIdInjective(job.outbox, job.counter, t, n);
    }
    forall u, k | (u, k) in s.h.added ensures JobId(u, k) != JobId(t, n) {
      if JobId(u, k) == JobId(t, n) {
        JobIdInjective(u, k, t, n);
      }
    }
  }

  lemma RemarkCounts(c: Config, s: State, a: Action)
    requires Enabled(c, s, a)
    ensures var e := EffectOf(c, s, a);
      e.Remark? && e.t in s.db.outbox ==> e.ticket.publishes <= s.db.outbox[e.t].publishes + 1
  {
    hide Retry.Decide;
  }

  /** An add under an id that was never added before is never swallowed: the job
      is in the queue afterwards, waiting, with the row's payload.  This holds
      with any number of publishers holding older copies of the row. */
  lemma FirstAddIsNotSwallowed(c: Config, states: seq<State>, actions: seq<Action>, i: nat)
    requires c.Valid() && Run(c, states, actions) && i < |actions|
    requires actions[i].Publisher? && actions[i].publishing.AddJob?
    ensures var s, s' := states[i], states[i + 1];
      var row := s.publishers[actions[i].p].rows[0];
      && (row.outbox in s.db.outbox ==> row.counter <= s.db.outbox[row.outbox].publishes)
      && ((row.outbox, row.counter) !in s.h.added ==>
            && KeyOf(row) !in s.queue
            && s'.queue == s.queue[KeyOf(row) := QueueEntry(row, WAITING)]
            && row.outbox in s.h.issued && s.h.issued[row.outbox].delivery == row.delivery
                 && s.h.issued[row.outbox].number == row.expected)
  {
    var s, p := states[i], actions[i].p;
    RunCounted(c, states, actions, i);
    assert BatchOk(s, s.publishers[p]);
    var row := s.publishers[p].rows[0];
    assert CopyOk(s, row);
    if KeyOf(row) in s.queue {
      var job := s.queue[KeyOf(row)].job;
      assert JobOk(s, job);
      JobIdInjective(row.outbox, row.counter, job.outbox, job.counter);
    }
  }
}
