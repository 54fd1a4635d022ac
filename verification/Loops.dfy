/** What a maintenance loop does with the rows it has listed for stranded recovery:
    which of them it gets to, and which it never does. */
module Loops {
  import opened Domain
  import opened Transactions
  import opened JobIds
  import opened Protocol
  import opened Effects
  import opened Paths
  import opened Structure
  import opened Lossless
  import opened Rescue

  predicate Lists(s: State, m: nat, i: nat, t: Id) {
    m in s.sweeps && s.sweeps[m].Stranded? && i < |s.sweeps[m].published| && s.sweeps[m].published[i].0 == t
  }

  lemma OtherLoopStays(c: Config, s: State, m: nat, step: SweepStep, l: nat)
    requires SweepEnabled(c, s, m, step) && l != m
    ensures var s' := SweepNext(c, s, m, step);
      l in s'.sweeps ==> l in s.sweeps && s'.sweeps[l] == s.sweeps[l]
  {
    hide StaleRows, StrandedRows, HasNoLiveJob, RecoverStale, IsStale, Reopen, Issue, Update;
  }

  // ---------------------------------------------------------------- entries that a loop gets to

  /** Loop `m` goes past entry `j` of its list: the row exists, or the loop skips it
      because of a live job.  Reopening a deleted row makes the loop give up its list. */
  predicate IsPassed(s: State, m: nat, j: int)
    requires m in s.sweeps && s.sweeps[m].Stranded? && 0 <= j < |s.sweeps[m].published|
  {
    var entry := s.sweeps[m].published[j];
    entry.0 in s.db.outbox || (!(j == 0 && s.sweeps[m].condemned) && !HasNoLiveJob(s.queue, entry.0, entry.1))
  }

  ghost predicate ClearWay(s: State, m: nat, i: int) {
    m in s.sweeps && s.sweeps[m].Stranded? && i <= |s.sweeps[m].published|
    && forall j :: 0 <= j < i ==> IsPassed(s, m, j)
  }

  /** Rows are reopened, and loops move on. */
  ghost predicate OnlyReopened(s: State, s': State) {
    && s' == s.(db := s.db.(outbox := s'.db.outbox), sweeps := s'.sweeps)
    && s'.db.outbox.Keys == s.db.outbox.Keys
    && (forall t :: t in s.db.outbox ==>
          var (before, after) := (s.db.outbox[t], s'.db.outbox[t]);
          after == before.(publishedAt := after.publishedAt, publishes := after.publishes))
  }

  ghost predicate AllReopen(actions: seq<Action>, m: nat) {
    forall k :: 0 <= k < |actions| ==> Reopens(actions[k], m)
  }

  /** A loop gets to entry `i` of its list, if it goes past the entries before it. */
  lemma {:induction false} LoopGetsThere(c: Config, s: State, m: nat, i: nat, t: Id)
      returns (states: seq<State>, actions: seq<Action>)
    requires Lists(s, m, i, t) && ClearWay(s, m, i)
    ensures |states| > 0 && Path(c, states, actions) && states[0] == s && AllReopen(actions, m)
    ensures OnlyReopened(s, Last(states)) && Lists(Last(states), m, 0, t)
    ensures Last(states).sweeps[m].published[0] == s.sweeps[m].published[i]
    ensures i == 0 ==> Last(states) == s
    ensures i > 0 ==> !Last(states).sweeps[m].condemned
    decreases i, if s.sweeps[m].condemned then 0 else 1
  {
    if i == 0 {
      StartPath(c, s);
      states, actions := [s], [];
    } else {
      var step := if s.sweeps[m].condemned then ReopenOne else InspectOne;
      var j := LoopIsCloser(c, s, m, step, i, t);
      var a, next := Maintain(m, step), SweepNext(c, s, m, step);
      hide *;
      SweepIs(c, s, m, step);
      states, actions := LoopGetsThere(c, next, m, j, t);
      Prepend(c, s, a, states, actions);
      ReopensFirst(actions, m, step);
      ReopenedTwice(s, next, Last(states));
      states, actions := [s] + states, [a] + actions;
    }
  }

  lemma ReopensFirst(actions: seq<Action>, m: nat, step: SweepStep)
    requires AllReopen(actions, m) && (step.InspectOne? || step.ReopenOne?)
    ensures AllReopen([Maintain(m, step)] + actions, m)
  {
  }

  lemma ReopenedTwice(s: State, mid: State, s': State)
    requires OnlyReopened(s, mid) && OnlyReopened(mid, s')
    ensures OnlyReopened(s, s')
  {
  }

  /** What the loop's next step does. */
  lemma LoopNext(c: Config, s: State, m: nat, step: SweepStep)
    requires m in s.sweeps && s.sweeps[m].Stranded? && |s.sweeps[m].published| > 0
    requires step == if s.sweeps[m].condemned then ReopenOne else InspectOne
    requires step.ReopenOne? ==> s.sweeps[m].published[0].0 in s.db.outbox
    ensures SweepEnabled(c, s, m, step)
    ensures var s', rows := SweepNext(c, s, m, step), s.sweeps[m].published;
      if step.ReopenOne?
      then s' == s.(db := Reopen(s.db, rows[0].0), sweeps := s.sweeps[m := Stranded(rows[1..], false)])
      else s' == s.(sweeps := s.sweeps[m :=
        if HasNoLiveJob(s.queue, rows[0].0, rows[0].1) then Stranded(rows, true) else Stranded(rows[1..], false)])
  {
    hide HasNoLiveJob, Reopen;
  }

  lemma LoopIsCloser(c: Config, s: State, m: nat, step: SweepStep, i: nat, t: Id) returns (j: nat)
    requires i > 0 && Lists(s, m, i, t) && ClearWay(s, m, i)
    requires step == if s.sweeps[m].condemned then ReopenOne else InspectOne
    ensures SweepEnabled(c, s, m, step)
    ensures var s' := SweepNext(c, s, m, step);
      && OnlyReopened(s, s') && Lists(s', m, j, t) && ClearWay(s', m, j)
      && s'.sweeps[m].published[j] == s.sweeps[m].published[i]
      && (if j == i then step.InspectOne? && s'.sweeps[m].condemned else j == i - 1 && !s'.sweeps[m].condemned)
  {
    assert IsPassed(s, m, 0);
    hide HasNoLiveJob, SweepNext, SweepEnabled, Reopen, ClearWay;
    LoopNext(c, s, m, step);
    var s', rows := SweepNext(c, s, m, step), s.sweeps[m].published;
    if step.InspectOne? && HasNoLiveJob(s.queue, rows[0].0, rows[0].1) {
      j := i;
      SameEntry(s, s', m, i);
    } else {
      j := i - 1;
      if step.ReopenOne? {
        ReopenIsRemark(s.db, rows[0].0);
      }
      OneCloser(s, s', m, i);
    }
  }

  lemma ReopenIsRemark(db: Tables, t: Id)
    requires t in db.outbox
    ensures var db' := Reopen(db, t);
      db' == db.(outbox := db.outbox[t := db.outbox[t].(publishedAt := None, publishes := db.outbox[t].publishes + 1)])
  {
  }

  lemma SameEntry(s: State, s': State, m: nat, i: nat)
    requires i > 0 && ClearWay(s, m, i) && s.sweeps[m].published[0].0 in s.db.outbox
    requires s' == s.(sweeps := s.sweeps[m := Stranded(s.sweeps[m].published, true)])
    ensures ClearWay(s', m, i)
  {
    hide HasNoLiveJob;
    forall j | 0 <= j < i ensures IsPassed(s', m, j) {
      assert IsPassed(s, m, j);
    }
  }

  lemma OneCloser(s: State, s': State, m: nat, i: nat)
    requires i > 0 && ClearWay(s, m, i) && i < |s.sweeps[m].published|
    requires s'.queue == s.queue && s'.sweeps == s.sweeps[m := Stranded(s.sweeps[m].published[1..], false)]
    requires s'.db.outbox.Keys == s.db.outbox.Keys
    ensures ClearWay(s', m, i - 1) && s'.sweeps[m].published[i - 1] == s.sweeps[m].published[i]
  {
    hide HasNoLiveJob;
    forall j | 0 <= j < i - 1 ensures IsPassed(s', m, j) {
      assert IsPassed(s, m, j + 1);
    }
  }

  lemma ReopensJoin(actions: seq<Action>, done: seq<Action>, m: nat)
    requires AllReopen(actions, m) && AllReopen(done, m)
    ensures AllReopen(actions + done, m)
  {
  }

  lemma HeadIsReopened(c: Config, s: State, m: nat, d: Id, n: nat, t: Id)
      returns (states: seq<State>, actions: seq<Action>)
    requires Structured(s) && IsOrderRow(s, d, n, t) && Lists(s, m, 0, t)
    requires s.sweeps[m].condemned || HasNoLiveJob(s.queue, t, s.sweeps[m].published[0].1)
    ensures |states| > 0 && Path(c, states, actions) && states[0] == s && AllReopen(actions, m)
    ensures Backed(Last(states), d, n) && Last(states).db == Reopen(s.db, t) && Last(states).queue == s.queue
    decreases if s.sweeps[m].condemned then 0 else 1
  {
    var step := if s.sweeps[m].condemned then ReopenOne else InspectOne;
    assert s.sweeps[m].published[0].0 == t && t in s.db.outbox;
    hide Reopen, HasNoLiveJob, Structured, SweepNext, SweepEnabled, Path, Enabled, Next, Backed, Reopens;
    LoopNext(c, s, m, step);
    SweepIs(c, s, m, step);
    SweepKeeps(c, s, m, step);
    var a, next := Maintain(m, step), SweepNext(c, s, m, step);
    if step.ReopenOne? {
      ReopenedIsBacked(s, next, d, n, t);
      StartPath(c, next);
      states, actions := [next], [];
    } else {
      states, actions := HeadIsReopened(c, next, m, d, n, t);
    }
    Prepend(c, s, a, states, actions);
    ReopensFirst(actions, m, step);
    states, actions := [s] + states, [a] + actions;
  }

  lemma Prepend(c: Config, s: State, a: Action, states: seq<State>, actions: seq<Action>)
    requires |states| > 0 && Enabled(c, s, a) && states[0] == Next(c, s, a) && Path(c, states, actions)
    ensures Path(c, [s] + states, [a] + actions) && Last([s] + states) == Last(states) && ([s] + states)[0] == s
  {
    hide Enabled, Next;
    var states', actions' := [s] + states, [a] + actions;
    forall i | 0 <= i < |actions'|
      ensures Enabled(c, states'[i], actions'[i]) && states'[i + 1] == Next(c, states'[i], actions'[i])
    {
      if i > 0 {
        assert actions'[i] == actions[i - 1] && states'[i] == states[i - 1] && states'[i + 1] == states[i];
      }
    }
  }

  // ---------------------------------------------------------------- and to which it never does

  predicate IsGone(s: State, t: Id) {
    t in s.h.issued && t !in s.db.outbox
  }

  /** Nobody has a job of row `t`, nor a copy to add one. */
  ghost predicate Unheld(s: State, t: Id) {
    && !HasJob(s, t)
    && (forall w :: w in s.workers ==> s.workers[w].job.outbox != t)
    && (forall p, i :: p in s.publishers && 0 <= i < |s.publishers[p].rows| ==> s.publishers[p].rows[i].outbox != t)
  }

  /** Loop `m` gives up its list at entry `j`: its row was deleted, and it has found no live
      job, or will, as nobody can bring one back. */
  ghost predicate IsBar(s: State, m: nat, j: int)
    requires m in s.sweeps && s.sweeps[m].Stranded? && 0 <= j < |s.sweeps[m].published|
  {
    var entry := s.sweeps[m].published[j];
    && IsGone(s, entry.0)
    && ((j == 0 && s.sweeps[m].condemned) || (HasNoLiveJob(s.queue, entry.0, entry.1) && Unheld(s, entry.0)))
  }

  /** Loop `m` never gets to entry `i` of its list. */
  ghost predicate Barred(s: State, m: nat, i: int) {
    m in s.sweeps && s.sweeps[m].Stranded? && i <= |s.sweeps[m].published|
    && exists j :: 0 <= j < i && IsBar(s, m, j)
  }

  lemma BarredIsNotClear(s: State, m: nat, i: int)
    requires Barred(s, m, i)
    ensures !ClearWay(s, m, i)
  {
    hide HasNoLiveJob, Unheld;
    var j :| 0 <= j < i && IsBar(s, m, j);
    assert !IsPassed(s, m, j);
  }

  /** No job of row `t` is new or changes, and still nobody holds one. */
  ghost predicate StaysUnheld(s: State, s': State, t: Id) {
    && Unheld(s', t)
    && forall n: nat :: JobId(t, n) in s'.queue ==>
         JobId(t, n) in s.queue && s'.queue[JobId(t, n)].state == s.queue[JobId(t, n)].state
  }

  lemma WorkerRevives(c: Config, s: State, w: nat, step: WorkerStep, t: Id)
    requires WorkerEnabled(s, w, step) && Unheld(s, t)
    ensures StaysUnheld(s, WorkerNext(c, s, w, step), t)
  {
    var s' := WorkerNext(c, s, w, step);
    WorkerFrame(c, s, w, step);
    WorkerJob(c, s, w, step);
    if step.Report? {
      ReportElsewhere(s, w, t);
    }
    hide WorkerNext, JobId;
    forall k ensures !IsJobOf(s', k, t) {
      assert !IsJobOf(s, k, t);
    }
    if step.Take? {
      assert !IsJobOf(s, step.jobId, t);
    }
  }

  lemma ReportElsewhere(s: State, w: nat, t: Id)
    requires w in s.workers && s.workers[w].job.outbox != t
    ensures forall n: nat :: JobId(t, n) != KeyOf(s.workers[w].job)
  {
    forall n: nat ensures JobId(t, n) != KeyOf(s.workers[w].job) {
      if JobId(t, n) == KeyOf(s.workers[w].job) {
        JobIdInjective(t, n, s.workers[w].job.outbox, s.workers[w].job.counter);
      }
    }
  }

  lemma PublisherRevives(s: State, p: nat, step: PublisherStep, t: Id)
    requires PublisherEnabled(s, p, step) && IsGone(s, t) && Unheld(s, t)
    ensures StaysUnheld(s, PublisherNext(s, p, step), t)
  {
    var s' := PublisherNext(s, p, step);
    PublisherFrame(s, p, step);
    if step.AddJob? {
      AddElsewhere(s, p, t);
    } else {
      BatchesAfter(s, p, step);
      hide PublisherNext, JobId;
      if step.Fetch? {
        FetchElsewhere(s, step.ids, t);
      }
      forall k ensures !IsJobOf(s', k, t) {
        assert !IsJobOf(s, k, t);
      }
      forall q, i | q in s'.publishers && 0 <= i < |s'.publishers[q].rows|
        ensures s'.publishers[q].rows[i].outbox != t
      {
        if q == p && step.MarkRow? {
          assert s'.publishers[q].rows[i] == s.publishers[q].rows[i + 1];
        }
      }
    }
  }

  lemma FetchElsewhere(s: State, ids: seq<Id>, t: Id)
    requires t !in s.db.outbox && forall i :: 0 <= i < |ids| ==> ids[i] in s.db.outbox
    ensures forall i :: 0 <= i < |ids| ==> Copies(s.db.outbox, ids)[i].outbox != t
  {
  }

  lemma AddElsewhere(s: State, p: nat, t: Id)
    requires PublisherEnabled(s, p, AddJob) && Unheld(s, t)
    ensures StaysUnheld(s, PublisherNext(s, p, AddJob), t)
  {
    var s', row := PublisherNext(s, p, AddJob), s.publishers[p].rows[0];
    assert row.outbox != t;
    forall n: nat ensures JobId(t, n) != KeyOf(row) {
      if JobId(t, n) == KeyOf(row) {
        JobIdInjective(t, n, row.outbox, row.counter);
      }
    }
    hide JobId;
    forall k ensures !IsJobOf(s', k, t) {
      assert !IsJobOf(s, k, t);
    }
  }

  lemma QueueRevives(s: State, k: string, step: QueueStep, t: Id)
    requires Structured(s) && QueueEnabled(s, k, step) && Unheld(s, t)
    ensures StaysUnheld(s, QueueNext(s, k, step), t)
  {
    var s' := QueueNext(s, k, step);
    forall j ensures !IsJobOf(s', j, t) {
      assert !IsJobOf(s, j, t);
    }
    forall n: nat | JobId(t, n) in s'.queue
      ensures s'.queue[JobId(t, n)].state == s.queue[JobId(t, n)].state
    {
      OwnKey(s, t, n);
      assert !IsJobOf(s, JobId(t, n), t);
    }
    hide JobId;
  }

  lemma OwnKey(s: State, t: Id, n: nat)
    requires Structured(s) && JobId(t, n) in s.queue
    ensures s.queue[JobId(t, n)].job.outbox == t
  {
    var job := s.queue[JobId(t, n)].job;
    assert JobOk(s, job);
    JobIdInjective(t, n, job.outbox, job.counter);
  }

  lemma SameHolding(s: State, s': State, t: Id)
    requires s'.queue == s.queue && s'.workers == s.workers && s'.publishers == s.publishers && Unheld(s, t)
    ensures StaysUnheld(s, s', t)
  {
    hide JobId;
    forall k ensures !IsJobOf(s', k, t) {
      assert !IsJobOf(s, k, t);
    }
  }

  /** Once nobody holds a job of a deleted row, no step of any process brings one back. */
  lemma NobodyRevives(c: Config, s: State, a: Action, t: Id)
    requires Structured(s) && Enabled(c, s, a) && IsGone(s, t) && Unheld(s, t)
    ensures StaysUnheld(s, Next(c, s, a), t)
  {
    hide *;
    StepIs(c, s, a);
    match a
    case Publisher(p, step) => PublisherRevives(s, p, step, t);
    case Work(w, step) => WorkerRevives(c, s, w, step, t);
    case Queue(k, step) => QueueRevives(s, k, step, t);
    case Maintain(m, step) =>
      SweepFrame(c, s, m, step);
      SameHolding(s, Next(c, s, a), t);
    case Replay(r, step) =>
      ReplayFrame(s, r, step);
      SameHolding(s, Next(c, s, a), t);
    case _ =>
      PlainFrame(c, s, a);
      SameHolding(s, Next(c, s, a), t);
  }

  lemma BarStays(c: Config, s: State, a: Action, m: nat, j: int, j': int)
    requires Structured(s) && Enabled(c, s, a) && PlainIds(Next(c, s, a))
    requires m in s.sweeps && s.sweeps[m].Stranded? && 0 <= j < |s.sweeps[m].published| && IsBar(s, m, j)
    requires var s' := Next(c, s, a);
      && m in s'.sweeps && s'.sweeps[m].Stranded? && 0 <= j' < |s'.sweeps[m].published|
      && s'.sweeps[m].published[j'] == s.sweeps[m].published[j]
      && (j == 0 && s.sweeps[m].condemned ==> j' == 0 && s'.sweeps[m].condemned)
    ensures IsBar(Next(c, s, a), m, j')
  {
    var s', entry := Next(c, s, a), s.sweeps[m].published[j];
    hide Enabled, Next, Structured, HasNoLiveJob, Unheld, StaysUnheld, PlainIds;
    RowsStep(c, s, a);
    GoneStays(s, s', entry.0);
    if !(j == 0 && s.sweeps[m].condemned) {
      NobodyRevives(c, s, a, entry.0);
      StructureStep(c, s, a);
      StillNoLiveJob(s, s', entry.0, entry.1);
    }
  }

  lemma GoneStays(s: State, s': State, t: Id)
    requires Grows(s, s') && IsGone(s, t)
    ensures IsGone(s', t)
  {
  }

  lemma StillNoLiveJob(s: State, s': State, t: Id, n: nat)
    requires Structured(s') && PlainIds(s') && t in s'.h.issued && StaysUnheld(s, s', t) && HasNoLiveJob(s.queue, t, n)
    ensures HasNoLiveJob(s'.queue, t, n) && Unheld(s', t)
  {
    NoLegacy(s', t);
    hide JobId, LegacyJobId, PlainIds, Structured, Unheld;
  }

  /** The loop finds no live job for its first entry ... */
  ghost predicate Condemns(s: State, s': State, m: nat)
    requires m in s.sweeps && s.sweeps[m].Stranded? && m in s'.sweeps && s'.sweeps[m].Stranded?
  {
    && s'.sweeps[m].published == s.sweeps[m].published && |s.sweeps[m].published| > 0
    && !s.sweeps[m].condemned && s'.sweeps[m].condemned
    && HasNoLiveJob(s.queue, s.sweeps[m].published[0].0, s.sweeps[m].published[0].1)
  }

  /** ... or moves on to the next one. */
  ghost predicate MovesOn(s: State, s': State, m: nat)
    requires m in s.sweeps && s.sweeps[m].Stranded? && m in s'.sweeps && s'.sweeps[m].Stranded?
  {
    && |s.sweeps[m].published| > 0 && !IsBar(s, m, 0)
    && s'.sweeps[m].published == s.sweeps[m].published[1..] && !s'.sweeps[m].condemned
  }

  /** Where an entry of a loop's list was before a step of the loop. */
  lemma ListBefore(c: Config, s: State, m: nat, step: SweepStep, i: nat, t: Id) returns (j: nat)
    requires SweepEnabled(c, s, m, step) && !step.ScanStranded? && Lists(SweepNext(c, s, m, step), m, i, t)
    ensures Lists(s, m, j, t)
    ensures var s' := SweepNext(c, s, m, step);
      (j == i && Condemns(s, s', m)) || (j == i + 1 && MovesOn(s, s', m))
  {
    hide StaleRows, HasNoLiveJob, IsStale, RecoverStale, Reopen, Issue, Update, Unheld;
    j := i + |s.sweeps[m].published| - |SweepNext(c, s, m, step).sweeps[m].published|;
  }

  /** An entry of the new list is entry `j` of the old one. */
  ghost predicate IsFrom(s: State, s': State, m: nat, i: nat, j: nat) {
    && m in s.sweeps && s.sweeps[m].Stranded? && m in s'.sweeps && s'.sweeps[m].Stranded?
    && i < |s'.sweeps[m].published| && j < |s.sweeps[m].published|
    && ((j == i && (s'.sweeps[m] == s.sweeps[m] || Condemns(s, s', m))) || (j == i + 1 && MovesOn(s, s', m)))
  }

  lemma StillBarred(c: Config, s: State, a: Action, m: nat, i: nat, j: nat)
    requires Structured(s) && Enabled(c, s, a) && PlainIds(Next(c, s, a)) && IsFrom(s, Next(c, s, a), m, i, j)
    ensures Barred(s, m, j) ==> Barred(Next(c, s, a), m, i)
  {
    hide Enabled, Next, Structured, HasNoLiveJob, IsBar, PlainIds;
    if Barred(s, m, j) {
      var b :| 0 <= b < j && IsBar(s, m, b);
      BarStays(c, s, a, m, b, b - (j - i));
    }
  }

  lemma EntryIs(s: State, s': State, m: nat, i: nat, j: nat, t: Id)
    requires IsFrom(s, s', m, i, j) && Lists(s', m, i, t)
    ensures Lists(s, m, j, t) && s'.sweeps[m].published[i] == s.sweeps[m].published[j]
    ensures i == 0 && s'.sweeps[m].condemned ==>
      && j == 0
      && (s.sweeps[m].condemned || HasNoLiveJob(s.queue, s.sweeps[m].published[0].0, s.sweeps[m].published[0].1))
  {
    hide HasNoLiveJob, IsBar;
  }

  lemma ComesFrom(c: Config, s: State, a: Action, m: nat, i: nat, t: Id) returns (j: nat)
    requires Enabled(c, s, a) && !(a.Maintain? && a.m == m && a.sweeping.ScanStranded?)
    requires Lists(Next(c, s, a), m, i, t)
    ensures IsFrom(s, Next(c, s, a), m, i, j)
  {
    hide Enabled, Next, Condemns, MovesOn, SweepNext, SweepEnabled;
    StepIs(c, s, a);
    if a.Maintain? && a.m == m {
      j := ListBefore(c, s, m, a.sweeping, i, t);
    } else {
      j := i;
      SameLoop(c, s, a, m);
    }
  }

  /** Where an entry that a loop may get to was before a step of any process: the loop
      could get to it there. */
  lemma ListAfter(c: Config, s: State, a: Action, m: nat, i: nat, t: Id) returns (j: nat)
    requires Structured(s) && Enabled(c, s, a) && PlainIds(Next(c, s, a))
    requires !(a.Maintain? && a.m == m && a.sweeping.ScanStranded?)
    requires Lists(Next(c, s, a), m, i, t) && !Barred(Next(c, s, a), m, i)
    ensures Lists(s, m, j, t) && !Barred(s, m, j)
    ensures var s' := Next(c, s, a);
      && s'.sweeps[m].published[i] == s.sweeps[m].published[j]
      && (i == 0 && s'.sweeps[m].condemned ==>
            && j == 0
            && (s.sweeps[m].condemned
                || HasNoLiveJob(s.queue, s.sweeps[m].published[0].0, s.sweeps[m].published[0].1)))
  {
    hide *;
    j := ComesFrom(c, s, a, m, i, t);
    EntryIs(s, Next(c, s, a), m, i, j, t);
    StillBarred(c, s, a, m, i, j);
  }

  lemma SameLoop(c: Config, s: State, a: Action, m: nat)
    requires Enabled(c, s, a) && !(a.Maintain? && a.m == m) && m in Next(c, s, a).sweeps
    ensures m in s.sweeps && Next(c, s, a).sweeps[m] == s.sweeps[m]
  {
    hide *;
    StepIs(c, s, a);
    match a
    case Publisher(p, step) => PublisherFrame(s, p, step);
    case Work(w, step) => WorkerFrame(c, s, w, step);
    case Maintain(l, step) => OtherLoopStays(c, s, l, step, m);
    case Replay(r, step) => ReplayFrame(s, r, step);
    case Queue(k, step) => QueueFrame(s, k, step);
    case _ => PlainFrame(c, s, a);
  }
}
