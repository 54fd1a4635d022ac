/** What is left of an attempt when a queue job is lost, or the clean-up deletes a row:
    whether the attempt is still in play, by itself or in somebody's hands, or comes
    back into play by publication and stranded recovery, whoever runs them. */
module Survival {
  import opened Domain
  import opened Transactions
  import opened JobIds
  import opened Protocol
  import opened Effects
  import opened Paths
  import opened Structure
  import opened Lossless
  import opened Rescue
  import opened Loops

  // ---------------------------------------------------------------- in play

  /** Worker `w` has taken a job for the attempt and saw an active endpoint: it is about
      to claim. */
  predicate IsInHand(s: State, w: nat, d: Id, n: nat) {
    w in s.workers && s.workers[w].Checked? && s.workers[w].active && IsFor(s.workers[w].job, d, n)
  }

  ghost predicate InHand(s: State, d: Id, n: nat) {
    exists w :: IsInHand(s, w, d, n)
  }

  /** Publisher `p` has still to add copy `i` of its batch. */
  predicate HasToAdd(s: State, p: nat, i: nat, d: Id, n: nat) {
    && p in s.publishers && i < |s.publishers[p].rows| && IsFor(s.publishers[p].rows[i], d, n)
    && !(i == 0 && s.publishers[p].added)
  }

  /** Some publisher has still to add a copy for the attempt, gets there, and the queue
      holds no job that would make it ignore the copy. */
  ghost predicate ToBeAdded(s: State, d: Id, n: nat) {
    exists p, i: nat :: IsToBeAdded(s, p, i, d, n)
  }

  ghost predicate IsToBeAdded(s: State, p: nat, i: nat, d: Id, n: nat) {
    HasToAdd(s, p, i, d, n) && KeyOf(s.publishers[p].rows[i]) !in s.queue && RowsBefore(s, p, i)
  }

  /** Loop `m` has listed row `t`, and has found, or finds, no live job for it. */
  predicate IsDead(s: State, m: nat, i: nat, t: Id) {
    Lists(s, m, i, t) && ((i == 0 && s.sweeps[m].condemned) || HasNoLiveJob(s.queue, t, s.sweeps[m].published[i].1))
  }

  ghost predicate ToBeReopened(s: State, t: Id) {
    exists m, i: nat :: IsDead(s, m, i, t)
  }

  ghost predicate RowToReopen(s: State, d: Id, n: nat) {
    exists t :: IsOrderRow(s, d, n, t) && ToBeReopened(s, t)
  }

  /** Attempt `n` of `d` is in play: it has a waiting job or a row still to be published,
      or a worker, a publisher or a loop has it in hand. */
  ghost predicate InPlay(s: State, d: Id, n: nat) {
    Backed(s, d, n) || InHand(s, d, n) || ToBeAdded(s, d, n) || RowToReopen(s, d, n)
  }

  // ---------------------------------------------------------------- back into play

  /** A step of publication or of stranded recovery, of any process.  Failing calls are
      not counted on, although they may help: a failed publication moves its row to the
      next counter. */
  predicate Helps(a: Action) {
    (a.Publisher? && Publishes(a, a.p)) || (a.Maintain? && Reopens(a, a.m))
  }

  predicate AllHelp(actions: seq<Action>) {
    forall i :: 0 <= i < |actions| ==> Helps(actions[i])
  }

  /** Publishers and loops, busy or not, keep the attempt in play or bring it back. */
  ghost predicate CanGoOn(c: Config, s: State, d: Id, n: nat) {
    exists states, actions :: IsHelp(c, s, states, actions) && InPlay(Last(states), d, n)
  }

  ghost predicate IsHelp(c: Config, s: State, states: seq<State>, actions: seq<Action>) {
    |states| > 0 && Path(c, states, actions) && states[0] == s && AllHelp(actions)
  }

  ghost predicate OutOfPlay(s: State, d: Id, n: nat) {
    Structured(s) && !InPlay(s, d, n) && !AnyFindable(s, d, n)
  }

  lemma OutParts(s: State, d: Id, n: nat)
    requires OutOfPlay(s, d, n)
    ensures Structured(s) && RowsOk(s) && QueueOk(s) && !InPlay(s, d, n)
    ensures !Backed(s, d, n) && !AnyFindable(s, d, n) && !InHand(s, d, n)
    ensures !ToBeAdded(s, d, n) && !RowToReopen(s, d, n)
  {
  }

  lemma PartsOut(s: State, d: Id, n: nat)
    requires Structured(s) && !Backed(s, d, n) && !AnyFindable(s, d, n) && !InHand(s, d, n)
    requires !ToBeAdded(s, d, n) && !RowToReopen(s, d, n)
    ensures OutOfPlay(s, d, n)
  {
  }

  lemma NothingToAdd(s: State, d: Id, n: nat)
    ensures !ToBeAdded(s, d, n) <==> forall p :: HoldsNone(s, p, d, n)
  {
    hide JobId, RowsBefore;
    if !ToBeAdded(s, d, n) {
      forall p ensures HoldsNone(s, p, d, n) {
        if p in s.publishers {
          forall i: nat | i < |s.publishers[p].rows| ensures IsNeverAdded(s, p, i, d, n) {
            assert !IsToBeAdded(s, p, i, d, n);
          }
        }
      }
    }
    if forall p :: HoldsNone(s, p, d, n) {
      forall p, i: nat ensures !IsToBeAdded(s, p, i, d, n) {
        assert HoldsNone(s, p, d, n);
        assert HasToAdd(s, p, i, d, n) ==> IsNeverAdded(s, p, i, d, n);
      }
    }
  }

  lemma NothingToReopen(s: State, d: Id, n: nat)
    ensures !RowToReopen(s, d, n) <==> forall m :: FoundNone(s, m, d, n)
  {
    hide HasNoLiveJob;
    if !RowToReopen(s, d, n) {
      forall m ensures FoundNone(s, m, d, n) {
        if m in s.sweeps && s.sweeps[m].Stranded? {
          forall i: nat | i < |s.sweeps[m].published|
            ensures EntryIsLive(s, s.sweeps[m].published[i], d, n)
            ensures i == 0 && s.sweeps[m].condemned ==> !IsOrderRow(s, d, n, s.sweeps[m].published[0].0)
          {
            var t := s.sweeps[m].published[i].0;
            assert IsDead(s, m, i, t) ==> ToBeReopened(s, t);
            assert !(IsOrderRow(s, d, n, t) && ToBeReopened(s, t));
          }
        }
      }
    }
    if forall m :: FoundNone(s, m, d, n) {
      forall t ensures !(IsOrderRow(s, d, n, t) && ToBeReopened(s, t)) {
        if ToBeReopened(s, t) {
          var m, i: nat :| IsDead(s, m, i, t);
          assert FoundNone(s, m, d, n) && EntryIsLive(s, s.sweeps[m].published[i], d, n);
        }
      }
    }
  }

  lemma SameHands(s: State, s': State, d: Id, n: nat)
    requires s'.workers == s.workers
    ensures InHand(s', d, n) <==> InHand(s, d, n)
  {
    assert forall w :: IsInHand(s', w, d, n) <==> IsInHand(s, w, d, n);
  }

  /** The other publishers' batches stay, and the queue forgets nothing. */
  lemma OtherBatch(s: State, p: nat, step: PublisherStep, q: nat, d: Id, n: nat)
    requires PublisherEnabled(s, p, step) && Publishes(Publisher(p, step), p) && q != p && HoldsNone(s, q, d, n)
    ensures HoldsNone(PublisherNext(s, p, step), q, d, n)
  {
    OtherBatchStays(s, p, step, q);
    RowsStayThere(s, p, step);
    hide PublisherNext, PublisherEnabled, JobId;
    var s' := PublisherNext(s, p, step);
    if q in s'.publishers {
      forall i | 0 <= i < |s'.publishers[q].rows| ensures IsNeverAdded(s', q, i, d, n) {
        assert IsNeverAdded(s, q, i, d, n);
        NeverAddedAfter(s, s', q, i, i, d, n);
      }
    }
  }

  lemma OtherBatchStays(s: State, p: nat, step: PublisherStep, q: nat)
    requires PublisherEnabled(s, p, step) && Publishes(Publisher(p, step), p) && q != p
    ensures var s' := PublisherNext(s, p, step);
      && (q in s'.publishers ==> q in s.publishers && s'.publishers[q] == s.publishers[q])
      && (forall k :: k in s.queue ==> k in s'.queue)
  {
    hide OldestDue, Copies, MarkPublished;
  }

  lemma RowsStayThere(s: State, p: nat, step: PublisherStep)
    requires PublisherEnabled(s, p, step)
    ensures PublisherNext(s, p, step).db.outbox.Keys == s.db.outbox.Keys
  {
    var e := PublisherEffect(s, p, step);
    assert e.Nothing? || e.Remark? by {
      hide OldestDue;
    }
    hide *;
    PublisherFits(s, p, step);
    RemarkKeeps(s, PublisherNext(s, p, step), e);
  }

  lemma RemarkKeeps(s: State, s': State, e: Effect)
    requires Fits(s, s', e) && (e.Nothing? || e.Remark?)
    ensures s'.db.outbox.Keys == s.db.outbox.Keys && s'.db.deliveries == s.db.deliveries
      && s'.h.issued == s.h.issued
  {
  }

  lemma PublisherOut(s: State, p: nat, step: PublisherStep, d: Id, n: nat)
    requires PublisherEnabled(s, p, step) && Publishes(Publisher(p, step), p) && OutOfPlay(s, d, n)
    ensures OutOfPlay(PublisherNext(s, p, step), d, n)
  {
    var s' := PublisherNext(s, p, step);
    hide *;
    OutParts(s, d, n);
    PublisherKeeps(s, p, step);
    StructuredParts(s');
    PublisherFrame(s, p, step);
    NothingToAdd(s, d, n);
    NothingToReopen(s, d, n);
    PublisherAdds(s, p, step, d, n);
    StillNotBacked(s, s', d, n);
    StillNotFindable(s, s', d, n);
    forall q ensures HoldsNone(s', q, d, n) {
      if q == p {
        PublisherHolds(s, p, step, d, n);
      } else {
        OtherBatch(s, p, step, q, d, n);
      }
    }
    forall m ensures FoundNone(s', m, d, n) {
      StillFoundNone(s, s', m, d, n);
    }
    NothingToAdd(s', d, n);
    NothingToReopen(s', d, n);
    SameHands(s, s', d, n);
    PartsOut(s', d, n);
  }

  lemma StructuredParts(s: State)
    requires Structured(s)
    ensures RowsOk(s) && QueueOk(s)
  {
    hide RowsOk, QueueOk, WorkersOk, PublishersOk, AddedOk;
  }

  lemma OtherLoop(c: Config, s: State, m: nat, step: SweepStep, l: nat, d: Id, n: nat)
    requires SweepEnabled(c, s, m, step) && l != m && FoundNone(s, l, d, n)
    requires SameOrders(s, SweepNext(c, s, m, step), d, n)
    ensures FoundNone(SweepNext(c, s, m, step), l, d, n)
  {
    OtherLoopStays(c, s, m, step, l);
    hide SweepNext, SweepEnabled, HasNoLiveJob;
    var s' := SweepNext(c, s, m, step);
    if l in s'.sweeps && s'.sweeps[l].Stranded? {
      forall i | 0 <= i < |s'.sweeps[l].published| ensures EntryIsLive(s', s'.sweeps[l].published[i], d, n) {
        assert EntryIsLive(s, s.sweeps[l].published[i], d, n);
      }
    }
  }

  lemma SweepOut(c: Config, s: State, m: nat, step: SweepStep, d: Id, n: nat)
    requires SweepEnabled(c, s, m, step) && Reopens(Maintain(m, step), m) && OutOfPlay(s, d, n)
    ensures OutOfPlay(SweepNext(c, s, m, step), d, n)
  {
    var s' := SweepNext(c, s, m, step);
    hide *;
    OutParts(s, d, n);
    SweepKeeps(c, s, m, step);
    SweepFrame(c, s, m, step);
    NothingToAdd(s, d, n);
    NothingToReopen(s, d, n);
    HeadIsSpared(c, s, m, step, d, n);
    SweepSameOrders(c, s, m, step, d, n);
    forall q ensures HoldsNone(s', q, d, n) {
      SameOrdersBeyond(s, s', q, d, n);
    }
    SameOrdersBeyond(s, s', 0, d, n);
    forall l ensures FoundNone(s', l, d, n) {
      if l == m {
        SweepFinds(c, s, m, step, d, n);
      } else {
        OtherLoop(c, s, m, step, l, d, n);
      }
    }
    NothingToAdd(s', d, n);
    NothingToReopen(s', d, n);
    SameHands(s, s', d, n);
    PartsOut(s', d, n);
  }

  lemma StepOut(c: Config, s: State, a: Action, d: Id, n: nat)
    requires Enabled(c, s, a) && Helps(a) && OutOfPlay(s, d, n)
    ensures OutOfPlay(Next(c, s, a), d, n)
  {
    StepIs(c, s, a);
    hide OutOfPlay, Enabled, Next, PublisherNext, SweepNext, PublisherEnabled, SweepEnabled;
    if a.Publisher? {
      PublisherOut(s, a.p, a.publishing, d, n);
    } else {
      SweepOut(c, s, a.m, a.sweeping, d, n);
    }
  }

  lemma {:induction false} PathOut(c: Config, s: State, states: seq<State>, actions: seq<Action>, d: Id, n: nat, i: nat)
    requires IsHelp(c, s, states, actions) && OutOfPlay(s, d, n) && i < |states|
    ensures OutOfPlay(states[i], d, n)
  {
    hide Enabled, Next, OutOfPlay, Helps;
    if i > 0 {
      PathOut(c, s, states, actions, d, n, i - 1);
      StepOut(c, states[i - 1], actions[i - 1], d, n);
    }
  }

  lemma InPlayNow(c: Config, s: State, d: Id, n: nat)
    requires InPlay(s, d, n)
    ensures CanGoOn(c, s, d, n)
  {
    StartPath(c, s);
    hide Path, InPlay;
    assert IsHelp(c, s, [s], []);
  }

  lemma RescueHelps(c: Config, s: State, d: Id, n: nat)
    requires CanBeRescued(c, s, d, n)
    ensures CanGoOn(c, s, d, n)
  {
    hide Path, Backed, InHand, ToBeAdded, RowToReopen;
    var p, m, states, actions :| IsRescue(c, s, p, m, states, actions) && Backed(Last(states), d, n);
    assert IsHelp(c, s, states, actions);
  }

  /** In the full interleaving, an attempt stays or comes back into play by publication
      and stranded recovery, of whatever processes, if and only if it is in play already
      or its delivery is PENDING and one of its rows has a missing or failed job. */
  lemma GoesOnExactly(c: Config, s: State, d: Id, n: nat)
    requires Structured(s)
    ensures CanGoOn(c, s, d, n) <==> InPlay(s, d, n) || AnyFindable(s, d, n)
  {
    hide *;
    if InPlay(s, d, n) {
      InPlayNow(c, s, d, n);
    } else if AnyFindable(s, d, n) {
      RescueExactly(c, s, d, n);
      RescueHelps(c, s, d, n);
    } else if CanGoOn(c, s, d, n) {
      OutIs(s, d, n);
      var states, actions := HelpPath(c, s, d, n);
      PathOut(c, s, states, actions, d, n, |states| - 1);
      LastIs(states);
      OutParts(Last(states), d, n);
    }
  }

  lemma OutIs(s: State, d: Id, n: nat)
    ensures OutOfPlay(s, d, n) <==> Structured(s) && !InPlay(s, d, n) && !AnyFindable(s, d, n)
  {
  }

  lemma HelpPath(c: Config, s: State, d: Id, n: nat) returns (states: seq<State>, actions: seq<Action>)
    requires CanGoOn(c, s, d, n)
    ensures |states| > 0 && IsHelp(c, s, states, actions) && InPlay(Last(states), d, n)
  {
    hide Path, InPlay;
    states, actions :| IsHelp(c, s, states, actions) && InPlay(Last(states), d, n);
  }

  // ---------------------------------------------------------------- what is in hand goes on

  /** A worker that has the next attempt in hand wins its claim. */
  lemma HandClaims(c: Config, s: State, w: nat, d: Id)
    requires d in s.db.deliveries && s.db.deliveries[d].status.Claimable()
    requires IsInHand(s, w, d, s.db.deliveries[d].attempts + 1)
    ensures Enabled(c, s, Work(w, Claim))
    ensures var s' := Next(c, s, Work(w, Claim));
      w in s'.workers && s'.workers[w].Sending? && s'.workers[w].attempt == s.db.deliveries[d].attempts + 1
  {
    hide ClaimForProcessing, RecordOf;
  }

  /** A publisher that has still to add a copy gets there and adds it, unless a row
      before it in the batch was deleted. */
  lemma {:induction false} CopyIsAdded(c: Config, s: State, p: nat, i: nat, d: Id, n: nat)
      returns (states: seq<State>, actions: seq<Action>)
    requires Structured(s) && IsToBeAdded(s, p, i, d, n)
    ensures |states| > 0 && Path(c, states, actions) && states[0] == s && AllPublish(actions, p)
    ensures Backed(Last(states), d, n)
    decreases i, if s.publishers[p].added then 0 else 1
  {
    var step := if s.publishers[p].added then MarkRow else AddJob;
    AddedOrMarked(s, p, step, i, d, n);
    hide *;
    var a, next := Publisher(p, step), PublisherNext(s, p, step);
    PublisherIs(c, s, p, step);
    PublisherKeeps(s, p, step);
    if Backed(next, d, n) {
      StartPath(c, next);
      NoneYet(p);
      states, actions := [next], [];
      LastOfOne(next);
    } else {
      states, actions := CopyIsAdded(c, next, p, if step.MarkRow? then i - 1 else i, d, n);
    }
    Prepend(c, s, a, states, actions);
    PublishesFirst(actions, p, step);
    states, actions := [s] + states, [a] + actions;
  }

  lemma LastOfOne(s: State)
    ensures Last([s]) == s
  {
  }

  lemma PublishesFirst(actions: seq<Action>, p: nat, step: PublisherStep)
    requires AllPublish(actions, p) && (step.AddJob? || step.MarkRow?)
    ensures AllPublish([Publisher(p, step)] + actions, p)
  {
  }

  /** Adding the first copy backs the attempt, if its id is the one that was free;
      otherwise the publisher comes one step closer. */
  lemma AddedOrMarked(s: State, p: nat, step: PublisherStep, i: nat, d: Id, n: nat)
    requires Structured(s) && IsToBeAdded(s, p, i, d, n)
    requires step == if s.publishers[p].added then MarkRow else AddJob
    ensures PublisherEnabled(s, p, step)
    ensures var s', j := PublisherNext(s, p, step), if step.MarkRow? then i - 1 else i;
      || Backed(s', d, n)
      || (j >= 0 && IsToBeAdded(s', p, j, d, n) && (step.MarkRow? || s'.publishers[p].added))
  {
    hide *;
    if step.MarkRow? {
      MarkedCloser(s, p, i, d, n);
    } else {
      AddedCloser(s, p, i, d, n);
    }
  }

  lemma MarkedCloser(s: State, p: nat, i: nat, d: Id, n: nat)
    requires IsToBeAdded(s, p, i, d, n) && s.publishers[p].added
    ensures PublisherEnabled(s, p, MarkRow) && i > 0 && IsToBeAdded(PublisherNext(s, p, MarkRow), p, i - 1, d, n)
  {
    var rows := s.publishers[p].rows;
    MarkIs(s, p);
    assert rows[1..][i - 1] == rows[i];
    assert forall j :: 0 <= j < i - 1 ==> rows[1..][j] == rows[j + 1];
    hide PublisherNext, JobId;
  }

  lemma AddedCloser(s: State, p: nat, i: nat, d: Id, n: nat)
    requires Structured(s) && IsToBeAdded(s, p, i, d, n)
    requires !s.publishers[p].added
    ensures PublisherEnabled(s, p, AddJob)
    ensures var s' := PublisherNext(s, p, AddJob);
      || Backed(s', d, n)
      || (IsToBeAdded(s', p, i, d, n) && s'.publishers[p].added)
  {
    var rows := s.publishers[p].rows;
    SameCopy(s, p, i);
    AddNext(s, p);
    hide JobId, Structured, PublisherNext;
    var s' := PublisherNext(s, p, AddJob);
    if KeyOf(rows[i]) in s'.queue {
      assert IsJobFor(s', KeyOf(rows[i]), d, n);
    }
  }

  lemma AddNext(s: State, p: nat)
    requires p in s.publishers && |s.publishers[p].rows| > 0 && !s.publishers[p].added
    ensures PublisherEnabled(s, p, AddJob)
    ensures var s', row := PublisherNext(s, p, AddJob), s.publishers[p].rows[0];
      && s'.db == s.db && s'.publishers == s.publishers[p := s.publishers[p].(added := true)]
      && s'.queue == if KeyOf(row) in s.queue then s.queue else s.queue[KeyOf(row) := QueueEntry(row, WAITING)]
  {
  }

  /** Copies of a batch with the same job id are for the same attempt. */
  lemma SameCopy(s: State, p: nat, i: nat)
    requires Structured(s) && p in s.publishers && i < |s.publishers[p].rows|
    ensures var rows := s.publishers[p].rows;
      KeyOf(rows[0]) == KeyOf(rows[i]) ==> rows[0].delivery == rows[i].delivery && rows[0].expected == rows[i].expected
  {
    var rows := s.publishers[p].rows;
    assert BatchOk(s, s.publishers[p]) && CopyOk(s, rows[0]) && CopyOk(s, rows[i]);
    if KeyOf(rows[0]) == KeyOf(rows[i]) {
      JobIdInjective(rows[0].outbox, rows[0].counter, rows[i].outbox, rows[i].counter);
    }
    hide JobId;
  }

  /** A loop that has listed a row without a live job reopens it, if it gets there. */
  lemma ListedIsReopened(c: Config, s: State, m: nat, i: nat, d: Id, n: nat, t: Id)
      returns (states: seq<State>, actions: seq<Action>)
    requires Structured(s) && IsOrderRow(s, d, n, t) && IsDead(s, m, i, t) && ClearWay(s, m, i)
    ensures |states| > 0 && Path(c, states, actions) && states[0] == s && AllReopen(actions, m)
    ensures Backed(Last(states), d, n)
  {
    states, actions := LoopGetsThere(c, s, m, i, t);
    var mid := Last(states);
    assert Lists(mid, m, 0, t) && IsOrderRow(mid, d, n, t);
    assert mid.sweeps[m].condemned || HasNoLiveJob(mid.queue, t, mid.sweeps[m].published[0].1);
    hide *;
    LastStructured(c, states, actions);
    var rest, done := HeadIsReopened(c, mid, m, d, n, t);
    PathsJoin(c, states, actions, rest, done);
    ReopensJoin(actions, done, m);
    states, actions := states + rest[1..], actions + done;
  }

  // ---------------------------------------------------------------- within reach

  /** A loop has listed a row of the attempt, finds no live job for it, and gets there. */
  ghost predicate RowAhead(s: State, d: Id, n: nat) {
    exists m, i: nat, t :: IsOrderRow(s, d, n, t) && IsDead(s, m, i, t) && ClearWay(s, m, i)
  }

  /** Or may get there. */
  ghost predicate RowListed(s: State, d: Id, n: nat) {
    exists m, i: nat, t :: IsOrderRow(s, d, n, t) && IsDead(s, m, i, t) && !Barred(s, m, i)
  }

  /** Or may, but would not now: an entry before it has a deleted row, whose job is not
      alive, but held by somebody. */
  ghost predicate RowBehind(s: State, d: Id, n: nat) {
    exists m, i: nat, t :: IsOrderRow(s, d, n, t) && IsDead(s, m, i, t) && !ClearWay(s, m, i) && !Barred(s, m, i)
  }

  ghost predicate InReach(s: State, d: Id, n: nat) {
    Backed(s, d, n) || InHand(s, d, n) || ToBeAdded(s, d, n) || RowAhead(s, d, n) || AnyFindable(s, d, n)
  }

  /** Publishers and loops, busy or not, back the attempt, or a worker has it in hand. */
  ghost predicate CanReach(c: Config, s: State, d: Id, n: nat) {
    exists states, actions ::
      IsHelp(c, s, states, actions) && (Backed(Last(states), d, n) || InHand(Last(states), d, n))
  }

  lemma ReachIs(c: Config, s: State, states: seq<State>, actions: seq<Action>, d: Id, n: nat)
    requires IsHelp(c, s, states, actions) && (Backed(Last(states), d, n) || InHand(Last(states), d, n))
    ensures CanReach(c, s, d, n)
  {
  }

  lemma PublishersHelp(c: Config, s: State, p: nat, states: seq<State>, actions: seq<Action>)
    requires |states| > 0 && Path(c, states, actions) && states[0] == s && AllPublish(actions, p)
    ensures IsHelp(c, s, states, actions)
  {
    hide Path;
  }

  lemma LoopsHelp(c: Config, s: State, m: nat, states: seq<State>, actions: seq<Action>)
    requires |states| > 0 && Path(c, states, actions) && states[0] == s && AllReopen(actions, m)
    ensures IsHelp(c, s, states, actions)
  {
    hide Path;
  }

  lemma ReachNow(c: Config, s: State, d: Id, n: nat)
    requires Backed(s, d, n) || InHand(s, d, n)
    ensures CanReach(c, s, d, n)
  {
    hide Path, Backed, InHand;
    StartPath(c, s);
    assert AllHelp([]);
    ReachIs(c, s, [s], [], d, n);
  }

  lemma FindableReaches(c: Config, s: State, d: Id, n: nat)
    requires Structured(s) && AnyFindable(s, d, n)
    ensures CanReach(c, s, d, n)
  {
    hide Path, Backed, InHand, Structured, IsFindable;
    RescueExactly(c, s, d, n);
    var p, m, states, actions :| IsRescue(c, s, p, m, states, actions) && Backed(Last(states), d, n);
    assert IsHelp(c, s, states, actions);
    ReachIs(c, s, states, actions, d, n);
  }

  lemma CopyReaches(c: Config, s: State, d: Id, n: nat)
    requires Structured(s) && ToBeAdded(s, d, n)
    ensures CanReach(c, s, d, n)
  {
    var p, i: nat :| IsToBeAdded(s, p, i, d, n);
    hide *;
    var states, actions := CopyIsAdded(c, s, p, i, d, n);
    PublishersHelp(c, s, p, states, actions);
    ReachIs(c, s, states, actions, d, n);
  }

  lemma ListReaches(c: Config, s: State, d: Id, n: nat)
    requires Structured(s) && RowAhead(s, d, n)
    ensures CanReach(c, s, d, n)
  {
    var m, i: nat, t :| IsOrderRow(s, d, n, t) && IsDead(s, m, i, t) && ClearWay(s, m, i);
    hide *;
    var states, actions := ListedIsReopened(c, s, m, i, d, n, t);
    LoopsHelp(c, s, m, states, actions);
    ReachIs(c, s, states, actions, d, n);
  }

  ghost predicate OutOfReach(s: State, d: Id, n: nat) {
    && Structured(s) && PlainIds(s) && !Backed(s, d, n) && !InHand(s, d, n) && !ToBeAdded(s, d, n)
    && !RowListed(s, d, n) && !AnyFindable(s, d, n)
  }

  lemma OutOfReachParts(s: State, d: Id, n: nat)
    requires OutOfReach(s, d, n)
    ensures Structured(s) && RowsOk(s) && QueueOk(s) && PlainIds(s)
    ensures !Backed(s, d, n) && !InHand(s, d, n) && !ToBeAdded(s, d, n) && !RowListed(s, d, n) && !AnyFindable(s, d, n)
  {
  }

  lemma PartsOutOfReach(s: State, d: Id, n: nat)
    requires Structured(s) && PlainIds(s) && !Backed(s, d, n) && !InHand(s, d, n) && !ToBeAdded(s, d, n)
    requires !RowListed(s, d, n) && !AnyFindable(s, d, n)
    ensures OutOfReach(s, d, n)
  {
  }

  lemma PublisherLists(c: Config, s: State, p: nat, step: PublisherStep, d: Id, n: nat)
    requires Structured(s) && PublisherEnabled(s, p, step) && AddsElsewhere(s, PublisherNext(s, p, step), d, n)
    requires RowsOk(PublisherNext(s, p, step)) && QueueOk(PublisherNext(s, p, step))
      && PlainIds(PublisherNext(s, p, step))
    ensures RowListed(PublisherNext(s, p, step), d, n) ==> RowListed(s, d, n)
  {
    var s' := PublisherNext(s, p, step);
    PublisherIs(c, s, p, step);
    hide Enabled, Next, PublisherEnabled, PublisherNext, Structured, PlainIds, RowsOk, QueueOk, AddsElsewhere,
      HasNoLiveJob, IsOrderRow, Barred;
    if m, i: nat, t :| IsOrderRow(s', d, n, t) && IsDead(s', m, i, t) && !Barred(s', m, i) {
      var j := ListAfter(c, s, Publisher(p, step), m, i, t);
      AddsParts(s, s', d, n);
      SameRow(s, s', d, n, t);
      if !HasNoLiveJob(s.queue, t, s.sweeps[m].published[j].1) {
        StillLive(s, s', d, n, t, s.sweeps[m].published[j].1);
      }
      assert IsDead(s, m, j, t);
    }
  }

  lemma AddsParts(s: State, s': State, d: Id, n: nat)
    requires AddsElsewhere(s, s', d, n)
    ensures OnlyPublished(s, s')
  {
  }

  lemma PublisherReach(c: Config, s: State, p: nat, step: PublisherStep, d: Id, n: nat)
    requires PublisherEnabled(s, p, step) && Publishes(Publisher(p, step), p) && OutOfReach(s, d, n)
    requires PlainIds(PublisherNext(s, p, step))
    ensures OutOfReach(PublisherNext(s, p, step), d, n)
  {
    var s' := PublisherNext(s, p, step);
    hide *;
    OutOfReachParts(s, d, n);
    PublisherKeeps(s, p, step);
    StructuredParts(s');
    PublisherFrame(s, p, step);
    NothingToAdd(s, d, n);
    PublisherAdds(s, p, step, d, n);
    StillNotBacked(s, s', d, n);
    StillNotFindable(s, s', d, n);
    forall q ensures HoldsNone(s', q, d, n) {
      if q == p {
        PublisherHolds(s, p, step, d, n);
      } else {
        OtherBatch(s, p, step, q, d, n);
      }
    }
    NothingToAdd(s', d, n);
    PublisherLists(c, s, p, step, d, n);
    SameHands(s, s', d, n);
    PartsOutOfReach(s', d, n);
  }

  /** A loop reopens no row of the attempt ... */
  lemma NoneIsReopened(c: Config, s: State, m: nat, step: SweepStep, d: Id, n: nat)
    requires SweepEnabled(c, s, m, step) && !RowListed(s, d, n)
    ensures step.ReopenOne? ==> !IsOrderRow(s, d, n, s.sweeps[m].published[0].0)
  {
    hide HasNoLiveJob, StaleRows, StrandedRows, IsOrderRow;
    if step.ReopenOne? {
      var t := s.sweeps[m].published[0].0;
      assert IsDead(s, m, 0, t) && !Barred(s, m, 0);
    }
  }

  /** ... and lists none. */
  lemma SweepLists(c: Config, s: State, m: nat, step: SweepStep, d: Id, n: nat)
    requires Structured(s) && SweepEnabled(c, s, m, step) && !AnyFindable(s, d, n)
    requires SameOrders(s, SweepNext(c, s, m, step), d, n) && PlainIds(SweepNext(c, s, m, step))
    ensures RowListed(SweepNext(c, s, m, step), d, n) ==> RowListed(s, d, n)
  {
    var s' := SweepNext(c, s, m, step);
    SweepIs(c, s, m, step);
    hide Enabled, Next, SweepEnabled, SweepNext, Structured, PlainIds, HasNoLiveJob, Barred;
    if l, i: nat, t :| IsOrderRow(s', d, n, t) && IsDead(s', l, i, t) && !Barred(s', l, i) {
      if l == m && step.ScanStranded? {
        ScannedIsFindable(c, s, m, step.published, i, t, d, n);
      } else {
        var j := ListAfter(c, s, Maintain(m, step), l, i, t);
        assert IsOrderRow(s, d, n, t) && IsDead(s, l, j, t);
      }
    }
  }

  lemma ScannedIsFindable(c: Config, s: State, m: nat, rows: seq<(Id, nat)>, i: nat, t: Id, d: Id, n: nat)
    requires SweepEnabled(c, s, m, ScanStranded(rows)) && IsOrderRow(s, d, n, t)
    requires IsDead(SweepNext(c, s, m, ScanStranded(rows)), m, i, t)
    ensures IsFindable(s, d, n, t)
  {
    ScanIs(c, s, m, rows);
    hide SweepNext, HasNoLiveJob;
    assert StrandedRows(s.db, rows) && rows[i].0 == t;
    assert IsPublishedPending(s.db, t, rows[i].1);
  }

  lemma SweepReach(c: Config, s: State, m: nat, step: SweepStep, d: Id, n: nat)
    requires SweepEnabled(c, s, m, step) && Reopens(Maintain(m, step), m) && OutOfReach(s, d, n)
    requires PlainIds(SweepNext(c, s, m, step))
    ensures OutOfReach(SweepNext(c, s, m, step), d, n)
  {
    var s' := SweepNext(c, s, m, step);
    hide *;
    OutOfReachParts(s, d, n);
    SweepKeeps(c, s, m, step);
    SweepFrame(c, s, m, step);
    NothingToAdd(s, d, n);
    NoneIsReopened(c, s, m, step, d, n);
    SweepSameOrders(c, s, m, step, d, n);
    forall q ensures HoldsNone(s', q, d, n) {
      SameOrdersBeyond(s, s', q, d, n);
    }
    SameOrdersBeyond(s, s', 0, d, n);
    NothingToAdd(s', d, n);
    SweepLists(c, s, m, step, d, n);
    SameHands(s, s', d, n);
    PartsOutOfReach(s', d, n);
  }

  lemma HelpIssuesNothing(c: Config, s: State, a: Action)
    requires Structured(s) && Enabled(c, s, a) && Helps(a)
    ensures PlainIds(s) ==> PlainIds(Next(c, s, a))
  {
    var s', e := Next(c, s, a), EffectOf(c, s, a);
    assert e.Nothing? || e.Remark? by {
      hide OldestDue, StaleRows, StrandedRows;
    }
    hide *;
    RowsStep(c, s, a);
    RemarkKeeps(s, s', e);
    SamePlainIds(s, s');
  }

  lemma SamePlainIds(s: State, s': State)
    requires s'.h.issued == s.h.issued
    ensures PlainIds(s) ==> PlainIds(s')
  {
    hide Decimal;
  }

  lemma StepReach(c: Config, s: State, a: Action, d: Id, n: nat)
    requires Enabled(c, s, a) && Helps(a) && OutOfReach(s, d, n)
    ensures OutOfReach(Next(c, s, a), d, n)
  {
    StepIs(c, s, a);
    OutOfReachParts(s, d, n);
    hide OutOfReach, Enabled, Next, PublisherNext, SweepNext, PublisherEnabled, SweepEnabled, PlainIds, Structured;
    HelpIssuesNothing(c, s, a);
    if a.Publisher? {
      PublisherReach(c, s, a.p, a.publishing, d, n);
    } else {
      SweepReach(c, s, a.m, a.sweeping, d, n);
    }
  }

  lemma {:induction false} PathReach(c: Config, s: State, states: seq<State>, actions: seq<Action>, d: Id, n: nat,
      i: nat)
    requires IsHelp(c, s, states, actions) && OutOfReach(s, d, n) && i < |states|
    ensures OutOfReach(states[i], d, n)
  {
    hide Enabled, Next, OutOfReach, Helps;
    if i > 0 {
      PathReach(c, s, states, actions, d, n, i - 1);
      StepReach(c, states[i - 1], actions[i - 1], d, n);
    }
  }

  lemma OutOfReachStays(c: Config, s: State, d: Id, n: nat)
    requires OutOfReach(s, d, n)
    ensures !CanReach(c, s, d, n)
  {
    hide Path, OutOfReach, Backed, InHand;
    forall states, actions | IsHelp(c, s, states, actions)
      ensures !(Backed(Last(states), d, n) || InHand(Last(states), d, n))
    {
      PathReach(c, s, states, actions, d, n, |states| - 1);
      OutOfReachParts(Last(states), d, n);
    }
  }

  /** In the full interleaving, publishers and loops bring an attempt to a worker if and
      only if it is backed or in a worker's hands, a publisher or a loop that holds it gets
      to it, or its delivery is PENDING and one of its rows has a missing or failed job.
      Not decided is only a row behind a deleted one in a loop's list, a job of which
      somebody still holds: without that job the loop gives up its list. */
  lemma ReachesExactly(c: Config, s: State, d: Id, n: nat)
    requires Structured(s)
    ensures InReach(s, d, n) ==> CanReach(c, s, d, n)
    ensures PlainIds(s) && CanReach(c, s, d, n) ==> InReach(s, d, n) || RowBehind(s, d, n)
  {
    hide *;
    ReachParts(s, d, n);
    if Backed(s, d, n) || InHand(s, d, n) {
      ReachNow(c, s, d, n);
    } else if ToBeAdded(s, d, n) {
      CopyReaches(c, s, d, n);
    } else if RowAhead(s, d, n) {
      ListReaches(c, s, d, n);
    } else if AnyFindable(s, d, n) {
      FindableReaches(c, s, d, n);
    } else if PlainIds(s) && !RowBehind(s, d, n) {
      PartsOutOfReach(s, d, n);
      OutOfReachStays(c, s, d, n);
    }
  }

  lemma ReachParts(s: State, d: Id, n: nat)
    ensures InReach(s, d, n) <==>
      Backed(s, d, n) || InHand(s, d, n) || ToBeAdded(s, d, n) || RowAhead(s, d, n) || AnyFindable(s, d, n)
    ensures RowListed(s, d, n) ==> RowAhead(s, d, n) || RowBehind(s, d, n)
  {
    hide Backed, InHand, ToBeAdded, AnyFindable, IsDead, ClearWay, Barred, IsOrderRow;
  }

  // ---------------------------------------------------------------- lost jobs

  /** The state of job id `j` after a step of the queue on job `k`. */
  function StateAfter(s: State, k: string, step: QueueStep, j: string): Option<JobState> {
    if j == k then (match step case FinishJob(state) => Some(state) case DropJob => None)
    else if j in s.queue then Some(s.queue[j].state)
    else None
  }

  /** Row `t` is still to be published, and the step leaves its current id free or
      waiting. */
  predicate StaysOpen(s: State, k: string, step: QueueStep, t: Id) {
    IsOpen(s, t) && StateAfter(s, k, step, JobId(t, s.db.outbox[t].publishes)) in {None, Some(WAITING)}
  }

  /** The step leaves row `t` under this counter with a failed job, or with neither a
      current nor a live legacy job. */
  predicate LeavesNoLiveJob(s: State, k: string, step: QueueStep, t: Id, counter: nat) {
    match StateAfter(s, k, step, JobId(t, counter))
    case Some(state) => state.FAILED_JOB?
    case None => StateAfter(s, k, step, LegacyJobId(t)) in {None, Some(FAILED_JOB)}
  }

  predicate LeavesFindable(s: State, k: string, step: QueueStep, t: Id) {
    t in s.db.outbox && LeavesNoLiveJob(s, k, step, t, s.db.outbox[t].publishes)
  }

  ghost predicate OtherJob(s: State, k: string, d: Id, n: nat) {
    exists j :: j != k && IsJobFor(s, j, d, n)
  }

  ghost predicate OpenRowLeft(s: State, k: string, step: QueueStep, d: Id, n: nat) {
    exists t :: IsOrderRow(s, d, n, t) && StaysOpen(s, k, step, t)
  }

  ghost predicate FindableRowLeft(s: State, k: string, step: QueueStep, d: Id, n: nat) {
    && d in s.db.deliveries && s.db.deliveries[d].status.PENDING?
    && exists t :: IsOrderRow(s, d, n, t) && LeavesFindable(s, k, step, t)
  }

  /** What the tables and the queue have left for attempt `n` of `d` when job `k` is
      lost: another job, a row still to be published, or, for a PENDING delivery, a row
      for recovery. */
  ghost predicate Survives(s: State, k: string, step: QueueStep, d: Id, n: nat) {
    OtherJob(s, k, d, n) || OpenRowLeft(s, k, step, d, n) || FindableRowLeft(s, k, step, d, n)
  }

  /** A publisher has still to add a copy and gets there, and the step leaves its id free. */
  ghost predicate CopyLeft(s: State, k: string, step: QueueStep, d: Id, n: nat) {
    exists p, i: nat ::
      HasToAdd(s, p, i, d, n) && StateAfter(s, k, step, KeyOf(s.publishers[p].rows[i])).None? && RowsBefore(s, p, i)
  }

  /** A loop has found the job of row `t` dead, or will, with the step. */
  predicate StaysDead(s: State, k: string, step: QueueStep, m: nat, i: nat, t: Id) {
    && Lists(s, m, i, t)
    && ((i == 0 && s.sweeps[m].condemned) || LeavesNoLiveJob(s, k, step, t, s.sweeps[m].published[i].1))
  }

  ghost predicate StaysListed(s: State, k: string, step: QueueStep, t: Id) {
    exists m, i: nat :: StaysDead(s, k, step, m, i, t)
  }

  ghost predicate ListedRowLeft(s: State, k: string, step: QueueStep, d: Id, n: nat) {
    exists t :: IsOrderRow(s, d, n, t) && StaysListed(s, k, step, t)
  }

  /** Who has the attempt in hand when job `k` is lost. */
  ghost predicate StaysInHand(s: State, k: string, step: QueueStep, d: Id, n: nat) {
    InHand(s, d, n) || CopyLeft(s, k, step, d, n) || ListedRowLeft(s, k, step, d, n)
  }

  /** When a lost job loses its attempt, in the full interleaving: after the queue
      finishes or drops a waiting job, processes at rest bring the attempt back to a
      worker if and only if the tables and the queue have something left for it; and
      whatever processes there are do so, or have it in hand, if and only if they have,
      or some process had it in hand. */
  lemma QueueLosesExactly(c: Config, s: State, k: string, step: QueueStep, d: Id, n: nat)
    requires Structured(s) && QueueEnabled(s, k, step) && IsWaiting(s, k)
    ensures CanBeRescued(c, QueueNext(s, k, step), d, n) <==> Survives(s, k, step, d, n)
    ensures CanGoOn(c, QueueNext(s, k, step), d, n) <==> Survives(s, k, step, d, n) || StaysInHand(s, k, step, d, n)
  {
    var s' := QueueNext(s, k, step);
    StructureStep(c, s, Queue(k, step));
    QueueIs(c, s, k, step);
    QueueAfter(s, k, step);
    hide *;
    RescueExactly(c, s', d, n);
    GoesOnExactly(c, s', d, n);
    BackedAfter(s, s', k, step, d, n);
    FindableAfter(s, s', k, step, d, n);
    SameHands(s, s', d, n);
    CopiesAfter(s, s', k, step, d, n);
    ListedAfter(s, s', k, step, d, n);
    SurvivesIs(s, s', k, step, d, n);
  }

  lemma SurvivesIs(s: State, s': State, k: string, step: QueueStep, d: Id, n: nat)
    ensures Survives(s, k, step, d, n)
      <==> OtherJob(s, k, d, n) || OpenRowLeft(s, k, step, d, n) || FindableRowLeft(s, k, step, d, n)
    ensures StaysInHand(s, k, step, d, n)
      <==> InHand(s, d, n) || CopyLeft(s, k, step, d, n) || ListedRowLeft(s, k, step, d, n)
    ensures InPlay(s', d, n) <==> Backed(s', d, n) || InHand(s', d, n) || ToBeAdded(s', d, n) || RowToReopen(s', d, n)
  {
  }

  /** The queue after the step, id by id. */
  ghost predicate IsAfter(s: State, s': State, k: string, step: QueueStep) {
    && s' == s.(queue := s'.queue)
    && (forall j :: (if j in s'.queue then Some(s'.queue[j].state) else None) == StateAfter(s, k, step, j))
    && (forall j :: j in s'.queue ==> j in s.queue && s'.queue[j].job == s.queue[j].job)
    && StateAfter(s, k, step, k) != Some(WAITING)
  }

  lemma QueueAfter(s: State, k: string, step: QueueStep)
    requires QueueEnabled(s, k, step) && IsWaiting(s, k)
    ensures IsAfter(s, QueueNext(s, k, step), k, step) && QueueNext(s, k, step).workers == s.workers
  {
  }

  lemma BackedAfter(s: State, s': State, k: string, step: QueueStep, d: Id, n: nat)
    requires IsAfter(s, s', k, step) && IsWaiting(s, k)
    ensures Backed(s', d, n) <==> OtherJob(s, k, d, n) || OpenRowLeft(s, k, step, d, n)
  {
    hide JobId;
    forall t ensures OpenOrder(s', d, n, t) <==> IsOrderRow(s, d, n, t) && StaysOpen(s, k, step, t) {
    }
    forall j ensures IsJobFor(s', j, d, n) <==> j != k && IsJobFor(s, j, d, n) {
    }
    hide OpenOrder, IsJobFor, IsOrderRow, StaysOpen;
  }

  lemma NoLiveJobAfter(s: State, s': State, k: string, step: QueueStep, t: Id, counter: nat)
    requires IsAfter(s, s', k, step)
    ensures HasNoLiveJob(s'.queue, t, counter) <==> LeavesNoLiveJob(s, k, step, t, counter)
  {
    hide JobId, LegacyJobId;
  }

  lemma FindableAfter(s: State, s': State, k: string, step: QueueStep, d: Id, n: nat)
    requires IsAfter(s, s', k, step)
    ensures AnyFindable(s', d, n) <==> FindableRowLeft(s, k, step, d, n)
  {
    hide HasNoLiveJob, LeavesNoLiveJob;
    forall t ensures IsFindable(s', d, n, t) <==>
      d in s.db.deliveries && s.db.deliveries[d].status.PENDING? && IsOrderRow(s, d, n, t)
        && LeavesFindable(s, k, step, t)
    {
      if t in s.db.outbox {
        NoLiveJobAfter(s, s', k, step, t, s.db.outbox[t].publishes);
      }
    }
    hide IsFindable, IsOrderRow, LeavesFindable;
  }

  lemma CopiesAfter(s: State, s': State, k: string, step: QueueStep, d: Id, n: nat)
    requires IsAfter(s, s', k, step)
    ensures ToBeAdded(s', d, n) <==> CopyLeft(s, k, step, d, n)
  {
    hide StateAfter, JobId;
    forall p, i: nat
      ensures IsToBeAdded(s', p, i, d, n) <==>
        HasToAdd(s, p, i, d, n) && StateAfter(s, k, step, KeyOf(s.publishers[p].rows[i])).None? && RowsBefore(s, p, i)
    {
    }
    hide HasToAdd, IsToBeAdded, RowsBefore;
  }

  lemma ListedAfter(s: State, s': State, k: string, step: QueueStep, d: Id, n: nat)
    requires IsAfter(s, s', k, step)
    ensures RowToReopen(s', d, n) <==> ListedRowLeft(s, k, step, d, n)
  {
    hide HasNoLiveJob, LeavesNoLiveJob;
    forall t ensures ToBeReopened(s', t) <==> StaysListed(s, k, step, t) {
      forall m, i: nat ensures IsDead(s', m, i, t) <==> StaysDead(s, k, step, m, i, t) {
        if Lists(s, m, i, t) {
          NoLiveJobAfter(s, s', k, step, t, s.sweeps[m].published[i].1);
        }
      }
    }
    hide ToBeReopened, StaysListed;
    assert forall t :: IsOrderRow(s', d, n, t) <==> IsOrderRow(s, d, n, t);
  }

  /** The job is all that the tables and the queue have for the attempt: no other row
      orders it, no other job waits for it, and its own row has published under this id
      last. */
  ghost predicate IsLast(s: State, k: string, d: Id, n: nat) {
    && IsJobFor(s, k, d, n)
    && !OtherJob(s, k, d, n)
    && (forall t :: IsOrderRow(s, d, n, t) ==> t == s.queue[k].job.outbox && JobId(t, s.db.outbox[t].publishes) == k)
  }

  /** The row of the last job is unpublished, with the job dropped, or orders an attempt
      of a PENDING delivery, with the job dropped or failed. */
  predicate RowSurvives(s: State, k: string, step: QueueStep, d: Id, t: Id) {
    && t in s.db.outbox
    && ((step.DropJob? && IsOpen(s, t))
        || (d in s.db.deliveries && s.db.deliveries[d].status.PENDING? && step != FinishJob(COMPLETED)))
  }

  /** The last job of an attempt is lost with the attempt, unless its own row survives
      or some process has the attempt in hand. */
  lemma LastJobLosesExactly(c: Config, s: State, k: string, step: QueueStep, d: Id, n: nat)
    requires Structured(s) && PlainIds(s) && QueueEnabled(s, k, step) && IsLast(s, k, d, n)
    ensures var t, s' := s.queue[k].job.outbox, QueueNext(s, k, step);
      && (CanBeRescued(c, s', d, n) <==> RowSurvives(s, k, step, d, t))
      && (CanGoOn(c, s', d, n) <==> RowSurvives(s, k, step, d, t) || StaysInHand(s, k, step, d, n))
  {
    var t := s.queue[k].job.outbox;
    QueueLosesExactly(c, s, k, step, d, n);
    assert JobOk(s, s.queue[k].job);
    hide *;
    LastSurvives(s, k, step, d, n);
  }

  lemma LastSurvives(s: State, k: string, step: QueueStep, d: Id, n: nat)
    requires Structured(s) && PlainIds(s) && QueueEnabled(s, k, step) && IsLast(s, k, d, n) && JobOk(s, s.queue[k].job)
    ensures Survives(s, k, step, d, n) <==> RowSurvives(s, k, step, d, s.queue[k].job.outbox)
  {
    var t := s.queue[k].job.outbox;
    OwnRow(s, k, d, n);
    NoLegacy(s, t);
    hide Structured, PlainIds, JobId, LegacyJobId, OtherJob;
    assert OpenRowLeft(s, k, step, d, n) <==> t in s.db.outbox && StaysOpen(s, k, step, t);
    assert FindableRowLeft(s, k, step, d, n) <==>
      d in s.db.deliveries && s.db.deliveries[d].status.PENDING? && t in s.db.outbox && LeavesFindable(s, k, step, t);
  }

  lemma OwnRow(s: State, k: string, d: Id, n: nat)
    requires RowsOk(s) && IsLast(s, k, d, n) && JobOk(s, s.queue[k].job)
    ensures s.queue[k].job.outbox in s.db.outbox ==> IsOrderRow(s, d, n, s.queue[k].job.outbox)
  {
  }

  // ---------------------------------------------------------------- deleted rows

  /** The clean-up deletes none of the rows before copy `i`. */
  ghost predicate NoneOutdated(s: State, p: nat, i: int)
    requires RowsBefore(s, p, i)
  {
    forall j :: 0 <= j < i ==> !Outdated(s.db.outbox[s.publishers[p].rows[j].outbox], s.now)
  }

  /** A publisher still gets to its copy after the clean-up. */
  ghost predicate CopyStays(s: State, d: Id, n: nat) {
    exists p, i: nat :: IsToBeAdded(s, p, i, d, n) && NoneOutdated(s, p, i)
  }

  /** When the clean-up loses an attempt, in the full interleaving: after it, processes
      at rest bring the attempt back to a worker if and only if it is backed, or its
      delivery is PENDING and one of its rows with a missing or failed job was not
      published more than seven days ago; and whatever processes there are do so, or have
      the attempt in hand, if and only if that holds, or a worker had it in hand, or a
      publisher whose earlier rows are not deleted, or a loop such a row. */
  lemma CleanupLosesExactly(c: Config, s: State, d: Id, n: nat)
    requires Structured(s)
    ensures CanBeRescued(c, Next(c, s, CleanOutbox), d, n) <==>
      Backed(s, d, n) || exists t :: IsFindable(s, d, n, t) && !Outdated(s.db.outbox[t], s.now)
    ensures CanGoOn(c, Next(c, s, CleanOutbox), d, n) <==>
      || Backed(s, d, n) || InHand(s, d, n) || CopyStays(s, d, n)
      || exists t :: IsOrderRow(s, d, n, t) && !Outdated(s.db.outbox[t], s.now)
           && (IsFindable(s, d, n, t) || ToBeReopened(s, t))
  {
    var s' := Next(c, s, CleanOutbox);
    StructureStep(c, s, CleanOutbox);
    Cleaned(c, s);
    RescueExactly(c, s', d, n);
    GoesOnExactly(c, s', d, n);
    SameHands(s, s', d, n);
    hide Next, Structured, CanBeRescued, CanGoOn, InHand;
    CleanBacked(s, s', d, n);
    CleanRows(s, s', d, n);
    CleanCopies(s, s', d, n);
    hide Backed, ToBeAdded, CopyStays, ToBeReopened, IsOrderRow, IsFindable, Outdated, IsClean;
  }

  /** The clean-up deletes outdated rows and does nothing else. */
  predicate IsClean(s: State, s': State) {
    s' == s.(db := CleanupPublished(s.db, s.now))
  }

  lemma Cleaned(c: Config, s: State)
    ensures Enabled(c, s, CleanOutbox) && IsClean(s, Next(c, s, CleanOutbox))
    ensures Next(c, s, CleanOutbox).workers == s.workers
  {
  }

  lemma CleanBacked(s: State, s': State, d: Id, n: nat)
    requires IsClean(s, s')
    ensures Backed(s', d, n) <==> Backed(s, d, n)
  {
    hide JobId;
    assert forall t :: OpenOrder(s', d, n, t) <==> OpenOrder(s, d, n, t);
    assert forall k :: IsJobFor(s', k, d, n) <==> IsJobFor(s, k, d, n);
  }

  lemma CleanRows(s: State, s': State, d: Id, n: nat)
    requires IsClean(s, s')
    ensures forall t :: IsOrderRow(s', d, n, t) <==> IsOrderRow(s, d, n, t) && !Outdated(s.db.outbox[t], s.now)
    ensures forall t :: IsFindable(s', d, n, t) <==> IsFindable(s, d, n, t) && !Outdated(s.db.outbox[t], s.now)
    ensures forall t :: ToBeReopened(s', t) <==> ToBeReopened(s, t)
  {
    hide HasNoLiveJob, JobId;
    forall t ensures ToBeReopened(s', t) <==> ToBeReopened(s, t) {
      assert forall m, i: nat :: IsDead(s', m, i, t) <==> IsDead(s, m, i, t);
    }
  }

  lemma CleanCopies(s: State, s': State, d: Id, n: nat)
    requires IsClean(s, s')
    ensures ToBeAdded(s', d, n) <==> CopyStays(s, d, n)
  {
    hide JobId, Outdated;
    forall p, i: nat
      ensures IsToBeAdded(s', p, i, d, n) <==> IsToBeAdded(s, p, i, d, n) && NoneOutdated(s, p, i)
    {
    }
    hide IsToBeAdded, NoneOutdated;
  }
}
