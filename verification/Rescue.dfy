/** Publication and stranded recovery: which attempts one publisher and one maintenance
    loop at rest bring back, and why nobody who waits is beyond them. */
module Rescue {
  import opened Domain
  import opened Transactions
  import opened JobIds
  import opened Protocol
  import opened Paths
  import opened Structure
  import opened Lossless

  // ---------------------------------------------------------------- fresh names

  ghost function Longest(ids: set<Id>): (n: nat)
    ensures forall id :: id in ids ==> |id| <= n
  {
    if ids == {} then 0
    else
      var id :| id in ids;
      var n := Longest(ids - {id});
      assert forall x :: x in ids ==> x == id || x in ids - {id};
      if |id| > n then |id| else n
  }

  /** The id is not an issued one with a dash and digits appended, nor the other way
      round. */
  ghost predicate IsPlain(s: State, ticket: Id) {
    forall u, n: nat :: u in s.h.issued ==> ticket != u + "-" + Decimal(n) && u != ticket + "-" + Decimal(n)
  }

  lemma FreshTicket(s: State) returns (t: Id)
    ensures Fresh(s, t) && IsPlain(s, t)
  {
    var size := Longest(s.h.issued.Keys + s.db.outbox.Keys);
    t := seq(size + 1, _ => 'x');
    hide Decimal;
    forall u, n: nat | u in s.h.issued ensures t != u + "-" + Decimal(n) && u != t + "-" + Decimal(n) {
      assert |u| <= size && t[|u|] == 'x';
      assert (u + "-" + Decimal(n))[|u|] == '-';
      assert |t + "-" + Decimal(n)| > |t|;
    }
  }

  lemma FreshSlot<V>(m: map<nat, V>) returns (k: nat)
    ensures k !in m
  {
    k := 0;
    var rest := m.Keys;
    while k in m
      invariant rest == set j | j in m && j >= k
      decreases |rest|
    {
      assert k in rest;
      k, rest := k + 1, rest - {k};
    }
  }

  // ---------------------------------------------------------------- queries

  /** Some of a set of ids: at most `n`, all of them if fewer. */
  lemma SomeOf(ids: set<Id>, n: nat) returns (l: seq<Id>)
    ensures Distinct(l) && |l| <= n && (forall i :: 0 <= i < |l| ==> l[i] in ids)
    ensures |l| < n ==> forall id :: id in ids ==> id in l
    decreases n
  {
    l := [];
    if n > 0 && ids != {} {
      var id :| id in ids;
      var rest := SomeOf(ids - {id}, n - 1);
      l := [id] + rest;
    }
  }

  /** The stranded query may return any row it matches first. */
  lemma StrandedListing(db: Tables, t: Id) returns (rest: seq<(Id, nat)>)
    requires t in db.outbox && IsPublishedPending(db, t, db.outbox[t].publishes)
    ensures StrandedRows(db, [(t, db.outbox[t].publishes)] + rest)
  {
    var matches := set u | u in db.outbox && IsPublishedPending(db, u, db.outbox[u].publishes);
    var others := SomeOf(matches - {t}, 99);
    rest := seq(|others|, i requires 0 <= i < |others| => (others[i], db.outbox[others[i]].publishes));
    var rows := [(t, db.outbox[t].publishes)] + rest;
    forall u, n: nat | |rows| < 100 && IsPublishedPending(db, u, n) ensures (u, n) in rows {
      assert u in matches && n == db.outbox[u].publishes;
      if u != t {
        assert u in matches - {t} && u in others;
        var i :| 0 <= i < |others| && others[i] == u;
        assert rows[i + 1] == (u, n);
      }
    }
  }

  /** So may the stale query. */
  lemma StaleListing(db: Tables, cutoff: int, d: Id) returns (rest: seq<(Id, nat)>)
    requires d in db.deliveries && IsStale(db, d, cutoff)
    ensures StaleRows(db, cutoff, [(d, db.deliveries[d].attempts)] + rest)
  {
    var matches := set e | e in db.deliveries && IsStale(db, e, cutoff);
    var others := SomeOf(matches - {d}, 99);
    rest := seq(|others|, i requires 0 <= i < |others| => (others[i], db.deliveries[others[i]].attempts));
    var found := [(d, db.deliveries[d].attempts)] + rest;
    forall e | |found| < 100 && IsStale(db, e, cutoff) ensures IsFound(found, e) {
      if e == d {
        assert found[0].0 == e;
      } else {
        assert e in matches - {d} && e in others;
        var i :| 0 <= i < |others| && others[i] == e;
        assert found[i + 1].0 == e;
      }
    }
  }

  // ---------------------------------------------------------------- publication

  ghost function OpenRows(outbox: map<Id, Ticket>): set<Id> {
    set t | t in outbox && outbox[t].publishedAt.None?
  }

  /** The oldest of some due rows, by the date of creation. */
  lemma OldestOf(outbox: map<Id, Ticket>, ids: set<Id>) returns (t: Id)
    requires ids != {} && forall x :: x in ids ==> x in outbox
    ensures t in ids && forall x :: x in ids ==> outbox[t].createdAt <= outbox[x].createdAt
    decreases |ids|
  {
    t :| t in ids;
    if ids != {t} {
      var u := OldestOf(outbox, ids - {t});
      if outbox[u].createdAt < outbox[t].createdAt {
        t := u;
      }
    }
  }

  predicate SortedIds(outbox: map<Id, Ticket>, ids: seq<Id>) {
    && (forall i :: 0 <= i < |ids| ==> ids[i] in outbox)
    && (forall i, j :: 0 <= i < j < |ids| ==> outbox[ids[i]].createdAt <= outbox[ids[j]].createdAt)
  }

  /** The n oldest of a set of rows, in order. */
  lemma {:induction false} Oldest(outbox: map<Id, Ticket>, due: set<Id>, n: nat) returns (ids: seq<Id>)
    requires forall x :: x in due ==> x in outbox
    ensures Distinct(ids) && SortedIds(outbox, ids) && |ids| <= n
    ensures forall i :: 0 <= i < |ids| ==> ids[i] in due
    ensures forall t, i :: t in due && t !in ids && 0 <= i < |ids| ==> outbox[ids[i]].createdAt <= outbox[t].createdAt
    ensures |ids| < n ==> forall t :: t in due ==> t in ids
    decreases n
  {
    ids := [];
    if n > 0 && due != {} {
      var t := OldestOf(outbox, due);
      var rest := Oldest(outbox, due - {t}, n - 1);
      ids := [t] + rest;
      forall x, i | x in due && x !in ids && 0 <= i < |ids| ensures outbox[ids[i]].createdAt <= outbox[x].createdAt {
        if i > 0 {
          assert ids[i] == rest[i - 1] && x !in rest;
        }
      }
      forall x | |ids| < n && x in due ensures x in ids {
        if x != t {
          assert x in rest;
        }
      }
    }
  }

  lemma SomeBatch(s: State, t: Id) returns (ids: seq<Id>)
    requires Due(s.db.outbox, s.now, t)
    ensures OldestDue(s.db.outbox, s.now, ids) && |ids| > 0
  {
    var due := set x | x in s.db.outbox && Due(s.db.outbox, s.now, x);
    ids := Oldest(s.db.outbox, due, 100);
    assert t in due;
  }

  /** Publisher `p` rests, or holds up-to-date copies of rows that are all still to
      be published. */
  ghost predicate Tidy(s: State, p: nat) {
    p in s.publishers ==>
      && |s.publishers[p].rows| > 0
      && !s.publishers[p].added
      && (forall i :: 0 <= i < |s.publishers[p].rows| ==> IsFreshCopy(s, s.publishers[p].rows[i]))
      && (forall i, j :: 0 <= i < j < |s.publishers[p].rows| ==>
           s.publishers[p].rows[i].outbox != s.publishers[p].rows[j].outbox)
  }

  predicate IsFreshCopy(s: State, job: Job) {
    IsOpen(s, job.outbox) && job == RowOf(s.db.outbox, job.outbox)
  }

  /** What publication changes: rows become published, jobs are added. */
  ghost predicate OnlyPublished(s: State, s': State) {
    && s' == s.(db := s'.db, queue := s'.queue, publishers := s'.publishers, h := s'.h)
    && s'.db == s.db.(outbox := s'.db.outbox)
    && s'.h == s.h.(added := s'.h.added)
    && s'.db.outbox.Keys == s.db.outbox.Keys
    && (forall t :: t in s.db.outbox ==> s'.db.outbox[t] == s.db.outbox[t].(publishedAt := s'.db.outbox[t].publishedAt))
    && (forall k :: k in s.queue ==> k in s'.queue && s'.queue[k] == s.queue[k])
    && (forall k :: k in s'.queue && k !in s.queue ==> s'.queue[k].state.WAITING?)
  }

  lemma PublishedTwice(s: State, mid: State, s': State)
    requires OnlyPublished(s, mid) && OnlyPublished(mid, s')
    ensures OnlyPublished(s, s')
  {
  }

  /** The steps of a publisher that does not fail. */
  predicate Publishes(a: Action, p: nat) {
    a.Publisher? && a.p == p && (a.publishing.Fetch? || a.publishing.AddJob? || a.publishing.MarkRow?)
  }

  predicate AllPublish(actions: seq<Action>, p: nat) {
    forall i :: 0 <= i < |actions| ==> Publishes(actions[i], p)
  }

  lemma NoneYet(p: nat)
    ensures AllPublish([], p)
  {
  }

  lemma PublishGrows(actions: seq<Action>, a: Action, p: nat)
    requires AllPublish(actions, p) && Publishes(a, p)
    ensures AllPublish(actions + [a], p)
  {
  }

  lemma PublishJoins(actions: seq<Action>, actions': seq<Action>, p: nat)
    requires AllPublish(actions, p) && AllPublish(actions', p)
    ensures AllPublish(actions + actions', p)
  {
  }

  lemma FetchTidy(c: Config, s: State, p: nat, ids: seq<Id>)
    requires p !in s.publishers && |ids| > 0 && OldestDue(s.db.outbox, s.now, ids)
    ensures PublisherEnabled(s, p, Fetch(ids))
    ensures var s' := PublisherNext(s, p, Fetch(ids));
      && p in s'.publishers && Tidy(s', p) && OnlyPublished(s, s') && s'.db == s.db
  {
    var s' := DoFetch(s, p, ids);
    forall i | 0 <= i < |ids| ensures IsFreshCopy(s', Copies(s.db.outbox, ids)[i]) {
      assert Due(s.db.outbox, s.now, ids[i]);
    }
    hide OldestDue;
  }

  lemma AddIs(s: State, p: nat)
    requires p in s.publishers && Tidy(s, p)
    ensures PublisherEnabled(s, p, AddJob)
    ensures var s', row := PublisherNext(s, p, AddJob), s.publishers[p].rows[0];
      && OnlyPublished(s, s') && s'.db == s.db && KeyOf(row) in s'.queue
      && s'.publishers == s.publishers[p := s.publishers[p].(added := true)]
  {
    hide IsFreshCopy;
  }

  lemma MarkIs(s: State, p: nat)
    requires p in s.publishers && |s.publishers[p].rows| > 0 && s.publishers[p].added
      && s.publishers[p].rows[0].outbox in s.db.outbox
    ensures PublisherEnabled(s, p, MarkRow)
    ensures var s', t := PublisherNext(s, p, MarkRow), s.publishers[p].rows[0].outbox;
      && OnlyPublished(s, s') && s'.queue == s.queue
      && s'.db.outbox == s.db.outbox[t := s.db.outbox[t].(publishedAt := Some(s.now))]
      && (if |s.publishers[p].rows| == 1 then p !in s'.publishers
          else p in s'.publishers && s'.publishers[p] == Batch(s.publishers[p].rows[1..], false))
  {
  }

  /** Marking the first row leaves a tidy publisher, and fewer open rows. */
  lemma MarkTidy(s: State, s': State, p: nat)
    requires p in s.publishers && Tidy(s, p)
    requires var rows, t := s.publishers[p].rows, s.publishers[p].rows[0].outbox;
      && t in s.db.outbox && s'.db.outbox == s.db.outbox[t := s.db.outbox[t].(publishedAt := Some(s.now))]
      && (if |rows| == 1 then p !in s'.publishers
          else p in s'.publishers && s'.publishers[p] == Batch(rows[1..], false))
    ensures Tidy(s', p) && |OpenRows(s'.db.outbox)| < |OpenRows(s.db.outbox)|
  {
    var t := s.publishers[p].rows[0].outbox;
    assert IsFreshCopy(s, s.publishers[p].rows[0]);
    assert OpenRows(s'.db.outbox) == OpenRows(s.db.outbox) - {t};
    assert t in OpenRows(s.db.outbox);
    if p in s'.publishers {
      forall i | 0 <= i < |s'.publishers[p].rows| ensures IsFreshCopy(s', s'.publishers[p].rows[i]) {
        assert s'.publishers[p].rows[i] == s.publishers[p].rows[i + 1];
        assert IsFreshCopy(s, s.publishers[p].rows[i + 1]);
      }
    }
  }

  /** The head of a tidy batch exists, and its key is the current job id of its row. */
  lemma HeadOf(s: State, p: nat)
    requires p in s.publishers && Tidy(s, p)
    ensures |s.publishers[p].rows| > 0 && s.publishers[p].rows[0].outbox in s.db.outbox
    ensures var row := s.publishers[p].rows[0];
      KeyOf(row) == JobId(row.outbox, s.db.outbox[row.outbox].publishes)
  {
    assert IsFreshCopy(s, s.publishers[p].rows[0]);
    hide JobId;
  }

  /** Row `t` is published, and the queue holds a job under its current id. */
  predicate IsPublished(s: State, t: Id) {
    t in s.db.outbox && s.db.outbox[t].publishedAt.Some? && JobId(t, s.db.outbox[t].publishes) in s.queue
  }

  /** The first row of a tidy batch is added and marked. */
  lemma HeadPath(c: Config, s: State, p: nat) returns (states: seq<State>, actions: seq<Action>)
    requires p in s.publishers && Tidy(s, p)
    ensures |s.publishers[p].rows| > 0 && |states| > 0
    ensures Path(c, states, actions) && states[0] == s && AllPublish(actions, p)
    ensures var s', t := Last(states), s.publishers[p].rows[0].outbox;
      && OnlyPublished(s, s') && Tidy(s', p) && IsPublished(s', t)
      && t in s.db.outbox && s'.db.outbox == s.db.outbox[t := s.db.outbox[t].(publishedAt := Some(s.now))]
      && |OpenRows(s'.db.outbox)| < |OpenRows(s.db.outbox)|
  {
    HeadOf(s, p);
    AddIs(s, p);
    var mid := PublisherNext(s, p, AddJob);
    MarkIs(mid, p);
    var s' := PublisherNext(mid, p, MarkRow);
    assert mid.now == s.now && IsPublished(s', s.publishers[p].rows[0].outbox);
    hide *;
    MarkTidy(s, s', p);
    PublisherIs(c, s, p, AddJob);
    PublisherIs(c, mid, p, MarkRow);
    StartPath(c, s);
    PathGrows(c, [s], [], Publisher(p, AddJob), mid);
    PathGrows(c, [s] + [mid], [] + [Publisher(p, AddJob)], Publisher(p, MarkRow), s');
    states, actions := [s] + [mid] + [s'], [] + [Publisher(p, AddJob)] + [Publisher(p, MarkRow)];
    NoneYet(p);
    PublishGrows([], Publisher(p, AddJob), p);
    PublishGrows([] + [Publisher(p, AddJob)], Publisher(p, MarkRow), p);
    PublishedTwice(s, mid, s');
  }

  lemma StillDue(s: State, s': State, t: Id, head: Id)
    requires Due(s.db.outbox, s.now, t) && t != head && OnlyPublished(s, s')
    requires head in s.db.outbox && s'.db.outbox == s.db.outbox[head := s.db.outbox[head].(publishedAt := Some(s.now))]
    ensures Due(s'.db.outbox, s'.now, t)
  {
  }

  /** A due row is published by any one publisher at rest, however many older rows are
      ahead of it: each round publishes what it fetched, and there are finitely many. */
  lemma {:induction false} DueIsPublished(c: Config, s: State, t: Id, p: nat)
      returns (states: seq<State>, actions: seq<Action>)
    requires Tidy(s, p) && Due(s.db.outbox, s.now, t)
    ensures |states| > 0 && Path(c, states, actions) && states[0] == s && AllPublish(actions, p)
    ensures OnlyPublished(s, Last(states)) && IsPublished(Last(states), t)
    decreases |OpenRows(s.db.outbox)|, if p in s.publishers then 0 else 1
  {
    hide *;
    if p !in s.publishers {
      var ids := SomeBatch(s, t);
      FetchTidy(c, s, p, ids);
      PublisherIs(c, s, p, Fetch(ids));
      var a, next := Publisher(p, Fetch(ids)), PublisherNext(s, p, Fetch(ids));
      SameClock(s, next);
      var rest, done := DueIsPublished(c, next, t, p);
      StartPath(c, s);
      PathGrows(c, [s], [], a, next);
      NoneYet(p);
      FetchPublishes(p, ids);
      PublishGrows([], a, p);
      PathsJoin(c, [s] + [next], [] + [a], rest, done);
      PublishJoins([] + [a], done, p);
      PublishedTwice(s, next, Last(rest));
      states, actions := [s] + [next] + rest[1..], [] + [a] + done;
    } else {
      states, actions := HeadPath(c, s, p);
      var head, next := s.publishers[p].rows[0].outbox, Last(states);
      if head != t {
        StillDue(s, next, t, head);
        var rest, done := DueIsPublished(c, next, t, p);
        PathsJoin(c, states, actions, rest, done);
        PublishJoins(actions, done, p);
        PublishedTwice(s, next, Last(rest));
        states, actions := states + rest[1..], actions + done;
      }
    }
  }

  lemma SameClock(s: State, s': State)
    requires OnlyPublished(s, s')
    ensures s'.now == s.now
  {
  }

  lemma FetchPublishes(p: nat, ids: seq<Id>)
    ensures Publishes(Publisher(p, Fetch(ids)), p)
  {
  }

  // ---------------------------------------------------------------- stranded recovery

  /** The steps of stranded recovery in one maintenance loop. */
  predicate Reopens(a: Action, m: nat) {
    a.Maintain? && a.m == m && (a.sweeping.ScanStranded? || a.sweeping.InspectOne? || a.sweeping.ReopenOne?)
  }

  /** A published row of a PENDING delivery without a live job is reopened by any one
      loop at rest, first of the rows that its query returns. */
  lemma StrandedIsReopened(c: Config, s: State, t: Id, m: nat)
      returns (states: seq<State>, actions: seq<Action>, rest: seq<(Id, nat)>)
    requires m !in s.sweeps && t in s.db.outbox && IsPublishedPending(s.db, t, s.db.outbox[t].publishes)
    requires HasNoLiveJob(s.queue, t, s.db.outbox[t].publishes)
    ensures |states| > 0 && Path(c, states, actions) && states[0] == s
    ensures forall i :: 0 <= i < |actions| ==> Reopens(actions[i], m)
    ensures Last(states) == s.(db := Reopen(s.db, t), sweeps := s.sweeps[m := Stranded(rest, false)])
  {
    rest := StrandedListing(s.db, t);
    var rows := [(t, s.db.outbox[t].publishes)] + rest;
    var s1 := s.(sweeps := s.sweeps[m := Stranded(rows, false)]);
    var s2 := s.(sweeps := s.sweeps[m := Stranded(rows, true)]);
    var s3 := s.(db := Reopen(s.db, t), sweeps := s.sweeps[m := Stranded(rest, false)]);
    assert rows[0] == (t, s.db.outbox[t].publishes) && rows[1..] == rest;
    hide *;
    ScanIs(c, s, m, rows);
    InspectIs(c, s, s1, s2, m, rows);
    ReopenIs(c, s, s2, s3, m, rows);
    SweepIs(c, s, m, ScanStranded(rows));
    SweepIs(c, s1, m, InspectOne);
    SweepIs(c, s2, m, ReopenOne);
    StartPath(c, s);
    PathGrows(c, [s], [], Maintain(m, ScanStranded(rows)), s1);
    PathGrows(c, [s] + [s1], [] + [Maintain(m, ScanStranded(rows))], Maintain(m, InspectOne), s2);
    PathGrows(c, [s] + [s1] + [s2], [] + [Maintain(m, ScanStranded(rows))] + [Maintain(m, InspectOne)],
      Maintain(m, ReopenOne), s3);
    states := [s] + [s1] + [s2] + [s3];
    actions := [] + [Maintain(m, ScanStranded(rows))] + [Maintain(m, InspectOne)] + [Maintain(m, ReopenOne)];
    ThreeReopen(m, rows);
  }

  lemma ThreeReopen(m: nat, rows: seq<(Id, nat)>)
    ensures Reopens(Maintain(m, ScanStranded(rows)), m) && Reopens(Maintain(m, InspectOne), m)
      && Reopens(Maintain(m, ReopenOne), m)
  {
  }

  lemma ScanIs(c: Config, s: State, m: nat, rows: seq<(Id, nat)>)
    requires m !in s.sweeps && StrandedRows(s.db, rows)
    ensures SweepEnabled(c, s, m, ScanStranded(rows))
    ensures SweepNext(c, s, m, ScanStranded(rows)) == s.(sweeps := s.sweeps[m := Stranded(rows, false)])
  {
    hide StrandedRows;
  }

  lemma InspectIs(c: Config, s: State, s1: State, s2: State, m: nat, rows: seq<(Id, nat)>)
    requires |rows| > 0 && s1 == s.(sweeps := s.sweeps[m := Stranded(rows, false)])
      && s2 == s.(sweeps := s.sweeps[m := Stranded(rows, true)])
    requires HasNoLiveJob(s.queue, rows[0].0, rows[0].1)
    ensures SweepEnabled(c, s1, m, InspectOne) && SweepNext(c, s1, m, InspectOne) == s2
  {
    assert DoInspectOne(s1, m).sweeps == s2.sweeps;
    hide HasNoLiveJob;
  }

  lemma ReopenIs(c: Config, s: State, s2: State, s3: State, m: nat, rows: seq<(Id, nat)>)
    requires |rows| > 0 && rows[0].0 in s.db.outbox && s2 == s.(sweeps := s.sweeps[m := Stranded(rows, true)])
    requires s3 == s.(db := Reopen(s.db, rows[0].0), sweeps := s.sweeps[m := Stranded(rows[1..], false)])
    ensures SweepEnabled(c, s2, m, ReopenOne) && SweepNext(c, s2, m, ReopenOne) == s3
  {
    hide Reopen;
  }

  // ---------------------------------------------------------------- who is rescued

  /** A path of one publisher and one maintenance loop that were at rest, none of
      whose calls fails. */
  ghost predicate IsRescue(c: Config, s: State, p: nat, m: nat, states: seq<State>, actions: seq<Action>) {
    && p !in s.publishers && m !in s.sweeps
    && |states| > 0 && Path(c, states, actions) && states[0] == s
    && forall i :: 0 <= i < |actions| ==> Publishes(actions[i], p) || Reopens(actions[i], m)
  }

  ghost predicate CanBeRescued(c: Config, s: State, d: Id, n: nat) {
    exists p, m, states, actions :: IsRescue(c, s, p, m, states, actions) && Backed(Last(states), d, n)
  }

  predicate IsOrderRow(s: State, d: Id, n: nat, t: Id) {
    t in s.db.outbox && s.db.outbox[t].delivery == d && s.db.outbox[t].attemptNumber == n
  }

  /** Row `t` orders attempt `n` of the PENDING delivery `d`, and stranded recovery
      sees no live job for it. */
  predicate IsFindable(s: State, d: Id, n: nat, t: Id) {
    && d in s.db.deliveries && s.db.deliveries[d].status.PENDING?
    && IsOrderRow(s, d, n, t)
    && HasNoLiveJob(s.queue, t, s.db.outbox[t].publishes)
  }

  ghost predicate AnyFindable(s: State, d: Id, n: nat) {
    exists t :: IsFindable(s, d, n, t)
  }

  /** A queued job of a row shows that the row is due. */
  lemma JobShowsDue(s: State, t: Id)
    requires Structured(s) && IsOpen(s, t) && JobId(t, s.db.outbox[t].publishes) in s.queue
    ensures Due(s.db.outbox, s.now, t)
  {
    var key := JobId(t, s.db.outbox[t].publishes);
    var job := s.queue[key].job;
    assert JobOk(s, job);
    JobIdInjective(t, s.db.outbox[t].publishes, job.outbox, job.counter);
  }

  lemma {:induction false} PathStructured(c: Config, states: seq<State>, actions: seq<Action>, i: nat)
    requires Path(c, states, actions) && Structured(states[0]) && i < |states|
    ensures Structured(states[i])
  {
    hide Enabled, Next, Structured;
    if i > 0 {
      PathStructured(c, states, actions, i - 1);
      StructureStep(c, states[i - 1], actions[i - 1]);
    }
  }

  lemma ReopenedIsBacked(s: State, s': State, d: Id, n: nat, t: Id)
    requires Structured(s) && IsOrderRow(s, d, n, t) && s'.db == Reopen(s.db, t) && s'.queue == s.queue
    ensures Backed(s', d, n)
  {
    CounterUnused(s, t, s.db.outbox[t].publishes + 1);
    hide JobId;
    assert OpenOrder(s', d, n, t);
  }

  /** A published findable row is reopened, and then backs its attempt. */
  lemma PublishedIsRescued(c: Config, s: State, d: Id, n: nat, t: Id, m: nat)
      returns (states: seq<State>, actions: seq<Action>)
    requires Structured(s) && IsFindable(s, d, n, t) && s.db.outbox[t].publishedAt.Some? && m !in s.sweeps
    ensures |states| > 0 && Path(c, states, actions) && states[0] == s && forall i :: 0 <= i < |actions| ==>
      Reopens(actions[i], m)
    ensures Backed(Last(states), d, n)
  {
    assert IsPublishedPending(s.db, t, s.db.outbox[t].publishes);
    var rest;
    states, actions, rest := StrandedIsReopened(c, s, t, m);
    ReopenedIsBacked(s, Last(states), d, n, t);
  }

  /** Publication leaves a findable row with a failed job findable. */
  lemma StillFindable(s: State, s': State, d: Id, n: nat, t: Id)
    requires IsFindable(s, d, n, t) && OnlyPublished(s, s') && JobId(t, s.db.outbox[t].publishes) in s.queue
    ensures IsFindable(s', d, n, t)
  {
    hide JobId;
  }

  lemma OpenIsBacked(s: State, d: Id, n: nat, t: Id)
    requires IsFindable(s, d, n, t) && IsOpen(s, t) && JobId(t, s.db.outbox[t].publishes) !in s.queue
    ensures Backed(s, d, n)
  {
    hide JobId;
    assert OpenOrder(s, d, n, t);
  }

  lemma BackedNow(c: Config, s: State, d: Id, n: nat)
    requires Backed(s, d, n)
    ensures CanBeRescued(c, s, d, n)
  {
    var p := FreshSlot(s.publishers);
    var m := FreshSlot(s.sweeps);
    StartPath(c, s);
    hide Path, Backed;
    assert IsRescue(c, s, p, m, [s], []);
  }

  lemma FindableIsRescued(c: Config, s: State, d: Id, n: nat, t: Id)
    requires Structured(s) && IsFindable(s, d, n, t)
    ensures CanBeRescued(c, s, d, n)
  {
    var p := FreshSlot(s.publishers);
    var m := FreshSlot(s.sweeps);
    var states, actions;
    hide Structured, Path, Backed, HasNoLiveJob, JobId, OnlyPublished, Publishes, Reopens, Due;
    if s.db.outbox[t].publishedAt.Some? {
      states, actions := PublishedIsRescued(c, s, d, n, t, m);
      assert IsRescue(c, s, p, m, states, actions);
    } else if JobId(t, s.db.outbox[t].publishes) !in s.queue {
      OpenIsBacked(s, d, n, t);
      BackedNow(c, s, d, n);
    } else {
      JobShowsDue(s, t);
      states, actions := DueIsPublished(c, s, t, p);
      LastStructured(c, states, actions);
      StillFindable(s, Last(states), d, n, t);
      SameSweeps(s, Last(states));
      var rest, done := PublishedIsRescued(c, Last(states), d, n, t, m);
      PathsJoin(c, states, actions, rest, done);
      EitherStep(actions, done, p, m);
      assert IsRescue(c, s, p, m, states + rest[1..], actions + done);
    }
  }

  lemma LastStructured(c: Config, states: seq<State>, actions: seq<Action>)
    requires |states| > 0 && Path(c, states, actions) && Structured(states[0])
    ensures Structured(Last(states))
  {
    PathStructured(c, states, actions, |states| - 1);
  }

  lemma SameSweeps(s: State, s': State)
    requires OnlyPublished(s, s')
    ensures s'.sweeps == s.sweeps && s'.db.outbox.Keys == s.db.outbox.Keys
  {
  }

  lemma EitherStep(actions: seq<Action>, done: seq<Action>, p: nat, m: nat)
    requires AllPublish(actions, p) && forall i :: 0 <= i < |done| ==> Reopens(done[i], m)
    ensures forall i :: 0 <= i < |actions + done| ==>
      Publishes((actions + done)[i], p) || Reopens((actions + done)[i], m)
  {
  }

  // ---------------------------------------------------------------- who is not

  /** The rows before copy `i` in the batch of publisher `p` exist: it gets there.  Marking
      a deleted row makes it give up its batch. */
  ghost predicate RowsBefore(s: State, p: nat, i: int) {
    p in s.publishers && i <= |s.publishers[p].rows|
    && forall j :: 0 <= j < i ==> s.publishers[p].rows[j].outbox in s.db.outbox
  }

  /** Publisher `p` holds no copy that would add a job for attempt `n` of `d`: those it
      still has to add, it does not get to, or the queue would ignore them. */
  ghost predicate HoldsNone(s: State, p: nat, d: Id, n: nat) {
    p in s.publishers ==> forall i :: 0 <= i < |s.publishers[p].rows| ==> IsNeverAdded(s, p, i, d, n)
  }

  ghost predicate IsNeverAdded(s: State, p: nat, i: int, d: Id, n: nat)
    requires p in s.publishers && 0 <= i < |s.publishers[p].rows|
  {
    (i == 0 && s.publishers[p].added) || CopyIsSpent(s, s.publishers[p].rows[i], d, n) || !RowsBefore(s, p, i)
  }

  predicate CopyIsSpent(s: State, job: Job, d: Id, n: nat) {
    IsFor(job, d, n) ==> KeyOf(job) in s.queue
  }

  /** Loop `m` has found no row of attempt `n` of `d` that it would reopen. */
  ghost predicate FoundNone(s: State, m: nat, d: Id, n: nat) {
    m in s.sweeps && s.sweeps[m].Stranded? ==>
      && (forall i :: 0 <= i < |s.sweeps[m].published| ==> EntryIsLive(s, s.sweeps[m].published[i], d, n))
      && (s.sweeps[m].condemned && |s.sweeps[m].published| > 0 ==>
            !IsOrderRow(s, d, n, s.sweeps[m].published[0].0))
  }

  predicate EntryIsLive(s: State, entry: (Id, nat), d: Id, n: nat) {
    IsOrderRow(s, d, n, entry.0) ==> !HasNoLiveJob(s.queue, entry.0, entry.1)
  }

  /** Nothing backs the attempt, and neither process will change that. */
  ghost predicate Beyond(s: State, p: nat, m: nat, d: Id, n: nat) {
    Structured(s) && !Backed(s, d, n) && !AnyFindable(s, d, n) && HoldsNone(s, p, d, n) && FoundNone(s, m, d, n)
  }

  /** Publication marks rows and adds jobs for other attempts only. */
  ghost predicate AddsElsewhere(s: State, s': State, d: Id, n: nat) {
    && OnlyPublished(s, s')
    && (forall t :: t in s.db.outbox && s.db.outbox[t].publishedAt.Some? ==> s'.db.outbox[t].publishedAt.Some?)
    && (forall k :: k in s'.queue && k !in s.queue ==>
         !(s'.queue[k].job.delivery == d && s'.queue[k].job.expected == n))
  }

  lemma StillNotBacked(s: State, s': State, d: Id, n: nat)
    requires !Backed(s, d, n) && AddsElsewhere(s, s', d, n)
    ensures !Backed(s', d, n)
  {
    hide JobId;
    forall t ensures !OpenOrder(s', d, n, t) {
      assert !OpenOrder(s, d, n, t);
    }
    forall k ensures !IsJobFor(s', k, d, n) {
      assert !IsJobFor(s, k, d, n);
    }
  }

  /** A key of the attempt's own rows that is new would be a job for the attempt. */
  lemma OwnKeyIsNew(s: State, s': State, d: Id, n: nat, t: Id, counter: nat)
    requires RowsOk(s') && QueueOk(s') && AddsElsewhere(s, s', d, n) && IsOrderRow(s', d, n, t)
    ensures JobId(t, counter) in s'.queue ==> JobId(t, counter) in s.queue
  {
    if JobId(t, counter) in s'.queue {
      var job := s'.queue[JobId(t, counter)].job;
      assert JobOk(s', job);
      JobIdInjective(t, counter, job.outbox, job.counter);
    }
  }

  lemma StillLive(s: State, s': State, d: Id, n: nat, t: Id, counter: nat)
    requires RowsOk(s') && QueueOk(s') && AddsElsewhere(s, s', d, n) && IsOrderRow(s', d, n, t)
    requires !HasNoLiveJob(s.queue, t, counter)
    ensures !HasNoLiveJob(s'.queue, t, counter)
  {
    OwnKeyIsNew(s, s', d, n, t, counter);
    hide JobId, LegacyJobId, RowsOk, QueueOk;
  }

  lemma SameRow(s: State, s': State, d: Id, n: nat, t: Id)
    requires OnlyPublished(s, s')
    ensures IsOrderRow(s', d, n, t) <==> IsOrderRow(s, d, n, t)
    ensures t in s.db.outbox ==> s'.db.outbox[t].publishes == s.db.outbox[t].publishes
  {
  }

  lemma StillNotFindable(s: State, s': State, d: Id, n: nat)
    requires RowsOk(s') && QueueOk(s') && !AnyFindable(s, d, n) && AddsElsewhere(s, s', d, n)
    ensures !AnyFindable(s', d, n)
  {
    forall t ensures !IsFindable(s', d, n, t) {
      SameRow(s, s', d, n, t);
      assert !IsFindable(s, d, n, t);
      if IsOrderRow(s', d, n, t) && !HasNoLiveJob(s.queue, t, s.db.outbox[t].publishes) {
        StillLive(s, s', d, n, t, s.db.outbox[t].publishes);
      }
    }
  }

  lemma StillFoundNone(s: State, s': State, m: nat, d: Id, n: nat)
    requires RowsOk(s') && QueueOk(s') && FoundNone(s, m, d, n) && AddsElsewhere(s, s', d, n)
    ensures FoundNone(s', m, d, n)
  {
    if m in s.sweeps && s.sweeps[m].Stranded? {
      var found := s.sweeps[m].published;
      forall i | 0 <= i < |found| ensures EntryIsLive(s', found[i], d, n) {
        assert EntryIsLive(s, found[i], d, n);
        SameRow(s, s', d, n, found[i].0);
        if IsOrderRow(s', d, n, found[i].0) {
          StillLive(s, s', d, n, found[i].0, found[i].1);
        }
      }
      if s.sweeps[m].condemned && |found| > 0 {
        SameRow(s, s', d, n, found[0].0);
      }
    }
  }

  /** Open rows of an attempt that is not backed have a finished current job. */
  lemma CopiesAreSpent(s: State, ids: seq<Id>, d: Id, n: nat, i: nat)
    requires !Backed(s, d, n) && i < |ids| && forall k :: 0 <= k < |ids| ==> ids[k] in s.db.outbox
    requires Due(s.db.outbox, s.now, ids[i])
    ensures CopyIsSpent(s, Copies(s.db.outbox, ids)[i], d, n)
  {
    assert !OpenOrder(s, d, n, ids[i]);
    hide JobId;
  }

  lemma PublisherAdds(s: State, p: nat, step: PublisherStep, d: Id, n: nat)
    requires PublisherEnabled(s, p, step) && Publishes(Publisher(p, step), p) && !Backed(s, d, n)
      && HoldsNone(s, p, d, n)
    ensures AddsElsewhere(s, PublisherNext(s, p, step), d, n)
  {
    hide *;
    match step
    case AddJob => AddAdds(s, p, d, n);
    case MarkRow => MarkAdds(s, p, d, n);
    case Fetch(ids) => FetchAdds(s, p, ids, d, n);
    case _ => OnlyThree(p, step);
  }

  lemma OnlyThree(p: nat, step: PublisherStep)
    ensures Publishes(Publisher(p, step), p) <==> step.Fetch? || step.AddJob? || step.MarkRow?
  {
  }

  lemma AddAdds(s: State, p: nat, d: Id, n: nat)
    requires PublisherEnabled(s, p, AddJob) && HoldsNone(s, p, d, n)
    ensures AddsElsewhere(s, PublisherNext(s, p, AddJob), d, n)
  {
    assert IsNeverAdded(s, p, 0, d, n) && RowsBefore(s, p, 0);
    assert CopyIsSpent(s, s.publishers[p].rows[0], d, n);
    hide JobId;
  }

  lemma MarkAdds(s: State, p: nat, d: Id, n: nat)
    requires PublisherEnabled(s, p, MarkRow)
    ensures AddsElsewhere(s, PublisherNext(s, p, MarkRow), d, n)
  {
    if s.publishers[p].rows[0].outbox in s.db.outbox {
      MarkIs(s, p);
    } else {
      MarkFails(s, p);
    }
    hide PublisherNext, PublisherEnabled;
  }

  lemma MarkFails(s: State, p: nat)
    requires PublisherEnabled(s, p, MarkRow) && s.publishers[p].rows[0].outbox !in s.db.outbox
    ensures PublisherNext(s, p, MarkRow) == s.(publishers := s.publishers - {p})
  {
  }

  lemma FetchAdds(s: State, p: nat, ids: seq<Id>, d: Id, n: nat)
    requires PublisherEnabled(s, p, Fetch(ids))
    ensures AddsElsewhere(s, PublisherNext(s, p, Fetch(ids)), d, n)
  {
    hide OldestDue, Copies;
  }

  lemma PublisherHolds(s: State, p: nat, step: PublisherStep, d: Id, n: nat)
    requires PublisherEnabled(s, p, step) && Publishes(Publisher(p, step), p) && !Backed(s, d, n)
      && HoldsNone(s, p, d, n)
    ensures HoldsNone(PublisherNext(s, p, step), p, d, n)
  {
    var s' := PublisherNext(s, p, step);
    if step.Fetch? {
      var ids := step.ids;
      forall i | 0 <= i < |ids| ensures CopyIsSpent(s', Copies(s.db.outbox, ids)[i], d, n) {
        CopiesAreSpent(s, ids, d, n, i);
      }
    } else {
      hide JobId, Backed;
      BatchAfter(s, p, step);
      hide PublisherNext;
      if p in s'.publishers {
        forall i | 0 <= i < |s'.publishers[p].rows| ensures IsNeverAdded(s', p, i, d, n) {
          NeverAddedAfter(s, s', p, i, if step.MarkRow? then i + 1 else i, d, n);
        }
      }
    }
  }

  /** Copy `i` of the new batch was copy `j`. */
  lemma NeverAddedAfter(s: State, s': State, p: nat, i: int, j: int, d: Id, n: nat)
    requires p in s.publishers && p in s'.publishers && 0 <= i < |s'.publishers[p].rows|
    requires
      || (j == i && s'.publishers[p].rows == s.publishers[p].rows && (s.publishers[p].added ==> s'.publishers[p].added))
      || (j == i + 1 && |s.publishers[p].rows| > 0 && s'.publishers[p].rows == s.publishers[p].rows[1..]
          && s.publishers[p].rows[0].outbox in s.db.outbox)
    requires s'.db.outbox.Keys == s.db.outbox.Keys && forall k :: k in s.queue ==> k in s'.queue
    requires j < |s.publishers[p].rows| && IsNeverAdded(s, p, j, d, n)
    ensures IsNeverAdded(s', p, i, d, n)
  {
    hide JobId;
    var rows, rows' := s.publishers[p].rows, s'.publishers[p].rows;
    assert rows'[i] == rows[j];
    if !RowsBefore(s, p, j) {
      var k :| 0 <= k < j && rows[k].outbox !in s.db.outbox;
      assert rows'[k - (j - i)] == rows[k];
    }
  }

  lemma BatchAfter(s: State, p: nat, step: PublisherStep)
    requires PublisherEnabled(s, p, step) && (step.AddJob? || step.MarkRow?)
    ensures var s' := PublisherNext(s, p, step);
      && p in s.publishers && |s.publishers[p].rows| > 0
      && (p in s'.publishers ==>
            if step.MarkRow?
            then s'.publishers[p].rows == s.publishers[p].rows[1..] && s.publishers[p].rows[0].outbox in s.db.outbox
            else s'.publishers[p].rows == s.publishers[p].rows && s'.publishers[p].added)
      && s'.db.outbox.Keys == s.db.outbox.Keys
      && (forall k :: k in s.queue ==> k in s'.queue)
  {
  }

  lemma PublisherBeyond(c: Config, s: State, p: nat, m: nat, step: PublisherStep, d: Id, n: nat)
    requires PublisherEnabled(s, p, step) && Publishes(Publisher(p, step), p) && Beyond(s, p, m, d, n)
    ensures Beyond(PublisherNext(s, p, step), p, m, d, n)
  {
    var s' := PublisherNext(s, p, step);
    PublisherKeeps(s, p, step);
    assert RowsOk(s') && QueueOk(s');
    hide *;
    BeyondParts(s, p, m, d, n);
    PublisherAdds(s, p, step, d, n);
    PublisherHolds(s, p, step, d, n);
    StillNotBacked(s, s', d, n);
    StillNotFindable(s, s', d, n);
    StillFoundNone(s, s', m, d, n);
    PartsBeyond(s', p, m, d, n);
  }

  lemma BeyondParts(s: State, p: nat, m: nat, d: Id, n: nat)
    requires Beyond(s, p, m, d, n)
    ensures Structured(s) && !Backed(s, d, n) && !AnyFindable(s, d, n) && HoldsNone(s, p, d, n) && FoundNone(s, m, d, n)
  {
  }

  lemma PartsBeyond(s: State, p: nat, m: nat, d: Id, n: nat)
    requires Structured(s) && !Backed(s, d, n) && !AnyFindable(s, d, n) && HoldsNone(s, p, d, n)
      && FoundNone(s, m, d, n)
    ensures Beyond(s, p, m, d, n)
  {
  }

  /** The same rows of the attempt, with the same counters, deliveries and queue. */
  ghost predicate SameOrders(s: State, s': State, d: Id, n: nat) {
    && s'.queue == s.queue && s'.db.deliveries == s.db.deliveries && s'.publishers == s.publishers
    && s'.db.outbox.Keys == s.db.outbox.Keys
    && (forall t :: IsOrderRow(s', d, n, t) <==> IsOrderRow(s, d, n, t))
    && (forall t :: IsOrderRow(s, d, n, t) ==> s'.db.outbox[t] == s.db.outbox[t])
  }

  lemma SameOrdersBeyond(s: State, s': State, p: nat, d: Id, n: nat)
    requires SameOrders(s, s', d, n) && !Backed(s, d, n) && !AnyFindable(s, d, n) && HoldsNone(s, p, d, n)
    ensures !Backed(s', d, n) && !AnyFindable(s', d, n) && HoldsNone(s', p, d, n)
  {
    hide JobId, HasNoLiveJob;
    forall t ensures !OpenOrder(s', d, n, t) && !IsFindable(s', d, n, t) {
      assert IsOrderRow(s', d, n, t) <==> IsOrderRow(s, d, n, t);
      assert !OpenOrder(s, d, n, t) && !IsFindable(s, d, n, t);
    }
    forall k ensures !IsJobFor(s', k, d, n) {
      assert !IsJobFor(s, k, d, n);
    }
    if p in s'.publishers {
      forall i | 0 <= i < |s'.publishers[p].rows| ensures IsNeverAdded(s', p, i, d, n) {
        assert IsNeverAdded(s, p, i, d, n);
        NeverAddedAfter(s, s', p, i, i, d, n);
      }
    }
  }

  lemma SweepSameOrders(c: Config, s: State, m: nat, step: SweepStep, d: Id, n: nat)
    requires SweepEnabled(c, s, m, step) && Reopens(Maintain(m, step), m)
    requires step.ReopenOne? ==> !IsOrderRow(s, d, n, s.sweeps[m].published[0].0)
    ensures SameOrders(s, SweepNext(c, s, m, step), d, n)
  {
    hide HasNoLiveJob;
  }

  lemma HeadIsSpared(c: Config, s: State, m: nat, step: SweepStep, d: Id, n: nat)
    requires SweepEnabled(c, s, m, step) && FoundNone(s, m, d, n)
    ensures step.ReopenOne? ==> !IsOrderRow(s, d, n, s.sweeps[m].published[0].0)
  {
    hide HasNoLiveJob, StaleRows, StrandedRows;
  }

  lemma SweepFinds(c: Config, s: State, m: nat, step: SweepStep, d: Id, n: nat)
    requires SweepEnabled(c, s, m, step) && Reopens(Maintain(m, step), m) && FoundNone(s, m, d, n)
      && !AnyFindable(s, d, n)
    requires SameOrders(s, SweepNext(c, s, m, step), d, n) && RowsOk(s)
    ensures FoundNone(SweepNext(c, s, m, step), m, d, n)
  {
    hide *;
    OneOfThree(m, step);
    if step.ScanStranded? {
      ScanFinds(c, s, m, step.published, d, n);
    } else {
      EntriesAfter(c, s, m, step);
      EntriesStayLive(s, SweepNext(c, s, m, step), m, d, n);
    }
  }

  lemma OneOfThree(m: nat, step: SweepStep)
    ensures Reopens(Maintain(m, step), m) <==> step.ScanStranded? || step.InspectOne? || step.ReopenOne?
  {
  }

  lemma ScanFinds(c: Config, s: State, m: nat, rows: seq<(Id, nat)>, d: Id, n: nat)
    requires SweepEnabled(c, s, m, ScanStranded(rows)) && !AnyFindable(s, d, n)
    ensures FoundNone(SweepNext(c, s, m, ScanStranded(rows)), m, d, n)
  {
    assert m !in s.sweeps && StrandedRows(s.db, rows);
    ScanIs(c, s, m, rows);
    hide SweepNext, SweepEnabled, HasNoLiveJob;
    var s' := SweepNext(c, s, m, ScanStranded(rows));
    forall i | 0 <= i < |rows| ensures EntryIsLive(s', rows[i], d, n) {
      assert IsPublishedPending(s.db, rows[i].0, rows[i].1);
      assert !IsFindable(s, d, n, rows[i].0);
    }
  }

  lemma EntriesStayLive(s: State, s': State, m: nat, d: Id, n: nat)
    requires m in s.sweeps && s.sweeps[m].Stranded? && |s.sweeps[m].published| > 0
    requires FoundNone(s, m, d, n) && SameOrders(s, s', d, n)
    requires m in s'.sweeps && s'.sweeps[m].Stranded? ==>
      var found, found' := s.sweeps[m].published, s'.sweeps[m].published;
      && (found' == found || found' == found[1..])
      && (s'.sweeps[m].condemned ==> found' == found && HasNoLiveJob(s.queue, found[0].0, found[0].1))
    ensures FoundNone(s', m, d, n)
  {
    hide HasNoLiveJob;
    if m in s'.sweeps && s'.sweeps[m].Stranded? {
      var j := |s.sweeps[m].published| - |s'.sweeps[m].published|;
      forall i | 0 <= i < |s'.sweeps[m].published| ensures EntryIsLive(s', s'.sweeps[m].published[i], d, n) {
        assert EntryIsLive(s, s.sweeps[m].published[i + j], d, n);
      }
      if s'.sweeps[m].condemned && |s'.sweeps[m].published| > 0 {
        assert EntryIsLive(s, s.sweeps[m].published[0], d, n);
      }
    }
  }

  lemma EntriesAfter(c: Config, s: State, m: nat, step: SweepStep)
    requires SweepEnabled(c, s, m, step) && (step.InspectOne? || step.ReopenOne?)
    ensures var s' := SweepNext(c, s, m, step);
      && m in s.sweeps && s.sweeps[m].Stranded? && |s.sweeps[m].published| > 0
      && (m in s'.sweeps && s'.sweeps[m].Stranded? ==>
            var found, found' := s.sweeps[m].published, s'.sweeps[m].published;
            && (found' == found || found' == found[1..])
            && (s'.sweeps[m].condemned ==> found' == found && HasNoLiveJob(s.queue, found[0].0, found[0].1)))
  {
    hide HasNoLiveJob;
  }

  lemma SweepBeyond(c: Config, s: State, p: nat, m: nat, step: SweepStep, d: Id, n: nat)
    requires SweepEnabled(c, s, m, step) && Reopens(Maintain(m, step), m) && Beyond(s, p, m, d, n)
    ensures Beyond(SweepNext(c, s, m, step), p, m, d, n)
  {
    var s' := SweepNext(c, s, m, step);
    SweepKeeps(c, s, m, step);
    assert RowsOk(s);
    hide *;
    BeyondParts(s, p, m, d, n);
    HeadIsSpared(c, s, m, step, d, n);
    SweepSameOrders(c, s, m, step, d, n);
    SameOrdersBeyond(s, s', p, d, n);
    SweepFinds(c, s, m, step, d, n);
    PartsBeyond(s', p, m, d, n);
  }

  lemma {:induction false} PathBeyond(c: Config, s: State, p: nat, m: nat, states: seq<State>, actions: seq<Action>,
      d: Id, n: nat, i: nat)
    requires IsRescue(c, s, p, m, states, actions) && Beyond(s, p, m, d, n) && i < |states|
    ensures Beyond(states[i], p, m, d, n)
  {
    hide Enabled, Next, Beyond, Publishes, Reopens;
    if i > 0 {
      PathBeyond(c, s, p, m, states, actions, d, n, i - 1);
      StepBeyond(c, states[i - 1], p, m, actions[i - 1], d, n);
    }
  }

  lemma StepBeyond(c: Config, s: State, p: nat, m: nat, a: Action, d: Id, n: nat)
    requires Enabled(c, s, a) && (Publishes(a, p) || Reopens(a, m)) && Beyond(s, p, m, d, n)
    ensures Beyond(Next(c, s, a), p, m, d, n)
  {
    hide Beyond, PublisherNext, SweepNext, PublisherEnabled, SweepEnabled;
    if a.Publisher? {
      PublisherBeyond(c, s, p, m, a.publishing, d, n);
    } else {
      SweepBeyond(c, s, p, m, a.sweeping, d, n);
    }
  }

  /** What stranded recovery is for, in the full interleaving: one publisher and one
      maintenance loop at rest bring an attempt back to a worker if and only if it is
      backed already, or its delivery is PENDING and one of the attempt's rows has a
      missing or failed job. */
  lemma RescueExactly(c: Config, s: State, d: Id, n: nat)
    requires Structured(s)
    ensures CanBeRescued(c, s, d, n) <==> Backed(s, d, n) || AnyFindable(s, d, n)
  {
    hide Structured, Backed, IsFindable, Path;
    if Backed(s, d, n) {
      BackedNow(c, s, d, n);
    } else if t :| IsFindable(s, d, n, t) {
      FindableIsRescued(c, s, d, n, t);
    } else if CanBeRescued(c, s, d, n) {
      var p, m, states, actions :| IsRescue(c, s, p, m, states, actions) && Backed(Last(states), d, n);
      PartsBeyond(s, p, m, d, n);
      PathBeyond(c, s, p, m, states, actions, d, n, |states| - 1);
      BeyondParts(Last(states), p, m, d, n);
    }
  }

  // ---------------------------------------------------------------- nobody is beyond rescue

  /** No queue job has the id that older versions used for a row. */
  lemma NoLegacy(s: State, t: Id)
    requires QueueOk(s) && PlainIds(s) && t in s.h.issued
    ensures LegacyJobId(t) !in s.queue
  {
    if LegacyJobId(t) in s.queue {
      var job := s.queue[LegacyJobId(t)].job;
      assert JobOk(s, job);
      LegacyIdIsDistinct(job.outbox, t, job.counter);
    }
  }

  /** What the weaker form of Q leaves for recovery is findable. */
  lemma RecoverableIsFindable(s: State, d: Id, n: nat, t: Id)
    requires Structured(s) && PlainIds(s) && Recoverable(s, d, n, t)
    ensures IsFindable(s, d, n, t)
  {
    NoLegacy(s, t);
    hide JobId, LegacyJobId, PlainIds;
  }

  /** No delivery is beyond rescue: under X, Y and the weaker form of Q, a delivery
      waiting for its next attempt reaches a worker by itself, or after one publisher and
      one maintenance loop have run. */
  lemma NobodyIsBeyondRescue(c: Config, states: seq<State>, actions: seq<Action>, i: nat, d: Id)
    requires c.Valid() && LosslessRun(c, states, actions, false) && i < |states| && PlainIds(states[i])
    requires d in states[i].db.deliveries && states[i].db.deliveries[d].status.Claimable()
    ensures CanBeRescued(c, states[i], d, states[i].db.deliveries[d].attempts + 1)
  {
    var s, n := states[i], states[i].db.deliveries[d].attempts + 1;
    hide *;
    NoDeliveryIsLost(c, states, actions, false, i, d);
    RunSafe(c, states, actions, false, i);
    SafeIsStructured(c, s, false);
    RescueExactly(c, s, d, n);
    if !Backed(s, d, n) {
      SomeRecoverable(s, d, n);
    }
  }

  lemma SafeIsStructured(c: Config, s: State, strict: bool)
    requires Safe(c, s, strict)
    ensures Structured(s)
  {
  }

  lemma SomeRecoverable(s: State, d: Id, n: nat)
    requires Structured(s) && PlainIds(s) && IsRecoverable(s, d, n)
    ensures AnyFindable(s, d, n)
  {
    var t :| Recoverable(s, d, n, t);
    RecoverableIsFindable(s, d, n, t);
  }
}
