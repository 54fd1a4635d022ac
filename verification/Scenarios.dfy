/** Concrete runs of one delivery that break a guarantee when one assumption is
    dropped and the other two are kept. */
module Scenarios {
  import opened Domain
  import opened Transactions
  import opened JobIds
  import opened Protocol
  import opened Losses
  import Lossless
  import opened Paths
  import Rescue
  import Spent
  import EventStatusPolicy
  import Retry

  const C: Config := Config(5, 1000, 300000, 2.0, 900000, 0)
  const JOB: Job := Job("t", 0, "d", 1)
  const KEY: string := JobId("t", 0)

  function Rows(event: EventStatus, row: Delivery, outbox: map<Id, Ticket>): Tables {
    Tables(map["ev" := Event("tenant", "key", "type", event, 0)], map["d" := row], outbox)
  }

  const START: State := State(0, Tables(map[], map[], map[]), map["e" := true], map[], map[], map[], map[], map[],
    History(map[], {}, map[], {}))
  const OPEN: Ticket := Ticket("d", 1, 0, None, 0, 0)
  const SENT: Ticket := OPEN.(publishedAt := Some(0))
  const NEW_ROW: Delivery := Delivery("ev", "e", PENDING, 0, None, None)
  const BUSY_ROW: Delivery := Delivery("ev", "e", PROCESSING, 1, Some(0), None)
  const FIRST: History := History(map["t" := Order("d", 1, 0)], {}, map["d" := Record(0, [], [], map[], "t")], {"ev"})

  const INGESTED: State := START.(db := Rows(EVENT_PENDING, NEW_ROW, map["t" := OPEN]), h := FIRST)
  const FETCHED: State := INGESTED.(publishers := map[0 := Batch([JOB], false)])
  const ADDED: State := FETCHED.(publishers := map[0 := Batch([JOB], true)],
    queue := map[KEY := QueueEntry(JOB, WAITING)],
                                 h := FIRST.(added := {("t", 0)}))
  const PUBLISHED: State := ADDED.(publishers := map[], db := Rows(EVENT_PENDING, NEW_ROW, map["t" := SENT]))
  const TAKEN: State := PUBLISHED.(workers := map[0 := Checked(JOB, true)])
  const CLAIMED: State := TAKEN.(db := Rows(EVENT_PROCESSING, BUSY_ROW, map["t" := SENT]),
                                 workers := map[0 := Sending(JOB, 1, 0)],
                                 h := ADDED.h.(records := map["d" := Record(0, [Send(0, 1, 0, 0)], [], map[], "t")]))

  const CRASHED: State := CLAIMED.(workers := map[])
  const RETAKEN: State := CLAIMED.(workers := map[1 := Checked(JOB, true)])
  const PUT_BACK: Delivery := BUSY_ROW.(status := PENDING, nextAttemptAt := Some(5))
  const REJECTED: State := RETAKEN.(
    db := Rows(EVENT_PROCESSING, PUT_BACK, map["t" := SENT, "u" := Ticket("d", 1, 5, None, 0, 0)]),
    workers := map[1 := Leaving(JOB)],
    h := CLAIMED.h.(issued := map["t" := Order("d", 1, 0), "u" := Order("d", 1, 5)],
                    records := map["d" := Record(0, [Send(0, 1, 0, 0)], [], map[], "u")]))

  // a retry, published and lost
  const FAILED_ROW: Delivery := BUSY_ROW.(status := FAILED, nextAttemptAt := Some(1000))
  const RETRY: Ticket := Ticket("d", 2, 1000, None, 0, 0)
  const RETRY_JOB: Job := Job("u", 0, "d", 2)
  const RETRY_KEY: string := JobId("u", 0)
  const BOTH_ISSUED: map<Id, Order> := map["t" := Order("d", 1, 0), "u" := Order("d", 2, 1000)]
  const RETRY_HISTORY: History := CLAIMED.h.(issued := BOTH_ISSUED,
                                             records := map["d" := Record(0, [Send(0, 1, 0, 0)], [], map[2 := 1000],
                                               "u")])
  const REFUSED: State := CLAIMED.(
    db := Rows(EVENT_PROCESSING, FAILED_ROW, map["t" := SENT, "u" := RETRY]),
    workers := map[0 := Leaving(JOB)],
    h := RETRY_HISTORY)
  const WAITED: State := REFUSED.(now := 1000)
  const REFETCHED: State := WAITED.(publishers := map[0 := Batch([RETRY_JOB], false)])
  const READDED: State := REFETCHED.(
    publishers := map[0 := Batch([RETRY_JOB], true)],
    queue := map[KEY := QueueEntry(JOB, WAITING), RETRY_KEY := QueueEntry(RETRY_JOB, WAITING)],
    h := RETRY_HISTORY.(added := {("t", 0), ("u", 0)}))
  const REPUBLISHED: State := READDED.(
    publishers := map[],
    db := Rows(EVENT_PROCESSING, FAILED_ROW, map["t" := SENT, "u" := RETRY.(publishedAt := Some(1000))]))
  const LOST: State := REPUBLISHED.(
    queue := map[KEY := QueueEntry(JOB, WAITING), RETRY_KEY := QueueEntry(RETRY_JOB, FAILED_JOB)])

  // two workers, one of which saw the endpoint switched off
  const OFF: State := TAKEN.(active := map["e" := false])
  const DOUBLED: State := OFF.(workers := map[0 := Checked(JOB, true), 1 := Checked(JOB, false)])
  const CALLED_OFF: State := DOUBLED.(
    db := Rows(EVENT_FAILED, NEW_ROW.(status := CANCELLED), map["t" := SENT]),
    workers := map[0 := Checked(JOB, true), 1 := Leaving(JOB)])
  const REVIVED: State := CALLED_OFF.(
    db := Rows(EVENT_FAILED, NEW_ROW.(nextAttemptAt := Some(5)),
      map["t" := SENT, "u" := Ticket("d", 1, 5, None, 0, 0)]),
    workers := map[0 := Leaving(JOB), 1 := Leaving(JOB)],
    h := ADDED.h.(issued := map["t" := Order("d", 1, 0), "u" := Order("d", 1, 5)],
      records := map["d" := Record(0, [], [], map[], "u")]))

  // a stale delivery at its last attempt
  const ONE_ATTEMPT: Config := C.(maxAttempts := 1)
  const STALE: State := CRASHED.(now := 900001)
  const SCANNED: State := STALE.(sweeps := map[0 := Stale(1, [("d", 1)])])
  const BEYOND: State := SCANNED.(
    sweeps := map[0 := Stale(1, [])],
    db := Rows(EVENT_PROCESSING, BUSY_ROW.(status := FAILED, nextAttemptAt := Some(900001)),
               map["t" := SENT, "u" := Ticket("d", 2, 900001, None, 0, 900001)]),
    h := CLAIMED.h.(issued := map["t" := Order("d", 1, 0), "u" := Order("d", 2, 900001)],
                    records := map["d" := Record(0, [Send(0, 1, 0, 0)], [1], map[], "u")]))

  // a dropped job whose row the clean-up deletes
  const DROPPED: State := PUBLISHED.(queue := map[])
  const WEEK: nat := 604_800_001 // a millisecond over seven days
  const WEEK_LATER: State := DROPPED.(now := WEEK)
  const CLEANED: State := WEEK_LATER.(db := Rows(EVENT_PENDING, NEW_ROW, map[]))

  const INGEST: Action := Ingest("ev", "tenant", "key", "type", map["d" := "e"], map["d" := "t"], map["t" := "d"])

  // ---------------------------------------------------------------- the common steps

  lemma FirstSteps(c: Config)
    ensures Init(START)
    ensures Enabled(c, START, INGEST) && Next(c, START, INGEST) == INGESTED
  {
    IngestAllowed();
    IngestResult();
    hide DoIngest, CanIngest;
  }

  lemma IngestAllowed()
    ensures CanIngest(START, "ev", "tenant", "key", map["d" := "e"], map["d" := "t"], map["t" := "d"])
  {
  }

  lemma OneDelivery()
    ensures NewDeliveries("ev", map["d" := "e"]) == map["d" := NEW_ROW]
    ensures map["d" := "e"] != map[]
  {
    assert "d" in map["d" := "e"];
  }

  lemma OneTicket()
    ensures FirstTickets(map["t" := "d"], 0) == map["t" := OPEN]
  {
  }

  lemma OneOrder()
    ensures FirstOrders(map["t" := "d"], 0) == map["t" := Order("d", 1, 0)]
  {
  }

  lemma OneRecord()
    ensures FirstRecords(map["d" := "t"]) == map["d" := Record(0, [], [], map[], "t")]
  {
  }

  lemma IngestResult()
    requires CanIngest(START, "ev", "tenant", "key", map["d" := "e"], map["d" := "t"], map["t" := "d"])
    ensures DoIngest(START, "ev", "tenant", "key", "type", map["d" := "e"], map["d" := "t"], map["t" := "d"])
      == INGESTED
  {
    hide CanIngest, NewDeliveries, FirstTickets, FirstOrders, FirstRecords;
    OneDelivery();
    OneTicket();
    OneOrder();
    OneRecord();
  }

  lemma OnlyDue(outbox: map<Id, Ticket>, now: int, t: Id)
    requires forall x :: Due(outbox, now, x) <==> x == t
    ensures OldestDue(outbox, now, [t])
  {
    assert Due(outbox, now, t);
  }

  lemma FetchStep(c: Config)
    ensures Enabled(c, INGESTED, Publisher(0, Fetch(["t"]))) && Next(c, INGESTED, Publisher(0, Fetch(["t"]))) == FETCHED
  {
    assert Copies(INGESTED.db.outbox, ["t"]) == [JOB];
    OnlyDue(INGESTED.db.outbox, 0, "t");
    hide Enabled, Next, Copies, OldestDue;
    PublisherIs(c, INGESTED, 0, Fetch(["t"]));
  }

  lemma AddStep(c: Config)
    ensures Enabled(c, FETCHED, Publisher(0, AddJob)) && Next(c, FETCHED, Publisher(0, AddJob)) == ADDED
  {
  }

  lemma MarkStep(c: Config)
    ensures Enabled(c, ADDED, Publisher(0, MarkRow)) && Next(c, ADDED, Publisher(0, MarkRow)) == PUBLISHED
  {
    assert DoMarkRow(ADDED, 0) == PUBLISHED;
    hide Enabled, Next, DoMarkRow;
    PublisherIs(c, ADDED, 0, MarkRow);
  }

  lemma TakeStep(c: Config)
    ensures Enabled(c, PUBLISHED, Work(0, Take(KEY))) && Next(c, PUBLISHED, Work(0, Take(KEY))) == TAKEN
  {
    assert WorkerEnabled(PUBLISHED, 0, Take(KEY)) && DoTake(PUBLISHED, 0, KEY) == TAKEN;
    hide Enabled, Next, DoTake;
    WorkIs(c, PUBLISHED, 0, Take(KEY));
  }

  lemma ClaimStep(c: Config)
    ensures Enabled(c, TAKEN, Work(0, Claim)) && Next(c, TAKEN, Work(0, Claim)) == CLAIMED
  {
    ClaimResult();
    hide Enabled, Next, DoClaim;
    WorkIs(c, TAKEN, 0, Claim);
  }

  lemma ClaimResult()
    ensures DoClaim(TAKEN, 0) == CLAIMED
  {
    var s := DoClaim(TAKEN, 0);
    assert TAKEN.db.deliveries["d"] == NEW_ROW && RecordOf(TAKEN.h, "d") == Record(0, [], [], map[], "t");
    assert s.db == CLAIMED.db by {
      assert s.db.deliveries == map["d" := BUSY_ROW];
      assert s.db.events == CLAIMED.db.events;
    }
    assert [] + [Send(0, 1, 0, 0)] == [Send(0, 1, 0, 0)];
    assert s.h.records == CLAIMED.h.records;
    assert s.workers == CLAIMED.workers;
  }

  /** The worker crashes, its job is handed out again while the row is still
      PROCESSING, and the rate limiter turns the job away. */
  lemma CrashStep(c: Config)
    ensures Enabled(c, CLAIMED, Work(0, Crash)) && Next(c, CLAIMED, Work(0, Crash)) == CRASHED
  {
  }

  lemma RetakeStep(c: Config)
    ensures Enabled(c, CRASHED, Work(1, Take(KEY))) && Next(c, CRASHED, Work(1, Take(KEY))) == RETAKEN
  {
  }

  lemma StaleRejectStep(c: Config)
    ensures Enabled(c, RETAKEN, Work(1, Reject(5, "u"))) && Next(c, RETAKEN, Work(1, Reject(5, "u"))) == REJECTED
  {
    RejectResult();
    hide Enabled, Next, DoReject;
    WorkIs(c, RETAKEN, 1, Reject(5, "u"));
  }

  lemma RejectResult()
    ensures DoReject(RETAKEN, 1, 5, "u") == REJECTED
  {
    var s := DoReject(RETAKEN, 1, 5, "u");
    assert s.db == REJECTED.db;
    assert s.h.records == REJECTED.h.records && s.h.issued == REJECTED.h.issued;
    assert s.workers == REJECTED.workers;
  }

  // ---------------------------------------------------------------- a lost retry

  lemma RefuseStep()
    ensures var a := Work(0, Respond(Retry.Refused(500, None), 0.5, "u"));
      Enabled(C, CLAIMED, a) && Next(C, CLAIMED, a) == REFUSED
  {
    RefuseResult();
    hide Enabled, Next, DoRespond;
    WorkIs(C, CLAIMED, 0, Respond(Retry.Refused(500, None), 0.5, "u"));
  }

  lemma DecideRetry()
    ensures Retry.Decide(C, 1, Retry.Refused(500, None), 0, 0.5) == Retry.RetryAt(1000)
  {
    assert Retry.Power(2.0, 0) == 1.0;
  }

  lemma RefuseResult()
    ensures DoRespond(C, CLAIMED, 0, Retry.Refused(500, None), 0.5, "u") == REFUSED
  {
    DecideRetry();
    SettleResult();
    hide Retry.Decide, Settle;
    assert CLAIMED.workers[0] == Sending(JOB, 1, 0);
    assert CLAIMED.workers[0 := Leaving(JOB)] == map[0 := Leaving(JOB)];
  }

  lemma SettleResult()
    ensures Settle(CLAIMED.(workers := map[0 := Leaving(JOB)]), "d", 1, Retry.RetryAt(1000), "u") == REFUSED
  {
    RetryRows();
    RetryRecorded();
    hide MarkFailedAndSchedule, Issue, Update, RecordOf;
    assert "d" in CLAIMED.db.deliveries;
  }

  lemma RetryRows()
    ensures MarkFailedAndSchedule(CLAIMED.db, "d", 1000, 2, "u", 0) == REFUSED.db
  {
  }

  lemma RetryRecorded()
    ensures var r := RecordOf(CLAIMED.h, "d");
      Issue(Update(CLAIMED.h, "d", r.(notBefore := r.notBefore[2 := 1000])), "u", "d", 2, 1000) == REFUSED.h
  {
    var r := RecordOf(CLAIMED.h, "d");
    assert r == Record(0, [Send(0, 1, 0, 0)], [], map[], "t");
    var h := Issue(Update(CLAIMED.h, "d", r.(notBefore := r.notBefore[2 := 1000])), "u", "d", 2, 1000);
    assert h.records == REFUSED.h.records && h.issued == REFUSED.h.issued;
  }

  lemma WaitStep(c: Config)
    ensures Enabled(c, REFUSED, Tick(1000)) && Next(c, REFUSED, Tick(1000)) == WAITED
  {
  }

  lemma RefetchStep(c: Config)
    ensures Enabled(c, WAITED, Publisher(0, Fetch(["u"]))) && Next(c, WAITED, Publisher(0, Fetch(["u"]))) == REFETCHED
  {
    assert Copies(WAITED.db.outbox, ["u"]) == [RETRY_JOB];
    OnlyDue(WAITED.db.outbox, 1000, "u");
    hide Enabled, Next, Copies, OldestDue;
    PublisherIs(c, WAITED, 0, Fetch(["u"]));
  }

  lemma KeysDiffer()
    ensures RETRY_KEY != KEY
  {
    if RETRY_KEY == KEY {
      JobIdInjective("u", 0, "t", 0);
    }
  }

  lemma ReaddStep(c: Config)
    ensures Enabled(c, REFETCHED, Publisher(0, AddJob)) && Next(c, REFETCHED, Publisher(0, AddJob)) == READDED
  {
    KeysDiffer();
    assert DoAddJob(REFETCHED, 0).queue == READDED.queue && DoAddJob(REFETCHED, 0).h.added == READDED.h.added;
    hide Enabled, Next, DoAddJob;
    PublisherIs(c, REFETCHED, 0, AddJob);
  }

  lemma RemarkStep(c: Config)
    ensures Enabled(c, READDED, Publisher(0, MarkRow)) && Next(c, READDED, Publisher(0, MarkRow)) == REPUBLISHED
  {
    assert DoMarkRow(READDED, 0).db.outbox == REPUBLISHED.db.outbox;
    assert DoMarkRow(READDED, 0) == REPUBLISHED;
    hide Enabled, Next, DoMarkRow;
    PublisherIs(c, READDED, 0, MarkRow);
  }

  lemma LoseStep(c: Config)
    ensures var a := Queue(RETRY_KEY, FinishJob(FAILED_JOB));
      Enabled(c, REPUBLISHED, a) && Next(c, REPUBLISHED, a) == LOST
  {
    LoseResult();
    hide DoFinishJob, JobId;
  }

  lemma LoseResult()
    ensures RETRY_KEY in REPUBLISHED.queue && REPUBLISHED.queue[RETRY_KEY] == QueueEntry(RETRY_JOB, WAITING)
    ensures DoFinishJob(REPUBLISHED, RETRY_KEY, FAILED_JOB) == LOST
  {
    KeysDiffer();
    hide JobId;
    assert DoFinishJob(REPUBLISHED, RETRY_KEY, FAILED_JOB).queue == LOST.queue;
  }

  // ---------------------------------------------------------------- a revived delivery

  lemma SwitchOffStep(c: Config)
    ensures var a := SetEndpoint("e", false); Enabled(c, TAKEN, a) && Next(c, TAKEN, a) == OFF
  {
  }

  lemma TakeAgainStep(c: Config)
    ensures Enabled(c, OFF, Work(1, Take(KEY))) && Next(c, OFF, Work(1, Take(KEY))) == DOUBLED
  {
  }

  lemma CancelStep(c: Config)
    ensures Enabled(c, DOUBLED, Work(1, Cancel)) && Next(c, DOUBLED, Work(1, Cancel)) == CALLED_OFF
  {
    CancelResult();
    hide Enabled, Next, DoCancel;
    WorkIs(c, DOUBLED, 1, Cancel);
  }

  lemma CancelResult()
    ensures DoCancel(DOUBLED, 1) == CALLED_OFF
  {
    var s := DoCancel(DOUBLED, 1);
    var rows := SetDelivery(DOUBLED.db, "d", NEW_ROW.(status := CANCELLED));
    assert rows.deliveries == map["d" := NEW_ROW.(status := CANCELLED)];
    assert DeliveryStatuses(rows, "ev") == {CANCELLED} by {
      assert rows.deliveries["d"].status in DeliveryStatuses(rows, "ev");
    }
    assert s.db == CALLED_OFF.db;
    assert s.workers == CALLED_OFF.workers;
  }

  lemma ReviveStep(c: Config)
    ensures Enabled(c, CALLED_OFF, Work(0, Reject(5, "u"))) && Next(c, CALLED_OFF, Work(0, Reject(5, "u"))) == REVIVED
  {
    ReviveResult();
    hide Enabled, Next, DoReject;
    WorkIs(c, CALLED_OFF, 0, Reject(5, "u"));
  }

  lemma ReviveResult()
    ensures DoReject(CALLED_OFF, 0, 5, "u") == REVIVED
  {
    ReviveRows();
    ReviveRecorded();
    hide MarkRateLimitedAndSchedule, Issue;
    assert "d" in CALLED_OFF.db.deliveries;
    assert CALLED_OFF.workers[0 := Leaving(JOB)] == REVIVED.workers;
  }

  lemma ReviveRows()
    ensures MarkRateLimitedAndSchedule(CALLED_OFF.db, "d", 5, 1, "u", 0) == REVIVED.db
  {
  }

  lemma ReviveRecorded()
    ensures Issue(CALLED_OFF.h, "u", "d", 1, 5) == REVIVED.h
  {
    var h := Issue(CALLED_OFF.h, "u", "d", 1, 5);
    assert h.records == REVIVED.h.records && h.issued == REVIVED.h.issued;
  }

  // ---------------------------------------------------------------- stories

  /** Which jobs the queue may lose: any, those whose delivery is rescued, or none. */
  datatype Loss = AnyLoss | OnlyRescued | NoLoss

  /** Which of the assumptions X, Y and Q are kept. */
  datatype Rules = Rules(x: bool, y: bool, q: Loss)

  /** A run in which every step keeps the assumptions asked for. */
  ghost predicate Story(c: Config, states: seq<State>, actions: seq<Action>, r: Rules) {
    Run(c, states, actions) && forall i :: 0 <= i < |actions| ==> Keeps(states[i], actions[i], r)
  }

  ghost predicate Keeps(s: State, a: Action, r: Rules) {
    && (r.x ==> OneWorker(s, a))
    && (r.y ==> NoStaleReject(s, a))
    && (r.q.NoLoss? ==> NoJobLoss(s, a))
    && (r.q.OnlyRescued? && a.Queue? ==> NoFatalLoss(s, a))
  }

  lemma Tell(c: Config, states: seq<State>, actions: seq<Action>, a: Action, next: State, r: Rules)
      returns (states': seq<State>, actions': seq<Action>)
    requires |states| > 0 && Story(c, states, actions, r)
    requires var s := states[|states| - 1]; Enabled(c, s, a) && Next(c, s, a) == next && Keeps(s, a, r)
    ensures states' == states + [next] && Story(c, states', actions', r)
  {
    hide Enabled, Next, Keeps, Init;
    states', actions' := states + [next], actions + [a];
  }

  lemma Begin(c: Config, r: Rules)
    ensures Story(c, [START], [], r)
  {
  }

  /** Ingest, publication and the first take keep every assumption. */
  lemma FirstKeep(r: Rules)
    ensures Keeps(START, INGEST, r)
    ensures Keeps(INGESTED, Publisher(0, Fetch(["t"])), r)
    ensures Keeps(FETCHED, Publisher(0, AddJob), r)
    ensures Keeps(ADDED, Publisher(0, MarkRow), r)
    ensures Keeps(PUBLISHED, Work(0, Take(KEY)), r)
    ensures Keeps(TAKEN, Work(0, Claim), r)
  {
    assert PUBLISHED.workers == map[];
  }

  lemma TillPublished(c: Config, r: Rules) returns (states: seq<State>, actions: seq<Action>)
    ensures |states| > 0 && states[|states| - 1] == PUBLISHED && Story(c, states, actions, r)
  {
    hide *;
    FirstSteps(c);
    FetchStep(c);
    AddStep(c);
    MarkStep(c);
    FirstKeep(r);
    Begin(c, r);
    states, actions := Tell(c, [START], [], INGEST, INGESTED, r);
    states, actions := Tell(c, states, actions, Publisher(0, Fetch(["t"])), FETCHED, r);
    states, actions := Tell(c, states, actions, Publisher(0, AddJob), ADDED, r);
    states, actions := Tell(c, states, actions, Publisher(0, MarkRow), PUBLISHED, r);
  }

  lemma TillTaken(c: Config, r: Rules) returns (states: seq<State>, actions: seq<Action>)
    ensures |states| > 0 && states[|states| - 1] == TAKEN && Story(c, states, actions, r)
  {
    hide *;
    states, actions := TillPublished(c, r);
    TakeStep(c);
    FirstKeep(r);
    states, actions := Tell(c, states, actions, Work(0, Take(KEY)), TAKEN, r);
  }

  lemma TillClaimed(c: Config, r: Rules) returns (states: seq<State>, actions: seq<Action>)
    ensures |states| > 0 && states[|states| - 1] == CLAIMED && Story(c, states, actions, r)
  {
    hide *;
    states, actions := TillTaken(c, r);
    ClaimStep(c);
    FirstKeep(r);
    states, actions := Tell(c, states, actions, Work(0, Claim), CLAIMED, r);
  }

  /** Without Y, and with X and Q, a delivery is lost: after a crash the limiter turns
      away the redelivered job of an attempt that was already claimed, and nothing
      orders the next attempt any more, now or ever. */
  lemma StaleRejectLoses(c: Config) returns (states: seq<State>, actions: seq<Action>)
    ensures |states| > 0 && Story(c, states, actions, Rules(true, false, NoLoss))
    ensures Unreachable(states[|states| - 1], "d")
  {
    RejectedIsUnreachable();
    RejectKeeps();
    hide *;
    states, actions := TillClaimed(c, Rules(true, false, NoLoss));
    CrashStep(c);
    RetakeStep(c);
    StaleRejectStep(c);
    states, actions := Tell(c, states, actions, Work(0, Crash), CRASHED, Rules(true, false, NoLoss));
    states, actions := Tell(c, states, actions, Work(1, Take(KEY)), RETAKEN, Rules(true, false, NoLoss));
    states, actions := Tell(c, states, actions, Work(1, Reject(5, "u")), REJECTED, Rules(true, false, NoLoss));
  }

  lemma RejectKeeps()
    ensures Keeps(CLAIMED, Work(0, Crash), Rules(true, false, NoLoss))
    ensures Keeps(CRASHED, Work(1, Take(KEY)), Rules(true, false, NoLoss))
    ensures Keeps(RETAKEN, Work(1, Reject(5, "u")), Rules(true, false, NoLoss))
  {
    assert CRASHED.workers == map[];
  }

  lemma RejectedIsUnreachable()
    ensures Unreachable(REJECTED, "d")
  {
    assert REJECTED.db.deliveries["d"] == PUT_BACK;
    assert !InOutbox(REJECTED, "d", 2);
    assert forall k :: !Lossless.IsJobFor(REJECTED, k, "d", 2);
  }

  lemma TillRepublished(r: Rules) returns (states: seq<State>, actions: seq<Action>)
    ensures |states| > 0 && states[|states| - 1] == REPUBLISHED && Story(C, states, actions, r)
  {
    RetryKeeps(r);
    hide *;
    states, actions := TillClaimed(C, r);
    RefuseStep();
    WaitStep(C);
    RefetchStep(C);
    ReaddStep(C);
    RemarkStep(C);
    states, actions := Tell(C, states, actions, Work(0, Respond(Retry.Refused(500, None), 0.5, "u")), REFUSED, r);
    states, actions := Tell(C, states, actions, Tick(1000), WAITED, r);
    states, actions := Tell(C, states, actions, Publisher(0, Fetch(["u"])), REFETCHED, r);
    states, actions := Tell(C, states, actions, Publisher(0, AddJob), READDED, r);
    states, actions := Tell(C, states, actions, Publisher(0, MarkRow), REPUBLISHED, r);
  }

  /** Without Q, and with X and Y, a delivery is lost: the job of a retry fails in the
      queue.  The delivery is FAILED, so neither recovery's query lists it, and its
      orders are spent for good. */
  lemma LostRetryStays() returns (states: seq<State>, actions: seq<Action>)
    ensures |states| > 0 && Story(C, states, actions, Rules(true, true, AnyLoss))
    ensures var s := states[|states| - 1];
      && "d" in s.db.deliveries && s.db.deliveries["d"].status == FAILED
      && !Lossless.Backed(s, "d", s.db.deliveries["d"].attempts + 1)
      && (forall cutoff :: !IsStale(s.db, "d", cutoff))
      && (forall t, n: nat :: !IsPublishedPending(s.db, t, n))
      && !Rescue.CanBeRescued(C, s, "d", s.db.deliveries["d"].attempts + 1)
      && Spent.IsSpent(s, "d")
  {
    LostIsNotBacked();
    LostIsSpent();
    LostIsNotListed();
    LossKeeps();
    hide *;
    states, actions := TillRepublished(Rules(true, true, AnyLoss));
    LoseStep(C);
    states, actions := Tell(C, states, actions, Queue(RETRY_KEY, FinishJob(FAILED_JOB)), LOST,
      Rules(true, true, AnyLoss));
    StoryIsRun(C, states, actions, Rules(true, true, AnyLoss));
    RunStructured(C, states, actions, |states| - 1);
    Rescue.RescueExactly(C, LOST, "d", 2);
    FailedIsNotFindable(LOST, "d", 2);
  }

  lemma StoryIsRun(c: Config, states: seq<State>, actions: seq<Action>, r: Rules)
    requires Story(c, states, actions, r)
    ensures Run(c, states, actions)
  {
    hide Run, Keeps;
  }

  lemma FailedIsNotFindable(s: State, d: Id, n: nat)
    requires d in s.db.deliveries && s.db.deliveries[d].status == FAILED
    ensures !Rescue.AnyFindable(s, d, n)
  {
    hide HasNoLiveJob;
  }

  lemma RetryKeeps(r: Rules)
    ensures Keeps(CLAIMED, Work(0, Respond(Retry.Refused(500, None), 0.5, "u")), r)
    ensures Keeps(REFUSED, Tick(1000), r)
    ensures Keeps(WAITED, Publisher(0, Fetch(["u"])), r)
    ensures Keeps(REFETCHED, Publisher(0, AddJob), r)
    ensures Keeps(READDED, Publisher(0, MarkRow), r)
  {
  }

  lemma LossKeeps()
    ensures Keeps(REPUBLISHED, Queue(RETRY_KEY, FinishJob(FAILED_JOB)), Rules(true, true, AnyLoss))
  {
  }

  lemma LostIsNotBacked()
    ensures "d" in LOST.db.deliveries && LOST.db.deliveries["d"].status == FAILED
      && LOST.db.deliveries["d"].attempts == 1
    ensures !Lossless.Backed(LOST, "d", 2)
  {
    NothingOpen();
    NothingWaits();
    hide Lossless.OpenOrder, Lossless.IsWaiting;
    assert LOST.db.deliveries == map["d" := FAILED_ROW];
  }

  lemma LostIsSpent()
    ensures Spent.IsSpent(LOST, "d")
  {
    hide *;
    LostIsFailed();
    LostRowsArePublished();
    NothingWaits();
    LostIsNotHeld();
    PartsSpent(LOST, "d", 2);
  }

  lemma PartsSpent(s: State, d: Id, n: nat)
    requires d in s.db.deliveries && s.db.deliveries[d].status == FAILED && s.db.deliveries[d].attempts + 1 == n
    requires forall t :: t in s.db.outbox ==> s.db.outbox[t].publishedAt.Some?
    requires forall k :: Lossless.IsWaiting(s, k) ==> !IsFor(s.queue[k].job, d, n)
    requires s.publishers == map[] && s.sweeps == map[] && forall w :: w in s.workers ==> s.workers[w].Leaving?
    ensures Spent.IsSpent(s, d)
  {
  }

  lemma LostIsFailed()
    ensures "d" in LOST.db.deliveries && LOST.db.deliveries["d"] == FAILED_ROW
    ensures FAILED_ROW.status == FAILED && FAILED_ROW.attempts == 1
  {
  }

  lemma LostRowsArePublished()
    ensures forall t :: t in LOST.db.outbox ==> LOST.db.outbox[t].publishedAt.Some?
  {
  }

  lemma LostIsNotHeld()
    ensures LOST.publishers == map[] && LOST.sweeps == map[] && forall w :: w in LOST.workers ==>
      LOST.workers[w].Leaving?
    ensures !IsFor(JOB, "d", 2)
  {
  }

  lemma NothingOpen()
    ensures forall t :: !Lossless.OpenOrder(LOST, "d", 2, t)
  {
    assert forall t :: t in LOST.db.outbox ==> LOST.db.outbox[t].publishedAt.Some?;
  }

  lemma NothingWaits()
    ensures forall k :: Lossless.IsWaiting(LOST, k) ==> LOST.queue[k].job == JOB
  {
    KeysDiffer();
    hide JobId;
  }

  lemma LostIsNotListed()
    ensures forall cutoff :: !IsStale(LOST.db, "d", cutoff)
    ensures forall t, n: nat :: !IsPublishedPending(LOST.db, t, n)
  {
    assert LOST.db.deliveries == map["d" := FAILED_ROW];
  }

  /** Without X, and with Y and Q, a cancelled delivery is revived under a FAILED
      event: two workers hold one job, one cancels it because the endpoint was
      switched off, and the limiter turns the other away afterwards. */
  lemma LateRejectRevives(c: Config) returns (states: seq<State>, actions: seq<Action>, k: nat)
    ensures |states| > 0 && Story(c, states, actions, Rules(false, true, NoLoss))
    ensures k < |states| && "d" in states[k].db.deliveries && states[k].db.deliveries["d"].status == CANCELLED
    ensures var s := states[|states| - 1];
      && "d" in s.db.deliveries && s.db.deliveries["d"].status == PENDING && s.db.deliveries["d"].event == "ev"
      && "ev" in s.db.events && s.db.events["ev"].status == EVENT_FAILED
      && EventStatusPolicy.StatusOf(DeliveryStatuses(s.db, "ev")) == EVENT_PROCESSING
  {
    RevivedFacts();
    ReviveKeeps();
    hide *;
    states, actions := TillTaken(c, Rules(false, true, NoLoss));
    SwitchOffStep(c);
    TakeAgainStep(c);
    CancelStep(c);
    ReviveStep(c);
    states, actions := Tell(c, states, actions, SetEndpoint("e", false), OFF, Rules(false, true, NoLoss));
    states, actions := Tell(c, states, actions, Work(1, Take(KEY)), DOUBLED, Rules(false, true, NoLoss));
    states, actions := Tell(c, states, actions, Work(1, Cancel), CALLED_OFF, Rules(false, true, NoLoss));
    k := |states| - 1;
    states, actions := Tell(c, states, actions, Work(0, Reject(5, "u")), REVIVED, Rules(false, true, NoLoss));
  }

  lemma ReviveKeeps()
    ensures Keeps(TAKEN, SetEndpoint("e", false), Rules(false, true, NoLoss))
    ensures Keeps(OFF, Work(1, Take(KEY)), Rules(false, true, NoLoss))
    ensures Keeps(DOUBLED, Work(1, Cancel), Rules(false, true, NoLoss))
    ensures Keeps(CALLED_OFF, Work(0, Reject(5, "u")), Rules(false, true, NoLoss))
  {
  }

  lemma RevivedFacts()
    ensures "d" in CALLED_OFF.db.deliveries && CALLED_OFF.db.deliveries["d"].status == CANCELLED
    ensures "d" in REVIVED.db.deliveries && REVIVED.db.deliveries["d"].status == PENDING
      && REVIVED.db.deliveries["d"].event == "ev"
    ensures "ev" in REVIVED.db.events && REVIVED.db.events["ev"].status == EVENT_FAILED
    ensures EventStatusPolicy.StatusOf(DeliveryStatuses(REVIVED.db, "ev")) == EVENT_PROCESSING
  {
    assert REVIVED.db.deliveries["d"].status in DeliveryStatuses(REVIVED.db, "ev");
  }

  // ---------------------------------------------------------------- beyond maxAttempts

  lemma StaleSteps(c: Config)
    requires c == ONE_ATTEMPT
    ensures Enabled(c, CRASHED, Tick(900001)) && Next(c, CRASHED, Tick(900001)) == STALE
    ensures var a := Maintain(0, ScanStale(1, [("d", 1)])); Enabled(c, STALE, a) && Next(c, STALE, a) == SCANNED
  {
    ScanResult(c);
    hide SweepEnabled, SweepNext;
    SweepIs(c, STALE, 0, ScanStale(1, [("d", 1)]));
  }

  lemma ScanResult(c: Config)
    requires c == ONE_ATTEMPT
    ensures var step := ScanStale(1, [("d", 1)]);
      SweepEnabled(c, STALE, 0, step) && SweepNext(c, STALE, 0, step) == SCANNED
  {
    assert STALE.db.deliveries["d"] == BUSY_ROW;
    assert IsStale(STALE.db, "d", 1);
    assert STALE.db.deliveries.Keys == {"d"};
    assert [("d", 1)][0].0 == "d" && IsFound([("d", 1)], "d");
    assert forall e :: IsStale(STALE.db, e, 1) ==> e == "d";
    hide IsStale, IsFound;
  }

  lemma BeyondStep(c: Config)
    ensures var a := Maintain(0, RecoverOne("u")); Enabled(c, SCANNED, a) && Next(c, SCANNED, a) == BEYOND
  {
    BeyondRows();
    BeyondRecorded();
    BeyondResult(c);
    hide SweepEnabled, SweepNext;
    SweepIs(c, SCANNED, 0, RecoverOne("u"));
  }

  lemma BeyondRows()
    ensures IsStale(SCANNED.db, "d", 1) && RecoverStale(SCANNED.db, "d", 1, 1, "u", 900001) == BEYOND.db
  {
  }

  lemma BeyondRecorded()
    ensures var r := RecordOf(SCANNED.h, "d");
      Issue(Update(SCANNED.h, "d", r.(recoveries := r.recoveries + [|r.sends|])), "u", "d", 2, 900001) == BEYOND.h
  {
    var r := RecordOf(SCANNED.h, "d");
    assert r == Record(0, [Send(0, 1, 0, 0)], [], map[], "t") && [] + [1] == [1];
    var h := Issue(Update(SCANNED.h, "d", r.(recoveries := r.recoveries + [|r.sends|])), "u", "d", 2, 900001);
    assert h.records == BEYOND.h.records && h.issued == BEYOND.h.issued;
  }

  lemma BeyondResult(c: Config)
    requires IsStale(SCANNED.db, "d", 1) && RecoverStale(SCANNED.db, "d", 1, 1, "u", 900001) == BEYOND.db
    requires var r := RecordOf(SCANNED.h, "d");
      Issue(Update(SCANNED.h, "d", r.(recoveries := r.recoveries + [|r.sends|])), "u", "d", 2, 900001) == BEYOND.h
    ensures var step := RecoverOne("u"); SweepEnabled(c, SCANNED, 0, step) && SweepNext(c, SCANNED, 0, step) == BEYOND
  {
    hide IsStale, RecoverStale, Issue, Update, RecordOf;
    assert SCANNED.sweeps[0].found[1..] == [];
    assert DoRecoverOne(SCANNED, 0, "u").sweeps == BEYOND.sweeps;
  }

  /** Stale recovery can take a delivery beyond maxAttempts, keeping X, Y and Q: with
      one attempt allowed, its worker crashes, and attempt 2 is ordered. */
  lemma RecoveryGoesBeyond() returns (states: seq<State>, actions: seq<Action>)
    ensures |states| > 0 && Story(ONE_ATTEMPT, states, actions, Rules(true, true, NoLoss))
    ensures var s := states[|states| - 1];
      ONE_ATTEMPT.maxAttempts == 1 && "u" in s.db.outbox && s.db.outbox["u"].delivery == "d"
        && s.db.outbox["u"].attemptNumber == 2
  {
    hide *;
    var c, r := ONE_ATTEMPT, Rules(true, true, NoLoss);
    BeyondOrder();
    BeyondKeeps();
    states, actions := TillClaimed(c, r);
    CrashStep(c);
    StaleSteps(c);
    BeyondStep(c);
    states, actions := Tell(c, states, actions, Work(0, Crash), CRASHED, r);
    states, actions := Tell(c, states, actions, Tick(900001), STALE, r);
    states, actions := Tell(c, states, actions, Maintain(0, ScanStale(1, [("d", 1)])), SCANNED, r);
    states, actions := Tell(c, states, actions, Maintain(0, RecoverOne("u")), BEYOND, r);
  }

  lemma BeyondOrder()
    ensures ONE_ATTEMPT.maxAttempts == 1
    ensures "u" in BEYOND.db.outbox && BEYOND.db.outbox["u"].delivery == "d" && BEYOND.db.outbox["u"].attemptNumber == 2
  {
    assert BEYOND.db.outbox["u"] == Ticket("d", 2, 900001, None, 0, 900001);
  }

  lemma BeyondKeeps()
    ensures var r := Rules(true, true, NoLoss);
      && Keeps(CLAIMED, Work(0, Crash), r)
      && Keeps(CRASHED, Tick(900001), r)
      && Keeps(STALE, Maintain(0, ScanStale(1, [("d", 1)])), r)
      && Keeps(SCANNED, Maintain(0, RecoverOne("u")), r)
  {
    assert SCANNED.workers == map[];
  }

  // ---------------------------------------------------------------- the clean-up

  lemma DropStep(c: Config)
    ensures Enabled(c, PUBLISHED, Queue(KEY, DropJob)) && Next(c, PUBLISHED, Queue(KEY, DropJob)) == DROPPED
  {
    assert PUBLISHED.queue == map[KEY := QueueEntry(JOB, WAITING)];
    assert PUBLISHED.queue - {KEY} == map[];
    hide JobId;
    QueueIs(c, PUBLISHED, KEY, DropJob);
  }

  lemma CleanSteps(c: Config)
    ensures Enabled(c, DROPPED, Tick(WEEK)) && Next(c, DROPPED, Tick(WEEK)) == WEEK_LATER
    ensures Enabled(c, WEEK_LATER, CleanOutbox) && Next(c, WEEK_LATER, CleanOutbox) == CLEANED
  {
    assert CleanupPublished(WEEK_LATER.db, WEEK_LATER.now).outbox == map[];
  }

  lemma CleanKeeps()
    ensures var r := Rules(true, true, OnlyRescued);
      && Keeps(PUBLISHED, Queue(KEY, DropJob), r)
      && Keeps(DROPPED, Tick(WEEK), r)
      && Keeps(WEEK_LATER, CleanOutbox, r)
  {
    assert PUBLISHED.db.deliveries == map["d" := NEW_ROW];
    assert PUBLISHED.queue[KEY].job == JOB;
    assert LeavesDead(PUBLISHED, KEY, DropJob, "t");
    hide JobId;
  }

  lemma CleanedIsUnreachable()
    ensures Unreachable(CLEANED, "d")
  {
    assert CLEANED.db.deliveries["d"] == NEW_ROW;
  }

  /** The clean-up needs its part of Q: a run that keeps X and Y loses a job that
      stranded recovery would have brought back, but a week later the clean-up, which
      every round of maintenance runs first, deletes the row, and nothing orders the
      delivery any more. */
  lemma CleanupLosesStranded(c: Config) returns (states: seq<State>, actions: seq<Action>)
    ensures |states| > 0 && Story(c, states, actions, Rules(true, true, OnlyRescued))
    ensures Unreachable(states[|states| - 1], "d")
  {
    var r := Rules(true, true, OnlyRescued);
    CleanKeeps();
    CleanedIsUnreachable();
    hide *;
    states, actions := TillPublished(c, r);
    DropStep(c);
    CleanSteps(c);
    states, actions := Tell(c, states, actions, Queue(KEY, DropJob), DROPPED, r);
    states, actions := Tell(c, states, actions, Tick(WEEK), WEEK_LATER, r);
    states, actions := Tell(c, states, actions, CleanOutbox, CLEANED, r);
  }
}
