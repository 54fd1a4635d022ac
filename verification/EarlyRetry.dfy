/** A run in which a retry comes before its time: after a replay, the order for attempt 2
    of the first epoch is still in the queue when attempt 1 of the second one fails. */
module EarlyRetry {
  import opened Domain
  import opened Transactions
  import opened Protocol
  import opened Paths
  import opened Scenarios
  import Retry

  /** The states of the run: what the replay and the workers change after the first
      epoch's retry has been published, all at time 1000. */
  function At(row: Delivery, outbox: map<Id, Ticket>, workers: map<nat, Worker>, issued: map<Id, Order>,
      r: Record): State {
    REPUBLISHED.(
      db := Tables(map["ev" := Event("tenant", "key", "type", EVENT_PROCESSING, 1000)], map["d" := row], outbox),
      workers := workers,
      h := REPUBLISHED.h.(issued := issued, records := map["d" := r]))
  }

  const RESET_ROW: Delivery := Delivery("ev", "e", PENDING, 0, None, Some(1000))
  const CLAIMED_ROW: Delivery := Delivery("ev", "e", PROCESSING, 1, Some(1000), None)
  const REFUSED_ROW: Delivery := CLAIMED_ROW.(status := FAILED, nextAttemptAt := Some(2000))
  const EARLY_ROW: Delivery := Delivery("ev", "e", PROCESSING, 2, Some(1000), None)

  const AGAIN: map<Id, Ticket> := REPUBLISHED.db.outbox["v" := NewTicket("d", 1, 1000, 1000)]
  const THRICE: map<Id, Ticket> := AGAIN["w" := NewTicket("d", 2, 2000, 1000)]
  const AGAIN_ISSUED: map<Id, Order> := BOTH_ISSUED["v" := Order("d", 1, 1000)]
  const THRICE_ISSUED: map<Id, Order> := AGAIN_ISSUED["w" := Order("d", 2, 2000)]

  const FIRST_EPOCH: Record := Record(0, [Send(0, 1, 0, 0)], [], map[2 := 1000], "u")
  const SECOND_EPOCH: Record := FIRST_EPOCH.(epoch := 1, current := "v")
  const SENT_AGAIN: Record := SECOND_EPOCH.(sends := SECOND_EPOCH.sends + [Send(1, 1, 1, 1000)])
  const WAITS: Record := SENT_AGAIN.(notBefore := SENT_AGAIN.notBefore[2 := 2000], current := "w")
  const SENT_EARLY: Record := WAITS.(sends := WAITS.sends + [Send(1, 2, 2, 1000)])

  const TAKES: map<nat, Worker> := REPUBLISHED.workers[1 := Checked(JOB, true)]
  const SENDS: map<nat, Worker> := TAKES[1 := Sending(JOB, 1, 1)]
  const LEAVES: map<nat, Worker> := SENDS[1 := Leaving(JOB)]
  const TAKES_EARLY: map<nat, Worker> := LEAVES[2 := Checked(RETRY_JOB, true)]
  const SENDS_EARLY: map<nat, Worker> := TAKES_EARLY[2 := Sending(RETRY_JOB, 2, 2)]

  const ASKED: State := REPUBLISHED.(replays := map[0 := "d"])
  const RESET: State := At(RESET_ROW, AGAIN, REPUBLISHED.workers, AGAIN_ISSUED, SECOND_EPOCH)
  const TAKEN_AGAIN: State := At(RESET_ROW, AGAIN, TAKES, AGAIN_ISSUED, SECOND_EPOCH)
  const CLAIMED_AGAIN: State := At(CLAIMED_ROW, AGAIN, SENDS, AGAIN_ISSUED, SENT_AGAIN)
  const REFUSED_AGAIN: State := At(REFUSED_ROW, THRICE, LEAVES, THRICE_ISSUED, WAITS)
  const TAKEN_EARLY: State := At(REFUSED_ROW, THRICE, TAKES_EARLY, THRICE_ISSUED, WAITS)
  const CLAIMED_EARLY: State := At(EARLY_ROW, THRICE, SENDS_EARLY, THRICE_ISSUED, SENT_EARLY)

  // ---------------------------------------------------------------- steps

  lemma Base()
    ensures REPUBLISHED.now == 1000 && REPUBLISHED.active == map["e" := true] && REPUBLISHED.replays == map[]
    ensures REPUBLISHED.db.deliveries == map["d" := FAILED_ROW] && REPUBLISHED.workers == map[0 := Leaving(JOB)]
    ensures REPUBLISHED.db.events == map["ev" := Event("tenant", "key", "type", EVENT_PROCESSING, 0)]
    ensures REPUBLISHED.db.outbox.Keys == {"t", "u"} && REPUBLISHED.h.issued == BOTH_ISSUED
    ensures REPUBLISHED.h.records == map["d" := FIRST_EPOCH]
  {
  }

  lemma Waiting()
    ensures KEY in REPUBLISHED.queue && REPUBLISHED.queue[KEY] == QueueEntry(JOB, WAITING)
    ensures RETRY_KEY in REPUBLISHED.queue && REPUBLISHED.queue[RETRY_KEY] == QueueEntry(RETRY_JOB, WAITING)
  {
    KeysDiffer();
  }

  lemma AtFields(row: Delivery, outbox: map<Id, Ticket>, workers: map<nat, Worker>, issued: map<Id, Order>, r: Record)
    ensures var s := At(row, outbox, workers, issued, r);
      && s.queue == REPUBLISHED.queue && s.active == REPUBLISHED.active && s.workers == workers
      && s.db.deliveries == map["d" := row] && s.db.outbox == outbox && s.now == REPUBLISHED.now
      && s.db.events == map["ev" := Event("tenant", "key", "type", EVENT_PROCESSING, 1000)]
      && s.h.issued == issued && s.h.records == map["d" := r]
  {
    hide REPUBLISHED;
  }

  lemma AtAgain(row: Delivery, outbox: map<Id, Ticket>, workers: map<nat, Worker>, issued: map<Id, Order>, r: Record,
      row': Delivery, outbox': map<Id, Ticket>, workers': map<nat, Worker>, issued': map<Id, Order>, r': Record)
    ensures var s := At(row, outbox, workers, issued, r);
      s.(db := Tables(s.db.events, map["d" := row'], outbox'), workers := workers',
         h := s.h.(issued := issued', records := map["d" := r'])) == At(row', outbox', workers', issued', r')
  {
    hide REPUBLISHED;
  }

  lemma TakeIs(c: Config, s: State, w: nat, key: string, job: Job, row: Delivery)
    requires w !in s.workers && key in s.queue && s.queue[key] == QueueEntry(job, WAITING)
      && s.active == map["e" := true]
    requires job.delivery == "d" && s.db.deliveries == map["d" := row] && !row.status.Terminal() && row.endpoint == "e"
    ensures var a := Work(w, Take(key));
      Enabled(c, s, a) && Next(c, s, a) == s.(workers := s.workers[w := Checked(job, true)])
  {
  }

  lemma TakeAt(c: Config, row: Delivery, outbox: map<Id, Ticket>, workers: map<nat, Worker>, issued: map<Id, Order>,
      r: Record, w: nat, key: string, job: Job)
    requires w !in workers && key in REPUBLISHED.queue && REPUBLISHED.queue[key] == QueueEntry(job, WAITING)
    requires REPUBLISHED.active == map["e" := true]
    requires job.delivery == "d" && !row.status.Terminal() && row.endpoint == "e"
    ensures var s, a := At(row, outbox, workers, issued, r), Work(w, Take(key));
      Enabled(c, s, a) && Next(c, s, a) == At(row, outbox, workers[w := Checked(job, true)], issued, r)
  {
    var s, next := At(row, outbox, workers, issued, r), workers[w := Checked(job, true)];
    AtFields(row, outbox, workers, issued, r);
    AtAgain(row, outbox, workers, issued, r, row, outbox, next, issued, r);
    TakeIs(c, s, w, key, job, row);
    hide *;
  }

  lemma OneRecord(h: History, r: Record)
    requires h.records == map["d" := r]
    ensures RecordOf(h, "d") == r
  {
  }

  lemma Recorded(h: History, r: Record, r': Record)
    requires h.records == map["d" := r]
    ensures Update(h, "d", r') == h.(issued := h.issued, records := map["d" := r'])
  {
    assert h.records["d" := r'] == map["d" := r'];
  }

  lemma Issued(h: History, r: Record, r': Record, t: Id, n: nat, at: int)
    requires h.records == map["d" := r]
    ensures Issue(Update(h, "d", r'), t, "d", n, at)
      == h.(issued := h.issued[t := Order("d", n, at)], records := map["d" := r'.(current := t)])
  {
    assert h.records["d" := r']["d" := r'.(current := t)] == map["d" := r'.(current := t)];
  }

  lemma ClaimedRows(db: Tables, row: Delivery, now: int)
    requires db.deliveries == map["d" := row] && row.event == "ev" && row.status.Claimable()
    requires db.events == map["ev" := Event("tenant", "key", "type", EVENT_PROCESSING, now)]
    ensures CanClaim(db, "d", row.attempts + 1)
    ensures ClaimForProcessing(db, "d", row.attempts + 1, now) == Tables(
      db.events,
      map["d" := row.(status := PROCESSING, attempts := row.attempts + 1, lastAttemptAt := Some(now),
        nextAttemptAt := None)],
      db.outbox)
  {
  }

  lemma ClaimIs(c: Config, s: State, w: nat, job: Job, row: Delivery, r: Record)
    requires w in s.workers && s.workers[w] == Checked(job, true) && job.delivery == "d"
    requires s.db.deliveries == map["d" := row] && row.event == "ev" && row.status.Claimable()
      && row.attempts + 1 == job.expected
    requires s.db.events == map["ev" := Event("tenant", "key", "type", EVENT_PROCESSING, s.now)]
    requires s.h.records == map["d" := r]
    ensures var a, n := Work(w, Claim), row.attempts + 1;
      var row' := row.(status := PROCESSING, attempts := n, lastAttemptAt := Some(s.now), nextAttemptAt := None);
      && Enabled(c, s, a)
      && Next(c, s, a) == s.(
           db := Tables(s.db.events, map["d" := row'], s.db.outbox),
           workers := s.workers[w := Sending(job, n, |r.sends|)],
           h := s.h.(issued := s.h.issued, records := map["d" := r.(sends := r.sends + [Send(r.epoch, n, w, s.now)])]))
  {
    ClaimedRows(s.db, row, s.now);
    OneRecord(s.h, r);
    Recorded(s.h, r, r.(sends := r.sends + [Send(r.epoch, row.attempts + 1, w, s.now)]));
    hide ClaimForProcessing, CanClaim, RecordOf, Update, Enabled, Next;
    WorkIs(c, s, w, Claim);
  }

  lemma ClaimAt(c: Config, row: Delivery, outbox: map<Id, Ticket>, workers: map<nat, Worker>, issued: map<Id, Order>,
      r: Record, w: nat, job: Job)
    requires REPUBLISHED.now == 1000
    requires w in workers && workers[w] == Checked(job, true) && job.delivery == "d"
    requires row.event == "ev" && row.status.Claimable() && row.attempts + 1 == job.expected
    ensures var s, a, n := At(row, outbox, workers, issued, r), Work(w, Claim), row.attempts + 1;
      && Enabled(c, s, a)
      && Next(c, s, a) == At(
           row.(status := PROCESSING, attempts := n, lastAttemptAt := Some(1000), nextAttemptAt := None), outbox,
           workers[w := Sending(job, n, |r.sends|)], issued, r.(sends := r.sends + [Send(r.epoch, n, w, 1000)]))
  {
    var s, n := At(row, outbox, workers, issued, r), row.attempts + 1;
    AtFields(row, outbox, workers, issued, r);
    AtAgain(row, outbox, workers, issued, r,
            row.(status := PROCESSING, attempts := n, lastAttemptAt := Some(1000), nextAttemptAt := None), outbox,
            workers[w := Sending(job, n, |r.sends|)], issued, r.(sends := r.sends + [Send(r.epoch, n, w, 1000)]));
    ClaimIs(c, s, w, job, row, r);
    hide *;
  }

  /** The retry of a first attempt, refused without a delay of the endpoint's own. */
  lemma RefuseIs(s: State, w: nat, job: Job, index: nat, row: Delivery, r: Record)
    requires w in s.workers && s.workers[w] == Sending(job, 1, index) && job.delivery == "d" && s.now == 1000
    requires s.db.deliveries == map["d" := row] && s.h.records == map["d" := r] && Fresh(s, "w")
    ensures var a := Work(w, Respond(Retry.Refused(500, None), 0.5, "w"));
      && Enabled(C, s, a)
      && Next(C, s, a) == s.(
           db := Tables(s.db.events, map["d" := row.(status := FAILED, nextAttemptAt := Some(2000))],
                        s.db.outbox["w" := NewTicket("d", 2, 2000, 1000)]),
           workers := s.workers[w := Leaving(job)],
           h := s.h.(issued := s.h.issued["w" := Order("d", 2, 2000)],
                     records := map["d" := r.(notBefore := r.notBefore[2 := 2000], current := "w")]))
  {
    DecideAgain();
    RefusedRows(s.db, row);
    OneRecord(s.h, r);
    Issued(s.h, r, r.(notBefore := r.notBefore[2 := 2000]), "w", 2, 2000);
    hide Retry.Decide, MarkFailedAndSchedule, RecordOf, Update, Issue, Enabled, Next;
    WorkIs(C, s, w, Respond(Retry.Refused(500, None), 0.5, "w"));
  }

  lemma RefusedRows(db: Tables, row: Delivery)
    requires db.deliveries == map["d" := row]
    ensures MarkFailedAndSchedule(db, "d", 2000, 2, "w", 1000) == Tables(
      db.events, map["d" := row.(status := FAILED, nextAttemptAt := Some(2000))],
      db.outbox["w" := NewTicket("d", 2, 2000, 1000)])
  {
  }

  lemma DecideAgain()
    ensures Retry.Decide(C, 1, Retry.Refused(500, None), 1000, 0.5) == Retry.RetryAt(2000)
  {
    assert Retry.Power(2.0, 0) == 1.0;
  }

  lemma RefuseAt(row: Delivery, outbox: map<Id, Ticket>, workers: map<nat, Worker>, issued: map<Id, Order>,
      r: Record, w: nat, job: Job, index: nat)
    requires w in workers && workers[w] == Sending(job, 1, index) && job.delivery == "d" && REPUBLISHED.now == 1000
    requires "w" !in outbox && "w" !in issued
    ensures var s, a := At(row, outbox, workers, issued, r), Work(w, Respond(Retry.Refused(500, None), 0.5, "w"));
      && Enabled(C, s, a)
      && Next(C, s, a) == At(
           row.(status := FAILED, nextAttemptAt := Some(2000)), outbox["w" := NewTicket("d", 2, 2000, 1000)],
           workers[w := Leaving(job)], issued["w" := Order("d", 2, 2000)],
           r.(notBefore := r.notBefore[2 := 2000], current := "w"))
  {
    var s := At(row, outbox, workers, issued, r);
    AtFields(row, outbox, workers, issued, r);
    AtAgain(row, outbox, workers, issued, r,
            row.(status := FAILED, nextAttemptAt := Some(2000)), outbox["w" := NewTicket("d", 2, 2000, 1000)],
            workers[w := Leaving(job)], issued["w" := Order("d", 2, 2000)],
            r.(notBefore := r.notBefore[2 := 2000], current := "w"));
    assert Fresh(s, "w");
    RefuseIs(s, w, job, index, row, r);
    hide *;
  }

  lemma AskStep(c: Config)
    ensures var a := Replay(0, AskReplay("d"));
      Enabled(c, REPUBLISHED, a) && Next(c, REPUBLISHED, a) == ASKED
  {
    Base();
    hide REPUBLISHED;
  }

  lemma ResetIs(c: Config, s: State, row: Delivery, r: Record)
    requires s.replays == map[0 := "d"] && Fresh(s, "v") && row.event == "ev"
    requires s.db.deliveries == map["d" := row] && s.h.records == map["d" := r]
    requires s.db.events == map["ev" := Event("tenant", "key", "type", EVENT_PROCESSING, 0)]
    ensures var a := Replay(0, ResetRow("v"));
      && Enabled(c, s, a)
      && Next(c, s, a) == s.(
           replays := map[],
           db := Tables(map["ev" := Event("tenant", "key", "type", EVENT_PROCESSING, s.now)],
                        map["d" := row.(status := PENDING, attempts := 0, lastAttemptAt := None,
                          nextAttemptAt := Some(s.now))],
                        s.db.outbox["v" := NewTicket("d", 1, s.now, s.now)]),
           h := s.h.(issued := s.h.issued["v" := Order("d", 1, s.now)],
                     records := map["d" := r.(epoch := r.epoch + 1, current := "v")]))
  {
    ResetRows(s.db, row, s.now);
    OneRecord(s.h, r);
    Issued(s.h, r, r.(epoch := r.epoch + 1), "v", 1, s.now);
    hide ResetForReplay, Issue, Update, RecordOf, Enabled, Next;
    assert s.replays - {0} == map[];
    ReplayIs(c, s, 0, ResetRow("v"));
  }

  lemma ReplayIs(c: Config, s: State, r: nat, step: ReplayStep)
    requires ReplayEnabled(s, r, step)
    ensures Enabled(c, s, Replay(r, step)) && Next(c, s, Replay(r, step)) == ReplayNext(s, r, step)
  {
    hide ReplayEnabled, ReplayNext;
  }

  lemma ResetRows(db: Tables, row: Delivery, now: int)
    requires db.deliveries == map["d" := row] && row.event == "ev"
    requires db.events == map["ev" := Event("tenant", "key", "type", EVENT_PROCESSING, 0)]
    ensures ResetForReplay(db, "d", "v", now) == Tables(
      map["ev" := Event("tenant", "key", "type", EVENT_PROCESSING, now)],
      map["d" := row.(status := PENDING, attempts := 0, lastAttemptAt := None, nextAttemptAt := Some(now))],
      db.outbox["v" := NewTicket("d", 1, now, now)])
  {
  }

  lemma ResetStep(c: Config)
    ensures var a := Replay(0, ResetRow("v")); Enabled(c, ASKED, a) && Next(c, ASKED, a) == RESET
  {
    hide *;
    AskedFacts();
    FailedFacts();
    ResetIs(c, ASKED, FAILED_ROW, FIRST_EPOCH);
    ResetState();
  }

  lemma AskedFacts()
    ensures ASKED.now == 1000 && ASKED.replays == map[0 := "d"]
    ensures ASKED.db.deliveries == map["d" := FAILED_ROW] && ASKED.h.records == map["d" := FIRST_EPOCH]
    ensures ASKED.db.events == map["ev" := Event("tenant", "key", "type", EVENT_PROCESSING, 0)]
  {
    Base();
    hide REPUBLISHED;
  }

  lemma ResetState()
    ensures ASKED.(
      replays := map[],
      db := Tables(map["ev" := Event("tenant", "key", "type", EVENT_PROCESSING, 1000)],
                   map["d" := FAILED_ROW.(status := PENDING, attempts := 0, lastAttemptAt := None,
                                          nextAttemptAt := Some(1000))],
                   ASKED.db.outbox["v" := NewTicket("d", 1, 1000, 1000)]),
      h := ASKED.h.(issued := ASKED.h.issued["v" := Order("d", 1, 1000)],
                    records := map["d" := FIRST_EPOCH.(epoch := FIRST_EPOCH.epoch + 1, current := "v")])) == RESET
  {
    Base();
    FailedFacts();
    hide REPUBLISHED, FAILED_ROW, BOTH_ISSUED;
  }

  lemma FailedFacts()
    ensures FAILED_ROW.event == "ev" && Fresh(ASKED, "v")
    ensures FAILED_ROW.(status := PENDING, attempts := 0, lastAttemptAt := None, nextAttemptAt := Some(1000))
      == RESET_ROW
  {
    Base();
    hide REPUBLISHED;
  }

  // ---------------------------------------------------------------- the run

  lemma AskKeeps()
    ensures var r := Rules(true, true, NoLoss);
      Keeps(REPUBLISHED, Replay(0, AskReplay("d")), r) && Keeps(ASKED, Replay(0, ResetRow("v")), r)
  {
    Base();
    hide REPUBLISHED;
  }

  /** No worker but the one that acts is live. */
  lemma WorkKeeps(row: Delivery, outbox: map<Id, Ticket>, workers: map<nat, Worker>, issued: map<Id, Order>,
      r: Record, w: nat, step: WorkerStep)
    requires forall v :: v in workers && v != w ==> !workers[v].Live()
    requires step.Take? ==> w !in workers
    requires !step.Reject?
    ensures Keeps(At(row, outbox, workers, issued, r), Work(w, step), Rules(true, true, NoLoss))
  {
    AtFields(row, outbox, workers, issued, r);
    hide At, REPUBLISHED;
  }

  lemma Facts()
    ensures RESET_ROW.event == "ev" && RESET_ROW.endpoint == "e" && RESET_ROW.status == PENDING
      && RESET_ROW.attempts == 0
    ensures REFUSED_ROW.event == "ev" && REFUSED_ROW.endpoint == "e" && REFUSED_ROW.status == FAILED
      && REFUSED_ROW.attempts == 1
    ensures JOB == Job("t", 0, "d", 1) && RETRY_JOB == Job("u", 0, "d", 2)
    ensures |SECOND_EPOCH.sends| == 1 && SECOND_EPOCH.epoch == 1 && |WAITS.sends| == 2 && WAITS.epoch == 1
  {
  }

  lemma WorkerFacts()
    ensures 1 !in REPUBLISHED.workers && 2 !in LEAVES && 1 in TAKES && 1 in SENDS && 2 in TAKES_EARLY
    ensures TAKES[1] == Checked(JOB, true) && SENDS[1] == Sending(JOB, 1, 1)
      && TAKES_EARLY[2] == Checked(RETRY_JOB, true)
    ensures forall v :: v in REPUBLISHED.workers ==> !REPUBLISHED.workers[v].Live()
    ensures forall v :: v in LEAVES ==> !LEAVES[v].Live()
  {
    Base();
  }

  const ALL: Rules := Rules(true, true, NoLoss)

  lemma TakeAgain()
    ensures var a := Work(1, Take(KEY));
      Enabled(C, RESET, a) && Next(C, RESET, a) == TAKEN_AGAIN && Keeps(RESET, a, ALL)
  {
    Base();
    Waiting();
    Facts();
    WorkerFacts();
    hide REPUBLISHED, JOB, RETRY_JOB, KEY, RETRY_KEY, AGAIN, AGAIN_ISSUED, SECOND_EPOCH, RESET_ROW, At, Keeps,
      Enabled, Next;
    TakeAt(C, RESET_ROW, AGAIN, REPUBLISHED.workers, AGAIN_ISSUED, SECOND_EPOCH, 1, KEY, JOB);
    WorkKeeps(RESET_ROW, AGAIN, REPUBLISHED.workers, AGAIN_ISSUED, SECOND_EPOCH, 1, Take(KEY));
  }

  lemma ClaimAgain()
    ensures var a := Work(1, Claim);
      Enabled(C, TAKEN_AGAIN, a) && Next(C, TAKEN_AGAIN, a) == CLAIMED_AGAIN && Keeps(TAKEN_AGAIN, a, ALL)
  {
    Base();
    Facts();
    WorkerFacts();
    hide REPUBLISHED, JOB, RETRY_JOB, AGAIN, AGAIN_ISSUED, At, Keeps, Enabled, Next;
    ClaimAt(C, RESET_ROW, AGAIN, TAKES, AGAIN_ISSUED, SECOND_EPOCH, 1, JOB);
    WorkKeeps(RESET_ROW, AGAIN, TAKES, AGAIN_ISSUED, SECOND_EPOCH, 1, Claim);
  }

  lemma RefuseAgain()
    ensures var a := Work(1, Respond(Retry.Refused(500, None), 0.5, "w"));
      Enabled(C, CLAIMED_AGAIN, a) && Next(C, CLAIMED_AGAIN, a) == REFUSED_AGAIN && Keeps(CLAIMED_AGAIN, a, ALL)
  {
    Base();
    Facts();
    WorkerFacts();
    NewIds();
    hide REPUBLISHED, JOB, RETRY_JOB, AGAIN, AGAIN_ISSUED, SENT_AGAIN, At, Keeps, Enabled, Next;
    RefuseAt(CLAIMED_ROW, AGAIN, SENDS, AGAIN_ISSUED, SENT_AGAIN, 1, JOB, 1);
    WorkKeeps(CLAIMED_ROW, AGAIN, SENDS, AGAIN_ISSUED, SENT_AGAIN, 1, Respond(Retry.Refused(500, None), 0.5, "w"));
  }

  lemma NewIds()
    ensures "w" !in AGAIN && "w" !in AGAIN_ISSUED
  {
    Base();
    hide REPUBLISHED;
  }

  lemma TakeEarly()
    ensures var a := Work(2, Take(RETRY_KEY));
      Enabled(C, REFUSED_AGAIN, a) && Next(C, REFUSED_AGAIN, a) == TAKEN_EARLY && Keeps(REFUSED_AGAIN, a, ALL)
  {
    Base();
    Waiting();
    Facts();
    WorkerFacts();
    hide REPUBLISHED, JOB, RETRY_JOB, KEY, RETRY_KEY, THRICE, THRICE_ISSUED, WAITS, REFUSED_ROW, LEAVES, At, Keeps,
      Enabled, Next;
    TakeAt(C, REFUSED_ROW, THRICE, LEAVES, THRICE_ISSUED, WAITS, 2, RETRY_KEY, RETRY_JOB);
    WorkKeeps(REFUSED_ROW, THRICE, LEAVES, THRICE_ISSUED, WAITS, 2, Take(RETRY_KEY));
  }

  lemma ClaimEarly()
    ensures var a := Work(2, Claim);
      Enabled(C, TAKEN_EARLY, a) && Next(C, TAKEN_EARLY, a) == CLAIMED_EARLY && Keeps(TAKEN_EARLY, a, ALL)
  {
    Base();
    Facts();
    WorkerFacts();
    hide REPUBLISHED, JOB, RETRY_JOB, THRICE, THRICE_ISSUED, LEAVES, At, Keeps, Enabled, Next;
    ClaimAt(C, REFUSED_ROW, THRICE, TAKES_EARLY, THRICE_ISSUED, WAITS, 2, RETRY_JOB);
    WorkKeeps(REFUSED_ROW, THRICE, TAKES_EARLY, THRICE_ISSUED, WAITS, 2, Claim);
  }

  lemma EarlyRecord()
    ensures var r := RecordOf(CLAIMED_EARLY.h, "d");
      && |r.sends| > 0 && r.sends[|r.sends| - 1] == Send(1, 2, 2, 1000)
      && 2 in r.notBefore && r.notBefore[2] == 2000
  {
    AtFields(EARLY_ROW, THRICE, SENDS_EARLY, THRICE_ISSUED, SENT_EARLY);
    hide REPUBLISHED, At;
    assert WAITS.notBefore[2] == 2000;
  }

  lemma AllIs()
    ensures ALL == Rules(true, true, NoLoss)
  {
  }

  lemma TillReset() returns (states: seq<State>, actions: seq<Action>)
    ensures |states| > 0 && states[|states| - 1] == RESET && Story(C, states, actions, ALL)
  {
    hide *;
    AllIs();
    states, actions := TillRepublished(ALL);
    AskStep(C);
    ResetStep(C);
    AskKeeps();
    states, actions := Tell(C, states, actions, Replay(0, AskReplay("d")), ASKED, ALL);
    states, actions := Tell(C, states, actions, Replay(0, ResetRow("v")), RESET, ALL);
  }

  /** Keeping X, Y and Q, attempt 2 of the second epoch is claimed at 1000 although 2000
      was chosen for it when attempt 1 of that epoch failed. */
  lemma ReplayedRetryIsEarly() returns (states: seq<State>, actions: seq<Action>)
    ensures |states| > 0 && Story(C, states, actions, Rules(true, true, NoLoss))
    ensures var r := RecordOf(states[|states| - 1].h, "d");
      && |r.sends| > 0 && r.sends[|r.sends| - 1] == Send(1, 2, 2, 1000)
      && 2 in r.notBefore && r.notBefore[2] == 2000
  {
    hide *;
    EarlyRecord();
    AllIs();
    states, actions := TillReset();
    TakeAgain();
    ClaimAgain();
    RefuseAgain();
    TakeEarly();
    ClaimEarly();
    states, actions := Tell(C, states, actions, Work(1, Take(KEY)), TAKEN_AGAIN, ALL);
    states, actions := Tell(C, states, actions, Work(1, Claim), CLAIMED_AGAIN, ALL);
    states, actions := Tell(C, states, actions, Work(1, Respond(Retry.Refused(500, None), 0.5, "w")), REFUSED_AGAIN,
      ALL);
    states, actions := Tell(C, states, actions, Work(2, Take(RETRY_KEY)), TAKEN_EARLY, ALL);
    states, actions := Tell(C, states, actions, Work(2, Claim), CLAIMED_EARLY, ALL);
  }
}
