/** The delivery protocol as a state machine: the tables, the queue, and any
    number of workers, publishers, maintenance loops and replay requests, each
    stopped between two of its database or queue calls.  One action is one such
    call, so a run interleaves the processes in every possible way.

    The clock never goes back; the queue ignores an added job whose id it still
    retains, and hands a waiting job to workers at least once. */
module Protocol {
  import opened Domain
  import opened Transactions
  import opened JobIds
  import Retry

  // ---------------------------------------------------------------- processes

  /** A worker inside a job.  An idle worker is absent from the state.
      Checked: the row was read and was not terminal; `active` is what the read
      saw of the endpoint.  Sending: the claim was won, as entry `index` of the
      delivery's send log.  Leaving: only the report to the queue is left. */
  datatype Worker =
    | Checked(job: Job, active: bool)
    | Sending(job: Job, attempt: nat, index: nat)
    | Leaving(job: Job)
  {
    /** Between the first read and the outcome. */
    predicate Live() { !Leaving? }
  }

  /** A publisher with the rows it fetched and has not finished; `added` says
      that the first of them is already in the queue but not marked. */
  datatype Batch = Batch(rows: seq<Job>, added: bool)

  /** A maintenance loop: stale recovery with its cutoff, computed before the query,
      and the (delivery, attempts) pairs it read; or stranded recovery with the (outbox, counter) pairs it read;
      `condemned` says that the first was found without a live job. */
  datatype Sweep =
    | Stale(cutoff: int, found: seq<(Id, nat)>)
    | Stranded(published: seq<(Id, nat)>, condemned: bool)

  // ---------------------------------------------------------------- history

  /** What an outbox row orders; fixed when the row is created. */
  datatype Order = Order(delivery: Id, number: nat, availableAt: int)

  /** A won claim. */
  datatype Send = Send(epoch: nat, attempt: nat, worker: nat, at: int)

  /** What has happened to one delivery: its replays, all its claims, for each
      stale recovery the claim whose PROCESSING period it ended, the retry time
      chosen for each next attempt, and the outbox row created last for it. */
  datatype Record = Record(
    epoch: nat,
    sends: seq<Send>,
    recoveries: seq<nat>,
    notBefore: map<nat, int>,
    current: Id)

  /** `issued` keeps every outbox row ever created, `added` every (outbox id,
      counter) pair ever passed to the queue.  Only specifications read it. */
  datatype History = History(
    issued: map<Id, Order>,
    added: set<(Id, nat)>,
    records: map<Id, Record>,
    eventIds: set<Id>)

  // ---------------------------------------------------------------- states

  datatype State = State(
    now: int,
    db: Tables,
    active: map<Id, bool>,
    queue: map<string, QueueEntry>,
    workers: map<nat, Worker>,
    publishers: map<nat, Batch>,
    sweeps: map<nat, Sweep>,
    replays: map<nat, Id>,
    h: History)

  datatype PublisherStep =
    | Fetch(ids: seq<Id>)
    | AddJob
    | MarkRow
    | FailRow
    | StopPublisher

  datatype WorkerStep =
    | Take(jobId: string)
    | Cancel
    | Reject(delay: nat, ticket: Id)
    | Claim
    | Respond(reply: Retry.Reply, draw: real, ticket: Id)
    | Report(state: JobState)
    | Crash

  datatype SweepStep =
    | ScanStale(cutoff: int, found: seq<(Id, nat)>)
    | RecoverOne(ticket: Id)
    | ScanStranded(published: seq<(Id, nat)>)
    | InspectOne
    | ReopenOne
    | StopSweep

  datatype ReplayStep =
    | AskReplay(delivery: Id)
    | ResetRow(ticket: Id)

  datatype QueueStep =
    | FinishJob(state: JobState)
    | DropJob

  /** `fan` maps each new delivery to its endpoint; `first` and `owner` pair the
      deliveries with their first outbox rows. */
  datatype Action =
    | Tick(ms: nat)
    | SetEndpoint(endpoint: Id, on: bool)
    | Ingest(event: Id, tenant: Id, key: string, eventType: string, fan: map<Id, Id>, first: map<Id, Id>,
      owner: map<Id, Id>)
    | Publisher(p: nat, publishing: PublisherStep)
    | Work(w: nat, working: WorkerStep)
    | Maintain(m: nat, sweeping: SweepStep)
    | CleanOutbox
    | CleanEvents
    | Replay(r: nat, replaying: ReplayStep)
    | Queue(jobId: string, queueing: QueueStep)

  predicate Init(s: State) {
    && s.db == Tables(map[], map[], map[])
    && s.queue == map[] && s.workers == map[] && s.publishers == map[] && s.sweeps == map[] && s.replays == map[]
    && s.h == History(map[], {}, map[], {})
  }

  // ---------------------------------------------------------------- guards

  predicate Due(outbox: map<Id, Ticket>, now: int, t: Id) {
    t in outbox && outbox[t].publishedAt.None? && outbox[t].availableAt <= now
  }

  predicate Distinct(ids: seq<Id>) {
    forall i, j :: 0 <= i < j < |ids| ==> ids[i] != ids[j]
  }

  /** The publisher's query: at most 100 due rows, oldest first, none passed
      over.  Rows created at the same time may come in any order. */
  ghost predicate OldestDue(outbox: map<Id, Ticket>, now: int, ids: seq<Id>) {
    && Distinct(ids)
    && |ids| <= 100
    && (forall i :: 0 <= i < |ids| ==> Due(outbox, now, ids[i]))
    && (forall i, j :: 0 <= i < j < |ids| ==> outbox[ids[i]].createdAt <= outbox[ids[j]].createdAt)
    && (forall t, i :: Due(outbox, now, t) && t !in ids && 0 <= i < |ids| ==>
         outbox[ids[i]].createdAt <= outbox[t].createdAt)
    && (|ids| < 100 ==> forall t :: Due(outbox, now, t) ==> t in ids)
  }

  function RowOf(outbox: map<Id, Ticket>, t: Id): Job
    requires t in outbox
  {
    Job(t, outbox[t].publishes, outbox[t].delivery, outbox[t].attemptNumber)
  }

  function KeyOf(job: Job): string {
    JobId(job.outbox, job.counter)
  }

  predicate IsFor(job: Job, d: Id, number: nat) {
    job.delivery == d && job.expected == number
  }

  /** The state stranded recovery sees for an outbox row: its current job, else
      the job under the id older versions used, else nothing. */
  predicate HasNoLiveJob(queue: map<string, QueueEntry>, outbox: Id, counter: nat) {
    if JobId(outbox, counter) in queue then queue[JobId(outbox, counter)].state.FAILED_JOB?
    else LegacyJobId(outbox) in queue ==> queue[LegacyJobId(outbox)].state.FAILED_JOB?
  }

  predicate Fresh(s: State, ticket: Id) {
    ticket !in s.h.issued && ticket !in s.db.outbox
  }

  predicate CanIngest(s: State, event: Id, tenant: Id, key: string, fan: map<Id, Id>, first: map<Id, Id>,
      owner: map<Id, Id>) {
    && event !in s.h.eventIds && event !in s.db.events
    && (forall e :: e in s.db.events ==> s.db.events[e].tenant != tenant || s.db.events[e].key != key)
    && fan.Keys !! s.h.records.Keys && fan.Keys !! s.db.deliveries.Keys
    && owner.Keys !! s.h.issued.Keys && owner.Keys !! s.db.outbox.Keys
    && first.Keys == fan.Keys
    && (forall d :: d in first ==> first[d] in owner && owner[first[d]] == d)
    && (forall t :: t in owner ==> owner[t] in first && first[owner[t]] == t)
  }

  ghost predicate PublisherEnabled(s: State, p: nat, step: PublisherStep) {
    match step
    case Fetch(ids) => p !in s.publishers && |ids| > 0 && OldestDue(s.db.outbox, s.now, ids)
    case AddJob => p in s.publishers && |s.publishers[p].rows| > 0 && !s.publishers[p].added
    case MarkRow => p in s.publishers && |s.publishers[p].rows| > 0 && s.publishers[p].added
    case FailRow => p in s.publishers && |s.publishers[p].rows| > 0
    case StopPublisher => p in s.publishers
  }

  predicate WorkerEnabled(s: State, w: nat, step: WorkerStep) {
    match step
    case Take(jobId) => w !in s.workers && jobId in s.queue && s.queue[jobId].state.WAITING?
    case Cancel => w in s.workers && s.workers[w].Checked? && !s.workers[w].active
    case Reject(_, ticket) => w in s.workers && s.workers[w].Checked? && s.workers[w].active && Fresh(s, ticket)
    case Claim => w in s.workers && s.workers[w].Checked? && s.workers[w].active
    case Respond(_, draw, ticket) =>
      w in s.workers && s.workers[w].Sending? && s.workers[w].attempt >= 1 && Retry.IsDraw(draw) && Fresh(s, ticket)
    case Report(state) => w in s.workers && s.workers[w].Leaving? && !state.WAITING?
    case Crash => w in s.workers
  }

  predicate IsPublishedPending(db: Tables, t: Id, counter: nat) {
    && t in db.outbox
    && db.outbox[t].publishedAt.Some?
    && db.outbox[t].publishes == counter
    && db.outbox[t].delivery in db.deliveries
    && db.deliveries[db.outbox[t].delivery].status.PENDING?
  }

  predicate IsFound(found: seq<(Id, nat)>, d: Id) {
    exists i :: 0 <= i < |found| && found[i].0 == d
  }

  predicate DistinctRows(rows: seq<(Id, nat)>) {
    forall i, j :: 0 <= i < j < |rows| ==> rows[i].0 != rows[j].0
  }

  /** What the stale query may return: at most 100 stale rows in any order, all of them
      if fewer. */
  ghost predicate StaleRows(db: Tables, cutoff: int, found: seq<(Id, nat)>) {
    && DistinctRows(found) && |found| <= 100
    && (forall i :: 0 <= i < |found| ==>
         IsStale(db, found[i].0, cutoff) && found[i].1 == db.deliveries[found[i].0].attempts)
    && (|found| < 100 ==> forall d :: IsStale(db, d, cutoff) ==> IsFound(found, d))
  }

  /** What the stranded query may return: at most 100 published rows of PENDING
      deliveries in any order, all of them if fewer. */
  ghost predicate StrandedRows(db: Tables, rows: seq<(Id, nat)>) {
    && DistinctRows(rows) && |rows| <= 100
    && (forall i :: 0 <= i < |rows| ==> IsPublishedPending(db, rows[i].0, rows[i].1))
    && (|rows| < 100 ==> forall t, n: nat :: IsPublishedPending(db, t, n) ==> (t, n) in rows)
  }

  ghost predicate SweepEnabled(c: Config, s: State, m: nat, step: SweepStep) {
    match step
    case ScanStale(cutoff, found) =>
      m !in s.sweeps && cutoff <= s.now - c.staleAge && StaleRows(s.db, cutoff, found)
    case RecoverOne(ticket) => m in s.sweeps && s.sweeps[m].Stale? && |s.sweeps[m].found| > 0 && Fresh(s, ticket)
    case ScanStranded(published) => m !in s.sweeps && StrandedRows(s.db, published)
    case InspectOne => m in s.sweeps && s.sweeps[m].Stranded? && |s.sweeps[m].published| > 0 && !s.sweeps[m].condemned
    case ReopenOne => m in s.sweeps && s.sweeps[m].Stranded? && |s.sweeps[m].published| > 0 && s.sweeps[m].condemned
    case StopSweep => m in s.sweeps
  }

  predicate ReplayEnabled(s: State, r: nat, step: ReplayStep) {
    match step
    case AskReplay(d) => r !in s.replays && d in s.db.deliveries && !s.db.deliveries[d].status.SUCCESS?
    case ResetRow(ticket) => r in s.replays && Fresh(s, ticket)
  }

  predicate QueueEnabled(s: State, jobId: string, step: QueueStep) {
    match step
    case FinishJob(state) => jobId in s.queue && s.queue[jobId].state.WAITING? && !state.WAITING?
    case DropJob => jobId in s.queue
  }

  ghost predicate Enabled(c: Config, s: State, a: Action) {
    match a
    case Tick(_) => true
    case SetEndpoint(_, _) => true
    case Ingest(event, tenant, key, _, fan, first, owner) => CanIngest(s, event, tenant, key, fan, first, owner)
    case Publisher(p, step) => PublisherEnabled(s, p, step)
    case Work(w, step) => WorkerEnabled(s, w, step)
    case Maintain(m, step) => SweepEnabled(c, s, m, step)
    case CleanOutbox => true
    case CleanEvents => true
    case Replay(r, step) => ReplayEnabled(s, r, step)
    case Queue(jobId, step) => QueueEnabled(s, jobId, step)
  }

  // ---------------------------------------------------------------- effects

  /** Records a new outbox row in the history. */
  function Issue(h: History, ticket: Id, d: Id, number: nat, availableAt: int): History {
    Update(h.(issued := h.issued[ticket := Order(d, number, availableAt)]), d, RecordOf(h, d).(current := ticket))
  }

  function RecordOf(h: History, d: Id): Record {
    if d in h.records then h.records[d] else Record(0, [], [], map[], "")
  }

  function Update(h: History, d: Id, r: Record): History {
    h.(records := h.records[d := r])
  }

  function NewDelivery(event: Id, endpoint: Id): Delivery {
    Delivery(event, endpoint, PENDING, 0, None, None)
  }

  function NewDeliveries(event: Id, fan: map<Id, Id>): map<Id, Delivery> {
    map d | d in fan :: NewDelivery(event, fan[d])
  }

  function FirstTickets(owner: map<Id, Id>, now: int): map<Id, Ticket> {
    map t | t in owner :: NewTicket(owner[t], 1, now, now)
  }

  function FirstOrders(owner: map<Id, Id>, now: int): map<Id, Order> {
    map t | t in owner :: Order(owner[t], 1, now)
  }

  function FirstRecords(first: map<Id, Id>): map<Id, Record> {
    map d | d in first :: Record(0, [], [], map[], first[d])
  }

  function DoIngest(s: State, event: Id, tenant: Id, key: string, eventType: string, fan: map<Id, Id>,
      first: map<Id, Id>, owner: map<Id, Id>): State
    requires CanIngest(s, event, tenant, key, fan, first, owner)
  {
    var status := if fan == map[] then NO_SUBSCRIBERS else EVENT_PENDING;
    s.(db := Tables(
         s.db.events[event := Event(tenant, key, eventType, status, s.now)],
         s.db.deliveries + NewDeliveries(event, fan),
         s.db.outbox + FirstTickets(owner, s.now)),
       h := s.h.(
         issued := s.h.issued + FirstOrders(owner, s.now),
         records := s.h.records + FirstRecords(first),
         eventIds := s.h.eventIds + {event}))
  }

  /** Copies of the rows fetched, as they are at the fetch. */
  function Copies(outbox: map<Id, Ticket>, ids: seq<Id>): seq<Job>
    requires forall i :: 0 <= i < |ids| ==> ids[i] in outbox
  {
    seq(|ids|, i requires 0 <= i < |ids| => RowOf(outbox, ids[i]))
  }

  function DoFetch(s: State, p: nat, ids: seq<Id>): State
    requires forall i :: 0 <= i < |ids| ==> ids[i] in s.db.outbox
  {
    s.(publishers := s.publishers[p := Batch(Copies(s.db.outbox, ids), false)])
  }

  function DoAddJob(s: State, p: nat): State
    requires p in s.publishers && |s.publishers[p].rows| > 0
  {
    var row := s.publishers[p].rows[0];
    s.(queue := if KeyOf(row) in s.queue then s.queue else s.queue[KeyOf(row) := QueueEntry(row, WAITING)],
       publishers := s.publishers[p := s.publishers[p].(added := true)],
       h := s.h.(added := s.h.added + {(row.outbox, row.counter)}))
  }

  /** The publisher moves on to its next row, or to rest after the last one. */
  function NextRow(s: State, p: nat): State
    requires p in s.publishers && |s.publishers[p].rows| > 0
  {
    var rest := s.publishers[p].rows[1..];
    s.(publishers := if rest == [] then s.publishers - {p} else s.publishers[p := Batch(rest, false)])
  }

  /** Marking a row that was deleted meanwhile throws, and so does recording that
      failure: the publisher gives up its batch. */
  function DoMarkRow(s: State, p: nat): State
    requires p in s.publishers && |s.publishers[p].rows| > 0
  {
    var t := s.publishers[p].rows[0].outbox;
    if t in s.db.outbox then NextRow(s.(db := MarkPublished(s.db, t, s.now)), p)
    else s.(publishers := s.publishers - {p})
  }

  function DoFailRow(s: State, p: nat): State
    requires p in s.publishers && |s.publishers[p].rows| > 0
  {
    s.(db := RecordPublishFailure(s.db, s.publishers[p].rows[0].outbox), publishers := s.publishers - {p})
  }

  predicate IsActive(s: State, endpoint: Id) {
    endpoint in s.active && s.active[endpoint]
  }

  function DoTake(s: State, w: nat, jobId: string): State
    requires jobId in s.queue
  {
    var job := s.queue[jobId].job;
    s.(workers := s.workers[w :=
         if job.delivery !in s.db.deliveries || s.db.deliveries[job.delivery].status.Terminal() then Leaving(job)
         else Checked(job, IsActive(s, s.db.deliveries[job.delivery].endpoint))])
  }

  function DoCancel(s: State, w: nat): State
    requires w in s.workers
  {
    var job := s.workers[w].job;
    s.(db := MarkTerminal(s.db, job.delivery, CANCELLED, s.now), workers := s.workers[w := Leaving(job)])
  }

  function DoReject(s: State, w: nat, delay: nat, ticket: Id): State
    requires w in s.workers
  {
    var job := s.workers[w].job;
    var at := s.now + delay;
    s.(db := MarkRateLimitedAndSchedule(s.db, job.delivery, at, job.expected, ticket, s.now),
       workers := s.workers[w := Leaving(job)],
       h := if job.delivery in s.db.deliveries then Issue(s.h, ticket, job.delivery, job.expected, at) else s.h)
  }

  function DoClaim(s: State, w: nat): State
    requires w in s.workers
  {
    var job := s.workers[w].job;
    var d := job.delivery;
    if CanClaim(s.db, d, job.expected) then
      var r := RecordOf(s.h, d);
      s.(db := ClaimForProcessing(s.db, d, job.expected, s.now),
         workers := s.workers[w := Sending(job, s.db.deliveries[d].attempts + 1, |r.sends|)],
         h := Update(s.h, d, r.(sends := r.sends + [Send(r.epoch, s.db.deliveries[d].attempts + 1, w, s.now)])))
    else
      s.(workers := s.workers[w := Leaving(job)])
  }

  /** Writes the outcome of attempt number `attempt` of delivery `d`. */
  function Settle(s: State, d: Id, attempt: nat, decision: Retry.Decision, ticket: Id): State {
    var settled := Settled(s.db, d, attempt, decision, ticket, s.now);
    if decision.RetryAt? && d in s.db.deliveries then
      var r, at := RecordOf(s.h, d), decision.at;
      s.(db := settled, h := Issue(Update(s.h, d, r.(notBefore := r.notBefore[attempt + 1 := at])), ticket, d,
        attempt + 1, at))
    else
      s.(db := settled)
  }

  function DoRespond(c: Config, s: State, w: nat, reply: Retry.Reply, draw: real, ticket: Id): State
    requires w in s.workers && s.workers[w].Sending? && s.workers[w].attempt >= 1
  {
    var job, attempt := s.workers[w].job, s.workers[w].attempt;
    Settle(s.(workers := s.workers[w := Leaving(job)]), job.delivery, attempt,
      Retry.Decide(c, attempt, reply, s.now, draw), ticket)
  }

  function DoReport(s: State, w: nat, state: JobState): State
    requires w in s.workers
  {
    var key := KeyOf(s.workers[w].job);
    s.(workers := s.workers - {w},
       queue := if key in s.queue then s.queue[key := s.queue[key].(state := state)] else s.queue)
  }

  function DoScanStale(s: State, m: nat, cutoff: int, found: seq<(Id, nat)>): State {
    s.(sweeps := s.sweeps[m := Stale(cutoff, found)])
  }

  function DoRecoverOne(s: State, m: nat, ticket: Id): State
    requires m in s.sweeps && s.sweeps[m].Stale? && |s.sweeps[m].found| > 0
  {
    var cutoff, (d, attemptsRead) := s.sweeps[m].cutoff, s.sweeps[m].found[0];
    var s := s.(sweeps := s.sweeps[m := Stale(cutoff, s.sweeps[m].found[1..])]);
    if IsStale(s.db, d, cutoff) then
      var r := RecordOf(s.h, d);
      s.(db := RecoverStale(s.db, d, attemptsRead, cutoff, ticket, s.now),
         h := Issue(Update(s.h, d, r.(recoveries := r.recoveries + [|r.sends|])), ticket, d, attemptsRead + 1, s.now))
    else s
  }

  function DoInspectOne(s: State, m: nat): State
    requires m in s.sweeps && s.sweeps[m].Stranded? && |s.sweeps[m].published| > 0
  {
    var rows := s.sweeps[m].published;
    s.(sweeps := s.sweeps[m :=
         if HasNoLiveJob(s.queue, rows[0].0, rows[0].1) then Stranded(rows, true) else Stranded(rows[1..], false)])
  }

  function DoReopenOne(s: State, m: nat): State
    requires m in s.sweeps && s.sweeps[m].Stranded? && |s.sweeps[m].published| > 0
  {
    var rows := s.sweeps[m].published;
    if rows[0].0 in s.db.outbox then
      s.(db := Reopen(s.db, rows[0].0), sweeps := s.sweeps[m := Stranded(rows[1..], false)])
    else
      s.(sweeps := s.sweeps - {m})
  }

  function DoReplay(s: State, r: nat, ticket: Id): State
    requires r in s.replays
  {
    var d := s.replays[r];
    var s := s.(replays := s.replays - {r});
    if d in s.db.deliveries then
      s.(db := ResetForReplay(s.db, d, ticket, s.now),
         h := Issue(Update(s.h, d, RecordOf(s.h, d).(epoch := RecordOf(s.h, d).epoch + 1)), ticket, d, 1, s.now))
    else s
  }

  function DoFinishJob(s: State, jobId: string, state: JobState): State
    requires jobId in s.queue
  {
    s.(queue := s.queue[jobId := s.queue[jobId].(state := state)])
  }

  ghost function PublisherNext(s: State, p: nat, step: PublisherStep): State
    requires PublisherEnabled(s, p, step)
  {
    match step
    case Fetch(ids) => DoFetch(s, p, ids)
    case AddJob => DoAddJob(s, p)
    case MarkRow => DoMarkRow(s, p)
    case FailRow => DoFailRow(s, p)
    case StopPublisher => s.(publishers := s.publishers - {p})
  }

  function WorkerNext(c: Config, s: State, w: nat, step: WorkerStep): State
    requires WorkerEnabled(s, w, step)
  {
    match step
    case Take(jobId) => DoTake(s, w, jobId)
    case Cancel => DoCancel(s, w)
    case Reject(delay, ticket) => DoReject(s, w, delay, ticket)
    case Claim => DoClaim(s, w)
    case Respond(reply, draw, ticket) => DoRespond(c, s, w, reply, draw, ticket)
    case Report(state) => DoReport(s, w, state)
    case Crash => s.(workers := s.workers - {w})
  }

  ghost function SweepNext(c: Config, s: State, m: nat, step: SweepStep): State
    requires SweepEnabled(c, s, m, step)
  {
    match step
    case ScanStale(cutoff, found) => DoScanStale(s, m, cutoff, found)
    case RecoverOne(ticket) => DoRecoverOne(s, m, ticket)
    case ScanStranded(published) => s.(sweeps := s.sweeps[m := Stranded(published, false)])
    case InspectOne => DoInspectOne(s, m)
    case ReopenOne => DoReopenOne(s, m)
    case StopSweep => s.(sweeps := s.sweeps - {m})
  }

  function ReplayNext(s: State, r: nat, step: ReplayStep): State
    requires ReplayEnabled(s, r, step)
  {
    match step
    case AskReplay(d) => s.(replays := s.replays[r := d])
    case ResetRow(ticket) => DoReplay(s, r, ticket)
  }

  function QueueNext(s: State, jobId: string, step: QueueStep): State
    requires QueueEnabled(s, jobId, step)
  {
    match step
    case FinishJob(state) => DoFinishJob(s, jobId, state)
    case DropJob => s.(queue := s.queue - {jobId})
  }

  ghost function Next(c: Config, s: State, a: Action): State
    requires Enabled(c, s, a)
  {
    match a
    case Tick(ms) => s.(now := s.now + ms)
    case SetEndpoint(endpoint, on) => s.(active := s.active[endpoint := on])
    case Ingest(event, tenant, key, eventType, fan, first, owner) => DoIngest(s, event, tenant, key, eventType, fan,
      first, owner)
    case Publisher(p, step) => PublisherNext(s, p, step)
    case Work(w, step) => WorkerNext(c, s, w, step)
    case Maintain(m, step) => SweepNext(c, s, m, step)
    case CleanOutbox => s.(db := CleanupPublished(s.db, s.now))
    case CleanEvents => s.(db := CleanupOldEvents(s.db, c.retentionDays, s.now))
    case Replay(r, step) => ReplayNext(s, r, step)
    case Queue(jobId, step) => QueueNext(s, jobId, step)
  }

  // ---------------------------------------------------------------- runs

  /** A finite run of the full interleaving semantics. */
  ghost predicate Run(c: Config, states: seq<State>, actions: seq<Action>) {
    && |states| == |actions| + 1
    && Init(states[0])
    && forall i :: 0 <= i < |actions| ==>
         Enabled(c, states[i], actions[i]) && states[i + 1] == Next(c, states[i], actions[i])
  }

  // ---------------------------------------------------------------- assumptions

  /** Some worker is between its first read of delivery `d` and its outcome. */
  ghost predicate LiveOn(s: State, d: Id) {
    exists w :: w in s.workers && s.workers[w].Live() && s.workers[w].job.delivery == d
  }

  /** Assumption X: a delivery has at most one live worker; stale recovery and
      replay do not fire under it, and a replay sees the row as its own earlier
      read did.  Crashed workers are allowed. */
  ghost predicate OneWorker(s: State, a: Action) {
    match a
    case Work(w, Take(jobId)) => jobId in s.queue ==> !LiveOn(s, s.queue[jobId].job.delivery)
    case Maintain(m, RecoverOne(_)) => m in s.sweeps && s.sweeps[m].Stale? && |s.sweeps[m].found| > 0 ==>
      !LiveOn(s, s.sweeps[m].found[0].0)
    case Replay(r, ResetRow(_)) => r in s.replays && s.replays[r] in s.db.deliveries ==>
      !LiveOn(s, s.replays[r]) && !s.db.deliveries[s.replays[r]].status.SUCCESS?
    case _ => true
  }

  /** Assumption Y: the rate limiter only turns away the next attempt. */
  ghost predicate NoStaleReject(s: State, a: Action) {
    match a
    case Work(w, Reject(_, _)) => w in s.workers && s.workers[w].job.delivery in s.db.deliveries ==>
      s.workers[w].job.expected == s.db.deliveries[s.workers[w].job.delivery].attempts + 1
    case _ => true
  }

  /** Assumption Q: a job that no worker has reported on is neither finished nor
      dropped by the queue.  Finished jobs may be dropped at any time. */
  ghost predicate NoJobLoss(s: State, a: Action) {
    match a
    case Queue(jobId, _) => jobId in s.queue ==> !s.queue[jobId].state.WAITING?
    case _ => true
  }

  predicate IsJobOf(s: State, k: string, t: Id) {
    k in s.queue && s.queue[k].state.WAITING? && s.queue[k].job.outbox == t
  }

  /** Some job of outbox row `t` waits in the queue. */
  ghost predicate HasJob(s: State, t: Id) {
    exists k :: IsJobOf(s, k, t)
  }

  /** Outbox row `t` is the current order of delivery `d`, which waits for it. */
  predicate WaitsFor(s: State, d: Id, t: Id) {
    d in s.db.deliveries && s.db.deliveries[d].status.Claimable() && RecordOf(s.h, d).current == t
  }

  /** After the step on job `k`, row `t` has no job under its current id, or a failed
      one: stranded recovery would take it up. */
  predicate LeavesDead(s: State, k: string, step: QueueStep, t: Id) {
    && t in s.db.outbox
    && var current := JobId(t, s.db.outbox[t].publishes);
       if current == k then step != FinishJob(COMPLETED)
       else current in s.queue ==> s.queue[current].state.FAILED_JOB?
  }

  /** A weaker form of Q: the queue loses the last waiting job of a delivery's current
      order only while the delivery is PENDING and its row is left for stranded
      recovery, and the clean-up does not delete that row first.  It is enough, but one
      loss it excludes may do no harm: another row may order the same attempt, or a
      process may have it in hand, as long as it does not crash. */
  ghost predicate NoFatalLoss(s: State, a: Action) {
    match a
    case Queue(k, step) => k in s.queue && s.queue[k].state.WAITING? ==>
      forall d :: WaitsFor(s, d, s.queue[k].job.outbox) ==>
        || (exists j :: j != k && IsJobOf(s, j, s.queue[k].job.outbox))
        || (s.db.deliveries[d].status.PENDING? && LeavesDead(s, k, step, s.queue[k].job.outbox))
    case CleanOutbox =>
      forall d, t :: WaitsFor(s, d, t) && t in s.db.outbox && Outdated(s.db.outbox[t], s.now) ==> HasJob(s, t)
    case _ => true
  }

  /** No outbox id is another one with a dash and digits appended: uuids are not. */
  ghost predicate PlainIds(s: State) {
    forall t, u, n: nat :: t in s.h.issued && u in s.h.issued ==> t != u + "-" + Decimal(n)
  }

  ghost predicate OrderlyRun(c: Config, states: seq<State>, actions: seq<Action>) {
    Run(c, states, actions) && forall i :: 0 <= i < |actions| ==> OneWorker(states[i], actions[i])
  }

  /** X, Y, and Q in full if `strict`, or else its weaker form. */
  ghost predicate LosslessRun(c: Config, states: seq<State>, actions: seq<Action>, strict: bool) {
    && OrderlyRun(c, states, actions)
    && (forall i :: 0 <= i < |actions| ==>
         NoStaleReject(states[i], actions[i]) && KeepsJobs(states[i], actions[i], strict))
  }

  ghost predicate KeepsJobs(s: State, a: Action, strict: bool) {
    if strict then NoJobLoss(s, a) else NoFatalLoss(s, a)
  }
}
