/** The two-level rate check in front of the executor, run by any number of
    workers at once: the tenant's bucket first, and the endpoint's bucket only if
    the tenant allows and the endpoint has a limit.  Limits are fixed.  A worker
    reads the clock and the store runs its script up to a second later, so scripts
    may run in another order than their clocks were read. */
module Admission {
  import opened Domain
  import opened RateLimiter

  const DEFAULT_TENANT_LIMIT: nat := 10

  /** Configured limits; an endpoint without one, or with 0, is not limited. */
  datatype Limits = Limits(tenants: map<Id, nat>, endpoints: map<Id, nat>) {
    predicate Valid() { forall t :: t in tenants ==> tenants[t] >= 1 }

    function TenantLimit(t: Id): nat { if t in tenants then tenants[t] else DEFAULT_TENANT_LIMIT }

    predicate Limited(e: Id) { e in endpoints && endpoints[e] != 0 }
  }

  function TenantKey(t: Id): string { "rate-limit:" + ("tenant:" + t) }

  function EndpointKey(e: Id): string { "rate-limit:" + ("endpoint:" + e) }

  datatype Job = Job(tenant: Id, endpoint: Id)

  /** A worker that the tenant's bucket has admitted, as call number `call` of it. */
  datatype Held = Held(job: Job, call: nat)

  /** A call to the executor, with the calls of the buckets that admitted it. */
  datatype Execution = Execution(job: Job, tenantCall: nat, endpointCall: Option<nat>)

  /** `at` is the store's clock.  `history` keeps every call made on each key; only
      specifications read it. */
  datatype State = State(
    at: int,
    store: map<string, Entry>,
    holding: map<nat, Held>,
    executions: seq<Execution>,
    history: map<string, seq<Call>>)

  datatype Step =
    | CheckTenant(w: nat, job: Job, now: int, lag: nat)
    | CheckEndpoint(w: nat, now: int, lag: nat)
    | Crash(w: nat)

  predicate Init(s: State) {
    s.store == map[] && s.holding == map[] && s.executions == [] && s.history == map[]
  }

  function CallsOn(s: State, key: string): seq<Call> {
    if key in s.history then s.history[key] else []
  }

  function EntryOf(s: State, key: string): Option<Entry> {
    if key in s.store then Some(s.store[key]) else None
  }

  /** One run of the script on a key. */
  function Consult(s: State, key: string, call: Call): (bool, State)
    requires call.limit >= 1
  {
    var (answer, entry) := CheckEntry(TTL, EntryOf(s, key), call);
    (answer.allowed, s.(
       at := call.now + call.lag,
       store := s.store[key := entry],
       history := s.history[key := CallsOn(s, key) + [call]]))
  }

  predicate Enabled(l: Limits, s: State, step: Step) {
    match step
    case CheckTenant(w, _, now, lag) => w !in s.holding && now + lag >= s.at && lag <= 1000
    case CheckEndpoint(w, now, lag) => w in s.holding && l.Limited(s.holding[w].job.endpoint) && now + lag >= s.at
      && lag <= 1000
    case Crash(w) => w in s.holding
  }

  function DoCheckTenant(l: Limits, s: State, w: nat, job: Job, now: int, lag: nat): State
    requires l.Valid()
  {
    var key := TenantKey(job.tenant);
    var call := |CallsOn(s, key)|;
    var (allowed, s') := Consult(s, key, Call(l.TenantLimit(job.tenant), now, lag));
    if !allowed then s'
    else if l.Limited(job.endpoint) then s'.(holding := s'.holding[w := Held(job, call)])
    else s'.(executions := s'.executions + [Execution(job, call, None)])
  }

  function DoCheckEndpoint(l: Limits, s: State, w: nat, now: int, lag: nat): State
    requires w in s.holding && l.Limited(s.holding[w].job.endpoint)
  {
    var held := s.holding[w];
    var key := EndpointKey(held.job.endpoint);
    var call := |CallsOn(s, key)|;
    var (allowed, s1) := Consult(s, key, Call(l.endpoints[held.job.endpoint], now, lag));
    var s' := s1.(holding := s1.holding - {w});
    if allowed then s'.(executions := s'.executions + [Execution(held.job, held.call, Some(call))]) else s'
  }

  function Next(l: Limits, s: State, step: Step): State
    requires l.Valid() && Enabled(l, s, step)
  {
    match step
    case CheckTenant(w, job, now, lag) => DoCheckTenant(l, s, w, job, now, lag)
    case CheckEndpoint(w, now, lag) => DoCheckEndpoint(l, s, w, now, lag)
    case Crash(w) => s.(holding := s.holding - {w})
  }

  ghost predicate Run(l: Limits, states: seq<State>, steps: seq<Step>)
    requires l.Valid()
  {
    && |states| == |steps| + 1
    && Init(states[0])
    && forall i :: 0 <= i < |steps| ==>
         Enabled(l, states[i], steps[i]) && states[i + 1] == Next(l, states[i], steps[i])
  }

  // ---------------------------------------------------------------- keys

  lemma KeysApart(t: Id, u: Id)
    ensures TenantKey(t) != EndpointKey(u)
    ensures TenantKey(t) == TenantKey(u) ==> t == u
    ensures EndpointKey(t) == EndpointKey(u) ==> t == u
  {
    assert TenantKey(t)[11] == 't' && EndpointKey(u)[11] == 'e';
    assert TenantKey(t)[18..] == t && TenantKey(u)[18..] == u;
    assert EndpointKey(t)[20..] == t && EndpointKey(u)[20..] == u;
  }

  // ---------------------------------------------------------------- invariant

  predicate CallsFit(calls: seq<Call>, limit: nat) {
    Fixed(calls, limit) && WithinLag(calls, 1000)
  }

  ghost predicate KeyOk(s: State, key: string) {
    Valid(CallsOn(s, key)) && EntryOf(s, key) == EntryAfter(TTL, CallsOn(s, key))
  }

  ghost predicate KeysOk(l: Limits, s: State) {
    && (forall t :: CallsFit(CallsOn(s, TenantKey(t)), l.TenantLimit(t)))
    && (forall e :: l.Limited(e) ==> CallsFit(CallsOn(s, EndpointKey(e)), l.endpoints[e]))
    && (forall key :: KeyOk(s, key))
  }

  /** Call number `n` on a key was admitted. */
  predicate WasAdmitted(calls: seq<Call>, n: nat) {
    n < |calls| && Valid(calls[..n + 1]) && LastExpiringAnswer(TTL, calls[..n + 1]).allowed
  }

  predicate ExecutionOk(l: Limits, s: State, x: Execution) {
    && WasAdmitted(CallsOn(s, TenantKey(x.job.tenant)), x.tenantCall)
    && x.endpointCall.Some? == l.Limited(x.job.endpoint)
    && (x.endpointCall.Some? ==> WasAdmitted(CallsOn(s, EndpointKey(x.job.endpoint)), x.endpointCall.value))
  }

  ghost predicate PassesOk(l: Limits, s: State) {
    && (forall i :: 0 <= i < |s.executions| ==> ExecutionOk(l, s, s.executions[i]))
    && (forall w :: w in s.holding ==> WasAdmitted(CallsOn(s, TenantKey(s.holding[w].job.tenant)), s.holding[w].call))
  }

  /** The call of bucket `key` that admitted an execution, if it asked that bucket. */
  function PlaceOn(x: Execution, key: string): Option<nat> {
    if TenantKey(x.job.tenant) == key then Some(x.tenantCall)
    else if EndpointKey(x.job.endpoint) == key then x.endpointCall
    else None
  }

  /** No call admits two workers. */
  ghost predicate Spent(s: State) {
    && (forall i, j, key :: 0 <= i < j < |s.executions| && PlaceOn(s.executions[i], key).Some? ==>
          PlaceOn(s.executions[i], key) != PlaceOn(s.executions[j], key))
    && (forall w, i :: w in s.holding && 0 <= i < |s.executions| ==> !SamePass(s.holding[w], s.executions[i]))
    && (forall v, w :: v in s.holding && w in s.holding && v != w ==>
          s.holding[v].job.tenant != s.holding[w].job.tenant || s.holding[v].call != s.holding[w].call)
  }

  predicate SamePass(held: Held, x: Execution) {
    x.job.tenant == held.job.tenant && x.tenantCall == held.call
  }

  ghost predicate Inv(l: Limits, s: State) {
    KeysOk(l, s) && PassesOk(l, s) && Spent(s)
  }

  // ---------------------------------------------------------------- steps keep it

  /** The limit a key is used with. */
  ghost predicate FitsKey(l: Limits, key: string, call: Call) {
    && (forall t :: key == TenantKey(t) ==> call.limit == l.TenantLimit(t))
    && (forall e :: key == EndpointKey(e) && l.Limited(e) ==> call.limit == l.endpoints[e])
  }

  lemma CallsGrow(calls: seq<Call>, limit: nat, call: Call)
    requires CallsFit(calls, limit) && call.limit == limit && call.lag <= 1000
    ensures CallsFit(calls + [call], limit)
  {
  }

  lemma ConsultFrame(s: State, key: string, call: Call)
    requires call.limit >= 1 && KeyOk(s, key)
    ensures var (allowed, s') := Consult(s, key, call);
      && s'.holding == s.holding && s'.executions == s.executions
      && CallsOn(s', key) == CallsOn(s, key) + [call]
      && (forall k :: k != key ==> CallsOn(s', k) == CallsOn(s, k) && EntryOf(s', k) == EntryOf(s, k))
      && KeyOk(s', key)
      && allowed == WasAdmitted(CallsOn(s', key), |CallsOn(s, key)|)
  {
    var calls := CallsOn(s, key);
    assert (calls + [call])[..|calls|] == calls;
    assert (calls + [call])[..|calls| + 1] == calls + [call];
  }

  lemma ConsultKeeps(l: Limits, s: State, key: string, call: Call)
    requires KeysOk(l, s) && call.limit >= 1 && call.lag <= 1000 && FitsKey(l, key, call)
    ensures KeysOk(l, Consult(s, key, call).1)
  {
    var s' := Consult(s, key, call).1;
    assert KeyOk(s, key);
    ConsultFrame(s, key, call);
    hide Consult, CallsFit, CallsOn, EntryOf, FitsKey;
    forall t ensures CallsFit(CallsOn(s', TenantKey(t)), l.TenantLimit(t)) {
      FitsTenant(l, key, call, t);
      assert CallsFit(CallsOn(s, TenantKey(t)), l.TenantLimit(t));
      if key == TenantKey(t) {
        CallsGrow(CallsOn(s, key), l.TenantLimit(t), call);
      }
    }
    forall e | l.Limited(e) ensures CallsFit(CallsOn(s', EndpointKey(e)), l.endpoints[e]) {
      FitsEndpoint(l, key, call, e);
      assert CallsFit(CallsOn(s, EndpointKey(e)), l.endpoints[e]);
      if key == EndpointKey(e) {
        CallsGrow(CallsOn(s, key), l.endpoints[e], call);
      }
    }
    forall k ensures KeyOk(s', k) {
      assert KeyOk(s, k);
    }
  }

  lemma FitsTenant(l: Limits, key: string, call: Call, t: Id)
    requires FitsKey(l, key, call)
    ensures key == TenantKey(t) ==> call.limit == l.TenantLimit(t)
  {
  }

  lemma FitsEndpoint(l: Limits, key: string, call: Call, e: Id)
    requires FitsKey(l, key, call) && l.Limited(e)
    ensures key == EndpointKey(e) ==> call.limit == l.endpoints[e]
  {
  }

  lemma TenantFits(l: Limits, t: Id, call: Call)
    requires call.limit == l.TenantLimit(t)
    ensures FitsKey(l, TenantKey(t), call)
  {
    forall u | TenantKey(t) == TenantKey(u) ensures call.limit == l.TenantLimit(u) { KeysApart(t, u); }
    forall e ensures TenantKey(t) != EndpointKey(e) { KeysApart(t, e); }
  }

  lemma EndpointFits(l: Limits, e: Id, call: Call)
    requires l.Limited(e) && call.limit == l.endpoints[e]
    ensures FitsKey(l, EndpointKey(e), call)
  {
    forall u ensures TenantKey(u) != EndpointKey(e) { KeysApart(u, e); }
    forall u | EndpointKey(e) == EndpointKey(u) ensures u == e { KeysApart(e, u); }
  }

  /** More calls leave an admission what it was. */
  lemma StillAdmitted(s: State, s': State, key: string, k: string, call: Call, n: nat)
    requires CallsOn(s', key) == CallsOn(s, key) + [call]
    requires k != key ==> CallsOn(s', k) == CallsOn(s, k)
    requires WasAdmitted(CallsOn(s, k), n)
    ensures WasAdmitted(CallsOn(s', k), n)
  {
    assert (CallsOn(s, key) + [call])[..|CallsOn(s, key)|] == CallsOn(s, key);
    if k == key {
      assert CallsOn(s', k)[..n + 1] == CallsOn(s, k)[..n + 1];
    }
  }

  lemma PassesKept(l: Limits, s: State, key: string, call: Call)
    requires PassesOk(l, s) && call.limit >= 1 && KeyOk(s, key)
    ensures PassesOk(l, Consult(s, key, call).1)
  {
    var s' := Consult(s, key, call).1;
    ConsultFrame(s, key, call);
    hide Consult, WasAdmitted, CallsOn;
    forall i | 0 <= i < |s'.executions| ensures ExecutionOk(l, s', s'.executions[i]) {
      var x := s.executions[i];
      assert ExecutionOk(l, s, x);
      StillAdmitted(s, s', key, TenantKey(x.job.tenant), call, x.tenantCall);
      if x.endpointCall.Some? {
        StillAdmitted(s, s', key, EndpointKey(x.job.endpoint), call, x.endpointCall.value);
      }
    }
    forall w | w in s'.holding ensures WasAdmitted(CallsOn(s', TenantKey(s'.holding[w].job.tenant)),
      s'.holding[w].call) {
      StillAdmitted(s, s', key, TenantKey(s.holding[w].job.tenant), call, s.holding[w].call);
    }
  }

  lemma PlacesKnown(l: Limits, s: State, x: Execution, key: string)
    requires ExecutionOk(l, s, x) && PlaceOn(x, key).Some?
    ensures WasAdmitted(CallsOn(s, key), PlaceOn(x, key).value)
  {
    if TenantKey(x.job.tenant) != key {
      assert EndpointKey(x.job.endpoint) == key;
    }
  }

  /** The execution uses calls that no other execution and no worker has used. */
  ghost predicate NewPass(s: State, x: Execution) {
    && (forall i, key :: 0 <= i < |s.executions| && PlaceOn(s.executions[i], key).Some? ==>
         PlaceOn(s.executions[i], key) != PlaceOn(x, key))
    && (forall w :: w in s.holding ==> !SamePass(s.holding[w], x))
  }

  /** The buckets and their calls are the same. */
  predicate SameBuckets(s: State, s': State) {
    s'.history == s.history && s'.store == s.store
  }

  lemma KeysSame(l: Limits, s: State, s': State)
    requires KeysOk(l, s) && SameBuckets(s, s')
    ensures KeysOk(l, s')
  {
    SameCalls(s, s');
    hide CallsOn, EntryOf, CallsFit, TenantKey, EndpointKey;
    forall key ensures KeyOk(s', key) {
      assert KeyOk(s, key);
    }
  }

  lemma SameCalls(s: State, s': State)
    requires SameBuckets(s, s')
    ensures forall key :: CallsOn(s', key) == CallsOn(s, key) && EntryOf(s', key) == EntryOf(s, key)
  {
  }

  lemma PassesSame(l: Limits, s: State, s': State)
    requires PassesOk(l, s) && SameBuckets(s, s')
    requires forall i :: 0 <= i < |s'.executions| ==> ExecutionOk(l, s, s'.executions[i])
    requires forall w :: w in s'.holding ==>
      WasAdmitted(CallsOn(s, TenantKey(s'.holding[w].job.tenant)), s'.holding[w].call)
    ensures PassesOk(l, s')
  {
    SameCalls(s, s');
    hide CallsOn, EntryOf, WasAdmitted, TenantKey, EndpointKey;
  }

  lemma ExecutionAdded(l: Limits, s: State, x: Execution)
    requires Inv(l, s) && ExecutionOk(l, s, x) && NewPass(s, x)
    ensures Inv(l, s.(executions := s.executions + [x]))
  {
    var s' := s.(executions := s.executions + [x]);
    hide KeysOk, ExecutionOk, WasAdmitted, CallsOn, TenantKey, EndpointKey, PlaceOn;
    KeysSame(l, s, s');
    PassesSame(l, s, s');
  }

  lemma HolderAdded(l: Limits, s: State, w: nat, held: Held)
    requires Inv(l, s) && w !in s.holding
    requires WasAdmitted(CallsOn(s, TenantKey(held.job.tenant)), held.call)
    requires forall i :: 0 <= i < |s.executions| ==> !SamePass(held, s.executions[i])
    requires forall v :: v in s.holding ==> s.holding[v].job.tenant != held.job.tenant || s.holding[v].call != held.call
    ensures Inv(l, s.(holding := s.holding[w := held]))
  {
    var s' := s.(holding := s.holding[w := held]);
    hide KeysOk, ExecutionOk, WasAdmitted, CallsOn, TenantKey, EndpointKey, PlaceOn;
    KeysSame(l, s, s');
    PassesSame(l, s, s');
  }

  lemma HolderGone(l: Limits, s: State, w: nat)
    requires Inv(l, s)
    ensures Inv(l, s.(holding := s.holding - {w}))
  {
    var s' := s.(holding := s.holding - {w});
    hide KeysOk, ExecutionOk, WasAdmitted, CallsOn, TenantKey, EndpointKey, PlaceOn;
    KeysSame(l, s, s');
    PassesSame(l, s, s');
  }

  /** Consulting a bucket keeps the invariant, and the call it made is new. */
  lemma ConsultInv(l: Limits, s: State, key: string, call: Call)
    requires Inv(l, s) && call.limit >= 1 && call.lag <= 1000 && FitsKey(l, key, call)
    ensures var (allowed, s') := Consult(s, key, call);
      && Inv(l, s')
      && s'.holding == s.holding && s'.executions == s.executions
      && allowed == WasAdmitted(CallsOn(s', key), |CallsOn(s, key)|)
      && (forall k, n :: WasAdmitted(CallsOn(s, k), n) ==> WasAdmitted(CallsOn(s', k), n))
  {
    var s' := Consult(s, key, call).1;
    assert KeyOk(s, key);
    ConsultKeeps(l, s, key, call);
    ConsultFrame(s, key, call);
    PassesKept(l, s, key, call);
    hide Consult, WasAdmitted, CallsOn, KeysOk, PassesOk;
    forall k, n | WasAdmitted(CallsOn(s, k), n) ensures WasAdmitted(CallsOn(s', k), n) {
      StillAdmitted(s, s', key, k, call, n);
    }
  }

  lemma NewCallIsFree(l: Limits, s: State, key: string)
    requires PassesOk(l, s)
    ensures forall i :: 0 <= i < |s.executions| ==> PlaceOn(s.executions[i], key) != Some(|CallsOn(s, key)|)
    ensures forall w :: w in s.holding && TenantKey(s.holding[w].job.tenant) == key ==>
      s.holding[w].call != |CallsOn(s, key)|
  {
    forall i | 0 <= i < |s.executions| ensures PlaceOn(s.executions[i], key) != Some(|CallsOn(s, key)|) {
      assert ExecutionOk(l, s, s.executions[i]);
      if PlaceOn(s.executions[i], key).Some? {
        PlacesKnown(l, s, s.executions[i], key);
      }
    }
  }

  lemma TenantStep(l: Limits, s: State, w: nat, job: Job, now: int, lag: nat)
    requires l.Valid() && Inv(l, s) && Enabled(l, s, CheckTenant(w, job, now, lag))
    ensures Inv(l, DoCheckTenant(l, s, w, job, now, lag))
  {
    var key, call := TenantKey(job.tenant), Call(l.TenantLimit(job.tenant), now, lag);
    var n := |CallsOn(s, key)|;
    TenantFits(l, job.tenant, call);
    ConsultInv(l, s, key, call);
    NewCallIsFree(l, s, key);
    var (allowed, s') := Consult(s, key, call);
    if allowed {
      hide Consult, WasAdmitted, CallsOn, KeysOk, PassesOk, KeyOk, FitsKey, Spent;
      if l.Limited(job.endpoint) {
        forall i | 0 <= i < |s'.executions| ensures !SamePass(Held(job, n), s'.executions[i]) {
          assert PlaceOn(s.executions[i], key) != Some(n);
        }
        HolderAdded(l, s', w, Held(job, n));
      } else {
        var x := Execution(job, n, None);
        TenantPassIsNew(s', x);
        ExecutionAdded(l, s', x);
      }
    }
  }

  /** A pass of the tenant's bucket alone is new when its call is. */
  lemma TenantPassIsNew(s: State, x: Execution)
    requires x.endpointCall.None?
    requires forall i :: 0 <= i < |s.executions| ==>
      PlaceOn(s.executions[i], TenantKey(x.job.tenant)) != Some(x.tenantCall)
    requires forall w :: w in s.holding && TenantKey(s.holding[w].job.tenant) == TenantKey(x.job.tenant) ==>
      s.holding[w].call != x.tenantCall
    ensures NewPass(s, x)
  {
  }

  lemma EndpointStep(l: Limits, s: State, w: nat, now: int, lag: nat)
    requires l.Valid() && Inv(l, s) && Enabled(l, s, CheckEndpoint(w, now, lag))
    ensures Inv(l, DoCheckEndpoint(l, s, w, now, lag))
  {
    var held := s.holding[w];
    var key, call := EndpointKey(held.job.endpoint), Call(l.endpoints[held.job.endpoint], now, lag);
    var n := |CallsOn(s, key)|;
    hide Consult, WasAdmitted, CallsOn, KeysOk, KeyOk, FitsKey, TenantKey, EndpointKey, PlaceOn;
    EndpointFits(l, held.job.endpoint, call);
    ConsultInv(l, s, key, call);
    NewCallIsFree(l, s, key);
    var (allowed, s1) := Consult(s, key, call);
    HolderGone(l, s1, w);
    if allowed {
      var s2, x := s1.(holding := s1.holding - {w}), Execution(held.job, held.call, Some(n));
      SameCalls(s1, s2);
      assert WasAdmitted(CallsOn(s, TenantKey(held.job.tenant)), held.call);
      BothPassesAreNew(s, s2, w, x);
      hide PassesOk, Spent;
      ExecutionAdded(l, s2, x);
    }
  }

  lemma BothPassesAreNew(s: State, s': State, w: nat, x: Execution)
    requires Spent(s) && w in s.holding && x.job == s.holding[w].job && x.tenantCall == s.holding[w].call
    requires s'.executions == s.executions && s'.holding == s.holding - {w}
    requires forall i :: 0 <= i < |s.executions| ==>
      PlaceOn(s.executions[i], EndpointKey(x.job.endpoint)) != x.endpointCall
    ensures NewPass(s', x)
  {
    forall i, key | 0 <= i < |s'.executions| && PlaceOn(s'.executions[i], key).Some?
      ensures PlaceOn(s'.executions[i], key) != PlaceOn(x, key)
    {
      var y := s.executions[i];
      KeysApart(x.job.tenant, y.job.tenant);
      KeysApart(y.job.tenant, x.job.endpoint);
      KeysApart(x.job.tenant, y.job.endpoint);
      assert !SamePass(s.holding[w], y);
    }
  }

  lemma {:induction false} RunKeepsInv(l: Limits, states: seq<State>, steps: seq<Step>, i: nat)
    requires l.Valid() && Run(l, states, steps) && i < |states|
    ensures Inv(l, states[i])
  {
    if i > 0 {
      RunKeepsInv(l, states, steps, i - 1);
      var s := states[i - 1];
      match steps[i - 1]
      case CheckTenant(w, job, now, lag) => TenantStep(l, s, w, job, now, lag);
      case CheckEndpoint(w, now, lag) => EndpointStep(l, s, w, now, lag);
      case Crash(w) => HolderGone(l, s, w);
    }
  }

  // ---------------------------------------------------------------- counting

  /** The executor calls that calls `lo` to `hi` of bucket `key` admitted. */
  function Executed(s: State, key: string, lo: nat, hi: nat): set<nat> {
    set i: nat | i < |s.executions| && IsAdmittedBy(s.executions[i], key, lo, hi)
  }

  predicate IsAdmittedBy(x: Execution, key: string, lo: nat, hi: nat) {
    PlaceOn(x, key).Some? && lo <= PlaceOn(x, key).value < hi
  }

  function AdmittedCalls(calls: seq<Call>, lo: nat, hi: nat): set<nat> {
    set n: nat | lo <= n < hi && WasAdmitted(calls, n)
  }

  lemma {:induction false} CountAdmitted(calls: seq<Call>, lo: nat, hi: nat)
    requires lo <= hi <= |calls| && Valid(calls)
    ensures Valid(calls[..lo]) && Valid(calls[lo..hi])
    ensures |AdmittedCalls(calls, lo, hi)| == AdmittedByStore(TTL, calls[..lo], calls[lo..hi])
  {
    hide *;
    SliceValid(calls, lo, hi);
    if lo == hi {
      assert calls[lo..hi] == [];
      NoneAdmitted(calls[..lo]);
      NoCalls(calls, lo);
    } else {
      var stretch := calls[lo..hi];
      assert stretch[..|stretch| - 1] == calls[lo..hi - 1];
      assert calls[..lo] + stretch == calls[..hi];
      CountAdmitted(calls, lo, hi - 1);
      StoreCount(calls[..lo], stretch);
      AdmittedGrows(calls, lo, hi);
      AdmittedIs(calls, hi - 1);
    }
  }

  lemma SliceValid(calls: seq<Call>, lo: nat, hi: nat)
    requires lo <= hi <= |calls| && Valid(calls)
    ensures Valid(calls[..lo]) && Valid(calls[lo..hi]) && Valid(calls[..hi])
  {
  }

  lemma NoCalls(calls: seq<Call>, lo: nat)
    ensures AdmittedCalls(calls, lo, lo) == {}
  {
  }

  lemma AdmittedIs(calls: seq<Call>, n: nat)
    requires n < |calls| && Valid(calls[..n + 1])
    ensures WasAdmitted(calls, n) == LastExpiringAnswer(TTL, calls[..n + 1]).allowed
  {
    hide LastExpiringAnswer;
  }

  lemma AdmittedGrows(calls: seq<Call>, lo: nat, hi: nat)
    requires lo < hi
    ensures |AdmittedCalls(calls, lo, hi)|
      == |AdmittedCalls(calls, lo, hi - 1)| + if WasAdmitted(calls, hi - 1) then 1 else 0
  {
    assert AdmittedCalls(calls, lo, hi) ==
      AdmittedCalls(calls, lo, hi - 1) + if WasAdmitted(calls, hi - 1) then {hi - 1} else {};
    hide WasAdmitted;
  }

  /** The calls of a time window are a stretch. */
  lemma {:induction false} Window(calls: seq<Call>, from: int, to: int) returns (lo: nat, hi: nat)
    requires Ordered(calls)
    ensures lo <= hi <= |calls|
    ensures forall n :: 0 <= n < |calls| && from <= calls[n].now <= to ==> lo <= n < hi
    ensures forall n :: lo <= n < hi ==> from <= calls[n].now <= to
  {
    if calls == [] {
      lo, hi := 0, 0;
    } else {
      var last := |calls| - 1;
      lo, hi := Window(calls[..last], from, to);
      if from <= calls[last].now <= to {
        if lo == hi {
          lo := last;
        } else {
          assert from <= calls[..last][lo].now;
          assert forall n :: lo <= n < last ==> from <= calls[..last][n].now <= to;
        }
        hi := last + 1;
      }
    }
  }

  lemma {:induction false} InjectionBound(s: State, key: string, indices: set<nat>, places: set<nat>)
    requires Spent(s)
    requires forall i :: i in indices ==>
      i < |s.executions| && PlaceOn(s.executions[i], key).Some? && PlaceOn(s.executions[i], key).value in places
    ensures |indices| <= |places|
  {
    if indices != {} {
      var i :| i in indices;
      var n := PlaceOn(s.executions[i], key).value;
      InjectionBound(s, key, indices - {i}, places - {n});
    }
  }

  /** The executor calls that a stretch of a bucket's calls admits stay within the
      bound of that stretch. */
  lemma KeyBound(l: Limits, s: State, key: string, limit: nat, lo: nat, hi: nat)
    requires KeyOk(s, key) && PassesOk(l, s) && Spent(s)
    requires limit >= 1 && lo <= hi <= |CallsOn(s, key)| && CallsFit(CallsOn(s, key), limit)
    ensures |Executed(s, key, lo, hi)| as real <= limit as real + Gain(limit, Rise(CallsOn(s, key)[lo..hi]))
  {
    var calls := CallsOn(s, key);
    assert Valid(calls);
    hide *;
    ExecutedPlaces(l, s, key, lo, hi);
    InjectionBound(s, key, Executed(s, key, lo, hi), AdmittedCalls(calls, lo, hi));
    CountAdmitted(calls, lo, hi);
    StretchBound(calls, lo, hi, limit);
  }

  lemma ExecutedPlaces(l: Limits, s: State, key: string, lo: nat, hi: nat)
    requires PassesOk(l, s)
    ensures forall i :: i in Executed(s, key, lo, hi) ==>
      i < |s.executions| && PlaceOn(s.executions[i], key).Some?
      && PlaceOn(s.executions[i], key).value in AdmittedCalls(CallsOn(s, key), lo, hi)
  {
    hide LastExpiringAnswer, TenantKey, EndpointKey;
    forall i | i in Executed(s, key, lo, hi)
      ensures PlaceOn(s.executions[i], key).value in AdmittedCalls(CallsOn(s, key), lo, hi) {
      assert ExecutionOk(l, s, s.executions[i]);
      PlacesKnown(l, s, s.executions[i], key);
    }
  }

  lemma StretchBound(calls: seq<Call>, lo: nat, hi: nat, limit: nat)
    requires limit >= 1 && CallsFit(calls, limit) && lo <= hi <= |calls|
    requires Valid(calls[..lo]) && Valid(calls[lo..hi])
    ensures AdmittedByStore(TTL, calls[..lo], calls[lo..hi]) as real <= limit as real + Gain(limit, Rise(calls[lo..hi]))
  {
    hide *;
    if lo < hi {
      StretchParts(calls, lo, hi, limit);
      StoreBound(calls[..lo], calls[lo..hi], limit);
    } else {
      assert calls[lo..hi] == [];
      NoneAdmitted(calls[..lo]);
      GainAdds(limit, Rise(calls[lo..hi]), 0);
    }
  }

  lemma StretchParts(calls: seq<Call>, lo: nat, hi: nat, limit: nat)
    requires lo <= hi <= |calls| && CallsFit(calls, limit)
    ensures WithinLag(calls[..lo] + calls[lo..hi], 1000) && Fixed(calls[lo..hi], limit)
  {
    assert calls[..lo] + calls[lo..hi] == calls[..hi];
  }

  function TenantExecutions(s: State, t: Id, lo: nat, hi: nat): set<nat> {
    set i: nat | i < |s.executions| && s.executions[i].job.tenant == t && lo <= s.executions[i].tenantCall < hi
  }

  function EndpointExecutions(s: State, e: Id, lo: nat, hi: nat): set<nat> {
    set i: nat | i < |s.executions| && s.executions[i].job.endpoint == e
      && IsPlace(s.executions[i].endpointCall, lo, hi)
  }

  predicate IsPlace(call: Option<nat>, lo: nat, hi: nat) {
    call.Some? && lo <= call.value < hi
  }

  /** Over whole runs of any number of workers, in whatever order their scripts run,
      the executor calls for a tenant that any stretch of its bucket's calls admits
      number at most its limit plus the refill of the increases of the readings, and
      those for a limited endpoint likewise, although the endpoint's bucket is asked
      only after the tenant's allows.  Every executor call was admitted by a call of
      its tenant's bucket, and by one of its endpoint's exactly if that has a limit,
      and no call of a bucket admits two. */
  lemma SendsObeyBothLimits(l: Limits, states: seq<State>, steps: seq<Step>, k: nat, t: Id, e: Id, lo: nat, hi: nat)
    requires l.Valid() && Run(l, states, steps) && k < |states| && lo <= hi
    ensures var s, calls := states[k], CallsOn(states[k], TenantKey(t));
      hi <= |calls| ==>
        |TenantExecutions(s, t, lo, hi)| as real
          <= l.TenantLimit(t) as real + Gain(l.TenantLimit(t), Rise(calls[lo..hi]))
    ensures var s, calls := states[k], CallsOn(states[k], EndpointKey(e));
      l.Limited(e) && hi <= |calls| ==>
        |EndpointExecutions(s, e, lo, hi)| as real <= l.endpoints[e] as real + Gain(l.endpoints[e], Rise(calls[lo..hi]))
    ensures var s := states[k];
      && (forall i :: 0 <= i < |s.executions| ==> ExecutionOk(l, s, s.executions[i]))
      && (forall i, j, key :: 0 <= i < j < |s.executions| && PlaceOn(s.executions[i], key).Some? ==>
            PlaceOn(s.executions[i], key) != PlaceOn(s.executions[j], key))
  {
    var s := states[k];
    RunKeepsInv(l, states, steps, k);
    hide Run, Next, Enabled, Gain, Rise, AdmittedByStore;
    if hi <= |CallsOn(s, TenantKey(t))| {
      KeyBound(l, s, TenantKey(t), l.TenantLimit(t), lo, hi);
      OfTenant(s, t, lo, hi);
    }
    if l.Limited(e) && hi <= |CallsOn(s, EndpointKey(e))| {
      KeyBound(l, s, EndpointKey(e), l.endpoints[e], lo, hi);
      OfEndpoint(s, e, lo, hi);
    }
  }

  lemma OfTenant(s: State, t: Id, lo: nat, hi: nat)
    ensures TenantExecutions(s, t, lo, hi) == Executed(s, TenantKey(t), lo, hi)
  {
    forall i: nat | i < |s.executions| ensures
      (s.executions[i].job.tenant == t && lo <= s.executions[i].tenantCall < hi) <==>
        IsAdmittedBy(s.executions[i], TenantKey(t), lo, hi)
    {
      KeysApart(s.executions[i].job.tenant, t);
      KeysApart(t, s.executions[i].job.endpoint);
    }
  }

  lemma OfEndpoint(s: State, e: Id, lo: nat, hi: nat)
    ensures EndpointExecutions(s, e, lo, hi) == Executed(s, EndpointKey(e), lo, hi)
  {
    forall i: nat | i < |s.executions| ensures
      (s.executions[i].job.endpoint == e && IsPlace(s.executions[i].endpointCall, lo, hi)) <==>
        IsAdmittedBy(s.executions[i], EndpointKey(e), lo, hi)
    {
      KeysApart(s.executions[i].job.tenant, e);
      KeysApart(e, s.executions[i].job.endpoint);
    }
  }

  // ---------------------------------------------------------------- windows

  /** The executor calls for a tenant whose clock was read in a time window. */
  function TenantWindow(s: State, t: Id, from: int, to: int): set<nat> {
    set i: nat | i < |s.executions| && s.executions[i].job.tenant == t
      && ReadIn(CallsOn(s, TenantKey(t)), s.executions[i].tenantCall, from, to)
  }

  /** And those for an endpoint. */
  function EndpointWindow(s: State, e: Id, from: int, to: int): set<nat> {
    set i: nat | i < |s.executions| && s.executions[i].job.endpoint == e && s.executions[i].endpointCall.Some?
      && ReadIn(CallsOn(s, EndpointKey(e)), s.executions[i].endpointCall.value, from, to)
  }

  predicate ReadIn(calls: seq<Call>, n: nat, from: int, to: int) {
    n < |calls| && from <= calls[n].now <= to
  }

  /** If the calls of a tenant's bucket were read in order, the executor calls that they
      admit in a time window number at most the limit plus the refill over the window; and
      likewise for the bucket of a limited endpoint. */
  lemma OrderedWindowBound(l: Limits, states: seq<State>, steps: seq<Step>, k: nat, t: Id, e: Id, from: int, to: int)
    requires l.Valid() && Run(l, states, steps) && k < |states| && from <= to
    ensures Ordered(CallsOn(states[k], TenantKey(t))) ==>
      |TenantWindow(states[k], t, from, to)| as real
        <= l.TenantLimit(t) as real + Gain(l.TenantLimit(t), Elapsed(from, to))
    ensures l.Limited(e) && Ordered(CallsOn(states[k], EndpointKey(e))) ==>
      |EndpointWindow(states[k], e, from, to)| as real
        <= l.endpoints[e] as real + Gain(l.endpoints[e], Elapsed(from, to))
  {
    var s := states[k];
    hide *;
    if Ordered(CallsOn(s, TenantKey(t))) {
      var calls := CallsOn(s, TenantKey(t));
      var lo, hi := Window(calls, from, to);
      SendsObeyBothLimits(l, states, steps, k, t, e, lo, hi);
      TenantStretch(s, t, from, to, lo, hi);
      WindowRise(calls, from, to, lo, hi, l.TenantLimit(t));
    }
    if l.Limited(e) && Ordered(CallsOn(s, EndpointKey(e))) {
      var calls := CallsOn(s, EndpointKey(e));
      var lo, hi := Window(calls, from, to);
      SendsObeyBothLimits(l, states, steps, k, t, e, lo, hi);
      EndpointStretch(s, e, from, to, lo, hi);
      WindowRise(calls, from, to, lo, hi, l.endpoints[e]);
    }
  }

  /** The calls from `lo` to `hi` are those read in the window. */
  ghost predicate IsStretch(calls: seq<Call>, from: int, to: int, lo: nat, hi: nat) {
    && lo <= hi <= |calls|
    && (forall n :: 0 <= n < |calls| && from <= calls[n].now <= to ==> lo <= n < hi)
    && (forall n :: lo <= n < hi ==> from <= calls[n].now <= to)
  }

  lemma TenantStretch(s: State, t: Id, from: int, to: int, lo: nat, hi: nat)
    requires IsStretch(CallsOn(s, TenantKey(t)), from, to, lo, hi)
    ensures TenantWindow(s, t, from, to) == TenantExecutions(s, t, lo, hi)
  {
    hide CallsOn, TenantKey;
  }

  lemma EndpointStretch(s: State, e: Id, from: int, to: int, lo: nat, hi: nat)
    requires IsStretch(CallsOn(s, EndpointKey(e)), from, to, lo, hi)
    ensures EndpointWindow(s, e, from, to) == EndpointExecutions(s, e, lo, hi)
  {
    hide CallsOn, EndpointKey;
  }

  lemma WindowRise(calls: seq<Call>, from: int, to: int, lo: nat, hi: nat, limit: nat)
    requires Ordered(calls) && from <= to && IsStretch(calls, from, to, lo, hi)
    ensures Gain(limit, Rise(calls[lo..hi])) <= Gain(limit, Elapsed(from, to))
  {
    assert Ordered(calls[lo..hi]) && InWindow(calls[lo..hi], from, to);
    hide *;
    RiseFits(calls[lo..hi], from, to);
    GainGrows(limit, Rise(calls[lo..hi]), Elapsed(from, to));
  }

  lemma RiseFits(calls: seq<Call>, from: int, to: int)
    requires Ordered(calls) && InWindow(calls, from, to) && from <= to
    ensures Rise(calls) <= Elapsed(from, to)
  {
    if |calls| > 0 {
      RiseTelescopes(calls);
      hide Rise;
    }
  }

  // ---------------------------------------------------------------- swapped readings

  const LIMITS: Limits := Limits(map["t" := 1], map[])
  const JOB: Job := Job.Job("t", "e")
  const KEY: string := TenantKey("t")

  /** Every other worker read the clock a second before its script runs. */
  function Reading(i: nat): Call {
    if i % 2 == 0 then Call(1, 1000, 0) else Call(1, 0, 1000)
  }

  function Readings(n: nat): (calls: seq<Call>)
    ensures |calls| == n
  {
    if n == 0 then [] else Readings(n - 1) + [Reading(n - 1)]
  }

  /** The executor calls after `n` checks: one for each even one. */
  function Runs(n: nat): (executions: seq<Execution>)
    ensures |executions| == (n + 1) / 2
  {
    if n == 0 then [] else if n % 2 == 1 then Runs(n - 1) + [Execution(JOB, n - 1, None)] else Runs(n - 1)
  }

  function Swapped(n: nat): State {
    if n == 0 then State(0, map[], map[], [], map[])
    else State(1000, map[KEY := Entry(Bucket(0.0, Reading(n - 1).now), 3000)], map[], Runs(n), map[KEY := Readings(n)])
  }

  function StepAt(n: nat): Step {
    CheckTenant(0, JOB, Reading(n).now, Reading(n).lag)
  }

  lemma CheckAt(n: nat)
    ensures CheckEntry(TTL, EntryOf(Swapped(n), KEY), Reading(n)) ==
      (Answer(n % 2 == 0, if n % 2 == 0 then 0 else 1000, 1), Entry(Bucket(0.0, Reading(n).now), 3000))
  {
    hide Runs, Readings, TenantKey;
    assert Gain(1, 1000) == 1.0 && Gain(1, 0) == 0.0;
  }

  lemma SwapStep(n: nat)
    ensures Enabled(LIMITS, Swapped(n), StepAt(n))
      && DoCheckTenant(LIMITS, Swapped(n), 0, JOB, Reading(n).now, Reading(n).lag) == Swapped(n + 1)
  {
    CheckAt(n);
    hide CheckEntry, TenantKey;
    assert CallsOn(Swapped(n), KEY) == Readings(n);
    assert LIMITS.TenantLimit("t") == 1;
    assert DoCheckTenant(LIMITS, Swapped(n), 0, JOB, Reading(n).now, Reading(n).lag).store == Swapped(n + 1).store;
    assert DoCheckTenant(LIMITS, Swapped(n), 0, JOB, Reading(n).now, Reading(n).lag).history == Swapped(n + 1).history;
  }

  /** The window bound fails when scripts run in another order than their clocks were
      read: at limit 1, any number of executor calls can have readings in the same
      second, where two would be allowed. */
  lemma SwappedReadings(n: nat) returns (states: seq<State>, steps: seq<Step>)
    ensures LIMITS.Valid() && Run(LIMITS, states, steps) && LIMITS.TenantLimit("t") == 1
    ensures |states| > 0 && |TenantWindow(states[|states| - 1], "t", 0, 1000)| == n
  {
    var m := 2 * n;
    states, steps := seq(m + 1, i requires 0 <= i <= m => Swapped(i)), seq(m, i requires 0 <= i < m => StepAt(i));
    forall i | 0 <= i < |steps| ensures Enabled(LIMITS, states[i], steps[i])
      && states[i + 1] == Next(LIMITS, states[i], steps[i]) {
      SwapStep(i);
    }
    AllInWindow(m);
    hide TenantWindow;
  }

  lemma AllInWindow(n: nat)
    ensures |TenantWindow(Swapped(n), "t", 0, 1000)| == (n + 1) / 2
  {
    RunsAre(n);
    ReadingsAre(n);
    assert TenantWindow(Swapped(n), "t", 0, 1000) == Below((n + 1) / 2);
  }

  function Below(n: nat): (numbers: set<nat>)
    ensures |numbers| == n && forall i: nat :: i in numbers <==> i < n
  {
    if n == 0 then {} else Below(n - 1) + {n - 1}
  }

  lemma {:induction false} RunsAre(n: nat)
    ensures forall i :: 0 <= i < (n + 1) / 2 ==> Runs(n)[i] == Execution(JOB, 2 * i, None)
  {
    if n > 0 {
      RunsAre(n - 1);
    }
  }

  lemma {:induction false} ReadingsAre(n: nat)
    ensures forall i :: 0 <= i < n ==> Readings(n)[i] == Reading(i)
  {
    if n > 0 {
      ReadingsAre(n - 1);
    }
  }
}
