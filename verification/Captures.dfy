/**
 Website captures as rows of one table: the limits, the life of a row, and what each
 transaction of backend/app/screenshots/service.py does to the table.

 Times are whole seconds on one clock. Identifiers are numbers.
 */
module Captures {
  import opened Prelude

  type Time = int
  type CaptureId = nat
  type JobId = nat
  type Tenant = nat
  type Endpoint = nat
  type Pool = string

  const DISPATCH_GRACE: Time := 600
  const START_WINDOW: Time := 600
  const HARD_LIMIT_GRACE: Time := 300
  const RESULT_TRAVEL: Time := 60
  const DAY: Time := 86400
  const DEFAULT_POOL: Pool := "default"

  datatype Policy = Policy(
    available: bool, maxConcurrent: nat, perTenantDaily: nat, perTenantQueued: nat, timeoutSeconds: int)

  datatype Status = Queued | Running | Succeeded | Failed | Blocked | Cancelled

  datatype Capture = Capture(
    tenant: Tenant,
    asset: Endpoint,
    createdAt: Time,
    status: Status,
    startedAt: Option<Time>,
    dispatchedAt: Option<Time>,
    slotUntil: Option<Time>,
    taskId: Option<JobId>,
    pool: Option<Pool>)

  type Table = map<CaptureId, Capture>

  function JobTimeout(p: Policy): Time {
    Max(60, p.timeoutSeconds * 3 + 60)
  }

  /** The instant, after its start, at which the broker kills a job outright. */
  function HardLimit(timeout: Time): Time {
    timeout + HARD_LIMIT_GRACE
  }

  function SlotHold(p: Policy): Time {
    START_WINDOW + JobTimeout(p) + HARD_LIMIT_GRACE + RESULT_TRAVEL
  }

  predicate Active(s: Status) {
    s.Queued? || s.Running?
  }

  predicate Occupied(c: Capture, now: Time) {
    c.status.Running? || (c.slotUntil.Some? && c.slotUntil.value > now)
  }

  function OccupiedIds(rows: Table, now: Time): set<CaptureId> {
    set i | i in rows && Occupied(rows[i], now)
  }

  function ActiveOf(rows: Table, t: Tenant): set<CaptureId> {
    set i | i in rows && rows[i].tenant == t && Active(rows[i].status)
  }

  predicate EndpointBusy(rows: Table, a: Endpoint) {
    exists i :: i in rows && rows[i].asset == a && Active(rows[i].status)
  }

  // ------------------------------------------------------------------ requests

  /** A tenant and a UTC day. */
  type DayKey = (Tenant, int)
  type Usage = map<DayKey, nat>

  function Day(t: Time): int {
    t / DAY
  }

  function Used(usage: Usage, t: Tenant, day: int): nat {
    if (t, day) in usage then usage[(t, day)] else 0
  }

  predicate Admits(rows: Table, usage: Usage, p: Policy, t: Tenant, a: Endpoint, now: Time, enabled: bool, authorized: bool) {
    && p.available && enabled
    && !EndpointBusy(rows, a)
    && |ActiveOf(rows, t)| < p.perTenantQueued
    && Used(usage, t, Day(now)) < p.perTenantDaily
    && authorized
  }

  function Charge(usage: Usage, t: Tenant, now: Time): Usage {
    usage[(t, Day(now)) := Used(usage, t, Day(now)) + 1]
  }

  /** Nothing ran and the day is still the one it was counted on. */
  predicate GivesBack(c: Capture, now: Time) {
    c.status.Queued? && Day(c.createdAt) == Day(now)
  }

  function Refund(usage: Usage, c: Capture, now: Time): Usage {
    if GivesBack(c, now) then usage[(c.tenant, Day(now)) := Max(Used(usage, c.tenant, Day(now)) - 1, 0)] else usage
  }

  function NewCapture(t: Tenant, a: Endpoint, now: Time): Capture {
    Capture(t, a, now, Queued, None, None, None, None, None)
  }

  function Cancel(c: Capture): Capture {
    if Active(c.status) then c.(status := Cancelled) else c
  }

  // --------------------------------------------------------------- dispatching

  predicate StartedBefore(c: Capture, t: Time) {
    c.startedAt.Some? && c.startedAt.value < t
  }

  predicate Overdue(c: Capture, p: Policy, now: Time) {
    && c.status.Running?
    && (|| (c.dispatchedAt.None? && StartedBefore(c, now - DISPATCH_GRACE))
        || (c.slotUntil.Some? && c.slotUntil.value < now)
        || (c.slotUntil.None? && StartedBefore(c, now - SlotHold(p))))
  }

  /** Rows another transaction holds a lock on are skipped. */
  function Watchdog(rows: Table, p: Policy, now: Time, locked: set<CaptureId>): (r: Table)
    ensures r.Keys == rows.Keys
  {
    map i | i in rows ::
      if i !in locked && Overdue(rows[i], p, now) then rows[i].(status := Failed) else rows[i]
  }

  predicate Waiting(rows: Table, locked: set<CaptureId>, i: CaptureId) {
    i in rows && rows[i].status.Queued? && i !in locked
  }

  /** `queue` is what "the oldest `limit` unlocked queued rows" may return; rows created at the same instant come in any order. */
  ghost predicate IsQueueHead(rows: Table, locked: set<CaptureId>, limit: nat, queue: seq<CaptureId>) {
    && Distinct(queue)
    && |queue| <= limit
    && (forall k :: 0 <= k < |queue| ==> Waiting(rows, locked, queue[k]))
    && (forall k, l :: 0 <= k < l < |queue| ==> rows[queue[k]].createdAt <= rows[queue[l]].createdAt)
    && (forall i :: Waiting(rows, locked, i) && i !in queue ==>
          |queue| == limit && forall k :: 0 <= k < |queue| ==> rows[queue[k]].createdAt <= rows[i].createdAt)
  }

  function FirstPerTenant(rows: Table, queue: seq<CaptureId>, seen: set<Tenant>): (r: seq<CaptureId>)
    requires forall i :: i in queue ==> i in rows
    ensures forall i :: i in r ==> i in queue
  {
    if queue == [] then []
    else
      var rest := queue[1..];
      var t := rows[queue[0]].tenant;
      if t in seen then FirstPerTenant(rows, rest, seen)
      else [queue[0]] + FirstPerTenant(rows, rest, seen + {t})
  }

  function Without(queue: seq<CaptureId>, picked: seq<CaptureId>): seq<CaptureId> {
    if queue == [] then []
    else if queue[0] in picked then Without(queue[1..], picked)
    else [queue[0]] + Without(queue[1..], picked)
  }

  /** One capture per tenant first, then the others in the order they were made. */
  function ServingOrder(rows: Table, queue: seq<CaptureId>): seq<CaptureId>
    requires forall i :: i in queue ==> i in rows
  {
    var first := FirstPerTenant(rows, queue, {});
    first + Without(queue, first)
  }

  function Picked(rows: Table, queue: seq<CaptureId>, free: nat): seq<CaptureId>
    requires forall i :: i in queue ==> i in rows
  {
    var order := ServingOrder(rows, queue);
    order[..Min(free, |order|)]
  }

  function TakeSlot(c: Capture, p: Policy, now: Time, job: JobId): Capture {
    c.(status := Running, startedAt := Some(now), taskId := Some(job), slotUntil := Some(now + SlotHold(p)))
  }

  /** The picked rows take a slot each, with consecutive new job numbers. */
  function TakeSlots(rows: Table, p: Policy, now: Time, picked: seq<CaptureId>, job: JobId): (r: Table)
    requires forall i :: i in picked ==> i in rows
    ensures r.Keys == rows.Keys
  {
    if picked == [] then rows
    else TakeSlots(rows[picked[0] := TakeSlot(rows[picked[0]], p, now, job)], p, now, picked[1..], job + 1)
  }

  /** Free slots after the watchdog, as the reserving transaction counts them. */
  function FreeSlots(rows: Table, p: Policy, now: Time): int {
    p.maxConcurrent - |OccupiedIds(rows, now)|
  }

  /** The outcome of launching: the row, and whether a job was built for it. */
  function Launch(c: Capture, pool: Pool, refused: bool): Capture {
    if !c.status.Running? || c.taskId.None? then c
    else if refused then c.(status := Blocked, slotUntil := None)
    else c.(pool := Some(pool))
  }

  predicate LaunchBuildsJob(c: Capture, refused: bool) {
    c.status.Running? && c.taskId.Some? && !refused
  }

  function MarkDispatched(c: Capture, job: JobId, ok: bool, now: Time): Capture {
    if c.taskId != Some(job) || !c.status.Running? then c
    else if ok then c.(dispatchedAt := Some(now))
    else c.(status := Failed, slotUntil := None)
  }

  // ------------------------------------------------------------------- results

  datatype Envelope = Envelope(jobId: JobId, pool: Pool, tenant: Tenant, scanId: CaptureId, stageId: CaptureId, adapter: string)

  const ADAPTER := "screenshot"

  datatype Refusal = NoSuchCapture | WrongAdapter | WrongJob | WrongPool | Stale

  /** The row a result names, as its tenant's session sees it. */
  function Visible(rows: Table, env: Envelope): Option<Capture> {
    if env.stageId in rows && rows[env.stageId].tenant == env.tenant then Some(rows[env.stageId]) else None
  }

  function BindingError(c: Option<Capture>, env: Envelope): Option<Refusal> {
    if c.None? || c.value.tenant != env.tenant || env.scanId != env.stageId then Some(NoSuchCapture)
    else if env.adapter != ADAPTER then Some(WrongAdapter)
    else if c.value.taskId != Some(env.jobId) then Some(WrongJob)
    else if c.value.pool.GetOr(DEFAULT_POOL) != env.pool then Some(WrongPool)
    else if !c.value.status.Running? then Some(Stale)
    else None
  }

  /** A refused result still tells that its job has ended. */
  predicate FreesSlot(c: Capture, env: Envelope) {
    c.slotUntil.Some? && c.taskId == Some(env.jobId) && c.pool.GetOr(DEFAULT_POOL) == env.pool
  }

  function Receive(rows: Table, env: Envelope, outcome: Status): (r: Table)
    ensures r.Keys == rows.Keys
  {
    var c := Visible(rows, env);
    if BindingError(c, env).None? then rows[env.stageId := c.value.(status := outcome, slotUntil := None)]
    else if c.Some? && FreesSlot(c.value, env) then rows[env.stageId := c.value.(slotUntil := None)]
    else rows
  }

  // --------------------------------------------------------- what these promise

  /** A job reserved at `reservedAt` and built with timeout `timeout` may be executing at `now`, having begun at `start`. */
  predicate MayExecute(reservedAt: Time, timeout: Time, start: Time, now: Time) {
    && reservedAt <= start <= reservedAt + START_WINDOW
    && start <= now <= start + HardLimit(timeout)
  }

  /**
   The arithmetic across the two processes. A job starts no later than START_WINDOW after its
   reservation and is killed at its hard limit; the reserving policy `r` and the launching policy
   `l` are read separately. The slot outlasts every such execution exactly when the launching
   policy's job timeout is less than a minute longer.
   */
  lemma SlotOutlastsJob(r: Policy, l: Policy, reservedAt: Time)
    ensures
      (forall start, now :: MayExecute(reservedAt, JobTimeout(l), start, now) ==> now < reservedAt + SlotHold(r))
      <==> JobTimeout(l) < JobTimeout(r) + RESULT_TRAVEL
  {
    var start := reservedAt + START_WINDOW;
    assert MayExecute(reservedAt, JobTimeout(l), start, start + HardLimit(JobTimeout(l)));
  }

  /**
   What a watchdog pass does to a row: it fails a running one, unless another transaction holds it, once its slot has
   passed, once it is ten minutes old and was never noted as dispatched, or, without a slot, once it is older than
   any slot; it changes nothing else.
   */
  lemma WatchdogExactly(rows: Table, p: Policy, now: Time, locked: set<CaptureId>, i: CaptureId)
    requires i in rows
    ensures var c := rows[i];
            var age := if c.startedAt.Some? then now - c.startedAt.value else 0;
            var late := match c.slotUntil case Some(until) => until < now case None => age > 960 + JobTimeout(p);
            Watchdog(rows, p, now, locked)[i] ==
            if i !in locked && c.status == Running && (late || (c.dispatchedAt == None && age > 600)) then c.(status := Failed) else c
  {
  }

  ghost predicate DistinctTenants(rows: Table, s: seq<CaptureId>)
    requires forall i :: i in s ==> i in rows
  {
    forall k, l :: 0 <= k < l < |s| ==> rows[s[k]].tenant != rows[s[l]].tenant
  }

  predicate Serves(rows: Table, s: seq<CaptureId>, t: Tenant)
    requires forall i :: i in s ==> i in rows
  {
    exists i :: i in s && rows[i].tenant == t
  }

  lemma {:induction false} FirstPerTenantOnce(rows: Table, queue: seq<CaptureId>, seen: set<Tenant>)
    requires forall i :: i in queue ==> i in rows
    ensures var f := FirstPerTenant(rows, queue, seen);
            DistinctTenants(rows, f) && forall t :: t in seen ==> !Serves(rows, f, t)
  {
    if queue != [] {
      var rest := queue[1..];
      var t := rows[queue[0]].tenant;
      if t in seen {
        FirstPerTenantOnce(rows, rest, seen);
      } else {
        FirstPerTenantOnce(rows, rest, seen + {t});
        var g := FirstPerTenant(rows, rest, seen + {t});
        assert !Serves(rows, g, t);
        assert forall k :: 0 <= k < |g| ==> g[k] in g;
      }
    }
  }

  lemma {:induction false} FirstPerTenantAll(rows: Table, queue: seq<CaptureId>, seen: set<Tenant>, i: CaptureId)
    requires forall i :: i in queue ==> i in rows
    requires i in queue && rows[i].tenant !in seen
    ensures Serves(rows, FirstPerTenant(rows, queue, seen), rows[i].tenant)
  {
    var rest := queue[1..];
    var t := rows[queue[0]].tenant;
    if rows[i].tenant == t {
      assert FirstPerTenant(rows, queue, seen)[0] == queue[0];
    } else {
      assert i in rest;
      if t in seen {
        FirstPerTenantAll(rows, rest, seen, i);
      } else {
        FirstPerTenantAll(rows, rest, seen + {t}, i);
        var g := FirstPerTenant(rows, rest, seen + {t});
        var j :| j in g && rows[j].tenant == rows[i].tenant;
        assert j in FirstPerTenant(rows, queue, seen);
      }
    }
  }

  lemma {:induction false} WithoutIs(queue: seq<CaptureId>, picked: seq<CaptureId>, i: CaptureId)
    ensures i in Without(queue, picked) <==> i in queue && i !in picked
  {
    if queue != [] {
      WithoutIs(queue[1..], picked, i);
      assert i in queue <==> i == queue[0] || i in queue[1..];
    }
  }

  lemma {:induction false} WithoutDistinct(queue: seq<CaptureId>, picked: seq<CaptureId>)
    requires Distinct(queue)
    ensures Distinct(Without(queue, picked))
  {
    if queue != [] {
      WithoutDistinct(queue[1..], picked);
      WithoutIs(queue[1..], picked, queue[0]);
    }
  }

  /** Some of a queue followed by the others is the queue rearranged. */
  lemma SomeThenOthers(queue: seq<CaptureId>, first: seq<CaptureId>, others: seq<CaptureId>)
    requires Distinct(queue) && Distinct(first) && Distinct(others)
    requires forall i :: i in first ==> i in queue
    requires forall i :: i in others <==> i in queue && i !in first
    ensures Distinct(first + others) && |first + others| == |queue| && forall i :: i in first + others <==> i in queue
  {
    var order := first + others;
    assert forall k :: 0 <= k < |others| ==> others[k] in others;
    assert Distinct(order);
    assert forall i :: i in order <==> i in first || i in others;
    assert Elements(order) == Elements(queue);
    DistinctSize(order);
    DistinctSize(queue);
  }

  lemma ServingOrderRearranges(rows: Table, queue: seq<CaptureId>)
    requires forall i :: i in queue ==> i in rows
    requires Distinct(queue)
    ensures var order := ServingOrder(rows, queue);
            Distinct(order) && |order| == |queue| && forall i :: i in order <==> i in queue
  {
    var first := FirstPerTenant(rows, queue, {});
    FirstPerTenantOnce(rows, queue, {});
    WithoutDistinct(queue, first);
    forall i
      ensures i in Without(queue, first) <==> i in queue && i !in first
    {
      WithoutIs(queue, first, i);
    }
    SomeThenOthers(queue, first, Without(queue, first));
  }

  /**
   As many captures are picked as there are free slots and waiting captures, each once; and no
   tenant is picked twice while another waiting tenant gets nothing.
   */
  lemma PickedFairly(rows: Table, queue: seq<CaptureId>, free: nat)
    requires forall i :: i in queue ==> i in rows
    requires Distinct(queue)
    ensures var picked := Picked(rows, queue, free);
            && Distinct(picked)
            && (forall i :: i in picked ==> i in queue)
            && |picked| == Min(free, |queue|)
            && ((exists i :: i in queue && !Serves(rows, picked, rows[i].tenant)) ==> DistinctTenants(rows, picked))
  {
    var first := FirstPerTenant(rows, queue, {});
    FirstPerTenantOnce(rows, queue, {});
    ServingOrderRearranges(rows, queue);
    var order := ServingOrder(rows, queue);
    var picked := Picked(rows, queue, free);
    assert forall i :: i in picked ==> i in order;
    if |picked| <= |first| {
      assert picked == first[..|picked|];
    } else {
      assert picked[..|first|] == first;
      forall i | i in queue
        ensures Serves(rows, picked, rows[i].tenant)
      {
        FirstPerTenantAll(rows, queue, {}, i);
        var j :| j in first && rows[j].tenant == rows[i].tenant;
        assert j in picked[..|first|];
      }
    }
  }

  lemma PickedFromQueue(rows: Table, queue: seq<CaptureId>, free: nat)
    requires forall i :: i in queue ==> i in rows
    ensures forall i :: i in Picked(rows, queue, free) ==> i in queue
  {
    var first := FirstPerTenant(rows, queue, {});
    var order := ServingOrder(rows, queue);
    var picked := Picked(rows, queue, free);
    forall i | i in picked
      ensures i in queue
    {
      assert i in order;
      WithoutIs(queue, first, i);
    }
  }

  lemma {:induction false} TakeSlotsOther(rows: Table, p: Policy, now: Time, picked: seq<CaptureId>, job: JobId, i: CaptureId)
    requires (forall j :: j in picked ==> j in rows) && i in rows && i !in picked
    ensures TakeSlots(rows, p, now, picked, job)[i] == rows[i]
    decreases |picked|
  {
    if picked != [] {
      assert picked[0] in picked;
      TakeSlotsOther(rows[picked[0] := TakeSlot(rows[picked[0]], p, now, job)], p, now, picked[1..], job + 1, i);
    }
  }

  lemma {:induction false} TakeSlotsOne(rows: Table, p: Policy, now: Time, picked: seq<CaptureId>, job: JobId, k: nat)
    requires (forall j :: j in picked ==> j in rows) && Distinct(picked) && k < |picked|
    ensures TakeSlots(rows, p, now, picked, job)[picked[k]] == TakeSlot(rows[picked[k]], p, now, job + k)
    decreases |picked|
  {
    var head, rest := picked[0], picked[1..];
    var mid := rows[head := TakeSlot(rows[head], p, now, job)];
    if k == 0 {
      assert head !in rest;
      TakeSlotsOther(mid, p, now, rest, job + 1, head);
    } else {
      assert rest[k - 1] == picked[k] != head;
      TakeSlotsOne(mid, p, now, rest, job + 1, k - 1);
    }
  }

  /** Each picked row gets its own new job number; every other row is untouched. */
  lemma TakeSlotsAt(rows: Table, p: Policy, now: Time, picked: seq<CaptureId>, job: JobId)
    requires Distinct(picked)
    requires forall i :: i in picked ==> i in rows
    ensures var r := TakeSlots(rows, p, now, picked, job);
            && (forall k :: 0 <= k < |picked| ==> r[picked[k]] == TakeSlot(rows[picked[k]], p, now, job + k))
            && (forall i :: i in rows && i !in picked ==> r[i] == rows[i])
  {
    var r := TakeSlots(rows, p, now, picked, job);
    forall k | 0 <= k < |picked|
      ensures r[picked[k]] == TakeSlot(rows[picked[k]], p, now, job + k)
    {
      TakeSlotsOne(rows, p, now, picked, job, k);
    }
    forall i | i in rows && i !in picked
      ensures r[i] == rows[i]
    {
      TakeSlotsOther(rows, p, now, picked, job, i);
    }
  }
}
