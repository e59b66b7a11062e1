/**
 When a slot is given back, and what deleting a finished capture does to the deployment-wide
 limit. Deleting looks only at the status of the row, so it can remove a cancelled capture whose
 job still executes; the limit then no longer counts that job.
 */
module CaptureDeletion {
  import opened Prelude
  import opened Captures
  import opened CaptureSystem
  import opened CaptureBinding

  /** The steps that may free a slot whose time has not passed. */
  predicate Frees(s: State, step: Step, id: CaptureId)
    requires id in s.rows
  {
    match step
    case ReceiveResult(env, _) =>
      env.stageId == id && s.rows[id].taskId == Some(env.jobId) && s.rows[id].pool.GetOr(DEFAULT_POOL) == env.pool
    case LaunchCapture(i, _, refused) => i == id && refused
    case Mark(i) => i == id && i in s.dispatching && s.dispatching[i].Unsent?
    case Delete(i) => i == id
    case _ => false
  }

  lemma ReserveHoldsSlot(s: State, g: Config, clock: Time, watchLocked: set<CaptureId>, queueLocked: set<CaptureId>,
                         queue: seq<CaptureId>, id: CaptureId)
    requires CanReserve(s, g, clock, watchLocked, queueLocked, queue)
    requires id in s.rows && RowOk(s.rows[id], g, s.now, s.nextJob) && s.rows[id].slotUntil.Some?
    ensures ApplyReserve(s, g, clock, watchLocked, queue).rows[id].slotUntil == s.rows[id].slotUntil
  {
    var rows := Watched(s, g, clock, watchLocked);
    var free := FreeSlots(rows, g.policy, clock);
    if free > 0 {
      PickedAreQueued(rows, queueLocked, free, queue);
      TakeSlotsAt(rows, g.policy, clock, Picked(rows, queue, free), s.nextJob);
    }
  }

  lemma ReceiveHoldsSlot(rows: Table, env: Envelope, outcome: Status, id: CaptureId)
    requires id in rows
    requires !(env.stageId == id && rows[id].taskId == Some(env.jobId) && rows[id].pool.GetOr(DEFAULT_POOL) == env.pool)
    ensures Receive(rows, env, outcome)[id].slotUntil == rows[id].slotUntil
  {
  }

  function NowAfter(s: State, step: Step): Time {
    if step.Tick? then step.to else s.now
  }

  lemma RowStepHoldsSlot(s: State, g: Config, step: Step, id: CaptureId)
    requires Enabled(s, g, step) && id in s.rows && !Frees(s, step, id)
    requires step.CancelCapture? || step.LaunchCapture? || step.Mark? || step.ReceiveResult? || step.Delete?
    ensures var t := Apply(s, g, step); id in t.rows && t.rows[id].slotUntil == s.rows[id].slotUntil
  {
    if step.ReceiveResult? {
      ReceiveHoldsSlot(s.rows, step.env, step.outcome, id);
    }
  }

  /**
   A slot whose time has not passed outlives every step but a result for its own job, a launch
   that was refused, a job the broker did not take, and a deletion. A cancel never frees it.
   */
  lemma SlotOutlives(s: State, g: Config, step: Step, id: CaptureId)
    requires RowsOk(s, g) && Enabled(s, g, step)
    requires id in s.rows && s.rows[id].slotUntil.Some? && s.rows[id].slotUntil.value > NowAfter(s, step)
    requires !Frees(s, step, id)
    ensures var t := Apply(s, g, step); id in t.rows && Occupied(t.rows[id], NowAfter(s, step))
  {
    if step.Reserve? {
      ReserveHoldsSlot(s, g, step.clock, step.watchLocked, step.queueLocked, step.queue, id);
    } else if step.CancelCapture? || step.LaunchCapture? || step.Mark? || step.ReceiveResult? || step.Delete? {
      RowStepHoldsSlot(s, g, step, id);
    } else if step.Request? {
      assert id < s.nextId;
    }
  }

  /** Deleting a finished capture leaves the count of occupied slots alone exactly when its slot has passed. */
  lemma DeleteReleases(s: State, g: Config, id: CaptureId)
    requires Enabled(s, g, Delete(id))
    ensures |OccupiedIds(Apply(s, g, Delete(id)).rows, s.now)| == |OccupiedIds(s.rows, s.now)| <==> SlotPassed(s.rows[id], s.now)
  {
    var before := OccupiedIds(s.rows, s.now);
    var after := OccupiedIds(s.rows - {id}, s.now);
    assert after == before - {id};
    assert id in before <==> !SlotPassed(s.rows[id], s.now);
  }

  // -------------------------------------------------- the limit without that guard

  /** No rows, and none of the numbers about to be used has been. */
  ghost predicate Blank(s: State) {
    && s.rows == map[]
    && s.nextId !in s.dispatching
    && (forall x :: x in s.claims ==> x < s.nextJob)
    && (forall e :: e in s.executing ==> e < s.nextExecution)
    && (forall k :: k in s.usage ==> k.0 < s.nextId)
    && (forall i :: i in s.dispatching ==> i < s.nextId)
  }

  predicate Generous(g: Config) {
    g.policy.available && g.policy.maxConcurrent >= 1 && g.policy.perTenantDaily >= 1 && g.policy.perTenantQueued >= 1
  }

  lemma RequestOnBlank(s: State, g: Config)
    requires Blank(s) && Generous(g)
    ensures var t := ApplyRequest(s, g, s.nextId, s.nextId, true, true);
            && t == s.(rows := map[s.nextId := NewCapture(s.nextId, s.nextId, s.now)], nextId := s.nextId + 1,
                       usage := t.usage, created := t.created)
            && (forall k :: k in t.usage ==> k.0 < t.nextId)
  {
    assert ActiveOf(s.rows, s.nextId) == {};
    assert Used(s.usage, s.nextId, Day(s.now)) == 0;
  }

  lemma PickOnlyRow(rows: Table, id: CaptureId, free: nat)
    requires id in rows && free >= 1
    ensures Picked(rows, [id], free) == [id]
  {
    assert [id][1..] == [];
    assert FirstPerTenant(rows, [id], {}) == [id] + FirstPerTenant(rows, [], {rows[id].tenant});
    assert FirstPerTenant(rows, [id], {}) == [id];
    assert Without([id][1..], [id]) == [];
    assert Without([id], [id]) == [];
    assert ServingOrder(rows, [id]) == [id] + [];
    assert [id][..1] == [id];
  }

  lemma TakeOnlySlot(c: Capture, p: Policy, now: Time, id: CaptureId, job: JobId)
    ensures TakeSlots(map[id := c], p, now, [id], job) == map[id := TakeSlot(c, p, now, job)]
  {
    var rows: Table := map[id := c];
    var taken := rows[id := TakeSlot(c, p, now, job)];
    assert [id][1..] == [];
    assert TakeSlots(taken, p, now, [], job + 1) == taken;
  }

  /** With one queued row and nothing occupied, that row is all there is to reserve. */
  lemma OnlyRowWaits(s: State, g: Config, id: CaptureId, c: Capture)
    requires Generous(g) && s.rows == map[id := c] && c.status.Queued? && c.slotUntil.None?
    ensures Watched(s, g, s.now, {}) == s.rows
    ensures FreeSlots(s.rows, g.policy, s.now) == g.policy.maxConcurrent
    ensures CanReserve(s, g, s.now, {}, {}, [id])
  {
    var rows := Watched(s, g, s.now, {});
    assert rows == s.rows;
    assert OccupiedIds(rows, s.now) == {};
    assert IsQueueHead(rows, {}, g.policy.maxConcurrent * 5, [id]);
  }

  lemma ReserveOne(s: State, g: Config, id: CaptureId)
    requires Watched(s, g, s.now, {}) == s.rows && FreeSlots(s.rows, g.policy, s.now) == g.policy.maxConcurrent > 0
    requires id in s.rows && Picked(s.rows, [id], g.policy.maxConcurrent) == [id]
    ensures ApplyReserve(s, g, s.now, {}, [id]) ==
            s.(rows := TakeSlots(s.rows, g.policy, s.now, [id], s.nextJob),
               nextJob := s.nextJob + 1, dispatching := s.dispatching[id := Reserved])
  {
    assert s.dispatching + (map i | i in [id] :: Reserved) == s.dispatching[id := Reserved];
  }

  lemma ReserveOnlyRow(s: State, g: Config, id: CaptureId, c: Capture)
    requires Generous(g) && s.rows == map[id := c] && c.status.Queued? && c.slotUntil.None? && id !in s.dispatching
    ensures CanReserve(s, g, s.now, {}, {}, [id])
    ensures ApplyReserve(s, g, s.now, {}, [id]) ==
            s.(rows := map[id := TakeSlot(c, g.policy, s.now, s.nextJob)],
               nextJob := s.nextJob + 1, dispatching := s.dispatching[id := Reserved])
  {
    OnlyRowWaits(s, g, id, c);
    PickOnlyRow(s.rows, id, g.policy.maxConcurrent);
    TakeOnlySlot(c, g.policy, s.now, id, s.nextJob);
    ReserveOne(s, g, id);
  }

  ghost function RoundJob(s: State, g: Config): Job {
    Job(s.nextJob, s.nextId, s.nextId, DEFAULT_POOL, s.now + START_WINDOW, JobTimeout(g.policy))
  }

  /** Seven ordinary steps of one more tenant and its endpoint, the last of them the deletion of a cancelled capture whose job executes. */
  ghost function Round(s: State, g: Config): seq<Step> {
    var id := s.nextId;
    [Request(id, id, true, true), Reserve(s.now, {}, {}, [id]), LaunchCapture(id, DEFAULT_POOL, false), Publish(id, true),
     Deliver(RoundJob(s, g)), CancelCapture(id), Delete(id)]
  }

  ghost predicate Begun(s: State, t: State, g: Config) {
    && t == s.(rows := t.rows, nextId := s.nextId + 1, nextJob := s.nextJob + 1, usage := t.usage, created := t.created,
               broker := t.broker, jobs := t.jobs, dispatching := t.dispatching)
    && (forall k :: k in t.usage ==> k.0 < t.nextId)
    && (forall i :: i in t.dispatching ==> i < t.nextId)
    && t.rows.Keys == {s.nextId}
    && t.rows[s.nextId].status.Running?
    && t.rows[s.nextId].startedAt == Some(s.now) && t.rows[s.nextId].dispatchedAt.None?
    && RoundJob(s, g) in t.broker
  }

  /** The state once the row is reserved. */
  ghost predicate OnceReserved(s: State, t: State, g: Config) {
    && t == s.(rows := map[s.nextId := TakeSlot(NewCapture(s.nextId, s.nextId, s.now), g.policy, s.now, s.nextJob)],
               nextId := s.nextId + 1, nextJob := s.nextJob + 1, usage := t.usage, created := t.created,
               dispatching := s.dispatching[s.nextId := Reserved])
    && (forall k :: k in t.usage ==> k.0 < t.nextId)
  }

  lemma {:induction false} RunsCompose(s: State, g: Config, first: seq<Step>, second: seq<Step>)
    requires IsRun(s, g, first) && IsRun(After(s, g, first), g, second)
    ensures IsRun(s, g, first + second) && After(s, g, first + second) == After(After(s, g, first), g, second)
    decreases |first|
  {
    if first == [] {
      assert first + second == second;
    } else {
      RunsCompose(Apply(s, g, first[0]), g, first[1..], second);
      assert (first + second)[1..] == first[1..] + second;
    }
  }

  lemma OneStep(s: State, g: Config, step: Step)
    requires Enabled(s, g, step)
    ensures IsRun(s, g, [step]) && After(s, g, [step]) == Apply(s, g, step)
  {
    assert [step][1..] == [];
  }

  /** The state once the capture is requested. */
  ghost predicate OnceRequested(s: State, t: State) {
    && t == s.(rows := map[s.nextId := NewCapture(s.nextId, s.nextId, s.now)], nextId := s.nextId + 1,
               usage := t.usage, created := t.created)
    && (forall k :: k in t.usage ==> k.0 < t.nextId)
  }

  lemma RequestComes(s: State, g: Config) returns (t: State)
    requires Blank(s) && Generous(g)
    ensures var steps := [Request(s.nextId, s.nextId, true, true)]; IsRun(s, g, steps) && After(s, g, steps) == t
    ensures OnceRequested(s, t)
  {
    RequestOnBlank(s, g);
    OneStep(s, g, Request(s.nextId, s.nextId, true, true));
    t := ApplyRequest(s, g, s.nextId, s.nextId, true, true);
  }

  lemma ReserveComes(s: State, s1: State, g: Config) returns (t: State)
    requires Generous(g) && s.nextId !in s.dispatching && OnceRequested(s, s1)
    ensures var steps := [Reserve(s.now, {}, {}, [s.nextId])]; IsRun(s1, g, steps) && After(s1, g, steps) == t
    ensures OnceReserved(s, t, g)
  {
    ReserveOnlyRow(s1, g, s.nextId, s1.rows[s.nextId]);
    OneStep(s1, g, Reserve(s.now, {}, {}, [s.nextId]));
    t := ApplyReserve(s1, g, s.now, {}, [s.nextId]);
  }

  /** The state once the job is built. */
  ghost predicate OnceBuilt(s: State, t: State, g: Config) {
    && t == s.(rows := t.rows, nextId := s.nextId + 1, nextJob := s.nextJob + 1, usage := t.usage, created := t.created,
               jobs := t.jobs, dispatching := t.dispatching)
    && (forall k :: k in t.usage ==> k.0 < t.nextId)
    && t.rows.Keys == {s.nextId} && t.rows[s.nextId].status.Running?
    && t.rows[s.nextId].startedAt == Some(s.now) && t.rows[s.nextId].dispatchedAt.None?
    && t.dispatching == s.dispatching[s.nextId := Built(RoundJob(s, g))]
  }

  lemma LaunchBuilds(s: State, s2: State, g: Config)
    requires OnceReserved(s, s2, g)
    ensures OnceBuilt(s, ApplyLaunch(s2, g, s.nextId, DEFAULT_POOL, false), g)
  {
    assert ApplyLaunch(s2, g, s.nextId, DEFAULT_POOL, false).dispatching == s.dispatching[s.nextId := Built(RoundJob(s, g))];
  }

  lemma LaunchComes(s: State, s2: State, g: Config) returns (t: State)
    requires OnceReserved(s, s2, g)
    ensures var steps := [LaunchCapture(s.nextId, DEFAULT_POOL, false)]; IsRun(s2, g, steps) && After(s2, g, steps) == t
    ensures OnceBuilt(s, t, g)
  {
    OneStep(s2, g, LaunchCapture(s.nextId, DEFAULT_POOL, false));
    LaunchBuilds(s, s2, g);
    t := ApplyLaunch(s2, g, s.nextId, DEFAULT_POOL, false);
  }

  lemma PublishComes(s: State, s3: State, g: Config) returns (t: State)
    requires Blank(s) && OnceBuilt(s, s3, g)
    ensures var steps := [Publish(s.nextId, true)]; IsRun(s3, g, steps) && After(s3, g, steps) == t
    ensures Begun(s, t, g)
  {
    OneStep(s3, g, Publish(s.nextId, true));
    t := ApplyPublish(s3, s.nextId, true);
  }

  lemma HalfStarts(s: State, g: Config) returns (t: State)
    requires Blank(s) && Generous(g)
    ensures IsRun(s, g, Round(s, g)[..2]) && After(s, g, Round(s, g)[..2]) == t
    ensures OnceReserved(s, t, g)
  {
    var first, second := [Request(s.nextId, s.nextId, true, true)], [Reserve(s.now, {}, {}, [s.nextId])];
    assert Round(s, g)[..2] == first + second;
    var s1 := RequestComes(s, g);
    t := ReserveComes(s, s1, g);
    RunsCompose(s, g, first, second);
  }

  lemma HalfSends(s: State, s2: State, g: Config) returns (t: State)
    requires Blank(s) && OnceReserved(s, s2, g)
    ensures IsRun(s2, g, Round(s, g)[2..4]) && After(s2, g, Round(s, g)[2..4]) == t
    ensures Begun(s, t, g)
  {
    var s3 := LaunchComes(s, s2, g);
    t := PublishComes(s, s3, g);
    var first, second := [LaunchCapture(s.nextId, DEFAULT_POOL, false)], [Publish(s.nextId, true)];
    RunsCompose(s2, g, first, second);
    assert Round(s, g)[2..4] == first + second;
  }

  lemma RoundStarts(s: State, g: Config) returns (t: State)
    requires Blank(s) && Generous(g)
    ensures IsRun(s, g, Round(s, g)[..4]) && After(s, g, Round(s, g)[..4]) == t
    ensures Begun(s, t, g)
  {
    var steps := Round(s, g);
    var s2 := HalfStarts(s, g);
    t := HalfSends(s, s2, g);
    RunsCompose(s, g, steps[..2], steps[2..4]);
    assert steps[..4] == steps[..2] + steps[2..4];
  }

  lemma OneMoreExecution(executing: map<nat, Execution>, n: nat, e: Execution)
    requires n !in executing
    ensures |executing[n := e]| == |executing| + 1
  {
    assert executing[n := e].Keys == executing.Keys + {n};
    assert |executing[n := e].Keys| == |executing.Keys| + 1;
  }

  lemma Delivered(t: State, g: Config, job: Job)
    requires job.id !in t.claims && t.now <= job.notAfter
    ensures ApplyDeliver(t, g, job) ==
            t.(claims := t.claims[job.id := t.now + job.timeout + g.visibility],
               executing := t.executing[t.nextExecution := Execution(job, t.now)], nextExecution := t.nextExecution + 1)
  {
    assert !ClaimHeld(t, job);
  }

  lemma CancelAndDelete(s: State, g: Config, id: CaptureId)
    requires s.rows.Keys == {id} && s.rows[id].status.Running?
    ensures var t := Apply(s, g, CancelCapture(id));
            && Enabled(t, g, Delete(id))
            && Apply(t, g, Delete(id)) == s.(rows := map[])
  {
    var t := Apply(s, g, CancelCapture(id));
    assert t.rows - {id} == map[];
  }

  /** The state once the job executes. */
  ghost predicate OnceExecuting(s: State, t: State) {
    && t.rows.Keys == {s.nextId} && t.rows[s.nextId].status.Running?
    && Blank(t.(rows := map[]))
    && |t.executing| == |s.executing| + 1
  }

  lemma ExecutesOnBlank(s: State, t: State, g: Config)
    requires Blank(s) && Begun(s, t, g)
    ensures OnceExecuting(s, ApplyDeliver(t, g, RoundJob(s, g)))
  {
    var job := RoundJob(s, g);
    assert s.nextExecution !in s.executing && job.id !in s.claims;
    Delivered(t, g, job);
    OneMoreExecution(s.executing, s.nextExecution, Execution(job, t.now));
  }

  lemma DeliverComes(s: State, t: State, g: Config) returns (u: State)
    requires Blank(s) && Begun(s, t, g)
    ensures var steps := [Deliver(RoundJob(s, g))]; IsRun(t, g, steps) && After(t, g, steps) == u
    ensures OnceExecuting(s, u)
  {
    ExecutesOnBlank(s, t, g);
    OneStep(t, g, Deliver(RoundJob(s, g)));
    u := ApplyDeliver(t, g, RoundJob(s, g));
  }

  lemma CancelAndDeleteCome(s: State, t: State, g: Config) returns (u: State)
    requires OnceExecuting(s, t)
    ensures var steps := [CancelCapture(s.nextId), Delete(s.nextId)]; IsRun(t, g, steps) && After(t, g, steps) == u
    ensures Blank(u) && |u.executing| == |s.executing| + 1
  {
    var id := s.nextId;
    CancelAndDelete(t, g, id);
    var mid := Apply(t, g, CancelCapture(id));
    OneStep(t, g, CancelCapture(id));
    OneStep(mid, g, Delete(id));
    u := Apply(mid, g, Delete(id));
    RunsCompose(t, g, [CancelCapture(id)], [Delete(id)]);
    assert [CancelCapture(id), Delete(id)] == [CancelCapture(id)] + [Delete(id)];
  }

  lemma RoundEnds(s: State, g: Config, t: State) returns (u: State)
    requires Blank(s) && Begun(s, t, g)
    ensures IsRun(t, g, Round(s, g)[4..]) && After(t, g, Round(s, g)[4..]) == u
    ensures Blank(u) && |u.executing| == |s.executing| + 1
  {
    var t1 := DeliverComes(s, t, g);
    u := CancelAndDeleteCome(s, t1, g);
    var first, second := [Deliver(RoundJob(s, g))], [CancelCapture(s.nextId), Delete(s.nextId)];
    RunsCompose(t, g, first, second);
    assert Round(s, g)[4..] == first + second;
  }

  lemma RoundAddsExecution(s: State, g: Config)
    requires Blank(s) && Generous(g)
    ensures IsRun(s, g, Round(s, g))
    ensures var t := After(s, g, Round(s, g)); Blank(t) && |t.executing| == |s.executing| + 1
  {
    var steps := Round(s, g);
    var t := RoundStarts(s, g);
    var u := RoundEnds(s, g, t);
    RunsCompose(s, g, steps[..4], steps[4..]);
    assert steps[..4] + steps[4..] == steps;
  }

  /**
   Without the guard on deletion there is no limit at all: under every policy that admits a
   capture, and for every number, some run has that many jobs executing at once.
   */
  lemma {:induction false} UnguardedDeletionBreaksLimit(g: Config, n: nat) returns (steps: seq<Step>)
    requires Generous(g)
    ensures IsRun(START, g, steps)
    ensures Blank(After(START, g, steps)) && |After(START, g, steps).executing| == n
  {
    if n == 0 {
      steps := [];
    } else {
      var before := UnguardedDeletionBreaksLimit(g, n - 1);
      var s := After(START, g, before);
      RoundAddsExecution(s, g);
      RunsCompose(START, g, before, Round(s, g));
      steps := before + Round(s, g);
    }
  }
}
