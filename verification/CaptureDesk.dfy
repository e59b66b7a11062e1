/**
 The capture table as the processes that share it change it: one object, one method for each
 transaction. Every method is tied to the function that specifies its transaction, which the
 run-level results are about.
 */
module CaptureDesk {
  import opened Prelude
  import opened Captures
  import opened CaptureSystem

  class Desk {
    const policy: Policy
    var rows: Table
    var usage: Usage
    var nextId: CaptureId
    var nextJob: JobId

    /** Numbers not yet given out name nothing. */
    ghost predicate Valid()
      reads this
    {
      forall i :: i in rows ==> i < nextId
    }

    constructor (policy: Policy)
      ensures Valid() && rows == map[] && usage == map[] && this.policy == policy
    {
      this.policy := policy;
      rows := map[];
      usage := map[];
      nextId := 0;
      nextJob := 0;
    }

    /** Queue a capture, or hand back the active one of that endpoint; None is a refusal. */
    method RequestCapture(t: Tenant, a: Endpoint, now: Time, enabled: bool, authorized: bool)
      returns (r: Option<CaptureId>, created: bool)
      requires Valid()
      modifies this
      ensures Valid() && nextJob == old(nextJob)
      ensures created == Admits(old(rows), old(usage), policy, t, a, now, enabled, authorized)
      ensures created ==>
                && r == Some(old(nextId)) && old(nextId) !in old(rows) && nextId == old(nextId) + 1
                && rows == old(rows)[old(nextId) := NewCapture(t, a, now)] && usage == Charge(old(usage), t, now)
      ensures !created ==> rows == old(rows) && usage == old(usage) && nextId == old(nextId)
      ensures !created && r.Some? ==> r.value in rows && rows[r.value].asset == a && Active(rows[r.value].status)
      ensures !created && r.None? ==> !policy.available || !enabled || !EndpointBusy(rows, a)
    {
      r, created := None, false;
      if !policy.available || !enabled {
        return;
      }
      if EndpointBusy(rows, a) {
        var i :| i in rows && rows[i].asset == a && Active(rows[i].status);
        r := Some(i);
        return;
      }
      if |ActiveOf(rows, t)| >= policy.perTenantQueued || Used(usage, t, Day(now)) >= policy.perTenantDaily || !authorized {
        return;
      }
      r, created := Some(nextId), true;
      rows := rows[nextId := NewCapture(t, a, now)];
      usage := Charge(usage, t, now);
      nextId := nextId + 1;
    }

    method CancelCapture(id: CaptureId, now: Time)
      requires Valid() && id in rows
      modifies this`rows, this`usage
      ensures Valid()
      ensures rows == old(rows)[id := Cancel(old(rows)[id])]
      ensures usage == Refund(old(usage), old(rows)[id], now)
    {
      var c := rows[id];
      if !Active(c.status) {
        assert rows == rows[id := c];
        return;
      }
      if c.status.Queued? && Day(c.createdAt) == Day(now) {
        usage := usage[(c.tenant, Day(now)) := Max(Used(usage, c.tenant, Day(now)) - 1, 0)];
      }
      rows := rows[id := c.(status := Cancelled)];
    }

    /** End every unlocked capture that is overdue, sent or not, and count them. */
    method WatchdogPass(now: Time, locked: set<CaptureId>) returns (failed: nat)
      requires Valid()
      modifies this`rows
      ensures Valid()
      ensures rows == Watchdog(old(rows), policy, now, locked)
      ensures failed == |set i | i in old(rows) && rows[i] != old(rows)[i]|
    {
      ghost var was := rows;
      var overdue := set i | i in rows && i !in locked && Overdue(rows[i], policy, now);
      var todo := overdue;
      while todo != {}
        invariant todo <= overdue
        invariant rows.Keys == was.Keys
        invariant forall i :: i in was ==> rows[i] == if i in overdue && i !in todo then was[i].(status := Failed) else was[i]
        decreases todo
      {
        var i :| i in todo;
        rows := rows[i := rows[i].(status := Failed)];
        todo := todo - {i};
      }
      assert overdue == set i | i in was && rows[i] != was[i];
      failed := |overdue|;
    }

    /** The oldest unlocked queued rows, at most `limit` of them. */
    method SelectQueued(locked: set<CaptureId>, limit: nat) returns (queue: seq<CaptureId>)
      ensures IsQueueHead(rows, locked, limit, queue)
    {
      queue := [];
      var waiting := set i | i in rows && Waiting(rows, locked, i);
      var left := waiting;
      while left != {} && |queue| < limit
        invariant |queue| <= limit && Chosen(rows, waiting, queue, left)
        decreases left
      {
        ghost var ages := map i | i in rows :: rows[i].createdAt;
        ghost var least := LeastExists(left, ages);
        assert least in left && forall i :: i in left ==> rows[least].createdAt <= rows[i].createdAt;
        var oldest :| oldest in left && forall i :: i in left ==> rows[oldest].createdAt <= rows[i].createdAt;
        ChooseOldest(rows, waiting, queue, left, oldest);
        queue := queue + [oldest];
        left := left - {oldest};
      }
    }

    method PickFirstOfEach(queue: seq<CaptureId>) returns (picked: seq<CaptureId>)
      requires forall i :: i in queue ==> i in rows
      ensures picked == FirstPerTenant(rows, queue, {})
    {
      picked := [];
      var tenants: set<Tenant> := {};
      var n := 0;
      assert queue[n..] == queue;
      while n < |queue|
        invariant 0 <= n <= |queue|
        invariant FirstPerTenant(rows, queue, {}) == picked + FirstPerTenant(rows, queue[n..], tenants)
      {
        var c := queue[n];
        assert queue[n..][1..] == queue[n + 1..];
        ghost var rest := FirstPerTenant(rows, queue[n + 1..], tenants + {rows[c].tenant});
        if rows[c].tenant !in tenants {
          assert picked + ([c] + rest) == (picked + [c]) + rest;
          picked := picked + [c];
          tenants := tenants + {rows[c].tenant};
        }
        n := n + 1;
      }
    }

    method PickOthers(queue: seq<CaptureId>, picked: seq<CaptureId>) returns (others: seq<CaptureId>)
      ensures others == Without(queue, picked)
    {
      others := [];
      var n := 0;
      assert queue[n..] == queue;
      while n < |queue|
        invariant 0 <= n <= |queue|
        invariant Without(queue, picked) == others + Without(queue[n..], picked)
      {
        assert queue[n..][0] == queue[n] && queue[n..][1..] == queue[n + 1..];
        if queue[n] !in picked {
          others := others + [queue[n]];
        }
        n := n + 1;
      }
    }

    method TakeAll(picked: seq<CaptureId>, now: Time)
      requires Valid() && forall i :: i in picked ==> i in rows
      modifies this`rows, this`nextJob
      ensures Valid()
      ensures rows == TakeSlots(old(rows), policy, now, picked, old(nextJob))
      ensures nextJob == old(nextJob) + |picked|
    {
      ghost var was, first := rows, nextJob;
      var n := 0;
      assert picked[n..] == picked;
      while n < |picked|
        invariant 0 <= n <= |picked|
        invariant nextJob == first + n
        invariant rows.Keys == was.Keys
        invariant TakeSlots(rows, policy, now, picked[n..], nextJob) == TakeSlots(was, policy, now, picked, first)
      {
        var i := picked[n];
        assert picked[n..][0] == i && picked[n..][1..] == picked[n + 1..];
        rows := rows[i := TakeSlot(rows[i], policy, now, nextJob)];
        nextJob := nextJob + 1;
        n := n + 1;
      }
    }

    /** The captures to serve now, chosen from the head of the queue. */
    method Choose(free: nat, locked: set<CaptureId>) returns (chosen: seq<CaptureId>, ghost queue: seq<CaptureId>)
      ensures IsQueueHead(rows, locked, free * 5, queue)
      ensures (forall i :: i in queue ==> i in rows) && chosen == Picked(rows, queue, free)
    {
      var candidates := SelectQueued(locked, free * 5);
      queue := candidates;
      assert forall i :: i in candidates ==> Waiting(rows, locked, i);
      var first := PickFirstOfEach(candidates);
      var others := PickOthers(candidates, first);
      var order := first + others;
      chosen := order[..Min(free, |order|)];
    }

    /** Fail what is overdue, then let as many waiting captures run as slots are free. */
    method Reserve(now: Time, watchLocked: set<CaptureId>, queueLocked: set<CaptureId>)
      returns (reserved: seq<CaptureId>, ghost queue: seq<CaptureId>)
      requires Valid()
      modifies this`rows, this`nextJob
      ensures Valid() && nextJob == old(nextJob) + |reserved|
      ensures Reservation(old(rows), policy, now, watchLocked, queueLocked, queue, reserved, old(nextJob), rows)
    {
      var _ := WatchdogPass(now, watchLocked);
      reserved, queue := [], [];
      var running := |OccupiedIds(rows, now)|;
      var free := policy.maxConcurrent - running;
      if free > 0 {
        reserved, queue := Choose(free, queueLocked);
        PickedFromQueue(rows, queue, free);
        TakeAll(reserved, now);
      }
    }

    /** Check once more that a reserved capture may run; true if a job was built for it. */
    method LaunchCapture(id: CaptureId, pool: Pool, refused: bool) returns (built: bool)
      requires Valid()
      modifies this`rows
      ensures Valid()
      ensures built == (id in old(rows) && LaunchBuildsJob(old(rows)[id], refused))
      ensures rows == if id in old(rows) then old(rows)[id := Launch(old(rows)[id], pool, refused)] else old(rows)
    {
      built := false;
      if id !in rows || !rows[id].status.Running? || rows[id].taskId.None? {
        assert id in rows ==> rows == rows[id := rows[id]];
        return;
      }
      if refused {
        rows := rows[id := rows[id].(status := Blocked, slotUntil := None)];
        return;
      }
      rows := rows[id := rows[id].(pool := Some(pool))];
      built := true;
    }

    method Mark(id: CaptureId, job: JobId, ok: bool, now: Time)
      requires Valid()
      modifies this`rows
      ensures Valid()
      ensures rows == if id in old(rows) then old(rows)[id := MarkDispatched(old(rows)[id], job, ok, now)] else old(rows)
    {
      if id !in rows || rows[id].taskId != Some(job) || !rows[id].status.Running? {
        assert id in rows ==> rows == rows[id := rows[id]];
        return;
      }
      if ok {
        rows := rows[id := rows[id].(dispatchedAt := Some(now))];
      } else {
        rows := rows[id := rows[id].(status := Failed, slotUntil := None)];
      }
    }

    /** Apply a submitted result; true when it was accepted. */
    method ReceiveResult(env: Envelope, outcome: Status) returns (accepted: bool)
      requires Valid()
      modifies this`rows
      ensures Valid()
      ensures accepted == BindingError(Visible(old(rows), env), env).None?
      ensures rows == Receive(old(rows), env, outcome)
    {
      var c := Visible(rows, env);
      var problem := BindingError(c, env);
      if problem.Some? {
        if c.Some? && c.value.slotUntil.Some? && c.value.taskId == Some(env.jobId) && c.value.pool.GetOr(DEFAULT_POOL) == env.pool {
          rows := rows[env.stageId := c.value.(slotUntil := None)];
        }
        return false;
      }
      rows := rows[env.stageId := c.value.(status := outcome, slotUntil := None)];
      accepted := true;
    }

    /** Refuses an active capture, and looks at nothing else. */
    method DeleteCapture(id: CaptureId) returns (ok: bool)
      requires Valid()
      modifies this`rows
      ensures Valid()
      ensures ok == (id in old(rows) && !Active(old(rows)[id].status))
      ensures rows == if ok then old(rows) - {id} else old(rows)
    {
      ok := id in rows && !Active(rows[id].status);
      if ok {
        rows := rows - {id};
      }
    }

    /** Launch, publish and mark one reserved capture, which may have been cancelled or deleted since. */
    method DispatchOne(id: CaptureId, pool: Pool, refused: bool, unsent: bool, now: Time) returns (launched: bool)
      requires Valid()
      modifies this`rows
      ensures Valid() && launched == Launches(old(rows), id, refused) && rows.Keys == old(rows).Keys
      ensures id !in old(rows) ==> rows == old(rows)
      ensures id in old(rows) ==> rows == old(rows)[id := rows[id]] && Decided(old(rows)[id], rows[id], refused, unsent, now)
    {
      launched := LaunchCapture(id, pool, refused);
      if launched {
        Mark(id, rows[id].taskId.value, !unsent, now);
      }
    }

    /** Launch, publish and mark every capture of a reservation. */
    method DispatchAll(todo: seq<CaptureId>, pools: map<Tenant, Pool>, refused: set<CaptureId>, unsent: set<CaptureId>, now: Time)
      returns (launched: nat)
      requires Valid() && Distinct(todo)
      modifies this`rows
      ensures Valid() && AllDecided(old(rows), rows, todo, refused, unsent, now)
      ensures launched == CountLaunches(old(rows), todo, refused)
    {
      ghost var was := rows;
      launched := 0;
      var n := 0;
      while n < |todo|
        invariant 0 <= n <= |todo|
        invariant SoFar(was, rows, todo, n, refused, unsent, now)
        invariant launched == CountLaunches(was, todo[..n], refused)
      {
        var i := todo[n];
        ghost var mid := rows;
        assert todo[..n + 1][..n] == todo[..n];
        var pool := if i in rows && rows[i].tenant in pools then pools[rows[i].tenant] else DEFAULT_POOL;
        var one := DispatchOne(i, pool, i in refused, i in unsent, now);
        OneMoreDecided(was, mid, rows, todo, n, refused, unsent, now);
        if one {
          launched := launched + 1;
        }
        n := n + 1;
      }
      assert todo[..n] == todo;
    }

    /**
     One dispatcher pass: reserve, then launch, publish and mark each reserved capture. `refused`
     are the captures no longer authorized, `unsent` those whose job the broker does not take.
     No reserved capture is left undecided: each is running and dispatched, or has ended and given
     its slot back.
     */
    method Dispatch(now: Time, watchLocked: set<CaptureId>, queueLocked: set<CaptureId>,
                    pools: map<Tenant, Pool>, refused: set<CaptureId>, unsent: set<CaptureId>)
      returns (launched: nat, ghost reserved: seq<CaptureId>)
      requires Valid()
      modifies this`rows, this`nextJob
      ensures Valid() && Distinct(reserved)
      ensures |reserved| <= Max(0, FreeSlots(Watchdog(old(rows), policy, now, watchLocked), policy, now))
      ensures Dispatched(old(rows), Watchdog(old(rows), policy, now, watchLocked), rows, policy, now, old(nextJob), reserved, refused, unsent)
      ensures launched == CountOutside(reserved, refused)
    {
      var todo;
      ghost var queue;
      todo, queue := Reserve(now, watchLocked, queueLocked);
      ReservedRows(old(rows), policy, now, watchLocked, queueLocked, queue, todo, old(nextJob), rows);
      reserved := todo;
      ghost var taken := rows;
      launched := DispatchAll(todo, pools, refused, unsent, now);
      AllLaunch(taken, todo, refused);
      DispatchedRows(old(rows), Watchdog(old(rows), policy, now, watchLocked), taken, rows, policy, now, old(nextJob), todo, refused, unsent);
    }
  }

  /** The queue holds the oldest of the waiting captures, in order, and the rest are left. */
  ghost predicate Chosen(rows: Table, waiting: set<CaptureId>, queue: seq<CaptureId>, left: set<CaptureId>) {
    && left <= waiting <= rows.Keys
    && Distinct(queue)
    && (forall k :: 0 <= k < |queue| ==> queue[k] in waiting && queue[k] !in left)
    && (forall i :: i in waiting && i !in left ==> i in queue)
    && (forall k, l :: 0 <= k < l < |queue| ==> rows[queue[k]].createdAt <= rows[queue[l]].createdAt)
    && (forall k, i :: 0 <= k < |queue| && i in left ==> rows[queue[k]].createdAt <= rows[i].createdAt)
  }

  lemma ChooseOldest(rows: Table, waiting: set<CaptureId>, queue: seq<CaptureId>, left: set<CaptureId>, oldest: CaptureId)
    requires Chosen(rows, waiting, queue, left) && oldest in left
    requires forall i :: i in left ==> rows[oldest].createdAt <= rows[i].createdAt
    ensures Chosen(rows, waiting, queue + [oldest], left - {oldest})
  {
    var next := queue + [oldest];
    forall i | i in waiting && i !in left - {oldest}
      ensures i in next
    {
      assert i == oldest || i in queue;
    }
  }

  /** Each of these captures was decided; no other row changed. */
  ghost predicate AllDecided(before: Table, after: Table, todo: seq<CaptureId>, refused: set<CaptureId>, unsent: set<CaptureId>, now: Time) {
    && after.Keys == before.Keys
    && (forall i :: i in after && i !in todo ==> after[i] == before[i])
    && (forall k :: 0 <= k < |todo| && todo[k] in after ==>
          Decided(before[todo[k]], after[todo[k]], todo[k] in refused, todo[k] in unsent, now))
  }

  /** The first of these captures were decided; no other row changed. */
  ghost predicate SoFar(before: Table, after: Table, todo: seq<CaptureId>, n: nat, refused: set<CaptureId>, unsent: set<CaptureId>, now: Time)
    requires n <= |todo|
  {
    && after.Keys == before.Keys
    && (forall i :: i in after && i !in todo[..n] ==> after[i] == before[i])
    && (forall k :: 0 <= k < n && todo[k] in after ==>
          Decided(before[todo[k]], after[todo[k]], todo[k] in refused, todo[k] in unsent, now))
  }

  lemma OneMoreDecided(before: Table, mid: Table, after: Table, todo: seq<CaptureId>, n: nat, refused: set<CaptureId>,
                       unsent: set<CaptureId>, now: Time)
    requires n < |todo| && Distinct(todo) && SoFar(before, mid, todo, n, refused, unsent, now)
    requires todo[n] !in mid ==> after == mid
    requires todo[n] in mid ==> todo[n] in after && after == mid[todo[n] := after[todo[n]]]
                                && Decided(mid[todo[n]], after[todo[n]], todo[n] in refused, todo[n] in unsent, now)
    ensures SoFar(before, after, todo, n + 1, refused, unsent, now)
  {
    assert todo[..n + 1] == todo[..n] + [todo[n]];
    assert todo[n] !in todo[..n];
  }

  predicate Launches(rows: Table, id: CaptureId, refused: bool) {
    id in rows && LaunchBuildsJob(rows[id], refused)
  }

  function CountLaunches(rows: Table, s: seq<CaptureId>, refused: set<CaptureId>): nat {
    if s == [] then 0
    else CountLaunches(rows, s[..|s| - 1], refused) + if Launches(rows, s[|s| - 1], s[|s| - 1] in refused) then 1 else 0
  }

  /** Of running captures exactly those not refused launch. */
  lemma {:induction false} AllLaunch(rows: Table, s: seq<CaptureId>, refused: set<CaptureId>)
    requires forall i :: i in s ==> i in rows && rows[i].status.Running? && rows[i].taskId.Some?
    ensures CountLaunches(rows, s, refused) == CountOutside(s, refused)
  {
    if s != [] {
      AllLaunch(rows, s[..|s| - 1], refused);
    }
  }

  /** The reserved rows were queued and took a slot each; the watchdog made the rest. */
  ghost predicate Took(before: Table, watched: Table, taken: Table, p: Policy, now: Time, job: JobId, reserved: seq<CaptureId>) {
    && taken.Keys == before.Keys == watched.Keys
    && (forall i :: i in before && i !in reserved ==> taken[i] == watched[i])
    && (forall k :: 0 <= k < |reserved| ==>
          && reserved[k] in before && before[reserved[k]].status.Queued?
          && taken[reserved[k]] == TakeSlot(before[reserved[k]], p, now, job + k))
  }

  /** The reserved rows were queued, took a slot each and were decided; the watchdog made the rest. */
  ghost predicate Dispatched(before: Table, watched: Table, after: Table, p: Policy, now: Time, job: JobId, reserved: seq<CaptureId>,
                             refused: set<CaptureId>, unsent: set<CaptureId>) {
    && after.Keys == before.Keys == watched.Keys
    && (forall i :: i in before && i !in reserved ==> after[i] == watched[i])
    && (forall k :: 0 <= k < |reserved| ==>
          && reserved[k] in before && before[reserved[k]].status.Queued?
          && Decided(TakeSlot(before[reserved[k]], p, now, job + k), after[reserved[k]], reserved[k] in refused, reserved[k] in unsent, now))
  }

  lemma DispatchedRows(before: Table, watched: Table, taken: Table, after: Table, p: Policy, now: Time, job: JobId,
                       reserved: seq<CaptureId>, refused: set<CaptureId>, unsent: set<CaptureId>)
    requires Took(before, watched, taken, p, now, job, reserved) && AllDecided(taken, after, reserved, refused, unsent, now)
    ensures Dispatched(before, watched, after, p, now, job, reserved, refused, unsent)
  {
  }

  function CountOutside(s: seq<CaptureId>, out: set<CaptureId>): nat {
    if s == [] then 0 else CountOutside(s[..|s| - 1], out) + if s[|s| - 1] in out then 0 else 1
  }

  /** `taken` is the table after the watchdog and after the picked rows took their slots. */
  ghost predicate Reservation(rows: Table, p: Policy, now: Time, watchLocked: set<CaptureId>, queueLocked: set<CaptureId>,
                              queue: seq<CaptureId>, reserved: seq<CaptureId>, job: JobId, taken: Table) {
    var watched := Watchdog(rows, p, now, watchLocked);
    var free := FreeSlots(watched, p, now);
    if free <= 0 then reserved == [] && taken == watched
    else
      && IsQueueHead(watched, queueLocked, free * 5, queue)
      && (forall i :: i in queue ==> i in watched)
      && reserved == Picked(watched, queue, free)
      && (forall i :: i in reserved ==> i in watched)
      && taken == TakeSlots(watched, p, now, reserved, job)
  }

  /** Only free slots are taken, only by queued rows, each with a job number of its own; the watchdog made the rest. */
  lemma ReservedRows(rows: Table, p: Policy, now: Time, watchLocked: set<CaptureId>, queueLocked: set<CaptureId>,
                     queue: seq<CaptureId>, reserved: seq<CaptureId>, job: JobId, taken: Table)
    requires Reservation(rows, p, now, watchLocked, queueLocked, queue, reserved, job, taken)
    ensures Distinct(reserved) && |reserved| <= Max(0, FreeSlots(Watchdog(rows, p, now, watchLocked), p, now))
    ensures Took(rows, Watchdog(rows, p, now, watchLocked), taken, p, now, job, reserved)
  {
    var watched := Watchdog(rows, p, now, watchLocked);
    var free := FreeSlots(watched, p, now);
    if free > 0 {
      PickedFairly(watched, queue, free);
      TakeSlotsAt(watched, p, now, reserved, job);
      forall k | 0 <= k < |reserved|
        ensures reserved[k] in rows && rows[reserved[k]].status.Queued? && taken[reserved[k]] == TakeSlot(rows[reserved[k]], p, now, job + k)
      {
        assert reserved[k] in queue;
      }
    }
  }

  /** What one pass makes of a row it reserved: nothing if it is not running any more. */
  predicate Decided(before: Capture, after: Capture, refused: bool, unsent: bool, now: Time) {
    if !before.status.Running? || before.taskId.None? then after == before
    else if refused then after == before.(status := Blocked, slotUntil := None)
    else
      && after.pool.Some?
      && after == (if unsent then before.(status := Failed, slotUntil := None, pool := after.pool)
                   else before.(dispatchedAt := Some(now), pool := after.pool))
  }

  /** What the desk reserves is what the step of the run model reserves, from any state with these rows. */
  lemma ReservationIsStep(s: State, g: Config, clock: Time, watchLocked: set<CaptureId>, queueLocked: set<CaptureId>,
                          queue: seq<CaptureId>, reserved: seq<CaptureId>, taken: Table)
    requires clock <= s.now && Reservation(s.rows, g.policy, clock, watchLocked, queueLocked, queue, reserved, s.nextJob, taken)
    ensures CanReserve(s, g, clock, watchLocked, queueLocked, queue)
    ensures ApplyReserve(s, g, clock, watchLocked, queue) ==
            s.(rows := taken, nextJob := s.nextJob + |reserved|, dispatching := s.dispatching + map i | i in reserved :: Reserved)
  {
    var watched := Watched(s, g, clock, watchLocked);
    if FreeSlots(watched, g.policy, clock) <= 0 {
      NobodyReserved(s.dispatching);
      assert ApplyReserve(s, g, clock, watchLocked, queue) == s.(rows := taken);
    } else {
      var picked := Picked(watched, queue, FreeSlots(watched, g.policy, clock));
      assert reserved == picked;
    }
  }

  lemma NobodyReserved(dispatching: map<CaptureId, Phase>)
    ensures dispatching + (map i | i in [] :: Reserved) == dispatching
  {
  }
}
