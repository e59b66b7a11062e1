/**
 The daily allowance as a ledger: in every run, a tenant's counter for a day is what it created
 that day less what it cancelled, still queued, that same day.
 */
module CaptureLedger {
  import opened Prelude
  import opened Captures
  import opened CaptureSystem
  import opened CaptureBinding

  type Created = map<CaptureId, DayKey>

  function CreatedOn(created: Created, key: DayKey): set<CaptureId> {
    set i | i in created && created[i] == key
  }

  /** Captures of that day cancelled before they started, on that day. */
  function RefundedOn(created: Created, refunded: set<CaptureId>, key: DayKey): set<CaptureId> {
    set i | i in refunded && i in created && created[i] == key
  }

  /** Rows carry the day they were counted on; a refunded row is a cancelled one. */
  ghost predicate CountedOk(rows: Table, created: Created, refunded: set<CaptureId>, nextId: CaptureId) {
    && (forall i :: i in created ==> i < nextId)
    && (forall i :: i in rows ==> i in created && created[i] == (rows[i].tenant, Day(rows[i].createdAt)))
    && refunded <= created.Keys
    && (forall i :: i in refunded && i in rows ==> rows[i].status.Cancelled?)
  }

  predicate DayBalanced(usage: Usage, created: Created, refunded: set<CaptureId>, t: Tenant, d: int) {
    Used(usage, t, d) == |CreatedOn(created, (t, d))| - |RefundedOn(created, refunded, (t, d))|
  }

  /** Days older than a week may already have been purged. */
  ghost predicate Balanced(usage: Usage, created: Created, refunded: set<CaptureId>, today: int) {
    forall t: Tenant, d: int :: d >= today - 7 ==> DayBalanced(usage, created, refunded, t, d)
  }

  ghost predicate WithinDaily(usage: Usage, g: Config) {
    forall t: Tenant, d: int :: Used(usage, t, d) <= g.policy.perTenantDaily
  }

  ghost predicate WithinQueue(rows: Table, g: Config) {
    forall t: Tenant :: |ActiveOf(rows, t)| <= g.policy.perTenantQueued
  }

  ghost predicate OnePerEndpoint(rows: Table) {
    forall i, j :: i in rows && j in rows && rows[i].asset == rows[j].asset && Active(rows[i].status) && Active(rows[j].status) ==> i == j
  }

  ghost predicate LedgerOk(s: State, g: Config) {
    && CountedOk(s.rows, s.created, s.refunded, s.nextId)
    && Balanced(s.usage, s.created, s.refunded, Day(s.now))
    && WithinDaily(s.usage, g)
    && WithinQueue(s.rows, g)
    && OnePerEndpoint(s.rows)
  }

  // ----------------------------------------------- rows across steps that count nothing

  predicate SameBookRow(c: Capture, d: Capture) {
    && d.tenant == c.tenant && d.asset == c.asset && d.createdAt == c.createdAt
    && (Active(d.status) ==> Active(c.status))
    && (c.status.Cancelled? ==> d.status.Cancelled?)
  }

  /** Rows keep their tenant, endpoint and day; none becomes active, and none leaves the cancelled state. */
  ghost predicate SameBookRows(a: Table, b: Table) {
    forall i :: i in b ==> i in a && SameBookRow(a[i], b[i])
  }

  ghost predicate SameBooks(s: State, t: State) {
    && t.usage == s.usage && t.created == s.created && t.refunded == s.refunded && t.nextId == s.nextId
    && s.now <= t.now
    && SameBookRows(s.rows, t.rows)
  }

  lemma SameRowsKeep(a: Table, b: Table, g: Config)
    requires SameBookRows(a, b) && WithinQueue(a, g) && OnePerEndpoint(a)
    ensures WithinQueue(b, g) && OnePerEndpoint(b)
  {
    forall t: Tenant
      ensures |ActiveOf(b, t)| <= g.policy.perTenantQueued
    {
      assert forall i :: i in b ==> SameBookRow(a[i], b[i]);
      SubsetSize(ActiveOf(b, t), ActiveOf(a, t));
    }
    forall i, j | i in b && j in b && b[i].asset == b[j].asset && Active(b[i].status) && Active(b[j].status)
      ensures i == j
    {
      assert SameBookRow(a[i], b[i]) && SameBookRow(a[j], b[j]);
    }
  }

  lemma SameBooksKeep(s: State, t: State, g: Config)
    requires SameBooks(s, t) && LedgerOk(s, g)
    ensures LedgerOk(t, g)
  {
    SameRowsKeep(s.rows, t.rows, g);
    assert Day(s.now) <= Day(t.now);
    assert forall i :: i in t.rows ==> SameBookRow(s.rows[i], t.rows[i]);
  }

  lemma BookRowsTrans(a: Table, b: Table, c: Table)
    requires SameBookRows(a, b) && SameBookRows(b, c)
    ensures SameBookRows(a, c)
  {
    forall i | i in c
      ensures i in a && SameBookRow(a[i], c[i])
    {
      assert SameBookRow(a[i], b[i]) && SameBookRow(b[i], c[i]);
    }
  }

  lemma ReserveSameBooks(s: State, g: Config, clock: Time, watchLocked: set<CaptureId>, queueLocked: set<CaptureId>, queue: seq<CaptureId>)
    requires CanReserve(s, g, clock, watchLocked, queueLocked, queue)
    ensures SameBooks(s, ApplyReserve(s, g, clock, watchLocked, queue))
  {
    var rows := Watched(s, g, clock, watchLocked);
    var free := FreeSlots(rows, g.policy, clock);
    assert SameBookRows(s.rows, rows);
    if free > 0 {
      PickedAreQueued(rows, queueLocked, free, queue);
      var picked := Picked(rows, queue, free);
      TakeSlotsSameBooks(rows, g, clock, picked, s.nextJob);
      BookRowsTrans(s.rows, rows, TakeSlots(rows, g.policy, clock, picked, s.nextJob));
    }
  }

  lemma TakeSlotsSameBooks(rows: Table, g: Config, clock: Time, picked: seq<CaptureId>, job: JobId)
    requires Distinct(picked) && forall i :: i in picked ==> i in rows && rows[i].status.Queued?
    ensures SameBookRows(rows, TakeSlots(rows, g.policy, clock, picked, job))
  {
    TakeSlotsAt(rows, g.policy, clock, picked, job);
    var t := TakeSlots(rows, g.policy, clock, picked, job);
    forall i | i in t
      ensures SameBookRow(rows[i], t[i])
    {
      if i in picked {
        var k :| 0 <= k < |picked| && picked[k] == i;
      }
    }
  }

  predicate Counts(step: Step) {
    step.Request? || step.CancelCapture? || step.PurgeUsage?
  }

  lemma OneRowSameBooks(a: Table, b: Table, id: CaptureId)
    requires id in a && id in b && b == a[id := b[id]] && SameBookRow(a[id], b[id])
    ensures SameBookRows(a, b)
  {
  }

  lemma ReceiveSameBooks(s: State, env: Envelope, outcome: Status)
    requires outcome.Succeeded? || outcome.Failed? || outcome.Blocked?
    ensures SameBooks(s, ApplyReceive(s, env, outcome))
  {
    var t := ApplyReceive(s, env, outcome);
    var i := env.stageId;
    if i in s.rows {
      assert t.rows == s.rows[i := t.rows[i]];
      OneRowSameBooks(s.rows, t.rows, i);
    }
  }

  lemma LaunchSameBooks(s: State, g: Config, id: CaptureId, pool: Pool, refused: bool)
    ensures SameBooks(s, ApplyLaunch(s, g, id, pool, refused))
  {
    if id in s.rows {
      var rows := s.rows[id := Launch(s.rows[id], pool, refused)];
      OneRowSameBooks(s.rows, rows, id);
      if LaunchBuildsJob(s.rows[id], refused) {
        assert ApplyLaunch(s, g, id, pool, refused).rows == rows;
      } else {
        assert ApplyLaunch(s, g, id, pool, refused).rows == rows;
      }
    }
  }

  lemma MarkSameBooks(s: State, id: CaptureId)
    requires id in s.dispatching && (s.dispatching[id].Sent? || s.dispatching[id].Unsent?)
    ensures SameBooks(s, ApplyMark(s, id))
  {
    if id in s.rows {
      OneRowSameBooks(s.rows, ApplyMark(s, id).rows, id);
    }
  }

  /** Steps that leave the rows alone. */
  lemma QuietSameBooks(s: State, t: State)
    requires t.usage == s.usage && t.created == s.created && t.refunded == s.refunded && t.nextId == s.nextId
    requires s.now <= t.now && t.rows == s.rows
    ensures SameBooks(s, t)
  {
  }

  /** Results, deletions, the dispatcher and the passage of time never move a counter. */
  lemma OtherStepsSameBooks(s: State, g: Config, step: Step)
    requires Enabled(s, g, step) && !Counts(step)
    ensures SameBooks(s, Apply(s, g, step))
  {
    match step
    case Reserve(clock, watchLocked, queueLocked, queue) => ReserveSameBooks(s, g, clock, watchLocked, queueLocked, queue);
    case ReceiveResult(env, outcome) => ReceiveSameBooks(s, env, outcome);
    case LaunchCapture(id, pool, refused) => LaunchSameBooks(s, g, id, pool, refused);
    case Mark(id) => MarkSameBooks(s, id);
    case Delete(id) => assert SameBookRows(s.rows, s.rows - {id});
    case Tick(to) => QuietSameBooks(s, Apply(s, g, step));
    case Publish(id, ok) => QuietSameBooks(s, ApplyPublish(s, id, ok));
    case CrashDispatcher(_) => QuietSameBooks(s, Apply(s, g, step));
    case Deliver(job) =>
      DeliverTouches(s, g, job);
      QuietSameBooks(s, ApplyDeliver(s, g, job));
    case End(_) => QuietSameBooks(s, Apply(s, g, step));
  }

  // --------------------------------------------------------------- steps that count

  lemma CreatedOneMore(created: Created, refunded: set<CaptureId>, today: DayKey, id: CaptureId, key: DayKey)
    requires id !in created && refunded <= created.Keys
    ensures RefundedOn(created[id := today], refunded, key) == RefundedOn(created, refunded, key)
    ensures |CreatedOn(created[id := today], key)| == |CreatedOn(created, key)| + if key == today then 1 else 0
  {
    if key == today {
      assert CreatedOn(created[id := today], key) == CreatedOn(created, key) + {id};
    } else {
      assert CreatedOn(created[id := today], key) == CreatedOn(created, key);
    }
  }

  lemma CreationBalancesDay(usage: Usage, created: Created, refunded: set<CaptureId>, today: DayKey, id: CaptureId, u: Tenant, d: int)
    requires DayBalanced(usage, created, refunded, u, d) && id !in created && refunded <= created.Keys
    ensures DayBalanced(usage[today := Used(usage, today.0, today.1) + 1], created[id := today], refunded, u, d)
  {
    CreatedOneMore(created, refunded, today, id, (u, d));
  }

  lemma ActiveOneMore(rows: Table, id: CaptureId, tenant: Tenant, a: Endpoint, now: Time, u: Tenant)
    requires id !in rows
    ensures |ActiveOf(rows[id := NewCapture(tenant, a, now)], u)| == |ActiveOf(rows, u)| + if u == tenant then 1 else 0
  {
    var t := rows[id := NewCapture(tenant, a, now)];
    if u == tenant {
      assert ActiveOf(t, u) == ActiveOf(rows, u) + {id};
    } else {
      assert ActiveOf(t, u) == ActiveOf(rows, u);
    }
  }

  lemma RequestWithinQueue(rows: Table, g: Config, id: CaptureId, tenant: Tenant, a: Endpoint, now: Time)
    requires id !in rows && WithinQueue(rows, g) && |ActiveOf(rows, tenant)| < g.policy.perTenantQueued
    ensures WithinQueue(rows[id := NewCapture(tenant, a, now)], g)
  {
    var t := rows[id := NewCapture(tenant, a, now)];
    forall u: Tenant
      ensures |ActiveOf(t, u)| <= g.policy.perTenantQueued
    {
      ActiveOneMore(rows, id, tenant, a, now, u);
    }
  }

  lemma RequestOnePerEndpoint(rows: Table, id: CaptureId, tenant: Tenant, a: Endpoint, now: Time)
    requires id !in rows && OnePerEndpoint(rows) && !EndpointBusy(rows, a)
    ensures OnePerEndpoint(rows[id := NewCapture(tenant, a, now)])
  {
  }

  lemma RequestKeepsLedger(s: State, g: Config, tenant: Tenant, a: Endpoint, enabled: bool, authorized: bool)
    requires LedgerOk(s, g)
    ensures LedgerOk(ApplyRequest(s, g, tenant, a, enabled, authorized), g)
  {
    if Admits(s.rows, s.usage, g.policy, tenant, a, s.now, enabled, authorized) {
      var t := CreateCapture(s, tenant, a);
      assert s.nextId !in s.created && s.nextId !in s.rows;
      RequestWithinQueue(s.rows, g, s.nextId, tenant, a, s.now);
      RequestOnePerEndpoint(s.rows, s.nextId, tenant, a, s.now);
      forall u: Tenant, d: int
        ensures Used(t.usage, u, d) <= g.policy.perTenantDaily
        ensures d >= Day(s.now) - 7 ==> DayBalanced(t.usage, t.created, t.refunded, u, d)
      {
        assert Used(s.usage, u, d) <= g.policy.perTenantDaily;
        if d >= Day(s.now) - 7 {
          CreationBalancesDay(s.usage, s.created, s.refunded, (tenant, Day(s.now)), s.nextId, u, d);
        }
      }
    }
  }

  /** The counter of the day is positive when a queued capture of the day is cancelled: the clamp at zero never acts. */
  lemma RefundIsCovered(s: State, g: Config, id: CaptureId)
    requires LedgerOk(s, g) && id in s.rows && GivesBack(s.rows[id], s.now)
    ensures Used(s.usage, s.rows[id].tenant, Day(s.now)) >= 1
  {
    var key := (s.rows[id].tenant, Day(s.now));
    var created, refunded := CreatedOn(s.created, key), RefundedOn(s.created, s.refunded, key);
    assert id in created && id !in refunded;
    SubsetSize(refunded, created - {id});
    assert DayBalanced(s.usage, s.created, s.refunded, key.0, key.1);
  }

  lemma RefundBalances(usage: Usage, created: Created, refunded: set<CaptureId>, today: int, id: CaptureId)
    requires Balanced(usage, created, refunded, today) && id in created && id !in refunded && created[id].1 == today
    requires Used(usage, created[id].0, today) >= 1
    ensures Balanced(usage[created[id] := Used(usage, created[id].0, today) - 1], created, refunded + {id}, today)
  {
    var usage' := usage[created[id] := Used(usage, created[id].0, today) - 1];
    forall u: Tenant, d: int | d >= today - 7
      ensures DayBalanced(usage', created, refunded + {id}, u, d)
    {
      assert DayBalanced(usage, created, refunded, u, d);
      assert RefundedOn(created, refunded + {id}, (u, d)) ==
             RefundedOn(created, refunded, (u, d)) + if (u, d) == created[id] then {id} else {};
    }
  }

  lemma CancelKeepsLedger(s: State, g: Config, id: CaptureId)
    requires LedgerOk(s, g) && id in s.rows
    ensures LedgerOk(ApplyCancel(s, id), g)
  {
    var t := ApplyCancel(s, id);
    OneRowSameBooks(s.rows, t.rows, id);
    SameRowsKeep(s.rows, t.rows, g);
    assert forall i :: i in t.rows ==> SameBookRow(s.rows[i], t.rows[i]);
    if GivesBack(s.rows[id], s.now) {
      RefundIsCovered(s, g, id);
      RefundBalances(s.usage, s.created, s.refunded, Day(s.now), id);
      forall u: Tenant, d: int
        ensures Used(t.usage, u, d) <= g.policy.perTenantDaily
      {
        assert Used(t.usage, u, d) <= Used(s.usage, u, d);
      }
    }
  }

  lemma PurgeKeepsLedger(s: State, g: Config, tenant: Tenant)
    requires LedgerOk(s, g)
    ensures LedgerOk(ApplyPurge(s, tenant), g)
    ensures forall u: Tenant, d: int :: d >= Day(s.now) - 7 ==> Used(ApplyPurge(s, tenant).usage, u, d) == Used(s.usage, u, d)
  {
    var t := ApplyPurge(s, tenant);
    assert Day(s.now - 7 * DAY) == Day(s.now) - 7;
    forall u: Tenant, d: int
      ensures Used(t.usage, u, d) <= g.policy.perTenantDaily
      ensures d >= Day(s.now) - 7 ==> DayBalanced(t.usage, t.created, t.refunded, u, d)
    {
      assert Used(s.usage, u, d) <= g.policy.perTenantDaily;
      assert d >= Day(s.now) - 7 ==> DayBalanced(s.usage, s.created, s.refunded, u, d);
    }
  }

  // ------------------------------------------------------------------------- runs

  lemma StepKeepsLedger(s: State, g: Config, step: Step)
    requires LedgerOk(s, g) && Enabled(s, g, step)
    ensures LedgerOk(Apply(s, g, step), g)
  {
    match step
    case Request(t, a, enabled, authorized) => RequestKeepsLedger(s, g, t, a, enabled, authorized);
    case CancelCapture(id) => CancelKeepsLedger(s, g, id);
    case PurgeUsage(t) => PurgeKeepsLedger(s, g, t);
    case _ =>
      OtherStepsSameBooks(s, g, step);
      SameBooksKeep(s, Apply(s, g, step), g);
  }

  lemma {:induction false} RunKeepsLedger(s: State, g: Config, steps: seq<Step>)
    requires LedgerOk(s, g) && IsRun(s, g, steps)
    ensures LedgerOk(After(s, g, steps), g)
    decreases |steps|
  {
    if steps != [] {
      StepKeepsLedger(s, g, steps[0]);
      RunKeepsLedger(Apply(s, g, steps[0]), g, steps[1..]);
    }
  }

  lemma StartsBalanced(g: Config)
    ensures LedgerOk(START, g)
  {
    assert forall t: Tenant :: ActiveOf(START.rows, t) == {};
    forall t: Tenant, d: int
      ensures DayBalanced(START.usage, START.created, START.refunded, t, d)
    {
      assert CreatedOn(START.created, (t, d)) == {} && RefundedOn(START.created, START.refunded, (t, d)) == {};
    }
  }

  /**
   In every run: the counter of every day of the past week is the number of captures created that
   day less those cancelled, still queued, that day; it never exceeds the daily cap; a tenant's
   active captures never exceed the queue cap; and no endpoint has two active captures.
   */
  lemma LedgerIsExact(g: Config, steps: seq<Step>)
    requires IsRun(START, g, steps)
    ensures var s := After(START, g, steps);
            && (forall t: Tenant, d: int :: d >= Day(s.now) - 7 ==>
                  Used(s.usage, t, d) == |CreatedOn(s.created, (t, d))| - |RefundedOn(s.created, s.refunded, (t, d))|)
            && (forall t: Tenant, d: int :: Used(s.usage, t, d) <= g.policy.perTenantDaily)
            && (forall t: Tenant :: |ActiveOf(s.rows, t)| <= g.policy.perTenantQueued)
            && OnePerEndpoint(s.rows)
  {
    StartsBalanced(g);
    RunKeepsLedger(START, g, steps);
    var s := After(START, g, steps);
    forall t: Tenant, d: int | d >= Day(s.now) - 7
      ensures Used(s.usage, t, d) == |CreatedOn(s.created, (t, d))| - |RefundedOn(s.created, s.refunded, (t, d))|
    {
      assert DayBalanced(s.usage, s.created, s.refunded, t, d);
    }
  }

  /** Today's counter moves only when a capture of today is created, or cancelled before it started. */
  lemma CounterMovesOnlyBy(s: State, g: Config, step: Step, tenant: Tenant)
    requires LedgerOk(s, g) && Enabled(s, g, step)
    requires Used(Apply(s, g, step).usage, tenant, Day(s.now)) != Used(s.usage, tenant, Day(s.now))
    ensures || (step.Request? && step.tenant == tenant && Admits(s.rows, s.usage, g.policy, tenant, step.asset, s.now, step.enabled, step.authorized))
            || (step.CancelCapture? && s.rows[step.id].tenant == tenant && GivesBack(s.rows[step.id], s.now))
  {
    if !Counts(step) {
      OtherStepsSameBooks(s, g, step);
    } else if step.PurgeUsage? {
      PurgeKeepsLedger(s, g, step.tenant);
    }
  }
}
