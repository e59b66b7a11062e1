/**
 Who gets the free slots: the order in which waiting captures are served, told from their places in the queue
 (backend/app/screenshots/service.py, reserve).
 */
module CaptureOrder {
  import opened Prelude
  import opened Captures

  predicate AllKnown(rows: Table, queue: seq<CaptureId>) {
    forall i :: i in queue ==> i in rows
  }

  /** Nobody of the same tenant waits before it. */
  predicate FirstOfTenant(rows: Table, queue: seq<CaptureId>, k: nat)
    requires AllKnown(rows, queue) && k < |queue|
  {
    forall l :: 0 <= l < k ==> rows[queue[l]].tenant != rows[queue[k]].tenant
  }

  /** The first of each tenant come before all others; otherwise the queue decides. */
  predicate Ahead(rows: Table, queue: seq<CaptureId>, k: nat, l: nat)
    requires AllKnown(rows, queue) && k < |queue| && l < |queue|
  {
    var a, b := FirstOfTenant(rows, queue, k), FirstOfTenant(rows, queue, l);
    (a && !b) || (a == b && k < l)
  }

  /** Both are listed, the one before the other. */
  ghost predicate Before(s: seq<CaptureId>, i: CaptureId, j: CaptureId) {
    exists a, b :: 0 <= a < b < |s| && s[a] == i && s[b] == j
  }

  lemma BeforeInRest(s: seq<CaptureId>, rest: seq<CaptureId>, head: CaptureId, i: CaptureId, j: CaptureId)
    requires s == [head] + rest && Before(rest, i, j)
    ensures Before(s, i, j)
  {
    var a, b :| 0 <= a < b < |rest| && rest[a] == i && rest[b] == j;
    assert s[a + 1] == i && s[b + 1] == j;
  }

  lemma HeadBefore(s: seq<CaptureId>, rest: seq<CaptureId>, head: CaptureId, j: CaptureId)
    requires s == [head] + rest && j in rest
    ensures Before(s, head, j)
  {
    var b :| 0 <= b < |rest| && rest[b] == j;
    assert s[0] == head && s[b + 1] == j;
  }

  /** The picked firsts are those whose tenant was not seen and waits nowhere before them. */
  lemma {:induction false} FirstsAre(rows: Table, queue: seq<CaptureId>, seen: set<Tenant>, k: nat)
    requires AllKnown(rows, queue) && Distinct(queue) && k < |queue|
    ensures queue[k] in FirstPerTenant(rows, queue, seen) <==> FirstOfTenant(rows, queue, k) && rows[queue[k]].tenant !in seen
    decreases |queue|
  {
    var rest, t := queue[1..], rows[queue[0]].tenant;
    if k == 0 {
      assert queue[0] !in rest;
    } else {
      FirstsAre(rows, rest, if t in seen then seen else seen + {t}, k - 1);
      assert rest[k - 1] == queue[k];
      assert FirstOfTenant(rows, queue, k) <==> FirstOfTenant(rows, rest, k - 1) && t != rows[queue[k]].tenant by {
        assert forall l :: 0 <= l < k - 1 ==> rest[l] == queue[l + 1];
        if FirstOfTenant(rows, queue, k) {
          assert rows[queue[0]].tenant != rows[queue[k]].tenant;
          forall l | 0 <= l < k - 1
            ensures rows[rest[l]].tenant != rows[rest[k - 1]].tenant
          {
            assert rows[queue[l + 1]].tenant != rows[queue[k]].tenant;
          }
        } else {
          var l :| 0 <= l < k && rows[queue[l]].tenant == rows[queue[k]].tenant;
          assert l == 0 || rest[l - 1] == queue[l];
        }
      }
    }
  }

  lemma {:induction false} FirstsInOrder(rows: Table, queue: seq<CaptureId>, seen: set<Tenant>, k: nat, l: nat)
    requires AllKnown(rows, queue) && Distinct(queue) && k < l < |queue|
    requires queue[k] in FirstPerTenant(rows, queue, seen) && queue[l] in FirstPerTenant(rows, queue, seen)
    ensures Before(FirstPerTenant(rows, queue, seen), queue[k], queue[l])
    decreases |queue|
  {
    var rest, t := queue[1..], rows[queue[0]].tenant;
    FirstsAre(rows, queue, seen, k);
    assert rest[l - 1] == queue[l] && queue[l] != queue[0];
    if t in seen {
      FirstsInOrder(rows, rest, seen, k - 1, l - 1);
    } else {
      var others := FirstPerTenant(rows, rest, seen + {t});
      if k == 0 {
        HeadBefore(FirstPerTenant(rows, queue, seen), others, queue[0], queue[l]);
      } else {
        assert rest[k - 1] == queue[k] && queue[k] != queue[0];
        FirstsInOrder(rows, rest, seen + {t}, k - 1, l - 1);
        BeforeInRest(FirstPerTenant(rows, queue, seen), others, queue[0], queue[k], queue[l]);
      }
    }
  }

  lemma {:induction false} OthersInOrder(queue: seq<CaptureId>, first: seq<CaptureId>, k: nat, l: nat)
    requires Distinct(queue) && k < l < |queue| && queue[k] !in first && queue[l] !in first
    ensures Before(Without(queue, first), queue[k], queue[l])
    decreases |queue|
  {
    var rest := queue[1..];
    assert rest[l - 1] == queue[l];
    if k == 0 {
      WithoutIs(rest, first, queue[l]);
      HeadBefore(Without(queue, first), Without(rest, first), queue[0], queue[l]);
    } else {
      assert rest[k - 1] == queue[k];
      OthersInOrder(rest, first, k - 1, l - 1);
      if queue[0] !in first {
        BeforeInRest(Without(queue, first), Without(rest, first), queue[0], queue[k], queue[l]);
      }
    }
  }

  lemma BeforeInSum(s: seq<CaptureId>, t: seq<CaptureId>, i: CaptureId, j: CaptureId)
    requires Before(s, i, j) || Before(t, i, j) || (i in s && j in t)
    ensures Before(s + t, i, j)
  {
    if Before(s, i, j) {
      var a, b :| 0 <= a < b < |s| && s[a] == i && s[b] == j;
      assert (s + t)[a] == i && (s + t)[b] == j;
    } else if Before(t, i, j) {
      var a, b :| 0 <= a < b < |t| && t[a] == i && t[b] == j;
      assert (s + t)[|s| + a] == i && (s + t)[|s| + b] == j;
    } else {
      var a :| 0 <= a < |s| && s[a] == i;
      var b :| 0 <= b < |t| && t[b] == j;
      assert (s + t)[a] == i && (s + t)[|s| + b] == j;
    }
  }

  lemma AheadIsBefore(rows: Table, queue: seq<CaptureId>, k: nat, l: nat)
    requires AllKnown(rows, queue) && Distinct(queue) && k < |queue| && l < |queue| && Ahead(rows, queue, k, l)
    ensures Before(ServingOrder(rows, queue), queue[k], queue[l])
  {
    var first := FirstPerTenant(rows, queue, {});
    FirstsAre(rows, queue, {}, k);
    FirstsAre(rows, queue, {}, l);
    WithoutIs(queue, first, queue[l]);
    if queue[k] in first {
      if queue[l] in first {
        FirstsInOrder(rows, queue, {}, k, l);
      }
    } else {
      OthersInOrder(queue, first, k, l);
    }
    BeforeInSum(first, Without(queue, first), queue[k], queue[l]);
  }

  /**
   Nobody is served before somebody ahead of it: with the number of free slots, the places in the queue and the
   tenants alone decide who is served.
   */
  lemma ServedInOrder(rows: Table, queue: seq<CaptureId>, free: nat, k: nat, l: nat)
    requires AllKnown(rows, queue) && Distinct(queue) && k < |queue| && l < |queue| && Ahead(rows, queue, k, l)
    ensures queue[l] in Picked(rows, queue, free) ==> queue[k] in Picked(rows, queue, free)
    ensures |Picked(rows, queue, free)| == if free <= |queue| then free else |queue|
  {
    var order, picked := ServingOrder(rows, queue), Picked(rows, queue, free);
    ServingOrderRearranges(rows, queue);
    AheadIsBefore(rows, queue, k, l);
    var a, b :| 0 <= a < b < |order| && order[a] == queue[k] && order[b] == queue[l];
    if queue[l] in picked {
      var m :| 0 <= m < |picked| && picked[m] == queue[l];
      assert order[m] == order[b] && m == b;
      assert picked[a] == queue[k];
    }
  }
}
