/**
 The settings speak of missed runs, but one run can count several misses for an asset. This says exactly when
 (backend/app/assets/ingest.py).
 */
module DoubleMisses {
  import opened Prelude
  import opened Assets
  import opened Findings
  import opened Cascade
  import opened IngestRules
  import opened CoverageRules
  import opened IngestRuns
  import opened Ingest

  // -------------------------------------------------------- misses as events

  function ListedUpTo(parts: seq<Part>, k: Key, n: nat): nat
    requires n <= |parts|
  {
    if n == 0 then 0 else ListedUpTo(parts, k, n - 1) + if parts[n - 1].Listing? then Times(parts[n - 1].listed, k) else 0
  }

  function Tagged(rows: set<RelationKey>, n: nat): set<(nat, RelationKey)> {
    set r | r in rows :: (n, r)
  }

  /** Every covered relation that led to the asset, with the part that covered it. */
  function Events(parts: seq<Part>, trace: seq<Tables>, seen: set<RelationKey>, k: Key, n: nat): set<(nat, RelationKey)>
    requires n <= |parts| && n <= |trace|
  {
    if n == 0 then {} else Events(parts, trace, seen, k, n - 1) + Tagged(Leading(PartRows(parts[n - 1], trace[n - 1], seen), k), n - 1)
  }

  lemma {:induction false} EventsAre(parts: seq<Part>, trace: seq<Tables>, seen: set<RelationKey>, k: Key, n: nat, e: (nat, RelationKey))
    requires n <= |parts| && n <= |trace|
    ensures e in Events(parts, trace, seen, k, n) <==> e.0 < n && e.1 in PartRows(parts[e.0], trace[e.0], seen) && e.1.target == k
  {
    if n > 0 {
      EventsAre(parts, trace, seen, k, n - 1, e);
      assert e in Tagged(Leading(PartRows(parts[n - 1], trace[n - 1], seen), k), n - 1) <==>
             e.0 == n - 1 && e.1 in Leading(PartRows(parts[n - 1], trace[n - 1], seen), k) by {
        assert e == (e.0, e.1);
      }
    }
  }

  lemma EventsOneMore(parts: seq<Part>, trace: seq<Tables>, seen: set<RelationKey>, k: Key, n: nat)
    requires n < |parts| && n < |trace|
    ensures |Events(parts, trace, seen, k, n + 1)| == |Events(parts, trace, seen, k, n)| + |Leading(PartRows(parts[n], trace[n], seen), k)|
  {
    var here := Tagged(Leading(PartRows(parts[n], trace[n], seen), k), n);
    TaggedSize(Leading(PartRows(parts[n], trace[n], seen), k), n);
    forall e | e in Events(parts, trace, seen, k, n)
      ensures e !in here
    {
      EventsAre(parts, trace, seen, k, n, e);
    }
    assert Events(parts, trace, seen, k, n) !! here;
  }

  lemma {:induction false} TaggedSize(rows: set<RelationKey>, n: nat)
    ensures |Tagged(rows, n)| == |rows|
  {
    if rows != {} {
      var x :| x in rows;
      TaggedSize(rows - {x}, n);
      assert Tagged(rows, n) == Tagged(rows - {x}, n) + {(n, x)};
    }
  }

  lemma PartMissesAre(p: Part, t: Tables, seen: Reported, k: Key)
    requires k !in seen.keys
    ensures PartMisses(p, t, seen, k) ==
            (if p.Listing? then Times(p.listed, k) else 0) + if CountsMisses(k.kind) then |Leading(PartRows(p, t, seen.rels), k)| else 0
  {
    if !p.Chunk? {
      assert Leading({}, k) == {};
    }
  }

  lemma {:induction false} MissesAreEvents(parts: seq<Part>, trace: seq<Tables>, seen: Reported, k: Key, n: nat)
    requires n <= |parts| && n <= |trace| && k !in seen.keys
    ensures MissesUpTo(parts, trace, seen, k, n) ==
            ListedUpTo(parts, k, n) + if CountsMisses(k.kind) then |Events(parts, trace, seen.rels, k, n)| else 0
  {
    if n > 0 {
      MissesAreEvents(parts, trace, seen, k, n - 1);
      EventsOneMore(parts, trace, seen.rels, k, n - 1);
      PartMissesAre(parts[n - 1], trace[n - 1], seen, k);
    }
  }

  // ---------------------------------------------- known before the run's coverage

  /** On the tables the coverage begins with, this part covers this relation, and it leads to the asset. */
  predicate Covers(parts: seq<Part>, begun: Tables, seen: set<RelationKey>, k: Key, n: nat, r: RelationKey)
    requires n < |parts|
  {
    CountsMisses(k.kind) && r.target == k && r in PartRows(parts[n], begun, seen)
  }

  /** No covered relation that leads to the asset hangs on something that went in this run. */
  ghost predicate Hold(parts: seq<Part>, begun: Tables, after: Tables, seen: set<RelationKey>, k: Key) {
    forall n: nat, r :: n < |parts| && Covers(parts, begun, seen, k, n, r) ==> r.source !in after.gone
  }

  /**
   At most one miss is due: the asset is listed at most once, and not at all if a covered relation leads to it;
   only one does, and it is covered by one part only, unless its first miss ends it.
   */
  ghost predicate DueAtMostOnce(parts: seq<Part>, begun: Tables, seen: set<RelationKey>, threshold: nat, k: Key) {
    && ListedUpTo(parts, k, |parts|) <= 1
    && (forall n: nat, r :: n < |parts| && Covers(parts, begun, seen, k, n, r) ==> ListedUpTo(parts, k, |parts|) == 0)
    && (forall m: nat, r, n: nat, s :: m < |parts| && n < |parts| && Covers(parts, begun, seen, k, m, r) && Covers(parts, begun, seen, k, n, s) ==>
          r == s && (m == n || begun.rels[r].missed + 1 >= threshold))
  }

  // ------------------------------------------------------- along the coverage

  /** Along a coverage, relations only weaken and assets keep what decides whether a relation is covered. */
  ghost predicate Follows(begun: Tables, t: Tables) {
    && OnlyWeaker(begun.rels, t.rels)
    && t.assets.Keys == begun.assets.Keys
    && forall k :: k in begun.assets ==> SameTraits(begun.assets[k], t.assets[k])
  }

  /** What a part of a coverage does to the relations, and what it keeps of everything else. */
  ghost predicate Leads(p: Part, before: Tables, after: Tables, seen: set<RelationKey>, threshold: nat) {
    && Follows(before, after) && before.gone <= after.gone
    && RowsDone(before.rels, after.rels, PartRows(p, before, seen), after.gone, threshold)
  }

  /** The parts of a coverage, with the tables before and after each. */
  datatype Trail = Trail(parts: seq<Part>, trace: seq<Tables>, seen: set<RelationKey>, threshold: nat)

  ghost predicate LedOn(w: Trail, n: nat)
    requires n < |w.parts| && n + 1 < |w.trace|
  {
    Leads(w.parts[n], w.trace[n], w.trace[n + 1], w.seen, w.threshold)
  }

  ghost predicate IsTrail(w: Trail) {
    |w.trace| == |w.parts| + 1 && forall n: nat {:trigger LedOn(w, n)} :: n < |w.parts| ==> LedOn(w, n)
  }

  function TrailOf(r: Run): Trail {
    Trail(r.Todo(), r.trace, r.Seen().rels, RelationThreshold(r.settings))
  }

  lemma PartLeads(p: Part, before: Tables, after: Tables, source: string, seen: Reported, settings: Settings, now: Time)
    requires OnePart(p, before, after, source, seen, settings, now)
    ensures Leads(p, before, after, seen.rels, RelationThreshold(settings))
  {
    var rows := PartRows(p, before, seen.rels);
    forall k | k in before.assets
      ensures k in after.assets && SameTraits(before.assets[k], after.assets[k])
    {
      PartCounts(p, before, after, source, seen, settings, now, k);
    }
    forall r | r in before.rels
      ensures r in after.rels && RowDone(before.rels, after.rels, rows, after.gone, RelationThreshold(settings), r)
    {
      assert !p.Issues? ==> RowDone(before.rels, after.rels, rows, after.gone, RelationThreshold(settings), r);
    }
  }

  lemma RunIsTrail(r: Run)
    requires IsRun(r)
    ensures IsTrail(TrailOf(r))
  {
    var w := TrailOf(r);
    forall n: nat | n < |w.parts|
      ensures LedOn(w, n)
    {
      assert PartDone(w.parts, w.trace, n, r.batch.source, r.Seen(), r.settings, r.now);
      PartLeads(w.parts[n], w.trace[n], w.trace[n + 1], r.batch.source, r.Seen(), r.settings, r.now);
    }
  }

  lemma {:induction false} TraceFollows(w: Trail, n: nat)
    requires IsTrail(w) && n <= |w.parts|
    ensures Follows(w.trace[0], w.trace[n])
  {
    if n > 0 {
      TraceFollows(w, n - 1);
      assert LedOn(w, n - 1);
      WeakerStill(w.trace[0].rels, w.trace[n - 1].rels, w.trace[n].rels);
    }
  }

  lemma {:induction false} GoneGrows(w: Trail, n: nat)
    requires IsTrail(w) && n <= |w.parts|
    ensures w.trace[n].gone <= w.trace[|w.parts|].gone
    decreases |w.parts| - n
  {
    if n < |w.parts| {
      assert LedOn(w, n);
      GoneGrows(w, n + 1);
    }
  }

  /** A part covers, when its turn comes, exactly what it covers at the beginning and is still live. */
  lemma CoversStillLive(p: Part, begun: Tables, t: Tables, seen: set<RelationKey>, r: RelationKey)
    requires Follows(begun, t)
    ensures r in PartRows(p, t, seen) <==> r in PartRows(p, begun, seen) && Linked(t.rels, r)
  {
    if p.Chunk? && r in begun.rels && r.source in begun.assets && r.target in begun.assets {
      assert SameTraits(begun.assets[r.source], t.assets[r.source]) && SameTraits(begun.assets[r.target], t.assets[r.target]);
      assert InLimit(begun.assets, r, p.limit) == InLimit(t.assets, r, p.limit);
    }
    assert Linked(t.rels, r) ==> Linked(begun.rels, r);
  }

  /** A relation no part covers meanwhile stays as it is. */
  lemma {:induction false} LiveMeanwhile(w: Trail, row: RelationKey, a: nat, b: nat)
    requires IsTrail(w) && a <= b <= |w.parts| && Linked(w.trace[a].rels, row) && row.source !in w.trace[|w.parts|].gone
    requires forall i: nat :: a <= i < b ==> row !in PartRows(w.parts[i], w.trace[0], w.seen)
    ensures Linked(w.trace[b].rels, row) && w.trace[b].rels[row].missed == w.trace[a].rels[row].missed
    decreases b - a
  {
    if a < b {
      AcrossPart(w, row, a);
      LiveMeanwhile(w, row, a + 1, b);
    }
  }

  lemma AcrossPart(w: Trail, row: RelationKey, i: nat)
    requires IsTrail(w) && i < |w.parts| && Linked(w.trace[i].rels, row) && row.source !in w.trace[|w.parts|].gone
    ensures row in w.trace[i + 1].rels
    ensures row !in PartRows(w.parts[i], w.trace[0], w.seen) ==>
              w.trace[i + 1].rels[row].missed == w.trace[i].rels[row].missed && w.trace[i + 1].rels[row].active
    ensures row in PartRows(w.parts[i], w.trace[0], w.seen) ==>
              && row in PartRows(w.parts[i], w.trace[i], w.seen)
              && w.trace[i + 1].rels[row].missed == w.trace[i].rels[row].missed + 1
              && (w.trace[i + 1].rels[row].active <==> w.trace[i + 1].rels[row].missed < w.threshold)
  {
    TraceFollows(w, i);
    CoversStillLive(w.parts[i], w.trace[0], w.trace[i], w.seen, row);
    GoneGrows(w, i + 1);
    assert LedOn(w, i);
    assert RowDone(w.trace[i].rels, w.trace[i + 1].rels, PartRows(w.parts[i], w.trace[i], w.seen), w.trace[i + 1].gone, w.threshold, row);
  }

  /** The first part that covers a relation. */
  lemma {:induction false} FirstCover(parts: seq<Part>, begun: Tables, seen: set<RelationKey>, row: RelationKey, from: nat, n: nat) returns (m: nat)
    requires from <= n < |parts| && row in PartRows(parts[n], begun, seen)
    ensures from <= m <= n && row in PartRows(parts[m], begun, seen)
    ensures forall i: nat :: from <= i < m ==> row !in PartRows(parts[i], begun, seen)
    decreases n - from
  {
    if row in PartRows(parts[from], begun, seen) {
      m := from;
    } else {
      m := FirstCover(parts, begun, seen, row, from + 1, n);
    }
  }

  /** A relation covered from the beginning is missed the first time a part covers it. */
  lemma CoveredIsMissed(w: Trail, k: Key, n: nat, row: RelationKey) returns (m: nat)
    requires IsTrail(w) && n < |w.parts| && Covers(w.parts, w.trace[0], w.seen, k, n, row) && row.source !in w.trace[|w.parts|].gone
    ensures m <= n && Covers(w.parts, w.trace[0], w.seen, k, m, row)
    ensures forall i: nat :: i < m ==> row !in PartRows(w.parts[i], w.trace[0], w.seen)
    ensures (m, row) in Events(w.parts, w.trace, w.seen, k, |w.parts|)
    ensures row in w.trace[m + 1].rels && w.trace[m + 1].rels[row].missed == w.trace[0].rels[row].missed + 1
    ensures w.trace[m + 1].rels[row].active <==> w.trace[0].rels[row].missed + 1 < w.threshold
  {
    m := FirstCover(w.parts, w.trace[0], w.seen, row, 0, n);
    LiveMeanwhile(w, row, 0, m);
    AcrossPart(w, row, m);
    EventsAre(w.parts, w.trace, w.seen, k, |w.parts|, (m, row));
  }

  /** A relation covered by two parts is missed twice unless its first miss ends it. */
  lemma CoveredTwice(w: Trail, k: Key, m: nat, n: nat, row: RelationKey)
    requires IsTrail(w) && m < n < |w.parts| && row.source !in w.trace[|w.parts|].gone
    requires Covers(w.parts, w.trace[0], w.seen, k, m, row) && Covers(w.parts, w.trace[0], w.seen, k, n, row)
    requires w.trace[0].rels[row].missed + 1 < w.threshold
    ensures |Events(w.parts, w.trace, w.seen, k, |w.parts|)| >= 2
  {
    var first := CoveredIsMissed(w, k, m, row);
    var second := FirstCover(w.parts, w.trace[0], w.seen, row, first + 1, n);
    LiveMeanwhile(w, row, first + 1, second);
    AcrossPart(w, row, second);
    EventsAre(w.parts, w.trace, w.seen, k, |w.parts|, (second, row));
    TwoEvents(Events(w.parts, w.trace, w.seen, k, |w.parts|), (first, row), (second, row));
  }

  lemma TwoEvents(events: set<(nat, RelationKey)>, a: (nat, RelationKey), b: (nat, RelationKey))
    requires a in events && b in events && a != b
    ensures |events| >= 2
  {
    SubsetSize({a, b}, events);
    assert |{a, b}| == 2;
  }

  lemma {:induction false} CounterGrows(w: Trail, row: RelationKey, n: nat)
    requires IsTrail(w) && n <= |w.parts| && row in w.trace[0].rels
    ensures row in w.trace[n].rels && w.trace[n].rels[row].missed >= w.trace[0].rels[row].missed
  {
    if n > 0 {
      CounterGrows(w, row, n - 1);
      assert LedOn(w, n - 1);
      assert RowDone(w.trace[n - 1].rels, w.trace[n].rels, PartRows(w.parts[n - 1], w.trace[n - 1], w.seen), w.trace[n].gone, w.threshold, row);
    }
  }

  /** A relation whose first miss ends it is missed once at most. */
  lemma EndedByFirstMiss(w: Trail, m: nat, n: nat, row: RelationKey)
    requires IsTrail(w) && m < n < |w.parts| && row in PartRows(w.parts[m], w.trace[m], w.seen) && row in w.trace[0].rels
    requires w.trace[0].rels[row].missed + 1 >= w.threshold
    ensures row !in PartRows(w.parts[n], w.trace[n], w.seen)
  {
    CounterGrows(w, row, m);
    assert LedOn(w, m);
    assert RowDone(w.trace[m].rels, w.trace[m + 1].rels, PartRows(w.parts[m], w.trace[m], w.seen), w.trace[m + 1].gone, w.threshold, row);
    StaysEnded(w, row, m + 1, n);
  }

  lemma {:induction false} StaysEnded(w: Trail, row: RelationKey, a: nat, b: nat)
    requires IsTrail(w) && a <= b < |w.parts| && !Linked(w.trace[a].rels, row)
    ensures row !in PartRows(w.parts[b], w.trace[b], w.seen)
    decreases b - a
  {
    if a < b {
      assert LedOn(w, a);
      StaysEnded(w, row, a + 1, b);
    }
  }

  lemma EventIsCovered(w: Trail, k: Key, e: (nat, RelationKey))
    requires IsTrail(w) && CountsMisses(k.kind) && e in Events(w.parts, w.trace, w.seen, k, |w.parts|)
    ensures e.0 < |w.parts| && Covers(w.parts, w.trace[0], w.seen, k, e.0, e.1)
    ensures e.1 in PartRows(w.parts[e.0], w.trace[e.0], w.seen) && e.1 in w.trace[0].rels
  {
    EventsAre(w.parts, w.trace, w.seen, k, |w.parts|, e);
    TraceFollows(w, e.0);
    CoversStillLive(w.parts[e.0], w.trace[0], w.trace[e.0], w.seen, e.1);
  }

  lemma SameEvent(w: Trail, k: Key, e: (nat, RelationKey), f: (nat, RelationKey))
    requires IsTrail(w) && CountsMisses(k.kind) && DueAtMostOnce(w.parts, w.trace[0], w.seen, w.threshold, k)
    requires e in Events(w.parts, w.trace, w.seen, k, |w.parts|) && f in Events(w.parts, w.trace, w.seen, k, |w.parts|)
    ensures e == f
  {
    EventIsCovered(w, k, e);
    EventIsCovered(w, k, f);
    if f.0 < e.0 {
      EndedByFirstMiss(w, f.0, e.0, e.1);
    } else if e.0 < f.0 {
      EndedByFirstMiss(w, e.0, f.0, f.1);
    }
  }

  lemma AtMostOneEvent(w: Trail, k: Key)
    requires IsTrail(w) && CountsMisses(k.kind) && DueAtMostOnce(w.parts, w.trace[0], w.seen, w.threshold, k)
    ensures |Events(w.parts, w.trace, w.seen, k, |w.parts|)| <= 1
    ensures |Events(w.parts, w.trace, w.seen, k, |w.parts|)| == 1 ==> ListedUpTo(w.parts, k, |w.parts|) == 0
  {
    var events := Events(w.parts, w.trace, w.seen, k, |w.parts|);
    if events != {} {
      var e :| e in events;
      EventIsCovered(w, k, e);
      forall f | f in events
        ensures f == e
      {
        SameEvent(w, k, e, f);
      }
      assert events == {e};
    }
  }

  lemma TwoCovered(w: Trail, k: Key, m: nat, x: RelationKey, n: nat, y: RelationKey)
    requires IsTrail(w) && m < |w.parts| && n < |w.parts| && x.source !in w.trace[|w.parts|].gone && y.source !in w.trace[|w.parts|].gone
    requires Covers(w.parts, w.trace[0], w.seen, k, m, x) && Covers(w.parts, w.trace[0], w.seen, k, n, y)
    requires x != y || (m != n && w.trace[0].rels[x].missed + 1 < w.threshold)
    ensures |Events(w.parts, w.trace, w.seen, k, |w.parts|)| >= 2
  {
    if x != y {
      var i := CoveredIsMissed(w, k, m, x);
      var j := CoveredIsMissed(w, k, n, y);
      TwoEvents(Events(w.parts, w.trace, w.seen, k, |w.parts|), (i, x), (j, y));
    } else if m < n {
      CoveredTwice(w, k, m, n, x);
    } else {
      CoveredTwice(w, k, n, m, x);
    }
  }

  /** What is due more than once, if not listed, is covered twice. */
  lemma CoveredMore(parts: seq<Part>, begun: Tables, seen: set<RelationKey>, threshold: nat, k: Key)
    returns (m: nat, x: RelationKey, n: nat, y: RelationKey)
    requires !DueAtMostOnce(parts, begun, seen, threshold, k) && ListedUpTo(parts, k, |parts|) <= 1
    requires ListedUpTo(parts, k, |parts|) == 0 || forall n: nat, x :: n < |parts| ==> !Covers(parts, begun, seen, k, n, x)
    ensures m < |parts| && n < |parts| && Covers(parts, begun, seen, k, m, x) && Covers(parts, begun, seen, k, n, y)
    ensures x != y || (m != n && begun.rels[x].missed + 1 < threshold)
  {
    m, x, n, y :| m < |parts| && n < |parts| && Covers(parts, begun, seen, k, m, x) && Covers(parts, begun, seen, k, n, y)
                  && !(x == y && (m == n || begun.rels[x].missed + 1 >= threshold));
  }

  /** Listings and covered relations that led to the asset, together. */
  function MissesOn(w: Trail, k: Key): nat
    requires |w.parts| <= |w.trace|
  {
    ListedUpTo(w.parts, k, |w.parts|) + if CountsMisses(k.kind) then |Events(w.parts, w.trace, w.seen, k, |w.parts|)| else 0
  }

  lemma MoreThanOneMiss(w: Trail, k: Key)
    requires IsTrail(w) && Hold(w.parts, w.trace[0], w.trace[|w.parts|], w.seen, k)
    requires !DueAtMostOnce(w.parts, w.trace[0], w.seen, w.threshold, k)
    ensures MissesOn(w, k) >= 2
  {
    var parts, begun, seen := w.parts, w.trace[0], w.seen;
    var listed := ListedUpTo(parts, k, |parts|);
    if n: nat, x :| n < |parts| && Covers(parts, begun, seen, k, n, x) && listed == 1 {
      var m := CoveredIsMissed(w, k, n, x);
    } else if listed <= 1 {
      var m, x, n, y := CoveredMore(parts, begun, seen, w.threshold, k);
      TwoCovered(w, k, m, x, n, y);
    }
  }

  lemma AtMostOneMiss(w: Trail, k: Key)
    requires IsTrail(w) && DueAtMostOnce(w.parts, w.trace[0], w.seen, w.threshold, k)
    ensures MissesOn(w, k) <= 1
  {
    if CountsMisses(k.kind) {
      AtMostOneEvent(w, k);
    }
  }

  /**
   A run raises the counter of an asset it did not observe by at most one if at most one miss is due over all of
   its coverage, on the tables that coverage begins with. If the asset is active after the run, and none of the
   parents that lead to it went in the run, exactly then. (An asset that goes stops counting, and so does a
   relation whose parent goes.)
   */
  lemma OneMissPerRunExactly(r: Run, k: Key)
    requires IsRun(r) && k !in r.Seen().keys && k in r.After().assets
    ensures var atMostOne := r.After().assets[k].missed <= r.Begun().assets[k].missed + 1;
            var due := DueAtMostOnce(r.Todo(), r.Begun(), r.Seen().rels, RelationThreshold(r.settings), k);
            && (due ==> atMostOne)
            && (Active(r.After().assets, k) && Hold(r.Todo(), r.Begun(), r.After(), r.Seen().rels, k) ==> (atMostOne <==> due))
  {
    var w := TrailOf(r);
    assert k in r.trace[0].assets;
    RunIsTrail(r);
    CountedUpTo(r.Todo(), r.trace, r.batch.source, r.Seen(), r.settings, r.now, k, |r.Todo()|);
    MissesAreEvents(r.Todo(), r.trace, r.Seen(), k, |r.Todo()|);
    if DueAtMostOnce(w.parts, w.trace[0], w.seen, w.threshold, k) {
      AtMostOneMiss(w, k);
    } else if Hold(w.parts, w.trace[0], w.trace[|w.parts|], w.seen, k) {
      MoreThanOneMiss(w, k);
    }
  }

  // -------------------------------------------------------- two misses in a run

  /** A page two parents serve: a name and an address, all of them up. */
  function TwoParents(host: Key, address: Key, page: Key, at: Time): Tables {
    var up := Asset(true, None, at, 0, InScope, false, Some(443));
    Tables(map[host := up, address := up, page := up],
           map[RelationKey(host, page, Serves) := Relation(true, 0, at), RelationKey(address, page, Serves) := Relation(true, 0, at)],
           map[], {})
  }

  /** A result that vouches for both on port 443 and saw nothing: one item of coverage for names and one for addresses. */
  function EmptyProbe(host: Key, address: Key): Batch {
    Batch("sensor", false, [], [], [], [ServedBy(host), ServedBy(address)])
  }

  function ServedBy(parent: Key): Covered {
    RelationsOf([{parent}], Serves, {HttpEndpoint}, Some(PortLimit({443}, None)))
  }

  predicate Cast(host: Key, address: Key, page: Key) {
    host.kind.Subdomain? && address.kind.IpAddress? && page.kind.HttpEndpoint?
  }

  lemma ProbeParts(host: Key, address: Key)
    ensures Parts(EmptyProbe(host, address).coverage) ==
            [Chunk({host}, Serves, {HttpEndpoint}, Some(PortLimit({443}, None))), Chunk({address}, Serves, {HttpEndpoint}, Some(PortLimit({443}, None)))]
  {
    var coverage := EmptyProbe(host, address).coverage;
    assert coverage[..1] == [ServedBy(host)];
    assert coverage[..1][..0] == [];
    assert PartsOf(ServedBy(host)) == [Chunk({host}, Serves, {HttpEndpoint}, Some(PortLimit({443}, None)))];
    assert PartsOf(ServedBy(address)) == [Chunk({address}, Serves, {HttpEndpoint}, Some(PortLimit({443}, None)))];
    assert Parts(coverage[..1]) == Parts([]) + PartsOf(ServedBy(host));
  }

  lemma ProbeRows(host: Key, address: Key, page: Key, at: Time, parent: Key, seen: set<RelationKey>)
    requires Cast(host, address, page) && (parent == host || parent == address) && seen == {}
    ensures PartRows(Chunk({parent}, Serves, {HttpEndpoint}, Some(PortLimit({443}, None))), TwoParents(host, address, page, at), seen) ==
            {RelationKey(parent, page, Serves)}
  {
  }

  /**
   One run can count two misses: an endpoint that a name and an address both serve, and of which a run that vouches
   for both sees nothing, is missed once for each, and so is half-way to a threshold of four after a single run.
   A worker may submit such results, since any relation may be named in them; no adapter of the platform links an
   endpoint to more than one parent.
   */
  lemma MissedTwiceInOneRun(r: Run, host: Key, address: Key, page: Key, at: Time)
    requires Cast(host, address, page) && IsRun(r) && r.before == TwoParents(host, address, page, at) && r.batch == EmptyProbe(host, address)
    requires AssetThreshold(r.settings, HttpEndpoint) >= 3
    ensures Active(r.After().assets, page) && r.After().assets[page].missed == 2
  {
    assert r.Begun() == r.before && r.Seen().keys == {} && r.Seen().rels == {};
    ProbeParts(host, address);
    ProbeRows(host, address, page, at, host, {});
    ProbeRows(host, address, page, at, address, {});
    NobodyGoes(r, host, address, page, at);
    CountedUpTo(r.Todo(), r.trace, r.batch.source, r.Seen(), r.settings, r.now, page, 2);
    assert Erodes(r.Begun().assets, r.After().assets, {}, r.After().gone, r.now, page);
    var one, two := RelationKey(host, page, Serves), RelationKey(address, page, Serves);
    assert Covers(r.Todo(), r.Begun(), {}, page, 0, one) && Covers(r.Todo(), r.Begun(), {}, page, 1, two);
    RunIsTrail(r);
    TwoCovered(TrailOf(r), page, 0, one, 1, two);
    MissesAreEvents(r.Todo(), r.trace, r.Seen(), page, 2);
    ProbeMisses(r, host, address, page, at);
  }

  lemma MissesOfTwo(parts: seq<Part>, trace: seq<Tables>, seen: Reported, k: Key)
    requires |parts| == 2 <= |trace|
    ensures MissesUpTo(parts, trace, seen, k, 2) == PartMisses(parts[0], trace[0], seen, k) + PartMisses(parts[1], trace[1], seen, k)
  {
    assert MissesUpTo(parts, trace, seen, k, 1) == PartMisses(parts[0], trace[0], seen, k);
  }

  lemma ProbeMisses(r: Run, host: Key, address: Key, page: Key, at: Time)
    requires Cast(host, address, page) && IsRun(r) && r.before == TwoParents(host, address, page, at) && r.batch == EmptyProbe(host, address)
    ensures |r.Todo()| == 2 && RunMisses(r, page) <= 2 && RunMisses(r, host) == 0 && RunMisses(r, address) == 0
  {
    ProbeParts(host, address);
    ProbePart(r, 0, host, address, page, at);
    ProbePart(r, 1, host, address, page, at);
    MissesOfTwo(r.Todo(), r.trace, r.Seen(), page);
    MissesOfTwo(r.Todo(), r.trace, r.Seen(), host);
    MissesOfTwo(r.Todo(), r.trace, r.Seen(), address);
  }

  lemma ProbePart(r: Run, n: nat, host: Key, address: Key, page: Key, at: Time)
    requires Cast(host, address, page) && IsRun(r) && r.before == TwoParents(host, address, page, at) && r.batch == EmptyProbe(host, address)
    requires n < |r.Todo()|
    ensures PartMisses(r.Todo()[n], r.trace[n], r.Seen(), page) <= 1
    ensures PartMisses(r.Todo()[n], r.trace[n], r.Seen(), host) == 0 && PartMisses(r.Todo()[n], r.trace[n], r.Seen(), address) == 0
  {
    assert r.Begun() == r.before && r.Seen().keys == {} && r.Seen().rels == {};
    ProbeParts(host, address);
    var parent := if n == 0 then host else address;
    ProbeRows(host, address, page, at, parent, {});
    RunIsTrail(r);
    TraceFollows(TrailOf(r), n);
    ProbeRowsLeft(r, n, parent, host, address, page, at);
  }

  lemma ProbeRowsLeft(r: Run, n: nat, parent: Key, host: Key, address: Key, page: Key, at: Time)
    requires Cast(host, address, page) && n < |r.Todo()| < |r.trace| && Follows(r.trace[0], r.trace[n]) && r.Seen().keys == {} && r.Seen().rels == {}
    requires r.Todo()[n].Chunk? && PartRows(r.Todo()[n], r.trace[0], {}) == {RelationKey(parent, page, Serves)}
    ensures PartMisses(r.Todo()[n], r.trace[n], r.Seen(), page) <= 1
    ensures PartMisses(r.Todo()[n], r.trace[n], r.Seen(), host) == 0 && PartMisses(r.Todo()[n], r.trace[n], r.Seen(), address) == 0
  {
    var rows := PartRows(r.Todo()[n], r.trace[n], {});
    forall x | x in rows
      ensures x == RelationKey(parent, page, Serves)
    {
      CoversStillLive(r.Todo()[n], r.trace[0], r.trace[n], {}, x);
    }
    SubsetSize(Leading(rows, page), {RelationKey(parent, page, Serves)});
  }

  lemma OwnersInTwoParents(host: Key, address: Key, page: Key, at: Time, gone: set<Key>)
    requires Cast(host, address, page)
    ensures !OwnedByGone(TwoParents(host, address, page, at).rels, gone, host)
    ensures !OwnedByGone(TwoParents(host, address, page, at).rels, gone, address)
    ensures host !in gone && address !in gone ==> !OwnedByGone(TwoParents(host, address, page, at).rels, gone, page)
  {
  }

  lemma NobodyGoes(r: Run, host: Key, address: Key, page: Key, at: Time)
    requires Cast(host, address, page) && IsRun(r) && r.before == TwoParents(host, address, page, at) && r.batch == EmptyProbe(host, address)
    requires AssetThreshold(r.settings, HttpEndpoint) >= 3
    ensures host !in r.After().gone && address !in r.After().gone && page !in r.After().gone
  {
    assert r.Begun() == r.before;
    ProbeMisses(r, host, address, page, at);
    OwnersInTwoParents(host, address, page, at, r.After().gone);
    assert Erodes(r.Begun().assets, r.After().assets, r.Seen().keys, r.After().gone, r.now, address);
    GoesExactly(r, host);
    GoesExactly(r, address);
    GoesExactly(r, page);
  }

  /** A result that names all three, and that both parents serve the page. */
  function Discovery(host: Key, address: Key, page: Key): Batch {
    Batch("sensor", false, [Up(host), Up(address), Up(page)], [RelationKey(host, page, Serves), RelationKey(address, page, Serves)], [], [])
  }

  function Up(k: Key): Sighting {
    Sighting(k, true, Some(InScope), None, Some(443))
  }

  lemma DiscoverySights(host: Key, address: Key, page: Key, at: Time)
    requires Cast(host, address, page)
    ensures SightAll(map[], [Up(host), Up(address), Up(page)], false, at) == TwoParents(host, address, page, at).assets
  {
    var ss := [Up(host), Up(address), Up(page)];
    assert ss[..2] == [Up(host), Up(address)] && ss[..2][..1] == [Up(host)] && [Up(host)][..0] == [];
    var up := Asset(true, None, at, 0, InScope, false, Some(443));
    assert SightAll(map[], [Up(host)], false, at) == map[host := up];
    assert SightAll(map[], ss[..2], false, at) == map[host := up, address := up];
  }

  lemma DiscoveryRelates(host: Key, address: Key, page: Key, at: Time)
    requires Cast(host, address, page)
    ensures RelateAll(map[], TwoParents(host, address, page, at).assets, [RelationKey(host, page, Serves), RelationKey(address, page, Serves)], false, at)
            == TwoParents(host, address, page, at).rels
  {
    var one, two := RelationKey(host, page, Serves), RelationKey(address, page, Serves);
    var ks := [one, two];
    assert ks[..1] == [one] && [one][..0] == [];
    var assets := TwoParents(host, address, page, at).assets;
    assert RelateAll(map[], assets, [one], false, at) == map[one := Relation(true, 0, at)];
    assert RelatedKeys(assets, [one]) == {one};
  }

  lemma Discovered(r: Run, host: Key, address: Key, page: Key)
    requires Cast(host, address, page) && IsRun(r) && r.before == Tables(map[], map[], map[], {}) && r.batch == Discovery(host, address, page)
    ensures r.After() == TwoParents(host, address, page, r.now)
  {
    DiscoverySights(host, address, page, r.now);
    DiscoveryRelates(host, address, page, r.now);
  }

  /** An empty inventory that takes in such results stands at two misses. */
  method TakeInBoth(host: Key, address: Key, page: Key, rules: Settings) returns (inventory: Ingestor)
    requires Cast(host, address, page) && AssetThreshold(rules, HttpEndpoint) >= 3
    ensures page in inventory.assets && inventory.assets[page].active && inventory.assets[page].missed == 2
  {
    inventory := new Ingestor(rules);
    ghost var first := inventory.IngestRun(Discovery(host, address, page), rules, 0);
    Discovered(first, host, address, page);
    ghost var second := inventory.IngestRun(EmptyProbe(host, address), rules, 1);
    MissedTwiceInOneRun(second, host, address, page, 0);
  }
}
