/**
 Applying one sensor run to the inventory, in place: sightings, relations, findings and then coverage
 (backend/app/assets/ingest.py, Ingestor).
 */
module Ingest {
  import opened Prelude
  import opened Assets
  import opened Findings
  import opened Cascade
  import opened IngestRules
  import opened CoverageRules
  import opened IngestRuns

  class Ingestor {
    var assets: Inventory
    var rels: Relations
    var book: Book
    var observed: set<Key>
    var observedRels: set<RelationKey>
    var deactivated: set<Key>
    var settings: Settings

    /** The asset and everything that falls with it go inactive and take their open findings along. */
    method Deactivate(root: Key, now: Time) returns (ghost fell: set<Key>)
      requires root in assets
      requires forall k :: k in deactivated ==> !Active(assets, k)
      modifies `assets, `rels, `book, `deactivated
      ensures Falls(old(assets), old(rels), observed, root, fell)
      ensures assets == Fell(old(assets), fell, now)
      ensures book == ResolveForAssets(old(book), fell, now)
      ensures OnlyEnded(old(assets), old(rels), rels, fell)
      ensures Severed(old(assets), rels, fell, {})
      ensures root in fell ==> RootSevered(old(assets), rels, root)
      ensures deactivated == old(deactivated) + fell
      decreases Rank(root.kind), 1
    {
      if !assets[root].active || root in deactivated {
        fell := {};
        return;
      }
      ghost var assets0, rels0, book0, gone0 := assets, rels, book, deactivated;
      Begin(assets, rels, observed, root, now);
      deactivated := deactivated + {root};
      assets := assets[root := assets[root].(active := false, inactiveSince := Some(now))];
      book := ResolveForAssets(book, {root}, now);
      fell := DeactivateOwned(root, now, assets0, rels0, book0, gone0);
      Finish(assets0, rels0, observed, root, fell, rels);
    }

    /** What the root owns, type by type. */
    method DeactivateOwned(root: Key, now: Time,
                           ghost assets0: Inventory, ghost rels0: Relations, ghost book0: Book, ghost gone0: set<Key>)
      returns (ghost fell: set<Key>)
      requires forall k :: k in gone0 ==> !Active(assets0, k)
      requires Underway(assets0, rels0, observed, root, {root}, rels) && rels == rels0
      requires assets == Fell(assets0, {root}, now) && book == ResolveForAssets(book0, {root}, now) && deactivated == gone0 + {root}
      modifies `assets, `rels, `book, `deactivated
      ensures Underway(assets0, rels0, observed, root, fell, rels)
      ensures assets == Fell(assets0, fell, now) && book == ResolveForAssets(book0, fell, now) && deactivated == gone0 + fell
      ensures AllHandled(assets0, rels0, observed, rels, root, fell)
      decreases Rank(root.kind), 0, 3
    {
      fell := {root};
      var owned := OwnedChildren(root.kind);
      var n := 0;
      while n < |owned|
        invariant 0 <= n <= |owned|
        invariant Underway(assets0, rels0, observed, root, fell, rels)
        invariant assets == Fell(assets0, fell, now) && book == ResolveForAssets(book0, fell, now) && deactivated == gone0 + fell
        invariant forall m :: 0 <= m < n ==> Handled(assets0, rels0, observed, rels, root, fell, owned[m].1, {})
        invariant forall m :: n <= m < |owned| ==> Untouched(rels0, rels, root, owned[m].1)
      {
        ghost var fell1, rels1 := fell, rels;
        fell := DeactivateChildren(root, owned[n].0, owned[n].1, now, assets0, rels0, book0, gone0, fell);
        forall m | 0 <= m < |owned| && m != n {
          HandledKept(assets0, rels0, observed, root, fell1, rels1, owned[m].1, fell, rels, owned[n].1);
        }
        n := n + 1;
      }
      forall child | Ownership(root.kind, child).Some?
        ensures Handled(assets0, rels0, observed, rels, root, fell, child, {})
      {
        assert (Ownership(root.kind, child).value, child) in owned;
      }
    }

    /** One type of child at a time. */
    method DeactivateChildren(root: Key, kind: RelationType, child: AssetType, now: Time,
                              ghost assets0: Inventory, ghost rels0: Relations, ghost book0: Book, ghost gone0: set<Key>,
                              ghost fell0: set<Key>)
      returns (ghost fell: set<Key>)
      requires Ownership(root.kind, child) == Some(kind)
      requires forall k :: k in gone0 ==> !Active(assets0, k)
      requires Underway(assets0, rels0, observed, root, fell0, rels)
      requires assets == Fell(assets0, fell0, now) && book == ResolveForAssets(book0, fell0, now) && deactivated == gone0 + fell0
      requires Untouched(rels0, rels, root, child)
      modifies `assets, `rels, `book, `deactivated
      ensures fell0 <= fell && Underway(assets0, rels0, observed, root, fell, rels)
      ensures assets == Fell(assets0, fell, now) && book == ResolveForAssets(book0, fell, now) && deactivated == gone0 + fell
      ensures Handled(assets0, rels0, observed, rels, root, fell, child, {})
      ensures SameOthers(old(rels), rels, root, child)
      decreases Rank(root.kind), 0, 2
    {
      var rows := set k | k in rels && k.source == root && k.kind == kind && k.target.kind == child && rels[k].active && Active(assets, k.target);
      HandledStart(assets0, rels0, observed, root, fell0, rels, kind, child, rows, now);
      fell := DeactivateRows(root, kind, child, rows, now, assets0, rels0, book0, gone0, fell0);
    }

    /** The rows found, one by one. */
    method DeactivateRows(root: Key, kind: RelationType, child: AssetType, found: set<RelationKey>, now: Time,
                          ghost assets0: Inventory, ghost rels0: Relations, ghost book0: Book, ghost gone0: set<Key>,
                          ghost fell0: set<Key>)
      returns (ghost fell: set<Key>)
      requires Ownership(root.kind, child) == Some(kind)
      requires forall k :: k in gone0 ==> !Active(assets0, k)
      requires Underway(assets0, rels0, observed, root, fell0, rels)
      requires assets == Fell(assets0, fell0, now) && book == ResolveForAssets(book0, fell0, now) && deactivated == gone0 + fell0
      requires Handled(assets0, rels0, observed, rels, root, fell0, child, found) && InHand(assets0, rels, root, kind, child, found)
      modifies `assets, `rels, `book, `deactivated
      ensures fell0 <= fell && Underway(assets0, rels0, observed, root, fell, rels)
      ensures assets == Fell(assets0, fell, now) && book == ResolveForAssets(book0, fell, now) && deactivated == gone0 + fell
      ensures Handled(assets0, rels0, observed, rels, root, fell, child, {})
      ensures SameOthers(old(rels), rels, root, child)
      decreases Rank(root.kind), 0, 1
    {
      fell := fell0;
      var rows := found;
      while rows != {}
        invariant fell0 <= fell && Underway(assets0, rels0, observed, root, fell, rels)
        invariant assets == Fell(assets0, fell, now) && book == ResolveForAssets(book0, fell, now) && deactivated == gone0 + fell
        invariant Handled(assets0, rels0, observed, rels, root, fell, child, rows)
        invariant InHand(assets0, rels, root, kind, child, rows)
        invariant SameOthers(old(rels), rels, root, child)
        decreases rows
      {
        var k :| k in rows;
        ghost var fell1, rels1 := fell, rels;
        InHandOwns(assets0, rels, root, kind, child, rows, k);
        fell := DeactivateChild(k, now, assets0, rels0, book0, gone0, fell);
        HandledStep(assets0, rels0, observed, root, fell1, rels1, kind, child, rows, k, fell, rels, old(rels));
        rows := rows - {k};
      }
    }

    method DeactivateChild(row: RelationKey, now: Time,
                           ghost assets0: Inventory, ghost rels0: Relations, ghost book0: Book, ghost gone0: set<Key>, ghost fell0: set<Key>)
      returns (ghost fell: set<Key>)
      requires Owning(row) && Linked(rels, row) && Active(assets0, row.target)
      requires forall k :: k in gone0 ==> !Active(assets0, k)
      requires Underway(assets0, rels0, observed, row.source, fell0, rels)
      requires assets == Fell(assets0, fell0, now) && book == ResolveForAssets(book0, fell0, now) && deactivated == gone0 + fell0
      modifies `assets, `rels, `book, `deactivated
      ensures fell0 <= fell && Underway(assets0, rels0, observed, row.source, fell, rels)
      ensures assets == Fell(assets0, fell, now) && book == ResolveForAssets(book0, fell, now) && deactivated == gone0 + fell
      ensures SameOwn(old(rels), rels, row.source, {row})
      ensures !Linked(rels, row) && (Drags(assets0, rels0, observed, row) ==> row.target in fell)
      decreases Rank(row.source.kind), 0, 0
    {
      fell := fell0;
      EndOne(assets0, rels0, observed, row.source, fell, rels, row);
      rels := rels[row := rels[row].(active := false)];
      SamePresence(assets0, rels0, rels, row.source, fell, row.target);
      if row.target in observed {
        return;
      }
      if row.target.kind.HttpEndpoint? && OtherPresence(rels, row.target, row.source) {
        return;
      }
      ghost var rels1 := rels;
      ghost var more := Deactivate(row.target, now);
      Absorb(assets0, rels0, observed, row.source, fell, rels1, row, more, rels, now);
      FellAgain(assets0, fell, more, now);
      ResolvedAgain(book0, fell, more, now);
      fell := fell + more;
    }

    // ------------------------------------------------------------- coverage

    ghost function View(): Tables
      reads this
    {
      Tables(assets, rels, book, deactivated)
    }

    /** Count one miss. */
    method CountMiss(k: Key, now: Time, ghost start: Start) returns (ghost fell: set<Key>)
      requires k in assets && Keeping(start, assets, rels, book, observed, deactivated, settings, now)
      modifies `assets, `rels, `book, `deactivated
      ensures Keeping(start, assets, rels, book, observed, deactivated, settings, now)
      ensures OneMiss(old(assets), old(rels), observed, settings, k, fell, assets, now)
      ensures book == ResolveForAssets(old(book), fell, now)
      ensures OnlyEnded(old(assets), old(rels), rels, fell)
      ensures fell !! old(deactivated) && deactivated == old(deactivated) + fell
    {
      fell := {};
      if k in observed || !assets[k].active {
        FellNone(assets, book, now);
        return;
      }
      ghost var assets0, rels0, book0, gone0 := assets, rels, book, deactivated;
      FellNone(Bumped(assets, k), book, now);
      assets := assets[k := assets[k].(missed := assets[k].missed + 1)];
      if assets[k].missed >= AssetThreshold(settings, k.kind) {
        fell := Deactivate(k, now);
        FellAreNew(Bumped(assets0, k), book0, gone0, fell);
      }
      assert OneMiss(assets0, rels0, observed, settings, k, fell, assets, now);
      assert deactivated == gone0 + fell && book == ResolveForAssets(book0, fell, now);
      CountedMissStep(start, assets0, rels0, book0, observed, gone0, settings, k, fell, rels, now);
      ClearedByMiss(start, assets0, rels0, observed, k, fell, assets, rels, settings, now);
    }

    /** Every listed asset the run did not observe was missed, once for each time it is listed. */
    method CoverLiveness(listed: seq<Key>, now: Time, ghost start: Start)
      requires Keeping(start, assets, rels, book, observed, deactivated, settings, now)
      modifies `assets, `rels, `book, `deactivated
      ensures Keeping(start, assets, rels, book, observed, deactivated, settings, now)
      ensures Listed(old(View()), View(), observed, listed, settings, now)
    {
      ghost var before := View();
      ListedNone(before, observed, settings, now);
      assert listed[..0] == [];
      var n := 0;
      while n < |listed|
        invariant 0 <= n <= |listed|
        invariant Keeping(start, assets, rels, book, observed, deactivated, settings, now)
        invariant Listed(before, View(), observed, listed[..n], settings, now)
      {
        MissListed(listed, n, now, start, before);
        n := n + 1;
      }
      assert listed[..n] == listed;
    }

    method MissListed(listed: seq<Key>, n: nat, now: Time, ghost start: Start, ghost before: Tables)
      requires n < |listed| && Keeping(start, assets, rels, book, observed, deactivated, settings, now)
      requires Listed(before, View(), observed, listed[..n], settings, now)
      modifies `assets, `rels, `book, `deactivated
      ensures Keeping(start, assets, rels, book, observed, deactivated, settings, now)
      ensures Listed(before, View(), observed, listed[..n + 1], settings, now)
    {
      ghost var mid := View();
      if listed[n] in assets {
        ghost var fell := CountMiss(listed[n], now, start);
        ListedOneMore(before, mid, View(), observed, listed, n, settings, fell, now);
      } else {
        ListedUnknown(before, mid, observed, listed, n, settings, now);
      }
    }

    /** One covered relation the run did not see. */
    method CoverRow(k: RelationKey, now: Time, ghost start: Start, ghost before: Tables, ghost done: set<RelationKey>)
      requires k in rels && k.target in assets && k !in done && Linked(start.rels, k)
      requires Keeping(start, assets, rels, book, observed, deactivated, settings, now)
      requires Rowed(before, View(), observed, done, done, settings, now)
      modifies `assets, `rels, `book, `deactivated
      ensures Keeping(start, assets, rels, book, observed, deactivated, settings, now)
      ensures Rowed(before, View(), observed, done + {k}, done + {k}, settings, now)
      ensures assets.Keys == old(assets).Keys && rels.Keys == old(rels).Keys
    {
      MissRelation(k, now, start, before, done);
      if CountsMisses(k.target.kind) {
        MissTarget(k, now, start, before, done);
      } else {
        RowedNoTarget(before, View(), observed, done, k, settings, now);
      }
    }

    method MissRelation(k: RelationKey, now: Time, ghost start: Start, ghost before: Tables, ghost done: set<RelationKey>)
      requires k in rels && k.target in assets && k !in done && Linked(start.rels, k)
      requires Keeping(start, assets, rels, book, observed, deactivated, settings, now)
      requires Rowed(before, View(), observed, done, done, settings, now)
      modifies `assets, `rels, `book, `deactivated
      ensures Keeping(start, assets, rels, book, observed, deactivated, settings, now)
      ensures Rowed(before, View(), observed, done + {k}, done, settings, now)
      ensures assets.Keys == old(assets).Keys && rels.Keys == old(rels).Keys
      ensures k.kind.ResolvesTo? && old(rels)[k].missed + 1 >= RelationThreshold(settings) && !PointedAt(rels, k.target) ==>
                !ByNameOnly(assets, observed, k.target)
    {
      RowStep(start, assets, rels, book, observed, deactivated, settings, now, k);
      RowedRelation(before, View(), observed, done, k, settings, now);
      ghost var assets0, rels0 := assets, rels;
      var over := BumpRelation(k);
      ghost var rels1 := rels;
      if over && k.kind.ResolvesTo? && k.target.kind.IpAddress? && assets[k.target].scope.Derived? && k.target !in observed && !PointedAt(rels, k.target) {
        LeaveSurface(k.target, now, start, before, done + {k}, done);
        ClearedButLeft(start.rels, rels0, rels1, assets0, observed, k, RelationThreshold(settings), rels, assets);
      } else {
        TargetStays(start.rels, rels0, rels1, k, RelationThreshold(settings));
        ClearedByRow(start.rels, rels0, rels1, assets, observed, k, RelationThreshold(settings));
      }
    }

    method BumpRelation(k: RelationKey) returns (over: bool)
      requires k in rels
      modifies `rels
      ensures rels == MissRow(old(rels), k, RelationThreshold(settings))
      ensures over <==> rels[k].missed >= RelationThreshold(settings)
    {
      rels := rels[k := rels[k].(missed := rels[k].missed + 1)];
      over := rels[k].missed >= RelationThreshold(settings);
      if over {
        rels := rels[k := rels[k].(active := false)];
      }
    }

    method MissTarget(k: RelationKey, now: Time, ghost start: Start, ghost before: Tables, ghost done: set<RelationKey>)
      requires k in rels && k.target in assets && k !in done && CountsMisses(k.target.kind)
      requires Keeping(start, assets, rels, book, observed, deactivated, settings, now)
      requires Rowed(before, View(), observed, done + {k}, done, settings, now)
      modifies `assets, `rels, `book, `deactivated
      ensures Keeping(start, assets, rels, book, observed, deactivated, settings, now)
      ensures Rowed(before, View(), observed, done + {k}, done + {k}, settings, now)
      ensures assets.Keys == old(assets).Keys && rels.Keys == old(rels).Keys
    {
      ghost var mid := View();
      ghost var fell := CountMiss(k.target, now, start);
      RowedTarget(before, mid, View(), observed, done, k, settings, fell, now);
    }

    /** An address without a name pointing at it goes, with what depends on it. */
    method LeaveSurface(k: Key, now: Time, ghost start: Start, ghost before: Tables, ghost done: set<RelationKey>, ghost counted: set<RelationKey>)
      requires k !in observed && OffSurface(assets, start.rels, rels, k)
      requires Covering(start, assets, rels, book, observed, deactivated, settings, now)
      requires Rowed(before, View(), observed, done, counted, settings, now)
      modifies `assets, `rels, `book, `deactivated
      ensures Covering(start, assets, rels, book, observed, deactivated, settings, now)
      ensures Rowed(before, View(), observed, done, counted, settings, now)
      ensures assets.Keys == old(assets).Keys && rels.Keys == old(rels).Keys
      ensures !Active(assets, k) && SameNames(old(rels), rels)
      ensures forall x :: Active(assets, x) ==> Active(old(assets), x) && assets[x].scope == old(assets)[x].scope
    {
      ghost var mid := View();
      ghost var fell := Deactivate(k, now);
      FellAreNew(mid.assets, mid.book, mid.gone, fell);
      FallenKeepNames(mid.assets, mid.rels, rels, fell);
      FallStep(start, mid.assets, mid.rels, mid.book, observed, mid.gone, settings, k, fell, rels, now);
      RowedFall(before, mid, View(), observed, done, counted, settings, fell, now);
    }

    /** Relations of one chunk of parents: each covered one is missed once, and so is what it leads to, once for each. */
    method CoverChunk(parents: set<Key>, kind: RelationType, children: set<AssetType>, limit: Option<PortLimit>, source: string, now: Time,
                      ghost start: Start, ghost seen: Reported)
      requires seen.keys == observed && seen.rels == observedRels
      requires Keeping(start, assets, rels, book, observed, deactivated, settings, now)
      modifies `assets, `rels, `book, `deactivated
      ensures Keeping(start, assets, rels, book, observed, deactivated, settings, now)
      ensures OnePart(Chunk(parents, kind, children, limit), old(View()), View(), source, seen, settings, now)
    {
      var rows := CoveredRows(assets, rels, observedRels, parents, kind, children, limit);
      CoverRows(rows, now, start);
    }

    method CoverRows(rows: set<RelationKey>, now: Time, ghost start: Start)
      requires rows <= rels.Keys && forall k :: k in rows ==> k.target in assets && Linked(start.rels, k)
      requires Keeping(start, assets, rels, book, observed, deactivated, settings, now)
      modifies `assets, `rels, `book, `deactivated
      ensures Keeping(start, assets, rels, book, observed, deactivated, settings, now)
      ensures Rowed(old(View()), View(), observed, rows, rows, settings, now)
    {
      ghost var before := View();
      var todo := rows;
      RowedNone(before, observed, settings, now);
      assert rows - todo == {};
      while todo != {}
        invariant todo <= rows && assets.Keys == before.assets.Keys && rels.Keys == before.rels.Keys
        invariant Keeping(start, assets, rels, book, observed, deactivated, settings, now)
        invariant Rowed(before, View(), observed, rows - todo, rows - todo, settings, now)
        decreases todo
      {
        var k :| k in todo;
        OneLess(rows, todo, k);
        CoverRow(k, now, start, before, rows - todo);
        todo := todo - {k};
      }
      assert rows - todo == rows;
    }

    method CoverRelations(c: Covered, source: string, now: Time, ghost start: Start, ghost seen: Reported, ghost parts: seq<Part>,
                          ghost trace: seq<Tables>)
      returns (ghost later: seq<Tables>)
      requires c.RelationsOf? && seen.keys == observed && seen.rels == observedRels
      requires Keeping(start, assets, rels, book, observed, deactivated, settings, now)
      requires Traced(parts, trace, source, seen, settings, now) && trace[|parts|] == View()
      modifies `assets, `rels, `book, `deactivated
      ensures Keeping(start, assets, rels, book, observed, deactivated, settings, now)
      ensures Traced(parts + PartsOf(c), later, source, seen, settings, now) && later[|parts + PartsOf(c)|] == View() && later[0] == trace[0]
    {
      later := trace;
      ghost var chunks := PartsOf(c);
      var n := 0;
      assert parts + chunks[..0] == parts;
      while n < |c.chunks|
        invariant 0 <= n <= |c.chunks| == |chunks|
        invariant Keeping(start, assets, rels, book, observed, deactivated, settings, now)
        invariant Traced(parts + chunks[..n], later, source, seen, settings, now) && later[|parts| + n] == View() && later[0] == trace[0]
      {
        CoverChunk(c.chunks[n], c.kind, c.children, c.limit, source, now, start, seen);
        TracedOneMore(parts + chunks[..n], later, chunks[n], View(), source, seen, settings, now);
        assert parts + chunks[..n] + [chunks[n]] == parts + chunks[..n + 1];
        later := later + [View()];
        n := n + 1;
      }
      assert chunks[..n] == chunks;
    }

    method CoverFindings(cov: Coverage, found: set<FindingKey>, source: string, now: Time, ghost start: Start, ghost seen: Reported)
      requires start.source == source && seen.findings == found
      requires Keeping(start, assets, rels, book, observed, deactivated, settings, now)
      modifies `book
      ensures Keeping(start, assets, rels, book, observed, deactivated, settings, now)
      ensures View() == FindingsCovered(old(View()), cov, source, seen, settings, now)
    {
      FindingStep(start, assets, rels, book, observed, deactivated, settings, now, cov.(assets := cov.assets * assets.Keys), found,
                  FindingThreshold(settings));
      book := ResolveUnobserved(book, source, cov.(assets := cov.assets * assets.Keys), found, FindingThreshold(settings), now);
    }

    /** One item of a coverage, which adds its parts to what has taken effect. */
    method CoverOne(c: Covered, found: set<FindingKey>, source: string, now: Time, ghost start: Start, ghost seen: Reported,
                    ghost parts: seq<Part>, ghost trace: seq<Tables>)
      returns (ghost later: seq<Tables>)
      requires start.source == source && seen == Reported(observed, observedRels, found)
      requires Keeping(start, assets, rels, book, observed, deactivated, settings, now)
      requires Traced(parts, trace, source, seen, settings, now) && trace[|parts|] == View()
      modifies `assets, `rels, `book, `deactivated
      ensures Keeping(start, assets, rels, book, observed, deactivated, settings, now)
      ensures Traced(parts + PartsOf(c), later, source, seen, settings, now) && later[|parts + PartsOf(c)|] == View() && later[0] == trace[0]
    {
      match c
      case Liveness(listed) =>
        CoverLiveness(listed, now, start);
        TracedOneMore(parts, trace, Listing(listed), View(), source, seen, settings, now);
        later := trace + [View()];
      case RelationsOf(_, _, _, _) =>
        later := CoverRelations(c, source, now, start, seen, parts, trace);
      case FindingsOf(cov) =>
        CoverFindings(cov, found, source, now, start, seen);
        TracedOneMore(parts, trace, Issues(cov), View(), source, seen, settings, now);
        later := trace + [View()];
    }

    /** Every item of a run's coverage, in turn. */
    method Cover(coverage: seq<Covered>, found: set<FindingKey>, source: string, now: Time) returns (ghost trace: seq<Tables>)
      requires deactivated == {}
      modifies `assets, `rels, `book, `deactivated
      ensures Keeping(Start(old(assets), old(rels), old(book), source), assets, rels, book, observed, deactivated, settings, now)
      ensures Traced(Parts(coverage), trace, source, Reported(observed, observedRels, found), settings, now)
      ensures trace[0] == old(View()) && trace[|trace| - 1] == View()
    {
      ghost var start, seen := Start(assets, rels, book, source), Reported(observed, observedRels, found);
      trace := [View()];
      var n := 0;
      assert coverage[..0] == [];
      while n < |coverage|
        invariant 0 <= n <= |coverage|
        invariant Keeping(start, assets, rels, book, observed, deactivated, settings, now)
        invariant Traced(Parts(coverage[..n]), trace, source, seen, settings, now) && trace[|Parts(coverage[..n])|] == View()
        invariant trace[0] == old(View())
      {
        PartsOneMore(coverage, n);
        trace := CoverOne(coverage[n], found, source, now, start, seen, Parts(coverage[..n]), trace);
        n := n + 1;
      }
      assert coverage[..n] == coverage;
    }

    // ------------------------------------------------------- what was observed

    method ApplySightings(ss: seq<Sighting>, historical: bool, now: Time)
      requires observed == {}
      modifies `assets, `observed
      ensures assets == SightAll(old(assets), ss, historical, now)
      ensures observed == ObservedKeys(ss)
    {
      var n := 0;
      while n < |ss|
        invariant 0 <= n <= |ss|
        invariant assets == SightAll(old(assets), ss[..n], historical, now)
        invariant observed == ObservedKeys(ss[..n])
      {
        ObservedOneMore(ss[..n], ss[n]);
        assert ss[..n + 1] == ss[..n] + [ss[n]] && ss[..n + 1][..n] == ss[..n];
        ApplyAsset(ss[n], historical, now);
        n := n + 1;
      }
      assert ss[..n] == ss;
    }

    method ApplyAsset(s: Sighting, historical: bool, now: Time)
      modifies `assets, `observed
      ensures assets == Sight(old(assets), s, historical, now)
      ensures observed == old(observed) + if s.observed && s.status.Some? then {s.key} else {}
    {
      if s.status.None? {
        return;
      }
      if s.key !in assets {
        assets := assets[s.key := Asset(true, None, now, 0, s.status.value, s.cdn.GetOr(false), s.port)];
      } else {
        var a := assets[s.key];
        if s.observed {
          a := Enriched(a, s);
          if !historical {
            a := a.(lastSeen := now, missed := 0);
            if !a.active {
              a := a.(active := true, inactiveSince := None);
            }
          }
        }
        assets := assets[s.key := a.(scope := Rescoped(s.key.kind, a.scope, s.status.value))];
      }
      if s.observed {
        observed := observed + {s.key};
      }
    }

    /** Record the relations of a run: all of them are live afterwards, and none is counted as missed. */
    method UpsertRelations(ks: seq<RelationKey>, historical: bool, now: Time)
      requires observedRels == {}
      modifies `rels, `observedRels
      ensures rels == RelateAll(old(rels), assets, ks, historical, now)
      ensures observedRels == RelatedKeys(assets, ks)
      ensures forall k :: k in observedRels ==> Linked(rels, k)
    {
      var n := 0;
      while n < |ks|
        invariant 0 <= n <= |ks|
        invariant rels == RelateAll(old(rels), assets, ks[..n], historical, now)
        invariant observedRels == RelatedKeys(assets, ks[..n])
      {
        var k := ks[n];
        assert ks[..n + 1] == ks[..n] + [k] && ks[..n + 1][..n] == ks[..n];
        RelatedKeysOneMore(assets, ks[..n], k);
        if Relates(assets, k) && k !in observedRels {
          observedRels := observedRels + {k};
          rels := Related(rels, observedRels, k, historical, now);
        }
        n := n + 1;
      }
      assert ks[..n] == ks;
      RelateAllMeans(old(rels), assets, ks, historical, now);
    }

    /** Record the findings of a run that are filed under known assets in scope. */
    method UpsertIssues(issues: seq<Issue>, source: string, historical: bool, now: Time) returns (found: set<FindingKey>)
      modifies `book
      ensures book == FileAll(old(book), assets, issues, source, historical, now)
      ensures found == FiledKeys(assets, issues, source)
    {
      found := {};
      var n := 0;
      while n < |issues|
        invariant 0 <= n <= |issues|
        invariant book == FileAll(old(book), assets, issues[..n], source, historical, now)
        invariant found == FiledKeys(assets, issues[..n], source)
      {
        var i := issues[n];
        assert issues[..n + 1] == issues[..n] + [i] && issues[..n + 1][..n] == issues[..n];
        FiledOneMore(assets, issues[..n], i, source);
        if Files(assets, i) {
          book := Upsert(book, FiledKey(i, source), i.severity, i.tags, now, historical || "unverified" in i.tags);
          found := found + {FiledKey(i, source)};
        }
        n := n + 1;
      }
      assert issues[..n] == issues;
    }

    // ------------------------------------------------------------- whole runs

    constructor (rules: Settings)
      ensures settings == rules && View() == Tables(map[], map[], map[], {}) && BookOk(book)
    {
      settings := rules;
      assets, rels, book, observed, observedRels, deactivated := map[], map[], map[], {}, {}, {};
    }

    /** One run, under the thresholds of its time: sightings, then relations and findings, then what its coverage proves absent. */
    method IngestRun(batch: Batch, rules: Settings, now: Time) returns (ghost run: Run)
      modifies this
      ensures run.before == old(View()) && run.batch == batch && run.settings == rules && run.now == now
      ensures IsRun(run) && run.After() == View()
      ensures BookOk(old(book)) ==> BookOk(book)
      ensures BelowThreshold(old(assets), rules) ==> BelowThreshold(assets, rules)
    {
      settings := rules;
      observed, observedRels, deactivated := {}, {}, {};
      ApplySightings(batch.sightings, batch.historical, now);
      UpsertRelations(batch.relations, batch.historical, now);
      var found := UpsertIssues(batch.issues, batch.source, batch.historical, now);
      assert View() == Recorded(old(View()), batch, now);
      ghost var trace := Cover(batch.coverage, found, batch.source, now);
      run := Run(old(View()), batch, rules, now, trace);
      RunEffects(run);
    }

    /** One more run after others. */
    method IngestNext(next: (Batch, Settings, Time), ghost start: Tables, ghost runs: seq<Run>) returns (ghost run: Run)
      requires History(start, runs) && Now(start, runs) == View()
      modifies this
      ensures (run.batch, run.settings, run.now) == next
      ensures History(start, runs + [run]) && Now(start, runs + [run]) == View()
    {
      run := IngestRun(next.0, next.1, next.2);
      HistoryOneMore(start, runs, run);
    }

    /** One run after the other. */
    method IngestEach(batches: seq<(Batch, Settings, Time)>) returns (ghost runs: seq<Run>)
      modifies this
      ensures History(old(View()), runs) && Now(old(View()), runs) == View() && AreRunsOf(runs, batches)
    {
      ghost var start := View();
      runs := [];
      var n := 0;
      while n < |batches|
        invariant 0 <= n <= |batches|
        invariant History(start, runs) && Now(start, runs) == View() && AreRunsOf(runs, batches[..n])
      {
        ghost var run := IngestNext(batches[n], start, runs);
        RunsOneMore(runs, batches, n, run);
        runs := runs + [run];
        n := n + 1;
      }
      assert batches[..n] == batches;
    }

    /**
     Any sequence of runs, each under its own thresholds: the counter of every active asset is exactly the misses
     the runs counted since it was last seen live or discovered, and the findings keep their lifecycle.
     */
    method IngestAll(batches: seq<(Batch, Settings, Time)>) returns (ghost runs: seq<Run>)
      modifies this
      ensures History(old(View()), runs) && Now(old(View()), runs) == View() && AreRunsOf(runs, batches)
      ensures CountedSince(old(View()), runs, assets)
      ensures BookOk(old(book)) ==> BookOk(book)
    {
      ghost var start := View();
      runs := IngestEach(batches);
      HistoryEffects(start, runs);
    }
  }
}
