/**
 What a run's coverage proves absent: misses, thresholds, ended relations and resolved findings, item by
 item (backend/app/assets/ingest.py).
 */
module CoverageRules {
  import opened Prelude
  import opened Assets
  import opened Findings
  import opened Cascade
  import opened IngestRules

  // --------------------------------------------------- what coverage may do

  /** What is gone is inactive and has no open finding left. */
  ghost predicate Settled(assets: Inventory, book: Book, gone: set<Key>) {
    forall k :: k in gone ==> !Active(assets, k) && NoOpenFinding(book, k)
  }

  /** What a coverage may do to one row: nothing to an observed or inactive asset, else count misses and at most take it out. */
  predicate Erodes(assets: Inventory, after: Inventory, observed: set<Key>, gone: set<Key>, now: Time, k: Key)
    requires k in assets && k in after
  {
    var a, b := assets[k], after[k];
    && (k in observed || !a.active ==> b == a)
    && b.missed >= a.missed
    && b.active == (a.active && k !in gone)
    && (b.active ==> b == a.(missed := b.missed))
    && (a.active && !b.active ==> b == a.(missed := b.missed, active := false, inactiveSince := Some(now)))
  }

  ghost predicate Eroded(assets: Inventory, after: Inventory, observed: set<Key>, gone: set<Key>, now: Time) {
    && after.Keys == assets.Keys
    && forall k {:trigger Erodes(assets, after, observed, gone, now, k)} :: k in assets ==> Erodes(assets, after, observed, gone, now, k)
  }

  /** Exactly these were missed once more. */
  function Bumped(assets: Inventory, k: Key): (r: Inventory)
    requires k in assets
    ensures r.Keys == assets.Keys
  {
    assets[k := assets[k].(missed := assets[k].missed + 1)]
  }

  lemma SettledFell(assets: Inventory, book: Book, gone: set<Key>, fell: set<Key>, now: Time)
    requires Settled(assets, book, gone)
    ensures Settled(Fell(assets, fell, now), ResolveForAssets(book, fell, now), gone + fell)
  {
    forall k | k in gone + fell
      ensures !Active(Fell(assets, fell, now), k) && NoOpenFinding(ResolveForAssets(book, fell, now), k)
    {
      assert k in gone ==> NoOpenFinding(book, k);
    }
  }

  lemma ErodedFell(start: Inventory, assets: Inventory, observed: set<Key>, gone: set<Key>, fell: set<Key>, now: Time)
    requires Eroded(start, assets, observed, gone, now)
    requires AllActive(assets, fell) && fell !! observed
    ensures Eroded(start, Fell(assets, fell, now), observed, gone + fell, now)
  {
    forall k | k in start
      ensures Erodes(start, Fell(assets, fell, now), observed, gone + fell, now, k)
    {
      assert Erodes(start, assets, observed, gone, now, k);
    }
  }

  lemma ErodedBump(start: Inventory, assets: Inventory, observed: set<Key>, gone: set<Key>, k: Key, now: Time)
    requires Eroded(start, assets, observed, gone, now)
    requires Active(assets, k) && k !in observed
    ensures Eroded(start, Bumped(assets, k), observed, gone, now)
  {
    forall j | j in start
      ensures Erodes(start, Bumped(assets, k), observed, gone, now, j)
    {
      assert Erodes(start, assets, observed, gone, now, j);
    }
  }

  predicate WithinAt(start: Inventory, assets: Inventory, settings: Settings, k: Key) {
    Active(assets, k) ==> k in start && (assets[k].missed == start[k].missed || assets[k].missed < AssetThreshold(settings, k.kind))
  }

  /** Whoever was missed and is still active is below the threshold. */
  ghost predicate Within(start: Inventory, assets: Inventory, settings: Settings) {
    forall k {:trigger WithinAt(start, assets, settings, k)} :: WithinAt(start, assets, settings, k)
  }

  lemma WithinFell(start: Inventory, assets: Inventory, settings: Settings, fell: set<Key>, now: Time)
    requires Within(start, assets, settings)
    ensures Within(start, Fell(assets, fell, now), settings)
  {
    forall k
      ensures WithinAt(start, Fell(assets, fell, now), settings, k)
    {
      assert WithinAt(start, assets, settings, k);
    }
  }

  /** A miss that reaches the threshold ends with the asset inactive. */
  lemma WithinBump(start: Inventory, assets: Inventory, settings: Settings, k: Key, fell: set<Key>, now: Time)
    requires Within(start, assets, settings) && Active(assets, k)
    requires k in fell || assets[k].missed + 1 < AssetThreshold(settings, k.kind)
    ensures Within(start, Fell(Bumped(assets, k), fell, now), settings)
  {
    forall j
      ensures WithinAt(start, Fell(Bumped(assets, k), fell, now), settings, j)
    {
      assert WithinAt(start, assets, settings, j);
    }
  }

  /** Where the coverage of a run began. */
  datatype Start = Start(assets: Inventory, rels: Relations, book: Book, source: string)

  /** A coverage only resolves: open findings of what is gone, or of the run's own source. */
  predicate BookRow(book: Book, after: Book, gone: set<Key>, source: string, k: FindingKey)
    requires k in book && k in after
  {
    after[k].status == book[k].status || (after[k].status.Remediated? && Open(book[k].status) && (k.asset in gone || k.source == source))
  }

  ghost predicate BookEroded(book: Book, after: Book, gone: set<Key>, source: string) {
    && after.Keys == book.Keys
    && forall k {:trigger BookRow(book, after, gone, source, k)} :: k in book ==> BookRow(book, after, gone, source, k)
  }

  lemma BookFell(book: Book, mid: Book, gone: set<Key>, source: string, fell: set<Key>, now: Time)
    requires BookEroded(book, mid, gone, source)
    ensures BookEroded(book, ResolveForAssets(mid, fell, now), gone + fell, source)
  {
    forall k | k in book
      ensures BookRow(book, ResolveForAssets(mid, fell, now), gone + fell, source, k)
    {
      assert BookRow(book, mid, gone, source, k);
    }
  }

  /** Only an active asset the run did not observe can be missed. */
  predicate Missable(assets: Inventory, observed: set<Key>, k: Key) {
    Active(assets, k) && k !in observed
  }

  /** One miss: the counter goes up, and the asset falls exactly when that reaches its threshold. */
  ghost predicate OneMiss(assets: Inventory, rels: Relations, observed: set<Key>, settings: Settings, k: Key, fell: set<Key>,
                          after: Inventory, now: Time)
    requires k in assets
  {
    && after == Fell(if Missable(assets, observed, k) then Bumped(assets, k) else assets, fell, now)
    && if Missable(assets, observed, k) && assets[k].missed + 1 >= AssetThreshold(settings, k.kind)
       then Falls(Bumped(assets, k), rels, observed, k, fell)
       else fell == {}
  }

  lemma FellNone(assets: Inventory, book: Book, now: Time)
    ensures Fell(assets, {}, now) == assets && ResolveForAssets(book, {}, now) == book
  {
  }

  /** An active asset missed once more goes exactly when that makes its threshold. */
  lemma GoesAtThreshold(assets: Inventory, rels: Relations, observed: set<Key>, settings: Settings, k: Key, fell: set<Key>,
                        after: Inventory, now: Time)
    requires k in assets && BelowThreshold(assets, settings) && OneMiss(assets, rels, observed, settings, k, fell, after, now)
    ensures Active(assets, k) && !Active(after, k) <==> Missable(assets, observed, k) && assets[k].missed + 1 == AssetThreshold(settings, k.kind)
    ensures Active(after, k) && k !in observed ==> after[k].missed == assets[k].missed + 1
  {
    if Missable(assets, observed, k) {
      assert Active(Bumped(assets, k), k);
    }
  }

  // ------------------------------------------------- how often each was missed

  function Times(found: seq<Key>, k: Key): nat {
    multiset(found)[k]
  }

  /** Nothing but the counter, the status and its time differs. */
  predicate SameTraits(a: Asset, b: Asset) {
    b == a.(missed := b.missed, active := b.active, inactiveSince := b.inactiveSince)
  }

  /** Nobody was missed more often than this, and whoever is still active exactly this often. */
  ghost predicate MissedEach(assets: Inventory, after: Inventory, times: map<Key, nat>) {
    && after.Keys == assets.Keys <= times.Keys
    && (forall k :: Active(after, k) ==> assets[k].active && after[k].missed == assets[k].missed + times[k])
    && (forall k {:trigger MissedAt(assets, after, times, k)} :: k in after ==> MissedAt(assets, after, times, k))
  }

  predicate MissedAt(assets: Inventory, after: Inventory, times: map<Key, nat>, k: Key)
    requires k in assets && k in after && k in times
  {
    SameTraits(assets[k], after[k]) && assets[k].missed <= after[k].missed <= assets[k].missed + times[k]
  }

  function LivenessTimes(assets: Inventory, observed: set<Key>, found: seq<Key>): map<Key, nat> {
    map k | k in assets :: if k in observed then 0 else Times(found, k)
  }

  function RowTimes(assets: Inventory, observed: set<Key>, rows: set<RelationKey>): map<Key, nat> {
    map k | k in assets :: MissesBy(rows, observed, k)
  }

  lemma MissedOneMore(assets: Inventory, mid: Inventory, times: map<Key, nat>, rels: Relations, observed: set<Key>, settings: Settings,
                      k: Key, fell: set<Key>, after: Inventory, now: Time, more: map<Key, nat>)
    requires MissedEach(assets, mid, times) && k in mid && OneMiss(mid, rels, observed, settings, k, fell, after, now)
    requires more.Keys == times.Keys && forall j :: j in times ==> more[j] == times[j] + if j == k && k !in observed then 1 else 0
    ensures MissedEach(assets, after, more)
  {
    forall j | Active(after, j)
      ensures assets[j].active && after[j].missed == assets[j].missed + more[j]
    {
      assert Active(mid, j);
    }
    forall j | j in after
      ensures MissedAt(assets, after, more, j)
    {
      assert MissedAt(assets, mid, times, j);
    }
  }

  lemma MissedNoneMore(assets: Inventory, mid: Inventory, times: map<Key, nat>, fell: set<Key>, now: Time)
    requires MissedEach(assets, mid, times)
    ensures MissedEach(assets, Fell(mid, fell, now), times)
  {
    forall j | Active(Fell(mid, fell, now), j)
      ensures Active(mid, j)
    {
    }
    forall j | j in mid
      ensures MissedAt(assets, Fell(mid, fell, now), times, j)
    {
      assert MissedAt(assets, mid, times, j);
    }
  }

  lemma LivenessOneMore(assets: Inventory, observed: set<Key>, found: seq<Key>, n: nat, j: Key)
    requires n < |found| && j in assets
    ensures LivenessTimes(assets, observed, found[..n + 1])[j] ==
            LivenessTimes(assets, observed, found[..n])[j] + if j == found[n] && found[n] !in observed then 1 else 0
  {
    assert found[..n + 1] == found[..n] + [found[n]];
  }

  lemma LivenessUnknown(assets: Inventory, observed: set<Key>, found: seq<Key>, n: nat)
    requires n < |found| && found[n] !in assets
    ensures LivenessTimes(assets, observed, found[..n + 1]) == LivenessTimes(assets, observed, found[..n])
  {
    forall j | j in assets
      ensures LivenessTimes(assets, observed, found[..n + 1])[j] == LivenessTimes(assets, observed, found[..n])[j]
    {
      LivenessOneMore(assets, observed, found, n, j);
    }
  }

  lemma LivenessKnown(assets: Inventory, mid: Inventory, rels: Relations, observed: set<Key>, settings: Settings, found: seq<Key>, n: nat,
                      fell: set<Key>, after: Inventory, now: Time)
    requires n < |found| && found[n] in mid && MissedEach(assets, mid, LivenessTimes(assets, observed, found[..n]))
    requires OneMiss(mid, rels, observed, settings, found[n], fell, after, now)
    ensures MissedEach(assets, after, LivenessTimes(assets, observed, found[..n + 1]))
  {
    forall j | j in assets {
      LivenessOneMore(assets, observed, found, n, j);
    }
    MissedOneMore(assets, mid, LivenessTimes(assets, observed, found[..n]), rels, observed, settings, found[n], fell, after, now,
                  LivenessTimes(assets, observed, found[..n + 1]));
  }

  lemma RowOneMore(assets: Inventory, observed: set<Key>, rows: set<RelationKey>, r: RelationKey, j: Key)
    requires r !in rows && j in assets
    ensures RowTimes(assets, observed, rows + {r})[j] ==
            RowTimes(assets, observed, rows)[j] + if j == r.target && CountsMisses(j.kind) && j !in observed then 1 else 0
  {
    if r.target == j {
      assert Leading(rows + {r}, j) == Leading(rows, j) + {r};
    } else {
      assert Leading(rows + {r}, j) == Leading(rows, j);
    }
  }

  // ------------------------------------------------------ covered relations

  predicate RowDone(rels: Relations, after: Relations, done: set<RelationKey>, gone: set<Key>, threshold: nat, k: RelationKey)
    requires k in rels && k in after
  {
    var r, s := rels[k], after[k];
    && s.missed == r.missed + (if k in done then 1 else 0)
    && (s.active ==> r.active && !(k in done && s.missed >= threshold))
    && (r.active && !s.active ==> (k in done && s.missed >= threshold) || (k.source in gone && Owning(k)))
  }

  /** Covered relations were each missed once; they end at the threshold, and otherwise only with an owner that fell. */
  ghost predicate RowsDone(rels: Relations, after: Relations, done: set<RelationKey>, gone: set<Key>, threshold: nat) {
    && after.Keys == rels.Keys
    && forall k {:trigger RowDone(rels, after, done, gone, threshold, k)} :: k in rels ==> RowDone(rels, after, done, gone, threshold, k)
  }

  function MissRow(rels: Relations, k: RelationKey, threshold: nat): (r: Relations)
    requires k in rels
    ensures r.Keys == rels.Keys
  {
    var missed := rels[k].missed + 1;
    rels[k := rels[k].(missed := missed, active := rels[k].active && missed < threshold)]
  }

  lemma RowDoneOneMore(rels: Relations, mid: Relations, done: set<RelationKey>, gone: set<Key>, k: RelationKey, threshold: nat)
    requires RowsDone(rels, mid, done, gone, threshold) && k in rels && k !in done
    ensures RowsDone(rels, MissRow(mid, k, threshold), done + {k}, gone, threshold)
  {
    forall j | j in rels
      ensures RowDone(rels, MissRow(mid, k, threshold), done + {k}, gone, threshold, j)
    {
      assert RowDone(rels, mid, done, gone, threshold, j);
    }
  }

  lemma RowsDoneEnded(rels: Relations, mid: Relations, done: set<RelationKey>, gone: set<Key>, threshold: nat,
                      assets: Inventory, after: Relations, fell: set<Key>)
    requires RowsDone(rels, mid, done, gone, threshold) && OnlyEnded(assets, mid, after, fell)
    ensures RowsDone(rels, after, done, gone + fell, threshold)
  {
    forall j | j in rels
      ensures RowDone(rels, after, done, gone + fell, threshold, j)
    {
      assert RowDone(rels, mid, done, gone, threshold, j);
    }
  }

  lemma RowTimesSame(assets: Inventory, observed: set<Key>, rows: set<RelationKey>, r: RelationKey)
    requires r !in rows && !CountsMisses(r.target.kind)
    ensures RowTimes(assets, observed, rows + {r}) == RowTimes(assets, observed, rows)
  {
    forall j | j in assets
      ensures RowTimes(assets, observed, rows + {r})[j] == RowTimes(assets, observed, rows)[j]
    {
      RowOneMore(assets, observed, rows, r, j);
    }
  }

  // ------------------------------------------------------- nothing without cause

  /** A live relation of this kind leads to the asset. */
  predicate LedTo(rels: Relations, k: Key, kind: RelationType) {
    exists r :: r in rels && rels[r].active && r.target == k && r.kind == kind
  }

  /** Somebody still points at the address. */
  predicate PointedAt(rels: Relations, k: Key) {
    LedTo(rels, k, ResolvesTo) || LedTo(rels, k, HostedOn)
  }

  /** Something that is gone owned it, by a relation that was live. */
  predicate OwnedByGone(rels: Relations, gone: set<Key>, k: Key) {
    exists r :: r in rels && rels[r].active && Owning(r) && r.target == k && r.source in gone
  }

  /** An address known only by its names, of which one pointed at it when the coverage began and none does any more. */
  predicate OffSurface(assets: Inventory, began: Relations, rels: Relations, k: Key) {
    k in assets && k.kind.IpAddress? && assets[k].scope.Derived? && LedTo(began, k, ResolvesTo) && !PointedAt(rels, k)
  }

  /** Missed since the coverage began, and often enough. */
  predicate MissedOut(was: Inventory, assets: Inventory, settings: Settings, k: Key) {
    k in was && k in assets && assets[k].missed > was[k].missed && assets[k].missed >= AssetThreshold(settings, k.kind)
  }

  /**
   Why an asset is gone: missed, and often enough, owned, when the coverage began, by something gone, or off the
   attack surface.
   */
  predicate Cause(was: Inventory, assets: Inventory, began: Relations, rels: Relations, settings: Settings, gone: set<Key>, k: Key) {
    k in assets && (MissedOut(was, assets, settings, k) || OwnedByGone(began, gone, k) || OffSurface(assets, began, rels, k))
  }

  ghost predicate Justified(was: Inventory, assets: Inventory, began: Relations, rels: Relations, settings: Settings, gone: set<Key>) {
    forall k {:trigger Cause(was, assets, began, rels, settings, gone, k)} :: k in gone ==> Cause(was, assets, began, rels, settings, gone, k)
  }

  /** Relations are never forgotten, and none comes back. */
  ghost predicate OnlyWeaker(rels: Relations, after: Relations) {
    after.Keys == rels.Keys && forall k :: Linked(after, k) ==> Linked(rels, k)
  }

  lemma StillUnled(rels: Relations, later: Relations, k: Key, kind: RelationType)
    requires OnlyWeaker(rels, later)
    ensures LedTo(later, k, kind) ==> LedTo(rels, k, kind)
  {
    if LedTo(later, k, kind) {
      var r :| r in later && later[r].active && r.target == k && r.kind == kind;
      assert Linked(later, r);
    }
  }

  lemma CauseStays(was: Inventory, assets: Inventory, began: Relations, rels: Relations, settings: Settings, gone: set<Key>, k: Key,
                   after: Inventory, later: Relations, more: set<Key>)
    requires Cause(was, assets, began, rels, settings, gone, k) && OnlyWeaker(rels, later) && gone <= more
    requires k in after && after[k].missed >= assets[k].missed && after[k].scope == assets[k].scope
    ensures Cause(was, after, began, later, settings, more, k)
  {
    if OwnedByGone(began, gone, k) {
      var r :| r in began && began[r].active && Owning(r) && r.target == k && r.source in gone;
      assert r.source in more;
    } else if OffSurface(assets, began, rels, k) {
      StillUnled(rels, later, k, ResolvesTo);
      StillUnled(rels, later, k, HostedOn);
    }
  }

  lemma JustifiedFell(was: Inventory, assets: Inventory, began: Relations, rels: Relations, observed: set<Key>, settings: Settings, gone: set<Key>, root: Key,
                      fell: set<Key>, later: Relations, now: Time)
    requires Justified(was, assets, began, rels, settings, gone) && Falls(assets, rels, observed, root, fell)
    requires OnlyWeaker(began, rels) && OnlyWeaker(rels, later)
    requires root in fell ==> MissedOut(was, assets, settings, root) || OffSurface(assets, began, rels, root)
    ensures Justified(was, Fell(assets, fell, now), began, later, settings, gone + fell)
  {
    var after := Fell(assets, fell, now);
    forall k | k in gone + fell
      ensures Cause(was, after, began, later, settings, gone + fell, k)
    {
      if k in gone || k == root {
        assert Cause(was, assets, began, rels, settings, gone, k);
        CauseStays(was, assets, began, rels, settings, gone, k, after, later, gone + fell);
      } else {
        var r: RelationKey :| r.source in fell && r.target == k && Drags(assets, rels, observed, r);
        assert Linked(began, r) && r.source in gone + fell;
      }
    }
  }

  lemma JustifiedBump(was: Inventory, assets: Inventory, began: Relations, rels: Relations, settings: Settings, gone: set<Key>, k: Key)
    requires Justified(was, assets, began, rels, settings, gone) && k in assets
    ensures Justified(was, Bumped(assets, k), began, rels, settings, gone)
  {
    forall j | j in gone
      ensures Cause(was, Bumped(assets, k), began, rels, settings, gone, j)
    {
      assert Cause(was, assets, began, rels, settings, gone, j);
      CauseStays(was, assets, began, rels, settings, gone, j, Bumped(assets, k), rels, gone);
    }
  }

  lemma JustifiedWeaker(was: Inventory, assets: Inventory, began: Relations, rels: Relations, settings: Settings, gone: set<Key>, later: Relations)
    requires Justified(was, assets, began, rels, settings, gone) && OnlyWeaker(rels, later)
    ensures Justified(was, assets, began, later, settings, gone)
  {
    forall j | j in gone
      ensures Cause(was, assets, began, later, settings, gone, j)
    {
      assert Cause(was, assets, began, rels, settings, gone, j);
      CauseStays(was, assets, began, rels, settings, gone, j, assets, later, gone);
    }
  }

  lemma EndedIsWeaker(assets: Inventory, rels: Relations, after: Relations, fell: set<Key>)
    requires OnlyEnded(assets, rels, after, fell)
    ensures OnlyWeaker(rels, after)
  {
  }

  lemma MissRowIsWeaker(rels: Relations, k: RelationKey, threshold: nat)
    requires k in rels
    ensures OnlyWeaker(rels, MissRow(rels, k, threshold))
  {
  }

  lemma WeakerStill(rels: Relations, mid: Relations, after: Relations)
    requires OnlyWeaker(rels, mid) && OnlyWeaker(mid, after)
    ensures OnlyWeaker(rels, after)
  {
  }

  // ------------------------------------------------------ nothing stays behind

  /** A relation missed since the coverage began, and often enough. */
  predicate RowMissedOut(began: Relations, rels: Relations, threshold: nat, k: RelationKey) {
    k in began && k in rels && rels[k].missed > began[k].missed && rels[k].missed >= threshold
  }

  /** What a source that goes may leave: what was observed, an endpoint with another host, or what it had already lost. */
  predicate Spared(began: Relations, rels: Relations, observed: set<Key>, threshold: nat, k: RelationKey) {
    || k.target in observed
    || (k.target.kind.HttpEndpoint? && OtherPresence(began, k.target, k.source))
    || RowMissedOut(began, rels, threshold, k)
  }

  /** A relation by which something was owned when the coverage began: it took its target along if its source went. */
  predicate Along(began: Relations, rels: Relations, assets: Inventory, observed: set<Key>, gone: set<Key>, threshold: nat, k: RelationKey)
    requires k in began && k in rels
  {
    && rels[k].missed >= began[k].missed
    && (k.source in gone ==> !Active(assets, k.target) || Spared(began, rels, observed, threshold, k))
    && (!Linked(rels, k) ==> k.source in gone || RowMissedOut(began, rels, threshold, k))
  }

  ghost predicate TakenAlong(began: Relations, rels: Relations, assets: Inventory, observed: set<Key>, gone: set<Key>, threshold: nat) {
    forall k {:trigger Along(began, rels, assets, observed, gone, threshold, k)} :: k in rels && Linked(began, k) && Owning(k) ==>
        Along(began, rels, assets, observed, gone, threshold, k)
  }

  lemma OtherWeaker(began: Relations, rels: Relations, child: Key, parent: Key)
    requires OnlyWeaker(began, rels) && OtherPresence(rels, child, parent)
    ensures OtherPresence(began, child, parent)
  {
    var k :| k in rels && rels[k].active && k.target == child && k.kind.Serves? && k.source != parent;
    assert Linked(rels, k);
  }

  lemma AlongFell(began: Relations, rels: Relations, assets: Inventory, observed: set<Key>, gone: set<Key>, threshold: nat, root: Key,
                  fell: set<Key>, later: Relations, now: Time)
    requires TakenAlong(began, rels, assets, observed, gone, threshold) && OnlyWeaker(began, rels)
    requires Falls(assets, rels, observed, root, fell) && OnlyEnded(assets, rels, later, fell)
    ensures TakenAlong(began, later, Fell(assets, fell, now), observed, gone + fell, threshold)
  {
    forall k | k in later && Linked(began, k) && Owning(k)
      ensures Along(began, later, Fell(assets, fell, now), observed, gone + fell, threshold, k)
    {
      assert Along(began, rels, assets, observed, gone, threshold, k);
      if k.source in fell && Linked(rels, k) && Excused(rels, observed, k.source, k.target) && k.target !in observed {
        OtherWeaker(began, rels, k.target, k.source);
      }
    }
  }

  lemma AlongRow(began: Relations, rels: Relations, assets: Inventory, observed: set<Key>, gone: set<Key>, threshold: nat, row: RelationKey)
    requires TakenAlong(began, rels, assets, observed, gone, threshold) && row in rels
    ensures TakenAlong(began, MissRow(rels, row, threshold), assets, observed, gone, threshold)
  {
    forall k | k in rels && Linked(began, k) && Owning(k)
      ensures Along(began, MissRow(rels, row, threshold), assets, observed, gone, threshold, k)
    {
      assert Along(began, rels, assets, observed, gone, threshold, k);
    }
  }

  lemma AlongBump(began: Relations, rels: Relations, assets: Inventory, observed: set<Key>, gone: set<Key>, threshold: nat, a: Key)
    requires TakenAlong(began, rels, assets, observed, gone, threshold) && a in assets
    ensures TakenAlong(began, rels, Bumped(assets, a), observed, gone, threshold)
  {
    forall k | k in rels && Linked(began, k) && Owning(k)
      ensures Along(began, rels, Bumped(assets, a), observed, gone, threshold, k)
    {
      assert Along(began, rels, assets, observed, gone, threshold, k);
    }
  }

  lemma AlongEnded(began: Relations, rels: Relations, assets: Inventory, observed: set<Key>, gone: set<Key>, threshold: nat, later: Relations)
    requires TakenAlong(began, rels, assets, observed, gone, threshold) && OnlyEnded(assets, rels, later, {})
    ensures TakenAlong(began, later, assets, observed, gone, threshold)
  {
    assert later == rels;
  }

  // ----------------------------------------------------- between any two steps

  /** What holds between any two steps of a coverage. */
  ghost predicate Covering(start: Start, assets: Inventory, rels: Relations, book: Book, observed: set<Key>, gone: set<Key>,
                           settings: Settings, now: Time) {
    && Eroded(start.assets, assets, observed, gone, now)
    && BookEroded(start.book, book, gone, start.source)
    && Settled(assets, book, gone)
    && Within(start.assets, assets, settings)
    && OnlyWeaker(start.rels, rels)
    && Justified(start.assets, assets, start.rels, rels, settings, gone)
    && TakenAlong(start.rels, rels, assets, observed, gone, RelationThreshold(settings))
  }

  lemma FallStep(start: Start, assets: Inventory, rels: Relations, book: Book, observed: set<Key>, gone: set<Key>,
                 settings: Settings, k: Key, fell: set<Key>, later: Relations, now: Time)
    requires Covering(start, assets, rels, book, observed, gone, settings, now)
    requires Falls(assets, rels, observed, k, fell) && k !in observed && OffSurface(assets, start.rels, rels, k) && OnlyEnded(assets, rels, later, fell)
    ensures Covering(start, Fell(assets, fell, now), later, ResolveForAssets(book, fell, now), observed, gone + fell, settings, now)
  {
    ObservedStay(assets, rels, observed, k, fell);
    EndedIsWeaker(assets, rels, later, fell);
    AlongFell(start.rels, rels, assets, observed, gone, RelationThreshold(settings), k, fell, later, now);
    WeakerStill(start.rels, rels, later);
    JustifiedFell(start.assets, assets, start.rels, rels, observed, settings, gone, k, fell, later, now);
    ErodedFell(start.assets, assets, observed, gone, fell, now);
    BookFell(start.book, book, gone, start.source, fell, now);
    SettledFell(assets, book, gone, fell, now);
    WithinFell(start.assets, assets, settings, fell, now);
  }

  lemma CountedMissStep(start: Start, assets: Inventory, rels: Relations, book: Book, observed: set<Key>, gone: set<Key>,
                        settings: Settings, k: Key, fell: set<Key>, later: Relations, now: Time)
    requires Missable(assets, observed, k) && Covering(start, assets, rels, book, observed, gone, settings, now)
    requires OneMiss(assets, rels, observed, settings, k, fell, Fell(Bumped(assets, k), fell, now), now)
    requires OnlyEnded(Bumped(assets, k), rels, later, fell)
    ensures Covering(start, Fell(Bumped(assets, k), fell, now), later, ResolveForAssets(book, fell, now), observed, gone + fell, settings, now)
  {
    ErodedBump(start.assets, assets, observed, gone, k, now);
    JustifiedBump(start.assets, assets, start.rels, rels, settings, gone, k);
    AlongBump(start.rels, rels, assets, observed, gone, RelationThreshold(settings), k);
    EndedIsWeaker(Bumped(assets, k), rels, later, fell);
    WeakerStill(start.rels, rels, later);
    if fell == {} {
      JustifiedWeaker(start.assets, Bumped(assets, k), start.rels, rels, settings, gone, later);
      FellNone(Bumped(assets, k), book, now);
      AlongEnded(start.rels, rels, Bumped(assets, k), observed, gone, RelationThreshold(settings), later);
      assert gone + fell == gone;
    } else {
      assert Erodes(start.assets, assets, observed, gone, now, k);
      ObservedStay(Bumped(assets, k), rels, observed, k, fell);
      JustifiedFell(start.assets, Bumped(assets, k), start.rels, rels, observed, settings, gone, k, fell, later, now);
      AlongFell(start.rels, rels, Bumped(assets, k), observed, gone, RelationThreshold(settings), k, fell, later, now);
    }
    ErodedFell(start.assets, Bumped(assets, k), observed, gone, fell, now);
    BookFell(start.book, book, gone, start.source, fell, now);
    SettledFell(Bumped(assets, k), book, gone, fell, now);
    WithinBump(start.assets, assets, settings, k, fell, now);
  }

  lemma RowStep(start: Start, assets: Inventory, rels: Relations, book: Book, observed: set<Key>, gone: set<Key>,
                settings: Settings, now: Time, k: RelationKey)
    requires Covering(start, assets, rels, book, observed, gone, settings, now) && k in rels
    ensures Covering(start, assets, MissRow(rels, k, RelationThreshold(settings)), book, observed, gone, settings, now)
  {
    MissRowIsWeaker(rels, k, RelationThreshold(settings));
    AlongRow(start.rels, rels, assets, observed, gone, RelationThreshold(settings), k);
    WeakerStill(start.rels, rels, MissRow(rels, k, RelationThreshold(settings)));
    JustifiedWeaker(start.assets, assets, start.rels, rels, settings, gone, MissRow(rels, k, RelationThreshold(settings)));
  }

  /** Findings coverage resolves nothing that is already settled and only findings of the run's source. */
  lemma FindingStep(start: Start, assets: Inventory, rels: Relations, book: Book, observed: set<Key>, gone: set<Key>,
                    settings: Settings, now: Time, cov: Coverage, found: set<FindingKey>, threshold: nat)
    requires Covering(start, assets, rels, book, observed, gone, settings, now)
    ensures Covering(start, assets, rels, ResolveUnobserved(book, start.source, cov, found, threshold, now), observed, gone, settings, now)
  {
    var after := ResolveUnobserved(book, start.source, cov, found, threshold, now);
    forall k | k in start.book
      ensures BookRow(start.book, after, gone, start.source, k)
    {
      assert BookRow(start.book, book, gone, start.source, k);
    }
    forall k | k in gone
      ensures !Active(assets, k) && NoOpenFinding(after, k)
    {
      assert NoOpenFinding(book, k);
    }
  }

  // --------------------------------------------------------- off the surface

  /** An address that names pointed at when the coverage began, and nothing else did, and none does any more. */
  predicate Abandoned(began: Relations, rels: Relations, k: Key) {
    LedTo(began, k, ResolvesTo) && !LedTo(began, k, HostedOn) && !LedTo(rels, k, ResolvesTo)
  }

  /** An active address that is known only by its names and was not observed. */
  predicate ByNameOnly(assets: Inventory, observed: set<Key>, k: Key) {
    Active(assets, k) && k.kind.IpAddress? && assets[k].scope.Derived? && k !in observed
  }

  /** Every such address that is abandoned is gone. */
  ghost predicate Cleared(began: Relations, rels: Relations, assets: Inventory, observed: set<Key>) {
    forall k {:trigger Abandoned(began, rels, k)} ::
      ByNameOnly(assets, observed, k) ==> !Abandoned(began, rels, k)
  }

  /** What holds between any two items of a coverage. */
  ghost predicate Keeping(start: Start, assets: Inventory, rels: Relations, book: Book, observed: set<Key>, gone: set<Key>,
                          settings: Settings, now: Time) {
    Covering(start, assets, rels, book, observed, gone, settings, now) && Cleared(start.rels, rels, assets, observed)
  }

  /** Names still point at what they pointed at. */
  ghost predicate SameNames(rels: Relations, later: Relations) {
    forall r: RelationKey :: r.kind.ResolvesTo? ==> (Linked(later, r) <==> Linked(rels, r))
  }

  lemma SameLed(rels: Relations, later: Relations, k: Key)
    requires SameNames(rels, later)
    ensures LedTo(later, k, ResolvesTo) <==> LedTo(rels, k, ResolvesTo)
  {
    if LedTo(later, k, ResolvesTo) {
      var r :| r in later && later[r].active && r.target == k && r.kind == ResolvesTo;
      assert Linked(rels, r);
    }
    if LedTo(rels, k, ResolvesTo) {
      var r :| r in rels && rels[r].active && r.target == k && r.kind == ResolvesTo;
      assert Linked(later, r);
    }
  }

  lemma ClearedStill(began: Relations, rels: Relations, later: Relations, assets: Inventory, after: Inventory, observed: set<Key>)
    requires Cleared(began, rels, assets, observed) && SameNames(rels, later)
    requires forall k :: Active(after, k) ==> Active(assets, k) && after[k].scope == assets[k].scope
    ensures Cleared(began, later, after, observed)
  {
    forall k | ByNameOnly(after, observed, k)
      ensures !Abandoned(began, later, k)
    {
      SameLed(rels, later, k);
      assert !Abandoned(began, rels, k);
    }
  }

  /** No name is a part of what it points at, so no name goes with what falls. */
  lemma FallenKeepNames(assets: Inventory, rels: Relations, later: Relations, fell: set<Key>)
    requires OnlyEnded(assets, rels, later, fell)
    ensures SameNames(rels, later)
  {
  }

  lemma ClearedByMiss(start: Start, assets: Inventory, rels: Relations, observed: set<Key>, k: Key, fell: set<Key>,
                      after: Inventory, later: Relations, settings: Settings, now: Time)
    requires k in assets && Cleared(start.rels, rels, assets, observed)
    requires OneMiss(assets, rels, observed, settings, k, fell, after, now) && OnlyEnded(assets, rels, later, fell)
    ensures Cleared(start.rels, later, after, observed)
  {
    FallenKeepNames(assets, rels, later, fell);
    ClearedStill(start.rels, rels, later, assets, after, observed);
  }

  /** After the miss of a relation at most its target may have to leave. */
  lemma ClearedByRow(began: Relations, rels: Relations, later: Relations, assets: Inventory, observed: set<Key>, k: RelationKey, threshold: nat)
    requires Cleared(began, rels, assets, observed) && k in rels && later == MissRow(rels, k, threshold)
    requires ByNameOnly(assets, observed, k.target) ==> !Abandoned(began, later, k.target)
    ensures Cleared(began, later, assets, observed)
  {
    forall a | ByNameOnly(assets, observed, a) && a != k.target
      ensures !Abandoned(began, later, a)
    {
      assert !Abandoned(began, rels, a);
      if LedTo(rels, a, ResolvesTo) {
        var r :| r in rels && rels[r].active && r.target == a && r.kind == ResolvesTo;
        assert later[r] == rels[r];
      }
    }
  }

  /** The target of a missed relation has to leave only if that relation was a name that ended and none is left. */
  lemma TargetStays(began: Relations, rels: Relations, later: Relations, k: RelationKey, threshold: nat)
    requires k in rels && later == MissRow(rels, k, threshold) && OnlyWeaker(began, rels)
    ensures Abandoned(began, later, k.target) && !Abandoned(began, rels, k.target) ==>
              k.kind.ResolvesTo? && rels[k].missed + 1 >= threshold && !PointedAt(later, k.target)
  {
    MissRowIsWeaker(rels, k, threshold);
    WeakerStill(began, rels, later);
    StillUnled(began, later, k.target, HostedOn);
    if Abandoned(began, later, k.target) && LedTo(rels, k.target, ResolvesTo) {
      var r :| r in rels && rels[r].active && r.target == k.target && r.kind == ResolvesTo;
      assert r == k || Linked(later, r);
    }
  }

  lemma ClearedButLeft(began: Relations, rels: Relations, mid: Relations, assets: Inventory, observed: set<Key>, k: RelationKey, threshold: nat,
                       later: Relations, after: Inventory)
    requires Cleared(began, rels, assets, observed) && k in rels && mid == MissRow(rels, k, threshold)
    requires SameNames(mid, later) && !Active(after, k.target)
    requires forall x :: Active(after, x) ==> Active(assets, x) && after[x].scope == assets[x].scope
    ensures Cleared(began, later, after, observed)
  {
    forall a | ByNameOnly(after, observed, a)
      ensures !Abandoned(began, later, a)
    {
      assert !Abandoned(began, rels, a);
      SameLed(mid, later, a);
      if LedTo(rels, a, ResolvesTo) {
        var r :| r in rels && rels[r].active && r.target == a && r.kind == ResolvesTo;
        assert mid[r] == rels[r];
      }
    }
  }

  // ------------------------------------------------------------- item by item

  /** The inventory's tables, and what this run has made inactive. */
  datatype Tables = Tables(assets: Inventory, rels: Relations, book: Book, gone: set<Key>)

  /** Exactly what went inactive took its open findings along. */
  predicate BookFollows(before: Tables, after: Tables, now: Time) {
    before.gone <= after.gone && after.book == ResolveForAssets(before.book, after.gone - before.gone, now)
  }

  lemma BookFollowsFell(before: Tables, mid: Tables, fell: set<Key>, after: Tables, now: Time)
    requires BookFollows(before, mid, now) && fell !! mid.gone
    requires after.gone == mid.gone + fell && after.book == ResolveForAssets(mid.book, fell, now)
    ensures BookFollows(before, after, now)
  {
    ResolvedAgain(before.book, mid.gone - before.gone, fell, now);
    assert after.gone - before.gone == mid.gone - before.gone + fell;
  }

  lemma FellAreNew(assets: Inventory, book: Book, gone: set<Key>, fell: set<Key>)
    requires Settled(assets, book, gone) && AllActive(assets, fell)
    ensures fell !! gone
  {
  }

  /** The effect of missing listed assets: who was missed how often, what ended and what was resolved with them. */
  ghost predicate Listed(before: Tables, after: Tables, observed: set<Key>, listed: seq<Key>, settings: Settings, now: Time) {
    && MissedEach(before.assets, after.assets, LivenessTimes(before.assets, observed, listed))
    && RowsDone(before.rels, after.rels, {}, after.gone, RelationThreshold(settings))
    && BookFollows(before, after, now)
  }

  /** The effect of missing covered relations, of which these have been counted for their targets too. */
  ghost predicate Rowed(before: Tables, after: Tables, observed: set<Key>, done: set<RelationKey>, counted: set<RelationKey>,
                        settings: Settings, now: Time) {
    && MissedEach(before.assets, after.assets, RowTimes(before.assets, observed, counted))
    && RowsDone(before.rels, after.rels, done, after.gone, RelationThreshold(settings))
    && BookFollows(before, after, now)
  }

  lemma ListedNone(t: Tables, observed: set<Key>, settings: Settings, now: Time)
    ensures Listed(t, t, observed, [], settings, now)
  {
    FellNone(t.assets, t.book, now);
    assert t.gone - t.gone == {};
  }

  lemma RowedNone(t: Tables, observed: set<Key>, settings: Settings, now: Time)
    ensures Rowed(t, t, observed, {}, {}, settings, now)
  {
    FellNone(t.assets, t.book, now);
    assert t.gone - t.gone == {};
    forall k | k in t.assets
      ensures RowTimes(t.assets, observed, {})[k] == 0
    {
      assert Leading({}, k) == {};
    }
  }

  lemma ListedOneMore(before: Tables, mid: Tables, after: Tables, observed: set<Key>, listed: seq<Key>, n: nat, settings: Settings, fell: set<Key>,
                      now: Time)
    requires n < |listed| && Listed(before, mid, observed, listed[..n], settings, now) && listed[n] in mid.assets
    requires OneMiss(mid.assets, mid.rels, observed, settings, listed[n], fell, after.assets, now)
    requires OnlyEnded(mid.assets, mid.rels, after.rels, fell) && fell !! mid.gone
    requires after.gone == mid.gone + fell && after.book == ResolveForAssets(mid.book, fell, now)
    ensures Listed(before, after, observed, listed[..n + 1], settings, now)
  {
    LivenessKnown(before.assets, mid.assets, mid.rels, observed, settings, listed, n, fell, after.assets, now);
    RowsDoneEnded(before.rels, mid.rels, {}, mid.gone, RelationThreshold(settings), mid.assets, after.rels, fell);
    BookFollowsFell(before, mid, fell, after, now);
  }

  lemma ListedUnknown(before: Tables, mid: Tables, observed: set<Key>, listed: seq<Key>, n: nat, settings: Settings, now: Time)
    requires n < |listed| && Listed(before, mid, observed, listed[..n], settings, now) && listed[n] !in mid.assets
    ensures Listed(before, mid, observed, listed[..n + 1], settings, now)
  {
    LivenessUnknown(before.assets, observed, listed, n);
  }

  lemma RowedRelation(before: Tables, mid: Tables, observed: set<Key>, done: set<RelationKey>, k: RelationKey, settings: Settings, now: Time)
    requires Rowed(before, mid, observed, done, done, settings, now) && k in mid.rels && k !in done
    ensures Rowed(before, mid.(rels := MissRow(mid.rels, k, RelationThreshold(settings))), observed, done + {k}, done, settings, now)
  {
    RowDoneOneMore(before.rels, mid.rels, done, mid.gone, k, RelationThreshold(settings));
  }

  lemma RowedFall(before: Tables, mid: Tables, after: Tables, observed: set<Key>, done: set<RelationKey>, counted: set<RelationKey>,
                  settings: Settings, fell: set<Key>, now: Time)
    requires Rowed(before, mid, observed, done, counted, settings, now)
    requires after.assets == Fell(mid.assets, fell, now) && OnlyEnded(mid.assets, mid.rels, after.rels, fell) && fell !! mid.gone
    requires after.gone == mid.gone + fell && after.book == ResolveForAssets(mid.book, fell, now)
    ensures Rowed(before, after, observed, done, counted, settings, now)
  {
    MissedNoneMore(before.assets, mid.assets, RowTimes(before.assets, observed, counted), fell, now);
    RowsDoneEnded(before.rels, mid.rels, done, mid.gone, RelationThreshold(settings), mid.assets, after.rels, fell);
    BookFollowsFell(before, mid, fell, after, now);
  }

  lemma RowedTarget(before: Tables, mid: Tables, after: Tables, observed: set<Key>, done: set<RelationKey>, k: RelationKey,
                    settings: Settings, fell: set<Key>, now: Time)
    requires Rowed(before, mid, observed, done + {k}, done, settings, now) && k !in done && k.target in mid.assets && CountsMisses(k.target.kind)
    requires OneMiss(mid.assets, mid.rels, observed, settings, k.target, fell, after.assets, now)
    requires OnlyEnded(mid.assets, mid.rels, after.rels, fell) && fell !! mid.gone
    requires after.gone == mid.gone + fell && after.book == ResolveForAssets(mid.book, fell, now)
    ensures Rowed(before, after, observed, done + {k}, done + {k}, settings, now)
  {
    forall j | j in before.assets {
      RowOneMore(before.assets, observed, done, k, j);
    }
    MissedOneMore(before.assets, mid.assets, RowTimes(before.assets, observed, done), mid.rels, observed, settings, k.target, fell,
                  after.assets, now, RowTimes(before.assets, observed, done + {k}));
    RowsDoneEnded(before.rels, mid.rels, done + {k}, mid.gone, RelationThreshold(settings), mid.assets, after.rels, fell);
    BookFollowsFell(before, mid, fell, after, now);
  }

  lemma RowedNoTarget(before: Tables, mid: Tables, observed: set<Key>, done: set<RelationKey>, k: RelationKey, settings: Settings, now: Time)
    requires Rowed(before, mid, observed, done + {k}, done, settings, now) && k !in done && !CountsMisses(k.target.kind)
    ensures Rowed(before, mid, observed, done + {k}, done + {k}, settings, now)
  {
    RowTimesSame(before.assets, observed, done, k);
  }

  lemma OneLess(rows: set<RelationKey>, todo: set<RelationKey>, k: RelationKey)
    requires todo <= rows && k in todo
    ensures rows - todo + {k} == rows - (todo - {k}) && k !in rows - todo
  {
  }
}
