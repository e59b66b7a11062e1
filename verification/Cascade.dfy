/**
 Deactivation: an asset that is gone takes along what exists only as part of it
 (backend/app/assets/ingest.py, _deactivate).
 */
module Cascade {
  import opened Prelude
  import opened Assets
  import opened Findings

  datatype Scope = InScope | Derived | OutOfScope

  datatype Asset = Asset(
    active: bool,
    inactiveSince: Option<Time>,
    lastSeen: Time,
    missed: nat,
    scope: Scope,
    cdn: bool,
    port: Option<nat>)

  datatype RelationKey = RelationKey(source: Key, target: Key, kind: RelationType)

  datatype Relation = Relation(active: bool, missed: nat, lastSeen: Time)

  type Inventory = map<Key, Asset>
  type Relations = map<RelationKey, Relation>

  predicate Active(assets: Inventory, k: Key) {
    k in assets && assets[k].active
  }

  predicate Linked(rels: Relations, k: RelationKey) {
    k in rels && rels[k].active
  }

  /** The relation makes its target a part of its source. */
  predicate Owning(k: RelationKey) {
    Ownership(k.source.kind, k.target.kind) == Some(k.kind)
  }

  /** Some other parent still serves the endpoint. */
  predicate OtherPresence(rels: Relations, child: Key, parent: Key) {
    exists k :: k in rels && rels[k].active && k.target == child && k.kind.Serves? && k.source != parent
  }

  predicate Excused(rels: Relations, observed: set<Key>, parent: Key, child: Key) {
    child in observed || (child.kind.HttpEndpoint? && OtherPresence(rels, child, parent))
  }

  /** The relation takes its target down when its source goes. */
  predicate Drags(assets: Inventory, rels: Relations, observed: set<Key>, k: RelationKey) {
    Owning(k) && Linked(rels, k) && Active(assets, k.target) && !Excused(rels, observed, k.source, k.target)
  }

  /** Something in the set drags this asset down. */
  ghost predicate Dragged(assets: Inventory, rels: Relations, observed: set<Key>, fell: set<Key>, c: Key) {
    exists k: RelationKey :: k.source in fell && k.target == c && Drags(assets, rels, observed, k)
  }

  ghost predicate Closed(assets: Inventory, rels: Relations, observed: set<Key>, fell: set<Key>, except: set<Key>) {
    forall k :: Drags(assets, rels, observed, k) && k.source in fell - except ==> k.target in fell
  }

  ghost predicate Grounded(assets: Inventory, rels: Relations, observed: set<Key>, root: Key, fell: set<Key>) {
    forall c :: c in fell && c != root ==> Dragged(assets, rels, observed, fell, c)
  }

  ghost predicate Below(root: Key, fell: set<Key>) {
    forall c :: c in fell && c != root ==> Rank(c.kind) < Rank(root.kind)
  }

  ghost predicate AllActive(assets: Inventory, fell: set<Key>) {
    forall c :: c in fell ==> Active(assets, c)
  }

  /**
   Exactly the assets that fall with the root: the root, and everything dragged down by something
   that falls.
   */
  ghost predicate Falls(assets: Inventory, rels: Relations, observed: set<Key>, root: Key, fell: set<Key>) {
    && (Active(assets, root) <==> root in fell)
    && (!Active(assets, root) ==> fell == {})
    && AllActive(assets, fell)
    && Below(root, fell)
    && Closed(assets, rels, observed, fell, {})
    && Grounded(assets, rels, observed, root, fell)
  }

  // ---------------------------------------------------------------- effects

  function Fell(assets: Inventory, fell: set<Key>, now: Time): (r: Inventory)
    ensures r.Keys == assets.Keys
  {
    map k | k in assets :: if k in fell then assets[k].(active := false, inactiveSince := Some(now)) else assets[k]
  }

  /** A relation the cascade ended: it was live, owned its target, its source fell and its target was active. */
  predicate Ended(assets: Inventory, rels: Relations, fell: set<Key>, k: RelationKey) {
    Linked(rels, k) && Owning(k) && k.source in fell && Active(assets, k.target)
  }

  /** Relations change only by ending. */
  ghost predicate OnlyEnded(assets: Inventory, rels: Relations, after: Relations, fell: set<Key>) {
    && after.Keys == rels.Keys
    && forall k :: k in rels ==> after[k] == rels[k] || (Ended(assets, rels, fell, k) && after[k] == rels[k].(active := false))
  }

  /** No live ownership leads from an asset that fell to one that was active and did not fall. */
  ghost predicate Severed(assets: Inventory, after: Relations, fell: set<Key>, except: set<Key>) {
    forall k :: Linked(after, k) && Owning(k) && k.source in fell - except && Active(assets, k.target) ==> k.target in fell
  }

  /** The root's own relations are ended as soon as their targets fell. */
  ghost predicate RootEnded(after: Relations, root: Key, fell: set<Key>) {
    forall k :: Linked(after, k) && Owning(k) && k.source == root ==> k.target !in fell
  }

  /** Of an asset that fell, every relation to a then-active child it owns is ended. */
  ghost predicate RootSevered(assets: Inventory, after: Relations, root: Key) {
    forall k: RelationKey :: k.source == root && Owning(k) && Active(assets, k.target) ==> !Linked(after, k)
  }

  /** The root's relations to one type of child, but for these, have been dealt with. */
  ghost predicate Handled(assets: Inventory, rels: Relations, observed: set<Key>, after: Relations, root: Key, fell: set<Key>,
                          child: AssetType, except: set<RelationKey>) {
    forall k: RelationKey :: k.source == root && k.target.kind == child && Owning(k) && Active(assets, k.target) && k !in except ==>
        !Linked(after, k) && (Drags(assets, rels, observed, k) ==> k.target in fell)
  }

  ghost predicate AllHandled(assets: Inventory, rels: Relations, observed: set<Key>, after: Relations, root: Key, fell: set<Key>) {
    forall child :: Ownership(root.kind, child).Some? ==> Handled(assets, rels, observed, after, root, fell, child, {})
  }

  /** The root's relations of one kind are as they were. */
  ghost predicate Untouched(rels: Relations, after: Relations, root: Key, child: AssetType) {
    forall k :: k in rels && k.source == root && k.target.kind == child ==> k in after && after[k] == rels[k]
  }

  /** The state of a cascade under way. */
  ghost predicate Underway(assets: Inventory, rels: Relations, observed: set<Key>, root: Key, fell: set<Key>, after: Relations) {
    && root in fell
    && AllActive(assets, fell)
    && Below(root, fell)
    && Closed(assets, rels, observed, fell, {root})
    && Grounded(assets, rels, observed, root, fell)
    && OnlyEnded(assets, rels, after, fell)
    && Severed(assets, after, fell, {root})
    && RootEnded(after, root, fell)
  }

  /** The root's relations, but for one, are as they were. */
  ghost predicate SameOwn(rels: Relations, after: Relations, root: Key, except: set<RelationKey>) {
    && after.Keys == rels.Keys
    && forall k :: k in rels && k.source == root && k !in except ==> after[k] == rels[k]
  }

  /** The root's relations to other types of child are as they were. */
  ghost predicate SameOthers(rels: Relations, after: Relations, root: Key, child: AssetType) {
    && after.Keys == rels.Keys
    && forall k :: k in rels && k.source == root && k.target.kind != child ==> after[k] == rels[k]
  }

  /** Every relation in hand is a live one of the root to a child of this type. */
  ghost predicate InHand(assets: Inventory, after: Relations, root: Key, kind: RelationType, child: AssetType, rows: set<RelationKey>) {
    forall k :: k in rows ==> k.source == root && k.kind == kind && k.target.kind == child && Linked(after, k) && Active(assets, k.target)
  }

  // ------------------------------------------------------------------ proofs

  lemma Begin(assets: Inventory, rels: Relations, observed: set<Key>, root: Key, now: Time)
    requires Active(assets, root)
    ensures Underway(assets, rels, observed, root, {root}, rels)
    ensures Fell(assets, {root}, now) == assets[root := assets[root].(active := false, inactiveSince := Some(now))]
  {
  }

  lemma HandledStart(assets: Inventory, rels: Relations, observed: set<Key>, root: Key, fell: set<Key>, after: Relations,
                     kind: RelationType, child: AssetType, rows: set<RelationKey>, now: Time)
    requires RootEnded(after, root, fell) && after.Keys == rels.Keys && Untouched(rels, after, root, child)
    requires Ownership(root.kind, child) == Some(kind)
    requires rows == set k | k in after && k.source == root && k.kind == kind && k.target.kind == child && after[k].active && Active(Fell(assets, fell, now), k.target)
    ensures Handled(assets, rels, observed, after, root, fell, child, rows)
    ensures InHand(assets, after, root, kind, child, rows)
  {
  }

  lemma HandledStep(assets: Inventory, rels: Relations, observed: set<Key>, root: Key, fell: set<Key>, after: Relations,
                    kind: RelationType, child: AssetType, rows: set<RelationKey>, row: RelationKey, more: set<Key>, later: Relations,
                    first: Relations)
    requires SameOthers(first, after, root, child)
    requires Handled(assets, rels, observed, after, root, fell, child, rows) && InHand(assets, after, root, kind, child, rows)
    requires row in rows && fell <= more && SameOwn(after, later, root, {row})
    requires !Linked(later, row) && (Drags(assets, rels, observed, row) ==> row.target in more)
    ensures Handled(assets, rels, observed, later, root, more, child, rows - {row})
    ensures InHand(assets, later, root, kind, child, rows - {row})
    ensures SameOthers(first, later, root, child)
  {
  }

  lemma InHandOwns(assets: Inventory, after: Relations, root: Key, kind: RelationType, child: AssetType, rows: set<RelationKey>,
                   row: RelationKey)
    requires InHand(assets, after, root, kind, child, rows) && Ownership(root.kind, child) == Some(kind) && row in rows
    ensures row.source == root && Owning(row) && Linked(after, row) && Active(assets, row.target)
  {
  }

  lemma HandledKept(assets: Inventory, rels: Relations, observed: set<Key>, root: Key, fell: set<Key>, after: Relations,
                    child: AssetType, more: set<Key>, later: Relations, other: AssetType)
    requires fell <= more && SameOthers(after, later, root, other) && child != other
    ensures Handled(assets, rels, observed, after, root, fell, child, {}) ==> Handled(assets, rels, observed, later, root, more, child, {})
    ensures Untouched(rels, after, root, child) ==> Untouched(rels, later, root, child)
  {
  }

  lemma Finish(assets: Inventory, rels: Relations, observed: set<Key>, root: Key, fell: set<Key>, after: Relations)
    requires Underway(assets, rels, observed, root, fell, after)
    requires AllHandled(assets, rels, observed, after, root, fell)
    ensures Falls(assets, rels, observed, root, fell)
    ensures Severed(assets, after, fell, {})
    ensures RootSevered(assets, after, root)
  {
    forall k | Drags(assets, rels, observed, k) && k.source in fell
      ensures k.target in fell
    {
      assert k.source == root ==> Handled(assets, rels, observed, after, root, fell, k.target.kind, {});
    }
    forall k: RelationKey | k.source == root && Owning(k) && Active(assets, k.target)
      ensures !Linked(after, k)
    {
      assert Handled(assets, rels, observed, after, root, fell, k.target.kind, {});
    }
  }

  lemma EndOne(assets: Inventory, rels: Relations, observed: set<Key>, root: Key, fell: set<Key>, after: Relations, k: RelationKey)
    requires Underway(assets, rels, observed, root, fell, after)
    requires k.source == root && Owning(k) && Linked(after, k) && Active(assets, k.target)
    ensures Underway(assets, rels, observed, root, fell, after[k := after[k].(active := false)])
  {
  }

  lemma FellAgain(assets: Inventory, fell: set<Key>, more: set<Key>, now: Time)
    ensures Fell(Fell(assets, fell, now), more, now) == Fell(assets, fell + more, now)
  {
  }

  lemma ResolvedAgain(book: Book, gone: set<Key>, more: set<Key>, now: Time)
    ensures ResolveForAssets(ResolveForAssets(book, gone, now), more, now) == ResolveForAssets(book, gone + more, now)
  {
  }

  /** Only hosts and addresses serve, so below the root nothing that falls can end an endpoint's presence. */
  lemma SamePresence(assets: Inventory, rels: Relations, after: Relations, root: Key, fell: set<Key>, child: Key)
    requires Below(root, fell) && OnlyEnded(assets, rels, after, fell)
    ensures OtherPresence(rels, child, root) == OtherPresence(after, child, root)
  {
    if OtherPresence(rels, child, root) {
      var k: RelationKey :| k in rels && rels[k].active && k.target == child && k.kind.Serves? && k.source != root;
      assert after[k] == rels[k];
    }
  }

  lemma SameDrag(assets: Inventory, rels: Relations, observed: set<Key>, root: Key, fell: set<Key>, after: Relations, k: RelationKey,
                 now: Time)
    requires Below(root, fell) && OnlyEnded(assets, rels, after, fell)
    requires k.source !in fell && Rank(k.source.kind) < Rank(root.kind)
    ensures Drags(Fell(assets, fell, now), after, observed, k) <==> Drags(assets, rels, observed, k) && k.target !in fell
  {
  }

  lemma AbsorbClosed(assets: Inventory, rels: Relations, observed: set<Key>, root: Key, fell: set<Key>, after: Relations,
                     child: Key, more: set<Key>, now: Time)
    requires Below(root, fell) && OnlyEnded(assets, rels, after, fell) && root in fell
    requires Closed(assets, rels, observed, fell, {root})
    requires Falls(Fell(assets, fell, now), after, observed, child, more)
    requires Rank(child.kind) < Rank(root.kind)
    ensures Closed(assets, rels, observed, fell + more, {root})
  {
    forall k | Drags(assets, rels, observed, k) && k.source in fell + more - {root}
      ensures k.target in fell + more
    {
      if k.source !in fell {
        SameDrag(assets, rels, observed, root, fell, after, k, now);
      }
    }
  }

  lemma AbsorbGrounded(assets: Inventory, rels: Relations, observed: set<Key>, root: Key, fell: set<Key>, after: Relations,
                       via: RelationKey, more: set<Key>, now: Time)
    requires Below(root, fell) && OnlyEnded(assets, rels, after, fell) && root in fell
    requires Grounded(assets, rels, observed, root, fell)
    requires Falls(Fell(assets, fell, now), after, observed, via.target, more)
    requires via.source == root && Drags(assets, rels, observed, via)
    ensures Grounded(assets, rels, observed, root, fell + more)
  {
    forall c | c in fell + more && c != root
      ensures Dragged(assets, rels, observed, fell + more, c)
    {
      if c in fell {
        var k: RelationKey :| k.source in fell && k.target == c && Drags(assets, rels, observed, k);
        assert k.source in fell + more;
      } else if c == via.target {
        assert via.source in fell + more;
      } else {
        var k: RelationKey :| k.source in more && k.target == c && Drags(Fell(assets, fell, now), after, observed, k);
        SameDrag(assets, rels, observed, root, fell, after, k, now);
        assert k.source in fell + more;
      }
    }
  }

  lemma AbsorbEnded(assets: Inventory, rels: Relations, fell: set<Key>, after: Relations, more: set<Key>, later: Relations, now: Time)
    requires OnlyEnded(assets, rels, after, fell)
    requires OnlyEnded(Fell(assets, fell, now), after, later, more)
    ensures OnlyEnded(assets, rels, later, fell + more)
  {
  }

  lemma AbsorbSevered(assets: Inventory, rels: Relations, root: Key, fell: set<Key>, after: Relations, more: set<Key>, later: Relations,
                      now: Time)
    requires Severed(assets, after, fell, {root})
    requires OnlyEnded(Fell(assets, fell, now), after, later, more)
    requires Severed(Fell(assets, fell, now), later, more, {})
    ensures Severed(assets, later, fell + more, {root})
  {
    forall k | Linked(later, k) && Owning(k) && k.source in fell + more - {root} && Active(assets, k.target)
      ensures k.target in fell + more
    {
      assert Linked(after, k);
    }
  }

  /** What falls with an owned child other than the child itself is nothing the root owns. */
  lemma AbsorbRoot(assets: Inventory, rels: Relations, observed: set<Key>, root: Key, fell: set<Key>, after: Relations, child: Key,
                   more: set<Key>, later: Relations)
    requires RootEnded(after, root, fell)
    requires Falls(assets, after, observed, child, more)
    requires OnlyEnded(assets, after, later, more)
    requires Rank(child.kind) < Rank(root.kind)
    requires forall k :: Linked(after, k) && Owning(k) && k.source == root ==> k.target != child
    ensures RootEnded(later, root, fell + more)
  {
    forall k | Linked(later, k) && Owning(k) && k.source == root
      ensures k.target !in fell + more
    {
      assert Linked(after, k);
      assert k.target in more && k.target != child ==> k.target.kind.Service? && Rank(child.kind) == 1 by {
        if k.target in more && k.target != child {
          DeepFall(assets, after, observed, child, more, k.target);
        }
      }
    }
  }

  /** Below a child, only the services of a port fall. */
  lemma DeepFall(assets: Inventory, after: Relations, observed: set<Key>, child: Key, more: set<Key>, c: Key)
    requires Falls(assets, after, observed, child, more) && Rank(child.kind) < 2 && c in more && c != child
    ensures c.kind.Service? && Rank(child.kind) == 1
  {
    var cause: RelationKey :| cause.source in more && cause.target == c && Drags(assets, after, observed, cause);
  }

  /** A child that falls within a cascade brings everything that falls with it into the cascade. */
  lemma Absorb(assets: Inventory, rels: Relations, observed: set<Key>, root: Key, fell: set<Key>, after: Relations, via: RelationKey,
               more: set<Key>, later: Relations, now: Time)
    requires Underway(assets, rels, observed, root, fell, after)
    requires via.source == root && Drags(assets, rels, observed, via) && !Linked(after, via)
    requires Falls(Fell(assets, fell, now), after, observed, via.target, more)
    requires OnlyEnded(Fell(assets, fell, now), after, later, more)
    requires Severed(Fell(assets, fell, now), later, more, {})
    ensures Underway(assets, rels, observed, root, fell + more, later)
  {
    AbsorbClosed(assets, rels, observed, root, fell, after, via.target, more, now);
    AbsorbGrounded(assets, rels, observed, root, fell, after, via, more, now);
    AbsorbEnded(assets, rels, fell, after, more, later, now);
    AbsorbSevered(assets, rels, root, fell, after, more, later, now);
    AbsorbRoot(Fell(assets, fell, now), rels, observed, root, fell, after, via.target, more, later);
  }

  /** The fallen set is determined: the cascade's result does not depend on the order of its visits. */
  lemma FallsDetermined(assets: Inventory, rels: Relations, observed: set<Key>, root: Key, one: set<Key>, two: set<Key>)
    requires Falls(assets, rels, observed, root, one) && Falls(assets, rels, observed, root, two)
    ensures one == two
  {
    forall c | c in one
      ensures c in two
    {
      FallsWithin(assets, rels, observed, root, one, two, c);
    }
    forall c | c in two
      ensures c in one
    {
      FallsWithin(assets, rels, observed, root, two, one, c);
    }
  }

  lemma {:induction false} FallsWithin(assets: Inventory, rels: Relations, observed: set<Key>, root: Key, one: set<Key>, two: set<Key>, c: Key)
    requires Falls(assets, rels, observed, root, one) && Falls(assets, rels, observed, root, two) && c in one
    ensures c in two
    decreases 2 - Rank(c.kind)
  {
    if c != root {
      var k: RelationKey :| k.source in one && k.target == c && Drags(assets, rels, observed, k);
      FallsWithin(assets, rels, observed, root, one, two, k.source);
    }
  }

  /** Nothing the run observed is dragged down. */
  lemma ObservedStay(assets: Inventory, rels: Relations, observed: set<Key>, root: Key, fell: set<Key>)
    requires Falls(assets, rels, observed, root, fell) && root !in observed
    ensures fell !! observed
  {
    forall c | c in fell
      ensures c !in observed
    {
      if c != root {
        var k: RelationKey :| k.source in fell && k.target == c && Drags(assets, rels, observed, k);
      }
    }
  }

  /**
   After a cascade, every relation by which the root owned a then-active child is ended, and the child fell
   too, was observed in this run, or is an endpoint some other parent still serves.
   */
  lemma OwnedChildrenAccountedFor(assets: Inventory, rels: Relations, observed: set<Key>, root: Key, fell: set<Key>, after: Relations,
                                  k: RelationKey)
    requires Falls(assets, rels, observed, root, fell) && root in fell
    requires OnlyEnded(assets, rels, after, fell) && RootSevered(assets, after, root)
    requires k.source == root && Owning(k) && Linked(rels, k) && Active(assets, k.target)
    ensures !Linked(after, k)
    ensures k.target in fell || k.target in observed || (k.target.kind.HttpEndpoint? && OtherPresence(after, k.target, root))
  {
    SamePresence(assets, rels, after, root, fell, k.target);
  }
}
