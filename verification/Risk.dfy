/**
 Risk scores and their roll-up from children to parents in one ordered pass
 (backend/app/risk/engine.py, backend/app/risk/service.py).
 */
module Risk {
  import opened Prelude
  import opened Assets

  // ------------------------------------------------------------------ scores

  /** Rounding to the nearest whole number, halves to the even one. */
  function Round(x: real): int {
    var f := x.Floor;
    var d := x - f as real;
    if d < 0.5 || (d == 0.5 && f % 2 == 0) then f else f + 1
  }

  lemma RoundMonotone(x: real, y: real)
    requires x <= y
    ensures Round(x) <= Round(y)
  {
  }

  lemma RoundWhole(n: int)
    ensures Round(n as real) == n
  {
  }

  /** The nearest whole number, and of two equally near ones the even one. */
  lemma RoundNearest(x: real)
    ensures -0.5 <= x - Round(x) as real <= 0.5
    ensures x - Round(x) as real == 0.5 || x - Round(x) as real == -0.5 ==> Round(x) % 2 == 0
  {
  }

  function Clamped(x: real): real {
    if x < 0.0 then 0.0 else if x > 100.0 then 100.0 else x
  }

  function Score(x: real): (r: int)
    ensures 0 <= r <= 100
  {
    RoundMonotone(0.0, Clamped(x));
    RoundMonotone(Clamped(x), 100.0);
    RoundWhole(0);
    RoundWhole(100);
    Round(Clamped(x))
  }

  lemma ScoreMonotone(x: real, y: real)
    requires x <= y
    ensures Score(x) <= Score(y)
  {
    RoundMonotone(Clamped(x), Clamped(y));
  }

  lemma ScoreWhole(n: int)
    requires 0 <= n <= 100
    ensures Score(n as real) == n
  {
    RoundWhole(n);
  }

  /** A score is the nearest whole number within nought and a hundred. */
  lemma ScoreMeans(x: real)
    ensures x <= 0.0 ==> Score(x) == 0
    ensures x >= 100.0 ==> Score(x) == 100
    ensures 0.0 <= x <= 100.0 ==> -0.5 <= x - Score(x) as real <= 0.5
    ensures 0.0 <= x <= 100.0 && (x - Score(x) as real == 0.5 || x - Score(x) as real == -0.5) ==> Score(x) % 2 == 0
  {
    RoundWhole(0);
    RoundWhole(100);
    RoundNearest(x);
  }

  function Sum(xs: seq<int>): int {
    if xs == [] then 0 else xs[0] + Sum(xs[1..])
  }

  function Largest(xs: seq<int>): (r: int)
    requires xs != []
    ensures r in xs && forall x :: x in xs ==> x <= r
  {
    if |xs| == 1 then xs[0]
    else
      var rest := Largest(xs[1..]);
      assert xs == [xs[0]] + xs[1..];
      if xs[0] >= rest then xs[0] else rest
  }

  /** Confirmed findings, the worst one first; without any, what the asset's exposure adds up to, capped. */
  function Own(findings: seq<int>, exposure: real): real {
    if findings != [] then
      var top := Largest(findings);
      var extra := (Sum(findings) - top) as real * 0.15;
      top as real + if Sum(findings) == top then 0.0 else if extra < 15.0 then extra else 15.0
    else if exposure > 45.0 then 45.0 else exposure
  }

  lemma {:induction false} SumNonNegative(xs: seq<int>)
    requires forall x :: x in xs ==> x >= 0
    ensures Sum(xs) >= 0 && forall x :: x in xs ==> Sum(xs) >= x
  {
    if xs != [] {
      assert forall x :: x in xs[1..] ==> x in xs;
      SumNonNegative(xs[1..]);
      assert xs == [xs[0]] + xs[1..] && xs[0] in xs;
    }
  }

  /** No asset scores below its worst finding, and the others add at most fifteen points. */
  lemma FindingsCount(findings: seq<int>, exposure: real, f: int)
    requires f in findings && forall x :: x in findings ==> 0 <= x <= 100
    ensures Score(Own(findings, exposure)) >= f
    ensures Own(findings, exposure) <= Largest(findings) as real + 15.0
  {
    SumNonNegative(findings);
    var top := Largest(findings);
    ScoreMonotone(top as real, Own(findings, exposure));
    ScoreWhole(top);
  }

  lemma {:induction false} SumSplit(xs: seq<int>, ys: seq<int>)
    ensures Sum(xs + ys) == Sum(xs) + Sum(ys)
  {
    if xs == [] {
      assert xs + ys == ys;
    } else {
      SumSplit(xs[1..], ys);
      assert (xs + ys)[1..] == xs[1..] + ys;
    }
  }

  lemma BagWithout(left: seq<int>, x: int, right: seq<int>)
    ensures multiset(left + [x] + right) == multiset(left + right) + multiset{x}
  {
  }

  lemma SumWithout(left: seq<int>, x: int, right: seq<int>)
    ensures Sum(left + [x] + right) == Sum(left + right) + x
  {
    SumSplit(left, right);
    SumSplit(left + [x], right);
    SumSplit(left, [x]);
  }

  function Without(xs: seq<int>, n: nat): seq<int>
    requires n < |xs|
  {
    xs[..n] + xs[n + 1..]
  }

  lemma TakeOne(xs: seq<int>, n: nat)
    requires n < |xs|
    ensures |Without(xs, n)| == |xs| - 1
    ensures multiset(xs) == multiset(Without(xs, n)) + multiset{xs[n]}
    ensures Sum(xs) == Sum(Without(xs, n)) + xs[n]
  {
    assert xs == xs[..n] + [xs[n]] + xs[n + 1..];
    BagWithout(xs[..n], xs[n], xs[n + 1..]);
    SumWithout(xs[..n], xs[n], xs[n + 1..]);
  }

  lemma SameWithout(a: multiset<int>, b: multiset<int>, x: int)
    requires a + multiset{x} == b + multiset{x}
    ensures a == b
  {
    assert a + multiset{x} - multiset{x} == a;
    assert b + multiset{x} - multiset{x} == b;
  }

  /** The order of summands does not matter. */
  lemma {:induction false} SumAnyOrder(xs: seq<int>, ys: seq<int>)
    requires multiset(xs) == multiset(ys)
    ensures Sum(xs) == Sum(ys)
    decreases |xs|
  {
    if xs == [] {
      assert |multiset(ys)| == 0;
    } else {
      assert xs[0] in multiset(ys);
      var n :| 0 <= n < |ys| && ys[n] == xs[0];
      TakeOne(xs, 0);
      TakeOne(ys, n);
      SameWithout(multiset(Without(xs, 0)), multiset(Without(ys, n)), xs[0]);
      SumAnyOrder(Without(xs, 0), Without(ys, n));
    }
  }

  predicate WorstFirst(xs: seq<int>) {
    forall m, n :: 0 <= m <= n < |xs| ==> xs[m] >= xs[n]
  }

  /**
   What an asset's findings are worth, worst first: the first, and fifteen hundredths of the sum of the others but no
   more than fifteen points. Without findings it is its exposure, but no more than forty-five.
   */
  lemma OwnMeans(findings: seq<int>, ordered: seq<int>, exposure: real)
    requires multiset(ordered) == multiset(findings) && WorstFirst(ordered)
    ensures ordered == [] ==> Own(findings, exposure) == if exposure <= 45.0 then exposure else 45.0
    ensures ordered != [] ==>
              var others := Sum(ordered[1..]) as real * 0.15;
              Own(findings, exposure) == ordered[0] as real + if others <= 15.0 then others else 15.0
  {
    if ordered == [] {
      assert |multiset(findings)| == 0;
    } else {
      assert ordered[0] in multiset(ordered) && ordered[0] in multiset(findings);
      assert ordered[0] in findings;
      var top := Largest(findings);
      assert top in multiset(findings) && top in multiset(ordered);
      var n :| 0 <= n < |ordered| && ordered[n] == top;
      assert ordered[0] >= ordered[n] && top == ordered[0];
      SumAnyOrder(ordered, findings);
      assert Sum(findings) - top == Sum(ordered[1..]);
    }
  }

  // ------------------------------------------------------------------- graph

  type Id = nat

  datatype Node = Node(kind: AssetType, active: bool, findings: seq<int>, exposure: real)

  datatype Link = Link(parent: Id, child: Id, kind: RelationType, active: bool)

  datatype Graph = Graph(nodes: map<Id, Node>, links: seq<Link>)

  /** Parents inherit over these relations, while they are active. */
  predicate RollsUp(l: Link) {
    l.active && (l.kind.Serves? || l.kind.HasPort? || l.kind.RunsService? || l.kind.ResolvesTo?)
  }

  /** Leaves first; types that take no part in the roll-up come before all of them. */
  function Place(t: AssetType): int {
    match t
    case Service => 0
    case Port => 1
    case HttpEndpoint => 2
    case IpAddress => 3
    case Subdomain => 4
    case Domain => 5
    case RootDomain => 6
    case _ => -1
  }

  /** What the schema lets a roll-up relation lead from and to. */
  predicate Schema(r: RelationType, parent: AssetType, child: AssetType) {
    match r
    case Serves => (IsHostname(parent) || parent.IpAddress?) && child.HttpEndpoint?
    case HasPort => parent.IpAddress? && child.Port?
    case RunsService => parent.Port? && child.Service?
    case ResolvesTo => IsHostname(parent) && child.IpAddress?
    case _ => false
  }

  /** Every roll-up relation the schema allows leads to an earlier place. */
  lemma SchemaDescends(r: RelationType, parent: AssetType, child: AssetType)
    requires Schema(r, parent, child)
    ensures Place(child) < Place(parent)
  {
  }

  function ChildrenIn(links: seq<Link>, a: Id): (r: seq<Id>)
    ensures forall c :: c in r <==> exists n :: 0 <= n < |links| && RollsUp(links[n]) && links[n].parent == a && links[n].child == c
  {
    if links == [] then []
    else
      var init, last := links[..|links| - 1], links[|links| - 1];
      var rest := ChildrenIn(init, a);
      assert forall n :: 0 <= n < |init| ==> init[n] == links[n];
      if RollsUp(last) && last.parent == a then rest + [last.child] else rest
  }

  function Children(g: Graph, a: Id): seq<Id> {
    ChildrenIn(g.links, a)
  }

  predicate Respects(g: Graph, l: Link) {
    l.parent in g.nodes && l.child in g.nodes && Schema(l.kind, g.nodes[l.parent].kind, g.nodes[l.child].kind)
  }

  /** An active roll-up relation that respects the schema. */
  ghost predicate Edge(g: Graph, a: Id, c: Id) {
    exists n :: 0 <= n < |g.links| && RollsUp(g.links[n]) && g.links[n].parent == a && g.links[n].child == c && Respects(g, g.links[n])
  }

  /** Which relations roll up: a host or address to its endpoint, an address to its port, a port to its service, a name to its address. */
  predicate Inherits(r: RelationType, parent: AssetType, child: AssetType) {
    var name := parent.RootDomain? || parent.Domain? || parent.Subdomain?;
    || (r.Serves? && (name || parent.IpAddress?) && child.HttpEndpoint?)
    || (r.HasPort? && parent.IpAddress? && child.Port?)
    || (r.RunsService? && parent.Port? && child.Service?)
    || (r.ResolvesTo? && name && child.IpAddress?)
  }

  lemma EdgeMeans(g: Graph, a: Id, c: Id)
    ensures Edge(g, a, c) <==>
            a in g.nodes && c in g.nodes &&
            exists l :: l in g.links && l.active && l.parent == a && l.child == c && Inherits(l.kind, g.nodes[a].kind, g.nodes[c].kind)
  {
    if a in g.nodes && c in g.nodes {
      if l :| l in g.links && l.active && l.parent == a && l.child == c && Inherits(l.kind, g.nodes[a].kind, g.nodes[c].kind) {
        var n :| 0 <= n < |g.links| && g.links[n] == l;
        assert RollsUp(g.links[n]) && Respects(g, g.links[n]);
      }
    }
    if Edge(g, a, c) {
      var n :| 0 <= n < |g.links| && RollsUp(g.links[n]) && g.links[n].parent == a && g.links[n].child == c && Respects(g, g.links[n]);
      assert g.links[n] in g.links;
    }
  }

  lemma EdgeDescends(g: Graph, a: Id, c: Id)
    requires Edge(g, a, c)
    ensures a in g.nodes && c in g.nodes && c in Children(g, a) && Place(g.nodes[c].kind) < Place(g.nodes[a].kind)
  {
    var n :| 0 <= n < |g.links| && RollsUp(g.links[n]) && g.links[n].parent == a && g.links[n].child == c && Respects(g, g.links[n]);
    SchemaDescends(g.links[n].kind, g.nodes[a].kind, g.nodes[c].kind);
  }

  /** Where all roll-up relations respect the schema, every child is at the end of an edge. */
  lemma ChildEdge(g: Graph, a: Id, c: Id)
    requires Schematic(g) && c in Children(g, a)
    ensures Edge(g, a, c)
  {
  }

  /** Each asset once, leaves first. */
  predicate Arranged(g: Graph, order: seq<Id>) {
    && (forall n :: 0 <= n < |order| ==> order[n] in g.nodes)
    && (forall a :: a in g.nodes ==> a in order)
    && (forall m, n :: 0 <= m < n < |order| ==> order[m] != order[n] && Place(g.nodes[order[m]].kind) <= Place(g.nodes[order[n]].kind))
  }

  function KidScores(kids: seq<Id>, computed: map<Id, int>): (r: seq<int>)
    ensures forall x :: x in r <==> exists n :: 0 <= n < |kids| && kids[n] in computed && computed[kids[n]] == x
  {
    if kids == [] then []
    else
      var init, last := kids[..|kids| - 1], kids[|kids| - 1];
      var rest := KidScores(init, computed);
      assert forall n :: 0 <= n < |init| ==> init[n] == kids[n];
      if last in computed then rest + [computed[last]] else rest
  }

  function NodeScore(node: Node, kids: seq<int>): (r: int)
    ensures 0 <= r <= 100
  {
    if !node.active then 0
    else
      var own := Own(node.findings, node.exposure);
      Score(if kids != [] && Largest(kids) as real > own then Largest(kids) as real else own)
  }

  /** What an asset's own facts are worth. */
  function Base(node: Node): (r: int)
    ensures 0 <= r <= 100
  {
    if node.active then Score(Own(node.findings, node.exposure)) else 0
  }

  lemma NodeScoreMeans(node: Node, kids: seq<int>)
    requires node.active && forall k :: k in kids ==> 0 <= k <= 100
    ensures NodeScore(node, kids) >= Base(node)
    ensures forall k :: k in kids ==> NodeScore(node, kids) >= k
    ensures NodeScore(node, kids) == Base(node) || NodeScore(node, kids) in kids
  {
    var own := Own(node.findings, node.exposure);
    if kids != [] {
      var best := Largest(kids);
      ScoreWhole(best);
      if best as real > own {
        ScoreMonotone(own, best as real);
      } else {
        ScoreMonotone(best as real, own);
      }
    }
  }

  /** The scores known when this position of the order is reached. */
  function Known(order: seq<Id>, n: nat, scores: map<Id, int>): map<Id, int>
    requires n <= |order|
  {
    map a | a in scores && a in order[..n] :: scores[a]
  }

  /** The asset at this place was scored from the children scored before it. */
  predicate ScoredAt(g: Graph, order: seq<Id>, scores: map<Id, int>, n: nat) {
    && n < |order| && order[n] in g.nodes && order[n] in scores
    && scores[order[n]] == NodeScore(g.nodes[order[n]], KidScores(Children(g, order[n]), Known(order, n, scores)))
  }

  /** Every asset was scored from the children scored before it. */
  ghost predicate OnePass(g: Graph, order: seq<Id>, scores: map<Id, int>) {
    && scores.Keys == g.nodes.Keys
    && forall n: nat {:trigger ScoredAt(g, order, scores, n)} :: n < |order| ==> ScoredAt(g, order, scores, n)
  }

  // --------------------------------------------------------------- the pass

  class Organization {
    var graph: Graph
    var scores: map<Id, int>

    constructor (g: Graph)
      ensures graph == g && scores == map a | a in g.nodes :: 0
    {
      graph, scores := g, map a | a in g.nodes :: 0;
    }

    method Recompute(order: seq<Id>)
      requires Arranged(graph, order)
      modifies `scores
      ensures OnePass(graph, order, scores)
    {
      var computed: map<Id, int> := map[];
      var n := 0;
      while n < |order|
        invariant 0 <= n <= |order|
        invariant PassSoFar(graph, order, n, computed)
      {
        var score := NodeScore(graph.nodes[order[n]], KidScores(Children(graph, order[n]), computed));
        PassOneMore(graph, order, n, computed, score);
        computed := computed[order[n] := score];
        n := n + 1;
      }
      assert order[..n] == order;
      scores := computed;
    }
  }

  /** The first assets of the order were each scored from the children scored before them. */
  ghost predicate PassSoFar(g: Graph, order: seq<Id>, n: nat, computed: map<Id, int>)
    requires n <= |order|
  {
    && (forall a :: a in computed <==> a in order[..n])
    && (forall m: nat {:trigger ScoredAt(g, order, computed, m)} :: m < n ==> ScoredAt(g, order, computed, m))
  }

  lemma ScoredKept(g: Graph, order: seq<Id>, computed: map<Id, int>, n: nat, score: int, m: nat)
    requires m < n < |order| && (forall i :: 0 <= i < n ==> order[i] != order[n]) && ScoredAt(g, order, computed, m)
    ensures ScoredAt(g, order, computed[order[n] := score], m)
  {
    KnownBefore(order, m, n, computed, order[n], score);
  }

  lemma ScoredNow(g: Graph, order: seq<Id>, computed: map<Id, int>, n: nat, score: int)
    requires n < |order| && (forall i :: 0 <= i < n ==> order[i] != order[n]) && order[n] in g.nodes
    requires (forall a :: a in computed <==> a in order[..n]) && score == NodeScore(g.nodes[order[n]], KidScores(Children(g, order[n]), computed))
    ensures ScoredAt(g, order, computed[order[n] := score], n)
  {
    KnownBefore(order, n, n, computed, order[n], score);
    assert Known(order, n, computed) == computed;
  }

  lemma PassOneMore(g: Graph, order: seq<Id>, n: nat, computed: map<Id, int>, score: int)
    requires n < |order| && Arranged(g, order) && PassSoFar(g, order, n, computed)
    requires score == NodeScore(g.nodes[order[n]], KidScores(Children(g, order[n]), computed))
    ensures PassSoFar(g, order, n + 1, computed[order[n] := score])
  {
    var after := computed[order[n] := score];
    assert order[..n + 1] == order[..n] + [order[n]];
    forall m: nat | m < n + 1
      ensures ScoredAt(g, order, after, m)
    {
      if m < n {
        ScoredKept(g, order, computed, n, score, m);
      } else {
        ScoredNow(g, order, computed, n, score);
      }
    }
  }

  lemma KnownBefore(order: seq<Id>, m: nat, n: nat, scores: map<Id, int>, a: Id, score: int)
    requires m <= n < |order| && order[n] == a && forall i :: 0 <= i < n ==> order[i] != a
    ensures Known(order, m, scores[a := score]) == Known(order, m, scores)
  {
  }

  // ------------------------------------------------------ what the pass gives

  lemma Position(g: Graph, order: seq<Id>, a: Id) returns (n: nat)
    requires Arranged(g, order) && a in g.nodes
    ensures n < |order| && order[n] == a
  {
    n :| 0 <= n < |order| && order[n] == a;
  }

  lemma ScoresInRange(g: Graph, order: seq<Id>, scores: map<Id, int>, a: Id)
    requires Arranged(g, order) && OnePass(g, order, scores) && a in g.nodes
    ensures 0 <= scores[a] <= 100
    ensures !g.nodes[a].active ==> scores[a] == 0
    ensures scores[a] >= Base(g.nodes[a])
  {
    var n := Position(g, order, a);
    var known := Known(order, n, scores);
    assert ScoredAt(g, order, scores, n);
    if g.nodes[a].active {
      ScoreMonotone(Own(g.nodes[a].findings, g.nodes[a].exposure),
                    if KidScores(Children(g, a), known) != [] && Largest(KidScores(Children(g, a), known)) as real > Own(g.nodes[a].findings, g.nodes[a].exposure)
                    then Largest(KidScores(Children(g, a), known)) as real else Own(g.nodes[a].findings, g.nodes[a].exposure));
    }
  }

  /** An active asset was scored from its own worth and the children scored before it. */
  lemma ScoredFrom(g: Graph, order: seq<Id>, scores: map<Id, int>, a: Id) returns (n: nat)
    requires Arranged(g, order) && OnePass(g, order, scores) && a in g.nodes && g.nodes[a].active
    ensures n < |order| && order[n] == a
    ensures var kids := KidScores(Children(g, a), Known(order, n, scores));
            (forall k :: k in kids ==> scores[a] >= k) && (scores[a] == Base(g.nodes[a]) || scores[a] in kids)
  {
    n := Position(g, order, a);
    var known := Known(order, n, scores);
    var kids := KidScores(Children(g, a), known);
    forall k | k in kids
      ensures 0 <= k <= 100
    {
      var i :| 0 <= i < |Children(g, a)| && Children(g, a)[i] in known && known[Children(g, a)[i]] == k;
      ScoresInRange(g, order, scores, Children(g, a)[i]);
    }
    assert ScoredAt(g, order, scores, n);
    NodeScoreMeans(g.nodes[a], kids);
  }

  /** A parent was scored after the child, so it inherits the child's final score. */
  lemma ParentInherits(g: Graph, order: seq<Id>, scores: map<Id, int>, a: Id, c: Id)
    requires Arranged(g, order) && OnePass(g, order, scores) && Edge(g, a, c) && a in g.nodes && g.nodes[a].active
    ensures c in g.nodes && scores[a] >= scores[c]
  {
    EdgeDescends(g, a, c);
    var n := ScoredFrom(g, order, scores, a);
    var m := Position(g, order, c);
    var known := Known(order, n, scores);
    assert c in order[..n] by {
      assert m < n;
      assert order[..n][m] == c;
    }
    var j :| 0 <= j < |Children(g, a)| && Children(g, a)[j] == c;
    assert known[c] in KidScores(Children(g, a), known);
  }

  /** A chain of relations from parent to child, through active assets. */
  ghost predicate Descends(g: Graph, path: seq<Id>) {
    && path != []
    && (forall n :: 0 <= n < |path| ==> path[n] in g.nodes && g.nodes[path[n]].active)
    && (forall n :: 0 <= n < |path| - 1 ==> Edge(g, path[n], path[n + 1]))
  }

  /** After one pass an ancestor scores at least as high as every descendant, however long the chain. */
  lemma {:induction false} AncestorsDominate(g: Graph, order: seq<Id>, scores: map<Id, int>, path: seq<Id>)
    requires Arranged(g, order) && OnePass(g, order, scores) && Descends(g, path)
    ensures scores[path[0]] >= scores[path[|path| - 1]]
    ensures scores[path[0]] >= Base(g.nodes[path[|path| - 1]])
    decreases |path|
  {
    if |path| == 1 {
      ScoresInRange(g, order, scores, path[0]);
    } else {
      assert Edge(g, path[0], path[1]);
      ParentInherits(g, order, scores, path[0], path[1]);
      var rest := path[1..];
      forall n | 0 <= n < |rest| - 1
        ensures Edge(g, rest[n], rest[n + 1])
      {
        assert Edge(g, path[n + 1], path[n + 2]);
      }
      AncestorsDominate(g, order, scores, rest);
    }
  }

  /** All active roll-up relations respect the schema. */
  predicate Schematic(g: Graph) {
    forall n :: 0 <= n < |g.links| && RollsUp(g.links[n]) ==> Respects(g, g.links[n])
  }

  lemma TopChild(g: Graph, order: seq<Id>, scores: map<Id, int>, a: Id) returns (c: Id)
    requires Arranged(g, order) && OnePass(g, order, scores) && a in g.nodes && g.nodes[a].active
    requires scores[a] != Base(g.nodes[a])
    ensures c in Children(g, a) && c in g.nodes && scores[c] == scores[a]
  {
    var n := ScoredFrom(g, order, scores, a);
    var known := Known(order, n, scores);
    var i :| 0 <= i < |Children(g, a)| && Children(g, a)[i] in known && known[Children(g, a)[i]] == scores[a];
    c := Children(g, a)[i];
  }

  /** A score above the asset's own worth is that of one of its children. */
  lemma InheritedFrom(g: Graph, order: seq<Id>, scores: map<Id, int>, a: Id) returns (c: Id)
    requires Arranged(g, order) && OnePass(g, order, scores) && Schematic(g) && a in g.nodes && g.nodes[a].active
    requires scores[a] != Base(g.nodes[a])
    ensures Edge(g, a, c) && c in g.nodes && scores[c] == scores[a] && g.nodes[c].active
    ensures Place(g.nodes[c].kind) < Place(g.nodes[a].kind)
  {
    c := TopChild(g, order, scores, a);
    ScoresInRange(g, order, scores, a);
    ScoresInRange(g, order, scores, c);
    ChildEdge(g, a, c);
    EdgeDescends(g, a, c);
  }

  lemma Prepend(g: Graph, a: Id, rest: seq<Id>)
    requires Descends(g, rest) && Edge(g, a, rest[0]) && a in g.nodes && g.nodes[a].active
    ensures Descends(g, [a] + rest)
  {
    var path := [a] + rest;
    forall m | 0 <= m < |path| - 1
      ensures Edge(g, path[m], path[m + 1])
    {
      if m > 0 {
        assert Edge(g, rest[m - 1], rest[m]);
      }
    }
  }

  /**
   With relations that respect the schema, an active asset's score is the worth of some active asset a chain
   of active ones leads to; with AncestorsDominate, of the one worth most.
   */
  lemma {:induction false} ScoreIsTheWorstBelow(g: Graph, order: seq<Id>, scores: map<Id, int>, a: Id)
    returns (path: seq<Id>)
    requires Arranged(g, order) && OnePass(g, order, scores) && Schematic(g) && a in g.nodes && g.nodes[a].active
    ensures Descends(g, path) && path[0] == a
    ensures Base(g.nodes[path[|path| - 1]]) == scores[a]
    decreases Place(g.nodes[a].kind) + 1
  {
    if scores[a] == Base(g.nodes[a]) {
      path := [a];
    } else {
      var c := InheritedFrom(g, order, scores, a);
      var rest := ScoreIsTheWorstBelow(g, order, scores, c);
      Prepend(g, a, rest);
      path := [a] + rest;
    }
  }

  /** One pass is enough: any two passes, in whatever order within a type, give the same scores. */
  lemma {:induction false} OnePassSuffices(g: Graph, order: seq<Id>, scores: map<Id, int>, other: seq<Id>, others: map<Id, int>, a: Id)
    requires Arranged(g, order) && OnePass(g, order, scores) && Arranged(g, other) && OnePass(g, other, others)
    requires Schematic(g) && a in g.nodes
    ensures scores[a] == others[a]
  {
    ScoresInRange(g, order, scores, a);
    ScoresInRange(g, other, others, a);
    if g.nodes[a].active {
      var path := ScoreIsTheWorstBelow(g, order, scores, a);
      AncestorsDominate(g, other, others, path);
      var path' := ScoreIsTheWorstBelow(g, other, others, a);
      AncestorsDominate(g, order, scores, path');
    }
  }
}
