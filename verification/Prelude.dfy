/**
 Shared vocabulary: optional values, sequences without repetition, and the few
 facts about finite sets that counting arguments rest on.
 */
module Prelude {

  datatype Option<+T> = None | Some(value: T) {
    function GetOr(default: T): T {
      match this
      case Some(v) => v
      case None => default
    }
  }

  function Max(a: int, b: int): int {
    if a >= b then a else b
  }

  function Min(a: int, b: int): int {
    if a <= b then a else b
  }

  ghost predicate Distinct<T(!new)>(s: seq<T>) {
    forall i, j :: 0 <= i < j < |s| ==> s[i] != s[j]
  }

  function Elements<T>(s: seq<T>): set<T> {
    set x | x in s
  }

  /** A subset is no larger. */
  lemma SubsetSize<T>(a: set<T>, b: set<T>)
    requires a <= b
    ensures |a| <= |b|
  {
    assert b == a + (b - a);
  }

  /** The elements of a sequence without repetition are as many as its positions. */
  lemma {:induction false} DistinctSize<T(!new)>(s: seq<T>)
    requires Distinct(s)
    ensures |Elements(s)| == |s|
  {
    if s != [] {
      var last := s[|s| - 1];
      var init := s[..|s| - 1];
      DistinctSize(init);
      assert Elements(s) == Elements(init) + {last};
    }
  }

  /** An injection from one finite set into another bounds the first by the second. */
  lemma {:induction false} InjectionSize<A(!new), B(!new)>(dom: set<A>, cod: set<B>, f: map<A, B>)
    requires dom <= f.Keys
    requires forall a :: a in dom ==> f[a] in cod
    requires forall a, b :: a in dom && b in dom && f[a] == f[b] ==> a == b
    ensures |dom| <= |cod|
    decreases |dom|
  {
    if dom != {} {
      var a :| a in dom;
      InjectionSize(dom - {a}, cod - {f[a]}, f);
      assert |dom| == |dom - {a}| + 1;
      assert |cod| == |cod - {f[a]}| + 1;
    }
  }

  /** A non-empty finite set of keys has one whose weight is least. */
  lemma {:induction false} LeastExists<T(!new)>(s: set<T>, weight: map<T, int>) returns (m: T)
    requires s != {} && s <= weight.Keys
    ensures m in s && forall x :: x in s ==> weight[m] <= weight[x]
    decreases |s|
  {
    var a :| a in s;
    if s == {a} {
      m := a;
    } else {
      var rest := s - {a};
      assert |rest| < |s|;
      var least := LeastExists(rest, weight);
      m := if weight[a] <= weight[least] then a else least;
      assert s == rest + {a};
    }
  }
}
