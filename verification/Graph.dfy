/** Dependency graphs: an action id to the ids it depends on. */
module Graph {
  type Id = nat

  type Graph = map<Id, seq<Id>>

  predicate Edge(g: Graph, x: Id, y: Id) { x in g && y in g[x] }

  /** A dependency path, read from dependent to dependency. */
  predicate Path(g: Graph, p: seq<Id>) {
    |p| > 0 && forall i | 0 < i < |p| :: Edge(g, p[i - 1], p[i])
  }

  /** `x` depends on `y`, directly or not. */
  ghost predicate Reaches(g: Graph, x: Id, y: Id) {
    exists p :: Path(g, p) && |p| > 1 && p[0] == x && p[|p| - 1] == y
  }

  /** A path of at least one edge that comes back to where it began. */
  predicate ClosedPath(g: Graph, p: seq<Id>) {
    Path(g, p) && |p| > 1 && p[0] == p[|p| - 1]
  }

  ghost predicate Acyclic(g: Graph) {
    forall p :: !ClosedPath(g, p)
  }

  // ---------------------------------------------------------------- rewiring

  /** `sorted(...)` on ids. */
  function Insert(x: Id, xs: seq<Id>): (r: seq<Id>)
    ensures multiset(r) == multiset(xs) + multiset{x}
  {
    if xs == [] || x <= xs[0] then [x] + xs
    else assert xs == [xs[0]] + xs[1..]; [xs[0]] + Insert(x, xs[1..])
  }

  function Sorted(xs: seq<Id>): (r: seq<Id>)
    ensures multiset(r) == multiset(xs)
  {
    if xs == [] then [] else assert xs == [xs[0]] + xs[1..]; Insert(xs[0], Sorted(xs[1..]))
  }

  predicate Ascending(xs: seq<Id>) {
    forall i, j | 0 <= i < j < |xs| :: xs[i] <= xs[j]
  }

  lemma {:induction false} InsertAscends(x: Id, xs: seq<Id>)
    requires Ascending(xs)
    ensures Ascending(Insert(x, xs))
  {
    if xs != [] && x > xs[0] {
      InsertAscends(x, xs[1..]);
      var rest := Insert(x, xs[1..]);
      forall i | 0 <= i < |rest|
        ensures xs[0] <= rest[i]
      {
        assert rest[i] in multiset(rest);
        assert rest[i] == x || rest[i] in xs[1..];
      }
    }
  }

  lemma {:induction false} SortedAscends(xs: seq<Id>)
    ensures Ascending(Sorted(xs))
  {
    if xs != [] {
      SortedAscends(xs[1..]);
      InsertAscends(xs[0], Sorted(xs[1..]));
    }
  }

  /** Two ascending lists of the same ids are the same list. */
  lemma SameLeast(xs: seq<Id>, ys: seq<Id>)
    requires Ascending(xs) && Ascending(ys) && multiset(xs) == multiset(ys) && xs != [] && ys != []
    ensures xs[0] == ys[0]
  {
    assert xs[0] in multiset(ys) && ys[0] in multiset(xs);
  }

  lemma RestOf(xs: seq<Id>)
    requires xs != []
    ensures multiset(xs[1..]) == multiset(xs) - multiset{xs[0]}
    ensures Ascending(xs) ==> Ascending(xs[1..])
  {
    assert xs == [xs[0]] + xs[1..];
  }

  lemma {:induction false} AscendingUnique(xs: seq<Id>, ys: seq<Id>)
    requires Ascending(xs) && Ascending(ys) && multiset(xs) == multiset(ys)
    ensures xs == ys
  {
    assert |multiset(xs)| == |xs| && |multiset(ys)| == |ys|;
    if xs != [] {
      SameLeast(xs, ys);
      RestOf(xs);
      RestOf(ys);
      hide Ascending;
      AscendingUnique(xs[1..], ys[1..]);
      assert xs == [xs[0]] + xs[1..] && ys == [ys[0]] + ys[1..];
    }
  }

  /** Sorted lists are a canonical form of collections of ids. */
  lemma SortedCanonical(xs: seq<Id>, ys: seq<Id>)
    ensures Sorted(xs) == Sorted(ys) <==> multiset(xs) == multiset(ys)
  {
    SortedAscends(xs);
    SortedAscends(ys);
    if multiset(xs) == multiset(ys) {
      AscendingUnique(Sorted(xs), Sorted(ys));
    }
  }

  /** Every mention of `failed` replaced. */
  function Replaced(deps: seq<Id>, failed: Id, replacement: Id): (r: seq<Id>)
    ensures |r| == |deps|
    ensures forall i | 0 <= i < |deps| :: r[i] == if deps[i] == failed then replacement else deps[i]
  {
    seq(|deps|, i requires 0 <= i < |deps| => if deps[i] == failed then replacement else deps[i])
  }

  lemma SortedMembers(xs: seq<Id>, x: Id)
    ensures x in Sorted(xs) <==> x in xs
  {
    assert x in multiset(Sorted(xs)) <==> x in multiset(xs);
  }
}
