/** The object graph as the collector sees it: object `y` holds one reference to
    each element of `g[y]` (its fields, its native part and its type), with
    multiplicity. */
module ObjectGraph {

  type Graph = seq<seq<nat>>

  ghost predicate Closed(g: Graph) {
    forall y, i :: 0 <= y < |g| && 0 <= i < |g[y]| ==> g[y][i] < |g|
  }

  ghost function Upto(n: nat): (s: set<nat>)
    ensures forall x: nat :: x in s <==> x < n
  {
    if n == 0 then {} else Upto(n - 1) + {n - 1}
  }

  ghost function Set(xs: seq<nat>): set<nat> {
    set x | x in xs
  }

  ghost function Objects(g: Graph): set<nat> {
    Upto(|g|)
  }

  /** How many of the references in `xs` go to `x`. */
  ghost function Times(xs: seq<nat>, x: nat): nat {
    multiset(xs)[x]
  }

  /** How many references to `x` the members of `s` hold. */
  ghost function In(g: Graph, s: set<nat>, x: nat): nat {
    if g == [] then 0
    else In(g[..|g| - 1], s, x) + if |g| - 1 in s then Times(g[|g| - 1], x) else 0
  }

  lemma TimesPrefix(xs: seq<nat>, i: nat)
    requires i < |xs|
    ensures forall x: nat :: Times(xs[..i + 1], x) == Times(xs[..i], x) + if xs[i] == x then 1 else 0
    ensures forall x: nat :: Times(xs[..i + 1], x) <= Times(xs, x)
  {
    assert xs[..i + 1] == xs[..i] + [xs[i]];
    assert xs == xs[..i + 1] + xs[i + 1..];
  }

  lemma {:induction false} InMonotonic(g: Graph, s: set<nat>, t: set<nat>, x: nat)
    requires s <= t
    ensures In(g, s, x) <= In(g, t, x)
  {
    if g != [] {
      InMonotonic(g[..|g| - 1], s, t, x);
    }
  }

  /** The references of one more member are added exactly once. */
  lemma {:induction false} InAdd(g: Graph, s: set<nat>, y: nat, x: nat)
    requires y !in s && y < |g|
    ensures In(g, s + {y}, x) == In(g, s, x) + Times(g[y], x)
  {
    var h := g[..|g| - 1];
    if y == |g| - 1 {
      InAbove(h, s, y, x);
    } else {
      InAdd(h, s, y, x);
    }
  }

  lemma {:induction false} InAbove(g: Graph, s: set<nat>, y: nat, x: nat)
    requires |g| <= y
    ensures In(g, s + {y}, x) == In(g, s, x)
  {
    if g != [] {
      InAbove(g[..|g| - 1], s, y, x);
    }
  }

  lemma {:induction false} InPositive(g: Graph, s: set<nat>, x: nat)
    ensures In(g, s, x) > 0 <==> exists y :: y in s && y < |g| && x in g[y]
  {
    if g != [] {
      var n := |g| - 1;
      InPositive(g[..n], s, x);
      if In(g, s, x) > 0 {
        if n in s && Times(g[n], x) > 0 {
          assert x in g[n];
        } else {
          var y :| y in s && y < n && x in g[..n][y];
          assert x in g[y];
        }
      }
      forall y | y in s && y < |g| && x in g[y]
        ensures In(g, s, x) > 0
      {
        if y < n {
          assert x in g[..n][y];
        }
      }
    }
  }

  lemma {:induction false} InUnion(g: Graph, s: set<nat>, t: set<nat>, x: nat)
    requires s !! t
    ensures In(g, s + t, x) == In(g, s, x) + In(g, t, x)
  {
    if g != [] {
      InUnion(g[..|g| - 1], s, t, x);
    }
  }

  // ----- Reachability -----

  ghost predicate IsPath(g: Graph, p: seq<nat>, a: nat, b: nat) {
    && p != [] && p[0] == a && p[|p| - 1] == b
    && (forall i :: 0 <= i < |p| ==> p[i] < |g|)
    && forall i :: 0 < i < |p| ==> p[i] in g[p[i - 1]]
  }

  ghost predicate Reaches(g: Graph, a: nat, b: nat) {
    exists p :: IsPath(g, p, a, b)
  }

  lemma ReachesSelf(g: Graph, a: nat)
    requires a < |g|
    ensures Reaches(g, a, a)
  {
    assert IsPath(g, [a], a, a);
  }

  lemma ReachesStep(g: Graph, a: nat, b: nat, c: nat)
    requires Closed(g) && Reaches(g, a, b) && b < |g| && c in g[b]
    ensures Reaches(g, a, c)
  {
    var p :| IsPath(g, p, a, b);
    assert IsPath(g, p + [c], a, c);
  }

  /** Nothing leads out of a set that holds all the references of its members. */
  ghost predicate Sealed(g: Graph, s: set<nat>) {
    forall y, x :: y in s && y < |g| && x in g[y] ==> x in s
  }

  lemma SealedHolds(g: Graph, s: set<nat>, a: nat, b: nat)
    requires Sealed(g, s) && a in s && Reaches(g, a, b)
    ensures b in s
  {
    var p :| IsPath(g, p, a, b);
    SealedPath(g, s, p, |p| - 1);
  }

  lemma {:induction false} SealedPath(g: Graph, s: set<nat>, p: seq<nat>, k: nat)
    requires Sealed(g, s) && k < |p| && IsPath(g, p, p[0], p[|p| - 1]) && p[0] in s
    ensures p[k] in s
  {
    if k > 0 {
      SealedPath(g, s, p, k - 1);
    }
  }
}
