/** The worklist of the initialisation analysis: facts spread along the links of the
    flow graph, forwards or backwards, until nothing changes. */
module Dataflow {

  /** Which facts spread: block `b` passes on what it holds and `extra[b]`, and takes
      all but `blocked[b]`. */
  datatype Problem = Problem(links: seq<seq<nat>>, extra: seq<set<nat>>, blocked: seq<set<nat>>)
  {
    ghost predicate Valid() {
      && |extra| == |blocked| == |links|
      && forall p, q :: 0 <= p < |links| && q in links[p] ==> q < |links|
    }
  }

  ghost predicate IsPath(links: seq<seq<nat>>, p: seq<nat>) {
    && p != [] && (forall k :: 0 <= k < |p| ==> p[k] < |links|)
    && forall k :: 0 < k < |p| ==> p[k] in links[p[k - 1]]
  }

  ghost predicate Reaches(links: seq<seq<nat>>, a: nat, b: nat) {
    exists p :: IsPath(links, p) && p[0] == a && p[|p| - 1] == b
  }

  /** The path brings the fact `i` from its first block, where it holds at first or
      is added, to its last. */
  ghost predicate Brings(g: Problem, x0: seq<set<nat>>, p: seq<nat>, i: nat)
    requires g.Valid() && |x0| == |g.links|
  {
    && IsPath(g.links, p)
    && (i in x0[p[0]] || (|p| > 1 && i in g.extra[p[0]]))
    && forall k :: 0 < k < |p| ==> i !in g.blocked[p[k]]
  }

  /** `i` comes to `b` from a block that can be reached from the start. */
  ghost predicate Comes(g: Problem, x0: seq<set<nat>>, start: nat, b: nat, i: nat)
    requires g.Valid() && |x0| == |g.links|
  {
    exists p :: Brings(g, x0, p, i) && p[|p| - 1] == b && (|p| > 1 ==> Reaches(g.links, start, p[0]))
  }

  lemma ReachesNext(links: seq<seq<nat>>, a: nat, b: nat, c: nat)
    requires Reaches(links, a, b) && c < |links| && b < |links| && c in links[b]
    ensures Reaches(links, a, c)
  {
    var p :| IsPath(links, p) && p[0] == a && p[|p| - 1] == b;
    assert IsPath(links, p + [c]);
    assert (p + [c])[0] == a && (p + [c])[|p + [c]| - 1] == c;
  }

  lemma ComesNext(g: Problem, x0: seq<set<nat>>, start: nat, b: nat, c: nat, i: nat)
    requires g.Valid() && |x0| == |g.links| && b < |g.links| && c in g.links[b] && i !in g.blocked[c]
    requires Reaches(g.links, start, b) && (i in g.extra[b] || Comes(g, x0, start, b, i))
    ensures Comes(g, x0, start, c, i)
  {
    if i in g.extra[b] {
      var p := [b, c];
      assert Brings(g, x0, p, i) && p[|p| - 1] == c;
    } else {
      var p :| Brings(g, x0, p, i) && p[|p| - 1] == b && (|p| > 1 ==> Reaches(g.links, start, p[0]));
      var p' := p + [c];
      assert Brings(g, x0, p', i) && p'[|p'| - 1] == c && p'[0] == p[0];
    }
  }

  /** Every fact that has been found comes along some path. */
  ghost predicate Justified(g: Problem, x0: seq<set<nat>>, start: nat, x: seq<set<nat>>, seen: seq<bool>)
    requires g.Valid() && |x0| == |g.links|
  {
    && |x| == |seen| == |g.links|
    && (forall b, i: nat :: 0 <= b < |x| && i in x[b] ==> Comes(g, x0, start, b, i))
    && (forall b :: 0 <= b < |x| && seen[b] ==> Reaches(g.links, start, b))
    && forall b :: 0 <= b < |x| ==> x0[b] <= x[b]
  }

  /** What `b` has, the next block has. */
  ghost predicate Passed(g: Problem, x: seq<set<nat>>, seen: seq<bool>, b: nat, c: nat)
    requires g.Valid() && |x| == |seen| == |g.links| && b < |x| && c < |x|
  {
    seen[c] && x[b] + g.extra[b] - g.blocked[c] <= x[c]
  }

  /** Except for the blocks in `todo`, everything has been passed on. */
  ghost predicate Spread(g: Problem, x: seq<set<nat>>, seen: seq<bool>, todo: set<nat>)
    requires g.Valid() && |x| == |seen| == |g.links|
  {
    forall b, c :: 0 <= b < |x| && seen[b] && b !in todo && c in g.links[b] ==> Passed(g, x, seen, b, c)
  }

  /** When nothing is left to do, the facts are exactly those that come. */
  lemma SpreadExact(g: Problem, x0: seq<set<nat>>, start: nat, x: seq<set<nat>>, seen: seq<bool>, b: nat, i: nat)
    requires g.Valid() && |x0| == |g.links| && start < |g.links| && b < |g.links|
    requires Justified(g, x0, start, x, seen) && Spread(g, x, seen, {}) && seen[start]
    ensures i in x[b] <==> Comes(g, x0, start, b, i)
    ensures seen[b] <==> Reaches(g.links, start, b)
  {
    if Reaches(g.links, start, b) {
      var p :| IsPath(g.links, p) && p[0] == start && p[|p| - 1] == b;
      SeenAlong(g, x, seen, p, |p| - 1);
    }
    if Comes(g, x0, start, b, i) {
      var p :| Brings(g, x0, p, i) && p[|p| - 1] == b && (|p| > 1 ==> Reaches(g.links, start, p[0]));
      if |p| > 1 {
        var r :| IsPath(g.links, r) && r[0] == start && r[|r| - 1] == p[0];
        SeenAlong(g, x, seen, r, |r| - 1);
        FoundAlong(g, x0, x, seen, p, i, |p| - 1);
      }
    }
  }

  lemma {:induction false} SeenAlong(g: Problem, x: seq<set<nat>>, seen: seq<bool>, p: seq<nat>, k: nat)
    requires g.Valid() && |x| == |seen| == |g.links| && Spread(g, x, seen, {})
    requires IsPath(g.links, p) && seen[p[0]] && k < |p|
    ensures seen[p[k]]
  {
    if k > 0 {
      SeenAlong(g, x, seen, p, k - 1);
      assert Passed(g, x, seen, p[k - 1], p[k]);
    }
  }

  lemma {:induction false} FoundAlong(g: Problem, x0: seq<set<nat>>, x: seq<set<nat>>, seen: seq<bool>, p: seq<nat>, i: nat, k: nat)
    requires g.Valid() && |x0| == |x| == |seen| == |g.links| && Spread(g, x, seen, {})
    requires (forall b :: 0 <= b < |x| ==> x0[b] <= x[b])
    requires Brings(g, x0, p, i) && seen[p[0]] && k < |p|
    ensures seen[p[k]] && (i in x[p[k]] || (k == 0 && i in g.extra[p[0]]))
  {
    if k > 0 {
      FoundAlong(g, x0, x, seen, p, i, k - 1);
      assert Passed(g, x, seen, p[k - 1], p[k]);
    }
  }

  // ----- One link -----

  ghost predicate Sized(g: Problem, x: seq<set<nat>>, seen: seq<bool>) {
    g.Valid() && |x| == |seen| == |g.links|
  }

  /** What `c` has after `b` has passed on what it has. */
  function Taken(g: Problem, x: seq<set<nat>>, b: nat, c: nat): set<nat>
    requires |g.extra| == |g.blocked| == |x| && b < |x| && c < |x|
  {
    x[c] + (x[b] + g.extra[b] - g.blocked[c])
  }

  lemma OfferJustified(g: Problem, x0: seq<set<nat>>, start: nat, x: seq<set<nat>>, seen: seq<bool>, b: nat, c: nat)
    requires g.Valid() && |x0| == |g.links| && Justified(g, x0, start, x, seen)
    requires b < |x| && seen[b] && c in g.links[b]
    ensures c < |x| && Justified(g, x0, start, x[c := Taken(g, x, b, c)], seen[c := true])
  {
    var x' := x[c := Taken(g, x, b, c)];
    ReachesNext(g.links, start, b, c);
    forall i: nat | i in x'[c]
      ensures Comes(g, x0, start, c, i)
    {
      if i !in x[c] {
        ComesNext(g, x0, start, b, c, i);
      }
    }
  }

  /** Only a block that has gained something has to pass it on. */
  lemma OfferSpread(g: Problem, x: seq<set<nat>>, seen: seq<bool>, todo: set<nat>, b: nat, c: nat)
    requires Sized(g, x, seen) && Spread(g, x, seen, todo) && b < |x| && c in g.links[b]
    ensures c < |x|
    ensures var x', seen' := x[c := Taken(g, x, b, c)], seen[c := true];
      Spread(g, x', seen', if x'[c] == x[c] && seen[c] then todo else todo + {c})
  {
    var x', seen' := x[c := Taken(g, x, b, c)], seen[c := true];
    var todo' := if x'[c] == x[c] && seen[c] then todo else todo + {c};
    forall d, e | 0 <= d < |x| && seen'[d] && d !in todo' && e in g.links[d]
      ensures Passed(g, x', seen', d, e)
    {
      assert x'[d] == x[d] && seen[d] && Passed(g, x, seen, d, e);
    }
  }

  lemma OfferPassed(g: Problem, x: seq<set<nat>>, seen: seq<bool>, b: nat, c: nat, e: nat)
    requires Sized(g, x, seen) && b < |x| && c < |x| && e < |x| && (e == c || Passed(g, x, seen, b, e))
    ensures Passed(g, x[c := Taken(g, x, b, c)], seen[c := true], b, e)
  {
  }

  // ----- The measure -----

  /** How much can still change. */
  ghost function Remaining(vs: set<nat>, x: seq<set<nat>>, seen: seq<bool>): nat
    requires |x| == |seen|
  {
    if x == [] then 0
    else
      var n := |x| - 1;
      Remaining(vs, x[..n], seen[..n]) + |vs - x[n]| + if seen[n] then 0 else 1
  }

  lemma {:induction false} RemainingUpdate(vs: set<nat>, x: seq<set<nat>>, seen: seq<bool>, c: nat, y: set<nat>)
    requires |x| == |seen| && c < |x| && x[c] <= y <= vs
    ensures var x', seen' := x[c := y], seen[c := true];
      Remaining(vs, x', seen') <= Remaining(vs, x, seen) && (y != x[c] || !seen[c] ==> Remaining(vs, x', seen') < Remaining(vs, x, seen))
  {
    var n := |x| - 1;
    if c < n {
      assert x[c := y][..n] == x[..n][c := y] && seen[c := true][..n] == seen[..n][c := true];
      RemainingUpdate(vs, x[..n], seen[..n], c, y);
    } else {
      assert x[c := y][..n] == x[..n] && seen[c := true][..n] == seen[..n];
      Fewer(vs, x[c], y);
    }
  }

  lemma Fewer(vs: set<nat>, a: set<nat>, b: set<nat>)
    requires a <= b <= vs
    ensures |vs - b| <= |vs - a| && (a != b ==> |vs - b| < |vs - a|)
  {
    assert vs - a == (vs - b) + (b - a);
    if a != b {
      var e :| e in b - a;
      assert b - a != {};
    }
  }

  ghost function All(xs: seq<set<nat>>): set<nat> {
    if xs == [] then {} else All(xs[..|xs| - 1]) + xs[|xs| - 1]
  }

  lemma {:induction false} AllHolds(xs: seq<set<nat>>, b: nat)
    requires b < |xs|
    ensures xs[b] <= All(xs)
  {
    var n := |xs| - 1;
    if b < n {
      AllHolds(xs[..n], b);
    }
  }

  ghost predicate Bounded(vs: set<nat>, xs: seq<set<nat>>) {
    forall b :: 0 <= b < |xs| ==> xs[b] <= vs
  }

  lemma AllBounded(xs: seq<set<nat>>, ys: seq<set<nat>>)
    ensures Bounded(All(xs) + All(ys), xs) && Bounded(All(xs) + All(ys), ys)
  {
    forall b | 0 <= b < |xs|
      ensures xs[b] <= All(xs)
    {
      AllHolds(xs, b);
    }
    forall b | 0 <= b < |ys|
      ensures ys[b] <= All(ys)
    {
      AllHolds(ys, b);
    }
  }

  ghost function Queued(queue: seq<nat>): set<nat> {
    set b | b in queue
  }

  /** What the worklist maintains. */
  ghost predicate Working(g: Problem, x0: seq<set<nat>>, start: nat, x: seq<set<nat>>, seen: seq<bool>, todo: set<nat>,
                          vs: set<nat>)
  {
    && Sized(g, x, seen) && |x0| == |x| && Justified(g, x0, start, x, seen) && Spread(g, x, seen, todo)
    && start < |x| && seen[start] && (forall b :: b in todo ==> b < |x| && seen[b])
    && Bounded(vs, x) && Bounded(vs, g.extra)
  }

  lemma OfferWorking(g: Problem, x0: seq<set<nat>>, start: nat, x: seq<set<nat>>, seen: seq<bool>, todo: set<nat>,
                     vs: set<nat>, b: nat, c: nat)
    requires Working(g, x0, start, x, seen, todo, vs) && b in todo && b < |x| && c in g.links[b]
    ensures c < |x|
    ensures var x', seen' := x[c := Taken(g, x, b, c)], seen[c := true];
      && Working(g, x0, start, x', seen', if x'[c] == x[c] && seen[c] then todo else todo + {c}, vs)
      && Remaining(vs, x', seen') <= Remaining(vs, x, seen)
      && (x'[c] != x[c] || !seen[c] ==> Remaining(vs, x', seen') < Remaining(vs, x, seen))
  {
    hide Justified, Spread, Remaining;
    OfferJustified(g, x0, start, x, seen, b, c);
    OfferSpread(g, x, seen, todo, b, c);
    RemainingUpdate(vs, x, seen, c, Taken(g, x, b, c));
  }

  /** Visits the links of `b`: f_forward or f_backward for each, and a place in the
      queue for those that change. */
  method Visit(g: Problem, b: nat, x1: seq<set<nat>>, seen1: seq<bool>, queue1: seq<nat>, ghost x0: seq<set<nat>>,
               ghost start: nat, ghost vs: set<nat>)
      returns (x: seq<set<nat>>, seen: seq<bool>, queue: seq<nat>)
    requires Working(g, x0, start, x1, seen1, Queued(queue1) + {b}, vs) && b < |g.links|
    ensures Working(g, x0, start, x, seen, Queued(queue), vs)
    ensures Remaining(vs, x, seen) <= Remaining(vs, x1, seen1) && (Remaining(vs, x, seen) == Remaining(vs, x1, seen1) ==> queue == queue1)
  {
    x, seen, queue := x1, seen1, queue1;
    WorkingSized(g, x0, start, x, seen, Queued(queue) + {b}, vs);
    hide Working, Remaining, Passed, Taken;
    for k := 0 to |g.links[b]|
      invariant Sized(g, x, seen) && Working(g, x0, start, x, seen, Queued(queue) + {b}, vs)
      invariant Remaining(vs, x, seen) <= Remaining(vs, x1, seen1) && (Remaining(vs, x, seen) == Remaining(vs, x1, seen1) ==> queue == queue1)
      invariant forall j :: 0 <= j < k ==> g.links[b][j] < |x| && Passed(g, x, seen, b, g.links[b][j])
    {
      var c := g.links[b][k];
      OfferWorking(g, x0, start, x, seen, Queued(queue) + {b}, vs, b, c);
      OfferAll(g, x, seen, b, c, k);
      var y := Taken(g, x, b, c);
      var changed := y != x[c] || !seen[c];
      x, seen := x[c := y], seen[c := true];
      QueuedMore(queue, c, b);
      if changed && c !in queue {
        queue := queue + [c];
      }
    }
    VisitDone(g, x0, start, x, seen, b, queue, vs);
  }

  lemma WorkingSized(g: Problem, x0: seq<set<nat>>, start: nat, x: seq<set<nat>>, seen: seq<bool>, todo: set<nat>, vs: set<nat>)
    requires Working(g, x0, start, x, seen, todo, vs)
    ensures Sized(g, x, seen) && forall b :: b in todo ==> b < |g.links|
  {
  }

  lemma QueuedMore(queue: seq<nat>, c: nat, b: nat)
    ensures Queued(queue + [c]) + {b} == Queued(queue) + {b} + {c}
    ensures c in queue ==> Queued(queue) + {b} == Queued(queue) + {b} + {c}
  {
  }

  lemma OfferAll(g: Problem, x: seq<set<nat>>, seen: seq<bool>, b: nat, c: nat, k: nat)
    requires Sized(g, x, seen) && b < |x| && k < |g.links[b]| && c == g.links[b][k] && c < |x|
    requires forall j :: 0 <= j < k ==> g.links[b][j] < |x| && Passed(g, x, seen, b, g.links[b][j])
    ensures forall j :: 0 <= j < k + 1 ==>
      g.links[b][j] < |x| && Passed(g, x[c := Taken(g, x, b, c)], seen[c := true], b, g.links[b][j])
  {
    forall j | 0 <= j < k + 1
      ensures g.links[b][j] < |x| && Passed(g, x[c := Taken(g, x, b, c)], seen[c := true], b, g.links[b][j])
    {
      OfferPassed(g, x, seen, b, c, g.links[b][j]);
    }
  }

  lemma VisitDone(g: Problem, x0: seq<set<nat>>, start: nat, x: seq<set<nat>>, seen: seq<bool>, b: nat, queue: seq<nat>,
                  vs: set<nat>)
    requires Working(g, x0, start, x, seen, Queued(queue) + {b}, vs) && b < |g.links|
    requires forall j :: 0 <= j < |g.links[b]| ==> g.links[b][j] < |x| && Passed(g, x, seen, b, g.links[b][j])
    ensures Working(g, x0, start, x, seen, Queued(queue), vs)
  {
    forall d, e | 0 <= d < |x| && seen[d] && d !in Queued(queue) && e in g.links[d]
      ensures Passed(g, x, seen, d, e)
    {
      if d == b {
        var j :| 0 <= j < |g.links[b]| && g.links[b][j] == e;
      }
    }
  }

  lemma Begin(g: Problem, x0: seq<set<nat>>, start: nat, seen: seq<bool>, vs: set<nat>)
    requires g.Valid() && |x0| == |seen| == |g.links| && start < |x0| && Bounded(vs, x0) && Bounded(vs, g.extra)
    requires forall b :: 0 <= b < |seen| ==> (seen[b] <==> b == start)
    ensures Working(g, x0, start, x0, seen, {start}, vs)
  {
    assert IsPath(g.links, [start]) && [start][0] == start;
    forall b, i: nat | 0 <= b < |x0| && i in x0[b]
      ensures Comes(g, x0, start, b, i)
    {
      var p: seq<nat> := [b];
      assert Brings(g, x0, p, i) && p[|p| - 1] == b;
    }
  }

  /** The loop of f_analyze: the facts at the end are exactly those that come along
      some path. */
  method Propagate(g: Problem, x0: seq<set<nat>>, start: nat) returns (x: seq<set<nat>>, seen: seq<bool>)
    requires g.Valid() && |x0| == |g.links| && start < |x0|
    ensures |x| == |seen| == |x0|
    ensures forall b: nat, i: nat :: b < |x| ==> (i in x[b] <==> Comes(g, x0, start, b, i))
    ensures forall b: nat :: b < |x| ==> (seen[b] <==> Reaches(g.links, start, b))
  {
    hide Working, Remaining, Bounded, Comes, Reaches, All;
    x := x0;
    seen := seq(|x0|, b => b == start);
    ghost var vs := All(x0) + All(g.extra);
    AllBounded(x0, g.extra);
    Begin(g, x0, start, seen, vs);
    var queue: seq<nat> := [];
    var b: nat := start;
    assert Queued(queue) + {b} == {start};
    WorkingSized(g, x0, start, x, seen, Queued(queue) + {b}, vs);
    while true
      invariant |x| == |seen| == |x0| && b < |x0| && Working(g, x0, start, x, seen, Queued(queue) + {b}, vs)
      decreases Remaining(vs, x, seen), |queue|
    {
      x, seen, queue := Visit(g, b, x, seen, queue, x0, start, vs);
      WorkingSized(g, x0, start, x, seen, Queued(queue), vs);
      if queue == [] {
        break;
      }
      b := queue[0];
      assert Queued(queue) == Queued(queue[1..]) + {b};
      queue := queue[1..];
    }
    WorkingDone(g, x0, start, x, seen, vs);
  }

  lemma WorkingDone(g: Problem, x0: seq<set<nat>>, start: nat, x: seq<set<nat>>, seen: seq<bool>, vs: set<nat>)
    requires Working(g, x0, start, x, seen, Queued([]), vs)
    ensures |x| == |seen| == |x0| == |g.links| && g.Valid()
    ensures forall b: nat, i: nat :: b < |x| ==> (i in x[b] <==> Comes(g, x0, start, b, i))
    ensures forall b: nat :: b < |x| ==> (seen[b] <==> Reaches(g.links, start, b))
  {
    assert Queued([]) == {};
    forall b: nat, i: nat | b < |x|
      ensures i in x[b] <==> Comes(g, x0, start, b, i)
    {
      SpreadExact(g, x0, start, x, seen, b, i);
    }
    forall b: nat | b < |x|
      ensures seen[b] <==> Reaches(g.links, start, b)
    {
      SpreadExact(g, x0, start, x, seen, b, 0);
    }
  }
}
