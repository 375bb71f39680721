/** Trial deletion: every object reachable from a candidate turns GRAY, and its
    cyclic count loses the references that come from GRAY objects. */
module Marking {
  import opened ObjectGraph
  import opened ObjectHeap

  /** No count is less than the number of references held by objects. */
  ghost predicate Covered(g: Graph, count: seq<nat>) {
    |count| == |g| && forall x :: 0 <= x < |g| ==> In(g, Objects(g), x) <= count[x]
  }

  /** The references from `done`, and the first `i` of `p`, have been deducted
      from the cyclic counts of the GRAY objects. */
  ghost predicate Deducted(g: Graph, color: seq<Color>, cyclic: seq<nat>, count: seq<nat>, done: set<nat>, p: nat, i: nat)
    requires |color| == |cyclic| == |count| == |g| && p < |g| && i <= |g[p]|
  {
    forall x :: 0 <= x < |g| && color[x] == GRAY ==>
      cyclic[x] + In(g, done, x) + Times(g[p][..i], x) == count[x]
  }

  /** Every reference from `done`, and the first `i` of `p`, goes to a GRAY object. */
  ghost predicate Covers(g: Graph, color: seq<Color>, done: set<nat>, p: nat, i: nat)
    requires |color| == |g| && Closed(g) && p < |g| && i <= |g[p]|
  {
    && (forall y, j :: y in done && y < |g| && 0 <= j < |g[y]| ==> color[g[y][j]] == GRAY)
    && forall j :: 0 <= j < i ==> color[g[p][j]] == GRAY
  }

  /** The GRAY objects are those done, the current one and those on the stack. */
  ghost predicate Frontier(color: seq<Color>, done: set<nat>, p: nat, st: seq<nat>) {
    && p !in done && p !in st
    && p < |color| && done <= Upto(|color|)
    && (forall x :: x in st ==> x !in done && x < |color|)
    && forall x :: 0 <= x < |color| ==> (color[x] == GRAY <==> x in done || x == p || x in st)
  }

  ghost predicate Ready(h: Heap)
    reads h
  {
    h.Shaped() && Covered(h.g, h.count)
  }

  ghost predicate Tracing(g: Graph, color: seq<Color>, cyclic: seq<nat>, count: seq<nat>, done: set<nat>,
                          p: nat, i: nat, st: seq<nat>)
  {
    && |color| == |cyclic| == |count| == |g| && Closed(g) && Covered(g, count)
    && p < |g| && i <= |g[p]|
    && Frontier(color, done, p, st)
    && Covers(g, color, done, p, i)
    && Deducted(g, color, cyclic, count, done, p, i)
  }

  ghost function Charge(color: seq<Color>, cyclic: seq<nat>, count: seq<nat>, x: nat): nat
    requires x < |color| == |cyclic| == |count|
  {
    if color[x] == GRAY then cyclic[x] else count[x]
  }

  /** There is a reference left to deduct, and deducting it keeps the counts exact. */
  lemma DeductOne(g: Graph, color: seq<Color>, cyclic: seq<nat>, count: seq<nat>, done: set<nat>, p: nat, i: nat,
                  st: seq<nat>)
    requires Tracing(g, color, cyclic, count, done, p, i, st) && i < |g[p]|
    ensures
      var x := g[p][i];
      var c := Charge(color, cyclic, count, x);
      c > 0 && Deducted(g, color[x := GRAY], cyclic[x := c - 1], count, done, p, i + 1)
  {
    var x := g[p][i];
    TimesPrefix(g[p], i);
    InAdd(g, done, p, x);
    InMonotonic(g, done + {p}, Objects(g), x);
    if color[x] != GRAY {
      InPositive(g, done, x);
      assert x !in g[p][..i];
    }
  }

  lemma TraceOne(g: Graph, color: seq<Color>, cyclic: seq<nat>, count: seq<nat>, done: set<nat>, p: nat, i: nat,
                 st: seq<nat>)
    requires Tracing(g, color, cyclic, count, done, p, i, st) && i < |g[p]|
    ensures
      var x := g[p][i];
      var c := Charge(color, cyclic, count, x);
      && c > 0
      && (color[x] != GRAY ==> x !in st)
      && Tracing(g, color[x := GRAY], cyclic[x := c - 1], count, done, p, i + 1, if color[x] == GRAY then st else st + [x])
  {
    DeductOne(g, color, cyclic, count, done, p, i, st);
  }

  lemma DeductAll(g: Graph, color: seq<Color>, cyclic: seq<nat>, count: seq<nat>, done: set<nat>, p: nat, q: nat)
    requires |color| == |cyclic| == |count| == |g| && p < |g| && p !in done && q < |g|
    requires Deducted(g, color, cyclic, count, done, p, |g[p]|)
    ensures Deducted(g, color, cyclic, count, done + {p}, q, 0)
  {
    assert g[p][..|g[p]|] == g[p];
    forall x | 0 <= x < |g| && color[x] == GRAY
      ensures cyclic[x] + In(g, done + {p}, x) == count[x]
    {
      InAdd(g, done, p, x);
    }
  }

  /** t_object::f_mark_gray_push */
  method MarkGrayPush(h: Heap, x: nat, ghost st: seq<nat>)
    requires h.Shaped() && x < |h.g| && h.Stacked(st)
    requires h.color[x] != GRAY ==> x !in st && h.count[x] > 0
    requires h.color[x] == GRAY ==> h.cyclic[x] > 0
    modifies h`color, h`cyclic, h`scan, h`scanStack
    ensures h.Shaped()
    ensures h.color == old(h.color)[x := GRAY]
    ensures h.cyclic == old(h.cyclic)[x := (if old(h.color[x]) == GRAY then old(h.cyclic[x]) else h.count[x]) - 1]
    ensures h.Stacked(if old(h.color[x]) == GRAY then st else st + [x])
  {
    if h.color[x] != GRAY {
      h.color := h.color[x := GRAY];
      h.cyclic := h.cyclic[x := h.count[x]];
      h.Push(x, st);
    }
    h.cyclic := h.cyclic[x := h.cyclic[x] - 1];
  }

  /** One f_step: the references of `p` are deducted. */
  method MarkGrayStep(h: Heap, p: nat, ghost done: set<nat>, ghost st: seq<nat>)
      returns (ghost st': seq<nat>)
    requires h.Shaped() && h.Stacked(st) && p < |h.g|
    requires Tracing(h.g, h.color, h.cyclic, h.count, done, p, 0, st)
    modifies h`color, h`cyclic, h`scan, h`scanStack
    ensures h.Shaped() && h.Stacked(st') && Tracing(h.g, h.color, h.cyclic, h.count, done, p, |h.g[p]|, st')
    ensures Grayed(h.g[p], old(h.color), h.color)
  {
    hide Tracing;
    st' := st;
    for i := 0 to |h.g[p]|
      invariant h.Shaped() && h.Stacked(st') && Tracing(h.g, h.color, h.cyclic, h.count, done, p, i, st')
      invariant Grayed(h.g[p], old(h.color), h.color)
    {
      var x := h.g[p][i];
      TraceOne(h.g, h.color, h.cyclic, h.count, done, p, i, st');
      ghost var st0 := st';
      st' := if h.color[x] == GRAY then st0 else st0 + [x];
      MarkGrayPush(h, x, st0);
    }
  }

  /** From `c` to `d`, only objects in `xs` changed, to GRAY. */
  ghost predicate Grayed(xs: seq<nat>, c: seq<Color>, d: seq<Color>) {
    |c| == |d| && forall x: nat :: x < |c| && c[x] != d[x] ==> d[x] == GRAY && x in xs
  }

  /** Between two candidates: the GRAY objects are exactly `done`, nothing leads
      out of them, and their cyclic counts lack exactly the references among them. */
  ghost predicate Settled(g: Graph, color: seq<Color>, cyclic: seq<nat>, count: seq<nat>, done: set<nat>) {
    && |color| == |cyclic| == |count| == |g| && Closed(g) && Covered(g, count)
    && (forall x: nat :: x in done <==> x < |g| && color[x] == GRAY)
    && (forall y, j :: y in done && y < |g| && 0 <= j < |g[y]| ==> g[y][j] in done)
    && forall x :: x in done && x < |g| ==> cyclic[x] + In(g, done, x) == count[x]
  }

  /** Every GRAY object is reachable from one of `roots`. */
  ghost predicate Rooted(g: Graph, color: seq<Color>, roots: set<nat>)
    requires |color| == |g|
  {
    forall x :: 0 <= x < |g| && color[x] == GRAY ==> exists r :: r in roots && Reaches(g, r, x)
  }

  lemma RootedStep(g: Graph, color: seq<Color>, color': seq<Color>, roots: set<nat>, p: nat)
    requires |color| == |color'| == |g| && Closed(g) && p < |g| && color[p] == GRAY
    requires Rooted(g, color, roots) && Grayed(g[p], color, color')
    ensures Rooted(g, color', roots)
  {
    forall x | 0 <= x < |g| && color'[x] == GRAY
      ensures exists r :: r in roots && Reaches(g, r, x)
    {
      if color[x] != GRAY {
        var r :| r in roots && Reaches(g, r, p);
        ReachesStep(g, r, p, x);
      }
    }
  }

  lemma StartTrace(g: Graph, color: seq<Color>, cyclic: seq<nat>, count: seq<nat>, done: set<nat>, q: nat)
    requires Settled(g, color, cyclic, count, done) && q < |g| && color[q] != GRAY
    ensures Tracing(g, color[q := GRAY], cyclic[q := count[q]], count, done, q, 0, [])
  {
    InPositive(g, done, q);
  }

  lemma NextTrace(g: Graph, color: seq<Color>, cyclic: seq<nat>, count: seq<nat>, done: set<nat>, p: nat, st: seq<nat>)
    requires Tracing(g, color, cyclic, count, done, p, if p < |g| then |g[p]| else 0, st)
    requires st != [] ==> st[|st| - 1] !in st[..|st| - 1]
    ensures
      if st == [] then Settled(g, color, cyclic, count, done + {p})
      else Tracing(g, color, cyclic, count, done + {p}, st[|st| - 1], 0, st[..|st| - 1])
  {
    if st == [] {
      DeductAll(g, color, cyclic, count, done, p, p);
      assert g[p][..0] == [];
    } else {
      var top := st[|st| - 1];
      assert top in st && forall x :: x in st[..|st| - 1] ==> x in st;
      DeductAll(g, color, cyclic, count, done, p, top);
    }
  }

  /** t_object::f_mark_gray: everything reachable from `q` turns GRAY. */
  method MarkGray(h: Heap, q: nat, ghost done: set<nat>, ghost roots: set<nat>) returns (ghost done': set<nat>)
    requires h.Shaped() && h.Stacked([]) && q < |h.g| && h.color[q] != GRAY && q in roots
    requires Settled(h.g, h.color, h.cyclic, h.count, done) && Rooted(h.g, h.color, roots)
    modifies h`color, h`cyclic, h`scan, h`scanStack
    ensures h.Shaped() && h.Stacked([])
    ensures Settled(h.g, h.color, h.cyclic, h.count, done') && Rooted(h.g, h.color, roots)
    ensures done + {q} <= done'
    ensures forall x :: 0 <= x < |h.g| && h.color[x] != old(h.color[x]) ==> h.color[x] == GRAY
  {
    done' := done;
    ghost var st := [];
    StartTrace(h.g, h.color, h.cyclic, h.count, done, q);
    ReachesSelf(h.g, q);
    h.color := h.color[q := GRAY];
    h.cyclic := h.cyclic[q := h.count[q]];
    var p: nat := q;
    while true
      invariant h.Shaped() && h.Stacked(st)
      invariant Tracing(h.g, h.color, h.cyclic, h.count, done', p, 0, st) && Rooted(h.g, h.color, roots)
      invariant done <= done' && h.color[q] == GRAY
      invariant forall x :: 0 <= x < |h.g| && h.color[x] != old(h.color[x]) ==> h.color[x] == GRAY
      decreases Objects(h.g) - done'
    {
      ghost var color := h.color;
      st := MarkGrayStep(h, p, done', st);
      RootedStep(h.g, color, h.color, roots, p);
      NextTrace(h.g, h.color, h.cyclic, h.count, done', p, st);
      done' := done' + {p};
      var top := h.Pop(st);
      if top == NIL {
        break;
      }
      p := top;
      st := st[..|st| - 1];
    }
  }
}
