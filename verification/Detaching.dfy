/** Detaching the WHITE objects: each is linked into the circular list of the
    first candidate that reaches it, and its cyclic count is set to the number of
    references from outside that list. */
module Detaching {
  import opened ObjectGraph
  import opened ObjectHeap
  import opened LinkedLists
  import opened Marking
  import opened Candidates
  import opened Scanning

  /** `ring` lists the objects of a circular list from its first one on. */
  ghost predicate Ring(next: seq<int>, ring: seq<nat>) {
    && ring != [] && Distinct(ring)
    && Leads(next, ring[0], ring[1..], ring[0])
  }

  ghost function Insert(ring: seq<nat>, x: nat): seq<nat>
    requires ring != []
  {
    [ring[0], x] + ring[1..]
  }

  lemma InsertRing(next: seq<int>, ring: seq<nat>, x: nat)
    requires Ring(next, ring) && x !in ring && x < |next|
    ensures ring[0] < |next| && Ring(next[x := next[ring[0]]][ring[0] := x], Insert(ring, x))
  {
    var c, tail := ring[0], ring[1..];
    var next' := next[x := next[c]][c := x];
    assert c in ring && forall y :: y in tail ==> y in ring;
    assert Insert(ring, x)[1..] == [x] + tail;
    assert ([x] + tail)[1..] == tail;
    if tail != [] {
      assert c !in tail by {
        assert forall i :: 0 <= i < |tail| ==> tail[i] == ring[i + 1];
      }
      LeadsFrame(next, tail[0], tail[1..], c, x, next[c]);
      LeadsFrame(next[x := next[c]], tail[0], tail[1..], c, c, x);
      assert Leads(next', x, tail, c);
    }
    assert Leads(next', c, [x] + tail, c);
    forall i, j | 0 <= i < j < |Insert(ring, x)|
      ensures Insert(ring, x)[i] != Insert(ring, x)[j]
    {
      assert forall k :: 2 <= k < |Insert(ring, x)| ==> Insert(ring, x)[k] == ring[k - 1];
      assert forall k :: 0 <= k < |ring| ==> ring[k] in ring;
    }
  }

  ghost function Reddened(c: seq<Color>, ring: seq<nat>): seq<Color> {
    seq(|c|, i requires 0 <= i < |c| => if i in ring then RED else c[i])
  }

  /** The members of `ring` were WHITE, are reachable from its first one, and lead
      to no WHITE object; for `p` this holds of the first `i` references, for those
      in `st` not yet. */
  ghost predicate Collecting(g: Graph, c: seq<Color>, color: seq<Color>, ring: seq<nat>, p: nat, i: nat, st: seq<nat>) {
    && Closed(g) && |c| == |g| && Within(ring, |g|) && ring != []
    && color == Reddened(c, ring)
    && p in ring && p !in st && i <= |g[p]| && (forall x :: x in st ==> x in ring)
    && (forall x :: x in ring ==> c[x] == WHITE && Reaches(g, ring[0], x))
    && (forall x, j :: x in ring && x != p && x !in st && 0 <= j < |g[x]| ==> color[g[x][j]] != WHITE)
    && forall j :: 0 <= j < i ==> color[g[p][j]] != WHITE
  }

  lemma CollectOne(g: Graph, c: seq<Color>, color: seq<Color>, ring: seq<nat>, p: nat, i: nat, st: seq<nat>)
    requires Collecting(g, c, color, ring, p, i, st) && i < |g[p]|
    ensures
      var x := g[p][i];
      if color[x] != WHITE then Collecting(g, c, color, ring, p, i + 1, st)
      else x !in ring && x !in st && Collecting(g, c, color[x := RED], Insert(ring, x), p, i + 1, st + [x])
  {
    var x := g[p][i];
    if color[x] == WHITE {
      ReachesStep(g, ring[0], p, x);
      var ring' := Insert(ring, x);
      assert x !in ring;
      InsertMembers(ring, x);
      assert color[x := RED] == Reddened(c, ring');
    }
  }

  lemma InsertMembers(ring: seq<nat>, x: nat)
    requires ring != []
    ensures forall y :: y in Insert(ring, x) <==> y == x || y in ring
  {
    forall y
      ensures y in Insert(ring, x) <==> y == x || y in ring
    {
      assert y in ring <==> y == ring[0] || y in ring[1..];
    }
  }

  lemma CollectNext(g: Graph, c: seq<Color>, color: seq<Color>, ring: seq<nat>, p: nat, st: seq<nat>)
    requires Collecting(g, c, color, ring, p, if p < |g| then |g[p]| else 0, st)
    requires st != [] ==> st[|st| - 1] !in st[..|st| - 1]
    ensures
      if st == [] then Collected(g, c, color, ring)
      else Collecting(g, c, color, ring, st[|st| - 1], 0, st[..|st| - 1])
  {
    if st != [] {
      var top, rest := st[|st| - 1], st[..|st| - 1];
      assert top in st && forall x :: x in st <==> x == top || x in rest;
    }
  }

  ghost predicate Collected(g: Graph, c: seq<Color>, color: seq<Color>, ring: seq<nat>) {
    && Closed(g) && |c| == |g| && Within(ring, |g|) && ring != []
    && color == Reddened(c, ring)
    && (forall x :: x in ring ==> c[x] == WHITE && Reaches(g, ring[0], x))
    && (forall x, j :: x in ring && 0 <= j < |g[x]| ==> color[g[x][j]] != WHITE)
  }

  /** The fields of the members are set; those of other objects are untouched. */
  ghost predicate Prepared(h: Heap, ring: seq<nat>, cyclic0: seq<nat>, next0: seq<int>, previous0: seq<int>)
    reads h
  {
    && h.Shaped() && |cyclic0| == |h.g| && |next0| == |previous0| == |h.g| + 1 && Within(ring, |h.g|)
    && Ring(h.next, ring)
    && (forall x :: x in ring ==> h.cyclic[x] == h.count[x] && h.previous[x] == NIL)
    && (forall x: nat :: x < |h.g| && x !in ring ==> h.cyclic[x] == cyclic0[x])
    && (forall x: nat :: x <= |h.g| && x !in ring ==> h.next[x] == next0[x] && h.previous[x] == previous0[x])
  }

  /** t_object::f_collect_white_push, `cycle` being the first member. */
  method CollectWhitePush(h: Heap, cycle: nat, x: nat, ghost ring: seq<nat>, ghost cyclic0: seq<nat>, ghost next0: seq<int>,
                          ghost previous0: seq<int>, ghost st: seq<nat>)
      returns (ghost ring': seq<nat>, ghost st': seq<nat>)
    requires Prepared(h, ring, cyclic0, next0, previous0) && h.Stacked(st) && x < |h.g| && ring != [] && cycle == ring[0]
    requires h.color[x] == WHITE ==> x !in ring && x !in st
    modifies h`color, h`cyclic, h`next, h`previous, h`scan, h`scanStack
    ensures Prepared(h, ring', cyclic0, next0, previous0) && h.Stacked(st')
    ensures if old(h.color[x]) != WHITE then h.color == old(h.color) && ring' == ring && st' == st
            else h.color == old(h.color)[x := RED] && ring' == Insert(ring, x) && st' == st + [x]
  {
    ring', st' := ring, st;
    if h.color[x] != WHITE {
      return;
    }
    InsertRing(h.next, ring, x);
    InsertMembers(ring, x);
    h.color := h.color[x := RED];
    h.cyclic := h.cyclic[x := h.count[x]];
    h.next := h.next[x := h.next[cycle]];
    h.next := h.next[cycle := x];
    h.previous := h.previous[x := NIL];
    h.Push(x, st);
    ring', st' := Insert(ring, x), st + [x];
  }

  lemma StartCollect(g: Graph, c: seq<Color>, q: nat)
    requires Closed(g) && |c| == |g| && q < |g| && c[q] == WHITE
    ensures Collecting(g, c, c[q := RED], [q], q, 0, [])
  {
    ReachesSelf(g, q);
  }

  /** One f_step of f_collect_white. */
  method CollectStep(h: Heap, cycle: nat, p: nat, ghost c: seq<Color>, ghost ring: seq<nat>, ghost cyclic0: seq<nat>,
                     ghost next0: seq<int>, ghost previous0: seq<int>, ghost st: seq<nat>)
      returns (ghost ring': seq<nat>, ghost st': seq<nat>)
    requires Prepared(h, ring, cyclic0, next0, previous0) && h.Stacked(st) && ring != [] && cycle == ring[0] && p < |h.g|
    requires Collecting(h.g, c, h.color, ring, p, 0, st)
    modifies h`color, h`cyclic, h`next, h`previous, h`scan, h`scanStack
    ensures Prepared(h, ring', cyclic0, next0, previous0) && h.Stacked(st') && ring' != [] && cycle == ring'[0]
    ensures Collecting(h.g, c, h.color, ring', p, |h.g[p]|, st')
    ensures |ring'| - |ring| == |st'| - |st|
  {
    ring', st' := ring, st;
    assert h.Shaped();
    hide Collecting, Prepared;
    for i := 0 to |h.g[p]|
      invariant h.Shaped() && Prepared(h, ring', cyclic0, next0, previous0) && h.Stacked(st') && ring' != [] && cycle == ring'[0]
      invariant Collecting(h.g, c, h.color, ring', p, i, st')
      invariant |ring'| - |ring| == |st'| - |st|
    {
      CollectOne(h.g, c, h.color, ring', p, i, st');
      ring', st' := CollectWhitePush(h, cycle, h.g[p][i], ring', cyclic0, next0, previous0, st');
    }
  }

  lemma {:induction false} DistinctSize(xs: seq<nat>, n: nat)
    requires Distinct(xs) && Within(xs, n)
    ensures |xs| <= n
    decreases n
  {
    if xs != [] {
      assert xs[0] < n;
      if n - 1 in xs {
        var i :| 0 <= i < |xs| && xs[i] == n - 1;
        assert xs == xs[..i] + [n - 1] + xs[i + 1..];
        DistinctParts(xs[..i], n - 1, xs[i + 1..]);
        DistinctSize(xs[..i] + xs[i + 1..], n - 1);
      } else {
        DistinctSize(xs, n - 1);
      }
    }
  }

  /** t_object::f_collect_white */
  method CollectWhite(h: Heap, q: nat) returns (ghost ring: seq<nat>)
    requires h.Shaped() && h.Stacked([]) && q < |h.g| && h.color[q] == WHITE
    modifies h`color, h`cyclic, h`next, h`previous, h`scan, h`scanStack
    ensures h.Shaped() && h.Stacked([]) && ring != [] && ring[0] == q
    ensures Prepared(h, ring, old(h.cyclic), old(h.next), old(h.previous))
    ensures Collected(h.g, old(h.color), h.color, ring)
  {
    ghost var c := h.color;
    StartCollect(h.g, c, q);
    h.color := h.color[q := RED];
    h.cyclic := h.cyclic[q := h.count[q]];
    h.next := h.next[q := q];
    h.previous := h.previous[q := NIL];
    ring := [q];
    ghost var st: seq<nat> := [];
    var p: nat := q;
    assert Prepared(h, ring, old(h.cyclic), old(h.next), old(h.previous));
    hide Collecting, Collected;
    while true
      invariant h.Shaped() && h.Stacked(st) && p < |h.g| && ring != [] && ring[0] == q
      invariant Prepared(h, ring, old(h.cyclic), old(h.next), old(h.previous))
      invariant Collecting(h.g, c, h.color, ring, p, 0, st)
      decreases |h.g| - |ring| + |st|
    {
      DistinctSize(ring, |h.g|);
      ghost var ring0 := ring;
      ring, st := CollectStep(h, q, p, c, ring, old(h.cyclic), old(h.next), old(h.previous), st);
      CollectNext(h.g, c, h.color, ring, p, st);
      DistinctSize(ring, |h.g|);
      var top := h.Pop(st);
      if top == NIL {
        break;
      }
      p := top;
      st := st[..|st| - 1];
    }
  }

  lemma RingNext(next: seq<int>, ring: seq<nat>, i: nat)
    requires Ring(next, ring) && i < |ring|
    ensures ring[i] < |next| && next[ring[i]] == if i + 1 < |ring| then ring[i + 1] else ring[0]
    ensures i + 1 < |ring| ==> ring[i + 1] != ring[0]
  {
    if i > 0 {
      LeadsAt(next, ring[0], ring[1..], ring[0], i - 1);
    }
  }

  /** The references of the members in `done`, and the first `i` of `q`, have been
      taken off the cyclic counts of the members. */
  ghost predicate Reducing(g: Graph, ring: seq<nat>, cyclic0: seq<nat>, cyclic: seq<nat>, count: seq<nat>, done: set<nat>,
                           q: nat, i: nat)
  {
    && |cyclic0| == |cyclic| == |count| == |g| && Closed(g) && Covered(g, count) && Within(ring, |g|)
    && done <= Objects(g) && q !in done && q < |g| && i <= |g[q]|
    && (forall x :: x in ring ==> cyclic[x] + In(g, done, x) + Times(g[q][..i], x) == count[x])
    && forall x: nat :: x < |g| && x !in ring ==> cyclic[x] == cyclic0[x]
  }

  lemma ReduceOne(g: Graph, ring: seq<nat>, cyclic0: seq<nat>, cyclic: seq<nat>, count: seq<nat>, done: set<nat>,
                  q: nat, i: nat)
    requires Reducing(g, ring, cyclic0, cyclic, count, done, q, i) && i < |g[q]|
    ensures
      var x := g[q][i];
      if x in ring then cyclic[x] > 0 && Reducing(g, ring, cyclic0, cyclic[x := cyclic[x] - 1], count, done, q, i + 1)
      else Reducing(g, ring, cyclic0, cyclic, count, done, q, i + 1)
  {
    var x := g[q][i];
    TimesPrefix(g[q], i);
    InAdd(g, done, q, x);
    InMonotonic(g, done + {q}, Objects(g), x);
  }

  lemma ReduceNext(g: Graph, ring: seq<nat>, cyclic0: seq<nat>, cyclic: seq<nat>, count: seq<nat>, done: set<nat>,
                   q: nat)
    requires Reducing(g, ring, cyclic0, cyclic, count, done, q, if q < |g| then |g[q]| else 0)
    ensures forall r: nat :: r !in done + {q} && r < |g| ==> Reducing(g, ring, cyclic0, cyclic, count, done + {q}, r, 0)
    ensures forall x :: x in ring ==> cyclic[x] + In(g, done + {q}, x) == count[x]
  {
    assert g[q][..|g[q]|] == g[q];
    forall x | x in ring
      ensures cyclic[x] + In(g, done + {q}, x) == count[x]
    {
      assert x < |g|;
      InAdd(g, done, q, x);
    }
  }

  ghost predicate OnlyRing(g: Graph, color: seq<Color>, ring: seq<nat>) {
    && |color| == |g| && Closed(g) && Within(ring, |g|)
    && (forall x :: x in ring ==> color[x] == RED)
    && forall x, j :: x in ring && 0 <= j < |g[x]| && color[g[x][j]] == RED ==> g[x][j] in ring
  }

  /** t_object::f_scan_red for the references of one member. */
  method ScanRedStep(h: Heap, q: nat, ghost ring: seq<nat>, ghost cyclic0: seq<nat>, ghost done: set<nat>)
    requires h.Shaped() && q in ring && q < |h.g| && OnlyRing(h.g, h.color, ring)
    requires Reducing(h.g, ring, cyclic0, h.cyclic, h.count, done, q, 0)
    modifies h`cyclic
    ensures h.Shaped() && Reducing(h.g, ring, cyclic0, h.cyclic, h.count, done, q, |h.g[q]|)
  {
    hide Reducing;
    for i := 0 to |h.g[q]|
      invariant h.Shaped() && Reducing(h.g, ring, cyclic0, h.cyclic, h.count, done, q, i)
    {
      var x := h.g[q][i];
      ReduceOne(h.g, ring, cyclic0, h.cyclic, h.count, done, q, i);
      if h.color[x] == RED && h.cyclic[x] > 0 {
        h.cyclic := h.cyclic[x := h.cyclic[x] - 1];
      }
    }
  }

  lemma SetPrefix(xs: seq<nat>, i: nat)
    requires Distinct(xs) && i < |xs|
    ensures Set(xs[..i + 1]) == Set(xs[..i]) + {xs[i]} && xs[i] !in Set(xs[..i])
  {
    assert xs[..i + 1] == xs[..i] + [xs[i]];
  }

  /** Afterwards the cyclic count of a member is its number of references from
      outside the ring. */
  method ScanRed(h: Heap, cycle: nat, ghost ring: seq<nat>)
    requires h.Shaped() && Ring(h.next, ring) && cycle == ring[0] && OnlyRing(h.g, h.color, ring) && Covered(h.g, h.count)
    requires forall x :: x in ring ==> h.cyclic[x] == h.count[x]
    modifies h`cyclic
    ensures h.Shaped()
    ensures forall x :: x in ring ==> h.cyclic[x] + In(h.g, Set(ring), x) == h.count[x]
    ensures forall x: nat :: x < |h.g| && x !in ring ==> h.cyclic[x] == old(h.cyclic[x])
  {
    ghost var cyclic0 := h.cyclic;
    ghost var i := 0;
    var q := cycle;
    assert Set(ring[..0]) == {} && cycle in ring;
    ReduceStart(h.g, ring, cyclic0, h.count, cycle);
    hide Reducing, OnlyRing;
    while true
      invariant h.Shaped() && i < |ring| && q == ring[i] && q < |h.g|
      invariant Reducing(h.g, ring, cyclic0, h.cyclic, h.count, Set(ring[..i]), q, 0)
      decreases |ring| - i
    {
      RingNext(h.next, ring, i);
      SetPrefix(ring, i);
      ScanRedStep(h, q, ring, cyclic0, Set(ring[..i]));
      ReduceNext(h.g, ring, cyclic0, h.cyclic, h.count, Set(ring[..i]), q);
      q := h.next[q];
      if q == cycle {
        break;
      }
      i := i + 1;
      SetPrefix(ring, i);
    }
    assert ring[..i + 1] == ring;
    ReduceFrame(h.g, ring, cyclic0, h.cyclic, h.count, Set(ring[..i]), ring[i]);
  }

  lemma ReduceStart(g: Graph, ring: seq<nat>, cyclic0: seq<nat>, count: seq<nat>, q: nat)
    requires Closed(g) && |cyclic0| == |count| == |g| && Covered(g, count) && Within(ring, |g|) && q < |g|
    requires forall x :: x in ring ==> cyclic0[x] == count[x]
    ensures Reducing(g, ring, cyclic0, cyclic0, count, {}, q, 0)
  {
    forall x | x in ring
      ensures In(g, {}, x) == 0
    {
      InPositive(g, {}, x);
    }
  }

  lemma ReduceFrame(g: Graph, ring: seq<nat>, cyclic0: seq<nat>, cyclic: seq<nat>, count: seq<nat>, done: set<nat>,
                    q: nat)
    requires Reducing(g, ring, cyclic0, cyclic, count, done, q, if q < |g| then |g[q]| else 0)
    ensures forall x: nat :: x < |g| && x !in ring ==> cyclic[x] == cyclic0[x]
  {
  }

  ghost predicate Painted(c: seq<Color>, d: seq<Color>, xs: seq<nat>, v: Color) {
    |c| == |d| && forall x: nat :: x < |c| ==> d[x] == if x in xs then v else c[x]
  }

  lemma PaintNone(c: seq<Color>, ring: seq<nat>, v: Color)
    ensures Painted(c, c, ring[..0], v)
  {
  }

  lemma PaintOne(c: seq<Color>, d: seq<Color>, ring: seq<nat>, i: nat, v: Color)
    requires i < |ring| && Painted(c, d, ring[..i], v) && ring[i] < |d|
    ensures Painted(c, d[ring[i] := v], ring[..i + 1], v)
  {
    assert ring[..i + 1] == ring[..i] + [ring[i]];
  }

  lemma PaintAll(c: seq<Color>, d: seq<Color>, xs: seq<nat>, v: Color)
    requires Painted(c, d, xs, v)
    ensures |c| == |d| && forall x: nat :: x < |c| ==> d[x] == if x in xs then v else c[x]
  {
  }

  /** Paints every member of the circular list that starts at `cycle`. */
  method Paint(h: Heap, cycle: nat, c: Color, ghost ring: seq<nat>)
    requires h.Shaped() && Ring(h.next, ring) && cycle == ring[0] && Within(ring, |h.g|)
    modifies h`color
    ensures h.Shaped()
    ensures forall x: nat :: x < |h.g| ==> h.color[x] == if x in ring then c else old(h.color[x])
  {
    assert ring != [];
    hide Ring, Painted;
    ghost var i := 0;
    var q := cycle;
    PaintNone(h.color, ring, c);
    while true
      invariant h.Shaped() && i < |ring| && q == ring[i]
      invariant Painted(old(h.color), h.color, ring[..i], c)
      decreases |ring| - i
    {
      RingNext(h.next, ring, i);
      PaintOne(old(h.color), h.color, ring, i, c);
      h.color := h.color[q := c];
      q := h.next[q];
      i := i + 1;
      if q == cycle {
        break;
      }
    }
    assert ring[..i] == ring;
    PaintAll(old(h.color), h.color, ring, c);
  }

  // ----- The pass -----

  /** The pending cycles, the latest last, are chained by `nextCycle`. */
  ghost predicate Pending(top: int, nextCycle: seq<int>, next: seq<int>, rings: seq<seq<nat>>)
    decreases rings
  {
    if rings == [] then top == NIL
    else
      var ring := rings[|rings| - 1];
      && Ring(next, ring) && top == ring[0] && top < |nextCycle|
      && Pending(nextCycle[top], nextCycle, next, rings[..|rings| - 1])
  }

  lemma {:induction false} PendingFrame(top: int, nextCycle: seq<int>, next: seq<int>, next': seq<int>,
                                        rings: seq<seq<nat>>, x: nat, v: int)
    requires Pending(top, nextCycle, next, rings) && |next| == |next'|
    requires forall k :: 0 <= k < |rings| ==> x !in rings[k]
    requires forall k, y :: 0 <= k < |rings| && y in rings[k] && y < |next| ==> next'[y] == next[y]
    ensures Pending(top, if x < |nextCycle| then nextCycle[x := v] else nextCycle, next', rings)
    decreases rings
  {
    if rings != [] {
      var n := |rings| - 1;
      PendingFrame(nextCycle[top], nextCycle, next, next', rings[..n], x, v);
      RingFrame(next, next', rings[n]);
      assert rings[n][0] in rings[n];
    }
  }

  lemma RingFrame(next: seq<int>, next': seq<int>, ring: seq<nat>)
    requires Ring(next, ring) && |next| == |next'|
    requires forall y :: y in ring && y < |next| ==> next'[y] == next[y]
    ensures Ring(next', ring)
  {
    LeadsSame(next, next', ring[0], ring[1..], ring[0]);
  }

  lemma {:induction false} LeadsSame(next: seq<int>, next': seq<int>, a: nat, xs: seq<nat>, b: int)
    requires Leads(next, a, xs, b) && |next| == |next'|
    requires forall y :: (y == a || y in xs) && y < |next| ==> next'[y] == next[y]
    ensures Leads(next', a, xs, b)
    decreases xs
  {
    if xs != [] {
      LeadsSame(next, next', xs[0], xs[1..], b);
    }
  }
}
