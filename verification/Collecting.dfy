/** The pass that turns the WHITE objects into pending cycles. */
module Collecting {
  import opened ObjectGraph
  import opened ObjectHeap
  import opened LinkedLists
  import opened Marking
  import opened Candidates
  import opened Scanning
  import opened Detaching

  ghost predicate InSome(rings: seq<seq<nat>>, x: nat) {
    exists k :: 0 <= k < |rings| && x in rings[k]
  }

  lemma InSomeMore(rings: seq<seq<nat>>, ring: seq<nat>)
    ensures forall x: nat :: InSome(rings + [ring], x) <==> InSome(rings, x) || x in ring
  {
    var more := rings + [ring];
    forall x: nat
      ensures InSome(more, x) <==> InSome(rings, x) || x in ring
    {
      if InSome(rings, x) {
        var k :| 0 <= k < |rings| && x in rings[k];
        assert x in more[k];
      }
      if x in ring {
        assert x in more[|rings|];
      }
    }
  }

  /** No object is in two rings, or twice in one. */
  ghost predicate Disjoint(rings: seq<seq<nat>>) {
    && (forall k :: 0 <= k < |rings| ==> Distinct(rings[k]))
    && forall j, k, x :: 0 <= j < k < |rings| && x in rings[k] ==> x !in rings[j]
  }

  /** The cyclic count of a member of a ring is its number of references from
      outside that ring. */
  ghost predicate Outside(g: Graph, cyclic: seq<nat>, count: seq<nat>, rings: seq<seq<nat>>)
    requires |cyclic| == |count|
  {
    forall k, x :: 0 <= k < |rings| && x in rings[k] && x < |count| ==> cyclic[x] + In(g, Set(rings[k]), x) == count[x]
  }

  /** References between rings run only from a later one to an earlier one: the
      WHITE objects a member refers to are in its own ring or an earlier one. */
  ghost predicate Ordered(g: Graph, c: seq<Color>, rings: seq<seq<nat>>) {
    forall k, x, y :: 0 <= k < |rings| && x in rings[k] && x < |g| && y in g[x] && y < |c| && c[y] == WHITE ==>
      InSome(rings[..k + 1], y)
  }

  /** The WHITE members of `marked` that are in `rings` have turned ORANGE. */
  ghost predicate Sorting(g: Graph, marked: set<nat>, c: seq<Color>, color: seq<Color>, rings: seq<seq<nat>>) {
    && |c| == |color| == |g| && Closed(g) && marked <= Objects(g) && Sealed(g, marked)
    && (forall x :: x in marked ==> c[x] == WHITE || c[x] == BLACK)
    && (forall x: nat :: InSome(rings, x) ==> x in marked && c[x] == WHITE)
    && forall x: nat :: x < |g| ==> color[x] == if InSome(rings, x) then ORANGE else c[x]
  }

  lemma SortOne(g: Graph, marked: set<nat>, c: seq<Color>, color: seq<Color>, color': seq<Color>, color'': seq<Color>,
                rings: seq<seq<nat>>, ring: seq<nat>)
    requires Sorting(g, marked, c, color, rings) && Disjoint(rings) && Ordered(g, c, rings)
    requires Collected(g, color, color', ring) && Distinct(ring) && ring[0] in marked
    requires |color''| == |g| && forall x: nat :: x < |g| ==> color''[x] == if x in ring then ORANGE else color'[x]
    ensures OnlyRing(g, color', ring)
    ensures Sorting(g, marked, c, color'', rings + [ring]) && Disjoint(rings + [ring]) && Ordered(g, c, rings + [ring])
  {
    var more := rings + [ring];
    InSomeMore(rings, ring);
    forall x | x in ring
      ensures x in marked && !InSome(rings, x) && c[x] == WHITE
    {
      SealedHolds(g, marked, ring[0], x);
    }
    forall x, j | x in ring && 0 <= j < |g[x]| && color'[g[x][j]] == RED
      ensures g[x][j] in ring
    {
      assert g[x][j] in g[x];
    }
    assert Disjoint(more) by {
      forall j, k, x | 0 <= j < k < |more| && x in more[k]
        ensures x !in more[j]
      {
        if k == |rings| {
          assert !InSome(rings, x);
        }
      }
    }
    assert Ordered(g, c, more) by {
      forall k, x, y | 0 <= k < |more| && x in more[k] && x < |g| && y in g[x] && y < |c| && c[y] == WHITE
        ensures InSome(more[..k + 1], y)
      {
        if k < |rings| {
          assert more[..k + 1] == rings[..k + 1];
        } else {
          assert more[..k + 1] == more;
          var j :| 0 <= j < |g[x]| && g[x][j] == y;
          assert color'[y] != WHITE;
        }
      }
    }
  }

  /** The rings are pending and the candidates in `rest` are still listed; every
      other candidate has left the list. */
  ghost predicate Threads(n: nat, next0: seq<int>, next: seq<int>, previous: seq<int>, nextCycle: seq<int>, cycles: int,
                          rings: seq<seq<nat>>, ks: seq<nat>, rest: seq<nat>)
  {
    && |next0| == |next| == |previous| == n + 1 && |nextCycle| == n
    && Listing(next, n, rest) && Pending(cycles, nextCycle, next, rings)
    && (forall r :: r in rest ==> r in ks && !InSome(rings, r))
    && (forall k, x :: 0 <= k < |rings| && x in rings[k] ==> x < n)
    && (forall x: nat :: x < n && InSome(rings, x) ==> previous[x] == NIL)
    && forall x: nat :: x < n && !InSome(rings, x) && x !in rest ==> next[x] == if x in ks then NIL else next0[x]
  }

  lemma Unhead(next: seq<int>, n: nat, rest: seq<nat>)
    requires Listing(next, n, rest) && rest != []
    ensures next[n] == rest[0] && Listing(next[n := next[rest[0]]], n, rest[1..])
    ensures |rest| > 1 ==> next[rest[0]] == rest[1]
    ensures |rest| == 1 ==> next[rest[0]] == n
  {
    assert rest == [] + [rest[0]] + rest[1..];
    assert n !in rest && rest[0] != n;
    LeadsUnlink(next, n, [], rest[0], rest[1..], n, next[rest[0]]);
    assert next[n := next[rest[0]]][rest[0] := next[rest[0]]] == next[n := next[rest[0]]];
    assert [] + rest[1..] == rest[1..];
    LeadsAt(next, n, rest, n, 0);
  }

  /** The links of the members of `ring` are new; no others have changed. */
  ghost predicate Fresh(n: nat, next: seq<int>, next': seq<int>, previous: seq<int>, previous': seq<int>,
                        rings: seq<seq<nat>>, ring: seq<nat>, p: nat, others: seq<nat>)
  {
    && |next| == |next'| == |previous| == |previous'| == n + 1
    && Ring(next', ring) && ring[0] == p && Within(ring, n)
    && (forall x :: x in ring && x < n ==> !InSome(rings, x) && x !in others && previous'[x] == NIL)
    && forall x: nat :: x <= n && x !in ring ==> next'[x] == next[x] && previous'[x] == previous[x]
  }

  lemma ThreadRing(n: nat, next0: seq<int>, next: seq<int>, next': seq<int>, previous: seq<int>, previous': seq<int>,
                   nextCycle: seq<int>, cycles: int, rings: seq<seq<nat>>, ring: seq<nat>, ks: seq<nat>, rest: seq<nat>)
    requires Threads(n, next0, next, previous, nextCycle, cycles, rings, ks, rest) && rest != [] && rest[0] < n
    requires |next| == n + 1 && Fresh(n, next[n := next[rest[0]]], next', previous, previous', rings, ring, rest[0], rest[1..])
    ensures Threads(n, next0, next', previous', nextCycle[ring[0] := cycles], ring[0], rings + [ring], ks, rest[1..])
  {
    var more := rings + [ring];
    InSomeMore(rings, ring);
    Unhead(next, n, rest);
    assert ring[0] in ring && n !in ring;
    assert forall x :: x in rest ==> x == rest[0] || x in rest[1..];
    forall k, y: nat | 0 <= k < |rings| && y in rings[k]
      ensures y < n && y !in ring && next'[y] == next[y]
    {
      assert InSome(rings, y);
    }
    LeadsSame(next[n := next[rest[0]]], next', n, rest[1..], n);
    PendingFrame(cycles, nextCycle, next, next', rings, ring[0], cycles);
    assert more[..|more| - 1] == rings;
    forall k, x | 0 <= k < |more| && x in more[k]
      ensures x < n
    {
      if k < |rings| {
        assert x in rings[k];
      } else {
        assert x in ring;
      }
    }
  }

  lemma ThreadDrop(n: nat, next0: seq<int>, next: seq<int>, previous: seq<int>, nextCycle: seq<int>, cycles: int,
                   rings: seq<seq<nat>>, ks: seq<nat>, rest: seq<nat>)
    requires Threads(n, next0, next, previous, nextCycle, cycles, rings, ks, rest) && rest != [] && rest[0] < n
    ensures Threads(n, next0, next[n := next[rest[0]]][rest[0] := NIL], previous, nextCycle, cycles, rings, ks, rest[1..])
  {
    var p := rest[0];
    var next1 := next[n := next[p]];
    Unhead(next, n, rest);
    assert p in rest;
    assert forall x :: x in rest <==> x == p || x in rest[1..];
    assert p !in rest[1..] by {
      assert forall i :: 0 <= i < |rest[1..]| ==> rest[1..][i] == rest[i + 1];
    }
    LeadsFrame(next1, n, rest[1..], n, p, NIL);
    forall k, y | 0 <= k < |rings| && y in rings[k]
      ensures y < n && y != p && next1[p := NIL][y] == next[y]
    {
      assert InSome(rings, y);
    }
    PendingFrame(cycles, nextCycle, next, next1[p := NIL], rings, n, 0);
  }

  /** Candidates not yet looked at are not reachable from those that were. */
  ghost predicate Detachment(h: Heap, marked: set<nat>, c: seq<Color>, next0: seq<int>, rings: seq<seq<nat>>,
                             ks: seq<nat>, rest: seq<nat>)
    reads h
  {
    && h.Shaped() && h.Stacked([]) && Covered(h.g, h.count)
    && Sorting(h.g, marked, c, h.color, rings) && Disjoint(rings) && Ordered(h.g, c, rings)
    && Outside(h.g, h.cyclic, h.count, rings)
    && Threads(|h.g|, next0, h.next, h.previous, h.nextCycle, h.cycles, rings, ks, rest)
    && Within(rest, |h.g|) && Independent(h.g, rest) && Looked(marked, h.color, ks, rest)
  }

  lemma Apart(g: Graph, c: seq<Color>, color: seq<Color>, ring: seq<nat>, rest: seq<nat>)
    requires Collected(g, c, color, ring) && rest != [] && ring[0] == rest[0] && Independent(g, rest)
    ensures forall x :: x in ring ==> x !in rest[1..]
    ensures Independent(g, rest[1..])
  {
    assert forall j :: 0 <= j < |rest[1..]| ==> rest[1..][j] == rest[j + 1];
    forall i, j | 0 <= i < j < |rest[1..]|
      ensures !Reaches(g, rest[1..][i], rest[1..][j])
    {
      assert rest[1..][i] == rest[i + 1] && rest[1..][j] == rest[j + 1];
    }
  }

  lemma OutsideMore(g: Graph, cyclic: seq<nat>, cyclic': seq<nat>, count: seq<nat>, rings: seq<seq<nat>>, ring: seq<nat>)
    requires |cyclic| == |cyclic'| == |count| == |g| && Outside(g, cyclic, count, rings)
    requires forall x: nat :: x < |g| && x !in ring ==> cyclic'[x] == cyclic[x]
    requires forall x: nat :: x < |g| && x in ring ==> !InSome(rings, x) && cyclic'[x] + In(g, Set(ring), x) == count[x]
    ensures Outside(g, cyclic', count, rings + [ring])
  {
    var more := rings + [ring];
    forall k, x | 0 <= k < |more| && x in more[k] && x < |count|
      ensures cyclic'[x] + In(g, Set(more[k]), x) == count[x]
    {
      if k < |rings| {
        assert x in rings[k] && InSome(rings, x);
      } else {
        assert x in ring;
      }
    }
  }

  /** No object turns WHITE. */
  ghost predicate Fewer(c: seq<Color>, d: seq<Color>) {
    |c| == |d| && forall x: nat :: x < |c| && c[x] != WHITE ==> d[x] != WHITE
  }

  /** The candidates that have left the list are not WHITE; the others are marked. */
  ghost predicate Looked(marked: set<nat>, color: seq<Color>, ks: seq<nat>, rest: seq<nat>) {
    && (forall r :: r in rest ==> r in marked)
    && forall k :: k in ks && k < |color| && k !in rest ==> color[k] != WHITE
  }

  lemma LookedOne(marked: set<nat>, c: seq<Color>, d: seq<Color>, ks: seq<nat>, rest: seq<nat>)
    requires Looked(marked, c, ks, rest) && Fewer(c, d) && rest != [] && rest[0] < |d| && d[rest[0]] != WHITE
    ensures Looked(marked, d, ks, rest[1..])
  {
    assert forall r :: r in rest <==> r == rest[0] || r in rest[1..];
  }

  /** Collects, reduces and paints one ring. */
  method MakeRing(h: Heap, p: nat, ghost marked: set<nat>, ghost c: seq<Color>, ghost rings: seq<seq<nat>>,
                  ghost rest: seq<nat>)
      returns (ghost ring: seq<nat>)
    requires h.Shaped() && h.Stacked([]) && Covered(h.g, h.count)
    requires Sorting(h.g, marked, c, h.color, rings) && Disjoint(rings) && Ordered(h.g, c, rings)
    requires Outside(h.g, h.cyclic, h.count, rings)
    requires rest != [] && p == rest[0] && Independent(h.g, rest)
    requires p < |h.g| && p in marked && h.color[p] == WHITE
    modifies h`color, h`cyclic, h`next, h`previous, h`scan, h`scanStack
    ensures h.Shaped() && h.Stacked([])
    ensures Sorting(h.g, marked, c, h.color, rings + [ring]) && Disjoint(rings + [ring]) && Ordered(h.g, c, rings + [ring])
    ensures Outside(h.g, h.cyclic, h.count, rings + [ring])
    ensures Fresh(|h.g|, old(h.next), h.next, old(h.previous), h.previous, rings, ring, p, rest[1..])
    ensures Independent(h.g, rest[1..]) && ring != [] && ring[0] == p
    ensures Fewer(old(h.color), h.color) && h.color[p] != WHITE
  {
    ghost var color0, cyclic0, next0, previous0 := h.color, h.cyclic, h.next, h.previous;
    hide Sorting, Ordered, Outside, Independent, Covered, Disjoint;
    ring := CollectWhite(h, p);
    ghost var color1 := h.color;
    Apart(h.g, color0, color1, ring, rest);
    SortOne(h.g, marked, c, color0, color1, Oranged(color1, ring), rings, ring);
    SortedOff(h.g, marked, c, color0, color1, rings, ring);
    ScanRed(h, p, ring);
    OutsideMore(h.g, cyclic0, h.cyclic, h.count, rings, ring);
    Paint(h, p, ORANGE, ring);
    assert h.color == Oranged(color1, ring);
  }

  lemma DetachHead(h: Heap, marked: set<nat>, c: seq<Color>, next0: seq<int>, rings: seq<seq<nat>>, ks: seq<nat>,
                   rest: seq<nat>)
    requires Detachment(h, marked, c, next0, rings, ks, rest)
    ensures h.Shaped() && h.next[|h.g|] == (if rest == [] then |h.g| else rest[0])
    ensures rest != [] ==> rest[0] < |h.g| && rest[0] in marked && Fewer(h.color, h.color) && Within(rest[1..], |h.g|)
  {
    if rest != [] {
      assert rest[0] in rest;
      WithinRest(rest, |h.g|);
    }
  }

  /** Turns what the WHITE candidate `p` reaches into a pending cycle. */
  method Detach(h: Heap, p: nat, ghost marked: set<nat>, ghost c: seq<Color>, ghost next0: seq<int>,
                ghost rings: seq<seq<nat>>, ghost ks: seq<nat>, ghost rest: seq<nat>)
      returns (ghost ring: seq<nat>)
    requires Detachment(h, marked, c, next0, rings, ks, rest) && rest != [] && p == rest[0]
    requires p < |h.color| && h.color[p] == WHITE
    modifies h`color, h`cyclic, h`next, h`previous, h`scan, h`scanStack, h`nextCycle, h`cycles
    ensures Detachment(h, marked, c, next0, rings + [ring], ks, rest[1..])
  {
    hide Sorting, Ordered, Threads, Outside, Independent, Covered, Disjoint, Looked, Fresh, Fewer, Within;
    DetachHead(h, marked, c, next0, rings, ks, rest);
    ghost var next1, previous1, color1 := h.next, h.previous, h.color;
    h.next := h.next[|h.g| := h.next[p]];
    ring := MakeRing(h, p, marked, c, rings, rest);
    LookedOne(marked, color1, h.color, ks, rest);
    ThreadRing(|h.g|, next0, next1, h.next, previous1, h.previous, h.nextCycle, h.cycles, rings, ring, ks, rest);
    h.nextCycle := h.nextCycle[p := h.cycles];
    h.cycles := p;
  }

  lemma WithinRest(rest: seq<nat>, n: nat)
    requires Within(rest, n) && rest != []
    ensures Within(rest[1..], n)
  {
    assert forall i :: 0 <= i < |rest[1..]| ==> rest[1..][i] == rest[i + 1];
  }

  /** Takes the candidate `p`, which is not WHITE, off the list. */
  method Release(h: Heap, p: nat, ghost marked: set<nat>, ghost c: seq<Color>, ghost next0: seq<int>,
                 ghost rings: seq<seq<nat>>, ghost ks: seq<nat>, ghost rest: seq<nat>)
    requires Detachment(h, marked, c, next0, rings, ks, rest) && rest != [] && p == rest[0]
    requires p < |h.color| && h.color[p] != WHITE
    modifies h`next
    ensures Detachment(h, marked, c, next0, rings, ks, rest[1..])
  {
    hide Sorting, Ordered, Threads, Outside, Independent, Covered, Disjoint, Looked, Within;
    DetachHead(h, marked, c, next0, rings, ks, rest);
    ThreadDrop(|h.g|, next0, h.next, h.previous, h.nextCycle, h.cycles, rings, ks, rest);
    IndependentRest(h.g, rest);
    LookedOne(marked, h.color, h.color, ks, rest);
    h.next := h.next[|h.g| := h.next[p]];
    h.next := h.next[p := NIL];
  }

  lemma IndependentRest(g: Graph, rest: seq<nat>)
    requires Independent(g, rest) && rest != []
    ensures Independent(g, rest[1..])
  {
    assert forall i :: 0 <= i < |rest[1..]| ==> rest[1..][i] == rest[i + 1];
  }

  ghost function Oranged(color: seq<Color>, ring: seq<nat>): seq<Color> {
    seq(|color|, x requires 0 <= x < |color| => if x in ring then ORANGE else color[x])
  }

  lemma SortedOff(g: Graph, marked: set<nat>, c: seq<Color>, color: seq<Color>, color': seq<Color>,
                  rings: seq<seq<nat>>, ring: seq<nat>)
    requires Sorting(g, marked, c, color, rings) && Collected(g, color, color', ring)
    ensures forall x :: x in ring ==> !InSome(rings, x) && x < |g|
    ensures Fewer(color, Oranged(color', ring))
    ensures ring[0] in ring && ring[0] < |g| && Oranged(color', ring)[ring[0]] != WHITE
  {
  }

  /** The pass over the candidates that are left after scanning. */
  method CollectPass(h: Heap, ghost marked: set<nat>, ghost ks: seq<nat>) returns (ghost rings: seq<seq<nat>>)
    requires Detachment(h, marked, h.color, h.next, [], ks, ks) && ks != []
    modifies h`color, h`cyclic, h`next, h`previous, h`scan, h`scanStack, h`nextCycle, h`cycles
    ensures Detachment(h, marked, old(h.color), old(h.next), rings, ks, [])
  {
    ghost var c, next0 := h.color, h.next;
    ghost var rest: seq<nat> := ks;
    rings := [];
    DetachHead(h, marked, c, next0, rings, ks, rest);
    hide Detachment;
    while true
      invariant Detachment(h, marked, c, next0, rings, ks, rest) && h.Shaped()
      invariant rest != [] && h.next[|h.g|] == rest[0] < |h.g|
      decreases |rest|
    {
      var p := h.next[|h.g|];
      if h.color[p] == WHITE {
        ghost var ring := Detach(h, p, marked, c, next0, rings, ks, rest);
        rings := rings + [ring];
      } else {
        Release(h, p, marked, c, next0, rings, ks, rest);
      }
      rest := rest[1..];
      DetachHead(h, marked, c, next0, rings, ks, rest);
      if h.next[|h.g|] == |h.g| {
        assert rest == [];
        break;
      }
    }
  }
}
