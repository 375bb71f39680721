/** One detection of garbage cycles on a fixed graph, from the candidate list to
    the pending cycles. */
module Detection {
  import opened ObjectGraph
  import opened ObjectHeap
  import opened LinkedLists
  import opened Marking
  import opened Candidates
  import opened Scanning
  import opened Detaching
  import opened Collecting

  /** `marked` is what the PURPLE candidates reach. */
  ghost predicate IsMarked(g: Graph, color: seq<Color>, rs: seq<nat>, marked: set<nat>) {
    && marked <= Objects(g) && Sealed(g, marked)
    && (forall r :: r in rs && r < |color| && color[r] == PURPLE ==> r in marked)
    && FromPurple(g, color, rs, marked)
  }

  ghost predicate FromPurple(g: Graph, color: seq<Color>, rs: seq<nat>, marked: set<nat>) {
    forall x :: x in marked ==> exists r :: r in rs && r < |color| && color[r] == PURPLE && Reaches(g, r, x)
  }

  /** Something outside `marked` refers to a member of `marked` that reaches `x`. */
  ghost predicate Anchored(g: Graph, count: seq<nat>, marked: set<nat>, x: nat) {
    exists m :: m in marked && m < |count| && count[m] > In(g, marked, m) && Reaches(g, m, x)
  }

  lemma HeldAnchored(g: Graph, color: seq<Color>, cyclic: seq<nat>, count: seq<nat>, marked: set<nat>, x: nat)
    requires Settled(g, color, cyclic, count, marked)
    ensures Held(g, marked, cyclic, x) <==> Anchored(g, count, marked, x)
  {
    if Held(g, marked, cyclic, x) {
      var m :| m in marked && m < |cyclic| && cyclic[m] > 0 && Reaches(g, m, x);
      assert count[m] > In(g, marked, m);
    }
    if Anchored(g, count, marked, x) {
      var m :| m in marked && m < |count| && count[m] > In(g, marked, m) && Reaches(g, m, x);
      assert cyclic[m] > 0;
    }
  }

  ghost function Resolved(marked: set<nat>, c: seq<Color>, rings: seq<seq<nat>>): set<nat> {
    set y | y in marked && y < |c| && (c[y] == BLACK || InSome(rings, y))
  }

  lemma HeldStep(g: Graph, marked: set<nat>, cyclic: seq<nat>, y: nat, z: nat)
    requires Closed(g) && Held(g, marked, cyclic, y) && y < |g| && z in g[y]
    ensures Held(g, marked, cyclic, z)
  {
    var m :| m in marked && m < |cyclic| && cyclic[m] > 0 && Reaches(g, m, y);
    ReachesStep(g, m, y, z);
  }

  lemma ResolvedSealed(g: Graph, marked: set<nat>, cyclic: seq<nat>, c: seq<Color>, color: seq<Color>,
                       rings: seq<seq<nat>>)
    requires Verdict(g, marked, cyclic, c) && Sorting(g, marked, c, color, rings) && Ordered(g, c, rings)
    ensures Sealed(g, Resolved(marked, c, rings))
  {
    forall y, z | y in Resolved(marked, c, rings) && y < |g| && z in g[y]
      ensures z in Resolved(marked, c, rings)
    {
      if c[y] == BLACK {
        HeldStep(g, marked, cyclic, y, z);
      } else {
        var k :| 0 <= k < |rings| && y in rings[k];
        if c[z] == WHITE {
          InSomePrefix(rings, k + 1, z);
        }
      }
    }
  }

  /** Every WHITE object ends up in a ring. */
  lemma AllCollected(g: Graph, marked: set<nat>, cyclic: seq<nat>, c: seq<Color>, color: seq<Color>,
                     rings: seq<seq<nat>>, ks: seq<nat>, x: nat)
    requires Verdict(g, marked, cyclic, c) && Sorting(g, marked, c, color, rings) && Ordered(g, c, rings)
    requires From(g, marked, ks) && Looked(marked, color, ks, []) && x in marked
    requires forall k :: k in ks ==> k in marked
    ensures x < |c| && (c[x] == WHITE <==> InSome(rings, x))
  {
    hide From, Verdict, Held, InSome;
    ResolvedSealed(g, marked, cyclic, c, color, rings);
    var r := FromAt(g, marked, ks, x);
    assert color[r] != WHITE;
    SealedHolds(g, Resolved(marked, c, rings), r, x);
    hide Ordered;
  }

  lemma InSomePrefix(rings: seq<seq<nat>>, k: nat, x: nat)
    requires k <= |rings|
    ensures InSome(rings[..k], x) ==> InSome(rings, x)
  {
    if InSome(rings[..k], x) {
      var j :| 0 <= j < k && x in rings[..k][j];
      assert x in rings[j];
    }
  }

  /** References between pending cycles run only from a later one to an earlier one. */
  ghost predicate LaterToEarlier(g: Graph, rings: seq<seq<nat>>) {
    forall k, x, y :: 0 <= k < |rings| && x in rings[k] && x < |g| && y in g[x] && InSome(rings, y) ==>
      InSome(rings[..k + 1], y)
  }

  /** The pending cycles hold exactly the marked objects that nothing unmarked
      keeps; the other marked objects are BLACK. */
  ghost predicate Found(g: Graph, count: seq<nat>, c: seq<Color>, color: seq<Color>, marked: set<nat>, rings: seq<seq<nat>>)
    requires |count| == |c| == |color| == |g| && marked <= Objects(g)
  {
    && (forall x: nat :: InSome(rings, x) <==> x in marked && !Anchored(g, count, marked, x))
    && (forall x :: x in marked ==> color[x] == if InSome(rings, x) then ORANGE else BLACK)
    && (forall x: nat :: x < |g| && x !in marked && color[x] != c[x] ==> color[x] == BLACK && c[x] != PURPLE)
  }

  /** How the lists are left. */
  ghost predicate Relinked(h: Heap, next0: seq<int>, rs: seq<nat>, rings: seq<seq<nat>>)
    reads h
  {
    && h.Shaped() && h.Stacked([]) && |next0| == |h.g| + 1
    && Pending(h.cycles, h.nextCycle, h.next, rings) && Disjoint(rings)
    && h.next[|h.g|] == |h.g|
    && (forall x: nat :: InSome(rings, x) ==> x < |h.g|)
    && (forall x: nat :: x < |h.g| && InSome(rings, x) ==> h.previous[x] == NIL)
    && (forall x: nat :: x < |h.g| && !InSome(rings, x) ==> h.next[x] == if x in rs then NIL else next0[x])
  }

  lemma RootedFrom(g: Graph, c0: seq<Color>, c: seq<Color>, color: seq<Color>, rs: seq<nat>, kept: seq<nat>,
                   marked: set<nat>, x: nat)
    requires |color| == |c| == |c0| == |g| && Rooted(g, color, Set(kept)) && x < |g| && color[x] == GRAY
    requires forall k :: k in kept ==> k in rs && k < |c| && c[k] == PURPLE
    requires forall k :: 0 <= k < |g| && c[k] == PURPLE ==> c0[k] == PURPLE
    ensures exists r :: r in rs && r < |c0| && c0[r] == PURPLE && Reaches(g, r, x)
    ensures exists r :: r in Set(kept) && Reaches(g, r, x)
  {
    var r :| r in Set(kept) && Reaches(g, r, x);
    assert r in kept && r in Set(kept);
  }

  lemma MarkedFromPass(h: Heap, next0: seq<int>, c0: seq<Color>, c: seq<Color>, rs: seq<nat>, kept: seq<nat>,
                       marked: set<nat>)
    requires Passing(h, next0, c, rs, kept, [], marked) && Blackened(h.g, c0, c, {}) && Within(rs, |h.g|)
    ensures h.Shaped() && h.Stacked([])
    ensures FromPurple(h.g, c0, rs, marked) && From(h.g, marked, kept)
  {
    hide Settled, Covered, Independent;
    forall x | x in marked
      ensures exists r :: r in rs && r < |c0| && c0[r] == PURPLE && Reaches(h.g, r, x)
      ensures exists r :: r in Set(kept) && Reaches(h.g, r, x)
    {
      assert x < |h.g| && h.color[x] == GRAY by {
        SettledGray(h.g, h.color, h.cyclic, h.count, marked);
      }
      hide Rooted;
      RootedFrom(h.g, c0, c, h.color, rs, kept, marked, x);
    }
  }

  lemma SettledGray(g: Graph, color: seq<Color>, cyclic: seq<nat>, count: seq<nat>, marked: set<nat>)
    requires Settled(g, color, cyclic, count, marked)
    ensures Sealed(g, marked) && marked <= Objects(g) && Covered(g, count)
    ensures forall x :: x in marked ==> x < |g| == |color| && color[x] == GRAY
  {
    forall y, x | y in marked && y < |g| && x in g[y]
      ensures x in marked
    {
      var j :| 0 <= j < |g[y]| && g[y][j] == x;
    }
  }

  lemma PassedList(h: Heap, next0: seq<int>, c0: seq<Color>, c: seq<Color>, rs: seq<nat>, kept: seq<nat>,
                   marked: set<nat>)
    requires Passing(h, next0, c, rs, kept, [], marked) && Blackened(h.g, c0, c, {}) && Within(rs, |h.g|)
    ensures Settled(h.g, h.color, h.cyclic, h.count, marked)
    ensures Listing(h.next, |h.g|, kept) && Independent(h.g, kept)
    ensures forall r :: r in rs && r < |c0| && c0[r] == PURPLE ==> r in marked
    ensures forall k :: k in kept ==> k in marked && k in rs
    ensures forall x: nat :: x < |h.g| && x !in marked ==> h.color[x] == c[x]
    ensures forall x: nat :: x < |h.g| && x !in kept ==> h.next[x] == if x in rs then NIL else next0[x]
  {
    hide Settled, Rooted, Covered, Independent;
    assert kept + [] == kept;
  }

  lemma StartDetach(h: Heap, marked: set<nat>, ks: seq<nat>)
    requires h.Shaped() && h.Stacked([]) && Covered(h.g, h.count) && h.cycles == NIL
    requires Listing(h.next, |h.g|, ks) && Independent(h.g, ks) && (forall j :: 0 <= j < |ks| ==> ks[j] in marked)
    requires marked <= Objects(h.g) && Sealed(h.g, marked) && Verdict(h.g, marked, h.cyclic, h.color)
    ensures Detachment(h, marked, h.color, h.next, [], ks, ks)
  {
    assert forall x: nat :: !InSome([], x);
  }

  lemma FoundAll(g: Graph, marked: set<nat>, cyclic: seq<nat>, count: seq<nat>, gray: seq<Color>, c: seq<Color>,
                 color: seq<Color>, rings: seq<seq<nat>>, ks: seq<nat>)
    requires Settled(g, gray, cyclic, count, marked)
    requires Verdict(g, marked, cyclic, c) && Sorting(g, marked, c, color, rings) && Ordered(g, c, rings)
    requires From(g, marked, ks) && Looked(marked, color, ks, []) && forall k :: k in ks ==> k in marked
    ensures forall x: nat :: InSome(rings, x) <==> x in marked && !Anchored(g, count, marked, x)
    ensures forall x :: x in marked ==> x < |g| && color[x] == if InSome(rings, x) then ORANGE else BLACK
    ensures LaterToEarlier(g, rings)
  {
    hide From, InSome;
    forall x: nat
      ensures InSome(rings, x) <==> x in marked && !Anchored(g, count, marked, x)
      ensures x in marked ==> x < |g| && color[x] == if InSome(rings, x) then ORANGE else BLACK
    {
      if x in marked {
        HeldAnchored(g, gray, cyclic, count, marked, x);
        AllCollected(g, marked, cyclic, c, color, rings, ks, x);
      }
    }
  }

  lemma RelinkedAll(h: Heap, marked: set<nat>, c: seq<Color>, next0: seq<int>, next1: seq<int>, rings: seq<seq<nat>>,
                    rs: seq<nat>, ks: seq<nat>)
    requires Detachment(h, marked, c, next1, rings, ks, []) && |next0| == |h.g| + 1
    requires forall k :: k in ks ==> k in rs
    requires |next1| == |h.g| + 1
    requires forall x: nat :: x < |h.g| && x !in ks ==> next1[x] == if x in rs then NIL else next0[x]
    ensures Relinked(h, next0, rs, rings)
  {
    hide Sorting, Ordered, Outside, Independent, Covered, Looked;
    forall x: nat | InSome(rings, x)
      ensures x < |h.g|
    {
      var k :| 0 <= k < |rings| && x in rings[k];
    }
  }

  lemma NoneMarked(h: Heap, next0: seq<int>, c0: seq<Color>, rs: seq<nat>, marked: set<nat>)
    requires h.Shaped() && h.Stacked([]) && |next0| == |h.g| + 1 && h.cycles == NIL
    requires From(h.g, marked, []) && h.next[|h.g|] == |h.g|
    requires forall x: nat :: x < |h.g| ==> h.next[x] == if x in rs then NIL else next0[x]
    ensures marked == {} && Relinked(h, next0, rs, []) && LaterToEarlier(h.g, [])
  {
    forall x | x in marked
      ensures false
    {
      var r := FromAt(h.g, marked, [], x);
    }
    assert forall x: nat :: !InSome([], x);
  }

  /** The candidates have been marked from: `kept` are those still listed. */
  ghost predicate Marked(h: Heap, c0: seq<Color>, next0: seq<int>, rs: seq<nat>, marked: set<nat>, kept: seq<nat>)
    reads h
  {
    && h.Shaped() && h.Stacked([]) && |c0| == |h.g| && |next0| == |h.g| + 1
    && Settled(h.g, h.color, h.cyclic, h.count, marked) && Covered(h.g, h.count)
    && marked <= Objects(h.g) && Sealed(h.g, marked) && From(h.g, marked, kept)
    && Listing(h.next, |h.g|, kept) && Independent(h.g, kept)
    && (forall x :: x in marked ==> h.color[x] == GRAY)
    && (forall k :: k in kept ==> k in marked && k in rs)
    && (forall x: nat :: x < |h.g| && x !in marked && h.color[x] != c0[x] ==> h.color[x] == BLACK && c0[x] != PURPLE)
    && (forall x: nat :: x < |h.g| && x !in kept ==> h.next[x] == if x in rs then NIL else next0[x])
  }

  /** Prescanning and marking. */
  method MarkCandidates(h: Heap, ghost rs: seq<nat>) returns (ghost marked: set<nat>, ghost kept: seq<nat>)
    requires h.Shaped() && h.Stacked([]) && Listing(h.next, |h.g|, rs) && rs != [] && Covered(h.g, h.count)
    requires forall x :: 0 <= x < |h.g| ==> h.color[x] != GRAY
    requires forall r :: r in rs ==> h.count[r] > 0
    modifies h`color, h`cyclic, h`scan, h`scanStack, h`next
    ensures IsMarked(h.g, old(h.color), rs, marked)
    ensures Marked(h, old(h.color), old(h.next), rs, marked, kept)
  {
    hide Passing, Settled, Covered, Sealed, From, FromPurple, Independent, Reaches;
    ghost var c0, next0 := h.color, h.next;
    PrescanPass(h, rs);
    ghost var c1 := h.color;
    kept, marked := MarkPass(h, rs);
    MarkedFromPass(h, next0, c0, c1, rs, kept, marked);
    PassedList(h, next0, c0, c1, rs, kept, marked);
    SettledGray(h.g, h.color, h.cyclic, h.count, marked);
  }

  /** Scanning and detaching, when a candidate is left. */
  method DetachCycles(h: Heap, ghost c0: seq<Color>, ghost next0: seq<int>, ghost rs: seq<nat>, ghost marked: set<nat>,
                      ghost kept: seq<nat>)
      returns (ghost rings: seq<seq<nat>>)
    requires Marked(h, c0, next0, rs, marked, kept) && kept != [] && h.cycles == NIL
    modifies h`color, h`cyclic, h`next, h`previous, h`scan, h`scanStack, h`nextCycle, h`cycles
    ensures h.Shaped() && |c0| == |h.g| && marked <= Objects(h.g) && Found(h.g, h.count, c0, h.color, marked, rings)
    ensures LaterToEarlier(h.g, rings) && Outside(h.g, h.cyclic, h.count, rings)
    ensures Relinked(h, next0, rs, rings)
  {
    hide Settled, Covered, Sealed, From, Independent, Verdict, Detachment, InSome, Outside, LaterToEarlier, Relinked;
    ghost var gray, cyclic, next1 := h.color, h.cyclic, h.next;
    ScanPass(h, marked, kept);
    ghost var c2 := h.color;
    StartDetach(h, marked, kept);
    rings := CollectPass(h, marked, kept);
    DetachedFacts(h, marked, c2, next1, rings, kept);
    FoundAll(h.g, marked, cyclic, h.count, gray, c2, h.color, rings, kept);
    FoundUnmarked(h.g, c0, gray, c2, h.color, marked, rings);
    RelinkedAll(h, marked, c2, next0, next1, rings, rs, kept);
  }

  lemma DetachedFacts(h: Heap, marked: set<nat>, c: seq<Color>, next0: seq<int>, rings: seq<seq<nat>>, ks: seq<nat>)
    requires Detachment(h, marked, c, next0, rings, ks, [])
    ensures h.Shaped() && Sorting(h.g, marked, c, h.color, rings) && Ordered(h.g, c, rings)
    ensures Outside(h.g, h.cyclic, h.count, rings) && Looked(marked, h.color, ks, [])
    ensures |next0| == |h.g| + 1
  {
  }

  lemma FoundUnmarked(g: Graph, c0: seq<Color>, gray: seq<Color>, c: seq<Color>, color: seq<Color>,
                      marked: set<nat>, rings: seq<seq<nat>>)
    requires Sorting(g, marked, c, color, rings) && Steady(marked, gray, c) && |c0| == |gray| == |g|
    requires forall x: nat :: x < |g| && x !in marked && gray[x] != c0[x] ==> gray[x] == BLACK && c0[x] != PURPLE
    ensures forall x: nat :: x < |g| && x !in marked && color[x] != c0[x] ==> color[x] == BLACK && c0[x] != PURPLE
  {
  }

  /** The detection part of t_engine::f_collector, run when there are candidates
      and no pending cycle is left. */
  method FindCycles(h: Heap, ghost rs: seq<nat>) returns (ghost marked: set<nat>, ghost rings: seq<seq<nat>>)
    requires h.Shaped() && h.Stacked([]) && Listing(h.next, |h.g|, rs) && rs != [] && Covered(h.g, h.count)
    requires forall x :: 0 <= x < |h.g| ==> h.color[x] != GRAY
    requires forall r :: r in rs ==> h.count[r] > 0
    requires h.cycles == NIL
    modifies h`color, h`cyclic, h`next, h`previous, h`scan, h`scanStack, h`nextCycle, h`cycles
    ensures IsMarked(h.g, old(h.color), rs, marked)
    ensures h.Shaped() && Found(h.g, h.count, old(h.color), h.color, marked, rings)
    ensures LaterToEarlier(h.g, rings) && Outside(h.g, h.cyclic, h.count, rings)
    ensures Relinked(h, old(h.next), rs, rings) && h.previous[|h.g|] == |h.g|
  {
    ghost var c0, next0 := h.color, h.next;
    ghost var kept;
    marked, kept := MarkCandidates(h, rs);
    hide IsMarked, Settled, Covered, Sealed, From, FromPurple, Independent, Found, LaterToEarlier, Outside, Relinked;
    rings := [];
    if h.next[|h.g|] != |h.g| {
      rings := DetachCycles(h, c0, next0, rs, marked, kept);
    } else {
      NoneKept(h, c0, next0, rs, marked, kept);
    }
    ResetList(h, next0, rs, rings);
  }

  method ResetList(h: Heap, ghost next0: seq<int>, ghost rs: seq<nat>, ghost rings: seq<seq<nat>>)
    requires Relinked(h, next0, rs, rings)
    modifies h`previous
    ensures Relinked(h, next0, rs, rings) && |h.previous| == |h.g| + 1 && h.previous[|h.g|] == |h.g|
  {
    hide Pending, Disjoint, InSome;
    h.previous := h.previous[|h.g| := |h.g|];
  }

  lemma NoneKept(h: Heap, c0: seq<Color>, next0: seq<int>, rs: seq<nat>, marked: set<nat>, kept: seq<nat>)
    requires Marked(h, c0, next0, rs, marked, kept) && h.next[|h.g|] == |h.g| && h.cycles == NIL
    ensures Relinked(h, next0, rs, []) && LaterToEarlier(h.g, []) && Outside(h.g, h.cyclic, h.count, [])
    ensures Found(h.g, h.count, c0, h.color, marked, [])
  {
    assert kept == [];
    NoneMarked(h, next0, c0, rs, marked);
    assert forall x: nat :: !InSome([], x);
  }

  // ----- What the result means -----

  /** The count of every member of `s` is its number of references from objects
      and from elsewhere. */
  ghost predicate Exact(g: Graph, count: seq<nat>, elsewhere: seq<nat>, s: set<nat>) {
    |count| == |elsewhere| == |g| && forall x :: x in s && x < |g| ==> count[x] == elsewhere[x] + In(g, Objects(g), x)
  }

  /** A reference from an unmarked object leaves something over. */
  lemma OutsideAnchors(g: Graph, count: seq<nat>, elsewhere: seq<nat>, marked: set<nat>, y: nat, m: nat)
    requires Closed(g) && Exact(g, count, elsewhere, marked) && marked <= Objects(g)
    requires y < |g| && y !in marked && m in marked && m in g[y]
    ensures count[m] > In(g, marked, m)
  {
    InAdd(g, marked, y, m);
    assert Times(g[y], m) > 0;
    InMonotonic(g, marked + {y}, Objects(g), m);
  }

  /** A path that ends in `marked` from outside enters it at an anchor. */
  lemma {:induction false} PathAnchors(g: Graph, count: seq<nat>, elsewhere: seq<nat>, marked: set<nat>, p: seq<nat>)
    requires Closed(g) && Exact(g, count, elsewhere, marked) && marked <= Objects(g)
    requires p != [] && IsPath(g, p, p[0], p[|p| - 1]) && p[0] !in marked && p[|p| - 1] in marked
    ensures Anchored(g, count, marked, p[|p| - 1])
    decreases |p|
  {
    var rest, x := p[1..], p[|p| - 1];
    assert rest[|rest| - 1] == x;
    assert IsPath(g, rest, rest[0], x) by {
      assert forall i :: 0 <= i < |rest| ==> rest[i] == p[i + 1];
    }
    if p[1] in marked {
      OutsideAnchors(g, count, elsewhere, marked, p[0], p[1]);
      assert Reaches(g, p[1], x);
    } else {
      PathAnchors(g, count, elsewhere, marked, rest);
    }
  }

  /** Nothing that is referred to from elsewhere, and nothing unmarked, reaches a
      member of a pending cycle. */
  lemma OnlyGarbage(g: Graph, count: seq<nat>, elsewhere: seq<nat>, marked: set<nat>, r: nat, x: nat)
    requires Closed(g) && Exact(g, count, elsewhere, marked) && marked <= Objects(g)
    requires x in marked && !Anchored(g, count, marked, x)
    requires r < |g| && (elsewhere[r] > 0 || r !in marked)
    ensures !Reaches(g, r, x)
  {
    if Reaches(g, r, x) {
      var p :| IsPath(g, p, r, x);
      if r in marked {
        InMonotonic(g, marked, Objects(g), r);
        assert count[r] > In(g, marked, r);
      } else {
        PathAnchors(g, count, elsewhere, marked, p);
      }
    }
  }

  /** Conversely, a marked object that nothing unmarked and nothing from elsewhere
      reaches is in a pending cycle. */
  lemma AllGarbage(g: Graph, count: seq<nat>, elsewhere: seq<nat>, marked: set<nat>, x: nat)
    requires Closed(g) && Exact(g, count, elsewhere, marked) && marked <= Objects(g) && x in marked
    requires forall r: nat :: r < |g| && (elsewhere[r] > 0 || r !in marked) ==> !Reaches(g, r, x)
    ensures !Anchored(g, count, marked, x)
  {
    if Anchored(g, count, marked, x) {
      var m :| m in marked && m < |count| && count[m] > In(g, marked, m) && Reaches(g, m, x);
      assert elsewhere[m] == 0;
      var others := Objects(g) - marked;
      assert Objects(g) == marked + others;
      InUnion(g, marked, others, m);
      InPositive(g, others, m);
      var y :| y in others && y < |g| && m in g[y];
      ReachesPrepend(g, y, m, x);
    }
  }

  /** So the pending cycles hold exactly the marked objects that are not in use. */
  lemma GarbageExactly(g: Graph, count: seq<nat>, elsewhere: seq<nat>, c: seq<Color>, color: seq<Color>,
                       marked: set<nat>, rings: seq<seq<nat>>, x: nat)
    requires Closed(g) && Exact(g, count, elsewhere, marked) && marked <= Objects(g) && |c| == |color| == |g|
    requires Found(g, count, c, color, marked, rings) && x in marked
    ensures InSome(rings, x) <==>
            forall r: nat :: r < |g| && (elsewhere[r] > 0 || r !in marked) ==> !Reaches(g, r, x)
  {
    if !Anchored(g, count, marked, x) {
      forall r: nat | r < |g| && (elsewhere[r] > 0 || r !in marked)
        ensures !Reaches(g, r, x)
      {
        OnlyGarbage(g, count, elsewhere, marked, r, x);
      }
    }
    if forall r: nat :: r < |g| && (elsewhere[r] > 0 || r !in marked) ==> !Reaches(g, r, x) {
      AllGarbage(g, count, elsewhere, marked, x);
    }
  }

  lemma ReachesPrepend(g: Graph, y: nat, m: nat, x: nat)
    requires y < |g| && m in g[y] && Reaches(g, m, x)
    ensures Reaches(g, y, x)
  {
    var p :| IsPath(g, p, m, x);
    assert IsPath(g, [y] + p, y, x);
  }
}
