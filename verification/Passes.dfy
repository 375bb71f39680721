/** A whole pass of the collector: the cycles found by the previous pass are
    handled, and then new ones are looked for. */
module Passes {
  import opened ObjectGraph
  import opened ObjectHeap
  import opened LinkedLists
  import opened Marking
  import opened Detaching
  import opened Collecting
  import opened Detection
  import opened Accounts
  import opened ReleaseLists
  import opened Releasing
  import opened Draining
  import opened Drain

  // ----- Released objects hold nothing -----

  function Pruned(g: Graph, typed: seq<bool>): Graph
    requires |g| <= |typed|
  {
    seq(|g|, y requires 0 <= y < |g| => if typed[y] then g[y] else [])
  }

  lemma {:induction false} PrunedIn(g: Graph, typed: seq<bool>, s: set<nat>, x: nat)
    requires |g| <= |typed|
    ensures In(Pruned(g, typed), s, x) == In(g, s * Typed(typed), x)
  {
    if g != [] {
      var n := |g| - 1;
      assert Pruned(g, typed)[..n] == Pruned(g[..n], typed);
      PrunedIn(g[..n], typed, s, x);
    }
  }

  lemma PrunedStill(b: Books)
    requires Still(b) && b.reds == {}
    ensures Still(b.(g := Pruned(b.g, b.typed)))
  {
    var b' := b.(g := Pruned(b.g, b.typed));
    assert b'.Holders() == b.Holders() && b'.Others() == b.Others() == b.Holders();
    forall s: set<nat>, x: nat
      ensures In(b'.g, s, x) == In(b.g, s * b.Holders(), x)
    {
      PrunedIn(b.g, b.typed, s, x);
    }
    assert b.Holders() * b.Holders() == b.Holders();
    assert {} * b.Holders() == {};
    assert b'.Isolated() && b'.Severed();
    forall x | x in b'.Holders() && b'.color[x] == ORANGE
      ensures b'.home[x] !! b'.reds && b'.cyclic[x] + In(b'.g, b'.home[x] * b'.Holders(), x) == b'.count[x]
    {
      assert b.home[x] * b.Holders() * b.Holders() == b.home[x] * b.Holders();
    }
  }

  /** Released objects hold nothing any more, and nothing is pending. */
  ghost predicate Clear(h: Heap, c: Context, cs: seq<nat>)
    reads h
  {
    && Calm(h, c, cs) && c.held == {} && c.garb == {} && c.reds == {} && c.base == Zeros(|c.base|)
    && h.cycles == NIL && Bare(h.g, h.typed) && Homes(c.home)
  }

  ghost predicate Bare(g: Graph, typed: seq<bool>) {
    |g| == |typed| && forall y: nat :: y < |g| && !typed[y] ==> g[y] == []
  }

  method Prune(h: Heap, ghost c: Context, ghost cs: seq<nat>)
    requires Calm(h, c, cs) && c.held == {} && c.garb == {} && c.reds == {} && c.base == Zeros(|c.base|) && h.cycles == NIL
    requires Homes(c.home)
    modifies h`g
    ensures Clear(h, c, cs) && |h.typed| == |old(h.g)| && h.g == Pruned(old(h.g), h.typed)
  {
    hide Still, Lists, Lively, Oranges, Idle;
    CalmStill(h, c, cs);
    PrunedStill(BooksOf(h, c));
    h.g := Pruned(h.g, h.typed);
  }

  // ----- Before the detection -----

  lemma {:induction false} DoublyListing(next: seq<int>, previous: seq<int>, n: nat, cs: seq<nat>)
    requires DList(n, next, previous, cs)
    ensures Listing(next, n, cs)
  {
    DoublyLeads(next, previous, n, cs, n);
  }

  /** In a graph where released objects hold nothing, all references are from
      living ones. */
  lemma BareIn(g: Graph, typed: seq<bool>, s: set<nat>, x: nat)
    requires Bare(g, typed)
    ensures In(g, s, x) == In(g, s * Typed(typed), x)
  {
    PrunedIn(g, typed, s, x);
    assert Pruned(g, typed) == g;
  }

  /** What is alive refers only to what is alive. */
  lemma LivingSealed(b: Books)
    requires Still(b) && b.reds == {}
    ensures Sealed(b.g, b.Holders())
  {
    forall y, z | y in b.Holders() && y < |b.g| && z in b.g[y]
      ensures z in b.Holders()
    {
      var j :| 0 <= j < |b.g[y]| && b.g[y][j] == z;
    }
  }

  lemma Exactly(b: Books, s: set<nat>)
    requires Still(b) && b.reds == {} && b.base == Zeros(|b.g|) && Bare(b.g, b.typed) && s <= b.Holders()
    ensures Exact(b.g, b.count, b.elsewhere, s) && Covered(b.g, b.count)
  {
    LivingSealed(b);
    forall x | 0 <= x < |b.g|
      ensures In(b.g, Objects(b.g), x) <= b.count[x]
      ensures x in b.Holders() ==> b.count[x] == b.elsewhere[x] + In(b.g, Objects(b.g), x)
    {
      BareIn(b.g, b.typed, Objects(b.g), x);
      assert Objects(b.g) * b.Holders() == b.Holders() == b.Others();
      InPositive(b.g, b.Holders(), x);
    }
  }

  /** What the detection asks for. */
  lemma ClearReady(h: Heap, c: Context, cs: seq<nat>)
    requires Clear(h, c, cs)
    ensures h.Shaped() && h.Stacked([]) && Listing(h.next, |h.g|, cs) && Covered(h.g, h.count)
    ensures forall x :: 0 <= x < |h.g| ==> h.color[x] != GRAY
    ensures forall r :: r in cs ==> r < |h.g| && h.typed[r] && h.count[r] > 0
    ensures Still(BooksOf(h, c)) && h.previous[|h.g|] == Last(|h.g|, cs)
  {
    DoublyListing(h.next, h.previous, |h.g|, cs);
    DoublyLeads(h.next, h.previous, |h.g|, cs, |h.g|);
    Exactly(BooksOf(h, c), {});
    assert forall x :: 0 <= x < |h.g| ==> Plain(h.color[x]);
  }

  // ----- After the detection -----

  ghost function HomeOf(rings: seq<seq<nat>>, x: nat): set<nat> {
    if InSome(rings, x) then
      var k :| 0 <= k < |rings| && x in rings[k];
      Set(rings[k])
    else {}
  }

  lemma HomeAt(rings: seq<seq<nat>>, k: nat, x: nat)
    requires Disjoint(rings) && k < |rings| && x in rings[k]
    ensures HomeOf(rings, x) == Set(rings[k])
  {
    assert InSome(rings, x);
    var j :| 0 <= j < |rings| && x in rings[j] && HomeOf(rings, x) == Set(rings[j]);
    assert !(j < k) && !(k < j);
  }

  ghost function HomesOf(rings: seq<seq<nat>>, n: nat): seq<set<nat>> {
    seq(n, x requires 0 <= x < n => HomeOf(rings, x))
  }

  ghost function Pendings(rings: seq<seq<nat>>, n: nat): set<nat> {
    set x | x in Upto(n) && InSome(rings, x)
  }

  lemma HomesHold(rings: seq<seq<nat>>, n: nat)
    requires Disjoint(rings) && forall x: nat :: InSome(rings, x) ==> x < n
    ensures Homes(HomesOf(rings, n))
    ensures forall k, x {:trigger x in rings[k]} :: 0 <= k < |rings| && x in rings[k] ==>
      x in Pendings(rings, n) && x < n && HomesOf(rings, n)[x] == Set(rings[k])
  {
    var home := HomesOf(rings, n);
    forall k, x {:trigger x in rings[k]} | 0 <= k < |rings| && x in rings[k]
      ensures x in Pendings(rings, n) && x < n && home[x] == Set(rings[k])
    {
      assert InSome(rings, x);
      HomeAt(rings, k, x);
    }
    forall y, z | 0 <= y < n && z in home[y]
      ensures z < n && y in home[y] && home[z] == home[y]
    {
      var k :| 0 <= k < |rings| && y in rings[k];
      assert z in rings[k];
    }
  }

  ghost function Awaiting(c: Context, rings: seq<seq<nat>>, n: nat): Context {
    c.(home := HomesOf(rings, n), held := Pendings(rings, n))
  }

  /** The pending cycles are the only list that is left. */
  lemma PendingRoles(n: nat, next0: seq<int>, previous0: seq<int>, next: seq<int>, previous: seq<int>, typed: seq<bool>,
                     freed: set<nat>, cs: seq<nat>, rings: seq<seq<nat>>)
    requires Lists(n, next0, previous0, typed, freed, cs, {}, {}) && |next| == |previous| == n + 1
    requires next[n] == n && previous[n] == n
    requires forall x: nat :: InSome(rings, x) ==> x < n && typed[x] && next[x] != NIL && previous[x] == NIL
    requires forall x: nat :: x < n && !InSome(rings, x) ==> next[x] == if x in cs then NIL else next0[x]
    ensures Lists(n, next, previous, typed, freed, [], Pendings(rings, n), {})
  {
    assert Doubly(next, previous, n, [], n);
  }

  /** All that is marked is alive. */
  lemma MarkedLives(b: Books, color: seq<Color>, rs: seq<nat>, marked: set<nat>)
    requires Still(b) && b.reds == {} && IsMarked(b.g, color, rs, marked)
    requires forall r :: r in rs ==> r < |b.g| && b.typed[r]
    ensures marked <= b.Holders()
  {
    LivingSealed(b);
    forall x | x in marked
      ensures x in b.Holders()
    {
      var r :| r in rs && r < |color| && color[r] == PURPLE && Reaches(b.g, r, x);
      SealedHolds(b.g, b.Holders(), r, x);
    }
  }

  /** What the detection has found, on a graph whose counts are exact. */
  ghost predicate Detected(b: Books, color0: seq<Color>, marked: set<nat>, rings: seq<seq<nat>>) {
    && b.Sized() && b.reds == {} && b.base == Zeros(|b.g|) && |color0| == |b.g|
    && Bare(b.g, b.typed) && marked <= b.Holders() && marked <= Objects(b.g) && Sealed(b.g, marked) && Sealed(b.g, b.Holders())
    && Exact(b.g, b.count, b.elsewhere, b.Holders()) && Exact(b.g, b.count, b.elsewhere, marked)
    && Found(b.g, b.count, color0, b.color, marked, rings) && Disjoint(rings)
    && LaterToEarlier(b.g, rings) && Outside(b.g, b.cyclic, b.count, rings)
  }

  lemma MemberFacts(b: Books, color0: seq<Color>, marked: set<nat>, rings: seq<seq<nat>>, x: nat)
    requires Detected(b, color0, marked, rings) && InSome(rings, x)
    ensures x in marked && x in b.Holders() && x < |b.g| && b.typed[x] && b.color[x] == ORANGE && b.elsewhere[x] == 0
    ensures !Anchored(b.g, b.count, marked, x)
  {
    hide LaterToEarlier, Outside, Disjoint, InSome;
    assert x in marked && !Anchored(b.g, b.count, marked, x);
    assert x in Objects(b.g);
    if b.elsewhere[x] > 0 {
      OnlyGarbage(b.g, b.count, b.elsewhere, marked, x, x);
      ReachesSelf(b.g, x);
    }
  }

  /** The books with the new cycles waiting. */
  lemma PendingStill(b0: Books, b: Books, marked: set<nat>, rings: seq<seq<nat>>)
    requires Still(b0) && Detected(b, b0.color, marked, rings)
    requires b == b0.(color := b.color, cyclic := b.cyclic, home := HomesOf(rings, |b.g|))
    requires forall x: nat :: x < |b.g| && b.typed[x] ==> b0.color[x] != ORANGE
    ensures Still(b)
  {
    assert b.Holders() == b0.Holders() && b.Others() == b0.Others();
    forall x | x in b.Holders()
      ensures b.color[x] != RED
    {
      assert b0.color[x] != RED;
    }
    forall x: nat
      ensures In(b.g, {}, x) == 0
    {
      InPositive(b.g, {}, x);
    }
    assert b.Isolated() && b.Severed();
    forall x | x in b.Holders() && b.color[x] == ORANGE
      ensures b.home[x] !! b.reds && b.cyclic[x] + In(b.g, b.home[x] * b.Holders(), x) == b.count[x]
    {
      assert InSome(rings, x);
      var k :| 0 <= k < |rings| && x in rings[k];
      HomeAt(rings, k, x);
      forall z | z in Set(rings[k])
        ensures z in b.Holders()
      {
        assert InSome(rings, z);
        MemberFacts(b, b0.color, marked, rings, z);
      }
      assert Set(rings[k]) * b.Holders() == Set(rings[k]);
    }
  }

  // ----- The pending cycles are intact -----

  lemma PendingUntouchable(b: Books, color0: seq<Color>, marked: set<nat>, rings: seq<seq<nat>>)
    requires Detected(b, color0, marked, rings)
    ensures Untouchable(b, rings)
  {
    forall k, x {:trigger x in rings[k]} | 0 <= k < |rings| && x in rings[k]
      ensures x < |b.g| && b.typed[x] && b.color[x] == ORANGE && b.elsewhere[x] == 0
    {
      assert InSome(rings, x);
      MemberFacts(b, color0, marked, rings, x);
    }
  }

  /** Whatever refers to a member of a cycle is a member of a cycle itself. */
  lemma ReferrerPends(b: Books, color0: seq<Color>, marked: set<nat>, rings: seq<seq<nat>>, x: nat, y: nat)
    requires Detected(b, color0, marked, rings) && InSome(rings, x) && y < |b.g| && x in b.g[y]
    ensures InSome(rings, y)
  {
    hide LaterToEarlier, Outside, Disjoint, InSome;
    MemberFacts(b, color0, marked, rings, x);
    if y !in marked {
      OutsideAnchors(b.g, b.count, b.elsewhere, marked, y, x);
      ReachesSelf(b.g, x);
    } else if Anchored(b.g, b.count, marked, y) {
      var m :| m in marked && m < |b.count| && b.count[m] > In(b.g, marked, m) && Reaches(b.g, m, y);
      ReachesStep(b.g, m, y, x);
    }
  }

  lemma PendingFromLater(b: Books, color0: seq<Color>, marked: set<nat>, rings: seq<seq<nat>>)
    requires Detected(b, color0, marked, rings)
    ensures FromLater(b.g, b.Holders(), rings)
  {
    forall k, x, y | 0 <= k < |rings| && x in rings[k] && y in b.Holders() && y < |b.g| && x in b.g[y]
      ensures InSome(rings[k..], y)
    {
      assert InSome(rings, x);
      ReferrerPends(b, color0, marked, rings, x, y);
      var j :| 0 <= j < |rings| && y in rings[j];
      assert InSome(rings[..j + 1], x);
      var i :| 0 <= i < |rings[..j + 1]| && x in rings[..j + 1][i];
      assert rings[..j + 1][i] == rings[i];
      assert i == k;
      assert rings[k..][j - k] == rings[j];
    }
  }

  /** Whatever is in no cycle is referred to from outside them. */
  lemma KeptOne(b: Books, color0: seq<Color>, marked: set<nat>, rings: seq<seq<nat>>, held: set<nat>, x: nat)
    requires Detected(b, color0, marked, rings) && x in b.Holders() && b.count[x] > 0 && !InSome(rings, x)
    requires forall y :: y in held ==> InSome(rings, y)
    ensures b.elsewhere[x] + In(b.g, b.Holders() - held, x) > 0
  {
    hide LaterToEarlier, Outside, Disjoint, InSome;
    if b.elsewhere[x] == 0 {
      var y := FreeReferrer(b, color0, marked, rings, x);
      assert y in b.Holders() - held;
      InPositive(b.g, b.Holders() - held, x);
    }
  }

  lemma FreeReferrer(b: Books, color0: seq<Color>, marked: set<nat>, rings: seq<seq<nat>>, x: nat) returns (y: nat)
    requires Detected(b, color0, marked, rings) && x in b.Holders() && b.count[x] > 0 && !InSome(rings, x)
    requires b.elsewhere[x] == 0
    ensures y < |b.g| && x in b.g[y] && b.typed[y] && !InSome(rings, y)
  {
    hide LaterToEarlier, Outside, Disjoint, InSome;
    if x !in marked {
      InPositive(b.g, Objects(b.g), x);
      y :| y in Objects(b.g) && y < |b.g| && x in b.g[y];
    } else {
      var m :| m in marked && m < |b.count| && b.count[m] > In(b.g, marked, m) && Reaches(b.g, m, x);
      var p :| IsPath(b.g, p, m, x);
      if |p| == 1 {
        var others := Objects(b.g) - marked;
        assert Objects(b.g) == marked + others;
        InUnion(b.g, marked, others, x);
        InPositive(b.g, others, x);
        y :| y in others && y < |b.g| && x in b.g[y];
      } else {
        y := p[|p| - 2];
        assert IsPath(b.g, p[..|p| - 1], m, y);
        assert Reaches(b.g, m, y);
        SealedHolds(b.g, marked, m, y);
      }
    }
  }

  lemma PendingIntact(b: Books, color0: seq<Color>, marked: set<nat>, rings: seq<seq<nat>>)
    requires Detected(b, color0, marked, rings)
    requires forall x :: x in b.Holders() ==> b.count[x] > 0
    ensures Intact(b, rings, Pendings(rings, |b.g|))
  {
    PendingUntouchable(b, color0, marked, rings);
    PendingFromLater(b, color0, marked, rings);
    var held := Pendings(rings, |b.g|);
    forall x | x in b.Holders() - held
      ensures b.elsewhere[x] + In(b.g, b.Holders() - held, x) > 0
    {
      KeptOne(b, color0, marked, rings, held, x);
    }
  }

  // ----- The pass -----

  ghost predicate Pended(h: Heap, next0: seq<int>, c0: seq<Color>, cs: seq<nat>, marked: set<nat>, rings: seq<seq<nat>>)
    reads h
  {
    && h.Shaped() && |c0| == |h.g| && IsMarked(h.g, c0, cs, marked) && Found(h.g, h.count, c0, h.color, marked, rings)
    && LaterToEarlier(h.g, rings) && Outside(h.g, h.cyclic, h.count, rings)
    && Relinked(h, next0, cs, rings) && h.previous[|h.g|] == |h.g|
  }

  lemma IsDetected(h: Heap, b0: Books, next0: seq<int>, cs: seq<nat>, marked: set<nat>, rings: seq<seq<nat>>,
                   b: Books)
    requires Still(b0) && b0.reds == {} && b0.base == Zeros(|b0.g|) && Bare(b0.g, b0.typed)
    requires h.Shaped() && h.g == b0.g && h.typed == b0.typed && h.count == b0.count
    requires Pended(h, next0, b0.color, cs, marked, rings)
    requires forall r :: r in cs ==> r < |b0.g| && b0.typed[r]
    requires b == b0.(color := h.color, cyclic := h.cyclic, home := HomesOf(rings, |b0.g|))
    ensures Detected(b, b0.color, marked, rings)
  {
    hide Found, LaterToEarlier, Outside, Disjoint, Still;
    MarkedLives(b0, b0.color, cs, marked);
    LivingSealed(b0);
    Exactly(b0, b0.Holders());
    StillSized(b0);
    assert b.Holders() == b0.Holders();
    RelinkedDisjoint(h, next0, cs, rings);
  }

  lemma StillSized(b: Books)
    requires Still(b)
    ensures b.Sized()
  {
  }

  lemma RelinkedDisjoint(h: Heap, next0: seq<int>, cs: seq<nat>, rings: seq<seq<nat>>)
    requires Relinked(h, next0, cs, rings)
    ensures Disjoint(rings)
  {
  }

  lemma {:induction false} PendingRing(top: int, nextCycle: seq<int>, next: seq<int>, rings: seq<seq<nat>>, k: nat)
    requires Pending(top, nextCycle, next, rings) && k < |rings|
    ensures Ring(next, rings[k])
    decreases rings
  {
    var n := |rings| - 1;
    if k < n {
      PendingRing(nextCycle[top], nextCycle, next, rings[..n], k);
    }
  }

  lemma PendingLinked(top: int, nextCycle: seq<int>, next: seq<int>, rings: seq<seq<nat>>, x: nat)
    requires Pending(top, nextCycle, next, rings) && InSome(rings, x)
    ensures x < |next| && next[x] != NIL
  {
    var k :| 0 <= k < |rings| && x in rings[k];
    PendingRing(top, nextCycle, next, rings, k);
    var i :| 0 <= i < |rings[k]| && rings[k][i] == x;
    RingNext(next, rings[k], i);
  }

  /** The state in which the detection starts. */
  ghost predicate Ready(b0: Books, next0: seq<int>, previous0: seq<int>, freed: set<nat>, cs: seq<nat>) {
    && Still(b0) && b0.reds == {} && b0.base == Zeros(|b0.g|) && Bare(b0.g, b0.typed)
    && Lists(|b0.g|, next0, previous0, b0.typed, freed, cs, {}, {})
    && Lively(b0.count, b0.typed, {}, {}) && Oranges(b0.color, b0.typed, {})
  }

  lemma ClearIsReady(h: Heap, c: Context, cs: seq<nat>)
    requires Clear(h, c, cs)
    ensures Ready(BooksOf(h, c), h.next, h.previous, h.freed, cs)
  {
    hide Still, Lists, Lively, Oranges;
    assert c.held + c.garb == {};
  }

  lemma PendedLists(h: Heap, b0: Books, next0: seq<int>, previous0: seq<int>, freed: set<nat>, cs: seq<nat>,
                    marked: set<nat>, rings: seq<seq<nat>>)
    requires Ready(b0, next0, previous0, freed, cs) && Pended(h, next0, b0.color, cs, marked, rings)
    requires h.g == b0.g && h.typed == b0.typed && marked <= b0.Holders()
    ensures Lists(|h.g|, h.next, h.previous, h.typed, freed, [], Pendings(rings, |h.g|), {})
  {
    hide Still, Lively, Oranges, Lists, LaterToEarlier, Outside;
    forall x: nat | InSome(rings, x)
      ensures x < |h.g| && h.typed[x] && h.next[x] != NIL && h.previous[x] == NIL
    {
      assert x in marked && x in b0.Holders();
      PendingLinked(h.cycles, h.nextCycle, h.next, rings, x);
    }
    hide InSome;
    PendingRoles(|h.g|, next0, previous0, h.next, h.previous, h.typed, freed, cs, rings);
  }

  lemma PendedColors(h: Heap, b0: Books, next0: seq<int>, cs: seq<nat>, marked: set<nat>, rings: seq<seq<nat>>)
    requires Oranges(b0.color, b0.typed, {}) && Lively(b0.count, b0.typed, {}, {})
    requires Pended(h, next0, b0.color, cs, marked, rings)
    requires h.g == b0.g && h.typed == b0.typed && h.count == b0.count
    ensures Oranges(h.color, h.typed, Pendings(rings, |h.g|)) && Lively(h.count, h.typed, Pendings(rings, |h.g|), {})
  {
    hide LaterToEarlier, Outside, InSome;
  }

  lemma PendedBooks(h: Heap, b0: Books, b: Books, next0: seq<int>, previous0: seq<int>, freed: set<nat>, cs: seq<nat>,
                    marked: set<nat>, rings: seq<seq<nat>>)
    requires Ready(b0, next0, previous0, freed, cs) && Pended(h, next0, b0.color, cs, marked, rings)
    requires h.g == b0.g && h.typed == b0.typed && h.count == b0.count
    requires b == b0.(color := h.color, cyclic := h.cyclic, home := HomesOf(rings, |b0.g|))
    ensures Still(b) && Intact(b, rings, Pendings(rings, |b.g|)) && marked <= b0.Holders()
    ensures Detected(b, b0.color, marked, rings)
  {
    hide Pended, Lists, Intact, Detected;
    PendedQueue(h, next0, b0.color, cs, marked, rings);
    CandidatesTyped(b0, next0, previous0, freed, cs);
    IsDetected(h, b0, next0, cs, marked, rings, b);
    DetectedHolders(b, b0.color, marked, rings);
    PendingStill(b0, b, marked, rings);
    PendingIntact(b, b0.color, marked, rings);
  }

  lemma DetectedHolders(b: Books, color0: seq<Color>, marked: set<nat>, rings: seq<seq<nat>>)
    requires Detected(b, color0, marked, rings)
    ensures marked <= b.Holders() && b.Sized()
  {
  }

  lemma CandidatesTyped(b0: Books, next0: seq<int>, previous0: seq<int>, freed: set<nat>, cs: seq<nat>)
    requires Lists(|b0.g|, next0, previous0, b0.typed, freed, cs, {}, {})
    ensures forall r :: r in cs ==> r < |b0.g| && b0.typed[r]
  {
  }

  lemma PendedQueue(h: Heap, next0: seq<int>, c0: seq<Color>, cs: seq<nat>, marked: set<nat>, rings: seq<seq<nat>>)
    requires Pended(h, next0, c0, cs, marked, rings)
    ensures Homes(HomesOf(rings, |h.g|)) && h.Shaped() && h.Stacked([])
    ensures Queue(h.cycles, h.nextCycle, h.next, rings, HomesOf(rings, |h.g|), Pendings(rings, |h.g|))
  {
    hide LaterToEarlier, Outside, Found, Pending;
    HomesHold(rings, |h.g|);
  }

  /** What the detection leaves is what the next drain asks for. */
  lemma PendedDrainable(h: Heap, c: Context, b0: Books, next0: seq<int>, previous0: seq<int>, cs: seq<nat>,
                        marked: set<nat>, rings: seq<seq<nat>>)
    requires Ready(b0, next0, previous0, h.freed, cs) && Pended(h, next0, b0.color, cs, marked, rings)
    requires h.g == b0.g && h.typed == b0.typed && h.count == b0.count
    requires c.held == {} && c.garb == {} && c.reds == {} && c.base == Zeros(|c.base|)
    requires b0.elsewhere == c.elsewhere && b0.base == c.base
    ensures
      var c' := Awaiting(c, rings, |h.g|);
      && Drainable(h, c', [], rings, NIL, []) && Intact(BooksOf(h, c'), rings, c'.held)
      && Detected(BooksOf(h, c'), b0.color, marked, rings)
  {
    hide Pended, Still, Lists, Lively, Oranges, Queue, Homes, Intact, Detected, Zeros;
    var c' := Awaiting(c, rings, |h.g|);
    PendedQueue(h, next0, b0.color, cs, marked, rings);
    PendedBooks(h, b0, BooksOf(h, c'), next0, previous0, h.freed, cs, marked, rings);
    PendedLists(h, b0, next0, previous0, h.freed, cs, marked, rings);
    PendedColors(h, b0, next0, cs, marked, rings);
    StillSized(BooksOf(h, c'));
    assert c'.held + c'.garb == c'.held;
    assert Set([]) == {};
  }

  lemma ClearFacts(h: Heap, c: Context, cs: seq<nat>)
    requires Clear(h, c, cs)
    ensures c.held == {} && c.garb == {} && c.reds == {} && c.base == Zeros(|c.base|) && Homes(c.home) && h.cycles == NIL
    ensures BooksOf(h, c).Sized() && |h.previous| == |h.next| == |h.g| + 1
  {
  }

  /** Nothing in use reaches a member of a cycle. */
  ghost predicate Garbage(g: Graph, elsewhere: seq<nat>, rings: seq<seq<nat>>) {
    forall r: nat, x: nat :: r < |g| && r < |elsewhere| && elsewhere[r] > 0 && InSome(rings, x) ==> !Reaches(g, r, x)
  }

  lemma NoGarbage(g: Graph, elsewhere: seq<nat>)
    ensures Garbage(g, elsewhere, [])
  {
    assert forall x: nat :: !InSome([], x);
  }

  lemma PendedMeans(b: Books, color0: seq<Color>, marked: set<nat>, rings: seq<seq<nat>>)
    requires Detected(b, color0, marked, rings)
    ensures Sorted(b.g, b.elsewhere, marked, rings, Pendings(rings, |b.g|))
    ensures Garbage(b.g, b.elsewhere, rings)
  {
    hide Reaches, InSome;
    forall x: nat | InSome(rings, x)
      ensures x in marked && x < |b.g|
    {
      MemberFacts(b, color0, marked, rings, x);
    }
    forall x | x in marked
      ensures InSome(rings, x) <==> Unused(b.g, b.elsewhere, marked, x)
    {
      GarbageExactly(b.g, b.count, b.elsewhere, color0, b.color, marked, rings, x);
    }
    forall r: nat, x: nat | r < |b.g| && b.elsewhere[r] > 0 && InSome(rings, x)
      ensures !Reaches(b.g, r, x)
    {
      MemberFacts(b, color0, marked, rings, x);
      assert Unused(b.g, b.elsewhere, marked, x);
    }
  }

  /** Nothing that is unmarked or referred to from elsewhere reaches `x`. */
  ghost predicate Unused(g: Graph, elsewhere: seq<nat>, marked: set<nat>, x: nat) {
    forall r: nat :: r < |g| && r < |elsewhere| && (elsewhere[r] > 0 || r !in marked) ==> !Reaches(g, r, x)
  }

  /** The part of t_engine::f_collector that looks for garbage cycles. */
  method Detect(h: Heap, ghost c: Context, ghost cs: seq<nat>)
      returns (ghost c': Context, ghost marked: set<nat>, ghost rings: seq<seq<nat>>)
    requires Clear(h, c, cs) && cs != []
    modifies h`color, h`cyclic, h`next, h`previous, h`scan, h`scanStack, h`nextCycle, h`cycles
    ensures c' == Awaiting(c, rings, |h.g|) && Drainable(h, c', [], rings, NIL, [])
    ensures Intact(BooksOf(h, c'), rings, c'.held)
    ensures IsMarked(h.g, old(h.color), cs, marked)
    ensures Sorted(h.g, c.elsewhere, marked, rings, c'.held) && Garbage(h.g, c.elsewhere, rings)
  {
    hide Garbage, Clear, Ready, Relinked, Found, LaterToEarlier, Outside, IsMarked, Drainable, Intact, Unused, Detected, InSome,
      Covered, Zeros, Still, Listing;
    ClearReady(h, c, cs);
    ClearIsReady(h, c, cs);
    ClearFacts(h, c, cs);
    ghost var b0, next0, previous0 := BooksOf(h, c), h.next, h.previous;
    marked, rings := FindCycles(h, cs);
    c' := Awaiting(c, rings, |h.g|);
    PendedDrainable(h, c, b0, next0, previous0, cs, marked, rings);
    PendedMeans(BooksOf(h, c'), b0.color, marked, rings);
  }

  /** When no detection is due, nothing is pending. */
  lemma RestDrainable(h: Heap, c: Context, cs: seq<nat>)
    requires Clear(h, c, cs)
    ensures Drainable(h, c, cs, [], NIL, []) && Intact(BooksOf(h, c), [], {})
  {
    ClearIsReady(h, c, cs);
    RestKept(BooksOf(h, c));
    assert Set([]) == {};
  }

  lemma RestKept(b: Books)
    requires Still(b) && b.reds == {} && b.base == Zeros(|b.g|) && Lively(b.count, b.typed, {}, {})
    ensures Intact(b, [], {})
  {
    forall x | x in b.Holders() - {}
      ensures b.elsewhere[x] + In(b.g, b.Holders() - {}, x) > 0
    {
      assert b.Holders() - {} == b.Holders() && x in b.Others();
    }
  }

  lemma NothingInUse(b: Books)
    requires Still(b) && b.reds == {}
    ensures forall r: nat, x: nat :: r < |b.g| && b.elsewhere[r] > 0 && Reaches(b.g, r, x) ==> x < |b.g| && b.typed[x]
  {
    forall r: nat, x: nat | r < |b.g| && b.elsewhere[r] > 0 && Reaches(b.g, r, x)
      ensures x < |b.g| && b.typed[x]
    {
      LiveRemain(b, r, x);
    }
  }

  /** All that a candidate reaches, when one has been found; nothing otherwise. */
  ghost predicate Suspects(g: Graph, color: seq<Color>, cs: seq<nat>, due: bool, marked: set<nat>) {
    if due && cs != [] then IsMarked(g, color, cs, marked) else marked == {}
  }

  ghost predicate Sorted(g: Graph, elsewhere: seq<nat>, marked: set<nat>, rings: seq<seq<nat>>, held: set<nat>) {
    && (forall x: nat :: x in held <==> InSome(rings, x)) && held <= marked
    && forall x: nat :: x in marked ==> (InSome(rings, x) <==> Unused(g, elsewhere, marked, x))
  }

  /** One pass of t_engine::f_collector after the queues have been applied: any
      number of passes can follow one another. Whatever is in use survives; the
      cycles found by the previous pass are freed, and nothing else is, if nothing
      has changed since; and of what the candidates reach, exactly the unused is left
      for the next pass. `due` says whether a detection is to be made; `color` and
      `cs1` are the colors and the candidates when it is. */
  method Pass(h: Heap, due: bool, ghost c0: Context, ghost cs0: seq<nat>, ghost rings0: seq<seq<nat>>)
      returns (ghost c: Context, ghost cs: seq<nat>, ghost rings: seq<seq<nat>>, ghost marked: set<nat>,
               ghost color: seq<Color>, ghost cs1: seq<nat>)
    requires Drainable(h, c0, cs0, rings0, NIL, [])
    modifies h
    ensures Drainable(h, c, cs, rings, NIL, []) && Intact(BooksOf(h, c), rings, c.held) && c.elsewhere == c0.elsewhere
    ensures |h.typed| == |old(h.g)| == |c.elsewhere| && h.g == Pruned(old(h.g), h.typed)
    ensures Garbage(h.g, c.elsewhere, rings)
    ensures forall r: nat, x: nat :: r < |old(h.g)| && c0.elsewhere[r] > 0 && Reaches(old(h.g), r, x) ==>
      x < |h.typed| && h.typed[x]
    ensures old(Intact(BooksOf(h, c0), rings0, c0.held)) ==> Typed(h.typed) == Typed(old(h.typed)) - c0.held
    ensures Suspects(h.g, color, cs1, due, marked) && Sorted(h.g, c.elsewhere, marked, rings, c.held)
    ensures rings0 == [] ==> color == old(h.color) && cs1 == cs0 && h.typed == old(h.typed)
  {
    hide Still, Drainable, Intact, Typed, Calm, Zeros, Reaches, InSome, IsMarked, Unused, Clear, Pruned, Garbage, Sorted;
    DrainableFacts(h, c0, cs0, rings0, NIL, []);
    DrainableHomes(h, c0, cs0, rings0, NIL, []);
    c, cs := DrainCycles(h, c0, cs0, rings0);
    CalmStill(h, c, cs);
    CalmSized(h, c, cs);
    NothingInUse(BooksOf(h, c));
    Prune(h, c, cs);
    rings, marked, color, cs1 := [], {}, h.color, cs;
    NoGarbage(h.g, c.elsewhere);
    RestDrainable(h, c, cs);
    ClearReady(h, c, cs);
    ListEnd(h.next, |h.g|, cs);
    ClearFacts(h, c, cs);
    NoneSorted(h.g, c.elsewhere);
    if h.next[|h.g|] != |h.g| && due {
      c, marked, rings := Detect(h, c, cs);
      cs := [];
    }
  }

  lemma NoneSorted(g: Graph, elsewhere: seq<nat>)
    ensures Sorted(g, elsewhere, {}, [], {})
  {
  }

  lemma ListEnd(next: seq<int>, n: nat, cs: seq<nat>)
    requires Listing(next, n, cs)
    ensures n < |next| && (next[n] == n <==> cs == [])
  {
  }

  lemma DrainableHomes(h: Heap, c: Context, cs: seq<nat>, rings: seq<seq<nat>>, garbage: int, gs: seq<nat>)
    requires Drainable(h, c, cs, rings, garbage, gs)
    ensures Homes(c.home) && BooksOf(h, c).Sized()
  {
  }

  /** Two passes on a heap that does not change between them, nothing pending before:
      of all that is reached from the candidates, exactly what is unused is freed, and
      nothing else. */
  method TwoPasses(h: Heap, due: bool, ghost c0: Context, ghost cs0: seq<nat>)
      returns (ghost c: Context, ghost cs: seq<nat>, ghost rings: seq<seq<nat>>, ghost marked: set<nat>)
    requires Drainable(h, c0, cs0, [], NIL, []) && Intact(BooksOf(h, c0), [], {}) && cs0 != []
    modifies h
    ensures Drainable(h, c, cs, rings, NIL, []) && |old(h.g)| == |old(h.typed)| == |h.typed|
    ensures
      var g := Pruned(old(h.g), old(h.typed));
      && IsMarked(g, old(h.color), cs0, marked)
      && Typed(h.typed) == Typed(old(h.typed)) - (set x | x in marked && Unused(g, c0.elsewhere, marked, x))
  {
    hide Drainable, Intact, Typed, Unused, IsMarked, InSome, Pruned, Reaches, Garbage;
    DrainableHomes(h, c0, cs0, [], NIL, []);
    DrainableFacts(h, c0, cs0, [], NIL, []);
    ghost var typed0 := h.typed;
    ghost var color, cs1, rings1, rest;
    c, cs, rings1, marked, color, cs1 := Pass(h, true, c0, cs0, []);
    ghost var held := c.held;
    c, cs, rings, rest, color, cs1 := Pass(h, due, c, cs, rings1);
    assert held == set x | x in marked && Unused(Pruned(old(h.g), typed0), c0.elsewhere, marked, x);
  }
}
