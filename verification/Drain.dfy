/** The drain of the pending cycles at the start of a collector pass. */
module Drain {
  import opened ObjectGraph
  import opened ObjectHeap
  import opened LinkedLists
  import opened Detaching
  import opened Collecting
  import opened Accounts
  import opened ReleaseLists
  import opened Releasing
  import opened Draining
  import opened Refurbishing

  /** `rings` are the pending cycles, the latest last; `held` are their members. */
  ghost predicate Queue(cycles: int, nextCycle: seq<int>, next: seq<int>, rings: seq<seq<nat>>, home: seq<set<nat>>,
                        held: set<nat>)
  {
    && Pending(cycles, nextCycle, next, rings) && Disjoint(rings)
    && (forall k, x :: 0 <= k < |rings| && x in rings[k] ==> x in held && x < |home| && home[x] == Set(rings[k]))
    && forall x :: x in held ==> InSome(rings, x)
  }

  lemma QueueTop(cycles: int, nextCycle: seq<int>, next: seq<int>, rings: seq<seq<nat>>, home: seq<set<nat>>,
                 held: set<nat>)
    requires Queue(cycles, nextCycle, next, rings, home, held) && rings != []
    ensures
      var ring := rings[|rings| - 1];
      && Ring(next, ring) && cycles == ring[0] < |nextCycle| && Set(ring) <= held
      && (forall x :: x in ring ==> x < |home| && home[x] == Set(ring))
  {
    var ring := rings[|rings| - 1];
    forall x | x in ring
      ensures x in held && x < |home| && home[x] == Set(ring)
    {
    }
  }

  lemma {:induction false} PendingSame(top: int, nextCycle: seq<int>, next: seq<int>, next': seq<int>,
                                       rings: seq<seq<nat>>)
    requires Pending(top, nextCycle, next, rings) && |next| == |next'|
    requires forall k, y :: 0 <= k < |rings| && y in rings[k] && y < |next| ==> next'[y] == next[y]
    ensures Pending(top, nextCycle, next', rings)
    decreases rings
  {
    if rings != [] {
      var n := |rings| - 1;
      PendingSame(nextCycle[top], nextCycle, next, next', rings[..n]);
      RingFrame(next, next', rings[n]);
    }
  }

  /** The queue without its top, when only the links of the top have changed. */
  lemma QueueRest(cycles: int, nextCycle: seq<int>, next: seq<int>, next': seq<int>, rings: seq<seq<nat>>,
                  home: seq<set<nat>>, held: set<nat>)
    requires Queue(cycles, nextCycle, next, rings, home, held) && rings != [] && |next| == |next'|
    requires forall x: nat :: x in held - Set(rings[|rings| - 1]) && x < |next| ==> next'[x] == next[x]
    requires 0 <= cycles < |nextCycle|
    ensures Queue(nextCycle[cycles], nextCycle, next', rings[..|rings| - 1], home, held - Set(rings[|rings| - 1]))
  {
    var n := |rings| - 1;
    var rest := rings[..n];
    forall k, x | 0 <= k < n && x in rest[k]
      ensures x in held - Set(rings[n]) && home[x] == Set(rest[k]) && x < |home|
    {
      assert x in rings[k];
    }
    PendingSame(nextCycle[cycles], nextCycle, next, next', rest);
    forall x | x in held - Set(rings[n])
      ensures InSome(rest, x)
    {
      assert rest + [rings[n]] == rings;
      InSomeMore(rest, rings[n]);
    }
    assert Disjoint(rest);
  }

  /** Everything the drain relies on between two cycles. */
  ghost predicate Drainable(h: Heap, c: Context, cs: seq<nat>, rings: seq<seq<nat>>, garbage: int, gs: seq<nat>)
    reads h
  {
    && Calm(h, c, cs) && c.reds == {} && c.base == Zeros(|c.base|) && Homes(c.home)
    && Heaped(h, garbage, gs, c)
    && Queue(h.cycles, h.nextCycle, h.next, rings, c.home, c.held)
  }

  /** What handling the top cycle has to establish. */
  ghost predicate Handled(h: Heap, c: Context, c': Context, cs': seq<nat>, ring: seq<nat>, garbage: int, gs: seq<nat>,
                          next0: seq<int>)
    reads h
  {
    && Calm(h, c', cs') && Heaped(h, garbage, gs, c')
    && c' == c.(held := c.held - Set(ring), garb := c'.garb)
    && |next0| == |h.next| && forall x: nat :: x in c.held - Set(ring) && x < |next0| ==> h.next[x] == next0[x]
  }

  lemma HandledQueue(h: Heap, c: Context, c': Context, cs': seq<nat>, rings: seq<seq<nat>>, garbage: int, gs: seq<nat>,
                     next0: seq<int>, cycles0: int)
    requires rings != [] && Handled(h, c, c', cs', rings[|rings| - 1], garbage, gs, next0)
    requires c.reds == {} && c.base == Zeros(|c.base|) && Homes(c.home)
    requires Queue(cycles0, h.nextCycle, next0, rings, c.home, c.held) && 0 <= cycles0 < |h.nextCycle|
    requires h.cycles == h.nextCycle[cycles0]
    ensures Drainable(h, c', cs', rings[..|rings| - 1], garbage, gs)
  {
    QueueRest(cycles0, h.nextCycle, next0, h.next, rings, c.home, c.held);
  }

  /** The members that are left pass when none of them is bad. */
  lemma AllPass(h: Heap, c: Context, cs: seq<nat>, d: Context, ring: seq<nat>, ring': seq<nat>)
    requires Calm(h, d, cs) && d == Less(c, Dead(ring, h.typed)) && Tested(h, ring, ring', false)
    requires forall x :: x in ring ==> x < |c.home| && c.home[x] == Set(ring)
    ensures BooksOf(h, d).Sized() && Passes(BooksOf(h, d), Set(ring'))
  {
    var b := BooksOf(h, d);
    forall x | x in ring'
      ensures x in b.Holders() && b.color[x] == ORANGE && b.cyclic[x] == 0 && b.home[x] * b.Holders() == Set(ring')
    {
      assert !Bad(h.color, h.cyclic, x);
      assert c.home[x] == Set(ring);
    }
  }

  lemma LessDead(h: Heap, c: Context, ring: seq<nat>, ring': seq<nat>, failed: bool)
    requires Tested(h, ring, ring', failed) && Set(ring) <= c.held
    requires forall x :: x in ring ==> x < |h.typed|
    ensures Set(ring') <= Less(c, Dead(ring, h.typed)).held
    ensures Less(c, Dead(ring, h.typed)).held - Set(ring') == c.held - Set(ring)
    ensures forall x :: x in ring' ==> x < |h.typed| && h.typed[x]
    ensures ring' == [] ==> Less(c, Dead(ring, h.typed)).held == c.held - Set(ring)
  {
    assert forall x :: x in ring ==> (x in ring' <==> h.typed[x]);
  }

  lemma GarbApart(h: Heap, c: Context, cs: seq<nat>)
    requires Calm(h, c, cs)
    ensures h.Shaped() && c.held !! c.garb && forall x :: x in c.held ==> x < |h.g|
  {
  }

  /** The test leaves the garbage list and the links of other cycles alone. */
  lemma TestFrame(next0: seq<int>, next: seq<int>, ring: seq<nat>, held: set<nat>, garb: set<nat>, garbage: int,
                  gs: seq<nat>)
    requires Inside(ring, next0, next) && Set(ring) <= held && held !! garb && Chain(garbage, next0, gs) && garb == Set(gs)
    ensures Chain(garbage, next, gs)
    ensures forall x: nat :: x in held - Set(ring) && x < |next0| ==> next[x] == next0[x]
  {
    assert forall x :: x in ring ==> x in Set(ring);
    assert forall x :: x in gs ==> x in Set(gs);
    ChainSame(garbage, next0, next, gs);
  }

  lemma HandledNone(h: Heap, c: Context, cs: seq<nat>, ring: seq<nat>, failed: bool, cycle: int, garbage: int,
                    gs: seq<nat>, next0: seq<int>)
    requires Outcome(h, ring, [], failed, cycle, c, cs, next0) && Set(ring) <= c.held && c.held !! c.garb
    requires Chain(garbage, next0, gs) && c.garb == Set(gs) && forall x :: x in ring ==> x < |h.typed|
    ensures Handled(h, c, Less(c, Dead(ring, h.typed)), cs, ring, garbage, gs, next0)
  {
    hide Calm;
    LessDead(h, c, ring, [], failed);
    TestFrame(next0, h.next, ring, c.held, c.garb, garbage, gs);
  }

  lemma HandledApart(h: Heap, c: Context, d: Context, d': Context, cs': seq<nat>, ring: seq<nat>, ring': seq<nat>,
                     garbage: int, gs: seq<nat>, next0: seq<int>, next1: seq<int>, previous1: seq<int>)
    requires Dismantling(h, ring', |ring'|, d, d', cs', gs, garbage, next1, previous1)
    requires d == c.(held := d.held) && d.held - Set(ring') == c.held - Set(ring)
    requires |next0| == |next1| && forall x: nat :: x in c.held - Set(ring) && x < |next0| ==> next1[x] == next0[x]
    ensures Handled(h, c, d', cs', ring, garbage, gs, next0)
  {
    hide Calm;
    assert ring'[..|ring'|] == ring';
  }

  lemma HandledFreed(h: Heap, c: Context, d: Context, cs': seq<nat>, ring: seq<nat>, ring': seq<nat>,
                     garbage: int, gs: seq<nat>, next0: seq<int>, next1: seq<int>, previous1: seq<int>)
    requires Calm(h, d.(held := d.held - Set(ring')), cs') && Untouched(d.held + d.garb, next1, h.next, previous1, h.previous)
    requires d == c.(held := d.held) && d.held - Set(ring') == c.held - Set(ring)
    requires |next0| == |next1| && forall x: nat :: x in c.held - Set(ring) && x < |next0| ==> next1[x] == next0[x]
    requires Chain(garbage, next1, gs) && c.garb == Set(gs)
    ensures Handled(h, c, d.(held := d.held - Set(ring')), cs', ring, garbage, gs, next0)
  {
    hide Calm;
    assert forall x :: x in gs ==> x in Set(gs);
    ChainSame(garbage, next1, h.next, gs);
    forall x: nat | x in c.held - Set(ring) && x < |next0|
      ensures h.next[x] == next0[x]
    {
      assert x in d.held;
    }
  }

  /** All the members are as they were when the cycle was found, and nothing
      outside refers to them. */
  ghost predicate Sound(typed: seq<bool>, color: seq<Color>, cyclic: seq<nat>, ring: seq<nat>) {
    && |typed| == |color| == |cyclic|
    && forall x :: x in ring ==> x < |typed| && typed[x] && color[x] == ORANGE && cyclic[x] == 0
  }

  /** Such a cycle passes whole. */
  lemma SoundTest(h: Heap, c: Context, ring: seq<nat>, ring': seq<nat>, failed: bool)
    requires Tested(h, ring, ring', failed) && Sound(h.typed, h.color, h.cyclic, ring) && ring != []
    ensures !failed && Set(ring') == Set(ring) && ring' != [] && Less(c, Dead(ring, h.typed)) == c
  {
    assert ring[0] in ring && ring[0] in ring';
    assert Dead(ring, h.typed) == {};
    LessMore(c, {}, 0);
  }

  /** Tests the cycle that starts at `cycle0`, and frees it or takes it apart. */
  method HandleTop(h: Heap, cycle0: nat, garbage0: int, ghost gs0: seq<nat>, ghost c: Context, ghost cs0: seq<nat>,
                   ghost ring: seq<nat>)
      returns (garbage: int, ghost gs: seq<nat>, ghost c': Context, ghost cs: seq<nat>)
    requires Calm(h, c, cs0) && c.reds == {} && c.base == Zeros(|c.base|) && Homes(c.home) && Heaped(h, garbage0, gs0, c)
    requires Ring(h.next, ring) && cycle0 == ring[0] && Set(ring) <= c.held
    requires forall x :: x in ring ==> x < |c.home| && c.home[x] == Set(ring)
    modifies h`count, h`color, h`cyclic, h`next, h`previous, h`scan, h`scanStack, h`typed, h`freed
    ensures Handled(h, c, c', cs, ring, garbage, gs, old(h.next))
    ensures old(Sound(h.typed, h.color, h.cyclic, ring) && Backed(BooksOf(h, c), Set(ring))) ==>
      garbage == garbage0 && gs == gs0 && c'.garb == c.garb && Only(Set(ring), old(h.typed), h.typed, old(h.color), h.color)
  {
    hide Calm, Homes, Zeros, Untouched, Ring, Chain, Set, Inside, Handled, Dead, Passes, Sound, Backed, Only;
    CalmSized(h, c, cs0);
    RingSome(h.next, ring);
    ghost var sound := Sound(h.typed, h.color, h.cyclic, ring);
    garbage, gs, cs := garbage0, gs0, cs0;
    GarbApart(h, c, cs0);
    RingTyped(ring, c.held, |h.g|);
    ghost var next0 := h.next;
    var failed, cycle;
    ghost var ring';
    failed, cycle, ring' := TestCycle(h, cycle0, ring, c, cs0);
    ghost var d := Less(c, Dead(ring, h.typed));
    c' := d;
    if sound {
      SoundTest(h, c, ring, ring', failed);
    }
    if cycle == NIL {
      HandledNone(h, c, cs0, ring, failed, cycle, garbage0, gs0, next0);
      return;
    }
    TestFrame(next0, h.next, ring, c.held, c.garb, garbage0, gs0);
    LessDead(h, c, ring, ring', failed);
    ghost var next1, previous1 := h.next, h.previous;
    if failed {
      garbage, gs, cs, c' := TakeApart(h, cycle, garbage0, ring', gs0, d, cs0);
      HandledApart(h, c, d, c', cs, ring, ring', garbage, gs, next0, next1, previous1);
    } else {
      AllPass(h, c, cs0, d, ring, ring');
      cs := FreeCycle(h, cycle, ring', d, cs0);
      c' := d.(held := d.held - Set(ring'));
      HandledFreed(h, c, d, cs, ring, ring', garbage, gs, next0, next1, previous1);
    }
  }

  lemma RingSome(next: seq<int>, ring: seq<nat>)
    requires Ring(next, ring)
    ensures ring != []
  {
  }

  lemma RingTyped(ring: seq<nat>, held: set<nat>, n: nat)
    requires Set(ring) <= held && forall x :: x in held ==> x < n
    ensures forall x :: x in ring ==> x < n
  {
    assert forall x :: x in ring ==> x in Set(ring);
  }

  // ----- A graph that has not changed since the detection -----

  /** The pending cycles are as they were found, references to a member come from
      its own cycle or a later one, and everything else has a reference that is
      not from a pending cycle. */
  ghost predicate Intact(b: Books, rings: seq<seq<nat>>, held: set<nat>) {
    && b.Sized() && Untouchable(b, rings) && FromLater(b.g, b.Holders(), rings) && Kept(b, held)
  }

  ghost predicate Untouchable(b: Books, rings: seq<seq<nat>>)
    requires b.Sized()
  {
    forall k, x :: 0 <= k < |rings| && x in rings[k] ==>
      x < |b.g| && b.typed[x] && b.color[x] == ORANGE && b.elsewhere[x] == 0
  }

  ghost predicate FromLater(g: Graph, holders: set<nat>, rings: seq<seq<nat>>) {
    forall k, x, y :: 0 <= k < |rings| && x in rings[k] && y in holders && y < |g| && x in g[y] ==> InSome(rings[k..], y)
  }

  ghost predicate Kept(b: Books, held: set<nat>)
    requires b.Sized()
  {
    forall x :: x in b.Holders() - held ==> b.elsewhere[x] + In(b.g, b.Holders() - held, x) > 0
  }

  lemma TopAlone(b: Books, rings: seq<seq<nat>>, x: nat)
    requires b.Sized() && FromLater(b.g, b.Holders(), rings) && rings != [] && x in rings[|rings| - 1]
    ensures In(b.g, b.Holders() - Set(rings[|rings| - 1]), x) == 0
  {
    var n := |rings| - 1;
    var others := b.Holders() - Set(rings[n]);
    InPositive(b.g, others, x);
    assert rings[n..] == [rings[n]];
    forall y | y in b.Holders() && y < |b.g| && x in b.g[y]
      ensures y in Set(rings[n])
    {
      assert InSome(rings[n..], y);
    }
  }

  /** The latest cycle passes its test, and freeing it releases nothing else. */
  lemma IntactTop(b: Books, rings: seq<seq<nat>>, held: set<nat>)
    requires Still(b) && b.reds == {} && b.base == Zeros(|b.g|) && Intact(b, rings, held) && rings != []
    requires forall x :: x in rings[|rings| - 1] ==> x < |b.home| && b.home[x] == Set(rings[|rings| - 1])
    requires forall x :: x in held ==> InSome(rings, x)
    requires Set(rings[|rings| - 1]) <= held
    ensures Sound(b.typed, b.color, b.cyclic, rings[|rings| - 1]) && Backed(b, Set(rings[|rings| - 1]))
  {
    var n := |rings| - 1;
    var ring := rings[n];
    forall x {:trigger x in ring} | x in ring
      ensures x < |b.g| && b.typed[x] && b.color[x] == ORANGE && b.elsewhere[x] == 0
    {
      assert x in rings[n];
    }
    var others := b.Holders() - Set(ring);
    assert b.Holders() == Set(ring) + others;
    forall x {:trigger x in ring} | x in ring
      ensures b.cyclic[x] == 0
    {
      assert x in b.Others() && b.base[x] == 0;
      TopAlone(b, rings, x);
      assert b.home[x] * b.Holders() == Set(ring);
      InUnion(b.g, Set(ring), others, x);
    }
    TopBacked(b, rings, held);
  }

  lemma TopBacked(b: Books, rings: seq<seq<nat>>, held: set<nat>)
    requires Intact(b, rings, held) && rings != [] && Set(rings[|rings| - 1]) <= held
    requires forall x :: x in held ==> InSome(rings, x)
    ensures Backed(b, Set(rings[|rings| - 1]))
  {
    var ring := rings[|rings| - 1];
    forall x | x in b.Holders() - Set(ring) && b.color[x] != ORANGE
      ensures b.elsewhere[x] + In(b.g, b.Holders() - Set(ring), x) > 0
    {
      if x in held {
        var k :| 0 <= k < |rings| && x in rings[k];
      }
      InMonotonic(b.g, b.Holders() - held, b.Holders() - Set(ring), x);
    }
  }

  lemma UntouchableNext(b: Books, b': Books, rings: seq<seq<nat>>, rest: seq<seq<nat>>)
    requires b.Sized() && b'.Sized() && Untouchable(b, rings) && rings != [] && Disjoint(rings)
    requires Only(Set(rings[|rings| - 1]), b.typed, b'.typed, b.color, b'.color)
    requires b'.g == b.g && b'.elsewhere == b.elsewhere && rest == rings[..|rings| - 1]
    ensures Untouchable(b', rest)
  {
    var n := |rings| - 1;
    forall k, x {:trigger x in rest[k]} | 0 <= k < |rest| && x in rest[k]
      ensures x < |b'.g| && b'.typed[x] && b'.color[x] == ORANGE && b'.elsewhere[x] == 0
    {
      assert rest[k] == rings[k];
      assert x !in rings[n];
    }
  }

  lemma FromLaterNext(g: Graph, holders: set<nat>, rings: seq<seq<nat>>)
    requires FromLater(g, holders, rings) && rings != []
    ensures FromLater(g, holders - Set(rings[|rings| - 1]), rings[..|rings| - 1])
  {
    var n := |rings| - 1;
    var rest := rings[..n];
    forall k, x, y | 0 <= k < n && x in rest[k] && y in holders - Set(rings[n]) && y < |g| && x in g[y]
      ensures InSome(rest[k..], y)
    {
      assert x in rings[k] && InSome(rings[k..], y);
      var j :| 0 <= j < |rings[k..]| && y in rings[k..][j];
      assert rings[k..][j] == rings[k + j] && k + j != n;
      assert rest[k..][j] == rings[k + j];
    }
  }

  /** Freeing the latest cycle leaves the others intact. */
  lemma IntactNext(b: Books, b': Books, rings: seq<seq<nat>>, held: set<nat>)
    requires Intact(b, rings, held) && rings != [] && Disjoint(rings) && b'.Sized()
    requires Only(Set(rings[|rings| - 1]), b.typed, b'.typed, b.color, b'.color)
    requires b'.g == b.g && b'.elsewhere == b.elsewhere && Set(rings[|rings| - 1]) <= held
    ensures Intact(b', rings[..|rings| - 1], held - Set(rings[|rings| - 1]))
    ensures b'.Holders() == b.Holders() - Set(rings[|rings| - 1])
  {
    hide Untouchable, FromLater;
    var ring := rings[|rings| - 1];
    assert b'.Holders() == b.Holders() - Set(ring);
    assert b'.Holders() - (held - Set(ring)) == b.Holders() - held;
    UntouchableNext(b, b', rings, rings[..|rings| - 1]);
    FromLaterNext(b.g, b.Holders(), rings);
  }

  /** Tests the latest pending cycle and frees it or takes it apart. */
  method DrainOne(h: Heap, garbage0: int, ghost gs0: seq<nat>, ghost c: Context, ghost cs0: seq<nat>,
                  ghost rings: seq<seq<nat>>)
      returns (garbage: int, ghost gs: seq<nat>, ghost c': Context, ghost cs: seq<nat>)
    requires Drainable(h, c, cs0, rings, garbage0, gs0) && rings != []
    modifies h`count, h`color, h`cyclic, h`next, h`previous, h`scan, h`scanStack, h`typed, h`freed, h`cycles
    ensures Drainable(h, c', cs, rings[..|rings| - 1], garbage, gs)
    ensures Set(rings[|rings| - 1]) <= c.held
    ensures c' == c.(held := c.held - Set(rings[|rings| - 1]), garb := c'.garb)
    ensures old(Intact(BooksOf(h, c), rings, c.held)) ==>
      && garbage == garbage0 && Intact(BooksOf(h, c'), rings[..|rings| - 1], c'.held)
      && Typed(h.typed) == Typed(old(h.typed)) - Set(rings[|rings| - 1])
  {
    hide Still, Lists, Lively, Oranges, Idle, Queue, Homes, Zeros, Ring, Chain, Set, Handled, Intact, Only, Typed, Sound, Backed;
    ghost var ring := rings[|rings| - 1];
    ghost var b := BooksOf(h, c);
    QueueTop(h.cycles, h.nextCycle, h.next, rings, c.home, c.held);
    QueueHeld(h.cycles, h.nextCycle, h.next, rings, c.home, c.held);
    GarbApart(h, c, cs0);
    if Intact(b, rings, c.held) {
      IntactTop(b, rings, c.held);
    }
    var cycle0: nat := h.cycles;
    h.cycles := h.nextCycle[cycle0];
    ghost var next0 := h.next;
    garbage, gs, c', cs := HandleTop(h, cycle0, garbage0, gs0, c, cs0, ring);
    HandledQueue(h, c, c', cs, rings, garbage, gs, next0, cycle0);
    HandledContext(h, c, c', cs, ring, garbage, gs, next0);
    if Intact(b, rings, c.held) {
      IntactNext(b, BooksOf(h, c'), rings, c.held);
    }
  }

  lemma HandledContext(h: Heap, c: Context, c': Context, cs': seq<nat>, ring: seq<nat>, garbage: int, gs: seq<nat>,
                       next0: seq<int>)
    requires Handled(h, c, c', cs', ring, garbage, gs, next0)
    ensures c' == c.(held := c.held - Set(ring), garb := c'.garb) && BooksOf(h, c').Sized()
  {
  }

  lemma QueueHeld(cycles: int, nextCycle: seq<int>, next: seq<int>, rings: seq<seq<nat>>, home: seq<set<nat>>,
                  held: set<nat>)
    requires Queue(cycles, nextCycle, next, rings, home, held)
    ensures Disjoint(rings) && forall x :: x in held ==> InSome(rings, x)
  {
  }

  // ----- The garbage list -----

  lemma UnlinkGarbage(n: nat, next: seq<int>, previous: seq<int>, typed: seq<bool>, freed: set<nat>,
                      cs: seq<nat>, held: set<nat>, garb: set<nat>, p: nat)
    requires Lists(n, next, previous, typed, freed, cs, held, garb) && p in garb
    ensures p < n && Lists(n, next[p := NIL], previous, typed, freed, cs, held, garb - {p})
  {
    DoublyFrame(next, next[p := NIL], previous, previous, n, cs, n);
  }

  lemma HeapTop(garbage: int, next: seq<int>, gs: seq<nat>, n: nat)
    requires Chain(garbage, next, gs) && gs != [] && garbage < n < |next|
    ensures garbage == gs[|gs| - 1] && Chain(next[garbage], next[garbage := NIL], gs[..|gs| - 1])
    ensures garbage in Set(gs) && Set(gs[..|gs| - 1]) == Set(gs) - {garbage}
  {
    var rest := gs[..|gs| - 1];
    assert gs == rest + [garbage];
    ChainFrame(next[garbage], next, rest, garbage, NIL);
  }

  lemma StartRelease(b: Books, p: nat)
    requires Still(b) && p in b.Others() && b.count[p] == 0
    ensures Dropping(b, p, 0, [])
  {
    assert b.g[p][..0] == [];
  }

  lemma GarbageFacts(h: Heap, d: Context, cs: seq<nat>, garbage: int, gs: seq<nat>)
    requires Calm(h, d, cs) && Heaped(h, garbage, gs, d) && garbage != NIL && d.reds == {}
    ensures h.Shaped() && gs != [] && 0 <= garbage < |h.g| && garbage in d.garb
    ensures Dropping(BooksOf(h, d), garbage, 0, []) && Lively(h.count, h.typed, d.held + (d.garb - {garbage}), {garbage})
    ensures Lists(|h.g|, h.next[garbage := NIL], h.previous, h.typed, h.freed, cs, d.held, d.garb - {garbage})
    ensures Chain(h.next[garbage], h.next[garbage := NIL], gs[..|gs| - 1]) && Set(gs[..|gs| - 1]) == d.garb - {garbage}
    ensures Idle(h.count, d.garb - {garbage})
  {
    assert gs[|gs| - 1] in Set(gs);
    assert garbage == gs[|gs| - 1];
    UnlinkGarbage(|h.g|, h.next, h.previous, h.typed, h.freed, cs, d.held, d.garb, garbage);
    HeapTop(garbage, h.next, gs, |h.g|);
    StartRelease(BooksOf(h, d), garbage);
  }

  lemma OrangesReleased(c: seq<Color>, d: seq<Color>, typed: seq<bool>, typed': seq<bool>, held: set<nat>, garb: set<nat>,
                        p: nat)
    requires Oranges(c, typed, held + garb) && Purpled(c, d) && |typed| == |typed'|
    requires Typed(typed') <= Typed(typed) - {p}
    ensures Oranges(d, typed', held + (garb - {p}))
  {
    OrangesFade(c, d, typed, typed', held + garb);
    forall x: nat | x < |d| && typed'[x] && d[x] == ORANGE
      ensures x in held + (garb - {p})
    {
      assert x in Typed(typed');
    }
  }

  lemma ChainUntouched(s: set<nat>, next: seq<int>, next': seq<int>, previous: seq<int>, previous': seq<int>, top: int,
                       gs: seq<nat>)
    requires Untouched(s, next, next', previous, previous') && Chain(top, next, gs) && Set(gs) <= s
    ensures Chain(top, next', gs)
  {
    assert forall x :: x in gs ==> x in Set(gs);
    ChainSame(top, next, next', gs);
  }

  ghost function Sans(c: Context, p: nat): Context {
    c.(garb := c.garb - {p})
  }

  /** Releases the first object of the garbage list. */
  method ReleaseGarbage(h: Heap, p: nat, ghost gs: seq<nat>, ghost d: Context, ghost cs: seq<nat>)
      returns (garbage: int, ghost cs': seq<nat>)
    requires Calm(h, d, cs) && Heaped(h, p, gs, d) && d.reds == {}
    modifies h`count, h`color, h`next, h`previous, h`scan, h`scanStack, h`typed, h`freed
    ensures gs != [] && Calm(h, Sans(d, p), cs') && Heaped(h, garbage, gs[..|gs| - 1], Sans(d, p))
    ensures Typed(h.typed) <= Typed(old(h.typed))
  {
    GarbageFacts(h, d, cs, p, gs);
    GarbApart(h, d, cs);
    ghost var color0, typed0 := h.color, h.typed;
    hide Still, Lists, Idle, Lively, Oranges, Chain, Set, Dropping, Untouched, Purpled, Typed;
    garbage := h.next[p];
    h.next := h.next[p := NIL];
    ghost var next1, previous1 := h.next, h.previous;
    cs' := ReleaseLoop(h, p, Sans(d, p), cs);
    OrangesReleased(color0, h.color, typed0, h.typed, d.held, d.garb, p);
    ChainUntouched(d.held + (d.garb - {p}), next1, h.next, previous1, h.previous, garbage, gs[..|gs| - 1]);
  }

  lemma HeapedEnd(h: Heap, garbage: int, gs: seq<nat>, c: Context)
    requires Heaped(h, garbage, gs, c)
    ensures gs == [] <==> garbage == NIL
    ensures gs == [] ==> c.garb == {}
    ensures garbage >= NIL
  {
  }

  /** The loop over the garbage list. */
  method ReleaseAll(h: Heap, garbage0: int, ghost gs0: seq<nat>, ghost c: Context, ghost cs0: seq<nat>)
      returns (ghost cs: seq<nat>)
    requires Calm(h, c, cs0) && Heaped(h, garbage0, gs0, c) && c.reds == {}
    modifies h`count, h`color, h`next, h`previous, h`scan, h`scanStack, h`typed, h`freed
    ensures Calm(h, c.(garb := {}), cs) && Typed(h.typed) <= Typed(old(h.typed))
    ensures garbage0 == NIL ==> h.typed == old(h.typed) && h.color == old(h.color) && cs == cs0
  {
    hide Calm, Heaped, Typed;
    var garbage := garbage0;
    ghost var gs, d := gs0, c;
    cs := cs0;
    HeapedEnd(h, garbage, gs, d);
    while garbage != NIL
      invariant Calm(h, d, cs) && Heaped(h, garbage, gs, d) && d == c.(garb := d.garb) && garbage >= NIL
      invariant Typed(h.typed) <= Typed(old(h.typed)) && (garbage0 == NIL ==> garbage == NIL && h.typed == old(h.typed))
      invariant garbage0 == NIL ==> h.color == old(h.color) && cs == cs0
      decreases |gs|
    {
      ghost var p := garbage;
      garbage, cs := ReleaseGarbage(h, garbage, gs, d, cs);
      gs, d := gs[..|gs| - 1], Sans(d, p);
      HeapedEnd(h, garbage, gs, d);
    }
    HeapedEnd(h, garbage, gs, d);
  }

  // ----- The whole drain -----

  lemma DrainableFacts(h: Heap, c: Context, cs: seq<nat>, rings: seq<seq<nat>>, garbage: int, gs: seq<nat>)
    requires Drainable(h, c, cs, rings, garbage, gs)
    ensures rings == [] <==> h.cycles == NIL
    ensures rings == [] ==> c.held == {}
    ensures Calm(h, c, cs) && Heaped(h, garbage, gs, c) && BooksOf(h, c).Sized()
    ensures c.reds == {} && c.base == Zeros(|c.base|)
  {
    if rings != [] {
      QueueTop(h.cycles, h.nextCycle, h.next, rings, c.home, c.held);
    } else {
      assert forall x: nat :: !InSome(rings, x);
      assert forall x :: x in c.held ==> InSome(rings, x);
    }
  }

  /** The part of t_engine::f_collector that handles the cycles found by the
      previous pass. It keeps every account exact and releases nothing that is in
      use; and if nothing has changed since those cycles were found, it frees
      exactly them. */
  method DrainCycles(h: Heap, ghost c0: Context, ghost cs0: seq<nat>, ghost rings0: seq<seq<nat>>)
      returns (ghost c: Context, ghost cs: seq<nat>)
    requires Drainable(h, c0, cs0, rings0, NIL, [])
    modifies h`count, h`color, h`cyclic, h`next, h`previous, h`scan, h`scanStack, h`typed, h`freed, h`cycles
    ensures Calm(h, c, cs) && c == c0.(held := {}, garb := {}) && c.reds == {} && c.base == Zeros(|c.base|)
    ensures h.cycles == NIL
    ensures old(Intact(BooksOf(h, c0), rings0, c0.held)) ==> Typed(h.typed) == Typed(old(h.typed)) - c0.held
    ensures rings0 == [] ==> h.typed == old(h.typed) && h.color == old(h.color) && cs == cs0
  {
    hide Intact, Typed, Drainable, Heaped, Calm, Zeros, Set;
    var garbage := NIL;
    ghost var gs: seq<nat>, rings := [], rings0;
    c, cs := c0, cs0;
    ghost var intact := Intact(BooksOf(h, c0), rings0, c0.held);
    DrainableFacts(h, c, cs, rings, garbage, gs);
    assert c0.held - c0.held == {} && Typed(h.typed) - {} == Typed(h.typed);
    while h.cycles != NIL
      invariant Drainable(h, c, cs, rings, garbage, gs) && (rings == [] <==> h.cycles == NIL)
      invariant c == c0.(held := c.held, garb := c.garb) && c.held <= c0.held
      invariant intact ==> garbage == NIL && Intact(BooksOf(h, c), rings, c.held)
      invariant intact ==> Typed(h.typed) == Typed(old(h.typed)) - (c0.held - c.held)
      invariant rings0 == [] ==> rings == [] && garbage == NIL && cs == cs0
      invariant rings0 == [] ==> h.typed == old(h.typed) && h.color == old(h.color)
      decreases |rings|
    {
      ghost var d := c;
      garbage, gs, c, cs := DrainOne(h, garbage, gs, c, cs, rings);
      LessLess(Typed(old(h.typed)), c0.held, d.held, Set(rings[|rings| - 1]));
      rings := rings[..|rings| - 1];
      DrainableFacts(h, c, cs, rings, garbage, gs);
    }
    DrainableFacts(h, c, cs, rings, garbage, gs);
    assert c0.held - {} == c0.held;
    cs := ReleaseAll(h, garbage, gs, c, cs);
    c := c.(garb := {});
  }

  lemma LessLess(all: set<nat>, a: set<nat>, b: set<nat>, r: set<nat>)
    requires b <= a && r <= b
    ensures all - (a - b) - r == all - (a - (b - r)) && b - r <= a
  {
  }

  // ----- The first state -----

  ghost function Ones(n: nat): seq<nat> {
    seq(n, _ => 1)
  }

  ghost function Unbound(n: nat): Context {
    Context(Ones(n), seq(n, _ => {}), Zeros(n), {}, {}, {})
  }

  lemma {:induction false} EmptyIn(g: Graph, s: set<nat>, x: nat)
    requires forall y :: 0 <= y < |g| ==> g[y] == []
    ensures In(g, s, x) == 0
  {
    if g != [] {
      EmptyIn(g[..|g| - 1], s, x);
    }
  }

  lemma FirstBooks(b: Books, n: nat)
    requires b == Books(seq(n, _ => []), Ones(n), seq(n, _ => {}), seq(n, _ => true), seq(n, _ => BLACK), seq(n, _ => 1),
                        seq(n, _ => 0), Zeros(n), {})
    ensures Still(b) && Intact(b, [], {})
  {
    forall s: set<nat>, x: nat
      ensures In(b.g, s, x) == 0
    {
      EmptyIn(b.g, s, x);
    }
  }

  lemma FirstLists(n: nat, links: seq<int>)
    requires links == seq(n, _ => NIL) + [n]
    ensures Lists(n, links, links, seq(n, _ => true), {}, [], {}, {})
  {
  }

  /** Objects that have just been allocated are in order: changes and passes can
      begin. */
  method Allocate(n: nat) returns (h: Heap)
    ensures fresh(h) && |h.g| == n && Drainable(h, Unbound(n), [], [], NIL, [])
    ensures Intact(BooksOf(h, Unbound(n)), [], {})
  {
    hide Still, Intact, Lists;
    h := new Heap(n);
    FirstBooks(BooksOf(h, Unbound(n)), n);
    FirstLists(n, h.next);
    assert Queue(h.cycles, h.nextCycle, h.next, [], Unbound(n).home, {});
    assert Set([]) == {};
  }
}
