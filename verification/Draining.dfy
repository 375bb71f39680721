/** Testing the pending cycles, freeing those that pass and taking the others
    apart. */
module Draining {
  import opened ObjectGraph
  import opened ObjectHeap
  import opened LinkedLists
  import Candidates
  import opened Detaching
  import opened Accounts
  import opened ReleaseLists
  import opened Releasing

  /** No colour of an unfinished detection is left. */
  ghost predicate Plain(c: Color) {
    c == BLACK || c == PURPLE || c == ORANGE || c == RED
  }

  /** Only members of waiting cycles and garbage are ORANGE. */
  ghost predicate Oranges(color: seq<Color>, typed: seq<bool>, s: set<nat>) {
    |color| == |typed| && forall x: nat :: x < |color| ==> Plain(color[x]) && (typed[x] && color[x] == ORANGE ==> x in s)
  }

  /** Between two operations: the books are in order and so are the lists. */
  ghost predicate Calm(h: Heap, c: Context, cs: seq<nat>)
    reads h
  {
    && Tidy(h, c, cs) && h.Stacked([]) && Still(BooksOf(h, c)) && Lively(h.count, h.typed, c.held + c.garb, {})
    && Oranges(h.color, h.typed, c.held + c.garb) && |c.base| == |h.g|
  }

  ghost predicate Shedder(h: Heap, c: Context, cs: seq<nat>, p: nat, i: nat)
    reads h
  {
    Calm(h, c, cs) && Shedding(BooksOf(h, c), p, i)
  }

  lemma OrangesFade(c: seq<Color>, d: seq<Color>, typed: seq<bool>, typed': seq<bool>, s: set<nat>)
    requires Oranges(c, typed, s) && Purpled(c, d) && |typed| == |typed'| && Typed(typed') <= Typed(typed)
    ensures Oranges(d, typed', s)
  {
    forall x: nat | x < |d| && typed'[x] && d[x] == ORANGE
      ensures x in s
    {
      assert x in Typed(typed');
    }
  }

  lemma ShedAfter(b: Books, b': Books, p: nat, i: nat)
    requires Shedding(b, p, i) && i < |b.g[p]| && b.color[b.g[p][i]] != RED
    requires Still(b') && b'.g == b.g && b'.reds == b.reds && Purpled(b.color, b'.color)
    requires var x := b.g[p][i]; b'.base == b.base[x := b.base[x] + 1]
    ensures Shedding(b', p, i + 1)
  {
    TimesPrefix(b.g[p], i);
  }

  lemma ShedFacts(h: Heap, c: Context, cs: seq<nat>, p: nat, i: nat)
    requires Shedder(h, c, cs, p, i) && p < |h.g| && i < |h.g[p]|
    ensures h.Shaped() && h.g[p][i] < |h.g| && |c.base| == |h.g|
    ensures h.color[h.g[p][i]] == RED ==> Shedder(h, c, cs, p, i + 1)
    ensures h.color[h.g[p][i]] != RED ==> Droppable(BooksOf(h, c), h.g[p][i])
  {
    var b := BooksOf(h, c);
    if b.color[b.g[p][i]] == RED {
      ShedSkip(b, p, i);
    } else {
      ShedLives(b, p, i);
    }
  }

  /** The ORANGE case of t_object::f_cyclic_decrement_push. */
  method DecrementOrange(h: Heap, x: nat, ghost c: Context, ghost cs: seq<nat>, ghost p: nat, ghost i: nat)
    requires Shedder(h, c, cs, p, i) && p < |h.g| && i < |h.g[p]| && x == h.g[p][i] < |h.color| && h.color[x] == ORANGE
    modifies h`count, h`cyclic
    ensures x < |c.base| && Shedder(h, Charged(c, x), cs, p, i + 1)
  {
    hide Lists, Idle, Still, Lively, Oranges, Shedding, Untouched;
    ghost var b := BooksOf(h, c);
    OrangeRoles(h, c, cs, p, i, x);
    h.count := h.count[x := h.count[x] - 1];
    h.cyclic := h.cyclic[x := h.cyclic[x] - 1];
    assert BooksOf(h, Charged(c, x)) == Shed(b, x);
    ShedStill(Shed(b, x), p, i + 1);
  }

  lemma OrangeRoles(h: Heap, c: Context, cs: seq<nat>, p: nat, i: nat, x: nat)
    requires Shedder(h, c, cs, p, i) && p < |h.g| && i < |h.g[p]| && x == h.g[p][i] < |h.g| && h.color[x] == ORANGE
    ensures h.Shaped() && |c.base| == |h.g| && h.count[x] > 0 && h.cyclic[x] > 0
    ensures BooksOf(h, c).Sized() && Shedding(Shed(BooksOf(h, c), x), p, i + 1)
    ensures Lively(h.count[x := h.count[x] - 1], h.typed, c.held + c.garb, {}) && Idle(h.count[x := h.count[x] - 1], c.garb)
  {
    ShedOrange(BooksOf(h, c), p, i);
    ShedLives(BooksOf(h, c), p, i);
  }

  lemma ShedStill(b: Books, p: nat, i: nat)
    requires Shedding(b, p, i)
    ensures Still(b)
  {
  }

  lemma OnlyNone(typed: seq<bool>, c: seq<Color>, x: nat)
    requires x < |c| == |typed|
    ensures Only({}, typed, typed, c, c) && (c[x] != ORANGE ==> Only({}, typed, typed, c, c[x := PURPLE]))
  {
  }

  lemma ShedderStays(h: Heap, c: Context, cs: seq<nat>, p: nat, i: nat)
    requires Shedder(h, c, cs, p, i) && p < |h.g| && i < |h.g[p]|
    ensures BooksOf(h, c).Sized() && h.g[p][i] < |h.g|
    ensures
      var x := h.g[p][i];
      Supported(BooksOf(h, c)) && h.color[x] != ORANGE && h.color[x] != RED ==> h.count[x] > 1
  {
    var b := BooksOf(h, c);
    var x := h.g[p][i];
    if Supported(b) && h.color[x] != ORANGE && h.color[x] != RED {
      ShedLives(b, p, i);
      SupportedStays(b, x);
    }
  }

  /** One reference of t_object::f_cyclic_decrement. */
  method CyclicDecrementPush(h: Heap, x: nat, ghost c: Context, ghost cs: seq<nat>, ghost p: nat, ghost i: nat)
      returns (ghost c': Context, ghost cs': seq<nat>)
    requires Shedder(h, c, cs, p, i) && p < |h.g| && i < |h.g[p]| && x == h.g[p][i]
    modifies h`count, h`color, h`cyclic, h`next, h`previous, h`scan, h`scanStack, h`typed, h`freed
    ensures Shedder(h, c', cs', p, i + 1) && c' == c.(base := c'.base)
    ensures Untouched(c.held + c.garb, old(h.next), h.next, old(h.previous), h.previous)
    ensures Purpled(old(h.color), h.color)
    ensures old(Supported(BooksOf(h, c))) ==> Only({}, old(h.typed), h.typed, old(h.color), h.color)
  {
    hide Lists, Idle, Still, Lively, Oranges, Shedding, Droppable, Untouched, Purpled, Supported, Only;
    ghost var b := BooksOf(h, c);
    ShedFacts(h, c, cs, p, i);
    ShedderStays(h, c, cs, p, i);
    OnlyNone(h.typed, h.color, x);
    c', cs' := c, cs;
    PurpledSelf(h.color);
    UntouchedSelf(c.held + c.garb, h.next, h.previous);
    if h.color[x] == RED {
      return;
    }
    c' := Charged(c, x);
    if h.color[x] == ORANGE {
      DecrementOrange(h, x, c, cs, p, i);
    } else {
      ghost var color0, typed0 := h.color, h.typed;
      cs' := Decrement(h, x, c, cs);
      ShedAfter(b, BooksOf(h, c'), p, i);
      OrangesFade(color0, h.color, typed0, h.typed, c.held + c.garb);
    }
  }

  ghost function Shorn(c: Context, p: nat): Context {
    c.(reds := c.reds - {p}, base := Zeros(|c.base|))
  }

  lemma StartShedding(h: Heap, c: Context, cs: seq<nat>, p: nat)
    requires Calm(h, c, cs) && p in c.reds && c.base == Zeros(|c.base|)
    ensures h.Shaped() && p < |h.g| && Shedder(h, c, cs, p, 0)
  {
    assert h.g[p][..0] == [];
  }

  lemma ShedderDone(h: Heap, c: Context, cs: seq<nat>, p: nat)
    requires Shedder(h, c, cs, p, if p < |h.g| then |h.g[p]| else 0) && p in c.held
    ensures h.Shaped() && p < |h.g| && Still(BooksOf(h, Shorn(c, p)).(typed := h.typed[p := false]))
    ensures Lists(|h.g|, h.next, h.previous, h.typed[p := false], h.freed, cs, c.held, c.garb)
    ensures Oranges(h.color, h.typed[p := false], c.held + c.garb)
    ensures Lively(h.count, h.typed[p := false], c.held + c.garb, {})
  {
    ShedDone(BooksOf(h, c), p);
    assert Sheded(BooksOf(h, c), p) == BooksOf(h, Shorn(c, p)).(typed := h.typed[p := false]);
    RetireHeld(|h.g|, h.next, h.previous, h.typed, h.freed, cs, c.held, c.garb, p);
  }

  lemma ShedderOnly(h: Heap, c: Context, cs: seq<nat>, p: nat, i: nat, b: Books)
    requires Shedder(h, c, cs, p, i) && b.Sized() && Supported(b) && Only({}, b.typed, h.typed, b.color, h.color)
    requires b.g == h.g && b.elsewhere == c.elsewhere && b.reds == c.reds
    ensures BooksOf(h, c).Sized() && Supported(BooksOf(h, c))
  {
    OnlySupported(b, BooksOf(h, c), {});
  }

  /** t_object::f_cyclic_decrement */
  method CyclicDecrement(h: Heap, p: nat, ghost c: Context, ghost cs: seq<nat>) returns (ghost cs': seq<nat>)
    requires Calm(h, c, cs) && p in c.reds && p in c.held && c.base == Zeros(|c.base|)
    modifies h`count, h`color, h`cyclic, h`next, h`previous, h`scan, h`scanStack, h`typed, h`freed
    ensures Calm(h, Shorn(c, p), cs')
    ensures Untouched(c.held + c.garb, old(h.next), h.next, old(h.previous), h.previous)
    ensures Purpled(old(h.color), h.color)
    ensures p < |old(h.typed)|
    ensures old(Supported(BooksOf(h, c))) ==> Only({p}, old(h.typed), h.typed, old(h.color), h.color)
  {
    hide Still, Lists, Idle, Lively, Oranges, Shedding, Untouched, Purpled, Supported, Only;
    StartShedding(h, c, cs, p);
    PurpledSelf(h.color);
    OnlyNone(h.typed, h.color, p);
    UntouchedSelf(c.held + c.garb, h.next, h.previous);
    ghost var b := BooksOf(h, c);
    CalmSized(h, c, cs);
    ghost var d := c;
    cs' := cs;
    for i := 0 to |h.g[p]|
      invariant Shedder(h, d, cs', p, i) && d == c.(base := d.base)
      invariant Untouched(c.held + c.garb, old(h.next), h.next, old(h.previous), h.previous)
      invariant Purpled(old(h.color), h.color)
      invariant Supported(b) ==> Only({}, old(h.typed), h.typed, old(h.color), h.color)
    {
      cs', d := ShedOne(h, p, i, c, d, cs', b, old(h.next), old(h.previous));
    }
    ShedderDone(h, d, cs', p);
    if Supported(b) {
      OnlyLast(old(h.typed), h.typed, old(h.color), h.color, p);
    }
    h.typed := h.typed[p := false];
    assert Shorn(d, p) == Shorn(c, p);
  }

  lemma CalmSized(h: Heap, c: Context, cs: seq<nat>)
    requires Calm(h, c, cs)
    ensures h.Shaped() && BooksOf(h, c).Sized()
  {
  }

  lemma OnlyLast(t0: seq<bool>, t1: seq<bool>, c0: seq<Color>, c1: seq<Color>, p: nat)
    requires Only({}, t0, t1, c0, c1) && p < |t0|
    ensures Only({p}, t0, t1[p := false], c0, c1)
  {
  }

  method ShedOne(h: Heap, p: nat, i: nat, ghost c: Context, ghost d: Context, ghost cs: seq<nat>, ghost b: Books,
                 ghost next0: seq<int>, ghost previous0: seq<int>)
      returns (ghost cs': seq<nat>, ghost d': Context)
    requires Shedder(h, d, cs, p, i) && d == c.(base := d.base) && p < |h.g| && i < |h.g[p]|
    requires Untouched(c.held + c.garb, next0, h.next, previous0, h.previous) && Purpled(b.color, h.color)
    requires b.Sized() && b.g == h.g && b.elsewhere == c.elsewhere && b.reds == c.reds
    requires Supported(b) ==> Only({}, b.typed, h.typed, b.color, h.color)
    modifies h`count, h`color, h`cyclic, h`next, h`previous, h`scan, h`scanStack, h`typed, h`freed
    ensures Shedder(h, d', cs', p, i + 1) && d' == c.(base := d'.base)
    ensures Untouched(c.held + c.garb, next0, h.next, previous0, h.previous) && Purpled(b.color, h.color)
    ensures Supported(b) ==> Only({}, b.typed, h.typed, b.color, h.color)
  {
    hide Shedder, Untouched, Purpled, Supported, Only;
    ghost var next1, previous1, color1, typed1 := h.next, h.previous, h.color, h.typed;
    ShedderStays(h, d, cs, p, i);
    if Supported(b) {
      ShedderOnly(h, d, cs, p, i, b);
    }
    d', cs' := CyclicDecrementPush(h, h.g[p][i], d, cs, p, i);
    UntouchedTrans(c.held + c.garb, next0, next1, h.next, previous0, previous1, h.previous);
    PurpledTrans(b.color, color1, h.color);
    if Supported(b) {
      OnlyTrans({}, {}, {}, b.typed, typed1, h.typed, b.color, color1, h.color);
    }
  }

  ghost function Suffix(ring: seq<nat>, i: nat): set<nat>
    requires i <= |ring|
  {
    Set(ring[i..])
  }

  lemma SuffixOne(ring: seq<nat>, i: nat)
    requires Distinct(ring) && i < |ring|
    ensures Suffix(ring, i) - {ring[i]} == Suffix(ring, i + 1) && ring[i] in Suffix(ring, i)
    ensures Suffix(ring, 0) == Set(ring) && Suffix(ring, |ring|) == {}
    ensures Set(ring[..i + 1]) == Set(ring[..i]) + {ring[i]} && ring[..0] == [] && Set([]) == {}
    ensures Suffix(ring, i) == Set(ring) - Set(ring[..i]) && Set(ring[..i]) <= Set(ring)
  {
    SetPrefix(ring, i);
    assert forall j :: 0 <= j < |ring| ==> (ring[j] in ring[..i] <==> j < i);
    assert forall j :: 0 <= j < |ring| ==> (ring[j] in ring[i..] <==> i <= j);
    forall x
      ensures x in Suffix(ring, i) <==> x in Set(ring) && x !in Set(ring[..i])
    {
      if x in ring {
        var j :| 0 <= j < |ring| && ring[j] == x;
      }
      if x in ring[i..] {
        var j :| 0 <= j < |ring[i..]| && ring[i..][j] == x;
        assert ring[i + j] == x;
      }
    }
    assert ring[i..] == [ring[i]] + ring[i + 1..];
    var rest := ring[i + 1..];
    assert forall j :: 0 <= j < |rest| ==> rest[j] == ring[i + 1 + j];
    assert ring[i] !in rest;
    assert ring[0..] == ring;
  }

  lemma PaintedOnly(t0: seq<bool>, t1: seq<bool>, c0: seq<Color>, c1: seq<Color>, c2: seq<Color>, ring: seq<nat>)
    requires Painted(c0, c1, ring, RED) && Only(Set(ring), t0, t1, c1, c2)
    ensures Only(Set(ring), t0, t1, c0, c2)
  {
  }

  /** Painting a cycle that passes RED. */
  method PaintRed(h: Heap, cycle: nat, ghost ring: seq<nat>, ghost c: Context, ghost cs: seq<nat>)
    requires Calm(h, c, cs) && c.reds == {} && c.base == Zeros(|c.base|) && Homes(c.home)
    requires Ring(h.next, ring) && cycle == ring[0] && Passes(BooksOf(h, c), Set(ring))
    modifies h`color
    ensures Calm(h, c.(reds := Set(ring)), cs)
    ensures forall x :: x in ring ==> x < |h.color| && h.color[x] == RED
    ensures Set(ring) <= Typed(h.typed) && Painted(old(h.color), h.color, ring, RED)
    ensures old(Backed(BooksOf(h, c), Set(ring))) ==> Supported(BooksOf(h, c.(reds := Set(ring))))
  {
    ghost var b := BooksOf(h, c);
    PassesWithin(b, ring);
    hide Still, Lists, Idle, Lively, Passes, Backed, Supported;
    Paint(h, cycle, RED, ring);
    Redden(b, h.color, Set(ring));
    if Backed(b, Set(ring)) {
      BackedSupported(b, h.color, Set(ring));
    }
    assert Reddening(b, h.color, Set(ring)) == BooksOf(h, c.(reds := Set(ring)));
  }

  lemma PassesWithin(b: Books, ring: seq<nat>)
    requires b.Sized() && Passes(b, Set(ring))
    ensures Within(ring, |b.g|) && Set(ring) <= b.Holders()
    ensures forall x :: x in ring ==> x < |b.g| && x in Set(ring)
  {
    forall i | 0 <= i < |ring|
      ensures ring[i] in b.Holders()
    {
      assert ring[i] in Set(ring);
    }
  }

  /** The first `i` members of the RED cycle have dropped their references. */
  ghost predicate Dropped(h: Heap, ring: seq<nat>, i: nat, c: Context, cs: seq<nat>, b: Books, next0: seq<int>,
                          previous0: seq<int>)
    requires b.Sized()
    reads h
  {
    && i <= |ring| && Ring(h.next, ring) && Calm(h, c.(reds := Suffix(ring, i)), cs)
    && Untouched(c.held + c.garb, next0, h.next, previous0, h.previous) && Purpled(b.color, h.color)
    && b.g == h.g && b.elsewhere == c.elsewhere && b.reds == c.reds
    && (Supported(b) ==> Only(Set(ring[..i]), b.typed, h.typed, b.color, h.color))
  }

  lemma DroppedNone(h: Heap, ring: seq<nat>, c: Context, cs: seq<nat>)
    requires Calm(h, c, cs) && c.reds == Set(ring) && Ring(h.next, ring)
    ensures ring != []
    ensures BooksOf(h, c).Sized() && Dropped(h, ring, 0, c, cs, BooksOf(h, c), h.next, h.previous)
  {
    assert ring != [] && ring[0] in ring;
    SuffixOne(ring, 0);
    assert c.(reds := Suffix(ring, 0)) == c;
    OnlyNone(h.typed, h.color, ring[0]);
  }

  lemma DroppedAll(h: Heap, ring: seq<nat>, c: Context, cs: seq<nat>, b: Books, next0: seq<int>, previous0: seq<int>)
    requires b.Sized() && Dropped(h, ring, |ring|, c, cs, b, next0, previous0)
    ensures Calm(h, c.(reds := {}), cs) && Untouched(c.held + c.garb, next0, h.next, previous0, h.previous)
    ensures Ring(h.next, ring) && Purpled(b.color, h.color)
    ensures Supported(b) ==> Only(Set(ring), b.typed, h.typed, b.color, h.color)
  {
    hide Calm, Untouched, Purpled, Supported, Only;
    SuffixOne(ring, 0);
    assert ring[..|ring|] == ring;
  }

  method DropMember(h: Heap, p: nat, ghost ring: seq<nat>, ghost i: nat, ghost c: Context, ghost cs: seq<nat>,
                    ghost b: Books, ghost next0: seq<int>, ghost previous0: seq<int>)
      returns (ghost cs': seq<nat>)
    requires b.Sized() && Dropped(h, ring, i, c, cs, b, next0, previous0) && i < |ring| && p == ring[i]
    requires c.reds == Set(ring) <= c.held && c.base == Zeros(|c.base|)
    modifies h`count, h`color, h`cyclic, h`next, h`previous, h`scan, h`scanStack, h`typed, h`freed
    ensures Dropped(h, ring, i + 1, c, cs', b, next0, previous0)
  {
    ghost var next1, previous1, color1, typed1 := h.next, h.previous, h.color, h.typed;
    SuffixOne(ring, i);
    assert p in c.held by {
      assert p in Set(ring);
    }
    ghost var d := c.(reds := Suffix(ring, i));
    hide Still, Lists, Idle, Lively, Oranges, Untouched, Purpled, Calm, Suffix, Only, Supported, Set, Ring;
    CalmSized(h, d, cs);
    if Supported(b) {
      OnlySupported(b, BooksOf(h, d), Set(ring[..i]));
    }
    cs' := CyclicDecrement(h, p, d, cs);
    assert Shorn(d, p) == c.(reds := Suffix(ring, i + 1));
    RingUntouched(c.held + c.garb, next1, h.next, previous1, h.previous, ring);
    UntouchedTrans(c.held + c.garb, next0, next1, h.next, previous0, previous1, h.previous);
    PurpledTrans(b.color, color1, h.color);
    if Supported(b) {
      OnlyTrans(Set(ring[..i]), {p}, Set(ring[..i + 1]), b.typed, typed1, h.typed, b.color, color1, h.color);
    }
  }

  /** Drops the references of all the members. */
  method DropCycle(h: Heap, cycle: nat, ghost ring: seq<nat>, ghost c: Context, ghost cs: seq<nat>)
      returns (ghost cs': seq<nat>)
    requires Calm(h, c, cs) && c.reds == Set(ring) <= c.held && c.base == Zeros(|c.base|)
    requires Ring(h.next, ring) && cycle == ring[0]
    modifies h`count, h`color, h`cyclic, h`next, h`previous, h`scan, h`scanStack, h`typed, h`freed
    ensures Calm(h, c.(reds := {}), cs')
    ensures Untouched(c.held + c.garb, old(h.next), h.next, old(h.previous), h.previous)
    ensures Ring(h.next, ring) && Purpled(old(h.color), h.color)
    ensures old(Supported(BooksOf(h, c))) ==> Only(Set(ring), old(h.typed), h.typed, old(h.color), h.color)
  {
    hide Calm, Dropped, Untouched, Purpled, Only, Supported, Set, Ring, Zeros;
    ghost var i := 0;
    var p: nat := cycle;
    cs' := cs;
    ghost var b := BooksOf(h, c);
    DroppedNone(h, ring, c, cs);
    while true
      invariant i < |ring| && p == ring[i] && Dropped(h, ring, i, c, cs', b, old(h.next), old(h.previous))
      decreases |ring| - i
    {
      cs' := DropMember(h, p, ring, i, c, cs', b, old(h.next), old(h.previous));
      DroppedRing(h, ring, i + 1, c, cs', b, old(h.next), old(h.previous));
      RingNext(h.next, ring, i);
      p := h.next[p];
      i := i + 1;
      if p == cycle {
        break;
      }
    }
    assert i == |ring|;
    DroppedAll(h, ring, c, cs', b, old(h.next), old(h.previous));
  }

  lemma DroppedRing(h: Heap, ring: seq<nat>, i: nat, c: Context, cs: seq<nat>, b: Books, next0: seq<int>,
                    previous0: seq<int>)
    requires b.Sized() && Dropped(h, ring, i, c, cs, b, next0, previous0)
    ensures Ring(h.next, ring)
  {
  }

  lemma CalmShaped(h: Heap, c: Context, cs: seq<nat>)
    requires Calm(h, c, cs)
    ensures h.Shaped()
  {
  }

  lemma RingUntouched(s: set<nat>, next: seq<int>, next': seq<int>, previous: seq<int>, previous': seq<int>, ring: seq<nat>)
    requires Untouched(s, next, next', previous, previous') && Ring(next, ring) && Set(ring) <= s
    ensures Ring(next', ring)
  {
    forall y | y in ring && y < |next|
      ensures next'[y] == next[y]
    {
      assert y in Set(ring);
    }
    RingFrame(next, next', ring);
  }

  /** A member of a cycle whose references are dropped leaves for the free store. */
  lemma FreeHeld(n: nat, next: seq<int>, previous: seq<int>, typed: seq<bool>, freed: set<nat>,
                 cs: seq<nat>, held: set<nat>, garb: set<nat>, q: nat)
    requires Lists(n, next, previous, typed, freed, cs, held, garb) && q in held && q < n && !typed[q]
    ensures Lists(n, next, previous, typed, freed + {q}, cs, held - {q}, garb)
  {
  }

  lemma AsideLess(color: seq<Color>, count: seq<nat>, typed: seq<bool>, s: set<nat>, q: nat)
    requires Oranges(color, typed, s) && Lively(count, typed, s, {}) && q < |typed| && !typed[q]
    ensures Oranges(color, typed, s - {q}) && Lively(count, typed, s - {q}, {})
  {
  }

  /** t_engine::f_free_as_collect */
  method FreeOne(h: Heap, p: nat, ghost c: Context, ghost cs: seq<nat>)
    requires Calm(h, c, cs) && p in c.held && p < |h.typed| && !h.typed[p]
    modifies h`freed
    ensures Calm(h, c.(held := c.held - {p}), cs)
  {
    hide Still, Idle, Lively, Lists, Oranges;
    FreeHeld(|h.g|, h.next, h.previous, h.typed, h.freed, cs, c.held, c.garb, p);
    AsideLess(h.color, h.count, h.typed, c.held + c.garb, p);
    HeldGarb(|h.g|, h.next, h.previous, h.typed, h.freed, cs, c.held, c.garb, p);
    assert c.held + c.garb - {p} == c.held - {p} + c.garb;
    h.freed := h.freed + {p};
  }

  lemma HeldGarb(n: nat, next: seq<int>, previous: seq<int>, typed: seq<bool>, freed: set<nat>,
                 cs: seq<nat>, held: set<nat>, garb: set<nat>, q: nat)
    requires Lists(n, next, previous, typed, freed, cs, held, garb) && q in held
    ensures q !in garb
  {
  }

  /** Frees all the members of a cycle that was dropped. */
  method FreeMembers(h: Heap, cycle: nat, ghost ring: seq<nat>, ghost c: Context, ghost cs: seq<nat>)
    requires Calm(h, c, cs) && Set(ring) <= c.held && Ring(h.next, ring) && cycle == ring[0]
    requires forall x :: x in ring ==> x < |h.typed| && !h.typed[x]
    modifies h`freed
    ensures Calm(h, c.(held := c.held - Set(ring)), cs)
  {
    ghost var i := 0;
    var p: nat := cycle;
    assert ring != [];
    NoneFreed(c, ring);
    hide Calm, Set, Ring;
    while true
      invariant i < |ring| && p == ring[i]
      invariant Calm(h, c.(held := c.held - Set(ring[..i])), cs)
      decreases |ring| - i
    {
      RingHeld(h.next, ring, i, c.held);
      RingNext(h.next, ring, i);
      var q := h.next[p];
      FreeOne(h, p, c.(held := c.held - Set(ring[..i])), cs);
      assert c.(held := c.held - Set(ring[..i + 1])) == c.(held := c.held - Set(ring[..i]) - {p});
      p := q;
      i := i + 1;
      if p == cycle {
        break;
      }
    }
    assert ring[..i] == ring;
  }

  lemma NoneFreed(c: Context, ring: seq<nat>)
    ensures c.(held := c.held - Set(ring[..0])) == c
  {
    assert Set(ring[..0]) == {} && c.held - {} == c.held;
  }

  lemma RingHeld(next: seq<int>, ring: seq<nat>, i: nat, held: set<nat>)
    requires Ring(next, ring) && i < |ring| && Set(ring) <= held
    ensures ring[i] in ring && ring[i] in held - Set(ring[..i])
    ensures Set(ring[..i + 1]) == Set(ring[..i]) + {ring[i]}
  {
    SetPrefix(ring, i);
    assert ring[i] in Set(ring);
  }

  lemma DroppedMembers(b: Books, ring: seq<nat>)
    requires Still(b) && b.reds == {} && forall x :: x in ring ==> x < |b.color| && b.color[x] == RED
    ensures b.Sized() && forall x :: x in ring ==> x < |b.typed| && !b.typed[x]
  {
    assert forall x :: x in ring && b.typed[x] ==> x in b.Holders();
  }

  /** Frees a cycle that passed its test. */
  method FreeCycle(h: Heap, cycle: nat, ghost ring: seq<nat>, ghost c: Context, ghost cs: seq<nat>)
      returns (ghost cs': seq<nat>)
    requires Calm(h, c, cs) && c.reds == {} && c.base == Zeros(|c.base|) && Homes(c.home)
    requires Ring(h.next, ring) && cycle == ring[0] && Set(ring) <= c.held && Passes(BooksOf(h, c), Set(ring))
    modifies h`count, h`color, h`cyclic, h`next, h`previous, h`scan, h`scanStack, h`typed, h`freed
    ensures Calm(h, c.(held := c.held - Set(ring)), cs')
    ensures Untouched(c.held + c.garb, old(h.next), h.next, old(h.previous), h.previous)
    ensures old(Backed(BooksOf(h, c), Set(ring))) ==> Only(Set(ring), old(h.typed), h.typed, old(h.color), h.color)
  {
    hide Calm, Passes, Homes, Ring, Set, Untouched, Zeros, Backed, Supported, Only, Painted;
    CalmSized(h, c, cs);
    ghost var b := BooksOf(h, c);
    PaintRed(h, cycle, ring, c, cs);
    ghost var d := c.(reds := Set(ring));
    ghost var color0 := h.color;
    cs' := DropCycle(h, cycle, ring, d, cs);
    assert d.(reds := {}) == c;
    CalmStill(h, c, cs');
    StillRed(color0, h.color, ring);
    if Backed(b, Set(ring)) {
      PaintedOnly(b.typed, h.typed, b.color, color0, h.color, ring);
    }
    DroppedMembers(BooksOf(h, c), ring);
    FreeMembers(h, cycle, ring, c, cs');
  }

  lemma CalmStill(h: Heap, c: Context, cs: seq<nat>)
    requires Calm(h, c, cs)
    ensures h.Shaped() && Still(BooksOf(h, c))
  {
  }

  lemma StillRed(c: seq<Color>, d: seq<Color>, ring: seq<nat>)
    requires Purpled(c, d) && forall x :: x in ring ==> x < |c| && c[x] == RED
    ensures forall x :: x in ring ==> x < |d| && d[x] == RED
  {
  }

  // ----- The test -----

  lemma RelinkHeld(n: nat, next: seq<int>, previous: seq<int>, typed: seq<bool>, freed: set<nat>,
                   cs: seq<nat>, held: set<nat>, garb: set<nat>, p: nat, v: int)
    requires Lists(n, next, previous, typed, freed, cs, held, garb) && p in held && v != NIL
    ensures p < n && Lists(n, next[p := v], previous, typed, freed, cs, held, garb)
  {
    DoublyFrame(next, next[p := v], previous, previous, n, cs, n);
  }

  lemma HeldFacts(h: Heap, c: Context, cs: seq<nat>, q: nat)
    requires Calm(h, c, cs) && q in c.held
    ensures h.Shaped() && q < |h.g| && h.next[q] != NIL && q !in c.garb
  {
  }

  /** A member whose type is gone is unlinked and freed. */
  method UnlinkDead(h: Heap, p: nat, q: nat, ghost c: Context, ghost cs: seq<nat>)
    requires Calm(h, c, cs) && p in c.held && q in c.held && q < |h.typed| && !h.typed[q]
    modifies h`next, h`freed
    ensures Calm(h, c.(held := c.held - {q}), cs)
    ensures p < |old(h.next)| && q < |old(h.next)| && h.next == old(h.next)[p := old(h.next)[q]]
  {
    HeldFacts(h, c, cs, p);
    HeldFacts(h, c, cs, q);
    hide Still, Idle, Lively, Lists, Oranges;
    RelinkHeld(|h.g|, h.next, h.previous, h.typed, h.freed, cs, c.held, c.garb, p, h.next[q]);
    h.next := h.next[p := h.next[q]];
    FreeOne(h, q, c, cs);
  }

  /** The test looks at this member and finds it touched or referred to. */
  ghost predicate Bad(color: seq<Color>, cyclic: seq<nat>, x: nat) {
    x < |color| == |cyclic| ==> color[x] != ORANGE || cyclic[x] > 0
  }

  /** Going round the cycle from `a`: `kept` have been seen, `rest` are to come. */
  ghost predicate Round(next: seq<int>, a: nat, kept: seq<nat>, rest: seq<nat>, held: set<nat>) {
    && Leads(next, a, kept + rest, a) && Distinct(kept + rest) && a !in kept + rest
    && a in held && forall x :: x in kept + rest ==> x in held
  }

  lemma RoundStart(next: seq<int>, ring: seq<nat>, held: set<nat>)
    requires Ring(next, ring) && Set(ring) <= held
    ensures Round(next, ring[0], [], ring[1..], held)
  {
    var rest := ring[1..];
    assert [] + rest == rest;
    assert forall i :: 0 <= i < |rest| ==> rest[i] == ring[i + 1];
    assert forall x :: x in ring ==> x in Set(ring);
    assert ring[0] in ring && forall x :: x in rest ==> x in ring;
  }

  lemma RoundNext(next: seq<int>, a: nat, kept: seq<nat>, rest: seq<nat>, held: set<nat>)
    requires Round(next, a, kept, rest, held)
    ensures Last(a, kept) < |next| && next[Last(a, kept)] == First(rest, a)
    ensures Last(a, kept) in held && First(rest, a) in held && (rest != [] ==> rest[0] != a && rest[0] != Last(a, kept))
    ensures rest != [] ==> Round(next, a, kept + [rest[0]], rest[1..], held)
    ensures rest == [] && Last(a, kept) == a ==> kept == []
  {
    var all := kept + rest;
    if kept == [] {
      assert all == rest;
    } else {
      LeadsAt(next, a, all, a, |kept| - 1);
      assert all[|kept| - 1] == Last(a, kept) && Last(a, kept) in all;
    }
    if rest != [] {
      assert kept + [rest[0]] + rest[1..] == all;
      assert all[|kept|] == rest[0] && rest[0] in all;
    }
  }

  lemma RoundDrop(next: seq<int>, a: nat, kept: seq<nat>, rest: seq<nat>, held: set<nat>)
    requires Round(next, a, kept, rest, held) && rest != []
    ensures rest[0] < |next| && Last(a, kept) < |next|
    ensures Round(next[Last(a, kept) := next[rest[0]]], a, kept, rest[1..], held - {rest[0]})
  {
    var q, ys := rest[0], rest[1..];
    assert kept + rest == kept + [q] + ys;
    LeadsBound(next, a, kept + rest, a);
    assert q in kept + rest;
    LeadsUnlink(next, a, kept, q, ys, a, next[q]);
    assert next[Last(a, kept) := next[q]][q := next[q]] == next[Last(a, kept) := next[q]];
    Candidates.DistinctParts(kept, q, ys);
    assert forall x :: x in kept + ys ==> x in kept + rest && x != q;
  }

  lemma RoundClose(next: seq<int>, a: nat, kept: seq<nat>, held: set<nat>)
    requires Round(next, a, kept, [], held)
    ensures Ring(next, [a] + kept)
  {
    assert kept + [] == kept && ([a] + kept)[1..] == kept;
  }

  lemma RoundBehead(next: seq<int>, a: nat, kept: seq<nat>, held: set<nat>)
    requires Round(next, a, kept, [], held) && kept != []
    ensures a < |next| && Last(a, kept) < |next|
    ensures Ring(next[Last(a, kept) := next[a]], [Last(a, kept)] + kept[..|kept| - 1])
  {
    var n := |kept| - 1;
    var l, front := kept[n], kept[..n];
    assert kept + [] == kept && kept == front + [l] + [];
    LeadsSplit(next, a, front, l, [], a);
    var ring := [l] + front;
    assert ring[1..] == front;
    assert l in kept && forall x :: x in front ==> x in kept;
    LeadsBound(next, a, kept, a);
    Candidates.DistinctParts(front, l, []);
    assert front + [] == front;
    assert next[a] == if front == [] then l else front[0];
    if front != [] {
      LeadsFrame(next, front[0], front[1..], l, l, next[a]) by {
        assert forall x :: x in front[1..] ==> x in front;
      }
    }
    assert Leads(next[l := next[a]], l, front, l);
  }

  /** What has been seen of `ring` going round: the members that live, and
      whether any of them is touched or referred to. */
  ghost predicate Seen(h: Heap, ring: seq<nat>, kept: seq<nat>, rest: seq<nat>, failed: bool)
    reads h
  {
    && h.Shaped() && ring != [] && Within(ring, |h.g|)
    && (forall x :: x in kept ==> x in ring && h.typed[x])
    && (forall x :: x in rest ==> x in ring)
    && (forall x :: x in ring && h.typed[x] && x != ring[0] ==> x in kept || x in rest)
    && (failed <==> exists x :: x in kept && Bad(h.color, h.cyclic, x))
  }

  lemma SeenStart(h: Heap, c: Context, cs: seq<nat>, ring: seq<nat>)
    requires Calm(h, c, cs) && Ring(h.next, ring) && Set(ring) <= c.held
    ensures Seen(h, ring, [], ring[1..], false)
  {
    forall i | 0 <= i < |ring|
      ensures ring[i] < |h.g|
    {
      assert ring[i] in Set(ring);
    }
    assert forall x :: x in ring ==> x == ring[0] || x in ring[1..];
  }

  lemma SeenOne(h: Heap, ring: seq<nat>, kept: seq<nat>, rest: seq<nat>, failed: bool)
    requires Seen(h, ring, kept, rest, failed) && rest != []
    ensures rest[0] in ring && rest[0] < |h.g| && h.Shaped()
    ensures
      var q := rest[0];
      if h.typed[q] then Seen(h, ring, kept + [q], rest[1..], failed || Bad(h.color, h.cyclic, q))
      else Seen(h, ring, kept, rest[1..], failed)
  {
    var q := rest[0];
    assert q in rest && forall x :: x in rest <==> x == q || x in rest[1..];
    assert forall x :: x in kept + [q] <==> x == q || x in kept;
  }

  /** What the test answers. */
  ghost predicate Tested(h: Heap, ring: seq<nat>, ring': seq<nat>, failed: bool)
    reads h
  {
    && h.Shaped() && Within(ring', |h.g|) && (forall x :: x in ring' ==> h.typed[x])
    && (forall x :: x in ring' <==> x in ring && x < |h.typed| && h.typed[x])
    && (failed <==> exists x :: x in ring' && Bad(h.color, h.cyclic, x))
  }

  lemma SeenAll(h: Heap, ring: seq<nat>, kept: seq<nat>, failed: bool)
    requires Seen(h, ring, kept, [], failed)
    ensures ring[0] in ring && ring[0] < |h.g| && h.Shaped()
    ensures
      var a := ring[0];
      if h.typed[a] then Tested(h, ring, [a] + kept, failed || Bad(h.color, h.cyclic, a))
      else if kept == [] then Tested(h, ring, [], failed)
      else Tested(h, ring, [Last(a, kept)] + kept[..|kept| - 1], failed)
  {
    var a := ring[0];
    assert a in ring;
    if h.typed[a] {
      assert forall x :: x in [a] + kept <==> x == a || x in kept;
      SeenWithin(h, ring, [a] + kept);
    } else if kept != [] {
      var ring' := [Last(a, kept)] + kept[..|kept| - 1];
      assert kept == kept[..|kept| - 1] + [Last(a, kept)];
      assert forall x :: x in ring' <==> x in kept;
      SeenWithin(h, ring, ring');
    }
  }

  lemma SeenWithin(h: Heap, ring: seq<nat>, ring': seq<nat>)
    requires h.Shaped() && Within(ring, |h.g|) && forall x :: x in ring' ==> x in ring
    ensures Within(ring', |h.g|) && forall x :: x in ring ==> x < |h.g|
  {
    forall i | 0 <= i < |ring'|
      ensures ring'[i] < |h.g|
    {
      assert ring'[i] in ring';
    }
  }

  ghost function Dead(ring: seq<nat>, typed: seq<bool>): set<nat> {
    set x | x in ring && x < |typed| && !typed[x]
  }

  /** The dead members met so far. */
  ghost function Gone(ring: seq<nat>, typed: seq<bool>, rest: seq<nat>): set<nat>
    requires ring != []
  {
    Dead(ring, typed) - Set(rest) - {ring[0]}
  }

  lemma GoneOne(ring: seq<nat>, typed: seq<bool>, rest: seq<nat>)
    requires ring != [] && rest != [] && rest[0] in ring && rest[0] < |typed| && rest[0] !in rest[1..] && rest[0] != ring[0]
    ensures Gone(ring, typed, rest[1..]) == Gone(ring, typed, rest) + if typed[rest[0]] then {} else {rest[0]}
  {
    assert forall x :: x in rest <==> x == rest[0] || x in rest[1..];
  }

  lemma GoneEnds(ring: seq<nat>, typed: seq<bool>)
    requires ring != [] && ring[0] < |typed|
    ensures Gone(ring, typed, ring[1..]) == {}
    ensures Dead(ring, typed) == Gone(ring, typed, []) + if typed[ring[0]] then {} else {ring[0]}
  {
    assert forall x :: x in ring <==> x == ring[0] || x in ring[1..];
  }

  ghost function Less(c: Context, gone: set<nat>): Context {
    c.(held := c.held - gone)
  }

  lemma LessMore(c: Context, gone: set<nat>, q: nat)
    ensures Less(c, gone + {q}) == c.(held := Less(c, gone).held - {q}) && Less(c, gone + {}) == Less(c, gone)
    ensures Less(c, {}) == c
  {
    assert c.held - (gone + {q}) == c.held - gone - {q} && gone + {} == gone && c.held - {} == c.held;
  }

  /** Only the links of members are changed. */
  ghost predicate Inside(ring: seq<nat>, next: seq<int>, next': seq<int>) {
    |next| == |next'| && forall x: nat :: x < |next| && x !in ring ==> next'[x] == next[x]
  }

  lemma InsideOne(ring: seq<nat>, next: seq<int>, next': seq<int>, p: nat, v: int)
    requires Inside(ring, next, next') && p in ring && p < |next'|
    ensures Inside(ring, next, next'[p := v]) && Inside(ring, next, next)
  {
  }

  ghost predicate Going(h: Heap, ring: seq<nat>, kept: seq<nat>, rest: seq<nat>, failed: bool, c: Context, cs: seq<nat>,
                        next0: seq<int>)
    reads h
  {
    && ring != [] && Calm(h, Less(c, Gone(ring, h.typed, rest)), cs)
    && Round(h.next, ring[0], kept, rest, Less(c, Gone(ring, h.typed, rest)).held)
    && Seen(h, ring, kept, rest, failed) && Inside(ring, next0, h.next)
  }

  lemma GoingStart(h: Heap, ring: seq<nat>, c: Context, cs: seq<nat>)
    requires Calm(h, c, cs) && Ring(h.next, ring) && Set(ring) <= c.held
    ensures Going(h, ring, [], ring[1..], false, c, cs, h.next)
  {
    SeenStart(h, c, cs, ring);
    assert ring[0] in Set(ring);
    HeldFacts(h, c, cs, ring[0]);
    GoneEnds(ring, h.typed);
    LessMore(c, {}, 0);
    RoundStart(h.next, ring, c.held);
  }

  lemma GoingNext(h: Heap, ring: seq<nat>, kept: seq<nat>, rest: seq<nat>, failed: bool, c: Context, cs: seq<nat>,
                  next0: seq<int>)
    requires Going(h, ring, kept, rest, failed, c, cs, next0)
    ensures
      var p, q := Last(ring[0], kept), First(rest, ring[0]);
      var d := Less(c, Gone(ring, h.typed, rest));
      && h.Shaped() && p < |h.g| && q < |h.g| && h.next[p] == q && p in ring && q in ring && p in d.held && q in d.held
      && Calm(h, d, cs)
      && (rest != [] ==> q != ring[0] && q != p && q !in rest[1..])
      && (rest == [] && p == q ==> kept == [])
  {
    var d := Less(c, Gone(ring, h.typed, rest));
    RoundNext(h.next, ring[0], kept, rest, d.held);
    HeldFacts(h, d, cs, Last(ring[0], kept));
    HeldFacts(h, d, cs, First(rest, ring[0]));
    assert ring[0] in ring;
    if kept != [] {
      assert Last(ring[0], kept) in kept;
    }
    if rest != [] {
      assert rest[0] in rest;
      Candidates.DistinctParts(kept, rest[0], rest[1..]) by {
        assert kept + [rest[0]] + rest[1..] == kept + rest;
      }
    }
  }

  lemma GoingKeep(h: Heap, ring: seq<nat>, kept: seq<nat>, rest: seq<nat>, failed: bool, c: Context, cs: seq<nat>,
                  next0: seq<int>)
    requires Going(h, ring, kept, rest, failed, c, cs, next0) && rest != []
    requires rest[0] < |h.typed| && h.typed[rest[0]] && |h.typed| == |h.color| == |h.cyclic|
    ensures Going(h, ring, kept + [rest[0]], rest[1..], failed || Bad(h.color, h.cyclic, rest[0]), c, cs, next0)
  {
    GoingNext(h, ring, kept, rest, failed, c, cs, next0);
    hide Calm, Round, Seen, Bad;
    RoundNext(h.next, ring[0], kept, rest, Less(c, Gone(ring, h.typed, rest)).held);
    SeenOne(h, ring, kept, rest, failed);
    GoneOne(ring, h.typed, rest);
    LessMore(c, Gone(ring, h.typed, rest), 0);
  }

  /** A dead member other than the first one. */
  method SkipDead(h: Heap, p: nat, q: nat, ghost ring: seq<nat>, ghost kept: seq<nat>, ghost rest: seq<nat>,
                  ghost failed: bool, ghost c: Context, ghost cs: seq<nat>, ghost next0: seq<int>)
    requires Going(h, ring, kept, rest, failed, c, cs, next0) && rest != [] && q == rest[0] && p == Last(ring[0], kept)
    requires q < |h.typed| && !h.typed[q]
    modifies h`next, h`freed
    ensures Going(h, ring, kept, rest[1..], failed, c, cs, next0)
  {
    ghost var gone := Gone(ring, h.typed, rest);
    GoingNext(h, ring, kept, rest, failed, c, cs, next0);
    hide Calm, Round, Inside;
    RoundDrop(h.next, ring[0], kept, rest, Less(c, gone).held);
    InsideOne(ring, next0, h.next, p, h.next[q]);
    SeenOne(h, ring, kept, rest, failed);
    GoneOne(ring, h.typed, rest);
    LessMore(c, gone, q);
    hide Gone, Less;
    UnlinkDead(h, p, q, Less(c, gone), cs);
  }

  ghost predicate Outcome(h: Heap, ring: seq<nat>, ring': seq<nat>, failed: bool, cycle: int, c: Context, cs: seq<nat>,
                          next0: seq<int>)
    reads h
  {
    && Calm(h, Less(c, Dead(ring, h.typed)), cs) && Tested(h, ring, ring', failed) && Inside(ring, next0, h.next)
    && if ring' == [] then cycle == NIL else Ring(h.next, ring') && cycle == ring'[0]
  }

  /** Back at a first member that lives. */
  lemma GoingClose(h: Heap, ring: seq<nat>, kept: seq<nat>, failed: bool, c: Context, cs: seq<nat>, next0: seq<int>)
    requires Going(h, ring, kept, [], failed, c, cs, next0) && |h.typed| == |h.color| == |h.cyclic|
    requires ring[0] < |h.typed| && h.typed[ring[0]]
    ensures Outcome(h, ring, [ring[0]] + kept, failed || Bad(h.color, h.cyclic, ring[0]), ring[0], c, cs, next0)
  {
    hide Calm, Round, Bad, Seen, Inside;
    SeenAll(h, ring, kept, failed);
    RoundClose(h.next, ring[0], kept, Less(c, Gone(ring, h.typed, [])).held);
    GoneEnds(ring, h.typed);
    LessMore(c, Gone(ring, h.typed, []), 0);
  }

  /** Back at a first member that is dead. */
  method Behead(h: Heap, p: nat, a: nat, ghost ring: seq<nat>, ghost kept: seq<nat>, ghost failed: bool, ghost c: Context,
                ghost cs: seq<nat>, ghost next0: seq<int>)
      returns (cycle: int, ghost ring': seq<nat>)
    requires Going(h, ring, kept, [], failed, c, cs, next0) && a == ring[0] && p == Last(a, kept)
    requires a < |h.typed| && !h.typed[a]
    modifies h`next, h`freed
    ensures Outcome(h, ring, ring', failed, cycle, c, cs, next0)
  {
    hide Calm, Round, Seen, Inside;
    ghost var gone := Gone(ring, h.typed, []);
    GoingNext(h, ring, kept, [], failed, c, cs, next0);
    SeenAll(h, ring, kept, failed);
    if kept != [] {
      RoundBehead(h.next, a, kept, Less(c, gone).held);
    }
    InsideOne(ring, next0, h.next, p, h.next[a]);
    GoneEnds(ring, h.typed);
    LessMore(c, gone, a);
    ring' := if kept == [] then [] else [p] + kept[..|kept| - 1];
    cycle := if p == a then NIL else p;
    hide Gone, Less;
    UnlinkDead(h, p, a, Less(c, gone), cs);
  }

  /** The first loop of the test: frees the members whose type is gone and looks
      at the others. */
  method TestCycle(h: Heap, cycle0: nat, ghost ring: seq<nat>, ghost c: Context, ghost cs: seq<nat>)
      returns (failed: bool, cycle: int, ghost ring': seq<nat>)
    requires Calm(h, c, cs) && Ring(h.next, ring) && Set(ring) <= c.held && cycle0 == ring[0]
    modifies h`next, h`freed
    ensures Outcome(h, ring, ring', failed, cycle, c, cs, old(h.next))
  {
    failed := false;
    var p: nat := cycle0;
    ghost var kept: seq<nat>, rest: seq<nat> := [], ring[1..];
    GoingStart(h, ring, c, cs);
    hide Going, Outcome;
    while true
      invariant Going(h, ring, kept, rest, failed, c, cs, old(h.next)) && p == Last(cycle0, kept)
      decreases |rest|
    {
      GoingNext(h, ring, kept, rest, failed, c, cs, old(h.next));
      var q: nat := h.next[p];
      if h.typed[q] {
        var bad := h.color[q] != ORANGE || h.cyclic[q] > 0;
        p := q;
        if p == cycle0 {
          GoingClose(h, ring, kept, failed, c, cs, old(h.next));
          failed, cycle, ring' := failed || bad, cycle0, [cycle0] + kept;
          return;
        }
        GoingKeep(h, ring, kept, rest, failed, c, cs, old(h.next));
        failed := failed || bad;
        kept, rest := kept + [q], rest[1..];
      } else if q == cycle0 {
        cycle, ring' := Behead(h, p, q, ring, kept, failed, c, cs, old(h.next));
        return;
      } else {
        SkipDead(h, p, q, ring, kept, rest, failed, c, cs, old(h.next));
        rest := rest[1..];
      }
    }
  }
}
