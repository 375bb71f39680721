/** Taking apart a cycle that failed its test, and the whole drain of pending
    cycles. */
module Refurbishing {
  import opened ObjectGraph
  import opened ObjectHeap
  import opened LinkedLists
  import opened Detaching
  import opened Collecting
  import opened Accounts
  import opened ReleaseLists
  import opened Releasing
  import opened Draining

  // ----- One member -----

  /** Painting an object that is not RED anything but ORANGE or RED disturbs no account. */
  lemma Repaint(b: Books, x: nat, color: Color)
    requires Still(b) && b.reds == {} && x < |b.g| && b.typed[x] && color != RED && color != ORANGE
    ensures Still(b.(color := b.color[x := color]))
  {
    var b' := b.(color := b.color[x := color]);
    assert x in b.Holders() && b.color[x] != RED;
    assert b'.Holders() == b.Holders() && b'.Others() == b.Others();
    assert b'.Isolated() && b'.Severed() && b'.Waiting({});
  }

  /** Out of the cycle, to no list. */
  lemma LetGo(n: nat, next: seq<int>, previous: seq<int>, typed: seq<bool>, freed: set<nat>,
              cs: seq<nat>, held: set<nat>, garb: set<nat>, p: nat)
    requires Lists(n, next, previous, typed, freed, cs, held, garb) && p in held && p < n && typed[p]
    ensures Lists(n, next[p := NIL], previous, typed, freed, cs, held - {p}, garb)
  {
    DoublyFrame(next, next[p := NIL], previous, previous, n, cs, n);
  }

  /** Out of the cycle, to the garbage. */
  lemma SetAside(n: nat, next: seq<int>, previous: seq<int>, typed: seq<bool>, freed: set<nat>,
                 cs: seq<nat>, held: set<nat>, garb: set<nat>, p: nat, v: int)
    requires Lists(n, next, previous, typed, freed, cs, held, garb) && p in held && p < n && typed[p]
    ensures Lists(n, next[p := v], previous, typed, freed, cs, held - {p}, garb + {p})
  {
    DoublyFrame(next, next[p := v], previous, previous, n, cs, n);
  }

  /** Out of the cycle, to the candidates. */
  lemma Renominate(n: nat, next: seq<int>, previous: seq<int>, typed: seq<bool>, freed: set<nat>,
                   cs: seq<nat>, held: set<nat>, garb: set<nat>, p: nat)
    requires Lists(n, next, previous, typed, freed, cs, held, garb) && p in held && p < n && typed[p] && p !in garb
    ensures 0 <= previous[n] <= n
    ensures
      var l := previous[n];
      var next', previous' := next[p := n][l := p], previous[p := l][n := p];
      && Lists(n, next', previous', typed, freed, cs + [p], held - {p}, garb)
      && Untouched(held - {p} + garb, next, next', previous, previous')
  {
    LetGo(n, next, previous, typed, freed, cs, held, garb, p);
    var next0 := next[p := NIL];
    AppendList(n, next0, previous, typed, freed, cs, held - {p}, garb, p);
    assert next0[p := n] == next[p := n];
  }

  lemma OrangesGone(color: seq<Color>, color': seq<Color>, typed: seq<bool>, held: set<nat>, garb: set<nat>, p: nat)
    requires Oranges(color, typed, held + garb) && p < |color| == |color'|
    requires color' == color[p := color'[p]] && Plain(color'[p]) && color'[p] != ORANGE
    ensures Oranges(color', typed, held - {p} + garb)
  {
  }

  lemma OrangesAside(color: seq<Color>, typed: seq<bool>, held: set<nat>, garb: set<nat>, p: nat)
    requires Oranges(color, typed, held + garb)
    ensures Oranges(color, typed, held - {p} + (garb + {p}))
  {
  }

  ghost function Moved(c: Context, p: nat, aside: bool): Context {
    c.(held := c.held - {p}, garb := if aside then c.garb + {p} else c.garb)
  }

  lemma MemberFacts(h: Heap, c: Context, cs: seq<nat>, p: nat)
    requires Calm(h, c, cs) && p in c.held
    ensures h.Shaped() && p < |h.g| && p !in c.garb && p !in cs && h.next[p] != NIL
    ensures h.count[p] == 0 ==> Idle(h.count, c.garb + {p})
    ensures h.count[p] > 0 ==> Lively(h.count, h.typed, c.held - {p} + c.garb, {})
    ensures Lively(h.count, h.typed, c.held - {p} + (c.garb + {p}), {})
  {
  }

  /** A member without a reference is set aside, to be released later. */
  method Aside(h: Heap, p: nat, garbage: int, ghost c: Context, ghost cs: seq<nat>)
    requires Calm(h, c, cs) && p in c.held && p < |h.typed| && h.typed[p] && h.count[p] == 0
    modifies h`next
    ensures p < |old(h.next)| && h.next == old(h.next)[p := garbage] && Calm(h, Moved(c, p, true), cs)
    ensures Untouched(c.held - {p} + c.garb, old(h.next), h.next, h.previous, h.previous)
  {
    hide Still, Idle, Lively, Lists, Oranges, Untouched;
    MemberFacts(h, c, cs, p);
    SetAside(|h.g|, h.next, h.previous, h.typed, h.freed, cs, c.held, c.garb, p, garbage);
    OrangesAside(h.color, h.typed, c.held, c.garb, p);
    UntouchedAt(c.held - {p} + c.garb, h.next, h.previous, p, garbage);
    h.next := h.next[p := garbage];
  }

  /** A PURPLE member becomes a candidate again. */
  method Nominate(h: Heap, p: nat, ghost c: Context, ghost cs: seq<nat>)
    requires Calm(h, c, cs) && p in c.held && p < |h.typed| && h.typed[p] && h.count[p] > 0 && h.color[p] == PURPLE
    modifies h`next, h`previous
    ensures Calm(h, Moved(c, p, false), cs + [p])
    ensures Untouched(c.held - {p} + c.garb, old(h.next), h.next, old(h.previous), h.previous)
  {
    hide Still, Idle, Lively, Lists, Oranges, Untouched;
    MemberFacts(h, c, cs, p);
    Renominate(|h.g|, h.next, h.previous, h.typed, h.freed, cs, c.held, c.garb, p);
    OrangesGone(h.color, h.color, h.typed, c.held, c.garb, p);
    h.next := h.next[p := |h.g|];
    h.previous := h.previous[p := h.previous[|h.g|]];
    h.next := h.next[h.previous[p] := p];
    h.previous := h.previous[|h.g| := p];
  }

  /** Any other member is let go. */
  method Acquit(h: Heap, p: nat, ghost c: Context, ghost cs: seq<nat>)
    requires Calm(h, c, cs) && c.reds == {} && p in c.held && p < |h.typed| && h.typed[p] && h.count[p] > 0
    modifies h`color, h`next
    ensures Calm(h, Moved(c, p, false), cs) && p < |old(h.color)| && h.color == old(h.color)[p := BLACK]
    ensures Untouched(c.held - {p} + c.garb, old(h.next), h.next, h.previous, h.previous)
  {
    hide Idle, Lively, Lists, Oranges, Untouched, Still;
    MemberFacts(h, c, cs, p);
    CalmStill(h, c, cs);
    ghost var b := BooksOf(h, c);
    Repaint(b, p, BLACK);
    LetGo(|h.g|, h.next, h.previous, h.typed, h.freed, cs, c.held, c.garb, p);
    OrangesGone(h.color, h.color[p := BLACK], h.typed, c.held, c.garb, p);
    UntouchedAt(c.held - {p} + c.garb, h.next, h.previous, p, NIL);
    h.color := h.color[p := BLACK];
    h.next := h.next[p := NIL];
    assert BooksOf(h, Moved(c, p, false)) == b.(color := h.color);
  }

  /** One round of the loop that takes a failed cycle apart. */
  method Refurbish(h: Heap, p: nat, garbage: int, ghost c: Context, ghost cs: seq<nat>)
      returns (garbage': int, ghost c': Context, ghost cs': seq<nat>)
    requires Calm(h, c, cs) && c.reds == {} && p in c.held && p < |h.typed| == |h.count| == |h.color| && h.typed[p]
    modifies h`color, h`next, h`previous
    ensures Calm(h, c', cs') && c' == Moved(c, p, h.count[p] == 0)
    ensures Untouched(c.held - {p} + c.garb, old(h.next), h.next, old(h.previous), h.previous)
    ensures if h.count[p] == 0 then garbage' == p && p < |h.next| && h.next[p] == garbage else garbage' == garbage
    ensures p < |h.color| == |old(h.color)| && h.color == old(h.color)[p := h.color[p]]
  {
    hide Calm, Untouched;
    garbage', cs' := garbage, cs;
    c' := Moved(c, p, h.count[p] == 0);
    if h.count[p] <= 0 {
      Aside(h, p, garbage, c, cs);
      garbage' := p;
    } else if h.color[p] == PURPLE {
      Nominate(h, p, c, cs);
      cs' := cs + [p];
    } else {
      Acquit(h, p, c, cs);
    }
  }

  lemma UntouchedAt(s: set<nat>, next: seq<int>, previous: seq<int>, p: nat, v: int)
    requires p !in s && p < |next| == |previous|
    ensures Untouched(s, next, next[p := v], previous, previous)
  {
  }

  lemma UntouchedSome(s: set<nat>, t: set<nat>, next: seq<int>, next': seq<int>, previous: seq<int>, previous': seq<int>)
    requires Untouched(s, next, next', previous, previous') && t <= s
    ensures Untouched(t, next, next', previous, previous')
  {
  }

  lemma {:induction false} ChainSame(top: int, next: seq<int>, next': seq<int>, gs: seq<nat>)
    requires Chain(top, next, gs) && |next| == |next'| && forall x :: x in gs && x < |next| ==> next'[x] == next[x]
    ensures Chain(top, next', gs)
    decreases gs
  {
    if gs != [] {
      assert gs[|gs| - 1] in gs;
      ChainSame(next[top], next, next', gs[..|gs| - 1]);
    }
  }

  /** The garbage list is intact. */
  ghost predicate Heaped(h: Heap, garbage: int, gs: seq<nat>, c: Context)
    reads h
  {
    Chain(garbage, h.next, gs) && c.garb == Set(gs)
  }

  lemma HeapedOne(h: Heap, next0: seq<int>, previous0: seq<int>, garbage: int, gs: seq<nat>, s: set<nat>, p: nat,
                  garbage': int)
    requires Chain(garbage, next0, gs) && Set(gs) <= s && Untouched(s, next0, h.next, previous0, h.previous)
    requires p !in Set(gs)
    requires garbage' == garbage || (garbage' == p && p < |h.next| && h.next[p] == garbage)
    ensures Chain(garbage', h.next, if garbage' == garbage then gs else gs + [p])
  {
    assert forall x :: x in gs ==> x in Set(gs);
    ChainSame(garbage, next0, h.next, gs);
    assert (gs + [p])[..|gs|] == gs;
  }

  /** The members from the number `i` on are still in the cycle. */
  ghost predicate Dismantling(h: Heap, ring: seq<nat>, i: nat, c: Context, d: Context, cs: seq<nat>, gs: seq<nat>, garbage: int,
                        next0: seq<int>, previous0: seq<int>)
    reads h
  {
    && i <= |ring| && Calm(h, d, cs) && Heaped(h, garbage, gs, d)
    && d == c.(held := c.held - Set(ring[..i]), garb := d.garb) && c.garb <= d.garb
    && Untouched(c.held - Set(ring[..i]) + c.garb, next0, h.next, previous0, h.previous)
  }

  lemma DismantlingFacts(h: Heap, ring: seq<nat>, i: nat, c: Context, d: Context, cs: seq<nat>, gs: seq<nat>, garbage: int,
                   next0: seq<int>, previous0: seq<int>)
    requires Dismantling(h, ring, i, c, d, cs, gs, garbage, next0, previous0)
    requires Ring(next0, ring) && Set(ring) <= c.held && i < |ring|
    ensures Calm(h, d, cs) && d.reds == c.reds && h.Shaped() && ring[i] in d.held && ring[i] < |h.g|
    ensures h.next[ring[i]] == if i + 1 < |ring| then ring[i + 1] else ring[0]
    ensures i + 1 < |ring| ==> ring[i + 1] != ring[0]
    ensures ring[i] !in d.garb && ring[i] != garbage && ring[i] in ring
  {
    RingHeld(next0, ring, i, c.held);
    RingNext(next0, ring, i);
    HeldFacts(h, d, cs, ring[i]);
    if gs != [] {
      assert gs[|gs| - 1] in Set(gs);
    }
  }

  lemma DismantlingOne(h: Heap, ring: seq<nat>, i: nat, c: Context, d: Context, d': Context, cs': seq<nat>, gs: seq<nat>,
                 garbage: int, garbage': int, next0: seq<int>, previous0: seq<int>, next1: seq<int>, previous1: seq<int>)
    requires Ring(next0, ring) && Set(ring) <= c.held && i < |ring|
    requires d == c.(held := c.held - Set(ring[..i]), garb := d.garb) && c.garb <= d.garb
    requires Untouched(c.held - Set(ring[..i]) + c.garb, next0, next1, previous0, previous1)
    requires Chain(garbage, next1, gs) && d.garb == Set(gs)
    requires Calm(h, d', cs') && ring[i] in d.held && ring[i] !in d.garb
    requires garbage' == garbage || (garbage' == ring[i] && ring[i] < |h.next| && h.next[ring[i]] == garbage)
    requires d' == Moved(d, ring[i], garbage' != garbage)
    requires Untouched(d.held - {ring[i]} + d.garb, next1, h.next, previous1, h.previous)
    ensures Dismantling(h, ring, i + 1, c, d', cs', if garbage' == garbage then gs else gs + [ring[i]], garbage', next0, previous0)
  {
    hide Calm;
    var p := ring[i];
    RingHeld(next0, ring, i, c.held);
    HeapedOne(h, next1, previous1, garbage, gs, d.held - {p} + d.garb, p, garbage');
    assert Set(gs + [p]) == Set(gs) + {p};
    var s := c.held - Set(ring[..i + 1]) + c.garb;
    assert d'.held == c.held - Set(ring[..i + 1]);
    UntouchedSome(d.held - {p} + d.garb, s, next1, h.next, previous1, h.previous);
    UntouchedSome(c.held - Set(ring[..i]) + c.garb, s, next0, next1, previous0, previous1);
    UntouchedTrans(s, next0, next1, h.next, previous0, previous1, h.previous);
  }

  method DismantleStep(h: Heap, p: nat, garbage: int, ghost i: nat, ghost ring: seq<nat>, ghost gs: seq<nat>,
                   ghost c: Context, ghost d: Context, ghost cs: seq<nat>, ghost next0: seq<int>, ghost previous0: seq<int>)
      returns (garbage': int, ghost gs': seq<nat>, ghost cs': seq<nat>, ghost d': Context)
    requires Dismantling(h, ring, i, c, d, cs, gs, garbage, next0, previous0) && c.reds == {}
    requires Ring(next0, ring) && Set(ring) <= c.held && i < |ring| && p == ring[i] < |h.typed| && h.typed[p]
    modifies h`color, h`next, h`previous
    ensures Dismantling(h, ring, i + 1, c, d', cs', gs', garbage', next0, previous0)
  {
    hide Calm, Untouched, Ring, Set, Chain, Moved;
    ghost var next1, previous1 := h.next, h.previous;
    DismantlingFacts(h, ring, i, c, d, cs, gs, garbage, next0, previous0);
    garbage', d', cs' := Refurbish(h, p, garbage, d, cs);
    gs' := if garbage' == garbage then gs else gs + [p];
    hide Dismantling;
    DismantlingOne(h, ring, i, c, d, d', cs', gs, garbage, garbage', next0, previous0, next1, previous1);
  }

  /** The first member of a failed cycle is to be a candidate again. */
  method Suspect(h: Heap, p: nat, ghost c: Context, ghost cs: seq<nat>)
    requires Calm(h, c, cs) && c.reds == {} && p < |h.typed| == |h.color| && h.typed[p]
    modifies h`color
    ensures Calm(h, c, cs)
  {
    hide Idle, Lively, Lists, Untouched, Still;
    CalmStill(h, c, cs);
    ghost var b := BooksOf(h, c);
    if h.color[p] == ORANGE {
      Repaint(b, p, PURPLE);
      h.color := h.color[p := PURPLE];
      assert BooksOf(h, c) == b.(color := h.color);
    }
  }

  /** Takes a failed cycle apart. */
  method TakeApart(h: Heap, cycle: nat, garbage0: int, ghost ring: seq<nat>, ghost gs0: seq<nat>, ghost c: Context,
                   ghost cs0: seq<nat>)
      returns (garbage: int, ghost gs: seq<nat>, ghost cs: seq<nat>, ghost d: Context)
    requires Calm(h, c, cs0) && c.reds == {} && Heaped(h, garbage0, gs0, c)
    requires Ring(h.next, ring) && cycle == ring[0] && Set(ring) <= c.held
    requires forall x :: x in ring ==> x < |h.typed| && h.typed[x]
    modifies h`color, h`next, h`previous
    ensures Dismantling(h, ring, |ring|, c, d, cs, gs, garbage, old(h.next), old(h.previous))
  {
    var p: nat := cycle;
    ghost var i := 0;
    garbage, gs, cs, d := garbage0, gs0, cs0, c;
    assert p in ring;
    CalmShaped(h, c, cs);
    Suspect(h, p, c, cs);
    NoneFreed(c, ring);
    UntouchedSelf(c.held - Set(ring[..0]) + c.garb, h.next, h.previous);
    ghost var next0, previous0 := h.next, h.previous;
    assert Dismantling(h, ring, 0, c, d, cs, gs, garbage, next0, previous0);
    hide Calm, Dismantling, Untouched, Ring, Set;
    while true
      invariant i < |ring| && p == ring[i]
      invariant Dismantling(h, ring, i, c, d, cs, gs, garbage, next0, previous0)
      decreases |ring| - i
    {
      DismantlingFacts(h, ring, i, c, d, cs, gs, garbage, next0, previous0);
      assert p in ring;
      var q := h.next[p];
      garbage, gs, cs, d := DismantleStep(h, p, garbage, i, ring, gs, c, d, cs, next0, previous0);
      p := q;
      i := i + 1;
      if p == cycle {
        break;
      }
    }
    assert i == |ring|;
  }
}
