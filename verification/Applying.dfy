/** Changes between two passes: references are stored and dropped, in fields or
    elsewhere, and the counts follow. They may touch any object, members of
    pending cycles included. */
module Applying {
  import opened ObjectGraph
  import opened ObjectHeap
  import opened LinkedLists
  import opened Detaching
  import opened Collecting
  import opened Accounts
  import opened ReleaseLists
  import opened Releasing
  import opened Draining
  import opened Drain

  /** Who holds a reference: an object or something else. */
  datatype Holder = Elsewhere | Object(y: nat)

  lemma {:induction false} InRow(g: Graph, y: nat, row: seq<nat>, s: set<nat>, x: nat)
    requires y < |g|
    ensures In(g[y := row], s, x) + (if y in s then Times(g[y], x) else 0) ==
            In(g, s, x) + if y in s then Times(row, x) else 0
  {
    var n := |g| - 1;
    if y < n {
      assert g[y := row][..n] == g[..n][y := row];
      InRow(g[..n], y, row, s, x);
    } else {
      assert g[y := row][..n] == g[..n];
    }
  }

  // ----- One more reference -----

  function Stored(g: Graph, w: Holder, x: nat): Graph
    requires w.Object? ==> w.y < |g|
  {
    if w.Object? then g[w.y := g[w.y] + [x]] else g
  }

  ghost function Raised(elsewhere: seq<nat>, w: Holder, x: nat): seq<nat>
    requires x < |elsewhere|
  {
    if w.Elsewhere? then elsewhere[x := elsewhere[x] + 1] else elsewhere
  }

  ghost function Gained(b: Books, w: Holder, x: nat): Books
    requires b.Sized() && x < |b.g| && (w.Object? ==> w.y < |b.g|)
  {
    b.(g := Stored(b.g, w, x), elsewhere := Raised(b.elsewhere, w, x), count := b.count[x := b.count[x] + 1],
       color := b.color[x := BLACK])
  }

  lemma StoredIn(g: Graph, w: Holder, x: nat, s: set<nat>, z: nat)
    requires w.Object? ==> w.y < |g|
    ensures In(Stored(g, w, x), s, z) == In(g, s, z) + if w.Object? && w.y in s && z == x then 1 else 0
  {
    if w.Object? {
      InRow(g, w.y, g[w.y] + [x], s, z);
    }
  }

  lemma GainStill(b: Books, w: Holder, x: nat)
    requires Still(b) && b.reds == {} && x < |b.g| && b.typed[x] && (w.Object? ==> w.y < |b.g| && b.typed[w.y])
    ensures b.Sized() && Closed(Stored(b.g, w, x)) && Still(Gained(b, w, x)) && b.color[x] != RED
  {
    var b' := Gained(b, w, x);
    assert x in b.Holders();
    forall s: set<nat>, z: nat
      ensures In(b'.g, s, z) == In(b.g, s, z) + if w.Object? && w.y in s && z == x then 1 else 0
    {
      StoredIn(b.g, w, x, s, z);
    }
    assert b'.Holders() == b.Holders() && b'.Others() == b.Others() == b.Holders();
    assert b'.Isolated() && b'.Severed() && b'.Waiting({});
  }

  // ----- One reference less -----

  /** There is such a reference: for an object, the one at `i` of its row. */
  ghost predicate Holds(g: Graph, elsewhere: seq<nat>, w: Holder, i: nat, x: nat) {
    && x < |g| == |elsewhere|
    && match w
       case Elsewhere => elsewhere[x] > 0
       case Object(y) => y < |g| && i < |g[y]| && g[y][i] == x
  }

  function Cleared(g: Graph, w: Holder, i: nat): Graph
    requires w.Object? ==> w.y < |g| && i < |g[w.y]|
  {
    if w.Object? then g[w.y := g[w.y][..i] + g[w.y][i + 1..]] else g
  }

  ghost function Lowered(elsewhere: seq<nat>, w: Holder, x: nat): seq<nat>
    requires x < |elsewhere| && (w.Elsewhere? ==> elsewhere[x] > 0)
  {
    if w.Elsewhere? then elsewhere[x := elsewhere[x] - 1] else elsewhere
  }

  ghost function Lost(b: Books, w: Holder, i: nat, x: nat): Books
    requires b.Sized() && Holds(b.g, b.elsewhere, w, i, x) && b.count[x] > 0
  {
    Decremented(b, x).(g := Cleared(b.g, w, i), elsewhere := Lowered(b.elsewhere, w, x))
  }

  lemma ClearedIn(g: Graph, elsewhere: seq<nat>, w: Holder, i: nat, x: nat, s: set<nat>, z: nat)
    requires Holds(g, elsewhere, w, i, x)
    ensures In(Cleared(g, w, i), s, z) + (if w.Object? && w.y in s && z == x then 1 else 0) == In(g, s, z)
  {
    if w.Object? {
      var row := g[w.y];
      assert row == row[..i] + [x] + row[i + 1..];
      InRow(g, w.y, row[..i] + row[i + 1..], s, z);
    }
  }

  lemma LoseCounted(b: Books, w: Holder, i: nat, x: nat)
    requires Still(b) && b.reds == {} && b.base == Zeros(|b.g|) && Holds(b.g, b.elsewhere, w, i, x)
    requires w.Object? ==> b.typed[w.y]
    ensures b.Sized() && b.typed[x] && b.count[x] > 0 && b.color[x] != RED
  {
    if w.Object? {
      assert w.y in b.Others() && b.typed[b.g[w.y][i]];
      InPositive(b.g, b.Holders(), x);
    }
    assert x in b.Others();
  }

  lemma ClearedClosed(g: Graph, elsewhere: seq<nat>, w: Holder, i: nat, x: nat)
    requires Closed(g) && Holds(g, elsewhere, w, i, x)
    ensures Closed(Cleared(g, w, i))
    ensures forall y, j :: 0 <= y < |g| && 0 <= j < |Cleared(g, w, i)[y]| ==> Cleared(g, w, i)[y][j] in g[y]
  {
  }

  lemma LoseSevered(b: Books, w: Holder, i: nat, x: nat)
    requires Still(b) && b.reds == {} && Holds(b.g, b.elsewhere, w, i, x) && b.count[x] > 0
    requires Lost(b, w, i, x).Sized() && (w.Object? ==> b.typed[w.y])
    ensures Lost(b, w, i, x).Isolated() && Lost(b, w, i, x).Severed()
  {
    var b' := Lost(b, w, i, x);
    ClearedClosed(b.g, b.elsewhere, w, i, x);
    forall z: nat | z < |b'.g|
      ensures In(b'.g, {}, z) <= In(b.g, {}, z)
    {
      ClearedIn(b.g, b.elsewhere, w, i, x, {}, z);
    }
    assert b'.Others() == b.Others();
  }

  lemma LoseBalanced(b: Books, w: Holder, i: nat, x: nat)
    requires Still(b) && b.reds == {} && b.base == Zeros(|b.g|) && Holds(b.g, b.elsewhere, w, i, x) && b.count[x] > 0
    requires Lost(b, w, i, x).Sized() && (w.Object? ==> b.typed[w.y])
    ensures Lost(b, w, i, x).Balanced(x, 0)
  {
    var b' := Lost(b, w, i, x);
    assert b'.g[x][..0] == [];
    assert b'.Others() == b.Others() == b.Holders() == b'.Holders();
    forall z | z in b'.Others()
      ensures b'.count[z] + b'.base[z] + Times(b'.g[x][..0], z) == b'.elsewhere[z] + In(b'.g, b'.Holders(), z)
    {
      ClearedIn(b.g, b.elsewhere, w, i, x, b.Holders(), z);
    }
  }

  lemma LoseStill(b: Books, w: Holder, i: nat, x: nat)
    requires Still(b) && b.reds == {} && b.base == Zeros(|b.g|) && Holds(b.g, b.elsewhere, w, i, x)
    requires w.Object? ==> b.typed[w.y]
    ensures b.Sized() && b.count[x] > 0 && Closed(Cleared(b.g, w, i))
    ensures if b.count[x] > 1 then Still(Lost(b, w, i, x)) else Dropping(Lost(b, w, i, x), x, 0, [])
  {
    hide Books.Isolated, Books.Severed, Books.Waiting, Cleared, In;
    LoseCounted(b, w, i, x);
    ClearedClosed(b.g, b.elsewhere, w, i, x);
    ClearedSize(b.g, b.elsewhere, w, i, x);
    LoseSevered(b, w, i, x);
    LoseBalanced(b, w, i, x);
    LoseWaiting(b, w, i, x);
    var b' := Lost(b, w, i, x);
    assert b'.Others() == b'.Holders() && {x} + Set([]) == {x};
    assert b.count[x] > 1 ==> b'.Balanced(x, 0);
  }

  lemma LoseWaiting(b: Books, w: Holder, i: nat, x: nat)
    requires Still(b) && b.reds == {} && Holds(b.g, b.elsewhere, w, i, x) && b.count[x] > 0
    requires Lost(b, w, i, x).Sized()
    ensures Lost(b, w, i, x).Waiting({x})
    ensures b.count[x] > 1 ==> Lost(b, w, i, x).Waiting({})
  {
    var b' := Lost(b, w, i, x);
    forall z | z in b'.Holders() && b'.color[z] == ORANGE && z != x
      ensures b'.home[z] !! b'.reds && b'.cyclic[z] + In(b'.g, b'.home[z] * b'.Holders(), z) == b'.count[z]
    {
      ClearedIn(b.g, b.elsewhere, w, i, x, b.home[z] * b.Holders(), z);
    }
  }

  // ----- On the heap -----

  lemma QueueUntouched(cycles: int, nextCycle: seq<int>, next: seq<int>, next': seq<int>, previous: seq<int>,
                       previous': seq<int>, rings: seq<seq<nat>>, home: seq<set<nat>>, held: set<nat>, s: set<nat>)
    requires Queue(cycles, nextCycle, next, rings, home, held) && Untouched(s, next, next', previous, previous') && held <= s
    ensures Queue(cycles, nextCycle, next', rings, home, held)
  {
    forall k, y | 0 <= k < |rings| && y in rings[k] && y < |next|
      ensures next'[y] == next[y]
    {
      assert y in held;
    }
    PendingSame(cycles, nextCycle, next, next', rings);
  }

  /** What applying a count needs and keeps. */
  ghost predicate Open(h: Heap, c: Context, cs: seq<nat>)
    reads h
  {
    Calm(h, c, cs) && c.reds == {} && c.base == Zeros(|c.base|) && c.garb == {} && Homes(c.home)
  }

  lemma OpenDrainable(h: Heap, c: Context, cs: seq<nat>, rings: seq<seq<nat>>)
    requires Drainable(h, c, cs, rings, NIL, [])
    ensures Open(h, c, cs) && Queue(h.cycles, h.nextCycle, h.next, rings, c.home, c.held)
    ensures |c.elsewhere| == |h.g| && h.Shaped()
  {
    assert Set([]) == {};
  }

  lemma DrainableOpen(h: Heap, c: Context, cs: seq<nat>, rings: seq<seq<nat>>)
    requires Open(h, c, cs) && Queue(h.cycles, h.nextCycle, h.next, rings, c.home, c.held)
    ensures Drainable(h, c, cs, rings, NIL, [])
  {
    assert Set([]) == {};
  }

  lemma OpenStill(h: Heap, c: Context, cs: seq<nat>)
    requires Open(h, c, cs)
    ensures h.Shaped() && Still(BooksOf(h, c)) && |c.base| == |h.g| && c.base == Zeros(|h.g|)
  {
  }

  lemma OrangesBlack(color: seq<Color>, typed: seq<bool>, s: set<nat>, x: nat)
    requires Oranges(color, typed, s) && x < |color|
    ensures Oranges(color[x := BLACK], typed, s)
  {
  }

  lemma LivelyMore(count: seq<nat>, typed: seq<bool>, aside: set<nat>, x: nat)
    requires Lively(count, typed, aside, {}) && x < |count|
    ensures Lively(count[x := count[x] + 1], typed, aside, {})
  {
  }

  lemma IdleNone(count: seq<nat>)
    ensures Idle(count, {})
  {
  }

  lemma TypedSelf(typed: seq<bool>)
    ensures Typed(typed) <= Typed(typed)
  {
  }

  ghost function Plus(c: Context, w: Holder, x: nat): Context
    requires x < |c.elsewhere|
  {
    c.(elsewhere := Raised(c.elsewhere, w, x))
  }

  ghost function Minus(c: Context, w: Holder, x: nat): Context
    requires x < |c.elsewhere| && (w.Elsewhere? ==> c.elsewhere[x] > 0)
  {
    c.(elsewhere := Lowered(c.elsewhere, w, x))
  }

  /** A reference to a living object is stored, and t_object::f_increment. */
  method Increment(h: Heap, w: Holder, x: nat, ghost c: Context, ghost cs: seq<nat>, ghost rings: seq<seq<nat>>)
      returns (ghost cs': seq<nat>)
    requires Drainable(h, c, cs, rings, NIL, []) && x < |h.g| == |h.typed| == |c.elsewhere| && h.typed[x]
    requires w.Object? ==> w.y < |h.g| && h.typed[w.y]
    modifies h`g, h`count, h`color, h`next, h`previous
    ensures Drainable(h, Plus(c, w, x), cs', rings, NIL, []) && h.g == Stored(old(h.g), w, x)
  {
    hide Drainable, Still, Lists, Lively, Oranges, Queue, Homes, Zeros, Untouched, Idle, Stored, Closed;
    OpenDrainable(h, c, cs, rings);
    OpenStill(h, c, cs);
    ghost var b := BooksOf(h, c);
    GainStill(b, w, x);
    StoredSize(h.g, w, x);
    OrangesBlack(h.color, h.typed, c.held + c.garb, x);
    LivelyMore(h.count, h.typed, c.held + c.garb, x);
    IdleNone(h.count[x := h.count[x] + 1]);
    UntouchedSelf(c.held + c.garb, h.next, h.previous);
    ghost var next0, previous0 := h.next, h.previous;
    ghost var c' := Plus(c, w, x);
    cs' := cs;
    h.g := Stored(h.g, w, x);
    h.count := h.count[x := h.count[x] + 1];
    h.color := h.color[x := BLACK];
    assert BooksOf(h, c') == Gained(b, w, x);
    if h.next[x] == NIL {
      Append(h, x, c', cs);
      cs' := cs + [x];
    }
    QueueUntouched(h.cycles, h.nextCycle, next0, h.next, previous0, h.previous, rings, c.home, c.held, c.held + c.garb);
    DrainableOpen(h, c', cs', rings);
  }

  lemma StoredSize(g: Graph, w: Holder, x: nat)
    requires w.Object? ==> w.y < |g|
    ensures |Stored(g, w, x)| == |g|
  {
  }

  lemma ClearedSize(g: Graph, elsewhere: seq<nat>, w: Holder, i: nat, x: nat)
    requires Holds(g, elsewhere, w, i, x)
    ensures |Cleared(g, w, i)| == |g|
  {
  }

  /** What follows from the lowered count. */
  method Follow(h: Heap, x: nat, ghost c: Context, ghost cs: seq<nat>) returns (ghost cs': seq<nat>)
    requires Tidy(h, c, cs) && h.Stacked([]) && x < |h.g| && h.typed[x] && h.color[x] != RED && c.garb == {}
    requires if h.count[x] > 0 then Still(BooksOf(h, c).(color := h.color[x := PURPLE])) else Dropping(BooksOf(h, c), x, 0, [])
    requires Lively(h.count, h.typed, c.held + c.garb, if h.count[x] > 0 then {} else {x})
    modifies h`color, h`next, h`previous, h`count, h`scan, h`scanStack, h`typed, h`freed
    ensures Tidy(h, c, cs') && h.Stacked([]) && Still(BooksOf(h, c)) && Lively(h.count, h.typed, c.held + c.garb, {})
    ensures Untouched(c.held + c.garb, old(h.next), h.next, old(h.previous), h.previous)
    ensures Purpled(old(h.color), h.color) && Typed(h.typed) <= Typed(old(h.typed))
  {
    hide Still, Lists, Lively, Untouched, Idle, Dropping, Purpled, Typed;
    PurpledOne(h.color, x);
    UntouchedSelf(c.held + c.garb, h.next, h.previous);
    TypedSelf(h.typed);
    cs' := cs;
    if h.count[x] > 0 {
      h.color := h.color[x := PURPLE];
      if h.next[x] == NIL {
        Append(h, x, c, cs);
        cs' := cs + [x];
      }
    } else {
      cs' := ReleaseLoop(h, x, c, cs);
    }
  }

  /** A reference is dropped, and t_object::f_decrement. */
  method Decrement(h: Heap, w: Holder, i: nat, x: nat, ghost c: Context, ghost cs: seq<nat>, ghost rings: seq<seq<nat>>)
      returns (ghost cs': seq<nat>)
    requires Drainable(h, c, cs, rings, NIL, []) && Holds(h.g, c.elsewhere, w, i, x)
    requires w.Object? ==> w.y < |h.typed| && h.typed[w.y]
    modifies h`g, h`count, h`color, h`next, h`previous, h`scan, h`scanStack, h`typed, h`freed
    ensures Drainable(h, Minus(c, w, x), cs', rings, NIL, []) && h.g == Cleared(old(h.g), w, i)
    ensures |old(h.count)| == |h.g| && old(h.count[x]) > 0
  {
    hide Drainable, Still, Lists, Lively, Oranges, Queue, Homes, Zeros, Untouched, Idle, Dropping, Purpled, Typed, Cleared,
      Closed;
    OpenDrainable(h, c, cs, rings);
    ghost var b := BooksOf(h, c);
    OpenStill(h, c, cs);
    LoseCounted(b, w, i, x);
    LoseStill(b, w, i, x);
    ClearedSize(h.g, c.elsewhere, w, i, x);
    IdleNone(h.count[x := h.count[x] - 1]);
    ghost var next0, previous0, color0, typed0, count0 := h.next, h.previous, h.color, h.typed, h.count;
    ghost var c' := Minus(c, w, x);
    h.g := Cleared(h.g, w, i);
    h.count := h.count[x := h.count[x] - 1];
    LivelyPush(count0, h.typed, c.held + c.garb, {}, if count0[x] > 1 then {} else {} + {x}, x);
    assert {} + {x} == {x};
    if h.count[x] > 0 {
      assert BooksOf(h, c').(color := h.color[x := PURPLE]) == Lost(b, w, i, x);
    } else {
      assert BooksOf(h, c') == Lost(b, w, i, x);
    }
    cs' := Follow(h, x, c', cs);
    OrangesFade(color0, h.color, typed0, h.typed, c.held + c.garb);
    QueueUntouched(h.cycles, h.nextCycle, next0, h.next, previous0, h.previous, rings, c.home, c.held, c.held + c.garb);
    DrainableOpen(h, c', cs', rings);
  }
}
