/** Decrementing a count, and releasing everything that is left without a
    reference, on one intrusive stack. */
module Releasing {
  import opened ObjectGraph
  import opened ObjectHeap
  import opened LinkedLists
  import opened Accounts
  import opened ReleaseLists

  /** What stays fixed while objects are released. */
  datatype Context = Context(
    elsewhere: seq<nat>, home: seq<set<nat>>, base: seq<nat>, reds: set<nat>, held: set<nat>, garb: set<nat>)

  ghost function BooksOf(h: Heap, c: Context): Books
    reads h
  {
    Books(h.g, c.elsewhere, c.home, h.typed, h.color, h.count, h.cyclic, c.base, c.reds)
  }

  ghost predicate Tidy(h: Heap, c: Context, cs: seq<nat>)
    reads h
  {
    && h.Shaped()
    && Lists(|h.g|, h.next, h.previous, h.typed, h.freed, cs, c.held, c.garb)
    && Idle(h.count, c.garb)
  }

  /** What was set aside as garbage has no reference left. */
  ghost predicate Idle(count: seq<nat>, garb: set<nat>) {
    forall x :: x in garb ==> x < |count| && count[x] == 0
  }

  lemma IdleOne(count: seq<nat>, garb: set<nat>, x: nat)
    requires Idle(count, garb) && x < |count| && count[x] > 0
    ensures x !in garb && Idle(count[x := count[x] - 1], garb)
  {
  }

  /** Only PURPLE is newly painted, and never over RED. */
  ghost predicate Purpled(c: seq<Color>, d: seq<Color>) {
    |c| == |d| && forall x: nat :: x < |c| && c[x] != d[x] ==> d[x] == PURPLE && c[x] != RED
  }

  lemma PurpledTrans(c: seq<Color>, d: seq<Color>, e: seq<Color>)
    requires Purpled(c, d) && Purpled(d, e)
    ensures Purpled(c, e)
  {
  }

  lemma PurpledOne(c: seq<Color>, x: nat)
    requires x < |c| && c[x] != RED
    ensures Purpled(c, c) && Purpled(c, c[x := PURPLE])
  {
  }

  /** Whatever is alive has a reference, unless it is being released or belongs to
      a waiting cycle or to the garbage. */
  ghost predicate Lively(count: seq<nat>, typed: seq<bool>, aside: set<nat>, except: set<nat>) {
    forall x: nat :: x < |count| && x < |typed| && typed[x] && x !in aside && x !in except ==> count[x] > 0
  }

  lemma LivelyPush(count: seq<nat>, typed: seq<bool>, aside: set<nat>, except: set<nat>, except': set<nat>, x: nat)
    requires Lively(count, typed, aside, except) && x < |count| && count[x] > 0
    requires except' == if count[x] > 1 then except else except + {x}
    ensures Lively(count[x := count[x] - 1], typed, aside, except')
  {
  }

  lemma LivelyRetire(count: seq<nat>, typed: seq<bool>, aside: set<nat>, except: set<nat>, q: nat)
    requires Lively(count, typed, aside, except + {q}) && q < |typed|
    ensures Lively(count, typed[q := false], aside, except)
  {
  }

  lemma UntouchedTrans(s: set<nat>, n0: seq<int>, n1: seq<int>, n2: seq<int>, p0: seq<int>, p1: seq<int>, p2: seq<int>)
    requires Untouched(s, n0, n1, p0, p1) && Untouched(s, n1, n2, p1, p2)
    ensures Untouched(s, n0, n2, p0, p2)
  {
  }

  /** t_object::f_append */
  method Append(h: Heap, x: nat, ghost c: Context, ghost cs: seq<nat>)
    requires Tidy(h, c, cs) && x < |h.g| && h.typed[x] && h.next[x] == NIL && x !in c.garb
    modifies h`next, h`previous
    ensures Tidy(h, c, cs + [x])
    ensures Untouched(c.held + c.garb, old(h.next), h.next, old(h.previous), h.previous)
  {
    AppendList(|h.g|, h.next, h.previous, h.typed, h.freed, cs, c.held, c.garb, x);
    hide Lists, Idle, Untouched;
    h.next := h.next[x := |h.g|];
    h.previous := h.previous[x := h.previous[|h.g|]];
    h.next := h.next[h.previous[x] := x];
    h.previous := h.previous[|h.g| := x];
  }

  /** t_object::f_decrement_push, for the reference number `j` of `q`. */
  method DecrementPush(h: Heap, x: nat, ghost c: Context, ghost cs: seq<nat>, ghost q: nat, ghost j: nat,
                       ghost st: seq<nat>)
      returns (ghost cs': seq<nat>, ghost st': seq<nat>)
    requires Tidy(h, c, cs) && h.Stacked(st) && Dropping(BooksOf(h, c), q, j, st)
    requires q < |h.g| && j < |h.g[q]| && x == h.g[q][j] < |h.g| && forall y :: y in st ==> y !in c.garb
    requires Lively(h.count, h.typed, c.held + c.garb, Set(st) + {q})
    modifies h`count, h`color, h`next, h`previous, h`scan, h`scanStack
    ensures Tidy(h, c, cs') && h.Stacked(st') && Dropping(BooksOf(h, c), q, j + 1, st')
    ensures Lively(h.count, h.typed, c.held + c.garb, Set(st') + {q}) && Purpled(old(h.color), h.color)
    ensures Untouched(c.held + c.garb, old(h.next), h.next, old(h.previous), h.previous)
    ensures forall y :: y in st' ==> y !in c.garb
  {
    hide Lists, Idle, Untouched, Dropping, Lively, Purpled, Set;
    ghost var b := BooksOf(h, c);
    DropOne(b, q, j, st);
    SpentMore(st, q, x);
    cs', st' := Lower(h, x, c, cs, st, Set(st) + {q});
    assert BooksOf(h, c) == Decremented(b, x);
  }

  lemma SpentMore(st: seq<nat>, q: nat, x: nat)
    ensures Set(st + [x]) + {q} == Set(st) + {q} + {x}
  {
  }

  /** `--v_count`, and what follows from the new count. */
  method Lower(h: Heap, x: nat, ghost c: Context, ghost cs: seq<nat>, ghost st: seq<nat>, ghost spent: set<nat>)
      returns (ghost cs': seq<nat>, ghost st': seq<nat>)
    requires Tidy(h, c, cs) && h.Stacked(st) && x < |h.g| && h.count[x] > 0 && h.typed[x] && h.color[x] != RED && x !in st
    requires Lively(h.count, h.typed, c.held + c.garb, spent) && forall y :: y in st ==> y !in c.garb
    modifies h`count, h`color, h`next, h`previous, h`scan, h`scanStack
    ensures Tidy(h, c, cs') && h.Stacked(st')
    ensures st' == if old(h.count[x]) > 1 then st else st + [x]
    ensures h.count == old(h.count)[x := old(h.count[x]) - 1]
    ensures h.color == if old(h.count[x]) > 1 then old(h.color)[x := PURPLE] else old(h.color)
    ensures Untouched(c.held + c.garb, old(h.next), h.next, old(h.previous), h.previous)
    ensures Lively(h.count, h.typed, c.held + c.garb, if old(h.count[x]) > 1 then spent else spent + {x})
    ensures Purpled(old(h.color), h.color) && forall y :: y in st' ==> y !in c.garb
  {
    hide Lists, Idle, Untouched, Lively, Purpled;
    PurpledOne(h.color, x);
    IdleOne(h.count, c.garb, x);
    cs', st' := cs, if h.count[x] > 1 then st else st + [x];
    ghost var count0 := h.count;
    h.count := h.count[x := h.count[x] - 1];
    UntouchedSelf(c.held + c.garb, h.next, h.previous);
    if h.count[x] > 0 {
      h.color := h.color[x := PURPLE];
      if h.next[x] == NIL {
        Append(h, x, c, cs);
        cs' := cs + [x];
      }
      LivelyPush(count0, h.typed, c.held + c.garb, spent, spent, x);
    } else {
      h.Push(x, st);
      LivelyPush(count0, h.typed, c.held + c.garb, spent, spent + {x}, x);
    }
  }

  lemma UntouchedSelf(s: set<nat>, next: seq<int>, previous: seq<int>)
    requires |next| == |previous|
    ensures Untouched(s, next, next, previous, previous)
  {
  }

  /** t_object::f_decrement_step: drops the references of `q` and frees it, or
      leaves that to the test of the cycle it belongs to. */
  method DecrementStep(h: Heap, q: nat, ghost c: Context, ghost cs: seq<nat>, ghost st: seq<nat>)
      returns (ghost cs': seq<nat>, ghost st': seq<nat>)
    requires Tidy(h, c, cs) && h.Stacked(st) && Dropping(BooksOf(h, c), q, 0, st) && q < |h.g| && q !in c.garb
    requires Lively(h.count, h.typed, c.held + c.garb, Set(st) + {q}) && forall y :: y in st ==> y !in c.garb
    modifies h`count, h`color, h`next, h`previous, h`scan, h`scanStack, h`typed, h`freed
    ensures Lively(h.count, h.typed, c.held + c.garb, Set(st')) && Purpled(old(h.color), h.color)
    ensures Tidy(h, c, cs') && h.Stacked(st') && (st' != [] ==> st'[|st'| - 1] !in st'[..|st'| - 1])
    ensures if st' == [] then Still(BooksOf(h, c))
            else Dropping(BooksOf(h, c), st'[|st'| - 1], 0, st'[..|st'| - 1])
    ensures Untouched(c.held + c.garb, old(h.next), h.next, old(h.previous), h.previous)
    ensures forall y :: y in st' ==> y !in c.garb
    ensures Typed(h.typed) == Typed(old(h.typed)) - {q} && q in Typed(old(h.typed))
  {
    hide Lists, Untouched, Dropping, Still, Typed, Lively, Set, Purpled;
    cs', st' := cs, st;
    PurpledSelf(h.color);
    UntouchedSelf(c.held + c.garb, h.next, h.previous);
    for j := 0 to |h.g[q]|
      invariant Tidy(h, c, cs') && h.Stacked(st') && Dropping(BooksOf(h, c), q, j, st')
      invariant Untouched(c.held + c.garb, old(h.next), h.next, old(h.previous), h.previous)
      invariant h.typed == old(h.typed) && h.freed == old(h.freed) && forall y :: y in st' ==> y !in c.garb
      invariant Lively(h.count, h.typed, c.held + c.garb, Set(st') + {q}) && Purpled(old(h.color), h.color)
    {
      ghost var next0, previous0, color0 := h.next, h.previous, h.color;
      cs', st' := DecrementPush(h, h.g[q][j], c, cs', q, j, st');
      PurpledTrans(old(h.color), color0, h.color);
      UntouchedTrans(c.held + c.garb, old(h.next), next0, h.next, old(h.previous), previous0, h.previous);
    }
    cs' := Retire(h, q, c, cs', st', old(h.next), old(h.previous));
  }

  /** The end of f_decrement_step. */
  method Retire(h: Heap, q: nat, ghost c: Context, ghost cs: seq<nat>, ghost st: seq<nat>, ghost next0: seq<int>,
                ghost previous0: seq<int>)
      returns (ghost cs': seq<nat>)
    requires Tidy(h, c, cs) && h.Stacked(st) && q < |h.g| && Dropping(BooksOf(h, c), q, |h.g[q]|, st) && q !in c.garb
    requires Untouched(c.held + c.garb, next0, h.next, previous0, h.previous)
    requires Lively(h.count, h.typed, c.held + c.garb, Set(st) + {q})
    modifies h`next, h`previous, h`typed, h`freed
    ensures Lively(h.count, h.typed, c.held + c.garb, Set(st))
    ensures Tidy(h, c, cs') && (st != [] ==> st[|st| - 1] !in st[..|st| - 1])
    ensures if st == [] then Still(BooksOf(h, c)) else Dropping(BooksOf(h, c), st[|st| - 1], 0, st[..|st| - 1])
    ensures Untouched(c.held + c.garb, next0, h.next, previous0, h.previous)
    ensures h.typed == old(h.typed)[q := false] && Typed(h.typed) == Typed(old(h.typed)) - {q} && q in Typed(old(h.typed))
  {
    hide Lists, Untouched, Dropping, Still, Lively, Set;
    SpentTyped(BooksOf(h, c), q, st);
    TypedLess(h.typed, q);
    DropDone(BooksOf(h, c), q, st);
    cs' := cs;
    ghost var typed0, next1, previous1 := h.typed, h.next, h.previous;
    h.typed := h.typed[q := false];
    if h.next[q] != NIL {
      if h.previous[q] == NIL {
        RetireHeld(|h.g|, h.next, h.previous, typed0, h.freed, cs, c.held, c.garb, q);
        LivelyRetire(h.count, typed0, c.held + c.garb, Set(st), q);
        return;
      }
      RetireCandidate(|h.g|, h.next, h.previous, typed0, h.freed, cs, c.held, c.garb, q);
      h.previous := h.previous[h.next[q] := h.previous[q]];
      h.next := h.next[h.previous[q] := h.next[q]];
      cs' := Without(cs, q);
      UntouchedTrans(c.held + c.garb, next0, next1, h.next, previous0, previous1, h.previous);
    } else {
      RetireLoose(|h.g|, h.next, h.previous, typed0, h.freed, cs, c.held, c.garb, q);
    }
    h.freed := h.freed + {q};
    LivelyRetire(h.count, typed0, c.held + c.garb, Set(st), q);
  }

  lemma SpentTyped(b: Books, q: nat, st: seq<nat>)
    requires Dropping(b, q, if q < |b.g| then |b.g[q]| else 0, st)
    ensures b.Sized() && b.typed[q] && b.reds - {q} == b.reds
  {
  }

  lemma TypedLess(typed: seq<bool>, q: nat)
    requires q < |typed| && typed[q]
    ensures Typed(typed[q := false]) == Typed(typed) - {q} && q in Typed(typed)
  {
  }

  /** f_loop with f_decrement_step: `q` has no reference left. */
  method ReleaseLoop(h: Heap, q: nat, ghost c: Context, ghost cs: seq<nat>) returns (ghost cs': seq<nat>)
    requires Tidy(h, c, cs) && h.Stacked([]) && q < |h.g| && Dropping(BooksOf(h, c), q, 0, []) && q !in c.garb
    requires Lively(h.count, h.typed, c.held + c.garb, {q})
    modifies h`count, h`color, h`next, h`previous, h`scan, h`scanStack, h`typed, h`freed
    ensures Tidy(h, c, cs') && h.Stacked([]) && Still(BooksOf(h, c))
    ensures Untouched(c.held + c.garb, old(h.next), h.next, old(h.previous), h.previous)
    ensures Typed(h.typed) <= Typed(old(h.typed)) - {q} && Lively(h.count, h.typed, c.held + c.garb, {}) && Purpled(old(h.color), h.color)
  {
    hide Lists, Idle, Untouched, Dropping, Still, Typed, Lively, Set, Purpled;
    MembersNone(q);
    PurpledSelf(h.color);
    cs' := cs;
    ghost var st: seq<nat> := [];
    var p: nat := q;
    UntouchedSelf(c.held + c.garb, h.next, h.previous);
    while true
      invariant Tidy(h, c, cs') && h.Stacked(st) && p < |h.g| && Dropping(BooksOf(h, c), p, 0, st) && p !in c.garb
      invariant Lively(h.count, h.typed, c.held + c.garb, Set(st) + {p}) && forall y :: y in st ==> y !in c.garb
      invariant Untouched(c.held + c.garb, old(h.next), h.next, old(h.previous), h.previous)
      invariant Typed(h.typed) <= Typed(old(h.typed)) && (p == q || q !in Typed(h.typed))
      invariant Purpled(old(h.color), h.color)
      decreases Typed(h.typed)
    {
      ghost var next0, previous0, color0 := h.next, h.previous, h.color;
      cs', st := DecrementStep(h, p, c, cs', st);
      PurpledTrans(old(h.color), color0, h.color);
      UntouchedTrans(c.held + c.garb, old(h.next), next0, h.next, old(h.previous), previous0, h.previous);
      var top := h.Pop(st);
      if top == NIL {
        break;
      }
      DroppingBound(BooksOf(h, c), top, st[..|st| - 1]);
      MembersPop(st);
      p := top;
      st := st[..|st| - 1];
    }
  }

  lemma MembersNone(q: nat)
    ensures Set([]) == {} && Set([]) + {q} == {q}
  {
  }

  lemma MembersPop(st: seq<nat>)
    requires st != []
    ensures Set(st) == Set(st[..|st| - 1]) + {st[|st| - 1]}
    ensures st[|st| - 1] in st && forall y :: y in st[..|st| - 1] ==> y in st
  {
  }

  lemma DroppingBound(b: Books, q: nat, st: seq<nat>)
    requires Dropping(b, q, 0, st)
    ensures q < |b.g|
  {
  }

  ghost function Charged(c: Context, x: nat): Context
    requires x < |c.base|
  {
    c.(base := c.base[x := c.base[x] + 1])
  }

  /** A reference of a RED object to `x` is about to be dropped. */
  ghost predicate Droppable(b: Books, x: nat) {
    Still(b) && x in b.Others() && b.base[x] < In(b.g, b.reds, x)
  }

  lemma DropFirst(b: Books, x: nat)
    requires Droppable(b, x)
    ensures b.Sized() && x < |b.g| && b.count[x] > 0
    ensures
      var b' := Decremented(b, x).(base := b.base[x := b.base[x] + 1]);
      if b.count[x] > 1 then Still(b') else Dropping(b', x, 0, [])
  {
    assert b.Holders() == b.reds + b.Others();
    InUnion(b.g, b.reds, b.Others(), x);
    var b' := Decremented(b, x).(base := b.base[x := b.base[x] + 1]);
    assert b'.Holders() == b.Holders() && b'.Others() == b.Others();
    assert b'.Isolated() && b'.Severed();
  }

  /** t_object::f_decrement */
  method Decrement(h: Heap, x: nat, ghost c: Context, ghost cs: seq<nat>) returns (ghost cs': seq<nat>)
    requires Tidy(h, c, cs) && h.Stacked([]) && x < |h.g| == |c.base| && Droppable(BooksOf(h, c), x)
    requires Lively(h.count, h.typed, c.held + c.garb, {})
    modifies h`count, h`color, h`next, h`previous, h`scan, h`scanStack, h`typed, h`freed
    ensures Tidy(h, Charged(c, x), cs') && h.Stacked([]) && Still(BooksOf(h, Charged(c, x)))
    ensures Untouched(c.held + c.garb, old(h.next), h.next, old(h.previous), h.previous)
    ensures Typed(h.typed) <= Typed(old(h.typed)) && Lively(h.count, h.typed, c.held + c.garb, {}) && Purpled(old(h.color), h.color)
    ensures old(h.count[x]) > 1 ==> h.typed == old(h.typed) && h.color == old(h.color)[x := PURPLE]
  {
    hide Lists, Idle, Untouched, Dropping, Still, Typed, Lively, Purpled;
    DroppableTyped(BooksOf(h, c), x);
    PurpledOne(h.color, x);
    DropFirst(BooksOf(h, c), x);
    IdleOne(h.count, c.garb, x);
    UntouchedSelf(c.held + c.garb, h.next, h.previous);
    ghost var c' := Charged(c, x);
    cs' := cs;
    ghost var count0 := h.count;
    h.count := h.count[x := h.count[x] - 1];
    if h.count[x] > 0 {
      h.color := h.color[x := PURPLE];
      if h.next[x] == NIL {
        Append(h, x, c', cs);
        cs' := cs + [x];
      }
      LivelyPush(count0, h.typed, c.held + c.garb, {}, {}, x);
    } else {
      LivelyPush(count0, h.typed, c.held + c.garb, {}, {} + {x}, x);
      assert {} + {x} == {x};
      cs' := ReleaseLoop(h, x, c', cs);
    }
  }

  lemma DroppableTyped(b: Books, x: nat)
    requires Droppable(b, x)
    ensures b.Sized() && x < |b.g| && b.typed[x] && b.color[x] != RED
  {
  }

  lemma PurpledSelf(c: seq<Color>)
    ensures Purpled(c, c)
  {
  }
}
