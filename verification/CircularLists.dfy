/** The list of the language: a circular buffer that grows and shrinks. */
module CircularLists {

  // ----- Capacities -----

  const OBJECT := 128  // the size of an object and of the unit of allocation
  const FIELDS := 80   // where the elements of a tuple begin
  const ELEMENT := 8

  /** t_object::f_capacity_to_size */
  function Bytes(capacity: nat): nat {
    (FIELDS + capacity * ELEMENT + OBJECT - 1) / OBJECT * OBJECT
  }

  /** t_object::f_size_to_capacity */
  function Capacity(bytes: nat): nat
    requires bytes >= FIELDS
  {
    (bytes - FIELDS) / ELEMENT
  }

  function GrowAt(size: nat): nat {
    Capacity(Bytes(size) * 2)
  }

  function ShrinkAt(size: nat): nat {
    if Bytes(size) < OBJECT * 2 then 0 else Capacity(Bytes(size) / 2)
  }

  lemma Units(size: nat) returns (m: nat)
    ensures m > 0 && Bytes(size) == OBJECT * m && 16 * m < size + 26 && size + 10 <= 16 * m
    ensures GrowAt(size) == 32 * m - 10 && ShrinkAt(size) == if m == 1 then 0 else 8 * m - 10
  {
    m := (FIELDS + size * ELEMENT + OBJECT - 1) / OBJECT;
  }

  /** After a resize the buffer is at most half full and more than the threshold. */
  lemma Roomy(size: nat)
    requires size > 0
    ensures GrowAt(size) >= 2 * size && ShrinkAt(size) < size
  {
    var m := Units(size);
  }

  // ----- The window -----

  function Wrap(n: nat, i: nat): nat {
    if i < n then i else i - n
  }

  /** The place of a slot in the list that begins at `head`. */
  function Place(n: nat, head: nat, x: nat): int {
    if x >= head then x - head else x + n - head
  }

  /** From `head` on the slots hold `c`, going round; the others hold nothing. */
  ghost predicate Window<T>(s: seq<T>, head: nat, c: seq<T>, none: T) {
    && |c| <= |s| && (head < |s| || (head == 0 && |s| == 0))
    && forall x :: 0 <= x < |s| ==> s[x] == var k := Place(|s|, head, x); if k < |c| then c[k] else none
  }

  lemma WindowBounds<T>(s: seq<T>, head: nat, c: seq<T>, none: T)
    requires Window(s, head, c, none)
    ensures |c| <= |s| && (head < |s| || (head == 0 && |s| == 0))
  {
  }

  lemma WindowNew<T>(s: seq<T>, c: seq<T>, none: T)
    requires 0 < |c| && Filled(s, |c|, c, none)
    ensures Window(s, 0, c, none)
  {
  }

  lemma WindowAt<T>(s: seq<T>, head: nat, c: seq<T>, none: T, k: nat)
    requires Window(s, head, c, none) && k < |s|
    ensures Wrap(|s|, head + k) < |s| && s[Wrap(|s|, head + k)] == if k < |c| then c[k] else none
  {
  }

  /** f_move_forward */
  ghost function Forward<T>(s: seq<T>, p: nat, q: nat): (r: seq<T>)
    requires q < |s|
    ensures |r| == |s|
  {
    seq(|s|, x requires 0 <= x < |s| => if p < x <= q then s[x - 1] else s[x])
  }

  /** f_move_backward */
  ghost function Backward<T>(s: seq<T>, p: nat, q: nat): (r: seq<T>)
    requires q < |s|
    ensures |r| == |s|
  {
    seq(|s|, x requires 0 <= x < |s| => if p <= x < q then s[x + 1] else s[x])
  }

  ghost function Inserted<T>(c: seq<T>, i: nat, x: T): seq<T>
    requires i <= |c|
  {
    c[..i] + [x] + c[i..]
  }

  lemma InsertedEnds<T>(c: seq<T>, x: T)
    ensures Inserted(c, 0, x) == [x] + c && Inserted(c, |c|, x) == c + [x]
  {
  }

  lemma InsertedMore<T>(c: seq<T>, a: nat, x: T)
    requires a <= |c|
    ensures |Inserted(c, a, x)| == |c| + 1
  {
  }

  ghost function Removed<T>(c: seq<T>, i: nat): seq<T>
    requires i < |c|
  {
    c[..i] + c[i + 1..]
  }

  // ----- Inserting: the elements before the place move back -----

  lemma InsertWrapped<T>(s: seq<T>, head: nat, c: seq<T>, none: T, a: nat, x: T)
    requires Window(s, head, c, none) && a < |c| < |s| && head + a > |s|
    ensures head > 1
    ensures var n, i := |s|, head + a;
      var s1 := Backward(s, head - 1, n - 1)[n - 1 := s[0]];
      Window(Backward(s1, 0, i - 1 - n)[i - 1 - n := x], head - 1, Inserted(c, a, x), none)
  {
  }

  lemma InsertBefore<T>(s: seq<T>, head: nat, c: seq<T>, none: T, a: nat, x: T)
    requires Window(s, head, c, none) && a < |c| < |s| && 0 < head && head + a <= |s|
    ensures Window(Backward(s, head - 1, head + a - 1)[head + a - 1 := x], head - 1, Inserted(c, a, x), none)
  {
  }

  lemma InsertFirst<T>(s: seq<T>, c: seq<T>, none: T, a: nat, x: T)
    requires Window(s, 0, c, none) && 0 < a < |c| < |s|
    ensures var n := |s|;
      Window(Backward(s[n - 1 := s[0]], 0, a - 1)[a - 1 := x], n - 1, Inserted(c, a, x), none)
  {
  }

  /** The place 0 of a list that begins at the first slot is missed: the element
      comes second. */
  lemma InsertMissed<T>(s: seq<T>, c: seq<T>, none: T, x: T)
    requires Window(s, 0, c, none) && 0 < |c| < |s|
    ensures Window(s[|s| - 1 := s[0]][0 := x], |s| - 1, Inserted(c, 1, x), none)
  {
  }

  /** An element that comes second seems to come first if it is what was first. */
  lemma MissedIf<T>(c: seq<T>, index: int, x: T)
    ensures index < 0 && index + |c| == 0 ==> (Inserted(c, 1, x) == Inserted(c, 0, x) <==> x == c[0])
  {
    if index < 0 && index + |c| == 0 {
      assert Inserted(c, 1, x)[0] == c[0] && Inserted(c, 0, x)[0] == x;
      assert x == c[0] ==> Inserted(c, 1, x)[1] == Inserted(c, 0, x)[1];
    }
  }

  // ----- Inserting: the elements after the place move on -----

  lemma InsertLow<T>(s: seq<T>, head: nat, c: seq<T>, none: T, a: nat, x: T)
    requires Window(s, head, c, none) && a < |c| < |s| && head + a >= |s|
    ensures var n, i, j := |s|, head + a, head + |c|;
      j - n < n && Window(Forward(s, i - n, j - n)[i - n := x], head, Inserted(c, a, x), none)
  {
  }

  lemma InsertAcross<T>(s: seq<T>, head: nat, c: seq<T>, none: T, a: nat, x: T)
    requires Window(s, head, c, none) && a < |c| < |s| && head + a < |s| <= head + |c|
    ensures var n, i, j := |s|, head + a, head + |c|;
      && j - n < n
      && Window(Forward(Forward(s, 0, j - n)[0 := s[n - 1]], i, n - 1)[i := x], head, Inserted(c, a, x), none)
  {
  }

  lemma InsertAfter<T>(s: seq<T>, head: nat, c: seq<T>, none: T, a: nat, x: T)
    requires Window(s, head, c, none) && a < |c| < |s| && head + |c| < |s|
    ensures Window(Forward(s, head + a, head + |c|)[head + a := x], head, Inserted(c, a, x), none)
  {
  }

  // ----- Removing -----

  lemma RemoveWrapped<T>(s: seq<T>, head: nat, c: seq<T>, none: T, a: nat)
    requires Window(s, head, c, none) && a < |c| && head + a >= |s|
    ensures var n, i := |s|, head + a;
      var s1 := Forward(s, 0, i - n)[0 := s[n - 1]];
      Window(Forward(s1, head, n - 1)[head := none], Wrap(n, head + 1), Removed(c, a), none)
  {
  }

  lemma RemoveBefore<T>(s: seq<T>, head: nat, c: seq<T>, none: T, a: nat)
    requires Window(s, head, c, none) && a < |c| && head + a < |s|
    ensures Window(Forward(s, head, head + a)[head := none], Wrap(|s|, head + 1), Removed(c, a), none)
  {
  }

  lemma RemoveLow<T>(s: seq<T>, head: nat, c: seq<T>, none: T, a: nat)
    requires Window(s, head, c, none) && a < |c| && head + a >= |s|
    ensures var n, i, j := |s|, head + a, head + |c|;
      Window(Backward(s, i - n, j - 1 - n)[j - 1 - n := none], head, Removed(c, a), none)
  {
  }

  lemma RemoveAcross<T>(s: seq<T>, head: nat, c: seq<T>, none: T, a: nat)
    requires Window(s, head, c, none) && a < |c| && head + a < |s| < head + |c|
    ensures var n, i, j := |s|, head + a, head + |c|;
      Window(Backward(Backward(s, i, n - 1)[n - 1 := s[0]], 0, j - 1 - n)[j - 1 - n := none], head, Removed(c, a), none)
  {
  }

  lemma RemoveAfter<T>(s: seq<T>, head: nat, c: seq<T>, none: T, a: nat)
    requires Window(s, head, c, none) && a < |c| && head + |c| <= |s|
    ensures Window(Backward(s, head + a, head + |c| - 1)[head + |c| - 1 := none], head, Removed(c, a), none)
  {
  }

  // ----- The rungs of the capacities -----

  ghost predicate Power(m: nat) {
    m > 0 && (m == 1 || (m % 2 == 0 && Power(m / 2)))
  }

  /** The capacity and the threshold, and the size `base` at the last resize, for
      `m` units of allocation then; 0 when there has been none. */
  ghost predicate Rung(grow: nat, shrink: nat, base: nat, m: nat) {
    if m == 0 then base == 0 && shrink == 0 && (grow == 0 || grow == 6)
    else Power(m) && base == 16 * m - 10 && grow == 32 * m - 10 && shrink == if m == 1 then 0 else 8 * m - 10
  }

  ghost function Away(size: int, base: int): int {
    if size < base then base - size else size - base
  }

  /** A full buffer is replaced by one on the next rung. */
  lemma RungUp(grow: nat, shrink: nat, base: nat, m: nat)
    requires Rung(grow, shrink, base, m) && grow > 0
    ensures var m' := if m == 0 then 1 else 2 * m;
      Rung(GrowAt(grow), ShrinkAt(grow), grow, m') && grow <= 2 * Away(grow, base)
  {
    hide GrowAt, ShrinkAt, Bytes;
    var u := Units(grow);
    if m > 0 {
      assert u == 2 * m && u % 2 == 0 && u / 2 == m;
    }
  }

  /** At the threshold it is replaced by one on the rung below. */
  lemma RungDown(grow: nat, shrink: nat, base: nat, m: nat)
    requires Rung(grow, shrink, base, m) && shrink > 0
    ensures Rung(GrowAt(shrink), ShrinkAt(shrink), shrink, m / 2) && shrink <= 2 * Away(shrink, base)
  {
    hide GrowAt, ShrinkAt, Bytes;
    assert m % 2 == 0 && Power(m / 2);
    var half := m / 2;
    assert m == 2 * half;
    var u := Units(shrink);
    assert u == half;
  }

  datatype Result<T> = Ok(value: T) | OutOfRange | EmptyList

  class List<T> {
    const none: T

    // The buffer; one without slots stands for none at all.
    var slots: array<T>
    var head: nat
    var size: nat
    var grow: nat
    var shrink: nat

    ghost var contents: seq<T>
    ghost var base: nat
    ghost var unit: nat

    // How many elements have been copied by resizes, and how many operations there
    // have been.
    ghost var copied: nat
    ghost var operations: nat

    ghost predicate Buffered()
      reads this, slots
    {
      && slots.Length == grow && Window(slots[..], head, contents, none) && size == |contents|
      && Rung(grow, shrink, base, unit)
    }

    ghost predicate Valid()
      reads this, slots
    {
      && Buffered() && (grow > 0 ==> shrink < size)
      && copied + 2 * Away(size, base) <= 2 * operations
    }

    constructor (none: T)
      ensures Valid() && contents == [] && copied == 0 && operations == 0 && this.none == none && fresh(slots) && head == 0
    {
      this.none := none;
      slots := new T[0];
      head, size, grow, shrink := 0, 0, 0, 0;
      contents, base, unit, copied, operations := [], 0, 0, 0, 0;
    }

    /** f_resize */
    method Resize()
      requires Window(slots[..], head, contents, none) && size == |contents| > 0
      modifies this`slots, this`head, this`grow, this`shrink, this`copied
      ensures fresh(slots) && slots.Length == grow && grow == GrowAt(size) && shrink == ShrinkAt(size) && head == 0
      ensures Window(slots[..], 0, contents, none) && copied == old(copied) + size
    {
      hide Rung, Window, GrowAt, ShrinkAt;
      Roomy(size);
      grow, shrink := GrowAt(size), ShrinkAt(size);
      var table := new T[grow](_ => none);
      CopyAll(slots, head, size, table, contents, none);
      slots, head := table, 0;
      copied := copied + size;
    }

    /** f_grow */
    method Grow()
      requires Buffered() && size == grow && copied + 2 * Away(size, base) <= 2 * operations
      modifies this`slots, this`head, this`grow, this`shrink, this`base, this`unit, this`copied
      ensures Buffered() && size < grow && shrink <= size && head == 0 && (slots == old(slots) || fresh(slots))
      ensures copied + 2 * Away(size, base) <= 2 * operations
    {
      hide Window, GrowAt, ShrinkAt, Rung;
      if size <= 0 {
        grow := 6;
        RungFirst(shrink, base, unit);
        slots := new T[grow](_ => none);
        WindowNone(slots[..], head, contents, none);
        head := 0;
      } else {
        RungUp(grow, shrink, base, unit);
        Roomy(size);
        base, unit := size, if unit == 0 then 1 else 2 * unit;
        Resize();
      }
    }

    /** f_shrink, at the threshold. */
    method Shrink()
      requires Buffered() && size == shrink && grow > 0 && copied + 2 * Away(size, base) <= 2 * operations
      modifies this`slots, this`head, this`grow, this`shrink, this`base, this`unit, this`copied
      ensures Valid() && (slots == old(slots) || fresh(slots))
    {
      hide Window, GrowAt, ShrinkAt, Rung;
      if size <= 0 {
        slots := new T[0];
        head, grow := 0, 0;
        base, unit := 0, 0;
        WindowEmpty(slots[..], contents, none);
      } else {
        RungDown(grow, shrink, base, unit);
        Roomy(size);
        base, unit := size, unit / 2;
        Resize();
      }
    }

    /** What is left to do when an element has gone. */
    method Settle()
      requires Buffered() && grow > 0 && shrink <= size && copied + 2 * Away(size, base) <= 2 * operations
      modifies this`slots, this`head, this`grow, this`shrink, this`base, this`unit, this`copied
      ensures Valid() && (slots == old(slots) || fresh(slots))
    {
      if size <= shrink {
        Shrink();
      }
    }

    /** f_push */
    method Push(x: T)
      requires Valid()
      modifies this, slots
      ensures Valid() && contents == old(contents) + [x] && operations == old(operations) + 1
      ensures head == if old(size >= grow) then 0 else old(head)
      ensures slots == old(slots) || fresh(slots)
    {
      hide Window, Rung;
      WindowBounds(slots[..], head, contents, none);
      if size >= grow {
        Grow();
      }
      operations := operations + 1;
      ghost var s := slots[..];
      WindowPush(s, head, contents, none, x);
      var k := Wrap(slots.Length, head + size);
      assert slots[k] == none;
      slots[k] := x;
      assert slots[..] == s[k := x];
      contents := contents + [x];
      size := size + 1;
    }

    /** f_unshift */
    method Unshift(x: T)
      requires Valid()
      modifies this, slots
      ensures Valid() && contents == [x] + old(contents) && operations == old(operations) + 1
      ensures slots == old(slots) || fresh(slots)
    {
      hide Window, Rung;
      WindowBounds(slots[..], head, contents, none);
      if size >= grow {
        Grow();
      }
      operations := operations + 1;
      ghost var s := slots[..];
      WindowUnshift(s, head, contents, none, x);
      head := (if head > 0 then head else slots.Length) - 1;
      assert slots[head] == none;
      slots[head] := x;
      assert slots[..] == s[head := x];
      contents := [x] + contents;
      size := size + 1;
    }

    /** f_pop */
    method Pop() returns (r: Result<T>)
      requires Valid()
      modifies this, slots
      ensures Valid() && operations == old(operations) + 1 && (slots == old(slots) || fresh(slots))
      ensures if old(contents) == [] then r == EmptyList && contents == []
              else r == Ok(old(contents)[|old(contents)| - 1]) && contents == old(contents)[..|old(contents)| - 1]
    {
      hide Window, Rung;
      operations := operations + 1;
      if size <= 0 {
        return EmptyList;
      }
      ghost var s := slots[..];
      WindowPop(s, head, contents, none);
      RungSome(grow, shrink, base, unit);
      size := size - 1;
      var k := Wrap(slots.Length, head + size);
      r := Ok(slots[k]);
      slots[k] := none;
      assert slots[..] == s[k := none];
      contents := contents[..size];
      Settle();
    }

    /** f_shift */
    method Shift() returns (r: Result<T>)
      requires Valid()
      modifies this, slots
      ensures Valid() && operations == old(operations) + 1 && (slots == old(slots) || fresh(slots))
      ensures if old(contents) == [] then r == EmptyList && contents == []
              else r == Ok(old(contents)[0]) && contents == old(contents)[1..]
    {
      hide Window, Rung;
      operations := operations + 1;
      if size <= 0 {
        return EmptyList;
      }
      ghost var s := slots[..];
      WindowShift(s, head, contents, none);
      RungSome(grow, shrink, base, unit);
      r := Ok(slots[head]);
      slots[head] := none;
      assert slots[..] == s[head := none];
      head := if head + 1 >= slots.Length then 0 else head + 1;
      size := size - 1;
      contents := contents[1..];
      Settle();
    }

    /** f_clear */
    method Clear()
      requires Valid()
      modifies this
      ensures Valid() && contents == [] && operations == old(operations) + 1 && fresh(slots)
    {
      operations := operations + 1;
      slots := new T[0];
      head, size, grow, shrink := 0, 0, 0, 0;
      contents, base, unit := [], 0, 0;
    }

    /** f_validate */
    function Validated(index: int): (i: int)
      requires Valid()
      reads this, slots
    {
      var i := if index < 0 then index + size else index;
      if 0 <= i < size then i else -1
    }

    /** operator[] */
    method Get(index: int) returns (r: Result<T>)
      requires Valid()
      ensures r == if 0 <= index < |contents| then Ok(contents[index])
                   else if -|contents| <= index < 0 then Ok(contents[|contents| + index])
                   else OutOfRange
    {
      var i := Validated(index);
      if i < 0 {
        return OutOfRange;
      }
      WindowAt(slots[..], head, contents, none, i);
      r := Ok(slots[Wrap(slots.Length, head + i)]);
    }

    method Set(index: int, x: T) returns (r: Result<T>)
      requires Valid()
      modifies slots, this`contents
      ensures Valid()
      ensures if 0 <= index < |old(contents)| then r == Ok(x) && contents == old(contents)[index := x]
              else if -|old(contents)| <= index < 0 then
                r == Ok(x) && contents == old(contents)[|old(contents)| + index := x]
              else r == OutOfRange && contents == old(contents)
    {
      hide Rung;
      var i := Validated(index);
      if i < 0 {
        return OutOfRange;
      }
      ghost var s := slots[..];
      WindowSet(s, head, contents, none, i, x);
      slots[Wrap(slots.Length, head + i)] := x;
      assert slots[..] == s[Wrap(|s|, head + i) := x];
      contents := contents[i := x];
      r := Ok(x);
    }

    /** f_move_forward */
    method MoveForward(p: nat, q: nat) returns (r: nat)
      requires p <= q < slots.Length
      modifies slots
      ensures r == p && slots[..] == Forward(old(slots[..]), p, q)
    {
      ghost var s := slots[..];
      r := q;
      ForwardStep(s, q, q);
      hide Forward;
      while p < r
        invariant p <= r <= q < slots.Length && slots[..] == Forward(s, r, q)
      {
        ForwardStep(s, r, q);
        slots[r] := slots[r - 1];
        r := r - 1;
      }
    }

    /** f_move_backward */
    method MoveBackward(p: nat, q: nat) returns (r: nat)
      requires p <= q < slots.Length
      modifies slots
      ensures r == q && slots[..] == Backward(old(slots[..]), p, q)
    {
      ghost var s := slots[..];
      r := p;
      BackwardStep(s, p, p);
      hide Backward;
      while r < q
        invariant p <= r <= q < slots.Length && slots[..] == Backward(s, p, r)
      {
        BackwardStep(s, p, r);
        slots[r] := slots[r + 1];
        r := r + 1;
      }
    }

    /** The first half of f_insert: the elements before the place move back. */
    method InsertFront(a: nat, x: T)
      requires Window(slots[..], head, contents, none) && a < |contents| < slots.Length
      modifies slots, this`head
      ensures Window(slots[..], head, Inserted(contents, if a == 0 && old(head) == 0 then 1 else a, x), none)
    {
      hide Window, Forward, Backward, Inserted;
      ghost var s := slots[..];
      WindowBounds(s, head, contents, none);
      var n, i := slots.Length, head + a;
      if i > n {
        InsertWrapped(s, head, contents, none, a, x);
        head := head - 1;
        var r := MoveBackward(head, n - 1);
        ghost var s1 := slots[..];
        slots[r] := slots[0];
        assert s1[0] == s[0] by {
          BackwardAt(s, head, n - 1, 0);
        }
        assert slots[..] == s1[n - 1 := s[0]];
        r := MoveBackward(0, i - 1 - n);
        ghost var s2 := slots[..];
        slots[r] := x;
        assert slots[..] == s2[i - 1 - n := x];
      } else if head > 0 {
        InsertBefore(s, head, contents, none, a, x);
        head := head - 1;
        var r := MoveBackward(head, i - 1);
        ghost var s1 := slots[..];
        slots[r] := x;
        assert slots[..] == s1[i - 1 := x];
      } else {
        head := n - 1;
        slots[head] := slots[0];
        ghost var s1 := slots[..];
        assert s1 == s[n - 1 := s[0]];
        if a == 0 {
          InsertMissed(s, contents, none, x);
          slots[0] := x;
          assert slots[..] == s1[0 := x];
        } else {
          InsertFirst(s, contents, none, a, x);
          var r := MoveBackward(0, a - 1);
          ghost var s2 := slots[..];
          slots[r] := x;
          assert slots[..] == s2[a - 1 := x];
        }
      }
    }

    /** The second half: the elements after the place move on. */
    method InsertBack(a: nat, x: T)
      requires Window(slots[..], head, contents, none) && a < |contents| < slots.Length && |contents| == size
      modifies slots
      ensures Window(slots[..], head, Inserted(contents, a, x), none)
    {
      hide Window, Forward, Backward, Inserted;
      ghost var s := slots[..];
      WindowBounds(s, head, contents, none);
      var n, i, j := slots.Length, head + a, head + size;
      if i >= n {
        InsertLow(s, head, contents, none, a, x);
        var r := MoveForward(i - n, j - n);
        ghost var s1 := slots[..];
        slots[r] := x;
        assert slots[..] == s1[i - n := x];
      } else if j >= n {
        InsertAcross(s, head, contents, none, a, x);
        var r := MoveForward(0, j - n);
        ghost var s1 := slots[..];
        slots[r] := slots[n - 1];
        assert s1[n - 1] == s[n - 1] by {
          ForwardAt(s, 0, j - n, n - 1);
        }
        assert slots[..] == s1[0 := s[n - 1]];
        r := MoveForward(i, n - 1);
        ghost var s2 := slots[..];
        slots[r] := x;
        assert slots[..] == s2[i := x];
      } else {
        InsertAfter(s, head, contents, none, a, x);
        var r := MoveForward(i, j);
        ghost var s1 := slots[..];
        slots[r] := x;
        assert slots[..] == s1[i := x];
      }
    }

    /** The first half of f_remove: the elements before the place move on. */
    method RemoveFront(a: nat)
      requires Window(slots[..], head, contents, none) && a < |contents| && |contents| == size
      modifies slots, this`head
      ensures Window(slots[..], head, Removed(contents, a), none)
    {
      hide Window, Forward, Backward, Removed;
      ghost var s := slots[..];
      WindowBounds(s, head, contents, none);
      var n, i := slots.Length, head + a;
      if i >= n {
        RemoveWrapped(s, head, contents, none, a);
        var r := MoveForward(0, i - n);
        ghost var s1 := slots[..];
        assert s1[n - 1] == s[n - 1] by {
          ForwardAt(s, 0, i - n, n - 1);
        }
        slots[r] := slots[n - 1];
        assert slots[..] == s1[0 := s[n - 1]];
        r := MoveForward(head, n - 1);
        ghost var s2 := slots[..];
        slots[r] := none;
        assert slots[..] == s2[head := none];
      } else {
        RemoveBefore(s, head, contents, none, a);
        var r := MoveForward(head, i);
        ghost var s1 := slots[..];
        slots[r] := none;
        assert slots[..] == s1[head := none];
      }
      head := if head + 1 >= n then 0 else head + 1;
    }

    /** The second half: the elements after the place move back. */
    method RemoveBack(a: nat)
      requires Window(slots[..], head, contents, none) && a < |contents| && |contents| == size
      modifies slots
      ensures Window(slots[..], head, Removed(contents, a), none)
    {
      hide Window, Forward, Backward, Removed;
      ghost var s := slots[..];
      WindowBounds(s, head, contents, none);
      var n, i, j := slots.Length, head + a, head + size;
      if i >= n {
        RemoveLow(s, head, contents, none, a);
        var r := MoveBackward(i - n, j - 1 - n);
        ghost var s1 := slots[..];
        slots[r] := none;
        assert slots[..] == s1[j - 1 - n := none];
      } else if j > n {
        RemoveAcross(s, head, contents, none, a);
        var r := MoveBackward(i, n - 1);
        ghost var s1 := slots[..];
        assert s1[0] == s[0] by {
          BackwardAt(s, i, n - 1, 0);
        }
        slots[r] := slots[0];
        assert slots[..] == s1[n - 1 := s[0]];
        r := MoveBackward(0, j - 1 - n);
        ghost var s2 := slots[..];
        slots[r] := none;
        assert slots[..] == s2[j - 1 - n := none];
      } else {
        RemoveAfter(s, head, contents, none, a);
        var r := MoveBackward(i, j - 1);
        ghost var s1 := slots[..];
        slots[r] := none;
        assert slots[..] == s1[j - 1 := none];
      }
    }

    /** Whether an insertion misses its place: `-size` asks for the first place, but
        in a list that begins at the first slot, or does so after growing, the
        element comes second. */
    ghost predicate Misses(index: int)
      requires Valid()
      reads this, slots
    {
      index < 0 && index + size == 0 && (head == 0 || size >= grow)
    }

    /** f_insert */
    method Insert(index: int, x: T) returns (r: Result<T>)
      requires Valid()
      modifies this, slots
      ensures Valid() && operations == old(operations) + 1 && (slots == old(slots) || fresh(slots))
      ensures
        var c := old(contents);
        if 0 <= index <= |c| then r == Ok(x) && contents == Inserted(c, index, x)
        else if -|c| <= index < 0 then
          r == Ok(x) && contents == Inserted(c, if old(Misses(index)) then 1 else |c| + index, x)
        else r == OutOfRange && contents == c
      // A negative index is counted from the end if and only if the place is not missed,
      // or what comes second is what was first.
      ensures var c := old(contents);
        -|c| <= index < 0 ==> (contents == Inserted(c, |c| + index, x) <==> !old(Misses(index)) || x == c[0])
    {
      InsertedEnds(contents, x);
      hide Window, Rung, Forward, Backward, Inserted;
      if index == size {
        Push(x);
        assert contents == Inserted(old(contents), index, x);
        return Ok(x);
      }
      if index == 0 {
        Unshift(x);
        return Ok(x);
      }
      var a := Validated(index);
      if a < 0 {
        operations := operations + 1;
        return OutOfRange;
      }
      WindowBounds(slots[..], head, contents, none);
      MissedIf(contents, index, x);
      if size >= grow {
        Grow();
      }
      operations := operations + 1;
      if a < size - a {
        ghost var b := if a == 0 && head == 0 then 1 else a;
        InsertFront(a, x);
        InsertedMore(contents, b, x);
        contents := Inserted(contents, b, x);
      } else {
        InsertBack(a, x);
        InsertedMore(contents, a, x);
        contents := Inserted(contents, a, x);
      }
      size := size + 1;
      r := Ok(x);
    }

    /** f_remove */
    method Remove(index: int) returns (r: Result<T>)
      requires Valid()
      modifies this, slots
      ensures Valid() && operations == old(operations) + 1 && (slots == old(slots) || fresh(slots))
      ensures
        var c := old(contents);
        var i := if index < 0 then |c| + index else index;
        if 0 <= i < |c| then r == Ok(c[i]) && contents == Removed(c, i) else r == OutOfRange && contents == c
    {
      hide Window, Rung, Forward, Backward;
      operations := operations + 1;
      var a := Validated(index);
      if a < 0 {
        return OutOfRange;
      }
      RungSome(grow, shrink, base, unit);
      WindowBounds(slots[..], head, contents, none);
      WindowAt(slots[..], head, contents, none, a);
      r := Ok(slots[Wrap(slots.Length, head + a)]);
      if a < size - a {
        RemoveFront(a);
      } else {
        RemoveBack(a);
      }
      contents := Removed(contents, a);
      size := size - 1;
      Settle();
    }
  }

  lemma ForwardStep<T>(s: seq<T>, r: nat, q: nat)
    requires r <= q < |s|
    ensures Forward(s, q, q) == s
    ensures 0 < r ==> Forward(s, r, q)[r - 1] == s[r - 1] && Forward(s, r, q)[r := s[r - 1]] == Forward(s, r - 1, q)
  {
  }

  lemma BackwardStep<T>(s: seq<T>, p: nat, r: nat)
    requires p <= r < |s|
    ensures Backward(s, p, p) == s
    ensures r + 1 < |s| ==> Backward(s, p, r)[r + 1] == s[r + 1] && Backward(s, p, r)[r := s[r + 1]] == Backward(s, p, r + 1)
  {
  }

  lemma ForwardAt<T>(s: seq<T>, p: nat, q: nat, x: nat)
    requires q < |s| && x < |s| && !(p < x <= q)
    ensures Forward(s, p, q)[x] == s[x]
  {
  }

  lemma BackwardAt<T>(s: seq<T>, p: nat, q: nat, x: nat)
    requires q < |s| && x < |s| && !(p <= x < q)
    ensures Backward(s, p, q)[x] == s[x]
  {
  }

  lemma RungSome(grow: nat, shrink: nat, base: nat, m: nat)
    requires Rung(grow, shrink, base, m)
    ensures shrink <= grow
  {
  }

  lemma WindowPush<T>(s: seq<T>, head: nat, c: seq<T>, none: T, x: T)
    requires Window(s, head, c, none) && |c| < |s|
    ensures Wrap(|s|, head + |c|) < |s| && s[Wrap(|s|, head + |c|)] == none
    ensures Window(s[Wrap(|s|, head + |c|) := x], head, c + [x], none)
  {
  }

  lemma WindowUnshift<T>(s: seq<T>, head: nat, c: seq<T>, none: T, x: T)
    requires Window(s, head, c, none) && |c| < |s|
    ensures var h := (if head > 0 then head else |s|) - 1;
      h < |s| && s[h] == none && Window(s[h := x], h, [x] + c, none)
  {
  }

  lemma WindowPop<T>(s: seq<T>, head: nat, c: seq<T>, none: T)
    requires Window(s, head, c, none) && c != []
    ensures var k := Wrap(|s|, head + |c| - 1);
      k < |s| && s[k] == c[|c| - 1] && Window(s[k := none], head, c[..|c| - 1], none)
  {
  }

  lemma WindowShift<T>(s: seq<T>, head: nat, c: seq<T>, none: T)
    requires Window(s, head, c, none) && c != []
    ensures head < |s| && s[head] == c[0]
    ensures Window(s[head := none], if head + 1 >= |s| then 0 else head + 1, c[1..], none)
  {
  }

  lemma WindowSet<T>(s: seq<T>, head: nat, c: seq<T>, none: T, i: nat, x: T)
    requires Window(s, head, c, none) && i < |c|
    ensures Wrap(|s|, head + i) < |s| && Window(s[Wrap(|s|, head + i) := x], head, c[i := x], none)
  {
  }

  lemma RungFirst(shrink: nat, base: nat, m: nat)
    requires Rung(0, shrink, base, m)
    ensures Rung(6, shrink, base, m) && shrink == 0 && base == 0 && m == 0
  {
  }

  lemma WindowNone<T>(s: seq<T>, head: nat, c: seq<T>, none: T)
    requires c == [] && |s| > 0 && forall k :: 0 <= k < |s| ==> s[k] == none
    ensures Window(s, 0, c, none)
  {
  }

  lemma WindowEmpty<T>(s: seq<T>, c: seq<T>, none: T)
    requires c == [] && s == []
    ensures Window(s, 0, c, none) && Rung(0, 0, 0, 0)
  {
  }

  /** The copying loops of f_resize. */
  method CopyAll<T>(source: array<T>, head: nat, size: nat, table: array<T>, ghost c: seq<T>, none: T)
    requires source != table && Window(source[..], head, c, none) && 0 < size == |c| <= table.Length
    requires forall k :: 0 <= k < table.Length ==> table[k] == none
    modifies table
    ensures Window(table[..], 0, c, none)
  {
    hide Window;
    var n := source.Length;
    ghost var s := source[..];
    WindowBounds(s, head, c, none);
    var h, i := head, 0;
    if head + size > n {
      while true
        invariant i == h - head < size && head <= h < n && Filled(table[..], i, c, none)
        decreases n - h
      {
        WindowAt(s, head, c, none, i);
        FilledOne(table[..], i, c, none);
        table[i] := source[h];
        h, i := h + 1, i + 1;
        if h >= n {
          break;
        }
      }
      h := 0;
    }
    while true
      invariant 0 <= i < size && h == Wrap(n, head + i) < n && Filled(table[..], i, c, none)
      invariant head + i < n ==> head + size <= n
      decreases size - i
    {
      WindowAt(s, head, c, none, i);
      FilledOne(table[..], i, c, none);
      table[i] := source[h];
      h, i := h + 1, i + 1;
      if i >= size {
        break;
      }
    }
    WindowNew(table[..], c, none);
  }

  ghost predicate Filled<T>(s: seq<T>, i: nat, c: seq<T>, none: T) {
    && i <= |c| <= |s| && (forall k :: 0 <= k < i ==> s[k] == c[k])
    && forall k :: i <= k < |s| ==> s[k] == none
  }

  lemma FilledOne<T>(s: seq<T>, i: nat, c: seq<T>, none: T)
    requires Filled(s, i, c, none) && i < |c|
    ensures Filled(s[i := c[i]], i + 1, c, none)
  {
  }

  /** A new list, one element, another inserted before it: it comes after it. */
  method MissedExample() returns (l: List<int>)
    ensures fresh(l) && l.Valid() && l.contents == [7, 8]
  {
    l := new List<int>(0);
    l.Push(7);
    var r := l.Insert(-1, 8);
  }
}
