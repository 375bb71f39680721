/** The collector's view of the heap: the fields of every object, indexed by the
    number of the object, and the intrusive lists threaded through them. */
module ObjectHeap {
  import opened ObjectGraph

  datatype Color = BLACK | PURPLE | GRAY | WHITING | WHITE | ORANGE | RED

  const NIL := -1

  /** `st` lists, top last, the objects chained from `top` by `scan`; none twice. */
  ghost predicate Chain(top: int, scan: seq<int>, st: seq<nat>)
    decreases st
  {
    if st == [] then top == NIL
    else
      var rest := st[..|st| - 1];
      top == st[|st| - 1] && top < |scan| && top !in rest && Chain(scan[top], scan, rest)
  }

  lemma {:induction false} ChainFrame(top: int, scan: seq<int>, st: seq<nat>, x: nat, v: int)
    requires Chain(top, scan, st) && x !in st && x < |scan|
    ensures Chain(top, scan[x := v], st)
    decreases st
  {
    if st != [] {
      ChainFrame(scan[top], scan, st[..|st| - 1], x, v);
    }
  }

  class Heap {
    var g: Graph

    var color: seq<Color>
    var count: seq<nat>
    var cyclic: seq<nat>
    var scan: seq<int>
    var scanStack: int

    // Links; the entry at |g| is the list head of the candidates.
    var next: seq<int>
    var previous: seq<int>

    // Pending cycles.
    var nextCycle: seq<int>
    var cycles: int

    // An object whose type is gone has dropped its references.
    var typed: seq<bool>
    ghost var freed: set<nat>

    /** `n` objects that have just been allocated, each with the one reference from
        where it was asked for. */
    constructor (n: nat)
      ensures g == seq(n, _ => []) && color == seq(n, _ => BLACK) && count == seq(n, _ => 1) && cyclic == seq(n, _ => 0)
      ensures scan == seq(n, _ => NIL) && nextCycle == seq(n, _ => NIL) && typed == seq(n, _ => true) && freed == {}
      ensures next == previous == seq(n, _ => NIL) + [n] && scanStack == NIL && cycles == NIL
    {
      g, color, count, cyclic := seq(n, _ => []), seq(n, _ => BLACK), seq(n, _ => 1), seq(n, _ => 0);
      scan, nextCycle, typed, freed := seq(n, _ => NIL), seq(n, _ => NIL), seq(n, _ => true), {};
      next, previous, scanStack, cycles := seq(n, _ => NIL) + [n], seq(n, _ => NIL) + [n], NIL, NIL;
    }

    ghost predicate Shaped()
      reads this
    {
      && Closed(g)
      && |color| == |count| == |cyclic| == |scan| == |nextCycle| == |typed| == |g|
      && |next| == |previous| == |g| + 1
    }

    ghost predicate Stacked(st: seq<nat>)
      reads this`scan, this`scanStack
    {
      Chain(scanStack, scan, st)
    }

    /** t_object::f_push */
    method Push(x: nat, ghost st: seq<nat>)
      requires x < |scan| && x !in st && Stacked(st)
      modifies this`scan, this`scanStack
      ensures |scan| == old(|scan|) && Stacked(st + [x])
    {
      ChainFrame(scanStack, scan, st, x, scanStack);
      assert (st + [x])[..|st|] == st;
      scan := scan[x := scanStack];
      scanStack := x;
    }

    /** Takes the top of the scan stack, or NIL when there is none. */
    method Pop(ghost st: seq<nat>) returns (p: int)
      requires Stacked(st)
      modifies this`scanStack
      ensures if st == [] then p == NIL && Stacked([]) else p == st[|st| - 1] && Stacked(st[..|st| - 1])
    {
      p := scanStack;
      if p != NIL {
        scanStack := scan[p];
      }
    }
  }
}
