/** The conservative snapshot of a fiber's stacks: at every epoch the words on them
    are compared in place with those of the last epoch. Objects that have appeared
    are incremented; those that have gone are listed, in the part of the buffer
    that has been read, to be decremented later. */
module StackDiff {

  /** The objects that the words stand for; 0 is no object. */
  ghost function Found(find: int -> int, words: seq<int>): seq<int> {
    seq(|words|, i requires 0 <= i < |words| => find(words[i]))
  }

  /** A stretch of the buffer. */
  ghost function Part(b: seq<int>, i: nat, j: nat): (r: seq<int>)
    requires i <= j <= |b|
    ensures |r| == j - i
  {
    b[i..j]
  }

  /** All that is gained is incremented and all that is lost is listed, each as
      often as it was gained or lost. */
  ghost predicate Balanced(news: seq<int>, olds: seq<int>, incs: seq<int>, decs: seq<int>) {
    forall x :: x != 0 ==> multiset(news)[x] + multiset(decs)[x] == multiset(olds)[x] + multiset(incs)[x]
  }

  lemma BalancedOne(news: seq<int>, olds: seq<int>, incs: seq<int>, decs: seq<int>, p: int, q: int)
    requires Balanced(news, olds, incs, decs)
    ensures Balanced(news + [p], olds + [q], if p == q || p == 0 then incs else incs + [p],
                     if p == q || q == 0 then decs else decs + [q])
    ensures Balanced(news + [p], olds, if p == 0 then incs else incs + [p], decs)
    ensures Balanced(news, olds + [q], incs, if q == 0 then decs else decs + [q])
  {
  }

  lemma BalancedJoin(n0: seq<int>, o0: seq<int>, i0: seq<int>, d0: seq<int>,
                     n1: seq<int>, o1: seq<int>, i1: seq<int>, d1: seq<int>)
    requires Balanced(n0, o0, i0, d0) && Balanced(n1, o1, i1, d1)
    ensures Balanced(n0 + n1, o0 + o1, i0 + i1, d0 + d1)
  {
  }

  /** No word stands for an object that is no longer there. */
  ghost predicate Counted(find: int -> int, words: seq<int>) {
    find(0) == 0 && forall i :: 0 <= i < |words| ==> find(words[i]) == words[i]
  }

  /** `c` differs from `b` in the two stretches at most. */
  ghost predicate Elsewhere(b: seq<int>, c: seq<int>, i: int, j: int, k: int, l: int) {
    |b| == |c| && forall x :: 0 <= x < |b| && !(i <= x < j) && !(k <= x < l) ==> c[x] == b[x]
  }

  /** Where the words, the last objects and the list of `Compare` may lie: an
      entry is only written where the word has been read. */
  ghost predicate Laid(n: nat, p: nat, q: nat, m: nat, d: nat) {
    p + m <= n && q + m <= n && d <= p && (p + m <= q || q + m <= d)
  }

  /** One word: its object `a` takes the place of the last one, `x`, which is
      listed when it is another. */
  ghost function Written(b: seq<int>, i: nat, d: nat, x: int, a: int): seq<int>
    requires i < |b| && d < |b|
  {
    (if a == x || x == 0 then b else b[d := x])[i := a]
  }

  /** Of the words `words` at `p`, compared against the objects `olds` at `q`, the
      first `k` have been dealt with; `decs` have been listed at `d`. */
  ghost predicate Comparing(find: int -> int, b0: seq<int>, b: seq<int>, words: seq<int>, olds: seq<int>, p: nat, q: nat,
                            d: nat, k: nat, incs: seq<int>, decs: seq<int>)
  {
    && |b| == |b0| && |words| == |olds| && Laid(|b|, p, q, |olds|, d) && k <= |olds| && |decs| <= k
    && (forall j :: k <= j < |words| ==> b[p + j] == words[j])
    && (forall j :: k <= j < |olds| ==> b[q + j] == olds[j])
    && (forall j :: 0 <= j < k ==> b[q + j] == find(words[j]))
    && (forall j :: 0 <= j < |decs| ==> b[d + j] == decs[j])
    && Elsewhere(b0, b, q, q + k, d, d + |decs|)
    && Balanced(Found(find, words[..k]), olds[..k], incs, decs)
  }

  lemma CompareOne(find: int -> int, b0: seq<int>, b: seq<int>, words: seq<int>, olds: seq<int>, p: nat, q: nat,
                   d: nat, k: nat, incs: seq<int>, decs: seq<int>)
    requires Comparing(find, b0, b, words, olds, p, q, d, k, incs, decs) && k < |olds|
    ensures p + k < |b| && q + k < |b| && d + |decs| < |b| && b[p + k] == words[k] && b[q + k] == olds[k]
    ensures
      var x, a := olds[k], find(words[k]);
      Comparing(find, b0, Written(b, q + k, d + |decs|, x, a), words, olds, p, q, d, k + 1,
                if a == x || a == 0 then incs else incs + [a], if a == x || x == 0 then decs else decs + [x])
  {
    hide Balanced;
    var x, a := olds[k], find(words[k]);
    assert olds[..k + 1] == olds[..k] + [x];
    assert Found(find, words[..k + 1]) == Found(find, words[..k]) + [a];
    BalancedOne(Found(find, words[..k]), olds[..k], incs, decs, a, x);
  }

  lemma CompareNone(find: int -> int, b: seq<int>, p: nat, q: nat, m: nat, d: nat)
    requires Laid(|b|, p, q, m, d)
    ensures Comparing(find, b, b, b[p..p + m], b[q..q + m], p, q, d, 0, [], [])
  {
  }

  class Fiber {
    const stack: nat
    const limit: nat
    const buffer: array<int>

    // Where the last words of the execution stack begin; where those of the native
    // stack end and its decrements begin; where the words of the native stack end.
    const head: nat
    const bottom: nat
    const copy: nat

    // The execution stack grows upwards, the native one downwards.
    var used: nat
    var lastUsed: nat
    var depth: nat
    var lastDepth: nat
    var estackDecrements: nat
    var stackDecrements: nat

    // What has been passed to f_increment and f_decrement.
    var increments: seq<int>
    var decrements: seq<int>

    ghost predicate Valid()
      reads this
    {
      && used <= stack && lastUsed <= stack && depth <= limit && lastDepth <= limit
      && head == stack && bottom == 2 * stack + limit && copy == bottom + limit <= buffer.Length
      && estackDecrements <= stack && bottom <= stackDecrements <= copy
    }

    /** The words of this epoch. */
    ghost function Words(): seq<int>
      requires Valid()
      reads this, buffer
    {
      Part(buffer[..], 0, used) + Part(buffer[..], copy - depth, copy)
    }

    /** The objects of the last epoch. */
    ghost function Last(): seq<int>
      requires Valid()
      reads this, buffer
    {
      Part(buffer[..], head, head + lastUsed) + Part(buffer[..], bottom - lastDepth, bottom)
    }

    /** The objects to be decremented. */
    ghost function Gone(): seq<int>
      requires Valid()
      reads this, buffer
    {
      Part(buffer[..], 0, estackDecrements) + Part(buffer[..], bottom, stackDecrements)
    }

    constructor (stack: nat, limit: nat, n: nat)
      requires n >= 2
      ensures Valid() && this.stack == stack && this.limit == limit && fresh(buffer)
      ensures Words() == [] && Last() == [] && Gone() == [] && increments == [] && decrements == []
    {
      this.stack, this.limit := stack, limit;
      head, bottom, copy := stack, stack + stack + limit, stack + stack + limit + limit;
      buffer := new int[stack * 2 + limit * n];
      used, lastUsed, depth, lastDepth, estackDecrements, stackDecrements := 0, 0, 0, 0, 0, 2 * stack + limit;
      increments, decrements := [], [];
      new;
      Room(stack, limit, n);
    }

    static lemma Room(stack: nat, limit: nat, n: nat)
      requires n >= 2
      ensures stack * 2 + limit * n >= 2 * stack + 2 * limit
    {
    }

    /** The body of the loop of f_epoch_increment. */
    method CompareWord(find: int -> int, p: nat, i: nat, d: nat) returns (d': nat)
      requires p < buffer.Length && i < buffer.Length && d < buffer.Length && i != d && find(buffer[i]) == buffer[i]
      modifies buffer, this`increments
      ensures
        var x, a := old(buffer[i]), find(old(buffer[p]));
        && buffer[..] == Written(old(buffer[..]), i, d, x, a)
        && d' == (if a == x || x == 0 then d else d + 1)
        && increments == old(increments) + if a == x || a == 0 then [] else [a]
    {
      d' := d;
      var a, b := buffer[p], buffer[i];
      if a == b {
        return;
      }
      a := find(a);
      if a == b {
        return;
      }
      if a != 0 {
        increments := increments + [a];
      }
      if b != 0 {
        buffer[d'] := b;
        d' := d' + 1;
      }
      buffer[i] := a;
    }

    /** t_engine::f_epoch_increment: the words from `p` on against the objects from
        `q` to `end`; what is gone is listed from `d` on. */
    method Compare(find: int -> int, p: nat, q: nat, end: nat, d: nat)
        returns (p': nat, d': nat, ghost incs: seq<int>, ghost decs: seq<int>)
      requires q <= end && Laid(buffer.Length, p, q, end - q, d)
      requires Counted(find, buffer[q..end])
      modifies buffer, this`increments
      ensures p' == p + (end - q) && d' == d + |decs| && increments == old(increments) + incs
      ensures Comparing(find, old(buffer[..]), buffer[..], old(buffer[p..p + (end - q)]), old(buffer[q..end]), p, q, d,
                        end - q, incs, decs)
    {
      hide Elsewhere, Counted, Found, Balanced, Comparing, Written;
      ghost var m: nat, b0 := end - q, buffer[..];
      ghost var words, olds := b0[p..p + m], b0[q..q + m];
      ghost var k := 0;
      p', d', incs, decs := p, d, [], [];
      var i := q;
      CompareNone(find, b0, p, q, m, d);
      while i < end
        invariant k <= m && i == q + k && p' == p + k && d' == d + |decs| && increments == old(increments) + incs
        invariant Comparing(find, b0, buffer[..], words, olds, p, q, d, k, incs, decs)
      {
        CompareOne(find, b0, buffer[..], words, olds, p, q, d, k, incs, decs);
        CountedAt(find, b0, q, end, i);
        ListApart(find, b0, buffer[..], words, olds, p, q, d, k, incs, decs);
        ghost var x, a := olds[k], find(words[k]);
        d' := CompareWord(find, p', i, d');
        incs, decs := if a == x || a == 0 then incs else incs + [a], if a == x || x == 0 then decs else decs + [x];
        p', i := p' + 1, i + 1;
        k := k + 1;
      }
    }

    /** The `increment` loop of f_epoch_scan: words that are new on the stack. */
    method Grow(find: int -> int, p: nat, q: nat, end: nat) returns (p': nat, ghost incs: seq<int>)
      requires q < end <= buffer.Length && p + (end - q) <= buffer.Length && (p + (end - q) <= q || end <= p)
      modifies buffer, this`increments
      ensures p' == p + (end - q) && increments == old(increments) + incs
      ensures Grown(find, old(buffer[..]), buffer[..], old(buffer[p..p + (end - q)]), q, end - q, incs)
    {
      hide Elsewhere, Balanced, Found;
      ghost var m: nat, b0 := end - q, buffer[..];
      ghost var words := b0[p..p + m];
      ghost var k := 0;
      p', incs := p, [];
      var i := q;
      GrowNone(find, b0, words, q);
      while true
        invariant k < m && i == q + k && p' == p + k && increments == old(increments) + incs
        invariant Grown(find, b0, buffer[..], words, q, k, incs)
        invariant forall j :: k <= j < m ==> buffer[p + j] == words[j]
        decreases m - k
      {
        ghost var b := buffer[..];
        var a := find(buffer[p']);
        p' := p' + 1;
        GrowOne(find, b0, b, words, q, k, incs, a);
        if a != 0 {
          increments := increments + [a];
          incs := incs + [a];
        }
        buffer[i] := a;
        assert buffer[..] == b[q + k := a];
        i := i + 1;
        k := k + 1;
        if i >= end {
          break;
        }
      }
    }

    /** The loop of f_epoch_scan over the objects that are no longer on the stack. */
    method Shrink(q: nat, end: nat, d: nat) returns (d': nat, ghost decs: seq<int>)
      requires q <= end <= buffer.Length && d + (end - q) <= buffer.Length && (d + (end - q) <= q || end <= d)
      modifies buffer
      ensures d' == d + |decs| && Shrunk(old(buffer[..]), buffer[..], old(buffer[q..end]), d, end - q, decs)
    {
      hide Elsewhere, Balanced;
      ghost var m: nat, b0 := end - q, buffer[..];
      ghost var olds := b0[q..q + m];
      ghost var k := 0;
      d', decs := d, [];
      var i := q;
      ShrinkNone(b0, olds, d);
      while i < end
        invariant k <= m && i == q + k && d' == d + |decs| && Shrunk(b0, buffer[..], olds, d, k, decs)
        invariant forall j :: k <= j < m ==> buffer[q + j] == olds[j]
      {
        ghost var b := buffer[..];
        assert buffer[i] == olds[k];
        ShrinkOne(b0, b, olds, d, k, decs);
        if buffer[i] != 0 {
          buffer[d'] := buffer[i];
          assert buffer[..] == b[d + |decs| := olds[k]];
          d' := d' + 1;
          decs := decs + [olds[k]];
        }
        i := i + 1;
        k := k + 1;
      }
    }

    /** The execution stack has grown: the words above the compared ones. */
    method EstackUp(find: int -> int, p: nat, ghost b0: seq<int>, ghost words: seq<int>, ghost olds: seq<int>,
                    ghost incs: seq<int>, ghost decs: seq<int>)
        returns (ghost incs': seq<int>)
      requires Valid() && p == |olds| < |words| == used && |b0| == buffer.Length && words == Part(b0, 0, used)
      requires Comparing(find, b0, buffer[..], words[..p], olds, 0, head, 0, p, incs, decs)
      modifies buffer, this`increments
      ensures Scanned(find, b0, buffer[..], words, head, olds, 0, incs + incs', decs)
      ensures increments == old(increments) + incs'
    {
      hide Comparing, Grown, Shrunk, Scanned, Counted, Elsewhere, Found, Balanced, Written;
      ghost var b1 := buffer[..];
      var p';
      p', incs' := Grow(find, p, head + p, head + used);
      GrewUp(find, b0, b1, buffer[..], words, olds, head, incs, decs, incs');
    }

    /** The execution stack has not grown: the objects that are above it. */
    method EstackDown(find: int -> int, p: nat, n: nat, d: nat, ghost b0: seq<int>, ghost words: seq<int>, ghost olds: seq<int>,
                      ghost incs: seq<int>, ghost decs: seq<int>)
        returns (d': nat, ghost decs': seq<int>)
      requires Valid() && p == |words| <= n == |olds| <= stack && d == |decs| <= p && |b0| == buffer.Length
      requires olds == Part(b0, head, head + |olds|)
      requires Comparing(find, b0, buffer[..], words, olds[..p], 0, head, 0, p, incs, decs)
      modifies buffer
      ensures Scanned(find, b0, buffer[..], words, head, olds, 0, incs, decs + decs') && d' == d + |decs'|
    {
      hide Comparing, Grown, Shrunk, Scanned, Counted, Elsewhere, Found, Balanced, Written;
      ghost var b1 := buffer[..];
      d', decs' := Shrink(head + p, head + n, d);
      ShrankDown(find, b0, b1, buffer[..], words, olds, head, incs, decs, decs');
    }

    /** The part of f_epoch_scan for the execution stack. */
    method ScanEstack(find: int -> int) returns (ghost incs: seq<int>, ghost decs: seq<int>)
      requires Valid() && Counted(find, Part(buffer[..], head, head + lastUsed))
      modifies buffer, this`increments, this`lastUsed, this`estackDecrements
      ensures Valid() && lastUsed == used && estackDecrements == |decs| && increments == old(increments) + incs
      ensures Scanned(find, old(buffer[..]), buffer[..], old(Part(buffer[..], 0, used)), head, old(Part(buffer[..], head, head + lastUsed)), 0,
                      incs, decs)
    {
      hide Comparing, Grown, Shrunk, Scanned, Counted, Elsewhere, Found, Balanced, Written, Part;
      ghost var b0, words, olds := buffer[..], Part(buffer[..], 0, used), Part(buffer[..], head, head + lastUsed);
      var used1, used2 := used, lastUsed;
      lastUsed := used1;
      var least := if used1 < used2 then used1 else used2;
      CountedPart(find, olds, 0, least);
      assert olds[0..least] == olds[..least];
      PartPrefix(b0, head, head + used2, least);
      PartPrefix(b0, 0, used1, least);
      var p, d;
      p, d, incs, decs := Compare(find, 0, head, head + least, 0);
      if used1 > used2 {
        assert olds[..least] == olds;
        ghost var incs2 := EstackUp(find, p, b0, words, olds, incs, decs);
        incs := incs + incs2;
      } else {
        assert words[..least] == words;
        ghost var decs2;
        ComparedList(find, b0, buffer[..], words, olds[..least], 0, head, 0, incs, decs);
        d, decs2 := EstackDown(find, p, used2, d, b0, words, olds, incs, decs);
        decs := decs + decs2;
      }
      ScannedList(find, b0, buffer[..], words, head, olds, 0, incs, decs);
      estackDecrements := d;
    }

    /** The native stack has grown: first the new words, then those to compare. */
    method StackUp(find: int -> int, n: nat, ghost words: seq<int>, ghost olds: seq<int>)
        returns (d: nat, ghost incs: seq<int>, ghost decs: seq<int>)
      requires Valid() && n == |olds| < |words| == depth && words == Part(buffer[..], copy - depth, copy)
      requires olds == Part(buffer[..], bottom - |olds|, bottom) && Counted(find, olds)
      modifies buffer, this`increments
      ensures Scanned(find, old(buffer[..]), buffer[..], words, bottom - depth, olds, bottom, incs, decs)
      ensures d == bottom + |decs| && increments == old(increments) + incs
    {
      hide Comparing, Grown, Shrunk, Scanned, Counted, Elsewhere, Found, Balanced, Written;
      ghost var b0 := buffer[..];
      var top0, top1, top2 := copy - depth, bottom - depth, bottom - n;
      ghost var g: nat := top2 - top1;
      assert b0[top0..top0 + g] == words[..g];
      var p;
      ghost var incs2;
      p, incs := Grow(find, top0, top1, top2);
      ghost var b1 := buffer[..];
      GrownRest(find, b0, b1, words, olds, top0, top1, g, incs);
      p, d, incs2, decs := Compare(find, p, top2, bottom, bottom);
      GrewDown(find, b0, b1, buffer[..], words, olds, top0, top1, bottom, incs, incs2, decs);
      incs := incs + incs2;
    }

    /** The native stack has not grown: first the objects below it. */
    method StackDown(find: int -> int, n: nat, ghost words: seq<int>, ghost olds: seq<int>)
        returns (d: nat, ghost incs: seq<int>, ghost decs: seq<int>)
      requires Valid() && depth == |words| <= n == |olds| <= limit && words == Part(buffer[..], copy - depth, copy)
      requires olds == Part(buffer[..], bottom - |olds|, bottom) && Counted(find, olds)
      modifies buffer, this`increments
      ensures Scanned(find, old(buffer[..]), buffer[..], words, bottom - depth, olds, bottom, incs, decs)
      ensures d == bottom + |decs| && increments == old(increments) + incs
    {
      hide Comparing, Grown, Shrunk, Scanned, Counted, Elsewhere, Found, Balanced, Written;
      ghost var b0 := buffer[..];
      var top0, top1, top2 := copy - depth, bottom - depth, bottom - n;
      ghost var g: nat := top1 - top2;
      assert b0[top2..top1] == olds[..g];
      var p;
      ghost var decs2;
      d, decs := Shrink(top2, top1, bottom);
      ghost var b1 := buffer[..];
      ShrunkRest(b0, b1, words, olds, top0, top2, g, bottom, decs);
      CountedPart(find, olds, g, n);
      assert olds[g..n] == olds[g..];
      p, d, incs, decs2 := Compare(find, top0, top1, bottom, d);
      ShrankUp(find, b0, b1, buffer[..], words, olds, top0, top1, bottom, incs, decs, decs2);
      decs := decs + decs2;
    }

    /** The part of f_epoch_scan for the native stack. */
    method ScanStack(find: int -> int) returns (ghost incs: seq<int>, ghost decs: seq<int>)
      requires Valid() && Counted(find, Part(buffer[..], bottom - lastDepth, bottom))
      modifies buffer, this`increments, this`lastDepth, this`stackDecrements
      ensures Valid() && lastDepth == depth && stackDecrements == bottom + |decs| && increments == old(increments) + incs
      ensures Scanned(find, old(buffer[..]), buffer[..], old(Part(buffer[..], copy - depth, copy)), bottom - depth,
                      old(Part(buffer[..], bottom - lastDepth, bottom)), bottom, incs, decs)
    {
      hide Comparing, Grown, Shrunk, Scanned, Counted, Elsewhere, Found, Balanced, Written;
      ghost var b0, words, olds := buffer[..], Part(buffer[..], copy - depth, copy), Part(buffer[..], bottom - lastDepth, bottom);
      var top1, top2 := bottom - depth, bottom - lastDepth;
      var d;
      if top1 < top2 {
        d, incs, decs := StackUp(find, lastDepth, words, olds);
      } else {
        d, incs, decs := StackDown(find, lastDepth, words, olds);
      }
      ScannedList(find, b0, buffer[..], words, top1, olds, bottom, incs, decs);
      lastDepth := depth;
      stackDecrements := d;
    }

    method CopyEstack(estack: seq<int>)
      requires Valid() && |estack| <= stack
      modifies buffer, this`used
      ensures Valid() && used == |estack| && Part(buffer[..], 0, used) == estack && Part(buffer[..], stack, buffer.Length) == old(Part(buffer[..], stack, buffer.Length))
    {
      used := |estack|;
      for i := 0 to |estack|
        invariant Part(buffer[..], 0, i) == estack[..i]
        invariant Part(buffer[..], stack, buffer.Length) == old(Part(buffer[..], stack, buffer.Length))
        modifies buffer
      {
        buffer[i] := estack[i];
      }
    }

    method CopyNative(native: seq<int>)
      requires Valid() && |native| <= limit
      modifies buffer, this`depth
      ensures Valid() && depth == |native| && Part(buffer[..], copy - depth, copy) == native && Part(buffer[..], 0, bottom) == old(Part(buffer[..], 0, bottom))
    {
      depth := |native|;
      var top := copy - depth;
      for i := 0 to |native|
        invariant Part(buffer[..], top, top + i) == native[..i]
        invariant Part(buffer[..], 0, bottom) == old(Part(buffer[..], 0, bottom))
        modifies buffer
      {
        buffer[top + i] := native[i];
      }
    }

    /** f_epoch_copy; `live` is false when the fiber is over. */
    method CopyStacks(estack: seq<int>, native: seq<int>, live: bool)
      requires Valid() && |estack| <= stack && |native| <= limit
      modifies buffer, this`used, this`depth
      ensures Valid() && Words() == (if live then estack + native else []) && Last() == old(Last())
    {
      hide Part;
      ghost var b0 := buffer[..];
      CopyEstack(if live then estack else []);
      ghost var b1 := buffer[..];
      CopyNative(if live then native else []);
      ghost var b2 := buffer[..];
      Copied(b0, b1, b2, stack, bottom, used, lastUsed, lastDepth);
    }

    /** The first half leaves the native stack's part of the buffer alone. */
    method ScanFirst(find: int -> int) returns (ghost incs: seq<int>, ghost decs: seq<int>)
      requires Valid() && Counted(find, Part(buffer[..], head, head + lastUsed))
      modifies buffer, this`increments, this`lastUsed, this`estackDecrements
      ensures Valid() && lastUsed == used && estackDecrements == |decs| && increments == old(increments) + incs
      ensures Scanned(find, old(buffer[..]), buffer[..], old(Part(buffer[..], 0, used)), head, old(Part(buffer[..], head, head + lastUsed)), 0,
                      incs, decs)
      ensures Part(buffer[..], copy - depth, copy) == old(Part(buffer[..], copy - depth, copy))
      ensures Part(buffer[..], bottom - lastDepth, bottom) == old(Part(buffer[..], bottom - lastDepth, bottom))
    {
      hide Counted, Elsewhere, Found, Balanced, Scanned, Part;
      ghost var b0, words, olds := buffer[..], Part(buffer[..], 0, used), Part(buffer[..], head, head + lastUsed);
      incs, decs := ScanEstack(find);
      ScannedRest(find, b0, buffer[..], words, head, olds, 0, incs, decs, copy - depth, copy);
      ScannedRest(find, b0, buffer[..], words, head, olds, 0, incs, decs, bottom - lastDepth, bottom);
    }

    /** And the second half leaves the other part alone. */
    method ScanSecond(find: int -> int) returns (ghost incs: seq<int>, ghost decs: seq<int>)
      requires Valid() && Counted(find, Part(buffer[..], bottom - lastDepth, bottom))
      modifies buffer, this`increments, this`lastDepth, this`stackDecrements
      ensures Valid() && lastDepth == depth && stackDecrements == bottom + |decs| && increments == old(increments) + incs
      ensures Scanned(find, old(buffer[..]), buffer[..], old(Part(buffer[..], copy - depth, copy)), bottom - depth,
                      old(Part(buffer[..], bottom - lastDepth, bottom)), bottom, incs, decs)
      ensures Part(buffer[..], head, head + lastUsed) == old(Part(buffer[..], head, head + lastUsed))
      ensures Part(buffer[..], 0, estackDecrements) == old(Part(buffer[..], 0, estackDecrements))
    {
      hide Counted, Elsewhere, Found, Balanced, Scanned, Part;
      ghost var b0, words, olds := buffer[..], Part(buffer[..], copy - depth, copy), Part(buffer[..], bottom - lastDepth, bottom);
      incs, decs := ScanStack(find);
      ScannedRest(find, b0, buffer[..], words, bottom - depth, olds, bottom, incs, decs, head, head + lastUsed);
      ScannedRest(find, b0, buffer[..], words, bottom - depth, olds, bottom, incs, decs, 0, estackDecrements);
    }

    /** f_epoch_scan */
    method Scan(find: int -> int) returns (ghost incs: seq<int>)
      requires Valid() && Counted(find, Last())
      modifies buffer, this`increments, this`lastUsed, this`lastDepth, this`estackDecrements, this`stackDecrements
      ensures Valid() && increments == old(increments) + incs
      ensures Last() == Found(find, old(Words()))
      ensures Balanced(Last(), old(Last()), incs, Gone())
    {
      hide Counted, Elsewhere, Found, Balanced, Scanned, Part;
      ghost var b0, words1, words2 := buffer[..], Part(buffer[..], 0, used), Part(buffer[..], copy - depth, copy);
      ghost var olds1, olds2 := Part(buffer[..], head, head + lastUsed), Part(buffer[..], bottom - lastDepth, bottom);
      CountedJoin(find, olds1, olds2);
      ghost var decs1, incs2, decs2;
      incs, decs1 := ScanFirst(find);
      ghost var b1 := buffer[..];
      ScannedOne(find, b0, b1, words1, head, olds1, 0, incs, decs1);
      incs2, decs2 := ScanSecond(find);
      ScannedOne(find, b1, buffer[..], words2, bottom - depth, olds2, bottom, incs2, decs2);
      ScannedBoth(find, words1, olds1, incs, decs1, words2, olds2, incs2, decs2);
      incs := incs + incs2;
    }

    /** f_epoch_decrement */
    method Decrement()
      requires Valid()
      modifies this`decrements
      ensures Valid() && decrements == old(decrements) + Gone() && Gone() == old(Gone()) && Last() == old(Last())
    {
      hide Part;
      ghost var words, was := buffer[..], decrements;
      PartEmpty(words, 0);
      PartEmpty(words, bottom);
      for i := 0 to estackDecrements
        invariant decrements == was + Part(words, 0, i)
      {
        PartNext(words, 0, i);
        decrements := decrements + [buffer[i]];
      }
      for i := bottom to stackDecrements
        invariant decrements == was + Part(words, 0, estackDecrements) + Part(words, bottom, i)
      {
        PartNext(words, bottom, i);
        decrements := decrements + [buffer[i]];
      }
    }

    /** The references that the stacks have been given and not given back are those
        of the last snapshot. */
    ghost predicate Settled()
      requires Valid()
      reads this, buffer
    {
      Balanced(Last(), [], increments, decrements)
    }

    /** What one epoch does for a fiber. When the fiber is over, all that was
        incremented for its stacks has been decremented. */
    method Epoch(find: int -> int, estack: seq<int>, native: seq<int>, live: bool)
      requires Valid() && Settled() && |estack| <= stack && |native| <= limit && Counted(find, Last())
      modifies buffer, this
      ensures Valid() && Settled() && Last() == Found(find, if live then estack + native else [])
      ensures !live ==> forall x :: x != 0 ==> multiset(increments)[x] == multiset(decrements)[x]
    {
      hide Balanced, Found, Counted, Valid, Words, Last, Gone;
      ghost var last, increments0, decrements0 := Last(), increments, decrements;
      CopyStacks(estack, native, live);
      ghost var incs := Scan(find);
      ghost var last', gone := Last(), Gone();
      Decrement();
      assert Last() == last' && decrements == decrements0 + gone && increments == increments0 + incs;
      BalancedNext(last, last', increments0, decrements0, incs, gone);
      FoundNone(find, increments, decrements);
    }
  }

  lemma Copied(b0: seq<int>, b1: seq<int>, b2: seq<int>, m: nat, n: nat, u: nat, lastUsed: nat, lastDepth: nat)
    requires |b0| == |b1| == |b2| && u <= m && m + lastUsed <= n && m + lastDepth <= n <= |b0|
    requires Part(b1, m, |b1|) == Part(b0, m, |b0|) && Part(b2, 0, n) == Part(b1, 0, n)
    ensures Part(b2, 0, u) == Part(b1, 0, u)
    ensures Part(b2, m, m + lastUsed) == Part(b0, m, m + lastUsed) && Part(b2, n - lastDepth, n) == Part(b0, n - lastDepth, n)
  {
    PartWithin(b1, b2, 0, n, 0, u);
    PartWithin(b1, b2, 0, n, m, m + lastUsed);
    PartWithin(b1, b2, 0, n, n - lastDepth, n);
    PartWithin(b0, b1, m, |b0|, m, m + lastUsed);
    PartWithin(b0, b1, m, |b0|, n - lastDepth, n);
  }

  lemma PartWithin(b: seq<int>, c: seq<int>, i: nat, j: nat, k: nat, l: nat)
    requires |b| == |c| && i <= k <= l <= j <= |b| && Part(c, i, j) == Part(b, i, j)
    ensures Part(c, k, l) == Part(b, k, l)
  {
    forall x | k <= x < l
      ensures c[x] == b[x]
    {
      assert c[x] == Part(c, i, j)[x - i];
    }
  }

  lemma CountedJoin(find: int -> int, xs: seq<int>, ys: seq<int>)
    requires Counted(find, xs + ys)
    ensures Counted(find, xs) && Counted(find, ys)
  {
    assert (xs + ys)[..|xs|] == xs && (xs + ys)[|xs|..] == ys;
    assert forall i :: 0 <= i < |xs| ==> (xs + ys)[i] == xs[i];
    assert forall i :: 0 <= i < |ys| ==> (xs + ys)[|xs| + i] == ys[i];
  }

  /** A scan leaves the other stack's part of the buffer alone. */
  lemma ScannedRest(find: int -> int, b0: seq<int>, b: seq<int>, words: seq<int>, q: nat, olds: seq<int>, d: nat,
                    incs: seq<int>, decs: seq<int>, i: nat, j: nat)
    requires Scanned(find, b0, b, words, q, olds, d, incs, decs) && i <= j <= |b0|
    requires (j <= q || q + |words| <= i) && (j <= d || d + |decs| <= i)
    ensures Part(b, i, j) == Part(b0, i, j)
  {
  }

  lemma ScannedOne(find: int -> int, b0: seq<int>, b: seq<int>, words: seq<int>, q: nat, olds: seq<int>, d: nat,
                   incs: seq<int>, decs: seq<int>)
    requires Scanned(find, b0, b, words, q, olds, d, incs, decs)
    ensures q + |words| <= |b| && d + |decs| <= |b|
    ensures Part(b, q, q + |words|) == Found(find, words) && Part(b, d, d + |decs|) == decs
    ensures Balanced(Found(find, words), olds, incs, decs)
  {
  }

  lemma ScannedBoth(find: int -> int, words: seq<int>, olds: seq<int>, incs: seq<int>, decs: seq<int>,
                    words2: seq<int>, olds2: seq<int>, incs2: seq<int>, decs2: seq<int>)
    requires Balanced(Found(find, words), olds, incs, decs) && Balanced(Found(find, words2), olds2, incs2, decs2)
    ensures Found(find, words + words2) == Found(find, words) + Found(find, words2)
    ensures Balanced(Found(find, words + words2), olds + olds2, incs + incs2, decs + decs2)
  {
    assert Found(find, words + words2) == Found(find, words) + Found(find, words2);
    BalancedJoin(Found(find, words), olds, incs, decs, Found(find, words2), olds2, incs2, decs2);
  }

  lemma FoundNone(find: int -> int, increments: seq<int>, decrements: seq<int>)
    ensures Balanced(Found(find, []), [], increments, decrements) ==>
            forall x :: x != 0 ==> multiset(increments)[x] == multiset(decrements)[x]
  {
  }

  lemma BalancedNext(last: seq<int>, last': seq<int>, increments: seq<int>, decrements: seq<int>, incs: seq<int>,
                     decs: seq<int>)
    requires Balanced(last, [], increments, decrements) && Balanced(last', last, incs, decs)
    ensures Balanced(last', [], increments + incs, decrements + decs)
  {
  }

  lemma PartEmpty(b: seq<int>, i: nat)
    requires i <= |b|
    ensures Part(b, i, i) == []
  {
  }

  lemma PartNext(b: seq<int>, i: nat, j: nat)
    requires i <= j < |b|
    ensures Part(b, i, j + 1) == Part(b, i, j) + [b[j]]
  {
  }

  lemma PartPrefix(b: seq<int>, i: nat, j: nat, k: nat)
    requires i + k <= j <= |b|
    ensures Part(b, i, j)[..k] == b[i..i + k]
  {
  }

  lemma CountedPart(find: int -> int, words: seq<int>, i: nat, j: nat)
    requires Counted(find, words) && i <= j <= |words|
    ensures Counted(find, words[i..j])
  {
  }

  /** The outcome of a scan: the objects of the words `words` are at `q`, and what
      is gone from `olds` is listed at `d`. */
  ghost predicate Scanned(find: int -> int, b0: seq<int>, b: seq<int>, words: seq<int>, q: nat, olds: seq<int>, d: nat,
                          incs: seq<int>, decs: seq<int>)
  {
    && |b| == |b0| && q + |words| <= |b| && d + |decs| <= |b| && |decs| <= |olds|
    && (forall j :: 0 <= j < |words| ==> b[q + j] == find(words[j]))
    && (forall j :: 0 <= j < |decs| ==> b[d + j] == decs[j])
    && Elsewhere(b0, b, q, q + |words|, d, d + |decs|)
    && Balanced(Found(find, words), olds, incs, decs)
  }

  lemma ScannedList(find: int -> int, b0: seq<int>, b: seq<int>, words: seq<int>, q: nat, olds: seq<int>, d: nat,
                    incs: seq<int>, decs: seq<int>)
    requires Scanned(find, b0, b, words, q, olds, d, incs, decs)
    ensures |decs| <= |olds|
  {
  }

  lemma ComparedList(find: int -> int, b0: seq<int>, b: seq<int>, words: seq<int>, olds: seq<int>, p: nat, q: nat, d: nat,
                     incs: seq<int>, decs: seq<int>)
    requires Comparing(find, b0, b, words, olds, p, q, d, |olds|, incs, decs)
    ensures |decs| <= |olds|
  {
  }

  lemma GrewUp(find: int -> int, b0: seq<int>, b1: seq<int>, b2: seq<int>, words: seq<int>, olds: seq<int>, q: nat,
               incs: seq<int>, decs: seq<int>, incs2: seq<int>)
    requires var m := |olds|;
      && m < |words| <= q && |words| <= |b0| && words == b0[..|words|]
      && Comparing(find, b0, b1, words[..m], olds, 0, q, 0, m, incs, decs)
      && Grown(find, b1, b2, b1[m..|words|], q + m, |words| - m, incs2)
    ensures Scanned(find, b0, b2, words, q, olds, 0, incs + incs2, decs)
  {
    hide Balanced;
    var m := |olds|;
    assert b1[m..|words|] == words[m..];
    assert Found(find, words) == Found(find, words[..m]) + Found(find, words[m..]);
    assert words[..m][..m] == words[..m] && olds[..m] == olds && words[m..][..|words| - m] == words[m..];
    BalancedJoin(Found(find, words[..m]), olds, incs, decs, Found(find, words[m..]), [], incs2, []);
    assert olds + [] == olds && decs + [] == decs;
    forall j | 0 <= j < |words|
      ensures b2[q + j] == find(words[j])
    {
      if j >= m {
        assert words[m..][j - m] == words[j];
      }
    }
  }

  lemma ShrankDown(find: int -> int, b0: seq<int>, b1: seq<int>, b2: seq<int>, words: seq<int>, olds: seq<int>, q: nat,
                   incs: seq<int>, decs: seq<int>, decs2: seq<int>)
    requires var m := |words|;
      && m <= |olds| <= q && q + |olds| <= |b0| == |b1| && olds == b0[q..q + |olds|]
      && Comparing(find, b0, b1, words, olds[..m], 0, q, 0, m, incs, decs)
      && Shrunk(b1, b2, b1[q + m..q + |olds|], |decs|, |olds| - m, decs2)
    ensures Scanned(find, b0, b2, words, q, olds, 0, incs, decs + decs2)
  {
    hide Balanced;
    var m := |words|;
    assert b1[q + m..q + |olds|] == olds[m..];
    assert olds[..m] + olds[m..] == olds && words[..m] == words && olds[..m][..m] == olds[..m];
    assert olds[m..][..|olds| - m] == olds[m..];
    BalancedJoin(Found(find, words), olds[..m], incs, decs, [], olds[m..], [], decs2);
    assert Found(find, words) + [] == Found(find, words) && incs + [] == incs;
    ListJoin(b2, 0, decs, decs2);
  }

  lemma ListJoin(b: seq<int>, d: nat, xs: seq<int>, ys: seq<int>)
    requires d + |xs| + |ys| <= |b|
    requires forall j :: 0 <= j < |xs| ==> b[d + j] == xs[j]
    requires forall j :: 0 <= j < |ys| ==> b[d + |xs| + j] == ys[j]
    ensures forall j :: 0 <= j < |xs + ys| ==> b[d + j] == (xs + ys)[j]
  {
    forall j | 0 <= j < |xs + ys|
      ensures b[d + j] == (xs + ys)[j]
    {
      if j >= |xs| {
        assert b[d + |xs| + (j - |xs|)] == ys[j - |xs|];
      }
    }
  }

  /** After growing, the words and objects still to be compared are untouched. */
  lemma GrownRest(find: int -> int, b0: seq<int>, b1: seq<int>, words: seq<int>, olds: seq<int>, t: nat, q: nat, g: nat,
                  incs: seq<int>)
    requires g <= |words| && |olds| == |words| - g && q + |words| <= t && t + |words| <= |b0| == |b1|
    requires words == b0[t..t + |words|] && olds == b0[q + g..q + |words|]
    requires Grown(find, b0, b1, words[..g], q, g, incs)
    ensures b1[t + g..t + |words|] == words[g..] && b1[q + g..q + |words|] == olds
  {
  }

  lemma GrewDown(find: int -> int, b0: seq<int>, b1: seq<int>, b2: seq<int>, words: seq<int>, olds: seq<int>, t: nat,
                 q: nat, d: nat, incs: seq<int>, incs2: seq<int>, decs: seq<int>)
    requires var g := |words| - |olds|;
      && 0 <= g && q + |words| <= d <= t
      && Grown(find, b0, b1, words[..g], q, g, incs)
      && Comparing(find, b1, b2, words[g..], olds, t + g, q + g, d, |olds|, incs2, decs)
    ensures Scanned(find, b0, b2, words, q, olds, d, incs + incs2, decs)
  {
    hide Balanced;
    var g := |words| - |olds|;
    assert words[..g][..g] == words[..g] && words[g..][..|olds|] == words[g..] && olds[..|olds|] == olds;
    assert Found(find, words) == Found(find, words[..g]) + Found(find, words[g..]);
    BalancedJoin(Found(find, words[..g]), [], incs, [], Found(find, words[g..]), olds, incs2, decs);
    assert [] + olds == olds && [] + decs == decs;
    forall j | 0 <= j < |words|
      ensures b2[q + j] == find(words[j])
    {
      if j >= g {
        assert b2[q + g + (j - g)] == find(words[g..][j - g]);
      } else {
        assert b1[q + j] == find(words[..g][j]);
      }
    }
  }

  /** The list has not reached the words still to be compared. */
  lemma ShrunkRest(b0: seq<int>, b1: seq<int>, words: seq<int>, olds: seq<int>, t: nat, q: nat, g: nat, d: nat,
                   decs: seq<int>)
    requires g <= |olds| && |words| == |olds| - g && q + |olds| <= d && d + g <= t && t + |words| <= |b0| == |b1|
    requires words == b0[t..t + |words|] && olds == b0[q..q + |olds|]
    requires Shrunk(b0, b1, olds[..g], d, g, decs)
    ensures b1[t..t + |words|] == words && b1[q + g..q + |olds|] == olds[g..] && |decs| <= g
  {
  }

  lemma ShrankUp(find: int -> int, b0: seq<int>, b1: seq<int>, b2: seq<int>, words: seq<int>, olds: seq<int>, t: nat,
                 q: nat, d: nat, incs: seq<int>, decs: seq<int>, decs2: seq<int>)
    requires var g := |olds| - |words|;
      && 0 <= g && q + |words| <= d && d + g <= t
      && Shrunk(b0, b1, olds[..g], d, g, decs)
      && Comparing(find, b1, b2, words, olds[g..], t, q, d + |decs|, |words|, incs, decs2)
    ensures Scanned(find, b0, b2, words, q, olds, d, incs, decs + decs2)
  {
    hide Balanced;
    var g := |olds| - |words|;
    assert olds[..g][..g] == olds[..g] && olds[g..][..|words|] == olds[g..] && words[..|words|] == words;
    assert olds == olds[..g] + olds[g..];
    BalancedJoin([], olds[..g], [], decs, Found(find, words), olds[g..], incs, decs2);
    assert [] + Found(find, words) == Found(find, words) && [] + incs == incs;
    ListJoin(b2, d, decs, decs2);
  }

  ghost predicate Grown(find: int -> int, b0: seq<int>, b: seq<int>, words: seq<int>, q: nat, k: nat, incs: seq<int>) {
    && |b| == |b0| && k <= |words| && q + |words| <= |b|
    && (forall j :: 0 <= j < k ==> b[q + j] == find(words[j]))
    && Elsewhere(b0, b, q, q + k, 0, 0) && Balanced(Found(find, words[..k]), [], incs, [])
  }

  lemma GrowNone(find: int -> int, b: seq<int>, words: seq<int>, q: nat)
    requires q + |words| <= |b|
    ensures Grown(find, b, b, words, q, 0, [])
  {
  }

  lemma GrowOne(find: int -> int, b0: seq<int>, b: seq<int>, words: seq<int>, q: nat, k: nat, incs: seq<int>, a: int)
    requires Grown(find, b0, b, words, q, k, incs) && k < |words| && a == find(words[k])
    ensures Grown(find, b0, b[q + k := a], words, q, k + 1, if a == 0 then incs else incs + [a])
  {
    assert Found(find, words[..k + 1]) == Found(find, words[..k]) + [a];
    BalancedOne(Found(find, words[..k]), [], incs, [], a, 0);
  }

  ghost predicate Shrunk(b0: seq<int>, b: seq<int>, olds: seq<int>, d: nat, k: nat, decs: seq<int>) {
    && |b| == |b0| && k <= |olds| && |decs| <= k && d + |olds| <= |b|
    && (forall j :: 0 <= j < |decs| ==> b[d + j] == decs[j])
    && Elsewhere(b0, b, 0, 0, d, d + |decs|) && Balanced([], olds[..k], [], decs)
  }

  lemma ShrinkNone(b: seq<int>, olds: seq<int>, d: nat)
    requires d + |olds| <= |b|
    ensures Shrunk(b, b, olds, d, 0, [])
  {
  }

  lemma ShrinkOne(b0: seq<int>, b: seq<int>, olds: seq<int>, d: nat, k: nat, decs: seq<int>)
    requires Shrunk(b0, b, olds, d, k, decs) && k < |olds|
    ensures if olds[k] == 0 then Shrunk(b0, b, olds, d, k + 1, decs)
            else Shrunk(b0, b[d + |decs| := olds[k]], olds, d, k + 1, decs + [olds[k]])
  {
    assert olds[..k + 1] == olds[..k] + [olds[k]];
    BalancedOne([], olds[..k], [], decs, 0, olds[k]);
  }

  lemma ListApart(find: int -> int, b0: seq<int>, b: seq<int>, words: seq<int>, olds: seq<int>, p: nat, q: nat,
                  d: nat, k: nat, incs: seq<int>, decs: seq<int>)
    requires Comparing(find, b0, b, words, olds, p, q, d, k, incs, decs) && k < |olds|
    ensures q + k != d + |decs|
  {
  }

  lemma CountedAt(find: int -> int, b: seq<int>, q: nat, end: nat, i: nat)
    requires q <= i < end <= |b| && Counted(find, b[q..end])
    ensures find(b[i]) == b[i] == b[q..end][i - q]
  {
    assert b[q..end][i - q] == b[i];
  }
}
