/** The passes over the candidate list that come before scanning. */
module Candidates {
  import opened ObjectGraph
  import opened ObjectHeap
  import opened LinkedLists
  import opened Marking

  predicate Light(c: Color) {
    c == BLACK || c == PURPLE
  }

  ghost function Dark(color: seq<Color>): set<nat> {
    set x | x in Upto(|color|) && !Light(color[x])
  }

  ghost predicate Lit(g: Graph, color: seq<Color>, x: nat)
    requires |color| == |g| && Closed(g) && x < |g|
  {
    forall j :: 0 <= j < |g[x]| ==> Light(color[g[x][j]])
  }

  /** From `c` to `d` some objects that were not PURPLE turned BLACK, and all the
      references of those that did lead to BLACK or PURPLE objects, except for
      the ones in `open`. */
  ghost predicate Blackened(g: Graph, c: seq<Color>, d: seq<Color>, open: set<nat>) {
    && |c| == |d| == |g| && Closed(g)
    && (forall x :: 0 <= x < |g| && c[x] != d[x] ==> c[x] != PURPLE && d[x] == BLACK)
    && forall x: nat :: x < |g| && c[x] != d[x] && x !in open ==> Lit(g, d, x)
  }

  /** The first `i` references of `p` have been looked at; `st` waits. */
  ghost predicate Prescanning(g: Graph, c: seq<Color>, d: seq<Color>, p: nat, i: nat, st: seq<nat>) {
    && p < |g| && i <= |g[p]|
    && Blackened(g, c, d, {p} + Set(st))
    && (forall x :: x in st ==> x < |g| && d[x] == BLACK)
    && forall j :: 0 <= j < i ==> Light(d[g[p][j]])
  }

  ghost predicate Kept(c: seq<Color>, d: seq<Color>) {
    |c| == |d| && forall x :: 0 <= x < |c| && Light(c[x]) ==> d[x] == c[x]
  }

  lemma PrescanOne(g: Graph, c: seq<Color>, d: seq<Color>, p: nat, i: nat, st: seq<nat>)
    requires Prescanning(g, c, d, p, i, st) && i < |g[p]|
    ensures
      var x := g[p][i];
      if Light(d[x]) then Prescanning(g, c, d, p, i + 1, st)
      else x !in st && Prescanning(g, c, d[x := BLACK], p, i + 1, st + [x]) && Dark(d[x := BLACK]) < Dark(d)
  {
    var x := g[p][i];
    if !Light(d[x]) {
      assert x in Dark(d) && x !in Dark(d[x := BLACK]);
      assert Set(st + [x]) == Set(st) + {x};
    }
  }

  lemma PrescanNext(g: Graph, c: seq<Color>, d: seq<Color>, p: nat, st: seq<nat>)
    requires Prescanning(g, c, d, p, if p < |g| then |g[p]| else 0, st)
    ensures Lit(g, d, p)
    ensures if st == [] then Blackened(g, c, d, {})
            else Prescanning(g, c, d, st[|st| - 1], 0, st[..|st| - 1])
  {
    if st != [] {
      var top, rest := st[|st| - 1], st[..|st| - 1];
      assert top in st && forall x :: x in rest ==> x in st;
      assert {top} + Set(rest) == Set(st);
    }
  }

  /** One f_step of f_prescan_black. */
  method PrescanStep(h: Heap, p: nat, ghost st: seq<nat>, ghost c: seq<Color>) returns (ghost st': seq<nat>)
    requires h.Shaped() && h.Stacked(st) && p < |h.g| && Prescanning(h.g, c, h.color, p, 0, st)
    modifies h`color, h`scan, h`scanStack
    ensures h.Shaped() && h.Stacked(st') && Prescanning(h.g, c, h.color, p, |h.g[p]|, st')
    ensures Kept(old(h.color), h.color)
    ensures Dark(h.color) < Dark(old(h.color)) || (h.color == old(h.color) && st' == st)
  {
    hide Prescanning, Dark;
    st' := st;
    for i := 0 to |h.g[p]|
      invariant h.Shaped() && h.Stacked(st') && Prescanning(h.g, c, h.color, p, i, st')
      invariant Kept(old(h.color), h.color)
      invariant Dark(h.color) < Dark(old(h.color)) || (h.color == old(h.color) && st' == st)
    {
      var x := h.g[p][i];
      PrescanOne(h.g, c, h.color, p, i, st');
      if h.color[x] != BLACK && h.color[x] != PURPLE {
        h.color := h.color[x := BLACK];
        h.Push(x, st');
        st' := st' + [x];
      }
    }
  }

  /** t_object::f_prescan_black */
  method PrescanBlack(h: Heap, q: nat)
    requires h.Shaped() && h.Stacked([]) && q < |h.g|
    modifies h`color, h`scan, h`scanStack
    ensures h.Shaped() && h.Stacked([])
    ensures Blackened(h.g, old(h.color), h.color, {}) && Lit(h.g, h.color, q) && Light(h.color[q])
  {
    ghost var c, st: seq<nat> := h.color, [];
    if h.color[q] != PURPLE {
      h.color := h.color[q := BLACK];
    }
    var p: nat := q;
    while true
      invariant h.Shaped() && h.Stacked(st) && p < |h.g| && Prescanning(h.g, c, h.color, p, 0, st)
      invariant Light(h.color[q]) && (p == q || Lit(h.g, h.color, q))
      decreases Dark(h.color), |st|
    {
      st := PrescanStep(h, p, st, c);
      PrescanNext(h.g, c, h.color, p, st);
      var top := h.Pop(st);
      if top == NIL {
        break;
      }
      p := top;
      st := st[..|st| - 1];
    }
  }

  lemma BlackenedTrans(g: Graph, c: seq<Color>, d: seq<Color>, e: seq<Color>)
    requires Blackened(g, c, d, {}) && Blackened(g, d, e, {})
    ensures Blackened(g, c, e, {})
    ensures forall x: nat :: x < |g| && Lit(g, d, x) ==> Lit(g, e, x)
  {
  }

  /** The candidates and everything that was blackened lead only to BLACK and
      PURPLE objects afterwards. */
  method PrescanPass(h: Heap, ghost rs: seq<nat>)
    requires h.Shaped() && h.Stacked([]) && Listing(h.next, |h.g|, rs) && rs != []
    modifies h`color, h`scan, h`scanStack
    ensures h.Shaped() && h.Stacked([])
    ensures Blackened(h.g, old(h.color), h.color, {})
    ensures forall r :: r in rs ==> Light(h.color[r]) && Lit(h.g, h.color, r)
  {
    ghost var i := 0;
    var p: nat := h.next[|h.g|];
    while true
      invariant h.Shaped() && h.Stacked([]) && i < |rs| && p == rs[i]
      invariant Blackened(h.g, old(h.color), h.color, {})
      invariant forall j :: 0 <= j < i ==> Light(h.color[rs[j]]) && Lit(h.g, h.color, rs[j])
      decreases |rs| - i
    {
      ghost var d := h.color;
      PrescanBlack(h, p);
      BlackenedTrans(h.g, old(h.color), d, h.color);
      LeadsAt(h.next, |h.g|, rs, |h.g|, i);
      i := i + 1;
      if h.next[p] == |h.g| {
        break;
      }
      p := h.next[p];
    }
    assert i == |rs|;
  }

  /** No element is reachable from an earlier one. */
  ghost predicate Independent(g: Graph, ks: seq<nat>) {
    forall i, j :: 0 <= i < j < |ks| ==> !Reaches(g, ks[i], ks[j])
  }

  lemma Unreached(g: Graph, color: seq<Color>, cyclic: seq<nat>, count: seq<nat>, done: set<nat>, ks: seq<nat>, q: nat)
    requires Settled(g, color, cyclic, count, done) && q !in done
    requires Independent(g, ks) && forall k :: k in ks ==> k in done
    ensures Independent(g, ks + [q])
  {
    forall i | 0 <= i < |ks|
      ensures !Reaches(g, ks[i], q)
    {
      if Reaches(g, ks[i], q) {
        assert ks[i] in ks;
        SealedHolds(g, done, ks[i], q);
      }
    }
  }

  /** Of the candidates `rs`, those in `kept` and `rest` are still linked; the
      others have left the list. */
  ghost predicate Linked(n: nat, next0: seq<int>, next: seq<int>, rs: seq<nat>, kept: seq<nat>, rest: seq<nat>) {
    && |next0| == |next| == n + 1 && Listing(next, n, kept + rest)
    && Within(kept, n) && Within(rest, n)
    && (forall x :: x in kept || x in rest ==> x in rs)
    && (forall x: nat :: x < n && x !in kept && x !in rest ==> next[x] == if x in rs then NIL else next0[x])
  }

  /** The candidates in `kept` have been marked from, those in `rest` are to come,
      and the objects in `done` are GRAY. */
  ghost predicate Sifted(g: Graph, c: seq<Color>, color: seq<Color>, rs: seq<nat>, kept: seq<nat>, rest: seq<nat>,
                         done: set<nat>)
  {
    && |c| == |color| == |g| && Within(rs, |g|)
    && (forall x :: x in rs && x !in rest && c[x] == PURPLE ==> x in done)
    && (forall x: nat :: x < |g| && x !in done ==> color[x] == c[x])
    && (forall k :: k in kept ==> k in done && k < |g| && c[k] == PURPLE)
    && Independent(g, kept)
  }

  lemma KeepOne(g: Graph, c: seq<Color>, color: seq<Color>, color': seq<Color>, cyclic: seq<nat>, cyclic': seq<nat>,
                count: seq<nat>, rs: seq<nat>, kept: seq<nat>, rest: seq<nat>, done: set<nat>, done': set<nat>)
    requires Sifted(g, c, color, rs, kept, rest, done) && rest != []
    requires Settled(g, color, cyclic, count, done) && Settled(g, color', cyclic', count, done')
    requires rest[0] < |g| && color[rest[0]] == PURPLE && done + {rest[0]} <= done'
    requires forall x: nat :: x < |g| && color'[x] != color[x] ==> color'[x] == GRAY
    ensures Sifted(g, c, color', rs, kept + [rest[0]], rest[1..], done')
  {
    assert forall x :: x in rest ==> x == rest[0] || x in rest[1..];
    Unreached(g, color, cyclic, count, done, kept, rest[0]);
  }

  lemma SkipOne(g: Graph, c: seq<Color>, color: seq<Color>, rs: seq<nat>, kept: seq<nat>, rest: seq<nat>,
                done: set<nat>)
    requires Sifted(g, c, color, rs, kept, rest, done) && rest != []
    requires rest[0] < |g| && color[rest[0]] != PURPLE
    ensures Sifted(g, c, color, rs, kept, rest[1..], done)
  {
    assert forall x :: x in rest ==> x == rest[0] || x in rest[1..];
  }

  lemma Advance(n: nat, next0: seq<int>, next: seq<int>, rs: seq<nat>, kept: seq<nat>, rest: seq<nat>)
    requires Linked(n, next0, next, rs, kept, rest) && rest != [] && rest[0] < n
    ensures Linked(n, next0, next, rs, kept + [rest[0]], rest[1..])
    ensures rest[0] < |next| && next[rest[0]] == (if |rest| > 1 then rest[1] else n)
    ensures |rest| > 1 ==> rest[1] < n
  {
    assert kept + [rest[0]] + rest[1..] == kept + rest;
    assert forall x :: x in rest <==> x == rest[0] || x in rest[1..];
    LeadsAt(next, n, kept + rest, n, |kept|);
  }

  ghost function Unlinked(next: seq<int>, p: nat, q: nat): seq<int>
    requires p < |next| && q < |next|
  {
    next[p := next[q]][q := NIL]
  }

  lemma Drop(n: nat, next0: seq<int>, next: seq<int>, rs: seq<nat>, kept: seq<nat>, rest: seq<nat>)
    requires Linked(n, next0, next, rs, kept, rest) && rest != []
    ensures
      var p, q := Last(n, kept), rest[0];
      && p <= n && q < n && p != q
      && (|rest| > 1 ==> rest[1] < n)
      && next[q] == (if |rest| > 1 then rest[1] else n)
      && Linked(n, next0, Unlinked(next, p, q), rs, kept, rest[1..])
  {
    var p, q, ys := Last(n, kept), rest[0], rest[1..];
    assert kept + [q] + ys == kept + rest;
    LeadsAt(next, n, kept + rest, n, |kept|);
    LeadsUnlink(next, n, kept, q, ys, n, NIL);
    DistinctParts(kept, q, ys);
    assert q in rest && (p == n || p in kept);
    assert forall x :: x in rest <==> x == q || x in ys;
  }

  lemma DistinctParts(xs: seq<nat>, q: nat, ys: seq<nat>)
    requires Distinct(xs + [q] + ys)
    ensures Distinct(xs + ys) && q !in xs && q !in ys
  {
    var all := xs + [q] + ys;
    assert forall i :: 0 <= i < |xs| ==> all[i] == xs[i];
    assert forall i :: 0 <= i < |ys| ==> all[|xs| + 1 + i] == ys[i];
    assert all[|xs|] == q;
    forall i, j | 0 <= i < j < |xs + ys|
      ensures (xs + ys)[i] != (xs + ys)[j]
    {
      var i', j' := if i < |xs| then i else i + 1, if j < |xs| then j else j + 1;
      assert all[i'] == (xs + ys)[i] && all[j'] == (xs + ys)[j];
    }
  }

  /** The candidates in `kept` have been handled; those in `rest` are to come. */
  ghost predicate Passing(h: Heap, next0: seq<int>, c: seq<Color>, rs: seq<nat>, kept: seq<nat>, rest: seq<nat>,
                          done: set<nat>)
    reads h
  {
    && h.Shaped() && h.Stacked([]) && Within(rest, |h.g|)
    && Linked(|h.g|, next0, h.next, rs, kept, rest)
    && Sifted(h.g, c, h.color, rs, kept, rest, done)
    && Settled(h.g, h.color, h.cyclic, h.count, done) && Rooted(h.g, h.color, Set(kept))
  }

  ghost function After(n: nat, rest: seq<nat>): int {
    if |rest| > 1 then rest[1] else n
  }

  /** Marks from the candidate `q` and keeps it. */
  method Keep(h: Heap, q: nat, ghost next0: seq<int>, ghost c: seq<Color>, ghost rs: seq<nat>, ghost kept: seq<nat>,
              ghost rest: seq<nat>, ghost done: set<nat>)
      returns (ghost done': set<nat>)
    requires Passing(h, next0, c, rs, kept, rest, done) && rest != [] && q == rest[0]
    requires q < |h.color| && h.color[q] == PURPLE
    modifies h`color, h`cyclic, h`scan, h`scanStack
    ensures h.Shaped() && Passing(h, next0, c, rs, kept + [q], rest[1..], done')
    ensures h.next[q] == After(|h.g|, rest) && (|rest| > 1 ==> rest[1] < |h.g|)
  {
    hide Linked, Sifted, Settled, Rooted, Covered;
    ghost var color, cyclic := h.color, h.cyclic;
    RootedMore(h.g, h.color, kept, q);
    done' := MarkGray(h, q, done, Set(kept + [q]));
    KeepOne(h.g, c, color, h.color, cyclic, h.cyclic, h.count, rs, kept, rest, done, done');
    Advance(|h.g|, next0, h.next, rs, kept, rest);
  }

  /** Takes the candidate `q`, linked from `p`, off the list. */
  method Skip(h: Heap, p: nat, q: nat, ghost next0: seq<int>, ghost c: seq<Color>, ghost rs: seq<nat>,
              ghost kept: seq<nat>, ghost rest: seq<nat>, ghost done: set<nat>)
    requires Passing(h, next0, c, rs, kept, rest, done) && rest != [] && q == rest[0] && p == Last(|h.g|, kept)
    requires q < |h.color| && h.color[q] != PURPLE
    modifies h`next
    ensures h.Shaped() && Passing(h, next0, c, rs, kept, rest[1..], done)
    ensures p <= |h.g| && h.next[p] == After(|h.g|, rest) && (|rest| > 1 ==> rest[1] < |h.g|)
  {
    hide Linked, Sifted, Settled, Rooted, Covered;
    SkipOne(h.g, c, h.color, rs, kept, rest, done);
    Drop(|h.g|, next0, h.next, rs, kept, rest);
    h.next := h.next[p := h.next[q]];
    h.next := h.next[q := NIL];
  }

  /** Marks from every candidate that is still PURPLE when its turn comes, and
      drops the others from the list. */
  method MarkPass(h: Heap, ghost rs: seq<nat>) returns (ghost kept: seq<nat>, ghost done: set<nat>)
    requires h.Shaped() && h.Stacked([]) && Listing(h.next, |h.g|, rs) && rs != [] && Covered(h.g, h.count)
    requires forall x :: 0 <= x < |h.g| ==> h.color[x] != GRAY
    requires forall r :: r in rs ==> h.count[r] > 0
    modifies h`color, h`cyclic, h`scan, h`scanStack, h`next
    ensures Passing(h, old(h.next), old(h.color), rs, kept, [], done)
  {
    ghost var next0, c := h.next, h.color;
    ghost var rest: seq<nat> := rs;
    kept, done := [], {};
    var p: nat := |h.g|;
    var q: nat := h.next[p];
    assert kept + rest == rs;
    assert Passing(h, next0, c, rs, kept, rest, done);
    hide Passing;
    while true
      invariant Passing(h, next0, c, rs, kept, rest, done) && h.Shaped()
      invariant rest != [] && q == rest[0] < |h.g| && p == Last(|h.g|, kept)
      decreases |rest|
    {
      if h.color[q] == PURPLE {
        done := Keep(h, q, next0, c, rs, kept, rest, done);
        p := q;
        kept := kept + [q];
      } else {
        Skip(h, p, q, next0, c, rs, kept, rest, done);
      }
      assert h.next[p] == After(|h.g|, rest);
      q := h.next[p];
      rest := rest[1..];
      if q == |h.g| {
        assert rest == [];
        break;
      }
    }
  }

  lemma RootedMore(g: Graph, color: seq<Color>, ks: seq<nat>, q: nat)
    requires |color| == |g| && Rooted(g, color, Set(ks))
    ensures Rooted(g, color, Set(ks + [q]))
  {
    forall x | 0 <= x < |g| && color[x] == GRAY
      ensures exists r :: r in Set(ks + [q]) && Reaches(g, r, x)
    {
      var r :| r in Set(ks) && Reaches(g, r, x);
      assert r in Set(ks + [q]);
    }
  }
}
