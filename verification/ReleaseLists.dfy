/** The list an object is on, told from its links: candidates have both, members
    of waiting cycles only `next`, and the others none. */
module ReleaseLists {
  import opened ObjectGraph
  import opened ObjectHeap
  import opened LinkedLists
  import opened Candidates

  /** `cs` are the candidates, `held` the members of waiting cycles and of the one
      being freed, `garb` the objects set aside as garbage. */
  ghost predicate Lists(n: nat, next: seq<int>, previous: seq<int>, typed: seq<bool>, freed: set<nat>,
                        cs: seq<nat>, held: set<nat>, garb: set<nat>)
  {
    && |next| == |previous| == n + 1 && |typed| == n
    && DList(n, next, previous, cs)
    && Roles(n, next, previous, typed, freed, cs, held, garb)
  }

  ghost predicate DList(n: nat, next: seq<int>, previous: seq<int>, cs: seq<nat>) {
    && |next| == |previous| == n + 1
    && Doubly(next, previous, n, cs, n) && Distinct(cs) && Within(cs, n)
  }

  ghost predicate Roles(n: nat, next: seq<int>, previous: seq<int>, typed: seq<bool>, freed: set<nat>,
                        cs: seq<nat>, held: set<nat>, garb: set<nat>)
    requires |next| == |previous| == n + 1 && |typed| == n
  {
    && (forall x :: x in cs ==> x < n && typed[x] && x !in held && x !in garb)
    && (forall x :: x in held ==> x < n && next[x] != NIL && previous[x] == NIL && x !in freed && x !in garb)
    && (forall x :: x in garb ==> x < n && typed[x])
    && (forall x: nat :: x < n && typed[x] && x !in cs && x !in held && x !in garb ==> next[x] == NIL)
    && (forall x: nat :: x < n && !typed[x] ==> x in freed || x in held)
    && (forall x :: x in freed ==> x < n && !typed[x])
  }

  /** The links of the objects in `s` stay as they are. */
  ghost predicate Untouched(s: set<nat>, next: seq<int>, next': seq<int>, previous: seq<int>, previous': seq<int>) {
    && |next| == |next'| == |previous| == |previous'|
    && forall x :: x in s && x < |next| ==> next'[x] == next[x] && previous'[x] == previous[x]
  }

  lemma CandidateLinks(n: nat, next: seq<int>, previous: seq<int>, cs: seq<nat>, x: nat)
    requires Doubly(next, previous, n, cs, n) && x in cs
    ensures x < |next| && x < |previous| && next[x] >= 0 && previous[x] >= 0
  {
    var i :| 0 <= i < |cs| && cs[i] == x;
    assert cs == cs[..i] + [x] + cs[i + 1..];
    DoublySplit(next, previous, n, cs[..i], x, cs[i + 1..], n);
    DoublyLeads(next, previous, n, cs[..i], x);
    DoublyLeads(next, previous, x, cs[i + 1..], n);
  }

  lemma AppendList(n: nat, next: seq<int>, previous: seq<int>, typed: seq<bool>, freed: set<nat>,
                   cs: seq<nat>, held: set<nat>, garb: set<nat>, x: nat)
    requires Lists(n, next, previous, typed, freed, cs, held, garb) && x < n && typed[x] && next[x] == NIL && x !in garb
    ensures 0 <= previous[n] <= n
    ensures
      var l := previous[n];
      var next', previous' := next[x := n][l := x], previous[x := l][n := x];
      && Lists(n, next', previous', typed, freed, cs + [x], held, garb)
      && Untouched(held + garb, next, next', previous, previous')
  {
    hide Doubly, Distinct, Within, Roles;
    if x in cs {
      CandidateLinks(n, next, previous, cs, x);
    }
    AppendDList(n, next, previous, cs, x);
    AppendRoles(n, next, previous, typed, freed, cs, held, garb, x);
  }

  lemma AppendDList(n: nat, next: seq<int>, previous: seq<int>, cs: seq<nat>, x: nat)
    requires DList(n, next, previous, cs) && x < n && x !in cs
    ensures previous[n] == Last(n, cs) <= n
    ensures
      var l := previous[n];
      DList(n, next[x := n][l := x], previous[x := l][n := x], cs + [x])
  {
    DoublyLeads(next, previous, n, cs, n);
    var l := previous[n];
    var next1, previous1 := next[x := n], previous[x := l];
    DoublyFrame(next, next1, previous, previous1, n, cs, n);
    AppendDoubly(next1, previous1, n, cs, n, x);
  }

  lemma AppendRoles(n: nat, next: seq<int>, previous: seq<int>, typed: seq<bool>, freed: set<nat>,
                    cs: seq<nat>, held: set<nat>, garb: set<nat>, x: nat)
    requires |next| == |previous| == n + 1 && |typed| == n && Roles(n, next, previous, typed, freed, cs, held, garb)
    requires x < n && typed[x] && next[x] == NIL && x !in garb && Last(n, cs) <= n
    ensures
      var l := Last(n, cs);
      var next', previous' := next[x := n][l := x], previous[x := l][n := x];
      && Roles(n, next', previous', typed, freed, cs + [x], held, garb)
      && Untouched(held + garb, next, next', previous, previous')
  {
    var l := Last(n, cs);
    assert l == n || l in cs;
  }

  lemma {:induction false} AppendDoubly(next: seq<int>, previous: seq<int>, a: nat, xs: seq<nat>, b: nat, x: nat)
    requires Doubly(next, previous, a, xs, b) && x < |next| && x < |previous| && next[x] == b && previous[x] == Last(a, xs)
    requires Distinct(xs) && a !in xs && b !in xs && x !in xs && x != a && x != b
    ensures Last(a, xs) < |next| && Doubly(next[Last(a, xs) := x], previous[b := x], a, xs + [x], b)
    decreases xs
  {
    if xs == [] {
      assert xs + [x] == [x] && [x][1..] == [];
    } else {
      assert (xs + [x])[1..] == xs[1..] + [x];
      assert forall i :: 0 <= i < |xs[1..]| ==> xs[1..][i] == xs[i + 1];
      AppendDoubly(next, previous, xs[0], xs[1..], b, x);
      assert Last(xs[0], xs[1..]) == Last(a, xs) && Last(a, xs) in xs && xs[0] in xs;
    }
  }

  /** A released object that no list holds is freed. */
  lemma RetireLoose(n: nat, next: seq<int>, previous: seq<int>, typed: seq<bool>, freed: set<nat>,
                    cs: seq<nat>, held: set<nat>, garb: set<nat>, q: nat)
    requires Lists(n, next, previous, typed, freed, cs, held, garb) && q < n && typed[q] && next[q] == NIL && q !in garb
    ensures Lists(n, next, previous, typed[q := false], freed + {q}, cs, held, garb) && q !in cs
  {
    if q in cs {
      CandidateLinks(n, next, previous, cs, q);
    }
  }

  /** A released member of a cycle stays where it is. */
  lemma RetireHeld(n: nat, next: seq<int>, previous: seq<int>, typed: seq<bool>, freed: set<nat>,
                   cs: seq<nat>, held: set<nat>, garb: set<nat>, q: nat)
    requires Lists(n, next, previous, typed, freed, cs, held, garb) && q < n && typed[q] && q !in garb
    requires next[q] != NIL && previous[q] == NIL
    ensures Lists(n, next, previous, typed[q := false], freed, cs, held, garb) && q !in cs
  {
    if q in cs {
      CandidateLinks(n, next, previous, cs, q);
    }
  }

  ghost function Without(cs: seq<nat>, q: nat): seq<nat> {
    if cs == [] then [] else if cs[0] == q then cs[1..] else [cs[0]] + Without(cs[1..], q)
  }

  lemma {:induction false} WithoutAt(xs: seq<nat>, q: nat, ys: seq<nat>)
    requires q !in xs
    ensures Without(xs + [q] + ys, q) == xs + ys
    decreases xs
  {
    var all := xs + [q] + ys;
    if xs == [] {
      assert all[1..] == ys;
    } else {
      assert all[1..] == xs[1..] + [q] + ys;
      WithoutAt(xs[1..], q, ys);
    }
  }

  /** A released candidate is unlinked and freed. */
  lemma RetireCandidate(n: nat, next: seq<int>, previous: seq<int>, typed: seq<bool>, freed: set<nat>,
                        cs: seq<nat>, held: set<nat>, garb: set<nat>, q: nat)
    requires Lists(n, next, previous, typed, freed, cs, held, garb) && q < n && typed[q] && q !in garb
    requires next[q] != NIL && previous[q] != NIL
    ensures 0 <= next[q] <= n && 0 <= previous[q] <= n
    ensures
      var previous' := previous[next[q] := previous[q]];
      var next' := next[previous[q] := next[q]];
      && Lists(n, next', previous', typed[q := false], freed + {q}, Without(cs, q), held, garb)
      && Untouched(held + garb, next, next', previous, previous')
    ensures forall x :: x in Without(cs, q) ==> x in cs && x != q
  {
    hide Doubly, Distinct, Within, Roles, Untouched;
    CandidateListed(n, next, previous, typed, freed, cs, held, garb, q);
    UnlinkDList(n, next, previous, cs, q);
    UnlinkRoles(n, next, previous, typed, freed, cs, held, garb, q);
  }

  lemma CandidateListed(n: nat, next: seq<int>, previous: seq<int>, typed: seq<bool>, freed: set<nat>,
                        cs: seq<nat>, held: set<nat>, garb: set<nat>, q: nat)
    requires Lists(n, next, previous, typed, freed, cs, held, garb) && q < n && typed[q] && q !in garb
    requires next[q] != NIL && previous[q] != NIL
    ensures q in cs
  {
  }

  ghost predicate Neighbour(n: nat, cs: seq<nat>, l: int) {
    0 <= l <= n && (l == n || l in cs)
  }

  lemma UnlinkDList(n: nat, next: seq<int>, previous: seq<int>, cs: seq<nat>, q: nat)
    requires DList(n, next, previous, cs) && q in cs && q < n
    ensures Neighbour(n, cs, next[q]) && Neighbour(n, cs, previous[q])
    ensures DList(n, next[previous[q] := next[q]], previous[next[q] := previous[q]], Without(cs, q))
    ensures forall x :: x in cs <==> x == q || x in Without(cs, q)
    ensures q !in Without(cs, q)
  {
    var i :| 0 <= i < |cs| && cs[i] == q;
    var xs, ys := cs[..i], cs[i + 1..];
    assert cs == xs + [q] + ys;
    DoublySplit(next, previous, n, xs, q, ys, n);
    DoublyLeads(next, previous, n, xs, q);
    DoublyLeads(next, previous, q, ys, n);
    DistinctParts(xs, q, ys);
    WithoutAt(xs, q, ys);
    assert forall x :: x in xs + ys ==> x in cs;
    DoublyJoin(next, previous, n, xs, q, q, ys, n);
  }

  lemma UnlinkRoles(n: nat, next: seq<int>, previous: seq<int>, typed: seq<bool>, freed: set<nat>,
                    cs: seq<nat>, held: set<nat>, garb: set<nat>, q: nat)
    requires |next| == |previous| == n + 1 && |typed| == n && Roles(n, next, previous, typed, freed, cs, held, garb)
    requires q in cs && q < n && Neighbour(n, cs, next[q]) && Neighbour(n, cs, previous[q])
    requires forall x :: x in cs <==> x == q || x in Without(cs, q)
    requires q !in Without(cs, q)
    ensures
      var previous' := previous[next[q] := previous[q]];
      var next' := next[previous[q] := next[q]];
      && Roles(n, next', previous', typed[q := false], freed + {q}, Without(cs, q), held, garb)
      && Untouched(held + garb, next, next', previous, previous')
  {
  }
}
