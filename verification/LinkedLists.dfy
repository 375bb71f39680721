/** Lists threaded through a `next` field. */
module LinkedLists {

  ghost predicate Distinct(xs: seq<nat>) {
    forall i, j :: 0 <= i < j < |xs| ==> xs[i] != xs[j]
  }

  /** Following `next` from `a` visits `xs` in order and then comes to `b`. */
  ghost predicate Leads(next: seq<int>, a: nat, xs: seq<nat>, b: int)
    decreases xs
  {
    && a < |next|
    && if xs == [] then next[a] == b else next[a] == xs[0] && Leads(next, xs[0], xs[1..], b)
  }

  ghost function Last(a: nat, xs: seq<nat>): nat {
    if xs == [] then a else xs[|xs| - 1]
  }

  lemma {:induction false} LeadsFrame(next: seq<int>, a: nat, xs: seq<nat>, b: int, x: nat, v: int)
    requires Leads(next, a, xs, b) && x != a && x !in xs && x < |next|
    ensures Leads(next[x := v], a, xs, b)
    decreases xs
  {
    if xs != [] {
      LeadsFrame(next, xs[0], xs[1..], b, x, v);
    }
  }

  lemma {:induction false} LeadsSplit(next: seq<int>, a: nat, xs: seq<nat>, y: nat, ys: seq<nat>, b: int)
    ensures Leads(next, a, xs + [y] + ys, b) <==> Leads(next, a, xs, y) && Leads(next, y, ys, b)
    decreases xs
  {
    var all := xs + [y] + ys;
    if xs == [] {
      assert all[1..] == ys;
    } else {
      LeadsSplit(next, xs[0], xs[1..], y, ys, b);
      assert all[1..] == xs[1..] + [y] + ys;
    }
  }

  /** Redirecting the last link. */
  lemma {:induction false} LeadsRedirect(next: seq<int>, a: nat, xs: seq<nat>, b: int, c: int)
    requires Leads(next, a, xs, b) && a !in xs && Distinct(xs)
    ensures Last(a, xs) < |next| && Leads(next[Last(a, xs) := c], a, xs, c)
    decreases xs
  {
    if xs != [] {
      LeadsRedirect(next, xs[0], xs[1..], b, c);
      assert Last(xs[0], xs[1..]) == Last(a, xs);
      assert Last(a, xs) in xs;
    }
  }

  lemma {:induction false} LeadsBound(next: seq<int>, a: nat, xs: seq<nat>, b: int)
    requires Leads(next, a, xs, b)
    ensures forall x :: x in xs ==> x < |next|
    decreases xs
  {
    if xs != [] {
      LeadsBound(next, xs[0], xs[1..], b);
      assert forall x :: x in xs ==> x == xs[0] || x in xs[1..];
    }
  }

  /** An element of the list other than the last leads to its successor. */
  lemma {:induction false} LeadsAt(next: seq<int>, a: nat, xs: seq<nat>, b: int, i: nat)
    requires Leads(next, a, xs, b) && i < |xs|
    ensures xs[i] < |next| && next[xs[i]] == if i + 1 < |xs| then xs[i + 1] else b
    ensures Leads(next, xs[i], xs[i + 1..], b)
    decreases xs
  {
    if i > 0 {
      LeadsAt(next, xs[0], xs[1..], b, i - 1);
      assert xs[1..][i..] == xs[i + 1..];
    }
  }

  /** Unlinking an element. */
  lemma {:induction false} LeadsUnlink(next: seq<int>, a: nat, xs: seq<nat>, q: nat, ys: seq<nat>, b: int, v: int)
    requires Leads(next, a, xs + [q] + ys, b) && a !in xs + [q] + ys && Distinct(xs + [q] + ys)
    ensures q < |next| && Last(a, xs) < |next| && Last(a, xs) != q
    ensures Leads(next[Last(a, xs) := next[q]][q := v], a, xs + ys, b)
    decreases xs
  {
    var all := xs + [q] + ys;
    LeadsBound(next, a, all, b);
    if xs == [] {
      assert all[0] == q && all[1..] == ys && xs + ys == ys;
      assert Leads(next, q, ys, b);
      Rehead(next, q, a, ys, b);
      LeadsFrame(next[a := next[q]], a, ys, b, q, v);
    } else {
      assert all[1..] == xs[1..] + [q] + ys;
      LeadsUnlink(next, xs[0], xs[1..], q, ys, b, v);
      assert Last(xs[0], xs[1..]) == Last(a, xs) && Last(a, xs) in xs;
      assert (xs + ys)[1..] == xs[1..] + ys;
    }
  }

  lemma Rehead(next: seq<int>, q: nat, a: nat, ys: seq<nat>, b: int)
    requires Leads(next, q, ys, b) && a !in ys && a < |next| && q < |next|
    ensures Leads(next[a := next[q]], a, ys, b)
  {
    if ys != [] {
      LeadsFrame(next, ys[0], ys[1..], b, a, next[q]);
    }
  }

  ghost predicate Within(xs: seq<nat>, n: nat) {
    forall i :: 0 <= i < |xs| ==> xs[i] < n
  }

  /** `xs` is the circular list that starts and ends at the list head `a`. */
  ghost predicate Listing(next: seq<int>, a: nat, xs: seq<nat>) {
    Leads(next, a, xs, a) && Distinct(xs) && Within(xs, a)
  }

  // ----- Lists linked both ways -----

  /** Following `next` from `a` visits `xs` and comes to `b`; `previous` leads back. */
  ghost predicate Doubly(next: seq<int>, previous: seq<int>, a: nat, xs: seq<nat>, b: nat)
    decreases xs
  {
    && a < |next| && b < |previous|
    && if xs == [] then next[a] == b && previous[b] == a
       else next[a] == xs[0] && xs[0] < |previous| && previous[xs[0]] == a && Doubly(next, previous, xs[0], xs[1..], b)
  }

  ghost function First(xs: seq<nat>, b: nat): nat {
    if xs == [] then b else xs[0]
  }

  lemma {:induction false} DoublyLeads(next: seq<int>, previous: seq<int>, a: nat, xs: seq<nat>, b: nat)
    requires Doubly(next, previous, a, xs, b)
    ensures Leads(next, a, xs, b) && next[a] == First(xs, b) && previous[b] == Last(a, xs)
    decreases xs
  {
    if xs != [] {
      DoublyLeads(next, previous, xs[0], xs[1..], b);
    }
  }

  lemma {:induction false} DoublyFrame(next: seq<int>, next': seq<int>, previous: seq<int>, previous': seq<int>,
                                       a: nat, xs: seq<nat>, b: nat)
    requires Doubly(next, previous, a, xs, b) && |next'| == |next| && |previous'| == |previous|
    requires forall x: nat :: x < |next| && (x == a || x in xs) ==> next'[x] == next[x]
    requires forall x: nat :: x < |previous| && (x == b || x in xs) ==> previous'[x] == previous[x]
    ensures Doubly(next', previous', a, xs, b)
    decreases xs
  {
    if xs != [] {
      DoublyFrame(next, next', previous, previous', xs[0], xs[1..], b);
    }
  }

  lemma {:induction false} DoublySplit(next: seq<int>, previous: seq<int>, a: nat, xs: seq<nat>, y: nat, ys: seq<nat>,
                                       b: nat)
    ensures Doubly(next, previous, a, xs + [y] + ys, b) <==>
            Doubly(next, previous, a, xs, y) && Doubly(next, previous, y, ys, b)
    decreases xs
  {
    var all := xs + [y] + ys;
    if xs == [] {
      assert all[1..] == ys;
    } else {
      DoublySplit(next, previous, xs[0], xs[1..], y, ys, b);
      assert all[1..] == xs[1..] + [y] + ys;
    }
  }

  /** Two lists joined end to end. */
  lemma {:induction false} DoublyJoin(next: seq<int>, previous: seq<int>, a: nat, xs: seq<nat>, y: nat, z: nat,
                                      ys: seq<nat>, b: nat)
    requires Doubly(next, previous, a, xs, y) && Doubly(next, previous, z, ys, b)
    requires Distinct(xs + ys) && a !in xs + ys && b !in xs + ys && y !in xs + ys && z !in xs + ys
    ensures Last(a, xs) < |next| && First(ys, b) < |previous|
    ensures Doubly(next[Last(a, xs) := First(ys, b)], previous[First(ys, b) := Last(a, xs)], a, xs + ys, b)
    decreases xs
  {
    var l, f := Last(a, xs), First(ys, b);
    DoublyLeads(next, previous, a, xs, y);
    if xs == [] {
      assert xs + ys == ys;
      if ys != [] {
        DoublyFrame(next, next[l := f], previous, previous[f := l], ys[0], ys[1..], b);
      }
    } else {
      assert (xs + ys)[1..] == xs[1..] + ys && (xs + ys)[0] == xs[0];
      assert forall x :: x in xs[1..] + ys ==> x in xs + ys;
      assert forall i :: 0 <= i < |xs[1..] + ys| ==> (xs[1..] + ys)[i] == (xs + ys)[i + 1];
      DoublyJoin(next, previous, xs[0], xs[1..], y, z, ys, b);
      assert Last(xs[0], xs[1..]) == l && l in xs;
      assert xs[0] in xs && f != xs[0];
    }
  }
}
