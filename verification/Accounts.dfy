/** Counts while objects are released: what a count stands for at every moment,
    and what is known about the members of cycles that still wait for their test. */
module Accounts {
  import opened ObjectGraph
  import opened ObjectHeap

  ghost function Typed(typed: seq<bool>): set<nat> {
    set x | x in Upto(|typed|) && typed[x]
  }

  /** The state of all objects. `elsewhere` counts the references that no object
      holds, `home` gives the cycle an ORANGE object was found in, `reds` is the
      cycle that is being freed, and `base` the references from it that have been
      dropped so far. */
  datatype Books = Books(
    g: Graph, elsewhere: seq<nat>, home: seq<set<nat>>,
    typed: seq<bool>, color: seq<Color>, count: seq<nat>, cyclic: seq<nat>,
    base: seq<nat>, reds: set<nat>)
  {
    ghost predicate Sized() {
      && Closed(g)
      && |elsewhere| == |home| == |typed| == |color| == |count| == |cyclic| == |base| == |g|
      && reds <= Typed(typed)
    }

    ghost function Holders(): set<nat> {
      Typed(typed)
    }

    /** The objects whose references are counted and that stay so. */
    ghost function Others(): set<nat> {
      Typed(typed) - reds
    }

    /** RED objects are the ones being freed: only they refer to themselves. */
    ghost predicate Isolated()
      requires Sized()
    {
      && (forall x :: x in Holders() ==> (color[x] == RED <==> x in reds))
      && (forall x :: x in reds ==> elsewhere[x] == 0)
      && forall y, j :: y in Others() && 0 <= j < |g[y]| ==> g[y][j] !in reds
    }

    /** Nothing that lives refers to a released object; what a RED object still
        refers to has not been released. */
    ghost predicate Severed()
      requires Sized()
    {
      && (forall x: nat :: x < |g| && !typed[x] ==> elsewhere[x] == 0)
      && (forall x: nat :: x < |g| && !typed[x] && color[x] != RED ==> In(g, reds, x) <= base[x])
      && forall y, j :: y in Others() && 0 <= j < |g[y]| ==> typed[g[y][j]]
    }

    /** Counts are exact, up to the dropped references of the RED objects and the
        first `j` of `q`. */
    ghost predicate Balanced(q: nat, j: nat)
      requires Sized() && q < |g| && j <= |g[q]|
    {
      && (forall x :: x in Others() ==> count[x] + base[x] + Times(g[q][..j], x) == elsewhere[x] + In(g, Holders(), x))
      && forall x :: 0 <= x < |g| ==> base[x] <= In(g, reds, x)
    }

    /** A member of a waiting cycle that is still ORANGE: its cyclic count is its
        number of references from outside that cycle. */
    ghost predicate Waiting(exempt: set<nat>)
      requires Sized()
    {
      forall x :: x in Holders() && color[x] == ORANGE && x !in exempt ==>
        home[x] !! reds && cyclic[x] + In(g, home[x] * Holders(), x) == count[x]
    }
  }

  /** `q` is being released and `st` waits: all of them have count zero. */
  ghost predicate Spent(b: Books, q: nat, st: seq<nat>)
    requires b.Sized()
  {
    && q in b.Others() && q !in st && b.count[q] == 0
    && forall x :: x in st ==> x in b.Others() && b.count[x] == 0
  }

  /** The first `j` references of `q` have been dropped. */
  ghost predicate Dropping(b: Books, q: nat, j: nat, st: seq<nat>) {
    && b.Sized() && q < |b.g| && j <= |b.g[q]|
    && b.Isolated() && b.Severed() && b.Balanced(q, j) && Spent(b, q, st)
    && b.Waiting({q} + Set(st))
    && forall i :: 0 <= i < j ==> b.g[q][i] != q && (b.color[b.g[q][i]] != ORANGE || b.g[q][i] in st)
  }

  /** There is a reference to drop: the object it goes to is alive and counted. */
  lemma Counted(b: Books, q: nat, j: nat, st: seq<nat>)
    requires Dropping(b, q, j, st) && j < |b.g[q]|
    ensures var x := b.g[q][j]; x in b.Others() && b.count[x] > 0 && x != q && x !in st
  {
    var x := b.g[q][j];
    TimesPrefix(b.g[q], j);
    var rest := b.Others();
    assert b.Holders() == b.reds + rest;
    InUnion(b.g, b.reds, rest, x);
    InAdd(b.g, {}, q, x);
    InMonotonic(b.g, {} + {q}, rest, x);
  }

  /** t_object::f_decrement_push on the books. */
  ghost function Decremented(b: Books, x: nat): Books
    requires b.Sized() && x < |b.g| && b.count[x] > 0
  {
    b.(count := b.count[x := b.count[x] - 1],
       color := if b.count[x] > 1 then b.color[x := PURPLE] else b.color)
  }

  lemma DropOne(b: Books, q: nat, j: nat, st: seq<nat>)
    requires Dropping(b, q, j, st) && j < |b.g[q]|
    ensures
      var x := b.g[q][j];
      && b.Sized() && x in b.Others() && b.count[x] > 0 && x !in st && b.color[x] != RED
      && Dropping(Decremented(b, x), q, j + 1, if b.count[x] > 1 then st else st + [x])
  {
    var x := b.g[q][j];
    Counted(b, q, j, st);
    var b' := Decremented(b, x);
    var st' := if b.count[x] > 1 then st else st + [x];
    DropBalanced(b, q, j, x);
    assert b'.Isolated() && b'.Severed() && Spent(b', q, st');
    assert b'.Waiting({q} + Set(st')) by {
      forall y | y in b'.Holders() && b'.color[y] == ORANGE && y !in {q} + Set(st')
        ensures y in b.Holders() && b.color[y] == ORANGE && y != x && y !in {q} + Set(st)
      {
      }
    }
  }

  lemma DropBalanced(b: Books, q: nat, j: nat, x: nat)
    requires b.Sized() && q < |b.g| && j < |b.g[q]| && b.Balanced(q, j) && x == b.g[q][j] && b.count[x] > 0
    ensures Decremented(b, x).Balanced(q, j + 1)
  {
    TimesPrefix(b.g[q], j);
  }

  ghost function Retired(b: Books, q: nat): Books
    requires b.Sized() && q < |b.g|
  {
    b.(typed := b.typed[q := false], reds := b.reds - {q})
  }

  lemma RetiredHolders(b: Books, q: nat)
    requires b.Sized() && q in b.Holders()
    ensures Retired(b, q).Sized() && Retired(b, q).Holders() == b.Holders() - {q}
    ensures Retired(b, q).Others() == b.Others() - {q}
    ensures forall x: nat :: In(b.g, b.Holders(), x) == In(b.g, b.Holders() - {q}, x) + Times(b.g[q], x)
  {
    assert Retired(b, q).Holders() == b.Holders() - {q};
    assert b.Holders() - {q} + {q} == b.Holders();
    forall x: nat
      ensures In(b.g, b.Holders(), x) == In(b.g, b.Holders() - {q}, x) + Times(b.g[q], x)
    {
      InAdd(b.g, b.Holders() - {q}, q, x);
    }
  }

  /** A released object had no referrer left but RED ones. */
  lemma Unreferred(b: Books, q: nat, st: seq<nat>)
    requires Dropping(b, q, if q < |b.g| then |b.g[q]| else 0, st)
    ensures b.elsewhere[q] == 0 && In(b.g, b.reds, q) <= b.base[q]
    ensures forall y, i :: y in b.Others() && 0 <= i < |b.g[y]| ==> b.g[y][i] != q
  {
    var n := |b.g[q]|;
    assert b.Holders() == b.reds + b.Others();
    InUnion(b.g, b.reds, b.Others(), q);
    assert b.g[q][..n] == b.g[q];
    assert Times(b.g[q], q) == 0;
    InPositive(b.g, b.Others(), q);
    forall y, i | y in b.Others() && 0 <= i < |b.g[y]|
      ensures b.g[y][i] != q
    {
      assert b.g[y][i] in b.g[y];
    }
  }

  /** The references of a spent object are gone; the next one is taken up. */
  lemma DropDone(b: Books, q: nat, st: seq<nat>)
    requires Dropping(b, q, if q < |b.g| then |b.g[q]| else 0, st)
    requires st != [] ==> st[|st| - 1] !in st[..|st| - 1]
    ensures
      var b' := Retired(b, q);
      if st == [] then Still(b')
      else Dropping(b', st[|st| - 1], 0, st[..|st| - 1])
    ensures Retired(b, q).Holders() == b.Holders() - {q} && Retired(b, q).reds == b.reds
  {
    var b' := Retired(b, q);
    RetiredHolders(b, q);
    assert b.reds - {q} == b.reds;
    Unreferred(b, q, st);
    DropWaiting(b, q, st);
    assert b.g[q][..|b.g[q]|] == b.g[q];
    assert b'.Isolated() && b'.Severed();
    if st == [] {
      assert forall p: nat :: p < |b.g| ==> b'.Balanced(p, 0);
    } else {
      var top, rest := st[|st| - 1], st[..|st| - 1];
      assert top in st && forall x :: x in rest ==> x in st;
      assert {top} + Set(rest) == Set(st);
      assert b'.Balanced(top, 0);
    }
  }

  lemma DropWaiting(b: Books, q: nat, st: seq<nat>)
    requires Dropping(b, q, if q < |b.g| then |b.g[q]| else 0, st)
    ensures Retired(b, q).Sized() && Retired(b, q).Waiting(Set(st))
  {
    var b' := Retired(b, q);
    RetiredHolders(b, q);
    forall x | x in b'.Holders() && b'.color[x] == ORANGE && x !in Set(st)
      ensures b'.home[x] !! b'.reds && b'.cyclic[x] + In(b'.g, b'.home[x] * b'.Holders(), x) == b'.count[x]
    {
      var s := b.home[x] * b.Holders();
      assert x !in b.g[q];
      if q in s {
        assert b'.home[x] * b'.Holders() == s - {q} && s - {q} + {q} == s;
        InAdd(b.g, s - {q}, q, x);
      } else {
        assert b'.home[x] * b'.Holders() == s;
      }
    }
  }

  /** Nothing is being released. */
  ghost predicate Still(b: Books) {
    && b.Sized() && b.Isolated() && b.Severed() && b.Waiting({})
    && (forall x :: x in b.Others() ==> b.count[x] + b.base[x] == b.elsewhere[x] + In(b.g, b.Holders(), x))
    && forall x :: 0 <= x < |b.g| ==> b.base[x] <= In(b.g, b.reds, x)
  }

  // ----- Freeing a cycle -----

  /** The first `i` references of the RED object `p` have been dropped; those to
      RED objects are left alone. */
  ghost predicate Shedding(b: Books, p: nat, i: nat) {
    && Still(b) && p in b.reds && i <= |b.g[p]|
    && forall x :: 0 <= x < |b.g| ==> b.base[x] == if b.color[x] == RED then 0 else Times(b.g[p][..i], x)
  }

  lemma ShedSkip(b: Books, p: nat, i: nat)
    requires Shedding(b, p, i) && i < |b.g[p]| && b.color[b.g[p][i]] == RED
    ensures Shedding(b, p, i + 1)
  {
    TimesPrefix(b.g[p], i);
  }

  /** A reference to an object that is not RED goes to one that lives and still
      counts it. */
  lemma ShedLives(b: Books, p: nat, i: nat)
    requires Shedding(b, p, i) && i < |b.g[p]| && b.color[b.g[p][i]] != RED
    ensures var x := b.g[p][i]; x in b.Others() && b.base[x] < In(b.g, b.reds, x)
  {
    var x := b.g[p][i];
    TimesPrefix(b.g[p], i);
    InAdd(b.g, {}, p, x);
    InMonotonic(b.g, {} + {p}, b.reds, x);
  }

  ghost function Shed(b: Books, x: nat): Books
    requires b.Sized() && x < |b.g| && b.count[x] > 0 && b.cyclic[x] > 0
  {
    b.(count := b.count[x := b.count[x] - 1], cyclic := b.cyclic[x := b.cyclic[x] - 1],
       base := b.base[x := b.base[x] + 1])
  }

  /** An ORANGE object loses a reference from outside its cycle. */
  lemma ShedOrange(b: Books, p: nat, i: nat)
    requires Shedding(b, p, i) && i < |b.g[p]| && b.color[b.g[p][i]] == ORANGE
    ensures var x := b.g[p][i]; b.count[x] > 0 && b.cyclic[x] > 0 && Shedding(Shed(b, x), p, i + 1)
  {
    var x := b.g[p][i];
    ShedLives(b, p, i);
    ShedCounts(b, x);
    TimesPrefix(b.g[p], i);
    var b' := Shed(b, x);
    assert b'.Holders() == b.Holders() && b'.Others() == b.Others();
    assert b'.Isolated() && b'.Severed() && b'.Waiting({});
  }

  lemma ShedCounts(b: Books, x: nat)
    requires Still(b) && x in b.Others() && b.color[x] == ORANGE && b.base[x] < In(b.g, b.reds, x)
    ensures b.count[x] > 0 && b.cyclic[x] > 0
  {
    var mates := b.home[x] * b.Holders();
    InUnion(b.g, mates, b.reds, x);
    InMonotonic(b.g, mates + b.reds, b.Holders(), x);
  }

  ghost function Zeros(n: nat): seq<nat> {
    seq(n, i => 0)
  }

  ghost function Sheded(b: Books, p: nat): Books
    requires b.Sized() && p < |b.g|
  {
    Retired(b, p).(base := Zeros(|b.g|))
  }

  /** A member of the cycle has dropped all its references. */
  lemma ShedDone(b: Books, p: nat)
    requires Shedding(b, p, if p < |b.g| then |b.g[p]| else 0)
    ensures Still(Sheded(b, p)) && Sheded(b, p).Holders() == b.Holders() - {p} && Sheded(b, p).Others() == b.Others()
  {
    RetiredHolders(b, p);
    assert b.g[p][..|b.g[p]|] == b.g[p];
    var b' := Sheded(b, p);
    assert b'.Others() == b.Others() by {
      assert b'.Holders() == b.Holders() - {p};
    }
    assert b.reds == b'.reds + {p};
    forall x: nat
      ensures In(b.g, b.reds, x) == In(b.g, b'.reds, x) + Times(b.g[p], x)
    {
      InAdd(b.g, b'.reds, p, x);
    }
    assert b'.Isolated() && b'.Severed();
    assert b'.Waiting({}) by {
      forall x | x in b'.Holders() && b'.color[x] == ORANGE
        ensures b'.home[x] !! b'.reds && b'.cyclic[x] + In(b'.g, b'.home[x] * b'.Holders(), x) == b'.count[x]
      {
        assert b'.home[x] * b'.Holders() == b.home[x] * b.Holders();
      }
    }
  }

  /** Two objects are either in the same cycle or in disjoint ones. */
  ghost predicate Homes(home: seq<set<nat>>) {
    forall y, z :: 0 <= y < |home| && z in home[y] ==> z < |home| && y in home[y] && home[z] == home[y]
  }

  /** All the living members of a cycle are ORANGE and without references from
      outside: the cycle may be freed. */
  ghost predicate Passes(b: Books, ring: set<nat>)
    requires b.Sized()
  {
    && ring <= b.Holders()
    && forall x :: x in ring ==> b.color[x] == ORANGE && b.cyclic[x] == 0 && b.home[x] * b.Holders() == ring
  }

  ghost function Reddening(b: Books, color: seq<Color>, ring: set<nat>): Books {
    b.(color := color, reds := ring)
  }

  /** A member of such a cycle is referred to by members only. */
  lemma PassesAlone(b: Books, ring: set<nat>, x: nat)
    requires Still(b) && b.reds == {} && b.base == Zeros(|b.g|) && Passes(b, ring) && x in ring
    ensures b.elsewhere[x] == 0 && In(b.g, b.Holders() - ring, x) == 0
  {
    assert b.Holders() == ring + (b.Holders() - ring);
    InUnion(b.g, ring, b.Holders() - ring, x);
    InPositive(b.g, {}, x);
    assert x in b.Others() && b.base[x] <= In(b.g, {}, x);
  }

  lemma Redden(b: Books, color: seq<Color>, ring: set<nat>)
    requires Still(b) && b.reds == {} && b.base == Zeros(|b.g|) && Passes(b, ring) && Homes(b.home)
    requires |color| == |b.color| && forall x: nat :: x < |color| ==> color[x] == if x in ring then RED else b.color[x]
    ensures Still(Reddening(b, color, ring))
  {
    var b' := Reddening(b, color, ring);
    assert b'.Holders() == b.Holders() && b'.Others() == b.Holders() - ring;
    forall y, j | y in b'.Others() && 0 <= j < |b.g[y]|
      ensures b.g[y][j] !in ring
    {
      if b.g[y][j] in ring {
        assert b.g[y][j] in b.g[y];
        PassesAlone(b, ring, b.g[y][j]);
        InPositive(b.g, b'.Others(), b.g[y][j]);
      }
    }
    assert b'.Isolated() by {
      forall x | x in ring
        ensures b.elsewhere[x] == 0
      {
        PassesAlone(b, ring, x);
      }
    }
    assert b'.Severed() by {
      forall x: nat | x < |b.g| && !b.typed[x] && color[x] != RED
        ensures In(b.g, ring, x) == 0
      {
        InPositive(b.g, ring, x);
      }
    }
    ReddenWaiting(b, color, ring);
  }

  lemma ReddenWaiting(b: Books, color: seq<Color>, ring: set<nat>)
    requires Still(b) && Passes(b, ring) && Homes(b.home)
    requires |color| == |b.color| && forall x: nat :: x < |color| ==> color[x] == if x in ring then RED else b.color[x]
    ensures Reddening(b, color, ring).Sized() && Reddening(b, color, ring).Waiting({})
  {
    var b' := Reddening(b, color, ring);
    forall x | x in b'.Holders() && color[x] == ORANGE
      ensures b.home[x] !! ring
    {
      assert forall z :: z in b.home[x] && z in ring ==> x in b.home[z] * b.Holders();
    }
  }

  /** Nothing that can be reached from a reference held elsewhere has been released. */
  lemma LiveRemain(b: Books, r: nat, x: nat)
    requires Still(b) && b.reds == {} && r < |b.g| && b.elsewhere[r] > 0 && Reaches(b.g, r, x)
    ensures x < |b.g| && b.typed[x]
  {
    forall y, z | y in b.Holders() && y < |b.g| && z in b.g[y]
      ensures z in b.Holders()
    {
      var j :| 0 <= j < |b.g[y]| && b.g[y][j] == z;
    }
    SealedHolds(b.g, b.Holders(), r, x);
  }

  // ----- A cycle that is all that is freed -----

  /** Whatever is not a member of a waiting cycle has a reference that stays. */
  ghost predicate Supported(b: Books)
    requires b.Sized()
  {
    forall x :: x in b.Others() && b.color[x] != ORANGE ==> b.elsewhere[x] + In(b.g, b.Others(), x) > 0
  }

  /** Then dropping a reference of a RED object releases nothing. */
  lemma SupportedStays(b: Books, x: nat)
    requires Still(b) && Supported(b) && x in b.Others() && b.color[x] != ORANGE && b.base[x] < In(b.g, b.reds, x)
    ensures b.count[x] > 1
  {
    assert b.Holders() == b.reds + b.Others();
    InUnion(b.g, b.reds, b.Others(), x);
  }

  /** Only the objects in `gone` are released, and what was ORANGE stays so but for
      them. */
  ghost predicate Only(gone: set<nat>, typed: seq<bool>, typed': seq<bool>, c: seq<Color>, d: seq<Color>) {
    && |typed| == |typed'| == |c| == |d|
    && forall x: nat :: x < |c| ==>
      typed'[x] == (typed[x] && x !in gone) && (c[x] == ORANGE && x !in gone ==> d[x] == ORANGE)
  }

  lemma OnlyTrans(gone: set<nat>, gone': set<nat>, all: set<nat>, t0: seq<bool>, t1: seq<bool>, t2: seq<bool>,
                  c0: seq<Color>, c1: seq<Color>, c2: seq<Color>)
    requires Only(gone, t0, t1, c0, c1) && Only(gone', t1, t2, c1, c2) && all == gone + gone'
    ensures Only(all, t0, t2, c0, c2)
  {
  }

  lemma OnlySupported(b: Books, b': Books, gone: set<nat>)
    requires b.Sized() && b'.Sized() && Supported(b) && Only(gone, b.typed, b'.typed, b.color, b'.color)
    requires b'.g == b.g && b'.elsewhere == b.elsewhere && b'.reds == b.reds - gone && gone <= b.reds
    ensures Supported(b')
  {
    assert b'.Others() == b.Others();
  }

  /** What stays when a cycle is freed has a reference from what stays, unless it
      is a member of another waiting cycle. */
  ghost predicate Backed(b: Books, ring: set<nat>)
    requires b.Sized()
  {
    forall x :: x in b.Holders() - ring && b.color[x] != ORANGE ==> b.elsewhere[x] + In(b.g, b.Holders() - ring, x) > 0
  }

  lemma BackedSupported(b: Books, color: seq<Color>, ring: set<nat>)
    requires b.Sized() && Backed(b, ring) && ring <= b.Holders() && |color| == |b.color|
    requires forall x: nat :: x < |color| ==> color[x] == if x in ring then RED else b.color[x]
    ensures Reddening(b, color, ring).Sized() && Supported(Reddening(b, color, ring))
  {
    assert Reddening(b, color, ring).Others() == b.Holders() - ring;
  }
}
