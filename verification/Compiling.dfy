/** Compiling a scope: the flow graph is analysed, and the code is emitted by what
    the analysis finds. */
module Compiling {
  import opened Options
  import opened Initialising
  import opened Flowing
  import opened FlowGraphs
  import opened Dataflow

  // ----- Blocks -----

  /** The blocks that the constructs of a node own. */
  function Ids(n: Node): set<nat>
    decreases n
  {
    match n
    case Operate(_, _, rest) => Ids(rest)
    case Then(a, b) => Ids(a) + Ids(b)
    case If(c, t, f, bt, bf, j, be) => (if c.Some? then Ids(c.value) else {}) + Ids(t) + Ids(f) + {bt, bf, j, be}
    case While(c, body, jc, bc, bb, jx, be) => (if c.Some? then Ids(c.value) else {}) + Ids(body) + {jc, bc, bb, jx, be}
    case For(init, c, next, body, jc, bc, bb, jn, bn, jx, be) =>
      Ids(init) + (if c.Some? then Ids(c.value) else {}) + (if next.Some? then Ids(next.value) else {}) + Ids(body)
      + {jc, bc, bb, jn, bn, jx, be}
    case Break(e) => Ids(e)
    case Return(e) => Ids(e)
    case _ => {}
  }

  ghost function OptionIds(c: Option<Node>): set<nat> {
    if c.Some? then Ids(c.value) else {}
  }

  predicate Different(xs: seq<nat>) {
    forall i, j :: 0 <= i < j < |xs| ==> xs[i] != xs[j]
  }

  /** No two constructs share a block, and no construct uses one twice. */
  predicate Apart(n: Node)
    decreases n
  {
    match n
    case Operate(_, _, rest) => Apart(rest)
    case Then(a, b) => Apart(a) && Apart(b) && Ids(a) !! Ids(b)
    case If(c, t, f, bt, bf, j, be) =>
      var ids := if c.Some? then Ids(c.value) else {};
      && (c.Some? ==> Apart(c.value)) && Apart(t) && Apart(f) && ids !! Ids(t) !! Ids(f) !! {bt, bf, j, be}
      && Different([bt, bf, j, be])
    case While(c, body, jc, bc, bb, jx, be) =>
      var ids := if c.Some? then Ids(c.value) else {};
      && (c.Some? ==> Apart(c.value)) && Apart(body) && ids !! Ids(body) !! {jc, bc, bb, jx, be}
      && Different([jc, bc, bb, jx, be])
    case For(init, c, next, body, jc, bc, bb, jn, bn, jx, be) =>
      var ids, ids' := if c.Some? then Ids(c.value) else {}, if next.Some? then Ids(next.value) else {};
      && Apart(init) && (c.Some? ==> Apart(c.value)) && (next.Some? ==> Apart(next.value)) && Apart(body)
      && Ids(init) !! ids !! ids' !! Ids(body) !! {jc, bc, bb, jn, bn, jx, be}
      && Different([jc, bc, bb, jn, bn, jx, be])
    case Break(e) => Apart(e)
    case Return(e) => Apart(e)
    case _ => true
  }

  /** Every block is completed once, and the last one is not complete yet. */
  ghost predicate Once(o: Flowed, s: set<nat>) {
    && Distinct(o.done) && o.cur in s && (forall d :: d in o.done ==> d.0 in s && d.0 != o.cur)
  }

  ghost predicate Distinct(done: seq<(nat, Firsts)>) {
    forall i, j :: 0 <= i < j < |done| ==> done[i].0 != done[j].0
  }

  ghost predicate NamedIn(done: seq<(nat, Firsts)>, s: set<nat>) {
    forall d :: d in done ==> d.0 in s
  }

  lemma DistinctJoin(a: seq<(nat, Firsts)>, b: seq<(nat, Firsts)>, s: set<nat>, t: set<nat>)
    requires Distinct(a) && Distinct(b) && NamedIn(a, s) && NamedIn(b, t) && s !! t
    ensures Distinct(a + b) && NamedIn(a + b, s + t)
  {
    forall i, j | 0 <= i < j < |a + b|
      ensures (a + b)[i].0 != (a + b)[j].0
    {
      if i < |a| && j >= |a| {
        assert a[i] in a && b[j - |a|] in b;
      }
    }
  }

  /** What a part completes, without its last block. */
  lemma OnceNamed(o: Flowed, s: set<nat>)
    requires Once(o, s)
    ensures Distinct(o.done) && NamedIn(o.done, s - {o.cur}) && o.cur in s
  {
  }

  lemma MadeOnce(o: Flowed, r: Parts, w: set<nat>, x: set<nat>, y: set<nat>, z: set<nat>, own: set<nat>, all: set<nat>)
    requires Made(o, r)
    requires Distinct(r.w.done) && Distinct(r.x.done) && Distinct(r.y.done) && Distinct(r.z.done) && Distinct(r.ds)
    requires NamedIn(r.w.done, w) && NamedIn(r.x.done, x) && NamedIn(r.y.done, y) && NamedIn(r.z.done, z) && NamedIn(r.ds, own)
    requires Tiled(w, x, y, z, own, all, o.cur)
    ensures Once(o, all)
  {
    DistinctJoin(r.w.done, r.x.done, w, x);
    DistinctJoin(r.w.done + r.x.done, r.y.done, w + x, y);
    DistinctJoin(r.w.done + r.x.done + r.y.done, r.z.done, w + x + y, z);
    DistinctJoin(r.w.done + r.x.done + r.y.done + r.z.done, r.ds, w + x + y + z, own);
  }

  lemma {:induction false} FlowOnce(n: Node, b: nat, acc: Firsts, ends: Ends)
    requires Apart(n) && b !in Ids(n)
    ensures Once(Flow(n, b, acc, ends), Ids(n) + {b})
    decreases n, 1
  {
    match n
    case Operate(i, _, rest) => FlowOnce(rest, b, Use(acc, i, false), ends);
    case Then(_, _) => ThenOnce(n, b, acc, ends);
    case If(_, _, _, _, _, _, _) => IfOnce(n, b, acc, ends);
    case While(_, _, _, _, _, _, _) => WhileOnce(n, b, acc, ends);
    case For(_, _, _, _, _, _, _, _, _, _, _) => ForOnce(n, b, acc, ends);
    case Break(e) => FlowOnce(e, b, acc, ends);
    case Return(e) => FlowOnce(e, b, acc, ends);
    case _ =>
  }

  lemma ThenOnce(n: Node, b: nat, acc: Firsts, ends: Ends)
    requires n.Then? && Apart(n) && b !in Ids(n)
    ensures Once(Flow(n, b, acc, ends), Ids(n) + {b})
    decreases n, 0
  {
    var x := Flow(n.a, b, acc, ends);
    var y := Flow(n.b, x.cur, x.acc, ends);
    FlowOnce(n.a, b, acc, ends);
    OnceNamed(x, Ids(n.a) + {b});
    FlowOnce(n.b, x.cur, x.acc, ends);
    OnceNamed(y, Ids(n.b) + {x.cur});
    DistinctJoin(x.done, y.done, Ids(n.a) + {b} - {x.cur}, Ids(n.b) + {x.cur} - {y.cur});
    hide Flow;
  }

  lemma OptionOnce(c: Option<Node>, b: nat, acc: Firsts, ends: Ends)
    requires (c.Some? ==> Apart(c.value)) && b !in OptionIds(c)
    ensures Once(Flown(c, b, acc, ends), OptionIds(c) + {b})
    decreases c, 2
  {
    if c.Some? {
      FlowOnce(c.value, b, acc, ends);
    }
  }

  /** The sets of blocks of a construct's parts, each with the block it begins with
      and without the one it ends with, and the blocks that the construct completes
      itself. */
  ghost predicate Tiled(w: set<nat>, x: set<nat>, y: set<nat>, z: set<nat>, own: set<nat>, all: set<nat>, cur: nat) {
    w !! x !! y !! z !! own && w + x + y + z + own <= all - {cur} && cur in all
  }

  lemma IfTiled(n: Node, b: nat, xc: nat, yc: nat, zc: nat)
    requires n.If? && Apart(n) && b !in Ids(n)
    requires xc in OptionIds(n.c) + {b} && yc in Ids(n.t) + {n.blockTrue} && zc in Ids(n.f) + {n.blockFalse}
    ensures n.blockTrue !in Ids(n.t) && n.blockFalse !in Ids(n.f) && b !in OptionIds(n.c)
    ensures Tiled({}, OptionIds(n.c) + {b} - {xc}, Ids(n.t) + {n.blockTrue} - {yc}, Ids(n.f) + {n.blockFalse} - {zc},
                  {xc, yc, zc, n.junction}, Ids(n) + {b}, n.blockExit)
    ensures xc != yc && xc != zc && yc != zc && n.junction != xc && n.junction != yc && n.junction != zc
  {
    var own := [n.blockTrue, n.blockFalse, n.junction, n.blockExit];
    assert own[0] != own[1] && own[0] != own[2] && own[0] != own[3] && own[1] != own[2] && own[1] != own[3] && own[2] != own[3];
  }

  lemma IfBegins(n: Node, b: nat)
    requires n.If? && Apart(n) && b !in Ids(n)
    ensures (n.c.Some? ==> Apart(n.c.value)) && Apart(n.t) && Apart(n.f)
    ensures n.blockTrue !in Ids(n.t) && n.blockFalse !in Ids(n.f) && b !in OptionIds(n.c)
  {
  }

  lemma IfOwn(r: Parts, j: nat)
    requires r.ds == [(r.x.cur, r.x.acc), (r.y.cur, r.y.acc), (r.z.cur, r.z.acc), (j, map[])]
    requires r.x.cur != r.y.cur && r.x.cur != r.z.cur && r.y.cur != r.z.cur && j != r.x.cur && j != r.y.cur && j != r.z.cur
    requires r.w.done == []
    ensures Distinct(r.ds) && NamedIn(r.ds, {r.x.cur, r.y.cur, r.z.cur, j}) && Distinct(r.w.done) && NamedIn(r.w.done, {})
  {
  }

  lemma IfOnce(n: Node, b: nat, acc: Firsts, ends: Ends)
    requires n.If? && Apart(n) && b !in Ids(n)
    ensures Once(Flow(n, b, acc, ends), Ids(n) + {b})
    decreases n, 0
  {
    hide Flow, Made, Once, Ids, Apart, OptionIds;
    IfMade(n, b, acc, ends);
    var r := IfParts(n, b, acc, ends);
    IfBegins(n, b);
    OptionOnce(n.c, b, acc, ends);
    FlowOnce(n.t, n.blockTrue, map[], ends);
    FlowOnce(n.f, n.blockFalse, map[], ends);
    var x, y, z := OptionIds(n.c) + {b}, Ids(n.t) + {n.blockTrue}, Ids(n.f) + {n.blockFalse};
    OnceNamed(r.x, x);
    OnceNamed(r.y, y);
    OnceNamed(r.z, z);
    IfTiled(n, b, r.x.cur, r.y.cur, r.z.cur);
    IfOwn(r, n.junction);
    hide Distinct, NamedIn, Tiled;
    MadeOnce(Flow(n, b, acc, ends), r, {}, x - {r.x.cur}, y - {r.y.cur}, z - {r.z.cur},
             {r.x.cur, r.y.cur, r.z.cur, n.junction}, Ids(n) + {b});
  }

  lemma WhileTiled(n: Node, b: nat, xc: nat, yc: nat)
    requires n.While? && Apart(n) && b !in Ids(n)
    requires xc in OptionIds(n.c) + {n.blockCondition} && yc in Ids(n.body) + {n.blockBody}
    ensures Tiled({}, OptionIds(n.c) + {n.blockCondition} - {xc}, Ids(n.body) + {n.blockBody} - {yc}, {},
                  {b, n.junctionCondition, xc, yc, n.junctionExit}, Ids(n) + {b}, n.blockExit)
    ensures Different([b, n.junctionCondition, xc, yc, n.junctionExit])
  {
    Five(n.junctionCondition, n.blockCondition, n.blockBody, n.junctionExit, n.blockExit);
  }

  lemma WhileBegins(n: Node, b: nat)
    requires n.While? && Apart(n) && b !in Ids(n)
    ensures (n.c.Some? ==> Apart(n.c.value)) && Apart(n.body)
    ensures n.blockBody !in Ids(n.body) && n.blockCondition !in OptionIds(n.c)
  {
  }

  lemma WhileOwn(r: Parts, b: nat, acc: Firsts, jc: nat, jx: nat)
    requires r.ds == [(b, acc), (jc, map[]), (r.x.cur, r.x.acc), (r.y.cur, r.y.acc), (jx, map[])]
    requires Different([b, jc, r.x.cur, r.y.cur, jx]) && r.w.done == [] && r.z.done == []
    ensures Distinct(r.ds) && NamedIn(r.ds, {b, jc, r.x.cur, r.y.cur, jx})
    ensures Distinct(r.w.done) && NamedIn(r.w.done, {}) && Distinct(r.z.done) && NamedIn(r.z.done, {})
  {
    Five(b, jc, r.x.cur, r.y.cur, jx);
  }

  lemma WhileOnce(n: Node, b: nat, acc: Firsts, ends: Ends)
    requires n.While? && Apart(n) && b !in Ids(n)
    ensures Once(Flow(n, b, acc, ends), Ids(n) + {b})
    decreases n, 0
  {
    hide Flow, Made, Once, Ids, Apart, OptionIds;
    WhileMade(n, b, acc, ends);
    var r := WhileParts(n, b, acc, ends);
    WhileBegins(n, b);
    OptionOnce(n.c, n.blockCondition, map[], ends);
    FlowOnce(n.body, n.blockBody, map[], WhileEnds(n, ends));
    var x, y := OptionIds(n.c) + {n.blockCondition}, Ids(n.body) + {n.blockBody};
    OnceNamed(r.x, x);
    OnceNamed(r.y, y);
    WhileTiled(n, b, r.x.cur, r.y.cur);
    WhileOwn(r, b, acc, n.junctionCondition, n.junctionExit);
    hide Distinct, NamedIn, Tiled, Different;
    MadeOnce(Flow(n, b, acc, ends), r, {}, x - {r.x.cur}, y - {r.y.cur}, {},
             {b, n.junctionCondition, r.x.cur, r.y.cur, n.junctionExit}, Ids(n) + {b});
  }

  lemma Five(a: nat, b: nat, c: nat, d: nat, e: nat)
    requires Different([a, b, c, d, e])
    ensures a != b && a != c && a != d && a != e && b != c && b != d && b != e && c != d && c != e && d != e
  {
    var xs := [a, b, c, d, e];
    assert xs[0] == a && xs[1] == b && xs[2] == c && xs[3] == d && xs[4] == e;
  }

  /** The blocks of a loop's parts, and its own. */
  lemma ForSets(n: Node)
    requires n.For? && Apart(n)
    ensures var own := {n.junctionCondition, n.blockCondition, n.blockBody, n.junctionNext, n.blockNext, n.junctionExit, n.blockExit};
      && Ids(n.init) !! OptionIds(n.c) !! OptionIds(n.next) !! Ids(n.body) !! own
      && Ids(n) == Ids(n.init) + OptionIds(n.c) + OptionIds(n.next) + Ids(n.body) + own
    ensures Different([n.junctionCondition, n.blockCondition, n.blockBody, n.junctionNext, n.blockNext, n.junctionExit, n.blockExit])
  {
  }

  lemma ForTiled(n: Node, b: nat, wc: nat, xc: nat, yc: nat, zc: nat)
    requires n.For? && Apart(n) && b !in Ids(n)
    requires wc in Ids(n.init) + {b} && xc in OptionIds(n.c) + {n.blockCondition}
    requires yc in Ids(n.body) + {n.blockBody} && zc in OptionIds(n.next) + {n.blockNext}
    ensures Tiled(Ids(n.init) + {b} - {wc}, OptionIds(n.c) + {n.blockCondition} - {xc}, Ids(n.body) + {n.blockBody} - {yc},
                  OptionIds(n.next) + {n.blockNext} - {zc},
                  {wc, n.junctionCondition, xc, yc, n.junctionNext, zc, n.junctionExit}, Ids(n) + {b}, n.blockExit)
  {
    hide Ids, Apart, OptionIds, Different;
    ForSets(n);
    Seven(n.junctionCondition, n.blockCondition, n.blockBody, n.junctionNext, n.blockNext, n.junctionExit, n.blockExit);
  }

  lemma ForDifferent(n: Node, b: nat, wc: nat, xc: nat, yc: nat, zc: nat)
    requires n.For? && Apart(n) && b !in Ids(n)
    requires wc in Ids(n.init) + {b} && xc in OptionIds(n.c) + {n.blockCondition}
    requires yc in Ids(n.body) + {n.blockBody} && zc in OptionIds(n.next) + {n.blockNext}
    ensures Different([wc, n.junctionCondition, xc, yc, n.junctionNext, zc, n.junctionExit])
  {
    hide Ids, Apart, OptionIds;
    ForSets(n);
    Seven(n.junctionCondition, n.blockCondition, n.blockBody, n.junctionNext, n.blockNext, n.junctionExit, n.blockExit);
  }

  lemma ForBegins(n: Node, b: nat)
    requires n.For? && Apart(n) && b !in Ids(n)
    ensures Apart(n.init) && (n.c.Some? ==> Apart(n.c.value)) && (n.next.Some? ==> Apart(n.next.value)) && Apart(n.body)
    ensures b !in Ids(n.init) && n.blockBody !in Ids(n.body) && n.blockCondition !in OptionIds(n.c)
    ensures n.blockNext !in OptionIds(n.next)
  {
  }

  lemma ForOnce(n: Node, b: nat, acc: Firsts, ends: Ends)
    requires n.For? && Apart(n) && b !in Ids(n)
    ensures Once(Flow(n, b, acc, ends), Ids(n) + {b})
    decreases n, 0
  {
    hide Flow, Made, Once, Ids, Apart, OptionIds;
    ForMade(n, b, acc, ends);
    var r := ForParts(n, b, acc, ends);
    ForBegins(n, b);
    FlowOnce(n.init, b, acc, ends);
    OptionOnce(n.c, n.blockCondition, map[], ends);
    FlowOnce(n.body, n.blockBody, map[], ForEnds(n, ends));
    OptionOnce(n.next, n.blockNext, map[], ends);
    var w, x := Ids(n.init) + {b}, OptionIds(n.c) + {n.blockCondition};
    var y, z := Ids(n.body) + {n.blockBody}, OptionIds(n.next) + {n.blockNext};
    OnceNamed(r.w, w);
    OnceNamed(r.x, x);
    OnceNamed(r.y, y);
    OnceNamed(r.z, z);
    ForTiled(n, b, r.w.cur, r.x.cur, r.y.cur, r.z.cur);
    ForDifferent(n, b, r.w.cur, r.x.cur, r.y.cur, r.z.cur);
    Seven(r.w.cur, n.junctionCondition, r.x.cur, r.y.cur, n.junctionNext, r.z.cur, n.junctionExit);
    MadeOnce(Flow(n, b, acc, ends), r, w - {r.w.cur}, x - {r.x.cur}, y - {r.y.cur}, z - {r.z.cur},
             {r.w.cur, n.junctionCondition, r.x.cur, r.y.cur, n.junctionNext, r.z.cur, n.junctionExit}, Ids(n) + {b});
  }

  lemma Seven(a: nat, b: nat, c: nat, d: nat, e: nat, f: nat, g: nat)
    requires Different([a, b, c, d, e, f, g])
    ensures a != b && a != c && a != d && a != e && a != f && a != g && b != c && b != d && b != e && b != f && b != g
    ensures c != d && c != e && c != f && c != g && d != e && d != f && d != g && e != f && e != g && f != g
  {
    var xs := [a, b, c, d, e, f, g];
    assert xs[0] == a && xs[1] == b && xs[2] == c && xs[3] == d && xs[4] == e && xs[5] == f && xs[6] == g;
  }

  // ----- First reads -----

  ghost predicate Gets(acc: Firsts, i: nat) {
    i in acc && !acc[i]
  }

  /** The block `p` reads `i` first: it is complete or the last one. */
  ghost predicate Noted(o: Flowed, p: nat, i: nat) {
    (exists d :: d in o.done && d.0 == p && Gets(d.1, i)) || (o.cur == p && Gets(o.acc, i))
  }

  /** A part of a construct: its blocks are complete in the whole. */
  ghost predicate PartOf(x: Flowed, o: Flowed) {
    (forall d :: d in x.done ==> d in o.done) && (x.cur, x.acc) in o.done
  }

  lemma PartNoted(x: Flowed, o: Flowed, p: nat, i: nat)
    requires Noted(x, p, i) && PartOf(x, o)
    ensures Noted(o, p, i)
  {
    if d :| d in x.done && d.0 == p && Gets(d.1, i) {
    } else {
      var d := (x.cur, x.acc);
      assert d in o.done && d.0 == p && Gets(d.1, i);
    }
  }

  lemma IfPartsOf(n: Node, b: nat, acc: Firsts, ends: Ends)
    requires n.If?
    ensures var o, r := Flow(n, b, acc, ends), IfParts(n, b, acc, ends);
      PartOf(r.x, o) && PartOf(r.y, o) && PartOf(r.z, o) && o.gets == r.x.gets + r.y.gets + r.z.gets
  {
    hide Flow;
    IfMade(n, b, acc, ends);
    var o, r := Flow(n, b, acc, ends), IfParts(n, b, acc, ends);
    PartDone(o, r);
    assert r.ds[0] in o.done && r.ds[1] in o.done && r.ds[2] in o.done;
  }

  lemma WhilePartsOf(n: Node, b: nat, acc: Firsts, ends: Ends)
    requires n.While?
    ensures var o, r := Flow(n, b, acc, ends), WhileParts(n, b, acc, ends);
      PartOf(r.x, o) && PartOf(r.y, o) && o.gets == r.x.gets + r.y.gets && (b, acc) in o.done
  {
    hide Flow;
    WhileMade(n, b, acc, ends);
    var o, r := Flow(n, b, acc, ends), WhileParts(n, b, acc, ends);
    PartDone(o, r);
    assert r.ds[0] in o.done && r.ds[2] in o.done && r.ds[3] in o.done;
  }

  lemma ForPartsOf(n: Node, b: nat, acc: Firsts, ends: Ends)
    requires n.For?
    ensures var o, r := Flow(n, b, acc, ends), ForParts(n, b, acc, ends);
      && PartOf(r.w, o) && PartOf(r.x, o) && PartOf(r.y, o) && PartOf(r.z, o)
      && o.gets == r.w.gets + r.x.gets + r.y.gets + r.z.gets
  {
    hide Flow;
    ForMade(n, b, acc, ends);
    var o, r := Flow(n, b, acc, ends), ForParts(n, b, acc, ends);
    PartDone(o, r);
    assert r.ds[0] in o.done && r.ds[2] in o.done && r.ds[3] in o.done && r.ds[5] in o.done;
  }

  lemma PartDone(o: Flowed, r: Parts)
    requires Made(o, r)
    ensures forall d: (nat, Firsts) :: d in r.w.done || d in r.x.done || d in r.y.done || d in r.z.done ==> d in o.done
    ensures forall i :: 0 <= i < |r.ds| ==> r.ds[i] in o.done
  {
    forall d: (nat, Firsts) | d in r.w.done || d in r.x.done || d in r.y.done || d in r.z.done || d in r.ds
      ensures d in o.done
    {
      MadeDone(o, r, d);
    }
    assert forall i :: 0 <= i < |r.ds| ==> r.ds[i] in r.ds;
  }

  /** A first read before a node is still one after it. */
  lemma {:induction false} FlowKeeps(n: Node, b: nat, acc: Firsts, ends: Ends, i: nat)
    requires Gets(acc, i)
    ensures Noted(Flow(n, b, acc, ends), b, i)
    decreases n, 1
  {
    match n
    case Operate(k, _, rest) => FlowKeeps(rest, b, Use(acc, k, false), ends, i);
    case Then(_, _) => ThenKeeps(n, b, acc, ends, b, i);
    case If(c, _, _, _, _, _, _) =>
      var x := Flown(c, b, acc, ends);
      hide Noted, Flow;
      OptionKeeps(c, b, acc, ends, i);
      IfPartsOf(n, b, acc, ends);
      PartNoted(x, Flow(n, b, acc, ends), b, i);
    case While(_, _, _, _, _, _, _) =>
      hide Flow;
      WhilePartsOf(n, b, acc, ends);
      var d := (b, acc);
      assert d in Flow(n, b, acc, ends).done && d.0 == b && Gets(d.1, i);
    case For(init, _, _, _, _, _, _, _, _, _, _) =>
      hide Noted, Flow;
      FlowKeeps(init, b, acc, ends, i);
      ForPartsOf(n, b, acc, ends);
      PartNoted(Flow(init, b, acc, ends), Flow(n, b, acc, ends), b, i);
    case Break(e) => FlowKeeps(e, b, acc, ends, i);
    case Return(e) => FlowKeeps(e, b, acc, ends, i);
    case _ =>
  }

  lemma OptionKeeps(c: Option<Node>, b: nat, acc: Firsts, ends: Ends, i: nat)
    requires Gets(acc, i)
    ensures Noted(Flown(c, b, acc, ends), b, i)
    decreases c, 2
  {
    if c.Some? {
      FlowKeeps(c.value, b, acc, ends, i);
    }
  }

  lemma ThenKeeps(n: Node, b: nat, acc: Firsts, ends: Ends, p: nat, i: nat)
    requires n.Then? && (Noted(Flow(n.a, b, acc, ends), p, i) || (p == b && Gets(acc, i)))
    ensures Noted(Flow(n, b, acc, ends), p, i)
    decreases n, 0
  {
    var x := Flow(n.a, b, acc, ends);
    var y := Flow(n.b, x.cur, x.acc, ends);
    if p == b && Gets(acc, i) {
      FlowKeeps(n.a, b, acc, ends, i);
    }
    assert Flow(n, b, acc, ends).done == x.done + y.done;
    if d :| d in x.done && d.0 == p && Gets(d.1, i) {
      assert d in Flow(n, b, acc, ends).done;
    } else {
      FlowKeeps(n.b, x.cur, x.acc, ends, i);
    }
  }

  lemma {:induction false} FlowGets(n: Node, b: nat, acc: Firsts, ends: Ends, r: (nat, nat))
    requires r in Flow(n, b, acc, ends).gets
    ensures Noted(Flow(n, b, acc, ends), r.0, r.1)
    decreases n, 1
  {
    match n
    case Operate(_, _, _) => OperateGets(n, b, acc, ends, r);
    case Then(_, _) => ThenGets(n, b, acc, ends, r);
    case If(_, _, _, _, _, _, _) =>
      hide Noted, Flow;
      IfPartsOf(n, b, acc, ends);
      var o, p := Flow(n, b, acc, ends), IfParts(n, b, acc, ends);
      if r in p.x.gets {
        OptionGets(n.c, b, acc, ends, r);
        PartNoted(p.x, o, r.0, r.1);
      } else if r in p.y.gets {
        FlowGets(n.t, n.blockTrue, map[], ends, r);
        PartNoted(p.y, o, r.0, r.1);
      } else {
        FlowGets(n.f, n.blockFalse, map[], ends, r);
        PartNoted(p.z, o, r.0, r.1);
      }
    case While(_, _, _, _, _, _, _) =>
      hide Noted, Flow;
      WhilePartsOf(n, b, acc, ends);
      var o, p := Flow(n, b, acc, ends), WhileParts(n, b, acc, ends);
      if r in p.x.gets {
        OptionGets(n.c, n.blockCondition, map[], ends, r);
        PartNoted(p.x, o, r.0, r.1);
      } else {
        FlowGets(n.body, n.blockBody, map[], WhileEnds(n, ends), r);
        PartNoted(p.y, o, r.0, r.1);
      }
    case For(_, _, _, _, _, _, _, _, _, _, _) =>
      hide Noted, Flow;
      ForPartsOf(n, b, acc, ends);
      var o, p := Flow(n, b, acc, ends), ForParts(n, b, acc, ends);
      if r in p.w.gets {
        FlowGets(n.init, b, acc, ends, r);
        PartNoted(p.w, o, r.0, r.1);
      } else if r in p.x.gets {
        OptionGets(n.c, n.blockCondition, map[], ends, r);
        PartNoted(p.x, o, r.0, r.1);
      } else if r in p.y.gets {
        FlowGets(n.body, n.blockBody, map[], ForEnds(n, ends), r);
        PartNoted(p.y, o, r.0, r.1);
      } else {
        OptionGets(n.next, n.blockNext, map[], ends, r);
        PartNoted(p.z, o, r.0, r.1);
      }
    case Break(e) => FlowGets(e, b, acc, ends, r);
    case Return(e) => FlowGets(e, b, acc, ends, r);
    case _ =>
  }

  lemma OptionGets(c: Option<Node>, b: nat, acc: Firsts, ends: Ends, r: (nat, nat))
    requires r in Flown(c, b, acc, ends).gets
    ensures Noted(Flown(c, b, acc, ends), r.0, r.1)
    decreases c, 2
  {
    FlowGets(c.value, b, acc, ends, r);
  }

  lemma OperateGets(n: Node, b: nat, acc: Firsts, ends: Ends, r: (nat, nat))
    requires n.Operate? && r in Flow(n, b, acc, ends).gets
    ensures Noted(Flow(n, b, acc, ends), r.0, r.1)
    decreases n, 0
  {
    var acc', own := Use(acc, n.i, false), if n.i !in acc then [(b, n.i)] else [];
    var x := Flow(n.rest, b, acc', ends);
    assert Flow(n, b, acc, ends).gets == own + x.gets;
    if r in own {
      FlowKeeps(n.rest, b, acc', ends, n.i);
    } else {
      FlowGets(n.rest, b, acc', ends, r);
    }
  }

  lemma ThenGets(n: Node, b: nat, acc: Firsts, ends: Ends, r: (nat, nat))
    requires n.Then? && r in Flow(n, b, acc, ends).gets
    ensures Noted(Flow(n, b, acc, ends), r.0, r.1)
    decreases n, 0
  {
    var x := Flow(n.a, b, acc, ends);
    var y := Flow(n.b, x.cur, x.acc, ends);
    assert Flow(n, b, acc, ends).done == x.done + y.done;
    if r in x.gets {
      FlowGets(n.a, b, acc, ends, r);
      ThenKeeps(n, b, acc, ends, r.0, r.1);
    } else {
      FlowGets(n.b, x.cur, x.acc, ends, r);
    }
  }
}
