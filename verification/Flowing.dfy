/** The flow of a node and of its parts, and which variables the emission takes for
    initialised along it. */
module Flowing {
  import opened Options
  import opened Initialising

  /** Jumps out of loops are in loops, and all variables are below `m`. */
  predicate Formed(n: Node, m: nat, loop: bool) {
    match n
    case Skip => true
    case Access(i, _) => i < m
    case Operate(i, _, rest) => i < m && Formed(rest, m, loop)
    case Then(a, b) => Formed(a, m, loop) && Formed(b, m, loop)
    case If(c, t, f, _, _, _, _) => (c.Some? ==> Formed(c.value, m, loop)) && Formed(t, m, loop) && Formed(f, m, loop)
    case While(c, body, _, _, _, _, _) => (c.Some? ==> Formed(c.value, m, loop)) && Formed(body, m, true)
    case For(init, c, next, body, _, _, _, _, _, _, _) =>
      && Formed(init, m, loop) && (c.Some? ==> Formed(c.value, m, loop)) && (next.Some? ==> Formed(next.value, m, loop))
      && Formed(body, m, true)
    case Break(e) => loop && Formed(e, m, loop)
    case Continue => loop
    case Return(e) => Formed(e, m, loop)
  }

  // ----- What does not change while a scope is compiled -----

  datatype Scope = Scope(s: Facts, m: nat, edges: seq<(nat, nat)>, done: seq<(nat, Firsts)>, gets: seq<(nat, nat)>)

  ghost predicate Solved(g: Scope) {
    Solves(g.s, g.edges, g.done, g.gets)
  }

  /** An edge from a complete block. */
  ghost predicate Edge(g: Scope, b: nat, acc: Firsts, q: nat) {
    (b, acc) in g.done && (b, q) in g.edges
  }

  ghost predicate Within(g: Scope, o: Flowed) {
    && (forall e :: e in o.edges ==> e in g.edges) && (forall d :: d in o.done ==> d in g.done)
    && forall r :: r in o.gets ==> r in g.gets
  }

  ghost function Flown(c: Option<Node>, b: nat, acc: Firsts, ends: Ends): Flowed {
    if c.Some? then Flow(c.value, b, acc, ends) else Flowed(b, acc, [], [], [])
  }

  lemma EdgeGrows(g: Scope, p: nat, acc: Firsts, q: nat, i: nat)
    requires Solved(g) && Edge(g, p, acc, q) && Left(g.s, p, acc, i)
    ensures Left(g.s, q, map[], i)
  {
    SolvesEdge(g.s, g.edges, g.done, g.gets, p, acc, q);
  }

  /** What has been accessed on the way stays so. */
  lemma {:induction false} FlowGrows(g: Scope, n: Node, b: nat, acc: Firsts, ends: Ends, i: nat)
    requires Solved(g) && Within(g, Flow(n, b, acc, ends)) && Left(g.s, b, acc, i)
    ensures var o := Flow(n, b, acc, ends); Left(g.s, o.cur, o.acc, i)
    decreases n, 1
  {
    hide Solved, Left;
    match n
    case Skip =>
    case Access(_, _) => UseGrows(g, b, acc, n.i, n.put, i);
    case Operate(k, _, rest) =>
      UseGrows(g, b, acc, k, false, i);
      OperateWithin(g, n, b, acc, ends);
      FlowGrows(g, rest, b, Use(acc, k, false), ends, i);
    case Then(x, y) =>
      var o := Flow(x, b, acc, ends);
      FlowGrows(g, x, b, acc, ends, i);
      FlowGrows(g, y, o.cur, o.acc, ends, i);
    case If(_, _, _, _, _, _, _) => IfGrows(g, n, b, acc, ends, i);
    case While(_, _, _, _, _, _, _) => WhileGrows(g, n, b, acc, ends, i);
    case For(_, _, _, _, _, _, _, _, _, _, _) => ForGrows(g, n, b, acc, ends, i);
    case Break(e) => FlowGrows(g, e, b, acc, ends, i);
    case Continue =>
    case Return(e) => FlowGrows(g, e, b, acc, ends, i);
  }

  lemma OperateWithin(g: Scope, n: Node, b: nat, acc: Firsts, ends: Ends)
    requires n.Operate? && Within(g, Flow(n, b, acc, ends))
    ensures var x := Flow(n.rest, b, Use(acc, n.i, false), ends);
      Within(g, x) && Flow(n, b, acc, ends).cur == x.cur && Flow(n, b, acc, ends).acc == x.acc
    ensures n.i !in acc ==> (b, n.i) in g.gets
  {
    var x := Flow(n.rest, b, Use(acc, n.i, false), ends);
    if n.i !in acc {
      assert ([(b, n.i)] + x.gets)[0] == (b, n.i);
    }
  }

  lemma ThenWithin(g: Scope, n: Node, b: nat, acc: Firsts, ends: Ends)
    requires n.Then? && Within(g, Flow(n, b, acc, ends))
    ensures var x := Flow(n.a, b, acc, ends); var y := Flow(n.b, x.cur, x.acc, ends);
      Within(g, x) && Within(g, y) && Flow(n, b, acc, ends).cur == y.cur && Flow(n, b, acc, ends).acc == y.acc
  {
  }

  lemma JumpWithin(g: Scope, n: Node, b: nat, acc: Firsts, ends: Ends)
    requires (n.Break? || n.Return?) && Within(g, Flow(n, b, acc, ends))
    ensures Within(g, Flow(n.e, b, acc, ends))
    ensures Flow(n, b, acc, ends).cur == Flow(n.e, b, acc, ends).cur && Flow(n, b, acc, ends).acc == Flow(n.e, b, acc, ends).acc
  {
  }

  lemma UseGrows(g: Scope, b: nat, acc: Firsts, k: nat, put: bool, i: nat)
    requires Left(g.s, b, acc, i)
    ensures Left(g.s, b, Use(acc, k, put), i)
  {
  }

  lemma OptionGrows(g: Scope, c: Option<Node>, b: nat, acc: Firsts, ends: Ends, i: nat)
    requires Solved(g) && Within(g, Flown(c, b, acc, ends)) && Left(g.s, b, acc, i)
    ensures var o := Flown(c, b, acc, ends); Left(g.s, o.cur, o.acc, i)
    decreases c, 2
  {
    if c.Some? {
      FlowGrows(g, c.value, b, acc, ends, i);
    }
  }

  lemma IfGrows(g: Scope, n: Node, b: nat, acc: Firsts, ends: Ends, i: nat)
    requires n.If? && Solved(g) && Within(g, Flow(n, b, acc, ends)) && Left(g.s, b, acc, i)
    ensures Left(g.s, n.blockExit, map[], i)
    decreases n, 0
  {
    hide Solved, Left, Flow;
    var x, y := Flown(n.c, b, acc, ends), Flow(n.t, n.blockTrue, map[], ends);
    IfWithin(g, n, b, acc, ends);
    OptionGrows(g, n.c, b, acc, ends, i);
    EdgeGrows(g, x.cur, x.acc, n.blockTrue, i);
    FlowGrows(g, n.t, n.blockTrue, map[], ends, i);
    EdgeGrows(g, y.cur, y.acc, n.junction, i);
    EdgeGrows(g, n.junction, map[], n.blockExit, i);
  }

  /** The parts of a construct, and what it adds to them. */
  datatype Parts = Parts(w: Flowed, x: Flowed, y: Flowed, z: Flowed, es: seq<(nat, nat)>, ds: seq<(nat, Firsts)>)

  /** The flow of the construct is that of its parts and its own. */
  ghost predicate Made(o: Flowed, r: Parts) {
    && o.edges == r.w.edges + r.x.edges + r.y.edges + r.z.edges + r.es
    && o.done == r.w.done + r.x.done + r.y.done + r.z.done + r.ds
    && o.gets == r.w.gets + r.x.gets + r.y.gets + r.z.gets
  }

  ghost predicate Owns(g: Scope, r: Parts) {
    && Within(g, r.w) && Within(g, r.x) && Within(g, r.y) && Within(g, r.z)
    && (forall i :: 0 <= i < |r.es| ==> r.es[i] in g.edges) && (forall i :: 0 <= i < |r.ds| ==> r.ds[i] in g.done)
  }

  lemma MadeOwns(g: Scope, o: Flowed, r: Parts)
    requires Within(g, o) && Made(o, r)
    ensures Owns(g, r)
  {
    forall i | 0 <= i < |r.es|
      ensures r.es[i] in g.edges
    {
      assert r.es[i] in o.edges;
    }
    forall i | 0 <= i < |r.ds|
      ensures r.ds[i] in g.done
    {
      assert r.ds[i] in o.done;
    }
  }

  const NOTHING := Flowed(0, map[], [], [], [])

  ghost function IfParts(n: Node, b: nat, acc: Firsts, ends: Ends): Parts
    requires n.If?
  {
    var x, y, z := Flown(n.c, b, acc, ends), Flow(n.t, n.blockTrue, map[], ends), Flow(n.f, n.blockFalse, map[], ends);
    Parts(NOTHING, x, y, z,
          [(x.cur, n.blockTrue), (x.cur, n.blockFalse), (y.cur, n.junction), (z.cur, n.junction), (n.junction, n.blockExit)],
          [(x.cur, x.acc), (y.cur, y.acc), (z.cur, z.acc), (n.junction, map[])])
  }

  lemma Prefixed<T>(xs: seq<T>, ys: seq<T>)
    ensures xs == [] ==> xs + ys == ys
    ensures ys + [] == ys
  {
  }

  lemma IfMade(n: Node, b: nat, acc: Firsts, ends: Ends)
    requires n.If?
    ensures var o := Flow(n, b, acc, ends);
      Made(o, IfParts(n, b, acc, ends)) && o.cur == n.blockExit && o.acc == map[]
  {
    var r := IfParts(n, b, acc, ends);
    Prefixed(r.w.edges, r.x.edges);
    Prefixed(r.w.done, r.x.done);
    Prefixed(r.w.gets, r.x.gets);
  }

  lemma IfWithin(g: Scope, n: Node, b: nat, acc: Firsts, ends: Ends)
    requires n.If? && Within(g, Flow(n, b, acc, ends))
    ensures var x, y, z := Flown(n.c, b, acc, ends), Flow(n.t, n.blockTrue, map[], ends), Flow(n.f, n.blockFalse, map[], ends);
      && Within(g, x) && Within(g, y) && Within(g, z)
      && Edge(g, x.cur, x.acc, n.blockTrue) && Edge(g, x.cur, x.acc, n.blockFalse) && Edge(g, y.cur, y.acc, n.junction)
      && Edge(g, z.cur, z.acc, n.junction) && Edge(g, n.junction, map[], n.blockExit)
  {
    hide Flow, Made, Within;
    IfMade(n, b, acc, ends);
    var r := IfParts(n, b, acc, ends);
    MadeOwns(g, Flow(n, b, acc, ends), r);
    assert r.es[0] in g.edges && r.es[1] in g.edges && r.es[2] in g.edges && r.es[3] in g.edges && r.es[4] in g.edges;
    assert r.ds[0] in g.done && r.ds[1] in g.done && r.ds[2] in g.done && r.ds[3] in g.done;
  }

  lemma WhileGrows(g: Scope, n: Node, b: nat, acc: Firsts, ends: Ends, i: nat)
    requires n.While? && Solved(g) && Within(g, Flow(n, b, acc, ends)) && Left(g.s, b, acc, i)
    ensures Left(g.s, n.blockExit, map[], i)
    decreases n, 0
  {
    hide Solved, Left, Flow;
    var x := Flown(n.c, n.blockCondition, map[], ends);
    WhileWithin(g, n, b, acc, ends);
    EdgeGrows(g, b, acc, n.junctionCondition, i);
    EdgeGrows(g, n.junctionCondition, map[], n.blockCondition, i);
    OptionGrows(g, n.c, n.blockCondition, map[], ends, i);
    EdgeGrows(g, x.cur, x.acc, n.junctionExit, i);
    EdgeGrows(g, n.junctionExit, map[], n.blockExit, i);
  }

  ghost function WhileEnds(n: Node, ends: Ends): Ends
    requires n.While?
  {
    Ends(n.junctionExit, n.junctionCondition, ends.onReturn)
  }

  ghost function WhileParts(n: Node, b: nat, acc: Firsts, ends: Ends): Parts
    requires n.While?
  {
    var x, y := Flown(n.c, n.blockCondition, map[], ends), Flow(n.body, n.blockBody, map[], WhileEnds(n, ends));
    var jc, jx := n.junctionCondition, n.junctionExit;
    Parts(NOTHING, x, y, NOTHING,
          [(b, jc), (jc, n.blockCondition), (x.cur, n.blockBody), (x.cur, jx), (y.cur, jc), (jx, n.blockExit)],
          [(b, acc), (jc, map[]), (x.cur, x.acc), (y.cur, y.acc), (jx, map[])])
  }

  lemma WhileMade(n: Node, b: nat, acc: Firsts, ends: Ends)
    requires n.While?
    ensures var o := Flow(n, b, acc, ends);
      Made(o, WhileParts(n, b, acc, ends)) && o.cur == n.blockExit && o.acc == map[]
  {
    var r := WhileParts(n, b, acc, ends);
    Prefixed(r.w.edges, r.x.edges);
    Prefixed(r.w.done, r.x.done);
    Prefixed(r.w.gets, r.x.gets);
  }

  lemma WhileWithin(g: Scope, n: Node, b: nat, acc: Firsts, ends: Ends)
    requires n.While? && Within(g, Flow(n, b, acc, ends))
    ensures var x, y := Flown(n.c, n.blockCondition, map[], ends), Flow(n.body, n.blockBody, map[], WhileEnds(n, ends));
      && Within(g, x) && Within(g, y)
      && Edge(g, b, acc, n.junctionCondition) && Edge(g, n.junctionCondition, map[], n.blockCondition)
      && Edge(g, x.cur, x.acc, n.blockBody) && Edge(g, x.cur, x.acc, n.junctionExit)
      && Edge(g, y.cur, y.acc, n.junctionCondition) && Edge(g, n.junctionExit, map[], n.blockExit)
  {
    hide Flow, Made, Within;
    WhileMade(n, b, acc, ends);
    var r := WhileParts(n, b, acc, ends);
    MadeOwns(g, Flow(n, b, acc, ends), r);
    assert r.es[0] in g.edges && r.es[1] in g.edges && r.es[2] in g.edges && r.es[3] in g.edges && r.es[4] in g.edges;
    assert r.es[5] in g.edges;
    assert r.ds[0] in g.done && r.ds[1] in g.done && r.ds[2] in g.done && r.ds[3] in g.done && r.ds[4] in g.done;
  }

  lemma ForGrows(g: Scope, n: Node, b: nat, acc: Firsts, ends: Ends, i: nat)
    requires n.For? && Solved(g) && Within(g, Flow(n, b, acc, ends)) && Left(g.s, b, acc, i)
    ensures Left(g.s, n.blockExit, map[], i)
    decreases n, 0
  {
    hide Solved, Left, Flow;
    var w, x := Flow(n.init, b, acc, ends), Flown(n.c, n.blockCondition, map[], ends);
    ForWithin(g, n, b, acc, ends);
    FlowGrows(g, n.init, b, acc, ends, i);
    EdgeGrows(g, w.cur, w.acc, n.junctionCondition, i);
    EdgeGrows(g, n.junctionCondition, map[], n.blockCondition, i);
    OptionGrows(g, n.c, n.blockCondition, map[], ends, i);
    EdgeGrows(g, x.cur, x.acc, n.junctionExit, i);
    EdgeGrows(g, n.junctionExit, map[], n.blockExit, i);
  }

  ghost function ForEnds(n: Node, ends: Ends): Ends
    requires n.For?
  {
    Ends(n.junctionExit, n.junctionNext, ends.onReturn)
  }

  ghost function ForParts(n: Node, b: nat, acc: Firsts, ends: Ends): Parts
    requires n.For?
  {
    var w, x := Flow(n.init, b, acc, ends), Flown(n.c, n.blockCondition, map[], ends);
    var y, z := Flow(n.body, n.blockBody, map[], ForEnds(n, ends)), Flown(n.next, n.blockNext, map[], ends);
    var jc, jn, jx := n.junctionCondition, n.junctionNext, n.junctionExit;
    Parts(w, x, y, z,
          [(w.cur, jc), (jc, n.blockCondition), (x.cur, n.blockBody), (x.cur, jx), (y.cur, jn), (jn, n.blockNext),
           (z.cur, jc), (jx, n.blockExit)],
          [(w.cur, w.acc), (jc, map[]), (x.cur, x.acc), (y.cur, y.acc), (jn, map[]), (z.cur, z.acc), (jx, map[])])
  }

  lemma ForMade(n: Node, b: nat, acc: Firsts, ends: Ends)
    requires n.For?
    ensures var o := Flow(n, b, acc, ends);
      Made(o, ForParts(n, b, acc, ends)) && o.cur == n.blockExit && o.acc == map[]
  {
    var r := ForParts(n, b, acc, ends);
    Prefixed(r.w.edges, r.x.edges);
    Prefixed(r.w.done, r.x.done);
    Prefixed(r.w.gets, r.x.gets);
  }

  lemma ForWithin(g: Scope, n: Node, b: nat, acc: Firsts, ends: Ends)
    requires n.For? && Within(g, Flow(n, b, acc, ends))
    ensures var r := ForParts(n, b, acc, ends);
      && Within(g, r.w) && Within(g, r.x) && Within(g, r.y) && Within(g, r.z)
      && Edge(g, r.w.cur, r.w.acc, n.junctionCondition) && Edge(g, n.junctionCondition, map[], n.blockCondition)
      && Edge(g, r.x.cur, r.x.acc, n.blockBody) && Edge(g, r.x.cur, r.x.acc, n.junctionExit)
      && Edge(g, n.junctionExit, map[], n.blockExit)
      && Edge(g, r.y.cur, r.y.acc, n.junctionNext) && Edge(g, n.junctionNext, map[], n.blockNext)
      && Edge(g, r.z.cur, r.z.acc, n.junctionCondition)
  {
    hide Flow, Made, Within;
    ForMade(n, b, acc, ends);
    var r := ForParts(n, b, acc, ends);
    MadeOwns(g, Flow(n, b, acc, ends), r);
    assert r.es[0] in g.edges && r.es[1] in g.edges && r.es[2] in g.edges && r.es[3] in g.edges && r.es[4] in g.edges;
    assert r.es[5] in g.edges && r.es[6] in g.edges && r.es[7] in g.edges;
    assert r.ds[0] in g.done && r.ds[1] in g.done && r.ds[2] in g.done && r.ds[3] in g.done && r.ds[4] in g.done;
    assert r.ds[5] in g.done && r.ds[6] in g.done;
  }

  // ----- What is taken for initialised -----

  ghost function Emits(c: Option<Node>, d: set<nat>, ts: Targets, s: Facts, m: nat): Emitted {
    if c.Some? then Emit(c.value, d, ts, s, m) else Emitted([], d)
  }

  ghost function ForTargets(n: Node, ts: Targets): Targets
    requires n.For?
  {
    Targets(n.blockExit, n.junctionExit, if n.next.Some? then n.blockNext else n.blockCondition)
  }

  ghost function WhileTargets(n: Node): Targets
    requires n.While?
  {
    Targets(n.blockExit, n.junctionExit, n.blockCondition)
  }

  /** All of `d` may have been accessed. */
  ghost predicate Shape(g: Scope, d: set<nat>, b: nat, acc: Firsts) {
    forall i :: i in d ==> i < g.m && Left(g.s, b, acc, i)
  }

  lemma ShapeNext(g: Scope, d: set<nat>, b: nat, acc: Firsts, q: nat)
    requires Solved(g) && Shape(g, d, b, acc) && Edge(g, b, acc, q)
    ensures Shape(g, d, q, map[]) && d <= Merge(g.s, q, g.m)
  {
    SolvesEdge(g.s, g.edges, g.done, g.gets, b, acc, q);
  }

  lemma ShapeMerge(g: Scope, j: nat, q: nat)
    requires Solved(g) && Edge(g, j, map[], q)
    ensures Shape(g, Merge(g.s, j, g.m), j, map[]) && Shape(g, Merge(g.s, j, g.m), q, map[])
  {
    ShapeNext(g, Merge(g.s, j, g.m), j, map[], q);
  }

  lemma OperateShape(g: Scope, d: set<nat>, b: nat, acc: Firsts, i: nat, call: bool)
    requires Shape(g, d, b, acc) && i < g.m
    ensures Shape(g, if call then d else d + {i}, b, Use(acc, i, false))
  {
  }

  /** The emission takes for initialised only what may have been accessed, and more
      and more. */
  lemma {:induction false} EmitShape(g: Scope, n: Node, b: nat, acc: Firsts, ends: Ends, d: set<nat>, ts: Targets, loop: bool)
    requires Solved(g) && Within(g, Flow(n, b, acc, ends)) && Formed(n, g.m, loop) && Shape(g, d, b, acc)
    ensures var o, e := Flow(n, b, acc, ends), Emit(n, d, ts, g.s, g.m);
      Shape(g, e.d, o.cur, o.acc) && d <= e.d
    decreases n, 2
  {
    hide Solved, Within, Shape;
    match n
    case Skip =>
    case Access(i, put) => AccessShape(g, d, b, acc, i, put);
    case Operate(i, call, rest) =>
      OperateWithin(g, n, b, acc, ends);
      OperateShape(g, d, b, acc, i, call);
      EmitShape(g, rest, b, Use(acc, i, false), ends, if call then d else d + {i}, ts, loop);
    case Then(x, y) =>
      ThenWithin(g, n, b, acc, ends);
      var o, e := Flow(x, b, acc, ends), Emit(x, d, ts, g.s, g.m);
      EmitShape(g, x, b, acc, ends, d, ts, loop);
      EmitShape(g, y, o.cur, o.acc, ends, e.d, ts, loop);
    case If(_, _, _, _, _, _, _) => IfShape(g, n, b, acc, ends, d, ts, loop);
    case While(_, _, _, _, _, _, _) => WhileShape(g, n, b, acc, ends, d, ts, loop);
    case For(_, _, _, _, _, _, _, _, _, _, _) => ForShape(g, n, b, acc, ends, d, ts, loop);
    case Break(e) =>
      JumpWithin(g, n, b, acc, ends);
      EmitShape(g, e, b, acc, ends, d, ts, loop);
    case Continue =>
    case Return(e) =>
      JumpWithin(g, n, b, acc, ends);
      EmitShape(g, e, b, acc, ends, d, ts, loop);
  }

  lemma AccessShape(g: Scope, d: set<nat>, b: nat, acc: Firsts, i: nat, put: bool)
    requires Shape(g, d, b, acc) && i < g.m
    ensures Shape(g, d + {i}, b, Use(acc, i, put))
  {
  }

  lemma OptionShape(g: Scope, c: Option<Node>, b: nat, acc: Firsts, ends: Ends, d: set<nat>, ts: Targets, loop: bool)
    requires Solved(g) && Within(g, Flown(c, b, acc, ends)) && (c.Some? ==> Formed(c.value, g.m, loop)) && Shape(g, d, b, acc)
    ensures var o, e := Flown(c, b, acc, ends), Emits(c, d, ts, g.s, g.m);
      Shape(g, e.d, o.cur, o.acc) && d <= e.d
    decreases c, 3
  {
    if c.Some? {
      EmitShape(g, c.value, b, acc, ends, d, ts, loop);
    }
  }

  lemma IfShape(g: Scope, n: Node, b: nat, acc: Firsts, ends: Ends, d: set<nat>, ts: Targets, loop: bool)
    requires n.If? && Solved(g) && Within(g, Flow(n, b, acc, ends)) && Formed(n, g.m, loop) && Shape(g, d, b, acc)
    ensures var o, e := Flow(n, b, acc, ends), Emit(n, d, ts, g.s, g.m);
      Shape(g, e.d, o.cur, o.acc) && d <= e.d
    decreases n, 0
  {
    hide Solved, Within, Shape, Flow;
    IfWithin(g, n, b, acc, ends);
    IfMade(n, b, acc, ends);
    var x, y, e := Flown(n.c, b, acc, ends), Flow(n.t, n.blockTrue, map[], ends), Emits(n.c, d, ts, g.s, g.m);
    OptionShape(g, n.c, b, acc, ends, d, ts, loop);
    ShapeNext(g, e.d, x.cur, x.acc, n.blockTrue);
    EmitShape(g, n.t, n.blockTrue, map[], ends, e.d, ts, loop);
    ShapeNext(g, Emit(n.t, e.d, ts, g.s, g.m).d, y.cur, y.acc, n.junction);
    ShapeMerge(g, n.junction, n.blockExit);
  }

  /** In a loop: from before it to its head, and from there to its end. */
  lemma LoopShape(g: Scope, n: Node, b: nat, acc: Firsts, ends: Ends, d: set<nat>, ts: Targets, loop: bool)
    requires n.While? && Solved(g) && Within(g, Flow(n, b, acc, ends)) && Formed(n, g.m, loop) && Shape(g, d, b, acc)
    ensures var h := Merge(g.s, n.junctionCondition, g.m);
      var x, e := Flown(n.c, n.blockCondition, map[], ends), Emits(n.c, h, ts, g.s, g.m);
      && d <= h <= e.d <= Merge(g.s, n.junctionExit, g.m) && Shape(g, h, n.blockCondition, map[])
      && Shape(g, e.d, x.cur, x.acc) && Shape(g, e.d, n.blockBody, map[])
    decreases n, 0
  {
    hide Solved, Within, Shape, Flow;
    WhileWithin(g, n, b, acc, ends);
    var h, x := Merge(g.s, n.junctionCondition, g.m), Flown(n.c, n.blockCondition, map[], ends);
    ShapeNext(g, d, b, acc, n.junctionCondition);
    ShapeMerge(g, n.junctionCondition, n.blockCondition);
    OptionShape(g, n.c, n.blockCondition, map[], ends, h, ts, loop);
    ShapeNext(g, Emits(n.c, h, ts, g.s, g.m).d, x.cur, x.acc, n.junctionExit);
    ShapeNext(g, Emits(n.c, h, ts, g.s, g.m).d, x.cur, x.acc, n.blockBody);
  }

  lemma WhileShape(g: Scope, n: Node, b: nat, acc: Firsts, ends: Ends, d: set<nat>, ts: Targets, loop: bool)
    requires n.While? && Solved(g) && Within(g, Flow(n, b, acc, ends)) && Formed(n, g.m, loop) && Shape(g, d, b, acc)
    ensures var o, e := Flow(n, b, acc, ends), Emit(n, d, ts, g.s, g.m);
      Shape(g, e.d, o.cur, o.acc) && d <= e.d
    decreases n, 1
  {
    hide Solved, Within, Shape, Flow;
    WhileWithin(g, n, b, acc, ends);
    WhileMade(n, b, acc, ends);
    LoopShape(g, n, b, acc, ends, d, ts, loop);
    ShapeMerge(g, n.junctionExit, n.blockExit);
  }

  lemma StepShape(g: Scope, n: Node, b: nat, acc: Firsts, ends: Ends, d: set<nat>, ts: Targets, loop: bool)
    requires n.For? && Solved(g) && Within(g, Flow(n, b, acc, ends)) && Formed(n, g.m, loop) && Shape(g, d, b, acc)
    ensures var w, h := Emit(n.init, d, ts, g.s, g.m), Merge(g.s, n.junctionCondition, g.m);
      var u := Flow(n.init, b, acc, ends);
      var x, e := Flown(n.c, n.blockCondition, map[], ends), Emits(n.c, h, ts, g.s, g.m);
      && d <= w.d <= h <= e.d <= Merge(g.s, n.junctionExit, g.m) && Shape(g, w.d, u.cur, u.acc)
      && Shape(g, h, n.blockCondition, map[]) && Shape(g, e.d, x.cur, x.acc) && Shape(g, e.d, n.blockBody, map[])
    decreases n, 0
  {
    hide Solved, Within, Shape, Flow;
    ForWithin(g, n, b, acc, ends);
    var h, x := Merge(g.s, n.junctionCondition, g.m), Flown(n.c, n.blockCondition, map[], ends);
    EmitShape(g, n.init, b, acc, ends, d, ts, loop);
    var w, u := Emit(n.init, d, ts, g.s, g.m), Flow(n.init, b, acc, ends);
    ShapeNext(g, w.d, u.cur, u.acc, n.junctionCondition);
    ShapeMerge(g, n.junctionCondition, n.blockCondition);
    OptionShape(g, n.c, n.blockCondition, map[], ends, h, ts, loop);
    ShapeNext(g, Emits(n.c, h, ts, g.s, g.m).d, x.cur, x.acc, n.junctionExit);
    ShapeNext(g, Emits(n.c, h, ts, g.s, g.m).d, x.cur, x.acc, n.blockBody);
  }

  lemma ForShape(g: Scope, n: Node, b: nat, acc: Firsts, ends: Ends, d: set<nat>, ts: Targets, loop: bool)
    requires n.For? && Solved(g) && Within(g, Flow(n, b, acc, ends)) && Formed(n, g.m, loop) && Shape(g, d, b, acc)
    ensures var o, e := Flow(n, b, acc, ends), Emit(n, d, ts, g.s, g.m);
      Shape(g, e.d, o.cur, o.acc) && d <= e.d
    decreases n, 1
  {
    hide Solved, Within, Shape, Flow;
    ForWithin(g, n, b, acc, ends);
    ForMade(n, b, acc, ends);
    StepShape(g, n, b, acc, ends, d, ts, loop);
    ShapeMerge(g, n.junctionExit, n.blockExit);
  }

  // ----- The code of a construct -----

  ghost function Branched(c: Option<Node>, code: Code, l: nat): Code {
    code + if c.Some? then [BRANCH(l)] else []
  }

  lemma IfText(n: Node, d: set<nat>, ts: Targets, s: Facts, m: nat)
    requires n.If?
    ensures var x := Emits(n.c, d, ts, s, m);
      var y, z := Emit(n.t, x.d, ts, s, m), Emit(n.f, x.d, ts, s, m);
      Emit(n, d, ts, s, m).code ==
        Branched(n.c, x.code, n.blockFalse) + y.code + Join(s, y.d, n.junction, m, 0)
        + [JUMP(n.blockExit), TARGET(n.blockFalse)] + z.code + Join(s, z.d, n.junction, m, 0) + [TARGET(n.blockExit)]
  {
  }

  lemma WhileText(n: Node, d: set<nat>, ts: Targets, s: Facts, m: nat)
    requires n.While?
    ensures var h := Merge(s, n.junctionCondition, m);
      var x := Emits(n.c, h, ts, s, m);
      var y := Emit(n.body, x.d, WhileTargets(n), s, m);
      Emit(n, d, ts, s, m).code ==
        Join(s, d, n.junctionCondition, m, 0) + [TARGET(n.blockCondition)] + Branched(n.c, x.code, n.junctionExit)
        + (y.code + [JUMP(n.blockCondition)]) + [TARGET(n.junctionExit)] + Join(s, y.d, n.junctionExit, m, 0) + [TARGET(n.blockExit)]
  {
  }

  /** The step, if there is one, and the jump back. */
  ghost function ForTail(n: Node, d: set<nat>, ts: Targets, s: Facts, m: nat): Code
    requires n.For?
  {
    (if n.next.Some? then [TARGET(n.blockNext)] + Emits(n.next, d, ts, s, m).code else []) + [JUMP(n.blockCondition)]
  }

  lemma ForText(n: Node, d: set<nat>, ts: Targets, s: Facts, m: nat)
    requires n.For?
    ensures var w, h := Emit(n.init, d, ts, s, m), Merge(s, n.junctionCondition, m);
      var x := Emits(n.c, h, ts, s, m);
      var y := Emit(n.body, x.d, ForTargets(n, ts), s, m);
      Emit(n, d, ts, s, m).code ==
        w.code + (Join(s, w.d, n.junctionCondition, m, 0) + [TARGET(n.blockCondition)] + Branched(n.c, x.code, n.junctionExit)
                  + (y.code + ForTail(n, y.d, ts, s, m)) + [TARGET(n.junctionExit)]
                  + Join(s, Emits(n.next, y.d, ts, s, m).d, n.junctionExit, m, 0) + [TARGET(n.blockExit)])
  {
    var w, h := Emit(n.init, d, ts, s, m), Merge(s, n.junctionCondition, m);
    var x := Emits(n.c, h, ts, s, m);
    var y := Emit(n.body, x.d, ForTargets(n, ts), s, m);
    var z := Emits(n.next, y.d, ts, s, m);
    ForSplit(w.code, Join(s, w.d, n.junctionCondition, m, 0), [TARGET(n.blockCondition)], x.code,
             if n.c.Some? then [BRANCH(n.junctionExit)] else [], y.code,
             if n.next.Some? then [TARGET(n.blockNext)] + z.code else [], JUMP(n.blockCondition), TARGET(n.junctionExit),
             Join(s, z.d, n.junctionExit, m, 0), [TARGET(n.blockExit)]);
  }

  lemma ForSplit(w: Code, j0: Code, t0: Code, x: Code, r: Code, y: Code, z: Code, back: Instruction, exit: Instruction,
                 j1: Code, t1: Code)
    ensures w + j0 + t0 + x + r + y + z + [back, exit] + j1 + t1 ==
            w + (j0 + t0 + (x + r) + (y + (z + [back])) + [exit] + j1 + t1)
  {
  }

  /** What is taken for initialised after a construct. */
  lemma EmitMerges(n: Node, d: set<nat>, ts: Targets, s: Facts, m: nat)
    ensures n.If? ==> Emit(n, d, ts, s, m).d == Merge(s, n.junction, m)
    ensures n.While? || n.For? ==> Emit(n, d, ts, s, m).d == Merge(s, n.junctionExit, m)
  {
  }
}
