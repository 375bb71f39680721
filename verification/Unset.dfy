/** A variable that has not been set: along which ways it stays so, and where it may
    be read. */
module Unset {
  import opened Options
  import opened Initialising
  import opened Flowing

  /** How a node may be left by a variable that has neither been accessed nor cleared:
      at its end, by a jump out of a loop, or to its next turn; whether it may be read
      on the way; and whether it may be called, or come to the step of a loop by
      `continue` and be read there. */
  datatype Ways = Ways(end: bool, onBreak: bool, onContinue: bool, read: bool, risk: bool)

  const ALONG := Ways(true, false, false, false, false)
  const NONE := Ways(false, false, false, false, false)

  function Through(x: Ways, y: Ways): Ways {
    Ways(x.end && y.end, x.onBreak || (x.end && y.onBreak), x.onContinue || (x.end && y.onContinue),
         x.read || (x.end && y.read), x.risk || (x.end && y.risk))
  }

  function Either(x: Ways, y: Ways): Ways {
    Ways(x.end || y.end, x.onBreak || y.onBreak, x.onContinue || y.onContinue, x.read || y.read, x.risk || y.risk)
  }

  /** A join clears the variable. */
  predicate Cleared(s: Facts, d: set<nat>, j: nat, i: nat) {
    i !in d && s.used(j, i) && s.entered(j, i)
  }

  /** A join at the end. */
  function Joining(x: Ways, s: Facts, d: set<nat>, j: nat, i: nat): Ways {
    x.(end := x.end && !Cleared(s, d, j, i))
  }

  /** A read at the end: by a call it is a risk. */
  function Reading(x: Ways, call: bool): Ways {
    x.(read := x.read || x.end, risk := x.risk || (call && x.end))
  }

  function Breaking(x: Ways, s: Facts, d: set<nat>, j: nat, i: nat): Ways {
    x.(end := false, onBreak := x.onBreak || (x.end && !Cleared(s, d, j, i)))
  }

  /** The turns of a loop with the body `y`: it is left at the condition, if there is
      one, by `out`, or by a jump. */
  function Turning(y: Ways, out: bool): Ways {
    Ways(out || y.onBreak, false, false, y.read, y.risk)
  }

  /** The same with the step `z`. */
  function Stepping(y: Ways, z: Ways, out: bool): Ways {
    var steps := y.end || y.onContinue;
    Ways(out || y.onBreak, steps && z.onBreak, steps && z.onContinue, y.read || (steps && z.read),
         y.risk || (steps && z.risk) || (y.onContinue && z.read))
  }

  /** A branch that is taken if there is a condition. */
  function Else(conditional: bool, z: Ways): Ways {
    if conditional then z else NONE
  }

  /** The ways of the variable `i` through a node that is emitted with `d`. */
  function Raw(n: Node, i: nat, d: set<nat>, ts: Targets, s: Facts, m: nat): Ways
    decreases n
  {
    match n
    case Skip => ALONG
    case Access(k, put) => if k != i then ALONG else if put || i !in d then NONE else ALONG.(read := true)
    case Operate(k, call, rest) =>
      var x := Raw(rest, i, if call then d else d + {k}, ts, s, m);
      if k != i then x else if !call && i !in d then NONE else Reading(x, call)
    case Then(a, b) => Through(Raw(a, i, d, ts, s, m), Raw(b, i, Emit(a, d, ts, s, m).d, ts, s, m))
    case If(c, t, f, bt, bf, j, be) =>
      var e := if c.Some? then Emit(c.value, d, ts, s, m).d else d;
      var x := if c.Some? then Raw(c.value, i, d, ts, s, m) else ALONG;
      Through(x, Either(Joining(Raw(t, i, e, ts, s, m), s, Emit(t, e, ts, s, m).d, j, i),
                        Else(c.Some?, Joining(Raw(f, i, e, ts, s, m), s, Emit(f, e, ts, s, m).d, j, i))))
    case While(c, body, jc, bc, bb, jx, be) =>
      var h, inner := Merge(s, jc, m), Targets(be, jx, bc);
      var e := if c.Some? then Emit(c.value, h, ts, s, m).d else h;
      var x := if c.Some? then Raw(c.value, i, h, ts, s, m) else ALONG;
      var out := c.Some? && !Cleared(s, Emit(body, e, inner, s, m).d, jx, i);
      Through(Joining(ALONG, s, d, jc, i), Through(x, Turning(Raw(body, i, e, inner, s, m), out)))
    case For(init, c, next, body, jc, bc, bb, jn, bn, jx, be) =>
      var h, inner := Merge(s, jc, m), Targets(be, jx, if next.Some? then bn else bc);
      var e := if c.Some? then Emit(c.value, h, ts, s, m).d else h;
      var x := if c.Some? then Raw(c.value, i, h, ts, s, m) else ALONG;
      var f := Emit(body, e, inner, s, m).d;
      var z := if next.Some? then Raw(next.value, i, f, ts, s, m) else ALONG;
      var out := c.Some? && !Cleared(s, if next.Some? then Emit(next.value, f, ts, s, m).d else f, jx, i);
      Through(Joining(Raw(init, i, d, ts, s, m), s, Emit(init, d, ts, s, m).d, jc, i),
              Through(x, Stepping(Raw(body, i, e, inner, s, m), z, out)))
    case Break(e) => Breaking(Raw(e, i, d, ts, s, m), s, Emit(e, d, ts, s, m).d, ts.breakJunction, i)
    case Continue => Ways(false, false, true, false, false)
    case Return(e) => Raw(e, i, d, ts, s, m).(end := false)
  }

  ghost function Raws(c: Option<Node>, i: nat, d: set<nat>, ts: Targets, s: Facts, m: nat): Ways {
    if c.Some? then Raw(c.value, i, d, ts, s, m) else ALONG
  }

  // ----- One construct at a time -----

  lemma IfRaw(n: Node, i: nat, d: set<nat>, ts: Targets, s: Facts, m: nat)
    requires n.If?
    ensures var e := Emits(n.c, d, ts, s, m).d;
      Raw(n, i, d, ts, s, m) ==
      Through(Raws(n.c, i, d, ts, s, m),
              Either(Joining(Raw(n.t, i, e, ts, s, m), s, Emit(n.t, e, ts, s, m).d, n.junction, i),
                     Else(n.c.Some?, Joining(Raw(n.f, i, e, ts, s, m), s, Emit(n.f, e, ts, s, m).d, n.junction, i))))
  {
    hide Through, Either, Joining, Else;
  }

  lemma WhileRaw(n: Node, i: nat, d: set<nat>, ts: Targets, s: Facts, m: nat)
    requires n.While?
    ensures var h := Merge(s, n.junctionCondition, m);
      var e := Emits(n.c, h, ts, s, m).d;
      var f := Emit(n.body, e, WhileTargets(n), s, m).d;
      Raw(n, i, d, ts, s, m) ==
      Through(Joining(ALONG, s, d, n.junctionCondition, i),
              Through(Raws(n.c, i, h, ts, s, m),
                      Turning(Raw(n.body, i, e, WhileTargets(n), s, m), n.c.Some? && !Cleared(s, f, n.junctionExit, i))))
  {
    hide Through, Joining, Turning, Cleared;
  }

  lemma ForRaw(n: Node, i: nat, d: set<nat>, ts: Targets, s: Facts, m: nat)
    requires n.For?
    ensures var h := Merge(s, n.junctionCondition, m);
      var e := Emits(n.c, h, ts, s, m).d;
      var f := Emit(n.body, e, ForTargets(n, ts), s, m).d;
      Raw(n, i, d, ts, s, m) ==
      Through(Joining(Raw(n.init, i, d, ts, s, m), s, Emit(n.init, d, ts, s, m).d, n.junctionCondition, i),
              Through(Raws(n.c, i, h, ts, s, m),
                      Stepping(Raw(n.body, i, e, ForTargets(n, ts), s, m), Raws(n.next, i, f, ts, s, m),
                               n.c.Some? && !Cleared(s, Emits(n.next, f, ts, s, m).d, n.junctionExit, i))))
  {
    hide Through, Joining, Stepping, Cleared;
  }

  /** What is at risk is read. */
  lemma {:induction false} RiskRead(n: Node, i: nat, d: set<nat>, ts: Targets, s: Facts, m: nat)
    ensures Raw(n, i, d, ts, s, m).risk ==> Raw(n, i, d, ts, s, m).read
    decreases n
  {
    match n
    case Skip =>
    case Access(_, _) =>
    case Continue =>
    case Operate(k, call, rest) => RiskRead(rest, i, if call then d else d + {k}, ts, s, m);
    case Then(a, b) =>
      RiskRead(a, i, d, ts, s, m);
      RiskRead(b, i, Emit(a, d, ts, s, m).d, ts, s, m);
    case If(c, t, f, _, _, _, _) =>
      hide Raw, Emit;
      IfRaw(n, i, d, ts, s, m);
      var e := Emits(c, d, ts, s, m).d;
      if c.Some? {
        RiskRead(c.value, i, d, ts, s, m);
      }
      RiskRead(t, i, e, ts, s, m);
      RiskRead(f, i, e, ts, s, m);
    case While(c, body, _, _, _, _, _) =>
      hide Raw, Emit;
      WhileRaw(n, i, d, ts, s, m);
      var h := Merge(s, n.junctionCondition, m);
      if c.Some? {
        RiskRead(c.value, i, h, ts, s, m);
      }
      RiskRead(body, i, Emits(c, h, ts, s, m).d, WhileTargets(n), s, m);
    case For(init, c, next, body, _, _, _, _, _, _, _) =>
      hide Raw, Emit;
      ForRaw(n, i, d, ts, s, m);
      var h := Merge(s, n.junctionCondition, m);
      var e := Emits(c, h, ts, s, m).d;
      RiskRead(init, i, d, ts, s, m);
      if c.Some? {
        RiskRead(c.value, i, h, ts, s, m);
      }
      RiskRead(body, i, e, ForTargets(n, ts), s, m);
      if next.Some? {
        RiskRead(next.value, i, Emit(body, e, ForTargets(n, ts), s, m).d, ts, s, m);
      }
    case Break(e) => RiskRead(e, i, d, ts, s, m);
    case Return(e) => RiskRead(e, i, d, ts, s, m);
  }

  // ----- What is held is not raw -----

  /** What is taken for initialised has been accessed in this block or is not used from
      it on, as long as it is raw. */
  ghost predicate Held(g: Scope, i: nat, d: set<nat>, b: nat, acc: Firsts) {
    i in d && (i in acc || g.s.used(b, i))
  }

  /** Across an edge nothing becomes held. */
  lemma HeldNext(g: Scope, i: nat, d: set<nat>, b: nat, acc: Firsts, q: nat)
    requires Solved(g) && Edge(g, b, acc, q) && !Held(g, i, d, b, acc)
    ensures !Held(g, i, d, q, map[])
  {
    SolvesEdge(g.s, g.edges, g.done, g.gets, b, acc, q);
  }

  /** Nor at a junction, unless the join has cleared it. */
  lemma HeldMerge(g: Scope, i: nat, d: set<nat>, b: nat, acc: Firsts, j: nat)
    requires Solved(g) && Edge(g, b, acc, j) && !Held(g, i, d, b, acc) && !Cleared(g.s, d, j, i)
    ensures !Held(g, i, Merge(g.s, j, g.m), j, map[])
  {
    HeldNext(g, i, d, b, acc, j);
  }

  lemma HeldBlock(g: Scope, i: nat, d: set<nat>, j: nat, q: nat)
    requires Solved(g) && Edge(g, j, map[], q) && !Held(g, i, d, j, map[])
    ensures !Held(g, i, d, q, map[])
  {
    HeldNext(g, i, d, j, map[], q);
  }

  // ----- Jumps out of loops -----

  /** In a loop all through which `floor` is taken for initialised, none of it that is
      raw is used after the loop; `end` is the last block of the node. */
  ghost predicate Lax(g: Scope, i: nat, ends: Ends, loop: bool, floor: set<nat>, end: nat, acc: Firsts) {
    loop ==> (i in floor ==> !g.s.used(ends.onBreak, i)) && (Left(g.s, end, acc, i) ==> i in floor)
  }

  /** Where a node is emitted. */
  ghost predicate Ground(g: Scope, n: Node, b: nat, acc: Firsts, ends: Ends, d: set<nat>, ts: Targets, loop: bool) {
    && Solved(g) && Within(g, Flow(n, b, acc, ends)) && Formed(n, g.m, loop) && Shape(g, d, b, acc)
    && (loop ==> ts.breakJunction == ends.onBreak)
  }

  ghost predicate LaxEnd(g: Scope, i: nat, n: Node, b: nat, acc: Firsts, ends: Ends, loop: bool, floor: set<nat>) {
    var o := Flow(n, b, acc, ends);
    i < g.m && Lax(g, i, ends, loop, floor, o.cur, o.acc)
  }

  lemma LaxBack(g: Scope, i: nat, ends: Ends, loop: bool, floor: set<nat>, p: nat, acc: Firsts, q: nat, acc': Firsts)
    requires Lax(g, i, ends, loop, floor, q, acc') && (Left(g.s, p, acc, i) ==> Left(g.s, q, acc', i))
    ensures Lax(g, i, ends, loop, floor, p, acc)
  {
  }

  // The parts of a construct.

  lemma ThenGround(g: Scope, n: Node, b: nat, acc: Firsts, ends: Ends, d: set<nat>, ts: Targets, loop: bool, i: nat, floor: set<nat>)
    requires n.Then? && Ground(g, n, b, acc, ends, d, ts, loop)
    ensures var x, e := Flow(n.a, b, acc, ends), Emit(n.a, d, ts, g.s, g.m);
      && Ground(g, n.a, b, acc, ends, d, ts, loop) && Ground(g, n.b, x.cur, x.acc, ends, e.d, ts, loop)
      && (LaxEnd(g, i, n, b, acc, ends, loop, floor) ==>
            LaxEnd(g, i, n.a, b, acc, ends, loop, floor) && LaxEnd(g, i, n.b, x.cur, x.acc, ends, loop, floor))
  {
    hide Solved, Within, Shape, Lax, Left;
    ThenWithin(g, n, b, acc, ends);
    EmitShape(g, n.a, b, acc, ends, d, ts, loop);
    var x := Flow(n.a, b, acc, ends);
    var y := Flow(n.b, x.cur, x.acc, ends);
    if Left(g.s, x.cur, x.acc, i) {
      FlowGrows(g, n.b, x.cur, x.acc, ends, i);
    }
    if LaxEnd(g, i, n, b, acc, ends, loop, floor) {
      LaxBack(g, i, ends, loop, floor, x.cur, x.acc, y.cur, y.acc);
    }
  }

  ghost predicate Founded(g: Scope, c: Option<Node>, b: nat, acc: Firsts, ends: Ends, d: set<nat>, ts: Targets, loop: bool) {
    && Shape(g, d, b, acc) && Within(g, Flown(c, b, acc, ends))
    && (c.Some? ==> Ground(g, c.value, b, acc, ends, d, ts, loop))
  }

  ghost predicate OptionGround(g: Scope, c: Option<Node>, b: nat, acc: Firsts, ends: Ends, d: set<nat>, ts: Targets, loop: bool,
                               i: nat, floor: set<nat>)
  {
    Founded(g, c, b, acc, ends, d, ts, loop) && (c.Some? ==> LaxEnd(g, i, c.value, b, acc, ends, loop, floor))
  }

  lemma IfGround(g: Scope, n: Node, b: nat, acc: Firsts, ends: Ends, d: set<nat>, ts: Targets, loop: bool, i: nat, floor: set<nat>)
    requires n.If? && Ground(g, n, b, acc, ends, d, ts, loop)
    ensures var e := Emits(n.c, d, ts, g.s, g.m).d;
      && Founded(g, n.c, b, acc, ends, d, ts, loop) && Ground(g, n.t, n.blockTrue, map[], ends, e, ts, loop)
      && Ground(g, n.f, n.blockFalse, map[], ends, e, ts, loop)
    ensures LaxEnd(g, i, n, b, acc, ends, loop, floor) ==>
      && OptionGround(g, n.c, b, acc, ends, d, ts, loop, i, floor) && LaxEnd(g, i, n.t, n.blockTrue, map[], ends, loop, floor)
      && LaxEnd(g, i, n.f, n.blockFalse, map[], ends, loop, floor)
  {
    hide Solved, Within, Shape, Lax, Left, Flow;
    IfWithin(g, n, b, acc, ends);
    IfMade(n, b, acc, ends);
    var x, y, z := Flown(n.c, b, acc, ends), Flow(n.t, n.blockTrue, map[], ends), Flow(n.f, n.blockFalse, map[], ends);
    OptionShape(g, n.c, b, acc, ends, d, ts, loop);
    var e := Emits(n.c, d, ts, g.s, g.m).d;
    ShapeNext(g, e, x.cur, x.acc, n.blockTrue);
    ShapeNext(g, e, x.cur, x.acc, n.blockFalse);
    if Left(g.s, n.junction, map[], i) {
      EdgeGrows(g, n.junction, map[], n.blockExit, i);
    }
    if Left(g.s, y.cur, y.acc, i) {
      EdgeGrows(g, y.cur, y.acc, n.junction, i);
    }
    if Left(g.s, z.cur, z.acc, i) {
      EdgeGrows(g, z.cur, z.acc, n.junction, i);
    }
    if Left(g.s, x.cur, x.acc, i) {
      EdgeGrows(g, x.cur, x.acc, n.blockTrue, i);
      FlowGrows(g, n.t, n.blockTrue, map[], ends, i);
    }
    if LaxEnd(g, i, n, b, acc, ends, loop, floor) {
      LaxBack(g, i, ends, loop, floor, x.cur, x.acc, n.blockExit, map[]);
      LaxBack(g, i, ends, loop, floor, y.cur, y.acc, n.blockExit, map[]);
      LaxBack(g, i, ends, loop, floor, z.cur, z.acc, n.blockExit, map[]);
    }
  }

  /** The condition of a loop, as seen from around it. */
  lemma WhileGround(g: Scope, n: Node, b: nat, acc: Firsts, ends: Ends, d: set<nat>, ts: Targets, loop: bool, i: nat, floor: set<nat>)
    requires n.While? && Ground(g, n, b, acc, ends, d, ts, loop)
    ensures var h := Merge(g.s, n.junctionCondition, g.m);
      var e := Emits(n.c, h, ts, g.s, g.m).d;
      && Founded(g, n.c, n.blockCondition, map[], ends, h, ts, loop)
      && Ground(g, n.body, n.blockBody, map[], WhileEnds(n, ends), e, WhileTargets(n), true)
      && (LaxEnd(g, i, n, b, acc, ends, loop, floor) ==>
            OptionGround(g, n.c, n.blockCondition, map[], ends, h, ts, loop, i, floor))
  {
    hide Solved, Within, Shape, Lax, Left, Flow;
    WhileWithin(g, n, b, acc, ends);
    WhileMade(n, b, acc, ends);
    LoopShape(g, n, b, acc, ends, d, ts, loop);
    var x := Flown(n.c, n.blockCondition, map[], ends);
    if Left(g.s, x.cur, x.acc, i) {
      EdgeGrows(g, x.cur, x.acc, n.junctionExit, i);
      EdgeGrows(g, n.junctionExit, map[], n.blockExit, i);
    }
    if LaxEnd(g, i, n, b, acc, ends, loop, floor) {
      LaxBack(g, i, ends, loop, floor, x.cur, x.acc, n.blockExit, map[]);
    }
  }

  /** All that is accessed in the body gets back to the condition. */
  lemma WhileBack(g: Scope, n: Node, b: nat, acc: Firsts, ends: Ends, i: nat)
    requires n.While? && Solved(g) && Within(g, Flow(n, b, acc, ends)) && i < g.m
    ensures var y := Flow(n.body, n.blockBody, map[], WhileEnds(n, ends));
      Left(g.s, y.cur, y.acc, i) ==> i in Merge(g.s, n.junctionCondition, g.m)
  {
    hide Solved, Within, Flow;
    WhileWithin(g, n, b, acc, ends);
    var y := Flow(n.body, n.blockBody, map[], WhileEnds(n, ends));
    if Left(g.s, y.cur, y.acc, i) {
      EdgeGrows(g, y.cur, y.acc, n.junctionCondition, i);
    }
  }

  /** From the condition of a loop with a step to its end. */
  lemma HeadGrows(g: Scope, n: Node, b: nat, acc: Firsts, ends: Ends, i: nat)
    requires n.For? && Solved(g) && Within(g, Flow(n, b, acc, ends)) && Left(g.s, n.junctionCondition, map[], i)
    ensures Left(g.s, n.blockExit, map[], i)
  {
    hide Solved, Within, Flow, Left;
    ForWithin(g, n, b, acc, ends);
    var x := Flown(n.c, n.blockCondition, map[], ends);
    EdgeGrows(g, n.junctionCondition, map[], n.blockCondition, i);
    OptionGrows(g, n.c, n.blockCondition, map[], ends, i);
    EdgeGrows(g, x.cur, x.acc, n.junctionExit, i);
    EdgeGrows(g, n.junctionExit, map[], n.blockExit, i);
  }

  lemma ForGround(g: Scope, n: Node, b: nat, acc: Firsts, ends: Ends, d: set<nat>, ts: Targets, loop: bool, i: nat, floor: set<nat>)
    requires n.For? && Ground(g, n, b, acc, ends, d, ts, loop)
    ensures var h := Merge(g.s, n.junctionCondition, g.m);
      var e := Emits(n.c, h, ts, g.s, g.m).d;
      var f := Emit(n.body, e, ForTargets(n, ts), g.s, g.m).d;
      && Ground(g, n.init, b, acc, ends, d, ts, loop) && Founded(g, n.c, n.blockCondition, map[], ends, h, ts, loop)
      && Ground(g, n.body, n.blockBody, map[], ForEnds(n, ends), e, ForTargets(n, ts), true)
      && Founded(g, n.next, n.blockNext, map[], ends, f, ts, loop)
      && (LaxEnd(g, i, n, b, acc, ends, loop, floor) ==>
            && LaxEnd(g, i, n.init, b, acc, ends, loop, floor)
            && OptionGround(g, n.c, n.blockCondition, map[], ends, h, ts, loop, i, floor)
            && OptionGround(g, n.next, n.blockNext, map[], ends, f, ts, loop, i, floor))
  {
    hide Solved, Within, Shape, Lax, Left, Flow;
    ForWithin(g, n, b, acc, ends);
    ForMade(n, b, acc, ends);
    StepShape(g, n, b, acc, ends, d, ts, loop);
    var w, x := Flow(n.init, b, acc, ends), Flown(n.c, n.blockCondition, map[], ends);
    var y, z := Flow(n.body, n.blockBody, map[], ForEnds(n, ends)), Flown(n.next, n.blockNext, map[], ends);
    var e := Emits(n.c, Merge(g.s, n.junctionCondition, g.m), ts, g.s, g.m).d;
    EmitShape(g, n.body, n.blockBody, map[], ForEnds(n, ends), e, ForTargets(n, ts), true);
    var f := Emit(n.body, e, ForTargets(n, ts), g.s, g.m).d;
    ShapeNext(g, f, y.cur, y.acc, n.junctionNext);
    ShapeNext(g, f, n.junctionNext, map[], n.blockNext);
    if Left(g.s, w.cur, w.acc, i) {
      EdgeGrows(g, w.cur, w.acc, n.junctionCondition, i);
      HeadGrows(g, n, b, acc, ends, i);
    }
    if Left(g.s, z.cur, z.acc, i) {
      EdgeGrows(g, z.cur, z.acc, n.junctionCondition, i);
      HeadGrows(g, n, b, acc, ends, i);
    }
    if Left(g.s, x.cur, x.acc, i) {
      EdgeGrows(g, x.cur, x.acc, n.junctionExit, i);
      EdgeGrows(g, n.junctionExit, map[], n.blockExit, i);
    }
    if LaxEnd(g, i, n, b, acc, ends, loop, floor) {
      LaxBack(g, i, ends, loop, floor, w.cur, w.acc, n.blockExit, map[]);
      LaxBack(g, i, ends, loop, floor, x.cur, x.acc, n.blockExit, map[]);
      LaxBack(g, i, ends, loop, floor, z.cur, z.acc, n.blockExit, map[]);
    }
  }

  lemma ForBack(g: Scope, n: Node, b: nat, acc: Firsts, ends: Ends, i: nat)
    requires n.For? && Solved(g) && Within(g, Flow(n, b, acc, ends)) && i < g.m
    ensures var y, z := Flow(n.body, n.blockBody, map[], ForEnds(n, ends)), Flown(n.next, n.blockNext, map[], ends);
      Left(g.s, y.cur, y.acc, i) || Left(g.s, z.cur, z.acc, i) ==> i in Merge(g.s, n.junctionCondition, g.m)
  {
    hide Solved, Within, Flow;
    ForWithin(g, n, b, acc, ends);
    var y, z := Flow(n.body, n.blockBody, map[], ForEnds(n, ends)), Flown(n.next, n.blockNext, map[], ends);
    if Left(g.s, y.cur, y.acc, i) {
      EdgeGrows(g, y.cur, y.acc, n.junctionNext, i);
      EdgeGrows(g, n.junctionNext, map[], n.blockNext, i);
      OptionGrows(g, n.next, n.blockNext, map[], ends, i);
    }
    if Left(g.s, z.cur, z.acc, i) {
      EdgeGrows(g, z.cur, z.acc, n.junctionCondition, i);
    }
  }

  lemma OperateGround(g: Scope, n: Node, b: nat, acc: Firsts, ends: Ends, d: set<nat>, ts: Targets, loop: bool, i: nat, floor: set<nat>)
    requires n.Operate? && Ground(g, n, b, acc, ends, d, ts, loop)
    ensures var acc' := Use(acc, n.i, false);
      && Ground(g, n.rest, b, acc', ends, if n.call then d else d + {n.i}, ts, loop)
      && (LaxEnd(g, i, n, b, acc, ends, loop, floor) ==> LaxEnd(g, i, n.rest, b, acc', ends, loop, floor))
  {
    hide Solved, Within, Shape, Lax;
    OperateWithin(g, n, b, acc, ends);
    OperateShape(g, d, b, acc, n.i, n.call);
  }

  lemma JumpGround(g: Scope, n: Node, b: nat, acc: Firsts, ends: Ends, d: set<nat>, ts: Targets, loop: bool, i: nat, floor: set<nat>)
    requires (n.Break? || n.Return?) && Ground(g, n, b, acc, ends, d, ts, loop)
    ensures Ground(g, n.e, b, acc, ends, d, ts, loop)
    ensures LaxEnd(g, i, n, b, acc, ends, loop, floor) ==> LaxEnd(g, i, n.e, b, acc, ends, loop, floor)
  {
    hide Solved, Within, Shape, Lax;
    JumpWithin(g, n, b, acc, ends);
  }

  /** What a jump out of the loop leaves raw is not taken for initialised there, or is
      not used. */
  ghost predicate Missed(g: Scope, i: nat, j: nat) {
    !g.s.entered(j, i) || !g.s.used(j, i)
  }

  lemma {:induction false} BreakMisses(g: Scope, n: Node, b: nat, acc: Firsts, ends: Ends, d: set<nat>, ts: Targets, loop: bool,
                                       i: nat, floor: set<nat>)
    requires Ground(g, n, b, acc, ends, d, ts, loop) && LaxEnd(g, i, n, b, acc, ends, loop, floor) && loop
    ensures Raw(n, i, d, ts, g.s, g.m).onBreak ==> Missed(g, i, ends.onBreak)
    decreases n, 1
  {
    hide Ground, LaxEnd, Missed;
    match n
    case Skip =>
    case Access(_, _) =>
    case Continue =>
    case Operate(k, call, rest) =>
      OperateGround(g, n, b, acc, ends, d, ts, loop, i, floor);
      BreakMisses(g, rest, b, Use(acc, k, false), ends, if call then d else d + {k}, ts, loop, i, floor);
    case Then(_, _) =>
      ThenGround(g, n, b, acc, ends, d, ts, loop, i, floor);
      var x, e := Flow(n.a, b, acc, ends), Emit(n.a, d, ts, g.s, g.m);
      BreakMisses(g, n.a, b, acc, ends, d, ts, loop, i, floor);
      BreakMisses(g, n.b, x.cur, x.acc, ends, e.d, ts, loop, i, floor);
    case If(_, _, _, _, _, _, _) =>
      hide Raw, Emit;
      IfRaw(n, i, d, ts, g.s, g.m);
      IfGround(g, n, b, acc, ends, d, ts, loop, i, floor);
      var e := Emits(n.c, d, ts, g.s, g.m).d;
      OptionMisses(g, n.c, b, acc, ends, d, ts, loop, i, floor);
      BreakMisses(g, n.t, n.blockTrue, map[], ends, e, ts, loop, i, floor);
      BreakMisses(g, n.f, n.blockFalse, map[], ends, e, ts, loop, i, floor);
    case While(_, _, _, _, _, _, _) =>
      hide Raw, Emit;
      WhileRaw(n, i, d, ts, g.s, g.m);
      WhileGround(g, n, b, acc, ends, d, ts, loop, i, floor);
      OptionMisses(g, n.c, n.blockCondition, map[], ends, Merge(g.s, n.junctionCondition, g.m), ts, loop, i, floor);
    case For(_, _, _, _, _, _, _, _, _, _, _) =>
      hide Raw, Emit;
      ForRaw(n, i, d, ts, g.s, g.m);
      ForGround(g, n, b, acc, ends, d, ts, loop, i, floor);
      var h := Merge(g.s, n.junctionCondition, g.m);
      var f := Emit(n.body, Emits(n.c, h, ts, g.s, g.m).d, ForTargets(n, ts), g.s, g.m).d;
      BreakMisses(g, n.init, b, acc, ends, d, ts, loop, i, floor);
      OptionMisses(g, n.c, n.blockCondition, map[], ends, h, ts, loop, i, floor);
      OptionMisses(g, n.next, n.blockNext, map[], ends, f, ts, loop, i, floor);
    case Break(e) =>
      JumpGround(g, n, b, acc, ends, d, ts, loop, i, floor);
      BreakMisses(g, e, b, acc, ends, d, ts, loop, i, floor);
      BreakHere(g, n, b, acc, ends, d, ts, i, floor);
    case Return(e) =>
      JumpGround(g, n, b, acc, ends, d, ts, loop, i, floor);
      BreakMisses(g, e, b, acc, ends, d, ts, loop, i, floor);
  }

  lemma OptionMisses(g: Scope, c: Option<Node>, b: nat, acc: Firsts, ends: Ends, d: set<nat>, ts: Targets, loop: bool, i: nat,
                     floor: set<nat>)
    requires OptionGround(g, c, b, acc, ends, d, ts, loop, i, floor) && loop
    ensures Raws(c, i, d, ts, g.s, g.m).onBreak ==> Missed(g, i, ends.onBreak)
    decreases c, 2
  {
    if c.Some? {
      BreakMisses(g, c.value, b, acc, ends, d, ts, loop, i, floor);
    }
  }

  lemma BreakHere(g: Scope, n: Node, b: nat, acc: Firsts, ends: Ends, d: set<nat>, ts: Targets, i: nat, floor: set<nat>)
    requires n.Break? && Ground(g, n, b, acc, ends, d, ts, true) && LaxEnd(g, i, n, b, acc, ends, true, floor)
    ensures !Cleared(g.s, Emit(n.e, d, ts, g.s, g.m).d, ts.breakJunction, i) ==> Missed(g, i, ends.onBreak)
  {
    JumpWithin(g, n, b, acc, ends);
    EmitShape(g, n.e, b, acc, ends, d, ts, true);
    hide Flow, Emit, Solved, Within;
  }

  // ----- Reads -----

  /** Where the variable is raw when it comes to a node that it is not at risk in, it
      is not read in it, and not held after it. */
  ghost predicate Kept(g: Scope, n: Node, i: nat, d: set<nat>, ts: Targets, end: nat, acc: Firsts) {
    var r := Raw(n, i, d, ts, g.s, g.m);
    !r.read && (r.end ==> !Held(g, i, Emit(n, d, ts, g.s, g.m).d, end, acc))
  }

  ghost predicate KeptOption(g: Scope, c: Option<Node>, i: nat, d: set<nat>, ts: Targets, end: nat, acc: Firsts) {
    var r := Raws(c, i, d, ts, g.s, g.m);
    !r.read && (r.end ==> !Held(g, i, Emits(c, d, ts, g.s, g.m).d, end, acc))
  }

  lemma {:induction false} ReadRisk(g: Scope, n: Node, b: nat, acc: Firsts, ends: Ends, d: set<nat>, ts: Targets, loop: bool, i: nat,
                                    floor: set<nat>)
    requires Ground(g, n, b, acc, ends, d, ts, loop) && LaxEnd(g, i, n, b, acc, ends, loop, floor)
    requires !Held(g, i, d, b, acc) && !Raw(n, i, d, ts, g.s, g.m).risk
    ensures var o := Flow(n, b, acc, ends); Kept(g, n, i, d, ts, o.cur, o.acc)
    decreases n, 2
  {
    hide Ground, LaxEnd, Held;
    match n
    case Skip =>
    case Continue =>
    case Access(_, _) => AccessKept(g, n, b, acc, ends, d, ts, loop, i);
    case Operate(_, _, _) => OperateKept(g, n, b, acc, ends, d, ts, loop, i, floor);
    case Then(_, _) =>
      ThenGround(g, n, b, acc, ends, d, ts, loop, i, floor);
      var x, e := Flow(n.a, b, acc, ends), Emit(n.a, d, ts, g.s, g.m);
      ReadRisk(g, n.a, b, acc, ends, d, ts, loop, i, floor);
      if Raw(n.a, i, d, ts, g.s, g.m).end {
        ReadRisk(g, n.b, x.cur, x.acc, ends, e.d, ts, loop, i, floor);
      }
    case If(_, _, _, _, _, _, _) => IfKept(g, n, b, acc, ends, d, ts, loop, i, floor);
    case While(_, _, _, _, _, _, _) => WhileKept(g, n, b, acc, ends, d, ts, loop, i, floor);
    case For(_, _, _, _, _, _, _, _, _, _, _) => ForKept(g, n, b, acc, ends, d, ts, loop, i, floor);
    case Break(e) =>
      JumpGround(g, n, b, acc, ends, d, ts, loop, i, floor);
      ReadRisk(g, e, b, acc, ends, d, ts, loop, i, floor);
    case Return(e) =>
      JumpGround(g, n, b, acc, ends, d, ts, loop, i, floor);
      ReadRisk(g, e, b, acc, ends, d, ts, loop, i, floor);
  }

  lemma AccessKept(g: Scope, n: Node, b: nat, acc: Firsts, ends: Ends, d: set<nat>, ts: Targets, loop: bool, i: nat)
    requires n.Access? && Ground(g, n, b, acc, ends, d, ts, loop) && !Held(g, i, d, b, acc)
    ensures var o := Flow(n, b, acc, ends); Kept(g, n, i, d, ts, o.cur, o.acc)
  {
    if !n.put && n.i !in acc {
      assert [(b, n.i)][0] in g.gets;
    }
  }

  lemma OperateKept(g: Scope, n: Node, b: nat, acc: Firsts, ends: Ends, d: set<nat>, ts: Targets, loop: bool, i: nat, floor: set<nat>)
    requires n.Operate? && Ground(g, n, b, acc, ends, d, ts, loop) && LaxEnd(g, i, n, b, acc, ends, loop, floor)
    requires !Held(g, i, d, b, acc) && !Raw(n, i, d, ts, g.s, g.m).risk
    ensures var o := Flow(n, b, acc, ends); Kept(g, n, i, d, ts, o.cur, o.acc)
    decreases n, 1
  {
    hide LaxEnd, Solved, Within;
    OperateGround(g, n, b, acc, ends, d, ts, loop, i, floor);
    var acc', d' := Use(acc, n.i, false), if n.call then d else d + {n.i};
    OperateUsed(g, n, b, acc, ends, d, ts, loop);
    OperateWithin(g, n, b, acc, ends);
    if n.call || n.i != i {
      ReadRisk(g, n.rest, b, acc', ends, d', ts, loop, i, floor);
    }
  }

  lemma OperateUsed(g: Scope, n: Node, b: nat, acc: Firsts, ends: Ends, d: set<nat>, ts: Targets, loop: bool)
    requires n.Operate? && Ground(g, n, b, acc, ends, d, ts, loop)
    ensures n.i in acc || g.s.used(b, n.i)
  {
    OperateWithin(g, n, b, acc, ends);
  }

  lemma OptionKept(g: Scope, c: Option<Node>, b: nat, acc: Firsts, ends: Ends, d: set<nat>, ts: Targets, loop: bool, i: nat,
                   floor: set<nat>)
    requires OptionGround(g, c, b, acc, ends, d, ts, loop, i, floor) && !Held(g, i, d, b, acc) && !Raws(c, i, d, ts, g.s, g.m).risk
    ensures var o := Flown(c, b, acc, ends); KeptOption(g, c, i, d, ts, o.cur, o.acc)
    decreases c, 3
  {
    if c.Some? {
      ReadRisk(g, c.value, b, acc, ends, d, ts, loop, i, floor);
    }
  }

  lemma IfKept(g: Scope, n: Node, b: nat, acc: Firsts, ends: Ends, d: set<nat>, ts: Targets, loop: bool, i: nat, floor: set<nat>)
    requires n.If? && Ground(g, n, b, acc, ends, d, ts, loop) && LaxEnd(g, i, n, b, acc, ends, loop, floor)
    requires !Held(g, i, d, b, acc) && !Raw(n, i, d, ts, g.s, g.m).risk
    ensures var o := Flow(n, b, acc, ends); Kept(g, n, i, d, ts, o.cur, o.acc)
    decreases n, 1
  {
    GroundSolved(g, n, b, acc, ends, d, ts, loop);
    hide Ground, LaxEnd, Held, Flow, Raw, Cleared, Solved, Within, Shape;
    IfRaw(n, i, d, ts, g.s, g.m);
    IfGround(g, n, b, acc, ends, d, ts, loop, i, floor);
    IfWithin(g, n, b, acc, ends);
    IfMade(n, b, acc, ends);
    var x, y, z := Flown(n.c, b, acc, ends), Flow(n.t, n.blockTrue, map[], ends), Flow(n.f, n.blockFalse, map[], ends);
    var e := Emits(n.c, d, ts, g.s, g.m).d;
    OptionKept(g, n.c, b, acc, ends, d, ts, loop, i, floor);
    if Raws(n.c, i, d, ts, g.s, g.m).end {
      HeldNext(g, i, e, x.cur, x.acc, n.blockTrue);
      HeldNext(g, i, e, x.cur, x.acc, n.blockFalse);
      ReadRisk(g, n.t, n.blockTrue, map[], ends, e, ts, loop, i, floor);
      if n.c.Some? {
        ReadRisk(g, n.f, n.blockFalse, map[], ends, e, ts, loop, i, floor);
      }
      var dt, df := Emit(n.t, e, ts, g.s, g.m).d, Emit(n.f, e, ts, g.s, g.m).d;
      if Raw(n.t, i, e, ts, g.s, g.m).end && !Cleared(g.s, dt, n.junction, i) {
        HeldMerge(g, i, dt, y.cur, y.acc, n.junction);
        HeldBlock(g, i, Merge(g.s, n.junction, g.m), n.junction, n.blockExit);
      }
      if n.c.Some? && Raw(n.f, i, e, ts, g.s, g.m).end && !Cleared(g.s, df, n.junction, i) {
        HeldMerge(g, i, df, z.cur, z.acc, n.junction);
        HeldBlock(g, i, Merge(g.s, n.junction, g.m), n.junction, n.blockExit);
      }
    }
    EmitMerges(n, d, ts, g.s, g.m);
  }

  lemma GroundSolved(g: Scope, n: Node, b: nat, acc: Firsts, ends: Ends, d: set<nat>, ts: Targets, loop: bool)
    requires Ground(g, n, b, acc, ends, d, ts, loop)
    ensures Solved(g) && Within(g, Flow(n, b, acc, ends)) && Shape(g, d, b, acc) && Formed(n, g.m, loop)
  {
  }

  /** At the end of a loop: it has been left at the condition or by a jump. */
  lemma OutKept(g: Scope, i: nat, k: set<nat>, end: nat, acc: Firsts, jx: nat, be: nat, floor: set<nat>, out: bool, jump: bool)
    requires Solved(g) && Edge(g, jx, map[], be) && i < g.m && Shape(g, k, end, acc)
    requires (Left(g.s, end, acc, i) ==> i in floor) && (i in floor ==> !g.s.used(jx, i))
    requires (out ==> !Cleared(g.s, k, jx, i)) && (jump ==> Missed(g, i, jx))
    ensures out || jump ==> !Held(g, i, Merge(g.s, jx, g.m), be, map[])
  {
    if out || jump {
      HeldBlock(g, i, Merge(g.s, jx, g.m), jx, be);
    }
  }

  lemma WhileKept(g: Scope, n: Node, b: nat, acc: Firsts, ends: Ends, d: set<nat>, ts: Targets, loop: bool, i: nat, floor: set<nat>)
    requires n.While? && Ground(g, n, b, acc, ends, d, ts, loop) && LaxEnd(g, i, n, b, acc, ends, loop, floor)
    requires !Held(g, i, d, b, acc) && !Raw(n, i, d, ts, g.s, g.m).risk
    ensures var o := Flow(n, b, acc, ends); Kept(g, n, i, d, ts, o.cur, o.acc)
    decreases n, 1
  {
    GroundSolved(g, n, b, acc, ends, d, ts, loop);
    LaxBelow(g, i, n, b, acc, ends, loop, floor);
    hide Ground, LaxEnd, Held, Flow, Raw, Cleared, Solved, Within, Shape, Missed, Left;
    WhileRaw(n, i, d, ts, g.s, g.m);
    WhileGround(g, n, b, acc, ends, d, ts, loop, i, floor);
    WhileWithin(g, n, b, acc, ends);
    WhileMade(n, b, acc, ends);
    WhileBack(g, n, b, acc, ends, i);
    EmitMerges(n, d, ts, g.s, g.m);
    var h, jc, jx := Merge(g.s, n.junctionCondition, g.m), n.junctionCondition, n.junctionExit;
    var ends', x := WhileEnds(n, ends), Flown(n.c, n.blockCondition, map[], ends);
    var y, e := Flow(n.body, n.blockBody, map[], WhileEnds(n, ends)), Emits(n.c, h, ts, g.s, g.m).d;
    if !Cleared(g.s, d, jc, i) {
      HeldMerge(g, i, d, b, acc, jc);
      HeldBlock(g, i, h, jc, n.blockCondition);
      OptionKept(g, n.c, n.blockCondition, map[], ends, h, ts, loop, i, floor);
      if Raws(n.c, i, h, ts, g.s, g.m).end {
        HeldNext(g, i, e, x.cur, x.acc, jx);
        HeldNext(g, i, e, x.cur, x.acc, n.blockBody);
        LoopShape(g, n, b, acc, ends, d, ts, loop);
        BodyLax(g, i, n.body, n.blockBody, ends', e, h, jx);
        ReadRisk(g, n.body, n.blockBody, map[], ends', e, WhileTargets(n), true, i, h);
        BreakMisses(g, n.body, n.blockBody, map[], ends', e, WhileTargets(n), true, i, h);
        EmitShape(g, n.body, n.blockBody, map[], ends', e, WhileTargets(n), true);
        var f, r := Emit(n.body, e, WhileTargets(n), g.s, g.m).d, Raw(n.body, i, e, WhileTargets(n), g.s, g.m);
        NotUsed(g, i, h, e, jx);
        OutKept(g, i, f, y.cur, y.acc, jx, n.blockExit, h, n.c.Some? && !Cleared(g.s, f, jx, i), r.onBreak);
      }
    }
  }

  lemma LaxBelow(g: Scope, i: nat, n: Node, b: nat, acc: Firsts, ends: Ends, loop: bool, floor: set<nat>)
    requires LaxEnd(g, i, n, b, acc, ends, loop, floor)
    ensures i < g.m
  {
  }

  lemma NotUsed(g: Scope, i: nat, h: set<nat>, e: set<nat>, jx: nat)
    requires !Held(g, i, e, jx, map[]) && h <= e
    ensures i in h ==> !g.s.used(jx, i)
  {
  }

  lemma BodyLax(g: Scope, i: nat, body: Node, bb: nat, ends: Ends, e: set<nat>, h: set<nat>, jx: nat)
    requires !Held(g, i, e, jx, map[]) && h <= e && ends.onBreak == jx && i < g.m
    requires var y := Flow(body, bb, map[], ends); Left(g.s, y.cur, y.acc, i) ==> i in h
    ensures LaxEnd(g, i, body, bb, map[], ends, true, h)
  {
  }

  lemma ForKept(g: Scope, n: Node, b: nat, acc: Firsts, ends: Ends, d: set<nat>, ts: Targets, loop: bool, i: nat, floor: set<nat>)
    requires n.For? && Ground(g, n, b, acc, ends, d, ts, loop) && LaxEnd(g, i, n, b, acc, ends, loop, floor)
    requires !Held(g, i, d, b, acc) && !Raw(n, i, d, ts, g.s, g.m).risk
    ensures var o := Flow(n, b, acc, ends); Kept(g, n, i, d, ts, o.cur, o.acc)
    decreases n, 1
  {
    GroundSolved(g, n, b, acc, ends, d, ts, loop);
    LaxBelow(g, i, n, b, acc, ends, loop, floor);
    hide Ground, LaxEnd, Held, Flow, Raw, Cleared, Solved, Within, Shape, Missed, Left;
    ForRaw(n, i, d, ts, g.s, g.m);
    ForGround(g, n, b, acc, ends, d, ts, loop, i, floor);
    ForWithin(g, n, b, acc, ends);
    ForMade(n, b, acc, ends);
    EmitMerges(n, d, ts, g.s, g.m);
    var h, jc := Merge(g.s, n.junctionCondition, g.m), n.junctionCondition;
    var w, k := Flow(n.init, b, acc, ends), Emit(n.init, d, ts, g.s, g.m).d;
    ReadRisk(g, n.init, b, acc, ends, d, ts, loop, i, floor);
    if Raw(n.init, i, d, ts, g.s, g.m).end && !Cleared(g.s, k, jc, i) {
      HeldMerge(g, i, k, w.cur, w.acc, jc);
      HeldBlock(g, i, h, jc, n.blockCondition);
      OptionKept(g, n.c, n.blockCondition, map[], ends, h, ts, loop, i, floor);
      if Raws(n.c, i, h, ts, g.s, g.m).end {
        TurnKept(g, n, b, acc, ends, d, ts, loop, i, floor);
      }
    }
  }

  /** From the body of a loop with a step on. */
  lemma TurnKept(g: Scope, n: Node, b: nat, acc: Firsts, ends: Ends, d: set<nat>, ts: Targets, loop: bool, i: nat, floor: set<nat>)
    requires n.For? && Ground(g, n, b, acc, ends, d, ts, loop) && LaxEnd(g, i, n, b, acc, ends, loop, floor)
    requires var h := Merge(g.s, n.junctionCondition, g.m);
      var x, e := Flown(n.c, n.blockCondition, map[], ends), Emits(n.c, h, ts, g.s, g.m).d;
      !Held(g, i, e, x.cur, x.acc)
    requires var e := Emits(n.c, Merge(g.s, n.junctionCondition, g.m), ts, g.s, g.m).d;
      var f := Emit(n.body, e, ForTargets(n, ts), g.s, g.m).d;
      !Stepping(Raw(n.body, i, e, ForTargets(n, ts), g.s, g.m), Raws(n.next, i, f, ts, g.s, g.m), false).risk
    ensures var e := Emits(n.c, Merge(g.s, n.junctionCondition, g.m), ts, g.s, g.m).d;
      var f := Emit(n.body, e, ForTargets(n, ts), g.s, g.m).d;
      var r := Stepping(Raw(n.body, i, e, ForTargets(n, ts), g.s, g.m), Raws(n.next, i, f, ts, g.s, g.m),
                        n.c.Some? && !Cleared(g.s, Emits(n.next, f, ts, g.s, g.m).d, n.junctionExit, i));
      !r.read && (r.end ==> !Held(g, i, Merge(g.s, n.junctionExit, g.m), n.blockExit, map[]))
    decreases n, 0
  {
    GroundSolved(g, n, b, acc, ends, d, ts, loop);
    LaxBelow(g, i, n, b, acc, ends, loop, floor);
    hide Ground, LaxEnd, Held, Flow, Raw, Cleared, Solved, Within, Shape, Missed, Left;
    ForGround(g, n, b, acc, ends, d, ts, loop, i, floor);
    ForWithin(g, n, b, acc, ends);
    ForBack(g, n, b, acc, ends, i);
    StepShape(g, n, b, acc, ends, d, ts, loop);
    var h, jx := Merge(g.s, n.junctionCondition, g.m), n.junctionExit;
    var ends', x := ForEnds(n, ends), Flown(n.c, n.blockCondition, map[], ends);
    var y, z := Flow(n.body, n.blockBody, map[], ForEnds(n, ends)), Flown(n.next, n.blockNext, map[], ends);
    var e, ts' := Emits(n.c, h, ts, g.s, g.m).d, ForTargets(n, ts);
    var f, r := Emit(n.body, e, ts', g.s, g.m).d, Raw(n.body, i, e, ts', g.s, g.m);
    HeldNext(g, i, e, x.cur, x.acc, jx);
    HeldNext(g, i, e, x.cur, x.acc, n.blockBody);
    BodyLax(g, i, n.body, n.blockBody, ends', e, h, jx);
    ReadRisk(g, n.body, n.blockBody, map[], ends', e, ts', true, i, h);
    BreakMisses(g, n.body, n.blockBody, map[], ends', e, ts', true, i, h);
    if r.end {
      HeldNext(g, i, f, y.cur, y.acc, n.junctionNext);
      HeldBlock(g, i, f, n.junctionNext, n.blockNext);
      OptionKept(g, n.next, n.blockNext, map[], ends, f, ts, loop, i, floor);
    }
    StepEnd(g, n.next, n.blockNext, ends, f, ts, loop, i, floor);
    NotUsed(g, i, h, e, jx);
    var k := Emits(n.next, f, ts, g.s, g.m).d;
    OutKept(g, i, k, z.cur, z.acc, jx, n.blockExit, h, n.c.Some? && !Cleared(g.s, k, jx, i), r.onBreak);
  }

  lemma StepEnd(g: Scope, c: Option<Node>, b: nat, ends: Ends, d: set<nat>, ts: Targets, loop: bool, i: nat, floor: set<nat>)
    requires OptionGround(g, c, b, map[], ends, d, ts, loop, i, floor)
    ensures var z := Flown(c, b, map[], ends); Shape(g, Emits(c, d, ts, g.s, g.m).d, z.cur, z.acc)
  {
    hide Shape;
    if c.Some? {
      GroundSolved(g, c.value, b, map[], ends, d, ts, loop);
      EmitShape(g, c.value, b, map[], ends, d, ts, loop);
    }
  }
}
