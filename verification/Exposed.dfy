/** Every way of a variable that has not been set is the way of some run: none is
    found in vain. */
module Exposed {
  import opened Options
  import opened Initialising
  import opened Flowing
  import opened Unset

  // ----- Runs -----

  ghost predicate Stands(a: Machine, m: nat, pc: nat, i: nat) {
    a.pc == pc && |a.slots| == m && i < m && a.slots[i] == Garbage
  }

  /** Some run comes to the instruction with the variable raw. */
  ghost predicate Comes(code: Code, m: nat, pc: nat, i: nat) {
    exists run :: IsRun(code, m, run) && Stands(run[|run| - 1], m, pc, i)
  }

  lemma ComesFirst(code: Code, m: nat, i: nat)
    requires i < m
    ensures Comes(code, m, 0, i)
  {
    var run := [Machine(0, seq(m, _ => Garbage))];
    assert IsRun(code, m, run) && Stands(run[|run| - 1], m, 0, i);
  }

  lemma ComesStep(code: Code, m: nat, p: nat, q: nat, i: nat, a: Machine, b: Machine, run: seq<Machine>)
    requires IsRun(code, m, run) && run[|run| - 1] == a && Step(code, a, b) && Stands(b, m, q, i)
    ensures Comes(code, m, q, i)
  {
    var run' := run + [b];
    assert IsRun(code, m, run') && Stands(run'[|run'| - 1], m, q, i);
  }

  /** The instruction neither sets the variable nor ends. */
  predicate Passes(x: Instruction, m: nat, i: nat) {
    match x
    case WRITE(k) => k < m && k != i
    case NUL(k) => k < m && k != i
    case JUMP(_) => false
    case RETURN => false
    case _ => true
  }

  lemma ComesNext(code: Code, m: nat, p: nat, i: nat)
    requires Comes(code, m, p, i) && p < |code| && Passes(code[p], m, i)
    ensures Comes(code, m, p + 1, i)
  {
    var run: seq<Machine> :| IsRun(code, m, run) && Stands(run[|run| - 1], m, p, i);
    var a := run[|run| - 1];
    var slots := match code[p] case WRITE(k) => a.slots[k := Assigned] case NUL(k) => a.slots[k := Nul] case _ => a.slots;
    ComesStep(code, m, p, p + 1, i, a, Machine(p + 1, slots), run);
  }

  lemma ComesJump(code: Code, m: nat, p: nat, q: nat, i: nat)
    requires Comes(code, m, p, i) && p < |code| && q < |code|
    requires (code[p].JUMP? || code[p].BRANCH?) && code[q] == TARGET(code[p].l)
    ensures Comes(code, m, q, i)
  {
    var run: seq<Machine> :| IsRun(code, m, run) && Stands(run[|run| - 1], m, p, i);
    var a := run[|run| - 1];
    ComesStep(code, m, p, q, i, a, Machine(q, a.slots), run);
  }

  /** Some run comes to a jump to the label with the variable raw. */
  ghost predicate Jumps(code: Code, m: nat, l: nat, i: nat) {
    exists p :: 0 <= p < |code| && code[p] == JUMP(l) && Comes(code, m, p, i)
  }

  /** Some run reads the variable while it is raw. */
  ghost predicate Shown(code: Code, m: nat, i: nat) {
    exists p :: 0 <= p < |code| && (code[p] == READ(i) || code[p] == CALL(i)) && Comes(code, m, p, i)
  }

  lemma JumpsTo(code: Code, m: nat, l: nat, q: nat, i: nat)
    requires Jumps(code, m, l, i) && q < |code| && code[q] == TARGET(l)
    ensures Comes(code, m, q, i)
  {
    var p :| 0 <= p < |code| && code[p] == JUMP(l) && Comes(code, m, p, i);
    ComesJump(code, m, p, q, i);
  }

  lemma ShownNot(code: Code, m: nat, i: nat)
    requires Shown(code, m, i)
    ensures exists run, k: nat :: IsRun(code, m, run) && k < |run| && !Reads(code, run[k])
  {
    var p :| 0 <= p < |code| && (code[p] == READ(i) || code[p] == CALL(i)) && Comes(code, m, p, i);
    var run: seq<Machine> :| IsRun(code, m, run) && Stands(run[|run| - 1], m, p, i);
    assert !Reads(code, run[|run| - 1]);
  }

  // ----- Pieces of code -----

  /** `part` begins at `p`. */
  ghost predicate Sits(code: Code, p: nat, part: Code) {
    p + |part| <= |code| && code[p..p + |part|] == part
  }

  lemma SitsSplit(code: Code, p: nat, a: Code, b: Code)
    requires Sits(code, p, a + b)
    ensures Sits(code, p, a) && Sits(code, p + |a|, b)
  {
    var c := a + b;
    assert code[p..p + |a|] == c[..|a|] == a;
    assert code[p + |a|..p + |a| + |b|] == c[|a|..] == b;
  }

  lemma SitsOne(code: Code, p: nat, x: Instruction)
    requires Sits(code, p, [x])
    ensures p < |code| && code[p] == x
  {
    assert code[p..p + 1][0] == x;
  }

  lemma JoinText(s: Facts, d: set<nat>, j: nat, m: nat, k: nat)
    requires k <= m
    ensures Join(s, d, j, m, k) ==
      if k == m then [] else (if Cleared(s, d, j, k) then [NUL(k)] else []) + Join(s, d, j, m, k + 1)
  {
  }

  lemma {:induction false} JoinPasses(code: Code, p: nat, s: Facts, d: set<nat>, j: nat, m: nat, k: nat, i: nat)
    requires k <= m && Sits(code, p, Join(s, d, j, m, k)) && !Cleared(s, d, j, i) && Comes(code, m, p, i)
    ensures Comes(code, m, p + |Join(s, d, j, m, k)|, i)
    decreases m - k
  {
    hide Join, Cleared, Comes, Sits;
    JoinText(s, d, j, m, k);
    if k < m {
      var own, rest := if Cleared(s, d, j, k) then [NUL(k)] else [], Join(s, d, j, m, k + 1);
      SitsSplit(code, p, own, rest);
      if own != [] {
        SitsOne(code, p, NUL(k));
        ComesNext(code, m, p, i);
      }
      JoinPasses(code, p + |own|, s, d, j, m, k + 1, i);
    }
  }

  // ----- All nodes -----

  /** The ways of a node, from `p` to `q`, are those of some runs. */
  ghost predicate Walked(code: Code, m: nat, q: nat, ts: Targets, i: nat, r: Ways) {
    && (r.end ==> Comes(code, m, q, i)) && (r.onBreak ==> Jumps(code, m, ts.onBreak, i))
    && (r.onContinue ==> Jumps(code, m, ts.onContinue, i)) && (r.read ==> Shown(code, m, i))
  }

  ghost predicate Entering(code: Code, m: nat, p: nat, n: Node, d: set<nat>, ts: Targets, s: Facts, i: nat, loop: bool) {
    i < m && Formed(n, m, loop) && Sits(code, p, Emit(n, d, ts, s, m).code) && Comes(code, m, p, i)
  }

  lemma {:induction false} Walk(code: Code, m: nat, p: nat, n: Node, d: set<nat>, ts: Targets, s: Facts, i: nat, loop: bool)
    requires Entering(code, m, p, n, d, ts, s, i, loop)
    ensures Walked(code, m, p + |Emit(n, d, ts, s, m).code|, ts, i, Raw(n, i, d, ts, s, m))
    decreases n, 1
  {
    hide Comes, Jumps, Shown, Sits;
    match n
    case Skip =>
    case Access(_, _) => AccessWalk(code, m, p, n, d, ts, s, i, loop);
    case Operate(_, _, _) => OperateWalk(code, m, p, n, d, ts, s, i, loop);
    case Then(_, _) => ThenWalk(code, m, p, n, d, ts, s, i, loop);
    case If(_, _, _, _, _, _, _) => IfWalk(code, m, p, n, d, ts, s, i, loop);
    case While(_, _, _, _, _, _, _) => WhileWalk(code, m, p, n, d, ts, s, i, loop);
    case For(_, _, _, _, _, _, _, _, _, _, _) => ForWalk(code, m, p, n, d, ts, s, i, loop);
    case Break(_) => BreakWalk(code, m, p, n, d, ts, s, i, loop);
    case Continue =>
      SitsOne(code, p, JUMP(ts.onContinue));
      JumpsHere(code, m, ts.onContinue, p, i);
    case Return(e) =>
      SitsSplit(code, p, Emit(e, d, ts, s, m).code, [RETURN]);
      Walk(code, m, p, e, d, ts, s, i, loop);
  }

  lemma ThenWalk(code: Code, m: nat, p: nat, n: Node, d: set<nat>, ts: Targets, s: Facts, i: nat, loop: bool)
    requires n.Then? && Entering(code, m, p, n, d, ts, s, i, loop)
    ensures Walked(code, m, p + |Emit(n, d, ts, s, m).code|, ts, i, Raw(n, i, d, ts, s, m))
    decreases n, 0
  {
    hide Comes, Jumps, Shown, Sits;
    var x := Emit(n.a, d, ts, s, m);
    SitsSplit(code, p, x.code, Emit(n.b, x.d, ts, s, m).code);
    Walk(code, m, p, n.a, d, ts, s, i, loop);
    if Raw(n.a, i, d, ts, s, m).end {
      Walk(code, m, p + |x.code|, n.b, x.d, ts, s, i, loop);
    }
  }

  lemma JumpsHere(code: Code, m: nat, l: nat, p: nat, i: nat)
    requires p < |code| && code[p] == JUMP(l) && Comes(code, m, p, i)
    ensures Jumps(code, m, l, i)
  {
  }

  lemma AccessWalk(code: Code, m: nat, p: nat, n: Node, d: set<nat>, ts: Targets, s: Facts, i: nat, loop: bool)
    requires n.Access? && Entering(code, m, p, n, d, ts, s, i, loop)
    ensures Walked(code, m, p + |Emit(n, d, ts, s, m).code|, ts, i, Raw(n, i, d, ts, s, m))
  {
    hide Comes, Sits;
    var nul, x := if !n.put && n.i !in d then [NUL(n.i)] else [], if n.put then WRITE(n.i) else READ(n.i);
    SitsSplit(code, p, nul, [x]);
    SitsOne(code, p + |nul|, x);
    if nul != [] {
      SitsOne(code, p, NUL(n.i));
    }
    if n.i != i {
      if nul != [] {
        ComesNext(code, m, p, i);
      }
      ComesNext(code, m, p + |nul|, i);
    } else if nul == [] && !n.put {
      ComesNext(code, m, p, i);
    }
  }

  lemma OperateText(n: Node, i: nat, d: set<nat>, ts: Targets, s: Facts, m: nat)
    requires n.Operate?
    ensures var d' := if n.call then d else d + {n.i};
      var r := Raw(n.rest, i, d', ts, s, m);
      && Emit(n, d, ts, s, m).code ==
         (if !n.call && n.i !in d then [NUL(n.i)] else []) + Emit(n.rest, d', ts, s, m).code + [if n.call then CALL(n.i) else READ(n.i)]
      && Raw(n, i, d, ts, s, m) == if n.i != i then r else if !n.call && i !in d then NONE else Reading(r, n.call)
  {
  }

  lemma OperateWalk(code: Code, m: nat, p: nat, n: Node, d: set<nat>, ts: Targets, s: Facts, i: nat, loop: bool)
    requires n.Operate? && Entering(code, m, p, n, d, ts, s, i, loop)
    ensures Walked(code, m, p + |Emit(n, d, ts, s, m).code|, ts, i, Raw(n, i, d, ts, s, m))
    decreases n, 0
  {
    hide Comes, Sits, Jumps, Emit, Raw;
    OperateText(n, i, d, ts, s, m);
    var d' := if n.call then d else d + {n.i};
    var x, own := Emit(n.rest, d', ts, s, m), if n.call then CALL(n.i) else READ(n.i);
    var nul := if !n.call && n.i !in d then [NUL(n.i)] else [];
    var q := p + |nul|;
    SitsSplit(code, p, nul + x.code, [own]);
    SitsSplit(code, p, nul, x.code);
    SitsOne(code, q + |x.code|, own);
    if nul != [] {
      SitsOne(code, p, NUL(n.i));
    }
    if nul == [] || n.i != i {
      if nul != [] {
        ComesNext(code, m, p, i);
      }
      Walk(code, m, q, n.rest, d', ts, s, i, loop);
      if Raw(n.rest, i, d', ts, s, m).end {
        ComesNext(code, m, q + |x.code|, i);
      }
    }
  }

  lemma BreakText(n: Node, i: nat, d: set<nat>, ts: Targets, s: Facts, m: nat)
    requires n.Break?
    ensures var x := Emit(n.e, d, ts, s, m);
      && Emit(n, d, ts, s, m).code == x.code + Join(s, x.d, ts.breakJunction, m, 0) + [JUMP(ts.onBreak)]
      && Raw(n, i, d, ts, s, m) == Breaking(Raw(n.e, i, d, ts, s, m), s, x.d, ts.breakJunction, i)
  {
  }

  lemma BreakWalk(code: Code, m: nat, p: nat, n: Node, d: set<nat>, ts: Targets, s: Facts, i: nat, loop: bool)
    requires n.Break? && Entering(code, m, p, n, d, ts, s, i, loop)
    ensures Walked(code, m, p + |Emit(n, d, ts, s, m).code|, ts, i, Raw(n, i, d, ts, s, m))
    decreases n, 0
  {
    hide Comes, Sits, Shown, Jumps, Emit, Raw, Join, Cleared;
    BreakText(n, i, d, ts, s, m);
    var x := Emit(n.e, d, ts, s, m);
    var join := Join(s, x.d, ts.breakJunction, m, 0);
    SitsSplit(code, p, x.code + join, [JUMP(ts.onBreak)]);
    SitsSplit(code, p, x.code, join);
    Walk(code, m, p, n.e, d, ts, s, i, loop);
    if Raw(n.e, i, d, ts, s, m).end && !Cleared(s, x.d, ts.breakJunction, i) {
      var q := p + |x.code|;
      JoinPasses(code, q, s, x.d, ts.breakJunction, m, 0, i);
      SitsOne(code, q + |join|, JUMP(ts.onBreak));
      JumpsHere(code, m, ts.onBreak, q + |join|, i);
    }
  }

  lemma OptionWalk(code: Code, m: nat, p: nat, c: Option<Node>, d: set<nat>, ts: Targets, s: Facts, i: nat, loop: bool)
    requires i < m && (c.Some? ==> Formed(c.value, m, loop)) && Sits(code, p, Emits(c, d, ts, s, m).code) && Comes(code, m, p, i)
    ensures Walked(code, m, p + |Emits(c, d, ts, s, m).code|, ts, i, Raws(c, i, d, ts, s, m))
    decreases c, 2
  {
    hide Comes, Sits, Shown, Jumps;
    if c.Some? {
      Walk(code, m, p, c.value, d, ts, s, i, loop);
    }
  }

  /** A condition, if there is one, and the branch: either way can be taken. */
  lemma FrontWalk(code: Code, m: nat, p: nat, c: Option<Node>, d: set<nat>, ts: Targets, s: Facts, i: nat, loop: bool, l: nat, q: nat)
    requires i < m && (c.Some? ==> Formed(c.value, m, loop)) && Comes(code, m, p, i)
    requires Sits(code, p, Branched(c, Emits(c, d, ts, s, m).code, l)) && q < |code| && code[q] == TARGET(l)
    ensures Walked(code, m, p + |Branched(c, Emits(c, d, ts, s, m).code, l)|, ts, i, Raws(c, i, d, ts, s, m))
    ensures c.Some? && Raws(c, i, d, ts, s, m).end ==> Comes(code, m, q, i)
    decreases c, 3
  {
    hide Comes, Sits, Shown, Jumps, Emit;
    var e := Emits(c, d, ts, s, m).code;
    SitsSplit(code, p, e, if c.Some? then [BRANCH(l)] else []);
    OptionWalk(code, m, p, c, d, ts, s, i, loop);
    if c.Some? && Raws(c, i, d, ts, s, m).end {
      SitsOne(code, p + |e|, BRANCH(l));
      ComesNext(code, m, p + |e|, i);
      ComesJump(code, m, p + |e|, q, i);
    }
  }

  /** Where the parts of a condition are. */
  lemma SitsIf(code: Code, p: nat, front: Code, y: Code, j1: Code, be: nat, bf: nat, z: Code, j2: Code)
    requires Sits(code, p, front + y + j1 + [JUMP(be), TARGET(bf)] + z + j2 + [TARGET(be)])
    ensures var p3 := p + |front| + |y| + |j1|;
      && Sits(code, p, front) && Sits(code, p + |front|, y) && Sits(code, p + |front| + |y|, j1)
      && p3 + 2 + |z| + |j2| < |code| && code[p3] == JUMP(be) && code[p3 + 1] == TARGET(bf)
      && Sits(code, p3 + 2, z) && Sits(code, p3 + 2 + |z|, j2) && code[p3 + 2 + |z| + |j2|] == TARGET(be)
  {
    hide Sits;
    var two: Code := [JUMP(be), TARGET(bf)];
    var p3 := p + |front| + |y| + |j1|;
    SitsSplit(code, p, front + y + j1 + two + z + j2, [TARGET(be)]);
    SitsSplit(code, p, front + y + j1 + two + z, j2);
    SitsSplit(code, p, front + y + j1 + two, z);
    SitsSplit(code, p, front + y + j1, two);
    SitsSplit(code, p, front + y, j1);
    SitsSplit(code, p, front, y);
    assert two == [JUMP(be)] + [TARGET(bf)];
    SitsSplit(code, p3, [JUMP(be)], [TARGET(bf)]);
    SitsOne(code, p3, JUMP(be));
    SitsOne(code, p3 + 1, TARGET(bf));
    SitsOne(code, p3 + 2 + |z| + |j2|, TARGET(be));
  }

  lemma IfWalk(code: Code, m: nat, p: nat, n: Node, d: set<nat>, ts: Targets, s: Facts, i: nat, loop: bool)
    requires n.If? && Entering(code, m, p, n, d, ts, s, i, loop)
    ensures Walked(code, m, p + |Emit(n, d, ts, s, m).code|, ts, i, Raw(n, i, d, ts, s, m))
    decreases n, 0
  {
    hide Comes, Sits, Shown, Jumps, Emit, Raw, Join, Cleared, Branched;
    IfText(n, d, ts, s, m);
    IfRaw(n, i, d, ts, s, m);
    var x := Emits(n.c, d, ts, s, m);
    var y, z := Emit(n.t, x.d, ts, s, m), Emit(n.f, x.d, ts, s, m);
    var front := Branched(n.c, x.code, n.blockFalse);
    var j1, j2 := Join(s, y.d, n.junction, m, 0), Join(s, z.d, n.junction, m, 0);
    SitsIf(code, p, front, y.code, j1, n.blockExit, n.blockFalse, z.code, j2);
    var p1 := p + |front|;
    var p3 := p1 + |y.code| + |j1|;
    var p5 := p3 + 2 + |z.code|;
    var last := p5 + |j2|;
    FrontWalk(code, m, p, n.c, d, ts, s, i, loop, n.blockFalse, p3 + 1);
    if Raws(n.c, i, d, ts, s, m).end {
      Walk(code, m, p1, n.t, x.d, ts, s, i, loop);
      if Raw(n.t, i, x.d, ts, s, m).end && !Cleared(s, y.d, n.junction, i) {
        JoinPasses(code, p1 + |y.code|, s, y.d, n.junction, m, 0, i);
        ComesJump(code, m, p3, last, i);
        ComesNext(code, m, last, i);
      }
      if n.c.Some? {
        ComesNext(code, m, p3 + 1, i);
        Walk(code, m, p3 + 2, n.f, x.d, ts, s, i, loop);
        if Raw(n.f, i, x.d, ts, s, m).end && !Cleared(s, z.d, n.junction, i) {
          JoinPasses(code, p5, s, z.d, n.junction, m, 0, i);
          ComesNext(code, m, last, i);
        }
      }
    }
  }

  /** Where the parts of a loop are. */
  lemma SitsLoop(code: Code, p: nat, j1: Code, bc: nat, front: Code, y: Code, tail: Code, jx: nat, j2: Code, be: nat)
    requires Sits(code, p, j1 + [TARGET(bc)] + front + (y + tail) + [TARGET(jx)] + j2 + [TARGET(be)])
    ensures var p1 := p + |j1| + 1;
      var p4 := p1 + |front| + |y| + |tail|;
      && Sits(code, p, j1) && p4 + |j2| + 1 < |code| && code[p1 - 1] == TARGET(bc) && Sits(code, p1, front)
      && Sits(code, p1 + |front|, y) && Sits(code, p1 + |front| + |y|, tail) && code[p4] == TARGET(jx)
      && Sits(code, p4 + 1, j2) && code[p4 + 1 + |j2|] == TARGET(be)
  {
    hide Sits;
    var p1 := p + |j1| + 1;
    var p4 := p1 + |front| + |y| + |tail|;
    SitsSplit(code, p, j1 + [TARGET(bc)] + front + (y + tail) + [TARGET(jx)] + j2, [TARGET(be)]);
    SitsSplit(code, p, j1 + [TARGET(bc)] + front + (y + tail) + [TARGET(jx)], j2);
    SitsSplit(code, p, j1 + [TARGET(bc)] + front + (y + tail), [TARGET(jx)]);
    SitsSplit(code, p, j1 + [TARGET(bc)] + front, y + tail);
    SitsSplit(code, p1 + |front|, y, tail);
    SitsSplit(code, p, j1 + [TARGET(bc)], front);
    SitsSplit(code, p, j1, [TARGET(bc)]);
    SitsOne(code, p1 - 1, TARGET(bc));
    SitsOne(code, p4, TARGET(jx));
    SitsOne(code, p4 + 1 + |j2|, TARGET(be));
  }

  lemma WhileWalk(code: Code, m: nat, p: nat, n: Node, d: set<nat>, ts: Targets, s: Facts, i: nat, loop: bool)
    requires n.While? && Entering(code, m, p, n, d, ts, s, i, loop)
    ensures Walked(code, m, p + |Emit(n, d, ts, s, m).code|, ts, i, Raw(n, i, d, ts, s, m))
    decreases n, 0
  {
    hide Comes, Sits, Shown, Jumps, Emit, Raw, Join, Cleared, Branched;
    WhileText(n, d, ts, s, m);
    WhileRaw(n, i, d, ts, s, m);
    var h, jx := Merge(s, n.junctionCondition, m), n.junctionExit;
    var x := Emits(n.c, h, ts, s, m);
    var y := Emit(n.body, x.d, WhileTargets(n), s, m);
    var front, tail := Branched(n.c, x.code, jx), [JUMP(n.blockCondition)];
    var j1, j2 := Join(s, d, n.junctionCondition, m, 0), Join(s, y.d, jx, m, 0);
    SitsLoop(code, p, j1, n.blockCondition, front, y.code, tail, jx, j2, n.blockExit);
    var p1 := p + |j1| + 1;
    var p4 := p1 + |front| + |y.code| + |tail|;
    var last := p4 + 1 + |j2|;
    if !Cleared(s, d, n.junctionCondition, i) {
      JoinPasses(code, p, s, d, n.junctionCondition, m, 0, i);
      ComesNext(code, m, p1 - 1, i);
      FrontWalk(code, m, p1, n.c, h, ts, s, i, loop, jx, p4);
      if Raws(n.c, i, h, ts, s, m).end {
        Walk(code, m, p1 + |front|, n.body, x.d, WhileTargets(n), s, i, true);
        LoopEnd(code, m, p4, jx, j2, n.blockExit, s, y.d, i, n.c.Some? && !Cleared(s, y.d, jx, i),
                Raw(n.body, i, x.d, WhileTargets(n), s, m).onBreak);
      }
    }
  }

  /** A loop is left at its condition or by a jump. */
  lemma LoopEnd(code: Code, m: nat, p: nat, jx: nat, j2: Code, be: nat, s: Facts, d: set<nat>, i: nat, out: bool, jump: bool)
    requires j2 == Join(s, d, jx, m, 0) && Sits(code, p + 1, j2) && p + 1 + |j2| < |code|
    requires code[p] == TARGET(jx) && code[p + 1 + |j2|] == TARGET(be)
    requires (out ==> Comes(code, m, p, i) && !Cleared(s, d, jx, i)) && (jump ==> Jumps(code, m, be, i))
    ensures out || jump ==> Comes(code, m, p + |j2| + 2, i)
  {
    hide Comes, Sits, Jumps, Join, Cleared;
    if out {
      ComesNext(code, m, p, i);
      JoinPasses(code, p + 1, s, d, jx, m, 0, i);
    } else if jump {
      JumpsTo(code, m, be, p + 1 + |j2|, i);
    }
    if out || jump {
      ComesNext(code, m, p + 1 + |j2|, i);
    }
  }

  lemma ForWalk(code: Code, m: nat, p: nat, n: Node, d: set<nat>, ts: Targets, s: Facts, i: nat, loop: bool)
    requires n.For? && Entering(code, m, p, n, d, ts, s, i, loop)
    ensures Walked(code, m, p + |Emit(n, d, ts, s, m).code|, ts, i, Raw(n, i, d, ts, s, m))
    decreases n, 0, 1
  {
    hide Comes, Sits, Shown, Jumps, Emit, Raw, Join, Cleared, Branched, ForTail;
    ForText(n, d, ts, s, m);
    ForRaw(n, i, d, ts, s, m);
    var w, h, jx := Emit(n.init, d, ts, s, m), Merge(s, n.junctionCondition, m), n.junctionExit;
    var x := Emits(n.c, h, ts, s, m);
    var y := Emit(n.body, x.d, ForTargets(n, ts), s, m);
    var z := Emits(n.next, y.d, ts, s, m);
    var front, tail := Branched(n.c, x.code, jx), ForTail(n, y.d, ts, s, m);
    var j1, j2 := Join(s, w.d, n.junctionCondition, m, 0), Join(s, z.d, jx, m, 0);
    var rest := j1 + [TARGET(n.blockCondition)] + front + (y.code + tail) + [TARGET(jx)] + j2 + [TARGET(n.blockExit)];
    SitsSplit(code, p, w.code, rest);
    SitsLoop(code, p + |w.code|, j1, n.blockCondition, front, y.code, tail, jx, j2, n.blockExit);
    var p1 := p + |w.code| + |j1| + 1;
    var p4 := p1 + |front| + |y.code| + |tail|;
    Walk(code, m, p, n.init, d, ts, s, i, loop);
    if Raw(n.init, i, d, ts, s, m).end && !Cleared(s, w.d, n.junctionCondition, i) {
      JoinPasses(code, p + |w.code|, s, w.d, n.junctionCondition, m, 0, i);
      ComesNext(code, m, p1 - 1, i);
      FrontWalk(code, m, p1, n.c, h, ts, s, i, loop, jx, p4);
      if Raws(n.c, i, h, ts, s, m).end {
        Walk(code, m, p1 + |front|, n.body, x.d, ForTargets(n, ts), s, i, true);
        TailWalk(code, m, p1 + |front| + |y.code|, n, y.d, ts, s, i, loop, Raw(n.body, i, x.d, ForTargets(n, ts), s, m));
        LoopEnd(code, m, p4, jx, j2, n.blockExit, s, z.d, i, n.c.Some? && !Cleared(s, z.d, jx, i),
                Raw(n.body, i, x.d, ForTargets(n, ts), s, m).onBreak);
      }
    }
  }

  /** The step, if there is one, come to from the end of the body or by `continue`. */
  lemma TailWalk(code: Code, m: nat, p: nat, n: Node, d: set<nat>, ts: Targets, s: Facts, i: nat, loop: bool, y: Ways)
    requires n.For? && i < m && Formed(n, m, loop) && Sits(code, p, ForTail(n, d, ts, s, m))
    requires (y.end ==> Comes(code, m, p, i)) && (y.onContinue ==> Jumps(code, m, ForTargets(n, ts).onContinue, i))
    ensures var z := Raws(n.next, i, d, ts, s, m);
      y.end || y.onContinue ==>
        && (z.onBreak ==> Jumps(code, m, ts.onBreak, i)) && (z.onContinue ==> Jumps(code, m, ts.onContinue, i))
        && (z.read ==> Shown(code, m, i))
    decreases n, 0, 0
  {
    hide Comes, Sits, Shown, Jumps, Emit, Raw;
    if n.next.Some? && (y.end || y.onContinue) {
      var z := Emits(n.next, d, ts, s, m);
      SitsSplit(code, p, [TARGET(n.blockNext)] + z.code, [JUMP(n.blockCondition)]);
      SitsSplit(code, p, [TARGET(n.blockNext)], z.code);
      SitsOne(code, p, TARGET(n.blockNext));
      if !y.end {
        JumpsTo(code, m, n.blockNext, p, i);
      }
      ComesNext(code, m, p, i);
      OptionWalk(code, m, p + 1, n.next, d, ts, s, i, loop);
    }
  }
}
