/** Scripts in which no variable is at risk: nothing follows a `continue` to the step
    of a loop, and nothing is called directly. */
module Tidied {
  import opened Options
  import opened Initialising
  import opened Flowing
  import opened Unset

  /** The last block of the node ends with a `continue`. */
  predicate Turned(n: Node) {
    match n
    case Continue => true
    case Operate(_, _, rest) => Turned(rest)
    case Then(a, b) => Turned(b) || (b.Skip? && Turned(a))
    case Break(e) => Turned(e)
    case Return(e) => Turned(e)
    case _ => false
  }

  /** Nothing is called, and in the body of a loop with a step nothing follows a
      `continue` in its block. Other jumps may be followed by anything. */
  predicate Tidy(n: Node, step: bool)
    decreases n
  {
    match n
    case Operate(_, call, rest) => !call && Tidy(rest, step)
    case Then(a, b) => Tidy(a, step) && Tidy(b, step) && (step && Turned(a) ==> b.Skip?)
    case If(c, t, f, _, _, _, _) => (c.Some? ==> Tidy(c.value, step)) && Tidy(t, step) && Tidy(f, step)
    case While(c, body, _, _, _, _, _) => (c.Some? ==> Tidy(c.value, step)) && Tidy(body, false)
    case For(init, c, next, body, _, _, _, _, _, _, _) =>
      && Tidy(init, step) && (c.Some? ==> Tidy(c.value, step)) && (next.Some? ==> Tidy(next.value, step))
      && Tidy(body, next.Some?)
    case Break(e) => Tidy(e, step)
    case Return(e) => Tidy(e, step)
    case _ => true
  }

  /** What `continue` leaves raw is not used from the step on, if the loop takes it for
      initialised. */
  ghost predicate Spared(g: Scope, i: nat, j: nat, floor: set<nat>) {
    i in floor ==> !g.s.used(j, i)
  }

  ghost predicate Calm(r: Ways, g: Scope, i: nat, ends: Ends, step: bool, floor: set<nat>) {
    !r.risk && (step && r.onContinue ==> Spared(g, i, ends.onContinue, floor))
  }

  /** The last block of a node is complete if it ends with a `continue`. */
  ghost predicate Completes(g: Scope, n: Node, b: nat, acc: Firsts, ends: Ends, step: bool) {
    var o := Flow(n, b, acc, ends);
    step && Turned(n) ==> (o.cur, o.acc) in g.done
  }

  ghost predicate Tame(g: Scope, n: Node, b: nat, acc: Firsts, ends: Ends, d: set<nat>, loop: bool, step: bool, floor: set<nat>) {
    Tidy(n, step) && (step ==> loop && floor <= d) && Completes(g, n, b, acc, ends, step)
  }

  lemma {:induction false} TidyCalm(g: Scope, n: Node, b: nat, acc: Firsts, ends: Ends, d: set<nat>, ts: Targets, loop: bool, i: nat,
                                    floor: set<nat>, step: bool)
    requires Ground(g, n, b, acc, ends, d, ts, loop) && LaxEnd(g, i, n, b, acc, ends, loop, floor) && !Held(g, i, d, b, acc)
    requires Tame(g, n, b, acc, ends, d, loop, step, floor)
    ensures Calm(Raw(n, i, d, ts, g.s, g.m), g, i, ends, step, floor)
    decreases n, 1
  {
    hide Ground, LaxEnd, Held, Spared;
    match n
    case Skip =>
    case Access(_, _) =>
    case Continue => ContinueCalm(g, n, b, acc, ends, d, ts, loop, i, floor, step);
    case Operate(_, _, _) => OperateCalm(g, n, b, acc, ends, d, ts, loop, i, floor, step);
    case Then(_, _) =>
      ThenGround(g, n, b, acc, ends, d, ts, loop, i, floor);
      ThenTame(g, n, b, acc, ends, d, ts, loop, step, floor);
      var x, e := Flow(n.a, b, acc, ends), Emit(n.a, d, ts, g.s, g.m);
      TidyCalm(g, n.a, b, acc, ends, d, ts, loop, i, floor, step);
      ReadRisk(g, n.a, b, acc, ends, d, ts, loop, i, floor);
      if Raw(n.a, i, d, ts, g.s, g.m).end {
        TidyCalm(g, n.b, x.cur, x.acc, ends, e.d, ts, loop, i, floor, step);
      }
    case If(_, _, _, _, _, _, _) => IfCalm(g, n, b, acc, ends, d, ts, loop, i, floor, step);
    case While(_, _, _, _, _, _, _) => WhileCalm(g, n, b, acc, ends, d, ts, loop, i, floor, step);
    case For(_, _, _, _, _, _, _, _, _, _, _) => ForCalm(g, n, b, acc, ends, d, ts, loop, i, floor, step);
    case Break(e) =>
      JumpGround(g, n, b, acc, ends, d, ts, loop, i, floor);
      JumpTame(g, n, b, acc, ends, d, ts, loop, step, floor);
      TidyCalm(g, e, b, acc, ends, d, ts, loop, i, floor, step);
    case Return(e) =>
      JumpGround(g, n, b, acc, ends, d, ts, loop, i, floor);
      JumpTame(g, n, b, acc, ends, d, ts, loop, step, floor);
      TidyCalm(g, e, b, acc, ends, d, ts, loop, i, floor, step);
  }

  lemma OperateCalm(g: Scope, n: Node, b: nat, acc: Firsts, ends: Ends, d: set<nat>, ts: Targets, loop: bool, i: nat,
                    floor: set<nat>, step: bool)
    requires n.Operate? && Ground(g, n, b, acc, ends, d, ts, loop) && LaxEnd(g, i, n, b, acc, ends, loop, floor)
    requires !Held(g, i, d, b, acc) && Tame(g, n, b, acc, ends, d, loop, step, floor)
    ensures Calm(Raw(n, i, d, ts, g.s, g.m), g, i, ends, step, floor)
    decreases n, 0
  {
    hide LaxEnd, Solved, Within, Spared;
    OperateGround(g, n, b, acc, ends, d, ts, loop, i, floor);
    OperateUsed(g, n, b, acc, ends, d, ts, loop);
    OperateWithin(g, n, b, acc, ends);
    if n.i != i {
      TidyCalm(g, n.rest, b, Use(acc, n.i, false), ends, d + {n.i}, ts, loop, i, floor, step);
    }
  }

  lemma ContinueCalm(g: Scope, n: Node, b: nat, acc: Firsts, ends: Ends, d: set<nat>, ts: Targets, loop: bool, i: nat,
                     floor: set<nat>, step: bool)
    requires n.Continue? && Ground(g, n, b, acc, ends, d, ts, loop) && !Held(g, i, d, b, acc)
    requires Tame(g, n, b, acc, ends, d, loop, step, floor)
    ensures Calm(Raw(n, i, d, ts, g.s, g.m), g, i, ends, step, floor)
  {
    if step {
      assert [(b, ends.onContinue)][0] in g.edges;
      HeldNext(g, i, d, b, acc, ends.onContinue);
    }
  }

  lemma ThenTame(g: Scope, n: Node, b: nat, acc: Firsts, ends: Ends, d: set<nat>, ts: Targets, loop: bool, step: bool, floor: set<nat>)
    requires n.Then? && Tame(g, n, b, acc, ends, d, loop, step, floor) && Ground(g, n, b, acc, ends, d, ts, loop)
    ensures var x, e := Flow(n.a, b, acc, ends), Emit(n.a, d, ts, g.s, g.m);
      && Tame(g, n.a, b, acc, ends, d, loop, step, floor) && Tame(g, n.b, x.cur, x.acc, ends, e.d, loop, step, floor)
  {
    hide Solved, Within, Shape;
    ThenWithin(g, n, b, acc, ends);
    EmitShape(g, n.a, b, acc, ends, d, ts, loop);
  }

  lemma JumpTame(g: Scope, n: Node, b: nat, acc: Firsts, ends: Ends, d: set<nat>, ts: Targets, loop: bool, step: bool, floor: set<nat>)
    requires (n.Break? || n.Return?) && Tame(g, n, b, acc, ends, d, loop, step, floor)
    ensures Tame(g, n.e, b, acc, ends, d, loop, step, floor)
  {
  }

  ghost predicate TameOption(g: Scope, c: Option<Node>, b: nat, acc: Firsts, ends: Ends, d: set<nat>, loop: bool, step: bool,
                             floor: set<nat>)
  {
    c.Some? ==> Tame(g, c.value, b, acc, ends, d, loop, step, floor)
  }

  lemma OptionCalm(g: Scope, c: Option<Node>, b: nat, acc: Firsts, ends: Ends, d: set<nat>, ts: Targets, loop: bool, i: nat,
                   floor: set<nat>, step: bool)
    requires OptionGround(g, c, b, acc, ends, d, ts, loop, i, floor) && !Held(g, i, d, b, acc)
    requires TameOption(g, c, b, acc, ends, d, loop, step, floor)
    ensures Calm(Raws(c, i, d, ts, g.s, g.m), g, i, ends, step, floor)
    ensures var o := Flown(c, b, acc, ends); KeptOption(g, c, i, d, ts, o.cur, o.acc)
    decreases c, 2
  {
    if c.Some? {
      TidyCalm(g, c.value, b, acc, ends, d, ts, loop, i, floor, step);
    }
    OptionKept(g, c, b, acc, ends, d, ts, loop, i, floor);
  }

  lemma IfTame(g: Scope, n: Node, b: nat, acc: Firsts, ends: Ends, d: set<nat>, ts: Targets, loop: bool, step: bool, floor: set<nat>)
    requires n.If? && Tame(g, n, b, acc, ends, d, loop, step, floor) && Ground(g, n, b, acc, ends, d, ts, loop)
    ensures var e := Emits(n.c, d, ts, g.s, g.m).d;
      && TameOption(g, n.c, b, acc, ends, d, loop, step, floor)
      && Tame(g, n.t, n.blockTrue, map[], ends, e, loop, step, floor) && Tame(g, n.f, n.blockFalse, map[], ends, e, loop, step, floor)
  {
    hide Solved, Within, Shape, Flow;
    IfWithin(g, n, b, acc, ends);
    OptionShape(g, n.c, b, acc, ends, d, ts, loop);
  }

  lemma IfCalm(g: Scope, n: Node, b: nat, acc: Firsts, ends: Ends, d: set<nat>, ts: Targets, loop: bool, i: nat, floor: set<nat>,
               step: bool)
    requires n.If? && Ground(g, n, b, acc, ends, d, ts, loop) && LaxEnd(g, i, n, b, acc, ends, loop, floor) && !Held(g, i, d, b, acc)
    requires Tame(g, n, b, acc, ends, d, loop, step, floor)
    ensures Calm(Raw(n, i, d, ts, g.s, g.m), g, i, ends, step, floor)
    decreases n, 0
  {
    GroundSolved(g, n, b, acc, ends, d, ts, loop);
    IfTame(g, n, b, acc, ends, d, ts, loop, step, floor);
    hide Ground, LaxEnd, Held, Flow, Raw, Cleared, Solved, Within, Shape, Spared, Tame, TameOption;
    IfRaw(n, i, d, ts, g.s, g.m);
    IfGround(g, n, b, acc, ends, d, ts, loop, i, floor);
    IfWithin(g, n, b, acc, ends);
    var x, e := Flown(n.c, b, acc, ends), Emits(n.c, d, ts, g.s, g.m).d;
    OptionCalm(g, n.c, b, acc, ends, d, ts, loop, i, floor, step);
    if Raws(n.c, i, d, ts, g.s, g.m).end {
      HeldNext(g, i, e, x.cur, x.acc, n.blockTrue);
      HeldNext(g, i, e, x.cur, x.acc, n.blockFalse);
      TidyCalm(g, n.t, n.blockTrue, map[], ends, e, ts, loop, i, floor, step);
      if n.c.Some? {
        TidyCalm(g, n.f, n.blockFalse, map[], ends, e, ts, loop, i, floor, step);
      }
    }
  }

  lemma WhileTame(g: Scope, n: Node, b: nat, acc: Firsts, ends: Ends, d: set<nat>, ts: Targets, loop: bool, step: bool, floor: set<nat>)
    requires n.While? && Tame(g, n, b, acc, ends, d, loop, step, floor) && Ground(g, n, b, acc, ends, d, ts, loop)
    ensures var h := Merge(g.s, n.junctionCondition, g.m);
      && TameOption(g, n.c, n.blockCondition, map[], ends, h, loop, step, floor)
      && Tame(g, n.body, n.blockBody, map[], WhileEnds(n, ends), Emits(n.c, h, ts, g.s, g.m).d, true, false, h)
  {
    hide Solved, Within, Shape, Flow;
    WhileWithin(g, n, b, acc, ends);
    LoopShape(g, n, b, acc, ends, d, ts, loop);
  }

  lemma WhileCalm(g: Scope, n: Node, b: nat, acc: Firsts, ends: Ends, d: set<nat>, ts: Targets, loop: bool, i: nat, floor: set<nat>,
                  step: bool)
    requires n.While? && Ground(g, n, b, acc, ends, d, ts, loop) && LaxEnd(g, i, n, b, acc, ends, loop, floor)
    requires !Held(g, i, d, b, acc) && Tame(g, n, b, acc, ends, d, loop, step, floor)
    ensures Calm(Raw(n, i, d, ts, g.s, g.m), g, i, ends, step, floor)
    decreases n, 0
  {
    GroundSolved(g, n, b, acc, ends, d, ts, loop);
    LaxBelow(g, i, n, b, acc, ends, loop, floor);
    WhileTame(g, n, b, acc, ends, d, ts, loop, step, floor);
    hide Ground, LaxEnd, Held, Flow, Raw, Cleared, Solved, Within, Shape, Left, Spared, Tame, TameOption;
    WhileRaw(n, i, d, ts, g.s, g.m);
    WhileGround(g, n, b, acc, ends, d, ts, loop, i, floor);
    WhileWithin(g, n, b, acc, ends);
    WhileBack(g, n, b, acc, ends, i);
    var h, jc, jx := Merge(g.s, n.junctionCondition, g.m), n.junctionCondition, n.junctionExit;
    var ends', x := WhileEnds(n, ends), Flown(n.c, n.blockCondition, map[], ends);
    var e := Emits(n.c, h, ts, g.s, g.m).d;
    if !Cleared(g.s, d, jc, i) {
      HeldMerge(g, i, d, b, acc, jc);
      HeldBlock(g, i, h, jc, n.blockCondition);
      OptionCalm(g, n.c, n.blockCondition, map[], ends, h, ts, loop, i, floor, step);
      if Raws(n.c, i, h, ts, g.s, g.m).end {
        HeldNext(g, i, e, x.cur, x.acc, jx);
        HeldNext(g, i, e, x.cur, x.acc, n.blockBody);
        LoopShape(g, n, b, acc, ends, d, ts, loop);
        BodyLax(g, i, n.body, n.blockBody, ends', e, h, jx);
        TidyCalm(g, n.body, n.blockBody, map[], ends', e, WhileTargets(n), true, i, h, false);
      }
    }
  }

  lemma ForTame(g: Scope, n: Node, b: nat, acc: Firsts, ends: Ends, d: set<nat>, ts: Targets, loop: bool, step: bool, floor: set<nat>)
    requires n.For? && Tame(g, n, b, acc, ends, d, loop, step, floor) && Ground(g, n, b, acc, ends, d, ts, loop)
    ensures var h := Merge(g.s, n.junctionCondition, g.m);
      var e := Emits(n.c, h, ts, g.s, g.m).d;
      var f := Emit(n.body, e, ForTargets(n, ts), g.s, g.m).d;
      && Tame(g, n.init, b, acc, ends, d, loop, step, floor)
      && TameOption(g, n.c, n.blockCondition, map[], ends, h, loop, step, floor)
      && Tame(g, n.body, n.blockBody, map[], ForEnds(n, ends), e, true, n.next.Some?, h)
      && TameOption(g, n.next, n.blockNext, map[], ends, f, loop, step, floor)
      && h <= e
  {
    hide Solved, Within, Shape, Flow;
    ForWithin(g, n, b, acc, ends);
    StepShape(g, n, b, acc, ends, d, ts, loop);
    var e := Emits(n.c, Merge(g.s, n.junctionCondition, g.m), ts, g.s, g.m).d;
    EmitShape(g, n.body, n.blockBody, map[], ForEnds(n, ends), e, ForTargets(n, ts), true);
  }

  lemma ForCalm(g: Scope, n: Node, b: nat, acc: Firsts, ends: Ends, d: set<nat>, ts: Targets, loop: bool, i: nat, floor: set<nat>,
                step: bool)
    requires n.For? && Ground(g, n, b, acc, ends, d, ts, loop) && LaxEnd(g, i, n, b, acc, ends, loop, floor)
    requires !Held(g, i, d, b, acc) && Tame(g, n, b, acc, ends, d, loop, step, floor)
    ensures Calm(Raw(n, i, d, ts, g.s, g.m), g, i, ends, step, floor)
    decreases n, 0, 1
  {
    GroundSolved(g, n, b, acc, ends, d, ts, loop);
    ForTame(g, n, b, acc, ends, d, ts, loop, step, floor);
    hide Ground, LaxEnd, Held, Flow, Raw, Cleared, Solved, Within, Shape, Left, Spared, Tame, TameOption;
    ForRaw(n, i, d, ts, g.s, g.m);
    ForGround(g, n, b, acc, ends, d, ts, loop, i, floor);
    ForWithin(g, n, b, acc, ends);
    var h, jc := Merge(g.s, n.junctionCondition, g.m), n.junctionCondition;
    var w, k := Flow(n.init, b, acc, ends), Emit(n.init, d, ts, g.s, g.m).d;
    TidyCalm(g, n.init, b, acc, ends, d, ts, loop, i, floor, step);
    ReadRisk(g, n.init, b, acc, ends, d, ts, loop, i, floor);
    if Raw(n.init, i, d, ts, g.s, g.m).end && !Cleared(g.s, k, jc, i) {
      HeldMerge(g, i, k, w.cur, w.acc, jc);
      HeldBlock(g, i, h, jc, n.blockCondition);
      OptionCalm(g, n.c, n.blockCondition, map[], ends, h, ts, loop, i, floor, step);
      if Raws(n.c, i, h, ts, g.s, g.m).end {
        StepCalm(g, n, b, acc, ends, d, ts, loop, i, floor, step);
      }
    }
  }

  /** What the body leaves raw is not held at the step. */
  lemma StepCalm(g: Scope, n: Node, b: nat, acc: Firsts, ends: Ends, d: set<nat>, ts: Targets, loop: bool, i: nat, floor: set<nat>,
                 step: bool)
    requires n.For? && Ground(g, n, b, acc, ends, d, ts, loop) && LaxEnd(g, i, n, b, acc, ends, loop, floor)
    requires Tame(g, n, b, acc, ends, d, loop, step, floor)
    requires var h := Merge(g.s, n.junctionCondition, g.m);
      var x, e := Flown(n.c, n.blockCondition, map[], ends), Emits(n.c, h, ts, g.s, g.m).d;
      !Held(g, i, e, x.cur, x.acc)
    ensures var e := Emits(n.c, Merge(g.s, n.junctionCondition, g.m), ts, g.s, g.m).d;
      var f := Emit(n.body, e, ForTargets(n, ts), g.s, g.m).d;
      var out := n.c.Some? && !Cleared(g.s, Emits(n.next, f, ts, g.s, g.m).d, n.junctionExit, i);
      Calm(Stepping(Raw(n.body, i, e, ForTargets(n, ts), g.s, g.m), Raws(n.next, i, f, ts, g.s, g.m), out), g, i, ends, step, floor)
    decreases n, 0, 0
  {
    GroundSolved(g, n, b, acc, ends, d, ts, loop);
    LaxBelow(g, i, n, b, acc, ends, loop, floor);
    ForTame(g, n, b, acc, ends, d, ts, loop, step, floor);
    hide Ground, LaxEnd, Held, Flow, Raw, Cleared, Solved, Within, Shape, Left, Spared, Tame, TameOption;
    ForGround(g, n, b, acc, ends, d, ts, loop, i, floor);
    ForWithin(g, n, b, acc, ends);
    ForBack(g, n, b, acc, ends, i);
    var h, jx, jn := Merge(g.s, n.junctionCondition, g.m), n.junctionExit, n.junctionNext;
    var ends', x := ForEnds(n, ends), Flown(n.c, n.blockCondition, map[], ends);
    var y, e := Flow(n.body, n.blockBody, map[], ForEnds(n, ends)), Emits(n.c, h, ts, g.s, g.m).d;
    var ts' := ForTargets(n, ts);
    var f, r := Emit(n.body, e, ts', g.s, g.m).d, Raw(n.body, i, e, ts', g.s, g.m);
    HeldNext(g, i, e, x.cur, x.acc, jx);
    HeldNext(g, i, e, x.cur, x.acc, n.blockBody);
    BodyLax(g, i, n.body, n.blockBody, ends', e, h, jx);
    TidyCalm(g, n.body, n.blockBody, map[], ends', e, ts', true, i, h, n.next.Some?);
    ReadRisk(g, n.body, n.blockBody, map[], ends', e, ts', true, i, h);
    if n.next.Some? && (r.end || r.onContinue) {
      if r.end {
        HeldNext(g, i, f, y.cur, y.acc, jn);
      } else {
        EmitShape(g, n.body, n.blockBody, map[], ends', e, ts', true);
        SparedHeld(g, i, f, y.cur, y.acc, jn, h);
      }
      HeldBlock(g, i, f, jn, n.blockNext);
      OptionCalm(g, n.next, n.blockNext, map[], ends, f, ts, loop, i, floor, step);
    }
  }

  lemma SparedHeld(g: Scope, i: nat, f: set<nat>, end: nat, acc: Firsts, j: nat, h: set<nat>)
    requires Spared(g, i, j, h) && Shape(g, f, end, acc) && (Left(g.s, end, acc, i) ==> i in h)
    ensures !Held(g, i, f, j, map[])
  {
  }
}
