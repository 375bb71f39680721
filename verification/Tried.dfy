/** The interpreter does with the emitted code what the constructs do on the operand
    stack. */
module Tried {
  import opened Options
  import opened Trying
  import opened TryCode
  import opened Stacked

  /** Where code is run. */
  datatype Scene = Scene(code: Code, env: Env, h: Shape, ts: Targets)

  /** Jumps lead out of the code from `p` to `q`. */
  ghost predicate Placed(g: Scene, p: nat, q: nat) {
    && (g.h.jumping ==> g.ts.onBreak >= q && (g.ts.onContinue <= p || g.ts.onContinue > q))
    && (g.h.returning ==> g.ts.onReturn >= q)
    && (g.h.tail ==> g.h.returning && Is(g.code, g.ts.onReturn, RETURN(g.h.returnStack)))
  }

  function At(g: Scene, p: nat, t: Temps, w: World): Exit {
    Loop(g.code, g.env, p, t, w)
  }

  /** Having jumped from `p`. */
  function Went(g: Scene, p: nat, l: nat, t: Temps, w: World): Exit {
    if Stops(p, l, w) then Spent else At(g, l, t, Gone(p, l, w))
  }

  /** What a construct does is what comes of running the code from `p`: it goes on at
      `q`, or where a jump leads. */
  ghost predicate Meets(g: Scene, r: Ran, p: nat, q: nat, t: Temps, w: World) {
    match r
    case Endless => At(g, p, t, w) == Spent
    case Ran(out, t', w') =>
      match out
      case Normally => At(g, p, t, w) == At(g, q, t', w')
      case Breaking => g.h.jumping && At(g, p, t, w) == At(g, g.ts.onBreak, t', w')
      case Continuing => g.h.jumping && At(g, p, t, w) == Went(g, p, g.ts.onContinue, t', w')
      case Returning =>
        && g.h.returning
        && At(g, p, t, w) == if g.h.tail then Ended(Read(t', g.h.returnStack), w') else At(g, g.ts.onReturn, t', w')
      case Throwing(x) => At(g, p, t, w) == Raised(x, t', w')
  }

  ghost predicate Ready(g: Scene, n: Node, p: nat, s: nat, clear: bool) {
    && Laid(g.code, n, p, s, clear, g.h, g.ts) && Legal(n, g.h.jumping, g.h.returning)
    && Placed(g, p, p + Size(n, s, clear, g.h))
  }

  function Does(g: Scene, n: Node, s: nat, clear: bool, t: Temps, w: World): Ran {
    Run(n, s, clear, g.h, g.env, t, w)
  }

  /** The same from an earlier place, from which the code comes here. */
  lemma Chain(g: Scene, r: Ran, p: nat, q: nat, t: Temps, w: World, p1: nat, q1: nat, t1: Temps, w1: World)
    requires Meets(g, r, p1, q1, t1, w1) && At(g, p, t, w) == At(g, p1, t1, w1) && (Goes(r) ==> q1 == q)
    requires g.h.jumping ==> (g.ts.onContinue <= p <==> g.ts.onContinue <= p1)
    ensures Meets(g, r, p, q, t, w)
  {
    hide Loop;
  }

  lemma GoesOn(g: Scene, r: Ran, p: nat, q: nat, t: Temps, w: World)
    requires Meets(g, r, p, q, t, w) && Goes(r)
    ensures At(g, p, t, w) == At(g, q, r.t, r.w)
  {
    hide Loop;
  }

  // ----- Single instructions -----

  lemma StepDo(g: Scene, p: nat, op: nat, s: nat, t: Temps, w: World)
    requires Is(g.code, p, DO(op, s))
    ensures var w' := Happens(w, op, []);
      Meets(g, Gives(g.env.answer(w'.history), s, t, w'), p, p + 1, t, w)
  {
  }

  lemma StepApply(g: Scene, p: nat, op: nat, s: nat, t: Temps, w: World)
    requires Is(g.code, p, APPLY(op, s))
    ensures var w' := Happens(w, op, [Read(t, s), Read(t, s + 1)]);
      Meets(g, Gives(g.env.answer(w'.history), s, t, w'), p, p + 1, t, w)
  {
  }

  lemma StepNul(g: Scene, p: nat, s: nat, t: Temps, w: World)
    requires Is(g.code, p, NUL(s))
    ensures At(g, p, t, w) == At(g, p + 1, t[s := NULL], w)
  {
  }

  lemma StepGet(g: Scene, p: nat, to: nat, s: nat, t: Temps, w: World)
    requires Is(g.code, p, GET(to, s))
    ensures At(g, p, t, w) == At(g, p + 1, t[to := Read(t, s)], w)
  {
  }

  lemma StepPut(g: Scene, p: nat, s: nat, i: nat, t: Temps, w: World)
    requires Is(g.code, p, PUT(s, i))
    ensures At(g, p, t, w) == At(g, p + 1, t, Assign(w, i, Read(t, s)))
  {
  }

  lemma StepJump(g: Scene, p: nat, l: nat, t: Temps, w: World)
    requires Is(g.code, p, JUMP(l))
    ensures At(g, p, t, w) == Went(g, p, l, t, w)
  {
  }

  lemma StepBranch(g: Scene, p: nat, s: nat, l: nat, t: Temps, w: World)
    requires Is(g.code, p, BRANCH(s, l)) && l > p
    ensures At(g, p, t, w) == if IsTrue(g.env, Read(t, s)) then At(g, p + 1, t, w) else At(g, l, t, w)
  {
  }

  lemma StepThrow(g: Scene, p: nat, s: nat, t: Temps, w: World)
    requires Is(g.code, p, THROW(s))
    ensures At(g, p, t, w) == Raised(Read(t, s), t, w)
  {
  }

  lemma StepReturn(g: Scene, p: nat, s: nat, t: Temps, w: World)
    requires Is(g.code, p, RETURN(s))
    ensures At(g, p, t, w) == Ended(Read(t, s), w)
  {
  }

  lemma StepFinally(g: Scene, p: nat, k: Kind, t: Temps, w: World)
    requires Is(g.code, p, FINALLY(k))
    ensures At(g, p, t, w) == Left(k, p + 1, t, w)
  {
  }

  lemma StepEnd(g: Scene, p: nat, t: Temps, w: World)
    requires p < |g.code| && (g.code[p].CATCH? || g.code[p].YRT?)
    ensures At(g, p, t, w) == Left(CATCHING, p, t, w)
  {
  }

  lemma StepTry(g: Scene, p: nat, t: Temps, w: World)
    requires p < |g.code| && g.code[p].TRY?
    ensures var r := RunTry(g.code, g.env, p, t, w);
      At(g, p, t, w) == if r.Left? then At(g, r.pc, r.t, r.w) else r
  {
  }

  // ----- The constructs -----

  lemma ApplyReady(g: Scene, n: Node, p: nat, s: nat, clear: bool)
    requires n.Apply? && Ready(g, n, p, s, clear)
    ensures var pb := p + Size(n.a, s, false, g.h);
      var pe := pb + Size(n.b, s + 1, false, g.h);
      && Ready(g, n.a, p, s, false) && Ready(g, n.b, pb, s + 1, false) && Is(g.code, pe, APPLY(n.op, s))
      && Placed(g, p, pe + 1) && p + Size(n, s, clear, g.h) == pe + 1
  {
    hide Laid, Size, Is;
    ApplyParts(g.code, n, p, s, clear, g.h, g.ts);
    ApplySize(n, s, clear, g.h);
  }

  lemma ApplyRuns(g: Scene, n: Node, p: nat, s: nat, clear: bool, t: Temps, w: World)
    requires n.Apply? && Ready(g, n, p, s, clear)
    ensures Meets(g, Does(g, n, s, clear, t, w), p, p + Size(n, s, clear, g.h), t, w)
    decreases w.fuel, n, 0
  {
    hide Loop, Ready, Size, Laid;
    ApplyReady(g, n, p, s, clear);
    var pb := p + Size(n.a, s, false, g.h);
    var pe := pb + Size(n.b, s + 1, false, g.h);
    var x := Does(g, n.a, s, false, t, w);
    Runs(g, n.a, p, s, false, t, w);
    if Goes(x) {
      var y := Does(g, n.b, s + 1, false, x.t, x.w);
      Runs(g, n.b, pb, s + 1, false, x.t, x.w);
      Chain(g, y, p, pe, t, w, pb, pe, x.t, x.w);
      if Goes(y) {
        StepApply(g, pe, n.op, s, y.t, y.w);
        Chain(g, Does(g, n, s, clear, t, w), p, pe + 1, t, w, pe, pe + 1, y.t, y.w);
      }
    }
  }

  lemma ThenReady(g: Scene, n: Node, p: nat, s: nat, clear: bool)
    requires n.Then? && Ready(g, n, p, s, clear)
    ensures var pb := p + Size(n.a, s, true, g.h);
      var q := pb + Size(n.b, s, clear, g.h);
      && Ready(g, n.a, p, s, true) && Ready(g, n.b, pb, s, clear) && Placed(g, p, q) && p + Size(n, s, clear, g.h) == q
  {
    hide Laid, Size, Is;
    ThenParts(g.code, n, p, s, clear, g.h, g.ts);
    ThenSize(n, s, clear, g.h);
  }

  lemma ThenRuns(g: Scene, n: Node, p: nat, s: nat, clear: bool, t: Temps, w: World)
    requires n.Then? && Ready(g, n, p, s, clear)
    ensures Meets(g, Does(g, n, s, clear, t, w), p, p + Size(n, s, clear, g.h), t, w)
    decreases w.fuel, n, 0
  {
    hide Loop, Ready, Size, Laid;
    ThenReady(g, n, p, s, clear);
    var pb := p + Size(n.a, s, true, g.h);
    var q := pb + Size(n.b, s, clear, g.h);
    var x := Does(g, n.a, s, true, t, w);
    Runs(g, n.a, p, s, true, t, w);
    if Goes(x) {
      Runs(g, n.b, pb, s, clear, x.t, x.w);
      Chain(g, Does(g, n.b, s, clear, x.t, x.w), p, q, t, w, pb, q, x.t, x.w);
    }
  }

  lemma IfReady(g: Scene, n: Node, p: nat, s: nat, clear: bool)
    requires n.If? && Ready(g, n, p, s, clear)
    ensures var pt := p + Size(n.c, s, false, g.h) + 1;
      var pf := pt + Size(n.t, s, clear, g.h) + 1;
      var q := pf + Size(n.f, s, clear, g.h);
      && Ready(g, n.c, p, s, false) && Is(g.code, pt - 1, BRANCH(s, pf)) && Ready(g, n.t, pt, s, clear)
      && Is(g.code, pf - 1, JUMP(q)) && Ready(g, n.f, pf, s, clear)
      && Placed(g, p, q) && p + Size(n, s, clear, g.h) == q
  {
    hide Laid, Size, Is;
    IfParts(g.code, n, p, s, clear, g.h, g.ts);
    IfSize(n, s, clear, g.h);
  }

  lemma IfRuns(g: Scene, n: Node, p: nat, s: nat, clear: bool, t: Temps, w: World)
    requires n.If? && Ready(g, n, p, s, clear)
    ensures Meets(g, Does(g, n, s, clear, t, w), p, p + Size(n, s, clear, g.h), t, w)
    decreases w.fuel, n, 0
  {
    hide Loop, Ready, Size, Laid, Is;
    IfReady(g, n, p, s, clear);
    var pt := p + Size(n.c, s, false, g.h) + 1;
    var pf := pt + Size(n.t, s, clear, g.h) + 1;
    var q := pf + Size(n.f, s, clear, g.h);
    var x := Does(g, n.c, s, false, t, w);
    Runs(g, n.c, p, s, false, t, w);
    if Goes(x) {
      StepBranch(g, pt - 1, s, pf, x.t, x.w);
      if IsTrue(g.env, Read(x.t, s)) {
        var y := Does(g, n.t, s, clear, x.t, x.w);
        Runs(g, n.t, pt, s, clear, x.t, x.w);
        if Goes(y) {
          StepJump(g, pf - 1, q, y.t, y.w);
        } else {
          Chain(g, y, p, q, t, w, pt, pf - 1, x.t, x.w);
        }
      } else {
        Runs(g, n.f, pf, s, clear, x.t, x.w);
        Chain(g, Does(g, n.f, s, clear, x.t, x.w), p, q, t, w, pf, q, x.t, x.w);
      }
    }
  }

  lemma TailReady(g: Scene, n: Node, p: nat, s: nat, clear: bool)
    requires (n.Put? || n.Throw? || n.Break? || n.Return?) && Ready(g, n, p, s, clear)
    ensures var k := TailOf(n, s, g.h, g.ts);
      var pe := p + Size(k.e, k.s, k.clear, g.h);
      && Ready(g, k.e, p, k.s, k.clear) && Is(g.code, pe, k.x) && Placed(g, p, pe + 1)
      && p + Size(n, s, clear, g.h) == pe + 1 && (n.Break? ==> g.h.jumping) && (n.Return? ==> g.h.returning)
  {
    hide Laid, Size, Is;
    TailParts(g.code, n, p, s, clear, g.h, g.ts);
    TailSize(n, s, clear, g.h, g.ts);
  }

  /** What has been computed is stored or thrown, or jumped with. */
  lemma TailRuns(g: Scene, n: Node, p: nat, s: nat, clear: bool, t: Temps, w: World)
    requires (n.Put? || n.Throw? || n.Break? || n.Return?) && Ready(g, n, p, s, clear)
    ensures Meets(g, Does(g, n, s, clear, t, w), p, p + Size(n, s, clear, g.h), t, w)
    decreases w.fuel, n, 0
  {
    hide Loop, Ready, Size, Laid, Is;
    TailReady(g, n, p, s, clear);
    var k := TailOf(n, s, g.h, g.ts);
    var pe := p + Size(k.e, k.s, k.clear, g.h);
    var x := Does(g, k.e, k.s, k.clear, t, w);
    Runs(g, k.e, p, k.s, k.clear, t, w);
    if Goes(x) {
      match n
      case Put(i, _) => StepPut(g, pe, s, i, x.t, x.w);
      case Throw(_) => StepThrow(g, pe, s, x.t, x.w);
      case Break(_) => StepJump(g, pe, g.ts.onBreak, x.t, x.w);
      case Return(_) =>
        if g.h.tail {
          StepReturn(g, pe, g.h.returnStack, x.t, x.w);
        } else {
          StepJump(g, pe, g.ts.onReturn, x.t, x.w);
        }
    }
  }

  /** The scene of a loop's body. */
  function Looped(g: Scene, n: Node, p: nat, s: nat, clear: bool): Scene {
    Scene(g.code, g.env, InLoop(g.h, s, clear), Targets(p + Size(n, s, clear, g.h), p, g.ts.onReturn))
  }

  lemma WhileReady(g: Scene, n: Node, p: nat, s: nat, clear: bool)
    requires n.While? && Ready(g, n, p, s, clear)
    ensures var pb := p + Size(n.c, s, false, g.h) + 1;
      var px := pb + Size(n.body, s, true, InLoop(g.h, s, clear)) + 1;
      var q := p + Size(n, s, clear, g.h);
      && Ready(g, n.c, p, s, false) && Is(g.code, pb - 1, BRANCH(s, px)) && Ready(Looped(g, n, p, s, clear), n.body, pb, s, true)
      && Is(g.code, px - 1, JUMP(p)) && (if clear then q == px else q == px + 1 && Is(g.code, px, NUL(s)))
      && Placed(g, p, q)
  {
    hide Laid, Size, Is;
    WhileParts(g.code, n, p, s, clear, g.h, g.ts);
    WhileSize(n, s, clear, g.h);
  }

  /** The body, and what comes after it. */
  function Round(g: Scene, n: Node, s: nat, clear: bool, t: Temps, w: World): Ran
    requires n.While?
  {
    var y := Run(n.body, s, true, InLoop(g.h, s, clear), g.env, t, w);
    if !y.Ran? then y
    else if y.out.Breaking? then y.(out := Normally)
    else if !y.out.Normally? && !y.out.Continuing? then y
    else if y.w.fuel == 0 then Endless
    else Run(n, s, clear, g.h, g.env, y.t, y.w.(fuel := y.w.fuel - 1))
  }

  lemma DoesWhile(g: Scene, n: Node, s: nat, clear: bool, t: Temps, w: World)
    requires n.While?
    ensures var x := Does(g, n.c, s, false, t, w);
      Does(g, n, s, clear, t, w) ==
      if !Goes(x) then x else if IsTrue(g.env, Read(x.t, s)) then Round(g, n, s, clear, x.t, x.w)
      else Ran(Normally, Nulls(clear, s, x.t), x.w)
  {
  }

  lemma WhileRuns(g: Scene, n: Node, p: nat, s: nat, clear: bool, t: Temps, w: World)
    requires n.While? && Ready(g, n, p, s, clear)
    ensures Meets(g, Does(g, n, s, clear, t, w), p, p + Size(n, s, clear, g.h), t, w)
    decreases w.fuel, n, 1
  {
    hide Loop, Ready, Size, Laid, Is, Run, Round;
    DoesWhile(g, n, s, clear, t, w);
    WhileReady(g, n, p, s, clear);
    var pb, q := p + Size(n.c, s, false, g.h) + 1, p + Size(n, s, clear, g.h);
    var px := pb + Size(n.body, s, true, InLoop(g.h, s, clear)) + 1;
    var x := Does(g, n.c, s, false, t, w);
    Runs(g, n.c, p, s, false, t, w);
    if Goes(x) {
      StepBranch(g, pb - 1, s, px, x.t, x.w);
      if IsTrue(g.env, Read(x.t, s)) {
        BodyRuns(g, n, p, s, clear, t, w, x.t, x.w);
      } else if !clear {
        StepNul(g, px, s, x.t, x.w);
      }
    }
  }

  /** From the body of the loop on. */
  lemma BodyRuns(g: Scene, n: Node, p: nat, s: nat, clear: bool, t: Temps, w: World, t1: Temps, w1: World)
    requires n.While? && Ready(g, n, p, s, clear) && w1.fuel <= w.fuel
    requires At(g, p, t, w) == At(g, p + Size(n.c, s, false, g.h) + 1, t1, w1)
    ensures Meets(g, Round(g, n, s, clear, t1, w1), p, p + Size(n, s, clear, g.h), t, w)
    decreases w1.fuel, n, 0, 1
  {
    hide Loop, Ready, Size, Laid, Is, Run;
    WhileReady(g, n, p, s, clear);
    var pb, q := p + Size(n.c, s, false, g.h) + 1, p + Size(n, s, clear, g.h);
    var px := pb + Size(n.body, s, true, InLoop(g.h, s, clear)) + 1;
    var g1 := Looped(g, n, p, s, clear);
    var y := Does(g1, n.body, s, true, t1, w1);
    Runs(g1, n.body, pb, s, true, t1, w1);
    if y.Ran? {
      match y.out
      case Breaking =>
      case Returning =>
      case Throwing(_) =>
      case Normally =>
        StepJump(g, px - 1, p, y.t, y.w);
        Again(g, n, p, s, clear, t, w, y.t, y.w);
      case Continuing => Again(g, n, p, s, clear, t, w, y.t, y.w);
    }
  }

  /** Back to the condition. */
  lemma Again(g: Scene, n: Node, p: nat, s: nat, clear: bool, t: Temps, w: World, t2: Temps, w2: World)
    requires n.While? && Ready(g, n, p, s, clear)
    requires At(g, p, t, w) == if w2.fuel == 0 then Spent else At(g, p, t2, w2.(fuel := w2.fuel - 1))
    ensures Meets(g, if w2.fuel == 0 then Endless else Does(g, n, s, clear, t2, w2.(fuel := w2.fuel - 1)),
                  p, p + Size(n, s, clear, g.h), t, w)
    decreases w2.fuel, n, 0, 0
  {
    hide Loop, Size, Laid, Is, Run;
    if w2.fuel > 0 {
      var w3 := w2.(fuel := w2.fuel - 1);
      var q := p + Size(n, s, clear, g.h);
      WhileRuns(g, n, p, s, clear, t2, w3);
      Chain(g, Does(g, n, s, clear, t2, w3), p, q, t, w, p, q, t2, w3);
    }
  }

  // ----- try -----

  /** The scene of the parts of a `try`. */
  function Parted(g: Scene, n: Node, p: nat, s: nat, clear: bool): Scene
    requires n.Try?
  {
    var k := MarksOf(n, p, s, clear, g.h);
    Scene(g.code, g.env, Inner(g.h, s), Targets(k.ends + 1, k.ends + 2, k.ends + 3))
  }

  /** The scene of a `finally`. */
  function Outside(g: Scene): Scene {
    Scene(g.code, g.env, OUTSIDE, Targets(0, 0, 0))
  }

  ghost predicate ReadyClauses(g: Scene, cs: Catches, p: nat, s: nat, clear: bool) {
    && LaidCatches(g.code, cs, p, s, clear, g.h, g.ts) && LegalClauses(cs, g.h.jumping, g.h.returning)
    && Placed(g, p, p + CatchSize(cs, s, clear, g.h))
  }

  /** The ends of the parts that jump. */
  ghost predicate Ending(g: Scene) {
    && Is(g.code, g.ts.onBreak, FINALLY(BREAKING)) && Is(g.code, g.ts.onContinue, FINALLY(CONTINUING))
    && Is(g.code, g.ts.onReturn, FINALLY(RETURNING)) && !g.h.tail
  }

  lemma TryReady(g: Scene, n: Node, p: nat, s: nat, clear: bool)
    requires n.Try? && Ready(g, n, p, s, clear)
    ensures var k := MarksOf(n, p, s, clear, g.h);
      var g1 := Parted(g, n, p, s, clear);
      && Is(g.code, p, TRY(s, k.onCatch, k.onFinally)) && Ready(g1, n.body, p + 1, s, clear)
      && p + 1 + Size(n.body, s, clear, g1.h) == k.onCatch - 1 && Is(g.code, k.onCatch - 1, FINALLY(STEP))
      && ReadyClauses(g1, n.catches, k.onCatch, s, clear)
      && Ending(g1) && k.ends == k.onCatch + CatchSize(n.catches, s, clear, g1.h)
      && Is(g.code, k.ends, FINALLY(THROWING))
      && (n.last.Some? ==> Ready(Outside(g), n.last.value, k.onFinally, s + 1, true))
      && k.yrt == k.onFinally + LastSize(n.last, s)
      && Is(g.code, k.yrt, Resumption(g.h, s, g.ts, k)) && Moved(g.code, s, g.h, g.ts, k)
      && Placed(g, p, k.step) && p + Size(n, s, clear, g.h) == k.step
  {
    hide Laid, LaidCatches, Size, Is, Resumption, Moved, CatchSize;
    TryParts(g.code, n, p, s, clear, g.h, g.ts);
    TrySize(n, p, s, clear, g.h);
  }

  /** How a part ends by the way it is left, and what waits then. */
  function KindOf(out: Way): Kind {
    match out
    case Normally => STEP
    case Breaking => BREAKING
    case Continuing => CONTINUING
    case Returning => RETURNING
    case Throwing(_) => THROWING
  }

  function Pend(out: Way): Pending {
    if out.Throwing? then Rethrows(out.x) else Ends(KindOf(out))
  }

  /** What the loop for a part comes to. */
  ghost predicate Parts(g: Scene, r: Ran, p: nat, t: Temps, w: World) {
    match r
    case Endless => At(g, p, t, w) == Spent
    case Ran(out, t', w') =>
      && Within(out, g.h.jumping, g.h.returning)
      && if out.Throwing? then At(g, p, t, w) == Raised(out.x, t', w')
         else At(g, p, t, w).Left? && At(g, p, t, w) == Left(KindOf(out), At(g, p, t, w).pc, t', w')
  }

  lemma PartEnds(g: Scene, r: Ran, p: nat, q: nat, t: Temps, w: World)
    requires Meets(g, r, p, q, t, w) && Ending(g) && (Goes(r) ==> Is(g.code, q, FINALLY(STEP)))
    requires g.h.jumping ==> g.ts.onContinue > p
    ensures Parts(g, r, p, t, w)
  {
    hide Loop, Is;
    if r.Ran? {
      match r.out
      case Normally => StepFinally(g, q, STEP, r.t, r.w);
      case Breaking => StepFinally(g, g.ts.onBreak, BREAKING, r.t, r.w);
      case Continuing => StepFinally(g, g.ts.onContinue, CONTINUING, r.t, r.w);
      case Returning => StepFinally(g, g.ts.onReturn, RETURNING, r.t, r.w);
      case Throwing(_) =>
    }
  }

  function Catching(g: Scene, pc: nat, at: nat, x: int, t: Temps, w: World): Exit
    requires pc < |g.code| && g.code[pc].TRY?
  {
    RunCatch(g.code, g.env, pc, at, x, t, w)
  }

  function Finishing(g: Scene, pc: nat, p: Pending, t: Temps, w: World): Exit
    requires pc < |g.code| && g.code[pc].TRY?
  {
    RunFinally(g.code, g.env, pc, pc, p, t, w)
  }

  /** It does not matter from where before the `finally` it is entered. */
  lemma FinishFrom(g: Scene, pc: nat, from: nat, p: Pending, t: Temps, w: World)
    requires pc < |g.code| && g.code[pc].TRY? && from < |g.code|
    requires pc < g.code[pc].onFinally && from < g.code[pc].onFinally
    ensures RunFinally(g.code, g.env, pc, from, p, t, w) == Finishing(g, pc, p, t, w)
  {
    hide Loop;
  }

  /** The clauses from `at` on, by what the loop there comes to. */
  lemma StepCatching(g: Scene, pc: nat, at: nat, x: int, t: Temps, w: World)
    requires pc < |g.code| && g.code[pc].TRY? && at < |g.code| && pc < g.code[pc].onFinally && at < g.code[pc].onFinally
    ensures var r := At(g, at, t, w);
      && (r.Spent? ==> Catching(g, pc, at, x, t, w) == Spent)
      && (r.Raised? ==> Catching(g, pc, at, x, t, w) == Finishing(g, pc, Rethrows(r.x), r.t, r.w))
      && (r.Left? && r.k == THROWING ==> Catching(g, pc, at, x, t, w) == Finishing(g, pc, Rethrows(x), r.t, r.w))
      && (r.Left? && r.k != THROWING && r.k != CATCHING ==> Catching(g, pc, at, x, t, w) == Finishing(g, pc, Ends(r.k), r.t, r.w))
  {
    hide Loop, RunFinally;
    var r := At(g, at, t, w);
    if r.Raised? {
      FinishFrom(g, pc, at, Rethrows(r.x), r.t, r.w);
    } else if r.Left? {
      FinishFrom(g, pc, at, if r.k == THROWING then Rethrows(x) else Ends(r.k), r.t, r.w);
    }
  }

  /** A clause is tested. */
  lemma StepTest(g: Scene, pc: nat, at: nat, c: nat, x: int, t: Temps, w: World, t1: Temps, w1: World)
    requires pc < |g.code| && g.code[pc].TRY? && at < |g.code| && pc < g.code[pc].onFinally && at < g.code[pc].onFinally
    requires c < |g.code| && g.code[c].CATCH? && g.code[c].l > c && At(g, at, t, w) == At(g, c, t1, w1)
    ensures Catching(g, pc, at, x, t, w) ==
      match Tests(g.env, x, Read(t1, g.code[pc].s))
      case Yes => Catching(g, pc, c + 1, x, t1, Assign(w1, g.code[c].i, x))
      case No => Catching(g, pc, g.code[c].l, x, t1, w1)
      case Bad(y) => Finishing(g, pc, Rethrows(y), t1, w1)
  {
    hide Loop, RunFinally;
    StepEnd(g, c, t1, w1);
    if Tests(g.env, x, Read(t1, g.code[pc].s)).Bad? {
      FinishFrom(g, pc, at, Rethrows(Tests(g.env, x, Read(t1, g.code[pc].s)).x), t1, w1);
    }
  }

  /** What the clauses come to. */
  ghost predicate Handles(g: Scene, pc: nat, r: Ran, at: nat, x: int, t: Temps, w: World)
    requires pc < |g.code| && g.code[pc].TRY?
  {
    match r
    case Endless => Catching(g, pc, at, x, t, w) == Spent
    case Ran(out, t', w') =>
      Within(out, g.h.jumping, g.h.returning) && Catching(g, pc, at, x, t, w) == Finishing(g, pc, Pend(out), t', w')
  }

  lemma HandleParts(g: Scene, pc: nat, r: Ran, at: nat, x: int, t: Temps, w: World)
    requires pc < |g.code| && g.code[pc].TRY? && at < |g.code| && pc < g.code[pc].onFinally && at < g.code[pc].onFinally
    requires Parts(g, r, at, t, w)
    ensures Handles(g, pc, r, at, x, t, w)
  {
    hide Loop, RunFinally, RunCatch;
    StepCatching(g, pc, at, x, t, w);
  }

  lemma ClauseReady(g: Scene, cs: Catches, p: nat, s: nat, clear: bool)
    requires cs.Catch? && ReadyClauses(g, cs, p, s, clear)
    ensures var pb := p + Size(cs.kind, s, false, g.h) + 1;
      var pr := pb + Size(cs.body, s, clear, g.h) + 1;
      && Ready(g, cs.kind, p, s, false) && Is(g.code, pb - 1, CATCH(pr, cs.i)) && Ready(g, cs.body, pb, s, clear)
      && Is(g.code, pr - 1, FINALLY(STEP)) && ReadyClauses(g, cs.rest, pr, s, clear)
      && p + CatchSize(cs, s, clear, g.h) == pr + CatchSize(cs.rest, s, clear, g.h)
  {
    hide Laid, Size, Is, LaidCatches, CatchSize;
    CatchParts(g.code, cs, p, s, clear, g.h, g.ts);
    CatchesSize(cs, s, clear, g.h);
  }

  /** The place of the clauses in a `try`. */
  ghost predicate Clauses(g: Scene, pc: nat, cs: Catches, at: nat, s: nat, clear: bool) {
    && pc < |g.code| && g.code[pc].TRY? && g.code[pc].s == s && ReadyClauses(g, cs, at, s, clear) && Ending(g)
    && pc < at && at + CatchSize(cs, s, clear, g.h) < g.code[pc].onFinally
    && Is(g.code, at + CatchSize(cs, s, clear, g.h), FINALLY(THROWING))
    && g.ts.onContinue > at + CatchSize(cs, s, clear, g.h)
  }

  lemma ClausesRun(g: Scene, pc: nat, cs: Catches, at: nat, s: nat, clear: bool, x: int, t: Temps, w: World)
    requires Clauses(g, pc, cs, at, s, clear)
    ensures Handles(g, pc, RunClauses(cs, s, clear, g.h, g.env, x, t, w), at, x, t, w)
    decreases w.fuel, cs, 1
  {
    hide Loop, RunCatch, RunFinally, Run, ReadyClauses, Size, Is, CatchSize, Handles;
    match cs
    case NoCatch => Uncaught(g, pc, at, s, clear, x, t, w);
    case Catch(_, _, _, _) => ClauseRuns(g, pc, cs, at, s, clear, x, t, w);
  }

  lemma Uncaught(g: Scene, pc: nat, at: nat, s: nat, clear: bool, x: int, t: Temps, w: World)
    requires Clauses(g, pc, NoCatch, at, s, clear)
    ensures Handles(g, pc, Ran(Throwing(x), t, w), at, x, t, w)
  {
    hide Loop, RunCatch, RunFinally;
    StepFinally(g, at, THROWING, t, w);
    StepCatching(g, pc, at, x, t, w);
  }

  lemma ClauseRuns(g: Scene, pc: nat, cs: Catches, at: nat, s: nat, clear: bool, x: int, t: Temps, w: World)
    requires cs.Catch? && Clauses(g, pc, cs, at, s, clear)
    ensures Handles(g, pc, RunClauses(cs, s, clear, g.h, g.env, x, t, w), at, x, t, w)
    decreases w.fuel, cs, 0
  {
    hide Loop, RunCatch, RunFinally, Run, ReadyClauses, Ready, Size, CatchSize, Parts;
    ClauseReady(g, cs, at, s, clear);
    var pb := at + Size(cs.kind, s, false, g.h) + 1;
    var pr := pb + Size(cs.body, s, clear, g.h) + 1;
    var k := Does(g, cs.kind, s, false, t, w);
    Runs(g, cs.kind, at, s, false, t, w);
    if !Goes(k) {
      PartEnds(g, k, at, pb - 1, t, w);
      HandleParts(g, pc, k, at, x, t, w);
    } else {
      GoesOn(g, k, at, pb - 1, t, w);
      StepTest(g, pc, at, pb - 1, x, t, w, k.t, k.w);
      match Tests(g.env, x, Read(k.t, s))
      case Yes =>
        var w1 := Assign(k.w, cs.i, x);
        var b := Does(g, cs.body, s, clear, k.t, w1);
        Runs(g, cs.body, pb, s, clear, k.t, w1);
        PartEnds(g, b, pb, pr - 1, k.t, w1);
        HandleParts(g, pc, b, pb, x, k.t, w1);
      case No => ClausesRun(g, pc, cs.rest, pr, s, clear, x, k.t, k.w);
      case Bad(_) =>
    }
  }

  // ----- finally -----

  /** A `finally` that ends, at YRT. */
  lemma StepFinishing(g: Scene, pc: nat, y: nat, p: Pending, t: Temps, w: World, t1: Temps, w1: World)
    requires pc < |g.code| && g.code[pc].TRY? && pc < g.code[pc].onFinally && y < |g.code| && g.code[y].YRT?
    requires At(g, g.code[pc].onFinally, t, w) == At(g, y, t1, w1)
    ensures Finishing(g, pc, p, t, w) ==
      if p.Rethrows? then Raised(p.x, t1, w1) else
      match Resumes(g.code[y], p.k, y + 1)
      case None => Wrong
      case Some(q) => if Stops(pc, q, w1) then Spent else Left(STEP, q, t1, Gone(pc, q, w1))
  {
    hide Loop;
    StepEnd(g, y, t1, w1);
  }

  /** A `finally` that does not end. */
  lemma StepUnfinished(g: Scene, pc: nat, p: Pending, t: Temps, w: World)
    requires pc < |g.code| && g.code[pc].TRY? && pc < g.code[pc].onFinally
    requires !At(g, g.code[pc].onFinally, t, w).Left?
    ensures Finishing(g, pc, p, t, w) == At(g, g.code[pc].onFinally, t, w)
  {
    hide Loop;
  }

  /** After YRT: the value is moved to where the jump wants it. */
  ghost predicate Resuming(g: Scene, p: nat, s: nat, k: Marks) {
    && p < k.yrt && Is(g.code, k.yrt, Resumption(g.h, s, g.ts, k)) && Moved(g.code, s, g.h, g.ts, k)
    && Placed(g, p, k.step) && k.step == k.yrt + 1 + MoveSize(g.h, s) && k.onBreak == k.yrt + 2
    && k.onReturn == if MovesBreak(g.h, s) then k.yrt + 4 else k.yrt + 2
  }

  /** The interpreter, where the `try` began, goes on as after its YRT. */
  ghost predicate Resumed(g: Scene, p: nat, out: Way, k: Marks, t: Temps, w: World, t1: Temps, w1: World)
    requires k.yrt < |g.code| && g.code[k.yrt].YRT?
  {
    if out.Throwing? then At(g, p, t, w) == Raised(out.x, t1, w1)
    else match Resumes(g.code[k.yrt], KindOf(out), k.yrt + 1)
         case None => At(g, p, t, w) == Wrong
         case Some(q) => At(g, p, t, w) == Went(g, p, q, t1, w1)
  }

  lemma Resume(g: Scene, p: nat, out: Way, s: nat, k: Marks, t: Temps, w: World, t1: Temps, w1: World)
    requires Resuming(g, p, s, k) && Within(out, g.h.jumping, g.h.returning)
    requires k.yrt < |g.code| && g.code[k.yrt].YRT? && Resumed(g, p, out, k, t, w, t1, w1)
    ensures Meets(g, Settle(g.h, s, Ran(out, t1, w1)), p, k.step, t, w)
  {
    hide Loop;
    match out
    case Normally =>
      if MovesBreak(g.h, s) || MovesReturn(g.h, s) {
        StepJump(g, k.yrt + 1, k.step, t1, w1);
      }
    case Breaking =>
      if MovesBreak(g.h, s) {
        StepGet(g, k.onBreak, g.h.breakStack, s, t1, w1);
        StepJump(g, k.onBreak + 1, g.ts.onBreak, t1[g.h.breakStack := Read(t1, s)], w1);
      }
    case Continuing =>
    case Returning =>
      var t2 := if MovesReturn(g.h, s) then t1[g.h.returnStack := Read(t1, s)] else t1;
      if MovesReturn(g.h, s) {
        StepGet(g, k.onReturn, g.h.returnStack, s, t1, w1);
        StepJump(g, k.onReturn + 1, g.ts.onReturn, t2, w1);
      }
      if g.h.tail {
        StepReturn(g, g.ts.onReturn, g.h.returnStack, t2, w1);
      }
    case Throwing(_) =>
  }

  /** Going on from what f_try comes to. */
  ghost predicate After(g: Scene, p: nat, r: Exit, t: Temps, w: World) {
    At(g, p, t, w) == if r.Left? then At(g, r.pc, r.t, r.w) else r
  }

  /** The `finally` is not left for where jumps would lead. */
  lemma Unfinished(g: Scene, r: Ran, p: nat, q: nat, t: Temps, w: World, p1: nat, q1: nat, t1: Temps, w1: World)
    requires Meets(Outside(g), r, p1, q1, t1, w1) && !Goes(r)
    ensures !At(g, p1, t1, w1).Left?
    ensures At(g, p, t, w) == At(g, p1, t1, w1) ==> Meets(g, r, p, q, t, w)
  {
    hide Loop;
  }

  /** The `finally`, and what has waited for it. */
  function Afterwards(last: Option<Node>, s: nat, h: Shape, env: Env, y: Ran): Ran
    requires y.Ran?
  {
    if last.None? then Settle(h, s, y)
    else
      var z := Run(last.value, s + 1, true, OUTSIDE, env, y.t, y.w);
      if !Goes(z) then z else Settle(h, s, z.(out := y.out))
  }

  lemma FinallyRuns(g: Scene, n: Node, p: nat, s: nat, clear: bool, y: Ran, t: Temps, w: World)
    requires n.Try? && Ready(g, n, p, s, clear) && y.Ran? && Within(y.out, g.h.jumping, g.h.returning)
    requires p < |g.code| && g.code[p].TRY? && After(g, p, Finishing(g, p, Pend(y.out), y.t, y.w), t, w)
    ensures Meets(g, Afterwards(n.last, s, g.h, g.env, y), p, p + Size(n, s, clear, g.h), t, w)
    decreases y.w.fuel, n, 0
  {
    hide Loop, RunFinally, Run, Ready, Size, LastSize, CatchSize, Meets, Finishing, Moved, ReadyClauses;
    TryReady(g, n, p, s, clear);
    var k := MarksOf(n, p, s, clear, g.h);
    LastSizes(n.last, s);
    var t2, w2 := y.t, y.w;
    if n.last.Some? {
      var z := Does(Outside(g), n.last.value, s + 1, true, y.t, y.w);
      Runs(Outside(g), n.last.value, k.onFinally, s + 1, true, y.t, y.w);
      if !Goes(z) {
        Unfinished(g, z, p, k.step, t, w, k.onFinally, k.yrt, y.t, y.w);
        StepUnfinished(g, p, Pend(y.out), y.t, y.w);
        return;
      }
      GoesOn(Outside(g), z, k.onFinally, k.yrt, y.t, y.w);
      t2, w2 := z.t, z.w;
    }
    StepFinishing(g, p, k.yrt, Pend(y.out), y.t, y.w, t2, w2);
    Resume(g, p, y.out, s, k, t, w, t2, w2);
  }

  lemma LastSizes(last: Option<Node>, s: nat)
    ensures LastSize(last, s) == if last.Some? then Size(last.value, s + 1, true, OUTSIDE) else 0
  {
  }

  lemma DoesTry(g: Scene, n: Node, s: nat, clear: bool, t: Temps, w: World)
    requires n.Try?
    ensures var x := Run(n.body, s, clear, Inner(g.h, s), g.env, t, w);
      Does(g, n, s, clear, t, w) ==
      if !x.Ran? then x else
      var y := if x.out.Throwing? then RunClauses(n.catches, s, clear, Inner(g.h, s), g.env, x.out.x, x.t, x.w) else x;
      if !y.Ran? then y else Afterwards(n.last, s, g.h, g.env, y)
  {
    hide RunClauses, Inner, MovesBreak, MovesReturn;
  }

  /** f_try, by what the loop for the body comes to. */
  lemma StepRunTry(g: Scene, pc: nat, t: Temps, w: World)
    requires pc < |g.code| && g.code[pc].TRY? && pc < g.code[pc].onCatch
    ensures var r, f := At(g, pc + 1, t, w), RunTry(g.code, g.env, pc, t, w);
      && (r.Spent? ==> f == Spent)
      && (r.Raised? ==> f == Catching(g, pc, g.code[pc].onCatch, r.x, r.t, r.w))
      && (r.Left? ==> f == Finishing(g, pc, Ends(r.k), r.t, r.w))
  {
    hide Loop, RunFinally, RunCatch;
  }

  lemma TryRuns(g: Scene, n: Node, p: nat, s: nat, clear: bool, t: Temps, w: World)
    requires n.Try? && Ready(g, n, p, s, clear)
    ensures Meets(g, Does(g, n, s, clear, t, w), p, p + Size(n, s, clear, g.h), t, w)
    decreases w.fuel, n, 1
  {
    hide Loop, RunTry, RunFinally, RunCatch, Run, RunClauses, Ready, Size, LastSize, CatchSize, Meets, Resumption, Moved,
      ReadyClauses;
    DoesTry(g, n, s, clear, t, w);
    TryReady(g, n, p, s, clear);
    var k, g1 := MarksOf(n, p, s, clear, g.h), Parted(g, n, p, s, clear);
    var x := Does(g1, n.body, s, clear, t, w);
    StepTry(g, p, t, w);
    StepRunTry(g, p, t, w);
    Runs(g1, n.body, p + 1, s, clear, t, w);
    PartEnds(g1, x, p + 1, k.onCatch - 1, t, w);
    if x.Endless? {
      Hangs(g, p, k.step, t, w);
    } else if x.out.Throwing? {
      var y := RunClauses(n.catches, s, clear, g1.h, g.env, x.out.x, x.t, x.w);
      ClausesRun(g1, p, n.catches, k.onCatch, s, clear, x.out.x, x.t, x.w);
      if y.Endless? {
        Hangs(g, p, k.step, t, w);
      } else {
        FinallyRuns(g, n, p, s, clear, y, t, w);
      }
    } else {
      FinallyRuns(g, n, p, s, clear, x, t, w);
    }
  }

  lemma Hangs(g: Scene, p: nat, q: nat, t: Temps, w: World)
    requires At(g, p, t, w) == Spent
    ensures Meets(g, Endless, p, q, t, w)
  {
  }

  /** The interpreter does with the code of a construct what the construct does on the
      operand stack. */
  lemma {:induction false} Runs(g: Scene, n: Node, p: nat, s: nat, clear: bool, t: Temps, w: World)
    requires Ready(g, n, p, s, clear)
    ensures Meets(g, Does(g, n, s, clear, t, w), p, p + Size(n, s, clear, g.h), t, w)
    decreases w.fuel, n, 2
  {
    hide Ready, Meets, Run, Size;
    match n
    case Null => AtomRuns(g, n, p, s, clear, t, w);
    case Do(_) => AtomRuns(g, n, p, s, clear, t, w);
    case Continue => AtomRuns(g, n, p, s, clear, t, w);
    case Apply(_, _, _) => ApplyRuns(g, n, p, s, clear, t, w);
    case Then(_, _) => ThenRuns(g, n, p, s, clear, t, w);
    case If(_, _, _) => IfRuns(g, n, p, s, clear, t, w);
    case While(_, _) => WhileRuns(g, n, p, s, clear, t, w);
    case Put(_, _) => TailRuns(g, n, p, s, clear, t, w);
    case Break(_) => TailRuns(g, n, p, s, clear, t, w);
    case Throw(_) => TailRuns(g, n, p, s, clear, t, w);
    case Return(_) => TailRuns(g, n, p, s, clear, t, w);
    case Try(_, _, _) => TryRuns(g, n, p, s, clear, t, w);
  }

  lemma AtomRuns(g: Scene, n: Node, p: nat, s: nat, clear: bool, t: Temps, w: World)
    requires (n.Null? || n.Do? || n.Continue?) && Ready(g, n, p, s, clear)
    ensures Meets(g, Does(g, n, s, clear, t, w), p, p + Size(n, s, clear, g.h), t, w)
  {
    hide Loop;
    match n
    case Null =>
      if !clear {
        StepNul(g, p, s, t, w);
      }
    case Do(op) => StepDo(g, p, op, s, t, w);
    case Continue => StepJump(g, p, g.ts.onContinue, t, w);
  }

  // ----- Whole lambdas -----

  const LAMBDA := Shape(false, 0, false, true, 0, true)

  /** t_lambda::f_emit: the body with its value, and the label where returns from
      inside a `try` lead. */
  function Program(n: Node): Code {
    Emit(n, 0, 0, false, LAMBDA, Targets(0, 0, Size(n, 0, false, LAMBDA))) + [RETURN(0)]
  }

  /** What the parser accepts as the body of a lambda. */
  predicate Proper(n: Node) {
    Legal(n, false, true)
  }

  /** What a call of the lambda comes to. */
  function Called(r: Ran): Exit {
    match r
    case Endless => Spent
    case Ran(out, t, w) =>
      match out
      case Normally => Ended(Read(t, 0), w)
      case Returning => Ended(Read(t, 0), w)
      case Throwing(x) => Raised(x, t, w)
      case _ => Wrong
  }

  lemma ProgramRuns(n: Node, env: Env, w: World)
    requires Proper(n)
    ensures Loop(Program(n), env, 0, map[], w) == Called(Run(n, 0, false, LAMBDA, env, map[], w))
  {
    hide Run, Laid, Legal, Size, Emit;
    var q := Size(n, 0, false, LAMBDA);
    var ts := Targets(0, 0, q);
    var g := Scene(Program(n), env, LAMBDA, ts);
    EmitSize(n, 0, 0, false, LAMBDA, ts);
    assert Holds(Program(n), 0, Emit(n, 0, 0, false, LAMBDA, ts));
    EmitLaid(Program(n), n, 0, 0, false, LAMBDA, ts);
    assert Is(g.code, q, RETURN(0));
    Runs(g, n, 0, 0, false, map[], w);
    var r := Does(g, n, 0, false, map[], w);
    if Goes(r) {
      StepReturn(g, q, 0, r.t, r.w);
    }
  }
}
