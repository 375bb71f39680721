/** The code for a lambda does what the script means exactly if no operand can be
    lost in it. */
module Meaning {
  import opened Options
  import opened Trying
  import opened TryCode
  import opened Stacked
  import opened Tried
  import opened Operands
  import opened Lost

  /** A call of the lambda comes to what it means. */
  ghost predicate Agrees(r: Result, e: Exit) {
    match r
    case Forever => e.Spent?
    case Done(out, w) =>
      match out
      case Normal(v) => e == Ended(v, w)
      case Returned(v) => e == Ended(v, w)
      case Thrown(x) => e.Raised? && e.x == x && e.w == w
      case _ => false
  }

  ghost predicate Right(n: Node) {
    forall env: Env, w: World :: Agrees(Eval(n, env, w), Loop(Program(n), env, 0, map[], w))
  }

  /** No path through the lambda loses an operand. */
  predicate Safe(n: Node) {
    !Loses(Paths(n, 0, false, LAMBDA, 0))
  }

  /** All values of jumps are moved to where they are wanted: no `break` takes one out of
      a `try` below the stack of its loop. */
  predicate Placed(n: Node) {
    Tight(n, 0, false, LAMBDA)
  }

  lemma SafeAgrees(n: Node, env: Env, w: World)
    requires Proper(n) && Placed(n) && Safe(n)
    ensures Agrees(Eval(n, env, w), Loop(Program(n), env, 0, map[], w))
  {
    hide Eval, Run, Loop, Program, Paths, Tight, Fits;
    ProgramRuns(n, env, w);
    var p := Sound(n, 0, false, LAMBDA, 0, env, map[], w);
  }

  /** What is done on the stack is split from what is meant, and so is the call. */
  lemma SplitCall(r: Result, q: Ran, z: Plan, c: Case)
    requires Split(r, q, z, c)
    ensures var e := Called(q); r.Done? && !Agrees(r, e) && (e.Ended? || e.Raised? ==> Apart(r.w.history, e.w.history))
  {
  }

  /** An operation is called with other operands than is meant, or it ends otherwise. */
  lemma UnsafeDiffers(n: Node) returns (env: Env, w: World)
    requires Proper(n) && Placed(n) && !Safe(n)
    ensures var r, e := Eval(n, env, w), Loop(Program(n), env, 0, map[], w);
      r.Done? && !Agrees(r, e) && (e.Ended? || e.Raised? ==> Apart(r.w.history, e.w.history))
  {
    hide Eval, Run, Loop, Program, Paths, Tight, Legal, Achieves, Suits, Split, Scripted, Agrees, Apart, Called;
    var v := View(0, false, LAMBDA, 0);
    var p :| p in PathsOf(n, v) && p.end == AtLoss;
    var z := Realize(n, v, p, 0);
    var c := SomeCase(z, 0);
    Achieve(Lost.At(n, v), v, p, z, 0, c);
    env, w := Scripted(c.throws, c.decide), c.w;
    ProgramRuns(n, env, w);
    SplitCall(Eval(n, env, w), Run(n, 0, false, LAMBDA, env, map[], w), z, c);
  }

  /** For each lambda whose values are in place: its code does what it means, in all
      surroundings and from all states, exactly if no path loses an operand. Without
      values in place this is no condition: see `Misplaced` and `Unseen`. There all
      depends on whether the code that gets another value does the same with it, and so
      on whether other code means the same. */
  lemma RightIfSafe(n: Node)
    requires Proper(n) && Placed(n)
    ensures Right(n) <==> Safe(n)
  {
    hide Eval, Loop, Program, Agrees, Placed, Proper, Safe;
    if Safe(n) {
      forall env: Env, w: World
        ensures Agrees(Eval(n, env, w), Loop(Program(n), env, 0, map[], w))
      {
        SafeAgrees(n, env, w);
      }
    } else {
      var env, w := UnsafeDiffers(n);
    }
  }

  // ----- Examples -----

  /** Each answer is how much has happened; only the `k`th is true. */
  function TrueAt(k: nat): Env {
    Scripted((i: nat) => false, (i: nat) => if i == k then 1 else 0)
  }

  /** `f(a(), while b(); return (c(), continue))` */
  const PENDING := Apply(0, Do(1), While(Do(2), Return(Then(Do(3), Continue))))

  /** The value of an operation. */
  lemma Answers(env: Env, k: nat, op: nat, s: nat, h: Shape, t: Temps, w: World)
    requires env == TrueAt(k)
    ensures var w' := Happens(w, op, []);
      Eval(Do(op), env, w) == Done(Normal(|w'.history|), w')
      && forall clear: bool :: Run(Do(op), s, clear, h, env, t, w) == Ran(Normally, t[s := |w'.history|], w')
  {
  }

  /** The operand from `a()` is replaced by the value of `c()`: `f` is called with
      other operands than is meant. */
  lemma Overwritten(w: World)
    requires w.history == [] && w.fuel == 1
    ensures Proper(PENDING) && Placed(PENDING) && !Safe(PENDING) && !Right(PENDING)
    ensures var w' := World(w.vars, Four(w.vars), 0);
      && Eval(PENDING, TrueAt(2), w) == Done(Normal(5), Happens(w', 0, [1, NULL]))
      && Loop(Program(PENDING), TrueAt(2), 0, map[], w) == Ended(5, Happens(w', 0, [3, NULL]))
  {
    hide Eval, Loop, Program, Safe, Right, Placed, Proper;
    PendingProper();
    PendingMeans(w);
    var t := PendingRuns(w);
    ProgramRuns(PENDING, TrueAt(2), w);
    Differ(World(w.vars, Four(w.vars), 0), [1, NULL], [3, NULL]);
    NotRight(PENDING, TrueAt(2), w);
    RightIfSafe(PENDING);
  }

  lemma NotRight(n: Node, env: Env, w: World)
    requires !Agrees(Eval(n, env, w), Loop(Program(n), env, 0, map[], w))
    ensures !Right(n)
  {
  }

  function Four(vars: seq<int>): seq<Event> {
    [Event(1, vars, []), Event(2, vars, []), Event(3, vars, []), Event(2, vars, [])]
  }

  lemma PendingProper()
    ensures Proper(PENDING) && Placed(PENDING)
  {
    PendingLegal(PENDING);
    PendingTight(PENDING);
  }

  lemma PendingLegal(n: Node)
    requires n == PENDING
    ensures Legal(n, false, true)
  {
    assert Legal(n.b.body, true, true);
  }

  lemma PendingTight(n: Node)
    requires n == PENDING
    ensures Tight(n, 0, false, LAMBDA)
  {
    var h := InLoop(LAMBDA, 1, false);
    PendingBodyTight(n.b.body, 1, true, h);
    hide Breaks, BreaksClauses;
    assert Tight(n.b, 1, false, LAMBDA);
  }

  lemma PendingBodyTight(n: Node, s: nat, clear: bool, h: Shape)
    requires n.Return? && n.e.Then? && n.e.a.Do? && n.e.b.Continue?
    ensures Tight(n, s, clear, h)
  {
    hide Breaks, BreaksClauses;
    assert Tight(n.e, h.returnStack, false, h);
  }

  lemma PendingMeans(w: World)
    requires w.history == [] && w.fuel == 1
    ensures Eval(PENDING, TrueAt(2), w) == Done(Normal(5), Happens(World(w.vars, Four(w.vars), 0), 0, [1, NULL]))
  {
    hide Eval;
    var env, loop := TrueAt(2), PENDING.b;
    var w1 := Happens(w, 1, []);
    var w2 := Happens(w1, 2, []);
    var w3 := Happens(w2, 3, []);
    var w4 := Happens(w3.(fuel := 0), 2, []);
    assert w4 == World(w.vars, Four(w.vars), 0);
    Answers(env, 2, 1, 0, LAMBDA, map[], w);
    Answers(env, 2, 2, 1, LAMBDA, map[], w1);
    Answers(env, 2, 3, 0, LAMBDA, map[], w2);
    Answers(env, 2, 2, 1, LAMBDA, map[], w3.(fuel := 0));
    ReturnMeans(loop.body, env, w2);
    WhileEval(loop, env, w3.(fuel := 0));
    WhileEval(loop, env, w1);
    ApplyEval(PENDING, env, w);
  }

  lemma ReturnMeans(n: Node, env: Env, w: World)
    requires n == PENDING.b.body && env == TrueAt(2)
    ensures Eval(n, env, w) == Done(Continued, Happens(w, 3, []))
  {
    Answers(env, 2, 3, 0, LAMBDA, map[], w);
    assert Eval(n.e.b, env, Happens(w, 3, [])) == Done(Continued, Happens(w, 3, []));
    assert Eval(n.e, env, w) == Eval(n.e.b, env, Happens(w, 3, []));
  }

  lemma PendingRuns(w: World) returns (t: Temps)
    requires w.history == [] && w.fuel == 1
    ensures Read(t, 0) == 5
    ensures Run(PENDING, 0, false, LAMBDA, TrueAt(2), map[], w) == Ran(Normally, t, Happens(World(w.vars, Four(w.vars), 0), 0, [3, NULL]))
  {
    hide Run;
    var env, loop, h := TrueAt(2), PENDING.b, InLoop(LAMBDA, 1, false);
    var w1 := Happens(w, 1, []);
    var w2 := Happens(w1, 2, []);
    var w3 := Happens(w2, 3, []);
    var w4 := Happens(w3.(fuel := 0), 2, []);
    assert w4 == World(w.vars, Four(w.vars), 0);
    var t1: Temps := map[][0 := 1];
    var t2 := t1[1 := 2];
    var t3 := t2[0 := 3];
    Answers(env, 2, 1, 0, LAMBDA, map[], w);
    Answers(env, 2, 2, 1, LAMBDA, t1, w1);
    Answers(env, 2, 2, 1, LAMBDA, t3, w3.(fuel := 0));
    ReturnRuns(loop.body, h, env, t2, w2);
    WhileRun(loop, 1, false, LAMBDA, env, t3, w3.(fuel := 0));
    WhileRun(loop, 1, false, LAMBDA, env, t1, w1);
    ApplyRun(PENDING, 0, false, LAMBDA, env, map[], w);
    t := t3[1 := |w4.history|][1 := NULL][0 := 5];
  }

  lemma ReturnRuns(n: Node, h: Shape, env: Env, t: Temps, w: World)
    requires n == PENDING.b.body && env == TrueAt(2) && h.returnStack == 0
    ensures Run(n, 1, true, h, env, t, w) == Ran(Continuing, t[0 := |w.history| + 1], Happens(w, 3, []))
  {
    Answers(env, 2, 3, 0, h, t, w);
    var w', t' := Happens(w, 3, []), t[0 := |w.history| + 1];
    assert Run(n.e.b, 0, false, h, env, t', w') == Ran(Continuing, t', w');
    assert Run(n.e, 0, false, h, env, t, w) == Run(n.e.b, 0, false, h, env, t', w');
  }

  /** `f(a(), while b(); return continue)` */
  const HARMLESS := Apply(0, Do(1), While(Do(2), Return(Continue)))

  /** A jump in the operand of a return does no harm by itself. */
  lemma Unharmed()
    ensures Proper(HARMLESS) && Placed(HARMLESS) && Safe(HARMLESS) && Right(HARMLESS)
  {
    hide Paths, Right;
    var loop, h := HARMLESS.b, InLoop(LAMBDA, 1, false);
    assert Legal(loop.body, true, true);
    assert Tight(loop.body, 1, true, h);
    HarmlessSafe(HARMLESS);
    RightIfSafe(HARMLESS);
  }

  lemma HarmlessSafe(n: Node)
    requires n == HARMLESS
    ensures Safe(n)
  {
    hide Paths;
    HarmlessLoop(n.b, 1, 0);
    AtomPaths(n.a, 0, 0);
    ApplyPaths(n, 0, false, LAMBDA, 0);
  }

  lemma AtomPaths(n: Node, s: nat, k: nat)
    requires n.Do? || n.Null?
    ensures forall p :: p in Paths(n, s, false, LAMBDA, k) ==> (p.end == AtEnd || p.end == AtThrow) && (s != k ==> p.mark.Kept?)
    ensures n.Null? && s == k ==> Paths(n, s, false, LAMBDA, k) == {Path(AtEnd, Cleared, false)}
  {
  }

  lemma HarmlessLoop(n: Node, s: nat, k: nat)
    requires n.While? && n.c.Do? && n.body.Return? && n.body.e.Continue? && k != s
    ensures forall p :: p in Paths(n, s, false, LAMBDA, k) ==> p.end != AtLoss && p.mark.Kept?
  {
    var h := InLoop(LAMBDA, s, false);
    assert Paths(n.body, s, true, h, k) == {Path(AtContinue, Kept, false)} by {
      assert Paths(n.body.e, h.returnStack, false, h, k) == {Path(AtContinue, Kept, false)};
    }
    AtomPaths(n.c, s, k);
    WhilePaths(n, s, false, LAMBDA, k);
    hide Paths;
  }

  // Values that are not in place. Whether such a lambda is right depends on whether
  // the code after it does the same with another value.

  /** `while b(); return try break finally null` */
  const BARE := While(Do(2), Return(Try(Break(Null), NoCatch, Some(Null))))

  /** `f(null, while b(); return try break finally null)` */
  const MISPLACED := Apply(0, Null, BARE)

  /** `f(null, if (while b(); return try break finally null) null else null)` */
  const UNSEEN := Apply(0, Null, If(BARE, Null, Null))

  lemma BareLoop(env: Env, t: Temps, w: World)
    ensures var w', f := Happens(w, 2, []), env.answer(Happens(w, 2, []).history);
      Eval(BARE, env, w) == Done(if f.Throws? then Thrown(f.x) else Normal(NULL), w')
    ensures var w', f := Happens(w, 2, []), env.answer(Happens(w, 2, []).history);
      Run(BARE, 1, false, LAMBDA, env, t, w)
      == if f.Throws? then Ran(Throwing(f.x), t, w')
         else Ran(Normally, if IsTrue(env, f.v) then t[1 := f.v][0 := NULL] else t[1 := f.v][1 := NULL], w')
  {
    hide Eval, Run;
    var w', h := Happens(w, 2, []), InLoop(LAMBDA, 1, false);
    DoMeans(env, 2, 1, LAMBDA, t, w);
    WhileEval(BARE, env, w);
    WhileRun(BARE, 1, false, LAMBDA, env, t, w);
    if env.answer(w'.history).Value? {
      BareBody(BARE.body, env, h, t[1 := env.answer(w'.history).v], w');
    }
  }

  lemma DoMeans(env: Env, op: nat, s: nat, h: Shape, t: Temps, w: World)
    ensures var w' := Happens(w, op, []);
      && Eval(Do(op), env, w) == Done(Came(env.answer(w'.history)), w')
      && Run(Do(op), s, false, h, env, t, w) == Gives(env.answer(w'.history), s, t, w')
  {
  }

  lemma BareBody(n: Node, env: Env, h: Shape, t: Temps, w: World)
    requires n == BARE.body && h == InLoop(LAMBDA, 1, false)
    ensures Eval(n, env, w) == Done(Broken(NULL), w) && Run(n, 1, true, h, env, t, w) == Ran(Breaking, t[0 := NULL], w)
  {
    var b := n.e.body;
    assert Eval(b, env, w) == Done(Broken(NULL), w);
    assert Eval(n.e, env, w) == Done(Broken(NULL), w);
    assert Run(b, 0, false, Inner(h, 0), env, t, w) == Ran(Breaking, t[0 := NULL], w);
    assert Run(n.e.last.value, 1, true, OUTSIDE, env, t[0 := NULL], w) == Ran(Normally, t[0 := NULL], w);
    assert Run(n.e, 0, false, h, env, t, w) == Ran(Breaking, t[0 := NULL], w);
  }

  lemma NullOperand(env: Env, s: nat, h: Shape, t: Temps, w: World)
    ensures Eval(Null, env, w) == Done(Normal(NULL), w) && Run(Null, s, false, h, env, t, w) == Ran(Normally, t[s := NULL], w)
  {
  }

  lemma BareLegal(n: Node)
    requires n == BARE
    ensures Legal(n, false, true) && !Tight(n, 1, false, LAMBDA)
  {
    assert Legal(n.body, true, true) by {
      assert Legal(n.body.e, true, true);
    }
    assert !Tight(n.body, 1, true, InLoop(LAMBDA, 1, false)) by {
      assert Breaks(n.body.e.body);
      assert !Tight(n.body.e, 0, false, InLoop(LAMBDA, 1, false));
    }
  }

  lemma BarePaths(n: Node)
    requires n == BARE
    ensures forall p :: p in Paths(n, 1, false, LAMBDA, 0) ==> p.end != AtLoss && (p.mark.Kept? || p.mark.Cleared?)
  {
    hide Paths, Eval, Run, Turns, Lasts;
    var h := InLoop(LAMBDA, 1, false);
    BareBodyPaths(n.body.e, h);
    PartMeans(n.body, 1, true, h, 0, TrueAt(1), map[], World([], [], 0));
    AtomPaths(n.c, 1, 0);
    WhilePaths(n, 1, false, LAMBDA, 0);
    BreakPaths(Paths(n.c, 1, false, LAMBDA, 0), Paths(n.body, 1, true, h, 0));
  }

  lemma BreakPaths(x: set<Path>, y: set<Path>)
    requires forall p :: p in x ==> (p.end == AtEnd || p.end == AtThrow) && p.mark.Kept?
    requires y == {Path(AtBreak, Cleared, false)}
    ensures forall p :: p in AfterMarks(Turns(x, y), Lasts(x, y, 1, false, 0)) ==>
      p.end != AtLoss && (p.mark.Kept? || p.mark.Cleared?)
  {
  }

  lemma BareBodyPaths(n: Node, h: Shape)
    requires n == BARE.body.e && h == InLoop(LAMBDA, 1, false)
    ensures Paths(n, 0, false, h, 0) == {Path(AtBreak, Cleared, false)}
  {
    hide Paths, Eval, Run, ClausePaths;
    BreakNull(n.body, Inner(h, 0));
    ClearNull(n.last.value);
    TryPaths(n, 0, false, h, 0);
    assert SettlePath(h, 0, 0, Path(AtBreak, Cleared, false)) == Path(AtBreak, Cleared, false);
  }

  lemma BreakNull(n: Node, h: Shape)
    requires n.Break? && n.e.Null? && h.breakStack == 0 && !h.clears
    ensures Paths(n, 0, false, h, 0) == {Path(AtBreak, Cleared, false)}
  {
    assert Paths(n.e, 0, false, h, 0) == {Path(AtEnd, Cleared, false)};
  }

  lemma ClearNull(n: Node)
    requires n.Null?
    ensures Paths(n, 1, true, OUTSIDE, 0) == {Path(AtEnd, Kept, false)}
  {
  }

  /** No operand is lost, but the loop has not the value that it is left with. */
  lemma Misplaced(w: World)
    requires w.history == []
    ensures var w' := Happens(w, 2, []);
      && Eval(MISPLACED, TrueAt(1), w) == Done(Normal(2), Happens(w', 0, [NULL, NULL]))
      && Loop(Program(MISPLACED), TrueAt(1), 0, map[], w) == Ended(2, Happens(w', 0, [NULL, 1]))
    ensures Proper(MISPLACED) && Safe(MISPLACED) && !Placed(MISPLACED) && !Right(MISPLACED)
  {
    hide Eval, Run, Loop, Program, Right, Safe, Placed, Proper, Legal, Tight, Happens;
    var w' := Happens(w, 2, []);
    BareLegal(BARE);
    OperandLegal(MISPLACED, BARE);
    MisplacedSafe(MISPLACED);
    MisplacedMeans(TrueAt(1), w);
    ProgramRuns(MISPLACED, TrueAt(1), w);
    Differ(w', [NULL, NULL], [NULL, 1]);
    NotRight(MISPLACED, TrueAt(1), w);
  }

  lemma OperandLegal(n: Node, loop: Node)
    requires n.Apply? && n.a.Null? && (n.b == loop || (n.b.If? && n.b.c == loop && n.b.t.Null? && n.b.f.Null?))
    requires Legal(loop, false, true) && !Tight(loop, 1, false, LAMBDA)
    ensures Proper(n) && !Placed(n)
  {
    hide Breaks, BreaksClauses;
    assert Legal(n.a, false, true);
    if n.b != loop {
      assert Legal(n.b.t, false, true) && Legal(n.b.f, false, true) && Legal(n.b, false, true);
    }
    assert !Tight(n.b, 1, false, LAMBDA);
  }

  lemma Differ(w: World, a: seq<int>, b: seq<int>)
    requires a != b
    ensures Happens(w, 0, a) != Happens(w, 0, b)
  {
    assert Happens(w, 0, a).history[|w.history|] != Happens(w, 0, b).history[|w.history|];
  }

  lemma MisplacedSafe(n: Node)
    requires n == MISPLACED
    ensures Safe(n)
  {
    hide Paths;
    BarePaths(n.b);
    AtomPaths(n.a, 0, 0);
    ApplyPaths(n, 0, false, LAMBDA, 0);
  }

  lemma MisplacedMeans(env: Env, w: World)
    requires env == TrueAt(1) && w.history == []
    ensures var w' := Happens(w, 2, []); Eval(MISPLACED, env, w) == Done(Normal(2), Happens(w', 0, [NULL, NULL]))
    ensures var w', r := Happens(w, 2, []), Run(MISPLACED, 0, false, LAMBDA, env, map[], w);
      r.Ran? && r.out.Normally? && Read(r.t, 0) == 2 && r.w == Happens(w', 0, [NULL, 1])
  {
    hide Eval, Run;
    var t: Temps := map[][0 := NULL];
    NullOperand(env, 0, LAMBDA, map[], w);
    BareLoop(env, t, w);
    ApplyEval(MISPLACED, env, w);
    ApplyRun(MISPLACED, 0, false, LAMBDA, env, map[], w);
  }

  /** Here nothing is made of the value. */
  lemma Unseen()
    ensures Proper(UNSEEN) && !Placed(UNSEEN) && Right(UNSEEN)
  {
    hide Eval, Run, Loop, Program, Placed, Proper, Agrees, Legal, Tight;
    BareLegal(BARE);
    OperandLegal(UNSEEN, BARE);
    forall env: Env, w: World
      ensures Agrees(Eval(UNSEEN, env, w), Loop(Program(UNSEEN), env, 0, map[], w))
    {
      UnseenAgrees(env, w);
    }
  }

  lemma UnseenAgrees(env: Env, w: World)
    requires Proper(UNSEEN)
    ensures Agrees(Eval(UNSEEN, env, w), Loop(Program(UNSEEN), env, 0, map[], w))
  {
    hide Eval, Run, Loop, Program, Paths, Proper;
    var t: Temps := map[][0 := NULL];
    NullOperand(env, 0, LAMBDA, map[], w);
    BareLoop(env, t, w);
    IfMeans(UNSEEN.b, 1, false, LAMBDA, 0, env, t, w);
    var u := Run(BARE, 1, false, LAMBDA, env, t, w);
    if Goes(u) {
      NullOperand(env, 1, LAMBDA, u.t, u.w);
    }
    ApplyEval(UNSEEN, env, w);
    ApplyRun(UNSEEN, 0, false, LAMBDA, env, map[], w);
    ProgramRuns(UNSEEN, env, w);
  }
}
