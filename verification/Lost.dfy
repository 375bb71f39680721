/** Every path that the analysis of operands finds is taken for some answers of the
    outside: an operand that may be lost is lost in some run. */
module Lost {
  import opened Options
  import opened Trying
  import opened TryCode
  import opened Stacked
  import opened Operands

  // ----- What can only grow -----

  lemma {:induction false} RunExtends(n: Node, s: nat, clear: bool, h: Shape, env: Env, t: Temps, w: World)
    ensures var r := Run(n, s, clear, h, env, t, w); r.Ran? ==> w.history <= r.w.history
    decreases w.fuel, n, 1
  {
    hide Run, Eval, Paths;
    match n
    case Apply(_, a, b) =>
      ApplyRun(n, s, clear, h, env, t, w);
      RunExtends(a, s, false, h, env, t, w);
      var x := Run(a, s, false, h, env, t, w);
      if Goes(x) {
        RunExtends(b, s + 1, false, h, env, x.t, x.w);
      }
    case Then(a, b) =>
      ThenMeans(n, s, clear, h, 0, env, t, w);
      RunExtends(a, s, true, h, env, t, w);
      var x := Run(a, s, true, h, env, t, w);
      if Goes(x) {
        RunExtends(b, s, clear, h, env, x.t, x.w);
      }
    case If(c, a, b) =>
      IfMeans(n, s, clear, h, 0, env, t, w);
      RunExtends(c, s, false, h, env, t, w);
      var x := Run(c, s, false, h, env, t, w);
      if Goes(x) {
        RunExtends(a, s, clear, h, env, x.t, x.w);
        RunExtends(b, s, clear, h, env, x.t, x.w);
      }
    case While(_, _) => WhileExtends(n, s, clear, h, env, t, w);
    case Try(_, _, _) => TryExtends(n, s, clear, h, env, t, w);
    case Null => AtomExtends(n, s, clear, h, env, t, w);
    case Do(_) => AtomExtends(n, s, clear, h, env, t, w);
    case Continue => AtomExtends(n, s, clear, h, env, t, w);
    case _ =>
      PartMeans(n, s, clear, h, 0, env, t, w);
      var u := PartOf(n, s, h);
      RunExtends(u.e, u.s, u.clear, h, env, t, w);
  }

  lemma AtomExtends(n: Node, s: nat, clear: bool, h: Shape, env: Env, t: Temps, w: World)
    requires n.Null? || n.Do? || n.Continue?
    ensures var r := Run(n, s, clear, h, env, t, w); r.Ran? ==> w.history <= r.w.history
  {
  }

  lemma WhileExtends(n: Node, s: nat, clear: bool, h: Shape, env: Env, t: Temps, w: World)
    requires n.While?
    ensures var r := Run(n, s, clear, h, env, t, w); r.Ran? ==> w.history <= r.w.history
    decreases w.fuel, n, 0
  {
    hide Run;
    WhileRun(n, s, clear, h, env, t, w);
    RunExtends(n.c, s, false, h, env, t, w);
    var x := Run(n.c, s, false, h, env, t, w);
    if Goes(x) && IsTrue(env, Read(x.t, s)) {
      RunExtends(n.body, s, true, InLoop(h, s, clear), env, x.t, x.w);
      var y := Run(n.body, s, true, InLoop(h, s, clear), env, x.t, x.w);
      if y.Ran? && (y.out.Normally? || y.out.Continuing?) && y.w.fuel > 0 {
        WhileExtends(n, s, clear, h, env, y.t, y.w.(fuel := y.w.fuel - 1));
      }
    }
  }

  lemma TryExtends(n: Node, s: nat, clear: bool, h: Shape, env: Env, t: Temps, w: World)
    requires n.Try?
    ensures var r := Run(n, s, clear, h, env, t, w); r.Ran? ==> w.history <= r.w.history
    decreases w.fuel, n, 0
  {
    hide Run, RunClauses;
    TryRun(n, s, clear, h, env, t, w);
    var x := Run(n.body, s, clear, Inner(h, s), env, t, w);
    RunExtends(n.body, s, clear, Inner(h, s), env, t, w);
    if x.Ran? {
      var y := x;
      if x.out.Throwing? {
        y := RunClauses(n.catches, s, clear, Inner(h, s), env, x.out.x, x.t, x.w);
        ClausesExtend(n.catches, s, clear, Inner(h, s), env, x.out.x, x.t, x.w);
      }
      if y.Ran? && n.last.Some? {
        RunExtends(n.last.value, s + 1, true, OUTSIDE, env, y.t, y.w);
      }
    }
  }

  lemma ClausesExtend(cs: Catches, s: nat, clear: bool, h: Shape, env: Env, x: int, t: Temps, w: World)
    ensures var r := RunClauses(cs, s, clear, h, env, x, t, w); r.Ran? ==> w.history <= r.w.history
    decreases w.fuel, cs, 2
  {
    hide Run;
    if cs.Catch? {
      var k := Run(cs.kind, s, false, h, env, t, w);
      RunExtends(cs.kind, s, false, h, env, t, w);
      if Goes(k) {
        RunExtends(cs.body, s, clear, h, env, k.t, Assign(k.w, cs.i, x));
        ClausesExtend(cs.rest, s, clear, h, env, x, k.t, k.w);
      }
    }
  }

  // ----- A scripted outside -----

  /** The `i`th operation throws or gives `i`; `decide` says what a value counts as:
      true for 1, and where types are tested 1 for yes and 2 for no type. */
  function Scripted(throws: nat -> bool, decide: nat -> nat): Env {
    Env((h: seq<Event>) => if throws(|h|) then Throws(|h|) else Value(|h|),
        (v: int) => v > 0 && decide(v) == 1,
        (x: int, k: int) => if k <= 0 then No else if decide(k) == 1 then Yes else if decide(k) == 2 then Bad(0) else No,
        0)
  }

  /** From the `from`th operation on all throw. */
  ghost predicate Dead(throws: nat -> bool, from: nat) {
    forall i: nat :: i > from ==> throws(i)
  }

  /** Then everything ends, without going round loops, and nothing has a value. */
  ghost predicate DeadEnd(r: Result, w: World) {
    r.Done? && r.w.fuel == w.fuel && w.history <= r.w.history && (r.out.Normal? ==> r.out.v == NULL)
  }

  lemma DeadOp(throws: nat -> bool, decide: nat -> nat, w: World, op: nat, operands: seq<int>)
    requires Dead(throws, |w.history|)
    ensures Scripted(throws, decide).answer(Happens(w, op, operands).history) == Throws(|w.history| + 1)
  {
  }

  lemma {:induction false} DeadEnds(n: Node, throws: nat -> bool, decide: nat -> nat, w: World)
    requires Dead(throws, |w.history|)
    ensures DeadEnd(Eval(n, Scripted(throws, decide), w), w)
    decreases n
  {
    var env := Scripted(throws, decide);
    match n
    case Null =>
    case Continue =>
    case Do(op) => DeadOp(throws, decide, w, op, []);
    case Apply(op, a, b) =>
      hide Eval;
      ApplyEval(n, env, w);
      DeadEnds(a, throws, decide, w);
      var x := Eval(a, env, w);
      if Passes(x) {
        DeadEnds(b, throws, decide, x.w);
        var y := Eval(b, env, x.w);
        if Passes(y) {
          DeadOp(throws, decide, y.w, op, [x.out.v, y.out.v]);
        }
      }
    case Then(a, b) =>
      hide Run, Eval, Paths;
      ThenMeans(n, 0, false, OUTSIDE, 0, env, map[], w);
      DeadEnds(a, throws, decide, w);
      if Passes(Eval(a, env, w)) {
        DeadEnds(b, throws, decide, Eval(a, env, w).w);
      }
    case If(c, a, b) =>
      hide Run, Eval, Paths;
      IfMeans(n, 0, false, OUTSIDE, 0, env, map[], w);
      DeadEnds(c, throws, decide, w);
      if Passes(Eval(c, env, w)) {
        DeadEnds(b, throws, decide, Eval(c, env, w).w);
      }
    case While(c, _) =>
      hide Eval;
      WhileEval(n, env, w);
      DeadEnds(c, throws, decide, w);
    case Try(body, cs, last) =>
      hide Eval, Handle;
      TryEval(n, env, w);
      DeadEnds(body, throws, decide, w);
      var x := Eval(body, env, w);
      var y := x;
      if x.out.Thrown? {
        DeadClauses(cs, throws, decide, x.out.x, x.w);
        y := Handle(cs, env, x.out.x, x.w);
      }
      if last.Some? {
        DeadEnds(last.value, throws, decide, y.w);
      }
    case _ =>
      hide Run, Eval, Paths;
      PartMeans(n, 0, false, OUTSIDE, 0, env, map[], w);
      DeadEnds(PartOf(n, 0, OUTSIDE).e, throws, decide, w);
  }

  lemma DeadClauses(cs: Catches, throws: nat -> bool, decide: nat -> nat, x: int, w: World)
    requires Dead(throws, |w.history|)
    ensures DeadEnd(Handle(cs, Scripted(throws, decide), x, w), w)
    decreases cs
  {
    if cs.Catch? {
      hide Eval;
      DeadEnds(cs.kind, throws, decide, w);
    }
  }

  // ----- Plans -----

  /** Something with a meaning and what is done for it on the stack. */
  datatype Doing = Doing(e: (Env, World) -> Result, r: (Env, Temps, World) -> Ran)

  /** Where it is done, and the slot that is looked at. */
  datatype View = View(s: nat, clear: bool, h: Shape, k: nat)

  /** Answers up to an operation for a path: what `value` counts as, if it is that of
      an operation, is left open. If `lost`, an operand is lost, and all later
      operations throw. */
  datatype Plan = Plan(throws: nat -> bool, decide: nat -> nat, upto: nat, fuel: nat, value: nat, lost: bool)

  /** Some answers, and where things begin. */
  datatype Case = Case(throws: nat -> bool, decide: nat -> nat, t: Temps, w: World)

  ghost predicate Suits(c: Case, z: Plan, from: nat) {
    && |c.w.history| == from && c.w.fuel >= z.fuel && (z.lost ==> Dead(c.throws, z.upto))
    && forall i: nat :: from < i <= z.upto ==> c.throws(i) == z.throws(i) && (i != z.value ==> c.decide(i) == z.decide(i))
  }

  ghost predicate Marked(m: Mark, k: nat, from: nat, upto: nat, t: Temps, t': Temps) {
    match m
    case Kept => Read(t', k) == Read(t, k)
    case Cleared => Read(t', k) == NULL
    case _ => from < Read(t', k) <= upto
  }

  /** The path has been taken. */
  ghost predicate Reached(r: Result, q: Ran, p: Path, z: Plan, from: nat, v: View, c: Case) {
    && Agreed(r, q, v.s, v.clear, v.h) && r.Done? && |r.w.history| == z.upto && r.w.fuel == c.w.fuel - z.fuel
    && p.end == EndOf(r.out) && Marked(p.mark, v.k, from, z.upto, c.t, q.t)
    && (HasValue(r.out, v.clear, v.h) ==> ValueOf(r.out) == z.value && (p.made <==> z.value > 0))
    && (z.value > 0 ==> from < z.value && HasValue(r.out, v.clear, v.h)) && z.value <= z.upto
    && (p.mark.Valued? ==> HasValue(r.out, v.clear, v.h) && Read(q.t, v.k) == z.value)
  }

  ghost predicate Apart(a: seq<Event>, b: seq<Event>) {
    exists i :: 0 <= i < |a| && i < |b| && a[i] != b[i]
  }

  /** What is done is not what is meant. */
  ghost predicate Split(r: Result, q: Ran, z: Plan, c: Case) {
    r.Done? && r.w.fuel + z.fuel >= c.w.fuel && |r.w.history| >= z.upto && (q.Ran? ==> Apart(r.w.history, q.w.history))
  }

  ghost predicate Achieved(g: Doing, v: View, p: Path, z: Plan, from: nat, c: Case) {
    var env := Scripted(c.throws, c.decide);
    if z.lost then Split(g.e(env, c.w), g.r(env, c.t, c.w), z, c)
    else Reached(g.e(env, c.w), g.r(env, c.t, c.w), p, z, from, v, c)
  }

  ghost predicate Achieves(g: Doing, v: View, p: Path, z: Plan, from: nat) {
    z.upto >= from && forall c: Case :: Suits(c, z, from) ==> Achieved(g, v, p, z, from, c)
  }

  lemma Achieve(g: Doing, v: View, p: Path, z: Plan, from: nat, c: Case)
    requires Achieves(g, v, p, z, from) && Suits(c, z, from)
    ensures Achieved(g, v, p, z, from, c)
  {
  }

  // ----- One thing after another -----

  /** After `a` has taken the path `p`, its value counting as `choice`, `g` goes on
      as `b`. */
  ghost predicate Leads(g: Doing, a: Doing, va: View, p: Path, za: Plan, from: nat, choice: nat, b: Doing) {
    forall c: Case :: Ready(a, va, p, za, from, choice, c) ==> GoesOnAs(g, a, b, c)
  }

  ghost predicate Ready(a: Doing, va: View, p: Path, za: Plan, from: nat, choice: nat, c: Case) {
    Suits(c, za, from) && (za.value > 0 ==> c.decide(za.value) == choice) && Achieved(a, va, p, za, from, c)
  }

  ghost predicate GoesOnAs(g: Doing, a: Doing, b: Doing, c: Case) {
    var env := Scripted(c.throws, c.decide);
    var x, y := a.e(env, c.w), a.r(env, c.t, c.w);
    x.Done? && y.Ran? ==> g.e(env, c.w) == b.e(env, x.w) && g.r(env, c.t, c.w) == b.r(env, y.t, y.w)
  }

  function Decides(za: Plan, zb: Plan, choice: nat, i: nat): nat {
    if i == za.value then choice else if i <= za.upto then za.decide(i) else zb.decide(i)
  }

  function Then2(za: Plan, zb: Plan, choice: nat): Plan {
    Plan((i: nat) => if i <= za.upto then za.throws(i) else zb.throws(i),
         (i: nat) => Decides(za, zb, choice, i),
         zb.upto, za.fuel + zb.fuel, zb.value, zb.lost)
  }

  lemma SuitsFirst(c: Case, za: Plan, zb: Plan, choice: nat, from: nat)
    requires !za.lost && from <= za.upto <= zb.upto && za.value <= za.upto && (za.value > 0 ==> za.value > from)
    requires zb.value > 0 ==> zb.value > za.upto
    requires Suits(c, Then2(za, zb, choice), from)
    ensures Suits(c, za, from) && (za.value > 0 ==> c.decide(za.value) == choice)
  {
    var z := Then2(za, zb, choice);
    forall i: nat | from < i <= za.upto
      ensures c.throws(i) == za.throws(i) && (i != za.value ==> c.decide(i) == za.decide(i))
      ensures i == za.value ==> c.decide(i) == choice
    {
      assert c.throws(i) == z.throws(i) && c.decide(i) == z.decide(i);
    }
  }

  lemma SuitsSecond(c: Case, za: Plan, zb: Plan, choice: nat, from: nat, t1: Temps, w1: World)
    requires !za.lost && from <= za.upto <= zb.upto && za.value <= za.upto
    requires Suits(c, Then2(za, zb, choice), from) && |w1.history| == za.upto && w1.fuel == c.w.fuel - za.fuel
    ensures Suits(Case(c.throws, c.decide, t1, w1), zb, za.upto)
  {
    var z := Then2(za, zb, choice);
    forall i: nat | za.upto < i <= zb.upto
      ensures c.throws(i) == zb.throws(i) && (i != zb.value ==> c.decide(i) == zb.decide(i))
    {
      assert c.throws(i) == z.throws(i) && (i != z.value ==> c.decide(i) == z.decide(i));
    }
  }

  /** What is known of the value of a plan. */
  ghost predicate Valid(z: Plan, from: nat) {
    z.upto >= from && z.value <= z.upto && (z.value > 0 ==> z.value > from)
  }

  lemma MarkedThen(p: Path, q: Path, k: nat, from: nat, mid: nat, upto: nat, t: Temps, t1: Temps, t2: Temps)
    requires Marked(p.mark, k, from, mid, t, t1) && Marked(q.mark, k, mid, upto, t1, t2) && from <= mid <= upto
    ensures Marked(Follow(p.mark, q).mark, k, from, upto, t, t2)
  {
  }

  /** The same where the slot `i` holds `u` at first. */
  ghost predicate AchievesAt(g: Doing, v: View, p: Path, z: Plan, from: nat, i: nat, u: int) {
    z.upto >= from && forall c: Case :: Suits(c, z, from) && Read(c.t, i) == u ==> Achieved(g, v, p, z, from, c)
  }

  lemma AchieveAt(g: Doing, v: View, p: Path, z: Plan, from: nat, i: nat, u: int, c: Case)
    requires AchievesAt(g, v, p, z, from, i, u) && Suits(c, z, from) && Read(c.t, i) == u
    ensures Achieved(g, v, p, z, from, c)
  {
  }

  lemma Next(g: Doing, v: View, a: Doing, va: View, pa: Path, za: Plan, b: Doing, pb: Path, zb: Plan, choice: nat, from: nat)
    requires Achieves(a, va, pa, za, from) && !za.lost && va.k == v.k && Valid(za, from) && Valid(zb, za.upto)
    requires Achieves(b, v, pb, zb, za.upto) || (!va.clear && pa.end == AtEnd && AchievesAt(b, v, pb, zb, za.upto, va.s, za.value))
    requires Leads(g, a, va, pa, za, from, choice, b)
    ensures Achieves(g, v, Follow(pa.mark, pb), Then2(za, zb, choice), from) && Valid(Then2(za, zb, choice), from)
  {
    hide Achieves, AchievesAt, Suits, Scripted;
    var z := Then2(za, zb, choice);
    forall c: Case | Suits(c, z, from)
      ensures Achieved(g, v, Follow(pa.mark, pb), z, from, c)
    {
      NextCase(g, v, a, va, pa, za, b, pb, zb, choice, from, c);
    }
    AchievesAll(g, v, Follow(pa.mark, pb), z, from);
  }

  lemma AchievesAll(g: Doing, v: View, p: Path, z: Plan, from: nat)
    requires z.upto >= from && forall c: Case :: Suits(c, z, from) ==> Achieved(g, v, p, z, from, c)
    ensures Achieves(g, v, p, z, from)
  {
    hide Suits, Achieved;
  }

  lemma NextCase(g: Doing, v: View, a: Doing, va: View, pa: Path, za: Plan, b: Doing, pb: Path, zb: Plan, choice: nat, from: nat, c: Case)
    requires Achieves(a, va, pa, za, from) && !za.lost && va.k == v.k && Valid(za, from) && Valid(zb, za.upto)
    requires Achieves(b, v, pb, zb, za.upto) || (!va.clear && pa.end == AtEnd && AchievesAt(b, v, pb, zb, za.upto, va.s, za.value))
    requires Leads(g, a, va, pa, za, from, choice, b)
    requires Suits(c, Then2(za, zb, choice), from)
    ensures Achieved(g, v, Follow(pa.mark, pb), Then2(za, zb, choice), from, c)
  {
    hide Suits, Scripted, Then2, Achieved, Achieves, AchievesAt;
    SuitsFirst(c, za, zb, choice, from);
    Achieve(a, va, pa, za, from, c);
    LeadsTo(g, a, va, pa, za, from, choice, b, c);
    hide Leads;
    NextHere(g, v, a, va, pa, za, b, pb, zb, choice, from, c);
  }

  lemma NextHere(g: Doing, v: View, a: Doing, va: View, pa: Path, za: Plan, b: Doing, pb: Path, zb: Plan, choice: nat, from: nat, c: Case)
    requires Achieved(a, va, pa, za, from, c) && !za.lost && va.k == v.k && Valid(za, from) && Valid(zb, za.upto)
    requires Achieves(b, v, pb, zb, za.upto) || (!va.clear && pa.end == AtEnd && AchievesAt(b, v, pb, zb, za.upto, va.s, za.value))
    requires GoesOnAs(g, a, b, c) && Suits(c, Then2(za, zb, choice), from)
    ensures Achieved(g, v, Follow(pa.mark, pb), Then2(za, zb, choice), from, c)
  {
    hide Suits, Scripted, Then2, Marked, Achieves, AchievesAt;
    var env := Scripted(c.throws, c.decide);
    var x, y := a.e(env, c.w), a.r(env, c.t, c.w);
    SuitsSecond(c, za, zb, choice, from, y.t, x.w);
    var c1 := Case(c.throws, c.decide, y.t, x.w);
    if Achieves(b, v, pb, zb, za.upto) {
      Achieve(b, v, pb, zb, za.upto, c1);
    } else {
      AchieveAt(b, v, pb, zb, za.upto, va.s, za.value, c1);
    }
    ThenParts2(za, zb, choice);
    if !zb.lost {
      MarkedThen(pa, pb, v.k, from, za.upto, zb.upto, c.t, y.t, b.r(env, y.t, x.w).t);
    }
  }

  lemma LeadsTo(g: Doing, a: Doing, va: View, p: Path, za: Plan, from: nat, choice: nat, b: Doing, c: Case)
    requires Leads(g, a, va, p, za, from, choice, b) && Ready(a, va, p, za, from, choice, c)
    ensures GoesOnAs(g, a, b, c)
  {
  }

  lemma ThenParts2(za: Plan, zb: Plan, choice: nat)
    ensures var z := Then2(za, zb, choice);
      z.upto == zb.upto && z.fuel == za.fuel + zb.fuel && z.value == zb.value && z.lost == zb.lost
  {
  }

  // ----- What has been lost is not found again -----

  /** Whatever comes of `a`, `g` ends when all operations throw, and forgets nothing. */
  ghost predicate Carries(g: Doing, a: Doing) {
    forall throws: nat -> bool, decide: nat -> nat, t: Temps, w: World :: CarriesOn(g, a, throws, decide, t, w)
  }

  ghost predicate CarriesOn(g: Doing, a: Doing, throws: nat -> bool, decide: nat -> nat, t: Temps, w: World) {
    var env := Scripted(throws, decide);
    var x, y, r, q := a.e(env, w), a.r(env, t, w), g.e(env, w), g.r(env, t, w);
    && (x.Done? && Dead(throws, |x.w.history|) && x.w.fuel >= 1 ==>
          r.Done? && r.w.fuel + 1 >= x.w.fuel && x.w.history <= r.w.history)
    && (q.Ran? ==> y.Ran? && y.w.history <= q.w.history)
  }

  lemma ApartStill(a: seq<Event>, b: seq<Event>, a': seq<Event>, b': seq<Event>)
    requires Apart(a, b) && a <= a' && b <= b'
    ensures Apart(a', b')
  {
    var i :| 0 <= i < |a| && i < |b| && a[i] != b[i];
    assert a'[i] != b'[i];
  }

  function Longer(z: Plan): Plan {
    z.(fuel := z.fuel + 1, value := 0)
  }

  lemma StillLost(g: Doing, v: View, a: Doing, va: View, pa: Path, z: Plan, p: Path, from: nat)
    requires Achieves(a, va, pa, z, from) && z.lost && Carries(g, a)
    ensures Achieves(g, v, p, Longer(z), from)
  {
    hide Achieves, Scripted;
    AchievesUpto(a, va, pa, z, from);
    forall c: Case | Suits(c, Longer(z), from)
      ensures Achieved(g, v, p, Longer(z), from, c)
    {
      assert Suits(c, z, from);
      Achieve(a, va, pa, z, from, c);
      assert CarriesOn(g, a, c.throws, c.decide, c.t, c.w);
      var env := Scripted(c.throws, c.decide);
      var x, y, q := a.e(env, c.w), a.r(env, c.t, c.w), g.r(env, c.t, c.w);
      if q.Ran? {
        ApartStill(x.w.history, y.w.history, g.e(env, c.w).w.history, q.w.history);
      }
    }
    AchievesAll(g, v, p, Longer(z), from);
  }

  lemma AchievesUpto(g: Doing, v: View, p: Path, z: Plan, from: nat)
    requires Achieves(g, v, p, z, from)
    ensures z.upto >= from
  {
  }

  // ----- Leaving early -----

  /** What leaves `a` leaves `g`. */
  ghost predicate Leaves(g: Doing, a: Doing) {
    forall env: Env, t: Temps, w: World :: LeavesIn(g, a, env, t, w)
  }

  ghost predicate LeavesIn(g: Doing, a: Doing, env: Env, t: Temps, w: World) {
    && (!Passes(a.e(env, w)) ==> g.e(env, w) == a.e(env, w))
    && (!Goes(a.r(env, t, w)) ==> g.r(env, t, w) == a.r(env, t, w))
  }

  lemma Leave(g: Doing, v: View, a: Doing, va: View, p: Path, z: Plan, from: nat)
    requires Achieves(a, va, p, z, from) && !z.lost && va.h == v.h && va.k == v.k && p.end != AtEnd && Leaves(g, a)
    ensures Achieves(g, v, p, z, from)
  {
    hide Achieves, Scripted, Suits;
    AchievesUpto(a, va, p, z, from);
    forall c: Case | Suits(c, z, from)
      ensures Achieved(g, v, p, z, from, c)
    {
      Achieve(a, va, p, z, from, c);
      assert LeavesIn(g, a, Scripted(c.throws, c.decide), c.t, c.w);
    }
    AchievesAll(g, v, p, z, from);
  }

  // ----- Constructs -----

  function Of(n: Node, s: nat, clear: bool, h: Shape): Doing {
    Doing((env: Env, w: World) => Eval(n, env, w), (env: Env, t: Temps, w: World) => Run(n, s, clear, h, env, t, w))
  }

  ghost predicate Good(n: Node, s: nat, clear: bool, h: Shape) {
    Legal(n, h.jumping, h.returning) && Tight(n, s, clear, h) && Ordered(h, s)
  }

  /** There are answers for the path. */
  ghost predicate Taken(n: Node, v: View, p: Path, z: Plan, from: nat) {
    Valid(z, from) && Achieves(Of(n, v.s, v.clear, v.h), v, p, z, from) && (p.end == AtLoss ==> z.lost)
  }

  function PathsOf(n: Node, v: View): set<Path> {
    Paths(n, v.s, v.clear, v.h, v.k)
  }

  // A part and the rest.

  lemma ThenFlows(n: Node, v: View)
    requires n.Then?
    ensures var g, a := Of(n, v.s, v.clear, v.h), Of(n.a, v.s, true, v.h); Leaves(g, a) && Carries(g, a)
  {
    hide Eval, Run, Scripted, Paths;
    var g, a := Of(n, v.s, v.clear, v.h), Of(n.a, v.s, true, v.h);
    forall env: Env, t: Temps, w: World
      ensures LeavesIn(g, a, env, t, w)
    {
      ThenMeans(n, v.s, v.clear, v.h, v.k, env, t, w);
    }
    forall throws: nat -> bool, decide: nat -> nat, t: Temps, w: World
      ensures CarriesOn(g, a, throws, decide, t, w)
    {
      var env := Scripted(throws, decide);
      ThenMeans(n, v.s, v.clear, v.h, v.k, env, t, w);
      var x, y := Eval(n.a, env, w), Run(n.a, v.s, true, v.h, env, t, w);
      if x.Done? && Dead(throws, |x.w.history|) {
        DeadEnds(n.b, throws, decide, x.w);
      }
      if y.Ran? {
        RunExtends(n.b, v.s, v.clear, v.h, env, y.t, y.w);
      }
    }
  }

  lemma ThenLeads(n: Node, v: View, pa: Path, za: Plan, from: nat)
    requires n.Then? && pa.end == AtEnd && !za.lost
    ensures Leads(Of(n, v.s, v.clear, v.h), Of(n.a, v.s, true, v.h), View(v.s, true, v.h, v.k), pa, za, from, 0,
                  Of(n.b, v.s, v.clear, v.h))
  {
    hide Eval, Run, Scripted, Paths, Suits, Marked;
    var g, a, va, b := Of(n, v.s, v.clear, v.h), Of(n.a, v.s, true, v.h), View(v.s, true, v.h, v.k), Of(n.b, v.s, v.clear, v.h);
    forall c: Case | Ready(a, va, pa, za, from, 0, c)
      ensures GoesOnAs(g, a, b, c)
    {
      ThenMeans(n, v.s, v.clear, v.h, v.k, Scripted(c.throws, c.decide), c.t, c.w);
    }
  }

  /** The first part is left, or has lost. */
  lemma Early(g: Doing, v: View, a: Doing, va: View, p: Path, za: Plan, from: nat) returns (z: Plan)
    requires Valid(za, from) && Achieves(a, va, p, za, from) && (p.end == AtLoss ==> za.lost) && (za.lost || p.end != AtEnd)
    requires va.h == v.h && va.k == v.k && Leaves(g, a) && Carries(g, a)
    ensures Valid(z, from) && Achieves(g, v, p, z, from) && (p.end == AtLoss ==> z.lost)
    ensures z == if za.lost then Longer(za) else za
  {
    hide Achieves, Leaves, Carries;
    z := za;
    if z.lost {
      StillLost(g, v, a, va, p, z, p, from);
      z := Longer(z);
    } else {
      Leave(g, v, a, va, p, z, from);
    }
  }

  /** The first part has lost, on the way to another path. */
  lemma Before(g: Doing, v: View, a: Doing, va: View, pa: Path, za: Plan, p: Path, from: nat) returns (z: Plan)
    requires Valid(za, from) && Achieves(a, va, pa, za, from) && za.lost && Carries(g, a)
    ensures Valid(z, from) && Achieves(g, v, p, z, from) && z.lost && z == Longer(za)
  {
    StillLost(g, v, a, va, pa, za, p, from);
    z := Longer(za);
  }

  lemma JoinsOf(a: set<Path>, b: set<Path>, p: Path) returns (pa: Path, pb: Path)
    requires p in Joins(a, b)
    ensures pa in a && pa.end == AtEnd && pb in b && p == Follow(pa.mark, pb)
  {
    pa, pb :| pa in a && pa.end == AtEnd && pb in b && p == Follow(pa.mark, pb);
  }

  lemma ThenTaken(n: Node, v: View, p: Path, from: nat) returns (z: Plan)
    requires n.Then? && Good(n, v.s, v.clear, v.h) && p in PathsOf(n, v)
    ensures Taken(n, v, p, z, from)
    decreases n, 0
  {
    hide Eval, Run, Scripted, Paths, Achieves, Leaves, Carries, Leads;
    ThenMeans(n, v.s, v.clear, v.h, v.k, Counting(), map[], World([], [], 0));
    ThenFlows(n, v);
    var g, a, va := Of(n, v.s, v.clear, v.h), Of(n.a, v.s, true, v.h), View(v.s, true, v.h, v.k);
    var x, y := PathsOf(n.a, va), PathsOf(n.b, v);
    if p in Leaving(x) {
      z := Realize(n.a, va, p, from);
      z := Early(g, v, a, va, p, z, from);
      return;
    }
    var pa, pb := JoinsOf(x, y, p);
    z := Realize(n.a, va, pa, from);
    if z.lost {
      z := Before(g, v, a, va, pa, z, p, from);
    } else {
      var zb := Realize(n.b, v, pb, z.upto);
      ThenLeads(n, v, pa, z, from);
      Next(g, v, a, va, pa, z, Of(n.b, v.s, v.clear, v.h), pb, zb, 0, from);
      z := Then2(z, zb, 0);
    }
  }

  lemma IfFlows(n: Node, v: View)
    requires n.If?
    ensures var g, a := Of(n, v.s, v.clear, v.h), Of(n.c, v.s, false, v.h); Leaves(g, a) && Carries(g, a)
  {
    hide Eval, Run, Scripted, Paths, IsTrue;
    var g, a := Of(n, v.s, v.clear, v.h), Of(n.c, v.s, false, v.h);
    forall env: Env, t: Temps, w: World
      ensures LeavesIn(g, a, env, t, w)
    {
      IfMeans(n, v.s, v.clear, v.h, v.k, env, t, w);
    }
    forall throws: nat -> bool, decide: nat -> nat, t: Temps, w: World
      ensures CarriesOn(g, a, throws, decide, t, w)
    {
      var env := Scripted(throws, decide);
      IfMeans(n, v.s, v.clear, v.h, v.k, env, t, w);
      var x, y := Eval(n.c, env, w), Run(n.c, v.s, false, v.h, env, t, w);
      if x.Done? && Dead(throws, |x.w.history|) {
        DeadEnds(n.t, throws, decide, x.w);
        DeadEnds(n.f, throws, decide, x.w);
      }
      if y.Ran? {
        RunExtends(n.t, v.s, v.clear, v.h, env, y.t, y.w);
        RunExtends(n.f, v.s, v.clear, v.h, env, y.t, y.w);
      }
    }
  }

  lemma IfLeads(n: Node, v: View, pa: Path, za: Plan, from: nat, choice: nat)
    requires n.If? && pa.end == AtEnd && !za.lost && choice <= 1 && (choice == 1 ==> za.value > 0)
    ensures Leads(Of(n, v.s, v.clear, v.h), Of(n.c, v.s, false, v.h), View(v.s, false, v.h, v.k), pa, za, from, choice,
                  Of(if choice == 1 then n.t else n.f, v.s, v.clear, v.h))
  {
    hide Eval, Run, Paths, Suits, Marked;
    var g, a, va := Of(n, v.s, v.clear, v.h), Of(n.c, v.s, false, v.h), View(v.s, false, v.h, v.k);
    var b := Of(if choice == 1 then n.t else n.f, v.s, v.clear, v.h);
    forall c: Case | Ready(a, va, pa, za, from, choice, c)
      ensures GoesOnAs(g, a, b, c)
    {
      IfMeans(n, v.s, v.clear, v.h, v.k, Scripted(c.throws, c.decide), c.t, c.w);
    }
  }

  /** A condition that may be true has a value from an operation. */
  lemma MadeValue(a: Doing, v: View, p: Path, z: Plan, from: nat, c: Case)
    requires Achieves(a, v, p, z, from) && !z.lost && p.end == AtEnd && !v.clear && Suits(c, z, from)
    ensures p.made <==> z.value > 0
  {
    Achieve(a, v, p, z, from, c);
  }

  /** There are always such answers. */
  lemma SomeCase(z: Plan, from: nat) returns (c: Case)
    ensures Suits(c, z, from) && c.t == map[]
  {
    var h := Filled(from);
    c := Case((i: nat) => if i <= z.upto then z.throws(i) else true, z.decide, map[], World([], h, z.fuel));
  }

  function Filled(n: nat): (h: seq<Event>)
    ensures |h| == n
  {
    seq(n, _ => Event(0, [], []))
  }

  lemma IfTaken(n: Node, v: View, p: Path, from: nat) returns (z: Plan)
    requires n.If? && Good(n, v.s, v.clear, v.h) && p in PathsOf(n, v)
    ensures Taken(n, v, p, z, from)
    decreases n, 0
  {
    hide Eval, Run, Scripted, Paths, Achieves, Leaves, Carries, Leads, Suits;
    IfMeans(n, v.s, v.clear, v.h, v.k, Counting(), map[], World([], [], 0));
    IfFlows(n, v);
    var g, a, va := Of(n, v.s, v.clear, v.h), Of(n.c, v.s, false, v.h), View(v.s, false, v.h, v.k);
    var x := PathsOf(n.c, va);
    if p in Leaving(x) {
      z := Realize(n.c, va, p, from);
      z := Early(g, v, a, va, p, z, from);
      return;
    }
    var choice := if p in Joins(Made(x), PathsOf(n.t, v)) then 1 else 0;
    var b := if choice == 1 then n.t else n.f;
    var pa, pb := JoinsOf(if choice == 1 then Made(x) else x, PathsOf(b, v), p);
    z := Realize(n.c, va, pa, from);
    if z.lost {
      z := Before(g, v, a, va, pa, z, p, from);
    } else {
      var c := SomeCase(z, from);
      MadeValue(a, va, pa, z, from, c);
      var zb := Realize(b, v, pb, z.upto);
      IfLeads(n, v, pa, z, from, choice);
      Next(g, v, a, va, pa, z, Of(b, v.s, v.clear, v.h), pb, zb, choice, from);
      z := Then2(z, zb, choice);
    }
  }

  // What has been computed is used.

  lemma PartFlows(n: Node, v: View)
    requires n.Put? || n.Break? || n.Return? || n.Throw?
    ensures var u := PartOf(n, v.s, v.h);
      var g, a := Of(n, v.s, v.clear, v.h), Of(u.e, u.s, u.clear, v.h);
      Leaves(g, a) && Carries(g, a)
  {
    hide Eval, Run, Scripted, Paths;
    var u := PartOf(n, v.s, v.h);
    var g, a := Of(n, v.s, v.clear, v.h), Of(u.e, u.s, u.clear, v.h);
    forall env: Env, t: Temps, w: World
      ensures LeavesIn(g, a, env, t, w)
    {
      PartMeans(n, v.s, v.clear, v.h, v.k, env, t, w);
    }
    forall throws: nat -> bool, decide: nat -> nat, t: Temps, w: World
      ensures CarriesOn(g, a, throws, decide, t, w)
    {
      PartMeans(n, v.s, v.clear, v.h, v.k, Scripted(throws, decide), t, w);
    }
  }

  /** The path of the whole, and its plan. */
  function PartPath(n: Node, clear: bool, p: Path): Path
    requires n.Put? || n.Break? || n.Return? || n.Throw?
  {
    match n
    case Put(_, _) => if clear then Drop(p) else p
    case Break(_) => p.(end := AtBreak)
    case Return(_) => p.(end := AtReturn)
    case Throw(_) => Path(AtThrow, Forget(p.mark), false)
  }

  function PartPlan(n: Node, clear: bool, z: Plan): Plan {
    if n.Throw? || (n.Put? && clear) then z.(value := 0) else z
  }

  lemma PartReached(n: Node, v: View, x: Result, q: Ran, p: Path, z: Plan, from: nat, c: Case)
    requires (n.Put? || n.Break? || n.Return? || n.Throw?) && Good(n, v.s, v.clear, v.h) && p.end == AtEnd
    requires var u := PartOf(n, v.s, v.h); Reached(x, q, p, z, from, View(u.s, u.clear, v.h, v.k), c)
    ensures Reached(PartEval(n, x), PartRun(n, v.s, q), PartPath(n, v.clear, p), PartPlan(n, v.clear, z), from, v, c)
  {
  }

  lemma PartAchieves(n: Node, v: View, p: Path, z: Plan, from: nat)
    requires (n.Put? || n.Break? || n.Return? || n.Throw?) && Good(n, v.s, v.clear, v.h) && p.end == AtEnd && !z.lost
    requires var u := PartOf(n, v.s, v.h); Achieves(Of(u.e, u.s, u.clear, v.h), View(u.s, u.clear, v.h, v.k), p, z, from)
    ensures Achieves(Of(n, v.s, v.clear, v.h), v, PartPath(n, v.clear, p), PartPlan(n, v.clear, z), from)
  {
    hide Eval, Run, Scripted, Paths, Achieves, Reached, Good, PartEval, PartRun, PartPath;
    var u, z' := PartOf(n, v.s, v.h), PartPlan(n, v.clear, z);
    var g, a, va := Of(n, v.s, v.clear, v.h), Of(u.e, u.s, u.clear, v.h), View(u.s, u.clear, v.h, v.k);
    AchievesUpto(a, va, p, z, from);
    forall c: Case | Suits(c, z', from)
      ensures Achieved(g, v, PartPath(n, v.clear, p), z', from, c)
    {
      var env := Scripted(c.throws, c.decide);
      Achieve(a, va, p, z, from, c);
      PartMeans(n, v.s, v.clear, v.h, v.k, env, c.t, c.w);
      PartReached(n, v, a.e(env, c.w), a.r(env, c.t, c.w), p, z, from, c);
    }
    AchievesAll(g, v, PartPath(n, v.clear, p), z', from);
  }

  lemma PartFrom(n: Node, clear: bool, x: set<Path>, p: Path) returns (q: Path)
    requires (n.Put? || n.Break? || n.Return? || n.Throw?) && p in PartPaths(n, clear, x)
    ensures q in x && (if q.end == AtEnd then p == PartPath(n, clear, q) else p == q)
  {
    q := p;
    if n.Put? {
      if clear && p !in Leaving(x) {
        q :| q in x && q.end == AtEnd && p == Drop(q);
      }
    } else if p !in Leaving(x) {
      q :| q in x && q.end == AtEnd && p == PartPath(n, clear, q);
    }
  }

  lemma PartTaken(n: Node, v: View, p: Path, from: nat) returns (z: Plan)
    requires (n.Put? || n.Break? || n.Return? || n.Throw?) && Good(n, v.s, v.clear, v.h) && p in PathsOf(n, v)
    ensures Taken(n, v, p, z, from)
    decreases n, 0
  {
    hide Eval, Run, Scripted, Paths, Achieves, Leaves, Carries, PartPaths;
    PartMeans(n, v.s, v.clear, v.h, v.k, Counting(), map[], World([], [], 0));
    PartFlows(n, v);
    var u := PartOf(n, v.s, v.h);
    var g, a, va := Of(n, v.s, v.clear, v.h), Of(u.e, u.s, u.clear, v.h), View(u.s, u.clear, v.h, v.k);
    var q := PartFrom(n, v.clear, PathsOf(u.e, va), p);
    z := Realize(u.e, va, q, from);
    if q.end != AtEnd {
      z := Early(g, v, a, va, p, z, from);
    } else if z.lost {
      z := Before(g, v, a, va, q, z, p, from);
    } else {
      PartAchieves(n, v, q, z, from);
      z := PartPlan(n, v.clear, z);
    }
  }

  // Single steps.

  lemma AtomTaken(n: Node, v: View, p: Path, from: nat) returns (z: Plan)
    requires (n.Null? || n.Do? || n.Continue?) && Good(n, v.s, v.clear, v.h) && p in PathsOf(n, v)
    ensures Taken(n, v, p, z, from)
  {
    var g := Of(n, v.s, v.clear, v.h);
    if n.Do? {
      var fails := p.end == AtThrow;
      z := Plan((i: nat) => fails, (i: nat) => 0, from + 1, 0, if fails || v.clear then 0 else from + 1, false);
      DoAchieves(n, v, p, z, from, fails);
    } else {
      z := Plan((i: nat) => false, (i: nat) => 0, from, 0, 0, false);
      assert Achieves(g, v, p, z, from);
    }
  }

  lemma DoAchieves(n: Node, v: View, p: Path, z: Plan, from: nat, fails: bool)
    requires n.Do? && p in PathsOf(n, v) && fails == (p.end == AtThrow)
    requires z == Plan(z.throws, z.decide, from + 1, 0, if fails || v.clear then 0 else from + 1, false)
    requires forall i: nat :: z.throws(i) == fails
    ensures Achieves(Of(n, v.s, v.clear, v.h), v, p, z, from)
  {
    var g := Of(n, v.s, v.clear, v.h);
    forall c: Case | Suits(c, z, from)
      ensures Achieved(g, v, p, z, from, c)
    {
      assert c.throws(from + 1) == fails;
    }
  }

  // Operations with two operands.

  /** The second operand and the operation, the first having been `u`. */
  function Second(n: Node, s: nat, h: Shape, u: int): Doing
    requires n.Apply?
  {
    Doing((env: Env, w: World) => SecondEval(n, env, u, w), (env: Env, t: Temps, w: World) => SecondRun(n, s, h, env, t, w))
  }

  function SecondEval(n: Node, env: Env, u: int, w: World): Result
    requires n.Apply?
  {
    var y := Eval(n.b, env, w);
    if !Passes(y) then y else Answered(env, Happens(y.w, n.op, [u, y.out.v]))
  }

  function SecondRun(n: Node, s: nat, h: Shape, env: Env, t: Temps, w: World): Ran
    requires n.Apply?
  {
    var y := Run(n.b, s + 1, false, h, env, t, w);
    if !Goes(y) then y else
    var w' := Happens(y.w, n.op, [Read(y.t, s), Read(y.t, s + 1)]);
    Gives(env.answer(w'.history), s, y.t, w')
  }

  lemma ApplyFlows(n: Node, v: View, u: int)
    requires n.Apply?
    ensures var g, a := Of(n, v.s, v.clear, v.h), Of(n.a, v.s, false, v.h); Leaves(g, a) && Carries(g, a)
    ensures var g, b := Second(n, v.s, v.h, u), Of(n.b, v.s + 1, false, v.h); Leaves(g, b) && Carries(g, b)
  {
    hide Eval, Run, Scripted;
    var g, a := Of(n, v.s, v.clear, v.h), Of(n.a, v.s, false, v.h);
    var g', b := Second(n, v.s, v.h, u), Of(n.b, v.s + 1, false, v.h);
    forall env: Env, t: Temps, w: World
      ensures LeavesIn(g, a, env, t, w) && LeavesIn(g', b, env, t, w)
    {
      ApplyEval(n, env, w);
      ApplyRun(n, v.s, v.clear, v.h, env, t, w);
    }
    forall throws: nat -> bool, decide: nat -> nat, t: Temps, w: World
      ensures CarriesOn(g, a, throws, decide, t, w) && CarriesOn(g', b, throws, decide, t, w)
    {
      var env := Scripted(throws, decide);
      ApplyEval(n, env, w);
      ApplyRun(n, v.s, v.clear, v.h, env, t, w);
      var x, y := Eval(n.a, env, w), Run(n.a, v.s, false, v.h, env, t, w);
      if x.Done? && Dead(throws, |x.w.history|) {
        DeadEnds(n.b, throws, decide, x.w);
      }
      if y.Ran? {
        RunExtends(n.b, v.s + 1, false, v.h, env, y.t, y.w);
      }
    }
  }

  lemma ApplyLeads(n: Node, v: View, va: View, pa: Path, za: Plan, from: nat)
    requires n.Apply? && pa.end == AtEnd && !za.lost && va.s == v.s && !va.clear && va.h == v.h
    ensures Leads(Of(n, v.s, v.clear, v.h), Of(n.a, v.s, false, v.h), va, pa, za, from, 0, Second(n, v.s, v.h, za.value))
  {
    hide Eval, Run, Scripted, Suits, Marked;
    var g, a, b := Of(n, v.s, v.clear, v.h), Of(n.a, v.s, false, v.h), Second(n, v.s, v.h, za.value);
    forall c: Case | Ready(a, va, pa, za, from, 0, c)
      ensures GoesOnAs(g, a, b, c)
    {
      var env := Scripted(c.throws, c.decide);
      ApplyEval(n, env, c.w);
      ApplyRun(n, v.s, v.clear, v.h, env, c.t, c.w);
    }
  }

  /** No path loses the first operand. */
  ghost predicate Keeps(n: Node, v: View, u: int)
    requires n.Apply?
  {
    && Sane(n.b, v.s + 1, false, v.h, v.s)
    && forall q :: q in Paths(n.b, v.s + 1, false, v.h, v.s) && q.end == AtEnd ==>
         q.mark.Kept? || (q.mark.Cleared? && u == NULL)
  }

  lemma SecondKeeps(n: Node, v: View, u: int, env: Env, t: Temps, w: World)
    requires n.Apply? && Keeps(n, v, u) && Read(t, v.s) == u
    ensures Passes(Eval(n.b, env, w)) ==>
      Goes(Run(n.b, v.s + 1, false, v.h, env, t, w)) && Read(Run(n.b, v.s + 1, false, v.h, env, t, w).t, v.s) == u
  {
    hide Eval, Run, Paths, Sane;
    var q := Sound(n.b, v.s + 1, false, v.h, v.s, env, t, w);
  }

  /** What an operation leaves on the stack, after the path `q` of the second operand. */
  function AnswerPath(s: nat, clear: bool, k: nat, q: Path, fails: bool): Path {
    if fails then Path(AtThrow, Forget(q.mark), false)
    else if clear then Drop(Store(s, k, true, q.mark))
    else Store(s, k, true, q.mark)
  }

  function AnswerPlan(z: Plan, clear: bool, fails: bool): Plan {
    Plan((i: nat) => if i <= z.upto then z.throws(i) else fails, z.decide, z.upto + 1, z.fuel,
         if fails || clear then 0 else z.upto + 1, false)
  }

  lemma SuitsAnswer(c: Case, z: Plan, clear: bool, fails: bool, from: nat)
    requires !z.lost && from <= z.upto && Suits(c, AnswerPlan(z, clear, fails), from)
    ensures Suits(c, z, from) && c.throws(z.upto + 1) == fails
  {
    var z' := AnswerPlan(z, clear, fails);
    assert c.throws(z.upto + 1) == z'.throws(z.upto + 1);
    forall i: nat | from < i <= z.upto
      ensures c.throws(i) == z.throws(i) && (i != z.value ==> c.decide(i) == z.decide(i))
    {
      assert c.throws(i) == z'.throws(i) && (i != z'.value ==> c.decide(i) == z'.decide(i));
    }
  }

  lemma AnswerReached(n: Node, v: View, u: int, c: Case, q: Path, z: Plan, from: nat, fails: bool)
    requires n.Apply? && !z.lost && q.end == AtEnd && from <= z.upto && Suits(c, AnswerPlan(z, v.clear, fails), from)
    requires Read(c.t, v.s) == u && Keeps(n, v, u)
    requires Achieved(Of(n.b, v.s + 1, false, v.h), View(v.s + 1, false, v.h, v.k), q, z, from, c)
    ensures Achieved(Second(n, v.s, v.h, u), v, AnswerPath(v.s, v.clear, v.k, q, fails), AnswerPlan(z, v.clear, fails), from, c)
  {
    hide Eval, Run, Keeps, Suits;
    var env := Scripted(c.throws, c.decide);
    SuitsAnswer(c, z, v.clear, fails, from);
    SecondKeeps(n, v, u, env, c.t, c.w);
    var y := Eval(n.b, env, c.w);
    assert |Happens(y.w, n.op, [u, y.out.v]).history| == z.upto + 1;
  }

  lemma AnswerAchieves(n: Node, v: View, u: int, q: Path, z: Plan, from: nat, fails: bool)
    requires n.Apply? && !z.lost && q.end == AtEnd && Keeps(n, v, u)
    requires Achieves(Of(n.b, v.s + 1, false, v.h), View(v.s + 1, false, v.h, v.k), q, z, from)
    ensures AchievesAt(Second(n, v.s, v.h, u), v, AnswerPath(v.s, v.clear, v.k, q, fails), AnswerPlan(z, v.clear, fails), from, v.s, u)
  {
    hide Eval, Run, Keeps, Suits, Achieved, Achieves, AnswerPath;
    var g, b := Second(n, v.s, v.h, u), Of(n.b, v.s + 1, false, v.h);
    var z', p := AnswerPlan(z, v.clear, fails), AnswerPath(v.s, v.clear, v.k, q, fails);
    AchievesUpto(b, View(v.s + 1, false, v.h, v.k), q, z, from);
    forall c: Case | Suits(c, z', from) && Read(c.t, v.s) == u
      ensures Achieved(g, v, p, z', from, c)
    {
      SuitsAnswer(c, z, v.clear, fails, from);
      Achieve(b, View(v.s + 1, false, v.h, v.k), q, z, from, c);
      AnswerReached(n, v, u, c, q, z, from, fails);
    }
  }

  function LostPlan(z: Plan): Plan {
    z.(value := 0, lost := true)
  }

  /** The operand that is used is not the one that is meant. */
  lemma SecondSplits(n: Node, v: View, u: nat, pa: Path, q: Path, z: Plan, p: Path, from: nat)
    requires n.Apply? && !z.lost && q.end == AtEnd && Overwrites(pa, q) && u <= from && (pa.made ==> u > 0)
    requires Achieves(Of(n.b, v.s + 1, false, v.h), View(v.s + 1, false, v.h, v.s), q, z, from)
    ensures Achieves(Second(n, v.s, v.h, u), v, p, LostPlan(z), from)
  {
    hide Eval, Run, Achieves;
    var g, b, vb := Second(n, v.s, v.h, u), Of(n.b, v.s + 1, false, v.h), View(v.s + 1, false, v.h, v.s);
    AchievesUpto(b, vb, q, z, from);
    forall c: Case | Suits(c, LostPlan(z), from)
      ensures Achieved(g, v, p, LostPlan(z), from, c)
    {
      Achieve(b, vb, q, z, from, c);
      SplitsThere(n, v, u, pa, q, z, p, from, c);
    }
    AchievesAll(g, v, p, LostPlan(z), from);
  }

  lemma SplitsThere(n: Node, v: View, u: nat, pa: Path, q: Path, z: Plan, p: Path, from: nat, c: Case)
    requires n.Apply? && !z.lost && q.end == AtEnd && Overwrites(pa, q) && u <= from <= z.upto && (pa.made ==> u > 0)
    requires Suits(c, LostPlan(z), from)
    requires Achieved(Of(n.b, v.s + 1, false, v.h), View(v.s + 1, false, v.h, v.s), q, z, from, c)
    ensures Achieved(Second(n, v.s, v.h, u), v, p, LostPlan(z), from, c)
  {
    hide Eval, Run, Suits;
    SuitsDead(c, LostPlan(z), from);
    var env := Scripted(c.throws, c.decide);
    var x, y := Eval(n.b, env, c.w), Run(n.b, v.s + 1, false, v.h, env, c.t, c.w);
    var e, e' := Event(n.op, x.w.vars, [u, x.out.v]), Event(n.op, x.w.vars, [Read(y.t, v.s), Read(y.t, v.s + 1)]);
    assert e.operands[0] != e'.operands[0];
    var r, q' := SecondEval(n, env, u, c.w), SecondRun(n, v.s, v.h, env, c.t, c.w);
    assert r.w.history == x.w.history + [e] && q'.w.history == x.w.history + [e'];
    assert r.w.history[z.upto] == e && q'.w.history[z.upto] == e';
    assert c.throws(z.upto + 1);
  }

  lemma SuitsDead(c: Case, z: Plan, from: nat)
    requires Suits(c, z, from) && z.lost
    ensures c.throws(z.upto + 1) && c.w.fuel >= z.fuel && |c.w.history| == from
  {
  }

  /** What has been lost is lost by any name. */
  lemma LostAny(g: Doing, v: View, p: Path, z: Plan, from: nat, v': View, p': Path)
    requires Achieves(g, v, p, z, from) && z.lost
    ensures Achieves(g, v', p', z, from)
  {
    hide Suits;
    forall c: Case | Suits(c, z, from)
      ensures Achieved(g, v', p', z, from, c)
    {
      Achieve(g, v, p, z, from, c);
    }
  }

  lemma MadePlan(a: Doing, v: View, p: Path, z: Plan, from: nat)
    requires Achieves(a, v, p, z, from) && !z.lost && p.end == AtEnd && !v.clear
    ensures p.made <==> z.value > 0
  {
    var c := SomeCase(z, from);
    MadeValue(a, v, p, z, from, c);
  }

  lemma ApplyLost(n: Node, v: View, p: Path, from: nat) returns (z: Plan)
    requires n.Apply? && Good(n, v.s, v.clear, v.h)
    requires ApplyLoses(Paths(n.a, v.s, false, v.h, v.s), Paths(n.b, v.s + 1, false, v.h, v.s))
    ensures Valid(z, from) && z.lost && Achieves(Of(n, v.s, v.clear, v.h), v, p, z, from)
    decreases n, 0
  {
    hide Eval, Run, Scripted, Paths, Achieves, AchievesAt, Leaves, Carries, Leads;
    var va, vb, v' := View(v.s, false, v.h, v.s), View(v.s + 1, false, v.h, v.s), View(v.s, v.clear, v.h, v.s);
    var x, y := PathsOf(n.a, va), PathsOf(n.b, vb);
    var g, a, b := Of(n, v.s, v.clear, v.h), Of(n.a, v.s, false, v.h), Of(n.b, v.s + 1, false, v.h);
    ApplyFlows(n, v, 0);
    if Loses(x) {
      var pl :| pl in x && pl.end == AtLoss;
      z := Realize(n.a, va, pl, from);
      z := Before(g, v, a, va, pl, z, p, from);
      return;
    }
    var pa, pb := Losing(x, y);
    z := Realize(n.a, va, pa, from);
    if z.lost {
      z := Before(g, v, a, va, pa, z, p, from);
      return;
    }
    var zb := Realize(n.b, vb, pb, z.upto);
    var g2 := Second(n, v.s, v.h, z.value);
    ApplyFlows(n, v, z.value);
    if zb.lost {
      zb := Before(g2, v', b, vb, pb, zb, LOSS, z.upto);
    } else {
      MadePlan(a, va, pa, z, from);
      SecondSplits(n, v', z.value, pa, pb, zb, LOSS, z.upto);
      zb := LostPlan(zb);
    }
    ApplyLeads(n, v', va, pa, z, from);
    Next(g, v', a, va, pa, z, g2, LOSS, zb, 0, from);
    z := Then2(z, zb, 0);
    LostAny(g, v', Follow(pa.mark, LOSS), z, from, v, p);
  }

  lemma Losing(x: set<Path>, y: set<Path>) returns (pa: Path, pb: Path)
    requires ApplyLoses(x, y) && !Loses(x)
    ensures pa in x && pa.end == AtEnd && pb in y && (pb.end == AtLoss || (pb.end == AtEnd && Overwrites(pa, pb)))
  {
    if Loses(Joins(x, y)) {
      var p :| p in Joins(x, y) && p.end == AtLoss;
      pa, pb := JoinsOf(x, y, p);
    } else {
      pa, pb :| pa in x && pa.end == AtEnd && pb in y && pb.end == AtEnd && Overwrites(pa, pb);
    }
  }

  /** If nothing can be lost, the first operand is there. */
  lemma KeepsFirst(n: Node, v: View, va: View, pa: Path, z: Plan, from: nat)
    requires n.Apply? && Good(n, v.s, v.clear, v.h) && pa.end == AtEnd && !z.lost
    requires !ApplyLoses(Paths(n.a, v.s, false, v.h, v.s), Paths(n.b, v.s + 1, false, v.h, v.s))
    requires va.s == v.s && !va.clear && va.h == v.h && Achieves(Of(n.a, v.s, false, v.h), va, pa, z, from)
    ensures Keeps(n, v, z.value)
  {
    hide Eval, Run, Paths, Achieves, Scripted;
    var x, y := Paths(n.a, v.s, false, v.h, v.s), Paths(n.b, v.s + 1, false, v.h, v.s);
    var c := SomeCase(z, from);
    Achieve(Of(n.a, v.s, false, v.h), va, pa, z, from, c);
    var p := Sound(n.a, v.s, false, v.h, v.s, Scripted(c.throws, c.decide), c.t, c.w);
    LeavesNone(x, y, p);
    forall q | q in y && q.end == AtEnd
      ensures q.mark.Kept? || (q.mark.Cleared? && z.value == NULL)
    {
      assert !Overwrites(p, q);
    }
  }

  lemma AnswerFollows(pa: Path, q: Path, s: nat, clear: bool, k: nat, fails: bool)
    requires q.end == AtEnd
    ensures AnswerPath(s, clear, k, Follow(pa.mark, q), fails) == Follow(pa.mark, AnswerPath(s, clear, k, q, fails))
  {
  }

  /** Where a path through an operation comes from. */
  lemma ApplyFrom(x: set<Path>, y: set<Path>, s: nat, clear: bool, k: nat, p: Path) returns (pa: Path, pb: Path, fails: bool)
    requires var both := Joins(x, Only(y, AtEnd));
      p in Joins(x, Leaving(y)) + Cleans(clear, Stores(both, s, k, true)) + Raises(both)
    ensures pa in x && pa.end == AtEnd && pb in y
    ensures p == Follow(pa.mark, if pb.end == AtEnd then AnswerPath(s, clear, k, pb, fails) else pb)
  {
    var both := Joins(x, Only(y, AtEnd));
    fails := false;
    if p in Joins(x, Leaving(y)) {
      pa, pb := JoinsOf(x, Leaving(y), p);
    } else {
      fails := p in Raises(both);
      var q := BothOf(both, s, clear, k, p, fails);
      pa, pb := JoinsOf(x, Only(y, AtEnd), q);
      AnswerFollows(pa, pb, s, clear, k, fails);
    }
  }

  lemma BothOf(both: set<Path>, s: nat, clear: bool, k: nat, p: Path, fails: bool) returns (q: Path)
    requires if fails then p in Raises(both) else p in Cleans(clear, Stores(both, s, k, true))
    ensures q in both && q.end == AtEnd && p == AnswerPath(s, clear, k, q, fails)
  {
    if fails {
      q :| q in both && q.end == AtEnd && p == Path(AtThrow, Forget(q.mark), false);
    } else if clear {
      var r :| r in Stores(both, s, k, true) && p == Drop(r);
      q :| q in both && q.end == AtEnd && r == Store(s, k, true, q.mark);
    } else {
      q :| q in both && q.end == AtEnd && p == Store(s, k, true, q.mark);
    }
  }

  lemma ApplyTaken(n: Node, v: View, p: Path, from: nat) returns (z: Plan)
    requires n.Apply? && Good(n, v.s, v.clear, v.h) && p in PathsOf(n, v)
    ensures Taken(n, v, p, z, from)
    decreases n, 1
  {
    hide Eval, Run, Scripted, Paths, Achieves, AchievesAt, Leaves, Carries, Leads, Joins, Stores, Raises, Cleans, ApplyLoses, Leaving,
      Keeps, AnswerPath, AnswerPlan;
    ApplyPaths(n, v.s, v.clear, v.h, v.k);
    ApplyFlows(n, v, 0);
    var va, vb := View(v.s, false, v.h, v.k), View(v.s + 1, false, v.h, v.k);
    var x, y := PathsOf(n.a, va), PathsOf(n.b, vb);
    var g, a, b := Of(n, v.s, v.clear, v.h), Of(n.a, v.s, false, v.h), Of(n.b, v.s + 1, false, v.h);
    if p in Leaving(x) {
      LeavingOf(x, p);
      z := Realize(n.a, va, p, from);
      z := Early(g, v, a, va, p, z, from);
      return;
    }
    if ApplyLoses(Paths(n.a, v.s, false, v.h, v.s), Paths(n.b, v.s + 1, false, v.h, v.s)) {
      z := ApplyLost(n, v, p, from);
      return;
    }
    var pa, pb, fails := ApplyFrom(x, y, v.s, v.clear, v.k, p);
    z := Realize(n.a, va, pa, from);
    if z.lost {
      z := Before(g, v, a, va, pa, z, p, from);
      return;
    }
    var zb := Realize(n.b, vb, pb, z.upto);
    z := ApplyOn(n, v, va, pa, z, pb, zb, fails, from);
  }

  lemma LeavingOf(x: set<Path>, p: Path)
    requires p in Leaving(x)
    ensures p in x && p.end != AtEnd
  {
  }

  /** From the second operand on. */
  lemma ApplyOn(n: Node, v: View, va: View, pa: Path, za: Plan, pb: Path, zb: Plan, fails: bool, from: nat) returns (z: Plan)
    requires n.Apply? && Good(n, v.s, v.clear, v.h) && pa.end == AtEnd && !za.lost && va == View(v.s, false, v.h, v.k)
    requires !ApplyLoses(Paths(n.a, v.s, false, v.h, v.s), Paths(n.b, v.s + 1, false, v.h, v.s))
    requires Taken(n.a, va, pa, za, from) && Taken(n.b, View(v.s + 1, false, v.h, v.k), pb, zb, za.upto)
    ensures Taken(n, v, Follow(pa.mark, if pb.end == AtEnd then AnswerPath(v.s, v.clear, v.k, pb, fails) else pb), z, from)
  {
    hide Eval, Run, Scripted, Paths, Achieves, AchievesAt, Leaves, Carries, Leads, Keeps, AnswerPath, ApplyLoses, Good, Then2;
    var vb, g2 := View(v.s + 1, false, v.h, v.k), Second(n, v.s, v.h, za.value);
    var g, a, b := Of(n, v.s, v.clear, v.h), Of(n.a, v.s, false, v.h), Of(n.b, v.s + 1, false, v.h);
    ApplyFlows(n, v, za.value);
    ApplyLeads(n, v, va, pa, za, from);
    var p, z2 := pb, zb;
    if pb.end != AtEnd {
      z2 := Early(g2, v, b, vb, pb, zb, za.upto);
    } else {
      p := AnswerPath(v.s, v.clear, v.k, pb, fails);
      AnswerEnd(v.s, v.clear, v.k, pb, fails);
      if zb.lost {
        z2 := Before(g2, v, b, vb, pb, zb, p, za.upto);
      } else {
        KeepsFirst(n, v, va, pa, za, from);
        AnswerAchieves(n, v, za.value, pb, zb, za.upto, fails);
        z2 := AnswerPlan(zb, v.clear, fails);
      }
    }
    Next(g, v, a, va, pa, za, g2, p, z2, 0, from);
    z := Then2(za, z2, 0);
    ThenParts2(za, z2, 0);
  }

  lemma AnswerEnd(s: nat, clear: bool, k: nat, q: Path, fails: bool)
    requires q.end == AtEnd
    ensures AnswerPath(s, clear, k, q, fails).end != AtLoss
  {
  }

  // Loops.

  /** The body of a loop, and what comes after it. */
  function Round(n: Node, v: View): Doing
    requires n.While?
  {
    Doing((env: Env, w: World) => RoundEval(n, env, w), (env: Env, t: Temps, w: World) => RoundRun(n, v.s, v.clear, v.h, env, t, w))
  }

  /** Back to the condition. */
  function Again(n: Node, v: View): Doing {
    Doing((env: Env, w: World) => AgainEval(n, env, w), (env: Env, t: Temps, w: World) => AgainRun(n, v.s, v.clear, v.h, env, t, w))
  }

  function BodyView(v: View): View {
    View(v.s, true, InLoop(v.h, v.s, v.clear), v.k)
  }

  function At(n: Node, v: View): Doing {
    Of(n, v.s, v.clear, v.h)
  }

  lemma RoundDead(n: Node, throws: nat -> bool, decide: nat -> nat, y: Result, w: World)
    requires n.While? && y == Eval(n.body, Scripted(throws, decide), w) && y.Done? && Dead(throws, |y.w.history|) && y.w.fuel >= 1
    ensures var r := RoundEval(n, Scripted(throws, decide), w); r.Done? && r.w.fuel + 1 >= y.w.fuel && y.w.history <= r.w.history
  {
    hide Eval, Scripted;
    DeadEnds(n, throws, decide, y.w.(fuel := y.w.fuel - 1));
  }

  lemma RoundExtends(n: Node, v: View, env: Env, t: Temps, w: World)
    requires n.While?
    ensures var y, q := Run(n.body, v.s, true, InLoop(v.h, v.s, v.clear), env, t, w), RoundRun(n, v.s, v.clear, v.h, env, t, w);
      q.Ran? ==> y.Ran? && w.history <= y.w.history <= q.w.history
  {
    hide Run;
    RunExtends(n.body, v.s, true, InLoop(v.h, v.s, v.clear), env, t, w);
    var y := Run(n.body, v.s, true, InLoop(v.h, v.s, v.clear), env, t, w);
    if y.Ran? && y.w.fuel > 0 {
      RunExtends(n, v.s, v.clear, v.h, env, y.t, y.w.(fuel := y.w.fuel - 1));
    }
  }

  lemma WhileFlows(n: Node, v: View)
    requires n.While?
    ensures Leaves(At(n, v), At(n.c, View(v.s, false, v.h, v.k))) && Carries(At(n, v), At(n.c, View(v.s, false, v.h, v.k)))
    ensures Carries(Round(n, v), At(n.body, BodyView(v)))
  {
    hide Eval, Run, Scripted, RoundEval, RoundRun, IsTrue;
    var g, a, b, c := At(n, v), At(n.c, View(v.s, false, v.h, v.k)), Round(n, v), At(n.body, BodyView(v));
    forall env: Env, t: Temps, w: World
      ensures LeavesIn(g, a, env, t, w)
    {
      WhileEval(n, env, w);
      WhileRun(n, v.s, v.clear, v.h, env, t, w);
    }
    forall throws: nat -> bool, decide: nat -> nat, t: Temps, w: World
      ensures CarriesOn(g, a, throws, decide, t, w) && CarriesOn(b, c, throws, decide, t, w)
    {
      var env := Scripted(throws, decide);
      WhileEval(n, env, w);
      WhileRun(n, v.s, v.clear, v.h, env, t, w);
      var x, y := Eval(n.c, env, w), Run(n.c, v.s, false, v.h, env, t, w);
      if x.Done? && Dead(throws, |x.w.history|) && x.w.fuel >= 1 {
        DeadEnds(n.body, throws, decide, x.w);
        RoundDead(n, throws, decide, Eval(n.body, env, x.w), x.w);
      }
      if y.Ran? {
        RoundExtends(n, v, env, y.t, y.w);
      }
      var z := Eval(n.body, env, w);
      if z.Done? && Dead(throws, |z.w.history|) && z.w.fuel >= 1 {
        RoundDead(n, throws, decide, z, w);
      }
      RoundExtends(n, v, env, t, w);
    }
  }

  lemma WhileLeads(n: Node, v: View, pa: Path, za: Plan, from: nat, choice: nat)
    requires n.While? && pa.end == AtEnd && !za.lost && choice <= 1 && (choice == 1 ==> za.value > 0)
    ensures Leads(At(n, v), At(n.c, View(v.s, false, v.h, v.k)), View(v.s, false, v.h, v.k), pa, za, from, choice,
                  if choice == 1 then Round(n, v) else At(Null, v))
  {
    hide Eval, Run, Suits, Marked, RoundEval, RoundRun;
    var va := View(v.s, false, v.h, v.k);
    var g, a, b := At(n, v), At(n.c, va), if choice == 1 then Round(n, v) else At(Null, v);
    forall c: Case | Ready(a, va, pa, za, from, choice, c)
      ensures GoesOnAs(g, a, b, c)
    {
      var env := Scripted(c.throws, c.decide);
      WhileEval(n, env, c.w);
      WhileRun(n, v.s, v.clear, v.h, env, c.t, c.w);
      NullMeans(v, env, a.r(env, c.t, c.w), a.e(env, c.w));
    }
  }

  lemma NullMeans(v: View, env: Env, y: Ran, x: Result)
    ensures x.Done? ==> Eval(Null, env, x.w) == Done(Normal(NULL), x.w)
    ensures y.Ran? ==> Run(Null, v.s, v.clear, v.h, env, y.t, y.w) == Ran(Normally, Nulls(v.clear, v.s, y.t), y.w)
  {
  }

  /** The path of the loop when its body is left. */
  function OutPath(clear: bool, q: Path): Path {
    if q.end == AtBreak then if clear then Drop(q) else q.(end := AtEnd) else q
  }

  lemma OutReached(n: Node, v: View, y: Result, q: Ran, p: Path, z: Plan, from: nat, c: Case)
    requires n.While? && Reached(y, q, p, z, from, BodyView(v), c) && (p.end == AtBreak || p.end == AtReturn || p.end == AtThrow)
    requires y == Eval(n.body, Scripted(c.throws, c.decide), c.w)
    requires q == Run(n.body, v.s, true, InLoop(v.h, v.s, v.clear), Scripted(c.throws, c.decide), c.t, c.w)
    ensures var env := Scripted(c.throws, c.decide);
      Reached(RoundEval(n, env, c.w), RoundRun(n, v.s, v.clear, v.h, env, c.t, c.w), OutPath(v.clear, p), z, from, v, c)
  {
    hide Eval, Run, Scripted, AgainEval, AgainRun;
  }

  lemma OutAchieves(n: Node, v: View, p: Path, z: Plan, from: nat)
    requires n.While? && !z.lost && (p.end == AtBreak || p.end == AtReturn || p.end == AtThrow)
    requires Achieves(At(n.body, BodyView(v)), BodyView(v), p, z, from)
    ensures Achieves(Round(n, v), v, OutPath(v.clear, p), z, from)
  {
    hide Eval, Run, Scripted, Achieves, Reached, Suits, RoundEval, RoundRun;
    var b, a, vb := Round(n, v), At(n.body, BodyView(v)), BodyView(v);
    AchievesUpto(a, vb, p, z, from);
    forall c: Case | Suits(c, z, from)
      ensures Achieved(b, v, OutPath(v.clear, p), z, from, c)
    {
      Achieve(a, vb, p, z, from, c);
      var env := Scripted(c.throws, c.decide);
      OutReached(n, v, a.e(env, c.w), a.r(env, c.t, c.w), p, z, from, c);
    }
    AchievesAll(b, v, OutPath(v.clear, p), z, from);
  }

  /** Where the last paths of a loop come from: the body is entered or not. */
  lemma LastFrom(x: set<Path>, y: set<Path>, v: View, f: Path) returns (pa: Path, pb: Path, enters: bool)
    requires f in Lasts(x, y, v.s, v.clear, v.k) && f !in Leaving(x)
    ensures pa in x && pa.end == AtEnd
    ensures enters ==> pa.made && pb in y && (pb.end == AtBreak || pb.end == AtReturn || pb.end == AtThrow || pb.end == AtLoss)
                       && f == Follow(pa.mark, OutPath(v.clear, pb))
    ensures !enters ==> pb in Paths(Null, v.s, v.clear, v.h, v.k) && f == Follow(pa.mark, pb)
  {
    var out := Only(y, AtReturn) + Only(y, AtThrow) + Only(y, AtLoss);
    enters := true;
    if f in Joins(Made(x), out) {
      pa, pb := JoinsOf(Made(x), out, f);
    } else if f in Cleans(v.clear, Passing(Joins(Made(x), Only(y, AtBreak)))) {
      var r := BreakFrom(Joins(Made(x), Only(y, AtBreak)), v.clear, f);
      pa, pb := JoinsOf(Made(x), Only(y, AtBreak), r);
    } else {
      enters := false;
      pb := if v.clear then Path(AtEnd, Kept, false) else Store(v.s, v.k, false, Kept);
      if v.clear {
        pa :| pa in x && pa.end == AtEnd && f == Drop(pa);
      } else {
        pa :| pa in x && pa.end == AtEnd && f == Store(v.s, v.k, false, pa.mark);
      }
    }
  }

  lemma BreakFrom(a: set<Path>, clear: bool, f: Path) returns (r: Path)
    requires f in Cleans(clear, Passing(a))
    ensures r in a && f == if clear then Drop(r) else r.(end := AtEnd)
  {
    if clear {
      var q :| q in Passing(a) && f == Drop(q);
      r :| r in a && q == r.(end := AtEnd);
    } else {
      r :| r in a && f == r.(end := AtEnd);
    }
  }

  lemma WhileGood(n: Node, v: View)
    requires n.While? && Good(n, v.s, v.clear, v.h)
    ensures Good(n.c, v.s, false, v.h) && Good(n.body, v.s, true, InLoop(v.h, v.s, v.clear)) && Good(Null, v.s, v.clear, v.h)
  {
  }

  /** The loop is left without going round. */
  lemma LastTaken(n: Node, v: View, f: Path, from: nat) returns (z: Plan)
    requires n.While? && Good(n, v.s, v.clear, v.h)
    requires f in Lasts(Paths(n.c, v.s, false, v.h, v.k), PathsOf(n.body, BodyView(v)), v.s, v.clear, v.k)
    ensures Taken(n, v, f, z, from)
    decreases n, 0
  {
    hide Eval, Run, Scripted, Paths, Achieves, AchievesAt, Leaves, Carries, Leads, Lasts, Good, Then2, Suits;
    WhileGood(n, v);
    WhileFlows(n, v);
    var va := View(v.s, false, v.h, v.k);
    var x, y, g, a := PathsOf(n.c, va), PathsOf(n.body, BodyView(v)), At(n, v), At(n.c, va);
    if f in Leaving(x) {
      z := Realize(n.c, va, f, from);
      z := Early(g, v, a, va, f, z, from);
      return;
    }
    var pa, pb, enters := LastFrom(x, y, v, f);
    z := Realize(n.c, va, pa, from);
    if z.lost {
      z := Before(g, v, a, va, pa, z, f, from);
      return;
    }
    MadePlan(a, va, pa, z, from);
    var choice, zb := if enters then 1 else 0, z;
    WhileLeads(n, v, pa, z, from, choice);
    if enters {
      zb := Realize(n.body, BodyView(v), pb, z.upto);
      zb := OutTaken(n, v, pb, zb, z.upto);
      pb := OutPath(v.clear, pb);
    } else {
      zb := AtomTaken(Null, v, pb, z.upto);
    }
    Next(g, v, a, va, pa, z, if enters then Round(n, v) else At(Null, v), pb, zb, choice, from);
    ThenParts2(z, zb, choice);
    z := Then2(z, zb, choice);
  }

  lemma OutTaken(n: Node, v: View, p: Path, z0: Plan, from: nat) returns (z: Plan)
    requires n.While? && Taken(n.body, BodyView(v), p, z0, from) && Carries(Round(n, v), At(n.body, BodyView(v)))
    requires p.end == AtBreak || p.end == AtReturn || p.end == AtThrow || p.end == AtLoss
    ensures Valid(z, from) && Achieves(Round(n, v), v, OutPath(v.clear, p), z, from)
    ensures OutPath(v.clear, p).end == AtLoss ==> z.lost
  {
    hide Achieves, Carries;
    z := z0;
    if z.lost {
      z := Before(Round(n, v), v, At(n.body, BodyView(v)), BodyView(v), p, z, OutPath(v.clear, p), from);
    } else {
      OutAchieves(n, v, p, z, from);
    }
  }

  // Going round once.

  lemma TurnLeads(n: Node, v: View, p: Path, z: Plan, from: nat)
    requires n.While? && !z.lost && (p.end == AtEnd || p.end == AtContinue)
    ensures Leads(Round(n, v), At(n.body, BodyView(v)), BodyView(v), p, z, from, 0, Again(n, v))
  {
    hide Eval, Run, Scripted, Suits, Marked, AgainEval, AgainRun;
    var g, a, b := Round(n, v), At(n.body, BodyView(v)), Again(n, v);
    forall c: Case | Ready(a, BodyView(v), p, z, from, 0, c)
      ensures GoesOnAs(g, a, b, c)
    {
    }
  }

  lemma AgainAchieves(n: Node, v: View, p: Path, z: Plan, from: nat)
    requires Achieves(At(n, v), v, p, z, from)
    ensures Achieves(Again(n, v), v, p, z.(fuel := z.fuel + 1), from)
  {
    hide Eval, Run, Scripted, Achieves;
    var g, a, z' := Again(n, v), At(n, v), z.(fuel := z.fuel + 1);
    AchievesUpto(a, v, p, z, from);
    forall c: Case | Suits(c, z', from)
      ensures Achieved(g, v, p, z', from, c)
    {
      var c1 := c.(w := c.w.(fuel := c.w.fuel - 1));
      Achieve(a, v, p, z, from, c1);
    }
    AchievesAll(g, v, p, z', from);
  }

  lemma TurnFollows(pa: Path, pb: Path, f: Path)
    ensures Follow(Forget(Follow(pa.mark, pb).mark), f) == Follow(pa.mark, Follow(pb.mark, f))
  {
  }

  lemma TurnFrom(x: set<Path>, y: set<Path>, m: Mark) returns (pa: Path, pb: Path)
    requires m in Turns(x, y) && !m.Kept?
    ensures pa in x && pa.end == AtEnd && pa.made && pb in y && (pb.end == AtEnd || pb.end == AtContinue)
    ensures m == Forget(Follow(pa.mark, pb).mark)
  {
    var r :| r in Joins(Made(x), Only(y, AtEnd) + Only(y, AtContinue)) && m == Forget(r.mark);
    pa, pb := JoinsOf(Made(x), Only(y, AtEnd) + Only(y, AtContinue), r);
  }

  lemma TurnTaken(n: Node, v: View, m: Mark, f: Path, from: nat) returns (z: Plan)
    requires n.While? && Good(n, v.s, v.clear, v.h) && !m.Kept?
    requires m in Turns(Paths(n.c, v.s, false, v.h, v.k), PathsOf(n.body, BodyView(v)))
    requires f in Lasts(Paths(n.c, v.s, false, v.h, v.k), PathsOf(n.body, BodyView(v)), v.s, v.clear, v.k)
    ensures Taken(n, v, Follow(m, f), z, from)
    decreases n, 2
  {
    hide Eval, Run, Scripted, Paths, Achieves, AchievesAt, Leaves, Carries, Leads, Lasts, Turns, Good, Then2, Suits;
    WhileGood(n, v);
    WhileFlows(n, v);
    var va, vb := View(v.s, false, v.h, v.k), BodyView(v);
    var g, a, p := At(n, v), At(n.c, va), Follow(m, f);
    var pa, pb := TurnFrom(PathsOf(n.c, va), PathsOf(n.body, vb), m);
    TurnFollows(pa, pb, f);
    z := Realize(n.c, va, pa, from);
    if z.lost {
      z := Before(g, v, a, va, pa, z, p, from);
      return;
    }
    MadePlan(a, va, pa, z, from);
    WhileLeads(n, v, pa, z, from, 1);
    var zb := Realize(n.body, vb, pb, z.upto);
    zb := TurnedTaken(n, v, pb, zb, f, z.upto);
    Next(g, v, a, va, pa, z, Round(n, v), Follow(pb.mark, f), zb, 1, from);
    ThenParts2(z, zb, 1);
    z := Then2(z, zb, 1);
  }

  /** From the body on. */
  lemma TurnedTaken(n: Node, v: View, pb: Path, zb: Plan, f: Path, from: nat) returns (z: Plan)
    requires n.While? && Good(n, v.s, v.clear, v.h) && Taken(n.body, BodyView(v), pb, zb, from)
    requires pb.end == AtEnd || pb.end == AtContinue
    requires Carries(Round(n, v), At(n.body, BodyView(v)))
    requires f in Lasts(Paths(n.c, v.s, false, v.h, v.k), PathsOf(n.body, BodyView(v)), v.s, v.clear, v.k)
    ensures Valid(z, from) && Achieves(Round(n, v), v, Follow(pb.mark, f), z, from) && (f.end == AtLoss ==> z.lost)
    decreases n, 1
  {
    hide Eval, Run, Scripted, Paths, Achieves, AchievesAt, Carries, Leads, Lasts, Good, Then2, Suits;
    var b, vb := At(n.body, BodyView(v)), BodyView(v);
    if zb.lost {
      z := Before(Round(n, v), v, b, vb, pb, zb, Follow(pb.mark, f), from);
      return;
    }
    var zf := LastTaken(n, v, f, zb.upto);
    AgainAchieves(n, v, f, zf, zb.upto);
    zf := zf.(fuel := zf.fuel + 1);
    TurnLeads(n, v, pb, zb, from);
    Next(Round(n, v), v, b, vb, pb, zb, Again(n, v), f, zf, 0, from);
    ThenParts2(zb, zf, 0);
    z := Then2(zb, zf, 0);
  }

  lemma WhileTaken(n: Node, v: View, p: Path, from: nat) returns (z: Plan)
    requires n.While? && Good(n, v.s, v.clear, v.h) && p in PathsOf(n, v)
    ensures Taken(n, v, p, z, from)
    decreases n, 3
  {
    hide Eval, Run, Paths, Lasts, Turns, Good, Taken;
    WhilePaths(n, v.s, v.clear, v.h, v.k);
    var x, y := Paths(n.c, v.s, false, v.h, v.k), PathsOf(n.body, BodyView(v));
    var m, f :| m in Turns(x, y) && f in Lasts(x, y, v.s, v.clear, v.k) && p == Follow(m, f);
    if m.Kept? {
      assert Follow(m, f) == f;
      z := LastTaken(n, v, f, from);
    } else {
      z := TurnTaken(n, v, m, f, from);
    }
  }

  // A `try`.

  /** The body and the clauses. */
  function CaughtEval(n: Node, env: Env, w: World): Result
    requires n.Try?
  {
    var x := Eval(n.body, env, w);
    if x.Done? && x.out.Thrown? then Handle(n.catches, env, x.out.x, x.w) else x
  }

  function CaughtRun(n: Node, v: View, env: Env, t: Temps, w: World): Ran
    requires n.Try?
  {
    var x := Run(n.body, v.s, v.clear, v.h, env, t, w);
    if x.Ran? && x.out.Throwing? then RunClauses(n.catches, v.s, v.clear, v.h, env, x.out.x, x.t, x.w) else x
  }

  function Caught(n: Node, v: View): Doing
    requires n.Try?
  {
    Doing((env: Env, w: World) => CaughtEval(n, env, w), (env: Env, t: Temps, w: World) => CaughtRun(n, v, env, t, w))
  }

  /** The clauses, for an exception. */
  function Handler(cs: Catches, x: int, v: View): Doing {
    Doing((env: Env, w: World) => Handle(cs, env, x, w),
          (env: Env, t: Temps, w: World) => RunClauses(cs, v.s, v.clear, v.h, env, x, t, w))
  }

  function Assigned(n: Node, i: nat, x: int, v: View): Doing {
    Doing((env: Env, w: World) => Eval(n, env, Assign(w, i, x)),
          (env: Env, t: Temps, w: World) => Run(n, v.s, v.clear, v.h, env, t, Assign(w, i, x)))
  }

  function Refused(): Doing {
    Doing((env: Env, w: World) => Done(Thrown(0), w), (env: Env, t: Temps, w: World) => Ran(Throwing(0), t, w))
  }

  /** After the type of the first clause: it fits for 1, and is no type for 2. */
  function After(cs: Catches, x: int, v: View, choice: nat): Doing
    requires cs.Catch?
  {
    if choice == 1 then Assigned(cs.body, cs.i, x, v) else if choice == 2 then Refused() else Handler(cs.rest, x, v)
  }

  lemma HandlerFlows(cs: Catches, x: int, v: View)
    requires cs.Catch?
    ensures var g, a := Handler(cs, x, v), At(cs.kind, View(v.s, false, v.h, v.k)); Leaves(g, a) && Carries(g, a)
  {
    hide Eval, Run, Scripted, Paths, ClausePaths, Handle, RunClauses;
    var g, a := Handler(cs, x, v), At(cs.kind, View(v.s, false, v.h, v.k));
    forall env: Env, t: Temps, w: World
      ensures LeavesIn(g, a, env, t, w)
    {
      ClausesMean(cs, v.s, v.clear, v.h, v.k, env, x, t, w);
    }
    forall throws: nat -> bool, decide: nat -> nat, t: Temps, w: World
      ensures CarriesOn(g, a, throws, decide, t, w)
    {
      var env := Scripted(throws, decide);
      ClausesMean(cs, v.s, v.clear, v.h, v.k, env, x, t, w);
      var u, y := Eval(cs.kind, env, w), Run(cs.kind, v.s, false, v.h, env, t, w);
      if u.Done? && Dead(throws, |u.w.history|) {
        DeadEnds(cs.body, throws, decide, Assign(u.w, cs.i, x));
        DeadClauses(cs.rest, throws, decide, x, u.w);
      }
      if y.Ran? {
        RunExtends(cs.body, v.s, v.clear, v.h, env, y.t, Assign(y.w, cs.i, x));
        ClausesExtend(cs.rest, v.s, v.clear, v.h, env, x, y.t, y.w);
      }
    }
  }

  lemma HandlerLeads(cs: Catches, x: int, v: View, pa: Path, za: Plan, from: nat, choice: nat)
    requires cs.Catch? && pa.end == AtEnd && !za.lost && choice <= 2 && (choice <= 1 ==> za.value > 0)
    ensures var va := View(v.s, false, v.h, v.k);
      Leads(Handler(cs, x, v), At(cs.kind, va), va, pa, za, from, choice, After(cs, x, v, choice))
  {
    hide Eval, Run, Paths, ClausePaths, Suits, Marked, Handle, RunClauses;
    var va := View(v.s, false, v.h, v.k);
    var g, a, b := Handler(cs, x, v), At(cs.kind, va), After(cs, x, v, choice);
    forall c: Case | Ready(a, va, pa, za, from, choice, c)
      ensures GoesOnAs(g, a, b, c)
    {
      ClausesMean(cs, v.s, v.clear, v.h, v.k, Scripted(c.throws, c.decide), x, c.t, c.w);
    }
  }

  lemma AssignedAchieves(n: Node, i: nat, x: int, v: View, p: Path, z: Plan, from: nat)
    requires Achieves(At(n, v), v, p, z, from)
    ensures Achieves(Assigned(n, i, x, v), v, p, z, from)
  {
    hide Eval, Run, Scripted, Achieves;
    var g, a := Assigned(n, i, x, v), At(n, v);
    AchievesUpto(a, v, p, z, from);
    forall c: Case | Suits(c, z, from)
      ensures Achieved(g, v, p, z, from, c)
    {
      Achieve(a, v, p, z, from, c.(w := Assign(c.w, i, x)));
    }
    AchievesAll(g, v, p, z, from);
  }

  /** Nothing happens. */
  function Idle(upto: nat): Plan {
    Plan((i: nat) => false, (i: nat) => 0, upto, 0, 0, false)
  }

  lemma ThrowAchieves(v: View, from: nat)
    ensures Achieves(Refused(), v, Path(AtThrow, Kept, false), Idle(from), from)
    ensures forall x: int :: Achieves(Handler(NoCatch, x, v), v, Path(AtThrow, Kept, false), Idle(from), from)
  {
  }

  ghost predicate GoodClauses(cs: Catches, v: View) {
    LegalClauses(cs, v.h.jumping, v.h.returning) && TightClauses(cs, v.s, v.clear, v.h) && Ordered(v.h, v.s)
  }

  /** There are answers for the path, whatever the exception. */
  ghost predicate TakenClauses(cs: Catches, v: View, p: Path, z: Plan, from: nat) {
    Valid(z, from) && (p.end == AtLoss ==> z.lost) && forall x: int :: Achieves(Handler(cs, x, v), v, p, z, from)
  }

  /** Where a path through the clauses comes from. */
  lemma ClauseFrom(x: set<Path>, bs: set<Path>, rs: set<Path>, p: Path) returns (pa: Path, pb: Path, choice: nat)
    requires p in Raises(x) + Joins(Made(x), bs) + Joins(Made(x), rs)
    ensures pa in x && pa.end == AtEnd && p == Follow(pa.mark, pb) && choice <= 2 && (choice <= 1 ==> pa.made)
    ensures pb in if choice == 0 then rs else if choice == 1 then bs else {Path(AtThrow, Kept, false)}
  {
    if p in Joins(Made(x), bs) {
      choice := 1;
      pa, pb := JoinsOf(Made(x), bs, p);
    } else if p in Joins(Made(x), rs) {
      choice := 0;
      pa, pb := JoinsOf(Made(x), rs, p);
    } else {
      choice, pb := 2, Path(AtThrow, Kept, false);
      pa :| pa in x && pa.end == AtEnd && p == Path(AtThrow, Forget(pa.mark), false);
    }
  }

  lemma ClausesTaken(cs: Catches, v: View, p: Path, from: nat) returns (z: Plan)
    requires GoodClauses(cs, v) && p in ClausePaths(cs, v.s, v.clear, v.h, v.k)
    ensures TakenClauses(cs, v, p, z, from)
    decreases cs, 3
  {
    hide Eval, Run, Scripted, Paths, Achieves, Leaves, Carries, Leads, Handle, RunClauses, Joins, Raises, Made, Leaving;
    if cs.NoCatch? {
      ThrowAchieves(v, from);
      z := Idle(from);
      return;
    }
    ClausesMean(cs, v.s, v.clear, v.h, v.k, Counting(), 0, map[], World([], [], 0));
    var va := View(v.s, false, v.h, v.k);
    var x, bs, rs := PathsOf(cs.kind, va), PathsOf(cs.body, v), ClausePaths(cs.rest, v.s, v.clear, v.h, v.k);
    hide ClausePaths;
    if p in Leaving(x) {
      LeavingOf(x, p);
      z := Realize(cs.kind, va, p, from);
      z := ClausesEarly(cs, v, p, z, from);
      return;
    }
    var pa, pb, choice := ClauseFrom(x, bs, rs, p);
    z := Realize(cs.kind, va, pa, from);
    if z.lost {
      z := ClausesBefore(cs, v, pa, z, p, from);
      return;
    }
    MadePlan(At(cs.kind, va), va, pa, z, from);
    var zb := Idle(z.upto);
    if choice == 1 {
      zb := Realize(cs.body, v, pb, z.upto);
      forall e: int
        ensures Achieves(After(cs, e, v, choice), v, pb, zb, z.upto)
      {
        AssignedAchieves(cs.body, cs.i, e, v, pb, zb, z.upto);
      }
    } else if choice == 0 {
      zb := ClausesTaken(cs.rest, v, pb, z.upto);
    } else {
      ThrowAchieves(v, z.upto);
    }
    ClausesOn(cs, v, pa, z, pb, zb, choice, from);
    z := Then2(z, zb, choice);
  }

  lemma ClausesEarly(cs: Catches, v: View, p: Path, z0: Plan, from: nat) returns (z: Plan)
    requires cs.Catch? && Taken(cs.kind, View(v.s, false, v.h, v.k), p, z0, from) && p.end != AtEnd
    ensures TakenClauses(cs, v, p, z, from)
  {
    hide Achieves, Leaves, Carries, Handler;
    var va := View(v.s, false, v.h, v.k);
    z := if z0.lost then Longer(z0) else z0;
    forall x: int
      ensures Achieves(Handler(cs, x, v), v, p, z, from)
    {
      HandlerFlows(cs, x, v);
      var z1 := Early(Handler(cs, x, v), v, At(cs.kind, va), va, p, z0, from);
    }
  }

  lemma ClausesBefore(cs: Catches, v: View, pa: Path, z0: Plan, p: Path, from: nat) returns (z: Plan)
    requires cs.Catch? && Taken(cs.kind, View(v.s, false, v.h, v.k), pa, z0, from) && z0.lost
    ensures TakenClauses(cs, v, p, z, from)
  {
    hide Achieves, Leaves, Carries, Handler;
    var va := View(v.s, false, v.h, v.k);
    z := Longer(z0);
    forall x: int
      ensures Achieves(Handler(cs, x, v), v, p, z, from)
    {
      HandlerFlows(cs, x, v);
      var z1 := Before(Handler(cs, x, v), v, At(cs.kind, va), va, pa, z0, p, from);
    }
  }

  lemma ClausesOn(cs: Catches, v: View, pa: Path, za: Plan, pb: Path, zb: Plan, choice: nat, from: nat)
    requires cs.Catch? && Taken(cs.kind, View(v.s, false, v.h, v.k), pa, za, from) && !za.lost && pa.end == AtEnd
    requires choice <= 2 && (choice <= 1 ==> za.value > 0) && Valid(zb, za.upto) && (pb.end == AtLoss ==> zb.lost)
    requires forall x: int :: Achieves(After(cs, x, v, choice), v, pb, zb, za.upto)
    ensures TakenClauses(cs, v, Follow(pa.mark, pb), Then2(za, zb, choice), from)
  {
    hide Achieves, AchievesAt, Leads, Handler, After, Then2;
    var va := View(v.s, false, v.h, v.k);
    ThenParts2(za, zb, choice);
    forall x: int
      ensures Achieves(Handler(cs, x, v), v, Follow(pa.mark, pb), Then2(za, zb, choice), from)
    {
      HandlerLeads(cs, x, v, pa, za, from, choice);
      Next(Handler(cs, x, v), v, At(cs.kind, va), va, pa, za, After(cs, x, v, choice), pb, zb, choice, from);
    }
    ThenValid(za, zb, choice, from);
  }

  lemma ThenValid(za: Plan, zb: Plan, choice: nat, from: nat)
    requires Valid(za, from) && Valid(zb, za.upto)
    ensures Valid(Then2(za, zb, choice), from)
  {
  }

  // The body of a `try`, and its clauses.

  function InnerView(v: View): View {
    View(v.s, v.clear, Inner(v.h, v.s), v.k)
  }

  lemma CaughtFlows(n: Node, v: View)
    requires n.Try?
    ensures Carries(Caught(n, v), At(n.body, v))
  {
    hide Eval, Run, Scripted, Handle, RunClauses;
    var g, a := Caught(n, v), At(n.body, v);
    forall throws: nat -> bool, decide: nat -> nat, t: Temps, w: World
      ensures CarriesOn(g, a, throws, decide, t, w)
    {
      var env := Scripted(throws, decide);
      var x, y := Eval(n.body, env, w), Run(n.body, v.s, v.clear, v.h, env, t, w);
      if x.Done? && x.out.Thrown? && Dead(throws, |x.w.history|) {
        DeadClauses(n.catches, throws, decide, x.out.x, x.w);
      }
      if y.Ran? && y.out.Throwing? {
        ClausesExtend(n.catches, v.s, v.clear, v.h, env, y.out.x, y.t, y.w);
      }
    }
  }

  /** The body is left without an exception. */
  lemma PassAchieves(n: Node, v: View, p: Path, z: Plan, from: nat)
    requires n.Try? && Achieves(At(n.body, v), v, p, z, from) && !z.lost && p.end != AtThrow
    ensures Achieves(Caught(n, v), v, p, z, from)
  {
    hide Eval, Run, Scripted, Achieves, Suits, Marked;
    var g, a := Caught(n, v), At(n.body, v);
    AchievesUpto(a, v, p, z, from);
    forall c: Case | Suits(c, z, from)
      ensures Achieved(g, v, p, z, from, c)
    {
      Achieve(a, v, p, z, from, c);
    }
    AchievesAll(g, v, p, z, from);
  }

  /** The clauses go on with what has been thrown. */
  lemma ThrownAchieves(n: Node, v: View, pa: Path, za: Plan, pb: Path, zb: Plan, from: nat)
    requires n.Try? && Taken(n.body, v, pa, za, from) && !za.lost && pa.end == AtThrow
    requires TakenClauses(n.catches, v, pb, zb, za.upto)
    ensures Achieves(Caught(n, v), v, Follow(pa.mark, pb), Then2(za, zb, 0), from)
  {
    hide Eval, Run, Scripted, Achieves, Suits, Marked, Then2, Handle, RunClauses;
    var g, a, z := Caught(n, v), At(n.body, v), Then2(za, zb, 0);
    ThenParts2(za, zb, 0);
    forall c: Case | Suits(c, z, from)
      ensures Achieved(g, v, Follow(pa.mark, pb), z, from, c)
    {
      SuitsFirst(c, za, zb, 0, from);
      Achieve(a, v, pa, za, from, c);
      var x := Eval(n.body, Scripted(c.throws, c.decide), c.w);
      var b := Handler(n.catches, x.out.x, v);
      assert GoesOnAs(g, a, b, c);
      NextHere(g, v, a, v, pa, za, b, pb, zb, 0, from, c);
    }
    AchievesAll(g, v, Follow(pa.mark, pb), z, from);
  }

  /** There are answers for the path through the body and the clauses. */
  ghost predicate TakenCaught(n: Node, v: View, p: Path, z: Plan, from: nat)
    requires n.Try?
  {
    Valid(z, from) && Achieves(Caught(n, v), v, p, z, from) && (p.end == AtLoss ==> z.lost)
  }

  lemma CaughtFrom(x: set<Path>, cs: set<Path>, p: Path) returns (pa: Path, pb: Path)
    requires p in CaughtPaths(x, cs)
    ensures pa in x && (pa.end == AtThrow ==> pb in cs && p == Follow(pa.mark, pb)) && (pa.end != AtThrow ==> p == pa)
  {
    pa, pb := p, p;
    if !(p in x && p.end != AtThrow) {
      pa, pb :| pa in x && pa.end == AtThrow && pb in cs && p == Follow(pa.mark, pb);
    }
  }

  lemma CaughtTaken(n: Node, v: View, p: Path, from: nat) returns (z: Plan)
    requires n.Try? && Good(n.body, v.s, v.clear, v.h) && GoodClauses(n.catches, v)
    requires p in CaughtPaths(PathsOf(n.body, v), ClausePaths(n.catches, v.s, v.clear, v.h, v.k))
    ensures TakenCaught(n, v, p, z, from)
    decreases n, 0
  {
    hide Eval, Run, Paths, ClausePaths, Achieves, Carries, CaughtPaths, Good, GoodClauses;
    CaughtFlows(n, v);
    var pa, pb := CaughtFrom(PathsOf(n.body, v), ClausePaths(n.catches, v.s, v.clear, v.h, v.k), p);
    z := Realize(n.body, v, pa, from);
    if z.lost {
      z := Before(Caught(n, v), v, At(n.body, v), v, pa, z, p, from);
    } else if pa.end != AtThrow {
      PassAchieves(n, v, p, z, from);
    } else {
      var zb := ClausesTaken(n.catches, v, pb, z.upto);
      ThrownAchieves(n, v, pa, z, pb, zb, from);
      ThenValid(z, zb, 0, from);
      z := Then2(z, zb, 0);
    }
  }

  // The `finally`.

  lemma TryMeans(n: Node, v: View, env: Env, t: Temps, w: World)
    requires n.Try?
    ensures var y := CaughtEval(n, env, w); Eval(n, env, w) == if !y.Done? then y else FinallyEval(n.last, env, y)
    ensures var y := CaughtRun(n, InnerView(v), env, t, w);
      Run(n, v.s, v.clear, v.h, env, t, w) == if !y.Ran? then y else FinallyRun(n.last, v.s, v.h, env, y)
  {
    hide Eval, Run, Handle, RunClauses, FinallyEval, FinallyRun;
    TryEval(n, env, w);
    TryRun(n, v.s, v.clear, v.h, env, t, w);
  }

  lemma TryFlows(n: Node, v: View)
    requires n.Try?
    ensures Carries(At(n, v), Caught(n, InnerView(v)))
  {
    hide Eval, Run, Scripted, CaughtEval, CaughtRun, Settle;
    var g, a := At(n, v), Caught(n, InnerView(v));
    forall throws: nat -> bool, decide: nat -> nat, t: Temps, w: World
      ensures CarriesOn(g, a, throws, decide, t, w)
    {
      var env := Scripted(throws, decide);
      TryMeans(n, v, env, t, w);
      var x, y := CaughtEval(n, env, w), CaughtRun(n, InnerView(v), env, t, w);
      if x.Done? && n.last.Some? && Dead(throws, |x.w.history|) {
        DeadEnds(n.last.value, throws, decide, x.w);
      }
      if y.Ran? && n.last.Some? {
        RunExtends(n.last.value, v.s + 1, true, OUTSIDE, env, y.t, y.w);
      }
      if y.Ran? {
        SettleWorld(v.h, v.s, y);
      }
      FinallyWorld(n.last, v, env, y);
    }
  }

  lemma SettleWorld(h: Shape, s: nat, r: Ran)
    requires r.Ran?
    ensures var q := Settle(h, s, r); q.Ran? && q.w == r.w && q.out == r.out
  {
  }

  lemma FinallyWorld(last: Option<Node>, v: View, env: Env, y: Ran)
    ensures y.Ran? ==>
      var q := FinallyRun(last, v.s, v.h, env, y);
      q.Ran? ==> q.w == if last.None? then y.w else Run(last.value, v.s + 1, true, OUTSIDE, env, y.t, y.w).w
  {
    hide Run;
  }

  /** A `break` with a value leaves a `try` only where it is moved. */
  ghost predicate MovesWell(h: Shape, s: nat, out: Outcome) {
    out.Broken? ==> h.clears || s >= h.breakStack
  }

  lemma SettledReached(r: Result, q: Ran, p: Path, z: Plan, from: nat, v: View, c: Case)
    requires Reached(r, q, p, z, from, InnerView(v), c) && Ordered(v.h, v.s) && MovesWell(v.h, v.s, r.out)
    ensures Reached(r, Settle(v.h, v.s, q), SettlePath(v.h, v.s, v.k, p), z, from, v, c)
  {
  }

  lemma CaughtMoves(n: Node, v: View, env: Env, w: World)
    requires n.Try? && Tight(n, v.s, v.clear, v.h) && Legal(n, v.h.jumping, v.h.returning)
    ensures var y := CaughtEval(n, env, w); y.Done? && v.h.jumping ==> MovesWell(v.h, v.s, y.out)
  {
    hide Eval, Handle, Tight, Legal;
    if v.h.jumping {
      BreaksKept(n, v.s, v.clear, v.h, env, w);
    }
  }

  /** Without a `finally`. */
  lemma BareAchieves(n: Node, v: View, p: Path, z: Plan, from: nat)
    requires n.Try? && n.last.None? && Good(n, v.s, v.clear, v.h) && !z.lost
    requires Achieves(Caught(n, InnerView(v)), InnerView(v), p, z, from)
    ensures Achieves(At(n, v), v, SettlePath(v.h, v.s, v.k, p), z, from)
  {
    hide Eval, Run, Scripted, Achieves, Suits, Reached, CaughtEval, CaughtRun, Settle, SettlePath, Tight, Legal;
    var g, a, va, p' := At(n, v), Caught(n, InnerView(v)), InnerView(v), SettlePath(v.h, v.s, v.k, p);
    AchievesUpto(a, va, p, z, from);
    forall c: Case | Suits(c, z, from)
      ensures Achieved(g, v, p', z, from, c)
    {
      var env := Scripted(c.throws, c.decide);
      Achieve(a, va, p, z, from, c);
      TryMeans(n, v, env, c.t, c.w);
      CaughtMoves(n, v, env, c.w);
      ReachedParts(a.e(env, c.w), a.r(env, c.t, c.w), p, z, from, va, c);
      SettledReached(a.e(env, c.w), a.r(env, c.t, c.w), p, z, from, v, c);
    }
    AchievesAll(g, v, p', z, from);
  }

  lemma ReachedParts(r: Result, q: Ran, p: Path, z: Plan, from: nat, v: View, c: Case)
    requires Reached(r, q, p, z, from, v, c)
    ensures r.Done? && q.Ran? && q.w == r.w && |r.w.history| == z.upto && r.w.fuel == c.w.fuel - z.fuel && p.end == EndOf(r.out)
    ensures r.out.Broken? ==> v.h.jumping
  {
  }

  /** The `finally`, when the parts have been left as `out`. */
  function Ending(n: Node, out: Outcome, way: Way, v: View): Doing
    requires n.Try?
  {
    Doing((env: Env, w: World) => FinallyEval(n.last, env, Done(out, w)),
          (env: Env, t: Temps, w: World) => FinallyRun(n.last, v.s, v.h, env, Ran(way, t, w)))
  }

  function LastView(v: View): View {
    View(v.s + 1, true, OUTSIDE, v.k)
  }

  /** The `finally` is left itself, or has lost. */
  lemma EndingEarly(n: Node, out: Outcome, way: Way, v: View, p: Path, z0: Plan, from: nat)
    requires n.Try? && n.last.Some? && Taken(n.last.value, LastView(v), p, z0, from) && (z0.lost || p.end != AtEnd)
    ensures Achieves(Ending(n, out, way, v), v, p, if z0.lost then Longer(z0) else z0, from)
  {
    hide Eval, Run, Scripted, Achieves, Suits, Marked, Settle;
    var g, a, va := Ending(n, out, way, v), At(n.last.value, LastView(v)), LastView(v);
    if z0.lost {
      forall throws: nat -> bool, decide: nat -> nat, t: Temps, w: World
        ensures CarriesOn(g, a, throws, decide, t, w)
      {
        var y := Run(n.last.value, v.s + 1, true, OUTSIDE, Scripted(throws, decide), t, w);
        if Goes(y) {
          SettleWorld(v.h, v.s, y.(out := way));
        }
      }
      StillLost(g, v, a, va, p, z0, p, from);
    } else {
      AchievesUpto(a, va, p, z0, from);
      forall c: Case | Suits(c, z0, from)
        ensures Achieved(g, v, p, z0, from, c)
      {
        Achieve(a, va, p, z0, from, c);
      }
      AchievesAll(g, v, p, z0, from);
    }
  }

  /** As the parts have been left, so goes the `finally`. */
  lemma EndingNext(n: Node, v: View, pa: Path, za: Plan, pb: Path, zb: Plan, from: nat)
    requires n.Try? && TakenCaught(n, InnerView(v), pa, za, from) && !za.lost && Valid(zb, za.upto)
    requires forall out: Outcome, way: Way :: Achieves(Ending(n, out, way, v), v, pb, zb, za.upto)
    ensures Achieves(At(n, v), v, Follow(pa.mark, pb), Then2(za, zb, za.decide(za.value)), from)
  {
    hide Eval, Run, Scripted, Achieves, Suits, Then2, CaughtEval, CaughtRun, FinallyEval, FinallyRun;
    var choice := za.decide(za.value);
    var g, a, z := At(n, v), Caught(n, InnerView(v)), Then2(za, zb, choice);
    ThenParts2(za, zb, choice);
    forall c: Case | Suits(c, z, from)
      ensures Achieved(g, v, Follow(pa.mark, pb), z, from, c)
    {
      var env := Scripted(c.throws, c.decide);
      SuitsFirst(c, za, zb, choice, from);
      Achieve(a, InnerView(v), pa, za, from, c);
      TryMeans(n, v, env, c.t, c.w);
      var x, y := CaughtEval(n, env, c.w), CaughtRun(n, InnerView(v), env, c.t, c.w);
      ReachedParts(x, y, pa, za, from, InnerView(v), c);
      var b := Ending(n, x.out, y.out, v);
      assert GoesOnAs(g, a, b, c);
      NextHere(g, v, a, InnerView(v), pa, za, b, pb, zb, choice, from, c);
    }
    AchievesAll(g, v, Follow(pa.mark, pb), z, from);
  }

  function DecidesOn(za: Plan, zb: Plan, i: nat): nat {
    if i <= za.upto then za.decide(i) else zb.decide(i)
  }

  /** The value of the parts is that of the whole. */
  function Kept2(za: Plan, zb: Plan): Plan {
    Plan((i: nat) => if i <= za.upto then za.throws(i) else zb.throws(i),
         (i: nat) => DecidesOn(za, zb, i),
         zb.upto, za.fuel + zb.fuel, za.value, false)
  }

  lemma SuitsKept(c: Case, za: Plan, zb: Plan, from: nat)
    requires !za.lost && !zb.lost && from <= za.upto <= zb.upto && za.value <= za.upto && Suits(c, Kept2(za, zb), from)
    ensures Suits(c, za, from)
    ensures forall t: Temps, w: World :: |w.history| == za.upto && w.fuel == c.w.fuel - za.fuel ==>
      Suits(Case(c.throws, c.decide, t, w), zb, za.upto)
  {
    var z := Kept2(za, zb);
    forall i: nat | from < i <= za.upto
      ensures c.throws(i) == za.throws(i) && (i != za.value ==> c.decide(i) == za.decide(i))
    {
      assert c.throws(i) == z.throws(i) && (i != z.value ==> c.decide(i) == z.decide(i));
    }
    forall i: nat | za.upto < i <= zb.upto
      ensures c.throws(i) == zb.throws(i) && c.decide(i) == zb.decide(i)
    {
      assert c.throws(i) == z.throws(i) && (i != z.value ==> c.decide(i) == z.decide(i));
    }
  }

  function EndPath(p: Path, q: Path): Path {
    if q.mark.Kept? then p else p.(mark := Forget(q.mark))
  }

  lemma EndReached(x: Result, y: Ran, r: Result, q: Ran, pa: Path, za: Plan, pb: Path, zb: Plan, from: nat, v: View, c: Case)
    requires Reached(x, y, pa, za, from, InnerView(v), c) && Valid(za, from) && Valid(zb, za.upto)
    requires Reached(r, q, pb, zb, za.upto, LastView(v), Case(c.throws, c.decide, y.t, x.w)) && Passes(r)
    requires Read(q.t, v.s) == Read(y.t, v.s)
    ensures Reached(Done(x.out, r.w), q.(out := y.out), EndPath(pa, pb), Kept2(za, zb), from, InnerView(v), c)
  {
  }

  lemma EndAchieves(n: Node, v: View, pa: Path, za: Plan, pb: Path, zb: Plan, from: nat)
    requires n.Try? && n.last.Some? && Good(n, v.s, v.clear, v.h) && !za.lost && !zb.lost && pb.end == AtEnd
    requires TakenCaught(n, InnerView(v), pa, za, from) && Taken(n.last.value, LastView(v), pb, zb, za.upto)
    ensures Achieves(At(n, v), v, SettlePath(v.h, v.s, v.k, EndPath(pa, pb)), Kept2(za, zb), from)
  {
    hide Eval, Run, Achieves, Suits, Reached, CaughtEval, CaughtRun, Settle, SettlePath, EndPath, Kept2, Scripted, Tight;
    var g, a, b := At(n, v), Caught(n, InnerView(v)), At(n.last.value, LastView(v));
    var z, p := Kept2(za, zb), SettlePath(v.h, v.s, v.k, EndPath(pa, pb));
    KeptParts(za, zb);
    forall c: Case | Suits(c, z, from)
      ensures Achieved(g, v, p, z, from, c)
    {
      var env := Scripted(c.throws, c.decide);
      SuitsKept(c, za, zb, from);
      Achieve(a, InnerView(v), pa, za, from, c);
      TryMeans(n, v, env, c.t, c.w);
      CaughtMoves(n, v, env, c.w);
      var x, y := CaughtEval(n, env, c.w), CaughtRun(n, InnerView(v), env, c.t, c.w);
      ReachedParts(x, y, pa, za, from, InnerView(v), c);
      var c1 := Case(c.throws, c.decide, y.t, x.w);
      Achieve(b, LastView(v), pb, zb, za.upto, c1);
      var r, q := Eval(n.last.value, env, x.w), Run(n.last.value, v.s + 1, true, OUTSIDE, env, y.t, y.w);
      ReachedEnds(r, q, pb, zb, za.upto, LastView(v), c1);
      Below(n.last.value, v.s + 1, true, OUTSIDE, env, y.t, y.w, v.s);
      EndReached(x, y, r, q, pa, za, pb, zb, from, v, c);
      SettledReached(Done(x.out, r.w), q.(out := y.out), EndPath(pa, pb), z, from, v, c);
    }
    AchievesAll(g, v, p, z, from);
  }

  lemma KeptParts(za: Plan, zb: Plan)
    ensures var z := Kept2(za, zb); z.upto == zb.upto && !z.lost && z.value == za.value
  {
  }

  lemma ReachedEnds(r: Result, q: Ran, p: Path, z: Plan, from: nat, v: View, c: Case)
    requires Reached(r, q, p, z, from, v, c) && p.end == AtEnd
    ensures Passes(r) && Goes(q) && q.w == r.w
  {
  }

  // Where a path through a `try` comes from.

  /** A path is that of the parts alone, or with one of the `finally`. */
  lemma TryFrom(last: Option<Node>, s: nat, h: Shape, k: nat, y: set<Path>, p: Path) returns (pa: Path, pb: Path)
    requires p in FinallyPaths(last, s, h, k, y)
    ensures pa in y
    ensures last.None? ==> p == SettlePath(h, s, k, pa)
    ensures last.Some? && pa.end == AtLoss ==> p == pa
    ensures last.Some? && pa.end != AtLoss ==> pb in Paths(last.value, s + 1, true, OUTSIDE, k)
    ensures last.Some? && pa.end != AtLoss ==>
      p == if pb.end == AtEnd then SettlePath(h, s, k, EndPath(pa, pb)) else Follow(pa.mark, pb)
  {
    hide Paths, SettlePath;
    if last.None? {
      pb := p;
      pa :| pa in y && p == SettlePath(h, s, k, pa);
    } else {
      var z := Paths(last.value, s + 1, true, OUTSIDE, k);
      if p in Settled(h, s, k, Finishes(y, z)) {
        var f :| f in Finishes(y, z) && p == SettlePath(h, s, k, f);
        pa, pb :| pa in y && pa.end != AtLoss && pb in z && pb.end == AtEnd && f == EndPath(pa, pb);
      } else if p in Only(y, AtLoss) {
        pa, pb := p, p;
      } else {
        pa, pb :| pa in y && pa.end != AtLoss && pb in z && pb.end != AtEnd && p == Follow(pa.mark, pb);
      }
    }
  }

  lemma TryGood(n: Node, v: View)
    requires n.Try? && Good(n, v.s, v.clear, v.h)
    ensures var va := InnerView(v); Good(n.body, va.s, va.clear, va.h) && GoodClauses(n.catches, va)
    ensures n.last.Some? ==> Good(n.last.value, v.s + 1, true, OUTSIDE)
  {
  }

  lemma SettleEnd(h: Shape, s: nat, k: nat, p: Path)
    ensures SettlePath(h, s, k, p).end == p.end
  {
  }

  lemma TryTaken(n: Node, v: View, p: Path, from: nat) returns (z: Plan)
    requires n.Try? && Good(n, v.s, v.clear, v.h) && p in PathsOf(n, v)
    ensures Taken(n, v, p, z, from)
    decreases n, 1
  {
    hide Eval, Run, Scripted, Paths, ClausePaths, CaughtPaths, FinallyPaths, Achieves, Carries, SettlePath, Good, GoodClauses, Then2;
    TryPaths(n, v.s, v.clear, v.h, v.k);
    TryGood(n, v);
    TryFlows(n, v);
    var va := InnerView(v);
    var x := CaughtPaths(PathsOf(n.body, va), ClausePaths(n.catches, va.s, va.clear, va.h, va.k));
    var pa, pb := TryFrom(n.last, v.s, v.h, v.k, x, p);
    z := CaughtTaken(n, va, pa, from);
    if z.lost {
      z := Before(At(n, v), v, Caught(n, va), va, pa, z, p, from);
    } else if n.last.None? {
      SettleEnd(v.h, v.s, v.k, pa);
      BareAchieves(n, v, pa, z, from);
    } else {
      var zb := Realize(n.last.value, LastView(v), pb, z.upto);
      z := LastDone(n, v, pa, z, pb, zb, p, from);
    }
  }

  lemma LastDone(n: Node, v: View, pa: Path, za: Plan, pb: Path, zb: Plan, p: Path, from: nat) returns (z: Plan)
    requires n.Try? && n.last.Some? && Good(n, v.s, v.clear, v.h) && !za.lost && pa.end != AtLoss
    requires TakenCaught(n, InnerView(v), pa, za, from) && Taken(n.last.value, LastView(v), pb, zb, za.upto)
    requires p == if pb.end == AtEnd then SettlePath(v.h, v.s, v.k, EndPath(pa, pb)) else Follow(pa.mark, pb)
    ensures Taken(n, v, p, z, from)
  {
    hide Eval, Run, Scripted, Achieves, SettlePath, Good, Then2, Kept2;
    if !zb.lost && pb.end == AtEnd {
      SettleEnd(v.h, v.s, v.k, EndPath(pa, pb));
      EndAchieves(n, v, pa, za, pb, zb, from);
      KeptParts(za, zb);
      z := Kept2(za, zb);
      return;
    }
    forall out: Outcome, way: Way
      ensures Achieves(Ending(n, out, way, v), v, pb, if zb.lost then Longer(zb) else zb, za.upto)
    {
      EndingEarly(n, out, way, v, pb, zb, za.upto);
    }
    var z2 := if zb.lost then Longer(zb) else zb;
    EndingNext(n, v, pa, za, pb, z2, from);
    z := Then2(za, z2, za.decide(za.value));
    ThenParts2(za, z2, za.decide(za.value));
    ThenValid(za, z2, za.decide(za.value), from);
    if zb.lost {
      LostAny(At(n, v), v, Follow(pa.mark, pb), z, from, v, p);
    }
  }

  /** Each answer is how much has happened. */
  function Counting(): Env {
    Scripted((i: nat) => false, (i: nat) => 0)
  }

  /** For each path there is a plan of answers up to some operation, from any amount of
      past on, with which it is taken; for one that loses an operand, what is done then
      differs from what is meant, if all later operations throw. */
  lemma {:induction false} Realize(n: Node, v: View, p: Path, from: nat) returns (z: Plan)
    requires Good(n, v.s, v.clear, v.h) && p in PathsOf(n, v)
    ensures Taken(n, v, p, z, from)
    decreases n, 4
  {
    hide Good, Taken, PathsOf;
    match n
    case Null => z := AtomTaken(n, v, p, from);
    case Do(_) => z := AtomTaken(n, v, p, from);
    case Continue => z := AtomTaken(n, v, p, from);
    case Apply(_, _, _) => z := ApplyTaken(n, v, p, from);
    case Then(_, _) => z := ThenTaken(n, v, p, from);
    case If(_, _, _) => z := IfTaken(n, v, p, from);
    case While(_, _) => z := WhileTaken(n, v, p, from);
    case Try(_, _, _) => z := TryTaken(n, v, p, from);
    case _ => z := PartTaken(n, v, p, from);
  }
}
