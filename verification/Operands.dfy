/** Operands that wait on the stack: whether the code for a jump may overwrite one
    before it is used is found by following all paths through a script. */
module Operands {
  import opened Options
  import opened Trying
  import opened TryCode
  import opened Stacked

  /** How a construct is left; `AtLoss` when a wrong value has been used in it. */
  datatype End = AtEnd | AtBreak | AtContinue | AtReturn | AtThrow | AtLoss

  /** What becomes of one slot of the stack: it is kept, set to null, set to the value
      that the construct leaves with, or set to something else. */
  datatype Mark = Kept | Cleared | Valued | Spoilt

  /** A path through a construct. `made` tells that the value, if there is one, comes
      from an operation; it is null otherwise. */
  datatype Path = Path(end: End, mark: Mark, made: bool)

  const LOSS := Path(AtLoss, Kept, false)

  /** The value is forgotten. */
  function Forget(m: Mark): Mark {
    if m.Valued? then Spoilt else m
  }

  /** A path after another that has left the mark `m`. */
  function Follow(m: Mark, p: Path): Path {
    if p.mark.Kept? then p.(mark := Forget(m)) else p
  }

  /** A value goes to `s`, seen at the slot `k`. */
  function Store(s: nat, k: nat, made: bool, m: Mark): Path {
    Path(AtEnd, if s != k then Forget(m) else if made then Valued else Cleared, made)
  }

  /** Without a value. */
  function Drop(p: Path): Path {
    Path(AtEnd, Forget(p.mark), false)
  }

  // ----- Sets of paths -----

  function Only(a: set<Path>, e: End): set<Path> {
    set p | p in a && p.end == e
  }

  function Leaving(a: set<Path>): set<Path> {
    set p | p in a && p.end != AtEnd
  }

  /** Those whose value may be true. */
  function Made(a: set<Path>): set<Path> {
    set p | p in a && p.end == AtEnd && p.made
  }

  /** One construct after another. */
  function Joins(a: set<Path>, b: set<Path>): set<Path> {
    set p, q | p in a && p.end == AtEnd && q in b :: Follow(p.mark, q)
  }

  /** With another end, and the value. */
  function Ends(a: set<Path>, e: End): set<Path> {
    set p | p in a && p.end == AtEnd :: p.(end := e)
  }

  function Raises(a: set<Path>): set<Path> {
    set p | p in a && p.end == AtEnd :: Path(AtThrow, Forget(p.mark), false)
  }

  function Drops(a: set<Path>): set<Path> {
    set p | p in a && p.end == AtEnd :: Drop(p)
  }

  /** A value is stored at the end. */
  function Stores(a: set<Path>, s: nat, k: nat, made: bool): set<Path> {
    set p | p in a && p.end == AtEnd :: Store(s, k, made, p.mark)
  }

  /** Without a value if none is wanted. */
  function Cleans(clear: bool, a: set<Path>): set<Path> {
    if clear then Leaving(a) + Drops(a) else a
  }

  function AfterMarks(ms: set<Mark>, a: set<Path>): set<Path> {
    set m, p | m in ms && p in a :: Follow(m, p)
  }

  function MarksIn(a: set<Path>): set<Mark> {
    set p | p in a :: Forget(p.mark)
  }

  predicate Loses(a: set<Path>) {
    exists p :: p in a && p.end == AtLoss
  }

  /** After the second operand, with paths `b`, the slot of the first may hold
      something else than its value, as it has been left by the paths `a`. */
  predicate Mixes(a: set<Path>, b: set<Path>) {
    exists p, q :: p in a && p.end == AtEnd && q in b && q.end == AtEnd && Overwrites(p, q)
  }

  predicate Overwrites(p: Path, q: Path) {
    q.mark.Spoilt? || q.mark.Valued? || (q.mark.Cleared? && p.made)
  }

  function LossIf(c: bool): set<Path> {
    if c then {LOSS} else {}
  }

  // ----- All paths -----

  /** The paths through a construct, seen at the slot `k`. */
  function Paths(n: Node, s: nat, clear: bool, h: Shape, k: nat): set<Path>
    decreases n
  {
    match n
    case Null => {if clear then Path(AtEnd, Kept, false) else Store(s, k, false, Kept)}
    case Do(_) => Cleans(clear, {Store(s, k, true, Kept)}) + {Path(AtThrow, Kept, false)}
    case Apply(_, a, b) =>
      var x, y := Paths(a, s, false, h, k), Paths(b, s + 1, false, h, k);
      var both := Joins(x, Only(y, AtEnd));
      Leaving(x) + Joins(x, Leaving(y)) + Cleans(clear, Stores(both, s, k, true)) + Raises(both)
      + LossIf(ApplyLoses(Paths(a, s, false, h, s), Paths(b, s + 1, false, h, s)))
    case Put(_, a) => Cleans(clear, Paths(a, s, false, h, k))
    case Then(a, b) =>
      var x := Paths(a, s, true, h, k);
      Leaving(x) + Joins(x, Paths(b, s, clear, h, k))
    case If(c, a, b) =>
      var x := Paths(c, s, false, h, k);
      Leaving(x) + Joins(Made(x), Paths(a, s, clear, h, k)) + Joins(x, Paths(b, s, clear, h, k))
    case While(c, body) =>
      var x, y := Paths(c, s, false, h, k), Paths(body, s, true, InLoop(h, s, clear), k);
      AfterMarks(Turns(x, y), Lasts(x, y, s, clear, k))
    case Break(e) =>
      var x := Paths(e, h.breakStack, h.clears, h, k);
      Leaving(x) + Ends(x, AtBreak)
    case Continue => {Path(AtContinue, Kept, false)}
    case Return(e) =>
      var x := Paths(e, h.returnStack, false, h, k);
      Leaving(x) + Ends(x, AtReturn)
    case Throw(e) =>
      var x := Paths(e, s, false, h, k);
      Leaving(x) + Raises(x)
    case Try(body, cs, last) =>
      var x := Paths(body, s, clear, Inner(h, s), k);
      var y := CaughtPaths(x, ClausePaths(cs, s, clear, Inner(h, s), k));
      if last.None? then Settled(h, s, k, y)
      else
        var z := Paths(last.value, s + 1, true, OUTSIDE, k);
        Settled(h, s, k, Finishes(y, z)) + Only(y, AtLoss) + Interrupts(y, z)
  }

  predicate ApplyLoses(a: set<Path>, b: set<Path>) {
    Loses(a) || Loses(Joins(a, b)) || Mixes(a, b)
  }

  /** What going round the loop does to the slot: once is as good as many times. */
  function Turns(x: set<Path>, y: set<Path>): set<Mark> {
    {Kept} + MarksIn(Joins(Made(x), Only(y, AtEnd) + Only(y, AtContinue)))
  }

  /** How the loop is left, from the condition on. */
  function Lasts(x: set<Path>, y: set<Path>, s: nat, clear: bool, k: nat): set<Path> {
    Leaving(x) + (if clear then Drops(x) else Stores(x, s, k, false))
    + Joins(Made(x), Only(y, AtReturn) + Only(y, AtThrow) + Only(y, AtLoss))
    + Cleans(clear, Passing(Joins(Made(x), Only(y, AtBreak))))
  }

  function Passing(a: set<Path>): set<Path> {
    set p | p in a :: p.(end := AtEnd)
  }

  /** The clauses after the body. */
  function CaughtPaths(x: set<Path>, c: set<Path>): set<Path> {
    (set p | p in x && p.end != AtThrow) + set p, q | p in x && p.end == AtThrow && q in c :: Follow(p.mark, q)
  }

  /** The `finally` keeps the value. */
  function Finishes(y: set<Path>, z: set<Path>): set<Path> {
    set p, q | p in y && p.end != AtLoss && q in z && q.end == AtEnd :: if q.mark.Kept? then p else p.(mark := Forget(q.mark))
  }

  function Interrupts(y: set<Path>, z: set<Path>): set<Path> {
    set p, q | p in y && p.end != AtLoss && q in z && q.end != AtEnd :: Follow(p.mark, q)
  }

  /** Values of jumps are moved to where they are wanted. */
  function Settled(h: Shape, s: nat, k: nat, y: set<Path>): set<Path> {
    set p | p in y :: SettlePath(h, s, k, p)
  }

  function SettlePath(h: Shape, s: nat, k: nat, p: Path): Path {
    if (p.end == AtBreak && MovesBreak(h, s) && h.breakStack == k) || (p.end == AtReturn && MovesReturn(h, s) && h.returnStack == k)
    then p.(mark := if p.made then Valued else Cleared)
    else p
  }

  function ClausePaths(cs: Catches, s: nat, clear: bool, h: Shape, k: nat): set<Path>
    decreases cs
  {
    match cs
    case NoCatch => {Path(AtThrow, Kept, false)}
    case Catch(kind, _, body, rest) =>
      var x := Paths(kind, s, false, h, k);
      Leaving(x) + Raises(x) + Joins(Made(x), Paths(body, s, clear, h, k)) + Joins(Made(x), ClausePaths(rest, s, clear, h, k))
  }

  // ----- What a path says -----

  function EndOf(out: Outcome): End {
    match out
    case Normal(_) => AtEnd
    case Broken(_) => AtBreak
    case Continued => AtContinue
    case Returned(_) => AtReturn
    case Thrown(_) => AtThrow
  }

  predicate HasValue(out: Outcome, clear: bool, h: Shape) {
    (out.Normal? && !clear) || (out.Broken? && !h.clears) || out.Returned?
  }

  function ValueOf(out: Outcome): int {
    match out
    case Normal(v) => v
    case Broken(v) => v
    case Returned(v) => v
    case _ => NULL
  }

  ghost predicate Changed(m: Mark, k: nat, t: Temps, t': Temps) {
    && (m.Kept? ==> Read(t', k) == Read(t, k))
    && (m.Cleared? ==> Read(t', k) == NULL)
  }

  /** The path tells what has happened to the slot, and of the value. */
  ghost predicate Fits(p: Path, out: Outcome, clear: bool, h: Shape, k: nat, t: Temps, t': Temps) {
    && p.end == EndOf(out) && Changed(p.mark, k, t, t')
    && (p.mark.Valued? ==> HasValue(out, clear, h) && Read(t', k) == ValueOf(out))
    && (HasValue(out, clear, h) && !p.made ==> ValueOf(out) == NULL)
  }

  /** What happens on the stack is what is meant, and values are where they are
      wanted. */
  ghost predicate Agreed(r: Result, q: Ran, s: nat, clear: bool, h: Shape) {
    match r
    case Forever => q.Endless?
    case Done(out, w) =>
      && q.Ran? && q.w == w
      && match out
         case Normal(v) => q.out.Normally? && (clear || Read(q.t, s) == v)
         case Broken(v) =>
           q.out.Breaking? && h.jumping && (h.clears || Read(q.t, h.breakStack) == v)
         case Continued => q.out.Continuing? && h.jumping
         case Returned(v) => q.out.Returning? && h.returning && Read(q.t, h.returnStack) == v
         case Thrown(x) => q.out == Throwing(x)
  }

  /** The path is one of the construct and fits. */
  ghost predicate Told(ps: set<Path>, p: Path, r: Result, q: Ran, s: nat, clear: bool, h: Shape, k: nat, t: Temps) {
    Agreed(r, q, s, clear, h) && (r.Done? ==> p in ps && Fits(p, r.out, clear, h, k, t, q.t))
  }

  predicate Passes(r: Result) {
    r.Done? && r.out.Normal?
  }

  // ----- Following paths -----

  lemma JoinsIn(a: set<Path>, b: set<Path>, p: Path, q: Path)
    requires p in a && p.end == AtEnd && q in b
    ensures Follow(p.mark, q) in Joins(a, b)
  {
  }

  lemma LeavesNone(a: set<Path>, b: set<Path>, p: Path)
    requires !Loses(Joins(a, b)) && p in a && p.end == AtEnd
    ensures !Loses(b)
  {
    if q :| q in b && q.end == AtLoss {
      JoinsIn(a, b, p, q);
    }
  }

  /** What has been told of one slot before still holds after. */
  lemma FollowFits(p: Path, out: Outcome, clear: bool, h: Shape, k: nat, m: Mark, t: Temps, t1: Temps, t': Temps)
    requires Changed(m, k, t, t1) && Fits(p, out, clear, h, k, t1, t')
    ensures Fits(Follow(m, p), out, clear, h, k, t, t')
  {
  }

  // ----- The constructs -----

  /** The outcome of an operation, in both. */
  function Answered(env: Env, w: World): Result {
    Done(Came(env.answer(w.history)), w)
  }

  lemma ApplyPaths(n: Node, s: nat, clear: bool, h: Shape, k: nat)
    requires n.Apply?
    ensures var x, y := Paths(n.a, s, false, h, k), Paths(n.b, s + 1, false, h, k);
      var both := Joins(x, Only(y, AtEnd));
      Paths(n, s, clear, h, k) ==
      Leaving(x) + Joins(x, Leaving(y)) + Cleans(clear, Stores(both, s, k, true)) + Raises(both)
      + LossIf(ApplyLoses(Paths(n.a, s, false, h, s), Paths(n.b, s + 1, false, h, s)))
  {
    hide Leaving, Joins, Cleans, Stores, Raises, LossIf, ApplyLoses, Only;
  }

  lemma ApplyEval(n: Node, env: Env, w: World)
    requires n.Apply?
    ensures var x := Eval(n.a, env, w);
      Eval(n, env, w) ==
      if !Passes(x) then x else
      var y := Eval(n.b, env, x.w);
      if !Passes(y) then y else Answered(env, Happens(y.w, n.op, [x.out.v, y.out.v]))
  {
  }

  lemma ApplyRun(n: Node, s: nat, clear: bool, h: Shape, env: Env, t: Temps, w: World)
    requires n.Apply?
    ensures var x := Run(n.a, s, false, h, env, t, w);
      Run(n, s, clear, h, env, t, w) ==
      if !Goes(x) then x else
      var y := Run(n.b, s + 1, false, h, env, x.t, x.w);
      if !Goes(y) then y else
      var w' := Happens(y.w, n.op, [Read(y.t, s), Read(y.t, s + 1)]);
      Gives(env.answer(w'.history), s, y.t, w')
  {
  }

  /** The first operand is still there. */
  lemma OperandKept(a: set<Path>, b: set<Path>, p: Path, q: Path, s: nat, v: int, u: int, h: Shape, t: Temps, t1: Temps, t2: Temps)
    requires !Mixes(a, b) && p in a && q in b && Fits(p, Normal(v), false, h, s, t, t1) && Fits(q, Normal(u), false, h, s, t1, t2)
    requires Read(t1, s) == v
    ensures Read(t2, s) == v
  {
    assert !Overwrites(p, q);
  }

  /** A value that goes to `s`. */
  lemma StoreFits(v: int, made: bool, s: nat, clear: bool, h: Shape, k: nat, m: Mark, t: Temps, t1: Temps)
    requires Changed(m, k, t, t1) && (made || v == NULL)
    ensures Fits(if clear then Drop(Store(s, k, made, m)) else Store(s, k, made, m), Normal(v), clear, h, k, t, t1[s := v])
  {
  }

  /** Values of returns go to the bottom. */
  predicate Ordered(h: Shape, s: nat) {
    h.returning ==> h.returnStack <= s && (h.jumping ==> h.returnStack <= h.breakStack)
  }

  /** A `break` that is not one of an inner loop. */
  predicate Breaks(n: Node)
    decreases n
  {
    match n
    case Apply(_, a, b) => Breaks(a) || Breaks(b)
    case Put(_, a) => Breaks(a)
    case Then(a, b) => Breaks(a) || Breaks(b)
    case If(c, a, b) => Breaks(c) || Breaks(a) || Breaks(b)
    case While(c, _) => Breaks(c)
    case Break(_) => true
    case Return(e) => Breaks(e)
    case Throw(e) => Breaks(e)
    case Try(body, cs, last) => Breaks(body) || BreaksClauses(cs) || (last.Some? && Breaks(last.value))
    case _ => false
  }

  predicate BreaksClauses(cs: Catches)
    decreases cs
  {
    match cs
    case NoCatch => false
    case Catch(kind, _, body, rest) => Breaks(kind) || Breaks(body) || BreaksClauses(rest)
  }

  /** No `break` takes a value out of a `try` that is in the operand of a return and
      so below where the loop wants it: there the value is not moved. */
  predicate Tight(n: Node, s: nat, clear: bool, h: Shape)
    decreases n
  {
    match n
    case Apply(_, a, b) => Tight(a, s, false, h) && Tight(b, s + 1, false, h)
    case Put(_, a) => Tight(a, s, false, h)
    case Then(a, b) => Tight(a, s, true, h) && Tight(b, s, clear, h)
    case If(c, a, b) => Tight(c, s, false, h) && Tight(a, s, clear, h) && Tight(b, s, clear, h)
    case While(c, body) => Tight(c, s, false, h) && Tight(body, s, true, InLoop(h, s, clear))
    case Break(e) => Tight(e, h.breakStack, h.clears, h)
    case Return(e) => Tight(e, h.returnStack, false, h)
    case Throw(e) => Tight(e, s, false, h)
    case Try(body, cs, last) =>
      && Tight(body, s, clear, Inner(h, s)) && TightClauses(cs, s, clear, Inner(h, s))
      && (last.Some? ==> Tight(last.value, s + 1, true, OUTSIDE))
      && (h.jumping && !h.clears && s < h.breakStack ==> !Breaks(body) && !BreaksClauses(cs))
    case _ => true
  }

  predicate TightClauses(cs: Catches, s: nat, clear: bool, h: Shape)
    decreases cs
  {
    match cs
    case NoCatch => true
    case Catch(kind, _, body, rest) => Tight(kind, s, false, h) && Tight(body, s, clear, h) && TightClauses(rest, s, clear, h)
  }

  lemma {:induction false} NoBreak(n: Node, env: Env, w: World)
    requires !Breaks(n)
    ensures var r := Eval(n, env, w); r.Done? ==> !r.out.Broken?
    decreases w.fuel, n, 1
  {
    match n
    case Apply(_, a, b) =>
      NoBreak(a, env, w);
      var x := Eval(a, env, w);
      if Passes(x) {
        NoBreak(b, env, x.w);
      }
    case Put(_, a) => NoBreak(a, env, w);
    case Then(a, b) =>
      NoBreak(a, env, w);
      var x := Eval(a, env, w);
      if Passes(x) {
        NoBreak(b, env, x.w);
      }
    case If(c, a, b) =>
      NoBreak(c, env, w);
      var x := Eval(c, env, w);
      if Passes(x) {
        NoBreak(a, env, x.w);
        NoBreak(b, env, x.w);
      }
    case While(c, body) =>
      hide Eval;
      WhileEval(n, env, w);
      NoBreak(c, env, w);
      var x := Eval(c, env, w);
      if Passes(x) {
        var y := Eval(body, env, x.w);
        if y.Done? && y.w.fuel > 0 {
          NoBreak(n, env, y.w.(fuel := y.w.fuel - 1));
        }
      }
    case Return(e) => NoBreak(e, env, w);
    case Throw(e) => NoBreak(e, env, w);
    case Try(body, cs, last) =>
      NoBreak(body, env, w);
      var x := Eval(body, env, w);
      if x.Done? {
        var y := x;
        if x.out.Thrown? {
          NoBreakClauses(cs, env, x.out.x, x.w);
          y := Handle(cs, env, x.out.x, x.w);
        }
        if y.Done? && last.Some? {
          NoBreak(last.value, env, y.w);
        }
      }
    case _ =>
  }

  lemma NoBreakClauses(cs: Catches, env: Env, x: int, w: World)
    requires !BreaksClauses(cs)
    ensures var r := Handle(cs, env, x, w); r.Done? ==> !r.out.Broken?
    decreases w.fuel, cs, 2
  {
    if cs.Catch? {
      NoBreak(cs.kind, env, w);
      var k := Eval(cs.kind, env, w);
      if Passes(k) {
        NoBreak(cs.body, env, Assign(k.w, cs.i, x));
        NoBreakClauses(cs.rest, env, x, k.w);
      }
    }
  }

  /** All that the analysis of a construct relies on. */
  ghost predicate Sane(n: Node, s: nat, clear: bool, h: Shape, k: nat) {
    && Legal(n, h.jumping, h.returning) && Tight(n, s, clear, h) && Ordered(h, s) && !Loses(Paths(n, s, clear, h, k))
  }

  lemma ApplySane(n: Node, s: nat, clear: bool, h: Shape, k: nat)
    requires n.Apply? && Sane(n, s, clear, h, k)
    ensures Sane(n.a, s, false, h, k) && Sane(n.a, s, false, h, s)
    ensures !Mixes(Paths(n.a, s, false, h, s), Paths(n.b, s + 1, false, h, s))
    ensures !Loses(Joins(Paths(n.a, s, false, h, k), Leaving(Paths(n.b, s + 1, false, h, k))))
    ensures !Loses(Joins(Paths(n.a, s, false, h, s), Paths(n.b, s + 1, false, h, s)))
  {
    ApplyPaths(n, s, clear, h, k);
    hide Paths, Stores, Raises, Cleans, Mixes;
    var ps := Paths(n, s, clear, h, k);
    var x, y := Paths(n.a, s, false, h, k), Paths(n.b, s + 1, false, h, k);
    assert LOSS !in ps;
    LeavingLoses(x, ps);
    SubLoses(Joins(x, Leaving(y)), ps);
    hide Joins, Leaving;
  }

  lemma SubLoses(a: set<Path>, b: set<Path>)
    requires a <= b && !Loses(b)
    ensures !Loses(a)
  {
  }

  lemma LeavingLoses(a: set<Path>, b: set<Path>)
    requires Leaving(a) <= b && !Loses(b)
    ensures !Loses(a)
  {
    assert forall p :: p in a && p.end == AtLoss ==> p in Leaving(a);
  }

  /** A path that leaves a construct before its value is used. */
  lemma LeavingTold(p: Path, r: Result, q: Ran, s: nat, clear: bool, h: Shape, k: nat, t: Temps, clear': bool, s': nat)
    requires Agreed(r, q, s, clear, h) && !Passes(r) && (r.Done? ==> Fits(p, r.out, clear, h, k, t, q.t))
    ensures Agreed(r, q, s', clear', h) && (r.Done? ==> Fits(p, r.out, clear', h, k, t, q.t) && p.end != AtEnd)
  {
  }

  lemma ApplySound(n: Node, s: nat, clear: bool, h: Shape, k: nat, env: Env, t: Temps, w: World) returns (p: Path)
    requires n.Apply? && Sane(n, s, clear, h, k)
    ensures Told(Paths(n, s, clear, h, k), p, Eval(n, env, w), Run(n, s, clear, h, env, t, w), s, clear, h, k, t)
    decreases w.fuel, n, 0
  {
    hide Eval, Run, Paths, Sane, Fits, Joins, Leaving, Stores, Raises, Cleans, Follow, Mixes;
    ApplyPaths(n, s, clear, h, k);
    ApplyEval(n, env, w);
    ApplyRun(n, s, clear, h, env, t, w);
    ApplySane(n, s, clear, h, k);
    var a, b := Paths(n.a, s, false, h, k), Paths(n.b, s + 1, false, h, k);
    var x, x' := Eval(n.a, env, w), Run(n.a, s, false, h, env, t, w);
    p := Sound(n.a, s, false, h, k, env, t, w);
    if !Passes(x) {
      LeavingTold(p, x, x', s, false, h, k, t, clear, s);
      LeavingIn(a, p);
      return;
    }
    var pa := p;
    var as' := Sound(n.a, s, false, h, s, env, t, w);
    FitsPassing(pa, x.out, false, h, k, t, x'.t);
    FitsPassing(as', x.out, false, h, s, t, x'.t);
    ApplySecond(n, s, clear, h, k, pa, as');
    var y, y' := Eval(n.b, env, x.w), Run(n.b, s + 1, false, h, env, x'.t, x.w);
    p := Sound(n.b, s + 1, false, h, k, env, x'.t, x.w);
    if !Passes(y) {
      LeavingTold(p, y, y', s + 1, false, h, k, x'.t, clear, s);
      if y.Done? {
        LeavingIn(b, p);
        JoinsIn(a, Leaving(b), pa, p);
        FollowFits(p, y.out, clear, h, k, pa.mark, t, x'.t, y'.t);
        p := Follow(pa.mark, p);
      }
      return;
    }
    var bs := Sound(n.b, s + 1, false, h, s, env, x'.t, x.w);
    OperandKept(Paths(n.a, s, false, h, s), Paths(n.b, s + 1, false, h, s), as', bs, s, x.out.v, y.out.v, h, t, x'.t, y'.t);
    FitsPassing(p, y.out, false, h, k, x'.t, y'.t);
    JoinsIn(a, Only(b, AtEnd), pa, p);
    ChangedThen(pa, p, k, t, x'.t, y'.t);
    p := AnswerSound(Follow(pa.mark, p), Joins(a, Only(b, AtEnd)), n.op, s, clear, h, k, env, t, y'.t, y.w, [x.out.v, y.out.v]);
  }

  lemma FitsPassing(p: Path, out: Outcome, clear: bool, h: Shape, k: nat, t: Temps, t': Temps)
    requires Fits(p, out, clear, h, k, t, t')
    ensures p.end == EndOf(out) && Changed(p.mark, k, t, t') && (out.Normal? && !clear && !p.made ==> out.v == NULL)
  {
  }

  lemma ChangedThen(p: Path, q: Path, k: nat, t: Temps, t1: Temps, t2: Temps)
    requires Changed(p.mark, k, t, t1) && Changed(q.mark, k, t1, t2)
    ensures Changed(Follow(p.mark, q).mark, k, t, t2) && Follow(p.mark, q).end == q.end
  {
  }

  /** The paths after the first operand. */
  lemma ApplySecond(n: Node, s: nat, clear: bool, h: Shape, k: nat, p: Path, q: Path)
    requires n.Apply? && Sane(n, s, clear, h, k)
    requires p in Paths(n.a, s, false, h, k) && p.end == AtEnd && q in Paths(n.a, s, false, h, s) && q.end == AtEnd
    ensures Sane(n.b, s + 1, false, h, k) && Sane(n.b, s + 1, false, h, s)
  {
    ApplySane(n, s, clear, h, k);
    hide Paths;
    LeavesNone(Paths(n.a, s, false, h, k), Leaving(Paths(n.b, s + 1, false, h, k)), p);
    LeavingLoses(Paths(n.b, s + 1, false, h, k), Leaving(Paths(n.b, s + 1, false, h, k)));
    LeavesNone(Paths(n.a, s, false, h, s), Paths(n.b, s + 1, false, h, s), q);
  }

  /** The outcome of an operation after the paths `both`. */
  lemma AnswerSound(m: Path, both: set<Path>, op: nat, s: nat, clear: bool, h: Shape, k: nat, env: Env, t: Temps, t1: Temps, w: World,
                    operands: seq<int>) returns (p: Path)
    requires m in both && m.end == AtEnd && Changed(m.mark, k, t, t1)
    ensures var w' := Happens(w, op, operands);
      Told(Cleans(clear, Stores(both, s, k, true)) + Raises(both), p, Answered(env, w'), Gives(env.answer(w'.history), s, t1, w'), s,
           clear, h, k, t)
  {
    match env.answer(Happens(w, op, operands).history)
    case Value(v) =>
      var q := Store(s, k, true, m.mark);
      assert q in Stores(both, s, k, true);
      StoreFits(v, true, s, clear, h, k, m.mark, t, t1);
      p := if clear then Drop(q) else q;
    case Throws(_) => p := Path(AtThrow, Forget(m.mark), false);
  }

  lemma LeavingIn(a: set<Path>, p: Path)
    ensures p in a && p.end != AtEnd ==> p in Leaving(a)
  {
  }

  lemma ThenMeans(n: Node, s: nat, clear: bool, h: Shape, k: nat, env: Env, t: Temps, w: World)
    requires n.Then?
    ensures var x := Paths(n.a, s, true, h, k);
      Paths(n, s, clear, h, k) == Leaving(x) + Joins(x, Paths(n.b, s, clear, h, k))
    ensures var x := Eval(n.a, env, w); Eval(n, env, w) == if !Passes(x) then x else Eval(n.b, env, x.w)
    ensures var x := Run(n.a, s, true, h, env, t, w);
      Run(n, s, clear, h, env, t, w) == if !Goes(x) then x else Run(n.b, s, clear, h, env, x.t, x.w)
  {
    hide Leaving, Joins;
  }

  /** A part and the paths after it. */
  lemma PartSane(a: set<Path>, b: set<Path>, ps: set<Path>, p: Path)
    requires !Loses(ps) && Joins(a, b) <= ps && p in a && p.end == AtEnd
    ensures !Loses(b)
  {
    SubLoses(Joins(a, b), ps);
    LeavesNone(a, b, p);
  }

  /** The outcome of the second part is that of the whole. */
  lemma SecondTold(a: set<Path>, b: set<Path>, ps: set<Path>, p: Path, q: Path, r: Result, x: Ran, s: nat, clear: bool, h: Shape,
                   k: nat, t: Temps, t1: Temps) returns (p': Path)
    requires Joins(a, b) <= ps && p in a && p.end == AtEnd && Changed(p.mark, k, t, t1) && Told(b, q, r, x, s, clear, h, k, t1)
    ensures Told(ps, p', r, x, s, clear, h, k, t)
  {
    p' := Follow(p.mark, q);
    if r.Done? {
      JoinsIn(a, b, p, q);
      FollowFits(q, r.out, clear, h, k, p.mark, t, t1, x.t);
    }
  }

  /** A part is left and so is the whole. */
  lemma FirstTold(a: set<Path>, ps: set<Path>, p: Path, r: Result, x: Ran, s: nat, clear: bool, h: Shape, k: nat, t: Temps,
                  s': nat, clear': bool)
    requires Told(a, p, r, x, s, clear, h, k, t) && !Passes(r) && Leaving(a) <= ps
    ensures Told(ps, p, r, x, s', clear', h, k, t)
  {
    LeavingIn(a, p);
  }

  lemma ThenSound(n: Node, s: nat, clear: bool, h: Shape, k: nat, env: Env, t: Temps, w: World) returns (p: Path)
    requires n.Then? && Sane(n, s, clear, h, k)
    ensures Told(Paths(n, s, clear, h, k), p, Eval(n, env, w), Run(n, s, clear, h, env, t, w), s, clear, h, k, t)
    decreases w.fuel, n, 0
  {
    hide Eval, Run, Paths, Fits, Joins, Leaving, Follow;
    ThenMeans(n, s, clear, h, k, env, t, w);
    var ps, a, b := Paths(n, s, clear, h, k), Paths(n.a, s, true, h, k), Paths(n.b, s, clear, h, k);
    LeavingLoses(a, ps);
    var x, x' := Eval(n.a, env, w), Run(n.a, s, true, h, env, t, w);
    p := Sound(n.a, s, true, h, k, env, t, w);
    if !Passes(x) {
      FirstTold(a, ps, p, x, x', s, true, h, k, t, s, clear);
    } else {
      FitsPassing(p, x.out, true, h, k, t, x'.t);
      PartSane(a, b, ps, p);
      var q := Sound(n.b, s, clear, h, k, env, x'.t, x.w);
      p := SecondTold(a, b, ps, p, q, Eval(n.b, env, x.w), Run(n.b, s, clear, h, env, x'.t, x.w), s, clear, h, k, t, x'.t);
    }
  }

  lemma IfMeans(n: Node, s: nat, clear: bool, h: Shape, k: nat, env: Env, t: Temps, w: World)
    requires n.If?
    ensures var x := Paths(n.c, s, false, h, k);
      Paths(n, s, clear, h, k) == Leaving(x) + Joins(Made(x), Paths(n.t, s, clear, h, k)) + Joins(x, Paths(n.f, s, clear, h, k))
    ensures var x := Eval(n.c, env, w);
      Eval(n, env, w) ==
      if !Passes(x) then x else if IsTrue(env, x.out.v) then Eval(n.t, env, x.w) else Eval(n.f, env, x.w)
    ensures var x := Run(n.c, s, false, h, env, t, w);
      Run(n, s, clear, h, env, t, w) ==
      if !Goes(x) then x
      else if IsTrue(env, Read(x.t, s)) then Run(n.t, s, clear, h, env, x.t, x.w)
      else Run(n.f, s, clear, h, env, x.t, x.w)
  {
    hide Leaving, Joins, Made;
  }

  lemma IfSound(n: Node, s: nat, clear: bool, h: Shape, k: nat, env: Env, t: Temps, w: World) returns (p: Path)
    requires n.If? && Sane(n, s, clear, h, k)
    ensures Told(Paths(n, s, clear, h, k), p, Eval(n, env, w), Run(n, s, clear, h, env, t, w), s, clear, h, k, t)
    decreases w.fuel, n, 0
  {
    hide Eval, Run, Paths, Fits, Joins, Leaving, Follow;
    IfMeans(n, s, clear, h, k, env, t, w);
    var ps, a := Paths(n, s, clear, h, k), Paths(n.c, s, false, h, k);
    LeavingLoses(a, ps);
    var x, x' := Eval(n.c, env, w), Run(n.c, s, false, h, env, t, w);
    p := Sound(n.c, s, false, h, k, env, t, w);
    if !Passes(x) {
      FirstTold(a, ps, p, x, x', s, false, h, k, t, s, clear);
      return;
    }
    FitsPassing(p, x.out, false, h, k, t, x'.t);
    if IsTrue(env, x.out.v) {
      var b := Paths(n.t, s, clear, h, k);
      PartSane(Made(a), b, ps, p);
      var q := Sound(n.t, s, clear, h, k, env, x'.t, x.w);
      p := SecondTold(Made(a), b, ps, p, q, Eval(n.t, env, x.w), Run(n.t, s, clear, h, env, x'.t, x.w), s, clear, h, k, t, x'.t);
    } else {
      var b := Paths(n.f, s, clear, h, k);
      PartSane(a, b, ps, p);
      var q := Sound(n.f, s, clear, h, k, env, x'.t, x.w);
      p := SecondTold(a, b, ps, p, q, Eval(n.f, env, x.w), Run(n.f, s, clear, h, env, x'.t, x.w), s, clear, h, k, t, x'.t);
    }
  }

  /** The part of a construct that has one, with its stack. */
  datatype Part = Part(e: Node, s: nat, clear: bool)

  function PartOf(n: Node, s: nat, h: Shape): Part
    requires n.Put? || n.Break? || n.Return? || n.Throw?
  {
    match n
    case Put(_, a) => Part(a, s, false)
    case Break(e) => Part(e, h.breakStack, h.clears)
    case Return(e) => Part(e, h.returnStack, false)
    case Throw(e) => Part(e, s, false)
  }

  /** What is made of the part. */
  function PartPaths(n: Node, clear: bool, x: set<Path>): set<Path>
    requires n.Put? || n.Break? || n.Return? || n.Throw?
  {
    match n
    case Put(_, _) => Cleans(clear, x)
    case Break(_) => Leaving(x) + Ends(x, AtBreak)
    case Return(_) => Leaving(x) + Ends(x, AtReturn)
    case Throw(_) => Leaving(x) + Raises(x)
  }

  function PartEval(n: Node, x: Result): Result
    requires n.Put? || n.Break? || n.Return? || n.Throw?
  {
    if !Passes(x) then x else
    match n
    case Put(i, _) => x.(w := Assign(x.w, i, x.out.v))
    case Break(_) => x.(out := Broken(x.out.v))
    case Return(_) => x.(out := Returned(x.out.v))
    case Throw(_) => x.(out := Thrown(x.out.v))
  }

  function PartRun(n: Node, s: nat, x: Ran): Ran
    requires n.Put? || n.Break? || n.Return? || n.Throw?
  {
    if !Goes(x) then x else
    match n
    case Put(i, _) => x.(w := Assign(x.w, i, Read(x.t, s)))
    case Break(_) => x.(out := Breaking)
    case Return(_) => x.(out := Returning)
    case Throw(_) => x.(out := Throwing(Read(x.t, s)))
  }

  lemma PartMeans(n: Node, s: nat, clear: bool, h: Shape, k: nat, env: Env, t: Temps, w: World)
    requires n.Put? || n.Break? || n.Return? || n.Throw?
    ensures var u := PartOf(n, s, h); Paths(n, s, clear, h, k) == PartPaths(n, clear, Paths(u.e, u.s, u.clear, h, k))
    ensures var u := PartOf(n, s, h); Eval(n, env, w) == PartEval(n, Eval(u.e, env, w))
    ensures var u := PartOf(n, s, h); Run(n, s, clear, h, env, t, w) == PartRun(n, s, Run(u.e, u.s, u.clear, h, env, t, w))
  {
    hide Leaving, Ends, Raises, Cleans;
  }

  lemma PartSound(n: Node, s: nat, clear: bool, h: Shape, k: nat, env: Env, t: Temps, w: World) returns (p: Path)
    requires (n.Put? || n.Break? || n.Return? || n.Throw?) && Sane(n, s, clear, h, k)
    ensures Told(Paths(n, s, clear, h, k), p, Eval(n, env, w), Run(n, s, clear, h, env, t, w), s, clear, h, k, t)
    decreases w.fuel, n, 0
  {
    hide Eval, Run, Paths;
    PartMeans(n, s, clear, h, k, env, t, w);
    var u := PartOf(n, s, h);
    var a := Paths(u.e, u.s, u.clear, h, k);
    var ps := PartPaths(n, clear, a);
    assert Leaving(a) <= ps;
    LeavingLoses(a, ps);
    var x, x' := Eval(u.e, env, w), Run(u.e, u.s, u.clear, h, env, t, w);
    p := Sound(u.e, u.s, u.clear, h, k, env, t, w);
    if !Passes(x) {
      FirstTold(a, ps, p, x, x', u.s, u.clear, h, k, t, s, clear);
    } else {
      p := PartTold(n, a, p, x, x', s, clear, h, k, t);
    }
  }

  lemma PartTold(n: Node, a: set<Path>, p: Path, x: Result, x': Ran, s: nat, clear: bool, h: Shape, k: nat, t: Temps) returns (p': Path)
    requires (n.Put? || n.Break? || n.Return? || n.Throw?) && Legal(n, h.jumping, h.returning) && Passes(x)
    requires var u := PartOf(n, s, h); Told(a, p, x, x', u.s, u.clear, h, k, t)
    ensures Told(PartPaths(n, clear, a), p', PartEval(n, x), PartRun(n, s, x'), s, clear, h, k, t)
  {
    match n
    case Put(_, _) => p' := if clear then Drop(p) else p;
    case Break(_) =>
      p' := p.(end := AtBreak);
      assert p' in Ends(a, AtBreak);
    case Return(_) =>
      p' := p.(end := AtReturn);
      assert p' in Ends(a, AtReturn);
    case Throw(_) =>
      p' := Path(AtThrow, Forget(p.mark), false);
      assert p' in Raises(a);
  }

  lemma AtomSound(n: Node, s: nat, clear: bool, h: Shape, k: nat, env: Env, t: Temps, w: World) returns (p: Path)
    requires (n.Null? || n.Do? || n.Continue?) && Sane(n, s, clear, h, k)
    ensures Told(Paths(n, s, clear, h, k), p, Eval(n, env, w), Run(n, s, clear, h, env, t, w), s, clear, h, k, t)
  {
    match n
    case Null => p := if clear then Path(AtEnd, Kept, false) else Store(s, k, false, Kept);
    case Do(op) =>
      match env.answer(Happens(w, op, []).history) {
        case Value(_) =>
          var q := Store(s, k, true, Kept);
          p := if clear then Drop(q) else q;
          assert q in {q};
        case Throws(_) => p := Path(AtThrow, Kept, false);
      }
    case Continue => p := Path(AtContinue, Kept, false);
  }

  // ----- Loops -----

  /** The body of a loop, and what comes after it. */
  function RoundEval(n: Node, env: Env, w: World): Result
    requires n.While?
  {
    var y := Eval(n.body, env, w);
    if !y.Done? then y else
    if y.out.Broken? then Done(Normal(y.out.v), y.w) else
    if !y.out.Normal? && !y.out.Continued? then y else AgainEval(n, env, y.w)
  }

  function AgainEval(n: Node, env: Env, w: World): Result {
    if w.fuel == 0 then Forever else Eval(n, env, w.(fuel := w.fuel - 1))
  }

  function RoundRun(n: Node, s: nat, clear: bool, h: Shape, env: Env, t: Temps, w: World): Ran
    requires n.While?
  {
    var y := Run(n.body, s, true, InLoop(h, s, clear), env, t, w);
    if !y.Ran? then y
    else if y.out.Breaking? then y.(out := Normally)
    else if !y.out.Normally? && !y.out.Continuing? then y
    else AgainRun(n, s, clear, h, env, y.t, y.w)
  }

  function AgainRun(n: Node, s: nat, clear: bool, h: Shape, env: Env, t: Temps, w: World): Ran {
    if w.fuel == 0 then Endless else Run(n, s, clear, h, env, t, w.(fuel := w.fuel - 1))
  }

  lemma WhileEval(n: Node, env: Env, w: World)
    requires n.While?
    ensures var x := Eval(n.c, env, w);
      Eval(n, env, w) ==
      if !Passes(x) then x else if IsTrue(env, x.out.v) then RoundEval(n, env, x.w) else Done(Normal(NULL), x.w)
  {
  }

  lemma WhileRun(n: Node, s: nat, clear: bool, h: Shape, env: Env, t: Temps, w: World)
    requires n.While?
    ensures var x := Run(n.c, s, false, h, env, t, w);
      Run(n, s, clear, h, env, t, w) ==
      if !Goes(x) then x
      else if IsTrue(env, Read(x.t, s)) then RoundRun(n, s, clear, h, env, x.t, x.w)
      else Ran(Normally, Nulls(clear, s, x.t), x.w)
  {
  }

  lemma WhilePaths(n: Node, s: nat, clear: bool, h: Shape, k: nat)
    requires n.While?
    ensures var x, y := Paths(n.c, s, false, h, k), Paths(n.body, s, true, InLoop(h, s, clear), k);
      Paths(n, s, clear, h, k) ==
      AfterMarks(Turns(x, y), Lasts(x, y, s, clear, k))
  {
    hide AfterMarks, Turns, Lasts, InLoop;
  }

  lemma AtOnce(ms: set<Mark>, a: set<Path>)
    requires Kept in ms
    ensures a <= AfterMarks(ms, a)
  {
    forall p | p in a
      ensures p in AfterMarks(ms, a)
    {
      assert Follow(Kept, p) == p;
    }
  }

  /** The paths of a loop do not lose. */
  ghost predicate SaneLoop(n: Node, s: nat, clear: bool, h: Shape, k: nat)
    requires n.While?
  {
    && Sane(n, s, clear, h, k)
    && Lasts(Paths(n.c, s, false, h, k), Paths(n.body, s, true, InLoop(h, s, clear), k), s, clear, k) <= Paths(n, s, clear, h, k)
    && Sane(n.c, s, false, h, k)
  }

  lemma WhileSane(n: Node, s: nat, clear: bool, h: Shape, k: nat)
    requires n.While? && Sane(n, s, clear, h, k)
    ensures SaneLoop(n, s, clear, h, k)
  {
    WhilePaths(n, s, clear, h, k);
    hide Paths, Turns, InLoop;
    var ps, x, y := Paths(n, s, clear, h, k), Paths(n.c, s, false, h, k), Paths(n.body, s, true, InLoop(h, s, clear), k);
    assert Kept in Turns(x, y) by {
      KeptTurns(x, y);
    }
    AtOnce(Turns(x, y), Lasts(x, y, s, clear, k));
    LeavingLoses(x, ps);
  }

  lemma KeptTurns(x: set<Path>, y: set<Path>)
    ensures Kept in Turns(x, y)
  {
  }

  /** The body does not lose, the condition having been true. */
  lemma BodySane(n: Node, s: nat, clear: bool, h: Shape, k: nat, p: Path)
    requires n.While? && SaneLoop(n, s, clear, h, k) && p in Made(Paths(n.c, s, false, h, k))
    ensures Sane(n.body, s, true, InLoop(h, s, clear), k)
  {
    hide Paths;
    var x, y := Paths(n.c, s, false, h, k), Paths(n.body, s, true, InLoop(h, s, clear), k);
    PartSane(Made(x), Only(y, AtReturn) + Only(y, AtThrow) + Only(y, AtLoss), Paths(n, s, clear, h, k), p);
    assert Only(y, AtLoss) <= Only(y, AtReturn) + Only(y, AtThrow) + Only(y, AtLoss);
    assert forall l :: l in y && l.end == AtLoss ==> l in Only(y, AtLoss);
  }

  /** The condition is false. */
  lemma ExitTold(x: set<Path>, y: set<Path>, p: Path, v: int, w: World, s: nat, clear: bool, h: Shape, k: nat, t: Temps, t1: Temps)
      returns (p': Path)
    requires p in x && p.end == AtEnd && Changed(p.mark, k, t, t1)
    ensures Told(Lasts(x, y, s, clear, k), p', Done(Normal(NULL), w), Ran(Normally, Nulls(clear, s, t1), w), s, clear, h, k, t)
  {
    hide Joins, Made, Cleans, Passing;
    if clear {
      p' := Drop(p);
      assert p' in Drops(x);
    } else {
      p' := Store(s, k, false, p.mark);
      assert p' in Stores(x, s, k, false);
    }
  }

  /** The loop is left by a jump. */
  lemma BreakTold(x: set<Path>, y: set<Path>, p: Path, q: Path, u: int, w: World, s: nat, clear: bool, h: Shape, k: nat, t: Temps,
                  t1: Temps, t2: Temps) returns (p': Path)
    requires p in Made(x) && q in y && Changed(p.mark, k, t, t1) && Fits(q, Broken(u), true, InLoop(h, s, clear), k, t1, t2)
    requires clear || Read(t2, s) == u
    ensures Told(Lasts(x, y, s, clear, k), p', Done(Normal(u), w), Ran(Normally, t2, w), s, clear, h, k, t)
  {
    var r := Follow(p.mark, q);
    JoinsIn(Made(x), Only(y, AtBreak), p, q);
    assert r.(end := AtEnd) in Passing(Joins(Made(x), Only(y, AtBreak)));
    p' := if clear then Drop(r.(end := AtEnd)) else r.(end := AtEnd);
    ChangedThen(p, q, k, t, t1, t2);
    hide Joins, Made, Passing;
  }

  /** A return or an exception goes on out of the loop. */
  lemma LeaveTold(x: set<Path>, y: set<Path>, p: Path, q: Path, r: Result, r': Ran, s: nat, clear: bool, h: Shape, k: nat,
                  t: Temps, t1: Temps) returns (p': Path)
    requires p in Made(x) && Changed(p.mark, k, t, t1) && Told(y, q, r, r', s, true, InLoop(h, s, clear), k, t1)
    requires r.Done? && (r.out.Returned? || r.out.Thrown?)
    ensures Told(Lasts(x, y, s, clear, k), p', r, r', s, clear, h, k, t)
  {
    p' := Follow(p.mark, q);
    JoinsIn(Made(x), Only(y, AtReturn) + Only(y, AtThrow) + Only(y, AtLoss), p, q);
    FollowFits(q, r.out, clear, h, k, p.mark, t, t1, r'.t);
    hide Joins, Made, Cleans, Passing;
  }

  /** Going round once more or not at all is no other path. */
  lemma TurnTold(n: Node, m: Mark, p: Path, r: Result, r': Ran, s: nat, clear: bool, h: Shape, k: nat, t: Temps, t1: Temps)
      returns (p': Path)
    requires n.While? && SaneLoop(n, s, clear, h, k) && m in Turns(Paths(n.c, s, false, h, k), Paths(n.body, s, true, InLoop(h, s, clear), k))
    requires Changed(m, k, t, t1) && !m.Valued? && Told(Paths(n, s, clear, h, k), p, r, r', s, clear, h, k, t1)
    ensures Told(Paths(n, s, clear, h, k), p', r, r', s, clear, h, k, t)
  {
    hide Paths, Turns, Lasts, InLoop;
    p' := p;
    if r.Done? {
      WhilePaths(n, s, clear, h, k);
      var x, y := Paths(n.c, s, false, h, k), Paths(n.body, s, true, InLoop(h, s, clear), k);
      var m1, f :| m1 in Turns(x, y) && f in Lasts(x, y, s, clear, k) && p == Follow(m1, f);
      var m2 := if m1.Kept? then m else m1;
      p' := Follow(m, p);
      FollowTwice(m, m1, f);
      FollowFits(p, r.out, clear, h, k, m, t, t1, r'.t);
      assert Follow(m2, f) in AfterMarks(Turns(x, y), Lasts(x, y, s, clear, k));
    }
  }

  lemma FollowTwice(m: Mark, m1: Mark, f: Path)
    ensures Follow(m, Follow(m1, f)) == Follow(if m1.Kept? then m else m1, f)
  {
  }

  lemma TurnMark(x: set<Path>, y: set<Path>, p: Path, q: Path)
    requires p in Made(x) && q in y && (q.end == AtEnd || q.end == AtContinue)
    ensures Forget(Follow(p.mark, q).mark) in Turns(x, y)
  {
    JoinsIn(Made(x), Only(y, AtEnd) + Only(y, AtContinue), p, q);
  }

  lemma WhileSound(n: Node, s: nat, clear: bool, h: Shape, k: nat, env: Env, t: Temps, w: World) returns (p: Path)
    requires n.While? && Sane(n, s, clear, h, k)
    ensures Told(Paths(n, s, clear, h, k), p, Eval(n, env, w), Run(n, s, clear, h, env, t, w), s, clear, h, k, t)
    decreases w.fuel, n, 1
  {
    hide Eval, Run, Paths, Fits, Lasts, Turns, InLoop, RoundEval, RoundRun, Sane;
    WhileSane(n, s, clear, h, k);
    WhileEval(n, env, w);
    WhileRun(n, s, clear, h, env, t, w);
    var ps, a := Paths(n, s, clear, h, k), Paths(n.c, s, false, h, k);
    var y := Paths(n.body, s, true, InLoop(h, s, clear), k);
    var x, x' := Eval(n.c, env, w), Run(n.c, s, false, h, env, t, w);
    p := Sound(n.c, s, false, h, k, env, t, w);
    LeavingLasts(a, y, s, clear, k);
    if !Passes(x) {
      FirstTold(a, ps, p, x, x', s, false, h, k, t, s, clear);
      return;
    }
    FitsPassing(p, x.out, false, h, k, t, x'.t);
    if IsTrue(env, x.out.v) {
      p := BodySound(n, s, clear, h, k, env, t, x'.t, x.w, p);
    } else {
      p := ExitTold(a, y, p, x.out.v, x.w, s, clear, h, k, t, x'.t);
    }
  }

  lemma LeavingLasts(x: set<Path>, y: set<Path>, s: nat, clear: bool, k: nat)
    ensures Leaving(x) <= Lasts(x, y, s, clear, k)
  {
  }

  /** From the body of the loop on. */
  lemma BodySound(n: Node, s: nat, clear: bool, h: Shape, k: nat, env: Env, t: Temps, t1: Temps, w: World, p0: Path)
      returns (p: Path)
    requires n.While? && SaneLoop(n, s, clear, h, k) && Changed(p0.mark, k, t, t1) && p0 in Made(Paths(n.c, s, false, h, k))
    ensures Told(Paths(n, s, clear, h, k), p, RoundEval(n, env, w), RoundRun(n, s, clear, h, env, t1, w), s, clear, h, k, t)
    decreases w.fuel, n, 0, 1
  {
    hide Eval, Run, Paths, Fits, Lasts, Turns, Sane, AgainEval, AgainRun, Made;
    BodySane(n, s, clear, h, k, p0);
    var h' := InLoop(h, s, clear);
    var a, b := Paths(n.c, s, false, h, k), Paths(n.body, s, true, h', k);
    var y, y' := Eval(n.body, env, w), Run(n.body, s, true, h', env, t1, w);
    var q := Sound(n.body, s, true, h', k, env, t1, w);
    p := q;
    if y.Done? {
      match y.out
      case Broken(u) =>
        p := BreakTold(a, b, p0, q, u, y.w, s, clear, h, k, t, t1, y'.t);
      case Returned(_) => p := LeaveTold(a, b, p0, q, y, y', s, clear, h, k, t, t1);
      case Thrown(_) => p := LeaveTold(a, b, p0, q, y, y', s, clear, h, k, t, t1);
      case Normal(_) => p := AgainSound(n, s, clear, h, k, env, t, t1, y'.t, y.w, p0, q, y.out);
      case Continued => p := AgainSound(n, s, clear, h, k, env, t, t1, y'.t, y.w, p0, q, y.out);
    }
  }

  lemma AgainSound(n: Node, s: nat, clear: bool, h: Shape, k: nat, env: Env, t: Temps, t1: Temps, t2: Temps, w: World, p0: Path, q: Path,
                   out: Outcome) returns (p: Path)
    requires n.While? && SaneLoop(n, s, clear, h, k) && Changed(p0.mark, k, t, t1) && p0 in Made(Paths(n.c, s, false, h, k))
    requires q in Paths(n.body, s, true, InLoop(h, s, clear), k) && Fits(q, out, true, InLoop(h, s, clear), k, t1, t2)
    requires out.Normal? || out.Continued?
    ensures Told(Paths(n, s, clear, h, k), p, AgainEval(n, env, w), AgainRun(n, s, clear, h, env, t2, w), s, clear, h, k, t)
    decreases w.fuel, n, 0, 0
  {
    hide Eval, Run, Paths, Lasts, Turns, Sane, Made;
    p := q;
    if w.fuel > 0 {
      TurnMark(Paths(n.c, s, false, h, k), Paths(n.body, s, true, InLoop(h, s, clear), k), p0, q);
      ChangedThen(p0, q, k, t, t1, t2);
      var w' := w.(fuel := w.fuel - 1);
      p := WhileSound(n, s, clear, h, k, env, t2, w');
      p := TurnTold(n, Forget(Follow(p0.mark, q).mark), p, Eval(n, env, w'), Run(n, s, clear, h, env, t2, w'), s, clear, h, k, t, t2);
    }
  }

  // ----- try -----

  /** What a construct never touches: all that is below its stack and where its jumps
      and returns leave their values. */
  lemma {:induction false} Below(n: Node, s: nat, clear: bool, h: Shape, env: Env, t: Temps, w: World, i: nat)
    requires i < s && (h.jumping ==> i < h.breakStack) && (h.returning ==> i < h.returnStack) && Legal(n, h.jumping, h.returning)
    ensures var r := Run(n, s, clear, h, env, t, w); r.Ran? ==> Read(r.t, i) == Read(t, i)
    decreases w.fuel, n, 1
  {
    hide Run, Eval, Paths;
    match n
    case Null => BelowAtom(n, s, clear, h, env, t, w, i);
    case Do(_) => BelowAtom(n, s, clear, h, env, t, w, i);
    case Continue => BelowAtom(n, s, clear, h, env, t, w, i);
    case Apply(_, a, b) =>
      ApplyRun(n, s, clear, h, env, t, w);
      Below(a, s, false, h, env, t, w, i);
      var x := Run(a, s, false, h, env, t, w);
      if Goes(x) {
        Below(b, s + 1, false, h, env, x.t, x.w, i);
      }
    case Then(a, b) =>
      ThenMeans(n, s, clear, h, 0, env, t, w);
      Below(a, s, true, h, env, t, w, i);
      var x := Run(a, s, true, h, env, t, w);
      if Goes(x) {
        Below(b, s, clear, h, env, x.t, x.w, i);
      }
    case If(c, a, b) =>
      IfMeans(n, s, clear, h, 0, env, t, w);
      Below(c, s, false, h, env, t, w, i);
      var x := Run(c, s, false, h, env, t, w);
      if Goes(x) {
        Below(a, s, clear, h, env, x.t, x.w, i);
        Below(b, s, clear, h, env, x.t, x.w, i);
      }
    case While(_, _) => BelowWhile(n, s, clear, h, env, t, w, i);
    case Try(_, _, _) => BelowTry(n, s, clear, h, env, t, w, i);
    case _ =>
      PartMeans(n, s, clear, h, 0, env, t, w);
      var u := PartOf(n, s, h);
      Below(u.e, u.s, u.clear, h, env, t, w, i);
  }

  lemma BelowAtom(n: Node, s: nat, clear: bool, h: Shape, env: Env, t: Temps, w: World, i: nat)
    requires (n.Null? || n.Do? || n.Continue?) && i < s
    ensures var r := Run(n, s, clear, h, env, t, w); r.Ran? ==> Read(r.t, i) == Read(t, i)
  {
  }

  lemma BelowWhile(n: Node, s: nat, clear: bool, h: Shape, env: Env, t: Temps, w: World, i: nat)
    requires n.While?
    requires i < s && (h.jumping ==> i < h.breakStack) && (h.returning ==> i < h.returnStack) && Legal(n, h.jumping, h.returning)
    ensures var r := Run(n, s, clear, h, env, t, w); r.Ran? ==> Read(r.t, i) == Read(t, i)
    decreases w.fuel, n, 0
  {
    hide Run;
    WhileRun(n, s, clear, h, env, t, w);
    Below(n.c, s, false, h, env, t, w, i);
    var x := Run(n.c, s, false, h, env, t, w);
    if Goes(x) && IsTrue(env, Read(x.t, s)) {
      Below(n.body, s, true, InLoop(h, s, clear), env, x.t, x.w, i);
      var y := Run(n.body, s, true, InLoop(h, s, clear), env, x.t, x.w);
      if y.Ran? && (y.out.Normally? || y.out.Continuing?) && y.w.fuel > 0 {
        BelowWhile(n, s, clear, h, env, y.t, y.w.(fuel := y.w.fuel - 1), i);
      }
    }
  }

  lemma TryEval(n: Node, env: Env, w: World)
    requires n.Try?
    ensures var x := Eval(n.body, env, w);
      Eval(n, env, w) ==
      if !x.Done? then x else
      var y := if x.out.Thrown? then Handle(n.catches, env, x.out.x, x.w) else x;
      if !y.Done? then y else FinallyEval(n.last, env, y)
  {
    hide Handle;
  }

  function FinallyEval(last: Option<Node>, env: Env, y: Result): Result
    requires y.Done?
  {
    if last.None? then y
    else
      var z := Eval(last.value, env, y.w);
      if !Passes(z) then z else Done(y.out, z.w)
  }

  lemma TryRun(n: Node, s: nat, clear: bool, h: Shape, env: Env, t: Temps, w: World)
    requires n.Try?
    ensures var x := Run(n.body, s, clear, Inner(h, s), env, t, w);
      Run(n, s, clear, h, env, t, w) ==
      if !x.Ran? then x else
      var y := if x.out.Throwing? then RunClauses(n.catches, s, clear, Inner(h, s), env, x.out.x, x.t, x.w) else x;
      if !y.Ran? then y else FinallyRun(n.last, s, h, env, y)
  {
    hide RunClauses, Inner, MovesBreak, MovesReturn;
  }

  function FinallyRun(last: Option<Node>, s: nat, h: Shape, env: Env, y: Ran): Ran
    requires y.Ran?
  {
    if last.None? then Settle(h, s, y)
    else
      var z := Run(last.value, s + 1, true, OUTSIDE, env, y.t, y.w);
      if !Goes(z) then z else Settle(h, s, z.(out := y.out))
  }

  lemma BelowTry(n: Node, s: nat, clear: bool, h: Shape, env: Env, t: Temps, w: World, i: nat)
    requires n.Try?
    requires i < s && (h.jumping ==> i < h.breakStack) && (h.returning ==> i < h.returnStack) && Legal(n, h.jumping, h.returning)
    ensures var r := Run(n, s, clear, h, env, t, w); r.Ran? ==> Read(r.t, i) == Read(t, i)
    decreases w.fuel, n, 0
  {
    hide Run, RunClauses;
    TryRun(n, s, clear, h, env, t, w);
    var x := Run(n.body, s, clear, Inner(h, s), env, t, w);
    Below(n.body, s, clear, Inner(h, s), env, t, w, i);
    if x.Ran? {
      var y := x;
      if x.out.Throwing? {
        y := RunClauses(n.catches, s, clear, Inner(h, s), env, x.out.x, x.t, x.w);
        BelowClauses(n.catches, s, clear, Inner(h, s), env, x.out.x, x.t, x.w, i);
      }
      if y.Ran? && n.last.Some? {
        Below(n.last.value, s + 1, true, OUTSIDE, env, y.t, y.w, i);
      }
    }
  }

  lemma BelowClauses(cs: Catches, s: nat, clear: bool, h: Shape, env: Env, x: int, t: Temps, w: World, i: nat)
    requires i < s && (h.jumping ==> i < h.breakStack) && (h.returning ==> i < h.returnStack)
    requires LegalClauses(cs, h.jumping, h.returning)
    ensures var r := RunClauses(cs, s, clear, h, env, x, t, w); r.Ran? ==> Read(r.t, i) == Read(t, i)
    decreases w.fuel, cs, 2
  {
    hide Run;
    if cs.Catch? {
      var k := Run(cs.kind, s, false, h, env, t, w);
      Below(cs.kind, s, false, h, env, t, w, i);
      if Goes(k) {
        Below(cs.body, s, clear, h, env, k.t, Assign(k.w, cs.i, x), i);
        BelowClauses(cs.rest, s, clear, h, env, x, k.t, k.w, i);
      }
    }
  }

  lemma ClausesMean(cs: Catches, s: nat, clear: bool, h: Shape, k: nat, env: Env, x: int, t: Temps, w: World)
    requires cs.Catch?
    ensures var a := Paths(cs.kind, s, false, h, k);
      ClausePaths(cs, s, clear, h, k) ==
      Leaving(a) + Raises(a) + Joins(Made(a), Paths(cs.body, s, clear, h, k)) + Joins(Made(a), ClausePaths(cs.rest, s, clear, h, k))
    ensures var u := Eval(cs.kind, env, w);
      Handle(cs, env, x, w) ==
      if !Passes(u) then u else
      match Tests(env, x, u.out.v)
      case Yes => Eval(cs.body, env, Assign(u.w, cs.i, x))
      case No => Handle(cs.rest, env, x, u.w)
      case Bad(y) => Done(Thrown(y), u.w)
    ensures var u := Run(cs.kind, s, false, h, env, t, w);
      RunClauses(cs, s, clear, h, env, x, t, w) ==
      if !Goes(u) then u else
      match Tests(env, x, Read(u.t, s))
      case Yes => Run(cs.body, s, clear, h, env, u.t, Assign(u.w, cs.i, x))
      case No => RunClauses(cs.rest, s, clear, h, env, x, u.t, u.w)
      case Bad(y) => Ran(Throwing(y), u.t, u.w)
  {
    hide Leaving, Raises, Joins, Made, Eval, Run, Paths;
  }

  lemma ClausesSound(cs: Catches, s: nat, clear: bool, h: Shape, k: nat, env: Env, x: int, t: Temps, w: World) returns (p: Path)
    requires LegalClauses(cs, h.jumping, h.returning) && TightClauses(cs, s, clear, h) && Ordered(h, s)
    requires !Loses(ClausePaths(cs, s, clear, h, k))
    ensures Told(ClausePaths(cs, s, clear, h, k), p, Handle(cs, env, x, w), RunClauses(cs, s, clear, h, env, x, t, w), s, clear,
                 h, k, t)
    decreases w.fuel, cs, 3
  {
    hide Eval, Run, Paths, Joins, Leaving, Raises, Made, Follow;
    match cs
    case NoCatch => p := Path(AtThrow, Kept, false);
    case Catch(kind, i, body, rest) =>
      ClausesMean(cs, s, clear, h, k, env, x, t, w);
      hide Handle, RunClauses, ClausePaths, Fits;
      var ps, a := ClausePaths(cs, s, clear, h, k), Paths(kind, s, false, h, k);
      LeavingLoses(a, ps);
      var u, u' := Eval(kind, env, w), Run(kind, s, false, h, env, t, w);
      p := Sound(kind, s, false, h, k, env, t, w);
      if !Passes(u) {
        FirstTold(a, ps, p, u, u', s, false, h, k, t, s, clear);
        return;
      }
      FitsPassing(p, u.out, false, h, k, t, u'.t);
      match Tests(env, x, u.out.v)
      case Yes =>
        var b, w' := Paths(body, s, clear, h, k), Assign(u.w, i, x);
        MadeIn(a, p);
        PartSane(Made(a), b, ps, p);
        var q := Sound(body, s, clear, h, k, env, u'.t, w');
        p := SecondTold(Made(a), b, ps, p, q, Eval(body, env, w'), Run(body, s, clear, h, env, u'.t, w'), s, clear, h, k, t, u'.t);
      case No =>
        var b := ClausePaths(rest, s, clear, h, k);
        MadeIn(a, p);
        PartSane(Made(a), b, ps, p);
        var q := ClausesSound(rest, s, clear, h, k, env, x, u'.t, u.w);
        p := SecondTold(Made(a), b, ps, p, q, Handle(rest, env, x, u.w), RunClauses(rest, s, clear, h, env, x, u'.t, u.w), s, clear,
                        h, k, t, u'.t);
      case Bad(_) => p := ThrowTold(a, p, s, clear, h, k, t, u'.t);
  }

  lemma MadeIn(a: set<Path>, p: Path)
    requires p in a && p.end == AtEnd && p.made
    ensures p in Made(a)
  {
  }

  lemma ThrowTold(a: set<Path>, p: Path, s: nat, clear: bool, h: Shape, k: nat, t: Temps, t1: Temps) returns (p': Path)
    requires p in a && p.end == AtEnd && Changed(p.mark, k, t, t1)
    ensures p' in Raises(a) && forall x: int :: Fits(p', Thrown(x), clear, h, k, t, t1)
  {
    p' := Path(AtThrow, Forget(p.mark), false);
  }

  lemma TryPaths(n: Node, s: nat, clear: bool, h: Shape, k: nat)
    requires n.Try?
    ensures var x := Paths(n.body, s, clear, Inner(h, s), k);
      var y := CaughtPaths(x, ClausePaths(n.catches, s, clear, Inner(h, s), k));
      Paths(n, s, clear, h, k) == FinallyPaths(n.last, s, h, k, y)
  {
    hide CaughtPaths, ClausePaths, Inner, Settled, Finishes, Interrupts, Only;
  }

  function FinallyPaths(last: Option<Node>, s: nat, h: Shape, k: nat, y: set<Path>): set<Path> {
    if last.None? then Settled(h, s, k, y)
    else
      var z := Paths(last.value, s + 1, true, OUTSIDE, k);
      Settled(h, s, k, Finishes(y, z)) + Only(y, AtLoss) + Interrupts(y, z)
  }

  lemma SettledEnd(h: Shape, s: nat, k: nat, y: set<Path>)
    requires !Loses(Settled(h, s, k, y))
    ensures !Loses(y)
  {
    forall p | p in y
      ensures p.end != AtLoss
    {
      assert SettlePath(h, s, k, p) in Settled(h, s, k, y);
    }
  }

  lemma FinallySane(last: Option<Node>, s: nat, h: Shape, k: nat, y: set<Path>)
    requires !Loses(FinallyPaths(last, s, h, k, y))
    ensures !Loses(y)
    ensures last.Some? && y != {} ==> !Loses(Paths(last.value, s + 1, true, OUTSIDE, k))
  {
    hide Paths;
    if last.None? {
      SettledEnd(h, s, k, y);
    } else {
      var z := Paths(last.value, s + 1, true, OUTSIDE, k);
      assert forall p :: p in y && p.end == AtLoss ==> p in Only(y, AtLoss);
      if p :| p in y {
        forall q | q in z
          ensures q.end != AtLoss
        {
          assert q.end == AtLoss ==> Follow(p.mark, q) in Interrupts(y, z);
        }
      }
    }
  }

  lemma CatchesSane(x: set<Path>, c: set<Path>)
    requires !Loses(CaughtPaths(x, c))
    ensures !Loses(x) && forall p :: p in x && p.end == AtThrow ==> !Loses(c)
  {
    forall p | p in x && p.end == AtThrow
      ensures !Loses(c)
    {
      forall q | q in c
        ensures q.end != AtLoss
      {
        assert Follow(p.mark, q) in CaughtPaths(x, c);
      }
    }
    assert forall p :: p in x && p.end == AtLoss ==> p in CaughtPaths(x, c);
  }

  /** Values of jumps are moved to where they are wanted. */
  lemma SettleTold(y: set<Path>, p: Path, out: Outcome, x: Ran, s: nat, clear: bool, h: Shape, k: nat, t: Temps) returns (p': Path)
    requires x.Ran? && Told(y, p, Done(out, x.w), x, s, clear, Inner(h, s), k, t) && Ordered(h, s)
    requires out.Broken? ==> h.clears || s >= h.breakStack
    ensures Told(Settled(h, s, k, y), p', Done(out, x.w), Settle(h, s, x), s, clear, h, k, t)
  {
    p' := SettlePath(h, s, k, p);
    assert p' in Settled(h, s, k, y);
    hide Settled;
  }

  lemma FinallySound(last: Option<Node>, y: set<Path>, p0: Path, out: Outcome, x: Ran, s: nat, clear: bool, h: Shape, k: nat,
                     env: Env, t: Temps) returns (p: Path)
    requires x.Ran? && Told(y, p0, Done(out, x.w), x, s, clear, Inner(h, s), k, t) && Ordered(h, s)
    requires out.Broken? ==> h.clears || s >= h.breakStack
    requires (last.Some? ==> Legal(last.value, false, false) && Tight(last.value, s + 1, true, OUTSIDE)) && !Loses(FinallyPaths(last, s, h, k, y))
    ensures Told(FinallyPaths(last, s, h, k, y), p, FinallyEval(last, env, Done(out, x.w)), FinallyRun(last, s, h, env, x), s, clear,
                 h, k, t)
    decreases x.w.fuel, last, 3
  {
    hide Eval, Run, Paths, Settled, Settle, Finishes, Interrupts, Only, Fits;
    FinallySane(last, s, h, k, y);
    if last.None? {
      p := SettleTold(y, p0, out, x, s, clear, h, k, t);
    } else {
      var z := Paths(last.value, s + 1, true, OUTSIDE, k);
      var u, u' := Eval(last.value, env, x.w), Run(last.value, s + 1, true, OUTSIDE, env, x.t, x.w);
      var q := Sound(last.value, s + 1, true, OUTSIDE, k, env, x.t, x.w);
      if !Passes(u) {
        FitsPassing(p0, out, clear, Inner(h, s), k, t, x.t);
        p := InterruptTold(y, z, p0, q, out, u, u', s, clear, h, k, t, x.t);
      } else {
        Below(last.value, s + 1, true, OUTSIDE, env, x.t, x.w, s);
        var x2 := u'.(out := x.out);
        var p2 := FinishTold(y, z, p0, q, out, x, u, u', s, clear, h, k, t);
        p := SettleTold(Finishes(y, z), p2, out, x2, s, clear, h, k, t);
      }
    }
  }

  lemma InterruptTold(y: set<Path>, z: set<Path>, p: Path, q: Path, out: Outcome, r: Result, x: Ran, s: nat, clear: bool, h: Shape,
                      k: nat, t: Temps, t1: Temps) returns (p': Path)
    requires p in y && p.end == EndOf(out) && Changed(p.mark, k, t, t1) && Told(z, q, r, x, s + 1, true, OUTSIDE, k, t1) && !Passes(r)
    ensures Told(Interrupts(y, z), p', r, x, s, clear, h, k, t)
  {
    p' := Follow(p.mark, q);
    if r.Done? {
      assert p' in Interrupts(y, z);
      FollowFits(q, r.out, true, OUTSIDE, k, p.mark, t, t1, x.t);
    }
  }

  /** The `finally` keeps the value. */
  lemma FinishTold(y: set<Path>, z: set<Path>, p: Path, q: Path, out: Outcome, x: Ran, r: Result, x': Ran, s: nat, clear: bool,
                   h: Shape, k: nat, t: Temps) returns (p': Path)
    requires x.Ran? && Told(y, p, Done(out, x.w), x, s, clear, Inner(h, s), k, t)
    requires Told(z, q, r, x', s + 1, true, OUTSIDE, k, x.t) && Passes(r) && Read(x'.t, s) == Read(x.t, s)
    ensures Told(Finishes(y, z), p', Done(out, x'.w), x'.(out := x.out), s, clear, Inner(h, s), k, t)
  {
    p' := if q.mark.Kept? then p else p.(mark := Forget(q.mark));
    assert p' in Finishes(y, z);
  }

  /** A `break` that leaves the parts has its value moved. */
  lemma BreaksKept(n: Node, s: nat, clear: bool, h: Shape, env: Env, w: World)
    requires n.Try? && Tight(n, s, clear, h) && h.jumping
    ensures var x := Eval(n.body, env, w);
      x.Done? ==>
        var y := if x.out.Thrown? then Handle(n.catches, env, x.out.x, x.w) else x;
        y.Done? && y.out.Broken? ==> h.clears || s >= h.breakStack
  {
    hide Eval, Handle;
    if !h.clears && s < h.breakStack {
      NoBreak(n.body, env, w);
      var x := Eval(n.body, env, w);
      if x.Done? && x.out.Thrown? {
        NoBreakClauses(n.catches, env, x.out.x, x.w);
      }
    }
  }

  lemma TrySound(n: Node, s: nat, clear: bool, h: Shape, k: nat, env: Env, t: Temps, w: World) returns (p: Path)
    requires n.Try? && Sane(n, s, clear, h, k)
    ensures Told(Paths(n, s, clear, h, k), p, Eval(n, env, w), Run(n, s, clear, h, env, t, w), s, clear, h, k, t)
    decreases w.fuel, n, 1
  {
    hide Eval, Run, Handle, RunClauses, Paths, ClausePaths, FinallyPaths, FinallyEval, FinallyRun, Fits, CaughtPaths;
    TryPaths(n, s, clear, h, k);
    TryEval(n, env, w);
    TryRun(n, s, clear, h, env, t, w);
    var h' := Inner(h, s);
    var a, c := Paths(n.body, s, clear, h', k), ClausePaths(n.catches, s, clear, h', k);
    var b := CaughtPaths(a, c);
    FinallySane(n.last, s, h, k, b);
    CatchesSane(a, c);
    var x, x' := Eval(n.body, env, w), Run(n.body, s, clear, h', env, t, w);
    p := Sound(n.body, s, clear, h', k, env, t, w);
    if x.Done? {
      if x.out.Thrown? {
        FitsPassing(p, x.out, clear, h', k, t, x'.t);
        var q := ClausesSound(n.catches, s, clear, h', k, env, x.out.x, x'.t, x.w);
        var y, y' := Handle(n.catches, env, x.out.x, x.w), RunClauses(n.catches, s, clear, h', env, x.out.x, x'.t, x.w);
        p := CaughtTold(a, c, p, q, y, y', s, clear, h', k, t, x'.t);
        if y.Done? {
          if h.jumping {
            BreaksKept(n, s, clear, h, env, w);
          }
          p := FinallySound(n.last, b, p, y.out, y', s, clear, h, k, env, t);
        }
      } else {
        UncaughtIn(a, c, p, x.out, clear, h', k, t, x'.t);
        if h.jumping {
          BreaksKept(n, s, clear, h, env, w);
        }
        p := FinallySound(n.last, b, p, x.out, x', s, clear, h, k, env, t);
      }
    }
  }

  lemma CaughtTold(a: set<Path>, c: set<Path>, p: Path, q: Path, r: Result, x: Ran, s: nat, clear: bool, h: Shape, k: nat, t: Temps,
                   t1: Temps) returns (p': Path)
    requires p in a && p.end == AtThrow && Changed(p.mark, k, t, t1) && Told(c, q, r, x, s, clear, h, k, t1)
    ensures Told(CaughtPaths(a, c), p', r, x, s, clear, h, k, t)
  {
    p' := Follow(p.mark, q);
    if r.Done? {
      assert p' in CaughtPaths(a, c);
      FollowFits(q, r.out, clear, h, k, p.mark, t, t1, x.t);
    }
  }

  lemma UncaughtIn(a: set<Path>, c: set<Path>, p: Path, out: Outcome, clear: bool, h: Shape, k: nat, t: Temps, t1: Temps)
    requires p in a && Fits(p, out, clear, h, k, t, t1) && !out.Thrown?
    ensures p in CaughtPaths(a, c)
  {
  }

  /** Where nothing is lost, what happens on the stack is what is meant, and one of the
      paths tells what has become of a slot. */
  lemma {:induction false} Sound(n: Node, s: nat, clear: bool, h: Shape, k: nat, env: Env, t: Temps, w: World) returns (p: Path)
    requires Sane(n, s, clear, h, k)
    ensures Told(Paths(n, s, clear, h, k), p, Eval(n, env, w), Run(n, s, clear, h, env, t, w), s, clear, h, k, t)
    decreases w.fuel, n, 2
  {
    hide Sane, Paths, Eval, Run, Told;
    match n
    case Null => p := AtomSound(n, s, clear, h, k, env, t, w);
    case Do(_) => p := AtomSound(n, s, clear, h, k, env, t, w);
    case Continue => p := AtomSound(n, s, clear, h, k, env, t, w);
    case Apply(_, _, _) => p := ApplySound(n, s, clear, h, k, env, t, w);
    case Then(_, _) => p := ThenSound(n, s, clear, h, k, env, t, w);
    case If(_, _, _) => p := IfSound(n, s, clear, h, k, env, t, w);
    case While(_, _) => p := WhileSound(n, s, clear, h, k, env, t, w);
    case Try(_, _, _) => p := TrySound(n, s, clear, h, k, env, t, w);
    case _ => p := PartSound(n, s, clear, h, k, env, t, w);
  }
}
