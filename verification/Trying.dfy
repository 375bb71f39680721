/** `try`, `catch`, `finally` and the jumps they hold up: what a script means, and
    the interpreter, which runs the parts of a `try` in loops of its own. */
module Trying {
  import opened Options

  /** Expressions and statements alike have a value. */
  datatype Node =
    | Null
    | Do(op: nat)
    | Apply(op: nat, a: Node, b: Node)
    | Put(i: nat, a: Node)
    | Then(a: Node, b: Node)
    | If(c: Node, t: Node, f: Node)
    | While(c: Node, body: Node)
    | Break(e: Node)
    | Continue
    | Return(e: Node)
    | Throw(e: Node)
    | Try(body: Node, catches: Catches, last: Option<Node>)

  datatype Catches = NoCatch | Catch(kind: Node, i: nat, body: Node, rest: Catches)

  /** Something done outside, by operation, variables and operands. */
  datatype Event = Event(e: nat, vars: seq<int>, operands: seq<int>)

  datatype Effect = Value(v: int) | Throws(x: int)

  datatype Test = Yes | No | Bad(x: int)

  /** How the outside answers: an operation by all that has happened so far, whether
      a value is true, whether an exception is of a type, and what is thrown where
      null is given for a type. */
  datatype Env = Env(answer: seq<Event> -> Effect, truth: int -> bool, test: (int, int) -> Test, untyped: int)

  /** The variables, what has happened, and how often loops may still go round. */
  datatype World = World(vars: seq<int>, history: seq<Event>, fuel: nat)

  const NULL := 0

  /** f_as<bool>: null is false. */
  predicate IsTrue(env: Env, v: int) {
    v != NULL && env.truth(v)
  }

  /** The test of a clause: null is no type. */
  function Tests(env: Env, x: int, k: int): Test {
    if k == NULL then Bad(env.untyped) else env.test(x, k)
  }

  function Happens(w: World, e: nat, operands: seq<int>): World {
    w.(history := w.history + [Event(e, w.vars, operands)])
  }

  function Assign(w: World, i: nat, v: int): World {
    if i < |w.vars| then w.(vars := w.vars[i := v]) else w
  }

  // ----- What a script means -----

  datatype Outcome = Normal(v: int) | Broken(v: int) | Continued | Returned(v: int) | Thrown(x: int)

  datatype Result = Done(out: Outcome, w: World) | Forever

  /** How a value or an exception comes out of an operation. */
  function Came(f: Effect): Outcome {
    match f
    case Value(v) => Normal(v)
    case Throws(x) => Thrown(x)
  }

  function Eval(n: Node, env: Env, w: World): (r: Result)
    ensures r.Done? ==> r.w.fuel <= w.fuel && |r.w.vars| == |w.vars| && w.history <= r.w.history
    decreases w.fuel, n
  {
    match n
    case Null => Done(Normal(NULL), w)
    case Do(e) =>
      var w' := Happens(w, e, []);
      Done(Came(env.answer(w'.history)), w')
    case Apply(e, a, b) =>
      var x := Eval(a, env, w);
      if !x.Done? || !x.out.Normal? then x else
      var y := Eval(b, env, x.w);
      if !y.Done? || !y.out.Normal? then y else
      var w' := Happens(y.w, e, [x.out.v, y.out.v]);
      Done(Came(env.answer(w'.history)), w')
    case Put(i, a) =>
      var x := Eval(a, env, w);
      if !x.Done? || !x.out.Normal? then x else Done(x.out, Assign(x.w, i, x.out.v))
    case Then(a, b) =>
      var x := Eval(a, env, w);
      if !x.Done? || !x.out.Normal? then x else Eval(b, env, x.w)
    case If(c, t, f) =>
      var x := Eval(c, env, w);
      if !x.Done? || !x.out.Normal? then x else if IsTrue(env, x.out.v) then Eval(t, env, x.w) else Eval(f, env, x.w)
    case While(c, body) =>
      var x := Eval(c, env, w);
      if !x.Done? || !x.out.Normal? then x else
      if !IsTrue(env, x.out.v) then Done(Normal(NULL), x.w) else
      var y := Eval(body, env, x.w);
      if !y.Done? then y else
      if y.out.Broken? then Done(Normal(y.out.v), y.w) else
      if !y.out.Normal? && !y.out.Continued? then y else
      if y.w.fuel == 0 then Forever else Eval(n, env, y.w.(fuel := y.w.fuel - 1))
    case Break(e) =>
      var x := Eval(e, env, w);
      if !x.Done? || !x.out.Normal? then x else Done(Broken(x.out.v), x.w)
    case Continue => Done(Continued, w)
    case Return(e) =>
      var x := Eval(e, env, w);
      if !x.Done? || !x.out.Normal? then x else Done(Returned(x.out.v), x.w)
    case Throw(e) =>
      var x := Eval(e, env, w);
      if !x.Done? || !x.out.Normal? then x else Done(Thrown(x.out.v), x.w)
    case Try(body, catches, last) =>
      var x := Eval(body, env, w);
      if !x.Done? then x else
      var y := if x.out.Thrown? then Handle(catches, env, x.out.x, x.w) else x;
      if !y.Done? || last.None? then y else
      var z := Eval(last.value, env, y.w);
      if !z.Done? || !z.out.Normal? then z else Done(y.out, z.w)
  }

  /** The first clause that the exception fits. */
  function Handle(cs: Catches, env: Env, x: int, w: World): (r: Result)
    ensures r.Done? ==> r.w.fuel <= w.fuel && |r.w.vars| == |w.vars| && w.history <= r.w.history
    decreases w.fuel, cs
  {
    match cs
    case NoCatch => Done(Thrown(x), w)
    case Catch(kind, i, body, rest) =>
      var k := Eval(kind, env, w);
      if !k.Done? || !k.out.Normal? then k else
      match Tests(env, x, k.out.v)
      case Yes => Eval(body, env, Assign(k.w, i, x))
      case No => Handle(rest, env, x, k.w)
      case Bad(y) => Done(Thrown(y), k.w)
  }

  // ----- The interpreter -----

  /** How a part of a `try` ends. */
  datatype Kind = CATCHING | STEP | BREAKING | CONTINUING | RETURNING | THROWING

  datatype Instruction =
    | DO(e: nat, s: nat)
    | APPLY(e: nat, s: nat)
    | NUL(s: nat)
    | GET(to: nat, s: nat)
    | PUT(s: nat, i: nat)
    | JUMP(l: nat)
    | BRANCH(s: nat, l: nat)
    | TRY(s: nat, onCatch: nat, onFinally: nat)
    | CATCH(l: nat, i: nat)
    | FINALLY(k: Kind)
    | YRT(onBreak: Option<nat>, onContinue: Option<nat>, onReturn: Option<nat>)
    | THROW(s: nat)
    | RETURN(s: nat)

  type Code = seq<Instruction>

  /** The operand stack. */
  type Temps = map<nat, int>

  function Read(t: Temps, s: nat): int {
    if s in t then t[s] else NULL
  }

  /** How f_loop is left. */
  datatype Exit =
    | Left(k: Kind, pc: nat, t: Temps, w: World)
    | Ended(v: int, w: World)
    | Raised(x: int, t: Temps, w: World)
    | Spent
    | Wrong

  function Steps(code: Code, pc: nat): nat {
    if pc < |code| then |code| - pc else 0
  }

  /** Going back costs fuel. */
  predicate Stops(from: nat, to: nat, w: World) {
    to <= from && w.fuel == 0
  }

  function Gone(from: nat, to: nat, w: World): World
    requires !Stops(from, to, w)
  {
    if to <= from then w.(fuel := w.fuel - 1) else w
  }

  /** Nothing goes back without a cost. */
  ghost predicate Onward(r: Exit, pc: nat, w: World) {
    match r
    case Left(_, pc', _, w') => w'.fuel < w.fuel || (w'.fuel == w.fuel && pc' >= pc)
    case Ended(_, w') => w'.fuel <= w.fuel
    case Raised(_, _, w') => w'.fuel <= w.fuel
    case _ => true
  }

  /** f_loop */
  function Loop(code: Code, env: Env, pc: nat, t: Temps, w: World): (r: Exit)
    ensures Onward(r, pc, w)
    decreases w.fuel, Steps(code, pc), 3
  {
    if pc >= |code| then Wrong else
    match code[pc]
    case DO(e, s) =>
      var w' := Happens(w, e, []);
      (match env.answer(w'.history)
       case Value(v) => Loop(code, env, pc + 1, t[s := v], w')
       case Throws(x) => Raised(x, t, w'))
    case APPLY(e, s) =>
      var w' := Happens(w, e, [Read(t, s), Read(t, s + 1)]);
      (match env.answer(w'.history)
       case Value(v) => Loop(code, env, pc + 1, t[s := v], w')
       case Throws(x) => Raised(x, t, w'))
    case NUL(s) => Loop(code, env, pc + 1, t[s := NULL], w)
    case GET(to, s) => Loop(code, env, pc + 1, t[to := Read(t, s)], w)
    case PUT(s, i) => Loop(code, env, pc + 1, t, Assign(w, i, Read(t, s)))
    case JUMP(l) => if Stops(pc, l, w) then Spent else Loop(code, env, l, t, Gone(pc, l, w))
    case BRANCH(s, l) =>
      if IsTrue(env, Read(t, s)) then Loop(code, env, pc + 1, t, w)
      else if Stops(pc, l, w) then Spent
      else Loop(code, env, l, t, Gone(pc, l, w))
    case TRY(_, _, _) =>
      var r := RunTry(code, env, pc, t, w);
      if r.Left? then Loop(code, env, r.pc, r.t, r.w) else r
    case CATCH(_, _) => Left(CATCHING, pc, t, w)
    case FINALLY(k) => Left(k, pc + 1, t, w)
    case YRT(_, _, _) => Left(CATCHING, pc, t, w)
    case THROW(s) => Raised(Read(t, s), t, w)
    case RETURN(s) => Ended(Read(t, s), w)
  }

  /** f_try: left for the place where the interpreter goes on. A RETURN is never
      emitted in a part of a `try`. */
  function RunTry(code: Code, env: Env, pc: nat, t: Temps, w: World): (r: Exit)
    requires pc < |code| && code[pc].TRY?
    ensures Onward(r, pc + 1, w)
    decreases w.fuel, Steps(code, pc), 2
  {
    match Loop(code, env, pc + 1, t, w)
    case Left(k, _, t', w') => RunFinally(code, env, pc, pc, Ends(k), t', w')
    case Ended(_, _) => Wrong
    case Raised(x, t', w') =>
      var l := code[pc].onCatch;
      if Stops(pc, l, w') then Spent else RunCatch(code, env, pc, l, x, t', Gone(pc, l, w'))
    case Spent => Spent
    case Wrong => Wrong
  }

  /** What waits for the `finally` to be done. */
  datatype Pending = Ends(k: Kind) | Rethrows(x: int)

  /** The clauses from `at` on. */
  function RunCatch(code: Code, env: Env, pc: nat, at: nat, x: int, t: Temps, w: World): (r: Exit)
    requires pc < |code| && code[pc].TRY?
    ensures r.Left? ==> r.w.fuel < w.fuel || (r.w.fuel == w.fuel && r.pc > pc)
    ensures Onward(r, 0, w)
    decreases w.fuel, Steps(code, at), 4
  {
    if at >= |code| then Wrong else
    match Loop(code, env, at, t, w)
    case Left(k, pc', t', w') =>
      if k == THROWING then RunFinally(code, env, pc, at, Rethrows(x), t', w')
      else if k != CATCHING then RunFinally(code, env, pc, at, Ends(k), t', w')
      else if pc' >= |code| || !code[pc'].CATCH? then Wrong
      else
        var CATCH(l, i) := code[pc'];
        (match Tests(env, x, Read(t', code[pc].s))
         case Yes => RunCatch(code, env, pc, pc' + 1, x, t', Assign(w', i, x))
         case No => if Stops(pc', l, w') then Spent else RunCatch(code, env, pc, l, x, t', Gone(pc', l, w'))
         case Bad(y) => RunFinally(code, env, pc, at, Rethrows(y), t', w'))
    case Ended(_, _) => Wrong
    case Raised(y, t', w') => RunFinally(code, env, pc, at, Rethrows(y), t', w')
    case Spent => Spent
    case Wrong => Wrong
  }

  /** Where a jump goes on after YRT. */
  function Resumes(y: Instruction, k: Kind, step: nat): Option<nat>
    requires y.YRT?
  {
    match k
    case BREAKING => y.onBreak
    case CONTINUING => y.onContinue
    case RETURNING => y.onReturn
    case _ => Some(step)
  }

  function RunFinally(code: Code, env: Env, pc: nat, from: nat, p: Pending, t: Temps, w: World): (r: Exit)
    requires pc < |code| && code[pc].TRY? && from < |code|
    ensures r.Left? ==> r.w.fuel < w.fuel || (r.w.fuel == w.fuel && r.pc > pc)
    ensures Onward(r, 0, w)
    decreases w.fuel, Steps(code, from), 1
  {
    var l := code[pc].onFinally;
    if Stops(from, l, w) then Spent else
    match Loop(code, env, l, t, Gone(from, l, w))
    case Left(_, pc', t', w') =>
      if p.Rethrows? then Raised(p.x, t', w')
      else if pc' >= |code| || !code[pc'].YRT? then Wrong
      else
        (match Resumes(code[pc'], p.k, pc' + 1)
         case None => Wrong
         case Some(q) => if Stops(pc, q, w') then Spent else Left(STEP, q, t', Gone(pc, q, w')))
    case r => r
  }
}
