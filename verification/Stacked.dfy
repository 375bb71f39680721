/** What the code for `try` and the jumps does, construct by construct, on the real
    operand stack. */
module Stacked {
  import opened Options
  import opened Trying
  import opened TryCode

  /** How a construct is left; its value, if it has one, is on the stack. */
  datatype Way = Normally | Breaking | Continuing | Returning | Throwing(x: int)

  datatype Ran = Ran(out: Way, t: Temps, w: World) | Endless

  predicate Goes(r: Ran) {
    r.Ran? && r.out.Normally?
  }

  /** How a value or an exception comes to the stack. */
  function Gives(f: Effect, s: nat, t: Temps, w: World): Ran {
    match f
    case Value(v) => Ran(Normally, t[s := v], w)
    case Throws(x) => Ran(Throwing(x), t, w)
  }

  function Nulls(clear: bool, s: nat, t: Temps): Temps {
    if clear then t else t[s := NULL]
  }

  /** After the `finally` the value is moved to where the jump wants it. */
  function Settle(h: Shape, s: nat, r: Ran): Ran {
    if r.Ran? && r.out.Breaking? && MovesBreak(h, s) then r.(t := r.t[h.breakStack := Read(r.t, s)])
    else if r.Ran? && r.out.Returning? && MovesReturn(h, s) then r.(t := r.t[h.returnStack := Read(r.t, s)])
    else r
  }

  function Run(n: Node, s: nat, clear: bool, h: Shape, env: Env, t: Temps, w: World): (r: Ran)
    ensures r.Ran? ==> r.w.fuel <= w.fuel
    decreases w.fuel, n
  {
    match n
    case Null => Ran(Normally, Nulls(clear, s, t), w)
    case Do(op) =>
      var w' := Happens(w, op, []);
      Gives(env.answer(w'.history), s, t, w')
    case Apply(op, a, b) =>
      var x := Run(a, s, false, h, env, t, w);
      if !Goes(x) then x else
      var y := Run(b, s + 1, false, h, env, x.t, x.w);
      if !Goes(y) then y else
      var w' := Happens(y.w, op, [Read(y.t, s), Read(y.t, s + 1)]);
      Gives(env.answer(w'.history), s, y.t, w')
    case Put(i, a) =>
      var x := Run(a, s, false, h, env, t, w);
      if !Goes(x) then x else x.(w := Assign(x.w, i, Read(x.t, s)))
    case Then(a, b) =>
      var x := Run(a, s, true, h, env, t, w);
      if !Goes(x) then x else Run(b, s, clear, h, env, x.t, x.w)
    case If(c, a, b) =>
      var x := Run(c, s, false, h, env, t, w);
      if !Goes(x) then x
      else if IsTrue(env, Read(x.t, s)) then Run(a, s, clear, h, env, x.t, x.w)
      else Run(b, s, clear, h, env, x.t, x.w)
    case While(c, body) =>
      var x := Run(c, s, false, h, env, t, w);
      if !Goes(x) then x
      else if !IsTrue(env, Read(x.t, s)) then Ran(Normally, Nulls(clear, s, x.t), x.w)
      else
        var y := Run(body, s, true, InLoop(h, s, clear), env, x.t, x.w);
        if !y.Ran? then y
        else if y.out.Breaking? then y.(out := Normally)
        else if !y.out.Normally? && !y.out.Continuing? then y
        else if y.w.fuel == 0 then Endless
        else Run(n, s, clear, h, env, y.t, y.w.(fuel := y.w.fuel - 1))
    case Break(e) =>
      var x := Run(e, h.breakStack, h.clears, h, env, t, w);
      if !Goes(x) then x else x.(out := Breaking)
    case Continue => Ran(Continuing, t, w)
    case Return(e) =>
      var x := Run(e, h.returnStack, false, h, env, t, w);
      if !Goes(x) then x else x.(out := Returning)
    case Throw(e) =>
      var x := Run(e, s, false, h, env, t, w);
      if !Goes(x) then x else x.(out := Throwing(Read(x.t, s)))
    case Try(body, cs, last) =>
      var x := Run(body, s, clear, Inner(h, s), env, t, w);
      if !x.Ran? then x else
      var y := if x.out.Throwing? then RunClauses(cs, s, clear, Inner(h, s), env, x.out.x, x.t, x.w) else x;
      if !y.Ran? || last.None? then Settle(h, s, y) else
      var z := Run(last.value, s + 1, true, OUTSIDE, env, y.t, y.w);
      if !Goes(z) then z else Settle(h, s, z.(out := y.out))
  }

  function RunClauses(cs: Catches, s: nat, clear: bool, h: Shape, env: Env, x: int, t: Temps, w: World): (r: Ran)
    ensures r.Ran? ==> r.w.fuel <= w.fuel
    decreases w.fuel, cs
  {
    match cs
    case NoCatch => Ran(Throwing(x), t, w)
    case Catch(kind, i, body, rest) =>
      var k := Run(kind, s, false, h, env, t, w);
      if !Goes(k) then k else
      match Tests(env, x, Read(k.t, s))
      case Yes => Run(body, s, clear, h, env, k.t, Assign(k.w, i, x))
      case No => RunClauses(rest, s, clear, h, env, x, k.t, k.w)
      case Bad(y) => Ran(Throwing(y), k.t, k.w)
  }

  // ----- What scripts may contain -----

  /** What the parser accepts: jumps are in loops, returns in lambdas, and neither
      leaves a `finally`. */
  predicate Legal(n: Node, jumping: bool, returning: bool)
    decreases n
  {
    match n
    case Null => true
    case Do(_) => true
    case Apply(_, a, b) => Legal(a, jumping, returning) && Legal(b, jumping, returning)
    case Put(_, a) => Legal(a, jumping, returning)
    case Then(a, b) => Legal(a, jumping, returning) && Legal(b, jumping, returning)
    case If(c, a, b) => Legal(c, jumping, returning) && Legal(a, jumping, returning) && Legal(b, jumping, returning)
    case While(c, body) => Legal(c, jumping, returning) && Legal(body, true, returning)
    case Break(e) => jumping && Legal(e, jumping, returning)
    case Continue => jumping
    case Return(e) => returning && Legal(e, jumping, returning)
    case Throw(e) => Legal(e, jumping, returning)
    case Try(body, cs, last) =>
      Legal(body, jumping, returning) && LegalClauses(cs, jumping, returning) && (last.Some? ==> Legal(last.value, false, false))
  }

  predicate LegalClauses(cs: Catches, jumping: bool, returning: bool)
    decreases cs
  {
    match cs
    case NoCatch => true
    case Catch(kind, _, body, rest) =>
      Legal(kind, jumping, returning) && Legal(body, jumping, returning) && LegalClauses(rest, jumping, returning)
  }

  /** Only what is legal leaves a construct. */
  ghost predicate Within(out: Way, jumping: bool, returning: bool) {
    && (out.Breaking? || out.Continuing? ==> jumping) && (out.Returning? ==> returning)
  }
}
