/** The interpreter as it is: a context whose program counter, operand stack and
    variables change step by step, and f_try, which calls the loop again. */
module Interpreting {
  import opened Options
  import opened Trying
  import Meaning
  import Tried

  /** How the loop is left, without the state it is left in. */
  datatype Ending = Leaves(k: Kind) | Finishes(v: int) | Raises(x: int) | RunsOut | Fails

  class Context {
    const code: Code
    const env: Env
    var pc: nat
    var temps: Temps
    var world: World

    constructor (code: Code, env: Env, world: World)
      ensures this.code == code && this.env == env && pc == 0 && temps == map[] && this.world == world
    {
      this.code, this.env, this.pc, this.temps, this.world := code, env, 0, map[], world;
    }

    /** The ending together with the state. */
    ghost function Exits(r: Ending): Exit
      reads this
    {
      match r
      case Leaves(k) => Left(k, pc, temps, world)
      case Finishes(v) => Ended(v, world)
      case Raises(x) => Raised(x, temps, world)
      case RunsOut => Spent
      case Fails => Wrong
    }

    /** Moves the program counter, unless going back is no longer allowed. */
    method Go(from: nat, to: nat) returns (stops: bool)
      modifies `pc, `world
      ensures stops == Stops(from, to, old(world))
      ensures !stops ==> pc == to && world == Gone(from, to, old(world))
    {
      stops := Stops(from, to, world);
      if !stops {
        world := Gone(from, to, world);
        pc := to;
      }
    }

    /** Something is done outside; the value goes to `s`. */
    method Answer(op: nat, operands: seq<int>, s: nat) returns (thrown: Option<int>)
      modifies `pc, `world, `temps
      ensures world == Happens(old(world), op, operands)
      ensures match env.answer(world.history)
              case Value(v) => thrown == None && temps == old(temps)[s := v] && pc == old(pc) + 1
              case Throws(x) => thrown == Some(x) && temps == old(temps)
    {
      world := Happens(world, op, operands);
      match env.answer(world.history)
      case Value(v) =>
        temps := temps[s := v];
        pc := pc + 1;
        thrown := None;
      case Throws(x) => thrown := Some(x);
    }

    /** f_loop */
    method Run() returns (r: Ending)
      modifies `pc, `temps, `world
      ensures Exits(r) == Loop(code, env, old(pc), old(temps), old(world))
      decreases world.fuel, Steps(code, pc), 3
    {
      hide RunTry, RunCatch, RunFinally, Read, IsTrue;
      while true
        invariant Loop(code, env, pc, temps, world) == Loop(code, env, old(pc), old(temps), old(world))
        invariant world.fuel <= old(world).fuel
        invariant world.fuel == old(world).fuel ==> Steps(code, pc) <= Steps(code, old(pc))
        decreases world.fuel, Steps(code, pc)
      {
        if pc >= |code| {
          return Fails;
        }
        match code[pc]
        case DO(op, s) =>
          var thrown := Answer(op, [], s);
          if thrown.Some? {
            return Raises(thrown.value);
          }
        case APPLY(op, s) =>
          var thrown := Answer(op, [Read(temps, s), Read(temps, s + 1)], s);
          if thrown.Some? {
            return Raises(thrown.value);
          }
        case NUL(s) =>
          temps := temps[s := NULL];
          pc := pc + 1;
        case GET(to, s) =>
          temps := temps[to := Read(temps, s)];
          pc := pc + 1;
        case PUT(s, i) =>
          world := Assign(world, i, Read(temps, s));
          pc := pc + 1;
        case JUMP(l) =>
          var stops := Go(pc, l);
          if stops {
            return RunsOut;
          }
        case BRANCH(s, l) =>
          if IsTrue(env, Read(temps, s)) {
            pc := pc + 1;
          } else {
            var stops := Go(pc, l);
            if stops {
              return RunsOut;
            }
          }
        case TRY(_, _, _) =>
          var ended := Try();
          if !ended.Leaves? {
            return ended;
          }
        case CATCH(_, _) => return Leaves(CATCHING);
        case FINALLY(k) =>
          pc := pc + 1;
          return Leaves(k);
        case YRT(_, _, _) => return Leaves(CATCHING);
        case THROW(s) => return Raises(Read(temps, s));
        case RETURN(s) => return Finishes(Read(temps, s));
      }
    }

    /** f_try */
    method Try() returns (r: Ending)
      requires pc < |code| && code[pc].TRY?
      modifies `pc, `temps, `world
      ensures Exits(r) == RunTry(code, env, old(pc), old(temps), old(world))
      decreases world.fuel, Steps(code, pc), 2
    {
      var start := pc;
      pc := pc + 1;
      r := Run();
      match r
      case Leaves(k) => r := Finally(start, start, Ends(k));
      case Finishes(_) => r := Fails;
      case Raises(x) =>
        var stops := Go(start, code[start].onCatch);
        if stops {
          return RunsOut;
        }
        r := Catch(start, x);
      case _ =>
    }

    /** The clauses, for the exception `x`. */
    method Catch(start: nat, x: int) returns (r: Ending)
      requires start < |code| && code[start].TRY?
      modifies `pc, `temps, `world
      ensures Exits(r) == RunCatch(code, env, start, old(pc), x, old(temps), old(world))
      decreases world.fuel, Steps(code, pc), 4
    {
      hide Loop, RunTry, RunFinally, Read;
      while true
        invariant RunCatch(code, env, start, pc, x, temps, world) == RunCatch(code, env, start, old(pc), x, old(temps), old(world))
        invariant world.fuel <= old(world).fuel
        invariant world.fuel == old(world).fuel ==> Steps(code, pc) <= Steps(code, old(pc))
        decreases world.fuel, Steps(code, pc)
      {
        if pc >= |code| {
          return Fails;
        }
        var at := pc;
        r := Run();
        match r
        case Leaves(k) =>
          if k != CATCHING {
            r := Finally(start, at, if k == THROWING then Rethrows(x) else Ends(k));
            return;
          }
          if pc >= |code| || !code[pc].CATCH? {
            return Fails;
          }
          match Tests(env, x, Read(temps, code[start].s)) {
            case Yes =>
              world := Assign(world, code[pc].i, x);
              pc := pc + 1;
            case No =>
              var stops := Go(pc, code[pc].l);
              if stops {
                return RunsOut;
              }
            case Bad(y) =>
              r := Finally(start, at, Rethrows(y));
              return;
          }
        case Finishes(_) => return Fails;
        case Raises(y) =>
          r := Finally(start, at, Rethrows(y));
          return;
        case _ => return;
      }
    }

    /** The `finally`, and what has waited for it. */
    method Finally(start: nat, from: nat, p: Pending) returns (r: Ending)
      requires start < |code| && code[start].TRY? && from < |code|
      modifies `pc, `temps, `world
      ensures Exits(r) == RunFinally(code, env, start, from, p, old(temps), old(world))
      decreases world.fuel, Steps(code, from), 1
    {
      var stops := Go(from, code[start].onFinally);
      if stops {
        return RunsOut;
      }
      r := Run();
      if !r.Leaves? {
        return;
      }
      if p.Rethrows? {
        return Raises(p.x);
      }
      if pc >= |code| || !code[pc].YRT? {
        return Fails;
      }
      match Resumes(code[pc], p.k, pc + 1)
      case None => return Fails;
      case Some(q) =>
        stops := Go(start, q);
        r := if stops then RunsOut else Leaves(STEP);
    }
  }

  /** A lambda is compiled and called. If no operand can be lost in it, the interpreter
      ends as what it means says, or does not end if that does not. */
  method Call(n: Node, env: Env, w: World) returns (r: Ending, c: Context)
    requires Tried.Proper(n)
    ensures fresh(c) && c.Exits(r) == Loop(Tried.Program(n), env, 0, map[], w)
    ensures Meaning.Placed(n) && Meaning.Safe(n) ==> Meaning.Agrees(Eval(n, env, w), c.Exits(r))
  {
    hide Eval, Loop, Tried.Proper, Tried.Program, Meaning.Placed, Meaning.Safe, Meaning.Agrees;
    c := new Context(Tried.Program(n), env, w);
    r := c.Run();
    if Meaning.Placed(n) && Meaning.Safe(n) {
      Meaning.SafeAgrees(n, env, w);
    }
  }
}
