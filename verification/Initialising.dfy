/** Private variables are not cleared on entry: the compiler emits a NUL where a
    variable might be read before it is written. This is its flow graph, the code
    it emits, and the machine that runs it. */
module Initialising {
  import opened Options

  /** What of a script matters: reads and writes of private variables, operations that
      read one after the `rest` is evaluated, which is their left operand or what they
      call, and control. Every construct owns its blocks and junctions. */
  datatype Node =
    | Skip
    | Access(i: nat, put: bool)
    | Operate(i: nat, call: bool, rest: Node)
    | Then(a: Node, b: Node)
    | If(c: Option<Node>, t: Node, f: Node, blockTrue: nat, blockFalse: nat, junction: nat, blockExit: nat)
    | While(c: Option<Node>, body: Node, junctionCondition: nat, blockCondition: nat, blockBody: nat,
            junctionExit: nat, blockExit: nat)
    | For(init: Node, c: Option<Node>, next: Option<Node>, body: Node, junctionCondition: nat, blockCondition: nat,
          blockBody: nat, junctionNext: nat, blockNext: nat, junctionExit: nat, blockExit: nat)
    | Break(e: Node)
    | Continue
    | Return(e: Node)

  // ----- The flow graph -----

  /** The first access to each variable in a block, and whether it is a write. */
  type Firsts = map<nat, bool>

  /** t_block::f_use */
  function Use(acc: Firsts, i: nat, put: bool): Firsts {
    if i in acc then acc else acc[i := put]
  }

  /** The blocks that jumps lead to. */
  datatype Ends = Ends(onBreak: nat, onContinue: nat, onReturn: nat)

  /** The block at the end with its accesses so far, the edges, the blocks that are
      complete, and the reads that are first accesses. */
  datatype Flowed = Flowed(cur: nat, acc: Firsts, edges: seq<(nat, nat)>, done: seq<(nat, Firsts)>, gets: seq<(nat, nat)>)

  /** f_flow of all the nodes. */
  function Flow(n: Node, cur: nat, acc: Firsts, ends: Ends): Flowed
    decreases n
  {
    match n
    case Skip => Flowed(cur, acc, [], [], [])
    case Access(i, put) => Flowed(cur, Use(acc, i, put), [], [], if !put && i !in acc then [(cur, i)] else [])
    case Operate(i, _, rest) =>
      var x := Flow(rest, cur, Use(acc, i, false), ends);
      x.(gets := (if i !in acc then [(cur, i)] else []) + x.gets)
    case Then(a, b) =>
      var x := Flow(a, cur, acc, ends);
      var y := Flow(b, x.cur, x.acc, ends);
      Flowed(y.cur, y.acc, x.edges + y.edges, x.done + y.done, x.gets + y.gets)
    case If(c, t, f, bt, bf, j, be) =>
      var x := if c.Some? then Flow(c.value, cur, acc, ends) else Flowed(cur, acc, [], [], []);
      var y := Flow(t, bt, map[], ends);
      var z := Flow(f, bf, map[], ends);
      Flowed(be, map[],
             x.edges + y.edges + z.edges + [(x.cur, bt), (x.cur, bf), (y.cur, j), (z.cur, j), (j, be)],
             x.done + y.done + z.done + [(x.cur, x.acc), (y.cur, y.acc), (z.cur, z.acc), (j, map[])],
             x.gets + y.gets + z.gets)
    case While(c, body, jc, bc, bb, jx, be) =>
      var x := if c.Some? then Flow(c.value, bc, map[], ends) else Flowed(bc, map[], [], [], []);
      var y := Flow(body, bb, map[], Ends(jx, jc, ends.onReturn));
      Flowed(be, map[],
             x.edges + y.edges + [(cur, jc), (jc, bc), (x.cur, bb), (x.cur, jx), (y.cur, jc), (jx, be)],
             x.done + y.done + [(cur, acc), (jc, map[]), (x.cur, x.acc), (y.cur, y.acc), (jx, map[])],
             x.gets + y.gets)
    case For(init, c, next, body, jc, bc, bb, jn, bn, jx, be) =>
      var w := Flow(init, cur, acc, ends);
      var x := if c.Some? then Flow(c.value, bc, map[], ends) else Flowed(bc, map[], [], [], []);
      var y := Flow(body, bb, map[], Ends(jx, jn, ends.onReturn));
      var z := if next.Some? then Flow(next.value, bn, map[], ends) else Flowed(bn, map[], [], [], []);
      Flowed(be, map[],
             w.edges + x.edges + y.edges + z.edges
             + [(w.cur, jc), (jc, bc), (x.cur, bb), (x.cur, jx), (y.cur, jn), (jn, bn), (z.cur, jc), (jx, be)],
             w.done + x.done + y.done + z.done
             + [(w.cur, w.acc), (jc, map[]), (x.cur, x.acc), (y.cur, y.acc), (jn, map[]), (z.cur, z.acc), (jx, map[])],
             w.gets + x.gets + y.gets + z.gets)
    case Break(e) =>
      var x := Flow(e, cur, acc, ends);
      x.(edges := x.edges + [(x.cur, ends.onBreak)])
    case Continue => Flowed(cur, acc, [(cur, ends.onContinue)], [], [])
    case Return(e) =>
      var x := Flow(e, cur, acc, ends);
      x.(edges := x.edges + [(x.cur, ends.onReturn)])
  }

  /** What the analysis finds: `entered(b, i)` when `i` may have been accessed
      before the block `b`, `used(b, i)` when it may be read before it is written
      from there on. */
  datatype Facts = Facts(entered: (nat, nat) -> bool, used: (nat, nat) -> bool)

  /** v_out of a block */
  predicate Left(s: Facts, b: nat, acc: Firsts, i: nat) {
    s.entered(b, i) || i in acc
  }

  predicate Defines(acc: Firsts, i: nat) {
    i in acc && acc[i]
  }

  /** The facts are closed under the rules of the analysis. */
  ghost predicate Solves(s: Facts, edges: seq<(nat, nat)>, done: seq<(nat, Firsts)>, gets: seq<(nat, nat)>) {
    && (forall d, e, i: nat :: d in done && e in edges && e.0 == d.0 && Left(s, d.0, d.1, i) ==> s.entered(e.1, i))
    && (forall d, e, i: nat :: d in done && e in edges && e.0 == d.0 && s.used(e.1, i) && !Defines(d.1, i) ==> s.used(d.0, i))
    && (forall r :: r in gets ==> s.used(r.0, r.1))
  }

  lemma SolvesEdge(s: Facts, edges: seq<(nat, nat)>, done: seq<(nat, Firsts)>, gets: seq<(nat, nat)>, p: nat, acc: Firsts, q: nat)
    requires Solves(s, edges, done, gets) && (p, acc) in done && (p, q) in edges
    ensures forall i: nat :: Left(s, p, acc, i) ==> s.entered(q, i)
    ensures forall i: nat :: s.used(q, i) && !Defines(acc, i) ==> s.used(p, i)
  {
    var d, e := (p, acc), (p, q);
    assert d in done && e in edges;
  }

  // ----- The code -----

  /** Labels are named after the blocks they begin. */
  datatype Instruction =
    | READ(i: nat)
    | CALL(i: nat)
    | WRITE(i: nat)
    | NUL(i: nat)
    | BRANCH(l: nat)
    | JUMP(l: nat)
    | TARGET(l: nat)
    | RETURN

  type Code = seq<Instruction>

  /** t_emit::f_join: from the variable `i` on, `m` being their number. */
  function Join(s: Facts, d: set<nat>, j: nat, m: nat, i: nat): Code
    requires i <= m
    decreases m - i
  {
    if i == m then []
    else (if i !in d && s.used(j, i) && s.entered(j, i) then [NUL(i)] else []) + Join(s, d, j, m, i + 1)
  }

  /** t_emit::f_merge */
  function Merge(s: Facts, j: nat, m: nat): set<nat> {
    set i: nat | i < m && s.entered(j, i)
  }

  /** Where jumps go: the labels, and the junction to join for. */
  datatype Targets = Targets(onBreak: nat, breakJunction: nat, onContinue: nat)

  /** The code and what it takes for initialised at its end. */
  datatype Emitted = Emitted(code: Code, d: set<nat>)

  /** f_emit of all the nodes; `d` is v_privates. */
  function Emit(n: Node, d: set<nat>, ts: Targets, s: Facts, m: nat): Emitted
    decreases n
  {
    match n
    case Skip => Emitted([], d)
    case Access(i, put) => Emitted((if !put && i !in d then [NUL(i)] else []) + [if put then WRITE(i) else READ(i)], d + {i})
    case Operate(i, call, rest) =>
      var x := Emit(rest, if call then d else d + {i}, ts, s, m);
      x.(code := (if !call && i !in d then [NUL(i)] else []) + x.code + [if call then CALL(i) else READ(i)])
    case Then(a, b) =>
      var x := Emit(a, d, ts, s, m);
      var y := Emit(b, x.d, ts, s, m);
      Emitted(x.code + y.code, y.d)
    case If(c, t, f, bt, bf, j, be) =>
      var x := if c.Some? then Emit(c.value, d, ts, s, m) else Emitted([], d);
      var y := Emit(t, x.d, ts, s, m);
      var z := Emit(f, x.d, ts, s, m);
      Emitted(
        x.code + (if c.Some? then [BRANCH(bf)] else []) + y.code + Join(s, y.d, j, m, 0) + [JUMP(be), TARGET(bf)]
        + z.code + Join(s, z.d, j, m, 0) + [TARGET(be)],
        Merge(s, j, m))
    case While(c, body, jc, bc, bb, jx, be) =>
      var h := Merge(s, jc, m);
      var x := if c.Some? then Emit(c.value, h, ts, s, m) else Emitted([], h);
      var y := Emit(body, x.d, Targets(be, jx, bc), s, m);
      Emitted(
        Join(s, d, jc, m, 0) + [TARGET(bc)] + x.code + (if c.Some? then [BRANCH(jx)] else []) + y.code
        + [JUMP(bc), TARGET(jx)] + Join(s, y.d, jx, m, 0) + [TARGET(be)],
        Merge(s, jx, m))
    case For(init, c, next, body, jc, bc, bb, jn, bn, jx, be) =>
      var w := Emit(init, d, ts, s, m);
      var h := Merge(s, jc, m);
      var x := if c.Some? then Emit(c.value, h, ts, s, m) else Emitted([], h);
      var y := Emit(body, x.d, Targets(be, jx, if next.Some? then bn else bc), s, m);
      var z := if next.Some? then Emit(next.value, y.d, ts, s, m) else Emitted([], y.d);
      Emitted(
        w.code + Join(s, w.d, jc, m, 0) + [TARGET(bc)] + x.code + (if c.Some? then [BRANCH(jx)] else []) + y.code
        + (if next.Some? then [TARGET(bn)] + z.code else []) + [JUMP(bc), TARGET(jx)]
        + Join(s, z.d, jx, m, 0) + [TARGET(be)],
        Merge(s, jx, m))
    case Break(e) =>
      var x := Emit(e, d, ts, s, m);
      Emitted(x.code + Join(s, x.d, ts.breakJunction, m, 0) + [JUMP(ts.onBreak)], x.d)
    case Continue => Emitted([JUMP(ts.onContinue)], d)
    case Return(e) =>
      var x := Emit(e, d, ts, s, m);
      Emitted(x.code + [RETURN], x.d)
  }

  // ----- The machine -----

  datatype Slot = Garbage | Nul | Assigned

  datatype Machine = Machine(pc: nat, slots: seq<Slot>)

  /** Any condition may turn out either way. */
  ghost predicate Step(code: Code, a: Machine, b: Machine) {
    && a.pc < |code|
    && match code[a.pc]
       case READ(i) => b == a.(pc := a.pc + 1)
       case CALL(i) => b == a.(pc := a.pc + 1)
       case WRITE(i) => i < |a.slots| && b == Machine(a.pc + 1, a.slots[i := Assigned])
       case NUL(i) => i < |a.slots| && b == Machine(a.pc + 1, a.slots[i := Nul])
       case BRANCH(l) => b.slots == a.slots && (b.pc == a.pc + 1 || (b.pc < |code| && code[b.pc] == TARGET(l)))
       case JUMP(l) => b.slots == a.slots && b.pc < |code| && code[b.pc] == TARGET(l)
       case TARGET(l) => b == a.(pc := a.pc + 1)
       case RETURN => false
  }

  /** The next instruction reads no garbage. */
  ghost predicate Reads(code: Code, a: Machine) {
    a.pc < |code| ==>
      match code[a.pc]
      case READ(i) => i < |a.slots| && a.slots[i] != Garbage
      case CALL(i) => i < |a.slots| && a.slots[i] != Garbage
      case _ => true
  }

  /** The next instruction clears no value. */
  ghost predicate Spares(code: Code, a: Machine) {
    a.pc < |code| && code[a.pc].NUL? ==> code[a.pc].i < |a.slots| && a.slots[code[a.pc].i] != Assigned
  }

  ghost predicate IsRun(code: Code, m: nat, run: seq<Machine>) {
    && run != [] && run[0].pc == 0 && |run[0].slots| == m && (forall i :: 0 <= i < m ==> run[0].slots[i] == Garbage)
    && forall k :: 0 < k < |run| ==> Step(code, run[k - 1], run[k])
  }

  // ----- A check of the code -----

  /** The variables that may have been assigned and those that are initialised. */
  datatype Known = Known(written: set<nat>, ready: set<nat>)

  ghost predicate Below(a: Known, b: Known) {
    a.written <= b.written && b.ready <= a.ready
  }

  ghost predicate Fits(slots: seq<Slot>, a: Known) {
    && (forall i :: 0 <= i < |slots| && slots[i] == Assigned ==> i in a.written)
    && forall i :: 0 <= i < |slots| && i in a.ready ==> slots[i] != Garbage
  }

  /** If `strict`, what is read has to be initialised. */
  ghost predicate Allowed(x: Instruction, a: Option<Known>, lab: map<nat, Known>, m: nat, strict: bool) {
    a.Some? ==>
      match x
      case READ(i) => i < m && (strict ==> i in a.value.ready)
      case CALL(i) => i < m && (strict ==> i in a.value.ready)
      case WRITE(i) => i < m
      case NUL(i) => i < m && i !in a.value.written
      case BRANCH(l) => l in lab && Below(a.value, lab[l])
      case JUMP(l) => l in lab && Below(a.value, lab[l])
      case TARGET(l) => l in lab && Below(a.value, lab[l])
      case RETURN => true
  }

  ghost function After(x: Instruction, a: Option<Known>, lab: map<nat, Known>): Option<Known> {
    match x
    case TARGET(l) => if l in lab then Some(lab[l]) else None
    case JUMP(l) => None
    case RETURN => None
    case WRITE(i) => if a.None? then None else Some(Known(a.value.written + {i}, a.value.ready + {i}))
    case NUL(i) => if a.None? then None else Some(Known(a.value.written, a.value.ready + {i}))
    case _ => a
  }

  /** What is known at the end of the code. */
  ghost function End(code: Code, a: Option<Known>, lab: map<nat, Known>): Option<Known> {
    if code == [] then a else End(code[1..], After(code[0], a, lab), lab)
  }

  ghost predicate Checks(code: Code, a: Option<Known>, lab: map<nat, Known>, m: nat, strict: bool) {
    code == [] || (Allowed(code[0], a, lab, m, strict) && (code[0].TARGET? ==> code[0].l in lab)
                   && Checks(code[1..], After(code[0], a, lab), lab, m, strict))
  }

  lemma {:induction false} ChecksJoin(c1: Code, c2: Code, a: Option<Known>, lab: map<nat, Known>, m: nat, strict: bool)
    ensures Checks(c1 + c2, a, lab, m, strict) <==> Checks(c1, a, lab, m, strict) && Checks(c2, End(c1, a, lab), lab, m, strict)
    ensures End(c1 + c2, a, lab) == End(c2, End(c1, a, lab), lab)
  {
    if c1 == [] {
      assert c1 + c2 == c2;
    } else {
      ChecksJoin(c1[1..], c2, After(c1[0], a, lab), lab, m, strict);
      assert (c1 + c2)[1..] == c1[1..] + c2 && (c1 + c2)[0] == c1[0];
    }
  }

  /** In code that checks, what is known before each instruction allows it. */
  lemma ChecksAt(code: Code, a: Option<Known>, lab: map<nat, Known>, m: nat, strict: bool, k: nat)
    requires Checks(code, a, lab, m, strict) && k < |code|
    ensures Allowed(code[k], End(code[..k], a, lab), lab, m, strict) && (code[k].TARGET? ==> code[k].l in lab)
    ensures End(code[..k + 1], a, lab) == After(code[k], End(code[..k], a, lab), lab)
  {
    assert code == code[..k] + code[k..] && code[k..][0] == code[k];
    ChecksJoin(code[..k], code[k..], a, lab, m, strict);
    assert code[..k + 1] == code[..k] + [code[k]];
    ChecksJoin(code[..k], [code[k]], a, lab, m, strict);
    assert [code[k]][1..] == [];
    assert End([], After(code[k], End(code[..k], a, lab), lab), lab) == After(code[k], End(code[..k], a, lab), lab);
  }

  /** The machine agrees with what is known where it stands, or with the label it
      has jumped to. */
  ghost predicate Agrees(code: Code, a: Option<Known>, lab: map<nat, Known>, m: nat, x: Machine) {
    && |x.slots| == m && x.pc <= |code|
    && (|| (End(code[..x.pc], a, lab).Some? && Fits(x.slots, End(code[..x.pc], a, lab).value))
        || (x.pc < |code| && code[x.pc].TARGET? && code[x.pc].l in lab && Fits(x.slots, lab[code[x.pc].l])))
  }

  lemma AgreesSound(code: Code, a: Option<Known>, lab: map<nat, Known>, m: nat, strict: bool, x: Machine)
    requires Checks(code, a, lab, m, strict) && Agrees(code, a, lab, m, x)
    ensures Spares(code, x) && (strict ==> Reads(code, x))
  {
    if x.pc < |code| {
      ChecksAt(code, a, lab, m, strict, x.pc);
    }
  }

  lemma AgreesStep(code: Code, a: Option<Known>, lab: map<nat, Known>, m: nat, strict: bool, x: Machine, y: Machine)
    requires Checks(code, a, lab, m, strict) && Agrees(code, a, lab, m, x) && Step(code, x, y)
    ensures Agrees(code, a, lab, m, y)
  {
    hide Checks, End;
    ChecksAt(code, a, lab, m, strict, x.pc);
    assert code[..x.pc + 1] == code[..x.pc] + [code[x.pc]];
  }

  /** Code that checks clears no value in any run, and reads no garbage if the check
      is strict. */
  lemma {:induction false} ChecksSound(code: Code, lab: map<nat, Known>, m: nat, strict: bool, a: Option<Known>, run: seq<Machine>,
                                       k: nat)
    requires a == Some(Known({}, {})) && Checks(code, a, lab, m, strict) && IsRun(code, m, run) && k < |run|
    ensures Agrees(code, a, lab, m, run[k]) && Spares(code, run[k]) && (strict ==> Reads(code, run[k]))
  {
    if k == 0 {
      assert code[..0] == [];
      assert Agrees(code, a, lab, m, run[0]);
    } else {
      ChecksSound(code, lab, m, strict, a, run, k - 1);
      AgreesStep(code, a, lab, m, strict, run[k - 1], run[k]);
    }
    AgreesSound(code, a, lab, m, strict, run[k]);
  }
}
