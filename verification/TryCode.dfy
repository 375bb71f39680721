/** The code for `try` and the jumps. */
module TryCode {
  import opened Options
  import opened Trying

  /** What of the targets decides the form of the code: whether there are jumps and
      returns, where on the stack their values go, and whether a `break` has one. */
  datatype Shape = Shape(jumping: bool, breakStack: nat, clears: bool, returning: bool, returnStack: nat, tail: bool)

  datatype Targets = Targets(onBreak: nat, onContinue: nat, onReturn: nat)

  /** In a part of a `try` jumps leave their values where its own would be. */
  function Inner(h: Shape, s: nat): Shape {
    Shape(h.jumping, s, h.clears, h.returning, s, false)
  }

  function InLoop(h: Shape, s: nat, clear: bool): Shape {
    Shape(true, s, clear, h.returning, h.returnStack, h.tail)
  }

  const OUTSIDE := Shape(false, 0, false, false, 0, false)

  /** After a `finally` the value has to be moved to where the jump wants it. */
  predicate MovesBreak(h: Shape, s: nat) {
    h.jumping && !h.clears && s > h.breakStack
  }

  predicate MovesReturn(h: Shape, s: nat) {
    h.returning && s > h.returnStack
  }

  function MoveSize(h: Shape, s: nat): nat {
    if MovesBreak(h, s) || MovesReturn(h, s)
    then 1 + (if MovesBreak(h, s) then 2 else 0) + if MovesReturn(h, s) then 2 else 0
    else 0
  }

  function Size(n: Node, s: nat, clear: bool, h: Shape): nat
    decreases n
  {
    match n
    case Null => if clear then 0 else 1
    case Do(_) => 1
    case Apply(_, a, b) => Size(a, s, false, h) + Size(b, s + 1, false, h) + 1
    case Put(_, a) => Size(a, s, false, h) + 1
    case Then(a, b) => Size(a, s, true, h) + Size(b, s, clear, h)
    case If(c, t, f) => Size(c, s, false, h) + 1 + Size(t, s, clear, h) + 1 + Size(f, s, clear, h)
    case While(c, body) => Size(c, s, false, h) + 1 + Size(body, s, true, InLoop(h, s, clear)) + 1 + if clear then 0 else 1
    case Break(e) => Size(e, h.breakStack, h.clears, h) + 1
    case Continue => 1
    case Return(e) => Size(e, h.returnStack, false, h) + 1
    case Throw(e) => Size(e, s, false, h) + 1
    case Try(body, cs, last) =>
      1 + Size(body, s, clear, Inner(h, s)) + 1 + CatchSize(cs, s, clear, Inner(h, s)) + 4 + LastSize(last, s) + 1
      + MoveSize(h, s)
  }

  function CatchSize(cs: Catches, s: nat, clear: bool, h: Shape): nat
    decreases cs
  {
    match cs
    case NoCatch => 0
    case Catch(kind, _, body, rest) => Size(kind, s, false, h) + 1 + Size(body, s, clear, h) + 1 + CatchSize(rest, s, clear, h)
  }

  function LastSize(last: Option<Node>, s: nat): nat
    decreases last
  {
    if last.Some? then Size(last.value, s + 1, true, OUTSIDE) else 0
  }

  /** Where the parts of a `try` that begins at `p` are: the clauses, the ends for a
      throw and, next to it, for jumps, the `finally`, and the end. */
  datatype Marks = Marks(onCatch: nat, ends: nat, onFinally: nat, yrt: nat, onBreak: nat, onReturn: nat, step: nat)

  function MarksOf(n: Node, p: nat, s: nat, clear: bool, h: Shape): Marks
    requires n.Try?
  {
    var onCatch := p + 1 + Size(n.body, s, clear, Inner(h, s)) + 1;
    var ends := onCatch + CatchSize(n.catches, s, clear, Inner(h, s));
    var yrt := ends + 4 + LastSize(n.last, s);
    Marks(onCatch, ends, ends + 4, yrt, yrt + 2, if MovesBreak(h, s) then yrt + 4 else yrt + 2, yrt + 1 + MoveSize(h, s))
  }

  function Row(a: Code, x: Instruction, b: Code): (r: Code)
    ensures |r| == |a| + 1 + |b|
  {
    a + [x] + b
  }

  function Cat(a: Code, b: Code): (r: Code)
    ensures |r| == |a| + |b|
  {
    a + b
  }

  /** f_emit of all the nodes, at the address `p`; `s` is v_stack. */
  function Emit(n: Node, p: nat, s: nat, clear: bool, h: Shape, ts: Targets): Code
    decreases n
  {
    match n
    case Null => if clear then [] else [NUL(s)]
    case Do(op) => [DO(op, s)]
    case Apply(op, a, b) =>
      Row(Cat(Emit(a, p, s, false, h, ts), Emit(b, p + Size(a, s, false, h), s + 1, false, h, ts)), APPLY(op, s), [])
    case Put(i, a) => Row(Emit(a, p, s, false, h, ts), PUT(s, i), [])
    case Then(a, b) => Cat(Emit(a, p, s, true, h, ts), Emit(b, p + Size(a, s, true, h), s, clear, h, ts))
    case If(c, t, f) =>
      var pt := p + Size(c, s, false, h) + 1;
      var pf := pt + Size(t, s, clear, h) + 1;
      Row(Row(Emit(c, p, s, false, h, ts), BRANCH(s, pf), Emit(t, pt, s, clear, h, ts)), JUMP(pf + Size(f, s, clear, h)),
          Emit(f, pf, s, clear, h, ts))
    case While(c, body) =>
      var pb := p + Size(c, s, false, h) + 1;
      var px := pb + Size(body, s, true, InLoop(h, s, clear)) + 1;
      var ts' := Targets(if clear then px else px + 1, p, ts.onReturn);
      Row(Row(Emit(c, p, s, false, h, ts), BRANCH(s, px), Emit(body, pb, s, true, InLoop(h, s, clear), ts')), JUMP(p),
          if clear then [] else [NUL(s)])
    case Break(e) => Row(Emit(e, p, h.breakStack, h.clears, h, ts), JUMP(ts.onBreak), [])
    case Continue => [JUMP(ts.onContinue)]
    case Return(e) =>
      Row(Emit(e, p, h.returnStack, false, h, ts), if h.tail then RETURN(h.returnStack) else JUMP(ts.onReturn), [])
    case Throw(e) => Row(Emit(e, p, s, false, h, ts), THROW(s), [])
    case Try(body, cs, last) =>
      var k := MarksOf(n, p, s, clear, h);
      var h', ts' := Inner(h, s), Targets(k.ends + 1, k.ends + 2, k.ends + 3);
      var front := Row(Row([], TRY(s, k.onCatch, k.onFinally), Emit(body, p + 1, s, clear, h', ts')), FINALLY(STEP),
                       EmitCatches(cs, k.onCatch, s, clear, h', ts'));
      Row(Cat(Cat(front, ENDS), EmitLast(last, k.onFinally, s)), Resumption(h, s, ts, k), Moves(h, s, ts, k))
  }

  const ENDS := [FINALLY(THROWING), FINALLY(BREAKING), FINALLY(CONTINUING), FINALLY(RETURNING)]

  function EmitLast(last: Option<Node>, p: nat, s: nat): Code
    decreases last
  {
    if last.Some? then Emit(last.value, p, s + 1, true, OUTSIDE, Targets(0, 0, 0)) else []
  }

  function EmitCatches(cs: Catches, p: nat, s: nat, clear: bool, h: Shape, ts: Targets): Code
    decreases cs
  {
    match cs
    case NoCatch => []
    case Catch(kind, i, body, rest) =>
      var pb := p + Size(kind, s, false, h) + 1;
      var pr := pb + Size(body, s, clear, h) + 1;
      Row(Row(Emit(kind, p, s, false, h, ts), CATCH(pr, i), Emit(body, pb, s, clear, h, ts)), FINALLY(STEP),
          EmitCatches(rest, pr, s, clear, h, ts))
  }

  function Resumption(h: Shape, s: nat, ts: Targets, k: Marks): Instruction {
    YRT(if !h.jumping then None else Some(if MovesBreak(h, s) then k.onBreak else ts.onBreak),
        if !h.jumping then None else Some(ts.onContinue),
        if !h.returning then None else Some(if MovesReturn(h, s) then k.onReturn else ts.onReturn))
  }

  function Moves(h: Shape, s: nat, ts: Targets, k: Marks): (r: Code)
    ensures |r| == MoveSize(h, s)
  {
    (if MovesBreak(h, s) || MovesReturn(h, s) then [JUMP(k.step)] else [])
    + (if MovesBreak(h, s) then [GET(h.breakStack, s), JUMP(ts.onBreak)] else [])
    + if MovesReturn(h, s) then [GET(h.returnStack, s), JUMP(ts.onReturn)] else []
  }

  // ----- Code in its place -----

  predicate Is(code: Code, p: nat, x: Instruction) {
    p < |code| && code[p] == x
  }

  /** The code of the node is found at `p`. */
  ghost predicate Laid(code: Code, n: Node, p: nat, s: nat, clear: bool, h: Shape, ts: Targets)
    decreases n
  {
    match n
    case Null => clear || Is(code, p, NUL(s))
    case Do(op) => Is(code, p, DO(op, s))
    case Apply(op, a, b) =>
      var pb := p + Size(a, s, false, h);
      && Laid(code, a, p, s, false, h, ts) && Laid(code, b, pb, s + 1, false, h, ts)
      && Is(code, pb + Size(b, s + 1, false, h), APPLY(op, s))
    case Put(i, a) => Laid(code, a, p, s, false, h, ts) && Is(code, p + Size(a, s, false, h), PUT(s, i))
    case Then(a, b) => Laid(code, a, p, s, true, h, ts) && Laid(code, b, p + Size(a, s, true, h), s, clear, h, ts)
    case If(c, t, f) =>
      var pt := p + Size(c, s, false, h) + 1;
      var pf := pt + Size(t, s, clear, h) + 1;
      && Laid(code, c, p, s, false, h, ts) && Is(code, pt - 1, BRANCH(s, pf)) && Laid(code, t, pt, s, clear, h, ts)
      && Is(code, pf - 1, JUMP(pf + Size(f, s, clear, h))) && Laid(code, f, pf, s, clear, h, ts)
    case While(c, body) =>
      var pb := p + Size(c, s, false, h) + 1;
      var px := pb + Size(body, s, true, InLoop(h, s, clear)) + 1;
      && Laid(code, c, p, s, false, h, ts) && Is(code, pb - 1, BRANCH(s, px))
      && Laid(code, body, pb, s, true, InLoop(h, s, clear), Targets(if clear then px else px + 1, p, ts.onReturn))
      && Is(code, px - 1, JUMP(p)) && (clear || Is(code, px, NUL(s)))
    case Break(e) => Laid(code, e, p, h.breakStack, h.clears, h, ts) && Is(code, p + Size(e, h.breakStack, h.clears, h), JUMP(ts.onBreak))
    case Continue => Is(code, p, JUMP(ts.onContinue))
    case Return(e) =>
      && Laid(code, e, p, h.returnStack, false, h, ts)
      && Is(code, p + Size(e, h.returnStack, false, h), if h.tail then RETURN(h.returnStack) else JUMP(ts.onReturn))
    case Throw(e) => Laid(code, e, p, s, false, h, ts) && Is(code, p + Size(e, s, false, h), THROW(s))
    case Try(body, cs, last) =>
      var k := MarksOf(n, p, s, clear, h);
      var ts' := Targets(k.ends + 1, k.ends + 2, k.ends + 3);
      && Is(code, p, TRY(s, k.onCatch, k.onFinally)) && Laid(code, body, p + 1, s, clear, Inner(h, s), ts')
      && Is(code, k.onCatch - 1, FINALLY(STEP)) && LaidCatches(code, cs, k.onCatch, s, clear, Inner(h, s), ts')
      && LaidEnds(code, k.ends) && LaidLast(code, last, k.onFinally, s)
      && Is(code, k.yrt, Resumption(h, s, ts, k)) && Moved(code, s, h, ts, k)
  }

  ghost predicate LaidCatches(code: Code, cs: Catches, p: nat, s: nat, clear: bool, h: Shape, ts: Targets)
    decreases cs
  {
    match cs
    case NoCatch => true
    case Catch(kind, i, body, rest) =>
      var pb := p + Size(kind, s, false, h) + 1;
      var pr := pb + Size(body, s, clear, h) + 1;
      && Laid(code, kind, p, s, false, h, ts) && Is(code, pb - 1, CATCH(pr, i)) && Laid(code, body, pb, s, clear, h, ts)
      && Is(code, pr - 1, FINALLY(STEP)) && LaidCatches(code, rest, pr, s, clear, h, ts)
  }

  ghost predicate Moved(code: Code, s: nat, h: Shape, ts: Targets, k: Marks) {
    && (MovesBreak(h, s) || MovesReturn(h, s) ==> Is(code, k.yrt + 1, JUMP(k.step)))
    && (MovesBreak(h, s) ==> Is(code, k.onBreak, GET(h.breakStack, s)) && Is(code, k.onBreak + 1, JUMP(ts.onBreak)))
    && (MovesReturn(h, s) ==> Is(code, k.onReturn, GET(h.returnStack, s)) && Is(code, k.onReturn + 1, JUMP(ts.onReturn)))
  }

  ghost predicate Holds(code: Code, p: nat, c: Code) {
    p + |c| <= |code| && code[p..p + |c|] == c
  }

  lemma HoldsCat(code: Code, p: nat, a: Code, b: Code)
    requires Holds(code, p, Cat(a, b))
    ensures Holds(code, p, a) && Holds(code, p + |a|, b)
  {
    var c := a + b;
    assert code[p..p + |a|] == c[..|a|] && code[p + |a|..p + |c|] == c[|a|..];
  }

  lemma HoldsRow(code: Code, p: nat, a: Code, x: Instruction, b: Code)
    requires Holds(code, p, Row(a, x, b))
    ensures Holds(code, p, a) && Is(code, p + |a|, x) && Holds(code, p + |a| + 1, b)
  {
    var c := a + [x] + b;
    assert code[p..p + |a|] == c[..|a|] && code[p + |a|] == c[|a|] && code[p + |a| + 1..p + |c|] == c[|a| + 1..];
  }

  lemma HoldsOne(code: Code, p: nat, x: Instruction)
    requires Holds(code, p, [x])
    ensures Is(code, p, x)
  {
    assert code[p..p + 1][0] == code[p];
  }

  ghost predicate LaidLast(code: Code, last: Option<Node>, p: nat, s: nat)
    decreases last
  {
    last.Some? ==> Laid(code, last.value, p, s + 1, true, OUTSIDE, Targets(0, 0, 0))
  }

  ghost predicate LaidEnds(code: Code, p: nat) {
    && Is(code, p, FINALLY(THROWING)) && Is(code, p + 1, FINALLY(BREAKING))
    && Is(code, p + 2, FINALLY(CONTINUING)) && Is(code, p + 3, FINALLY(RETURNING))
  }

  // ----- The emitted code, one level at a time -----

  /** The part, its stack, whether it has a value, and the instruction after it. */
  datatype Tail = Tail(e: Node, s: nat, clear: bool, x: Instruction)

  function TailOf(n: Node, s: nat, h: Shape, ts: Targets): Tail
    requires n.Put? || n.Break? || n.Return? || n.Throw?
  {
    match n
    case Put(i, a) => Tail(a, s, false, PUT(s, i))
    case Break(e) => Tail(e, h.breakStack, h.clears, JUMP(ts.onBreak))
    case Return(e) => Tail(e, h.returnStack, false, if h.tail then RETURN(h.returnStack) else JUMP(ts.onReturn))
    case Throw(e) => Tail(e, s, false, THROW(s))
  }

  lemma ApplyText(n: Node, p: nat, s: nat, clear: bool, h: Shape, ts: Targets)
    requires n.Apply?
    ensures Emit(n, p, s, clear, h, ts) ==
      Row(Cat(Emit(n.a, p, s, false, h, ts), Emit(n.b, p + Size(n.a, s, false, h), s + 1, false, h, ts)), APPLY(n.op, s), [])
  {
    hide Row, Cat, Size, Laid;
  }

  lemma ThenText(n: Node, p: nat, s: nat, clear: bool, h: Shape, ts: Targets)
    requires n.Then?
    ensures Emit(n, p, s, clear, h, ts) ==
      Cat(Emit(n.a, p, s, true, h, ts), Emit(n.b, p + Size(n.a, s, true, h), s, clear, h, ts))
  {
    hide Row, Cat, Size, Laid;
  }

  lemma IfText(n: Node, p: nat, s: nat, clear: bool, h: Shape, ts: Targets)
    requires n.If?
    ensures var pt := p + Size(n.c, s, false, h) + 1;
      var pf := pt + Size(n.t, s, clear, h) + 1;
      Emit(n, p, s, clear, h, ts) ==
      Row(Row(Emit(n.c, p, s, false, h, ts), BRANCH(s, pf), Emit(n.t, pt, s, clear, h, ts)),
          JUMP(pf + Size(n.f, s, clear, h)), Emit(n.f, pf, s, clear, h, ts))
  {
    hide Row, Cat, Size, Laid;
  }

  lemma WhileText(n: Node, p: nat, s: nat, clear: bool, h: Shape, ts: Targets)
    requires n.While?
    ensures var pb := p + Size(n.c, s, false, h) + 1;
      var px := pb + Size(n.body, s, true, InLoop(h, s, clear)) + 1;
      var ts' := Targets(if clear then px else px + 1, p, ts.onReturn);
      Emit(n, p, s, clear, h, ts) ==
      Row(Row(Emit(n.c, p, s, false, h, ts), BRANCH(s, px), Emit(n.body, pb, s, true, InLoop(h, s, clear), ts')), JUMP(p),
          if clear then [] else [NUL(s)])
  {
    hide Row, Cat, Size, Laid, InLoop;
  }

  lemma TailText(n: Node, p: nat, s: nat, clear: bool, h: Shape, ts: Targets)
    requires n.Put? || n.Break? || n.Return? || n.Throw?
    ensures var k := TailOf(n, s, h, ts); Emit(n, p, s, clear, h, ts) == Row(Emit(k.e, p, k.s, k.clear, h, ts), k.x, [])
  {
    hide Row, Cat, Size, Laid;
  }

  lemma TryText(n: Node, p: nat, s: nat, clear: bool, h: Shape, ts: Targets)
    requires n.Try?
    ensures var k := MarksOf(n, p, s, clear, h);
      var h', ts' := Inner(h, s), Targets(k.ends + 1, k.ends + 2, k.ends + 3);
      var front := Row(Row([], TRY(s, k.onCatch, k.onFinally), Emit(n.body, p + 1, s, clear, h', ts')), FINALLY(STEP),
                       EmitCatches(n.catches, k.onCatch, s, clear, h', ts'));
      Emit(n, p, s, clear, h, ts) ==
      Row(Cat(Cat(front, ENDS), EmitLast(n.last, k.onFinally, s)), Resumption(h, s, ts, k), Moves(h, s, ts, k))
  {
    hide Row, Cat, Size, Laid, Resumption, Moves, EmitLast, EmitCatches, MarksOf;
  }

  lemma CatchText(cs: Catches, p: nat, s: nat, clear: bool, h: Shape, ts: Targets)
    requires cs.Catch?
    ensures var pb := p + Size(cs.kind, s, false, h) + 1;
      var pr := pb + Size(cs.body, s, clear, h) + 1;
      EmitCatches(cs, p, s, clear, h, ts) ==
      Row(Row(Emit(cs.kind, p, s, false, h, ts), CATCH(pr, cs.i), Emit(cs.body, pb, s, clear, h, ts)), FINALLY(STEP),
          EmitCatches(cs.rest, pr, s, clear, h, ts))
  {
    hide Row, Cat, Size, Laid, Emit;
  }

  // ----- Sizes, one level at a time -----

  lemma ApplySize(n: Node, s: nat, clear: bool, h: Shape)
    requires n.Apply?
    ensures Size(n, s, clear, h) == Size(n.a, s, false, h) + Size(n.b, s + 1, false, h) + 1
  {
  }

  lemma ThenSize(n: Node, s: nat, clear: bool, h: Shape)
    requires n.Then?
    ensures Size(n, s, clear, h) == Size(n.a, s, true, h) + Size(n.b, s, clear, h)
  {
  }

  lemma IfSize(n: Node, s: nat, clear: bool, h: Shape)
    requires n.If?
    ensures Size(n, s, clear, h) == Size(n.c, s, false, h) + 1 + Size(n.t, s, clear, h) + 1 + Size(n.f, s, clear, h)
  {
  }

  lemma WhileSize(n: Node, s: nat, clear: bool, h: Shape)
    requires n.While?
    ensures Size(n, s, clear, h) ==
      Size(n.c, s, false, h) + 1 + Size(n.body, s, true, InLoop(h, s, clear)) + 1 + if clear then 0 else 1
  {
  }

  lemma TailSize(n: Node, s: nat, clear: bool, h: Shape, ts: Targets)
    requires n.Put? || n.Break? || n.Return? || n.Throw?
    ensures var k := TailOf(n, s, h, ts); Size(n, s, clear, h) == Size(k.e, k.s, k.clear, h) + 1
  {
  }

  lemma TrySize(n: Node, p: nat, s: nat, clear: bool, h: Shape)
    requires n.Try?
    ensures p + Size(n, s, clear, h) == MarksOf(n, p, s, clear, h).step
  {
    hide CatchSize, LastSize;
  }

  lemma CatchesSize(cs: Catches, s: nat, clear: bool, h: Shape)
    requires cs.Catch?
    ensures CatchSize(cs, s, clear, h) ==
      Size(cs.kind, s, false, h) + 1 + Size(cs.body, s, clear, h) + 1 + CatchSize(cs.rest, s, clear, h)
  {
    hide Size;
  }

  lemma AtomSize(n: Node, p: nat, s: nat, clear: bool, h: Shape, ts: Targets)
    requires n.Null? || n.Do? || n.Continue?
    ensures |Emit(n, p, s, clear, h, ts)| == Size(n, s, clear, h)
  {
  }

  lemma {:induction false} EmitSize(n: Node, p: nat, s: nat, clear: bool, h: Shape, ts: Targets)
    ensures |Emit(n, p, s, clear, h, ts)| == Size(n, s, clear, h)
    decreases n, 1
  {
    hide Emit, Row, Cat, Size;
    match n
    case Null => AtomSize(n, p, s, clear, h, ts);
    case Do(_) => AtomSize(n, p, s, clear, h, ts);
    case Continue => AtomSize(n, p, s, clear, h, ts);
    case Apply(_, a, b) =>
      ApplyText(n, p, s, clear, h, ts);
      ApplySize(n, s, clear, h);
      EmitSize(a, p, s, false, h, ts);
      EmitSize(b, p + Size(a, s, false, h), s + 1, false, h, ts);
    case Then(a, b) =>
      ThenText(n, p, s, clear, h, ts);
      ThenSize(n, s, clear, h);
      EmitSize(a, p, s, true, h, ts);
      EmitSize(b, p + Size(a, s, true, h), s, clear, h, ts);
    case If(c, t, f) =>
      IfText(n, p, s, clear, h, ts);
      IfSize(n, s, clear, h);
      var pt := p + Size(c, s, false, h) + 1;
      var pf := pt + Size(t, s, clear, h) + 1;
      EmitSize(c, p, s, false, h, ts);
      EmitSize(t, pt, s, clear, h, ts);
      EmitSize(f, pf, s, clear, h, ts);
    case While(c, body) =>
      WhileText(n, p, s, clear, h, ts);
      WhileSize(n, s, clear, h);
      var pb := p + Size(c, s, false, h) + 1;
      var px := pb + Size(body, s, true, InLoop(h, s, clear)) + 1;
      EmitSize(c, p, s, false, h, ts);
      EmitSize(body, pb, s, true, InLoop(h, s, clear), Targets(if clear then px else px + 1, p, ts.onReturn));
    case Try(_, _, _) => TryEmitSize(n, p, s, clear, h, ts);
    case _ =>
      TailText(n, p, s, clear, h, ts);
      TailSize(n, s, clear, h, ts);
      var k := TailOf(n, s, h, ts);
      EmitSize(k.e, p, k.s, k.clear, h, ts);
  }

  lemma TryEmitSize(n: Node, p: nat, s: nat, clear: bool, h: Shape, ts: Targets)
    requires n.Try?
    ensures |Emit(n, p, s, clear, h, ts)| == Size(n, s, clear, h)
    decreases n, 0
  {
    hide Emit, Row, Cat, Size, CatchSize, EmitCatches, Moves, MoveSize, Resumption;
    TryText(n, p, s, clear, h, ts);
    TrySize(n, p, s, clear, h);
    var k := MarksOf(n, p, s, clear, h);
    var h', ts' := Inner(h, s), Targets(k.ends + 1, k.ends + 2, k.ends + 3);
    EmitSize(n.body, p + 1, s, clear, h', ts');
    CatchesEmitSize(n.catches, k.onCatch, s, clear, h', ts');
    if n.last.Some? {
      EmitSize(n.last.value, k.onFinally, s + 1, true, OUTSIDE, Targets(0, 0, 0));
    }
  }

  lemma {:induction false} CatchesEmitSize(cs: Catches, p: nat, s: nat, clear: bool, h: Shape, ts: Targets)
    ensures |EmitCatches(cs, p, s, clear, h, ts)| == CatchSize(cs, s, clear, h)
    decreases cs, 1
  {
    hide Emit, Row, Cat, Size, CatchSize, EmitCatches;
    if cs.NoCatch? {
      NoCatchLaid([], p, s, clear, h, ts);
    } else {
      CatchText(cs, p, s, clear, h, ts);
      CatchesSize(cs, s, clear, h);
      var pb := p + Size(cs.kind, s, false, h) + 1;
      EmitSize(cs.kind, p, s, false, h, ts);
      EmitSize(cs.body, pb, s, clear, h, ts);
      CatchesEmitSize(cs.rest, pb + Size(cs.body, s, clear, h) + 1, s, clear, h, ts);
    }
  }

  lemma NoCatchLaid(code: Code, p: nat, s: nat, clear: bool, h: Shape, ts: Targets)
    ensures |EmitCatches(NoCatch, p, s, clear, h, ts)| == CatchSize(NoCatch, s, clear, h)
    ensures LaidCatches(code, NoCatch, p, s, clear, h, ts)
  {
  }

  // ----- The parts in their places, one level at a time -----

  lemma ApplyParts(code: Code, n: Node, p: nat, s: nat, clear: bool, h: Shape, ts: Targets)
    requires n.Apply?
    ensures var pb := p + Size(n.a, s, false, h);
      Laid(code, n, p, s, clear, h, ts) <==>
      Laid(code, n.a, p, s, false, h, ts) && Laid(code, n.b, pb, s + 1, false, h, ts)
      && Is(code, pb + Size(n.b, s + 1, false, h), APPLY(n.op, s))
  {
    hide Size, Is;
  }

  lemma ThenParts(code: Code, n: Node, p: nat, s: nat, clear: bool, h: Shape, ts: Targets)
    requires n.Then?
    ensures Laid(code, n, p, s, clear, h, ts) <==>
      Laid(code, n.a, p, s, true, h, ts) && Laid(code, n.b, p + Size(n.a, s, true, h), s, clear, h, ts)
  {
    hide Size, Is;
  }

  lemma IfParts(code: Code, n: Node, p: nat, s: nat, clear: bool, h: Shape, ts: Targets)
    requires n.If?
    ensures var pt := p + Size(n.c, s, false, h) + 1;
      var pf := pt + Size(n.t, s, clear, h) + 1;
      Laid(code, n, p, s, clear, h, ts) <==>
      Laid(code, n.c, p, s, false, h, ts) && Is(code, pt - 1, BRANCH(s, pf)) && Laid(code, n.t, pt, s, clear, h, ts)
      && Is(code, pf - 1, JUMP(pf + Size(n.f, s, clear, h))) && Laid(code, n.f, pf, s, clear, h, ts)
  {
    hide Size, Is;
  }

  lemma WhileParts(code: Code, n: Node, p: nat, s: nat, clear: bool, h: Shape, ts: Targets)
    requires n.While?
    ensures var pb := p + Size(n.c, s, false, h) + 1;
      var px := pb + Size(n.body, s, true, InLoop(h, s, clear)) + 1;
      var ts' := Targets(if clear then px else px + 1, p, ts.onReturn);
      Laid(code, n, p, s, clear, h, ts) <==>
      Laid(code, n.c, p, s, false, h, ts) && Is(code, pb - 1, BRANCH(s, px))
      && Laid(code, n.body, pb, s, true, InLoop(h, s, clear), ts')
      && Is(code, px - 1, JUMP(p)) && (clear || Is(code, px, NUL(s)))
  {
    hide Size, Is, InLoop;
  }

  lemma TailParts(code: Code, n: Node, p: nat, s: nat, clear: bool, h: Shape, ts: Targets)
    requires n.Put? || n.Break? || n.Return? || n.Throw?
    ensures var k := TailOf(n, s, h, ts);
      Laid(code, n, p, s, clear, h, ts) <==>
      Laid(code, k.e, p, k.s, k.clear, h, ts) && Is(code, p + Size(k.e, k.s, k.clear, h), k.x)
  {
    hide Size, Is;
  }

  lemma TryParts(code: Code, n: Node, p: nat, s: nat, clear: bool, h: Shape, ts: Targets)
    requires n.Try?
    ensures var k := MarksOf(n, p, s, clear, h);
      var h', ts' := Inner(h, s), Targets(k.ends + 1, k.ends + 2, k.ends + 3);
      Laid(code, n, p, s, clear, h, ts) <==>
      Is(code, p, TRY(s, k.onCatch, k.onFinally)) && Laid(code, n.body, p + 1, s, clear, h', ts')
      && Is(code, k.onCatch - 1, FINALLY(STEP)) && LaidCatches(code, n.catches, k.onCatch, s, clear, h', ts')
      && LaidEnds(code, k.ends) && LaidLast(code, n.last, k.onFinally, s)
      && Is(code, k.yrt, Resumption(h, s, ts, k)) && Moved(code, s, h, ts, k)
  {
    hide Size, Is, LaidCatches, LaidEnds, LaidLast, Resumption, Moved, Inner;
  }

  lemma CatchParts(code: Code, cs: Catches, p: nat, s: nat, clear: bool, h: Shape, ts: Targets)
    requires cs.Catch?
    ensures var pb := p + Size(cs.kind, s, false, h) + 1;
      var pr := pb + Size(cs.body, s, clear, h) + 1;
      LaidCatches(code, cs, p, s, clear, h, ts) <==>
      Laid(code, cs.kind, p, s, false, h, ts) && Is(code, pb - 1, CATCH(pr, cs.i)) && Laid(code, cs.body, pb, s, clear, h, ts)
      && Is(code, pr - 1, FINALLY(STEP)) && LaidCatches(code, cs.rest, pr, s, clear, h, ts)
  {
    hide Size, Is, Laid;
  }

  lemma LastEmitSize(last: Option<Node>, p: nat, s: nat)
    ensures |EmitLast(last, p, s)| == LastSize(last, s)
  {
    if last.Some? {
      EmitSize(last.value, p, s + 1, true, OUTSIDE, Targets(0, 0, 0));
    }
  }

  // ----- The emitted code in its place -----

  /** The emitted code, put in its place, is the code of the node. */
  lemma AtomLaid(code: Code, n: Node, p: nat, s: nat, clear: bool, h: Shape, ts: Targets)
    requires (n.Null? || n.Do? || n.Continue?) && Holds(code, p, Emit(n, p, s, clear, h, ts))
    ensures Laid(code, n, p, s, clear, h, ts)
  {
    if !n.Null? || !clear {
      HoldsOne(code, p, Emit(n, p, s, clear, h, ts)[0]);
    }
  }

  lemma {:induction false} EmitLaid(code: Code, n: Node, p: nat, s: nat, clear: bool, h: Shape, ts: Targets)
    requires Holds(code, p, Emit(n, p, s, clear, h, ts))
    ensures Laid(code, n, p, s, clear, h, ts)
    decreases n, 1
  {
    hide Holds, Emit, Row, Cat, Size, Laid;
    match n
    case Null => AtomLaid(code, n, p, s, clear, h, ts);
    case Do(_) => AtomLaid(code, n, p, s, clear, h, ts);
    case Continue => AtomLaid(code, n, p, s, clear, h, ts);
    case Apply(_, a, b) =>
      ApplyText(n, p, s, clear, h, ts);
      ApplyParts(code, n, p, s, clear, h, ts);
      var pb := p + Size(a, s, false, h);
      var x, y := Emit(a, p, s, false, h, ts), Emit(b, pb, s + 1, false, h, ts);
      EmitSize(a, p, s, false, h, ts);
      EmitSize(b, pb, s + 1, false, h, ts);
      HoldsRow(code, p, Cat(x, y), APPLY(n.op, s), []);
      HoldsCat(code, p, x, y);
      EmitLaid(code, a, p, s, false, h, ts);
      EmitLaid(code, b, pb, s + 1, false, h, ts);
    case Then(a, b) =>
      ThenText(n, p, s, clear, h, ts);
      ThenParts(code, n, p, s, clear, h, ts);
      var pb := p + Size(a, s, true, h);
      EmitSize(a, p, s, true, h, ts);
      HoldsCat(code, p, Emit(a, p, s, true, h, ts), Emit(b, pb, s, clear, h, ts));
      EmitLaid(code, a, p, s, true, h, ts);
      EmitLaid(code, b, pb, s, clear, h, ts);
    case If(_, _, _) => IfLaid(code, n, p, s, clear, h, ts);
    case While(_, _) => WhileLaid(code, n, p, s, clear, h, ts);
    case Try(_, _, _) => TryLaid(code, n, p, s, clear, h, ts);
    case _ =>
      TailText(n, p, s, clear, h, ts);
      TailParts(code, n, p, s, clear, h, ts);
      var k := TailOf(n, s, h, ts);
      EmitSize(k.e, p, k.s, k.clear, h, ts);
      HoldsRow(code, p, Emit(k.e, p, k.s, k.clear, h, ts), k.x, []);
      EmitLaid(code, k.e, p, k.s, k.clear, h, ts);
  }

  lemma IfLaid(code: Code, n: Node, p: nat, s: nat, clear: bool, h: Shape, ts: Targets)
    requires n.If? && Holds(code, p, Emit(n, p, s, clear, h, ts))
    ensures Laid(code, n, p, s, clear, h, ts)
    decreases n, 0
  {
    hide Holds, Emit, Row, Cat, Size, Laid;
    IfText(n, p, s, clear, h, ts);
    IfParts(code, n, p, s, clear, h, ts);
    var pt := p + Size(n.c, s, false, h) + 1;
    var pf := pt + Size(n.t, s, clear, h) + 1;
    var x, y := Emit(n.c, p, s, false, h, ts), Emit(n.t, pt, s, clear, h, ts);
    EmitSize(n.c, p, s, false, h, ts);
    EmitSize(n.t, pt, s, clear, h, ts);
    HoldsRow(code, p, Row(x, BRANCH(s, pf), y), JUMP(pf + Size(n.f, s, clear, h)), Emit(n.f, pf, s, clear, h, ts));
    HoldsRow(code, p, x, BRANCH(s, pf), y);
    EmitLaid(code, n.c, p, s, false, h, ts);
    EmitLaid(code, n.t, pt, s, clear, h, ts);
    EmitLaid(code, n.f, pf, s, clear, h, ts);
  }

  lemma WhileLaid(code: Code, n: Node, p: nat, s: nat, clear: bool, h: Shape, ts: Targets)
    requires n.While? && Holds(code, p, Emit(n, p, s, clear, h, ts))
    ensures Laid(code, n, p, s, clear, h, ts)
    decreases n, 0
  {
    hide Holds, Emit, Row, Cat, Size, Laid;
    WhileText(n, p, s, clear, h, ts);
    WhileParts(code, n, p, s, clear, h, ts);
    var pb := p + Size(n.c, s, false, h) + 1;
    var px := pb + Size(n.body, s, true, InLoop(h, s, clear)) + 1;
    var ts' := Targets(if clear then px else px + 1, p, ts.onReturn);
    var x, y := Emit(n.c, p, s, false, h, ts), Emit(n.body, pb, s, true, InLoop(h, s, clear), ts');
    var z := if clear then [] else [NUL(s)];
    EmitSize(n.c, p, s, false, h, ts);
    EmitSize(n.body, pb, s, true, InLoop(h, s, clear), ts');
    HoldsRow(code, p, Row(x, BRANCH(s, px), y), JUMP(p), z);
    HoldsRow(code, p, x, BRANCH(s, px), y);
    if !clear {
      HoldsOne(code, px, NUL(s));
    }
    EmitLaid(code, n.c, p, s, false, h, ts);
    EmitLaid(code, n.body, pb, s, true, InLoop(h, s, clear), ts');
  }

  lemma TryHeld(code: Code, n: Node, p: nat, s: nat, clear: bool, h: Shape, ts: Targets)
    requires n.Try? && Holds(code, p, Emit(n, p, s, clear, h, ts))
    ensures var k := MarksOf(n, p, s, clear, h);
      var h', ts' := Inner(h, s), Targets(k.ends + 1, k.ends + 2, k.ends + 3);
      && Is(code, p, TRY(s, k.onCatch, k.onFinally)) && Holds(code, p + 1, Emit(n.body, p + 1, s, clear, h', ts'))
      && Is(code, k.onCatch - 1, FINALLY(STEP)) && Holds(code, k.onCatch, EmitCatches(n.catches, k.onCatch, s, clear, h', ts'))
      && Holds(code, k.ends, ENDS) && Holds(code, k.onFinally, EmitLast(n.last, k.onFinally, s))
      && Is(code, k.yrt, Resumption(h, s, ts, k)) && Holds(code, k.yrt + 1, Moves(h, s, ts, k))
  {
    hide Holds, Is, Resumption, Moves, Emit, Row, Cat, EmitCatches, CatchSize, EmitLast, LastSize, Size;
    TryText(n, p, s, clear, h, ts);
    var k := MarksOf(n, p, s, clear, h);
    var h', ts' := Inner(h, s), Targets(k.ends + 1, k.ends + 2, k.ends + 3);
    var x, y := Emit(n.body, p + 1, s, clear, h', ts'), EmitCatches(n.catches, k.onCatch, s, clear, h', ts');
    var a := Row([], TRY(s, k.onCatch, k.onFinally), x);
    var front := Row(a, FINALLY(STEP), y);
    var z := EmitLast(n.last, k.onFinally, s);
    EmitSize(n.body, p + 1, s, clear, h', ts');
    CatchesEmitSize(n.catches, k.onCatch, s, clear, h', ts');
    LastEmitSize(n.last, k.onFinally, s);
    HoldsRow(code, p, Cat(Cat(front, ENDS), z), Resumption(h, s, ts, k), Moves(h, s, ts, k));
    HoldsCat(code, p, Cat(front, ENDS), z);
    HoldsCat(code, p, front, ENDS);
    HoldsRow(code, p, a, FINALLY(STEP), y);
    HoldsRow(code, p, [], TRY(s, k.onCatch, k.onFinally), x);
  }

  lemma TryLaid(code: Code, n: Node, p: nat, s: nat, clear: bool, h: Shape, ts: Targets)
    requires n.Try? && Holds(code, p, Emit(n, p, s, clear, h, ts))
    ensures Laid(code, n, p, s, clear, h, ts)
    decreases n, 0
  {
    hide Holds, Is, Resumption, Moves, Moved, Emit, LaidEnds, EmitCatches, LaidCatches, CatchSize, EmitLast, LastSize, LaidLast,
      Size, Laid;
    TryHeld(code, n, p, s, clear, h, ts);
    TryParts(code, n, p, s, clear, h, ts);
    var k := MarksOf(n, p, s, clear, h);
    var h', ts' := Inner(h, s), Targets(k.ends + 1, k.ends + 2, k.ends + 3);
    EndsLaid(code, k.ends);
    MovesLaid(code, h, s, ts, k);
    EmitLaid(code, n.body, p + 1, s, clear, h', ts');
    CatchesLaid(code, n.catches, k.onCatch, s, clear, h', ts');
    LastLaid(code, n.last, k.onFinally, s);
  }

  lemma LastLaid(code: Code, last: Option<Node>, p: nat, s: nat)
    requires Holds(code, p, EmitLast(last, p, s))
    ensures LaidLast(code, last, p, s)
    decreases last, 2
  {
    if last.Some? {
      EmitLaid(code, last.value, p, s + 1, true, OUTSIDE, Targets(0, 0, 0));
    }
  }

  lemma EndsLaid(code: Code, p: nat)
    requires Holds(code, p, ENDS)
    ensures LaidEnds(code, p)
  {
    var c := code[p..p + 4];
    assert c[0] == code[p] && c[1] == code[p + 1] && c[2] == code[p + 2] && c[3] == code[p + 3];
  }

  lemma MovesLaid(code: Code, h: Shape, s: nat, ts: Targets, k: Marks)
    requires Holds(code, k.yrt + 1, Moves(h, s, ts, k))
    requires k.onBreak == k.yrt + 2 && k.onReturn == (if MovesBreak(h, s) then k.yrt + 4 else k.yrt + 2)
    ensures Moved(code, s, h, ts, k)
  {
    var c, b := Moves(h, s, ts, k), k.yrt + 1;
    forall i | 0 <= i < |c|
      ensures Is(code, b + i, c[i])
    {
      assert code[b..b + |c|][i] == code[b + i];
    }
    if c != [] {
      assert Is(code, b + 0, c[0]) && Is(code, b + 1, c[1]) && Is(code, b + 2, c[2]);
      if |c| > 3 {
        assert Is(code, b + 3, c[3]) && Is(code, b + 4, c[4]);
      }
    }
  }

  lemma CatchesLaid(code: Code, cs: Catches, p: nat, s: nat, clear: bool, h: Shape, ts: Targets)
    requires Holds(code, p, EmitCatches(cs, p, s, clear, h, ts))
    ensures LaidCatches(code, cs, p, s, clear, h, ts)
    decreases cs, 1
  {
    hide Holds, Emit, Laid, Size, Row, Cat, EmitCatches, LaidCatches;
    match cs
    case NoCatch => NoCatchLaid(code, p, s, clear, h, ts);
    case Catch(kind, i, body, rest) =>
      CatchText(cs, p, s, clear, h, ts);
      CatchParts(code, cs, p, s, clear, h, ts);
      var pb := p + Size(kind, s, false, h) + 1;
      var pr := pb + Size(body, s, clear, h) + 1;
      var x, y, z := Emit(kind, p, s, false, h, ts), Emit(body, pb, s, clear, h, ts), EmitCatches(rest, pr, s, clear, h, ts);
      EmitSize(kind, p, s, false, h, ts);
      EmitSize(body, pb, s, clear, h, ts);
      HoldsRow(code, p, Row(x, CATCH(pr, i), y), FINALLY(STEP), z);
      HoldsRow(code, p, x, CATCH(pr, i), y);
      EmitLaid(code, kind, p, s, false, h, ts);
      EmitLaid(code, body, pb, s, clear, h, ts);
      CatchesLaid(code, rest, pr, s, clear, h, ts);
  }
}
