/** The flow graph of a whole scope: every block can be reached from the entry and
    leads to the exit. */
module FlowGraphs {
  import opened Options
  import opened Initialising
  import opened Flowing

  lemma MadeDone(o: Flowed, r: Parts, d: (nat, Firsts))
    requires Made(o, r)
    ensures d in o.done <==> d in r.w.done || d in r.x.done || d in r.y.done || d in r.z.done || d in r.ds
  {
    assert o.done == r.w.done + r.x.done + r.y.done + r.z.done + r.ds;
  }

  lemma MadeEdges(o: Flowed, r: Parts, e: (nat, nat))
    requires Made(o, r)
    ensures e in o.edges <==> e in r.w.edges || e in r.x.edges || e in r.y.edges || e in r.z.edges || e in r.es
  {
    assert o.edges == r.w.edges + r.x.edges + r.y.edges + r.z.edges + r.es;
  }

  /** All the complete blocks are in `s`. */
  ghost predicate DoneIn(o: Flowed, s: set<nat>) {
    forall d :: d in o.done ==> d.0 in s
  }

  lemma MadeDoneIn(o: Flowed, r: Parts, s: set<nat>)
    requires Made(o, r) && DoneIn(r.w, s) && DoneIn(r.x, s) && DoneIn(r.y, s) && DoneIn(r.z, s)
    requires forall i :: 0 <= i < |r.ds| ==> r.ds[i].0 in s
    ensures DoneIn(o, s)
  {
    forall d | d in o.done
      ensures d.0 in s
    {
      MadeDone(o, r, d);
    }
  }

  // ----- From the entry -----

  ghost predicate Follows(g: Scope, s: set<nat>) {
    forall e :: e in g.edges && e.0 in s ==> e.1 in s
  }

  lemma {:induction false} FlowForward(g: Scope, n: Node, b: nat, acc: Firsts, ends: Ends, s: set<nat>)
    requires Within(g, Flow(n, b, acc, ends)) && Follows(g, s) && b in s
    ensures Flow(n, b, acc, ends).cur in s && DoneIn(Flow(n, b, acc, ends), s)
    decreases n, 1
  {
    hide Follows, Within;
    match n
    case Operate(i, _, rest) =>
      OperateWithin(g, n, b, acc, ends);
      FlowForward(g, rest, b, Use(acc, i, false), ends, s);
    case Then(x, y) =>
      ThenWithin(g, n, b, acc, ends);
      var o := Flow(x, b, acc, ends);
      FlowForward(g, x, b, acc, ends, s);
      FlowForward(g, y, o.cur, o.acc, ends, s);
    case If(_, _, _, _, _, _, _) => IfForward(g, n, b, acc, ends, s);
    case While(_, _, _, _, _, _, _) => WhileForward(g, n, b, acc, ends, s);
    case For(_, _, _, _, _, _, _, _, _, _, _) => ForForward(g, n, b, acc, ends, s);
    case Break(e) =>
      JumpWithin(g, n, b, acc, ends);
      FlowForward(g, e, b, acc, ends, s);
    case Return(e) =>
      JumpWithin(g, n, b, acc, ends);
      FlowForward(g, e, b, acc, ends, s);
    case _ =>
  }

  lemma OptionForward(g: Scope, c: Option<Node>, b: nat, acc: Firsts, ends: Ends, s: set<nat>)
    requires Within(g, Flown(c, b, acc, ends)) && Follows(g, s) && b in s
    ensures Flown(c, b, acc, ends).cur in s && DoneIn(Flown(c, b, acc, ends), s)
    decreases c, 2
  {
    if c.Some? {
      FlowForward(g, c.value, b, acc, ends, s);
    }
  }

  lemma IfForward(g: Scope, n: Node, b: nat, acc: Firsts, ends: Ends, s: set<nat>)
    requires n.If? && Within(g, Flow(n, b, acc, ends)) && Follows(g, s) && b in s
    ensures Flow(n, b, acc, ends).cur in s && DoneIn(Flow(n, b, acc, ends), s)
    decreases n, 0
  {
    hide Flow, Made, Within, DoneIn;
    IfMade(n, b, acc, ends);
    IfWithin(g, n, b, acc, ends);
    OptionForward(g, n.c, b, acc, ends, s);
    FlowForward(g, n.t, n.blockTrue, map[], ends, s);
    FlowForward(g, n.f, n.blockFalse, map[], ends, s);
    NothingDone(s);
    MadeDoneIn(Flow(n, b, acc, ends), IfParts(n, b, acc, ends), s);
  }

  lemma NothingDone(s: set<nat>)
    ensures DoneIn(NOTHING, s)
  {
  }

  lemma WhileForward(g: Scope, n: Node, b: nat, acc: Firsts, ends: Ends, s: set<nat>)
    requires n.While? && Within(g, Flow(n, b, acc, ends)) && Follows(g, s) && b in s
    ensures Flow(n, b, acc, ends).cur in s && DoneIn(Flow(n, b, acc, ends), s)
    decreases n, 0
  {
    hide Flow, Made, Within, DoneIn;
    WhileMade(n, b, acc, ends);
    WhileWithin(g, n, b, acc, ends);
    OptionForward(g, n.c, n.blockCondition, map[], ends, s);
    FlowForward(g, n.body, n.blockBody, map[], WhileEnds(n, ends), s);
    NothingDone(s);
    MadeDoneIn(Flow(n, b, acc, ends), WhileParts(n, b, acc, ends), s);
  }

  lemma ForForward(g: Scope, n: Node, b: nat, acc: Firsts, ends: Ends, s: set<nat>)
    requires n.For? && Within(g, Flow(n, b, acc, ends)) && Follows(g, s) && b in s
    ensures Flow(n, b, acc, ends).cur in s && DoneIn(Flow(n, b, acc, ends), s)
    decreases n, 0
  {
    hide Flow, Made, Within, DoneIn;
    ForMade(n, b, acc, ends);
    ForWithin(g, n, b, acc, ends);
    FlowForward(g, n.init, b, acc, ends, s);
    OptionForward(g, n.c, n.blockCondition, map[], ends, s);
    FlowForward(g, n.body, n.blockBody, map[], ForEnds(n, ends), s);
    OptionForward(g, n.next, n.blockNext, map[], ends, s);
    MadeDoneIn(Flow(n, b, acc, ends), ForParts(n, b, acc, ends), s);
  }

  // ----- To the exit -----

  ghost predicate Precedes(g: Scope, s: set<nat>) {
    forall e :: e in g.edges && e.1 in s ==> e.0 in s
  }

  lemma {:induction false} FlowBackward(g: Scope, n: Node, b: nat, acc: Firsts, ends: Ends, s: set<nat>)
    requires Within(g, Flow(n, b, acc, ends)) && Precedes(g, s) && Flow(n, b, acc, ends).cur in s
    ensures b in s && DoneIn(Flow(n, b, acc, ends), s)
    decreases n, 1
  {
    hide Precedes, Within;
    match n
    case Operate(i, _, rest) =>
      OperateWithin(g, n, b, acc, ends);
      FlowBackward(g, rest, b, Use(acc, i, false), ends, s);
    case Then(x, y) =>
      ThenWithin(g, n, b, acc, ends);
      var o := Flow(x, b, acc, ends);
      FlowBackward(g, y, o.cur, o.acc, ends, s);
      FlowBackward(g, x, b, acc, ends, s);
    case If(_, _, _, _, _, _, _) => IfBackward(g, n, b, acc, ends, s);
    case While(_, _, _, _, _, _, _) => WhileBackward(g, n, b, acc, ends, s);
    case For(_, _, _, _, _, _, _, _, _, _, _) => ForBackward(g, n, b, acc, ends, s);
    case Break(e) =>
      JumpWithin(g, n, b, acc, ends);
      FlowBackward(g, e, b, acc, ends, s);
    case Return(e) =>
      JumpWithin(g, n, b, acc, ends);
      FlowBackward(g, e, b, acc, ends, s);
    case _ =>
  }

  lemma OptionBackward(g: Scope, c: Option<Node>, b: nat, acc: Firsts, ends: Ends, s: set<nat>)
    requires Within(g, Flown(c, b, acc, ends)) && Precedes(g, s) && Flown(c, b, acc, ends).cur in s
    ensures b in s && DoneIn(Flown(c, b, acc, ends), s)
    decreases c, 2
  {
    if c.Some? {
      FlowBackward(g, c.value, b, acc, ends, s);
    }
  }

  lemma IfBackward(g: Scope, n: Node, b: nat, acc: Firsts, ends: Ends, s: set<nat>)
    requires n.If? && Within(g, Flow(n, b, acc, ends)) && Precedes(g, s) && Flow(n, b, acc, ends).cur in s
    ensures b in s && DoneIn(Flow(n, b, acc, ends), s)
    decreases n, 0
  {
    hide Flow, Made, Within, DoneIn;
    IfMade(n, b, acc, ends);
    IfWithin(g, n, b, acc, ends);
    FlowBackward(g, n.t, n.blockTrue, map[], ends, s);
    FlowBackward(g, n.f, n.blockFalse, map[], ends, s);
    OptionBackward(g, n.c, b, acc, ends, s);
    NothingDone(s);
    MadeDoneIn(Flow(n, b, acc, ends), IfParts(n, b, acc, ends), s);
  }

  lemma WhileBackward(g: Scope, n: Node, b: nat, acc: Firsts, ends: Ends, s: set<nat>)
    requires n.While? && Within(g, Flow(n, b, acc, ends)) && Precedes(g, s) && Flow(n, b, acc, ends).cur in s
    ensures b in s && DoneIn(Flow(n, b, acc, ends), s)
    decreases n, 0
  {
    hide Flow, Made, Within, DoneIn;
    WhileMade(n, b, acc, ends);
    WhileWithin(g, n, b, acc, ends);
    OptionBackward(g, n.c, n.blockCondition, map[], ends, s);
    FlowBackward(g, n.body, n.blockBody, map[], WhileEnds(n, ends), s);
    NothingDone(s);
    MadeDoneIn(Flow(n, b, acc, ends), WhileParts(n, b, acc, ends), s);
  }

  lemma ForBackward(g: Scope, n: Node, b: nat, acc: Firsts, ends: Ends, s: set<nat>)
    requires n.For? && Within(g, Flow(n, b, acc, ends)) && Precedes(g, s) && Flow(n, b, acc, ends).cur in s
    ensures b in s && DoneIn(Flow(n, b, acc, ends), s)
    decreases n, 0
  {
    hide Flow, Made, Within, DoneIn;
    ForMade(n, b, acc, ends);
    ForWithin(g, n, b, acc, ends);
    OptionBackward(g, n.c, n.blockCondition, map[], ends, s);
    OptionBackward(g, n.next, n.blockNext, map[], ends, s);
    FlowBackward(g, n.body, n.blockBody, map[], ForEnds(n, ends), s);
    FlowBackward(g, n.init, b, acc, ends, s);
    MadeDoneIn(Flow(n, b, acc, ends), ForParts(n, b, acc, ends), s);
  }

  // ----- Between blocks -----

  ghost predicate EdgesIn(o: Flowed, s: set<nat>) {
    forall e :: e in o.edges ==> e.0 in s && e.1 in s
  }

  ghost predicate EndsIn(ends: Ends, loop: bool, s: set<nat>) {
    ends.onReturn in s && (loop ==> ends.onBreak in s && ends.onContinue in s)
  }

  lemma MadeEdgesIn(o: Flowed, r: Parts, s: set<nat>)
    requires Made(o, r) && EdgesIn(r.w, s) && EdgesIn(r.x, s) && EdgesIn(r.y, s) && EdgesIn(r.z, s)
    requires forall i :: 0 <= i < |r.es| ==> r.es[i].0 in s && r.es[i].1 in s
    ensures EdgesIn(o, s)
  {
    forall e | e in o.edges
      ensures e.0 in s && e.1 in s
    {
      MadeEdges(o, r, e);
    }
  }

  /** The parts of a construct all of whose blocks are in `s`. */
  lemma MadeParts(o: Flowed, r: Parts, s: set<nat>)
    requires Made(o, r) && DoneIn(o, s)
    ensures DoneIn(r.w, s) && DoneIn(r.x, s) && DoneIn(r.y, s) && DoneIn(r.z, s)
    ensures forall i :: 0 <= i < |r.ds| ==> r.ds[i].0 in s
  {
    forall d: (nat, Firsts) | d in r.w.done || d in r.x.done || d in r.y.done || d in r.z.done || d in r.ds
      ensures d.0 in s
    {
      MadeDone(o, r, d);
    }
    forall i | 0 <= i < |r.ds|
      ensures r.ds[i].0 in s
    {
      assert r.ds[i] in r.ds;
    }
  }

  /** Every edge leads from a block of the node to another, or where its jumps go. */
  lemma {:induction false} FlowEdges(n: Node, b: nat, acc: Firsts, ends: Ends, m: nat, loop: bool, s: set<nat>)
    requires Formed(n, m, loop) && EndsIn(ends, loop, s)
    requires DoneIn(Flow(n, b, acc, ends), s) && Flow(n, b, acc, ends).cur in s
    ensures EdgesIn(Flow(n, b, acc, ends), s)
    decreases n, 1
  {
    match n
    case Operate(i, _, rest) => FlowEdges(rest, b, Use(acc, i, false), ends, m, loop, s);
    case Then(_, _) => ThenEdges(n, b, acc, ends, m, loop, s);
    case If(_, _, _, _, _, _, _) => IfEdges(n, b, acc, ends, m, loop, s);
    case While(_, _, _, _, _, _, _) => WhileEdges(n, b, acc, ends, m, loop, s);
    case For(_, _, _, _, _, _, _, _, _, _, _) => ForEdges(n, b, acc, ends, m, loop, s);
    case Break(e) => FlowEdges(e, b, acc, ends, m, loop, s);
    case Return(e) => FlowEdges(e, b, acc, ends, m, loop, s);
    case _ =>
  }

  /** The end of the first part is where the second begins: a block of the whole or
      its end. */
  lemma {:induction false} EndIn(n: Node, b: nat, acc: Firsts, ends: Ends, s: set<nat>)
    requires DoneIn(Flow(n, b, acc, ends), s) && Flow(n, b, acc, ends).cur in s
    ensures b in s
    decreases n
  {
    match n
    case Operate(i, _, rest) => EndIn(rest, b, Use(acc, i, false), ends, s);
    case Then(x, y) =>
      var o := Flow(x, b, acc, ends);
      EndIn(y, o.cur, o.acc, ends, s);
      EndIn(x, b, acc, ends, s);
    case If(c, t, f, bt, bf, j, be) =>
      hide Flow, Made;
      IfMade(n, b, acc, ends);
      MadeParts(Flow(n, b, acc, ends), IfParts(n, b, acc, ends), s);
      IfEnd(n, b, acc, ends, s);
      if c.Some? {
        EndIn(c.value, b, acc, ends, s);
      }
    case While(_, _, _, _, _, _, _) =>
      hide Flow, Made;
      WhileMade(n, b, acc, ends);
      var r := WhileParts(n, b, acc, ends);
      MadeParts(Flow(n, b, acc, ends), r, s);
      assert r.ds[0].0 in s;
    case For(init, _, _, _, _, _, _, _, _, _, _) =>
      hide Flow, Made;
      ForMade(n, b, acc, ends);
      var r := ForParts(n, b, acc, ends);
      MadeParts(Flow(n, b, acc, ends), r, s);
      assert r.ds[0].0 in s;
      EndIn(init, b, acc, ends, s);
    case Break(e) => EndIn(e, b, acc, ends, s);
    case Return(e) => EndIn(e, b, acc, ends, s);
    case _ =>
  }

  lemma IfEnd(n: Node, b: nat, acc: Firsts, ends: Ends, s: set<nat>)
    requires n.If? && var r := IfParts(n, b, acc, ends); forall i :: 0 <= i < |r.ds| ==> r.ds[i].0 in s
    ensures Flown(n.c, b, acc, ends).cur in s
  {
    var r := IfParts(n, b, acc, ends);
    assert r.ds[0].0 in s;
  }

  lemma ThenEdges(n: Node, b: nat, acc: Firsts, ends: Ends, m: nat, loop: bool, s: set<nat>)
    requires n.Then? && Formed(n, m, loop) && EndsIn(ends, loop, s)
    requires DoneIn(Flow(n, b, acc, ends), s) && Flow(n, b, acc, ends).cur in s
    ensures EdgesIn(Flow(n, b, acc, ends), s)
    decreases n, 0
  {
    var x := Flow(n.a, b, acc, ends);
    var y := Flow(n.b, x.cur, x.acc, ends);
    assert DoneIn(x, s) && DoneIn(y, s);
    EndIn(n.b, x.cur, x.acc, ends, s);
    FlowEdges(n.a, b, acc, ends, m, loop, s);
    FlowEdges(n.b, x.cur, x.acc, ends, m, loop, s);
  }

  lemma OptionEdges(c: Option<Node>, b: nat, acc: Firsts, ends: Ends, m: nat, loop: bool, s: set<nat>)
    requires (c.Some? ==> Formed(c.value, m, loop)) && EndsIn(ends, loop, s)
    requires DoneIn(Flown(c, b, acc, ends), s) && Flown(c, b, acc, ends).cur in s
    ensures EdgesIn(Flown(c, b, acc, ends), s)
    decreases c, 2
  {
    if c.Some? {
      FlowEdges(c.value, b, acc, ends, m, loop, s);
    }
  }

  lemma IfEdges(n: Node, b: nat, acc: Firsts, ends: Ends, m: nat, loop: bool, s: set<nat>)
    requires n.If? && Formed(n, m, loop) && EndsIn(ends, loop, s)
    requires DoneIn(Flow(n, b, acc, ends), s) && Flow(n, b, acc, ends).cur in s
    ensures EdgesIn(Flow(n, b, acc, ends), s)
    decreases n, 0
  {
    hide Flow, Made, DoneIn, EdgesIn;
    IfMade(n, b, acc, ends);
    var r := IfParts(n, b, acc, ends);
    MadeParts(Flow(n, b, acc, ends), r, s);
    assert r.ds[0].0 in s && r.ds[1].0 in s && r.ds[2].0 in s && r.ds[3].0 in s;
    OptionEdges(n.c, b, acc, ends, m, loop, s);
    FlowEdges(n.t, n.blockTrue, map[], ends, m, loop, s);
    FlowEdges(n.f, n.blockFalse, map[], ends, m, loop, s);
    BeginsIn(n.t, n.blockTrue, ends, s);
    BeginsIn(n.f, n.blockFalse, ends, s);
    NothingEdges(s);
    MadeEdgesIn(Flow(n, b, acc, ends), r, s);
  }

  lemma BeginsIn(n: Node, b: nat, ends: Ends, s: set<nat>)
    requires DoneIn(Flow(n, b, map[], ends), s) && Flow(n, b, map[], ends).cur in s
    ensures b in s
  {
    EndIn(n, b, map[], ends, s);
  }

  lemma OptionBegins(c: Option<Node>, b: nat, ends: Ends, s: set<nat>)
    requires DoneIn(Flown(c, b, map[], ends), s) && Flown(c, b, map[], ends).cur in s
    ensures b in s
  {
    if c.Some? {
      EndIn(c.value, b, map[], ends, s);
    }
  }

  lemma NothingEdges(s: set<nat>)
    ensures EdgesIn(NOTHING, s)
  {
  }

  lemma WhileEdges(n: Node, b: nat, acc: Firsts, ends: Ends, m: nat, loop: bool, s: set<nat>)
    requires n.While? && Formed(n, m, loop) && EndsIn(ends, loop, s)
    requires DoneIn(Flow(n, b, acc, ends), s) && Flow(n, b, acc, ends).cur in s
    ensures EdgesIn(Flow(n, b, acc, ends), s)
    decreases n, 0
  {
    hide Flow, Made, DoneIn, EdgesIn;
    WhileMade(n, b, acc, ends);
    var r := WhileParts(n, b, acc, ends);
    MadeParts(Flow(n, b, acc, ends), r, s);
    assert r.ds[0].0 in s && r.ds[1].0 in s && r.ds[2].0 in s && r.ds[3].0 in s && r.ds[4].0 in s;
    OptionEdges(n.c, n.blockCondition, map[], ends, m, loop, s);
    FlowEdges(n.body, n.blockBody, map[], WhileEnds(n, ends), m, true, s);
    OptionBegins(n.c, n.blockCondition, ends, s);
    BeginsIn(n.body, n.blockBody, WhileEnds(n, ends), s);
    NothingEdges(s);
    MadeEdgesIn(Flow(n, b, acc, ends), r, s);
  }

  lemma ForEdges(n: Node, b: nat, acc: Firsts, ends: Ends, m: nat, loop: bool, s: set<nat>)
    requires n.For? && Formed(n, m, loop) && EndsIn(ends, loop, s)
    requires DoneIn(Flow(n, b, acc, ends), s) && Flow(n, b, acc, ends).cur in s
    ensures EdgesIn(Flow(n, b, acc, ends), s)
    decreases n, 0
  {
    hide Flow, Made, DoneIn, EdgesIn;
    ForMade(n, b, acc, ends);
    var r := ForParts(n, b, acc, ends);
    MadeParts(Flow(n, b, acc, ends), r, s);
    assert r.ds[0].0 in s && r.ds[1].0 in s && r.ds[2].0 in s && r.ds[3].0 in s && r.ds[4].0 in s;
    assert r.ds[5].0 in s && r.ds[6].0 in s;
    FlowEdges(n.init, b, acc, ends, m, loop, s);
    OptionEdges(n.c, n.blockCondition, map[], ends, m, loop, s);
    FlowEdges(n.body, n.blockBody, map[], ForEnds(n, ends), m, true, s);
    OptionEdges(n.next, n.blockNext, map[], ends, m, loop, s);
    OptionBegins(n.c, n.blockCondition, ends, s);
    BeginsIn(n.body, n.blockBody, ForEnds(n, ends), s);
    OptionBegins(n.next, n.blockNext, ends, s);
    MadeEdgesIn(Flow(n, b, acc, ends), r, s);
  }
}
