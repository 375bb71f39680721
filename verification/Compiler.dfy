/** The analysis of a scope and the code it leads to. */
module Compiler {
  import opened Options
  import opened Initialising
  import opened Flowing
  import opened Unset
  import opened Tidied
  import opened Initialised
  import opened FlowGraphs
  import opened Compiling
  import opened Dataflow
  import Exposed

  // ----- Labels -----

  ghost function Labels(n: Node, p: Place, ts: Targets, s: Facts, m: nat): map<nat, Known>
    decreases n
  {
    match n
    case Operate(i, call, rest) => Labels(rest, Readied(p, i, call), ts, s, m)
    case Then(a, b) => Labels(a, p, ts, s, m) + Labels(b, Past(a, p, ts, s, m), ts, s, m)
    case If(c, t, f, bt, bf, j, be) =>
      var x := Pasts(c, p, ts, s, m);
      (if c.Some? then Labels(c.value, p, ts, s, m) else map[]) + Labels(t, x, ts, s, m) + Labels(f, Branch(c, x), ts, s, m)
      + map[bf := Mark(Branch(c, x), m), be := Mark(Past(n, p, ts, s, m), m)]
    case While(c, body, jc, bc, bb, jx, be) =>
      var h := Junction(p, jc, s, m);
      var x := Pasts(c, h, ts, s, m);
      (if c.Some? then Labels(c.value, h, ts, s, m) else map[]) + Labels(body, x, WhileTargets(n), s, m)
      + map[bc := Mark(h, m), jx := Mark(Branch(c, x), m), be := Mark(Past(n, p, ts, s, m), m)]
    case For(init, c, next, body, jc, bc, bb, jn, bn, jx, be) =>
      var h, x := Head(n, p, ts, s, m), Inner(n, p, ts, s, m);
      var y := AtStep(n, p, ts, s, m);
      Labels(init, p, ts, s, m) + (if c.Some? then Labels(c.value, h, ts, s, m) else map[])
      + (if next.Some? then Labels(next.value, y, ts, s, m) else map[]) + Labels(body, x, ForTargets(n, ts), s, m)
      + map[bn := Mark(y, m), bc := Mark(h, m), jx := Mark(Branch(c, x), m), be := Mark(Past(n, p, ts, s, m), m)]
    case Break(e) => Labels(e, p, ts, s, m)
    case Return(e) => Labels(e, p, ts, s, m)
    case _ => map[]
  }

  lemma {:induction false} LabelsIn(n: Node, p: Place, ts: Targets, s: Facts, m: nat)
    ensures Labels(n, p, ts, s, m).Keys <= Ids(n)
    decreases n
  {
    match n
    case Operate(i, call, rest) => LabelsIn(rest, Readied(p, i, call), ts, s, m);
    case Then(a, b) =>
      LabelsIn(a, p, ts, s, m);
      LabelsIn(b, Past(a, p, ts, s, m), ts, s, m);
    case If(c, t, f, _, _, _, _) =>
      var x := Pasts(c, p, ts, s, m);
      if c.Some? {
        LabelsIn(c.value, p, ts, s, m);
      }
      LabelsIn(t, x, ts, s, m);
      LabelsIn(f, Branch(c, x), ts, s, m);
    case While(c, body, jc, _, _, _, _) =>
      var h := Junction(p, jc, s, m);
      if c.Some? {
        LabelsIn(c.value, h, ts, s, m);
      }
      LabelsIn(body, Pasts(c, h, ts, s, m), WhileTargets(n), s, m);
    case For(init, c, next, body, _, _, _, _, _, _, _) =>
      LabelsIn(init, p, ts, s, m);
      if c.Some? {
        LabelsIn(c.value, Head(n, p, ts, s, m), ts, s, m);
      }
      if next.Some? {
        LabelsIn(next.value, AtStep(n, p, ts, s, m), ts, s, m);
      }
      LabelsIn(body, Inner(n, p, ts, s, m), ForTargets(n, ts), s, m);
    case Break(e) => LabelsIn(e, p, ts, s, m);
    case Return(e) => LabelsIn(e, p, ts, s, m);
    case _ =>
  }

  /** `lab` agrees with `a`. */
  ghost predicate Sub(a: map<nat, Known>, lab: map<nat, Known>) {
    forall l :: l in a ==> At(lab, l, a[l])
  }

  lemma SubJoin(a: map<nat, Known>, b: map<nat, Known>, lab: map<nat, Known>)
    requires Sub(a + b, lab)
    ensures Sub(b, lab) && (a.Keys !! b.Keys ==> Sub(a, lab))
  {
    forall l | l in b
      ensures At(lab, l, b[l])
    {
      assert l in a + b && (a + b)[l] == b[l];
    }
    forall l | l in a && l !in b
      ensures At(lab, l, a[l])
    {
      assert l in a + b && (a + b)[l] == a[l];
    }
  }

  lemma {:induction false} LabelsFit(n: Node, p: Place, ts: Targets, s: Facts, m: nat, lab: map<nat, Known>)
    requires Apart(n) && Sub(Labels(n, p, ts, s, m), lab)
    ensures Labelled(n, p, ts, s, m, lab)
    decreases n, 1
  {
    match n
    case Operate(i, call, rest) => LabelsFit(rest, Readied(p, i, call), ts, s, m, lab);
    case Then(a, b) =>
      var x := Past(a, p, ts, s, m);
      LabelsIn(a, p, ts, s, m);
      LabelsIn(b, x, ts, s, m);
      SubJoin(Labels(a, p, ts, s, m), Labels(b, x, ts, s, m), lab);
      LabelsFit(a, p, ts, s, m, lab);
      LabelsFit(b, x, ts, s, m, lab);
    case If(_, _, _, _, _, _, _) => IfFit(n, p, ts, s, m, lab);
    case While(_, _, _, _, _, _, _) => WhileFit(n, p, ts, s, m, lab);
    case For(_, _, _, _, _, _, _, _, _, _, _) => ForFit(n, p, ts, s, m, lab);
    case Break(e) => LabelsFit(e, p, ts, s, m, lab);
    case Return(e) => LabelsFit(e, p, ts, s, m, lab);
    case _ =>
  }

  ghost function OptionLabels(c: Option<Node>, p: Place, ts: Targets, s: Facts, m: nat): map<nat, Known> {
    if c.Some? then Labels(c.value, p, ts, s, m) else map[]
  }

  lemma OptionIn(c: Option<Node>, p: Place, ts: Targets, s: Facts, m: nat)
    ensures OptionLabels(c, p, ts, s, m).Keys <= OptionIds(c)
  {
    if c.Some? {
      LabelsIn(c.value, p, ts, s, m);
    }
  }

  lemma SubAt(a: map<nat, Known>, lab: map<nat, Known>)
    requires Sub(a, lab)
    ensures forall l :: l in a ==> At(lab, l, a[l])
  {
  }

  lemma IfFit(n: Node, p: Place, ts: Targets, s: Facts, m: nat, lab: map<nat, Known>)
    requires n.If? && Apart(n) && Sub(Labels(n, p, ts, s, m), lab)
    ensures Labelled(n, p, ts, s, m, lab)
    decreases n, 0
  {
    hide Sub, Past, Pasts, Mark, At;
    var x := Pasts(n.c, p, ts, s, m);
    var y := Branch(n.c, x);
    var c, t, f := OptionLabels(n.c, p, ts, s, m), Labels(n.t, x, ts, s, m), Labels(n.f, y, ts, s, m);
    var own := map[n.blockFalse := Mark(y, m), n.blockExit := Mark(Past(n, p, ts, s, m), m)];
    var ids := [n.blockTrue, n.blockFalse, n.junction, n.blockExit];
    assert ids[1] != ids[3];
    OptionIn(n.c, p, ts, s, m);
    LabelsIn(n.t, x, ts, s, m);
    LabelsIn(n.f, y, ts, s, m);
    SubJoin(c + t + f, own, lab);
    SubJoin(c + t, f, lab);
    SubJoin(c, t, lab);
    SubAt(own, lab);
    if n.c.Some? {
      LabelsFit(n.c.value, p, ts, s, m, lab);
    }
    LabelsFit(n.t, x, ts, s, m, lab);
    LabelsFit(n.f, y, ts, s, m, lab);
  }

  lemma WhileFit(n: Node, p: Place, ts: Targets, s: Facts, m: nat, lab: map<nat, Known>)
    requires n.While? && Apart(n) && Sub(Labels(n, p, ts, s, m), lab)
    ensures Labelled(n, p, ts, s, m, lab)
    decreases n, 0
  {
    hide Sub, Past, Pasts, Mark, At, Junction;
    var h := Junction(p, n.junctionCondition, s, m);
    var x := Pasts(n.c, h, ts, s, m);
    var c, t := OptionLabels(n.c, h, ts, s, m), Labels(n.body, x, WhileTargets(n), s, m);
    var own := map[n.blockCondition := Mark(h, m), n.junctionExit := Mark(Branch(n.c, x), m),
                   n.blockExit := Mark(Past(n, p, ts, s, m), m)];
    Five(n.junctionCondition, n.blockCondition, n.blockBody, n.junctionExit, n.blockExit);
    OptionIn(n.c, h, ts, s, m);
    LabelsIn(n.body, x, WhileTargets(n), s, m);
    SubJoin(c + t, own, lab);
    SubJoin(c, t, lab);
    SubAt(own, lab);
    if n.c.Some? {
      LabelsFit(n.c.value, h, ts, s, m, lab);
    }
    LabelsFit(n.body, x, WhileTargets(n), s, m, lab);
  }

  lemma ForFit(n: Node, p: Place, ts: Targets, s: Facts, m: nat, lab: map<nat, Known>)
    requires n.For? && Apart(n) && Sub(Labels(n, p, ts, s, m), lab)
    ensures Labelled(n, p, ts, s, m, lab)
    decreases n, 0
  {
    hide Sub, Past, Pasts, Mark, At, Junction, Stepped;
    var h, x, y := Head(n, p, ts, s, m), Inner(n, p, ts, s, m), AtStep(n, p, ts, s, m);
    var w, c, k, t := Labels(n.init, p, ts, s, m), OptionLabels(n.c, h, ts, s, m), OptionLabels(n.next, y, ts, s, m),
      Labels(n.body, x, ForTargets(n, ts), s, m);
    var own := map[n.blockNext := Mark(y, m), n.blockCondition := Mark(h, m), n.junctionExit := Mark(Branch(n.c, x), m),
                   n.blockExit := Mark(Past(n, p, ts, s, m), m)];
    Seven(n.junctionCondition, n.blockCondition, n.blockBody, n.junctionNext, n.blockNext, n.junctionExit, n.blockExit);
    LabelsIn(n.init, p, ts, s, m);
    OptionIn(n.c, h, ts, s, m);
    OptionIn(n.next, y, ts, s, m);
    LabelsIn(n.body, x, ForTargets(n, ts), s, m);
    SubJoin(w + c + k + t, own, lab);
    SubJoin(w + c + k, t, lab);
    SubJoin(w + c, k, lab);
    SubJoin(w, c, lab);
    SubAt(own, lab);
    LabelsFit(n.init, p, ts, s, m, lab);
    if n.c.Some? {
      LabelsFit(n.c.value, h, ts, s, m, lab);
    }
    if n.next.Some? {
      LabelsFit(n.next.value, y, ts, s, m, lab);
    }
    LabelsFit(n.body, x, ForTargets(n, ts), s, m, lab);
  }

  // ----- The graph of a scope -----

  /** v_nexts of a block */
  function From(edges: seq<(nat, nat)>, b: nat): (r: seq<nat>)
    ensures forall q: nat :: q in r <==> (b, q) in edges
  {
    if edges == [] then []
    else
      var n := |edges| - 1;
      assert edges == edges[..n] + [edges[n]];
      From(edges[..n], b) + if edges[n].0 == b then [edges[n].1] else []
  }

  /** v_previouses of a block */
  function To(edges: seq<(nat, nat)>, b: nat): (r: seq<nat>)
    ensures forall p: nat :: p in r <==> (p, b) in edges
  {
    if edges == [] then []
    else
      var n := |edges| - 1;
      assert edges == edges[..n] + [edges[n]];
      To(edges[..n], b) + if edges[n].1 == b then [edges[n].0] else []
  }

  /** What a block accesses itself. */
  function AccOf(done: seq<(nat, Firsts)>, b: nat): Firsts {
    if done == [] then map[]
    else if done[0].0 == b then done[0].1
    else AccOf(done[1..], b)
  }

  lemma {:induction false} AccIs(done: seq<(nat, Firsts)>, d: (nat, Firsts))
    requires Distinct(done) && d in done
    ensures AccOf(done, d.0) == d.1
  {
    if done[0] != d {
      var i :| 0 <= i < |done| && done[i] == d;
      assert done[0].0 != done[i].0 && done[1..][i - 1] == d;
      AccIs(done[1..], d);
    }
  }

  lemma {:induction false} AccNamed(done: seq<(nat, Firsts)>, b: nat)
    requires AccOf(done, b) != map[]
    ensures (b, AccOf(done, b)) in done
  {
    if done[0].0 != b {
      AccNamed(done[1..], b);
      assert forall d :: d in done[1..] ==> d in done;
    } else {
      assert done[0] == (b, AccOf(done, b));
    }
  }

  /** The flow of a scope: its body leads to the junction at its end. */
  function Whole(n: Node, entry: nat, exit: nat): Flowed {
    var o := Flow(n, entry, map[], Ends(0, 0, exit));
    Flowed(exit, map[], o.edges + [(o.cur, exit)], o.done + [(o.cur, o.acc), (exit, map[])], o.gets)
  }

  /** The body of a scope, with its blocks numbered below `size`. */
  predicate Proper(n: Node, m: nat, entry: nat, exit: nat, size: nat) {
    && Formed(n, m, false) && Apart(n) && entry != exit && entry !in Ids(n) && exit !in Ids(n)
    && entry < size && exit < size && forall b :: b in Ids(n) ==> b < size
  }

  lemma WholeWithin(g: Scope, n: Node, entry: nat, exit: nat)
    requires var o := Whole(n, entry, exit); g.edges == o.edges && g.done == o.done && g.gets == o.gets
    ensures var o := Flow(n, entry, map[], Ends(0, 0, exit)); Within(g, o) && (o.cur, o.acc) in g.done
  {
    var o := Flow(n, entry, map[], Ends(0, 0, exit));
    assert [(o.cur, o.acc), (exit, map[])][0] in g.done;
  }

  lemma WholeDistinct(n: Node, m: nat, entry: nat, exit: nat, size: nat)
    requires Proper(n, m, entry, exit, size)
    ensures Distinct(Whole(n, entry, exit).done)
  {
    var o := Flow(n, entry, map[], Ends(0, 0, exit));
    FlowOnce(n, entry, map[], Ends(0, 0, exit));
    OnceNamed(o, Ids(n) + {entry});
    hide Flow;
    DistinctJoin(o.done, [(o.cur, o.acc), (exit, map[])], Ids(n) + {entry} - {o.cur}, {o.cur, exit});
  }

  lemma WholeEdges(n: Node, m: nat, entry: nat, exit: nat, s: set<nat>)
    requires Formed(n, m, false) && exit in s
    requires var o := Flow(n, entry, map[], Ends(0, 0, exit)); DoneIn(o, s) && o.cur in s
    ensures EdgesIn(Whole(n, entry, exit), s)
  {
    FlowEdges(n, entry, map[], Ends(0, 0, exit), m, false, s);
  }

  lemma WholeBelow(n: Node, m: nat, entry: nat, exit: nat, size: nat, e: (nat, nat))
    requires Proper(n, m, entry, exit, size) && e in Whole(n, entry, exit).edges
    ensures e.0 < size && e.1 < size
  {
    FlowOnce(n, entry, map[], Ends(0, 0, exit));
    WholeEdges(n, m, entry, exit, Ids(n) + {entry, exit});
  }

  // ----- What the analysis is given -----

  function Nexts(edges: seq<(nat, nat)>, size: nat): (r: seq<seq<nat>>)
    ensures |r| == size
  {
    seq(size, b requires 0 <= b => From(edges, b))
  }

  function Previouses(edges: seq<(nat, nat)>, size: nat): (r: seq<seq<nat>>)
    ensures |r| == size
  {
    seq(size, b requires 0 <= b => To(edges, b))
  }

  function Accessed(acc: Firsts): set<nat> {
    set i | i in acc
  }

  function Got(acc: Firsts): set<nat> {
    set i | i in acc && !acc[i]
  }

  function Put(acc: Firsts): set<nat> {
    set i | i in acc && acc[i]
  }

  function Empty(size: nat): seq<set<nat>> {
    seq(size, _ => {})
  }

  /** f_forward: a block passes on what it has been entered with and what it accesses. */
  function Forward(o: Flowed, size: nat): Problem {
    Problem(Nexts(o.edges, size), seq(size, b requires 0 <= b => Accessed(AccOf(o.done, b))), Empty(size))
  }

  /** f_backward: what is used after a block is used from it on, but for what it
      writes first. */
  function Backward(o: Flowed, size: nat): Problem {
    Problem(Previouses(o.edges, size), Empty(size), seq(size, b requires 0 <= b => Put(AccOf(o.done, b))))
  }

  function FirstReads(o: Flowed, size: nat): seq<set<nat>> {
    seq(size, b requires 0 <= b => Got(AccOf(o.done, b)))
  }

  lemma ForwardValid(n: Node, m: nat, entry: nat, exit: nat, size: nat)
    requires Proper(n, m, entry, exit, size)
    ensures var o := Whole(n, entry, exit); Forward(o, size).Valid() && Backward(o, size).Valid()
  {
    hide Proper;
    var o := Whole(n, entry, exit);
    hide Whole;
    forall p, q: nat | 0 <= p < size && (q in Forward(o, size).links[p] || q in Backward(o, size).links[p])
      ensures q < size
    {
      if q in From(o.edges, p) {
        WholeBelow(n, m, entry, exit, size, (p, q));
      } else {
        WholeBelow(n, m, entry, exit, size, (q, p));
      }
    }
  }

  /** The facts are those that come along the paths of the graph. */
  ghost predicate Analysed(o: Flowed, entry: nat, exit: nat, size: nat, ins: seq<set<nat>>, uses: seq<set<nat>>) {
    && |ins| == |uses| == size && Forward(o, size).Valid() && Backward(o, size).Valid()
    && (forall b: nat, i: nat :: b < size ==> (i in ins[b] <==> Comes(Forward(o, size), Empty(size), entry, b, i)))
    && forall b: nat, i: nat :: b < size ==> (i in uses[b] <==> Comes(Backward(o, size), FirstReads(o, size), exit, b, i))
  }

  /** t_scope::f_analyze */
  method Analyze(n: Node, m: nat, entry: nat, exit: nat, size: nat) returns (ins: seq<set<nat>>, uses: seq<set<nat>>)
    requires Proper(n, m, entry, exit, size)
    ensures Analysed(Whole(n, entry, exit), entry, exit, size, ins, uses)
  {
    hide Whole, Comes, Problem.Valid;
    var o := Whole(n, entry, exit);
    ForwardValid(n, m, entry, exit, size);
    ProperEnds(n, m, entry, exit, size);
    hide Proper;
    var s1, s2;
    ins, s1 := Propagate(Forward(o, size), Empty(size), entry);
    uses, s2 := Propagate(Backward(o, size), FirstReads(o, size), exit);
  }

  lemma ProperEnds(n: Node, m: nat, entry: nat, exit: nat, size: nat)
    requires Proper(n, m, entry, exit, size)
    ensures entry < size && exit < size && Formed(n, m, false)
  {
  }

  // ----- What the analysis finds -----

  function FactsOf(ins: seq<set<nat>>, uses: seq<set<nat>>): Facts {
    Facts((b: nat, i: nat) => b < |ins| && i in ins[b], (b: nat, i: nat) => b < |uses| && i in uses[b])
  }

  /** Where the flow can be, seen as a scope without facts. */
  ghost function Bare(w: Flowed, m: nat): Scope {
    Scope(Facts((b: nat, i: nat) => false, (b: nat, i: nat) => false), m, w.edges, w.done, w.gets)
  }

  ghost function Reachable(links: seq<seq<nat>>, start: nat): set<nat> {
    set b: nat | b < |links| && Reaches(links, start, b)
  }

  lemma StartReachable(links: seq<seq<nat>>, start: nat)
    requires start < |links|
    ensures start in Reachable(links, start)
  {
    assert IsPath(links, [start]) && [start][0] == start;
  }

  lemma ReachableNext(links: seq<seq<nat>>, start: nat, b: nat, c: nat)
    requires b in Reachable(links, start) && c < |links| && c in links[b]
    ensures c in Reachable(links, start)
  {
    ReachesNext(links, start, b, c);
  }

  lemma LastEdge(n: Node, entry: nat, exit: nat)
    ensures (Flow(n, entry, map[], Ends(0, 0, exit)).cur, exit) in Whole(n, entry, exit).edges
  {
    var last := (Flow(n, entry, map[], Ends(0, 0, exit)).cur, exit);
    assert [last][0] in Whole(n, entry, exit).edges;
  }

  lemma WholeDoneIn(n: Node, entry: nat, exit: nat, s: set<nat>)
    requires var o := Flow(n, entry, map[], Ends(0, 0, exit)); DoneIn(o, s) && o.cur in s && exit in s
    ensures DoneIn(Whole(n, entry, exit), s)
  {
  }

  /** Every block can be reached from the entry. */
  lemma Reached(n: Node, m: nat, entry: nat, exit: nat, size: nat)
    requires Proper(n, m, entry, exit, size)
    ensures DoneIn(Whole(n, entry, exit), Reachable(Nexts(Whole(n, entry, exit).edges, size), entry))
  {
    ProperEnds(n, m, entry, exit, size);
    hide Proper, Flow, Whole, Reachable, DoneIn, Reaches, Within;
    var w, links := Whole(n, entry, exit), Nexts(Whole(n, entry, exit).edges, size);
    var s := Reachable(links, entry);
    var g := Bare(w, m);
    StartReachable(links, entry);
    forall e | e in g.edges && e.0 in s
      ensures e.1 in s
    {
      WholeBelow(n, m, entry, exit, size, e);
      ReachableNext(links, entry, e.0, e.1);
    }
    WholeWithin(g, n, entry, exit);
    FlowForward(g, n, entry, map[], Ends(0, 0, exit), s);
    LastEdge(n, entry, exit);
    WholeDoneIn(n, entry, exit, s);
  }

  /** Every block leads to the exit, and so does every edge. */
  lemma Ending(n: Node, m: nat, entry: nat, exit: nat, size: nat)
    requires Proper(n, m, entry, exit, size)
    ensures var w := Whole(n, entry, exit);
      var s := Reachable(Previouses(w.edges, size), exit);
      DoneIn(w, s) && EdgesIn(w, s)
  {
    ProperEnds(n, m, entry, exit, size);
    hide Proper, Flow, Whole, Reachable, DoneIn, Reaches, Within;
    var w, links := Whole(n, entry, exit), Previouses(Whole(n, entry, exit).edges, size);
    var s := Reachable(links, exit);
    var g := Bare(w, m);
    StartReachable(links, exit);
    forall e | e in g.edges && e.1 in s
      ensures e.0 in s
    {
      WholeBelow(n, m, entry, exit, size, e);
      ReachableNext(links, exit, e.1, e.0);
    }
    WholeWithin(g, n, entry, exit);
    LastEdge(n, entry, exit);
    FlowBackward(g, n, entry, map[], Ends(0, 0, exit), s);
    WholeEdges(n, m, entry, exit, s);
    WholeDoneIn(n, entry, exit, s);
  }

  /** A flow whose blocks can be reached from the entry and lead to the exit. */
  ghost predicate Connected(w: Flowed, entry: nat, exit: nat, size: nat) {
    && Distinct(w.done) && DoneIn(w, Reachable(Nexts(w.edges, size), entry))
    && DoneIn(w, Reachable(Previouses(w.edges, size), exit)) && EdgesIn(w, Reachable(Previouses(w.edges, size), exit))
  }

  lemma WholeConnected(n: Node, m: nat, entry: nat, exit: nat, size: nat)
    requires Proper(n, m, entry, exit, size)
    ensures Connected(Whole(n, entry, exit), entry, exit, size)
  {
    hide Whole, Proper, Reachable;
    WholeDistinct(n, m, entry, exit, size);
    Reached(n, m, entry, exit, size);
    Ending(n, m, entry, exit, size);
  }

  lemma EnteredNext(w: Flowed, entry: nat, exit: nat, size: nat, ins: seq<set<nat>>, uses: seq<set<nat>>,
                    d: (nat, Firsts), e: (nat, nat), i: nat)
    requires Connected(w, entry, exit, size) && Analysed(w, entry, exit, size, ins, uses)
    requires d in w.done && e in w.edges && e.0 == d.0 && Left(FactsOf(ins, uses), d.0, d.1, i)
    ensures FactsOf(ins, uses).entered(e.1, i)
  {
    hide Comes, Reaches, Problem.Valid;
    AccIs(w.done, d);
    var g := Forward(w, size);
    assert d.0 in Reachable(g.links, entry) && e.1 < size && e.1 in g.links[d.0];
    assert i in g.extra[d.0] || Comes(g, Empty(size), entry, d.0, i);
    ComesNext(g, Empty(size), entry, d.0, e.1, i);
  }

  lemma UsedBefore(w: Flowed, entry: nat, exit: nat, size: nat, ins: seq<set<nat>>, uses: seq<set<nat>>,
                   d: (nat, Firsts), e: (nat, nat), i: nat)
    requires Connected(w, entry, exit, size) && Analysed(w, entry, exit, size, ins, uses)
    requires d in w.done && e in w.edges && e.0 == d.0 && FactsOf(ins, uses).used(e.1, i) && !Defines(d.1, i)
    ensures FactsOf(ins, uses).used(d.0, i)
  {
    hide Comes, Reaches, Problem.Valid;
    AccIs(w.done, d);
    var g := Backward(w, size);
    assert e.1 in Reachable(g.links, exit) && d.0 < size && d.0 in g.links[e.1];
    assert Comes(g, FirstReads(w, size), exit, e.1, i);
    ComesNext(g, FirstReads(w, size), exit, e.1, d.0, i);
  }

  lemma UsedFirst(w: Flowed, entry: nat, exit: nat, size: nat, ins: seq<set<nat>>, uses: seq<set<nat>>, d: (nat, Firsts), i: nat)
    requires Connected(w, entry, exit, size) && Analysed(w, entry, exit, size, ins, uses)
    requires d in w.done && Gets(d.1, i)
    ensures FactsOf(ins, uses).used(d.0, i)
  {
    hide Reaches, Problem.Valid;
    AccIs(w.done, d);
    var g, p: seq<nat> := Backward(w, size), [d.0];
    assert d.0 in Reachable(g.links, exit);
    assert Brings(g, FirstReads(w, size), p, i) && p[|p| - 1] == d.0;
    assert Comes(g, FirstReads(w, size), exit, d.0, i);
  }

  /** A read that is a first access is noted in a complete block. */
  lemma WholeGets(n: Node, entry: nat, exit: nat, r: (nat, nat))
    requires r in Whole(n, entry, exit).gets
    ensures Noted(Whole(n, entry, exit), r.0, r.1)
  {
    var w, o := Whole(n, entry, exit), Flow(n, entry, map[], Ends(0, 0, exit));
    FlowGets(n, entry, map[], Ends(0, 0, exit), r);
    assert PartOf(o, w) by {
      assert [(o.cur, o.acc), (exit, map[])][0] in w.done;
    }
    PartNoted(o, w, r.0, r.1);
  }

  lemma NotedIn(w: Flowed, b: nat, i: nat)
    requires Noted(w, b, i) && w.acc == map[]
    ensures exists d :: d in w.done && d.0 == b && Gets(d.1, i)
  {
  }

  /** What the analysis finds is closed under its rules. */
  lemma AnalysedSolves(n: Node, m: nat, entry: nat, exit: nat, size: nat, ins: seq<set<nat>>, uses: seq<set<nat>>)
    requires Proper(n, m, entry, exit, size) && Analysed(Whole(n, entry, exit), entry, exit, size, ins, uses)
    ensures var w := Whole(n, entry, exit); Solves(FactsOf(ins, uses), w.edges, w.done, w.gets)
  {
    WholeConnected(n, m, entry, exit, size);
    var w, s := Whole(n, entry, exit), FactsOf(ins, uses);
    assert w.acc == map[];
    hide Whole, Proper, Analysed, Connected, FactsOf, Noted;
    forall d, e, i: nat | d in w.done && e in w.edges && e.0 == d.0 && Left(s, d.0, d.1, i)
      ensures s.entered(e.1, i)
    {
      EnteredNext(w, entry, exit, size, ins, uses, d, e, i);
    }
    forall d, e, i: nat | d in w.done && e in w.edges && e.0 == d.0 && s.used(e.1, i) && !Defines(d.1, i)
      ensures s.used(d.0, i)
    {
      UsedBefore(w, entry, exit, size, ins, uses, d, e, i);
    }
    forall r | r in w.gets
      ensures s.used(r.0, r.1)
    {
      WholeGets(n, entry, exit, r);
      NotedIn(w, r.0, r.1);
      var d :| d in w.done && d.0 == r.0 && Gets(d.1, r.1);
      UsedFirst(w, entry, exit, size, ins, uses, d, r.1);
    }
  }

  // ----- What the facts mean -----

  /** Some path from the entry accesses `i` before it comes to `b`. */
  ghost predicate AccessedBefore(w: Flowed, size: nat, entry: nat, b: nat, i: nat) {
    exists p, k: nat ::
      IsPath(Nexts(w.edges, size), p) && p[0] == entry && p[|p| - 1] == b && k + 1 < |p| && i in AccOf(w.done, p[k])
  }

  /** Some path from `b` leads to a block that reads `i` first, by blocks that do
      not write it first. */
  ghost predicate ReadAhead(w: Flowed, size: nat, b: nat, i: nat) {
    exists p :: IsPath(Nexts(w.edges, size), p) && p[0] == b && ReadAtEnd(w.done, p, i)
  }

  ghost predicate ReadAtEnd(done: seq<(nat, Firsts)>, p: seq<nat>, i: nat) {
    p != [] && Gets(AccOf(done, p[|p| - 1]), i) && forall k :: 0 <= k < |p| - 1 ==> !Defines(AccOf(done, p[k]), i)
  }

  lemma PathJoin(links: seq<seq<nat>>, p: seq<nat>, q: seq<nat>)
    requires IsPath(links, p) && IsPath(links, q) && p[|p| - 1] == q[0]
    ensures IsPath(links, p[..|p| - 1] + q)
  {
    var r := p[..|p| - 1] + q;
    forall k | 0 < k < |r|
      ensures r[k] in links[r[k - 1]]
    {
      if k < |p| {
        assert r[k - 1] == p[k - 1] && r[k] == p[k];
      } else {
        assert r[k - 1] == q[k - |p|] && r[k] == q[k - |p| + 1];
      }
    }
  }

  function Reverse(p: seq<nat>): (r: seq<nat>)
    ensures |r| == |p| && forall k :: 0 <= k < |r| ==> r[k] == p[|p| - 1 - k]
  {
    seq(|p|, k requires 0 <= k < |p| => p[|p| - 1 - k])
  }

  lemma PathBack(edges: seq<(nat, nat)>, size: nat, p: seq<nat>)
    ensures IsPath(Nexts(edges, size), p) ==> IsPath(Previouses(edges, size), Reverse(p))
    ensures IsPath(Previouses(edges, size), p) ==> IsPath(Nexts(edges, size), Reverse(p))
  {
    var r := Reverse(p);
    if p != [] && (forall k :: 0 <= k < |p| ==> p[k] < size) {
      forall k | 0 < k < |r|
        ensures r[k] in From(edges, r[k - 1]) <==> p[|p| - 1 - k + 1] in To(edges, p[|p| - 1 - k])
        ensures r[k] in To(edges, r[k - 1]) <==> p[|p| - 1 - k + 1] in From(edges, p[|p| - 1 - k])
      {
      }
    }
  }

  lemma PathSplit(links: seq<seq<nat>>, p: seq<nat>, k: nat)
    requires IsPath(links, p) && k < |p|
    ensures IsPath(links, p[k..]) && IsPath(links, p[..k + 1])
  {
  }

  lemma EnteredAlong(w: Flowed, entry: nat, size: nat, b: nat, i: nat)
    requires Forward(w, size).Valid() && Comes(Forward(w, size), Empty(size), entry, b, i)
    ensures AccessedBefore(w, size, entry, b, i)
  {
    var g, links := Forward(w, size), Nexts(w.edges, size);
    var p :| Brings(g, Empty(size), p, i) && p[|p| - 1] == b && (|p| > 1 ==> Reaches(links, entry, p[0]));
    assert IsPath(links, p) && |p| > 1 && i in AccOf(w.done, p[0]);
    var r :| IsPath(links, r) && r[0] == entry && r[|r| - 1] == p[0];
    PathJoin(links, r, p);
    hide IsPath, From, AccOf;
    var q, k: nat := r[..|r| - 1] + p, |r| - 1;
    assert q[k] == p[0] && q[|q| - 1] == b && q[0] == entry;
  }

  lemma AlongEntered(w: Flowed, entry: nat, size: nat, p: seq<nat>, k: nat, i: nat)
    requires Forward(w, size).Valid() && IsPath(Nexts(w.edges, size), p) && p[0] == entry
    requires k + 1 < |p| && i in AccOf(w.done, p[k])
    ensures Comes(Forward(w, size), Empty(size), entry, p[|p| - 1], i)
  {
    var g, links := Forward(w, size), Nexts(w.edges, size);
    var q, r := p[k..], p[..k + 1];
    PathSplit(links, p, k);
    assert q[0] == p[k] && i in g.extra[q[0]];
    hide IsPath, From, AccOf, Problem.Valid;
    assert Reaches(links, entry, q[0]) by {
      assert r[0] == entry && r[|r| - 1] == q[0];
    }
    assert Brings(g, Empty(size), q, i) && q[|q| - 1] == p[|p| - 1];
  }

  lemma EnteredMeans(w: Flowed, entry: nat, exit: nat, size: nat, ins: seq<set<nat>>, uses: seq<set<nat>>, b: nat, i: nat)
    requires Connected(w, entry, exit, size) && Analysed(w, entry, exit, size, ins, uses) && b < size
    ensures i in ins[b] <==> AccessedBefore(w, size, entry, b, i)
  {
    hide Connected, AccOf, Comes, Forward, Nexts, Backward, Problem.Valid;
    if i in ins[b] {
      EnteredAlong(w, entry, size, b, i);
    }
    if AccessedBefore(w, size, entry, b, i) {
      var p, k: nat :| IsPath(Nexts(w.edges, size), p) && p[0] == entry && p[|p| - 1] == b && k + 1 < |p| && i in AccOf(w.done, p[k]);
      AlongEntered(w, entry, size, p, k, i);
    }
  }

  lemma UsedAhead(w: Flowed, entry: nat, exit: nat, size: nat, ins: seq<set<nat>>, uses: seq<set<nat>>, b: nat, i: nat)
    requires Connected(w, entry, exit, size) && Analysed(w, entry, exit, size, ins, uses) && b < size && i in uses[b]
    ensures ReadAhead(w, size, b, i)
  {
    var g := Backward(w, size);
    var p :| Brings(g, FirstReads(w, size), p, i) && p[|p| - 1] == b && (|p| > 1 ==> Reaches(g.links, exit, p[0]));
    PathBack(w.edges, size, p);
    var q := Reverse(p);
    assert q[|q| - 1] == p[0];
    forall k | 0 <= k < |q| - 1
      ensures !Defines(AccOf(w.done, q[k]), i)
    {
      assert i !in g.blocked[p[|p| - 1 - k]];
    }
    assert ReadAtEnd(w.done, q, i);
  }

  lemma UsedMeans(w: Flowed, entry: nat, exit: nat, size: nat, ins: seq<set<nat>>, uses: seq<set<nat>>, b: nat, i: nat)
    requires Connected(w, entry, exit, size) && Analysed(w, entry, exit, size, ins, uses) && b < size
    ensures i in uses[b] <==> ReadAhead(w, size, b, i)
  {
    var g := Backward(w, size);
    if i in uses[b] {
      UsedAhead(w, entry, exit, size, ins, uses, b, i);
    }
    if p :| IsPath(Nexts(w.edges, size), p) && p[0] == b && ReadAtEnd(w.done, p, i) {
      PathBack(w.edges, size, p);
      var q := Reverse(p);
      AccNamed(w.done, q[0]);
      assert q[0] in Reachable(g.links, exit);
      assert Brings(g, FirstReads(w, size), q, i) && q[|q| - 1] == b;
      assert Comes(g, FirstReads(w, size), exit, b, i);
    }
  }

  // ----- The code -----

  const OUTSIDE := Targets(0, 0, 0)

  /** Where a scope begins: all variables are raw. */
  ghost function Begin(m: nat): Place {
    Place({}, Mark(Place({}, {}), m).ready)
  }

  /** No variable may be called, or read at the step of a loop after `continue`, while
      it is raw. */
  predicate Riskless(n: Node, s: Facts, m: nat) {
    forall i: nat :: i < m ==> !Raw(n, i, {}, OUTSIDE, s, m).risk
  }

  lemma WholeGround(g: Scope, n: Node, m: nat, entry: nat, exit: nat, size: nat, i: nat)
    requires Proper(n, m, entry, exit, size) && g.m == m && Solved(g)
    requires var w := Whole(n, entry, exit); g.edges == w.edges && g.done == w.done && g.gets == w.gets
    ensures var ends := Ends(0, 0, exit);
      && Ground(g, n, entry, map[], ends, {}, OUTSIDE, false)
      && (i < m ==> LaxEnd(g, i, n, entry, map[], ends, false, {}) && !Held(g, i, {}, entry, map[]))
      && Tame(g, n, entry, map[], ends, {}, false, false, {}) == Tidy(n, false)
  {
    hide Flow;
    WholeWithin(g, n, entry, exit);
  }

  ghost function ScopeOf(n: Node, m: nat, entry: nat, exit: nat, s: Facts): Scope {
    var w := Whole(n, entry, exit);
    Scope(s, m, w.edges, w.done, w.gets)
  }

  /** A variable that is not at risk is not read while it is raw. */
  lemma RisklessQuiet(n: Node, m: nat, entry: nat, exit: nat, size: nat, s: Facts, i: nat)
    requires Proper(n, m, entry, exit, size) && i < m && Solved(ScopeOf(n, m, entry, exit, s))
    ensures Raw(n, i, {}, OUTSIDE, s, m).read ==> Raw(n, i, {}, OUTSIDE, s, m).risk
    ensures Tidy(n, false) ==> !Raw(n, i, {}, OUTSIDE, s, m).risk
  {
    var g, ends := ScopeOf(n, m, entry, exit, s), Ends(0, 0, exit);
    WholeGround(g, n, m, entry, exit, size, i);
    hide Proper, Whole, Ground, LaxEnd, Held, Solved, Raw, Tame, Tidy;
    if !Raw(n, i, {}, OUTSIDE, s, m).risk {
      ReadRisk(g, n, entry, map[], ends, {}, OUTSIDE, false, i, {});
    }
    if Tidy(n, false) {
      TidyCalm(g, n, entry, map[], ends, {}, OUTSIDE, false, i, {}, false);
    }
  }

  lemma BeginFair(n: Node, m: nat, entry: nat, exit: nat, size: nat, s: Facts, v: View)
    requires Proper(n, m, entry, exit, size) && Solved(ScopeOf(n, m, entry, exit, s))
    requires v.g == ScopeOf(n, m, entry, exit, s) && v.strict == Riskless(n, s, m)
    ensures Fair(v, n, Begin(m), OUTSIDE, false, {}) && Floored(v.g, n, entry, map[], Ends(0, 0, exit), false, {})
    ensures Ground(v.g, n, entry, map[], Ends(0, 0, exit), {}, OUTSIDE, false)
  {
    hide Proper, Ground, Solved, Raw, LaxEnd, Whole;
    forall i: nat
      ensures i < m ==> LaxEnd(v.g, i, n, entry, map[], Ends(0, 0, exit), false, {})
      ensures i < m && v.strict ==> !Raw(n, i, {}, OUTSIDE, s, m).read
    {
      WholeGround(v.g, n, m, entry, exit, size, i);
      if i < m {
        RisklessQuiet(n, m, entry, exit, size, s, i);
      }
    }
    WholeGround(v.g, n, m, entry, exit, size, 0);
  }

  lemma BeginApt(n: Node, m: nat, entry: nat, exit: nat, size: nat, s: Facts, v: View)
    requires Proper(n, m, entry, exit, size) && Solved(ScopeOf(n, m, entry, exit, s)) && v.lab == Labels(n, Begin(m), OUTSIDE, s, m)
    requires v.g == ScopeOf(n, m, entry, exit, s) && v.strict == Riskless(n, s, m)
    ensures Apt(v, n, entry, map[], Ends(0, 0, exit), Begin(m), OUTSIDE, Some(Known({}, {})), false, {})
  {
    LabelsFit(n, Begin(m), OUTSIDE, s, m, v.lab);
    BeginFair(n, m, entry, exit, size, s, v);
    hide Proper, Ground, Solved, Riskless, Labelled, Fair, Floored, Whole;
  }

  /** Code emitted by facts that are closed under the rules checks, strictly if no
      variable is at risk. */
  lemma EmitChecks(n: Node, m: nat, entry: nat, exit: nat, size: nat, s: Facts)
    requires Proper(n, m, entry, exit, size) && Solved(ScopeOf(n, m, entry, exit, s))
    ensures Checks(Emit(n, {}, OUTSIDE, s, m).code + [RETURN], Some(Known({}, {})), Labels(n, Begin(m), OUTSIDE, s, m), m,
                   Riskless(n, s, m))
  {
    hide Proper, Solved, Emit, Labels, Riskless, Apt, Checks, End, Here;
    var lab, a := Labels(n, Begin(m), OUTSIDE, s, m), Some(Known({}, {}));
    var v, code := View(ScopeOf(n, m, entry, exit, s), lab, Riskless(n, s, m)), Emit(n, {}, OUTSIDE, s, m).code;
    BeginApt(n, m, entry, exit, size, s, v);
    EmitLeads(v, n, entry, map[], Ends(0, 0, exit), Begin(m), OUTSIDE, a, false, {});
    ChecksOne(v, RETURN, End(code, a, lab));
    ChecksJoin(code, [RETURN], a, lab, m, v.strict);
  }

  /** No run of the code clears a variable that has been assigned. */
  ghost predicate Sparing(code: Code, m: nat) {
    forall run, k: nat :: IsRun(code, m, run) && k < |run| ==> Spares(code, run[k])
  }

  /** Nor does one read a variable before it is initialised. */
  ghost predicate Safe(code: Code, m: nat) {
    Sparing(code, m) && forall run, k: nat :: IsRun(code, m, run) && k < |run| ==> Reads(code, run[k])
  }

  lemma ChecksSafe(code: Code, lab: map<nat, Known>, m: nat, strict: bool)
    requires Checks(code, Some(Known({}, {})), lab, m, strict)
    ensures Sparing(code, m) && (strict ==> Safe(code, m))
  {
    forall run, k: nat | IsRun(code, m, run) && k < |run|
      ensures Spares(code, run[k]) && (strict ==> Reads(code, run[k]))
    {
      ChecksSound(code, lab, m, strict, Some(Known({}, {})), run, k);
    }
  }

  /** A variable at risk is read by some run while it is raw. */
  lemma RiskShown(n: Node, s: Facts, m: nat, i: nat)
    requires Formed(n, m, false) && i < m && Raw(n, i, {}, OUTSIDE, s, m).risk
    ensures !Safe(Emit(n, {}, OUTSIDE, s, m).code + [RETURN], m)
  {
    hide Raw, Emit, Formed;
    var part := Emit(n, {}, OUTSIDE, s, m).code;
    var code := part + [RETURN];
    RiskRead(n, i, {}, OUTSIDE, s, m);
    assert code[0..0 + |part|] == part;
    Exposed.ComesFirst(code, m, i);
    Exposed.Walk(code, m, 0, n, {}, OUTSIDE, s, i, false);
    Exposed.ShownNot(code, m, i);
  }

  /** The code is safe if and only if no variable is at risk, as it is where nothing
      follows a `continue` to a step and nothing is called directly. */
  lemma EmitSafe(n: Node, m: nat, entry: nat, exit: nat, size: nat, s: Facts)
    requires Proper(n, m, entry, exit, size) && Solved(ScopeOf(n, m, entry, exit, s))
    ensures var code := Emit(n, {}, OUTSIDE, s, m).code + [RETURN];
      Sparing(code, m) && (Safe(code, m) <==> Riskless(n, s, m)) && (Tidy(n, false) ==> Safe(code, m))
  {
    hide Whole, Raw, Emit, Safe, Sparing, Checks, Labels, Tidy, Solved;
    var code := Emit(n, {}, OUTSIDE, s, m).code + [RETURN];
    EmitChecks(n, m, entry, exit, size, s);
    ChecksSafe(code, Labels(n, Begin(m), OUTSIDE, s, m), m, Riskless(n, s, m));
    ProperEnds(n, m, entry, exit, size);
    hide Proper;
    forall i: nat | i < m && Raw(n, i, {}, OUTSIDE, s, m).risk
      ensures !Safe(code, m)
    {
      RiskShown(n, s, m, i);
    }
    forall i: nat | i < m
      ensures Tidy(n, false) ==> !Raw(n, i, {}, OUTSIDE, s, m).risk
    {
      RisklessQuiet(n, m, entry, exit, size, s, i);
    }
  }

  // ----- What the code does -----

  /** The code without the NULs. */
  function Bared(code: Code): Code {
    if code == [] then [] else (if code[0].NUL? then [] else [code[0]]) + Bared(code[1..])
  }

  /** What a node is compiled to where nothing needs initialising. */
  function Plain(n: Node, ts: Targets): Code
    decreases n
  {
    match n
    case Skip => []
    case Access(i, put) => [if put then WRITE(i) else READ(i)]
    case Operate(i, call, rest) => Plain(rest, ts) + [if call then CALL(i) else READ(i)]
    case Then(a, b) => Plain(a, ts) + Plain(b, ts)
    case If(c, t, f, bt, bf, j, be) =>
      PlainFront(c, bf, ts) + Plain(t, ts) + [JUMP(be), TARGET(bf)] + Plain(f, ts) + [TARGET(be)]
    case While(c, body, jc, bc, bb, jx, be) =>
      [TARGET(bc)] + PlainFront(c, jx, ts) + Plain(body, Targets(be, jx, bc)) + [JUMP(bc), TARGET(jx), TARGET(be)]
    case For(init, c, next, body, jc, bc, bb, jn, bn, jx, be) =>
      Plain(init, ts) + [TARGET(bc)] + PlainFront(c, jx, ts)
      + Plain(body, Targets(be, jx, if next.Some? then bn else bc))
      + (if next.Some? then [TARGET(bn)] + Plain(next.value, ts) else []) + [JUMP(bc), TARGET(jx), TARGET(be)]
    case Break(e) => Plain(e, ts) + [JUMP(ts.onBreak)]
    case Continue => [JUMP(ts.onContinue)]
    case Return(e) => Plain(e, ts) + [RETURN]
  }

  function PlainFront(c: Option<Node>, l: nat, ts: Targets): Code
    decreases c
  {
    if c.Some? then Plain(c.value, ts) + [BRANCH(l)] else []
  }

  lemma {:induction false} BaredJoin(a: Code, b: Code)
    ensures Bared(a + b) == Bared(a) + Bared(b)
  {
    if a == [] {
      assert a + b == b;
    } else {
      assert (a + b)[0] == a[0] && (a + b)[1..] == a[1..] + b;
      BaredJoin(a[1..], b);
    }
  }

  lemma {:induction false} BaredNuls(s: Facts, d: set<nat>, j: nat, m: nat, i: nat)
    requires i <= m
    ensures Bared(Join(s, d, j, m, i)) == []
    decreases m - i
  {
    if i < m {
      BaredNuls(s, d, j, m, i + 1);
      BaredJoin(if i !in d && s.used(j, i) && s.entered(j, i) then [NUL(i)] else [], Join(s, d, j, m, i + 1));
    }
  }

  lemma {:induction false} BaredSame(code: Code)
    requires forall k :: 0 <= k < |code| ==> !code[k].NUL?
    ensures Bared(code) == code
  {
    if code != [] {
      BaredSame(code[1..]);
    }
  }

  /** Pieces of code in a row. */
  lemma BaredFour(a: Code, b: Code, c: Code, d: Code)
    ensures Bared(a + b + c + d) == Bared(a) + Bared(b) + Bared(c) + Bared(d)
  {
    BaredJoin(a + b + c, d);
    BaredJoin(a + b, c);
    BaredJoin(a, b);
  }

  /** Analysis adds nothing to the code but NULs. */
  lemma {:induction false} EmitBared(n: Node, d: set<nat>, ts: Targets, s: Facts, m: nat)
    ensures Bared(Emit(n, d, ts, s, m).code) == Plain(n, ts)
    decreases n, 1
  {
    hide Emit, Plain;
    match n
    case Access(_, _) => AccessBared(n, d, ts, s, m);
    case Skip => AccessBared(n, d, ts, s, m);
    case Continue => AccessBared(n, d, ts, s, m);
    case Operate(_, _, _) => OperateBared(n, d, ts, s, m);
    case Then(_, _) => ThenBared(n, d, ts, s, m);
    case If(_, _, _, _, _, _, _) => IfBared(n, d, ts, s, m);
    case While(_, _, _, _, _, _, _) => WhileBared(n, d, ts, s, m);
    case For(_, _, _, _, _, _, _, _, _, _, _) => ForBared(n, d, ts, s, m);
    case Break(_) => LeaveBared(n, d, ts, s, m);
    case Return(_) => LeaveBared(n, d, ts, s, m);
  }

  lemma AccessBared(n: Node, d: set<nat>, ts: Targets, s: Facts, m: nat)
    requires n.Access? || n.Skip? || n.Continue?
    ensures Bared(Emit(n, d, ts, s, m).code) == Plain(n, ts)
  {
    if n.Access? {
      BaredJoin(if !n.put && n.i !in d then [NUL(n.i)] else [], [if n.put then WRITE(n.i) else READ(n.i)]);
    }
  }

  lemma OperateBared(n: Node, d: set<nat>, ts: Targets, s: Facts, m: nat)
    requires n.Operate?
    ensures Bared(Emit(n, d, ts, s, m).code) == Plain(n, ts)
    decreases n, 0
  {
    var x := Emit(n.rest, if n.call then d else d + {n.i}, ts, s, m);
    var nul: Code, own := if !n.call && n.i !in d then [NUL(n.i)] else [], if n.call then CALL(n.i) else READ(n.i);
    EmitBared(n.rest, if n.call then d else d + {n.i}, ts, s, m);
    BaredJoin(nul + x.code, [own]);
    BaredJoin(nul, x.code);
  }

  lemma ThenBared(n: Node, d: set<nat>, ts: Targets, s: Facts, m: nat)
    requires n.Then?
    ensures Bared(Emit(n, d, ts, s, m).code) == Plain(n, ts)
    decreases n, 0
  {
    var x := Emit(n.a, d, ts, s, m);
    EmitBared(n.a, d, ts, s, m);
    EmitBared(n.b, x.d, ts, s, m);
    BaredJoin(x.code, Emit(n.b, x.d, ts, s, m).code);
  }

  lemma LeaveBared(n: Node, d: set<nat>, ts: Targets, s: Facts, m: nat)
    requires n.Break? || n.Return?
    ensures Bared(Emit(n, d, ts, s, m).code) == Plain(n, ts)
    decreases n, 0
  {
    var x := Emit(n.e, d, ts, s, m);
    EmitBared(n.e, d, ts, s, m);
    if n.Break? {
      BaredFour([], x.code, Join(s, x.d, ts.breakJunction, m, 0), [JUMP(ts.onBreak)]);
      BaredNuls(s, x.d, ts.breakJunction, m, 0);
      assert [] + x.code == x.code;
    } else {
      BaredJoin(x.code, [RETURN]);
    }
  }

  lemma FrontBared(c: Option<Node>, d: set<nat>, ts: Targets, s: Facts, m: nat, l: nat)
    ensures Bared(Branched(c, Emits(c, d, ts, s, m).code, l)) == PlainFront(c, l, ts)
    decreases c, 2
  {
    if c.Some? {
      EmitBared(c.value, d, ts, s, m);
      BaredJoin(Emit(c.value, d, ts, s, m).code, [BRANCH(l)]);
    } else {
      var none: Code := [];
      assert none + none == none;
    }
  }

  lemma PlainIf(n: Node, ts: Targets)
    requires n.If?
    ensures Plain(n, ts) ==
      PlainFront(n.c, n.blockFalse, ts) + Plain(n.t, ts) + [JUMP(n.blockExit), TARGET(n.blockFalse)] + Plain(n.f, ts)
      + [TARGET(n.blockExit)]
  {
  }

  lemma IfBared(n: Node, d: set<nat>, ts: Targets, s: Facts, m: nat)
    requires n.If?
    ensures Bared(Emit(n, d, ts, s, m).code) == Plain(n, ts)
    decreases n, 0
  {
    hide Bared, Plain, Emit;
    var x := Emits(n.c, d, ts, s, m);
    var y, z := Emit(n.t, x.d, ts, s, m), Emit(n.f, x.d, ts, s, m);
    var front := Branched(n.c, x.code, n.blockFalse);
    var c1, c2 := Join(s, y.d, n.junction, m, 0), Join(s, z.d, n.junction, m, 0);
    FrontBared(n.c, d, ts, s, m, n.blockFalse);
    EmitBared(n.t, x.d, ts, s, m);
    EmitBared(n.f, x.d, ts, s, m);
    BaredNuls(s, y.d, n.junction, m, 0);
    BaredNuls(s, z.d, n.junction, m, 0);
    BaredSame([JUMP(n.blockExit), TARGET(n.blockFalse)]);
    BaredSame([TARGET(n.blockExit)]);
    BaredFour(front, y.code, c1, [JUMP(n.blockExit), TARGET(n.blockFalse)]);
    BaredFour(front + y.code + c1 + [JUMP(n.blockExit), TARGET(n.blockFalse)], z.code, c2, [TARGET(n.blockExit)]);
    IfText(n, d, ts, s, m);
    PlainIf(n, ts);
  }

  lemma PlainWhile(n: Node, ts: Targets)
    requires n.While?
    ensures Plain(n, ts) ==
      [TARGET(n.blockCondition)] + PlainFront(n.c, n.junctionExit, ts)
      + (Plain(n.body, Targets(n.blockExit, n.junctionExit, n.blockCondition)) + [JUMP(n.blockCondition)])
      + [TARGET(n.junctionExit)] + [TARGET(n.blockExit)]
  {
  }

  lemma WhileBared(n: Node, d: set<nat>, ts: Targets, s: Facts, m: nat)
    requires n.While?
    ensures Bared(Emit(n, d, ts, s, m).code) == Plain(n, ts)
    decreases n, 0
  {
    hide Bared, Plain, Emit;
    var h := Merge(s, n.junctionCondition, m);
    var inner := Targets(n.blockExit, n.junctionExit, n.blockCondition);
    var x := Emits(n.c, h, ts, s, m);
    var y := Emit(n.body, x.d, inner, s, m);
    var front, back := Branched(n.c, x.code, n.junctionExit), y.code + [JUMP(n.blockCondition)];
    var c1, c2 := Join(s, d, n.junctionCondition, m, 0), Join(s, y.d, n.junctionExit, m, 0);
    FrontBared(n.c, h, ts, s, m, n.junctionExit);
    EmitBared(n.body, x.d, inner, s, m);
    BaredJoin(y.code, [JUMP(n.blockCondition)]);
    BaredNuls(s, d, n.junctionCondition, m, 0);
    BaredNuls(s, y.d, n.junctionExit, m, 0);
    BaredSame([JUMP(n.blockCondition)]);
    BaredSame([TARGET(n.blockCondition)]);
    BaredSame([TARGET(n.junctionExit)]);
    BaredSame([TARGET(n.blockExit)]);
    BaredFour(c1, [TARGET(n.blockCondition)], front, back);
    BaredFour(c1 + [TARGET(n.blockCondition)] + front + back, [TARGET(n.junctionExit)], c2, [TARGET(n.blockExit)]);
    WhileText(n, d, ts, s, m);
    PlainWhile(n, ts);
  }

  lemma ForBared(n: Node, d: set<nat>, ts: Targets, s: Facts, m: nat)
    requires n.For?
    ensures Bared(Emit(n, d, ts, s, m).code) == Plain(n, ts)
    decreases n, 0, 1
  {
    hide Bared, Plain, Emit;
    var w, h := Emit(n.init, d, ts, s, m), Merge(s, n.junctionCondition, m);
    var x := Emits(n.c, h, ts, s, m);
    var y := Emit(n.body, x.d, ForTargets(n, ts), s, m);
    var z := Emits(n.next, y.d, ts, s, m);
    var front, tail := Branched(n.c, x.code, n.junctionExit), ForTail(n, y.d, ts, s, m);
    var c1, c2 := Join(s, w.d, n.junctionCondition, m, 0), Join(s, z.d, n.junctionExit, m, 0);
    EmitBared(n.init, d, ts, s, m);
    FrontBared(n.c, h, ts, s, m, n.junctionExit);
    EmitBared(n.body, x.d, ForTargets(n, ts), s, m);
    TailBared(n, y.d, ts, s, m);
    BaredNuls(s, w.d, n.junctionCondition, m, 0);
    BaredNuls(s, z.d, n.junctionExit, m, 0);
    BaredSame([TARGET(n.blockCondition)]);
    BaredSame([TARGET(n.junctionExit)]);
    BaredSame([TARGET(n.blockExit)]);
    var body := y.code + tail;
    BaredJoin(y.code, tail);
    var loop := c1 + [TARGET(n.blockCondition)] + front + body;
    BaredFour(c1, [TARGET(n.blockCondition)], front, body);
    BaredFour(loop, [TARGET(n.junctionExit)], c2, [TARGET(n.blockExit)]);
    BaredJoin(w.code, loop + [TARGET(n.junctionExit)] + c2 + [TARGET(n.blockExit)]);
    ForText(n, d, ts, s, m);
    PlainFor(n, ts);
  }

  ghost function PlainTail(n: Node, ts: Targets): Code
    requires n.For?
  {
    (if n.next.Some? then [TARGET(n.blockNext)] + Plain(n.next.value, ts) else []) + [JUMP(n.blockCondition)]
  }

  lemma TailBared(n: Node, d: set<nat>, ts: Targets, s: Facts, m: nat)
    requires n.For?
    ensures Bared(ForTail(n, d, ts, s, m)) == PlainTail(n, ts)
    decreases n, 0, 0
  {
    hide Plain, Emit;
    var z := Emits(n.next, d, ts, s, m);
    if n.next.Some? {
      EmitBared(n.next.value, d, ts, s, m);
      BaredJoin([TARGET(n.blockNext)], z.code);
    }
    BaredJoin(if n.next.Some? then [TARGET(n.blockNext)] + z.code else [], [JUMP(n.blockCondition)]);
  }

  lemma PlainFor(n: Node, ts: Targets)
    requires n.For?
    ensures Plain(n, ts) ==
      Plain(n.init, ts) + ([TARGET(n.blockCondition)] + PlainFront(n.c, n.junctionExit, ts)
      + (Plain(n.body, ForTargets(n, ts)) + PlainTail(n, ts)) + [TARGET(n.junctionExit)] + [TARGET(n.blockExit)])
  {
    PlainSplit(Plain(n.init, ts), [TARGET(n.blockCondition)], PlainFront(n.c, n.junctionExit, ts),
               Plain(n.body, ForTargets(n, ts)),
               if n.next.Some? then [TARGET(n.blockNext)] + Plain(n.next.value, ts) else [],
               JUMP(n.blockCondition), TARGET(n.junctionExit), TARGET(n.blockExit));
  }

  lemma PlainSplit(w: Code, t: Code, x: Code, y: Code, z: Code, back: Instruction, exit: Instruction, end: Instruction)
    ensures w + t + x + y + z + [back, exit, end] == w + (t + x + (y + (z + [back])) + [exit] + [end])
  {
  }

  /** The body of a scope is analysed, and its code is emitted. The facts are exact;
      the code is that of the body with nothing but NULs added; no run clears a
      variable that has been assigned, and none reads one that is raw if and only if
      none is at risk. */
  method Compile(n: Node, m: nat, entry: nat, exit: nat, size: nat)
      returns (code: Code, ins: seq<set<nat>>, uses: seq<set<nat>>)
    requires Proper(n, m, entry, exit, size)
    ensures |ins| == |uses| == size
    ensures forall b: nat, i: nat :: b < size ==> (i in ins[b] <==> AccessedBefore(Whole(n, entry, exit), size, entry, b, i))
    ensures forall b: nat, i: nat :: b < size ==> (i in uses[b] <==> ReadAhead(Whole(n, entry, exit), size, b, i))
    ensures code == Emit(n, {}, OUTSIDE, FactsOf(ins, uses), m).code + [RETURN]
    ensures Bared(code) == Plain(n, OUTSIDE) + [RETURN]
    ensures Sparing(code, m) && (Safe(code, m) <==> Riskless(n, FactsOf(ins, uses), m)) && (Tidy(n, false) ==> Safe(code, m))
  {
    hide Proper, Whole, Solves, Safe, Sparing, Connected, AccessedBefore, ReadAhead, Plain, Emit, Bared, Riskless, Tidy;
    ins, uses := Analyze(n, m, entry, exit, size);
    var s := FactsOf(ins, uses);
    AnalysedSolves(n, m, entry, exit, size, ins, uses);
    AnalysedMeans(n, m, entry, exit, size, ins, uses);
    hide Analysed;
    EmitSafe(n, m, entry, exit, size, s);
    code := Emit(n, {}, OUTSIDE, s, m).code + [RETURN];
    EmitBared(n, {}, OUTSIDE, s, m);
    BaredJoin(Emit(n, {}, OUTSIDE, s, m).code, [RETURN]);
    BaredReturn();
  }

  lemma BaredReturn()
    ensures Bared([RETURN]) == [RETURN]
  {
  }

  lemma AnalysedMeans(n: Node, m: nat, entry: nat, exit: nat, size: nat, ins: seq<set<nat>>, uses: seq<set<nat>>)
    requires Proper(n, m, entry, exit, size) && Analysed(Whole(n, entry, exit), entry, exit, size, ins, uses)
    ensures |ins| == |uses| == size
    ensures forall b: nat, i: nat :: b < size ==> (i in ins[b] <==> AccessedBefore(Whole(n, entry, exit), size, entry, b, i))
    ensures forall b: nat, i: nat :: b < size ==> (i in uses[b] <==> ReadAhead(Whole(n, entry, exit), size, b, i))
  {
    var w := Whole(n, entry, exit);
    AnalysedSized(w, entry, exit, size, ins, uses);
    WholeConnected(n, m, entry, exit, size);
    hide Whole, Proper, Connected, Analysed, AccessedBefore, ReadAhead;
    forall b: nat, i: nat | b < size
      ensures i in ins[b] <==> AccessedBefore(w, size, entry, b, i)
      ensures i in uses[b] <==> ReadAhead(w, size, b, i)
    {
      EnteredMeans(w, entry, exit, size, ins, uses, b, i);
      UsedMeans(w, entry, exit, size, ins, uses, b, i);
    }
  }

  lemma AnalysedSized(w: Flowed, entry: nat, exit: nat, size: nat, ins: seq<set<nat>>, uses: seq<set<nat>>)
    requires Analysed(w, entry, exit, size, ins, uses)
    ensures |ins| == |uses| == size
  {
  }
}
