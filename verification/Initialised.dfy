/** What is known along the emitted code: it never clears a variable that has been
    assigned, and it reads one that is raw only where a way through the node says so. */
module Initialised {
  import opened Options
  import opened Initialising
  import opened Flowing
  import opened Unset

  // ----- Places in the code -----

  /** What is taken for initialised, and what may still be raw. */
  datatype Place = Place(d: set<nat>, raw: set<nat>)

  /** After a node. */
  ghost function Past(n: Node, p: Place, ts: Targets, s: Facts, m: nat): Place {
    Place(Emit(n, p.d, ts, s, m).d, set k | k in p.raw && Raw(n, k, p.d, ts, s, m).end)
  }

  ghost function Pasts(c: Option<Node>, p: Place, ts: Targets, s: Facts, m: nat): Place {
    Place(Emits(c, p.d, ts, s, m).d, set k | k in p.raw && Raws(c, k, p.d, ts, s, m).end)
  }

  /** Where the rest of an operation begins. */
  ghost function Readied(p: Place, i: nat, call: bool): Place {
    if call then p else Place(p.d + {i}, if i in p.d then p.raw else p.raw - {i})
  }

  /** After a join for the junction `j`. */
  ghost function Beyond(p: Place, j: nat, s: Facts): Place {
    Place(p.d, set k | k in p.raw && !Cleared(s, p.d, j, k))
  }

  /** At a junction that is come to from before. */
  ghost function Junction(p: Place, j: nat, s: Facts, m: nat): Place {
    Place(Merge(s, j, m), Beyond(p, j, s).raw)
  }

  /** Where a branch leads, if there is one. */
  ghost function Branch(c: Option<Node>, p: Place): Place {
    if c.Some? then p else Place(p.d, {})
  }

  /** At the step of a loop, come to from the end of the body or by `continue`. */
  ghost function Stepped(body: Node, p: Place, ts: Targets, s: Facts, m: nat): Place {
    Place(Emit(body, p.d, ts, s, m).d,
          set k | k in p.raw && (Raw(body, k, p.d, ts, s, m).end || Raw(body, k, p.d, ts, s, m).onContinue))
  }

  /** Where `break` leads to, and `continue`: `floor` is what a loop takes for
      initialised all along. */
  ghost function Broken(n: Node, p: Place, ts: Targets, s: Facts, m: nat, floor: set<nat>): Place {
    Place(floor, set k | k in p.raw && Raw(n, k, p.d, ts, s, m).onBreak)
  }

  ghost function Continued(n: Node, p: Place, ts: Targets, s: Facts, m: nat, floor: set<nat>): Place {
    Place(floor, set k | k in p.raw && Raw(n, k, p.d, ts, s, m).onContinue)
  }

  // ----- What is known at a label -----

  ghost function Mark(p: Place, m: nat): Known {
    Known(p.d, set k: nat | k < m && k !in p.raw)
  }

  ghost predicate At(lab: map<nat, Known>, l: nat, k: Known) {
    l in lab && lab[l] == k
  }

  ghost predicate Labelled(n: Node, p: Place, ts: Targets, s: Facts, m: nat, lab: map<nat, Known>)
    decreases n
  {
    match n
    case Operate(i, call, rest) => Labelled(rest, Readied(p, i, call), ts, s, m, lab)
    case Then(a, b) => Labelled(a, p, ts, s, m, lab) && Labelled(b, Past(a, p, ts, s, m), ts, s, m, lab)
    case If(c, t, f, bt, bf, j, be) =>
      var x := Pasts(c, p, ts, s, m);
      && (c.Some? ==> Labelled(c.value, p, ts, s, m, lab))
      && Labelled(t, x, ts, s, m, lab) && Labelled(f, Branch(c, x), ts, s, m, lab)
      && At(lab, bf, Mark(Branch(c, x), m)) && At(lab, be, Mark(Past(n, p, ts, s, m), m))
    case While(c, body, jc, bc, bb, jx, be) =>
      var h := Junction(p, jc, s, m);
      var x := Pasts(c, h, ts, s, m);
      && (c.Some? ==> Labelled(c.value, h, ts, s, m, lab)) && Labelled(body, x, WhileTargets(n), s, m, lab)
      && At(lab, bc, Mark(h, m)) && At(lab, jx, Mark(Branch(c, x), m)) && At(lab, be, Mark(Past(n, p, ts, s, m), m))
    case For(init, c, next, body, jc, bc, bb, jn, bn, jx, be) =>
      var h := Junction(Past(init, p, ts, s, m), jc, s, m);
      var x := Pasts(c, h, ts, s, m);
      var y := Stepped(body, x, ForTargets(n, ts), s, m);
      && Labelled(init, p, ts, s, m, lab) && (c.Some? ==> Labelled(c.value, h, ts, s, m, lab))
      && Labelled(body, x, ForTargets(n, ts), s, m, lab)
      && (next.Some? ==> Labelled(next.value, y, ts, s, m, lab) && At(lab, bn, Mark(y, m)))
      && At(lab, bc, Mark(h, m)) && At(lab, jx, Mark(Branch(c, x), m)) && At(lab, be, Mark(Past(n, p, ts, s, m), m))
    case Break(e) => Labelled(e, p, ts, s, m, lab)
    case Return(e) => Labelled(e, p, ts, s, m, lab)
    case _ => true
  }

  // ----- What is known where code is emitted -----

  /** What does not change while the code is checked; if `strict`, what is read has
      to be initialised. */
  datatype View = View(g: Scope, lab: map<nat, Known>, strict: bool)

  ghost predicate Here(v: View, a: Option<Known>, p: Place) {
    a.Some? ==> a.value.written <= p.d && forall k: nat :: k < v.g.m && k !in p.raw ==> k in a.value.ready
  }

  /** The code leads to the place. */
  ghost predicate Leads(v: View, code: Code, a: Option<Known>, p: Place) {
    Checks(code, a, v.lab, v.g.m, v.strict) && Here(v, End(code, a, v.lab), p)
  }

  /** From the place a jump to the label is allowed. */
  ghost predicate Lands(v: View, l: nat, p: Place) {
    l in v.lab && p.d <= v.lab[l].written && forall k :: k in v.lab[l].ready ==> k < v.g.m && k !in p.raw
  }

  /** What has less is in place too. */
  ghost predicate Inside(p: Place, q: Place) {
    p.d <= q.d && p.raw <= q.raw
  }

  lemma MarkLands(v: View, l: nat, p: Place, q: Place)
    requires At(v.lab, l, Mark(q, v.g.m)) && Inside(p, q)
    ensures Lands(v, l, p)
  {
  }

  lemma LeadsThen(v: View, c1: Code, c2: Code, a: Option<Known>, p: Place, q: Place)
    requires Leads(v, c1, a, p) && Leads(v, c2, End(c1, a, v.lab), q)
    ensures Leads(v, c1 + c2, a, q) && End(c1 + c2, a, v.lab) == End(c2, End(c1, a, v.lab), v.lab)
  {
    ChecksJoin(c1, c2, a, v.lab, v.g.m, v.strict);
  }

  lemma ChecksOne(v: View, x: Instruction, a: Option<Known>)
    ensures End([x], a, v.lab) == After(x, a, v.lab)
    ensures Checks([x], a, v.lab, v.g.m, v.strict) <==> Allowed(x, a, v.lab, v.g.m, v.strict) && (x.TARGET? ==> x.l in v.lab)
  {
    assert [x][1..] == [];
  }

  lemma JumpLeads(v: View, a: Option<Known>, p: Place, l: nat, q: Place)
    requires Here(v, a, p) && Lands(v, l, p)
    ensures Leads(v, [JUMP(l)], a, q) && End([JUMP(l)], a, v.lab) == None
  {
    ChecksOne(v, JUMP(l), a);
  }

  lemma BranchLeads(v: View, a: Option<Known>, p: Place, l: nat)
    requires Here(v, a, p) && Lands(v, l, p)
    ensures Leads(v, [BRANCH(l)], a, p)
  {
    ChecksOne(v, BRANCH(l), a);
  }

  lemma TargetLeads(v: View, a: Option<Known>, p: Place, l: nat, q: Place)
    requires Here(v, a, p) && Lands(v, l, p) && At(v.lab, l, Mark(q, v.g.m))
    ensures Leads(v, [TARGET(l)], a, q) && End([TARGET(l)], a, v.lab) == Some(Mark(q, v.g.m))
  {
    ChecksOne(v, TARGET(l), a);
  }

  /** A label that is only jumped to. */
  lemma LabelLeads(v: View, l: nat, q: Place)
    requires At(v.lab, l, Mark(q, v.g.m))
    ensures Leads(v, [TARGET(l)], None, q) && End([TARGET(l)], None, v.lab) == Some(Mark(q, v.g.m))
  {
    ChecksOne(v, TARGET(l), None);
  }

  // ----- Joins -----

  lemma NulChecks(v: View, a: Option<Known>, d: set<nat>, i: nat, rest: Code)
    requires i < v.g.m && i !in d && (a.Some? ==> a.value.written <= d)
    ensures var e := After(NUL(i), a, v.lab);
      && (Checks([NUL(i)] + rest, a, v.lab, v.g.m, v.strict) <==> Checks(rest, e, v.lab, v.g.m, v.strict))
      && End([NUL(i)] + rest, a, v.lab) == End(rest, e, v.lab)
  {
    ChecksOne(v, NUL(i), a);
    hide Checks, End;
    ChecksJoin([NUL(i)], rest, a, v.lab, v.g.m, v.strict);
  }

  lemma {:induction false} JoinChecks(v: View, a: Option<Known>, d: set<nat>, j: nat, i: nat)
    requires i <= v.g.m && (a.Some? ==> a.value.written <= d)
    ensures var e := End(Join(v.g.s, d, j, v.g.m, i), a, v.lab);
      && Checks(Join(v.g.s, d, j, v.g.m, i), a, v.lab, v.g.m, v.strict) && e.Some? == a.Some?
      && (a.Some? ==> (e.value.written == a.value.written && a.value.ready <= e.value.ready
                       && forall k :: i <= k < v.g.m && Cleared(v.g.s, d, j, k) ==> k in e.value.ready))
    decreases v.g.m - i
  {
    if i < v.g.m {
      var rest := Join(v.g.s, d, j, v.g.m, i + 1);
      if Cleared(v.g.s, d, j, i) {
        NulChecks(v, a, d, i, rest);
        JoinChecks(v, After(NUL(i), a, v.lab), d, j, i + 1);
      } else {
        JoinChecks(v, a, d, j, i + 1);
        assert [] + rest == rest;
      }
    }
  }

  lemma JoinLeads(v: View, a: Option<Known>, p: Place, j: nat)
    requires Here(v, a, p)
    ensures Leads(v, Join(v.g.s, p.d, j, v.g.m, 0), a, Beyond(p, j, v.g.s))
  {
    JoinChecks(v, a, p.d, j, 0);
  }

  /** A join and a jump. */
  lemma JoinJump(v: View, a: Option<Known>, p: Place, j: nat, l: nat, q: Place)
    requires Here(v, a, p) && Lands(v, l, Beyond(p, j, v.g.s))
    ensures Leads(v, Join(v.g.s, p.d, j, v.g.m, 0) + [JUMP(l)], a, q)
    ensures End(Join(v.g.s, p.d, j, v.g.m, 0) + [JUMP(l)], a, v.lab) == None
  {
    hide Lands, Here;
    JoinLeads(v, a, p, j);
    var join := Join(v.g.s, p.d, j, v.g.m, 0);
    JumpLeads(v, End(join, a, v.lab), Beyond(p, j, v.g.s), l, q);
    LeadsThen(v, join, [JUMP(l)], a, Beyond(p, j, v.g.s), q);
  }

  /** A join and a label. */
  lemma JoinTarget(v: View, a: Option<Known>, p: Place, j: nat, l: nat, q: Place)
    requires Here(v, a, p) && Lands(v, l, Beyond(p, j, v.g.s)) && At(v.lab, l, Mark(q, v.g.m))
    ensures Leads(v, Join(v.g.s, p.d, j, v.g.m, 0) + [TARGET(l)], a, q)
    ensures End(Join(v.g.s, p.d, j, v.g.m, 0) + [TARGET(l)], a, v.lab) == Some(Mark(q, v.g.m))
  {
    hide Lands, Here, At;
    JoinLeads(v, a, p, j);
    var join := Join(v.g.s, p.d, j, v.g.m, 0);
    TargetLeads(v, End(join, a, v.lab), Beyond(p, j, v.g.s), l, q);
    LeadsThen(v, join, [TARGET(l)], a, Beyond(p, j, v.g.s), q);
  }

  // ----- Constructs, given their parts -----

  lemma MarkHere(v: View, p: Place)
    ensures Here(v, Some(Mark(p, v.g.m)), p)
  {
  }

  /** A condition, if there is one, and the branch. */
  lemma FrontLeads(v: View, c: Option<Node>, code: Code, a: Option<Known>, p: Place, l: nat)
    requires Leads(v, code, a, p) && (c.Some? ==> Lands(v, l, p))
    ensures Leads(v, Branched(c, code, l), a, p)
  {
    if c.Some? {
      BranchLeads(v, End(code, a, v.lab), p, l);
      LeadsThen(v, code, [BRANCH(l)], a, p, p);
    } else {
      assert code + [] == code;
    }
  }

  /** The branches `y` and `z` of a condition, each from its start to its end. */
  lemma IfLeads(v: View, a: Option<Known>, front: Code, x: Place, yc: Code, y: Place, bf: nat, x': Place, zc: Code, z: Place,
                j: nat, be: nat, q: Place)
    requires Leads(v, front, a, x) && Leads(v, yc, End(front, a, v.lab), y)
    requires At(v.lab, bf, Mark(x', v.g.m)) && Leads(v, zc, Some(Mark(x', v.g.m)), z)
    requires At(v.lab, be, Mark(q, v.g.m)) && Lands(v, be, Beyond(y, j, v.g.s)) && Lands(v, be, Beyond(z, j, v.g.s))
    ensures Leads(v, front + yc + Join(v.g.s, y.d, j, v.g.m, 0) + [JUMP(be), TARGET(bf)] + zc + Join(v.g.s, z.d, j, v.g.m, 0)
                     + [TARGET(be)], a, q)
  {
    hide Checks, End, Join, Here, Lands, At, Mark, Beyond;
    LeadsHere(v, yc, End(front, a, v.lab), y);
    LeadsHere(v, zc, Some(Mark(x', v.g.m)), z);
    hide Leads;
    var join, join' := Join(v.g.s, y.d, j, v.g.m, 0), Join(v.g.s, z.d, j, v.g.m, 0);
    var c1, c2, c3, c4 := front + yc, join + [JUMP(be)], [TARGET(bf)], join' + [TARGET(be)];
    LeadsThen(v, front, yc, a, x, y);
    JoinJump(v, End(c1, a, v.lab), y, j, be, q);
    LeadsThen(v, c1, c2, a, y, q);
    LabelLeads(v, bf, x');
    LeadsThen(v, c1 + c2, c3, a, q, x');
    LeadsThen(v, c1 + c2 + c3, zc, a, x', z);
    JoinTarget(v, End(zc, Some(Mark(x', v.g.m)), v.lab), z, j, be, q);
    LeadsThen(v, c1 + c2 + c3 + zc, c4, a, z, q);
    assert c1 + c2 + c3 + zc + c4 == front + yc + join + [JUMP(be), TARGET(bf)] + zc + join' + [TARGET(be)];
  }

  lemma LeadsHere(v: View, code: Code, a: Option<Known>, p: Place)
    requires Leads(v, code, a, p)
    ensures Here(v, End(code, a, v.lab), p)
  {
  }

  /** A loop: `front` is its condition with the branch, `back` its body, with the
      step, and the jump back; `f` is taken for initialised at its exit. */
  lemma LoopLeads(v: View, a: Option<Known>, p: Place, jc: nat, bc: nat, h: Place, front: Code, x: Place, back: Code,
                  jx: nat, t: Place, f: set<nat>, be: nat, q: Place)
    requires Here(v, a, p) && Lands(v, bc, Beyond(p, jc, v.g.s)) && At(v.lab, bc, Mark(h, v.g.m))
    requires Leads(v, front, Some(Mark(h, v.g.m)), x) && Leads(v, back, End(front, Some(Mark(h, v.g.m)), v.lab), x)
    requires End(back, End(front, Some(Mark(h, v.g.m)), v.lab), v.lab) == None
    requires At(v.lab, jx, Mark(t, v.g.m)) && t.d <= f && Lands(v, be, Beyond(Place(f, t.raw), jx, v.g.s))
    requires At(v.lab, be, Mark(q, v.g.m))
    ensures Leads(v, Join(v.g.s, p.d, jc, v.g.m, 0) + [TARGET(bc)] + front + back + [TARGET(jx)]
                     + Join(v.g.s, f, jx, v.g.m, 0) + [TARGET(be)], a, q)
  {
    BranchHere(v, t, f);
    hide Checks, End, Join, Here, Leads, Lands, At, Mark, Beyond;
    var c0, c1 := Join(v.g.s, p.d, jc, v.g.m, 0) + [TARGET(bc)], Join(v.g.s, f, jx, v.g.m, 0) + [TARGET(be)];
    JoinTarget(v, a, p, jc, bc, h);
    LeadsThen(v, c0, front, a, h, x);
    LeadsThen(v, c0 + front, back, a, x, x);
    LabelLeads(v, jx, t);
    LeadsThen(v, c0 + front + back, [TARGET(jx)], a, x, t);
    JoinTarget(v, Some(Mark(t, v.g.m)), Place(f, t.raw), jx, be, q);
    LeadsThen(v, c0 + front + back + [TARGET(jx)], c1, a, t, q);
    assert c0 + front + back + [TARGET(jx)] + c1 ==
      Join(v.g.s, p.d, jc, v.g.m, 0) + [TARGET(bc)] + front + back + [TARGET(jx)] + Join(v.g.s, f, jx, v.g.m, 0) + [TARGET(be)];
  }

  lemma BranchHere(v: View, t: Place, f: set<nat>)
    requires t.d <= f
    ensures Here(v, Some(Mark(t, v.g.m)), Place(f, t.raw))
  {
  }

  // ----- All nodes -----

  /** In a loop all that has been accessed by the end of the node is in `floor`. */
  ghost predicate Floored(g: Scope, n: Node, b: nat, acc: Firsts, ends: Ends, loop: bool, floor: set<nat>) {
    forall i: nat :: i < g.m && i !in floor ==> LaxEnd(g, i, n, b, acc, ends, loop, floor)
  }

  /** Variables that a way leaves raw by a jump are not taken for ready where it
      leads; if it has to be strict, none is read. */
  ghost predicate Fair(v: View, n: Node, p: Place, ts: Targets, loop: bool, floor: set<nat>) {
    && (loop ==> Lands(v, ts.onBreak, Broken(n, p, ts, v.g.s, v.g.m, floor))
                 && Lands(v, ts.onContinue, Continued(n, p, ts, v.g.s, v.g.m, floor)))
    && (v.strict ==> forall k :: k in p.raw ==> !Raw(n, k, p.d, ts, v.g.s, v.g.m).read)
  }

  /** All that the emission of a node relies on. */
  ghost predicate Apt(v: View, n: Node, b: nat, acc: Firsts, ends: Ends, p: Place, ts: Targets, a: Option<Known>, loop: bool,
                      floor: set<nat>)
  {
    && Ground(v.g, n, b, acc, ends, p.d, ts, loop) && Floored(v.g, n, b, acc, ends, loop, floor)
    && Labelled(n, p, ts, v.g.s, v.g.m, v.lab) && Fair(v, n, p, ts, loop, floor) && Here(v, a, p)
  }

  /** The ways `x` leave a loop, or read, only where `y` do. */
  ghost predicate Under(x: Ways, y: Ways) {
    (x.onBreak ==> y.onBreak) && (x.onContinue ==> y.onContinue) && (x.read ==> y.read)
  }

  lemma FairPart(v: View, n: Node, p: Place, ts: Targets, loop: bool, floor: set<nat>, n': Node, p': Place)
    requires Fair(v, n, p, ts, loop, floor)
    requires forall k :: k in p'.raw ==> k in p.raw && Under(Raw(n', k, p'.d, ts, v.g.s, v.g.m), Raw(n, k, p.d, ts, v.g.s, v.g.m))
    ensures Fair(v, n', p', ts, loop, floor)
  {
    hide Raw;
  }

  lemma OptionLeads(v: View, c: Option<Node>, b: nat, acc: Firsts, ends: Ends, p: Place, ts: Targets, a: Option<Known>,
                    loop: bool, floor: set<nat>)
    requires Here(v, a, p) && (c.Some? ==> Apt(v, c.value, b, acc, ends, p, ts, a, loop, floor))
    ensures Leads(v, Emits(c, p.d, ts, v.g.s, v.g.m).code, a, Pasts(c, p, ts, v.g.s, v.g.m))
    decreases c, 2
  {
    if c.Some? {
      EmitLeads(v, c.value, b, acc, ends, p, ts, a, loop, floor);
    }
  }

  lemma {:induction false} EmitLeads(v: View, n: Node, b: nat, acc: Firsts, ends: Ends, p: Place, ts: Targets, a: Option<Known>,
                                     loop: bool, floor: set<nat>)
    requires Apt(v, n, b, acc, ends, p, ts, a, loop, floor)
    ensures Leads(v, Emit(n, p.d, ts, v.g.s, v.g.m).code, a, Past(n, p, ts, v.g.s, v.g.m))
    decreases n, 1
  {
    hide Apt, Leads, Past, Emit;
    match n
    case Skip => SkipLeads(v, n, b, acc, ends, p, ts, a, loop, floor);
    case Access(_, _) => AccessLeads(v, n, b, acc, ends, p, ts, a, loop, floor);
    case Operate(_, _, _) => OperateLeads(v, n, b, acc, ends, p, ts, a, loop, floor);
    case Then(_, _) => ThenLeads(v, n, b, acc, ends, p, ts, a, loop, floor);
    case If(_, _, _, _, _, _, _) => IfEmit(v, n, b, acc, ends, p, ts, a, loop, floor);
    case While(_, _, _, _, _, _, _) => WhileEmit(v, n, b, acc, ends, p, ts, a, loop, floor);
    case For(_, _, _, _, _, _, _, _, _, _, _) => ForEmit(v, n, b, acc, ends, p, ts, a, loop, floor);
    case Break(_) => BreakLeads(v, n, b, acc, ends, p, ts, a, loop, floor);
    case Continue => ContinueLeads(v, n, b, acc, ends, p, ts, a, loop, floor);
    case Return(_) => ReturnLeads(v, n, b, acc, ends, p, ts, a, loop, floor);
  }

  lemma SkipLeads(v: View, n: Node, b: nat, acc: Firsts, ends: Ends, p: Place, ts: Targets, a: Option<Known>, loop: bool,
                  floor: set<nat>)
    requires n.Skip? && Apt(v, n, b, acc, ends, p, ts, a, loop, floor)
    ensures Leads(v, Emit(n, p.d, ts, v.g.s, v.g.m).code, a, Past(n, p, ts, v.g.s, v.g.m))
  {
  }

  lemma AccessLeads(v: View, n: Node, b: nat, acc: Firsts, ends: Ends, p: Place, ts: Targets, a: Option<Known>, loop: bool,
                    floor: set<nat>)
    requires n.Access? && Apt(v, n, b, acc, ends, p, ts, a, loop, floor)
    ensures Leads(v, Emit(n, p.d, ts, v.g.s, v.g.m).code, a, Past(n, p, ts, v.g.s, v.g.m))
  {
    var i := n.i;
    var x := if n.put then WRITE(i) else READ(i);
    if !n.put && i !in p.d {
      ChecksJoin([NUL(i)], [x], a, v.lab, v.g.m, v.strict);
      ChecksOne(v, NUL(i), a);
      ChecksOne(v, x, After(NUL(i), a, v.lab));
    } else {
      assert [] + [x] == [x];
      assert !n.put && i in p.raw ==> Raw(n, i, p.d, ts, v.g.s, v.g.m).read;
      ChecksOne(v, x, a);
    }
  }

  lemma OperateLeads(v: View, n: Node, b: nat, acc: Firsts, ends: Ends, p: Place, ts: Targets, a: Option<Known>, loop: bool,
                  floor: set<nat>)
    requires n.Operate? && Apt(v, n, b, acc, ends, p, ts, a, loop, floor)
    ensures Leads(v, Emit(n, p.d, ts, v.g.s, v.g.m).code, a, Past(n, p, ts, v.g.s, v.g.m))
    decreases n, 0
  {
    var r := Readied(p, n.i, n.call);
    var q, code := Past(n.rest, r, ts, v.g.s, v.g.m), Emit(n.rest, r.d, ts, v.g.s, v.g.m).code;
    var nul, x := if !n.call && n.i !in p.d then [NUL(n.i)] else [], if n.call then CALL(n.i) else READ(n.i);
    OperateNul(v, n, p, a, nul);
    OperateApt(v, n, b, acc, ends, p, ts, a, loop, floor);
    var a1 := End(nul, a, v.lab);
    AptHere(v, n.rest, b, Use(acc, n.i, false), ends, r, ts, a1, loop, floor);
    EmitLeads(v, n.rest, b, Use(acc, n.i, false), ends, r, ts, a1, loop, floor);
    assert q == Past(n, p, ts, v.g.s, v.g.m);
    assert v.strict && n.i in q.raw ==> Raw(n, n.i, p.d, ts, v.g.s, v.g.m).read;
    assert n.i < v.g.m;
    ChecksOne(v, x, End(code, a1, v.lab));
    LeadsThen(v, nul, code, a, r, q);
    LeadsThen(v, nul + code, [x], a, q, q);
  }

  lemma OperateNul(v: View, n: Node, p: Place, a: Option<Known>, nul: Code)
    requires n.Operate? && Here(v, a, p) && n.i < v.g.m
    requires nul == if !n.call && n.i !in p.d then [NUL(n.i)] else []
    ensures Leads(v, nul, a, Readied(p, n.i, n.call))
  {
    if nul != [] {
      ChecksOne(v, NUL(n.i), a);
    }
  }

  lemma OperateApt(v: View, n: Node, b: nat, acc: Firsts, ends: Ends, p: Place, ts: Targets, a: Option<Known>, loop: bool,
                   floor: set<nat>)
    requires n.Operate? && Apt(v, n, b, acc, ends, p, ts, a, loop, floor)
    ensures Ready(v, n.rest, b, Use(acc, n.i, false), ends, Readied(p, n.i, n.call), ts, loop, floor)
  {
    FairPart(v, n, p, ts, loop, floor, n.rest, Readied(p, n.i, n.call));
    hide Ground, LaxEnd, Fair, Here;
    forall i: nat
      ensures LaxEnd(v.g, i, n, b, acc, ends, loop, floor) ==> LaxEnd(v.g, i, n.rest, b, Use(acc, n.i, false), ends, loop, floor)
    {
      OperateGround(v.g, n, b, acc, ends, p.d, ts, loop, i, floor);
    }
    OperateGround(v.g, n, b, acc, ends, p.d, ts, loop, 0, floor);
    NoneHere(v, Readied(p, n.i, n.call));
  }

  lemma ThenLeads(v: View, n: Node, b: nat, acc: Firsts, ends: Ends, p: Place, ts: Targets, a: Option<Known>, loop: bool,
                  floor: set<nat>)
    requires n.Then? && Apt(v, n, b, acc, ends, p, ts, a, loop, floor)
    ensures Leads(v, Emit(n, p.d, ts, v.g.s, v.g.m).code, a, Past(n, p, ts, v.g.s, v.g.m))
    decreases n, 0
  {
    ThenApt(v, n, b, acc, ends, p, ts, a, loop, floor);
    hide Apt, Leads;
    var x, q := Flow(n.a, b, acc, ends), Past(n.a, p, ts, v.g.s, v.g.m);
    var e := Emit(n.a, p.d, ts, v.g.s, v.g.m);
    EmitLeads(v, n.a, b, acc, ends, p, ts, a, loop, floor);
    LeadsHere(v, e.code, a, q);
    AptHere(v, n.b, x.cur, x.acc, ends, q, ts, End(e.code, a, v.lab), loop, floor);
    EmitLeads(v, n.b, x.cur, x.acc, ends, q, ts, End(e.code, a, v.lab), loop, floor);
    assert Past(n.b, q, ts, v.g.s, v.g.m) == Past(n, p, ts, v.g.s, v.g.m);
    LeadsThen(v, e.code, Emit(n.b, e.d, ts, v.g.s, v.g.m).code, a, q, Past(n, p, ts, v.g.s, v.g.m));
  }

  /** Only what is known there is missing. */
  ghost predicate Ready(v: View, n: Node, b: nat, acc: Firsts, ends: Ends, p: Place, ts: Targets, loop: bool, floor: set<nat>) {
    Apt(v, n, b, acc, ends, p, ts, None, loop, floor)
  }

  lemma AptHere(v: View, n: Node, b: nat, acc: Firsts, ends: Ends, p: Place, ts: Targets, a: Option<Known>, loop: bool,
                floor: set<nat>)
    requires Ready(v, n, b, acc, ends, p, ts, loop, floor) && Here(v, a, p)
    ensures Apt(v, n, b, acc, ends, p, ts, a, loop, floor)
  {
  }

  lemma ThenApt(v: View, n: Node, b: nat, acc: Firsts, ends: Ends, p: Place, ts: Targets, a: Option<Known>, loop: bool,
                floor: set<nat>)
    requires n.Then? && Apt(v, n, b, acc, ends, p, ts, a, loop, floor)
    ensures Apt(v, n.a, b, acc, ends, p, ts, a, loop, floor)
    ensures var x := Flow(n.a, b, acc, ends);
      Ready(v, n.b, x.cur, x.acc, ends, Past(n.a, p, ts, v.g.s, v.g.m), ts, loop, floor)
  {
    var x, q := Flow(n.a, b, acc, ends), Past(n.a, p, ts, v.g.s, v.g.m);
    FairPart(v, n, p, ts, loop, floor, n.a, p);
    FairPart(v, n, p, ts, loop, floor, n.b, q);
    hide Ground, LaxEnd, Fair, Here, Raw, Flow, Emit;
    forall i: nat
      ensures LaxEnd(v.g, i, n, b, acc, ends, loop, floor) ==>
        LaxEnd(v.g, i, n.a, b, acc, ends, loop, floor) && LaxEnd(v.g, i, n.b, x.cur, x.acc, ends, loop, floor)
    {
      ThenGround(v.g, n, b, acc, ends, p.d, ts, loop, i, floor);
    }
    ThenGround(v.g, n, b, acc, ends, p.d, ts, loop, 0, floor);
    NoneHere(v, q);
  }

  lemma NoneHere(v: View, p: Place)
    ensures Here(v, None, p)
  {
  }

  // ----- Jumps -----

  /** What is taken for initialised at a jump is in the floor of the loop. */
  lemma JumpFloor(g: Scope, n: Node, e: Node, b: nat, acc: Firsts, ends: Ends, d: set<nat>, ts: Targets, loop: bool, floor: set<nat>)
    requires Ground(g, n, b, acc, ends, d, ts, true) && Floored(g, n, b, acc, ends, true, floor) && n == Break(e)
    ensures Emit(e, d, ts, g.s, g.m).d <= floor
  {
    JumpWithin(g, n, b, acc, ends);
    EmitShape(g, e, b, acc, ends, d, ts, true);
    hide Solved, Within, Emit, Flow;
    var o := Flow(n, b, acc, ends);
    forall i | i in Emit(e, d, ts, g.s, g.m).d
      ensures i in floor
    {
      assert i !in floor ==> LaxEnd(g, i, n, b, acc, ends, true, floor);
    }
  }

  lemma BreakLeads(v: View, n: Node, b: nat, acc: Firsts, ends: Ends, p: Place, ts: Targets, a: Option<Known>, loop: bool,
                   floor: set<nat>)
    requires n.Break? && Apt(v, n, b, acc, ends, p, ts, a, loop, floor)
    ensures Leads(v, Emit(n, p.d, ts, v.g.s, v.g.m).code, a, Past(n, p, ts, v.g.s, v.g.m))
    decreases n, 0
  {
    JumpApt(v, n, b, acc, ends, p, ts, a, loop, floor);
    JumpFloor(v.g, n, n.e, b, acc, ends, p.d, ts, loop, floor);
    BreakLands(v, n, p, ts, floor);
    hide Apt, Leads, Lands, Here;
    var q, e := Past(n.e, p, ts, v.g.s, v.g.m), Emit(n.e, p.d, ts, v.g.s, v.g.m);
    EmitLeads(v, n.e, b, acc, ends, p, ts, a, loop, floor);
    LeadsHere(v, e.code, a, q);
    var join := Join(v.g.s, e.d, ts.breakJunction, v.g.m, 0);
    JoinJump(v, End(e.code, a, v.lab), q, ts.breakJunction, ts.onBreak, Past(n, p, ts, v.g.s, v.g.m));
    LeadsThen(v, e.code, join + [JUMP(ts.onBreak)], a, q, Past(n, p, ts, v.g.s, v.g.m));
    assert e.code + (join + [JUMP(ts.onBreak)]) == e.code + join + [JUMP(ts.onBreak)];
  }

  lemma BreakLands(v: View, n: Node, p: Place, ts: Targets, floor: set<nat>)
    requires n.Break? && Fair(v, n, p, ts, true, floor) && Emit(n.e, p.d, ts, v.g.s, v.g.m).d <= floor
    ensures Lands(v, ts.onBreak, Beyond(Past(n.e, p, ts, v.g.s, v.g.m), ts.breakJunction, v.g.s))
  {
    var q := Beyond(Past(n.e, p, ts, v.g.s, v.g.m), ts.breakJunction, v.g.s);
    forall k | k in q.raw
      ensures k in p.raw && Raw(n, k, p.d, ts, v.g.s, v.g.m).onBreak
    {
    }
  }

  lemma JumpApt(v: View, n: Node, b: nat, acc: Firsts, ends: Ends, p: Place, ts: Targets, a: Option<Known>, loop: bool,
                floor: set<nat>)
    requires (n.Break? || n.Return?) && Apt(v, n, b, acc, ends, p, ts, a, loop, floor)
    ensures Apt(v, n.e, b, acc, ends, p, ts, a, loop, floor) && (n.Break? ==> loop)
  {
    FairPart(v, n, p, ts, loop, floor, n.e, p);
    assert n.Break? ==> loop;
    hide Ground, LaxEnd, Fair, Here, Raw, Flow, Emit;
    forall i: nat
      ensures LaxEnd(v.g, i, n, b, acc, ends, loop, floor) ==> LaxEnd(v.g, i, n.e, b, acc, ends, loop, floor)
    {
      JumpGround(v.g, n, b, acc, ends, p.d, ts, loop, i, floor);
    }
    JumpGround(v.g, n, b, acc, ends, p.d, ts, loop, 0, floor);
  }

  lemma ContinueLeads(v: View, n: Node, b: nat, acc: Firsts, ends: Ends, p: Place, ts: Targets, a: Option<Known>, loop: bool,
                      floor: set<nat>)
    requires n.Continue? && Apt(v, n, b, acc, ends, p, ts, a, loop, floor)
    ensures Leads(v, Emit(n, p.d, ts, v.g.s, v.g.m).code, a, Past(n, p, ts, v.g.s, v.g.m))
  {
    forall i | i in p.d
      ensures i in floor
    {
      assert i !in floor ==> LaxEnd(v.g, i, n, b, acc, ends, loop, floor);
    }
    JumpLeads(v, a, p, ts.onContinue, Past(n, p, ts, v.g.s, v.g.m));
  }

  lemma ReturnLeads(v: View, n: Node, b: nat, acc: Firsts, ends: Ends, p: Place, ts: Targets, a: Option<Known>, loop: bool,
                    floor: set<nat>)
    requires n.Return? && Apt(v, n, b, acc, ends, p, ts, a, loop, floor)
    ensures Leads(v, Emit(n, p.d, ts, v.g.s, v.g.m).code, a, Past(n, p, ts, v.g.s, v.g.m))
    decreases n, 0
  {
    JumpApt(v, n, b, acc, ends, p, ts, a, loop, floor);
    hide Apt, Here;
    var q, e := Past(n.e, p, ts, v.g.s, v.g.m), Emit(n.e, p.d, ts, v.g.s, v.g.m);
    EmitLeads(v, n.e, b, acc, ends, p, ts, a, loop, floor);
    ChecksOne(v, RETURN, End(e.code, a, v.lab));
    NoneHere(v, Past(n, p, ts, v.g.s, v.g.m));
    LeadsThen(v, e.code, [RETURN], a, q, Past(n, p, ts, v.g.s, v.g.m));
  }

  // ----- Branches -----

  ghost predicate OptionApt(v: View, c: Option<Node>, b: nat, acc: Firsts, ends: Ends, p: Place, ts: Targets, a: Option<Known>,
                            loop: bool, floor: set<nat>)
  {
    Here(v, a, p) && (c.Some? ==> Apt(v, c.value, b, acc, ends, p, ts, a, loop, floor))
  }

  /** The ways of the parts are among those of the whole. */
  lemma IfWays(v: View, n: Node, p: Place, ts: Targets, k: nat)
    requires n.If? && k in p.raw
    ensures var x, r := Pasts(n.c, p, ts, v.g.s, v.g.m), Raw(n, k, p.d, ts, v.g.s, v.g.m);
      var rt, rf := Raw(n.t, k, x.d, ts, v.g.s, v.g.m), Raw(n.f, k, x.d, ts, v.g.s, v.g.m);
      && Under(Raws(n.c, k, p.d, ts, v.g.s, v.g.m), r)
      && (k in x.raw ==> Under(rt, r) && (n.c.Some? ==> Under(rf, r)))
      && (k in x.raw && rt.end && !Cleared(v.g.s, Emit(n.t, x.d, ts, v.g.s, v.g.m).d, n.junction, k) ==> r.end)
      && (k in x.raw && n.c.Some? && rf.end && !Cleared(v.g.s, Emit(n.f, x.d, ts, v.g.s, v.g.m).d, n.junction, k) ==> r.end)
  {
    IfRaw(n, k, p.d, ts, v.g.s, v.g.m);
    hide Raw, Emit, Cleared;
  }

  lemma IfApt(v: View, n: Node, b: nat, acc: Firsts, ends: Ends, p: Place, ts: Targets, a: Option<Known>, loop: bool,
              floor: set<nat>)
    requires n.If? && Apt(v, n, b, acc, ends, p, ts, a, loop, floor)
    ensures var x := Pasts(n.c, p, ts, v.g.s, v.g.m);
      && OptionApt(v, n.c, b, acc, ends, p, ts, a, loop, floor)
      && Ready(v, n.t, n.blockTrue, map[], ends, x, ts, loop, floor)
      && Ready(v, n.f, n.blockFalse, map[], ends, Branch(n.c, x), ts, loop, floor)
  {
    hide Ground, LaxEnd, Fair, Raw, Flow, Emit, Under;
    var x := Pasts(n.c, p, ts, v.g.s, v.g.m);
    forall k | k in p.raw
      ensures var r := Raw(n, k, p.d, ts, v.g.s, v.g.m);
        && Under(Raws(n.c, k, p.d, ts, v.g.s, v.g.m), r)
        && (k in x.raw ==> Under(Raw(n.t, k, x.d, ts, v.g.s, v.g.m), r)
                           && (n.c.Some? ==> Under(Raw(n.f, k, x.d, ts, v.g.s, v.g.m), r)))
    {
      IfWays(v, n, p, ts, k);
    }
    if n.c.Some? {
      FairPart(v, n, p, ts, loop, floor, n.c.value, p);
    }
    FairPart(v, n, p, ts, loop, floor, n.t, x);
    FairPart(v, n, p, ts, loop, floor, n.f, Branch(n.c, x));
    forall i: nat
      ensures LaxEnd(v.g, i, n, b, acc, ends, loop, floor) ==>
        && (n.c.Some? ==> LaxEnd(v.g, i, n.c.value, b, acc, ends, loop, floor))
        && LaxEnd(v.g, i, n.t, n.blockTrue, map[], ends, loop, floor) && LaxEnd(v.g, i, n.f, n.blockFalse, map[], ends, loop, floor)
    {
      IfGround(v.g, n, b, acc, ends, p.d, ts, loop, i, floor);
    }
    IfGround(v.g, n, b, acc, ends, p.d, ts, loop, 0, floor);
  }

  /** The branches end where the whole does. */
  lemma IfLands(v: View, n: Node, b: nat, acc: Firsts, ends: Ends, p: Place, ts: Targets, loop: bool)
    requires n.If? && Ground(v.g, n, b, acc, ends, p.d, ts, loop) && At(v.lab, n.blockExit, Mark(Past(n, p, ts, v.g.s, v.g.m), v.g.m))
    ensures var x := Pasts(n.c, p, ts, v.g.s, v.g.m);
      && Lands(v, n.blockExit, Beyond(Past(n.t, x, ts, v.g.s, v.g.m), n.junction, v.g.s))
      && Lands(v, n.blockExit, Beyond(Past(n.f, Branch(n.c, x), ts, v.g.s, v.g.m), n.junction, v.g.s))
  {
    var x, z := Pasts(n.c, p, ts, v.g.s, v.g.m), Branch(n.c, Pasts(n.c, p, ts, v.g.s, v.g.m));
    var q := Past(n, p, ts, v.g.s, v.g.m);
    GroundSolved(v.g, n, b, acc, ends, p.d, ts, loop);
    EmitMerges(n, p.d, ts, v.g.s, v.g.m);
    hide Raw, Emit, Flow, Cleared, Solved, Within, Shape, Lands;
    IfGround(v.g, n, b, acc, ends, p.d, ts, loop, 0, {});
    IfWithin(v.g, n, b, acc, ends);
    EndMerges(v.g, n.t, n.blockTrue, ends, x.d, ts, loop, n.junction);
    EndMerges(v.g, n.f, n.blockFalse, ends, x.d, ts, loop, n.junction);
    forall k | k in p.raw
      ensures k in Beyond(Past(n.t, x, ts, v.g.s, v.g.m), n.junction, v.g.s).raw ==> k in q.raw
      ensures k in Beyond(Past(n.f, z, ts, v.g.s, v.g.m), n.junction, v.g.s).raw ==> k in q.raw
    {
      IfWays(v, n, p, ts, k);
    }
    MarkLands(v, n.blockExit, Beyond(Past(n.t, x, ts, v.g.s, v.g.m), n.junction, v.g.s), q);
    MarkLands(v, n.blockExit, Beyond(Past(n.f, z, ts, v.g.s, v.g.m), n.junction, v.g.s), q);
  }

  /** What is taken for initialised at the end of a node is at the junction after it. */
  lemma EndMerges(g: Scope, n: Node, b: nat, ends: Ends, d: set<nat>, ts: Targets, loop: bool, j: nat)
    requires Ground(g, n, b, map[], ends, d, ts, loop)
    requires var o := Flow(n, b, map[], ends); Edge(g, o.cur, o.acc, j)
    ensures d <= Emit(n, d, ts, g.s, g.m).d <= Merge(g.s, j, g.m)
  {
    GroundSolved(g, n, b, map[], ends, d, ts, loop);
    hide Emit, Flow, Solved, Within, Shape;
    var o := Flow(n, b, map[], ends);
    EmitShape(g, n, b, map[], ends, d, ts, loop);
    ShapeNext(g, Emit(n, d, ts, g.s, g.m).d, o.cur, o.acc, j);
  }

  lemma AptLabelled(v: View, n: Node, b: nat, acc: Firsts, ends: Ends, p: Place, ts: Targets, a: Option<Known>, loop: bool,
                    floor: set<nat>)
    requires Apt(v, n, b, acc, ends, p, ts, a, loop, floor)
    ensures Labelled(n, p, ts, v.g.s, v.g.m, v.lab) && Ground(v.g, n, b, acc, ends, p.d, ts, loop)
  {
  }

  lemma IfMarks(v: View, n: Node, p: Place, ts: Targets)
    requires n.If? && Labelled(n, p, ts, v.g.s, v.g.m, v.lab)
    ensures var x := Pasts(n.c, p, ts, v.g.s, v.g.m);
      && At(v.lab, n.blockFalse, Mark(Branch(n.c, x), v.g.m)) && (n.c.Some? ==> Lands(v, n.blockFalse, x))
      && At(v.lab, n.blockExit, Mark(Past(n, p, ts, v.g.s, v.g.m), v.g.m))
  {
  }

  lemma IfEmit(v: View, n: Node, b: nat, acc: Firsts, ends: Ends, p: Place, ts: Targets, a: Option<Known>, loop: bool,
               floor: set<nat>)
    requires n.If? && Apt(v, n, b, acc, ends, p, ts, a, loop, floor)
    ensures Leads(v, Emit(n, p.d, ts, v.g.s, v.g.m).code, a, Past(n, p, ts, v.g.s, v.g.m))
    decreases n, 0
  {
    AptLabelled(v, n, b, acc, ends, p, ts, a, loop, floor);
    hide Apt, Leads, Lands, Here, Labelled, Emit, Raw, Past, At, Mark, Ready, Ground;
    var x, q := Pasts(n.c, p, ts, v.g.s, v.g.m), Past(n, p, ts, v.g.s, v.g.m);
    var z, e := Branch(n.c, x), Emits(n.c, p.d, ts, v.g.s, v.g.m);
    IfApt(v, n, b, acc, ends, p, ts, a, loop, floor);
    IfMarks(v, n, p, ts);
    IfLands(v, n, b, acc, ends, p, ts, loop);
    OptionLeads(v, n.c, b, acc, ends, p, ts, a, loop, floor);
    FrontLeads(v, n.c, e.code, a, x, n.blockFalse);
    var front := Branched(n.c, e.code, n.blockFalse);
    LeadsHere(v, front, a, x);
    var at, af := End(front, a, v.lab), Some(Mark(z, v.g.m));
    AptHere(v, n.t, n.blockTrue, map[], ends, x, ts, at, loop, floor);
    EmitLeads(v, n.t, n.blockTrue, map[], ends, x, ts, at, loop, floor);
    MarkHere(v, z);
    AptHere(v, n.f, n.blockFalse, map[], ends, z, ts, af, loop, floor);
    EmitLeads(v, n.f, n.blockFalse, map[], ends, z, ts, af, loop, floor);
    IfLeads(v, a, front, x, Emit(n.t, x.d, ts, v.g.s, v.g.m).code, Past(n.t, x, ts, v.g.s, v.g.m), n.blockFalse, z,
            Emit(n.f, z.d, ts, v.g.s, v.g.m).code, Past(n.f, z, ts, v.g.s, v.g.m), n.junction, n.blockExit, q);
    IfText(n, p.d, ts, v.g.s, v.g.m);
    PastIs(n.t, x, ts, v.g.s, v.g.m);
    PastIs(n.f, z, ts, v.g.s, v.g.m);
  }

  lemma PastIs(n: Node, p: Place, ts: Targets, s: Facts, m: nat)
    ensures Past(n, p, ts, s, m).d == Emit(n, p.d, ts, s, m).d
  {
  }

  // ----- Loops -----

  lemma WhileWays(v: View, n: Node, p: Place, ts: Targets, k: nat)
    requires n.While? && k in p.raw
    ensures var h := Junction(p, n.junctionCondition, v.g.s, v.g.m);
      var x, r := Pasts(n.c, h, ts, v.g.s, v.g.m), Raw(n, k, p.d, ts, v.g.s, v.g.m);
      var y, f := Raw(n.body, k, x.d, WhileTargets(n), v.g.s, v.g.m), Emit(n.body, x.d, WhileTargets(n), v.g.s, v.g.m).d;
      && (k in h.raw ==> Under(Raws(n.c, k, h.d, ts, v.g.s, v.g.m), r))
      && (k in x.raw ==> (y.read ==> r.read) && (y.onBreak ==> r.end)
                         && (n.c.Some? && !Cleared(v.g.s, f, n.junctionExit, k) ==> r.end))
  {
    WhileRaw(n, k, p.d, ts, v.g.s, v.g.m);
    hide Raw, Emit, Cleared;
  }

  lemma WhileMarks(v: View, n: Node, p: Place, ts: Targets)
    requires n.While? && Labelled(n, p, ts, v.g.s, v.g.m, v.lab)
    ensures var h := Junction(p, n.junctionCondition, v.g.s, v.g.m);
      var x := Pasts(n.c, h, ts, v.g.s, v.g.m);
      && (n.c.Some? ==> Labelled(n.c.value, h, ts, v.g.s, v.g.m, v.lab) && Lands(v, n.junctionExit, x))
      && Labelled(n.body, x, WhileTargets(n), v.g.s, v.g.m, v.lab)
      && At(v.lab, n.blockCondition, Mark(h, v.g.m)) && At(v.lab, n.junctionExit, Mark(Branch(n.c, x), v.g.m))
      && At(v.lab, n.blockExit, Mark(Past(n, p, ts, v.g.s, v.g.m), v.g.m))
  {
  }

  lemma WhileCondition(v: View, n: Node, b: nat, acc: Firsts, ends: Ends, p: Place, ts: Targets, a: Option<Known>, loop: bool,
                       floor: set<nat>)
    requires n.While? && Apt(v, n, b, acc, ends, p, ts, a, loop, floor)
    ensures var h := Junction(p, n.junctionCondition, v.g.s, v.g.m);
      OptionApt(v, n.c, n.blockCondition, map[], ends, h, ts, Some(Mark(h, v.g.m)), loop, floor)
  {
    hide Ground, LaxEnd, Fair, Raw, Flow, Emit, Under, Past, Pasts, Labelled, Lands;
    var h := Junction(p, n.junctionCondition, v.g.s, v.g.m);
    WhileMarks(v, n, p, ts);
    MarkHere(v, h);
    if n.c.Some? {
      forall k | k in h.raw
        ensures k in p.raw && Under(Raw(n.c.value, k, h.d, ts, v.g.s, v.g.m), Raw(n, k, p.d, ts, v.g.s, v.g.m))
      {
        WhileWays(v, n, p, ts, k);
      }
      FairPart(v, n, p, ts, loop, floor, n.c.value, h);
      forall i: nat
        ensures LaxEnd(v.g, i, n, b, acc, ends, loop, floor) ==>
          LaxEnd(v.g, i, n.c.value, n.blockCondition, map[], ends, loop, floor)
      {
        WhileGround(v.g, n, b, acc, ends, p.d, ts, loop, i, floor);
      }
      WhileGround(v.g, n, b, acc, ends, p.d, ts, loop, 0, floor);
    }
  }

  /** What is taken for initialised along a loop: all that is accessed in it. */
  lemma WhileFloor(g: Scope, n: Node, b: nat, acc: Firsts, ends: Ends, d: set<nat>, ts: Targets, loop: bool)
    requires n.While? && Ground(g, n, b, acc, ends, d, ts, loop)
    ensures var h, ends' := Merge(g.s, n.junctionCondition, g.m), WhileEnds(n, ends);
      var e := Emits(n.c, h, ts, g.s, g.m).d;
      var f := Emit(n.body, e, WhileTargets(n), g.s, g.m).d;
      && Ground(g, n.body, n.blockBody, map[], ends', e, WhileTargets(n), true)
      && Floored(g, n.body, n.blockBody, map[], ends', true, h)
      && d <= h <= e <= f <= h <= Merge(g.s, n.junctionExit, g.m)
  {
    GroundSolved(g, n, b, acc, ends, d, ts, loop);
    hide Ground, Emit, Flow, Solved, Within, Shape, Left;
    WhileGround(g, n, b, acc, ends, d, ts, loop, 0, {});
    WhileWithin(g, n, b, acc, ends);
    LoopShape(g, n, b, acc, ends, d, ts, loop);
    var h, ends' := Merge(g.s, n.junctionCondition, g.m), WhileEnds(n, ends);
    EndMerges(g, n.body, n.blockBody, ends', Emits(n.c, h, ts, g.s, g.m).d, WhileTargets(n), true, n.junctionCondition);
    forall i: nat | i < g.m && i !in h
      ensures LaxEnd(g, i, n.body, n.blockBody, map[], ends', true, h)
    {
      WhileBack(g, n, b, acc, ends, i);
    }
  }

  /** The body and what follows it. */
  lemma WhileBody(v: View, n: Node, b: nat, acc: Firsts, ends: Ends, p: Place, ts: Targets, a: Option<Known>, loop: bool,
                  floor: set<nat>)
    requires n.While? && Apt(v, n, b, acc, ends, p, ts, a, loop, floor)
    ensures var h := Junction(p, n.junctionCondition, v.g.s, v.g.m);
      var x, q := Pasts(n.c, h, ts, v.g.s, v.g.m), Past(n, p, ts, v.g.s, v.g.m);
      var y := Past(n.body, x, WhileTargets(n), v.g.s, v.g.m);
      && Ready(v, n.body, n.blockBody, map[], WhileEnds(n, ends), x, WhileTargets(n), true, h.d)
      && Lands(v, n.blockCondition, Beyond(p, n.junctionCondition, v.g.s)) && Lands(v, n.blockCondition, y)
      && x.d <= y.d && Lands(v, n.blockExit, Beyond(Place(y.d, Branch(n.c, x).raw), n.junctionExit, v.g.s))
  {
    AptLabelled(v, n, b, acc, ends, p, ts, a, loop, floor);
    EmitMerges(n, p.d, ts, v.g.s, v.g.m);
    WhileFloor(v.g, n, b, acc, ends, p.d, ts, loop);
    WhileMarks(v, n, p, ts);
    var h := Junction(p, n.junctionCondition, v.g.s, v.g.m);
    var x, q := Pasts(n.c, h, ts, v.g.s, v.g.m), Past(n, p, ts, v.g.s, v.g.m);
    var y := Past(n.body, x, WhileTargets(n), v.g.s, v.g.m);
    var out := Beyond(Place(y.d, Branch(n.c, x).raw), n.junctionExit, v.g.s);
    var jumps := Broken(n.body, x, WhileTargets(n), v.g.s, v.g.m, h.d);
    var turns := Continued(n.body, x, WhileTargets(n), v.g.s, v.g.m, h.d);
    forall k | k in p.raw
      ensures k in x.raw ==> !v.strict || !Raw(n.body, k, x.d, WhileTargets(n), v.g.s, v.g.m).read
      ensures (k in jumps.raw || k in out.raw) ==> k in q.raw
    {
      WhileWays(v, n, p, ts, k);
    }
    hide Ground, Floored, LaxEnd, Raw, Flow, Emit, Labelled, Lands, Cleared, Mark, At;
    MarkLands(v, n.blockExit, jumps, q);
    MarkLands(v, n.blockCondition, turns, h);
    MarkLands(v, n.blockCondition, y, h);
    MarkLands(v, n.blockCondition, Beyond(p, n.junctionCondition, v.g.s), h);
    MarkLands(v, n.blockExit, out, q);
    NoneHere(v, x);
  }

  lemma WhileEmit(v: View, n: Node, b: nat, acc: Firsts, ends: Ends, p: Place, ts: Targets, a: Option<Known>, loop: bool,
                  floor: set<nat>)
    requires n.While? && Apt(v, n, b, acc, ends, p, ts, a, loop, floor)
    ensures Leads(v, Emit(n, p.d, ts, v.g.s, v.g.m).code, a, Past(n, p, ts, v.g.s, v.g.m))
    decreases n, 0
  {
    AptLabelled(v, n, b, acc, ends, p, ts, a, loop, floor);
    WhileBody(v, n, b, acc, ends, p, ts, a, loop, floor);
    WhileCondition(v, n, b, acc, ends, p, ts, a, loop, floor);
    hide Leads, Lands, Labelled, Emit, Raw, Past, At, Mark, Ready, Ground, Floored, Fair, Beyond;
    var h := Junction(p, n.junctionCondition, v.g.s, v.g.m);
    var x, q := Pasts(n.c, h, ts, v.g.s, v.g.m), Past(n, p, ts, v.g.s, v.g.m);
    var e, f := Emits(n.c, h.d, ts, v.g.s, v.g.m), Emit(n.body, x.d, WhileTargets(n), v.g.s, v.g.m);
    var y, a1 := Past(n.body, x, WhileTargets(n), v.g.s, v.g.m), Some(Mark(h, v.g.m));
    WhileMarks(v, n, p, ts);
    OptionLeads(v, n.c, n.blockCondition, map[], ends, h, ts, a1, loop, floor);
    FrontLeads(v, n.c, e.code, a1, x, n.junctionExit);
    var front, jump := Branched(n.c, e.code, n.junctionExit), [JUMP(n.blockCondition)];
    var a2 := End(front, a1, v.lab);
    LeadsHere(v, front, a1, x);
    AptHere(v, n.body, n.blockBody, map[], WhileEnds(n, ends), x, WhileTargets(n), a2, true, h.d);
    EmitLeads(v, n.body, n.blockBody, map[], WhileEnds(n, ends), x, WhileTargets(n), a2, true, h.d);
    LeadsHere(v, f.code, a2, y);
    JumpLeads(v, End(f.code, a2, v.lab), y, n.blockCondition, x);
    LeadsThen(v, f.code, jump, a2, y, x);
    PastIs(n.body, x, WhileTargets(n), v.g.s, v.g.m);
    LoopLeads(v, a, p, n.junctionCondition, n.blockCondition, h, front, x, f.code + jump, n.junctionExit, Branch(n.c, x), f.d,
              n.blockExit, q);
    WhileText(n, p.d, ts, v.g.s, v.g.m);
  }

  // ----- Loops with a step -----

  /** The places along a loop: after its initialisation, at its condition, and after
      that. */
  ghost function Start(n: Node, p: Place, ts: Targets, s: Facts, m: nat): Place
    requires n.For?
  {
    Past(n.init, p, ts, s, m)
  }

  ghost function Head(n: Node, p: Place, ts: Targets, s: Facts, m: nat): Place
    requires n.For?
  {
    Junction(Start(n, p, ts, s, m), n.junctionCondition, s, m)
  }

  ghost function Inner(n: Node, p: Place, ts: Targets, s: Facts, m: nat): Place
    requires n.For?
  {
    Pasts(n.c, Head(n, p, ts, s, m), ts, s, m)
  }

  ghost function AtStep(n: Node, p: Place, ts: Targets, s: Facts, m: nat): Place
    requires n.For?
  {
    Stepped(n.body, Inner(n, p, ts, s, m), ForTargets(n, ts), s, m)
  }

  lemma ForWays(v: View, n: Node, p: Place, ts: Targets, k: nat)
    requires n.For? && k in p.raw
    ensures var h, x := Head(n, p, ts, v.g.s, v.g.m), Inner(n, p, ts, v.g.s, v.g.m);
      var r, t := Raw(n, k, p.d, ts, v.g.s, v.g.m), AtStep(n, p, ts, v.g.s, v.g.m);
      var y := Raw(n.body, k, x.d, ForTargets(n, ts), v.g.s, v.g.m);
      && Under(Raw(n.init, k, p.d, ts, v.g.s, v.g.m), r) && (k in h.raw ==> Under(Raws(n.c, k, h.d, ts, v.g.s, v.g.m), r))
      && (k in x.raw ==> (y.read ==> r.read) && (y.onBreak ==> r.end))
      && (k in t.raw ==> Under(Raws(n.next, k, t.d, ts, v.g.s, v.g.m), r))
      && (k in x.raw && n.c.Some? && !Cleared(v.g.s, Emits(n.next, t.d, ts, v.g.s, v.g.m).d, n.junctionExit, k) ==> r.end)
  {
    ForRaw(n, k, p.d, ts, v.g.s, v.g.m);
    hide Raw, Emit, Cleared;
  }

  lemma ForMarks(v: View, n: Node, p: Place, ts: Targets)
    requires n.For? && Labelled(n, p, ts, v.g.s, v.g.m, v.lab)
    ensures var h, x := Head(n, p, ts, v.g.s, v.g.m), Inner(n, p, ts, v.g.s, v.g.m);
      var t := AtStep(n, p, ts, v.g.s, v.g.m);
      && Labelled(n.init, p, ts, v.g.s, v.g.m, v.lab)
      && (n.c.Some? ==> Labelled(n.c.value, h, ts, v.g.s, v.g.m, v.lab) && Lands(v, n.junctionExit, x))
      && Labelled(n.body, x, ForTargets(n, ts), v.g.s, v.g.m, v.lab)
      && (n.next.Some? ==> Labelled(n.next.value, t, ts, v.g.s, v.g.m, v.lab) && At(v.lab, n.blockNext, Mark(t, v.g.m)))
      && At(v.lab, n.blockCondition, Mark(h, v.g.m)) && At(v.lab, n.junctionExit, Mark(Branch(n.c, x), v.g.m))
      && At(v.lab, n.blockExit, Mark(Past(n, p, ts, v.g.s, v.g.m), v.g.m))
  {
  }

  /** Initialisation, condition and step, as seen from around the loop. */
  lemma ForAround(v: View, n: Node, b: nat, acc: Firsts, ends: Ends, p: Place, ts: Targets, a: Option<Known>, loop: bool,
                  floor: set<nat>)
    requires n.For? && Apt(v, n, b, acc, ends, p, ts, a, loop, floor)
    ensures var h, t := Head(n, p, ts, v.g.s, v.g.m), AtStep(n, p, ts, v.g.s, v.g.m);
      && Apt(v, n.init, b, acc, ends, p, ts, a, loop, floor)
      && OptionApt(v, n.c, n.blockCondition, map[], ends, h, ts, Some(Mark(h, v.g.m)), loop, floor)
      && OptionApt(v, n.next, n.blockNext, map[], ends, t, ts, Some(Mark(t, v.g.m)), loop, floor)
  {
    hide Ground, LaxEnd, Fair, Raw, Flow, Emit, Under, Labelled, Lands;
    var h, x, t := Head(n, p, ts, v.g.s, v.g.m), Inner(n, p, ts, v.g.s, v.g.m), AtStep(n, p, ts, v.g.s, v.g.m);
    ForMarks(v, n, p, ts);
    MarkHere(v, h);
    MarkHere(v, t);
    forall k | k in p.raw
      ensures var r := Raw(n, k, p.d, ts, v.g.s, v.g.m);
        && Under(Raw(n.init, k, p.d, ts, v.g.s, v.g.m), r) && (k in h.raw ==> Under(Raws(n.c, k, h.d, ts, v.g.s, v.g.m), r))
        && (k in t.raw ==> Under(Raws(n.next, k, t.d, ts, v.g.s, v.g.m), r))
    {
      ForWays(v, n, p, ts, k);
    }
    FairPart(v, n, p, ts, loop, floor, n.init, p);
    if n.c.Some? {
      FairPart(v, n, p, ts, loop, floor, n.c.value, h);
    }
    if n.next.Some? {
      FairPart(v, n, p, ts, loop, floor, n.next.value, t);
    }
    forall i: nat
      ensures LaxEnd(v.g, i, n, b, acc, ends, loop, floor) ==>
        && LaxEnd(v.g, i, n.init, b, acc, ends, loop, floor)
        && (n.c.Some? ==> LaxEnd(v.g, i, n.c.value, n.blockCondition, map[], ends, loop, floor))
        && (n.next.Some? ==> LaxEnd(v.g, i, n.next.value, n.blockNext, map[], ends, loop, floor))
    {
      ForGround(v.g, n, b, acc, ends, p.d, ts, loop, i, floor);
    }
    ForGround(v.g, n, b, acc, ends, p.d, ts, loop, 0, floor);
  }

  lemma ForFloor(g: Scope, n: Node, b: nat, acc: Firsts, ends: Ends, d: set<nat>, ts: Targets, loop: bool)
    requires n.For? && Ground(g, n, b, acc, ends, d, ts, loop)
    ensures var h, ends' := Merge(g.s, n.junctionCondition, g.m), ForEnds(n, ends);
      var e := Emits(n.c, h, ts, g.s, g.m).d;
      var f := Emit(n.body, e, ForTargets(n, ts), g.s, g.m).d;
      && Ground(g, n.body, n.blockBody, map[], ends', e, ForTargets(n, ts), true)
      && Floored(g, n.body, n.blockBody, map[], ends', true, h)
      && Emit(n.init, d, ts, g.s, g.m).d <= h <= e <= f <= Emits(n.next, f, ts, g.s, g.m).d <= h <= Merge(g.s, n.junctionExit, g.m)
  {
    GroundSolved(g, n, b, acc, ends, d, ts, loop);
    hide Ground, Emit, Flow, Solved, Within, Shape, Left;
    ForGround(g, n, b, acc, ends, d, ts, loop, 0, {});
    ForWithin(g, n, b, acc, ends);
    StepShape(g, n, b, acc, ends, d, ts, loop);
    var h, ends' := Merge(g.s, n.junctionCondition, g.m), ForEnds(n, ends);
    var e := Emits(n.c, h, ts, g.s, g.m).d;
    var f := Emit(n.body, e, ForTargets(n, ts), g.s, g.m).d;
    EndMerges(g, n.body, n.blockBody, ends', e, ForTargets(n, ts), true, n.junctionNext);
    OptionMerges(g, n.next, n.blockNext, ends, f, ts, loop, n.junctionCondition);
    forall i: nat | i < g.m && i !in h
      ensures LaxEnd(g, i, n.body, n.blockBody, map[], ends', true, h)
    {
      ForBack(g, n, b, acc, ends, i);
    }
  }

  lemma OptionMerges(g: Scope, c: Option<Node>, b: nat, ends: Ends, d: set<nat>, ts: Targets, loop: bool, j: nat)
    requires Founded(g, c, b, map[], ends, d, ts, loop) && Solved(g)
    requires var o := Flown(c, b, map[], ends); Edge(g, o.cur, o.acc, j)
    ensures d <= Emits(c, d, ts, g.s, g.m).d <= Merge(g.s, j, g.m)
  {
    hide Solved, Within, Shape;
    if c.Some? {
      EndMerges(g, c.value, b, ends, d, ts, loop, j);
    } else {
      ShapeNext(g, d, b, map[], j);
    }
  }

  /** Nothing becomes raw along the loop. */
  lemma ForPlaces(v: View, n: Node, b: nat, acc: Firsts, ends: Ends, p: Place, ts: Targets, loop: bool)
    requires n.For? && Ground(v.g, n, b, acc, ends, p.d, ts, loop)
    ensures var h, x, t := Head(n, p, ts, v.g.s, v.g.m), Inner(n, p, ts, v.g.s, v.g.m), AtStep(n, p, ts, v.g.s, v.g.m);
      var w, y := Start(n, p, ts, v.g.s, v.g.m), Past(n.body, x, ForTargets(n, ts), v.g.s, v.g.m);
      var z, q := Pasts(n.next, t, ts, v.g.s, v.g.m), Past(n, p, ts, v.g.s, v.g.m);
      && Inside(Beyond(w, n.junctionCondition, v.g.s), h) && Inside(y, t) && Inside(t, h) && Inside(z, h)
      && Inside(Continued(n.body, x, ForTargets(n, ts), v.g.s, v.g.m, h.d), t) && x.d <= z.d
      && Inside(Broken(n.body, x, ForTargets(n, ts), v.g.s, v.g.m, h.d), q)
      && Inside(Beyond(Place(z.d, Branch(n.c, x).raw), n.junctionExit, v.g.s), q)
  {
    EmitMerges(n, p.d, ts, v.g.s, v.g.m);
    ForFloor(v.g, n, b, acc, ends, p.d, ts, loop);
    hide Ground, Floored, Raw, Flow, Emit, Cleared;
    var x, t := Inner(n, p, ts, v.g.s, v.g.m), AtStep(n, p, ts, v.g.s, v.g.m);
    var z, q := Pasts(n.next, t, ts, v.g.s, v.g.m), Past(n, p, ts, v.g.s, v.g.m);
    forall k | k in p.raw
      ensures k in Broken(n.body, x, ForTargets(n, ts), v.g.s, v.g.m, {}).raw ==> k in q.raw
      ensures k in Beyond(Place(z.d, Branch(n.c, x).raw), n.junctionExit, v.g.s).raw ==> k in q.raw
    {
      ForWays(v, n, p, ts, k);
    }
  }

  lemma InsideMore(p: Place, q: Place, r: Place)
    requires Inside(p, q) && Inside(q, r)
    ensures Inside(p, r)
  {
  }

  lemma ForFair(v: View, n: Node, p: Place, ts: Targets, loop: bool, floor: set<nat>)
    requires n.For? && Fair(v, n, p, ts, loop, floor)
    ensures var x := Inner(n, p, ts, v.g.s, v.g.m);
      v.strict ==> forall k :: k in x.raw ==> !Raw(n.body, k, x.d, ForTargets(n, ts), v.g.s, v.g.m).read
  {
    hide Raw, Emit, Lands, Cleared;
    var x := Inner(n, p, ts, v.g.s, v.g.m);
    forall k | v.strict && k in x.raw
      ensures !Raw(n.body, k, x.d, ForTargets(n, ts), v.g.s, v.g.m).read
    {
      ForWays(v, n, p, ts, k);
    }
  }

  /** The body and what follows it. */
  lemma ForBody(v: View, n: Node, b: nat, acc: Firsts, ends: Ends, p: Place, ts: Targets, a: Option<Known>, loop: bool,
                floor: set<nat>)
    requires n.For? && Apt(v, n, b, acc, ends, p, ts, a, loop, floor)
    ensures var h, x, t := Head(n, p, ts, v.g.s, v.g.m), Inner(n, p, ts, v.g.s, v.g.m), AtStep(n, p, ts, v.g.s, v.g.m);
      var w, y := Start(n, p, ts, v.g.s, v.g.m), Past(n.body, x, ForTargets(n, ts), v.g.s, v.g.m);
      var z := Pasts(n.next, t, ts, v.g.s, v.g.m);
      && Ready(v, n.body, n.blockBody, map[], ForEnds(n, ends), x, ForTargets(n, ts), true, h.d)
      && Lands(v, n.blockCondition, Beyond(w, n.junctionCondition, v.g.s))
      && Lands(v, n.blockCondition, y) && Lands(v, n.blockCondition, z) && (n.next.Some? ==> Lands(v, n.blockNext, y))
      && x.d <= z.d && Lands(v, n.blockExit, Beyond(Place(z.d, Branch(n.c, x).raw), n.junctionExit, v.g.s))
  {
    ForFair(v, n, p, ts, loop, floor);
    AptLabelled(v, n, b, acc, ends, p, ts, a, loop, floor);
    ForFloor(v.g, n, b, acc, ends, p.d, ts, loop);
    ForMarks(v, n, p, ts);
    ForPlaces(v, n, b, acc, ends, p, ts, loop);
    hide Ground, Floored, Raw, Flow, Emit, Labelled, Lands, Mark, At, Inside, Beyond, Broken, Continued, Past;
    var h, x, t := Head(n, p, ts, v.g.s, v.g.m), Inner(n, p, ts, v.g.s, v.g.m), AtStep(n, p, ts, v.g.s, v.g.m);
    var w, y := Start(n, p, ts, v.g.s, v.g.m), Past(n.body, x, ForTargets(n, ts), v.g.s, v.g.m);
    var z, q := Pasts(n.next, t, ts, v.g.s, v.g.m), Past(n, p, ts, v.g.s, v.g.m);
    var turns := Continued(n.body, x, ForTargets(n, ts), v.g.s, v.g.m, h.d);
    InsideMore(y, t, h);
    InsideMore(turns, t, h);
    MarkLands(v, n.blockExit, Broken(n.body, x, ForTargets(n, ts), v.g.s, v.g.m, h.d), q);
    if n.next.Some? {
      MarkLands(v, n.blockNext, turns, t);
      MarkLands(v, n.blockNext, y, t);
    } else {
      MarkLands(v, n.blockCondition, turns, h);
    }
    MarkLands(v, n.blockCondition, y, h);
    MarkLands(v, n.blockCondition, z, h);
    MarkLands(v, n.blockCondition, Beyond(w, n.junctionCondition, v.g.s), h);
    MarkLands(v, n.blockExit, Beyond(Place(z.d, Branch(n.c, x).raw), n.junctionExit, v.g.s), q);
    NoneHere(v, x);
  }

  /** The step, if there is one, and the jump back. */
  lemma TailLeads(v: View, n: Node, ends: Ends, y: Place, t: Place, ts: Targets, a: Option<Known>, loop: bool, floor: set<nat>, x: Place)
    requires n.For? && Here(v, a, y) && y.d == t.d
    requires OptionApt(v, n.next, n.blockNext, map[], ends, t, ts, Some(Mark(t, v.g.m)), loop, floor)
    requires n.next.Some? ==> At(v.lab, n.blockNext, Mark(t, v.g.m)) && Lands(v, n.blockNext, y)
    requires Lands(v, n.blockCondition, y) && Lands(v, n.blockCondition, Pasts(n.next, t, ts, v.g.s, v.g.m))
    ensures var tail := ForTail(n, y.d, ts, v.g.s, v.g.m);
      Leads(v, tail, a, x) && End(tail, a, v.lab) == None
    decreases n, 0, 0
  {
    hide Leads, Lands, Emit, Raw, Past, At, Mark, Apt;
    var z, jump := Pasts(n.next, t, ts, v.g.s, v.g.m), [JUMP(n.blockCondition)];
    if n.next.Some? {
      var start, code, a1 := [TARGET(n.blockNext)], Emits(n.next, t.d, ts, v.g.s, v.g.m).code, Some(Mark(t, v.g.m));
      TargetLeads(v, a, y, n.blockNext, t);
      OptionLeads(v, n.next, n.blockNext, map[], ends, t, ts, a1, loop, floor);
      LeadsHere(v, code, a1, z);
      LeadsThen(v, start, code, a, t, z);
      JumpLeads(v, End(code, a1, v.lab), z, n.blockCondition, x);
      LeadsThen(v, start + code, jump, a, z, x);
    } else {
      JumpLeads(v, a, y, n.blockCondition, x);
      assert [] + jump == jump;
    }
  }

  /** The part of the loop after its initialisation. */
  lemma ForRest(v: View, n: Node, b: nat, acc: Firsts, ends: Ends, p: Place, ts: Targets, a: Option<Known>, loop: bool,
                floor: set<nat>, a0: Option<Known>)
    requires n.For? && Apt(v, n, b, acc, ends, p, ts, a, loop, floor) && Here(v, a0, Start(n, p, ts, v.g.s, v.g.m))
    ensures var w, x := Emit(n.init, p.d, ts, v.g.s, v.g.m), Emits(n.c, Merge(v.g.s, n.junctionCondition, v.g.m), ts, v.g.s, v.g.m);
      var y := Emit(n.body, x.d, ForTargets(n, ts), v.g.s, v.g.m);
      Leads(v, Join(v.g.s, w.d, n.junctionCondition, v.g.m, 0) + [TARGET(n.blockCondition)] + Branched(n.c, x.code, n.junctionExit)
               + (y.code + ForTail(n, y.d, ts, v.g.s, v.g.m)) + [TARGET(n.junctionExit)]
               + Join(v.g.s, Emits(n.next, y.d, ts, v.g.s, v.g.m).d, n.junctionExit, v.g.m, 0) + [TARGET(n.blockExit)],
            a0, Past(n, p, ts, v.g.s, v.g.m))
    decreases n, 0, 1
  {
    AptLabelled(v, n, b, acc, ends, p, ts, a, loop, floor);
    ForBody(v, n, b, acc, ends, p, ts, a, loop, floor);
    ForAround(v, n, b, acc, ends, p, ts, a, loop, floor);
    ForMarks(v, n, p, ts);
    hide Leads, Lands, Here, Labelled, Emit, Raw, At, Mark, Ready, Apt, Ground, Floored, Fair, Beyond;
    var h, x, t := Head(n, p, ts, v.g.s, v.g.m), Inner(n, p, ts, v.g.s, v.g.m), AtStep(n, p, ts, v.g.s, v.g.m);
    var w, y := Start(n, p, ts, v.g.s, v.g.m), Past(n.body, x, ForTargets(n, ts), v.g.s, v.g.m);
    var z, q := Pasts(n.next, t, ts, v.g.s, v.g.m), Past(n, p, ts, v.g.s, v.g.m);
    var e, f := Emits(n.c, h.d, ts, v.g.s, v.g.m), Emit(n.body, x.d, ForTargets(n, ts), v.g.s, v.g.m);
    var a1, tail := Some(Mark(h, v.g.m)), ForTail(n, f.d, ts, v.g.s, v.g.m);
    OptionLeads(v, n.c, n.blockCondition, map[], ends, h, ts, a1, loop, floor);
    FrontLeads(v, n.c, e.code, a1, x, n.junctionExit);
    var front := Branched(n.c, e.code, n.junctionExit);
    var a2 := End(front, a1, v.lab);
    LeadsHere(v, front, a1, x);
    AptHere(v, n.body, n.blockBody, map[], ForEnds(n, ends), x, ForTargets(n, ts), a2, true, h.d);
    EmitLeads(v, n.body, n.blockBody, map[], ForEnds(n, ends), x, ForTargets(n, ts), a2, true, h.d);
    LeadsHere(v, f.code, a2, y);
    TailLeads(v, n, ends, y, t, ts, End(f.code, a2, v.lab), loop, floor, x);
    LeadsThen(v, f.code, tail, a2, y, x);
    LoopLeads(v, a0, w, n.junctionCondition, n.blockCondition, h, front, x, f.code + tail, n.junctionExit, Branch(n.c, x), z.d,
              n.blockExit, q);
  }

  lemma ForEmit(v: View, n: Node, b: nat, acc: Firsts, ends: Ends, p: Place, ts: Targets, a: Option<Known>, loop: bool,
                floor: set<nat>)
    requires n.For? && Apt(v, n, b, acc, ends, p, ts, a, loop, floor)
    ensures Leads(v, Emit(n, p.d, ts, v.g.s, v.g.m).code, a, Past(n, p, ts, v.g.s, v.g.m))
    decreases n, 0, 2
  {
    ForAround(v, n, b, acc, ends, p, ts, a, loop, floor);
    hide Leads, Lands, Here, Labelled, Emit, Raw, At, Mark, Apt, Past;
    var w, e := Start(n, p, ts, v.g.s, v.g.m), Emit(n.init, p.d, ts, v.g.s, v.g.m);
    EmitLeads(v, n.init, b, acc, ends, p, ts, a, loop, floor);
    LeadsHere(v, e.code, a, w);
    var a0 := End(e.code, a, v.lab);
    ForRest(v, n, b, acc, ends, p, ts, a, loop, floor, a0);
    ForText(n, p.d, ts, v.g.s, v.g.m);
    var x := Emits(n.c, Merge(v.g.s, n.junctionCondition, v.g.m), ts, v.g.s, v.g.m);
    var y := Emit(n.body, x.d, ForTargets(n, ts), v.g.s, v.g.m);
    LeadsThen(v, e.code,
              Join(v.g.s, e.d, n.junctionCondition, v.g.m, 0) + [TARGET(n.blockCondition)] + Branched(n.c, x.code, n.junctionExit)
              + (y.code + ForTail(n, y.d, ts, v.g.s, v.g.m)) + [TARGET(n.junctionExit)]
              + Join(v.g.s, Emits(n.next, y.d, ts, v.g.s, v.g.m).d, n.junctionExit, v.g.m, 0) + [TARGET(n.blockExit)],
              a, w, Past(n, p, ts, v.g.s, v.g.m));
  }
}
