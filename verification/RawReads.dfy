/** Two scopes whose code reads a variable that has not been initialised. */
module RawReads {
  import opened Options
  import opened Initialising
  import opened Flowing
  import opened Unset
  import opened Dataflow
  import opened Compiling
  import opened Compiler

  /** `for ; c(); f(x)` with the body `continue` and `x = 1`. */
  const LATE :=
    For(Skip, Some(Skip), Some(Access(0, false)), Then(Continue, Access(0, true)), 2, 3, 4, 5, 6, 7, 8)

  lemma LateProper()
    ensures Proper(LATE, 1, 0, 1, 9)
  {
    var own := [2, 3, 4, 5, 6, 7, 8];
    assert Different(own) by {
      assert forall i :: 0 <= i < |own| ==> own[i] == i + 2;
    }
    assert Formed(LATE, 1, false);
    assert Ids(LATE.body) == {} && Ids(LATE.next.value) == {};
    assert Ids(LATE) == {2, 3, 4, 5, 6, 7, 8};
    assert Apart(LATE.body) && Apart(LATE.next.value);
    assert Apart(LATE);
  }

  lemma LateEdges()
    ensures Whole(LATE, 0, 1).edges == [(4, 5), (0, 2), (2, 3), (3, 4), (3, 7), (4, 5), (5, 6), (6, 2), (7, 8), (8, 1)]
  {
  }

  lemma LateDone()
    ensures Whole(LATE, 0, 1).done ==
      [(0, map[]), (2, map[]), (3, map[]), (4, map[0 := true]), (5, map[]), (6, map[0 := false]), (7, map[]), (8, map[]), (1, map[])]
  {
    var acc: Firsts := map[];
    assert Use(acc, 0, true) == map[0 := true] && Use(acc, 0, false) == map[0 := false];
  }

  lemma LateAccesses(done: seq<(nat, Firsts)>, b: nat)
    requires done ==
      [(0, map[]), (2, map[]), (3, map[]), (4, map[0 := true]), (5, map[]), (6, map[0 := false]), (7, map[]), (8, map[]), (1, map[])]
    ensures b == 4 ==> Defines(AccOf(done, b), 0)
    ensures Gets(AccOf(done, b), 0) ==> b == 6
  {
    if AccOf(done, b) != map[] {
      AccNamed(done, b);
    }
    if b == 4 {
      assert done[3] == (4, map[0 := true]);
      AccIs(done, done[3]);
    }
  }

  /** On no path from the condition is the variable read before it is written. */
  lemma {:induction false} LateUnused(p: seq<nat>, k: nat)
    requires IsPath(Nexts(Whole(LATE, 0, 1).edges, 9), p) && p[0] == 2 && ReadAtEnd(Whole(LATE, 0, 1).done, p, 0) && k < |p|
    ensures p[k] in {1, 2, 3, 4, 7, 8}
  {
    LateEdges();
    LateDone();
    if k > 0 {
      LateUnused(p, k - 1);
      LateAccesses(Whole(LATE, 0, 1).done, p[k - 1]);
      assert (p[k - 1], p[k]) in Whole(LATE, 0, 1).edges;
    }
  }

  /** By the facts of the analysis the condition is not preceded by a NUL. */
  lemma LateClear(uses: seq<set<nat>>)
    requires |uses| == 9 && (0 in uses[2] <==> ReadAhead(Whole(LATE, 0, 1), 9, 2, 0))
    ensures 0 !in uses[2]
  {
    if p :| IsPath(Nexts(Whole(LATE, 0, 1).edges, 9), p) && p[0] == 2 && ReadAtEnd(Whole(LATE, 0, 1).done, p, 0) {
      LateUnused(p, |p| - 1);
      LateDone();
      LateAccesses(Whole(LATE, 0, 1).done, p[|p| - 1]);
      assert false;
    }
  }

  lemma JoinNothing(s: Facts, d: set<nat>, j: nat)
    requires !Cleared(s, d, j, 0)
    ensures Join(s, d, j, 1, 0) == []
  {
    assert Join(s, d, j, 1, 1) == [];
  }

  lemma LateCode(s: Facts)
    requires !s.used(2, 0)
    ensures Emit(LATE, {}, OUTSIDE, s, 1).code ==
      [TARGET(3), BRANCH(7), JUMP(6), WRITE(0), TARGET(6), READ(0), JUMP(3), TARGET(7), TARGET(8)]
    ensures !Riskless(LATE, s, 1)
  {
    var h, ts := Merge(s, 2, 1), ForTargets(LATE, OUTSIDE);
    var y, z := Emit(LATE.body, h, ts, s, 1), Emit(LATE.next.value, h + {0}, OUTSIDE, s, 1);
    assert y == Emitted([JUMP(6), WRITE(0)], h + {0});
    assert z.code == [READ(0)] && 0 in z.d;
    ForText(LATE, {}, OUTSIDE, s, 1);
    JoinNothing(s, {}, 2);
    JoinNothing(s, z.d, 7);
    ForRaw(LATE, 0, {}, OUTSIDE, s, 1);
    assert Raw(LATE.body, 0, h, ts, s, 1).onContinue && Raw(LATE.next.value, 0, h + {0}, OUTSIDE, s, 1).read;
  }

  /** A write that follows `continue` hides from the analysis that the step reads the
      variable: it is read while it is raw. */
  method ContinueExample() returns (code: Code)
    ensures code == [TARGET(3), BRANCH(7), JUMP(6), WRITE(0), TARGET(6), READ(0), JUMP(3), TARGET(7), TARGET(8), RETURN]
    ensures !Safe(code, 1)
  {
    LateProper();
    var ins, uses;
    code, ins, uses := Compile(LATE, 1, 0, 1, 9);
    LateClear(uses);
    LateCode(FactsOf(ins, uses));
  }

  /** The body `x()` and `x = 1`. */
  const CALLED := Then(Operate(0, true, Skip), Access(0, true))

  lemma CalledProper()
    ensures Proper(CALLED, 1, 0, 1, 2)
  {
    assert Formed(CALLED, 1, false) && Apart(CALLED) && Ids(CALLED) == {};
  }

  lemma CalledCode(s: Facts)
    ensures Emit(CALLED, {}, OUTSIDE, s, 1).code == [CALL(0), WRITE(0)] && !Riskless(CALLED, s, 1)
  {
    var code, none: Code := [CALL(0)], [];
    assert none + none + code == code;
    assert Emit(CALLED.a, {}, OUTSIDE, s, 1) == Emitted(code, {});
    assert Raw(CALLED.a, 0, {}, OUTSIDE, s, 1).risk;
    assert Raw(CALLED, 0, {}, OUTSIDE, s, 1).risk;
  }

  /** A direct call clears nothing: what happens to be in the slot is called. */
  method CallExample() returns (code: Code)
    ensures code == [CALL(0), WRITE(0), RETURN] && !Safe(code, 1)
  {
    hide Proper, Emit, Riskless, Safe;
    CalledProper();
    var ins, uses;
    code, ins, uses := Compile(CALLED, 1, 0, 1, 2);
    CalledCode(FactsOf(ins, uses));
  }
}
