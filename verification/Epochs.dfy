/** How the collector applies the increments and decrements that the threads push:
    pass by pass, thread by thread, decrements one pass late. Threads come and go,
    and push, between any two steps. */
module Epochs {

  /** What has become of the increment or the decrement for a reference: it may be
      number `k` in the queue of the thread `t`. */
  datatype Fate = Unmade | Queued(t: nat, k: nat) | Applied

  /** A counted reference is in the hands of a thread or in a slot until its
      decrement is pushed. */
  datatype Place = Hand(t: nat) | Slot(i: nat) | Out

  datatype Ref = Ref(target: nat, inc: Fate, dec: Fate, place: Place)

  /** The two queues of a thread: how much has been applied, how much the epochs
      stand for, and what `v_last` stands for. An `ending` thread pushes no more. */
  datatype Thread = Thread(
    done: int, ending: bool, incs: seq<nat>, incsDone: nat, incsEpoch: nat,
    decs: seq<nat>, decsDone: nat, decsEpoch: nat, decsLast: nat)

  /** Where the collector is; `c` is the place of the thread whose turn it is. */
  datatype Phase = Idle | At(c: nat) | Marked(c: nat) | Incs(c: nat, bound: nat) | Decs(c: nat)

  /** `order` is the list of threads, `count` what the traffic has made of the
      counts. */
  datatype State = State(
    order: seq<nat>, threads: seq<Thread>, slots: seq<int>, refs: seq<Ref>, count: seq<int>, phase: Phase)
  {
    function Cursor(): nat {
      if phase.Idle? then 0 else phase.c
    }

    /** It is the turn of the thread at `b`. */
    predicate TurnOf(b: nat) {
      (phase.Marked? || phase.Incs? || phase.Decs?) && phase.c == b
    }

    /** The threads whose next turn is that of the one at `b` or earlier. */
    ghost function Ahead(b: nat): seq<nat>
      requires b < |order| && Cursor() <= |order|
    {
      if b >= Cursor() then order[Cursor()..b + 1] else order[Cursor()..] + order[..b + 1]
    }
  }

  const NEW := Thread(-1, false, [], 0, 0, [], 0, 0, 0)

  ghost predicate Init(s: State) {
    && s.order == [] && s.threads == [] && s.refs == [] && s.phase == Idle
    && (forall i :: 0 <= i < |s.slots| ==> s.slots[i] == -1)
    && forall x :: 0 <= x < |s.count| ==> s.count[x] == 0
  }

  // ----- The threads -----

  /** t_engine::f_fork: a new thread goes to the front, with the lock held. */
  ghost predicate Fork(s: State, s': State) {
    && s.phase.Idle?
    && s' == s.(order := [|s.threads|] + s.order, threads := s.threads + [NEW])
  }

  ghost predicate Listed(s: State, t: nat) {
    t in s.order && t < |s.threads|
  }

  /** The thread runs, or could not be created. */
  ghost predicate Begin(s: State, s': State, t: nat, failed: bool) {
    && s.phase.Idle? && Listed(s, t) && s.threads[t].done == -1
    && s' == s.(threads := s.threads[t :=
                  if failed then s.threads[t].(done := 1, ending := true) else s.threads[t].(done := 0)])
  }

  ghost predicate Runs(s: State, t: nat) {
    Listed(s, t) && s.threads[t].done == 0 && !s.threads[t].ending
  }

  /** A reference to `x` is counted: the increment is pushed first. */
  ghost predicate PushInc(s: State, s': State, t: nat, x: nat) {
    && Runs(s, t) && x < |s.count|
    && s' == s.(refs := s.refs + [Ref(x, Queued(t, |s.threads[t].incs|), Unmade, Hand(t))],
                threads := s.threads[t := s.threads[t].(incs := s.threads[t].incs + [|s.refs|])])
  }

  /** The exchange of t_slot::operator=. */
  ghost predicate Exchange(s: State, s': State, t: nat, r: nat, i: nat) {
    && Runs(s, t) && i < |s.slots| && r < |s.refs| && s.refs[r].place == Hand(t)
    && var q := s.slots[i];
    && q < |s.refs|
    && var refs := s.refs[r := s.refs[r].(place := Slot(i))];
    s' == s.(slots := s.slots[i := r], refs := if q < 0 then refs else refs[q := refs[q].(place := Hand(t))])
  }

  /** The decrement for a reference in hand is pushed. */
  ghost predicate PushDec(s: State, s': State, t: nat, r: nat) {
    && Runs(s, t) && r < |s.refs| && s.refs[r].place == Hand(t)
    && s' == s.(refs := s.refs[r := s.refs[r].(dec := Queued(t, |s.threads[t].decs|), place := Out)],
                threads := s.threads[t := s.threads[t].(decs := s.threads[t].decs + [r])])
  }

  function Published(t: Thread): Thread {
    t.(incsEpoch := |t.incs|, decsEpoch := |t.decs|)
  }

  /** The end of a thread: f_epoch_get, and then, with the lock held, `++v_done`. */
  ghost predicate End(s: State, s': State, t: nat) {
    && Runs(s, t)
    && s' == s.(threads := s.threads[t := Published(s.threads[t]).(ending := true)])
  }

  ghost predicate Finish(s: State, s': State, t: nat) {
    && s.phase.Idle? && Listed(s, t) && s.threads[t].done == 0 && s.threads[t].ending
    && s' == s.(threads := s.threads[t := s.threads[t].(done := 1)])
  }

  // ----- The collector -----

  ghost predicate BeginPass(s: State, s': State) {
    s.phase.Idle? && s' == s.(phase := At(0))
  }

  ghost predicate EndPass(s: State, s': State) {
    s.phase.At? && s.phase.c == |s.order| && s' == s.(phase := Idle)
  }

  ghost predicate Facing(s: State, t: nat) {
    s.phase.At? && s.phase.c < |s.order| && t == s.order[s.phase.c] && t < |s.threads|
  }

  ghost predicate Skip(s: State, s': State, t: nat) {
    Facing(s, t) && s.threads[t].done < 0 && s' == s.(phase := At(s.phase.c + 1))
  }

  /** A running thread is suspended and publishes; a finished one has done so. */
  ghost predicate Mark(s: State, s': State, t: nat) {
    && Facing(s, t) && s.threads[t].done >= 0
    && s' == s.(phase := Marked(s.phase.c), threads := s.threads[t :=
                  if s.threads[t].done > 0 then s.threads[t].(done := s.threads[t].done + 1)
                  else Published(s.threads[t])])
  }

  ghost predicate Turn(s: State, t: nat) {
    !s.phase.Idle? && s.phase.c < |s.order| && t == s.order[s.phase.c] && t < |s.threads|
  }

  ghost predicate LoadIncs(s: State, s': State, t: nat) {
    && s.phase.Marked? && Turn(s, t)
    && s' == s.(phase := Incs(s.phase.c, s.threads[t].incsEpoch))
  }

  ghost predicate ApplyInc(s: State, s': State, t: nat) {
    && s.phase.Incs? && Turn(s, t)
    && var q := s.threads[t];
    && q.incsDone < s.phase.bound && q.incsDone < |q.incs|
    && var r := q.incs[q.incsDone];
    && r < |s.refs| && s.refs[r].target < |s.count|
    && var x := s.refs[r].target;
    s' == s.(count := s.count[x := s.count[x] + 1], refs := s.refs[r := s.refs[r].(inc := Applied)],
             threads := s.threads[t := q.(incsDone := q.incsDone + 1)])
  }

  ghost predicate IncsEnd(s: State, s': State, t: nat) {
    && s.phase.Incs? && Turn(s, t) && s.threads[t].incsDone == s.phase.bound
    && s' == s.(phase := Decs(s.phase.c))
  }

  /** A decrement is about to be applied: that of the reference `r`. */
  ghost predicate Applying(s: State, t: nat, r: nat) {
    && s.phase.Decs? && Turn(s, t)
    && var q := s.threads[t];
    && q.decsDone < q.decsLast && q.decsDone < |q.decs|
    && r == q.decs[q.decsDone] && r < |s.refs| && s.refs[r].target < |s.count|
  }

  ghost predicate ApplyDec(s: State, s': State, t: nat, r: nat) {
    && Applying(s, t, r)
    && var x := s.refs[r].target;
    s' == s.(count := s.count[x := s.count[x] - 1], refs := s.refs[r := s.refs[r].(dec := Applied)],
             threads := s.threads[t := s.threads[t].(decsDone := s.threads[t].decsDone + 1)])
  }

  /** The end of a turn; a thread that is finished for long enough is deleted. */
  ghost predicate EndTurn(s: State, s': State, t: nat) {
    && s.phase.Decs? && Turn(s, t)
    && var q := s.threads[t];
    && q.decsDone == q.decsLast
    && var threads := s.threads[t := q.(decsLast := q.decsEpoch)];
    var c := s.phase.c;
    s' == if q.done < 3 then s.(threads := threads, phase := At(c + 1))
          else s.(threads := threads, phase := At(c), order := s.order[..c] + s.order[c + 1..])
  }

  ghost predicate Mutates(s: State, s': State, t: nat, r: nat, i: nat) {
    || Fork(s, s') || Begin(s, s', t, true) || Begin(s, s', t, false) || PushInc(s, s', t, r)
    || Exchange(s, s', t, r, i) || PushDec(s, s', t, r) || End(s, s', t) || Finish(s, s', t)
  }

  ghost predicate Collects(s: State, s': State, t: nat, r: nat) {
    || BeginPass(s, s') || EndPass(s, s') || Skip(s, s', t) || Mark(s, s', t) || LoadIncs(s, s', t) || ApplyInc(s, s', t)
    || IncsEnd(s, s', t) || ApplyDec(s, s', t, r) || EndTurn(s, s', t)
  }

  ghost predicate Acts(s: State, s': State, t: nat, r: nat, i: nat) {
    Mutates(s, s', t, r, i) || Collects(s, s', t, r)
  }

  ghost predicate Step(s: State, s': State) {
    exists t: nat, r: nat, i: nat :: Acts(s, s', t, r, i)
  }

  // ----- The invariant -----

  ghost predicate Kept(q: Thread) {
    && q.incsDone <= q.incsEpoch <= |q.incs| && q.decsDone <= q.decsLast <= q.decsEpoch <= |q.decs|
    && -1 <= q.done <= 3
    && (q.done < 0 ==> q.incs == [] && q.decs == [])
    && (q.done > 0 ==> q.ending)
    && (q.ending ==> q.incsEpoch == |q.incs| && q.decsEpoch == |q.decs|)
  }

  ghost predicate Sorted(s: State) {
    && (forall b :: 0 <= b < |s.order| ==> s.order[b] < |s.threads|)
    && (forall a, b :: 0 <= a < b < |s.order| ==> s.order[a] != s.order[b])
    && s.Cursor() <= |s.order| && (s.phase.Idle? || s.phase.At? || s.phase.c < |s.order|)
    && (forall t :: 0 <= t < |s.threads| ==> Kept(s.threads[t]))
  }

  /** A queue and the references tell the same. */
  ghost predicate Matched(q: Thread, t: nat, refs: seq<Ref>) {
    && (forall k :: q.incsDone <= k < |q.incs| ==> q.incs[k] < |refs| && refs[q.incs[k]].inc == Queued(t, k))
    && (forall k :: 0 <= k < |q.decs| ==> q.decs[k] < |refs|)
    && (forall k :: q.decsDone <= k < |q.decs| ==> refs[q.decs[k]].dec == Queued(t, k))
  }

  ghost predicate AllMatched(s: State) {
    forall t :: 0 <= t < |s.threads| ==> Matched(s.threads[t], t, s.refs)
  }

  ghost predicate Coherent(s: State, i: nat, r: Ref) {
    && r.target < |s.count| && !r.inc.Unmade? && (r.dec.Unmade? <==> !r.place.Out?)
    && (r.inc.Queued? ==>
          && r.inc.t in s.order && r.inc.t < |s.threads|
          && s.threads[r.inc.t].incsDone <= r.inc.k < |s.threads[r.inc.t].incs| && s.threads[r.inc.t].incs[r.inc.k] == i)
    && (r.dec.Applied? ==> r.inc.Applied?)
  }

  ghost predicate AllCoherent(s: State) {
    && (forall r :: 0 <= r < |s.refs| ==> Coherent(s, r, s.refs[r]))
    && forall i :: 0 <= i < |s.slots| && s.slots[i] >= 0 ==> s.slots[i] < |s.refs| && s.refs[s.slots[i]].place == Slot(i)
  }

  /** The thread at `b` will apply its decrement number `k` in its next turn. */
  ghost predicate Due(s: State, b: nat, k: nat) {
    && b < |s.order| && s.order[b] < |s.threads|
    && s.threads[s.order[b]].decsDone <= k < s.threads[s.order[b]].decsLast && k < |s.threads[s.order[b]].decs|
    && s.threads[s.order[b]].decs[k] < |s.refs|
  }

  ghost function DueRef(s: State, b: nat, k: nat): Ref
    requires Due(s, b, k)
  {
    s.refs[s.threads[s.order[b]].decs[k]]
  }

  /** The increments for all decrements that are due have been applied, or come no
      later than the turn in which the decrement is due. */
  ghost predicate Timely(s: State)
    requires s.Cursor() <= |s.order|
  {
    forall b, k :: Due(s, b, k) ==> OnTime(s, b, DueRef(s, b, k))
  }

  ghost predicate OnTime(s: State, b: nat, r: Ref)
    requires b < |s.order| && s.Cursor() <= |s.order|
  {
    r.inc.Applied? || (r.inc.Queued? && r.inc.t in s.Ahead(b))
  }

  /** The increments that the present turn has still to apply. */
  ghost function Reach(s: State): nat
    requires !s.phase.Idle? && s.phase.c < |s.order| && s.order[s.phase.c] < |s.threads|
  {
    if s.phase.Marked? then s.threads[s.order[s.phase.c]].incsEpoch
    else if s.phase.Incs? then s.phase.bound
    else s.threads[s.order[s.phase.c]].incsDone
  }

  /** The present turn applies all the increments of its thread that decrements
      which are due depend on. */
  ghost predicate Reached(s: State)
    requires !s.phase.Idle? && s.phase.c < |s.order| && s.order[s.phase.c] < |s.threads|
  {
    && Reach(s) <= s.threads[s.order[s.phase.c]].incsEpoch && s.threads[s.order[s.phase.c]].incsDone <= Reach(s)
    && s.threads[s.order[s.phase.c]].done >= 0
    && forall b, k :: Due(s, b, k) && DueRef(s, b, k).inc.Queued? && DueRef(s, b, k).inc.t == s.order[s.phase.c] ==>
      DueRef(s, b, k).inc.k < Reach(s)
  }

  ghost predicate InTurn(s: State) {
    s.phase.Marked? || s.phase.Incs? || s.phase.Decs?
  }

  ghost predicate Inv(s: State) {
    && Sorted(s) && AllMatched(s) && AllCoherent(s) && Timely(s) && (InTurn(s) ==> Reached(s))
  }

  lemma InitInv(s: State)
    requires Init(s)
    ensures Inv(s)
  {
  }

  // ----- The threads keep it -----

  lemma ForkInv(s: State, s': State)
    requires Inv(s) && Fork(s, s')
    ensures Inv(s')
  {
    forall b: nat, k | Due(s', b, k)
      ensures OnTime(s', b, DueRef(s', b, k))
    {
      assert b > 0 && s'.order[b] == s.order[b - 1] && Due(s, b - 1, k);
      AheadGrows(s, s', b);
    }
  }

  lemma AheadGrows(s: State, s': State, b: nat)
    requires s.phase.Idle? && s'.phase.Idle? && 0 < b <= |s.order| && |s'.order| == |s.order| + 1 && s'.order[1..] == s.order
    ensures forall t :: t in s.Ahead(b - 1) ==> t in s'.Ahead(b)
  {
    assert s'.order == [s'.order[0]] + s.order;
    assert s'.Ahead(b) == [s'.order[0]] + s.Ahead(b - 1);
  }

  /** The queues have grown at the end at most, and the collector has not moved. */
  ghost predicate Grown(s: State, s': State) {
    && s'.order == s.order && s'.phase == s.phase && |s'.threads| == |s.threads|
    && (forall t :: 0 <= t < |s.threads| ==> Longer(s.threads[t], s'.threads[t]))
    && |s'.refs| >= |s.refs|
    && forall r :: 0 <= r < |s.refs| ==> s'.refs[r].inc == s.refs[r].inc
  }

  ghost predicate Longer(q: Thread, q': Thread) {
    && q.incs <= q'.incs && q.decs <= q'.decs && q'.incsDone == q.incsDone && q'.decsDone == q.decsDone
    && q'.decsLast == q.decsLast && q.incsEpoch <= q'.incsEpoch && (q.done >= 0 ==> q'.done >= 0)
  }

  lemma DueGrown(s: State, s': State, b: nat, k: nat)
    requires Sorted(s) && AllMatched(s) && Grown(s, s') && Due(s', b, k)
    ensures Due(s, b, k) && DueRef(s', b, k).inc == DueRef(s, b, k).inc
  {
    assert Longer(s.threads[s.order[b]], s'.threads[s.order[b]]);
    assert Kept(s.threads[s.order[b]]) && Matched(s.threads[s.order[b]], s.order[b], s.refs);
  }

  /** So what is due has not changed. */
  lemma GrownInv(s: State, s': State)
    requires Inv(s) && Grown(s, s') && Sorted(s') && AllMatched(s') && AllCoherent(s')
    ensures Inv(s')
  {
    hide Sorted, AllMatched, AllCoherent, Grown;
    assert s'.order == s.order && s'.phase == s.phase by {
      GrownFacts(s, s');
    }
    forall b: nat, k: nat | Due(s', b, k)
      ensures Due(s, b, k) && DueRef(s', b, k).inc == DueRef(s, b, k).inc
    {
      DueGrown(s, s', b, k);
    }
    if InTurn(s) {
      GrownFacts(s, s');
    }
  }

  lemma GrownFacts(s: State, s': State)
    requires Grown(s, s') && Sorted(s)
    ensures s'.order == s.order && s'.phase == s.phase && s'.Cursor() <= |s'.order|
    ensures InTurn(s) ==> s.order[s.phase.c] < |s'.threads| == |s.threads| && Longer(s.threads[s.order[s.phase.c]], s'.threads[s.order[s.phase.c]])
  {
  }

  lemma BeginInv(s: State, s': State, t: nat, failed: bool)
    requires Inv(s) && Begin(s, s', t, failed)
    ensures Inv(s')
  {
    hide Timely, Reached;
    assert Grown(s, s') && Sorted(s');
    assert AllMatched(s') && AllCoherent(s');
    GrownInv(s, s');
  }

  lemma PushIncInv(s: State, s': State, t: nat, x: nat)
    requires Inv(s) && PushInc(s, s', t, x)
    ensures Inv(s')
  {
    hide Timely, Reached;
    assert Grown(s, s') && Sorted(s');
    assert AllMatched(s') && AllCoherent(s');
    GrownInv(s, s');
  }

  lemma ExchangeInv(s: State, s': State, t: nat, r: nat, i: nat)
    requires Inv(s) && Exchange(s, s', t, r, i)
    ensures Inv(s')
  {
    hide Timely, Reached;
    assert Grown(s, s') && Sorted(s');
    assert AllMatched(s') && AllCoherent(s');
    GrownInv(s, s');
  }

  lemma PushDecInv(s: State, s': State, t: nat, r: nat)
    requires Inv(s) && PushDec(s, s', t, r)
    ensures Inv(s')
  {
    hide Timely, Reached;
    assert Grown(s, s') && Sorted(s');
    assert AllMatched(s') && AllCoherent(s');
    GrownInv(s, s');
  }

  lemma EndInv(s: State, s': State, t: nat)
    requires Inv(s) && (End(s, s', t) || Finish(s, s', t))
    ensures Inv(s')
  {
    hide Timely, Reached;
    assert Grown(s, s') && Sorted(s');
    assert AllMatched(s') && AllCoherent(s');
    GrownInv(s, s');
  }

  // ----- The collector keeps it -----

  lemma PassInv(s: State, s': State)
    requires Inv(s) && (BeginPass(s, s') || EndPass(s, s'))
    ensures Inv(s')
  {
    forall b: nat, k: nat | Due(s', b, k)
      ensures OnTime(s', b, DueRef(s', b, k))
    {
      assert Due(s, b, k) && DueRef(s', b, k) == DueRef(s, b, k);
      assert s'.Ahead(b) == s.order[..b + 1];
      if EndPass(s, s') {
        assert s.Ahead(b) == [] + s.order[..b + 1];
      }
    }
  }

  /** A thread that has not begun has pushed nothing. */
  lemma SkipInv(s: State, s': State, t: nat)
    requires Inv(s) && Skip(s, s', t)
    ensures Inv(s')
  {
    var c := s.phase.c;
    forall b: nat, k: nat | Due(s', b, k)
      ensures OnTime(s', b, DueRef(s', b, k))
    {
      assert Due(s, b, k) && DueRef(s', b, k) == DueRef(s, b, k) && b != c;
      assert Coherent(s, s.threads[s.order[b]].decs[k], DueRef(s, b, k));
      AheadPassed(s, s', b);
    }
  }

  /** Once the turn at `c` is over, only its thread is no longer ahead. */
  lemma AheadPassed(s: State, s': State, b: nat)
    requires Sorted(s) && !s.phase.Idle? && s.phase.c < |s.order| && b < |s.order| && b != s.phase.c
    requires s'.order == s.order && s'.phase == At(s.phase.c + 1)
    ensures forall t :: t in s.Ahead(b) && t != s.order[s.phase.c] ==> t in s'.Ahead(b)
  {
    var c := s.phase.c;
    if b >= c {
      assert s.Ahead(b) == [s.order[c]] + s'.Ahead(b);
    } else {
      assert s.Ahead(b) == [s.order[c]] + s'.Ahead(b);
    }
  }

  /** In the turn of a thread that began before, nothing is due anew. */
  lemma MarkInv(s: State, s': State, t: nat)
    requires Inv(s) && Mark(s, s', t) && s.threads[t].done < 3
    ensures Inv(s')
  {
    hide Timely, Reached;
    assert Sorted(s') && AllMatched(s') && AllCoherent(s');
    MarkReached(s, s', t);
  }

  lemma MarkReached(s: State, s': State, t: nat)
    requires Inv(s) && Mark(s, s', t) && s.threads[t].done < 3
    ensures Timely(s') && Reached(s')
  {
    forall b: nat, k: nat | Due(s', b, k)
      ensures Due(s, b, k) && DueRef(s', b, k) == DueRef(s, b, k) && s'.Ahead(b) == s.Ahead(b)
      ensures Coherent(s, s.threads[s.order[b]].decs[k], DueRef(s, b, k))
    {
    }
  }

  lemma LoadIncsInv(s: State, s': State, t: nat)
    requires Inv(s) && LoadIncs(s, s', t)
    ensures Inv(s')
  {
    forall b: nat, k: nat | Due(s', b, k)
      ensures Due(s, b, k) && DueRef(s', b, k) == DueRef(s, b, k) && s'.Ahead(b) == s.Ahead(b)
    {
    }
    assert AllMatched(s') && AllCoherent(s');
  }

  lemma ApplyIncInv(s: State, s': State, t: nat)
    requires Inv(s) && ApplyInc(s, s', t)
    ensures Inv(s')
  {
    hide Timely;
    assert s.threads[t].incsDone < s.threads[t].incsEpoch;
    assert Matched(s.threads[t], t, s.refs);
    assert Sorted(s') && AllMatched(s');
    assert AllCoherent(s');
    ApplyIncTimely(s, s', t);
  }

  lemma ApplyIncTimely(s: State, s': State, t: nat)
    requires Inv(s) && ApplyInc(s, s', t)
    ensures Timely(s') && Reached(s')
  {
    forall b: nat, k: nat | Due(s', b, k)
      ensures Due(s, b, k) && s'.Ahead(b) == s.Ahead(b)
      ensures DueRef(s', b, k).inc == DueRef(s, b, k).inc || DueRef(s', b, k).inc.Applied?
    {
    }
  }

  lemma IncsEndInv(s: State, s': State, t: nat)
    requires Inv(s) && IncsEnd(s, s', t)
    ensures Inv(s')
  {
    forall b: nat, k: nat | Due(s', b, k)
      ensures Due(s, b, k) && DueRef(s', b, k) == DueRef(s, b, k) && s'.Ahead(b) == s.Ahead(b)
    {
    }
    assert AllMatched(s') && AllCoherent(s');
  }

  /** When a decrement is applied, its increment has been. */
  lemma IncFirst(s: State, t: nat, r: nat)
    requires Inv(s) && Applying(s, t, r)
    ensures s.refs[r].inc.Applied? && s.refs[r].dec.Queued?
  {
    var c, k := s.phase.c, s.threads[t].decsDone;
    assert Due(s, c, k) && OnTime(s, c, DueRef(s, c, k));
    assert s.Ahead(c) == [t];
    assert Coherent(s, r, s.refs[r]) && Matched(s.threads[t], t, s.refs);
  }

  lemma ApplyDecInv(s: State, s': State, t: nat, r: nat)
    requires Inv(s) && ApplyDec(s, s', t, r)
    ensures Inv(s')
  {
    IncFirst(s, t, r);
    hide Timely, Reached;
    assert Sorted(s') && AllMatched(s');
    assert AllCoherent(s');
    ApplyDecTimely(s, s', t, r);
  }

  lemma ApplyDecTimely(s: State, s': State, t: nat, r: nat)
    requires Inv(s) && ApplyDec(s, s', t, r)
    ensures Timely(s') && Reached(s')
  {
    forall b: nat, k: nat | Due(s', b, k)
      ensures Due(s, b, k) && s'.Ahead(b) == s.Ahead(b) && DueRef(s', b, k).inc == DueRef(s, b, k).inc
    {
    }
  }

  // ----- The end of a turn -----

  /** Nothing that is due waits any more for the thread whose turn ends. */
  lemma TurnDone(s: State, t: nat, b: nat, k: nat)
    requires Inv(s) && s.phase.Decs? && Turn(s, t) && Due(s, b, k)
    ensures DueRef(s, b, k).inc.Queued? ==> DueRef(s, b, k).inc.t != t
  {
    assert Coherent(s, s.threads[s.order[b]].decs[k], DueRef(s, b, k));
  }

  lemma EndTurnInv(s: State, s': State, t: nat)
    requires Inv(s) && EndTurn(s, s', t) && s.threads[t].done < 3
    ensures Inv(s')
  {
    hide Timely, Reached;
    assert Sorted(s') && AllMatched(s');
    assert AllCoherent(s');
    EndTurnTimely(s, s', t);
  }

  lemma EndTurnTimely(s: State, s': State, t: nat)
    requires Inv(s) && EndTurn(s, s', t) && s.threads[t].done < 3 && s'.Cursor() <= |s'.order|
    ensures Timely(s')
  {
    var c := s.phase.c;
    forall b: nat, k: nat | Due(s', b, k)
      ensures OnTime(s', b, DueRef(s', b, k))
    {
      var i := s.threads[s.order[b]].decs[k];
      assert DueRef(s', b, k) == s.refs[i] && Coherent(s, i, s.refs[i]);
      if b == c {
        assert s'.Ahead(c) == s.order[c + 1..] + s.order[..c + 1];
        assert s.order == s.order[..c + 1] + s.order[c + 1..];
      } else {
        assert Due(s, b, k);
        TurnDone(s, t, b, k);
        AheadPassed(s, s'.(threads := s.threads), b);
        assert s'.(threads := s.threads).Ahead(b) == s'.Ahead(b);
      }
    }
  }

  // ----- The life of a thread -----

  /** A thread that finished two turns ago has nothing left in its queues. */
  ghost predicate Aged(q: Thread, turn: bool, phase: Phase) {
    && (q.done == 3 ==> turn && q.incsDone == |q.incs| && q.decsLast == |q.decs|)
    && (q.done == 2 && !turn ==> q.incsDone == |q.incs| && q.decsLast == |q.decs|)
    && (q.done >= 2 && turn && phase.Incs? ==> phase.bound == |q.incs|)
    && (q.done >= 2 && turn && phase.Decs? ==> q.incsDone == |q.incs|)
  }

  ghost predicate Drained(q: Thread) {
    q.done == 3 && q.incsDone == |q.incs| && q.decsDone == |q.decs|
  }

  ghost predicate Lives(s: State) {
    && (forall b :: 0 <= b < |s.order| && s.order[b] < |s.threads| ==> Aged(s.threads[s.order[b]], s.TurnOf(b), s.phase))
    && forall t :: 0 <= t < |s.threads| && t !in s.order ==> Drained(s.threads[t])
  }

  lemma ForkLives(s: State, s': State)
    requires Sorted(s) && Lives(s) && Fork(s, s')
    ensures Lives(s')
  {
    assert forall b :: 0 < b < |s'.order| ==> s'.order[b] == s.order[b - 1];
  }

  /** One listed thread has changed, and it has not been finished for a turn. */
  lemma YoungLives(s: State, s': State, t: nat)
    requires Sorted(s) && Lives(s) && s'.order == s.order && s'.phase == s.phase && |s'.threads| == |s.threads|
    requires t in s.order && t < |s.threads| && s'.threads[t].done < 2
    requires forall u :: 0 <= u < |s.threads| && u != t ==> s'.threads[u] == s.threads[u]
    ensures Lives(s')
  {
  }

  lemma MutateLives(s: State, s': State, t: nat, r: nat, i: nat)
    requires Sorted(s) && Lives(s) && Mutates(s, s', t, r, i)
    ensures Lives(s')
  {
    hide Sorted, Lives;
    if Fork(s, s') {
      ForkLives(s, s');
    } else {
      YoungLives(s, s', t);
    }
  }

  lemma CollectLives(s: State, s': State, t: nat, r: nat)
    requires Inv(s) && Lives(s) && Collects(s, s', t, r) && !EndTurn(s, s', t)
    ensures Lives(s')
  {
    hide Timely, AllMatched, AllCoherent;
  }

  lemma EndTurnLives(s: State, s': State, t: nat)
    requires Inv(s) && Lives(s) && EndTurn(s, s', t)
    ensures Lives(s') && (s.threads[t].done >= 3 ==> Drained(s.threads[t]))
  {
    EndTurnAged(s, s', t);
    hide Inv, Aged, Drained;
    if s.threads[t].done >= 3 {
      OrderLess(s.order, s.phase.c);
    }
  }

  lemma EndTurnAged(s: State, s': State, t: nat)
    requires Inv(s) && Lives(s) && EndTurn(s, s', t)
    ensures s.phase.c < |s.order| && t == s.order[s.phase.c] && |s'.threads| == |s.threads|
    ensures s.threads[t].done < 3 ==> Aged(s'.threads[t], false, s'.phase)
    ensures s.threads[t].done >= 3 ==> Drained(s.threads[t]) && Drained(s'.threads[t])
    ensures forall b :: 0 <= b < |s.order| ==> s.order[b] < |s.threads|
    ensures forall b :: 0 <= b < |s.order| && b != s.phase.c ==>
      s.order[b] != t && s'.threads[s.order[b]] == s.threads[s.order[b]] && Aged(s.threads[s.order[b]], false, s'.phase)
  {
    hide Timely, AllMatched, AllCoherent, Reached;
    assert Aged(s.threads[t], true, s.phase) && Kept(s.threads[t]);
  }

  lemma OrderLess(order: seq<nat>, c: nat)
    requires c < |order|
    ensures
      var less := order[..c] + order[c + 1..];
      && (forall b :: 0 <= b < |less| ==> less[b] == order[if b < c then b else b + 1])
      && forall t :: t in order <==> t == order[c] || t in less
  {
    assert order == order[..c] + [order[c]] + order[c + 1..];
  }

  /** The deletion of a drained thread. */
  lemma DeleteInv(s: State, s': State, t: nat)
    requires Inv(s) && EndTurn(s, s', t) && s.threads[t].done >= 3 && Drained(s.threads[t])
    ensures Inv(s')
  {
    hide Timely, Reached;
    OrderLess(s.order, s.phase.c);
    assert Sorted(s') && AllMatched(s');
    assert AllCoherent(s');
    DeleteTimely(s, s', t);
  }

  lemma DeleteTimely(s: State, s': State, t: nat)
    requires Inv(s) && EndTurn(s, s', t) && s.threads[t].done >= 3 && s'.Cursor() <= |s'.order|
    ensures Timely(s')
  {
    forall b: nat, k: nat | Due(s', b, k)
      ensures OnTime(s', b, DueRef(s', b, k))
    {
      DeleteOnTime(s, s', t, b, k);
    }
  }

  lemma DeleteOnTime(s: State, s': State, t: nat, b: nat, k: nat)
    requires Inv(s) && EndTurn(s, s', t) && s.threads[t].done >= 3 && s'.Cursor() <= |s'.order| && Due(s', b, k)
    ensures OnTime(s', b, DueRef(s', b, k))
  {
    var c := s.phase.c;
    var a := if b < c then b else b + 1;
    OrderLess(s.order, c);
    assert s'.order[b] == s.order[a] && s.order[a] != t && Due(s, a, k) && DueRef(s', b, k) == DueRef(s, a, k);
    TurnDone(s, t, a, k);
    AheadDeleted(s, s', b);
    hide AllMatched, AllCoherent, Reached;
    assert OnTime(s, a, DueRef(s, a, k));
  }

  lemma AheadDeleted(s: State, s': State, b: nat)
    requires !s.phase.Idle? && s.phase.c < |s.order| && s'.order == s.order[..s.phase.c] + s.order[s.phase.c + 1..]
    requires s'.phase == At(s.phase.c) && b < |s'.order|
    ensures s.Ahead(if b < s.phase.c then b else b + 1) == [s.order[s.phase.c]] + s'.Ahead(b)
  {
    var c, o := s.phase.c, s.order;
    if b < c {
      assert s'.order[c..] == o[c + 1..] && s'.order[..b + 1] == o[..b + 1];
      assert o[c..] == [o[c]] + o[c + 1..];
    } else {
      assert s'.order[c..b + 1] == o[c + 1..b + 2];
      assert o[c..b + 2] == [o[c]] + o[c + 1..b + 2];
    }
  }

  // ----- The counts -----

  ghost function Live(refs: seq<Ref>, x: nat): nat {
    if refs == [] then 0
    else
      var r := refs[|refs| - 1];
      Live(refs[..|refs| - 1], x) + if r.target == x && r.inc.Applied? && !r.dec.Applied? then 1 else 0
  }

  ghost predicate Counted(s: State) {
    forall x :: 0 <= x < |s.count| ==> s.count[x] == Live(s.refs, x)
  }

  ghost function Weight(r: Ref, x: nat): nat {
    if r.target == x && r.inc.Applied? && !r.dec.Applied? then 1 else 0
  }

  lemma {:induction false} LiveUpdate(refs: seq<Ref>, i: nat, r: Ref, x: nat)
    requires i < |refs|
    ensures Live(refs[i := r], x) + Weight(refs[i], x) == Live(refs, x) + Weight(r, x)
  {
    var n := |refs| - 1;
    if i < n {
      assert refs[i := r][..n] == refs[..n][i := r];
      LiveUpdate(refs[..n], i, r, x);
    } else {
      assert refs[i := r][..n] == refs[..n];
    }
  }

  /** A reference whose increment alone has been applied holds its object. */
  lemma {:induction false} LivePositive(refs: seq<Ref>, i: nat)
    requires i < |refs| && refs[i].inc.Applied? && !refs[i].dec.Applied?
    ensures Live(refs, refs[i].target) > 0
  {
    var n := |refs| - 1;
    if i < n {
      assert refs[..n][i] == refs[i];
      LivePositive(refs[..n], i);
    }
  }

  lemma MutateCounted(s: State, s': State, t: nat, r: nat, i: nat)
    requires Inv(s) && Counted(s) && Mutates(s, s', t, r, i)
    ensures Counted(s')
  {
    hide Sorted, Timely, Reached, AllMatched;
    forall x | 0 <= x < |s'.count|
      ensures s'.count[x] == Live(s'.refs, x)
    {
      if PushInc(s, s', t, r) {
        assert s'.refs[..|s.refs|] == s.refs;
      } else if Exchange(s, s', t, r, i) {
        var refs := s.refs[r := s.refs[r].(place := Slot(i))];
        LiveUpdate(s.refs, r, refs[r], x);
        if s.slots[i] >= 0 {
          LiveUpdate(refs, s.slots[i], s'.refs[s.slots[i]], x);
        }
      } else if PushDec(s, s', t, r) {
        assert Coherent(s, r, s.refs[r]);
        LiveUpdate(s.refs, r, s'.refs[r], x);
      }
    }
  }

  lemma CollectCounted(s: State, s': State, t: nat, r: nat)
    requires Inv(s) && Counted(s) && Collects(s, s', t, r)
    ensures Counted(s')
  {
    if ApplyInc(s, s', t) {
      var i := s.threads[t].incs[s.threads[t].incsDone];
      assert Matched(s.threads[t], t, s.refs) && Coherent(s, i, s.refs[i]);
      hide Inv;
      forall x | 0 <= x < |s'.count|
        ensures s'.count[x] == Live(s'.refs, x)
      {
        LiveUpdate(s.refs, i, s'.refs[i], x);
      }
    } else if ApplyDec(s, s', t, r) {
      IncFirst(s, t, r);
      hide Inv;
      forall x | 0 <= x < |s'.count|
        ensures s'.count[x] == Live(s'.refs, x)
      {
        LiveUpdate(s.refs, r, s'.refs[r], x);
      }
    }
  }

  // ----- Every run -----

  ghost predicate Good(s: State) {
    Inv(s) && Lives(s) && Counted(s)
  }

  lemma MutateInv(s: State, s': State, t: nat, r: nat, i: nat)
    requires Inv(s) && Mutates(s, s', t, r, i)
    ensures Inv(s')
  {
    hide Inv, Fork, Begin, PushInc, Exchange, PushDec, End, Finish;
    if Fork(s, s') {
      ForkInv(s, s');
    } else if Begin(s, s', t, true) {
      BeginInv(s, s', t, true);
    } else if Begin(s, s', t, false) {
      BeginInv(s, s', t, false);
    } else if PushInc(s, s', t, r) {
      PushIncInv(s, s', t, r);
    } else if Exchange(s, s', t, r, i) {
      ExchangeInv(s, s', t, r, i);
    } else if PushDec(s, s', t, r) {
      PushDecInv(s, s', t, r);
    } else {
      EndInv(s, s', t);
    }
  }

  lemma YoungerThanThree(s: State, s': State, t: nat)
    requires Inv(s) && Lives(s) && Mark(s, s', t)
    ensures s.threads[t].done < 3
  {
    assert Aged(s.threads[t], s.TurnOf(s.phase.c), s.phase) && Kept(s.threads[t]);
  }

  lemma CollectInv(s: State, s': State, t: nat, r: nat)
    requires Inv(s) && Lives(s) && Collects(s, s', t, r)
    ensures Inv(s') && Lives(s')
  {
    if EndTurn(s, s', t) {
      EndTurnLives(s, s', t);
    } else {
      CollectLives(s, s', t, r);
    }
    hide Inv, Lives, BeginPass, EndPass, Skip, Mark, LoadIncs, ApplyInc, IncsEnd, ApplyDec;
    if BeginPass(s, s') || EndPass(s, s') {
      PassInv(s, s');
    } else if Skip(s, s', t) {
      SkipInv(s, s', t);
    } else if Mark(s, s', t) {
      YoungerThanThree(s, s', t);
      MarkInv(s, s', t);
    } else if LoadIncs(s, s', t) {
      LoadIncsInv(s, s', t);
    } else if ApplyInc(s, s', t) {
      ApplyIncInv(s, s', t);
    } else if IncsEnd(s, s', t) {
      IncsEndInv(s, s', t);
    } else if ApplyDec(s, s', t, r) {
      ApplyDecInv(s, s', t, r);
    } else if s.threads[t].done >= 3 {
      DeleteInv(s, s', t);
    } else {
      EndTurnInv(s, s', t);
    }
  }

  lemma StepGood(s: State, s': State)
    requires Good(s) && Step(s, s')
    ensures Good(s')
  {
    hide Inv, Lives, Counted, Mutates, Collects, Sorted;
    var t: nat, r: nat, i: nat :| Acts(s, s', t, r, i);
    InvSorted(s);
    if Mutates(s, s', t, r, i) {
      MutateInv(s, s', t, r, i);
      MutateLives(s, s', t, r, i);
      MutateCounted(s, s', t, r, i);
    } else {
      CollectInv(s, s', t, r);
      CollectCounted(s, s', t, r);
    }
  }

  lemma InvSorted(s: State)
    requires Inv(s)
    ensures Sorted(s)
  {
  }

  ghost predicate IsRun(run: seq<State>) {
    run != [] && Init(run[0]) && forall i :: 0 < i < |run| ==> Step(run[i - 1], run[i])
  }

  lemma {:induction false} RunGood(run: seq<State>, i: nat)
    requires IsRun(run) && i < |run|
    ensures Good(run[i])
  {
    hide Good, Step;
    if i == 0 {
      InitGood(run[0]);
    } else {
      RunGood(run, i - 1);
      StepGood(run[i - 1], run[i]);
    }
  }

  lemma InitGood(s: State)
    requires Init(s)
    ensures Good(s)
  {
    InitInv(s);
  }

  /** In every run: a decrement is applied after its increment and finds the count
      positive. */
  lemma CountsHold(run: seq<State>, i: nat, t: nat, r: nat)
    requires IsRun(run) && i < |run| && Applying(run[i], t, r)
    ensures run[i].refs[r].inc.Applied? && run[i].count[run[i].refs[r].target] > 0
  {
    hide IsRun, Counted;
    var s := run[i];
    RunGood(run, i);
    IncFirst(s, t, r);
    LivePositive(s.refs, r);
    CountedAt(s, s.refs[r].target);
  }

  lemma CountedAt(s: State, x: nat)
    requires Counted(s) && x < |s.count|
    ensures s.count[x] == Live(s.refs, x)
  {
  }

  /** What a slot holds stays alive once its increment is applied. */
  lemma SlotsHold(run: seq<State>, i: nat, j: nat)
    requires IsRun(run) && i < |run| && j < |run[i].slots| && run[i].slots[j] >= 0
    ensures
      var s := run[i];
      && s.slots[j] < |s.refs| && s.refs[s.slots[j]].target < |s.count|
      && (s.refs[s.slots[j]].inc.Applied? ==> s.count[s.refs[s.slots[j]].target] > 0)
  {
    hide IsRun, Counted;
    var s := run[i];
    RunGood(run, i);
    var r: nat := s.slots[j];
    assert Coherent(s, r, s.refs[r]);
    if s.refs[r].inc.Applied? {
      LivePositive(s.refs, r);
    }
    CountedAt(s, s.refs[r].target);
  }

  /** A thread that is no longer listed has had all its increments and decrements
      applied, and pushes no more. */
  lemma DeletedDrained(run: seq<State>, i: nat, t: nat)
    requires IsRun(run) && i < |run| && t < |run[i].threads| && t !in run[i].order
    ensures Drained(run[i].threads[t]) && !Runs(run[i], t)
  {
    RunGood(run, i);
  }
}
