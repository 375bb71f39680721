/** The queue through which one mutator hands objects to the collector: a circular
    buffer whose producer and consumer run at the same time. Every step touches at
    most one variable that the other side can see. */
module Spsc {

  /** Where the producer is, in f__push and f_next. */
  datatype Producer =
    | Ready                   // about to write the slot at the head
    | Written                 // the head has not moved yet
    | Full                    // the limit is reached: f_next begins
    | AheadWait | AheadRead   // the head has moved on
    | AroundWait | AroundRead // the head has moved to the first slot

  /** Where the consumer is, in f__flush: `bound` is the last slot to read and
      `next` the last one before the end of the buffer or the bound. */
  datatype Consumer =
    | Idle
    | Checking(bound: nat)
    | Reading(bound: nat, next: nat)
    | Moving(bound: nat, next: nat)

  /** The last four fields are history: all that was pushed and delivered, and how
      many objects the epoch and the consumer's copy of it stand for. */
  datatype State = State(
    slots: seq<nat>, head: nat, limit: nat, epoch: nat, tail: nat, last: nat, p: Producer, c: Consumer,
    pushed: seq<nat>, delivered: seq<nat>, published: nat, loaded: nat)
  {
    /** How often the head has moved. */
    function Heads(): int {
      |pushed| - if p.Written? || p.Full? then 1 else 0
    }

    /** How often the tail has moved. */
    function Tails(): nat {
      |delivered| + if c.Reading? then 1 else 0
    }
  }

  function Min(a: int, b: int): int {
    if a < b then a else b
  }

  ghost predicate Init(n: nat, s: State) {
    && |s.slots| == n && s.head == 0 && s.limit == n / 8 && s.epoch == 0 && s.tail == n - 1 && s.last == 0
    && s.p == Ready && s.c == Idle && s.pushed == [] && s.delivered == [] && s.published == 0 && s.loaded == 0
  }

  // ----- The producer -----

  ghost predicate Write(n: nat, s: State, s': State, x: nat) {
    && s.p.Ready? && s.head < |s.slots|
    && s' == s.(slots := s.slots[s.head := x], pushed := s.pushed + [x], p := Written)
  }

  /** The test in f__push. */
  ghost predicate Advance(n: nat, s: State, s': State) {
    && s.p.Written?
    && s' == if s.head == s.limit then s.(p := Full) else s.(head := s.head + 1, p := Ready)
  }

  /** The first test in f_next. */
  ghost predicate Turn(n: nat, s: State, s': State) {
    && s.p.Full?
    && s' == if s.head < n - 1 then s.(head := s.head + 1, p := AheadWait) else s.(head := 0, p := AroundWait)
  }

  ghost predicate Wait(n: nat, s: State, s': State) {
    && (s.p.AheadWait? || s.p.AroundWait?) && s.tail != s.head
    && s' == s.(p := if s.p.AheadWait? then AheadRead else AroundRead)
  }

  /** The tail is read again for the new limit. */
  ghost predicate Limit(n: nat, s: State, s': State) {
    && (s.p.AheadRead? || s.p.AroundRead?)
    && var free := if s.p.AheadRead? && s.tail < s.head then n - 1 else s.tail - 1;
    && s'.limit == Min(free, s.head + n / 8)
    && s' == s.(limit := s'.limit, p := Ready)
  }

  /** f_epoch_get, run by the suspended producer wherever it is. */
  ghost predicate Publish(n: nat, s: State, s': State) {
    && s'.published == s.Heads()
    && s' == s.(epoch := s.head, published := s'.published)
  }

  // ----- The consumer -----

  ghost predicate Load(n: nat, s: State, s': State) {
    s.c.Idle? && s' == s.(last := s.epoch, loaded := s.published)
  }

  ghost predicate Start(n: nat, s: State, s': State) {
    && s.c.Idle? && n > 0
    && s' == s.(c := Checking(if s.last > 0 then s.last - 1 else n - 1))
  }

  ghost predicate Check(n: nat, s: State, s': State) {
    && s.c.Checking?
    && var bound := s.c.bound;
    s' == if s.tail == bound then s.(c := Idle)
          else if s.tail < n - 1 then
            s.(tail := s.tail + 1, c := Reading(bound, if bound < s.tail then n - 1 else bound))
          else s.(tail := 0, c := Reading(bound, bound))
  }

  ghost predicate Read(n: nat, s: State, s': State) {
    && s.c.Reading? && s.tail < |s.slots|
    && s' == s.(delivered := s.delivered + [s.slots[s.tail]],
                c := if s.tail == s.c.next then Checking(s.c.bound) else Moving(s.c.bound, s.c.next))
  }

  ghost predicate Move(n: nat, s: State, s': State) {
    && s.c.Moving?
    && s' == s.(tail := s.tail + 1, c := Reading(s.c.bound, s.c.next))
  }

  ghost predicate Produces(n: nat, s: State, s': State) {
    (exists x :: Write(n, s, s', x)) || Advance(n, s, s') || Turn(n, s, s') || Wait(n, s, s') || Limit(n, s, s') || Publish(n, s, s')
  }

  ghost predicate Consumes(n: nat, s: State, s': State) {
    Load(n, s, s') || Start(n, s, s') || Check(n, s, s') || Read(n, s, s') || Move(n, s, s')
  }

  ghost predicate IsRun(n: nat, run: seq<State>) {
    && run != [] && Init(n, run[0])
    && forall i :: 0 < i < |run| ==> Produces(n, run[i - 1], run[i]) || Consumes(n, run[i - 1], run[i])
  }

  // ----- Positions -----

  /** The slot of the object number `k`. */
  ghost function Pos(n: nat, k: nat): (p: nat)
    requires n > 0
    ensures p < n
  {
    if k == 0 then 0
    else
      var q := Pos(n, k - 1);
      if q + 1 == n then 0 else q + 1
  }

  lemma {:induction false} PosAdd(n: nat, k: nat, d: nat)
    requires n > 0 && d <= n
    ensures Pos(n, k + d) == if Pos(n, k) + d < n then Pos(n, k) + d else Pos(n, k) + d - n
  {
    if d > 0 {
      PosAdd(n, k, d - 1);
    }
  }

  // ----- The invariant -----

  ghost predicate Counts(n: nat, s: State) {
    && n >= 2 && |s.slots| == n
    && 0 <= s.Tails() <= s.loaded <= s.published <= s.Heads() < s.Tails() + n
    && s.head == Pos(n, s.Heads()) && s.tail == Pos(n, s.Tails() + n - 1)
    && s.epoch == Pos(n, s.published) && s.last == Pos(n, s.loaded)
  }

  /** What is pushed and not delivered is in its slot. */
  ghost predicate Stored(n: nat, s: State)
    requires n > 0 && |s.slots| == n
  {
    && |s.delivered| <= s.Heads() && s.delivered == s.pushed[..|s.delivered|]
    && (forall k :: |s.delivered| <= k < s.Heads() ==> s.slots[Pos(n, k)] == s.pushed[k])
    && (s.p.Written? || s.p.Full? ==> s.head < n && s.slots[s.head] == s.pushed[|s.pushed| - 1])
  }

  /** The producer may write up to the limit. */
  ghost predicate Room(n: nat, s: State) {
    match s.p
    case Ready => s.head <= s.limit < n && s.Heads() + (s.limit - s.head) + 1 < s.Tails() + n
    case Written => s.head <= s.limit < n && s.Heads() + (s.limit - s.head) + 1 < s.Tails() + n
    case Full => s.Heads() + 1 < s.Tails() + n
    case AheadWait => s.head > 0
    case AheadRead => s.head > 0 && s.Heads() + 1 < s.Tails() + n
    case AroundWait => s.head == 0
    case AroundRead => s.head == 0 && s.Heads() + 1 < s.Tails() + n
  }

  /** The consumer stays within what it has loaded. */
  ghost predicate Within(n: nat, s: State)
    requires n > 0
  {
    match s.c
    case Idle => true
    case Checking(bound) => bound == Pos(n, s.loaded + n - 1)
    case Reading(bound, next) =>
      bound == Pos(n, s.loaded + n - 1) && s.tail <= next < n && s.Tails() + (next - s.tail) <= s.loaded
    case Moving(bound, next) =>
      bound == Pos(n, s.loaded + n - 1) && s.tail < next < n && s.Tails() + (next - s.tail) <= s.loaded
  }

  ghost predicate Inv(n: nat, s: State) {
    Counts(n, s) && Stored(n, s) && Room(n, s) && Within(n, s)
  }

  lemma InitInv(n: nat, s: State)
    requires n >= 2 && Init(n, s)
    ensures Inv(n, s)
  {
    PosAdd(n, 0, n - 1);
  }

  /** The slot about to be written is neither the one at the tail, which may be
      being read, nor that of an object not yet delivered. */
  lemma NeverOverwrites(n: nat, s: State)
    requires Inv(n, s) && s.p.Ready?
    ensures s.head != s.tail
    ensures forall k :: |s.delivered| <= k < |s.pushed| ==> Pos(n, k) != s.head
  {
    var h := s.Heads();
    PosAdd(n, h, s.Tails() + n - 1 - h);
    forall k | |s.delivered| <= k < |s.pushed|
      ensures Pos(n, k) != s.head
    {
      PosAdd(n, k, h - k);
    }
  }

  lemma WriteInv(n: nat, s: State, s': State, x: nat)
    requires Inv(n, s) && Write(n, s, s', x)
    ensures Inv(n, s')
  {
    NeverOverwrites(n, s);
  }

  lemma AdvanceInv(n: nat, s: State, s': State)
    requires Inv(n, s) && Advance(n, s, s')
    ensures Inv(n, s')
  {
    hide Pos;
    PosAdd(n, s.Heads(), 1);
    assert s'.Tails() == s.Tails();
  }

  lemma TurnInv(n: nat, s: State, s': State)
    requires Inv(n, s) && Turn(n, s, s')
    ensures Inv(n, s')
  {
    hide Pos;
    PosAdd(n, s.Heads(), 1);
    assert s'.Tails() == s.Tails();
  }

  lemma WaitInv(n: nat, s: State, s': State)
    requires Inv(n, s) && Wait(n, s, s')
    ensures Inv(n, s')
  {
    hide Pos;
    assert s'.Tails() == s.Tails() && s'.Heads() == s.Heads();
  }

  lemma LimitInv(n: nat, s: State, s': State)
    requires Inv(n, s) && Limit(n, s, s')
    ensures Inv(n, s')
  {
    hide Pos;
    PosAdd(n, s.Heads(), s.Tails() + n - 1 - s.Heads());
    assert s'.Tails() == s.Tails() && s'.Heads() == s.Heads();
  }

  lemma PublishInv(n: nat, s: State, s': State)
    requires Inv(n, s) && Publish(n, s, s')
    ensures Inv(n, s')
  {
    hide Pos;
    assert s'.Tails() == s.Tails() && s'.Heads() == s.Heads();
  }

  lemma LoadInv(n: nat, s: State, s': State)
    requires Inv(n, s) && Load(n, s, s')
    ensures Inv(n, s')
  {
    hide Pos;
    assert s'.Tails() == s.Tails() && s'.Heads() == s.Heads();
  }

  lemma StartInv(n: nat, s: State, s': State)
    requires Inv(n, s) && Start(n, s, s')
    ensures Inv(n, s')
  {
    hide Pos;
    PosAdd(n, s.loaded, n - 1);
    assert s'.Tails() == s.Tails() && s'.Heads() == s.Heads();
  }

  lemma CheckInv(n: nat, s: State, s': State)
    requires Inv(n, s) && Check(n, s, s')
    ensures Inv(n, s')
  {
    hide Pos;
    var t := s.Tails();
    PosAdd(n, t + n - 1, 1);
    PosAdd(n, t + n - 1, s.loaded - t);
    assert t + n - 1 + (s.loaded - t) == s.loaded + n - 1;
    assert s'.Heads() == s.Heads();
  }

  lemma ReadInv(n: nat, s: State, s': State)
    requires Inv(n, s) && Read(n, s, s')
    ensures Inv(n, s')
  {
    hide Pos;
    var k := |s.delivered|;
    PosAdd(n, k, n);
    assert s'.Heads() == s.Heads() && s'.Tails() == s.Tails();
    assert s.slots[Pos(n, k)] == s.pushed[k];
  }

  lemma MoveInv(n: nat, s: State, s': State)
    requires Inv(n, s) && Move(n, s, s')
    ensures Inv(n, s')
  {
    hide Pos;
    PosAdd(n, s.Tails() + n - 1, 1);
    assert s'.Heads() == s.Heads();
  }

  lemma StepInv(n: nat, s: State, s': State)
    requires Inv(n, s) && (Produces(n, s, s') || Consumes(n, s, s'))
    ensures Inv(n, s')
  {
    hide Inv, Write, Advance, Turn, Wait, Limit, Publish, Load, Start, Check, Read, Move;
    if x :| Write(n, s, s', x) {
      WriteInv(n, s, s', x);
    } else if Advance(n, s, s') {
      AdvanceInv(n, s, s');
    } else if Turn(n, s, s') {
      TurnInv(n, s, s');
    } else if Wait(n, s, s') {
      WaitInv(n, s, s');
    } else if Limit(n, s, s') {
      LimitInv(n, s, s');
    } else if Publish(n, s, s') {
      PublishInv(n, s, s');
    } else if Load(n, s, s') {
      LoadInv(n, s, s');
    } else if Start(n, s, s') {
      StartInv(n, s, s');
    } else if Check(n, s, s') {
      CheckInv(n, s, s');
    } else if Read(n, s, s') {
      ReadInv(n, s, s');
    } else {
      MoveInv(n, s, s');
    }
  }

  // ----- Every run -----

  lemma {:induction false} RunInv(n: nat, run: seq<State>, i: nat)
    requires n >= 2 && IsRun(n, run) && i < |run|
    ensures Inv(n, run[i])
  {
    hide Inv, Produces, Consumes, Init;
    if i == 0 {
      InitInv(n, run[0]);
    } else {
      RunInv(n, run, i - 1);
      StepInv(n, run[i - 1], run[i]);
    }
  }

  /** In every run the objects are delivered once each and in the order in which
      they were pushed; the slot about to be written is neither at the tail nor
      that of an object not yet delivered; and a flush has delivered, when it is
      over, all that the epoch it used stands for. */
  lemma Delivers(n: nat, run: seq<State>, i: nat)
    requires n >= 2 && IsRun(n, run) && i < |run|
    ensures
      var s := run[i];
      && s.delivered <= s.pushed && |s.delivered| <= s.loaded <= s.published <= |s.pushed| <= |s.delivered| + n
      && (s.p.Ready? ==> s.head != s.tail && forall k :: |s.delivered| <= k < |s.pushed| ==> Pos(n, k) != s.head)
      && (s.c.Checking? && s.tail == s.c.bound ==> s.delivered == s.pushed[..s.loaded])
  {
    var s := run[i];
    RunInv(n, run, i);
    if s.p.Ready? {
      NeverOverwrites(n, s);
    }
    if s.c.Checking? {
      PosAdd(n, s.Tails() + n - 1, s.loaded - s.Tails());
      assert s.Tails() + n - 1 + (s.loaded - s.Tails()) == s.loaded + n - 1;
    }
  }

  /** How many steps the consumer is from the end of its flush, at most. */
  ghost function Remaining(s: State): int {
    4 * (s.loaded - |s.delivered|)
    + match s.c
      case Idle => 0
      case Checking(_) => 3
      case Reading(_, _) => 1
      case Moving(_, _) => 2
  }

  lemma RemainingBound(n: nat, s: State)
    requires Inv(n, s)
    ensures 0 <= Remaining(s)
  {
    hide Pos, Stored, Room;
  }

  lemma CheckNears(n: nat, s: State, s': State)
    requires Inv(n, s) && Check(n, s, s')
    ensures Remaining(s') < Remaining(s)
  {
    hide Pos, Stored, Room;
  }

  /** A flush comes to its end, whatever the producer does meanwhile. */
  lemma FlushEnds(n: nat, s: State, s': State)
    requires Inv(n, s) && (Produces(n, s, s') || Check(n, s, s') || Read(n, s, s') || Move(n, s, s'))
    ensures 0 <= Remaining(s') <= Remaining(s)
    ensures Check(n, s, s') || Read(n, s, s') || Move(n, s, s') ==> Remaining(s') < Remaining(s)
  {
    hide Inv, Pos;
    StepInv(n, s, s');
    RemainingBound(n, s');
    if Check(n, s, s') {
      CheckNears(n, s, s');
    }
  }

  /** A producer that waits for room finds some once all it has published is
      flushed. */
  lemma WaitEnds(n: nat, s: State)
    requires Inv(n, s) && (s.p.AheadWait? || s.p.AroundWait?)
    requires s.c.Idle? && s.published == s.Heads() && |s.delivered| == s.published
    ensures s.tail != s.head
  {
    PosAdd(n, s.Heads(), n - 1);
  }
}
