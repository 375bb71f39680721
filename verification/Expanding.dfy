/** Calls with expanded arguments: the compiler counts the arguments between them, and
    the interpreter spreads them out on the stack where they are. */
module Expanding {
  import opened Options

  datatype Value = One(n: nat) | Many(items: seq<Value>)

  predicate Ascending(expands: seq<nat>, from: nat, size: nat) {
    && (forall k :: 0 <= k < |expands| ==> from <= expands[k] < size) && from <= size
    && forall k, l :: 0 <= k < l < |expands| ==> expands[k] < expands[l]
  }

  /** All the arguments, those that are expanded one by one. */
  function Spread(args: seq<Value>, expands: seq<nat>): seq<Value> {
    if args == [] then []
    else
      var n := |args| - 1;
      Spread(args[..n], expands) + if n in expands && args[n].Many? then args[n].items else [args[n]]
  }

  // ----- The compiler -----

  /** The numbers of arguments before each one that is expanded, and after the last. */
  function Gaps(expands: seq<nat>, from: nat, size: nat): seq<nat>
    requires Ascending(expands, from, size)
  {
    if expands == [] then [size - from]
    else [expands[0] - from] + Gaps(expands[1..], expands[0] + 1, size)
  }

  lemma {:induction false} GapsMore(expands: seq<nat>, from: nat, size: nat, k: nat)
    requires Ascending(expands, from, size) && k < |expands|
    ensures |Gaps(expands, from, size)| == |expands| + 1
    ensures Gaps(expands, from, size)[k] == expands[k] - if k == 0 then from else expands[k - 1] + 1
    ensures Gaps(expands, from, size)[|expands|] == size - (expands[|expands| - 1] + 1)
  {
    if |expands| > 1 {
      GapsMore(expands[1..], expands[0] + 1, size, if k == 0 then 0 else k - 1);
    }
  }

  /** t_call::f_emit */
  method EmitGaps(expands: seq<nat>, size: nat) returns (r: seq<nat>)
    requires Ascending(expands, 0, size)
    ensures r == Gaps(expands, 0, size)
  {
    r := [];
    var i := 0;
    for k := 0 to |expands|
      invariant |r| == k && i == if k == 0 then 0 else expands[k - 1] + 1
      invariant forall l :: 0 <= l < k ==> l < |Gaps(expands, 0, size)| && r[l] == Gaps(expands, 0, size)[l]
    {
      GapsMore(expands, 0, size, k);
      r := r + [expands[k] - i];
      i := expands[k] + 1;
    }
    if expands != [] {
      GapsMore(expands, 0, size, 0);
    }
    r := r + [size - i];
  }

  // ----- The interpreter -----

  /** The stack that is needed at most. */
  ghost function Room(args: seq<Value>, expands: seq<nat>): nat {
    if args == [] then 0
    else
      var n := |args| - 1;
      Room(args[..n], expands) + 1 + if n in expands && args[n].Many? then |args[n].items| else 0
  }

  lemma {:induction false} RoomEnough(args: seq<Value>, expands: seq<nat>, i: nat)
    requires i <= |args|
    ensures |Spread(args[..i], expands)| + |args| - i <= Room(args, expands)
    ensures i < |args| && i in expands && args[i].Many? ==>
      |Spread(args[..i], expands)| + |args[i].items| + |args| - i <= Room(args, expands)
    decreases |args|
  {
    var n := |args| - 1;
    if i == |args| {
      assert args[..i] == args;
      if i > 0 {
        RoomEnough(args[..n], expands, n);
        assert args[..n][..n] == args[..n];
      }
    } else {
      RoomEnough(args[..n], expands, i);
      assert args[..n][..i] == args[..i];
    }
  }

  lemma SpreadOne(args: seq<Value>, expands: seq<nat>, j: nat)
    requires j < |args| && j !in expands
    ensures Spread(args[..j + 1], expands) == Spread(args[..j], expands) + [args[j]]
  {
    assert args[..j + 1][..j] == args[..j];
  }

  /** Arguments that are not expanded stay as they are. */
  lemma {:induction false} SpreadPlain(args: seq<Value>, expands: seq<nat>, i: nat, j: nat)
    requires i <= j <= |args| && forall k :: i <= k < j ==> k !in expands
    ensures Spread(args[..j], expands) == Spread(args[..i], expands) + args[i..j]
  {
    hide Spread;
    if i < j {
      SpreadPlain(args, expands, i, j - 1);
      SpreadOne(args, expands, j - 1);
      assert args[i..j] == args[i..j - 1] + [args[j - 1]];
    }
  }

  lemma SpreadMore(args: seq<Value>, expands: seq<nat>, i: nat)
    requires i < |args| && i in expands && args[i].Many?
    ensures Spread(args[..i + 1], expands) == Spread(args[..i], expands) + args[i].items
  {
    assert args[..i + 1][..i] == args[..i];
  }

  lemma Joined(stack: seq<Value>, s: nat, m: nat, rest: nat)
    requires s + m + rest <= |stack|
    ensures stack[..s + m + rest] == stack[..s] + stack[s..s + m] + stack[s + m..s + m + rest]
  {
  }

  /** What the stack is after that. */
  ghost predicate Opened(b: seq<Value>, b': seq<Value>, s: nat, rest: nat, items: seq<Value>) {
    && |b'| == |b| && s + 1 + rest <= |b| && s + |items| + rest <= |b|
    && b'[..s + |items| + rest] == b[..s] + items + b[s + 1..s + 1 + rest]
  }

  lemma OpenedBy(b: seq<Value>, b': seq<Value>, s: nat, rest: nat, items: seq<Value>)
    requires |b'| == |b| && s + 1 + rest <= |b| && s + |items| + rest <= |b|
    requires b'[..s] == b[..s] && b'[s..s + |items|] == items && b'[s + |items|..s + |items| + rest] == b[s + 1..s + 1 + rest]
    ensures Opened(b, b', s, rest, items)
  {
    Joined(b', s, |items|, rest);
  }

  /** std::move_backward or std::move of `n` values. */
  method Move(stack: array<Value>, from: nat, n: nat, to: nat)
    requires from + n <= stack.Length && to + n <= stack.Length
    modifies stack
    ensures stack[to..to + n] == old(stack[from..from + n])
    ensures forall m: nat :: m <= to ==> stack[..m] == old(stack[..m])
  {
    forall i | 0 <= i < n {
      stack[to + i] := stack[from + i];
    }
  }

  method Store(stack: array<Value>, s: nat, items: seq<Value>)
    requires s + |items| <= stack.Length
    modifies stack
    ensures stack[s..s + |items|] == items && stack[..s] == old(stack[..s])
    ensures stack[s + |items|..] == old(stack[s + |items|..])
  {
    for i := 0 to |items|
      invariant stack[s..s + i] == items[..i] && stack[..s] == old(stack[..s])
      invariant stack[s + |items|..] == old(stack[s + |items|..])
    {
      stack[s + i] := items[i];
    }
  }

  lemma AfterStore(b: seq<Value>, b': seq<Value>, m: nat, n: nat)
    requires m <= n <= |b| == |b'| && b'[m..] == b[m..]
    ensures b'[m..n] == b[m..n]
  {
    assert b'[m..n] == b'[m..][..n - m];
  }

  /** The items take the place of the value at `s`, and the `rest` values after it make
      room or close up. */
  method Open(stack: array<Value>, s: nat, rest: nat, items: seq<Value>)
    requires s + 1 + rest <= stack.Length && s + |items| + rest <= stack.Length
    modifies stack
    ensures Opened(old(stack[..]), stack[..], s, rest, items)
  {
    hide Opened;
    ghost var b := stack[..];
    Move(stack, s + 1, rest, s + |items|);
    ghost var b1 := stack[..];
    if |items| > 0 {
      Store(stack, s, items);
      AfterStore(b1, stack[..], s + |items|, s + |items| + rest);
    }
    OpenedBy(b, stack[..], s, rest, items);
  }

  /** What holds before the `k`th number is read: the arguments before `i` have been
      spread out up to `s`, and the others follow. */
  ghost predicate Partway(stack: seq<Value>, base: nat, args: seq<Value>, expands: seq<nat>, k: nat, i: nat, s: nat) {
    && k <= |expands| && i <= |args| && i == (if k == 0 then 0 else expands[k - 1] + 1)
    && base <= s && s + (|args| - i) <= |stack|
    && stack[base..s] == Spread(args[..i], expands) && stack[s..s + (|args| - i)] == args[i..]
  }

  /** Nothing between two expanded arguments is expanded. */
  lemma NoneBetween(expands: seq<nat>, size: nat, k: nat, i: nat, j: nat, e: nat)
    requires Ascending(expands, 0, size) && k <= |expands| && i == (if k == 0 then 0 else expands[k - 1] + 1)
    requires j == (if k < |expands| then expands[k] else size) && i <= e < j
    ensures e !in expands
  {
    forall l | 0 <= l < |expands|
      ensures expands[l] != e
    {
      if k > 0 && l < k - 1 {
        assert expands[l] < expands[k - 1];
      }
      if l > k {
        assert expands[k] < expands[l];
      }
    }
  }

  lemma GapOrder(expands: seq<nat>, size: nat, k: nat)
    requires Ascending(expands, 0, size) && k <= |expands|
    ensures var i, j := if k == 0 then 0 else expands[k - 1] + 1, if k < |expands| then expands[k] else size;
      i <= j <= size && forall e :: i <= e < j ==> e !in expands
  {
    var i, j := if k == 0 then 0 else expands[k - 1] + 1, if k < |expands| then expands[k] else size;
    if 0 < k < |expands| {
      assert expands[k - 1] < expands[k];
    }
    forall e | i <= e < j
      ensures e !in expands
    {
      NoneBetween(expands, size, k, i, j, e);
    }
  }

  lemma Slices(stack: seq<Value>, base: nat, s: nat, n: nat, c: nat, args: seq<Value>, i: nat)
    requires base <= s && c <= n && s + n <= |stack| && i + n == |args| && stack[s..s + n] == args[i..]
    ensures stack[base..s + c] == stack[base..s] + args[i..i + c] && stack[s + c..s + n] == args[i + c..]
  {
    var rest := stack[s..s + n];
    assert rest[..c] == args[i..i + c] && rest[c..] == args[i + c..];
    assert stack[base..s + c] == stack[base..s] + rest[..c];
    assert stack[s + c..s + n] == rest[c..];
  }

  lemma PartwayPlain(stack: seq<Value>, base: nat, args: seq<Value>, expands: seq<nat>, k: nat, i: nat, s: nat, j: nat)
    requires Ascending(expands, 0, |args|) && Partway(stack, base, args, expands, k, i, s)
    requires j == if k < |expands| then expands[k] else |args|
    ensures i <= j <= |args| && base <= s && s + (|args| - i) <= |stack|
    ensures stack[base..s + (j - i)] == Spread(args[..j], expands) && stack[s + (j - i)..s + (|args| - i)] == args[j..]
  {
    hide Spread, Ascending;
    GapOrder(expands, |args|, k);
    SpreadPlain(args, expands, i, j);
    Slices(stack, base, s, |args| - i, j - i, args, i);
  }

  /** The arguments before `j` have been spread out up to `s`, where the next one that
      is expanded is, or the end. */
  ghost predicate Arrived(b: seq<Value>, base: nat, args: seq<Value>, expands: seq<nat>, k: nat, j: nat, s: nat) {
    && k <= |expands| && j <= |args| && j == (if k < |expands| then expands[k] else |args|) && (k < |expands| ==> j < |args|)
    && base <= s && s + (|args| - j) <= |b|
    && b[base..s] == Spread(args[..j], expands) && b[s..s + (|args| - j)] == args[j..]
  }

  /** The numbers are found after `pc`. */
  ghost predicate Numbers(words: seq<nat>, pc: nat, expands: seq<nat>, n: nat) {
    && Ascending(expands, 0, n) && pc + |expands| + 1 < |words|
    && |Gaps(expands, 0, n)| == |expands| + 1 && words[pc + 1..pc + 1 + |Gaps(expands, 0, n)|] == Gaps(expands, 0, n)
  }

  /** The `k`th number leads to the next argument that is expanded. */
  lemma Arrives(words: seq<nat>, pc: nat, b: seq<Value>, base: nat, args: seq<Value>, expands: seq<nat>, k: nat, i: nat, s: nat)
      returns (j: nat)
    requires Numbers(words, pc, expands, |args|) && Partway(b, base, args, expands, k, i, s)
    ensures i <= j <= |args| && pc + 1 + k < |words| && words[pc + 1 + k] == j - i
    ensures Arrived(b, base, args, expands, k, j, s + (j - i)) && (j == |args| <==> k == |expands|) && k <= |expands|
    ensures k < |expands| ==> j == expands[k]
  {
    hide Spread, Gaps;
    j := if k < |expands| then expands[k] else |args|;
    PartwayPlain(b, base, args, expands, k, i, s, j);
    GapWord(words, pc, expands, |args|, k);
  }

  lemma FirstIs(b: seq<Value>, base: nat, args: seq<Value>, expands: seq<nat>, k: nat, j: nat, s: nat)
    requires Arrived(b, base, args, expands, k, j, s) && k < |expands|
    ensures s < |b| && j < |args| && b[s] == args[j] && base <= s && s + (|args| - j) <= |b|
  {
    assert b[s] == b[s..s + (|args| - j)][0];
  }

  lemma OpenedPartway(b: seq<Value>, b': seq<Value>, base: nat, args: seq<Value>, expands: seq<nat>, k: nat, j: nat, s: nat)
    requires Ascending(expands, 0, |args|) && Arrived(b, base, args, expands, k, j, s) && k < |expands| && args[j].Many?
    requires Opened(b, b', s, |args| - j - 1, args[j].items)
    ensures Partway(b', base, args, expands, k + 1, j + 1, s + |args[j].items|) && b'[..base] == b[..base]
  {
    var items, rest := args[j].items, |args| - j - 1;
    var whole := b'[..s + |items| + rest];
    SpreadMore(args, expands, j);
    hide Spread, Ascending;
    assert b'[base..s + |items|] == whole[base..s + |items|] == b[..s][base..] + items;
    assert b[..s][base..] == b[base..s];
    assert b[s + 1..s + 1 + rest] == b[s..s + (|args| - j)][1..];
    assert b'[s + |items|..s + |items| + rest] == whole[s + |items|..];
    assert b'[..base] == whole[..base];
  }

  lemma RoomAt(b: seq<Value>, base: nat, args: seq<Value>, expands: seq<nat>, k: nat, j: nat, s: nat)
    requires Arrived(b, base, args, expands, k, j, s) && k < |expands| && args[j].Many?
    requires base + Room(args, expands) <= |b|
    ensures s + |args[j].items| + (|args| - j - 1) <= |b|
  {
    hide Spread, Room;
    RoomEnough(args, expands, j);
    assert |b[base..s]| == s - base;
  }

  lemma PartwayBegins(b: seq<Value>, base: nat, args: seq<Value>, expands: seq<nat>)
    requires base + |args| <= |b| && b[base..base + |args|] == args
    ensures Partway(b, base, args, expands, 0, 0, base)
  {
    assert args[..0] == [] && args[0..] == args;
  }

  lemma ArrivedAtEnd(b: seq<Value>, base: nat, args: seq<Value>, expands: seq<nat>, s: nat)
    requires Arrived(b, base, args, expands, |expands|, |args|, s)
    ensures base <= s <= |b| && b[base..s] == Spread(args, expands)
  {
    hide Spread;
    assert args[..|args|] == args;
  }

  /** The argument at `s` is opened, if it can be: the `k`th that is expanded. */
  method Round(stack: array<Value>, s: nat, rest: nat, ghost base: nat, ghost args: seq<Value>, ghost expands: seq<nat>,
               ghost k: nat, ghost j: nat) returns (m: nat, ok: bool)
    requires Ascending(expands, 0, |args|) && Arrived(stack[..], base, args, expands, k, j, s) && k < |expands|
    requires base + Room(args, expands) <= stack.Length && j < |args| && rest == |args| - j - 1
    modifies stack
    ensures base <= stack.Length && stack[..base] == old(stack[..base]) && ok == args[j].Many?
    ensures ok ==> m == |args[j].items| && Partway(stack[..], base, args, expands, k + 1, j + 1, s + m)
  {
    hide Ascending, Spread, Room, Partway, Opened, Arrived;
    ghost var b := stack[..];
    FirstIs(b, base, args, expands, k, j, s);
    var x := stack[s];
    if !x.Many? {
      return 0, false;
    }
    RoomAt(b, base, args, expands, k, j, s);
    Open(stack, s, rest, x.items);
    OpenedPartway(b, stack[..], base, args, expands, k, j, s);
    return |x.items|, true;
  }

  /** f_expand, from the word before the first number; `n` arguments begin at `base`.
      There is no result if something is expanded that cannot be. */
  method Expand(words: seq<nat>, pc0: nat, stack: array<Value>, base: nat, n: nat, ghost args: seq<Value>, ghost expands: seq<nat>)
      returns (r: Option<nat>, pc: nat)
    requires Numbers(words, pc0, expands, n) && |args| == n && base + n <= stack.Length && stack[base..base + n] == args
    requires base + Room(args, expands) <= stack.Length
    modifies stack
    ensures r.Some? <==> forall e :: e in expands && e < n ==> args[e].Many?
    ensures r.Some? ==>
      && r.value == |Spread(args, expands)| && pc == pc0 + |expands| + 1
      && base + r.value <= stack.Length && stack[base..base + r.value] == Spread(args, expands)
    ensures stack[..base] == old(stack[..base])
  {
    hide Spread, Room, Partway, Arrived, Numbers, Ascending;
    pc := pc0;
    var s: nat, rest: nat, total: nat := base, n, 0;
    ghost var i: nat, k: nat := 0, 0;
    PartwayBegins(stack[..], base, args, expands);
    NumbersAscend(words, pc0, expands, n);
    while true
      invariant Partway(stack[..], base, args, expands, k, i, s)
      invariant i <= n && k <= |expands| && pc == pc0 + k && rest == n - i && s == base + total
      invariant forall l :: 0 <= l < k ==> expands[l] < n && args[expands[l]].Many?
      invariant stack[..base] == old(stack[..base])
      decreases |expands| - k
    {
      ghost var j := Arrives(words, pc0, stack[..], base, args, expands, k, i, s);
      pc := pc + 1;
      var d := words[pc];
      total := total + d;
      rest := rest - d;
      s := s + d;
      if rest == 0 {
        break;
      }
      var m, ok := Round(stack, s, rest - 1, base, args, expands, k, j);
      if !ok {
        return None, pc;
      }
      rest := rest - 1;
      s := s + m;
      total := total + m;
      k, i := k + 1, j + 1;
    }
    ArrivedAtEnd(stack[..], base, args, expands, s);
    r := Some(total);
  }

  lemma NumbersAscend(words: seq<nat>, pc: nat, expands: seq<nat>, n: nat)
    requires Numbers(words, pc, expands, n)
    ensures Ascending(expands, 0, n)
  {
  }

  lemma GapWord(words: seq<nat>, pc: nat, expands: seq<nat>, n: nat, k: nat)
    requires Numbers(words, pc, expands, n) && k <= |expands|
    ensures words[pc + 1 + k] ==
      (if k < |expands| then expands[k] else n) - (if k == 0 then 0 else expands[k - 1] + 1)
  {
    GapAt(expands, n, k);
    hide Gaps, Ascending;
    assert words[pc + 1 + k] == words[pc + 1..pc + 1 + |Gaps(expands, 0, n)|][k];
  }

  lemma GapAt(expands: seq<nat>, n: nat, k: nat)
    requires Ascending(expands, 0, n) && k <= |expands|
    ensures |Gaps(expands, 0, n)| == |expands| + 1
    ensures Gaps(expands, 0, n)[k] ==
      (if k < |expands| then expands[k] else n) - (if k == 0 then 0 else expands[k - 1] + 1)
  {
    if k < |expands| {
      GapsMore(expands, 0, n, k);
    } else if k > 0 {
      GapsMore(expands, 0, n, k - 1);
    }
  }
}
