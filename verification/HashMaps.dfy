/** The map of the language: a table that grows and shrinks between prime ranks. */
module HashMaps {
  import opened RobinHood

  const RANKS := 28

  function Capacity(rank: nat): nat {
    match rank
    case 0 => 11
    case 1 => 23
    case 2 => 53
    case 3 => 97
    case 4 => 193
    case 5 => 389
    case 6 => 769
    case 7 => 1543
    case 8 => 3079
    case 9 => 6151
    case 10 => 12289
    case 11 => 24593
    case 12 => 49157
    case 13 => 98317
    case 14 => 196613
    case 15 => 393241
    case 16 => 786433
    case 17 => 1572869
    case 18 => 3145739
    case 19 => 6291469
    case 20 => 12582917
    case 21 => 25165843
    case 22 => 50331653
    case 23 => 100663319
    case 24 => 201326611
    case 25 => 402653189
    case 26 => 805306457
    case _ => 1610612741
  }

  function Upper(rank: nat): nat
    requires rank < RANKS
  {
    Capacity(rank) / 2
  }

  function Lower(rank: nat): nat
    requires rank < RANKS
  {
    if rank == 0 then 0 else Capacity(rank) / 4
  }

  /** The most entries there can be at a rank: a shrink may leave more than
      `Upper`. */
  ghost function Most(rank: nat): nat
    requires rank < RANKS
  {
    if rank + 1 < RANKS && Lower(rank + 1) > Upper(rank) + 1 then Lower(rank + 1) - 1 else Upper(rank)
  }

  /** There is always room: at every rank, after growing and after shrinking. */
  lemma Ranks(rank: nat)
    requires rank < RANKS
    ensures Most(rank) < Capacity(rank)
    ensures rank + 1 < RANKS ==> Most(rank) + 1 <= Most(rank + 1) && Lower(rank + 1) <= Most(rank) + 1
  {
  }

  datatype Result<V> = Ok(value: V) | KeyNotFound | CannotGrow

  // ----- Facts about tables -----

  ghost function Keys<K, V>(t: Table<K, V>, n: nat): set<K>
    requires n <= |t|
  {
    set i | 0 <= i < n && t[i].Full? :: t[i].key
  }

  lemma {:induction false} KeysCount<K, V>(t: Table<K, V>, n: nat)
    requires n <= |t| && forall i :: 0 <= i < n ==> t[i].Full?
    requires forall i, j :: 0 <= i < j < |t| && t[i].Full? && t[j].Full? ==> t[i].key != t[j].key
    ensures |Keys(t, n)| == n
  {
    if n > 0 {
      KeysCount(t, n - 1);
      assert Keys(t, n) == Keys(t, n - 1) + {t[n - 1].key};
      assert t[n - 1].key !in Keys(t, n - 1);
    } else {
      assert Keys(t, 0) == {};
    }
  }

  lemma SubsetSize<T>(a: set<T>, b: set<T>)
    requires a <= b
    ensures |a| <= |b|
  {
    if a != {} {
      var x :| x in a;
      SubsetSize(a - {x}, b - {x});
    }
  }

  /** With fewer entries than slots there is an empty slot. */
  lemma SomeEmpty<K, V>(t: Table<K, V>, m: map<K, V>, hash: K -> nat) returns (e: nat)
    requires Holds(t, m, hash) && |m| < |t|
    ensures e < |t| && t[e].Empty?
  {
    if i :| 0 <= i < |t| && t[i].Empty? {
      e := i;
    } else {
      e := 0;
      assert |m.Keys| == |m|;
      SubsetSize(Keys(t, |t|), m.Keys);
      KeysCount(t, |t|);
    }
  }

  /** A key can only be found at its distance. */
  lemma OwnSlot<K, V>(t: Table<K, V>, m: map<K, V>, hash: K -> nat, p: nat, k: K)
    requires Ordered(t) && Holds(t, m, hash) && p < |t| && t[p].Full? && t[p].key == k
    ensures t[p].gap == Dist(|t|, hash(k) % |t|, p) + 1 && k in m && m[k] == t[p].value
  {
  }

  /** Where the search with the distance `gap` stands. */
  ghost predicate Seeking<K, V>(t: Table<K, V>, hash: K -> nat, key: K, p: nat, gap: nat) {
    && p < |t| && gap == Dist(|t|, hash(key) % |t|, p) + 1 && Unseen(t, hash(key) % |t|, p, key)
    && (gap > 1 ==> t[Prev(|t|, p)].Gap() + 1 >= gap)
  }

  lemma SeekStart<K, V>(t: Table<K, V>, hash: K -> nat, key: K)
    requires |t| > 0
    ensures Seeking(t, hash, key, hash(key) % |t|, 1)
  {
  }

  lemma SeekNext<K, V>(t: Table<K, V>, hash: K -> nat, key: K, p: nat, gap: nat, e: nat)
    requires Ordered(t) && Seeking(t, hash, key, p, gap) && e < |t| && t[e].Empty?
    requires t[p].Gap() >= gap && (t[p].Full? ==> t[p].key != key)
    ensures Seeking(t, hash, key, Next(|t|, p), gap + 1)
    ensures Dist(|t|, Next(|t|, p), e) < Dist(|t|, p, e)
    ensures t[Next(|t|, p)].Gap() <= t[p].Gap() + 1
  {
    UnseenNext(t, hash(key) % |t|, p, key, e);
    Passed(t, hash(key), gap, p, e);
  }

  lemma SeekEnd<K, V>(t: Table<K, V>, m: map<K, V>, hash: K -> nat, key: K, p: nat, gap: nat)
    requires Ordered(t) && Holds(t, m, hash) && Seeking(t, hash, key, p, gap) && t[p].Gap() < gap
    ensures key !in m
    ensures forall v :: Fits(t, Full(gap, hash(key), key, v), p)
  {
    Absent(t, m, hash, p, key);
  }

  /** An entry at another distance has another key. */
  lemma OtherKey<K, V>(t: Table<K, V>, m: map<K, V>, hash: K -> nat, key: K, p: nat, gap: nat)
    requires Ordered(t) && Holds(t, m, hash) && Seeking(t, hash, key, p, gap)
    ensures t[p].Full? && t[p].key == key ==> t[p].gap == gap && t[p].hash == hash(key) && key in m && m[key] == t[p].value
  {
  }

  /** An entry on its way: what is in the table with it is `all`. */
  ghost predicate Carrying<K, V>(t: Table<K, V>, m: map<K, V>, all: map<K, V>, hash: K -> nat, c: Entry<K, V>, p: nat) {
    && Ordered(t) && Holds(t, m, hash) && Fits(t, c, p)
    && c.hash == hash(c.key) && c.key !in m && m[c.key := c.value] == all
  }

  /** The displaced entry looks for its place from `q` on. */
  ghost predicate Moving<K, V>(t: Table<K, V>, m: map<K, V>, all: map<K, V>, hash: K -> nat, c: Entry<K, V>, q: nat, e: nat) {
    && Ordered(t) && Holds(t, m, hash) && q < |t| && e < |t| && t[e].Empty?
    && c.Full? && c.gap == Dist(|t|, c.hash % |t|, q) + 1 && c.gap <= t[Prev(|t|, q)].Gap() + 1
    && c.hash == hash(c.key) && c.key !in m && m[c.key := c.value] == all
  }

  lemma Swapped<K, V>(t: Table<K, V>, m: map<K, V>, all: map<K, V>, hash: K -> nat, c: Entry<K, V>, p: nat, e: nat)
    requires Carrying(t, m, all, hash, c, p) && e < |t| && t[e].Empty? && t[p].Full?
    ensures t[p].key in all && Moving(t[p := c], all - {t[p].key}, all, hash, t[p].(gap := t[p].gap + 1), Next(|t|, p), e)
    ensures Dist(|t|, Next(|t|, p), e) < Dist(|t|, p, e)
  {
    PutOrdered(t, c, p);
    PutHolds(t, m, hash, c, p);
    Displaced(t, c, p, e);
  }

  lemma MovedOn<K, V>(t: Table<K, V>, m: map<K, V>, all: map<K, V>, hash: K -> nat, c: Entry<K, V>, q: nat, e: nat)
    requires Moving(t, m, all, hash, c, q, e)
    ensures if t[q].Gap() >= c.gap then
              Moving(t, m, all, hash, c.(gap := c.gap + 1), Next(|t|, q), e) && Dist(|t|, Next(|t|, q), e) < Dist(|t|, q, e)
            else Carrying(t, m, all, hash, c, q)
  {
    if t[q].Gap() >= c.gap {
      Passed(t, c.hash, c.gap, q, e);
    }
  }

  lemma Settled<K, V>(t: Table<K, V>, m: map<K, V>, all: map<K, V>, hash: K -> nat, c: Entry<K, V>, p: nat)
    requires Carrying(t, m, all, hash, c, p) && t[p].Empty?
    ensures Ordered(t[p := c]) && Holds(t[p := c], all, hash)
  {
    PutOrdered(t, c, p);
    PutHolds(t, m, hash, c, p);
  }

  /** t_table::f_put: puts an entry where a search for it ended. */
  method Insert<K(==, !new), V>(entries: array<Entry<K, V>>, c0: Entry<K, V>, p0: nat, ghost m0: map<K, V>,
                                ghost all: map<K, V>, ghost hash: K -> nat)
    requires Carrying(entries[..], m0, all, hash, c0, p0) && |m0| < entries.Length
    modifies entries
    ensures Ordered(entries[..]) && Holds(entries[..], all, hash)
  {
    var p: nat, c := p0, c0;
    ghost var m := m0;
    ghost var e := CarriedEmpty(entries[..], m0, all, hash, c0, p0);
    hide Carrying, Moving, Ordered, Holds, Dist, Fits;
    var n := entries.Length;
    CarriedFacts(entries[..], m, all, hash, c, p);
    while entries[p].Full?
      invariant p < n && e < n && entries[e].Empty? && Carrying(entries[..], m, all, hash, c, p)
      decreases Dist(n, p, e)
    {
      ghost var t := entries[..];
      CarriedFacts(t, m, all, hash, c, p);
      Swapped(t, m, all, hash, c, p, e);
      ghost var d := Dist(n, p, e);
      var displaced := entries[p];
      m := all - {displaced.key};
      entries[p] := c;
      assert entries[..] == t[p := c];
      p, c := Next(n, p), displaced.(gap := displaced.gap + 1);
      p, c := Advance(entries, c, p, m, all, hash, e);
      CarriedFacts(entries[..], m, all, hash, c, p);
    }
    Settled(entries[..], m, all, hash, c, p);
    ghost var t := entries[..];
    entries[p] := c;
    assert entries[..] == t[p := c];
  }

  lemma CarriedFacts<K, V>(t: Table<K, V>, m: map<K, V>, all: map<K, V>, hash: K -> nat, c: Entry<K, V>, p: nat)
    requires Carrying(t, m, all, hash, c, p)
    ensures p < |t| && c.Full?
  {
  }

  lemma CarriedEmpty<K, V>(t: Table<K, V>, m: map<K, V>, all: map<K, V>, hash: K -> nat, c: Entry<K, V>, p: nat) returns (e: nat)
    requires Carrying(t, m, all, hash, c, p) && |m| < |t|
    ensures e < |t| && t[e].Empty?
  {
    e := SomeEmpty(t, m, hash);
  }

  /** The inner loop of t_table::f_put: to the next slot with a nearer entry. */
  method Advance<K(==, !new), V>(entries: array<Entry<K, V>>, c0: Entry<K, V>, p0: nat, ghost m: map<K, V>,
                                 ghost all: map<K, V>, ghost hash: K -> nat, ghost e: nat)
      returns (p: nat, c: Entry<K, V>)
    requires Moving(entries[..], m, all, hash, c0, p0, e)
    ensures e < entries.Length && p0 < entries.Length && p < entries.Length
    ensures Carrying(entries[..], m, all, hash, c, p) && Dist(entries.Length, p, e) <= Dist(entries.Length, p0, e)
  {
    p, c := p0, c0;
    MovingFacts(entries[..], m, all, hash, c, p, e);
    hide Carrying, Moving, Ordered, Holds, Dist, Fits;
    var n := entries.Length;
    while entries[p].Gap() >= c.gap
      invariant p < n && c.Full? && Moving(entries[..], m, all, hash, c, p, e)
      invariant Dist(n, p, e) <= Dist(n, p0, e)
      decreases Dist(n, p, e)
    {
      MovedOn(entries[..], m, all, hash, c, p, e);
      p, c := Next(n, p), c.(gap := c.gap + 1);
    }
    MovedOn(entries[..], m, all, hash, c, p, e);
  }

  lemma MovingFacts<K, V>(t: Table<K, V>, m: map<K, V>, all: map<K, V>, hash: K -> nat, c: Entry<K, V>, p: nat, e: nat)
    requires Moving(t, m, all, hash, c, p, e)
    ensures p < |t| && e < |t| && c.Full?
  {
  }

  lemma GapFull<K, V>(e: Entry<K, V>, gap: nat)
    requires e.Gap() >= gap > 0
    ensures e.Full?
  {
  }

  /** The inner loop of f_remove: to the last entry of the run that begins after
      the hole. */
  method EndOfRun<K(==, !new), V>(entries: array<Entry<K, V>>, p: nat, ghost e: nat) returns (q: nat, ghost g: nat)
    requires Holed(entries[..], p) && e < entries.Length && entries[e].Empty? && e != p
    requires entries[Next(entries.Length, p)].Gap() > 1
    ensures q < entries.Length && Running(entries[..], p, q, g, e) && entries[Next(entries.Length, q)].Gap() < g + 1
  {
    hide Holed, Running, Dist;
    var n := entries.Length;
    ghost var t := entries[..];
    q := Next(n, p);
    RunStart(t, p, e);
    g := entries[q].Gap();
    var d: nat := entries[q].Gap();
    while true
      invariant q < n && d == g && Running(t, p, q, g, e)
      decreases Dist(n, q, e)
    {
      var r := Next(n, q);
      d := d + 1;
      if entries[r].Gap() < d {
        break;
      }
      RunNext(t, p, q, g, e);
      q := r;
      g := g + 1;
    }
  }

  /** The loop of f_remove: closes the hole at `p0`. */
  method CloseHole<K(==, !new), V>(entries: array<Entry<K, V>>, p0: nat, ghost m: map<K, V>, ghost hash: K -> nat, ghost e: nat)
    requires Holed(entries[..], p0) && Holds(entries[..], m, hash) && e < entries.Length && entries[e].Empty? && e != p0
    modifies entries
    ensures Ordered(entries[..]) && Holds(entries[..], m, hash)
  {
    hide Holed, Running, Dist, Holds, Ordered;
    var p: nat, n := p0, entries.Length;
    HoledAt(entries[..], p);
    while true
      invariant p < n && Holed(entries[..], p) && Holds(entries[..], m, hash) && e < n && entries[e].Empty? && e != p
      decreases Dist(n, p, e)
    {
      ghost var t := entries[..];
      HoledAt(t, p);
      var gap := entries[Next(n, p)].Gap();
      if gap <= 1 {
        HoleClosed(t, p);
        break;
      }
      var q;
      ghost var g;
      q, g := EndOfRun(entries, p, e);
      RunningFull(t, p, q, g, e);
      ShiftHoled(t, p, q, g, e);
      ShiftHolds(t, m, hash, p, q, gap - 1);
      entries[p] := entries[q].(gap := gap - 1);
      entries[q] := Empty;
      assert entries[..] == Shifted(t, p, q, gap - 1);
      p := q;
    }
  }

  lemma HoledAt<K, V>(t: Table<K, V>, p: nat)
    requires Holed(t, p)
    ensures p < |t| && t[p].Empty?
  {
  }

  lemma RunningFull<K, V>(t: Table<K, V>, p: nat, q: nat, g: nat, e: nat)
    requires Running(t, p, q, g, e)
    ensures q < |t| && t[q].Full? && q != p
  {
  }

  class HashMap<K(==, !new), V> {
    const hash: K -> nat
    var rank: nat
    var entries: array<Entry<K, V>>
    var size: nat
    ghost var model: map<K, V>

    ghost predicate Valid()
      reads this, entries
    {
      && rank < RANKS && entries.Length == Capacity(rank)
      && Ordered(entries[..]) && Holds(entries[..], model, hash)
      && size == |model| <= Most(rank)
    }

    /** The first f_find: the entry with the key, or -1. */
    method Find(key: K) returns (p: int)
      requires Valid()
      ensures if p < 0 then key !in model
              else p < entries.Length && entries[p].Full? && entries[p].key == key && key in model
    {
      hide Ordered, Holds, Seeking, Dist;
      Ranks(rank);
      ghost var t := entries[..];
      ghost var e := SomeEmpty(t, model, hash);
      var n, h := entries.Length, hash(key);
      var q: nat := h % n;
      var gap: nat := 1;
      SeekStart(t, hash, key);
      while entries[q].Gap() > gap
        invariant q < n && Seeking(t, hash, key, q, gap)
        decreases Dist(n, q, e)
      {
        OtherKey(t, model, hash, key, q, gap);
        SeekNext(t, hash, key, q, gap, e);
        q, gap := Next(n, q), gap + 1;
      }
      while entries[q].Gap() == gap
        invariant q < n && Seeking(t, hash, key, q, gap) && entries[q].Gap() <= gap
        decreases Dist(n, q, e)
      {
        OtherKey(t, model, hash, key, q, gap);
        GapFull(t[q], gap);
        if entries[q].hash == h && entries[q].key == key {
          return q;
        }
        SeekNext(t, hash, key, q, gap, e);
        q, gap := Next(n, q), gap + 1;
      }
      SeekEnd(t, model, hash, key, q, gap);
      p := -1;
    }

    /** The second f_find: where the key is, or where it is to be put. */
    method FindPlace(key: K) returns (p: nat, gap: nat)
      requires Valid()
      ensures p < entries.Length && Seeking(entries[..], hash, key, p, gap) && entries[p].Gap() <= gap
      ensures if entries[p].Gap() == gap then entries[p].Full? && entries[p].key == key && key in model
              else key !in model
    {
      hide Ordered, Holds, Seeking, Dist;
      Ranks(rank);
      ghost var t := entries[..];
      ghost var e := SomeEmpty(t, model, hash);
      var n, h := entries.Length, hash(key);
      p, gap := h % n, 1;
      SeekStart(t, hash, key);
      while entries[p].Gap() > gap
        invariant p < n && gap > 0 && Seeking(t, hash, key, p, gap)
        decreases Dist(n, p, e)
      {
        OtherKey(t, model, hash, key, p, gap);
        SeekNext(t, hash, key, p, gap, e);
        p, gap := Next(n, p), gap + 1;
      }
      while entries[p].Gap() >= gap && !(entries[p].Full? && entries[p].hash == h && entries[p].key == key)
        invariant p < n && gap > 0 && Seeking(t, hash, key, p, gap) && entries[p].Gap() <= gap
        decreases Dist(n, p, e)
      {
        OtherKey(t, model, hash, key, p, gap);
        SeekNext(t, hash, key, p, gap, e);
        p, gap := Next(n, p), gap + 1;
      }
      OtherKey(t, model, hash, key, p, gap);
      if entries[p].Gap() < gap {
        SeekEnd(t, model, hash, key, p, gap);
      } else {
        GapFull(t[p], gap);
      }
    }

    constructor (hash: K -> nat)
      ensures Valid() && model == map[] && this.hash == hash && fresh(entries)
    {
      this.hash := hash;
      rank := 0;
      size := 0;
      model := map[];
      entries := new Entry<K, V>[11](_ => Empty);
      new;
      Blank(entries[..], this.hash);
    }

    /** f_rehash */
    method Rehash(target: nat)
      requires Valid() && target < RANKS && size <= Most(target)
      modifies this`rank, this`entries
      ensures Valid() && rank == target && fresh(entries)
    {
      hide Ordered, Holds, Carrying, Moving;
      Ranks(target);
      var n := Capacity(target);
      var table := new Entry<K, V>[n](_ => Empty);
      Blank(table[..], hash);
      ghost var t := entries[..];
      ghost var m: map<K, V> := map[];
      for i := 0 to entries.Length
        invariant Ordered(table[..]) && Holds(table[..], m, hash) && Copied(t, i, m, model)
        invariant entries[..] == t
        modifies table
      {
        if entries[i].Full? {
          CopyOne(t, i, m, model, hash);
          var x := entries[i];
          ghost var e := SomeEmpty(table[..], m, hash);
          ghost var all := m[x.key := x.value];
          Launch(table[..], m, hash, x, e);
          var q, c := Advance(table, Full(1, x.hash, x.key, x.value), x.hash % n, m, all, hash, e);
          Insert(table, c, q, m, all, hash);
          m := all;
        } else {
          CopySkip(t, i, m, model);
        }
      }
      CopiedAll(t, m, model, hash);
      entries := table;
      rank := target;
    }

    /** f_put */
    method Put(key: K, value: V) returns (r: Result<V>)
      requires Valid()
      modifies this, entries
      ensures Valid() && (entries == old(entries) || fresh(entries))
      ensures if key !in old(model) && old(size) >= Upper(old(rank)) && old(rank) + 1 >= RANKS
              then r == CannotGrow && model == old(model)
              else r == Ok(value) && model == old(model)[key := value]
    {
      hide Ordered, Holds, Seeking, Carrying, Fits;
      var p, gap := FindPlace(key);
      if entries[p].Gap() == gap {
        ghost var t := entries[..];
        UpdateHolds(t, model, hash, p, value);
        entries[p] := entries[p].(value := value);
        assert entries[..] == t[p := t[p].(value := value)];
        model := model[key := value];
        return Ok(value);
      }
      if size >= Upper(rank) {
        if rank + 1 >= RANKS {
          return CannotGrow;
        }
        Ranks(rank);
        Rehash(rank + 1);
        p, gap := FindPlace(key);
      }
      Ranks(rank);
      SeekEnd(entries[..], model, hash, key, p, gap);
      SeekCarries(entries[..], model, hash, key, value, p, gap);
      Insert(entries, Full(gap, hash(key), key, value), p, model, model[key := value], hash);
      model := model[key := value];
      size := size + 1;
      r := Ok(value);
    }

    /** f_remove */
    method Remove(key: K) returns (r: Result<V>)
      requires Valid()
      modifies this, entries
      ensures Valid() && (entries == old(entries) || fresh(entries))
      ensures if key in old(model) then r == Ok(old(model)[key]) && model == old(model) - {key}
              else r == KeyNotFound && model == old(model)
    {
      hide Ordered, Holds, Holed;
      var p := Find(key);
      if p < 0 {
        return KeyNotFound;
      }
      Ranks(rank);
      ghost var t := entries[..];
      OwnSlot(t, model, hash, p, key);
      HoleMade(t, model, hash, p);
      ghost var e := SomeEmpty(t, model, hash);
      r := Ok(entries[p].value);
      entries[p] := Empty;
      assert entries[..] == t[p := Empty];
      LessKey(model, key);
      model := model - {key};
      CloseHole(entries, p, model, hash, e);
      size := size - 1;
      if size < Lower(rank) {
        if rank > 0 {
          Ranks(rank - 1);
        }
        Rehash(rank - 1);
      }
    }

    /** f_get */
    method Get(key: K) returns (r: Result<V>)
      requires Valid()
      ensures r == if key in model then Ok(model[key]) else KeyNotFound
    {
      var p := Find(key);
      if p < 0 {
        return KeyNotFound;
      }
      OwnSlot(entries[..], model, hash, p, key);
      r := Ok(entries[p].value);
    }

    /** f_has */
    method Has(key: K) returns (r: bool)
      requires Valid()
      ensures r <==> key in model
    {
      var p := Find(key);
      r := p >= 0;
    }

    /** f_clear */
    method Clear()
      requires Valid()
      modifies this
      ensures Valid() && model == map[] && fresh(entries)
    {
      entries := new Entry<K, V>[11](_ => Empty);
      Blank(entries[..], hash);
      rank, size, model := 0, 0, map[];
    }
  }

  lemma Blank<K, V>(t: Table<K, V>, hash: K -> nat)
    requires |t| > 0 && forall i :: 0 <= i < |t| ==> t[i] == Empty
    ensures Ordered(t) && Holds(t, map[], hash)
  {
  }

  /** `m` is what the first `i` slots hold of `all`. */
  ghost predicate Copied<K, V>(t: Table<K, V>, i: nat, m: map<K, V>, all: map<K, V>) {
    i <= |t| && m.Keys == Keys(t, i) && forall k :: k in m ==> k in all && m[k] == all[k]
  }

  lemma CopyOne<K, V>(t: Table<K, V>, i: nat, m: map<K, V>, all: map<K, V>, hash: K -> nat)
    requires Copied(t, i, m, all) && i < |t| && t[i].Full? && Holds(t, all, hash)
    ensures t[i].key !in m && |m| <= |all| && t[i].hash == hash(t[i].key)
    ensures Copied(t, i + 1, m[t[i].key := t[i].value], all)
  {
    hide Holds, Keys;
    KeysMore(t, i, all, hash);
    CopiedSize(t, i, m, all);
    assert m[t[i].key := t[i].value].Keys == m.Keys + {t[i].key};
  }

  lemma KeysMore<K, V>(t: Table<K, V>, i: nat, all: map<K, V>, hash: K -> nat)
    requires i < |t| && t[i].Full? && Holds(t, all, hash)
    ensures Keys(t, i + 1) == Keys(t, i) + {t[i].key} && t[i].key !in Keys(t, i)
    ensures t[i].key in all && all[t[i].key] == t[i].value && t[i].hash == hash(t[i].key)
  {
  }

  lemma CopiedSize<K, V>(t: Table<K, V>, i: nat, m: map<K, V>, all: map<K, V>)
    requires Copied(t, i, m, all)
    ensures |m| <= |all|
  {
    SubsetSize(m.Keys, all.Keys);
    assert |m.Keys| == |m| && |all.Keys| == |all|;
  }

  lemma CopySkip<K, V>(t: Table<K, V>, i: nat, m: map<K, V>, all: map<K, V>)
    requires Copied(t, i, m, all) && i < |t| && t[i].Empty?
    ensures Copied(t, i + 1, m, all)
  {
    assert Keys(t, i + 1) == Keys(t, i);
  }

  lemma CopiedAll<K, V>(t: Table<K, V>, m: map<K, V>, all: map<K, V>, hash: K -> nat)
    requires Copied(t, |t|, m, all) && Holds(t, all, hash)
    ensures m == all
  {
    forall k | k in all
      ensures k in m
    {
      assert HasKey(t, k);
      var i :| 0 <= i < |t| && t[i].Full? && t[i].key == k;
      assert t[i].key in Keys(t, |t|);
    }
  }

  /** An entry that is rehashed starts at its own slot. */
  lemma Launch<K, V>(t: Table<K, V>, m: map<K, V>, hash: K -> nat, x: Entry<K, V>, e: nat)
    requires Ordered(t) && Holds(t, m, hash) && e < |t| && t[e].Empty?
    requires x.Full? && x.key !in m && x.hash == hash(x.key)
    ensures Moving(t, m, m[x.key := x.value], hash, Full(1, x.hash, x.key, x.value), x.hash % |t|, e)
  {
  }

  lemma SeekCarries<K, V>(t: Table<K, V>, m: map<K, V>, hash: K -> nat, key: K, value: V, p: nat, gap: nat)
    requires Ordered(t) && Holds(t, m, hash) && key !in m && Fits(t, Full(gap, hash(key), key, value), p)
    ensures Carrying(t, m, m[key := value], hash, Full(gap, hash(key), key, value), p)
  {
  }

  lemma LessKey<K, V>(m: map<K, V>, k: K)
    requires k in m
    ensures |m - {k}| == |m| - 1
  {
    assert (m - {k}).Keys == m.Keys - {k};
    assert |m.Keys| == |m| && |(m - {k}).Keys| == |m - {k}|;
  }
}
