/** The open-addressing table of a map: entries are kept at their distance from the
    slot their hash asks for, the more distant ones first. */
module RobinHood {

  datatype Entry<K, V> = Empty | Full(gap: nat, hash: nat, key: K, value: V)
  {
    /** How far the entry is from its own slot, counted from 1. */
    function Gap(): nat {
      if Full? then gap else 0
    }
  }

  // ----- Going round -----

  function Next(n: nat, i: nat): nat {
    if i + 1 >= n then 0 else i + 1
  }

  ghost function Prev(n: nat, i: nat): nat
    requires i < n
  {
    if i == 0 then n - 1 else i - 1
  }

  /** How many steps lead from `i` to `j`. */
  ghost function Dist(n: nat, i: nat, j: nat): nat
    requires i < n && j < n
  {
    if i <= j then j - i else j + n - i
  }

  // ----- The table -----

  type Table<K, V> = seq<Entry<K, V>>

  /** Every entry knows its distance. */
  ghost predicate Placed<K, V>(t: Table<K, V>) {
    forall i :: 0 <= i < |t| && t[i].Full? ==> t[i].gap == Dist(|t|, t[i].hash % |t|, i) + 1
  }

  /** Distances grow by one at most from slot to slot. */
  ghost predicate Adjacent<K, V>(t: Table<K, V>) {
    forall i :: 0 <= i < |t| ==> t[Next(|t|, i)].Gap() <= t[i].Gap() + 1
  }

  /** The table holds exactly `m`. */
  ghost predicate Holds<K, V>(t: Table<K, V>, m: map<K, V>, hash: K -> nat) {
    && (forall i :: 0 <= i < |t| && t[i].Full? ==> t[i].key in m && m[t[i].key] == t[i].value && t[i].hash == hash(t[i].key))
    && (forall i, j :: 0 <= i < j < |t| && t[i].Full? && t[j].Full? ==> t[i].key != t[j].key)
    && forall k :: k in m ==> HasKey(t, k)
  }

  ghost predicate HasKey<K, V>(t: Table<K, V>, k: K) {
    exists i :: 0 <= i < |t| && t[i].Full? && t[i].key == k
  }

  ghost predicate Ordered<K, V>(t: Table<K, V>) {
    |t| > 0 && Placed(t) && Adjacent(t)
  }

  /** Going back, distances shrink by one at most: an empty slot bounds them. */
  lemma {:induction false} Bounded<K, V>(t: Table<K, V>, e: nat, i: nat)
    requires Adjacent(t) && e < |t| && t[e].Empty? && i < |t|
    ensures t[i].Gap() <= Dist(|t|, e, i)
    decreases Dist(|t|, e, i)
  {
    if i != e {
      var n := |t|;
      var h := Prev(n, i);
      assert Next(n, h) == i;
      Bounded(t, e, h);
    }
  }

  /** All the slots from that of an entry to where it is hold entries at least as
      distant. */
  lemma {:induction false} Filled<K, V>(t: Table<K, V>, h: nat, i: nat, j: nat)
    requires Adjacent(t) && h < |t| && i < |t| && j < |t|
    requires Dist(|t|, h, j) <= Dist(|t|, h, i) && t[i].Gap() == Dist(|t|, h, i) + 1
    ensures t[j].Gap() >= Dist(|t|, h, j) + 1
    decreases Dist(|t|, h, i) - Dist(|t|, h, j)
  {
    if j != i {
      var n := |t|;
      var k := Next(n, j);
      assert Dist(n, h, k) == Dist(n, h, j) + 1;
      Filled(t, h, i, k);
    }
  }

  // ----- Searching -----

  /** The key is at none of the slots from `h` to before `p`. */
  ghost predicate Unseen<K, V>(t: Table<K, V>, h: nat, p: nat, k: K)
    requires h < |t| && p < |t|
  {
    forall i :: 0 <= i < |t| && Dist(|t|, h, i) < Dist(|t|, h, p) && t[i].Full? ==> t[i].key != k
  }

  /** A search that meets a smaller distance than its own has missed nothing. */
  lemma Absent<K, V>(t: Table<K, V>, m: map<K, V>, hash: K -> nat, p: nat, k: K)
    requires Ordered(t) && Holds(t, m, hash) && p < |t|
    requires Unseen(t, hash(k) % |t|, p, k) && t[p].Gap() < Dist(|t|, hash(k) % |t|, p) + 1
    ensures k !in m
  {
    if k in m {
      assert HasKey(t, k);
      var i :| 0 <= i < |t| && t[i].Full? && t[i].key == k;
      Filled(t, hash(k) % |t|, i, p);
    }
  }

  lemma UnseenNext<K, V>(t: Table<K, V>, h: nat, p: nat, k: K, e: nat)
    requires h < |t| && p < |t| && e < |t| && t[e].Empty? && Adjacent(t) && Unseen(t, h, p, k)
    requires t[p].Gap() >= Dist(|t|, h, p) + 1 && (t[p].Full? ==> t[p].key != k)
    ensures Dist(|t|, h, Next(|t|, p)) == Dist(|t|, h, p) + 1 && Unseen(t, h, Next(|t|, p), k)
    ensures p != e && Dist(|t|, Next(|t|, p), e) < Dist(|t|, p, e)
  {
    Bounded(t, e, p);
  }

  // ----- Putting -----

  /** `c` may be put at `p`: what is there is nearer to its own slot. */
  ghost predicate Fits<K, V>(t: Table<K, V>, c: Entry<K, V>, p: nat) {
    && p < |t| && c.Full? && c.gap == Dist(|t|, c.hash % |t|, p) + 1
    && t[p].Gap() < c.gap <= t[Prev(|t|, p)].Gap() + 1
  }

  lemma PutOrdered<K, V>(t: Table<K, V>, c: Entry<K, V>, p: nat)
    requires Ordered(t) && Fits(t, c, p)
    ensures Ordered(t[p := c])
  {
    var n, t' := |t|, t[p := c];
    forall i | 0 <= i < n
      ensures t'[Next(n, i)].Gap() <= t'[i].Gap() + 1
    {
      assert t[Next(n, i)].Gap() <= t[i].Gap() + 1;
      if Next(n, i) == p {
        assert i == Prev(n, p);
      }
    }
  }

  /** The displaced entry goes on to the next slot. */
  lemma Displaced<K, V>(t: Table<K, V>, c: Entry<K, V>, p: nat, e: nat)
    requires Ordered(t) && Fits(t, c, p) && t[p].Full? && e < |t| && t[e].Empty?
    ensures var n, t', q := |t|, t[p := c], Next(|t|, p);
      && Dist(n, t[p].hash % n, q) + 1 == t[p].gap + 1 <= t'[p].Gap() + 1 && Prev(n, q) == p
      && p != e && t'[e].Empty? && Dist(n, q, e) < Dist(n, p, e)
  {
    Bounded(t, e, p);
  }

  /** Passing an entry that is at least as distant. */
  lemma Passed<K, V>(t: Table<K, V>, hash: nat, g: nat, p: nat, e: nat)
    requires Ordered(t) && p < |t| && e < |t| && t[e].Empty?
    requires g == Dist(|t|, hash % |t|, p) + 1 && t[p].Gap() >= g
    ensures var n, q := |t|, Next(|t|, p);
      && Dist(n, hash % n, q) + 1 == g + 1 <= t[p].Gap() + 1 && Prev(n, q) == p
      && p != e && Dist(n, q, e) < Dist(n, p, e)
  {
    Bounded(t, e, p);
  }

  lemma PutHolds<K, V>(t: Table<K, V>, m: map<K, V>, hash: K -> nat, c: Entry<K, V>, p: nat)
    requires Holds(t, m, hash) && p < |t| && c.Full? && c.key !in m && c.hash == hash(c.key)
    ensures t[p].Empty? ==> Holds(t[p := c], m[c.key := c.value], hash)
    ensures t[p].Full? ==> t[p].key in m && Holds(t[p := c], m[c.key := c.value] - {t[p].key}, hash)
    ensures t[p].Full? ==> (m[c.key := c.value] - {t[p].key})[t[p].key := t[p].value] == m[c.key := c.value]
  {
    var t' := t[p := c];
    var m' := if t[p].Full? then m[c.key := c.value] - {t[p].key} else m[c.key := c.value];
    forall k | k in m'
      ensures HasKey(t', k)
    {
      if k == c.key {
        assert t'[p].key == k;
      } else {
        assert HasKey(t, k);
        var i :| 0 <= i < |t| && t[i].Full? && t[i].key == k;
        assert t'[i].key == k;
      }
    }
  }

  /** A new value for a key that is there. */
  lemma UpdateHolds<K, V>(t: Table<K, V>, m: map<K, V>, hash: K -> nat, p: nat, v: V)
    requires Ordered(t) && Holds(t, m, hash) && p < |t| && t[p].Full?
    ensures Ordered(t[p := t[p].(value := v)]) && Holds(t[p := t[p].(value := v)], m[t[p].key := v], hash)
  {
    var t' := t[p := t[p].(value := v)];
    forall i | 0 <= i < |t|
      ensures t'[Next(|t|, i)].Gap() <= t'[i].Gap() + 1
    {
      assert t[Next(|t|, i)].Gap() <= t[i].Gap() + 1;
    }
    forall k | k in m[t[p].key := v]
      ensures HasKey(t', k)
    {
      assert HasKey(t, k);
      var i :| 0 <= i < |t| && t[i].Full? && t[i].key == k;
      assert t'[i].key == k;
    }
  }

  // ----- Removing -----

  /** The entry at `p` has gone, and the ones after it may have to move back. */
  ghost predicate Holed<K, V>(t: Table<K, V>, p: nat) {
    && p < |t| && t[p].Empty? && Placed(t)
    && (forall i :: 0 <= i < |t| && i != p ==> t[Next(|t|, i)].Gap() <= t[i].Gap() + 1)
    && t[Next(|t|, p)].Gap() <= t[Prev(|t|, p)].Gap() + 2
  }

  lemma HoleMade<K, V>(t: Table<K, V>, m: map<K, V>, hash: K -> nat, p: nat)
    requires Ordered(t) && Holds(t, m, hash) && p < |t| && t[p].Full?
    ensures Holed(t[p := Empty], p) && t[p].key in m && Holds(t[p := Empty], m - {t[p].key}, hash)
  {
    var n, t' := |t|, t[p := Empty];
    assert Next(n, Prev(n, p)) == p;
    forall i | 0 <= i < n && i != p
      ensures t'[Next(n, i)].Gap() <= t'[i].Gap() + 1
    {
      assert t[Next(n, i)].Gap() <= t[i].Gap() + 1;
    }
    assert t[p].Gap() <= t[Prev(n, p)].Gap() + 1;
    assert t[Next(n, p)].Gap() <= t[p].Gap() + 1;
    forall k | k in m - {t[p].key}
      ensures HasKey(t', k)
    {
      assert HasKey(t, k);
      var i :| 0 <= i < |t| && t[i].Full? && t[i].key == k;
      assert t'[i].key == k;
    }
  }

  lemma HoleClosed<K, V>(t: Table<K, V>, p: nat)
    requires Holed(t, p) && t[Next(|t|, p)].Gap() <= 1
    ensures Ordered(t)
  {
  }

  /** From the slot after the hole to `q` all entries have the same slot; that at
      `q` is at the distance `g`. */
  ghost predicate Running<K, V>(t: Table<K, V>, p: nat, q: nat, g: nat, e: nat) {
    && Holed(t, p) && q < |t| && e < |t| && t[e].Empty? && e != p && q != p
    && var gap := t[Next(|t|, p)].Gap();
    && 1 < gap && t[q].Gap() == g == gap + Dist(|t|, p, q) - 1
    && (Prev(|t|, q) != p ==> t[Prev(|t|, q)].Gap() == g - 1)
    && Dist(|t|, p, q) < Dist(|t|, p, e)
  }

  lemma RunStart<K, V>(t: Table<K, V>, p: nat, e: nat)
    requires Holed(t, p) && e < |t| && t[e].Empty? && e != p && t[Next(|t|, p)].Gap() > 1
    ensures Running(t, p, Next(|t|, p), t[Next(|t|, p)].Gap(), e)
  {
  }

  lemma RunNext<K, V>(t: Table<K, V>, p: nat, q: nat, g: nat, e: nat)
    requires Running(t, p, q, g, e) && t[Next(|t|, q)].Gap() >= g + 1
    ensures Running(t, p, Next(|t|, q), g + 1, e) && Dist(|t|, Next(|t|, q), e) < Dist(|t|, q, e)
  {
    hide Placed;
    assert t[Next(|t|, q)].Gap() <= t[q].Gap() + 1;
  }

  /** The last entry of the run fills the hole and leaves one where it was. */
  ghost function Shifted<K, V>(t: Table<K, V>, p: nat, q: nat, gap: nat): Table<K, V>
    requires p < |t| && q < |t| && t[q].Full?
  {
    t[p := t[q].(gap := gap)][q := Empty]
  }

  lemma ShiftPlaced<K, V>(t: Table<K, V>, p: nat, q: nat, g: nat, e: nat)
    requires Running(t, p, q, g, e)
    ensures Placed(Shifted(t, p, q, t[Next(|t|, p)].Gap() - 1))
  {
    var n, h := |t|, t[q].hash % |t|;
    assert t[q].gap == Dist(n, h, q) + 1;
    ShiftDist(n, h, p, q, t[Next(n, p)].Gap());
  }

  lemma ShiftDist(n: nat, h: nat, p: nat, q: nat, gap: nat)
    requires h < n && p < n && q < n && p != q && 1 < gap && Dist(n, h, q) + 1 == gap + Dist(n, p, q) - 1
    ensures Dist(n, h, p) + 1 == gap - 1
  {
  }

  lemma ShiftAdjacent<K, V>(t: Table<K, V>, p: nat, q: nat, g: nat, e: nat, i: nat)
    requires Running(t, p, q, g, e) && t[Next(|t|, q)].Gap() < g + 1 && i < |t| && i != q
    ensures var t' := Shifted(t, p, q, t[Next(|t|, p)].Gap() - 1);
      t'[Next(|t|, i)].Gap() <= t'[i].Gap() + 1
  {
    hide Placed;
    if i != p {
      assert t[Next(|t|, i)].Gap() <= t[i].Gap() + 1;
    }
  }

  lemma ShiftHoled<K, V>(t: Table<K, V>, p: nat, q: nat, g: nat, e: nat)
    requires Running(t, p, q, g, e) && t[Next(|t|, q)].Gap() < g + 1
    ensures var t' := Shifted(t, p, q, t[Next(|t|, p)].Gap() - 1);
      && Holed(t', q) && t'[e].Empty? && e != q && Dist(|t|, q, e) < Dist(|t|, p, e)
  {
    hide Placed;
    ShiftPlaced(t, p, q, g, e);
    var n := |t|;
    var t' := Shifted(t, p, q, t[Next(n, p)].Gap() - 1);
    forall i | 0 <= i < n && i != q
      ensures t'[Next(n, i)].Gap() <= t'[i].Gap() + 1
    {
      ShiftAdjacent(t, p, q, g, e, i);
    }
  }

  lemma ShiftHolds<K, V>(t: Table<K, V>, m: map<K, V>, hash: K -> nat, p: nat, q: nat, gap: nat)
    requires Holds(t, m, hash) && p < |t| && q < |t| && t[q].Full? && t[p].Empty?
    ensures Holds(Shifted(t, p, q, gap), m, hash)
  {
    var t' := Shifted(t, p, q, gap);
    forall k | k in m
      ensures HasKey(t', k)
    {
      assert HasKey(t, k);
      var i :| 0 <= i < |t| && t[i].Full? && t[i].key == k;
      assert t'[if i == q then p else i].key == k;
    }
  }
}
