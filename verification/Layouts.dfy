/** Classes lay out their fields so that what is inherited stays where it was, and
    instructions remember where they last found a field. */
module Layouts {
  import opened Options

  datatype Value = Nil | Plain(n: nat) | Bindable(n: nat)

  /** Keys are symbols, ordered by their addresses. */
  datatype Field = Field(key: nat, value: Value)

  /** The fields of instances come first, those of the class after them; `index` is
      the sorted list by which they are searched. */
  datatype Type = Type(instance: nat, fields: seq<Field>, index: seq<(nat, nat)>)

  ghost predicate Distinct(fields: seq<Field>) {
    forall i, j :: 0 <= i < j < |fields| ==> fields[i].key != fields[j].key
  }

  ghost predicate Sorted(index: seq<(nat, nat)>) {
    forall i, j :: 0 <= i < j < |index| ==> index[i].0 < index[j].0
  }

  ghost predicate Indexed(index: seq<(nat, nat)>, fields: seq<Field>) {
    && Sorted(index) && |index| == |fields|
    && (forall e :: e in index ==> e.1 < |fields| && fields[e.1].key == e.0)
    && forall i :: 0 <= i < |fields| ==> (fields[i].key, i) in index
  }

  ghost predicate Valid(t: Type) {
    t.instance <= |t.fields| && Distinct(t.fields) && Indexed(t.index, t.fields)
  }

  /** Where the key is, or the number of fields. */
  function Position(fields: seq<Field>, key: nat): (r: nat)
    ensures r <= |fields|
    ensures r < |fields| ==> fields[r].key == key
    ensures r == |fields| ==> forall i :: 0 <= i < |fields| ==> fields[i].key != key
  {
    if fields == [] then 0
    else if fields[0].key == key then 0
    else 1 + Position(fields[1..], key)
  }

  lemma PositionAt(fields: seq<Field>, i: nat)
    requires Distinct(fields) && i < |fields|
    ensures Position(fields, fields[i].key) == i
  {
  }

  predicate Has(fields: seq<Field>, key: nat) {
    Position(fields, key) < |fields|
  }

  /** t_type::f_index */
  method Index(t: Type, key: nat) returns (r: nat)
    requires Valid(t)
    ensures r == Position(t.fields, key)
  {
    var i, j := 0, |t.fields|;
    while i < j
      invariant 0 <= i <= j <= |t.fields|
      invariant forall k :: 0 <= k < i ==> t.index[k].0 < key
      invariant forall k :: j <= k < |t.index| ==> t.index[k].0 > key
    {
      var k := (i + j) / 2;
      var e := t.index[k];
      if e.0 == key {
        assert e in t.index;
        PositionAt(t.fields, e.1);
        return e.1;
      }
      if e.0 < key {
        i := k + 1;
      } else {
        j := k;
      }
    }
    r := |t.fields|;
    forall k | 0 <= k < |t.fields|
      ensures t.fields[k].key != key
    {
      assert (t.fields[k].key, k) in t.index;
    }
  }

  // ----- Deriving -----

  /** What a class body adds: fields of instances, and fields of the class, of which
      a later one replaces an earlier one. */
  datatype Fields = Fields(instance: seq<nat>, cls: seq<Field>)

  function LastOf(cls: seq<Field>, key: nat): (r: Option<Value>)
    ensures r.None? <==> forall i :: 0 <= i < |cls| ==> cls[i].key != key
  {
    if cls == [] then None
    else if cls[|cls| - 1].key == key then Some(cls[|cls| - 1].value)
    else LastOf(cls[..|cls| - 1], key)
  }

  /** A field of instances is new, and nothing is both a field of instances and of
      the class. */
  ghost predicate Fits(t: Type, a: Fields) {
    && (forall i :: 0 <= i < |a.instance| ==> !Has(t.fields, a.instance[i]))
    && (forall i, j :: 0 <= i < j < |a.instance| ==> a.instance[i] != a.instance[j])
    && forall f :: f in a.cls ==> f.key !in a.instance && !InObject(t, f.key)
  }

  predicate InObject(t: Type, key: nat) {
    Position(t.fields, key) < t.instance
  }

  /** The value of a field of the class in the derived class. */
  function Inherits(t: Type, a: Fields, key: nat): Value {
    if LastOf(a.cls, key).Some? then LastOf(a.cls, key).value
    else if Has(t.fields, key) then t.fields[Position(t.fields, key)].value
    else Nil
  }

  /** What is inherited stays where it was: fields of instances by index, fields of
      the class by their distance from the first of them. */
  ghost predicate Extends(t: Type, u: Type) {
    && t.instance <= u.instance <= |u.fields| && t.instance <= |t.fields|
    && |t.fields| - t.instance <= |u.fields| - u.instance
    && (forall i :: 0 <= i < t.instance ==> u.fields[i].key == t.fields[i].key)
    && forall i :: t.instance <= i < |t.fields| ==> u.fields[i + (u.instance - t.instance)].key == t.fields[i].key
  }

  ghost predicate Derived(t: Type, a: Fields, u: Type) {
    && Valid(u) && Extends(t, u) && u.instance == t.instance + |a.instance|
    && (forall i :: 0 <= i < |a.instance| ==> u.fields[t.instance + i] == Field(a.instance[i], Nil))
    && (forall key: nat :: Has(u.fields, key) <==> Has(t.fields, key) || key in a.instance || LastOf(a.cls, key).Some?)
    && forall i :: u.instance <= i < |u.fields| ==> u.fields[i].value == Inherits(t, a, u.fields[i].key)
  }

  function KeysOf(fields: seq<Field>): set<nat> {
    set f | f in fields :: f.key
  }

  /** The keys of the fields are where they are, and the others are known. */
  ghost predicate Maps(m: map<nat, nat>, fields: seq<Field>, others: set<nat>) {
    && Distinct(fields) && m.Keys == KeysOf(fields) + others
    && forall i :: 0 <= i < |fields| ==> fields[i].key in m && m[fields[i].key] == i
  }

  lemma KeysAt(fields: seq<Field>, key: nat)
    ensures key in KeysOf(fields) <==> Has(fields, key)
  {
    if Has(fields, key) {
      assert fields[Position(fields, key)] in fields;
    }
  }

  lemma KeysMore(fields: seq<Field>, f: Field)
    ensures KeysOf(fields + [f]) == KeysOf(fields) + {f.key}
  {
    var g := fields + [f];
    assert g[|fields|] == f;
    forall x | x in fields
      ensures x in g
    {
    }
  }

  lemma {:induction false} KeysCount(fields: seq<Field>)
    requires Distinct(fields)
    ensures |KeysOf(fields)| == |fields|
  {
    if fields == [] {
      assert KeysOf(fields) == {};
    } else {
      var n := |fields| - 1;
      assert fields == fields[..n] + [fields[n]];
      KeysMore(fields[..n], fields[n]);
      KeysCount(fields[..n]);
    }
  }

  lemma MapsMore(m: map<nat, nat>, fields: seq<Field>, others: set<nat>, f: Field, others': set<nat>)
    requires Maps(m, fields, others) && f.key !in KeysOf(fields) && others' + {f.key} == others + {f.key}
    ensures Maps(m[f.key := |fields|], fields + [f], others')
  {
    KeysMore(fields, f);
    forall i | 0 <= i < |fields|
      ensures fields[i].key != f.key
    {
      assert fields[i] in fields;
    }
  }

  /** The fields of instances: those of `t` and the first `n` new ones. */
  ghost predicate Instanced(t: Type, a: Fields, n: nat, fields: seq<Field>) {
    && n <= |a.instance| && t.instance <= |t.fields| && |fields| >= t.instance + n
    && (forall i :: 0 <= i < t.instance ==> fields[i] == t.fields[i])
    && forall i :: 0 <= i < n ==> fields[t.instance + i] == Field(a.instance[i], Nil)
  }

  /** The fields of the class, from `base` on: those of `t` up to `n`. */
  ghost predicate Classed(t: Type, n: nat, base: nat, fields: seq<Field>) {
    && t.instance <= n <= |t.fields| && |fields| >= base + (n - t.instance)
    && forall i :: t.instance <= i < n ==> fields[i + (base - t.instance)].key == t.fields[i].key
  }

  /** Each value is that of the last of the first `n` new fields with its key, or
      inherited. */
  ghost predicate Valued(t: Type, a: Fields, n: nat, base: nat, fields: seq<Field>) {
    && n <= |a.cls|
    && forall i :: base <= i < |fields| ==> fields[i].value == Inherits(t, a.(cls := a.cls[..n]), fields[i].key)
  }

  ghost predicate FitsInstance(t: Type, a: Fields, n: nat) {
    && n <= |a.instance| && (forall i :: 0 <= i < n ==> !Has(t.fields, a.instance[i]))
    && forall i, j :: 0 <= i < j < n ==> a.instance[i] != a.instance[j]
  }

  ghost predicate FitsClass(t: Type, a: Fields, n: nat) {
    n <= |a.cls| && forall i :: 0 <= i < n ==> a.cls[i].key !in a.instance && !InObject(t, a.cls[i].key)
  }

  lemma FitsBoth(t: Type, a: Fields)
    ensures Fits(t, a) <==> FitsInstance(t, a, |a.instance|) && FitsClass(t, a, |a.cls|)
  {
  }

  /** The index as a map. */
  method Listed(t: Type) returns (m: map<nat, nat>)
    requires Valid(t)
    ensures Maps(m, t.fields, {})
  {
    m := map[];
    for i := 0 to |t.index|
      invariant m.Keys == set k | 0 <= k < i :: t.index[k].0
      invariant forall k :: 0 <= k < i ==> t.index[k].0 in m && m[t.index[k].0] == t.index[k].1
    {
      m := m[t.index[i].0 := t.index[i].1];
    }
    ListedMaps(t, m);
  }

  lemma ListedMaps(t: Type, m: map<nat, nat>)
    requires Valid(t) && m.Keys == (set k | 0 <= k < |t.index| :: t.index[k].0)
    requires forall k :: 0 <= k < |t.index| ==> t.index[k].0 in m && m[t.index[k].0] == t.index[k].1
    ensures Maps(m, t.fields, {})
  {
    forall i | 0 <= i < |t.fields|
      ensures t.fields[i].key in m && m[t.fields[i].key] == i
    {
      var e := (t.fields[i].key, i);
      assert e in t.index;
    }
    forall key
      ensures key in m <==> key in KeysOf(t.fields)
    {
      if key in m {
        var k :| 0 <= k < |t.index| && t.index[k].0 == key;
        assert t.index[k] in t.index && t.fields[t.index[k].1] in t.fields;
      }
    }
  }

  /** What holds while the fields of instances are added. */
  ghost predicate Adding(t: Type, a: Fields, n: nat, fields: seq<Field>, m: map<nat, nat>) {
    && FitsInstance(t, a, n) && Instanced(t, a, n, fields) && |fields| == t.instance + n
    && Maps(m, fields, KeysOf(t.fields[t.instance..]))
  }

  /** The new fields of instances, after those of `t`. */
  method AddInstance(t: Type, a: Fields, m0: map<nat, nat>) returns (fields: seq<Field>, m: map<nat, nat>, ok: bool)
    requires Valid(t) && Maps(m0, t.fields, {})
    ensures ok <==> FitsInstance(t, a, |a.instance|)
    ensures ok ==> Adding(t, a, |a.instance|, fields, m)
  {
    AddingBegins(t, a, m0);
    hide Valid, Adding, Maps, FitsInstance;
    fields, m := t.fields[..t.instance], m0;
    for n := 0 to |a.instance|
      invariant Adding(t, a, n, fields, m)
    {
      var x := a.instance[n];
      AddingMore(t, a, n, fields, m);
      if x in m {
        return fields, m, false;
      }
      m := m[x := |fields|];
      fields := fields + [Field(x, Nil)];
    }
    AddingFits(t, a, |a.instance|, fields, m);
    ok := true;
  }

  lemma AddingBegins(t: Type, a: Fields, m: map<nat, nat>)
    requires Valid(t) && Maps(m, t.fields, {})
    ensures t.instance <= |t.fields| && Adding(t, a, 0, t.fields[..t.instance], m)
  {
    KeysSplit(t.fields, t.instance);
  }

  lemma AddingFits(t: Type, a: Fields, n: nat, fields: seq<Field>, m: map<nat, nat>)
    requires Adding(t, a, n, fields, m)
    ensures FitsInstance(t, a, n)
  {
  }

  lemma AddingMore(t: Type, a: Fields, n: nat, fields: seq<Field>, m: map<nat, nat>)
    requires Adding(t, a, n, fields, m) && n < |a.instance|
    ensures a.instance[n] in m ==> !FitsInstance(t, a, |a.instance|)
    ensures a.instance[n] !in m ==> Adding(t, a, n + 1, fields + [Field(a.instance[n], Nil)], m[a.instance[n] := |fields|])
  {
    var x := a.instance[n];
    InstanceKnown(t, a, n, fields, x);
    if x !in m {
      MapsMore(m, fields, KeysOf(t.fields[t.instance..]), Field(x, Nil), KeysOf(t.fields[t.instance..]));
    } else if !Has(t.fields, x) {
      var i :| 0 <= i < n && a.instance[i] == x;
    }
  }

  lemma KeysSplit(fields: seq<Field>, n: nat)
    requires n <= |fields|
    ensures KeysOf(fields) == KeysOf(fields[..n]) + KeysOf(fields[n..])
  {
    assert fields == fields[..n] + fields[n..];
  }

  /** A key that is known is that of a field of `t` or of an earlier one. */
  lemma InstanceKnown(t: Type, a: Fields, n: nat, fields: seq<Field>, x: nat)
    requires Instanced(t, a, n, fields) && |fields| == t.instance + n
    ensures x in KeysOf(fields) + KeysOf(t.fields[t.instance..]) <==> Has(t.fields, x) || x in a.instance[..n]
  {
    KeysSplit(t.fields, t.instance);
    KeysAt(t.fields, x);
    InstanceKeys(t, a, n, fields);
  }

  lemma InstanceKeys(t: Type, a: Fields, n: nat, fields: seq<Field>)
    requires Instanced(t, a, n, fields) && |fields| == t.instance + n
    ensures KeysOf(fields) == KeysOf(t.fields[..t.instance]) + set x | x in a.instance[..n]
  {
    assert fields[..t.instance] == t.fields[..t.instance];
    KeysSplit(fields, t.instance);
    forall x
      ensures x in KeysOf(fields[t.instance..]) <==> x in a.instance[..n]
    {
      if x in a.instance[..n] {
        var i :| 0 <= i < n && a.instance[i] == x;
        assert fields[t.instance..][i] == Field(x, Nil);
      }
      if x in KeysOf(fields[t.instance..]) {
        var i :| 0 <= i < n && fields[t.instance..][i].key == x;
        assert a.instance[..n][i] == x;
      }
    }
  }

  // The fields of the class, after those of instances.

  function Base(t: Type, a: Fields): nat {
    t.instance + |a.instance|
  }

  /** What holds while the fields of the class are copied. */
  ghost predicate Moving(t: Type, a: Fields, i: nat, fields: seq<Field>, m: map<nat, nat>) {
    && FitsInstance(t, a, |a.instance|) && Instanced(t, a, |a.instance|, fields)
    && t.instance <= i <= |t.fields| && |fields| == i + |a.instance|
    && (forall j :: t.instance <= j < i ==> fields[j + |a.instance|] == t.fields[j])
    && Maps(m, fields, KeysOf(t.fields[i..]))
  }

  lemma MovingKeys(t: Type, a: Fields, i: nat, fields: seq<Field>, m: map<nat, nat>, x: nat)
    requires Moving(t, a, i, fields, m)
    ensures x in KeysOf(fields) <==> x in KeysOf(t.fields[..i]) || x in a.instance
  {
    var base := Base(t, a);
    KeysSplit(fields, base);
    InstanceKeys(t, a, |a.instance|, fields[..base]);
    assert a.instance[..|a.instance|] == a.instance;
    assert fields[base..] == t.fields[t.instance..i];
    KeysSplit(t.fields[..i], t.instance);
    assert t.fields[..i][..t.instance] == t.fields[..t.instance] && t.fields[..i][t.instance..] == t.fields[t.instance..i];
  }

  lemma MovingNew(t: Type, a: Fields, i: nat, fields: seq<Field>, m: map<nat, nat>)
    requires Moving(t, a, i, fields, m) && i < |t.fields| && Valid(t)
    ensures t.fields[i].key !in KeysOf(fields)
  {
    MovingKeys(t, a, i, fields, m, t.fields[i].key);
    KeysAt(t.fields[..i], t.fields[i].key);
    PositionAt(t.fields, i);
  }

  lemma RestKeys(fields: seq<Field>, i: nat)
    requires i < |fields|
    ensures KeysOf(fields[i..]) == {fields[i].key} + KeysOf(fields[i + 1..])
  {
    var rest := fields[i..];
    assert rest[0] == fields[i] && rest[1..] == fields[i + 1..];
    KeysSplit(rest, 1);
    assert rest[..1] == [fields[i]];
    OneKey(fields[i]);
  }

  lemma MovingMore(t: Type, a: Fields, i: nat, fields: seq<Field>, m: map<nat, nat>)
    requires Moving(t, a, i, fields, m) && i < |t.fields| && Valid(t)
    ensures Moving(t, a, i + 1, fields + [t.fields[i]], m[t.fields[i].key := |fields|])
  {
    hide Valid, KeysOf, FitsInstance, Has, Maps;
    MovingNew(t, a, i, fields, m);
    RestKeys(t.fields, i);
    MapsMore(m, fields, KeysOf(t.fields[i..]), t.fields[i], KeysOf(t.fields[i + 1..]));
  }

  lemma OneKey(f: Field)
    ensures KeysOf([f]) == {f.key}
  {
    assert [f][0] == f;
  }

  method MoveClass(t: Type, a: Fields, fields0: seq<Field>, m0: map<nat, nat>) returns (fields: seq<Field>, m: map<nat, nat>)
    requires Valid(t) && Adding(t, a, |a.instance|, fields0, m0)
    ensures Moving(t, a, |t.fields|, fields, m)
  {
    fields, m := fields0, m0;
    assert t.instance <= |t.fields| && Moving(t, a, t.instance, fields, m);
    hide Valid, Moving;
    for i := t.instance to |t.fields|
      invariant Moving(t, a, i, fields, m)
    {
      MovingMore(t, a, i, fields, m);
      m := m[t.fields[i].key := |fields|];
      fields := fields + [t.fields[i]];
    }
  }

  // The new fields of the class.

  /** What holds while they replace inherited ones or are added. */
  ghost predicate Filling(t: Type, a: Fields, n: nat, fields: seq<Field>, m: map<nat, nat>) {
    && FitsInstance(t, a, |a.instance|) && FitsClass(t, a, n) && Instanced(t, a, |a.instance|, fields)
    && Classed(t, |t.fields|, Base(t, a), fields) && Valued(t, a, n, Base(t, a), fields) && Maps(m, fields, {})
    && forall key: nat :: key in KeysOf(fields) <==> Known(t, a, n, key)
  }

  ghost predicate Known(t: Type, a: Fields, n: nat, key: nat) {
    n <= |a.cls| && (Has(t.fields, key) || key in a.instance || LastOf(a.cls[..n], key).Some?)
  }

  lemma FillingBegins(t: Type, a: Fields, fields: seq<Field>, m: map<nat, nat>)
    requires Valid(t) && Moving(t, a, |t.fields|, fields, m)
    ensures Filling(t, a, 0, fields, m)
  {
    hide Valid, KeysOf, FitsInstance, Has, Valued, Known, Maps;
    FillingKeys(t, a, fields, m);
    FillingValues(t, a, fields, m);
    assert t.fields[|t.fields|..] == [];
    NoKeys();
  }

  lemma NoKeys()
    ensures KeysOf([]) == {}
  {
  }

  lemma FillingKeys(t: Type, a: Fields, fields: seq<Field>, m: map<nat, nat>)
    requires Moving(t, a, |t.fields|, fields, m)
    ensures forall key: nat :: key in KeysOf(fields) <==> Known(t, a, 0, key)
  {
    hide Moving, KeysOf;
    assert t.fields[..|t.fields|] == t.fields;
    forall key: nat
      ensures key in KeysOf(fields) <==> Known(t, a, 0, key)
    {
      MovingKeys(t, a, |t.fields|, fields, m, key);
      KeysAt(t.fields, key);
    }
  }

  lemma FillingValues(t: Type, a: Fields, fields: seq<Field>, m: map<nat, nat>)
    requires Valid(t) && Moving(t, a, |t.fields|, fields, m)
    ensures Valued(t, a, 0, Base(t, a), fields)
  {
    forall i | Base(t, a) <= i < |fields|
      ensures fields[i].value == Inherits(t, a.(cls := a.cls[..0]), fields[i].key)
    {
      var j := i - |a.instance|;
      assert fields[j + |a.instance|] == t.fields[j];
      PositionAt(t.fields, j);
    }
  }

  /** A key of the fields of instances is one that may not be given. */
  lemma Clashes(t: Type, a: Fields, n: nat, fields: seq<Field>, m: map<nat, nat>, key: nat)
    requires Valid(t) && Filling(t, a, n, fields, m) && key in m
    ensures m[key] < |fields| && fields[m[key]].key == key
    ensures m[key] < Base(t, a) <==> key in a.instance || InObject(t, key)
  {
    MappedTo(fields, m, key);
    InstanceHas(t, a, fields, key);
  }

  lemma MappedTo(fields: seq<Field>, m: map<nat, nat>, key: nat)
    requires Maps(m, fields, {}) && key in m
    ensures m[key] == Position(fields, key) < |fields|
  {
    KeysAt(fields, key);
    assert fields[Position(fields, key)].key in m;
  }

  lemma InstanceHas(t: Type, a: Fields, fields: seq<Field>, key: nat)
    requires Valid(t) && Distinct(fields) && Instanced(t, a, |a.instance|, fields)
    ensures Position(fields, key) < Base(t, a) && Has(fields, key) <==> key in a.instance || InObject(t, key)
  {
    var p := Position(fields, key);
    if p < |fields| && p < t.instance {
      PositionAt(t.fields, p);
    }
    if InObject(t, key) {
      PositionAt(fields, Position(t.fields, key));
    }
    if key in a.instance {
      var i :| 0 <= i < |a.instance| && a.instance[i] == key;
      PositionAt(fields, t.instance + i);
    }
    if p < |fields| && t.instance <= p < Base(t, a) {
      assert a.instance[p - t.instance] == key;
    }
  }

  lemma LastOfMore(cls: seq<Field>, n: nat, key: nat)
    requires n < |cls|
    ensures LastOf(cls[..n + 1], key) == if cls[n].key == key then Some(cls[n].value) else LastOf(cls[..n], key)
  {
    assert cls[..n + 1][..n] == cls[..n];
  }

  lemma ReplacedKeys(fields: seq<Field>, p: nat, f: Field)
    requires p < |fields| && fields[p].key == f.key
    ensures KeysOf(fields[p := f]) == KeysOf(fields)
  {
    var g := fields[p := f];
    forall i | 0 <= i < |fields|
      ensures fields[i].key == g[i].key && g[i] in g && fields[i] in fields
    {
    }
    forall key
      ensures key in KeysOf(g) <==> key in KeysOf(fields)
    {
      if key in KeysOf(g) {
        var i :| 0 <= i < |g| && g[i].key == key;
        assert fields[i].key == key;
      }
      if key in KeysOf(fields) {
        var i :| 0 <= i < |fields| && fields[i].key == key;
        assert g[i].key == key;
      }
    }
  }

  lemma ReplacedMaps(m: map<nat, nat>, fields: seq<Field>, p: nat, f: Field)
    requires Maps(m, fields, {}) && p < |fields| && fields[p].key == f.key
    ensures Maps(m, fields[p := f], {})
  {
    ReplacedKeys(fields, p, f);
    hide KeysOf;
  }

  lemma ValuedMore(t: Type, a: Fields, n: nat, base: nat, fields: seq<Field>, fields': seq<Field>)
    requires n < |a.cls| && Valued(t, a, n, base, fields) && base <= |fields| <= |fields'|
    requires forall i :: base <= i < |fields'| ==>
      fields'[i] == a.cls[n] || (i < |fields| && fields'[i] == fields[i] && fields[i].key != a.cls[n].key)
    ensures Valued(t, a, n + 1, base, fields')
  {
    forall i | base <= i < |fields'|
      ensures fields'[i].value == Inherits(t, a.(cls := a.cls[..n + 1]), fields'[i].key)
    {
      LastOfMore(a.cls, n, fields'[i].key);
    }
  }

  lemma KnownMore(t: Type, a: Fields, n: nat, key: nat)
    requires n < |a.cls|
    ensures Known(t, a, n + 1, key) <==> Known(t, a, n, key) || key == a.cls[n].key
  {
    LastOfMore(a.cls, n, key);
  }

  lemma FillingReplaces(t: Type, a: Fields, n: nat, fields: seq<Field>, m: map<nat, nat>)
    requires Valid(t) && Filling(t, a, n, fields, m) && n < |a.cls| && a.cls[n].key in m && m[a.cls[n].key] >= Base(t, a)
    ensures m[a.cls[n].key] < |fields| && Filling(t, a, n + 1, fields[m[a.cls[n].key] := a.cls[n]], m)
  {
    hide Valid, Has, InObject, KeysOf, Known, LastOf, Inherits, Valued, FitsInstance, Position;
    var x := a.cls[n];
    Clashes(t, a, n, fields, m, x.key);
    ReplacedMaps(m, fields, m[x.key], x);
    ReplacedKeys(fields, m[x.key], x);
    ValuedMore(t, a, n, Base(t, a), fields, fields[m[x.key] := x]);
    forall key: nat
      ensures key in KeysOf(fields) <==> Known(t, a, n + 1, key)
    {
      KnownMore(t, a, n, key);
    }
  }

  lemma FillingAppends(t: Type, a: Fields, n: nat, fields: seq<Field>, m: map<nat, nat>)
    requires Valid(t) && Filling(t, a, n, fields, m) && n < |a.cls| && a.cls[n].key !in m
    ensures Filling(t, a, n + 1, fields + [a.cls[n]], m[a.cls[n].key := |fields|])
  {
    hide Valid, Has, InObject, Known, LastOf, Inherits, Valued, FitsInstance, Position, KeysOf;
    var x := a.cls[n];
    MapsMore(m, fields, {}, x, {});
    KeysMore(fields, x);
    NewKey(t, a, n, fields, m, x.key);
    OtherKeys(fields, x.key);
    ValuedMore(t, a, n, Base(t, a), fields, fields + [x]);
    forall key: nat
      ensures key in KeysOf(fields + [x]) <==> Known(t, a, n + 1, key)
    {
      KnownMore(t, a, n, key);
    }
  }

  lemma NewKey(t: Type, a: Fields, n: nat, fields: seq<Field>, m: map<nat, nat>, key: nat)
    requires Filling(t, a, n, fields, m) && key !in m
    ensures key !in a.instance && !InObject(t, key)
  {
    assert !Known(t, a, n, key);
  }

  lemma OtherKeys(fields: seq<Field>, key: nat)
    requires key !in KeysOf(fields)
    ensures forall i :: 0 <= i < |fields| ==> fields[i].key != key
  {
    forall i | 0 <= i < |fields|
      ensures fields[i].key != key
    {
      assert fields[i] in fields;
    }
  }

  method AddClass(t: Type, a: Fields, fields0: seq<Field>, m0: map<nat, nat>) returns (fields: seq<Field>, m: map<nat, nat>, ok: bool)
    requires Valid(t) && Moving(t, a, |t.fields|, fields0, m0)
    ensures ok <==> FitsClass(t, a, |a.cls|)
    ensures ok ==> Filling(t, a, |a.cls|, fields, m)
  {
    FillingBegins(t, a, fields0, m0);
    fields, m := fields0, m0;
    hide Valid, Moving, Filling, Has, InObject;
    for n := 0 to |a.cls|
      invariant Filling(t, a, n, fields, m)
    {
      var x := a.cls[n];
      if x.key in m {
        var i := m[x.key];
        Clashes(t, a, n, fields, m, x.key);
        if i < Base(t, a) {
          return fields, m, false;
        }
        FillingReplaces(t, a, n, fields, m);
        fields := fields[i := x];
      } else {
        FillingAppends(t, a, n, fields, m);
        m := m[x.key := |fields|];
        fields := fields + [x];
      }
    }
    FillingFits(t, a, |a.cls|, fields, m);
    ok := true;
  }

  lemma FillingFits(t: Type, a: Fields, n: nat, fields: seq<Field>, m: map<nat, nat>)
    requires Filling(t, a, n, fields, m)
    ensures FitsClass(t, a, n)
  {
  }

  // The index of the derived class.

  lemma Least(s: set<nat>) returns (k: nat)
    requires s != {}
    ensures k in s && forall j :: j in s ==> k <= j
  {
    var x :| x in s;
    if s == {x} {
      k := x;
    } else {
      var y := Least(s - {x});
      k := if x < y then x else y;
      forall j | j in s
        ensures k <= j
      {
        assert j == x || j in s - {x};
      }
    }
  }

  /** What holds while the map is gone through in order: `rest` is yet to come. */
  ghost predicate Listing(m: map<nat, nat>, index: seq<(nat, nat)>, rest: set<nat>) {
    && Sorted(index) && rest <= m.Keys && |index| + |rest| == |m.Keys|
    && (forall e :: e in index ==> e.0 in m && e.1 == m[e.0] && e.0 !in rest)
    && (forall key :: key in m && key !in rest ==> (key, m[key]) in index)
    && forall e, key :: e in index && key in rest ==> e.0 < key
  }

  lemma ListingMore(m: map<nat, nat>, index: seq<(nat, nat)>, rest: set<nat>, k: nat)
    requires Listing(m, index, rest) && k in rest && forall j :: j in rest ==> k <= j
    ensures k in m && Listing(m, index + [(k, m[k])], rest - {k})
  {
    var index' := index + [(k, m[k])];
    forall i, j | 0 <= i < j < |index'|
      ensures index'[i].0 < index'[j].0
    {
      if j == |index| {
        assert index[i] in index;
      }
    }
    assert index'[|index|] == (k, m[k]);
    forall e | e in index
      ensures e in index'
    {
    }
  }

  lemma ListingDone(m: map<nat, nat>, index: seq<(nat, nat)>, fields: seq<Field>)
    requires Listing(m, index, {}) && Maps(m, fields, {})
    ensures Indexed(index, fields)
  {
    KeysCount(fields);
    forall e | e in index
      ensures e.1 < |fields| && fields[e.1].key == e.0
    {
      MappedTo(fields, m, e.0);
    }
    forall i | 0 <= i < |fields|
      ensures (fields[i].key, i) in index
    {
      assert m[fields[i].key] == i;
    }
  }

  /** std::map keeps its keys in order. */
  method List(m: map<nat, nat>, ghost fields: seq<Field>) returns (index: seq<(nat, nat)>)
    requires Maps(m, fields, {})
    ensures Indexed(index, fields)
  {
    hide Maps;
    index := [];
    var rest := m.Keys;
    while rest != {}
      invariant Listing(m, index, rest)
      decreases rest
    {
      ghost var l := Least(rest);
      var k :| k in rest && forall j :: j in rest ==> k <= j;
      ListingMore(m, index, rest, k);
      index := index + [(k, m[k])];
      rest := rest - {k};
    }
    ListingDone(m, index, fields);
  }

  /** f_merge and f_derive: there is a derived class exactly if what it adds fits. */
  method Derive(t: Type, a: Fields) returns (r: Option<Type>)
    requires Valid(t)
    ensures r.Some? <==> Fits(t, a)
    ensures r.Some? ==> Derived(t, a, r.value)
  {
    FitsBoth(t, a);
    hide Valid, Fits, Derived, Maps, Adding, Moving, Filling, FitsInstance, FitsClass;
    var m := Listed(t);
    var fields: seq<Field>, ok;
    fields, m, ok := AddInstance(t, a, m);
    if !ok {
      return None;
    }
    fields, m := MoveClass(t, a, fields, m);
    fields, m, ok := AddClass(t, a, fields, m);
    if !ok {
      return None;
    }
    FillingMaps(t, a, fields, m);
    var index := List(m, fields);
    FillingDerived(t, a, fields, m, index);
    r := Some(Type(Base(t, a), fields, index));
  }

  lemma FillingMaps(t: Type, a: Fields, fields: seq<Field>, m: map<nat, nat>)
    requires Filling(t, a, |a.cls|, fields, m)
    ensures Maps(m, fields, {})
  {
  }

  lemma FillingDerived(t: Type, a: Fields, fields: seq<Field>, m: map<nat, nat>, index: seq<(nat, nat)>)
    requires Valid(t) && Filling(t, a, |a.cls|, fields, m) && Indexed(index, fields)
    ensures Derived(t, a, Type(Base(t, a), fields, index))
  {
    hide Indexed, FitsInstance, FitsClass, Position, LastOf, KeysOf;
    assert a.cls[..|a.cls|] == a.cls;
    forall key: nat
      ensures Has(fields, key) <==> Has(t.fields, key) || key in a.instance || LastOf(a.cls, key).Some?
    {
      KeysAt(fields, key);
      assert key in KeysOf(fields) <==> Known(t, a, |a.cls|, key);
    }
  }

  // ----- Along derivations -----

  lemma ExtendsTrans(t: Type, u: Type, v: Type)
    requires Extends(t, u) && Extends(u, v)
    ensures Extends(t, v)
  {
    forall i | t.instance <= i < |t.fields|
      ensures v.fields[i + (v.instance - t.instance)].key == t.fields[i].key
    {
      var j := i + (u.instance - t.instance);
      assert v.fields[j + (v.instance - u.instance)].key == u.fields[j].key;
    }
  }

  /** Each class is derived from the one before. */
  ghost predicate Line(ts: seq<Type>, bodies: seq<Fields>) {
    && |ts| == |bodies| + 1 && Valid(ts[0])
    && forall i :: 0 <= i < |bodies| ==> Derived(ts[i], bodies[i], ts[i + 1])
  }

  /** However often it is derived from, a class keeps its layout: what a method of it
      was compiled to find by index is found there in all its descendants. */
  lemma {:induction false} LineExtends(ts: seq<Type>, bodies: seq<Fields>, i: nat, j: nat)
    requires Line(ts, bodies) && i <= j < |ts|
    ensures Valid(ts[i]) && Valid(ts[j]) && Extends(ts[i], ts[j])
    decreases j
  {
    hide Valid, Extends;
    if i < j {
      LineExtends(ts, bodies, i, j - 1);
      assert Derived(ts[j - 1], bodies[j - 1], ts[j]);
      ExtendsTrans(ts[i], ts[j - 1], ts[j]);
    } else if j > 0 {
      LineExtends(ts, bodies, j - 1, j - 1);
      assert Derived(ts[j - 1], bodies[j - 1], ts[j]);
      ExtendsSelf(ts[j]);
    } else {
      ExtendsSelf(ts[0]);
    }
  }

  lemma ExtendsSelf(t: Type)
    requires Valid(t)
    ensures Extends(t, t)
  {
  }

  // ----- Inline caches -----

  /** What an access finds: a field of the object, one of the class by its distance,
      or nothing. */
  datatype Found = OfObject(i: nat) | OfClass(k: nat) | Nowhere

  function Lookup(t: Type, key: nat): Found {
    var i := Position(t.fields, key);
    if i >= |t.fields| then Nowhere else if i < t.instance then OfObject(i) else OfClass(i - t.instance)
  }

  /** What an access gives: a value, a method bound to the object, or the fallback of
      the type. */
  datatype Got = Gives(v: Value) | Binds(v: Value) | Falls

  /** The meaning of an access without a cache. */
  function Answer(t: Type, o: seq<Value>, key: nat): Got
    requires t.instance == |o| <= |t.fields|
  {
    match Lookup(t, key)
    case OfObject(i) => Gives(o[i])
    case OfClass(k) => OfField(t.fields[t.instance + k].value)
    case Nowhere => Falls
  }

  function OfField(v: Value): Got {
    if v.Bindable? then Binds(v) else Gives(v)
  }

  /** What the cache holds after an access. */
  function Cached(t: Type, key: nat, cache: nat): nat {
    match Lookup(t, key)
    case OfObject(i) => i
    case OfClass(k) => k
    case Nowhere => cache
  }

  /** A field with the key is the one that a search finds. */
  lemma HitIs(t: Type, i: nat, key: nat)
    requires Valid(t) && i < |t.fields| && t.fields[i].key == key
    ensures Lookup(t, key) == if i < t.instance then OfObject(i) else OfClass(i - t.instance)
  {
    PositionAt(t.fields, i);
  }

  /** t_type::f__get */
  method Search(t: Type, o: array<Value>, key: nat, cache: nat) returns (r: Got, cache': nat)
    requires Valid(t) && o.Length == t.instance
    ensures r == Answer(t, o[..], key) && cache' == Cached(t, key, cache)
  {
    var i := Index(t, key);
    if i < t.instance {
      return Gives(o[i]), i;
    }
    if i < |t.fields| {
      return OfField(t.fields[i].value), i - t.instance;
    }
    return Falls, cache;
  }

  /** t_type::f_get, and f_bind and f_invoke but for the order of the tests: whatever
      the cache holds, the answer is that of a search. */
  method Get(t: Type, o: array<Value>, key: nat, cache: nat) returns (r: Got, cache': nat)
    requires Valid(t) && o.Length == t.instance
    ensures r == Answer(t, o[..], key) && cache' == Cached(t, key, cache)
  {
    var i := cache;
    if i < t.instance && t.fields[i].key == key {
      HitIs(t, i, key);
      return Gives(o[i]), cache;
    }
    i := i + t.instance;
    if i < |t.fields| && t.fields[i].key == key {
      HitIs(t, i, key);
      return OfField(t.fields[i].value), cache;
    }
    r, cache' := Search(t, o, key, cache);
  }

  /** t_type::f_bind and f_invoke */
  method Bind(t: Type, o: array<Value>, key: nat, cache: nat) returns (r: Got, cache': nat)
    requires Valid(t) && o.Length == t.instance
    ensures r == Answer(t, o[..], key) && cache' == Cached(t, key, cache)
  {
    var i := cache + t.instance;
    if i < |t.fields| && t.fields[i].key == key {
      HitIs(t, i, key);
      return OfField(t.fields[i].value), cache;
    }
    i := cache;
    if i < t.instance && t.fields[i].key == key {
      HitIs(t, i, key);
      return Gives(o[i]), cache;
    }
    r, cache' := Search(t, o, key, cache);
  }

  /** t_type::f_put and f__put: only a field of the object is written. */
  method Put(t: Type, o: array<Value>, key: nat, v: Value, cache: nat) returns (done: bool, cache': nat)
    requires Valid(t) && o.Length == t.instance
    modifies o
    ensures done == Lookup(t, key).OfObject?
    ensures o[..] == if done then old(o[..])[Lookup(t, key).i := v] else old(o[..])
    ensures cache' == if done then Cached(t, key, cache) else cache
  {
    var i := cache;
    if i < t.instance && t.fields[i].key == key {
      HitIs(t, i, key);
    } else {
      i := Index(t, key);
      if i >= t.instance {
        return false, cache;
      }
    }
    o[i] := v;
    return true, i;
  }

  /** t_type::f_has, whose cache counts from the first field. */
  method Contains(t: Type, key: nat, cache: nat) returns (r: bool, cache': nat)
    requires Valid(t)
    ensures r == !Lookup(t, key).Nowhere? && cache' == if r then Position(t.fields, key) else cache
  {
    if cache < |t.fields| && t.fields[cache].key == key {
      HitIs(t, cache, key);
      PositionAt(t.fields, cache);
      return true, cache;
    }
    var i := Index(t, key);
    if i >= |t.fields| {
      return false, cache;
    }
    return true, i;
  }

  /** t_class::f_do_get: a field of the class itself, none of those of instances. */
  method GetOfClass(t: Type, key: nat, cache: nat) returns (r: Option<Value>, cache': nat)
    requires Valid(t)
    ensures r == match Lookup(t, key)
                 case OfClass(k) => if t.instance + k < |t.fields| then Some(t.fields[t.instance + k].value) else None
                 case _ => None
    ensures cache' == if r.Some? then Position(t.fields, key) else cache
  {
    var i := cache;
    if i < t.instance || i >= |t.fields| || t.fields[i].key != key {
      i := Index(t, key);
      if i < t.instance || i >= |t.fields| {
        return None, cache;
      }
    } else {
      HitIs(t, i, key);
      PositionAt(t.fields, i);
    }
    return Some(t.fields[i].value), i;
  }

  /** What a class has is found at the same place in all that extends it, so that what
      an instruction remembers of one is good for the others. */
  lemma CacheInherited(t: Type, u: Type, key: nat)
    requires Valid(t) && Valid(u) && Extends(t, u)
    ensures Lookup(u, key).Nowhere? ==> Lookup(t, key).Nowhere?
    ensures !Lookup(t, key).Nowhere? ==> Lookup(u, key) == Lookup(t, key)
  {
    var i := Position(t.fields, key);
    if i < t.instance {
      HitIs(u, i, key);
    } else if i < |t.fields| {
      HitIs(u, i + (u.instance - t.instance), key);
    }
  }
}
