/** Objects that threads share or own: an operation runs without a lock for the owner
    and under a lock when there is none. */
module Sharables {
  import opened Options

  /** How an operation runs. */
  datatype Mode = Owned | Exclusive | Shared

  /** Where a thread is: outside; in an operation waiting for the lock, holding it
      before the second check, or in the body; in f_own; in f_share. */
  datatype Place =
    | Outside
    | Waiting(mode: Mode)
    | Entering(mode: Mode)
    | Body(mode: Mode)
    | OwnWaiting
    | OwnEntering
    | OwnChecked
    | OwnLeaving
    | ShareWaiting
    | ShareEntering
    | ShareLeaving

  /** The owner, who holds the mutex, and the threads. */
  datatype State = State(owner: Option<nat>, writer: Option<nat>, readers: set<nat>, places: seq<Place>)

  predicate HoldsExclusive(p: Place) {
    p == Entering(Exclusive) || p == Body(Exclusive) || p.OwnEntering? || p.OwnChecked? || p.OwnLeaving?
    || p.ShareEntering? || p.ShareLeaving?
  }

  predicate HoldsShared(p: Place) {
    p == Entering(Shared) || p == Body(Shared)
  }

  ghost predicate Init(s: State) {
    s.writer == None && s.readers == {} && (s.owner.Some? ==> s.owner.value < |s.places|)
    && forall i :: 0 <= i < |s.places| ==> s.places[i] == Outside
  }

  function Moved(s: State, t: nat, p: Place): State
    requires t < |s.places|
  {
    s.(places := s.places[t := p])
  }

  // ----- Steps -----

  /** The first check of an operation: it runs, waits or throws. */
  ghost predicate Begins(s: State, s': State, t: nat)
    requires t < |s.places|
  {
    && s.places[t] == Outside
    && if s.owner == Some(t) then s' == Moved(s, t, Body(Owned))
       else if s.owner.Some? then s' == s
       else s' == Moved(s, t, Waiting(Exclusive)) || s' == Moved(s, t, Waiting(Shared))
  }

  ghost predicate Locks(s: State, s': State, t: nat)
    requires t < |s.places|
  {
    match s.places[t]
    case Waiting(Exclusive) => s.writer == None && s.readers == {} && s' == Moved(s.(writer := Some(t)), t, Entering(Exclusive))
    case Waiting(Shared) => s.writer == None && s' == Moved(s.(readers := s.readers + {t}), t, Entering(Shared))
    case OwnWaiting => s.writer == None && s.readers == {} && s' == Moved(s.(writer := Some(t)), t, OwnEntering)
    case ShareWaiting => s.writer == None && s.readers == {} && s' == Moved(s.(writer := Some(t)), t, ShareEntering)
    case _ => false
  }

  /** The second check, under the lock. */
  ghost predicate Enters(s: State, s': State, t: nat)
    requires t < |s.places|
  {
    && s.places[t].Entering?
    && s' == if s.owner.None? then Moved(s, t, Body(s.places[t].mode)) else Released(s, t)
  }

  function Released(s: State, t: nat): State
    requires t < |s.places|
  {
    Moved(if s.writer == Some(t) then s.(writer := None) else s.(readers := s.readers - {t}), t, Outside)
  }

  ghost predicate Ends(s: State, s': State, t: nat)
    requires t < |s.places|
  {
    match s.places[t]
    case Body(Owned) => s' == Moved(s, t, Outside)
    case Body(_) => s' == Released(s, t)
    case _ => false
  }

  /** f_own: the check and the store are steps of their own. */
  ghost predicate Owns(s: State, s': State, t: nat)
    requires t < |s.places|
  {
    match s.places[t]
    case Outside => s' == Moved(s, t, OwnWaiting)
    case OwnEntering => s' == if s.owner.Some? then Released(s, t) else Moved(s, t, OwnChecked)
    case OwnChecked => s' == Moved(s.(owner := Some(t)), t, OwnLeaving)
    case OwnLeaving => s' == Released(s, t)
    case _ => false
  }

  /** f_share */
  ghost predicate Shares(s: State, s': State, t: nat)
    requires t < |s.places|
  {
    match s.places[t]
    case Outside => s' == if s.owner == Some(t) then Moved(s, t, ShareWaiting) else s
    case ShareEntering => s' == Moved(s.(owner := None), t, ShareLeaving)
    case ShareLeaving => s' == Released(s, t)
    case _ => false
  }

  ghost predicate Acts(s: State, s': State, t: nat)
    requires t < |s.places|
  {
    Begins(s, s', t) || Locks(s, s', t) || Enters(s, s', t) || Ends(s, s', t) || Owns(s, s', t) || Shares(s, s', t)
  }

  ghost predicate Step(s: State, s': State) {
    exists t: nat :: t < |s.places| && Acts(s, s', t)
  }

  // ----- What every step keeps -----

  /** The mutex is held by those that are where it is held. */
  ghost predicate Mutex(s: State) {
    && (forall t: nat :: t < |s.places| ==> (s.writer == Some(t) <==> HoldsExclusive(s.places[t])))
    && (forall t: nat :: t < |s.places| ==> (t in s.readers <==> HoldsShared(s.places[t])))
    && (forall t :: t in s.readers ==> t < |s.places|) && (s.writer.Some? ==> s.writer.value < |s.places|)
    && (s.writer.Some? ==> s.readers == {})
  }

  /** What a thread knows of the owner where it is. */
  predicate Knows(owner: Option<nat>, t: nat, p: Place) {
    match p
    case Body(Owned) => owner == Some(t)
    case Body(_) => owner == None
    case OwnChecked => owner == None
    case OwnLeaving => owner == Some(t)
    case ShareWaiting => owner == Some(t)
    case ShareEntering => owner == Some(t)
    case ShareLeaving => owner == None
    case Waiting(m) => m != Owned
    case Entering(m) => m != Owned
    case _ => true
  }

  ghost predicate Inv(s: State) {
    Mutex(s) && forall t: nat :: t < |s.places| ==> Knows(s.owner, t, s.places[t])
  }

  lemma MutexMoves(s: State, t: nat, p: Place)
    requires Mutex(s) && t < |s.places|
    requires HoldsExclusive(p) == HoldsExclusive(s.places[t]) && HoldsShared(p) == HoldsShared(s.places[t])
    ensures Mutex(Moved(s, t, p))
  {
  }

  lemma MutexReleases(s: State, t: nat)
    requires Mutex(s) && t < |s.places| && (HoldsExclusive(s.places[t]) || HoldsShared(s.places[t]))
    ensures Mutex(Released(s, t)) && Released(s, t).owner == s.owner && Released(s, t).places == s.places[t := Outside]
  {
  }

  lemma MutexLocks(s: State, t: nat, p: Place)
    requires Mutex(s) && t < |s.places| && s.writer == None
    requires !HoldsExclusive(s.places[t]) && !HoldsShared(s.places[t])
    ensures s.readers == {} && HoldsExclusive(p) && !HoldsShared(p) ==> Mutex(Moved(s.(writer := Some(t)), t, p))
    ensures HoldsShared(p) && !HoldsExclusive(p) ==> Mutex(Moved(s.(readers := s.readers + {t}), t, p))
  {
  }

  lemma MutexOwner(s: State, owner: Option<nat>)
    requires Mutex(s)
    ensures Mutex(s.(owner := owner))
  {
  }

  lemma MutexStep(s: State, s': State, t: nat)
    requires Mutex(s) && t < |s.places| && Knows(s.owner, t, s.places[t]) && Acts(s, s', t)
    ensures Mutex(s')
  {
    hide Mutex;
    if HoldsExclusive(s.places[t]) || HoldsShared(s.places[t]) {
      MutexReleases(s, t);
    }
    if Begins(s, s', t) {
      MutexMoves(s, t, s'.places[t]);
    } else if Locks(s, s', t) {
      MutexLocks(s, t, s'.places[t]);
    } else if Enters(s, s', t) {
      if s.owner.None? {
        MutexMoves(s, t, s'.places[t]);
      }
    } else if Ends(s, s', t) {
      if s.places[t] == Body(Owned) {
        MutexMoves(s, t, Outside);
      }
    } else {
      MutexOwner(s, s'.owner);
      if s.places[t].Outside? || (s.places[t].OwnEntering? && s.owner.None?) || s.places[t].OwnChecked? || s.places[t].ShareEntering? {
        MutexMoves(s.(owner := s'.owner), t, s'.places[t]);
      }
    }
  }

  /** What a step of the thread does to itself, to the others and to the owner. */
  lemma Effects(s: State, s': State, t: nat)
    requires t < |s.places| && Knows(s.owner, t, s.places[t]) && Acts(s, s', t)
    ensures |s'.places| == |s.places| && (forall u: nat :: u < |s.places| && u != t ==> s'.places[u] == s.places[u])
    ensures Knows(s'.owner, t, s'.places[t])
    ensures s'.owner != s.owner ==>
      && HoldsExclusive(s.places[t]) && !s.places[t].Body?
      && if s.owner.Some? then s.owner == Some(t) && s'.owner == None else s'.owner == Some(t)
  {
  }

  /** Only a thread that holds the mutex alone changes the owner, from itself or to
      itself; no other thread is where it would know. */
  lemma StepInv(s: State, s': State)
    requires Inv(s) && Step(s, s')
    ensures Inv(s')
  {
    hide Acts;
    var t: nat :| t < |s.places| && Acts(s, s', t);
    MutexStep(s, s', t);
    Effects(s, s', t);
    forall u: nat | u < |s'.places|
      ensures Knows(s'.owner, u, s'.places[u])
    {
      if u != t && s'.owner != s.owner {
        assert Knows(s.owner, u, s.places[u]);
        assert s.writer == Some(t) && s.readers == {};
        assert s.writer == Some(u) <==> HoldsExclusive(s.places[u]);
        assert u in s.readers <==> HoldsShared(s.places[u]);
      }
    }
  }

  ghost predicate IsRun(run: seq<State>) {
    run != [] && Init(run[0]) && forall k :: 0 < k < |run| ==> Step(run[k - 1], run[k])
  }

  lemma {:induction false} RunInv(run: seq<State>, k: nat)
    requires IsRun(run) && k < |run|
    ensures Inv(run[k])
  {
    if k > 0 {
      RunInv(run, k - 1);
      StepInv(run[k - 1], run[k]);
    }
  }

  /** In every run a body of the owner overlaps no other, nor does one under the lock
      alone; only bodies under the shared lock overlap one another, and while any body
      runs under a lock there is no owner. */
  lemma BodiesApart(run: seq<State>, k: nat, t: nat, u: nat)
    requires IsRun(run) && k < |run| && t < |run[k].places| && u < |run[k].places| && t != u
    requires run[k].places[t].Body? && run[k].places[u].Body?
    ensures run[k].places[t] == Body(Shared) && run[k].places[u] == Body(Shared) && run[k].owner == None
  {
    RunInv(run, k);
    var s := run[k];
    assert Knows(s.owner, t, s.places[t]) && Knows(s.owner, u, s.places[u]);
    assert s.writer == Some(t) <==> HoldsExclusive(s.places[t]);
    assert s.writer == Some(u) <==> HoldsExclusive(s.places[u]);
  }

  /** The owner changes only while nobody is in a body. */
  lemma OwnerChanges(run: seq<State>, k: nat, t: nat)
    requires IsRun(run) && 0 < k < |run| && run[k].owner != run[k - 1].owner && t < |run[k - 1].places|
    ensures !run[k - 1].places[t].Body?
  {
    RunInv(run, k - 1);
    var s, s' := run[k - 1], run[k];
    hide Acts;
    assert Step(s, s');
    var v: nat :| v < |s.places| && Acts(s, s', v);
    Effects(s, s', v);
    assert Knows(s.owner, t, s.places[t]);
    assert s.writer == Some(v) && s.readers == {};
    assert s.writer == Some(t) <==> HoldsExclusive(s.places[t]);
    assert t in s.readers <==> HoldsShared(s.places[t]);
  }
}
