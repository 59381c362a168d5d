/** `Lock` and the waiter queues of include/coro/sync.hpp as values, and the objects
    that hold them. */
module LockCore {

  /** A parked coroutine: its frame and the identity (epoch) of this one wait. */
  datatype Waiter = Waiter(co: nat, epoch: nat)
  datatype Owner = Nobody | Frame(co: nat)

  datatype LockState = LockState(locked: bool, owner: Owner, recursion: nat, queue: seq<Waiter>)

  datatype Chosen = NoOne | Next(w: Waiter)

  /** `erase_waiter` */
  function Erase(ws: seq<Waiter>, co: nat): (r: seq<Waiter>)
    ensures |r| <= |ws|
    ensures forall x :: x in r <==> x in ws && x.co != co
  {
    if ws == [] then []
    else if ws[0].co == co then Erase(ws[1..], co)
    else [ws[0]] + Erase(ws[1..], co)
  }

  predicate HasWaiter(ws: seq<Waiter>, co: nat) {
    exists i :: 0 <= i < |ws| && ws[i].co == co
  }

  /** `unlock_locked_`: the head of the queue becomes the owner, the lock stays locked. */
  function Unlock(l: LockState): (r: (LockState, Chosen)) {
    if l.queue != [] then (l.(owner := Frame(l.queue[0].co), queue := l.queue[1..]), Next(l.queue[0]))
    else (l.(owner := Nobody, locked := false), NoOne)
  }

  function Release(l: LockState): (r: (LockState, Chosen)) {
    if l.recursion > 0 then (l.(recursion := l.recursion - 1), NoOne)
    else if !l.locked then (l, NoOne)
    else Unlock(l)
  }

  datatype Acquired = Entered | Parked

  /** `acquire_awaiter::await_suspend`; `epoch` is the identity of the wait it may start. */
  function Acquire(l: LockState, co: nat, epoch: nat): (r: (LockState, Acquired)) {
    if l.owner == Frame(co) then (l.(recursion := l.recursion + 1), Entered)
    else if !l.locked then (l.(locked := true, owner := Frame(co)), Entered)
    else (l.(queue := l.queue + [Waiter(co, epoch)]), Parked)
  }

  /** `hand_off`; `current` is the re-check of the waiter's identity under the lock. */
  function HandOff(l: LockState, w: Waiter, current: bool): (r: (LockState, Chosen)) {
    if !current then (l, NoOne)
    else if !l.locked then (l.(locked := true, owner := Frame(w.co)), Next(w))
    else (l.(queue := l.queue + [w]), NoOne)
  }

  /** `Lock::on_waiter_destroyed` */
  function Destroyed(l: LockState, co: nat): (r: (LockState, Chosen)) {
    var e := l.(queue := Erase(l.queue, co));
    if e.owner != Frame(co) then (e, NoOne) else Release(e)
  }

  class Lock {
    var locked: bool
    var owner: Owner
    var recursion: nat
    var waiters: seq<Waiter>

    function Abs(): LockState
      reads this
    {
      LockState(locked, owner, recursion, waiters)
    }

    constructor ()
      ensures Abs() == LockState(false, Nobody, 0, [])
    {
      locked, owner, recursion, waiters := false, Nobody, 0, [];
    }

    method AcquireOrPark(co: nat, epoch: nat) returns (r: Acquired)
      modifies this
      ensures (Abs(), r) == Acquire(old(Abs()), co, epoch)
    {
      if owner == Frame(co) {
        recursion := recursion + 1;
        return Entered;
      }
      if !locked {
        locked := true;
        owner := Frame(co);
        return Entered;
      }
      waiters := waiters + [Waiter(co, epoch)];
      return Parked;
    }

    method UnlockLocked() returns (next: Chosen)
      modifies this
      ensures (Abs(), next) == Unlock(old(Abs()))
    {
      owner := Nobody;
      if waiters != [] {
        var head := waiters[0];
        waiters := waiters[1..];
        owner := Frame(head.co);
        return Next(head);
      }
      locked := false;
      return NoOne;
    }

    /** Returns the waiter the caller schedules once the mutex is free. */
    method ReleaseOne() returns (next: Chosen)
      modifies this
      ensures (Abs(), next) == Release(old(Abs()))
    {
      if recursion > 0 {
        recursion := recursion - 1;
        return NoOne;
      }
      if !locked {
        return NoOne;
      }
      next := UnlockLocked();
    }

    /** Guard destructor: never releases a lock held by somebody else. */
    method ReleaseIfOwner(co: nat) returns (next: Chosen)
      modifies this
      ensures old(owner) != Frame(co) ==> Abs() == old(Abs()) && next == NoOne
      ensures old(owner) == Frame(co) ==> (Abs(), next) == Release(old(Abs()))
    {
      if owner != Frame(co) {
        return NoOne;
      }
      next := ReleaseOne();
    }

    method HandOffTo(w: Waiter, current: bool) returns (next: Chosen)
      modifies this
      ensures (Abs(), next) == HandOff(old(Abs()), w, current)
    {
      if !current {
        return NoOne;
      }
      if !locked {
        locked := true;
        owner := Frame(w.co);
        return Next(w);
      }
      waiters := waiters + [w];
      return NoOne;
    }

    method OnWaiterDestroyed(co: nat) returns (next: Chosen)
      modifies this
      ensures (Abs(), next) == Destroyed(old(Abs()), co)
    {
      waiters := EraseWaiter(waiters, co);
      if owner != Frame(co) {
        return NoOne;
      }
      next := ReleaseOne();
    }

    method Contains(co: nat) returns (found: bool)
      ensures found <==> HasWaiter(waiters, co)
    {
      for i := 0 to |waiters|
        invariant forall j :: 0 <= j < i ==> waiters[j].co != co
      {
        if waiters[i].co == co {
          return true;
        }
      }
      return false;
    }
  }

  method EraseWaiter(ws: seq<Waiter>, co: nat) returns (r: seq<Waiter>)
    ensures r == Erase(ws, co)
  {
    r := ws;
    var i := 0;
    while i < |r|
      invariant i <= |r|
      invariant forall j :: 0 <= j < i ==> r[j].co != co
      invariant Erase(r, co) == Erase(ws, co)
      decreases |r| - i
    {
      if r[i].co == co {
        EraseSkips(r[..i], r[i], r[i + 1..], co);
        assert r == r[..i] + [r[i]] + r[i + 1..];
        r := r[..i] + r[i + 1..];
      } else {
        i := i + 1;
      }
    }
    EraseNothing(r, co);
  }

  lemma {:induction false} EraseNothing(ws: seq<Waiter>, co: nat)
    requires forall i :: 0 <= i < |ws| ==> ws[i].co != co
    ensures Erase(ws, co) == ws
  {
    if ws != [] {
      EraseNothing(ws[1..], co);
    }
  }

  lemma {:induction false} EraseSkips(a: seq<Waiter>, x: Waiter, b: seq<Waiter>, co: nat)
    requires x.co == co
    ensures Erase(a + [x] + b, co) == Erase(a + b, co)
  {
    if a == [] {
      assert a + [x] + b == [x] + b && a + b == b;
      assert ([x] + b)[1..] == b;
    } else {
      EraseSkips(a[1..], x, b, co);
      assert (a + [x] + b)[1..] == a[1..] + [x] + b && (a + b)[1..] == a[1..] + b;
    }
  }

  ghost predicate DistinctCos(ws: seq<Waiter>) {
    forall i, j :: 0 <= i < j < |ws| ==> ws[i].co != ws[j].co
  }

  lemma {:induction false} EraseDistinct(ws: seq<Waiter>, co: nat)
    requires DistinctCos(ws)
    ensures DistinctCos(Erase(ws, co))
  {
    if ws != [] {
      EraseDistinct(ws[1..], co);
      var r := Erase(ws[1..], co);
      forall i | 0 <= i < |r| ensures r[i].co != ws[0].co {
        assert r[i] in ws[1..];
      }
    }
  }
}
