/**
 * `Condition` as the object of include/coro/sync.hpp: a queue of waiters over a
 * lock. Its methods do what the steps of the machine in `LockRuns` do.
 */
module ConditionObject {
  import opened LockCore
  import LockRuns

  /** One notification: the oldest waiter is handed to the lock, if its wait is still on. */
  function NotifyOne(l: LockState, ws: seq<Waiter>, alive: set<Waiter>): (r: (LockState, Chosen))
    requires ws != []
  {
    HandOff(l, ws[0], ws[0] in alive)
  }

  /** Up to `n` notifications in a row, and the waiters to schedule. */
  function NotifyMany(l: LockState, ws: seq<Waiter>, n: nat, alive: set<Waiter>): (LockState, seq<Waiter>, seq<Waiter>)
    decreases n
  {
    if n == 0 || ws == [] then (l, ws, []) else
    var (l1, next) := NotifyOne(l, ws, alive);
    var (l2, left, chosen) := NotifyMany(l1, ws[1..], n - 1, alive);
    (l2, left, (if next.Next? then [next.w] else []) + chosen)
  }

  class ConditionState {
    const lock: Lock
    var waiters: seq<Waiter>

    constructor (lock: Lock)
      ensures this.lock == lock && waiters == []
    {
      this.lock := lock;
      waiters := [];
    }

    /** The suspending half of `wait`: queue first, then give the lock up. */
    method Suspend(co: nat, epoch: nat) returns (next: Chosen)
      modifies this`waiters, lock
      ensures waiters == old(waiters) + [Waiter(co, epoch)]
      ensures (lock.Abs(), next) == Release(old(lock.Abs()))
    {
      waiters := waiters + [Waiter(co, epoch)];
      next := lock.ReleaseOne();
    }

    /** A cancelled waiter first gets the lock back: it has it, waits for it, or is handed to it. */
    method CancelRequested(co: nat, epoch: nat, current: bool) returns (next: Chosen)
      modifies this`waiters, lock
      ensures waiters == Erase(old(waiters), co)
      ensures old(lock.owner) == Frame(co) ==> lock.Abs() == old(lock.Abs()) && next == if current then Next(Waiter(co, epoch)) else NoOne
      ensures old(lock.owner) != Frame(co) && HasWaiter(old(lock.waiters), co) ==> lock.Abs() == old(lock.Abs()) && next == NoOne
      ensures old(lock.owner) != Frame(co) && !HasWaiter(old(lock.waiters), co) ==>
        (lock.Abs(), next) == HandOff(old(lock.Abs()), Waiter(co, epoch), current)
    {
      waiters := EraseWaiter(waiters, co);
      if lock.owner == Frame(co) {
        return if current then Next(Waiter(co, epoch)) else NoOne;
      }
      var queued := lock.Contains(co);
      if queued { return NoOne; }
      next := lock.HandOffTo(Waiter(co, epoch), current);
    }

    /** A destroyed waiter leaves both queues. */
    method WaiterDestroyed(co: nat) returns (next: Chosen)
      modifies this`waiters, lock
      ensures waiters == Erase(old(waiters), co)
      ensures (lock.Abs(), next) == Destroyed(old(lock.Abs()), co)
    {
      waiters := EraseWaiter(waiters, co);
      next := lock.OnWaiterDestroyed(co);
    }

    /** `notify(n)`; `alive` are the waits still on when their turn comes. */
    method Notify(n: nat, ghost alive: set<Waiter>, isAlive: Waiter -> bool) returns (chosen: seq<Waiter>)
      requires forall w :: isAlive(w) <==> w in alive
      modifies this`waiters, lock
      ensures (lock.Abs(), waiters, chosen) == NotifyMany(old(lock.Abs()), old(waiters), n, alive)
    {
      var left := n;
      chosen := [];
      ghost var all := NotifyMany(lock.Abs(), waiters, n, alive);
      assert chosen + all.2 == all.2;
      while left > 0
        invariant
          var (l, ws, more) := NotifyMany(lock.Abs(), waiters, left, alive);
          (l, ws, chosen + more) == NotifyMany(old(lock.Abs()), old(waiters), n, alive)
        decreases left
      {
        left := left - 1;
        if waiters == [] {
          assert chosen + [] == chosen;
          return;
        }
        var head := waiters[0];
        ghost var more := NotifyMany(NotifyOne(lock.Abs(), waiters, alive).0, waiters[1..], left, alive).2;
        waiters := waiters[1..];
        var next := lock.HandOffTo(head, isAlive(head));
        if next.Next? {
          Regroup(chosen, [next.w], more);
          chosen := chosen + [next.w];
        } else {
          assert [] + more == more;
        }
      }
      assert chosen + [] == chosen;
    }
  }

  lemma Regroup(a: seq<Waiter>, b: seq<Waiter>, c: seq<Waiter>)
    ensures a + (b + c) == (a + b) + c
  {
  }

  /** A notification that nothing interrupts is the machine's two steps, and leaves no hand-over pending. */
  lemma NotifyIsTwoSteps(w: LockRuns.World)
    requires w.cond != []
    ensures
      var x := w.cond[0];
      var v := LockRuns.Step(LockRuns.Step(w, LockRuns.TakeOut), LockRuns.HandIn(x));
      && v.cond == w.cond[1..] && v.handing == w.handing
      && v.lock == NotifyOne(w.lock, w.cond, if LockRuns.Current(w, x) then {x} else {}).0
  {
    var x := w.cond[0];
    var u := LockRuns.Step(w, LockRuns.TakeOut);
    assert u.handing == w.handing + multiset{x};
    assert u.handing - multiset{x} == w.handing;
  }

  /** Notified one after the other, waiters get the lock or its queue in their order, each at most once. */
  lemma {:induction false} NotifyKeepsOrder(l: LockState, ws: seq<Waiter>, n: nat, alive: set<Waiter>)
    requires l.locked && forall i :: 0 <= i < |ws| ==> ws[i] in alive
    ensures
      var k := if n < |ws| then n else |ws|;
      NotifyMany(l, ws, n, alive) == (l.(queue := l.queue + ws[..k]), ws[k..], [])
    decreases n
  {
    if n > 0 && ws != [] {
      var l1 := l.(queue := l.queue + [ws[0]]);
      NotifyKeepsOrder(l1, ws[1..], n - 1, alive);
      var k := if n < |ws| then n else |ws|;
      assert l1.queue + ws[1..][..k - 1] == l.queue + ws[..k];
      assert ws[1..][k - 1..] == ws[k..];
      var none: seq<Waiter> := [];
      assert none + none == none;
      assert ws[0] in alive && NotifyOne(l, ws, alive) == (l1, NoOne);
      assert NotifyMany(l1, ws[1..], n - 1, alive) == (l.(queue := l.queue + ws[..k]), ws[k..], none);
    } else {
      assert ws[..0] == [] && ws[0..] == ws && l.queue + [] == l.queue;
    }
  }
}
