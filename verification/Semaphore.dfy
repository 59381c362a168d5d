/** The reserved-permit protocol of `Semaphore` (include/coro/sync.hpp): every critical
    section of the semaphore's mutex is one step, so releases from other threads fall
    anywhere between the sections of an acquire or of a cancellation. */
module Semaphore {

  datatype Permits = Permits(count: int, waiters: seq<nat>, reserved: set<nat>)

  function IndexOf(ws: seq<nat>, co: nat): (k: nat)
    ensures k <= |ws|
    ensures k < |ws| ==> ws[k] == co
    ensures forall i :: 0 <= i < k ==> ws[i] != co
  {
    if ws == [] || ws[0] == co then 0 else 1 + IndexOf(ws[1..], co)
  }

  function RemoveFirst(ws: seq<nat>, co: nat): seq<nat> {
    var k := IndexOf(ws, co);
    if k < |ws| then ws[..k] + ws[k + 1..] else ws
  }

  /** A release: the permit goes to the head waiter by name, or back to the count. */
  function Give(p: Permits): Permits {
    if p.waiters != []
    then p.(waiters := p.waiters[1..], reserved := p.reserved + {p.waiters[0]})
    else p.(count := p.count + 1)
  }

  function TakeOrPark(p: Permits, co: nat): Permits {
    if p.count > 0 then p.(count := p.count - 1) else p.(waiters := p.waiters + [co])
  }

  /** `remove_waiter` up to its unlock: a reservation is taken back, or the waiter unlinked. */
  function Withdraw(p: Permits, co: nat): Permits {
    if co in p.reserved then p.(reserved := p.reserved - {co}) else p.(waiters := RemoveFirst(p.waiters, co))
  }

  class SemaphoreObject {
    var permits: int
    var waiters: seq<nat>
    var reserved: set<nat>

    function Abs(): Permits
      reads this
    {
      Permits(permits, waiters, reserved)
    }

    constructor (count: int)
      ensures Abs() == Permits(count, [], {})
    {
      permits, waiters, reserved := count, [], {};
    }

    /** `await_ready` */
    method TryTake() returns (taken: bool)
      modifies this
      ensures taken <==> old(permits) > 0
      ensures Abs() == if taken then old(Abs()).(count := old(permits) - 1) else old(Abs())
    {
      taken := permits > 0;
      if taken {
        permits := permits - 1;
      }
    }

    /** `await_suspend`: checked again under the same mutex before parking. */
    method Suspend(co: nat) returns (parked: bool)
      modifies this
      ensures Abs() == TakeOrPark(old(Abs()), co)
      ensures parked <==> old(permits) <= 0
    {
      if permits > 0 {
        permits := permits - 1;
        return false;
      }
      waiters := waiters + [co];
      return true;
    }

    /** The locked part of `release`; returns the waiters to schedule (at most one). */
    method Release() returns (named: seq<nat>)
      modifies this
      ensures Abs() == Give(old(Abs()))
      ensures named == if old(waiters) != [] then [old(waiters)[0]] else []
    {
      if waiters != [] {
        var head := waiters[0];
        waiters := waiters[1..];
        reserved := reserved + {head};
        return [head];
      }
      permits := permits + 1;
      return [];
    }

    /** The locked part of `remove_waiter`; true when the caller has a permit to pass on. */
    method RemoveWaiter(co: nat) returns (wasReserved: bool)
      modifies this
      ensures Abs() == Withdraw(old(Abs()), co)
      ensures wasReserved <==> co in old(reserved)
    {
      wasReserved := co in reserved;
      if wasReserved {
        reserved := reserved - {co};
        return;
      }
      var k := 0;
      while k < |waiters| && waiters[k] != co
        invariant k <= |waiters|
        invariant forall i :: 0 <= i < k ==> waiters[i] != co
      {
        k := k + 1;
      }
      assert k == IndexOf(waiters, co);
      if k < |waiters| {
        waiters := waiters[..k] + waiters[k + 1..];
      }
    }
  }

  /** `Trying`: between the two checks of an acquire. `Dying`: its wait is over by
      cancellation, `remove_waiter` has not run yet. `Passing`: it took a reserved
      permit back and has not released it yet. */
  datatype Phase = Idle | Trying | Suspended(epoch: nat) | Dying | Passing

  datatype Post = Post(co: nat, epoch: nat)

  datatype World = World(
    p: Permits,
    phase: map<nat, Phase>,
    passing: set<nat>,
    held: nat,
    cancelled: set<nat>,
    scheduled: set<nat>,
    posting: set<Post>,
    epochs: nat)

  datatype Event =
    | Begin(co: nat)
    | Suspend(co: nat)
    | Release
    | Deliver(x: Post)
    | Resume(co: nat)
    | Cancel(co: nat)
    | Die(co: nat)
    | Remove(co: nat)
    | PassOn(co: nat)

  function Init(count: int): World {
    World(Permits(count, [], {}), map[], {}, 0, {}, {}, {}, 0)
  }

  function PhaseOf(w: World, co: nat): Phase {
    if co in w.phase then w.phase[co] else Idle
  }

  function SetPhase(w: World, co: nat, p: Phase): World {
    w.(phase := w.phase[co := p])
  }

  /** A release and the notification it leaves to be posted outside the mutex. */
  function Released(w: World): World {
    var v := w.(p := Give(w.p));
    if w.p.waiters == [] then v
    else
      var head := w.p.waiters[0];
      match PhaseOf(w, head)
      case Suspended(e) => v.(posting := v.posting + {Post(head, e)})
      case _ => v
  }

  predicate Enabled(w: World, e: Event) {
    match e
    case Begin(co) => PhaseOf(w, co).Idle?
    case Suspend(co) => PhaseOf(w, co).Trying?
    case Release => w.held > 0
    case Deliver(x) => x in w.posting
    case Resume(co) => PhaseOf(w, co).Suspended? && co in w.scheduled && co !in w.cancelled
    case Cancel(co) => PhaseOf(w, co).Suspended?
    case Die(co) => PhaseOf(w, co).Suspended?
    case Remove(co) => PhaseOf(w, co).Dying?
    case PassOn(co) => PhaseOf(w, co).Passing?
  }

  function Step(w: World, e: Event): World {
    if !Enabled(w, e) then w
    else
      match e
      case Begin(co) =>
        if w.p.count > 0 then w.(p := w.p.(count := w.p.count - 1), held := w.held + 1)
        else SetPhase(w, co, Trying)
      case Suspend(co) =>
        var v := w.(p := TakeOrPark(w.p, co));
        if w.p.count > 0 then SetPhase(v.(held := w.held + 1), co, Idle)
        else SetPhase(v.(epochs := w.epochs + 1), co, Suspended(w.epochs + 1))
      case Release => Released(w.(held := w.held - 1))
      case Deliver(x) =>
        w.(posting := w.posting - {x},
           scheduled := if PhaseOf(w, x.co) == Suspended(x.epoch) then w.scheduled + {x.co} else w.scheduled)
      case Resume(co) =>
        SetPhase(w.(p := w.p.(reserved := w.p.reserved - {co}), held := w.held + 1, scheduled := w.scheduled - {co}), co, Idle)
      case Cancel(co) => w.(cancelled := w.cancelled + {co}, scheduled := w.scheduled + {co})
      case Die(co) => SetPhase(w.(cancelled := w.cancelled - {co}, scheduled := w.scheduled - {co}), co, Dying)
      case Remove(co) =>
        var v := w.(p := Withdraw(w.p, co));
        if co in w.p.reserved then SetPhase(v.(passing := w.passing + {co}), co, Passing) else SetPhase(v, co, Idle)
      case PassOn(co) => SetPhase(Released(w.(passing := w.passing - {co})), co, Idle)
  }

  function Run(w: World, es: seq<Event>): World {
    if es == [] then w else Step(Run(w, es[..|es| - 1]), es[|es| - 1])
  }

  /** Free + named but not resumed + being passed on by a cancelled waiter + held. */
  function Total(w: World): int {
    w.p.count + |w.p.reserved| + |w.passing| + w.held
  }

  /** A waiting coroutine is queued or named, never both; a named one that still waits
      is scheduled or about to be; nobody else resumes. */
  ghost predicate CoOk(w: World, co: nat) {
    var p := PhaseOf(w, co);
    var queued := co in w.p.waiters;
    var named := co in w.p.reserved;
    && !(queued && named)
    && (p.Idle? || p.Trying? || p.Passing? ==> !queued && !named && co !in w.scheduled && co !in w.cancelled)
    && (p.Suspended? || p.Dying? ==> queued || named)
    && (p.Suspended? ==> p.epoch <= w.epochs)
    && (p.Dying? ==> co !in w.scheduled && co !in w.cancelled)
    && (p.Suspended? && named ==> co in w.scheduled || Post(co, p.epoch) in w.posting)
    && (p.Suspended? && co in w.scheduled && co !in w.cancelled ==> named)
    && (p.Suspended? && Post(co, p.epoch) in w.posting ==> named)
    && (p.Passing? <==> co in w.passing)
  }

  ghost predicate Inv(w: World, initial: int) {
    && Total(w) == initial
    && (w.p.count > 0 ==> w.p.waiters == [])
    && (forall i, j :: 0 <= i < j < |w.p.waiters| ==> w.p.waiters[i] != w.p.waiters[j])
    && (forall x :: x in w.posting ==> x.epoch <= w.epochs)
    && (forall co :: CoOk(w, co))
  }

  lemma GiveCo(w: World, co: nat)
    requires CoOk(w, co) && (w.p.waiters != [] ==> CoOk(w, w.p.waiters[0]))
    requires forall i, j :: 0 <= i < j < |w.p.waiters| ==> w.p.waiters[i] != w.p.waiters[j]
    ensures CoOk(Released(w), co)
  {
    if w.p.waiters != [] {
      assert w.p.waiters == [w.p.waiters[0]] + w.p.waiters[1..];
      assert w.p.waiters[0] in w.p.waiters;
    }
  }

  lemma RemoveFirstElems(ws: seq<nat>, co: nat)
    requires forall i, j :: 0 <= i < j < |ws| ==> ws[i] != ws[j]
    ensures forall x :: x in RemoveFirst(ws, co) <==> x in ws && x != co
  {
    var k := IndexOf(ws, co);
    if k < |ws| {
      assert ws == ws[..k] + [co] + ws[k + 1..];
    }
  }

  lemma {:induction false} ReleaseCo(w: World, initial: int, co: nat)
    requires Inv(w, initial) && w.held > 0
    ensures CoOk(Step(w, Release), co)
  {
    assert CoOk(w, co);
    assert w.p.waiters != [] ==> CoOk(w, w.p.waiters[0]);
    var v := w.(held := w.held - 1);
    assert CoOk(v, co) && (w.p.waiters != [] ==> CoOk(v, w.p.waiters[0]));
    GiveCo(v, co);
  }

  lemma {:induction false} RemoveCo(w: World, c: nat, initial: int, co: nat)
    requires Inv(w, initial) && PhaseOf(w, c).Dying?
    ensures CoOk(Step(w, Remove(c)), co)
  {
    assert CoOk(w, c) && CoOk(w, co);
    RemoveFirstElems(w.p.waiters, c);
  }

  lemma {:induction false} SuspendCo(w: World, c: nat, initial: int, co: nat)
    requires Inv(w, initial) && PhaseOf(w, c).Trying?
    ensures CoOk(Step(w, Suspend(c)), co)
  {
    assert CoOk(w, c) && CoOk(w, co);
  }

  lemma {:induction false} StepCo(w: World, e: Event, initial: int, co: nat)
    requires Inv(w, initial) && Enabled(w, e)
    ensures CoOk(Step(w, e), co)
  {
    assert CoOk(w, co);
    match e
    case Release => ReleaseCo(w, initial, co);
    case PassOn(c) => PassOnCo(w, c, initial, co);
    case Remove(c) => RemoveCo(w, c, initial, co);
    case Suspend(c) => SuspendCo(w, c, initial, co);
    case Begin(c) => assert CoOk(w, c);
    case Deliver(x) => assert CoOk(w, x.co);
    case Resume(c) => assert CoOk(w, c);
    case Cancel(c) => assert CoOk(w, c);
    case Die(c) => assert CoOk(w, c);
  }

  lemma PassOnCo(w: World, c: nat, initial: int, co: nat)
    requires Inv(w, initial) && PhaseOf(w, c).Passing?
    ensures CoOk(Step(w, PassOn(c)), co)
  {
    assert CoOk(w, co) && CoOk(w, c);
    if w.p.waiters != [] {
      assert CoOk(w, w.p.waiters[0]);
      assert w.p.waiters == [w.p.waiters[0]] + w.p.waiters[1..];
    }
  }

  /** Giving a permit, to the count or to the oldest waiter, adds one to what is free or named. */
  lemma GiveTotal(w: World)
    requires w.p.waiters != [] ==> w.p.waiters[0] !in w.p.reserved
    ensures Total(Released(w)) == Total(w) + 1
  {
  }

  lemma {:induction false} StepTotal(w: World, e: Event, initial: int)
    requires Inv(w, initial)
    ensures Total(Step(w, e)) == initial
  {
    if Enabled(w, e) {
      if w.p.waiters != [] {
        assert CoOk(w, w.p.waiters[0]);
      }
      match e
      case Release => GiveTotal(w.(held := w.held - 1));
      case Resume(co) => assert CoOk(w, co);
      case Remove(co) => assert CoOk(w, co);
      case PassOn(co) =>
        assert CoOk(w, co);
        GiveTotal(w.(passing := w.passing - {co}));
      case _ =>
    }
  }

  lemma StepKeeps(w: World, e: Event, initial: int)
    requires Inv(w, initial)
    ensures Inv(Step(w, e), initial)
  {
    StepTotal(w, e, initial);
    if Enabled(w, e) {
      forall co ensures CoOk(Step(w, e), co) {
        StepCo(w, e, initial, co);
      }
      StepQueue(w, e, initial);
    }
  }

  lemma StepQueue(w: World, e: Event, initial: int)
    requires Inv(w, initial) && Enabled(w, e)
    ensures var v := Step(w, e);
      && (v.p.count > 0 ==> v.p.waiters == [])
      && (forall i, j :: 0 <= i < j < |v.p.waiters| ==> v.p.waiters[i] != v.p.waiters[j])
      && (forall x :: x in v.posting ==> x.epoch <= v.epochs)
  {
    if w.p.waiters != [] {
      assert CoOk(w, w.p.waiters[0]);
    }
    if e.Suspend? {
      assert CoOk(w, e.co);
    }
  }

  /** No permit is lost or invented, whatever interleaves with what, and a free permit
      never coexists with a waiter. */
  lemma {:induction false} EveryRunKeeps(count: int, es: seq<Event>)
    ensures Inv(Run(Init(count), es), count)
  {
    if es != [] {
      EveryRunKeeps(count, es[..|es| - 1]);
      StepKeeps(Run(Init(count), es[..|es| - 1]), es[|es| - 1], count);
    }
  }

  /** Once every coroutine has come to rest, the free permits are exactly the initial
      ones minus those held. */
  lemma PermitsReturn(w: World, count: int)
    requires Inv(w, count) && forall co :: PhaseOf(w, co).Idle?
    ensures w.p.count == count - w.held && w.p.waiters == []
  {
    forall co ensures co !in w.p.reserved && co !in w.p.waiters && co !in w.passing {
      assert CoOk(w, co) && PhaseOf(w, co).Idle?;
    }
    assert w.p.reserved == {} && w.passing == {};
    SomebodyQueued(w.p.waiters);
  }

  lemma SomebodyQueued(ws: seq<nat>)
    ensures ws == [] || exists co :: co in ws
  {
    if ws != [] {
      assert ws[0] in ws;
    }
  }
}
