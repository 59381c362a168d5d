/** `Lock` and `Condition` together in every run: acquire, release, wait, notify,
    cancellation and destruction of a waiter at any suspension. Coroutines of several
    loops interleave at the mutexes: choosing the next owner and scheduling it (`Post`),
    taking a waiter out of the condition and handing it to the lock (`HandIn`), queueing
    a waiter and giving the lock up (`LetGo`), and the sections of a cancelled wait
    (`OwnerTest`, `QueueTest`, `GiveIn`) are separate steps. */
module LockRuns {
  import opened LockCore

  /** `Leaving`: queued in the condition, the lock not given up yet. */
  datatype Phase = Outside | Inside | Acquiring(epoch: nat) | Leaving(epoch: nat) | Waiting(epoch: nat)

  /** Where `on_cancel_requested` stands: before its test for the owner, before its test
      for the lock's queue, or before its `hand_off`. `held` is the proof's: the
      cancellation has taken the waiter out of the condition itself. */
  datatype Asking = TestOwner(held: bool) | TestQueue(held: bool) | Giving

  /** `posting`: owners chosen, not scheduled yet. `handing`: waiters that a notification
      has taken out of the condition and whose `hand_off` has not run yet. */
  datatype World = World(
    lock: LockState,
    cond: seq<Waiter>,
    phase: map<nat, Phase>,
    cancelled: set<nat>,
    scheduled: set<nat>,
    posting: set<Waiter>,
    handing: multiset<Waiter>,
    asking: map<nat, Asking>,
    epochs: nat)

  datatype Event =
    | Acquire(co: nat)
    | Release(co: nat)
    | Post(w: Waiter)
    | Resume(co: nat)
    | Cancel(co: nat)
    | OwnerTest(co: nat)
    | QueueTest(co: nat)
    | GiveIn(co: nat)
    | Destroy(co: nat)
    | Wait(co: nat)
    | LetGo(co: nat)
    | TakeOut
    | HandIn(w: Waiter)

  const Start: World := World(LockState(false, Nobody, 0, []), [], map[], {}, {}, {}, multiset{}, map[], 0)

  function PhaseOf(w: World, co: nat): Phase {
    if co in w.phase then w.phase[co] else Outside
  }

  /** `is_wait_current`: the frame is still in exactly this wait. */
  predicate Current(w: World, x: Waiter) {
    var p := PhaseOf(w, x.co);
    p == Acquiring(x.epoch) || p == Leaving(x.epoch) || p == Waiting(x.epoch)
  }

  predicate Suspended(p: Phase) {
    p.Acquiring? || p.Waiting?
  }

  function Posted(w: World, next: Chosen): World {
    if next.NoOne? then w else w.(posting := w.posting + {next.w})
  }

  function StepAcquire(w: World, co: nat): World {
    var (l, r) := LockCore.Acquire(w.lock, co, w.epochs + 1);
    if r.Entered? then w.(lock := l, phase := w.phase[co := Inside])
    else w.(lock := l, phase := w.phase[co := Acquiring(w.epochs + 1)], epochs := w.epochs + 1)
  }

  /** A release by the coroutine that owns the lock. */
  function StepRelease(w: World, co: nat): World {
    var (l, next) := LockCore.Release(w.lock);
    Posted(w.(lock := l, phase := if w.lock.recursion > 0 then w.phase else w.phase[co := Outside]), next)
  }

  function StepPost(w: World, x: Waiter): World {
    w.(posting := w.posting - {x}, scheduled := if Current(w, x) then w.scheduled + {x.co} else w.scheduled)
  }

  /** The awaiter dies: it leaves both queues and passes on a lock it was given. */
  function Unlink(w: World, co: nat): World {
    var (l, next) := Destroyed(w.lock, co);
    Posted(w.(lock := l, cond := Erase(w.cond, co), phase := w.phase[co := Outside],
              cancelled := w.cancelled - {co}, scheduled := w.scheduled - {co}), next)
  }

  /** A scheduled frame runs: `wait()` always comes back into the critical section,
      with a CancelledError when it was cancelled; a cancelled `acquire()` does not. */
  function StepResume(w: World, co: nat): World {
    if PhaseOf(w, co).Acquiring? && co in w.cancelled then Unlink(w, co)
    else w.(phase := w.phase[co := Inside], scheduled := w.scheduled - {co}, cancelled := w.cancelled - {co})
  }

  /** `Task::cancel`: an acquirer is woken at once; a condition waiter leaves the
      condition and then has to get the lock back. */
  function StepCancel(w: World, co: nat): World
    requires Suspended(PhaseOf(w, co))
  {
    var v := w.(cancelled := w.cancelled + {co});
    if PhaseOf(w, co).Acquiring? then v.(scheduled := w.scheduled + {co})
    else v.(cond := Erase(w.cond, co), asking := w.asking[co := TestOwner(HasWaiter(w.cond, co))])
  }

  /** It has the lock already: it only has to run. */
  function StepOwnerTest(w: World, co: nat): World
    requires co in w.asking && w.asking[co].TestOwner?
  {
    if w.lock.owner == Frame(co) then w.(scheduled := w.scheduled + {co}, asking := w.asking - {co})
    else w.(asking := w.asking[co := TestQueue(w.asking[co].held)])
  }

  /** It is in the lock's queue already: its turn will come. */
  function StepQueueTest(w: World, co: nat): World {
    if HasWaiter(w.lock.queue, co) then w.(asking := w.asking - {co})
    else w.(asking := w.asking[co := Giving])
  }

  function StepGiveIn(w: World, co: nat): World
    requires PhaseOf(w, co).Waiting?
  {
    var x := Waiter(co, PhaseOf(w, co).epoch);
    var (l, next) := HandOff(w.lock, x, Current(w, x));
    Posted(w.(lock := l, asking := w.asking - {co}), next)
  }

  function StepWait(w: World, co: nat): World {
    var x := Waiter(co, w.epochs + 1);
    w.(cond := w.cond + [x], phase := w.phase[co := Leaving(x.epoch)], epochs := x.epoch)
  }

  function StepLetGo(w: World, co: nat): World
    requires PhaseOf(w, co).Leaving?
  {
    var (l, next) := LockCore.Release(w.lock);
    Posted(w.(lock := l, phase := w.phase[co := Waiting(PhaseOf(w, co).epoch)]), next)
  }

  function StepTakeOut(w: World): World
    requires w.cond != []
  {
    w.(cond := w.cond[1..], handing := w.handing + multiset{w.cond[0]})
  }

  function StepHandIn(w: World, x: Waiter): World {
    var (l, next) := HandOff(w.lock, x, Current(w, x));
    Posted(w.(lock := l, handing := w.handing - multiset{x}), next)
  }

  /** A coroutine waits only inside, and not while it holds the lock recursively. A
      cancellation runs to its end on the coroutine's own loop, so meanwhile nothing else
      happens to that coroutine there. */
  predicate Enabled(w: World, e: Event) {
    match e
    case Acquire(co) => PhaseOf(w, co).Outside? || PhaseOf(w, co).Inside?
    case Release(co) => PhaseOf(w, co).Inside?
    case Post(x) => x in w.posting
    case Resume(co) => co in w.scheduled && Suspended(PhaseOf(w, co)) && co !in w.asking
    case Cancel(co) => Suspended(PhaseOf(w, co)) && co !in w.asking
    case OwnerTest(co) => co in w.asking && w.asking[co].TestOwner?
    case QueueTest(co) => co in w.asking && w.asking[co].TestQueue?
    case GiveIn(co) => co in w.asking && w.asking[co].Giving? && PhaseOf(w, co).Waiting?
    case Destroy(co) => Suspended(PhaseOf(w, co)) && co !in w.asking
    case Wait(co) => PhaseOf(w, co).Inside? && w.lock.recursion == 0
    case LetGo(co) => PhaseOf(w, co).Leaving?
    case TakeOut => w.cond != []
    case HandIn(x) => x in w.handing
  }

  function Step(w: World, e: Event): World {
    if !Enabled(w, e) then w
    else
      match e
      case Acquire(co) => StepAcquire(w, co)
      case Release(co) => StepRelease(w, co)
      case Post(x) => StepPost(w, x)
      case Resume(co) => StepResume(w, co)
      case Cancel(co) => StepCancel(w, co)
      case OwnerTest(co) => StepOwnerTest(w, co)
      case QueueTest(co) => StepQueueTest(w, co)
      case GiveIn(co) => StepGiveIn(w, co)
      case Destroy(co) => Unlink(w, co)
      case Wait(co) => StepWait(w, co)
      case LetGo(co) => StepLetGo(w, co)
      case TakeOut => StepTakeOut(w)
      case HandIn(x) => StepHandIn(w, x)
  }

  function Run(w: World, es: seq<Event>): World {
    if es == [] then w else Step(Run(w, es[..|es| - 1]), es[|es| - 1])
  }

  function Count(ws: seq<Waiter>, co: nat): nat {
    if ws == [] then 0 else (if ws[0].co == co then 1 else 0) + Count(ws[1..], co)
  }

  predicate Holds(w: World, co: nat) {
    co in w.asking && (w.asking[co].Giving? || w.asking[co].held)
  }

  /** Where one coroutine stands. A suspended one is in exactly one place: it was given
      the lock, or it is in the lock's queue, in the condition, or being handed in by a
      notification or by its own cancellation. One that is giving the lock up is in one
      place besides. Only somebody who was given the lock is scheduled (a cancelled
      acquirer is scheduled to leave), and somebody given the lock is inside or on its way. */
  ghost predicate CoOk(w: World, co: nat) {
    var p := PhaseOf(w, co);
    var own := if w.lock.owner == Frame(co) then 1 else 0;
    var queued := Count(w.lock.queue, co);
    var waiting := Count(w.cond, co);
    var handed := if p.Outside? || p.Inside? then 0 else w.handing[Waiter(co, p.epoch)];
    var held := if Holds(w, co) then 1 else 0;
    && (p.Outside? ==> own + queued + waiting == 0 && co !in w.cancelled)
    && (p.Inside? ==> own == 1 && queued + waiting == 0 && co !in w.cancelled)
    && (p.Acquiring? ==> own + queued == 1 && waiting + handed == 0)
    && (p.Leaving? ==> own == 1 && queued + waiting + handed == 1 && co !in w.cancelled)
    && (p.Waiting? ==> own + queued + waiting + handed + held == 1 && (co in w.cancelled ==> waiting == 0))
    && (co in w.asking ==> p.Waiting? && co in w.cancelled)
    && (!p.Outside? && !p.Inside? ==> p.epoch <= w.epochs)
    && (p.Leaving? ==> Waiter(co, p.epoch) !in w.posting)
    && (co in w.scheduled ==> Suspended(p))
    && (co in w.scheduled && p.Waiting? ==> own == 1)
    && (co in w.scheduled && p.Acquiring? && co !in w.cancelled ==> own == 1)
    && (co in w.cancelled && p.Acquiring? ==> co in w.scheduled)
    && (own == 1 && Suspended(p) ==> co in w.scheduled || Waiter(co, p.epoch) in w.posting)
    && (Suspended(p) && Waiter(co, p.epoch) in w.posting ==> own == 1)
    && (w.lock.recursion > 0 && own == 1 ==> p.Inside?)
  }

  ghost predicate LockOk(w: World) {
    && (w.lock.locked <==> w.lock.owner.Frame?)
    && (!w.lock.locked ==> w.lock.queue == [])
    && (w.lock.recursion > 0 ==> w.lock.locked)
  }

  predicate InCond(p: Phase, epoch: nat) {
    p == Leaving(epoch) || p == Waiting(epoch)
  }

  /** Queued waiters are in the wait they were queued for; no identity is from the future. */
  ghost predicate EntriesOk(w: World) {
    && (forall i :: 0 <= i < |w.lock.queue| ==> Current(w, w.lock.queue[i]))
    && (forall i :: 0 <= i < |w.cond| ==> InCond(PhaseOf(w, w.cond[i].co), w.cond[i].epoch))
    && (forall x :: x in w.posting ==> x.epoch <= w.epochs)
    && (forall x :: x in w.handing ==> x.epoch <= w.epochs)
  }

  ghost predicate Inv(w: World) {
    LockOk(w) && EntriesOk(w) && forall co :: CoOk(w, co)
  }

  lemma {:induction false} CountAppend(a: seq<Waiter>, x: Waiter, co: nat)
    ensures Count(a + [x], co) == Count(a, co) + if x.co == co then 1 else 0
  {
    if a == [] {
      assert a + [x] == [x];
    } else {
      assert (a + [x])[1..] == a[1..] + [x];
      CountAppend(a[1..], x, co);
    }
  }

  lemma {:induction false} CountErase(ws: seq<Waiter>, gone: nat, co: nat)
    ensures Count(Erase(ws, gone), co) == if co == gone then 0 else Count(ws, co)
  {
    if ws != [] {
      CountErase(ws[1..], gone, co);
      if ws[0].co != gone {
        assert ([ws[0]] + Erase(ws[1..], gone))[1..] == Erase(ws[1..], gone);
      }
    }
  }

  lemma {:induction false} CountPositive(ws: seq<Waiter>, co: nat)
    ensures Count(ws, co) > 0 <==> HasWaiter(ws, co)
  {
    if ws != [] {
      CountPositive(ws[1..], co);
      if HasWaiter(ws[1..], co) {
        var i :| 0 <= i < |ws[1..]| && ws[1..][i].co == co;
        assert ws[i + 1].co == co;
      }
    }
  }

  lemma AcquireCo(w: World, co: nat, c: nat)
    requires LockOk(w) && CoOk(w, co) && CoOk(w, c) && Enabled(w, Acquire(co))
    requires EntriesOk(w)
    ensures CoOk(StepAcquire(w, co), c)
  {
    CountAppend(w.lock.queue, Waiter(co, w.epochs + 1), c);
  }

  lemma AcquireEntries(w: World, co: nat)
    requires Inv(w) && Enabled(w, Acquire(co))
    ensures EntriesOk(StepAcquire(w, co)) && LockOk(StepAcquire(w, co))
  {
    assert CoOk(w, co);
    CountPositive(w.lock.queue, co);
    CountPositive(w.cond, co);
  }

  lemma ReleaseCo(w: World, co: nat, c: nat)
    requires LockOk(w) && EntriesOk(w) && CoOk(w, co) && CoOk(w, c) && Enabled(w, Release(co))
    ensures CoOk(StepRelease(w, co), c)
  {
    if w.lock.recursion == 0 && w.lock.queue != [] {
      assert Current(w, w.lock.queue[0]);
    }
  }

  lemma ReleaseEntries(w: World, co: nat)
    requires Inv(w) && Enabled(w, Release(co))
    ensures EntriesOk(StepRelease(w, co)) && LockOk(StepRelease(w, co))
  {
    assert CoOk(w, co);
    CountPositive(w.lock.queue, co);
    CountPositive(w.cond, co);
    if w.lock.recursion == 0 && w.lock.queue != [] {
      var x := w.lock.queue[0];
      assert Current(w, x) && CoOk(w, x.co);
    }
  }

  lemma PostCo(w: World, x: Waiter, c: nat)
    requires CoOk(w, c) && x in w.posting
    ensures CoOk(StepPost(w, x), c)
  {
  }

  lemma WaitCo(w: World, co: nat, c: nat)
    requires LockOk(w) && EntriesOk(w) && CoOk(w, co) && CoOk(w, c) && Enabled(w, Wait(co))
    ensures CoOk(StepWait(w, co), c)
  {
    CountAppend(w.cond, Waiter(co, w.epochs + 1), c);
    assert Waiter(co, w.epochs + 1) !in w.handing;
    assert Waiter(co, w.epochs + 1) !in w.posting;
  }

  lemma WaitEntries(w: World, co: nat)
    requires Inv(w) && Enabled(w, Wait(co))
    ensures EntriesOk(StepWait(w, co)) && LockOk(StepWait(w, co))
  {
    assert CoOk(w, co);
    CountPositive(w.lock.queue, co);
    CountPositive(w.cond, co);
  }

  lemma LetGoCo(w: World, co: nat, c: nat)
    requires LockOk(w) && EntriesOk(w) && CoOk(w, co) && CoOk(w, c) && Enabled(w, LetGo(co))
    ensures CoOk(StepLetGo(w, co), c)
  {
    if w.lock.queue != [] {
      assert Current(w, w.lock.queue[0]);
    }
  }

  lemma LetGoEntries(w: World, co: nat)
    requires Inv(w) && Enabled(w, LetGo(co))
    ensures EntriesOk(StepLetGo(w, co)) && LockOk(StepLetGo(w, co))
  {
    assert CoOk(w, co);
    if w.lock.queue != [] {
      var x := w.lock.queue[0];
      assert Current(w, x) && CoOk(w, x.co);
    }
  }

  lemma TakeOutCo(w: World, c: nat)
    requires EntriesOk(w) && CoOk(w, c) && w.cond != []
    ensures CoOk(StepTakeOut(w), c)
  {
    assert InCond(PhaseOf(w, w.cond[0].co), w.cond[0].epoch);
  }

  lemma TakeOutEntries(w: World)
    requires Inv(w) && w.cond != []
    ensures EntriesOk(StepTakeOut(w)) && LockOk(StepTakeOut(w))
  {
    assert CoOk(w, w.cond[0].co);
  }

  lemma HandInCo(w: World, x: Waiter, c: nat)
    requires LockOk(w) && CoOk(w, c) && CoOk(w, x.co) && x in w.handing
    ensures CoOk(StepHandIn(w, x), c)
  {
    CountAppend(w.lock.queue, x, c);
  }

  lemma HandInEntries(w: World, x: Waiter)
    requires Inv(w) && x in w.handing
    ensures EntriesOk(StepHandIn(w, x)) && LockOk(StepHandIn(w, x))
  {
    assert CoOk(w, x.co);
  }

  lemma UnlinkSelf(w: World, co: nat)
    requires LockOk(w) && CoOk(w, co) && Suspended(PhaseOf(w, co)) && co !in w.asking
    ensures CoOk(Unlink(w, co), co)
  {
    CountErase(w.lock.queue, co, co);
    CountErase(w.cond, co, co);
    var q := Erase(w.lock.queue, co);
    assert q != [] ==> q[0] in q;
  }

  lemma UnlinkOther(w: World, co: nat, c: nat)
    requires LockOk(w) && EntriesOk(w) && CoOk(w, co) && CoOk(w, c) && Suspended(PhaseOf(w, co)) && c != co
    ensures CoOk(Unlink(w, co), c)
  {
    var q := Erase(w.lock.queue, co);
    CountErase(w.lock.queue, co, c);
    CountErase(w.cond, co, c);
    if q != [] {
      assert q[0] in w.lock.queue;
      assert Current(w, q[0]) && q[0].co != co;
      assert Count(q, c) == (if q[0].co == c then 1 else 0) + Count(q[1..], c);
    }
  }

  lemma UnlinkCo(w: World, co: nat, c: nat)
    requires LockOk(w) && EntriesOk(w) && CoOk(w, co) && CoOk(w, c) && Suspended(PhaseOf(w, co)) && co !in w.asking
    ensures CoOk(Unlink(w, co), c)
  {
    if c == co {
      UnlinkSelf(w, co);
    } else {
      UnlinkOther(w, co, c);
    }
  }

  lemma UnlinkEntries(w: World, co: nat)
    requires Inv(w) && Suspended(PhaseOf(w, co))
    ensures EntriesOk(Unlink(w, co)) && LockOk(Unlink(w, co))
  {
    assert CoOk(w, co);
    var q := Erase(w.lock.queue, co);
    var d := Erase(w.cond, co);
    forall i | 0 <= i < |q| ensures Current(w, q[i]) && q[i].co != co && q[i].epoch <= w.epochs {
      assert q[i] in w.lock.queue;
      assert CoOk(w, q[i].co);
    }
    forall i | 0 <= i < |d| ensures InCond(PhaseOf(w, d[i].co), d[i].epoch) && d[i].co != co {
      assert d[i] in w.cond;
    }
  }

  lemma CancelCo(w: World, co: nat, c: nat)
    requires LockOk(w) && CoOk(w, co) && CoOk(w, c) && Enabled(w, Cancel(co))
    ensures CoOk(StepCancel(w, co), c)
  {
    CountErase(w.cond, co, c);
    CountPositive(w.cond, co);
  }

  lemma CancelEntries(w: World, co: nat)
    requires Inv(w) && Suspended(PhaseOf(w, co))
    ensures EntriesOk(StepCancel(w, co)) && LockOk(StepCancel(w, co))
  {
    assert CoOk(w, co);
    var d := Erase(w.cond, co);
    forall i | 0 <= i < |d| ensures InCond(PhaseOf(w, d[i].co), d[i].epoch) {
      assert d[i] in w.cond;
    }
  }

  lemma OwnerTestCo(w: World, co: nat, c: nat)
    requires CoOk(w, co) && CoOk(w, c) && Enabled(w, OwnerTest(co))
    ensures CoOk(StepOwnerTest(w, co), c)
  {
  }

  /** The test for the queue comes out wrong: the waiter is on its way all the same, given
      the lock since the test for the owner, or in the hands of a notification. */
  predicate Racing(w: World, co: nat) {
    && !HasWaiter(w.lock.queue, co)
    && (w.lock.owner == Frame(co) || (PhaseOf(w, co).Waiting? && Waiter(co, PhaseOf(w, co).epoch) in w.handing))
  }

  lemma QueueTestCo(w: World, co: nat, c: nat)
    requires CoOk(w, co) && CoOk(w, c) && Enabled(w, QueueTest(co)) && !Racing(w, co)
    ensures CoOk(StepQueueTest(w, co), c)
  {
    CountPositive(w.lock.queue, co);
  }

  lemma GiveInCo(w: World, co: nat, c: nat)
    requires LockOk(w) && CoOk(w, c) && CoOk(w, co) && Enabled(w, GiveIn(co))
    ensures CoOk(StepGiveIn(w, co), c)
  {
    CountAppend(w.lock.queue, Waiter(co, PhaseOf(w, co).epoch), c);
  }

  lemma GiveInEntries(w: World, co: nat)
    requires Inv(w) && Enabled(w, GiveIn(co))
    ensures EntriesOk(StepGiveIn(w, co)) && LockOk(StepGiveIn(w, co))
  {
    assert CoOk(w, co);
  }

  lemma ResumeCo(w: World, co: nat, c: nat)
    requires LockOk(w) && EntriesOk(w) && CoOk(w, co) && CoOk(w, c) && Enabled(w, Resume(co))
    ensures CoOk(StepResume(w, co), c)
  {
    if PhaseOf(w, co).Acquiring? && co in w.cancelled {
      UnlinkCo(w, co, c);
    }
  }

  lemma ResumeEntries(w: World, co: nat)
    requires Inv(w) && Enabled(w, Resume(co))
    ensures EntriesOk(StepResume(w, co)) && LockOk(StepResume(w, co))
  {
    assert CoOk(w, co);
    if PhaseOf(w, co).Acquiring? && co in w.cancelled {
      UnlinkEntries(w, co);
    } else {
      CountPositive(w.lock.queue, co);
      CountPositive(w.cond, co);
    }
  }

  predicate Race(w: World, e: Event) {
    e.QueueTest? && Enabled(w, e) && Racing(w, e.co)
  }

  lemma WaitStepsCo(w: World, e: Event, c: nat)
    requires Inv(w) && Enabled(w, e) && !Race(w, e)
    requires e.Wait? || e.LetGo? || e.Cancel? || e.OwnerTest? || e.QueueTest? || e.GiveIn?
    ensures CoOk(Step(w, e), c)
  {
    assert CoOk(w, c) && CoOk(w, e.co);
    match e
    case Wait(co) => WaitCo(w, co, c);
    case LetGo(co) => LetGoCo(w, co, c);
    case Cancel(co) => CancelCo(w, co, c);
    case OwnerTest(co) => OwnerTestCo(w, co, c);
    case QueueTest(co) => QueueTestCo(w, co, c);
    case GiveIn(co) => GiveInCo(w, co, c);
  }

  lemma StepCo(w: World, e: Event, c: nat)
    requires Inv(w) && !Race(w, e)
    ensures CoOk(Step(w, e), c)
  {
    assert CoOk(w, c);
    if Enabled(w, e) {
      match e
      case Acquire(co) => assert CoOk(w, co); AcquireCo(w, co, c);
      case Release(co) => assert CoOk(w, co); ReleaseCo(w, co, c);
      case Post(x) => PostCo(w, x, c);
      case Resume(co) => assert CoOk(w, co); ResumeCo(w, co, c);
      case Destroy(co) => assert CoOk(w, co); UnlinkCo(w, co, c);
      case TakeOut => TakeOutCo(w, c);
      case HandIn(x) => assert CoOk(w, x.co); HandInCo(w, x, c);
      case _ => WaitStepsCo(w, e, c);
    }
  }

  lemma StepEntries(w: World, e: Event)
    requires Inv(w)
    ensures LockOk(Step(w, e)) && EntriesOk(Step(w, e))
  {
    if Enabled(w, e) {
      match e
      case Acquire(co) => AcquireEntries(w, co);
      case Release(co) => ReleaseEntries(w, co);
      case Post(x) =>
      case Resume(co) => ResumeEntries(w, co);
      case Cancel(co) => CancelEntries(w, co);
      case OwnerTest(co) =>
      case QueueTest(co) =>
      case GiveIn(co) => GiveInEntries(w, co);
      case Destroy(co) => UnlinkEntries(w, co);
      case Wait(co) => WaitEntries(w, co);
      case LetGo(co) => LetGoEntries(w, co);
      case TakeOut => TakeOutEntries(w);
      case HandIn(x) => HandInEntries(w, x);
    }
  }

  lemma StepKeeps(w: World, e: Event)
    requires Inv(w) && !Race(w, e)
    ensures Inv(Step(w, e))
  {
    StepEntries(w, e);
    forall c ensures CoOk(Step(w, e), c) {
      StepCo(w, e, c);
    }
  }

  ghost predicate RaceFree(es: seq<Event>) {
    es == [] || (RaceFree(es[..|es| - 1]) && !Race(Run(Start, es[..|es| - 1]), es[|es| - 1]))
  }

  lemma {:induction false} EveryRunKeeps(es: seq<Event>)
    requires RaceFree(es)
    ensures Inv(Run(Start, es))
  {
    if es != [] {
      EveryRunKeeps(es[..|es| - 1]);
      StepKeeps(Run(Start, es[..|es| - 1]), es[|es| - 1]);
    }
  }

  /** At most one coroutine is inside, or still leaving for a wait, and it is the recorded
      owner; an unlocked lock has nobody queued; the recorded owner is inside, scheduled
      or being scheduled. */
  lemma Exclusion(w: World)
    requires Inv(w)
    ensures forall a, b :: InLock(w, a) && InLock(w, b) ==> a == b
    ensures !w.lock.locked ==> w.lock.queue == [] && forall co :: !InLock(w, co)
    ensures w.lock.owner.Frame? ==>
      var p := PhaseOf(w, w.lock.owner.co);
      InLock(w, w.lock.owner.co) ||
      (Suspended(p) && (w.lock.owner.co in w.scheduled || Waiter(w.lock.owner.co, p.epoch) in w.posting))
  {
    forall a | InLock(w, a) ensures w.lock.owner == Frame(a) {
      assert CoOk(w, a);
    }
    if w.lock.owner.Frame? {
      assert CoOk(w, w.lock.owner.co);
    }
  }

  predicate InLock(w: World, co: nat) {
    PhaseOf(w, co).Inside? || PhaseOf(w, co).Leaving?
  }

  /** `wait()` ends, with or without a CancelledError, only with the caller as owner;
      an `acquire()` that is not cancelled likewise. */
  lemma WaitEndsOwning(w: World, co: nat)
    requires Inv(w) && Enabled(w, Resume(co))
    requires PhaseOf(w, co).Acquiring? ==> co !in w.cancelled
    ensures w.lock.owner == Frame(co) && PhaseOf(Step(w, Resume(co)), co).Inside?
    ensures Step(w, Resume(co)).lock == w.lock
  {
    assert CoOk(w, co);
  }

  /** A suspended coroutine is never lost: it owns the lock, is queued for it, waits for
      a notification, or is being handed in by a notification or its own cancellation. */
  lemma NobodyLost(w: World, co: nat)
    requires Inv(w) && Suspended(PhaseOf(w, co))
    ensures var x := Waiter(co, PhaseOf(w, co).epoch);
      || w.lock.owner == Frame(co) || HasWaiter(w.lock.queue, co) || HasWaiter(w.cond, co)
      || x in w.handing || Holds(w, co)
  {
    assert CoOk(w, co);
    CountPositive(w.lock.queue, co);
    CountPositive(w.cond, co);
  }

  /** The test for the queue, wherever other threads have got to since the cancellation
      began, keeps the invariant exactly when the waiter is in the queue or nowhere: not
      when it has been given the lock since the test for the owner, and not when a
      notification has it in hand. */
  lemma QueueTestExactly(w: World, co: nat)
    requires Inv(w) && Enabled(w, QueueTest(co))
    ensures Inv(Step(w, QueueTest(co))) <==> !Racing(w, co)
  {
    assert CoOk(w, co);
    CountPositive(w.lock.queue, co);
    if !Racing(w, co) {
      StepKeeps(w, QueueTest(co));
    } else {
      assert !CoOk(Step(w, QueueTest(co)), co);
    }
  }

  /** Every other step keeps the invariant, always. */
  lemma OtherStepsKeep(w: World, e: Event)
    requires Inv(w) && !e.QueueTest?
    ensures Inv(Step(w, e))
  {
    StepKeeps(w, e);
  }

  /** The invariant holds at every point of a run. */
  ghost predicate AlwaysOk(es: seq<Event>) {
    Inv(Run(Start, es)) && (es == [] || AlwaysOk(es[..|es| - 1]))
  }

  /** A run is in order all along exactly when no test for the queue in it is raced. */
  lemma {:induction false} InOrderExactly(es: seq<Event>)
    ensures AlwaysOk(es) <==> RaceFree(es)
  {
    if es == [] {
      EveryRunKeeps(es);
    } else {
      var init, e := es[..|es| - 1], es[|es| - 1];
      InOrderExactly(init);
      var w := Run(Start, init);
      if RaceFree(init) {
        EveryRunKeeps(init);
        if Race(w, e) { QueueTestExactly(w, e.co); } else { StepKeeps(w, e); }
      }
    }
  }

  function CancelThrough(w: World, co: nat): World {
    Step(Step(Step(Step(w, Cancel(co)), OwnerTest(co)), QueueTest(co)), GiveIn(co))
  }

  /** A cancellation that no other thread interrupts keeps the invariant exactly when no
      notification has the wait in hand as it begins. */
  lemma CancelKeepsExactly(w: World, co: nat)
    requires Inv(w) && Enabled(w, Cancel(co)) && PhaseOf(w, co).Waiting?
    ensures Inv(CancelThrough(w, co)) <==> Waiter(co, PhaseOf(w, co).epoch) !in w.handing
  {
    var x := Waiter(co, PhaseOf(w, co).epoch);
    var w1 := Step(w, Cancel(co));
    var w2 := Step(w1, OwnerTest(co));
    var w3 := Step(w2, QueueTest(co));
    assert CoOk(w, co);
    OtherStepsKeep(w, Cancel(co));
    OtherStepsKeep(w1, OwnerTest(co));
    if x in w.handing {
      HandedNowhere(w, co);
      assert w3 == w2.(asking := w2.asking[co := Giving]);
      GivenTwice(w3, co);
    } else {
      StepKeeps(w2, QueueTest(co));
      OtherStepsKeep(w3, GiveIn(co));
    }
  }

  lemma HandedNowhere(w: World, co: nat)
    requires Inv(w) && PhaseOf(w, co).Waiting? && Waiter(co, PhaseOf(w, co).epoch) in w.handing
    ensures w.lock.owner != Frame(co) && !HasWaiter(w.lock.queue, co) && !HasWaiter(w.cond, co)
  {
    assert CoOk(w, co);
    CountPositive(w.lock.queue, co);
    CountPositive(w.cond, co);
  }

  /** Handed in by its cancellation while a notification still has it, a waiter is in two places. */
  lemma GivenTwice(w: World, co: nat)
    requires LockOk(w) && Enabled(w, GiveIn(co)) && Waiter(co, PhaseOf(w, co).epoch) in w.handing
    ensures !Inv(Step(w, GiveIn(co)))
  {
    var x := Waiter(co, PhaseOf(w, co).epoch);
    var v := Step(w, GiveIn(co));
    CountAppend(w.lock.queue, x, co);
    assert v.handing == w.handing && PhaseOf(v, co) == PhaseOf(w, co);
    assert !CoOk(v, co);
  }

  // ---- Two runs that lose the lock ----

  lemma Then(es: seq<Event>, e: Event) returns (longer: seq<Event>)
    ensures Run(Start, longer) == Step(Run(Start, es), e)
  {
    longer := es + [e];
    assert longer[..|es|] == es;
  }

  const Wait1 := Waiter(1, 1)

  /** The lock with coroutine 1 suspended in its wait, and the others as they are. */
  function Idle(phase: map<nat, Phase>): World {
    World(LockState(false, Nobody, 0, []), [], phase, {}, {}, {}, multiset{}, map[], 1)
  }

  lemma Waited() returns (es: seq<Event>)
    ensures Run(Start, es) == Idle(map[1 := Waiting(1)]).(cond := [Wait1])
  {
    es := Then([], Acquire(1));
    assert Run(Start, es) == Start.(lock := LockState(true, Frame(1), 0, []), phase := map[1 := Inside]);
    es := Then(es, Wait(1));
    assert Run(Start, es) == Idle(map[1 := Leaving(1)]).(lock := LockState(true, Frame(1), 0, []), cond := [Wait1]);
    es := Then(es, LetGo(1));
  }

  /** Coroutine 1 owns the lock and is in its queue besides. */
  function Doubled(phase: map<nat, Phase>): World {
    Idle(phase).(lock := LockState(true, Frame(1), 0, [Wait1]), cancelled := {1}, posting := {Wait1})
  }

  function Lost(phase: map<nat, Phase>): World {
    Idle(phase).(lock := LockState(true, Frame(1), 0, []))
  }

  lemma LostAfterDoubling(es: seq<Event>, phase: map<nat, Phase>) returns (longer: seq<Event>)
    requires 1 in phase && phase[1] == Waiting(1) && Run(Start, es) == Doubled(phase)
    ensures Run(Start, longer) == Lost(phase[1 := Outside])
  {
    longer := Then(es, Post(Wait1));
    assert Run(Start, longer) == Doubled(phase).(posting := {}, scheduled := {1});
    longer := Then(longer, Resume(1));
    assert Run(Start, longer) == Idle(phase[1 := Inside]).(lock := LockState(true, Frame(1), 0, [Wait1]));
    longer := Then(longer, Release(1));
    assert phase[1 := Inside][1 := Outside] == phase[1 := Outside];
    assert Run(Start, longer) == Lost(phase[1 := Outside]).(posting := {Wait1});
    longer := Then(longer, Post(Wait1));
  }

  /** A notification has taken the waiter out when the cancellation asks: a run ends with
      the lock owned by a coroutine that has left it, with nothing scheduled and nothing
      on its way. */
  lemma LockLost() returns (es: seq<Event>)
    ensures Run(Start, es) == Lost(map[1 := Outside]) && Stuck(Run(Start, es))
  {
    var phase: map<nat, Phase> := map[1 := Waiting(1)];
    es := AskedInHand();
    es := DoubledInHand(es);
    es := LostAfterDoubling(es, phase);
    assert phase[1 := Outside] == map[1 := Outside];
    StuckWhenLost(map[1 := Outside]);
  }

  lemma StuckWhenLost(phase: map<nat, Phase>)
    requires 1 in phase && forall co :: co in phase ==> phase[co] == Outside
    ensures Stuck(Lost(phase))
  {
  }

  lemma DoubledInHand(es: seq<Event>) returns (longer: seq<Event>)
    requires Run(Start, es) ==
      Idle(map[1 := Waiting(1)]).(handing := multiset{Wait1}, cancelled := {1}, asking := map[1 := TestQueue(false)])
    ensures Run(Start, longer) == Doubled(map[1 := Waiting(1)])
  {
    var w := Idle(map[1 := Waiting(1)]).(handing := multiset{Wait1}, cancelled := {1});
    longer := Then(es, QueueTest(1));
    assert Run(Start, longer) == w.(asking := map[1 := Giving]);
    longer := Then(longer, GiveIn(1));
    assert Run(Start, longer) == w.(lock := LockState(true, Frame(1), 0, []), posting := {Wait1});
    longer := Then(longer, HandIn(Wait1));
  }

  lemma AskedInHand() returns (es: seq<Event>)
    ensures Run(Start, es) ==
      Idle(map[1 := Waiting(1)]).(handing := multiset{Wait1}, cancelled := {1}, asking := map[1 := TestQueue(false)])
  {
    es := Waited();
    es := Then(es, TakeOut);
    var w := Idle(map[1 := Waiting(1)]).(handing := multiset{Wait1});
    assert Run(Start, es) == w;
    es := Then(es, Cancel(1));
    assert Run(Start, es) == w.(cancelled := {1}, asking := map[1 := TestOwner(false)]);
    es := Then(es, OwnerTest(1));
  }

  /** No notification is under way, but a release gives the waiter the lock between the
      two tests of its cancellation: the same end. */
  lemma LockLostByRelease() returns (es: seq<Event>)
    ensures Run(Start, es) == Lost(map[1 := Outside, 2 := Outside]) && Stuck(Run(Start, es))
  {
    es := AskedInQueue();
    var left: map<nat, Phase> := map[1 := Waiting(1), 2 := Outside];
    es := GivenMeanwhile(es);
    es := DoubledByRelease(es);
    es := LostAfterDoubling(es, left);
    assert left[1 := Outside] == map[1 := Outside, 2 := Outside];
    StuckWhenLost(map[1 := Outside, 2 := Outside]);
  }

  lemma DoubledByRelease(es: seq<Event>) returns (longer: seq<Event>)
    requires Run(Start, es) == Idle(map[1 := Waiting(1), 2 := Outside]).(
      lock := LockState(true, Frame(1), 0, []), cancelled := {1}, posting := {Wait1}, asking := map[1 := TestQueue(false)])
    ensures Run(Start, longer) == Doubled(map[1 := Waiting(1), 2 := Outside])
  {
    var given := Idle(map[1 := Waiting(1), 2 := Outside]).(
      lock := LockState(true, Frame(1), 0, []), cancelled := {1}, posting := {Wait1});
    longer := Then(es, QueueTest(1));
    assert Run(Start, longer) == given.(asking := map[1 := Giving]);
    longer := Then(longer, GiveIn(1));
  }

  const Asked2 := Idle(map[1 := Waiting(1), 2 := Inside]).(
    lock := LockState(true, Frame(2), 0, [Wait1]), cancelled := {1}, asking := map[1 := TestQueue(false)])

  lemma AskedInQueue() returns (es: seq<Event>)
    ensures Run(Start, es) == Asked2
  {
    es := Notified();
    var w := Idle(map[1 := Waiting(1), 2 := Inside]).(lock := LockState(true, Frame(2), 0, [Wait1]));
    es := Then(es, Cancel(1));
    assert Run(Start, es) == w.(cancelled := {1}, asking := map[1 := TestOwner(false)]);
    es := Then(es, OwnerTest(1));
  }

  lemma GivenMeanwhile(es: seq<Event>) returns (longer: seq<Event>)
    requires Run(Start, es) == Asked2
    ensures Run(Start, longer) == Idle(map[1 := Waiting(1), 2 := Outside]).(
      lock := LockState(true, Frame(1), 0, []), cancelled := {1}, posting := {Wait1}, asking := map[1 := TestQueue(false)])
  {
    longer := Then(es, Release(2));
    assert map[1 := Waiting(1), 2 := Inside][2 := Outside] == map[1 := Waiting(1), 2 := Outside];
  }

  lemma Notified() returns (es: seq<Event>)
    ensures Run(Start, es) == Idle(map[1 := Waiting(1), 2 := Inside]).(lock := LockState(true, Frame(2), 0, [Wait1]))
  {
    es := Waited();
    es := Then(es, Acquire(2));
    var w := Idle(map[1 := Waiting(1), 2 := Inside]).(lock := LockState(true, Frame(2), 0, []));
    assert Run(Start, es) == w.(cond := [Wait1]);
    es := Then(es, TakeOut);
    assert Run(Start, es) == w.(handing := multiset{Wait1});
    es := Then(es, HandIn(Wait1));
  }

  /** From there on nobody else ever gets in, whatever the others do: coroutine 1 is the
      recorded owner and only its own next acquire or release could change that. */
  ghost predicate Stuck(w: World) {
    && w.lock.locked && w.lock.owner == Frame(1) && w.lock.recursion == 0 && PhaseOf(w, 1).Outside?
    && (forall co :: PhaseOf(w, co).Outside? || PhaseOf(w, co).Acquiring?)
    && w.scheduled <= w.cancelled
    && w.posting == {} && w.handing == multiset{} && w.cond == [] && w.asking == map[]
  }

  lemma StuckStays(w: World, e: Event)
    requires Stuck(w) && e != Acquire(1)
    ensures Stuck(Step(w, e))
  {
    forall co ensures PhaseOf(Step(w, e), co).Outside? || PhaseOf(Step(w, e), co).Acquiring? {
      assert PhaseOf(w, co).Outside? || PhaseOf(w, co).Acquiring?;
    }
  }
}
