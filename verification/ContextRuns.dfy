/**
 * What every run of cancellations, shields, waits and timers keeps.
 */
module ContextRuns {
  import opened Seqs
  import opened Context

  predicate InList(rs: seq<Rec>, a: nat) {
    exists i :: 0 <= i < |rs| && rs[i].wait == a
  }

  predicate InHand(walk: Walk, a: nat) {
    (walk.Holding? || walk.Waking?) && walk.r.wait == a
  }

  predicate ThroughBy(w: World, a: nat, side: Side) {
    (a, side) in w.through
  }

  predicate PhaseOk(x: Wait) {
    && (x.linked ==> x.phase.Added? || x.phase.Rechecked? || x.phase.Parked?)
    && (x.phase.Added? || x.phase.Rechecked? ==> x.linked)
    && (x.timer ==> x.phase.Parked?)
    && (x.phase.Ended? ==> x.phase.result != Pending)
    && (x.phase.Ended? && x.outcome == TimedOut ==> x.phase.result == TimedOut)
  }

  /** A record that is not in the list any more has been taken, and its wait is or will be scheduled. */
  predicate Tracked(w: World, a: nat, x: Wait) {
    && (InList(w.s.waiters, a) ==> x.linked)
    && (x.linked && !InList(w.s.waiters, a) ==> InHand(w.walk, a) || a in w.woken)
    && (x.phase.Parked? && !x.linked ==> a in w.woken && w.s.cancelled)
    && (w.walk.Over? && InList(w.s.waiters, a) ==> x.phase.Added?)
  }

  /** An outcome is settled once, and only the side that settles it schedules through it. */
  predicate Settled(w: World, a: nat, x: Wait) {
    && (ThroughBy(w, a, ByTimer) <==> x.outcome == TimedOut)
    && (ThroughBy(w, a, ByCancel) <==> x.outcome == Cancelled && !(w.walk.Waking? && w.walk.r.wait == a))
    && (w.walk.Waking? && w.walk.r.wait == a ==> x.outcome == Cancelled)
    && (x.outcome == TimedOut ==> a in w.woken)
    && (ThroughBy(w, a, ByCancel) ==> a in w.woken)
    && (x.outcome == Cancelled || x.phase == Ended(Cancelled) ==> w.s.cancelled)
  }

  predicate WaitOk(w: World, a: nat) {
    if a in w.waits then PhaseOk(w.waits[a]) && Tracked(w, a, w.waits[a]) && Settled(w, a, w.waits[a])
    else !InList(w.s.waiters, a) && !InHand(w.walk, a) && !ThroughBy(w, a, ByTimer) && !ThroughBy(w, a, ByCancel)
  }

  predicate RecOk(w: World, r: Rec) {
    r.wait in w.waits && w.waits[r.wait].frame == r.frame
  }

  predicate ListOk(w: World) {
    && (forall i :: 0 <= i < |w.s.waiters| ==> RecOk(w, w.s.waiters[i]))
    && (forall i, j :: 0 <= i < j < |w.s.waiters| ==> w.s.waiters[i].wait != w.s.waiters[j].wait)
  }

  predicate OneBusy(w: World) {
    forall a, b :: a in w.waits && b in w.waits && a != b && Active(w.waits[a]) && Active(w.waits[b]) ==> w.waits[a].frame != w.waits[b].frame
  }

  predicate OnceThrough(w: World) {
    forall i, j :: 0 <= i < j < |w.through| ==> w.through[i].0 != w.through[j].0
  }

  /** A request is never lost: it has taken effect, or a shield still holds it back. */
  predicate SourceOk(w: World) {
    && (w.s.deferred ==> w.s.depth > 0)
    && (w.requested ==> w.s.cancelled || w.s.deferred)
    && (w.s.cancelled <==> !w.walk.NotStarted?)
    && (w.walk.Holding? || w.walk.Waking? ==> RecOk(w, w.walk.r))
  }

  ghost predicate Inv(w: World) {
    SourceOk(w) && ListOk(w) && OneBusy(w) && OnceThrough(w) && forall a: nat :: WaitOk(w, a)
  }

  // ---- Lists of records ----

  lemma InListSnoc(rs: seq<Rec>, r: Rec, a: nat)
    ensures InList(rs + [r], a) <==> InList(rs, a) || a == r.wait
  {
    if InList(rs, a) {
      var i :| 0 <= i < |rs| && rs[i].wait == a;
      assert (rs + [r])[i].wait == a;
    }
    assert (rs + [r])[|rs|] == r;
  }

  lemma InListFront(rs: seq<Rec>, a: nat)
    requires rs != []
    ensures InList(rs, a) <==> InList(rs[..|rs| - 1], a) || a == rs[|rs| - 1].wait
  {
    InListSnoc(rs[..|rs| - 1], rs[|rs| - 1], a);
    assert rs == rs[..|rs| - 1] + [rs[|rs| - 1]];
  }

  lemma WithoutOne(rs: seq<Rec>, k: nat, b: nat)
    requires k < |rs| && forall i, j :: 0 <= i < j < |rs| ==> rs[i].wait != rs[j].wait
    ensures InList(RemoveAt(rs, k), b) <==> InList(rs, b) && b != rs[k].wait
  {
    var rest := RemoveAt(rs, k);
    if InList(rs, b) && b != rs[k].wait {
      var i :| 0 <= i < |rs| && rs[i].wait == b;
      assert rest[if i < k then i else i - 1] == rs[i];
    }
    if InList(rest, b) {
      var i :| 0 <= i < |rest| && rest[i].wait == b;
      assert rest[i] == rs[if i < k then i else i + 1];
    }
  }

  /** Unlinking by frame takes out exactly the record of the frame's active wait. */
  lemma DropExactly(w: World, a: nat, b: nat)
    requires Inv(w) && a in w.waits && w.waits[a].linked
    ensures InList(DropWaiter(w.s, w.waits[a].frame).waiters, b) <==> InList(w.s.waiters, b) && a != b
  {
    var rs, f := w.s.waiters, w.waits[a].frame;
    var k := FrameIndex(rs, f);
    assert WaitOk(w, a);
    if k < |rs| {
      assert RecOk(w, rs[k]) && InList(rs, rs[k].wait) && WaitOk(w, rs[k].wait);
      assert rs[k].wait == a;
      WithoutOne(rs, k, b);
    } else {
      NotFound(w, f, a);
    }
  }

  lemma NotFound(w: World, frame: nat, a: nat)
    requires ListOk(w) && FrameIndex(w.s.waiters, frame) == |w.s.waiters| && a in w.waits && w.waits[a].frame == frame
    ensures !InList(w.s.waiters, a)
  {
    forall i | 0 <= i < |w.s.waiters| ensures w.s.waiters[i].wait != a { assert RecOk(w, w.s.waiters[i]); }
  }

  /** Once the walk is over, what is in the list was linked too late for it. */
  lemma TooLateForWalk(w: World, i: nat)
    requires Inv(w) && w.walk.Over? && i < |w.s.waiters|
    ensures w.s.waiters[i].wait in w.waits && w.waits[w.s.waiters[i].wait].phase.Added?
  {
    var a := w.s.waiters[i].wait;
    assert InList(w.s.waiters, a) && WaitOk(w, a);
  }

  lemma DropList(w: World, frame: nat)
    requires ListOk(w)
    ensures forall i :: 0 <= i < |DropWaiter(w.s, frame).waiters| ==> DropWaiter(w.s, frame).waiters[i] in w.s.waiters
    ensures
      var rs := DropWaiter(w.s, frame).waiters;
      forall i, j :: 0 <= i < j < |rs| ==> rs[i].wait != rs[j].wait
  {
    var k := FrameIndex(w.s.waiters, frame);
    if k < |w.s.waiters| {
      var rs, rest := w.s.waiters, RemoveAt(w.s.waiters, k);
      assert forall i :: 0 <= i < |rest| ==> rest[i] == rs[if i < k then i else i + 1];
    }
  }

  // ---- The source ----

  lemma SourceKeeps(w: World, e: Event)
    requires Inv(w)
    ensures Inv(SourceStep(w, e))
  {
    var w' := SourceStep(w, e);
    forall a: nat ensures WaitOk(w', a) { assert WaitOk(w, a); }
    forall i | 0 <= i < |w'.s.waiters| ensures RecOk(w', w'.s.waiters[i]) { assert RecOk(w, w.s.waiters[i]); }
  }

  // ---- The walk ----

  lemma TakeKeeps(w: World)
    requires Inv(w)
    ensures Inv(WalkStep(w, WalkTake))
  {
    var w' := WalkStep(w, WalkTake);
    if w.walk.Looking? {
      var rs := w.s.waiters;
      if rs != [] {
        assert RecOk(w, rs[|rs| - 1]);
        forall i | 0 <= i < |w'.s.waiters| ensures RecOk(w', w'.s.waiters[i]) { assert RecOk(w, rs[i]); }
      }
      forall a: nat ensures WaitOk(w', a) {
        assert WaitOk(w, a);
        if rs != [] { InListFront(rs, a); }
      }
    }
  }

  lemma SettleKeeps(w: World)
    requires Inv(w)
    ensures Inv(WalkStep(w, WalkSettle))
  {
    var w' := WalkStep(w, WalkSettle);
    if w.walk.Holding? && w.walk.r.wait in w.waits {
      assert WaitOk(w, w.walk.r.wait);
      forall a: nat ensures WaitOk(w', a) { assert WaitOk(w, a); }
      forall i | 0 <= i < |w'.s.waiters| ensures RecOk(w', w'.s.waiters[i]) { assert RecOk(w, w.s.waiters[i]); }
    }
  }

  lemma ThroughMore(w: World, w': World, a: nat, side: Side, b: nat, other: Side)
    requires w'.through == w.through + [(a, side)]
    ensures ThroughBy(w', b, other) <==> ThroughBy(w, b, other) || (a, side) == (b, other)
  {
  }

  lemma OnceMore(w: World, w': World, a: nat, side: Side)
    requires OnceThrough(w) && w'.through == w.through + [(a, side)]
    requires !ThroughBy(w, a, ByTimer) && !ThroughBy(w, a, ByCancel)
    ensures OnceThrough(w')
  {
    forall i | 0 <= i < |w.through| ensures w.through[i].0 != a {
      assert w.through[i] in w.through;
      assert w.through[i].1 == ByTimer || w.through[i].1 == ByCancel;
    }
  }

  lemma WalkWakeKeeps(w: World)
    requires Inv(w)
    ensures Inv(WalkStep(w, WalkWake))
  {
    var w' := WalkStep(w, WalkWake);
    if w.walk.Waking? {
      var b := w.walk.r.wait;
      assert WaitOk(w, b);
      OnceMore(w, w', b, ByCancel);
      forall a: nat ensures WaitOk(w', a) {
        assert WaitOk(w, a);
        ThroughMore(w, w', b, ByCancel, a, ByTimer);
        ThroughMore(w, w', b, ByCancel, a, ByCancel);
      }
      forall i | 0 <= i < |w'.s.waiters| ensures RecOk(w', w'.s.waiters[i]) { assert RecOk(w, w.s.waiters[i]); }
    }
  }

  // ---- Waits ----

  /** A step that changes one wait, keeping its frame, and touches neither the list nor the walk. */
  lemma OneWait(w: World, w': World, a: nat)
    requires Inv(w) && a in w'.waits && w'.s == w.s && w'.walk == w.walk && w'.requested == w.requested
    requires w'.waits == w.waits[a := w'.waits[a]] && (a in w.waits ==> w.waits[a].frame == w'.waits[a].frame)
    requires w.woken <= w'.woken && w'.through == w.through
    requires WaitOk(w', a) && (a in w.waits ==> (Active(w'.waits[a]) ==> Active(w.waits[a])))
    requires a !in w.waits ==> !FrameBusy(w, w'.waits[a].frame) || !Active(w'.waits[a])
    ensures Inv(w')
  {
    forall b: nat ensures WaitOk(w', b) {
      assert WaitOk(w, b);
    }
    forall i | 0 <= i < |w'.s.waiters| ensures RecOk(w', w'.s.waiters[i]) { assert RecOk(w, w.s.waiters[i]); }
    if a !in w.waits { assert WaitOk(w, a); }
  }

  lemma BeginKeeps(w: World, a: nat, f: nat, hasDeadline: bool)
    requires Inv(w)
    ensures Inv(WaitStep(w, Begin(a, f, hasDeadline)))
  {
    var w' := WaitStep(w, Begin(a, f, hasDeadline));
    if w' != w {
      assert WaitOk(w, a);
      OneWait(w, w', a);
    }
  }

  lemma LinkKeeps(w: World, a: nat)
    requires Inv(w)
    ensures Inv(WaitStep(w, Link(a)))
  {
    var w' := WaitStep(w, Link(a));
    if a in w.waits && w.waits[a].phase.Checked? {
      var r := Rec(w.waits[a].frame, a);
      assert WaitOk(w, a);
      forall b: nat ensures WaitOk(w', b) {
        assert WaitOk(w, b);
        InListSnoc(w.s.waiters, r, b);
      }
      forall i | 0 <= i < |w'.s.waiters| ensures RecOk(w', w'.s.waiters[i]) {
        if i < |w.s.waiters| { assert RecOk(w, w.s.waiters[i]); }
      }
      forall i, j | 0 <= i < j < |w'.s.waiters| ensures w'.s.waiters[i].wait != w'.s.waiters[j].wait {
        if j == |w.s.waiters| { assert InList(w.s.waiters, w.s.waiters[i].wait); }
      }
    }
  }

  /** Retiring a wait unlinks its own record and nobody else's. */
  lemma RetireKeeps(w: World, a: nat, phase: Phase, woken: set<nat>)
    requires Inv(w) && a in w.waits && (woken == w.woken || woken == w.woken + {a})
    requires phase.Retired? || phase.Destroyed? || (phase.Parked? && a in woken && w.s.cancelled && Active(w.waits[a]))
    requires !w.waits[a].phase.Ended? && !w.waits[a].phase.Destroyed?
    ensures Inv(RetireTo(w, a, phase).(woken := woken))
  {
    var x := w.waits[a];
    var w' := RetireTo(w, a, phase).(woken := woken);
    DropList(w, x.frame);
    assert WaitOk(w, a);
    forall b: nat ensures WaitOk(w', b) {
      assert WaitOk(w, b);
      if x.linked { DropExactly(w, a, b); }
    }
    forall i | 0 <= i < |w'.s.waiters| ensures RecOk(w', w'.s.waiters[i]) {
      assert w'.s.waiters[i] in w.s.waiters;
    }
  }

  lemma RecheckKeeps(w: World, a: nat)
    requires Inv(w)
    ensures Inv(WaitStep(w, Recheck(a)))
  {
    var w' := WaitStep(w, Recheck(a));
    if a in w.waits && w.waits[a].phase.Added? {
      assert WaitOk(w, a);
      if w.s.cancelled {
        RetireKeeps(w, a, Parked, w.woken + {a});
        assert w' == RetireTo(w, a, Parked).(woken := w.woken + {a});
      } else {
        OneWait(w, w', a);
      }
    }
  }

  lemma FireKeeps(w: World, a: nat)
    requires Inv(w)
    ensures Inv(WaitStep(w, Fire(a)))
  {
    var w' := WaitStep(w, Fire(a));
    if w' != w {
      assert WaitOk(w, a);
      if w.waits[a].outcome != Pending {
        OneWait(w, w', a);
      } else {
        OnceMore(w, w', a, ByTimer);
        forall b: nat ensures WaitOk(w', b) {
          assert WaitOk(w, b);
          ThroughMore(w, w', a, ByTimer, b, ByTimer);
          ThroughMore(w, w', a, ByTimer, b, ByCancel);
        }
        forall i | 0 <= i < |w'.s.waiters| ensures RecOk(w', w'.s.waiters[i]) { assert RecOk(w, w.s.waiters[i]); }
      }
    }
  }

  lemma WaitKeeps(w: World, e: Event)
    requires Inv(w)
    ensures Inv(WaitStep(w, e))
  {
    var w' := WaitStep(w, e);
    match e
    case Begin(a, f, hasDeadline) => BeginKeeps(w, a, f, hasDeadline);
    case Link(a) => LinkKeeps(w, a);
    case Recheck(a) => RecheckKeeps(w, a);
    case Fire(a) => FireKeeps(w, a);
    case Arm(a) =>
      if w' != w {
        assert WaitOk(w, a);
        OneWait(w, w', a);
      }
    case Wake(a) =>
      if a in w.waits {
        assert WaitOk(w, a);
        assert w'.waits == w.waits[a := w.waits[a]];
        OneWait(w, w', a);
      }
    case Retire(a) =>
      if w' != w {
        RetireKeeps(w, a, Retired, w.woken);
        assert w' == RetireTo(w, a, Retired).(woken := w.woken);
      }
    case Judge(a) =>
      if w' != w {
        assert WaitOk(w, a);
        OneWait(w, w', a);
      }
    case Destroy(a) =>
      if w' != w {
        RetireKeeps(w, a, Destroyed, w.woken);
        assert w' == RetireTo(w, a, Destroyed).(woken := w.woken);
      }
    case _ =>
  }

  // ---- Runs ----

  lemma StepKeeps(w: World, e: Event)
    requires Inv(w)
    ensures Inv(Step(w, e))
  {
    SourceKeeps(w, e);
    TakeKeeps(w);
    SettleKeeps(w);
    WalkWakeKeeps(w);
    WaitKeeps(w, e);
  }

  lemma InitInv()
    ensures Inv(Init())
  {
    forall a: nat ensures WaitOk(Init(), a) { }
  }

  /** Every run keeps the invariant. */
  lemma {:induction false} EveryRunKeeps(events: seq<Event>)
    ensures Inv(Run(events))
    decreases |events|
  {
    InitInv();
    if events != [] {
      EveryRunKeeps(events[..|events| - 1]);
      StepKeeps(Run(events[..|events| - 1]), events[|events| - 1]);
    }
  }

  /**
   * Once the walk is over and no wait stands between linking and its second
   * look, the list is empty and every parked wait has been scheduled.
   */
  lemma NobodyLeft(events: seq<Event>)
    requires Run(events).walk.Over? && forall a :: a in Run(events).waits ==> !Run(events).waits[a].phase.Added?
    ensures Run(events).s.waiters == []
    ensures forall a :: a in Run(events).waits && Run(events).waits[a].phase.Parked? ==> a in Run(events).woken
  {
    EveryRunKeeps(events);
    var w := Run(events);
    if w.s.waiters != [] { TooLateForWalk(w, 0); }
    forall a | a in w.waits && w.waits[a].phase.Parked? ensures a in w.woken { assert WaitOk(w, a); }
  }

  /** A wait is scheduled through its outcome at most once, by the side that settled it. */
  lemma OneSide(events: seq<Event>, i: nat, j: nat)
    requires i < |Run(events).through| && j < |Run(events).through| && Run(events).through[i].0 == Run(events).through[j].0
    ensures i == j && Run(events).through[i].0 in Run(events).waits
    ensures
      var (a, side) := Run(events).through[i];
      Run(events).waits[a].outcome == if side == ByTimer then TimedOut else Cancelled
  {
    EveryRunKeeps(events);
    var w := Run(events);
    var (a, side) := w.through[i];
    assert w.through[i] in w.through && ThroughBy(w, a, side) && WaitOk(w, a);
  }

  /** A request outlives every shield: with none left, it has taken effect. */
  lemma RequestHeld(events: seq<Event>)
    requires Run(events).requested && Run(events).s.depth == 0
    ensures Run(events).s.cancelled
  {
    EveryRunKeeps(events);
  }

  /** A settled outcome never changes, and what a wait reports does not depend on what comes after. */
  lemma OutcomeStays(w: World, e: Event, a: nat)
    requires a in w.waits
    ensures a in Step(w, e).waits
    ensures w.waits[a].outcome != Pending ==> Step(w, e).waits[a].outcome == w.waits[a].outcome
    ensures w.waits[a].phase.Ended? ==> Step(w, e).waits[a].phase == w.waits[a].phase
  {
  }

  /** A wait that timed out first reports the timeout, whatever is cancelled later; a reported cancellation did happen. */
  lemma FirstReason(events: seq<Event>, a: nat)
    requires a in Run(events).waits && Run(events).waits[a].phase.Ended?
    ensures Run(events).waits[a].outcome == TimedOut ==> Run(events).waits[a].phase == Ended(TimedOut)
    ensures Run(events).waits[a].phase == Ended(Cancelled) ==> Run(events).s.cancelled
  {
    EveryRunKeeps(events);
    assert WaitOk(Run(events), a);
  }

  // ---- A record that has been taken ----

  lemma {:induction false} RunThen(es: seq<Event>, e: Event)
    ensures Run(es + [e]) == Step(Run(es), e)
  {
    assert (es + [e])[..|es|] == es;
  }

  function RunFrom(w: World, es: seq<Event>): World
    decreases |es|
  {
    if es == [] then w else Step(RunFrom(w, es[..|es| - 1]), es[|es| - 1])
  }

  lemma {:induction false} RunOn(events: seq<Event>, es: seq<Event>)
    ensures Run(events + es) == RunFrom(Run(events), es)
    decreases |es|
  {
    if es == [] {
      assert events + es == events;
    } else {
      var n := |es| - 1;
      RunOn(events, es[..n]);
      RunThen(events + es[..n], es[n]);
      assert events + es == (events + es[..n]) + [es[n]];
    }
  }

  /** The wait no longer suspends its frame: it has been retired, has reported, or its frame is gone. */
  predicate Finished(w: World, a: nat) {
    a in w.waits && !Active(w.waits[a])
  }

  /** The walk has taken the wait's record and has not found it settled. */
  predicate Grasped(w: World, a: nat) {
    InHand(w.walk, a) && a in w.waits && (w.walk.Holding? ==> w.waits[a].outcome == Pending)
  }

  /** The events `es`, coming after `events`, make the walk schedule the frame of wait `a`. */
  ghost predicate WalkSchedules(events: seq<Event>, es: seq<Event>, a: nat) {
    !ThroughBy(Run(events), a, ByCancel) && ThroughBy(Run(events + es), a, ByCancel)
  }

  /** Out of the walk's hands a finished wait stays out of them, and is not scheduled by it. */
  lemma StaysOut(w: World, e: Event, a: nat)
    requires Inv(w) && Finished(w, a) && !Grasped(w, a)
    ensures Finished(Step(w, e), a) && !Grasped(Step(w, e), a)
    ensures ThroughBy(Step(w, e), a, ByCancel) <==> ThroughBy(w, a, ByCancel)
  {
    assert WaitOk(w, a);
    if e.WalkTake? && w.walk.Looking? && w.s.waiters != [] {
      InListFront(w.s.waiters, a);
    }
  }

  lemma {:induction false} StaysOutRun(w: World, es: seq<Event>, a: nat)
    requires Inv(w) && Finished(w, a) && !Grasped(w, a)
    ensures Inv(RunFrom(w, es)) && Finished(RunFrom(w, es), a) && !Grasped(RunFrom(w, es), a)
    ensures ThroughBy(RunFrom(w, es), a, ByCancel) <==> ThroughBy(w, a, ByCancel)
    decreases |es|
  {
    if es != [] {
      StaysOutRun(w, es[..|es| - 1], a);
      StepKeeps(RunFrom(w, es[..|es| - 1]), es[|es| - 1]);
      StaysOut(RunFrom(w, es[..|es| - 1]), es[|es| - 1], a);
    }
  }

  /** Left alone, the walk schedules the frame whose record it has taken, whatever became of the wait. */
  lemma WalkGoesOn(events: seq<Event>, a: nat) returns (es: seq<Event>)
    requires Grasped(Run(events), a)
    ensures WalkSchedules(events, es, a)
  {
    EveryRunKeeps(events);
    var w := Run(events);
    assert WaitOk(w, a);
    es := if w.walk.Waking? then [WalkWake] else [WalkSettle] + [WalkWake];
    var v := if w.walk.Waking? then w else Step(w, WalkSettle);
    if w.walk.Waking? {
      RunThen(events, WalkWake);
    } else {
      RunThen(events, WalkSettle);
      RunThen(events + [WalkSettle], WalkWake);
      assert events + es == (events + [WalkSettle]) + [WalkWake];
    }
    var r := Step(v, WalkWake);
    assert r.through[|v.through|] == (a, ByCancel);
  }

  /**
   * The frame of a wait that is over (retired, reported or destroyed) is still
   * scheduled by the walk in some continuation exactly when the walk has taken
   * its record and has not found it settled.
   */
  lemma {:induction false} LateWakeExactly(events: seq<Event>, a: nat)
    requires Finished(Run(events), a)
    ensures (exists es :: WalkSchedules(events, es, a)) <==> Grasped(Run(events), a)
  {
    EveryRunKeeps(events);
    if Grasped(Run(events), a) {
      var es := WalkGoesOn(events, a);
    } else {
      forall es: seq<Event> ensures !WalkSchedules(events, es, a) {
        StaysOutRun(Run(events), es, a);
        RunOn(events, es);
      }
    }
  }

  /**
   * So ending a wait, by resuming it or by destroying its frame, leaves a
   * late schedule behind exactly when the walk has taken its record and not
   * found it settled. Unlinking the record does not call it back.
   */
  lemma {:induction false} EndsWaitExactly(events: seq<Event>, e: Event, a: nat)
    requires e == Retire(a) || e == Destroy(a)
    requires a in Run(events).waits && Active(Run(events).waits[a]) && Finished(Step(Run(events), e), a)
    ensures (exists es :: WalkSchedules(events + [e], es, a)) <==> Grasped(Run(events), a)
  {
    RunThen(events, e);
    LateWakeExactly(events + [e], a);
  }

  /** A parked wait of frame 7, in the list; `woken` says whether something else has made it resumable. */
  ghost function ParkedRun(woken: bool): seq<Event> {
    [Begin(0, 7, false), Link(0), Recheck(0), Arm(0)] + if woken then [Wake(0)] else []
  }

  ghost function ParkedWorld(woken: bool): World {
    World(Source(false, [Rec(7, 0)], 0, false), NotStarted, map[0 := Wait(7, false, Parked, Pending, true, false)],
      if woken then {0} else {}, [], false)
  }

  lemma {:induction false} ParkedReached(woken: bool)
    ensures Run(ParkedRun(woken)) == ParkedWorld(woken)
  {
    var e1 := [] + [Begin(0, 7, false)];
    var e2 := e1 + [Link(0)];
    var e3 := e2 + [Recheck(0)];
    var e4 := e3 + [Arm(0)];
    RunThen([], Begin(0, 7, false));
    RunThen(e1, Link(0));
    RunThen(e2, Recheck(0));
    RunThen(e3, Arm(0));
    assert Run(e4) == ParkedWorld(false);
    RunThen(e4, Wake(0));
    assert ParkedRun(woken) == if woken then e4 + [Wake(0)] else e4;
  }

  /** The source is cancelled and the walk takes the record. */
  ghost function TakenRun(woken: bool): seq<Event> {
    ParkedRun(woken) + [Cancel] + [WalkTake]
  }

  lemma {:induction false} TakenReached(woken: bool)
    ensures
      Run(TakenRun(woken)) ==
      ParkedWorld(woken).(s := Source(true, [], 0, false), walk := Holding(Rec(7, 0)), requested := true)
  {
    ParkedReached(woken);
    RunThen(ParkedRun(woken), Cancel);
    RunThen(ParkedRun(woken) + [Cancel], WalkTake);
  }

  /** A run that gets there: the frame of a parked wait is destroyed while the walk holds its record, and is then scheduled. */
  lemma {:induction false} WokenAfterEnd() returns (events: seq<Event>, es: seq<Event>)
    ensures 0 in Run(events).waits && Run(events).waits[0].phase.Destroyed? && WalkSchedules(events, es, 0)
  {
    TakenReached(false);
    events := TakenRun(false) + [Destroy(0)];
    RunThen(TakenRun(false), Destroy(0));
    es := WalkGoesOn(events, 0);
  }

  /** And one with a live frame: the wait was woken and has reported its result, and then the walk schedules its frame. */
  lemma {:induction false} WokenAfterReport() returns (events: seq<Event>, es: seq<Event>)
    ensures 0 in Run(events).waits && Run(events).waits[0].phase == Ended(Cancelled) && WalkSchedules(events, es, 0)
  {
    TakenReached(true);
    var e1 := TakenRun(true) + [Retire(0)];
    events := e1 + [Judge(0)];
    RunThen(TakenRun(true), Retire(0));
    RunThen(e1, Judge(0));
    es := WalkGoesOn(events, 0);
  }
}
