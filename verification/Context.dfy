/**
 * Cancellation contexts (include/coro/context.hpp): one source with its
 * waiters, its shields and the single walk that wakes them, interleaved with
 * waits on their own loops and with their timers.
 *
 * A step is one atomic access or one critical section. A wait's record goes
 * through a frame; a frame has at most one wait at a time.
 */
module Context {
  import opened Seqs

  datatype Rec = Rec(frame: nat, wait: nat)

  /** `cancellation_state`. */
  datatype Source = Source(cancelled: bool, waiters: seq<Rec>, depth: nat, deferred: bool)

  // ---- The source's critical sections ----

  /** A request under a shield is only noted; the first other one takes effect. */
  function ClaimShielded(s: Source): (Source, bool) {
    if s.depth > 0 then (s.(deferred := true), false)
    else if s.cancelled then (s, false)
    else (s.(cancelled := true), true)
  }

  function ShieldEnter(s: Source): Source {
    s.(depth := s.depth + 1)
  }

  /** The last shield out carries out a noted request. */
  function ShieldExit(s: Source): (Source, bool) {
    var t := if s.depth > 0 then s.(depth := s.depth - 1) else s;
    if t.depth == 0 && t.deferred then
      (t.(deferred := false, cancelled := true), !t.cancelled)
    else (t, false)
  }

  datatype Taken = NoRec | Took(r: Rec)

  function TakeWaiter(s: Source): (Source, Taken) {
    if s.waiters == [] then (s, NoRec)
    else (s.(waiters := s.waiters[..|s.waiters| - 1]), Took(s.waiters[|s.waiters| - 1]))
  }

  function AddWaiter(s: Source, r: Rec): Source {
    s.(waiters := s.waiters + [r])
  }

  function FrameIndex(rs: seq<Rec>, frame: nat): (k: nat)
    ensures k <= |rs|
    ensures k < |rs| ==> rs[k].frame == frame
    ensures forall i :: 0 <= i < k ==> rs[i].frame != frame
  {
    if rs == [] || rs[0].frame == frame then 0 else 1 + FrameIndex(rs[1..], frame)
  }

  function DropWaiter(s: Source, frame: nat): Source {
    var k := FrameIndex(s.waiters, frame);
    if k < |s.waiters| then s.(waiters := RemoveAt(s.waiters, k)) else s
  }

  /** The source as an object, shared by its tokens and waits. */
  class CancellationState {
    var cancelled: bool
    var waiters: seq<Rec>
    var depth: nat
    var deferred: bool

    function Abs(): Source
      reads this
    {
      Source(cancelled, waiters, depth, deferred)
    }

    constructor ()
      ensures Abs() == Source(false, [], 0, false)
    {
      cancelled, waiters, depth, deferred := false, [], 0, false;
    }

    method ClaimCancelShielded() returns (won: bool)
      modifies this`cancelled, this`deferred
      ensures (Abs(), won) == ClaimShielded(old(Abs()))
    {
      if depth > 0 {
        deferred := true;
        return false;
      }
      if cancelled { return false; }
      cancelled := true;
      return true;
    }

    method EnterShield()
      modifies this`depth
      ensures Abs() == ShieldEnter(old(Abs()))
    {
      depth := depth + 1;
    }

    method ExitShield() returns (won: bool)
      modifies this`cancelled, this`deferred, this`depth
      ensures (Abs(), won) == ShieldExit(old(Abs()))
    {
      if depth > 0 { depth := depth - 1; }
      if depth == 0 && deferred {
        deferred := false;
        won := !cancelled;
        cancelled := true;
        return;
      }
      return false;
    }

    method TakeOne() returns (t: Taken)
      modifies this`waiters
      ensures (Abs(), t) == TakeWaiter(old(Abs()))
    {
      if waiters == [] { return NoRec; }
      t := Took(waiters[|waiters| - 1]);
      waiters := waiters[..|waiters| - 1];
    }

    method Add(r: Rec)
      modifies this`waiters
      ensures Abs() == AddWaiter(old(Abs()), r)
    {
      waiters := waiters + [r];
    }

    method Drop(frame: nat)
      modifies this`waiters
      ensures Abs() == DropWaiter(old(Abs()), frame)
    {
      var k := 0;
      while k < |waiters|
        invariant 0 <= k <= |waiters| && Abs() == old(Abs())
        invariant forall i :: 0 <= i < k ==> waiters[i].frame != frame
      {
        if waiters[k].frame == frame {
          assert k == FrameIndex(waiters, frame);
          waiters := RemoveAt(waiters, k);
          return;
        }
        k := k + 1;
      }
    }
  }

  // ---- Waits, the walk, and the machine ----

  datatype Outcome = Pending | Cancelled | TimedOut

  /** Where a wait is: checked, linked, re-checked, parked, unlinked again, ended, or destroyed. */
  datatype Phase = Checked | Added | Rechecked | Parked | Retired | Ended(result: Outcome) | Destroyed

  /** `linked`: the awaiter still has to unlink its record; `timer`: its timer entry is armed and its token clear. */
  datatype Wait = Wait(frame: nat, hasDeadline: bool, phase: Phase, outcome: Outcome, linked: bool, timer: bool)

  /** `wake_waiters`: there is only one walk, by whoever made the cancellation effective. */
  datatype Walk = NotStarted | Looking | Holding(r: Rec) | Waking(r: Rec) | Over

  datatype Side = ByCancel | ByTimer

  /** `woken`: waits whose frame has been scheduled; `through`: who scheduled a wait through its outcome. */
  datatype World = World(s: Source, walk: Walk, waits: map<nat, Wait>, woken: set<nat>, through: seq<(nat, Side)>, requested: bool)

  datatype Event =
    | Cancel | Enter | Exit
    | WalkTake | WalkSettle | WalkWake
    | Begin(wait: nat, frame: nat, hasDeadline: bool) | Link(wait: nat) | Recheck(wait: nat) | Arm(wait: nat)
    | Fire(wait: nat) | Wake(wait: nat) | Retire(wait: nat) | Judge(wait: nat) | Destroy(wait: nat)

  predicate Active(w: Wait) {
    w.phase.Checked? || w.phase.Added? || w.phase.Rechecked? || w.phase.Parked?
  }

  predicate FrameBusy(w: World, frame: nat) {
    exists a :: a in w.waits && w.waits[a].frame == frame && Active(w.waits[a])
  }

  function SetWait(w: World, a: nat, x: Wait): World {
    w.(waits := w.waits[a := x])
  }

  /** `retire`: the timer's token is set and the record is unlinked. */
  function RetireTo(w: World, a: nat, phase: Phase): World
    requires a in w.waits
  {
    var x := w.waits[a];
    SetWait(w.(s := if x.linked then DropWaiter(w.s, x.frame) else w.s), a, x.(phase := phase, linked := false, timer := false))
  }

  function Verdict(w: World, x: Wait): Outcome {
    if x.outcome != Pending then x.outcome else if w.s.cancelled then Cancelled else TimedOut
  }

  function SourceStep(w: World, e: Event): World {
    match e
    case Cancel =>
      var (s, won) := ClaimShielded(w.s);
      w.(s := s, requested := true, walk := if won then Looking else w.walk)
    case Enter => w.(s := ShieldEnter(w.s))
    case Exit =>
      var (s, won) := ShieldExit(w.s);
      w.(s := s, walk := if won then Looking else w.walk)
    case _ => w
  }

  function WalkStep(w: World, e: Event): World {
    match e
    case WalkTake =>
      if !w.walk.Looking? then w else
      var (s, t) := TakeWaiter(w.s);
      w.(s := s, walk := if t.NoRec? then Over else Holding(t.r))
    case WalkSettle =>
      if !w.walk.Holding? || w.walk.r.wait !in w.waits then w else
      var a := w.walk.r.wait;
      if w.waits[a].outcome != Pending then w.(walk := Looking)
      else SetWait(w.(walk := Waking(w.walk.r)), a, w.waits[a].(outcome := Cancelled))
    case WalkWake =>
      if !w.walk.Waking? then w else
      w.(walk := Looking, woken := w.woken + {w.walk.r.wait}, through := w.through + [(w.walk.r.wait, ByCancel)])
    case _ => w
  }

  function WaitStep(w: World, e: Event): World {
    match e
    case Begin(a, f, hasDeadline) =>
      if a in w.waits || FrameBusy(w, f) then w
      else SetWait(w, a, Wait(f, hasDeadline, if w.s.cancelled then Retired else Checked, Pending, false, false))
    case Link(a) =>
      if a !in w.waits || !w.waits[a].phase.Checked? then w
      else SetWait(w.(s := AddWaiter(w.s, Rec(w.waits[a].frame, a))), a, w.waits[a].(phase := Added, linked := true))
    case Recheck(a) =>
      if a !in w.waits || !w.waits[a].phase.Added? then w
      else if w.s.cancelled then RetireTo(w, a, Parked).(woken := w.woken + {a})
      else SetWait(w, a, w.waits[a].(phase := Rechecked))
    case Arm(a) =>
      if a !in w.waits || !w.waits[a].phase.Rechecked? then w
      else SetWait(w, a, w.waits[a].(phase := Parked, timer := w.waits[a].hasDeadline))
    case Fire(a) =>
      if a !in w.waits || !w.waits[a].phase.Parked? || !w.waits[a].timer then w
      else if w.waits[a].outcome != Pending then SetWait(w, a, w.waits[a].(timer := false))
      else SetWait(w.(woken := w.woken + {a}, through := w.through + [(a, ByTimer)]), a, w.waits[a].(outcome := TimedOut, timer := false))
    case Wake(a) => if a in w.waits then w.(woken := w.woken + {a}) else w
    case Retire(a) =>
      if a !in w.waits || !w.waits[a].phase.Parked? || a !in w.woken then w else RetireTo(w, a, Retired)
    case Judge(a) =>
      if a !in w.waits || !w.waits[a].phase.Retired? then w
      else SetWait(w, a, w.waits[a].(phase := Ended(Verdict(w, w.waits[a]))))
    case Destroy(a) =>
      if a !in w.waits || w.waits[a].phase.Ended? || w.waits[a].phase.Destroyed? then w else RetireTo(w, a, Destroyed)
    case _ => w
  }

  function Step(w: World, e: Event): World {
    if e.Cancel? || e.Enter? || e.Exit? then SourceStep(w, e)
    else if e.WalkTake? || e.WalkSettle? || e.WalkWake? then WalkStep(w, e)
    else WaitStep(w, e)
  }

  function Init(): World {
    World(Source(false, [], 0, false), NotStarted, map[], {}, [], false)
  }

  function Run(events: seq<Event>): World
    decreases |events|
  {
    if events == [] then Init() else Step(Run(events[..|events| - 1]), events[|events| - 1])
  }
}
