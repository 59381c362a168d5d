/** The sleep/wake handshake of the event loop (include/coro/event_loop.hpp, with the
    condition-variable event source of include/coro/event_source.hpp): any number of
    producer threads against the loop thread, one atomic access or critical section a
    step, atomics sequentially consistent. */
module Wakeup {

  /** Where the loop thread is. The names say what happens next. */
  datatype Pc =
    | Stopped        // not inside run()
    | Top            // while (running_), has_work()
    | CheckFn        // fn_batch_.empty() && has_pending_fn_.load()
    | SwapFn         // the flag has been cleared, the queue not swapped yet
    | Calling        // running dispatched functions
    | Timers         // due timers move to the ready queue
    | Poll           // fairness poll, wait_for(0)
    | Declare        // awake_.store(false)
    | Recheck        // queues checked again under the lock
    | Decide         // they were empty: timed wait, endless wait, or leave
    | Blocked(timed: bool)
    | Restore        // awake_.store(true)
    | SwapReady      // batch_.swap(ready_queue_)
    | Resuming       // resuming the batch

  /** `pushed`, `checked`, `waking`: producers between their push and their end, by what
      they do next (load `running_`, exchange `awake_`, call `wake`). `stopping`: callers
      of stop() between their store and their `wake`. */
  datatype Loop = Loop(
    pc: Pc,
    stay: bool,
    ready: nat,
    batch: nat,
    fns: nat,
    fnBatch: nat,
    pendingFn: bool,
    awake: bool,
    running: bool,
    woken: bool,
    pushed: nat,
    checked: nat,
    waking: nat,
    stopping: nat)

  datatype Event =
    | Schedule             // another thread pushes a coroutine
    | Dispatch             // another thread pushes a function and sets the flag
    | LoadRunning
    | Exchange
    | Wake
    | Stop
    | StopWake
    | Start(stay: bool)
    | Leave(work: bool)    // the loop condition; `work`: timers, I/O or active frames
    | LoopStep(own: nat, ownFns: nat, choice: bool)  // one step of the loop thread
    | Throw

  function Init(): Loop {
    Loop(Stopped, false, 0, 0, 0, 0, false, true, false, false, 0, 0, 0, 0)
  }

  /** One step of the loop thread inside run(). `own`/`ownFns`: what callbacks, timers or
      coroutines push from the loop thread itself, without any wake; `choice`: whether
      I/O is pending, a timer is armed, or a timeout has passed. */
  function LoopStepOf(s: Loop, own: nat, ownFns: nat, choice: bool): Loop {
    match s.pc
    case CheckFn =>
      if s.fnBatch == 0 && s.pendingFn then s.(pc := SwapFn, pendingFn := false) else s.(pc := Calling)
    case SwapFn => s.(pc := Calling, fnBatch := s.fns, fns := 0)
    case Calling =>
      if s.fnBatch == 0 then s.(pc := Timers)
      else s.(fnBatch := s.fnBatch - 1, ready := s.ready + own, fns := s.fns + ownFns,
              pendingFn := s.pendingFn || ownFns > 0)
    case Timers => s.(pc := Poll, ready := s.ready + own)
    case Poll =>
      if s.ready + s.batch > 0 && choice then s.(pc := Declare, woken := false) else s.(pc := Declare)
    case Declare => s.(pc := Recheck, awake := false)
    case Recheck => if s.ready + s.batch + s.fns > 0 then s.(pc := Restore) else s.(pc := Decide)
    case Decide => s.(pc := Blocked(choice))
    case Blocked(timed) =>
      if s.woken || (timed && choice) then s.(pc := Restore, woken := false) else s
    case Restore => s.(pc := SwapReady, awake := true)
    case SwapReady =>
      if s.batch == 0 then s.(pc := Resuming, batch := s.ready, ready := 0) else s.(pc := Resuming)
    case Resuming =>
      if s.batch == 0 then s.(pc := Top)
      else s.(batch := s.batch - 1, ready := s.ready + own, fns := s.fns + ownFns,
              pendingFn := s.pendingFn || ownFns > 0)
    case _ => s
  }

  function Step(s: Loop, e: Event): Loop {
    match e
    case Schedule => s.(ready := s.ready + 1, pushed := s.pushed + 1)
    case Dispatch => s.(fns := s.fns + 1, pendingFn := true, pushed := s.pushed + 1)
    case LoadRunning =>
      if s.pushed == 0 then s
      else if s.running then s.(pushed := s.pushed - 1, checked := s.checked + 1)
      else s.(pushed := s.pushed - 1)
    case Exchange =>
      if s.checked == 0 then s
      else if s.awake then s.(checked := s.checked - 1)
      else s.(checked := s.checked - 1, waking := s.waking + 1, awake := true)
    case Wake => if s.waking == 0 then s else s.(waking := s.waking - 1, woken := true)
    case Stop => s.(running := false, stopping := s.stopping + 1)
    case StopWake => if s.stopping == 0 then s else s.(stopping := s.stopping - 1, woken := true)
    case Start(stay) => if s.pc.Stopped? then s.(pc := Top, stay := stay, running := true, awake := true) else s
    case Leave(work) =>
      if s.pc.Top? then
        if !s.running || (!s.stay && !work && s.ready + s.batch + s.fns + s.fnBatch == 0)
        then s.(pc := Stopped, running := false, awake := true)
        else s.(pc := CheckFn)
      else if s.pc.Decide? && !s.stay && !work then s.(pc := Stopped, running := false, awake := true)
      else s
    case LoopStep(own, ownFns, choice) => LoopStepOf(s, own, ownFns, choice)
    case Throw =>
      if s.pc.Calling? || s.pc.Resuming? then s.(pc := Stopped, running := false, awake := true) else s
  }

  function Run(s: Loop, es: seq<Event>): Loop {
    if es == [] then s else Step(Run(s, es[..|es| - 1]), es[|es| - 1])
  }

  predicate Asleep(s: Loop) {
    s.pc.Recheck? || s.pc.Decide? || s.pc.Blocked?
  }

  /** Past the test of `running_` in this turn, up to the wait. */
  predicate PastTest(s: Loop) {
    s.pc.CheckFn? || s.pc.SwapFn? || s.pc.Calling? || s.pc.Timers? || s.pc.Poll? || s.pc.Declare? || Asleep(s)
  }

  ghost predicate Inv(s: Loop) {
    // A declared sleep that somebody revoked has its wake-up under way.
    && (Asleep(s) && s.awake ==> s.woken || s.waking > 0)
    // Work pushed after the re-check has a producer that has not looked at `awake_` yet.
    && ((s.pc.Decide? || s.pc.Blocked?) && !s.awake && s.ready + s.batch + s.fns > 0
        ==> s.pushed + s.checked > 0 || !s.running)
    // A stop seen too late for this turn leaves a wake-up, or work that forbids sleeping.
    && (PastTest(s) && !s.running ==>
        s.woken || s.stopping > 0 || ((s.pc.Declare? || s.pc.Recheck?) && s.ready + s.batch > 0))
    && (s.pc.Decide? || s.pc.Blocked? || s.pc.Restore? ==> s.fnBatch == 0)
    && (s.fns > 0 ==> s.pendingFn || s.pc.SwapFn?)
    && (s.pc.SwapFn? ==> s.fnBatch == 0)
    && (!s.pc.CheckFn? && !s.pc.SwapFn? && !s.pc.Calling? && PastTest(s) ==> s.fnBatch == 0)
  }

  lemma WorkStepKeeps(s: Loop, own: nat, ownFns: nat, choice: bool)
    requires Inv(s) && (s.pc.CheckFn? || s.pc.SwapFn? || s.pc.Calling? || s.pc.Timers? || s.pc.Poll?)
    ensures Inv(LoopStepOf(s, own, ownFns, choice))
  {
  }

  lemma SleepStepKeeps(s: Loop, own: nat, ownFns: nat, choice: bool)
    requires Inv(s) && (s.pc.Declare? || Asleep(s))
    ensures Inv(LoopStepOf(s, own, ownFns, choice))
  {
  }

  lemma BatchStepKeeps(s: Loop, own: nat, ownFns: nat, choice: bool)
    requires Inv(s) && (s.pc.Restore? || s.pc.SwapReady? || s.pc.Resuming?)
    ensures Inv(LoopStepOf(s, own, ownFns, choice))
  {
  }

  lemma LoopStepKeeps(s: Loop, own: nat, ownFns: nat, choice: bool)
    requires Inv(s)
    ensures Inv(LoopStepOf(s, own, ownFns, choice))
  {
    if s.pc.Stopped? || s.pc.Top? {
      assert LoopStepOf(s, own, ownFns, choice) == s;
    } else if s.pc.Restore? || s.pc.SwapReady? || s.pc.Resuming? {
      BatchStepKeeps(s, own, ownFns, choice);
    } else if s.pc.Declare? || Asleep(s) {
      SleepStepKeeps(s, own, ownFns, choice);
    } else {
      WorkStepKeeps(s, own, ownFns, choice);
    }
  }

  lemma StepKeeps(s: Loop, e: Event)
    requires Inv(s)
    ensures Inv(Step(s, e))
  {
    match e
    case LoopStep(own, ownFns, choice) => LoopStepKeeps(s, own, ownFns, choice);
    case Leave(work) =>
    case Exchange =>
    case LoadRunning =>
    case _ =>
  }

  lemma {:induction false} EveryRunKeeps(es: seq<Event>)
    ensures Inv(Run(Init(), es))
  {
    if es != [] {
      EveryRunKeeps(es[..|es| - 1]);
      StepKeeps(Run(Init(), es[..|es| - 1]), es[|es| - 1]);
    }
  }

  /** No lost wake-up: in every interleaving, a loop blocked in `wait_for` while there is
      work or a stop request has its wake flag set, or a producer or stopper between its
      push (or store) and its wake. */
  lemma NoLostWakeUp(es: seq<Event>)
    ensures var s := Run(Init(), es);
      s.pc.Blocked? && (s.ready + s.batch + s.fns > 0 || !s.running) ==>
      s.woken || s.pushed + s.checked + s.waking + s.stopping > 0
  {
    EveryRunKeeps(es);
  }

  /** Hence once every producer has finished its call the loop leaves the wait by
      itself, without any timeout. */
  lemma QuietLoopWakes(es: seq<Event>)
    requires var s := Run(Init(), es);
      s.pc.Blocked? && s.ready + s.batch + s.fns > 0 && s.pushed + s.checked + s.waking + s.stopping == 0
    ensures var s := Run(Init(), es); Step(s, LoopStep(0, 0, false)).pc.Restore?
  {
    NoLostWakeUp(es);
  }

  /** The flag test never skips a dispatched function: whenever the loop finds its batch
      empty and the flag clear, the function queue is empty. */
  lemma DispatchNotSkipped(es: seq<Event>)
    ensures var s := Run(Init(), es);
      s.pc.CheckFn? && s.fnBatch == 0 && !s.pendingFn ==> s.fns == 0
  {
    EveryRunKeeps(es);
  }
}
