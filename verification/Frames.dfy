/** Frames in every run of an event loop: scheduling from any thread, timers, wait
    notifications, abandonment, destruction, and reuse of a destroyed frame's address. */
module Frames {
  import opened FrameCore

  /** `picked`: popped and released, not acted on yet. `running`: resumed by the loop.
      `waits`: which frame each epoch was given to. `destroyed`: generations of destroyed
      frames. `doomed`: generations whose Task was destroyed while the frame had to stay.
      `wrong`: set if a destroyed or doomed frame is ever resumed. */
  datatype World = World(
    t: Tracker,
    ready: seq<Entry>,
    batch: seq<Entry>,
    picked: Option<Entry>,
    running: Option<Entry>,
    active: int,
    waits: map<nat, Entry>,
    destroyed: multiset<nat>,
    doomed: set<nat>,
    wrong: bool)

  datatype Event =
    | Start(a: nat)
    | Schedule(a: nat)
    | Expire(e: Entry)
    | Notify(a: nat, epoch: nat)
    | Begin(a: nat)
    | End(a: nat, epoch: nat)
    | TaskDies(a: nat)
    | IoTaskDies(a: nat)
    | SwapBatch
    | Pick
    | Act
    | Suspend
    | Finish

  const Boot: World := World(Tracker(map[], 0, 0, {}), [], [], None, None, 0, map[], multiset{}, {}, false)

  function Enqueue(w: World, r: (Tracker, Option<Entry>)): World {
    w.(t := r.0, ready := if r.1.Some? then w.ready + [r.1.value] else w.ready)
  }

  predicate IsRunning(w: World, a: nat) {
    w.running.Some? && w.running.value.addr == a
  }

  function Destroy(w: World, a: nat): World
    requires a in w.t.live
  {
    w.(t := Remove(w.t, a).(abandoned := w.t.abandoned - {a}), active := w.active - 1,
       destroyed := w.destroyed + multiset{w.t.live[a].gen})
  }

  /** The loop thread is one thread: while it holds a picked entry only other threads
      move; a Task dies on the loop thread and not while its own coroutine runs. A new
      frame is never placed at the address of a frame that is still alive. */
  predicate Enabled(w: World, e: Event) {
    match e
    case Start(a) => a !in w.t.live
    case Begin(a) => a in w.t.live
    case TaskDies(a) => w.picked.None? && a in w.t.live && a !in w.t.abandoned && !IsRunning(w, a)
    case IoTaskDies(a) => w.picked.None? && a in w.t.live && a !in w.t.abandoned && !IsRunning(w, a)
    case SwapBatch => w.picked.None? && w.running.None? && w.batch == []
    case Pick => w.picked.None? && w.running.None? && w.batch != []
    case Act => w.picked.Some? && w.picked.value.addr in w.t.live
    case Suspend => w.running.Some?
    case Finish => w.running.Some? && w.running.value.addr in w.t.live
    case _ => true
  }

  function Step(w: World, e: Event): World {
    if !Enabled(w, e) then w
    else
      match e
      case Start(a) => w.(t := Add(w.t, a), active := w.active + 1)
      case Schedule(a) => Enqueue(w, Reserve(w.t, a))
      case Expire(x) => Enqueue(w, ReserveEntry(w.t, x))
      case Notify(a, epoch) => if epoch == 0 then w else Enqueue(w, ReserveIfCurrent(w.t, a, epoch))
      case Begin(a) =>
        var (t, epoch) := BeginWait(w.t, a);
        w.(t := t, waits := w.waits[epoch := Entry(a, w.t.live[a].gen)])
      case End(a, epoch) => if epoch == 0 then w else w.(t := EndWait(w.t, a, epoch))
      case TaskDies(a) =>
        var (t, deferred) := MarkAbandoned(w.t, a);
        if deferred then w.(t := t, doomed := w.doomed + {w.t.live[a].gen}) else Destroy(w, a)
      case IoTaskDies(a) =>
        w.(t := w.t.(abandoned := w.t.abandoned + {a}), doomed := w.doomed + {w.t.live[a].gen})
      case SwapBatch => w.(batch := w.ready, ready := [])
      case Pick =>
        var (t, ok) := Release(w.t, w.batch[0]);
        w.(t := t, batch := w.batch[1..], picked := if ok then Some(w.batch[0]) else None)
      case Act =>
        var x := w.picked.value;
        if x.addr in w.t.abandoned then Destroy(w, x.addr).(picked := None)
        else w.(picked := None, running := Some(x),
                wrong := w.wrong || w.t.live[x.addr].gen in w.destroyed || w.t.live[x.addr].gen in w.doomed
                         || w.t.live[x.addr].gen != x.gen)
      case Suspend => w.(running := None)
      case Finish => Destroy(w, w.running.value.addr).(running := None)
  }

  function Run(w: World, es: seq<Event>): World {
    if es == [] then w else Step(Run(w, es[..|es| - 1]), es[|es| - 1])
  }

  function Queued(w: World): multiset<Entry> {
    multiset(w.ready) + multiset(w.batch)
  }

  /** One address: a live frame is queued under its generation once, exactly when its
      flag says so; its wait is the one its epoch was given for. */
  ghost predicate FrameOk(w: World, a: nat) {
    a in w.t.live ==>
      var f := w.t.live[a];
      && Queued(w)[Entry(a, f.gen)] == (if f.scheduled then 1 else 0)
      && 0 < f.gen <= w.t.nextGen && f.gen !in w.destroyed
      && (f.epoch != 0 ==> f.epoch in w.waits && w.waits[f.epoch] == Entry(a, f.gen))
      && (f.gen in w.doomed <==> a in w.t.abandoned)
  }

  /** Generations tell live frames apart. */
  ghost predicate Unique(w: World) {
    forall a: nat, b: nat, g: nat :: IsLive(w, Entry(a, g)) && IsLive(w, Entry(b, g)) ==> a == b
  }

  ghost predicate Counted(w: World) {
    && (forall x :: x in Queued(w) ==> x.gen <= w.t.nextGen)
    && w.active == |w.t.live| && |w.destroyed| + |w.t.live| == w.t.nextGen
    && w.t.abandoned <= w.t.live.Keys
    && (w.picked.Some? ==> IsLive(w, w.picked.value) && w.running.None?)
    && (w.running.Some? ==> IsLive(w, w.running.value) && w.running.value.addr !in w.t.abandoned)
    && (forall epoch :: epoch in w.waits ==> epoch <= w.t.nextEpoch)
    && (forall g :: g in w.destroyed ==> g <= w.t.nextGen && w.destroyed[g] == 1)
    && (forall g :: g in w.doomed ==> g <= w.t.nextGen)
    && !w.wrong
  }

  ghost predicate Inv(w: World) {
    (forall a :: FrameOk(w, a)) && Unique(w) && Counted(w)
  }

  ghost predicate IsLive(w: World, x: Entry) {
    x.addr in w.t.live && w.t.live[x.addr].gen == x.gen
  }

  lemma LiveChange(m: map<nat, Frame>, a: nat, f: Frame)
    ensures a in m ==> |m[a := f]| == |m|
    ensures a !in m ==> |m[a := f]| == |m| + 1
    ensures a in m ==> |m - {a}| == |m| - 1
  {
    if a in m {
      assert m[a := f].Keys == m.Keys;
      assert (m - {a}).Keys == m.Keys - {a};
    } else {
      assert m[a := f].Keys == m.Keys + {a};
    }
  }

  /** The same frames, or fewer, with the generations they had. */
  ghost predicate NoNewFrames(w: World, v: World) {
    forall a: nat, g: nat :: IsLive(v, Entry(a, g)) ==> IsLive(w, Entry(a, g))
  }

  lemma UniqueStays(w: World, v: World)
    requires Unique(w) && NoNewFrames(w, v)
    ensures Unique(v)
  {
  }

  lemma EnqueueKeeps(w: World, a: nat)
    requires Inv(w) && a in w.t.live && !w.t.live[a].scheduled
    ensures Inv(Enqueue(w, (Mark(w.t, a, true), Some(Entry(a, w.t.live[a].gen)))))
  {
    var e := Entry(a, w.t.live[a].gen);
    var v := Enqueue(w, (Mark(w.t, a, true), Some(e)));
    LiveChange(w.t.live, a, w.t.live[a].(scheduled := true));
    assert Queued(v) == Queued(w) + multiset{e};
    assert FrameOk(w, a);
    forall b ensures FrameOk(v, b) {
      assert FrameOk(w, b);
    }
    UniqueStays(w, v);
  }

  lemma StartKeeps(w: World, a: nat)
    requires Inv(w) && a !in w.t.live
    ensures Inv(Step(w, Start(a)))
  {
    var v := Step(w, Start(a));
    LiveChange(w.t.live, a, Frame(w.t.nextGen + 1, false, 0));
    forall b ensures FrameOk(v, b) {
      assert FrameOk(w, b);
    }
    forall b: nat, g: nat | IsLive(v, Entry(b, g)) && b != a ensures IsLive(w, Entry(b, g)) && g <= w.t.nextGen {
      assert FrameOk(w, b);
    }
  }

  lemma BeginCounted(w: World, a: nat)
    requires Inv(w) && a in w.t.live
    ensures Counted(Step(w, Begin(a))) && NoNewFrames(w, Step(w, Begin(a)))
  {
    LiveChange(w.t.live, a, w.t.live[a].(epoch := w.t.nextEpoch + 1));
    assert Queued(Step(w, Begin(a))) == Queued(w);
  }

  lemma BeginKeeps(w: World, a: nat)
    requires Inv(w) && a in w.t.live
    ensures Inv(Step(w, Begin(a)))
  {
    var v := Step(w, Begin(a));
    BeginCounted(w, a);
    forall b ensures FrameOk(v, b) {
      assert FrameOk(w, b);
    }
    UniqueStays(w, v);
  }

  lemma {:induction false} EndCounted(w: World, a: nat, epoch: nat)
    requires Inv(w)
    ensures Counted(Step(w, End(a, epoch))) && NoNewFrames(w, Step(w, End(a, epoch)))
  {
    if a in w.t.live {
      LiveChange(w.t.live, a, w.t.live[a].(epoch := 0));
    }
    assert Queued(Step(w, End(a, epoch))) == Queued(w);
  }

  lemma EndKeeps(w: World, a: nat, epoch: nat)
    requires Inv(w)
    ensures Inv(Step(w, End(a, epoch)))
  {
    var v := Step(w, End(a, epoch));
    EndCounted(w, a, epoch);
    forall b ensures FrameOk(v, b) {
      assert FrameOk(w, b);
    }
    UniqueStays(w, v);
  }

  lemma DestroyKeeps(w: World, a: nat, v: World)
    requires Inv(w) && a in w.t.live
    requires v == Destroy(w, a).(picked := v.picked, running := v.running)
    requires v.picked.Some? ==> v.picked == w.picked && w.picked.value.addr != a
    requires v.running.Some? ==> v.running == w.running && w.running.value.addr != a
    ensures Inv(v)
  {
    LiveChange(w.t.live, a, w.t.live[a]);
    assert FrameOk(w, a);
    assert IsLive(w, Entry(a, w.t.live[a].gen));
    forall b ensures FrameOk(v, b) {
      assert FrameOk(w, b);
      assert b in w.t.live ==> IsLive(w, Entry(b, w.t.live[b].gen));
    }
    UniqueStays(w, v);
  }

  lemma DoomKeeps(w: World, a: nat)
    requires Inv(w) && a in w.t.live && !IsRunning(w, a)
    ensures Inv(w.(t := w.t.(abandoned := w.t.abandoned + {a}), doomed := w.doomed + {w.t.live[a].gen}))
  {
    var v := w.(t := w.t.(abandoned := w.t.abandoned + {a}), doomed := w.doomed + {w.t.live[a].gen});
    assert FrameOk(w, a);
    assert IsLive(w, Entry(a, w.t.live[a].gen));
    forall b ensures FrameOk(v, b) {
      assert FrameOk(w, b);
      assert b in w.t.live ==> IsLive(w, Entry(b, w.t.live[b].gen));
    }
    UniqueStays(w, v);
  }

  lemma SwapKeeps(w: World)
    requires Inv(w) && Enabled(w, SwapBatch)
    ensures Inv(Step(w, SwapBatch))
  {
    var v := Step(w, SwapBatch);
    assert Queued(v) == Queued(w);
    forall b ensures FrameOk(v, b) {
      assert FrameOk(w, b);
    }
    UniqueStays(w, v);
  }

  lemma PickQueued(w: World)
    requires w.batch != []
    ensures Queued(w) == Queued(Step(w, Pick).(batch := w.batch[1..])) + multiset{w.batch[0]}
  {
    assert w.batch == [w.batch[0]] + w.batch[1..];
  }

  lemma {:induction false} PickOld(w: World)
    requires Inv(w) && Enabled(w, Pick)
    ensures NoNewFrames(w, Step(w, Pick))
  {
    PickQueued(w);
  }

  lemma {:induction false} PickCounted(w: World)
    requires Inv(w) && Enabled(w, Pick)
    ensures Counted(Step(w, Pick)) && NoNewFrames(w, Step(w, Pick))
  {
    var x := w.batch[0];
    PickOld(w);
    if x.addr in w.t.live {
      LiveChange(w.t.live, x.addr, w.t.live[x.addr].(scheduled := false));
    }
  }

  lemma PickKeeps(w: World)
    requires Inv(w) && Enabled(w, Pick)
    ensures Inv(Step(w, Pick))
  {
    var v := Step(w, Pick);
    PickCounted(w);
    PickQueued(w);
    assert FrameOk(w, w.batch[0].addr);
    forall b ensures FrameOk(v, b) {
      assert FrameOk(w, b);
    }
    UniqueStays(w, v);
  }

  lemma ActKeeps(w: World)
    requires Inv(w) && Enabled(w, Act)
    ensures Inv(Step(w, Act))
  {
    var v := Step(w, Act);
    var a := w.picked.value.addr;
    assert FrameOk(w, a);
    if a in w.t.abandoned {
      DestroyKeeps(w, a, v);
    } else {
      forall b ensures FrameOk(v, b) {
        assert FrameOk(w, b);
      }
      UniqueStays(w, v);
    }
  }

  lemma SuspendKeeps(w: World)
    requires Inv(w)
    ensures Inv(w.(running := None))
  {
    var v := w.(running := None);
    forall b ensures FrameOk(v, b) {
      assert FrameOk(w, b);
    }
    UniqueStays(w, v);
  }

  lemma StepKeeps(w: World, e: Event)
    requires Inv(w)
    ensures Inv(Step(w, e))
  {
    if Enabled(w, e) {
      match e
      case Start(a) => StartKeeps(w, a);
      case Schedule(a) =>
        if Reserve(w.t, a).1.Some? {
          EnqueueKeeps(w, a);
        }
      case Expire(x) =>
        if ReserveEntry(w.t, x).1.Some? {
          EnqueueKeeps(w, x.addr);
        }
      case Notify(a, epoch) =>
        if epoch != 0 && ReserveIfCurrent(w.t, a, epoch).1.Some? {
          EnqueueKeeps(w, a);
        }
      case Begin(a) => BeginKeeps(w, a);
      case End(a, epoch) => EndKeeps(w, a, epoch);
      case TaskDies(a) =>
        if w.t.live[a].scheduled {
          DoomKeeps(w, a);
        } else {
          DestroyKeeps(w, a, Step(w, e));
        }
      case IoTaskDies(a) => DoomKeeps(w, a);
      case SwapBatch => SwapKeeps(w);
      case Pick => PickKeeps(w);
      case Act => ActKeeps(w);
      case Suspend => SuspendKeeps(w);
      case Finish => DestroyKeeps(w, w.running.value.addr, Step(w, e));
    }
  }

  /** Every run: a live frame is queued at most once and exactly when flagged; nothing
      destroyed or doomed is resumed; every frame ever started is alive or has been
      destroyed exactly once; the active count is the number of live frames. */
  lemma {:induction false} EveryRunKeeps(es: seq<Event>)
    ensures Inv(Run(Boot, es))
  {
    if es != [] {
      EveryRunKeeps(es[..|es| - 1]);
      StepKeeps(Run(Boot, es[..|es| - 1]), es[|es| - 1]);
    }
  }

  /** An entry queued for an earlier frame at the same address never resumes the new one:
      it is dropped without touching it. */
  lemma OldEntryDropped(w: World)
    requires Inv(w) && Enabled(w, Pick) && !IsLive(w, w.batch[0])
    ensures var v := Step(w, Pick); v.t == w.t && v.picked.None? && v.running == w.running
  {
  }

  /** The loop destroys an abandoned frame instead of resuming it as soon as it reaches
      its entry, and only then. */
  lemma AbandonedDestroyed(w: World)
    requires Inv(w) && Enabled(w, Act)
    ensures var (v, x) := (Step(w, Act), w.picked.value);
      && (x.addr in w.t.abandoned <==> v.destroyed == w.destroyed + multiset{x.gen})
      && (x.addr in w.t.abandoned <==> v.running.None?)
  {
    assert FrameOk(w, w.picked.value.addr);
    var g := w.picked.value.gen;
    assert (w.destroyed + multiset{g})[g] == w.destroyed[g] + 1;
  }

  /** An abandoned frame whose Task died while it was queued still has its one entry, so
      the loop will come to it. */
  ghost predicate Waits(w: World, a: nat) {
    a in w.t.live && w.t.live[a].scheduled ==> Entry(a, w.t.live[a].gen) in Queued(w)
  }

  lemma QueuedFrameReached(w: World, a: nat)
    requires Inv(w)
    ensures Waits(w, a)
  {
    assert FrameOk(w, a);
  }

  /** A wait is over: its frame is gone, or in no wait, or in another one. */
  ghost predicate Stale(w: World, a: nat, epoch: nat) {
    epoch != 0 && epoch <= w.t.nextEpoch && (a !in w.t.live || w.t.live[a].epoch != epoch)
  }

  /** A notification carries the wait it was made for: it enqueues a frame only while
      exactly that frame is in exactly that wait. */
  lemma NotificationExact(w: World, a: nat, epoch: nat)
    requires Inv(w) && Step(w, Notify(a, epoch)).ready != w.ready
    ensures a in w.t.live && w.t.live[a].epoch == epoch && epoch in w.waits
    ensures w.waits[epoch] == Entry(a, w.t.live[a].gen)
    ensures Step(w, Notify(a, epoch)).ready == w.ready + [w.waits[epoch]]
  {
    assert FrameOk(w, a);
  }

  /** Once a wait is over no late notification for it has any effect, in any later state:
      not on a later wait of the frame and not on a new frame at its address. */
  lemma StaleForever(w: World, a: nat, epoch: nat, e: Event)
    requires Inv(w) && Stale(w, a, epoch)
    ensures Stale(Step(w, e), a, epoch)
    ensures Step(w, Notify(a, epoch)) == w
  {
  }
}
