/** The event loop's frame tracker and ready queue (include/coro/event_loop.hpp):
    generations, the scheduled flag, wait epochs and abandoned frames. */
module FrameCore {

  /** A live frame: its generation, whether it is queued, and the wait it is in (0: none). */
  datatype Frame = Frame(gen: nat, scheduled: bool, epoch: nat)

  /** A ready-queue entry: an address and the generation it was queued for. */
  datatype Entry = Entry(addr: nat, gen: nat)

  datatype Tracker = Tracker(live: map<nat, Frame>, nextGen: nat, nextEpoch: nat, abandoned: set<nat>)

  datatype Option<T> = None | Some(value: T)

  /** `try_emplace`: an address already registered keeps its frame. */
  function Add(t: Tracker, a: nat): Tracker {
    var g := t.nextGen + 1;
    t.(nextGen := g, live := if a in t.live then t.live else t.live[a := Frame(g, false, 0)])
  }

  function Remove(t: Tracker, a: nat): Tracker {
    t.(live := t.live - {a})
  }

  function Mark(t: Tracker, a: nat, scheduled: bool): Tracker
    requires a in t.live
  {
    t.(live := t.live[a := t.live[a].(scheduled := scheduled)])
  }

  /** Enqueue whatever frame lives at the address now. */
  function Reserve(t: Tracker, a: nat): (r: (Tracker, Option<Entry>)) {
    if a !in t.live || t.live[a].scheduled then (t, None)
    else (Mark(t, a, true), Some(Entry(a, t.live[a].gen)))
  }

  /** Enqueue only the frame the entry was made for (timers). */
  function ReserveEntry(t: Tracker, e: Entry): (r: (Tracker, Option<Entry>)) {
    if e.addr !in t.live || t.live[e.addr].gen != e.gen || t.live[e.addr].scheduled then (t, None)
    else (Mark(t, e.addr, true), Some(e))
  }

  /** Enqueue only while the frame is in this very wait (notifications). */
  function ReserveIfCurrent(t: Tracker, a: nat, epoch: nat): (r: (Tracker, Option<Entry>)) {
    if a !in t.live || t.live[a].epoch != epoch || t.live[a].scheduled then (t, None)
    else (Mark(t, a, true), Some(Entry(a, t.live[a].gen)))
  }

  /** Before resuming: false when the frame is not the one that was queued. */
  function Release(t: Tracker, e: Entry): (r: (Tracker, bool)) {
    if e.addr !in t.live || t.live[e.addr].gen != e.gen then (t, false) else (Mark(t, e.addr, false), true)
  }

  function BeginWait(t: Tracker, a: nat): (r: (Tracker, nat)) {
    var e := t.nextEpoch + 1;
    (t.(nextEpoch := e, live := if a in t.live then t.live[a := t.live[a].(epoch := e)] else t.live), e)
  }

  function EndWait(t: Tracker, a: nat, epoch: nat): Tracker {
    if a in t.live && t.live[a].epoch == epoch then t.(live := t.live[a := t.live[a].(epoch := 0)]) else t
  }

  /** True when the frame is queued: it is then left to the loop to destroy. */
  function MarkAbandoned(t: Tracker, a: nat): (r: (Tracker, bool)) {
    if a !in t.live || !t.live[a].scheduled then (t, false) else (t.(abandoned := t.abandoned + {a}), true)
  }

  class FrameTracker {
    var live: map<nat, Frame>
    var nextGeneration: nat
    var nextWaitEpoch: nat
    var abandoned: set<nat>

    function Abs(): Tracker
      reads this
    {
      Tracker(live, nextGeneration, nextWaitEpoch, abandoned)
    }

    constructor ()
      ensures Abs() == Tracker(map[], 0, 0, {})
    {
      live, nextGeneration, nextWaitEpoch, abandoned := map[], 0, 0, {};
    }

    method AddFrame(a: nat) returns (gen: nat)
      modifies this
      ensures Abs() == Add(old(Abs()), a) && gen == old(nextGeneration) + 1
    {
      nextGeneration := nextGeneration + 1;
      gen := nextGeneration;
      if a !in live {
        live := live[a := Frame(gen, false, 0)];
      }
    }

    method RemoveFrame(a: nat)
      modifies this
      ensures Abs() == Remove(old(Abs()), a)
    {
      live := live - {a};
    }

    method TryReserve(a: nat) returns (entry: Option<Entry>)
      modifies this
      ensures (Abs(), entry) == Reserve(old(Abs()), a)
    {
      if a !in live {
        return None;
      }
      var was := live[a].scheduled;
      live := live[a := live[a].(scheduled := true)];
      if was {
        assert live == old(live);
        return None;
      }
      return Some(Entry(a, live[a].gen));
    }

    method TryReserveEntry(e: Entry) returns (entry: Option<Entry>)
      modifies this
      ensures (Abs(), entry) == ReserveEntry(old(Abs()), e)
    {
      if e.addr !in live || live[e.addr].gen != e.gen {
        return None;
      }
      var was := live[e.addr].scheduled;
      live := live[e.addr := live[e.addr].(scheduled := true)];
      if was {
        assert live == old(live);
        return None;
      }
      return Some(e);
    }

    method TryReserveIfCurrent(a: nat, epoch: nat) returns (entry: Option<Entry>)
      modifies this
      ensures (Abs(), entry) == ReserveIfCurrent(old(Abs()), a, epoch)
    {
      if a !in live || live[a].epoch != epoch {
        return None;
      }
      var was := live[a].scheduled;
      live := live[a := live[a].(scheduled := true)];
      if was {
        assert live == old(live);
        return None;
      }
      return Some(Entry(a, live[a].gen));
    }

    method ReleaseEntry(e: Entry) returns (ok: bool)
      modifies this
      ensures (Abs(), ok) == Release(old(Abs()), e)
    {
      if e.addr !in live || live[e.addr].gen != e.gen {
        return false;
      }
      live := live[e.addr := live[e.addr].(scheduled := false)];
      return true;
    }

    method Begin(a: nat) returns (epoch: nat)
      modifies this
      ensures (Abs(), epoch) == BeginWait(old(Abs()), a)
    {
      nextWaitEpoch := nextWaitEpoch + 1;
      epoch := nextWaitEpoch;
      if a in live {
        live := live[a := live[a].(epoch := epoch)];
      }
    }

    method End(a: nat, epoch: nat)
      modifies this
      ensures Abs() == EndWait(old(Abs()), a, epoch)
    {
      if a in live && live[a].epoch == epoch {
        live := live[a := live[a].(epoch := 0)];
      }
    }

    method Abandon(a: nat) returns (deferred: bool)
      modifies this
      ensures (Abs(), deferred) == MarkAbandoned(old(Abs()), a)
    {
      if a !in live || !live[a].scheduled {
        return false;
      }
      abandoned := abandoned + {a};
      return true;
    }
  }

  /** The ready queue: a vector with a head index, cleared when it runs empty. */
  class ReadyQueue {
    var items: seq<Entry>
    var head: nat

    ghost predicate Valid()
      reads this
    {
      head <= |items| && (head == |items| ==> items == [])
    }

    function Contents(): seq<Entry>
      requires head <= |items|
      reads this
    {
      items[head..]
    }

    constructor ()
      ensures Valid() && Contents() == []
    {
      items, head := [], 0;
    }

    method Push(e: Entry)
      requires Valid()
      modifies this
      ensures Valid() && Contents() == old(Contents()) + [e]
    {
      items := items + [e];
    }

    method Pop() returns (e: Entry)
      requires Valid() && Contents() != []
      modifies this
      ensures Valid() && [e] + Contents() == old(Contents())
    {
      e := items[head];
      head := head + 1;
      if head == |items| {
        items := [];
        head := 0;
      }
    }

    method Swap(other: ReadyQueue)
      requires Valid() && other.Valid() && other != this
      modifies this, other
      ensures Valid() && other.Valid()
      ensures Contents() == old(other.Contents()) && other.Contents() == old(Contents())
    {
      var (i, h) := (items, head);
      items, head := other.items, other.head;
      other.items, other.head := i, h;
    }
  }
}
