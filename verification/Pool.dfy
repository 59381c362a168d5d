/** The asynchronous resource pool of include/coro/pool.hpp: barging acquires, factory
    calls in flight, lease return and discard, cancellation of waiters. */
module Pool {

  /** `waiters` holds parked acquirers, `woken` those popped and scheduled that have not
      run again; `inUse` counts leases and factory calls in flight. */
  datatype Pool = Pool(
    maxAgents: nat,
    maxIdle: nat,
    idle: seq<nat>,
    waiters: seq<nat>,
    woken: set<nat>,
    inUse: nat,
    closed: bool)

  predicate CanCreate(p: Pool) {
    !p.closed && (p.maxAgents == 0 || p.inUse < p.maxAgents)
  }

  function WakeOne(p: Pool): Pool {
    if p.waiters == [] then p else p.(waiters := p.waiters[1..], woken := p.woken + {p.waiters[0]})
  }

  datatype Attempt = Refused | Reused(res: nat) | Parked | Building

  /** One turn of the acquire loop. */
  function TryAcquire(p: Pool, co: nat): (r: (Pool, Attempt)) {
    if p.closed then (p, Refused)
    else if p.idle != [] then (p.(idle := p.idle[1..], inUse := p.inUse + 1), Reused(p.idle[0]))
    else if !CanCreate(p) then (p.(waiters := p.waiters + [co]), Parked)
    else (p.(inUse := p.inUse + 1), Building)
  }

  function IndexOf(ws: seq<nat>, co: nat): (k: nat)
    ensures k <= |ws|
    ensures k < |ws| ==> ws[k] == co
    ensures forall i :: 0 <= i < k ==> ws[i] != co
  {
    if ws == [] || ws[0] == co then 0 else 1 + IndexOf(ws[1..], co)
  }

  function RemoveFirst(ws: seq<nat>, co: nat): seq<nat> {
    var k := IndexOf(ws, co);
    if k < |ws| then ws[..k] + ws[k + 1..] else ws
  }

  /** The acquire awaiter dies before it resumed: unlink, and pass a wake-up on. */
  function WaiterDies(p: Pool, co: nat): Pool {
    var q := p.(waiters := RemoveFirst(p.waiters, co), woken := p.woken - {co});
    if q.idle != [] || CanCreate(q) then WakeOne(q) else q
  }

  /** A reservation or a lease gives its slot back. */
  function FreeSlot(p: Pool): Pool
    requires p.inUse > 0
  {
    WakeOne(p.(inUse := p.inUse - 1))
  }

  /** A lease ends: the resource is kept when the pool is open and has room for it. */
  function Return(p: Pool, res: nat): Pool
    requires p.inUse > 0
  {
    FreeSlot(if !p.closed && |p.idle| < p.maxIdle then p.(idle := p.idle + [res]) else p)
  }

  function Close(p: Pool): Pool {
    if p.closed then p
    else p.(closed := true, idle := [], waiters := [], woken := p.woken + (set x | x in p.waiters))
  }

  class PoolState {
    const maxAgents: nat
    const maxIdle: nat
    var idle: seq<nat>
    var waiters: seq<nat>
    var scheduled: set<nat>
    var inUse: nat
    var closed: bool

    function Abs(): Pool
      reads this
    {
      Pool(maxAgents, maxIdle, idle, waiters, scheduled, inUse, closed)
    }

    constructor (maxAgents: nat, maxIdle: nat)
      ensures Abs() == Pool(maxAgents, maxIdle, [], [], {}, 0, false)
    {
      this.maxAgents, this.maxIdle := maxAgents, maxIdle;
      idle, waiters, scheduled, inUse, closed := [], [], {}, 0, false;
    }

    method Wake()
      modifies `waiters, `scheduled
      ensures Abs() == WakeOne(old(Abs()))
    {
      if waiters != [] {
        scheduled := scheduled + {waiters[0]};
        waiters := waiters[1..];
      }
    }

    method Attempt(co: nat) returns (r: Attempt)
      modifies this
      ensures (Abs(), r) == TryAcquire(old(Abs()), co)
    {
      if closed {
        return Refused;
      }
      if idle != [] {
        r := Reused(idle[0]);
        idle := idle[1..];
        inUse := inUse + 1;
        return;
      }
      if !(maxAgents == 0 || inUse < maxAgents) {
        waiters := waiters + [co];
        return Parked;
      }
      inUse := inUse + 1;
      return Building;
    }

    method AwaiterDestroyed(co: nat)
      modifies this
      ensures Abs() == WaiterDies(old(Abs()), co)
    {
      var k := 0;
      while k < |waiters| && waiters[k] != co
        invariant k <= |waiters|
        invariant forall i :: 0 <= i < k ==> waiters[i] != co
      {
        k := k + 1;
      }
      assert k == IndexOf(waiters, co);
      if k < |waiters| {
        waiters := waiters[..k] + waiters[k + 1..];
      }
      scheduled := scheduled - {co};
      if idle != [] || (!closed && (maxAgents == 0 || inUse < maxAgents)) {
        Wake();
      }
    }

    method EndLease(res: nat)
      requires inUse > 0
      modifies this
      ensures Abs() == Return(old(Abs()), res)
    {
      if !closed && |idle| < maxIdle {
        idle := idle + [res];
      }
      inUse := inUse - 1;
      Wake();
    }

    /** `discard`, a failed factory call, or a reservation dropped on the way. */
    method DropSlot()
      requires inUse > 0
      modifies this
      ensures Abs() == FreeSlot(old(Abs()))
    {
      inUse := inUse - 1;
      Wake();
    }

    method CloseAll()
      modifies this
      ensures Abs() == Close(old(Abs()))
    {
      if closed {
        return;
      }
      closed := true;
      idle := [];
      while waiters != []
        invariant closed && idle == [] && inUse == old(inUse)
        invariant scheduled + (set x | x in waiters) == old(scheduled) + (set x | x in old(waiters))
        decreases |waiters|
      {
        assert waiters == [waiters[0]] + waiters[1..];
        Wake();
      }
    }
  }

  datatype Phase = Away | Waiting | Called | Making | Leasing(res: nat)

  /** `busy`: coroutines holding a lease or waiting for the factory. */
  datatype World = World(p: Pool, phase: map<nat, Phase>, busy: set<nat>, made: nat)

  datatype Event =
    | Acquire(co: nat)
    | Resume(co: nat)
    | Cancel(co: nat)
    | Made(co: nat)
    | Failed(co: nat)
    | GiveBack(co: nat)
    | Discard(co: nat)
    | CloseIt

  function Init(maxAgents: nat, maxIdle: nat): World {
    World(Pool(maxAgents, maxIdle, [], [], {}, 0, false), map[], {}, 0)
  }

  function PhaseOf(w: World, co: nat): Phase {
    if co in w.phase then w.phase[co] else Away
  }

  /** The acquire loop runs once more for `co`. */
  function Turn(w: World, co: nat): World {
    var (q, r) := TryAcquire(w.p.(woken := w.p.woken - {co}), co);
    var v := w.(p := q);
    match r
    case Refused => v.(phase := w.phase[co := Away])
    case Reused(res) => v.(phase := w.phase[co := Leasing(res)], busy := w.busy + {co})
    case Parked => v.(phase := w.phase[co := Waiting])
    case Building => v.(phase := w.phase[co := Making], busy := w.busy + {co})
  }

  predicate Enabled(w: World, e: Event) {
    match e
    case Acquire(co) => PhaseOf(w, co).Away?
    case Resume(co) => PhaseOf(w, co).Waiting? && co in w.p.woken
    case Cancel(co) => PhaseOf(w, co).Waiting?
    case Made(co) => PhaseOf(w, co).Making? && w.p.inUse > 0
    case Failed(co) => PhaseOf(w, co).Making? && w.p.inUse > 0
    case GiveBack(co) => PhaseOf(w, co).Leasing? && w.p.inUse > 0
    case Discard(co) => PhaseOf(w, co).Leasing? && w.p.inUse > 0
    case CloseIt => true
  }

  function Leaves(w: World, co: nat, p: Pool): World {
    w.(p := p, phase := w.phase[co := Away], busy := w.busy - {co})
  }

  function Step(w: World, e: Event): World {
    if !Enabled(w, e) then w
    else
      match e
      case Acquire(co) => Turn(w, co)
      case Resume(co) => Turn(w, co)
      case Cancel(co) => w.(p := WaiterDies(w.p, co), phase := w.phase[co := Away])
      case Made(co) =>
        if w.p.closed then Leaves(w, co, FreeSlot(w.p)).(made := w.made + 1)
        else w.(phase := w.phase[co := Leasing(w.made)], made := w.made + 1)
      case Failed(co) => Leaves(w, co, FreeSlot(w.p))
      case GiveBack(co) => Leaves(w, co, Return(w.p, PhaseOf(w, co).res))
      case Discard(co) => Leaves(w, co, FreeSlot(w.p))
      case CloseIt => w.(p := Close(w.p))
  }

  function Run(w: World, es: seq<Event>): World {
    if es == [] then w else Step(Run(w, es[..|es| - 1]), es[|es| - 1])
  }

  /** The limit holds for leased, building and idle resources together, and while
      somebody is parked every free slot has a woken waiter coming for it. */
  ghost predicate Limits(p: Pool) {
    && (p.maxAgents > 0 ==> p.inUse + |p.idle| <= p.maxAgents)
    && |p.idle| <= p.maxIdle
    && (p.closed ==> p.idle == [] && p.waiters == [])
    && (p.waiters != [] ==> p.maxAgents > 0 && p.maxAgents - p.inUse <= |p.woken|)
  }

  ghost predicate Distinct(ws: seq<nat>) {
    forall i, j :: 0 <= i < j < |ws| ==> ws[i] != ws[j]
  }

  ghost predicate CoOk(w: World, co: nat) {
    var f := PhaseOf(w, co);
    && (f.Waiting? <==> co in w.p.waiters || co in w.p.woken)
    && !(co in w.p.waiters && co in w.p.woken)
    && (f.Making? || f.Leasing? <==> co in w.busy)
    && (f.Leasing? ==> f.res < w.made && f.res !in w.p.idle)
  }

  ghost predicate Holds(w: World, co: nat, res: nat) {
    PhaseOf(w, co) == Leasing(res)
  }

  /** No resource is lent twice. */
  ghost predicate Exclusive(w: World) {
    && Distinct(w.p.idle)
    && (forall i :: 0 <= i < |w.p.idle| ==> w.p.idle[i] < w.made)
    && (forall a, b, res :: Holds(w, a, res) && Holds(w, b, res) ==> a == b)
  }

  ghost predicate Inv(w: World) {
    && Limits(w.p) && Distinct(w.p.waiters) && w.p.inUse == |w.busy|
    && Exclusive(w)
    && (forall co :: CoOk(w, co))
  }

  lemma {:induction false} RemoveFirstElems(ws: seq<nat>, co: nat)
    requires Distinct(ws)
    ensures Distinct(RemoveFirst(ws, co))
    ensures forall x :: x in RemoveFirst(ws, co) <==> x in ws && x != co
    ensures co !in ws ==> RemoveFirst(ws, co) == ws
  {
    var k, r := IndexOf(ws, co), RemoveFirst(ws, co);
    if k < |ws| {
      assert ws == ws[..k] + [co] + ws[k + 1..];
      assert forall i :: 0 <= i < |r| ==> r[i] == ws[if i < k then i else i + 1];
    }
  }

  lemma WakeOneElems(p: Pool)
    requires Distinct(p.waiters) && forall i :: 0 <= i < |p.waiters| ==> p.waiters[i] !in p.woken
    ensures var q := WakeOne(p);
      && Distinct(q.waiters)
      && (forall x :: x in q.waiters || x in q.woken <==> x in p.waiters || x in p.woken)
      && (forall x :: !(x in q.waiters && x in q.woken))
      && (p.waiters != [] ==> |q.woken| == |p.woken| + 1)
  {
    assert forall x :: x in p.waiters ==> exists i :: 0 <= i < |p.waiters| && p.waiters[i] == x;
    if p.waiters != [] {
      assert p.waiters == [p.waiters[0]] + p.waiters[1..];
    }
  }

  lemma WaitersApart(w: World)
    requires Inv(w)
    ensures forall i :: 0 <= i < |w.p.waiters| ==> w.p.waiters[i] !in w.p.woken
  {
    forall i | 0 <= i < |w.p.waiters| ensures w.p.waiters[i] !in w.p.woken {
      assert CoOk(w, w.p.waiters[i]);
    }
  }

  ghost predicate MayTurn(w: World, co: nat) {
    Inv(w) && (PhaseOf(w, co).Away? || (PhaseOf(w, co).Waiting? && co in w.p.woken))
  }

  lemma TurnCo(w: World, co: nat, c: nat)
    requires MayTurn(w, co) && CoOk(w, co) && CoOk(w, c)
    ensures CoOk(Turn(w, co), c)
  {
    if !w.p.closed && w.p.idle != [] {
      assert w.p.idle == [w.p.idle[0]] + w.p.idle[1..];
    }
  }

  lemma TurnExclusive(w: World, co: nat)
    requires MayTurn(w, co)
    ensures Exclusive(Turn(w, co))
  {
    var v := Turn(w, co);
    forall a: nat, res: nat | Holds(v, a, res) && a != co ensures Holds(w, a, res) && res !in w.p.idle {
      assert CoOk(w, a);
    }
  }

  lemma TurnKeeps(w: World, co: nat)
    requires MayTurn(w, co)
    ensures Inv(Turn(w, co))
  {
    assert CoOk(w, co);
    forall c ensures CoOk(Turn(w, co), c) {
      assert CoOk(w, c);
      TurnCo(w, co, c);
    }
    TurnExclusive(w, co);
    var p := w.p.(woken := w.p.woken - {co});
    assert |p.woken| == |w.p.woken| - if co in w.p.woken then 1 else 0;
  }

  lemma SlotKeeps(w: World, co: nat, p: Pool)
    requires Inv(w) && co in w.busy && w.p.inUse > 0
    requires p == w.p.(idle := p.idle) && (p.idle == w.p.idle || Kept(w, co, p))
    ensures Inv(Leaves(w, co, FreeSlot(p)))
  {
    assert CoOk(w, co);
    var q := p.(inUse := p.inUse - 1);
    WaitersApart(w);
    WakeOneElems(q);
    var v := Leaves(w, co, FreeSlot(p));
    assert Kept(w, co, p) ==> Holds(w, co, PhaseOf(w, co).res);
    forall c ensures CoOk(v, c) {
      assert CoOk(w, c);
      assert PhaseOf(w, c).Leasing? ==> Holds(w, c, PhaseOf(w, c).res);
    }
    forall a: nat, res: nat | Holds(v, a, res) ensures Holds(w, a, res) {
    }
  }

  /** `p` keeps the resource `co` had on lease. */
  ghost predicate Kept(w: World, co: nat, p: Pool) {
    && PhaseOf(w, co).Leasing? && !w.p.closed && |w.p.idle| < w.p.maxIdle
    && p == w.p.(idle := w.p.idle + [PhaseOf(w, co).res])
  }

  lemma CancelKeeps(w: World, co: nat)
    requires Inv(w) && PhaseOf(w, co).Waiting?
    ensures Inv(Step(w, Cancel(co)))
  {
    assert CoOk(w, co);
    WaitersApart(w);
    RemoveFirstElems(w.p.waiters, co);
    var q := w.p.(waiters := RemoveFirst(w.p.waiters, co), woken := w.p.woken - {co});
    assert |q.woken| == |w.p.woken| - if co in w.p.woken then 1 else 0;
    forall i | 0 <= i < |q.waiters| ensures q.waiters[i] !in q.woken {
      assert q.waiters[i] in w.p.waiters;
      assert CoOk(w, q.waiters[i]);
    }
    WakeOneElems(q);
    var v := Step(w, Cancel(co));
    forall c ensures CoOk(v, c) {
      assert CoOk(w, c);
    }
    forall a: nat, res: nat | Holds(v, a, res) ensures Holds(w, a, res) {
    }
  }

  lemma MadeKeeps(w: World, co: nat)
    requires Inv(w) && Enabled(w, Made(co))
    ensures Inv(Step(w, Made(co)))
  {
    assert CoOk(w, co);
    var u := w.(made := w.made + 1);
    forall c ensures CoOk(u, c) {
      assert CoOk(w, c);
    }
    forall a: nat, res: nat | Holds(u, a, res) ensures Holds(w, a, res) {
    }
    if w.p.closed {
      SlotKeeps(u, co, w.p);
    } else {
      var v := Step(w, Made(co));
      forall c ensures CoOk(v, c) {
        assert CoOk(w, c);
      }
      forall a: nat, res: nat | Holds(v, a, res) && a != co ensures Holds(w, a, res) && res < w.made {
        assert CoOk(w, a);
      }
    }
  }

  lemma CloseKeeps(w: World)
    requires Inv(w)
    ensures Inv(Step(w, CloseIt))
  {
    var v := Step(w, CloseIt);
    forall c ensures CoOk(v, c) {
      assert CoOk(w, c);
    }
    forall a: nat, res: nat | Holds(v, a, res) ensures Holds(w, a, res) {
    }
  }

  lemma StepKeeps(w: World, e: Event)
    requires Inv(w)
    ensures Inv(Step(w, e))
  {
    if Enabled(w, e) {
      match e
      case Acquire(co) => TurnKeeps(w, co);
      case Resume(co) => TurnKeeps(w, co);
      case Cancel(co) => CancelKeeps(w, co);
      case Made(co) => MadeKeeps(w, co);
      case Failed(co) => assert CoOk(w, co); SlotKeeps(w, co, w.p);
      case Discard(co) => assert CoOk(w, co); SlotKeeps(w, co, w.p);
      case GiveBack(co) =>
        assert CoOk(w, co);
        SlotKeeps(w, co, if !w.p.closed && |w.p.idle| < w.p.maxIdle
                         then w.p.(idle := w.p.idle + [PhaseOf(w, co).res]) else w.p);
      case CloseIt => CloseKeeps(w);
    }
  }

  /** Every run: the limit, exclusive lending, and no wake-up lost. */
  lemma {:induction false} EveryRunKeeps(maxAgents: nat, maxIdle: nat, es: seq<Event>)
    ensures Inv(Run(Init(maxAgents, maxIdle), es))
  {
    if es != [] {
      EveryRunKeeps(maxAgents, maxIdle, es[..|es| - 1]);
      StepKeeps(Run(Init(maxAgents, maxIdle), es[..|es| - 1]), es[|es| - 1]);
    }
  }

  /** While somebody is parked and a slot is free, some waiter is on its way to it; and a
      coroutine with a factory call or a lease can always give its slot back. */
  lemma NoReleaseLost(w: World, co: nat)
    requires Inv(w)
    ensures w.p.waiters != [] && (w.p.idle != [] || CanCreate(w.p)) ==> w.p.woken != {} && !w.p.closed
    ensures co in w.busy ==> w.p.inUse > 0
  {
    if co in w.busy {
      assert w.busy == (w.busy - {co}) + {co};
    }
  }
}
