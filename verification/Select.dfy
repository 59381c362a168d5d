/**
 * `select` over several channels of one loop, as a machine over whole runs
 * (include/coro/select.hpp): any number of selects, and any plain channel
 * operations between their steps.
 *
 * The registry of nodes, and the set of nodes that were linked while their
 * channel still took sends, are the proof's own bookkeeping.
 */
module Select {
  import opened Seqs
  import opened ChannelCore
  import opened SelectCore

  datatype Branch = SendOf(ch: nat, value: Msg) | RecvOf(ch: nat)

  datatype Option<T> = None | Some(value: T)

  /** `Won` carries what a receiving branch got. `Nobody` is index -1; `Cancelled` is no result at all. */
  datatype Result = Won(branch: nat, got: Received) | TimedOut | Defaulted | Closed(branch: nat) | Nobody | Cancelled

  datatype Phase = Waiting | Ended(result: Result, left: seq<Option<Msg>>)

  /** Branch `i` of an armed select is node `base + i`. */
  datatype Sel = Sel(branches: seq<Branch>, hasTimer: bool, base: nat, phase: Phase)

  datatype World = World(chans: seq<Chan>, l: Ledger, sels: map<nat, Sel>, next: nat, reg: Registry, early: set<nat>)

  predicate InRange(chans: nat, bs: seq<Branch>) {
    forall i :: 0 <= i < |bs| ==> bs[i].ch < chans
  }

  function At(w: World, k: nat): Net
    requires k < |w.chans|
  {
    Net(w.chans[k], w.l)
  }

  function Put(w: World, k: nat, n: Net): World
    requires k < |w.chans|
  {
    w.(chans := w.chans[k := n.c], l := n.l)
  }

  // ---- The fast path ----

  predicate Probe(n: Net, b: Branch) {
    if b.SendOf? then ProbeAccept(n) else ProbeMessage(n)
  }

  datatype Tried = NotNow | Now(got: Received)

  /** `try_now`: observe, claim, commit; a failed commit gives the claim back. */
  function TryNow(n: Net, s: nat, i: nat, b: Branch): (Net, Tried) {
    if !Probe(n, b) || s in n.l.claims then (n, NotNow) else
    var claimed := n.(l := n.l.(claims := n.l.claims[s := i]));
    match b
    case SendOf(_, m) =>
      var (r, ok) := Accept(claimed, m);
      if ok then (r, Now(NotReady)) else (r.(l := r.l.(claims := r.l.claims - {s})), NotNow)
    case RecvOf(_) =>
      var (r, got) := CommitTake(claimed);
      if got != NotReady then (r, Now(got)) else (r.(l := r.l.(claims := r.l.claims - {s})), NotNow)
  }

  datatype Fast = Undecided | Chosen(branch: nat, got: Received)

  function FastPath(w: World, s: nat, bs: seq<Branch>, i: nat): (r: (World, Fast))
    requires InRange(|w.chans|, bs) && i <= |bs|
    ensures |r.0.chans| == |w.chans|
    decreases |bs| - i
  {
    if i == |bs| then (w, Undecided) else
    var (n, t) := TryNow(At(w, bs[i].ch), s, i, bs[i]);
    var w' := Put(w, bs[i].ch, n);
    if t.Now? then (w', Chosen(i, t.got)) else FastPath(w', s, bs, i + 1)
  }

  // ---- Arming, resuming, disarming ----

  function KindOf(b: Branch): Kind {
    if b.SendOf? then Out(b.value) else In
  }

  function LinkTo(w: World, id: nat, info: Info): World
    requires info.ch < |w.chans|
  {
    var n := At(w, info.ch);
    var p := if info.kind.Out? then PushSender(n, SendNode(id, info.kind.value, info.gate)) else PushReceiver(n, RecvNode(id, info.gate));
    Put(w, info.ch, p).(reg := w.reg[id := info], early := if SendRefused(n.c) then w.early else w.early + {id})
  }

  /** `arm`: a gated node, linked without a look at the channel's flags. */
  function ArmOne(w: World, s: nat, id: nat, i: nat, b: Branch): World
    requires b.ch < |w.chans|
  {
    LinkTo(w, id, Info(b.ch, Gated(s, i), KindOf(b)))
  }

  function ArmAll(w: World, s: nat, base: nat, bs: seq<Branch>, i: nat): World
    requires InRange(|w.chans|, bs) && i <= |bs|
    decreases |bs| - i
  {
    if i == |bs| then w else ArmAll(ArmOne(w, s, base + i, i, bs[i]), s, base, bs, i + 1)
  }

  function DisarmOne(w: World, id: nat, b: Branch): World
    requires b.ch < |w.chans|
  {
    Put(w, b.ch, if b.SendOf? then DropSender(At(w, b.ch), id) else DropReceiver(At(w, b.ch), id))
  }

  /** `disarm`, branch by branch: a send that was not taken gets its value back. */
  function DisarmAll(w: World, base: nat, bs: seq<Branch>, i: nat): (r: (World, seq<Option<Msg>>))
    requires InRange(|w.chans|, bs) && i <= |bs|
    ensures |r.1| == |bs| - i && |r.0.chans| == |w.chans|
    decreases |bs| - i
  {
    if i == |bs| then (w, []) else
    var mine := if bs[i].SendOf? && base + i !in w.l.taken then Some(bs[i].value) else None;
    var (r, rest) := DisarmAll(DisarmOne(w, base + i, bs[i]), base, bs, i + 1);
    (r, [mine] + rest)
  }

  function ValueFor(ds: seq<Handover>, id: nat): Received {
    var k := DeliveredIndex(ds, id);
    if k < |ds| then Value(ds[k].value) else NotReady
  }

  function ClosedBranch(w: World, bs: seq<Branch>, i: nat): (k: nat)
    requires InRange(|w.chans|, bs) && i <= |bs|
    ensures i <= k <= |bs|
    decreases |bs| - i
  {
    if i == |bs| then i else
    var c := w.chans[bs[i].ch];
    if bs[i].RecvOf? && c.sendClosed && c.buffer == [] then i else ClosedBranch(w, bs, i + 1)
  }

  /** What a resumed select reports. */
  function ResultOf(w: World, s: nat, sel: Sel, expired: bool): Result
    requires InRange(|w.chans|, sel.branches)
  {
    if s in w.l.claims then
      var i := w.l.claims[s];
      Won(i, ValueFor(w.l.delivered, sel.base + i))
    else if sel.hasTimer && expired then TimedOut
    else
      var k := ClosedBranch(w, sel.branches, 0);
      if k < |sel.branches| then Closed(k) else Nobody
  }

  function Finish(w: World, s: nat, sel: Sel, result: Result): World
    requires InRange(|w.chans|, sel.branches)
  {
    var (r, left) := DisarmAll(w, sel.base, sel.branches, 0);
    r.(sels := r.sels[s := sel.(phase := Ended(result, left))])
  }

  /** The values a select keeps when branch `won` gave its own away; |bs| stands for none. */
  function Unsent(bs: seq<Branch>, won: nat): seq<Option<Msg>> {
    seq(|bs|, i requires 0 <= i < |bs| => if bs[i].SendOf? && i != won then Some(bs[i].value) else None)
  }

  // ---- The machine ----

  datatype Event =
    | Start(select: nat, branches: seq<Branch>, hasTimer: bool, hasDefault: bool, expired: bool)
    | Resume(select: nat, expired: bool)
    | Cancel(select: nat)
    | PlainSend(ch: nat, value: Msg)
    | PlainRecv(ch: nat)
    | TrySend(ch: nat, value: Msg)
    | TryReceive(ch: nat)
    | Close(ch: nat)
    | ReceiversGone(ch: nat)
    | ForgetSender(ch: nat, id: nat)
    | ForgetReceiver(ch: nat, id: nat)
    | GiveBack(ch: nat, value: Msg)

  function StartStep(w: World, s: nat, bs: seq<Branch>, hasTimer: bool, hasDefault: bool, expired: bool): World {
    if s in w.sels || !InRange(|w.chans|, bs) then w else
    var sel := Sel(bs, hasTimer, w.next, Waiting);
    var (f, chosen) := FastPath(w, s, bs, 0);
    match chosen
    case Chosen(i, got) => f.(sels := f.sels[s := sel.(phase := Ended(Won(i, got), Unsent(bs, i)))])
    case Undecided =>
      if hasTimer && expired then f.(sels := f.sels[s := sel.(phase := Ended(TimedOut, Unsent(bs, |bs|)))])
      else if hasDefault then f.(sels := f.sels[s := sel.(phase := Ended(Defaulted, Unsent(bs, |bs|)))])
      else ArmAll(f.(sels := f.sels[s := sel], next := w.next + |bs|), s, w.next, bs, 0)
  }

  /** The loop resumes a select that was scheduled, or whose timer has run out. */
  predicate Resumable(w: World, sel: Sel, expired: bool) {
    (sel.hasTimer && expired) || exists id :: id in w.l.woken && sel.base <= id < sel.base + |sel.branches|
  }

  function ResumeStep(w: World, s: nat, expired: bool): World {
    if s in w.sels && w.sels[s].phase.Waiting? && InRange(|w.chans|, w.sels[s].branches) && Resumable(w, w.sels[s], expired)
    then Finish(w, s, w.sels[s], ResultOf(w, s, w.sels[s], expired)) else w
  }

  function CancelStep(w: World, s: nat): World {
    if s in w.sels && w.sels[s].phase.Waiting? && InRange(|w.chans|, w.sels[s].branches)
    then Finish(w, s, w.sels[s], Cancelled) else w
  }

  function LinkPlain(w: World, k: nat, kind: Kind): World
    requires k < |w.chans|
  {
    LinkTo(w, w.next, Info(k, Ungated, kind)).(next := w.next + 1)
  }

  function PlainStep(w: World, e: Event): World {
    if e.Start? || e.Resume? || e.Cancel? || e.ch >= |w.chans| then w else
    var k := e.ch;
    var n := At(w, k);
    match e
    case PlainSend(_, m) =>
      if SendRefused(n.c) then
        var linked := LinkPlain(w, k, Out(m));
        Put(linked, k, Wake(DropSender(At(linked, k), w.next), w.next))
      else
        var (r, ok) := Accept(n, m);
        if ok then Put(w, k, r) else LinkPlain(w, k, Out(m))
    case PlainRecv(_) =>
      var (r, got) := RecvReady(n);
      if got != NotReady then Put(w, k, r) else LinkPlain(w, k, In)
    case TrySend(_, m) => if SendRefused(n.c) then w else Put(w, k, Accept(n, m).0)
    case TryReceive(_) => Put(w, k, TryRecv(n).0)
    case Close(_) => Put(w, k, CloseSend(n))
    case ReceiversGone(_) => Put(w, k, NoteNoReceivers(n))
    case ForgetSender(_, id) =>
      if id in w.reg && w.reg[id].gate.Ungated? then Put(w, k, DropSender(n, id)) else w
    case ForgetReceiver(_, id) =>
      if id in w.reg && w.reg[id].gate.Ungated? then Put(w, k, DropReceiver(n, id)) else w
    case GiveBack(_, m) => Put(w, k, ReturnValue(n, m).0)
  }

  function Step(w: World, e: Event): World {
    match e
    case Start(s, bs, hasTimer, hasDefault, expired) => StartStep(w, s, bs, hasTimer, hasDefault, expired)
    case Resume(s, expired) => ResumeStep(w, s, expired)
    case Cancel(s) => CancelStep(w, s)
    case _ => PlainStep(w, e)
  }

  function Run(w: World, events: seq<Event>): World
    decreases |events|
  {
    if events == [] then w else Step(Run(w, events[..|events| - 1]), events[|events| - 1])
  }

  function Init(capacities: seq<Capacity>): World {
    World(seq(|capacities|, i requires 0 <= i < |capacities| => Chan(capacities[i], [], [], [], false, false, 0, 0)),
      Ledger(map[], {}, [], {}), map[], 0, map[], {})
  }

  // ---- Invariant ----

  /** While a channel takes sends, an open head sender is waiting for room. */
  predicate Calm(w: World, k: nat)
    requires k < |w.chans|
  {
    !SendRefused(w.chans[k]) ==> !CanPromote(At(w, k))
  }

  /** Once a channel refuses sends, only senders linked after that are queued. */
  predicate OnlyLate(c: Chan, early: set<nat>) {
    SendRefused(c) ==> forall i :: 0 <= i < |c.senders| ==> c.senders[i].id !in early
  }

  predicate ChannelSound(w: World, k: nat) {
    k < |w.chans| ==> ChanOk(w.reg, k, w.chans[k], w.l) && Calm(w, k) && OnlyLate(w.chans[k], w.early)
  }

  predicate NodeKnown(w: World, id: nat) {
    && (Moved(w.l, id) || id in w.early ==> id in w.reg)
    && (id in w.reg ==> id < w.next && w.reg[id].ch < |w.chans|)
    && (id in w.reg && w.reg[id].gate.Gated? ==>
          var g := w.reg[id].gate;
          g.select in w.sels && g.branch < |w.sels[g.select].branches| && id == w.sels[g.select].base + g.branch)
  }

  ghost predicate Sound(w: World) {
    && RegOk(w.reg) && LedgerOk(w.reg, w.l)
    && (forall k: nat :: ChannelSound(w, k))
    && (forall id :: NodeKnown(w, id))
    && (forall s :: s in w.l.claims ==> s in w.sels && w.l.claims[s] < |w.sels[s].branches|)
  }

  predicate Gone(w: World, s: nat) {
    forall k: nat {:trigger w.chans[k]} :: k < |w.chans| ==> NoneOf(w.chans[k], s)
  }

  predicate ArmedAt(reg: Registry, s: nat, sel: Sel, i: nat)
    requires i < |sel.branches|
  {
    sel.base + i in reg && reg[sel.base + i] == Info(sel.branches[i].ch, Gated(s, i), KindOf(sel.branches[i]))
  }

  predicate Armed(w: World, s: nat, sel: Sel) {
    forall i: nat :: i < |sel.branches| ==> ArmedAt(w.reg, s, sel, i)
  }

  /** Branch `i` of select `s` is a send that was linked when its channel refused sends already. */
  predicate LinkedLate(reg: Registry, early: set<nat>, s: nat, sel: Sel, i: nat)
    requires i < |sel.branches|
  {
    sel.branches[i].SendOf? && ArmedAt(reg, s, sel, i) && sel.base + i !in early
  }

  /** All of the select's sends that were linked were linked to channels that took sends. */
  predicate SendsOnTime(reg: Registry, early: set<nat>, s: nat, sel: Sel) {
    forall i: nat :: i < |sel.branches| ==> !LinkedLate(reg, early, s, sel, i)
  }

  /** No two sends of the select are on one channel. */
  predicate DistinctSends(bs: seq<Branch>) {
    forall i, j :: 0 <= i < j < |bs| && bs[i].SendOf? && bs[j].SendOf? ==> bs[i].ch != bs[j].ch
  }

  /** The branch that has given or taken a value, or |branches|. */
  function Winner(w: World, s: nat, bs: seq<Branch>): nat {
    if s in w.l.claims then w.l.claims[s] else |bs|
  }

  /**
   * An ended select has left every queue; a send keeps its value unless its
   * own branch won; a reported winner is the winner; without one no branch
   * won, if its sends are on different channels or were linked in time.
   */
  predicate EndedOk(w: World, s: nat, sel: Sel, result: Result, left: seq<Option<Msg>>) {
    && Gone(w, s)
    && left == Unsent(sel.branches, Winner(w, s, sel.branches))
    && (result.Won? ==> s in w.l.claims && w.l.claims[s] == result.branch < |sel.branches|)
    && (result.Won? ==> (sel.branches[result.branch].RecvOf? <==> result.got != NotReady))
    && (!result.Won? && result != Cancelled && s in w.l.claims ==> !SendsOnTime(w.reg, w.early, s, sel) && !DistinctSends(sel.branches))
  }

  predicate SelOk(w: World, s: nat) {
    s in w.sels ==>
      var sel := w.sels[s];
      && InRange(|w.chans|, sel.branches)
      && match sel.phase
         case Waiting => Armed(w, s, sel)
         case Ended(result, left) => EndedOk(w, s, sel, result, left)
  }

  ghost predicate Inv(w: World) {
    Sound(w) && forall s :: SelOk(w, s)
  }
}
