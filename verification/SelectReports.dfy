/**
 * What a select that waited reports when a receive has won: the value that
 * was handed to that branch, in every run.
 */
module SelectReports {
  import opened Seqs
  import opened ChannelCore
  import opened SelectCore
  import opened Select
  import opened SelectSteps
  import opened SelectLoss
  import opened SelectEnds
  import opened SelectValues

  /** A select that waited and was won by a receive reports the value handed to that branch's node. */
  predicate Reported(w: World, s: nat, sel: Sel) {
    match sel.phase
    case Ended(Won(i, got), _) =>
      i < |sel.branches| && sel.branches[i].RecvOf? && ArmedAt(w.reg, s, sel, i) ==>
        got.Value? && got == ValueFor(w.l.delivered, sel.base + i)
    case _ => true
  }

  ghost predicate AllReported(w: World) {
    forall s :: s in w.sels ==> Reported(w, s, w.sels[s])
  }

  /** More handovers, and nodes of other selects: what was reported is still right. */
  ghost predicate Extends(w: World, w': World) {
    && w.l.delivered <= w'.l.delivered
    && forall id :: id in w'.reg && (id !in w.reg || w'.reg[id] != w.reg[id]) ==>
         w'.reg[id].gate.Gated? ==> w'.reg[id].gate.select !in w.sels || w.sels[w'.reg[id].gate.select].phase.Waiting?
  }

  lemma {:induction false} ValueStays(ds: seq<Handover>, more: seq<Handover>, id: nat)
    requires ds <= more && ValueFor(ds, id).Value?
    ensures ValueFor(more, id) == ValueFor(ds, id)
  {
    var k := DeliveredIndex(ds, id);
    assert more[k] == ds[k];
    assert DeliveredIndex(more, id) == k;
  }

  lemma {:induction false} ReportedStays(w: World, w': World, s: nat)
    requires s in w.sels && Reported(w, s, w.sels[s]) && w.sels[s].phase.Ended? && Extends(w, w')
    ensures Reported(w', s, w.sels[s])
  {
    var sel := w.sels[s];
    if sel.phase.result.Won? && sel.phase.result.branch < |sel.branches| && sel.branches[sel.phase.result.branch].RecvOf? &&
       ArmedAt(w'.reg, s, sel, sel.phase.result.branch) {
      var id := sel.base + sel.phase.result.branch;
      assert id in w.reg && w'.reg[id] == w.reg[id];
      ValueStays(w.l.delivered, w'.l.delivered, id);
    }
  }

  lemma {:induction false} DropDelivers(n: Net, id: nat)
    ensures DropSender(n, id).l.delivered == n.l.delivered && DropReceiver(n, id).l.delivered == n.l.delivered
  {
    PromoteLeaves(Unlink(n, id));
    assert DropSender(n, id) == Promote(Unlink(n, id));
  }

  lemma {:induction false} ReadyDelivers(n: Net)
    ensures RecvReady(n).0.l.delivered == n.l.delivered && TryRecv(n).0.l.delivered == n.l.delivered
  {
    if n.c.buffer != [] { PromoteLeaves(n.(c := n.c.(buffer := n.c.buffer[1..]))); }
  }

  lemma {:induction false} TryNowDelivers(n: Net, s: nat, i: nat, b: Branch)
    ensures n.l.delivered <= TryNow(n, s, i, b).0.l.delivered
  {
    ReadyDelivers(Claimed(n, s, i));
  }

  lemma {:induction false} FastDelivers(w: World, s: nat, bs: seq<Branch>, i: nat)
    requires InRange(|w.chans|, bs) && i <= |bs|
    ensures
      var f := FastPath(w, s, bs, i).0;
      w.l.delivered <= f.l.delivered && f.reg == w.reg && f.sels == w.sels && f.next == w.next
    decreases |bs| - i
  {
    if i < |bs| {
      var (n, t) := TryNow(At(w, bs[i].ch), s, i, bs[i]);
      TryNowDelivers(At(w, bs[i].ch), s, i, bs[i]);
      if !t.Now? { FastDelivers(Put(w, bs[i].ch, n), s, bs, i + 1); }
    }
  }

  ghost predicate OnlyNodesOf(w: World, r: World, s: nat) {
    && r.l == w.l && r.sels == w.sels
    && forall id :: id in r.reg ==> (id in w.reg && r.reg[id] == w.reg[id]) || Of(r.reg[id].gate, s)
  }

  lemma {:induction false} ArmLinks(w: World, s: nat, base: nat, bs: seq<Branch>, i: nat)
    requires InRange(|w.chans|, bs) && i <= |bs|
    ensures OnlyNodesOf(w, ArmAll(w, s, base, bs, i), s)
    decreases |bs| - i
  {
    if i < |bs| {
      ArmLinks(ArmOne(w, s, base + i, i, bs[i]), s, base, bs, i + 1);
      assert OnlyNodesOf(w, ArmOne(w, s, base + i, i, bs[i]), s);
    }
  }

  lemma {:induction false} StartExtends(w: World, e: Event)
    requires Inv(w) && Starts(w, e)
    ensures Extends(w, Step(w, e)) && e.select in Step(w, e).sels
    ensures forall t :: t in w.sels ==> t in Step(w, e).sels && Step(w, e).sels[t] == w.sels[t]
    ensures forall t :: t in Step(w, e).sels ==> t in w.sels || t == e.select
    ensures Reported(Step(w, e), e.select, Step(w, e).sels[e.select])
  {
    var s, bs := e.select, e.branches;
    var (f, chosen) := FastPath(w, s, bs, 0);
    FastDelivers(w, s, bs, 0);
    var armed := f.(sels := f.sels[s := Sel(bs, e.hasTimer, w.next, Waiting)], next := w.next + |bs|);
    ArmLinks(armed, s, w.next, bs, 0);
    if chosen.Chosen? { assert NodeKnown(w, w.next + chosen.branch); }
  }

  /** Plain operations link only plain nodes. */
  lemma {:induction false} PlainLinks(w: World, e: Event, id: nat)
    requires !e.Start? && !e.Resume? && !e.Cancel?
    ensures
      var r := PlainStep(w, e).reg;
      id in r && (id !in w.reg || r[id] != w.reg[id]) ==> r[id].gate.Ungated?
  {
  }

  lemma {:induction false} PlainSendDelivers(w: World, k: nat, m: Msg)
    requires k < |w.chans|
    ensures w.l.delivered <= PlainStep(w, PlainSend(k, m)).l.delivered
  {
    DropDelivers(At(LinkPlain(w, k, Out(m)), k), w.next);
  }

  lemma {:induction false} PlainDelivers(w: World, e: Event)
    requires !e.Start? && !e.Resume? && !e.Cancel?
    ensures w.l.delivered <= PlainStep(w, e).l.delivered && PlainStep(w, e).sels == w.sels
  {
    if e.ch < |w.chans| {
      match e
      case PlainSend(k, m) => PlainSendDelivers(w, k, m);
      case PlainRecv(k) => ReadyDelivers(At(w, k));
      case TryReceive(k) => ReadyDelivers(At(w, k));
      case ForgetSender(k, id) => DropDelivers(At(w, k), id);
      case ForgetReceiver(k, id) => DropDelivers(At(w, k), id);
      case _ =>
    }
  }

  lemma {:induction false} PlainExtends(w: World, e: Event)
    requires !e.Start? && !e.Resume? && !e.Cancel?
    ensures Extends(w, PlainStep(w, e)) && PlainStep(w, e).sels == w.sels
  {
    PlainDelivers(w, e);
    var v := PlainStep(w, e);
    forall id | id in v.reg && (id !in w.reg || v.reg[id] != w.reg[id]) ensures v.reg[id].gate.Ungated? {
      PlainLinks(w, e, id);
    }
  }

  lemma {:induction false} FinishReports(w: World, s: nat, result: Result)
    requires Inv(w) && s in w.sels && w.sels[s].phase.Waiting? && InRange(|w.chans|, w.sels[s].branches)
    requires result == Cancelled || exists expired :: result == ResultOf(w, s, w.sels[s], expired)
    ensures
      var v := Finish(w, s, w.sels[s], result);
      && Extends(w, v) && s in v.sels && Reported(v, s, v.sels[s])
      && (forall t :: t in v.sels ==> t in w.sels && (t != s ==> v.sels[t] == w.sels[t]))
  {
    var sel := w.sels[s];
    assert Disarming(w, s, sel, 0);
    DisarmEmpties(w, s, sel, 0);
    var v := Finish(w, s, sel, result);
    if result.Won? {
      var expired :| result == ResultOf(w, s, sel, expired);
      FinishKeeps(w, s, result);
      assert SelOk(v, s);
    }
  }

  lemma {:induction false} RestReported(w: World, v: World, changed: set<nat>)
    requires AllReported(w) && Extends(w, v)
    requires forall t :: t in v.sels && t !in changed ==> t in w.sels && v.sels[t] == w.sels[t]
    requires forall t :: t in v.sels && t in changed ==> Reported(v, t, v.sels[t])
    ensures AllReported(v)
  {
    forall t | t in v.sels ensures Reported(v, t, v.sels[t]) {
      if t !in changed && w.sels[t].phase.Ended? { ReportedStays(w, v, t); }
    }
  }

  lemma {:induction false} StepReports(w: World, e: Event)
    requires Inv(w) && AllReported(w)
    ensures AllReported(Step(w, e))
  {
    var v := Step(w, e);
    if v != w {
      match e
      case Start(s, _, _, _, _) =>
        StartExtends(w, e);
        RestReported(w, v, {s});
      case Resume(s, expired) =>
        FinishReports(w, s, ResultOf(w, s, w.sels[s], expired));
        RestReported(w, v, {s});
      case Cancel(s) =>
        FinishReports(w, s, Cancelled);
        RestReported(w, v, {s});
      case _ =>
        PlainExtends(w, e);
        RestReported(w, v, {});
    }
  }

  lemma {:induction false} RunReports(capacities: seq<Capacity>, events: seq<Event>)
    ensures AllReported(Run(Init(capacities), events))
    decreases |events|
  {
    if events != [] {
      RunReports(capacities, events[..|events| - 1]);
      EveryRunKeeps(capacities, events[..|events| - 1]);
      StepReports(Run(Init(capacities), events[..|events| - 1]), events[|events| - 1]);
    }
  }

  /**
   * A select that waited and reports a receive reports the one value that was
   * ever handed to that branch's node.
   */
  lemma {:induction false} WonReceives(capacities: seq<Capacity>, events: seq<Event>, s: nat)
    requires
      var w := Run(Init(capacities), events);
      && s in w.sels && w.sels[s].phase.Ended? && w.sels[s].phase.result.Won?
      && w.sels[s].phase.result.branch < |w.sels[s].branches| && w.sels[s].branches[w.sels[s].phase.result.branch].RecvOf?
      && ArmedAt(w.reg, s, w.sels[s], w.sels[s].phase.result.branch)
    ensures
      var w := Run(Init(capacities), events);
      var result := w.sels[s].phase.result;
      var id := w.sels[s].base + result.branch;
      exists i :: 0 <= i < |w.l.delivered| && w.l.delivered[i].id == id && result.got == Value(w.l.delivered[i].value)
        && forall j :: 0 <= j < |w.l.delivered| && w.l.delivered[j].id == id ==> j == i
  {
    EveryRunKeeps(capacities, events);
    RunReports(capacities, events);
    var w := Run(Init(capacities), events);
    var sel := w.sels[s];
    assert Reported(w, s, sel);
    var k := DeliveredIndex(w.l.delivered, sel.base + sel.phase.result.branch);
    assert w.l.delivered[k].id == sel.base + sel.phase.result.branch;
    assert GivenOnce(w.l);
  }
}
