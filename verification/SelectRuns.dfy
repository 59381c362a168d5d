/**
 * What every run of `select` keeps: one winner at most, no node left behind,
 * and no value lost by a losing send.
 */
module SelectRuns {
  import opened Seqs
  import opened ChannelCore
  import opened SelectCore
  import opened Select

  // ---- One channel changes ----

  ghost predicate MayPut(w: World, k: nat, n: Net)
    requires k < |w.chans|
  {
    Keeps(w.reg, k, At(w, k), n) && (!SendRefused(w.chans[k]) ==> !CanPromote(n))
  }

  /** The senders of a channel were its senders before. */
  lemma SendersStay(reg: Registry, k: nat, n: Net, r: Net, i: nat) returns (p: nat)
    requires NetOk(reg, k, n) && Keeps(reg, k, n, r) && i < |r.c.senders|
    ensures p < |n.c.senders| && n.c.senders[p].id == r.c.senders[i].id
  {
    var id := r.c.senders[i].id;
    assert QueuedIn(r.c, id) && QueuedIn(n.c, id) && reg[id].kind.Out?;
    forall j | 0 <= j < |n.c.receivers| ensures n.c.receivers[j].id != id { assert reg[n.c.receivers[j].id].kind.In?; }
    p :| p < |n.c.senders| && n.c.senders[p].id == id;
  }

  lemma PutOnlyLate(w: World, k: nat, n: Net)
    requires Sound(w) && k < |w.chans| && MayPut(w, k, n)
    ensures OnlyLate(n.c, w.early)
  {
    assert ChannelSound(w, k);
    if SendRefused(w.chans[k]) {
      forall i | 0 <= i < |n.c.senders| ensures n.c.senders[i].id !in w.early {
        var p := SendersStay(w.reg, k, At(w, k), n, i);
      }
    }
  }

  lemma PutChannel(w: World, k: nat, n: Net, j: nat)
    requires Sound(w) && k < |w.chans| && MayPut(w, k, n)
    ensures ChannelSound(Put(w, k, n), j)
  {
    assert ChannelSound(w, j);
    PutOnlyLate(w, k, n);
    if j < |w.chans| && j != k {
      OthersKeep(w.reg, k, j, w.chans[j], w.l, n.l);
      if !SendRefused(w.chans[j]) { CalmElsewhere(w.chans[j], w.reg, k, w.l, n.l); }
    }
  }

  lemma PutSound(w: World, k: nat, n: Net)
    requires Sound(w) && k < |w.chans| && MayPut(w, k, n)
    ensures Sound(Put(w, k, n))
  {
    var w' := Put(w, k, n);
    forall j: nat ensures ChannelSound(w', j) { PutChannel(w, k, n, j); }
    forall id ensures NodeKnown(w', id) { assert NodeKnown(w, id); }
    forall s | s in w'.l.claims ensures s in w'.sels && w'.l.claims[s] < |w'.sels[s].branches| {
      if s !in w.l.claims {
        assert Backed(w.reg, n.l, s);
        var id :| id in w.reg && w.reg[id].gate == Gated(s, n.l.claims[s]);
        assert NodeKnown(w, id);
      }
    }
  }

  lemma PutGone(w: World, k: nat, n: Net, s: nat)
    requires k < |w.chans| && Quiet(At(w, k), n) && Gone(w, s)
    ensures Gone(Put(w, k, n), s)
  {
    assert NoneOf(w.chans[k], s) && NoneOf(At(w, k).c, s);
    var w' := Put(w, k, n);
    forall j: nat | j < |w'.chans| ensures NoneOf(w'.chans[j], s) {
      if j != k { assert NoneOf(w.chans[j], s); }
    }
  }

  /** An ended select is beyond the reach of any channel operation. */
  lemma PutSel(w: World, k: nat, n: Net, s: nat)
    requires k < |w.chans| && Later(w.reg, k, w.l, n.l) && Quiet(At(w, k), n) && SelOk(w, s)
    ensures SelOk(Put(w, k, n), s)
  {
    if s in w.sels && w.sels[s].phase.Ended? {
      PutGone(w, k, n, s);
      assert NoneOf(w.chans[k], s) && NoneOf(At(w, k).c, s);
    }
  }

  lemma PutInv(w: World, k: nat, n: Net)
    requires Inv(w) && k < |w.chans| && MayPut(w, k, n)
    ensures Inv(Put(w, k, n))
  {
    PutSound(w, k, n);
    forall s ensures SelOk(Put(w, k, n), s) { PutSel(w, k, n, s); }
  }

  lemma NetOf(w: World, k: nat)
    requires Sound(w) && k < |w.chans|
    ensures NetOk(w.reg, k, At(w, k)) && (!SendRefused(w.chans[k]) ==> !CanPromote(At(w, k)))
  {
    assert ChannelSound(w, k);
  }

  // ---- A node is linked ----

  /** A node may be linked: it is new, and if it belongs to a select, to an undecided waiting one that has no such node yet. */
  predicate MayLink(w: World, id: nat, info: Info) {
    && info.ch < |w.chans| && id < w.next && id !in w.reg
    && (info.gate.Gated? ==>
          var s := info.gate.select;
          && s in w.sels && w.sels[s].phase.Waiting? && s !in w.l.claims
          && info.gate.branch < |w.sels[s].branches| && id == w.sels[s].base + info.gate.branch)
    && (info.kind.Out? ==> SendRefused(w.chans[info.ch]) || !HasRoom(w.chans[info.ch]))
  }

  lemma LinkChannel(w: World, id: nat, info: Info, j: nat)
    requires Sound(w) && MayLink(w, id, info)
    ensures ChannelSound(LinkTo(w, id, info), j)
  {
    assert ChannelSound(w, j) && ChannelSound(w, info.ch) && NodeKnown(w, id);
    GateIsNew(w, id, info);
    if j < |w.chans| {
      if j == info.ch { Linked(w.reg, j, At(w, j), id, info); }
      else { LinkedElsewhere(w.reg, j, w.chans[j], w.l, id, info); }
    }
  }

  lemma GateIsNew(w: World, id: nat, info: Info)
    requires Sound(w) && MayLink(w, id, info)
    ensures !Moved(w.l, id)
    ensures info.gate.Gated? ==> forall a :: a in w.reg ==> w.reg[a].gate != info.gate
  {
    assert NodeKnown(w, id);
    forall a | a in w.reg && info.gate.Gated? ensures w.reg[a].gate != info.gate { assert NodeKnown(w, a); }
  }

  lemma LinkSound(w: World, id: nat, info: Info)
    requires Sound(w) && MayLink(w, id, info)
    ensures Sound(LinkTo(w, id, info))
  {
    var w' := LinkTo(w, id, info);
    assert ChannelSound(w, info.ch);
    GateIsNew(w, id, info);
    Linked(w.reg, info.ch, At(w, info.ch), id, info);
    forall j: nat ensures ChannelSound(w', j) { LinkChannel(w, id, info, j); }
    forall x ensures NodeKnown(w', x) { assert NodeKnown(w, x); }
  }

  /** What is linked late stays linked late, whatever else is linked. */
  lemma LateStays(reg: Registry, early: set<nat>, id: nat, info: Info, s: nat, sel: Sel)
    requires id !in reg && !SendsOnTime(reg, early, s, sel)
    ensures !SendsOnTime(reg[id := info], early, s, sel) && !SendsOnTime(reg[id := info], early + {id}, s, sel)
  {
    var i: nat :| i < |sel.branches| && LinkedLate(reg, early, s, sel, i);
    assert LinkedLate(reg[id := info], early, s, sel, i) && LinkedLate(reg[id := info], early + {id}, s, sel, i);
  }

  lemma LinkSel(w: World, id: nat, info: Info, s: nat)
    requires Sound(w) && MayLink(w, id, info) && SelOk(w, s)
    ensures SelOk(LinkTo(w, id, info), s)
  {
    var w' := LinkTo(w, id, info);
    if s in w.sels && w.sels[s].phase.Waiting? {
      var sel := w.sels[s];
      forall i: nat | i < |sel.branches| ensures ArmedAt(w'.reg, s, sel, i) { assert ArmedAt(w.reg, s, sel, i); }
    }
    if s in w.sels && w.sels[s].phase.Ended? {
      forall j: nat | j < |w'.chans| ensures NoneOf(w'.chans[j], s) { assert NoneOf(w.chans[j], s); }
      if !SendsOnTime(w.reg, w.early, s, w.sels[s]) { LateStays(w.reg, w.early, id, info, s, w.sels[s]); }
    }
  }

  lemma LinkInv(w: World, id: nat, info: Info)
    requires Inv(w) && MayLink(w, id, info)
    ensures Inv(LinkTo(w, id, info))
  {
    LinkSound(w, id, info);
    forall s ensures SelOk(LinkTo(w, id, info), s) { LinkSel(w, id, info, s); }
  }

  lemma NextInv(w: World, next: nat)
    requires Inv(w) && w.next <= next
    ensures Inv(w.(next := next))
  {
    var w' := w.(next := next);
    forall k: nat ensures ChannelSound(w', k) { assert ChannelSound(w, k); }
    forall id ensures NodeKnown(w', id) { assert NodeKnown(w, id); }
    forall s ensures SelOk(w', s) {
      assert SelOk(w, s);
      if s in w.sels && w.sels[s].phase.Ended? { assert Gone(w, s) ==> Gone(w', s); }
    }
  }

  lemma LinkPlainInv(w: World, k: nat, kind: Kind)
    requires Inv(w) && k < |w.chans| && (kind.Out? ==> SendRefused(w.chans[k]) || !HasRoom(w.chans[k]))
    ensures Inv(LinkPlain(w, k, kind))
  {
    NextInv(w, w.next + 1);
    var w1 := w.(next := w.next + 1);
    assert NodeKnown(w, w.next);
    LinkInv(w1, w.next, Info(k, Ungated, kind));
    assert LinkPlain(w, k, kind) == LinkTo(w1, w.next, Info(k, Ungated, kind));
  }

  // ---- Plain steps ----

  lemma AcceptInv(w: World, k: nat, m: Msg)
    requires Inv(w) && k < |w.chans|
    ensures Inv(Put(w, k, Accept(At(w, k), m).0))
    ensures !Accept(At(w, k), m).1 ==> !HasRoom(w.chans[k])
  {
    NetOf(w, k);
    AcceptKeeps(w.reg, k, At(w, k), m);
    if !SendRefused(w.chans[k]) { AcceptCalm(w.reg, k, At(w, k), m); }
    PutInv(w, k, Accept(At(w, k), m).0);
  }

  lemma ReceiveInv(w: World, k: nat)
    requires Inv(w) && k < |w.chans|
    ensures Inv(Put(w, k, RecvReady(At(w, k)).0)) && Inv(Put(w, k, TryRecv(At(w, k)).0))
  {
    NetOf(w, k);
    var n := At(w, k);
    RecvReadyKeeps(w.reg, k, n);
    if n.c.buffer == [] && !SendRefused(w.chans[k]) { TakeCalm(n); }
    if n.c.buffer == [] { TakeKeeps(w.reg, k, n); }
    assert RecvReady(n).0 == TryRecv(n).0;
    PutInv(w, k, RecvReady(n).0);
  }

  lemma DropInv(w: World, k: nat, id: nat)
    requires Inv(w) && k < |w.chans|
    ensures Inv(Put(w, k, DropSender(At(w, k), id))) && Inv(Put(w, k, DropReceiver(At(w, k), id)))
  {
    NetOf(w, k);
    DropSenderKeeps(w.reg, k, At(w, k), id);
    DropReceiverKeeps(w.reg, k, At(w, k), id);
    PutInv(w, k, DropSender(At(w, k), id));
    PutInv(w, k, DropReceiver(At(w, k), id));
  }

  lemma CloseInv(w: World, k: nat)
    requires Inv(w) && k < |w.chans|
    ensures Inv(Put(w, k, CloseSend(At(w, k)))) && Inv(Put(w, k, NoteNoReceivers(At(w, k))))
  {
    NetOf(w, k);
    var n := At(w, k);
    var m := n.(c := n.c.(receiversGone := true));
    CloseKeeps(w.reg, k, n);
    assert NetOk(w.reg, k, m);
    CloseKeeps(w.reg, k, m);
    PutInv(w, k, CloseSend(n));
    assert Quiet(n, CloseSend(m)) by {
      forall s ensures NoneOf(n.c, s) == NoneOf(m.c, s) { }
      forall id ensures QueuedIn(n.c, id) == QueuedIn(m.c, id) { }
    }
    PutInv(w, k, NoteNoReceivers(n));
  }

  lemma GiveBackInv(w: World, k: nat, m: Msg)
    requires Inv(w) && k < |w.chans|
    ensures Inv(Put(w, k, ReturnValue(At(w, k), m).0))
  {
    NetOf(w, k);
    var n := At(w, k);
    ReturnKeeps(w.reg, k, n, m);
    DeliverKeeps(w.reg, k, n, m);
    PutInv(w, k, ReturnValue(n, m).0);
  }

  lemma WakeInv(w: World, k: nat, id: nat)
    requires Inv(w) && k < |w.chans|
    ensures Inv(Put(w, k, Wake(At(w, k), id)))
  {
    NetOf(w, k);
    var n := At(w, k);
    WakeDecides(w.reg, n.l, {id});
    PutInv(w, k, Wake(n, id));
  }

  /** The world in which the next node is known, but linked nowhere. */
  function Registered(w: World, info: Info): World {
    w.(next := w.next + 1, reg := w.reg[w.next := info])
  }

  lemma RegisteredInv(w: World, k: nat, m: Msg)
    requires Inv(w) && k < |w.chans|
    ensures
      var base := Registered(w, Info(k, Ungated, Out(m)));
      && Inv(base) && !QueuedIn(base.chans[k], w.next)
      && NetOk(base.reg, k, PushSender(At(base, k), SendNode(w.next, m, Ungated)))
  {
    var w1 := w.(next := w.next + 1);
    NextInv(w, w.next + 1);
    NetOf(w1, k);
    assert NodeKnown(w, w.next);
    RegisterInv(w1, w.next, Info(k, Ungated, Out(m)));
    Linked(w.reg, k, At(w1, k), w.next, Info(k, Ungated, Out(m)));
    assert ChannelSound(w, k);
  }

  /** A send that comes after the close is linked and unlinked at once. */
  lemma {:induction false} LateSendInv(w: World, k: nat, m: Msg)
    requires Inv(w) && k < |w.chans| && SendRefused(w.chans[k])
    ensures
      var linked := LinkPlain(w, k, Out(m));
      Inv(Put(linked, k, Wake(DropSender(At(linked, k), w.next), w.next)))
  {
    var id := w.next;
    var base := Registered(w, Info(k, Ungated, Out(m)));
    RegisteredInv(w, k, m);
    var p := PushSender(At(base, k), SendNode(id, m, Ungated));
    var linked := LinkPlain(w, k, Out(m));
    assert linked == Put(base, k, p) && At(linked, k) == p;
    var dropped := DropSender(p, id);
    LinkedDropped(base, k, id, m);
    PutInv(base, k, dropped);
    WakeInv(Put(base, k, dropped), k, id);
    PutTwice(base, k, dropped, Wake(dropped, id));
    PutTwice(base, k, p, Wake(dropped, id));
  }

  lemma PutTwice(w: World, k: nat, a: Net, b: Net)
    requires k < |w.chans|
    ensures At(Put(w, k, a), k) == a && Put(Put(w, k, a), k, b) == Put(w, k, b)
  {
  }

  /** Registering a plain node that is not linked anywhere. */
  lemma RegisterInv(w: World, id: nat, info: Info)
    requires Inv(w) && id < w.next && id !in w.reg && info.ch < |w.chans| && info.gate.Ungated?
    ensures Inv(w.(reg := w.reg[id := info]))
  {
    var w' := w.(reg := w.reg[id := info]);
    assert NodeKnown(w, id);
    forall k: nat ensures ChannelSound(w', k) {
      assert ChannelSound(w, k);
      if k < |w.chans| { LinkedElsewhere(w.reg, k, w.chans[k], w.l, id, info); }
    }
    forall x ensures Decided(w'.reg, w'.l, x) { assert Decided(w.reg, w.l, x); }
    forall x ensures NodeKnown(w', x) { assert NodeKnown(w, x); }
    forall s ensures SelOk(w', s) {
      assert SelOk(w, s);
      if s in w.sels && w.sels[s].phase.Waiting? {
        var sel := w.sels[s];
        forall i: nat | i < |sel.branches| ensures ArmedAt(w'.reg, s, sel, i) { assert ArmedAt(w.reg, s, sel, i); }
      }
      if s in w.sels && w.sels[s].phase.Ended? {
        assert Gone(w, s) ==> Gone(w', s);
        if !SendsOnTime(w.reg, w.early, s, w.sels[s]) { LateStays(w.reg, w.early, id, info, s, w.sels[s]); }
      }
    }
  }

  /** Linking and unlinking the same node is, for everyone else, one operation that links nothing. */
  lemma LinkedDropped(base: World, k: nat, id: nat, m: Msg)
    requires Inv(base) && k < |base.chans| && !QueuedIn(base.chans[k], id) && id in base.reg
    requires NetOk(base.reg, k, PushSender(At(base, k), SendNode(id, m, Ungated)))
    ensures
      var r := DropSender(PushSender(At(base, k), SendNode(id, m, Ungated)), id);
      Keeps(base.reg, k, At(base, k), r) && !CanPromote(r)
  {
    var n := At(base, k);
    var p := PushSender(n, SendNode(id, m, Ungated));
    NetOf(base, k);
    var i := SenderIndex(p.c.senders, id);
    assert p.c.senders[|n.c.senders|].id == id;
    assert i == |n.c.senders|;
    assert RemoveAt(p.c.senders, i) == n.c.senders;
    assert DropSender(p, id) == Promote(n);
    PromoteKeeps(base.reg, k, n);
  }

  lemma {:induction false} PlainKeeps(w: World, e: Event)
    requires Inv(w)
    ensures Inv(PlainStep(w, e))
  {
    if !e.Start? && !e.Resume? && !e.Cancel? && e.ch < |w.chans| {
      var k := e.ch;
      NetOf(w, k);
      match e
      case PlainSend(_, m) =>
        AcceptInv(w, k, m);
        if SendRefused(w.chans[k]) { LateSendInv(w, k, m); }
        else if !Accept(At(w, k), m).1 { LinkPlainInv(w, k, Out(m)); }
      case PlainRecv(_) =>
        ReceiveInv(w, k);
        LinkPlainInv(w, k, In);
      case TrySend(_, m) => AcceptInv(w, k, m);
      case TryReceive(_) => ReceiveInv(w, k);
      case Close(_) => CloseInv(w, k);
      case ReceiversGone(_) => CloseInv(w, k);
      case ForgetSender(_, id) => DropInv(w, k, id);
      case ForgetReceiver(_, id) => DropInv(w, k, id);
      case GiveBack(_, m) => GiveBackInv(w, k, m);
    }
  }
}
