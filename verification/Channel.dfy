/** Every run of a channel used through plain sends and receives: the steps are the
    uninterrupted stretches of a coroutine between suspension points, cancellation
    at any wait included. */
module Channel {
  import opened Seqs
  import opened ChannelCore

  datatype Call = Call(id: nat, value: Msg)

  /** Bookkeeping beside the channel. `sending`/`receiving`: awaiters suspended now.
      `calls`: sends in call order; `gone`: calls that were refused, closed out or
      cancelled before their value was taken. */
  datatype History = History(
    used: set<nat>,
    sending: set<nat>,
    receiving: set<nat>,
    calls: seq<Call>,
    gone: set<nat>,
    accepted: multiset<Msg>,
    received: multiset<Msg>,
    dropped: multiset<Msg>,
    handed: seq<Msg>,
    eof: bool)

  datatype World = World(n: Net, h: History)

  datatype Event =
    | TrySend(id: nat, m: Msg)
    | Send(id: nat, m: Msg)
    | SendResume(id: nat)
    | SendCancel(id: nat)
    | TryReceive
    | Receive(id: nat)
    | ReceiveResume(id: nat)
    | ReceiveCancel(id: nat)
    | Close
    | AddSender
    | ReleaseSender
    | AddReceiver
    | ReleaseReceiver

  function Init(capacity: Capacity): World {
    World(Net(Chan(capacity, [], [], [], false, false, 0, 0), Ledger(map[], {}, [], {})),
          History({}, {}, {}, [], {}, multiset{}, multiset{}, multiset{}, [], false))
  }

  /** A value accepted right away: directly handed over when a receiver was parked. */
  function NoteAccept(h: History, m: Msg, direct: bool): History {
    h.(accepted := h.accepted + multiset{m}, handed := if direct then h.handed + [m] else h.handed)
  }

  function NoteCall(h: History, id: nat, m: Msg): History {
    h.(used := h.used + {id}, calls := h.calls + [Call(id, m)])
  }

  function NoteGone(h: History, ids: set<nat>): History {
    h.(gone := h.gone + ids)
  }

  /** Values a step took from parked senders (they leave the sender queue front). */
  function NoteTaken(h: History, before: Net, after: Net): History
    requires |after.c.senders| <= |before.c.senders|
  {
    h.(accepted := h.accepted + multiset(Values(before.c.senders[..|before.c.senders| - |after.c.senders|])))
  }

  function Values(ss: seq<SendNode>): (r: seq<Msg>)
    ensures |r| == |ss|
    ensures forall i :: 0 <= i < |ss| ==> r[i] == ss[i].value
  {
    seq(|ss|, i requires 0 <= i < |ss| => ss[i].value)
  }

  function DeliveredValues(ds: seq<Handover>): (r: seq<Msg>)
    ensures |r| == |ds|
    ensures forall i :: 0 <= i < |ds| ==> r[i] == ds[i].value
  {
    seq(|ds|, i requires 0 <= i < |ds| => ds[i].value)
  }

  function StepTrySend(w: World, id: nat, m: Msg): World {
    var h := NoteCall(w.h, id, m);
    if SendRefused(w.n.c) then w.(h := NoteGone(h, {id}))
    else
      var (n, ok) := Accept(w.n, m);
      if ok then World(n, NoteAccept(h, m, n.c.receivers != w.n.c.receivers))
      else w.(h := NoteGone(h, {id}))
  }

  function StepSend(w: World, id: nat, m: Msg): World {
    var h := NoteCall(w.h, id, m);
    if SendRefused(w.n.c) then
      World(SendSuspend(w.n, id, m), NoteGone(h.(sending := h.sending + {id}), {id}))
    else
      var (n, ok) := Accept(w.n, m);
      if ok then World(n, NoteAccept(h, m, n.c.receivers != w.n.c.receivers))
      else World(SendSuspend(w.n, id, m), h.(sending := h.sending + {id}))
  }

  function StepSendEnd(w: World, id: nat, cancelled: bool): World {
    var h := w.h.(sending := w.h.sending - {id});
    var l := w.n.l.(woken := w.n.l.woken - {id}, taken := w.n.l.taken - {id});
    if id in w.n.l.taken then World(w.n.(l := l), h)
    else World(DropSender(w.n.(l := l), id), if cancelled then NoteGone(h, {id}) else h)
  }

  function StepTryReceive(w: World): World {
    var (n, got) := TryRecv(w.n);
    if got.Nothing? then w
    else World(n, NoteReceived(NoteTaken(w.h, w.n, n), got.value))
  }

  function NoteReceived(h: History, m: Msg): History {
    h.(received := h.received + multiset{m}, handed := h.handed + [m])
  }

  function StepReceive(w: World, id: nat): World {
    var h := w.h.(used := w.h.used + {id});
    var (n, got) := RecvReady(w.n);
    match got
    case Value(m) => World(n, NoteReceived(NoteTaken(h, w.n, n), m))
    case EndOfStream => World(n, h.(eof := true))
    case NotReady => World(RecvSuspend(w.n, id), h.(receiving := h.receiving + {id}))
  }

  function StepReceiveResume(w: World, id: nat): World {
    var h := w.h.(receiving := w.h.receiving - {id});
    var k := DeliveredIndex(w.n.l.delivered, id);
    var l := w.n.l.(woken := w.n.l.woken - {id});
    if k == |w.n.l.delivered| then World(w.n.(l := l), h.(eof := true))
    else World(w.n.(l := l.(delivered := RemoveAt(l.delivered, k))),
               h.(received := h.received + multiset{w.n.l.delivered[k].value}))
  }

  /** The receive awaiter dies without `await_resume`: unlink, or give the value back. */
  function StepReceiveCancel(w: World, id: nat): World {
    var h := w.h.(receiving := w.h.receiving - {id});
    var k := DeliveredIndex(w.n.l.delivered, id);
    var l := w.n.l.(woken := w.n.l.woken - {id});
    if k == |w.n.l.delivered| then World(DropReceiver(w.n.(l := l), id), h)
    else
      var m := w.n.l.delivered[k].value;
      var (n, kept) := ReturnValue(w.n.(l := l.(delivered := RemoveAt(l.delivered, k))), m);
      World(n, if kept then h else h.(dropped := h.dropped + multiset{m}))
  }

  /** An explicit close, or the last receiver's release. */
  function StepClose(w: World, noReceivers: bool): World {
    World(if noReceivers then NoteNoReceivers(w.n) else CloseSend(w.n), NoteGone(w.h, SendIds(w.n.c.senders)))
  }

  function WithEndpoints(w: World, senders: nat, receivers: nat): World {
    w.(n := w.n.(c := w.n.c.(liveSenders := senders, liveReceivers := receivers)))
  }

  /** Events that cannot happen now leave the world alone. */
  predicate Enabled(w: World, e: Event) {
    match e
    case TrySend(id, _) => id !in w.h.used
    case Send(id, _) => id !in w.h.used
    case SendResume(id) => id in w.h.sending && id in w.n.l.woken
    case SendCancel(id) => id in w.h.sending
    case Receive(id) => id !in w.h.used
    case ReceiveResume(id) => id in w.h.receiving && id in w.n.l.woken
    case ReceiveCancel(id) => id in w.h.receiving
    case ReleaseSender => w.n.c.liveSenders > 0
    case ReleaseReceiver => w.n.c.liveReceivers > 0
    case _ => true
  }

  function Step(w: World, e: Event): World {
    if !Enabled(w, e) then w
    else
      match e
      case TrySend(id, m) => StepTrySend(w, id, m)
      case Send(id, m) => StepSend(w, id, m)
      case SendResume(id) => StepSendEnd(w, id, false)
      case SendCancel(id) => StepSendEnd(w, id, true)
      case TryReceive => StepTryReceive(w)
      case Receive(id) => StepReceive(w, id)
      case ReceiveResume(id) => StepReceiveResume(w, id)
      case ReceiveCancel(id) => StepReceiveCancel(w, id)
      case Close => StepClose(w, false)
      case AddSender => WithEndpoints(w, w.n.c.liveSenders + 1, w.n.c.liveReceivers)
      case ReleaseSender =>
        var v := WithEndpoints(w, w.n.c.liveSenders - 1, w.n.c.liveReceivers);
        if v.n.c.liveSenders == 0 then StepClose(v, false) else v
      case AddReceiver => WithEndpoints(w, w.n.c.liveSenders, w.n.c.liveReceivers + 1)
      case ReleaseReceiver =>
        var v := WithEndpoints(w, w.n.c.liveSenders, w.n.c.liveReceivers - 1);
        if v.n.c.liveReceivers == 0 then StepClose(v, true) else v
  }

  function Run(w: World, es: seq<Event>): World {
    if es == [] then w else Step(Run(w, es[..|es| - 1]), es[|es| - 1])
  }

  /** Nobody is parked while they could proceed, and the capacity is respected. */
  ghost predicate Progress(c: Chan) {
    && (c.capacity.Bounded? ==> |c.buffer| <= c.capacity.n)
    && (c.receivers != [] ==> c.buffer == [] && c.senders == [] && !c.sendClosed)
    && (c.senders != [] ==> !HasRoom(c) && !c.sendClosed)
    && (c.receiversGone ==> c.sendClosed)
  }

  ghost predicate Plain(n: Net) {
    && n.l.claims == map[]
    && (forall i :: 0 <= i < |n.c.senders| ==> n.c.senders[i].gate.Ungated?)
    && (forall i :: 0 <= i < |n.c.receivers| ==> n.c.receivers[i].gate.Ungated?)
  }

  ghost predicate Distinct(n: Net) {
    && (forall i, j :: 0 <= i < j < |n.c.senders| ==> n.c.senders[i].id != n.c.senders[j].id)
    && (forall i, j :: 0 <= i < j < |n.c.receivers| ==> n.c.receivers[i].id != n.c.receivers[j].id)
    && (forall i, j :: 0 <= i < j < |n.l.delivered| ==> n.l.delivered[i].id != n.l.delivered[j].id)
  }

  function HandoverIds(ds: seq<Handover>): set<nat> {
    set x | x in ds :: x.id
  }

  /** Every suspended awaiter is either in its queue or scheduled, never both; flags
      and queues never disagree. */
  ghost predicate Accounted(l: Ledger, h: History, parkedS: set<nat>, parkedR: set<nat>, landed: set<nat>) {
    && h.sending <= h.used && h.receiving <= h.used && l.woken <= h.used && h.sending !! h.receiving
    && parkedS <= h.sending && parkedS !! l.woken
    && parkedR <= h.receiving && parkedR !! l.woken
    && landed <= h.receiving && landed <= l.woken
    && l.taken <= h.sending && l.taken <= l.woken
    && h.sending <= parkedS + l.woken
    && h.receiving <= parkedR + l.woken
  }

  /** Accepted = received + buffered + handed over but not resumed + dropped. */
  ghost predicate Conserved(w: World) {
    w.h.accepted == w.h.received + multiset(w.n.c.buffer) + multiset(DeliveredValues(w.n.l.delivered)) + w.h.dropped
  }

  ghost predicate Shape(n: Net) {
    Progress(n.c) && Plain(n) && Distinct(n)
  }

  ghost predicate Inv(w: World) {
    && Shape(w.n)
    && Accounted(w.n.l, w.h, SendIds(w.n.c.senders), RecvIds(w.n.c.receivers), HandoverIds(w.n.l.delivered))
    && Conserved(w)
  }

  lemma PromoteIdle(n: Net)
    requires n.c.senders == [] || !HasRoom(n.c)
    ensures Promote(n) == n
  {
  }

  /** Taking a buffered value lets exactly the oldest parked sender in. */
  lemma PopFrontPlain(n: Net)
    requires Progress(n.c) && Plain(n) && n.c.buffer != []
    ensures var r := PopFront(n);
      var rest := n.(c := n.c.(buffer := n.c.buffer[1..]));
      if n.c.senders == [] then r == rest else r == PromoteOne(rest)
  {
    var rest := n.(c := n.c.(buffer := n.c.buffer[1..]));
    if n.c.senders == [] {
      PromoteIdle(rest);
    } else {
      assert CanPromote(rest);
      PromoteIdle(PromoteOne(rest));
    }
  }

  lemma FirstOpenPlain(n: Net)
    requires Plain(n)
    ensures FirstOpen(n.c.receivers, n.l.claims) == 0
  {
  }

  lemma SendIdsRemove(ss: seq<SendNode>, k: nat)
    requires k < |ss| && forall i, j :: 0 <= i < j < |ss| ==> ss[i].id != ss[j].id
    ensures SendIds(RemoveAt(ss, k)) == SendIds(ss) - {ss[k].id}
  {
    RemoveAtElems(ss, k);
    forall x | x in RemoveAt(ss, k) ensures x.id != ss[k].id {
      var i :| 0 <= i < |RemoveAt(ss, k)| && RemoveAt(ss, k)[i] == x;
    }
  }

  lemma RecvIdsRemove(rs: seq<RecvNode>, k: nat)
    requires k < |rs| && forall i, j :: 0 <= i < j < |rs| ==> rs[i].id != rs[j].id
    ensures RecvIds(RemoveAt(rs, k)) == RecvIds(rs) - {rs[k].id}
  {
    RemoveAtElems(rs, k);
    forall x | x in RemoveAt(rs, k) ensures x.id != rs[k].id {
      var i :| 0 <= i < |RemoveAt(rs, k)| && RemoveAt(rs, k)[i] == x;
    }
  }

  lemma HandoverIdsRemove(ds: seq<Handover>, k: nat)
    requires k < |ds| && forall i, j :: 0 <= i < j < |ds| ==> ds[i].id != ds[j].id
    ensures HandoverIds(RemoveAt(ds, k)) == HandoverIds(ds) - {ds[k].id}
    ensures multiset(DeliveredValues(ds)) == multiset(DeliveredValues(RemoveAt(ds, k))) + multiset{ds[k].value}
  {
    RemoveAtElems(ds, k);
    forall x | x in RemoveAt(ds, k) ensures x.id != ds[k].id {
      var i :| 0 <= i < |RemoveAt(ds, k)| && RemoveAt(ds, k)[i] == x;
    }
    RemoveAtMultiset(DeliveredValues(ds), k);
    assert DeliveredValues(RemoveAt(ds, k)) == RemoveAt(DeliveredValues(ds), k);
  }

  lemma HandoverIdsAppend(ds: seq<Handover>, x: Handover)
    ensures HandoverIds(ds + [x]) == HandoverIds(ds) + {x.id}
    ensures DeliveredValues(ds + [x]) == DeliveredValues(ds) + [x.value]
  {
  }

  lemma DeliverKeeps(n: Net, h: History, m: Msg)
    requires Shape(n) && n.c.receivers != []
    requires Accounted(n.l, h, SendIds(n.c.senders), RecvIds(n.c.receivers), HandoverIds(n.l.delivered))
    ensures var (d, ok) := Deliver(n, m);
      && ok && Shape(d) && d.c == n.c.(receivers := n.c.receivers[1..])
      && Accounted(d.l, h, SendIds(d.c.senders), RecvIds(d.c.receivers), HandoverIds(d.l.delivered))
      && d.l.delivered == n.l.delivered + [Handover(n.c.receivers[0].id, m)]
  {
    FirstOpenPlain(n);
    var (d, ok) := Deliver(n, m);
    var x := n.c.receivers[0];
    assert d.c.receivers == n.c.receivers[1..];
    RecvIdsRemove(n.c.receivers, 0);
    assert x in n.c.receivers;
    HandoverIdsAppend(n.l.delivered, Handover(x.id, m));
    assert forall y :: y in n.l.delivered ==> y.id in HandoverIds(n.l.delivered);
  }

  lemma DirectKeeps(w: World, h: History, m: Msg)
    requires Inv(w) && w.n.c.receivers != [] && SameCounts(h, w.h)
    ensures Inv(World(Deliver(w.n, m).0, NoteAccept(h, m, true)))
  {
    DeliverKeeps(w.n, h, m);
    var x := Handover(w.n.c.receivers[0].id, m);
    HandoverIdsAppend(w.n.l.delivered, x);
    assert multiset(DeliveredValues(w.n.l.delivered) + [m]) == multiset(DeliveredValues(w.n.l.delivered)) + multiset{m};
  }

  ghost predicate SameCounts(h: History, g: History) {
    && h.sending == g.sending && h.receiving == g.receiving && g.used <= h.used
    && h.accepted == g.accepted && h.received == g.received && h.dropped == g.dropped
  }

  lemma AcceptKeeps(w: World, h: History, m: Msg)
    requires Inv(w) && !SendRefused(w.n.c) && SameCounts(h, w.h)
    ensures var (n, ok) := Accept(w.n, m);
      if ok then Inv(World(n, NoteAccept(h, m, n.c.receivers != w.n.c.receivers)))
      else w.n == n && w.n.c.receivers == [] && !HasRoom(w.n.c)
  {
    FirstOpenPlain(w.n);
    if w.n.c.receivers != [] {
      DirectKeeps(w, h, m);
      assert |Deliver(w.n, m).0.c.receivers| < |w.n.c.receivers|;
    } else if HasRoom(w.n.c) {
      assert multiset(w.n.c.buffer + [m]) == multiset(w.n.c.buffer) + multiset{m};
    }
  }

  lemma TrySendKeeps(w: World, id: nat, m: Msg)
    requires Inv(w) && id !in w.h.used
    ensures Inv(StepTrySend(w, id, m))
  {
    if !SendRefused(w.n.c) {
      AcceptKeeps(w, NoteCall(w.h, id, m), m);
    }
  }

  lemma SendSuspendPlain(n: Net, id: nat, m: Msg)
    requires Shape(n) && id !in SendIds(n.c.senders)
    ensures SendRefused(n.c) ==> SendSuspend(n, id, m) == Wake(n, id)
    ensures !SendRefused(n.c) ==> SendSuspend(n, id, m) == PushSender(n, SendNode(id, m, Ungated))
  {
    if SendRefused(n.c) {
      var p := PushSender(n, SendNode(id, m, Ungated));
      assert p.c.senders == [SendNode(id, m, Ungated)];
      assert RemoveAt(p.c.senders, 0) == n.c.senders;
      PromoteIdle(n);
    }
  }

  lemma SendKeeps(w: World, id: nat, m: Msg)
    requires Inv(w) && id !in w.h.used
    ensures Inv(StepSend(w, id, m))
  {
    SendSuspendPlain(w.n, id, m);
    if !SendRefused(w.n.c) {
      AcceptKeeps(w, NoteCall(w.h, id, m), m);
      if !Accept(w.n, m).1 {
        var v := StepSend(w, id, m);
        assert SendIds(v.n.c.senders) == SendIds(w.n.c.senders) + {id};
        assert forall x :: x in w.n.c.senders ==> x.id in SendIds(w.n.c.senders);
      }
    }
  }

  lemma DropSenderPlain(n: Net, id: nat)
    requires Progress(n.c)
    ensures var k := SenderIndex(n.c.senders, id);
      DropSender(n, id) ==
      if k < |n.c.senders| then n.(c := n.c.(senders := RemoveAt(n.c.senders, k))) else n
  {
    var k := SenderIndex(n.c.senders, id);
    if k < |n.c.senders| {
      PromoteIdle(n.(c := n.c.(senders := RemoveAt(n.c.senders, k))));
    } else {
      PromoteIdle(n);
    }
  }

  lemma AccountedSendEnds(l: Ledger, h: History, id: nat, s: set<nat>, r: set<nat>, d: set<nat>)
    requires Accounted(l, h, s, r, d) && id in h.sending
    ensures Accounted(l.(woken := l.woken - {id}, taken := l.taken - {id}),
                      h.(sending := h.sending - {id}), s - {id}, r, d)
  {
  }

  lemma AccountedReceiveEnds(l: Ledger, h: History, id: nat, s: set<nat>, r: set<nat>, d: set<nat>)
    requires Accounted(l, h, s, r, d) && id in h.receiving
    ensures Accounted(l.(woken := l.woken - {id}), h.(receiving := h.receiving - {id}), s, r - {id}, d - {id})
  {
  }

  lemma AccountedTaken(l: Ledger, h: History, id: nat, s: set<nat>, r: set<nat>, d: set<nat>)
    requires Accounted(l, h, s, r, d) && id in s
    ensures Accounted(l.(woken := l.woken + {id}, taken := l.taken + {id}), h, s - {id}, r, d)
  {
  }

  /** A send that is not in the queue ends: it was taken, or closed out. */
  lemma {:induction false} SendEndUnparked(w: World, id: nat, h: History)
    requires Inv(w) && id in w.h.sending && id !in SendIds(w.n.c.senders)
    requires h == w.h.(sending := w.h.sending - {id}, gone := h.gone)
    ensures Inv(World(w.n.(l := w.n.l.(woken := w.n.l.woken - {id}, taken := w.n.l.taken - {id})), h))
  {
    var s := SendIds(w.n.c.senders);
    AccountedSendEnds(w.n.l, w.h, id, s, RecvIds(w.n.c.receivers), HandoverIds(w.n.l.delivered));
    assert s - {id} == s;
  }

  /** A parked send is unlinked. */
  lemma {:induction false} SendEndParked(w: World, id: nat, k: nat, h: History)
    requires Inv(w) && id in w.h.sending && k < |w.n.c.senders| && w.n.c.senders[k].id == id
    requires h == w.h.(sending := w.h.sending - {id}, gone := h.gone)
    ensures Inv(World(Net(w.n.c.(senders := RemoveAt(w.n.c.senders, k)),
                          w.n.l.(woken := w.n.l.woken - {id}, taken := w.n.l.taken - {id})), h))
  {
    AccountedSendEnds(w.n.l, w.h, id, SendIds(w.n.c.senders), RecvIds(w.n.c.receivers), HandoverIds(w.n.l.delivered));
    SendIdsRemove(w.n.c.senders, k);
  }

  lemma {:induction false} SendEndKeeps(w: World, id: nat, cancelled: bool)
    requires Inv(w) && id in w.h.sending
    ensures Inv(StepSendEnd(w, id, cancelled))
  {
    var l := w.n.l.(woken := w.n.l.woken - {id}, taken := w.n.l.taken - {id});
    var n := w.n.(l := l);
    var v := StepSendEnd(w, id, cancelled);
    var k := SenderIndex(w.n.c.senders, id);
    DropSenderPlain(n, id);
    if id in w.n.l.taken || k == |w.n.c.senders| {
      assert v.n == n;
      SendEndUnparked(w, id, v.h);
    } else {
      SendEndParked(w, id, k, v.h);
    }
  }

  /** The head sender's value is taken. */
  lemma HeadTaken(n: Net, h: History)
    requires Shape(n) && n.c.senders != []
    requires Accounted(n.l, h, SendIds(n.c.senders), RecvIds(n.c.receivers), HandoverIds(n.l.delivered))
    ensures var x := n.c.senders[0];
      && GateOpen(n.l.claims, x.gate) && Claim(n.l.claims, x.gate) == n.l.claims
      && Accounted(n.l.(taken := n.l.taken + {x.id}, woken := n.l.woken + {x.id}), h,
                   SendIds(n.c.senders[1..]), RecvIds(n.c.receivers), HandoverIds(n.l.delivered))
      && Values(n.c.senders) == [x.value] + Values(n.c.senders[1..])
      && Values(n.c.senders[..1]) == [x.value]
  {
    var x := n.c.senders[0];
    assert x in n.c.senders;
    assert n.c.senders[1..] == RemoveAt(n.c.senders, 0);
    SendIdsRemove(n.c.senders, 0);
    AccountedTaken(n.l, h, x.id, SendIds(n.c.senders), RecvIds(n.c.receivers), HandoverIds(n.l.delivered));
  }

  lemma TakePendingKeeps(w: World, n: Net, m: Msg)
    requires Inv(w) && w.n.c.buffer == [] && TakePendingSender(w.n) == (n, Got(m))
    ensures Inv(World(n, NoteReceived(NoteTaken(w.h, w.n, n), m)))
    ensures [m] + Values(n.c.senders) == Values(w.n.c.senders) && n.c.buffer == []
  {
    HeadTaken(w.n, w.h);
  }

  /** Multiset bookkeeping of one buffered value out, `vs` in. */
  lemma SwapBuffered(w: World, vs: seq<Msg>, buffer: seq<Msg>)
    requires Conserved(w) && w.n.c.buffer != [] && buffer == w.n.c.buffer[1..] + vs
    ensures var m := w.n.c.buffer[0];
      w.h.accepted + multiset(vs) ==
      w.h.received + multiset{m} + multiset(buffer) + multiset(DeliveredValues(w.n.l.delivered)) + w.h.dropped
  {
    var m := w.n.c.buffer[0];
    assert w.n.c.buffer == [m] + w.n.c.buffer[1..];
    assert multiset(w.n.c.buffer) == multiset{m} + multiset(w.n.c.buffer[1..]);
  }

  lemma PopKeepsIdle(w: World)
    requires Inv(w) && w.n.c.buffer != [] && w.n.c.senders == []
    ensures var (n, m) := (PopFront(w.n), w.n.c.buffer[0]);
      && Inv(World(n, NoteReceived(NoteTaken(w.h, w.n, n), m)))
      && [m] + n.c.buffer + Values(n.c.senders) == w.n.c.buffer + Values(w.n.c.senders)
  {
    PopFrontPlain(w.n);
    assert Values(w.n.c.senders[..0]) == [];
    SwapBuffered(w, [], w.n.c.buffer[1..]);
  }

  lemma {:induction false} RefillValues(w: World)
    requires Inv(w) && w.n.c.buffer != [] && w.n.c.senders != []
    ensures
      var n := PopFront(w.n);
      var v := w.n.c.senders[0].value;
      && n == PromoteOne(w.n.(c := w.n.c.(buffer := w.n.c.buffer[1..])))
      && n.c.buffer == w.n.c.buffer[1..] + [v]
      && [w.n.c.buffer[0]] + n.c.buffer + Values(n.c.senders) == w.n.c.buffer + Values(w.n.c.senders)
  {
    PopFrontPlain(w.n);
    HeadTaken(w.n, w.h);
    assert w.n.c.buffer == [w.n.c.buffer[0]] + w.n.c.buffer[1..];
  }

  lemma {:induction false} PopKeepsRefill(w: World)
    requires Inv(w) && w.n.c.buffer != [] && w.n.c.senders != []
    ensures var (n, m) := (PopFront(w.n), w.n.c.buffer[0]);
      && Inv(World(n, NoteReceived(NoteTaken(w.h, w.n, n), m)))
      && [m] + n.c.buffer + Values(n.c.senders) == w.n.c.buffer + Values(w.n.c.senders)
  {
    var (n, m) := (PopFront(w.n), w.n.c.buffer[0]);
    RefillValues(w);
    HeadTaken(w.n, w.h);
    SwapBuffered(w, [w.n.c.senders[0].value], n.c.buffer);
    assert Shape(n);
  }

  lemma PopKeeps(w: World)
    requires Inv(w) && w.n.c.buffer != []
    ensures var (n, m) := (PopFront(w.n), w.n.c.buffer[0]);
      && Inv(World(n, NoteReceived(NoteTaken(w.h, w.n, n), m)))
      && [m] + n.c.buffer + Values(n.c.senders) == w.n.c.buffer + Values(w.n.c.senders)
  {
    if w.n.c.senders == [] {
      PopKeepsIdle(w);
    } else {
      PopKeepsRefill(w);
    }
  }

  /** A value leaves the channel for a receiver that did not have to wait. */
  lemma ImmediateKeeps(w: World, n: Net, m: Msg)
    requires Inv(w)
    requires if w.n.c.buffer != [] then n == PopFront(w.n) && m == w.n.c.buffer[0]
             else TakePendingSender(w.n) == (n, Got(m))
    ensures |n.c.senders| <= |w.n.c.senders| && Inv(World(n, NoteReceived(NoteTaken(w.h, w.n, n), m)))
    ensures [m] + n.c.buffer + Values(n.c.senders) == w.n.c.buffer + Values(w.n.c.senders)
  {
    if w.n.c.buffer != [] {
      PopKeeps(w);
    } else {
      TakePendingKeeps(w, n, m);
    }
  }

  lemma RecvSuspendPlain(n: Net, id: nat)
    requires RecvReady(n).1.NotReady?
    ensures RecvSuspend(n, id) == PushReceiver(n, RecvNode(id, Ungated))
  {
  }

  lemma ReceiveKeeps(w: World, id: nat)
    requires Inv(w) && id !in w.h.used
    ensures Inv(StepReceive(w, id))
  {
    var h := w.h.(used := w.h.used + {id});
    var (n, got) := RecvReady(w.n);
    match got
    case Value(m) => ImmediateKeeps(w.(h := h), n, m);
    case EndOfStream =>
    case NotReady =>
      RecvSuspendPlain(w.n, id);
      var v := StepReceive(w, id);
      assert RecvIds(v.n.c.receivers) == RecvIds(w.n.c.receivers) + {id};
      assert forall x :: x in w.n.c.receivers ==> x.id in RecvIds(w.n.c.receivers);
  }

  lemma ReceiveResumeKeeps(w: World, id: nat)
    requires Inv(w) && id in w.h.receiving && id in w.n.l.woken
    ensures Inv(StepReceiveResume(w, id))
  {
    AccountedReceiveEnds(w.n.l, w.h, id, SendIds(w.n.c.senders), RecvIds(w.n.c.receivers), HandoverIds(w.n.l.delivered));
    assert RecvIds(w.n.c.receivers) - {id} == RecvIds(w.n.c.receivers);
    var k := DeliveredIndex(w.n.l.delivered, id);
    if k < |w.n.l.delivered| {
      HandoverIdsRemove(w.n.l.delivered, k);
    } else {
      assert HandoverIds(w.n.l.delivered) - {id} == HandoverIds(w.n.l.delivered);
    }
  }

  lemma DropReceiverKeeps(w: World, id: nat)
    requires Inv(w) && id in w.h.receiving && id !in HandoverIds(w.n.l.delivered)
    ensures Inv(World(DropReceiver(w.n.(l := w.n.l.(woken := w.n.l.woken - {id})), id),
                      w.h.(receiving := w.h.receiving - {id})))
  {
    AccountedReceiveEnds(w.n.l, w.h, id, SendIds(w.n.c.senders), RecvIds(w.n.c.receivers), HandoverIds(w.n.l.delivered));
    assert HandoverIds(w.n.l.delivered) - {id} == HandoverIds(w.n.l.delivered);
    var k := ReceiverIndex(w.n.c.receivers, id);
    if k < |w.n.c.receivers| {
      assert w.n.c.receivers[k] in w.n.c.receivers;
      RecvIdsRemove(w.n.c.receivers, k);
    } else {
      assert RecvIds(w.n.c.receivers) - {id} == RecvIds(w.n.c.receivers);
    }
  }

  /** The receive awaiter of `id` forgets its node and its delivered value. */
  function Forget(w: World, id: nat, k: nat): World
    requires k < |w.n.l.delivered|
  {
    World(w.n.(l := w.n.l.(woken := w.n.l.woken - {id}, delivered := RemoveAt(w.n.l.delivered, k))),
          w.h.(receiving := w.h.receiving - {id}))
  }

  lemma ForgetKeeps(w: World, id: nat, k: nat)
    requires Inv(w) && id in w.h.receiving
    requires k < |w.n.l.delivered| && w.n.l.delivered[k].id == id
    ensures var v := Forget(w, id, k);
      && Shape(v.n)
      && Accounted(v.n.l, v.h, SendIds(v.n.c.senders), RecvIds(v.n.c.receivers), HandoverIds(v.n.l.delivered))
      && v.h.accepted == v.h.received + multiset(v.n.c.buffer) + multiset(DeliveredValues(v.n.l.delivered))
                         + v.h.dropped + multiset{w.n.l.delivered[k].value}
  {
    HandoverIdsRemove(w.n.l.delivered, k);
    assert w.n.l.delivered[k] in w.n.l.delivered;
    AccountedReceiveEnds(w.n.l, w.h, id, SendIds(w.n.c.senders), RecvIds(w.n.c.receivers), HandoverIds(w.n.l.delivered));
    assert RecvIds(w.n.c.receivers) - {id} == RecvIds(w.n.c.receivers);
  }

  /** A value handed to a receiver that is then cancelled goes to the next receiver
      or back to the front of the buffer; it is lost exactly when there is neither
      a parked receiver nor room. */
  lemma {:induction false} ReturnKeeps(w: World, id: nat, k: nat)
    requires Inv(w) && id in w.h.receiving
    requires k == DeliveredIndex(w.n.l.delivered, id) < |w.n.l.delivered|
    ensures Inv(StepReceiveCancel(w, id))
    ensures StepReceiveCancel(w, id).h.dropped ==
            w.h.dropped + (if w.n.c.receivers == [] && !HasRoom(w.n.c)
                           then multiset{w.n.l.delivered[k].value} else multiset{})
  {
    ForgetKeeps(w, id, k);
    var v := Forget(w, id, k);
    var m := w.n.l.delivered[k].value;
    FirstOpenPlain(v.n);
    if w.n.c.receivers != [] {
      DeliverKeeps(v.n, v.h, m);
      HandoverIdsAppend(v.n.l.delivered, Handover(v.n.c.receivers[0].id, m));
      assert multiset(DeliveredValues(v.n.l.delivered) + [m]) == multiset(DeliveredValues(v.n.l.delivered)) + multiset{m};
    } else if HasRoom(w.n.c) {
      assert multiset([m] + v.n.c.buffer) == multiset{m} + multiset(v.n.c.buffer);
    }
  }

  lemma ReceiveCancelKeeps(w: World, id: nat)
    requires Inv(w) && id in w.h.receiving
    ensures Inv(StepReceiveCancel(w, id))
  {
    var k := DeliveredIndex(w.n.l.delivered, id);
    if k < |w.n.l.delivered| {
      ReturnKeeps(w, id, k);
    } else {
      DropReceiverKeeps(w, id);
    }
  }

  lemma {:induction false} CloseKeeps(w: World, noReceivers: bool)
    requires Inv(w)
    ensures Inv(StepClose(w, noReceivers))
  {
    var v := StepClose(w, noReceivers);
    assert SendIds(v.n.c.senders) == {};
    assert v.n.c.receivers == [] ==> RecvIds(v.n.c.receivers) == {};
  }

  lemma {:induction false} TryReceiveKeeps(w: World)
    requires Inv(w)
    ensures Inv(Step(w, TryReceive))
  {
    var (n, got) := TryRecv(w.n);
    if got.Got? {
      ImmediateKeeps(w, n, got.value);
    }
  }

  lemma {:induction false} EndpointsKeep(w: World, senders: nat, receivers: nat)
    requires Inv(w)
    ensures Inv(WithEndpoints(w, senders, receivers))
  {
  }

  lemma {:induction false} ReleaseSenderKeeps(w: World)
    requires Inv(w) && w.n.c.liveSenders > 0
    ensures Inv(Step(w, ReleaseSender))
  {
    var v := WithEndpoints(w, w.n.c.liveSenders - 1, w.n.c.liveReceivers);
    EndpointsKeep(w, w.n.c.liveSenders - 1, w.n.c.liveReceivers);
    CloseKeeps(v, false);
    assert Step(w, ReleaseSender) == if v.n.c.liveSenders == 0 then StepClose(v, false) else v;
  }

  lemma {:induction false} ReleaseReceiverKeeps(w: World)
    requires Inv(w) && w.n.c.liveReceivers > 0
    ensures Inv(Step(w, ReleaseReceiver))
  {
    var v := WithEndpoints(w, w.n.c.liveSenders, w.n.c.liveReceivers - 1);
    EndpointsKeep(w, w.n.c.liveSenders, w.n.c.liveReceivers - 1);
    CloseKeeps(v, true);
    assert Step(w, ReleaseReceiver) == if v.n.c.liveReceivers == 0 then StepClose(v, true) else v;
  }

  lemma {:induction false} StepKeeps(w: World, e: Event)
    requires Inv(w)
    ensures Inv(Step(w, e))
  {
    if Enabled(w, e) {
      match e
      case TrySend(id, m) => TrySendKeeps(w, id, m);
      case Send(id, m) => SendKeeps(w, id, m);
      case SendResume(id) => SendEndKeeps(w, id, false);
      case SendCancel(id) => SendEndKeeps(w, id, true);
      case TryReceive => TryReceiveKeeps(w);
      case Receive(id) => ReceiveKeeps(w, id);
      case ReceiveResume(id) => ReceiveResumeKeeps(w, id);
      case ReceiveCancel(id) => ReceiveCancelKeeps(w, id);
      case Close => CloseKeeps(w, false);
      case AddSender => EndpointsKeep(w, w.n.c.liveSenders + 1, w.n.c.liveReceivers);
      case AddReceiver => EndpointsKeep(w, w.n.c.liveSenders, w.n.c.liveReceivers + 1);
      case ReleaseSender => ReleaseSenderKeeps(w);
      case ReleaseReceiver => ReleaseReceiverKeeps(w);
    }
  }

  /** Capacity, progress, accounting of waiters and conservation of values, in every
      run of every channel. */
  lemma {:induction false} EveryRunKeeps(capacity: Capacity, es: seq<Event>)
    ensures Inv(Run(Init(capacity), es))
  {
    if es == [] {
      assert SendIds([]) == {} && RecvIds([]) == {} && HandoverIds([]) == {};
    } else {
      EveryRunKeeps(capacity, es[..|es| - 1]);
      StepKeeps(Run(Init(capacity), es[..|es| - 1]), es[|es| - 1]);
    }
  }
}
