/** FIFO order and end-of-stream of a channel, in runs where no receiver is cancelled
    after a value was handed to it. */
module ChannelOrder {
  import opened Seqs
  import opened ChannelCore
  import opened Channel

  /** The calls that were not refused, closed out or cancelled, in call order. */
  function Live(calls: seq<Call>, gone: set<nat>): seq<Call> {
    if calls == [] then []
    else
      var last := calls[|calls| - 1];
      Live(calls[..|calls| - 1], gone) + (if last.id in gone then [] else [last])
  }

  function CallValues(calls: seq<Call>): (r: seq<Msg>)
    ensures |r| == |calls|
    ensures forall i :: 0 <= i < |calls| ==> r[i] == calls[i].value
  {
    seq(|calls|, i requires 0 <= i < |calls| => calls[i].value)
  }

  ghost predicate DistinctCalls(calls: seq<Call>) {
    forall i, j :: 0 <= i < j < |calls| ==> calls[i].id != calls[j].id
  }

  lemma {:induction false} LiveConcat(a: seq<Call>, b: seq<Call>, gone: set<nat>)
    ensures Live(a + b, gone) == Live(a, gone) + Live(b, gone)
  {
    if b == [] {
      assert a + b == a;
    } else {
      assert (a + b)[..|a + b| - 1] == a + b[..|b| - 1];
      LiveConcat(a, b[..|b| - 1], gone);
    }
  }

  lemma {:induction false} LiveTwice(calls: seq<Call>, g1: set<nat>, g2: set<nat>)
    ensures Live(calls, g1 + g2) == Live(Live(calls, g1), g2)
  {
    if calls != [] {
      var last := calls[|calls| - 1];
      LiveTwice(calls[..|calls| - 1], g1, g2);
      LiveConcat(Live(calls[..|calls| - 1], g1), if last.id in g1 then [] else [last], g2);
      assert Live([last], g2) == if last.id in g2 then [] else [last];
    }
  }

  lemma {:induction false} LiveSame(calls: seq<Call>, gone: set<nat>)
    requires forall i :: 0 <= i < |calls| ==> calls[i].id !in gone
    ensures Live(calls, gone) == calls
  {
    if calls != [] {
      LiveSame(calls[..|calls| - 1], gone);
    }
  }

  lemma {:induction false} LiveNone(calls: seq<Call>, gone: set<nat>)
    requires forall i :: 0 <= i < |calls| ==> calls[i].id in gone
    ensures Live(calls, gone) == []
  {
    if calls != [] {
      LiveNone(calls[..|calls| - 1], gone);
    }
  }

  lemma {:induction false} LiveDistinct(calls: seq<Call>, gone: set<nat>)
    requires DistinctCalls(calls)
    ensures DistinctCalls(Live(calls, gone))
    ensures forall x :: x in Live(calls, gone) ==> x in calls && x.id !in gone
  {
    if calls != [] {
      var front := calls[..|calls| - 1];
      LiveDistinct(front, gone);
      forall i | 0 <= i < |Live(front, gone)| ensures Live(front, gone)[i].id != calls[|calls| - 1].id {
        assert Live(front, gone)[i] in front;
      }
    }
  }

  lemma {:induction false} LiveDropOne(a: seq<Call>, x: Call, b: seq<Call>)
    requires forall i :: 0 <= i < |a| ==> a[i].id != x.id
    requires forall i :: 0 <= i < |b| ==> b[i].id != x.id
    ensures Live(a + [x] + b, {x.id}) == a + b
  {
    LiveConcat(a + [x], b, {x.id});
    LiveConcat(a, [x], {x.id});
    LiveSame(a, {x.id});
    LiveNone([x], {x.id});
    LiveSame(b, {x.id});
  }

  /** One call of the live line leaves it. */
  lemma {:induction false} LiveRemove(calls: seq<Call>, gone: set<nat>, k: nat)
    requires DistinctCalls(calls) && k < |Live(calls, gone)|
    ensures Live(calls, gone + {Live(calls, gone)[k].id}) == RemoveAt(Live(calls, gone), k)
  {
    var line := Live(calls, gone);
    LiveDistinct(calls, gone);
    LiveTwice(calls, gone, {line[k].id});
    assert line == line[..k] + [line[k]] + line[k + 1..];
    LiveDropOne(line[..k], line[k], line[k + 1..]);
  }

  lemma LiveAppend(calls: seq<Call>, gone: set<nat>, c: Call)
    requires c.id !in gone && forall i :: 0 <= i < |calls| ==> calls[i].id != c.id
    ensures Live(calls + [c], gone) == Live(calls, gone) + [c]
    ensures Live(calls + [c], gone + {c.id}) == Live(calls, gone)
  {
    assert (calls + [c])[..|calls|] == calls;
    LiveTwice(calls + [c], gone, {c.id});
    LiveConcat(Live(calls, gone), [c], {c.id});
    LiveNone([c], {c.id});
    forall i | 0 <= i < |Live(calls, gone)| ensures Live(calls, gone)[i].id != c.id {
      LiveMembers(calls, gone);
      assert Live(calls, gone)[i] in calls;
    }
    LiveSame(Live(calls, gone), {c.id});
  }

  lemma {:induction false} LiveMembers(calls: seq<Call>, gone: set<nat>)
    ensures forall x :: x in Live(calls, gone) ==> x in calls
  {
    if calls != [] {
      LiveMembers(calls[..|calls| - 1], gone);
    }
  }

  function CallIds(calls: seq<Call>): set<nat> {
    set x | x in calls :: x.id
  }

  lemma {:induction false} LiveDropTail(a: seq<Call>, b: seq<Call>)
    requires DistinctCalls(a + b)
    ensures Live(a + b, CallIds(b)) == a
  {
    LiveConcat(a, b, CallIds(b));
    forall i | 0 <= i < |a| ensures a[i].id !in CallIds(b) {
      forall x | x in b ensures x.id != a[i].id {
        var j :| 0 <= j < |b| && b[j] == x;
        assert (a + b)[i].id != (a + b)[|a| + j].id;
      }
    }
    LiveSame(a, CallIds(b));
    LiveNone(b, CallIds(b));
  }

  /** The tail of the live line leaves it. */
  lemma {:induction false} LiveCut(calls: seq<Call>, gone: set<nat>, k: nat)
    requires DistinctCalls(calls) && k <= |Live(calls, gone)|
    ensures Live(calls, gone + CallIds(Live(calls, gone)[k..])) == Live(calls, gone)[..k]
  {
    var line := Live(calls, gone);
    LiveDistinct(calls, gone);
    LiveTwice(calls, gone, CallIds(line[k..]));
    assert line == line[..k] + line[k..];
    LiveDropTail(line[..k], line[k..]);
  }

  /** The live line is what left the channel's senders, then the parked calls. */
  ghost predicate Lined(line: seq<Call>, out: seq<Msg>, parked: seq<Call>) {
    |line| == |out| + |parked| && line[|out|..] == parked && CallValues(line[..|out|]) == out
  }

  lemma LinedPark(line: seq<Call>, out: seq<Msg>, parked: seq<Call>, c: Call)
    requires Lined(line, out, parked)
    ensures Lined(line + [c], out, parked + [c])
  {
    assert (line + [c])[..|out|] == line[..|out|];
  }

  lemma LinedAccept(line: seq<Call>, out: seq<Msg>, c: Call)
    requires Lined(line, out, [])
    ensures Lined(line + [c], out + [c.value], [])
  {
    assert (line + [c])[..|out| + 1] == line + [c] && line[..|out|] == line;
  }

  lemma LinedTake(line: seq<Call>, out: seq<Msg>, parked: seq<Call>)
    requires Lined(line, out, parked) && parked != []
    ensures Lined(line, out + [parked[0].value], parked[1..])
  {
    assert line[..|out| + 1] == line[..|out|] + [parked[0]];
  }

  lemma LinedRemove(line: seq<Call>, out: seq<Msg>, parked: seq<Call>, k: nat)
    requires Lined(line, out, parked) && k < |parked|
    ensures line[|out| + k] == parked[k]
    ensures Lined(RemoveAt(line, |out| + k), out, RemoveAt(parked, k))
  {
    assert RemoveAt(line, |out| + k)[..|out|] == line[..|out|];
    assert RemoveAt(line, |out| + k)[|out|..] == RemoveAt(parked, k);
  }

  lemma LinedCut(line: seq<Call>, out: seq<Msg>, parked: seq<Call>)
    requires Lined(line, out, parked)
    ensures Lined(line[..|out|], out, [])
  {
    assert line[..|out|][..|out|] == line[..|out|];
  }

  function ParkedCalls(ss: seq<SendNode>): (r: seq<Call>)
    ensures |r| == |ss|
    ensures forall i :: 0 <= i < |ss| ==> r[i] == Call(ss[i].id, ss[i].value)
  {
    seq(|ss|, i requires 0 <= i < |ss| => Call(ss[i].id, ss[i].value))
  }

  lemma ParkedCallIds(ss: seq<SendNode>)
    ensures CallIds(ParkedCalls(ss)) == SendIds(ss)
  {
    var ps := ParkedCalls(ss);
    forall x | x in ss ensures exists y :: y in ps && y.id == x.id {
      var i :| 0 <= i < |ss| && ss[i] == x;
      assert ps[i] in ps;
    }
    forall y | y in ps ensures exists x :: x in ss && x.id == y.id {
      var i :| 0 <= i < |ps| && ps[i] == y;
      assert ss[i] in ss;
    }
  }

  ghost predicate Line(w: World) {
    Lined(Live(w.h.calls, w.h.gone), w.h.handed + w.n.c.buffer, ParkedCalls(w.n.c.senders))
  }

  ghost predicate Ledgered(w: World) {
    && DistinctCalls(w.h.calls)
    && (forall i :: 0 <= i < |w.h.calls| ==> w.h.calls[i].id in w.h.used)
    && w.h.gone <= w.h.used
    && w.h.sending <= SendIds(w.n.c.senders) + w.n.l.taken + w.h.gone
  }

  /** End of stream is reported only when closed and drained, and that is final. */
  ghost predicate Ended(w: World) {
    && (w.h.eof ==> w.n.c.sendClosed && w.n.c.buffer == [])
    && (w.h.receiving * w.n.l.woken <= HandoverIds(w.n.l.delivered) || (w.n.c.sendClosed && w.n.c.buffer == []))
  }

  ghost predicate OrderInv(w: World) {
    Inv(w) && Ledgered(w) && Line(w) && Ended(w)
  }

  /** The step that puts an already handed-over value back. */
  predicate GivesBack(w: World, e: Event) {
    e.ReceiveCancel? && Enabled(w, e) && e.id in HandoverIds(w.n.l.delivered)
  }

  ghost predicate NoneGivenBack(w: World, es: seq<Event>) {
    es == [] || (NoneGivenBack(w, es[..|es| - 1]) && !GivesBack(Run(w, es[..|es| - 1]), es[|es| - 1]))
  }

  lemma RefusedLine(w: World, id: nat, m: Msg, v: World)
    requires Ledgered(w) && Line(w) && id !in w.h.used
    requires v.n.c == w.n.c && v.n.l.taken == w.n.l.taken
    requires v.h == NoteGone(NoteCall(w.h, id, m), {id}).(sending := v.h.sending) && v.h.sending <= w.h.sending + {id}
    ensures Ledgered(v) && Line(v)
  {
    LiveAppend(w.h.calls, w.h.gone, Call(id, m));
  }

  lemma AcceptedLine(w: World, id: nat, m: Msg)
    requires Inv(w) && Ledgered(w) && Line(w) && id !in w.h.used && !SendRefused(w.n.c)
    requires Accept(w.n, m).1
    ensures var n := Accept(w.n, m).0;
      var v := World(n, NoteAccept(NoteCall(w.h, id, m), m, n.c.receivers != w.n.c.receivers));
      Ledgered(v) && Line(v)
  {
    LiveAppend(w.h.calls, w.h.gone, Call(id, m));
    FirstOpenPlain(w.n);
    var n := Accept(w.n, m).0;
    assert w.n.c.senders == [];
    LinedAccept(Live(w.h.calls, w.h.gone), w.h.handed + w.n.c.buffer, Call(id, m));
    if w.n.c.receivers != [] {
      DeliverKeeps(w.n, w.h, m);
      assert w.h.handed + [m] + n.c.buffer == w.h.handed + w.n.c.buffer + [m];
    } else {
      assert w.h.handed + n.c.buffer == w.h.handed + w.n.c.buffer + [m];
    }
  }

  lemma ParkedLine(w: World, id: nat, m: Msg)
    requires Inv(w) && Ledgered(w) && Line(w) && id !in w.h.used && !SendRefused(w.n.c)
    ensures var h := NoteCall(w.h, id, m);
      var v := World(PushSender(w.n, SendNode(id, m, Ungated)), h.(sending := h.sending + {id}));
      Ledgered(v) && Line(v)
  {
    LiveAppend(w.h.calls, w.h.gone, Call(id, m));
    LinedPark(Live(w.h.calls, w.h.gone), w.h.handed + w.n.c.buffer, ParkedCalls(w.n.c.senders), Call(id, m));
    var n := PushSender(w.n, SendNode(id, m, Ungated));
    assert ParkedCalls(n.c.senders) == ParkedCalls(w.n.c.senders) + [Call(id, m)];
    assert SendIds(n.c.senders) == SendIds(w.n.c.senders) + {id};
  }

  /** A send on an open channel wakes only the receiver it hands its value to. */
  lemma AcceptEnded(w: World, m: Msg, h: History)
    requires Inv(w) && Ended(w) && !SendRefused(w.n.c) && h.eof == w.h.eof && h.receiving == w.h.receiving
    ensures Ended(World(Accept(w.n, m).0, h))
  {
    FirstOpenPlain(w.n);
    if w.n.c.receivers != [] {
      HandoverIdsAppend(w.n.l.delivered, Handover(w.n.c.receivers[0].id, m));
    }
  }

  lemma TrySendOrder(w: World, id: nat, m: Msg)
    requires OrderInv(w) && id !in w.h.used
    ensures OrderInv(StepTrySend(w, id, m))
  {
    TrySendKeeps(w, id, m);
    if !SendRefused(w.n.c) && Accept(w.n, m).1 {
      AcceptedLine(w, id, m);
      AcceptEnded(w, m, StepTrySend(w, id, m).h);
    } else {
      RefusedLine(w, id, m, StepTrySend(w, id, m));
    }
  }

  lemma SendOrder(w: World, id: nat, m: Msg)
    requires OrderInv(w) && id !in w.h.used
    ensures OrderInv(StepSend(w, id, m))
  {
    SendKeeps(w, id, m);
    SendSuspendPlain(w.n, id, m);
    if SendRefused(w.n.c) {
      RefusedLine(w, id, m, StepSend(w, id, m));
    } else if Accept(w.n, m).1 {
      AcceptedLine(w, id, m);
      AcceptEnded(w, m, StepSend(w, id, m).h);
    } else {
      ParkedLine(w, id, m);
    }
  }

  lemma SendEndLine(w: World, id: nat, k: nat)
    requires Inv(w) && Ledgered(w) && Line(w) && id in w.h.sending
    requires k < |w.n.c.senders| && w.n.c.senders[k].id == id
    ensures Lined(Live(w.h.calls, w.h.gone + {id}), w.h.handed + w.n.c.buffer,
                  ParkedCalls(RemoveAt(w.n.c.senders, k)))
  {
    var out := w.h.handed + w.n.c.buffer;
    LinedRemove(Live(w.h.calls, w.h.gone), out, ParkedCalls(w.n.c.senders), k);
    LiveRemove(w.h.calls, w.h.gone, |out| + k);
    assert ParkedCalls(RemoveAt(w.n.c.senders, k)) == RemoveAt(ParkedCalls(w.n.c.senders), k);
  }

  lemma SendEndOrder(w: World, id: nat, cancelled: bool)
    requires OrderInv(w) && id in w.h.sending && (cancelled || id in w.n.l.woken)
    ensures OrderInv(StepSendEnd(w, id, cancelled))
  {
    SendEndKeeps(w, id, cancelled);
    DropSenderPlain(w.n.(l := w.n.l.(woken := w.n.l.woken - {id}, taken := w.n.l.taken - {id})), id);
    if id !in w.n.l.taken {
      var k := SenderIndex(w.n.c.senders, id);
      if k < |w.n.c.senders| {
        assert w.n.c.senders[k] in w.n.c.senders;
        assert id in SendIds(w.n.c.senders);
        SendEndLine(w, id, k);
        SendIdsRemove(w.n.c.senders, k);
      } else {
        assert id !in SendIds(w.n.c.senders);
        assert w.h.gone + {id} == w.h.gone;
      }
    }
  }

  lemma ImmediateLine(w: World, n: Net, m: Msg)
    requires Inv(w) && Line(w)
    requires if w.n.c.buffer != [] then n == PopFront(w.n) && m == w.n.c.buffer[0]
             else TakePendingSender(w.n) == (n, Got(m))
    ensures Lined(Live(w.h.calls, w.h.gone), w.h.handed + [m] + n.c.buffer, ParkedCalls(n.c.senders))
  {
    var out := w.h.handed + w.n.c.buffer;
    if w.n.c.senders != [] {
      LinedTake(Live(w.h.calls, w.h.gone), out, ParkedCalls(w.n.c.senders));
      assert ParkedCalls(w.n.c.senders[1..]) == ParkedCalls(w.n.c.senders)[1..];
    }
    if w.n.c.buffer != [] {
      PopFrontPlain(w.n);
      assert w.n.c.buffer == [m] + w.n.c.buffer[1..];
      assert out == w.h.handed + [m] + w.n.c.buffer[1..];
      if w.n.c.senders != [] {
        var v := w.n.c.senders[0].value;
        assert out + [v] == w.h.handed + [m] + (w.n.c.buffer[1..] + [v]);
      }
    } else {
      assert out + [m] == w.h.handed + [m] + n.c.buffer;
    }
  }

  lemma ImmediateOrder(w: World, n: Net, m: Msg)
    requires OrderInv(w)
    requires if w.n.c.buffer != [] then n == PopFront(w.n) && m == w.n.c.buffer[0]
             else TakePendingSender(w.n) == (n, Got(m))
    ensures |n.c.senders| <= |w.n.c.senders| && OrderInv(World(n, NoteReceived(NoteTaken(w.h, w.n, n), m)))
  {
    ImmediateKeeps(w, n, m);
    ImmediateLine(w, n, m);
    if w.n.c.buffer != [] {
      PopFrontPlain(w.n);
    }
    if w.n.c.senders != [] {
      var x := w.n.c.senders[0];
      assert x in w.n.c.senders;
      assert x.id in SendIds(w.n.c.senders);
      assert n.c.senders == RemoveAt(w.n.c.senders, 0);
      SendIdsRemove(w.n.c.senders, 0);
    }
  }

  lemma ReceiveOrder(w: World, id: nat)
    requires OrderInv(w) && id !in w.h.used
    ensures OrderInv(StepReceive(w, id))
  {
    ReceiveKeeps(w, id);
    var (n, got) := RecvReady(w.n);
    match got
    case Value(m) => ImmediateOrder(w.(h := w.h.(used := w.h.used + {id})), n, m);
    case EndOfStream =>
    case NotReady => RecvSuspendPlain(w.n, id);
  }

  lemma ReceiveResumeOrder(w: World, id: nat)
    requires OrderInv(w) && id in w.h.receiving && id in w.n.l.woken
    ensures OrderInv(StepReceiveResume(w, id))
  {
    ReceiveResumeKeeps(w, id);
    var k := DeliveredIndex(w.n.l.delivered, id);
    if k < |w.n.l.delivered| {
      HandoverIdsRemove(w.n.l.delivered, k);
    } else {
      assert id !in HandoverIds(w.n.l.delivered);
      assert id in w.h.receiving * w.n.l.woken;
    }
  }

  lemma ReceiveCancelOrder(w: World, id: nat)
    requires OrderInv(w) && id in w.h.receiving && id !in HandoverIds(w.n.l.delivered)
    ensures OrderInv(StepReceiveCancel(w, id))
  {
    ReceiveCancelKeeps(w, id);
  }

  lemma CloseOrder(w: World, noReceivers: bool)
    requires OrderInv(w)
    ensures OrderInv(StepClose(w, noReceivers))
  {
    CloseKeeps(w, noReceivers);
    var out := w.h.handed + w.n.c.buffer;
    LinedCut(Live(w.h.calls, w.h.gone), out, ParkedCalls(w.n.c.senders));
    LiveCut(w.h.calls, w.h.gone, |out|);
    ParkedCallIds(w.n.c.senders);
    var v := StepClose(w, noReceivers);
    assert ParkedCalls(v.n.c.senders) == [];
    assert SendIds(w.n.c.senders) <= v.h.gone <= v.h.used by {
      assert forall x :: x in SendIds(w.n.c.senders) ==> x in w.h.sending;
    }
  }

  lemma SenderStepOrder(w: World, e: Event)
    requires OrderInv(w) && Enabled(w, e) && (e.TrySend? || e.Send? || e.SendResume? || e.SendCancel?)
    ensures OrderInv(Step(w, e))
  {
    match e
    case TrySend(id, m) => TrySendOrder(w, id, m);
    case Send(id, m) => SendOrder(w, id, m);
    case SendResume(id) => SendEndOrder(w, id, false);
    case SendCancel(id) => SendEndOrder(w, id, true);
  }

  lemma ReceiverStepOrder(w: World, e: Event)
    requires OrderInv(w) && Enabled(w, e) && !GivesBack(w, e)
    requires e.TryReceive? || e.Receive? || e.ReceiveResume? || e.ReceiveCancel?
    ensures OrderInv(Step(w, e))
  {
    match e
    case TryReceive =>
      var (n, got) := TryRecv(w.n);
      if got.Got? {
        ImmediateOrder(w, n, got.value);
      }
    case Receive(id) => ReceiveOrder(w, id);
    case ReceiveResume(id) => ReceiveResumeOrder(w, id);
    case ReceiveCancel(id) => ReceiveCancelOrder(w, id);
  }

  lemma EndpointsOrder(w: World, s: nat, r: nat)
    requires OrderInv(w)
    ensures OrderInv(WithEndpoints(w, s, r))
  {
  }

  lemma {:induction false} ReleaseSenderOrder(w: World)
    requires OrderInv(w) && w.n.c.liveSenders > 0
    ensures OrderInv(Step(w, ReleaseSender))
  {
    var v := WithEndpoints(w, w.n.c.liveSenders - 1, w.n.c.liveReceivers);
    EndpointsOrder(w, w.n.c.liveSenders - 1, w.n.c.liveReceivers);
    CloseOrder(v, false);
    assert Step(w, ReleaseSender) == if v.n.c.liveSenders == 0 then StepClose(v, false) else v;
  }

  lemma {:induction false} ReleaseReceiverOrder(w: World)
    requires OrderInv(w) && w.n.c.liveReceivers > 0
    ensures OrderInv(Step(w, ReleaseReceiver))
  {
    var v := WithEndpoints(w, w.n.c.liveSenders, w.n.c.liveReceivers - 1);
    EndpointsOrder(w, w.n.c.liveSenders, w.n.c.liveReceivers - 1);
    CloseOrder(v, true);
    assert Step(w, ReleaseReceiver) == if v.n.c.liveReceivers == 0 then StepClose(v, true) else v;
  }

  lemma {:induction false} StepOrder(w: World, e: Event)
    requires OrderInv(w) && !GivesBack(w, e)
    ensures OrderInv(Step(w, e))
  {
    if Enabled(w, e) {
      if e.TrySend? || e.Send? || e.SendResume? || e.SendCancel? {
        SenderStepOrder(w, e);
      } else if e.TryReceive? || e.Receive? || e.ReceiveResume? || e.ReceiveCancel? {
        ReceiverStepOrder(w, e);
      } else if e.Close? {
        CloseOrder(w, false);
      } else if e.ReleaseSender? {
        ReleaseSenderOrder(w);
      } else if e.ReleaseReceiver? {
        ReleaseReceiverOrder(w);
      } else {
        EndpointsOrder(w, Step(w, e).n.c.liveSenders, Step(w, e).n.c.liveReceivers);
      }
    }
  }

  /** Values handed out, then the buffer, then the parked senders' values, are the
      sends in call order minus the refused, closed-out and cancelled ones. */
  lemma {:induction false} EveryRunOrdered(capacity: Capacity, es: seq<Event>)
    requires NoneGivenBack(Init(capacity), es)
    ensures var w := Run(Init(capacity), es);
      && OrderInv(w)
      && w.h.handed + w.n.c.buffer + Values(w.n.c.senders) == CallValues(Live(w.h.calls, w.h.gone))
  {
    if es == [] {
      EveryRunKeeps(capacity, es);
      assert ParkedCalls([]) == [];
    } else {
      EveryRunOrdered(capacity, es[..|es| - 1]);
      StepOrder(Run(Init(capacity), es[..|es| - 1]), es[|es| - 1]);
    }
    LineValues(Run(Init(capacity), es));
  }

  lemma LineValues(w: World)
    requires Line(w)
    ensures w.h.handed + w.n.c.buffer + Values(w.n.c.senders) == CallValues(Live(w.h.calls, w.h.gone))
  {
    var line := Live(w.h.calls, w.h.gone);
    var out := w.h.handed + w.n.c.buffer;
    assert line == line[..|out|] + ParkedCalls(w.n.c.senders);
    forall i | 0 <= i < |out| ensures CallValues(line)[i] == out[i] {
      assert CallValues(line[..|out|])[i] == line[i].value;
    }
  }
}
