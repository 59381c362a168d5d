/** The channel as the source has it: one shared object whose deques and flags are
    changed in place by the endpoints and the awaiters. Every method is tied to a
    step of the machine in `Channel`. */
module ChannelObject {
  import opened Seqs
  import opened ChannelCore
  import opened Channel

  datatype SendResult = Sent | WouldWait | ClosedError

  class ChannelState {
    const capacity: Capacity
    var buffer: seq<Msg>
    var senders: seq<SendNode>
    var receivers: seq<RecvNode>
    var sendClosed: bool
    var receiversGone: bool
    var liveSenders: nat
    var liveReceivers: nat
    var ledger: Ledger

    function Abs(): Net
      reads this
    {
      Net(Chan(capacity, buffer, senders, receivers, sendClosed, receiversGone, liveSenders, liveReceivers), ledger)
    }

    constructor (capacity: Capacity)
      ensures Abs() == Init(capacity).n
    {
      this.capacity := capacity;
      buffer, senders, receivers := [], [], [];
      sendClosed, receiversGone := false, false;
      liveSenders, liveReceivers := 0, 0;
      ledger := Ledger(map[], {}, [], {});
    }

    method Deliver(m: Msg) returns (ok: bool)
      modifies this
      ensures (Abs(), ok) == ChannelCore.Deliver(old(Abs()), m)
    {
      var k := 0;
      while k < |receivers|
        invariant k <= |receivers|
        invariant Abs() == old(Abs())
        invariant forall i :: 0 <= i < k ==> !GateOpen(ledger.claims, receivers[i].gate)
      {
        var node := receivers[k];
        if GateOpen(ledger.claims, node.gate) {
          assert k == FirstOpen(receivers, ledger.claims);
          receivers := RemoveAt(receivers, k);
          ledger := ledger.(claims := Claim(ledger.claims, node.gate),
                            delivered := ledger.delivered + [Handover(node.id, m)],
                            woken := ledger.woken + {node.id});
          return true;
        }
        k := k + 1;
      }
      return false;
    }

    method TakePendingSender() returns (got: Taken)
      modifies this
      ensures (Abs(), got) == ChannelCore.TakePendingSender(old(Abs()))
    {
      if senders == [] || !GateOpen(ledger.claims, senders[0].gate) {
        return Nothing;
      }
      var node := senders[0];
      senders := senders[1..];
      ledger := ledger.(claims := Claim(ledger.claims, node.gate), taken := ledger.taken + {node.id},
                        woken := ledger.woken + {node.id});
      return Got(node.value);
    }

    method PromoteSenders()
      modifies this
      ensures Abs() == Promote(old(Abs()))
    {
      while senders != [] && (capacity.Unbounded? || |buffer| < capacity.n)
        invariant Promote(Abs()) == Promote(old(Abs()))
        decreases |senders|
      {
        var node := senders[0];
        if !GateOpen(ledger.claims, node.gate) {
          return;
        }
        senders := senders[1..];
        buffer := buffer + [node.value];
        ledger := ledger.(claims := Claim(ledger.claims, node.gate), taken := ledger.taken + {node.id},
                          woken := ledger.woken + {node.id});
      }
    }

    method ReturnValue(m: Msg) returns (kept: bool)
      modifies this
      ensures (Abs(), kept) == ChannelCore.ReturnValue(old(Abs()), m)
    {
      var ok := Deliver(m);
      if ok {
        return true;
      }
      if !HasRoom(Abs().c) {
        return false;
      }
      buffer := [m] + buffer;
      return true;
    }

    method CloseSendSide()
      modifies this
      ensures Abs() == CloseSend(old(Abs()))
    {
      sendClosed := true;
      ghost var parked := senders;
      while senders != []
        invariant buffer == old(buffer) && receivers == old(receivers) && receiversGone == old(receiversGone)
        invariant sendClosed && liveSenders == old(liveSenders) && liveReceivers == old(liveReceivers)
        invariant ledger == old(ledger).(woken := ledger.woken)
        invariant ledger.woken + SendIds(senders) == old(ledger.woken) + SendIds(parked)
        decreases |senders|
      {
        var node := senders[0];
        assert SendIds(senders) == {node.id} + SendIds(senders[1..]) by {
          assert senders == [node] + senders[1..];
        }
        senders := senders[1..];
        ledger := ledger.(woken := ledger.woken + {node.id});
      }
      assert SendIds(senders) == {};
      if buffer == [] {
        ghost var waiting := receivers;
        ghost var woken := ledger.woken;
        while receivers != []
          invariant buffer == old(buffer) && senders == [] && receiversGone == old(receiversGone)
          invariant sendClosed && liveSenders == old(liveSenders) && liveReceivers == old(liveReceivers)
          invariant ledger == old(ledger).(woken := ledger.woken)
          invariant ledger.woken + RecvIds(receivers) == woken + RecvIds(waiting)
          decreases |receivers|
        {
          var node := receivers[0];
          assert RecvIds(receivers) == {node.id} + RecvIds(receivers[1..]) by {
            assert receivers == [node] + receivers[1..];
          }
          receivers := receivers[1..];
          ledger := ledger.(woken := ledger.woken + {node.id});
        }
        assert RecvIds(receivers) == {};
      }
    }

    method DropSenderNode(id: nat)
      modifies this
      ensures Abs() == DropSender(old(Abs()), id)
    {
      var k := 0;
      while k < |senders| && senders[k].id != id
        invariant k <= |senders|
        invariant forall i :: 0 <= i < k ==> senders[i].id != id
      {
        k := k + 1;
      }
      assert k == SenderIndex(senders, id);
      if k < |senders| {
        senders := RemoveAt(senders, k);
      }
      PromoteSenders();
    }

    method DropReceiverNode(id: nat)
      modifies this
      ensures Abs() == DropReceiver(old(Abs()), id)
    {
      var k := 0;
      while k < |receivers| && receivers[k].id != id
        invariant k <= |receivers|
        invariant forall i :: 0 <= i < k ==> receivers[i].id != id
      {
        k := k + 1;
      }
      assert k == ReceiverIndex(receivers, id);
      if k < |receivers| {
        receivers := RemoveAt(receivers, k);
      }
    }

    method TryAccept(m: Msg) returns (ok: bool)
      modifies this
      ensures (Abs(), ok) == Accept(old(Abs()), m)
    {
      ok := Deliver(m);
      if !ok && HasRoom(Abs().c) {
        buffer := buffer + [m];
        ok := true;
      }
    }

    method TrySend(ghost id: nat, m: Msg, ghost h: History) returns (r: SendResult)
      modifies this
      ensures Abs() == StepTrySend(World(old(Abs()), h), id, m).n
      ensures r.ClosedError? <==> SendRefused(old(Abs()).c)
      ensures r.Sent? <==> !SendRefused(old(Abs()).c) && Accept(old(Abs()), m).1
    {
      if sendClosed || receiversGone {
        return ClosedError;
      }
      var ok := TryAccept(m);
      return if ok then Sent else WouldWait;
    }

    /** `co_await send(m)` up to its suspension: `Sent` on the ready path. */
    method Send(id: nat, m: Msg, ghost h: History) returns (r: SendResult)
      modifies this
      ensures Abs() == StepSend(World(old(Abs()), h), id, m).n
      ensures r.Sent? <==> !SendRefused(old(Abs()).c) && Accept(old(Abs()), m).1
    {
      if !sendClosed && !receiversGone {
        var ok := TryAccept(m);
        if ok {
          return Sent;
        }
      }
      senders := senders + [SendNode(id, m, Ungated)];
      if sendClosed || receiversGone {
        DropSenderNode(id);
        ledger := ledger.(woken := ledger.woken + {id});
      }
      return WouldWait;
    }

    /** `await_resume` of a suspended send. */
    method SendResume(id: nat, ghost h: History) returns (r: SendResult)
      modifies this
      ensures Abs() == StepSendEnd(World(old(Abs()), h), id, false).n
      ensures r.Sent? <==> id in old(ledger).taken
      ensures !r.Sent? ==> r.ClosedError?
    {
      var taken := id in ledger.taken;
      ledger := ledger.(woken := ledger.woken - {id}, taken := ledger.taken - {id});
      if taken {
        return Sent;
      }
      DropSenderNode(id);
      return ClosedError;
    }

    /** The send awaiter is destroyed without `await_resume`. */
    method SendDestroyed(id: nat, ghost h: History)
      modifies this
      ensures Abs() == StepSendEnd(World(old(Abs()), h), id, true).n
    {
      var taken := id in ledger.taken;
      ledger := ledger.(woken := ledger.woken - {id}, taken := ledger.taken - {id});
      if !taken {
        DropSenderNode(id);
      }
    }

    /** `co_await recv()` up to its suspension. */
    method Receive(id: nat, ghost h: History) returns (r: Received)
      modifies this
      ensures Abs() == StepReceive(World(old(Abs()), h), id).n
      ensures r == RecvReady(old(Abs())).1
    {
      if buffer != [] {
        var m := buffer[0];
        buffer := buffer[1..];
        PromoteSenders();
        return Value(m);
      }
      var got := TakePendingSender();
      if got.Got? {
        return Value(got.value);
      }
      if sendClosed {
        return EndOfStream;
      }
      SuspendReceive(id);
      return NotReady;
    }

    method SuspendReceive(id: nat)
      modifies this
      ensures Abs() == RecvSuspend(old(Abs()), id)
    {
      receivers := receivers + [RecvNode(id, Ungated)];
      if sendClosed && buffer == [] {
        DropReceiverNode(id);
        ledger := ledger.(woken := ledger.woken + {id});
        return;
      }
      if buffer != [] {
        DropReceiverNode(id);
        var m := buffer[0];
        buffer := buffer[1..];
        ledger := ledger.(delivered := ledger.delivered + [Handover(id, m)]);
        PromoteSenders();
        ledger := ledger.(woken := ledger.woken + {id});
        return;
      }
      var got := TakePendingSender();
      if got.Got? {
        ledger := ledger.(delivered := ledger.delivered + [Handover(id, got.value)]);
        ledger := ledger.(woken := ledger.woken + {id});
      }
    }

    method TakeDelivered(id: nat) returns (got: Taken)
      modifies this
      ensures var k := DeliveredIndex(old(ledger).delivered, id);
        var l := old(ledger).(woken := old(ledger).woken - {id});
        if k == |l.delivered| then got.Nothing? && Abs() == old(Abs()).(l := l)
        else got == Got(l.delivered[k].value) && Abs() == old(Abs()).(l := l.(delivered := RemoveAt(l.delivered, k)))
    {
      var k := 0;
      while k < |ledger.delivered| && ledger.delivered[k].id != id
        invariant k <= |ledger.delivered|
        invariant forall i :: 0 <= i < k ==> ledger.delivered[i].id != id
      {
        k := k + 1;
      }
      assert k == DeliveredIndex(ledger.delivered, id);
      ledger := ledger.(woken := ledger.woken - {id});
      if k == |ledger.delivered| {
        return Nothing;
      }
      got := Got(ledger.delivered[k].value);
      ledger := ledger.(delivered := RemoveAt(ledger.delivered, k));
    }

    method ReceiveResume(id: nat, ghost h: History) returns (r: Received)
      modifies this
      ensures Abs() == StepReceiveResume(World(old(Abs()), h), id).n
      ensures var k := DeliveredIndex(old(ledger).delivered, id);
        r == if k < |old(ledger).delivered| then Value(old(ledger).delivered[k].value) else EndOfStream
    {
      var got := TakeDelivered(id);
      return if got.Got? then Value(got.value) else EndOfStream;
    }

    /** The receive awaiter is destroyed without `await_resume`. */
    method ReceiveDestroyed(id: nat, ghost h: History)
      modifies this
      ensures Abs() == StepReceiveCancel(World(old(Abs()), h), id).n
    {
      var got := TakeDelivered(id);
      if got.Got? {
        var kept := ReturnValue(got.value);
      } else {
        DropReceiverNode(id);
      }
    }

    method TryReceive(ghost h: History) returns (got: Taken)
      modifies this
      ensures Abs() == StepTryReceive(World(old(Abs()), h)).n
      ensures got == TryRecv(old(Abs())).1
    {
      if buffer == [] {
        got := TakePendingSender();
      } else {
        got := Got(buffer[0]);
        buffer := buffer[1..];
        PromoteSenders();
      }
    }

    method ReleaseSender(ghost h: History)
      requires liveSenders > 0
      modifies this
      ensures Abs() == Step(World(old(Abs()), h), Event.ReleaseSender).n
    {
      liveSenders := liveSenders - 1;
      if liveSenders == 0 {
        CloseSendSide();
      }
    }

    method ReleaseReceiver(ghost h: History)
      requires liveReceivers > 0
      modifies this
      ensures Abs() == Step(World(old(Abs()), h), Event.ReleaseReceiver).n
    {
      liveReceivers := liveReceivers - 1;
      if liveReceivers == 0 {
        receiversGone := true;
        CloseSendSide();
      }
    }

    // ---- What a select may ask ----

    /** Can a value be handed over now? Nothing is claimed and nothing changes. */
    method ProbeCanAccept() returns (yes: bool)
      ensures yes == ProbeAccept(Abs())
    {
      if sendClosed || receiversGone {
        return false;
      }
      var k := 0;
      while k < |receivers|
        invariant k <= |receivers|
        invariant forall i :: 0 <= i < k ==> !GateOpen(ledger.claims, receivers[i].gate)
      {
        if GateOpen(ledger.claims, receivers[k].gate) {
          return true;
        }
        k := k + 1;
      }
      return capacity.Unbounded? || |buffer| < capacity.n;
    }

    /** Can a result, a value or the end, be had now? */
    method ProbeHasMessage() returns (yes: bool)
      ensures yes == ProbeMessage(Abs())
    {
      if buffer != [] {
        return true;
      }
      if senders != [] && GateOpen(ledger.claims, senders[0].gate) {
        return true;
      }
      return sendClosed;
    }

    /** The commit of a claimed receive; NotReady means that there was nothing to commit. */
    method TakeCommitted() returns (r: Received)
      modifies this
      ensures (Abs(), r) == CommitTake(old(Abs()))
    {
      if buffer != [] {
        r := Value(buffer[0]);
        buffer := buffer[1..];
        PromoteSenders();
        return;
      }
      var got := TakePendingSender();
      if got.Got? {
        return Value(got.value);
      }
      return if sendClosed then EndOfStream else NotReady;
    }
  }
}
