/** What a reported end of stream is worth, in every run of a channel, with values given
    back by cancelled receivers at any time (include/coro/channel.hpp). */
module ChannelEnd {
  import opened Seqs
  import opened ChannelCore
  import opened Channel
  import opened ChannelOrder

  predicate Drained(c: Chan) {
    c.sendClosed && c.buffer == []
  }

  /** A value comes back to a channel that is closed and drained, and there is room for it. */
  predicate Revives(w: World, e: Event) {
    GivesBack(w, e) && Drained(w.n.c) && HasRoom(w.n.c)
  }

  /** Another receiver has been woken to see the end, and has not run yet. */
  predicate EndPending(w: World, id: nat) {
    exists r :: r in w.h.receiving * w.n.l.woken && r !in HandoverIds(w.n.l.delivered) && r != id
  }

  /** A value comes back although the end has been reported, or is about to be. */
  predicate Spoils(w: World, e: Event) {
    Revives(w, e) && (w.h.eof || EndPending(w, e.id))
  }

  // ---- One step ----

  lemma TrySendEnded(w: World, id: nat, m: Msg)
    requires Inv(w) && Ended(w) && id !in w.h.used
    ensures Ended(StepTrySend(w, id, m))
  {
    if !SendRefused(w.n.c) && Accept(w.n, m).1 { AcceptEnded(w, m, StepTrySend(w, id, m).h); }
  }

  lemma SendEnded(w: World, id: nat, m: Msg)
    requires Inv(w) && Ended(w) && id !in w.h.used
    ensures Ended(StepSend(w, id, m))
  {
    SendSuspendPlain(w.n, id, m);
    if !SendRefused(w.n.c) && Accept(w.n, m).1 { AcceptEnded(w, m, StepSend(w, id, m).h); }
  }

  lemma {:induction false} SendEndEnded(w: World, id: nat, cancelled: bool)
    requires Inv(w) && Ended(w) && id in w.h.sending
    ensures Ended(StepSendEnd(w, id, cancelled)) && StepSendEnd(w, id, cancelled).n.c.buffer == w.n.c.buffer
  {
    DropSenderPlain(w.n.(l := w.n.l.(woken := w.n.l.woken - {id}, taken := w.n.l.taken - {id})), id);
  }

  lemma ImmediateEnded(w: World, n: Net, m: Msg)
    requires Inv(w) && Ended(w)
    requires if w.n.c.buffer != [] then n == PopFront(w.n) && m == w.n.c.buffer[0]
             else TakePendingSender(w.n) == (n, Got(m))
    ensures |n.c.senders| <= |w.n.c.senders| && Ended(World(n, NoteReceived(NoteTaken(w.h, w.n, n), m)))
    ensures !Drained(w.n.c)
  {
    if w.n.c.buffer != [] { PopFrontPlain(w.n); }
    if w.n.c.senders != [] { SenderNotReceiver(w); }
  }

  /** Waking a sender wakes no receiver. */
  lemma SenderNotReceiver(w: World)
    requires Inv(w) && w.n.c.senders != []
    ensures w.n.c.senders[0].id !in w.h.receiving
  {
    assert w.n.c.senders[0] in w.n.c.senders;
    assert w.n.c.senders[0].id in SendIds(w.n.c.senders);
  }

  lemma ReceiveEnded(w: World, id: nat)
    requires Inv(w) && Ended(w) && id !in w.h.used
    ensures Ended(StepReceive(w, id))
  {
    var (n, got) := RecvReady(w.n);
    match got
    case Value(m) => ImmediateEnded(w.(h := w.h.(used := w.h.used + {id})), n, m);
    case EndOfStream =>
    case NotReady => RecvSuspendPlain(w.n, id);
  }

  lemma ReceiveResumeEnded(w: World, id: nat)
    requires Inv(w) && Ended(w) && id in w.h.receiving && id in w.n.l.woken
    ensures Ended(StepReceiveResume(w, id))
  {
    var k := DeliveredIndex(w.n.l.delivered, id);
    if k < |w.n.l.delivered| {
      HandoverIdsRemove(w.n.l.delivered, k);
    } else {
      assert id !in HandoverIds(w.n.l.delivered);
      assert id in w.h.receiving * w.n.l.woken;
    }
  }

  /** A value that comes back: handed on, put back in front, or dropped for want of room. */
  lemma GiveBackShape(w: World, id: nat, k: nat)
    requires Inv(w) && id in w.h.receiving && k == DeliveredIndex(w.n.l.delivered, id) < |w.n.l.delivered|
    ensures HandoverIds(RemoveAt(w.n.l.delivered, k)) == HandoverIds(w.n.l.delivered) - {id}
    ensures
      var v := StepReceiveCancel(w, id);
      var m := w.n.l.delivered[k].value;
      var rest := RemoveAt(w.n.l.delivered, k);
      && v.h.eof == w.h.eof && v.h.receiving == w.h.receiving - {id} && v.n.c.sendClosed == w.n.c.sendClosed
      && if w.n.c.receivers != [] then
           var r := w.n.c.receivers[0].id;
           v.n.l.delivered == rest + [Handover(r, m)] && v.n.l.woken == w.n.l.woken - {id} + {r} && v.n.c.buffer == w.n.c.buffer
         else
           && v.n.l.delivered == rest && v.n.l.woken == w.n.l.woken - {id}
           && v.n.c.buffer == if HasRoom(w.n.c) then [m] + w.n.c.buffer else w.n.c.buffer
  {
    HandoverIdsRemove(w.n.l.delivered, k);
    ForgetKeeps(w, id, k);
    FirstOpenPlain(Forget(w, id, k).n);
  }

  lemma GiveBackEnded(w: World, id: nat, k: nat)
    requires Inv(w) && Ended(w) && id in w.h.receiving && k == DeliveredIndex(w.n.l.delivered, id) < |w.n.l.delivered|
    ensures Ended(StepReceiveCancel(w, id)) <==> !(Drained(w.n.c) && HasRoom(w.n.c) && (w.h.eof || EndPending(w, id)))
  {
    GiveBackShape(w, id, k);
    var v := StepReceiveCancel(w, id);
    if w.n.c.receivers != [] {
      HandoverIdsAppend(RemoveAt(w.n.l.delivered, k), Handover(w.n.c.receivers[0].id, w.n.l.delivered[k].value));
    } else if EndPending(w, id) {
      var r :| r in w.h.receiving * w.n.l.woken && r !in HandoverIds(w.n.l.delivered) && r != id;
      assert r in v.h.receiving * v.n.l.woken && r !in HandoverIds(v.n.l.delivered);
    } else {
      forall r | r in v.h.receiving * v.n.l.woken ensures r in HandoverIds(v.n.l.delivered) {
        assert r in w.h.receiving * w.n.l.woken && r != id;
      }
    }
  }

  lemma {:induction false} NothingBackEnded(w: World, id: nat)
    requires Inv(w) && Ended(w) && id in w.h.receiving && DeliveredIndex(w.n.l.delivered, id) == |w.n.l.delivered|
    ensures id !in HandoverIds(w.n.l.delivered) && Ended(StepReceiveCancel(w, id))
  {
  }

  lemma {:induction false} ReceiveCancelEnded(w: World, id: nat)
    requires Inv(w) && Ended(w) && id in w.h.receiving
    ensures Ended(StepReceiveCancel(w, id)) <==> !Spoils(w, ReceiveCancel(id))
  {
    var k := DeliveredIndex(w.n.l.delivered, id);
    if k < |w.n.l.delivered| {
      assert w.n.l.delivered[k] in w.n.l.delivered;
      assert id in HandoverIds(w.n.l.delivered);
      GiveBackEnded(w, id, k);
    } else {
      NothingBackEnded(w, id);
    }
  }

  lemma CloseEnded(w: World, noReceivers: bool)
    requires Inv(w) && Ended(w)
    ensures Ended(StepClose(w, noReceivers)) && StepClose(w, noReceivers).n.c.buffer == w.n.c.buffer
  {
    assert SendIds(w.n.c.senders) !! w.h.receiving;
  }

  lemma {:induction false} EndpointsEnded(w: World, e: Event)
    requires Inv(w) && Ended(w) && Enabled(w, e)
    requires e.Close? || e.AddSender? || e.AddReceiver? || e.ReleaseSender? || e.ReleaseReceiver?
    ensures Ended(Step(w, e))
  {
    match e
    case Close => CloseEnded(w, false);
    case ReleaseSender =>
      var v := WithEndpoints(w, w.n.c.liveSenders - 1, w.n.c.liveReceivers);
      EndpointsKeep(w, w.n.c.liveSenders - 1, w.n.c.liveReceivers);
      CloseEnded(v, false);
    case ReleaseReceiver =>
      var v := WithEndpoints(w, w.n.c.liveSenders, w.n.c.liveReceivers - 1);
      EndpointsKeep(w, w.n.c.liveSenders, w.n.c.liveReceivers - 1);
      CloseEnded(v, true);
    case _ =>
  }

  /** A step keeps the end of stream honest (reported, or about to be, only when closed
      and drained) exactly when it does not bring a value back behind it. */
  lemma {:induction false} EndedExactly(w: World, e: Event)
    requires Inv(w) && Ended(w)
    ensures Ended(Step(w, e)) <==> !Spoils(w, e)
  {
    if Enabled(w, e) {
      match e
      case TrySend(id, m) => TrySendEnded(w, id, m);
      case Send(id, m) => SendEnded(w, id, m);
      case SendResume(id) => SendEndEnded(w, id, false);
      case SendCancel(id) => SendEndEnded(w, id, true);
      case TryReceive =>
        var (n, got) := TryRecv(w.n);
        if got.Got? { ImmediateEnded(w, n, got.value); }
      case Receive(id) => ReceiveEnded(w, id);
      case ReceiveResume(id) => ReceiveResumeEnded(w, id);
      case ReceiveCancel(id) => ReceiveCancelEnded(w, id);
      case _ => EndpointsEnded(w, e);
    }
  }

  // ---- Runs ----

  ghost predicate AlwaysEnded(capacity: Capacity, es: seq<Event>) {
    Ended(Run(Init(capacity), es)) && (es == [] || AlwaysEnded(capacity, es[..|es| - 1]))
  }

  ghost predicate Unspoilt(capacity: Capacity, es: seq<Event>) {
    es == [] || (Unspoilt(capacity, es[..|es| - 1]) && !Spoils(Run(Init(capacity), es[..|es| - 1]), es[|es| - 1]))
  }

  /** In any run, whatever is given back in it, the end of stream is honest all along
      exactly when no value comes back behind it. */
  lemma {:induction false} EndHonestExactly(capacity: Capacity, es: seq<Event>)
    ensures AlwaysEnded(capacity, es) <==> Unspoilt(capacity, es)
  {
    if es != [] {
      var init := es[..|es| - 1];
      EndHonestExactly(capacity, init);
      if AlwaysEnded(capacity, init) {
        EveryRunKeeps(capacity, init);
        AlwaysNow(capacity, init);
        EndedExactly(Run(Init(capacity), init), es[|es| - 1]);
      }
    }
  }

  lemma {:induction false} AlwaysNow(capacity: Capacity, es: seq<Event>)
    requires AlwaysEnded(capacity, es)
    ensures Ended(Run(Init(capacity), es))
  {
  }

  /** After a reported end nothing is handed out any more and the end stays, as long as
      nothing is given back. */
  lemma {:induction false} NothingAfterEnd(w: World, e: Event)
    requires Inv(w) && Ended(w) && w.h.eof && !GivesBack(w, e)
    ensures Step(w, e).h.handed == w.h.handed && Step(w, e).h.eof && Step(w, e).n.c.buffer == []
  {
    if Enabled(w, e) {
      match e
      case SendResume(id) => SendEndEnded(w, id, false);
      case SendCancel(id) => SendEndEnded(w, id, true);
      case Send(id, m) => SendSuspendPlain(w.n, id, m);
      case ReceiveCancel(id) => assert id !in HandoverIds(w.n.l.delivered);
      case _ =>
    }
  }

  /** The end is final: in no continuation without a give-back is a value handed out. */
  lemma {:induction false} EndIsFinal(w: World, es: seq<Event>)
    requires Inv(w) && Ended(w) && w.h.eof && NoneGivenBack(w, es)
    ensures
      var v := Run(w, es);
      Inv(v) && Ended(v) && v.h.eof && v.h.handed == w.h.handed && v.n.c.buffer == []
  {
    if es != [] {
      var init, e := es[..|es| - 1], es[|es| - 1];
      EndIsFinal(w, init);
      NothingAfterEnd(Run(w, init), e);
      EndedExactly(Run(w, init), e);
      StepKeeps(Run(w, init), e);
    }
  }

  /** Exactly when a step makes a value available again after an end of stream: a
      handed-over value is given back and there is room for it. */
  lemma {:induction false} RevivedExactly(w: World, e: Event)
    requires Inv(w) && Ended(w) && w.h.eof
    ensures Step(w, e).n.c.buffer != [] <==> GivesBack(w, e) && HasRoom(w.n.c)
  {
    if GivesBack(w, e) {
      var k := DeliveredIndex(w.n.l.delivered, e.id);
      assert k < |w.n.l.delivered|;
      GiveBackShape(w, e.id, k);
    } else {
      NothingAfterEnd(w, e);
    }
  }

  // ---- Two runs in which it is not ----

  /** The end of stream is not final in general: a receiver cancelled after its
      hand-over brings the value back behind the reported end. */
  lemma {:induction false} ValueAfterEnd(m: Msg)
    ensures var w := Run(Init(Bounded(1)), [Receive(1), TrySend(2, m), Close, Receive(4), ReceiveCancel(1)]);
      w.h.eof && w.n.c.buffer == [m]
  {
    RunFive(Init(Bounded(1)), Receive(1), TrySend(2, m), Close, Receive(4), ReceiveCancel(1));
    ReportedFromStart(m);
  }

  lemma {:induction false} ReportedFromStart(m: Msg)
    ensures
      var v := Step(Step(Step(Step(Step(Init(Bounded(1)), Receive(1)), TrySend(2, m)), Close), Receive(4)), ReceiveCancel(1));
      v.h.eof && v.n.c.buffer == [m]
  {
    ValueHandedOver(m);
    EndReported(Step(Step(Init(Bounded(1)), Receive(1)), TrySend(2, m)), m);
  }

  lemma EndReported(w: World, m: Msg)
    requires w.n.l.delivered == [Handover(1, m)] && w.n.c == Init(Bounded(1)).n.c
    requires w.h.receiving == {1} && w.h.used == {1, 2} && w.n.l.claims == map[]
    ensures var v := Step(Step(Step(w, Close), Receive(4)), ReceiveCancel(1)); v.h.eof && v.n.c.buffer == [m]
  {
    var w3 := Step(w, Close);
    assert w3 == StepClose(w, false);
    assert w3.n.c == w.n.c.(sendClosed := true);
    var w4 := Step(w3, Receive(4));
    assert w4 == StepReceive(w3, 4);
    assert w4.n == w3.n && w4.h.eof && w4.h.receiving == {1};
    assert Step(w4, ReceiveCancel(1)) == StepReceiveCancel(w4, 1);
    assert DeliveredIndex(w4.n.l.delivered, 1) == 0;
  }

  lemma ValueHandedOver(m: Msg)
    ensures var w := Step(Step(Init(Bounded(1)), Receive(1)), TrySend(2, m));
      && !w.h.eof && w.n.l.delivered == [Handover(1, m)] && w.n.c == Init(Bounded(1)).n.c
      && w.h.receiving == {1} && w.h.used == {1, 2} && w.n.l.claims == map[]
  {
    var w1 := Step(Init(Bounded(1)), Receive(1));
    assert w1.n.c.receivers == [RecvNode(1, Ungated)];
    FirstOpenPlain(w1.n);
  }

  lemma {:induction false} RunThen(w: World, es: seq<Event>, e: Event)
    ensures Run(w, es + [e]) == Step(Run(w, es), e)
  {
    assert (es + [e])[..|es|] == es;
  }

  lemma {:induction false} RunFive(w: World, a: Event, b: Event, c: Event, d: Event, e: Event)
    ensures Run(w, [a, b, c, d, e]) == Step(Step(Step(Step(Step(w, a), b), c), d), e)
  {
    RunThen(w, [], a);
    RunThen(w, [a], b);
    RunThen(w, [a, b], c);
    RunThen(w, [a, b, c], d);
    RunThen(w, [a, b, c, d], e);
    assert [] + [a] == [a] && [a] + [b] == [a, b] && [a, b] + [c] == [a, b, c];
    assert [a, b, c] + [d] == [a, b, c, d] && [a, b, c, d] + [e] == [a, b, c, d, e];
  }

  /** The end may even be reported over a value: a receiver woken to see the end has not
      run yet when another one gives its value back. */
  lemma {:induction false} EndOverValue(m: Msg)
    ensures
      var w := Run(Init(Bounded(1)), [Receive(1), TrySend(2, m), Receive(4), Close, ReceiveCancel(1)]);
      var v := Step(w, ReceiveResume(4));
      !w.h.eof && v.h.eof && v.n.c.buffer == [m]
  {
    RunFive(Init(Bounded(1)), Receive(1), TrySend(2, m), Receive(4), Close, ReceiveCancel(1));
    WokenFromStart(m);
  }

  lemma {:induction false} WokenFromStart(m: Msg)
    ensures
      var u := Step(Step(Step(Step(Step(Init(Bounded(1)), Receive(1)), TrySend(2, m)), Receive(4)), Close), ReceiveCancel(1));
      var v := Step(u, ReceiveResume(4));
      !u.h.eof && v.h.eof && v.n.c.buffer == [m]
  {
    ValueHandedOver(m);
    WokenForEnd(Step(Step(Init(Bounded(1)), Receive(1)), TrySend(2, m)), m);
  }

  lemma WokenForEnd(w: World, m: Msg)
    requires w.n.l.delivered == [Handover(1, m)] && w.n.c == Init(Bounded(1)).n.c && !w.h.eof
    requires w.h.receiving == {1} && w.h.used == {1, 2} && w.n.l.claims == map[]
    ensures
      var u := Step(Step(Step(w, Receive(4)), Close), ReceiveCancel(1));
      var v := Step(u, ReceiveResume(4));
      !u.h.eof && v.h.eof && v.n.c.buffer == [m]
  {
    var w4 := Step(Step(w, Receive(4)), Close);
    ClosedOverReceiver(w);
    var u := Step(w4, ReceiveCancel(1));
    assert u == StepReceiveCancel(w4, 1);
    assert DeliveredIndex(w4.n.l.delivered, 1) == 0;
    assert RemoveAt(w4.n.l.delivered, 0) == [];
    assert u.n.c.buffer == [m] && u.n.l.delivered == [] && 4 in u.h.receiving && 4 in u.n.l.woken;
    assert Step(u, ReceiveResume(4)) == StepReceiveResume(u, 4);
  }

  lemma ClosedOverReceiver(w: World)
    requires w.n.c == Init(Bounded(1)).n.c && !w.h.eof
    requires w.h.receiving == {1} && w.h.used == {1, 2} && w.n.l.claims == map[]
    ensures
      var v := Step(Step(w, Receive(4)), Close);
      && v.n.c == w.n.c.(sendClosed := true) && v.n.l.delivered == w.n.l.delivered && 4 in v.n.l.woken
      && v.h.receiving == {1, 4} && !v.h.eof
  {
    var w3 := Step(w, Receive(4));
    assert w3 == StepReceive(w, 4);
    assert w3.n.c.receivers == [RecvNode(4, Ungated)] && w3.h.receiving == {1, 4};
    assert RecvNode(4, Ungated) in w3.n.c.receivers;
    assert Step(w3, Close) == StepClose(w3, false);
  }
}
