/**
 * The effect of one channel operation on the nodes that selects have armed
 * (include/coro/channel.hpp, include/coro/select.hpp).
 *
 * A registry remembers every node ever linked. What is proved here of each
 * primitive: nodes stay where they were linked or leave once; an armed node
 * has moved its value exactly when its select was won by its branch.
 */
module SelectCore {
  import opened Seqs
  import opened ChannelCore

  datatype Kind = Out(value: Msg) | In

  /** Where a node was linked, under which gate, and what for. */
  datatype Info = Info(ch: nat, gate: Gate, kind: Kind)

  type Registry = map<nat, Info>

  predicate IsDelivered(l: Ledger, id: nat) {
    exists i :: 0 <= i < |l.delivered| && l.delivered[i].id == id
  }

  /** The node's value has been taken from it, or one has been given to it. */
  predicate Moved(l: Ledger, id: nat) {
    id in l.taken || IsDelivered(l, id)
  }

  predicate SendersOk(reg: Registry, k: nat, ss: seq<SendNode>) {
    && (forall i :: 0 <= i < |ss| ==> ss[i].id in reg && reg[ss[i].id] == Info(k, ss[i].gate, Out(ss[i].value)))
    && (forall i, j :: 0 <= i < j < |ss| ==> ss[i].id != ss[j].id)
  }

  predicate ReceiversOk(reg: Registry, k: nat, rs: seq<RecvNode>) {
    && (forall i :: 0 <= i < |rs| ==> rs[i].id in reg && reg[rs[i].id] == Info(k, rs[i].gate, In))
    && (forall i, j :: 0 <= i < j < |rs| ==> rs[i].id != rs[j].id)
  }

  /** No queued node has moved. */
  predicate Apart(c: Chan, l: Ledger) {
    && (forall i :: 0 <= i < |c.senders| ==> !Moved(l, c.senders[i].id))
    && (forall i :: 0 <= i < |c.receivers| ==> !Moved(l, c.receivers[i].id))
  }

  predicate ChanOk(reg: Registry, k: nat, c: Chan, l: Ledger) {
    SendersOk(reg, k, c.senders) && ReceiversOk(reg, k, c.receivers) && Apart(c, l)
  }

  /** One branch of one select has one node. */
  predicate RegOk(reg: Registry) {
    forall a, b :: a in reg && b in reg && reg[a].gate.Gated? && reg[a].gate == reg[b].gate ==> a == b
  }

  /** An armed node has moved exactly when its branch has won; then its select is scheduled. */
  predicate Decided(reg: Registry, l: Ledger, id: nat) {
    id in reg && reg[id].gate.Gated? ==>
      var g := reg[id].gate;
      && (Moved(l, id) <==> g.select in l.claims && l.claims[g.select] == g.branch)
      && (Moved(l, id) ==> id in l.woken)
      && (id in l.taken ==> reg[id].kind.Out?)
      && (IsDelivered(l, id) ==> reg[id].kind.In?)
  }

  /** No node is ever given two values. */
  predicate GivenOnce(l: Ledger) {
    forall i, j :: 0 <= i < j < |l.delivered| ==> l.delivered[i].id != l.delivered[j].id
  }

  ghost predicate LedgerOk(reg: Registry, l: Ledger) {
    GivenOnce(l) && forall id :: Decided(reg, l, id)
  }

  /** The branch that won select `s` has a node. */
  predicate Backed(reg: Registry, l: Ledger, s: nat) {
    s in l.claims ==> exists id :: id in reg && reg[id].gate == Gated(s, l.claims[s])
  }

  ghost predicate NetOk(reg: Registry, k: nat, n: Net) {
    RegOk(reg) && ChanOk(reg, k, n.c, n.l) && LedgerOk(reg, n.l)
  }

  ghost predicate Later(reg: Registry, k: nat, before: Ledger, after: Ledger) {
    && (forall s :: s in before.claims ==> s in after.claims && after.claims[s] == before.claims[s])
    && (forall id :: Moved(before, id) ==> Moved(after, id))
    && (forall id :: Moved(after, id) && !Moved(before, id) ==> id in reg && reg[id].ch == k)
    && (forall s :: s in after.claims && s !in before.claims ==> Backed(reg, after, s))
    && before.delivered <= after.delivered && before.taken <= after.taken && before.woken <= after.woken
  }

  lemma LaterSelf(reg: Registry, k: nat, l: Ledger)
    ensures Later(reg, k, l, l)
  {
  }

  lemma LaterTrans(reg: Registry, k: nat, a: Ledger, b: Ledger, c: Ledger)
    requires Later(reg, k, a, b) && Later(reg, k, b, c)
    ensures Later(reg, k, a, c)
  {
  }

  // ---- The atomic moves ----

  function Took(l: Ledger, id: nat, g: Gate): Ledger {
    l.(claims := Claim(l.claims, g), taken := l.taken + {id}, woken := l.woken + {id})
  }

  function Gave(l: Ledger, id: nat, g: Gate, m: Msg): Ledger {
    l.(claims := Claim(l.claims, g), delivered := l.delivered + [Handover(id, m)], woken := l.woken + {id})
  }

  lemma TookMoves(l: Ledger, id: nat, g: Gate, x: nat)
    ensures Moved(Took(l, id, g), x) <==> Moved(l, x) || x == id
    ensures IsDelivered(Took(l, id, g), x) <==> IsDelivered(l, x)
  {
  }

  lemma GaveMoves(l: Ledger, id: nat, g: Gate, m: Msg, x: nat)
    ensures IsDelivered(Gave(l, id, g, m), x) <==> IsDelivered(l, x) || x == id
    ensures Moved(Gave(l, id, g, m), x) <==> Moved(l, x) || x == id
  {
    var after := Gave(l, id, g, m);
    if IsDelivered(l, x) {
      var i :| 0 <= i < |l.delivered| && l.delivered[i].id == x;
      assert after.delivered[i].id == x;
    }
    assert after.delivered[|l.delivered|].id == id;
  }

  /** A node that moves through an open gate settles its select and no other. */
  lemma TookDecides(reg: Registry, l: Ledger, id: nat, g: Gate)
    requires RegOk(reg) && LedgerOk(reg, l) && id in reg && reg[id].gate == g && reg[id].kind.Out? && GateOpen(l.claims, g)
    ensures LedgerOk(reg, Took(l, id, g)) && Later(reg, reg[id].ch, l, Took(l, id, g))
  {
    forall x ensures Decided(reg, Took(l, id, g), x) {
      assert Decided(reg, l, x);
      TookMoves(l, id, g, x);
    }
    forall x ensures Moved(Took(l, id, g), x) <==> Moved(l, x) || x == id { TookMoves(l, id, g, x); }
  }

  lemma GaveDecides(reg: Registry, l: Ledger, id: nat, g: Gate, m: Msg)
    requires RegOk(reg) && LedgerOk(reg, l) && id in reg && reg[id].gate == g && reg[id].kind.In? && GateOpen(l.claims, g)
    requires !IsDelivered(l, id)
    ensures LedgerOk(reg, Gave(l, id, g, m)) && Later(reg, reg[id].ch, l, Gave(l, id, g, m))
  {
    forall x ensures Decided(reg, Gave(l, id, g, m), x) {
      assert Decided(reg, l, x);
      GaveMoves(l, id, g, m, x);
    }
    forall x ensures Moved(Gave(l, id, g, m), x) <==> Moved(l, x) || x == id { GaveMoves(l, id, g, m, x); }
  }

  lemma SendersRemove(reg: Registry, k: nat, ss: seq<SendNode>, i: nat)
    requires SendersOk(reg, k, ss) && i < |ss|
    ensures SendersOk(reg, k, RemoveAt(ss, i))
    ensures forall j :: 0 <= j < |ss| - 1 ==> RemoveAt(ss, i)[j].id != ss[i].id
    ensures forall j :: 0 <= j < |ss| - 1 ==> RemoveAt(ss, i)[j] == ss[if j < i then j else j + 1]
  {
  }

  lemma ReceiversRemove(reg: Registry, k: nat, rs: seq<RecvNode>, i: nat)
    requires ReceiversOk(reg, k, rs) && i < |rs|
    ensures ReceiversOk(reg, k, RemoveAt(rs, i))
    ensures forall j :: 0 <= j < |rs| - 1 ==> RemoveAt(rs, i)[j].id != rs[i].id
    ensures forall j :: 0 <= j < |rs| - 1 ==> RemoveAt(rs, i)[j] == rs[if j < i then j else j + 1]
  {
  }

  /** A sender and a receiver never share a node. */
  lemma KindsDiffer(reg: Registry, k: nat, n: Net)
    requires ChanOk(reg, k, n.c, n.l)
    ensures forall i, j :: 0 <= i < |n.c.senders| && 0 <= j < |n.c.receivers| ==> n.c.senders[i].id != n.c.receivers[j].id
  {
    forall i, j | 0 <= i < |n.c.senders| && 0 <= j < |n.c.receivers| ensures n.c.senders[i].id != n.c.receivers[j].id {
      assert reg[n.c.senders[i].id].kind.Out? && reg[n.c.receivers[j].id].kind.In?;
    }
  }

  function WithoutHead(n: Net, buffer: seq<Msg>): Net
    requires n.c.senders != []
  {
    var x := n.c.senders[0];
    Net(n.c.(senders := n.c.senders[1..], buffer := buffer), Took(n.l, x.id, x.gate))
  }

  function WithoutReceiver(n: Net, i: nat, m: Msg): Net
    requires i < |n.c.receivers|
  {
    var x := n.c.receivers[i];
    Net(n.c.(receivers := RemoveAt(n.c.receivers, i)), Gave(n.l, x.id, x.gate, m))
  }

  lemma HeadQuiet(n: Net, buffer: seq<Msg>)
    requires n.c.senders != []
    ensures Quiet(n, WithoutHead(n, buffer))
  {
    var x, r := n.c.senders[0], WithoutHead(n, buffer);
    assert forall i :: 0 <= i < |r.c.senders| ==> r.c.senders[i] == n.c.senders[i + 1];
    forall y ensures Moved(r.l, y) <==> Moved(n.l, y) || y == x.id { TookMoves(n.l, x.id, x.gate, y); }
  }

  lemma ReceiverQuiet(n: Net, i: nat, m: Msg)
    requires i < |n.c.receivers|
    ensures Quiet(n, WithoutReceiver(n, i, m))
  {
    var x, r := n.c.receivers[i], WithoutReceiver(n, i, m);
    assert forall j :: 0 <= j < |r.c.receivers| ==> r.c.receivers[j] == n.c.receivers[if j < i then j else j + 1];
    forall y ensures Moved(r.l, y) <==> Moved(n.l, y) || y == x.id { GaveMoves(n.l, x.id, x.gate, m, y); }
  }

  lemma HeadApart(reg: Registry, k: nat, n: Net, buffer: seq<Msg>)
    requires ChanOk(reg, k, n.c, n.l) && n.c.senders != []
    ensures ChanOk(reg, k, WithoutHead(n, buffer).c, WithoutHead(n, buffer).l)
  {
    var x, r := n.c.senders[0], WithoutHead(n, buffer);
    KindsDiffer(reg, k, n);
    forall y ensures Moved(r.l, y) <==> Moved(n.l, y) || y == x.id { TookMoves(n.l, x.id, x.gate, y); }
    assert forall i :: 0 <= i < |r.c.senders| ==> r.c.senders[i] == n.c.senders[i + 1];
  }

  /** The head sender's value is taken, wherever it goes. */
  lemma HeadTaken(reg: Registry, k: nat, n: Net, buffer: seq<Msg>)
    requires NetOk(reg, k, n) && n.c.senders != [] && GateOpen(n.l.claims, n.c.senders[0].gate)
    ensures Keeps(reg, k, n, WithoutHead(n, buffer))
  {
    var x := n.c.senders[0];
    TookDecides(reg, n.l, x.id, x.gate);
    HeadApart(reg, k, n, buffer);
    HeadQuiet(n, buffer);
  }

  lemma ReceiverGiven(reg: Registry, k: nat, n: Net, i: nat, m: Msg)
    requires NetOk(reg, k, n) && i < |n.c.receivers| && GateOpen(n.l.claims, n.c.receivers[i].gate)
    ensures Keeps(reg, k, n, WithoutReceiver(n, i, m))
  {
    var x := n.c.receivers[i];
    GaveDecides(reg, n.l, x.id, x.gate, m);
    ReceiversRemove(reg, k, n.c.receivers, i);
    KindsDiffer(reg, k, n);
    assert Apart(WithoutReceiver(n, i, m).c, Gave(n.l, x.id, x.gate, m)) by {
      forall y ensures Moved(Gave(n.l, x.id, x.gate, m), y) <==> Moved(n.l, y) || y == x.id { GaveMoves(n.l, x.id, x.gate, m, y); }
    }
    ReceiverQuiet(n, i, m);
  }

  /** Waking changes no decision. */
  lemma WakeDecides(reg: Registry, l: Ledger, ids: set<nat>)
    requires LedgerOk(reg, l)
    ensures LedgerOk(reg, l.(woken := l.woken + ids))
    ensures forall id :: Moved(l.(woken := l.woken + ids), id) == Moved(l, id)
  {
    var l' := l.(woken := l.woken + ids);
    forall id ensures Decided(reg, l', id) && Moved(l', id) == Moved(l, id) {
      assert Decided(reg, l, id);
      assert IsDelivered(l', id) == IsDelivered(l, id);
    }
  }

  // ---- The primitives ----

  /** No node of select `s` is queued here. */
  predicate NoneOf(c: Chan, s: nat) {
    && (forall i :: 0 <= i < |c.senders| ==> !(c.senders[i].gate.Gated? && c.senders[i].gate.select == s))
    && (forall i :: 0 <= i < |c.receivers| ==> !(c.receivers[i].gate.Gated? && c.receivers[i].gate.select == s))
  }

  predicate QueuedIn(c: Chan, id: nat) {
    || (exists i :: 0 <= i < |c.senders| && c.senders[i].id == id)
    || (exists i :: 0 <= i < |c.receivers| && c.receivers[i].id == id)
  }

  /** What is not queued neither gets decided, nor moves, nor gets queued. */
  ghost predicate Quiet(n: Net, r: Net) {
    && (forall s {:trigger NoneOf(n.c, s)} {:trigger NoneOf(r.c, s)} ::
          NoneOf(n.c, s) ==> NoneOf(r.c, s) && (s in r.l.claims <==> s in n.l.claims))
    && (forall id {:trigger QueuedIn(n.c, id)} {:trigger QueuedIn(r.c, id)} ::
          !QueuedIn(n.c, id) ==> !QueuedIn(r.c, id) && Moved(r.l, id) == Moved(n.l, id))
  }

  /** A channel that refuses sends goes on refusing them; one that comes to refuse them is rid of its senders. */
  predicate Refuses(c: Chan, d: Chan) {
    && (SendRefused(c) ==> SendRefused(d))
    && (SendRefused(d) ==> SendRefused(c) || d.senders == [])
  }

  ghost predicate Keeps(reg: Registry, k: nat, n: Net, r: Net) {
    NetOk(reg, k, r) && Later(reg, k, n.l, r.l) && Quiet(n, r) && Refuses(n.c, r.c)
  }

  /** Promoting neither closes a channel nor delivers to a receiver. */
  lemma {:induction false} PromoteLeaves(n: Net)
    ensures SendRefused(Promote(n).c) == SendRefused(n.c) && Promote(n).l.delivered == n.l.delivered
    decreases |n.c.senders|
  {
    if CanPromote(n) { PromoteLeaves(PromoteOne(n)); }
  }

  lemma DeliverKeeps(reg: Registry, k: nat, n: Net, m: Msg)
    requires NetOk(reg, k, n)
    ensures Keeps(reg, k, n, Deliver(n, m).0)
  {
    var i := FirstOpen(n.c.receivers, n.l.claims);
    LaterSelf(reg, k, n.l);
    if i < |n.c.receivers| { ReceiverGiven(reg, k, n, i, m); }
  }

  lemma TakeKeeps(reg: Registry, k: nat, n: Net)
    requires NetOk(reg, k, n)
    ensures Keeps(reg, k, n, TakePendingSender(n).0)
  {
    LaterSelf(reg, k, n.l);
    if n.c.senders != [] && GateOpen(n.l.claims, n.c.senders[0].gate) { HeadTaken(reg, k, n, n.c.buffer); }
  }

  lemma {:induction false} PromoteKeeps(reg: Registry, k: nat, n: Net)
    requires NetOk(reg, k, n)
    ensures Keeps(reg, k, n, Promote(n))
    decreases |n.c.senders|
  {
    LaterSelf(reg, k, n.l);
    if CanPromote(n) {
      HeadTaken(reg, k, n, n.c.buffer + [n.c.senders[0].value]);
      PromoteKeeps(reg, k, PromoteOne(n));
      LaterTrans(reg, k, n.l, PromoteOne(n).l, Promote(n).l);
      PromoteLeaves(n);
    }
  }

  lemma DropSenderKeeps(reg: Registry, k: nat, n: Net, id: nat)
    requires NetOk(reg, k, n)
    ensures Keeps(reg, k, n, DropSender(n, id))
  {
    var i := SenderIndex(n.c.senders, id);
    if i < |n.c.senders| {
      SendersRemove(reg, k, n.c.senders, i);
      PromoteKeeps(reg, k, n.(c := n.c.(senders := RemoveAt(n.c.senders, i))));
    } else {
      PromoteKeeps(reg, k, n);
    }
  }

  lemma DropReceiverKeeps(reg: Registry, k: nat, n: Net, id: nat)
    requires NetOk(reg, k, n)
    ensures Keeps(reg, k, n, DropReceiver(n, id))
  {
    var i := ReceiverIndex(n.c.receivers, id);
    LaterSelf(reg, k, n.l);
    if i < |n.c.receivers| { ReceiversRemove(reg, k, n.c.receivers, i); }
  }

  lemma CloseKeeps(reg: Registry, k: nat, n: Net)
    requires NetOk(reg, k, n)
    ensures Keeps(reg, k, n, CloseSend(n)) && CloseSend(n).c.senders == []
  {
    var ids := SendIds(n.c.senders) + if n.c.buffer == [] then RecvIds(n.c.receivers) else {};
    WakeDecides(reg, n.l, ids);
    assert CloseSend(n).l == n.l.(woken := n.l.woken + ids);
  }

  lemma AcceptKeeps(reg: Registry, k: nat, n: Net, m: Msg)
    requires NetOk(reg, k, n)
    ensures Keeps(reg, k, n, Accept(n, m).0)
  {
    DeliverKeeps(reg, k, n, m);
    LaterSelf(reg, k, n.l);
  }

  lemma ReturnKeeps(reg: Registry, k: nat, n: Net, m: Msg)
    requires NetOk(reg, k, n)
    ensures Keeps(reg, k, n, ReturnValue(n, m).0)
  {
    DeliverKeeps(reg, k, n, m);
    LaterSelf(reg, k, n.l);
  }

  lemma RecvReadyKeeps(reg: Registry, k: nat, n: Net)
    requires NetOk(reg, k, n)
    ensures Keeps(reg, k, n, RecvReady(n).0)
  {
    LaterSelf(reg, k, n.l);
    if n.c.buffer != [] { PromoteKeeps(reg, k, n.(c := n.c.(buffer := n.c.buffer[1..]))); }
    else { TakeKeeps(reg, k, n); }
  }

  // ---- Registering a new node ----

  /** Linking a node adds it to the registry; a node of a select must be the first of its branch, undecided. */
  lemma Linked(reg: Registry, k: nat, n: Net, id: nat, info: Info)
    requires NetOk(reg, k, n) && id !in reg && !Moved(n.l, id) && info.ch == k
    requires info.gate.Gated? ==> info.gate.select !in n.l.claims && forall a :: a in reg ==> reg[a].gate != info.gate
    ensures RegOk(reg[id := info]) && LedgerOk(reg[id := info], n.l) && ChanOk(reg[id := info], k, n.c, n.l)
    ensures info.kind.Out? ==> NetOk(reg[id := info], k, PushSender(n, SendNode(id, info.kind.value, info.gate)))
    ensures info.kind.In? ==> NetOk(reg[id := info], k, PushReceiver(n, RecvNode(id, info.gate)))
  {
    var reg' := reg[id := info];
    forall x ensures Decided(reg', n.l, x) { assert Decided(reg, n.l, x); }
  }

  /** A node linked to one channel changes nothing for the others. */
  lemma LinkedElsewhere(reg: Registry, k: nat, c: Chan, l: Ledger, id: nat, info: Info)
    requires ChanOk(reg, k, c, l) && id !in reg
    ensures ChanOk(reg[id := info], k, c, l)
  {
  }

  /** What an operation on channel `k` moves is not queued at another channel. */
  lemma OthersKeep(reg: Registry, k: nat, j: nat, c: Chan, before: Ledger, after: Ledger)
    requires j != k && ChanOk(reg, j, c, before) && Later(reg, k, before, after)
    ensures ChanOk(reg, j, c, after)
  {
  }

  // ---- Calm channels: an open head sender waits for room ----

  /** Gates only close, so what could not be promoted still cannot. */
  lemma CalmElsewhere(c: Chan, reg: Registry, k: nat, before: Ledger, after: Ledger)
    requires !CanPromote(Net(c, before)) && Later(reg, k, before, after)
    ensures !CanPromote(Net(c, after))
  {
  }

  lemma AcceptCalm(reg: Registry, k: nat, n: Net, m: Msg)
    requires NetOk(reg, k, n) && !CanPromote(n)
    ensures !CanPromote(Accept(n, m).0)
    ensures !Accept(n, m).1 ==> !HasRoom(n.c)
  {
    DeliverKeeps(reg, k, n, m);
  }

  lemma TakeCalm(n: Net)
    requires !CanPromote(n) && n.c.buffer == []
    ensures !CanPromote(TakePendingSender(n).0)
  {
  }
}
