/** The loop-local channel of include/coro/channel.hpp: its value-level state and
    every primitive the endpoints, the awaiters and `select` are built from.

    A waiter node is known by an id. The flags the source keeps in the heap node
    (`taken`, `delivered`, the delivered value) and the loop's ready set are kept in
    a `Ledger`, together with the winners of the selects that own gated nodes. */
module ChannelCore {
  import opened Seqs

  /** The element type: the channel moves elements and never looks inside. */
  type Msg(==, !new)

  /** `commit_gate`: a node of a select carries the select and its branch number. */
  datatype Gate = Ungated | Gated(select: nat, branch: nat)

  /** Decided selects and their winning branch; an absent select has winner -1. */
  type Claims = map<nat, nat>

  predicate GateOpen(claims: Claims, g: Gate) {
    g.Ungated? || g.select !in claims
  }

  function Claim(claims: Claims, g: Gate): Claims {
    if g.Gated? then claims[g.select := g.branch] else claims
  }

  datatype Capacity = Bounded(n: nat) | Unbounded
  datatype SendNode = SendNode(id: nat, value: Msg, gate: Gate)
  datatype RecvNode = RecvNode(id: nat, gate: Gate)
  datatype Handover = Handover(id: nat, value: Msg)

  datatype Chan = Chan(
    capacity: Capacity,
    buffer: seq<Msg>,
    senders: seq<SendNode>,
    receivers: seq<RecvNode>,
    sendClosed: bool,
    receiversGone: bool,
    liveSenders: nat,
    liveReceivers: nat)

  /** Node flags, select winners and scheduled coroutines. `delivered` lists the
      values handed to receivers that have not resumed yet. */
  datatype Ledger = Ledger(claims: Claims, taken: set<nat>, delivered: seq<Handover>, woken: set<nat>)

  datatype Net = Net(c: Chan, l: Ledger)

  predicate HasRoom(c: Chan) {
    c.capacity.Unbounded? || |c.buffer| < c.capacity.n
  }

  function FirstOpen(rs: seq<RecvNode>, claims: Claims): (k: nat)
    ensures k <= |rs|
    ensures k < |rs| ==> GateOpen(claims, rs[k].gate)
    ensures forall i :: 0 <= i < k ==> !GateOpen(claims, rs[i].gate)
  {
    if rs == [] || GateOpen(claims, rs[0].gate) then 0 else 1 + FirstOpen(rs[1..], claims)
  }

  function SenderIndex(ss: seq<SendNode>, id: nat): (k: nat)
    ensures k <= |ss|
    ensures k < |ss| ==> ss[k].id == id
    ensures forall i :: 0 <= i < k ==> ss[i].id != id
  {
    if ss == [] || ss[0].id == id then 0 else 1 + SenderIndex(ss[1..], id)
  }

  function ReceiverIndex(rs: seq<RecvNode>, id: nat): (k: nat)
    ensures k <= |rs|
    ensures k < |rs| ==> rs[k].id == id
    ensures forall i :: 0 <= i < k ==> rs[i].id != id
  {
    if rs == [] || rs[0].id == id then 0 else 1 + ReceiverIndex(rs[1..], id)
  }

  function DeliveredIndex(ds: seq<Handover>, id: nat): (k: nat)
    ensures k <= |ds|
    ensures k < |ds| ==> ds[k].id == id
    ensures forall i :: 0 <= i < k ==> ds[i].id != id
  {
    if ds == [] || ds[0].id == id then 0 else 1 + DeliveredIndex(ds[1..], id)
  }

  /** `channel_deliver`: the first receiver still able to close a deal gets the value
      and leaves the queue; refused nodes stay where they are. */
  function Deliver(n: Net, m: Msg): (r: (Net, bool)) {
    var k := FirstOpen(n.c.receivers, n.l.claims);
    if k == |n.c.receivers| then (n, false)
    else
      var node := n.c.receivers[k];
      (Net(n.c.(receivers := RemoveAt(n.c.receivers, k)),
           n.l.(claims := Claim(n.l.claims, node.gate),
                delivered := n.l.delivered + [Handover(node.id, m)],
                woken := n.l.woken + {node.id})), true)
  }

  datatype Taken = Nothing | Got(value: Msg)

  /** `channel_take_pending_sender`: only the head may close a deal. */
  function TakePendingSender(n: Net): (r: (Net, Taken))
    ensures |r.0.c.senders| <= |n.c.senders|
  {
    if n.c.senders == [] || !GateOpen(n.l.claims, n.c.senders[0].gate) then (n, Nothing)
    else
      var node := n.c.senders[0];
      (Net(n.c.(senders := n.c.senders[1..]),
           n.l.(claims := Claim(n.l.claims, node.gate), taken := n.l.taken + {node.id},
                woken := n.l.woken + {node.id})), Got(node.value))
  }

  /** Move the head sender's value into the buffer. */
  function PromoteOne(n: Net): (r: Net)
    requires n.c.senders != []
  {
    var node := n.c.senders[0];
    Net(n.c.(senders := n.c.senders[1..], buffer := n.c.buffer + [node.value]),
        n.l.(claims := Claim(n.l.claims, node.gate), taken := n.l.taken + {node.id},
             woken := n.l.woken + {node.id}))
  }

  predicate CanPromote(n: Net) {
    n.c.senders != [] && HasRoom(n.c) && GateOpen(n.l.claims, n.c.senders[0].gate)
  }

  /** `channel_promote_senders`: FIFO, stopping at a full buffer or a refused head. */
  function Promote(n: Net): (r: Net)
    ensures |r.c.senders| <= |n.c.senders| && !CanPromote(r)
    decreases |n.c.senders|
  {
    if CanPromote(n) then Promote(PromoteOne(n)) else n
  }

  /** `channel_return_value`: true when the value found a receiver or room. */
  function ReturnValue(n: Net, m: Msg): (r: (Net, bool)) {
    var (d, ok) := Deliver(n, m);
    if ok then (d, true)
    else if !HasRoom(n.c) then (n, false)
    else (n.(c := n.c.(buffer := [m] + n.c.buffer)), true)
  }

  function SendIds(ss: seq<SendNode>): set<nat> {
    set x | x in ss :: x.id
  }

  function RecvIds(rs: seq<RecvNode>): set<nat> {
    set x | x in rs :: x.id
  }

  /** `channel_close`: every parked sender is woken to fail; parked receivers are
      woken to see the end only when nothing is buffered. */
  function CloseSend(n: Net): (r: Net) {
    var c1 := n.c.(sendClosed := true, senders := []);
    var l1 := n.l.(woken := n.l.woken + SendIds(n.c.senders));
    if n.c.buffer == []
    then Net(c1.(receivers := []), l1.(woken := l1.woken + RecvIds(n.c.receivers)))
    else Net(c1, l1)
  }

  function NoteNoReceivers(n: Net): (r: Net) {
    CloseSend(n.(c := n.c.(receiversGone := true)))
  }

  /** `channel_drop_sender` */
  function DropSender(n: Net, id: nat): (r: Net) {
    var k := SenderIndex(n.c.senders, id);
    if k < |n.c.senders|
    then Promote(n.(c := n.c.(senders := RemoveAt(n.c.senders, k))))
    else Promote(n)
  }

  /** `channel_drop_receiver` */
  function DropReceiver(n: Net, id: nat): (r: Net) {
    var k := ReceiverIndex(n.c.receivers, id);
    if k < |n.c.receivers| then n.(c := n.c.(receivers := RemoveAt(n.c.receivers, k))) else n
  }

  predicate SendRefused(c: Chan) {
    c.sendClosed || c.receiversGone
  }

  /** Direct hand-over first, then the buffer (`try_send`, `commit_accept` and the
      ready path of the send awaiter share it). */
  function Accept(n: Net, m: Msg): (r: (Net, bool)) {
    var (d, ok) := Deliver(n, m);
    if ok then (d, true)
    else if HasRoom(n.c) then (n.(c := n.c.(buffer := n.c.buffer + [m])), true)
    else (n, false)
  }

  function PushSender(n: Net, node: SendNode): (r: Net) {
    n.(c := n.c.(senders := n.c.senders + [node]))
  }

  function PushReceiver(n: Net, node: RecvNode): (r: Net) {
    n.(c := n.c.(receivers := n.c.receivers + [node]))
  }

  function Wake(n: Net, id: nat): (r: Net) {
    n.(l := n.l.(woken := n.l.woken + {id}))
  }

  /** The suspending half of the send awaiter: link, then undo at once if closed. */
  function SendSuspend(n: Net, id: nat, m: Msg): (r: Net) {
    var p := PushSender(n, SendNode(id, m, Ungated));
    if SendRefused(n.c) then Wake(DropSender(p, id), id) else p
  }

  datatype Received = Value(m: Msg) | EndOfStream | NotReady

  function PopFront(n: Net): (r: Net)
    requires n.c.buffer != []
    ensures |r.c.senders| <= |n.c.senders| && !CanPromote(r)
  {
    Promote(n.(c := n.c.(buffer := n.c.buffer[1..])))
  }

  /** The ready half of the receive awaiter: buffered value, then a parked sender's
      value, then the end of a closed channel. */
  function RecvReady(n: Net): (r: (Net, Received))
    ensures |r.0.c.senders| <= |n.c.senders|
  {
    if n.c.buffer != [] then (PopFront(n), Value(n.c.buffer[0]))
    else
      var (t, got) := TakePendingSender(n);
      if got.Got? then (t, Value(got.value))
      else if n.c.sendClosed then (n, EndOfStream)
      else (n, NotReady)
  }

  function Land(n: Net, id: nat, m: Msg): (r: Net) {
    n.(l := n.l.(delivered := n.l.delivered + [Handover(id, m)]))
  }

  /** The suspending half of the receive awaiter, with its re-checks after linking. */
  function RecvSuspend(n: Net, id: nat): (r: Net) {
    var p := PushReceiver(n, RecvNode(id, Ungated));
    if n.c.sendClosed && n.c.buffer == [] then Wake(DropReceiver(p, id), id)
    else if n.c.buffer != [] then
      var d := DropReceiver(p, id);
      Wake(Promote(Land(d.(c := d.c.(buffer := d.c.buffer[1..])), id, n.c.buffer[0])), id)
    else
      var (t, got) := TakePendingSender(p);
      if got.Got? then Wake(Land(t, id, got.value), id) else p
  }

  /** `try_recv`: buffered value first, then a parked sender's. */
  function TryRecv(n: Net): (r: (Net, Taken))
    ensures |r.0.c.senders| <= |n.c.senders|
  {
    if n.c.buffer == [] then TakePendingSender(n) else (PopFront(n), Got(n.c.buffer[0]))
  }

  // ---- What a select may ask of a channel ----

  /** `probe_can_accept`: an observation, nothing is claimed. */
  predicate ProbeAccept(n: Net) {
    !SendRefused(n.c) && (FirstOpen(n.c.receivers, n.l.claims) < |n.c.receivers| || HasRoom(n.c))
  }

  /** `probe_has_message`: a value now, or the end of a closed channel. */
  predicate ProbeMessage(n: Net) {
    n.c.buffer != [] || (n.c.senders != [] && GateOpen(n.l.claims, n.c.senders[0].gate)) || n.c.sendClosed
  }

  /** `commit_take`: the ready half of a receive; NotReady means that the commit failed. */
  function CommitTake(n: Net): (r: (Net, Received)) {
    RecvReady(n)
  }
}
