/**
 * How a select ends, and the theorems over whole runs.
 */
module SelectEnds {
  import opened Seqs
  import opened ChannelCore
  import opened SelectCore
  import opened Select
  import opened SelectRuns
  import opened SelectSteps
  import opened SelectLoss

  predicate NotQueued(w: World, id: nat) {
    forall k: nat {:trigger w.chans[k]} :: k < |w.chans| ==> !QueuedIn(w.chans[k], id)
  }

  predicate BranchOut(w: World, sel: Sel, j: nat) {
    NotQueued(w, sel.base + j)
  }

  // ---- One branch is disarmed ----

  lemma SenderGone(reg: Registry, k: nat, n: Net, id: nat)
    requires NetOk(reg, k, n) && id in reg && reg[id].kind.Out?
    ensures !QueuedIn(DropSender(n, id).c, id) && Moved(DropSender(n, id).l, id) == Moved(n.l, id)
  {
    var i := SenderIndex(n.c.senders, id);
    var n1 := if i < |n.c.senders| then n.(c := n.c.(senders := RemoveAt(n.c.senders, i))) else n;
    if i < |n.c.senders| { SendersRemove(reg, k, n.c.senders, i); }
    PromoteKeeps(reg, k, n1);
    forall j | 0 <= j < |n1.c.receivers| ensures n1.c.receivers[j].id != id { assert reg[n1.c.receivers[j].id].kind.In?; }
    assert !QueuedIn(n1.c, id);
  }

  lemma ReceiverGone(reg: Registry, k: nat, n: Net, id: nat)
    requires NetOk(reg, k, n) && id in reg && reg[id].kind.In?
    ensures !QueuedIn(DropReceiver(n, id).c, id) && DropReceiver(n, id).l == n.l
  {
    var i := ReceiverIndex(n.c.receivers, id);
    if i < |n.c.receivers| { ReceiversRemove(reg, k, n.c.receivers, i); }
    forall j | 0 <= j < |n.c.senders| ensures n.c.senders[j].id != id { assert reg[n.c.senders[j].id].kind.Out?; }
  }

  function Dropped(n: Net, b: Branch, id: nat): Net {
    if b.SendOf? then DropSender(n, id) else DropReceiver(n, id)
  }

  /** Taking the node `id` out of its queue, and nothing more than a promotion besides. */
  ghost predicate TakesOut(reg: Registry, k: nat, n: Net, d: Net, id: nat) {
    Keeps(reg, k, n, d) && !QueuedIn(d.c, id) && Moved(d.l, id) == Moved(n.l, id) && d.l.delivered == n.l.delivered
  }

  lemma {:induction false} SenderOut(reg: Registry, k: nat, n: Net, id: nat, s: nat)
    requires NetOk(reg, k, n) && id in reg && reg[id].kind.Out?
    ensures TakesOut(reg, k, n, DropSender(n, id), id)
    ensures s !in n.l.claims ==> (s in DropSender(n, id).l.claims <==> Reaches(Unlink(n, id), s))
  {
    SenderGone(reg, k, n, id);
    DropSenderKeeps(reg, k, n, id);
    PromoteLeaves(Unlink(n, id));
    assert DropSender(n, id) == Promote(Unlink(n, id));
    if s !in n.l.claims { DropSettles(n, id, s); }
  }

  lemma {:induction false} ReceiverOut(reg: Registry, k: nat, n: Net, id: nat)
    requires NetOk(reg, k, n) && id in reg && reg[id].kind.In?
    ensures TakesOut(reg, k, n, DropReceiver(n, id), id) && DropReceiver(n, id).l == n.l
  {
    ReceiverGone(reg, k, n, id);
    DropReceiverKeeps(reg, k, n, id);
  }

  /** The channel operation that disarms branch `i` of a waiting select. */
  lemma {:induction false} DroppedKeeps(w: World, s: nat, sel: Sel, i: nat)
    requires Inv(w) && s in w.sels && w.sels[s] == sel && sel.phase.Waiting? && i < |sel.branches|
    ensures sel.branches[i].ch < |w.chans|
    ensures
      var b, id := sel.branches[i], sel.base + i;
      var d := Dropped(At(w, b.ch), b, id);
      && TakesOut(w.reg, b.ch, At(w, b.ch), d, id) && id in w.reg && w.reg[id].ch == b.ch
      && (s !in w.l.claims ==> (s in d.l.claims <==> b.SendOf? && Reaches(Unlink(At(w, b.ch), id), s)))
  {
    assert SelOk(w, s);
    var b, id := sel.branches[i], sel.base + i;
    assert ArmedAt(w.reg, s, sel, i);
    NetOf(w, b.ch);
    if b.SendOf? { SenderOut(w.reg, b.ch, At(w, b.ch), id, s); } else { ReceiverOut(w.reg, b.ch, At(w, b.ch), id); }
  }

  lemma PutQueues(w: World, k: nat, n: Net, x: nat)
    requires k < |w.chans| && Quiet(At(w, k), n) && NotQueued(w, x)
    ensures NotQueued(Put(w, k, n), x) && Moved(n.l, x) == Moved(w.l, x)
  {
    assert !QueuedIn(w.chans[k], x) && !QueuedIn(At(w, k).c, x);
    var r := Put(w, k, n);
    forall j: nat | j < |r.chans| ensures !QueuedIn(r.chans[j], x) {
      if j != k { assert !QueuedIn(w.chans[j], x); }
    }
  }

  lemma OutNow(w: World, k: nat, n: Net, id: nat)
    requires Sound(w) && k < |w.chans| && id in w.reg && w.reg[id].ch == k && !QueuedIn(n.c, id)
    ensures NotQueued(Put(w, k, n), id)
  {
    var r := Put(w, k, n);
    forall j: nat | j < |r.chans| ensures !QueuedIn(r.chans[j], id) {
      if j != k { NotElsewhere(w, j, id); }
    }
  }

  lemma NotElsewhere(w: World, j: nat, id: nat)
    requires Sound(w) && j < |w.chans| && id in w.reg && w.reg[id].ch != j
    ensures !QueuedIn(w.chans[j], id)
  {
    assert ChannelSound(w, j);
  }

  // ---- All branches ----

  lemma LeftAt(w: World, s: nat, sel: Sel, i: nat)
    requires Inv(w) && s in w.sels && w.sels[s] == sel && sel.phase.Waiting? && i < |sel.branches|
    ensures Moved(w.l, sel.base + i) <==> Winner(w, s, sel.branches) == i
    ensures sel.branches[i].SendOf? ==> (Moved(w.l, sel.base + i) <==> sel.base + i in w.l.taken)
    ensures sel.branches[i].RecvOf? ==> (Moved(w.l, sel.base + i) <==> IsDelivered(w.l, sel.base + i))
    ensures sel.branches[i].SendOf? ==> !IsDelivered(w.l, sel.base + i)
  {
    assert SelOk(w, s);
    assert ArmedAt(w.reg, s, sel, i);
    assert Decided(w.reg, w.l, sel.base + i);
  }

  lemma LeftCons(bs: seq<Branch>, won: nat, i: nat, mine: Option<Msg>, rest: seq<Option<Msg>>)
    requires i < |bs| && rest == Unsent(bs, won)[i + 1..] && mine == Unsent(bs, won)[i]
    ensures [mine] + rest == Unsent(bs, won)[i..]
  {
  }

  /** Select `s` waits, and its first `i` branches have been disarmed. */
  ghost predicate Disarming(w: World, s: nat, sel: Sel, i: nat) {
    && Inv(w) && s in w.sels && w.sels[s] == sel && sel.phase.Waiting? && i <= |sel.branches|
    && InRange(|w.chans|, sel.branches) && forall j: nat :: j < i ==> BranchOut(w, sel, j)
  }

  /** Unlinking branch `i` of select `s` lets a promotion reach another sender of the select. */
  predicate SendsAt(w: World, s: nat, sel: Sel, i: nat) {
    && i < |sel.branches| && sel.branches[i].SendOf? && sel.branches[i].ch < |w.chans|
    && Reaches(Unlink(At(w, sel.branches[i].ch), sel.base + i), s)
  }

  /** The world when branch `j` is about to be disarmed, if branch `i` is now. */
  function AtTurn(w: World, sel: Sel, i: nat, j: nat): (r: World)
    requires InRange(|w.chans|, sel.branches) && i <= j <= |sel.branches|
    ensures |r.chans| == |w.chans|
    decreases j - i
  {
    if i == j then w else AtTurn(DisarmOne(w, sel.base + i, sel.branches[i]), sel, i + 1, j)
  }

  predicate SendsAtTurn(w: World, s: nat, sel: Sel, i: nat, j: nat)
    requires InRange(|w.chans|, sel.branches) && i <= j <= |sel.branches|
  {
    SendsAt(AtTurn(w, sel, i, j), s, sel, j)
  }

  /** At some turn, disarming the branches from `i` on gives a value of the select away. */
  predicate GivesAway(w: World, s: nat, sel: Sel, i: nat)
    requires InRange(|w.chans|, sel.branches)
  {
    exists j :: i <= j < |sel.branches| && SendsAtTurn(w, s, sel, i, j)
  }

  /** What disarming some branches leaves as it was. */
  ghost predicate Settles(w: World, r: World, s: nat, sel: Sel) {
    && r.sels == w.sels && r.reg == w.reg && r.early == w.early && r.l.delivered == w.l.delivered
    && (forall id :: NotQueued(w, id) ==> NotQueued(r, id) && Moved(r.l, id) == Moved(w.l, id))
    && (s in w.l.claims ==> s in r.l.claims && r.l.claims[s] == w.l.claims[s])
  }

  lemma SettlesSelf(w: World, s: nat, sel: Sel)
    ensures Settles(w, w, s, sel)
  {
  }

  lemma SettlesTrans(a: World, b: World, c: World, s: nat, sel: Sel)
    requires Settles(a, b, s, sel) && Settles(b, c, s, sel)
    ensures Settles(a, c, s, sel)
  {
  }

  lemma DisarmSettles(w: World, s: nat, sel: Sel, i: nat)
    requires Disarming(w, s, sel, i) && i < |sel.branches|
    ensures
      var r := DisarmOne(w, sel.base + i, sel.branches[i]);
      && Settles(w, r, s, sel) && NotQueued(r, sel.base + i) && Moved(r.l, sel.base + i) == Moved(w.l, sel.base + i)
      && (s !in w.l.claims ==> (s in r.l.claims <==> SendsAt(w, s, sel, i)))
  {
    var b, id := sel.branches[i], sel.base + i;
    DroppedKeeps(w, s, sel, i);
    var d := Dropped(At(w, b.ch), b, id);
    var r := DisarmOne(w, id, b);
    assert r == Put(w, b.ch, d);
    OutNow(w, b.ch, d, id);
    forall x | NotQueued(w, x) ensures NotQueued(r, x) && Moved(r.l, x) == Moved(w.l, x) { PutQueues(w, b.ch, d, x); }
  }

  lemma DisarmNext(w: World, s: nat, sel: Sel, i: nat)
    requires Disarming(w, s, sel, i) && i < |sel.branches|
    ensures Disarming(DisarmOne(w, sel.base + i, sel.branches[i]), s, sel, i + 1)
  {
    var b, id := sel.branches[i], sel.base + i;
    DropInv(w, b.ch, id);
    DisarmSettles(w, s, sel, i);
    var r := DisarmOne(w, id, b);
    forall j: nat | j < i + 1 ensures BranchOut(r, sel, j) { assert j < i ==> BranchOut(w, sel, j); }
  }

  /** Disarming takes every node out of its queue. */
  lemma {:induction false} DisarmEmpties(w: World, s: nat, sel: Sel, i: nat)
    requires Disarming(w, s, sel, i)
    ensures Disarming(DisarmAll(w, sel.base, sel.branches, i).0, s, sel, |sel.branches|)
    ensures Settles(w, DisarmAll(w, sel.base, sel.branches, i).0, s, sel)
    decreases |sel.branches| - i
  {
    if i < |sel.branches| {
      var w1 := DisarmOne(w, sel.base + i, sel.branches[i]);
      DisarmSettles(w, s, sel, i);
      DisarmNext(w, s, sel, i);
      DisarmEmpties(w1, s, sel, i + 1);
      SettlesTrans(w, w1, DisarmAll(w1, sel.base, sel.branches, i + 1).0, s, sel);
    } else {
      SettlesSelf(w, s, sel);
    }
  }

  lemma {:induction false} TurnNext(w: World, s: nat, sel: Sel, i: nat, j: nat)
    requires InRange(|w.chans|, sel.branches) && i <= j < |sel.branches|
    ensures i == j ==> (SendsAtTurn(w, s, sel, i, j) <==> SendsAt(w, s, sel, i))
    ensures i < j ==>
      (SendsAtTurn(w, s, sel, i, j) <==> SendsAtTurn(DisarmOne(w, sel.base + i, sel.branches[i]), s, sel, i + 1, j))
  {
    if i < j { assert AtTurn(w, sel, i, j) == AtTurn(DisarmOne(w, sel.base + i, sel.branches[i]), sel, i + 1, j); }
  }

  /** Later turns are the turns of the world one branch further on. */
  lemma {:induction false} GivesNext(w: World, s: nat, sel: Sel, i: nat)
    requires InRange(|w.chans|, sel.branches) && i < |sel.branches|
    ensures
      var r := DisarmOne(w, sel.base + i, sel.branches[i]);
      GivesAway(w, s, sel, i) <==> SendsAt(w, s, sel, i) || GivesAway(r, s, sel, i + 1)
  {
    var r := DisarmOne(w, sel.base + i, sel.branches[i]);
    if GivesAway(w, s, sel, i) {
      var j :| i <= j < |sel.branches| && SendsAtTurn(w, s, sel, i, j);
      TurnNext(w, s, sel, i, j);
    }
    if SendsAt(w, s, sel, i) {
      TurnNext(w, s, sel, i, i);
      assert SendsAtTurn(w, s, sel, i, i);
    }
    if GivesAway(r, s, sel, i + 1) {
      var j :| i + 1 <= j < |sel.branches| && SendsAtTurn(r, s, sel, i + 1, j);
      TurnNext(w, s, sel, i, j);
      assert SendsAtTurn(w, s, sel, i, j);
    }
  }

  lemma {:induction false} TurnTaken(w: World, w1: World, s: nat, sel: Sel, i: nat)
    requires Disarming(w, s, sel, i) && s !in w.l.claims && i < |sel.branches|
    requires w1 == DisarmOne(w, sel.base + i, sel.branches[i])
    ensures Disarming(w1, s, sel, i + 1) && (s in w1.l.claims <==> SendsAt(w, s, sel, i))
    ensures GivesAway(w, s, sel, i) <==> SendsAt(w, s, sel, i) || GivesAway(w1, s, sel, i + 1)
    ensures DisarmAll(w, sel.base, sel.branches, i).0 == DisarmAll(w1, sel.base, sel.branches, i + 1).0
  {
    DisarmSettles(w, s, sel, i);
    DisarmNext(w, s, sel, i);
    GivesNext(w, s, sel, i);
  }

  /**
   * Disarming an undecided select gives one of its values away exactly when,
   * at the turn of one of its sends, unlinking that send lets a promotion
   * reach another one.
   */
  lemma {:induction false} DisarmSendsExactly(w: World, s: nat, sel: Sel, i: nat)
    requires Disarming(w, s, sel, i) && s !in w.l.claims
    ensures s in DisarmAll(w, sel.base, sel.branches, i).0.l.claims <==> GivesAway(w, s, sel, i)
    decreases |sel.branches| - i, 0
  {
    if i < |sel.branches| {
      var w1 := DisarmOne(w, sel.base + i, sel.branches[i]);
      TurnTaken(w, w1, s, sel, i);
      DisarmSendsRest(w1, s, sel, i + 1);
    }
  }

  lemma {:induction false} DisarmSendsRest(w: World, s: nat, sel: Sel, i: nat)
    requires Disarming(w, s, sel, i)
    ensures s in w.l.claims ==> s in DisarmAll(w, sel.base, sel.branches, i).0.l.claims
    ensures s !in w.l.claims ==> (s in DisarmAll(w, sel.base, sel.branches, i).0.l.claims <==> GivesAway(w, s, sel, i))
    decreases |sel.branches| - i, 1
  {
    if s in w.l.claims {
      DisarmEmpties(w, s, sel, i);
    } else {
      DisarmSendsExactly(w, s, sel, i);
    }
  }

  // ---- What a caller can see beforehand ----

  /** Another send on the same channel, which refuses sends and refused them already when that send was linked. */
  predicate LateTwin(w: World, s: nat, sel: Sel, i: nat, j: nat) {
    && i < |sel.branches| && j < |sel.branches| && i != j && sel.branches[i].SendOf? && sel.branches[j].SendOf?
    && sel.branches[i].ch == sel.branches[j].ch < |w.chans| && SendRefused(w.chans[sel.branches[i].ch])
    && LinkedLate(w.reg, w.early, s, sel, j)
  }

  /** A value is only given away to a channel that is closed, when another send is unlinked that is on it too. */
  lemma {:induction false} SendsAtLate(w: World, s: nat, sel: Sel, i: nat) returns (j: nat)
    requires Inv(w) && s in w.sels && w.sels[s] == sel && sel.phase.Waiting? && s !in w.l.claims && SendsAt(w, s, sel, i)
    ensures LateTwin(w, s, sel, i, j)
  {
    var k, id := sel.branches[i].ch, sel.base + i;
    var n := At(w, k);
    assert SelOk(w, s) && ArmedAt(w.reg, s, sel, i);
    NetOf(w, k);
    if !SendRefused(w.chans[k]) {
      forall p | 0 <= p < |n.c.senders| && n.c.senders[p].id == id ensures Of(n.c.senders[p].gate, s) {
        assert w.reg[n.c.senders[p].id].gate == n.c.senders[p].gate;
      }
      CalmStays(n, id, s);
      NotReached(Unlink(n, id), s);
    }
    var y := ReachedSender(w.reg, k, n, id, s);
    assert ChannelSound(w, k) && NodeKnown(w, y.id);
    j := y.gate.branch;
    assert ArmedAt(w.reg, s, sel, j);
  }

  lemma {:induction false} ReachedSender(reg: Registry, k: nat, n: Net, id: nat, s: nat) returns (y: SendNode)
    requires NetOk(reg, k, n) && Reaches(Unlink(n, id), s)
    ensures y in n.c.senders && y.id != id && Of(y.gate, s)
  {
    var q: nat :| q < |Unlink(n, id).c.senders| && Reached(Unlink(n, id), s, q);
    y := Unlink(n, id).c.senders[q];
    var p := SenderIndex(n.c.senders, id);
    if p < |n.c.senders| { SendersRemove(reg, k, n.c.senders, p); }
  }

  lemma {:induction false} GivesAwayLate(w: World, s: nat, sel: Sel, i: nat)
    requires Disarming(w, s, sel, i) && s !in w.l.claims && GivesAway(w, s, sel, i)
    ensures !DistinctSends(sel.branches) && !SendsOnTime(w.reg, w.early, s, sel)
    decreases |sel.branches| - i
  {
    var w1 := DisarmOne(w, sel.base + i, sel.branches[i]);
    GivesNext(w, s, sel, i);
    DisarmSettles(w, s, sel, i);
    DisarmNext(w, s, sel, i);
    if SendsAt(w, s, sel, i) {
      var j := SendsAtLate(w, s, sel, i);
      assert LinkedLate(w.reg, w.early, s, sel, j);
    } else {
      GivesAwayLate(w1, s, sel, i + 1);
    }
  }

  /** A branch's value comes back at its turn exactly when the branch never gives it away. */
  lemma SentBack(w: World, r: World, s: nat, sel: Sel, i: nat)
    requires Disarming(w, s, sel, i) && Disarming(r, s, sel, |sel.branches|) && i < |sel.branches|
    requires Moved(r.l, sel.base + i) == Moved(w.l, sel.base + i)
    ensures
      var b := sel.branches[i];
      var mine := if b.SendOf? && sel.base + i !in w.l.taken then Some(b.value) else None;
      mine == Unsent(sel.branches, Winner(r, s, sel.branches))[i]
  {
    LeftAt(w, s, sel, i);
    LeftAt(r, s, sel, i);
  }

  lemma ReturnsNext(w: World, s: nat, sel: Sel, i: nat)
    requires Disarming(w, s, sel, i) && i < |sel.branches|
    ensures
      var b := sel.branches[i];
      var mine := if b.SendOf? && sel.base + i !in w.l.taken then Some(b.value) else None;
      var r := DisarmAll(DisarmOne(w, sel.base + i, b), sel.base, sel.branches, i + 1).0;
      mine == Unsent(sel.branches, Winner(r, s, sel.branches))[i]
  {
    var w1 := DisarmOne(w, sel.base + i, sel.branches[i]);
    DisarmSettles(w, s, sel, i);
    DisarmNext(w, s, sel, i);
    DisarmEmpties(w1, s, sel, i + 1);
    SentBack(w, DisarmAll(w1, sel.base, sel.branches, i + 1).0, s, sel, i);
  }

  /** Disarming hands back exactly the values that no branch gave away. */
  lemma {:induction false} DisarmReturns(w: World, s: nat, sel: Sel, i: nat)
    requires Disarming(w, s, sel, i)
    ensures
      var (r, left) := DisarmAll(w, sel.base, sel.branches, i);
      left == Unsent(sel.branches, Winner(r, s, sel.branches))[i..]
    decreases |sel.branches| - i
  {
    if i < |sel.branches| {
      var b, id := sel.branches[i], sel.base + i;
      var w1 := DisarmOne(w, id, b);
      ReturnsNext(w, s, sel, i);
      DisarmNext(w, s, sel, i);
      DisarmReturns(w1, s, sel, i + 1);
      var (r, rest) := DisarmAll(w1, sel.base, sel.branches, i + 1);
      var mine := if b.SendOf? && id !in w.l.taken then Some(b.value) else None;
      LeftCons(sel.branches, Winner(r, s, sel.branches), i, mine, rest);
    }
  }

  lemma GoneNow(r: World, s: nat, sel: Sel)
    requires Sound(r) && s in r.sels && r.sels[s].base == sel.base && r.sels[s].branches == sel.branches
    requires forall j: nat :: j < |sel.branches| ==> BranchOut(r, sel, j)
    ensures Gone(r, s)
  {
    forall k: nat | k < |r.chans| ensures NoneOf(r.chans[k], s) {
      assert ChannelSound(r, k);
      var c := r.chans[k];
      forall i | 0 <= i < |c.senders| ensures !(c.senders[i].gate.Gated? && c.senders[i].gate.select == s) {
        var id := c.senders[i].id;
        assert NodeKnown(r, id) && QueuedIn(c, id);
        assert id >= sel.base ==> NotQueued(r, id) || !BranchOut(r, sel, id - sel.base);
      }
      forall i | 0 <= i < |c.receivers| ensures !(c.receivers[i].gate.Gated? && c.receivers[i].gate.select == s) {
        var id := c.receivers[i].id;
        assert NodeKnown(r, id) && QueuedIn(c, id);
        assert id >= sel.base ==> NotQueued(r, id) || !BranchOut(r, sel, id - sel.base);
      }
    }
  }

  lemma SelEnds(r: World, s: nat, sel: Sel)
    requires Inv(r) && s in r.sels && r.sels[s].branches == sel.branches && r.sels[s].base == sel.base
    requires sel.phase.Ended? && EndedOk(r, s, sel, sel.phase.result, sel.phase.left)
    ensures Inv(r.(sels := r.sels[s := sel]))
  {
    var w' := r.(sels := r.sels[s := sel]);
    assert SelOk(r, s);
    forall k: nat ensures ChannelSound(w', k) { assert ChannelSound(r, k); }
    forall id ensures NodeKnown(w', id) { assert NodeKnown(r, id); }
    forall t ensures SelOk(w', t) {
      assert SelOk(r, t);
      assert Gone(r, t) ==> Gone(w', t);
    }
  }

  lemma SameSends(reg: Registry, early: set<nat>, s: nat, a: Sel, b: Sel)
    requires a.base == b.base && a.branches == b.branches && !SendsOnTime(reg, early, s, a)
    ensures !SendsOnTime(reg, early, s, b)
  {
    var i: nat :| i < |a.branches| && LinkedLate(reg, early, s, a, i);
    assert LinkedLate(reg, early, s, b, i);
  }

  lemma FinishKeeps(w: World, s: nat, result: Result)
    requires Inv(w) && s in w.sels && w.sels[s].phase.Waiting? && InRange(|w.chans|, w.sels[s].branches)
    requires result == Cancelled || exists expired :: result == ResultOf(w, s, w.sels[s], expired)
    ensures Inv(Finish(w, s, w.sels[s], result))
  {
    var sel := w.sels[s];
    assert Disarming(w, s, sel, 0);
    DisarmEmpties(w, s, sel, 0);
    DisarmReturns(w, s, sel, 0);
    if s !in w.l.claims {
      DisarmSendsExactly(w, s, sel, 0);
      if GivesAway(w, s, sel, 0) { GivesAwayLate(w, s, sel, 0); }
    }
    var (r, left) := DisarmAll(w, sel.base, sel.branches, 0);
    GoneNow(r, s, sel);
    if result.Won? {
      var expired :| result == ResultOf(w, s, sel, expired);
      assert s in w.l.claims && w.l.claims[s] < |sel.branches|;
      LeftAt(w, s, sel, result.branch);
      ValueGiven(w.l.delivered, sel.base + result.branch);
    }
    assert Unsent(sel.branches, Winner(r, s, sel.branches))[0..] == Unsent(sel.branches, Winner(r, s, sel.branches));
    if !SendsOnTime(w.reg, w.early, s, sel) { SameSends(w.reg, w.early, s, sel, sel.(phase := Ended(result, left))); }
    SelEnds(r, s, sel.(phase := Ended(result, left)));
  }

  lemma {:induction false} ValueGiven(ds: seq<Handover>, id: nat)
    ensures ValueFor(ds, id) != NotReady <==> exists i :: 0 <= i < |ds| && ds[i].id == id
  {
  }

  // ---- Runs ----

  lemma StepKeeps(w: World, e: Event)
    requires Inv(w)
    ensures Inv(Step(w, e))
  {
    match e
    case Start(s, bs, hasTimer, hasDefault, expired) => StartKeeps(w, s, bs, hasTimer, hasDefault, expired);
    case Resume(s, expired) =>
      if Step(w, e) != w { FinishKeeps(w, s, ResultOf(w, s, w.sels[s], expired)); }
    case Cancel(s) =>
      if Step(w, e) != w { FinishKeeps(w, s, Cancelled); }
    case _ => PlainKeeps(w, e);
  }

  lemma InitInv(capacities: seq<Capacity>)
    ensures Inv(Init(capacities))
  {
    var w := Init(capacities);
    forall id ensures NodeKnown(w, id) && Decided(w.reg, w.l, id) { }
  }

  /** Every run of selects and plain operations keeps the invariant. */
  lemma {:induction false} EveryRunKeeps(capacities: seq<Capacity>, events: seq<Event>)
    ensures Inv(Run(Init(capacities), events))
    decreases |events|
  {
    InitInv(capacities);
    if events != [] {
      EveryRunKeeps(capacities, events[..|events| - 1]);
      StepKeeps(Run(Init(capacities), events[..|events| - 1]), events[|events| - 1]);
    }
  }

  /** In no run do two branches of one select both move a value: whatever moved, the winner's node did. */
  lemma AtMostOneMoves(capacities: seq<Capacity>, events: seq<Event>, a: nat, b: nat)
    requires
      var w := Run(Init(capacities), events);
      && Moved(w.l, a) && Moved(w.l, b) && a in w.reg && b in w.reg
      && w.reg[a].gate.Gated? && w.reg[b].gate.Gated? && w.reg[a].gate.select == w.reg[b].gate.select
    ensures a == b
  {
    EveryRunKeeps(capacities, events);
    var w := Run(Init(capacities), events);
    assert Decided(w.reg, w.l, a) && Decided(w.reg, w.l, b);
  }

  /** A waiting select that has a winner has been scheduled, so it will be resumed. */
  lemma WinnerIsWoken(capacities: seq<Capacity>, events: seq<Event>, s: nat)
    requires
      var w := Run(Init(capacities), events);
      s in w.sels && w.sels[s].phase.Waiting? && s in w.l.claims
    ensures
      var w := Run(Init(capacities), events);
      Resumable(w, w.sels[s], false)
  {
    EveryRunKeeps(capacities, events);
    var w := Run(Init(capacities), events);
    var sel := w.sels[s];
    LeftAt(w, s, sel, w.l.claims[s]);
    assert SelOk(w, s);
    assert ArmedAt(w.reg, s, sel, w.l.claims[s]);
    assert Decided(w.reg, w.l, sel.base + w.l.claims[s]);
  }

  /**
   * When a select has ended, no queue holds a node of it, and if it reports a
   * winner, or its sends are on different channels, or none of them was linked
   * to a channel closed already, every send but the winner's has its value back.
   */
  lemma {:induction false} EndedSelect(capacities: seq<Capacity>, events: seq<Event>, s: nat, i: nat)
    requires
      var w := Run(Init(capacities), events);
      && s in w.sels && w.sels[s].phase.Ended? && w.sels[s].phase.result != Cancelled
      && i < |w.sels[s].branches| && w.sels[s].branches[i].SendOf?
      && (w.sels[s].phase.result.Won? || DistinctSends(w.sels[s].branches) || SendsOnTime(w.reg, w.early, s, w.sels[s]))
    ensures
      var w := Run(Init(capacities), events);
      var sel := w.sels[s];
      var result := sel.phase.result;
      && Gone(w, s) && |sel.phase.left| == |sel.branches|
      && (sel.phase.left[i] == Some(sel.branches[i].value) <==> !(result.Won? && result.branch == i))
      && (sel.phase.left[i] == None <==> result.Won? && result.branch == i)
  {
    EveryRunKeeps(capacities, events);
    var w := Run(Init(capacities), events);
    assert SelOk(w, s);
  }

  // ---- Where a losing send does lose its value ----

  predicate MissesValue(sel: Sel, left: seq<Option<Msg>>) {
    exists i :: 0 <= i < |sel.branches| && i < |left| && sel.branches[i].SendOf? && left[i] == None
  }

  /**
   * In any run, a waiting select that nobody has decided ends, by a timeout, a
   * close, or its own cancellation. One of its sends misses its value exactly
   * when, at the turn of one of them, unlinking it lets a promotion reach
   * another one: that is so when the queue without it starts with nodes that
   * are all open, no two of one select, up to that other one, and the channel
   * has room for all of them.
   */
  lemma {:induction false} LosesValueExactly(capacities: seq<Capacity>, events: seq<Event>, s: nat, e: Event)
    requires e == Cancel(s) || e == Resume(s, true) || e == Resume(s, false)
    requires
      var w := Run(Init(capacities), events);
      s in w.sels && w.sels[s].phase.Waiting? && s !in w.l.claims && Step(w, e) != w
    ensures
      var w := Run(Init(capacities), events);
      var v := Step(w, e);
      && InRange(|w.chans|, w.sels[s].branches)
      && s in v.sels && v.sels[s].phase.Ended? && !v.sels[s].phase.result.Won?
      && (MissesValue(w.sels[s], v.sels[s].phase.left) <==> GivesAway(w, s, w.sels[s], 0))
  {
    EveryRunKeeps(capacities, events);
    var w := Run(Init(capacities), events);
    EndsWithout(w, s, if e.Cancel? then Cancelled else ResultOf(w, s, w.sels[s], e.expired));
  }

  lemma {:induction false} EndsWithout(w: World, s: nat, result: Result)
    requires Inv(w) && s in w.sels && w.sels[s].phase.Waiting? && s !in w.l.claims
    ensures InRange(|w.chans|, w.sels[s].branches)
    ensures
      var v := Finish(w, s, w.sels[s], result);
      s in v.sels && v.sels[s].phase.Ended? && v.sels[s].phase.result == result &&
      (MissesValue(w.sels[s], v.sels[s].phase.left) <==> GivesAway(w, s, w.sels[s], 0))
  {
    var sel := w.sels[s];
    assert SelOk(w, s);
    assert Disarming(w, s, sel, 0);
    DisarmEmpties(w, s, sel, 0);
    DisarmReturns(w, s, sel, 0);
    DisarmSendsExactly(w, s, sel, 0);
    var (r, left) := DisarmAll(w, sel.base, sel.branches, 0);
    assert left == Unsent(sel.branches, Winner(r, s, sel.branches));
    if s in r.l.claims {
      var i := r.l.claims[s];
      SenderWon(w, r, s, sel, i);
      assert left[i] == None;
    }
  }

  /** Who wins while the select is disarmed is a send. */
  lemma {:induction false} SenderWon(w: World, r: World, s: nat, sel: Sel, i: nat)
    requires Disarming(w, s, sel, 0) && Disarming(r, s, sel, |sel.branches|) && s !in w.l.claims
    requires s in r.l.claims && r.l.claims[s] == i && r.l.delivered == w.l.delivered
    ensures i < |sel.branches| && sel.branches[i].SendOf?
  {
    assert i < |sel.branches|;
    LeftAt(r, s, sel, i);
    LeftAt(w, s, sel, i);
  }

  /**
   * A channel of capacity one is closed; a select then offers it two values
   * and runs out of time. It reports the timeout, but its second value is in
   * the channel and does not come back.
   */
  lemma LateSendLost(m1: Msg, m2: Msg)
    ensures
      var bs := [SendOf(0, m1), SendOf(0, m2)];
      var w := Run(Init([Bounded(1)]), [Close(0), Start(0, bs, true, false, false), Resume(0, true)]);
      && 0 in w.sels && w.sels[0].phase == Ended(TimedOut, [Some(m1), None])
      && |w.chans| == 1 && w.chans[0].buffer == [m2]
  {
    var bs := [SendOf(0, m1), SendOf(0, m2)];
    var w0 := Init([Bounded(1)]);
    var c0 := Chan(Bounded(1), [], [], [], false, false, 0, 0);
    assert w0.chans == [c0];
    var w1 := Step(w0, Close(0));
    var c1 := c0.(sendClosed := true);
    assert w1.chans == [c1];
    LateStart(w1, m1, m2);
    var w2 := Step(w1, Start(0, bs, true, false, false));
    LateTimeout(w2, m1, m2);
    var w3 := Step(w2, Resume(0, true));
    RunThree(w0, Close(0), Start(0, bs, true, false, false), Resume(0, true));
  }

  predicate LateArmed(w: World, m1: Msg, m2: Msg) {
    && w.chans == [Chan(Bounded(1), [], [SendNode(0, m1, Gated(0, 0)), SendNode(1, m2, Gated(0, 1))], [], true, false, 0, 0)]
    && w.l == Ledger(map[], {}, [], {})
    && w.sels == map[0 := Sel([SendOf(0, m1), SendOf(0, m2)], true, 0, Waiting)]
  }

  lemma LateStart(w: World, m1: Msg, m2: Msg)
    requires w.chans == [Chan(Bounded(1), [], [], [], true, false, 0, 0)]
    requires w.l == Ledger(map[], {}, [], {}) && w.sels == map[] && w.next == 0 && w.reg == map[]
    ensures LateArmed(Step(w, Start(0, [SendOf(0, m1), SendOf(0, m2)], true, false, false)), m1, m2)
  {
    var bs := [SendOf(0, m1), SendOf(0, m2)];
    var sel := Sel(bs, true, 0, Waiting);
    assert !Probe(At(w, 0), bs[0]) && !Probe(At(w, 0), bs[1]);
    PutBack(w, 0);
    assert FastPath(w, 0, bs, 2) == (w, Undecided);
    assert FastPath(w, 0, bs, 1) == (w, Undecided);
    assert FastPath(w, 0, bs, 0) == (w, Undecided);
    var w1 := w.(sels := w.sels[0 := sel], next := 2);
    var x, y := SendNode(0, m1, Gated(0, 0)), SendNode(1, m2, Gated(0, 1));
    assert [] + [x] == [x] && [x] + [y] == [x, y];
    assert KindOf(bs[0]) == Out(m1) && KindOf(bs[1]) == Out(m2);
    var w2 := ArmOne(w1, 0, 0, 0, bs[0]);
    assert w2.chans == [Chan(Bounded(1), [], [SendNode(0, m1, Gated(0, 0))], [], true, false, 0, 0)];
    var w3 := ArmOne(w2, 0, 1, 1, bs[1]);
    assert ArmAll(w3, 0, 0, bs, 2) == w3;
    assert ArmAll(w2, 0, 0, bs, 1) == w3;
    assert ArmAll(w1, 0, 0, bs, 0) == w3;
  }

  lemma LateTimeout(w: World, m1: Msg, m2: Msg)
    requires LateArmed(w, m1, m2)
    ensures
      var r := Step(w, Resume(0, true));
      0 in r.sels && r.sels[0].phase == Ended(TimedOut, [Some(m1), None]) && |r.chans| == 1 && r.chans[0].buffer == [m2]
  {
    var sel := w.sels[0];
    var bs := sel.branches;
    var n := At(w, 0);
    var x, y := SendNode(0, m1, Gated(0, 0)), SendNode(1, m2, Gated(0, 1));
    var n1 := n.(c := n.c.(senders := [y]));
    assert RemoveAt(n.c.senders, 0) == [y];
    var n2 := PromoteOne(n1);
    assert n2.c.senders == [] && n2.c.buffer == [m2] && n2.l.taken == {1};
    assert Promote(n2) == n2 && Promote(n1) == n2;
    assert DropSender(n, 0) == n2;
    assert DropSender(n2, 1) == n2;
    var w1 := DisarmOne(w, 0, bs[0]);
    var w2 := DisarmOne(w1, 1, bs[1]);
    assert At(w1, 0) == n2 && At(w2, 0) == n2;
    assert DisarmAll(w2, 0, bs, 2) == (w2, []);
    assert 1 in w1.l.taken && DisarmOne(w1, 0 + 1, bs[1]) == w2;
    var nothing: seq<Option<Msg>> := [None];
    assert nothing + [] == nothing;
    assert DisarmAll(w1, 0, bs, 1) == (w2, nothing);
    assert DisarmAll(w, 0, bs, 0).1 == [Some(m1), None];
    assert ResultOf(w, 0, sel, true) == TimedOut;
  }

  lemma RunThree(w: World, a: Event, b: Event, c: Event)
    ensures Run(w, [a, b, c]) == Step(Step(Step(w, a), b), c)
  {
    assert [a, b, c][..2] == [a, b] && [a, b][..1] == [a] && [a][..0] == [];
    assert Run(w, []) == w && Run(w, [a]) == Step(w, a) && Run(w, [a, b]) == Step(Step(w, a), b);
  }
}
