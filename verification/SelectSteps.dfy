/**
 * The steps of `select` itself: the fast path needs no rollback, arming links
 * every branch, and disarming leaves nothing behind and hands the values back.
 */
module SelectSteps {
  import opened Seqs
  import opened ChannelCore
  import opened SelectCore
  import opened Select
  import opened SelectRuns

  /** A select that has not started is in no queue and has no claim. */
  lemma Unknown(w: World, s: nat)
    requires Sound(w) && s !in w.sels
    ensures s !in w.l.claims && Gone(w, s)
    ensures forall id :: id in w.reg && w.reg[id].gate.Gated? ==> w.reg[id].gate.select != s
  {
    forall id | id in w.reg && w.reg[id].gate.Gated? ensures w.reg[id].gate.select != s { assert NodeKnown(w, id); }
    forall k: nat | k < |w.chans| ensures NoneOf(w.chans[k], s) { assert ChannelSound(w, k); }
  }

  // ---- The fast path ----

  /** One's own claim closes nobody's gate when one has no node. */
  lemma {:induction false} FirstOpenSame(rs: seq<RecvNode>, claims: Claims, s: nat, i: nat)
    requires forall j :: 0 <= j < |rs| ==> !(rs[j].gate.Gated? && rs[j].gate.select == s)
    ensures FirstOpen(rs, claims[s := i]) == FirstOpen(rs, claims)
  {
    if rs != [] { FirstOpenSame(rs[1..], claims, s, i); }
  }

  function Claimed(n: Net, s: nat, i: nat): Net {
    n.(l := n.l.(claims := n.l.claims[s := i]))
  }

  lemma ClaimNet(reg: Registry, k: nat, n: Net, s: nat, i: nat)
    requires NetOk(reg, k, n) && s !in n.l.claims
    requires forall id :: id in reg && reg[id].gate.Gated? ==> reg[id].gate.select != s
    ensures NetOk(reg, k, Claimed(n, s, i))
  {
    var l' := Claimed(n, s, i).l;
    forall id ensures Decided(reg, l', id) && Moved(l', id) == Moved(n.l, id) {
      assert Decided(reg, n.l, id);
      assert IsDelivered(l', id) == IsDelivered(n.l, id);
    }
  }

  /**
   * A successful probe makes the claim and the commit succeed: giving the
   * claim back is dead code. A failed probe changes nothing.
   */
  lemma NoRollback(reg: Registry, k: nat, n: Net, s: nat, i: nat, b: Branch)
    requires NetOk(reg, k, n) && NoneOf(n.c, s) && s !in n.l.claims
    requires forall id :: id in reg && reg[id].gate.Gated? ==> reg[id].gate.select != s
    ensures !Probe(n, b) ==> TryNow(n, s, i, b) == (n, NotNow)
    ensures Probe(n, b) ==> TryNow(n, s, i, b).1.Now? && (b.RecvOf? <==> TryNow(n, s, i, b).1.got != NotReady)
    ensures Probe(n, b) ==> NetOk(reg, k, Claimed(n, s, i)) && Keeps(reg, k, Claimed(n, s, i), TryNow(n, s, i, b).0)
    ensures Probe(n, b) && !CanPromote(n) ==> !CanPromote(TryNow(n, s, i, b).0)
  {
    if Probe(n, b) {
      var c := Claimed(n, s, i);
      ClaimNet(reg, k, n, s, i);
      FirstOpenSame(n.c.receivers, n.l.claims, s, i);
      if b.SendOf? {
        AcceptKeeps(reg, k, c, b.value);
        if !CanPromote(n) { AcceptCalm(reg, k, c, b.value); }
      } else {
        RecvReadyKeeps(reg, k, c);
        if !CanPromote(n) && n.c.buffer == [] { TakeCalm(c); }
      }
    }
  }

  lemma PutBack(w: World, k: nat)
    requires k < |w.chans|
    ensures Put(w, k, At(w, k)) == w
  {
    assert w.chans[k := w.chans[k]] == w.chans;
  }

  /** The fast path takes the first branch that is ready and leaves everything alone when none is. */
  lemma {:induction false} FastExactly(w: World, s: nat, bs: seq<Branch>, i: nat)
    requires Sound(w) && s !in w.sels && InRange(|w.chans|, bs) && i <= |bs|
    ensures
      var (f, r) := FastPath(w, s, bs, i);
      match r
      case Undecided => f == w && forall j :: i <= j < |bs| ==> !Probe(At(w, bs[j].ch), bs[j])
      case Chosen(j, got) =>
        && i <= j < |bs| && Probe(At(w, bs[j].ch), bs[j]) && (forall h :: i <= h < j ==> !Probe(At(w, bs[h].ch), bs[h]))
        && f == Put(w, bs[j].ch, TryNow(At(w, bs[j].ch), s, j, bs[j]).0)
        && TryNow(At(w, bs[j].ch), s, j, bs[j]).1 == Now(got) && (bs[j].RecvOf? <==> got != NotReady)
    decreases |bs| - i
  {
    if i < |bs| {
      var k := bs[i].ch;
      Unknown(w, s);
      NetOf(w, k);
      assert NoneOf(w.chans[k], s);
      NoRollback(w.reg, k, At(w, k), s, i, bs[i]);
      if !Probe(At(w, k), bs[i]) {
        PutBack(w, k);
        FastExactly(w, s, bs, i + 1);
      }
    }
  }

  /** A select comes into being, with its claim if it has one. */
  lemma NewSel(w: World, s: nat, sel: Sel, claim: nat)
    requires Inv(w) && s !in w.sels && InRange(|w.chans|, sel.branches) && claim <= |sel.branches|
    ensures
      var l := if claim < |sel.branches| then w.l.(claims := w.l.claims[s := claim]) else w.l;
      var w' := w.(sels := w.sels[s := sel], l := l);
      Sound(w') && Gone(w', s) && forall t :: t != s ==> SelOk(w', t)
  {
    Unknown(w, s);
    var l := if claim < |sel.branches| then w.l.(claims := w.l.claims[s := claim]) else w.l;
    var w' := w.(sels := w.sels[s := sel], l := l);
    forall id ensures Decided(w.reg, l, id) && Moved(l, id) == Moved(w.l, id) {
      assert Decided(w.reg, w.l, id);
      assert IsDelivered(l, id) == IsDelivered(w.l, id);
    }
    forall k: nat ensures ChannelSound(w', k) { assert ChannelSound(w, k); }
    forall id ensures NodeKnown(w', id) { assert NodeKnown(w, id); }
    forall t | t != s ensures SelOk(w', t) {
      assert SelOk(w, t);
      if t in w.sels && w.sels[t].phase.Ended? { assert Gone(w, t) ==> Gone(w', t); }
    }
    assert Gone(w, s) ==> Gone(w', s);
  }

  lemma FastEnds(w: World, s: nat, sel: Sel, result: Result)
    requires Inv(w) && s !in w.sels && InRange(|w.chans|, sel.branches) && !result.Won?
    requires sel.phase == Ended(result, Unsent(sel.branches, |sel.branches|))
    ensures Inv(w.(sels := w.sels[s := sel]))
  {
    NewSel(w, s, sel, |sel.branches|);
    Unknown(w, s);
    var w' := w.(sels := w.sels[s := sel]);
    forall t ensures SelOk(w', t) { }
  }

  lemma FastWins(w: World, s: nat, sel: Sel, i: nat, got: Received)
    requires Inv(w) && s !in w.sels && InRange(|w.chans|, sel.branches) && i < |sel.branches|
    requires Probe(At(w, sel.branches[i].ch), sel.branches[i]) && (sel.branches[i].RecvOf? <==> got != NotReady)
    requires sel.phase == Ended(Won(i, got), Unsent(sel.branches, i))
    ensures
      var k := sel.branches[i].ch;
      Inv(Put(w, k, TryNow(At(w, k), s, i, sel.branches[i]).0).(sels := w.sels[s := sel]))
  {
    var k, b := sel.branches[i].ch, sel.branches[i];
    var n := At(w, k);
    NewSel(w, s, sel, i);
    Unknown(w, s);
    NetOf(w, k);
    assert NoneOf(w.chans[k], s);
    NoRollback(w.reg, k, n, s, i, b);
    var w' := w.(sels := w.sels[s := sel], l := w.l.(claims := w.l.claims[s := i]));
    assert At(w', k) == Claimed(n, s, i);
    forall t ensures SelOk(w', t) { }
    PutInv(w', k, TryNow(n, s, i, b).0);
  }

  // ---- Arming ----

  /** A branch that is not ready is blocked: its channel is closed or full. */
  predicate Blocked(w: World, b: Branch) {
    b.ch < |w.chans| && (b.SendOf? ==> SendRefused(w.chans[b.ch]) || !HasRoom(w.chans[b.ch]))
  }

  predicate Unlinked(w: World, sel: Sel, j: nat) {
    j < |sel.branches| && Blocked(w, sel.branches[j]) && sel.base + j !in w.reg
  }

  /** The state while branches `i`.. of select `s` are still to be linked. */
  ghost predicate Arming(w: World, s: nat, sel: Sel, i: nat) {
    && Sound(w) && s in w.sels && w.sels[s] == sel && sel.phase.Waiting? && s !in w.l.claims
    && i <= |sel.branches| && InRange(|w.chans|, sel.branches) && sel.base + |sel.branches| <= w.next
    && (forall t :: t != s ==> SelOk(w, t))
    && (forall j: nat :: j < i ==> ArmedAt(w.reg, s, sel, j))
    && (forall j: nat :: i <= j < |sel.branches| ==> Unlinked(w, sel, j))
  }

  lemma StillBlocked(w: World, s: nat, id: nat, i: nat, b: Branch, other: Branch, x: nat)
    requires b.ch < |w.chans| && Blocked(w, other) && x !in w.reg && x != id
    ensures Blocked(ArmOne(w, s, id, i, b), other) && x !in ArmOne(w, s, id, i, b).reg
  {
  }

  lemma ArmSound(w: World, s: nat, sel: Sel, i: nat)
    requires Arming(w, s, sel, i) && i < |sel.branches|
    ensures
      var w2 := ArmOne(w, s, sel.base + i, i, sel.branches[i]);
      Sound(w2) && forall t :: t != s ==> SelOk(w2, t)
  {
    var b, id := sel.branches[i], sel.base + i;
    var info := Info(b.ch, Gated(s, i), KindOf(b));
    assert Unlinked(w, sel, i);
    assert Blocked(w, b);
    assert MayLink(w, id, info);
    LinkSound(w, id, info);
    var w2 := LinkTo(w, id, info);
    assert w2 == ArmOne(w, s, id, i, b);
    forall t | t != s ensures SelOk(w2, t) { LinkSel(w, id, info, t); }
  }

  lemma ArmStep(w: World, s: nat, sel: Sel, i: nat)
    requires Arming(w, s, sel, i) && i < |sel.branches|
    ensures Arming(ArmOne(w, s, sel.base + i, i, sel.branches[i]), s, sel, i + 1)
  {
    var b, id := sel.branches[i], sel.base + i;
    assert Unlinked(w, sel, i);
    var w2 := ArmOne(w, s, id, i, b);
    assert w2.sels == w.sels && w2.l == w.l && |w2.chans| == |w.chans| && w2.next == w.next;
    assert InRange(|w2.chans|, sel.branches);
    ArmSound(w, s, sel, i);
    forall j: nat | j < i + 1 ensures ArmedAt(w2.reg, s, sel, j) {
      if j < i { assert ArmedAt(w.reg, s, sel, j); }
    }
    forall j: nat | i + 1 <= j < |sel.branches| ensures Unlinked(w2, sel, j) {
      assert Unlinked(w, sel, j);
      StillBlocked(w, s, id, i, b, sel.branches[j], sel.base + j);
    }
  }

  lemma {:induction false} ArmKeeps(w: World, s: nat, sel: Sel, i: nat)
    requires Arming(w, s, sel, i)
    ensures Inv(ArmAll(w, s, sel.base, sel.branches, i))
    ensures s !in ArmAll(w, s, sel.base, sel.branches, i).l.claims
    decreases |sel.branches| - i
  {
    if i < |sel.branches| {
      ArmStep(w, s, sel, i);
      ArmKeeps(ArmOne(w, s, sel.base + i, i, sel.branches[i]), s, sel, i + 1);
    }
  }

  lemma ArmStarts(w: World, s: nat, sel: Sel)
    requires Inv(w) && s !in w.sels && InRange(|w.chans|, sel.branches) && sel.phase.Waiting? && sel.base == w.next
    requires forall j :: 0 <= j < |sel.branches| ==> !Probe(At(w, sel.branches[j].ch), sel.branches[j])
    ensures Arming(w.(sels := w.sels[s := sel], next := w.next + |sel.branches|), s, sel, 0)
  {
    var w1 := w.(next := w.next + |sel.branches|);
    NextInv(w, w.next + |sel.branches|);
    NewSel(w1, s, sel, |sel.branches|);
    Unknown(w, s);
    var w' := w1.(sels := w.sels[s := sel]);
    assert w' == w1.(sels := w1.sels[s := sel], l := w1.l);
    forall j: nat | j < |sel.branches| ensures Unlinked(w', sel, j) {
      assert NodeKnown(w, sel.base + j);
      assert !Probe(At(w, sel.branches[j].ch), sel.branches[j]);
    }
  }

  lemma {:induction false} StartKeeps(w: World, s: nat, bs: seq<Branch>, hasTimer: bool, hasDefault: bool, expired: bool)
    requires Inv(w)
    ensures Inv(StartStep(w, s, bs, hasTimer, hasDefault, expired))
  {
    if s !in w.sels && InRange(|w.chans|, bs) {
      var sel := Sel(bs, hasTimer, w.next, Waiting);
      FastExactly(w, s, bs, 0);
      var (f, chosen) := FastPath(w, s, bs, 0);
      match chosen
      case Chosen(i, got) =>
        FastWins(w, s, sel.(phase := Ended(Won(i, got), Unsent(bs, i))), i, got);
      case Undecided =>
        FastEnds(w, s, sel.(phase := Ended(TimedOut, Unsent(bs, |bs|))), TimedOut);
        FastEnds(w, s, sel.(phase := Ended(Defaulted, Unsent(bs, |bs|))), Defaulted);
        ArmStarts(w, s, sel);
        ArmKeeps(w.(sels := w.sels[s := sel], next := w.next + |bs|), s, sel, 0);
    }
  }
}
