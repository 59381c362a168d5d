/**
 * When unlinking a send gives away the value of another send of the same
 * select: exactly when the queue, once the node is out, starts with nodes that
 * can all be promoted up to one of that select.
 */
module SelectLoss {
  import opened Seqs
  import opened ChannelCore
  import opened SelectCore

  predicate Of(g: Gate, s: nat) {
    g.Gated? && g.select == s
  }

  /** The first `m` senders can all be promoted, each after the ones before it: all undecided, no two of one select. */
  predicate Clears(ss: seq<SendNode>, claims: Claims, m: nat) {
    && m <= |ss|
    && (forall j :: 0 <= j < m ==> GateOpen(claims, ss[j].gate))
    && (forall i, j :: 0 <= i < j < m && ss[i].gate.Gated? ==> !Of(ss[j].gate, ss[i].gate.select))
  }

  predicate RoomFor(c: Chan, m: nat) {
    c.capacity.Unbounded? || |c.buffer| + m <= c.capacity.n
  }

  /** Select `s` has a sender in the queue that a promotion reaches. */
  predicate Reached(n: Net, s: nat, q: nat) {
    q < |n.c.senders| && Of(n.c.senders[q].gate, s) && Clears(n.c.senders, n.l.claims, q + 1) && RoomFor(n.c, q + 1)
  }

  predicate Reaches(n: Net, s: nat) {
    exists q: nat :: q < |n.c.senders| && Reached(n, s, q)
  }

  lemma ClearsNext(ss: seq<SendNode>, claims: Claims, m: nat)
    requires ss != [] && GateOpen(claims, ss[0].gate)
    ensures Clears(ss, claims, m + 1) <==> Clears(ss[1..], Claim(claims, ss[0].gate), m)
  {
    var rest, after := ss[1..], Claim(claims, ss[0].gate);
    if Clears(rest, after, m) {
      forall j | 0 <= j < m + 1 ensures GateOpen(claims, ss[j].gate) {
        if j > 0 { assert GateOpen(after, rest[j - 1].gate); }
      }
      forall i, j | 0 <= i < j < m + 1 && ss[i].gate.Gated? ensures !Of(ss[j].gate, ss[i].gate.select) {
        assert ss[j] == rest[j - 1] && GateOpen(after, rest[j - 1].gate);
        if i > 0 { assert ss[i] == rest[i - 1]; }
      }
    }
    if Clears(ss, claims, m + 1) {
      forall j | 0 <= j < m ensures GateOpen(after, rest[j].gate) {
        assert rest[j] == ss[j + 1] && GateOpen(claims, ss[j + 1].gate);
      }
      forall i, j | 0 <= i < j < m && rest[i].gate.Gated? ensures !Of(rest[j].gate, rest[i].gate.select) {
        assert rest[i] == ss[i + 1] && rest[j] == ss[j + 1];
      }
    }
  }

  /** Past a head of somebody else, what a promotion reaches is reached one place further on. */
  lemma ReachesNext(n: Net, s: nat)
    requires CanPromote(n) && !Of(n.c.senders[0].gate, s)
    ensures Reaches(n, s) <==> Reaches(PromoteOne(n), s)
  {
    var ss, r := n.c.senders, PromoteOne(n);
    if Reaches(n, s) {
      var q: nat :| q < |ss| && Reached(n, s, q);
      ClearsNext(ss, n.l.claims, q);
      assert ss[q] == r.c.senders[q - 1];
      assert Reached(r, s, q - 1);
    }
    if Reaches(r, s) {
      var q: nat :| q < |r.c.senders| && Reached(r, s, q);
      ClearsNext(ss, n.l.claims, q + 1);
      assert Reached(n, s, q + 1);
    }
  }

  lemma {:induction false} ClaimsGrow(n: Net, s: nat)
    requires s in n.l.claims
    ensures s in Promote(n).l.claims
    decreases |n.c.senders|
  {
    if CanPromote(n) { ClaimsGrow(PromoteOne(n), s); }
  }

  /** Promoting decides an undecided select exactly when it reaches one of its senders. */
  lemma {:induction false} PromoteSettles(n: Net, s: nat)
    requires s !in n.l.claims
    ensures s in Promote(n).l.claims <==> Reaches(n, s)
    decreases |n.c.senders|
  {
    if !CanPromote(n) {
      NotReached(n, s);
    } else if Of(n.c.senders[0].gate, s) {
      ClaimsGrow(PromoteOne(n), s);
      assert Reached(n, s, 0);
    } else {
      PromoteSettles(PromoteOne(n), s);
      ReachesNext(n, s);
    }
  }

  lemma NotReached(n: Net, s: nat)
    requires !CanPromote(n)
    ensures !Reaches(n, s)
  {
    forall q: nat | q < |n.c.senders| ensures !Reached(n, s, q) {
      if Clears(n.c.senders, n.l.claims, q + 1) { assert GateOpen(n.l.claims, n.c.senders[0].gate); }
    }
  }

  /** The channel without the sender `id`, before anything is promoted. */
  function Unlink(n: Net, id: nat): Net {
    var p := SenderIndex(n.c.senders, id);
    if p < |n.c.senders| then n.(c := n.c.(senders := RemoveAt(n.c.senders, p))) else n
  }

  /** Unlinking a sender decides an undecided select exactly when that lets a promotion reach it. */
  lemma {:induction false} DropSettles(n: Net, id: nat, s: nat)
    requires s !in n.l.claims
    ensures s in DropSender(n, id).l.claims <==> Reaches(Unlink(n, id), s)
  {
    PromoteSettles(Unlink(n, id), s);
    assert DropSender(n, id) == Promote(Unlink(n, id));
  }

  /** Where an open head waits for room, it still does when an undecided select's own sender is unlinked. */
  lemma {:induction false} CalmStays(n: Net, id: nat, s: nat)
    requires !CanPromote(n) && s !in n.l.claims
    requires forall i :: 0 <= i < |n.c.senders| && n.c.senders[i].id == id ==> Of(n.c.senders[i].gate, s)
    ensures !CanPromote(Unlink(n, id))
  {
  }
}
