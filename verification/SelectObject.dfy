/**
 * `run_select` as the source has it: loops over the branches of one select
 * that change the loop's channels in place (include/coro/select.hpp). Each
 * method does what the function of the machine in `Select` says.
 */
module SelectObject {
  import opened ChannelCore
  import opened SelectCore
  import opened Select

  /** The loop: its channels, the fate of all nodes, and the selects on it. */
  class SelectLoop {
    var chans: seq<Chan>
    var ledger: Ledger
    var sels: map<nat, Sel>
    var next: nat
    ghost var reg: Registry
    ghost var early: set<nat>

    ghost function Abs(): World
      reads this
    {
      World(chans, ledger, sels, next, reg, early)
    }

    /** The fast path: probe, claim, commit, from the rotation's start on. */
    method Scan(s: nat, bs: seq<Branch>) returns (r: Fast)
      requires InRange(|chans|, bs)
      modifies this`chans, this`ledger
      ensures (Abs(), r) == FastPath(old(Abs()), s, bs, 0)
    {
      var rotation, step := 0, 0;
      while step < |bs|
        invariant step <= |bs| && rotation == (if step == |bs| then 0 else step) && InRange(|chans|, bs)
        invariant FastPath(Abs(), s, bs, step) == FastPath(old(Abs()), s, bs, 0)
      {
        var i := rotation;
        rotation := (rotation + 1) % |bs|;
        var k := bs[i].ch;
        var (n, t) := TryNow(Net(chans[k], ledger), s, i, bs[i]);
        chans, ledger := chans[k := n.c], n.l;
        if t.Now? { return Chosen(i, t.got); }
        step := step + 1;
      }
      return Undecided;
    }

    /** Links a gated node for every branch. */
    method Arm(s: nat, base: nat, bs: seq<Branch>)
      requires InRange(|chans|, bs)
      modifies this`chans, this`reg, this`early
      ensures Abs() == ArmAll(old(Abs()), s, base, bs, 0)
    {
      var i := 0;
      while i < |bs|
        invariant i <= |bs| && InRange(|chans|, bs) && ledger == old(ledger)
        invariant ArmAll(Abs(), s, base, bs, i) == ArmAll(old(Abs()), s, base, bs, 0)
      {
        var k := bs[i].ch;
        var c := chans[k];
        if bs[i].SendOf? {
          chans := chans[k := c.(senders := c.senders + [SendNode(base + i, bs[i].value, Gated(s, i))])];
        } else {
          chans := chans[k := c.(receivers := c.receivers + [RecvNode(base + i, Gated(s, i))])];
        }
        if !SendRefused(c) { early := early + {base + i}; }
        reg := reg[base + i := Info(k, Gated(s, i), KindOf(bs[i]))];
        i := i + 1;
      }
    }

    /** The guard's destructor: every branch is unlinked, and a send that was not taken gets its value back. */
    method Disarm(base: nat, bs: seq<Branch>) returns (left: seq<Option<Msg>>)
      requires InRange(|chans|, bs)
      modifies this`chans, this`ledger
      ensures (Abs(), left) == DisarmAll(old(Abs()), base, bs, 0)
    {
      var i := 0;
      left := [];
      while i < |bs|
        invariant i <= |bs| && |left| == i && InRange(|chans|, bs)
        invariant DisarmAll(Abs(), base, bs, i).0 == DisarmAll(old(Abs()), base, bs, 0).0
        invariant left + DisarmAll(Abs(), base, bs, i).1 == DisarmAll(old(Abs()), base, bs, 0).1
      {
        var k := bs[i].ch;
        var mine := if bs[i].SendOf? && base + i !in ledger.taken then Some(bs[i].value) else None;
        ghost var rest := DisarmAll(DisarmOne(Abs(), base + i, bs[i]), base, bs, i + 1).1;
        Shift(left, mine, rest);
        var n := if bs[i].SendOf? then DropSender(Net(chans[k], ledger), base + i) else DropReceiver(Net(chans[k], ledger), base + i);
        chans, ledger := chans[k := n.c], n.l;
        left := left + [mine];
        i := i + 1;
      }
      assert left + [] == left;
    }

    /** A select up to its first suspension, or to its end. */
    method Begin(s: nat, bs: seq<Branch>, hasTimer: bool, hasDefault: bool, expired: bool)
      requires s !in sels && InRange(|chans|, bs)
      modifies this
      ensures Abs() == StartStep(old(Abs()), s, bs, hasTimer, hasDefault, expired)
    {
      var sel := Sel(bs, hasTimer, next, Waiting);
      var r := Scan(s, bs);
      match r
      case Chosen(i, got) =>
        sels := sels[s := sel.(phase := Ended(Won(i, got), Unsent(bs, i)))];
      case Undecided =>
        if hasTimer && expired {
          sels := sels[s := sel.(phase := Ended(TimedOut, Unsent(bs, |bs|)))];
        } else if hasDefault {
          sels := sels[s := sel.(phase := Ended(Defaulted, Unsent(bs, |bs|)))];
        } else {
          sels, next := sels[s := sel], next + |bs|;
          Arm(s, sel.base, bs);
        }
    }

    /** A select from its resumption to its end. */
    method Conclude(s: nat, expired: bool) returns (result: Result)
      requires s in sels && sels[s].phase.Waiting? && InRange(|chans|, sels[s].branches)
      modifies this
      ensures result == ResultOf(old(Abs()), s, old(sels[s]), expired)
      ensures Abs() == Finish(old(Abs()), s, old(sels[s]), result)
    {
      var sel := sels[s];
      if s in ledger.claims {
        var i := ledger.claims[s];
        result := Won(i, ValueFor(ledger.delivered, sel.base + i));
      } else if sel.hasTimer && expired {
        result := TimedOut;
      } else {
        var k := 0;
        while k < |sel.branches| && !(sel.branches[k].RecvOf? && chans[sel.branches[k].ch].sendClosed && chans[sel.branches[k].ch].buffer == [])
          invariant k <= |sel.branches| && Abs() == old(Abs())
          invariant ClosedBranch(Abs(), sel.branches, k) == ClosedBranch(old(Abs()), sel.branches, 0)
        {
          k := k + 1;
        }
        result := if k < |sel.branches| then Closed(k) else Nobody;
      }
      var left := Disarm(sel.base, sel.branches);
      sels := sels[s := sel.(phase := Ended(result, left))];
    }
  }

  lemma Shift(left: seq<Option<Msg>>, mine: Option<Msg>, rest: seq<Option<Msg>>)
    ensures left + ([mine] + rest) == (left + [mine]) + rest
  {
  }
}
