/**
 * Conservation: over every run of selects and plain operations, the values
 * that were sent are those in the buffers and those that were received.
 */
module SelectValues {
  import opened Seqs
  import opened ChannelCore
  import opened SelectCore
  import opened Select
  import opened SelectRuns
  import opened SelectSteps
  import opened SelectLoss
  import opened SelectEnds

  type Values = multiset<Msg>

  // ---- Sums ----

  predicate IsSent(reg: Registry, taken: set<nat>, id: nat) {
    id in taken && id in reg && reg[id].kind.Out?
  }

  /** The values taken out of the send nodes below `next`. */
  function Sent(reg: Registry, taken: set<nat>, next: nat): Values {
    if next == 0 then multiset{}
    else Sent(reg, taken, next - 1) + if IsSent(reg, taken, next - 1) then multiset{reg[next - 1].kind.value} else multiset{}
  }

  /** The values handed to receivers. */
  function Handed(ds: seq<Handover>): Values {
    if ds == [] then multiset{} else Handed(ds[..|ds| - 1]) + multiset{ds[|ds| - 1].value}
  }

  function Buffers(chans: seq<Chan>): Values {
    if chans == [] then multiset{} else multiset(chans[0].buffer) + Buffers(chans[1..])
  }

  lemma {:induction false} SentSame(reg: Registry, taken: set<nat>, reg': Registry, taken': set<nat>, next: nat)
    requires forall id: nat :: id < next ==>
      IsSent(reg, taken, id) == IsSent(reg', taken', id) && (IsSent(reg', taken', id) ==> reg[id].kind == reg'[id].kind)
    ensures Sent(reg, taken, next) == Sent(reg', taken', next)
  {
    if next > 0 { SentSame(reg, taken, reg', taken', next - 1); }
  }

  lemma {:induction false} SentMore(reg: Registry, taken: set<nat>, id: nat, next: nat)
    requires id < next && id !in taken && id in reg && reg[id].kind.Out?
    ensures Sent(reg, taken + {id}, next) == Sent(reg, taken, next) + multiset{reg[id].kind.value}
  {
    if id == next - 1 { SentSame(reg, taken, reg, taken + {id}, next - 1); }
    else { SentMore(reg, taken, id, next - 1); }
  }

  lemma {:induction false} SentFurther(reg: Registry, taken: set<nat>, next: nat, further: nat)
    requires next <= further && forall id: nat :: next <= id < further ==> !IsSent(reg, taken, id)
    ensures Sent(reg, taken, further) == Sent(reg, taken, next)
    decreases further - next
  {
    if next < further { SentFurther(reg, taken, next, further - 1); }
  }

  lemma {:induction false} HandedMore(ds: seq<Handover>, d: Handover)
    ensures Handed(ds + [d]) == Handed(ds) + multiset{d.value}
  {
    assert (ds + [d])[..|ds|] == ds;
  }

  lemma {:induction false} BuffersPut(chans: seq<Chan>, k: nat, c: Chan)
    requires k < |chans|
    ensures Buffers(chans[k := c]) + multiset(chans[k].buffer) == Buffers(chans) + multiset(c.buffer)
  {
    var after := chans[k := c];
    if k == 0 {
      assert after[1..] == chans[1..];
    } else {
      BuffersPut(chans[1..], k - 1, c);
      assert after[1..] == chans[1..][k - 1 := c];
      var first, b, b' := multiset(chans[0].buffer), Buffers(chans[1..]), Buffers(chans[1..][k - 1 := c]);
      forall m ensures (first + b' + multiset(chans[k].buffer))[m] == (first + b + multiset(c.buffer))[m] {
        assert (b' + multiset(chans[k].buffer))[m] == (b + multiset(c.buffer))[m];
      }
    }
  }

  lemma {:induction false} BuffersSame(chans: seq<Chan>, k: nat, c: Chan)
    requires k < |chans| && c.buffer == chans[k].buffer
    ensures Buffers(chans[k := c]) == Buffers(chans)
  {
    BuffersPut(chans, k, c);
    Cancel(Buffers(chans[k := c]), Buffers(chans), multiset(c.buffer));
  }

  lemma Cancel(a: Values, b: Values, c: Values)
    requires a + c == b + c
    ensures a == b
  {
    forall m ensures a[m] == b[m] { assert (a + c)[m] == (b + c)[m]; }
  }

  // ---- One channel operation ----

  function Stock(n: Net): Values {
    multiset(n.c.buffer) + Handed(n.l.delivered)
  }

  predicate Flow(reg: Registry, next: nat, n: Net, r: Net, inn: Values, out: Values, m: Msg) {
    Sent(reg, r.l.taken, next)[m] + inn[m] + Stock(n)[m] == Sent(reg, n.l.taken, next)[m] + out[m] + Stock(r)[m]
  }

  /** From `n` to `r`, `inn` came in and `out` went out other than through nodes. */
  ghost predicate Flows(reg: Registry, next: nat, n: Net, r: Net, inn: Values, out: Values) {
    forall m :: Flow(reg, next, n, r, inn, out, m)
  }

  ghost predicate Below(reg: Registry, next: nat) {
    forall id :: id in reg ==> id < next
  }

  lemma {:induction false} FlowsTrans(reg: Registry, next: nat, a: Net, b: Net, c: Net, out: Values)
    requires Flows(reg, next, a, b, multiset{}, out) && Flows(reg, next, b, c, multiset{}, multiset{})
    ensures Flows(reg, next, a, c, multiset{}, out)
  {
    forall m ensures Flow(reg, next, a, c, multiset{}, out, m) {
      assert Flow(reg, next, a, b, multiset{}, out, m) && Flow(reg, next, b, c, multiset{}, multiset{}, m);
    }
  }

  /** Neither buffer nor nodes change. */
  lemma {:induction false} NothingFlows(reg: Registry, next: nat, n: Net, r: Net)
    requires r.c.buffer == n.c.buffer && r.l.taken == n.l.taken && r.l.delivered == n.l.delivered
    ensures Flows(reg, next, n, r, multiset{}, multiset{})
  {
    assert Stock(r) == Stock(n);
    forall m ensures Flow(reg, next, n, r, multiset{}, multiset{}, m) { }
  }

  /** Values come into the buffer, at either end. */
  lemma {:induction false} BufferFlows(reg: Registry, next: nat, n: Net, m: Msg)
    ensures Flows(reg, next, n, n.(c := n.c.(buffer := n.c.buffer + [m])), multiset{m}, multiset{})
    ensures Flows(reg, next, n, n.(c := n.c.(buffer := [m] + n.c.buffer)), multiset{m}, multiset{})
    ensures Flows(reg, next, n.(c := n.c.(buffer := [m] + n.c.buffer)), n, multiset{}, multiset{m})
  {
    var back, front := n.(c := n.c.(buffer := n.c.buffer + [m])), n.(c := n.c.(buffer := [m] + n.c.buffer));
    assert Stock(back) == Stock(n) + multiset{m} && Stock(front) == Stock(n) + multiset{m};
    forall x ensures Flow(reg, next, n, back, multiset{m}, multiset{}, x) { }
    forall x ensures Flow(reg, next, n, front, multiset{m}, multiset{}, x) { }
    forall x ensures Flow(reg, next, front, n, multiset{}, multiset{m}, x) { }
  }

  /** The head sender's value goes out; or, buffered, it stays. */
  lemma {:induction false} HeadFlows(reg: Registry, k: nat, next: nat, n: Net)
    requires NetOk(reg, k, n) && Below(reg, next) && n.c.senders != []
    ensures
      var v := n.c.senders[0].value;
      && Flows(reg, next, n, WithoutHead(n, n.c.buffer), multiset{}, multiset{v})
      && Flows(reg, next, n, WithoutHead(n, n.c.buffer + [v]), multiset{}, multiset{})
  {
    var x := n.c.senders[0];
    var v := x.value;
    assert !Moved(n.l, x.id);
    SentMore(reg, n.l.taken, x.id, next);
    var r, b := WithoutHead(n, n.c.buffer), WithoutHead(n, n.c.buffer + [v]);
    assert Stock(r) == Stock(n) && Stock(b) == Stock(n) + multiset{v};
    forall m ensures Flow(reg, next, n, r, multiset{}, multiset{v}, m) { }
    forall m ensures Flow(reg, next, n, b, multiset{}, multiset{}, m) { }
  }

  lemma {:induction false} PromoteFlows(reg: Registry, k: nat, next: nat, n: Net)
    requires NetOk(reg, k, n) && Below(reg, next)
    ensures Flows(reg, next, n, Promote(n), multiset{}, multiset{})
    decreases |n.c.senders|
  {
    if CanPromote(n) {
      HeadFlows(reg, k, next, n);
      HeadTaken(reg, k, n, n.c.buffer + [n.c.senders[0].value]);
      PromoteFlows(reg, k, next, PromoteOne(n));
      FlowsTrans(reg, next, n, PromoteOne(n), Promote(n), multiset{});
    } else {
      NothingFlows(reg, next, n, n);
    }
  }

  function Got1(got: Received): Values {
    if got.Value? then multiset{got.m} else multiset{}
  }

  function Ok1(ok: bool, m: Msg): Values {
    if ok then multiset{m} else multiset{}
  }

  lemma {:induction false} GivenFlows(reg: Registry, next: nat, n: Net, i: nat, m: Msg)
    requires i < |n.c.receivers|
    ensures Flows(reg, next, n, WithoutReceiver(n, i, m), multiset{m}, multiset{})
  {
    var r := WithoutReceiver(n, i, m);
    HandedMore(n.l.delivered, Handover(n.c.receivers[i].id, m));
    assert Stock(r) == Stock(n) + multiset{m};
    forall x ensures Flow(reg, next, n, r, multiset{m}, multiset{}, x) { }
  }

  lemma {:induction false} AcceptFlows(reg: Registry, next: nat, n: Net, m: Msg)
    ensures Flows(reg, next, n, Accept(n, m).0, Ok1(Accept(n, m).1, m), multiset{})
    ensures Flows(reg, next, n, ReturnValue(n, m).0, Ok1(ReturnValue(n, m).1, m), multiset{})
  {
    var i := FirstOpen(n.c.receivers, n.l.claims);
    if i < |n.c.receivers| {
      GivenFlows(reg, next, n, i, m);
    } else if HasRoom(n.c) {
      BufferFlows(reg, next, n, m);
    } else {
      NothingFlows(reg, next, n, n);
    }
  }

  lemma {:induction false} PopFlows(reg: Registry, k: nat, next: nat, n: Net)
    requires NetOk(reg, k, n) && Below(reg, next) && n.c.buffer != []
    ensures Flows(reg, next, n, PopFront(n), multiset{}, multiset{n.c.buffer[0]})
  {
    var m := n.c.buffer[0];
    var rest := n.(c := n.c.(buffer := n.c.buffer[1..]));
    assert n == rest.(c := rest.c.(buffer := [m] + rest.c.buffer));
    BufferFlows(reg, next, rest, m);
    PromoteFlows(reg, k, next, rest);
    FlowsTrans(reg, next, n, rest, Promote(rest), multiset{m});
  }

  lemma {:induction false} ReadyFlows(reg: Registry, k: nat, next: nat, n: Net)
    requires NetOk(reg, k, n) && Below(reg, next)
    ensures Flows(reg, next, n, RecvReady(n).0, multiset{}, Got1(RecvReady(n).1))
  {
    if n.c.buffer != [] {
      PopFlows(reg, k, next, n);
    } else if n.c.senders != [] && GateOpen(n.l.claims, n.c.senders[0].gate) {
      HeadFlows(reg, k, next, n);
      assert RecvReady(n).0 == WithoutHead(n, n.c.buffer);
    } else {
      NothingFlows(reg, next, n, n);
    }
  }

  lemma {:induction false} DropFlows(reg: Registry, k: nat, next: nat, n: Net, id: nat)
    requires NetOk(reg, k, n) && Below(reg, next)
    ensures Flows(reg, next, n, DropSender(n, id), multiset{}, multiset{})
    ensures Flows(reg, next, n, DropReceiver(n, id), multiset{}, multiset{})
  {
    var i := SenderIndex(n.c.senders, id);
    var u := Unlink(n, id);
    if i < |n.c.senders| { SendersRemove(reg, k, n.c.senders, i); }
    NothingFlows(reg, next, n, u);
    PromoteFlows(reg, k, next, u);
    FlowsTrans(reg, next, n, u, Promote(u), multiset{});
    assert DropSender(n, id) == Promote(u);
    NothingFlows(reg, next, n, DropReceiver(n, id));
  }

  // ---- The world ----

  predicate Level(w: World, inn: Values, out: Values, m: Msg) {
    Sent(w.reg, w.l.taken, w.next)[m] + inn[m] == Buffers(w.chans)[m] + Handed(w.l.delivered)[m] + out[m]
  }

  /** All that was sent is stored or was received; `inn` and `out` count what never went through a node. */
  ghost predicate Balanced(w: World, inn: Values, out: Values) {
    forall m :: Level(w, inn, out, m)
  }

  lemma {:induction false} PutBalanced(w: World, k: nat, n: Net, inn: Values, out: Values, i: Values, o: Values)
    requires k < |w.chans| && Balanced(w, inn, out) && Flows(w.reg, w.next, At(w, k), n, i, o)
    ensures Balanced(Put(w, k, n), inn + i, out + o)
  {
    BuffersPut(w.chans, k, n.c);
    forall m ensures Level(Put(w, k, n), inn + i, out + o, m) {
      assert Level(w, inn, out, m) && Flow(w.reg, w.next, At(w, k), n, i, o, m);
      assert (Buffers(w.chans[k := n.c]) + multiset(w.chans[k].buffer))[m] == (Buffers(w.chans) + multiset(n.c.buffer))[m];
      StockAt(At(w, k), m);
      StockAt(n, m);
    }
  }

  lemma StockAt(n: Net, m: Msg)
    ensures Stock(n)[m] == multiset(n.c.buffer)[m] + Handed(n.l.delivered)[m]
  {
  }

  lemma {:induction false} NetBelow(w: World, k: nat)
    requires Sound(w) && k < |w.chans|
    ensures NetOk(w.reg, k, At(w, k)) && Below(w.reg, w.next)
  {
    NetOf(w, k);
    forall id | id in w.reg ensures id < w.next { assert NodeKnown(w, id); }
  }

  lemma {:induction false} LinkBalanced(w: World, id: nat, info: Info, inn: Values, out: Values)
    requires Sound(w) && id !in w.reg && info.ch < |w.chans| && Balanced(w, inn, out)
    ensures Balanced(LinkTo(w, id, info), inn, out)
  {
    var w' := LinkTo(w, id, info);
    assert NodeKnown(w, id);
    SentSame(w.reg, w.l.taken, w'.reg, w'.l.taken, w.next);
    BuffersSame(w.chans, info.ch, w'.chans[info.ch]);
    forall m ensures Level(w', inn, out, m) { assert Level(w, inn, out, m); }
  }

  lemma {:induction false} NextBalanced(w: World, next: nat, inn: Values, out: Values)
    requires Sound(w) && w.next <= next && Balanced(w, inn, out)
    ensures Balanced(w.(next := next), inn, out)
  {
    forall id: nat | w.next <= id < next ensures !IsSent(w.reg, w.l.taken, id) { assert NodeKnown(w, id); }
    SentFurther(w.reg, w.l.taken, w.next, next);
    var w' := w.(next := next);
    forall m ensures Level(w', inn, out, m) { assert Level(w, inn, out, m); }
  }

  lemma {:induction false} PutQuiet(w: World, k: nat, n: Net, inn: Values, out: Values)
    requires k < |w.chans| && Balanced(w, inn, out) && Flows(w.reg, w.next, At(w, k), n, multiset{}, multiset{})
    ensures Balanced(Put(w, k, n), inn, out)
  {
    PutBalanced(w, k, n, inn, out, multiset{}, multiset{});
    assert inn + multiset{} == inn && out + multiset{} == out;
  }

  lemma {:induction false} SelsBalanced(w: World, s: nat, sel: Sel, inn: Values, out: Values)
    requires Balanced(w, inn, out)
    ensures Balanced(w.(sels := w.sels[s := sel]), inn, out)
  {
    var w' := w.(sels := w.sels[s := sel]);
    forall m ensures Level(w', inn, out, m) { assert Level(w, inn, out, m); }
  }

  // ---- What an event moves other than through nodes ----

  predicate Starts(w: World, e: Event) {
    e.Start? && e.select !in w.sels && InRange(|w.chans|, e.branches)
  }

  /** The branch that a starting select takes at once. */
  function TakenAtOnce(w: World, e: Event): Fast
    requires Starts(w, e)
  {
    FastPath(w, e.select, e.branches, 0).1
  }

  /** What a call sends at once. A value given back counts as sent again, unless it is dropped. */
  function EventIn(w: World, e: Event): Values {
    match e
    case Start(_, bs, _, _, _) =>
      if !Starts(w, e) || TakenAtOnce(w, e).Undecided? || TakenAtOnce(w, e).branch >= |bs| then multiset{}
      else if bs[TakenAtOnce(w, e).branch].SendOf? then multiset{bs[TakenAtOnce(w, e).branch].value} else multiset{}
    case PlainSend(k, m) => if k < |w.chans| && !SendRefused(w.chans[k]) then Ok1(Accept(At(w, k), m).1, m) else multiset{}
    case TrySend(k, m) => if k < |w.chans| && !SendRefused(w.chans[k]) then Ok1(Accept(At(w, k), m).1, m) else multiset{}
    case GiveBack(k, m) => if k < |w.chans| then Ok1(ReturnValue(At(w, k), m).1, m) else multiset{}
    case _ => multiset{}
  }

  /** What a call receives at once. */
  function EventOut(w: World, e: Event): Values {
    match e
    case Start(_, bs, _, _, _) =>
      if !Starts(w, e) || TakenAtOnce(w, e).Undecided? || TakenAtOnce(w, e).branch >= |bs| then multiset{}
      else if bs[TakenAtOnce(w, e).branch].RecvOf? then Got1(TakenAtOnce(w, e).got) else multiset{}
    case PlainRecv(k) => if k < |w.chans| then Got1(RecvReady(At(w, k)).1) else multiset{}
    case TryReceive(k) =>
      if k < |w.chans| && TryRecv(At(w, k)).1.Got? then multiset{TryRecv(At(w, k)).1.value} else multiset{}
    case _ => multiset{}
  }

  // ---- Steps ----

  lemma {:induction false} TryNowFlows(w: World, s: nat, i: nat, b: Branch)
    requires Sound(w) && s !in w.sels && b.ch < |w.chans| && Probe(At(w, b.ch), b)
    ensures
      var (r, t) := TryNow(At(w, b.ch), s, i, b);
      t.Now? && Flows(w.reg, w.next, At(w, b.ch), r, if b.SendOf? then multiset{b.value} else multiset{},
                      if b.RecvOf? then Got1(t.got) else multiset{})
  {
    var n := At(w, b.ch);
    Unknown(w, s);
    NetBelow(w, b.ch);
    assert NoneOf(w.chans[b.ch], s);
    NoRollback(w.reg, b.ch, n, s, i, b);
    var c := Claimed(n, s, i);
    if b.SendOf? { AcceptFlows(w.reg, w.next, c, b.value); } else { ReadyFlows(w.reg, b.ch, w.next, c); }
    var (r, t) := TryNow(n, s, i, b);
    Unclaimed(w.reg, w.next, n, s, i, r, if b.SendOf? then multiset{b.value} else multiset{}, if b.RecvOf? then Got1(t.got) else multiset{});
  }

  /** A claim moves nothing. */
  lemma {:induction false} Unclaimed(reg: Registry, next: nat, n: Net, s: nat, i: nat, r: Net, inn: Values, out: Values)
    requires Flows(reg, next, Claimed(n, s, i), r, inn, out)
    ensures Flows(reg, next, n, r, inn, out)
  {
    assert Stock(Claimed(n, s, i)) == Stock(n);
    forall m ensures Flow(reg, next, n, r, inn, out, m) { assert Flow(reg, next, Claimed(n, s, i), r, inn, out, m); }
  }

  lemma {:induction false} ArmOneBalanced(w: World, s: nat, sel: Sel, i: nat, w1: World, inn: Values, out: Values)
    requires Arming(w, s, sel, i) && Balanced(w, inn, out) && i < |sel.branches|
    requires w1 == ArmOne(w, s, sel.base + i, i, sel.branches[i])
    ensures Arming(w1, s, sel, i + 1) && Balanced(w1, inn, out)
  {
    assert Unlinked(w, sel, i);
    ArmStep(w, s, sel, i);
    LinkBalanced(w, sel.base + i, Info(sel.branches[i].ch, Gated(s, i), KindOf(sel.branches[i])), inn, out);
  }

  lemma {:induction false} ArmBalanced(w: World, s: nat, sel: Sel, i: nat, inn: Values, out: Values)
    requires Arming(w, s, sel, i) && Balanced(w, inn, out)
    ensures Balanced(ArmAll(w, s, sel.base, sel.branches, i), inn, out)
    decreases |sel.branches| - i
  {
    if i < |sel.branches| {
      var w1 := ArmOne(w, s, sel.base + i, i, sel.branches[i]);
      ArmOneBalanced(w, s, sel, i, w1, inn, out);
      ArmBalanced(w1, s, sel, i + 1, inn, out);
    }
  }

  lemma {:induction false} ChosenBalanced(w: World, s: nat, bs: seq<Branch>, i: nat, inn: Values, out: Values)
    requires Inv(w) && Balanced(w, inn, out) && s !in w.sels && i < |bs| && bs[i].ch < |w.chans|
    requires Probe(At(w, bs[i].ch), bs[i])
    ensures
      var (r, t) := TryNow(At(w, bs[i].ch), s, i, bs[i]);
      t.Now? && Balanced(Put(w, bs[i].ch, r), inn + (if bs[i].SendOf? then multiset{bs[i].value} else multiset{}),
                         out + (if bs[i].RecvOf? then Got1(t.got) else multiset{}))
  {
    TryNowFlows(w, s, i, bs[i]);
    var (r, t) := TryNow(At(w, bs[i].ch), s, i, bs[i]);
    PutBalanced(w, bs[i].ch, r, inn, out, if bs[i].SendOf? then multiset{bs[i].value} else multiset{},
                if bs[i].RecvOf? then Got1(t.got) else multiset{});
  }

  lemma {:induction false} UndecidedBalanced(w: World, s: nat, sel: Sel, inn: Values, out: Values)
    requires Inv(w) && Balanced(w, inn, out) && s !in w.sels && InRange(|w.chans|, sel.branches)
    requires sel.phase.Waiting? && sel.base == w.next
    requires forall j :: 0 <= j < |sel.branches| ==> !Probe(At(w, sel.branches[j].ch), sel.branches[j])
    ensures Balanced(ArmAll(w.(sels := w.sels[s := sel], next := w.next + |sel.branches|), s, w.next, sel.branches, 0), inn, out)
  {
    ArmStarts(w, s, sel);
    NextBalanced(w, w.next + |sel.branches|, inn, out);
    SelsBalanced(w.(next := w.next + |sel.branches|), s, sel, inn, out);
    ArmBalanced(w.(sels := w.sels[s := sel], next := w.next + |sel.branches|), s, sel, 0, inn, out);
  }

  lemma {:induction false} StartBalanced(w: World, e: Event, inn: Values, out: Values)
    requires Inv(w) && Balanced(w, inn, out) && Starts(w, e)
    ensures Balanced(Step(w, e), inn + EventIn(w, e), out + EventOut(w, e))
  {
    var s, bs := e.select, e.branches;
    FastExactly(w, s, bs, 0);
    var chosen := FastPath(w, s, bs, 0).1;
    assert inn + multiset{} == inn && out + multiset{} == out;
    match chosen
    case Chosen(i, got) =>
      ChosenBalanced(w, s, bs, i, inn, out);
      var sel := Sel(bs, e.hasTimer, w.next, Ended(Won(i, got), Unsent(bs, i)));
      SelsBalanced(FastPath(w, s, bs, 0).0, s, sel, inn + EventIn(w, e), out + EventOut(w, e));
    case Undecided =>
      var sel := Sel(bs, e.hasTimer, w.next, Waiting);
      UndecidedBalanced(w, s, sel, inn, out);
      SelsBalanced(w, s, sel.(phase := Ended(TimedOut, Unsent(bs, |bs|))), inn, out);
      SelsBalanced(w, s, sel.(phase := Ended(Defaulted, Unsent(bs, |bs|))), inn, out);
  }

  lemma {:induction false} DisarmOneBalanced(w: World, s: nat, sel: Sel, i: nat, w1: World, inn: Values, out: Values)
    requires Disarming(w, s, sel, i) && Balanced(w, inn, out) && i < |sel.branches|
    requires w1 == DisarmOne(w, sel.base + i, sel.branches[i])
    ensures Disarming(w1, s, sel, i + 1) && Balanced(w1, inn, out)
  {
    var k := sel.branches[i].ch;
    DropBalanced(w, k, sel.base + i, inn, out);
    DisarmNext(w, s, sel, i);
  }

  lemma {:induction false} DropBalanced(w: World, k: nat, id: nat, inn: Values, out: Values)
    requires Inv(w) && Balanced(w, inn, out) && k < |w.chans|
    ensures Balanced(Put(w, k, DropSender(At(w, k), id)), inn, out) && Balanced(Put(w, k, DropReceiver(At(w, k), id)), inn, out)
  {
    NetBelow(w, k);
    DropFlows(w.reg, k, w.next, At(w, k), id);
    PutQuiet(w, k, DropSender(At(w, k), id), inn, out);
    PutQuiet(w, k, DropReceiver(At(w, k), id), inn, out);
  }

  lemma {:induction false} DisarmBalanced(w: World, s: nat, sel: Sel, i: nat, inn: Values, out: Values)
    requires Disarming(w, s, sel, i) && Balanced(w, inn, out)
    ensures Balanced(DisarmAll(w, sel.base, sel.branches, i).0, inn, out)
    decreases |sel.branches| - i
  {
    if i < |sel.branches| {
      var w1 := DisarmOne(w, sel.base + i, sel.branches[i]);
      DisarmOneBalanced(w, s, sel, i, w1, inn, out);
      DisarmBalanced(w1, s, sel, i + 1, inn, out);
    }
  }

  lemma {:induction false} FinishBalanced(w: World, s: nat, result: Result, inn: Values, out: Values)
    requires Inv(w) && Balanced(w, inn, out) && s in w.sels && w.sels[s].phase.Waiting? && InRange(|w.chans|, w.sels[s].branches)
    ensures Balanced(Finish(w, s, w.sels[s], result), inn, out)
  {
    assert Disarming(w, s, w.sels[s], 0);
    var sel := w.sels[s];
    DisarmBalanced(w, s, sel, 0, inn, out);
    var (r, left) := DisarmAll(w, sel.base, sel.branches, 0);
    SelsBalanced(r, s, sel.(phase := Ended(result, left)), inn, out);
  }

  lemma {:induction false} LinkPlainBalanced(w: World, k: nat, kind: Kind, inn: Values, out: Values)
    requires Inv(w) && k < |w.chans| && Balanced(w, inn, out)
    ensures Balanced(LinkPlain(w, k, kind), inn, out)
  {
    var w1 := w.(next := w.next + 1);
    NextBalanced(w, w.next + 1, inn, out);
    NextInv(w, w.next + 1);
    assert NodeKnown(w, w.next);
    LinkBalanced(w1, w.next, Info(k, Ungated, kind), inn, out);
    assert LinkPlain(w, k, kind) == LinkTo(w1, w.next, Info(k, Ungated, kind));
  }

  lemma {:induction false} RefusedBalanced(w: World, k: nat, m: Msg, inn: Values, out: Values)
    requires Inv(w) && k < |w.chans| && Balanced(w, inn, out) && SendRefused(w.chans[k])
    ensures
      var linked := LinkPlain(w, k, Out(m));
      Balanced(Put(linked, k, Wake(DropSender(At(linked, k), w.next), w.next)), inn, out)
  {
    var linked := LinkPlain(w, k, Out(m));
    LinkPlainBalanced(w, k, Out(m), inn, out);
    LinkPlainInv(w, k, Out(m));
    DropBalanced(linked, k, w.next, inn, out);
    var n := DropSender(At(linked, k), w.next);
    var dropped := Put(linked, k, n);
    assert At(dropped, k) == n;
    NothingFlows(dropped.reg, dropped.next, n, Wake(n, w.next));
    PutQuiet(dropped, k, Wake(n, w.next), inn, out);
    PutTwice(linked, k, n, Wake(n, w.next));
  }

  lemma {:induction false} PlainSendBalanced(w: World, k: nat, m: Msg, inn: Values, out: Values)
    requires Inv(w) && k < |w.chans| && Balanced(w, inn, out)
    ensures Balanced(PlainStep(w, PlainSend(k, m)), inn + EventIn(w, PlainSend(k, m)), out)
  {
    assert inn + multiset{} == inn;
    if SendRefused(w.chans[k]) {
      RefusedBalanced(w, k, m, inn, out);
    } else {
      AddBalanced(w, k, m, inn, out);
      LinkPlainBalanced(w, k, Out(m), inn, out);
    }
  }

  lemma {:induction false} ReadyBalanced(w: World, k: nat, inn: Values, out: Values)
    requires Inv(w) && k < |w.chans| && Balanced(w, inn, out)
    ensures Balanced(Put(w, k, RecvReady(At(w, k)).0), inn, out + Got1(RecvReady(At(w, k)).1))
  {
    var n := At(w, k);
    NetBelow(w, k);
    ReadyFlows(w.reg, k, w.next, n);
    PutBalanced(w, k, RecvReady(n).0, inn, out, multiset{}, Got1(RecvReady(n).1));
    assert inn + multiset{} == inn;
  }

  lemma {:induction false} PlainRecvBalanced(w: World, k: nat, inn: Values, out: Values)
    requires Inv(w) && k < |w.chans| && Balanced(w, inn, out)
    ensures Balanced(PlainStep(w, PlainRecv(k)), inn, out + EventOut(w, PlainRecv(k)))
  {
    ReadyBalanced(w, k, inn, out);
    if RecvReady(At(w, k)).1 == NotReady {
      LinkPlainBalanced(w, k, In, inn, out);
      assert out + multiset{} == out;
    }
  }

  lemma {:induction false} TryReceiveBalanced(w: World, k: nat, inn: Values, out: Values)
    requires Inv(w) && k < |w.chans| && Balanced(w, inn, out)
    ensures Balanced(PlainStep(w, TryReceive(k)), inn, out + EventOut(w, TryReceive(k)))
  {
    ReadyBalanced(w, k, inn, out);
    TrySame(At(w, k));
  }

  lemma TrySame(n: Net)
    ensures TryRecv(n).0 == RecvReady(n).0
    ensures Got1(RecvReady(n).1) == if TryRecv(n).1.Got? then multiset{TryRecv(n).1.value} else multiset{}
  {
  }

  lemma {:induction false} AddBalanced(w: World, k: nat, m: Msg, inn: Values, out: Values)
    requires Inv(w) && k < |w.chans| && Balanced(w, inn, out)
    ensures Balanced(Put(w, k, Accept(At(w, k), m).0), inn + Ok1(Accept(At(w, k), m).1, m), out)
    ensures Balanced(Put(w, k, ReturnValue(At(w, k), m).0), inn + Ok1(ReturnValue(At(w, k), m).1, m), out)
  {
    var n := At(w, k);
    AcceptFlows(w.reg, w.next, n, m);
    PutBalanced(w, k, Accept(n, m).0, inn, out, Ok1(Accept(n, m).1, m), multiset{});
    PutBalanced(w, k, ReturnValue(n, m).0, inn, out, Ok1(ReturnValue(n, m).1, m), multiset{});
    assert out + multiset{} == out;
  }

  lemma {:induction false} CloseBalanced(w: World, k: nat, inn: Values, out: Values)
    requires k < |w.chans| && Balanced(w, inn, out)
    ensures Balanced(Put(w, k, CloseSend(At(w, k))), inn, out) && Balanced(Put(w, k, NoteNoReceivers(At(w, k))), inn, out)
  {
    NothingFlows(w.reg, w.next, At(w, k), CloseSend(At(w, k)));
    NothingFlows(w.reg, w.next, At(w, k), NoteNoReceivers(At(w, k)));
    PutQuiet(w, k, CloseSend(At(w, k)), inn, out);
    PutQuiet(w, k, NoteNoReceivers(At(w, k)), inn, out);
  }

  predicate OnlyQueues(e: Event) {
    e.Close? || e.ReceiversGone? || e.ForgetSender? || e.ForgetReceiver?
  }

  lemma {:induction false} QueuesBalanced(w: World, e: Event, inn: Values, out: Values)
    requires Inv(w) && Balanced(w, inn, out) && OnlyQueues(e) && e.ch < |w.chans|
    ensures Balanced(PlainStep(w, e), inn, out)
  {
    match e
    case Close(k) => CloseBalanced(w, k, inn, out);
    case ReceiversGone(k) => CloseBalanced(w, k, inn, out);
    case ForgetSender(k, id) => DropBalanced(w, k, id, inn, out);
    case ForgetReceiver(k, id) => DropBalanced(w, k, id, inn, out);
  }

  lemma {:induction false} PlainBalanced(w: World, e: Event, inn: Values, out: Values)
    requires Inv(w) && Balanced(w, inn, out) && !e.Start? && !e.Resume? && !e.Cancel? && e.ch < |w.chans|
    ensures Balanced(PlainStep(w, e), inn + EventIn(w, e), out + EventOut(w, e))
  {
    assert inn + multiset{} == inn && out + multiset{} == out;
    match e
    case PlainSend(k, m) => PlainSendBalanced(w, k, m, inn, out);
    case TrySend(k, m) => AddBalanced(w, k, m, inn, out);
    case PlainRecv(k) => PlainRecvBalanced(w, k, inn, out);
    case TryReceive(k) => TryReceiveBalanced(w, k, inn, out);
    case GiveBack(k, m) => AddBalanced(w, k, m, inn, out);
    case _ => QueuesBalanced(w, e, inn, out);
  }

  lemma {:induction false} StepBalanced(w: World, e: Event, inn: Values, out: Values)
    requires Inv(w) && Balanced(w, inn, out)
    ensures Balanced(Step(w, e), inn + EventIn(w, e), out + EventOut(w, e))
  {
    assert inn + multiset{} == inn && out + multiset{} == out;
    match e
    case Start(_, _, _, _, _) => if Starts(w, e) { StartBalanced(w, e, inn, out); }
    case Resume(s, expired) =>
      if Step(w, e) != w { FinishBalanced(w, s, ResultOf(w, s, w.sels[s], expired), inn, out); }
    case Cancel(s) =>
      if Step(w, e) != w { FinishBalanced(w, s, Cancelled, inn, out); }
    case _ => if e.ch < |w.chans| { PlainBalanced(w, e, inn, out); }
  }

  // ---- Runs ----

  function SentAtOnce(capacities: seq<Capacity>, events: seq<Event>): Values
    decreases |events|
  {
    if events == [] then multiset{} else
    var before := events[..|events| - 1];
    SentAtOnce(capacities, before) + EventIn(Run(Init(capacities), before), events[|events| - 1])
  }

  function ReceivedAtOnce(capacities: seq<Capacity>, events: seq<Event>): Values
    decreases |events|
  {
    if events == [] then multiset{} else
    var before := events[..|events| - 1];
    ReceivedAtOnce(capacities, before) + EventOut(Run(Init(capacities), before), events[|events| - 1])
  }

  lemma {:induction false} RunBalanced(capacities: seq<Capacity>, events: seq<Event>)
    ensures Balanced(Run(Init(capacities), events), SentAtOnce(capacities, events), ReceivedAtOnce(capacities, events))
    decreases |events|
  {
    if events == [] {
      NothingYet(Init(capacities).chans);
      forall m ensures Level(Init(capacities), multiset{}, multiset{}, m) { }
    } else {
      var before := events[..|events| - 1];
      RunBalanced(capacities, before);
      EveryRunKeeps(capacities, before);
      StepBalanced(Run(Init(capacities), before), events[|events| - 1],
                   SentAtOnce(capacities, before), ReceivedAtOnce(capacities, before));
    }
  }

  /**
   * In every run nothing is lost and nothing is doubled: what was taken from
   * waiting sends and what was sent at once is in the buffers, was handed to
   * waiting receives, or was received at once.
   */
  lemma {:induction false} EveryRunConserves(capacities: seq<Capacity>, events: seq<Event>)
    ensures
      var w := Run(Init(capacities), events);
      Sent(w.reg, w.l.taken, w.next) + SentAtOnce(capacities, events) ==
      Buffers(w.chans) + Handed(w.l.delivered) + ReceivedAtOnce(capacities, events)
  {
    RunBalanced(capacities, events);
    var w := Run(Init(capacities), events);
    forall m
      ensures (Sent(w.reg, w.l.taken, w.next) + SentAtOnce(capacities, events))[m] ==
              (Buffers(w.chans) + Handed(w.l.delivered) + ReceivedAtOnce(capacities, events))[m]
    {
      assert Level(w, SentAtOnce(capacities, events), ReceivedAtOnce(capacities, events), m);
    }
  }

  lemma {:induction false} NothingYet(chans: seq<Chan>)
    requires forall i :: 0 <= i < |chans| ==> chans[i].buffer == []
    ensures Buffers(chans) == multiset{}
  {
    if chans != [] { NothingYet(chans[1..]); }
  }
}
