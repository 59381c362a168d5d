/**
 * The timer heap of the event loop: entries whose token is set are dead and
 * are dropped lazily, and an entry that shares an outcome with a cancellation
 * is handed out only if it is the first to settle it
 * (include/coro/event_loop.hpp).
 *
 * Entries of equal deadline may leave the heap in any order.
 */
module Timers {

  datatype Option<T> = None | Some(value: T)

  /** `token` and `outcome` are shared with the wait that made the entry. */
  datatype Entry = Entry(deadline: int, frame: nat, token: Option<nat>, outcome: Option<nat>, expireValue: nat)

  /** The flags that entries share with their waits: set tokens, and outcomes (0 while pending). */
  class Flags {
    var dead: set<nat>
    var outcomes: map<nat, nat>

    constructor (dead: set<nat>, outcomes: map<nat, nat>)
      ensures this.dead == dead && this.outcomes == outcomes
    {
      this.dead, this.outcomes := dead, outcomes;
    }

    /** Settles an outcome if it is still pending. */
    method Settle(o: nat, v: nat) returns (won: bool)
      modifies this`outcomes
      ensures won <==> OutcomeOf(old(outcomes), o) == 0
      ensures outcomes == if won then old(outcomes)[o := v] else old(outcomes)
    {
      won := OutcomeOf(outcomes, o) == 0;
      if won { outcomes := outcomes[o := v]; }
    }
  }

  function OutcomeOf(outcomes: map<nat, nat>, o: nat): nat {
    if o in outcomes then outcomes[o] else 0
  }

  predicate Dead(e: Entry, dead: set<nat>) {
    e.token.Some? && e.token.value in dead
  }

  predicate Due(e: Entry, dead: set<nat>, now: int) {
    e.deadline <= now && !Dead(e, dead)
  }

  /** Of the live entries of `before`, exactly those not due are in `after`; of the dead ones, some. */
  ghost predicate Drained(before: multiset<Entry>, after: multiset<Entry>, dead: set<nat>, now: int) {
    && (forall e :: !Dead(e, dead) ==> after[e] == if e.deadline <= now then 0 else before[e])
    && (forall e :: Dead(e, dead) ==> after[e] <= before[e])
    && (forall e: Entry :: e.deadline <= now ==> after[e] == 0)
  }

  /** Only dead entries are missing. */
  ghost predicate OnlyDeadLost(before: multiset<Entry>, after: multiset<Entry>, dead: set<nat>) {
    && (forall e :: !Dead(e, dead) ==> after[e] == before[e])
    && (forall e :: after[e] <= before[e])
  }

  predicate Ordered(es: seq<Entry>) {
    forall i, j :: 0 <= i < j < |es| ==> es[i].deadline <= es[j].deadline
  }

  /** No outcome is settled by two of these entries. */
  predicate OneEach(es: seq<Entry>) {
    forall i, j :: 0 <= i < j < |es| && es[i].outcome.Some? ==> es[i].outcome != es[j].outcome
  }

  /** These entries won their outcomes: each was pending before and has the entry's value now. */
  predicate AllWon(es: seq<Entry>, before: map<nat, nat>, after: map<nat, nat>) {
    forall i :: 0 <= i < |es| && es[i].outcome.Some? ==>
      es[i].expireValue != 0 && OutcomeOf(before, es[i].outcome.value) == 0 && OutcomeOf(after, es[i].outcome.value) == es[i].expireValue
  }

  /** These entries lost: somebody else had settled their outcome. */
  predicate AllLost(es: seq<Entry>, won: seq<Entry>, before: map<nat, nat>) {
    forall i :: 0 <= i < |es| ==>
      && es[i].outcome.Some?
      && (OutcomeOf(before, es[i].outcome.value) != 0 || exists j :: 0 <= j < |won| && won[j].outcome == es[i].outcome)
  }

  /** Outcomes change by being settled, and only once. */
  ghost predicate OnlySettled(before: map<nat, nat>, after: map<nat, nat>) {
    forall o: nat {:trigger OutcomeOf(after, o)} :: OutcomeOf(before, o) != 0 ==> OutcomeOf(after, o) == OutcomeOf(before, o)
  }

  /** An entry with an outcome settles it to something other than pending. */
  ghost predicate Settling(es: multiset<Entry>) {
    forall e :: e in es && e.outcome.Some? ==> e.expireValue != 0
  }

  /** While draining: every live entry is still in the heap, or was due and has been handed out or has lost. */
  ghost predicate Progress(before: multiset<Entry>, heap: multiset<Entry>, expired: multiset<Entry>, lost: multiset<Entry>, dead: set<nat>, now: int) {
    && (forall e :: !Dead(e, dead) ==> expired[e] + lost[e] + heap[e] == before[e])
    && (forall e :: Dead(e, dead) ==> expired[e] + lost[e] == 0 && heap[e] <= before[e])
    && (forall e :: expired[e] + lost[e] > 0 ==> e.deadline <= now)
  }

  /** Whatever is settled was settled before, or by an entry handed out. */
  ghost predicate Accounted(now: map<nat, nat>, before: map<nat, nat>, won: seq<Entry>) {
    forall o: nat {:trigger OutcomeOf(now, o)} :: OutcomeOf(now, o) != 0 ==>
      OutcomeOf(before, o) != 0 || exists j :: 0 <= j < |won| && won[j].outcome == Some(o)
  }

  ghost predicate Earlier(expired: seq<Entry>, heap: multiset<Entry>) {
    forall i, e :: 0 <= i < |expired| && e in heap ==> expired[i].deadline <= e.deadline
  }

  /** What the entries handed out and the entries that lost say about the outcomes. */
  ghost predicate Arbitrated(expired: seq<Entry>, lost: seq<Entry>, before: map<nat, nat>, now: map<nat, nat>, settling: bool) {
    && OnlySettled(before, now) && Accounted(now, before, expired) && AllLost(lost, expired, before)
    && (settling ==> OneEach(expired) && AllWon(expired, before, now))
  }

  lemma NoneDue(heap: seq<Entry>, k: nat, now: int)
    requires k < |heap| && heap[k].deadline > now && forall i :: 0 <= i < |heap| ==> heap[k].deadline <= heap[i].deadline
    ensures forall e: Entry :: e.deadline <= now ==> multiset(heap)[e] == 0
  {
    forall e: Entry | e.deadline <= now ensures e !in heap { }
  }

  /** The state of a drain between two pops. */
  ghost predicate Draining(before: multiset<Entry>, heap: seq<Entry>, expired: seq<Entry>, lost: seq<Entry>, dead: set<nat>, now: int,
      start: map<nat, nat>, outcomes: map<nat, nat>, settling: bool)
  {
    && Progress(before, multiset(heap), multiset(expired), multiset(lost), dead, now)
    && Ordered(expired) && Earlier(expired, multiset(heap))
    && Arbitrated(expired, lost, start, outcomes, settling)
  }

  /** What a drain promises of what it hands out and of what is left. */
  ghost predicate DrainedTo(before: multiset<Entry>, heap: seq<Entry>, expired: seq<Entry>, lost: seq<Entry>, dead: set<nat>, now: int) {
    && Drained(before, multiset(heap), dead, now) && Ordered(expired)
    && forall e :: multiset(expired)[e] + multiset(lost)[e] == if Due(e, dead, now) then before[e] else 0
  }

  lemma DrainStarts(before: multiset<Entry>, mid: multiset<Entry>, heap: seq<Entry>, dead: set<nat>, now: int, outcomes: map<nat, nat>)
    requires OnlyDeadLost(before, mid, dead) && OnlyDeadLost(mid, multiset(heap), dead)
    ensures Draining(before, heap, [], [], dead, now, outcomes, outcomes, Settling(before))
  {
  }

  /** The top has been popped: what is left, whatever became of it. */
  ghost predicate Popped(was: seq<Entry>, heap: seq<Entry>, k: nat, now: int) {
    && k < |was| && was[k].deadline <= now && (forall i :: 0 <= i < |was| ==> was[k].deadline <= was[i].deadline)
    && multiset(was) == multiset(heap) + multiset{was[k]} && forall x :: x in multiset(heap) ==> x in multiset(was)
  }

  lemma PopDead(before: multiset<Entry>, was: seq<Entry>, heap: seq<Entry>, k: nat, expired: seq<Entry>, lost: seq<Entry>, dead: set<nat>, now: int,
      start: map<nat, nat>, outcomes: map<nat, nat>, settling: bool)
    requires Draining(before, was, expired, lost, dead, now, start, outcomes, settling) && Popped(was, heap, k, now) && Dead(was[k], dead)
    ensures Draining(before, heap, expired, lost, dead, now, start, outcomes, settling)
  {
    Handed(before, multiset(was), multiset(heap), multiset(expired), multiset(lost), dead, now, was[k]);
    StillEarlier(was, heap, k, expired);
  }

  lemma PopWon(before: multiset<Entry>, was: seq<Entry>, heap: seq<Entry>, k: nat, expired: seq<Entry>, lost: seq<Entry>, dead: set<nat>, now: int,
      start: map<nat, nat>, mid: map<nat, nat>, outcomes: map<nat, nat>, settling: bool)
    requires Draining(before, was, expired, lost, dead, now, start, mid, settling) && Popped(was, heap, k, now) && !Dead(was[k], dead)
    requires Arbitrated(expired + [was[k]], lost, start, outcomes, settling)
    ensures Draining(before, heap, expired + [was[k]], lost, dead, now, start, outcomes, settling)
  {
    Handed(before, multiset(was), multiset(heap), multiset(expired), multiset(lost), dead, now, was[k]);
    StillEarlier(was, heap, k, expired);
    SnocCounts(expired, was[k]);
  }

  lemma PopLost(before: multiset<Entry>, was: seq<Entry>, heap: seq<Entry>, k: nat, expired: seq<Entry>, lost: seq<Entry>, dead: set<nat>, now: int,
      start: map<nat, nat>, mid: map<nat, nat>, outcomes: map<nat, nat>, settling: bool)
    requires Draining(before, was, expired, lost, dead, now, start, mid, settling) && Popped(was, heap, k, now) && !Dead(was[k], dead)
    requires Arbitrated(expired, lost + [was[k]], start, outcomes, settling)
    ensures Draining(before, heap, expired, lost + [was[k]], dead, now, start, outcomes, settling)
  {
    Handed(before, multiset(was), multiset(heap), multiset(expired), multiset(lost), dead, now, was[k]);
    StillEarlier(was, heap, k, expired);
    SnocCounts(lost, was[k]);
  }

  lemma FromBefore(before: multiset<Entry>, heap: seq<Entry>, expired: seq<Entry>, lost: seq<Entry>, dead: set<nat>, now: int, e: Entry)
    requires Progress(before, multiset(heap), multiset(expired), multiset(lost), dead, now) && e in heap
    ensures e in before
  {
    assert multiset(heap)[e] > 0;
  }

  lemma DrainEnds(before: multiset<Entry>, heap: seq<Entry>, expired: seq<Entry>, lost: seq<Entry>, dead: set<nat>, now: int)
    requires Progress(before, multiset(heap), multiset(expired), multiset(lost), dead, now) && Ordered(expired)
    requires forall e: Entry :: e.deadline <= now ==> multiset(heap)[e] == 0
    ensures DrainedTo(before, heap, expired, lost, dead, now)
  {
  }

  lemma StillEarlier(was: seq<Entry>, heap: seq<Entry>, k: nat, expired: seq<Entry>)
    requires k < |was| && Earlier(expired, multiset(was)) && Ordered(expired)
    requires forall i :: 0 <= i < |was| ==> was[k].deadline <= was[i].deadline
    requires forall x :: x in multiset(heap) ==> x in multiset(was)
    ensures Earlier(expired, multiset(heap)) && Earlier(expired + [was[k]], multiset(heap)) && Ordered(expired + [was[k]])
  {
    assert was[k] in multiset(was);
    forall x | x in multiset(heap) ensures was[k].deadline <= x.deadline {
      assert x in was;
    }
  }

  lemma Won(expired: seq<Entry>, lost: seq<Entry>, e: Entry, before: map<nat, nat>, now: map<nat, nat>, next: map<nat, nat>, settling: bool)
    requires Arbitrated(expired, lost, before, now, settling) && (settling && e.outcome.Some? ==> e.expireValue != 0)
    requires e.outcome.Some? ==> OutcomeOf(now, e.outcome.value) == 0 && next == now[e.outcome.value := e.expireValue]
    requires e.outcome.None? ==> next == now
    ensures Arbitrated(expired + [e], lost, before, next, settling)
  {
    var es := expired + [e];
    forall o: nat {:trigger OutcomeOf(next, o)} | OutcomeOf(before, o) != 0 ensures OutcomeOf(next, o) == OutcomeOf(before, o) {
      assert OutcomeOf(now, o) == OutcomeOf(before, o);
    }
    forall o: nat {:trigger OutcomeOf(next, o)} | OutcomeOf(next, o) != 0
      ensures OutcomeOf(before, o) != 0 || exists j :: 0 <= j < |es| && es[j].outcome == Some(o)
    {
      if e.outcome == Some(o) { assert es[|expired|].outcome == Some(o); }
      else {
        assert OutcomeOf(now, o) != 0;
        if OutcomeOf(before, o) == 0 {
          var j :| 0 <= j < |expired| && expired[j].outcome == Some(o);
          assert es[j].outcome == Some(o);
        }
      }
    }
    forall i | 0 <= i < |lost| && OutcomeOf(before, lost[i].outcome.value) == 0
      ensures lost[i].outcome.Some? && exists j :: 0 <= j < |es| && es[j].outcome == lost[i].outcome
    {
      var j :| 0 <= j < |expired| && expired[j].outcome == lost[i].outcome;
      assert es[j].outcome == lost[i].outcome;
    }
    if settling { WonOnce(expired, e, before, now); }
  }

  lemma WonOnce(expired: seq<Entry>, e: Entry, before: map<nat, nat>, now: map<nat, nat>)
    requires OneEach(expired) && AllWon(expired, before, now) && OnlySettled(before, now)
    requires e.outcome.Some? ==> OutcomeOf(now, e.outcome.value) == 0 && e.expireValue != 0
    ensures OneEach(expired + [e])
    ensures AllWon(expired + [e], before, if e.outcome.Some? then now[e.outcome.value := e.expireValue] else now)
  {
    if e.outcome.Some? { assert OutcomeOf(before, e.outcome.value) == 0; }
  }

  lemma LostNow(expired: seq<Entry>, lost: seq<Entry>, e: Entry, before: map<nat, nat>, now: map<nat, nat>, settling: bool)
    requires Arbitrated(expired, lost, before, now, settling) && e.outcome.Some? && OutcomeOf(now, e.outcome.value) != 0
    ensures Arbitrated(expired, lost + [e], before, now, settling)
  {
  }

  lemma Handed(before: multiset<Entry>, heap: multiset<Entry>, left: multiset<Entry>, expired: multiset<Entry>, lost: multiset<Entry>, dead: set<nat>, now: int, e: Entry)
    requires Progress(before, heap, expired, lost, dead, now) && heap == left + multiset{e} && e.deadline <= now
    ensures Dead(e, dead) ==> Progress(before, left, expired, lost, dead, now)
    ensures !Dead(e, dead) ==> Progress(before, left, expired + multiset{e}, lost, dead, now)
    ensures !Dead(e, dead) ==> Progress(before, left, expired, lost + multiset{e}, dead, now)
    ensures e in before
  {
  }

  lemma SplitAt(s: seq<Entry>, i: nat)
    requires i < |s|
    ensures multiset(s) == multiset(s[..i] + s[i + 1..]) + multiset{s[i]}
  {
    assert s == s[..i] + ([s[i]] + s[i + 1..]);
  }

  lemma SnocCounts(s: seq<Entry>, e: Entry)
    ensures multiset(s + [e]) == multiset(s) + multiset{e}
  {
  }

  /** Of the live due entries that compete for a pending outcome, a drain hands out exactly one. */
  lemma OneWinner(before: multiset<Entry>, heap: seq<Entry>, expired: seq<Entry>, lost: seq<Entry>, dead: set<nat>, now: int,
      start: map<nat, nat>, outcomes: map<nat, nat>, e: Entry) returns (k: nat)
    requires DrainedTo(before, heap, expired, lost, dead, now) && Arbitrated(expired, lost, start, outcomes, true)
    requires e in before && Due(e, dead, now) && e.outcome.Some? && OutcomeOf(start, e.outcome.value) == 0
    ensures k < |expired| && expired[k].outcome == e.outcome && OutcomeOf(outcomes, e.outcome.value) == expired[k].expireValue
    ensures forall j :: 0 <= j < |expired| && expired[j].outcome == e.outcome ==> j == k
  {
    assert multiset(expired)[e] + multiset(lost)[e] > 0;
    if e in expired {
      k :| k < |expired| && expired[k] == e;
    } else {
      assert e in lost;
      var i :| 0 <= i < |lost| && lost[i] == e;
      k :| k < |expired| && expired[k].outcome == e.outcome;
    }
  }

  class TimerHeap {
    var heap: seq<Entry>
    var tick: nat

    constructor ()
      ensures heap == [] && tick == 0
    {
      heap, tick := [], 0;
    }

    method Push(e: Entry)
      modifies this`heap
      ensures multiset(heap) == multiset(old(heap)) + multiset{e}
    {
      heap := heap + [e];
    }

    /** The place of an earliest entry. */
    method Top() returns (k: nat)
      requires heap != []
      ensures k < |heap| && forall i :: 0 <= i < |heap| ==> heap[k].deadline <= heap[i].deadline
    {
      k := 0;
      var i := 1;
      while i < |heap|
        invariant 1 <= i <= |heap| && k < i && forall j :: 0 <= j < i ==> heap[k].deadline <= heap[j].deadline
      {
        if heap[i].deadline < heap[k].deadline { k := i; }
        i := i + 1;
      }
    }

    method Pop(k: nat) returns (e: Entry)
      requires k < |heap|
      modifies this`heap
      ensures e == old(heap)[k] && multiset(old(heap)) == multiset(heap) + multiset{e} && |heap| == |old(heap)| - 1
      ensures forall x :: x in multiset(heap) ==> x in multiset(old(heap))
    {
      e := heap[k];
      SplitAt(heap, k);
      heap := heap[..k] + heap[k + 1..];
    }

    /** Every 64th call on a heap of more than 128 entries drops the dead ones if they are the majority. */
    method CompactIfStale(flags: Flags)
      modifies this
      ensures OnlyDeadLost(multiset(old(heap)), multiset(heap), flags.dead)
      ensures |heap| <= |old(heap)|
      ensures old(tick) + 1 < 64 || |old(heap)| <= 128 ==> heap == old(heap)
    {
      tick := tick + 1;
      if tick < 64 || |heap| <= 128 { return; }
      tick := 0;
      var kept, stale, i := [], 0, 0;
      while i < |heap|
        invariant 0 <= i <= |heap| && heap == old(heap) && |kept| <= i
        invariant OnlyDeadLost(multiset(heap[..i]), multiset(kept), flags.dead)
      {
        assert heap[..i + 1] == heap[..i] + [heap[i]];
        SnocCounts(heap[..i], heap[i]);
        if Dead(heap[i], flags.dead) {
          stale := stale + 1;
        } else {
          SnocCounts(kept, heap[i]);
          kept := kept + [heap[i]];
        }
        i := i + 1;
      }
      assert heap[..|heap|] == heap;
      if stale * 2 > |heap| { heap := kept; }
    }

    /** Drops dead entries while one is on top, due or not. */
    method DropDeadTop(flags: Flags)
      modifies this`heap
      ensures OnlyDeadLost(multiset(old(heap)), multiset(heap), flags.dead)
    {
      while heap != []
        invariant OnlyDeadLost(multiset(old(heap)), multiset(heap), flags.dead)
        decreases |heap|
      {
        var k := Top();
        if !Dead(heap[k], flags.dead) { return; }
        var e := Pop(k);
      }
    }

    /**
     * What is due leaves the heap: in deadline order, exactly the live entries
     * that win their outcome are handed out. What is not due and not dead stays.
     */
    method Drain(now: int, flags: Flags) returns (expired: seq<Entry>, ghost lost: seq<Entry>)
      modifies this, flags`outcomes
      ensures DrainedTo(multiset(old(heap)), heap, expired, lost, flags.dead, now)
      ensures Arbitrated(expired, lost, old(flags.outcomes), flags.outcomes, Settling(multiset(old(heap))))
    {
      ghost var before := multiset(heap);
      ghost var settling := Settling(before);
      CompactIfStale(flags);
      ghost var mid := multiset(heap);
      DropDeadTop(flags);
      DrainStarts(before, mid, heap, flags.dead, now, flags.outcomes);
      expired, lost := [], [];
      while heap != []
        invariant flags.dead == old(flags.dead)
        invariant Draining(before, heap, expired, lost, flags.dead, now, old(flags.outcomes), flags.outcomes, settling)
        decreases |heap|
      {
        var k := Top();
        if heap[k].deadline > now {
          NoneDue(heap, k, now);
          break;
        }
        expired, lost := TakeTop(k, now, flags, expired, lost, before, old(flags.outcomes));
      }
      DrainEnds(before, heap, expired, lost, flags.dead, now);
    }

    /** Pops the top, which is due, and hands it out unless it is dead or comes too late. */
    method TakeTop(k: nat, now: int, flags: Flags, expired: seq<Entry>, ghost lost: seq<Entry>, ghost before: multiset<Entry>, ghost start: map<nat, nat>)
      returns (expired': seq<Entry>, ghost lost': seq<Entry>)
      requires k < |heap| && heap[k].deadline <= now && forall i :: 0 <= i < |heap| ==> heap[k].deadline <= heap[i].deadline
      requires Draining(before, heap, expired, lost, flags.dead, now, start, flags.outcomes, Settling(before))
      modifies this`heap, flags`outcomes
      ensures Draining(before, heap, expired', lost', flags.dead, now, start, flags.outcomes, Settling(before))
      ensures |heap| < |old(heap)|
    {
      expired', lost' := expired, lost;
      ghost var was, mid, settling := heap, flags.outcomes, Settling(before);
      var e := Pop(k);
      FromBefore(before, was, expired, lost, flags.dead, now, e);
      if Dead(e, flags.dead) {
        PopDead(before, was, heap, k, expired, lost, flags.dead, now, start, mid, settling);
      } else {
        ghost var won;
        expired', lost', won := Offer(e, flags, expired, lost, start, settling);
        if won { PopWon(before, was, heap, k, expired, lost, flags.dead, now, start, mid, flags.outcomes, settling); }
        else { PopLost(before, was, heap, k, expired, lost, flags.dead, now, start, mid, flags.outcomes, settling); }
      }
    }

    /** A live due entry is handed out if it has no outcome or is the first to settle it. */
    method Offer(e: Entry, flags: Flags, expired: seq<Entry>, ghost lost: seq<Entry>, ghost before: map<nat, nat>, ghost settling: bool)
      returns (expired': seq<Entry>, ghost lost': seq<Entry>, ghost handed: bool)
      requires Arbitrated(expired, lost, before, flags.outcomes, settling) && (settling && e.outcome.Some? ==> e.expireValue != 0)
      modifies flags`outcomes
      ensures Arbitrated(expired', lost', before, flags.outcomes, settling)
      ensures (expired', lost') == if handed then (expired + [e], lost) else (expired, lost + [e])
    {
      ghost var outcomes := flags.outcomes;
      var won := true;
      if e.outcome.Some? {
        won := flags.Settle(e.outcome.value, e.expireValue);
      }
      if won {
        Won(expired, lost, e, before, outcomes, flags.outcomes, settling);
        return expired + [e], lost, true;
      }
      LostNow(expired, lost, e, before, outcomes, settling);
      return expired, lost + [e], false;
    }
  }
}
