/** `Queue` of include/coro/queue.hpp before `shutdown`: items, parked getters and
    putters, and the reservations that name who gets the next item or the next slot. */
module QueueCore {

  type Item(==, !new)

  datatype Queue = Queue(
    maxsize: nat,
    items: seq<Item>,
    getters: seq<nat>,
    putters: seq<nat>,
    namedGetters: set<nat>,
    namedPutters: set<nat>)

  predicate Full(q: Queue) {
    q.maxsize > 0 && |q.items| + |q.namedPutters| >= q.maxsize
  }

  /** `notify_putters`: name the oldest putters while there is an unreserved slot. */
  function NotifyPutters(q: Queue): (r: Queue)
    ensures r.putters == [] || Full(r)
    ensures r == q.(putters := r.putters, namedPutters := r.namedPutters)
    ensures q.putters == [] || Full(q) ==> r == q
    decreases |q.putters|
  {
    if q.putters == [] || Full(q) then q
    else NotifyPutters(q.(putters := q.putters[1..], namedPutters := q.namedPutters + {q.putters[0]}))
  }

  /** `notify_getters`: name the oldest getters while there is an unreserved item. */
  function NotifyGetters(q: Queue): (r: Queue)
    ensures r.getters == [] || |r.namedGetters| >= |r.items|
    ensures r == q.(getters := r.getters, namedGetters := r.namedGetters)
    ensures q.getters == [] || |q.namedGetters| >= |q.items| ==> r == q
    decreases |q.getters|
  {
    if q.getters == [] || |q.namedGetters| >= |q.items| then q
    else NotifyGetters(q.(getters := q.getters[1..], namedGetters := q.namedGetters + {q.getters[0]}))
  }

  function IndexOf(ws: seq<nat>, id: nat): (k: nat)
    ensures k <= |ws|
    ensures k < |ws| ==> ws[k] == id
    ensures forall i :: 0 <= i < k ==> ws[i] != id
  {
    if ws == [] || ws[0] == id then 0 else 1 + IndexOf(ws[1..], id)
  }

  function RemoveFirst(ws: seq<nat>, id: nat): seq<nat> {
    var k := IndexOf(ws, id);
    if k < |ws| then ws[..k] + ws[k + 1..] else ws
  }

  function RemoveGetter(q: Queue, id: nat): Queue {
    if id in q.namedGetters then q.(namedGetters := q.namedGetters - {id})
    else q.(getters := RemoveFirst(q.getters, id))
  }

  function RemovePutter(q: Queue, id: nat): Queue {
    if id in q.namedPutters then q.(namedPutters := q.namedPutters - {id})
    else q.(putters := RemoveFirst(q.putters, id))
  }

  predicate GetReady(q: Queue) {
    q.namedGetters == {} && q.getters == [] && q.items != []
  }

  function Pop(q: Queue): Queue
    requires q.items != []
  {
    NotifyPutters(q.(items := q.items[1..]))
  }

  function Push(q: Queue, x: Item): Queue {
    NotifyGetters(q.(items := q.items + [x]))
  }

  function ParkGetter(q: Queue, id: nat): Queue {
    NotifyGetters(q.(getters := q.getters + [id]))
  }

  function ParkPutter(q: Queue, id: nat): Queue {
    NotifyPutters(q.(putters := q.putters + [id]))
  }

  datatype Option<T> = None | Some(value: T)

  /** The queue object: reservations are counters here, and flags in the awaiters. */
  class QueueObject {
    const maxsize: nat
    var items: seq<Item>
    var reservedPutters: nat
    var reservedGetters: nat
    var putWaiters: seq<nat>
    var getWaiters: seq<nat>
    var flaggedPutters: set<nat>
    var flaggedGetters: set<nat>
    var unfinished: nat
    var joinWaiters: seq<nat>

    ghost predicate Valid()
      reads this
    {
      && reservedPutters == |flaggedPutters| && reservedGetters == |flaggedGetters|
      && (forall i, j :: 0 <= i < j < |putWaiters| ==> putWaiters[i] != putWaiters[j])
      && (forall i, j :: 0 <= i < j < |getWaiters| ==> getWaiters[i] != getWaiters[j])
      && (forall i :: 0 <= i < |putWaiters| ==> putWaiters[i] !in flaggedPutters)
      && (forall i :: 0 <= i < |getWaiters| ==> getWaiters[i] !in flaggedGetters)
    }

    ghost function Abs(): Queue
      reads this
    {
      Queue(maxsize, items, getWaiters, putWaiters, flaggedGetters, flaggedPutters)
    }

    constructor (maxsize: nat)
      ensures Valid() && Abs() == Queue(maxsize, [], [], [], {}, {}) && unfinished == 0 && joinWaiters == []
    {
      this.maxsize := maxsize;
      items, putWaiters, getWaiters, joinWaiters := [], [], [], [];
      reservedPutters, reservedGetters, unfinished := 0, 0, 0;
      flaggedPutters, flaggedGetters := {}, {};
    }

    method WakePutters()
      requires Valid()
      modifies `putWaiters, `flaggedPutters, `reservedPutters
      ensures Valid() && Abs() == NotifyPutters(old(Abs()))
    {
      while putWaiters != [] && !(maxsize > 0 && |items| + reservedPutters >= maxsize)
        invariant Valid()
        invariant NotifyPutters(Abs()) == NotifyPutters(old(Abs()))
        decreases |putWaiters|
      {
        var head := putWaiters[0];
        putWaiters := putWaiters[1..];
        flaggedPutters := flaggedPutters + {head};
        reservedPutters := reservedPutters + 1;
      }
    }

    method WakeGetters()
      requires Valid()
      modifies `getWaiters, `flaggedGetters, `reservedGetters
      ensures Valid() && Abs() == NotifyGetters(old(Abs()))
    {
      while getWaiters != [] && reservedGetters < |items|
        invariant Valid()
        invariant NotifyGetters(Abs()) == NotifyGetters(old(Abs()))
        decreases |getWaiters|
      {
        var head := getWaiters[0];
        getWaiters := getWaiters[1..];
        flaggedGetters := flaggedGetters + {head};
        reservedGetters := reservedGetters + 1;
      }
    }

    /** `get` up to its suspension. */
    method Get(id: nat) returns (got: Option<Item>)
      requires Valid() && id !in flaggedGetters && id !in getWaiters
      modifies this
      ensures Valid() && unfinished == old(unfinished) && joinWaiters == old(joinWaiters)
      ensures if GetReady(old(Abs())) then got == Some(old(items)[0]) && Abs() == Pop(old(Abs()))
              else got == None && Abs() == ParkGetter(old(Abs()), id)
    {
      if reservedGetters == 0 && getWaiters == [] && items != [] {
        got := Some(items[0]);
        items := items[1..];
        WakePutters();
      } else {
        getWaiters := getWaiters + [id];
        WakeGetters();
        got := None;
      }
    }

    /** `await_resume` of a named getter. */
    method GetResume(id: nat) returns (x: Item)
      requires Valid() && id in flaggedGetters && items != []
      modifies this
      ensures Valid() && unfinished == old(unfinished) && joinWaiters == old(joinWaiters)
      ensures x == old(items)[0] && Abs() == Pop(RemoveGetter(old(Abs()), id))
    {
      flaggedGetters := flaggedGetters - {id};
      reservedGetters := reservedGetters - 1;
      x := items[0];
      items := items[1..];
      WakePutters();
    }

    method GetDestroyed(id: nat)
      requires Valid()
      modifies this
      ensures Valid() && unfinished == old(unfinished) && joinWaiters == old(joinWaiters)
      ensures Abs() == NotifyGetters(RemoveGetter(old(Abs()), id))
    {
      if id in flaggedGetters {
        flaggedGetters := flaggedGetters - {id};
        reservedGetters := reservedGetters - 1;
      } else {
        getWaiters := Without(getWaiters, id);
        RemoveFirstKeeps(old(getWaiters), id);
      }
      WakeGetters();
    }

    /** `put` up to its suspension; true when it was accepted at once. */
    method Put(id: nat, x: Item) returns (accepted: bool)
      requires Valid() && id !in flaggedPutters && id !in putWaiters
      modifies this
      ensures Valid() && joinWaiters == old(joinWaiters)
      ensures accepted <==> !Full(old(Abs()))
      ensures Abs() == if accepted then Push(old(Abs()), x) else ParkPutter(old(Abs()), id)
      ensures unfinished == old(unfinished) + if accepted then 1 else 0
    {
      if !(maxsize > 0 && |items| + reservedPutters >= maxsize) {
        items := items + [x];
        unfinished := unfinished + 1;
        WakeGetters();
        return true;
      }
      putWaiters := putWaiters + [id];
      WakePutters();
      return false;
    }

    method PutResume(id: nat, x: Item)
      requires Valid() && id in flaggedPutters
      modifies this
      ensures Valid() && joinWaiters == old(joinWaiters) && unfinished == old(unfinished) + 1
      ensures Abs() == Push(RemovePutter(old(Abs()), id), x)
    {
      flaggedPutters := flaggedPutters - {id};
      reservedPutters := reservedPutters - 1;
      items := items + [x];
      unfinished := unfinished + 1;
      WakeGetters();
    }

    method PutDestroyed(id: nat)
      requires Valid()
      modifies this
      ensures Valid() && unfinished == old(unfinished) && joinWaiters == old(joinWaiters)
      ensures Abs() == NotifyPutters(RemovePutter(old(Abs()), id))
    {
      if id in flaggedPutters {
        flaggedPutters := flaggedPutters - {id};
        reservedPutters := reservedPutters - 1;
      } else {
        putWaiters := Without(putWaiters, id);
        RemoveFirstKeeps(old(putWaiters), id);
      }
      WakePutters();
    }

    /** Returns the join waiters to schedule; false when called more often than `put`. */
    method TaskDone() returns (ok: bool, woken: seq<nat>)
      modifies `unfinished, `joinWaiters
      ensures ok <==> old(unfinished) > 0
      ensures ok ==> unfinished == old(unfinished) - 1
      ensures !ok ==> unfinished == old(unfinished)
      ensures if ok && unfinished == 0 then woken == old(joinWaiters) && joinWaiters == []
              else woken == [] && joinWaiters == old(joinWaiters)
    {
      woken := [];
      if unfinished == 0 {
        return false, woken;
      }
      unfinished := unfinished - 1;
      if unfinished == 0 {
        while joinWaiters != []
          invariant unfinished == 0 && woken + joinWaiters == old(joinWaiters)
          decreases |joinWaiters|
        {
          woken := woken + [joinWaiters[0]];
          joinWaiters := joinWaiters[1..];
        }
      }
      return true, woken;
    }
  }

  lemma {:induction false} RemoveFirstKeeps(ws: seq<nat>, id: nat)
    requires forall i, j :: 0 <= i < j < |ws| ==> ws[i] != ws[j]
    ensures forall i, j :: 0 <= i < j < |RemoveFirst(ws, id)| ==> RemoveFirst(ws, id)[i] != RemoveFirst(ws, id)[j]
    ensures forall i :: 0 <= i < |RemoveFirst(ws, id)| ==> exists j :: 0 <= j < |ws| && ws[j] == RemoveFirst(ws, id)[i]
  {
    var k, r := IndexOf(ws, id), RemoveFirst(ws, id);
    forall i | 0 <= i < |r| ensures exists j :: 0 <= j < |ws| && ws[j] == r[i] {
      assert r[i] == ws[if i < k then i else i + 1];
    }
    assert forall i :: 0 <= i < |r| ==> r[i] == ws[if i < k then i else i + 1];
  }

  /** A deque without the first entry that is `id`. */
  method Without(ws: seq<nat>, id: nat) returns (r: seq<nat>)
    ensures r == RemoveFirst(ws, id)
  {
    var k := Find(ws, id);
    r := if k < |ws| then ws[..k] + ws[k + 1..] else ws;
  }

  method Find(ws: seq<nat>, id: nat) returns (k: nat)
    ensures k == IndexOf(ws, id)
  {
    k := 0;
    while k < |ws| && ws[k] != id
      invariant k <= |ws|
      invariant forall i :: 0 <= i < k ==> ws[i] != id
    {
      k := k + 1;
    }
  }
}
