/** Every run of a queue before `shutdown`, cancellation of any waiter included. */
module QueueRuns {
  import opened QueueCore

  datatype Phase = Idle | Getting | Putting(item: Item) | Joining

  datatype Entry = Entry(id: nat, item: Item)

  /** `pushed`: accepted puts in order; `popped`: delivered items in order; `dropped`:
      puts cancelled before they enqueued; `done`: successful `task_done` calls. */
  datatype World = World(
    q: Queue,
    phase: map<nat, Phase>,
    used: set<nat>,
    pushed: seq<Entry>,
    popped: seq<Item>,
    dropped: set<nat>,
    unfinished: nat,
    done: nat,
    joiners: seq<nat>)

  datatype Event =
    | Put(id: nat, x: Item)
    | PutResume(id: nat)
    | PutCancel(id: nat)
    | PutNowait(id: nat, x: Item)
    | Get(id: nat)
    | GetResume(id: nat)
    | GetCancel(id: nat)
    | GetNowait
    | TaskDone
    | Join(id: nat)
    | JoinCancel(id: nat)

  function Init(maxsize: nat): World {
    World(Queue(maxsize, [], [], [], {}, {}), map[], {}, [], [], {}, 0, 0, [])
  }

  function PhaseOf(w: World, id: nat): Phase {
    if id in w.phase then w.phase[id] else Idle
  }

  function Pushed(w: World, q: Queue, id: nat, x: Item): World {
    w.(q := Push(q, x), pushed := w.pushed + [Entry(id, x)], unfinished := w.unfinished + 1)
  }

  function Popped(w: World, q: Queue): World
    requires q.items != []
  {
    w.(q := Pop(q), popped := w.popped + [q.items[0]])
  }

  predicate Enabled(w: World, e: Event) {
    match e
    case Put(id, _) => id !in w.used
    case PutNowait(id, _) => id !in w.used
    case Get(id) => id !in w.used
    case Join(id) => id !in w.used
    case PutResume(id) => PhaseOf(w, id).Putting? && id in w.q.namedPutters
    case PutCancel(id) => PhaseOf(w, id).Putting?
    case GetResume(id) => PhaseOf(w, id).Getting? && id in w.q.namedGetters && w.q.items != []
    case GetCancel(id) => PhaseOf(w, id).Getting?
    case GetNowait => GetReady(w.q)
    case TaskDone => w.unfinished > 0
    case JoinCancel(id) => PhaseOf(w, id).Joining?
  }

  /** One operation per id; a put or get that is woken runs only when it was named. */
  function Step(w: World, e: Event): World {
    if !Enabled(w, e) then w
    else
      match e
      case Put(id, x) =>
        var v := w.(used := w.used + {id});
        if !Full(w.q) then Pushed(v, w.q, id, x)
        else v.(q := ParkPutter(w.q, id), phase := w.phase[id := Putting(x)])
      case PutResume(id) =>
        Pushed(w.(phase := w.phase[id := Idle]), RemovePutter(w.q, id), id, PhaseOf(w, id).item)
      case PutCancel(id) =>
        w.(q := NotifyPutters(RemovePutter(w.q, id)), phase := w.phase[id := Idle], dropped := w.dropped + {id})
      case PutNowait(id, x) =>
        if Full(w.q) then w else Pushed(w.(used := w.used + {id}), w.q, id, x)
      case Get(id) =>
        var v := w.(used := w.used + {id});
        if GetReady(w.q) then Popped(v, w.q) else v.(q := ParkGetter(w.q, id), phase := w.phase[id := Getting])
      case GetResume(id) => Popped(w.(phase := w.phase[id := Idle]), RemoveGetter(w.q, id))
      case GetCancel(id) => w.(q := NotifyGetters(RemoveGetter(w.q, id)), phase := w.phase[id := Idle])
      case GetNowait => Popped(w, w.q)
      case TaskDone => Finished(w)
      case Join(id) =>
        if w.unfinished == 0 then w.(used := w.used + {id})
        else w.(used := w.used + {id}, joiners := w.joiners + [id], phase := w.phase[id := Joining])
      case JoinCancel(id) => w.(joiners := RemoveFirst(w.joiners, id), phase := w.phase[id := Idle])
  }

  /** `task_done`: the last one wakes every joiner. */
  function Finished(w: World): World
    requires w.unfinished > 0
  {
    var v := w.(unfinished := w.unfinished - 1, done := w.done + 1);
    if v.unfinished > 0 then v
    else v.(joiners := [], phase := map id | id in w.phase :: if w.phase[id].Joining? then Idle else w.phase[id])
  }

  function Run(w: World, es: seq<Event>): World {
    if es == [] then w else Step(Run(w, es[..|es| - 1]), es[|es| - 1])
  }

  function Items(es: seq<Entry>): (r: seq<Item>)
    ensures |r| == |es|
    ensures forall i :: 0 <= i < |es| ==> r[i] == es[i].item
  {
    seq(|es|, i requires 0 <= i < |es| => es[i].item)
  }

  /** Reservations never exceed what there is, and nobody is parked while they could
      proceed: a parked putter means full, a parked getter that every item is named. */
  ghost predicate Balanced(q: Queue) {
    && (q.maxsize > 0 ==> |q.items| + |q.namedPutters| <= q.maxsize)
    && |q.namedGetters| <= |q.items|
    && (q.putters != [] ==> Full(q))
    && (q.getters != [] ==> |q.namedGetters| == |q.items|)
  }

  ghost predicate Distinct(ws: seq<nat>) {
    forall i, j :: 0 <= i < j < |ws| ==> ws[i] != ws[j]
  }

  /** A suspended operation is in its queue or named, never both and never lost. */
  ghost predicate CoOk(w: World, id: nat) {
    var p := PhaseOf(w, id);
    && (p.Getting? <==> id in w.q.getters || id in w.q.namedGetters)
    && !(id in w.q.getters && id in w.q.namedGetters)
    && (p.Putting? <==> id in w.q.putters || id in w.q.namedPutters)
    && !(id in w.q.putters && id in w.q.namedPutters)
    && (p.Joining? <==> id in w.joiners)
    && (!p.Idle? ==> id in w.used)
    && (id in w.dropped ==> id in w.used && !p.Putting?)
  }

  ghost predicate Logged(w: World) {
    && w.popped + w.q.items == Items(w.pushed)
    && (forall i :: 0 <= i < |w.pushed| ==>
          w.pushed[i].id in w.used && w.pushed[i].id !in w.dropped && !PhaseOf(w, w.pushed[i].id).Putting?)
    && w.unfinished + w.done == |w.pushed|
    && (w.joiners != [] ==> w.unfinished > 0)
  }

  ghost predicate Inv(w: World) {
    && Balanced(w.q)
    && Distinct(w.q.getters) && Distinct(w.q.putters) && Distinct(w.joiners)
    && Logged(w)
    && (forall id :: CoOk(w, id))
  }

  /** Naming moves waiters from the queue to the named set and changes nothing else. */
  lemma {:induction false} NotifyPuttersMoves(q: Queue)
    requires Distinct(q.putters) && (forall i :: 0 <= i < |q.putters| ==> q.putters[i] !in q.namedPutters)
    requires q.maxsize > 0 ==> |q.items| + |q.namedPutters| <= q.maxsize
    ensures var r := NotifyPutters(q);
      && Distinct(r.putters)
      && (forall id :: id in r.putters || id in r.namedPutters <==> id in q.putters || id in q.namedPutters)
      && (forall id :: !(id in r.putters && id in r.namedPutters))
      && (q.maxsize > 0 ==> |r.items| + |r.namedPutters| <= q.maxsize)
    decreases |q.putters|
  {
    if q.putters != [] && !Full(q) {
      assert q.putters == [q.putters[0]] + q.putters[1..];
      NotifyPuttersMoves(q.(putters := q.putters[1..], namedPutters := q.namedPutters + {q.putters[0]}));
    } else {
      assert forall id :: id in q.putters ==> exists i :: 0 <= i < |q.putters| && q.putters[i] == id;
    }
  }

  lemma {:induction false} NotifyGettersMoves(q: Queue)
    requires Distinct(q.getters) && (forall i :: 0 <= i < |q.getters| ==> q.getters[i] !in q.namedGetters)
    requires |q.namedGetters| <= |q.items|
    ensures var r := NotifyGetters(q);
      && Distinct(r.getters)
      && (forall id :: id in r.getters || id in r.namedGetters <==> id in q.getters || id in q.namedGetters)
      && (forall id :: !(id in r.getters && id in r.namedGetters))
      && |r.namedGetters| <= |r.items|
    decreases |q.getters|
  {
    if q.getters != [] && |q.namedGetters| < |q.items| {
      assert q.getters == [q.getters[0]] + q.getters[1..];
      NotifyGettersMoves(q.(getters := q.getters[1..], namedGetters := q.namedGetters + {q.getters[0]}));
    } else {
      assert forall id :: id in q.getters ==> exists i :: 0 <= i < |q.getters| && q.getters[i] == id;
    }
  }

  lemma RemoveFirstElems(ws: seq<nat>, id: nat)
    requires Distinct(ws)
    ensures Distinct(RemoveFirst(ws, id))
    ensures forall x :: x in RemoveFirst(ws, id) <==> x in ws && x != id
  {
    var k := IndexOf(ws, id);
    if k < |ws| {
      assert ws == ws[..k] + [id] + ws[k + 1..];
    }
  }

  /** The queues alone: what a step may assume and must restore about them. */
  ghost predicate Separate(q: Queue) {
    && Distinct(q.getters) && Distinct(q.putters)
    && (forall i :: 0 <= i < |q.getters| ==> q.getters[i] !in q.namedGetters)
    && (forall i :: 0 <= i < |q.putters| ==> q.putters[i] !in q.namedPutters)
  }

  lemma SeparateOf(w: World)
    requires Inv(w)
    ensures Separate(w.q)
  {
    forall i | 0 <= i < |w.q.getters| ensures w.q.getters[i] !in w.q.namedGetters {
      assert CoOk(w, w.q.getters[i]);
    }
    forall i | 0 <= i < |w.q.putters| ensures w.q.putters[i] !in w.q.namedPutters {
      assert CoOk(w, w.q.putters[i]);
    }
  }

  /** Same waiters, possibly named now. */
  ghost predicate SameGetters(a: Queue, b: Queue) {
    && (forall id :: id in a.getters || id in a.namedGetters <==> id in b.getters || id in b.namedGetters)
    && (forall id :: !(id in b.getters && id in b.namedGetters))
  }

  ghost predicate SamePutters(a: Queue, b: Queue) {
    && (forall id :: id in a.putters || id in a.namedPutters <==> id in b.putters || id in b.namedPutters)
    && (forall id :: !(id in b.putters && id in b.namedPutters))
  }

  lemma SeparateElems(q: Queue)
    requires Separate(q)
    ensures SameGetters(q, q) && SamePutters(q, q)
  {
    assert forall id :: id in q.getters ==> exists i :: 0 <= i < |q.getters| && q.getters[i] == id;
    assert forall id :: id in q.putters ==> exists i :: 0 <= i < |q.putters| && q.putters[i] == id;
  }

  /** One slot is free for the value about to be pushed. */
  ghost predicate SlotFree(q: Queue) {
    && (q.maxsize > 0 ==> |q.items| + |q.namedPutters| < q.maxsize)
    && |q.namedGetters| <= |q.items|
    && (q.putters != [] ==> q.maxsize > 0 && |q.items| + |q.namedPutters| + 1 == q.maxsize)
    && (q.getters != [] ==> |q.namedGetters| == |q.items|)
  }

  /** One item is free for the getter about to pop it. */
  ghost predicate ItemFree(q: Queue) {
    && (q.maxsize > 0 ==> |q.items| + |q.namedPutters| <= q.maxsize)
    && |q.namedGetters| < |q.items|
    && (q.putters != [] ==> Full(q))
    && (q.getters != [] ==> |q.namedGetters| + 1 == |q.items|)
  }

  lemma PushQueue(q: Queue, x: Item)
    requires SlotFree(q) && Separate(q)
    ensures var r := Push(q, x);
      && Balanced(r) && Distinct(r.getters) && Distinct(r.putters)
      && SameGetters(q, r) && SamePutters(q, r) && r.items == q.items + [x]
  {
    SeparateElems(q);
    NotifyGettersMoves(q.(items := q.items + [x]));
  }

  lemma PopQueue(q: Queue)
    requires ItemFree(q) && Separate(q)
    ensures var r := Pop(q);
      && Balanced(r) && Distinct(r.getters) && Distinct(r.putters)
      && SameGetters(q, r) && SamePutters(q, r) && r.items == q.items[1..]
  {
    SeparateElems(q);
    NotifyPuttersMoves(q.(items := q.items[1..]));
  }

  lemma ParkPutterQueue(q: Queue, id: nat)
    requires Balanced(q) && Separate(q) && Full(q) && id !in q.putters && id !in q.namedPutters
    ensures ParkPutter(q, id) == q.(putters := q.putters + [id])
    ensures Balanced(ParkPutter(q, id)) && Separate(ParkPutter(q, id))
  {
  }

  lemma ParkGetterQueue(q: Queue, id: nat)
    requires Balanced(q) && Separate(q) && !GetReady(q) && id !in q.getters && id !in q.namedGetters
    ensures var r := ParkGetter(q, id);
      && Balanced(r) && Distinct(r.getters) && Distinct(r.putters)
      && SameGetters(q.(getters := q.getters + [id]), r) && SamePutters(q, r) && r.items == q.items
  {
    SeparateElems(q);
    NotifyGettersMoves(q.(getters := q.getters + [id]));
  }

  lemma RemoveGetterQueue(q: Queue, id: nat)
    requires Balanced(q) && Separate(q)
    ensures var r := RemoveGetter(q, id);
      && Separate(r) && SamePutters(q, r) && r.items == q.items
      && id !in r.getters && id !in r.namedGetters
      && (forall x :: x != id ==> (x in r.getters || x in r.namedGetters <==> x in q.getters || x in q.namedGetters))
      && (id in q.namedGetters ==> ItemFree(r))
  {
    RemoveFirstElems(q.getters, id);
    SeparateElems(q);
    forall i | 0 <= i < |RemoveFirst(q.getters, id)| ensures RemoveFirst(q.getters, id)[i] in q.getters {
    }
  }

  lemma RemovePutterQueue(q: Queue, id: nat)
    requires Balanced(q) && Separate(q)
    ensures var r := RemovePutter(q, id);
      && Separate(r) && SameGetters(q, r) && r.items == q.items
      && id !in r.putters && id !in r.namedPutters
      && (forall x :: x != id ==> (x in r.putters || x in r.namedPutters <==> x in q.putters || x in q.namedPutters))
      && (id in q.namedPutters ==> SlotFree(r))
  {
    RemoveFirstElems(q.putters, id);
    SeparateElems(q);
    forall i | 0 <= i < |RemoveFirst(q.putters, id)| ensures RemoveFirst(q.putters, id)[i] in q.putters {
    }
  }

  lemma GetterLeaves(q: Queue, id: nat)
    requires Balanced(q) && Separate(q)
    ensures var r := NotifyGetters(RemoveGetter(q, id));
      && Balanced(r) && Distinct(r.getters) && Distinct(r.putters) && r.items == q.items
      && SameGetters(RemoveGetter(q, id), r) && SamePutters(q, r)
  {
    RemoveGetterQueue(q, id);
    SeparateElems(RemoveGetter(q, id));
    NotifyGettersMoves(RemoveGetter(q, id));
  }

  lemma PutterLeaves(q: Queue, id: nat)
    requires Balanced(q) && Separate(q)
    ensures var r := NotifyPutters(RemovePutter(q, id));
      && Balanced(r) && Distinct(r.getters) && Distinct(r.putters) && r.items == q.items
      && SamePutters(RemovePutter(q, id), r) && SameGetters(q, r)
  {
    RemovePutterQueue(q, id);
    SeparateElems(RemovePutter(q, id));
    NotifyPuttersMoves(RemovePutter(q, id));
  }

  lemma ItemsAppend(es: seq<Entry>, e: Entry)
    ensures Items(es + [e]) == Items(es) + [e.item]
  {
  }

  lemma PushedLog(w: World, v: World, q: Queue, id: nat, x: Item)
    requires Inv(w) && SlotFree(q) && Separate(q) && q.items == w.q.items
    requires v == Pushed(w.(phase := v.phase, used := v.used), q, id, x)
    requires w.used <= v.used && id in v.used && id !in w.dropped && !PhaseOf(v, id).Putting?
    requires forall i :: i != id ==> PhaseOf(v, i) == PhaseOf(w, i)
    ensures Logged(v)
  {
    PushQueue(q, x);
    ItemsAppend(w.pushed, Entry(id, x));
    assert w.popped + (w.q.items + [x]) == (w.popped + w.q.items) + [x];
  }

  lemma PoppedLog(w: World, v: World, q: Queue)
    requires Inv(w) && ItemFree(q) && Separate(q) && q.items == w.q.items
    requires v == Popped(w.(phase := v.phase, used := v.used), q)
    requires w.used <= v.used && forall i :: PhaseOf(v, i).Putting? ==> PhaseOf(w, i).Putting?
    ensures Logged(v)
  {
    PopQueue(q);
    assert w.q.items == [w.q.items[0]] + w.q.items[1..];
    assert (w.popped + [w.q.items[0]]) + w.q.items[1..] == w.popped + w.q.items;
  }

  lemma PutKeeps(w: World, id: nat, x: Item)
    requires Inv(w) && id !in w.used
    ensures Inv(Step(w, Put(id, x))) && Inv(Step(w, PutNowait(id, x)))
  {
    SeparateOf(w);
    assert CoOk(w, id);
    if Full(w.q) {
      ParkPutterQueue(w.q, id);
      var v := Step(w, Put(id, x));
      forall c ensures CoOk(v, c) {
        assert CoOk(w, c);
      }
    } else {
      PushQueue(w.q, x);
      var v := Step(w, Put(id, x));
      PushedLog(w, v, w.q, id, x);
      forall c ensures CoOk(v, c) {
        assert CoOk(w, c);
      }
    }
  }

  lemma PutResumeKeeps(w: World, id: nat)
    requires Inv(w) && Enabled(w, PutResume(id))
    ensures Inv(Step(w, PutResume(id)))
  {
    SeparateOf(w);
    assert CoOk(w, id);
    var (q, x) := (RemovePutter(w.q, id), PhaseOf(w, id).item);
    RemovePutterQueue(w.q, id);
    PushQueue(q, x);
    var v := Step(w, PutResume(id));
    PushedLog(w, v, q, id, x);
    forall c ensures CoOk(v, c) {
      assert CoOk(w, c);
    }
  }

  lemma PutCancelKeeps(w: World, id: nat)
    requires Inv(w) && Enabled(w, PutCancel(id))
    ensures Inv(Step(w, PutCancel(id)))
  {
    SeparateOf(w);
    assert CoOk(w, id);
    RemovePutterQueue(w.q, id);
    PutterLeaves(w.q, id);
    var v := Step(w, PutCancel(id));
    forall c ensures CoOk(v, c) {
      assert CoOk(w, c);
    }
  }

  lemma GetKeeps(w: World, id: nat)
    requires Inv(w) && id !in w.used
    ensures Inv(Step(w, Get(id)))
  {
    SeparateOf(w);
    assert CoOk(w, id);
    var v := Step(w, Get(id));
    if GetReady(w.q) {
      PopQueue(w.q);
      PoppedLog(w, v, w.q);
    } else {
      ParkGetterQueue(w.q, id);
    }
    forall c ensures CoOk(v, c) {
      assert CoOk(w, c);
    }
  }

  lemma GetResumeKeeps(w: World, id: nat)
    requires Inv(w) && Enabled(w, GetResume(id))
    ensures Inv(Step(w, GetResume(id)))
  {
    SeparateOf(w);
    assert CoOk(w, id);
    var q := RemoveGetter(w.q, id);
    RemoveGetterQueue(w.q, id);
    PopQueue(q);
    var v := Step(w, GetResume(id));
    PoppedLog(w, v, q);
    forall c ensures CoOk(v, c) {
      assert CoOk(w, c);
    }
  }

  lemma GetCancelKeeps(w: World, id: nat)
    requires Inv(w) && Enabled(w, GetCancel(id))
    ensures Inv(Step(w, GetCancel(id)))
  {
    SeparateOf(w);
    assert CoOk(w, id);
    RemoveGetterQueue(w.q, id);
    GetterLeaves(w.q, id);
    var v := Step(w, GetCancel(id));
    forall c ensures CoOk(v, c) {
      assert CoOk(w, c);
    }
  }

  lemma GetNowaitKeeps(w: World)
    requires Inv(w) && GetReady(w.q)
    ensures Inv(Step(w, GetNowait))
  {
    SeparateOf(w);
    PopQueue(w.q);
    var v := Step(w, GetNowait);
    PoppedLog(w, v, w.q);
    forall c ensures CoOk(v, c) {
      assert CoOk(w, c);
    }
  }

  lemma TaskDoneKeeps(w: World)
    requires Inv(w) && w.unfinished > 0
    ensures Inv(Step(w, TaskDone))
  {
    var v := Step(w, TaskDone);
    forall c ensures CoOk(v, c) {
      assert CoOk(w, c);
    }
  }

  lemma JoinKeeps(w: World, id: nat)
    requires Inv(w) && id !in w.used
    ensures Inv(Step(w, Join(id)))
  {
    assert CoOk(w, id);
    var v := Step(w, Join(id));
    forall c ensures CoOk(v, c) {
      assert CoOk(w, c);
    }
  }

  lemma JoinCancelKeeps(w: World, id: nat)
    requires Inv(w) && PhaseOf(w, id).Joining?
    ensures Inv(Step(w, JoinCancel(id)))
  {
    assert CoOk(w, id);
    RemoveFirstElems(w.joiners, id);
    var v := Step(w, JoinCancel(id));
    forall c ensures CoOk(v, c) {
      assert CoOk(w, c);
    }
  }

  lemma StepKeeps(w: World, e: Event)
    requires Inv(w)
    ensures Inv(Step(w, e))
  {
    if Enabled(w, e) {
      match e
      case Put(id, x) => PutKeeps(w, id, x);
      case PutNowait(id, x) => PutKeeps(w, id, x);
      case PutResume(id) => PutResumeKeeps(w, id);
      case PutCancel(id) => PutCancelKeeps(w, id);
      case Get(id) => GetKeeps(w, id);
      case GetResume(id) => GetResumeKeeps(w, id);
      case GetCancel(id) => GetCancelKeeps(w, id);
      case GetNowait => GetNowaitKeeps(w);
      case TaskDone => TaskDoneKeeps(w);
      case Join(id) => JoinKeeps(w, id);
      case JoinCancel(id) => JoinCancelKeeps(w, id);
    }
  }

  /** Capacity with reservations, progress, order of delivery, cancelled puts and joins,
      in every run. */
  lemma {:induction false} EveryRunKeeps(maxsize: nat, es: seq<Event>)
    ensures Inv(Run(Init(maxsize), es))
  {
    if es != [] {
      EveryRunKeeps(maxsize, es[..|es| - 1]);
      StepKeeps(Run(Init(maxsize), es[..|es| - 1]), es[|es| - 1]);
    }
  }

  /** A named getter that runs finds an item, and a put that was cancelled is not in the
      delivered or stored items. */
  lemma NamedGetterServed(w: World, id: nat)
    requires Inv(w) && PhaseOf(w, id).Getting? && id in w.q.namedGetters
    ensures w.q.items != [] && Step(w, GetResume(id)).popped == w.popped + [w.q.items[0]]
    ensures forall i :: 0 <= i < |w.pushed| ==> w.pushed[i].id !in w.dropped
  {
    assert |{id}| <= |w.q.namedGetters| by {
      SubsetSize({id}, w.q.namedGetters);
    }
  }

  lemma {:induction false} SubsetSize(a: set<nat>, b: set<nat>)
    requires a <= b
    ensures |a| <= |b|
    decreases a
  {
    if a != {} {
      var x :| x in a;
      SubsetSize(a - {x}, b - {x});
    }
  }
}
