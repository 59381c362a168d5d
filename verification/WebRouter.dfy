/**
 * The web router: one radix router per HTTP method. `include` checks all the
 * routes it is about to add against scratch routers before it adds the first
 * (Web/src/router.h).
 */
module WebRouter {
  import opened RoutePattern
  import opened RouteTable
  import opened RouteInclude

  /** Refused is std::invalid_argument; Frozen and Inconsistent are std::logic_error. */
  datatype Outcome = Done | Frozen | Refused | Inconsistent

  /** What every registered route of a method has gone through. */
  ghost predicate TreeOk(m: string, t: Table<Entry>) {
    && m != ""
    && (forall i :: 0 <= i < |t.log| ==> !Foreign(t.log[i]))
    && (forall q :: q in t.routes ==> t.routes[q].fn.Fn?)
  }

  lemma {:induction false} TreeGrows(m: string, t: Table<Entry>, path: string, e: Entry)
    requires TreeOk(m, t) && !Foreign(path) && e.fn.Fn? && Register(t, path, e).Some?
    ensures TreeOk(m, Register(t, path, e).value)
  {
    ForeignPrefix(path, |Trim(path)|);
    var t' := Register(t, path, e).value;
    assert t'.log == t.log || t'.log == t.log + [Trim(path)];
    assert forall q :: q in t'.routes ==> t'.routes[q] == e || (q in t.routes && t'.routes[q] == t.routes[q]);
  }

  lemma {:induction false} ForeignPrefix(s: string, k: nat)
    requires !Foreign(s) && k <= |s|
    ensures !Foreign(s[..k])
  {
  }

  lemma {:induction false} ForeignConcat(a: string, b: string)
    requires !Foreign(a) && !Foreign(b)
    ensures !Foreign(a + b)
  {
    var s := a + b;
    forall i | 0 <= i < |s| ensures s[i] != '?' && s[i] != '#' && s[i] != '\0' {
      assert s[i] == if i < |a| then a[i] else b[i - |a|];
    }
  }

  /** Acceptance depends on the set of registered patterns and on nothing else. */
  lemma {:induction false} SamePatternsSameAnswer<A, B>(t: Table<A>, u: Table<B>, s: string, a: A, b: B)
    requires t.routes.Keys == u.routes.Keys
    ensures Register(t, s, a).Some? == Register(u, s, b).Some?
    ensures Register(t, s, a).Some? ==> Register(t, s, a).value.routes.Keys == Register(u, s, b).value.routes.Keys
  {
    if Read(s).Some? {
      var p := Read(s).value;
      assert (forall q :: q in t.routes <==> q in u.routes) by {
        forall q ensures q in t.routes <==> q in u.routes { assert q in t.routes.Keys <==> q in u.routes.Keys; }
      }
      assert Free(t.routes, p) <==> Free(u.routes, p);
    }
  }

  lemma {:induction false} RegisterAllPrefix(t: Table<Entry>, items: seq<(string, Entry)>, k: nat)
    requires RegisterAll(t, items).Some? && k <= |items|
    ensures RegisterAll(t, items[..k]).Some?
    decreases |items|
  {
    if k == |items| {
      InitAll(items);
    } else {
      var init := items[..|items| - 1];
      InitLast(items);
      RegisterAllSnoc(t, init, items[|items| - 1]);
      RegisterAllPrefix(t, init, k);
      PrefixOfInit(items, k);
    }
  }

  lemma {:induction false} InitAll<T>(s: seq<T>)
    ensures s[..|s|] == s
  {
  }

  lemma {:induction false} PrefixOfInit<T>(s: seq<T>, k: nat)
    requires k < |s|
    ensures s[..|s| - 1][..k] == s[..k]
  {
  }

  lemma {:induction false} PrefixSnoc<T>(s: seq<T>, k: nat)
    requires k < |s|
    ensures s[..k + 1] == s[..k] + [s[k]]
  {
  }

  ghost predicate Covers<V>(routes: map<Pattern, V>, log: seq<string>) {
    forall q :: q in routes <==> Logged(log, q)
  }

  lemma {:induction false} LoggedPrefix(log: seq<string>, k: nat, q: Pattern)
    requires k <= |log| && Logged(log[..k], q)
    ensures Logged(log, q)
  {
    var i :| 0 <= i < k && Read(log[..k][i]) == Some(q);
    assert log[i] == log[..k][i];
  }

  lemma {:induction false} ReplayFree(t: Table<Entry>, scratch: map<Pattern, bool>, k: nat)
    requires TableOk(t) && k < |t.log| && Covers(scratch, t.log[..k])
    ensures Read(t.log[k]).Some? && Free(scratch, Read(t.log[k]).value)
  {
    var p := Read(t.log[k]).value;
    assert Logged(t.log, p);
    assert Free(t.routes, p);
    forall q | q in scratch ensures !Conflict(p, q) { LoggedPrefix(t.log, k, q); }
  }

  lemma {:induction false} ReplayStep(t: Table<Entry>, scratch: Table<bool>, k: nat)
    requires TableOk(t) && k < |t.log| && Covers(scratch.routes, t.log[..k])
    ensures Register(scratch, t.log[k], true).Some?
    ensures Covers(Register(scratch, t.log[k], true).value.routes, t.log[..k + 1])
  {
    ReplayFree(t, scratch.routes, k);
    CoversSnoc(scratch.routes, t.log[..k], t.log[k]);
    PrefixSnoc(t.log, k);
  }

  lemma {:induction false} CoversSnoc(routes: map<Pattern, bool>, log: seq<string>, s: string)
    requires Covers(routes, log) && Read(s).Some?
    ensures Covers(routes[Read(s).value := true], log + [s])
  {
    var after := routes[Read(s).value := true];
    forall q ensures q in after <==> Logged(log + [s], q) { LoggedSnoc(log, s, q); }
  }

  lemma {:induction false} SameCover<A, B>(a: map<Pattern, A>, b: map<Pattern, B>, log: seq<string>)
    requires Covers(a, log) && Covers(b, log)
    ensures a.Keys == b.Keys
  {
    forall q ensures q in a.Keys <==> q in b.Keys { assert q in a <==> q in b; }
  }

  /** A scratch router with the patterns of a tree: the log of a sound tree replays without a refusal. */
  method Replay(t: Table<Entry>) returns (ok: bool, scratch: Table<bool>)
    requires TableOk(t)
    ensures ok && scratch.routes.Keys == t.routes.Keys
  {
    scratch := Table(map[], []);
    var k := 0;
    while k < |t.log|
      invariant 0 <= k <= |t.log| && Covers(scratch.routes, t.log[..k])
    {
      ReplayStep(t, scratch, k);
      var next := Register(scratch, t.log[k], true);
      if next.None? { return false, scratch; }
      scratch, k := next.value, k + 1;
    }
    InitAll(t.log);
    SameCover(scratch.routes, t.routes, t.log);
    ok := true;
  }

  /** The routes of one child tree, checked against the parent's tree for the same method. */
  method PlanFor(parent: Table<Entry>, child: Table<Entry>, norm: string, outer: seq<Middleware>)
    returns (r: Outcome, items: seq<(string, Entry)>)
    requires TableOk(parent) && TableOk(child)
    ensures r == Done || r == Refused
    ensures r == Done <==> RegisterAll(parent, Brought(child, norm, outer)).Some?
    ensures r == Done ==> items == Brought(child, norm, outer)
  {
    items := [];
    var ok, scratch := Replay(parent);
    if !ok { return Inconsistent, items; }
    ghost var all := Brought(child, norm, outer);
    ghost var cur := parent;
    var k := 0;
    while k < |child.log|
      invariant 0 <= k <= |child.log| && items == all[..k]
      invariant RegisterAll(parent, all[..k]) == Some(cur) && scratch.routes.Keys == cur.routes.Keys
    {
      var pattern := child.log[k];
      var entry := FindExact(child, pattern);
      assert Logged(child.log, Read(child.log[k]).value);
      if entry.None? { return Inconsistent, items; }
      var full := norm + pattern;
      var item := (full, Wrap(outer, entry.value));
      assert item == all[k];
      SamePatternsSameAnswer(scratch, cur, full, true, item.1);
      RegisterAllSnoc(parent, all[..k], item);
      PrefixSnoc(all, k);
      var next := Register(scratch, full, true);
      if next.None? {
        RefusedStays(parent, all, k + 1);
        return Refused, items;
      }
      cur, scratch := Register(cur, full, item.1).value, next.value;
      items := items + [item];
      k := k + 1;
    }
    InitAll(all);
    r := Done;
  }

  lemma {:induction false} RefusedStays(t: Table<Entry>, items: seq<(string, Entry)>, k: nat)
    requires k <= |items| && RegisterAll(t, items[..k]).None?
    ensures RegisterAll(t, items).None?
  {
    if RegisterAll(t, items).Some? { RegisterAllPrefix(t, items, k); }
  }

  /** Every tree is sound and holds only what `add` lets through. */
  ghost predicate TreesOk(tables: Tables) {
    forall m :: m in tables ==> TableOk(tables[m]) && TreeOk(m, tables[m])
  }

  /** An include goes through: the prefix is legal and no route it brings clashes. */
  ghost predicate Includable(parent: Tables, child: Tables, prefix: string) {
    PrefixOk(prefix) && forall m :: m in child ==> NoClash(TableFor(parent, m), child[m], Normalise(prefix))
  }

  /** The trees after an include that went through: per method, and nothing for the others. */
  ghost predicate Included(parent: Tables, child: Tables, prefix: string, outer: seq<Middleware>, after: Tables) {
    && (forall m :: m in child ==> Merged(TableFor(parent, m), child[m], Normalise(prefix), outer, TableFor(after, m)))
    && (forall m :: m !in child ==> (m in after <==> m in parent) && TableFor(after, m) == TableFor(parent, m))
  }

  /** The checks that `add` makes of everything but conflicts. */
  predicate Clean(x: Pending) {
    x.httpMethod != "" && x.entry.fn.Fn? && !Foreign(x.path)
  }

  lemma {:induction false} BroughtClean(m: string, t: Table<Entry>, prefix: string, outer: seq<Middleware>)
    requires TableOk(t) && TreeOk(m, t) && PrefixOk(prefix)
    ensures AllClean(Group(m, Brought(t, Normalise(prefix), outer)))
  {
    NormaliseShape(prefix);
    forall i | 0 <= i < |t.log| ensures Clean(Group(m, Brought(t, Normalise(prefix), outer))[i]) {
      assert Logged(t.log, Read(t.log[i]).value);
      ForeignConcat(Normalise(prefix), t.log[i]);
    }
  }

  predicate AllClean(pending: seq<Pending>) {
    forall i :: 0 <= i < |pending| ==> Clean(pending[i])
  }

  lemma {:induction false} AllCleanConcat(a: seq<Pending>, b: seq<Pending>)
    requires AllClean(a) && AllClean(b)
    ensures AllClean(a + b)
  {
  }

  // ---- The plan of an include ----

  /** An include to be made. */
  datatype Job = Job(parent: Tables, child: Tables, prefix: string, outer: seq<Middleware>)

  ghost predicate JobOk(j: Job) {
    TreesOk(j.parent) && TreesOk(j.child) && PrefixOk(j.prefix)
  }

  /** What the job brings for one method. */
  function Items(j: Job, m: string): seq<(string, Entry)> {
    Brought(TableFor(j.child, m), Normalise(j.prefix), j.outer)
  }

  ghost predicate Accepted(j: Job, m: string) {
    RegisterAll(TableFor(j.parent, m), Items(j, m)).Some?
  }

  /** The registrations planned for the methods of `order`. */
  function PlanOf(j: Job, order: seq<string>): seq<Pending> {
    if order == [] then [] else
    var m := order[|order| - 1];
    PlanOf(j, order[..|order| - 1]) + Group(m, Items(j, m))
  }

  ghost predicate AllAccepted(j: Job, order: seq<string>) {
    order == [] || (AllAccepted(j, order[..|order| - 1]) && Accepted(j, order[|order| - 1]))
  }

  predicate NoRepeat(order: seq<string>) {
    order == [] || (NoRepeat(order[..|order| - 1]) && order[|order| - 1] !in order[..|order| - 1])
  }

  /** The plan takes the parent's trees to `after`: each planned method by its own batch, the others not at all. */
  ghost predicate LeadsTo(j: Job, order: seq<string>, after: Tables) {
    && AddAll(j.parent, PlanOf(j, order)) == Some(after)
    && (forall m :: m !in order ==> TableFor(after, m) == TableFor(j.parent, m) && (m in after <==> m in j.parent))
    && (forall m :: m in order ==> RegisterAll(TableFor(j.parent, m), Items(j, m)) == Some(TableFor(after, m)))
  }

  lemma {:induction false} LeadsOn(j: Job, order: seq<string>, m: string, before: Tables)
    requires LeadsTo(j, order, before) && m !in order && Accepted(j, m)
    ensures LeadsTo(j, order + [m], Updated(before, m, Items(j, m)))
  {
    var items := Items(j, m);
    var after := Updated(before, m, items);
    var longer := order + [m];
    assert longer[..|longer| - 1] == order;
    GroupAdds(j.parent, PlanOf(j, order), m, items, before);
    assert TableFor(after, m) == RegisterAll(TableFor(j.parent, m), items).value;
    forall n | n != m ensures TableFor(after, n) == TableFor(before, n) && (n in after <==> n in before) { }
  }

  /** A plan whose batches are all accepted can be carried out. */
  lemma {:induction false} PlanLeads(j: Job, order: seq<string>) returns (after: Tables)
    requires NoRepeat(order) && AllAccepted(j, order)
    ensures LeadsTo(j, order, after)
    decreases |order|
  {
    if order == [] {
      after := j.parent;
    } else {
      var init, m := order[..|order| - 1], order[|order| - 1];
      var before := PlanLeads(j, init);
      InitLast(order);
      LeadsOn(j, init, m, before);
      after := Updated(before, m, Items(j, m));
    }
  }

  /** The tree of one method in each router is sound. */
  lemma {:induction false} JobAt(j: Job, m: string)
    requires JobOk(j) && m in j.child
    ensures TableFor(j.child, m) == j.child[m]
    ensures TableOk(TableFor(j.parent, m)) && TableOk(j.child[m]) && TreeOk(m, j.child[m])
  {
    EmptyOk();
  }

  lemma {:induction false} PlanClean(j: Job, order: seq<string>)
    requires JobOk(j) && forall k :: 0 <= k < |order| ==> order[k] in j.child
    ensures AllClean(PlanOf(j, order))
    decreases |order|
  {
    if order != [] {
      var init, m := order[..|order| - 1], order[|order| - 1];
      PlanClean(j, init);
      JobAt(j, m);
      BroughtClean(m, j.child[m], j.prefix, j.outer);
      AllCleanConcat(PlanOf(j, init), Group(m, Items(j, m)));
    }
  }

  lemma {:induction false} AcceptedExactly(j: Job, m: string)
    requires JobOk(j) && m in j.child
    ensures Accepted(j, m) <==> NoClash(TableFor(j.parent, m), j.child[m], Normalise(j.prefix))
  {
    JobAt(j, m);
    IncludeExactly(TableFor(j.parent, m), j.child[m], j.prefix, j.outer);
  }

  lemma {:induction false} AllAcceptedAt(j: Job, order: seq<string>, k: nat)
    requires AllAccepted(j, order) && k < |order|
    ensures Accepted(j, order[k])
    decreases |order|
  {
    if k < |order| - 1 { AllAcceptedAt(j, order[..|order| - 1], k); }
  }

  ghost predicate Visited(all: set<string>, rest: set<string>, order: seq<string>) {
    forall m :: m in order <==> m in all && m !in rest
  }

  ghost predicate Complete(j: Job, order: seq<string>) {
    forall m :: m in order <==> m in j.child
  }

  lemma {:induction false} MethodMerged(j: Job, m: string, t: Table<Entry>)
    requires JobOk(j) && m in j.child && RegisterAll(TableFor(j.parent, m), Items(j, m)) == Some(t)
    ensures Merged(TableFor(j.parent, m), j.child[m], Normalise(j.prefix), j.outer, t)
  {
    JobAt(j, m);
    IncludeMerges(TableFor(j.parent, m), j.child[m], j.prefix, j.outer);
  }

  /** A plan for all the methods, carried out, is the include that was asked for. */
  lemma {:induction false} PlanIncludes(j: Job, order: seq<string>, after: Tables)
    requires JobOk(j) && Complete(j, order) && LeadsTo(j, order, after)
    ensures Included(j.parent, j.child, j.prefix, j.outer, after)
  {
    forall m | m in j.child ensures Merged(TableFor(j.parent, m), j.child[m], Normalise(j.prefix), j.outer, TableFor(after, m)) {
      assert m in order;
      MethodMerged(j, m, TableFor(after, m));
    }
    forall m | m !in j.child ensures (m in after <==> m in j.parent) && TableFor(after, m) == TableFor(j.parent, m) {
      assert m !in order;
    }
  }

  lemma {:induction false} OrderSnoc(j: Job, order: seq<string>, m: string)
    requires AllAccepted(j, order) && NoRepeat(order) && m !in order && Accepted(j, m)
    ensures AllAccepted(j, order + [m]) && NoRepeat(order + [m])
    ensures PlanOf(j, order + [m]) == PlanOf(j, order) + Group(m, Items(j, m))
  {
    assert (order + [m])[..|order|] == order;
  }

  lemma {:induction false} PlanIncludable(j: Job, order: seq<string>)
    requires JobOk(j) && Complete(j, order) && AllAccepted(j, order)
    ensures Includable(j.parent, j.child, j.prefix)
  {
    forall m | m in j.child ensures NoClash(TableFor(j.parent, m), j.child[m], Normalise(j.prefix)) {
      assert m in order;
      var k :| 0 <= k < |order| && order[k] == m;
      AllAcceptedAt(j, order, k);
      AcceptedExactly(j, m);
    }
  }

  lemma {:induction false} CommitStep(start: Tables, pending: seq<Pending>, k: nat, now: Tables)
    requires AddAll(start, pending).Some? && k < |pending| && AddAll(start, pending[..k]) == Some(now)
    ensures AddOne(now, pending[k]).Some? && AddAll(start, pending[..k + 1]) == AddOne(now, pending[k])
  {
    AddAllPrefix(start, pending, k + 1);
    PrefixSnoc(pending, k);
    AddAllSnoc(start, pending[..k], pending[k]);
  }

  /** A registration, and an empty tree left by a refused one, keep every tree sound. */
  lemma {:induction false} AddKeeps(tables: Tables, x: Pending)
    requires TreesOk(tables)
    ensures x.httpMethod != "" ==> TreesOk(tables[x.httpMethod := TableFor(tables, x.httpMethod)])
    ensures Clean(x) && AddOne(tables, x).Some? ==> TreesOk(AddOne(tables, x).value)
  {
    var m := x.httpMethod;
    var t := TableFor(tables, m);
    if m != "" {
      TreeAt(tables, m);
      TreesUpdated(tables, m, t);
    }
    if Clean(x) && AddOne(tables, x).Some? {
      RegisterKeeps(t, x.path, x.entry);
      TreeGrows(m, t, x.path, x.entry);
      TreesUpdated(tables, m, Register(t, x.path, x.entry).value);
    }
  }

  lemma {:induction false} TreeAt(tables: Tables, m: string)
    requires TreesOk(tables) && m != ""
    ensures TableOk(TableFor(tables, m)) && TreeOk(m, TableFor(tables, m))
  {
    EmptyOk();
  }

  lemma {:induction false} TreesUpdated(tables: Tables, m: string, t: Table<Entry>)
    requires TreesOk(tables) && TableOk(t) && TreeOk(m, t)
    ensures TreesOk(tables[m := t])
  {
  }

  lemma {:induction false} AddAllKeeps(tables: Tables, pending: seq<Pending>)
    requires TreesOk(tables) && AllClean(pending) && AddAll(tables, pending).Some?
    ensures TreesOk(AddAll(tables, pending).value)
    decreases |pending|
  {
    if pending != [] {
      var init := pending[..|pending| - 1];
      AddAllKeeps(tables, init);
      AddKeeps(AddAll(tables, init).value, pending[|pending| - 1]);
    }
  }

  /** A plan can be carried out to the end. */
  lemma {:induction false} PlanRuns(j: Job, order: seq<string>) returns (after: Tables)
    requires JobOk(j) && AllAccepted(j, order) && NoRepeat(order) && Complete(j, order)
    ensures LeadsTo(j, order, after) && AllClean(PlanOf(j, order)) && TreesOk(after)
  {
    after := PlanLeads(j, order);
    PlanClean(j, order);
    AddAllKeeps(j.parent, PlanOf(j, order));
  }

  method PlanMethod(j: Job, norm: string, m: string) returns (r: Outcome, items: seq<(string, Entry)>)
    requires JobOk(j) && norm == Normalise(j.prefix) && m in j.child
    ensures r == Done ==> Accepted(j, m) && items == Items(j, m)
    ensures r != Done ==> r == Refused && !Includable(j.parent, j.child, j.prefix)
  {
    JobAt(j, m);
    r, items := PlanFor(TableFor(j.parent, m), j.child[m], norm, j.outer);
    AcceptedExactly(j, m);
  }

  /** All the registrations of an include, none of them made yet. */
  method Plan(j: Job, norm: string) returns (r: Outcome, pending: seq<Pending>, ghost order: seq<string>)
    requires JobOk(j) && norm == Normalise(j.prefix)
    ensures r == Done || (r == Refused && !Includable(j.parent, j.child, j.prefix))
    ensures r == Done ==> pending == PlanOf(j, order) && AllAccepted(j, order) && NoRepeat(order) && Complete(j, order)
  {
    var rest := j.child.Keys;
    order, pending := [], [];
    while rest != {}
      invariant rest <= j.child.Keys && Visited(j.child.Keys, rest, order)
      invariant pending == PlanOf(j, order) && AllAccepted(j, order) && NoRepeat(order)
      decreases |rest|
    {
      var m :| m in rest;
      var items;
      r, items := PlanMethod(j, norm, m);
      if r != Done { return; }
      OrderSnoc(j, order, m);
      order, pending := order + [m], pending + Group(m, items);
      rest := rest - {m};
    }
    assert Complete(j, order) by { assert forall m :: m in order <==> m in j.child.Keys; }
    r := Done;
  }

  class WebRouter {
    var trees: Tables
    var middlewares: seq<Middleware>
    var frozen: bool

    ghost predicate Valid()
      reads this
    {
      TreesOk(trees)
    }

    constructor ()
      ensures Valid() && trees == map[] && middlewares == [] && !frozen
    {
      trees, middlewares, frozen := map[], [], false;
    }

    /**
     * Registers one route. A refusal changes nothing, but where it comes from
     * the method's first tree, that tree stays behind, empty.
     */
    method Add(m: string, path: string, fn: Fn, mws: seq<Middleware>) returns (r: Outcome)
      modifies this`trees
      ensures r == Done <==>
        !frozen && Clean(Pending(m, path, Entry(fn, mws))) && AddOne(old(trees), Pending(m, path, Entry(fn, mws))).Some?
      ensures r == Done ==> AddOne(old(trees), Pending(m, path, Entry(fn, mws))) == Some(trees)
      ensures r != Done ==> r == (if frozen then Frozen else Refused)
      ensures r != Done ==>
        trees == if !frozen && Clean(Pending(m, path, Entry(fn, mws))) && m !in old(trees) then old(trees)[m := Empty()] else old(trees)
    {
      if frozen { return Frozen; }
      if m == "" || fn.NoFn? || Has(path, '?') || Has(path, '#') || Has(path, '\0') { return Refused; }
      var entry := Entry(fn, mws);
      if m !in trees { trees := trees[m := Empty()]; }
      var next := Register(trees[m], path, entry);
      if next.None? { return Refused; }
      TwiceUpdated(old(trees), m, Empty(), next.value);
      trees := trees[m := next.value];
      r := Done;
    }

    method Freeze()
      modifies this`frozen
      ensures frozen
    {
      frozen := true;
    }

    /** Makes the planned registrations; none of them can fail. */
    method Commit(pending: seq<Pending>, ghost after: Tables) returns (r: Outcome)
      requires !frozen && AddAll(trees, pending) == Some(after) && AllClean(pending)
      modifies this`trees
      ensures r == Done && trees == after
    {
      var k := 0;
      while k < |pending|
        invariant 0 <= k <= |pending| && AddAll(old(trees), pending[..k]) == Some(trees)
      {
        var x := pending[k];
        CommitStep(old(trees), pending, k, trees);
        r := Add(x.httpMethod, x.path, x.entry.fn, x.entry.middlewares);
        if r != Done { return; }
        k := k + 1;
      }
      InitAll(pending);
      r := Done;
    }

    /**
     * Includes the routes of another router under a prefix: all of them, or
     * none. It goes through exactly when the router is not frozen and not its
     * own child, the prefix is legal, and no route brought clashes with a
     * route of the same method here; no other outcome than a refusal before
     * the first change is possible.
     */
    method Include(sub: WebRouter, prefix: string) returns (r: Outcome)
      requires Valid() && sub.Valid()
      modifies this`trees
      ensures Valid()
      ensures r == Done <==> !frozen && sub != this && Includable(old(trees), old(sub.trees), prefix)
      ensures r == Done ==> Included(old(trees), old(sub.trees), prefix, sub.middlewares, trees)
      ensures r != Done ==> trees == old(trees) && r == (if frozen then Frozen else Refused)
    {
      if frozen { return Frozen; }
      if this == sub { return Refused; }
      if Has(prefix, '?') || Has(prefix, '#') || Has(prefix, '\0') || DoubleSlash(prefix) { return Refused; }
      var norm := Normalise(prefix);
      if norm != "" && (Has(norm, '*') || Register(Table(map[], []), norm, true).None?) { return Refused; }
      var j := Job(trees, sub.trees, prefix, sub.middlewares);
      var p, pending, order := Plan(j, norm);
      if p != Done { return p; }
      ghost var after := PlanRuns(j, order);
      PlanIncludes(j, order, after);
      PlanIncludable(j, order);
      r := Commit(pending, after);
    }
  }

  lemma {:induction false} EmptyOk()
    ensures TableOk(Empty())
  {
  }

}
