/**
 * Adding a pattern to the trie: the nodes it creates, when it is refused, and
 * what it does to the table of registered patterns (router/radix_router.h).
 */
module RouteBuild {
  import opened RoutePattern
  import opened RouteTrie

  // ---- The sorted list of static children ----

  /** Where `t` belongs: before the first text that is not smaller. */
  function PlaceOf(list: seq<(string, nat)>, t: string): (k: nat)
    ensures k <= |list|
  {
    if list == [] || !Less(list[0].0, t) then 0 else 1 + PlaceOf(list[1..], t)
  }

  /** In a sorted list, everything before the place is smaller and nothing from it on is. */
  lemma {:induction false} PlaceExact(list: seq<(string, nat)>, t: string)
    requires Sorted(list)
    ensures forall a :: 0 <= a < PlaceOf(list, t) ==> Less(list[a].0, t)
    ensures forall b :: PlaceOf(list, t) <= b < |list| ==> !Less(list[b].0, t)
  {
    if list != [] {
      if Less(list[0].0, t) {
        SortedTail(list);
        PlaceExact(list[1..], t);
        forall b | PlaceOf(list, t) <= b < |list| ensures !Less(list[b].0, t) { assert list[b] == list[1..][b - 1]; }
      } else {
        forall b | 0 < b < |list| ensures !Less(list[b].0, t) {
          if Less(list[b].0, t) { LessTransitive(list[0].0, list[b].0, t); }
        }
      }
    }
  }

  function InsertAt<T>(s: seq<T>, k: nat, x: T): seq<T>
    requires k <= |s|
  {
    s[..k] + [x] + s[k..]
  }

  predicate Absent(list: seq<(string, nat)>, t: string) {
    forall k :: 0 <= k < |list| ==> list[k].0 != t
  }

  lemma InsertSorted(list: seq<(string, nat)>, t: string, n: nat)
    requires Sorted(list) && Absent(list, t)
    ensures Sorted(InsertAt(list, PlaceOf(list, t), (t, n)))
  {
    var k := PlaceOf(list, t);
    var r := InsertAt(list, k, (t, n));
    PlaceExact(list, t);
    forall b | k <= b < |list| ensures Less(t, list[b].0) { LessTotal(list[b].0, t); }
    forall a, b | 0 <= a < b < |r| ensures Less(r[a].0, r[b].0) {
      var x := if a < k then list[a].0 else if a == k then t else list[a - 1].0;
      var y := if b < k then list[b].0 else if b == k then t else list[b - 1].0;
      assert r[a].0 == x && r[b].0 == y;
    }
  }

  /** The sorted list is a map: inserting changes the answer for `t` alone. */
  lemma {:induction false} InsertIsUpdate(list: seq<(string, nat)>, k: nat, t: string, n: nat, u: string)
    requires k <= |list| && Absent(list, t)
    ensures ChildNamed(InsertAt(list, k, (t, n)), u) == if u == t then n else ChildNamed(list, u)
  {
    var r := InsertAt(list, k, (t, n));
    if k == 0 {
      assert r[1..] == list;
    } else {
      assert r[0] == list[0] && r[1..] == InsertAt(list[1..], k - 1, (t, n));
      forall i | 0 <= i < |list[1..]| ensures list[1..][i].0 != t { assert list[i + 1].0 != t; }
      InsertIsUpdate(list[1..], k - 1, t, n, u);
    }
  }

  lemma NoChildAbsent(list: seq<(string, nat)>, n: nat, t: string)
    requires Sorted(list) && Entries(list, n) && ChildNamed(list, t) == 0
    ensures Absent(list, t)
  {
    forall k | 0 <= k < |list| ensures list[k].0 != t { ChildNamedAt(list, k); }
  }

  // ---- One new node ----

  function WithChild<V>(n: Node<V>, g: Seg, c: nat): Node<V> {
    match g
    case Static(t) => n.(statics := InsertAt(n.statics, PlaceOf(n.statics, t), (t, c)))
    case Param(_) => n.(param := c)
    case Wild(_) => n.(wild := c)
  }

  function Blank<V>(g: Seg): Node<V> {
    Node([], 0, 0, if g.Static? then "" else g.name, None)
  }

  function Link<V>(pool: seq<Node<V>>, i: nat, g: Seg): seq<Node<V>>
    requires i < |pool|
  {
    pool[i := WithChild(pool[i], g, |pool|)] + [Blank(g)]
  }

  lemma LinkFresh<V>(pool: seq<Node<V>>, pat: seq<Pattern>, i: nat, g: Seg)
    requires Trie(pool, pat) && i < |pool| && ChildAt(pool, i, g) == 0
    ensures pat[i] + [g] !in pat
  {
    var q := pat[i] + [g];
    if q in pat {
      var j: nat :| j < |pat| && pat[j] == q;
      assert pat[i] <= pat[j] && pat[j][|pat[i]|] == g;
      StepDown(pool, pat, i, j);
    }
  }

  /** Every child that was there is still found, and the new one is. */
  lemma LinkChildren<V>(pool: seq<Node<V>>, pat: seq<Pattern>, i: nat, g: Seg, m: nat, h: Seg)
    requires Trie(pool, pat) && i < |pool| && ChildAt(pool, i, g) == 0 && m < |pool|
    ensures ChildAt(Link(pool, i, g), i, g) == |pool|
    ensures ChildAt(pool, m, h) != 0 ==> ChildAt(Link(pool, i, g), m, h) == ChildAt(pool, m, h)
  {
    assert NodeOk(pool, pat, i);
    if g.Static? {
      var list := pool[i].statics;
      NoChildAbsent(list, |pool|, g.text);
      InsertIsUpdate(list, PlaceOf(list, g.text), g.text, |pool|, g.text);
      if h.Static? { InsertIsUpdate(list, PlaceOf(list, g.text), g.text, |pool|, h.text); }
    }
  }

  lemma LinkStatics<V>(pool: seq<Node<V>>, pat: seq<Pattern>, i: nat, g: Seg, m: nat)
    requires Trie(pool, pat) && i < |pool| && ChildAt(pool, i, g) == 0 && m < |pool|
    ensures StaticsOk(Link(pool, i, g), pat + [pat[i] + [g]], m)
  {
    assert NodeOk(pool, pat, m);
    if m == i && g.Static? {
      var list := pool[i].statics;
      var k := PlaceOf(list, g.text);
      var r := InsertAt(list, k, (g.text, |pool|));
      NoChildAbsent(list, |pool|, g.text);
      InsertSorted(list, g.text, |pool|);
      var pat' := pat + [pat[i] + [g]];
      forall a | 0 <= a < |r| ensures 0 < r[a].1 < |pool| + 1 && pat'[r[a].1] == pat[i] + [Static(r[a].0)] {
        if a < k { assert r[a] == list[a]; } else if a > k { assert r[a] == list[a - 1]; }
      }
    }
  }

  lemma LinkNode<V>(pool: seq<Node<V>>, pat: seq<Pattern>, i: nat, g: Seg, m: nat)
    requires Trie(pool, pat) && i < |pool| && ChildAt(pool, i, g) == 0 && m < |pool|
    ensures NodeOk(Link(pool, i, g), pat + [pat[i] + [g]], m)
  {
    var pool', pat' := Link(pool, i, g), pat + [pat[i] + [g]];
    assert NodeOk(pool, pat, m);
    LinkStatics(pool, pat, i, g, m);
    if m > 0 {
      var f: nat :| ParentOf(pool, pat, f, m);
      LinkChildren(pool, pat, i, g, f, pat[m][|pat[m]| - 1]);
      assert ParentOf(pool', pat', f, m);
    }
  }

  /** Hanging a new node under `i` gives a trie again. */
  lemma LinkKeeps<V>(pool: seq<Node<V>>, pat: seq<Pattern>, i: nat, g: Seg)
    requires Trie(pool, pat) && i < |pool| && ChildAt(pool, i, g) == 0 && WellFormed(pat[i] + [g])
    ensures Trie(Link(pool, i, g), pat + [pat[i] + [g]])
  {
    var pool', pat' := Link(pool, i, g), pat + [pat[i] + [g]];
    var n := |pool|;
    LinkFresh(pool, pat, i, g);
    assert Unique(pat') by {
      forall a, b | 0 <= a < b < |pat'| ensures pat'[a] != pat'[b] {
        assert a < n && pat'[a] == pat[a] && pat[a] in pat;
      }
    }
    forall m: nat | m < |pool'| ensures NodeOk(pool', pat', m) {
      if m < n {
        LinkNode(pool, pat, i, g, m);
      } else {
        LinkChildren(pool, pat, i, g, i, g);
        assert pat'[n][..|pat'[n]| - 1] == pat[i];
        assert ParentOf(pool', pat', i, n);
      }
    }
  }

  // ---- A whole pattern ----

  /** The pool in which `p` below `i` has its nodes, and the node where it ends. */
  function Graft<V>(pool: seq<Node<V>>, i: nat, p: Pattern): (seq<Node<V>>, nat)
    requires i < |pool|
    decreases |p|
  {
    if p == [] then (pool, i) else
    var (pool', c) := Descend(pool, i, p[0]);
    Graft(pool', c, p[1..])
  }

  /** `p` below `i` names no dynamic position differently from the nodes it passes. */
  predicate Agrees<V>(pool: seq<Node<V>>, i: nat, p: Pattern)
    requires i < |pool|
    decreases |p|
  {
    if p == [] then true else
    var c := ChildAt(pool, i, p[0]);
    0 < c < |pool| ==> (p[0].Static? || pool[c].name == p[0].name) && Agrees(pool, c, p[1..])
  }

  ghost predicate ClashFree(pat: seq<Pattern>, a: Pattern, p: Pattern) {
    forall j: nat, k: nat :: j < |pat| && |a| <= k ==> !ConflictAt(a + p, pat[j], k)
  }

  /** A conflict at the head can only be with the child in that direction. */
  lemma HeadClash<V>(pool: seq<Node<V>>, pat: seq<Pattern>, i: nat, p: Pattern, j: nat, k: nat)
    requires Trie(pool, pat) && i < |pool| && p != [] && j < |pool| && k >= |pat[i]|
    requires ConflictAt(pat[i] + p, pat[j], k)
    ensures var c := ChildAt(pool, i, p[0]);
      0 < c < |pool| && (k == |pat[i]| ==> !p[0].Static? && pool[c].name != p[0].name)
  {
    var n := |pat[i]|;
    var q := pat[i] + p;
    assert q[..n] == pat[i] && q[n] == p[0];
    assert q[..k][..n] == q[..n] && pat[j][..k][..n] == pat[j][..n];
    assert pat[i] <= pat[j];
    StepDown(pool, pat, i, j);
    var g := pat[j][n];
    ChildPattern(pool, pat, i, g);
    if k > n { assert q[..k][n] == q[n] && pat[j][..k][n] == g; }
  }

  lemma Prepend(a: Pattern, p: Pattern)
    requires p != []
    ensures (a + [p[0]]) + p[1..] == a + p
  {
  }

  /** The walk agrees with every node exactly when the pattern conflicts with none. */
  lemma {:induction false} AgreesExactly<V>(pool: seq<Node<V>>, pat: seq<Pattern>, i: nat, p: Pattern)
    requires Trie(pool, pat) && i < |pool|
    ensures Agrees(pool, i, p) <==> ClashFree(pat, pat[i], p)
    decreases |p|
  {
    if p == [] {
      assert pat[i] + p == pat[i];
    } else {
      var c := ChildAt(pool, i, p[0]);
      ChildPattern(pool, pat, i, p[0]);
      forall j: nat, k: nat | j < |pool| && k >= |pat[i]| && ConflictAt(pat[i] + p, pat[j], k)
        ensures 0 < c < |pool| && (k == |pat[i]| ==> !p[0].Static? && pool[c].name != p[0].name)
      {
        HeadClash(pool, pat, i, p, j, k);
      }
      if 0 < c < |pool| {
        if p[0].Static? || pool[c].name == p[0].name {
          assert pat[c] == pat[i] + [p[0]];
          Prepend(pat[i], p);
          AgreesExactly(pool, pat, c, p[1..]);
        } else {
          var k := |pat[i]|;
          assert (pat[i] + p)[..k] == pat[i] == pat[c][..k];
          assert ConflictAt(pat[i] + p, pat[c], k);
        }
      }
    }
  }

  /** What grafting `p` under `i` keeps and adds. */
  ghost predicate Grown<V>(pool: seq<Node<V>>, pat: seq<Pattern>, pool': seq<Node<V>>, pat': seq<Pattern>, p: Pattern) {
    && Trie(pool', pat') && pat <= pat' && |pool| == |pat|
    && (forall j :: 0 <= j < |pool| ==> pool'[j].value == pool[j].value)
    && (forall j :: |pool| <= j < |pool'| ==> pool'[j].value.None? && pat'[j] <= p)
  }

  lemma WellFormedPrefix(p: Pattern, k: nat)
    requires WellFormed(p) && k <= |p|
    ensures WellFormed(p[..k])
  {
  }

  /** Where the head of a pattern leads, after creating the node if it is missing. */
  function Descend<V>(pool: seq<Node<V>>, i: nat, g: Seg): (r: (seq<Node<V>>, nat))
    requires i < |pool|
    ensures r.1 < |r.0|
  {
    var c := ChildAt(pool, i, g);
    if 0 < c < |pool| then (pool, c) else (Link(pool, i, g), |pool|)
  }

  lemma DescendSorted<V>(pool: seq<Node<V>>, i: nat, g: Seg)
    requires Closed(pool) && AllSorted(pool) && i < |pool|
    ensures Closed(Descend(pool, i, g).0) && AllSorted(Descend(pool, i, g).0)
  {
    var n := |pool|;
    if g.Static? { ChildInRange(pool, i, g.text); }
    if ChildAt(pool, i, g) == 0 && g.Static? {
      var list := pool[i].statics;
      NoChildAbsent(list, n, g.text);
      InsertSorted(list, g.text, n);
      InsertEntries(list, PlaceOf(list, g.text), g.text, n);
    }
    assert forall m :: 0 <= m < n ==> Entries(pool[m].statics, n + 1);
  }

  lemma InsertEntries(list: seq<(string, nat)>, k: nat, t: string, n: nat)
    requires Entries(list, n) && k <= |list| && n > 0
    ensures Entries(InsertAt(list, k, (t, n)), n + 1)
  {
  }

  /** One step down keeps the trie and leaves the rest of the pattern free of conflict. */
  lemma DescendKeeps<V>(pool: seq<Node<V>>, pat: seq<Pattern>, i: nat, p: Pattern) returns (pat': seq<Pattern>)
    requires Trie(pool, pat) && i < |pool| && p != [] && WellFormed(pat[i] + p) && ClashFree(pat, pat[i], p)
    ensures
      var (pool', c) := Descend(pool, i, p[0]);
      && Grown(pool, pat, pool', pat', pat[i] + p) && c < |pat'|
      && pat'[c] + p[1..] == pat[i] + p && ClashFree(pat', pat'[c], p[1..])
  {
    var g, c := p[0], ChildAt(pool, i, p[0]);
    ChildPattern(pool, pat, i, g);
    AgreesExactly(pool, pat, i, p);
    Prepend(pat[i], p);
    var q := pat[i] + [g];
    if 0 < c < |pool| {
      assert pat[c] == q;
      pat' := pat;
    } else {
      WellFormedPrefix(pat[i] + p, |q|);
      assert (pat[i] + p)[..|q|] == q;
      LinkKeeps(pool, pat, i, g);
      pat' := pat + [q];
      assert pat'[|pool|] == q;
      forall j: nat, k: nat | j < |pat'| && |q| <= k ensures !ConflictAt(q + p[1..], pat'[j], k) {
        if j < |pat| { assert !ConflictAt(pat[i] + p, pat[j], k); }
      }
    }
  }

  /** A pattern without conflict gets a node of its own; no value changes. */
  lemma {:induction false} GraftKeeps<V>(pool: seq<Node<V>>, pat: seq<Pattern>, i: nat, p: Pattern) returns (pat': seq<Pattern>)
    requires Trie(pool, pat) && i < |pool| && WellFormed(pat[i] + p) && ClashFree(pat, pat[i], p)
    ensures
      var (pool', end) := Graft(pool, i, p);
      Grown(pool, pat, pool', pat', pat[i] + p) && end < |pool'| && pat'[end] == pat[i] + p
    decreases |p|
  {
    if p == [] {
      assert pat[i] + p == pat[i];
      pat' := pat;
    } else {
      var pat1 := DescendKeeps(pool, pat, i, p);
      var (pool1, c) := Descend(pool, i, p[0]);
      pat' := GraftKeeps(pool1, pat1, c, p[1..]);
    }
  }

  // ---- Finding a pattern, not a path ----

  /** The node reached by `p` below `i`, dynamic segments by kind and name. */
  function Walk<V>(pool: seq<Node<V>>, i: nat, p: Pattern): Option<nat>
    requires i < |pool|
    decreases |p|
  {
    if p == [] then Some(i) else
    var c := ChildAt(pool, i, p[0]);
    if !(0 < c < |pool|) || (!p[0].Static? && pool[c].name != p[0].name) then None else Walk(pool, c, p[1..])
  }

  /** Walking finds the node of a pattern exactly when there is one. */
  lemma {:induction false} WalkExact<V>(pool: seq<Node<V>>, pat: seq<Pattern>, i: nat, p: Pattern)
    requires Trie(pool, pat) && i < |pool|
    ensures
      match Walk(pool, i, p)
      case None => pat[i] + p !in pat
      case Some(j) => j < |pool| && pat[j] == pat[i] + p
    decreases |p|
  {
    if p == [] {
      assert pat[i] + p == pat[i];
    } else {
      var c := ChildAt(pool, i, p[0]);
      ChildPattern(pool, pat, i, p[0]);
      Prepend(pat[i], p);
      forall j: nat | j < |pat| && pat[j] == pat[i] + p ensures 0 < c < |pool| && pat[c] == pat[i] + [p[0]] {
        assert pat[i] <= pat[j] && pat[j][|pat[i]|] == p[0];
        StepDown(pool, pat, i, j);
      }
      if 0 < c < |pool| && (p[0].Static? || pool[c].name == p[0].name) {
        WalkExact(pool, pat, c, p[1..]);
      } else if 0 < c < |pool| {
        assert pat[c][|pat[i]|] != p[0];
      }
    }
  }

  // ---- The table of registered patterns ----

  /** The patterns that end somewhere in the trie, with their values. */
  ghost function Routes<V>(pool: seq<Node<V>>, pat: seq<Pattern>): map<Pattern, V>
    requires Trie(pool, pat)
  {
    map i | 0 <= i < |pool| && pool[i].value.Some? :: pat[i] := pool[i].value.value
  }

  ghost predicate OnRoute<V>(pool: seq<Node<V>>, pat: seq<Pattern>, j: nat, e: nat)
    requires |pool| == |pat| && j < |pat|
  {
    e < |pool| && pool[e].value.Some? && pat[j] <= pat[e]
  }

  ghost predicate Leads<V>(pool: seq<Node<V>>, pat: seq<Pattern>, j: nat)
    requires |pool| == |pat| && j < |pat|
  {
    exists e: nat :: OnRoute(pool, pat, j, e)
  }

  /** No node is there for nothing: below each one but the root some pattern ends. */
  ghost predicate Tidy<V>(pool: seq<Node<V>>, pat: seq<Pattern>)
    requires |pool| == |pat|
  {
    forall j: nat :: 0 < j < |pool| ==> Leads(pool, pat, j)
  }

  /** Walking from the root tells whether a pattern is registered, and its value. */
  lemma WalkRoutes<V>(pool: seq<Node<V>>, pat: seq<Pattern>, p: Pattern)
    requires Trie(pool, pat)
    ensures
      match Walk(pool, 0, p)
      case None => p !in Routes(pool, pat)
      case Some(j) =>
        j < |pool| && pool[j].value == if p in Routes(pool, pat) then Some(Routes(pool, pat)[p]) else None
  {
    WalkExact(pool, pat, 0, p);
    assert pat[0] + p == p;
    if p in Routes(pool, pat) {
      var i :| 0 <= i < |pool| && pool[i].value.Some? && pat[i] == p;
      assert pat[i] in pat;
    }
  }

  function Mark<V>(pool: seq<Node<V>>, end: nat, v: V): seq<Node<V>>
    requires end < |pool|
  {
    pool[end := pool[end].(value := Some(v))]
  }

  lemma MarkTrie<V>(pool: seq<Node<V>>, pat: seq<Pattern>, end: nat, v: V)
    requires Trie(pool, pat) && end < |pool|
    ensures Trie(Mark(pool, end, v), pat)
  {
    var pool' := Mark(pool, end, v);
    forall m: nat | m < |pool'| ensures NodeOk(pool', pat, m) {
      assert NodeOk(pool, pat, m);
      if m > 0 {
        var f: nat :| ParentOf(pool, pat, f, m);
        assert ParentOf(pool', pat, f, m);
      }
    }
  }

  /** Registering puts one pattern into the table and leaves the others their values. */
  lemma MarkRoutes<V>(pool: seq<Node<V>>, pat: seq<Pattern>, pool': seq<Node<V>>, pat': seq<Pattern>, end: nat, v: V)
    requires Trie(pool, pat) && end < |pool'| && |pool'| == |pat'| && Grown(pool, pat, pool', pat', pat'[end])
    requires Trie(Mark(pool', end, v), pat')
    ensures Routes(Mark(pool', end, v), pat') == Routes(pool, pat)[pat'[end] := v]
  {
    var done := Mark(pool', end, v);
    var a, b := Routes(done, pat'), Routes(pool, pat)[pat'[end] := v];
    forall q | q in a ensures q in b && b[q] == a[q] {
      var i :| 0 <= i < |done| && done[i].value.Some? && pat'[i] == q;
      if i != end { assert i < |pool| && pat[i] == q && pool[i].value.Some?; }
    }
    forall q | q in b ensures q in a {
      if q == pat'[end] { assert done[end].value.Some?; }
      else {
        var i :| 0 <= i < |pool| && pool[i].value.Some? && pat[i] == q;
        assert pat'[i] == q && done[i].value.Some?;
      }
    }
  }

  lemma MarkTidy<V>(pool: seq<Node<V>>, pat: seq<Pattern>, pool': seq<Node<V>>, pat': seq<Pattern>, end: nat, v: V)
    requires |pool| == |pat| && Tidy(pool, pat)
    requires end < |pool'| && |pool'| == |pat'| && Grown(pool, pat, pool', pat', pat'[end])
    ensures Tidy(Mark(pool', end, v), pat')
  {
    var done := Mark(pool', end, v);
    forall j: nat | 0 < j < |done| ensures Leads(done, pat', j) {
      if j < |pool| {
        assert Leads(pool, pat, j);
        var e: nat :| OnRoute(pool, pat, j, e);
        assert OnRoute(done, pat', j, e);
      } else {
        assert OnRoute(done, pat', j, end);
      }
    }
  }

  lemma ConflictLonger(p: Pattern, q: Pattern, r: Pattern, k: nat)
    requires ConflictAt(p, q, k) && q <= r
    ensures Conflict(p, r)
  {
    assert r[..k] == q[..k];
    assert ConflictAt(p, r, k);
  }

  /** A pattern is free of every node of the trie exactly when it conflicts with no registered one. */
  lemma AgreesByRoutes<V>(pool: seq<Node<V>>, pat: seq<Pattern>, p: Pattern)
    requires Trie(pool, pat) && Tidy(pool, pat)
    ensures Agrees(pool, 0, p) <==> forall q :: q in Routes(pool, pat) ==> !Conflict(p, q)
  {
    AgreesExactly(pool, pat, 0, p);
    assert [] + p == p;
    if ClashFree(pat, [], p) {
      forall q | q in Routes(pool, pat) ensures !Conflict(p, q) {
        var i :| 0 <= i < |pool| && pool[i].value.Some? && pat[i] == q;
        forall k: nat ensures !ConflictAt(p, q, k) { assert !ConflictAt([] + p, pat[i], k); }
      }
    }
    if forall q :: q in Routes(pool, pat) ==> !Conflict(p, q) {
      forall j: nat, k: nat | j < |pat| ensures !ConflictAt([] + p, pat[j], k) {
        if j > 0 && ConflictAt(p, pat[j], k) {
          assert Leads(pool, pat, j);
          var e: nat :| OnRoute(pool, pat, j, e);
          assert pat[e] in Routes(pool, pat);
          ConflictLonger(p, pat[j], pat[e], k);
        }
      }
    }
  }

  // ---- Lookup against the table ----

  /** `p` is the registered pattern that a path should reach. */
  ghost predicate Preferred<V>(routes: map<Pattern, V>, parts: seq<string>, p: Pattern) {
    && p in routes && Matches(p, parts)
    && forall q :: q in routes && Matches(q, parts) && q != p ==> Better(p, q)
  }

  /**
   * Lookup from the root, for every trie and every path: there is a hit exactly
   * when a registered pattern matches, and then it is the preferred pattern,
   * with its value and exactly its captures.
   */
  lemma LookupExact<V>(pool: seq<Node<V>>, pat: seq<Pattern>, path: string)
    requires Trie(pool, pat) && Closed(pool)
    ensures
      match Search(pool, 0, path)
      case None => forall q :: q in Routes(pool, pat) ==> !Matches(q, Parts(path))
      case Some(h) =>
        && Preferred(Routes(pool, pat), Parts(path), pat[h.end])
        && Routes(pool, pat)[pat[h.end]] == pool[h.end].value.value
        && h.caps == Bindings(pat[h.end], Parts(path))
  {
    var routes, parts := Routes(pool, pat), Parts(path);
    SearchExact(pool, pat, 0, path);
    var r := Search(pool, 0, path);
    forall q | q in routes && Matches(q, parts)
      ensures r.Some? && (q != pat[r.value.end] ==> Better(pat[r.value.end], q))
    {
      var j: nat :| j < |pool| && pool[j].value.Some? && pat[j] == q;
      FitsExactly(q, parts);
      assert Tail(pat, 0, j) == q;
      assert Under(pool, pat, 0, j, parts);
      if r.Some? { assert Tail(pat, 0, r.value.end) == pat[r.value.end]; }
    }
    if r.Some? {
      var p := pat[r.value.end];
      assert Tail(pat, 0, r.value.end) == p;
      FitsExactly(p, parts);
    }
  }
}
