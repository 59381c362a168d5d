/**
 * The segment trie, as a pool of nodes that refer to each other by index, and
 * the backtracking search over it (router/radix_router.h).
 *
 * `pat` is the proof's view of a pool: the pattern that leads to each node.
 */
module RouteTrie {
  import opened RoutePattern

  /** `param` and `wild` are 0 when there is no such child: the root, node 0, is nobody's child. */
  datatype Node<V> = Node(statics: seq<(string, nat)>, param: nat, wild: nat, name: string, value: Option<V>)

  // ---- Static children, sorted by text ----

  predicate Less(a: string, b: string) {
    b != "" && (a == "" || a[0] < b[0] || (a[0] == b[0] && Less(a[1..], b[1..])))
  }

  lemma {:induction false} LessTransitive(a: string, b: string, c: string)
    requires Less(a, b) && Less(b, c)
    ensures Less(a, c)
  {
    if a != "" && a[0] == b[0] == c[0] { LessTransitive(a[1..], b[1..], c[1..]); }
  }

  lemma {:induction false} LessTotal(a: string, b: string)
    ensures Less(a, b) || Less(b, a) || a == b
    ensures !(Less(a, b) && Less(b, a)) && !Less(a, a)
  {
    if a != "" && b != "" {
      LessTotal(a[1..], b[1..]);
      assert a == [a[0]] + a[1..] && b == [b[0]] + b[1..];
    }
    LessIrreflexive(a);
  }

  lemma {:induction false} LessIrreflexive(a: string)
    ensures !Less(a, a)
  {
    if a != "" { LessIrreflexive(a[1..]); }
  }

  predicate Sorted(list: seq<(string, nat)>) {
    forall a, b :: 0 <= a < b < |list| ==> Less(list[a].0, list[b].0)
  }

  /** The child stored under `t`, or 0. */
  function ChildNamed(list: seq<(string, nat)>, t: string): nat {
    if list == [] then 0 else
    if list[0].0 == t then list[0].1 else ChildNamed(list[1..], t)
  }

  lemma {:induction false} ChildNamedAt(list: seq<(string, nat)>, k: nat)
    requires Sorted(list) && k < |list|
    ensures ChildNamed(list, list[k].0) == list[k].1
  {
    if k > 0 {
      assert Less(list[0].0, list[k].0);
      LessIrreflexive(list[k].0);
      SortedTail(list);
      ChildNamedAt(list[1..], k - 1);
    }
  }

  lemma SortedTail(list: seq<(string, nat)>)
    requires Sorted(list) && list != []
    ensures Sorted(list[1..])
  {
    forall a, b | 0 <= a < b < |list[1..]| ensures Less(list[1..][a].0, list[1..][b].0) {
      assert Less(list[a + 1].0, list[b + 1].0);
    }
  }

  /** An answer other than 0 is an entry; 0 means that no entry has that text, if no child is 0. */
  lemma {:induction false} ChildNamedFound(list: seq<(string, nat)>, t: string) returns (k: nat)
    ensures ChildNamed(list, t) != 0 ==> k < |list| && list[k] == (t, ChildNamed(list, t))
    ensures (forall i :: 0 <= i < |list| ==> list[i].0 != t) ==> ChildNamed(list, t) == 0
  {
    k := 0;
    if list != [] && list[0].0 != t {
      var m := ChildNamedFound(list[1..], t);
      k := m + 1;
      if forall i :: 0 <= i < |list| ==> list[i].0 != t {
        forall i | 0 <= i < |list[1..]| ensures list[1..][i].0 != t { assert list[i + 1].0 != t; }
      }
    }
  }

  // ---- Pools ----

  predicate Entries(list: seq<(string, nat)>, n: nat) {
    forall k :: 0 <= k < |list| ==> 0 < list[k].1 < n
  }

  predicate Closed<V>(pool: seq<Node<V>>) {
    pool != [] &&
    forall i :: 0 <= i < |pool| ==>
      Entries(pool[i].statics, |pool|) && pool[i].param < |pool| && pool[i].wild < |pool|
  }

  predicate AllSorted<V>(pool: seq<Node<V>>) {
    forall i :: 0 <= i < |pool| ==> Sorted(pool[i].statics)
  }

  lemma ChildInRange<V>(pool: seq<Node<V>>, i: nat, t: string)
    requires Closed(pool) && i < |pool|
    ensures ChildNamed(pool[i].statics, t) < |pool|
  {
    var k := ChildNamedFound(pool[i].statics, t);
  }

  /** The child of node `i` in the direction of `g`: dynamic children are found without their name. */
  function ChildAt<V>(pool: seq<Node<V>>, i: nat, g: Seg): nat
    requires i < |pool|
  {
    match g
    case Static(t) => ChildNamed(pool[i].statics, t)
    case Param(_) => pool[i].param
    case Wild(_) => pool[i].wild
  }

  predicate StaticsOk<V>(pool: seq<Node<V>>, pat: seq<Pattern>, i: nat)
    requires i < |pool| == |pat|
  {
    var list := pool[i].statics;
    Sorted(list) &&
    forall k :: 0 <= k < |list| ==> 0 < list[k].1 < |pool| && pat[list[k].1] == pat[i] + [Static(list[k].0)]
  }

  predicate DynamicOk<V>(pool: seq<Node<V>>, pat: seq<Pattern>, i: nat)
    requires i < |pool| == |pat|
  {
    var p, w := pool[i].param, pool[i].wild;
    && (p != 0 ==> p < |pool| && pat[p] == pat[i] + [Param(pool[p].name)])
    && (w != 0 ==> w < |pool| && pat[w] == pat[i] + [Wild(pool[w].name)])
  }

  predicate ParentOf<V>(pool: seq<Node<V>>, pat: seq<Pattern>, m: nat, i: nat)
    requires i < |pool| == |pat|
  {
    m < i && pat[i] != [] && pat[m] == pat[i][..|pat[i]| - 1] && ChildAt(pool, m, pat[i][|pat[i]| - 1]) == i
  }

  ghost predicate NodeOk<V>(pool: seq<Node<V>>, pat: seq<Pattern>, i: nat)
    requires i < |pool| == |pat|
  {
    && StaticsOk(pool, pat, i) && DynamicOk(pool, pat, i) && WellFormed(pat[i])
    && (i > 0 ==> exists m: nat :: ParentOf(pool, pat, m, i))
  }

  predicate Unique(pat: seq<Pattern>) {
    forall i, j :: 0 <= i < j < |pat| ==> pat[i] != pat[j]
  }

  /** `pool` is a trie in which pat[i] leads to node i. */
  ghost predicate Trie<V>(pool: seq<Node<V>>, pat: seq<Pattern>) {
    && |pool| == |pat| > 0 && pat[0] == [] && Unique(pat)
    && forall i: nat :: i < |pool| ==> NodeOk(pool, pat, i)
  }

  lemma TrieClosed<V>(pool: seq<Node<V>>, pat: seq<Pattern>)
    requires Trie(pool, pat)
    ensures Closed(pool) && AllSorted(pool)
  {
    forall i: nat | i < |pool|
      ensures Entries(pool[i].statics, |pool|) && Sorted(pool[i].statics) && pool[i].param < |pool| && pool[i].wild < |pool|
    {
      assert NodeOk(pool, pat, i);
    }
  }

  /** A child found in the direction of `g` is the node that `g` leads to, up to the name. */
  lemma ChildPattern<V>(pool: seq<Node<V>>, pat: seq<Pattern>, i: nat, g: Seg)
    requires Trie(pool, pat) && i < |pool|
    ensures ChildAt(pool, i, g) < |pool|
    ensures g.Static? && ChildAt(pool, i, g) != 0 ==> pat[ChildAt(pool, i, g)] == pat[i] + [g]
    ensures g.Param? && ChildAt(pool, i, g) != 0 ==> pat[pool[i].param] == pat[i] + [Param(pool[pool[i].param].name)]
    ensures g.Wild? && ChildAt(pool, i, g) != 0 ==> pat[pool[i].wild] == pat[i] + [Wild(pool[pool[i].wild].name)]
  {
    assert NodeOk(pool, pat, i);
    if g.Static? { var k := ChildNamedFound(pool[i].statics, g.text); }
  }

  /** Every longer pattern passes through a child of its prefix. */
  lemma {:induction false} StepDown<V>(pool: seq<Node<V>>, pat: seq<Pattern>, i: nat, j: nat)
    requires Trie(pool, pat) && i < |pool| && j < |pool|
    requires pat[i] <= pat[j] && |pat[i]| < |pat[j]|
    ensures
      var g := pat[j][|pat[i]|];
      var c := ChildAt(pool, i, g);
      0 < c < |pool| && pat[c] == pat[i] + [g] && pat[c] <= pat[j]
    decreases |pat[j]|
  {
    assert NodeOk(pool, pat, j);
    var m: nat :| ParentOf(pool, pat, m, j);
    var g := pat[j][|pat[i]|];
    if |pat[m]| == |pat[i]| {
      assert pat[m] == pat[i];
      assert m == i;
    } else {
      assert pat[m][|pat[i]|] == g;
      StepDown(pool, pat, i, m);
    }
  }

  // ---- Search ----

  datatype Hit = Hit(end: nat, caps: seq<(string, string)>)

  /** The depth-first search from node `i`: static child, then parameter, then wildcard. */
  function Search<V>(pool: seq<Node<V>>, i: nat, rest: string): (r: Option<Hit>)
    requires Closed(pool) && i < |pool|
    ensures r.Some? ==> r.value.end < |pool| && pool[r.value.end].value.Some?
    decreases |rest|
  {
    if rest == "" || rest == "/" then
      if pool[i].value.Some? then Some(Hit(i, [])) else None
    else
      var (seg, remaining) := NextSegment(rest);
      ChildInRange(pool, i, seg);
      var child, p, w := ChildNamed(pool[i].statics, seg), pool[i].param, pool[i].wild;
      var a := if seg != "" && child != 0 then Search(pool, child, remaining) else None;
      if a.Some? then a else
      var b := if seg != "" && p != 0 then Search(pool, p, remaining) else None;
      if b.Some? then Some(Hit(b.value.end, [(pool[p].name, seg)] + b.value.caps)) else
      if w != 0 && pool[w].value.Some? then Some(Hit(w, [(pool[w].name, StripSlash(rest))])) else None
  }

  function Tail(pat: seq<Pattern>, i: nat, j: nat): Pattern
    requires i < |pat| && j < |pat| && pat[i] <= pat[j]
  {
    pat[j][|pat[i]|..]
  }

  /** Node `j` ends a registered pattern below `i` whose remainder matches. */
  predicate Under<V>(pool: seq<Node<V>>, pat: seq<Pattern>, i: nat, j: nat, parts: seq<string>)
    requires i < |pool| == |pat|
  {
    j < |pool| && pool[j].value.Some? && pat[i] <= pat[j] && Fits(Tail(pat, i, j), parts)
  }

  /** The three directions in which a match can lie. */
  lemma UnderCases<V>(pool: seq<Node<V>>, pat: seq<Pattern>, i: nat, j: nat, parts: seq<string>)
    requires Trie(pool, pat) && i < |pool| && !AtEnd(parts) && Under(pool, pat, i, j, parts)
    ensures
      var g := Static(parts[0]);
      var c, p, w := ChildAt(pool, i, g), pool[i].param, pool[i].wild;
      || (parts[0] != "" && 0 < c < |pool| && Under(pool, pat, c, j, parts[1..]) && Tail(pat, i, j) == [g] + Tail(pat, c, j))
      || (parts[0] != "" && 0 < p < |pool| && Under(pool, pat, p, j, parts[1..]) && Tail(pat, i, j) == [Param(pool[p].name)] + Tail(pat, p, j))
      || (0 < w < |pool| && j == w && Tail(pat, i, j) == [Wild(pool[w].name)])
  {
    var t := Tail(pat, i, j);
    StepDown(pool, pat, i, j);
    var g := pat[j][|pat[i]|];
    var c := ChildAt(pool, i, g);
    ChildPattern(pool, pat, i, g);
    assert t[0] == g && t == [g] + Tail(pat, c, j);
    assert t[1..] == Tail(pat, c, j);
    if g.Wild? { assert pat[j] == pat[c]; }
  }

  /** Below a child, what matches the rest matches the whole. */
  lemma UnderChild<V>(pool: seq<Node<V>>, pat: seq<Pattern>, i: nat, g: Seg, c: nat, j: nat, parts: seq<string>)
    requires |pool| == |pat| && i < |pool| && c < |pool| && !AtEnd(parts) && pat[c] == pat[i] + [g]
    requires Under(pool, pat, c, j, parts[1..]) && SegFits(g, parts[0])
    ensures Under(pool, pat, i, j, parts) && Tail(pat, i, j) == [g] + Tail(pat, c, j)
    ensures Bindings(Tail(pat, i, j), parts) ==
      (if g.Param? then [(g.name, parts[0])] else []) + Bindings(Tail(pat, c, j), parts[1..])
  {
    assert pat[j][|pat[i]|] == pat[c][|pat[i]|] == g;
    var t := Tail(pat, i, j);
    assert t == [g] + Tail(pat, c, j);
    assert t[1..] == Tail(pat, c, j);
  }

  /** `h` is the preferred match below `i`, with that pattern's captures. */
  ghost predicate BestUnder<V>(pool: seq<Node<V>>, pat: seq<Pattern>, i: nat, parts: seq<string>, h: Hit)
    requires i < |pool| == |pat|
  {
    && Under(pool, pat, i, h.end, parts) && h.caps == Bindings(Tail(pat, i, h.end), parts)
    && forall j: nat :: Under(pool, pat, i, j, parts) && j != h.end ==> Better(Tail(pat, i, h.end), Tail(pat, i, j))
  }

  ghost predicate NoneUnder<V>(pool: seq<Node<V>>, pat: seq<Pattern>, i: nat, parts: seq<string>)
    requires i < |pool| == |pat|
  {
    forall j: nat :: !Under(pool, pat, i, j, parts)
  }

  ghost predicate Exact<V>(pool: seq<Node<V>>, pat: seq<Pattern>, i: nat, rest: string)
    requires i < |pool| == |pat| && Closed(pool)
  {
    match Search(pool, i, rest)
    case None => NoneUnder(pool, pat, i, Parts(rest))
    case Some(h) => BestUnder(pool, pat, i, Parts(rest), h)
  }

  lemma ExactAtEnd<V>(pool: seq<Node<V>>, pat: seq<Pattern>, i: nat, rest: string)
    requires Trie(pool, pat) && Closed(pool) && i < |pool| && (rest == "" || rest == "/")
    ensures Exact(pool, pat, i, rest)
  {
    AtEndText(rest);
    forall j: nat | Under(pool, pat, i, j, Parts(rest)) ensures j == i && Tail(pat, i, j) == [] {
      assert Tail(pat, i, j) == [];
      assert pat[j] == pat[i];
    }
    assert Tail(pat, i, i) == [];
  }

  /** A hit in the static branch beats whatever the other branches hold. */
  lemma StaticWins<V>(pool: seq<Node<V>>, pat: seq<Pattern>, i: nat, parts: seq<string>, h: Hit)
    requires Trie(pool, pat) && i < |pool| && !AtEnd(parts) && parts[0] != ""
    requires
      var c := ChildAt(pool, i, Static(parts[0]));
      0 < c < |pool| && BestUnder(pool, pat, c, parts[1..], h)
    ensures BestUnder(pool, pat, i, parts, h)
  {
    var g := Static(parts[0]);
    var c := ChildAt(pool, i, g);
    ChildPattern(pool, pat, i, g);
    UnderChild(pool, pat, i, g, c, h.end, parts);
    forall j: nat | Under(pool, pat, i, j, parts) && j != h.end ensures Better(Tail(pat, i, h.end), Tail(pat, i, j)) {
      UnderCases(pool, pat, i, j, parts);
      if Tail(pat, i, j)[0] == g { BetterCons(g, Tail(pat, c, h.end), Tail(pat, c, j)); }
      else { BetterHead(Tail(pat, i, h.end), Tail(pat, i, j)); }
    }
  }

  /** A hit in the parameter branch is best once the static branch has none. */
  lemma ParamWins<V>(pool: seq<Node<V>>, pat: seq<Pattern>, i: nat, parts: seq<string>, h: Hit)
    requires Trie(pool, pat) && i < |pool| && !AtEnd(parts) && parts[0] != "" && 0 < pool[i].param < |pool|
    requires
      var c := ChildAt(pool, i, Static(parts[0]));
      0 < c < |pool| ==> NoneUnder(pool, pat, c, parts[1..])
    requires BestUnder(pool, pat, pool[i].param, parts[1..], h)
    ensures BestUnder(pool, pat, i, parts, Hit(h.end, [(pool[pool[i].param].name, parts[0])] + h.caps))
  {
    var c := pool[i].param;
    var g := Param(pool[c].name);
    ChildPattern(pool, pat, i, g);
    UnderChild(pool, pat, i, g, c, h.end, parts);
    forall j: nat | Under(pool, pat, i, j, parts) && j != h.end ensures Better(Tail(pat, i, h.end), Tail(pat, i, j)) {
      UnderCases(pool, pat, i, j, parts);
      if Tail(pat, i, j)[0] == g { BetterCons(g, Tail(pat, c, h.end), Tail(pat, c, j)); }
      else { BetterHead(Tail(pat, i, h.end), Tail(pat, i, j)); }
    }
  }

  /** With no hit in the static and parameter branches, only the wildcard can match. */
  lemma WildRemains<V>(pool: seq<Node<V>>, pat: seq<Pattern>, i: nat, parts: seq<string>)
    requires Trie(pool, pat) && i < |pool| && !AtEnd(parts)
    requires
      var c, p := ChildAt(pool, i, Static(parts[0])), pool[i].param;
      && (parts[0] != "" && 0 < c < |pool| ==> NoneUnder(pool, pat, c, parts[1..]))
      && (parts[0] != "" && 0 < p < |pool| ==> NoneUnder(pool, pat, p, parts[1..]))
    ensures
      var w := pool[i].wild;
      if 0 < w < |pool| && pool[w].value.Some? then BestUnder(pool, pat, i, parts, Hit(w, [(pool[w].name, Join(parts))]))
      else NoneUnder(pool, pat, i, parts)
  {
    var w := pool[i].wild;
    forall j: nat | Under(pool, pat, i, j, parts) ensures 0 < w < |pool| && j == w && pool[w].value.Some? {
      UnderCases(pool, pat, i, j, parts);
    }
    if 0 < w < |pool| && pool[w].value.Some? {
      ChildPattern(pool, pat, i, Wild(pool[w].name));
      assert Tail(pat, i, w) == [Wild(pool[w].name)];
    }
  }

  /**
   * The search finds a match below a node exactly when there is one; what it
   * finds is the preferred one, and its captures are that pattern's alone.
   */
  lemma {:induction false} SearchExact<V>(pool: seq<Node<V>>, pat: seq<Pattern>, i: nat, rest: string)
    requires Trie(pool, pat) && Closed(pool) && i < |pool|
    ensures Exact(pool, pat, i, rest)
    decreases |rest|
  {
    var parts := Parts(rest);
    AtEndText(rest);
    if rest == "" || rest == "/" {
      ExactAtEnd(pool, pat, i, rest);
    } else {
      var (seg, remaining) := NextSegment(rest);
      assert parts[1..] == Parts(remaining);
      var c, p := ChildAt(pool, i, Static(seg)), pool[i].param;
      ChildPattern(pool, pat, i, Static(seg));
      if c != 0 { SearchExact(pool, pat, c, remaining); }
      if p != 0 { SearchExact(pool, pat, p, remaining); }
      JoinSplit(StripSlash(rest));
      if seg != "" && c != 0 && Search(pool, c, remaining).Some? {
        StaticWins(pool, pat, i, parts, Search(pool, c, remaining).value);
      } else if seg != "" && p != 0 && Search(pool, p, remaining).Some? {
        ParamWins(pool, pat, i, parts, Search(pool, p, remaining).value);
      } else {
        WildRemains(pool, pat, i, parts);
      }
    }
  }
}
