/**
 * The router object: a pool of nodes changed in place by `insert`, read by
 * `find_exact` and `lookup`, and the small-buffer list of captures that the
 * search pushes to and pops from (router/radix_router.h).
 */
module RadixRouter {
  import opened RoutePattern
  import opened RouteTrie
  import opened RouteBuild
  import opened RouteTable

  const Inline: nat := 8
  const LinearMax: nat := 8

  /** Captures: eight slots in place, all moved to a vector once a ninth is pushed. */
  class ParamsView {
    const slots: array<(string, string)>
    var n: nat
    var spilled: bool
    var overflow: seq<(string, string)>

    ghost predicate Valid()
      reads this, slots
    {
      slots.Length == Inline && n <= Inline
    }

    function Contents(): seq<(string, string)>
      reads this, slots
      requires Valid()
    {
      if spilled then overflow else slots[..n]
    }

    constructor ()
      ensures Valid() && fresh(slots) && Contents() == []
    {
      slots := new (string, string)[Inline](_ => ("", ""));
      n, spilled, overflow := 0, false, [];
    }

    method EmplaceBack(k: string, v: string)
      requires Valid()
      modifies this, slots
      ensures Valid() && Contents() == old(Contents()) + [(k, v)]
    {
      if spilled {
        overflow := overflow + [(k, v)];
        return;
      }
      if n < Inline {
        slots[n] := (k, v);
        n := n + 1;
        return;
      }
      spilled := true;
      overflow := slots[..n];
      overflow := overflow + [(k, v)];
    }

    method PopBack()
      requires Valid()
      modifies this
      ensures Valid()
      ensures Contents() == if old(Contents()) == [] then [] else old(Contents())[..|old(Contents())| - 1]
    {
      if spilled {
        if overflow != [] { overflow := overflow[..|overflow| - 1]; }
      } else if n > 0 {
        n := n - 1;
      }
    }

    method Clear()
      requires Valid()
      modifies this
      ensures Valid() && Contents() == []
    {
      n, spilled, overflow := 0, false, [];
    }

    method Size() returns (size: nat)
      requires Valid()
      ensures size == |Contents()|
    {
      size := if spilled then |overflow| else n;
    }

    method At(i: nat) returns (kv: (string, string))
      requires Valid() && i < |Contents()|
      ensures kv == Contents()[i]
    {
      kv := if spilled then overflow[i] else slots[i];
    }
  }

  // ---- Static children ----

  /** std::lower_bound over the children. */
  method LowerBoundChild(list: seq<(string, nat)>, seg: string) returns (first: nat)
    requires Sorted(list)
    ensures first == PlaceOf(list, seg)
  {
    var len := |list|;
    first := 0;
    PlaceExact(list, seg);
    ghost var place := PlaceOf(list, seg);
    while len > 0
      invariant first <= place <= first + len <= |list|
    {
      var half := len / 2;
      if Less(list[first + half].0, seg) {
        first, len := first + half + 1, len - half - 1;
      } else {
        len := half;
      }
    }
  }

  /** Few children are scanned, many are searched by halving; either way it is the child of that name. */
  method FindChild(list: seq<(string, nat)>, seg: string) returns (child: nat)
    requires Sorted(list)
    ensures child == ChildNamed(list, seg)
  {
    if |list| <= LinearMax {
      var k := 0;
      while k < |list|
        invariant 0 <= k <= |list| && ChildNamed(list, seg) == ChildNamed(list[k..], seg)
      {
        if list[k].0 == seg { return list[k].1; }
        assert list[k..][1..] == list[k + 1..];
        k := k + 1;
      }
      return 0;
    }
    var it := LowerBoundChild(list, seg);
    PlaceExact(list, seg);
    if it < |list| && list[it].0 == seg {
      ChildNamedAt(list, it);
      return list[it].1;
    }
    AbsentAtPlace(list, seg);
    return 0;
  }

  /** In a sorted list, a name that is not at its place is nowhere. */
  lemma AbsentAtPlace(list: seq<(string, nat)>, seg: string)
    requires Sorted(list)
    requires var k := PlaceOf(list, seg); k < |list| ==> list[k].0 != seg
    ensures Absent(list, seg) && ChildNamed(list, seg) == 0
  {
    PlaceExact(list, seg);
    var k := PlaceOf(list, seg);
    LessTotal(seg, seg);
    forall i | 0 <= i < |list| ensures list[i].0 != seg {
      if i > k {
        LessTotal(list[k].0, seg);
        assert Less(list[k].0, list[i].0);
      }
    }
    var j := ChildNamedFound(list, seg);
  }

  // ---- Pattern syntax ----

  predicate Misplaced(seg: string) {
    Special(seg)
  }

  lemma ReadHead(rest: string)
    requires rest != ""
    ensures
      var (seg, remaining) := NextSegment(rest);
      && (seg == "" ==> (ParseParts(Parts(rest)).Some? <==> remaining == ""))
      && (seg == "" && remaining == "" ==> ParseParts(Parts(rest)) == Some([]))
      && (seg != "" && seg[0] == '*' ==>
            ParseParts(Parts(rest)) == if remaining == "" && |seg| > 1 && !Special(seg[1..]) then Some([Wild(seg[1..])]) else None)
      && (seg != "" && seg[0] != '*' ==>
            ParseParts(Parts(rest)) ==
              if SegOk(ReadSeg(seg)) && ParseParts(Parts(remaining)).Some?
              then Some([ReadSeg(seg)] + ParseParts(Parts(remaining)).value) else None)
  {
    var (seg, remaining) := NextSegment(rest);
    var parts := Parts(rest);
    assert parts[1..] == Parts(remaining);
    if remaining != "" {
      assert |parts| > 1;
    } else {
      assert parts == [seg];
      if seg != "" { assert [ReadSeg(seg)] + [] == [ReadSeg(seg)]; }
    }
  }

  /** A pattern may be added below `i`: its syntax is legal and it agrees with the nodes it passes. */
  predicate Addable<V>(pool: seq<Node<V>>, i: nat, rest: string)
    requires i < |pool|
  {
    ParseParts(Parts(rest)).Some? && Agrees(pool, i, ParseParts(Parts(rest)).value)
  }

  lemma AddableHead<V>(pool: seq<Node<V>>, i: nat, rest: string)
    requires Closed(pool) && i < |pool| && rest != ""
    ensures
      var (seg, remaining) := NextSegment(rest);
      && (seg == "" ==> (Addable(pool, i, rest) <==> remaining == ""))
      && (seg != "" && seg[0] == '*' ==>
            (Addable(pool, i, rest) <==>
              && remaining == "" && |seg| > 1 && !Special(seg[1..])
              && (pool[i].wild == 0 || pool[pool[i].wild].name == seg[1..])))
  {
    ReadHead(rest);
    var (seg, remaining) := NextSegment(rest);
    var w := pool[i].wild;
    if seg != "" && seg[0] == '*' {
      assert [Wild(seg[1..])][1..] == [];
      assert Agrees(pool, w, []);
    }
  }

  lemma AddableStep<V>(pool: seq<Node<V>>, i: nat, rest: string)
    requires Closed(pool) && i < |pool| && rest != "" && NextSegment(rest).0 != "" && NextSegment(rest).0[0] != '*'
    ensures
      var (seg, remaining) := NextSegment(rest);
      var g := ReadSeg(seg);
      var c := ChildAt(pool, i, g);
      && c < |pool|
      && (Addable(pool, i, rest) <==>
           SegOk(g) &&
           if c == 0 then ParseParts(Parts(remaining)).Some?
           else (g.Static? || pool[c].name == g.name) && Addable(pool, c, remaining))
  {
    ReadHead(rest);
    var (seg, remaining) := NextSegment(rest);
    ChildInRange(pool, i, seg);
    var tail := ParseParts(Parts(remaining));
    if tail.Some? { assert ([ReadSeg(seg)] + tail.value)[1..] == tail.value; }
  }

  /** The part of a pattern that lies outside the trie is checked for its syntax alone. */
  method ValidateSyntax(text: string) returns (ok: bool)
    ensures ok == ParseParts(Parts(text)).Some?
  {
    var rest := text;
    while true
      invariant ParseParts(Parts(rest)).Some? == ParseParts(Parts(text)).Some?
      decreases |rest|
    {
      if rest == "" { return true; }
      var (seg, remaining) := NextSegment(rest);
      ReadHead(rest);
      if seg == "" {
        return remaining == "";
      }
      if seg[0] == '*' {
        return remaining == "" && |seg| > 1 && !Misplaced(seg[1..]);
      }
      if seg[0] == ':' {
        if |seg| == 1 || Misplaced(seg[1..]) { return false; }
      } else if Misplaced(seg) {
        return false;
      }
      rest := remaining;
    }
  }

  // ---- The router ----

  ghost function TableOf<V>(pool: seq<Node<V>>, pat: seq<Pattern>, log: seq<string>): Table<V>
    requires Trie(pool, pat)
  {
    Table(Routes(pool, pat), log)
  }

  /** The nodes form a trie without idle nodes, and log and count describe its patterns. */
  ghost predicate Sound<V>(pool: seq<Node<V>>, pat: seq<Pattern>, log: seq<string>, count: nat) {
    Trie(pool, pat) && Closed(pool) && Tidy(pool, pat) && TableOk(TableOf(pool, pat, log)) && count == |log|
  }

  class Router<V> {
    var pool: seq<Node<V>>
    var count: nat
    var log: seq<string>
    ghost var pat: seq<Pattern>

    ghost predicate Valid()
      reads this
    {
      Sound(pool, pat, log, count)
    }

    /** What is registered, without the nodes. */
    ghost function Contents(): Table<V>
      reads this
      requires Trie(pool, pat)
    {
      TableOf(pool, pat, log)
    }

    constructor ()
      ensures Valid() && Contents() == Table(map[], [])
    {
      pool, count, log, pat := [Node([], 0, 0, "", None)], 0, [], [[]];
      new;
      assert NodeOk(pool, pat, 0);
      assert Routes(pool, pat) == map[];
    }

    method Clear()
      modifies this
      ensures Valid() && Contents() == Table(map[], [])
    {
      pool, count, log, pat := [Node([], 0, 0, "", None)], 0, [], [[]];
      assert NodeOk(pool, pat, 0);
      assert Routes(pool, pat) == map[];
    }

    /** The pattern is legal and names no parameter differently from a registered one. */
    method Validate(pattern: string) returns (ok: bool)
      requires Valid() && pattern != ""
      ensures ok <==> ParseParts(Parts(pattern)).Some? && Free(Contents().routes, ParseParts(Parts(pattern)).value)
    {
      TrieClosed(pool, pat);
      ok := ValidateWalk(pattern);
      if ParseParts(Parts(pattern)).Some? { AgreesByRoutes(pool, pat, ParseParts(Parts(pattern)).value); }
    }

    method ValidateWalk(pattern: string) returns (ok: bool)
      requires Closed(pool) && AllSorted(pool) && pattern != ""
      ensures ok == Addable(pool, 0, pattern)
    {
      var cur: nat := 0;
      var rest := pattern;
      while true
        invariant cur < |pool| && rest != "" && Addable(pool, 0, pattern) == Addable(pool, cur, rest)
        decreases |rest|
      {
        var (seg, remaining) := NextSegment(rest);
        AddableHead(pool, cur, rest);
        if seg == "" {
          return remaining == "";
        }
        if seg[0] == '*' {
          if remaining != "" || |seg| == 1 || Misplaced(seg[1..]) { return false; }
          if pool[cur].wild != 0 && pool[pool[cur].wild].name != seg[1..] { return false; }
          return true;
        }
        AddableStep(pool, cur, rest);
        if seg[0] == ':' {
          if |seg| == 1 || Misplaced(seg[1..]) { return false; }
          if pool[cur].param != 0 {
            if pool[pool[cur].param].name != seg[1..] { return false; }
            cur := pool[cur].param;
          } else {
            ok := ValidateSyntax(remaining);
            return;
          }
        } else {
          if Misplaced(seg) { return false; }
          var child := FindChild(pool[cur].statics, seg);
          if child == 0 {
            ok := ValidateSyntax(remaining);
            return;
          }
          cur := child;
        }
        if remaining == "" { return true; }
        rest := remaining;
      }
    }

    method NewNode(name: string) returns (n: nat)
      modifies this`pool
      ensures n == |old(pool)| && pool == old(pool) + [Node([], 0, 0, name, None)]
    {
      n := |pool|;
      pool := pool + [Node([], 0, 0, name, None)];
    }

    /** The static child of `i`, inserted at its place when it is missing. */
    method FindOrCreateChild(i: nat, seg: string) returns (c: nat)
      requires i < |pool| && Sorted(pool[i].statics) && Entries(pool[i].statics, |pool|)
      modifies this`pool
      ensures (pool, c) == Descend(old(pool), i, Static(seg))
    {
      var list := pool[i].statics;
      if |list| <= LinearMax {
        var k := 0;
        while k < |list|
          invariant 0 <= k <= |list| && pool == old(pool)
          invariant Absent(list[..k], seg)
        {
          if list[k].0 == seg {
            ChildNamedAt(list, k);
            return list[k].1;
          }
          assert list[..k + 1] == list[..k] + [list[k]];
          k := k + 1;
        }
        assert list[..k] == list;
      } else {
        var it := LowerBoundChild(list, seg);
        if it < |list| && list[it].0 == seg {
          ChildNamedAt(list, it);
          return list[it].1;
        }
        AbsentAtPlace(list, seg);
      }
      ghost var j := ChildNamedFound(list, seg);
      var pos := LowerBoundChild(list, seg);
      c := NewNode("");
      pool := pool[i := pool[i].(statics := InsertAt(list, pos, (seg, c)))];
      assert pool == Link(old(pool), i, Static(seg));
    }

    /**
     * Registers a pattern, or refuses it and changes nothing. It is refused
     * exactly when its text is illegal or it conflicts with a registered one.
     */
    method Insert(text: string, value: V) returns (ok: bool)
      requires Valid()
      modifies this
      ensures Valid()
      ensures ok == Register(old(Contents()), text, value).Some?
      ensures ok ==> Contents() == Register(old(Contents()), text, value).value
      ensures !ok ==> pool == old(pool) && log == old(log) && count == old(count) && pat == old(pat)
    {
      if text == "" || text[0] != '/' || DoubleSlash(text) { return false; }
      var pattern := Trim(text);
      var valid := Validate(pattern);
      if !valid { return false; }
      Commit(text, pattern, value);
      return true;
    }

    /** Creates the nodes, sets the value and, for a new pattern, extends the log. */
    method Commit(ghost text: string, pattern: string, value: V)
      requires Valid() && pattern == Trim(text) && pattern != "" && Register(Contents(), text, value).Some?
      modifies this
      ensures Valid() && Contents() == Register(old(Contents()), text, value).value
    {
      ghost var pool', log', count', pat' := Registered(pool, pat, log, count, text, value);
      TrieClosed(pool, pat);
      var end := Build(pattern, Read(text).value);
      Finish(end, pattern, value);
      pat := pat';
      assert pool == pool' && log == log' && count == count';
      assert Sound(pool, pat, log, count);
    }

    method Finish(end: nat, pattern: string, value: V)
      requires end < |pool|
      modifies this`pool, this`log, this`count
      ensures (pool, log, count) == Finished(old(pool), old(log), old(count), end, pattern, value)
    {
      var isNew := pool[end].value.None?;
      if isNew { log := log + [pattern]; }
      pool := pool[end := pool[end].(value := Some(value))];
      if isNew { count := count + 1; }
    }

    /** The second pass: walks the trie along the pattern and creates what is missing. */
    method Build(pattern: string, ghost p: Pattern) returns (end: nat)
      requires Closed(pool) && AllSorted(pool) && pattern != "" && ParseParts(Parts(pattern)) == Some(p)
      modifies this`pool
      ensures (pool, end) == Graft(old(pool), 0, p) && end < |pool|
    {
      var cur: nat := 0;
      var rest := pattern;
      ghost var tail := p;
      while true
        invariant rest != "" && ParseParts(Parts(rest)) == Some(tail)
        invariant Closed(pool) && AllSorted(pool) && cur < |pool|
        invariant Graft(pool, cur, tail) == Graft(old(pool), 0, p)
        decreases |rest|
      {
        var (seg, remaining) := NextSegment(rest);
        ReadHead(rest);
        if seg == "" { break; }
        assert tail == [ReadSeg(seg)] + tail[1..];
        DescendSorted(pool, cur, ReadSeg(seg));
        if seg[0] == '*' {
          cur := WildChild(cur, seg[1..]);
          tail := tail[1..];
          break;
        }
        if seg[0] == ':' {
          cur := ParamChild(cur, seg[1..]);
        } else {
          cur := FindOrCreateChild(cur, seg);
        }
        tail := tail[1..];
        if remaining == "" { break; }
        rest := remaining;
      }
      end := cur;
    }

    method WildChild(i: nat, name: string) returns (c: nat)
      requires i < |pool| && pool[i].wild < |pool|
      modifies this`pool
      ensures (pool, c) == Descend(old(pool), i, Wild(name))
    {
      if pool[i].wild == 0 {
        var n := NewNode(name);
        pool := pool[i := pool[i].(wild := n)];
        assert pool == Link(old(pool), i, Wild(name));
      }
      c := pool[i].wild;
    }

    method ParamChild(i: nat, name: string) returns (c: nat)
      requires i < |pool| && pool[i].param < |pool|
      modifies this`pool
      ensures (pool, c) == Descend(old(pool), i, Param(name))
    {
      if pool[i].param == 0 {
        var n := NewNode(name);
        pool := pool[i := pool[i].(param := n)];
        assert pool == Link(old(pool), i, Param(name));
      }
      c := pool[i].param;
    }

    /** The value of a pattern written out, found by its text and not by matching. */
    method FindExact(text: string) returns (r: Option<V>)
      requires Valid()
      ensures
        match Read(text)
        case None => r == None
        case Some(p) => r == if p in Contents().routes then Some(Contents().routes[p]) else None
    {
      if text == "" || text[0] != '/' || DoubleSlash(text) { return None; }
      var pattern := Trim(text);
      var syntax := ValidateSyntax(pattern);
      if !syntax { return None; }
      ghost var p := Read(text).value;
      TrieClosed(pool, pat);
      var end := WalkText(pattern, p);
      WalkRoutes(pool, pat, p);
      if end.None? { return None; }
      r := pool[end.value].value;
    }

    method WalkText(pattern: string, ghost p: Pattern) returns (end: Option<nat>)
      requires Closed(pool) && AllSorted(pool) && pattern != "" && ParseParts(Parts(pattern)) == Some(p)
      ensures end == Walk(pool, 0, p)
    {
      var cur: nat := 0;
      var rest := pattern;
      ghost var tail := p;
      while true
        invariant rest != "" && ParseParts(Parts(rest)) == Some(tail)
        invariant cur < |pool| && Walk(pool, cur, tail) == Walk(pool, 0, p)
        decreases |rest|
      {
        var (seg, remaining) := NextSegment(rest);
        ReadHead(rest);
        if seg == "" { break; }
        assert tail == [ReadSeg(seg)] + tail[1..];
        if seg[0] == ':' {
          cur := pool[cur].param;
          if cur == 0 || pool[cur].name != seg[1..] { return None; }
        } else if seg[0] == '*' {
          cur := pool[cur].wild;
          if cur == 0 || pool[cur].name != seg[1..] { return None; }
        } else {
          ChildInRange(pool, cur, seg);
          cur := FindChild(pool[cur].statics, seg);
          if cur == 0 { return None; }
        }
        tail := tail[1..];
        if remaining == "" { break; }
        rest := remaining;
      }
      return Some(cur);
    }

    /** The search with captures pushed on the way down and popped on the way back. */
    method Dfs(i: nat, rest: string, caps: ParamsView) returns (result: Option<V>)
      requires Closed(pool) && AllSorted(pool) && i < |pool| && caps.Valid()
      modifies caps, caps.slots
      ensures caps.Valid()
      ensures
        match Search(pool, i, rest)
        case None => result == None && caps.Contents() == old(caps.Contents())
        case Some(h) => result == pool[h.end].value && caps.Contents() == old(caps.Contents()) + h.caps
      decreases |rest|
    {
      if rest == "" || rest == "/" {
        return pool[i].value;
      }
      var (seg, remaining) := NextSegment(rest);
      ChildInRange(pool, i, seg);
      ghost var before := caps.Contents();
      forall x: (string, string) ensures (before + [x])[..|before|] == before { }
      forall x: (string, string), more: seq<(string, string)>
        ensures (before + [x]) + more == before + ([x] + more) { }
      if seg != "" {
        var child := FindChild(pool[i].statics, seg);
        if child != 0 {
          result := Dfs(child, remaining, caps);
          if result.Some? { return; }
        }
      }
      assert caps.Contents() == before;
      var p := pool[i].param;
      if p != 0 && seg != "" {
        caps.EmplaceBack(pool[p].name, seg);
        result := Dfs(p, remaining, caps);
        if result.Some? { return; }
        caps.PopBack();
      }
      assert caps.Contents() == before;
      var w := pool[i].wild;
      if w != 0 {
        var cap := StripSlash(rest);
        caps.EmplaceBack(pool[w].name, cap);
        if pool[w].value.Some? {
          return pool[w].value;
        }
        caps.PopBack();
      }
      return None;
    }

    /**
     * Lookup: a hit exactly when a registered pattern matches the path, then
     * with the value of the preferred one and exactly its captures, whatever
     * the container held before. The empty path is no request and touches nothing.
     */
    method Lookup(path: string, caps: ParamsView) returns (result: Option<V>)
      requires Valid() && caps.Valid()
      modifies caps, caps.slots
      ensures caps.Valid()
      ensures path == "" ==> result == None && caps.Contents() == old(caps.Contents())
      ensures path != "" && result.None? ==> caps.Contents() == []
      ensures path != "" && result.None? ==> forall q :: q in Contents().routes ==> !Matches(q, Parts(path))
      ensures path != "" && result.Some? ==> exists p ::
        && Preferred(Contents().routes, Parts(path), p)
        && result.value == Contents().routes[p] && caps.Contents() == Bindings(p, Parts(path))
    {
      if path == "" { return None; }
      caps.Clear();
      TrieClosed(pool, pat);
      result := Dfs(0, path, caps);
      LookupExact(pool, pat, path);
    }
  }

  function Finished<V>(pool: seq<Node<V>>, log: seq<string>, count: nat, end: nat, pattern: string, v: V): (seq<Node<V>>, seq<string>, nat)
    requires end < |pool|
  {
    var isNew := pool[end].value.None?;
    (Mark(pool, end, v), if isNew then log + [pattern] else log, if isNew then count + 1 else count)
  }

  /** The router after the pattern of `text` has been grafted and given its value. */
  lemma Registered<V>(pool: seq<Node<V>>, pat: seq<Pattern>, log: seq<string>, count: nat, text: string, v: V)
    returns (pool1: seq<Node<V>>, log1: seq<string>, count1: nat, pat': seq<Pattern>)
    requires Sound(pool, pat, log, count) && Register(TableOf(pool, pat, log), text, v).Some?
    ensures
      var (grown, end) := Graft(pool, 0, Read(text).value);
      end < |grown| && (pool1, log1, count1) == Finished(grown, log, count, end, Trim(text), v)
    ensures Sound(pool1, pat', log1, count1)
    ensures TableOf(pool1, pat', log1) == Register(TableOf(pool, pat, log), text, v).value
  {
    var p := Read(text).value;
    ParseExactly(Parts(Trim(text)), p);
    AgreesByRoutes(pool, pat, p);
    AgreesExactly(pool, pat, 0, p);
    assert [] + p == p;
    pat' := GraftKeeps(pool, pat, 0, p);
    var (pool', end) := Graft(pool, 0, p);
    MarkTrie(pool', pat', end, v);
    MarkRoutes(pool, pat, pool', pat', end, v);
    MarkTidy(pool, pat, pool', pat', end, v);
    TrieClosed(Mark(pool', end, v), pat');
    RegisterKeeps(TableOf(pool, pat, log), text, v);
    EndValue(pool, pat, pool', pat', end);
    var r := Finished(pool', log, count, end, Trim(text), v);
    pool1, log1, count1 := r.0, r.1, r.2;
  }

  lemma EndValue<V>(pool: seq<Node<V>>, pat: seq<Pattern>, pool': seq<Node<V>>, pat': seq<Pattern>, end: nat)
    requires Trie(pool, pat) && end < |pool'| && |pool'| == |pat'| && Grown(pool, pat, pool', pat', pat'[end])
    ensures pool'[end].value.Some? <==> pat'[end] in Routes(pool, pat)
  {
    if pool'[end].value.Some? {
      assert end < |pool| && pat[end] == pat'[end];
    }
    if pat'[end] in Routes(pool, pat) {
      var i :| 0 <= i < |pool| && pool[i].value.Some? && pat[i] == pat'[end];
      assert pat'[i] == pat'[end];
    }
  }
}
