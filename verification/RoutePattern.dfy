/**
 * Route patterns: their text, their meaning as a list of segments, what paths
 * they match and with which captures, and which of two matching patterns wins
 * (router/radix_router.h).
 */
module RoutePattern {

  datatype Option<T> = None | Some(value: T)

  // ---- Text cut at '/' ----

  /** The index of the first '/' of `s`, or |s| when there is none. */
  function SlashAt(s: string): (k: nat)
    ensures k <= |s| && '/' !in s[..k]
    ensures k < |s| ==> s[k] == '/'
  {
    if s == "" || s[0] == '/' then 0 else
    var k := SlashAt(s[1..]) + 1;
    assert s[..k] == [s[0]] + s[1..][..k - 1];
    k
  }

  /** The pieces of `s` between slashes; one empty piece when `s` is empty. */
  function Split(s: string): (r: seq<string>)
    ensures r != []
    decreases |s|
  {
    var k := SlashAt(s);
    if k == |s| then [s] else [s[..k]] + Split(s[k + 1..])
  }

  function StripSlash(s: string): string {
    if s != "" && s[0] == '/' then s[1..] else s
  }

  /** The pieces of a path: one leading '/' does not count, an empty path has none. */
  function Parts(s: string): seq<string> {
    if s == "" then [] else Split(StripSlash(s))
  }

  /** The next segment, and what follows it with its '/' kept. */
  function NextSegment(p: string): (r: (string, string))
    ensures p != "" ==> Parts(p) == [r.0] + Parts(r.1) && |r.1| < |p|
    ensures p == "" ==> r == ("", "")
    ensures r.1 != "" ==> r.1[0] == '/'
  {
    var q := StripSlash(p);
    var k := SlashAt(q);
    if k == |q| then
      (q, "")
    else
      assert q[k..][1..] == q[k + 1..];
      (q[..k], q[k..])
  }

  function Join(parts: seq<string>): string {
    if parts == [] then "" else
    if |parts| == 1 then parts[0] else parts[0] + "/" + Join(parts[1..])
  }

  lemma CutAt(s: string, k: nat)
    requires k < |s| && s[k] == '/'
    ensures s == s[..k] + "/" + s[k + 1..]
  {
  }

  lemma Reassociate(a: string, t: string, b: string)
    ensures a + "/" + t + "/" + b == a + "/" + (t + "/" + b)
  {
  }

  lemma Associate<T>(a: seq<T>, b: seq<T>, c: seq<T>)
    ensures a + (b + c) == (a + b) + c
  {
  }

  lemma {:induction false} JoinSplit(s: string)
    ensures Join(Split(s)) == s
    decreases |s|
  {
    var k := SlashAt(s);
    if k < |s| {
      JoinSplit(s[k + 1..]);
      assert Split(s)[1..] == Split(s[k + 1..]);
      CutAt(s, k);
    }
  }

  lemma {:induction false} SplitNoSlash(s: string)
    ensures forall i :: 0 <= i < |Split(s)| ==> '/' !in Split(s)[i]
    decreases |s|
  {
    var k := SlashAt(s);
    if k < |s| { SplitNoSlash(s[k + 1..]); }
  }

  lemma {:induction false} SlashAtJoin(a: string, b: string)
    requires '/' !in a
    ensures SlashAt(a + "/" + b) == |a|
    decreases |a|
  {
    var s := a + "/" + b;
    if a != "" {
      assert s[0] == a[0] && a[0] in a;
      assert s[1..] == a[1..] + "/" + b;
      SlashAtJoin(a[1..], b);
    }
  }

  lemma SplitCons(a: string, b: string)
    requires '/' !in a
    ensures Split(a + "/" + b) == [a] + Split(b)
  {
    SlashAtJoin(a, b);
    var s := a + "/" + b;
    assert s[..|a|] == a && s[|a| + 1..] == b;
  }

  /** Cutting at a slash cuts the list of pieces. */
  lemma {:induction false} SplitConcat(a: string, b: string)
    ensures Split(a + "/" + b) == Split(a) + Split(b)
    decreases |a|
  {
    var k := SlashAt(a);
    if k == |a| {
      SplitCons(a, b);
    } else {
      var h, t := a[..k], a[k + 1..];
      CutAt(a, k);
      Reassociate(h, t, b);
      SplitCons(h, t + "/" + b);
      SplitConcat(t, b);
      Associate([h], Split(t), Split(b));
    }
  }

  /** The whole path has been walked: nothing, or only a slash, is left. */
  predicate AtEnd(parts: seq<string>) {
    parts == [] || parts == [""]
  }

  lemma AtEndText(rest: string)
    ensures AtEnd(Parts(rest)) <==> rest == "" || rest == "/"
  {
    if AtEnd(Parts(rest)) && rest != "" {
      JoinSplit(StripSlash(rest));
    }
  }

  // ---- Patterns ----

  datatype Seg = Static(text: string) | Param(name: string) | Wild(name: string)

  type Pattern = seq<Seg>

  predicate Special(s: string) {
    exists i :: 0 <= i < |s| && (s[i] == ':' || s[i] == '*')
  }

  /** A segment as it may stand in a pattern. */
  predicate SegOk(g: Seg) {
    match g
    case Static(t) => t != "" && !Special(t)
    case Param(n) => n != "" && !Special(n)
    case Wild(n) => n != "" && !Special(n)
  }

  predicate WellFormed(p: Pattern) {
    && (forall i :: 0 <= i < |p| ==> SegOk(p[i]))
    && (forall i :: 0 <= i < |p| - 1 ==> !p[i].Wild?)
  }

  function SegText(g: Seg): string {
    match g
    case Static(t) => t
    case Param(n) => ":" + n
    case Wild(n) => "*" + n
  }

  function Texts(p: Pattern): seq<string> {
    seq(|p|, i requires 0 <= i < |p| => SegText(p[i]))
  }

  function ReadSeg(s: string): Seg
    requires s != ""
  {
    if s[0] == '*' then Wild(s[1..]) else if s[0] == ':' then Param(s[1..]) else Static(s)
  }

  /** The pattern that a list of pieces spells, when it is legal. */
  function ParseParts(parts: seq<string>): Option<Pattern> {
    if AtEnd(parts) then Some([]) else
    if parts[0] == "" then None else
    var g := ReadSeg(parts[0]);
    if !SegOk(g) || (g.Wild? && |parts| > 1) then None else
    match ParseParts(parts[1..])
    case None => None
    case Some(p) => Some([g] + p)
  }

  lemma ReadText(g: Seg)
    requires SegOk(g)
    ensures SegText(g) != "" && ReadSeg(SegText(g)) == g
  {
    match g
    case Static(t) => assert t[0] != '*' && t[0] != ':';
    case Param(n) =>
    case Wild(n) =>
  }

  lemma TextRead(s: string)
    requires s != ""
    ensures SegText(ReadSeg(s)) == s
  {
  }

  /** Every well-formed pattern is read back from its own text. */
  lemma {:induction false} ParseTexts(p: Pattern)
    requires WellFormed(p)
    ensures ParseParts(Texts(p)) == Some(p)
  {
    if p != [] {
      var t := Texts(p);
      ReadText(p[0]);
      assert t[0] == SegText(p[0]);
      assert t[1..] == Texts(p[1..]);
      forall i | 0 <= i < |p[1..]| ensures SegOk(p[1..][i]) && (i < |p[1..]| - 1 ==> !p[1..][i].Wild?) {
        assert p[1..][i] == p[i + 1];
      }
      ParseTexts(p[1..]);
      assert p == [p[0]] + p[1..];
    }
  }

  lemma WellFormedCons(g: Seg, p: Pattern)
    requires SegOk(g) && WellFormed(p) && (g.Wild? ==> p == [])
    ensures WellFormed([g] + p)
  {
    var q := [g] + p;
    forall i | 0 <= i < |q| ensures SegOk(q[i]) && (i < |q| - 1 ==> !q[i].Wild?) {
      assert q[i] == if i == 0 then g else p[i - 1];
    }
  }

  lemma TextsCons(g: Seg, p: Pattern)
    ensures Texts([g] + p) == [SegText(g)] + Texts(p)
  {
  }

  /** A pattern's text, with or without a last slash. */
  predicate Spells(parts: seq<string>, p: Pattern) {
    parts == Texts(p) || (parts == Texts(p) + [""] && !EndsWild(p))
  }

  lemma SpellsCons(g: Seg, parts: seq<string>, p: Pattern)
    requires Spells(parts, p) && (g.Wild? ==> parts == [])
    ensures Spells([SegText(g)] + parts, [g] + p)
  {
    TextsCons(g, p);
    assert [SegText(g)] + (Texts(p) + [""]) == ([SegText(g)] + Texts(p)) + [""];
  }

  /** What the parser accepts is exactly a well-formed pattern's text. */
  lemma {:induction false} ParseExactly(parts: seq<string>, p: Pattern)
    requires ParseParts(parts) == Some(p)
    ensures WellFormed(p) && Spells(parts, p)
  {
    if !AtEnd(parts) {
      var g, q := p[0], p[1..];
      assert p == [g] + q && ParseParts(parts[1..]) == Some(q);
      ParseExactly(parts[1..], q);
      TextRead(parts[0]);
      assert parts == [SegText(g)] + parts[1..];
      assert g.Wild? ==> parts[1..] == [];
      WellFormedCons(g, q);
      SpellsCons(g, parts[1..], q);
    }
  }

  // ---- Matching ----

  /** `p` matches the pieces of a path, read segment by segment. */
  predicate Fits(p: Pattern, parts: seq<string>) {
    if p == [] then AtEnd(parts) else
    !AtEnd(parts) &&
    match p[0]
    case Wild(_) => |p| == 1
    case Param(_) => parts[0] != "" && Fits(p[1..], parts[1..])
    case Static(t) => parts[0] != "" && parts[0] == t && Fits(p[1..], parts[1..])
  }

  /** What a matching pattern captures, in order. */
  function Bindings(p: Pattern, parts: seq<string>): seq<(string, string)> {
    if p == [] || parts == [] then [] else
    match p[0]
    case Wild(n) => [(n, Join(parts))]
    case Param(n) => [(n, parts[0])] + Bindings(p[1..], parts[1..])
    case Static(_) => Bindings(p[1..], parts[1..])
  }

  predicate EndsWild(p: Pattern) {
    p != [] && p[|p| - 1].Wild?
  }

  /** A part that is not swallowed by a wildcard meets its segment. */
  predicate SegFits(g: Seg, part: string) {
    part != "" && (g.Static? ==> g.text == part) && !g.Wild?
  }

  /**
   * Matching, said position by position: a pattern without a wildcard covers
   * all the pieces but for one last empty one; a pattern with one covers the
   * pieces before it and leaves it something other than a lone last slash.
   */
  predicate Matches(p: Pattern, parts: seq<string>) {
    var n := if EndsWild(p) then |p| - 1 else |p|;
    && n <= |parts|
    && (forall i :: 0 <= i < n ==> SegFits(p[i], parts[i]))
    && (EndsWild(p) != AtEnd(parts[n..]))
  }

  lemma {:induction false} FitsExactly(p: Pattern, parts: seq<string>)
    ensures Fits(p, parts) <==> Matches(p, parts)
  {
    if p == [] {
      assert parts[0..] == parts;
    } else if p[0].Wild? && |p| == 1 {
      assert parts[0..] == parts;
    } else if |parts| > 0 {
      var q, rest := p[1..], parts[1..];
      FitsExactly(q, rest);
      var n := if EndsWild(p) then |p| - 1 else |p|;
      assert EndsWild(q) == EndsWild(p);
      if n <= |parts| {
        assert parts[n..] == rest[n - 1..];
        forall i | 0 <= i < n - 1 ensures p[i + 1] == q[i] && parts[i + 1] == rest[i] { }
        if Matches(p, parts) {
          forall i | 0 <= i < n - 1 ensures SegFits(q[i], rest[i]) { assert SegFits(p[i + 1], parts[i + 1]); }
          assert SegFits(p[0], parts[0]);
        }
        if Fits(p, parts) {
          forall i | 0 <= i < n ensures SegFits(p[i], parts[i]) {
            if i > 0 { assert SegFits(q[i - 1], rest[i - 1]); }
          }
        }
      }
    }
  }

  // ---- Preference and conflict ----

  function Rank(g: Seg): nat {
    match g
    case Static(_) => 0
    case Param(_) => 1
    case Wild(_) => 2
  }

  /** `p` is preferred to `q`: at the first place where they differ its segment ranks first. */
  ghost predicate Better(p: Pattern, q: Pattern) {
    exists i: nat :: BetterAt(p, q, i)
  }

  predicate BetterAt(p: Pattern, q: Pattern, i: nat) {
    i < |p| && i < |q| && p[..i] == q[..i] && Rank(p[i]) < Rank(q[i])
  }

  /** Two patterns name the same parameter position differently. */
  predicate Conflict(p: Pattern, q: Pattern) {
    exists i: nat :: i < |p| && ConflictAt(p, q, i)
  }

  predicate ConflictAt(p: Pattern, q: Pattern, i: nat) {
    && i < |p| && i < |q| && p[..i] == q[..i] && p[i] != q[i]
    && ((p[i].Param? && q[i].Param?) || (p[i].Wild? && q[i].Wild?))
  }

  lemma BetterCons(g: Seg, p: Pattern, q: Pattern)
    requires Better(p, q)
    ensures Better([g] + p, [g] + q)
  {
    var i: nat :| BetterAt(p, q, i);
    var a, b := [g] + p, [g] + q;
    assert a[..i + 1] == [g] + p[..i] && b[..i + 1] == [g] + q[..i];
    assert BetterAt(a, b, i + 1);
  }

  lemma BetterHead(p: Pattern, q: Pattern)
    requires p != [] && q != [] && Rank(p[0]) < Rank(q[0])
    ensures Better(p, q)
  {
    assert p[..0] == q[..0];
    assert BetterAt(p, q, 0);
  }

  lemma ConflictSymmetric(p: Pattern, q: Pattern)
    ensures Conflict(p, q) ==> Conflict(q, p)
  {
    if Conflict(p, q) {
      var i: nat :| i < |p| && ConflictAt(p, q, i);
      assert ConflictAt(q, p, i);
    }
  }

  /** A prefix common to two patterns neither makes nor hides a conflict. */
  lemma ConflictShift(a: Pattern, p: Pattern, q: Pattern)
    ensures Conflict(a + p, a + q) <==> Conflict(p, q)
  {
    if Conflict(p, q) {
      var i: nat :| i < |p| && ConflictAt(p, q, i);
      var k: nat := |a| + i;
      assert (a + p)[..k] == a + p[..i] && (a + q)[..k] == a + q[..i];
      assert ConflictAt(a + p, a + q, k);
    }
    if Conflict(a + p, a + q) {
      var k: nat :| k < |a + p| && ConflictAt(a + p, a + q, k);
      assert k >= |a|;
      var i: nat := k - |a|;
      assert (a + p)[..k] == a + p[..i] && (a + q)[..k] == a + q[..i];
      assert p[..i] == (a + p)[..k][|a|..] && q[..i] == (a + q)[..k][|a|..];
      assert ConflictAt(p, q, i);
    }
  }
}
