/**
 * Merging the routes of one router into another under a prefix, as an
 * operation on tables of patterns (Web/src/router.h).
 */
module RouteInclude {
  import opened RoutePattern
  import opened RouteTable

  type Handler(==, !new)
  type Middleware(==, !new)

  /** A callable, which may be empty. */
  datatype Fn = NoFn | Fn(handler: Handler)

  datatype Entry = Entry(fn: Fn, middlewares: seq<Middleware>)

  type Tables = map<string, Table<Entry>>

  predicate Has(s: string, c: char) {
    exists i :: 0 <= i < |s| && s[i] == c
  }

  /** Text that no route and no prefix may contain. */
  predicate Foreign(s: string) {
    Has(s, '?') || Has(s, '#') || Has(s, '\0')
  }

  // ---- Prefixes ----

  /** A prefix gets a leading slash and loses one trailing slash. */
  function Normalise(prefix: string): string {
    var lead := if prefix != "" && prefix[0] != '/' then "/" + prefix else prefix;
    if lead != "" && lead[|lead| - 1] == '/' then lead[..|lead| - 1] else lead
  }

  predicate PrefixOk(prefix: string) {
    var norm := Normalise(prefix);
    !Foreign(prefix) && !DoubleSlash(prefix) && (norm == "" || (!Has(norm, '*') && Read(norm).Some?))
  }

  function PrefixPattern(norm: string): Pattern {
    if norm == "" then [] else match Read(norm) case Some(p) => p case None => []
  }

  lemma NormaliseForeign(prefix: string)
    requires !Foreign(prefix)
    ensures !Foreign(Normalise(prefix))
  {
    var norm := Normalise(prefix);
    forall i | 0 <= i < |norm| ensures norm[i] != '?' && norm[i] != '#' && norm[i] != '\0' {
      assert (i < |prefix| && norm[i] == prefix[i]) || (i == 0 && norm[i] == '/') || (i > 0 && norm[i] == prefix[i - 1]);
    }
  }

  lemma NormaliseLast(prefix: string)
    requires !DoubleSlash(prefix)
    ensures var norm := Normalise(prefix); norm != "" ==> norm[|norm| - 1] != '/'
  {
    var lead := if prefix != "" && prefix[0] != '/' then "/" + prefix else prefix;
    var norm := Normalise(prefix);
    assert norm != lead ==> lead == norm + "/";
    assert |lead| > |prefix| ==> lead == "/" + prefix;
  }

  lemma {:induction false} NormaliseShape(prefix: string)
    requires PrefixOk(prefix)
    ensures
      var norm := Normalise(prefix);
      !Foreign(norm) && (norm != "" ==> Admissible(norm) && norm[|norm| - 1] != '/')
  {
    NormaliseForeign(prefix);
    NormaliseLast(prefix);
  }

  lemma {:induction false} PiecesInside(s: string, c: char, i: nat)
    requires i < |Split(s)| && Has(Split(s)[i], c)
    ensures Has(s, c)
    decreases |s|
  {
    var k := SlashAt(s);
    if k < |s| && i > 0 {
      var t := s[k + 1..];
      PiecesInside(t, c, i - 1);
      var j :| 0 <= j < |t| && t[j] == c;
      assert s[k + 1 + j] == c;
    } else {
      var j :| 0 <= j < |Split(s)[i]| && Split(s)[i][j] == c;
      assert s[j] == c;
    }
  }

  /** Only a text that ends in a slash has an empty last piece. */
  lemma {:induction false} LastPiece(s: string)
    requires s != "" && s[|s| - 1] != '/'
    ensures Split(s)[|Split(s)| - 1] != ""
    decreases |s|
  {
    var k := SlashAt(s);
    if k < |s| {
      assert s[k + 1..] != "";
      LastPiece(s[k + 1..]);
    }
  }

  lemma NoStarPiece(s: string, i: nat)
    requires !Has(s, '*') && i < |Split(s)| && Split(s)[i] != ""
    ensures Split(s)[i][0] != '*'
  {
    var piece := Split(s)[i];
    if piece[0] == '*' { PiecesInside(s, '*', i); }
  }

  /** A legal prefix has no empty piece and no wildcard. */
  lemma {:induction false} PrefixPieces(norm: string)
    requires Admissible(norm) && norm[|norm| - 1] != '/' && !Has(norm, '*') && Read(norm).Some?
    ensures forall i :: 0 <= i < |Parts(norm)| ==> Parts(norm)[i] != "" && Parts(norm)[i][0] != '*'
    ensures ParseParts(Parts(norm)) == Read(norm)
  {
    var body := norm[1..];
    var p := Read(norm).value;
    assert norm != "" && Parts(norm) == Split(body);
    assert Trim(norm) == norm;
    ParseExactly(Split(body), p);
    LastPiece(body);
    assert Split(body) == Texts(p);
    assert !Has(body, '*') by { assert forall j :: 0 <= j < |body| ==> body[j] == norm[j + 1]; }
    forall i | 0 <= i < |Split(body)| ensures Split(body)[i] != "" && Split(body)[i][0] != '*' {
      assert SegOk(p[i]);
      ReadText(p[i]);
      NoStarPiece(body, i);
    }
  }

  /** Pieces in front of a pattern's pieces put segments in front of the pattern. */
  lemma {:induction false} ParseConcat(a: seq<string>, b: seq<string>)
    requires forall i :: 0 <= i < |a| ==> a[i] != "" && a[i][0] != '*'
    requires ParseParts(a).Some? && ParseParts(b).Some?
    ensures ParseParts(a + b) == Some(ParseParts(a).value + ParseParts(b).value)
  {
    if a == [] {
      assert a + b == b;
      assert ParseParts(a).value + ParseParts(b).value == ParseParts(b).value;
    } else {
      assert (a + b)[0] == a[0] && (a + b)[1..] == a[1..] + b;
      ParseConcat(a[1..], b);
      var g := ReadSeg(a[0]);
      var p, q := ParseParts(a[1..]).value, ParseParts(b).value;
      assert [g] + (p + q) == ([g] + p) + q;
    }
  }

  lemma JoinedAdmissible(norm: string, s: string)
    requires Admissible(norm) && norm[|norm| - 1] != '/' && Admissible(s)
    ensures Admissible(norm + s)
    ensures Trim(norm + s) == if s == "/" then norm else norm + Trim(s)
  {
    var r := norm + s;
    forall i | 0 <= i < |r| - 1 ensures !(r[i] == '/' && r[i + 1] == '/') {
      if i + 1 < |norm| { assert r[i] == norm[i] && r[i + 1] == norm[i + 1]; }
      else if i >= |norm| { assert r[i] == s[i - |norm|] && r[i + 1] == s[i + 1 - |norm|]; }
    }
  }

  lemma {:induction false} JoinedParts(norm: string, t: string)
    requires norm != "" && norm[0] == '/' && t != "" && t[0] == '/'
    ensures Parts(norm + t) == Parts(norm) + Parts(t)
  {
    assert norm + t == "/" + (norm[1..] + "/" + t[1..]);
    assert StripSlash(norm + t) == norm[1..] + "/" + t[1..];
    SplitConcat(norm[1..], t[1..]);
  }

  lemma {:induction false} JoinedReads(norm: string, s: string)
    requires Admissible(norm) && norm[|norm| - 1] != '/' && !Has(norm, '*') && Read(norm).Some? && Read(s).Some?
    ensures Read(norm + s) == Some(Read(norm).value + Read(s).value)
  {
    JoinedAdmissible(norm, s);
    PrefixPieces(norm);
    if s == "/" {
      assert Parts(s) == [""] && Read(s).value == [];
      assert Trim(norm) == norm && Read(norm).value + [] == Read(norm).value;
    } else {
      TrimAdmissible(s);
      JoinedParts(norm, Trim(s));
      ParseConcat(Parts(norm), Parts(Trim(s)));
    }
  }

  /** Under a legal prefix every route reads as the prefix's pattern followed by its own. */
  lemma {:induction false} PrefixedReads(prefix: string, s: string)
    requires PrefixOk(prefix) && Read(s).Some?
    ensures Read(Normalise(prefix) + s) == Some(PrefixPattern(Normalise(prefix)) + Read(s).value)
  {
    var norm := Normalise(prefix);
    NormaliseShape(prefix);
    if norm == "" {
      assert norm + s == s && [] + Read(s).value == Read(s).value;
    } else {
      JoinedReads(norm, s);
    }
  }

  // ---- The routes that an include brings ----

  /** An entry as it arrives in the parent: the child's middlewares go outside its own. */
  function Wrap(outer: seq<Middleware>, e: Entry): Entry {
    Entry(e.fn, outer + e.middlewares)
  }

  /** The value of a pattern in a table, as `find_exact` answers it. */
  function FindExact(t: Table<Entry>, text: string): Option<Entry> {
    match Read(text)
    case None => None
    case Some(p) => if p in t.routes then Some(t.routes[p]) else None
  }

  function EntryOf(t: Table<Entry>, text: string): Entry {
    match FindExact(t, text)
    case None => Entry(NoFn, [])
    case Some(e) => e
  }

  /** What a child's tree brings, in the order of its log. */
  function Brought(t: Table<Entry>, norm: string, outer: seq<Middleware>): (r: seq<(string, Entry)>)
    ensures |r| == |t.log|
  {
    seq(|t.log|, i requires 0 <= i < |t.log| => (norm + t.log[i], Wrap(outer, EntryOf(t, t.log[i]))))
  }

  function Empty(): Table<Entry> {
    Table(map[], [])
  }

  function TableFor(tables: Tables, m: string): Table<Entry> {
    if m in tables then tables[m] else Empty()
  }

  /** No route of the child, put under the prefix, conflicts with a route of the parent. */
  ghost predicate NoClash(parent: Table<Entry>, child: Table<Entry>, norm: string) {
    forall q :: q in child.routes ==> Free(parent.routes, PrefixPattern(norm) + q)
  }

  lemma BroughtReads(t: Table<Entry>, prefix: string, outer: seq<Middleware>, i: nat)
    requires LogOk(t) && PrefixOk(prefix) && i < |t.log|
    ensures
      var q := Read(t.log[i]).value;
      q in t.routes && Read(Brought(t, Normalise(prefix), outer)[i].0) == Some(PrefixPattern(Normalise(prefix)) + q)
  {
    assert Logged(t.log, Read(t.log[i]).value);
    PrefixedReads(prefix, t.log[i]);
  }

  lemma {:induction false} CompatibleWhenNoClash(parent: Table<Entry>, child: Table<Entry>, prefix: string, outer: seq<Middleware>)
    requires TableOk(child) && PrefixOk(prefix) && NoClash(parent, child, Normalise(prefix))
    ensures Compatible(parent, Brought(child, Normalise(prefix), outer))
  {
    var norm := Normalise(prefix);
    var items := Brought(child, norm, outer);
    var a := PrefixPattern(norm);
    forall i | 0 <= i < |items| ensures Read(items[i].0).Some? && Free(parent.routes, Read(items[i].0).value) {
      BroughtReads(child, prefix, outer, i);
    }
    forall i, j | 0 <= i < |items| && 0 <= j < |items|
      ensures !Conflict(Read(items[i].0).value, Read(items[j].0).value)
    {
      BroughtReads(child, prefix, outer, i);
      BroughtReads(child, prefix, outer, j);
      var p, q := Read(child.log[i]).value, Read(child.log[j]).value;
      assert Free(child.routes, p);
      ConflictShift(a, p, q);
    }
  }

  lemma {:induction false} NoClashWhenCompatible(parent: Table<Entry>, child: Table<Entry>, prefix: string, outer: seq<Middleware>)
    requires LogOk(child) && PrefixOk(prefix) && Compatible(parent, Brought(child, Normalise(prefix), outer))
    ensures NoClash(parent, child, Normalise(prefix))
  {
    var norm := Normalise(prefix);
    var items := Brought(child, norm, outer);
    forall q | q in child.routes ensures Free(parent.routes, PrefixPattern(norm) + q) {
      assert Logged(child.log, q);
      var i :| 0 <= i < |child.log| && Read(child.log[i]) == Some(q);
      BroughtReads(child, prefix, outer, i);
      assert Read(items[i].0).Some?;
    }
  }

  /** A batch of a child's routes goes through exactly when none clashes with the parent. */
  lemma {:induction false} IncludeExactly(parent: Table<Entry>, child: Table<Entry>, prefix: string, outer: seq<Middleware>)
    requires TableOk(parent) && TableOk(child) && PrefixOk(prefix)
    ensures
      RegisterAll(parent, Brought(child, Normalise(prefix), outer)).Some? <==> NoClash(parent, child, Normalise(prefix))
  {
    var items := Brought(child, Normalise(prefix), outer);
    BatchExactly(parent, items);
    if NoClash(parent, child, Normalise(prefix)) { CompatibleWhenNoClash(parent, child, prefix, outer); }
    if Compatible(parent, items) { NoClashWhenCompatible(parent, child, prefix, outer); }
  }

  /** `after` is `parent` with the child's routes under the prefix, each wrapped, and nothing else changed. */
  ghost predicate Merged(parent: Table<Entry>, child: Table<Entry>, norm: string, outer: seq<Middleware>, after: Table<Entry>) {
    var a := PrefixPattern(norm);
    && (forall q :: q in child.routes ==> a + q in after.routes && after.routes[a + q] == Wrap(outer, child.routes[q]))
    && (forall p :: p in parent.routes && !(a <= p && p[|a|..] in child.routes) ==>
          p in after.routes && after.routes[p] == parent.routes[p])
    && (forall p :: p in after.routes ==> p in parent.routes || (a <= p && p[|a|..] in child.routes))
  }

  lemma Drop(a: Pattern, p: Pattern)
    ensures a <= a + p && (a + p)[|a|..] == p
    ensures a <= p ==> a + p[|a|..] == p
  {
  }

  lemma BroughtDistinct(child: Table<Entry>, prefix: string, outer: seq<Middleware>)
    requires LogOk(child) && PrefixOk(prefix)
    ensures
      var items := Brought(child, Normalise(prefix), outer);
      forall i, j :: 0 <= i < j < |items| ==> Read(items[i].0) != Read(items[j].0)
  {
    var items := Brought(child, Normalise(prefix), outer);
    var a := PrefixPattern(Normalise(prefix));
    forall i, j | 0 <= i < j < |items| ensures Read(items[i].0) != Read(items[j].0) {
      BroughtReads(child, prefix, outer, i);
      BroughtReads(child, prefix, outer, j);
      Drop(a, Read(child.log[i]).value);
      Drop(a, Read(child.log[j]).value);
    }
  }

  /** What the parent's tree holds after an include that went through. */
  lemma IncludeMerges(parent: Table<Entry>, child: Table<Entry>, prefix: string, outer: seq<Middleware>)
    requires TableOk(parent) && TableOk(child) && PrefixOk(prefix)
    requires RegisterAll(parent, Brought(child, Normalise(prefix), outer)).Some?
    ensures Merged(parent, child, Normalise(prefix), outer, RegisterAll(parent, Brought(child, Normalise(prefix), outer)).value)
  {
    var norm := Normalise(prefix);
    var items := Brought(child, norm, outer);
    var a := PrefixPattern(norm);
    var after := RegisterAll(parent, items).value;
    BroughtDistinct(child, prefix, outer);
    BatchRoutes(parent, items);
    forall q | q in child.routes ensures a + q in after.routes && after.routes[a + q] == Wrap(outer, child.routes[q]) {
      assert Logged(child.log, q);
      var i :| 0 <= i < |child.log| && Read(child.log[i]) == Some(q);
      BroughtReads(child, prefix, outer, i);
      assert items[i].1 == Wrap(outer, child.routes[q]);
    }
    forall p, i | 0 <= i < |items| && Read(items[i].0) == Some(p) ensures a <= p && p[|a|..] in child.routes {
      BroughtReads(child, prefix, outer, i);
      Drop(a, Read(child.log[i]).value);
    }
  }

  // ---- Adding one by one ----

  datatype Pending = Pending(httpMethod: string, path: string, entry: Entry)

  ghost function AddOne(tables: Tables, x: Pending): Option<Tables> {
    match Register(TableFor(tables, x.httpMethod), x.path, x.entry)
    case None => None
    case Some(t) => Some(tables[x.httpMethod := t])
  }

  ghost function AddAll(tables: Tables, pending: seq<Pending>): Option<Tables>
    decreases |pending|
  {
    if pending == [] then Some(tables) else
    match AddAll(tables, pending[..|pending| - 1])
    case None => None
    case Some(before) => AddOne(before, pending[|pending| - 1])
  }

  lemma {:induction false} AddAllPrefix(tables: Tables, pending: seq<Pending>, k: nat)
    requires AddAll(tables, pending).Some? && k <= |pending|
    ensures AddAll(tables, pending[..k]).Some?
    decreases |pending|
  {
    if k == |pending| {
      assert pending[..k] == pending;
    } else {
      var init := pending[..|pending| - 1];
      AddAllPrefix(tables, init, k);
      assert init[..k] == pending[..k];
    }
  }

  lemma {:induction false} RegisterAllSnoc(t: Table<Entry>, items: seq<(string, Entry)>, x: (string, Entry))
    ensures RegisterAll(t, items + [x]) ==
      match RegisterAll(t, items)
      case None => None
      case Some(u) => Register(u, x.0, x.1)
    decreases |items|
  {
    if items == [] {
      assert items + [x] == [x];
      assert [x][1..] == [];
      assert RegisterAll(t, [x]) == match Register(t, x.0, x.1) case None => None case Some(u) => RegisterAll(u, []);
    } else {
      assert (items + [x])[0] == items[0] && (items + [x])[1..] == items[1..] + [x];
      match Register(t, items[0].0, items[0].1)
      case None =>
      case Some(u) => RegisterAllSnoc(u, items[1..], x);
    }
  }

  /** The registrations of one HTTP method, to be made later. */
  function Group(m: string, items: seq<(string, Entry)>): (r: seq<Pending>)
    ensures |r| == |items|
  {
    seq(|items|, i requires 0 <= i < |items| => Pending(m, items[i].0, items[i].1))
  }

  lemma {:induction false} AddAllSnoc(tables: Tables, pending: seq<Pending>, x: Pending)
    ensures AddAll(tables, pending + [x]) ==
      match AddAll(tables, pending) case None => None case Some(before) => AddOne(before, x)
  {
    var all := pending + [x];
    assert all[..|all| - 1] == pending;
  }

  lemma GroupSnoc(m: string, items: seq<(string, Entry)>, x: (string, Entry))
    ensures Group(m, items + [x]) == Group(m, items) + [Pending(m, x.0, x.1)]
  {
  }

  lemma AddOneTo(tables: Tables, m: string, t: Table<Entry>, x: (string, Entry))
    requires TableFor(tables, m) == t && Register(t, x.0, x.1).Some?
    ensures AddOne(tables, Pending(m, x.0, x.1)) == Some(tables[m := Register(t, x.0, x.1).value])
  {
  }

  lemma TwiceUpdated(tables: Tables, m: string, t: Table<Entry>, u: Table<Entry>)
    ensures tables[m := t][m := u] == tables[m := u] && TableFor(tables[m := t], m) == t
  {
  }

  ghost function Updated(tables: Tables, m: string, items: seq<(string, Entry)>): Tables
    requires RegisterAll(TableFor(tables, m), items).Some?
  {
    if items == [] then tables else tables[m := RegisterAll(TableFor(tables, m), items).value]
  }

  lemma InitLast<T>(s: seq<T>)
    requires s != []
    ensures s == s[..|s| - 1] + [s[|s| - 1]]
  {
  }

  lemma {:induction false} UpdatedSnoc(tables: Tables, m: string, init: seq<(string, Entry)>, x: (string, Entry))
    requires RegisterAll(TableFor(tables, m), init + [x]).Some?
    ensures RegisterAll(TableFor(tables, m), init).Some?
    ensures AddOne(Updated(tables, m, init), Pending(m, x.0, x.1)) == Some(Updated(tables, m, init + [x]))
  {
    var t := TableFor(tables, m);
    RegisterAllSnoc(t, init, x);
    var u := RegisterAll(t, init).value;
    var v := Register(u, x.0, x.1).value;
    assert RegisterAll(t, init + [x]) == Some(v);
    assert Updated(tables, m, init + [x]) == tables[m := v];
    TwiceUpdated(tables, m, u, v);
    assert init == [] ==> u == t;
    assert TableFor(Updated(tables, m, init), m) == u;
    AddOneTo(Updated(tables, m, init), m, u, x);
  }

  /** Adding a group is a batch on the tree of its method and touches no other. */
  lemma {:induction false} GroupAdds(tables: Tables, pending: seq<Pending>, m: string, items: seq<(string, Entry)>, before: Tables)
    requires AddAll(tables, pending) == Some(before)
    requires RegisterAll(TableFor(before, m), items).Some?
    ensures AddAll(tables, pending + Group(m, items)) == Some(Updated(before, m, items))
    decreases |items|
  {
    if items == [] {
      assert pending + Group(m, items) == pending;
    } else {
      var init, x := items[..|items| - 1], items[|items| - 1];
      InitLast(items);
      UpdatedSnoc(before, m, init, x);
      GroupAdds(tables, pending, m, init, before);
      GroupSnoc(m, init, x);
      var y := Pending(m, x.0, x.1);
      assert pending + Group(m, items) == (pending + Group(m, init)) + [y];
      AddAllSnoc(tables, pending + Group(m, init), y);
    }
  }
}
