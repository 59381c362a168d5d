/**
 * A router seen as a table of patterns: what `insert`, `find_exact` and
 * `patterns` mean (router/radix_router.h).
 */
module RouteTable {
  import opened RoutePattern

  // ---- Pattern text ----

  predicate DoubleSlash(s: string) {
    exists i :: 0 <= i < |s| - 1 && s[i] == '/' && s[i + 1] == '/'
  }

  function Trim(s: string): string {
    if |s| > 1 && s[|s| - 1] == '/' then s[..|s| - 1] else s
  }

  predicate Admissible(s: string) {
    s != "" && s[0] == '/' && !DoubleSlash(s)
  }

  /** The pattern that a text registers, when it is legal. */
  function Read(s: string): Option<Pattern> {
    if Admissible(s) then ParseParts(Parts(Trim(s))) else None
  }

  lemma TrimAdmissible(s: string)
    requires Admissible(s)
    ensures Admissible(Trim(s)) && Trim(Trim(s)) == Trim(s) && Read(Trim(s)) == Read(s)
  {
    var t := Trim(s);
    assert t == s[..|t|];
    if |s| > 1 && s[|s| - 1] == '/' && |t| > 1 {
      assert s[|s| - 2] != '/';
    }
  }

  // ---- Tables ----

  /** Registered patterns with their values, and their texts in order of first registration. */
  datatype Table<V> = Table(routes: map<Pattern, V>, log: seq<string>)

  predicate Free<V>(routes: map<Pattern, V>, p: Pattern) {
    forall q {:trigger Conflict(p, q)} :: q in routes ==> !Conflict(p, q)
  }

  /** A registration, or None when the text is illegal or conflicts. */
  function Register<V>(t: Table<V>, s: string, v: V): Option<Table<V>> {
    match Read(s)
    case None => None
    case Some(p) =>
      if !Free(t.routes, p) then None
      else Some(Table(t.routes[p := v], if p in t.routes then t.log else t.log + [Trim(s)]))
  }

  predicate Logged(log: seq<string>, q: Pattern) {
    exists i :: 0 <= i < |log| && Read(log[i]) == Some(q)
  }

  predicate LogDistinct(log: seq<string>) {
    forall i, j :: 0 <= i < j < |log| ==> Read(log[i]) != Read(log[j])
  }

  /** The log and the routes tell the same story. */
  ghost predicate LogOk<V>(t: Table<V>) {
    && (forall i {:trigger Read(t.log[i])} :: 0 <= i < |t.log| ==> Read(t.log[i]).Some?)
    && (forall q {:trigger Logged(t.log, q)} :: q in t.routes <==> Logged(t.log, q))
    && LogDistinct(t.log)
    && |t.routes| == |t.log|
  }

  ghost predicate TableOk<V>(t: Table<V>) {
    && LogOk(t)
    && (forall p {:trigger Free(t.routes, p)} :: p in t.routes ==> Free(t.routes, p))
  }

  lemma NoSelfConflict(p: Pattern)
    ensures !Conflict(p, p)
  {
  }

  lemma LoggedSnoc(log: seq<string>, s: string, q: Pattern)
    ensures Logged(log + [s], q) <==> Logged(log, q) || Read(s) == Some(q)
  {
    var r := log + [s];
    if Logged(log, q) {
      var i :| 0 <= i < |log| && Read(log[i]) == Some(q);
      assert r[i] == log[i];
    }
    if Read(s) == Some(q) { assert r[|log|] == s; }
  }

  lemma UpdateSize<V>(m: map<Pattern, V>, p: Pattern, v: V)
    ensures |m[p := v]| == if p in m then |m| else |m| + 1
  {
    assert m[p := v].Keys == m.Keys + {p};
    assert |m[p := v]| == |m[p := v].Keys| && |m| == |m.Keys|;
  }

  lemma DistinctSnoc(log: seq<string>, s: string)
    requires LogDistinct(log) && Read(s).Some? && !Logged(log, Read(s).value)
    ensures LogDistinct(log + [s])
  {
    var r := log + [s];
    forall i, j | 0 <= i < j < |r| ensures Read(r[i]) != Read(r[j]) {
      assert r[i] == log[i] && (r[j] == s || r[j] == log[j]);
    }
  }

  lemma {:induction false} LogGrows<V>(t: Table<V>, s: string, v: V)
    requires LogOk(t) && Register(t, s, v).Some?
    ensures LogOk(Register(t, s, v).value)
  {
    var t' := Register(t, s, v).value;
    var p := Read(s).value;
    UpdateSize(t.routes, p, v);
    if p !in t.routes {
      TrimAdmissible(s);
      forall q ensures q in t'.routes <==> Logged(t'.log, q) { LoggedSnoc(t.log, Trim(s), q); }
      DistinctSnoc(t.log, Trim(s));
    }
  }

  /** A registration keeps the table consistent and free of conflicts. */
  lemma RegisterKeeps<V>(t: Table<V>, s: string, v: V)
    requires TableOk(t) && Register(t, s, v).Some?
    ensures TableOk(Register(t, s, v).value)
  {
    LogGrows(t, s, v);
    var t' := Register(t, s, v).value;
    var p := Read(s).value;
    forall a, b | a in t'.routes && b in t'.routes ensures !Conflict(a, b) {
      NoSelfConflict(p);
      if a == p && b != p { assert !Conflict(p, b); }
      if b == p && a != p { ConflictSymmetric(a, p); }
      if a != p && b != p { assert Free(t.routes, a); }
    }
  }

  // ---- Several registrations in a row ----

  ghost function RegisterAll<V>(t: Table<V>, items: seq<(string, V)>): Option<Table<V>>
    decreases |items|
  {
    if items == [] then Some(t) else
    match Register(t, items[0].0, items[0].1)
    case None => None
    case Some(u) => RegisterAll(u, items[1..])
  }

  /** Every text is legal, and its pattern conflicts neither with the table nor with the others. */
  ghost predicate Compatible<V>(t: Table<V>, items: seq<(string, V)>) {
    && (forall i :: 0 <= i < |items| ==> Read(items[i].0).Some? && Free(t.routes, Read(items[i].0).value))
    && (forall i, j :: 0 <= i < |items| && 0 <= j < |items| && Read(items[i].0).Some? && Read(items[j].0).Some? ==>
          !Conflict(Read(items[i].0).value, Read(items[j].0).value))
  }

  lemma FreeAfter<V>(routes: map<Pattern, V>, p: Pattern, v: V, q: Pattern)
    ensures Free(routes[p := v], q) <==> Free(routes, q) && !Conflict(q, p)
  {
    var after := routes[p := v];
    if Free(after, q) {
      assert p in after;
      forall r | r in routes ensures !Conflict(q, r) { assert r in after; }
    }
  }

  /**
   * A batch goes through exactly when all its texts are legal and neither they
   * nor the table hold a conflict with them: values and order do not matter.
   */
  lemma {:induction false} BatchExactly<V>(t: Table<V>, items: seq<(string, V)>)
    requires TableOk(t)
    ensures RegisterAll(t, items).Some? <==> Compatible(t, items)
    ensures RegisterAll(t, items).Some? ==> TableOk(RegisterAll(t, items).value)
    decreases |items|
  {
    if items != [] {
      var r := Register(t, items[0].0, items[0].1);
      if r.Some? {
        var u, tail, p := r.value, items[1..], Read(items[0].0).value;
        RegisterKeeps(t, items[0].0, items[0].1);
        BatchExactly(u, tail);
        CompatibleCons(t, items);
      } else {
        FirstRefused(t, items);
      }
    }
  }

  lemma FirstRefused<V>(t: Table<V>, items: seq<(string, V)>)
    requires items != [] && Register(t, items[0].0, items[0].1).None?
    ensures !Compatible(t, items)
  {
    var first := items[0].0;
    assert Read(first).None? || !Free(t.routes, Read(first).value);
  }

  lemma CompatibleCons<V>(t: Table<V>, items: seq<(string, V)>)
    requires items != [] && Register(t, items[0].0, items[0].1).Some?
    ensures Compatible(t, items) <==> Compatible(Register(t, items[0].0, items[0].1).value, items[1..])
  {
    var u, tail, p := Register(t, items[0].0, items[0].1).value, items[1..], Read(items[0].0).value;
    assert p in u.routes;
    NoSelfConflict(p);
    if Compatible(t, items) {
      forall i | 0 <= i < |tail| ensures Read(tail[i].0).Some? && Free(u.routes, Read(tail[i].0).value) {
        assert tail[i] == items[i + 1];
        FreeAfter(t.routes, p, items[0].1, Read(tail[i].0).value);
      }
      forall i, j | 0 <= i < |tail| && 0 <= j < |tail| && Read(tail[i].0).Some? && Read(tail[j].0).Some?
        ensures !Conflict(Read(tail[i].0).value, Read(tail[j].0).value)
      {
        assert tail[i] == items[i + 1] && tail[j] == items[j + 1];
      }
    }
    if Compatible(u, tail) {
      forall i | 0 <= i < |items|
        ensures Read(items[i].0).Some? && Free(t.routes, Read(items[i].0).value) && !Conflict(Read(items[i].0).value, p)
      {
        if i > 0 {
          assert tail[i - 1] == items[i];
          var q := Read(items[i].0).value;
          assert Free(u.routes, q);
          forall r | r in t.routes ensures !Conflict(q, r) { assert r in u.routes; }
        }
      }
      forall i, j | 0 <= i < |items| && 0 <= j < |items| && Read(items[i].0).Some? && Read(items[j].0).Some?
        ensures !Conflict(Read(items[i].0).value, Read(items[j].0).value)
      {
        ConflictSymmetric(Read(items[i].0).value, Read(items[j].0).value);
        if i > 0 && j > 0 { assert tail[i - 1] == items[i] && tail[j - 1] == items[j]; }
      }
    }
  }

  /** What a batch leaves: the last value given to each pattern, and the old ones elsewhere. */
  lemma {:induction false} BatchRoutes<V>(t: Table<V>, items: seq<(string, V)>)
    requires RegisterAll(t, items).Some?
    requires forall i, j :: 0 <= i < j < |items| ==> Read(items[i].0) != Read(items[j].0)
    ensures
      var u := RegisterAll(t, items).value;
      && (forall i :: 0 <= i < |items| && Read(items[i].0).Some? ==>
            Read(items[i].0).value in u.routes && u.routes[Read(items[i].0).value] == items[i].1)
      && (forall q :: q in t.routes && (forall i :: 0 <= i < |items| ==> Read(items[i].0) != Some(q)) ==>
            q in u.routes && u.routes[q] == t.routes[q])
      && (forall q :: q in u.routes ==> q in t.routes || exists i :: 0 <= i < |items| && Read(items[i].0) == Some(q))
    decreases |items|
  {
    if items != [] {
      var t1 := Register(t, items[0].0, items[0].1).value;
      var p, tail := Read(items[0].0).value, items[1..];
      forall i, j | 0 <= i < j < |tail| ensures Read(tail[i].0) != Read(tail[j].0) {
        assert tail[i] == items[i + 1] && tail[j] == items[j + 1];
      }
      BatchRoutes(t1, tail);
      var u := RegisterAll(t, items).value;
      assert forall i :: 0 <= i < |tail| ==> tail[i] == items[i + 1];
      forall i | 0 <= i < |items| && Read(items[i].0).Some?
        ensures Read(items[i].0).value in u.routes && u.routes[Read(items[i].0).value] == items[i].1
      {
        if i > 0 { assert items[i] == tail[i - 1]; }
        else {
          assert forall j :: 0 <= j < |tail| ==> Read(tail[j].0) != Some(p);
        }
      }
      forall q | q in u.routes ensures q in t.routes || exists i :: 0 <= i < |items| && Read(items[i].0) == Some(q) {
        if q !in t.routes && q != p {
          var i :| 0 <= i < |tail| && Read(tail[i].0) == Some(q);
          assert items[i + 1] == tail[i];
        } else if q == p {
          assert Read(items[0].0) == Some(q);
        }
      }
    }
  }
}
