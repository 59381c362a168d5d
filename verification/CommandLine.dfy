/** Windows argument quoting (include/coro/process.hpp) as a printer for the published
    rule "Parsing C command-line arguments" of the Microsoft C runtime. */
module CommandLine {

  const QUOTE: char := '"'
  const BACKSLASH: char := '\\'

  predicate Blank(c: char) {
    c == ' ' || c == '\t'
  }

  function Repeat(n: nat, c: char): (r: string)
    ensures |r| == n && forall i :: 0 <= i < n ==> r[i] == c
  {
    seq(n, _ => c)
  }

  predicate NeedsQuotes(a: string) {
    a == "" || exists i :: 0 <= i < |a| && (Blank(a[i]) || a[i] == QUOTE)
  }

  /** What the quoting loop still has to print for `a` after `pending` backslashes. */
  function Escaped(a: string, pending: nat): string {
    if a == "" then Repeat(2 * pending, BACKSLASH) + [QUOTE]
    else if a[0] == BACKSLASH then Escaped(a[1..], pending + 1)
    else if a[0] == QUOTE then Repeat(2 * pending + 1, BACKSLASH) + ([QUOTE] + Escaped(a[1..], 0))
    else Repeat(pending, BACKSLASH) + ([a[0]] + Escaped(a[1..], 0))
  }

  function Quoted(a: string): string {
    if NeedsQuotes(a) then [QUOTE] + Escaped(a, 0) else a
  }

  function Joined(args: seq<string>): string {
    if args == [] then "" else if |args| == 1 then Quoted(args[0]) else Quoted(args[0]) + [' '] + Joined(args[1..])
  }

  /** `quote_arg` */
  method QuoteArg(a: string) returns (r: string)
    ensures r == Quoted(a)
  {
    var plain := a != "";
    for i := 0 to |a|
      invariant plain <==> a != "" && forall j :: 0 <= j < i ==> !Blank(a[j]) && a[j] != QUOTE
    {
      if Blank(a[i]) || a[i] == QUOTE {
        plain := false;
      }
    }
    if plain {
      return a;
    }
    r := [QUOTE];
    var pending := 0;
    for i := 0 to |a|
      invariant r + Escaped(a[i..], pending) == [QUOTE] + Escaped(a, 0)
    {
      var c := a[i];
      assert a[i..][1..] == a[i + 1..];
      if c == BACKSLASH {
        pending := pending + 1;
      } else if c == QUOTE {
        assert r + (Repeat(2 * pending + 1, BACKSLASH) + ([QUOTE] + Escaped(a[i + 1..], 0)))
            == r + Repeat(2 * pending + 1, BACKSLASH) + [QUOTE] + Escaped(a[i + 1..], 0);
        r := r + Repeat(2 * pending + 1, BACKSLASH);
        r := r + [QUOTE];
        pending := 0;
      } else {
        assert r + (Repeat(pending, BACKSLASH) + ([c] + Escaped(a[i + 1..], 0)))
            == r + Repeat(pending, BACKSLASH) + [c] + Escaped(a[i + 1..], 0);
        r := r + Repeat(pending, BACKSLASH);
        r := r + [c];
        pending := 0;
      }
    }
    assert a[|a|..] == "";
    assert r + (Repeat(2 * pending, BACKSLASH) + [QUOTE]) == r + Repeat(2 * pending, BACKSLASH) + [QUOTE];
    r := r + Repeat(2 * pending, BACKSLASH);
    r := r + [QUOTE];
  }

  /** The command line `Process::create` builds. */
  method JoinArgs(args: seq<string>) returns (line: string)
    ensures line == Joined(args)
  {
    line := "";
    for i := 0 to |args|
      invariant line + (if 0 < i < |args| then [' '] else "") + Joined(args[i..]) == Joined(args)
    {
      assert args[i..][1..] == args[i + 1..];
      ghost var before := line;
      if i > 0 {
        line := line + [' '];
      }
      var q := QuoteArg(args[i]);
      line := line + q;
      if i + 1 < |args| {
        assert Joined(args[i..]) == q + [' '] + Joined(args[i + 1..]);
        assert before + (if i > 0 then [' '] else "") + (q + [' '] + Joined(args[i + 1..]))
            == line + [' '] + Joined(args[i + 1..]);
      } else {
        assert Joined(args[i..]) == q && Joined(args[i + 1..]) == "";
      }
    }
    assert args[|args|..] == [];
  }

  function Leading(s: string): (k: nat)
    ensures k <= |s| && (forall i :: 0 <= i < k ==> s[i] == BACKSLASH) && (k < |s| ==> s[k] != BACKSLASH)
  {
    if s == "" || s[0] != BACKSLASH then 0 else 1 + Leading(s[1..])
  }

  /** One argument by the published rule, and what follows it. Backslashes count only
      before a quotation mark: 2n of them print n and the mark opens or closes, 2n+1
      print n and a literal mark. A doubled mark inside quotes is a literal mark. */
  function ParseArg(s: string, inside: bool): (r: (string, string))
    ensures |r.1| <= |s|
    decreases |s|
  {
    var k := Leading(s);
    if k == |s| then (Repeat(k, BACKSLASH), "")
    else if s[k] == QUOTE then
      if k % 2 == 1 then
        var (a, rest) := ParseArg(s[k + 1..], inside);
        (Repeat(k / 2, BACKSLASH) + [QUOTE] + a, rest)
      else if inside && k + 1 < |s| && s[k + 1] == QUOTE then
        var (a, rest) := ParseArg(s[k + 2..], inside);
        (Repeat(k / 2, BACKSLASH) + [QUOTE] + a, rest)
      else
        var (a, rest) := ParseArg(s[k + 1..], !inside);
        (Repeat(k / 2, BACKSLASH) + a, rest)
    else if !inside && Blank(s[k]) then (Repeat(k, BACKSLASH), s[k..])
    else
      var (a, rest) := ParseArg(s[k + 1..], inside);
      (Repeat(k, BACKSLASH) + [s[k]] + a, rest)
  }

  /** The arguments of a command line, blanks skipped between them. */
  function ParseArgs(s: string): seq<string>
    decreases |s|
  {
    if s == "" then []
    else if Blank(s[0]) then ParseArgs(s[1..])
    else
      var (a, rest) := ParseArg(s, false);
      if |rest| < |s| then [a] + ParseArgs(rest) else [a]
  }

  lemma {:induction false} LeadingOf(n: nat, t: string)
    requires t == "" || t[0] != BACKSLASH
    ensures Leading(Repeat(n, BACKSLASH) + t) == n
  {
    var s := Repeat(n, BACKSLASH) + t;
    assert forall i :: 0 <= i < n ==> s[i] == BACKSLASH;
    assert t != "" ==> s[n] == t[0];
  }

  /** An argument ends where the line ends or a blank follows. */
  predicate Ends(rest: string) {
    rest == "" || Blank(rest[0])
  }

  /** The parts of a line that starts with a run of backslashes and one other character. */
  lemma Split(k: nat, c: char, t: string)
    requires c != BACKSLASH
    ensures var s := Repeat(k, BACKSLASH) + ([c] + t);
      && Leading(s) == k < |s| && s[k] == c && s[k + 1..] == t
      && (k + 1 < |s| <==> t != "") && (t != "" ==> s[k + 1] == t[0])
  {
    LeadingOf(k, [c] + t);
  }

  lemma Glue(r: string, c: char, e: string, rest: string)
    ensures (r + ([c] + e)) + rest == r + ([c] + (e + rest))
  {
  }

  lemma Unglue(k: nat, a: string)
    requires k < |a| && forall i :: 0 <= i < k ==> a[i] == BACKSLASH
    ensures a == Repeat(k, BACKSLASH) + ([a[k]] + a[k + 1..])
  {
  }

  lemma Prepend(n: nat, a: string)
    requires a != ""
    ensures Repeat(n, BACKSLASH) + [a[0]] + a[1..] == Repeat(n, BACKSLASH) + a
    ensures a[0] == BACKSLASH ==> Repeat(n + 1, BACKSLASH) + a[1..] == Repeat(n, BACKSLASH) + a
  {
    assert a == [a[0]] + a[1..];
  }

  lemma {:induction false} ParseNothing(rest: string)
    requires Ends(rest)
    ensures ParseArg(rest, false) == ("", rest)
  {
    assert Leading(rest) == 0;
    assert Repeat(0, BACKSLASH) == "";
  }

  lemma {:induction false} ParseClosing(n: nat, rest: string)
    requires Ends(rest)
    ensures ParseArg(Repeat(2 * n, BACKSLASH) + ([QUOTE] + rest), true) == (Repeat(n, BACKSLASH), rest)
  {
    Split(2 * n, QUOTE, rest);
    ParseNothing(rest);
    assert 2 * n / 2 == n && Repeat(n, BACKSLASH) + "" == Repeat(n, BACKSLASH);
  }

  lemma {:induction false} ParseLiteralQuote(n: nat, t: string, a: string, rest: string)
    requires ParseArg(t, true) == (a, rest)
    ensures ParseArg(Repeat(2 * n + 1, BACKSLASH) + ([QUOTE] + t), true) == (Repeat(n, BACKSLASH) + [QUOTE] + a, rest)
  {
    Split(2 * n + 1, QUOTE, t);
    assert (2 * n + 1) % 2 == 1 && (2 * n + 1) / 2 == n;
  }

  lemma {:induction false} ParsePlainChar(n: nat, c: char, t: string, a: string, rest: string, inside: bool)
    requires c != BACKSLASH && c != QUOTE && (inside || !Blank(c))
    requires ParseArg(t, inside) == (a, rest)
    ensures ParseArg(Repeat(n, BACKSLASH) + ([c] + t), inside) == (Repeat(n, BACKSLASH) + [c] + a, rest)
  {
    Split(n, c, t);
  }

  lemma {:induction false} ParseOpening(t: string, a: string, rest: string)
    requires ParseArg(t, true) == (a, rest)
    ensures ParseArg([QUOTE] + t, false) == (a, rest)
  {
    Split(0, QUOTE, t);
    assert Repeat(0, BACKSLASH) == "" && "" + ([QUOTE] + t) == [QUOTE] + t;
    assert "" + a == a;
  }

  lemma {:induction false} ParseBackslashes(n: nat, rest: string)
    requires Ends(rest)
    ensures ParseArg(Repeat(n, BACKSLASH) + rest, false) == (Repeat(n, BACKSLASH), rest)
  {
    var s := Repeat(n, BACKSLASH) + rest;
    LeadingOf(n, rest);
    assert s[n..] == rest;
  }

  /** The quoted form reads back as what was quoted. */
  lemma {:induction false} EscapedReadsBack(a: string, pending: nat, rest: string)
    requires Ends(rest)
    ensures ParseArg(Escaped(a, pending) + rest, true) == (Repeat(pending, BACKSLASH) + a, rest)
    decreases |a|
  {
    if a == "" {
      Glue(Repeat(2 * pending, BACKSLASH), QUOTE, "", rest);
      assert [QUOTE] + "" == [QUOTE] && "" + rest == rest;
      ParseClosing(pending, rest);
      assert Repeat(pending, BACKSLASH) + a == Repeat(pending, BACKSLASH);
    } else {
      Prepend(pending, a);
      if a[0] == BACKSLASH {
        EscapedReadsBack(a[1..], pending + 1, rest);
      } else {
        EscapedReadsBack(a[1..], 0, rest);
        assert Repeat(0, BACKSLASH) + a[1..] == a[1..];
        EscapedChar(a, pending, rest);
      }
    }
  }

  lemma {:induction false} EscapedChar(a: string, pending: nat, rest: string)
    requires a != "" && a[0] != BACKSLASH
    requires ParseArg(Escaped(a[1..], 0) + rest, true) == (a[1..], rest)
    ensures ParseArg(Escaped(a, pending) + rest, true) == (Repeat(pending, BACKSLASH) + a, rest)
  {
    var e := Escaped(a[1..], 0);
    Prepend(pending, a);
    if a[0] == QUOTE {
      ParseLiteralQuote(pending, e + rest, a[1..], rest);
      Glue(Repeat(2 * pending + 1, BACKSLASH), QUOTE, e, rest);
    } else {
      ParsePlainChar(pending, a[0], e + rest, a[1..], rest, true);
      Glue(Repeat(pending, BACKSLASH), a[0], e, rest);
    }
  }

  /** An unquoted argument reads back as itself. */
  lemma {:induction false} PlainReadsBack(a: string, rest: string)
    requires Ends(rest) && forall i :: 0 <= i < |a| ==> !Blank(a[i]) && a[i] != QUOTE
    ensures ParseArg(a + rest, false) == (a, rest)
    decreases |a|
  {
    var k := Leading(a);
    if k == |a| {
      assert a == Repeat(k, BACKSLASH);
      ParseBackslashes(k, rest);
    } else {
      var t := a[k + 1..];
      PlainReadsBack(t, rest);
      ParsePlainChar(k, a[k], t + rest, t, rest, false);
      Unglue(k, a);
      Glue(Repeat(k, BACKSLASH), a[k], t, rest);
      assert Repeat(k, BACKSLASH) + [a[k]] + t == Repeat(k, BACKSLASH) + ([a[k]] + t);
    }
  }

  lemma {:induction false} QuotedReadsBack(a: string, rest: string)
    requires Ends(rest)
    ensures ParseArg(Quoted(a) + rest, false) == (a, rest)
    ensures Quoted(a) != "" && !Blank(Quoted(a)[0])
  {
    if NeedsQuotes(a) {
      EscapedReadsBack(a, 0, rest);
      assert Repeat(0, BACKSLASH) + a == a;
      ParseOpening(Escaped(a, 0) + rest, a, rest);
      Glue("", QUOTE, Escaped(a, 0), rest);
      assert "" + ([QUOTE] + Escaped(a, 0)) == Quoted(a);
      assert "" + ([QUOTE] + (Escaped(a, 0) + rest)) == [QUOTE] + (Escaped(a, 0) + rest);
    } else {
      PlainReadsBack(a, rest);
    }
  }

  /** Round trip: whatever the arguments, empty ones and backslash runs included, the
      command line is parsed back into exactly them. */
  lemma {:induction false} CommandLineReadsBack(args: seq<string>)
    ensures ParseArgs(Joined(args)) == args
  {
    if args != [] {
      var more := if |args| == 1 then "" else [' '] + Joined(args[1..]);
      QuotedReadsBack(args[0], more);
      assert Joined(args) == Quoted(args[0]) + more;
      CommandLineReadsBack(args[1..]);
      if |args| > 1 {
        assert more[1..] == Joined(args[1..]);
      }
      assert args == [args[0]] + args[1..];
    }
  }
}
