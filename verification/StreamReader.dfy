/**
 * The buffered reader: a growing buffer, a resumable search cursor for the
 * delimiter and another for line ends (include/coro/stream.hpp).
 */
module StreamReader {
  import opened StreamCore

  /**
   * A source that hands over its bytes as it likes: `cuts` says, read by read,
   * how many it would give (a negative number is an I/O error). It never gives
   * more than there is room for, and nothing only when nothing is left.
   */
  class Source {
    var unread: Bytes
    var cuts: seq<int>
    /** Where reads have stopped, counted in bytes from the end of the stream. */
    ghost var stops: set<nat>

    ghost predicate Valid()
      reads this
    {
      |unread| in stops
    }

    constructor (bytes: Bytes, schedule: seq<int>)
      ensures Valid() && unread == bytes && cuts == schedule
    {
      unread, cuts, stops := bytes, schedule, {|bytes|};
    }

    method Read(room: nat) returns (n: int, data: Bytes)
      requires Valid() && room > 0
      modifies this
      ensures Valid() && old(stops) <= stops
      ensures n >= 0 ==> |data| == n <= room && old(unread) == data + unread
      ensures n == 0 ==> unread == []
      ensures n < 0 ==> unread == old(unread)
      ensures old(cuts) != [] && 0 < old(cuts)[0] <= room && old(cuts)[0] <= |old(unread)| ==> n == old(cuts)[0]
      ensures cuts == if old(cuts) == [] then [] else old(cuts)[1..]
    {
      var want := room;
      if cuts != [] {
        want, cuts := cuts[0], cuts[1..];
      }
      if want < 0 { return -1, []; }
      n := if want == 0 then 1 else want;
      n := if n < room then n else room;
      n := if n < |unread| then n else |unread|;
      data, unread := unread[..n], unread[n..];
      stops := stops + {|unread|};
    }
  }

  lemma Associate(a: Bytes, b: Bytes, c: Bytes)
    ensures (a + b) + c == a + (b + c)
  {
  }

  lemma Regroup(a: Bytes, b: Bytes, c: Bytes)
    ensures a + (b + c) == (a + b) + c
  {
  }

  datatype Fill = Filled | Ended | Full | Broken

  /** The capacity a reader starts with; None is std::invalid_argument. */
  function InitialCapacity(requested: nat, maximum: nat): (c: Option<nat>)
    ensures c.Some? <==> maximum > 0
    ensures c.Some? ==> 1 <= c.value <= maximum
  {
    if maximum == 0 then None else
    var asked := if requested == 0 then 1 else requested;
    Some(if asked < maximum then asked else maximum)
  }

  class Reader {
    const src: Source
    const limit: nat
    var buf: array<char>
    var used: nat
    var head: nat
    var scanMark: nat
    var byteMark: nat
    var eof: bool
    /** Everything handed out or swallowed so far, in order. */
    ghost var consumed: Bytes

    ghost predicate Valid()
      reads this, src, buf
    {
      src.Valid() && 0 < buf.Length <= limit && head <= used <= buf.Length && (eof ==> src.unread == [])
    }

    ghost function Buffered(): Bytes
      reads this`buf, this`head, this`used, buf
      requires head <= used <= buf.Length
    {
      buf[head..used]
    }

    /** The bytes still to come: buffered, then unread. */
    ghost function Rest(): Bytes
      reads this`buf, this`head, this`used, buf, src
      requires head <= used <= buf.Length
    {
      Buffered() + src.unread
    }

    /** The delimiter cursor skips only places where `d` does not stand. */
    ghost predicate Clear(d: Bytes)
      reads this, src, buf
      requires head <= used <= buf.Length
    {
      scanMark <= |Buffered()| && forall i: nat :: i < scanMark ==> !At(Rest(), d, i)
    }

    constructor (source: Source, capacity: nat, maximum: nat)
      requires source.Valid() && InitialCapacity(capacity, maximum).Some?
      ensures Valid() && fresh(buf) && src == source && limit == maximum
      ensures Rest() == source.unread && consumed == [] && scanMark == 0 && byteMark == 0 && !eof
      ensures buf.Length == InitialCapacity(capacity, maximum).value && Buffered() == []
    {
      src, limit := source, maximum;
      buf := new char[InitialCapacity(capacity, maximum).value](_ => '\0');
      used, head, scanMark, byteMark, eof, consumed := 0, 0, 0, 0, false, [];
    }

    /** Moves the buffered bytes to the front of the buffer. */
    method Compact()
      requires Valid()
      modifies this`used, this`head, buf
      ensures Valid() && head == 0 && Buffered() == old(Buffered())
    {
      var n := used - head;
      forall i | 0 <= i < n { buf[i] := buf[head + i]; }
      used, head := n, 0;
    }

    /** Makes the buffer larger, by at least one byte and up to the limit. */
    method Grow()
      requires Valid() && buf.Length < limit
      modifies this`buf
      ensures Valid() && fresh(buf) && buf.Length > old(buf.Length) && Buffered() == old(Buffered())
    {
      ghost var b := Buffered();
      var remaining := limit - buf.Length;
      var step := if buf.Length < 1024 then 1024 else buf.Length;
      var bigger := buf.Length + if remaining < step then remaining else step;
      var wide := new char[bigger](_ => '\0');
      forall i | 0 <= i < used { wide[i] := buf[i]; }
      assert forall i :: 0 <= i < |b| ==> b[i] == buf[head + i];
      assert wide[head..used] == b;
      buf := wide;
      assert Buffered() == b;
    }

    /** The next read brings some bytes that fit the buffer as it is. */
    ghost predicate Prompt()
      reads this, src, buf
      requires head <= used <= buf.Length
    {
      !eof && src.cuts != [] && 0 < src.cuts[0] <= |src.unread| && |Buffered()| + src.cuts[0] <= buf.Length
    }

    /** Reads once more from the source. Nothing is lost, whatever happens. */
    method Refill() returns (r: Fill)
      requires Valid()
      modifies this`buf, this`used, this`head, this`eof, buf, src
      ensures Valid() && (buf == old(buf) || fresh(buf)) && Rest() == old(Rest())
      ensures r == Filled ==> old(Buffered()) <= Buffered() && |Buffered()| > |old(Buffered())|
      ensures r != Filled ==> Buffered() == old(Buffered())
      ensures r == Ended ==> eof
      ensures r != Ended ==> !old(eof) && eof == old(eof)
      ensures old(src.stops) <= src.stops
      ensures r == Full <==> !old(eof) && |old(Buffered())| == limit
      ensures old(Prompt()) ==>
        && r == Filled && Buffered() == old(Buffered()) + old(src.unread)[..old(src.cuts)[0]]
        && buf.Length == old(buf.Length) && src.cuts == old(src.cuts)[1..]
    {
      if eof { return Ended; }
      var ok := MakeRoom();
      if !ok { return Full; }
      var n := Pull();
      if n == 0 {
        eof := true;
        return Ended;
      }
      if n < 0 { return Broken; }
      return Filled;
    }

    /** Moves the buffered bytes to the front and makes sure that there is room behind them, if the limit allows. */
    method MakeRoom() returns (ok: bool)
      requires Valid()
      modifies this`buf, this`used, this`head, buf
      ensures Valid() && (buf == old(buf) || fresh(buf)) && Buffered() == old(Buffered())
      ensures ok <==> |Buffered()| < limit
      ensures ok ==> head == 0 && used < buf.Length
      ensures |Buffered()| < old(buf.Length) ==> buf.Length == old(buf.Length)
    {
      if head > 0 { Compact(); }
      if used == buf.Length {
        if buf.Length >= limit { return false; }
        Grow();
      }
      return true;
    }

    /** One read of the source into the free part of the buffer. */
    method Pull() returns (n: int)
      requires Valid() && head == 0 && used < buf.Length
      modifies this`used, buf, src
      ensures Valid() && Rest() == old(Rest()) && old(src.stops) <= src.stops
      ensures n > 0 ==> |Buffered()| > |old(Buffered())| && old(Buffered()) <= Buffered()
      ensures n <= 0 ==> Buffered() == old(Buffered())
      ensures n == 0 ==> src.unread == []
      ensures old(Prompt()) ==>
        && n > 0 && Buffered() == old(Buffered()) + old(src.unread)[..old(src.cuts)[0]]
        && src.cuts == old(src.cuts)[1..]
    {
      ghost var before := Buffered();
      var data;
      n, data := src.Read(buf.Length - used);
      if n > 0 {
        forall i | 0 <= i < n { buf[used + i] := data[i]; }
        used := used + n;
        assert Buffered() == before + data;
        Associate(before, data, src.unread);
      } else {
        assert n == 0 ==> data == [];
        assert Buffered() == before;
      }
    }

    // ---- Taking bytes out of the buffer ----

    method RewindMarks(n: nat)
      modifies this`scanMark, this`byteMark
      ensures scanMark == (if old(scanMark) > n then old(scanMark) - n else 0)
      ensures byteMark == (if old(byteMark) > n then old(byteMark) - n else 0)
    {
      scanMark := if scanMark > n then scanMark - n else 0;
      byteMark := if byteMark > n then byteMark - n else 0;
    }

    /** Hands out the next `n` buffered bytes and swallows `skip` more; the cursors follow the first `n` only. */
    method HandOut(n: nat, skip: nat) returns (out: Bytes)
      requires Valid() && n + skip <= |Buffered()|
      modifies this`head, this`scanMark, this`byteMark, this`consumed
      ensures Valid() && out == old(Rest())[..n] && Rest() == old(Rest())[n + skip..]
      ensures Buffered() == old(Buffered())[n + skip..]
      ensures consumed == old(consumed) + old(Rest())[..n + skip]
      ensures scanMark == (if old(scanMark) > n then old(scanMark) - n else 0)
      ensures byteMark == (if old(byteMark) > n then old(byteMark) - n else 0)
    {
      ghost var b, u := Buffered(), src.unread;
      Front(b, u, n);
      Front(b, u, n + skip);
      consumed := consumed + Rest()[..n + skip];
      out := buf[head..used][..n];
      head := head + (n + skip);
      assert Buffered() == b[n + skip..];
      RewindMarks(n);
    }

    // ---- read_until ----

    /** The first delimiter inside the buffer, looked for from the cursor on. */
    method Scan(d: Bytes) returns (hit: Option<nat>)
      requires Valid() && d != [] && Clear(d)
      modifies this`scanMark
      ensures Clear(d)
      ensures hit.Some? ==> hit.value + |d| <= |Buffered()| && Find(Rest(), d, 0) == hit && scanMark <= hit.value
      ensures hit.None? ==> forall i: nat :: i + |d| <= |Buffered()| ==> !At(Rest(), d, i)
    {
      var base := buf[head..used];
      ghost var rest := Rest();
      if |base| < |d| { return None; }
      var left := |base| - |d|;
      var i := if scanMark < left then scanMark else left;
      while i <= left
        invariant i <= left + 1 && scanMark == old(scanMark) && forall j: nat :: j < i ==> !At(rest, d, j)
      {
        AtPrefix(base, src.unread, d, i);
        if base[i..i + |d|] == d {
          FindUnique(rest, d, 0, i);
          return Some(i);
        }
        i := i + 1;
      }
      scanMark := left + 1;
      return None;
    }

    /** Fills the buffer until the delimiter shows, or until no more can come. */
    method SeekDelimiter(d: Bytes) returns (s: Seek)
      requires Valid() && d != [] && Clear(d)
      modifies this`buf, this`used, this`head, this`eof, this`scanMark, buf, src
      ensures Valid() && (buf == old(buf) || fresh(buf)) && Rest() == old(Rest()) && Clear(d)
      ensures s.Hit? ==> s.at + |d| <= |Buffered()| && scanMark <= s.at
      ensures s == Stop(0, Ended) ==> eof && Rest() == Buffered()
      ensures s != Stop(0, Broken) ==> Until(Rest(), d, limit, old(eof)) == Concluded(s, Rest(), s.at, |d|)
      ensures s.Stop? ==> s.at == 0 && s.stop != Filled
    {
      ghost var rest := Rest();
      while true
        invariant Valid() && (buf == old(buf) || fresh(buf)) && Clear(d)
        invariant Rest() == rest && eof == old(eof)
        decreases limit - |Buffered()|
      {
        var hit := Scan(d);
        if hit.Some? {
          JustHere(rest, d, hit.value, limit, eof);
          return Hit(hit.value);
        }
        ghost var b := Buffered();
        var filled := Refill();
        if filled == Full { TooLong(b, src.unread, d, rest); }
        if filled == Ended { TailOnly(b, src.unread, d, limit, old(eof), rest); }
        if filled != Filled { return Stop(0, filled); }
      }
    }

    /**
     * Reads up to the delimiter: however the source splits its bytes, the
     * outcome is that of cutting the bytes still to come at the first
     * delimiter. An error or an overflow consumes nothing.
     */
    method ReadUntil(d: Bytes) returns (r: Outcome, ghost taken: Bytes)
      requires Valid() && d != [] && Clear(d)
      modifies this, buf, src
      ensures Valid() && (buf == old(buf) || fresh(buf))
      ensures r != IoError ==> (r, |taken|) == Until(old(Rest()), d, limit, old(eof))
      ensures r == IoError ==> taken == []
      ensures old(Rest()) == taken + Rest() && consumed == old(consumed) + taken
      ensures r.Piece? || r.End? ==> scanMark == 0 && byteMark <= old(byteMark)
      ensures r.Overflow? || r.IoError? ==> Clear(d)
      ensures r.End? ==> eof
    {
      var s := SeekDelimiter(d);
      r, taken := Conclude(s, s.at, |d|);
    }

    /** Turns the end of a search into the outcome of the call: after a hit, `content` bytes and `skip` swallowed ones. */
    method Conclude(s: Seek, content: nat, skip: nat) returns (r: Outcome, ghost taken: Bytes)
      requires Valid() && (s.Stop? ==> s.at == 0 && s.stop != Filled) && (s.Hit? ==> content + skip <= |Buffered()|)
      requires s == Stop(0, Ended) ==> Rest() == Buffered()
      modifies this`head, this`scanMark, this`byteMark, this`consumed
      ensures Valid() && old(Rest()) == taken + Rest() && consumed == old(consumed) + taken
      ensures s == Stop(0, Full) || s == Stop(0, Broken) ==> Rest() == old(Rest()) && Buffered() == old(Buffered())
      ensures (r, |taken|) == Concluded(s, old(Rest()), content, skip)
      ensures
        var gone := if s.Hit? then content else if s == Stop(0, Ended) then |old(Rest())| else 0;
        && scanMark == (if old(scanMark) > gone then old(scanMark) - gone else 0)
        && byteMark == (if old(byteMark) > gone then old(byteMark) - gone else 0)
      ensures s.Hit? ==> |Buffered()| == |old(Buffered())| - content - skip
    {
      ghost var rest := Rest();
      WholeCuts(rest, consumed);
      taken := [];
      if s.Hit? {
        var out := HandOut(content, skip);
        taken := rest[..content + skip];
        WholeCut(rest, content + skip);
        return Piece(out), taken;
      }
      if s.stop == Full { return Overflow, taken; }
      if s.stop == Broken { return IoError, taken; }
      r, taken := DrainTail();
    }

    /** Hands out all that is left, as the last piece if there is any. */
    method DrainTail() returns (r: Outcome, ghost taken: Bytes)
      requires Valid() && Rest() == Buffered()
      modifies this`head, this`scanMark, this`byteMark, this`consumed
      ensures Valid() && taken == old(Rest()) && Rest() == [] && consumed == old(consumed) + taken
      ensures (r, |taken|) == Tail(old(Rest()))
      ensures
        var gone := |old(Rest())|;
        && scanMark == (if old(scanMark) > gone then old(scanMark) - gone else 0)
        && byteMark == (if old(byteMark) > gone then old(byteMark) - gone else 0)
    {
      taken := Rest();
      WholeCuts(taken, consumed);
      if used == head { return End, taken; }
      var out := HandOut(used - head, 0);
      return Piece(out), taken;
    }

    // ---- read_line ----

    /** Where the next line search starts. */
    function From(): nat
      reads this`byteMark, this`head, this`used
      requires head <= used
    {
      if byteMark < used - head then byteMark else used - head
    }

    /** The first LF inside the buffer, looked for from the cursor on. */
    method FindByte() returns (hit: Option<nat>)
      requires Valid()
      modifies this`byteMark
      ensures hit.Some? ==> hit.value < |Buffered()| && byteMark == old(byteMark) <= hit.value
      ensures hit.Some? ==> At(Rest(), LF, hit.value) && NoLf(Rest(), old(From()), hit.value)
      ensures hit.None? ==> byteMark == |Buffered()| && NoLf(Rest(), old(From()), byteMark)
    {
      var base := buf[head..used];
      ghost var rest := Rest();
      var i := From();
      while i < |base|
        invariant old(From()) <= i <= |base| && byteMark == old(byteMark) && NoLf(rest, old(From()), i)
      {
        assert rest[i] == base[i] && rest[i..i + 1] == [rest[i]];
        if base[i] == '\n' { return Some(i); }
        i := i + 1;
      }
      byteMark := |base|;
      return None;
    }

    /** The buffer ends in a CR, holds no LF, and the next read starts with the LF. */
    ghost predicate CrLfSplit()
      reads this, src, buf
      requires head <= used <= buf.Length
    {
      && Prompt() && byteMark <= |Buffered()| && Buffered() != [] && Buffered()[|Buffered()| - 1] == '\r'
      && '\n' !in Buffered() && src.unread[0] == '\n'
    }

    /** A search for an LF in `rest`, begun at `from` with `k` bytes buffered and the cursor at `mark0`, has not found it. */
    ghost predicate Seeking(rest: Bytes, from: nat, k: nat, mark0: nat)
      reads this, src, buf
      requires head <= used <= buf.Length
    {
      && Rest() == rest && from <= From() && NoLf(rest, from, From()) && k <= |Buffered()|
      && if |Buffered()| == k then byteMark == mark0 else k <= byteMark <= |rest| && |rest| - byteMark in src.stops
    }

    /** One look into the buffer and, without an LF there, one more read. */
    method Look(ghost rest: Bytes, ghost from: nat, ghost k: nat, ghost mark0: nat) returns (s: Seek)
      requires Valid() && Seeking(rest, from, k, mark0)
      modifies this`buf, this`used, this`head, this`eof, this`byteMark, buf, src
      ensures Valid() && (buf == old(buf) || fresh(buf)) && Rest() == rest
      ensures s.Hit? ==> s.at < |Buffered()| && Searched(s.at, byteMark, mark0, k, |rest|, src.stops)
      ensures s.Stop? ==> s.at == 0 && NoLf(rest, from, k)
      ensures s == Stop(0, Filled) ==> Seeking(rest, from, k, mark0) && |Buffered()| > |old(Buffered())| && eof == old(eof)
      ensures s.Stop? && s.stop != Filled ==> byteMark == |Buffered()|
      ensures s == Stop(0, Ended) ==> eof && Rest() == Buffered()
      ensures s.Hit? || s.stop == Full || s.stop == Ended ==> Line(rest, from, limit, old(eof)) == LineEnd(s, rest)
      ensures s.Hit? ==> Find(rest, LF, from) == Some(s.at)
      ensures s == Stop(0, Ended) ==> Find(rest, LF, from) == None
      ensures old(Prompt()) && s == Stop(0, Filled) ==> |Buffered()| == |old(Buffered())| + old(src.cuts)[0]
      ensures old(Prompt()) && s.Stop? ==> s.stop == Filled
      ensures s.Hit? ==> Buffered() == old(Buffered()) && NoLf(rest, old(From()), s.at) && At(rest, LF, s.at)
      ensures s.Stop? ==> NoLf(rest, old(From()), |old(Buffered())|)
    {
      ghost var b := Buffered();
      var hit := FindByte();
      if hit.Some? {
        LineHere(rest, from, hit.value, limit, eof);
        return Hit(hit.value);
      }
      var filled := Refill();
      if filled == Full { LineTooLong(b, src.unread, from, rest); }
      if filled == Ended { LineTail(b, src.unread, from, limit, old(eof), rest); }
      return Stop(0, filled);
    }

    /** Fills the buffer until an LF shows, or until no more can come. */
    method SeekLf() returns (s: Seek)
      requires Valid()
      modifies this`buf, this`used, this`head, this`eof, this`byteMark, buf, src
      ensures Valid() && (buf == old(buf) || fresh(buf)) && Rest() == old(Rest())
      ensures s.Hit? ==> s.at < |Buffered()| && Searched(s.at, byteMark, old(byteMark), |old(Buffered())|, |Rest()|, src.stops)
      ensures s.Stop? ==> s.at == 0 && s.stop != Filled && byteMark == |Buffered()| && NoLf(Rest(), old(From()), |old(Buffered())|)
      ensures s == Stop(0, Ended) ==> eof && Rest() == Buffered()
      ensures s != Stop(0, Broken) ==> Line(Rest(), old(From()), limit, old(eof)) == LineEnd(s, Rest())
      ensures s.Hit? ==> Find(Rest(), LF, old(From())) == Some(s.at)
      ensures s == Stop(0, Ended) ==> Find(Rest(), LF, old(From())) == None
      ensures old(CrLfSplit()) ==> s.Hit? && |Buffered()| == |old(Buffered())| + old(src.cuts)[0]
    {
      ghost var rest, from, k := Rest(), From(), |Buffered()|;
      ghost var split := CrLfSplit();
      ghost var step: nat := if split then src.cuts[0] else 0;
      if split { SplitFound(Buffered(), src.unread); }
      while true
        invariant Valid() && (buf == old(buf) || fresh(buf)) && eof == old(eof)
        invariant Seeking(rest, from, k, old(byteMark))
        invariant split ==> (|Buffered()| == k && Prompt() && src.cuts[0] == step) || |Buffered()| == k + step
        decreases limit - |Buffered()|
      {
        s := Look(rest, from, k, old(byteMark));
        if s != Stop(0, Filled) { return; }
      }
    }

    /** A found LF, and how much before it is content. */
    method SeekLine() returns (s: Seek, content: nat)
      requires Valid()
      modifies this`buf, this`used, this`head, this`eof, this`byteMark, buf, src
      ensures Valid() && (buf == old(buf) || fresh(buf)) && Rest() == old(Rest())
      ensures s.Hit? ==> s.at < |Buffered()| && byteMark <= s.at && content <= s.at <= content + 1
      ensures s.Hit? ==> Searched(s.at, byteMark, old(byteMark), |old(Buffered())|, |Rest()|, src.stops)
      ensures s.Stop? ==> s.at == 0 && content == 0 && s.stop != Filled && byteMark == |Buffered()|
      ensures s.Stop? ==> NoLf(Rest(), old(From()), |old(Buffered())|)
      ensures s == Stop(0, Ended) ==> eof && Rest() == Buffered()
      ensures s != Stop(0, Broken) ==>
        Line(Rest(), old(From()), limit, old(eof)) == Concluded(s, Rest(), content, s.at + 1 - content)
      ensures s.Hit? ==> content == ContentEnd(Rest(), s.at) && Find(Rest(), LF, old(From())) == Some(s.at)
      ensures s == Stop(0, Ended) ==> Find(Rest(), LF, old(From())) == None
      ensures old(CrLfSplit()) ==> s.Hit? && |Buffered()| == |old(Buffered())| + old(src.cuts)[0]
    {
      ghost var b, u := Buffered(), src.unread;
      ContentHere(b, u, |b|);
      s := SeekLf();
      content := LineContent(s);
    }

    method LineContent(s: Seek) returns (content: nat)
      requires Valid() && (if s.Hit? then s.at < |Buffered()| else s.at == 0)
      ensures content <= s.at <= content + 1 && (s.Hit? ==> content == ContentEnd(Rest(), s.at)) && (s.Stop? ==> content == 0)
    {
      content := s.at;
      if s.Hit? {
        if content > 0 && buf[head + content - 1] == '\r' { content := content - 1; }
        ContentHere(Buffered(), src.unread, s.at);
      }
    }

    /**
     * Reads a line. The outcome is that of the bytes still to come, searched
     * from where the cursor stands; `CursorExactly` says when that is right.
     * The call leaves the cursor at 1 exactly when the line ended in CR LF and
     * the search had got to just before the LF: as `Searched` says, because
     * the source stopped there in this call, or the cursor stood there before.
     */
    method ReadLine() returns (r: Outcome, ghost taken: Bytes, ghost mark: nat)
      requires Valid()
      modifies this, buf, src
      ensures Valid() && (buf == old(buf) || fresh(buf))
      ensures r != IoError ==> (r, |taken|) == Line(old(Rest()), old(From()), limit, old(eof))
      ensures r == IoError ==> taken == [] && NoLf(old(Rest()), old(From()), |old(Buffered())|)
      ensures old(Rest()) == taken + Rest() && consumed == old(consumed) + taken
      ensures r.Piece? || r.End? ==> byteMark <= 1 && scanMark <= old(scanMark)
      ensures r.Piece? && Find(old(Rest()), LF, old(From())).Some? ==>
        var i := Find(old(Rest()), LF, old(From())).value;
        && Searched(i, mark, old(byteMark), |old(Buffered())|, |old(Rest())|, src.stops)
        && (byteMark == 1 <==> i > 0 && old(Rest())[i - 1] == '\r' && mark == i)
      ensures old(CrLfSplit()) ==> r.Piece? && |Buffered()| == |old(Buffered())| + old(src.cuts)[0] - |taken|
    {
      var s, content := SeekLine();
      mark := byteMark;
      ghost var rest := Rest();
      assert s.Hit? ==> (content == s.at - 1 <==> s.at > 0 && rest[s.at - 1] == '\r');
      r, taken := Conclude(s, content, s.at + 1 - content);
    }

    // ---- read_some and read_exactly ----

    /** Between one and `want` bytes, after a read of the source if none are buffered. */
    method TakeSome(want: nat) returns (got: Fill, out: Bytes)
      requires Valid() && want > 0
      modifies this, buf, src
      ensures Valid() && (buf == old(buf) || fresh(buf))
      ensures old(Rest()) == out + Rest() && consumed == old(consumed) + out
      ensures got == Filled ==> 0 < |out| <= want
      ensures got != Filled ==> out == [] && got != Full
      ensures got == Ended ==> eof && Rest() == []
      ensures scanMark <= old(scanMark) && byteMark <= old(byteMark)
    {
      got, out := Filled, [];
      if used == head {
        got := Refill();
        if got != Filled { return; }
      }
      ghost var rest := Rest();
      out := HandOut(if used - head < want then used - head else want, 0);
      WholeCut(rest, |out|);
    }

    /** Between one and `want` bytes, in order; End only when there are none left. */
    method ReadSome(want: nat) returns (r: Outcome)
      requires Valid()
      modifies this, buf, src
      ensures Valid() && (buf == old(buf) || fresh(buf))
      ensures r.Piece? ==> |r.bytes| <= want && (want > 0 ==> r.bytes != [])
      ensures r.Piece? ==> old(Rest()) == r.bytes + Rest() && consumed == old(consumed) + r.bytes
      ensures !r.Piece? ==> (r == End || r == IoError) && Rest() == old(Rest()) && consumed == old(consumed)
      ensures r.End? ==> want > 0 && Rest() == [] && eof
      ensures scanMark <= old(scanMark) && byteMark <= old(byteMark)
    {
      if want == 0 { return Piece([]); }
      var got, out := TakeSome(want);
      r := if got == Filled then Piece(out) else if got == Ended then End else IoError;
    }

    /** Exactly `want` bytes, or the exception that says how many came; what came is consumed either way. */
    method ReadExactly(want: nat) returns (r: Exact)
      requires Valid()
      modifies this, buf, src
      ensures Valid() && (buf == old(buf) || fresh(buf))
      ensures r.Got? ==> |r.bytes| == want && old(Rest()) == r.bytes + Rest() && consumed == old(consumed) + r.bytes
      ensures r.Incomplete? ==> r == Incomplete(want, |old(Rest())|) && |old(Rest())| < want && Rest() == [] && eof
      ensures r.Failed? ==> r.received < want && |old(Rest())| == r.received + |Rest()|
      ensures consumed + Rest() == old(consumed) + old(Rest())
      ensures scanMark <= old(scanMark) && byteMark <= old(byteMark)
    {
      ghost var rest, before := Rest(), consumed;
      var out: Bytes := [];
      while |out| < want
        invariant Valid() && (buf == old(buf) || fresh(buf)) && scanMark <= old(scanMark) && byteMark <= old(byteMark)
        invariant |out| <= want && rest == out + Rest() && consumed == before + out
        decreases want - |out|
      {
        var got, more := TakeSome(want - |out|);
        Regroup(out, more, Rest());
        Regroup(before, out, more);
        out := out + more;
        if got != Filled {
          Regroup(before, out, Rest());
          return if got == Ended then Incomplete(want, |out|) else Failed(|out|);
        }
      }
      Regroup(before, out, Rest());
      return Got(out);
    }

    // ---- A whole stream ----

    /**
     * All the pieces of a stream: read one after the other they are the
     * simple split of everything that was to come, for every way in which the
     * source hands its bytes over.
     */
    method ReadAll(d: Bytes) returns (pieces: seq<Bytes>, last: Outcome)
      requires Valid() && d != [] && scanMark == 0
      modifies this, buf, src
      ensures Valid() && (buf == old(buf) || fresh(buf)) && (last == End || last == Overflow || last == IoError)
      ensures last == End ==> Rest() == [] && pieces == Split(old(Rest()), d)
      ensures consumed + Rest() == old(consumed) + old(Rest())
      ensures AllFit(old(Rest()), d, limit) || old(Rest()) == [] ==> last != Overflow
      decreases |Rest()|
    {
      ghost var now, known, before := Rest(), eof, consumed;
      var r, taken := ReadUntil(d);
      Regroup(before, taken, Rest());
      if !r.Piece? {
        NoMore(now, d, limit, known, r, taken);
        return [], r;
      }
      OneCut(now, d, limit, known, taken, Rest());
      pieces, last := ReadAll(d);
      pieces := [r.bytes] + pieces;
    }
  }

  datatype Exact = Got(bytes: Bytes) | Incomplete(requested: nat, received: nat) | Failed(received: nat)

  /** Where a search ended: at a delimiter, or (at 0) because no more bytes came. */
  datatype Seek = Hit(at: nat) | Stop(at: nat, stop: Fill)

  /** The outcome that the end of a search means, and the bytes it consumes. */
  function Concluded(s: Seek, rest: Bytes, content: nat, skip: nat): (Outcome, nat) {
    match s
    case Hit(_) => (if content <= |rest| then Piece(rest[..content]) else End, content + skip)
    case Stop(_, Ended) => Tail(rest)
    case Stop(_, Broken) => (IoError, 0)
    case Stop(_, _) => (Overflow, 0)
  }

  /** The last piece of a stream. */
  function Tail(r: Bytes): (Outcome, nat) {
    (if r == [] then End else Piece(r), |r|)
  }

  lemma JustHere(rest: Bytes, d: Bytes, i: nat, limit: nat, eof: bool)
    requires d != [] && Find(rest, d, 0) == Some(i) && i + |d| <= limit
    ensures Until(rest, d, limit, eof) == Concluded(Hit(i), rest, i, |d|)
  {
  }

  /** With the buffer full and no delimiter inside it, the delimiter, if any, ends beyond the limit. */
  lemma TooLong(b: Bytes, u: Bytes, d: Bytes, rest: Bytes)
    requires d != [] && rest == b + u && forall i: nat :: i + |d| <= |b| ==> !At(rest, d, i)
    ensures Until(rest, d, |b|, false) == Concluded(Stop(0, Full), rest, 0, |d|)
  {
  }

  /** With nothing left unread and no delimiter in the buffer, the buffer is the last piece. */
  lemma TailOnly(b: Bytes, u: Bytes, d: Bytes, limit: nat, eof: bool, rest: Bytes)
    requires d != [] && u == [] && rest == b + u && forall i: nat :: i + |d| <= |b| ==> !At(rest, d, i)
    requires eof || |b| < limit
    ensures rest == b && Until(rest, d, limit, eof) == Concluded(Stop(0, Ended), rest, 0, |d|)
  {
    assert b + u == b;
  }

  /**
   * When the LF at `at` is found the cursor stands at `mark`: where it stood,
   * if the LF was buffered already, else at the end of what was buffered
   * before the last read, a place where the source stopped.
   */
  predicate Searched(at: nat, mark: nat, before: nat, buffered: nat, rest: nat, stops: set<nat>) {
    mark <= at && if at < buffered then mark == before else buffered <= mark <= rest && rest - mark in stops
  }

  function LineEnd(s: Seek, rest: Bytes): (Outcome, nat) {
    if s.Hit? then
      if s.at < |rest| then Concluded(s, rest, ContentEnd(rest, s.at), s.at + 1 - ContentEnd(rest, s.at)) else (Overflow, 0)
    else Concluded(s, rest, 0, 1)
  }

  lemma LineHere(rest: Bytes, from: nat, i: nat, limit: nat, eof: bool)
    requires from <= i < limit && At(rest, LF, i) && NoLf(rest, from, i)
    ensures Line(rest, from, limit, eof) == LineEnd(Hit(i), rest) && Find(rest, LF, from) == Some(i)
  {
    FindUnique(rest, LF, from, i);
  }

  lemma LineTooLong(b: Bytes, u: Bytes, from: nat, rest: Bytes)
    requires rest == b + u && NoLf(rest, from, |b|)
    ensures Line(rest, from, |b|, false) == LineEnd(Stop(0, Full), rest)
  {
  }

  lemma LineTail(b: Bytes, u: Bytes, from: nat, limit: nat, eof: bool, rest: Bytes)
    requires u == [] && rest == b + u && NoLf(rest, from, |b|)
    requires eof || |b| < limit
    ensures rest == b && Line(rest, from, limit, eof) == LineEnd(Stop(0, Ended), rest) && Find(rest, LF, from) == None
  {
    assert b + u == b;
  }

  /**
   * Wherever the cursor stands, the next line is the right one exactly when no
   * LF is buffered before the place where the search starts.
   */
  lemma CursorExactly(b: Bytes, u: Bytes, mark: nat, limit: nat, eof: bool)
    requires |b| <= limit
    ensures
      var from := if mark < |b| then mark else |b|;
      Line(b + u, from, limit, eof) == Line(b + u, 0, limit, eof) <==> forall i :: 0 <= i < from ==> b[i] != '\n'
  {
    var from := if mark < |b| then mark else |b|;
    LineExactly(b + u, from, limit, eof);
    forall i: nat | i < from ensures At(b + u, LF, i) <==> b[i] == '\n' {
      assert (b + u)[i..i + 1] == [b[i]];
    }
  }

  lemma ContentHere(b: Bytes, u: Bytes, i: nat)
    ensures i < |b| ==> ContentEnd(b + u, i) == ContentEnd(b, i)
    ensures i == |b| && u != [] ==> ContentEnd(b + u, i) == (if b != [] && b[|b| - 1] == '\r' then |b| - 1 else |b|)
  {
  }

  /** The LF that comes next is the first one. */
  lemma SplitFound(b0: Bytes, u: Bytes)
    requires '\n' !in b0 && u != [] && u[0] == '\n'
    ensures At(b0 + u, LF, |b0|) && NoLf(b0 + u, 0, |b0|)
  {
    var r := b0 + u;
    assert r[|b0|..|b0| + 1] == LF;
    forall j: nat | j < |b0| ensures !At(r, LF, j) {
      assert r[j..j + 1][0] == b0[j] && b0[j] in b0;
    }
  }

  /** A piece taken from the front is the first piece of the split. */
  lemma OneCut(now: Bytes, d: Bytes, limit: nat, eof: bool, taken: Bytes, rest: Bytes)
    requires d != [] && Until(now, d, limit, eof).0.Piece? && |taken| == Until(now, d, limit, eof).1 && now == taken + rest
    ensures taken != [] && now != []
    ensures Split(now, d) == [Until(now, d, limit, eof).0.bytes] + Split(rest, d)
    ensures AllFit(now, d, limit) ==> AllFit(rest, d, limit) || rest == []
  {
    assert rest == now[|taken|..];
  }

  lemma NoMore(now: Bytes, d: Bytes, limit: nat, eof: bool, r: Outcome, taken: Bytes)
    requires d != [] && limit > 0 && !r.Piece? && (r != IoError ==> (r, |taken|) == Until(now, d, limit, eof))
    ensures r == End ==> now == [] && taken == []
    ensures AllFit(now, d, limit) || now == [] ==> r != Overflow
  {
  }

  lemma WholeCut(r: Bytes, n: nat)
    requires n <= |r|
    ensures r[..n] + r[n..] == r
  {
  }

  lemma WholeCuts(r: Bytes, c: Bytes)
    ensures r[0..] == r && r[..|r|] == r && r[..0] == [] && r[|r|..] == [] && c + [] == c && [] + r == r && r + [] == r
  {
  }

  lemma Front(b: Bytes, u: Bytes, n: nat)
    requires n <= |b|
    ensures (b + u)[..n] == b[..n] && (b + u)[n..] == b[n..] + u
  {
  }

  // ---- The line cursor left behind by a split CR LF ----

  const Before: Bytes := ['a', '\r']
  const After: Bytes := ['\n', '\n', 'b', '\n']

  /** A reader that has read "a CR", with "LF LF b LF" to come in one piece. */
  method CutAfterCr() returns (reader: Reader)
    ensures fresh(reader) && fresh(reader.src) && fresh(reader.buf) && reader.Valid() && reader.CrLfSplit()
    ensures reader.Buffered() == Before && reader.src.unread == After && reader.src.cuts[0] == 4
    ensures reader.byteMark == 0 && reader.limit == 16 && !reader.eof
  {
    var source := new Source(Before + After, [2, 4]);
    reader := new Reader(source, 16, 16);
    var filled := reader.Refill();
    Front(Before, After, 2);
    WholeCuts(Before, []);
    assert (Before + After)[..2] == Before;
    assert [] + Before == Before;
    assert reader.Buffered() == Before;
    SameTail(Before, After, source.unread);
  }

  lemma SameTail(a: Bytes, b: Bytes, c: Bytes)
    requires a + b == a + c
    ensures b == c
  {
    assert (a + b)[|a|..] == b && (a + c)[|a|..] == c;
  }

  lemma FirstLine()
    ensures Line(Before + After, 0, 16, false) == (Piece(['a']), 3)
  {
    var r := Before + After;
    assert r[0] == 'a' && r[1] == '\r' && r[2] == '\n';
    LineIs(r, 0, 2, 16, false);
    assert r[..1] == ['a'];
  }

  lemma SecondLine(eof: bool)
    ensures Line(After[1..], 1, 16, eof) == (Piece(['\n', 'b']), 3) && !NoLf(After[1..], 1, 3)
    ensures Line(After[1..], 0, 16, false) == (Piece([]), 1)
  {
    var r := After[1..];
    assert r == ['\n', 'b', '\n'];
    LineIs(r, 1, 2, 16, eof);
    LineIs(r, 0, 0, 16, false);
    assert r[..2] == ['\n', 'b'] && r[2..3] == LF && At(r, LF, 2);
  }

  /**
   * A line that should be empty and is not: the source cut the bytes between a
   * CR and its LF, so the cursor stands behind the LF that follows.
   */
  method StaleCursor() returns (first: Outcome, second: Outcome)
    ensures first == Piece(['a']) && second == Piece(['\n', 'b'])
    ensures Line(After[1..], 0, 16, false).0 == Piece([])
  {
    SecondLine(false);
    var reader := CutAfterCr();
    first := TakeFirst(reader);
    SecondLine(reader.eof);
    ghost var taken, mark;
    second, taken, mark := reader.ReadLine();
  }

  method TakeFirst(reader: Reader) returns (first: Outcome)
    requires reader.Valid() && reader.CrLfSplit() && reader.limit == 16 && reader.byteMark == 0 && !reader.eof
    requires reader.Buffered() == Before && reader.src.unread == After && reader.src.cuts[0] == 4
    modifies reader, reader.buf, reader.src
    ensures reader.Valid() && (reader.buf == old(reader.buf) || fresh(reader.buf))
    ensures first == Piece(['a']) && reader.Rest() == After[1..] && reader.From() == 1 && |reader.Buffered()| == 3
  {
    FirstLine();
    ghost var taken, mark;
    first, taken, mark := reader.ReadLine();
    Remaining(taken, reader.Rest());
  }

  lemma Remaining(taken: Bytes, rest: Bytes)
    requires Before + After == taken + rest && |taken| == 3
    ensures rest == After[1..]
  {
    assert (taken + rest)[3..] == rest && (Before + After)[3..] == After[1..];
  }

  lemma LineIs(r: Bytes, from: nat, i: nat, limit: nat, eof: bool)
    requires from <= i < |r| && i < limit && r[i] == '\n' && forall j :: from <= j < i ==> r[j] != '\n'
    ensures Line(r, from, limit, eof) == (Piece(r[..ContentEnd(r, i)]), i + 1)
  {
    assert r[i..i + 1] == LF;
    forall j: nat | from <= j < i ensures !At(r, LF, j) {
      assert j + 1 <= |r| ==> r[j..j + 1][0] == r[j];
    }
    FindUnique(r, LF, from, i);
  }
}
