/**
 * What reading from a byte stream means, without buffers: cutting the bytes
 * still to come at a delimiter or at a line end (include/coro/stream.hpp).
 */
module StreamCore {

  type Bytes = seq<char>

  datatype Option<T> = None | Some(value: T)

  /** What a read call ends with. Overflow and IoError are exceptions. */
  datatype Outcome = Piece(bytes: Bytes) | End | Overflow | IoError

  /** `d` stands at index `i` of `r`. */
  predicate At(r: Bytes, d: Bytes, i: nat) {
    i + |d| <= |r| && r[i..i + |d|] == d
  }

  /** The first place from `from` on where `d` stands. */
  function Find(r: Bytes, d: Bytes, from: nat): (k: Option<nat>)
    requires d != []
    ensures k.None? ==> forall i: nat :: from <= i ==> !At(r, d, i)
    ensures k.Some? ==> from <= k.value && At(r, d, k.value) && forall i: nat :: from <= i < k.value ==> !At(r, d, i)
    decreases |r| - from
  {
    if from + |d| > |r| then None else if At(r, d, from) then Some(from) else Find(r, d, from + 1)
  }

  lemma FindUnique(r: Bytes, d: Bytes, from: nat, i: nat)
    requires d != [] && from <= i && At(r, d, i) && forall j: nat :: from <= j < i ==> !At(r, d, j)
    ensures Find(r, d, from) == Some(i)
  {
  }

  /** What skipped places cannot hold does not matter. */
  lemma FindSkips(r: Bytes, d: Bytes, from: nat)
    requires d != []
    ensures Find(r, d, from) == Find(r, d, 0) <==> forall j: nat :: j < from ==> !At(r, d, j)
  {
  }

  /** An occurrence inside a prefix is one of the whole, and the other way round. */
  lemma AtPrefix(b: Bytes, u: Bytes, d: Bytes, i: nat)
    requires i + |d| <= |b|
    ensures At(b + u, d, i) == At(b, d, i)
  {
    assert (b + u)[i..i + |d|] == b[i..i + |d|];
  }

  // ---- read_until ----

  /**
   * The outcome of a call on the bytes `r` still to come, and how many of them
   * it consumes: the piece before the first delimiter if both fit the limit;
   * with no delimiter all the rest, unless it is too long to see the end.
   */
  function Until(r: Bytes, d: Bytes, limit: nat, eof: bool): (Outcome, nat)
    requires d != []
  {
    match Find(r, d, 0)
    case Some(i) => if i + |d| <= limit then (Piece(r[..i]), i + |d|) else (Overflow, 0)
    case None =>
      if |r| < limit || eof then (if r == [] then End else Piece(r), |r|) else (Overflow, 0)
  }

  /** The simple split of a whole stream. */
  function Split(r: Bytes, d: Bytes): (pieces: seq<Bytes>)
    requires d != []
    decreases |r|
  {
    if r == [] then [] else
    match Find(r, d, 0)
    case Some(i) => [r[..i]] + Split(r[i + |d|..], d)
    case None => [r]
  }

  /** Every piece with its delimiter fits the limit, and the last piece leaves room to see the end. */
  predicate AllFit(r: Bytes, d: Bytes, limit: nat)
    requires d != []
    decreases |r|
  {
    match Find(r, d, 0)
    case Some(i) => i + |d| <= limit && AllFit(r[i + |d|..], d, limit)
    case None => |r| < limit
  }

  function Rejoin(pieces: seq<Bytes>, d: Bytes): Bytes {
    if pieces == [] then [] else
    if |pieces| == 1 then pieces[0] else pieces[0] + (d + Rejoin(pieces[1..], d))
  }

  lemma Shift(r: Bytes, d: Bytes, k: nat, i: nat)
    requires k <= |r|
    ensures At(r[k..], d, i) == At(r, d, k + i)
  {
    if k + i + |d| <= |r| { assert r[k..][i..i + |d|] == r[k + i..k + i + |d|]; }
  }

  lemma Recut(r: Bytes, d: Bytes, i: nat)
    requires At(r, d, i)
    ensures r[..i] + (d + r[i + |d|..]) == r
  {
    assert r == r[..i] + (r[i..i + |d|] + r[i + |d|..]);
  }

  lemma Append(a: Bytes, d: Bytes, t: Bytes)
    ensures (a + (d + t)) + d == a + (d + (t + d))
  {
  }

  /** The pieces lose nothing: joined by the delimiter they are the stream, but for a delimiter at its very end. */
  lemma {:induction false} SplitRejoins(r: Bytes, d: Bytes)
    requires d != []
    ensures Rejoin(Split(r, d), d) == r || Rejoin(Split(r, d), d) + d == r
    decreases |r|
  {
    if r != [] && Find(r, d, 0).Some? {
      var i := Find(r, d, 0).value;
      var tail := r[i + |d|..];
      SplitRejoins(tail, d);
      Recut(r, d, i);
      var ps := Split(r, d);
      assert ps[1..] == Split(tail, d);
      if tail == [] {
        assert ps == [r[..i]] && d + tail == d;
      } else {
        assert |ps| > 1;
        var t := Rejoin(ps[1..], d);
        Append(r[..i], d, t);
      }
    }
  }

  /** No piece holds the delimiter. */
  lemma {:induction false} SplitClean(r: Bytes, d: Bytes, k: nat, i: nat)
    requires d != [] && k < |Split(r, d)|
    ensures !At(Split(r, d)[k], d, i)
    decreases |r|
  {
    match Find(r, d, 0)
    case None =>
    case Some(c) =>
      if k == 0 {
        if i + |d| <= c {
          assert r[..c] + r[c..] == r;
          AtPrefix(r[..c], r[c..], d, i);
        }
      } else {
        SplitClean(r[c + |d|..], d, k - 1, i);
      }
  }

  // ---- read_line ----

  const LF: Bytes := ['\n']

  /** The end of a line's content when its LF is at `i`: a CR just before it does not count. */
  function ContentEnd(r: Bytes, i: nat): (c: nat)
    requires i < |r|
    ensures c <= i
  {
    if i > 0 && r[i - 1] == '\r' then i - 1 else i
  }

  /** The outcome of a call that looks for the LF from index `from` on. */
  function Line(r: Bytes, from: nat, limit: nat, eof: bool): (Outcome, nat) {
    match Find(r, LF, from)
    case Some(i) => if i < limit then (Piece(r[..ContentEnd(r, i)]), i + 1) else (Overflow, 0)
    case None => if |r| < limit || eof then (if r == [] then End else Piece(r), |r|) else (Overflow, 0)
  }

  /** No LF stands at an index from `from` up to `to`. */
  predicate NoLf(r: Bytes, from: nat, to: nat) {
    forall i: nat :: from <= i < to ==> !At(r, LF, i)
  }

  /** An LF that a late search passes over would have ended a shorter line. */
  lemma PassedOver(r: Bytes, from: nat, limit: nat, eof: bool)
    requires from <= limit && !NoLf(r, 0, from)
    ensures Line(r, from, limit, eof) != Line(r, 0, limit, eof)
  {
    var i: nat :| i < from && At(r, LF, i);
    var first := Find(r, LF, 0);
    assert first.Some? && first.value <= i;
  }

  /**
   * A search that starts at any index gives the right line exactly when it
   * passes over no LF.
   */
  lemma LineExactly(r: Bytes, from: nat, limit: nat, eof: bool)
    requires from <= |r| && from <= limit
    ensures Line(r, from, limit, eof) == Line(r, 0, limit, eof) <==> NoLf(r, 0, from)
  {
    FindSkips(r, LF, from);
    if !NoLf(r, 0, from) { PassedOver(r, from, limit, eof); }
  }
}
