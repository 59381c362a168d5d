/** Facts about sequences used as deques: the source keeps its waiters and
    buffers in `std::deque` and erases from the middle. */
module Seqs {

  function RemoveAt<T>(s: seq<T>, k: nat): (r: seq<T>)
    requires k < |s|
  {
    s[..k] + s[k + 1..]
  }

  lemma RemoveAtMultiset<T>(s: seq<T>, k: nat)
    requires k < |s|
    ensures multiset(s) == multiset(RemoveAt(s, k)) + multiset{s[k]}
  {
    assert s == s[..k] + [s[k]] + s[k + 1..];
  }

  lemma RemoveAtElems<T>(s: seq<T>, k: nat)
    requires k < |s|
    ensures forall x :: x in RemoveAt(s, k) ==> x in s
    ensures forall x :: x in s ==> x == s[k] || x in RemoveAt(s, k)
  {
    assert s == s[..k] + [s[k]] + s[k + 1..];
  }
}
