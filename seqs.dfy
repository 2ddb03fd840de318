/** Sequence helpers shared by the list-editing code: `Array.prototype.filter`
    with a predicate, and `filter((_, i) => i !== index)`. */
module Seqs {

  /** `s.filter(keep)`: the elements of `s` that satisfy `keep`, in their order. */
  function Filter<T>(s: seq<T>, keep: T -> bool): (r: seq<T>)
    ensures |r| <= |s|
    ensures forall i :: 0 <= i < |r| ==> r[i] in s && keep(r[i])
    ensures forall i :: 0 <= i < |s| && keep(s[i]) ==> s[i] in r
  {
    if s == [] then []
    else (if keep(s[0]) then [s[0]] else []) + Filter(s[1..], keep)
  }

  /** Filtering distributes over concatenation, so it keeps relative order. */
  lemma {:induction false} FilterAppend<T>(a: seq<T>, b: seq<T>, keep: T -> bool)
    ensures Filter(a + b, keep) == Filter(a, keep) + Filter(b, keep)
  {
    if a == [] {
      assert a + b == b;
    } else {
      assert (a + b)[1..] == a[1..] + b;
      FilterAppend(a[1..], b, keep);
    }
  }

  /** A list whose every element passes comes back unchanged. */
  lemma {:induction false} FilterKeepsAll<T>(s: seq<T>, keep: T -> bool)
    requires forall i :: 0 <= i < |s| ==> keep(s[i])
    ensures Filter(s, keep) == s
  {
    if s != [] {
      FilterKeepsAll(s[1..], keep);
    }
  }

  /** Filtering twice with the same predicate is filtering once. */
  lemma {:induction false} FilterIdempotent<T>(s: seq<T>, keep: T -> bool)
    ensures Filter(Filter(s, keep), keep) == Filter(s, keep)
  {
    var r := Filter(s, keep);
    FilterKeepsAll(r, keep);
  }

  /** Every kept value keeps its multiplicity; every dropped value is gone. */
  lemma {:induction false} FilterCounts<T>(s: seq<T>, keep: T -> bool, x: T)
    ensures multiset(Filter(s, keep))[x] == if keep(x) then multiset(s)[x] else 0
  {
    if s != [] {
      FilterCounts(s[1..], keep, x);
      assert s == [s[0]] + s[1..];
    }
  }

  /** `s.filter((_, j) => j !== i)`: position `i` is dropped, the rest keep
      their order; an index outside the list changes nothing. */
  function RemoveAt<T>(s: seq<T>, i: int): (r: seq<T>)
    ensures 0 <= i < |s| ==> |r| == |s| - 1
    ensures !(0 <= i < |s|) ==> r == s
    ensures 0 <= i < |s| ==> forall j :: 0 <= j < |r| ==> r[j] == if j < i then s[j] else s[j + 1]
  {
    if 0 <= i < |s| then s[..i] + s[i + 1..] else s
  }
}
