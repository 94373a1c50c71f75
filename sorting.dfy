/**
 * An insertion sort over a caller-supplied order, standing for
 * `Array.prototype.sort` with a comparator.
 */
module Sorting {

  /** `le` is total and transitive: what `Array.prototype.sort` needs of a comparator. */
  ghost predicate TotalPreorder<T(!new)>(le: (T, T) -> bool) {
    && (forall a, b :: le(a, b) || le(b, a))
    && (forall a, b, c :: le(a, b) && le(b, c) ==> le(a, c))
  }

  ghost predicate Sorted<T>(s: seq<T>, le: (T, T) -> bool) {
    forall i, j :: 0 <= i < j < |s| ==> le(s[i], s[j])
  }

  /** Puts `x` in front of the first element it is not after, so equal elements keep their order. */
  function Insert<T(!new)>(x: T, r: seq<T>, le: (T, T) -> bool): (out: seq<T>)
    requires TotalPreorder(le)
    requires Sorted(r, le)
    ensures multiset(out) == multiset(r) + multiset{x}
    ensures Sorted(out, le)
  {
    if r == [] || le(x, r[0]) then
      [x] + r
    else
      var tail := Insert(x, r[1..], le);
      assert r == [r[0]] + r[1..];
      assert forall y :: y in tail ==> y in multiset(r[1..]) + multiset{x};
      assert forall j :: 0 <= j < |tail| ==> le(r[0], tail[j]) by {
        forall j | 0 <= j < |tail|
          ensures le(r[0], tail[j])
        {
          assert tail[j] in multiset(tail);
          if tail[j] != x {
            assert tail[j] in r[1..];
          }
        }
      }
      ConsSorted(r[0], tail, le);
      [r[0]] + tail
  }

  /** An element that comes before every element of a sorted list can be put in front of it. */
  lemma ConsSorted<T>(h: T, tail: seq<T>, le: (T, T) -> bool)
    requires Sorted(tail, le)
    requires forall j :: 0 <= j < |tail| ==> le(h, tail[j])
    ensures Sorted([h] + tail, le)
  {
    var s := [h] + tail;
    forall i, j | 0 <= i < j < |s| ensures le(s[i], s[j]) {
      if i > 0 {
        assert s[i] == tail[i - 1] && s[j] == tail[j - 1];
      }
    }
  }

  /** The elements of `s`, ordered by `le`. */
  function Sort<T(!new)>(s: seq<T>, le: (T, T) -> bool): (out: seq<T>)
    requires TotalPreorder(le)
    ensures multiset(out) == multiset(s)
    ensures |out| == |s|
    ensures Sorted(out, le)
  {
    if s == [] then []
    else
      assert s == [s[0]] + s[1..];
      var r := Sort(s[1..], le);
      assert |Insert(s[0], r, le)| == |multiset(Insert(s[0], r, le))|;
      Insert(s[0], r, le)
  }
}
