/** `Array.prototype.filter`: a left-to-right pass that keeps the elements
    satisfying a predicate. The catalog filter is three of these in a row. */
module ArrayFilter {

  /** `s.filter(keep)`. */
  function Filter<T>(s: seq<T>, keep: T -> bool): (r: seq<T>)
    ensures |r| <= |s|
    ensures forall x :: x in r ==> x in s && keep(x)
  {
    if s == [] then []
    else (if keep(s[0]) then [s[0]] else []) + Filter(s[1..], keep)
  }

  predicate StrictlyIncreasing(idx: seq<nat>) {
    forall a, b :: 0 <= a < b < |idx| ==> idx[a] < idx[b]
  }

  /** `idx` lists, in increasing order, exactly the positions of `s` whose
      element satisfies `keep`, and `r` is `s` read at those positions: `r`
      is the subsequence of the kept elements, in their original order,
      with no element reordered, repeated or dropped. */
  ghost predicate SelectsInOrder<T>(r: seq<T>, s: seq<T>, keep: T -> bool, idx: seq<nat>) {
    && |idx| == |r|
    && StrictlyIncreasing(idx)
    && (forall k :: 0 <= k < |idx| ==> idx[k] < |s| && r[k] == s[idx[k]])
    && (forall i :: 0 <= i < |s| ==> (keep(s[i]) <==> i in idx))
  }

  function Shift(idx: seq<nat>): (r: seq<nat>)
    ensures |r| == |idx| && forall k :: 0 <= k < |idx| ==> r[k] == idx[k] + 1
  {
    seq(|idx|, k requires 0 <= k < |idx| => idx[k] + 1)
  }

  /** The result of `filter` is the order-preserving selection of the kept
      positions; the lemma returns the positions. */
  lemma {:induction false} FilterSelectsInOrder<T>(s: seq<T>, keep: T -> bool) returns (idx: seq<nat>)
    ensures SelectsInOrder(Filter(s, keep), s, keep, idx)
  {
    if s == [] {
      idx := [];
    } else {
      var tail := FilterSelectsInOrder(s[1..], keep);
      idx := SelectsInOrderCons(s, keep, tail);
    }
  }

  /** One step of the induction above: from the positions selected in
      `s[1..]` to the positions selected in `s`. */
  lemma SelectsInOrderCons<T>(s: seq<T>, keep: T -> bool, tail: seq<nat>) returns (idx: seq<nat>)
    requires s != []
    requires SelectsInOrder(Filter(s[1..], keep), s[1..], keep, tail)
    ensures SelectsInOrder(Filter(s, keep), s, keep, idx)
  {
    var shifted := Shift(tail);
    var rest := Filter(s[1..], keep);
    var r := Filter(s, keep);
    if keep(s[0]) {
      idx := [0] + shifted;
      assert r == [s[0]] + rest;
      forall k | 0 <= k < |idx|
        ensures idx[k] < |s| && r[k] == s[idx[k]]
      {
        if k > 0 {
          assert idx[k] == tail[k - 1] + 1 && r[k] == rest[k - 1];
        }
      }
    } else {
      idx := shifted;
      assert r == rest;
    }
    forall i | 0 <= i < |s|
      ensures keep(s[i]) <==> i in idx
    {
      if i > 0 {
        assert s[i] == s[1..][i - 1];
        assert (i - 1 in tail) <==> (i in shifted);
      } else {
        assert 0 !in shifted;
      }
    }
  }

  /** Membership: an element is in the result iff it is in the input and
      satisfies the predicate. */
  lemma {:induction false} FilterMembership<T>(s: seq<T>, keep: T -> bool, x: T)
    ensures x in Filter(s, keep) <==> x in s && keep(x)
  {
    if s != [] {
      FilterMembership(s[1..], keep, x);
      assert x in s <==> x == s[0] || x in s[1..];
    }
  }

  /** When every element is kept, `filter` returns its input unchanged. */
  lemma {:induction false} FilterKeepsAll<T>(s: seq<T>, keep: T -> bool)
    requires forall x :: x in s ==> keep(x)
    ensures Filter(s, keep) == s
  {
    if s != [] {
      assert forall x :: x in s[1..] ==> x in s;
      FilterKeepsAll(s[1..], keep);
      assert s == [s[0]] + s[1..];
    }
  }

  /** Filtering twice with the same predicate is filtering once. */
  lemma FilterIdempotent<T>(s: seq<T>, keep: T -> bool)
    ensures Filter(Filter(s, keep), keep) == Filter(s, keep)
  {
    FilterKeepsAll(Filter(s, keep), keep);
  }

  /** Two filters in a row are one filter by the conjunction: the chained
      `.filter(f).filter(g)` is the AND of its predicates. */
  lemma {:induction false} FilterFuse<T>(s: seq<T>, f: T -> bool, g: T -> bool, both: T -> bool)
    requires forall x :: both(x) == (f(x) && g(x))
    ensures Filter(Filter(s, f), g) == Filter(s, both)
  {
    if s != [] {
      FilterFuse(s[1..], f, g, both);
      var rest := Filter(s[1..], f);
      if f(s[0]) {
        var once := Filter(s, f);
        assert once == [s[0]] + rest;
        assert once[0] == s[0] && once[1..] == rest;
      } else {
        assert Filter(s, f) == rest;
      }
    }
  }
}
