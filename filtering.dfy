/** Python's filtering list comprehension `[x for x in s if p(x)]`, and what it guarantees. */
module Filtering {

  /** Keeps, in order, the elements of `s` that satisfy `p`. */
  function Filter<T>(s: seq<T>, p: T -> bool): (r: seq<T>)
    ensures |r| <= |s|
    ensures forall i :: 0 <= i < |r| ==> p(r[i]) && r[i] in s
  {
    if s == [] then []
    else if p(s[0]) then [s[0]] + Filter(s[1..], p)
    else Filter(s[1..], p)
  }

  /** Every position in `ix`, moved one place to the right. */
  function Succ(ix: seq<nat>): (r: seq<nat>)
    ensures |r| == |ix| && forall k :: 0 <= k < |ix| ==> r[k] == ix[k] + 1
  {
    seq(|ix|, k requires 0 <= k < |ix| => ix[k] + 1)
  }

  /** The positions of `s` whose elements `p` keeps, in increasing order. */
  function SelectedIndices<T>(s: seq<T>, p: T -> bool): seq<nat>
  {
    if s == [] then []
    else if p(s[0]) then [0] + Succ(SelectedIndices(s[1..], p))
    else Succ(SelectedIndices(s[1..], p))
  }

  /** The k-th kept element is the element at the k-th selected position. */
  lemma {:induction false} FilterAtSelected<T>(s: seq<T>, p: T -> bool)
    ensures var r, idx := Filter(s, p), SelectedIndices(s, p);
      && |idx| == |r|
      && forall k :: 0 <= k < |idx| ==> idx[k] < |s| && r[k] == s[idx[k]]
  {
    if s != [] {
      FilterAtSelected(s[1..], p);
    }
  }

  predicate StrictlyIncreasing(ix: seq<nat>)
  {
    forall k, l :: 0 <= k < l < |ix| ==> ix[k] < ix[l]
  }

  /** The selected positions are strictly increasing: the filter keeps relative order. */
  lemma {:induction false} SelectedIncreasing<T>(s: seq<T>, p: T -> bool)
    ensures StrictlyIncreasing(SelectedIndices(s, p))
  {
    if s != [] {
      SelectedIncreasing(s[1..], p);
      var rest := SelectedIndices(s[1..], p);
      var shifted := Succ(rest);
      forall k, l | 0 <= k < l < |shifted|
        ensures shifted[k] < shifted[l]
      {
        assert rest[k] < rest[l];
      }
      if p(s[0]) {
        var idx := [0] + shifted;
        forall k, l | 0 <= k < l < |idx|
          ensures idx[k] < idx[l]
        {
          if k > 0 {
            assert idx[k] == shifted[k - 1] && idx[l] == shifted[l - 1];
          } else {
            assert idx[l] == shifted[l - 1] >= 1;
          }
        }
      }
    }
  }

  /** A position is selected exactly when its element satisfies `p`. */
  lemma {:induction false} SelectedExactly<T>(s: seq<T>, p: T -> bool)
    ensures forall i :: 0 <= i < |s| ==> (p(s[i]) <==> i in SelectedIndices(s, p))
  {
    if s != [] {
      SelectedExactly(s[1..], p);
      var rest := SelectedIndices(s[1..], p);
      assert 0 !in Succ(rest);
      forall i | 0 < i < |s|
        ensures p(s[i]) <==> i in SelectedIndices(s, p)
      {
        assert s[i] == s[1..][i - 1];
        if i in Succ(rest) {
          var k :| 0 <= k < |rest| && Succ(rest)[k] == i;
          assert rest[k] == i - 1;
        }
        if i - 1 in rest {
          var k :| 0 <= k < |rest| && rest[k] == i - 1;
          assert Succ(rest)[k] == i;
        }
      }
    }
  }

  /** Exactness: the result is the subsequence of `s` at precisely the positions whose
      elements satisfy `p`, with their relative order kept. */
  lemma FilterSelectsExactly<T>(s: seq<T>, p: T -> bool)
    ensures var r, idx := Filter(s, p), SelectedIndices(s, p);
      && |idx| == |r|
      && (forall k :: 0 <= k < |idx| ==> idx[k] < |s| && r[k] == s[idx[k]])
      && StrictlyIncreasing(idx)
      && (forall i :: 0 <= i < |s| ==> (p(s[i]) <==> i in idx))
  {
    FilterAtSelected(s, p);
    SelectedIncreasing(s, p);
    SelectedExactly(s, p);
  }

  /** x survives the filter exactly when it occurs in the input and satisfies `p`. */
  lemma {:induction false} FilterMembership<T>(s: seq<T>, p: T -> bool, x: T)
    ensures x in Filter(s, p) <==> x in s && p(x)
  {
    if s != [] {
      FilterMembership(s[1..], p, x);
      assert s == [s[0]] + s[1..];
    }
  }

  /** A filter that rejects nothing returns its input unchanged. */
  lemma {:induction false} FilterKeepsAll<T>(s: seq<T>, p: T -> bool)
    requires forall i :: 0 <= i < |s| ==> p(s[i])
    ensures Filter(s, p) == s
  {
    if s != [] {
      FilterKeepsAll(s[1..], p);
    }
  }

  /** Filtering an already-filtered list with the same predicate changes nothing. */
  lemma FilterIdempotent<T>(s: seq<T>, p: T -> bool)
    ensures Filter(Filter(s, p), p) == Filter(s, p)
  {
    FilterKeepsAll(Filter(s, p), p);
  }

  /** Two filters in a row are one filter by the conjunction of their predicates. */
  lemma {:induction false} FilterThenFilter<T>(s: seq<T>, p: T -> bool, q: T -> bool)
    ensures Filter(Filter(s, p), q) == Filter(s, x => p(x) && q(x))
  {
    if s != [] {
      FilterThenFilter(s[1..], p, q);
      if p(s[0]) {
        assert Filter(s, p) == [s[0]] + Filter(s[1..], p);
        assert Filter(s, p)[1..] == Filter(s[1..], p);
      }
    }
  }

  /** Predicates that agree on every element of `s` filter it alike. */
  lemma {:induction false} FilterExtensional<T>(s: seq<T>, p: T -> bool, q: T -> bool)
    requires forall i :: 0 <= i < |s| ==> p(s[i]) == q(s[i])
    ensures Filter(s, p) == Filter(s, q)
  {
    if s != [] {
      assert p(s[0]) == q(s[0]);
      FilterExtensional(s[1..], p, q);
    }
  }
}
