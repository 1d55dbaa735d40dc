/** `list.sort(reverse=True)` on the simulated samples: a descending sort,
    specified by sortedness and permutation, which together fix the result. */
module Sorting {

  predicate SortedDesc(s: seq<real>)
  {
    forall i, j :: 0 <= i < j < |s| ==> s[i] >= s[j]
  }

  /** Places `x` into a descending sequence. */
  function Insert(x: real, s: seq<real>): (r: seq<real>)
    requires SortedDesc(s)
    ensures SortedDesc(r) && |r| == |s| + 1
    ensures multiset(r) == multiset(s) + multiset{x}
  {
    if |s| == 0 then [x]
    else if x >= s[0] then [x] + s
    else
      var t := Insert(x, s[1..]);
      assert s == [s[0]] + s[1..];
      HeadBounds(s, t, x);
      [s[0]] + t
  }

  /** Everything taken from the tail of a descending sequence, plus a value
      below its head, is bounded by that head. */
  lemma HeadBounds(s: seq<real>, u: seq<real>, x: real)
    requires SortedDesc(s) && |s| > 0 && x < s[0]
    requires multiset(u) == multiset(s[1..]) + multiset{x}
    ensures forall k :: 0 <= k < |u| ==> s[0] >= u[k]
  {
    forall k | 0 <= k < |u|
      ensures s[0] >= u[k]
    {
      assert u[k] in multiset(u);
      if u[k] != x {
        assert u[k] in multiset(s[1..]);
        var j :| 0 <= j < |s| - 1 && s[1..][j] == u[k];
        assert s[j + 1] == u[k];
      }
    }
  }

  /** A descending permutation of `s`. */
  function SortDescending(s: seq<real>): (r: seq<real>)
    ensures SortedDesc(r) && |r| == |s|
    ensures multiset(r) == multiset(s)
  {
    if |s| == 0 then []
    else
      assert s == [s[0]] + s[1..];
      Insert(s[0], SortDescending(s[1..]))
  }

  /** The first element of a descending sequence is its largest. */
  lemma HeadIsMax(s: seq<real>, x: real)
    requires SortedDesc(s) && x in multiset(s)
    ensures |s| > 0 && s[0] >= x
  {
    var k :| 0 <= k < |s| && s[k] == x;
  }

  /** Two descending sequences with the same elements are equal: any
      descending sort of the samples, stable or not, gives the same list. */
  lemma {:induction false} SortedUnique(a: seq<real>, b: seq<real>)
    requires SortedDesc(a) && SortedDesc(b)
    requires multiset(a) == multiset(b)
    ensures a == b
    decreases |a|
  {
    assert |a| == |multiset(a)| == |multiset(b)| == |b|;
    if |a| > 0 {
      HeadIsMax(a, b[0]);
      HeadIsMax(b, a[0]);
      assert a[0] == b[0];
      DropHead(a);
      DropHead(b);
      SortedUnique(a[1..], b[1..]);
      forall k | 0 <= k < |a| ensures a[k] == b[k] {
        if k > 0 {
          assert a[k] == a[1..][k - 1] && b[k] == b[1..][k - 1];
        }
      }
    }
  }

  /** The tail of a descending sequence is descending and holds all of its
      elements but the head. */
  lemma DropHead(s: seq<real>)
    requires SortedDesc(s) && |s| > 0
    ensures SortedDesc(s[1..])
    ensures multiset(s[1..]) == multiset(s) - multiset{s[0]}
  {
    assert s == [s[0]] + s[1..];
  }
}
