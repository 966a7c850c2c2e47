/** Sequence helpers standing for the ORM's query primitives: `.get()` is a
    first-match search, `.filter()` keeps the matching rows in table order,
    and `.count()` is the length of a filter. */
module Collections {
  import opened Wrappers

  /** The first position of `s` whose element satisfies `p`. */
  function FirstIndex<T>(s: seq<T>, p: T -> bool): (r: Option<nat>)
    ensures r.Some? ==> r.value < |s| && p(s[r.value])
    ensures r.Some? ==> forall k :: 0 <= k < r.value ==> !p(s[k])
    ensures r.None? ==> forall k :: 0 <= k < |s| ==> !p(s[k])
  {
    if |s| == 0 then None
    else if p(s[0]) then Some(0)
    else match FirstIndex(s[1..], p)
      case None => None
      case Some(k) => Some(k + 1)
  }

  /** The elements of `s` satisfying `p`, in their original order. */
  function Filter<T(!new)>(s: seq<T>, p: T -> bool): (r: seq<T>)
    ensures |r| <= |s|
    ensures forall x :: x in r <==> x in s && p(x)
    ensures (forall k :: 0 <= k < |s| ==> p(s[k])) ==> r == s
  {
    if |s| == 0 then []
    else
      var rest := Filter(s[1..], p);
      assert s == [s[0]] + s[1..];
      assert forall x :: x in s[1..] ==> x in s;
      if p(s[0]) then [s[0]] + rest else rest
  }

  /** Filtering a sequence with one more element at its end. */
  lemma {:induction false} FilterAppend<T(!new)>(s: seq<T>, x: T, p: T -> bool)
    ensures Filter(s + [x], p) == Filter(s, p) + (if p(x) then [x] else [])
  {
    if |s| == 0 {
      assert [x][1..] == [];
    } else {
      assert (s + [x])[1..] == s[1..] + [x];
      FilterAppend(s[1..], x, p);
    }
  }

  /** A stronger condition keeps no more elements than a weaker one. */
  lemma {:induction false} FilterStrongerIsShorter<T(!new)>(s: seq<T>, p: T -> bool, q: T -> bool)
    requires forall x :: q(x) ==> p(x)
    ensures |Filter(s, q)| <= |Filter(s, p)|
  {
    if |s| > 0 {
      FilterStrongerIsShorter(s[1..], p, q);
    }
  }

  /** What a condition keeps and what its negation keeps add up to the whole. */
  lemma {:induction false} FilterPartition<T(!new)>(s: seq<T>, p: T -> bool, q: T -> bool)
    requires forall x :: q(x) <==> !p(x)
    ensures |Filter(s, p)| + |Filter(s, q)| == |s|
  {
    if |s| > 0 {
      FilterPartition(s[1..], p, q);
    }
  }

  /** Filtering keeps a strictly increasing key strictly increasing. */
  lemma {:induction false} FilterKeepsIncreasing<T(!new)>(s: seq<T>, p: T -> bool, key: T -> int)
    requires forall k, l :: 0 <= k < l < |s| ==> key(s[k]) < key(s[l])
    ensures forall k, l :: 0 <= k < l < |Filter(s, p)| ==> key(Filter(s, p)[k]) < key(Filter(s, p)[l])
  {
    if |s| > 0 {
      FilterKeepsIncreasing(s[1..], p, key);
      var rest := Filter(s[1..], p);
      if p(s[0]) {
        var r := [s[0]] + rest;
        assert Filter(s, p) == r;
        forall k, l | 0 <= k < l < |r| ensures key(r[k]) < key(r[l]) {
          if k == 0 {
            assert r[l] in s[1..];
            var m :| 0 <= m < |s[1..]| && s[1..][m] == r[l];
            assert s[m + 1] == r[l] && r[k] == s[0];
            assert key(s[0]) < key(s[m + 1]);
          } else {
            assert r[k] == rest[k - 1] && r[l] == rest[l - 1];
            assert 0 <= k - 1 < l - 1 < |rest|;
          }
        }
      } else {
        assert Filter(s, p) == rest;
      }
    }
  }

  /** The distinct images of the elements of `s` under `f`. */
  function Image<T(!new), U>(s: seq<T>, f: T -> U): (r: set<U>)
    ensures |r| <= |s|
    ensures forall x :: x in s ==> f(x) in r
    ensures forall y :: y in r ==> exists k :: 0 <= k < |s| && f(s[k]) == y
  {
    if |s| == 0 then {}
    else
      var rest := Image(s[1..], f);
      assert forall x :: x in s[1..] ==> x in s;
      assert forall y :: y in rest ==> exists k :: 0 <= k < |s| && f(s[k]) == y by {
        forall y | y in rest ensures exists k :: 0 <= k < |s| && f(s[k]) == y {
          var m :| 0 <= m < |s[1..]| && f(s[1..][m]) == y;
          assert f(s[m + 1]) == y;
        }
      }
      assert s == [s[0]] + s[1..];
      {f(s[0])} + rest
  }
}
