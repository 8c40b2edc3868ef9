/**
 * Random draws of the generator. Nothing here models the pseudo-random number generator:
 * every draw is an unconstrained choice within the range the library call can return.
 */
module Sampling {

  /** No two positions of `s` hold the same value. */
  predicate Distinct<T(==)>(s: seq<T>) {
    forall i, j :: 0 <= i < j < |s| ==> s[i] != s[j]
  }

  /** The number of items `random_subset(xs, k)` returns. */
  function SubsetSize(n: nat, k: int): nat {
    if k <= 0 then 0 else if k < n then k else n
  }

  /**
   * Reservoir sampling (random_subset in both graph files): the first k items fill the
   * reservoir; the N-th item after that overwrites slot s, where s = int(random() * N)
   * is drawn from [0, N), when s < k. `positions` records which input position each slot
   * holds.
   */
  method RandomSubset<T>(xs: seq<T>, k: int) returns (result: seq<T>, ghost positions: seq<nat>)
    ensures |result| == SubsetSize(|xs|, k)
    ensures |positions| == |result|
    ensures forall j :: 0 <= j < |result| ==> positions[j] < |xs| && result[j] == xs[positions[j]]
    ensures Distinct(positions)
    ensures forall x :: x in result ==> x in xs
    ensures Distinct(xs) ==> Distinct(result)
    ensures k >= |xs| ==> result == xs
  {
    result, positions := [], [];
    var n := 0;
    while n < |xs|
      invariant n <= |xs|
      invariant |result| == SubsetSize(n, k)
      invariant |positions| == |result|
      invariant forall j :: 0 <= j < |result| ==> positions[j] < n && result[j] == xs[positions[j]]
      invariant Distinct(positions)
      invariant k >= n ==> result == xs[..n]
    {
      var item := xs[n];
      n := n + 1;
      if |result| < k {
        result, positions := result + [item], positions + [n - 1];
      } else {
        var s :| 0 <= s < n;
        if s < k {
          result, positions := result[s := item], positions[s := n - 1];
        }
      }
    }
    assert xs[..n] == xs;
    forall x | x in result ensures x in xs {
      var j :| 0 <= j < |result| && result[j] == x;
      assert xs[positions[j]] == x;
    }
  }

  /** The elements of `s` as a sequence: the unspecified iteration order of a set. */
  method Enumerate<T(==)>(s: set<T>) returns (xs: seq<T>)
    ensures Distinct(xs)
    ensures forall x :: x in xs <==> x in s
    ensures |xs| == |s|
  {
    xs := [];
    var rest := s;
    while rest != {}
      invariant rest <= s
      invariant Distinct(xs)
      invariant forall x :: x in xs <==> x in s && x !in rest
      invariant |xs| + |rest| == |s|
      decreases rest
    {
      var x :| x in rest;
      xs := xs + [x];
      rest := rest - {x};
    }
  }

  /** Every integer of [lo, hi) outside `seen` is counted; a set of fewer elements misses one. */
  lemma {:induction false} UnseenValueExists(lo: int, hi: int, seen: set<int>)
    requires |seen| < hi - lo
    ensures exists d :: lo <= d < hi && d !in seen
    decreases hi - lo
  {
    if hi - 1 in seen {
      assert |seen - {hi - 1}| == |seen| - 1;
      UnseenValueExists(lo, hi - 1, seen - {hi - 1});
      var d :| lo <= d < hi - 1 && d !in seen - {hi - 1};
      assert d != hi - 1;
    } else {
      assert lo <= hi - 1 < hi;
    }
  }

  /**
   * random.sample(range(lo, hi), n): n distinct values of [lo, hi), which the library
   * refuses (ValueError) when n is negative or exceeds the size of the range.
   */
  method SampleDistinct(lo: int, hi: int, n: nat) returns (values: seq<int>)
    requires n <= hi - lo
    ensures |values| == n
    ensures Distinct(values)
    ensures forall i :: 0 <= i < n ==> lo <= values[i] < hi
  {
    values := [];
    var seen: set<int> := {};
    while |values| < n
      invariant |values| <= n
      invariant Distinct(values)
      invariant forall i :: 0 <= i < |values| ==> lo <= values[i] < hi
      invariant forall d :: d in seen <==> d in values
      invariant |seen| == |values|
    {
      UnseenValueExists(lo, hi, seen);
      var d :| lo <= d < hi && d !in seen;
      values, seen := values + [d], seen + {d};
    }
  }

  lemma DistinctAppend<T>(s: seq<T>, x: T)
    requires Distinct(s) && x !in s
    ensures Distinct(s + [x])
  {
  }

  /** Two duplicate-free sequences with no element in common concatenate to a duplicate-free one. */
  lemma DistinctConcat<T>(a: seq<T>, b: seq<T>)
    requires Distinct(a) && Distinct(b) && forall x :: x in a ==> x !in b
    ensures Distinct(a + b)
  {
    forall i, j | 0 <= i < j < |a + b| ensures (a + b)[i] != (a + b)[j] {
      if i < |a| && j >= |a| {
        assert a[i] in a && b[j - |a|] in b;
      }
    }
  }

  lemma CardinalityAddFresh<T>(s: set<T>, x: T)
    requires x !in s
    ensures |s + {x}| == |s| + 1
  {
  }

  /** The elements of a sequence, as a set. */
  function Elements<T(!new)>(s: seq<T>): (e: set<T>)
    ensures forall x :: x in e <==> x in s
  {
    if s == [] then {}
    else
      assert s == s[..|s| - 1] + [s[|s| - 1]];
      Elements(s[..|s| - 1]) + {s[|s| - 1]}
  }

  lemma {:induction false} DistinctElements<T(!new)>(s: seq<T>)
    requires Distinct(s)
    ensures |Elements(s)| == |s|
  {
    if s != [] {
      var s0 := s[..|s| - 1];
      DistinctElements(s0);
      assert s[|s| - 1] !in s0;
    }
  }
  /** The integers of [lo, hi), the range random.sample draws from. */
  ghost function Interval(lo: int, hi: int): (r: set<int>)
    ensures forall x :: x in r <==> lo <= x < hi
    decreases hi - lo
  {
    if lo >= hi then {} else Interval(lo, hi - 1) + {hi - 1}
  }

  /** The integer interval [lo, hi) holds hi - lo values. */
  lemma {:induction false} IntervalSize(lo: int, hi: int)
    requires lo <= hi
    ensures |Interval(lo, hi)| == hi - lo
    decreases hi - lo
  {
    if lo < hi {
      IntervalSize(lo, hi - 1);
      assert hi - 1 !in Interval(lo, hi - 1);
    }
  }

  /** Pairwise distinct values drawn from [lo, hi) number at most hi - lo. */
  lemma {:induction false} DistinctValuesFit(vs: seq<int>, lo: int, hi: int)
    requires lo <= hi && Distinct(vs) && forall i :: 0 <= i < |vs| ==> lo <= vs[i] < hi
    ensures |vs| <= hi - lo
  {
    DistinctElements(vs);
    IntervalSize(lo, hi);
    var drawn := Elements(vs);
    var interval := Interval(lo, hi);
    assert drawn <= interval;
    assert interval == drawn + (interval - drawn);
  }
}
