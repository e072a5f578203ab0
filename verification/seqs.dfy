/** The JavaScript array operations the dashboard code is built from:
    `filter`, `filter(...).length`, `reduce` into a sum, `slice(0, n)` and
    `new Set(xs.map(f))`. Every fold is defined from the back so that a loop
    over `s[..i]` extends it one element at a time. */
module Seqs {

  /** `s.filter(p)`: the elements of `s` that satisfy `p`, in their original order. */
  function Filter<T>(s: seq<T>, p: T -> bool): (r: seq<T>)
    ensures |r| <= |s|
    ensures forall i :: 0 <= i < |r| ==> r[i] in s && p(r[i])
    ensures forall i :: 0 <= i < |s| && p(s[i]) ==> s[i] in r
  {
    if s == [] then []
    else
      var init := s[..|s| - 1];
      assert s == init + [s[|s| - 1]];
      Filter(init, p) + (if p(s[|s| - 1]) then [s[|s| - 1]] else [])
  }

  lemma {:induction false} FilterAppend<T>(a: seq<T>, b: seq<T>, p: T -> bool)
    ensures Filter(a + b, p) == Filter(a, p) + Filter(b, p)
    decreases |b|
  {
    if b == [] {
      assert a + b == a;
    } else {
      var b' := b[..|b| - 1];
      assert (a + b)[..|a + b| - 1] == a + b';
      FilterAppend(a, b', p);
    }
  }

  /** Filtering the prefix one element longer adds that element when it passes. */
  lemma FilterStep<T>(s: seq<T>, i: nat, p: T -> bool)
    requires i < |s|
    ensures Filter(s[..i + 1], p) == Filter(s[..i], p) + (if p(s[i]) then [s[i]] else [])
  {
    assert s[..i + 1][..i] == s[..i];
  }

  /** Filtering one more element at the end adds it when it passes. */
  lemma FilterSnoc<T>(s: seq<T>, x: T, p: T -> bool)
    ensures Filter(s + [x], p) == Filter(s, p) + (if p(x) then [x] else [])
  {
    assert (s + [x])[..|s|] == s;
  }

  /** Two disjoint predicates whose union is `r` split the count of `r`. */
  lemma {:induction false} FilterSplit<T>(s: seq<T>, p: T -> bool, q: T -> bool, r: T -> bool)
    requires forall x :: r(x) == (p(x) || q(x))
    requires forall x :: !(p(x) && q(x))
    ensures |Filter(s, r)| == |Filter(s, p)| + |Filter(s, q)|
    decreases |s|
  {
    if s != [] {
      FilterSplit(s[..|s| - 1], p, q, r);
    }
  }

  /** A predicate weaker on the elements of `s` keeps at least as many of them. */
  lemma {:induction false} FilterMono<T>(s: seq<T>, p: T -> bool, q: T -> bool)
    requires forall i :: 0 <= i < |s| && p(s[i]) ==> q(s[i])
    ensures |Filter(s, p)| <= |Filter(s, q)|
    decreases |s|
  {
    if s != [] {
      var init := s[..|s| - 1];
      assert forall i :: 0 <= i < |init| ==> init[i] == s[i];
      FilterMono(init, p, q);
    }
  }

  /** Filtering twice is filtering by the conjunction. */
  lemma {:induction false} FilterFilter<T>(s: seq<T>, p: T -> bool, q: T -> bool, r: T -> bool)
    requires forall x :: r(x) == (p(x) && q(x))
    ensures Filter(Filter(s, p), q) == Filter(s, r)
    decreases |s|
  {
    if s != [] {
      var init := s[..|s| - 1];
      FilterFilter(init, p, q, r);
      var last := if p(s[|s| - 1]) then [s[|s| - 1]] else [];
      FilterAppend(Filter(init, p), last, q);
    }
  }

  /** Every element passes exactly when nothing is filtered out. */
  lemma {:induction false} FilterKeepsAll<T>(s: seq<T>, p: T -> bool)
    ensures |Filter(s, p)| == |s| <==> forall i :: 0 <= i < |s| ==> p(s[i])
    decreases |s|
  {
    if s != [] {
      var init := s[..|s| - 1];
      FilterKeepsAll(init, p);
      if forall i :: 0 <= i < |s| ==> p(s[i]) {
        assert forall i :: 0 <= i < |init| ==> p(init[i]) by {
          forall i | 0 <= i < |init| ensures p(init[i]) { assert init[i] == s[i]; }
        }
      }
      if |Filter(s, p)| == |s| {
        assert |Filter(init, p)| == |init| && p(s[|s| - 1]);
        forall i | 0 <= i < |s| ensures p(s[i]) {
          if i < |init| { assert init[i] == s[i]; }
        }
      }
    }
  }

  /** Nothing passes, nothing is kept. */
  lemma {:induction false} FilterNone<T>(s: seq<T>, p: T -> bool)
    requires forall i :: 0 <= i < |s| ==> !p(s[i])
    ensures Filter(s, p) == []
    decreases |s|
  {
    if s != [] {
      FilterNone(s[..|s| - 1], p);
    }
  }

  /** `s.reduce((sum, x) => sum + f(x), 0)` */
  function SumOf<T>(s: seq<T>, f: T -> real): real
  {
    if s == [] then 0.0 else SumOf(s[..|s| - 1], f) + f(s[|s| - 1])
  }

  lemma {:induction false} SumOfAppend<T>(a: seq<T>, b: seq<T>, f: T -> real)
    ensures SumOf(a + b, f) == SumOf(a, f) + SumOf(b, f)
    decreases |b|
  {
    if b == [] {
      assert a + b == a;
    } else {
      var b' := b[..|b| - 1];
      assert (a + b)[..|a + b| - 1] == a + b';
      SumOfAppend(a, b', f);
    }
  }

  lemma SumOfStep<T>(s: seq<T>, i: nat, f: T -> real)
    requires i < |s|
    ensures SumOf(s[..i + 1], f) == SumOf(s[..i], f) + f(s[i])
  {
    assert s[..i + 1][..i] == s[..i];
  }

  lemma SumOfSnoc<T>(s: seq<T>, x: T, f: T -> real)
    ensures SumOf(s + [x], f) == SumOf(s, f) + f(x)
  {
    assert (s + [x])[..|s|] == s;
  }

  /** `s.slice(0, n)` */
  function Take<T>(s: seq<T>, n: nat): (r: seq<T>)
    ensures |r| <= n && |r| <= |s|
    ensures |s| <= n ==> r == s
    ensures |s| > n ==> |r| == n
    ensures r <= s
  {
    if |s| <= n then s else s[..n]
  }

  /** `new Set(s.map(f))`: the distinct values of `f` over `s`. */
  function Distinct<T, U>(s: seq<T>, f: T -> U): (r: set<U>)
    ensures |r| <= |s|
    ensures forall i :: 0 <= i < |s| ==> f(s[i]) in r
    ensures forall u :: u in r ==> exists i :: 0 <= i < |s| && f(s[i]) == u
  {
    if s == [] then {}
    else
      var init := s[..|s| - 1];
      assert s == init + [s[|s| - 1]];
      var rest := Distinct(init, f);
      assert |rest + {f(s[|s| - 1])}| <= |rest| + 1;
      rest + {f(s[|s| - 1])}
  }
}
