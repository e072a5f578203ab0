/** `Array.prototype.sort` with a comparator, as the dashboard uses it: an
    insertion sort that places each element before the first one that does
    not come strictly before it, so equal elements keep their input order.
    Also the code-point order on strings that `localeCompare` amounts to for
    the date keys ("2025-03", "2025-03-10") the dashboard sorts. */
module Sorting {
  import opened Seqs

  /** `lt(a, b)`: `a` must come before `b` (comparator < 0). A strict weak
      order: asymmetric, and "not before" is transitive. */
  ghost predicate StrictWeakOrder<T(!new)>(lt: (T, T) -> bool)
  {
    && (forall a, b :: lt(a, b) ==> !lt(b, a))
    && (forall a, b, c :: !lt(a, b) && !lt(b, c) ==> !lt(a, c))
  }

  /** No element comes strictly before an element placed ahead of it. */
  ghost predicate SortedBy<T>(s: seq<T>, lt: (T, T) -> bool)
  {
    forall i, j :: 0 <= i < j < |s| ==> !lt(s[j], s[i])
  }

  function Insert<T>(x: T, s: seq<T>, lt: (T, T) -> bool): (r: seq<T>)
    ensures multiset(r) == multiset(s) + multiset{x}
    ensures |r| == |s| + 1
  {
    if s == [] || !lt(s[0], x) then [x] + s
    else
      assert s == [s[0]] + s[1..];
      [s[0]] + Insert(x, s[1..], lt)
  }

  /** The comparator sort: a permutation of `s`. */
  function SortBy<T>(s: seq<T>, lt: (T, T) -> bool): (r: seq<T>)
    ensures multiset(r) == multiset(s)
    ensures |r| == |s|
  {
    if s == [] then []
    else
      assert s == [s[0]] + s[1..];
      Insert(s[0], SortBy(s[1..], lt), lt)
  }

  /** The elements tied with `k`: neither comes before the other. */
  function TiedWith<T>(lt: (T, T) -> bool, k: T): T -> bool
  {
    (e: T) => !lt(e, k) && !lt(k, e)
  }

  lemma {:induction false} InsertStable<T(!new)>(x: T, s: seq<T>, lt: (T, T) -> bool, k: T)
    requires StrictWeakOrder(lt)
    ensures Filter(Insert(x, s, lt), TiedWith(lt, k)) == Filter([x], TiedWith(lt, k)) + Filter(s, TiedWith(lt, k))
    decreases |s|
  {
    var p := TiedWith(lt, k);
    if s == [] || !lt(s[0], x) {
      FilterAppend([x], s, p);
    } else {
      var tail := s[1..];
      assert s == [s[0]] + tail;
      InsertStable(x, tail, lt, k);
      FilterAppend([s[0]], Insert(x, tail, lt), p);
      FilterAppend([s[0]], tail, p);
      // `s[0]` comes strictly before `x`, so the two are not both tied with `k`.
      assert !(p(s[0]) && p(x));
      assert [x][..0] == [] && [s[0]][..0] == [];
    }
  }

  /** The sort is stable: the elements tied with any `k` appear in the
      result in the order they had in the input. */
  lemma {:induction false} SortByStable<T(!new)>(s: seq<T>, lt: (T, T) -> bool, k: T)
    requires StrictWeakOrder(lt)
    ensures Filter(SortBy(s, lt), TiedWith(lt, k)) == Filter(s, TiedWith(lt, k))
    decreases |s|
  {
    if s != [] {
      SortByStable(s[1..], lt, k);
      InsertStable(s[0], SortBy(s[1..], lt), lt, k);
      assert s == [s[0]] + s[1..];
      FilterAppend([s[0]], s[1..], TiedWith(lt, k));
    }
  }

  lemma {:induction false} InsertSorted<T(!new)>(x: T, s: seq<T>, lt: (T, T) -> bool)
    requires StrictWeakOrder(lt)
    requires SortedBy(s, lt)
    ensures SortedBy(Insert(x, s, lt), lt)
    decreases |s|
  {
    if s == [] || !lt(s[0], x) {
      var r := [x] + s;
      forall i, j | 0 <= i < j < |r| ensures !lt(r[j], r[i]) {
        if i == 0 {
          assert !lt(s[j - 1], s[0]) || j - 1 == 0;
        }
      }
    } else {
      var tail := s[1..];
      assert SortedBy(tail, lt);
      InsertSorted(x, tail, lt);
      var ins := Insert(x, tail, lt);
      var r := [s[0]] + ins;
      forall i, j | 0 <= i < j < |r| ensures !lt(r[j], r[i]) {
        if i == 0 {
          var y := r[j];
          assert y in multiset(ins);
          assert y == x || y in multiset(tail);
          if y != x {
            var k :| 0 <= k < |tail| && tail[k] == y;
            assert s[k + 1] == y;
          }
        }
      }
    }
  }

  lemma {:induction false} SortBySorted<T(!new)>(s: seq<T>, lt: (T, T) -> bool)
    requires StrictWeakOrder(lt)
    ensures SortedBy(SortBy(s, lt), lt)
    decreases |s|
  {
    if s != [] {
      SortBySorted(s[1..], lt);
      InsertSorted(s[0], SortBy(s[1..], lt), lt);
    }
  }

  /** `s.sort(cmp).slice(0, n)`: at most `n` elements of `s`, in order, and
      nothing left out comes strictly before anything kept. */
  function TopN<T(!new)>(s: seq<T>, n: nat, lt: (T, T) -> bool): (r: seq<T>)
    ensures |r| == if |s| < n then |s| else n
    ensures multiset(r) <= multiset(s)
    ensures StrictWeakOrder(lt) ==> SortedBy(r, lt)
    ensures StrictWeakOrder(lt) ==>
      forall x, i :: x in multiset(s) - multiset(r) && 0 <= i < |r| ==> !lt(x, r[i])
  {
    var sorted := SortBy(s, lt);
    SortedUnderOrder(s, lt);
    TakeSorted(sorted, n, lt);
    Take(sorted, n)
  }

  lemma SortedUnderOrder<T(!new)>(s: seq<T>, lt: (T, T) -> bool)
    ensures StrictWeakOrder(lt) ==> SortedBy(SortBy(s, lt), lt)
  {
    if StrictWeakOrder(lt) {
      SortBySorted(s, lt);
    }
  }

  lemma TakeSorted<T>(sorted: seq<T>, n: nat, lt: (T, T) -> bool)
    ensures multiset(Take(sorted, n)) <= multiset(sorted)
    ensures SortedBy(sorted, lt) ==> SortedBy(Take(sorted, n), lt)
    ensures SortedBy(sorted, lt) ==>
      forall x, i :: x in multiset(sorted) - multiset(Take(sorted, n)) && 0 <= i < |Take(sorted, n)| ==>
        !lt(x, Take(sorted, n)[i])
  {
    var kept := Take(sorted, n);
    var rest := sorted[|kept|..];
    assert sorted == kept + rest;
    assert multiset(sorted) == multiset(kept) + multiset(rest);
    if SortedBy(sorted, lt) {
      forall x, i | x in multiset(sorted) - multiset(kept) && 0 <= i < |kept|
        ensures !lt(x, kept[i])
      {
        assert x in multiset(rest);
        var k :| 0 <= k < |rest| && rest[k] == x;
        assert sorted[|kept| + k] == x;
        assert sorted[i] == kept[i];
      }
    }
  }

  /** Code-point (lexicographic) order on strings. */
  predicate StrLess(a: string, b: string)
  {
    if |a| == 0 then |b| > 0
    else if |b| == 0 then false
    else if a[0] != b[0] then a[0] < b[0]
    else StrLess(a[1..], b[1..])
  }

  lemma {:induction false} StrLessAsymmetric(a: string, b: string)
    ensures StrLess(a, b) ==> !StrLess(b, a)
    decreases |a|
  {
    if |a| > 0 && |b| > 0 && a[0] == b[0] {
      StrLessAsymmetric(a[1..], b[1..]);
    }
  }

  lemma {:induction false} StrLessTotal(a: string, b: string)
    ensures a == b || StrLess(a, b) || StrLess(b, a)
    decreases |a|
  {
    if |a| > 0 && |b| > 0 && a[0] == b[0] {
      StrLessTotal(a[1..], b[1..]);
      if a[1..] == b[1..] {
        assert a == [a[0]] + a[1..] && b == [b[0]] + b[1..];
      }
    }
  }

  lemma {:induction false} StrLessTransitive(a: string, b: string, c: string)
    ensures StrLess(a, b) && StrLess(b, c) ==> StrLess(a, c)
    decreases |a|
  {
    if |a| > 0 && |b| > 0 && |c| > 0 && a[0] == b[0] && b[0] == c[0] {
      StrLessTransitive(a[1..], b[1..], c[1..]);
    }
  }

  /** "Not after" is transitive: the order is total, so this follows from the three above. */
  lemma StrNotLessTransitive(a: string, b: string, c: string)
    ensures !StrLess(a, b) && !StrLess(b, c) ==> !StrLess(a, c)
  {
    StrLessTotal(a, b);
    StrLessTotal(b, c);
    StrLessTransitive(c, b, a);
    StrLessAsymmetric(a, c);
  }
}
