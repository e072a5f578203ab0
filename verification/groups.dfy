/** JavaScript objects and `Map`s used as dictionaries: a list of entries in
    the order their keys were first inserted (the order `Object.entries`,
    `Object.values` and `Map.forEach` report for non-numeric keys). The
    accumulation pattern `acc[k] = (acc[k] || 0) + x` that the routes repeat
    is specified once here, through the grouping of the input by key. */
module Groups {
  import opened Wrappers
  import opened Seqs

  type Entries<K, V> = seq<(K, V)>

  function KeysOf<K, V>(d: Entries<K, V>): (r: seq<K>)
    ensures |r| == |d|
    ensures forall i :: 0 <= i < |d| ==> r[i] == d[i].0
  {
    seq(|d|, i requires 0 <= i < |d| => d[i].0)
  }

  ghost predicate DistinctKeys<K, V>(d: Entries<K, V>)
  {
    forall i, j :: 0 <= i < j < |d| ==> d[i].0 != d[j].0
  }

  /** Position of the first occurrence of `k` in `ks` (`acc[k]` lookup). */
  function Find<K(==)>(ks: seq<K>, k: K): (r: Option<nat>)
    ensures r.Some? ==> r.value < |ks| && ks[r.value] == k
    ensures r.Some? ==> forall j :: 0 <= j < r.value ==> ks[j] != k
    ensures r.None? <==> k !in ks
  {
    if ks == [] then None
    else if ks[0] == k then Some(0)
    else match Find(ks[1..], k)
      case None => None
      case Some(i) => Some(i + 1)
  }

  /** `xs.filter(x => keyOf(x) === k)`, as a predicate value. */
  function KeyIs<T, K(==)>(keyOf: T -> K, k: K): T -> bool
  {
    x => keyOf(x) == k
  }

  /** Adds `x` to the group of `k`, opening a new group at the end when `k` is new. */
  function AddTo<T, K(==)>(g: Entries<K, seq<T>>, k: K, x: T): Entries<K, seq<T>>
  {
    match Find(KeysOf(g), k)
    case Some(i) => g[i := (k, g[i].1 + [x])]
    case None => g + [(k, [x])]
  }

  /** The elements of `s` grouped by `keyOf`, groups in first-occurrence order. */
  function GroupBy<T, K(==)>(s: seq<T>, keyOf: T -> K): Entries<K, seq<T>>
  {
    if s == [] then []
    else AddTo(GroupBy(s[..|s| - 1], keyOf), keyOf(s[|s| - 1]), s[|s| - 1])
  }

  lemma GroupByStep<T, K>(s: seq<T>, i: nat, keyOf: T -> K)
    requires i < |s|
    ensures GroupBy(s[..i + 1], keyOf) == AddTo(GroupBy(s[..i], keyOf), keyOf(s[i]), s[i])
  {
    assert s[..i + 1][..i] == s[..i];
  }

  /** `[...new Set(ks)]`: each value once, at its first position. */
  function Dedup<K(==)>(ks: seq<K>): (r: seq<K>)
    ensures forall i, j :: 0 <= i < j < |r| ==> r[i] != r[j]
    ensures forall i :: 0 <= i < |r| ==> r[i] in ks
    ensures forall i :: 0 <= i < |ks| ==> ks[i] in r
    ensures |r| <= |ks|
  {
    if ks == [] then []
    else
      var d := Dedup(ks[..|ks| - 1]);
      assert ks == ks[..|ks| - 1] + [ks[|ks| - 1]];
      if ks[|ks| - 1] in d then d else d + [ks[|ks| - 1]]
  }

  function MapSeq<T, K>(s: seq<T>, f: T -> K): (r: seq<K>)
    ensures |r| == |s| && forall i :: 0 <= i < |s| ==> r[i] == f(s[i])
  {
    seq(|s|, i requires 0 <= i < |s| => f(s[i]))
  }

  /** What adding one element does: the group of `k` grows by `x` (or is
      opened at the end), every other group is unchanged. */
  lemma AddToEffect<T, K>(g: Entries<K, seq<T>>, k: K, x: T)
    requires DistinctKeys(g)
    ensures Find(KeysOf(g), k).Some? ==> KeysOf(AddTo(g, k, x)) == KeysOf(g)
    ensures Find(KeysOf(g), k).None? ==> KeysOf(AddTo(g, k, x)) == KeysOf(g) + [k]
    ensures forall j :: 0 <= j < |g| && g[j].0 != k ==> AddTo(g, k, x)[j] == g[j]
    ensures forall j :: 0 <= j < |AddTo(g, k, x)| && AddTo(g, k, x)[j].0 == k ==>
      AddTo(g, k, x)[j].1 == (if j < |g| then g[j].1 else []) + [x]
  {
  }

  /** The keys of the grouping are the distinct keys of `s`, in first-occurrence order. */
  lemma {:induction false} GroupByKeys<T, K>(s: seq<T>, keyOf: T -> K)
    ensures KeysOf(GroupBy(s, keyOf)) == Dedup(MapSeq(s, keyOf))
    ensures DistinctKeys(GroupBy(s, keyOf))
    decreases |s|
  {
    if s != [] {
      var init := s[..|s| - 1];
      var x := s[|s| - 1];
      GroupByKeys(init, keyOf);
      AddToEffect(GroupBy(init, keyOf), keyOf(x), x);
      assert MapSeq(s, keyOf)[..|s| - 1] == MapSeq(init, keyOf);
    }
    var g := GroupBy(s, keyOf);
    forall i, j | 0 <= i < j < |g| ensures g[i].0 != g[j].0 {
      assert KeysOf(g)[i] == g[i].0 && KeysOf(g)[j] == g[j].0;
    }
  }

  /** Each group holds exactly the elements of `s` with its key, in input order. */
  lemma {:induction false} GroupByFilter<T, K>(s: seq<T>, keyOf: T -> K)
    ensures forall j :: 0 <= j < |GroupBy(s, keyOf)| ==>
      GroupBy(s, keyOf)[j].1 == Filter(s, KeyIs(keyOf, GroupBy(s, keyOf)[j].0))
    decreases |s|
  {
    if s != [] {
      var init := s[..|s| - 1];
      var x := s[|s| - 1];
      var k := keyOf(x);
      GroupByFilter(init, keyOf);
      GroupByKeys(init, keyOf);
      var g := GroupBy(init, keyOf);
      var g' := GroupBy(s, keyOf);
      AddToEffect(g, k, x);
      forall j | 0 <= j < |g'|
        ensures g'[j].1 == Filter(s, KeyIs(keyOf, g'[j].0))
      {
        var kj := g'[j].0;
        assert Filter(s, KeyIs(keyOf, kj)) ==
          Filter(init, KeyIs(keyOf, kj)) + (if KeyIs(keyOf, kj)(x) then [x] else []);
        if j >= |g| {
          assert kj == k && k !in KeysOf(g);
          assert forall i :: 0 <= i < |init| ==> !KeyIs(keyOf, kj)(init[i]) by {
            forall i | 0 <= i < |init| ensures !KeyIs(keyOf, kj)(init[i]) {
              assert keyOf(init[i]) in Dedup(MapSeq(init, keyOf)) by {
                assert MapSeq(init, keyOf)[i] == keyOf(init[i]);
              }
            }
          }
          FilterNone(init, KeyIs(keyOf, kj));
        }
      }
    }
  }

  /** Sum of `f` over the values of a dictionary (`Object.values(d).reduce(...)`). */
  function SumValues<K, V>(d: Entries<K, V>, f: V -> real): real
  {
    if d == [] then 0.0 else SumValues(d[..|d| - 1], f) + f(d[|d| - 1].1)
  }

  /** Count of `f` over the values of a dictionary. */
  function CountValues<K, V>(d: Entries<K, V>, f: V -> nat): nat
  {
    if d == [] then 0 else CountValues(d[..|d| - 1], f) + f(d[|d| - 1].1)
  }

  lemma {:induction false} SumValuesUpdate<K, V>(d: Entries<K, V>, i: nat, e: (K, V), f: V -> real)
    requires i < |d|
    ensures SumValues(d[i := e], f) == SumValues(d, f) - f(d[i].1) + f(e.1)
    decreases |d|
  {
    var n := |d| - 1;
    if i < n {
      assert d[i := e][..n] == d[..n][i := e];
      SumValuesUpdate(d[..n], i, e, f);
    } else {
      assert d[i := e][..n] == d[..n];
    }
  }

  lemma {:induction false} CountValuesUpdate<K, V>(d: Entries<K, V>, i: nat, e: (K, V), f: V -> nat)
    requires i < |d|
    ensures CountValues(d[i := e], f) == CountValues(d, f) - f(d[i].1) + f(e.1)
    decreases |d|
  {
    var n := |d| - 1;
    if i < n {
      assert d[i := e][..n] == d[..n][i := e];
      CountValuesUpdate(d[..n], i, e, f);
    } else {
      assert d[i := e][..n] == d[..n];
    }
  }

  lemma SumValuesAppend<K, V>(d: Entries<K, V>, e: (K, V), f: V -> real)
    ensures SumValues(d + [e], f) == SumValues(d, f) + f(e.1)
  {
    assert (d + [e])[..|d|] == d;
  }

  lemma CountValuesAppend<K, V>(d: Entries<K, V>, e: (K, V), f: V -> nat)
    ensures CountValues(d + [e], f) == CountValues(d, f) + f(e.1)
  {
    assert (d + [e])[..|d|] == d;
  }

  /** Two dictionaries whose values agree under `f` and `h` have the same sums. */
  lemma {:induction false} SumValuesPointwise<K1, V1, K2, V2>(
    d1: Entries<K1, V1>, f: V1 -> real, d2: Entries<K2, V2>, h: V2 -> real)
    requires |d1| == |d2|
    requires forall j :: 0 <= j < |d1| ==> f(d1[j].1) == h(d2[j].1)
    ensures SumValues(d1, f) == SumValues(d2, h)
    decreases |d1|
  {
    if d1 != [] {
      SumValuesPointwise(d1[..|d1| - 1], f, d2[..|d2| - 1], h);
    }
  }

  lemma {:induction false} CountValuesPointwise<K1, V1, K2, V2>(
    d1: Entries<K1, V1>, f: V1 -> nat, d2: Entries<K2, V2>, h: V2 -> nat)
    requires |d1| == |d2|
    requires forall j :: 0 <= j < |d1| ==> f(d1[j].1) == h(d2[j].1)
    ensures CountValues(d1, f) == CountValues(d2, h)
    decreases |d1|
  {
    if d1 != [] {
      CountValuesPointwise(d1[..|d1| - 1], f, d2[..|d2| - 1], h);
    }
  }

  /** `Object.values(d).map(g)` summed: a list whose elements agree under
      `h` with the dictionary's values under `f` has the same sum. */
  lemma {:induction false} SumValuesAsList<K, V, T>(d: Entries<K, V>, f: V -> real, s: seq<T>, h: T -> real)
    requires |d| == |s|
    requires forall j :: 0 <= j < |d| ==> f(d[j].1) == h(s[j])
    ensures SumValues(d, f) == SumOf(s, h)
    decreases |d|
  {
    if d != [] {
      SumValuesAsList(d[..|d| - 1], f, s[..|s| - 1], h);
    }
  }

  /** `rows => rows.reduce((sum, x) => sum + w(x), 0)` */
  function SumBy<T>(w: T -> real): seq<T> -> real
  {
    rows => SumOf(rows, w)
  }

  /** `rows => rows.length` */
  function Size<T>(): seq<T> -> nat
  {
    rows => |rows|
  }

  /** Grouping loses nothing: the group sums add up to the sum over `s`. */
  lemma {:induction false} GroupBySum<T, K>(s: seq<T>, keyOf: T -> K, w: T -> real)
    ensures SumValues(GroupBy(s, keyOf), SumBy(w)) == SumOf(s, w)
    decreases |s|
  {
    if s != [] {
      var init := s[..|s| - 1];
      var x := s[|s| - 1];
      GroupBySum(init, keyOf, w);
      var g := GroupBy(init, keyOf);
      match Find(KeysOf(g), keyOf(x))
      case Some(i) =>
        SumValuesUpdate(g, i, (keyOf(x), g[i].1 + [x]), SumBy(w));
        assert (g[i].1 + [x])[..|g[i].1|] == g[i].1;
      case None =>
        SumValuesAppend(g, (keyOf(x), [x]), SumBy(w));
        assert [x][..0] == [];
        assert SumBy(w)([x]) == SumOf([x], w) == w(x);
    }
  }

  /** Grouping loses nothing: the group sizes add up to `|s|`. */
  lemma {:induction false} GroupBySize<T, K>(s: seq<T>, keyOf: T -> K)
    ensures CountValues(GroupBy(s, keyOf), Size()) == |s|
    decreases |s|
  {
    if s != [] {
      var init := s[..|s| - 1];
      var x := s[|s| - 1];
      GroupBySize(init, keyOf);
      var g := GroupBy(init, keyOf);
      match Find(KeysOf(g), keyOf(x))
      case Some(i) =>
        CountValuesUpdate(g, i, (keyOf(x), g[i].1 + [x]), Size());
      case None =>
        CountValuesAppend(g, (keyOf(x), [x]), Size());
    }
  }

  /** `counts` holds, for each group of `g` in order, its key and its size. */
  ghost predicate Tallies<T, K>(counts: Entries<K, nat>, g: Entries<K, seq<T>>)
  {
    |counts| == |g| && forall j :: 0 <= j < |g| ==> counts[j] == (g[j].0, |g[j].1|)
  }

  /** `totals` holds, for each group of `g` in order, its key and its `w`-sum. */
  ghost predicate Totals<T, K>(totals: Entries<K, real>, g: Entries<K, seq<T>>, w: T -> real)
  {
    |totals| == |g| && forall j :: 0 <= j < |g| ==> totals[j] == (g[j].0, SumOf(g[j].1, w))
  }

  /** `acc[k] = (acc[k] || 0) + 1` */
  function AddOne<K(==)>(counts: Entries<K, nat>, k: K): Entries<K, nat>
  {
    match Find(KeysOf(counts), k)
    case Some(j) => counts[j := (k, counts[j].1 + 1)]
    case None => counts + [(k, 1)]
  }

  lemma AddOneTallies<T, K>(counts: Entries<K, nat>, g: Entries<K, seq<T>>, k: K, x: T)
    requires Tallies(counts, g)
    ensures Tallies(AddOne(counts, k), AddTo(g, k, x))
  {
    assert KeysOf(counts) == KeysOf(g);
  }

  /** `s.forEach(x => { acc[keyOf(x)] = (acc[keyOf(x)] || 0) + 1; })` */
  method Tally<T, K(==)>(s: seq<T>, keyOf: T -> K) returns (counts: Entries<K, nat>)
    ensures Tallies(counts, GroupBy(s, keyOf))
  {
    counts := [];
    var i := 0;
    while i < |s|
      invariant i <= |s|
      invariant Tallies(counts, GroupBy(s[..i], keyOf))
    {
      GroupByStep(s, i, keyOf);
      AddOneTallies(counts, GroupBy(s[..i], keyOf), keyOf(s[i]), s[i]);
      counts := AddOne(counts, keyOf(s[i]));
      i := i + 1;
    }
    assert s[..|s|] == s;
  }

  /** `acc[k] = (acc[k] || 0) + a` */
  function AddAmount<K(==)>(totals: Entries<K, real>, k: K, a: real): Entries<K, real>
  {
    match Find(KeysOf(totals), k)
    case Some(j) => totals[j := (k, totals[j].1 + a)]
    case None => totals + [(k, a)]
  }

  lemma AddAmountTotals<T, K>(totals: Entries<K, real>, g: Entries<K, seq<T>>, k: K, x: T, w: T -> real)
    requires Totals(totals, g, w)
    ensures Totals(AddAmount(totals, k, w(x)), AddTo(g, k, x), w)
  {
    assert KeysOf(totals) == KeysOf(g);
    match Find(KeysOf(totals), k)
    case Some(j) =>
      assert (g[j].1 + [x])[..|g[j].1|] == g[j].1;
    case None =>
      assert [x][..0] == [];
  }

  /** `s.forEach(x => { acc[keyOf(x)] = (acc[keyOf(x)] || 0) + w(x); })` */
  method Total<T, K(==)>(s: seq<T>, keyOf: T -> K, w: T -> real) returns (totals: Entries<K, real>)
    ensures Totals(totals, GroupBy(s, keyOf), w)
  {
    totals := [];
    var i := 0;
    while i < |s|
      invariant i <= |s|
      invariant Totals(totals, GroupBy(s[..i], keyOf), w)
    {
      GroupByStep(s, i, keyOf);
      AddAmountTotals(totals, GroupBy(s[..i], keyOf), keyOf(s[i]), s[i], w);
      totals := AddAmount(totals, keyOf(s[i]), w(s[i]));
      i := i + 1;
    }
    assert s[..|s|] == s;
  }

  /** The tally's counts add up to the number of elements. */
  lemma TallySum<T, K>(counts: Entries<K, nat>, s: seq<T>, keyOf: T -> K)
    requires Tallies(counts, GroupBy(s, keyOf))
    ensures CountValues(counts, n => n) == |s|
  {
    GroupBySize(s, keyOf);
    CountValuesPointwise(counts, n => n, GroupBy(s, keyOf), Size());
  }

  /** The totals add up to the sum over all elements. */
  lemma TotalSum<T, K>(totals: Entries<K, real>, s: seq<T>, keyOf: T -> K, w: T -> real)
    requires Totals(totals, GroupBy(s, keyOf), w)
    ensures SumValues(totals, x => x) == SumOf(s, w)
  {
    GroupBySum(s, keyOf, w);
    SumValuesPointwise(totals, x => x, GroupBy(s, keyOf), SumBy(w));
  }

  /** `d` holds, for each group of `g` in order, its key and `valueOf` of its first element. */
  ghost predicate FirstOf<T, K, V>(d: Entries<K, V>, g: Entries<K, seq<T>>, valueOf: T -> V)
  {
    |d| == |g| && forall j :: 0 <= j < |g| ==> g[j].1 != [] && d[j] == (g[j].0, valueOf(g[j].1[0]))
  }

  /** `if (!m.has(k)) m.set(k, valueOf(x))` */
  function SetIfAbsent<K(==), V>(d: Entries<K, V>, k: K, v: V): Entries<K, V>
  {
    if Find(KeysOf(d), k).Some? then d else d + [(k, v)]
  }

  lemma SetIfAbsentFirst<T, K, V>(d: Entries<K, V>, g: Entries<K, seq<T>>, k: K, x: T, valueOf: T -> V)
    requires FirstOf(d, g, valueOf)
    ensures FirstOf(SetIfAbsent(d, k, valueOf(x)), AddTo(g, k, x), valueOf)
  {
    assert KeysOf(d) == KeysOf(g);
    match Find(KeysOf(g), k)
    case Some(j) =>
      assert (g[j].1 + [x])[0] == g[j].1[0];
    case None =>
  }

  /** `for (x of s) if (!m.has(keyOf(x))) m.set(keyOf(x), valueOf(x))`: one
      entry per distinct key, in first-occurrence order, holding the value of
      the first element with that key; never more entries than elements. */
  method FirstSeen<T, K(==), V>(s: seq<T>, keyOf: T -> K, valueOf: T -> V) returns (d: Entries<K, V>)
    ensures FirstOf(d, GroupBy(s, keyOf), valueOf)
    ensures KeysOf(d) == Dedup(MapSeq(s, keyOf))
    ensures |d| <= |s|
  {
    d := [];
    var i := 0;
    while i < |s|
      invariant i <= |s|
      invariant FirstOf(d, GroupBy(s[..i], keyOf), valueOf)
    {
      GroupByStep(s, i, keyOf);
      SetIfAbsentFirst(d, GroupBy(s[..i], keyOf), keyOf(s[i]), s[i], valueOf);
      d := SetIfAbsent(d, keyOf(s[i]), valueOf(s[i]));
      i := i + 1;
    }
    assert s[..|s|] == s;
    GroupByKeys(s, keyOf);
    assert KeysOf(d) == KeysOf(GroupBy(s, keyOf));
  }
}
