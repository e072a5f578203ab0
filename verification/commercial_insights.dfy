/** The commercial-insights route: a revenue breakdown of the live active
    subscriptions by billing interval, the year-to-date revenue of paid live
    charges grouped by month label, and a growth rate from the first to the
    last month. Listings are read at most 10 pages deep; each part is cached
    through `withCache`. The current month, the month labels and their
    chronological order are inputs. */
module CommercialInsights {
  import opened Wrappers
  import opened Seqs
  import opened Sorting
  import opened Paging
  import opened Billing
  import opened Groups
  import opened Cache

  /** `while (hasMore && pageCount < 10)` */
  const MaxPages: nat := 10

  /** Both listings stop after 10 pages. */
  lemma AtMostTenPages<T>(pages: seq<Page<T>>)
    ensures PagesFetched(pages, PageLimit(MaxPages)) <= 10
  {
    PageCapBound(pages, MaxPages);
  }

  function IsLive(sub: Subscription): bool
  {
    sub.livemode
  }

  /** The items of the subscriptions, subscription by subscription. */
  function ItemsOf(subs: seq<Subscription>): seq<Item>
  {
    if subs == [] then [] else ItemsOf(subs[..|subs| - 1]) + subs[|subs| - 1].items
  }

  lemma ItemsOfStep(subs: seq<Subscription>, i: nat)
    requires i < |subs|
    ensures ItemsOf(subs[..i + 1]) == ItemsOf(subs[..i]) + subs[i].items
  {
    assert subs[..i + 1][..i] == subs[..i];
  }

  lemma {:induction false} ItemsOfPrefix(subs: seq<Subscription>, k: nat)
    requires k <= |subs|
    ensures ItemsOf(subs[..k]) <= ItemsOf(subs)
    decreases |subs| - k
  {
    if k == |subs| {
      assert subs[..k] == subs;
    } else {
      ItemsOfPrefix(subs, k + 1);
      ItemsOfStep(subs, k);
    }
  }

  /** `(price.unit_amount || 0) / 100` */
  function UnitAmount(p: Price): real
  {
    (if p.unitAmount.Some? then p.unitAmount.value else 0) as real / 100.0
  }

  /** `item.quantity || 1` */
  function Quantity(item: Item): int
  {
    if Truthy(item.quantity) then item.quantity.value else 1
  }

  /** `amount * quantity` for an item: its unit amount in kroner times its quantity. */
  function ItemRevenue(item: Item): real
  {
    if item.price.None? then 0.0 else UnitAmount(item.price.value) * (Quantity(item) as real)
  }

  function IsMonthlyItem(item: Item): bool
  {
    item.price.Some? && IntervalOf(item.price.value) == Month
  }

  function IsYearlyItem(item: Item): bool
  {
    item.price.Some? && IntervalOf(item.price.value) == Year
  }

  predicate Priced(items: seq<Item>)
  {
    forall i :: 0 <= i < |items| ==> items[i].price.Some?
  }

  datatype IntervalTotals = IntervalTotals(month: real, year: real)

  datatype IntervalCounts = IntervalCounts(month: nat, year: nat)

  datatype Breakdown = Breakdown(
    monthlyRevenue: real,
    yearlyRevenue: real,
    revenueByInterval: IntervalTotals,
    subscriptionsByInterval: IntervalCounts,
    totalActiveSubscriptions: nat)

  /** Reading `unit_amount` of a null price throws and the route answers 500. */
  datatype RouteError = NullPrice

  /** The accumulators after the elements `xs`: the weight `w` summed over
      the monthly ones and over the yearly ones, the per-interval record equal
      to those two sums, and the per-interval counts counting elements. */
  ghost predicate AccumulatedBy<T>(xs: seq<T>, isMonth: T -> bool, isYear: T -> bool, w: T -> real,
    monthly: real, yearly: real, byInterval: IntervalTotals, counts: IntervalCounts)
  {
    && monthly == SumOf(Filter(xs, isMonth), w)
    && yearly == SumOf(Filter(xs, isYear), w)
    && byInterval == IntervalTotals(monthly, yearly)
    && counts == IntervalCounts(|Filter(xs, isMonth)|, |Filter(xs, isYear)|)
  }

  lemma AccumulateStep<T>(xs: seq<T>, x: T, isMonth: T -> bool, isYear: T -> bool, w: T -> real,
    monthly: real, yearly: real, byInterval: IntervalTotals, counts: IntervalCounts)
    requires !(isMonth(x) && isYear(x))
    requires AccumulatedBy(xs, isMonth, isYear, w, monthly, yearly, byInterval, counts)
    ensures isMonth(x) ==> AccumulatedBy(xs + [x], isMonth, isYear, w, monthly + w(x), yearly,
      IntervalTotals(byInterval.month + w(x), byInterval.year), IntervalCounts(counts.month + 1, counts.year))
    ensures isYear(x) ==> AccumulatedBy(xs + [x], isMonth, isYear, w, monthly, yearly + w(x),
      IntervalTotals(byInterval.month, byInterval.year + w(x)), IntervalCounts(counts.month, counts.year + 1))
    ensures !isMonth(x) && !isYear(x) ==> AccumulatedBy(xs + [x], isMonth, isYear, w, monthly, yearly, byInterval, counts)
  {
    FilterSnoc(xs, x, isMonth);
    FilterSnoc(xs, x, isYear);
    if isMonth(x) {
      SumOfSnoc(Filter(xs, isMonth), x, w);
      assert Filter(xs + [x], isYear) == Filter(xs, isYear);
    } else if isYear(x) {
      SumOfSnoc(Filter(xs, isYear), x, w);
      assert Filter(xs + [x], isMonth) == Filter(xs, isMonth);
    } else {
      assert Filter(xs + [x], isMonth) == Filter(xs, isMonth);
      assert Filter(xs + [x], isYear) == Filter(xs, isYear);
    }
  }

  /** Over items: monthly and yearly items, weighed by `amount * quantity`. */
  ghost predicate Accumulated(items: seq<Item>, monthly: real, yearly: real,
    byInterval: IntervalTotals, counts: IntervalCounts)
  {
    AccumulatedBy(items, IsMonthlyItem, IsYearlyItem, ItemRevenue, monthly, yearly, byInterval, counts)
  }

  /** The four accumulators of the revenue loop. */
  datatype Accumulators = Accumulators(monthly: real, yearly: real, byInterval: IntervalTotals, counts: IntervalCounts)

  const NoRevenue: Accumulators := Accumulators(0.0, 0.0, IntervalTotals(0.0, 0.0), IntervalCounts(0, 0))

  /** The loop body for one priced item: a monthly item adds its revenue to
      the monthly total and the month entry and counts one month item; a
      yearly one likewise for the year; any other interval adds nothing. */
  function AddItem(t: Accumulators, item: Item): Accumulators
  {
    var a := ItemRevenue(item);
    if IsMonthlyItem(item) then
      t.(monthly := t.monthly + a, byInterval := t.byInterval.(month := t.byInterval.month + a),
         counts := t.counts.(month := t.counts.month + 1))
    else if IsYearlyItem(item) then
      t.(yearly := t.yearly + a, byInterval := t.byInterval.(year := t.byInterval.year + a),
         counts := t.counts.(year := t.counts.year + 1))
    else t
  }

  /** The accumulators after the items, in order, starting from `t`. */
  function AddAll(t: Accumulators, items: seq<Item>): Accumulators
  {
    if items == [] then t else AddItem(AddAll(t, items[..|items| - 1]), items[|items| - 1])
  }

  lemma AddAllStep(t: Accumulators, items: seq<Item>, j: nat)
    requires j < |items|
    ensures AddAll(t, items[..j + 1]) == AddItem(AddAll(t, items[..j]), items[j])
  {
    assert items[..j + 1][..j] == items[..j];
  }

  lemma {:induction false} AddAllAppend(t: Accumulators, xs: seq<Item>, ys: seq<Item>)
    ensures AddAll(t, xs + ys) == AddAll(AddAll(t, xs), ys)
    decreases |ys|
  {
    if ys == [] {
      assert xs + ys == xs;
    } else {
      var init := ys[..|ys| - 1];
      assert (xs + ys)[..|xs + ys| - 1] == xs + init;
      AddAllAppend(t, xs, init);
    }
  }

  /** Folding from zero gives the accumulators the breakdown promises. */
  lemma {:induction false} AddAllAccumulated(items: seq<Item>)
    ensures var t := AddAll(NoRevenue, items);
      Accumulated(items, t.monthly, t.yearly, t.byInterval, t.counts)
    decreases |items|
  {
    if items != [] {
      var init, item := items[..|items| - 1], items[|items| - 1];
      AddAllAccumulated(init);
      var t := AddAll(NoRevenue, init);
      assert init + [item] == items;
      assert AddAll(NoRevenue, items) == AddItem(t, item);
      AccumulateStep(init, item, IsMonthlyItem, IsYearlyItem, ItemRevenue, t.monthly, t.yearly, t.byInterval, t.counts);
      if IsMonthlyItem(item) {
      } else if IsYearlyItem(item) {
      }
    }
  }

  /** Priced items stay priced one more at a time. */
  lemma PricedStep(items: seq<Item>, j: nat)
    requires j < |items| && Priced(items[..j]) && items[j].price.Some?
    ensures Priced(items[..j + 1])
  {
    assert items[..j + 1] == items[..j] + [items[j]];
  }

  /** Two lists of priced items make a list of priced items. */
  lemma PricedAppend(xs: seq<Item>, ys: seq<Item>)
    requires Priced(xs) && Priced(ys)
    ensures Priced(xs + ys)
  {
    forall k | 0 <= k < |xs + ys| ensures (xs + ys)[k].price.Some? {
      if k < |xs| {
        assert (xs + ys)[k] == xs[k];
      } else {
        assert (xs + ys)[k] == ys[k - |xs|];
      }
    }
  }

  /** An item without a price among the subscriptions' items. */
  lemma NullPriceFound(subs: seq<Subscription>, i: nat)
    requires i < |subs| && !Priced(subs[i].items)
    ensures !Priced(ItemsOf(subs))
  {
    var j :| 0 <= j < |subs[i].items| && subs[i].items[j].price.None?;
    ItemsOfStep(subs, i);
    ItemsOfPrefix(subs, i + 1);
    assert ItemsOf(subs)[|ItemsOf(subs[..i])| + j] == subs[i].items[j];
  }

  ghost predicate BreakdownOf(items: seq<Item>, b: Breakdown)
  {
    Accumulated(items, b.monthlyRevenue, b.yearlyRevenue, b.revenueByInterval, b.subscriptionsByInterval)
  }

  /** The inner loop over one subscription's items: each is added as
      `AddItem` says; the first item without a price stops it with `false`,
      which the route turns into a 500. */
  method AddItems(items: seq<Item>, monthly0: real, yearly0: real,
    byInterval0: IntervalTotals, counts0: IntervalCounts)
    returns (ok: bool, monthly: real, yearly: real, byInterval: IntervalTotals, counts: IntervalCounts)
    ensures ok <==> Priced(items)
    ensures ok ==> Accumulators(monthly, yearly, byInterval, counts) == AddAll(Accumulators(monthly0, yearly0, byInterval0, counts0), items)
  {
    ghost var start := Accumulators(monthly0, yearly0, byInterval0, counts0);
    monthly, yearly, byInterval, counts := monthly0, yearly0, byInterval0, counts0;
    var j := 0;
    assert items[..0] == [];
    while j < |items|
      invariant j <= |items|
      invariant Accumulators(monthly, yearly, byInterval, counts) == AddAll(start, items[..j])
      invariant Priced(items[..j])
    {
      var item := items[j];
      if item.price.None? {
        return false, monthly, yearly, byInterval, counts;
      }
      AddAllStep(start, items, j);
      PricedStep(items, j);
      var revenue := ItemRevenue(item);
      var interval := IntervalOf(item.price.value);
      if interval == Month {
        monthly := monthly + revenue;
        byInterval := byInterval.(month := byInterval.month + revenue);
        counts := counts.(month := counts.month + 1);
      } else if interval == Year {
        yearly := yearly + revenue;
        byInterval := byInterval.(year := byInterval.year + revenue);
        counts := counts.(year := counts.year + 1);
      }
      j := j + 1;
    }
    assert items[..j] == items;
    ok := true;
  }

  /** The state of the outer loop after the first `i` subscriptions. */
  ghost predicate RevenueSoFar(subs: seq<Subscription>, i: nat, t: Accumulators)
  {
    && i <= |subs|
    && t == AddAll(NoRevenue, ItemsOf(subs[..i]))
    && Priced(ItemsOf(subs[..i]))
  }

  lemma RevenueStep(subs: seq<Subscription>, i: nat, t: Accumulators, next: Accumulators)
    requires i < |subs| && RevenueSoFar(subs, i, t)
    requires Priced(subs[i].items) && next == AddAll(t, subs[i].items)
    ensures RevenueSoFar(subs, i + 1, next)
  {
    ItemsOfStep(subs, i);
    AddAllAppend(NoRevenue, ItemsOf(subs[..i]), subs[i].items);
    PricedAppend(ItemsOf(subs[..i]), subs[i].items);
  }

  lemma RevenueEnds(subs: seq<Subscription>, t: Accumulators)
    ensures RevenueSoFar(subs, 0, NoRevenue)
    ensures RevenueSoFar(subs, |subs|, t) ==>
      Priced(ItemsOf(subs)) && Accumulated(ItemsOf(subs), t.monthly, t.yearly, t.byInterval, t.counts)
  {
    assert subs[..0] == [];
    assert subs[..|subs|] == subs;
    AddAllAccumulated(ItemsOf(subs));
  }

  /** The revenue breakdown over the live subscriptions of the active
      listing: it fails exactly when some item of theirs has no price;
      otherwise each monthly item adds `amount * quantity` to the monthly
      totals and each yearly item to the yearly ones, other intervals add
      nothing, and `totalActiveSubscriptions` is the number of live ones. */
  method RevenueBreakdown(active: seq<Subscription>) returns (r: Result<Breakdown, RouteError>)
    ensures r.Err? <==> !Priced(ItemsOf(Filter(active, IsLive)))
    ensures r.Ok? ==> BreakdownOf(ItemsOf(Filter(active, IsLive)), r.value)
    ensures r.Ok? ==> r.value.totalActiveSubscriptions == |Filter(active, IsLive)|
  {
    var liveSubs := Filter(active, IsLive);
    var monthlyRevenue := 0.0;
    var yearlyRevenue := 0.0;
    var revenueByInterval := IntervalTotals(0.0, 0.0);
    var subsByInterval := IntervalCounts(0, 0);
    RevenueEnds(liveSubs, NoRevenue);
    var i := 0;
    while i < |liveSubs|
      invariant RevenueSoFar(liveSubs, i, Accumulators(monthlyRevenue, yearlyRevenue, revenueByInterval, subsByInterval))
    {
      ghost var before := Accumulators(monthlyRevenue, yearlyRevenue, revenueByInterval, subsByInterval);
      var ok;
      ok, monthlyRevenue, yearlyRevenue, revenueByInterval, subsByInterval :=
        AddItems(liveSubs[i].items, monthlyRevenue, yearlyRevenue, revenueByInterval, subsByInterval);
      if !ok {
        NullPriceFound(liveSubs, i);
        return Err(NullPrice);
      }
      RevenueStep(liveSubs, i, before, Accumulators(monthlyRevenue, yearlyRevenue, revenueByInterval, subsByInterval));
      i := i + 1;
    }
    RevenueEnds(liveSubs, Accumulators(monthlyRevenue, yearlyRevenue, revenueByInterval, subsByInterval));
    r := Ok(Breakdown(monthlyRevenue, yearlyRevenue, revenueByInterval, subsByInterval, |liveSubs|));
  }

  function MonthlyOrYearly(item: Item): bool
  {
    IsMonthlyItem(item) || IsYearlyItem(item)
  }

  /** Counted items are items: the two interval counts never exceed the
      number of items, which may exceed the number of subscriptions. */
  lemma IntervalCountsBound(items: seq<Item>)
    ensures |Filter(items, IsMonthlyItem)| + |Filter(items, IsYearlyItem)| <= |items|
  {
    FilterSplit(items, IsMonthlyItem, IsYearlyItem, MonthlyOrYearly);
  }

  /** `Math.max(1, now.getMonth() + 1)`: for a month index 0..11, the months
      elapsed so far this year, from 1 to 12. */
  function MonthsElapsed(month: int): (r: int)
    ensures r >= 1
    ensures 0 <= month <= 11 ==> 1 <= r <= 12 && r - 1 == month
  {
    if month + 1 > 1 then month + 1 else 1
  }

  function IsPaidLive(c: Charge): bool
  {
    c.paid && c.livemode
  }

  /** `charge.amount / 100` */
  function ChargeAmount(c: Charge): real
  {
    c.amount as real / 100.0
  }

  /** `ytdRevenue`: the filter-then-reduce sum over paid live charges. */
  function YtdRevenue(charges: seq<Charge>): (r: real)
    ensures (forall i :: 0 <= i < |charges| ==> !IsPaidLive(charges[i])) ==> r == 0.0
  {
    SumOf(Filter(charges, IsPaidLive), ChargeAmount)
  }

  /** Each charge adds its amount in kroner when it is paid and live, and
      nothing otherwise. */
  lemma YtdRevenueSnoc(charges: seq<Charge>, c: Charge)
    ensures YtdRevenue(charges + [c]) == YtdRevenue(charges) + (if IsPaidLive(c) then c.amount as real / 100.0 else 0.0)
  {
    FilterSnoc(charges, c, IsPaidLive);
    var paid := Filter(charges, IsPaidLive);
    if IsPaidLive(c) {
      SumOfSnoc(paid, c, ChargeAmount);
    } else {
      assert paid + [] == paid;
    }
  }

  function ChargeMonth(labelOf: int -> string): Charge -> string
  {
    (c: Charge) => labelOf(c.created)
  }

  /** `revenueByMonth`: per "MMM yyyy" label, in order of first appearance,
      the amounts of the paid live charges of that month; the month totals
      add up to the year-to-date revenue. */
  method RevenueByMonth(charges: seq<Charge>, labelOf: int -> string) returns (revenueByMonth: Entries<string, real>)
    ensures Totals(revenueByMonth, GroupBy(Filter(charges, IsPaidLive), ChargeMonth(labelOf)), ChargeAmount)
    ensures SumValues(revenueByMonth, x => x) == YtdRevenue(charges)
  {
    var paid := Filter(charges, IsPaidLive);
    revenueByMonth := Total(paid, ChargeMonth(labelOf), ChargeAmount);
    TotalSum(revenueByMonth, paid, ChargeMonth(labelOf), ChargeAmount);
  }

  /** `avgRevenuePerMonthYTD` */
  function AvgRevenuePerMonth(ytdRevenue: real, monthsElapsed: int): (r: real)
    requires monthsElapsed >= 1
    ensures r * (monthsElapsed as real) == ytdRevenue
  {
    ytdRevenue / (monthsElapsed as real)
  }

  function ValuesOf(d: Entries<string, real>): (r: seq<real>)
    ensures |r| == |d| && forall i :: 0 <= i < |d| ==> r[i] == d[i].1
  {
    seq(|d|, i requires 0 <= i < |d| => d[i].1)
  }

  /** The growth from the first to the last of the monthly values: 0 with
      fewer than two values or a first value that is not positive;
      otherwise the change as a percentage of the first, positive exactly
      when the last value is larger. */
  function FirstToLast(values: seq<real>): (r: real)
    ensures |values| < 2 || values[0] <= 0.0 ==> r == 0.0
    ensures |values| >= 2 && values[0] > 0.0 ==>
      && r * values[0] == (values[|values| - 1] - values[0]) * 100.0
      && (r > 0.0 <==> values[|values| - 1] > values[0])
  {
    if |values| >= 2 && values[0] > 0.0 then (values[|values| - 1] - values[0]) / values[0] * 100.0
    else 0.0
  }

  /** `([a], [b]) => a.localeCompare(b)` on "MMM yyyy" labels, which all
      have the same shape, so it is the code-point order. */
  function LabelBefore(a: (string, real), b: (string, real)): bool
  {
    StrLess(a.0, b.0)
  }

  /** `growthRate` as the route computes it: first and last after sorting the
      month labels as text, so "Feb 2025" precedes "Jan 2025". */
  function GrowthRateByLabel(revenueByMonth: Entries<string, real>): (r: real)
    ensures |revenueByMonth| < 2 ==> r == 0.0
  {
    FirstToLast(ValuesOf(SortBy(revenueByMonth, LabelBefore)))
  }

  function MonthBefore(monthIndex: string -> int): ((string, real), (string, real)) -> bool
  {
    (a: (string, real), b: (string, real)) => monthIndex(a.0) < monthIndex(b.0)
  }

  lemma MonthBeforeOrder(monthIndex: string -> int)
    ensures StrictWeakOrder(MonthBefore(monthIndex))
  {
  }

  /** The month entries in calendar order, given each label's month number. */
  function Chronological(revenueByMonth: Entries<string, real>, monthIndex: string -> int): (s: Entries<string, real>)
    ensures multiset(s) == multiset(revenueByMonth) && |s| == |revenueByMonth|
    ensures forall i, j :: 0 <= i < j < |s| ==> monthIndex(s[i].0) <= monthIndex(s[j].0)
  {
    MonthBeforeOrder(monthIndex);
    SortBySorted(revenueByMonth, MonthBefore(monthIndex));
    SortBy(revenueByMonth, MonthBefore(monthIndex))
  }

  /** The first chronological entry has the earliest month and the last the latest. */
  lemma ChronologicalBounds(revenueByMonth: Entries<string, real>, monthIndex: string -> int)
    ensures var s := Chronological(revenueByMonth, monthIndex);
      forall x :: x in revenueByMonth ==> monthIndex(s[0].0) <= monthIndex(x.0) <= monthIndex(s[|s| - 1].0)
  {
    var s := Chronological(revenueByMonth, monthIndex);
    forall x | x in revenueByMonth
      ensures monthIndex(s[0].0) <= monthIndex(x.0) <= monthIndex(s[|s| - 1].0)
    {
      assert x in multiset(revenueByMonth);
      assert x in multiset(s);
      var k :| 0 <= k < |s| && s[k] == x;
    }
  }

  /** The growth rate from the earliest month to the latest: every entry's
      month lies between those of the two entries it compares. */
  function GrowthRate(revenueByMonth: Entries<string, real>, monthIndex: string -> int): (r: real)
    ensures |revenueByMonth| < 2 ==> r == 0.0
    ensures var s := Chronological(revenueByMonth, monthIndex);
      |revenueByMonth| >= 2 ==>
        && (forall x :: x in revenueByMonth ==> monthIndex(s[0].0) <= monthIndex(x.0) <= monthIndex(s[|s| - 1].0))
        && (s[0].1 <= 0.0 ==> r == 0.0)
        && (s[0].1 > 0.0 ==> r * s[0].1 == (s[|s| - 1].1 - s[0].1) * 100.0)
  {
    var s := Chronological(revenueByMonth, monthIndex);
    ChronologicalBounds(revenueByMonth, monthIndex);
    FirstToLast(ValuesOf(s))
  }

  /** Two months in calendar order, January's revenue half of February's:
      the route reports -50 where the growth is +100. */
  lemma GrowthRateLabelOrder(monthIndex: string -> int)
    requires monthIndex("Jan 2025") < monthIndex("Feb 2025")
    ensures GrowthRateByLabel([("Jan 2025", 1000.0), ("Feb 2025", 2000.0)]) == -50.0
    ensures GrowthRate([("Jan 2025", 1000.0), ("Feb 2025", 2000.0)], monthIndex) == 100.0
  {
    var d := [("Jan 2025", 1000.0), ("Feb 2025", 2000.0)];
    assert StrLess("Feb 2025", "Jan 2025");
    assert SortBy(d[1..], LabelBefore) == [("Feb 2025", 2000.0)];
    assert SortBy(d, LabelBefore) == [("Feb 2025", 2000.0), ("Jan 2025", 1000.0)];
    assert SortBy(d[1..], MonthBefore(monthIndex)) == [("Feb 2025", 2000.0)];
    assert SortBy(d, MonthBefore(monthIndex)) == d;
  }

  /** The TTL arguments the route passes, 300 and 600, are read as
      milliseconds: a second's worth of nothing, so a missed entry is
      fetched twice and never stored. */
  lemma RouteTtlsNeverCache<V>(store: Store<V>, now: int, key: string, fetch: nat -> Result<Option<V>, string>, backend: Backend)
    requires Stored(store, now, CacheKey(key)).None?
    requires !backend.getFails
    ensures WithCacheSpec(store, now, key, fetch, Some(300), backend).store == store
    ensures WithCacheSpec(store, now, key, fetch, Some(600), backend).store == store
    ensures WithCacheSpec(store, now, key, fetch, Some(300), backend).calls == 2
    ensures WithCacheSpec(store, now, key, fetch, Some(600), backend).calls == 2
  {
    SubSecondTtlNeverCaches(store, now, key, fetch, 300, backend);
    SubSecondTtlNeverCaches(store, now, key, fetch, 600, backend);
  }

  /** Passing the intended 5 and 10 minutes in milliseconds stores the value,
      and a call within that time is served from the cache. */
  lemma MinuteTtlsCache<V>(store: Store<V>, now: int, later: int, key: string,
    fetch: nat -> Result<Option<V>, string>, ttlMs: int, backend: Backend, fetch2: nat -> Result<Option<V>, string>)
    requires ttlMs == 300_000 || ttlMs == 600_000
    requires !backend.getFails && !backend.setFails
    requires Stored(store, now, CacheKey(key)).None?
    requires fetch(0).Ok? && fetch(0).value.Some?
    requires now <= later < now + ttlMs / 1000
    ensures var first := WithCacheSpec(store, now, key, fetch, Some(ttlMs), backend);
      var second := WithCacheSpec(first.store, later, key, fetch2, Some(ttlMs), backend);
      first.calls == 1 && second.calls == 0 && second.result == fetch(0)
  {
    assert TtlSeconds(Some(ttlMs)) == ttlMs / 1000;
    Miss(store, now, key, fetch, Some(ttlMs), backend);
    SecondCallHits(store, now, later, key, fetch, fetch2, Some(ttlMs), Some(ttlMs), backend, backend);
  }
}
