/** The ads analysis page: the rows of a Facebook Ads spreadsheet export are
    read with defaults, summed overall, per ad, per platform and per week,
    turned into cost per result (CPA) and cost per thousand impressions
    (CPM), and compared week against week to raise alerts. */
module Ads {
  import opened Wrappers
  import opened Seqs
  import opened Sorting
  import opened Groups

  // ---------------------------------------------------------------------
  // Reading the spreadsheet

  /** A cell as `sheet_to_json` yields it: absent, text or a number. */
  datatype Cell = Missing | Text(s: string) | Number(n: real)

  /** JavaScript truthiness of a cell. */
  predicate CellTruthy(c: Cell)
  {
    match c
    case Missing => false
    case Text(s) => s != ""
    case Number(n) => n != 0.0
  }

  /** The cell under a column heading; a heading the row lacks reads as absent. */
  function CellAt(row: map<string, Cell>, column: string): Cell
  {
    if column in row then row[column] else Missing
  }

  /** `String(c || "")`, where `show` renders a number as JavaScript's `String` does. */
  function TextOf(c: Cell, show: real -> string): (r: string)
    ensures !CellTruthy(c) ==> r == ""
    ensures c.Text? ==> r == c.s
    ensures c.Number? && c.n != 0.0 ==> r == show(c.n)
  {
    if !CellTruthy(c) then ""
    else match c
      case Text(s) => s
      case Number(n) => show(n)
      case Missing => ""
  }

  /** `Number(c) || 0`, where `parse` is what `Number` makes of a text. */
  function NumberOr0(c: Cell, parse: string -> real): (r: real)
    ensures c.Missing? ==> r == 0.0
    ensures c.Number? ==> r == c.n
    ensures c.Text? ==> r == parse(c.s)
  {
    match c
    case Missing => 0.0
    case Text(s) => parse(s)
    case Number(n) => n
  }

  /** A cell that holds something other than the export's "-" placeholder. */
  predicate Filled(c: Cell)
  {
    CellTruthy(c) && c != Text("-")
  }

  /** One parsed row of the export. */
  datatype AdRow = AdRow(
    date: string,
    adName: string,
    platform: string,
    placement: string,
    spend: real,
    reach: real,
    impressions: real,
    results: real,
    costPerResult: Option<real>)

  /** The row mapping of `parseExcelFile`: a missing text becomes "", a
      missing number 0, a missing or "-" result count 0, and a missing or
      "-" cost per result null. */
  function ParseRow(row: map<string, Cell>, show: real -> string, parse: string -> real): (r: AdRow)
    ensures "Reporting starts" !in row ==> r.date == ""
    ensures "Ad name" !in row ==> r.adName == ""
    ensures "Platform" !in row ==> r.platform == ""
    ensures "Placement" !in row ==> r.placement == ""
    ensures "Amount spent (DKK)" !in row ==> r.spend == 0.0
    ensures "Reach" !in row ==> r.reach == 0.0
    ensures "Impressions" !in row ==> r.impressions == 0.0
    ensures !Filled(CellAt(row, "Results")) ==> r.results == 0.0
    ensures r.costPerResult.None? <==> !Filled(CellAt(row, "Cost per results"))
  {
    var results := CellAt(row, "Results");
    var cost := CellAt(row, "Cost per results");
    AdRow(
      TextOf(CellAt(row, "Reporting starts"), show),
      TextOf(CellAt(row, "Ad name"), show),
      TextOf(CellAt(row, "Platform"), show),
      TextOf(CellAt(row, "Placement"), show),
      NumberOr0(CellAt(row, "Amount spent (DKK)"), parse),
      NumberOr0(CellAt(row, "Reach"), parse),
      NumberOr0(CellAt(row, "Impressions"), parse),
      if Filled(results) then NumberOr0(results, parse) else 0.0,
      if Filled(cost) then Some(NumberOr0(cost, parse)) else None)
  }

  // ---------------------------------------------------------------------
  // Sums and rates

  /** The four running sums the page keeps per group and overall. */
  datatype Sums = Sums(spend: real, reach: real, impressions: real, results: real)

  const NoSums := Sums(0.0, 0.0, 0.0, 0.0)

  /** Adds one row to the running sums. */
  function AddRow(acc: Sums, row: AdRow): Sums
  {
    Sums(acc.spend + row.spend, acc.reach + row.reach, acc.impressions + row.impressions, acc.results + row.results)
  }

  function Spend(row: AdRow): real { row.spend }
  function Reach(row: AdRow): real { row.reach }
  function Impressions(row: AdRow): real { row.impressions }
  function Results(row: AdRow): real { row.results }

  /** `totalStats`: the reduce over the rows, each field the sum of that field. */
  function TotalStats(rows: seq<AdRow>): (r: Sums)
    ensures r.spend == SumOf(rows, Spend)
    ensures r.reach == SumOf(rows, Reach)
    ensures r.impressions == SumOf(rows, Impressions)
    ensures r.results == SumOf(rows, Results)
  {
    if rows == [] then NoSums else AddRow(TotalStats(rows[..|rows| - 1]), rows[|rows| - 1])
  }

  /** Cost per result: null exactly when there is no positive result count,
      and otherwise the spend shared out over the results. */
  function Cpa(spend: real, results: real): (r: Option<real>)
    ensures r.None? <==> results <= 0.0
    ensures r.Some? ==> r.value * results == spend
  {
    if results > 0.0 then Some(spend / results) else None
  }

  /** Cost per thousand impressions: 0 without impressions, and otherwise
      the spend shared out over the impressions, times 1000. */
  function Cpm(spend: real, impressions: real): (r: real)
    ensures impressions <= 0.0 ==> r == 0.0
    ensures impressions > 0.0 ==> r * impressions == spend * 1000.0
    ensures impressions > 0.0 ==> (r == 0.0 <==> spend == 0.0)
  {
    if impressions > 0.0 then spend / impressions * 1000.0 else 0.0
  }

  // ---------------------------------------------------------------------
  // Grouping by ad, platform and week

  /** `acc` holds, for each group of `g` in order, its key and the sums of its rows. */
  ghost predicate Summed(acc: Entries<string, Sums>, g: Entries<string, seq<AdRow>>)
  {
    |acc| == |g| && forall j :: 0 <= j < |g| ==> acc[j] == (g[j].0, TotalStats(g[j].1))
  }

  /** `if (!acc[k]) acc[k] = { zeros }; acc[k].spend += row.spend; ...` */
  function AddToSums(acc: Entries<string, Sums>, k: string, row: AdRow): Entries<string, Sums>
  {
    match Find(KeysOf(acc), k)
    case Some(j) => acc[j := (k, AddRow(acc[j].1, row))]
    case None => acc + [(k, AddRow(NoSums, row))]
  }

  lemma AddToSumsStep(acc: Entries<string, Sums>, g: Entries<string, seq<AdRow>>, k: string, row: AdRow)
    requires Summed(acc, g)
    ensures Summed(AddToSums(acc, k, row), AddTo(g, k, row))
  {
    assert KeysOf(acc) == KeysOf(g);
    match Find(KeysOf(g), k)
    case Some(j) =>
      assert (g[j].1 + [row])[..|g[j].1|] == g[j].1;
    case None =>
      assert [row][..0] == [];
  }

  /** The grouping `reduce` of the page: one entry per distinct key, in
      first-occurrence order, holding the sums of the rows with that key. */
  method SumByKey(rows: seq<AdRow>, keyOf: AdRow -> string) returns (acc: Entries<string, Sums>)
    ensures Summed(acc, GroupBy(rows, keyOf))
  {
    acc := [];
    var i := 0;
    while i < |rows|
      invariant i <= |rows|
      invariant Summed(acc, GroupBy(rows[..i], keyOf))
    {
      GroupByStep(rows, i, keyOf);
      AddToSumsStep(acc, GroupBy(rows[..i], keyOf), keyOf(rows[i]), rows[i]);
      acc := AddToSums(acc, keyOf(rows[i]), rows[i]);
      i := i + 1;
    }
    assert rows[..|rows|] == rows;
  }

  /** The rows whose key is `k`. */
  ghost function RowsWith(rows: seq<AdRow>, keyOf: AdRow -> string, k: string): seq<AdRow>
  {
    Filter(rows, KeyIs(keyOf, k))
  }


  /** What a summed grouping says about each entry: its key is one of the
      distinct keys, in first-occurrence order, and it holds the sums of the
      rows with that key. */
  lemma SummedEntries(acc: Entries<string, Sums>, rows: seq<AdRow>, keyOf: AdRow -> string)
    requires Summed(acc, GroupBy(rows, keyOf))
    ensures KeysOf(acc) == Dedup(MapSeq(rows, keyOf))
    ensures forall j :: 0 <= j < |acc| ==> acc[j].1 == TotalStats(RowsWith(rows, keyOf, acc[j].0))
  {
    var g := GroupBy(rows, keyOf);
    GroupByKeys(rows, keyOf);
    GroupByFilter(rows, keyOf);
    assert KeysOf(acc) == KeysOf(g);
  }

  /** A row of the per-ad or per-platform table. */
  datatype AdStats = AdStats(
    name: string,
    spend: real,
    reach: real,
    impressions: real,
    results: real,
    cpa: Option<real>,
    cpm: real)

  /** The `.map` after the grouping: the sums with CPA and CPM attached. */
  function StatsOf(name: string, s: Sums): AdStats
  {
    AdStats(name, s.spend, s.reach, s.impressions, s.results, Cpa(s.spend, s.results), Cpm(s.spend, s.impressions))
  }

  function AdSpend(a: AdStats): real { a.spend }
  function AdReach(a: AdStats): real { a.reach }
  function AdImpressions(a: AdStats): real { a.impressions }
  function AdResults(a: AdStats): real { a.results }

  /** One entry per distinct key, in first-occurrence order, each holding
      the sums of the rows with that key and the CPA and CPM of those sums. */
  ghost predicate StatsFor(stats: seq<AdStats>, rows: seq<AdRow>, keyOf: AdRow -> string)
  {
    var keys := Dedup(MapSeq(rows, keyOf));
    |stats| == |keys| &&
    forall j :: 0 <= j < |stats| ==> stats[j] == StatsOf(keys[j], TotalStats(RowsWith(rows, keyOf, keys[j])))
  }

  /** A field summed over the entries is that field summed over all rows. */
  lemma StatsFieldAddsUp(stats: seq<AdStats>, rows: seq<AdRow>, keyOf: AdRow -> string,
    f: AdStats -> real, w: AdRow -> real)
    requires StatsFor(stats, rows, keyOf)
    requires forall k, rs :: f(StatsOf(k, TotalStats(rs))) == SumOf(rs, w)
    ensures SumOf(stats, f) == SumOf(rows, w)
  {
    var g := GroupBy(rows, keyOf);
    GroupByKeys(rows, keyOf);
    GroupByFilter(rows, keyOf);
    forall j | 0 <= j < |g| ensures SumBy(w)(g[j].1) == f(stats[j]) {
      assert g[j].0 == KeysOf(g)[j];
    }
    SumValuesAsList(g, SumBy(w), stats, f);
    GroupBySum(rows, keyOf, w);
  }

  /** The entries add back up to the totals, field by field. */
  lemma StatsAddUp(stats: seq<AdStats>, rows: seq<AdRow>, keyOf: AdRow -> string)
    requires StatsFor(stats, rows, keyOf)
    ensures SumOf(stats, AdSpend) == TotalStats(rows).spend
    ensures SumOf(stats, AdReach) == TotalStats(rows).reach
    ensures SumOf(stats, AdImpressions) == TotalStats(rows).impressions
    ensures SumOf(stats, AdResults) == TotalStats(rows).results
  {
    StatsFieldAddsUp(stats, rows, keyOf, AdSpend, Spend);
    StatsFieldAddsUp(stats, rows, keyOf, AdReach, Reach);
    StatsFieldAddsUp(stats, rows, keyOf, AdImpressions, Impressions);
    StatsFieldAddsUp(stats, rows, keyOf, AdResults, Results);
  }

  /** `adStats` (key: ad name) and `platformStats` (key: platform). */
  method StatsBy(rows: seq<AdRow>, keyOf: AdRow -> string) returns (stats: seq<AdStats>)
    ensures StatsFor(stats, rows, keyOf)
  {
    var acc := SumByKey(rows, keyOf);
    SummedEntries(acc, rows, keyOf);
    stats := seq(|acc|, j requires 0 <= j < |acc| => StatsOf(acc[j].0, acc[j].1));
    assert forall j :: 0 <= j < |acc| ==> KeysOf(acc)[j] == acc[j].0;
  }

  /** `row.adName` */
  function AdName(row: AdRow): string { row.adName }

  /** `row.platform` */
  function Platform(row: AdRow): string { row.platform }

  /** The week key of a row, computed from its date by `weekOf` (the
      Sunday starting its week, as "yyyy-MM-dd"). */
  function WeekKey(weekOf: string -> string): AdRow -> string
  {
    (row: AdRow) => weekOf(row.date)
  }

  /** A point of the weekly series. */
  datatype WeekStats = WeekStats(
    week: string,
    spend: real,
    results: real,
    cpa: Option<real>,
    cpm: real,
    impressions: real)

  function WeekOf(week: string, s: Sums): WeekStats
  {
    WeekStats(week, s.spend, s.results, Cpa(s.spend, s.results), Cpm(s.spend, s.impressions), s.impressions)
  }

  /** `(a, b) => a.week.localeCompare(b.week)`: week keys in ascending order. */
  function WeekBefore(a: WeekStats, b: WeekStats): bool
  {
    StrLess(a.week, b.week)
  }

  lemma WeekBeforeOrder()
    ensures StrictWeakOrder(WeekBefore)
  {
    forall a: WeekStats, b: WeekStats | WeekBefore(a, b) ensures !WeekBefore(b, a) {
      StrLessAsymmetric(a.week, b.week);
    }
    forall a: WeekStats, b: WeekStats, c: WeekStats | !WeekBefore(a, b) && !WeekBefore(b, c)
      ensures !WeekBefore(a, c)
    {
      StrNotLessTransitive(a.week, b.week, c.week);
    }
  }

  /** The weekly points before sorting: one per distinct week key, in
      first-occurrence order, each from the rows of that week. */
  ghost function WeeksIn(rows: seq<AdRow>, weekOf: string -> string): (r: seq<WeekStats>)
    ensures |r| == |Dedup(MapSeq(rows, WeekKey(weekOf)))|
  {
    var keys := Dedup(MapSeq(rows, WeekKey(weekOf)));
    seq(|keys|, j requires 0 <= j < |keys| =>
      WeekOf(keys[j], TotalStats(RowsWith(rows, WeekKey(weekOf), keys[j]))))
  }

  /** `weeklyData`: the weekly points, a permutation of one point per
      distinct week key, sorted by week key ascending. */
  method WeeklyData(rows: seq<AdRow>, weekOf: string -> string) returns (weeks: seq<WeekStats>)
    ensures multiset(weeks) == multiset(WeeksIn(rows, weekOf))
    ensures forall i, j :: 0 <= i < j < |weeks| ==> !StrLess(weeks[j].week, weeks[i].week)
  {
    var acc := SumByKey(rows, WeekKey(weekOf));
    SummedEntries(acc, rows, WeekKey(weekOf));
    var points := seq(|acc|, j requires 0 <= j < |acc| => WeekOf(acc[j].0, acc[j].1));
    assert points == WeeksIn(rows, weekOf) by {
      forall j | 0 <= j < |acc| ensures KeysOf(acc)[j] == acc[j].0 { }
    }
    weeks := SortBy(points, WeekBefore);
    WeekBeforeOrder();
    SortBySorted(points, WeekBefore);
  }

  /** The week keys of the unsorted points are pairwise distinct. */
  lemma WeeksInDistinct(rows: seq<AdRow>, weekOf: string -> string)
    ensures forall i, j :: 0 <= i < j < |WeeksIn(rows, weekOf)| ==>
      WeeksIn(rows, weekOf)[i].week != WeeksIn(rows, weekOf)[j].week
  {
    var keys := Dedup(MapSeq(rows, WeekKey(weekOf)));
    assert forall j :: 0 <= j < |keys| ==> WeeksIn(rows, weekOf)[j].week == keys[j];
  }

  // ---------------------------------------------------------------------
  // Best week

  /** The starting value of the `bestWeek` reduce. */
  const Placeholder := WeekStats("", 0.0, 0.0, None, 0.0, 0.0)

  /** One step of the `bestWeek` reduce: a week with a CPA replaces the best
      so far when that has none or a strictly higher one. */
  function Better(best: WeekStats, week: WeekStats): WeekStats
  {
    if week.cpa.Some? && (best.cpa.None? || week.cpa.value < best.cpa.value) then week else best
  }

  /** `bestWeek`: one of the weeks, or the placeholder it starts from. */
  function BestWeek(weeks: seq<WeekStats>): (r: WeekStats)
    ensures r == Placeholder || r in weeks
  {
    if weeks == [] then Placeholder else Better(BestWeek(weeks[..|weeks| - 1]), weeks[|weeks| - 1])
  }

  /** `weeks[k]` is the best week, and every earlier week with a CPA has a higher one. */
  ghost predicate EarliestBestAt(weeks: seq<WeekStats>, k: int)
  {
    && 0 <= k < |weeks| && weeks[k] == BestWeek(weeks) && weeks[k].cpa.Some?
    && forall i :: 0 <= i < k && weeks[i].cpa.Some? ==> weeks[i].cpa.value > weeks[k].cpa.value
  }

  /** The best week is the placeholder exactly when no week has a CPA;
      otherwise it is the earliest week with the least CPA. */
  lemma {:induction false} BestWeekIsEarliestMinimum(weeks: seq<WeekStats>)
    ensures BestWeek(weeks).cpa.None? <==> forall i :: 0 <= i < |weeks| ==> weeks[i].cpa.None?
    ensures BestWeek(weeks).cpa.None? ==> BestWeek(weeks) == Placeholder
    ensures forall i :: 0 <= i < |weeks| && weeks[i].cpa.Some? ==>
      BestWeek(weeks).cpa.Some? && BestWeek(weeks).cpa.value <= weeks[i].cpa.value
    ensures BestWeek(weeks).cpa.Some? ==> exists k :: EarliestBestAt(weeks, k)
    decreases |weeks|
  {
    if weeks != [] {
      var n := |weeks| - 1;
      var init := weeks[..n];
      BestWeekIsEarliestMinimum(init);
      var prev := BestWeek(init);
      var r := BestWeek(weeks);
      assert forall i :: 0 <= i < n ==> init[i] == weeks[i];
      if weeks[n].cpa.Some? && (prev.cpa.None? || weeks[n].cpa.value < prev.cpa.value) {
        assert r == weeks[n];
        assert EarliestBestAt(weeks, n);
      } else {
        assert r == prev;
        if r.cpa.Some? {
          var k :| EarliestBestAt(init, k);
          assert EarliestBestAt(weeks, k);
        }
      }
    }
  }

  // ---------------------------------------------------------------------
  // Alerts

  datatype Level = Danger | Warning

  /** The alerts the page raises; their Danish titles and messages are
      presentation and left out. `cpmChange` is None for the infinite rise
      JavaScript computes when last week's CPM was 0. */
  datatype Alert =
    | CpaAlert(level: Level, change: real)
    | CpmAlert(cpmChange: Option<real>)
    | ConversionAlert(level: Level, change: real)
    | StopAlert(adName: string, wasted: real)

  /** `weeklyData[weeklyData.length - 1]`, undefined for an empty series. */
  function CurrentWeek(weeks: seq<WeekStats>): Option<WeekStats>
  {
    if |weeks| >= 1 then Some(weeks[|weeks| - 1]) else None
  }

  /** `weeklyData[weeklyData.length - 2]`, undefined for fewer than two weeks. */
  function PreviousWeek(weeks: seq<WeekStats>): Option<WeekStats>
  {
    if |weeks| >= 2 then Some(weeks[|weeks| - 2]) else None
  }

  /** A CPA that is present and non-zero (JavaScript truthiness of `number | null`). */
  predicate TruthyCpa(c: Option<real>)
  {
    c.Some? && c.value != 0.0
  }

  /** Multiplying by a positive number keeps the order. */
  lemma ScaleOrder(x: real, y: real, b: real)
    ensures b > 0.0 ==> (x < y <==> x * b < y * b)
  {
    if b <= 0.0 {
    } else if x < y {
      assert (y - x) * b > 0.0;
    } else {
      assert (x - y) * b >= 0.0;
    }
  }

  /** A percentage change from a positive `b` to `cur` lies above (below) `t`
      exactly when `cur` lies above (below) `b` scaled by `100 + t` percent. */
  lemma Threshold(change: real, cur: real, b: real, t: real)
    requires b > 0.0 && change * b == (cur - b) * 100.0
    ensures change > t <==> 100.0 * cur > (100.0 + t) * b
    ensures change < t <==> 100.0 * cur < (100.0 + t) * b
  {
    assert (cur - b) * 100.0 == 100.0 * cur - 100.0 * b;
    assert (100.0 + t) * b == 100.0 * b + t * b;
    ScaleOrder(t, change, b);
    ScaleOrder(change, t, b);
  }

  /** The CPA thresholds: more than double, and more than one and a half times. */
  lemma CpaThresholds(change: real, cur: real, b: real)
    ensures b > 0.0 && change * b == (cur - b) * 100.0 ==>
      (change > 100.0 <==> cur > 2.0 * b) && (change > 50.0 <==> cur > 1.5 * b)
  {
    if b > 0.0 && change * b == (cur - b) * 100.0 {
      Threshold(change, cur, b, 100.0);
      Threshold(change, cur, b, 50.0);
    }
  }

  /** The CPM threshold: a rise of more than 30%. */
  lemma CpmThreshold(change: real, cur: real, b: real)
    ensures b > 0.0 && change * b == (cur - b) * 100.0 ==> (change > 30.0 <==> cur > 1.3 * b)
  {
    if b > 0.0 && change * b == (cur - b) * 100.0 {
      Threshold(change, cur, b, 30.0);
    }
  }

  /** The conversion thresholds: below half, and below three quarters. */
  lemma ConversionThresholds(change: real, cur: real, p: real)
    ensures p > 0.0 && change * p == (cur - p) * 100.0 ==>
      (change < -50.0 <==> cur < 0.5 * p) && (change < -25.0 <==> cur < 0.75 * p)
  {
    if p > 0.0 && change * p == (cur - p) * 100.0 {
      Threshold(change, cur, p, -50.0);
      Threshold(change, cur, p, -25.0);
    }
  }

  /** `((to - from) / from) * 100` */
  function Change(from: real, to: real): (r: real)
    requires from != 0.0
    ensures r * from == (to - from) * 100.0
  {
    (to - from) / from * 100.0
  }

  /** The CPA alert against the best week: raised only when both CPAs are
      truthy; for a positive best CPA it is "danger" exactly when the current
      CPA is more than double the best, and "warning" exactly when it is more
      than one and a half times the best but at most double. */
  function CpaAlertFor(current: Option<WeekStats>, best: WeekStats): (r: Option<Alert>)
    ensures r.Some? ==> current.Some? && TruthyCpa(best.cpa) && TruthyCpa(current.value.cpa) && r.value.CpaAlert?
    ensures r.Some? ==> r.value.change * best.cpa.value == (current.value.cpa.value - best.cpa.value) * 100.0
    ensures current.Some? && TruthyCpa(best.cpa) && TruthyCpa(current.value.cpa) && best.cpa.value > 0.0 ==>
      var cur, b := current.value.cpa.value, best.cpa.value;
      && (r.Some? && r.value.level == Danger <==> cur > 2.0 * b)
      && (r.Some? && r.value.level == Warning <==> 1.5 * b < cur <= 2.0 * b)
  {
    if current.Some? && TruthyCpa(best.cpa) && TruthyCpa(current.value.cpa) then
      var b := best.cpa.value;
      var change := Change(b, current.value.cpa.value);
      CpaThresholds(change, current.value.cpa.value, b);
      if change > 100.0 then Some(CpaAlert(Danger, change))
      else if change > 50.0 then Some(CpaAlert(Warning, change))
      else None
    else None
  }

  /** The CPM alert against the previous week. The source divides by the
      previous CPM unguarded: for a positive previous CPM the alert is raised
      exactly when the CPM rose by more than 30%; for a previous CPM of 0 the
      change is infinite (raised, for a positive current CPM) or NaN (not
      raised, for a current CPM of 0). */
  function CpmAlertFor(current: Option<WeekStats>, previous: Option<WeekStats>): (r: Option<Alert>)
    ensures r.Some? ==> current.Some? && previous.Some? && r.value.CpmAlert?
    ensures current.Some? && previous.Some? && previous.value.cpm > 0.0 ==>
      (r.Some? <==> current.value.cpm > 1.3 * previous.value.cpm)
    ensures current.Some? && previous.Some? && previous.value.cpm == 0.0 ==>
      (r.Some? <==> current.value.cpm > 0.0) && (r.Some? ==> r.value.cpmChange.None?)
  {
    if current.Some? && previous.Some? then
      var cur, prev := current.value.cpm, previous.value.cpm;
      if prev == 0.0 then
        if cur > 0.0 then Some(CpmAlert(None)) else None
      else
        var change := Change(prev, cur);
        CpmThreshold(change, cur, prev);
        if change > 30.0 then Some(CpmAlert(Some(change))) else None
    else None
  }

  /** The conversion alert against the previous week, raised only when that
      week had results: "danger" exactly when the results fell below half,
      "warning" exactly when they fell to at least half but below three
      quarters. */
  function ConversionAlertFor(current: Option<WeekStats>, previous: Option<WeekStats>): (r: Option<Alert>)
    ensures r.Some? ==> current.Some? && previous.Some? && previous.value.results > 0.0 && r.value.ConversionAlert?
    ensures current.Some? && previous.Some? && previous.value.results > 0.0 ==>
      var cur, prev := current.value.results, previous.value.results;
      && (r.Some? && r.value.level == Danger <==> cur < 0.5 * prev)
      && (r.Some? && r.value.level == Warning <==> 0.5 * prev <= cur < 0.75 * prev)
  {
    if current.Some? && previous.Some? && previous.value.results > 0.0 then
      var p := previous.value.results;
      var change := Change(p, current.value.results);
      ConversionThresholds(change, current.value.results, p);
      if change < -50.0 then Some(ConversionAlert(Danger, change))
      else if change < -25.0 then Some(ConversionAlert(Warning, change))
      else None
    else None
  }

  /** An ad that spent more than 300 kroner without a single result. */
  predicate Wasted(ad: AdStats)
  {
    ad.spend > 300.0 && ad.results == 0.0
  }

  function StopAlertOf(ad: AdStats): Alert
  {
    StopAlert(ad.name, ad.spend)
  }

  function AsList<T>(o: Option<T>): (r: seq<T>)
    ensures |r| <= 1
  {
    if o.Some? then [o.value] else []
  }

  /** The alert list: at most one CPA alert, one CPM alert and one
      conversion alert, in that order, then one "Stop" alert per wasted ad,
      in the order of the ads. */
  method GenerateAlerts(weeks: seq<WeekStats>, ads: seq<AdStats>) returns (alerts: seq<Alert>)
    ensures alerts == AsList(CpaAlertFor(CurrentWeek(weeks), BestWeek(weeks)))
      + AsList(CpmAlertFor(CurrentWeek(weeks), PreviousWeek(weeks)))
      + AsList(ConversionAlertFor(CurrentWeek(weeks), PreviousWeek(weeks)))
      + MapSeq(Filter(ads, Wasted), StopAlertOf)
  {
    var current := CurrentWeek(weeks);
    var previous := PreviousWeek(weeks);
    alerts := [];
    var cpa := CpaAlertFor(current, BestWeek(weeks));
    if cpa.Some? {
      alerts := alerts + [cpa.value];
    }
    assert alerts == AsList(cpa);
    var cpm := CpmAlertFor(current, previous);
    if cpm.Some? {
      alerts := alerts + [cpm.value];
    }
    assert alerts == AsList(cpa) + AsList(cpm);
    var conversion := ConversionAlertFor(current, previous);
    if conversion.Some? {
      alerts := alerts + [conversion.value];
    }
    assert alerts == AsList(cpa) + AsList(cpm) + AsList(conversion);
    var stops := StopAlerts(ads);
    alerts := alerts + stops;
  }

  /** `adStats.forEach(ad => { if (wasted) alerts.push(stop alert) })`: one
      "Stop" alert per wasted ad, in the order of the ads. */
  method StopAlerts(ads: seq<AdStats>) returns (alerts: seq<Alert>)
    ensures alerts == MapSeq(Filter(ads, Wasted), StopAlertOf)
  {
    alerts := [];
    var i := 0;
    while i < |ads|
      invariant i <= |ads|
      invariant alerts == MapSeq(Filter(ads[..i], Wasted), StopAlertOf)
    {
      FilterStep(ads, i, Wasted);
      if Wasted(ads[i]) {
        assert MapSeq(Filter(ads[..i], Wasted) + [ads[i]], StopAlertOf)
          == MapSeq(Filter(ads[..i], Wasted), StopAlertOf) + [StopAlertOf(ads[i])];
        alerts := alerts + [StopAlertOf(ads[i])];
      } else {
        assert Filter(ads[..i], Wasted) + [] == Filter(ads[..i], Wasted);
      }
      i := i + 1;
    }
    assert ads[..|ads|] == ads;
  }

  // ---------------------------------------------------------------------
  // The per-ad table

  datatype AdStatus = StopAd | TopAd | OkAd

  /** The status column: STOP for a wasted ad, TOP for a truthy CPA under
      100 kroner, OK otherwise. */
  function StatusOf(ad: AdStats): (r: AdStatus)
    ensures r == StopAd <==> Wasted(ad)
    ensures r == TopAd <==> !Wasted(ad) && TruthyCpa(ad.cpa) && ad.cpa.value < 100.0
    ensures r == OkAd <==> !Wasted(ad) && !(TruthyCpa(ad.cpa) && ad.cpa.value < 100.0)
  {
    if ad.results == 0.0 && ad.spend > 300.0 then StopAd
    else if TruthyCpa(ad.cpa) && ad.cpa.value < 100.0 then TopAd
    else OkAd
  }

  lemma StopAdAlerted(ads: seq<AdStats>, i: nat)
    requires i < |ads| && StatusOf(ads[i]) == StopAd
    ensures StopAlertOf(ads[i]) in MapSeq(Filter(ads, Wasted), StopAlertOf)
  {
    var kept := Filter(ads, Wasted);
    assert ads[i] in kept;
    var k :| 0 <= k < |kept| && kept[k] == ads[i];
    assert MapSeq(kept, StopAlertOf)[k] == StopAlertOf(ads[i]);
  }

  lemma AlertedIsStopAd(ads: seq<AdStats>, k: nat)
    requires k < |Filter(ads, Wasted)|
    ensures exists i :: 0 <= i < |ads| && ads[i].name == Filter(ads, Wasted)[k].name && StatusOf(ads[i]) == StopAd
  {
    var ad := Filter(ads, Wasted)[k];
    assert ad in ads && Wasted(ad);
    var i :| 0 <= i < |ads| && ads[i] == ad;
  }

  /** An ad shown as STOP has its "Stop" alert, and every "Stop" alert names
      an ad shown as STOP. */
  lemma StopStatusMatchesAlerts(ads: seq<AdStats>)
    ensures forall i :: 0 <= i < |ads| && StatusOf(ads[i]) == StopAd ==>
      StopAlertOf(ads[i]) in MapSeq(Filter(ads, Wasted), StopAlertOf)
    ensures forall a :: a in MapSeq(Filter(ads, Wasted), StopAlertOf) ==>
      exists i :: 0 <= i < |ads| && ads[i].name == a.adName && StatusOf(ads[i]) == StopAd
  {
    forall i | 0 <= i < |ads| && StatusOf(ads[i]) == StopAd
      ensures StopAlertOf(ads[i]) in MapSeq(Filter(ads, Wasted), StopAlertOf)
    {
      StopAdAlerted(ads, i);
    }
    forall a | a in MapSeq(Filter(ads, Wasted), StopAlertOf)
      ensures exists i :: 0 <= i < |ads| && ads[i].name == a.adName && StatusOf(ads[i]) == StopAd
    {
      var kept := Filter(ads, Wasted);
      var k :| 0 <= k < |kept| && MapSeq(kept, StopAlertOf)[k] == a;
      AlertedIsStopAd(ads, k);
    }
  }

  /** `(ad.cpa || 999999)`: the sort key of the per-ad table. */
  function SortCpa(ad: AdStats): real
  {
    if TruthyCpa(ad.cpa) then ad.cpa.value else 999999.0
  }

  function CheaperFirst(a: AdStats, b: AdStats): bool
  {
    SortCpa(a) < SortCpa(b)
  }

  lemma CheaperFirstOrder()
    ensures StrictWeakOrder(CheaperFirst)
  {
  }

  /** `adStats.sort((a, b) => (a.cpa || 999999) - (b.cpa || 999999))`: the
      same ads, by CPA ascending, ads without a truthy CPA ranked as 999999. */
  function SortedAds(ads: seq<AdStats>): (r: seq<AdStats>)
    ensures multiset(r) == multiset(ads)
    ensures forall i, j :: 0 <= i < j < |r| ==> SortCpa(r[i]) <= SortCpa(r[j])
  {
    CheaperFirstOrder();
    SortBySorted(ads, CheaperFirst);
    SortBy(ads, CheaperFirst)
  }
}
