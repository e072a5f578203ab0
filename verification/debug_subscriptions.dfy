/** The subscription diagnostics route: every subscription (at most 50 pages),
    counted by status and by mode, the dashboard's own notion of an active
    member split into paying and trial, distinct customers, each paying
    subscription's first item normalised to a monthly amount and summed per
    customer, and those customer totals put in price buckets. */
module DebugSubscriptions {
  import opened Wrappers
  import opened Seqs
  import opened Paging
  import opened Billing
  import opened Groups

  /** `while (hasMore && pageCount < 50)` */
  const MaxPages: nat := 50

  /** The route never reads more than 50 pages. */
  lemma AtMostFiftyPages<T>(pages: seq<Page<T>>)
    ensures PagesFetched(pages, PageLimit(MaxPages)) <= 50
  {
    PageCapBound(pages, MaxPages);
  }

  function StatusOf(sub: Subscription): Status
  {
    sub.status
  }

  /** `statusCount`: per status, in order of first appearance, the number of
      subscriptions with it; the counts add up to the number fetched. */
  method StatusCounts(subs: seq<Subscription>) returns (counts: Entries<Status, nat>)
    ensures Tallies(counts, GroupBy(subs, StatusOf))
    ensures CountValues(counts, n => n) == |subs|
  {
    counts := Tally(subs, StatusOf);
    TallySum(counts, subs, StatusOf);
  }

  function IsTestMode(sub: Subscription): bool { !sub.livemode }
  function IsLiveMode(sub: Subscription): bool { sub.livemode }
  function Always(sub: Subscription): bool { true }

  /** `testModeCount + liveModeCount` is the number fetched. */
  lemma ModeCountsSum(subs: seq<Subscription>)
    ensures |Filter(subs, IsTestMode)| + |Filter(subs, IsLiveMode)| == |subs|
  {
    FilterSplit(subs, IsTestMode, IsLiveMode, Always);
    FilterKeepsAll(subs, Always);
  }

  /** `ourActive`: trialing, or active without a scheduled cancellation. */
  predicate IsOurActive(sub: Subscription)
  {
    sub.status == Trialing || (sub.status == Active && !sub.cancelAtPeriodEnd)
  }

  function OurActive(subs: seq<Subscription>): seq<Subscription>
  {
    Filter(subs, IsOurActive)
  }

  function IsPaying(sub: Subscription): bool { sub.status == Active }
  function IsActiveKept(sub: Subscription): bool { sub.status == Active && !sub.cancelAtPeriodEnd }
  function IsTrial(sub: Subscription): bool { sub.status == Trialing }

  function OurPaying(subs: seq<Subscription>): seq<Subscription>
  {
    Filter(OurActive(subs), IsPaying)
  }

  function OurTrials(subs: seq<Subscription>): seq<Subscription>
  {
    Filter(OurActive(subs), IsTrial)
  }

  function FlipMode(sub: Subscription): Subscription
  {
    sub.(livemode := !sub.livemode)
  }

  /** Whether a subscription counts as active does not depend on its mode:
      flipping the mode of any subscriptions leaves the count unchanged. */
  lemma {:induction false} OurActiveIgnoresMode(subs: seq<Subscription>, flipped: seq<Subscription>)
    requires |flipped| == |subs|
    requires forall i :: 0 <= i < |subs| ==> flipped[i] == subs[i] || flipped[i] == FlipMode(subs[i])
    ensures |OurActive(flipped)| == |OurActive(subs)|
    decreases |subs|
  {
    if subs != [] {
      var n := |subs| - 1;
      OurActiveIgnoresMode(subs[..n], flipped[..n]);
      assert subs[..n] + [subs[n]] == subs;
      assert flipped[..n] + [flipped[n]] == flipped;
      FilterAppend(subs[..n], [subs[n]], IsOurActive);
      FilterAppend(flipped[..n], [flipped[n]], IsOurActive);
    }
  }

  /** Paying members are exactly the active subscriptions without a scheduled
      cancellation, trial members exactly the trialing ones, and the two
      split the counted-active set. */
  lemma PayingTrialsPartition(subs: seq<Subscription>)
    ensures OurPaying(subs) == Filter(subs, IsActiveKept)
    ensures OurTrials(subs) == Filter(subs, IsTrial)
    ensures |OurPaying(subs)| + |OurTrials(subs)| == |OurActive(subs)|
  {
    var active := OurActive(subs);
    FilterFilter(subs, IsOurActive, IsPaying, IsActiveKept);
    FilterFilter(subs, IsOurActive, IsTrial, IsTrial);
    var either := (s: Subscription) => IsPaying(s) || IsTrial(s);
    FilterSplit(active, IsPaying, IsTrial, either);
    FilterKeepsAll(active, either);
  }

  function CustomerOf(sub: Subscription): string
  {
    CustomerIdOf(sub.customer)
  }

  /** `new Set(subs.map(customer id))`: no larger than the set of subscriptions. */
  function UniqueCustomers(subs: seq<Subscription>): (r: set<string>)
    ensures |r| <= |subs|
    ensures forall c :: c in r <==> exists i :: 0 <= i < |subs| && CustomerOf(subs[i]) == c
  {
    Distinct(subs, CustomerOf)
  }

  /** The paying and the trial customers together are the counted-active customers. */
  lemma UniqueCustomersSplit(subs: seq<Subscription>)
    ensures UniqueCustomers(OurPaying(subs)) + UniqueCustomers(OurTrials(subs)) == UniqueCustomers(OurActive(subs))
  {
    var active := OurActive(subs);
    forall c | c in UniqueCustomers(active)
      ensures c in UniqueCustomers(OurPaying(subs)) + UniqueCustomers(OurTrials(subs))
    {
      var i :| 0 <= i < |active| && CustomerOf(active[i]) == c;
      if IsPaying(active[i]) {
        CustomerKept(active, IsPaying, i);
      } else {
        assert IsOurActive(active[i]);
        CustomerKept(active, IsTrial, i);
      }
    }
    forall c | c in UniqueCustomers(OurPaying(subs)) + UniqueCustomers(OurTrials(subs))
      ensures c in UniqueCustomers(active)
    {
      if c in UniqueCustomers(OurPaying(subs)) {
        CustomerFromPart(active, IsPaying, c);
      } else {
        CustomerFromPart(active, IsTrial, c);
      }
    }
  }

  lemma CustomerKept(s: seq<Subscription>, p: Subscription -> bool, i: nat)
    requires i < |s| && p(s[i])
    ensures CustomerOf(s[i]) in UniqueCustomers(Filter(s, p))
  {
    var f := Filter(s, p);
    assert s[i] in f;
    var k :| 0 <= k < |f| && f[k] == s[i];
    assert CustomerOf(f[k]) == CustomerOf(s[i]);
  }

  lemma CustomerFromPart(s: seq<Subscription>, p: Subscription -> bool, c: string)
    requires c in UniqueCustomers(Filter(s, p))
    ensures c in UniqueCustomers(s)
  {
    var f := Filter(s, p);
    var i :| 0 <= i < |f| && CustomerOf(f[i]) == c;
    assert f[i] in s;
    var k :| 0 <= k < |s| && s[k] == f[i];
    assert CustomerOf(s[k]) == c;
  }

  /** `recurring?.interval_count || 1` */
  function IntervalCountOf(p: Price): int
  {
    if p.recurring.None? || p.recurring.value.intervalCount == 0 then 1 else p.recurring.value.intervalCount
  }

  /** The monthly normalisation of one item: nothing without a price or with
      a null or zero unit amount; otherwise the amount in kroner, spread over
      12 months for a yearly price and over `n` months for a price billed
      every `n > 1` months, and as is for anything else. */
  function MonthlyAmount(item: Item): (r: Option<real>)
    ensures r.Some? <==> item.price.Some? && Truthy(item.price.value.unitAmount)
    ensures r.Some? ==>
      var p := item.price.value;
      var amount := (p.unitAmount.value as real) / 100.0;
      && (IntervalOf(p) == Year ==> r.value * 12.0 == amount)
      && (IntervalOf(p) == Month && IntervalCountOf(p) > 1 ==> r.value * (IntervalCountOf(p) as real) == amount)
      && (IntervalOf(p) != Year && !(IntervalOf(p) == Month && IntervalCountOf(p) > 1) ==> r.value == amount)
  {
    if item.price.None? || !Truthy(item.price.value.unitAmount) then None
    else
      var p := item.price.value;
      var amount := (p.unitAmount.value as real) / 100.0;
      var interval := IntervalOf(p);
      var intervalCount := IntervalCountOf(p);
      if interval == Year then Some(amount / 12.0)
      else if interval == Month && intervalCount == 6 then Some(amount / 6.0)
      else if interval == Month && intervalCount > 1 then Some(amount / (intervalCount as real))
      else Some(amount)
  }

  /** Only the first item of a subscription is read. */
  function SubscriptionMonthly(sub: Subscription): Option<real>
  {
    if |sub.items| > 0 then MonthlyAmount(sub.items[0]) else None
  }

  function HasMonthly(sub: Subscription): bool
  {
    SubscriptionMonthly(sub).Some?
  }

  function Monthly(sub: Subscription): real
  {
    if HasMonthly(sub) then SubscriptionMonthly(sub).value else 0.0
  }

  /** The paying subscriptions that contribute to the MRR. */
  function Tracked(paying: seq<Subscription>): seq<Subscription>
  {
    Filter(paying, HasMonthly)
  }

  /** The `ourPaying.forEach` that adds each contributing subscription's
      monthly amount to `actualTotalMRR` and to its customer's entry of
      `customerMRR`: per customer, in order of first appearance, the sum over
      that customer's contributing subscriptions, and a total that is the sum
      of the customer entries. */
  method CustomerMrr(paying: seq<Subscription>) returns (customerMrr: Entries<string, real>, total: real)
    ensures Totals(customerMrr, GroupBy(Tracked(paying), CustomerOf), Monthly)
    ensures total == SumOf(Tracked(paying), Monthly)
    ensures SumValues(customerMrr, x => x) == total
  {
    customerMrr := [];
    total := 0.0;
    var i := 0;
    while i < |paying|
      invariant i <= |paying|
      invariant Totals(customerMrr, GroupBy(Tracked(paying[..i]), CustomerOf), Monthly)
      invariant total == SumOf(Tracked(paying[..i]), Monthly)
    {
      var sub := paying[i];
      TrackedStep(paying, i, customerMrr);
      if HasMonthly(sub) {
        var m := Monthly(sub);
        total := total + m;
        customerMrr := AddAmount(customerMrr, CustomerOf(sub), m);
      }
      i := i + 1;
    }
    assert paying[..|paying|] == paying;
    TotalSum(customerMrr, Tracked(paying), CustomerOf, Monthly);
  }

  lemma TrackedStep(paying: seq<Subscription>, i: nat, customerMrr: Entries<string, real>)
    requires i < |paying|
    requires Totals(customerMrr, GroupBy(Tracked(paying[..i]), CustomerOf), Monthly)
    ensures var sub := paying[i];
      if HasMonthly(sub) then
        && Totals(AddAmount(customerMrr, CustomerOf(sub), Monthly(sub)), GroupBy(Tracked(paying[..i + 1]), CustomerOf), Monthly)
        && SumOf(Tracked(paying[..i + 1]), Monthly) == SumOf(Tracked(paying[..i]), Monthly) + Monthly(sub)
      else Tracked(paying[..i + 1]) == Tracked(paying[..i])
  {
    var sub := paying[i];
    FilterStep(paying, i, HasMonthly);
    if HasMonthly(sub) {
      var tracked := Tracked(paying[..i]);
      AddAmountTotals(customerMrr, GroupBy(tracked, CustomerOf), CustomerOf(sub), sub, Monthly);
      assert (tracked + [sub])[..|tracked|] == tracked;
      GroupByStep(tracked + [sub], |tracked|, CustomerOf);
      assert (tracked + [sub])[..|tracked| + 1] == tracked + [sub];
      SumOfAppend(tracked, [sub], Monthly);
    }
  }

  datatype Bucket = Zero | Under100 | From100To149 | At149 | From150To500 | Over500

  /** The bucket a customer's MRR lands in, testing zero, under 100,
      [100, 149), within 1 of 149, (149, 500] and the rest in that order.
      As the tests are ordered, "within 1 of 149" catches [149, 150) and the
      (149, 500] test only sees [150, 500]. */
  function BucketOf(mrr: real): (b: Bucket)
    ensures b == Zero <==> mrr == 0.0
    ensures b == Under100 <==> mrr != 0.0 && mrr < 100.0
    ensures b == From100To149 <==> 100.0 <= mrr < 149.0
    ensures b == At149 <==> 149.0 <= mrr < 150.0
    ensures b == From150To500 <==> 150.0 <= mrr <= 500.0
    ensures b == Over500 <==> mrr > 500.0
  {
    if mrr == 0.0 then Zero
    else if mrr < 100.0 then Under100
    else if mrr >= 100.0 && mrr < 149.0 then From100To149
    else if (if mrr >= 149.0 then mrr - 149.0 else 149.0 - mrr) < 1.0 then At149
    else if mrr > 149.0 && mrr <= 500.0 then From150To500
    else Over500
  }

  function InBucket(b: Bucket): real -> bool
  {
    mrr => BucketOf(mrr) == b
  }

  /** `customersByMRR`, starting with every bucket at 0. */
  ghost predicate BucketCounts(counts: map<Bucket, nat>, mrrs: seq<real>)
  {
    forall b :: b in counts && counts[b] == |Filter(mrrs, InBucket(b))|
  }

  function CountsTotal(counts: map<Bucket, nat>): nat
    requires forall b :: b in counts
  {
    counts[Zero] + counts[Under100] + counts[From100To149] + counts[At149] + counts[From150To500] + counts[Over500]
  }

  /** `Object.values(customerMRR)` */
  function MrrValues(customerMrr: Entries<string, real>): seq<real>
  {
    seq(|customerMrr|, i requires 0 <= i < |customerMrr| => customerMrr[i].1)
  }

  /** Each customer lands in exactly one bucket, so the buckets add up to the
      number of customers with a tracked MRR. */
  method Bucketize(customerMrr: Entries<string, real>) returns (counts: map<Bucket, nat>)
    ensures BucketCounts(counts, MrrValues(customerMrr))
    ensures CountsTotal(counts) == |customerMrr|
  {
    var mrrs := MrrValues(customerMrr);
    counts := map[Zero := 0, Under100 := 0, From100To149 := 0, At149 := 0, From150To500 := 0, Over500 := 0];
    var i := 0;
    NoCustomersYet(counts);
    assert mrrs[..0] == [];
    while i < |mrrs|
      invariant i <= |mrrs|
      invariant BucketCounts(counts, mrrs[..i])
      invariant CountsTotal(counts) == i
    {
      var b := BucketOf(mrrs[i]);
      BucketStep(mrrs, i, counts);
      CountsTotalStep(counts, b);
      counts := counts[b := counts[b] + 1];
      i := i + 1;
    }
    assert mrrs[..|mrrs|] == mrrs;
  }

  /** The starting counts: every bucket present, at 0. */
  lemma NoCustomersYet(counts: map<Bucket, nat>)
    requires counts == map[Zero := 0, Under100 := 0, From100To149 := 0, At149 := 0, From150To500 := 0, Over500 := 0]
    ensures BucketCounts(counts, []) && CountsTotal(counts) == 0
  {
    forall b ensures b in counts && counts[b] == 0 {
      match b {
        case Zero =>
        case Under100 =>
        case From100To149 =>
        case At149 =>
        case From150To500 =>
        case Over500 =>
      }
    }
  }

  /** One more customer in one bucket is one more in the total. */
  lemma CountsTotalStep(counts: map<Bucket, nat>, b: Bucket)
    requires forall c :: c in counts
    ensures CountsTotal(counts[b := counts[b] + 1]) == CountsTotal(counts) + 1
  {
    match b {
      case Zero =>
      case Under100 =>
      case From100To149 =>
      case At149 =>
      case From150To500 =>
      case Over500 =>
    }
  }

  lemma BucketStep(mrrs: seq<real>, i: nat, counts: map<Bucket, nat>)
    requires i < |mrrs|
    requires BucketCounts(counts, mrrs[..i])
    ensures var b := BucketOf(mrrs[i]);
      BucketCounts(counts[b := counts[b] + 1], mrrs[..i + 1])
  {
    var b := BucketOf(mrrs[i]);
    var next := counts[b := counts[b] + 1];
    forall c ensures c in next && next[c] == |Filter(mrrs[..i + 1], InBucket(c))| {
      FilterStep(mrrs, i, InBucket(c));
    }
  }

  /** `now - 28 * 24 * 60 * 60` */
  function FourWeeksAgo(now: int): int
  {
    now - 28 * 24 * 60 * 60
  }

  function CreatedSince(t: int): Subscription -> bool
  {
    (sub: Subscription) => sub.created >= t
  }

  function CreatedBeforeTs(t: int): Subscription -> bool
  {
    (sub: Subscription) => sub.created < t
  }

  /** "Created in the last 4 weeks" and "created before 4 weeks" split the paying set. */
  lemma FourWeekSplit(paying: seq<Subscription>, now: int)
    ensures |Filter(paying, CreatedSince(FourWeeksAgo(now)))| + |Filter(paying, CreatedBeforeTs(FourWeeksAgo(now)))| == |paying|
  {
    var t := FourWeeksAgo(now);
    FilterSplit(paying, CreatedSince(t), CreatedBeforeTs(t), Always);
    FilterKeepsAll(paying, Always);
  }
}
