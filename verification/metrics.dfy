/** The dashboard's headline numbers: current members, MRR at a flat 149 kr
    per member, this month's signups and cancellations, churn and growth
    rates, paid-invoice revenue, the 12-month member trend and the recent
    activity feed. Each Stripe listing is an input sequence of pages (see
    `Paging`); calendar boundaries and "now" are inputs. */
module Metrics {
  import opened Wrappers
  import opened Seqs
  import opened Sorting
  import opened Paging
  import opened Billing
  import opened Rates

  /** The flat monthly price, in kroner. */
  const MonthlyPrice: nat := 149

  /** `calculateMRR`: every member pays the flat price, so the MRR is a
      multiple of it from which the member count can be read back. */
  function Mrr(members: nat): (r: nat)
    ensures r % MonthlyPrice == 0 && r / MonthlyPrice == members
  {
    members * MonthlyPrice
  }

  /** `getCurrentMembers`: the number of records in the listing of active subscriptions. */
  method GetCurrentMembers(activePages: seq<Page<Subscription>>) returns (r: Result<nat, PagingError>)
    ensures r.Err? <==> Listing(activePages, Unbounded).Err?
    ensures r.Ok? ==> r.value == |Listing(activePages, Unbounded).value|
  {
    var f := FetchAll(activePages, Unbounded, SubscriptionId);
    if f.Err? {
      return Err(f.error);
    }
    return Ok(|f.value.items|);
  }

  /** `calculateMRR` over the listing. */
  method CalculateMrr(activePages: seq<Page<Subscription>>) returns (r: Result<nat, PagingError>)
    ensures r.Err? <==> Listing(activePages, Unbounded).Err?
    ensures r.Ok? ==> r.value % MonthlyPrice == 0
    ensures r.Ok? ==> r.value / MonthlyPrice == |Listing(activePages, Unbounded).value|
  {
    var members := GetCurrentMembers(activePages);
    if members.Err? {
      return Err(members.error);
    }
    return Ok(Mrr(members.value));
  }

  function CreatedBefore(startTs: int): Subscription -> bool
  {
    (sub: Subscription) => sub.created < startTs
  }

  /** `getMembersAtStartOfMonth`'s filter: active subscriptions created strictly
      before the month started. All of them count exactly when every one was
      created before the start. */
  function MembersAtStart(active: seq<Subscription>, startTs: int): (r: nat)
    ensures r <= |active|
    ensures r == |active| <==> forall i :: 0 <= i < |active| ==> active[i].created < startTs
  {
    FilterKeepsAll(active, CreatedBefore(startTs));
    |Filter(active, CreatedBefore(startTs))|
  }

  /** A later month start can only count more of the same subscriptions. */
  lemma MembersAtStartMonotone(active: seq<Subscription>, t1: int, t2: int)
    requires t1 <= t2
    ensures MembersAtStart(active, t1) <= MembersAtStart(active, t2)
  {
    FilterMono(active, CreatedBefore(t1), CreatedBefore(t2));
  }

  method GetMembersAtStartOfMonth(activePages: seq<Page<Subscription>>, startTs: int) returns (r: Result<nat, PagingError>)
    ensures r.Err? <==> Listing(activePages, Unbounded).Err?
    ensures r.Ok? ==> r.value == MembersAtStart(Listing(activePages, Unbounded).value, startTs)
  {
    var f := FetchAll(activePages, Unbounded, SubscriptionId);
    if f.Err? {
      return Err(f.error);
    }
    return Ok(MembersAtStart(f.value.items, startTs));
  }

  /** `getNewSignupsThisMonth` and `getCancellationsThisMonth`: the number of
      events in the listing (the listing is already restricted to the event
      type and to events since the month start). */
  method CountEvents(eventPages: seq<Page<Event>>) returns (r: Result<nat, PagingError>)
    ensures r.Err? <==> Listing(eventPages, Unbounded).Err?
    ensures r.Ok? ==> r.value == |Listing(eventPages, Unbounded).value|
  {
    var f := FetchAll(eventPages, Unbounded, EventId);
    if f.Err? {
      return Err(f.error);
    }
    return Ok(|f.value.items|);
  }

  /** `calculateChurnRate`: cancellations per member at the start of the
      month, in percent; 0 when nobody was a member. */
  function ChurnRate(cancellations: nat, membersAtStart: nat): (r: real)
    ensures membersAtStart == 0 ==> r == 0.0
    ensures membersAtStart > 0 ==> r * (membersAtStart as real) == (cancellations as real) * 100.0
    ensures r >= 0.0
    ensures membersAtStart > 0 ==> (r <= 100.0 <==> cancellations <= membersAtStart)
  {
    Percent(cancellations, membersAtStart)
  }

  /** `calculateGrowthRate`: net growth per member at the start of the month,
      in percent; 0 when nobody was a member. */
  function GrowthRate(signups: nat, cancellations: nat, membersAtStart: nat): (r: real)
    ensures membersAtStart == 0 ==> r == 0.0
    ensures membersAtStart > 0 ==> r * (membersAtStart as real) == ((signups - cancellations) as real) * 100.0
    ensures membersAtStart > 0 ==> (r < 0.0 <==> signups < cancellations)
  {
    if membersAtStart == 0 then 0.0
    else ((signups - cancellations) as real) / (membersAtStart as real) * 100.0
  }

  /** Growth is the signup rate less the churn rate. */
  lemma GrowthIsSignupsLessChurn(signups: nat, cancellations: nat, membersAtStart: nat)
    ensures GrowthRate(signups, cancellations, membersAtStart)
         == Percent(signups, membersAtStart) - Percent(cancellations, membersAtStart)
  {
    if membersAtStart > 0 {
      var m := membersAtStart as real;
      assert ((signups - cancellations) as real) / m == (signups as real) / m - (cancellations as real) / m;
    }
  }

  function AmountPaid(inv: Invoice): real
  {
    inv.amountPaid as real
  }

  /** `calculateTotalRevenue`: paid invoices read until 1000 or more are held
      (or the listing ends), their `amount_paid` summed and converted from øre. */
  method CalculateTotalRevenue(invoicePages: seq<Page<Invoice>>) returns (r: Result<real, PagingError>)
    ensures r.Err? <==> Listing(invoicePages, ItemLimit(1000)).Err?
    ensures r.Ok? ==> r.value * 100.0 == SumOf(Listing(invoicePages, ItemLimit(1000)).value, AmountPaid)
  {
    var f := FetchAll(invoicePages, ItemLimit(1000), InvoiceId);
    if f.Err? {
      return Err(f.error);
    }
    return Ok(SumOf(f.value.items, AmountPaid) / 100.0);
  }

  datatype DashboardMetrics = DashboardMetrics(
    currentMembers: nat,
    mrr: nat,
    totalRevenue: real,
    newSignupsThisMonth: nat,
    cancellationsThisMonth: nat,
    churnRate: real,
    growthRate: real)

  /** `getDashboardMetrics`, with its seven calls made one after another. The
      active-subscription listing is the same input for the member count, the
      MRR and the members at the start of the month. */
  method GetDashboardMetrics(
    activePages: seq<Page<Subscription>>,
    signupPages: seq<Page<Event>>,
    cancelPages: seq<Page<Event>>,
    invoicePages: seq<Page<Invoice>>,
    monthStart: int)
    returns (r: Result<DashboardMetrics, PagingError>)
    ensures r.Err? <==>
      Listing(activePages, Unbounded).Err? || Listing(signupPages, Unbounded).Err? ||
      Listing(cancelPages, Unbounded).Err? || Listing(invoicePages, ItemLimit(1000)).Err?
    ensures r.Ok? ==> r.value.mrr == Mrr(r.value.currentMembers)
    ensures r.Ok? ==> r.value.currentMembers == |Listing(activePages, Unbounded).value|
    ensures r.Ok? ==> r.value.totalRevenue * 100.0 == SumOf(Listing(invoicePages, ItemLimit(1000)).value, AmountPaid)
    ensures r.Ok? ==> r.value.newSignupsThisMonth == |Listing(signupPages, Unbounded).value|
    ensures r.Ok? ==> r.value.cancellationsThisMonth == |Listing(cancelPages, Unbounded).value|
    ensures r.Ok? ==> var atStart := MembersAtStart(Listing(activePages, Unbounded).value, monthStart);
      && r.value.churnRate == ChurnRate(r.value.cancellationsThisMonth, atStart)
      && r.value.growthRate == GrowthRate(r.value.newSignupsThisMonth, r.value.cancellationsThisMonth, atStart)
  {
    var members := GetCurrentMembers(activePages);
    var mrr := CalculateMrr(activePages);
    var revenue := CalculateTotalRevenue(invoicePages);
    var signups := CountEvents(signupPages);
    var cancels := CountEvents(cancelPages);
    var atStart := GetMembersAtStartOfMonth(activePages, monthStart);
    if members.Err? || mrr.Err? || revenue.Err? || signups.Err? || cancels.Err? || atStart.Err? {
      return Err(MissingCursor);
    }
    r := Ok(DashboardMetrics(
      members.value, mrr.value, revenue.value, signups.value, cancels.value,
      ChurnRate(cancels.value, atStart.value),
      GrowthRate(signups.value, cancels.value, atStart.value)));
  }

  /** One calendar month: its name and its first and last second. */
  datatype MonthWindow = MonthWindow(month: string, start: int, end: int)

  datatype TrendPoint = TrendPoint(month: string, members: nat, revenue: nat)

  /** A subscription counts for a month when it was created by the month's
      end and was not canceled before the month's start (`canceled_at` of 0
      reads as not canceled). */
  predicate ActiveInMonth(sub: Subscription, w: MonthWindow)
  {
    sub.created <= w.end && (!Truthy(sub.canceledAt) || sub.canceledAt.value >= w.start)
  }

  function ActiveIn(w: MonthWindow): Subscription -> bool
  {
    (sub: Subscription) => ActiveInMonth(sub, w)
  }

  /** `activeInMonth.length`: every subscription counts exactly when each one is active in the month. */
  function MembersInMonth(subs: seq<Subscription>, w: MonthWindow): (r: nat)
    ensures r <= |subs|
    ensures r == |subs| <==> forall i :: 0 <= i < |subs| ==> ActiveInMonth(subs[i], w)
  {
    FilterKeepsAll(subs, ActiveIn(w));
    |Filter(subs, ActiveIn(w))|
  }

  /** Without cancellations, a month that ends later counts at least as many members. */
  lemma MembersInMonthGrows(subs: seq<Subscription>, w1: MonthWindow, w2: MonthWindow)
    requires w1.end <= w2.end
    requires forall i :: 0 <= i < |subs| ==> !Truthy(subs[i].canceledAt)
    ensures MembersInMonth(subs, w1) <= MembersInMonth(subs, w2)
  {
    FilterMono(subs, ActiveIn(w1), ActiveIn(w2));
  }

  /** `getGrowthTrends`' loop `for (i = 11; i >= 0; i--)`: `window(i)` is the
      month `i` months before now. Twelve points, oldest month first, each
      with its member count and that count times the price. */
  method Trends(subs: seq<Subscription>, window: nat -> MonthWindow) returns (trends: seq<TrendPoint>)
    ensures |trends| == 12
    ensures forall j :: 0 <= j < 12 ==>
      && trends[j].month == window(11 - j).month
      && trends[j].members == MembersInMonth(subs, window(11 - j))
      && trends[j].revenue == Mrr(trends[j].members)
  {
    trends := [];
    var i := 11;
    while i >= 0
      invariant -1 <= i <= 11
      invariant |trends| == 11 - i
      invariant forall j :: 0 <= j < |trends| ==>
        && trends[j].month == window(11 - j).month
        && trends[j].members == MembersInMonth(subs, window(11 - j))
        && trends[j].revenue == Mrr(trends[j].members)
    {
      var w := window(i);
      var memberCount := |Filter(subs, ActiveIn(w))|;
      trends := trends + [TrendPoint(w.month, memberCount, Mrr(memberCount))];
      i := i - 1;
    }
  }

  method GetGrowthTrends(allPages: seq<Page<Subscription>>, window: nat -> MonthWindow)
    returns (r: Result<seq<TrendPoint>, PagingError>)
    ensures r.Err? <==> Listing(allPages, Unbounded).Err?
    ensures r.Ok? ==> |r.value| == 12
    ensures r.Ok? ==> forall j :: 0 <= j < 12 ==>
      && r.value[j].month == window(11 - j).month
      && r.value[j].members == MembersInMonth(Listing(allPages, Unbounded).value, window(11 - j))
      && r.value[j].revenue == Mrr(r.value[j].members)
  {
    var f := FetchAll(allPages, Unbounded, SubscriptionId);
    if f.Err? {
      return Err(f.error);
    }
    var trends := Trends(f.value.items, window);
    return Ok(trends);
  }

  datatype ActivityKind = Signup | Cancel

  /** A feed entry; `date` is the event time, which is what the ISO date string encodes. */
  datatype Activity = Activity(id: string, kind: ActivityKind, email: string, date: int, amount: Option<nat>)

  /** The email shown for an event's customer: a customer id is looked up
      (`lookup` gives `None` when the lookup throws) and its email used unless
      the customer is deleted; an expanded customer's email is used as is;
      otherwise "Unknown". */
  function EmailFor(c: CustomerRef, lookup: string -> Option<CustomerRecord>): (r: string)
    ensures r != ""
    ensures c.CustomerId? && (lookup(c.id).None? || lookup(c.id).value.deleted) ==> r == "Unknown"
    ensures r != "Unknown" ==> Some(r) == (if c.CustomerId? then lookup(c.id).value.email else c.record.email)
    ensures c.Expanded? && c.record.email.Some? && c.record.email.value != "" ==> r == c.record.email.value
    ensures c.CustomerId? && lookup(c.id).Some? && !lookup(c.id).value.deleted
              && lookup(c.id).value.email.Some? && lookup(c.id).value.email.value != ""
            ==> r == lookup(c.id).value.email.value
  {
    match c
    case CustomerId(id) =>
      (match lookup(id)
       case Some(rec) => if !rec.deleted && rec.email.Some? && rec.email.value != "" then rec.email.value else "Unknown"
       case None => "Unknown")
    case Expanded(rec) =>
      if rec.email.Some? && rec.email.value != "" then rec.email.value else "Unknown"
  }

  function SignupActivity(e: Event, lookup: string -> Option<CustomerRecord>): Activity
  {
    Activity(e.id, Signup, EmailFor(e.customer, lookup), e.created, Some(MonthlyPrice))
  }

  function CancelActivity(e: Event, lookup: string -> Option<CustomerRecord>): Activity
  {
    Activity(e.id, Cancel, EmailFor(e.customer, lookup), e.created, None)
  }

  /** The feed order: `a` goes before `b` when it is newer. */
  predicate Newer(a: Activity, b: Activity)
  {
    a.date > b.date
  }

  lemma NewerIsStrictWeakOrder()
    ensures StrictWeakOrder(Newer)
  {
  }

  /** Entries a feed may hold: signups carry the price, cancellations no amount,
      and every entry has a non-empty email. */
  ghost predicate WellFormedEntry(a: Activity)
  {
    a.email != "" && (a.kind == Signup <==> a.amount == Some(MonthlyPrice))
  }

  /** `getRecentActivity`: the signup and cancellation events turned into feed
      entries, sorted newest first and cut to 20. The kept entries are the
      newest of all: nothing left out is newer than anything kept. */
  method RecentActivity(signups: seq<Event>, cancels: seq<Event>, lookup: string -> Option<CustomerRecord>)
    returns (feed: seq<Activity>)
    ensures |feed| == if |signups| + |cancels| < 20 then |signups| + |cancels| else 20
    ensures SortedBy(feed, Newer)
    ensures forall i :: 0 <= i < |feed| ==> WellFormedEntry(feed[i])
    ensures multiset(feed) <= multiset(Activities(signups, cancels, lookup))
    ensures forall x, i :: x in multiset(Activities(signups, cancels, lookup)) - multiset(feed) && 0 <= i < |feed| ==>
      x.date <= feed[i].date
  {
    var activities := CollectActivities(signups, cancels, lookup);
    feed := TopN(activities, 20, Newer);
    NewerIsStrictWeakOrder();
    ActivitiesWellFormed(signups, cancels, lookup);
    forall i | 0 <= i < |feed| ensures WellFormedEntry(feed[i]) {
      assert feed[i] in multiset(feed);
    }
  }

  /** The two `forEach` loops that push one entry per event. */
  method CollectActivities(signups: seq<Event>, cancels: seq<Event>, lookup: string -> Option<CustomerRecord>)
    returns (activities: seq<Activity>)
    ensures activities == Activities(signups, cancels, lookup)
  {
    activities := PushSignups([], signups, lookup);
    activities := PushCancels(activities, cancels, lookup);
    assert [] + MapSignups(signups, lookup) == MapSignups(signups, lookup);
  }

  /** `signups.forEach(e => activities.push(...))` */
  method PushSignups(start: seq<Activity>, signups: seq<Event>, lookup: string -> Option<CustomerRecord>)
    returns (activities: seq<Activity>)
    ensures activities == start + MapSignups(signups, lookup)
  {
    activities := start;
    var i := 0;
    while i < |signups|
      invariant i <= |signups|
      invariant activities == start + MapSignups(signups[..i], lookup)
    {
      assert signups[..i + 1][..i] == signups[..i];
      activities := activities + [SignupActivity(signups[i], lookup)];
      i := i + 1;
    }
    assert signups[..|signups|] == signups;
  }

  /** `cancels.forEach(e => activities.push(...))` */
  method PushCancels(start: seq<Activity>, cancels: seq<Event>, lookup: string -> Option<CustomerRecord>)
    returns (activities: seq<Activity>)
    ensures activities == start + MapCancels(cancels, lookup)
  {
    activities := start;
    var j := 0;
    while j < |cancels|
      invariant j <= |cancels|
      invariant activities == start + MapCancels(cancels[..j], lookup)
    {
      assert cancels[..j + 1][..j] == cancels[..j];
      activities := activities + [CancelActivity(cancels[j], lookup)];
      j := j + 1;
    }
    assert cancels[..|cancels|] == cancels;
  }

  function MapSignups(es: seq<Event>, lookup: string -> Option<CustomerRecord>): (r: seq<Activity>)
    ensures |r| == |es|
    ensures forall i :: 0 <= i < |es| ==> r[i] == SignupActivity(es[i], lookup)
  {
    if es == [] then [] else MapSignups(es[..|es| - 1], lookup) + [SignupActivity(es[|es| - 1], lookup)]
  }

  function MapCancels(es: seq<Event>, lookup: string -> Option<CustomerRecord>): (r: seq<Activity>)
    ensures |r| == |es|
    ensures forall i :: 0 <= i < |es| ==> r[i] == CancelActivity(es[i], lookup)
  {
    if es == [] then [] else MapCancels(es[..|es| - 1], lookup) + [CancelActivity(es[|es| - 1], lookup)]
  }

  /** All feed entries before sorting: signups first, then cancellations. */
  function Activities(signups: seq<Event>, cancels: seq<Event>, lookup: string -> Option<CustomerRecord>): seq<Activity>
  {
    MapSignups(signups, lookup) + MapCancels(cancels, lookup)
  }

  lemma ActivitiesWellFormed(signups: seq<Event>, cancels: seq<Event>, lookup: string -> Option<CustomerRecord>)
    ensures forall a :: a in multiset(Activities(signups, cancels, lookup)) ==> WellFormedEntry(a)
  {
    var acts := Activities(signups, cancels, lookup);
    forall a | a in multiset(acts) ensures WellFormedEntry(a) {
      var k :| 0 <= k < |acts| && acts[k] == a;
    }
  }
}
