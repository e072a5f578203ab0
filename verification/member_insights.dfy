/** The member-insights route: over every subscription (at most 50 pages)
    it reports churn (canceled subscriptions by lifetime, by signup cohort),
    member profiles (one per customer, email domains private or business,
    signups per month), trial conversion and risk indicators. Calendar
    values (a subscription's lifetime in months and days, the "yyyy-MM" key
    of a timestamp) and "now" are inputs. */
module MemberInsights {
  import opened Wrappers
  import opened Seqs
  import opened Sorting
  import opened Billing
  import opened Groups
  import opened Rates
  import opened Strings

  function IsLive(sub: Subscription): bool
  {
    sub.livemode
  }

  function Live(subs: seq<Subscription>): seq<Subscription>
  {
    Filter(subs, IsLive)
  }

  function IsCanceled(sub: Subscription): bool
  {
    sub.livemode && sub.status == Canceled && Truthy(sub.canceledAt)
  }

  /** `canceledSubs`: exactly the live subscriptions with status canceled and
      a truthy `canceled_at`, in input order. */
  function CanceledSubs(subs: seq<Subscription>): (r: seq<Subscription>)
    ensures forall i :: 0 <= i < |r| ==> r[i].livemode && r[i].status == Canceled && Truthy(r[i].canceledAt)
    ensures forall i :: 0 <= i < |subs| && subs[i].livemode && subs[i].status == Canceled && Truthy(subs[i].canceledAt) ==>
      subs[i] in r
  {
    Filter(subs, IsCanceled)
  }

  datatype Lifetime = UnderOneMonth | OneToThreeMonths | ThreeToSixMonths | SixToTwelveMonths | TwelvePlusMonths

  /** The lifetime bucket for a whole number of months, split at 1, 3, 6 and 12. */
  function LifetimeOf(months: int): (b: Lifetime)
    ensures b == UnderOneMonth <==> months < 1
    ensures b == OneToThreeMonths <==> 1 <= months < 3
    ensures b == ThreeToSixMonths <==> 3 <= months < 6
    ensures b == SixToTwelveMonths <==> 6 <= months < 12
    ensures b == TwelvePlusMonths <==> months >= 12
  {
    if months < 1 then UnderOneMonth
    else if months < 3 then OneToThreeMonths
    else if months < 6 then ThreeToSixMonths
    else if months < 12 then SixToTwelveMonths
    else TwelvePlusMonths
  }

  function InLifetime<T>(b: Lifetime, monthsOf: T -> int): T -> bool
  {
    (x: T) => LifetimeOf(monthsOf(x)) == b
  }

  ghost predicate LifetimeCounts<T>(counts: map<Lifetime, nat>, canceled: seq<T>, monthsOf: T -> int)
  {
    forall b :: b in counts && counts[b] == |Filter(canceled, InLifetime(b, monthsOf))|
  }

  function LifetimeTotal(counts: map<Lifetime, nat>): nat
    requires forall b :: b in counts
  {
    counts[UnderOneMonth] + counts[OneToThreeMonths] + counts[ThreeToSixMonths] + counts[SixToTwelveMonths] + counts[TwelvePlusMonths]
  }

  lemma LifetimeStep<T>(canceled: seq<T>, i: nat, counts: map<Lifetime, nat>, monthsOf: T -> int)
    requires i < |canceled|
    requires LifetimeCounts(counts, canceled[..i], monthsOf)
    ensures var b := LifetimeOf(monthsOf(canceled[i]));
      LifetimeCounts(counts[b := counts[b] + 1], canceled[..i + 1], monthsOf)
  {
    var b := LifetimeOf(monthsOf(canceled[i]));
    var next := counts[b := counts[b] + 1];
    forall c ensures c in next && next[c] == |Filter(canceled[..i + 1], InLifetime(c, monthsOf))| {
      FilterStep(canceled, i, InLifetime(c, monthsOf));
    }
  }

  /** One more subscription in one bucket is one more in the total. */
  lemma LifetimeTotalStep(counts: map<Lifetime, nat>, b: Lifetime)
    requires forall c :: c in counts
    ensures LifetimeTotal(counts[b := counts[b] + 1]) == LifetimeTotal(counts) + 1
  {
    match b {
      case UnderOneMonth =>
      case OneToThreeMonths =>
      case ThreeToSixMonths =>
      case SixToTwelveMonths =>
      case TwelvePlusMonths =>
    }
  }

  const NoLifetimes: map<Lifetime, nat> :=
    map[UnderOneMonth := 0, OneToThreeMonths := 0, ThreeToSixMonths := 0, SixToTwelveMonths := 0, TwelvePlusMonths := 0]

  lemma NoLifetimesCounts<T>(canceled: seq<T>, monthsOf: T -> int)
    ensures LifetimeCounts(NoLifetimes, canceled[..0], monthsOf)
    ensures LifetimeTotal(NoLifetimes) == 0
  {
    assert canceled[..0] == [];
    forall b ensures b in NoLifetimes && NoLifetimes[b] == 0 {
      match b {
        case UnderOneMonth =>
        case OneToThreeMonths =>
        case ThreeToSixMonths =>
        case SixToTwelveMonths =>
        case TwelvePlusMonths =>
      }
    }
  }

  function Days<T>(daysOf: T -> int): T -> real
  {
    (x: T) => daysOf(x) as real
  }

  /** The state after the first `i` canceled subscriptions. */
  ghost predicate ChurnSoFar<T>(canceled: seq<T>, i: nat, monthsOf: T -> int, daysOf: T -> int,
    counts: map<Lifetime, nat>, totalDays: real)
  {
    && i <= |canceled|
    && LifetimeCounts(counts, canceled[..i], monthsOf)
    && LifetimeTotal(counts) == i
    && totalDays == SumOf(canceled[..i], Days(daysOf))
  }

  lemma ChurnStep<T>(canceled: seq<T>, i: nat, monthsOf: T -> int, daysOf: T -> int,
    counts: map<Lifetime, nat>, totalDays: real)
    requires i < |canceled|
    requires ChurnSoFar(canceled, i, monthsOf, daysOf, counts, totalDays)
    ensures var b := LifetimeOf(monthsOf(canceled[i]));
      ChurnSoFar(canceled, i + 1, monthsOf, daysOf, counts[b := counts[b] + 1], totalDays + daysOf(canceled[i]) as real)
  {
    SumOfStep(canceled, i, Days(daysOf));
    LifetimeStep(canceled, i, counts, monthsOf);
    LifetimeTotalStep(counts, LifetimeOf(monthsOf(canceled[i])));
  }

  /** Before the first and after the last canceled subscription. */
  lemma ChurnEnds<T>(canceled: seq<T>, monthsOf: T -> int, daysOf: T -> int, counts: map<Lifetime, nat>, totalDays: real)
    ensures ChurnSoFar(canceled, 0, monthsOf, daysOf, NoLifetimes, 0.0)
    ensures ChurnSoFar(canceled, |canceled|, monthsOf, daysOf, counts, totalDays) ==>
      && LifetimeCounts(counts, canceled, monthsOf)
      && LifetimeTotal(counts) == |canceled|
      && totalDays == SumOf(canceled, Days(daysOf))
  {
    NoLifetimesCounts(canceled, monthsOf);
    assert canceled[..0] == [];
    assert canceled[..|canceled|] == canceled;
  }

  /** `churnByLifetime` and `totalLifetimeDays`: every canceled subscription
      lands in exactly one lifetime bucket, so the buckets add up to the
      number canceled; the days are summed over all of them. */
  method ChurnByLifetime<T>(canceled: seq<T>, monthsOf: T -> int, daysOf: T -> int)
    returns (counts: map<Lifetime, nat>, totalLifetimeDays: real)
    ensures LifetimeCounts(counts, canceled, monthsOf)
    ensures LifetimeTotal(counts) == |canceled|
    ensures totalLifetimeDays == SumOf(canceled, Days(daysOf))
  {
    counts := NoLifetimes;
    totalLifetimeDays := 0.0;
    ChurnEnds(canceled, monthsOf, daysOf, counts, totalLifetimeDays);
    var i := 0;
    while i < |canceled|
      invariant ChurnSoFar(canceled, i, monthsOf, daysOf, counts, totalLifetimeDays)
    {
      var x := canceled[i];
      var b := LifetimeOf(monthsOf(x));
      ChurnStep(canceled, i, monthsOf, daysOf, counts, totalLifetimeDays);
      counts := counts[b := counts[b] + 1];
      totalLifetimeDays := totalLifetimeDays + daysOf(x) as real;
      i := i + 1;
    }
    ChurnEnds(canceled, monthsOf, daysOf, counts, totalLifetimeDays);
  }

  /** `avgLifetimeDays`: the mean over the canceled subscriptions, 0 when there are none. */
  function AvgLifetimeDays(totalLifetimeDays: real, canceledCount: nat): (r: real)
    ensures canceledCount == 0 ==> r == 0.0
    ensures canceledCount > 0 ==> r * (canceledCount as real) == totalLifetimeDays
  {
    if canceledCount > 0 then totalLifetimeDays / (canceledCount as real) else 0.0
  }

  datatype CohortStats = CohortStats(total: nat, canceled: nat, churnRate: real)

  function IsStatusCanceled(sub: Subscription): bool
  {
    sub.status == Canceled
  }

  /** Per signup cohort, in order of first appearance: its size and how many of it are canceled. */
  ghost predicate CohortCounts(stats: Entries<string, CohortStats>, g: Entries<string, seq<Subscription>>)
  {
    |stats| == |g| && forall j :: 0 <= j < |g| ==>
      stats[j].0 == g[j].0 && stats[j].1.total == |g[j].1| && stats[j].1.canceled == |Filter(g[j].1, IsStatusCanceled)|
  }

  /** `cohortChurn[cohort].total++` and, for a canceled one, `.canceled++`. */
  function Bump(stats: Entries<string, CohortStats>, k: string, sub: Subscription): Entries<string, CohortStats>
  {
    var c := if IsStatusCanceled(sub) then 1 else 0;
    match Find(KeysOf(stats), k)
    case Some(j) => stats[j := (k, stats[j].1.(total := stats[j].1.total + 1, canceled := stats[j].1.canceled + c))]
    case None => stats + [(k, CohortStats(1, c, 0.0))]
  }

  lemma BumpCounts(stats: Entries<string, CohortStats>, g: Entries<string, seq<Subscription>>, k: string, sub: Subscription)
    requires CohortCounts(stats, g)
    ensures CohortCounts(Bump(stats, k, sub), AddTo(g, k, sub))
  {
    assert KeysOf(stats) == KeysOf(g);
    match Find(KeysOf(g), k)
    case Some(j) =>
      FilterAppend(g[j].1, [sub], IsStatusCanceled);
    case None =>
      assert Filter([sub], IsStatusCanceled) == Filter([], IsStatusCanceled) + (if IsStatusCanceled(sub) then [sub] else []);
  }

  function TotalOf(st: CohortStats): nat
  {
    st.total
  }

  /** `cohortChurn`: one entry per signup cohort of the live subscriptions,
      each with its size, its canceled count (never more than the size) and
      its churn rate, which therefore lies in [0, 100]; the sizes add up to
      the number of live subscriptions. */
  method CohortChurn(subs: seq<Subscription>, cohortOf: Subscription -> string)
    returns (cohorts: Entries<string, CohortStats>)
    ensures CohortCounts(cohorts, GroupBy(Live(subs), cohortOf))
    ensures forall j :: 0 <= j < |cohorts| ==>
      && cohorts[j].1.canceled <= cohorts[j].1.total
      && cohorts[j].1.churnRate == Percent(cohorts[j].1.canceled, cohorts[j].1.total)
      && 0.0 <= cohorts[j].1.churnRate <= 100.0
    ensures CountValues(cohorts, TotalOf) == |Live(subs)|
  {
    var live := Live(subs);
    var stats: Entries<string, CohortStats> := [];
    var i := 0;
    while i < |live|
      invariant i <= |live|
      invariant CohortCounts(stats, GroupBy(live[..i], cohortOf))
    {
      GroupByStep(live, i, cohortOf);
      BumpCounts(stats, GroupBy(live[..i], cohortOf), cohortOf(live[i]), live[i]);
      stats := Bump(stats, cohortOf(live[i]), live[i]);
      i := i + 1;
    }
    assert live[..|live|] == live;
    cohorts := WithChurnRates(stats);
    GroupBySize(live, cohortOf);
    CountValuesPointwise(cohorts, TotalOf, GroupBy(live, cohortOf), Size());
  }

  /** The second pass over `cohortChurn`: each cohort's churn rate from its
      counts, the counts unchanged. */
  method WithChurnRates(stats: Entries<string, CohortStats>) returns (cohorts: Entries<string, CohortStats>)
    ensures |cohorts| == |stats|
    ensures forall k :: 0 <= k < |cohorts| ==>
      && cohorts[k].0 == stats[k].0 && cohorts[k].1.total == stats[k].1.total && cohorts[k].1.canceled == stats[k].1.canceled
      && cohorts[k].1.churnRate == Percent(cohorts[k].1.canceled, cohorts[k].1.total)
  {
    cohorts := stats;
    var j := 0;
    while j < |cohorts|
      invariant j <= |cohorts| == |stats|
      invariant forall k :: 0 <= k < |cohorts| ==>
        cohorts[k].0 == stats[k].0 && cohorts[k].1.total == stats[k].1.total && cohorts[k].1.canceled == stats[k].1.canceled
      invariant forall k :: 0 <= k < j ==> cohorts[k].1.churnRate == Percent(cohorts[k].1.canceled, cohorts[k].1.total)
    {
      var data := cohorts[j].1;
      cohorts := cohorts[j := (cohorts[j].0, data.(churnRate := Percent(data.canceled, data.total)))];
      j := j + 1;
    }
  }

  /** The sort comparator `b.localeCompare(a)` on keys: later keys first. */
  function KeyAfter<V>(a: (string, V), b: (string, V)): bool
  {
    StrLess(b.0, a.0)
  }

  lemma KeyAfterOrder<V(!new)>()
    ensures StrictWeakOrder((a: (string, V), b: (string, V)) => KeyAfter(a, b))
  {
    forall a: (string, V), b: (string, V) | KeyAfter(a, b) ensures !KeyAfter(b, a) {
      StrLessAsymmetric(b.0, a.0);
    }
    forall a: (string, V), b: (string, V), c: (string, V) | !KeyAfter(a, b) && !KeyAfter(b, c)
      ensures !KeyAfter(a, c)
    {
      StrNotLessTransitive(c.0, b.0, a.0);
    }
  }

  /** `Object.entries(d).sort(([a], [b]) => b.localeCompare(a)).slice(0, n)`:
      the first `n` entries (all of them if fewer), keys in descending order, and no entry left out
      has a later key than one kept. */
  function Latest<V(!new)>(d: Entries<string, V>, n: nat): (r: Entries<string, V>)
    ensures |r| == if |d| < n then |d| else n
    ensures multiset(r) <= multiset(d)
    ensures forall i, j :: 0 <= i < j < |r| ==> !StrLess(r[i].0, r[j].0)
    ensures forall x, i :: x in multiset(d) - multiset(r) && 0 <= i < |r| ==> !StrLess(r[i].0, x.0)
  {
    KeyAfterOrder<V>();
    TopN(d, n, (a: (string, V), b: (string, V)) => KeyAfter(a, b))
  }

  /** A customer as the profile map holds it. */
  datatype Profile = Profile(id: string, email: string, created: int, status: Status)

  /** The email recorded for a customer: an expanded, non-deleted customer's
      non-empty email, and "unknown" otherwise (a bare id included). */
  function ProfileEmail(c: CustomerRef): (r: string)
    ensures r != ""
    ensures r != "unknown" ==> c.Expanded? && !c.record.deleted && c.record.email == Some(r)
    ensures c.Expanded? && !c.record.deleted && c.record.email.Some? && c.record.email.value != "" ==> r == c.record.email.value
  {
    match c
    case CustomerId(_) => "unknown"
    case Expanded(rec) =>
      if !rec.deleted && rec.email.Some? && rec.email.value != "" then rec.email.value else "unknown"
  }

  function CustomerOf(sub: Subscription): string
  {
    CustomerIdOf(sub.customer)
  }

  function ProfileOf(sub: Subscription): Profile
  {
    Profile(CustomerOf(sub), ProfileEmail(sub.customer), sub.created, sub.status)
  }

  /** `customers`: one profile per customer of the live subscriptions, in
      order of first appearance, taken from that customer's first live
      subscription; never more customers than live subscriptions. */
  method Customers(subs: seq<Subscription>) returns (customers: Entries<string, Profile>)
    ensures FirstOf(customers, GroupBy(Live(subs), CustomerOf), ProfileOf)
    ensures KeysOf(customers) == Dedup(MapSeq(Live(subs), CustomerOf))
    ensures |customers| <= |Live(subs)|
  {
    customers := FirstSeen(Live(subs), CustomerOf, ProfileOf);
  }

  /** `email.split("@")[1]?.toLowerCase()`, kept only when non-empty: the
      lower-cased text between the first `@` and the next one (or the end). */
  function DomainOf(email: string): (r: Option<string>)
    ensures r.Some? ==> r.value != "" && '@' !in r.value
    ensures r.Some? ==> forall i :: 0 <= i < |r.value| ==> !('A' <= r.value[i] <= 'Z')
  {
    var parts := Split(email, '@');
    if |parts| >= 2 && parts[1] != "" then
      assert '@' !in ToLower(parts[1]) by {
        forall i | 0 <= i < |parts[1]| ensures ToLower(parts[1])[i] != '@' {
          assert parts[1][i] in parts[1];
        }
      }
      Some(ToLower(parts[1]))
    else None
  }

  /** For an address `local@domain` (more `@`-separated pieces may follow),
      the domain is read back, lower-cased. */
  lemma DomainOfAddress(parts: seq<string>)
    requires |parts| >= 2 && parts[1] != ""
    requires forall i :: 0 <= i < |parts| ==> '@' !in parts[i]
    ensures DomainOf(Join(parts, '@')) == Some(ToLower(parts[1]))
  {
    SplitJoin(parts, '@');
  }

  function HasDomain(p: Profile): bool
  {
    p.email != "" && p.email != "unknown" && DomainOf(p.email).Some?
  }

  function DomainKey(p: Profile): string
  {
    if DomainOf(p.email).Some? then DomainOf(p.email).value else ""
  }

  /** `privateEmailProviders` */
  const PrivateProviders: seq<string> := [
    "gmail.com", "hotmail.com", "hotmail.dk", "yahoo.com", "outlook.com",
    "live.dk", "live.com", "icloud.com", "me.com", "protonmail.com"]

  function IsPrivate(p: Profile): bool
  {
    DomainKey(p) in PrivateProviders
  }

  function Not<T>(p: T -> bool): T -> bool
  {
    (x: T) => !p(x)
  }

  /** `Map.forEach` order: the profiles in insertion order. */
  function ProfilesOf(customers: Entries<string, Profile>): seq<Profile>
  {
    seq(|customers|, i requires 0 <= i < |customers| => customers[i].1)
  }

  /** The tally of domains, and the private and business counts, over
      elements that all have a domain. */
  ghost predicate Counted<T>(known: seq<T>, key: T -> string, priv: T -> bool,
    domains: Entries<string, nat>, privateCount: nat, businessCount: nat)
  {
    && Tallies(domains, GroupBy(known, key))
    && privateCount == |Filter(known, priv)|
    && businessCount == |Filter(known, Not(priv))|
    && privateCount + businessCount == |known|
  }

  /** The same over the elements of `s` that have a domain. */
  ghost predicate ClassifiedBy<T>(s: seq<T>, has: T -> bool, key: T -> string, priv: T -> bool,
    domains: Entries<string, nat>, privateCount: nat, businessCount: nat)
  {
    Counted(Filter(s, has), key, priv, domains, privateCount, businessCount)
  }

  ghost predicate Classified(ps: seq<Profile>, domains: Entries<string, nat>, privateCount: nat, businessCount: nat)
  {
    ClassifiedBy(ps, HasDomain, DomainKey, IsPrivate, domains, privateCount, businessCount)
  }

  lemma CountStep<T>(s: seq<T>, x: T, p: T -> bool)
    ensures |Filter(s + [x], p)| == |Filter(s, p)| + (if p(x) then 1 else 0)
  {
    FilterAppend(s, [x], p);
    assert Filter([x], p) == Filter([], p) + (if p(x) then [x] else []);
  }

  lemma ClassifyKnown<T>(known: seq<T>, x: T, key: T -> string, priv: T -> bool,
    domains: Entries<string, nat>, privateCount: nat, businessCount: nat)
    requires Counted(known, key, priv, domains, privateCount, businessCount)
    ensures Counted(known + [x], key, priv, AddOne(domains, key(x)),
      privateCount + (if priv(x) then 1 else 0), businessCount + (if priv(x) then 0 else 1))
  {
    var more := known + [x];
    AddOneTallies(domains, GroupBy(known, key), key(x), x);
    assert more[..|known|] == known;
    GroupByStep(more, |known|, key);
    assert more[..|known| + 1] == more;
    CountStep(known, x, priv);
    CountStep(known, x, Not(priv));
  }

  /** The loop of the email-domain pass over any elements: `has` says
      whether one has a domain, `key` gives it, `priv` says whether it is a
      private provider's. */
  method ClassifyBy<T>(s: seq<T>, has: T -> bool, key: T -> string, priv: T -> bool)
    returns (domains: Entries<string, nat>, privateCount: nat, businessCount: nat)
    ensures ClassifiedBy(s, has, key, priv, domains, privateCount, businessCount)
  {
    domains := [];
    privateCount := 0;
    businessCount := 0;
    ghost var known: seq<T> := [];
    assert s[..0] == [];
    var i := 0;
    while i < |s|
      invariant i <= |s|
      invariant known == Filter(s[..i], has)
      invariant Counted(known, key, priv, domains, privateCount, businessCount)
    {
      var x := s[i];
      FilterStep(s, i, has);
      if has(x) {
        ClassifyKnown(known, x, key, priv, domains, privateCount, businessCount);
        known := known + [x];
        domains := AddOne(domains, key(x));
        if priv(x) {
          privateCount := privateCount + 1;
        } else {
          businessCount := businessCount + 1;
        }
      }
      i := i + 1;
    }
    assert s[..|s|] == s;
  }

  /** The email-domain pass over the customers: each known email with a
      domain part is tallied under its lower-cased domain and counted as
      private (a listed provider) or business; the two counts add up to the
      number of such customers. */
  method ClassifyEmails(customers: Entries<string, Profile>)
    returns (emailDomains: Entries<string, nat>, privateEmails: nat, businessEmails: nat)
    ensures Classified(ProfilesOf(customers), emailDomains, privateEmails, businessEmails)
    ensures privateEmails + businessEmails == |Filter(ProfilesOf(customers), HasDomain)|
  {
    emailDomains, privateEmails, businessEmails := ClassifyBy(ProfilesOf(customers), HasDomain, DomainKey, IsPrivate);
  }

  /** The comparator `([, a], [, b]) => b - a`: larger counts first. */
  function MoreUses(a: (string, nat), b: (string, nat)): bool
  {
    a.1 > b.1
  }

  /** `topDomains`: 10 domains (all of them if fewer), counts never increasing, and no
      domain left out is used more often than one kept. */
  function TopDomains(emailDomains: Entries<string, nat>): (r: Entries<string, nat>)
    ensures |r| == if |emailDomains| < 10 then |emailDomains| else 10
    ensures multiset(r) <= multiset(emailDomains)
    ensures forall i, j :: 0 <= i < j < |r| ==> r[i].1 >= r[j].1
    ensures forall x, i :: x in multiset(emailDomains) - multiset(r) && 0 <= i < |r| ==> x.1 <= r[i].1
  {
    assert StrictWeakOrder(MoreUses);
    TopN(emailDomains, 10, MoreUses)
  }

  function CreatedMonth(monthOf: int -> string): Profile -> string
  {
    (p: Profile) => monthOf(p.created)
  }

  /** `signupTrends`: customers counted by the month of their first live
      subscription, the 12 latest months kept, latest first; before the cut
      the counts add up to the number of customers. */
  method SignupTrends(customers: Entries<string, Profile>, monthOf: int -> string)
    returns (all: Entries<string, nat>, latest: Entries<string, nat>)
    ensures Tallies(all, GroupBy(ProfilesOf(customers), CreatedMonth(monthOf)))
    ensures CountValues(all, n => n) == |customers|
    ensures latest == Latest(all, 12)
  {
    all := Tally(ProfilesOf(customers), CreatedMonth(monthOf));
    TallySum(all, ProfilesOf(customers), CreatedMonth(monthOf));
    latest := Latest(all, 12);
  }

  function IsConverted(now: int): Subscription -> bool
  {
    (sub: Subscription) => sub.livemode && sub.status == Active && Truthy(sub.trialEnd) && sub.trialEnd.value < now
  }

  function IsTrialEver(sub: Subscription): bool
  {
    sub.livemode && (Truthy(sub.trialEnd) || sub.status == Trialing)
  }

  /** `trialConversionRate`: converted trials are among the trials ever
      started, so the rate lies in [0, 100]; it is 0 without trials. */
  lemma ConvertedAreTrials(subs: seq<Subscription>, now: int)
    ensures |Filter(subs, IsConverted(now))| <= |Filter(subs, IsTrialEver)|
  {
    FilterMono(subs, IsConverted(now), IsTrialEver);
  }

  /** `trialConversionRate`: the converted trials as a percentage of the
      trials ever started; converted trials are among those, so the rate
      lies in [0, 100]; it is 0 without trials. */
  function TrialConversionRate(subs: seq<Subscription>, now: int): (r: real)
    ensures r == Percent(|Filter(subs, IsConverted(now))|, |Filter(subs, IsTrialEver)|)
    ensures 0.0 <= r <= 100.0
    ensures |Filter(subs, IsTrialEver)| == 0 ==> r == 0.0
  {
    var converted := |Filter(subs, IsConverted(now))|;
    var ever := |Filter(subs, IsTrialEver)|;
    ConvertedAreTrials(subs, now);
    Percent(converted, ever)
  }

  function IsScheduledCancel(sub: Subscription): bool
  {
    sub.livemode && sub.status == Active && sub.cancelAtPeriodEnd
  }

  function IsPastDue(sub: Subscription): bool
  {
    sub.livemode && sub.status == PastDue
  }

  function IsAtRisk(sub: Subscription): bool
  {
    IsScheduledCancel(sub) || IsPastDue(sub)
  }

  /** `totalAtRisk`: the two indicators never overlap, so their sum counts
      each at-risk subscription once. */
  function TotalAtRisk(subs: seq<Subscription>): (r: nat)
    ensures r == |Filter(subs, IsScheduledCancel)| + |Filter(subs, IsPastDue)|
    ensures r == |Filter(subs, IsAtRisk)|
  {
    FilterSplit(subs, IsScheduledCancel, IsPastDue, IsAtRisk);
    |Filter(subs, IsScheduledCancel)| + |Filter(subs, IsPastDue)|
  }
}
