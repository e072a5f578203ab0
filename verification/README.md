# Subscription dashboard core, modelled in Dafny

This project is a Dafny model of the core of a members' dashboard for a
subscription business. The dashboard reads its billing data from Stripe.
The model covers:

- **Stripe metrics** (`src/lib/metrics.ts`). These are current members, MRR
  (a fixed 149 kr per member), members at the start of the month, sign-ups and
  cancellations this month, churn and growth rates, total revenue from paid
  invoices, the 12-month member trend and the recent-activity feed.
- **The Stripe list loops** that every route uses. A loop fetches a page,
  then keeps requesting `starting_after` the last record held while
  `has_more` and its cap allow.
- **The KV cache** (`src/lib/cache.ts`). `withCache` answers from the store
  or fetches and stores with a TTL. `clearCache` deletes one key, and the
  cache-clear route deletes the four metric keys of a period.
- **The debug, member-insights and commercial-insights routes.** They cover:
  - status and mode counts;
  - paying members and trials;
  - per-customer MRR and its buckets;
  - churn by lifetime and by cohort;
  - email-domain classification;
  - trial conversion;
  - risk indicators;
  - revenue by billing interval, year-to-date revenue by month, and the
    growth rate.
- **The ads page** (`src/app/dashboard/ads/page.tsx`). It reads the rows of an
  uploaded `.xlsx` export, totals them, groups stats per ad, platform and week, picks the best week,
  raises CPA, CPM and conversion alerts and "Stop" alerts, and sorts the per-ad
  table with its status column.
- **Two-factor authentication** (`src/lib/2fa.ts` and the verify route). It
  keeps per-user 2FA records and trusted devices in KV, and verifies a TOTP
  or backup code, consuming the backup code and optionally trusting the device.
- **The NextAuth callbacks** (`src/lib/auth.ts`): the sign-in allow-list from
  `ALLOWED_EMAIL`, and the `session`/`jwt` callbacks.

**How the model is built.**

- Pure computations are functions over datatypes (`Billing` holds the Stripe
  records).
- Loops that accumulate are methods proved against a specification function.
- Stateful stores are classes:
  - `Cache.KvCache` has a map from key to an entry with an expiry time;
  - `TwoFactor.TwoFactorStore` holds the 2FA records and trusted devices.

**What becomes an input.**

- Stripe's answers are sequences of pages.
- The clock is a timestamp parameter.
- Calendar formatting (month labels, week keys, lifetimes) is a function
  parameter.
- TOTP checking, SHA-256 and random bytes are function parameters.

## Model

| member | source | states |
|---|---|---|
| Paging.FetchAll | src/app/api/debug-subscriptions/route.ts:13-28 | the list loop fails exactly when the specification `Listing` fails (an empty first page claiming more); otherwise it returns every record of the pages read, the number of pages read, and a `starting_after` cursor per extra request equal to the id of the last record held before it |
| Paging.PagesFetchedStops | src/lib/metrics.ts:24-34 | the loop asks for another page after every page it reads except the last, and does not ask after the last |
| Paging.StopsAt | src/lib/metrics.ts:24-34 | the number of pages read is the first page after which the loop condition fails |
| Paging.PageCapBound | src/app/api/debug-subscriptions/route.ts:17 | a `pageCount < m` loop reads at most m pages |
| Paging.UnboundedReadsAll | src/lib/metrics.ts:24-34 | an uncapped loop reads every page up to the first without `has_more`, and returns all their records |
| Paging.ItemCapStops | src/lib/metrics.ts:202-212 | an item-capped loop stops only when the last page has no more or 1000 records are held, and before that it held fewer than 1000 |
| Paging.ListingError | src/lib/metrics.ts:28 | reading the cursor fails exactly when the first page is empty yet says `has_more` and the cap allows a second request |
| Paging.CursorsExtend | src/lib/metrics.ts:28 | each new cursor is the id of the last record held so far |
| Metrics.Mrr | src/lib/metrics.ts:43-46 | MRR is a multiple of 149 kr, and dividing by 149 gives back the member count |
| Metrics.GetCurrentMembers | src/lib/metrics.ts:12-38 | the member count is the number of active subscriptions over all pages, or the listing's error |
| Metrics.CalculateMrr | src/lib/metrics.ts:43-46 | MRR is 149 times the number of active subscriptions, or the listing's error |
| Metrics.MembersAtStart | src/lib/metrics.ts:76-78 | at most every active subscription counts, and all count exactly when all were created before the month started |
| Metrics.MembersAtStartMonotone | src/lib/metrics.ts:76-78 | a later month start never counts fewer members |
| Metrics.GetMembersAtStartOfMonth | src/lib/metrics.ts:51-81 | the result is the count of active subscriptions created before the month start, over all pages |
| Metrics.CountEvents | src/lib/metrics.ts:86-119 | the sign-up and cancellation counts are the number of events over all pages |
| Metrics.ChurnRate | src/lib/metrics.ts:162-171 | churn is 0 without members at the start; otherwise it is cancellations as a percentage of them, never negative, and at most 100 exactly when cancellations do not exceed those members |
| Metrics.GrowthRate | src/lib/metrics.ts:176-187 | growth is 0 without members at the start; otherwise it is (sign-ups − cancellations) as a percentage of them, negative exactly when cancellations exceed sign-ups |
| Metrics.GrowthIsSignupsLessChurn | src/lib/metrics.ts:162-187 | growth equals the sign-up rate minus the churn rate |
| Metrics.CalculateTotalRevenue | src/lib/metrics.ts:192-219 | total revenue in kroner is the sum of `amount_paid` in øre over the invoices read (capped at 1000) divided by 100 |
| Metrics.GetDashboardMetrics | src/lib/metrics.ts:224-254 | the dashboard fails exactly when one of its four listings fails; otherwise the member count is the active listing's size, MRR is 149 per member, total revenue is the capped invoice sum in kroner, sign-ups and cancellations are the sizes of their event listings, and churn and growth are computed from those counts and the members at the start of the month |
| Metrics.MembersInMonth | src/lib/metrics.ts:304-315 | at most every subscription counts, and all count exactly when each was active in that month |
| Metrics.MembersInMonthGrows | src/lib/metrics.ts:304-315 | with no cancellations, a later month never has fewer members |
| Metrics.Trends | src/lib/metrics.ts:296-324 | twelve points, oldest first; point j is the month 11 − j months back, with its member count and revenue 149 per member |
| Metrics.GetGrowthTrends | src/lib/metrics.ts:260-329 | twelve points over all fetched subscriptions, oldest first, each with its month label, its member count and revenue 149 per member; or the listing's error |
| Metrics.EmailFor | src/lib/metrics.ts:354-366 | the feed email is never empty; it is "Unknown" for a missing or deleted customer, and otherwise it is the customer's email; an expanded customer's non-empty email, or a looked-up undeleted customer's non-empty email, is shown as is |
| Metrics.NewerIsStrictWeakOrder | src/lib/metrics.ts:405 | newest-first comparison is a strict weak order |
| Metrics.RecentActivity | src/lib/metrics.ts:334-409 | the feed is the 20 newest sign-ups and cancellations (or all of them if fewer), newest first; every entry is well formed and drawn from the events, and none left out is newer than one kept |
| Metrics.CollectActivities | src/lib/metrics.ts:368-401 | the collected list is every sign-up activity followed by every cancellation activity |
| Metrics.PushSignups | src/lib/metrics.ts:368-374 | the loop appends one sign-up activity per event, in order |
| Metrics.PushCancels | src/lib/metrics.ts:396-401 | the loop appends one cancellation activity per event, in order |
| Metrics.ActivitiesWellFormed | src/lib/metrics.ts:354-374 | every collected activity has a non-empty email and the right type |
| Cache.CacheKey | src/lib/cache.ts:13 | the stored key is the prefix followed by the caller's key |
| Cache.CacheKeyInjective | src/lib/cache.ts:13 | different keys never share a stored entry |
| Cache.TtlSeconds | src/lib/cache.ts:25 | a missing or zero TTL gives the 30-minute (1800-second) default; otherwise it is the millisecond TTL divided by 1000, rounded down |
| Cache.SubSecondTtlIsZero | src/lib/cache.ts:25 | a TTL under 1000 ms becomes 0 seconds |
| Cache.Hit | src/lib/cache.ts:13-17 | a live non-null entry is returned without calling the fetcher |
| Cache.Miss | src/lib/cache.ts:19-28 | on a miss with a working store, the fetcher runs once and its value is served for TTL seconds |
| Cache.StoredNullIsMiss | src/lib/cache.ts:15 | a stored null counts as a miss |
| Cache.Outcomes | src/lib/cache.ts:6-34 | at most two fetcher calls; none exactly on a hit; the result is the last call's; only the key's own entry may change |
| Cache.FailureAfterFetchCallsTwice | src/lib/cache.ts:29-33 | when the fetcher or `setex` fails after a miss, the fallback calls the fetcher again and the store is unchanged |
| Cache.SubSecondTtlNeverCaches | src/lib/cache.ts:25-26 | with a sub-second TTL nothing is ever stored, and every call fetches twice |
| Cache.SecondCallHits | src/lib/cache.ts:13-28 | a second call within the TTL returns the first call's value without fetching |
| Cache.ExpiredCallFetches | src/lib/cache.ts:13-26 | once the TTL of a stored entry has run out, the entry reads as null and the next call fetches |
| Cache.Remove | src/lib/cache.ts:37-43 | deleting a key removes exactly that entry |
| Cache.ClearedIsMiss | src/lib/cache.ts:37-43 | after `clearCache` the next `withCache` fetches |
| Cache.KvCache.constructor | src/lib/cache.ts:1-3 | a new cache is empty |
| Cache.KvCache.WithCache | src/lib/cache.ts:6-34 | the store and result after `withCache` are those of the specification `WithCacheSpec` |
| Cache.KvCache.ClearCache | src/lib/cache.ts:37-43 | the key is deleted, or the store is unchanged when the delete fails |
| Cache.KvCache.ClearCachePattern | src/lib/cache.ts:46-54 | pattern clearing only logs and changes nothing |
| Cache.KvCache.Tick | src/lib/cache.ts:25-26 | time passes and the entries stay |
| Cache.ClearedKeys | src/app/api/cache/clear/route.ts:17-25 | the clear route names four keys |
| Cache.ClearedKeysMissMetrics | src/app/api/cache/clear/route.ts:20-25 | none of the route's keys is a key that the metrics functions use |
| Cache.ClearRouteKeepsMetrics | src/app/api/cache/clear/route.ts:27 | clearing through the route leaves every metrics entry as it was |
| Auth.InAllowedEmails | src/lib/auth.ts:22 | an email is in the allow-list exactly when it is one of the comma-separated pieces once trimmed |
| Auth.SignIn | src/lib/auth.ts:14-29 | sign-in is refused when the variable is unset or empty, and otherwise accepted exactly when the email is given and equals a trimmed piece |
| Auth.SignInFromEntries | src/lib/auth.ts:22-29 | a variable written as comma-joined entries admits exactly the non-empty emails equal to a trimmed entry |
| Auth.AddedEntriesKeepAccepted | src/lib/auth.ts:22-29 | appending entries never refuses an email that was accepted |
| Auth.Session.constructor | src/lib/auth.ts:31-36 | builds the session the callback receives |
| Auth.Token.constructor | src/lib/auth.ts:37-42 | builds the token the callback receives |
| Auth.SessionCallback | src/lib/auth.ts:31-36 | with a user, the session's user id becomes the token's subject or ""; otherwise nothing changes; the same session is returned |
| Auth.JwtCallback | src/lib/auth.ts:37-42 | with a user, the token's id becomes the user's id; otherwise nothing changes; the same token is returned |
| TwoFactor.Pruned | src/lib/2fa.ts:98 | the kept devices are exactly the unexpired ones |
| TwoFactor.AnyTrusted | src/lib/2fa.ts:107-118 | a fingerprint is trusted exactly when some device with it is unexpired |
| TwoFactor.PruneKeepsTrust | src/lib/2fa.ts:98 | pruning expired devices never changes which fingerprints are trusted now or later |
| TwoFactor.WithDevice | src/lib/2fa.ts:89-104 | storing a device keeps the unexpired devices and appends the new one last |
| TwoFactor.WithDeviceTrust | src/lib/2fa.ts:89-118 | after storing, a fingerprint is trusted exactly when it was before or is the new unexpired device's |
| TwoFactor.WithoutFingerprint | src/lib/2fa.ts:131-140 | removal drops exactly the devices with that fingerprint and keeps the rest |
| TwoFactor.RemovalTrust | src/lib/2fa.ts:131-140 | a removed fingerprint is no longer trusted, and every other fingerprint's trust is unchanged |
| TwoFactor.TrustedIsListed | src/lib/2fa.ts:107-128 | a fingerprint is trusted exactly when the list of trusted devices shows it |
| TwoFactor.GenerateBackupCodes | src/lib/2fa.ts:51-58 | eight codes when the count is left out, otherwise `count` codes (none for a count below 1); code i is the upper-cased hex of draw i, with no lower-case letter |
| TwoFactor.TwoFactorStore.constructor | src/lib/2fa.ts:73-80 | a new store holds no records and no devices |
| TwoFactor.TwoFactorStore.Get2FAData | src/lib/2fa.ts:78-80 | the user's record, or none when absent |
| TwoFactor.TwoFactorStore.Is2FAEnabled | src/lib/2fa.ts:83-86 | enabled exactly when a record exists and says enabled |
| TwoFactor.TwoFactorStore.IsDeviceTrusted | src/lib/2fa.ts:107-118 | trusted exactly when one of the user's devices has the fingerprint and is unexpired |
| TwoFactor.TwoFactorStore.GetTrustedDevices | src/lib/2fa.ts:121-128 | the list is exactly the user's unexpired devices |
| TwoFactor.TwoFactorStore.Store2FAData | src/lib/2fa.ts:73-75 | the user's record is replaced and nothing else changes |
| TwoFactor.TwoFactorStore.StoreTrustedDevice | src/lib/2fa.ts:89-104 | the user's devices become the pruned list plus the new device, and nothing else changes |
| TwoFactor.TwoFactorStore.RemoveTrustedDevice | src/lib/2fa.ts:131-140 | the user's devices lose those with the fingerprint, and nothing else changes |
| TwoFactor.TwoFactorStore.Disable2FA | src/lib/2fa.ts:143-146 | the user's record and devices are deleted, leaving 2FA disabled and no device |
| TwoFactorVerify.Decide | src/app/api/2fa/verify/route.ts:15-51 | 401 without a session email; 400 without a code; 400 when 2FA is not enabled; otherwise accepted exactly when the upper-cased code is a backup code or the TOTP check passes; every rejection is not 200 |
| TwoFactorVerify.Consume | src/app/api/2fa/verify/route.ts:54-62 | the used code is removed, all other codes stay, and the list shrinks exactly when the code was in it |
| TwoFactorVerify.HeaderOr | src/app/api/2fa/verify/route.ts:65-74 | a missing header becomes the non-empty "unknown" |
| TwoFactorVerify.NewDevice | src/app/api/2fa/verify/route.ts:65-80 | the device is created now, expires 30 days later, has the SHA-256 fingerprint of user agent and IP, and its name is the first 100 characters of the user agent (all of it if shorter) |
| TwoFactorVerify.Verify | src/app/api/2fa/verify/route.ts:12-91 | rejections change nothing; on success, a backup code is consumed from the record, a TOTP leaves records alone, and a trusted device is stored and then stays trusted for 30 days |
| TwoFactorVerify.VerifyAsWritten | src/app/api/2fa/verify/route.ts:4-62 | as written, a valid backup code ends in the 500 reply with nothing changed, because `store2FAData` is not imported; rejections and a valid TOTP code change the store as in `Verify`, storing a trusted device only when asked |
| TwoFactorVerify.BackupCodeReachesMissingImport | src/app/api/2fa/verify/route.ts:54-58 | a lower-case backup code of an enabled user reaches the call to the missing import |
| DebugSubscriptions.AtMostFiftyPages | src/app/api/debug-subscriptions/route.ts:17 | the route reads at most 50 pages |
| DebugSubscriptions.StatusCounts | src/app/api/debug-subscriptions/route.ts:31-34 | one count per status seen, in first-seen order, each the number of subscriptions with that status, summing to all of them |
| DebugSubscriptions.ModeCountsSum | src/app/api/debug-subscriptions/route.ts:37-38 | test-mode and live-mode counts add up to all subscriptions |
| DebugSubscriptions.OurActiveIgnoresMode | src/app/api/debug-subscriptions/route.ts:51-55 | flipping live mode never changes how many are counted active |
| DebugSubscriptions.PayingTrialsPartition | src/app/api/debug-subscriptions/route.ts:51-58 | paying members and trials split the active ones |
| DebugSubscriptions.UniqueCustomers | src/app/api/debug-subscriptions/route.ts:100-116 | the unique customers are exactly those of some subscription, never more than the subscriptions |
| DebugSubscriptions.UniqueCustomersSplit | src/app/api/debug-subscriptions/route.ts:100-116 | paying and trial customers together are the active customers |
| DebugSubscriptions.CustomerKept | src/app/api/debug-subscriptions/route.ts:100-116 | a filtered subscription's customer is among the filtered customers |
| DebugSubscriptions.CustomerFromPart | src/app/api/debug-subscriptions/route.ts:100-116 | a filtered customer is a customer of the whole list |
| DebugSubscriptions.MonthlyAmount | src/app/api/debug-subscriptions/route.ts:158-171 | an item counts only with a truthy unit amount; a yearly price is divided by 12, a multi-month price by its interval count, anything else taken as is |
| DebugSubscriptions.CustomerMrr | src/app/api/debug-subscriptions/route.ts:152-180 | per-customer MRR is the sum, over that customer's paying subscriptions, of the monthly amount of each subscription's first item, and the total is the sum over all customers |
| DebugSubscriptions.TrackedStep | src/app/api/debug-subscriptions/route.ts:152-180 | one subscription's first item extends the per-customer sums and the total |
| DebugSubscriptions.BucketOf | src/app/api/debug-subscriptions/route.ts:183-206 | each MRR falls in exactly one bucket with the source's bounds (0, below 100, 100–149, 149, 150–500, above 500) |
| DebugSubscriptions.Bucketize | src/app/api/debug-subscriptions/route.ts:183-206 | each bucket count is the number of customers whose MRR falls in it, and the counts add up to the number of customers |
| DebugSubscriptions.BucketStep | src/app/api/debug-subscriptions/route.ts:190-205 | counting one more customer bumps exactly its bucket |
| DebugSubscriptions.FourWeekSplit | src/app/api/debug-subscriptions/route.ts:226-230 | subscriptions created in the last four weeks and those created before add up to all paying ones |
| MemberInsights.CanceledSubs | src/app/api/member-insights/route.ts:38-40 | exactly the live canceled subscriptions with a cancellation time |
| MemberInsights.LifetimeOf | src/app/api/member-insights/route.ts:58-68 | each lifetime in months falls in exactly one of the five buckets |
| MemberInsights.ChurnByLifetime | src/app/api/member-insights/route.ts:43-71 | each lifetime bucket counts the canceled subscriptions in it; the counts add up to all of them; the day total is the sum of lifetimes |
| MemberInsights.LifetimeStep | src/app/api/member-insights/route.ts:58-68 | one subscription bumps exactly its bucket |
| MemberInsights.ChurnStep | src/app/api/member-insights/route.ts:43-71 | one loop step keeps the counts and the day total right |
| MemberInsights.AvgLifetimeDays | src/app/api/member-insights/route.ts:73 | the average is the day total divided by the count, or 0 for none |
| MemberInsights.BumpCounts | src/app/api/member-insights/route.ts:76-91 | adding a subscription to its cohort keeps every cohort's total and canceled counts right |
| MemberInsights.CohortChurn | src/app/api/member-insights/route.ts:76-97 | one cohort per key of the live subscriptions, with its total and canceled counts; churn is the canceled percentage, between 0 and 100; totals add up to all live subscriptions |
| MemberInsights.WithChurnRates | src/app/api/member-insights/route.ts:94-97 | each cohort gets the canceled percentage as its churn rate and keeps its counts |
| MemberInsights.KeyAfterOrder | src/app/api/member-insights/route.ts:100-101 | sorting by key descending is a strict weak order |
| MemberInsights.Latest | src/app/api/member-insights/route.ts:100-102 | the first n entries (all of them if fewer), drawn from the input, keys descending; none left out has a later key than one kept |
| MemberInsights.ProfileEmail | src/app/api/member-insights/route.ts:113-117 | the email is non-empty; it is "unknown" unless it is the expanded, undeleted customer's email, and an expanded, undeleted customer's non-empty email is always the one recorded |
| MemberInsights.Customers | src/app/api/member-insights/route.ts:107-126 | one profile per customer of the live subscriptions, in first-seen order, taken from its first subscription |
| MemberInsights.DomainOf | src/app/api/member-insights/route.ts:150 | a domain is non-empty, has no '@' and is lower case |
| MemberInsights.DomainOfAddress | src/app/api/member-insights/route.ts:150 | the domain of an address is its part after the first '@', lower-cased |
| MemberInsights.ClassifyKnown | src/app/api/member-insights/route.ts:145-162 | one more email bumps its domain's count and either the private or the business count |
| MemberInsights.ClassifyBy | src/app/api/member-insights/route.ts:145-162 | the domain counts, private count and business count are those of the emails that have a domain |
| MemberInsights.ClassifyEmails | src/app/api/member-insights/route.ts:145-162 | private and business counts add up to the profiles with a domain, each domain counted by its profiles |
| MemberInsights.TopDomains | src/app/api/member-insights/route.ts:165-167 | 10 domains (all of them if fewer), drawn from the counts, most frequent first; none left out is more frequent than one kept |
| MemberInsights.SignupTrends | src/app/api/member-insights/route.ts:170-179 | sign-ups are counted per creation month and add up to all customers; the last 12 months are the latest keys |
| MemberInsights.ConvertedAreTrials | src/app/api/member-insights/route.ts:182-196 | converted trials never outnumber trials |
| MemberInsights.TrialConversionRate | src/app/api/member-insights/route.ts:182-196 | conversion is the converted percentage of trials, between 0 and 100, and 0 without trials |
| MemberInsights.TotalAtRisk | src/app/api/member-insights/route.ts:204-220 | at risk is scheduled cancellations plus past-due, and equals the number of subscriptions that are one or the other |
| CommercialInsights.AtMostTenPages | src/app/api/commercial-insights/route.ts:49 | the subscription listing reads at most 10 pages |
| CommercialInsights.AddItems | src/app/api/commercial-insights/route.ts:78-95 | a subscription's items are folded into the totals, or the null price is reported |
| CommercialInsights.AddAllAccumulated | src/app/api/commercial-insights/route.ts:81-94 | the fold gives monthly and yearly revenue and counts equal to the sums over monthly and yearly items |
| CommercialInsights.RevenueStep | src/app/api/commercial-insights/route.ts:66-96 | one subscription keeps the loop's totals equal to the fold over the items seen |
| CommercialInsights.NullPriceFound | src/app/api/commercial-insights/route.ts:81 | an item without a price makes the whole breakdown fail |
| CommercialInsights.RevenueBreakdown | src/app/api/commercial-insights/route.ts:63-110 | fails exactly when some live item has no price; otherwise monthly and yearly revenue and counts are the sums over the live items, and the active count is the number of live subscriptions |
| CommercialInsights.IntervalCountsBound | src/app/api/commercial-insights/route.ts:86-94 | monthly and yearly items never outnumber the items |
| CommercialInsights.MonthsElapsed | src/app/api/commercial-insights/route.ts:101 | months elapsed is the month index plus one, between 1 and 12 |
| CommercialInsights.RevenueByMonth | src/app/api/commercial-insights/route.ts:144-158 | each month's revenue is the sum of its paid live charges, and the months add up to the year-to-date revenue |
| CommercialInsights.YtdRevenue | src/app/api/commercial-insights/route.ts:144-146 | with no paid live charge the year-to-date revenue is 0 |
| CommercialInsights.YtdRevenueSnoc | src/app/api/commercial-insights/route.ts:144-146 | each charge adds its amount in kroner when paid and live, and nothing otherwise |
| CommercialInsights.AvgRevenuePerMonth | src/app/api/commercial-insights/route.ts:149 | average times months elapsed is the year-to-date revenue |
| CommercialInsights.FirstToLast | src/app/api/commercial-insights/route.ts:161-170 | growth from the first value to the last as a percentage, 0 with fewer than two values or a first value that is not positive |
| CommercialInsights.GrowthRateByLabel | src/app/api/commercial-insights/route.ts:161-170 | as written: the months sorted by label text, no growth with fewer than two |
| CommercialInsights.GrowthRateLabelOrder | src/app/api/commercial-insights/route.ts:161-170 | January 1000 and February 2000 give −50% by label order but +100% in calendar order |
| CommercialInsights.MonthBeforeOrder | src/app/api/commercial-insights/route.ts:164 | calendar order of month labels is a strict weak order |
| CommercialInsights.Chronological | src/app/api/commercial-insights/route.ts:164 | the same months, in calendar order |
| CommercialInsights.GrowthRate | src/app/api/commercial-insights/route.ts:161-170 | growth from the earliest month to the latest, 0 when the earliest is not positive or there are fewer than two months |
| CommercialInsights.RouteTtlsNeverCache | src/app/api/commercial-insights/route.ts:30 | as written: TTLs of 300 and 600 ms become 0 s, so nothing is stored and every call fetches twice |
| CommercialInsights.MinuteTtlsCache | src/app/api/commercial-insights/route.ts:113 | with the intended 5 and 10 minutes, the second call within the TTL is a hit |
| Ads.TextOf | src/app/dashboard/ads/page.tsx:90-102 | a missing or falsy cell reads as "", text as itself, a non-zero number as its rendering |
| Ads.NumberOr0 | src/app/dashboard/ads/page.tsx:90-102 | a missing cell reads as 0, a number as itself, text as its parse |
| Ads.ParseRow | src/app/dashboard/ads/page.tsx:90-102 | a missing column gives "" or 0; cost per result is absent exactly when its cell is empty |
| Ads.TotalStats | src/app/dashboard/ads/page.tsx:132-140 | each total is the sum of that field over the rows |
| Ads.Cpa | src/app/dashboard/ads/page.tsx:142 | no CPA without results; otherwise CPA times results is the spend |
| Ads.Cpm | src/app/dashboard/ads/page.tsx:143 | 0 without impressions; otherwise CPM times impressions is 1000 times the spend, and it is 0 exactly when nothing was spent |
| Ads.SumByKey | src/app/dashboard/ads/page.tsx:147-164 | the per-key sums are those of the rows grouped by key |
| Ads.SummedEntries | src/app/dashboard/ads/page.tsx:147-164 | one entry per distinct key in first-seen order, each holding the totals of that key's rows |
| Ads.StatsAddUp | src/app/dashboard/ads/page.tsx:146-195 | the per-ad or per-platform spend, reach, impressions and results add up to the overall totals |
| Ads.StatsBy | src/app/dashboard/ads/page.tsx:146-169 | the per-key table has one entry per key with its sums, CPA and CPM |
| Ads.WeekBeforeOrder | src/app/dashboard/ads/page.tsx:226 | week-key order is a strict weak order |
| Ads.WeeklyData | src/app/dashboard/ads/page.tsx:198-226 | one entry per week, in ascending week order |
| Ads.WeeksInDistinct | src/app/dashboard/ads/page.tsx:198-226 | no two weekly entries share a week |
| Ads.BestWeek | src/app/dashboard/ads/page.tsx:229-237 | the best week is one of the weeks or the empty placeholder the reduce starts from |
| Ads.BestWeekIsEarliestMinimum | src/app/dashboard/ads/page.tsx:229-237 | the best week has the lowest CPA, the earliest of those, or is the placeholder when no week has a CPA |
| Ads.CpaThresholds | src/app/dashboard/ads/page.tsx:246-265 | a CPA change above 100% or 50% means the current CPA is above twice or 1.5 times the best |
| Ads.CpmThreshold | src/app/dashboard/ads/page.tsx:268-279 | a CPM change above 30% means the current CPM is above 1.3 times the previous |
| Ads.ConversionThresholds | src/app/dashboard/ads/page.tsx:282-301 | a results change below −50% or −25% means the current results are below half or three quarters of the previous |
| Ads.Change | src/app/dashboard/ads/page.tsx:250 | the change is the percentage difference from the old value |
| Ads.CpaAlertFor | src/app/dashboard/ads/page.tsx:246-265 | an alert needs a current week and truthy CPAs; danger exactly above twice the best CPA, warning exactly between 1.5 and 2 times |
| Ads.CpmAlertFor | src/app/dashboard/ads/page.tsx:268-279 | alerts exactly when the CPM rose above 1.3 times the previous; after a zero CPM, alerts exactly when the CPM is now positive, without a finite change |
| Ads.ConversionAlertFor | src/app/dashboard/ads/page.tsx:282-301 | only with previous results; danger exactly below half, warning exactly from half up to three quarters |
| Ads.GenerateAlerts | src/app/dashboard/ads/page.tsx:242-313 | the CPA, CPM and conversion alerts that apply, in that order, then one "Stop" alert per wasted ad |
| Ads.StopAlerts | src/app/dashboard/ads/page.tsx:304-313 | one "Stop" alert per wasted ad, in ad order |
| Ads.StatusOf | src/app/dashboard/ads/page.tsx:718-724 | STOP exactly for wasted ads (spend above 300 kr, no results); TOP exactly for the other ads with a truthy CPA under 100 kr; OK exactly for the rest |
| Ads.StopStatusMatchesAlerts | src/app/dashboard/ads/page.tsx:304-313 | every ad shown as STOP has its alert, and every "Stop" alert names an ad shown as STOP |
| Ads.CheaperFirstOrder | src/app/dashboard/ads/page.tsx:704 | the table's comparison is a strict weak order |
| Ads.SortedAds | src/app/dashboard/ads/page.tsx:704 | the same ads, by CPA ascending, with ads lacking a CPA ranked as 999999 |
| Rates.Percent | src/lib/metrics.ts:162-171 | a part as a percentage of a whole: 0 for an empty whole, otherwise part × 100 / whole, never negative, and at most 100 exactly when the part does not exceed the whole |
| Sorting.SortBy | src/app/dashboard/ads/page.tsx:704 | `Array.prototype.sort` returns a permutation of its input (sortedness under a strict weak order is `Sorting.SortedUnderOrder`) |
| Sorting.SortedUnderOrder | src/app/dashboard/ads/page.tsx:704 | under a strict weak order the sorted sequence is in order |
| Sorting.SortByStable | src/app/api/member-insights/route.ts:166 | under a strict weak order the sort is stable: the elements tied with any given element keep their input order, which decides which tied domains survive the cut to 10 |
| Sorting.TopN | src/app/api/member-insights/route.ts:165-167 | sort then `slice(0, n)`: min(n, length) elements drawn from the input, in order, none left out ranking before one kept |
| Strings.Split | src/lib/auth.ts:22 | `split` gives at least one piece and no piece contains the separator |
| Strings.JoinSplit | src/lib/auth.ts:22 | joining the pieces gives back the string |
| Strings.SplitJoin | src/lib/auth.ts:22 | splitting joined pieces without the separator gives them back |
| Strings.Trim | src/lib/auth.ts:22 | `trim` gives the middle of the string between leading and trailing white space |

## Left out

- Network calls to Stripe, KV, Meta and Resend. Stripe listings are given
  as page sequences, and KV is a map in memory.
- The `withCache` wrapping of each metric. The cache is modelled once in
  `Cache`, and the metric methods model the fetch functions.
- Concurrency. `Promise.all` is modelled as running in sequence.
- Floating point. Amounts are real numbers, so neither rounding,
  `toFixed`/`Math.round` nor the display strings are modelled.
- Reading the `.xlsx` workbook (`XLSX.read`, `sheet_to_json`) is not modelled; the rows are inputs, each cell missing, text or a number. `Number()` on cell text is a parameter, and NaN is not modelled.
- Ads.WeeklyData: the week key `weekOf` is a total parameter, so the model does not capture the RangeError that `toISOString()` throws during rendering for a row whose date is empty (a missing "Reporting starts" column) or unparseable.
- Ads.StatsBy: groups are kept in first-seen key order, as a `Map` would keep them; `Object.values` on the accumulator object lists integer-like keys (an ad named "2024") first, in ascending numeric order, so for such names the model does not capture the order of the per-ad table ties or of the "Stop" alerts.
- Calendar arithmetic is given as function parameters:
  - month labels and month windows;
  - the Sunday week key;
  - lifetime in months and days;
  - cohort keys;
  - "now".
- `localeCompare` is modelled as code-point order (`Sorting.StrLess`) in
  `MemberInsights.KeyAfter`, `CommercialInsights.LabelBefore` and
  `Ads.WeekBefore`. The keys compared there share one fixed shape (ISO
  dates, "YYYY-MM" keys, "Mon YYYY" labels), so the model does not capture
  how a locale collation would order keys of other shapes.
- Sorting with `Array.prototype.sort` is modelled as a pure function that
  returns the sorted sequence, not as an update in place.
- `Strings.ToLower`, `Strings.ToUpper`: only ASCII letters are case-mapped,
  not the whole of Unicode.
- Cryptography is given as parameters:
  - TOTP verification;
  - the SHA-256 fingerprint;
  - `crypto.randomBytes` draws.
- KV errors in the 2FA helpers are not modelled.
- The verify route's `request.json()` failure and a code that is not a
  string are not modelled.
- Unguarded divisions are not modelled:
  - the CPM change when the previous CPM is 0 (ads page 269, where the alert
    carries no finite change);
  - debug route 340;
  - member insights 228 (`privatePercentage` with no customers);
  - commercial insights 174 (`projectedRevenue12Months` with no months).
- `projectedRevenue12Months`, payouts and balance in commercial insights are
  not modelled.
- In the debug route, the `subscriptionsByInterval`/`ByPrice` counts and the
  invoice, coupon and diagnostic lists are not modelled.
- The period resolver of the cache-clear route, LTV and retention are not part
  of this model.
- `Paging.FetchAll`: a request past the last supplied page is answered by an
  empty page without `has_more`.
- The session callback's `session.user` fields are flattened onto `Session`.

## Findings

| source | as written | input that shows it | evidently intended | confidence | as-written member | corrected member |
|---|---|---|---|---|---|---|
| src/app/api/commercial-insights/route.ts:161-170 | growth compares the first and last months after sorting "MMM yyyy" labels as text | revenue 1000 in "Jan 2025" and 2000 in "Feb 2025" gives −50% | growth from the earliest month to the latest in calendar order (+100%) | not executed | CommercialInsights.GrowthRateLabelOrder | CommercialInsights.GrowthRate |
| src/app/api/commercial-insights/route.ts:30 | `withCache` TTLs of 300 and 600 are milliseconds, which `cache.ts:25` turns into 0 seconds | any call on an empty cache fetches twice and stores nothing | 5- and 10-minute caching (300000 and 600000 ms) | not executed | CommercialInsights.RouteTtlsNeverCache | CommercialInsights.MinuteTtlsCache |
| src/app/api/2fa/verify/route.ts:4-10 | `store2FAData` is called at line 58 but not imported, so a backup code ends in the 500 reply and is never consumed | enabled user with backup codes ["ABCD1234", "EF567890"] entering "abcd1234" | consume the backup code and reply success | not executed | TwoFactorVerify.VerifyAsWritten | TwoFactorVerify.Verify |
