/** The Stripe records the dashboard reads, reduced to the fields it uses.
    Amounts are integers in øre (hundredths of a krone); timestamps are Unix
    seconds. Fields Stripe may leave null are `Option`s. */
module Billing {
  import opened Wrappers

  datatype Status = Incomplete | IncompleteExpired | Trialing | Active | PastDue | Canceled | Unpaid | Paused

  datatype Interval = Day | Week | Month | Year

  datatype Recurring = Recurring(interval: Interval, intervalCount: int)

  datatype Price = Price(unitAmount: Option<int>, recurring: Option<Recurring>)

  /** `price.recurring?.interval || "month"`: a price without a recurring part counts as monthly. */
  function IntervalOf(p: Price): Interval
  {
    if p.recurring.None? then Month else p.recurring.value.interval
  }

  datatype Item = Item(price: Option<Price>, quantity: Option<int>)

  /** A customer object; a deleted customer carries no email. */
  datatype CustomerRecord = CustomerRecord(id: string, deleted: bool, email: Option<string>)

  /** `sub.customer`: an id, or the customer object when the listing expands it. */
  datatype CustomerRef = CustomerId(id: string) | Expanded(record: CustomerRecord)

  datatype Subscription = Subscription(
    id: string,
    customer: CustomerRef,
    status: Status,
    created: int,
    canceledAt: Option<int>,
    cancelAtPeriodEnd: bool,
    livemode: bool,
    items: seq<Item>,
    trialEnd: Option<int>)

  /** A `customer.subscription.created` or `.deleted` event. */
  datatype Event = Event(id: string, created: int, customer: CustomerRef)

  datatype Invoice = Invoice(id: string, amountPaid: int)

  datatype Charge = Charge(id: string, amount: int, paid: bool, livemode: bool, created: int)

  /** `typeof sub.customer === 'string' ? sub.customer : sub.customer.id` */
  function CustomerIdOf(c: CustomerRef): string
  {
    match c
    case CustomerId(id) => id
    case Expanded(record) => record.id
  }

  function SubscriptionId(s: Subscription): string { s.id }
  function EventId(e: Event): string { e.id }
  function InvoiceId(i: Invoice): string { i.id }
  function ChargeId(c: Charge): string { c.id }

  /** JavaScript truthiness of an optional timestamp or amount: `null` and 0 are falsy. */
  predicate Truthy(x: Option<int>)
  {
    x.Some? && x.value != 0
  }
}
