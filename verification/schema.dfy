/** The entity shapes of the four tables (users, subscription plans,
    subscriptions, payment issues), their insert shapes and status domains.

    Money columns are `decimal(10, 2)` and are held here as integer cents,
    signed: nothing in the insert schema or the store rejects a negative price;
    timestamps are integer milliseconds since the epoch. */
module Schema {
  import opened Wrappers

  type Id = int
  type Cents = int
  type Time = int

  datatype BillingCycle = Monthly | Quarterly | Annually
  datatype SubscriptionStatus = Active | Cancelled | Trial | PastDue
  datatype IssueStatus = Pending | Resolved | Failed

  /** The text stored for a billing cycle; it reads back as the same cycle. */
  function BillingCycleName(c: BillingCycle): (s: string)
    ensures ParseBillingCycle(s) == Some(c)
  {
    match c
    case Monthly => "monthly"
    case Quarterly => "quarterly"
    case Annually => "annually"
  }

  function ParseBillingCycle(s: string): Option<BillingCycle> {
    if s == "monthly" then Some(Monthly)
    else if s == "quarterly" then Some(Quarterly)
    else if s == "annually" then Some(Annually)
    else None
  }

  /** Only the three names parse, and each parses back to its own text. */
  lemma ParseBillingCycleInverse(s: string)
    ensures ParseBillingCycle(s).Some? ==> BillingCycleName(ParseBillingCycle(s).value) == s
  {
  }

  /** The text stored for a subscription status; it reads back as the same status. */
  function SubscriptionStatusName(st: SubscriptionStatus): (s: string)
    ensures ParseSubscriptionStatus(s) == Some(st)
  {
    match st
    case Active => "active"
    case Cancelled => "cancelled"
    case Trial => "trial"
    case PastDue => "past_due"
  }

  function ParseSubscriptionStatus(s: string): Option<SubscriptionStatus> {
    if s == "active" then Some(Active)
    else if s == "cancelled" then Some(Cancelled)
    else if s == "trial" then Some(Trial)
    else if s == "past_due" then Some(PastDue)
    else None
  }

  lemma ParseSubscriptionStatusInverse(s: string)
    ensures ParseSubscriptionStatus(s).Some? ==> SubscriptionStatusName(ParseSubscriptionStatus(s).value) == s
  {
  }

  /** The text stored for a payment-issue status; it reads back as the same status. */
  function IssueStatusName(st: IssueStatus): (s: string)
    ensures ParseIssueStatus(s) == Some(st)
  {
    match st
    case Pending => "pending"
    case Resolved => "resolved"
    case Failed => "failed"
  }

  function ParseIssueStatus(s: string): Option<IssueStatus> {
    if s == "pending" then Some(Pending)
    else if s == "resolved" then Some(Resolved)
    else if s == "failed" then Some(Failed)
    else None
  }

  lemma ParseIssueStatusInverse(s: string)
    ensures ParseIssueStatus(s).Some? ==> IssueStatusName(ParseIssueStatus(s).value) == s
  {
  }

  datatype User = User(
    id: Id,
    username: string,
    email: string,
    password: string,
    stripeCustomerId: Option<string>,
    stripeSubscriptionId: Option<string>,
    createdAt: Time)

  /** Insert shape of a user: the row without `id` and `createdAt`. */
  datatype NewUser = NewUser(
    username: string,
    email: string,
    password: string,
    stripeCustomerId: Option<string>,
    stripeSubscriptionId: Option<string>)

  datatype Plan = Plan(
    id: Id,
    name: string,
    description: Option<string>,
    price: Cents,
    billingCycle: BillingCycle,
    features: seq<string>,
    stripePriceId: Option<string>,
    isActive: bool,
    createdAt: Time)

  /** Insert shape of a plan: no `id`, no `createdAt`; `features` and
      `isActive` have column defaults and so may be absent. */
  datatype NewPlan = NewPlan(
    name: string,
    description: Option<string>,
    price: Cents,
    billingCycle: BillingCycle,
    features: Option<seq<string>>,
    stripePriceId: Option<string>,
    isActive: Option<bool>)

  /** A subscription references one user and one plan by id. */
  datatype Subscription = Subscription(
    id: Id,
    userId: Id,
    planId: Id,
    status: SubscriptionStatus,
    stripeSubscriptionId: Option<string>,
    currentPeriodStart: Option<Time>,
    currentPeriodEnd: Option<Time>,
    cancelledAt: Option<Time>,
    createdAt: Time,
    updatedAt: Time)

  /** Insert shape of a subscription: no `id`, `createdAt` or `updatedAt`. */
  datatype NewSubscription = NewSubscription(
    userId: Id,
    planId: Id,
    status: SubscriptionStatus,
    stripeSubscriptionId: Option<string>,
    currentPeriodStart: Option<Time>,
    currentPeriodEnd: Option<Time>,
    cancelledAt: Option<Time>)

  /** A payment issue references one subscription and one user by id. */
  datatype PaymentIssue = PaymentIssue(
    id: Id,
    subscriptionId: Id,
    userId: Id,
    reason: string,
    amount: Cents,
    status: IssueStatus,
    retryDate: Option<Time>,
    resolvedAt: Option<Time>,
    createdAt: Time)

  /** Insert shape of a payment issue: no `id`, no `createdAt`. */
  datatype NewPaymentIssue = NewPaymentIssue(
    subscriptionId: Id,
    userId: Id,
    reason: string,
    amount: Cents,
    status: IssueStatus,
    retryDate: Option<Time>,
    resolvedAt: Option<Time>)

  /** The insert shape of an existing plan (what `omit({id, createdAt})`
      keeps), with the defaulted columns given explicitly. */
  function PlanInsertShape(p: Plan): (np: NewPlan)
    ensures np.name == p.name && np.price == p.price && np.billingCycle == p.billingCycle
    ensures np.description == p.description && np.stripePriceId == p.stripePriceId
    ensures np.features == Some(p.features) && np.isActive == Some(p.isActive)
  {
    NewPlan(p.name, p.description, p.price, p.billingCycle, Some(p.features), p.stripePriceId, Some(p.isActive))
  }

  /** The declared `unique()` constraints on username and email. The
      in-memory store does not enforce them; see `Storage.CreateUser`. */
  ghost predicate UniqueLogins(users: map<Id, User>) {
    forall a, b :: a in users && b in users && a != b ==>
      users[a].username != users[b].username && users[a].email != users[b].email
  }
}
