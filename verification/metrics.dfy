/** The derived dashboard read: revenue, active count, churn and
    failed-payment count, recomputed from the whole store on every call. */
module Metrics {
  import opened Schema
  import opened Listing
  import opened Storage
  import Utils
  import Numeric

  /** Revenue is in cents, churn in tenths of a percent. */
  datatype DashboardMetrics = DashboardMetrics(
    totalRevenue: int,
    activeSubscriptions: nat,
    churnTenths: int,
    failedPayments: nat)

  function SubscriptionIdsWithStatus(st: Store, s: SubscriptionStatus): set<Id> {
    set id | id in st.subscriptions && st.subscriptions[id].status == s
  }

  function IssueIdsWithStatus(st: Store, s: IssueStatus): set<Id> {
    set id | id in st.issues && st.issues[id].status == s
  }

  /** What subscription `id` contributes to revenue: its plan's price when
      it is active and the plan exists (soft-deleted plans included). */
  function RevenueOf(st: Store, id: Id): int {
    if id in st.subscriptions && st.subscriptions[id].status == Active
       && st.subscriptions[id].planId in st.plans
    then st.plans[st.subscriptions[id].planId].price
    else 0
  }

  /** No plan carries a negative price. The store does not enforce this. */
  predicate PricesNonNegative(st: Store) {
    forall id :: id in st.plans ==> st.plans[id].price >= 0
  }

  function SubscriptionKeys(st: Store): seq<int> {
    KeysBelow(st.subscriptions, st.nextSubscriptionId)
  }

  function TotalRevenue(st: Store): int {
    Sum(SubscriptionKeys(st), (k: int) => RevenueOf(st, k))
  }

  /** Counting with a status filter over the listing gives the size of the
      set of ids with that status. */
  lemma CountSubscriptionStatus(st: Store, s: SubscriptionStatus)
    requires Valid(st)
    ensures Count(SubscriptionKeys(st), (k: int) => k in st.subscriptions && st.subscriptions[k].status == s)
         == |SubscriptionIdsWithStatus(st, s)|
  {
    var ks := SubscriptionKeys(st);
    var p := (k: int) => k in st.subscriptions && st.subscriptions[k].status == s;
    CountIsCardinality(ks, p);
    forall k | k in SubscriptionIdsWithStatus(st, s)
      ensures k in Matching(ks, p)
    {
      assert k in ks;
      assert p(k);
    }
    assert Matching(ks, p) == SubscriptionIdsWithStatus(st, s);
  }

  lemma CountIssueStatus(st: Store, s: IssueStatus)
    requires Valid(st)
    ensures Count(KeysBelow(st.issues, st.nextIssueId), (k: int) => k in st.issues && st.issues[k].status == s)
         == |IssueIdsWithStatus(st, s)|
  {
    var ks := KeysBelow(st.issues, st.nextIssueId);
    var p := (k: int) => k in st.issues && st.issues[k].status == s;
    CountIsCardinality(ks, p);
    forall k | k in IssueIdsWithStatus(st, s)
      ensures k in Matching(ks, p)
    {
      assert k in ks;
      assert p(k);
    }
    assert Matching(ks, p) == IssueIdsWithStatus(st, s);
  }

  lemma SubscriptionKeysCount(st: Store)
    requires Valid(st)
    ensures |SubscriptionKeys(st)| == |st.subscriptions|
  {
    var ks := SubscriptionKeys(st);
    DistinctCardinality(ks);
    assert (set k | k in ks) == st.subscriptions.Keys;
  }

  /** Revenue can only be negative through a negatively priced plan. */
  lemma RevenueNonNegative(st: Store)
    ensures PricesNonNegative(st) ==> TotalRevenue(st) >= 0
  {
    if PricesNonNegative(st) {
      SumNonNegative(SubscriptionKeys(st), (k: int) => RevenueOf(st, k));
    }
  }

  function GetDashboardMetrics(st: Store): (m: DashboardMetrics)
    requires Valid(st)
    ensures m.activeSubscriptions == |SubscriptionIdsWithStatus(st, Active)|
    ensures m.failedPayments == |IssueIdsWithStatus(st, Pending)|
    ensures m.churnTenths
         == Utils.CalculateChurnRate(|SubscriptionIdsWithStatus(st, Cancelled)|, |st.subscriptions|)
    ensures 0 <= m.churnTenths <= 1000
    ensures m.totalRevenue == TotalRevenue(st)
    ensures PricesNonNegative(st) ==> m.totalRevenue >= 0
  {
    var ks := SubscriptionKeys(st);
    var active := Count(ks, (k: int) => k in st.subscriptions && st.subscriptions[k].status == Active);
    var cancelled := Count(ks, (k: int) => k in st.subscriptions && st.subscriptions[k].status == Cancelled);
    var failed := Count(KeysBelow(st.issues, st.nextIssueId),
                        (k: int) => k in st.issues && st.issues[k].status == Pending);
    CountSubscriptionStatus(st, Active);
    CountSubscriptionStatus(st, Cancelled);
    CountIssueStatus(st, Pending);
    SubscriptionKeysCount(st);
    RevenueNonNegative(st);
    var total := if |ks| == 0 then 1 else |ks|;
    Utils.ChurnInRange(cancelled, total);
    DashboardMetrics(TotalRevenue(st), active, Numeric.RoundHalfUpDiv(1000 * cancelled, total), failed)
  }

  // ---------------------------------------------------------------- how writes move the metrics

  /** Soft-deleting a plan changes no metric: subscriptions on a deactivated
      plan still count toward revenue. */
  lemma SoftDeleteKeepsMetrics(st: Store, id: Id)
    requires Valid(st)
    ensures GetDashboardMetrics(DeleteSubscriptionPlan(st, id).store) == GetDashboardMetrics(st)
  {
    var st' := DeleteSubscriptionPlan(st, id).store;
    assert SubscriptionKeys(st') == SubscriptionKeys(st);
    forall k | k in SubscriptionKeys(st)
      ensures RevenueOf(st', k) == RevenueOf(st, k)
    {
      if id in st.plans {
        assert st'.plans[id].price == st.plans[id].price;
      }
    }
    SumCongruent(SubscriptionKeys(st), (k: int) => RevenueOf(st, k), (k: int) => RevenueOf(st', k));
    assert SubscriptionIdsWithStatus(st', Active) == SubscriptionIdsWithStatus(st, Active);
    assert SubscriptionIdsWithStatus(st', Cancelled) == SubscriptionIdsWithStatus(st, Cancelled);
    assert IssueIdsWithStatus(st', Pending) == IssueIdsWithStatus(st, Pending);
  }

  /** Creating a subscription adds its plan's price to revenue exactly when
      it is active on an existing plan. */
  lemma CreateSubscriptionMovesRevenue(st: Store, ns: NewSubscription, now: Time)
    requires Valid(st)
    ensures TotalRevenue(CreateSubscription(st, ns, now).store)
         == TotalRevenue(st)
            + (if ns.status == Active && ns.planId in st.plans then st.plans[ns.planId].price else 0)
  {
    var w := CreateSubscription(st, ns, now);
    RevenueAfterInsert(st, w.store, w.value);
  }

  /** Creating a subscription adds one to the active count exactly when it
      is active, and leaves the failed-payment count alone. */
  lemma CreateSubscriptionMovesActive(st: Store, ns: NewSubscription, now: Time)
    requires Valid(st)
    ensures GetDashboardMetrics(CreateSubscription(st, ns, now).store).activeSubscriptions
         == GetDashboardMetrics(st).activeSubscriptions + (if ns.status == Active then 1 else 0)
    ensures GetDashboardMetrics(CreateSubscription(st, ns, now).store).failedPayments
         == GetDashboardMetrics(st).failedPayments
  {
    var w := CreateSubscription(st, ns, now);
    ActiveAfterInsert(st, w.value);
    assert IssueIdsWithStatus(w.store, Pending) == IssueIdsWithStatus(st, Pending);
  }

  /** Adding subscription s under the next id adds exactly its own
      contribution to revenue. */
  lemma RevenueAfterInsert(st: Store, st': Store, s: Subscription)
    requires Valid(st) && s.id == st.nextSubscriptionId
    requires st'.subscriptions == st.subscriptions[s.id := s]
    requires st'.nextSubscriptionId == s.id + 1 && st'.plans == st.plans
    ensures TotalRevenue(st') == TotalRevenue(st) + RevenueOf(st', s.id)
  {
    var n := s.id;
    var ks := SubscriptionKeys(st);
    KeysBelowFrame(st.subscriptions, st'.subscriptions, n);
    assert SubscriptionKeys(st') == ks + [n];
    var f := (k: int) => RevenueOf(st, k);
    var f' := (k: int) => RevenueOf(st', k);
    forall k | k in ks
      ensures f'(k) == f(k)
    {
      assert k < n;
    }
    SumCongruent(ks, f, f');
    assert (ks + [n])[..|ks|] == ks;
  }

  lemma ActiveAfterInsert(st: Store, s: Subscription)
    requires s.id !in st.subscriptions
    ensures var st' := st.(subscriptions := st.subscriptions[s.id := s], nextSubscriptionId := s.id + 1);
      SubscriptionIdsWithStatus(st', Active)
      == SubscriptionIdsWithStatus(st, Active) + (if s.status == Active then {s.id} else {})
  {
  }

  /** A new pending issue is one more failed payment; a new issue in any
      other state leaves the count alone. */
  lemma CreateIssueMovesFailedPayments(st: Store, ni: NewPaymentIssue, now: Time)
    requires Valid(st)
    ensures var st' := CreatePaymentIssue(st, ni, now).store;
      GetDashboardMetrics(st').failedPayments
      == GetDashboardMetrics(st).failedPayments + (if ni.status == Pending then 1 else 0)
  {
    var w := CreatePaymentIssue(st, ni, now);
    PendingAfterInsert(st, w.value);
  }

  lemma PendingAfterInsert(st: Store, i: PaymentIssue)
    requires i.id !in st.issues
    ensures var st' := st.(issues := st.issues[i.id := i]);
      IssueIdsWithStatus(st', Pending)
      == IssueIdsWithStatus(st, Pending) + (if i.status == Pending then {i.id} else {})
  {
  }

  /** Resolving a pending issue removes one failed payment; resolving a
      missing or already settled issue removes none. */
  lemma ResolveMovesFailedPayments(st: Store, id: Id, now: Time)
    requires Valid(st)
    ensures var st' := ResolvePaymentIssue(st, id, now).store;
      GetDashboardMetrics(st').failedPayments
      == GetDashboardMetrics(st).failedPayments
         - (if id in st.issues && st.issues[id].status == Pending then 1 else 0)
  {
    var w := ResolvePaymentIssue(st, id, now);
    if id in st.issues {
      PendingAfterSettle(st, w.value.value);
    }
  }

  lemma PendingAfterSettle(st: Store, i: PaymentIssue)
    requires i.id in st.issues && i.status != Pending
    ensures var st' := st.(issues := st.issues[i.id := i]);
      IssueIdsWithStatus(st, Pending)
      == IssueIdsWithStatus(st', Pending) + (if st.issues[i.id].status == Pending then {i.id} else {})
  {
  }
}
