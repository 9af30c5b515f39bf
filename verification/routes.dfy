/** The HTTP surface that carries logic of its own: the "recent
    subscriptions" selection, the not-found paths of the by-id routes, and
    the real-time status probe. */
module Routes {
  import opened Wrappers
  import opened Schema
  import opened Storage
  import Hub

  // ---------------------------------------------------------------- recent subscriptions

  const RecentLimit: nat := 5

  function Created(v: SubscriptionView): Time { v.subscription.createdAt }

  predicate NewestFirst(s: seq<SubscriptionView>) {
    forall i, j :: 0 <= i < j < |s| ==> Created(s[i]) >= Created(s[j])
  }

  /** Places x before the first element that is not strictly newer. */
  function InsertNewestFirst(x: SubscriptionView, s: seq<SubscriptionView>): (r: seq<SubscriptionView>)
    requires NewestFirst(s)
    ensures NewestFirst(r)
    ensures multiset(r) == multiset(s) + multiset{x}
    ensures |r| == |s| + 1
    ensures r[0] == x || (|s| > 0 && r[0] == s[0])
    decreases |s|
  {
    if |s| == 0 then [x]
    else if Created(s[0]) > Created(x) then
      var rest := InsertNewestFirst(x, s[1..]);
      assert s == [s[0]] + s[1..];
      assert Created(rest[0]) <= Created(s[0]);
      assert forall k :: 0 <= k < |rest| ==> Created(rest[k]) <= Created(rest[0]);
      [s[0]] + rest
    else [x] + s
  }

  /** The comparator `b.createdAt - a.createdAt`: newest first. */
  function SortNewestFirst(s: seq<SubscriptionView>): (r: seq<SubscriptionView>)
    ensures NewestFirst(r)
    ensures multiset(r) == multiset(s)
    ensures |r| == |s|
    decreases |s|
  {
    if |s| == 0 then []
    else
      assert s == [s[0]] + s[1..];
      InsertNewestFirst(s[0], SortNewestFirst(s[1..]))
  }

  function Min(a: nat, b: nat): nat { if a <= b then a else b }

  /** `GET /api/subscriptions/recent` over the joined listing. */
  function RecentSubscriptions(views: seq<SubscriptionView>): (r: seq<SubscriptionView>)
    ensures |r| == Min(RecentLimit, |views|)
    ensures NewestFirst(r)
    ensures multiset(r) <= multiset(views)
  {
    var sorted := SortNewestFirst(views);
    var r := sorted[..Min(RecentLimit, |views|)];
    assert sorted == r + sorted[|r|..];
    r
  }

  /** Nothing left out is newer than the oldest subscription kept. */
  lemma RecentKeepsTheNewest(views: seq<SubscriptionView>)
    ensures var r := RecentSubscriptions(views);
      |r| > 0 ==> forall v :: v in views && Created(v) > Created(r[|r| - 1]) ==> v in r
  {
    var sorted := SortNewestFirst(views);
    var r := RecentSubscriptions(views);
    assert r == sorted[..|r|];
    if |r| > 0 {
      forall v | v in views && Created(v) > Created(r[|r| - 1])
        ensures v in r
      {
        assert v in multiset(views);
        assert v in multiset(sorted);
        var j :| 0 <= j < |sorted| && sorted[j] == v;
        assert j < |r|;
        assert r[j] == v;
      }
    }
  }

  function RecentSubscriptionsRoute(st: Store): (r: seq<SubscriptionView>)
    requires Valid(st)
    ensures |r| == Min(RecentLimit, |GetSubscriptions(st)|)
    ensures NewestFirst(r)
    ensures multiset(r) <= multiset(GetSubscriptions(st))
    ensures |r| > 0 ==> forall v :: v in GetSubscriptions(st) && Created(v) > Created(r[|r| - 1]) ==> v in r
    ensures forall v :: v in r ==> JoinsSubscription(st, v)
  {
    var all := GetSubscriptions(st);
    var r := RecentSubscriptions(all);
    RecentKeepsTheNewest(all);
    assert forall v :: v in r ==> v in multiset(all);
    r
  }

  // ---------------------------------------------------------------- by-id routes

  /** A response body: the record, a 404 with its message, or a 400 from
      body validation. */
  datatype Reply<T> = Ok(body: T) | NotFound(message: string) | BadRequest

  const PlanNotFound := "Plan not found"
  const IssueNotFound := "Payment issue not found"

  /** `parseInt` of the path segment is an input; None stands for NaN,
      which matches no key. */
  predicate Names<T>(m: map<Id, T>, id: Option<int>) {
    id.Some? && id.value in m
  }

  /** `PUT /api/subscription-plans/:id`; `patch` is None when the body
      fails validation. */
  function UpdatePlanRoute(st: Store, id: Option<int>, patch: Option<PlanPatch>): (r: Write<Reply<Plan>>)
    requires Valid(st)
    ensures Valid(r.store)
    ensures patch.None? ==> r == Write(st, BadRequest)
    ensures patch.Some? && !Names(st.plans, id) ==> r == Write(st, NotFound(PlanNotFound))
    ensures patch.Some? && Names(st.plans, id) ==>
      r.value.Ok? && r.value.body == ApplyPlanPatch(st.plans[id.value], patch.value)
      && r.store == st.(plans := st.plans[id.value := r.value.body])
  {
    if patch.None? then Write(st, BadRequest)
    else if id.None? then Write(st, NotFound(PlanNotFound))
    else
      var w := UpdateSubscriptionPlan(st, id.value, patch.value);
      match w.value
      case None => Write(w.store, NotFound(PlanNotFound))
      case Some(p) => Write(w.store, Ok(p))
  }

  /** `DELETE /api/subscription-plans/:id`: `{success: true}` or 404. */
  function DeletePlanRoute(st: Store, id: Option<int>): (r: Write<Reply<bool>>)
    requires Valid(st)
    ensures Valid(r.store)
    ensures !Names(st.plans, id) ==> r == Write(st, NotFound(PlanNotFound))
    ensures Names(st.plans, id) ==>
      r.value == Ok(true)
      && r.store == st.(plans := st.plans[id.value := st.plans[id.value].(isActive := false)])
  {
    if id.None? then Write(st, NotFound(PlanNotFound))
    else
      var w := DeleteSubscriptionPlan(st, id.value);
      if w.value then Write(w.store, Ok(true)) else Write(w.store, NotFound(PlanNotFound))
  }

  /** `POST /api/payment-issues/:id/resolve`. */
  function ResolveIssueRoute(st: Store, id: Option<int>, now: Time): (r: Write<Reply<PaymentIssue>>)
    requires Valid(st)
    ensures Valid(r.store)
    ensures !Names(st.issues, id) ==> r == Write(st, NotFound(IssueNotFound))
    ensures Names(st.issues, id) ==>
      r.value.Ok? && r.value.body == st.issues[id.value].(status := Resolved, resolvedAt := Some(now))
      && r.store == st.(issues := st.issues[id.value := r.value.body])
  {
    if id.None? then Write(st, NotFound(IssueNotFound))
    else
      var w := ResolvePaymentIssue(st, id.value, now);
      match w.value
      case None => Write(w.store, NotFound(IssueNotFound))
      case Some(i) => Write(w.store, Ok(i))
  }

  /** A 404 never changes the store, on any of the three routes. */
  lemma NotFoundChangesNothing(st: Store, id: Option<int>, patch: PlanPatch, now: Time)
    requires Valid(st)
    ensures UpdatePlanRoute(st, id, Some(patch)).value.NotFound? ==> UpdatePlanRoute(st, id, Some(patch)).store == st
    ensures DeletePlanRoute(st, id).value.NotFound? ==> DeletePlanRoute(st, id).store == st
    ensures ResolveIssueRoute(st, id, now).value.NotFound? ==> ResolveIssueRoute(st, id, now).store == st
  {
  }

  // ---------------------------------------------------------------- status probe

  datatype Features = Features(
    realTimePayments: bool,
    webhookProcessing: bool,
    liveMetrics: bool,
    instantNotifications: bool)

  datatype RealtimeStatus = RealtimeStatus(
    stripeConfigured: bool,
    webhookEndpoint: string,
    activeConnections: nat,
    features: Features)

  const WebhookEndpoint := "/api/stripe/webhook"

  /** `GET /api/realtime/status`. */
  function StatusProbe(configured: bool, h: Hub.Hub): (r: RealtimeStatus)
    ensures r.activeConnections == |h.clients|
    ensures r.stripeConfigured == configured
    ensures r.features.realTimePayments == configured && r.features.webhookProcessing == configured
    ensures r.features.liveMetrics && r.features.instantNotifications
    ensures r.webhookEndpoint == WebhookEndpoint
  {
    RealtimeStatus(configured, WebhookEndpoint, Hub.ActiveConnections(h), Features(configured, configured, true, true))
  }

  /** The server starts with no sockets, and the probe counts a connection
      from the moment it opens until it closes or errors. */
  lemma ProbeTracksConnections(configured: bool, h: Hub.Hub, c: Hub.ClientId, now: Time)
    requires Hub.Valid(h) && c !in h.outbox
    ensures StatusProbe(configured, Hub.Empty()).activeConnections == 0
    ensures StatusProbe(configured, Hub.Connect(h, c, now)).activeConnections
         == StatusProbe(configured, h).activeConnections + 1
    ensures StatusProbe(configured, Hub.Disconnect(Hub.Connect(h, c, now), c)).activeConnections
         == StatusProbe(configured, h).activeConnections
  {
  }
}
