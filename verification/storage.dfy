/** The in-memory state store: four id-keyed maps and four id counters,
    threaded through pure transition functions. Each operation that writes
    returns a `Write` holding the new store and the operation's result. */
module Storage {
  import opened Wrappers
  import opened Schema
  import opened Listing

  datatype Store = Store(
    users: map<Id, User>,
    plans: map<Id, Plan>,
    subscriptions: map<Id, Subscription>,
    issues: map<Id, PaymentIssue>,
    nextUserId: Id,
    nextPlanId: Id,
    nextSubscriptionId: Id,
    nextIssueId: Id)

  datatype Write<T> = Write(store: Store, value: T)

  /** The store invariant: every record sits under its own id, and every id
      was drawn from its counter (counters start at 1 and only grow). */
  predicate Valid(st: Store) {
    && 1 <= st.nextUserId && 1 <= st.nextPlanId
    && 1 <= st.nextSubscriptionId && 1 <= st.nextIssueId
    && (forall id :: id in st.users ==> 1 <= id < st.nextUserId && st.users[id].id == id)
    && (forall id :: id in st.plans ==> 1 <= id < st.nextPlanId && st.plans[id].id == id)
    && (forall id :: id in st.subscriptions ==>
          1 <= id < st.nextSubscriptionId && st.subscriptions[id].id == id)
    && (forall id :: id in st.issues ==> 1 <= id < st.nextIssueId && st.issues[id].id == id)
  }

  /** JavaScript `s || null` on an optional string: the empty string is falsy. */
  function OrNull(s: Option<string>): (r: Option<string>)
    ensures r.Some? <==> s.Some? && s.value != ""
    ensures r.Some? ==> r == s
  {
    if s.Some? && s.value != "" then s else None
  }

  // ---------------------------------------------------------------- seeding

  /** Inserts one default plan under the next plan id, with no processor
      price id (one turn of the constructor's default-plan loop). */
  function AddDefaultPlan(st: Store, seed: NewPlan, now: Time): (r: Store)
    requires Valid(st)
    ensures Valid(r)
    ensures r == st.(plans := r.plans, nextPlanId := st.nextPlanId + 1)
    ensures r.plans.Keys == st.plans.Keys + {st.nextPlanId}
    ensures forall id :: id in st.plans ==> r.plans[id] == st.plans[id]
    ensures var p := r.plans[st.nextPlanId];
      && p.name == seed.name && p.description == seed.description && p.price == seed.price
      && p.billingCycle == seed.billingCycle && p.features == seed.features.GetOr([])
      && p.isActive == seed.isActive.GetOr(true) && p.stripePriceId == None && p.createdAt == now
  {
    var id := st.nextPlanId;
    var p := Plan(id, seed.name, seed.description, seed.price, seed.billingCycle,
                  seed.features.GetOr([]), None, seed.isActive.GetOr(true), now);
    st.(plans := st.plans[id := p], nextPlanId := id + 1)
  }

  function DefaultPlanSeeds(): (seeds: seq<NewPlan>)
    ensures |seeds| == 3
  {
    [ NewPlan("Basic Plan", Some("Perfect for small teams and individuals"), 2900, Monthly,
              Some(["Up to 5 team members", "Basic analytics", "Email support"]), None, Some(true)),
      NewPlan("Professional", Some("Advanced features for growing businesses"), 9900, Monthly,
              Some(["Up to 25 team members", "Advanced analytics", "Priority support"]), None, Some(true)),
      NewPlan("Enterprise", Some("Complete solution for large organizations"), 29900, Monthly,
              Some(["Unlimited team members", "Custom integrations", "Dedicated support"]), None, Some(true)) ]
  }

  /** A fresh store: empty maps, every counter at 1, then the three default
      plans, which draw ids 1, 2 and 3. */
  function Init(now: Time): (st: Store)
    ensures Valid(st)
    ensures st.users == map[] && st.subscriptions == map[] && st.issues == map[]
    ensures st.nextUserId == 1 && st.nextSubscriptionId == 1 && st.nextIssueId == 1
    ensures st.plans.Keys == {1, 2, 3} && st.nextPlanId == 4
    ensures forall id :: id in st.plans ==>
      st.plans[id].isActive && st.plans[id].billingCycle == Monthly && st.plans[id].stripePriceId == None
    ensures st.plans[1].name == "Basic Plan" && st.plans[1].price == 2900
    ensures st.plans[2].name == "Professional" && st.plans[2].price == 9900
    ensures st.plans[3].name == "Enterprise" && st.plans[3].price == 29900
  {
    var seeds := DefaultPlanSeeds();
    var st0 := Store(map[], map[], map[], map[], 1, 1, 1, 1);
    var st1 := AddDefaultPlan(st0, seeds[0], now);
    var st2 := AddDefaultPlan(st1, seeds[1], now);
    AddDefaultPlan(st2, seeds[2], now)
  }

  // ---------------------------------------------------------------- users

  function GetUser(st: Store, id: Id): (r: Option<User>)
    ensures r.Some? <==> id in st.users
    ensures r.Some? ==> r.value == st.users[id]
  {
    if id in st.users then Some(st.users[id]) else None
  }

  function UserKey(u: User): int { u.id }

  /** The first user, in insertion order, that satisfies `matches`
      (`Array.from(users.values()).find(...)`). */
  function FindUser(st: Store, matches: User -> bool): (r: Option<User>)
    requires Valid(st)
    ensures r.None? <==> forall id :: id in st.users ==> !matches(st.users[id])
    ensures r.Some? ==> r.value.id in st.users && st.users[r.value.id] == r.value && matches(r.value)
    ensures r.Some? ==> forall id :: id in st.users && matches(st.users[id]) ==> r.value.id <= id
  {
    var ks := KeysBelow(st.users, st.nextUserId);
    var f := (k: int) => if k in st.users && matches(st.users[k]) then Some(st.users[k]) else None;
    var found := Collect(ks, f);
    CollectIncreasing(ks, f, UserKey);
    if |found| == 0 then None
    else
      assert found[0] in found;
      assert forall id :: id in st.users && matches(st.users[id]) ==>
        st.users[id] in found && (st.users[id] == found[0] || found[0].id < id)
      by {
        forall id | id in st.users && matches(st.users[id])
          ensures st.users[id] in found && (st.users[id] == found[0] || found[0].id < id)
        {
          assert id in ks && f(id) == Some(st.users[id]);
          var j :| 0 <= j < |found| && found[j] == st.users[id];
          if j > 0 {
            assert UserKey(found[0]) < UserKey(found[j]);
          }
        }
      }
      Some(found[0])
  }

  /** The earliest-created user with that username; usernames are not
      kept unique, so several may match. */
  function GetUserByUsername(st: Store, username: string): (r: Option<User>)
    requires Valid(st)
    ensures r.None? <==> forall id :: id in st.users ==> st.users[id].username != username
    ensures r.Some? ==> r.value.id in st.users && st.users[r.value.id] == r.value
    ensures r.Some? ==> r.value.username == username
    ensures r.Some? ==> forall id :: id in st.users && st.users[id].username == username ==> r.value.id <= id
  {
    FindUser(st, (u: User) => u.username == username)
  }

  /** The earliest-created user with that email. */
  function GetUserByEmail(st: Store, email: string): (r: Option<User>)
    requires Valid(st)
    ensures r.None? <==> forall id :: id in st.users ==> st.users[id].email != email
    ensures r.Some? ==> r.value.id in st.users && st.users[r.value.id] == r.value
    ensures r.Some? ==> r.value.email == email
    ensures r.Some? ==> forall id :: id in st.users && st.users[id].email == email ==> r.value.id <= id
  {
    FindUser(st, (u: User) => u.email == email)
  }

  /** Creates a user under the next user id. Uniqueness of username and
      email is NOT checked. */
  function CreateUser(st: Store, nu: NewUser, now: Time): (r: Write<User>)
    requires Valid(st)
    ensures Valid(r.store)
    ensures r.value.id == st.nextUserId && r.value.id !in st.users
    ensures forall id :: id in st.users ==> id < r.value.id
    ensures r.store == st.(users := st.users[r.value.id := r.value], nextUserId := st.nextUserId + 1)
    ensures r.value.username == nu.username && r.value.email == nu.email
    ensures r.value.password == nu.password && r.value.createdAt == now
    ensures r.value.stripeCustomerId == OrNull(nu.stripeCustomerId)
    ensures r.value.stripeSubscriptionId == OrNull(nu.stripeSubscriptionId)
  {
    var id := st.nextUserId;
    var u := User(id, nu.username, nu.email, nu.password,
                  OrNull(nu.stripeCustomerId), OrNull(nu.stripeSubscriptionId), now);
    Write(st.(users := st.users[id := u], nextUserId := id + 1), u)
  }

  /** Records the processor customer id, and the processor subscription id
      when one is given (an empty one keeps the old value). A missing user
      is the "User not found" error. */
  function UpdateUserStripeInfo(st: Store, userId: Id, customerId: string, subscriptionId: Option<string>)
    : (r: Result<Write<User>, string>)
    requires Valid(st)
    ensures r.Failure? <==> userId !in st.users
    ensures r.Failure? ==> r.error == "User not found"
    ensures r.Success? ==>
      var u := r.value.value;
      && Valid(r.value.store)
      && r.value.store == st.(users := st.users[userId := u])
      && u.stripeCustomerId == Some(customerId)
      && (subscriptionId.Some? && subscriptionId.value != "" ==> u.stripeSubscriptionId == subscriptionId)
      && (subscriptionId.None? || subscriptionId.value == "" ==>
            u.stripeSubscriptionId == st.users[userId].stripeSubscriptionId)
      && u.(stripeCustomerId := st.users[userId].stripeCustomerId,
            stripeSubscriptionId := st.users[userId].stripeSubscriptionId) == st.users[userId]
  {
    if userId !in st.users then Failure("User not found")
    else
      var prev := st.users[userId];
      var u := prev.(stripeCustomerId := Some(customerId),
                    stripeSubscriptionId := if subscriptionId.Some? && subscriptionId.value != ""
                                            then subscriptionId else prev.stripeSubscriptionId);
      Success(Write(st.(users := st.users[userId := u]), u))
  }

  // ---------------------------------------------------------------- plans

  function PlanKey(p: Plan): int { p.id }

  /** The active plans, in insertion order. */
  function GetSubscriptionPlans(st: Store): (r: seq<Plan>)
    requires Valid(st)
    ensures forall p :: p in r <==> p.id in st.plans && st.plans[p.id] == p && p.isActive
    ensures forall i, j :: 0 <= i < j < |r| ==> r[i].id < r[j].id
  {
    var ks := KeysBelow(st.plans, st.nextPlanId);
    var f := (k: int) => if k in st.plans && st.plans[k].isActive then Some(st.plans[k]) else None;
    var r := Collect(ks, f);
    CollectIncreasing(ks, f, PlanKey);
    assert forall p: Plan :: p.id in st.plans && st.plans[p.id] == p && p.isActive ==> f(p.id) == Some(p);
    assert forall i, j :: 0 <= i < j < |r| ==> PlanKey(r[i]) < PlanKey(r[j]);
    r
  }

  /** Looks a plan up by id, active or not. */
  function GetSubscriptionPlan(st: Store, id: Id): (r: Option<Plan>)
    ensures r.Some? <==> id in st.plans
    ensures r.Some? ==> r.value == st.plans[id]
  {
    if id in st.plans then Some(st.plans[id]) else None
  }

  /** Creates a plan under the next plan id, filling the defaults: an empty
      description or price id becomes null, `features` defaults to the
      empty list and `isActive` to true. */
  function CreateSubscriptionPlan(st: Store, np: NewPlan, now: Time): (r: Write<Plan>)
    requires Valid(st)
    ensures Valid(r.store)
    ensures r.value.id == st.nextPlanId && r.value.id !in st.plans
    ensures forall id :: id in st.plans ==> id < r.value.id
    ensures r.store == st.(plans := st.plans[r.value.id := r.value], nextPlanId := st.nextPlanId + 1)
    ensures r.value.name == np.name && r.value.price == np.price
    ensures r.value.billingCycle == np.billingCycle && r.value.createdAt == now
    ensures r.value.description == OrNull(np.description)
    ensures r.value.stripePriceId == OrNull(np.stripePriceId)
    ensures np.features.None? ==> r.value.features == []
    ensures np.features.Some? ==> r.value.features == np.features.value
    ensures r.value.isActive <==> np.isActive.None? || np.isActive.value
  {
    var id := st.nextPlanId;
    var p := Plan(id, np.name, OrNull(np.description), np.price, np.billingCycle,
                  np.features.GetOr([]), OrNull(np.stripePriceId), np.isActive.GetOr(true), now);
    Write(st.(plans := st.plans[id := p], nextPlanId := id + 1), p)
  }

  /** Re-creating a plan from its own insert shape gives the same plan
      under a new id and time, unless a text column held the empty string,
      which the create turns into null. */
  lemma InsertShapeRoundTrip(st: Store, p: Plan, now: Time)
    requires Valid(st)
    ensures var q := CreateSubscriptionPlan(st, PlanInsertShape(p), now).value;
      q == p.(id := st.nextPlanId, createdAt := now)
      <==> p.description != Some("") && p.stripePriceId != Some("")
  {
    var q := CreateSubscriptionPlan(st, PlanInsertShape(p), now).value;
    if p.description == Some("") {
      assert q.description != p.description;
    }
    if p.stripePriceId == Some("") {
      assert q.stripePriceId != p.stripePriceId;
    }
  }

  /** A partial insert shape: a field that is `None` is absent from the
      patch. Nullable columns take `Some(None)` for an explicit null. */
  datatype PlanPatch = PlanPatch(
    name: Option<string>,
    description: Option<Option<string>>,
    price: Option<Cents>,
    billingCycle: Option<BillingCycle>,
    features: Option<seq<string>>,
    stripePriceId: Option<Option<string>>,
    isActive: Option<bool>)

  const EmptyPlanPatch := PlanPatch(None, None, None, None, None, None, None)

  /** `{ ...plan, ...patch }`: fields present in the patch overwrite, every
      other field, `id` and `createdAt` included, is kept. */
  function ApplyPlanPatch(p: Plan, patch: PlanPatch): (r: Plan)
    ensures r.id == p.id && r.createdAt == p.createdAt
    ensures r.name == patch.name.GetOr(p.name)
    ensures r.description == patch.description.GetOr(p.description)
    ensures r.price == patch.price.GetOr(p.price)
    ensures r.billingCycle == patch.billingCycle.GetOr(p.billingCycle)
    ensures r.features == patch.features.GetOr(p.features)
    ensures r.stripePriceId == patch.stripePriceId.GetOr(p.stripePriceId)
    ensures r.isActive == patch.isActive.GetOr(p.isActive)
  {
    p.(name := patch.name.GetOr(p.name),
       description := patch.description.GetOr(p.description),
       price := patch.price.GetOr(p.price),
       billingCycle := patch.billingCycle.GetOr(p.billingCycle),
       features := patch.features.GetOr(p.features),
       stripePriceId := patch.stripePriceId.GetOr(p.stripePriceId),
       isActive := patch.isActive.GetOr(p.isActive))
  }

  /** Spreading `second` after `first`: the later patch wins per field. */
  function MergePlanPatches(first: PlanPatch, second: PlanPatch): PlanPatch {
    PlanPatch(
      if second.name.Some? then second.name else first.name,
      if second.description.Some? then second.description else first.description,
      if second.price.Some? then second.price else first.price,
      if second.billingCycle.Some? then second.billingCycle else first.billingCycle,
      if second.features.Some? then second.features else first.features,
      if second.stripePriceId.Some? then second.stripePriceId else first.stripePriceId,
      if second.isActive.Some? then second.isActive else first.isActive)
  }

  /** Shallow merges compose: two patches in a row are one merged patch;
      the empty patch changes nothing and a patch applied twice is applied once. */
  lemma PlanPatchAlgebra(p: Plan, first: PlanPatch, second: PlanPatch)
    ensures ApplyPlanPatch(ApplyPlanPatch(p, first), second)
         == ApplyPlanPatch(p, MergePlanPatches(first, second))
    ensures ApplyPlanPatch(p, EmptyPlanPatch) == p
    ensures ApplyPlanPatch(ApplyPlanPatch(p, first), first) == ApplyPlanPatch(p, first)
  {
  }

  /** Patches a stored plan; a missing id yields no plan and no change. */
  function UpdateSubscriptionPlan(st: Store, id: Id, patch: PlanPatch): (r: Write<Option<Plan>>)
    requires Valid(st)
    ensures Valid(r.store)
    ensures id !in st.plans ==> r == Write(st, None)
    ensures id in st.plans ==>
      && r.value == Some(ApplyPlanPatch(st.plans[id], patch))
      && r.store == st.(plans := st.plans[id := r.value.value])
  {
    if id !in st.plans then Write(st, None)
    else
      var p := ApplyPlanPatch(st.plans[id], patch);
      Write(st.(plans := st.plans[id := p]), Some(p))
  }

  /** Soft delete: clears `isActive` and keeps the record. The result says
      whether the plan existed. */
  function DeleteSubscriptionPlan(st: Store, id: Id): (r: Write<bool>)
    requires Valid(st)
    ensures Valid(r.store)
    ensures r.value <==> id in st.plans
    ensures !r.value ==> r.store == st
    ensures r.store.plans.Keys == st.plans.Keys
    ensures r.store == st.(plans := r.store.plans)
    ensures forall k :: k in st.plans && k != id ==> r.store.plans[k] == st.plans[k]
    ensures id in st.plans ==> !r.store.plans[id].isActive
    ensures id in st.plans ==> r.store.plans[id].(isActive := st.plans[id].isActive) == st.plans[id]
  {
    if id !in st.plans then Write(st, false)
    else
      var p := st.plans[id].(isActive := false);
      Write(st.(plans := st.plans[id := p]), true)
  }

  /** After a soft delete the plan is still found by id, no longer listed,
      and the listing otherwise unchanged. */
  lemma DeletedPlanStaysRetrievable(st: Store, id: Id)
    requires Valid(st) && id in st.plans
    ensures var st' := DeleteSubscriptionPlan(st, id).store;
      && GetSubscriptionPlan(st', id).Some?
      && !GetSubscriptionPlan(st', id).value.isActive
      && (forall p :: p in GetSubscriptionPlans(st') <==> p in GetSubscriptionPlans(st) && p.id != id)
  {
  }

  // ---------------------------------------------------------------- subscriptions

  /** A subscription joined with its user and plan. */
  datatype SubscriptionView = SubscriptionView(subscription: Subscription, user: User, plan: Plan)

  /** v is a stored subscription joined with the user and plan it references. */
  predicate JoinsSubscription(st: Store, v: SubscriptionView) {
    var s := v.subscription;
    && s.id in st.subscriptions && st.subscriptions[s.id] == s
    && s.userId in st.users && v.user == st.users[s.userId]
    && s.planId in st.plans && v.plan == st.plans[s.planId]
  }

  function SubscriptionViewAt(st: Store, id: Id): Option<SubscriptionView> {
    if id !in st.subscriptions then None
    else
      var s := st.subscriptions[id];
      if s.userId in st.users && s.planId in st.plans
      then Some(SubscriptionView(s, st.users[s.userId], st.plans[s.planId]))
      else None
  }

  function SubscriptionViewKey(v: SubscriptionView): int { v.subscription.id }

  /** Every subscription whose user and plan both exist, joined, in
      insertion order; the others are dropped. */
  function GetSubscriptions(st: Store): (r: seq<SubscriptionView>)
    requires Valid(st)
    ensures forall v :: v in r <==> JoinsSubscription(st, v)
    ensures forall i, j :: 0 <= i < j < |r| ==> r[i].subscription.id < r[j].subscription.id
  {
    var ks := KeysBelow(st.subscriptions, st.nextSubscriptionId);
    var f := (k: int) => SubscriptionViewAt(st, k);
    var r := Collect(ks, f);
    CollectIncreasing(ks, f, SubscriptionViewKey);
    assert forall v :: JoinsSubscription(st, v) ==> f(v.subscription.id) == Some(v);
    assert forall i, j :: 0 <= i < j < |r| ==> SubscriptionViewKey(r[i]) < SubscriptionViewKey(r[j]);
    r
  }

  /** One subscription joined with its user and plan; nothing when the
      subscription, its user or its plan is missing. */
  function GetSubscription(st: Store, id: Id): (r: Option<SubscriptionView>)
    requires Valid(st)
    ensures r.Some? <==> id in st.subscriptions && st.subscriptions[id].userId in st.users
                         && st.subscriptions[id].planId in st.plans
    ensures r.Some? ==> JoinsSubscription(st, r.value) && r.value.subscription.id == id
  {
    SubscriptionViewAt(st, id)
  }

  /** A subscription joined with its plan. */
  datatype UserSubscriptionView = UserSubscriptionView(subscription: Subscription, plan: Plan)

  function UserSubscriptionViewKey(v: UserSubscriptionView): int { v.subscription.id }

  /** v is a stored subscription of the given user joined with its plan. */
  predicate JoinsUserSubscription(st: Store, userId: Id, v: UserSubscriptionView) {
    var s := v.subscription;
    && s.id in st.subscriptions && st.subscriptions[s.id] == s
    && s.userId == userId
    && s.planId in st.plans && v.plan == st.plans[s.planId]
  }

  function UserSubscriptionViewAt(st: Store, userId: Id, id: Id): Option<UserSubscriptionView> {
    if id !in st.subscriptions then None
    else
      var s := st.subscriptions[id];
      if s.userId == userId && s.planId in st.plans
      then Some(UserSubscriptionView(s, st.plans[s.planId]))
      else None
  }

  /** The given user's subscriptions whose plan exists, joined with the plan,
      in insertion order. The user record itself is not required. */
  function GetUserSubscriptions(st: Store, userId: Id): (r: seq<UserSubscriptionView>)
    requires Valid(st)
    ensures forall v :: v in r <==> JoinsUserSubscription(st, userId, v)
    ensures forall i, j :: 0 <= i < j < |r| ==> r[i].subscription.id < r[j].subscription.id
  {
    var ks := KeysBelow(st.subscriptions, st.nextSubscriptionId);
    var f := (k: int) => UserSubscriptionViewAt(st, userId, k);
    var r := Collect(ks, f);
    CollectIncreasing(ks, f, UserSubscriptionViewKey);
    assert forall v :: JoinsUserSubscription(st, userId, v) ==> f(v.subscription.id) == Some(v);
    assert forall i, j :: 0 <= i < j < |r| ==> UserSubscriptionViewKey(r[i]) < UserSubscriptionViewKey(r[j]);
    r
  }

  /** Creates a subscription under the next subscription id; `createdAt`
      and `updatedAt` are both `now`, an empty processor id becomes null.
      The referenced user and plan are not checked. */
  function CreateSubscription(st: Store, ns: NewSubscription, now: Time): (r: Write<Subscription>)
    requires Valid(st)
    ensures Valid(r.store)
    ensures r.value.id == st.nextSubscriptionId && r.value.id !in st.subscriptions
    ensures forall id :: id in st.subscriptions ==> id < r.value.id
    ensures r.store == st.(subscriptions := st.subscriptions[r.value.id := r.value],
                           nextSubscriptionId := st.nextSubscriptionId + 1)
    ensures r.value.userId == ns.userId && r.value.planId == ns.planId && r.value.status == ns.status
    ensures r.value.stripeSubscriptionId == OrNull(ns.stripeSubscriptionId)
    ensures r.value.currentPeriodStart == ns.currentPeriodStart
    ensures r.value.currentPeriodEnd == ns.currentPeriodEnd
    ensures r.value.cancelledAt == ns.cancelledAt
    ensures r.value.createdAt == now && r.value.updatedAt == now
  {
    var id := st.nextSubscriptionId;
    var s := Subscription(id, ns.userId, ns.planId, ns.status, OrNull(ns.stripeSubscriptionId),
                          ns.currentPeriodStart, ns.currentPeriodEnd, ns.cancelledAt, now, now);
    Write(st.(subscriptions := st.subscriptions[id := s], nextSubscriptionId := id + 1), s)
  }

  /** A partial subscription insert shape (see `PlanPatch`). */
  datatype SubscriptionPatch = SubscriptionPatch(
    userId: Option<Id>,
    planId: Option<Id>,
    status: Option<SubscriptionStatus>,
    stripeSubscriptionId: Option<Option<string>>,
    currentPeriodStart: Option<Option<Time>>,
    currentPeriodEnd: Option<Option<Time>>,
    cancelledAt: Option<Option<Time>>)

  /** `{ ...subscription, ...patch, updatedAt: now }`. */
  function ApplySubscriptionPatch(s: Subscription, patch: SubscriptionPatch, now: Time): (r: Subscription)
    ensures r.id == s.id && r.createdAt == s.createdAt && r.updatedAt == now
    ensures r.userId == patch.userId.GetOr(s.userId)
    ensures r.planId == patch.planId.GetOr(s.planId)
    ensures r.status == patch.status.GetOr(s.status)
    ensures r.stripeSubscriptionId == patch.stripeSubscriptionId.GetOr(s.stripeSubscriptionId)
    ensures r.currentPeriodStart == patch.currentPeriodStart.GetOr(s.currentPeriodStart)
    ensures r.currentPeriodEnd == patch.currentPeriodEnd.GetOr(s.currentPeriodEnd)
    ensures r.cancelledAt == patch.cancelledAt.GetOr(s.cancelledAt)
  {
    s.(userId := patch.userId.GetOr(s.userId),
       planId := patch.planId.GetOr(s.planId),
       status := patch.status.GetOr(s.status),
       stripeSubscriptionId := patch.stripeSubscriptionId.GetOr(s.stripeSubscriptionId),
       currentPeriodStart := patch.currentPeriodStart.GetOr(s.currentPeriodStart),
       currentPeriodEnd := patch.currentPeriodEnd.GetOr(s.currentPeriodEnd),
       cancelledAt := patch.cancelledAt.GetOr(s.cancelledAt),
       updatedAt := now)
  }

  /** Patches a stored subscription and refreshes `updatedAt`; a missing id
      yields no subscription and no change. */
  function UpdateSubscription(st: Store, id: Id, patch: SubscriptionPatch, now: Time)
    : (r: Write<Option<Subscription>>)
    requires Valid(st)
    ensures Valid(r.store)
    ensures id !in st.subscriptions ==> r == Write(st, None)
    ensures id in st.subscriptions ==>
      && r.value == Some(ApplySubscriptionPatch(st.subscriptions[id], patch, now))
      && r.store == st.(subscriptions := st.subscriptions[id := r.value.value])
  {
    if id !in st.subscriptions then Write(st, None)
    else
      var s := ApplySubscriptionPatch(st.subscriptions[id], patch, now);
      Write(st.(subscriptions := st.subscriptions[id := s]), Some(s))
  }

  // ---------------------------------------------------------------- payment issues

  /** A payment issue joined with its user and subscription. */
  datatype IssueView = IssueView(issue: PaymentIssue, user: User, subscription: Subscription)

  predicate JoinsIssue(st: Store, v: IssueView) {
    var i := v.issue;
    && i.id in st.issues && st.issues[i.id] == i
    && i.userId in st.users && v.user == st.users[i.userId]
    && i.subscriptionId in st.subscriptions && v.subscription == st.subscriptions[i.subscriptionId]
  }

  function IssueViewAt(st: Store, id: Id): Option<IssueView> {
    if id !in st.issues then None
    else
      var i := st.issues[id];
      if i.userId in st.users && i.subscriptionId in st.subscriptions
      then Some(IssueView(i, st.users[i.userId], st.subscriptions[i.subscriptionId]))
      else None
  }

  function IssueViewKey(v: IssueView): int { v.issue.id }

  /** Every payment issue whose user and subscription both exist, joined,
      in insertion order, whatever its status. */
  function GetPaymentIssues(st: Store): (r: seq<IssueView>)
    requires Valid(st)
    ensures forall v :: v in r <==> JoinsIssue(st, v)
    ensures forall i, j :: 0 <= i < j < |r| ==> r[i].issue.id < r[j].issue.id
  {
    var ks := KeysBelow(st.issues, st.nextIssueId);
    var f := (k: int) => IssueViewAt(st, k);
    var r := Collect(ks, f);
    CollectIncreasing(ks, f, IssueViewKey);
    assert forall v :: JoinsIssue(st, v) ==> f(v.issue.id) == Some(v);
    assert forall i, j :: 0 <= i < j < |r| ==> IssueViewKey(r[i]) < IssueViewKey(r[j]);
    r
  }

  /** Creates a payment issue under the next issue id. */
  function CreatePaymentIssue(st: Store, ni: NewPaymentIssue, now: Time): (r: Write<PaymentIssue>)
    requires Valid(st)
    ensures Valid(r.store)
    ensures r.value.id == st.nextIssueId && r.value.id !in st.issues
    ensures forall id :: id in st.issues ==> id < r.value.id
    ensures r.store == st.(issues := st.issues[r.value.id := r.value], nextIssueId := st.nextIssueId + 1)
    ensures r.value.(id := 0, createdAt := 0)
         == PaymentIssue(0, ni.subscriptionId, ni.userId, ni.reason, ni.amount, ni.status,
                         ni.retryDate, ni.resolvedAt, 0)
    ensures r.value.createdAt == now
  {
    var id := st.nextIssueId;
    var i := PaymentIssue(id, ni.subscriptionId, ni.userId, ni.reason, ni.amount, ni.status,
                          ni.retryDate, ni.resolvedAt, now);
    Write(st.(issues := st.issues[id := i], nextIssueId := id + 1), i)
  }

  /** Marks an issue resolved at `now`; a missing id yields no issue and no change. */
  function ResolvePaymentIssue(st: Store, id: Id, now: Time): (r: Write<Option<PaymentIssue>>)
    requires Valid(st)
    ensures Valid(r.store)
    ensures id !in st.issues ==> r == Write(st, None)
    ensures id in st.issues ==>
      && r.value.Some?
      && r.value.value.status == Resolved && r.value.value.resolvedAt == Some(now)
      && r.value.value.(status := st.issues[id].status, resolvedAt := st.issues[id].resolvedAt)
         == st.issues[id]
      && r.store == st.(issues := st.issues[id := r.value.value])
  {
    if id !in st.issues then Write(st, None)
    else
      var i := st.issues[id].(status := Resolved, resolvedAt := Some(now));
      Write(st.(issues := st.issues[id := i]), Some(i))
  }

  /** Resolving again is harmless: the issue stays resolved, and only the
      resolution time moves to the later call's time. */
  lemma {:induction false} ResolveTwice(st: Store, id: Id, t1: Time, t2: Time)
    requires Valid(st) && id in st.issues
    ensures var w1 := ResolvePaymentIssue(st, id, t1);
      var w2 := ResolvePaymentIssue(w1.store, id, t2);
      && w2.value.Some? && w2.value.value.status == Resolved
      && w2.value.value == w1.value.value.(resolvedAt := Some(t2))
      && w2.store == w1.store.(issues := w1.store.issues[id := w2.value.value])
  {
  }

  // ---------------------------------------------------------------- the declared uniqueness

  /** Creating a user whose username and email are both new keeps the
      declared uniqueness. */
  lemma CreateUserKeepsUniqueLogins(st: Store, nu: NewUser, now: Time)
    requires Valid(st) && UniqueLogins(st.users)
    requires forall id :: id in st.users ==>
      st.users[id].username != nu.username && st.users[id].email != nu.email
    ensures UniqueLogins(CreateUser(st, nu, now).store.users)
  {
  }

  /** The store itself does not keep it: two creations with one username
      leave two users sharing it. */
  lemma CreateUserDoesNotEnforceUniqueLogins(nu: NewUser, now: Time)
    ensures var st1 := CreateUser(Init(now), nu, now).store;
      var st2 := CreateUser(st1, nu, now).store;
      !UniqueLogins(st2.users)
  {
    var st1 := CreateUser(Init(now), nu, now).store;
    var st2 := CreateUser(st1, nu, now).store;
    assert 1 in st2.users && 2 in st2.users;
    assert st2.users[1].username == st2.users[2].username;
  }
}
