# Subscription billing dashboard — a Dafny model of its core

The system is a subscription-billing dashboard. It has three parts:

- A server keeps users, subscription plans, subscriptions and payment issues in an in-memory store (`MemStorage`). It serves them over HTTP and derives the dashboard metrics from them.
- The server also receives the payment processor's webhooks. It turns each one into an optional payment-issue record and an optional real-time broadcast to the connected WebSocket clients.
- A React client shows the data. It does so through a few pure helpers: relative-time text, status colours, churn and growth rates, the plan editor's feature list, and the sidebar's active-entry rule.

The model follows that layout, one Dafny module per concern:

| module | file | models |
|---|---|---|
| `Wrappers` | wrappers.dfy | `Option` / `Result` |
| `Numeric` | numeric.dfy | JavaScript `Math.round` on exact rationals, decimal text of integers |
| `Text` | text.dfy | `startsWith`, `trim` (the ECMAScript whitespace set) |
| `Listing` | listing.dfy | Enumerating an id-keyed map in insertion (= ascending id) order; filter-count and sum over it |
| `Schema` | schema.dfy | The four tables, their insert shapes, status domains and defaults |
| `Storage` | storage.dfy | `MemStorage`: counters, creates, shallow-merge updates, soft delete, joined reads, resolve |
| `Metrics` | metrics.dfy | `getDashboardMetrics` |
| `Hub` | hub.dfy | The WebSocket client set, connect / close / error, `broadcastUpdate` |
| `Webhook` | webhook.dfy | The webhook endpoint: admission, the event-type `switch`, the status outcomes |
| `Routes` | routes.dfy | `/api/subscriptions/recent`, the 404 paths, `/api/realtime/status` |
| `Utils` | utils.dfy | `formatRelativeTime`, `getStatusColor`, `calculateChurnRate`, `calculateGrowthRate` |
| `PlanModal` | plan_modal.dfy | The plan dialog's feature editor, form schema, submit and close |
| `Sidebar` | sidebar.dfy | The navigation list and its `isActive` rule |
| `Dashboard` | dashboard.dfy | `formatTimeAgo`, `getStatusBadge`, the 3-issue panel, the plan colour cycle, the pending badge |

Conventions:

- The store is a `Store` value. Every writing operation is a pure function that returns a `Write(store, value)`.
- The invariant `Storage.Valid` holds on every reachable store. Every record sits under its own id, and every id lies in `[1, counter)`.
- A JavaScript `Map` iterates in insertion order. Ids are handed out in increasing order, and `set` on an existing key keeps its position. So every listing is the records in ascending id order (`Listing.KeysBelow`).
- Money is signed integer cents: neither the insert schema nor the store rejects a negative price. Times are integer milliseconds. Each clock read is an explicit `now` parameter.
- Rates use `Math.round(x)`, which is `floor(x + 1/2)`. They are computed exactly on integers: `Numeric.RoundHalfUpDiv` returns a rate in tenths of a percent.
- Amounts in broadcasts are `cents / 100` as exact `real`s.
- The free-text `status` and `billing_cycle` columns are narrowed to the domains their column comments declare (`Schema.SubscriptionStatus`, `Schema.IssueStatus`, `Schema.BillingCycle`). Each has a name/parse round trip.
- JavaScript `x || null` on an optional string turns `""` into null (`Storage.OrNull`).
- A patch field that may be set to null is an `Option<Option<T>>`.

## Model

| member | source | states |
|---|---|---|
| Schema.BillingCycleName | shared/schema.ts:21 | Each billing cycle's stored text parses back to the same cycle |
| Schema.SubscriptionStatusName | shared/schema.ts:32 | Each subscription status's stored text (`past_due` included) parses back to the same status |
| Schema.IssueStatusName | shared/schema.ts:47 | Each payment-issue status's stored text parses back to the same status |
| Schema.PlanInsertShape | shared/schema.ts:58-61 | The insert shape of a plan drops `id` and `createdAt` and keeps every other column, the defaulted ones included |
| Storage.InsertShapeRoundTrip | server/storage.ts:162-175 | Creating a plan from an existing plan's insert shape rebuilds that plan under the new id and time, if and only if neither text column held `""`; `x \|\| null` turns `""` into null |
| Storage.OrNull | server/storage.ts:133-134 | `s \|\| null` is null exactly for an absent or empty string, and otherwise `s` itself |
| Storage.AddDefaultPlan | server/storage.ts:104-113 | Seeding one plan takes the next plan id, bumps the counter, keeps existing plans, and stores the seed with a null processor price id |
| Storage.Init | server/storage.ts:62-74 | A fresh store is valid and empty except for plans 1, 2 and 3 (Basic Plan 2900, Professional 9900, Enterprise 29900 cents); the plan counter is 4, every other counter is 1 |
| Storage.GetUser | server/storage.ts:116-118 | Some exactly when the id is stored, and then that record |
| Storage.FindUser | server/storage.ts:120-126 | `Array.find` over the listing: None iff no user matches, otherwise a matching stored user with the smallest id |
| Storage.GetUserByUsername | server/storage.ts:120-122 | None iff no user has the username; otherwise a stored user with that username, the earliest created when several share it |
| Storage.GetUserByEmail | server/storage.ts:124-126 | None iff no user has the email; otherwise a stored user with that email, the earliest created when several share it |
| Storage.CreateUser | server/storage.ts:128-139 | The new id is the counter, above every stored id; only that key and the counter change; empty processor ids become null; `createdAt` is now |
| Storage.UpdateUserStripeInfo | server/storage.ts:141-152 | Failure "User not found" iff the user is missing; otherwise only that user changes: the customer id is set, and the subscription id is replaced only by a non-empty one |
| Storage.GetSubscriptionPlans | server/storage.ts:154-156 | A plan is listed iff it is stored and active; the listing is in ascending id order |
| Storage.GetSubscriptionPlan | server/storage.ts:158-160 | Some exactly when the id is stored (soft-deleted plans included), and then that record |
| Storage.CreateSubscriptionPlan | server/storage.ts:162-175 | Next id, frame as for users; absent or empty description and price id become null; absent features become `[]`; `isActive` is true unless given |
| Storage.ApplyPlanPatch | server/storage.ts:181 | The shallow merge: each field is the patch's when present and the old one otherwise; `id` and `createdAt` are kept |
| Storage.PlanPatchAlgebra | server/storage.ts:177-184 | Applying two patches equals applying their merge; the empty patch is the identity; re-applying a patch changes nothing |
| Storage.UpdateSubscriptionPlan | server/storage.ts:177-184 | A missing id returns None and leaves the store untouched; otherwise only that plan becomes the patched plan |
| Storage.DeleteSubscriptionPlan | server/storage.ts:186-193 | The result is true iff the plan exists; a missing id changes nothing; otherwise only that plan's `isActive` becomes false and the key set is unchanged |
| Storage.DeletedPlanStaysRetrievable | server/storage.ts:154-160 | After a soft delete the plan is still found by id and inactive, and the active listing loses exactly that plan |
| Storage.GetSubscriptions | server/storage.ts:195-205 | A view is listed iff its subscription is stored and both its user and plan exist, joined with those records; ascending subscription id |
| Storage.GetSubscription | server/storage.ts:220-231 | Some iff the subscription, its user and its plan all exist, and then the joined view of that id |
| Storage.GetUserSubscriptions | server/storage.ts:207-218 | A view is listed iff the subscription belongs to the user and its plan exists; the user record itself is not required |
| Storage.CreateSubscription | server/storage.ts:233-247 | Next id, frame, empty processor id to null, `createdAt == updatedAt == now`; the user and plan are not checked |
| Storage.ApplySubscriptionPatch | server/storage.ts:253-257 | The shallow merge, with `updatedAt` refreshed to now and `id`, `createdAt` kept |
| Storage.UpdateSubscription | server/storage.ts:249-260 | A missing id returns None and leaves the store untouched; otherwise only that subscription becomes the patched one |
| Storage.GetPaymentIssues | server/storage.ts:262-272 | An issue is listed iff its user and subscription exist, joined with them; ascending id |
| Storage.CreatePaymentIssue | server/storage.ts:274-285 | Next id, frame; the record is the insert data with that id and `createdAt == now` |
| Storage.ResolvePaymentIssue | server/storage.ts:287-298 | A missing id returns None and leaves the store untouched; otherwise the status becomes resolved, `resolvedAt` becomes now, and nothing else changes |
| Storage.ResolveTwice | server/storage.ts:287-298 | Resolving again keeps the issue resolved and moves only `resolvedAt` |
| Storage.CreateUserKeepsUniqueLogins | shared/schema.ts:8-9 | Creating a user with a new username and email keeps the declared uniqueness |
| Storage.CreateUserDoesNotEnforceUniqueLogins | server/storage.ts:128-139 | Creating the same user twice from a fresh store breaks the declared uniqueness: the store does not enforce it |
| Metrics.GetDashboardMetrics | server/storage.ts:300-331 | active = the number of active subscriptions; failed = the number of pending issues; churn = `Utils.CalculateChurnRate(cancelled, total)` and lies within 0–100.0%; revenue is the sum over subscriptions, and is non-negative when no plan has a negative price |
| Metrics.RevenueNonNegative | server/storage.ts:309-316 | Revenue can be negative only when some plan's price is negative; prices are not checked for sign |
| Metrics.SoftDeleteKeepsMetrics | server/storage.ts:309-316 | Deleting a plan leaves every metric unchanged: soft-deleted plans still count toward revenue |
| Metrics.CreateSubscriptionMovesRevenue | server/storage.ts:308-316 | A new subscription adds its plan's price to revenue iff it is active and its plan exists |
| Metrics.CreateSubscriptionMovesActive | server/storage.ts:305 | A new subscription adds one to the active count iff it is active; the failed count is unchanged |
| Metrics.RevenueAfterInsert | server/storage.ts:309-316 | Revenue over a listing grown by one subscription is the old revenue plus that subscription's contribution |
| Metrics.CreateIssueMovesFailedPayments | server/storage.ts:318 | A new issue adds one failed payment iff it is pending |
| Metrics.ResolveMovesFailedPayments | server/storage.ts:318 | Resolving removes one failed payment iff the issue existed and was pending |
| Hub.Connect | server/routes.ts:344-353 | The socket joins the set, the count grows by one, and its first and only message is the `connected` welcome; other sockets' messages are untouched |
| Hub.Disconnect | server/routes.ts:355-363 | Close and error both remove the socket; the count drops by one iff it was a member |
| Hub.Broadcast | server/routes.ts:21-28 | Every member in OPEN state gets the one identical `{event, data, timestamp}` envelope appended; every other socket's messages are unchanged |
| Hub.Fanout | server/routes.ts:23-27 | The per-socket `forEach` sends exactly what `Broadcast` describes, whatever order the set is visited in |
| Hub.ConnectThenDisconnect | server/routes.ts:344-363 | Connect then close restores the membership and count; the socket got only the welcome |
| Hub.NoDeliveryAfterDisconnect | server/routes.ts:21-28 | A removed socket receives no later broadcast |
| Hub.BroadcastsArriveInOrder | server/routes.ts:21-28 | An open member receives successive broadcasts in the order they were made |
| Webhook.Dispatch | server/routes.ts:226-312 | An issue is filed iff the event is a failed payment with a non-empty customer, and it is `FailedPaymentIssue`; a broadcast happens iff the type is one of the six handled types |
| Webhook.DispatchFollowsTagTable | server/routes.ts:226-312 | The broadcast tag is the table's tag for the type (payment_success, payment_failed, invoice_paid, subscription_created / _updated / _cancelled); an unknown type does nothing |
| Webhook.BroadcastCarriesTheObject | server/routes.ts:226-305 | Each broadcast's payload kind follows the type table (succeeded, failed, invoice, changed for created and updated, ended for deleted); it carries the object's customer, and its currency, error message, invoice subscription, or subscription id and status |
| Webhook.BroadcastAmountsAreCentsOver100 | server/routes.ts:233 | Every broadcast amount times 100 is the object's minor units (`amount`, or `amount_paid` for invoices) |
| Webhook.Admit | server/routes.ts:212-222 | An event is admitted iff it parses and, when a signing secret is set, its signature verifies |
| Webhook.HandleWebhook | server/routes.ts:202-319 | Not configured gives 400 and no change; rejected gives 400 and no change; a failing store write on an issue-filing event gives exactly 500 with store and hub unchanged; 500 changes nothing; 200 iff admitted and the store write did not fail, and then the store and hub are exactly the dispatch's write and broadcast |
| Webhook.PaymentFailedFilesOneIssue | server/routes.ts:239-261 | A failed payment with a customer files one issue under the next id (user 1, subscription 1, pending, the object's amount, retry at now + 24 h); without a customer nothing is filed; the broadcast goes out in both cases |
| Webhook.FailedPaymentReasonDefault | server/routes.ts:248 | The reason is the processor's message when it is non-empty, and "Payment failed" otherwise |
| Webhook.RedeliveryFilesTwice | server/routes.ts:239-253 | Delivering the same failed payment twice files two identical issues under two ids: there is no deduplication |
| Webhook.WebhookMovesFailedPayments | server/routes.ts:239-253 | A delivered failed payment with a customer raises the dashboard's failed-payment count by one; any other event leaves it |
| Routes.InsertNewestFirst | server/routes.ts:110 | Insertion keeps the newest-first order and adds exactly the one element |
| Routes.SortNewestFirst | server/routes.ts:110 | The sort by `createdAt` descending is a permutation of its input and is ordered newest first |
| Routes.RecentSubscriptions | server/routes.ts:105-116 | min(5, n) views, newest first, drawn from the listing (a sub-multiset) |
| Routes.RecentKeepsTheNewest | server/routes.ts:109-111 | Every listed view strictly newer than the oldest one returned is among those returned |
| Routes.RecentSubscriptionsRoute | server/routes.ts:105-116 | min(5, n) of the store's n joined views, newest first, drawn from the listing, with no omitted view newer than the oldest returned; each a valid join |
| Routes.UpdatePlanRoute | server/routes.ts:64-78 | An invalid body gives 400; an unknown or non-numeric id gives 404 "Plan not found"; both leave the store alone; otherwise the patched plan is returned and stored |
| Routes.DeletePlanRoute | server/routes.ts:80-93 | 404 "Plan not found" with no change iff the id names no plan; otherwise `{success: true}`, and the store differs only in that plan's `isActive`, now false |
| Routes.ResolveIssueRoute | server/routes.ts:128-141 | 404 "Payment issue not found" with no change iff the id names no issue; otherwise the issue with status resolved and `resolvedAt` now, every other field kept, and the store differs only in that issue |
| Routes.NotFoundChangesNothing | server/routes.ts:70-72 | A 404 never changes the store, on any of the three by-id routes |
| Routes.StatusProbe | server/routes.ts:322-334 | `activeConnections` is the hub's set size; the payment and webhook flags follow configuration; the other two flags are always on |
| Routes.ProbeTracksConnections | server/routes.ts:326 | The count starts at 0 with the empty socket set; a connect raises the probe's count by one, and the matching close restores it |
| Utils.FormatRelativeTime | client/src/lib/utils.ts:24-38 | Under 1 h, exactly 1 h, 2–23 h, 1 day, 2–6 days give the fixed texts; a calendar date is given iff at least 7 days have passed |
| Utils.GetStatusColor | client/src/lib/utils.ts:40-53 | Success for active/paid/resolved, warning for trial/pending, destructive for cancelled/failed, orange for past_due, gray iff none of the eight |
| Utils.CalculateChurnRate | client/src/lib/utils.ts:55-58 | 0 when total is 0; otherwise the tenths nearest to cancelled/total·1000, halves rounded up; within 0–100.0% when 0 ≤ cancelled ≤ total |
| Utils.PercentChangeSign | client/src/lib/utils.ts:67-68 | The change is non-negative iff the difference and previous do not have opposite signs; its magnitude is abs(diff)/abs(previous)·100 |
| Utils.Change | client/src/lib/utils.ts:67-71 | The returned rate is non-negative and is abs(diff)/abs(previous)·100; the flag holds iff diff and previous do not have opposite signs |
| Utils.CalculateGrowthRate | client/src/lib/utils.ts:60-72 | previous = 0 gives (0, positive, "0%"); otherwise positive iff the change is non-negative, and `rate` is its absolute value; the text ends in '%' and starts with '+' iff positive |
| PlanModal.InitialFeatures | client/src/components/plan-modal.tsx:51-53 | One empty row for a new plan; the edited plan's own list otherwise, even when it is empty |
| PlanModal.AddFeature | client/src/components/plan-modal.tsx:66-70 | Exactly one `""` appended, and earlier rows unchanged |
| PlanModal.RemoveFeature | client/src/components/plan-modal.tsx:72-76 | An in-range index removes exactly that row and keeps the order of the rest; an out-of-range index changes nothing |
| PlanModal.UpdateFeature | client/src/components/plan-modal.tsx:78-83 | Only the given row changes; the length is kept |
| PlanModal.SubmittedFeatures | client/src/components/plan-modal.tsx:86 | A row is kept iff it is not blank under `trim` |
| PlanModal.SubmittedFeaturesConcat | client/src/components/plan-modal.tsx:86 | The filter distributes over concatenation, so kept rows keep their relative order |
| PlanModal.SubmittedFeaturesIdempotent | client/src/components/plan-modal.tsx:86 | Filtering twice equals filtering once |
| PlanModal.Problems | client/src/components/plan-modal.tsx:32-38 | The schema rejects exactly an empty name, an empty price, a cycle outside the enum, and an empty feature list |
| PlanModal.HandleSubmit | client/src/components/plan-modal.tsx:85-88 | Something is sent iff validation passes, and it is the form with its blank rows dropped |
| PlanModal.AllBlankRowsSubmitEmpty | client/src/components/plan-modal.tsx:85-87 | Validation runs before filtering: a list of only blank rows passes and is sent empty |
| PlanModal.EditsKeepARow | client/src/components/plan-modal.tsx:192-202 | The edits the dialog offers (remove only while there are two or more rows) never empty a non-empty list |
| PlanModal.NewPlanFeaturesNeverEmpty | client/src/components/plan-modal.tsx:51-53 | A new plan's list stays non-empty under any sequence of offered edits |
| PlanModal.Mount | client/src/components/plan-modal.tsx:51-64 | At mount, the rows, the form's field and the form's default all hold the initial features of the plan passed at that moment |
| PlanModal.EditSession | client/src/components/plan-modal.tsx:66-83 | Every edit writes the same new list to the rows and to the form's field; the default stays |
| PlanModal.HandleClose | client/src/components/plan-modal.tsx:90-94 | The rows go back to one empty row; the form's field goes back to the default fixed at mount |
| PlanModal.PlansPageSessionsAgree | client/src/pages/plans.tsx:165-173 | Mounted once with no plan, as the plans page does, on every history of edits, closes, submits and re-renders the rows equal the form's field and the default stays one empty row, so an edited plan's features are never loaded |
| PlanModal.SubmittedRowsCarryOver | client/src/pages/plans.tsx:20-86 | A close after a successful submit skips `handleClose`, and re-rendering with another plan changes nothing: the next opening continues from the previous rows |
| PlanModal.CloseResets | client/src/components/plan-modal.tsx:90-94 | With the default one empty row, closing equals a fresh mount with no plan; mounted with a plan whose list is not one empty row, the two copies differ after a close |
| Sidebar.ActiveFlags | client/src/components/sidebar.tsx:41-43 | One flag per entry, true iff `isActive` holds for that entry's href |
| Sidebar.RootOnlyOnRoot | client/src/components/sidebar.tsx:43 | The "/" entry is active iff the location is exactly "/" |
| Sidebar.OwnPathIsActive | client/src/components/sidebar.tsx:43 | Each entry is active on its own href |
| Sidebar.NoSegmentBoundary | client/src/components/sidebar.tsx:43 | "/plansX" activates the plans entry just as "/plans/3" does |
| Sidebar.AtMostOneActive | client/src/components/sidebar.tsx:15-22 | With the six hrefs, two active entries are the same entry |
| Dashboard.FormatTimeAgo | client/src/pages/dashboard.tsx:67-76 | Under 1 h (negative included), exactly 1 h, and 2–23 h give the fixed texts; from 24 h on it is floor(h/24) days, plural iff more than one |
| Dashboard.TimeAgoMatchesRelativeTime | client/src/pages/dashboard.tsx:67-76 | Under a week it gives the same text as the shared `formatRelativeTime` |
| Dashboard.TimeAgoKeepsCountingDays | client/src/pages/dashboard.tsx:75 | From a week on it still says "N days ago", where the shared helper gives a date |
| Dashboard.GetStatusBadge | client/src/pages/dashboard.tsx:58-65 | Success iff active, warning iff trial, destructive iff cancelled, gray for every other text (inherited prototype names aside, see Left out) |
| Dashboard.BadgeVersusStatusColor | client/src/pages/dashboard.tsx:58-65 | It agrees with `getStatusColor` on those three, and gives gray for past_due where that one gives orange |
| Dashboard.IssuePanel | client/src/pages/dashboard.tsx:275 | A prefix of the listing, of length min(3, n) |
| Dashboard.PendingBadge | client/src/pages/dashboard.tsx:256-259 | Shown iff the listing is non-empty, with the listing's length |
| Dashboard.BadgeCountsSettledIssues | client/src/pages/dashboard.tsx:256-259 | The badge equals the number of pending issues iff every listed issue is pending |
| Dashboard.PlanColor | client/src/pages/dashboard.tsx:170-171 | Plans at positions 0, 3, 6, … are primary, 1, 4, … success, 2, 5, … warning |
| Dashboard.PlanColorsCycle | client/src/pages/dashboard.tsx:170-171 | The first three plans are primary, success and warning; the colours repeat every three plans, and neighbours differ |

## Left out

- Payment-processor SDK calls are left out: `constructEvent`, customer, subscription and payment-intent creation (server/routes.ts:144-199, 214) are foreign or network code. Signature validity and the parsed event are inputs of `Webhook.HandleWebhook`.
- Whether the store write throws is an input (`storeFails`). The in-memory store never throws, but the handler's `catch` is modelled.
- HTTP, Express routing, the raw-body middleware, JSON serialisation and the WebSocket transport are left out. Each socket's ready state at broadcast time is an input set `open`.
- Logging (`console.log`) is left out.
- Floating point is left out. Prices, amounts and revenue are integer cents, and rates are exact. `parseFloat` and double rounding error are not modelled.
- `formatCurrency`, `formatDate` and `cn` (client/src/lib/utils.ts:4-22) are left out. They wrap Intl, clsx and tailwind-merge. `formatRelativeTime` returns `CalendarDate(date)` where it would call `formatDate`.
- Concurrency and event-loop interleaving are left out. Hub and store operations are sequential.
- The UI and mock-data pages (settings, analytics, billing, subscribe, plans, customers, plan-card, metrics-cards, the use-realtime hook) and all rendering are left out.
- The plan dialog's form defaults for name, description, price and billing cycle are left out. Only the feature list's initial value is modelled.
- `parseInt` of a path id is an input `Option<int>`. None stands for NaN. Prefix parsing such as "12abc" giving 12 is not modelled.
- Schema.PlanInsertShape: the insert shapes are Dafny datatypes, not zod schemas. The `decimal` price is signed cents. A price string that is not a number, or has more than two decimals, is not modelled.
- Storage.GetSubscriptions: the joins and listings describe ascending id order. That order relies on keys only ever arriving in increasing order, which holds for every operation modelled.
- Dashboard.GetStatusBadge: the badge table is a plain object literal, so a status naming an inherited `Object.prototype` member ("constructor", "toString", "__proto__") yields that member in JavaScript, not the gray default. It is treated as an unknown status here.
- Utils.GetStatusColor: a status that names an inherited `Object.prototype` member (such as "constructor") would index the table's prototype in JavaScript. It is treated as an unknown status here.
- Utils.CalculateGrowthRate: the sign of `formatted` is stated only for previous ≠ 0. For previous = 0 the text is "0%", without a '+', although `isPositive` is true. The digits of the rounded rate are produced, but `Number.prototype.toString` on doubles is not reproduced beyond one decimal.
- PlanModal.UpdateFeature: it requires an index in range. The dialog only passes indices of rendered rows, and JavaScript's extension of the array past its end is not modelled.
- Routes.SortNewestFirst: ties keep a definite order, but the stability of `Array.prototype.sort` is not stated.
- Webhook.Admit: the event is either decoded or not. A body that parses to something other than an object (such as `null` or `42`) makes `switch (event.type)` throw. A body that lacks `data.object` makes the handled branches throw a `TypeError`. The source answers both with 500 (server/routes.ts:226-228, 313-315); such events are not modelled. A missing or unknown `type` is modelled: it gets 200 with no effect.
- PlanModal.Mount: a mount with a plan is modelled, but the only call site mounts with none (client/src/pages/plans.tsx:165-173). The effect of `Dialog`'s `onOpenChange(true)` is not modelled, since the parent opens the dialog itself.
- Webhook.Dispatch: the `status`, `currency` and id fields are passed through as text. The processor's object types are one shared record `EventObject` holding the fields the handler reads.
- Webhook.FailedPaymentIssue: the issue's amount `(amount / 100).toString()` is kept as the same number of cents, not as decimal text.
