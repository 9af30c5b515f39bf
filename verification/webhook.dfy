/** The processor webhook: admission (configuration, signature, parse),
    the dispatch on the event type, and the resulting store write and
    broadcast. Signature checking and JSON parsing are foreign code, so
    their outcomes are inputs. */
module Webhook {
  import opened Wrappers
  import opened Schema
  import Storage
  import Hub
  import Metrics

  /** The fields the handler reads from `event.data.object`, whichever
      object kind it is. Money is in integer minor units (cents). */
  datatype EventObject = EventObject(
    id: string,
    amount: int,
    amountPaid: int,
    currency: string,
    customer: Option<string>,
    subscription: Option<string>,
    status: string,
    lastPaymentErrorMessage: Option<string>)

  datatype Event = Event(eventType: string, dataObject: EventObject)

  const PaymentSucceededType := "payment_intent.succeeded"
  const PaymentFailedType := "payment_intent.payment_failed"
  const InvoiceSucceededType := "invoice.payment_succeeded"
  const SubscriptionCreatedType := "customer.subscription.created"
  const SubscriptionUpdatedType := "customer.subscription.updated"
  const SubscriptionDeletedType := "customer.subscription.deleted"

  const HandledTypes: set<string> := {PaymentSucceededType, PaymentFailedType, InvoiceSucceededType,
    SubscriptionCreatedType, SubscriptionUpdatedType, SubscriptionDeletedType}

  const FailedPaymentReason := "Payment failed"
  const RetryDelay: int := 24 * 60 * 60 * 1000

  /** The record a failed payment files; user and subscription are fixed
      to 1 rather than looked up from the processor's customer. */
  function FailedPaymentIssue(o: EventObject, now: Time): NewPaymentIssue {
    var reason := if o.lastPaymentErrorMessage.Some? && o.lastPaymentErrorMessage.value != ""
      then o.lastPaymentErrorMessage.value else FailedPaymentReason;
    NewPaymentIssue(1, 1, reason, o.amount, Pending, Some(now + RetryDelay), None)
  }

  /** A broadcast the handler asks for: the event tag and its data. */
  datatype Notice = Notice(tag: string, data: Hub.Payload)

  /** What handling an event does: an optional record to file, then an
      optional broadcast. */
  datatype Effect = Effect(issue: Option<NewPaymentIssue>, notice: Option<Notice>)

  /** JavaScript truthiness of an optional string. */
  predicate Truthy(s: Option<string>) {
    s.Some? && s.value != ""
  }

  function Cents(n: int): real {
    n as real / 100.0
  }

  /** The `switch (event.type)`. */
  function Dispatch(e: Event, now: Time): (r: Effect)
    ensures r.issue.Some? <==> e.eventType == PaymentFailedType && Truthy(e.dataObject.customer)
    ensures r.issue.Some? ==> r.issue.value == FailedPaymentIssue(e.dataObject, now)
    ensures r.notice.Some? <==> e.eventType in HandledTypes
  {
    var o := e.dataObject;
    match e.eventType
    case "payment_intent.succeeded" =>
      Effect(None, Some(Notice("payment_success", Hub.PaymentSucceeded(Cents(o.amount), o.currency, o.customer))))
    case "payment_intent.payment_failed" =>
      Effect(if Truthy(o.customer) then Some(FailedPaymentIssue(o, now)) else None,
             Some(Notice("payment_failed", Hub.PaymentFailed(Cents(o.amount), o.lastPaymentErrorMessage, o.customer))))
    case "invoice.payment_succeeded" =>
      Effect(None, Some(Notice("invoice_paid", Hub.InvoicePaid(Cents(o.amountPaid), o.subscription, o.customer))))
    case "customer.subscription.created" =>
      Effect(None, Some(Notice("subscription_created", Hub.SubscriptionChanged(o.id, o.customer, o.status))))
    case "customer.subscription.updated" =>
      Effect(None, Some(Notice("subscription_updated", Hub.SubscriptionChanged(o.id, o.customer, o.status))))
    case "customer.subscription.deleted" =>
      Effect(None, Some(Notice("subscription_cancelled", Hub.SubscriptionEnded(o.id, o.customer))))
    case _ => Effect(None, None)
  }

  /** The processor type to broadcast tag table, as an independent lookup. */
  function TagFor(eventType: string): Option<string> {
    if eventType == PaymentSucceededType then Some("payment_success")
    else if eventType == PaymentFailedType then Some("payment_failed")
    else if eventType == InvoiceSucceededType then Some("invoice_paid")
    else if eventType == SubscriptionCreatedType then Some("subscription_created")
    else if eventType == SubscriptionUpdatedType then Some("subscription_updated")
    else if eventType == SubscriptionDeletedType then Some("subscription_cancelled")
    else None
  }

  /** Every event is broadcast under the tag the table gives, and an
      unknown type produces neither a broadcast nor a write. */
  lemma DispatchFollowsTagTable(e: Event, now: Time)
    ensures var r := Dispatch(e, now);
      && (r.notice.Some? <==> TagFor(e.eventType).Some?)
      && (r.notice.Some? ==> r.notice.value.tag == TagFor(e.eventType).value)
      && (TagFor(e.eventType).None? ==> r == Effect(None, None))
  {
  }

  /** Every amount put on the wire is the object's minor units over 100. */
  lemma BroadcastAmountsAreCentsOver100(e: Event, now: Time)
    ensures var r := Dispatch(e, now);
      r.notice.Some? && r.notice.value.data.PaymentSucceeded? ==>
        r.notice.value.data.amount * 100.0 == e.dataObject.amount as real
    ensures var r := Dispatch(e, now);
      r.notice.Some? && r.notice.value.data.PaymentFailed? ==>
        r.notice.value.data.amount * 100.0 == e.dataObject.amount as real
    ensures var r := Dispatch(e, now);
      r.notice.Some? && r.notice.value.data.InvoicePaid? ==>
        r.notice.value.data.amount * 100.0 == e.dataObject.amountPaid as real
  {
  }

  /** The kind of `data` object each message carries. */
  datatype PayloadKind = SucceededKind | FailedKind | InvoiceKind | ChangedKind | EndedKind

  /** The processor type to payload kind table, as an independent lookup. */
  function KindFor(eventType: string): Option<PayloadKind> {
    if eventType == PaymentSucceededType then Some(SucceededKind)
    else if eventType == PaymentFailedType then Some(FailedKind)
    else if eventType == InvoiceSucceededType then Some(InvoiceKind)
    else if eventType == SubscriptionCreatedType || eventType == SubscriptionUpdatedType then Some(ChangedKind)
    else if eventType == SubscriptionDeletedType then Some(EndedKind)
    else None
  }

  function KindOf(p: Hub.Payload): Option<PayloadKind> {
    match p
    case Welcome(_) => None
    case PaymentSucceeded(_, _, _) => Some(SucceededKind)
    case PaymentFailed(_, _, _) => Some(FailedKind)
    case InvoicePaid(_, _, _) => Some(InvoiceKind)
    case SubscriptionChanged(_, _, _) => Some(ChangedKind)
    case SubscriptionEnded(_, _) => Some(EndedKind)
  }

  /** Every broadcast carries the payload kind the table gives for its
      type, the object's customer, and the object's own fields for that
      kind: currency, error message, invoice subscription, or subscription
      id and status. With the amounts above, this fixes every payload. */
  lemma BroadcastCarriesTheObject(e: Event, now: Time)
    ensures var r := Dispatch(e, now);
      r.notice.Some? ==> KindOf(r.notice.value.data) == KindFor(e.eventType)
    ensures var r := Dispatch(e, now); var o := e.dataObject;
      r.notice.Some? ==>
        var d := r.notice.value.data;
        && !d.Welcome? && d.customerId == o.customer
        && (d.PaymentSucceeded? ==> d.currency == o.currency)
        && (d.PaymentFailed? ==> d.reason == o.lastPaymentErrorMessage)
        && (d.InvoicePaid? ==> d.subscriptionRef == o.subscription)
        && (d.SubscriptionChanged? ==> d.subscriptionId == o.id && d.status == o.status)
        && (d.SubscriptionEnded? ==> d.subscriptionId == o.id)
  {
  }

  // ---------------------------------------------------------------- the endpoint

  /** How the raw request decodes: whether a signing secret is set, whether
      the signature matches it, and the parsed event (None when `JSON.parse`
      or the processor's signature check throws). */
  datatype Ingress = Ingress(secretSet: bool, signatureValid: bool, parsed: Option<Event>)

  /** Without a secret the body is parsed unchecked; with one the signature
      must also verify. */
  function Admit(i: Ingress): (r: Option<Event>)
    ensures r.Some? <==> i.parsed.Some? && (i.secretSet ==> i.signatureValid)
    ensures r.Some? ==> r == i.parsed
  {
    if i.secretSet && !i.signatureValid then None else i.parsed
  }

  datatype Reply = NotConfigured | Rejected | ProcessingFailed | Received

  function StatusCode(r: Reply): int {
    match r
    case NotConfigured => 400
    case Rejected => 400
    case ProcessingFailed => 500
    case Received => 200
  }

  datatype Outcome = Outcome(reply: Reply, store: Storage.Store, hub: Hub.Hub)

  /** The whole handler. `storeFails` says whether the store write throws;
      `open` is the set of sockets whose state is OPEN when the broadcast
      runs. */
  function HandleWebhook(configured: bool, ingress: Ingress, storeFails: bool,
                         st: Storage.Store, h: Hub.Hub, open: set<Hub.ClientId>, now: Time): (r: Outcome)
    requires Storage.Valid(st) && Hub.Valid(h)
    ensures Storage.Valid(r.store) && Hub.Valid(r.hub)
    ensures !configured ==> r == Outcome(NotConfigured, st, h)
    ensures configured && Admit(ingress).None? ==> r == Outcome(Rejected, st, h)
    ensures configured && Admit(ingress).Some? && storeFails
            && Dispatch(Admit(ingress).value, now).issue.Some? ==>
      r == Outcome(ProcessingFailed, st, h)
    ensures r.reply == ProcessingFailed ==> r.store == st && r.hub == h
    ensures StatusCode(r.reply) == 200 <==>
      (configured && Admit(ingress).Some? && !(storeFails && Dispatch(Admit(ingress).value, now).issue.Some?))
    ensures r.reply == Received ==>
      var fx := Dispatch(Admit(ingress).value, now);
      && r.store == (if fx.issue.Some? then Storage.CreatePaymentIssue(st, fx.issue.value, now).store else st)
      && r.hub == (if fx.notice.Some?
                   then Hub.Broadcast(h, open, fx.notice.value.tag, fx.notice.value.data, now)
                   else h)
  {
    if !configured then Outcome(NotConfigured, st, h)
    else
      match Admit(ingress)
      case None => Outcome(Rejected, st, h)
      case Some(e) =>
        var fx := Dispatch(e, now);
        if fx.issue.Some? && storeFails then Outcome(ProcessingFailed, st, h)
        else
          var st' := if fx.issue.Some? then Storage.CreatePaymentIssue(st, fx.issue.value, now).store else st;
          var h' := if fx.notice.Some?
            then Hub.Broadcast(h, open, fx.notice.value.tag, fx.notice.value.data, now)
            else h;
          Outcome(Received, st', h')
  }

  /** A failed payment with a customer files exactly one pending issue
      under the next issue id, for the object's amount; without a
      customer nothing is filed, and the broadcast goes out either way. */
  lemma PaymentFailedFilesOneIssue(st: Storage.Store, h: Hub.Hub, open: set<Hub.ClientId>,
                                   o: EventObject, now: Time)
    requires Storage.Valid(st) && Hub.Valid(h)
    ensures var r := HandleWebhook(true, Ingress(false, false, Some(Event(PaymentFailedType, o))), false, st, h, open, now);
      && r.reply == Received
      && (Truthy(o.customer) ==>
            && r.store.issues.Keys == st.issues.Keys + {st.nextIssueId}
            && var i := r.store.issues[st.nextIssueId];
               i.userId == 1 && i.subscriptionId == 1 && i.status == Pending && i.amount == o.amount
               && i.retryDate == Some(now + RetryDelay))
      && (!Truthy(o.customer) ==> r.store == st)
      && r.hub.clients == h.clients
      && (forall c :: c in h.outbox && Hub.Reaches(h, open, c) ==>
            r.hub.outbox[c] == h.outbox[c] + [Hub.Envelope("payment_failed",
              Hub.PaymentFailed(Cents(o.amount), o.lastPaymentErrorMessage, o.customer), now)])
  {
  }

  /** The reason on the filed issue is the processor's message when it is
      non-empty, and the fixed fallback otherwise. */
  lemma FailedPaymentReasonDefault(o: EventObject, now: Time)
    ensures Truthy(o.lastPaymentErrorMessage) ==>
      FailedPaymentIssue(o, now).reason == o.lastPaymentErrorMessage.value
    ensures !Truthy(o.lastPaymentErrorMessage) ==> FailedPaymentIssue(o, now).reason == "Payment failed"
  {
  }

  /** There is no deduplication: delivering the same failed payment twice
      files two issues with the same contents under two ids. */
  lemma RedeliveryFilesTwice(st: Storage.Store, h: Hub.Hub, open: set<Hub.ClientId>,
                             o: EventObject, now: Time)
    requires Storage.Valid(st) && Hub.Valid(h) && Truthy(o.customer)
    ensures var ingress := Ingress(false, false, Some(Event(PaymentFailedType, o)));
      var r1 := HandleWebhook(true, ingress, false, st, h, open, now);
      var r2 := HandleWebhook(true, ingress, false, r1.store, r1.hub, open, now);
      && r2.store.issues.Keys == st.issues.Keys + {st.nextIssueId, st.nextIssueId + 1}
      && r2.store.issues[st.nextIssueId].(id := 0) == r2.store.issues[st.nextIssueId + 1].(id := 0)
  {
    var ingress := Ingress(false, false, Some(Event(PaymentFailedType, o)));
    var r1 := HandleWebhook(true, ingress, false, st, h, open, now);
    assert r1.store.nextIssueId == st.nextIssueId + 1;
  }

  /** A delivered failed payment with a customer shows up on the dashboard
      as one more failed payment; every other delivered event leaves that
      count alone. */
  lemma WebhookMovesFailedPayments(ingress: Ingress, st: Storage.Store, h: Hub.Hub,
                                   open: set<Hub.ClientId>, now: Time)
    requires Storage.Valid(st) && Hub.Valid(h) && Admit(ingress).Some?
    ensures var r := HandleWebhook(true, ingress, false, st, h, open, now);
      var e := Admit(ingress).value;
      Metrics.GetDashboardMetrics(r.store).failedPayments
      == Metrics.GetDashboardMetrics(st).failedPayments
         + (if e.eventType == PaymentFailedType && Truthy(e.dataObject.customer) then 1 else 0)
  {
    var e := Admit(ingress).value;
    var fx := Dispatch(e, now);
    if fx.issue.Some? {
      Metrics.CreateIssueMovesFailedPayments(st, fx.issue.value, now);
    }
  }
}
