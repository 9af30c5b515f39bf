/** The broadcast hub: the set of connected real-time sockets and what has
    been sent down each one. A socket's ready state at the moment of a
    broadcast is an input (the transport owns it); the hub itself only adds
    on connect, removes on close or error, and fans messages out. */
module Hub {
  import opened Wrappers
  import opened Schema

  type ClientId = nat

  /** The `data` object of each message kind the server sends. Amounts are
      the processor's integer minor units divided by 100, so they are exact
      rationals here. */
  datatype Payload =
    | Welcome(message: string)
    | PaymentSucceeded(amount: real, currency: string, customerId: Option<string>)
    | PaymentFailed(amount: real, reason: Option<string>, customerId: Option<string>)
    | InvoicePaid(amount: real, subscriptionRef: Option<string>, customerId: Option<string>)
    | SubscriptionChanged(subscriptionId: string, customerId: Option<string>, status: string)
    | SubscriptionEnded(subscriptionId: string, customerId: Option<string>)

  /** One serialised message: `{event, data, timestamp}`. */
  datatype Envelope = Envelope(event: string, data: Payload, timestamp: Time)

  /** `outbox[c]` is everything socket c has been sent, oldest first; it is
      kept after c leaves, so that "nothing more arrives" can be stated. */
  datatype Hub = Hub(clients: set<ClientId>, outbox: map<ClientId, seq<Envelope>>)

  const ConnectedEvent := "connected"
  const WelcomeText := "Real-time updates connected"

  predicate Valid(h: Hub) {
    h.clients <= h.outbox.Keys
  }

  function Empty(): (h: Hub)
    ensures Valid(h) && h.clients == {} && h.outbox == map[]
  {
    Hub({}, map[])
  }

  /** The number the status probe reports. */
  function ActiveConnections(h: Hub): nat {
    |h.clients|
  }

  /** A new socket joins the set and is sent exactly one welcome message. */
  function Connect(h: Hub, c: ClientId, now: Time): (r: Hub)
    requires Valid(h) && c !in h.outbox
    ensures Valid(r)
    ensures r.clients == h.clients + {c}
    ensures ActiveConnections(r) == ActiveConnections(h) + 1
    ensures r.outbox[c] == [Envelope(ConnectedEvent, Welcome(WelcomeText), now)]
    ensures forall d :: d in h.outbox ==> d in r.outbox && r.outbox[d] == h.outbox[d]
  {
    Hub(h.clients + {c}, h.outbox[c := [Envelope(ConnectedEvent, Welcome(WelcomeText), now)]])
  }

  /** Both the `close` and the `error` handler delete the socket from the
      set; deleting one that is not there is a no-op. */
  function Disconnect(h: Hub, c: ClientId): (r: Hub)
    requires Valid(h)
    ensures Valid(r)
    ensures r.clients == h.clients - {c} && r.outbox == h.outbox
    ensures ActiveConnections(r) == ActiveConnections(h) - (if c in h.clients then 1 else 0)
  {
    Hub(h.clients - {c}, h.outbox)
  }

  /** Whether a broadcast reaches socket c: it must be a member and OPEN. */
  predicate Reaches(h: Hub, open: set<ClientId>, c: ClientId) {
    c in h.clients && c in open
  }

  /** Sends the same envelope to every member whose state is OPEN. */
  function Broadcast(h: Hub, open: set<ClientId>, event: string, data: Payload, now: Time): (r: Hub)
    requires Valid(h)
    ensures Valid(r)
    ensures r.clients == h.clients && r.outbox.Keys == h.outbox.Keys
    ensures forall c :: c in h.outbox && Reaches(h, open, c) ==>
      r.outbox[c] == h.outbox[c] + [Envelope(event, data, now)]
    ensures forall c :: c in h.outbox && !Reaches(h, open, c) ==> r.outbox[c] == h.outbox[c]
  {
    var env := Envelope(event, data, now);
    Hub(h.clients, map c | c in h.outbox :: if Reaches(h, open, c) then h.outbox[c] + [env] else h.outbox[c])
  }

  /** The `forEach` over the set, one socket at a time: it sends exactly
      what `Broadcast` describes, whatever order the set is visited in. */
  method Fanout(h: Hub, open: set<ClientId>, env: Envelope) returns (outbox: map<ClientId, seq<Envelope>>)
    requires Valid(h)
    ensures outbox == Broadcast(h, open, env.event, env.data, env.timestamp).outbox
  {
    outbox := h.outbox;
    var pending := h.clients;
    while pending != {}
      invariant pending <= h.clients
      invariant outbox.Keys == h.outbox.Keys
      invariant forall c :: c in h.outbox && c !in pending && Reaches(h, open, c) ==>
        outbox[c] == h.outbox[c] + [env]
      invariant forall c :: c in h.outbox && (c in pending || !Reaches(h, open, c)) ==>
        outbox[c] == h.outbox[c]
      decreases pending
    {
      var c :| c in pending;
      if c in open {
        outbox := outbox[c := outbox[c] + [env]];
      }
      pending := pending - {c};
    }
  }

  /** Connecting and then closing a socket leaves the membership as it was;
      the socket has received the welcome and nothing else. */
  lemma ConnectThenDisconnect(h: Hub, c: ClientId, now: Time)
    requires Valid(h) && c !in h.outbox
    ensures var r := Disconnect(Connect(h, c, now), c);
      && r.clients == h.clients
      && ActiveConnections(r) == ActiveConnections(h)
      && r.outbox[c] == [Envelope(ConnectedEvent, Welcome(WelcomeText), now)]
  {
  }

  /** A closed socket receives no later broadcast. */
  lemma NoDeliveryAfterDisconnect(h: Hub, c: ClientId, open: set<ClientId>, event: string, data: Payload, now: Time)
    requires Valid(h) && c in h.outbox
    ensures var h' := Disconnect(h, c);
      Broadcast(h', open, event, data, now).outbox[c] == h.outbox[c]
  {
  }

  /** Successive broadcasts reach an open member in the order they were made. */
  lemma BroadcastsArriveInOrder(h: Hub, open1: set<ClientId>, open2: set<ClientId>,
                                e1: Envelope, e2: Envelope, c: ClientId)
    requires Valid(h) && c in h.clients && c in open1 && c in open2
    ensures var h1 := Broadcast(h, open1, e1.event, e1.data, e1.timestamp);
      var h2 := Broadcast(h1, open2, e2.event, e2.data, e2.timestamp);
      h2.outbox[c] == h.outbox[c] + [e1, e2]
  {
    var h1 := Broadcast(h, open1, e1.event, e1.data, e1.timestamp);
    assert h1.outbox[c] == h.outbox[c] + [e1];
  }
}
