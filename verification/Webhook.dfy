/**
 Stripe webhook deliveries: deduplication against the processed-event log, one handler per event type,
 and handler effects committed together with the processed mark or not at all.

 `Handle` says what a handler does to the tables, `Deliver` what a whole delivery does to the store.
 The class Service.WebhookEndpoint carries the same steps out on a session and is proved against them.
 */
module Webhook {
  import opened Types
  import opened Tables

  /** `metadata["tenant_id"]`: absent or empty, not a UUID, or a UUID. */
  datatype TenantRef = Missing | Malformed | Parsed(tenant: TenantId)

  /** The price id of the first item; `Unreadable` when reading it raises. */
  datatype PriceRef = NoPrice | PriceId(id: string) | Unreadable

  /** A Stripe subscription object. A period bound or status the service cannot convert raises. */
  datatype StripeSubscription = StripeSubscription(
    id: string,
    status: string,
    tenant: TenantRef,
    price: PriceRef,
    periodStart: Option<int>,
    periodEnd: Option<int>,
    cancelAtPeriodEnd: bool,
    canceledAt: Option<int>)

  datatype EventBody =
    | CheckoutCompleted(tenant: TenantRef, subscription: Option<string>, displayed: PriceRef)
    | PaymentSucceeded(invoiced: Option<string>)
    | PaymentFailed(invoiced: Option<string>)
    | SubscriptionCreated(sub: StripeSubscription)
    | SubscriptionUpdated(sub: StripeSubscription)
    | SubscriptionDeleted(sub: StripeSubscription)
    | TrialWillEnd
    | InvoiceUpcoming
    | Unhandled

  datatype Customer = Customer(id: string, email: Option<string>)

  /** A delivery with everything its handler reads from outside the database: the clock, the id a new tenant would
      get, Stripe's answer about the customer (`None` when the call fails). */
  datatype Delivery = Delivery(
    eventId: string,
    body: EventBody,
    now: int,
    freshTenant: TenantId,
    customer: Option<Customer>,
    payloadStorable: bool)

  datatype WebhookOutcome = AlreadyProcessed | Processed | Failed

  /** Committed state: the tables and the processed-event rows in the order they were committed. */
  datatype Store = Store(tables: Tables, log: seq<Delivery>)

  const THIRTY_DAYS := 30 * 86_400

  /** A missing or zero timestamp is falsy. */
  function Truthy(t: Option<int>): Option<int> {
    if t == Some(0) then None else t
  }

  function TierOf(price: PriceRef, proPriceId: string): PlanTier {
    if price == PriceId(proPriceId) then Pro else Free
  }

  function CheckoutRow(tenant: TenantId, stripeId: Option<string>, tier: PlanTier, now: int): Subscription {
    Subscription(tenant, tier, stripeId, Active, Some(now), Some(now + THIRTY_DAYS), false, None)
  }

  /** Resolve the tenant (creating one when none is named), then upsert its subscription as active. An unknown or
      malformed tenant ends the handler without effect and without error. */
  function HandleCheckout(proPriceId: string, tables: Tables, d: Delivery): Attempt<Tables>
    requires d.body.CheckoutCompleted?
  {
    match d.body.tenant
    case Malformed => Success(tables)
    case Parsed(t) =>
      if t in tables.tenants then UpsertCheckout(proPriceId, tables, d, t) else Success(tables)
    case Missing =>
      if d.customer.None? then
        Failure
      else
        var created :- CreateTenant(tables, d.freshTenant, d.customer.value.email, d.customer.value.id);
        UpsertCheckout(proPriceId, created, d, d.freshTenant)
  }

  function UpsertCheckout(proPriceId: string, tables: Tables, d: Delivery, tenant: TenantId): Attempt<Tables>
    requires d.body.CheckoutCompleted?
  {
    if GetByStripeId(tables.subs, d.body.subscription).ManyRows? then
      Failure
    else
      UpsertFromStripe(tables, CheckoutRow(tenant, d.body.subscription, TierOf(d.body.displayed, proPriceId), d.now))
  }

  /** Set the status of the invoiced subscription, if the service knows it. */
  function HandleInvoice(tables: Tables, invoiced: Option<string>, status: SubscriptionStatus): Attempt<Tables> {
    if invoiced.None? || invoiced == Some("") then
      Success(tables)
    else
      match GetByStripeId(tables.subs, invoiced)
      case NoRow => Success(tables)
      case OneRow(i) => UpdateSubscription(tables, i, tables.subs[i].(status := status))
      case ManyRows => Failure
  }

  function HandleCreated(proPriceId: string, tables: Tables, sub: StripeSubscription): Attempt<Tables> {
    var status := ParseStatus(sub.status);
    match GetByStripeId(tables.subs, Some(sub.id))
    case ManyRows => Failure
    case OneRow(i) =>
      if status.None? then Failure
      else UpdateSubscription(tables, i, tables.subs[i].(status := status.value))
    case NoRow =>
      if sub.price.Unreadable? || !sub.tenant.Parsed? || status.None? || sub.periodStart.None?
         || sub.periodEnd.None? then
        Failure
      else
        InsertSubscription(tables, Subscription(sub.tenant.tenant, TierOf(sub.price, proPriceId), Some(sub.id),
          status.value, sub.periodStart, sub.periodEnd, sub.cancelAtPeriodEnd, Truthy(sub.canceledAt)))
  }

  /** The plan changes only when the new price id differs from the stored tier's own name. */
  function UpdatedTier(current: PlanTier, price: PriceRef, proPriceId: string): PlanTier {
    if price.PriceId? && price.id != TierValue(current) then TierOf(price, proPriceId) else current
  }

  function HandleUpdated(proPriceId: string, tables: Tables, sub: StripeSubscription): Attempt<Tables> {
    match GetByStripeId(tables.subs, Some(sub.id))
    case ManyRows => Failure
    case NoRow => Success(tables)
    case OneRow(i) =>
      var status := ParseStatus(sub.status);
      if status.None? || sub.periodStart.None? || sub.periodEnd.None? || sub.price.Unreadable? then
        Failure
      else
        var row := tables.subs[i];
        UpdateSubscription(tables, i, row.(status := status.value, periodStart := sub.periodStart,
          periodEnd := sub.periodEnd, cancelAtPeriodEnd := sub.cancelAtPeriodEnd,
          plan := UpdatedTier(row.plan, sub.price, proPriceId)))
  }

  function HandleDeleted(tables: Tables, sub: StripeSubscription, now: int): Attempt<Tables> {
    match GetByStripeId(tables.subs, Some(sub.id))
    case ManyRows => Failure
    case NoRow => Success(tables)
    case OneRow(i) =>
      var canceledAt := if Truthy(sub.canceledAt).Some? then sub.canceledAt else Some(now);
      UpdateSubscription(tables, i, tables.subs[i].(status := Canceled, canceledAt := canceledAt))
  }

  function Handle(proPriceId: string, tables: Tables, d: Delivery): Attempt<Tables> {
    match d.body
    case CheckoutCompleted(_, _, _) => HandleCheckout(proPriceId, tables, d)
    case PaymentSucceeded(s) => HandleInvoice(tables, s, Active)
    case PaymentFailed(s) => HandleInvoice(tables, s, PastDue)
    case SubscriptionCreated(sub) => HandleCreated(proPriceId, tables, sub)
    case SubscriptionUpdated(sub) => HandleUpdated(proPriceId, tables, sub)
    case SubscriptionDeleted(sub) => HandleDeleted(tables, sub, d.now)
    case TrialWillEnd => Success(tables)
    case InvoiceUpcoming => Success(tables)
    case Unhandled => Success(tables)
  }

  predicate IsProcessed(log: seq<Delivery>, eventId: string) {
    exists i | 0 <= i < |log| :: log[i].eventId == eventId
  }

  function Deliver(proPriceId: string, store: Store, d: Delivery): (Store, WebhookOutcome) {
    if IsProcessed(store.log, d.eventId) then
      (store, AlreadyProcessed)
    else
      var handled := Handle(proPriceId, store.tables, d);
      if handled.Success? && d.payloadStorable then
        (Store(handled.value, store.log + [d]), Processed)
      else
        (store, Failed)
  }

  function DeliverAll(proPriceId: string, store: Store, ds: seq<Delivery>): Store {
    if ds == [] then
      store
    else
      Deliver(proPriceId, DeliverAll(proPriceId, store, ds[..|ds| - 1]), ds[|ds| - 1]).0
  }

  /** The deliveries of a run that were answered `Processed`. */
  function Accepted(proPriceId: string, store: Store, ds: seq<Delivery>): seq<Delivery> {
    if ds == [] then
      []
    else
      var before, d := ds[..|ds| - 1], ds[|ds| - 1];
      var accepted := Accepted(proPriceId, store, before);
      if Deliver(proPriceId, DeliverAll(proPriceId, store, before), d).1 == Processed then accepted + [d] else accepted
  }

  /** The handlers folded over a log, with no deduplication and no rollback. */
  function Replay(proPriceId: string, origin: Tables, log: seq<Delivery>): Attempt<Tables> {
    if log == [] then
      Success(origin)
    else
      var tables :- Replay(proPriceId, origin, log[..|log| - 1]);
      Handle(proPriceId, tables, log[|log| - 1])
  }

  ghost predicate DistinctEvents(log: seq<Delivery>) {
    forall i, j | 0 <= i < j < |log| :: log[i].eventId != log[j].eventId
  }

  // ----- Refinement to the log -----

  /** Over any run from an empty log, whatever was redelivered or failed in between: the committed tables are the
      handlers folded over the committed log, the log is exactly the accepted deliveries in order, and no event id
      is in it twice. */
  lemma {:induction false} LogRefinement(proPriceId: string, origin: Tables, ds: seq<Delivery>)
    ensures var final := DeliverAll(proPriceId, Store(origin, []), ds);
            && final.log == Accepted(proPriceId, Store(origin, []), ds)
            && Replay(proPriceId, origin, final.log) == Success(final.tables)
            && DistinctEvents(final.log)
  {
    if ds != [] {
      var before, d := ds[..|ds| - 1], ds[|ds| - 1];
      LogRefinement(proPriceId, origin, before);
      var mid := DeliverAll(proPriceId, Store(origin, []), before);
      var (final, outcome) := Deliver(proPriceId, mid, d);
      if outcome == Processed {
        assert final.log[..|final.log| - 1] == mid.log;
      }
    }
  }

  /** Redeliveries and failed deliveries leave no trace: delivering only what was accepted gives the same store. */
  lemma {:induction false} RedeliveryIsHarmless(proPriceId: string, origin: Tables, ds: seq<Delivery>)
    ensures var start := Store(origin, []);
            DeliverAll(proPriceId, start, Accepted(proPriceId, start, ds)) == DeliverAll(proPriceId, start, ds)
  {
    if ds != [] {
      var start := Store(origin, []);
      var before, d := ds[..|ds| - 1], ds[|ds| - 1];
      RedeliveryIsHarmless(proPriceId, origin, before);
      var accepted := Accepted(proPriceId, start, ds);
      if accepted != Accepted(proPriceId, start, before) {
        assert accepted[..|accepted| - 1] == Accepted(proPriceId, start, before);
      }
    }
  }

  /** Once an event is processed, delivering its id again, after any further deliveries and with any body, answers
      `AlreadyProcessed` and changes nothing. */
  lemma {:induction false} ProcessedForGood(proPriceId: string, store: Store, d: Delivery, later: seq<Delivery>,
                                            again: Delivery)
    requires Deliver(proPriceId, store, d).1 != Failed && again.eventId == d.eventId
    ensures var now := DeliverAll(proPriceId, Deliver(proPriceId, store, d).0, later);
            Deliver(proPriceId, now, again) == (now, AlreadyProcessed)
  {
    var first := Deliver(proPriceId, store, d).0;
    if later == [] {
      if Deliver(proPriceId, store, d).1 == Processed {
        assert first.log[|store.log|] == d;
      }
    } else {
      var before := later[..|later| - 1];
      ProcessedForGood(proPriceId, store, d, before, again);
      var mid := DeliverAll(proPriceId, first, before);
      var i :| 0 <= i < |mid.log| && mid.log[i].eventId == again.eventId;
      var now := DeliverAll(proPriceId, first, later);
      assert now.log[i] == mid.log[i];
    }
  }

  /** All or nothing: unless it is answered `Processed`, a delivery changes neither the tables nor the log; and it
      is answered `Processed` exactly when its id is new, its handler succeeds and its payload can be stored. */
  lemma AllOrNothing(proPriceId: string, store: Store, d: Delivery)
    ensures var (after, outcome) := Deliver(proPriceId, store, d);
            && (outcome != Processed ==> after == store)
            && (outcome == Processed ==> after.log == store.log + [d])
            && (outcome == Processed <==>
                  (forall i | 0 <= i < |store.log| :: store.log[i].eventId != d.eventId)
                  && Handle(proPriceId, store.tables, d) == Success(after.tables) && d.payloadStorable)
  {
    var (after, outcome) := Deliver(proPriceId, store, d);
    if outcome == Failed {
      assert after.log != store.log + [d];
    }
  }

  // ----- The subscription table -----

  /** The Stripe subscription an event names, if any. */
  function Named(body: EventBody): Option<string> {
    match body
    case CheckoutCompleted(_, s, _) => s
    case PaymentSucceeded(s) => s
    case PaymentFailed(s) => s
    case SubscriptionCreated(sub) => Some(sub.id)
    case SubscriptionUpdated(sub) => Some(sub.id)
    case SubscriptionDeleted(sub) => Some(sub.id)
    case _ => None
  }

  /** A successful handler touches only the named subscription, drops no tenant, changes no plan and keeps the
      constraints. */
  lemma HandleKeepsTables(proPriceId: string, tables: Tables, d: Delivery)
    requires Handle(proPriceId, tables, d).Success?
    ensures var after := Handle(proPriceId, tables, d).value;
            Keeps(tables, after, Named(d.body)) && (Consistent(tables) ==> Consistent(after))
  {
    match d.body
    case CheckoutCompleted(_, _, _) => CheckoutKeepsTables(proPriceId, tables, d);
    case PaymentSucceeded(s) => InvoiceKeepsTables(tables, s, Active);
    case PaymentFailed(s) => InvoiceKeepsTables(tables, s, PastDue);
    case SubscriptionCreated(sub) => CreatedKeepsTables(proPriceId, tables, sub);
    case SubscriptionUpdated(sub) => UpdatedKeepsTables(proPriceId, tables, sub);
    case SubscriptionDeleted(sub) => DeletedKeepsTables(tables, sub, d.now);
    case _ =>
  }

  lemma CheckoutKeepsTables(proPriceId: string, tables: Tables, d: Delivery)
    requires d.body.CheckoutCompleted? && HandleCheckout(proPriceId, tables, d).Success?
    ensures var after := HandleCheckout(proPriceId, tables, d).value;
            Keeps(tables, after, Named(d.body)) && (Consistent(tables) ==> Consistent(after))
  {
    match d.body.tenant
    case Malformed =>
    case Parsed(t) =>
      if t in tables.tenants {
        UpsertKeeps(tables, CheckoutRow(t, d.body.subscription, TierOf(d.body.displayed, proPriceId), d.now));
      }
    case Missing =>
      var created := CreateTenant(tables, d.freshTenant, d.customer.value.email, d.customer.value.id).value;
      UpsertKeeps(created, CheckoutRow(d.freshTenant, d.body.subscription, TierOf(d.body.displayed, proPriceId),
          d.now));
  }

  lemma InvoiceKeepsTables(tables: Tables, invoiced: Option<string>, status: SubscriptionStatus)
    requires HandleInvoice(tables, invoiced, status).Success?
    ensures var after := HandleInvoice(tables, invoiced, status).value;
            Keeps(tables, after, invoiced) && (Consistent(tables) ==> Consistent(after))
  {
  }

  lemma CreatedKeepsTables(proPriceId: string, tables: Tables, sub: StripeSubscription)
    requires HandleCreated(proPriceId, tables, sub).Success?
    ensures var after := HandleCreated(proPriceId, tables, sub).value;
            Keeps(tables, after, Some(sub.id)) && (Consistent(tables) ==> Consistent(after))
  {
  }

  lemma UpdatedKeepsTables(proPriceId: string, tables: Tables, sub: StripeSubscription)
    requires HandleUpdated(proPriceId, tables, sub).Success?
    ensures var after := HandleUpdated(proPriceId, tables, sub).value;
            Keeps(tables, after, Some(sub.id)) && (Consistent(tables) ==> Consistent(after))
  {
  }

  lemma DeletedKeepsTables(tables: Tables, sub: StripeSubscription, now: int)
    requires HandleDeleted(tables, sub, now).Success?
    ensures var after := HandleDeleted(tables, sub, now).value;
            Keeps(tables, after, Some(sub.id)) && (Consistent(tables) ==> Consistent(after))
  {
  }

  /** Every run of deliveries keeps the constraints, keeps every row with its tenant and Stripe id, and leaves
      rows no accepted event names exactly as they were. */
  lemma {:induction false} RunKeepsSubscriptions(proPriceId: string, store: Store, ds: seq<Delivery>)
    requires Consistent(store.tables)
    ensures var final := DeliverAll(proPriceId, store, ds).tables;
            && Consistent(final)
            && final.plans == store.tables.plans
            && |store.tables.subs| <= |final.subs|
            && (forall i | 0 <= i < |store.tables.subs| ::
                  && final.subs[i].tenant == store.tables.subs[i].tenant
                  && final.subs[i].stripeId == store.tables.subs[i].stripeId
                  && (final.subs[i] != store.tables.subs[i] ==>
                        exists d :: d in Accepted(proPriceId, store, ds) && Named(d.body).Some?
                                    && Named(d.body) == store.tables.subs[i].stripeId))
  {
    if ds != [] {
      var before, d := ds[..|ds| - 1], ds[|ds| - 1];
      RunKeepsSubscriptions(proPriceId, store, before);
      var mid := DeliverAll(proPriceId, store, before);
      var final := DeliverAll(proPriceId, store, ds);
      if final != mid {
        HandleKeepsTables(proPriceId, mid.tables, d);
      }
      forall i | 0 <= i < |store.tables.subs| && final.tables.subs[i] != store.tables.subs[i]
        ensures exists e :: e in Accepted(proPriceId, store, ds) && Named(e.body).Some?
                            && Named(e.body) == store.tables.subs[i].stripeId
      {
        if mid.tables.subs[i] != store.tables.subs[i] {
          var e :| e in Accepted(proPriceId, store, before) && Named(e.body).Some?
                   && Named(e.body) == store.tables.subs[i].stripeId;
          assert e in Accepted(proPriceId, store, ds);
        } else {
          assert d in Accepted(proPriceId, store, ds);
        }
      }
    }
  }

  /** The guard on changing the plan compares a price id with a tier's name. It has an effect exactly when a price
      is named like the stored tier and stands for another one; otherwise the plan is the price's tier. */
  lemma PlanFollowsPrice(current: PlanTier, price: PriceRef, proPriceId: string)
    requires price.PriceId?
    ensures var bought := if price.id == proPriceId then Pro else Free;
            UpdatedTier(current, price, proPriceId) == bought <==>
              !(bought != current && price.id == (if current == Free then "FREE" else "PRO"))
  {
  }

  // ----- Last writer wins -----

  predicate Knows(subs: seq<Subscription>, stripeId: string) {
    exists i | 0 <= i < |subs| :: subs[i].stripeId == Some(stripeId)
  }

  datatype StatusWrite = StatusWrite(stripeId: string, status: SubscriptionStatus)

  /** The status an event writes and to which Stripe id, read off the event alone except for whether the row (or,
      for a checkout, the tenant) exists. */
  function StatusWritten(tables: Tables, body: EventBody): Option<StatusWrite> {
    match body
    case CheckoutCompleted(tenant, Some(s), _) =>
      if tenant.Missing? || (tenant.Parsed? && tenant.tenant in tables.tenants) then Some(StatusWrite(s, Active))
          else None
    case PaymentSucceeded(Some(s)) => if s != "" && Knows(tables.subs, s) then Some(StatusWrite(s, Active)) else None
    case PaymentFailed(Some(s)) => if s != "" && Knows(tables.subs, s) then Some(StatusWrite(s, PastDue)) else None
    case SubscriptionCreated(sub) =>
      if ParseStatus(sub.status).Some? then Some(StatusWrite(sub.id, ParseStatus(sub.status).value)) else None
    case SubscriptionUpdated(sub) =>
      if Knows(tables.subs, sub.id) && ParseStatus(sub.status).Some? then
        Some(StatusWrite(sub.id, ParseStatus(sub.status).value))
      else
        None
    case SubscriptionDeleted(sub) => if Knows(tables.subs, sub.id) then Some(StatusWrite(sub.id, Canceled)) else None
    case _ => None
  }

  /** The status written by the last event of a log that wrote one for this Stripe id. */
  function LastWritten(proPriceId: string, origin: Tables, log: seq<Delivery>,
                       stripeId: string): Option<SubscriptionStatus> {
    if log == [] then
      StatusOf(origin.subs, stripeId)
    else
      var before := log[..|log| - 1];
      var tables := Replay(proPriceId, origin, before);
      var written := if tables.Success? then StatusWritten(tables.value, log[|log| - 1].body) else None;
      if written.Some? && written.value.stripeId == stripeId then
        Some(written.value.status)
      else
        LastWritten(proPriceId, origin, before, stripeId)
  }

  lemma HandleWritesStatus(proPriceId: string, tables: Tables, d: Delivery, stripeId: string)
    requires Consistent(tables) && Handle(proPriceId, tables, d).Success?
    ensures Writes(tables.subs, Handle(proPriceId, tables, d).value.subs, StatusWritten(tables, d.body), stripeId)
  {
    match d.body
    case CheckoutCompleted(_, _, _) => CheckoutWritesStatus(proPriceId, tables, d, stripeId);
    case PaymentSucceeded(s) => InvoiceWritesStatus(tables, s, Active, stripeId);
    case PaymentFailed(s) => InvoiceWritesStatus(tables, s, PastDue, stripeId);
    case SubscriptionCreated(sub) => CreatedWritesStatus(proPriceId, tables, sub, stripeId);
    case SubscriptionUpdated(sub) => UpdatedWritesStatus(proPriceId, tables, sub, stripeId);
    case SubscriptionDeleted(sub) => DeletedWritesStatus(tables, sub, d.now, stripeId);
    case _ =>
  }

  ghost predicate Writes(before: seq<Subscription>, after: seq<Subscription>, written: Option<StatusWrite>,
                         stripeId: string) {
    StatusOf(after, stripeId) ==
      if written.Some? && written.value.stripeId == stripeId then Some(written.value.status)
          else StatusOf(before, stripeId)
  }

  lemma CheckoutWritesStatus(proPriceId: string, tables: Tables, d: Delivery, stripeId: string)
    requires d.body.CheckoutCompleted? && Consistent(tables) && HandleCheckout(proPriceId, tables, d).Success?
    ensures Writes(tables.subs, HandleCheckout(proPriceId, tables, d).value.subs, StatusWritten(tables, d.body),
        stripeId)
  {
    match d.body.tenant
    case Malformed =>
    case Parsed(t) =>
      if t in tables.tenants {
        UpsertWrites(tables, CheckoutRow(t, d.body.subscription, TierOf(d.body.displayed, proPriceId), d.now),
            stripeId);
      }
    case Missing =>
      var created := CreateTenant(tables, d.freshTenant, d.customer.value.email, d.customer.value.id).value;
      UpsertWrites(created, CheckoutRow(d.freshTenant, d.body.subscription, TierOf(d.body.displayed, proPriceId),
          d.now), stripeId);
  }

  lemma InvoiceWritesStatus(tables: Tables, invoiced: Option<string>, status: SubscriptionStatus, stripeId: string)
    requires Consistent(tables) && HandleInvoice(tables, invoiced, status).Success?
    ensures var written := if invoiced.Some? && invoiced.value != "" && Knows(tables.subs, invoiced.value) then
                             Some(StatusWrite(invoiced.value, status)) else None;
            Writes(tables.subs, HandleInvoice(tables, invoiced, status).value.subs, written, stripeId)
  {
    if invoiced.Some? && invoiced.value != "" && Knows(tables.subs, invoiced.value) {
      var i := GetByStripeId(tables.subs, invoiced).index;
      UpdateWrites(tables, i, tables.subs[i].(status := status), stripeId);
    }
  }

  lemma CreatedWritesStatus(proPriceId: string, tables: Tables, sub: StripeSubscription, stripeId: string)
    requires Consistent(tables) && HandleCreated(proPriceId, tables, sub).Success?
    ensures Writes(tables.subs, HandleCreated(proPriceId, tables, sub).value.subs,
                   StatusWritten(tables, SubscriptionCreated(sub)), stripeId)
  {
    match GetByStripeId(tables.subs, Some(sub.id))
    case OneRow(i) => UpdateWrites(tables, i, tables.subs[i].(status := ParseStatus(sub.status).value), stripeId);
    case NoRow =>
      InsertWrites(tables, Subscription(sub.tenant.tenant, TierOf(sub.price, proPriceId), Some(sub.id),
        ParseStatus(sub.status).value, sub.periodStart, sub.periodEnd, sub.cancelAtPeriodEnd, Truthy(sub.canceledAt)),
            stripeId);
  }

  lemma UpdatedWritesStatus(proPriceId: string, tables: Tables, sub: StripeSubscription, stripeId: string)
    requires Consistent(tables) && HandleUpdated(proPriceId, tables, sub).Success?
    ensures Writes(tables.subs, HandleUpdated(proPriceId, tables, sub).value.subs,
                   StatusWritten(tables, SubscriptionUpdated(sub)), stripeId)
  {
    match GetByStripeId(tables.subs, Some(sub.id))
    case OneRow(i) =>
      UpdateWrites(tables, i, HandleUpdated(proPriceId, tables, sub).value.subs[i], stripeId);
    case NoRow =>
  }

  lemma DeletedWritesStatus(tables: Tables, sub: StripeSubscription, now: int, stripeId: string)
    requires Consistent(tables) && HandleDeleted(tables, sub, now).Success?
    ensures Writes(tables.subs, HandleDeleted(tables, sub, now).value.subs,
                   StatusWritten(tables, SubscriptionDeleted(sub)), stripeId)
  {
    match GetByStripeId(tables.subs, Some(sub.id))
    case OneRow(i) => UpdateWrites(tables, i, HandleDeleted(tables, sub, now).value.subs[i], stripeId);
    case NoRow =>
  }

  /** Last writer wins: after replaying any log, the status of a Stripe subscription is the one the last event
      that wrote to it set, and a subscription nobody wrote does not exist. */
  lemma {:induction false} LastWriterWins(proPriceId: string, origin: Tables, log: seq<Delivery>, stripeId: string)
    requires Consistent(origin) && Replay(proPriceId, origin, log).Success?
    ensures var final := Replay(proPriceId, origin, log).value;
            && Consistent(final)
            && StatusOf(final.subs, stripeId) == LastWritten(proPriceId, origin, log, stripeId)
  {
    if log != [] {
      var before := log[..|log| - 1];
      LastWriterWins(proPriceId, origin, before, stripeId);
      var mid := Replay(proPriceId, origin, before).value;
      HandleKeepsTables(proPriceId, mid, log[|log| - 1]);
      HandleWritesStatus(proPriceId, mid, log[|log| - 1], stripeId);
    }
  }

  /** The same over runs: whatever was redelivered or failed, a subscription's committed status is the one set by
      the last committed event that wrote it. */
  lemma StatusOverRuns(proPriceId: string, origin: Tables, ds: seq<Delivery>, stripeId: string)
    requires Consistent(origin)
    ensures var final := DeliverAll(proPriceId, Store(origin, []), ds);
            Consistent(final.tables) && StatusOf(final.tables.subs, stripeId) ==
                LastWritten(proPriceId, origin, final.log, stripeId)
  {
    LogRefinement(proPriceId, origin, ds);
    LastWriterWins(proPriceId, origin, DeliverAll(proPriceId, Store(origin, []), ds).log, stripeId);
  }
}
