/**
 What each Stripe event does to the subscription table, event by event and without the handlers that do it: when it is
 handled, which row it writes and every field of that row. And, over whole runs, which plan a subscription is on.
 */
module Handlers {
  import opened Types
  import opened Tables
  import opened Webhook

  /** The name Stripe gives a status. */
  function StatusName(status: SubscriptionStatus): string {
    match status
    case Active => "active"
    case PastDue => "past_due"
    case Canceled => "canceled"
    case Incomplete => "incomplete"
    case Trialing => "trialing"
  }

  /** A status is read exactly from its name. */
  lemma StatusReadsBack(name: string)
    ensures forall status | StatusName(status) == name :: ParseStatus(name) == Some(status)
    ensures (forall status :: StatusName(status) != name) ==> ParseStatus(name) == None
  {
    if ParseStatus(name).Some? {
      assert StatusName(ParseStatus(name).value) == name;
    }
  }

  /** Row i has this Stripe id. */
  predicate Holds(tables: Tables, i: nat, stripeId: string) {
    i < |tables.subs| && tables.subs[i].stripeId == Some(stripeId)
  }

  ghost predicate Unknown(tables: Tables, stripeId: string) {
    forall i: nat :: !Holds(tables, i, stripeId)
  }

  predicate HasRow(tables: Tables, tenant: TenantId) {
    exists i | 0 <= i < |tables.subs| :: tables.subs[i].tenant == tenant
  }

  lemma HeldIsFound(tables: Tables, i: nat, stripeId: string)
    requires Consistent(tables) && Holds(tables, i, stripeId)
    ensures GetByStripeId(tables.subs, Some(stripeId)) == OneRow(i)
  {
    LookupsAreUnambiguous(tables.subs, stripeId, "");
  }

  lemma UnknownIsNotFound(tables: Tables, stripeId: string)
    requires Unknown(tables, stripeId)
    ensures GetByStripeId(tables.subs, Some(stripeId)) == NoRow
  {
    forall i | 0 <= i < |tables.subs| ensures tables.subs[i].stripeId != Some(stripeId) {
      assert !Holds(tables, i, stripeId);
    }
  }

  /** A new row with an id nobody has (or none) is refused exactly for a missing tenant or plan or a second row of
      the tenant. */
  lemma NewRowExactly(tables: Tables, row: Subscription)
    requires row.stripeId.Some? ==> Unknown(tables, row.stripeId.value)
    ensures InsertSubscription(tables, row) ==
              if row.tenant in tables.tenants && row.plan in tables.plans && !HasRow(tables, row.tenant) then
                Success(tables.(subs := tables.subs + [row]))
              else
                Failure
  {
    forall i | 0 <= i < |tables.subs| ensures Clashes(tables.subs[i], row) <==> tables.subs[i].tenant == row.tenant {
      if row.stripeId.Some? {
        assert !Holds(tables, i, row.stripeId.value);
      }
    }
  }

  // ----- Invoices -----

  function InvoiceStatus(body: EventBody): SubscriptionStatus
    requires body.PaymentSucceeded? || body.PaymentFailed?
  {
    if body.PaymentSucceeded? then Active else PastDue
  }

  /** A paid invoice makes its subscription active, a failed one past due; nothing else of the row changes. */
  lemma InvoiceExactly(proPriceId: string, tables: Tables, d: Delivery, i: nat, stripeId: string)
    requires Consistent(tables) && (d.body.PaymentSucceeded? || d.body.PaymentFailed?)
    requires d.body.invoiced == Some(stripeId) && stripeId != "" && Holds(tables, i, stripeId)
    ensures Handle(proPriceId, tables, d) ==
              Success(tables.(subs := tables.subs[i := tables.subs[i].(status := InvoiceStatus(d.body))]))
  {
    HeldIsFound(tables, i, stripeId);
    assert References(tables, tables.subs[i]);
  }

  lemma OtherInvoiceExactly(proPriceId: string, tables: Tables, d: Delivery)
    requires d.body.PaymentSucceeded? || d.body.PaymentFailed?
    requires d.body.invoiced.None? || d.body.invoiced.value == "" || Unknown(tables, d.body.invoiced.value)
    ensures Handle(proPriceId, tables, d) == Success(tables)
  {
    if d.body.invoiced.Some? && d.body.invoiced.value != "" {
      UnknownIsNotFound(tables, d.body.invoiced.value);
    }
  }

  // ----- Created -----

  /** A created event for a known id changes the status, if it has a name the service knows, and nothing else. */
  lemma CreatedKnownExactly(proPriceId: string, tables: Tables, d: Delivery, i: nat)
    requires Consistent(tables) && d.body.SubscriptionCreated? && Holds(tables, i, d.body.sub.id)
    ensures forall status | StatusName(status) == d.body.sub.status ::
              Handle(proPriceId, tables, d) == Success(tables.(subs :=
                  tables.subs[i := tables.subs[i].(status := status)]))
    ensures (forall status :: StatusName(status) != d.body.sub.status) ==> Handle(proPriceId, tables, d) == Failure
  {
    HeldIsFound(tables, i, d.body.sub.id);
    StatusReadsBack(d.body.sub.status);
    assert References(tables, tables.subs[i]);
  }

  /** Pro for the configured price, free for any other and for none. */
  function BoughtTier(price: PriceRef, proPriceId: string): PlanTier {
    match price
    case PriceId(id) => if id == proPriceId then Pro else Free
    case _ => Free
  }

  /** A created event for a new id adds one row with what the event says, if all of it can be read and the tenant
      has none. */
  lemma CreatedNewExactly(proPriceId: string, tables: Tables, d: Delivery, status: SubscriptionStatus)
    requires d.body.SubscriptionCreated? && Unknown(tables, d.body.sub.id)
    requires StatusName(status) == d.body.sub.status
    ensures var sub := d.body.sub;
            Handle(proPriceId, tables, d) ==
              if !sub.price.Unreadable? && sub.periodStart.Some? && sub.periodEnd.Some?
                 && sub.tenant.Parsed? && sub.tenant.tenant in tables.tenants && !HasRow(tables, sub.tenant.tenant)
                 && BoughtTier(sub.price, proPriceId) in tables.plans then
                Success(tables.(subs := tables.subs + [Subscription(
                  sub.tenant.tenant, BoughtTier(sub.price, proPriceId), Some(sub.id), status, sub.periodStart,
                      sub.periodEnd,
                  sub.cancelAtPeriodEnd, if sub.canceledAt == Some(0) then None else sub.canceledAt)]))
              else
                Failure
  {
    var sub := d.body.sub;
    UnknownIsNotFound(tables, sub.id);
    StatusReadsBack(sub.status);
    if sub.tenant.Parsed? {
      NewRowExactly(tables, Subscription(sub.tenant.tenant, BoughtTier(sub.price, proPriceId), Some(sub.id), status,
        sub.periodStart, sub.periodEnd, sub.cancelAtPeriodEnd, if sub.canceledAt == Some(0) then None
            else sub.canceledAt));
    }
  }

  lemma CreatedUnnamedExactly(proPriceId: string, tables: Tables, d: Delivery)
    requires d.body.SubscriptionCreated? && Unknown(tables, d.body.sub.id)
    requires forall status :: StatusName(status) != d.body.sub.status
    ensures Handle(proPriceId, tables, d) == Failure
  {
    UnknownIsNotFound(tables, d.body.sub.id);
    StatusReadsBack(d.body.sub.status);
  }

  // ----- Updated -----

  /** The plan after an update: the price's, unless there is no price or it is named like the stored plan. */
  function PlanAfterUpdate(stored: PlanTier, price: PriceRef, proPriceId: string): PlanTier {
    match price
    case PriceId(id) =>
      if stored == Free && id == "FREE" then Free
      else if stored == Pro && id == "PRO" then Pro
      else if id == proPriceId then Pro
      else Free
    case _ => stored
  }

  /** An update writes status, period, cancellation flag and plan, all or none; tenant, id and cancellation time
      stay. */
  lemma UpdatedExactly(proPriceId: string, tables: Tables, d: Delivery, i: nat, status: SubscriptionStatus)
    requires Consistent(tables) && d.body.SubscriptionUpdated? && Holds(tables, i, d.body.sub.id)
    requires StatusName(status) == d.body.sub.status
    ensures var sub, stored := d.body.sub, tables.subs[i];
            var plan := PlanAfterUpdate(stored.plan, sub.price, proPriceId);
            Handle(proPriceId, tables, d) ==
              if sub.periodStart.Some? && sub.periodEnd.Some? && !sub.price.Unreadable? && plan in tables.plans then
                Success(tables.(subs := tables.subs[i := Subscription(stored.tenant, plan, stored.stripeId, status,
                  sub.periodStart, sub.periodEnd, sub.cancelAtPeriodEnd, stored.canceledAt)]))
              else
                Failure
  {
    HeldIsFound(tables, i, d.body.sub.id);
    StatusReadsBack(d.body.sub.status);
  }

  lemma UpdatedUnnamedExactly(proPriceId: string, tables: Tables, d: Delivery, i: nat)
    requires Consistent(tables) && d.body.SubscriptionUpdated? && Holds(tables, i, d.body.sub.id)
    requires forall status :: StatusName(status) != d.body.sub.status
    ensures Handle(proPriceId, tables, d) == Failure
  {
    HeldIsFound(tables, i, d.body.sub.id);
    StatusReadsBack(d.body.sub.status);
  }

  // ----- Deleted -----

  /** A deletion cancels, at the time the event says or else now; nothing else of the row changes. */
  lemma DeletedExactly(proPriceId: string, tables: Tables, d: Delivery, i: nat)
    requires Consistent(tables) && d.body.SubscriptionDeleted? && Holds(tables, i, d.body.sub.id)
    ensures var at := if d.body.sub.canceledAt.None? || d.body.sub.canceledAt == Some(0) then Some(d.now)
                      else d.body.sub.canceledAt;
            Handle(proPriceId, tables, d) ==
              Success(tables.(subs := tables.subs[i := tables.subs[i].(status := Canceled, canceledAt := at)]))
  {
    HeldIsFound(tables, i, d.body.sub.id);
    assert References(tables, tables.subs[i]);
  }

  /** Updates and deletions of unknown ids, and the events that are only logged, are handled without effect. */
  lemma NoEffectExactly(proPriceId: string, tables: Tables, d: Delivery)
    requires || d.body.TrialWillEnd? || d.body.InvoiceUpcoming? || d.body.Unhandled?
             || ((d.body.SubscriptionUpdated? || d.body.SubscriptionDeleted?) && Unknown(tables, d.body.sub.id))
    ensures Handle(proPriceId, tables, d) == Success(tables)
  {
    if d.body.SubscriptionUpdated? || d.body.SubscriptionDeleted? {
      UnknownIsNotFound(tables, d.body.sub.id);
    }
  }

  // ----- Checkout -----

  /** The tenants after the checkout has found or created its tenant; `None` if it cannot. */
  function TenantsAfter(tables: Tables, d: Delivery): Option<map<TenantId, Tenant>>
    requires d.body.CheckoutCompleted?
  {
    match d.body.tenant
    case Parsed(t) => if t in tables.tenants then Some(tables.tenants) else None
    case Malformed => None
    case Missing =>
      if d.customer.Some? && d.customer.value.email.Some? && d.freshTenant !in tables.tenants
         && (forall t | t in tables.tenants :: tables.tenants[t].stripeCustomerId != Some(d.customer.value.id)) then
        Some(tables.tenants[d.freshTenant := Tenant(d.customer.value.email.value, Some(d.customer.value.id))])
      else
        None
  }

  function CheckoutTenant(d: Delivery): TenantId
    requires d.body.CheckoutCompleted?
  {
    if d.body.tenant.Parsed? then d.body.tenant.tenant else d.freshTenant
  }

  /** A checkout that names a tenant nobody knows is handled without effect; one that can create none fails. */
  lemma CheckoutWithoutTenantExactly(proPriceId: string, tables: Tables, d: Delivery)
    requires d.body.CheckoutCompleted? && TenantsAfter(tables, d).None?
    ensures Handle(proPriceId, tables, d) == if d.body.tenant.Missing? then Failure else Success(tables)
  {
  }

  /** A checkout of a known subscription makes its row active from now for thirty days on the plan bought; the row
      keeps its tenant, id and cancellation time. */
  lemma CheckoutKnownExactly(proPriceId: string, tables: Tables, d: Delivery, i: nat, stripeId: string)
    requires Consistent(tables) && d.body.CheckoutCompleted? && TenantsAfter(tables, d).Some?
    requires d.body.subscription == Some(stripeId) && Holds(tables, i, stripeId)
    ensures var plan, stored := BoughtTier(d.body.displayed, proPriceId), tables.subs[i];
            Handle(proPriceId, tables, d) ==
              if plan in tables.plans then
                Success(Tables(tables.plans, TenantsAfter(tables, d).value, tables.subs[i := Subscription(
                  stored.tenant, plan, stored.stripeId, Active, Some(d.now), Some(d.now + 2_592_000), false,
                  stored.canceledAt)]))
              else
                Failure
  {
    HeldIsFound(tables, i, stripeId);
  }

  /** The lookup before the upsert raises when it finds several rows, which only a null id can do. */
  predicate SeveralWithoutId(tables: Tables) {
    exists i, j | 0 <= i < j < |tables.subs| :: tables.subs[i].stripeId.None? && tables.subs[j].stripeId.None?
  }

  lemma SeveralAreFound(tables: Tables)
    ensures GetByStripeId(tables.subs, None).ManyRows? <==> SeveralWithoutId(tables)
  {
  }

  /** A checkout of a new subscription, or of none, adds such a row for its tenant, if the tenant has none. */
  lemma CheckoutNewExactly(proPriceId: string, tables: Tables, d: Delivery)
    requires Consistent(tables) && d.body.CheckoutCompleted? && TenantsAfter(tables, d).Some?
    requires d.body.subscription.Some? ==> Unknown(tables, d.body.subscription.value)
    ensures var plan, tenant := BoughtTier(d.body.displayed, proPriceId), CheckoutTenant(d);
            Handle(proPriceId, tables, d) ==
              if plan in tables.plans && !HasRow(tables, tenant)
                 && (d.body.subscription.Some? || !SeveralWithoutId(tables)) then
                Success(Tables(tables.plans, TenantsAfter(tables, d).value, tables.subs + [Subscription(
                  tenant, plan, d.body.subscription, Active, Some(d.now), Some(d.now + 2_592_000), false, None)]))
              else
                Failure
  {
    var row := Subscription(CheckoutTenant(d), BoughtTier(d.body.displayed, proPriceId), d.body.subscription, Active,
      Some(d.now), Some(d.now + 2_592_000), false, None);
    var with := tables.(tenants := TenantsAfter(tables, d).value);
    if d.body.subscription.Some? {
      UnknownIsNotFound(tables, d.body.subscription.value);
      assert Unknown(with, d.body.subscription.value) by {
        forall i: nat ensures !Holds(with, i, d.body.subscription.value) {
          assert !Holds(tables, i, d.body.subscription.value);
        }
      }
    }
    SeveralAreFound(tables);
    assert HasRow(with, row.tenant) == HasRow(tables, row.tenant);
    NewRowExactly(with, row);
  }

  // ----- The plan over whole runs -----

  function PlanOf(subs: seq<Subscription>, stripeId: string): Option<PlanTier> {
    match GetByStripeId(subs, Some(stripeId))
    case OneRow(i) => Some(subs[i].plan)
    case _ => None
  }

  datatype PlanWrite = PlanWrite(stripeId: string, plan: PlanTier)

  /** The plan an event writes and to which subscription. */
  function PlanWritten(proPriceId: string, tables: Tables, body: EventBody): Option<PlanWrite> {
    match body
    case CheckoutCompleted(tenant, Some(s), displayed) =>
      if tenant.Missing? || (tenant.Parsed? && tenant.tenant in tables.tenants) then
        Some(PlanWrite(s, BoughtTier(displayed, proPriceId)))
      else
        None
    case SubscriptionCreated(sub) =>
      if PlanOf(tables.subs, sub.id).None? then Some(PlanWrite(sub.id, BoughtTier(sub.price, proPriceId))) else None
    case SubscriptionUpdated(sub) =>
      var stored := PlanOf(tables.subs, sub.id);
      if stored.Some? then Some(PlanWrite(sub.id, PlanAfterUpdate(stored.value, sub.price, proPriceId))) else None
    case _ => None
  }

  lemma PlanOfUpdate(tables: Tables, i: nat, row: Subscription, stripeId: string)
    requires Consistent(tables) && i < |tables.subs| && row.stripeId == tables.subs[i].stripeId
    ensures PlanOf(tables.subs[i := row], stripeId) ==
              if row.stripeId == Some(stripeId) then Some(row.plan) else PlanOf(tables.subs, stripeId)
  {
    SameIdsSameLookup(tables.subs, tables.subs[i := row], stripeId);
    LookupsAreUnambiguous(tables.subs, stripeId, "");
  }

  lemma PlanOfAppend(tables: Tables, row: Subscription, stripeId: string)
    requires row.stripeId.Some? ==> Unknown(tables, row.stripeId.value)
    ensures PlanOf(tables.subs + [row], stripeId) ==
              if row.stripeId == Some(stripeId) then Some(row.plan) else PlanOf(tables.subs, stripeId)
  {
    assert (tables.subs + [row])[..|tables.subs|] == tables.subs;
    if row.stripeId == Some(stripeId) {
      UnknownIsNotFound(tables, stripeId);
    }
  }

  ghost predicate WritesPlan(before: seq<Subscription>, after: seq<Subscription>, written: Option<PlanWrite>,
                             stripeId: string) {
    PlanOf(after, stripeId) ==
      if written.Some? && written.value.stripeId == stripeId then Some(written.value.plan) else PlanOf(before, stripeId)
  }

  /** Every handled event leaves every subscription on the plan it was on, except the one it writes. */
  lemma HandleWritesPlan(proPriceId: string, tables: Tables, d: Delivery, stripeId: string)
    requires Consistent(tables) && Handle(proPriceId, tables, d).Success?
    ensures WritesPlan(tables.subs, Handle(proPriceId, tables, d).value.subs, PlanWritten(proPriceId, tables, d.body),
        stripeId)
  {
    match d.body
    case CheckoutCompleted(_, _, _) => CheckoutWritesPlan(proPriceId, tables, d, stripeId);
    case PaymentSucceeded(s) => InvoiceWritesPlan(proPriceId, tables, d, stripeId);
    case PaymentFailed(s) => InvoiceWritesPlan(proPriceId, tables, d, stripeId);
    case SubscriptionCreated(sub) => CreatedWritesPlan(proPriceId, tables, d, stripeId);
    case SubscriptionUpdated(sub) => UpdatedWritesPlan(proPriceId, tables, d, stripeId);
    case SubscriptionDeleted(sub) => DeletedWritesPlan(proPriceId, tables, d, stripeId);
    case _ =>
  }

  lemma CheckoutWritesPlan(proPriceId: string, tables: Tables, d: Delivery, stripeId: string)
    requires Consistent(tables) && d.body.CheckoutCompleted? && Handle(proPriceId, tables, d).Success?
    ensures WritesPlan(tables.subs, Handle(proPriceId, tables, d).value.subs, PlanWritten(proPriceId, tables, d.body),
        stripeId)
  {
    if TenantsAfter(tables, d).None? {
      CheckoutWithoutTenantExactly(proPriceId, tables, d);
    } else if i: nat :| d.body.subscription.Some? && Holds(tables, i, d.body.subscription.value) {
      CheckoutKnownExactly(proPriceId, tables, d, i, d.body.subscription.value);
      PlanOfUpdate(tables, i, Handle(proPriceId, tables, d).value.subs[i], stripeId);
    } else {
      CheckoutNewExactly(proPriceId, tables, d);
      PlanOfAppend(tables, Handle(proPriceId, tables, d).value.subs[|tables.subs|], stripeId);
    }
  }

  lemma InvoiceWritesPlan(proPriceId: string, tables: Tables, d: Delivery, stripeId: string)
    requires Consistent(tables) && (d.body.PaymentSucceeded? || d.body.PaymentFailed?)
    requires Handle(proPriceId, tables, d).Success?
    ensures WritesPlan(tables.subs, Handle(proPriceId, tables, d).value.subs, None, stripeId)
  {
    if i: nat :| d.body.invoiced.Some? && d.body.invoiced.value != "" && Holds(tables, i, d.body.invoiced.value) {
      InvoiceExactly(proPriceId, tables, d, i, d.body.invoiced.value);
      HeldIsFound(tables, i, d.body.invoiced.value);
      PlanOfUpdate(tables, i, Handle(proPriceId, tables, d).value.subs[i], stripeId);
    } else {
      OtherInvoiceExactly(proPriceId, tables, d);
    }
  }

  lemma CreatedWritesPlan(proPriceId: string, tables: Tables, d: Delivery, stripeId: string)
    requires Consistent(tables) && d.body.SubscriptionCreated? && Handle(proPriceId, tables, d).Success?
    ensures WritesPlan(tables.subs, Handle(proPriceId, tables, d).value.subs, PlanWritten(proPriceId, tables, d.body),
        stripeId)
  {
    var sub := d.body.sub;
    if i: nat :| Holds(tables, i, sub.id) {
      CreatedKnownExactly(proPriceId, tables, d, i);
      var status :| StatusName(status) == sub.status;
      HeldIsFound(tables, i, sub.id);
      PlanOfUpdate(tables, i, Handle(proPriceId, tables, d).value.subs[i], stripeId);
    } else {
      if forall status :: StatusName(status) != sub.status {
        CreatedUnnamedExactly(proPriceId, tables, d);
      }
      var status :| StatusName(status) == sub.status;
      CreatedNewExactly(proPriceId, tables, d, status);
      UnknownIsNotFound(tables, sub.id);
      PlanOfAppend(tables, Handle(proPriceId, tables, d).value.subs[|tables.subs|], stripeId);
    }
  }

  lemma UpdatedWritesPlan(proPriceId: string, tables: Tables, d: Delivery, stripeId: string)
    requires Consistent(tables) && d.body.SubscriptionUpdated? && Handle(proPriceId, tables, d).Success?
    ensures WritesPlan(tables.subs, Handle(proPriceId, tables, d).value.subs, PlanWritten(proPriceId, tables, d.body),
        stripeId)
  {
    var sub := d.body.sub;
    if i: nat :| Holds(tables, i, sub.id) {
      if forall status :: StatusName(status) != sub.status {
        UpdatedUnnamedExactly(proPriceId, tables, d, i);
      }
      var status :| StatusName(status) == sub.status;
      UpdatedExactly(proPriceId, tables, d, i, status);
      HeldIsFound(tables, i, sub.id);
      PlanOfUpdate(tables, i, Handle(proPriceId, tables, d).value.subs[i], stripeId);
    } else {
      NoEffectExactly(proPriceId, tables, d);
      UnknownIsNotFound(tables, sub.id);
    }
  }

  lemma DeletedWritesPlan(proPriceId: string, tables: Tables, d: Delivery, stripeId: string)
    requires Consistent(tables) && d.body.SubscriptionDeleted? && Handle(proPriceId, tables, d).Success?
    ensures WritesPlan(tables.subs, Handle(proPriceId, tables, d).value.subs, None, stripeId)
  {
    if i: nat :| Holds(tables, i, d.body.sub.id) {
      DeletedExactly(proPriceId, tables, d, i);
      HeldIsFound(tables, i, d.body.sub.id);
      PlanOfUpdate(tables, i, Handle(proPriceId, tables, d).value.subs[i], stripeId);
    } else {
      NoEffectExactly(proPriceId, tables, d);
    }
  }

  /** The plan written by the last event of a log that wrote one to this subscription. */
  function LastPlan(proPriceId: string, origin: Tables, log: seq<Delivery>, stripeId: string): Option<PlanTier> {
    if log == [] then
      PlanOf(origin.subs, stripeId)
    else
      var before := log[..|log| - 1];
      var tables := Replay(proPriceId, origin, before);
      var written := if tables.Success? then PlanWritten(proPriceId, tables.value, log[|log| - 1].body) else None;
      if written.Some? && written.value.stripeId == stripeId then Some(written.value.plan)
      else LastPlan(proPriceId, origin, before, stripeId)
  }

  lemma {:induction false} LastPlanWins(proPriceId: string, origin: Tables, log: seq<Delivery>, stripeId: string)
    requires Consistent(origin) && Replay(proPriceId, origin, log).Success?
    ensures var final := Replay(proPriceId, origin, log).value;
            Consistent(final) && PlanOf(final.subs, stripeId) == LastPlan(proPriceId, origin, log, stripeId)
  {
    if log != [] {
      var before := log[..|log| - 1];
      LastPlanWins(proPriceId, origin, before, stripeId);
      var mid := Replay(proPriceId, origin, before).value;
      HandleKeepsTables(proPriceId, mid, log[|log| - 1]);
      HandleWritesPlan(proPriceId, mid, log[|log| - 1], stripeId);
    }
  }

  /** Over every run of deliveries, whatever was redelivered or failed: a subscription is on the plan the last
      committed event that wrote one put it on. */
  lemma PlanOverRuns(proPriceId: string, origin: Tables, ds: seq<Delivery>, stripeId: string)
    requires Consistent(origin)
    ensures var final := DeliverAll(proPriceId, Store(origin, []), ds);
            PlanOf(final.tables.subs, stripeId) == LastPlan(proPriceId, origin, final.log, stripeId)
  {
    LogRefinement(proPriceId, origin, ds);
    LastPlanWins(proPriceId, origin, DeliverAll(proPriceId, Store(origin, []), ds).log, stripeId);
  }
}
